/** The mailbox when callers may give up: what a later call returns then depends on what the server was
    doing when the request was stored. */
module MailboxTimeouts {
  import opened Mailbox

  // ----- what always holds ----------------------------------------------------------------------

  predicate Signed(reply: Reply) {
    reply.result == 1 || reply.result == -1
  }

  /** Holds in every state, after time-outs as well. */
  predicate Sound(s: State) {
    && Locking(s)
    && (s.client.Entering? || s.client.StoreRequest? ==> s.client.call.request != 0)
    && (s.server.Listing? || s.server.StoreList? ==> s.server.req == LIST)
    && (s.server.Replying? || s.server.StoreResult? || s.server.StoreText? || s.server.ClearRequest? ==> Signed(s.server.reply))
  }

  lemma StepKeepsSound(s: State, step: Step)
    requires Sound(s) && Enabled(s, step)
    ensures Sound(Apply(s, step))
  {
  }

  lemma {:induction false} RunKeepsSound(s: State, run: seq<Step>)
    requires Sound(s) && CanRun(s, run)
    ensures Sound(Run(s, run))
    decreases |run|
  {
    if run != [] {
      StepKeepsSound(s, run[0]);
      RunKeepsSound(Apply(s, run[0]), run[1..]);
    }
  }

  // ----- what becomes of one call ---------------------------------------------------------------

  /** The reply a call is going to collect: whose request and name it answers, and whether its text, a
      list already stored in the mailbox, is wiped by the caller. */
  datatype Fate = Fate(request: int, name: string, wiped: bool, list: string)

  function Wanted(call: Call): string {
    Fit(call.name, 64)
  }

  /** The fate of a call whose request is about to be stored. The server cannot be inside a locked
      section then. */
  function FateOf(server: ServerPc, call: Call): Fate {
    match server
    case Resting => Fate(call.request, Wanted(call), false, "")
    case Noticed(req) => Fate(req, Wanted(call), false, "")
    case Handling(req, name) => Fate(req, name, false, "")
    case Listing(req, name, _) => Fate(req, name, false, "")
    case Replying(reply) =>
      Fate(reply.request, reply.name, reply.request == LIST, if reply.request == LIST then reply.text else "")
    case _ => Fate(0, "", false, "")
  }

  /** The server rests, or has noticed the same request, or is still at work on the same request and
      name; and if that is a list it has stored already, nothing of it would have fitted anyway. */
  predicate Clear(server: ServerPc, call: Call) {
    var f := FateOf(server, call);
    f.request == call.request && f.name == Wanted(call) && (f.wiped ==> Fit(f.list, call.msgSize) == "")
  }

  predicate Belongs(reply: Reply, f: Fate) {
    Signed(reply) && reply.request == f.request && reply.name == f.name
    && (f.wiped ==> reply.request == LIST && reply.text == f.list)
  }

  /** The text the caller finds. */
  function Told(reply: Reply, f: Fate): string {
    if f.wiped then "" else reply.text
  }

  predicate Named(pc: ClientPc) {
    pc.ClearAnswer? || pc.Waiting? || pc.Answered? || pc.Copying?
  }

  /** The server's place while the answer has not been stored. */
  predicate Working(s: State, call: Call, f: Fate) {
    match s.server
    case Resting => f == Fate(call.request, Wanted(call), false, "")
    case Noticed(req) => f == Fate(req, Wanted(call), false, "")
    case CopyName(req) => f == Fate(req, Wanted(call), false, "")
    case Handling(req, name) => f == Fate(req, name, false, "")
    case Listing(req, name, _) => f == Fate(req, name, false, "")
    case StoreList(req, name, _) => f == Fate(req, name, false, "")
    case Replying(reply) => Belongs(reply, f) && (reply.request == LIST ==> ListStored(s, reply, f))
    case StoreResult(reply) => Belongs(reply, f) && (reply.request == LIST ==> ListStored(s, reply, f))
    case _ => false
  }

  predicate ListStored(s: State, reply: Reply, f: Fate) {
    if s.client.Waiting? then s.text == Told(reply, f) else f.wiped
  }

  predicate Before(s: State, call: Call, f: Fate, h: nat) {
    && |s.handled| == h && s.request == call.request != 0
    && (s.client == StoreName(call) || s.client == ClearAnswer(call) || s.client == Waiting(call))
    && (Named(s.client) ==> s.name == Wanted(call))
    && (s.client.Waiting? ==> s.response == 0)
    && Working(s, call, f)
  }

  /** The caller has seen the response, or not yet. */
  predicate Collecting(s: State, call: Call) {
    s.client == Waiting(call) || s.client == Answered(call, s.response)
  }

  predicate During(s: State, call: Call, f: Fate, h: nat) {
    && |s.handled| == h && Collecting(s, call)
    && (s.server.StoreText? || s.server.ClearRequest?)
    && Belongs(s.server.reply, f) && s.response == s.server.reply.result
    && (s.server.ClearRequest? || s.server.reply.request == LIST ==> s.text == Told(s.server.reply, f))
  }

  predicate Handled(s: State, f: Fate, h: nat) {
    |s.handled| == h + 1 && s.server.Resting? && s.request == 0 && Belongs(s.handled[h], f)
  }

  predicate Stored(s: State, call: Call, f: Fate, h: nat) {
    && Handled(s, f, h)
    && (Collecting(s, call) || s.client == Copying(call, s.response))
    && s.response == s.handled[h].result && s.text == Told(s.handled[h], f)
  }

  predicate Done(s: State, call: Call, f: Fate, h: nat, n: nat) {
    && Handled(s, f, h) && s.client.Idle? && |s.returned| == n + 1
    && s.returned[n] == Outcome(s.handled[h].result == 1, Fit(Told(s.handled[h], f), call.msgSize))
  }

  predicate Tracks(s: State, call: Call, f: Fate, h: nat, n: nat) {
    || (|s.returned| == n && (Before(s, call, f, h) || During(s, call, f, h) || Stored(s, call, f, h)))
    || Done(s, call, f, h, n)
  }

  /** A step of this call: no other call begins, and this one is not given up. */
  predicate OfCall(step: Step) {
    !step.StartCall? && !step.ClientGivesUp?
  }

  lemma BeforeTracks(s: State, step: Step, call: Call, f: Fate, h: nat, n: nat)
    requires Sound(s) && |s.returned| == n && Before(s, call, f, h) && Enabled(s, step) && OfCall(step)
    ensures Tracks(Apply(s, step), call, f, h, n)
  {
    FitTwice(call.name, PROFILE_NAME_LEN);
  }

  lemma DuringTracks(s: State, step: Step, call: Call, f: Fate, h: nat, n: nat)
    requires Sound(s) && |s.returned| == n && During(s, call, f, h) && Enabled(s, step) && OfCall(step)
    ensures Tracks(Apply(s, step), call, f, h, n)
  {
  }

  lemma StoredTracks(s: State, step: Step, call: Call, f: Fate, h: nat, n: nat)
    requires Sound(s) && Enabled(s, step) && OfCall(step)
    requires Done(s, call, f, h, n) || (|s.returned| == n && Stored(s, call, f, h))
    ensures Tracks(Apply(s, step), call, f, h, n)
  {
  }

  lemma {:induction false} RunTracks(s: State, run: seq<Step>, call: Call, f: Fate, h: nat, n: nat)
    requires Sound(s) && Tracks(s, call, f, h, n) && CanRun(s, run) && forall step | step in run :: OfCall(step)
    ensures Tracks(Run(s, run), call, f, h, n)
    decreases |run|
  {
    if run != [] {
      StepKeepsSound(s, run[0]);
      if |s.returned| == n && Before(s, call, f, h) {
        BeforeTracks(s, run[0], call, f, h, n);
      } else if |s.returned| == n && During(s, call, f, h) {
        DuringTracks(s, run[0], call, f, h, n);
      } else {
        StoredTracks(s, run[0], call, f, h, n);
      }
      RunTracks(Apply(s, run[0]), run[1..], call, f, h, n);
    }
  }

  lemma StoringTracks(s: State, call: Call)
    requires Sound(s) && s.client == StoreRequest(call)
    ensures Enabled(s, ClientStores)
    ensures Tracks(Apply(s, ClientStores), call, FateOf(s.server, call), |s.handled|, |s.returned|)
  {
  }

  /** The call returned the reply to its own request and name, whole. */
  predicate ReturnedOwn(s: State, call: Call) {
    s.handled != [] && s.returned != []
    && var reply := s.handled[|s.handled| - 1];
       Answers(reply, call) && s.returned[|s.returned| - 1] == Delivered(reply, call)
  }

  /** In every run from every state reachable with any number of time-outs: a call that is not itself
      given up returns its own reply if and only if the server was clear for it when its request was
      stored. Whatever happens, exactly one request is handled meanwhile. */
  lemma OwnReplyExactly(s0: State, past: seq<Step>, s: State, call: Call, run: seq<Step>)
    requires Init(s0) && CanRun(s0, past) && Run(s0, past) == s
    requires s.client == StoreRequest(call) && run != [] && run[0] == ClientStores
    requires CanRun(s, run) && forall step | step in run :: OfCall(step)
    requires |Run(s, run).returned| == |s.returned| + 1
    ensures |Run(s, run).handled| == |s.handled| + 1
    ensures ReturnedOwn(Run(s, run), call) <==> Clear(s.server, call)
  {
    RunKeepsSound(s0, past);
    StepKeepsSound(s, ClientStores);
    StoringTracks(s, call);
    var f, h, n := FateOf(s.server, call), |s.handled|, |s.returned|;
    RunTracks(Apply(s, ClientStores), run[1..], call, f, h, n);
    DoneExactly(Run(s, run), call, f, h, n);
  }

  lemma DoneExactly(s: State, call: Call, f: Fate, h: nat, n: nat)
    requires Done(s, call, f, h, n)
    ensures ReturnedOwn(s, call) <==>
            f.request == call.request && f.name == Wanted(call) && (f.wiped ==> Fit(f.list, call.msgSize) == "")
  {
    assert Fit("", call.msgSize) == "";
  }

  /** Without time-outs the server always rests when a request is stored, so every call is clear. */
  lemma ClearWithoutTimeouts(s: State, call: Call)
    requires Inv(s) && s.client == StoreRequest(call)
    ensures Clear(s.server, call)
  {
  }
}
