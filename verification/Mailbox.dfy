/** The profile mailbox in shared memory: one client calling `profile_request_sync`, the settings
    thread running `profile_process_requests`, step by step. Both sides read their flag without the
    mutex, the server `profile_request` and the client `profile_response`; everything else happens
    under it, one store per step. */
module Mailbox {

  const PROFILE_NAME_LEN := 64
  const LIST := 4

  /** Copying a C string into a buffer of `cap` bytes. */
  function Fit(s: string, cap: nat): string {
    if |s| < cap then s else if cap == 0 then "" else s[..cap - 1]
  }

  datatype Call = Call(request: int, name: string, msgSize: nat)

  datatype Reply = Reply(request: int, name: string, result: int, text: string)

  datatype Outcome = Outcome(ok: bool, text: string)

  datatype Holder = Nobody | Client | Server

  datatype ClientPc =
    | Idle
    | Entering(call: Call)                  // about to lock
    | StoreRequest(call: Call)              // locked
    | StoreName(call: Call)                 // locked
    | ClearAnswer(call: Call)               // locked, releases
    | Waiting(call: Call)
    | Answered(call: Call, seen: int)       // saw a response, about to lock
    | Copying(call: Call, seen: int)        // locked, releases

  datatype ServerPc =
    | Resting
    | Noticed(req: int)                                         // about to lock
    | CopyName(req: int)                                        // locked, releases
    | Handling(req: int, name: string)
    | Listing(req: int, name: string, text: string)             // about to lock
    | StoreList(req: int, name: string, text: string)           // locked, releases
    | Replying(reply: Reply)                                    // about to lock
    | StoreResult(reply: Reply)                                 // locked
    | StoreText(reply: Reply)                                   // locked
    | ClearRequest(reply: Reply)                                // locked, releases

  datatype State = State(
    mutex: Holder,
    request: int,
    name: string,
    response: int,
    text: string,
    client: ClientPc,
    server: ServerPc,
    issued: seq<Call>,
    handled: seq<Reply>,
    returned: seq<Outcome>)

  /** The server's processing is a black box that answers 1 or -1 with some text. */
  datatype Step =
    | StartCall(call: Call)
    | ClientLocks
    | ClientStores
    | ClientPolls
    | ClientGivesUp
    | ServerLooks
    | ServerLocks
    | ServerStores
    | ServerHandles(ok: bool, text: string)

  predicate Enabled(s: State, step: Step) {
    match step
    case StartCall(call) => s.client.Idle? && call.request != 0
    case ClientLocks => (s.client.Entering? || s.client.Answered?) && s.mutex.Nobody?
    case ClientStores => s.client.StoreRequest? || s.client.StoreName? || s.client.ClearAnswer? || s.client.Copying?
    case ClientPolls => s.client.Waiting?
    case ClientGivesUp => s.client.Waiting?
    case ServerLooks => s.server.Resting?
    case ServerLocks => (s.server.Noticed? || s.server.Listing? || s.server.Replying?) && s.mutex.Nobody?
    case ServerStores => s.server.CopyName? || s.server.StoreList? || s.server.StoreResult? || s.server.StoreText? || s.server.ClearRequest?
    case ServerHandles(_, _) => s.server.Handling?
  }

  function Apply(s: State, step: Step): State
    requires Enabled(s, step)
  {
    match step
    case StartCall(call) => s.(client := Entering(call))
    case ClientLocks =>
      s.(mutex := Client,
         client := if s.client.Entering? then StoreRequest(s.client.call) else Copying(s.client.call, s.client.seen))
    case ClientStores => ClientStore(s)
    case ClientPolls => if s.response == 0 then s else s.(client := Answered(s.client.call, s.response))
    case ClientGivesUp => s.(client := Idle, returned := s.returned + [Outcome(false, Fit("Timeout waiting for daemon", s.client.call.msgSize))])
    case ServerLooks => if s.request == 0 then s else s.(server := Noticed(s.request))
    case ServerLocks =>
      s.(mutex := Server,
         server := match s.server
                   case Noticed(req) => CopyName(req)
                   case Listing(req, name, text) => StoreList(req, name, text)
                   case Replying(reply) => StoreResult(reply)
                   case _ => s.server)
    case ServerStores => ServerStore(s)
    case ServerHandles(ok, text) =>
      var result := if ok then 1 else -1;
      if s.server.req == LIST then s.(server := Listing(LIST, s.server.name, text))
      else s.(server := Replying(Reply(s.server.req, s.server.name, result, text)))
  }

  function ClientStore(s: State): State
    requires Enabled(s, ClientStores)
  {
    match s.client
    case StoreRequest(call) => s.(request := call.request, client := StoreName(call), issued := s.issued + [call])
    case StoreName(call) => s.(name := Fit(call.name, PROFILE_NAME_LEN), client := ClearAnswer(call))
    case ClearAnswer(call) => s.(response := 0, text := "", client := Waiting(call), mutex := Nobody)
    case Copying(call, seen) =>
      s.(returned := s.returned + [Outcome(seen == 1, Fit(s.text, call.msgSize))],
         response := 0, client := Idle, mutex := Nobody)
  }

  function ServerStore(s: State): State
    requires Enabled(s, ServerStores)
  {
    match s.server
    case CopyName(req) => s.(server := Handling(req, Fit(s.name, PROFILE_NAME_LEN)), mutex := Nobody)
    case StoreList(req, name, text) =>
      s.(text := text, server := Replying(Reply(req, name, 1, text)), mutex := Nobody)
    case StoreResult(reply) => s.(response := reply.result, server := StoreText(reply))
    case StoreText(reply) => s.(text := if reply.request == LIST then s.text else reply.text, server := ClearRequest(reply))
    case ClearRequest(reply) => s.(request := 0, server := Resting, mutex := Nobody, handled := s.handled + [reply])
  }

  predicate Init(s: State) {
    && s.mutex.Nobody? && s.request == 0 && s.response == 0
    && s.client.Idle? && s.server.Resting?
    && s.issued == [] && s.handled == [] && s.returned == []
  }

  predicate CanRun(s: State, run: seq<Step>)
    decreases |run|
  {
    run != [] ==> Enabled(s, run[0]) && CanRun(Apply(s, run[0]), run[1..])
  }

  function Run(s: State, run: seq<Step>): State
    requires CanRun(s, run)
    decreases |run|
  {
    if run == [] then s else Run(Apply(s, run[0]), run[1..])
  }

  // ----- what the mailbox promises ------------------------------------------------------------

  /** The reply is to this call: its request and its (truncated) name. */
  predicate Answers(reply: Reply, call: Call) {
    reply.request == call.request && reply.name == Fit(call.name, 64)
  }

  /** What the caller is handed for a reply. */
  function Delivered(reply: Reply, call: Call): Outcome {
    Outcome(reply.result == 1, Fit(reply.text, call.msgSize))
  }

  /** Every request is handled once, in order, and every call returned its own reply. */
  ghost predicate Faithful(s: State) {
    && |s.returned| <= |s.handled| <= |s.issued| <= |s.returned| + 1
    && (forall i | 0 <= i < |s.handled| :: Answers(s.handled[i], s.issued[i]))
    && (forall i | 0 <= i < |s.returned| :: s.returned[i] == Delivered(s.handled[i], s.issued[i]))
  }

  // ----- the invariant ------------------------------------------------------------------------

  predicate ClientHolds(pc: ClientPc) {
    pc.StoreRequest? || pc.StoreName? || pc.ClearAnswer? || pc.Copying?
  }

  predicate ServerHolds(pc: ServerPc) {
    pc.CopyName? || pc.StoreList? || pc.StoreResult? || pc.StoreText? || pc.ClearRequest?
  }

  predicate Locking(s: State) {
    && (s.mutex.Client? <==> ClientHolds(s.client))
    && (s.mutex.Server? <==> ServerHolds(s.server))
  }

  predicate ReplyOk(reply: Reply, call: Call) {
    Answers(reply, call) && (reply.result == 1 || reply.result == -1)
  }

  /** No call is open, or none of its stores has been made. */
  predicate Quiet(s: State) {
    s.request == 0 && s.response == 0 && s.server.Resting? && |s.returned| == |s.handled| == |s.issued|
  }

  /** The request is in the mailbox and not yet answered: where the server may be. */
  predicate Pending(s: State, call: Call) {
    && s.request == call.request && s.response == 0
    && |s.returned| == |s.handled| == |s.issued| - 1 && s.issued[|s.issued| - 1] == call
    && match s.server
       case Resting => true
       case Noticed(req) => req == call.request
       case CopyName(req) => req == call.request && s.name == Fit(call.name, PROFILE_NAME_LEN)
       case Handling(req, name) => req == call.request && name == Fit(call.name, PROFILE_NAME_LEN)
       case Listing(req, name, _) => req == call.request == LIST && name == Fit(call.name, PROFILE_NAME_LEN)
       case StoreList(req, name, _) => req == call.request == LIST && name == Fit(call.name, PROFILE_NAME_LEN)
       case Replying(reply) => ReplyOk(reply, call) && (call.request == LIST ==> s.text == reply.text)
       case StoreResult(reply) => ReplyOk(reply, call) && (call.request == LIST ==> s.text == reply.text)
       case StoreText(_) => false
       case ClearRequest(_) => false
  }

  /** The server is storing its answer under the mutex. */
  predicate BeingAnswered(s: State, call: Call) {
    && |s.returned| == |s.handled| == |s.issued| - 1 && s.issued[|s.issued| - 1] == call
    && (s.server.StoreText? || s.server.ClearRequest?)
    && ReplyOk(s.server.reply, call) && s.response == s.server.reply.result
    && (s.server.ClearRequest? || call.request == LIST ==> s.text == s.server.reply.text)
  }

  /** The answer is complete. */
  predicate Complete(s: State, call: Call) {
    && |s.returned| + 1 == |s.handled| == |s.issued| && s.issued[|s.issued| - 1] == call
    && s.request == 0 && s.server.Resting?
    && ReplyOk(s.handled[|s.handled| - 1], call)
    && s.response == s.handled[|s.handled| - 1].result && s.text == s.handled[|s.handled| - 1].text
  }

  /** Before the client's stores are done the server can at most have noticed the new request. */
  predicate Stored(s: State, call: Call) {
    Pending(s, call) && call.request != 0 && (s.server.Resting? || s.server.Noticed?)
  }

  ghost predicate Phases(s: State) {
    match s.client
    case Idle => Quiet(s)
    case Entering(call) => Quiet(s) && call.request != 0
    case StoreRequest(call) => Quiet(s) && call.request != 0
    case StoreName(call) => Stored(s, call)
    case ClearAnswer(call) => Stored(s, call) && s.name == Fit(call.name, PROFILE_NAME_LEN)
    case Waiting(call) =>
      call.request != 0 && s.name == Fit(call.name, PROFILE_NAME_LEN)
      && (Pending(s, call) || BeingAnswered(s, call) || Complete(s, call))
    case Answered(call, seen) => (BeingAnswered(s, call) || Complete(s, call)) && seen == s.response
    case Copying(call, seen) => Complete(s, call) && seen == s.response
  }

  ghost predicate Inv(s: State) {
    Locking(s) && Phases(s) && Faithful(s)
  }

  /** A copy is the longest beginning of the string that leaves room for the end mark. */
  lemma FitFits(s: string, cap: nat)
    ensures Fit(s, cap) <= s && (cap > 0 ==> |Fit(s, cap)| < cap)
    ensures |Fit(s, cap)| == |s| || |Fit(s, cap)| == cap - 1 || (cap == 0 && Fit(s, cap) == "")
    ensures Fit(s, cap) == s <==> |s| < cap || s == ""
  {
  }

  /** What the server makes of its processing: a list always counts as done and is stored first; anything else is
      answered with 1 or -1 as it went, with its text. */
  lemma HandlingAnswers(s: State, ok: bool, text: string)
    requires Enabled(s, ServerHandles(ok, text))
    ensures var t, reply := Apply(s, ServerHandles(ok, text)), Reply(s.server.req, s.server.name, if ok then 1 else -1, text);
      && t == s.(server := t.server)
      && t.server == if s.server.req == 4 then Listing(s.server.req, s.server.name, text) else Replying(reply)
  {
  }

  lemma ListsAreAnswered(s: State)
    requires Enabled(s, ServerStores) && s.server.StoreList?
    ensures var t := Apply(s, ServerStores);
      t.text == s.server.text && t.server == Replying(Reply(s.server.req, s.server.name, 1, s.server.text)) && t.mutex.Nobody?
  {
  }

  lemma FitTwice(s: string, cap: nat)
    ensures Fit(Fit(s, cap), cap) == Fit(s, cap)
  {
  }

  lemma ClientKeepsInv(s: State, step: Step)
    requires Inv(s) && Enabled(s, step)
    requires step.StartCall? || step.ClientLocks? || step.ClientStores? || step.ClientPolls?
    ensures Inv(Apply(s, step))
  {
  }

  lemma ServerKeepsInv(s: State, step: Step)
    requires Inv(s) && Enabled(s, step)
    requires step.ServerLooks? || step.ServerLocks? || step.ServerStores? || step.ServerHandles?
    ensures Inv(Apply(s, step))
  {
    FitTwice(s.name, PROFILE_NAME_LEN);
  }

  /** Without time-outs the mailbox is faithful in every reachable state, whatever the interleaving,
      and between calls both flags are 0 and every request issued so far was handled and returned. */
  lemma {:induction false} MailboxIsFaithful(s: State, run: seq<Step>)
    requires Inv(s) && CanRun(s, run) && ClientGivesUp !in run
    ensures Inv(Run(s, run))
    ensures Faithful(Run(s, run))
    ensures Run(s, run).client.Idle? ==>
              && Run(s, run).request == 0 && Run(s, run).response == 0
              && |Run(s, run).issued| == |Run(s, run).handled| == |Run(s, run).returned|
    decreases |run|
  {
    if run != [] {
      var step := run[0];
      if step.ServerLooks? || step.ServerLocks? || step.ServerStores? || step.ServerHandles? {
        ServerKeepsInv(s, step);
      } else {
        assert step != ClientGivesUp;
        ClientKeepsInv(s, step);
      }
      MailboxIsFaithful(Apply(s, step), run[1..]);
    }
  }

  lemma InitInv(s: State)
    requires Init(s)
    ensures Inv(s)
  {
  }

  // ----- every call returns -------------------------------------------------------------------

  function ServerRank(pc: ServerPc): nat {
    match pc
    case Resting => 10
    case Noticed(_) => 9
    case CopyName(_) => 8
    case Handling(_, _) => 7
    case Listing(_, _, _) => 6
    case StoreList(_, _, _) => 5
    case Replying(_) => 4
    case StoreResult(_) => 3
    case StoreText(_) => 2
    case ClearRequest(_) => 1
  }

  /** Steps until the open call returns. */
  function CallRank(s: State): nat {
    var client := match s.client
      case Idle => 0
      case Entering(_) => 7
      case StoreRequest(_) => 6
      case StoreName(_) => 5
      case ClearAnswer(_) => 4
      case Waiting(_) => 3
      case Answered(_, _) => 2
      case Copying(_, _) => 1;
    client + if |s.handled| == |s.issued| && !s.client.Entering? && !s.client.StoreRequest? then 0 else ServerRank(s.server)
  }

  /** A step that looks at a flag and finds nothing. */
  predicate FindsNothing(s: State, step: Step) {
    (step.ClientPolls? && s.response == 0) || (step.ServerLooks? && s.request == 0)
  }

  /** A call is over after at most 17 steps that do not just look at an empty flag. */
  lemma CallRankDecreases(s: State, step: Step)
    requires Inv(s) && !s.client.Idle? && Enabled(s, step) && !step.ClientGivesUp?
    ensures if FindsNothing(s, step) then Apply(s, step) == s else CallRank(Apply(s, step)) < CallRank(s) <= 17
  {
  }

  /** And such a step is always possible while a call is open. */
  lemma CallNeverStalls(s: State)
    requires Inv(s) && !s.client.Idle?
    ensures exists step :: Enabled(s, step) && !FindsNothing(s, step) && !step.ClientGivesUp?
  {
    if s.mutex.Client? {
      assert Enabled(s, ClientStores);
    } else if s.mutex.Server? {
      assert Enabled(s, ServerStores);
    } else if s.client.Entering? || s.client.Answered? {
      assert Enabled(s, ClientLocks);
    } else if s.response != 0 {
      assert Enabled(s, ClientPolls);
    } else if s.server.Resting? {
      assert Enabled(s, ServerLooks);
    } else if s.server.Handling? {
      assert Enabled(s, ServerHandles(true, ""));
    } else {
      assert Enabled(s, ServerLocks);
    }
  }

  // ----- a time-out breaks it -----------------------------------------------------------------

  /** From rest, a client puts a request in the mailbox. */
  lemma PutRequest(s0: State, run: seq<Step>, s: State, call: Call) returns (s1: State, run1: seq<Step>)
    requires CanRun(s0, run) && Run(s0, run) == s && s.client.Idle? && s.mutex.Nobody? && call.request != 0
    ensures CanRun(s0, run1) && Run(s0, run1) == s1
    ensures s1 == s.(client := Waiting(call), request := call.request, name := Fit(call.name, PROFILE_NAME_LEN),
                     response := 0, text := "", issued := s.issued + [call])
  {
    s1, run1 := Go(s0, run, s, StartCall(call));
    s1, run1 := Go(s0, run1, s1, ClientLocks);
    s1, run1 := Go(s0, run1, s1, ClientStores);
    s1, run1 := Go(s0, run1, s1, ClientStores);
    s1, run1 := Go(s0, run1, s1, ClientStores);
  }

  /** The server takes a request out and is about to answer it. */
  lemma TakeRequest(s0: State, run: seq<Step>, s: State, text: string) returns (s1: State, run1: seq<Step>)
    requires CanRun(s0, run) && Run(s0, run) == s && s.server.Resting? && s.mutex.Nobody?
    requires s.request != 0 && s.request != LIST
    ensures CanRun(s0, run1) && Run(s0, run1) == s1
    ensures s1 == s.(server := Replying(Reply(s.request, Fit(s.name, PROFILE_NAME_LEN), 1, text)))
  {
    s1, run1 := Go(s0, run, s, ServerLooks);
    s1, run1 := Go(s0, run1, s1, ServerLocks);
    s1, run1 := Go(s0, run1, s1, ServerStores);
    s1, run1 := Go(s0, run1, s1, ServerHandles(true, text));
  }

  /** The server stores its answer and the waiting client collects it. */
  lemma AnswerAndCollect(s0: State, run: seq<Step>, s: State) returns (s1: State, run1: seq<Step>)
    requires CanRun(s0, run) && Run(s0, run) == s && s.server.Replying? && s.mutex.Nobody? && s.client.Waiting?
    requires s.server.reply.request != LIST && s.server.reply.result == 1
    ensures CanRun(s0, run1) && Run(s0, run1) == s1
    ensures s1 == s.(request := 0, response := 0, text := s.server.reply.text, client := Idle, server := Resting,
                     handled := s.handled + [s.server.reply],
                     returned := s.returned + [Delivered(s.server.reply, s.client.call)])
  {
    s1, run1 := Go(s0, run, s, ServerLocks);
    s1, run1 := Go(s0, run1, s1, ServerStores);
    s1, run1 := Go(s0, run1, s1, ServerStores);
    s1, run1 := Go(s0, run1, s1, ServerStores);
    s1, run1 := Go(s0, run1, s1, ClientPolls);
    s1, run1 := Go(s0, run1, s1, ClientLocks);
    s1, run1 := Go(s0, run1, s1, ClientStores);
  }

  /** The caller of request 1 gives up while the server is handling it and calls again with request 2:
      the second call returns the first one's reply, and its own request is erased unhandled. */
  lemma TimeoutMixesReplies(s0: State) returns (s: State, run: seq<Step>)
    requires Init(s0)
    ensures CanRun(s0, run) && Run(s0, run) == s
    ensures s.client.Idle? && s.request == 0 && s.server.Resting?
    ensures s.issued == [Call(1, "a", 512), Call(2, "b", 512)]
    ensures s.handled == [Reply(1, "a", 1, "loaded")]
    ensures s.returned == [Outcome(false, "Timeout waiting for daemon"), Outcome(true, "loaded")]
  {
    s, run := PutRequest(s0, [], s0, Call(1, "a", 512));
    s, run := TakeRequest(s0, run, s, "loaded");
    s, run := Go(s0, run, s, ClientGivesUp);
    s, run := PutRequest(s0, run, s, Call(2, "b", 512));
    s, run := AnswerAndCollect(s0, run, s);
  }

  lemma Go(s0: State, run: seq<Step>, s: State, step: Step) returns (s1: State, run1: seq<Step>)
    requires CanRun(s0, run) && Run(s0, run) == s && Enabled(s, step)
    ensures run1 == run + [step] && CanRun(s0, run1) && Run(s0, run1) == s1 == Apply(s, step)
    decreases |run|
  {
    s1, run1 := Apply(s, step), run + [step];
    if run == [] {
      assert run1[1..] == [];
    } else {
      assert run1[1..] == run[1..] + [step];
      var t, rest := Go(Apply(s0, run[0]), run[1..], s, step);
    }
  }
}
