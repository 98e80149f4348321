/** The command line of the client: several commands for one slot in one call, each introduced by a
    token that starts with two dashes. */
module BatchCommands {
  datatype Command = Command(name: string, args: seq<string>)

  /** The table of slot commands, with what a handler answers to its `k`-th call. */
  datatype Table = Table(names: set<string>, handle: (nat, Command) -> int)

  predicate Dashed(token: string) {
    |token| >= 2 && token[..2] == "--"
  }

  /** `execute_slot_command`. */
  function Execute(table: Table, k: nat, c: Command): int {
    if c.name in table.names then table.handle(k, c) else 1
  }

  // ----- the meaning of a token list ------------------------------------------------------------

  /** Where the arguments that start at `i` end. */
  function ArgsEnd(tokens: seq<string>, i: nat): (j: nat)
    requires i <= |tokens|
    ensures i <= j <= |tokens|
    ensures forall k | i <= k < j :: !Dashed(tokens[k])
    ensures j < |tokens| ==> Dashed(tokens[j])
    decreases |tokens| - i
  {
    if i < |tokens| && !Dashed(tokens[i]) then ArgsEnd(tokens, i + 1) else i
  }

  /** The commands dispatched from token `i` on; a token that should start a command and does not ends
      the list. */
  function Commands(tokens: seq<string>, i: nat): seq<Command>
    requires i <= |tokens|
    decreases |tokens| - i
  {
    if i == |tokens| || !Dashed(tokens[i]) then []
    else
      var j := ArgsEnd(tokens, i + 1);
      [Command(tokens[i][2..], tokens[i + 1..j])] + Commands(tokens, j)
  }

  /** The exit status: the last failure, if there was one. */
  function Status(table: Table, cmds: seq<Command>, n: nat): int
    requires n <= |cmds|
  {
    if n == 0 then 0
    else
      var r := Execute(table, n - 1, cmds[n - 1]);
      if r != 0 then r else Status(table, cmds, n - 1)
  }

  /** The inner loop: the index behind the arguments that start at `first`. */
  method SkipArgs(tokens: seq<string>, first: nat) returns (i: nat)
    requires first <= |tokens|
    ensures i == ArgsEnd(tokens, first)
  {
    i := first;
    while i < |tokens| && !Dashed(tokens[i])
      invariant first <= i <= |tokens|
      invariant ArgsEnd(tokens, i) == ArgsEnd(tokens, first)
    {
      i := i + 1;
    }
  }

  /** One command and its arguments. */
  method TakeCommand(tokens: seq<string>, i: nat) returns (j: nat, command: Command)
    requires i < |tokens| && Dashed(tokens[i])
    ensures i < j <= |tokens| && (j < |tokens| ==> Dashed(tokens[j]))
    ensures Commands(tokens, i) == [command] + Commands(tokens, j)
  {
    j := SkipArgs(tokens, i + 1);
    command := Command(tokens[i][2..], tokens[i + 1..j]);
  }

  /** The loop of `process_cli_command` over the tokens after the slot number. */
  method RunBatch(tokens: seq<string>, table: Table) returns (status: int, dispatched: seq<Command>, complained: bool)
    ensures dispatched == Commands(tokens, 0)
    ensures complained <==> tokens != [] && !Dashed(tokens[0])
    ensures status == if complained then 1 else Status(table, dispatched, |dispatched|)
  {
    status, dispatched, complained := 0, [], false;
    var i := 0;
    while i < |tokens|
      invariant i <= |tokens|
      invariant Commands(tokens, 0) == dispatched + Commands(tokens, i)
      invariant 0 < i < |tokens| ==> Dashed(tokens[i])
      invariant if i == 0 then dispatched == [] else Dashed(tokens[0])
      invariant status == Status(table, dispatched, |dispatched|)
    {
      if !Dashed(tokens[i]) {
        return 1, dispatched, true;
      }
      var j, command := TakeCommand(tokens, i);
      var r := Execute(table, |dispatched|, command);
      StatusAppend(table, dispatched, command);
      Associates(dispatched, [command], Commands(tokens, j));
      dispatched := dispatched + [command];
      if r != 0 { status := r; }
      i := j;
    }
  }

  lemma StatusAppend(table: Table, cmds: seq<Command>, c: Command)
    ensures var r := Execute(table, |cmds|, c);
      Status(table, cmds + [c], |cmds + [c]|) == if r != 0 then r else Status(table, cmds, |cmds|)
  {
    SamePrefix(table, cmds, cmds + [c], |cmds|);
  }

  lemma {:induction false} SamePrefix(table: Table, a: seq<Command>, b: seq<Command>, n: nat)
    requires n <= |a| && a <= b
    ensures Status(table, a, n) == Status(table, b, n)
  {
    if n > 0 { SamePrefix(table, a, b, n - 1); }
  }

  // ----- writing commands as tokens -------------------------------------------------------------

  function Tokens(c: Command): seq<string> {
    ["--" + c.name] + c.args
  }

  function Render(cmds: seq<Command>): seq<string> {
    if cmds == [] then [] else Tokens(cmds[0]) + Render(cmds[1..])
  }

  /** Arguments do not look like commands. */
  predicate Plain(c: Command) {
    forall k | 0 <= k < |c.args| :: !Dashed(c.args[k])
  }

  lemma {:induction false} ArgsEndAt(tokens: seq<string>, i: nat, j: nat)
    requires i <= j <= |tokens|
    requires forall k | i <= k < j :: !Dashed(tokens[k])
    requires j < |tokens| ==> Dashed(tokens[j])
    ensures ArgsEnd(tokens, i) == j
    decreases j - i
  {
    if i < j { ArgsEndAt(tokens, i + 1, j); }
  }

  lemma RenderStarts(cmds: seq<Command>)
    requires cmds != []
    ensures Render(cmds) != [] && Dashed(Render(cmds)[0])
  {
    assert ("--" + cmds[0].name)[..2] == "--";
  }

  lemma Associates<T>(a: seq<T>, b: seq<T>, c: seq<T>)
    ensures a + (b + c) == a + b + c
  {
  }

  lemma HeadTail<T>(a: seq<T>)
    requires a != []
    ensures [a[0]] + a[1..] == a
  {
  }

  /** One command written behind a prefix is the next one dispatched. */
  lemma OneRendered(prefix: seq<string>, c: Command, rest: seq<string>)
    requires Plain(c) && (rest != [] ==> Dashed(rest[0]))
    ensures var tokens := prefix + Tokens(c) + rest;
      Commands(tokens, |prefix|) == [c] + Commands(tokens, |prefix + Tokens(c)|)
  {
    var tokens, i := prefix + Tokens(c) + rest, |prefix|;
    var j := |prefix + Tokens(c)|;
    assert tokens[i] == "--" + c.name && tokens[i][..2] == "--" && tokens[i][2..] == c.name;
    assert tokens[i + 1..j] == c.args;
    forall k | i + 1 <= k < j ensures !Dashed(tokens[k]) { assert tokens[k] == c.args[k - i - 1]; }
    ArgsEndAt(tokens, i + 1, j);
  }

  /** Commands written as tokens behind any prefix are dispatched as they were. */
  lemma {:induction false} DispatchRendered(prefix: seq<string>, cmds: seq<Command>)
    requires forall k | 0 <= k < |cmds| :: Plain(cmds[k])
    ensures Commands(prefix + Render(cmds), |prefix|) == cmds
    decreases |cmds|
  {
    if cmds != [] {
      var c, rest := cmds[0], cmds[1..];
      if rest != [] { RenderStarts(rest); }
      var longer := prefix + Tokens(c);
      OneRendered(prefix, c, Render(rest));
      DispatchRendered(longer, rest);
      Associates(prefix, Tokens(c), Render(rest));
      assert prefix + Render(cmds) == longer + Render(rest);
      HeadTail(cmds);
    }
  }

  /** The round trip: rendering and running dispatches exactly the list, in order. */
  lemma RoundTrip(cmds: seq<Command>)
    requires forall k | 0 <= k < |cmds| :: Plain(cmds[k])
    ensures Commands(Render(cmds), 0) == cmds
  {
    DispatchRendered([], cmds);
    assert [] + Render(cmds) == Render(cmds);
  }

  /** The other way: what is dispatched from a list that begins with a command accounts for every token,
      once and in order, and no argument looks like a command. */
  lemma {:induction false} EveryTokenOnce(tokens: seq<string>, i: nat)
    requires i <= |tokens| && (i < |tokens| ==> Dashed(tokens[i]))
    ensures Render(Commands(tokens, i)) == tokens[i..]
    ensures forall k | 0 <= k < |Commands(tokens, i)| :: Plain(Commands(tokens, i)[k])
    decreases |tokens| - i
  {
    if i < |tokens| {
      var j := ArgsEnd(tokens, i + 1);
      var c := Command(tokens[i][2..], tokens[i + 1..j]);
      EveryTokenOnce(tokens, j);
      assert Commands(tokens, i) == [c] + Commands(tokens, j);
      assert Commands(tokens, i)[1..] == Commands(tokens, j);
      assert "--" + tokens[i][2..] == tokens[i];
      assert tokens[i..] == [tokens[i]] + tokens[i + 1..j] + tokens[j..];
    }
  }

  /** Complaining about a missing command happens before anything has run, and only then is a token lost. */
  lemma ComplaintMeansNothingRan(tokens: seq<string>)
    ensures (tokens != [] && !Dashed(tokens[0])) <==> Render(Commands(tokens, 0)) != tokens
    ensures tokens != [] && !Dashed(tokens[0]) ==> Commands(tokens, 0) == []
  {
    if tokens == [] || Dashed(tokens[0]) {
      EveryTokenOnce(tokens, 0);
      assert tokens[0..] == tokens;
    }
  }

  /** Command `k` succeeds: it is known, and its handler answers 0. */
  predicate Succeeds(table: Table, cmds: seq<Command>, k: nat)
    requires k < |cmds|
  {
    cmds[k].name in table.names && table.handle(k, cmds[k]) == 0
  }

  /** The status is 0 exactly when every command is known and its handler answers 0. */
  lemma {:induction false} StatusIsZero(table: Table, cmds: seq<Command>, n: nat)
    requires n <= |cmds|
    ensures Status(table, cmds, n) == 0 <==> forall k | 0 <= k < n :: Succeeds(table, cmds, k)
  {
    if n > 0 {
      StatusIsZero(table, cmds, n - 1);
      assert Execute(table, n - 1, cmds[n - 1]) == 0 <==> Succeeds(table, cmds, n - 1);
    }
  }

  /** Otherwise it is the answer of the last command that failed, 1 for an unknown one. */
  lemma {:induction false} StatusIsLastFailure(table: Table, cmds: seq<Command>, n: nat, k: nat)
    requires k < n <= |cmds| && !Succeeds(table, cmds, k) && forall m | k < m < n :: Succeeds(table, cmds, m)
    ensures Status(table, cmds, n) == if cmds[k].name in table.names then table.handle(k, cmds[k]) else 1
    decreases n - k
  {
    if k + 1 < n {
      assert Succeeds(table, cmds, n - 1);
      StatusIsLastFailure(table, cmds, n - 1, k);
    }
  }

  // ----- the trailing --wait --------------------------------------------------------------------

  /** The tokens after the slot number that are left once a final `--wait` has been taken off. */
  function WithoutWait(tokens: seq<string>): seq<string> {
    if tokens != [] && tokens[|tokens| - 1] == "--wait" then tokens[..|tokens| - 1] else tokens
  }

  lemma {:induction false} RenderAppend(cmds: seq<Command>, c: Command)
    ensures Render(cmds + [c]) == Render(cmds) + Tokens(c)
  {
    if cmds == [] {
      assert cmds + [c] == [c] && [c][1..] == [];
    } else {
      RenderAppend(cmds[1..], c);
      assert (cmds + [c])[1..] == cmds[1..] + [c];
    }
  }

  lemma WaitDropped(before: seq<Command>, c: Command)
    requires c == Command("wait", []) && forall k | 0 <= k < |before| :: Plain(before[k])
    ensures Commands(WithoutWait(Render(before + [c])), 0) == before
  {
    RenderAppend(before, c);
    TakesWait(Render(before), Tokens(c));
    RoundTrip(before);
  }

  lemma OtherKept(before: seq<Command>, c: Command, all: seq<Command>)
    requires all == before + [c] && forall k | 0 <= k < |all| :: Plain(all[k])
    requires WithoutWait(Render(before) + Tokens(c)) == Render(before) + Tokens(c)
    ensures Commands(WithoutWait(Render(all)), 0) == all
  {
    RenderAppend(before, c);
    RoundTrip(all);
  }

  /** On the whole command line the round trip holds exactly when the last command is not a `wait`
      without arguments: that one is taken for the option and never dispatched. */
  lemma WaitIsTaken(before: seq<Command>, c: Command)
    requires Plain(c) && forall k | 0 <= k < |before| :: Plain(before[k])
    ensures Commands(WithoutWait(Render(before + [c])), 0) == before + [c] <==> c != Command("wait", [])
    ensures c == Command("wait", []) ==> Commands(WithoutWait(Render(before + [c])), 0) == before
  {
    if c == Command("wait", []) {
      WaitDropped(before, c);
      assert before != before + [c];
    } else {
      LastIsNotWait(c);
      KeepsOther(Render(before), Tokens(c));
      OtherKept(before, c, before + [c]);
    }
  }

  lemma TakesWait(tokens: seq<string>, last: seq<string>)
    requires last == Tokens(Command("wait", []))
    ensures WithoutWait(tokens + last) == tokens
  {
    assert "--" + "wait" == "--wait";
    assert last == ["--wait"];
    assert (tokens + last)[..|tokens|] == tokens;
  }

  lemma KeepsOther(tokens: seq<string>, last: seq<string>)
    requires last != [] && last[|last| - 1] != "--wait"
    ensures WithoutWait(tokens + last) == tokens + last
  {
  }

  lemma LastIsNotWait(c: Command)
    requires Plain(c) && c != Command("wait", [])
    ensures Tokens(c)[|Tokens(c)| - 1] != "--wait"
  {
    if c.args == [] {
      assert ("--" + c.name)[2..] == c.name;
      assert "--wait"[2..] == "wait";
    } else {
      assert Dashed("--wait");
      assert Tokens(c)[|Tokens(c)| - 1] == c.args[|c.args| - 1];
    }
  }
}
