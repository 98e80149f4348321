/** Rumble on the Switch Pro: the context owns at most one effect uploaded to the device. */
module ForceFeedback {
  import opened Records

  const RATE_LIMIT_US := 50000

  /** The force-feedback side of the kernel device: uploaded effects with their magnitudes, and those
      that play. */
  datatype Device = Device(effects: map<int, (int, int)>, playing: set<int>)

  /** `nsw_context_t`, as far as rumble goes. */
  datatype Context = Context(
    initialized: bool, isActive: bool, connected: bool,
    effectId: int, lastStrong: int, lastWeak: int, lastTime: int)

  /** `leaked` are the effects the context forgot although their removal failed. */
  datatype State = State(ctx: Context, dev: Device, leaked: set<int>)

  /** What the system calls of one call answer; `upload` is the new effect's number, negative when the
      upload fails. */
  datatype Io = Io(pollOk: bool, stopOk: bool, removeOk: bool, upload: int, playOk: bool)

  datatype Call =
    | Send(rumbleActive: bool, strong: byte, weak: byte, gain: byte, now: int, io: Io)
    | Cleanup(io: Io)
    | Disconnect


  /** `clamp_u8(gain, 0, 100, 100)` and the scaling by it. */
  function Target(raw: byte, gain: byte): int {
    raw as int * (if gain > 100 then 100 else gain as int) / 100
  }

  // ----- the steps ------------------------------------------------------------------------------

  /** Writing a stop event and removing the effect; the context forgets it either way. */
  function Drop(s: State, io: Io): State
    requires s.ctx.effectId >= 0
  {
    var id := s.ctx.effectId;
    var stopped := if io.stopOk then s.dev.playing - {id} else s.dev.playing;
    if io.removeOk then State(s.ctx.(effectId := -1), Device(s.dev.effects - {id}, stopped - {id}), s.leaked)
    else State(s.ctx.(effectId := -1), s.dev.(playing := stopped), s.leaked + {id})
  }

  /** The state in which a new effect is uploaded: the old one has been given up. */
  function Vacated(s: State, io: Io): State {
    if s.ctx.effectId >= 0 then Drop(s, io) else s
  }

  /** The kernel never hands out the number of an effect that is still there; the number just given up
      it may hand out again. */
  predicate Fresh(s: State, io: Io) {
    io.upload >= 0 ==> io.upload !in Vacated(s, io).dev.effects
  }

  predicate Possible(s: State, c: Call) {
    c.Send? ==> Fresh(s, c.io)
  }

  function Quiet(s: State): State {
    s.(ctx := s.ctx.(lastStrong := 0, lastWeak := 0))
  }

  /** Uploading and playing a new effect. */
  function Start(s: State, strong: int, weak: int, now: int, io: Io): State {
    if io.upload < 0 then s
    else
      var t := s.(ctx := s.ctx.(effectId := io.upload),
                  dev := s.dev.(effects := s.dev.effects[io.upload := (strong * 257, weak * 257)]));
      if io.playOk then
        t.(ctx := t.ctx.(lastStrong := strong, lastWeak := weak, lastTime := now),
           dev := t.dev.(playing := t.dev.playing + {io.upload}))
      else t
  }

  predicate Limited(s: State, now: int) {
    now - s.ctx.lastTime < RATE_LIMIT_US
  }

  /** `nsw_send_rumble` after the gain has been applied. */
  function SendTarget(s: State, rumbleActive: bool, strong: int, weak: int, now: int, io: Io): State {
    if !s.ctx.initialized || !s.ctx.isActive || !s.ctx.connected then s
    else if !rumbleActive then (if s.ctx.effectId >= 0 then Quiet(Drop(s, io)) else s)
    else if !io.pollOk then s.(ctx := s.ctx.(connected := false))
    else if strong == s.ctx.lastStrong && weak == s.ctx.lastWeak then s.(ctx := s.ctx.(lastTime := now))
    else if strong == 0 && weak == 0 then
      if s.ctx.effectId == -1 then Quiet(s).(ctx := Quiet(s).ctx.(lastTime := now))
      else if io.stopOk && s.ctx.effectId >= 0 then
        var t := Quiet(Drop(s, io)); t.(ctx := t.ctx.(lastTime := now))
      else s
    else if Limited(s, now) then s.(ctx := s.ctx.(lastStrong := strong, lastWeak := weak))
    else Start(Vacated(s, io), strong, weak, now, io)
  }

  /** `nsw_send_rumble`. */
  function SendRumble(s: State, c: Call): State
    requires c.Send?
  {
    SendTarget(s, c.rumbleActive, Target(c.strong, c.gain), Target(c.weak, c.gain), c.now, c.io)
  }

  /** `nsw_cleanup`. */
  function CleanUp(s: State, io: Io): State {
    if !s.ctx.initialized then s
    else
      var t := Vacated(s, io);
      t.(ctx := t.ctx.(initialized := false, isActive := false, connected := false))
  }

  function Next(s: State, c: Call): State {
    match c
    case Send(_, _, _, _, _, _) => SendRumble(s, c)
    case Cleanup(io) => CleanUp(s, io)
    case Disconnect => s.(ctx := s.ctx.(connected := false))
  }

  // ----- the context in place -------------------------------------------------------------------

  /** A context together with the device it drives. */
  class Rumble {
    var ctx: Context
    var dev: Device
    ghost var leaked: set<int>

    ghost function View(): State
      reads this
    {
      State(ctx, dev, leaked)
    }

    constructor (now: int)
      ensures View() == State(Context(true, true, true, -1, 0, 0, now), Device(map[], {}), {})
    {
      ctx := Context(true, true, true, -1, 0, 0, now);
      dev := Device(map[], {});
      leaked := {};
    }

    method StopAndRemove(io: Io)
      requires ctx.effectId >= 0
      modifies this
      ensures View() == Drop(old(View()), io)
    {
      var id := ctx.effectId;
      if io.stopOk {
        dev := dev.(playing := dev.playing - {id});
      }
      if io.removeOk {
        dev := Device(dev.effects - {id}, dev.playing - {id});
      } else {
        leaked := leaked + {id};
      }
      ctx := ctx.(effectId := -1);
    }

    method SendCommand(rumbleActive: bool, strong: byte, weak: byte, gain: byte, now: int, io: Io)
      requires ctx.effectId >= -1
      modifies this
      ensures View() == SendRumble(old(View()), Send(rumbleActive, strong, weak, gain, now, io))
    {
      if !ctx.initialized || !ctx.isActive || !ctx.connected { return; }
      if !rumbleActive {
        if ctx.effectId >= 0 {
          StopAndRemove(io);
          ctx := ctx.(lastStrong := 0, lastWeak := 0);
        }
        return;
      }
      if !io.pollOk {
        ctx := ctx.(connected := false);
        return;
      }
      var g := if gain > 100 then 100 else gain as int;
      var targetStrong, targetWeak := strong as int * g / 100, weak as int * g / 100;
      if targetStrong == ctx.lastStrong && targetWeak == ctx.lastWeak {
        ctx := ctx.(lastTime := now);
        return;
      }
      if targetStrong == 0 && targetWeak == 0 {
        if ctx.effectId == -1 {
          ctx := ctx.(lastStrong := 0, lastWeak := 0, lastTime := now);
          return;
        }
        if io.stopOk {
          StopAndRemove(io);
          ctx := ctx.(lastStrong := 0, lastWeak := 0, lastTime := now);
        }
        return;
      }
      if now - ctx.lastTime < RATE_LIMIT_US {
        ctx := ctx.(lastStrong := targetStrong, lastWeak := targetWeak);
        return;
      }
      if ctx.effectId >= 0 {
        StopAndRemove(io);
      }
      if io.upload < 0 { return; }
      dev := dev.(effects := dev.effects[io.upload := (targetStrong * 257, targetWeak * 257)]);
      ctx := ctx.(effectId := io.upload);
      if io.playOk {
        dev := dev.(playing := dev.playing + {io.upload});
        ctx := ctx.(lastStrong := targetStrong, lastWeak := targetWeak, lastTime := now);
      }
    }

    method Finish(io: Io)
      modifies this
      ensures View() == CleanUp(old(View()), io)
    {
      if !ctx.initialized { return; }
      if ctx.effectId >= 0 {
        StopAndRemove(io);
      }
      ctx := ctx.(initialized := false, isActive := false, connected := false);
    }
  }

  // ----- conservation ---------------------------------------------------------------------------

  function Owned(s: State): set<int> {
    if s.ctx.effectId >= 0 then {s.ctx.effectId} else {}
  }

  /** The uploaded effects are the one the context names and those it leaked, nothing else. */
  predicate Conserved(s: State) {
    && s.ctx.effectId >= -1 && (forall id | id in s.leaked :: id >= 0)
    && s.dev.effects.Keys == Owned(s) + s.leaked
    && Owned(s) !! s.leaked
    && s.dev.playing <= s.dev.effects.Keys
    && (!s.ctx.initialized ==> s.ctx.effectId == -1)
  }

  /** The call gives up an effect and the removal fails. */
  predicate Leaks(s: State, c: Call) {
    Next(s, c).leaked != s.leaked
  }

  /** `t` is conserved again, and has forgotten at most one effect more than `s`. */
  predicate Follows(s: State, t: State) {
    Conserved(t) && (t.leaked == s.leaked || |t.leaked| == |s.leaked| + 1)
  }

  lemma DropConserves(s: State, io: Io)
    requires Conserved(s) && s.ctx.effectId >= 0
    ensures var t := Drop(s, io); Follows(s, t) && (t.leaked == s.leaked <==> io.removeOk)
  {
    var id, t := s.ctx.effectId, Drop(s, io);
    assert id in Owned(s) && id !in s.leaked;
    assert t.dev.effects.Keys == Owned(t) + t.leaked;
  }

  lemma StartConserves(s: State, strong: int, weak: int, now: int, io: Io)
    requires Conserved(s) && s.ctx.effectId == -1 && s.ctx.initialized && (io.upload >= 0 ==> io.upload !in s.dev.effects)
    ensures Conserved(Start(s, strong, weak, now, io)) && Start(s, strong, weak, now, io).leaked == s.leaked
  {
    var t := Start(s, strong, weak, now, io);
    if io.upload >= 0 {
      assert t.dev.effects.Keys == s.dev.effects.Keys + {io.upload};
    }
  }

  lemma ContextKeeps(s: State, ctx: Context)
    requires Conserved(s) && ctx.effectId == s.ctx.effectId && (ctx.initialized == s.ctx.initialized || ctx.effectId == -1)
    ensures Follows(s, s.(ctx := ctx))
  {
    assert Owned(s.(ctx := ctx)) == Owned(s);
  }

  lemma RestartConserves(s: State, strong: int, weak: int, now: int, io: Io)
    requires Conserved(s) && s.ctx.initialized && Fresh(s, io)
    ensures var t := Start(Vacated(s, io), strong, weak, now, io);
      Follows(s, t) && (t.leaked != s.leaked ==> !io.removeOk)
  {
    if s.ctx.effectId >= 0 {
      DropConserves(s, io);
      StartConserves(Drop(s, io), strong, weak, now, io);
    } else {
      StartConserves(s, strong, weak, now, io);
    }
  }

  lemma CallConserves(s: State, c: Call)
    requires Conserved(s) && Possible(s, c)
    ensures Follows(s, Next(s, c))
    ensures Leaks(s, c) ==> !c.Disconnect? && !c.io.removeOk
  {
    match c
    case Disconnect => ContextKeeps(s, Next(s, c).ctx);
    case Cleanup(io) =>
      if s.ctx.initialized {
        if s.ctx.effectId >= 0 { DropConserves(s, io); }
        var t := Vacated(s, io);
        ContextKeeps(t, Next(s, c).ctx);
      }
    case Send(on, strong, weak, gain, now, io) => SendConserves(s, on, Target(strong, gain), Target(weak, gain), now, io);
  }

  lemma DropThen(s: State, io: Io, ctx: Context)
    requires Conserved(s) && s.ctx.effectId >= 0 && ctx.effectId == -1
    ensures var t := Drop(s, io).(ctx := ctx); Follows(s, t) && (t.leaked != s.leaked ==> !io.removeOk)
  {
    DropConserves(s, io);
    ContextKeeps(Drop(s, io), ctx);
  }

  /** The three things a command can come to: bookkeeping only, giving up the effect, or a new effect. */
  lemma SendShape(s: State, rumbleActive: bool, strong: int, weak: int, now: int, io: Io)
    ensures var t := SendTarget(s, rumbleActive, strong, weak, now, io);
      || (t == s.(ctx := t.ctx) && t.ctx.effectId == s.ctx.effectId && t.ctx.initialized == s.ctx.initialized)
      || (s.ctx.effectId >= 0 && t == Drop(s, io).(ctx := t.ctx) && t.ctx.effectId == -1)
      || (s.ctx.initialized && t == Start(Vacated(s, io), strong, weak, now, io))
  {
  }

  lemma SendConserves(s: State, rumbleActive: bool, strong: int, weak: int, now: int, io: Io)
    requires Conserved(s) && Fresh(s, io)
    ensures var t := SendTarget(s, rumbleActive, strong, weak, now, io);
      Follows(s, t) && (t.leaked != s.leaked ==> !io.removeOk)
  {
    var t := SendTarget(s, rumbleActive, strong, weak, now, io);
    SendShape(s, rumbleActive, strong, weak, now, io);
    if t == s.(ctx := t.ctx) && t.ctx.effectId == s.ctx.effectId && t.ctx.initialized == s.ctx.initialized {
      ContextKeeps(s, t.ctx);
    } else if s.ctx.effectId >= 0 && t == Drop(s, io).(ctx := t.ctx) && t.ctx.effectId == -1 {
      DropThen(s, io, t.ctx);
    } else {
      RestartConserves(s, strong, weak, now, io);
    }
  }

  function Run(s: State, calls: seq<Call>): State
    decreases |calls|
  {
    if calls == [] then s else Run(Next(s, calls[0]), calls[1..])
  }

  /** The number of removals that fail during a run. */
  function FailedRemovals(s: State, calls: seq<Call>): nat
    decreases |calls|
  {
    if calls == [] then 0 else (if Leaks(s, calls[0]) then 1 else 0) + FailedRemovals(Next(s, calls[0]), calls[1..])
  }

  predicate PossibleRun(s: State, calls: seq<Call>)
    decreases |calls|
  {
    calls != [] ==> Possible(s, calls[0]) && PossibleRun(Next(s, calls[0]), calls[1..])
  }

  /** A fresh context on a device without effects. */
  function Begin(now: int): State {
    State(Context(true, true, true, -1, 0, 0, now), Device(map[], {}), {})
  }

  lemma {:induction false} RunConserves(s: State, calls: seq<Call>)
    requires Conserved(s) && PossibleRun(s, calls)
    ensures Conserved(Run(s, calls)) && |Run(s, calls).leaked| == |s.leaked| + FailedRemovals(s, calls)
    decreases |calls|
  {
    if calls != [] {
      CallConserves(s, calls[0]);
      RunConserves(Next(s, calls[0]), calls[1..]);
    }
  }

  /** In every run of calls the device holds exactly the effect the context names, if any, and nothing
      else, exactly when no removal has failed. */
  lemma OneEffectExactly(now: int, calls: seq<Call>)
    requires PossibleRun(Begin(now), calls)
    ensures var s := Run(Begin(now), calls); s.dev.effects.Keys == Owned(s) <==> FailedRemovals(Begin(now), calls) == 0
  {
    RunConserves(Begin(now), calls);
    OnlyOwned(Run(Begin(now), calls));
  }

  lemma OnlyOwned(s: State)
    requires Conserved(s)
    ensures s.dev.effects.Keys == Owned(s) <==> |s.leaked| == 0
  {
    if id :| id in s.leaked {
      assert id in s.dev.effects.Keys && id !in Owned(s);
    }
  }

  /** After a cleanup whose removal works the device holds none of this context's effects, if none had
      been leaked before, and stays so. */
  lemma CleanupLeavesNothing(s: State, io: Io, calls: seq<Call>)
    requires Conserved(s) && s.leaked == {} && io.removeOk
    ensures Run(CleanUp(s, io), calls).dev.effects == map[]
  {
    var t := CleanUp(s, io);
    if s.ctx.effectId >= 0 { DropConserves(s, io); }
    assert t.dev.effects.Keys == {};
    CleanedStays(t, calls);
  }

  lemma {:induction false} CleanedStays(s: State, calls: seq<Call>)
    requires !s.ctx.initialized
    ensures Run(s, calls).dev == s.dev
    decreases |calls|
  {
    if calls != [] { CleanedStays(Next(s, calls[0]), calls[1..]); }
  }

  // ----- what the motors do ---------------------------------------------------------------------

  /** The magnitudes that play. */
  function Motors(s: State): (int, int) {
    if s.ctx.effectId in s.dev.playing && s.ctx.effectId in s.dev.effects then s.dev.effects[s.ctx.effectId] else (0, 0)
  }

  predicate Faithful(s: State) {
    && Conserved(s) && s.leaked == {}
    && Motors(s) == (s.ctx.lastStrong * 257, s.ctx.lastWeak * 257)
  }

  predicate Works(io: Io) {
    io.pollOk && io.stopOk && io.removeOk && io.upload >= 0 && io.playOk
  }

  /** The branch that drops a command: a change to something that is not silence, too soon. */
  predicate Dropped(s: State, strong: int, weak: int, now: int) {
    (strong != s.ctx.lastStrong || weak != s.ctx.lastWeak) && (strong != 0 || weak != 0) && now - s.ctx.lastTime < 50000
  }

  /** On a ready context whose motors play what was last sent, with system calls that work: the motors
      play what was asked exactly when the command did not come within 50 ms of the previous one. A
      dropped command is remembered as sent; every other one starts the 50 ms anew, repetitions too. */
  lemma CommandTakesEffectExactly(s: State, c: Call)
    requires c.Send? && Possible(s, c) && Works(c.io) && c.rumbleActive
    requires Faithful(s) && s.ctx.initialized && s.ctx.isActive && s.ctx.connected
    ensures var t, strong, weak := SendRumble(s, c), Target(c.strong, c.gain), Target(c.weak, c.gain);
      && (Motors(t) == (strong * 257, weak * 257) <==> !Dropped(s, strong, weak, c.now))
      && (Faithful(t) <==> !Dropped(s, strong, weak, c.now))
      && t.ctx.lastStrong == strong && t.ctx.lastWeak == weak
      && t.ctx.lastTime == (if Dropped(s, strong, weak, c.now) then s.ctx.lastTime else c.now)
  {
    TargetTakesEffectExactly(s, Target(c.strong, c.gain), Target(c.weak, c.gain), c.now, c.io);
  }

  /** A number given up in the same call may come back. */
  lemma FreedNumberIsFresh(s: State, io: Io)
    requires Conserved(s) && s.ctx.effectId >= 0 && io.removeOk && io.upload == s.ctx.effectId
    ensures Fresh(s, io)
  {
  }

  lemma TargetPlays(s: State, strong: int, weak: int, now: int, io: Io)
    requires Works(io) && Faithful(s) && s.ctx.initialized && s.ctx.isActive && s.ctx.connected
    ensures var t := SendTarget(s, true, strong, weak, now, io);
      && (Motors(t) == (strong * 257, weak * 257) <==> !Dropped(s, strong, weak, now))
      && t.ctx.lastStrong == strong && t.ctx.lastWeak == weak
      && t.ctx.lastTime == (if Dropped(s, strong, weak, now) then s.ctx.lastTime else now)
  {
    if s.ctx.effectId >= 0 { DropConserves(s, io); }
  }

  lemma TargetTakesEffectExactly(s: State, strong: int, weak: int, now: int, io: Io)
    requires Works(io) && Fresh(s, io)
    requires Faithful(s) && s.ctx.initialized && s.ctx.isActive && s.ctx.connected
    ensures var t := SendTarget(s, true, strong, weak, now, io);
      && (Motors(t) == (strong * 257, weak * 257) <==> !Dropped(s, strong, weak, now))
      && (Faithful(t) <==> !Dropped(s, strong, weak, now))
      && t.ctx.lastStrong == strong && t.ctx.lastWeak == weak
      && t.ctx.lastTime == (if Dropped(s, strong, weak, now) then s.ctx.lastTime else now)
  {
    TargetPlays(s, strong, weak, now, io);
    SendConserves(s, true, strong, weak, now, io);
  }

  /** Changing a rumble while it plays, when the kernel hands out the number just given up: the device ends up
      with that one effect again, and plays the new magnitudes. */
  lemma ReplacedUnderSameNumber(s: State, strong: int, weak: int, now: int, io: Io)
    requires Works(io) && Faithful(s) && s.ctx.initialized && s.ctx.isActive && s.ctx.connected
    requires s.ctx.effectId >= 0 && io.upload == s.ctx.effectId
    requires (strong != s.ctx.lastStrong || weak != s.ctx.lastWeak) && (strong != 0 || weak != 0) && now - s.ctx.lastTime >= 50000
    ensures var t := SendTarget(s, true, strong, weak, now, io);
      && t.ctx.effectId == s.ctx.effectId && t.dev.effects.Keys == {s.ctx.effectId} && Motors(t) == (strong * 257, weak * 257)
  {
    FreedNumberIsFresh(s, io);
    TargetTakesEffectExactly(s, strong, weak, now, io);
    assert Owned(s) == {s.ctx.effectId};
  }

  /** Asking for the same again does not help a dropped command: the motors keep what they did. */
  lemma DroppedStaysDropped(s: State, strong: int, weak: int, now: int, io: Io, later: int, io2: Io)
    requires io.pollOk && io2.pollOk && Dropped(s, strong, weak, now)
    requires s.ctx.initialized && s.ctx.isActive && s.ctx.connected
    ensures var t := SendTarget(SendTarget(s, true, strong, weak, now, io), true, strong, weak, later, io2);
      t.dev == s.dev && Motors(t) == Motors(s)
  {
  }

  // ----- rumble off, and system calls that fail -------------------------------------------------

  predicate Ready(s: State) {
    s.ctx.initialized && s.ctx.isActive && s.ctx.connected
  }

  /** The gain is a percentage, at most 100, rounded down. */
  lemma TargetIsShare(raw: byte, gain: byte)
    ensures var t, g := Target(raw, gain), if gain > 100 then 100 else gain as int;
      100 * t <= raw as int * g < 100 * (t + 1)
  {
  }

  /** A command with rumble switched off: the context names no effect any more, the device holds just the
      leaked ones, and the magnitudes remembered are 0 if there was an effect. It is leaked exactly when its removal
      fails, and still plays exactly when it played and both stopping and removing it fail. */
  lemma RumbleOffSilences(s: State, c: Call)
    requires Conserved(s) && Ready(s) && c.Send? && !c.rumbleActive
    ensures var t, id := SendRumble(s, c), s.ctx.effectId;
      && t.ctx.effectId == -1 && t.dev.effects.Keys == t.leaked && Motors(t) == (0, 0)
      && (id >= 0 ==> t.ctx.lastStrong == 0 && t.ctx.lastWeak == 0)
      && t.leaked == (if id >= 0 && !c.io.removeOk then s.leaked + {id} else s.leaked)
      && t.dev.playing == (if id >= 0 && (c.io.stopOk || c.io.removeOk) then s.dev.playing - {id} else s.dev.playing)
      && (id == -1 ==> t == s)
  {
    if s.ctx.effectId >= 0 { DropConserves(s, c.io); }
  }

  /** A context that is not ready ignores every command. */
  lemma UnreadyIgnores(s: State, c: Call)
    requires !Ready(s) && c.Send?
    ensures SendRumble(s, c) == s
  {
  }

  /** When the device has gone away, the first command finds out and no later one does anything. */
  lemma {:induction false} LostDeviceStaysQuiet(s: State, calls: seq<Call>)
    requires !s.ctx.connected && forall k | 0 <= k < |calls| :: calls[k].Send?
    ensures Run(s, calls) == s
    decreases |calls|
  {
    if calls != [] { LostDeviceStaysQuiet(Next(s, calls[0]), calls[1..]); }
  }

  /** The same after a disconnect that the monitor notices, and after a cleanup, which also takes the context's
      effect and its three flags away. */
  lemma DisconnectSilences(s: State, calls: seq<Call>)
    requires forall k | 0 <= k < |calls| :: calls[k].Send?
    ensures Run(Next(s, Disconnect), calls).dev == s.dev
  {
    LostDeviceStaysQuiet(Next(s, Disconnect), calls);
  }

  lemma CleanupClears(s: State, io: Io)
    requires Conserved(s) && s.ctx.initialized
    ensures var t := CleanUp(s, io);
      && !t.ctx.initialized && !t.ctx.isActive && !t.ctx.connected && t.ctx.effectId == -1 && t.dev.effects.Keys == t.leaked
      && t.leaked == (if s.ctx.effectId >= 0 && !io.removeOk then s.leaked + {s.ctx.effectId} else s.leaked)
  {
    if s.ctx.effectId >= 0 { DropConserves(s, io); }
  }

  lemma PollFailureDisconnects(s: State, c: Call)
    requires Ready(s) && c.Send? && c.rumbleActive && !c.io.pollOk
    ensures var t := SendRumble(s, c); !t.ctx.connected && t.dev == s.dev && t.ctx.effectId == s.ctx.effectId
  {
  }

  /** Silence whose stop cannot be written changes nothing, so the next command tries again; one that can leaves
      the context without an effect. */
  lemma SilenceExactly(s: State, c: Call)
    requires Conserved(s) && Ready(s) && c.Send? && c.rumbleActive && c.io.pollOk
    requires Target(c.strong, c.gain) == Target(c.weak, c.gain) == 0 && (s.ctx.lastStrong != 0 || s.ctx.lastWeak != 0)
    ensures var t := SendRumble(s, c);
      if s.ctx.effectId == -1 || c.io.stopOk then
        && t.ctx.effectId == -1 && t.ctx.lastStrong == t.ctx.lastWeak == 0 && t.ctx.lastTime == c.now
        && t.dev.effects.Keys == t.leaked && s.ctx.effectId !in t.dev.playing
      else t == s
  {
    if s.ctx.effectId >= 0 { DropConserves(s, c.io); }
  }

  /** A new effect that cannot be uploaded or played: the magnitudes and the time remembered stay, so that the
      same command is tried again; the old effect is gone either way. */
  lemma FailedStartIsRetried(s: State, c: Call)
    requires Conserved(s) && Ready(s) && c.Send? && c.rumbleActive && c.io.pollOk && Possible(s, c)
    requires var strong, weak := Target(c.strong, c.gain), Target(c.weak, c.gain);
      (strong != s.ctx.lastStrong || weak != s.ctx.lastWeak) && (strong != 0 || weak != 0)
    requires c.now - s.ctx.lastTime >= 50000 && (c.io.upload < 0 || !c.io.playOk)
    ensures var t := SendRumble(s, c);
      && t.ctx.lastStrong == s.ctx.lastStrong && t.ctx.lastWeak == s.ctx.lastWeak && t.ctx.lastTime == s.ctx.lastTime
      && t.ctx.effectId == (if c.io.upload < 0 then -1 else c.io.upload)
      && t.dev.effects.Keys == Owned(t) + t.leaked
  {
    SendConserves(s, true, Target(c.strong, c.gain), Target(c.weak, c.gain), c.now, c.io);
  }
}
