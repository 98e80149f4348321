/** Runs without client writes that dirty the profile, for every stored configuration that allows one; with
    the runs that cannot, an exact condition. */
module LifecycleDirties {
  import opened Records
  import opened SlotTable
  import opened EffectColours
  import opened Lifecycle
  import opened LifecycleInvariant
  import opened LifecycleTheorems
  import opened LifecycleSchedules
  import opened LifecycleEffects

  // ----- registering devices --------------------------------------------------------------------

  /** A path for the device of each slot, and one for a device that comes later. */
  function PathOf(k: nat): string {
    match k
    case 0 => "a"
    case 1 => "b"
    case 2 => "c"
    case 3 => "d"
    case _ => "e"
  }

  function FreeFrom(n: nat): set<nat> {
    set i | i in AllSlots && n <= i
  }

  lemma FreeFromFacts(n: nat)
    requires n < MAX_SLOTS
    ensures Lowest(FreeFrom(n)) == Some(n) && FreeFrom(n) - {n} == FreeFrom(n + 1)
  {
    assert 0 in AllSlots && 1 in AllSlots && 2 in AllSlots && 3 in AllSlots;
  }

  lemma PathsDiffer(i: nat, j: nat)
    requires i < j <= MAX_SLOTS
    ensures PathOf(i) != PathOf(j)
  {
    assert PathOf(j)[0] != PathOf(i)[0];
  }

  /** A worker that has just been started in slot `k`. */
  predicate Staffed(s0: State, s: State, k: nat)
    requires WellSized(s0) && WellSized(s) && k < MAX_SLOTS
  {
    && s.slots[k] == Registered(s0.slots[k], PathOf(k), DS4)
    && s.threads[k] == Some(k) && k in s.workers && s.workers[k] == Worker(k, Starting)
  }

  /** Devices have been registered in the first `n` slots, and their workers have not started yet. */
  ghost predicate Manned(s0: State, s: State, n: nat) {
    && WellSized(s0) && WellSized(s) && n <= MAX_SLOTS
    && s.main.Idle? && s.pass.AtPoll? && s.mutex.Nobody? && s.leaked == {} && s.free == FreeFrom(n)
    && s.active == s0.active && s.leds == s0.leds
    && (forall t :: t in s.workers ==> t < n)
    && (forall k | 0 <= k < n :: Staffed(s0, s, k))
    && (forall k | n <= k < MAX_SLOTS :: s.slots[k] == s0.slots[k] && s.threads[k].None?)
  }

  lemma NobodyMatches(s0: State, s: State, n: nat, m: nat)
    requires Init(s0) && Manned(s0, s, n) && n <= m <= MAX_SLOTS
    ensures forall i | 0 <= i < MAX_SLOTS :: !Matches(s.slots[i], PathOf(m))
  {
    forall i | 0 <= i < MAX_SLOTS ensures !Matches(s.slots[i], PathOf(m)) {
      if i < n {
        assert Staffed(s0, s, i);
        PathsDiffer(i, m);
      }
    }
  }

  lemma OneMoreManned(s0: State, s: State, s1: State, n: nat)
    requires Manned(s0, s, n) && n < MAX_SLOTS
    requires s1 == s.(slots := s.slots[n := Registered(s.slots[n], PathOf(n), DS4)], free := s.free - {n},
                      threads := s.threads[n := Some(n)], workers := s.workers[n := Worker(n, Starting)])
    ensures Manned(s0, s1, n + 1)
  {
    FreeFromFacts(n);
    forall k | 0 <= k < n + 1 ensures Staffed(s0, s1, k) {
      if k < n { assert Staffed(s0, s, k); }
    }
  }

  lemma {:induction false} Man(o: Origin, n: nat) returns (s: State)
    requires Init(o.start) && n <= MAX_SLOTS
    ensures Reached(o, s) && Manned(o.start, s, n)
  {
    if n == 0 {
      AtStart(o);
      s := o.start;
      assert s.free == FreeFrom(0);
    } else {
      var s1 := Man(o, n - 1);
      FreeFromFacts(n - 1);
      NobodyMatches(o.start, s1, n - 1, n - 1);
      s := RegisterFresh(o, s1, n - 1, n - 1, PathOf(n - 1));
      OneMoreManned(o.start, s1, s, n - 1);
    }
  }

  // ----- a worker goes through the requests -----------------------------------------------------

  /** Worker `t` has gone on to `task`; apart from that only settings and effects have changed. */
  ghost predicate Moved(s: State, s1: State, t: Tid, task: Task) {
    && t in s.workers && s1.workers == s.workers[t := Worker(s.workers[t].slot, Body(task))]
    && s1 == s.(workers := s1.workers, slots := s1.slots, leds := s1.leds)
    && |s1.slots| == |s.slots| && |s1.leds| == |s.leds|
    && (forall x | 0 <= x < |s.slots| :: s1.slots[x] == s.slots[x].(settings := s1.slots[x].settings))
  }

  /** ... and those only before slot `i`, or in it. */
  ghost predicate Spared(s: State, s1: State, i: nat) {
    && |s1.slots| == |s.slots| && |s1.leds| == |s.leds|
    && (forall x | i <= x < |s.slots| :: s1.slots[x] == s.slots[x])
    && (forall x | i <= x < |s.leds| :: s1.leds[x] == s.leds[x])
  }

  /** Worker `t` has stored `c` in slot `j` and gone on to `task`. */
  function Put(s: State, t: Tid, j: SlotNo, c: Settings, task: Task): State
    requires WellSized(s) && t in s.workers
  {
    s.(slots := s.slots[j := s.slots[j].(settings := c)], workers := s.workers[t := Worker(s.workers[t].slot, Body(task))])
  }

  lemma PutTwice(s: State, t: Tid, j: SlotNo, c: Settings, task: Task, c1: Settings, task1: Task)
    requires WellSized(s) && t in s.workers
    ensures Put(Put(s, t, j, c, task), t, j, c1, task1) == Put(s, t, j, c1, task1)
  {
  }

  lemma LockRequest(o: Origin, s: State, t: Tid, j: SlotNo) returns (s1: State)
    requires Reached(o, s) && WellSized(s) && s.mutex.Nobody? && IsAt(s, t, Body(Look(j))) && s.slots[j].connected
    ensures Reached(o, s1) && WellSized(s1)
    ensures s1 == Put(s, t, j, s.slots[j].settings, InRequest(j)).(mutex := AWorker(t))
  {
    s1 := ByBody(o, s, t, SeeSlot);
    s1 := ByBody(o, s1, t, TakeRequestLock);
    assert s1.slots == s.slots[j := s.slots[j]];
  }

  function Answered(c: Settings): Settings {
    c.(ledRequestPending := false)
  }

  function AfterRead(c: Settings, j: SlotNo): Task {
    if c.ledRequestPending then Start(j, c.ledRequestEffect, c.ledRequestBrightness) else After(j)
  }

  lemma TakeRequest(o: Origin, s: State, t: Tid, j: SlotNo) returns (s1: State)
    requires Reached(o, s) && WellSized(s) && s.mutex.Nobody? && IsAt(s, t, Body(Look(j))) && s.slots[j].connected
    ensures Reached(o, s1) && WellSized(s1)
    ensures var c := s.slots[j].settings; s1 == Put(s, t, j, Answered(c), AfterRead(c, j))
  {
    var c := s.slots[j].settings;
    var s2 := LockRequest(o, s, t, j);
    s1 := ByBody(o, s2, t, ReadRequest);
    PutTwice(s, t, j, c, InRequest(j), Answered(c), AfterRead(c, j));
  }

  lemma StartIt(o: Origin, s: State, t: Tid, j: SlotNo, effect: int, brightness: byte) returns (s1: State)
    requires Reached(o, s) && WellSized(s) && IsAt(s, t, Body(Start(j, effect, brightness)))
    requires o.careful ==> !Hidden(s.main, j)
    ensures Reached(o, s1) && WellSized(s1)
    ensures var c := s.slots[j].settings;
      s1 == Put(s, t, j, StartedMode(c, effect), StartedTask(c, j, effect))
              .(leds := s.leds[j := StartedLed(s.leds[j], effect, brightness)])
  {
    s1 := ByBody(o, s, t, StartEffect);
  }

  function NextColour(j: SlotNo, r: byte, g: byte, b: byte, channel: Channel): Task {
    match channel
    case Red => Colour(j, r, g, b, Green)
    case Green => Colour(j, r, g, b, Blue)
    case Blue => After(j)
  }

  lemma StoreOne(o: Origin, s: State, t: Tid, j: SlotNo, r: byte, g: byte, b: byte, channel: Channel) returns (s1: State)
    requires Reached(o, s) && WellSized(s) && IsAt(s, t, Body(Colour(j, r, g, b, channel)))
    ensures Reached(o, s1) && WellSized(s1)
    ensures s1 == Put(s, t, j, Coloured(s.slots[j].settings, r, g, b, channel), NextColour(j, r, g, b, channel))
  {
    s1 := ByBody(o, s, t, StoreColour);
  }

  /** One store after the others that worker `t` has done since `s`. */
  lemma StoreOn(o: Origin, s: State, s1: State, t: Tid, j: SlotNo, c: Settings, r: byte, g: byte, b: byte, channel: Channel)
      returns (s2: State)
    requires WellSized(s) && t in s.workers && s.workers[t].slot < MAX_SLOTS
    requires Reached(o, s1) && s1 == Put(s, t, j, c, Colour(j, r, g, b, channel))
    ensures Reached(o, s2) && s2 == Put(s, t, j, Coloured(c, r, g, b, channel), NextColour(j, r, g, b, channel))
  {
    s2 := StoreOne(o, s1, t, j, r, g, b, channel);
    PutTwice(s, t, j, c, Colour(j, r, g, b, channel), Coloured(c, r, g, b, channel), NextColour(j, r, g, b, channel));
  }

  function Painted(c: Settings, r: byte, g: byte, b: byte): Settings {
    c.(ledR := r, ledG := g, ledB := b)
  }

  lemma ColourAll(o: Origin, s: State, t: Tid, j: SlotNo, r: byte, g: byte, b: byte) returns (s1: State)
    requires Reached(o, s) && WellSized(s) && IsAt(s, t, Body(Colour(j, r, g, b, Red)))
    ensures Reached(o, s1) && WellSized(s1) && s1 == Put(s, t, j, Painted(s.slots[j].settings, r, g, b), After(j))
  {
    var c := s.slots[j].settings;
    var c1 := Coloured(c, r, g, b, Red);
    PutSame(s, t, j, Colour(j, r, g, b, Red));
    s1 := StoreOn(o, s, s, t, j, c, r, g, b, Red);
    s1 := StoreOn(o, s, s1, t, j, c1, r, g, b, Green);
    s1 := StoreOn(o, s, s1, t, j, Coloured(c1, r, g, b, Green), r, g, b, Blue);
  }

  lemma PutSame(s: State, t: Tid, j: SlotNo, task: Task)
    requires WellSized(s) && IsAt(s, t, Body(task))
    ensures s == Put(s, t, j, s.slots[j].settings, task)
  {
  }

  lemma PutMoves(s: State, t: Tid, j: SlotNo, c: Settings, task: Task, led: Led)
    requires WellSized(s) && t in s.workers
    ensures var s1 := Put(s, t, j, c, task).(leds := s.leds[j := led]); Moved(s, s1, t, task) && Spared(s, s1, j + 1)
  {
  }

  lemma StartAndColour(o: Origin, s: State, t: Tid, j: SlotNo, effect: int, brightness: byte) returns (s1: State)
    requires Reached(o, s) && WellSized(s) && IsAt(s, t, Body(Start(j, effect, brightness)))
    requires o.careful ==> !Hidden(s.main, j)
    ensures Reached(o, s1) && WellSized(s1) && Moved(s, s1, t, After(j)) && Spared(s, s1, j + 1)
  {
    var c := s.slots[j].settings;
    var task := StartedTask(c, j, effect);
    s1 := StartIt(o, s, t, j, effect, brightness);
    PutMoves(s, t, j, StartedMode(c, effect), task, StartedLed(s.leds[j], effect, brightness));
    if task.Colour? { s1 := ColourOn(o, s, s1, t, j, task.r, task.g, task.b); }
  }

  lemma ColourOn(o: Origin, s: State, s1: State, t: Tid, j: SlotNo, r: byte, g: byte, b: byte) returns (s2: State)
    requires Moved(s, s1, t, Colour(j, r, g, b, Red)) && Spared(s, s1, j + 1)
    requires Reached(o, s1) && WellSized(s1) && s.workers[t].slot < MAX_SLOTS
    ensures Reached(o, s2) && WellSized(s2) && Moved(s, s2, t, After(j)) && Spared(s, s2, j + 1)
  {
    s2 := ColourAll(o, s1, t, j, r, g, b);
    assert s1.leds == s1.leds[j := s1.leds[j]];
    PutMoves(s1, t, j, Painted(s1.slots[j].settings, r, g, b), After(j), s1.leds[j]);
    MovedTwice(s, s1, s2, t, Colour(j, r, g, b, Red), After(j), j + 1);
  }

  lemma ServeConnected(o: Origin, s: State, t: Tid, j: SlotNo) returns (s1: State)
    requires Reached(o, s) && WellSized(s) && s.mutex.Nobody? && s.main.Idle? && IsAt(s, t, Body(Look(j)))
    requires s.slots[j].connected
    ensures Reached(o, s1) && WellSized(s1) && Moved(s, s1, t, After(j)) && Spared(s, s1, j + 1)
  {
    var c := s.slots[j].settings;
    s1 := TakeRequest(o, s, t, j);
    if c.ledRequestPending {
      var s2 := StartAndColour(o, s1, t, j, c.ledRequestEffect, c.ledRequestBrightness);
      MovedTwice(s, s1, s2, t, AfterRead(c, j), After(j), j + 1);
      s1 := s2;
    }
  }

  lemma MovedTwice(s: State, s1: State, s2: State, t: Tid, task: Task, task1: Task, i: nat)
    requires Moved(s, s1, t, task) && Moved(s1, s2, t, task1) && Spared(s, s1, i) && Spared(s1, s2, i)
    ensures Moved(s, s2, t, task1) && Spared(s, s2, i)
  {
  }

  /** It serves the request of slot `j`, if there is one. */
  lemma ServeOne(o: Origin, s: State, t: Tid, j: SlotNo) returns (s1: State)
    requires Reached(o, s) && WellSized(s) && s.mutex.Nobody? && s.main.Idle? && IsAt(s, t, Body(Look(j)))
    ensures Reached(o, s1) && WellSized(s1) && Moved(s, s1, t, After(j)) && Spared(s, s1, j + 1)
  {
    if s.slots[j].connected {
      s1 := ServeConnected(o, s, t, j);
    } else {
      s1 := ByBody(o, s, t, PassSlot);
    }
  }

  /** So it comes to any slot `i`. */
  lemma {:induction false} Walk(o: Origin, s: State, t: Tid, j: SlotNo, i: SlotNo) returns (s1: State)
    requires Reached(o, s) && WellSized(s) && s.mutex.Nobody? && s.main.Idle? && IsAt(s, t, Body(Look(j))) && j <= i
    ensures Reached(o, s1) && WellSized(s1) && Moved(s, s1, t, Look(i)) && Spared(s, s1, i)
    decreases i - j
  {
    if j == i {
      s1 := s;
      assert s.workers == s.workers[t := Worker(s.workers[t].slot, Body(Look(i)))];
    } else {
      s1 := ServeOne(o, s, t, j);
      s1 := Walk(o, s1, t, j + 1, i);
    }
  }

  lemma {:induction false} ToFrame(o: Origin, s: State, t: Tid, i: SlotNo) returns (s1: State)
    requires Reached(o, s) && WellSized(s) && IsAt(s, t, Body(After(i))) && forall x | i < x < MAX_SLOTS :: !s.slots[x].connected
    ensures Reached(o, s1) && WellSized(s1)
    ensures s1 == s.(workers := s.workers[t := Worker(s.workers[t].slot, Body(Frame))])
    decreases MAX_SLOTS - i
  {
    if i + 1 < MAX_SLOTS {
      s1 := ByBody(o, s, t, PassSlot);
      s1 := ToFrame(o, s1, t, i + 1);
    } else {
      s1 := s;
    }
    assert s1.workers == s.workers[t := Worker(s.workers[t].slot, Body(Frame))];
  }

  // ----- up to a request ------------------------------------------------------------------------

  /** Worker `t` has taken the request of slot `i`, whose settings are `c` now; no slot is connected or handed
      out otherwise than before. */
  ghost predicate Asked(s: State, s1: State, t: Tid, i: SlotNo, c: Settings, task: Task) {
    && WellSized(s) && WellSized(s1) && t in s.workers
    && s1.workers == s.workers[t := Worker(s.workers[t].slot, Body(task))]
    && s1 == s.(workers := s1.workers, slots := s1.slots, leds := s1.leds)
    && (forall x | 0 <= x < MAX_SLOTS ::
          s1.slots[x] == s.slots[x].(settings := s1.slots[x].settings, heartbeat := s1.slots[x].heartbeat))
    && s1.slots[i].settings == c
  }

  lemma AsksIs(s: State, s2: State, s3: State, s4: State, t: Tid, i: SlotNo, c: Settings, task: Task)
    requires WellSized(s) && WellSized(s2) && WellSized(s3) && t in s.workers && s.workers[t].slot < MAX_SLOTS
    requires var k := s.workers[t].slot;
      s2 == s.(slots := s.slots[k := s.slots[k].(heartbeat := s.clock)], workers := s.workers[t := Worker(k, Body(Look(0)))])
    requires Moved(s2, s3, t, Look(i)) && t in s3.workers && s4 == Put(s3, t, i, c, task)
    ensures Asked(s, s4, t, i, c, task)
  {
    forall x | 0 <= x < MAX_SLOTS
      ensures s4.slots[x] == s.slots[x].(settings := s4.slots[x].settings, heartbeat := s4.slots[x].heartbeat)
    {
      assert s3.slots[x] == s2.slots[x].(settings := s3.slots[x].settings);
    }
  }

  lemma Starts(s0: State, s: State, n: nat, k: nat)
    requires Manned(s0, s, n) && k < n
    ensures IsAt(s, k, Starting) && s.workers[k].slot == k && s.threads[k] == Some(k)
    ensures s.slots[k] == Registered(s0.slots[k], PathOf(k), DS4)
  {
    assert Staffed(s0, s, k);
  }

  /** The request that a restored slot holds. */
  function Asking(c: SlotConfig, i: SlotNo): Task {
    Start(i, c.ledEffect as int, c.ledEffectBrightness)
  }

  lemma UpToRequest(o: Origin, s: State, n: nat, t: SlotNo, i: SlotNo, c: SlotConfig) returns (s1: State)
    requires Reached(o, s) && Manned(o.start, s, n) && t < n && i < n && c == Save(o.start.slots[i].settings)
    ensures Reached(o, s1) && Asked(s, s1, t, i, Answered(Restore(c)), Asking(c, i))
  {
    Starts(o.start, s, n, t);
    Starts(o.start, s, n, i);
    var s2 := IntoLook(o, s, t);
    var s3 := Walk(o, s2, t, 0, i);
    assert s3.slots[i].settings == Restore(c);
    s1 := TakeRequest(o, s3, t, i);
    AsksIs(s, s2, s3, s1, t, i, Answered(Restore(c)), Asking(c, i));
  }

  // ----- how runs end dirty ---------------------------------------------------------------------

  function ShadeOf(s: State, i: SlotNo): Shade
    requires WellSized(s)
  {
    StoredShade(Save(s.slots[i].settings))
  }

  /** A slot that shows another colour than at the start dirties the profile. */
  lemma EndsDirty(o: Origin, s: State, i: SlotNo) returns (s1: State)
    requires Reached(o, s) && InStep(o.start) && s.active == o.start.active
    requires WellSized(s) && s.main.Idle? && s.mutex.Nobody? && ShadeOf(s, i) != ShadeOf(o.start, i)
    ensures Reached(o, s1) && s1.dirty
  {
    assert s.active[i] == Visible(o.start, i) && s.active[i] != Visible(s, i);
    s1 := BySettings(o, s);
  }

  /** The colour an effect starts with, if it has one. */
  function StartShade(c: SlotConfig): Shade {
    if c.ledEffect == 0 then BaseShade(c) else Black
  }

  predicate StartsWithColour(effect: byte) {
    effect == 0 || effect as int == LEDFX_TRIGGER || effect as int == LEDFX_BUTTON_PRESS
  }

  /** The worker of slot `i`, the last one with a device, has taken its own request. */
  ghost predicate AsksOwn(o: Origin, s: State, i: SlotNo, c: SlotConfig) {
    && Reached(o, s) && WellSized(s) && s.main.Idle? && s.mutex.Nobody? && s.active == o.start.active
    && IsAt(s, i, Body(Asking(c, i))) && s.workers[i].slot == i
    && s.slots[i].connected && !s.slots[i].workerStop && s.slots[i].settings == Answered(Restore(c))
    && (forall x | i < x < MAX_SLOTS :: !s.slots[x].connected)
  }

  lemma AskOwn(o: Origin, i: SlotNo, c: SlotConfig) returns (s: State)
    requires Init(o.start) && c == Save(o.start.slots[i].settings)
    ensures AsksOwn(o, s, i, c)
  {
    var s1 := Man(o, i + 1);
    Starts(o.start, s1, i + 1, i);
    s := UpToRequest(o, s1, i + 1, i, i, c);
  }

  lemma PaintedShade(c: Settings, r: byte, g: byte, b: byte)
    ensures StoredShade(Save(Painted(c, r, g, b))) == (r, g, b)
  {
  }

  lemma FirstTask(c: SlotConfig, i: SlotNo)
    requires StartsWithColour(c.ledEffect)
    ensures var (r, g, b) := StartShade(c);
      StartedTask(Answered(Restore(c)), i, c.ledEffect as int) == Colour(i, r, g, b, Red)
  {
  }

  /** It stores the colour its effect starts with. */
  lemma ShowStart(o: Origin, s: State, i: SlotNo, c: SlotConfig) returns (s1: State)
    requires AsksOwn(o, s, i, c) && StartsWithColour(c.ledEffect)
    ensures Reached(o, s1) && WellSized(s1) && s1.main.Idle? && s1.mutex.Nobody? && s1.active == s.active
    ensures ShadeOf(s1, i) == StartShade(c)
  {
    var (r, g, b) := StartShade(c);
    FirstTask(c, i);
    s1 := StartIt(o, s, i, i, c.ledEffect as int, c.ledEffectBrightness);
    PaintedShade(s1.slots[i].settings, r, g, b);
    s1 := ColourAll(o, s1, i, i, r, g, b);
  }

  /** For every start and every slot whose stored effect starts with another colour than the stored one:
      registering its device can dirty the profile. */
  lemma RegistrationDirties(o: Origin, i: SlotNo) returns (s: State)
    requires Init(o.start) && InStep(o.start)
    requires var c := Save(o.start.slots[i].settings); StartsWithColour(c.ledEffect) && StartShade(c) != StoredShade(c)
    ensures Reached(o, s) && s.dirty
  {
    var c := Save(o.start.slots[i].settings);
    s := AskOwn(o, i, c);
    s := ShowStart(o, s, i, c);
    s := EndsDirty(o, s, i);
  }

  // ----- through a frame ------------------------------------------------------------------------

  predicate Animated(effect: byte) {
    0 < effect as int < LEDFX_COUNT
  }

  /** The effect of slot `i` runs and has last stored `last`; its worker stands at `task`. */
  ghost predicate Running(o: Origin, s: State, i: SlotNo, c: SlotConfig, last: Shade, task: Task) {
    && Reached(o, s) && WellSized(s) && s.main.Idle? && s.mutex.Nobody? && s.active == o.start.active
    && IsAt(s, i, Body(task)) && s.workers[i].slot == i
    && s.slots[i].connected && !s.slots[i].workerStop
    && !s.slots[i].settings.ledStatic && !s.slots[i].settings.ledRequestPending
    && Base(s.slots[i].settings) == BaseShade(c)
    && s.leds[i] == Led(true, c.ledEffect as int, SaneBrightness(c.ledEffectBrightness), last)
    && (forall x | i < x < MAX_SLOTS :: !s.slots[x].connected)
  }

  lemma StartedKeeps(c: SlotConfig)
    requires Animated(c.ledEffect)
    ensures var c1 := StartedMode(Answered(Restore(c)), c.ledEffect as int);
      && !c1.ledStatic && !c1.ledRequestPending && Base(c1) == BaseShade(c)
  {
  }

  lemma PaintedKeeps(c: Settings, x: Shade)
    ensures var c1 := Painted(c, x.0, x.1, x.2);
      c1.ledStatic == c.ledStatic && c1.ledRequestPending == c.ledRequestPending && Base(c1) == Base(c)
  {
  }

  lemma StartsNothing(c: SlotConfig, i: SlotNo)
    requires Animated(c.ledEffect) && !StartsWithColour(c.ledEffect)
    ensures StartedTask(Answered(Restore(c)), i, c.ledEffect as int) == After(i)
  {
  }

  lemma StartsRunning(o: Origin, s: State, i: SlotNo, c: SlotConfig, c0: Settings) returns (s1: State)
    requires Reached(o, s) && WellSized(s) && s.main.Idle? && s.mutex.Nobody? && s.active == o.start.active
    requires IsAt(s, i, Body(Asking(c, i))) && s.workers[i].slot == i && Animated(c.ledEffect)
    requires s.slots[i].connected && !s.slots[i].workerStop && s.slots[i].settings == c0
    requires forall x | i < x < MAX_SLOTS :: !s.slots[x].connected
    requires var c1 := StartedMode(c0, c.ledEffect as int);
      !c1.ledStatic && !c1.ledRequestPending && Base(c1) == BaseShade(c)
    ensures Running(o, s1, i, c, Black, StartedTask(c0, i, c.ledEffect as int))
    ensures s1.slots[i].settings == StartedMode(c0, c.ledEffect as int)
  {
    s1 := StartIt(o, s, i, i, c.ledEffect as int, c.ledEffectBrightness);
  }

  lemma SetOffStarts(o: Origin, s: State, i: SlotNo, c: SlotConfig) returns (s1: State)
    requires AsksOwn(o, s, i, c) && Animated(c.ledEffect)
    ensures Running(o, s1, i, c, Black, StartedTask(Answered(Restore(c)), i, c.ledEffect as int))
    ensures s1.slots[i].settings == StartedMode(Answered(Restore(c)), c.ledEffect as int)
  {
    StartedKeeps(c);
    s1 := StartsRunning(o, s, i, c, Answered(Restore(c)));
  }

  lemma ColourRunning(o: Origin, s: State, i: SlotNo, c: SlotConfig) returns (s1: State)
    requires Running(o, s, i, c, Black, Colour(i, 0, 0, 0, Red))
    ensures Running(o, s1, i, c, Black, After(i))
  {
    PaintedKeeps(s.slots[i].settings, Black);
    s1 := ColourAll(o, s, i, i, 0, 0, 0);
  }

  lemma SetOff(o: Origin, s: State, i: SlotNo, c: SlotConfig) returns (s1: State)
    requires AsksOwn(o, s, i, c) && Animated(c.ledEffect)
    ensures Running(o, s1, i, c, Black, After(i))
  {
    s1 := SetOffStarts(o, s, i, c);
    if StartsWithColour(c.ledEffect) {
      FirstTask(c, i);
      s1 := ColourRunning(o, s1, i, c);
    } else {
      StartsNothing(c, i);
    }
  }

  function NextPaint(x: Shade, channel: Channel): Task {
    match channel
    case Red => Paint(x.0, x.1, x.2, Green)
    case Green => Paint(x.0, x.1, x.2, Blue)
    case Blue => AwaitChore(BeforeLoop(TRAFFIC_CHORES))
  }

  lemma PaintOn(o: Origin, s: State, s1: State, t: Tid, j: SlotNo, c: Settings, x: Shade, channel: Channel)
      returns (s2: State)
    requires WellSized(s) && t in s.workers && s.workers[t].slot == j
    requires Reached(o, s1) && s1 == Put(s, t, j, c, Paint(x.0, x.1, x.2, channel))
    ensures Reached(o, s2)
    ensures s2 == Put(s, t, j, Coloured(c, x.0, x.1, x.2, channel), NextPaint(x, channel))
                    .(leds := if channel.Blue? then s.leds[j := s.leds[j].(last := x)] else s.leds)
  {
    s2 := ByBody(o, s1, t, StorePaint);
    PutTwice(s, t, j, c, Paint(x.0, x.1, x.2, channel), Coloured(c, x.0, x.1, x.2, channel), NextPaint(x, channel));
  }

  lemma PaintAll(o: Origin, s: State, t: Tid, j: SlotNo, x: Shade) returns (s1: State)
    requires Reached(o, s) && WellSized(s) && IsAt(s, t, Body(Paint(x.0, x.1, x.2, Red))) && s.workers[t].slot == j
    ensures Reached(o, s1) && WellSized(s1)
    ensures s1 == Put(s, t, j, Painted(s.slots[j].settings, x.0, x.1, x.2), AwaitChore(BeforeLoop(TRAFFIC_CHORES)))
                    .(leds := s.leds[j := s.leds[j].(last := x)])
  {
    var c := s.slots[j].settings;
    var c1 := Coloured(c, x.0, x.1, x.2, Red);
    PutSame(s, t, j, Paint(x.0, x.1, x.2, Red));
    s1 := PaintOn(o, s, s, t, j, c, x, Red);
    s1 := PaintOn(o, s, s1, t, j, c1, x, Green);
    s1 := PaintOn(o, s, s1, t, j, Coloured(c1, x.0, x.1, x.2, Green), x, Blue);
  }

  /** The colour of a frame of the stored effect. */
  function FrameOf(c: SlotConfig, look: Look): Shade {
    FrameShade(BaseShade(c), SaneBrightness(c.ledEffectBrightness), look)
  }

  /** Any frame of another colour than the last one can come next. */
  lemma ShowFrame(o: Origin, s: State, i: SlotNo, c: SlotConfig, last: Shade, look: Look) returns (s1: State)
    requires Running(o, s, i, c, last, Frame) && Possible(c.ledEffect as int, look) && FrameOf(c, look) != last
    ensures Running(o, s1, i, c, FrameOf(c, look), AwaitChore(BeforeLoop(TRAFFIC_CHORES))) && ShadeOf(s1, i) == FrameOf(c, look)
  {
    var x := FrameOf(c, look);
    var s2 := ByBody(o, s, i, NewFrame(look));
    PaintedShade(s2.slots[i].settings, x.0, x.1, x.2);
    PaintedKeeps(s2.slots[i].settings, x);
    s1 := PaintAll(o, s2, i, i, x);
  }

  lemma Around(o: Origin, s: State, i: SlotNo, c: SlotConfig, last: Shade) returns (s1: State)
    requires Running(o, s, i, c, last, AwaitChore(BeforeLoop(TRAFFIC_CHORES)))
    ensures Running(o, s1, i, c, last, AwaitLayout)
  {
    s1 := ByBody(o, s, i, EndChores);
    s1 := ByWork(o, s1, i, LoopTop);
    s1 := ByWork(o, s1, i, TakeCheckLock);
    s1 := ByWork(o, s1, i, CheckConnected);
  }

  lemma NothingAsked(c: Settings, i: SlotNo)
    requires !c.ledRequestPending
    ensures Answered(c) == c && AfterRead(c, i) == After(i)
  {
  }

  /** The requests of the slots before its own. */
  lemma ServeOthers(o: Origin, s: State, i: SlotNo, c: SlotConfig, last: Shade) returns (s1: State)
    requires Running(o, s, i, c, last, Look(0))
    ensures Running(o, s1, i, c, last, Look(i))
  {
    s1 := Walk(o, s, i, 0, i);
  }

  /** The worker goes round its loop; there is no new request for its slot. */
  lemma Again(o: Origin, s: State, i: SlotNo, c: SlotConfig, last: Shade) returns (s1: State)
    requires Running(o, s, i, c, last, AwaitChore(BeforeLoop(TRAFFIC_CHORES)))
    ensures Running(o, s1, i, c, last, Frame)
  {
    s1 := Around(o, s, i, c, last);
    s1 := NoLayout(o, s1, i);
    s1 := ServeOthers(o, s1, i, c, last);
    NothingAsked(s1.slots[i].settings, i);
    s1 := TakeRequest(o, s1, i, i);
    s1 := ToFrame(o, s1, i, i);
  }

  lemma UpToFrame(o: Origin, i: SlotNo, c: SlotConfig) returns (s: State)
    requires Init(o.start) && c == Save(o.start.slots[i].settings) && Animated(c.ledEffect)
    ensures Running(o, s, i, c, Black, Frame)
  {
    s := AskOwn(o, i, c);
    s := SetOff(o, s, i, c);
    s := ToFrame(o, s, i, i);
  }

  /** For every start and every slot whose stored effect can show a frame that is neither black nor the stored
      colour: likewise. The first frame is never black, which is what an effect starts from. */
  lemma AnimationDirties(o: Origin, i: SlotNo, look: Look) returns (s: State)
    requires Init(o.start) && InStep(o.start)
    requires var c := Save(o.start.slots[i].settings);
      && Animated(c.ledEffect) && Possible(c.ledEffect as int, look)
      && FrameOf(c, look) != Black && FrameOf(c, look) != StoredShade(c)
    ensures Reached(o, s) && s.dirty
  {
    var c := Save(o.start.slots[i].settings);
    s := UpToFrame(o, i, c);
    s := ShowFrame(o, s, i, c, Black, look);
    s := EndsDirty(o, s, i);
  }

  /** A first frame in the stored colour changes nothing, but the next one does. */
  lemma SecondFrameDirties(o: Origin, i: SlotNo, look: Look, look1: Look) returns (s: State)
    requires Init(o.start) && InStep(o.start)
    requires var c := Save(o.start.slots[i].settings);
      && Animated(c.ledEffect) && Possible(c.ledEffect as int, look) && Possible(c.ledEffect as int, look1)
      && FrameOf(c, look) == StoredShade(c) != Black && FrameOf(c, look1) != StoredShade(c)
    ensures Reached(o, s) && s.dirty
  {
    var c := Save(o.start.slots[i].settings);
    s := UpToFrame(o, i, c);
    s := ShowFrame(o, s, i, c, Black, look);
    s := Again(o, s, i, c, FrameOf(c, look));
    s := ShowFrame(o, s, i, c, FrameOf(c, look), look1);
    s := EndsDirty(o, s, i);
  }

  // ----- through the zeroed slot ----------------------------------------------------------------

  /** Main has chosen slot `k` again and waited for its old worker. */
  lemma FindUsed(o: Origin, s: State, k: nat, path: string) returns (s1: State)
    requires Reached(o, s) && WellSized(s) && s.main.Idle? && s.pass.AtPoll? && s.mutex.Nobody? && s.leaked == {}
    requires Lowest(s.free) == Some(k) && CanJoin(s, k)
    requires forall i | 0 <= i < MAX_SLOTS :: !Matches(s.slots[i], path)
    ensures Reached(o, s1) && WellSized(s1)
    ensures s1 == s.(mutex := Main, main := RegSave(k, path, DS4), threads := s.threads[k := None])
  {
    var access := [false, false, false, false];
    NoGhosts(s.slots, s.free, path, access, 0);
    s1 := ByRegister(o, s, Begin(path, DS4));
    s1 := ByRegister(o, s1, TakeLock);
    s1 := ByRegister(o, s1, ScanSlots(access));
    s1 := ByRegister(o, s1, ReusedJoined);
    s1 := ByRegister(o, s1, TakeLockAgain);
  }

  /** The worker of slot `i`, before its loop, gives up. */
  lemma GiveUp(o: Origin, s: State, i: SlotNo) returns (s1: State)
    requires Reached(o, s) && WellSized(s) && s.mutex.Nobody? && IsAt(s, i, Starting) && s.workers[i].slot == i
    ensures Reached(o, s1) && WellSized(s1)
    ensures s1 == s.(slots := s.slots[i := s.slots[i].(connected := false)], free := s.free + {i},
                     leaked := s.leaked - {i}, workers := s.workers[i := Worker(i, Finished)])
  {
    s1 := FailSetUp(o, s, i);
    s1 := ByWork(o, s1, i, Exit);
    assert s1.workers == s.workers[i := Worker(i, Finished)];
  }

  /** Main has saved slot `k` and zeroed it. */
  lemma ZeroIt(o: Origin, s: State, k: SlotNo, path: string) returns (s1: State)
    requires Reached(o, s) && WellSized(s) && s.main == RegSave(k, path, DS4)
    ensures Reached(o, s1) && WellSized(s1)
    ensures s1 == s.(slots := s.slots[k := ZeroSlot], main := RegFill(k, path, DS4, Save(s.slots[k].settings)))
  {
    s1 := ByRegister(o, s, SaveSlot);
    s1 := ByRegister(o, s1, ZeroTheSlot);
  }

  /** Main fills slot `k` and restores it. */
  lemma RestoreIt(o: Origin, s: State, k: SlotNo) returns (s1: State)
    requires Reached(o, s) && WellSized(s) && s.main.RegFill? && s.main.k == k
    ensures Reached(o, s1) && WellSized(s1)
    ensures s1 == s.(slots := s.slots[k := s1.slots[k]], main := RegPublish(k))
  {
    s1 := ByRegister(o, s, FillSlot);
    s1 := ByRegister(o, s1, RestoreSlot);
    assert s1.slots == s.slots[k := s1.slots[k]];
  }

  /** Main publishes slot `k` and starts a worker. */
  lemma PublishIt(o: Origin, s: State, k: SlotNo, t: Tid) returns (s1: State)
    requires Reached(o, s) && WellSized(s) && s.main == RegPublish(k) && t !in s.workers
    ensures Reached(o, s1) && WellSized(s1) && s1.main.Idle? && s1.mutex.Nobody? && s1.active == s.active
    ensures s1.slots[k].settings == s.slots[k].settings
  {
    s1 := ByRegister(o, s, PublishSlot);
    s1 := ByRegister(o, s1, Spawn(t));
  }

  /** A worker of another slot has taken the request of slot `i`, whose own worker has left. */
  ghost predicate AsksOther(o: Origin, s: State, u: SlotNo, i: SlotNo, c: SlotConfig) {
    && Reached(o, s) && WellSized(s) && s.main.Idle? && s.pass.AtPoll? && s.mutex.Nobody? && s.leaked == {}
    && s.active == o.start.active
    && u != i && IsAt(s, u, Body(Asking(c, i))) && CanJoin(s, i)
    && (forall t :: t in s.workers ==> t < MAX_SLOTS)
    && Lowest(s.free) == Some(i) && Save(s.slots[i].settings) == c
    && (forall x | 0 <= x < MAX_SLOTS :: !Matches(s.slots[x], PathOf(MAX_SLOTS)))
  }

  lemma LowestAgain(n: nat, i: nat)
    requires i < n <= MAX_SLOTS
    ensures Lowest(FreeFrom(n) + {i}) == Some(i)
  {
    assert 0 in AllSlots && 1 in AllSlots && 2 in AllSlots && 3 in AllSlots;
  }

  lemma AnsweredSaves(c: SlotConfig)
    ensures Save(Answered(Restore(c))) == c
  {
    SaveRestore(c);
  }

  lemma StillUnmatched(s: State, s1: State, path: string)
    requires WellSized(s) && WellSized(s1) && forall x | 0 <= x < MAX_SLOTS :: !Matches(s.slots[x], path)
    requires forall x | 0 <= x < MAX_SLOTS :: s1.slots[x].path == s.slots[x].path && (s1.slots[x].connected ==> s.slots[x].connected)
    ensures forall x | 0 <= x < MAX_SLOTS :: !Matches(s1.slots[x], path)
  {
    forall x | 0 <= x < MAX_SLOTS ensures !Matches(s1.slots[x], path) { assert !Matches(s.slots[x], path); }
  }

  lemma AskOther(o: Origin, u: SlotNo, i: SlotNo, n: nat, c: SlotConfig) returns (s: State)
    requires Init(o.start) && c == Save(o.start.slots[i].settings) && u != i && u < n <= MAX_SLOTS && i < n
    ensures AsksOther(o, s, u, i, c)
  {
    var s1 := Man(o, n);
    Starts(o.start, s1, n, u);
    Starts(o.start, s1, n, i);
    NobodyMatches(o.start, s1, n, MAX_SLOTS);
    var s2 := UpToRequest(o, s1, n, u, i, c);
    StillUnmatched(s1, s2, PathOf(MAX_SLOTS));
    s := AfterGivingUp(o, s2, u, i, n, c);
  }

  lemma AfterGivingUp(o: Origin, s: State, u: SlotNo, i: SlotNo, n: nat, c: SlotConfig) returns (s1: State)
    requires Reached(o, s) && WellSized(s) && s.main.Idle? && s.pass.AtPoll? && s.mutex.Nobody? && s.leaked == {}
    requires s.active == o.start.active && s.free == FreeFrom(n) && i < n <= MAX_SLOTS && u != i
    requires IsAt(s, u, Body(Asking(c, i)))
    requires IsAt(s, i, Starting) && s.workers[i].slot == i && s.threads[i] == Some(i)
    requires forall t :: t in s.workers ==> t < MAX_SLOTS
    requires s.slots[i].settings == Answered(Restore(c))
    requires forall x | 0 <= x < MAX_SLOTS :: !Matches(s.slots[x], PathOf(MAX_SLOTS))
    ensures AsksOther(o, s1, u, i, c)
  {
    s1 := GiveUp(o, s, i);
    StillUnmatched(s, s1, PathOf(MAX_SLOTS));
    LowestAgain(n, i);
    AnsweredSaves(c);
  }

  lemma ZeroedTask(i: SlotNo)
    ensures StartedTask(ZeroSettings, i, 0) == Colour(i, 0, 0, 0, Red)
  {
  }

  /** The other worker starts the request while the slot is zeroed. */
  lemma StartHidden(o: Origin, s: State, u: SlotNo, i: SlotNo, c: SlotConfig) returns (s1: State)
    requires AsksOther(o, s, u, i, c) && c.ledEffect == 0 && !o.careful
    ensures Reached(o, s1) && WellSized(s1) && s1.active == s.active && s1.main.RegFill? && s1.main.k == i
    ensures IsAt(s1, u, Body(Colour(i, 0, 0, 0, Red))) && MAX_SLOTS !in s1.workers
  {
    s1 := FindUsed(o, s, i, PathOf(MAX_SLOTS));
    s1 := ZeroIt(o, s1, i, PathOf(MAX_SLOTS));
    ZeroedTask(i);
    s1 := StartIt(o, s1, u, i, 0, c.ledEffectBrightness);
  }

  /** For every start and every slot with a static effect and a stored colour other than black: a worker reads
      the slot's request, the slot's own worker leaves, main registers the next device there and has zeroed the
      slot; the worker starts the static effect, reads black as its base colour, and stores it when main has
      restored the slot. */
  lemma HiddenStartDirties(o: Origin, i: SlotNo) returns (s: State)
    requires Init(o.start) && InStep(o.start) && !o.careful
    requires var c := Save(o.start.slots[i].settings); c.ledEffect == 0 && StoredShade(c) != Black
    ensures Reached(o, s) && s.dirty
  {
    var c := Save(o.start.slots[i].settings);
    var u := if i == 0 then 1 else 0;
    s := AskOther(o, u, i, if i == 0 then 2 else i + 1, c);
    s := StartHidden(o, s, u, i, c);
    s := RestoreIt(o, s, i);
    PaintedShade(s.slots[i].settings, 0, 0, 0);
    s := ColourAll(o, s, u, i, 0, 0, 0);
    s := PublishIt(o, s, i, MAX_SLOTS);
    s := EndsDirty(o, s, i);
  }

  // ----- exactly when ---------------------------------------------------------------------------

  /** An effect that dims the base colour. */
  lemma DimmingDirties(o: Origin, i: SlotNo) returns (s: State)
    requires Init(o.start) && InStep(o.start)
    requires var c := Save(o.start.slots[i].settings);
      Dims(c.ledEffect as int) && BrightestOf(c) != Black && (StartsBlack(c.ledEffect as int) ==> StoredShade(c) == Black)
    ensures Reached(o, s) && s.dirty
  {
    var c := Save(o.start.slots[i].settings);
    var effect := c.ledEffect as int;
    FullIsBrightest(effect, BaseShade(c), SaneBrightness(c.ledEffectBrightness));
    if BrightestOf(c) == StoredShade(c) {
      DimDiffers(effect, BaseShade(c), SaneBrightness(c.ledEffectBrightness));
      s := SecondFrameDirties(o, i, FullLook(effect), DimLook(effect));
    } else {
      s := AnimationDirties(o, i, FullLook(effect));
    }
  }

  /** An effect with colours of its own. */
  lemma ColoursDirty(o: Origin, i: SlotNo) returns (s: State)
    requires Init(o.start) && InStep(o.start) && HasOwnColours(Save(o.start.slots[i].settings).ledEffect as int)
    ensures Reached(o, s) && s.dirty
  {
    var c := Save(o.start.slots[i].settings);
    var effect := c.ledEffect as int;
    OwnLooksDiffer(effect, BaseShade(c), SaneBrightness(c.ledEffectBrightness));
    s := AnimationDirties(o, i, OwnLook(effect, FrameOf(c, OwnLook(effect, false)) == StoredShade(c)));
  }

  lemma UntrustedDirties(o: Origin, i: SlotNo) returns (s: State)
    requires Init(o.start) && InStep(o.start)
    requires var c := Save(o.start.slots[i].settings); !Quiet(c) || (!o.careful && !Unshakable(c))
    ensures Reached(o, s) && s.dirty
  {
    var c := Save(o.start.slots[i].settings);
    if Quiet(c) {
      s := HiddenStartDirties(o, i);
    } else if StartsWithColour(c.ledEffect) && StartShade(c) != StoredShade(c) {
      s := RegistrationDirties(o, i);
    } else if HasOwnColours(c.ledEffect as int) {
      s := ColoursDirty(o, i);
    } else {
      s := DimmingDirties(o, i);
    }
  }

  lemma UntrustedSlot(cfg: seq<SlotConfig>, careful: bool) returns (i: SlotNo)
    requires |cfg| == MAX_SLOTS && !Trusted(cfg, careful)
    ensures !Quiet(cfg[i]) || (!careful && !Unshakable(cfg[i]))
  {
    var j :| 0 <= j < MAX_SLOTS && !(Quiet(cfg[j]) && (careful || Unshakable(cfg[j])));
    i := j;
  }

  lemma UntrustedCanDirty(s0: State, careful: bool)
    requires Init(s0) && InStep(s0) && !Trusted(Configs(s0.slots), careful)
    ensures exists run :: Schedule(s0, run, careful) && Run(s0, run).dirty
  {
    var i := UntrustedSlot(Configs(s0.slots), careful);
    var s := UntrustedDirties(Origin(s0, careful), i);
    var run :| Schedule(s0, run, careful) && Run(s0, run) == s;
  }

  /** For every daemon that starts with a clean profile in step: some run without client writes and layout
      requests dirties it if and only if some stored configuration has a known effect other than the static one,
      or is static in another colour than its base colour, or is static in a base colour other than black. The
      last kind takes a run that starts an LED request while main works on its slot; among the careful runs,
      which do not, the first two kinds are all. */
  lemma DirtiesExactly(s0: State, careful: bool)
    requires Init(s0) && InStep(s0) && !s0.dirty
    ensures (exists run :: Schedule(s0, run, careful) && Run(s0, run).dirty) <==> !Trusted(Configs(s0.slots), careful)
  {
    if Trusted(Configs(s0.slots), careful) {
      forall run | Schedule(s0, run, careful) ensures !Run(s0, run).dirty { TrustedNeverDirties(s0, run, careful); }
    } else {
      UntrustedCanDirty(s0, careful);
    }
  }
}
