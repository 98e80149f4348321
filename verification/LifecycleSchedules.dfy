/** How runs are built step by step: registering devices, workers going through their loops. */
module LifecycleSchedules {
  import opened Records
  import opened SlotTable
  import opened Lifecycle
  import opened LifecycleInvariant
  import opened LifecycleTheorems

  // ----- runs without client writes ---------------------------------------------------------------

  /** No client writes a setting, and no layout is asked for. */
  predicate Silent(step: Step) {
    && !IsClientWrite(step)
    && (step.InBody? && step.a.ServeLayout? ==> !step.a.toSwitch && !step.a.toXbox && !step.a.reset)
  }

  /** A worker starts the LED request of a slot that main has saved and not yet restored. */
  predicate StartsHidden(s: State, step: Step)
    requires WellSized(s) && Enabled(s, step)
  {
    step.InBody? && step.a.StartEffect? && Hidden(s.main, s.workers[step.t].pc.task.i)
  }

  predicate Fine(s: State, step: Step, careful: bool)
    requires WellSized(s) && Enabled(s, step)
  {
    Silent(step) && (careful ==> !StartsHidden(s, step))
  }

  /** A run of such steps; a careful one starts no LED request of a hidden slot. */
  predicate Schedule(s: State, run: seq<Step>, careful: bool)
    decreases |run|
  {
    CanRun(s, run) && (run != [] ==> Fine(s, run[0], careful) && Schedule(Apply(s, run[0]), run[1..], careful))
  }

  lemma {:induction false} RunThenStep(s: State, run: seq<Step>, step: Step)
    requires CanRun(s, run) && Enabled(Run(s, run), step) && WellSized(Apply(Run(s, run), step))
    ensures CanRun(s, run + [step]) && Run(s, run + [step]) == Apply(Run(s, run), step)
    decreases |run|
  {
    if run == [] {
      assert (run + [step])[1..] == [];
    } else {
      assert (run + [step])[1..] == run[1..] + [step];
      RunThenStep(Apply(s, run[0]), run[1..], step);
    }
  }

  lemma {:induction false} ScheduleThenStep(s: State, run: seq<Step>, step: Step, careful: bool)
    requires Schedule(s, run, careful) && Enabled(Run(s, run), step) && WellSized(Apply(Run(s, run), step))
    requires Fine(Run(s, run), step, careful)
    ensures Schedule(s, run + [step], careful) && Run(s, run + [step]) == Apply(Run(s, run), step)
    decreases |run|
  {
    RunThenStep(s, run, step);
    if run == [] {
      assert (run + [step])[1..] == [];
    } else {
      assert (run + [step])[1..] == run[1..] + [step];
      ScheduleThenStep(Apply(s, run[0]), run[1..], step, careful);
    }
  }

  /** Where a run starts, and whether it is a careful one. */
  datatype Origin = Origin(start: State, careful: bool)

  /** The state `s` can be reached in such a run. */
  ghost predicate Reached(o: Origin, s: State) {
    Init(o.start) && exists run :: Schedule(o.start, run, o.careful) && Run(o.start, run) == s
  }

  lemma ReachedInv(o: Origin, s: State)
    requires Reached(o, s)
    ensures Reachable(s) && Inv(s) && InTime(s)
  {
    ReachableInv(s);
  }

  lemma AtStart(o: Origin)
    requires Init(o.start)
    ensures Reached(o, o.start)
  {
    assert Schedule(o.start, [], o.careful) && Run(o.start, []) == o.start;
  }

  lemma Extend(o: Origin, s: State, step: Step)
    requires Reached(o, s) && WellSized(s) && Enabled(s, step) && Fine(s, step, o.careful)
    ensures Reached(o, Apply(s, step)) && WellSized(Apply(s, step))
  {
    var run :| Schedule(o.start, run, o.careful) && Run(o.start, run) == s;
    ReachedInv(o, s);
    StepKeepsInv(s, step);
    ScheduleThenStep(o.start, run, step, o.careful);
  }

  lemma ByRegister(o: Origin, s: State, r: RegisterAction) returns (s1: State)
    requires Reached(o, s) && WellSized(s) && CanRegister(s, r)
    ensures s1 == DoRegister(s, r) && Reached(o, s1) && WellSized(s1)
  {
    Extend(o, s, Register(r));
    s1 := DoRegister(s, r);
  }

  lemma ByMonitor(o: Origin, s: State, m: MonitorAction) returns (s1: State)
    requires Reached(o, s) && WellSized(s) && CanMonitor(s, m)
    ensures s1 == DoMonitor(s, m) && Reached(o, s1) && WellSized(s1)
  {
    Extend(o, s, Monitor(m));
    s1 := DoMonitor(s, m);
  }

  lemma ByWork(o: Origin, s: State, t: Tid, w: WorkerAction) returns (s1: State)
    requires Reached(o, s) && WellSized(s) && CanWork(s, t, w)
    ensures s1 == DoWork(s, t, w) && Reached(o, s1) && WellSized(s1)
  {
    Extend(o, s, Work(t, w));
    s1 := DoWork(s, t, w);
  }

  lemma ByBody(o: Origin, s: State, t: Tid, a: BodyAction) returns (s1: State)
    requires Reached(o, s) && WellSized(s) && CanBody(s, t, a) && Fine(s, InBody(t, a), o.careful)
    ensures s1 == DoBody(s, t, a) && Reached(o, s1) && WellSized(s1)
  {
    Extend(o, s, InBody(t, a));
    s1 := DoBody(s, t, a);
  }

  /** The settings thread syncs. */
  lemma BySettings(o: Origin, s: State) returns (s1: State)
    requires Reached(o, s) && WellSized(s) && s.mutex.Nobody?
    ensures Reached(o, s1) && (s1.dirty <==> s.dirty || !InStep(s))
  {
    Extend(o, s, Outside(TakeSettingsLock));
    var s2 := DoOutside(s, TakeSettingsLock);
    ReachedInv(o, s2);
    SyncDirtiesExactly(s2);
    Extend(o, s2, Outside(SettingsSync));
    s1 := DoOutside(s2, SettingsSync);
  }

  /** Without a match the eviction loop changes nothing. */
  lemma {:induction false} NoGhosts(slots: seq<Slot>, free: set<nat>, path: string, access: seq<bool>, i: nat)
    requires |slots| == |access| && i <= |slots| && forall j | i <= j < |slots| :: !Matches(slots[j], path)
    ensures ScanFrom(slots, free, path, access, i) == Scan(slots, free, false)
    decreases |slots| - i
  {
    if i < |slots| { NoGhosts(slots, free, path, access, i + 1); }
  }

  /** Main looks for a slot and finds one that was never used. */
  lemma FindFresh(o: Origin, s: State, k: nat, path: string) returns (s1: State)
    requires Reached(o, s) && WellSized(s) && s.main.Idle? && s.pass.AtPoll? && s.mutex.Nobody? && s.leaked == {}
    requires Lowest(s.free) == Some(k) && s.threads[k].None?
    requires forall i | 0 <= i < MAX_SLOTS :: !Matches(s.slots[i], path)
    ensures Reached(o, s1) && WellSized(s1) && s1 == s.(mutex := Main, main := RegSave(k, path, DS4))
  {
    var access := [false, false, false, false];
    NoGhosts(s.slots, s.free, path, access, 0);
    s1 := ByRegister(o, s, Begin(path, DS4));
    s1 := ByRegister(o, s1, TakeLock);
    s1 := ByRegister(o, s1, ScanSlots(access));
  }

  lemma FillFresh(o: Origin, s: State, k: nat, path: string) returns (s1: State)
    requires Reached(o, s) && WellSized(s) && s.main == RegSave(k, path, DS4) && k < MAX_SLOTS
    ensures Reached(o, s1) && WellSized(s1)
    ensures s1 == s.(slots := s.slots[k := Registered(s.slots[k], path, DS4).(workerStop := false)],
                     main := RegPublish(k))
  {
    s1 := ByRegister(o, s, SaveSlot);
    s1 := ByRegister(o, s1, ZeroTheSlot);
    s1 := ByRegister(o, s1, FillSlot);
    s1 := ByRegister(o, s1, RestoreSlot);
    assert s1.slots == s.slots[k := Registered(s.slots[k], path, DS4)];
  }

  lemma RegisterFresh(o: Origin, s: State, k: nat, t: Tid, path: string) returns (s1: State)
    requires Reached(o, s) && WellSized(s) && s.main.Idle? && s.pass.AtPoll? && s.mutex.Nobody? && s.leaked == {}
    requires Lowest(s.free) == Some(k) && s.threads[k].None? && t !in s.workers
    requires forall i | 0 <= i < MAX_SLOTS :: !Matches(s.slots[i], path)
    ensures Reached(o, s1) && WellSized(s1)
    ensures s1 == s.(slots := s.slots[k := Registered(s.slots[k], path, DS4)], free := s.free - {k},
                     threads := s.threads[k := Some(t)], workers := s.workers[t := Worker(k, Starting)])
  {
    s1 := FindFresh(o, s, k, path);
    s1 := FillFresh(o, s1, k, path);
    s1 := ByRegister(o, s1, PublishSlot);
    assert s1.slots == s.slots[k := Registered(s.slots[k], path, DS4)];
    s1 := ByRegister(o, s1, Spawn(t));
  }

  /** Worker `t` reaches the body of its loop. */
  lemma IntoBody(o: Origin, s: State, t: Tid) returns (s1: State)
    requires Reached(o, s) && WellSized(s) && s.mutex.Nobody? && IsAt(s, t, Starting)
    requires var slot := s.slots[s.workers[t].slot]; slot.connected && !slot.workerStop && slot.kind.DS4?
    ensures Reached(o, s1) && WellSized(s1)
    ensures var k := s.workers[t].slot;
      s1 == s.(slots := s.slots[k := s.slots[k].(heartbeat := s.clock)], workers := s.workers[t := Worker(k, Body(AwaitLayout))])
  {
    var k := s.workers[t].slot;
    s1 := ByWork(o, s, t, SetUp(""));
    s1 := ByWork(o, s1, t, LoopTop);
    s1 := ByWork(o, s1, t, TakeCheckLock);
    s1 := ByWork(o, s1, t, CheckConnected);
    assert s1.workers == s.workers[t := Worker(k, Body(AwaitLayout))];
  }

  /** It finds no layout request, ... */
  lemma NoLayoutRequest(o: Origin, s: State, t: Tid) returns (s1: State)
    requires Reached(o, s) && WellSized(s) && s.mutex.Nobody? && IsAt(s, t, Body(AwaitLayout))
    ensures Reached(o, s1) && WellSized(s1)
    ensures s1 == s.(workers := s.workers[t := Worker(s.workers[t].slot, Body(AwaitChore(BeforeEffects(DEVICE_CHORES))))])
  {
    s1 := ByBody(o, s, t, TakeLayoutLock);
    s1 := ByBody(o, s1, t, ServeLayout(false, false, false));
    assert s1.slots == s.slots;
    assert s1.workers[t := s.workers[t]] == s.workers;
  }

  /** ... and has nothing to do to its virtual device. */
  lemma NoLayout(o: Origin, s: State, t: Tid) returns (s1: State)
    requires Reached(o, s) && WellSized(s) && s.mutex.Nobody? && IsAt(s, t, Body(AwaitLayout))
    ensures Reached(o, s1) && WellSized(s1)
    ensures s1 == s.(workers := s.workers[t := Worker(s.workers[t].slot, Body(Look(0)))])
  {
    s1 := NoLayoutRequest(o, s, t);
    s1 := ByBody(o, s1, t, EndChores);
    assert s1.workers == s.workers[t := Worker(s.workers[t].slot, Body(Look(0)))];
  }

  /** So it stands before the LED requests. */
  lemma IntoLook(o: Origin, s: State, t: Tid) returns (s1: State)
    requires Reached(o, s) && WellSized(s) && s.mutex.Nobody? && IsAt(s, t, Starting)
    requires var slot := s.slots[s.workers[t].slot]; slot.connected && !slot.workerStop && slot.kind.DS4?
    ensures Reached(o, s1) && WellSized(s1)
    ensures var k := s.workers[t].slot;
      s1 == s.(slots := s.slots[k := s.slots[k].(heartbeat := s.clock)], workers := s.workers[t := Worker(k, Body(Look(0)))])
  {
    s1 := IntoBody(o, s, t);
    s1 := NoLayout(o, s1, t);
    assert s1.workers == s.workers[t := Worker(s.workers[t].slot, Body(Look(0)))];
  }

  /** Worker `t` cannot set up its device and stands before its exit section. */
  lemma FailSetUp(o: Origin, s: State, t: Tid) returns (s1: State)
    requires Reached(o, s) && WellSized(s) && s.mutex.Nobody? && IsAt(s, t, Starting)
    ensures Reached(o, s1) && WellSized(s1)
    ensures s1 == s.(workers := s.workers[t := Worker(s.workers[t].slot, FailingLocked)], mutex := AWorker(t))
  {
    s1 := ByWork(o, s, t, SetUpFails);
    s1 := ByWork(o, s1, t, TakeExitLock);
    assert s1.workers == s.workers[t := Worker(s.workers[t].slot, FailingLocked)];
  }
}
