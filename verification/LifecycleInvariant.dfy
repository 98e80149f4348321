/** `Inv` holds in every reachable state: each part of it is kept by each thread's actions, then runs
    by induction. A part's lemma asks only for the parts its proof uses. */
module LifecycleInvariant {
  import opened Records
  import opened SlotTable
  import opened Lifecycle

  // ----- registration ---------------------------------------------------------------------

  lemma RegisterOwnership(s: State, r: RegisterAction)
    requires Ownership(s) && MainPlace(s) && CanRegister(s, r) && !r.ScanSlots?
    ensures Ownership(DoRegister(s, r))
  {
  }

  lemma RegisterLocking(s: State, r: RegisterAction)
    requires WellSized(s) && Locking(s) && CanRegister(s, r) && !r.ScanSlots?
    ensures Locking(DoRegister(s, r))
  {
  }

  lemma RegisterServes(s: State, r: RegisterAction)
    requires Ownership(s) && MainPlace(s) && CanRegister(s, r) && !r.ScanSlots?
    ensures forall j | !s.main.RegSpawn? || j != s.main.k :: HasWorker(DoRegister(s, r), j) == HasWorker(s, j)
    ensures r.Spawn? ==> HasWorker(DoRegister(s, r), s.main.k)
  {
  }

  /** The steps that take or return the slot. */
  predicate Hands(r: RegisterAction) {
    r.PublishSlot? || r.Spawn? || r.MallocFails? || r.SpawnFails? || r.TakeUndoLock? || r.Undo?
  }

  lemma RegisterMainPlace(s: State, r: RegisterAction)
    requires WellSized(s) && MainPlace(s) && CanRegister(s, r) && !r.ScanSlots? && !Hands(r)
    ensures WellSized(DoRegister(s, r)) && MainPlace(DoRegister(s, r))
  {
  }

  lemma RegisterHandsPlace(s: State, r: RegisterAction)
    requires WellSized(s) && MainPlace(s) && CanRegister(s, r) && Hands(r)
    ensures WellSized(DoRegister(s, r)) && MainPlace(DoRegister(s, r))
  {
  }

  lemma RegisterBitmap(s: State, r: RegisterAction)
    requires Ownership(s) && MainPlace(s) && Bitmap(s) && CanRegister(s, r) && !r.ScanSlots?
    ensures WellSized(DoRegister(s, r)) && Bitmap(DoRegister(s, r))
  {
    RegisterServes(s, r);
  }

  lemma RegisterHeartbeats(s: State, r: RegisterAction)
    requires Ownership(s) && MainPlace(s) && Heartbeats(s) && CanRegister(s, r) && !r.ScanSlots?
    ensures WellSized(DoRegister(s, r)) && Heartbeats(DoRegister(s, r))
  {
  }

  lemma RegisterDistinctPaths(s: State, r: RegisterAction)
    requires WellSized(s) && MainPlace(s) && MainPath(s) && DistinctPaths(s) && CanRegister(s, r) && !r.ScanSlots?
    ensures DistinctPaths(DoRegister(s, r)) && MainPath(DoRegister(s, r))
  {
  }

  /** Eviction only disconnects slots and frees them. */
  lemma ScanChanges(s: State, access: seq<bool>)
    requires WellSized(s) && Locking(s) && CanRegister(s, ScanSlots(access))
    ensures var s1, g := DoRegister(s, ScanSlots(access)), Ghosts(s.slots, s.main.path, access, 0);
      && WellSized(s1) && s1.threads == s.threads && s1.workers == s.workers
      && s1.free == s.free + g && s1.leaked == s.leaked - s1.free
      && (forall i | 0 <= i < MAX_SLOTS ::
            s1.slots[i] == if i in g then s.slots[i].(connected := false) else s.slots[i])
      && g <= AllSlots
      && (s1.main.Idle? || s1.main.RegJoin? || s1.main.RegSave?)
      && (s1.main.RegSave? <==> s1.mutex.Main?) && (!s1.mutex.Main? ==> s1.mutex.Nobody?)
      && (!s1.main.Idle? ==> s1.main.k < MAX_SLOTS && s1.main.k in s1.free && PathUnused(s1, s1.main.path))
      && (s1.main.RegJoin? ==> s.threads[s1.main.k].Some?)
      && (s1.main.RegSave? ==> s.threads[s1.main.k].None?)
  {
    ScanMeaning(s.slots, s.free, s.main.path, access, 0);
  }

  /** So every busy slot stays accounted for, and a scan that was not cut short leaves no connected
      slot with the path. */
  lemma ScanKeepsInv(s: State, access: seq<bool>)
    requires Inv(s) && CanRegister(s, ScanSlots(access))
    ensures Inv(DoRegister(s, ScanSlots(access)))
  {
    var s1 := DoRegister(s, ScanSlots(access));
    ScanChanges(s, access);
    assert forall j :: HasWorker(s1, j) == HasWorker(s, j);
  }

  lemma RegisterKeepsInv(s: State, r: RegisterAction)
    requires Inv(s) && CanRegister(s, r)
    ensures Inv(DoRegister(s, r))
  {
    if r.ScanSlots? {
      ScanKeepsInv(s, r.access);
    } else {
      RegisterOwnership(s, r);
      RegisterLocking(s, r);
      if Hands(r) { RegisterHandsPlace(s, r); } else { RegisterMainPlace(s, r); }
      RegisterBitmap(s, r);
      RegisterHeartbeats(s, r);
      RegisterDistinctPaths(s, r);
    }
  }

  // ----- watchdog and lost connections ------------------------------------------------------

  lemma MonitorOwnership(s: State, m: MonitorAction)
    requires Ownership(s) && MainPlace(s) && CanMonitor(s, m)
    ensures Ownership(DoMonitor(s, m))
  {
  }

  lemma MonitorLocking(s: State, m: MonitorAction)
    requires WellSized(s) && Locking(s) && MainPlace(s) && CanMonitor(s, m)
    ensures Locking(DoMonitor(s, m))
  {
  }

  /** The steps of the watchdog. */
  predicate IsWatch(m: MonitorAction) {
    m.StartPass? || m.WatchdogPasses? || m.WatchdogFires? || m.WatchdogJoined? || m.WatchdogReads? || m.WatchdogWrites? || m.WatchdogEnds?
  }

  lemma MonitorWatchPlace(s: State, m: MonitorAction)
    requires Ownership(s) && MainPlace(s) && Heartbeats(s) && CanMonitor(s, m) && IsWatch(m)
    ensures WellSized(DoMonitor(s, m)) && MainPlace(DoMonitor(s, m))
  {
  }

  lemma MonitorLookPlace(s: State, m: MonitorAction)
    requires Ownership(s) && MainPlace(s) && CanMonitor(s, m) && !IsWatch(m)
    ensures WellSized(DoMonitor(s, m)) && MainPlace(DoMonitor(s, m))
  {
  }

  lemma MonitorServes(s: State, m: MonitorAction)
    requires Ownership(s) && CanMonitor(s, m)
    ensures forall j :: HasWorker(DoMonitor(s, m), j) == HasWorker(s, j)
  {
  }

  lemma WatchBitmap(s: State, m: MonitorAction)
    requires Ownership(s) && MainPlace(s) && Bitmap(s) && CanMonitor(s, m) && IsWatch(m)
    ensures WellSized(DoMonitor(s, m)) && Bitmap(DoMonitor(s, m))
  {
    MonitorServes(s, m);
  }

  lemma LookBitmap(s: State, m: MonitorAction)
    requires Ownership(s) && MainPlace(s) && Bitmap(s) && CanMonitor(s, m) && !IsWatch(m)
    ensures WellSized(DoMonitor(s, m)) && Bitmap(DoMonitor(s, m))
  {
    MonitorServes(s, m);
  }

  lemma MonitorHeartbeats(s: State, m: MonitorAction)
    requires WellSized(s) && Heartbeats(s) && CanMonitor(s, m)
    ensures WellSized(DoMonitor(s, m)) && Heartbeats(DoMonitor(s, m))
  {
  }

  lemma MonitorDistinctPaths(s: State, m: MonitorAction)
    requires WellSized(s) && MainPath(s) && DistinctPaths(s) && CanMonitor(s, m)
    ensures DistinctPaths(DoMonitor(s, m)) && MainPath(DoMonitor(s, m))
  {
  }

  lemma MonitorKeepsInv(s: State, m: MonitorAction)
    requires Inv(s) && CanMonitor(s, m)
    ensures Inv(DoMonitor(s, m))
  {
    MonitorOwnership(s, m);
    MonitorLocking(s, m);
    if IsWatch(m) {
      MonitorWatchPlace(s, m);
      WatchBitmap(s, m);
    } else {
      MonitorLookPlace(s, m);
      LookBitmap(s, m);
    }
    MonitorHeartbeats(s, m);
    MonitorDistinctPaths(s, m);
  }

  // ----- workers ------------------------------------------------------------------------------

  lemma WorkOwnership(s: State, t: Tid, w: WorkerAction)
    requires Ownership(s) && CanWork(s, t, w)
    ensures Ownership(DoWork(s, t, w))
  {
  }

  lemma WorkLocking(s: State, t: Tid, w: WorkerAction)
    requires WellSized(s) && Locking(s) && CanWork(s, t, w)
    ensures Locking(DoWork(s, t, w))
  {
  }

  /** Which slots have a worker changes only when the worker of a slot exits. */
  lemma WorkServes(s: State, t: Tid, w: WorkerAction)
    requires Ownership(s) && CanWork(s, t, w)
    ensures forall j :: HasWorker(DoWork(s, t, w), j) == (HasWorker(s, j) && (w.Exit? ==> j != s.workers[t].slot))
    ensures HasWorker(s, s.workers[t].slot)
  {
    assert s.threads[s.workers[t].slot] == Some(t);
  }

  lemma ExitMainPlace(s: State, t: Tid)
    requires Ownership(s) && MainPlace(s) && CanWork(s, t, Exit)
    ensures WellSized(DoWork(s, t, Exit)) && MainPlace(DoWork(s, t, Exit))
  {
    WorkServes(s, t, Exit);
  }

  /** The set-up of a Switch Pro stores a path, the loop head a heartbeat. */
  lemma StoreMainPlace(s: State, t: Tid, w: WorkerAction)
    requires Ownership(s) && MainPlace(s) && Heartbeats(s) && CanWork(s, t, w) && (w.SetUp? || w.LoopTop?)
    ensures WellSized(DoWork(s, t, w)) && MainPlace(DoWork(s, t, w))
  {
    WorkServes(s, t, w);
    assert s.threads[s.workers[t].slot] == Some(t);
  }

  lemma WorkMainPlace(s: State, t: Tid, w: WorkerAction)
    requires Ownership(s) && MainPlace(s) && CanWork(s, t, w) && !w.Exit? && !w.SetUp? && !w.LoopTop?
    ensures WellSized(DoWork(s, t, w)) && MainPlace(DoWork(s, t, w))
  {
    WorkServes(s, t, w);
  }

  lemma WorkBitmap(s: State, t: Tid, w: WorkerAction)
    requires Ownership(s) && MainPlace(s) && Bitmap(s) && CanWork(s, t, w)
    ensures WellSized(DoWork(s, t, w)) && Bitmap(DoWork(s, t, w))
  {
    WorkServes(s, t, w);
  }

  lemma StoreHeartbeats(s: State, t: Tid, w: WorkerAction)
    requires Ownership(s) && Heartbeats(s) && CanWork(s, t, w) && (w.Exit? || w.SetUp? || w.LoopTop?)
    ensures WellSized(DoWork(s, t, w)) && Heartbeats(DoWork(s, t, w))
  {
    assert s.threads[s.workers[t].slot] == Some(t);
  }

  lemma WorkHeartbeats(s: State, t: Tid, w: WorkerAction)
    requires Ownership(s) && Heartbeats(s) && CanWork(s, t, w) && !w.Exit? && !w.SetUp? && !w.LoopTop?
    ensures WellSized(DoWork(s, t, w)) && Heartbeats(DoWork(s, t, w))
  {
    assert s.threads[s.workers[t].slot] == Some(t);
  }

  /** Only a Switch Pro changes its path while connected, and its path is never compared. */
  lemma WorkDistinctPaths(s: State, t: Tid, w: WorkerAction)
    requires WellSized(s) && MainPath(s) && DistinctPaths(s) && CanWork(s, t, w)
    ensures DistinctPaths(DoWork(s, t, w)) && MainPath(DoWork(s, t, w))
  {
  }

  lemma WorkKeepsInv(s: State, t: Tid, w: WorkerAction)
    requires Inv(s) && CanWork(s, t, w)
    ensures Inv(DoWork(s, t, w))
  {
    WorkOwnership(s, t, w);
    WorkLocking(s, t, w);
    WorkBitmap(s, t, w);
    WorkDistinctPaths(s, t, w);
    if w.Exit? || w.SetUp? || w.LoopTop? {
      if w.Exit? { ExitMainPlace(s, t); } else { StoreMainPlace(s, t, w); }
      StoreHeartbeats(s, t, w);
    } else {
      WorkMainPlace(s, t, w);
      WorkHeartbeats(s, t, w);
    }
  }

  // ----- the loop body ------------------------------------------------------------------------

  /** Nothing changes in the slots but settings, and nothing at all in the bitmap and in main's view. */
  ghost predicate SettingsOnly(s: State, s1: State)
    requires WellSized(s)
  {
    && WellSized(s1)
    && s1.free == s.free && s1.threads == s.threads && s1.main == s.main && s1.leaked == s.leaked
    && s1.pass == s.pass && s1.clock >= s.clock
    && (forall i | 0 <= i < MAX_SLOTS :: s1.slots[i] == s.slots[i].(settings := s1.slots[i].settings))
  }

  lemma SettingsKeepPlaces(s: State, s1: State)
    requires WellSized(s) && SettingsOnly(s, s1) && forall j :: HasWorker(s1, j) == HasWorker(s, j)
    requires MainPlace(s) && MainPath(s) && DistinctPaths(s)
    ensures MainPlace(s1) && MainPath(s1) && DistinctPaths(s1)
  {
  }

  lemma SettingsKeepBitmap(s: State, s1: State)
    requires WellSized(s) && SettingsOnly(s, s1) && forall j :: HasWorker(s1, j) == HasWorker(s, j)
    requires Bitmap(s)
    ensures Bitmap(s1)
  {
  }

  /** The loop body of worker `t` also changes its own place. */
  ghost predicate BodyChanges(s: State, s1: State, t: Tid)
    requires WellSized(s)
  {
    && SettingsOnly(s, s1)
    && t in s.workers && t in s1.workers && s1.workers == s.workers[t := s.workers[t].(pc := s1.workers[t].pc)]
    && s.workers[t].pc.Body? && (s1.workers[t].pc.Body? || s1.workers[t].pc.Polling?)
    && s1.clock == s.clock
  }

  /** Taking the mutex, giving it back, or neither. */
  predicate BodyLocks(s: State, s1: State, t: Tid)
    requires t in s.workers && t in s1.workers
  {
    var held, holds := WorkerHolds(s.workers[t].pc), WorkerHolds(s1.workers[t].pc);
    || (!held && s.mutex.Nobody? && holds && s1.mutex == AWorker(t))
    || (held && !holds && s1.mutex.Nobody?)
    || (!held && !holds && s1.mutex == s.mutex)
  }

  lemma BodyStays(s: State, t: Tid, a: BodyAction)
    requires WellSized(s) && CanBody(s, t, a)
    ensures BodyPc(s, t, a).Body? || BodyPc(s, t, a).Polling?
    ensures |BodyLeds(s, t, a)| == |s.leds|
  {
  }

  lemma BodyIsLocal(s: State, t: Tid, a: BodyAction)
    requires WellSized(s) && CanBody(s, t, a)
    ensures BodyChanges(s, DoBody(s, t, a), t)
  {
    BodyStays(s, t, a);
    match BodyStore(s, t, a)
    case None =>
    case Some(store) => assert DoBody(s, t, a).slots == s.slots[store.slot := s.slots[store.slot].(settings := store.settings)];
  }

  lemma BodyTakesTurns(s: State, t: Tid, a: BodyAction)
    requires WellSized(s) && Locking(s) && CanBody(s, t, a)
    ensures t in DoBody(s, t, a).workers && BodyLocks(s, DoBody(s, t, a), t)
  {
  }

  lemma BodyServes(s: State, s1: State, t: Tid)
    requires WellSized(s) && BodyChanges(s, s1, t)
    ensures forall j :: HasWorker(s1, j) == HasWorker(s, j)
  {
  }

  lemma BodyOwnership(s: State, s1: State, t: Tid)
    requires Ownership(s) && BodyChanges(s, s1, t)
    ensures Ownership(s1)
  {
  }

  lemma BodyLocking(s: State, s1: State, t: Tid)
    requires WellSized(s) && Locking(s) && BodyChanges(s, s1, t) && BodyLocks(s, s1, t)
    ensures Locking(s1)
  {
  }

  lemma BodyHeartbeats(s: State, s1: State, t: Tid)
    requires WellSized(s) && Heartbeats(s) && BodyChanges(s, s1, t)
    ensures Heartbeats(s1)
  {
  }

  lemma BodyKeepsInv(s: State, t: Tid, a: BodyAction)
    requires Inv(s) && CanBody(s, t, a)
    ensures Inv(DoBody(s, t, a))
  {
    var s1 := DoBody(s, t, a);
    BodyIsLocal(s, t, a);
    BodyTakesTurns(s, t, a);
    BodyOwnership(s, s1, t);
    BodyLocking(s, s1, t);
    BodyServes(s, s1, t);
    SettingsKeepPlaces(s, s1);
    SettingsKeepBitmap(s, s1);
    BodyHeartbeats(s, s1, t);
  }

  // ----- settings thread and clients ----------------------------------------------------------

  lemma OutsideIsLocal(s: State, o: OutsideAction)
    requires WellSized(s) && CanOutside(s, o)
    ensures SettingsOnly(s, DoOutside(s, o)) && DoOutside(s, o).workers == s.workers
  {
  }

  lemma OutsideLocking(s: State, o: OutsideAction)
    requires WellSized(s) && Locking(s) && CanOutside(s, o)
    ensures Locking(DoOutside(s, o))
  {
  }

  lemma OutsideHeartbeats(s: State, s1: State)
    requires WellSized(s) && SettingsOnly(s, s1) && s1.workers == s.workers
    requires Ownership(s) && Heartbeats(s)
    ensures Ownership(s1) && Heartbeats(s1)
  {
  }

  lemma OutsideKeepsInv(s: State, o: OutsideAction)
    requires Inv(s) && CanOutside(s, o)
    ensures Inv(DoOutside(s, o))
  {
    var s1 := DoOutside(s, o);
    OutsideIsLocal(s, o);
    OutsideLocking(s, o);
    assert forall j :: HasWorker(s1, j) == HasWorker(s, j);
    SettingsKeepPlaces(s, s1);
    SettingsKeepBitmap(s, s1);
    OutsideHeartbeats(s, s1);
  }

  // ----- main's place and the clock -----------------------------------------------------------

  lemma HandsInTime(s: State, r: RegisterAction)
    requires WellSized(s) && InTime(s) && CanRegister(s, r) && Hands(r)
    ensures WellSized(DoRegister(s, r)) && InTime(DoRegister(s, r))
  {
  }

  lemma RegisterInTime(s: State, r: RegisterAction)
    requires WellSized(s) && InTime(s) && CanRegister(s, r) && !r.ScanSlots?
    ensures WellSized(DoRegister(s, r)) && InTime(DoRegister(s, r))
  {
    if Hands(r) { HandsInTime(s, r); }
  }

  lemma ScanInTime(s: State, access: seq<bool>)
    requires WellSized(s) && Locking(s) && InTime(s) && CanRegister(s, ScanSlots(access))
    ensures WellSized(DoRegister(s, ScanSlots(access))) && InTime(DoRegister(s, ScanSlots(access)))
  {
    ScanChanges(s, access);
  }

  lemma WatchInTime(s: State, m: MonitorAction)
    requires WellSized(s) && InTime(s) && CanMonitor(s, m) && IsWatch(m) && !m.WatchdogEnds?
    ensures WellSized(DoMonitor(s, m)) && InTime(DoMonitor(s, m))
  {
  }

  /** The branch that would register a device in the middle of a pass is never taken. */
  lemma WatchdogEndsInTime(s: State, accessible: bool)
    requires WellSized(s) && MainPlace(s) && InTime(s) && CanMonitor(s, WatchdogEnds(accessible))
    ensures WellSized(DoMonitor(s, WatchdogEnds(accessible))) && InTime(DoMonitor(s, WatchdogEnds(accessible)))
  {
  }

  lemma LookInTime(s: State, m: MonitorAction)
    requires WellSized(s) && InTime(s) && CanMonitor(s, m) && !IsWatch(m)
    ensures WellSized(DoMonitor(s, m)) && InTime(DoMonitor(s, m))
  {
  }

  lemma WorkInTime(s: State, t: Tid, w: WorkerAction)
    requires WellSized(s) && InTime(s) && CanWork(s, t, w)
    ensures WellSized(DoWork(s, t, w)) && InTime(DoWork(s, t, w))
  {
  }

  lemma StepInTime(s: State, step: Step)
    requires Inv(s) && InTime(s) && Enabled(s, step)
    ensures WellSized(Apply(s, step)) && InTime(Apply(s, step))
  {
    match step
    case Register(r) => if r.ScanSlots? { ScanInTime(s, r.access); } else { RegisterInTime(s, r); }
    case Monitor(m) =>
      if m.WatchdogEnds? { WatchdogEndsInTime(s, m.accessible); }
      else if IsWatch(m) { WatchInTime(s, m); }
      else { LookInTime(s, m); }
    case Work(t, w) => WorkInTime(s, t, w);
    case InBody(t, a) => BodyIsLocal(s, t, a);
    case Outside(o) => OutsideIsLocal(s, o);
  }

  // ----- all steps, all runs ------------------------------------------------------------------

  lemma StepKeepsInv(s: State, step: Step)
    requires Inv(s) && Enabled(s, step)
    ensures Inv(Apply(s, step))
  {
    match step
    case Register(r) => RegisterKeepsInv(s, r);
    case Monitor(m) => MonitorKeepsInv(s, m);
    case Work(t, w) => WorkKeepsInv(s, t, w);
    case InBody(t, a) => BodyKeepsInv(s, t, a);
    case Outside(o) => OutsideKeepsInv(s, o);
  }

  lemma {:induction false} RunKeepsInv(s: State, run: seq<Step>)
    requires Inv(s) && CanRun(s, run)
    ensures Inv(Run(s, run))
    decreases |run|
  {
    if run != [] {
      StepKeepsInv(s, run[0]);
      RunKeepsInv(Apply(s, run[0]), run[1..]);
    }
  }

  lemma {:induction false} RunInTime(s: State, run: seq<Step>)
    requires Inv(s) && InTime(s) && CanRun(s, run)
    ensures InTime(Run(s, run))
    decreases |run|
  {
    if run != [] {
      StepKeepsInv(s, run[0]);
      StepInTime(s, run[0]);
      RunInTime(Apply(s, run[0]), run[1..]);
    }
  }

  lemma InitInv(s: State)
    requires Init(s)
    ensures Inv(s) && InTime(s)
  {
  }

  lemma ReachableInv(s: State)
    requires Reachable(s)
    ensures Inv(s) && InTime(s)
  {
    var s0, run :| Init(s0) && CanRun(s0, run) && Run(s0, run) == s;
    InitInv(s0);
    RunKeepsInv(s0, run);
    RunInTime(s0, run);
  }
}
