/** Concrete schedules: the watchdog's unlocked update of the bitmap loses a slot, and when for good; and
    it stops a worker that beats. */
module LifecycleRace {
  import opened Records
  import opened SlotTable
  import opened EffectColours
  import opened Lifecycle
  import opened LifecycleInvariant
  import opened LifecycleTheorems
  import opened LifecycleWatchdog
  import opened LifecycleSchedules

  /** Worker `t` loops once and is told to leave. */
  lemma LoopOnce(o: Origin, s: State, t: Tid) returns (s1: State)
    requires Reached(o, s) && WellSized(s) && s.mutex.Nobody? && IsAt(s, t, Starting)
    requires var slot := s.slots[s.workers[t].slot]; slot.connected && !slot.workerStop && slot.kind.DS4?
    ensures Reached(o, s1) && WellSized(s1)
    ensures var k := s.workers[t].slot;
      s1 == s.(slots := s.slots[k := s.slots[k].(heartbeat := s.clock)], workers := s.workers[t := Worker(k, Leaving)])
  {
    var k := s.workers[t].slot;
    s1 := IntoLook(o, s, t);
    s1 := ByBody(o, s1, t, SkipEffects);
    s1 := ByBody(o, s1, t, EndChores);
    s1 := ByWork(o, s1, t, LoopBreaks);
    assert s1.workers == s.workers[t := Worker(k, Leaving)];
  }

  lemma LeaveSlot(o: Origin, s: State, t: Tid) returns (s1: State)
    requires Reached(o, s) && WellSized(s) && s.mutex.Nobody? && IsAt(s, t, Leaving)
    ensures Reached(o, s1) && WellSized(s1)
    ensures var k := s.workers[t].slot;
      s1 == s.(slots := s.slots[k := s.slots[k].(connected := false, path := "")],
               free := s.free + {k}, leaked := s.leaked - {k}, workers := s.workers[t := Worker(k, Finished)])
  {
    s1 := ByWork(o, s, t, TakeExitLock);
    s1 := ByWork(o, s1, t, Exit);
    assert s1.workers == s.workers[t := Worker(s.workers[t].slot, Finished)];
  }

  /** Time goes by, and a pass begins. */
  lemma BeginPass(o: Origin, s: State, d: nat) returns (s1: State)
    requires Reached(o, s) && WellSized(s) && s.main.Idle? && s.pass.AtPoll? && s.clock + d < CLOCK_END
    ensures Reached(o, s1) && WellSized(s1) && s1 == s.(clock := s.clock + d, pass := Watchdog(0, s.clock + d))
  {
    Extend(o, s, Outside(Tick(d)));
    s1 := DoOutside(s, Tick(d));
    s1 := ByMonitor(o, s1, StartPass);
  }

  /** The watchdog joins the finished worker of slot `k` and reads the bitmap. */
  lemma WatchdogUpToRead(o: Origin, s: State) returns (s1: State)
    requires Reached(o, s) && WellSized(s) && s.main.Idle? && s.pass.Watchdog? && CanJoin(s, s.pass.i) && Fires(s)
    ensures Reached(o, s1) && WellSized(s1)
    ensures var k := s.pass.i;
      s1 == s.(slots := s.slots[k := s.slots[k].(workerStop := false, connected := false)],
               threads := s.threads[k := None], main := WatchWrite(k, s.free))
  {
    var k := s.pass.i;
    s1 := ByMonitor(o, s, WatchdogFires);
    s1 := ByMonitor(o, s1, WatchdogJoined);
    s1 := ByMonitor(o, s1, WatchdogReads);
    assert s1.slots == s.slots[k := s.slots[k].(workerStop := false, connected := false)];
  }

  // ----- lost slots -----------------------------------------------------------------------------

  /** The watchdog has no reason to look at slot `i` before its worker is joined: nothing is left to join,
      it never beat, or the running pass is past it, does not find it stuck, or checks for lost
      connections, which joins it. */
  predicate OutOfReach(s: State, i: nat)
    requires WellSized(s) && i < MAX_SLOTS
  {
    || s.threads[i].None?
    || s.slots[i].heartbeat == 0
    || (s.pass.Watchdog? && (i < s.pass.i || !Expired(s.pass.now, s.slots[i].heartbeat)))
    || (s.pass.Looking? && s.pass.i <= i)
  }

  /** A busy slot that nobody serves, registers or watches, out of the watchdog's reach. */
  ghost predicate Stranded(s: State, i: nat) {
    && WellSized(s) && i < MAX_SLOTS
    && i !in s.free && !s.slots[i].connected && !HasWorker(s, i)
    && OutOfReach(s, i)
    && !(HasSlot(s.main) && s.main.k == i && !Looks(s.main))
  }

  ghost predicate Lost(s: State, i: nat) {
    Inv(s) && InTime(s) && Stranded(s, i)
  }

  lemma WorkStrands(s: State, t: Tid, w: WorkerAction, i: nat)
    requires Ownership(s) && Stranded(s, i) && CanWork(s, t, w)
    ensures Stranded(DoWork(s, t, w), i)
  {
    WorkServes(s, t, w);
  }

  lemma BodyStrands(s: State, t: Tid, a: BodyAction, i: nat)
    requires Stranded(s, i) && CanBody(s, t, a)
    ensures Stranded(DoBody(s, t, a), i)
  {
    BodyIsLocal(s, t, a);
    BodyServes(s, DoBody(s, t, a), t);
  }

  lemma RegisterStrands(s: State, r: RegisterAction, i: nat)
    requires Ownership(s) && MainPlace(s) && Stranded(s, i) && CanRegister(s, r) && !r.ScanSlots?
    ensures Stranded(DoRegister(s, r), i)
  {
    RegisterServes(s, r);
  }

  /** The eviction frees connected slots only. */
  lemma ScanStrands(s: State, access: seq<bool>, i: nat)
    requires Locking(s) && Stranded(s, i) && CanRegister(s, ScanSlots(access))
    ensures Stranded(DoRegister(s, ScanSlots(access)), i)
  {
    ScanChanges(s, access);
  }

  lemma WatchStrands(s: State, m: MonitorAction, i: nat)
    requires Ownership(s) && MainPlace(s) && InTime(s) && Stranded(s, i) && CanMonitor(s, m) && IsWatch(m)
    ensures Stranded(DoMonitor(s, m), i)
  {
  }

  lemma LookStrands(s: State, m: MonitorAction, i: nat)
    requires Ownership(s) && MainPlace(s) && InTime(s) && Stranded(s, i) && CanMonitor(s, m) && !IsWatch(m)
    ensures Stranded(DoMonitor(s, m), i)
  {
  }

  lemma StepStrands(s: State, step: Step, i: nat)
    requires Lost(s, i) && Enabled(s, step)
    ensures Stranded(Apply(s, step), i)
  {
    match step
    case Register(r) => if r.ScanSlots? { ScanStrands(s, r.access, i); } else { RegisterStrands(s, r, i); }
    case Monitor(m) => if IsWatch(m) { WatchStrands(s, m, i); } else { LookStrands(s, m, i); }
    case Work(t, w) => WorkStrands(s, t, w, i);
    case InBody(t, a) => BodyStrands(s, t, a, i);
    case Outside(o) => OutsideIsLocal(s, o);
  }

  /** A lost slot stays lost over every run: the bitmap shows it busy for ever. */
  lemma {:induction false} LostStaysLost(s: State, run: seq<Step>, i: nat)
    requires Lost(s, i) && CanRun(s, run)
    ensures Lost(Run(s, run), i)
    decreases |run|
  {
    if run != [] {
      StepStrands(s, run[0], i);
      StepKeepsInv(s, run[0]);
      StepInTime(s, run[0]);
      LostStaysLost(Apply(s, run[0]), run[1..], i);
    }
  }

  // ----- a schedule that loses a slot -----------------------------------------------------------

  /** A daemon that has not seen a device yet. */
  function Blank(): State {
    var none: Option<Tid> := None;
    var led := Led(false, 0, 80, Black);
    State(Nobody, AllSlots, [ZeroSlot, ZeroSlot, ZeroSlot, ZeroSlot], [none, none, none, none], map[],
          Idle, AtPoll, 1, [led, led, led, led], [], false, {})
  }

  /** Two devices are registered. */
  lemma TwoWorkers(o: Origin) returns (s: State)
    requires o.start == Blank()
    ensures Reached(o, s) && WellSized(s) && s.main.Idle? && s.pass.AtPoll? && s.mutex.Nobody? && s.free == {2, 3} && s.clock == 1
    ensures s.workers == map[0 := Worker(0, Starting), 1 := Worker(1, Starting)]
    ensures s.threads[0] == Some(0) && s.threads[1] == Some(1)
    ensures s.slots[0].connected && !s.slots[0].workerStop && s.slots[0].kind.DS4? && s.slots[1].heartbeat == 0
  {
    AtStart(o);
    s := RegisterFresh(o, o.start, 0, 0, "a");
    s := RegisterFresh(o, s, 1, 1, "b");
  }

  /** The first worker loops once and leaves; the second cannot set up its device and takes the mutex
      to give its slot back; five seconds later the watchdog joins the first worker and reads the bitmap. */
  lemma BeforeTheRace(o: Origin) returns (s: State)
    requires o.start == Blank()
    ensures Reached(o, s) && WellSized(s) && s.main == WatchWrite(0, s.free) && IsAt(s, 1, FailingLocked)
    ensures 1 !in s.free && s.workers[1].slot == 1 && s.threads[1] == Some(1) && s.slots[1].heartbeat == 0
  {
    s := TwoWorkers(o);
    s := LoopOnce(o, s, 0);
    s := LeaveSlot(o, s, 0);
    s := FailSetUp(o, s, 1);
    s := BeginPass(o, s, WORKER_HEARTBEAT_TIMEOUT_US + 1);
    s := WatchdogUpToRead(o, s);
  }

  /** The second worker gives slot 1 back, then the watchdog writes what it had read: slot 1 is lost. */
  lemma WatchdogRaceLosesASlot() returns (s: State)
    ensures Reachable(s) && 1 in s.leaked && Lost(s, 1)
  {
    var o := Origin(Blank(), true);
    s := BeforeTheRace(o);
    s := ByWork(o, s, 1, Exit);
    s := ByMonitor(o, s, WatchdogWrites);
    ReachedInv(o, s);
  }

  // ----- when the loss is for good --------------------------------------------------------------

  /** The state after worker `t` gave its slot back inside the watchdog's window and the watchdog wrote. */
  function AfterWindow(s: State, t: Tid): State
    requires WellSized(s) && s.main.WatchWrite? && s.main.k < MAX_SLOTS && CanWork(s, t, Exit)
  {
    DoMonitor(DoWork(s, t, Exit), WatchdogWrites)
  }

  /** An exited worker's slot, whose bit is set again. */
  ghost predicate Exited(s: State, j: nat) {
    && Inv(s) && InTime(s) && j < MAX_SLOTS && j in s.free && !s.slots[j].connected
    && CanJoin(s, j) && !HasWorker(s, j)
  }

  lemma AfterExitIs(s: State, t: Tid)
    requires Inv(s) && InTime(s) && s.main.WatchWrite? && CanWork(s, t, Exit)
    ensures var j, s1 := s.workers[t].slot, DoWork(s, t, Exit);
      && Exited(s1, j) && s1.slots[j].heartbeat == s.slots[j].heartbeat && s1.main == s.main && s1.pass == s.pass
      && s.main.k != j
  {
    WorkKeepsInv(s, t, Exit);
    WorkInTime(s, t, Exit);
    WorkServes(s, t, Exit);
    assert s.threads[s.workers[t].slot] == Some(t);
  }

  /** A finished worker that nobody has joined yet; its slot is busy. */
  ghost predicate Waits(s: State, j: nat, heartbeat: nat) {
    && WellSized(s) && j < MAX_SLOTS && j !in s.free && !s.slots[j].connected
    && CanJoin(s, j) && s.slots[j].heartbeat == heartbeat
  }

  ghost predicate Leftover(s: State, j: nat, heartbeat: nat) {
    Inv(s) && InTime(s) && Waits(s, j, heartbeat)
  }

  lemma AfterWriteIs(s: State, j: nat)
    requires Exited(s, j) && s.main.WatchWrite? && j !in s.main.snapshot && s.main.k != j
    ensures var s1 := DoMonitor(s, WatchdogWrites);
      && Leftover(s1, j, s.slots[j].heartbeat) && j in s1.leaked
      && s1.pass == s.pass && s1.main == WatchDone(s.main.k)
  {
    MonitorKeepsInv(s, WatchdogWrites);
    WatchInTime(s, WatchdogWrites);
  }

  /** `s1` can follow `s`. */
  ghost predicate Leads(s: State, s1: State) {
    exists run :: CanRun(s, run) && Run(s, run) == s1
  }

  lemma LeadsOn(s: State, s1: State, step: Step)
    requires Leads(s, s1) && WellSized(s1) && Enabled(s1, step) && WellSized(Apply(s1, step))
    ensures Leads(s, Apply(s1, step))
  {
    var run :| CanRun(s, run) && Run(s, run) == s1;
    RunThenStep(s, run, step);
  }

  predicate IsMain(step: Step) {
    step.Register? || step.Monitor?
  }

  lemma WorkKeepsWaits(s: State, t: Tid, w: WorkerAction, j: nat, heartbeat: nat)
    requires Ownership(s) && Waits(s, j, heartbeat) && CanWork(s, t, w)
    ensures Waits(DoWork(s, t, w), j, heartbeat)
  {
    assert Live(s, t);
  }

  lemma OthersKeepLeftover(s: State, step: Step, j: nat, heartbeat: nat)
    requires Leftover(s, j, heartbeat) && Enabled(s, step) && !IsMain(step)
    ensures Leftover(Apply(s, step), j, heartbeat)
  {
    StepKeepsInv(s, step);
    StepInTime(s, step);
    match step
    case Work(t, w) => WorkKeepsWaits(s, t, w, j, heartbeat);
    case InBody(t, a) => BodyIsLocal(s, t, a);
    case Outside(o) => OutsideIsLocal(s, o);
  }

  lemma WatchKeepsWaits(s: State, m: MonitorAction, j: nat, heartbeat: nat)
    requires Waits(s, j, heartbeat) && MainPlace(s) && InTime(s) && CanMonitor(s, m) && IsWatch(m)
    requires s.pass.Watchdog? && s.pass.i != j
    ensures Waits(DoMonitor(s, m), j, heartbeat)
  {
  }

  /** A step of the watchdog at another slot. */
  lemma ByWatch(s0: State, s: State, m: MonitorAction, j: nat, heartbeat: nat) returns (s1: State)
    requires Leads(s0, s) && Leftover(s, j, heartbeat) && CanMonitor(s, m) && IsWatch(m)
    requires s.pass.Watchdog? && s.pass.i != j
    ensures s1 == DoMonitor(s, m) && Leads(s0, s1) && Leftover(s1, j, heartbeat)
  {
    WatchKeepsWaits(s, m, j, heartbeat);
    StepKeepsInv(s, Monitor(m));
    StepInTime(s, Monitor(m));
    LeadsOn(s0, s, Monitor(m));
    s1 := DoMonitor(s, m);
  }

  lemma ReleaseFrees(s: State)
    requires Inv(s) && !s.mutex.Nobody? && !s.mutex.Main?
    ensures Apply(s, Release(s)).mutex.Nobody? && !IsMain(Release(s))
  {
  }

  /** A step that brings the awaited worker nearer to its end, or frees the mutex for it. */
  lemma NearerStep(s: State) returns (step: Step)
    requires Joining(s) && s.main.WatchJoin? && !CanJoin(s, s.main.k)
    ensures Enabled(s, step) && !IsMain(step)
    ensures IsStepOf(step, Awaited(s)) || (!s.mutex.Nobody? && Apply(s, step).mutex.Nobody?)
  {
    JoinNeverDeadlocks(s);
    step :| Enabled(s, step) &&
            (IsJoin(step) || IsStepOf(step, Awaited(s)) || (!s.mutex.Nobody? && !s.mutex.Main? && step == Release(s)));
    if !IsJoin(step) && !IsStepOf(step, Awaited(s)) { ReleaseFrees(s); }
  }

  /** While the watchdog joins, the worker it waits for can always be brought to its end. */
  lemma {:induction false} CanComeBack(s0: State, s: State, j: nat, heartbeat: nat) returns (s1: State)
    requires Leads(s0, s) && Leftover(s, j, heartbeat) && s.main.WatchJoin?
    ensures Leads(s0, s1) && Leftover(s1, j, heartbeat)
    ensures s1.main == s.main && s1.pass == s.pass && CanJoin(s1, s1.main.k)
    decreases JoinRank(s), if s.mutex.Nobody? then 0 else 1
  {
    if CanJoin(s, s.main.k) {
      s1 := s;
    } else {
      var step := NearerStep(s);
      OthersKeepLeftover(s, step, j, heartbeat);
      OthersKeepPass(s, step);
      JoinRankDecreases(s, step);
      LeadsOn(s0, s, step);
      s1 := CanComeBack(s0, Apply(s, step), j, heartbeat);
    }
  }

  lemma OthersKeepPass(s: State, step: Step)
    requires WellSized(s) && Enabled(s, step) && !IsMain(step)
    ensures Apply(s, step).pass == s.pass && !IsJoin(step)
  {
  }

  /** The watchdog finishes with a slot it has begun to free, ... */
  lemma FinishSlot(s0: State, s: State, j: nat, heartbeat: nat) returns (s1: State)
    requires Leads(s0, s) && Leftover(s, j, heartbeat) && s.main.WatchDone? && s.pass.Watchdog? && s.pass.i != j
    ensures Leads(s0, s1) && Leftover(s1, j, heartbeat) && s1.main.Idle? && s1.pass == NextPlace(s.pass)
  {
    s1 := ByWatch(s0, s, WatchdogEnds(false), j, heartbeat);
  }

  lemma FreeJoined(s0: State, s: State, j: nat, heartbeat: nat) returns (s1: State)
    requires Leads(s0, s) && Leftover(s, j, heartbeat) && s.main.WatchJoin? && CanJoin(s, s.main.k)
    requires s.pass.Watchdog? && s.pass.i != j
    ensures Leads(s0, s1) && Leftover(s1, j, heartbeat) && s1.main.WatchDone? && s1.pass == s.pass
  {
    s1 := ByWatch(s0, s, WatchdogJoined, j, heartbeat);
    s1 := ByWatch(s0, s1, WatchdogReads, j, heartbeat);
    s1 := ByWatch(s0, s1, WatchdogWrites, j, heartbeat);
  }

  /** ... or with the slot it has come to, ... */
  lemma PassSlot(s0: State, s: State, j: nat, heartbeat: nat) returns (s1: State)
    requires Leads(s0, s) && Leftover(s, j, heartbeat) && s.main.Idle? && s.pass.Watchdog? && s.pass.i != j
    ensures Leads(s0, s1) && Leftover(s1, j, heartbeat) && s1.main.Idle? && s1.pass == NextPlace(s.pass)
  {
    if Fires(s) {
      s1 := ByWatch(s0, s, WatchdogFires, j, heartbeat);
      s1 := CanComeBack(s0, s1, j, heartbeat);
      s1 := FreeJoined(s0, s1, j, heartbeat);
      s1 := FinishSlot(s0, s1, j, heartbeat);
    } else {
      s1 := ByWatch(s0, s, WatchdogPasses, j, heartbeat);
    }
  }

  /** ... and so comes to slot `j`. */
  lemma {:induction false} ComesTo(s0: State, s: State, j: nat, heartbeat: nat) returns (s1: State)
    requires Leads(s0, s) && Leftover(s, j, heartbeat) && s.main.Idle? && s.pass.Watchdog? && s.pass.i <= j
    ensures Leads(s0, s1) && Leftover(s1, j, heartbeat) && s1.main.Idle? && s1.pass == Watchdog(j, s.pass.now)
    decreases j - s.pass.i
  {
    if s.pass.i == j {
      s1 := s;
    } else {
      s1 := PassSlot(s0, s, j, heartbeat);
      s1 := ComesTo(s0, s1, j, heartbeat);
    }
  }

  /** There it judges the slot by its last heartbeat, and frees it. */
  lemma FreesStuck(s0: State, s: State, j: nat, heartbeat: nat) returns (s1: State)
    requires Leads(s0, s) && Leftover(s, j, heartbeat) && s.main.Idle? && s.pass.Watchdog? && s.pass.i == j
    requires Expired(s.pass.now, heartbeat)
    ensures Leads(s0, s1) && j in s1.free
  {
    var fires, joined := Monitor(WatchdogFires), Monitor(WatchdogJoined);
    LeadsOn(s0, s, fires);
    var s2 := Apply(s, fires);
    LeadsOn(s0, s2, joined);
    var s3 := Apply(s2, joined);
    LeadsOn(s0, s3, Monitor(WatchdogReads));
    s1 := DoMonitor(s3, WatchdogReads);
    LeadsOn(s0, s1, Monitor(WatchdogWrites));
    s1 := DoMonitor(s1, WatchdogWrites);
  }

  /** A slot after the one the watchdog is done with, whose last heartbeat it will find too old, can be free
      again. */
  lemma StillInReach(s: State, j: nat)
    requires WellSized(s) && j < MAX_SLOTS && Leftover(s, j, s.slots[j].heartbeat) && s.main.WatchDone? && s.pass.Watchdog? && s.pass.i < j
    requires Expired(s.pass.now, s.slots[j].heartbeat)
    ensures exists run :: CanRun(s, run) && j in Run(s, run).free
  {
    var hb := s.slots[j].heartbeat;
    assert CanRun(s, []) && Run(s, []) == s;
    var s1 := FinishSlot(s, s, j, hb);
    s1 := ComesTo(s, s1, j, hb);
    s1 := FreesStuck(s, s1, j, hb);
  }

  lemma WaitingIsLost(s: State, j: nat)
    requires WellSized(s) && j < MAX_SLOTS && Leftover(s, j, s.slots[j].heartbeat) && s.main.WatchDone? && s.main.k != j && OutOfReach(s, j)
    ensures Lost(s, j)
  {
  }

  /** A slot that loses its bit in the window of slot `k` is busy for ever, over every later run, if and only
      if it comes before `k` or the pass does not judge its last heartbeat too old; a worker that never
      beat has none. Otherwise the same pass comes to it and can free it. */
  lemma LossIsPermanentExactly(s: State, t: Tid)
    requires Reachable(s) && s.main.WatchWrite? && s.main.k < MAX_SLOTS && CanWork(s, t, Exit)
    requires s.workers[t].slot !in s.main.snapshot
    ensures s.pass.Watchdog? && s.pass.i == s.main.k
    ensures var j, s1 := s.workers[t].slot, AfterWindow(s, t);
      && j in s1.leaked
      && ((forall run | CanRun(s1, run) :: j !in Run(s1, run).free)
          <==> j < s.main.k || !Expired(s.pass.now, s.slots[j].heartbeat))
  {
    var j, s1 := s.workers[t].slot, AfterWindow(s, t);
    ReachableInv(s);
    AfterExitIs(s, t);
    AfterWriteIs(DoWork(s, t, Exit), j);
    if j < s.main.k || !Expired(s.pass.now, s.slots[j].heartbeat) {
      WaitingIsLost(s1, j);
      forall run | CanRun(s1, run) ensures j !in Run(s1, run).free { LostStaysLost(s1, run, j); }
    } else {
      StillInReach(s1, j);
    }
  }

  /** And it is for good once the check for lost connections has joined the worker. */
  lemma JoinedLossIsPermanent(s: State, run: seq<Step>)
    requires Inv(s) && InTime(s) && s.main.LostJoin? && s.main.k in s.leaked && CanMonitor(s, LostJoined)
    requires CanRun(DoMonitor(s, LostJoined), run)
    ensures s.main.k !in Run(DoMonitor(s, LostJoined), run).free
  {
    MonitorKeepsInv(s, LostJoined);
    StepInTime(s, Monitor(LostJoined));
    LostStaysLost(DoMonitor(s, LostJoined), run, s.main.k);
  }

  // ----- a healthy worker is stopped ------------------------------------------------------------

  /** Between the clock reading of a pass and its look at slot 0 the only worker passes its loop head; it has
      beaten this very microsecond, and the watchdog stops it. */
  lemma HealthyWorkerIsStopped() returns (s: State)
    ensures Reachable(s) && s.main.Idle? && s.pass.Watchdog? && Healthy(s, s.pass.i)
    ensures s.slots[s.pass.i].heartbeat == s.clock && CanMonitor(s, WatchdogFires)
  {
    var o := Origin(Blank(), true);
    AtStart(o);
    s := RegisterFresh(o, o.start, 0, 0, "a");
    s := ByWork(o, s, 0, SetUp(""));
    s := BeginPass(o, s, 0);
    Extend(o, s, Outside(Tick(1)));
    s := DoOutside(s, Tick(1));
    s := ByWork(o, s, 0, LoopTop);
    ReachedInv(o, s);
    HealthyIsStoppedExactly(s);
  }
}
