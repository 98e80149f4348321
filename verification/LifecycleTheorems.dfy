/** What the slot lifecycle guarantees over every run: one worker per slot, exits that stay in their
    own slot, no lost slots, joins that end, settings that survive registration, distinct paths. */
module LifecycleTheorems {
  import opened Records
  import opened SlotTable
  import opened EffectColours
  import opened Lifecycle
  import Keys = Keymap
  import opened LifecycleInvariant

  // ----- one worker per slot, and exits that stay in their own slot ---------------------------

  /** Two workers that have not finished never share a slot. */
  lemma OneWorkerPerSlot(s: State, t: Tid, u: Tid)
    requires Reachable(s) && Live(s, t) && Live(s, u) && s.workers[t].slot == s.workers[u].slot
    ensures t == u
  {
    ReachableInv(s);
  }

  /** When a worker runs its exit section, main has not yet handed its slot to anyone else, and the
      section changes no other slot, no other bit and no other worker. */
  lemma ExitStaysInItsSlot(s: State, t: Tid)
    requires Reachable(s) && CanWork(s, t, Exit)
    ensures var s1, k := DoWork(s, t, Exit), s.workers[t].slot;
      && (Claims(s.main) ==> s.main.k != k)
      && (forall u | Live(s, u) && u != t :: s.workers[u].slot != k && Live(s1, u))
      && (forall i | 0 <= i < MAX_SLOTS && i != k :: s1.slots[i] == s.slots[i] && (i in s1.free <==> i in s.free))
      && !s1.slots[k].connected && k in s1.free
  {
    ReachableInv(s);
  }

  // ----- the mutex ------------------------------------------------------------------------------

  /** Who takes a step; an unlocked write and the clock are nobody's that could hold the mutex. */
  function ActorOf(step: Step): Holder {
    match step
    case Register(_) => Main
    case Monitor(_) => Main
    case Work(t, _) => AWorker(t)
    case InBody(t, _) => AWorker(t)
    case Outside(o) =>
      if o.TakeSettingsLock? || o.SettingsSync? then SettingsThread
      else if o.TakeClientLock? || o.ClientWrite? then Client
      else Nobody
  }

  predicate TakesLock(step: Step) {
    || step == Register(TakeLock) || step == Register(TakeLockAgain) || step == Register(TakeUndoLock) || step == Monitor(TakeLookLock)
    || (step.Work? && (step.w.TakeCheckLock? || step.w.TakeExitLock?))
    || (step.InBody? && (step.a.TakeLayoutLock? || step.a.TakeChoreLock? || step.a.TakeRequestLock?))
    || (step.Outside? && (step.o.TakeSettingsLock? || step.o.TakeClientLock?))
  }

  /** The mutex after a step of `actor`: as before, taken, or given back. */
  predicate Turn(before: Holder, after: Holder, actor: Holder) {
    after == before || (before.Nobody? && after == actor) || (before == actor && after.Nobody?)
  }

  lemma RegisterExcludes(s: State, r: RegisterAction)
    requires WellSized(s) && Locking(s) && CanRegister(s, r)
    ensures Turn(s.mutex, DoRegister(s, r).mutex, Main)
    ensures TakesLock(Register(r)) ==> s.mutex.Nobody? && DoRegister(s, r).mutex.Main?
  {
  }

  lemma MonitorExcludes(s: State, m: MonitorAction)
    requires WellSized(s) && Locking(s) && CanMonitor(s, m)
    ensures Turn(s.mutex, DoMonitor(s, m).mutex, Main)
    ensures TakesLock(Monitor(m)) ==> s.mutex.Nobody? && DoMonitor(s, m).mutex.Main?
  {
  }

  lemma WorkExcludes(s: State, t: Tid, w: WorkerAction)
    requires WellSized(s) && Locking(s) && CanWork(s, t, w)
    ensures Turn(s.mutex, DoWork(s, t, w).mutex, AWorker(t))
    ensures TakesLock(Work(t, w)) ==> s.mutex.Nobody? && DoWork(s, t, w).mutex == AWorker(t)
  {
  }

  lemma BodyExcludes(s: State, t: Tid, a: BodyAction)
    requires WellSized(s) && Locking(s) && CanBody(s, t, a)
    ensures Turn(s.mutex, BodyMutex(s, t, a), AWorker(t))
    ensures TakesLock(InBody(t, a)) ==> s.mutex.Nobody? && BodyMutex(s, t, a) == AWorker(t)
  {
  }

  /** Only the holder of the mutex gives it back, only a free mutex is taken, and the one who takes it holds it. */
  lemma MutualExclusion(s: State, step: Step)
    requires Inv(s) && Enabled(s, step)
    ensures Turn(s.mutex, Apply(s, step).mutex, ActorOf(step))
    ensures TakesLock(step) ==> s.mutex.Nobody? && Apply(s, step).mutex == ActorOf(step)
  {
    match step
    case Register(r) => RegisterExcludes(s, r);
    case Monitor(m) => MonitorExcludes(s, m);
    case Work(t, w) => WorkExcludes(s, t, w);
    case InBody(t, a) => BodyExcludes(s, t, a);
    case Outside(_) =>
  }

  // ----- the bitmap -----------------------------------------------------------------------------

  /** Outside main's own critical section a connected slot is marked busy. */
  lemma ConnectedIsBusy(s: State, i: nat)
    requires Reachable(s) && i < MAX_SLOTS && s.slots[i].connected && !s.mutex.Main?
    ensures i !in s.free
  {
    ReachableInv(s);
  }

  /** A worker gives back, between the watchdog's unlocked read of the bitmap and its write, a slot that
      was read as busy. */
  predicate InWindow(s: State, step: Step) {
    && s.main.WatchWrite? && step.Work? && step.w.Exit?
    && step.t in s.workers && s.workers[step.t].slot !in s.main.snapshot
  }

  /** The schedules in which nobody's exit falls into the window, and in which the thread arguments can
      be allocated. */
  ghost predicate Calm(s: State, run: seq<Step>)
    requires CanRun(s, run)
    decreases |run|
  {
    run != [] ==>
      && run[0] != Register(MallocFails)
      && !InWindow(s, run[0])
      && Calm(Apply(s, run[0]), run[1..])
  }

  ghost predicate NothingLeaked(s: State) {
    s.leaked == {} && (s.main.WatchWrite? ==> s.main.snapshot == s.free)
  }

  lemma CalmRegister(s: State, r: RegisterAction)
    requires WellSized(s) && CanRegister(s, r) && NothingLeaked(s) && !r.MallocFails?
    ensures NothingLeaked(DoRegister(s, r))
  {
  }

  lemma CalmMonitor(s: State, m: MonitorAction)
    requires WellSized(s) && CanMonitor(s, m) && NothingLeaked(s)
    ensures NothingLeaked(DoMonitor(s, m))
  {
  }

  lemma CalmWork(s: State, t: Tid, w: WorkerAction)
    requires WellSized(s) && CanWork(s, t, w) && NothingLeaked(s) && !InWindow(s, Work(t, w))
    ensures NothingLeaked(DoWork(s, t, w))
  {
  }

  lemma CalmStepLeaksNothing(s: State, step: Step)
    requires WellSized(s) && Enabled(s, step) && NothingLeaked(s)
    requires step != Register(MallocFails) && !InWindow(s, step)
    ensures NothingLeaked(Apply(s, step))
  {
    match step
    case Register(r) => CalmRegister(s, r);
    case Monitor(m) => CalmMonitor(s, m);
    case Work(t, w) => CalmWork(s, t, w);
    case InBody(t, a) => BodyIsLocal(s, t, a);
    case Outside(_) =>
  }

  lemma {:induction false} CalmRunLeaksNothing(s: State, run: seq<Step>)
    requires Inv(s) && CanRun(s, run) && Calm(s, run) && NothingLeaked(s)
    ensures NothingLeaked(Run(s, run))
    decreases |run|
  {
    if run != [] {
      StepKeepsInv(s, run[0]);
      CalmStepLeaksNothing(s, run[0]);
      CalmRunLeaksNothing(Apply(s, run[0]), run[1..]);
    }
  }

  /** No slot is lost over a calm run: a busy slot has a worker on its way or is being registered. */
  lemma NoSlotIsLost(s: State, run: seq<Step>, i: nat)
    requires Init(s) && CanRun(s, run) && Calm(s, run) && i < MAX_SLOTS && i !in Run(s, run).free
    ensures HasWorker(Run(s, run), i) || Registering(Run(s, run).main, i)
  {
    InitInv(s);
    RunKeepsInv(s, run);
    CalmRunLeaksNothing(s, run);
  }

  /** The other direction: an exit inside the watchdog's window loses the slot exactly when the
      watchdog had read it as busy. The bit stays cleared, with no worker left to set it. */
  lemma ExitInWindowLosesSlot(s: State, t: Tid)
    requires Reachable(s) && s.main.WatchWrite? && CanWork(s, t, Exit)
    ensures var j, s1 := s.workers[t].slot, DoWork(s, t, Exit);
      && CanMonitor(s1, WatchdogWrites)
      && var s2 := DoMonitor(s1, WatchdogWrites);
         && (j in s2.leaked <==> j !in s.main.snapshot)
         && (j in s2.free <==> j in s.main.snapshot)
         && !HasWorker(s2, j) && s2.main == WatchDone(s.main.k) && s.main.k != j
  {
    ReachableInv(s);
    WorkServes(s, t, Exit);
  }

  // ----- the watchdog -----------------------------------------------------------------------------

  /** A worker stopped by the watchdog had reached its loop, so it cleared its device path on the way
      out: the branch that recreates it is never taken. */
  lemma WatchdogNeverRecreates(s: State, accessible: bool)
    requires Reachable(s) && CanMonitor(s, WatchdogEnds(accessible))
    ensures DoMonitor(s, WatchdogEnds(accessible)).main.Idle?
  {
    ReachableInv(s);
  }

  // ----- joins ------------------------------------------------------------------------------------

  ghost predicate Joining(s: State) {
    Inv(s) && MainJoins(s.main)
  }

  ghost function Awaited(s: State): Tid
    requires Joining(s)
  {
    s.threads[s.main.k].value
  }

  /** The main thread never waits for a worker while it holds the mutex, and the worker it waits for
      was either told to stop or has lost its connection. */
  lemma JoinsAreSafe(s: State)
    requires Reachable(s) && MainJoins(s.main)
    ensures Joining(s) && !s.mutex.Main?
    ensures Awaited(s) in s.workers && s.workers[Awaited(s)].slot == s.main.k
    ensures if s.main.WatchJoin? then s.slots[s.main.k].workerStop else !s.slots[s.main.k].connected
  {
    ReachableInv(s);
  }

  const FrameLeft: nat := 2 * TRAFFIC_CHORES + 5

  const EffectsLeft: nat := FrameLeft + 7 * MAX_SLOTS

  function ChoresLeft(left: Chores): nat {
    match left
    case BeforeEffects(d) => 2 * d + 1 + EffectsLeft
    case BeforeLoop(n) => 2 * n + 1
  }

  function ChannelsLeft(channel: Channel): nat {
    match channel
    case Red => 3
    case Green => 2
    case Blue => 1
  }

  /** How many of its own steps a worker is from the end of its loop body, at most. */
  function BodyLeft(task: Task): nat {
    match task
    case Paint(_, _, _, channel) => 2 * TRAFFIC_CHORES + 1 + ChannelsLeft(channel)
    case Frame => FrameLeft
    case Look(i) => FrameLeft + 7 * (MAX_SLOTS - i)
    case AwaitRequest(i) => FrameLeft - 1 + 7 * (MAX_SLOTS - i)
    case InRequest(i) => FrameLeft - 2 + 7 * (MAX_SLOTS - i)
    case Start(i, _, _) => FrameLeft - 3 + 7 * (MAX_SLOTS - i)
    case Colour(i, _, _, _, channel) => FrameLeft - 7 + 7 * (MAX_SLOTS - i) + ChannelsLeft(channel)
    case AwaitChore(left) => ChoresLeft(left)
    case InChore(left) => ChoresLeft(left) + 1
    case InLayout => EffectsLeft + 2 * DEVICE_CHORES + 2
    case AwaitLayout => EffectsLeft + 2 * DEVICE_CHORES + 3
  }

  /** How many of its own steps a worker is from its end, once stopped or once disconnected. A worker
      told to stop may have passed that test already and go through its whole body first. */
  function StepsLeft(pc: WorkerPc, stopped: bool): nat {
    match pc
    case Finished => 0
    case FailingLocked => 1
    case LeavingLocked => 1
    case Failing => 2
    case Leaving => 2
    case Polling => if stopped then 3 else 5
    case Body(task) => BodyLeft(task) + if stopped then 3 else 5
    case CheckingLocked => if stopped then BodyLeft(AwaitLayout) + 4 else 3
    case Checking => if stopped then BodyLeft(AwaitLayout) + 5 else 4
    case Starting => 6
  }

  ghost function JoinRank(s: State): nat
    requires Joining(s)
  {
    StepsLeft(s.workers[Awaited(s)].pc, s.main.WatchJoin?)
  }

  predicate IsStepOf(step: Step, t: Tid) {
    (step.Work? || step.InBody?) && step.t == t
  }

  predicate IsJoin(step: Step) {
    step == Register(ReusedJoined) || step == Monitor(WatchdogJoined) || step == Monitor(LostJoined)
  }

  /** While main joins it can do nothing else. */
  lemma MainOnlyJoins(s: State, step: Step)
    requires WellSized(s) && MainJoins(s.main) && Enabled(s, step) && (step.Register? || step.Monitor?)
    ensures IsJoin(step)
  {
  }

  lemma WorkKeepsMain(s: State, t: Tid, w: WorkerAction)
    requires WellSized(s) && CanWork(s, t, w)
    ensures DoWork(s, t, w).main == s.main && DoWork(s, t, w).threads == s.threads
  {
  }

  lemma JoinGoesOn(s: State, step: Step)
    requires WellSized(s) && MainJoins(s.main) && Enabled(s, step) && !IsJoin(step)
    ensures Apply(s, step).main == s.main && Apply(s, step).threads == s.threads
  {
    match step
    case Register(_) => MainOnlyJoins(s, step);
    case Monitor(_) => MainOnlyJoins(s, step);
    case Work(t, w) => WorkKeepsMain(s, t, w);
    case InBody(_, _) =>
    case Outside(_) =>
  }

  /** Nothing the other threads do can put the awaited worker further from its end, and each of its
      own steps brings it nearer. */
  lemma JoinRankDecreases(s: State, step: Step)
    requires Joining(s) && Enabled(s, step) && !IsJoin(step)
    ensures Joining(Apply(s, step)) && Apply(s, step).main == s.main && Awaited(Apply(s, step)) == Awaited(s)
    ensures var before, after := JoinRank(s), JoinRank(Apply(s, step));
      if IsStepOf(step, Awaited(s)) then after < before else after == before
  {
    StepKeepsInv(s, step);
    JoinGoesOn(s, step);
    if step.Work? {
      JoinFacts(s);
      WorkNearsEnd(s, step.t, step.w, Awaited(s), s.main.k, s.main.WatchJoin?);
    } else if step.InBody? {
      BodyNearsEnd(s, step.t, step.a, Awaited(s), s.main.WatchJoin?);
    }
  }

  lemma JoinFacts(s: State)
    requires Joining(s)
    ensures s.main.k < MAX_SLOTS && Awaited(s) in s.workers && s.workers[Awaited(s)].slot == s.main.k
    ensures if s.main.WatchJoin? then s.slots[s.main.k].workerStop else !s.slots[s.main.k].connected
  {
  }

  /** A step of worker `t`, seen from worker `a` of slot `k` which was stopped or disconnected. */
  lemma WorkNearsEnd(s: State, t: Tid, w: WorkerAction, a: Tid, k: nat, stopped: bool)
    requires WellSized(s) && CanWork(s, t, w) && a in s.workers && s.workers[a].slot == k < MAX_SLOTS
    requires if stopped then s.slots[k].workerStop else !s.slots[k].connected
    ensures var s1 := DoWork(s, t, w);
      && a in s1.workers
      && var pc, pc1 := s.workers[a].pc, s1.workers[a].pc;
         if t == a then StepsLeft(pc1, stopped) < StepsLeft(pc, stopped) else pc1 == pc
  {
  }

  lemma BodyNearsEnd(s: State, t: Tid, a: BodyAction, u: Tid, stopped: bool)
    requires WellSized(s) && CanBody(s, t, a) && u in s.workers
    ensures var s1 := DoBody(s, t, a);
      && u in s1.workers
      && var pc, pc1 := s.workers[u].pc, s1.workers[u].pc;
         if t == u then StepsLeft(pc1, stopped) < StepsLeft(pc, stopped) else pc1 == pc
  {
    BodyIsLocal(s, t, a);
    if t == u { BodyGoesOn(s, t, a); }
  }

  lemma BodyGoesOn(s: State, t: Tid, a: BodyAction)
    requires WellSized(s) && CanBody(s, t, a)
    ensures var pc1 := BodyPc(s, t, a);
      if pc1.Body? then BodyLeft(pc1.task) < BodyLeft(s.workers[t].pc.task) else pc1.Polling?
    ensures DoBody(s, t, a).workers[t].pc == BodyPc(s, t, a)
  {
  }

  function Own(step: Step, t: Tid): nat {
    if IsStepOf(step, t) then 1 else 0
  }

  function StepsOf(run: seq<Step>, t: Tid): nat {
    if run == [] then 0 else Own(run[0], t) + StepsOf(run[1..], t)
  }

  lemma OneStepNearer(s: State, step: Step, t: Tid)
    requires Joining(s) && Awaited(s) == t && Enabled(s, step) && !IsJoin(step)
    ensures Joining(Apply(s, step)) && Awaited(Apply(s, step)) == t
    ensures Own(step, t) + JoinRank(Apply(s, step)) <= JoinRank(s)
  {
    JoinRankDecreases(s, step);
  }

  lemma RankBound(s: State)
    requires Joining(s)
    ensures JoinRank(s) <= 573
  {
  }

  /** However the threads interleave, the awaited worker takes at most 573 more steps before the join can
      return. Taking the mutex is a step, and so is giving it back; every critical section of its loop body
      counts, the 256 that one buffer of events can ask for as well. */
  lemma {:induction false} JoinEnds(s: State, run: seq<Step>, t: Tid)
    requires Joining(s) && Awaited(s) == t && CanRun(s, run) && forall step | step in run :: !IsJoin(step)
    ensures Joining(Run(s, run)) && Awaited(Run(s, run)) == t
    ensures StepsOf(run, t) + JoinRank(Run(s, run)) <= JoinRank(s) <= 573
    decreases |run|
  {
    RankBound(s);
    if run != [] {
      OneStepNearer(s, run[0], t);
      JoinEnds(Apply(s, run[0]), run[1..], t);
    }
  }

  /** The holder of the mutex can give it back. */
  function Release(s: State): Step
    requires Inv(s) && !s.mutex.Nobody? && !s.mutex.Main?
    ensures Enabled(s, Release(s))
  {
    match s.mutex
    case AWorker(t) =>
      var pc := s.workers[t].pc;
      if pc.CheckingLocked? then Work(t, CheckConnected)
      else if pc == Body(InLayout) then InBody(t, ServeLayout(false, false, false))
      else if pc.Body? && pc.task.InChore? then InBody(t, DoChore)
      else if pc.Body? then InBody(t, ReadRequest)
      else Work(t, Exit)
    case SettingsThread => Outside(SettingsSync)
    case Client => Outside(ClientWrite(0, s.slots[0].settings))
  }

  /** Only the places that wait for the mutex can be stuck. */
  lemma BodyCanGoOn(s: State, t: Tid)
    requires WellSized(s) && InTask(s, t)
    requires var task := s.workers[t].pc.task; task.AwaitLayout? || task.AwaitRequest? ==> s.mutex.Nobody?
    ensures exists step :: Enabled(s, step) && IsStepOf(step, t)
  {
    var task := s.workers[t].pc.task;
    var a := match task
      case AwaitLayout => TakeLayoutLock
      case InLayout => ServeLayout(false, false, false)
      case AwaitChore(_) => EndChores
      case InChore(_) => DoChore
      case Look(i) => if s.slots[i].connected then SeeSlot else PassSlot
      case AwaitRequest(_) => TakeRequestLock
      case InRequest(_) => ReadRequest
      case Start(_, _, _) => StartEffect
      case Colour(_, _, _, _, _) => StoreColour
      case Frame => NoFrame
      case Paint(_, _, _, _) => StorePaint;
    assert Enabled(s, InBody(t, a));
  }

  /** A join never deadlocks: at every moment the join itself can return, or the awaited worker can
      step, or it waits for a mutex whose holder can release it. */
  lemma JoinNeverDeadlocks(s: State)
    requires Joining(s)
    ensures exists step :: Enabled(s, step) &&
              (IsJoin(step) || IsStepOf(step, Awaited(s)) || (!s.mutex.Nobody? && !s.mutex.Main? && step == Release(s)))
  {
    var t := Awaited(s);
    var pc := s.workers[t].pc;
    if pc.Finished? {
      var join := if s.main.RegJoin? then Register(ReusedJoined)
                  else if s.main.WatchJoin? then Monitor(WatchdogJoined) else Monitor(LostJoined);
      assert Enabled(s, join);
    } else if pc.Body? {
      if s.mutex.Nobody? || WorkerHolds(pc) || (!pc.task.AwaitLayout? && !pc.task.AwaitRequest?) {
        BodyCanGoOn(s, t);
      } else {
        assert Enabled(s, Release(s));
      }
    } else {
      var w := if pc.Starting? then SetUpFails
               else if pc.Polling? then LoopBreaks
               else if pc.Checking? then TakeCheckLock
               else if pc.CheckingLocked? then CheckConnected
               else if pc.Failing? || pc.Leaving? then TakeExitLock
               else Exit;
      if s.mutex.Nobody? || WorkerHolds(pc) || pc.Starting? || pc.Polling? {
        assert Enabled(s, Work(t, w));
      } else {
        assert Enabled(s, Release(s));
      }
    }
  }

  // ----- rounds of main's loop ------------------------------------------------------------------

  /** How many steps main is into its work on the slot its loop has come to. */
  function Into(m: MainPc): nat {
    match m
    case WatchJoin(_) => 1
    case WatchRead(_) => 2
    case WatchWrite(_, _) => 3
    case WatchDone(_) => 4
    case LostLock(_) => 1
    case LostCheck(_) => 2
    case LostJoin(_) => 3
    case _ => 0
  }

  /** How many of its own steps main is from the end of the round, at most. */
  function RoundLeft(s: State): int {
    match s.pass
    case AtPoll => 0
    case Watchdog(i, _) => 5 * (MAX_SLOTS - i) + 4 * MAX_SLOTS - Into(s.main)
    case Looking(i) => 4 * (MAX_SLOTS - i) - Into(s.main)
  }

  lemma WatchShortens(s: State, m: MonitorAction)
    requires WellSized(s) && InTime(s) && MainPlace(s) && CanMonitor(s, m) && IsWatch(m) && !m.StartPass?
    ensures 0 <= RoundLeft(DoMonitor(s, m)) < RoundLeft(s) <= 36
  {
  }

  lemma LookShortens(s: State, m: MonitorAction)
    requires WellSized(s) && InTime(s) && CanMonitor(s, m) && !IsWatch(m)
    ensures 0 <= RoundLeft(DoMonitor(s, m)) < RoundLeft(s) <= 36
  {
  }

  /** A round begins with a reading of the clock at the first slot; every other step of the watchdog or of the check for
      lost connections brings it nearer to its end, which is at most 36 steps away. */
  lemma RoundEnds(s: State, m: MonitorAction)
    requires Inv(s) && InTime(s) && CanMonitor(s, m)
    ensures var s1 := DoMonitor(s, m);
      if m.StartPass? then s.pass.AtPoll? && s1.pass == Watchdog(0, s.clock) && RoundLeft(s1) == 36
      else 0 <= RoundLeft(s1) < RoundLeft(s) <= 36
  {
    if !IsWatch(m) {
      LookShortens(s, m);
    } else if !m.StartPass? {
      WatchShortens(s, m);
    }
  }

  /** Main can always go on with a round when it is not waiting for a worker or for the mutex. */
  lemma RoundGoesOn(s: State)
    requires Inv(s) && InTime(s) && !s.pass.AtPoll? && !MainJoins(s.main) && (s.main.LostLock? ==> s.mutex.Nobody?)
    ensures exists m :: CanMonitor(s, m)
  {
    var m := if s.main.Idle? then
               if s.pass.Watchdog? then (if Fires(s) then WatchdogFires else WatchdogPasses)
               else if s.threads[s.pass.i].Some? then LookAt else LookPasses
             else if s.main.WatchRead? then WatchdogReads
             else if s.main.WatchWrite? then WatchdogWrites
             else if s.main.WatchDone? then WatchdogEnds(false)
             else if s.main.LostLock? then TakeLookLock
             else LookAtConnected;
    assert CanMonitor(s, m);
  }

  // ----- persistent settings ------------------------------------------------------------------------

  /** The configuration of slot `i` as anyone entitled to look sees it: inside main's registration
      section it is the saved copy, otherwise what is in the slot. */
  function Visible(s: State, i: nat): SlotConfig
    requires i < |s.slots|
  {
    if (s.main.RegZero? || s.main.RegFill? || s.main.RegRestore?) && s.main.k == i then s.main.saved
    else Save(s.slots[i].settings)
  }

  lemma ScanKeepsSettings(s: State, access: seq<bool>, i: nat)
    requires WellSized(s) && Locking(s) && CanRegister(s, ScanSlots(access)) && i < MAX_SLOTS
    ensures var t := DoRegister(s, ScanSlots(access)); |t.slots| == MAX_SLOTS && Visible(t, i) == Visible(s, i)
  {
    ScanChanges(s, access);
  }

  lemma RestoreKeepsSettings(s: State, i: nat)
    requires WellSized(s) && MainPlace(s) && CanRegister(s, RestoreSlot) && i < MAX_SLOTS
    ensures var t := DoRegister(s, RestoreSlot); |t.slots| == MAX_SLOTS && Visible(t, i) == Visible(s, i)
  {
    SaveRestore(s.main.saved);
  }

  lemma RegisterKeepsSettings(s: State, r: RegisterAction, i: nat)
    requires WellSized(s) && MainPlace(s) && Locking(s) && CanRegister(s, r) && i < MAX_SLOTS
    ensures |DoRegister(s, r).slots| == MAX_SLOTS && Visible(DoRegister(s, r), i) == Visible(s, i)
  {
    if r.RestoreSlot? {
      RestoreKeepsSettings(s, i);
    } else if r.ScanSlots? {
      ScanKeepsSettings(s, r.access, i);
    }
  }

  lemma MonitorKeepsSettings(s: State, m: MonitorAction, i: nat)
    requires WellSized(s) && CanMonitor(s, m) && i < MAX_SLOTS
    ensures |DoMonitor(s, m).slots| == MAX_SLOTS && Visible(DoMonitor(s, m), i) == Visible(s, i)
  {
  }

  lemma WorkKeepsSettings(s: State, t: Tid, w: WorkerAction, i: nat)
    requires WellSized(s) && CanWork(s, t, w) && i < MAX_SLOTS
    ensures |DoWork(s, t, w).slots| == MAX_SLOTS && Visible(DoWork(s, t, w), i) == Visible(s, i)
  {
  }

  /** No step of main, and none of a worker outside its loop body, changes any slot's configuration; in
      particular the zeroed slot is never the visible one. */
  lemma ThreadsKeepSettings(s: State, step: Step, i: nat)
    requires Inv(s) && Enabled(s, step) && !step.Outside? && !step.InBody? && i < MAX_SLOTS
    ensures |Apply(s, step).slots| == MAX_SLOTS && Visible(Apply(s, step), i) == Visible(s, i)
  {
    match step
    case Register(r) => RegisterKeepsSettings(s, r, i);
    case Monitor(m) => MonitorKeepsSettings(s, m, i);
    case Work(t, w) => WorkKeepsSettings(s, t, w, i);
    case _ =>
  }

  /** The settings thread reads exactly the visible configuration, because it cannot hold the mutex
      while main is inside its section. */
  lemma SyncReadsVisible(s: State, i: nat)
    requires Inv(s) && s.mutex.SettingsThread? && i < MAX_SLOTS
    ensures DoOutside(s, SettingsSync).active[i] == Visible(s, i)
  {
  }

  /** Main has saved the configuration of slot `i` and not yet restored it. */
  predicate Hidden(m: MainPc, i: nat) {
    (m.RegZero? || m.RegFill? || m.RegRestore?) && m.k == i
  }

  /** The settings a step stores in a slot: a client's, a layout's, or those of an LED request or frame. */
  function StoredBy(s: State, step: Step): Option<Store>
    requires WellSized(s) && Enabled(s, step)
  {
    match step
    case InBody(t, a) => BodyStore(s, t, a)
    case Outside(ClientWrite(i, settings)) => Some(Store(i, settings))
    case Outside(UnlockedWrite(i, settings)) => Some(Store(i, settings))
    case _ => None
  }

  lemma BodyStoreIsVisible(s: State, t: Tid, a: BodyAction, i: nat)
    requires WellSized(s) && CanBody(s, t, a) && i < MAX_SLOTS
    ensures var store := BodyStore(s, t, a);
      Visible(DoBody(s, t, a), i) ==
      if store.Some? && store.value.slot == i && !Hidden(s.main, i) then Save(store.value.settings) else Visible(s, i)
  {
  }

  lemma OutsideStoreIsVisible(s: State, o: OutsideAction, i: nat)
    requires WellSized(s) && CanOutside(s, o) && i < MAX_SLOTS
    ensures |DoOutside(s, o).slots| == MAX_SLOTS
    ensures var store := StoredBy(s, Outside(o));
      Visible(DoOutside(s, o), i) ==
      if store.Some? && store.value.slot == i && !Hidden(s.main, i) then Save(store.value.settings) else Visible(s, i)
  {
  }

  lemma StoreIsVisible(s: State, step: Step, i: nat)
    requires Inv(s) && Enabled(s, step) && i < MAX_SLOTS
    ensures |Apply(s, step).slots| == MAX_SLOTS
    ensures var store := StoredBy(s, step);
      Visible(Apply(s, step), i) ==
      if store.Some? && store.value.slot == i && !Hidden(s.main, i) then Save(store.value.settings) else Visible(s, i)
  {
    match step
    case InBody(t, a) => BodyStoreIsVisible(s, t, a, i);
    case Outside(o) => OutsideStoreIsVisible(s, o, i);
    case _ => ThreadsKeepSettings(s, step, i);
  }

  /** The step stores a different configuration in a slot that is not between its save and its restore. */
  predicate Alters(s: State, step: Step)
    requires WellSized(s) && Enabled(s, step)
  {
    var store := StoredBy(s, step);
    && store.Some? && !Hidden(s.main, store.value.slot)
    && Save(store.value.settings) != Save(s.slots[store.value.slot].settings)
  }

  /** A step changes the visible configuration of a slot if and only if it is a store of a client, of the
      LED effects or of a layout request into that slot, of a different configuration, and does not land
      between the slot's save and its restore. */
  lemma VisibleChangesExactly(s: State, step: Step, i: nat)
    requires Inv(s) && Enabled(s, step) && i < MAX_SLOTS
    ensures |Apply(s, step).slots| == MAX_SLOTS
    ensures Visible(Apply(s, step), i) != Visible(s, i) <==> Alters(s, step) && StoredBy(s, step).value.slot == i
  {
    StoreIsVisible(s, step, i);
  }

  /** In particular a client's write without the mutex is lost exactly there. */
  lemma WriteIsVisibleUnlessRegistering(s: State, i: nat, settings: Settings)
    requires Inv(s) && i < MAX_SLOTS
    ensures var write := Outside(UnlockedWrite(i, settings));
      Enabled(s, write) && |Apply(s, write).slots| == MAX_SLOTS
      && Visible(Apply(s, write), i) == if Hidden(s.main, i) then Visible(s, i) else Save(settings)
  {
    OutsideStoreIsVisible(s, UnlockedWrite(i, settings), i);
  }

  /** Layout requests found together: the reset wins over the Xbox layout, that over the Switch layout, and none
      changes anything but the keymap. */
  lemma LastLayoutWins(s: State, t: Tid, toSwitch: bool, toXbox: bool, reset: bool)
    requires WellSized(s) && CanBody(s, t, ServeLayout(toSwitch, toXbox, reset))
    ensures var k := s.workers[t].slot;
      var c, c1 := s.slots[k].settings, DoBody(s, t, ServeLayout(toSwitch, toXbox, reset)).slots[k].settings;
      && c1 == c.(keymap := c1.keymap)
      && c1.keymap == (if reset then Keys.IdentityKeymap()
                       else if toXbox then Keys.XboxLayout(c.keymap)
                       else if toSwitch then Keys.SwitchLayout(c.keymap)
                       else c.keymap)
  {
    if toSwitch && toXbox { Keys.LayoutsAreAbsolute(s.slots[s.workers[t].slot].settings.keymap); }
  }

  /** Starting an effect: the static one sets the mode and stops the effect, another known one runs from black at
      its brightness, 80 percent if that is out of range, and an unknown one is ignored. */
  lemma EffectStarts(s: State, t: Tid)
    requires WellSized(s) && CanBody(s, t, StartEffect)
    ensures var task, s1 := s.workers[t].pc.task, DoBody(s, t, StartEffect);
      var i, c, c1, led1 := task.i, s.slots[task.i].settings, s1.slots[task.i].settings, s1.leds[task.i];
      && (task.effect == 0 ==> c1 == c.(ledStatic := true) && !led1.active)
      && (1 <= task.effect <= 8 ==>
            && c1 == c.(ledStatic := false) && led1.active && led1.effect == task.effect && led1.last == (0, 0, 0)
            && led1.brightness == if 1 <= task.brightness <= 100 then task.brightness else 80)
      && (task.effect < 0 || task.effect > 8 ==> c1 == c && led1 == s.leds[i])
  {
  }

  /** What its worker stores next: the base colour for the static effect, black for the two that follow the player,
      nothing for the others. */
  lemma EffectStores(s: State, t: Tid)
    requires WellSized(s) && CanBody(s, t, StartEffect)
    ensures var task, pc := s.workers[t].pc.task, DoBody(s, t, StartEffect).workers[t].pc;
      var c := s.slots[task.i].settings;
      pc == Body(if task.effect == 0 then Colour(task.i, c.ledBaseR, c.ledBaseG, c.ledBaseB, Red)
                 else if task.effect == 7 || task.effect == 8 then Colour(task.i, 0, 0, 0, Red)
                 else if task.i < 3 then Look(task.i + 1) else Frame)
  {
  }

  /** A frame is stored only for a connected slot in effect mode whose effect runs, and only in another colour than
      the last one. */
  lemma FrameNeeds(s: State, t: Tid, look: Look)
    requires WellSized(s) && CanBody(s, t, NewFrame(look))
    ensures var k := s.workers[t].slot;
      && s.slots[k].connected && !s.slots[k].settings.ledStatic && s.leds[k].active && Possible(s.leds[k].effect, look)
      && var c := s.slots[k].settings;
         FrameShade((c.ledBaseR, c.ledBaseG, c.ledBaseB), s.leds[k].brightness, look) != s.leds[k].last
  {
  }

  /** Setting up a worker gives a Switch Pro the path of its event device and leaves every other slot alone. */
  lemma SetUpPaths(s: State, t: Tid, eventPath: string, i: nat)
    requires WellSized(s) && CanWork(s, t, SetUp(eventPath)) && i < MAX_SLOTS
    ensures DoWork(s, t, SetUp(eventPath)).slots[i] ==
            if i == s.workers[t].slot && s.slots[i].kind.NswPro? then s.slots[i].(path := eventPath) else s.slots[i]
  {
  }

  // ----- dirtying the profile -------------------------------------------------------------------

  predicate IsClientWrite(step: Step) {
    step.Outside? && (step.o.ClientWrite? || step.o.UnlockedWrite?)
  }

  /** The active profile is what the slots show. */
  predicate InStep(s: State) {
    |s.slots| == MAX_SLOTS && |s.active| == MAX_SLOTS && forall i | 0 <= i < MAX_SLOTS :: s.active[i] == Visible(s, i)
  }

  /** A sync brings the profile in step; it marks it dirty if and only if it was not. */
  lemma SyncDirtiesExactly(s: State)
    requires Inv(s) && s.mutex.SettingsThread?
    ensures var s1 := DoOutside(s, SettingsSync); InStep(s1) && (s1.dirty <==> s.dirty || !InStep(s))
  {
    var s1 := DoOutside(s, SettingsSync);
    forall i | 0 <= i < MAX_SLOTS ensures s1.active[i] == Visible(s, i) { SyncReadsVisible(s, i); }
    if InStep(s) { assert s1.active == s.active; }
  }

  lemma RegisterKeepsProfile(s: State, r: RegisterAction)
    requires WellSized(s) && CanRegister(s, r)
    ensures var s1 := DoRegister(s, r); s1.active == s.active && s1.dirty == s.dirty
  {
  }

  lemma MonitorKeepsProfile(s: State, m: MonitorAction)
    requires WellSized(s) && CanMonitor(s, m)
    ensures var s1 := DoMonitor(s, m); s1.active == s.active && s1.dirty == s.dirty
  {
  }

  lemma WorkKeepsProfile(s: State, t: Tid, w: WorkerAction)
    requires WellSized(s) && CanWork(s, t, w)
    ensures var s1 := DoWork(s, t, w); s1.active == s.active && s1.dirty == s.dirty
  {
  }

  predicate IsSync(step: Step) {
    step == Outside(SettingsSync)
  }

  lemma StepKeepsProfile(s: State, step: Step)
    requires WellSized(s) && Enabled(s, step) && !IsSync(step)
    ensures Apply(s, step).active == s.active && Apply(s, step).dirty == s.dirty
  {
    match step
    case Register(r) => RegisterKeepsProfile(s, r);
    case Monitor(m) => MonitorKeepsProfile(s, m);
    case Work(t, w) => WorkKeepsProfile(s, t, w);
    case InBody(_, _) =>
    case Outside(_) =>
  }

  lemma {:induction false} RunKeepsProfile(s: State, run: seq<Step>)
    requires WellSized(s) && CanRun(s, run) && forall step | step in run :: !IsSync(step)
    ensures Run(s, run).active == s.active && Run(s, run).dirty == s.dirty
    decreases |run|
  {
    if run != [] {
      StepKeepsProfile(s, run[0]);
      RunKeepsProfile(Apply(s, run[0]), run[1..]);
    }
  }

  /** From a profile in step, the next sync marks it dirty if and only if what some slot shows has
      changed since. */
  lemma NextSyncDirtiesExactly(s: State, run: seq<Step>)
    requires Inv(s) && InStep(s) && CanRun(s, run) && forall step | step in run :: !IsSync(step)
    requires Run(s, run).mutex.SettingsThread?
    ensures DoOutside(Run(s, run), SettingsSync).dirty <==>
            s.dirty || exists i :: 0 <= i < MAX_SLOTS && Visible(Run(s, run), i) != Visible(s, i)
  {
    RunKeepsInv(s, run);
    RunKeepsProfile(s, run);
    SyncDirtiesExactly(Run(s, run));
  }

  /** No step of the run alters what a slot shows. */
  predicate Unaltered(s: State, run: seq<Step>)
    requires CanRun(s, run)
    decreases |run|
  {
    run != [] ==> !Alters(s, run[0]) && Unaltered(Apply(s, run[0]), run[1..])
  }

  lemma SyncInStep(s: State)
    requires Inv(s) && s.mutex.SettingsThread? && InStep(s)
    ensures var s1 := DoOutside(s, SettingsSync); InStep(s1) && s1.active == s.active && s1.dirty == s.dirty
  {
    SyncDirtiesExactly(s);
    var s1 := DoOutside(s, SettingsSync);
    forall i | 0 <= i < MAX_SLOTS ensures s1.active[i] == Visible(s, i) { SyncReadsVisible(s, i); }
    assert s1.active == s.active;
  }

  lemma UnalteredKeepsSlot(s: State, step: Step, i: nat)
    requires Inv(s) && Enabled(s, step) && !Alters(s, step) && i < MAX_SLOTS
    ensures |Apply(s, step).slots| == MAX_SLOTS && Visible(Apply(s, step), i) == Visible(s, i)
  {
    VisibleChangesExactly(s, step, i);
  }

  lemma StepNeverDirties(s: State, step: Step)
    requires Inv(s) && Enabled(s, step) && InStep(s) && !Alters(s, step)
    ensures var s1 := Apply(s, step); InStep(s1) && s1.active == s.active && s1.dirty == s.dirty
  {
    if IsSync(step) {
      SyncInStep(s);
    } else {
      StepKeepsProfile(s, step);
      UnalteredKeepsSlot(s, step, 0);
      UnalteredKeepsSlot(s, step, 1);
      UnalteredKeepsSlot(s, step, 2);
      UnalteredKeepsSlot(s, step, 3);
    }
  }

  /** Hence registering, losing and monitoring devices never dirties the profile by itself: over every run
      in which no client, LED or layout store alters a slot, a profile in step stays so, and stays clean
      if it was. */
  lemma {:induction false} UnalteredNeverDirties(s: State, run: seq<Step>)
    requires Inv(s) && CanRun(s, run) && InStep(s) && Unaltered(s, run)
    ensures InStep(Run(s, run)) && Run(s, run).active == s.active && Run(s, run).dirty == s.dirty
    decreases |run|
  {
    if run != [] {
      StepKeepsInv(s, run[0]);
      StepNeverDirties(s, run[0]);
      UnalteredNeverDirties(Apply(s, run[0]), run[1..]);
    }
  }

  /** The section's five steps together are the `Register` of the slot table. */
  lemma SectionIsRegister(s: State)
    requires Inv(s) && s.main.RegSave?
    ensures var s1 := DoRegister(s, SaveSlot);
      var s2 := DoRegister(s1, ZeroTheSlot);
      var s3 := DoRegister(s2, FillSlot);
      var s4 := DoRegister(s3, RestoreSlot);
      DoRegister(s4, PublishSlot) == s.(
        slots := s.slots[s.main.k := Registered(s.slots[s.main.k], s.main.path, s.main.kind)],
        free := s.free - {s.main.k}, mutex := Nobody, main := RegSpawn(s.main.k))
  {
    var s5 := DoRegister(DoRegister(DoRegister(DoRegister(DoRegister(
      s, SaveSlot), ZeroTheSlot), FillSlot), RestoreSlot), PublishSlot);
    assert s5.slots == s.slots[s.main.k := Registered(s.slots[s.main.k], s.main.path, s.main.kind)];
  }

  /** When no thread can be created, main gives the slot back: disconnected, free, and with no thread to join. */
  lemma FailedSpawnGivesBack(s: State)
    requires Inv(s) && s.main.RegSpawn? && s.mutex.Nobody?
    ensures CanRegister(s, SpawnFails)
    ensures var k, s1 := s.main.k, DoRegister(s, SpawnFails);
      && CanRegister(s1, TakeUndoLock)
      && var s2 := DoRegister(s1, TakeUndoLock);
         && s2.mutex.Main? && CanRegister(s2, Undo)
         && DoRegister(s2, Undo) == s.(slots := s.slots[k := s.slots[k].(connected := false)], free := s.free + {k}, main := Idle)
  {
    var k := s.main.k;
    assert s.threads == s.threads[k := None] && s.leaked == s.leaked - {k};
  }

  /** When the thread arguments cannot be allocated, nothing is undone: the slot stays connected and busy, without a
      worker, and is lost. */
  lemma FailedAllocationLoses(s: State)
    requires Inv(s) && s.main.RegSpawn?
    ensures CanRegister(s, MallocFails)
    ensures var k, s1 := s.main.k, DoRegister(s, MallocFails);
      k in s1.leaked && k !in s1.free && !HasWorker(s1, k) && s1.main.Idle? && s1.slots == s.slots && s1.threads[k].None?
  {
  }

  // ----- device paths ---------------------------------------------------------------------------------

  /** No two connected DualShock or DualSense slots ever have the same device path, also in the window
      in which main waits for an old thread with the mutex released. */
  lemma ConnectedPathsDiffer(s: State, i: nat, j: nat)
    requires Reachable(s) && i < j < MAX_SLOTS && s.slots[i].connected && s.slots[j].connected
    requires !s.slots[i].kind.NswPro? && !s.slots[j].kind.NswPro?
    ensures s.slots[i].path != s.slots[j].path
  {
    ReachableInv(s);
  }
}
