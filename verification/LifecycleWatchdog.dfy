/** Whom the watchdog stops. It reads the clock once for a whole pass, so a worker that beats after that
    looks stuck, as one that has not beaten for five seconds does. */
module LifecycleWatchdog {
  import opened Records
  import opened SlotTable
  import opened Lifecycle
  import opened LifecycleInvariant

  lemma ExpiredExactly(now: nat, heartbeat: nat)
    requires now < CLOCK_END && heartbeat < CLOCK_END
    ensures Expired(now, heartbeat) <==>
            heartbeat != 0 && (heartbeat > now || now - heartbeat > 5_000_000)
  {
    if heartbeat > now {
      assert (now - heartbeat) % 0x1_0000_0000_0000_0000 == 0x1_0000_0000_0000_0000 + now - heartbeat;
    } else {
      assert (now - heartbeat) % 0x1_0000_0000_0000_0000 == now - heartbeat;
    }
  }

  /** For every reachable state: the worker of the slot the pass has come to is judged stuck exactly when
      it has beaten and its last heartbeat is more than five seconds before the time of the pass, or is
      after it. */
  lemma FiresExactly(s: State)
    requires Reachable(s) && s.pass.Watchdog?
    ensures var hb := s.slots[s.pass.i].heartbeat;
      Fires(s) <==>
      s.threads[s.pass.i].Some? && hb != 0 && (hb > s.pass.now || s.pass.now - hb > 5_000_000)
  {
    ReachableInv(s);
    ExpiredExactly(s.pass.now, s.slots[s.pass.i].heartbeat);
  }

  /** The worker of slot `i` has beaten in the last five seconds. */
  predicate Healthy(s: State, i: nat)
    requires i < |s.slots| && i < |s.threads|
  {
    s.threads[i].Some? && s.slots[i].heartbeat != 0 && s.clock - s.slots[i].heartbeat <= WORKER_HEARTBEAT_TIMEOUT_US
  }

  /** A healthy worker is stopped if and only if it has beaten since the pass read the clock. */
  lemma HealthyIsStoppedExactly(s: State)
    requires Reachable(s) && s.pass.Watchdog? && Healthy(s, s.pass.i)
    ensures Fires(s) <==> s.slots[s.pass.i].heartbeat > s.pass.now
  {
    ReachableInv(s);
    FiresExactly(s);
  }

  // ----- over runs --------------------------------------------------------------------------------

  /** In the pass that read `now` and has not done with slot `j`, the worker of `j` has beaten since. */
  ghost predicate Ahead(s: State, j: nat, now: nat) {
    && WellSized(s) && j < MAX_SLOTS && s.clock > now
    && (s.pass.Watchdog? && s.pass.now == now && s.pass.i <= j && !(Watches(s.main) && s.main.k == j) ==>
          s.threads[j].Some? && s.slots[j].heartbeat > now)
  }

  lemma RegisterKeepsAhead(s: State, r: RegisterAction, j: nat, now: nat)
    requires WellSized(s) && Locking(s) && InTime(s) && CanRegister(s, r) && Ahead(s, j, now)
    ensures Ahead(DoRegister(s, r), j, now)
  {
    if r.ScanSlots? { ScanChanges(s, r.access); }
  }

  lemma MonitorKeepsAhead(s: State, m: MonitorAction, j: nat, now: nat)
    requires WellSized(s) && InTime(s) && CanMonitor(s, m) && Ahead(s, j, now)
    ensures Ahead(DoMonitor(s, m), j, now)
  {
  }

  lemma WorkKeepsAhead(s: State, t: Tid, w: WorkerAction, j: nat, now: nat)
    requires WellSized(s) && InTime(s) && CanWork(s, t, w) && Ahead(s, j, now)
    ensures Ahead(DoWork(s, t, w), j, now)
  {
  }

  lemma StepKeepsAhead(s: State, step: Step, j: nat, now: nat)
    requires Inv(s) && InTime(s) && Enabled(s, step) && Ahead(s, j, now)
    ensures Ahead(Apply(s, step), j, now)
  {
    match step
    case Register(r) => RegisterKeepsAhead(s, r, j, now);
    case Monitor(m) => MonitorKeepsAhead(s, m, j, now);
    case Work(t, w) => WorkKeepsAhead(s, t, w, j, now);
    case InBody(t, a) => BodyIsLocal(s, t, a);
    case Outside(o) => OutsideIsLocal(s, o);
  }

  lemma {:induction false} RunKeepsAhead(s: State, run: seq<Step>, j: nat, now: nat)
    requires Inv(s) && InTime(s) && CanRun(s, run) && Ahead(s, j, now)
    ensures Ahead(Run(s, run), j, now)
    decreases |run|
  {
    if run != [] {
      StepKeepsInv(s, run[0]);
      StepInTime(s, run[0]);
      StepKeepsAhead(s, run[0], j, now);
      RunKeepsAhead(Apply(s, run[0]), run[1..], j, now);
    }
  }

  lemma AheadFires(s: State, j: nat, now: nat)
    requires WellSized(s) && InTime(s) && Ahead(s, j, now) && s.main.Idle? && s.pass.Watchdog? && s.pass.i == j && s.pass.now == now
    ensures CanMonitor(s, WatchdogFires) && !CanMonitor(s, WatchdogPasses)
  {
    ExpiredExactly(now, s.slots[j].heartbeat);
  }

  lemma LateBeatIsAhead(s: State, t: Tid)
    requires Inv(s) && InTime(s) && s.pass.Watchdog? && s.clock > s.pass.now && CanWork(s, t, LoopTop)
    ensures var s1 := DoWork(s, t, LoopTop); Inv(s1) && InTime(s1) && Ahead(s1, s.workers[t].slot, s.pass.now)
  {
    WorkKeepsInv(s, t, LoopTop);
    WorkInTime(s, t, LoopTop);
    assert s.threads[s.workers[t].slot] == Some(t);
  }

  /** A worker that passes its loop head after the clock was read for the pass, and before the pass has
      judged its slot, is stopped by that pass, whatever happens in between; main may be joining the worker
      of an earlier slot meanwhile. */
  lemma LateBeatIsFatal(s: State, t: Tid, run: seq<Step>)
    requires Reachable(s) && s.pass.Watchdog? && s.clock > s.pass.now
    requires CanWork(s, t, LoopTop) && s.workers[t].slot >= s.pass.i
    requires !(Watches(s.main) && s.main.k == s.workers[t].slot)
    requires CanRun(DoWork(s, t, LoopTop), run)
    requires var s1 := Run(DoWork(s, t, LoopTop), run);
      s1.main.Idle? && s1.pass == Watchdog(s.workers[t].slot, s.pass.now)
    ensures var s1 := Run(DoWork(s, t, LoopTop), run); CanMonitor(s1, WatchdogFires) && !CanMonitor(s1, WatchdogPasses)
  {
    var j, now, s0 := s.workers[t].slot, s.pass.now, DoWork(s, t, LoopTop);
    ReachableInv(s);
    LateBeatIsAhead(s, t);
    RunKeepsInv(s0, run);
    RunInTime(s0, run);
    RunKeepsAhead(s0, run, j, now);
    AheadFires(Run(s0, run), j, now);
  }
}
