/** The slot lifecycle protocol as a machine of interleaved steps: the main thread (registration,
    watchdog, lost-connection check), one worker per handed-out slot, the settings thread and
    client processes, synchronised by `proc_mutex`.

    A critical section that only reads or only writes once is two steps, taking the mutex and doing
    the work with the release; the registration section, whose inside must stay hidden, is split
    into its stores. The watchdog's update of the bitmap runs without the mutex, so it is a read
    step and a write step. `leaked` is a history variable: the slots the bitmap shows busy although
    nobody will ever give them back. */
module Lifecycle {
  import opened Records
  import opened SlotTable
  import opened EffectColours
  import Keys = Keymap

  type Tid = nat

  type SlotNo = i: nat | i < MAX_SLOTS

  const WORKER_HEARTBEAT_TIMEOUT_US := 5_000_000

  /** The clock counts microseconds; it is read as a `uint64_t` and never gets near its end. */
  const CLOCK_END := 0x8000_0000_0000_0000

  /** The watchdog's test for a heartbeat, with its subtraction modulo 2^64. */
  predicate Expired(now: nat, heartbeat: nat) {
    heartbeat != 0 && (now - heartbeat) % 0x1_0000_0000_0000_0000 > WORKER_HEARTBEAT_TIMEOUT_US
  }

  /** Critical sections of the loop body that touch no persistent setting: at most two where the virtual
      device is created or destroyed, and, after the effects, one for each of at most 256 events of 16
      bytes in a buffer of 4096, two for the devices, three each for rumble and LED output. */
  const DEVICE_CHORES := 2
  const TRAFFIC_CHORES := 264

  type DeviceChores = n: nat | n <= DEVICE_CHORES
  type TrafficChores = n: nat | n <= TRAFFIC_CHORES

  /** How many are left, and whether the effects or the loop head come after them. */
  datatype Chores = BeforeEffects(d: DeviceChores) | BeforeLoop(n: TrafficChores)

  /** The colour channel stored next. */
  datatype Channel = Red | Green | Blue

  /** The loop body: the layout requests of the own slot, the LED requests of all slots, the next frame of
      the own effect, and the chores between them. */
  datatype Task =
    | AwaitLayout
    | InLayout                                     // locked
    | AwaitChore(left: Chores)
    | InChore(left: Chores)                        // locked
    | Look(i: SlotNo)
    | AwaitRequest(i: SlotNo)
    | InRequest(i: SlotNo)                         // locked
    | Start(i: SlotNo, effect: int, brightness: byte)
    | Colour(i: SlotNo, r: byte, g: byte, b: byte, channel: Channel)
    | Frame
    | Paint(r: byte, g: byte, b: byte, channel: Channel)

  /** Where a worker is: before its loop, at the loop head, at the check of `connected`, in the loop
      body, or on one of its two ways out (an early failure keeps the device path, leaving the loop
      clears it). */
  datatype WorkerPc =
    | Starting
    | Polling
    | Checking
    | CheckingLocked
    | Body(task: Task)
    | Failing
    | FailingLocked
    | Leaving
    | LeavingLocked
    | Finished

  datatype Worker = Worker(slot: nat, pc: WorkerPc)

  datatype MainPc =
    | Idle
    | RegLock(path: string, kind: Kind)
    | RegScan(path: string, kind: Kind)
    | RegJoin(k: nat, path: string, kind: Kind)
    | RegRelock(k: nat, path: string, kind: Kind)
    | RegSave(k: nat, path: string, kind: Kind)
    | RegZero(k: nat, path: string, kind: Kind, saved: SlotConfig)
    | RegFill(k: nat, path: string, kind: Kind, saved: SlotConfig)
    | RegRestore(k: nat, saved: SlotConfig)
    | RegPublish(k: nat)
    | RegSpawn(k: nat)
    | RegSpawnFailed(k: nat)
    | RegUndo(k: nat)
    | WatchJoin(k: nat)
    | WatchRead(k: nat)
    | WatchWrite(k: nat, snapshot: set<nat>)
    | WatchDone(k: nat)
    | LostLock(k: nat)
    | LostCheck(k: nat)
    | LostJoin(k: nat)

  /** How far main is in a round of its loop: waiting for devices, at slot `i` of the watchdog pass with the
      time read before the pass, or at slot `i` of the check for lost connections. */
  datatype Pass =
    | AtPoll
    | Watchdog(i: SlotNo, now: nat)
    | Looking(i: SlotNo)

  /** What the effect system keeps for a slot: whether an effect runs, which, and the last colour it stored. */
  datatype Led = Led(active: bool, effect: int, brightness: byte, last: Shade)

  datatype Holder = Nobody | Main | AWorker(t: Tid) | SettingsThread | Client

  datatype State = State(
    mutex: Holder,
    free: set<nat>,
    slots: seq<Slot>,
    threads: seq<Option<Tid>>,
    workers: map<Tid, Worker>,
    main: MainPc,
    pass: Pass,
    clock: nat,
    leds: seq<Led>,
    active: seq<SlotConfig>,
    dirty: bool,
    leaked: set<nat>)

  /** `try_register_control` on the main thread. */
  datatype RegisterAction =
    | Begin(path: string, kind: Kind)
    | TakeLock
    | ScanSlots(access: seq<bool>)
    | ReusedJoined
    | TakeLockAgain
    | SaveSlot
    | ZeroTheSlot
    | FillSlot
    | RestoreSlot
    | PublishSlot
    | Spawn(t: Tid)
    | MallocFails
    | SpawnFails
    | TakeUndoLock
    | Undo

  /** The watchdog and the lost-connection check of the main loop. */
  datatype MonitorAction =
    | StartPass
    | WatchdogPasses
    | WatchdogFires
    | WatchdogJoined
    | WatchdogReads
    | WatchdogWrites
    | WatchdogEnds(accessible: bool)
    | LookPasses
    | LookAt
    | TakeLookLock
    | LookAtConnected
    | LostJoined

  /** `controller_worker`. */
  datatype WorkerAction =
    | SetUp(eventPath: string)
    | SetUpFails
    | LoopTop
    | LoopBreaks
    | TakeCheckLock
    | CheckConnected
    | TakeExitLock
    | Exit

  /** The loop body of `controller_worker`; LED requests are served by whichever worker gets there. */
  datatype BodyAction =
    | TakeLayoutLock
    | ServeLayout(toSwitch: bool, toXbox: bool, reset: bool)
    | TakeChoreLock
    | DoChore
    | EndChores
    | SkipEffects
    | SkipRequests
    | PassSlot
    | SeeSlot
    | TakeRequestLock
    | ReadRequest
    | StartEffect
    | StoreColour
    | NoFrame
    | NewFrame(look: Look)
    | StorePaint

  /** The settings thread's sync, the clients that write settings, most of them under the mutex, and
      time. */
  datatype OutsideAction =
    | TakeSettingsLock
    | SettingsSync
    | TakeClientLock
    | ClientWrite(i: nat, settings: Settings)
    | UnlockedWrite(i: nat, settings: Settings)
    | Tick(d: nat)

  datatype Step =
    | Register(r: RegisterAction)
    | Monitor(m: MonitorAction)
    | Work(t: Tid, w: WorkerAction)
    | InBody(t: Tid, a: BodyAction)
    | Outside(o: OutsideAction)

  // ----- the machine ------------------------------------------------------------------------

  function Lowest(free: set<nat>): (r: Option<nat>)
    ensures r.None? ==> free !! AllSlots
    ensures r.Some? ==> r.value in free && r.value < MAX_SLOTS && forall j | j in free :: r.value <= j
  {
    if 0 in free then Some(0)
    else if 1 in free then Some(1)
    else if 2 in free then Some(2)
    else if 3 in free then Some(3)
    else None
  }

  predicate IsAt(s: State, t: Tid, pc: WorkerPc) {
    t in s.workers && s.workers[t].pc == pc && s.workers[t].slot < |s.slots|
  }

  /** `pthread_join` on the slot's thread returns only when that worker has finished. */
  predicate CanJoin(s: State, k: nat) {
    k < |s.threads| && s.threads[k].Some? && s.threads[k].value in s.workers
    && s.workers[s.threads[k].value].pc == Finished
  }

  predicate WellSized(s: State) {
    |s.slots| == MAX_SLOTS && |s.threads| == MAX_SLOTS && |s.leds| == MAX_SLOTS
  }

  predicate CanRegister(s: State, r: RegisterAction)
    requires WellSized(s)
  {
    match r
    case Begin(_, _) => s.main.Idle? && s.pass.AtPoll?
    case TakeLock => s.main.RegLock? && s.mutex.Nobody?
    case ScanSlots(access) => s.main.RegScan? && |access| == MAX_SLOTS
    case ReusedJoined => s.main.RegJoin? && CanJoin(s, s.main.k)
    case TakeLockAgain => s.main.RegRelock? && s.mutex.Nobody?
    case SaveSlot => s.main.RegSave? && s.main.k < MAX_SLOTS
    case ZeroTheSlot => s.main.RegZero? && s.main.k < MAX_SLOTS
    case FillSlot => s.main.RegFill? && s.main.k < MAX_SLOTS
    case RestoreSlot => s.main.RegRestore? && s.main.k < MAX_SLOTS
    case PublishSlot => s.main.RegPublish? && s.main.k < MAX_SLOTS
    case Spawn(t) => s.main.RegSpawn? && s.main.k < MAX_SLOTS && t !in s.workers
    case MallocFails => s.main.RegSpawn? && s.main.k < MAX_SLOTS
    case SpawnFails => s.main.RegSpawn? && s.main.k < MAX_SLOTS
    case TakeUndoLock => s.main.RegSpawnFailed? && s.mutex.Nobody?
    case Undo => s.main.RegUndo? && s.main.k < MAX_SLOTS
  }

  /** The watchdog judges the slot it has come to. */
  predicate Fires(s: State)
    requires WellSized(s)
  {
    s.pass.Watchdog? && s.threads[s.pass.i].Some? && Expired(s.pass.now, s.slots[s.pass.i].heartbeat)
  }

  predicate CanMonitor(s: State, m: MonitorAction)
    requires WellSized(s)
  {
    match m
    case StartPass => s.main.Idle? && s.pass.AtPoll?
    case WatchdogPasses => s.main.Idle? && s.pass.Watchdog? && !Fires(s)
    case WatchdogFires => s.main.Idle? && Fires(s)
    case WatchdogJoined => s.main.WatchJoin? && CanJoin(s, s.main.k)
    case WatchdogReads => s.main.WatchRead? && s.main.k < MAX_SLOTS
    case WatchdogWrites => s.main.WatchWrite? && s.main.k < MAX_SLOTS
    case WatchdogEnds(_) => s.main.WatchDone? && s.main.k < MAX_SLOTS
    case LookPasses => s.main.Idle? && s.pass.Looking? && s.threads[s.pass.i].None?
    case LookAt => s.main.Idle? && s.pass.Looking? && s.threads[s.pass.i].Some?
    case TakeLookLock => s.main.LostLock? && s.mutex.Nobody?
    case LookAtConnected => s.main.LostCheck? && s.main.k < MAX_SLOTS
    case LostJoined => s.main.LostJoin? && CanJoin(s, s.main.k)
  }

  predicate CanWork(s: State, t: Tid, w: WorkerAction)
    requires WellSized(s)
  {
    match w
    case SetUp(_) => IsAt(s, t, Starting)
    case SetUpFails => IsAt(s, t, Starting)
    case LoopTop => IsAt(s, t, Polling)
    case LoopBreaks => IsAt(s, t, Polling)
    case TakeCheckLock => IsAt(s, t, Checking) && s.mutex.Nobody?
    case CheckConnected => IsAt(s, t, CheckingLocked)
    case TakeExitLock => (IsAt(s, t, Failing) || IsAt(s, t, Leaving)) && s.mutex.Nobody?
    case Exit => IsAt(s, t, FailingLocked) || IsAt(s, t, LeavingLocked)
  }

  function Base(c: Settings): Shade {
    (c.ledBaseR, c.ledBaseG, c.ledBaseB)
  }

  /** The next frame of the effect of a slot. */
  function NextShade(c: Settings, led: Led, look: Look): Shade {
    FrameShade(Base(c), led.brightness, look)
  }

  predicate More(left: Chores) {
    match left
    case BeforeEffects(d) => d > 0
    case BeforeLoop(n) => n > 0
  }

  function OneLess(left: Chores): Chores
    requires More(left)
  {
    match left
    case BeforeEffects(d) => BeforeEffects(d - 1)
    case BeforeLoop(n) => BeforeLoop(n - 1)
  }

  predicate InTask(s: State, t: Tid)
  {
    t in s.workers && s.workers[t].pc.Body? && s.workers[t].slot < |s.slots|
  }

  predicate CanBody(s: State, t: Tid, a: BodyAction)
    requires WellSized(s)
  {
    InTask(s, t) &&
    var task, own := s.workers[t].pc.task, s.slots[s.workers[t].slot];
    match a
    case TakeLayoutLock => task.AwaitLayout? && s.mutex.Nobody?
    case ServeLayout(_, _, _) => task.InLayout?
    case TakeChoreLock => task.AwaitChore? && More(task.left) && s.mutex.Nobody?
    case DoChore => task.InChore?
    case EndChores => task.AwaitChore?
    case SkipEffects => task == Look(0)
    case SkipRequests => task == Look(0)
    case PassSlot => task.Look? && !s.slots[task.i].connected
    case SeeSlot => task.Look? && s.slots[task.i].connected
    case TakeRequestLock => task.AwaitRequest? && s.mutex.Nobody?
    case ReadRequest => task.InRequest?
    case StartEffect => task.Start?
    case StoreColour => task.Colour?
    case NoFrame => task.Frame?
    case NewFrame(look) =>
      var led := s.leds[s.workers[t].slot];
      && task.Frame? && own.connected && !own.settings.ledStatic && led.active
      && Possible(led.effect, look) && NextShade(own.settings, led, look) != led.last
    case StorePaint => task.Paint?
  }

  predicate CanOutside(s: State, o: OutsideAction)
    requires WellSized(s)
  {
    match o
    case TakeSettingsLock => s.mutex.Nobody?
    case SettingsSync => s.mutex.SettingsThread?
    case TakeClientLock => s.mutex.Nobody?
    case ClientWrite(i, _) => s.mutex.Client? && i < MAX_SLOTS
    case UnlockedWrite(i, _) => i < MAX_SLOTS
    case Tick(d) => s.clock + d < CLOCK_END
  }

  predicate Enabled(s: State, step: Step)
    requires WellSized(s)
  {
    match step
    case Register(r) => CanRegister(s, r)
    case Monitor(m) => CanMonitor(s, m)
    case Work(t, w) => CanWork(s, t, w)
    case InBody(t, a) => CanBody(s, t, a)
    case Outside(o) => CanOutside(s, o)
  }

  function SetPc(s: State, t: Tid, pc: WorkerPc): State
    requires t in s.workers
  {
    s.(workers := s.workers[t := s.workers[t].(pc := pc)])
  }

  function SetSlot(s: State, k: nat, slot: Slot): State
    requires k < |s.slots|
  {
    s.(slots := s.slots[k := slot])
  }

  /** `mark_slot_free`: the slot can be handed out again, so it is not leaked any more. */
  function MarkFree(s: State, k: nat): State {
    s.(free := s.free + {k}, leaked := s.leaked - {k})
  }

  function Unlock(s: State, main: MainPc): State {
    s.(mutex := Nobody, main := main)
  }

  function Configs(slots: seq<Slot>): (r: seq<SlotConfig>)
    ensures |r| == |slots|
  {
    seq(|slots|, i requires 0 <= i < |slots| => Save(slots[i].settings))
  }

  function DoRegister(s: State, r: RegisterAction): State
    requires WellSized(s) && CanRegister(s, r)
  {
    match r
    case Begin(path, kind) => s.(main := RegLock(path, kind))
    case TakeLock => s.(mutex := Main, main := RegScan(s.main.path, s.main.kind))
    case ScanSlots(access) => AfterScan(s, s.main.path, s.main.kind, access)
    case ReusedJoined =>
      s.(threads := s.threads[s.main.k := None], main := RegRelock(s.main.k, s.main.path, s.main.kind))
    case TakeLockAgain => s.(mutex := Main, main := RegSave(s.main.k, s.main.path, s.main.kind))
    case SaveSlot =>
      s.(main := RegZero(s.main.k, s.main.path, s.main.kind, Save(s.slots[s.main.k].settings)))
    case ZeroTheSlot =>
      SetSlot(s, s.main.k, ZeroSlot).(main := RegFill(s.main.k, s.main.path, s.main.kind, s.main.saved))
    case FillSlot =>
      SetSlot(s, s.main.k, s.slots[s.main.k].(path := s.main.path, kind := s.main.kind, connected := true))
        .(main := RegRestore(s.main.k, s.main.saved))
    case RestoreSlot =>
      SetSlot(s, s.main.k, s.slots[s.main.k].(settings := Restore(s.main.saved))).(main := RegPublish(s.main.k))
    case PublishSlot =>
      var s1 := SetSlot(s, s.main.k, s.slots[s.main.k].(heartbeat := 0, workerStop := false));
      Unlock(s1.(free := s.free - {s.main.k}), RegSpawn(s.main.k))
    case Spawn(t) =>
      s.(threads := s.threads[s.main.k := Some(t)], workers := s.workers[t := Worker(s.main.k, Starting)], main := Idle)
    case MallocFails => s.(leaked := s.leaked + {s.main.k}, main := Idle)
    case SpawnFails => s.(main := RegSpawnFailed(s.main.k))
    case TakeUndoLock => s.(mutex := Main, main := RegUndo(s.main.k))
    case Undo =>
      var s1 := SetSlot(s, s.main.k, s.slots[s.main.k].(connected := false));
      Unlock(MarkFree(s1, s.main.k), Idle).(threads := s.threads[s.main.k := None])
  }

  /** The next slot of the pass, or what comes after it. */
  function NextPlace(p: Pass): Pass {
    match p
    case AtPoll => AtPoll
    case Watchdog(i, now) => if i + 1 < MAX_SLOTS then Watchdog(i + 1, now) else Looking(0)
    case Looking(i) => if i + 1 < MAX_SLOTS then Looking(i + 1) else AtPoll
  }

  function DoMonitor(s: State, m: MonitorAction): State
    requires WellSized(s) && CanMonitor(s, m)
  {
    match m
    case StartPass => s.(pass := Watchdog(0, s.clock))
    case WatchdogPasses => s.(pass := NextPlace(s.pass))
    case WatchdogFires =>
      SetSlot(s, s.pass.i, s.slots[s.pass.i].(workerStop := true)).(main := WatchJoin(s.pass.i))
    case WatchdogJoined =>
      var s1 := SetSlot(s, s.main.k, s.slots[s.main.k].(workerStop := false, connected := false));
      s1.(threads := s.threads[s.main.k := None], main := WatchRead(s.main.k))
    case WatchdogReads => s.(main := WatchWrite(s.main.k, s.free))
    case WatchdogWrites =>
      var free1 := s.main.snapshot + {s.main.k};
      s.(free := free1, leaked := s.leaked + (s.free - free1) - {s.main.k}, main := WatchDone(s.main.k))
    case WatchdogEnds(accessible) =>
      var slot := s.slots[s.main.k];
      s.(main := if slot.path != "" && accessible then RegLock(slot.path, slot.kind) else Idle, pass := NextPlace(s.pass))
    case LookPasses => s.(pass := NextPlace(s.pass))
    case LookAt => s.(main := LostLock(s.pass.i))
    case TakeLookLock => s.(mutex := Main, main := LostCheck(s.main.k))
    case LookAtConnected =>
      if s.slots[s.main.k].connected then Unlock(s, Idle).(pass := NextPlace(s.pass)) else Unlock(s, LostJoin(s.main.k))
    case LostJoined => s.(threads := s.threads[s.main.k := None], main := Idle, pass := NextPlace(s.pass))
  }

  function DoWork(s: State, t: Tid, w: WorkerAction): State
    requires WellSized(s) && CanWork(s, t, w)
  {
    var k := s.workers[t].slot;
    match w
    case SetUp(eventPath) =>
      var s1 := if s.slots[k].kind.NswPro? then SetSlot(s, k, s.slots[k].(path := eventPath)) else s;
      SetPc(s1, t, Polling)
    case SetUpFails => SetPc(s, t, Failing)
    case LoopTop =>
      SetPc(SetSlot(s, k, s.slots[k].(heartbeat := s.clock)), t, if s.slots[k].workerStop then Leaving else Checking)
    case LoopBreaks => SetPc(s, t, Leaving)
    case TakeCheckLock => SetPc(s, t, CheckingLocked).(mutex := AWorker(t))
    case CheckConnected => SetPc(s, t, if s.slots[k].connected then Body(AwaitLayout) else Leaving).(mutex := Nobody)
    case TakeExitLock =>
      SetPc(s, t, if s.workers[t].pc.Failing? then FailingLocked else LeavingLocked).(mutex := AWorker(t))
    case Exit =>
      var slot := s.slots[k].(connected := false);
      var slot1 := if s.workers[t].pc.LeavingLocked? then slot.(path := "") else slot;
      MarkFree(SetPc(SetSlot(s, k, slot1), t, Finished), k).(mutex := Nobody)
  }

  /** The layout requests found set, in the order of the code. */
  function LaidOut(c: Settings, toSwitch: bool, toXbox: bool, reset: bool): Settings {
    var m1 := if toSwitch then Keys.SwitchLayout(c.keymap) else c.keymap;
    var m2 := if toXbox then Keys.XboxLayout(m1) else m1;
    c.(keymap := if reset then Keys.IdentityKeymap() else m2)
  }

  /** One store of a colour. */
  function Coloured(c: Settings, r: byte, g: byte, b: byte, channel: Channel): Settings {
    match channel
    case Red => c.(ledR := r)
    case Green => c.(ledG := g)
    case Blue => c.(ledB := b)
  }

  /** The slot after `i` in the loop over the LED requests. */
  function After(i: SlotNo): Task {
    if i + 1 < MAX_SLOTS then Look(i + 1) else Frame
  }

  function SetSettings(s: State, i: nat, settings: Settings): State
    requires i < |s.slots|
  {
    SetSlot(s, i, s.slots[i].(settings := settings))
  }

  /** Starting an effect stores its mode; a request for no known effect is ignored. */
  function StartedMode(c: Settings, effect: int): Settings {
    if 0 <= effect < LEDFX_COUNT then c.(ledStatic := effect == 0) else c
  }

  /** Starting an effect also forgets the last colour; the static one stops the effect. */
  function StartedLed(led: Led, effect: int, brightness: byte): Led {
    if effect == 0 then led.(active := false)
    else if 0 < effect < LEDFX_COUNT then Led(true, effect, SaneBrightness(brightness), Black)
    else led
  }

  /** It goes on to store the base colour for the static effect, black for the two that follow the
      player, and nothing for the others. */
  function StartedTask(c: Settings, i: SlotNo, effect: int): Task {
    if effect == 0 then Colour(i, c.ledBaseR, c.ledBaseG, c.ledBaseB, Red)
    else if effect == LEDFX_TRIGGER || effect == LEDFX_BUTTON_PRESS then Colour(i, 0, 0, 0, Red)
    else After(i)
  }

  /** Where the worker goes, ... */
  function BodyPc(s: State, t: Tid, a: BodyAction): WorkerPc
    requires WellSized(s) && CanBody(s, t, a)
  {
    var task := s.workers[t].pc.task;
    match a
    case TakeLayoutLock => Body(InLayout)
    case ServeLayout(_, _, _) => Body(AwaitChore(BeforeEffects(DEVICE_CHORES)))
    case TakeChoreLock => Body(InChore(OneLess(task.left)))
    case DoChore => Body(AwaitChore(task.left))
    case EndChores => if task.left.BeforeEffects? then Body(Look(0)) else Polling
    case SkipEffects => Body(AwaitChore(BeforeLoop(TRAFFIC_CHORES)))
    case SkipRequests => Body(Frame)
    case PassSlot => Body(After(task.i))
    case SeeSlot => Body(AwaitRequest(task.i))
    case TakeRequestLock => Body(InRequest(task.i))
    case ReadRequest =>
      var c := s.slots[task.i].settings;
      Body(if c.ledRequestPending then Start(task.i, c.ledRequestEffect, c.ledRequestBrightness) else After(task.i))
    case StartEffect => Body(StartedTask(s.slots[task.i].settings, task.i, task.effect))
    case StoreColour =>
      Body(match task.channel
           case Red => Colour(task.i, task.r, task.g, task.b, Green)
           case Green => Colour(task.i, task.r, task.g, task.b, Blue)
           case Blue => After(task.i))
    case NoFrame => Body(AwaitChore(BeforeLoop(TRAFFIC_CHORES)))
    case NewFrame(look) =>
      var shade := NextShade(s.slots[s.workers[t].slot].settings, s.leds[s.workers[t].slot], look);
      Body(Paint(shade.0, shade.1, shade.2, Red))
    case StorePaint =>
      Body(match task.channel
           case Red => Paint(task.r, task.g, task.b, Green)
           case Green => Paint(task.r, task.g, task.b, Blue)
           case Blue => AwaitChore(BeforeLoop(TRAFFIC_CHORES)))
  }

  /** ... what becomes of the mutex, ... */
  function BodyMutex(s: State, t: Tid, a: BodyAction): Holder {
    if a.TakeLayoutLock? || a.TakeChoreLock? || a.TakeRequestLock? then AWorker(t)
    else if a.ServeLayout? || a.DoChore? || a.ReadRequest? then Nobody
    else s.mutex
  }

  datatype Store = Store(slot: SlotNo, settings: Settings)

  /** ... what the effect system remembers, ... */
  function BodyLeds(s: State, t: Tid, a: BodyAction): seq<Led>
    requires WellSized(s) && CanBody(s, t, a)
  {
    var k, task := s.workers[t].slot, s.workers[t].pc.task;
    if a.StartEffect? then s.leds[task.i := StartedLed(s.leds[task.i], task.effect, task.brightness)]
    else if a.StorePaint? && task.channel.Blue? then s.leds[k := s.leds[k].(last := (task.r, task.g, task.b))]
    else s.leds
  }

  /** ... and what it stores in which slot. */
  function BodyStore(s: State, t: Tid, a: BodyAction): Option<Store>
    requires WellSized(s) && CanBody(s, t, a)
  {
    var k, task := s.workers[t].slot, s.workers[t].pc.task;
    match a
    case ServeLayout(toSwitch, toXbox, reset) => Some(Store(k, LaidOut(s.slots[k].settings, toSwitch, toXbox, reset)))
    case ReadRequest => Some(Store(task.i, s.slots[task.i].settings.(ledRequestPending := false)))
    case StartEffect => Some(Store(task.i, StartedMode(s.slots[task.i].settings, task.effect)))
    case StoreColour => Some(Store(task.i, Coloured(s.slots[task.i].settings, task.r, task.g, task.b, task.channel)))
    case StorePaint => Some(Store(k, Coloured(s.slots[k].settings, task.r, task.g, task.b, task.channel)))
    case _ => None
  }

  function DoBody(s: State, t: Tid, a: BodyAction): State
    requires WellSized(s) && CanBody(s, t, a)
  {
    var s1 := SetPc(s, t, BodyPc(s, t, a)).(mutex := BodyMutex(s, t, a), leds := BodyLeds(s, t, a));
    match BodyStore(s, t, a)
    case None => s1
    case Some(store) => SetSettings(s1, store.slot, store.settings)
  }

  function DoOutside(s: State, o: OutsideAction): State
    requires WellSized(s) && CanOutside(s, o)
  {
    match o
    case TakeSettingsLock => s.(mutex := SettingsThread)
    case SettingsSync =>
      var seen := Configs(s.slots);
      s.(mutex := Nobody, active := seen, dirty := s.dirty || seen != s.active)
    case TakeClientLock => s.(mutex := Client)
    case ClientWrite(i, settings) => SetSlot(s, i, s.slots[i].(settings := settings)).(mutex := Nobody)
    case UnlockedWrite(i, settings) => SetSlot(s, i, s.slots[i].(settings := settings))
    case Tick(d) => s.(clock := s.clock + d)
  }

  function Apply(s: State, step: Step): State
    requires WellSized(s) && Enabled(s, step)
  {
    match step
    case Register(r) => DoRegister(s, r)
    case Monitor(m) => DoMonitor(s, m)
    case Work(t, w) => DoWork(s, t, w)
    case InBody(t, a) => DoBody(s, t, a)
    case Outside(o) => DoOutside(s, o)
  }

  /** Ghost eviction, then the choice of a slot: none left, one whose old thread must be joined with
      the mutex released, or one that can be filled at once. */
  function AfterScan(s: State, path: string, kind: Kind, access: seq<bool>): State
    requires WellSized(s) && |access| == MAX_SLOTS
  {
    var scan := ScanFrom(s.slots, s.free, path, access, 0);
    var s1 := s.(slots := scan.slots, free := scan.free, leaked := s.leaked - scan.free);
    if scan.served then Unlock(s1, Idle)
    else match Lowest(scan.free)
         case None => Unlock(s1, Idle)
         case Some(k) =>
           if s.threads[k].Some? then Unlock(s1, RegJoin(k, path, kind)) else s1.(main := RegSave(k, path, kind))
  }

  /** The daemon just before it scans for devices. */
  predicate Init(s: State) {
    && WellSized(s)
    && s.mutex.Nobody? && s.main.Idle? && s.pass.AtPoll?
    && 0 < s.clock < CLOCK_END
    && (forall i | 0 <= i < MAX_SLOTS :: !s.leds[i].active)
    && s.free == AllSlots && s.leaked == {}
    && s.workers == map[]
    && (forall i | 0 <= i < MAX_SLOTS ::
          s.threads[i].None? && !s.slots[i].connected && s.slots[i].heartbeat == 0 && !s.slots[i].workerStop)
  }

  // ----- runs -------------------------------------------------------------------------------

  predicate CanRun(s: State, run: seq<Step>)
    decreases |run|
  {
    WellSized(s) && (run != [] ==> Enabled(s, run[0]) && CanRun(Apply(s, run[0]), run[1..]))
  }

  function Run(s: State, run: seq<Step>): (r: State)
    requires CanRun(s, run)
    ensures WellSized(r)
    decreases |run|
  {
    if run == [] then s else Run(Apply(s, run[0]), run[1..])
  }

  ghost predicate Reachable(s: State)
    ensures Reachable(s) ==> WellSized(s)
  {
    exists s0, run :: Init(s0) && CanRun(s0, run) && Run(s0, run) == s
  }

  // ----- the invariant ----------------------------------------------------------------------

  /** Main holds the mutex exactly at these points. */
  predicate MainHolds(m: MainPc) {
    m.RegScan? || m.RegSave? || m.RegZero? || m.RegFill? || m.RegRestore? || m.RegPublish? || m.RegUndo? || m.LostCheck?
  }

  predicate MainJoins(m: MainPc) {
    m.RegJoin? || m.WatchJoin? || m.LostJoin?
  }

  predicate WorkerHolds(pc: WorkerPc) {
    pc.CheckingLocked? || pc.FailingLocked? || pc.LeavingLocked? || (pc.Body? && (pc.task.InLayout? || pc.task.InChore? || pc.task.InRequest?))
  }

  /** Main is registering into a slot, or freeing one, after joining its old thread. */
  predicate Claims(m: MainPc) {
    m.RegRelock? || m.RegSave? || m.RegZero? || m.RegFill? || m.RegRestore? || m.RegPublish?
    || m.RegSpawn? || m.RegSpawnFailed? || m.RegUndo? || m.WatchRead? || m.WatchWrite? || m.WatchDone?
  }

  /** Slot `i` is already marked connected but not yet marked busy. */
  predicate HalfPublished(m: MainPc, i: nat) {
    (m.RegRestore? || m.RegPublish?) && m.k == i
  }

  /** Slot `i` is published but has no worker yet. */
  predicate Registering(m: MainPc, i: nat) {
    (m.RegSpawn? || m.RegSpawnFailed? || m.RegUndo?) && m.k == i
  }

  predicate Live(s: State, t: Tid) {
    t in s.workers && s.workers[t].pc != Finished
  }

  predicate HasWorker(s: State, i: nat) {
    i < |s.threads| && s.threads[i].Some? && Live(s, s.threads[i].value)
  }

  /** `threads[i]` names a worker of slot `i`, and every worker that has not finished is named by
      its slot. */
  ghost predicate Ownership(s: State) {
    && WellSized(s)
    && (forall i | 0 <= i < MAX_SLOTS && s.threads[i].Some? ::
          s.threads[i].value in s.workers && s.workers[s.threads[i].value].slot == i)
    && (forall t | Live(s, t) :: s.workers[t].slot < MAX_SLOTS && s.threads[s.workers[t].slot] == Some(t))
  }

  ghost predicate Locking(s: State) {
    && (s.mutex.Main? <==> MainHolds(s.main))
    && (forall t | t in s.workers :: WorkerHolds(s.workers[t].pc) <==> s.mutex == AWorker(t))
    && (s.mutex.AWorker? ==> s.mutex.t in s.workers)
  }

  predicate HasSlot(m: MainPc) {
    !m.Idle? && !m.RegLock? && !m.RegScan?
  }

  /** Main has chosen a slot and not yet filled it. */
  predicate Choosing(m: MainPc) {
    m.RegJoin? || m.RegRelock? || m.RegSave? || m.RegZero? || m.RegFill?
  }

  /** No connected slot has the path main is about to hand out. */
  ghost predicate MainPath(s: State) {
    Choosing(s.main) ==> PathUnused(s, s.main.path)
  }

  /** What main knows about its slot at each point. */
  ghost predicate MainPlace(s: State)
    requires WellSized(s)
  {
    var m := s.main;
    && (HasSlot(m) ==> m.k < MAX_SLOTS)
    && (Claims(m) ==> s.threads[m.k].None?)
    && (Choosing(m) ==> m.k in s.free)
    && (m.RegRestore? || m.RegPublish? ==> m.k in s.free)
    && (m.RegSpawn? || m.RegSpawnFailed? || m.RegUndo? ==> m.k !in s.free)
    && (m.RegSpawn? ==> s.slots[m.k].heartbeat == 0)
    && (MainJoins(m) || m.LostLock? || m.LostCheck? ==> s.threads[m.k].Some?)
    && (m.WatchJoin? ==> s.slots[m.k].workerStop && s.slots[m.k].heartbeat != 0)
    && (m.WatchRead? || m.WatchWrite? || m.WatchDone? ==> s.slots[m.k].path == "")
    && (m.WatchRead? || m.WatchWrite? || m.LostJoin? ==> !s.slots[m.k].connected)
    && (m.WatchWrite? ==> m.snapshot <= s.free && NoneServed(s, s.free - m.snapshot))
  }

  ghost predicate NoneServed(s: State, slots: set<nat>) {
    forall j | j in slots :: !HasWorker(s, j)
  }

  ghost predicate PathUnused(s: State, path: string) {
    forall i | 0 <= i < |s.slots| && s.slots[i].connected && !s.slots[i].kind.NswPro? :: s.slots[i].path != path
  }

  /** The bitmap against the slots: connected slots are busy, and a busy slot is served, being
      registered, or leaked. */
  ghost predicate Bitmap(s: State)
    requires WellSized(s)
  {
    && s.free <= AllSlots && s.leaked <= AllSlots && s.leaked !! s.free
    && (forall i | 0 <= i < MAX_SLOTS && s.slots[i].connected :: i !in s.free || HalfPublished(s.main, i))
    && (forall i | 0 <= i < MAX_SLOTS && i !in s.free ::
          i in s.leaked || HasWorker(s, i) || Registering(s.main, i))
    && (forall i | i in s.leaked :: !HasWorker(s, i) && !Registering(s.main, i))
  }

  /** Only a worker that reached its loop beats, and never with a 0; when such a worker is gone its path is gone too. */
  ghost predicate Heartbeats(s: State)
    requires WellSized(s)
  {
    && s.clock > 0
    && (forall i | 0 <= i < MAX_SLOTS && s.threads[i].Some? && s.threads[i].value in s.workers && s.slots[i].heartbeat != 0 ::
          var pc := s.workers[s.threads[i].value].pc;
          && !pc.Starting? && !pc.Failing? && !pc.FailingLocked?
          && (pc.Finished? ==> s.slots[i].path == ""))
  }

  ghost predicate DistinctPaths(s: State) {
    forall i, j | 0 <= i < j < |s.slots|
        && s.slots[i].connected && s.slots[j].connected
        && !s.slots[i].kind.NswPro? && !s.slots[j].kind.NswPro? ::
      s.slots[i].path != s.slots[j].path
  }

  predicate Registers(m: MainPc) {
    m.RegLock? || m.RegScan? || m.RegJoin? || m.RegRelock? || m.RegSave? || m.RegZero? || m.RegFill? || m.RegRestore?
    || m.RegPublish? || m.RegSpawn? || m.RegSpawnFailed? || m.RegUndo?
  }

  predicate Watches(m: MainPc) {
    m.WatchJoin? || m.WatchRead? || m.WatchWrite? || m.WatchDone?
  }

  predicate Looks(m: MainPc) {
    m.LostLock? || m.LostCheck? || m.LostJoin?
  }

  /** Main works on the slot its loop has come to, and registers devices only between two passes; no
      recorded time is ahead of the clock. */
  ghost predicate InTime(s: State)
    requires WellSized(s)
  {
    && (Registers(s.main) ==> s.pass.AtPoll?)
    && (Watches(s.main) ==> s.pass.Watchdog? && s.pass.i == s.main.k)
    && (Looks(s.main) ==> s.pass.Looking? && s.pass.i == s.main.k)
    && (s.pass.Watchdog? ==> s.pass.now <= s.clock)
    && s.clock < CLOCK_END
    && (forall i | 0 <= i < MAX_SLOTS :: s.slots[i].heartbeat <= s.clock)
  }

  ghost predicate Inv(s: State) {
    Ownership(s) && Locking(s) && MainPlace(s) && MainPath(s) && Bitmap(s) && Heartbeats(s) && DistinctPaths(s)
  }
}
