/** When a run without client writes dirties the profile: which stored LED effects make a worker store
    another colour than the stored one, and how the zeroed slot of a registration can leak into it. */
module LifecycleEffects {
  import opened Records
  import opened SlotTable
  import opened EffectColours
  import opened Lifecycle
  import opened LifecycleInvariant
  import opened LifecycleTheorems
  import opened LifecycleSchedules

  // ----- which configurations stay as they are --------------------------------------------------

  function StoredShade(c: SlotConfig): Shade {
    (c.ledR, c.ledG, c.ledB)
  }

  function BaseShade(c: SlotConfig): Shade {
    (c.ledBaseR, c.ledBaseG, c.ledBaseB)
  }

  /** As bright as the stored effect gets. */
  function BrightestOf(c: SlotConfig): Shade {
    Brightest(BaseShade(c), SaneBrightness(c.ledEffectBrightness))
  }

  /** No known effect; the static one in its base colour; or one that dims the base colour and is black even at
      its brightest, with black stored if it is one of the two that start black. */
  predicate Quiet(c: SlotConfig) {
    var effect := c.ledEffect as int;
    || effect >= LEDFX_COUNT
    || (effect == 0 && StoredShade(c) == BaseShade(c))
    || (Dims(effect) && BrightestOf(c) == Black && (StartsBlack(effect) ==> StoredShade(c) == Black))
  }

  predicate StartsBlack(effect: int) {
    effect == LEDFX_TRIGGER || effect == LEDFX_BUTTON_PRESS
  }

  /** And a static effect has black as its base colour, which is what a zeroed slot shows. */
  predicate Unshakable(c: SlotConfig) {
    Quiet(c) && (c.ledEffect == 0 ==> BaseShade(c) == Black)
  }

  /** The configurations a run can be trusted with. */
  ghost predicate Trusted(cfg: seq<SlotConfig>, careful: bool) {
    && |cfg| == MAX_SLOTS
    && forall i | 0 <= i < MAX_SLOTS :: Quiet(cfg[i]) && (careful || Unshakable(cfg[i]))
  }

  // ----- such a run changes nothing -------------------------------------------------------------

  /** A request read from slot `i` would ask for its configured effect. */
  predicate Ready(s: State, cfg: seq<SlotConfig>, i: nat)
    requires WellSized(s) && |cfg| == MAX_SLOTS && i < MAX_SLOTS
  {
    Hidden(s.main, i) || s.slots[i].settings.ledRequestEffect == cfg[i].ledEffect as int
  }

  /** What a worker in its loop body is about to store agrees with the configurations. */
  predicate TaskAgrees(s: State, cfg: seq<SlotConfig>, task: Task)
    requires WellSized(s) && |cfg| == MAX_SLOTS
  {
    match task
    case AwaitRequest(i) => Ready(s, cfg, i)
    case InRequest(i) => Ready(s, cfg, i)
    case Start(i, effect, brightness) => effect == cfg[i].ledEffect as int && brightness == cfg[i].ledEffectBrightness
    case Colour(i, r, g, b, _) => (r, g, b) == StoredShade(cfg[i])
    case Paint(_, _, _, _) => false
    case _ => true
  }

  /** An effect that runs is the configured one, and has stored nothing but black. */
  predicate LedAgrees(led: Led, c: SlotConfig) {
    led.active ==> led.effect == c.ledEffect as int && led.brightness == SaneBrightness(c.ledEffectBrightness) && led.last == Black
  }

  /** While main works on slot `i`, its base colour is the configured one or zeroed. */
  predicate BaseIsKnown(s: State, cfg: seq<SlotConfig>, i: nat)
    requires WellSized(s) && |cfg| == MAX_SLOTS && i < MAX_SLOTS
  {
    var base := BaseShade(Save(s.slots[i].settings));
    base == BaseShade(cfg[i]) || (Hidden(s.main, i) && base == Black)
  }

  ghost predicate Tasks(s: State, cfg: seq<SlotConfig>)
    requires WellSized(s) && |cfg| == MAX_SLOTS
  {
    forall t | t in s.workers && s.workers[t].pc.Body? :: TaskAgrees(s, cfg, s.workers[t].pc.task)
  }

  ghost predicate Shows(s: State, cfg: seq<SlotConfig>)
    requires WellSized(s) && |cfg| == MAX_SLOTS
  {
    forall i | 0 <= i < MAX_SLOTS ::
      && Visible(s, i) == cfg[i] && BaseIsKnown(s, cfg, i)
      && (s.slots[i].connected ==> Ready(s, cfg, i))
      && LedAgrees(s.leds[i], cfg[i])
  }

  /** Every slot shows its configuration, and nothing else is on its way. */
  ghost predicate Settled(s: State, cfg: seq<SlotConfig>) {
    WellSized(s) && |cfg| == MAX_SLOTS && Shows(s, cfg) && Tasks(s, cfg)
  }

  /** Nothing happens that matters here. */
  ghost predicate Undisturbed(s: State, s1: State)
    requires WellSized(s)
  {
    && WellSized(s1) && s1.leds == s.leds
    && (forall i | 0 <= i < MAX_SLOTS ::
          && s1.slots[i].settings == s.slots[i].settings && (s1.slots[i].connected ==> s.slots[i].connected)
          && (Hidden(s1.main, i) <==> Hidden(s.main, i)) && (Hidden(s.main, i) ==> s1.main.saved == s.main.saved))
    && (forall t | t in s1.workers && s1.workers[t].pc.Body? ::
          s1.workers[t].pc.task.AwaitLayout? || (t in s.workers && s1.workers[t].pc == s.workers[t].pc))
  }

  lemma UndisturbedShows(s: State, s1: State, cfg: seq<SlotConfig>)
    requires Settled(s, cfg) && Undisturbed(s, s1)
    ensures Shows(s1, cfg)
  {
    forall i | 0 <= i < MAX_SLOTS ensures Visible(s1, i) == cfg[i] { assert Visible(s, i) == cfg[i]; }
  }

  lemma UndisturbedSettled(s: State, s1: State, cfg: seq<SlotConfig>)
    requires Settled(s, cfg) && Undisturbed(s, s1)
    ensures Settled(s1, cfg)
  {
    UndisturbedShows(s, s1, cfg);
    forall t | t in s1.workers && s1.workers[t].pc.Body? ensures TaskAgrees(s1, cfg, s1.workers[t].pc.task) {
      if !s1.workers[t].pc.task.AwaitLayout? { assert TaskAgrees(s, cfg, s.workers[t].pc.task); }
    }
  }

  predicate Fills(r: RegisterAction) {
    r.SaveSlot? || r.ZeroTheSlot? || r.FillSlot? || r.RestoreSlot?
  }

  lemma RegisterUndisturbed(s: State, r: RegisterAction)
    requires WellSized(s) && CanRegister(s, r) && !r.ScanSlots? && !Fills(r) && (r.Undo? ==> s.main.RegUndo?)
    ensures Undisturbed(s, DoRegister(s, r))
  {
  }

  lemma ScanUndisturbed(s: State, access: seq<bool>)
    requires WellSized(s) && Locking(s) && CanRegister(s, ScanSlots(access))
    ensures Undisturbed(s, DoRegister(s, ScanSlots(access)))
  {
    ScanChanges(s, access);
  }

  lemma WatchUndisturbed(s: State, m: MonitorAction)
    requires WellSized(s) && CanMonitor(s, m) && IsWatch(m)
    ensures Undisturbed(s, DoMonitor(s, m))
  {
  }

  lemma MonitorUndisturbed(s: State, m: MonitorAction)
    requires WellSized(s) && CanMonitor(s, m)
    ensures Undisturbed(s, DoMonitor(s, m))
  {
    if IsWatch(m) { WatchUndisturbed(s, m); }
  }

  lemma WorkUndisturbed(s: State, t: Tid, w: WorkerAction)
    requires WellSized(s) && CanWork(s, t, w)
    ensures Undisturbed(s, DoWork(s, t, w))
  {
  }

  lemma OutsideUndisturbed(s: State, o: OutsideAction)
    requires WellSized(s) && CanOutside(s, o) && Silent(Outside(o))
    ensures Undisturbed(s, DoOutside(s, o))
  {
  }

  /** The section itself: the saved configuration is the visible one until it is back in the slot. */
  lemma FillShows(s: State, r: RegisterAction, cfg: seq<SlotConfig>)
    requires Settled(s, cfg) && CanRegister(s, r) && Fills(r)
    ensures WellSized(DoRegister(s, r)) && Shows(DoRegister(s, r), cfg)
  {
    if r.RestoreSlot? { SaveRestore(s.main.saved); }
    assert Visible(s, s.main.k) == cfg[s.main.k];
  }

  lemma FillKeepsSettled(s: State, r: RegisterAction, cfg: seq<SlotConfig>)
    requires Settled(s, cfg) && CanRegister(s, r) && Fills(r)
    ensures Settled(DoRegister(s, r), cfg)
  {
    var s1, k := DoRegister(s, r), s.main.k;
    FillShows(s, r, cfg);
    assert Visible(s, k) == cfg[k];
    forall i | 0 <= i < MAX_SLOTS && Ready(s, cfg, i) ensures Ready(s1, cfg, i) {}
    forall t | t in s1.workers && s1.workers[t].pc.Body? ensures TaskAgrees(s1, cfg, s1.workers[t].pc.task) {
      assert TaskAgrees(s, cfg, s.workers[t].pc.task);
    }
  }

  lemma RegisterKeepsSettled(s: State, r: RegisterAction, cfg: seq<SlotConfig>)
    requires Locking(s) && Settled(s, cfg) && CanRegister(s, r)
    ensures Settled(DoRegister(s, r), cfg)
  {
    if r.ScanSlots? {
      ScanUndisturbed(s, r.access);
      UndisturbedSettled(s, DoRegister(s, r), cfg);
    } else if Fills(r) {
      FillKeepsSettled(s, r, cfg);
    } else {
      RegisterUndisturbed(s, r);
      UndisturbedSettled(s, DoRegister(s, r), cfg);
    }
  }

  /** Worker `t` goes on to `task` after storing `c` in slot `i`, which does not change what the slot shows. */
  ghost predicate Stores(s: State, s1: State, t: Tid, i: SlotNo, c: Settings)
    requires WellSized(s)
  {
    && WellSized(s1) && t in s.workers && t in s1.workers
    && s1.workers == s.workers[t := s.workers[t].(pc := s1.workers[t].pc)] && s1.main == s.main
    && s1.slots == s.slots[i := s.slots[i].(settings := c)]
    && BaseShade(Save(c)) == BaseShade(Save(s.slots[i].settings))
    && c.ledRequestEffect == s.slots[i].settings.ledRequestEffect
    && (Hidden(s.main, i) || Save(c) == Save(s.slots[i].settings))
  }

  lemma StoresKeepShows(s: State, s1: State, t: Tid, i: SlotNo, c: Settings, cfg: seq<SlotConfig>)
    requires Settled(s, cfg) && Stores(s, s1, t, i, c) && forall j | 0 <= j < MAX_SLOTS :: LedAgrees(s1.leds[j], cfg[j])
    ensures Shows(s1, cfg)
  {
    forall j | 0 <= j < MAX_SLOTS ensures Visible(s1, j) == cfg[j] && BaseIsKnown(s1, cfg, j) {
      assert Visible(s, j) == cfg[j] && BaseIsKnown(s, cfg, j);
    }
  }

  lemma StoresKeepSettled(s: State, s1: State, t: Tid, i: SlotNo, c: Settings, cfg: seq<SlotConfig>)
    requires Settled(s, cfg) && Stores(s, s1, t, i, c) && forall j | 0 <= j < MAX_SLOTS :: LedAgrees(s1.leds[j], cfg[j])
    requires s1.workers[t].pc.Body? ==> TaskAgrees(s1, cfg, s1.workers[t].pc.task)
    ensures Settled(s1, cfg)
  {
    StoresKeepShows(s, s1, t, i, c, cfg);
    forall u | u in s1.workers && s1.workers[u].pc.Body? ensures TaskAgrees(s1, cfg, s1.workers[u].pc.task) {
      if u != t { assert TaskAgrees(s, cfg, s.workers[u].pc.task); }
    }
  }

  /** The LED requests of slots, and the frames. */
  predicate Lights(a: BodyAction) {
    a.ReadRequest? || a.StartEffect? || a.StoreColour? || a.NewFrame? || a.StorePaint?
  }

  lemma NoLayoutChange(c: Settings)
    ensures LaidOut(c, false, false, false) == c
  {
  }

  lemma OtherBodyChanges(s: State, t: Tid, a: BodyAction)
    requires WellSized(s) && CanBody(s, t, a) && Silent(InBody(t, a)) && !Lights(a)
    ensures var s1 := DoBody(s, t, a);
      && s1 == s.(workers := s1.workers, mutex := s1.mutex)
      && s1.workers == s.workers[t := s.workers[t].(pc := BodyPc(s, t, a))]
  {
    if a.ServeLayout? {
      var i := s.workers[t].slot;
      NoLayoutChange(s.slots[i].settings);
      assert s.slots == s.slots[i := s.slots[i].(settings := s.slots[i].settings)];
    }
  }

  lemma OtherBodyStores(s: State, t: Tid, a: BodyAction)
    requires WellSized(s) && CanBody(s, t, a) && Silent(InBody(t, a)) && !Lights(a)
    ensures var s1, i := DoBody(s, t, a), s.workers[t].slot; Stores(s, s1, t, i, s.slots[i].settings) && s1.leds == s.leds
  {
    OtherBodyChanges(s, t, a);
    var i := s.workers[t].slot;
    assert s.slots == s.slots[i := s.slots[i].(settings := s.slots[i].settings)];
  }

  lemma OtherBodyAgrees(s: State, t: Tid, a: BodyAction, cfg: seq<SlotConfig>)
    requires Settled(s, cfg) && CanBody(s, t, a) && Silent(InBody(t, a)) && !Lights(a)
    ensures var s1 := DoBody(s, t, a);
      WellSized(s1) && t in s1.workers && (s1.workers[t].pc.Body? ==> TaskAgrees(s1, cfg, s1.workers[t].pc.task))
  {
    OtherBodyChanges(s, t, a);
    assert TaskAgrees(s, cfg, s.workers[t].pc.task);
  }

  lemma OtherBodyKeepsSettled(s: State, t: Tid, a: BodyAction, cfg: seq<SlotConfig>)
    requires Settled(s, cfg) && CanBody(s, t, a) && Silent(InBody(t, a)) && !Lights(a)
    ensures Settled(DoBody(s, t, a), cfg)
  {
    var i := s.workers[t].slot;
    OtherBodyStores(s, t, a);
    OtherBodyAgrees(s, t, a, cfg);
    StoresKeepSettled(s, DoBody(s, t, a), t, i, s.slots[i].settings, cfg);
  }

  /** A request is read under the mutex, so not while main works on the slot. */
  lemma ReadKeepsSettled(s: State, t: Tid, cfg: seq<SlotConfig>)
    requires Locking(s) && Settled(s, cfg) && CanBody(s, t, ReadRequest)
    ensures Settled(DoBody(s, t, ReadRequest), cfg)
  {
    var i := s.workers[t].pc.task.i;
    assert TaskAgrees(s, cfg, s.workers[t].pc.task);
    assert WorkerHolds(s.workers[t].pc);
    StoresKeepSettled(s, DoBody(s, t, ReadRequest), t, i, s.slots[i].settings.(ledRequestPending := false), cfg);
  }

  lemma StartKeepsSettled(s: State, t: Tid, cfg: seq<SlotConfig>, careful: bool)
    requires Settled(s, cfg) && Trusted(cfg, careful) && CanBody(s, t, StartEffect)
    requires careful ==> !Hidden(s.main, s.workers[t].pc.task.i)
    ensures Settled(DoBody(s, t, StartEffect), cfg)
  {
    var i, effect := s.workers[t].pc.task.i, s.workers[t].pc.task.effect;
    assert TaskAgrees(s, cfg, s.workers[t].pc.task);
    assert Visible(s, i) == cfg[i] && BaseIsKnown(s, cfg, i);
    StoresKeepSettled(s, DoBody(s, t, StartEffect), t, i, StartedMode(s.slots[i].settings, effect), cfg);
  }

  lemma SameColour(c: Settings, r: byte, g: byte, b: byte, channel: Channel)
    ensures var c1 := Coloured(c, r, g, b, channel);
      && BaseShade(Save(c1)) == BaseShade(Save(c)) && c1.ledRequestEffect == c.ledRequestEffect
      && ((r, g, b) == StoredShade(Save(c)) ==> Save(c1) == Save(c))
  {
  }

  lemma ColourGoesOn(s: State, t: Tid, cfg: seq<SlotConfig>)
    requires Settled(s, cfg) && CanBody(s, t, StoreColour)
    ensures BodyPc(s, t, StoreColour).Body? && TaskAgrees(s, cfg, BodyPc(s, t, StoreColour).task)
    ensures BodyPc(s, t, StoreColour).task.Colour? || BodyPc(s, t, StoreColour).task == After(s.workers[t].pc.task.i)
  {
    assert TaskAgrees(s, cfg, s.workers[t].pc.task);
  }

  lemma ColourKeepsSettled(s: State, t: Tid, cfg: seq<SlotConfig>)
    requires Settled(s, cfg) && CanBody(s, t, StoreColour)
    ensures Settled(DoBody(s, t, StoreColour), cfg)
  {
    var task, s1 := s.workers[t].pc.task, DoBody(s, t, StoreColour);
    var i, c := task.i, s.slots[task.i].settings;
    assert TaskAgrees(s, cfg, task);
    assert Visible(s, i) == cfg[i];
    SameColour(c, task.r, task.g, task.b, task.channel);
    ColourStores(s, t);
    ColourGoesOn(s, t, cfg);
    StoresKeepSettled(s, s1, t, i, Coloured(c, task.r, task.g, task.b, task.channel), cfg);
  }

  lemma ColourStores(s: State, t: Tid)
    requires WellSized(s) && CanBody(s, t, StoreColour)
    ensures var s1, task := DoBody(s, t, StoreColour), s.workers[t].pc.task;
      && WellSized(s1) && s1.main == s.main && s1.leds == s.leds
      && t in s1.workers && s1.workers == s.workers[t := s.workers[t].(pc := s1.workers[t].pc)]
      && s1.slots == s.slots[task.i := s.slots[task.i].(settings := Coloured(s.slots[task.i].settings, task.r, task.g, task.b, task.channel))]
      && s1.workers[t].pc == BodyPc(s, t, StoreColour)
  {
  }

  /** A frame of a running effect would be black, as the last one, so there is none. */
  lemma NoFrames(s: State, t: Tid, a: BodyAction, cfg: seq<SlotConfig>)
    requires Settled(s, cfg) && CanBody(s, t, a) && forall i | 0 <= i < MAX_SLOTS :: Quiet(cfg[i])
    ensures !a.NewFrame? && !a.StorePaint?
  {
    var k := s.workers[t].slot;
    assert TaskAgrees(s, cfg, s.workers[t].pc.task);
    if a.NewFrame? {
      assert Quiet(cfg[k]) && LedAgrees(s.leds[k], cfg[k]) && BaseIsKnown(s, cfg, k);
      BlackStaysBlack(s.leds[k].brightness);
      StaysBlack(s.leds[k].effect, Base(s.slots[k].settings), s.leds[k].brightness, a.look);
    }
  }

  lemma BodyKeepsSettled(s: State, t: Tid, a: BodyAction, cfg: seq<SlotConfig>, careful: bool)
    requires Locking(s) && Settled(s, cfg) && Trusted(cfg, careful) && CanBody(s, t, a) && Fine(s, InBody(t, a), careful)
    ensures Settled(DoBody(s, t, a), cfg)
  {
    NoFrames(s, t, a, cfg);
    match a
    case ReadRequest => ReadKeepsSettled(s, t, cfg);
    case StartEffect => StartKeepsSettled(s, t, cfg, careful);
    case StoreColour => ColourKeepsSettled(s, t, cfg);
    case _ => OtherBodyKeepsSettled(s, t, a, cfg);
  }

  lemma StepKeepsSettled(s: State, step: Step, cfg: seq<SlotConfig>, careful: bool)
    requires Locking(s) && Settled(s, cfg) && Trusted(cfg, careful) && Enabled(s, step) && Fine(s, step, careful)
    ensures Settled(Apply(s, step), cfg)
  {
    match step
    case Register(r) => RegisterKeepsSettled(s, r, cfg);
    case Monitor(m) => MonitorUndisturbed(s, m); UndisturbedSettled(s, Apply(s, step), cfg);
    case Work(t, w) => WorkUndisturbed(s, t, w); UndisturbedSettled(s, Apply(s, step), cfg);
    case InBody(t, a) => BodyKeepsSettled(s, t, a, cfg, careful);
    case Outside(o) => OutsideUndisturbed(s, o); UndisturbedSettled(s, Apply(s, step), cfg);
  }

  lemma SettledIsUnaltered(s: State, step: Step, cfg: seq<SlotConfig>)
    requires Inv(s) && Enabled(s, step) && Settled(s, cfg) && Settled(Apply(s, step), cfg)
    ensures !Alters(s, step)
  {
    var store := StoredBy(s, step);
    if store.Some? { VisibleChangesExactly(s, step, store.value.slot); }
  }

  lemma {:induction false} SettledRunIsUnaltered(s: State, run: seq<Step>, cfg: seq<SlotConfig>, careful: bool)
    requires Inv(s) && Settled(s, cfg) && Trusted(cfg, careful) && Schedule(s, run, careful)
    ensures Unaltered(s, run)
    decreases |run|
  {
    if run != [] {
      StepKeepsSettled(s, run[0], cfg, careful);
      SettledIsUnaltered(s, run[0], cfg);
      StepKeepsInv(s, run[0]);
      SettledRunIsUnaltered(Apply(s, run[0]), run[1..], cfg, careful);
    }
  }

  /** Over every run without client writes and layout requests, from configurations without a known effect or
      static in their base colour: the profile stays in step and clean, provided that no LED request is started
      while main works on its slot, or that those base colours are black. */
  lemma TrustedNeverDirties(s: State, run: seq<Step>, careful: bool)
    requires Init(s) && InStep(s) && Trusted(Configs(s.slots), careful) && Schedule(s, run, careful)
    ensures InStep(Run(s, run)) && Run(s, run).active == s.active && Run(s, run).dirty == s.dirty
  {
    InitInv(s);
    SettledRunIsUnaltered(s, run, Configs(s.slots), careful);
    UnalteredNeverDirties(s, run);
  }
}
