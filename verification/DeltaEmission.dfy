/** Forwarding a Switch Pro to its virtual device: only fields that differ from a cache are written,
    and still the device always shows what writing every field would show. */
module DeltaEmission {
  import opened Records
  import opened Keymap

  /** The event codes of the virtual device. */
  datatype Code =
    | BtnSouth | BtnEast | BtnNorth | BtnWest | BtnTl | BtnTr | BtnSelect | BtnStart
    | BtnMode | BtnThumbL | BtnThumbR | BtnTl2 | BtnTr2
    | AbsX | AbsY | AbsRx | AbsRy | AbsZ | AbsRz | AbsHat0X | AbsHat0Y

  /** What a slot holds when it is forwarded. */
  datatype Frame = Frame(
    buttons: Buttons,
    lx: int, ly: int, rx: int, ry: int,
    lt: byte, rt: byte,
    l2Down: bool, r2Down: bool,       // the physical trigger buttons
    l2Direct: bool, r2Direct: bool,   // whether the keymap leaves the physical trigger its own button
    digital: bool)

  /** What has been written so far; a field never written shows 0. */
  type Device = map<Code, int>

  function Show(d: Device, c: Code): int {
    if c in d then d[c] else 0
  }

  datatype Event = Put(code: Code, value: int) | Syn

  /** The device after some more events. */
  function Replay(d: Device, log: seq<Event>): Device {
    if log == [] then d
    else
      var before, e := Replay(d, log[..|log| - 1]), log[|log| - 1];
      if e.Put? then before[e.code := e.value] else before
  }

  // ----- what a field should show ---------------------------------------------------------------

  /** `get_trigger_axis_value` for one trigger. */
  function TriggerAxis(raw: byte, direct: bool, logical: byte): int {
    if raw > 0 then (if direct then raw as int else 0)
    else if logical != 0 then 255
    else 0
  }

  /** The same choice in the DualShock and DualSense translators, which ask the debounced button
      whether the trigger is pressed. */
  function TriggerAxisOfButton(pressed: bool, raw: byte, direct: bool, logical: byte): int {
    if pressed then (if direct then raw as int else 0)
    else if logical != 0 then 255
    else 0
  }

  /** The two choices agree, for every keymap and every logical button possible with it, exactly when
      the debounced button is pressed just when the raw value is not 0. */
  lemma TriggerChoicesAgree(pressed: bool, raw: byte)
    ensures (forall direct: bool, logical: byte | direct ==> logical != 0 || !pressed ::
               TriggerAxis(raw, direct, logical) == TriggerAxisOfButton(pressed, raw, direct, logical))
            <==> pressed == (raw > 0)
  {
    if pressed && raw == 0 {
      assert TriggerAxis(raw, false, 1) != TriggerAxisOfButton(pressed, raw, false, 1);
    }
    if !pressed && raw > 0 {
      assert TriggerAxis(raw, false, 1) != TriggerAxisOfButton(pressed, raw, false, 1);
    }
  }

  function Field(f: Frame, c: Code): int {
    match c
    case BtnSouth => f.buttons.cross as int
    case BtnEast => f.buttons.circle as int
    case BtnNorth => f.buttons.square as int
    case BtnWest => f.buttons.triangle as int
    case BtnTl => f.buttons.l1 as int
    case BtnTr => f.buttons.r1 as int
    case BtnSelect => f.buttons.share as int
    case BtnStart => f.buttons.options as int
    case BtnMode => f.buttons.ps as int
    case BtnThumbL => f.buttons.l3 as int
    case BtnThumbR => f.buttons.r3 as int
    case BtnTl2 => f.buttons.l2 as int
    case BtnTr2 => f.buttons.r2 as int
    case AbsX => f.lx
    case AbsY => f.ly
    case AbsRx => f.rx
    case AbsRy => f.ry
    case AbsZ => TriggerAxis(f.lt, f.l2Direct, f.buttons.l2)
    case AbsRz => TriggerAxis(f.rt, f.r2Direct, f.buttons.r2)
    case AbsHat0X => f.buttons.hatX
    case AbsHat0Y => f.buttons.hatY
  }

  // ----- full and incremental emission ----------------------------------------------------------

  /** The `last_*` fields of a context. */
  datatype Cache = Cache(
    cross: int, circle: int, square: int, triangle: int, l1: int, r1: int, share: int, options: int,
    ps: int, l3: int, r3: int, l2: int, r2: int,
    lx: int, ly: int, rx: int, ry: int, lt: int, rt: int, hatX: int, hatY: int)

  const FreshCache := Cache(0, 0, 0, 0, 0, 0, 0, 0, 0, 0, 0, 0, 0, 0, 0, 0, 0, -1, -1, 0, 0)

  function Cached(last: Cache, c: Code): int {
    match c
    case BtnSouth => last.cross
    case BtnEast => last.circle
    case BtnNorth => last.square
    case BtnWest => last.triangle
    case BtnTl => last.l1
    case BtnTr => last.r1
    case BtnSelect => last.share
    case BtnStart => last.options
    case BtnMode => last.ps
    case BtnThumbL => last.l3
    case BtnThumbR => last.r3
    case BtnTl2 => last.l2
    case BtnTr2 => last.r2
    case AbsX => last.lx
    case AbsY => last.ly
    case AbsRx => last.rx
    case AbsRy => last.ry
    case AbsZ => last.lt
    case AbsRz => last.rt
    case AbsHat0X => last.hatX
    case AbsHat0Y => last.hatY
  }

  /** One `if (value != cached)` block. */
  function BlockOf(log: seq<Event>, c: Code, value: int, cached: int): seq<Event> {
    if value != cached then log + [Put(c, value)] else log
  }

  const FACES := [BtnSouth, BtnEast, BtnNorth, BtnWest]
  const SHOULDERS := [BtnTl, BtnTr, BtnSelect, BtnStart]
  const THUMBS := [BtnMode, BtnThumbL, BtnThumbR]
  const STICKS := [AbsX, AbsY, AbsRx, AbsRy]
  const HAT := [AbsHat0X, AbsHat0Y]

  function TriggerCodes(digital: bool): seq<Code> {
    if digital then [BtnTl2, BtnTr2] else [AbsZ, AbsRz]
  }

  /** The order of `nsw_read_events`. */
  function NswOrder(digital: bool): seq<Code> {
    FACES + SHOULDERS + THUMBS + STICKS + TriggerCodes(digital) + HAT
  }

  const SCREEN_FACES := [BtnWest, BtnNorth, BtnSouth, BtnEast, AbsHat0X, AbsHat0Y]
  const OTHERS := [BtnTl, BtnTr, BtnSelect, BtnStart, BtnThumbL, BtnThumbR, BtnMode]

  function AnalogCodes(digital: bool): seq<Code> {
    if digital then [] else [AbsZ, AbsRz]
  }

  function DigitalCodes(digital: bool): seq<Code> {
    if digital then [BtnTl2, BtnTr2] else []
  }

  /** The order of the translators in `drivers.c`, which write everything: the analog triggers follow
      the sticks, the digital ones come last. */
  function FullOrder(digital: bool): seq<Code> {
    STICKS + AnalogCodes(digital) + SCREEN_FACES + OTHERS + DigitalCodes(digital)
  }

  /** The log after the blocks of the codes in `order`, for a forward that starts with the cache `last`. */
  function Blocks(log: seq<Event>, last: Cache, f: Frame, order: seq<Code>): seq<Event> {
    if order == [] then log
    else
      var c := order[|order| - 1];
      BlockOf(Blocks(log, last, f, order[..|order| - 1]), c, Field(f, c), Cached(last, c))
  }

  /** The log after one incremental forward. */
  function DeltaLog(log: seq<Event>, last: Cache, f: Frame): seq<Event> {
    var puts := Blocks(log, last, f, NswOrder(f.digital));
    if |puts| > |log| then puts + [Syn] else puts
  }

  /** How a full emission decides whether a trigger is pressed: by its raw value or by its debounced button. */
  datatype Choice = ByValue | ByButton

  function FullField(f: Frame, c: Code, way: Choice): int {
    if way.ByButton? && c == AbsZ then TriggerAxisOfButton(f.l2Down, f.lt, f.l2Direct, f.buttons.l2)
    else if way.ByButton? && c == AbsRz then TriggerAxisOfButton(f.r2Down, f.rt, f.r2Direct, f.buttons.r2)
    else Field(f, c)
  }

  /** The log after the writes of the codes in `order`, and after a full emission. */
  function Puts(log: seq<Event>, f: Frame, way: Choice, order: seq<Code>): seq<Event> {
    if order == [] then log
    else
      var c := order[|order| - 1];
      Puts(log, f, way, order[..|order| - 1]) + [Put(c, FullField(f, c, way))]
  }

  function FullLog(log: seq<Event>, f: Frame, way: Choice): seq<Event> {
    Puts(log, f, way, FullOrder(f.digital)) + [Syn]
  }

  /** The cache after a forward: the fields of the other trigger mode keep what they had. */
  function NewCache(last: Cache, f: Frame): Cache {
    Cache(f.buttons.cross as int, f.buttons.circle as int, f.buttons.square as int, f.buttons.triangle as int,
          f.buttons.l1 as int, f.buttons.r1 as int, f.buttons.share as int, f.buttons.options as int,
          f.buttons.ps as int, f.buttons.l3 as int, f.buttons.r3 as int,
          if f.digital then f.buttons.l2 as int else last.l2, if f.digital then f.buttons.r2 as int else last.r2,
          f.lx, f.ly, f.rx, f.ry,
          if f.digital then last.lt else Field(f, AbsZ), if f.digital then last.rt else Field(f, AbsRz),
          f.buttons.hatX, f.buttons.hatY)
  }

  // ----- the Switch Pro forward in place --------------------------------------------------------

  lemma OneMoreBlock(log: seq<Event>, last: Cache, f: Frame, done: seq<Code>, c: Code)
    ensures Blocks(log, last, f, done + [c]) == BlockOf(Blocks(log, last, f, done), c, Field(f, c), Cached(last, c))
  {
    assert (done + [c])[..|done|] == done;
  }

  class Forwarder {
    var log: seq<Event>
    var last: Cache
    var sent: bool

    constructor ()
      ensures log == [] && last == FreshCache
    {
      log, last, sent := [], FreshCache, false;
    }

    /** The blocks of `done` are done; `s` and `at` are the log and the cache at the start of the forward. */
    ghost predicate Logged(s: seq<Event>, at: Cache, f: Frame, done: seq<Code>)
      reads this
    {
      log == Blocks(s, at, f, done) && |log| >= |s| && (sent <==> |log| > |s|)
    }

    /** One `if (value != cached)` block. */
    method Emit(c: Code, value: int, cached: int, ghost f: Frame, ghost s: seq<Event>, ghost at: Cache,
                ghost done: seq<Code>) returns (ghost now: seq<Code>)
      requires Logged(s, at, f, done) && value == Field(f, c) && cached == Cached(at, c)
      modifies this`log, this`sent
      ensures now == done + [c] && Logged(s, at, f, now)
    {
      now := done + [c];
      OneMoreBlock(s, at, f, done, c);
      if value != cached {
        log := log + [Put(c, value)];
        sent := true;
      }
    }

    /** The face buttons. */
    method EmitFaces(f: Frame, ghost s: seq<Event>, ghost at: Cache, ghost done: seq<Code>)
      requires Logged(s, at, f, done)
      requires last.cross == at.cross && last.circle == at.circle && last.square == at.square && last.triangle == at.triangle
      modifies this
      ensures Logged(s, at, f, done + FACES)
      ensures last == old(last).(cross := f.buttons.cross as int, circle := f.buttons.circle as int, square := f.buttons.square as int, triangle := f.buttons.triangle as int)
    {
      ghost var now := done;
      now := Emit(BtnSouth, f.buttons.cross as int, last.cross, f, s, at, now);
      now := Emit(BtnEast, f.buttons.circle as int, last.circle, f, s, at, now);
      now := Emit(BtnNorth, f.buttons.square as int, last.square, f, s, at, now);
      now := Emit(BtnWest, f.buttons.triangle as int, last.triangle, f, s, at, now);
      assert now == done + FACES;
      last := last.(cross := f.buttons.cross as int, circle := f.buttons.circle as int, square := f.buttons.square as int, triangle := f.buttons.triangle as int);
    }

    /** The shoulder buttons and the two in the middle. */
    method EmitShoulders(f: Frame, ghost s: seq<Event>, ghost at: Cache, ghost done: seq<Code>)
      requires Logged(s, at, f, done)
      requires last.l1 == at.l1 && last.r1 == at.r1 && last.share == at.share && last.options == at.options
      modifies this
      ensures Logged(s, at, f, done + SHOULDERS)
      ensures last == old(last).(l1 := f.buttons.l1 as int, r1 := f.buttons.r1 as int, share := f.buttons.share as int, options := f.buttons.options as int)
    {
      ghost var now := done;
      now := Emit(BtnTl, f.buttons.l1 as int, last.l1, f, s, at, now);
      now := Emit(BtnTr, f.buttons.r1 as int, last.r1, f, s, at, now);
      now := Emit(BtnSelect, f.buttons.share as int, last.share, f, s, at, now);
      now := Emit(BtnStart, f.buttons.options as int, last.options, f, s, at, now);
      assert now == done + SHOULDERS;
      last := last.(l1 := f.buttons.l1 as int, r1 := f.buttons.r1 as int, share := f.buttons.share as int, options := f.buttons.options as int);
    }

    /** The home button and the stick buttons. */
    method EmitThumbs(f: Frame, ghost s: seq<Event>, ghost at: Cache, ghost done: seq<Code>)
      requires Logged(s, at, f, done)
      requires last.ps == at.ps && last.l3 == at.l3 && last.r3 == at.r3
      modifies this
      ensures Logged(s, at, f, done + THUMBS)
      ensures last == old(last).(ps := f.buttons.ps as int, l3 := f.buttons.l3 as int, r3 := f.buttons.r3 as int)
    {
      ghost var now := done;
      now := Emit(BtnMode, f.buttons.ps as int, last.ps, f, s, at, now);
      now := Emit(BtnThumbL, f.buttons.l3 as int, last.l3, f, s, at, now);
      now := Emit(BtnThumbR, f.buttons.r3 as int, last.r3, f, s, at, now);
      assert now == done + THUMBS;
      last := last.(ps := f.buttons.ps as int, l3 := f.buttons.l3 as int, r3 := f.buttons.r3 as int);
    }

    /** The sticks. */
    method EmitSticks(f: Frame, ghost s: seq<Event>, ghost at: Cache, ghost done: seq<Code>)
      requires Logged(s, at, f, done)
      requires last.lx == at.lx && last.ly == at.ly && last.rx == at.rx && last.ry == at.ry
      modifies this
      ensures Logged(s, at, f, done + STICKS)
      ensures last == old(last).(lx := f.lx, ly := f.ly, rx := f.rx, ry := f.ry)
    {
      ghost var now := done;
      now := Emit(AbsX, f.lx, last.lx, f, s, at, now);
      now := Emit(AbsY, f.ly, last.ly, f, s, at, now);
      now := Emit(AbsRx, f.rx, last.rx, f, s, at, now);
      now := Emit(AbsRy, f.ry, last.ry, f, s, at, now);
      assert now == done + STICKS;
      last := last.(lx := f.lx, ly := f.ly, rx := f.rx, ry := f.ry);
    }

    /** The triggers, as axes or as buttons. */
    method EmitTriggers(f: Frame, ghost s: seq<Event>, ghost at: Cache, ghost done: seq<Code>)
      requires Logged(s, at, f, done)
      requires last.lt == at.lt && last.rt == at.rt && last.l2 == at.l2 && last.r2 == at.r2
      modifies this
      ensures Logged(s, at, f, done + TriggerCodes(f.digital))
      ensures last == if f.digital then old(last).(l2 := f.buttons.l2 as int, r2 := f.buttons.r2 as int)
                      else old(last).(lt := Field(f, AbsZ), rt := Field(f, AbsRz))
    {
      ghost var now := done;
      if !f.digital {
        var left := TriggerAxis(f.lt, f.l2Direct, f.buttons.l2);
        var right := TriggerAxis(f.rt, f.r2Direct, f.buttons.r2);
        now := Emit(AbsZ, left, last.lt, f, s, at, now);
        now := Emit(AbsRz, right, last.rt, f, s, at, now);
        last := last.(lt := left, rt := right);
      } else {
        now := Emit(BtnTl2, f.buttons.l2 as int, last.l2, f, s, at, now);
        now := Emit(BtnTr2, f.buttons.r2 as int, last.r2, f, s, at, now);
        last := last.(l2 := f.buttons.l2 as int, r2 := f.buttons.r2 as int);
      }
      assert now == done + TriggerCodes(f.digital);
    }

    /** The hat. */
    method EmitHat(f: Frame, ghost s: seq<Event>, ghost at: Cache, ghost done: seq<Code>)
      requires Logged(s, at, f, done)
      requires last.hatX == at.hatX && last.hatY == at.hatY
      modifies this
      ensures Logged(s, at, f, done + HAT)
      ensures last == old(last).(hatX := f.buttons.hatX, hatY := f.buttons.hatY)
    {
      ghost var now := done;
      now := Emit(AbsHat0X, f.buttons.hatX, last.hatX, f, s, at, now);
      now := Emit(AbsHat0Y, f.buttons.hatY, last.hatY, f, s, at, now);
      assert now == done + HAT;
      last := last.(hatX := f.buttons.hatX, hatY := f.buttons.hatY);
    }

    /** The uinput part of `nsw_read_events`. */
    method Forward(f: Frame)
      modifies this
      ensures log == DeltaLog(old(log), old(last), f)
      ensures last == NewCache(old(last), f)
    {
      ghost var s, at := log, last;
      sent := false;
      EmitFaces(f, s, at, []);
      EmitShoulders(f, s, at, [] + FACES);
      EmitThumbs(f, s, at, [] + FACES + SHOULDERS);
      EmitSticks(f, s, at, [] + FACES + SHOULDERS + THUMBS);
      EmitTriggers(f, s, at, [] + FACES + SHOULDERS + THUMBS + STICKS);
      EmitHat(f, s, at, [] + FACES + SHOULDERS + THUMBS + STICKS + TriggerCodes(f.digital));
      assert [] + FACES == FACES;
      if sent {
        log := log + [Syn];
      }
    }
  }

  // ----- the full form in place -----------------------------------------------------------------

  lemma OneMorePut(log: seq<Event>, f: Frame, way: Choice, done: seq<Code>, c: Code)
    ensures Puts(log, f, way, done + [c]) == Puts(log, f, way, done) + [Put(c, FullField(f, c, way))]
  {
    assert (done + [c])[..|done|] == done;
  }

  class Translator {
    var log: seq<Event>

    constructor ()
      ensures log == []
    {
      log := [];
    }

    /** The writes of `done` are done; `s` is the log at the start. */
    ghost predicate Logged(s: seq<Event>, f: Frame, done: seq<Code>)
      reads this
    {
      log == Puts(s, f, ByButton, done)
    }

    method Emit(c: Code, value: int, ghost f: Frame, ghost s: seq<Event>, ghost done: seq<Code>) returns (ghost now: seq<Code>)
      requires Logged(s, f, done) && value == FullField(f, c, ByButton)
      modifies this
      ensures now == done + [c] && Logged(s, f, now)
    {
      now := done + [c];
      OneMorePut(s, f, ByButton, done, c);
      log := log + [Put(c, value)];
    }

    /** One trigger axis; here the debounced button decides. */
    method TriggerValue(pressed: bool, raw: byte, direct: bool, logical: byte) returns (value: int)
      ensures value == TriggerAxisOfButton(pressed, raw, direct, logical)
    {
      value := 0;
      if pressed {
        if direct { value := raw as int; }
      } else if logical != 0 {
        value := 255;
      }
    }

    method EmitSticks(f: Frame, ghost s: seq<Event>, ghost done: seq<Code>)
      requires Logged(s, f, done)
      modifies this
      ensures Logged(s, f, done + STICKS)
    {
      ghost var now := Emit(AbsX, f.lx, f, s, done);
      now := Emit(AbsY, f.ly, f, s, now);
      now := Emit(AbsRx, f.rx, f, s, now);
      now := Emit(AbsRy, f.ry, f, s, now);
      assert now == done + STICKS;
    }

    method EmitAnalog(f: Frame, ghost s: seq<Event>, ghost done: seq<Code>)
      requires Logged(s, f, done)
      modifies this
      ensures Logged(s, f, done + AnalogCodes(f.digital))
    {
      ghost var now := done;
      if !f.digital {
        var left := TriggerValue(f.l2Down, f.lt, f.l2Direct, f.buttons.l2);
        var right := TriggerValue(f.r2Down, f.rt, f.r2Direct, f.buttons.r2);
        assert left == FullField(f, AbsZ, ByButton) && right == FullField(f, AbsRz, ByButton);
        now := Emit(AbsZ, left, f, s, now);
        now := Emit(AbsRz, right, f, s, now);
        assert now == done + [AbsZ, AbsRz];
      }
      assert now == done + AnalogCodes(f.digital);
    }

    /** The face buttons and the hat. */
    method EmitFaces(f: Frame, ghost s: seq<Event>, ghost done: seq<Code>)
      requires Logged(s, f, done)
      modifies this
      ensures Logged(s, f, done + SCREEN_FACES)
    {
      ghost var now := Emit(BtnWest, f.buttons.triangle as int, f, s, done);
      now := Emit(BtnNorth, f.buttons.square as int, f, s, now);
      now := Emit(BtnSouth, f.buttons.cross as int, f, s, now);
      now := Emit(BtnEast, f.buttons.circle as int, f, s, now);
      now := Emit(AbsHat0X, f.buttons.hatX, f, s, now);
      now := Emit(AbsHat0Y, f.buttons.hatY, f, s, now);
      assert now == done + SCREEN_FACES;
    }

    /** The other buttons. */
    method EmitOthers(f: Frame, ghost s: seq<Event>, ghost done: seq<Code>)
      requires Logged(s, f, done)
      modifies this
      ensures Logged(s, f, done + OTHERS)
    {
      ghost var now := Emit(BtnTl, f.buttons.l1 as int, f, s, done);
      now := Emit(BtnTr, f.buttons.r1 as int, f, s, now);
      now := Emit(BtnSelect, f.buttons.share as int, f, s, now);
      now := Emit(BtnStart, f.buttons.options as int, f, s, now);
      now := Emit(BtnThumbL, f.buttons.l3 as int, f, s, now);
      now := Emit(BtnThumbR, f.buttons.r3 as int, f, s, now);
      now := Emit(BtnMode, f.buttons.ps as int, f, s, now);
      assert now == done + OTHERS;
    }

    method EmitDigital(f: Frame, ghost s: seq<Event>, ghost done: seq<Code>)
      requires Logged(s, f, done)
      modifies this
      ensures Logged(s, f, done + DigitalCodes(f.digital))
    {
      ghost var now := done;
      if f.digital {
        now := Emit(BtnTl2, f.buttons.l2 as int, f, s, now);
        now := Emit(BtnTr2, f.buttons.r2 as int, f, s, now);
      }
      assert now == done + DigitalCodes(f.digital);
    }

    /** The uinput part of `translate_ds4` and `translate_dualsense`. */
    method Forward(f: Frame)
      modifies this
      ensures log == FullLog(old(log), f, ByButton)
    {
      ghost var s := log;
      EmitSticks(f, s, []);
      EmitAnalog(f, s, [] + STICKS);
      EmitFaces(f, s, [] + STICKS + AnalogCodes(f.digital));
      EmitOthers(f, s, [] + STICKS + AnalogCodes(f.digital) + SCREEN_FACES);
      EmitDigital(f, s, [] + STICKS + AnalogCodes(f.digital) + SCREEN_FACES + OTHERS);
      assert [] + STICKS == STICKS;
      log := log + [Syn];
    }
  }

  // ----- refinement -----------------------------------------------------------------------------

  /** The fields of the current trigger mode. */
  predicate Shown(digital: bool, c: Code) {
    match c
    case AbsZ => !digital
    case AbsRz => !digital
    case BtnTl2 => digital
    case BtnTr2 => digital
    case _ => true
  }

  /** The fields of both modes, without the sticks. */
  predicate Common(c: Code) {
    !(c.AbsX? || c.AbsY? || c.AbsRx? || c.AbsRy? || c.AbsZ? || c.AbsRz? || c.BtnTl2? || c.BtnTr2?)
  }

  lemma NswButtons(c: Code)
    ensures c in FACES + SHOULDERS + THUMBS + HAT <==> Common(c)
  {
  }

  lemma FullButtons(c: Code)
    ensures c in SCREEN_FACES + OTHERS <==> Common(c)
  {
  }

  lemma SticksAndTriggers(digital: bool, c: Code)
    ensures c in STICKS || c in TriggerCodes(digital) <==> Shown(digital, c) && !Common(c)
    ensures c in TriggerCodes(digital) <==> c in AnalogCodes(digital) || c in DigitalCodes(digital)
  {
  }

  /** Both orders consist of the fields of the mode. */
  lemma NswOrderIsShown(digital: bool, c: Code)
    ensures c in NswOrder(digital) <==> Shown(digital, c)
  {
    NswButtons(c);
    SticksAndTriggers(digital, c);
    Parts(FACES + SHOULDERS + THUMBS, STICKS, TriggerCodes(digital), HAT, c);
    if Common(c) { assert Shown(digital, c); }
  }

  lemma FullOrderIsShown(digital: bool, c: Code)
    ensures c in FullOrder(digital) <==> Shown(digital, c)
  {
    FullButtons(c);
    SticksAndTriggers(digital, c);
    if Common(c) { assert Shown(digital, c); }
  }

  lemma Parts(a: seq<Code>, b: seq<Code>, c: seq<Code>, d: seq<Code>, x: Code)
    ensures x in a + b + c + d <==> x in a || x in b || x in c || x in d
  {
  }

  /** What the device shows in field `c` after a log. */
  function Now(log: seq<Event>, c: Code): int {
    Show(Replay(map[], log), c)
  }

  lemma OneMore(log: seq<Event>, e: Event, c: Code)
    ensures Now(log + [e], c) == if e.Put? && e.code == c then e.value else Now(log, c)
  {
    assert (log + [e])[..|log|] == log;
  }

  /** The writes of some codes show just their fields. */
  lemma {:induction false} PutsShow(log: seq<Event>, f: Frame, way: Choice, order: seq<Code>, c: Code)
    ensures Now(Puts(log, f, way, order), c) == if c in order then FullField(f, c, way) else Now(log, c)
  {
    if order != [] {
      var rest, x := order[..|order| - 1], order[|order| - 1];
      assert order == rest + [x];
      PutsShow(log, f, way, rest, c);
      OneMore(Puts(log, f, way, rest), Put(x, FullField(f, x, way)), c);
    }
  }

  /** The cache never claims that the device shows something it does not. */
  predicate HonestAbout(log: seq<Event>, last: Cache, c: Code) {
    var m, v := Cached(last, c), Now(log, c);
    m == v || ((c == AbsZ || c == AbsRz) && m == -1 && v == 0)
  }

  ghost predicate Honest(log: seq<Event>, last: Cache) {
    forall c: Code :: HonestAbout(log, last, c)
  }

  /** A trigger axis is never the -1 of a fresh cache. */
  lemma AxisInRange(f: Frame, c: Code)
    ensures c == AbsZ || c == AbsRz ==> 0 <= Field(f, c) <= 255
  {
  }

  lemma SkippedIsShown(log: seq<Event>, last: Cache, f: Frame, c: Code)
    requires HonestAbout(log, last, c) && Field(f, c) == Cached(last, c)
    ensures Now(log, c) == Field(f, c)
  {
    AxisInRange(f, c);
  }

  /** The blocks of some codes, from an honest cache, show their fields just as well. */
  lemma {:induction false} BlocksShow(log: seq<Event>, last: Cache, f: Frame, order: seq<Code>, c: Code)
    requires HonestAbout(log, last, c)
    ensures Now(Blocks(log, last, f, order), c) == if c in order then Field(f, c) else Now(log, c)
  {
    if order != [] {
      var rest, x := order[..|order| - 1], order[|order| - 1];
      assert order == rest + [x];
      BlocksShow(log, last, f, rest, c);
      OneMore(Blocks(log, last, f, rest), Put(x, Field(f, x)), c);
      if x == c && Field(f, c) == Cached(last, c) {
        SkippedIsShown(log, last, f, c);
      }
    }
  }

  lemma {:induction false} BlocksGrow(log: seq<Event>, last: Cache, f: Frame, order: seq<Code>)
    ensures log <= Blocks(log, last, f, order)
    ensures forall i | |log| <= i < |Blocks(log, last, f, order)| :: Blocks(log, last, f, order)[i].Put?
  {
    if order != [] { BlocksGrow(log, last, f, order[..|order| - 1]); }
  }

  lemma DeltaShows(log: seq<Event>, last: Cache, f: Frame, c: Code)
    requires HonestAbout(log, last, c)
    ensures Now(DeltaLog(log, last, f), c) == if Shown(f.digital, c) then Field(f, c) else Now(log, c)
  {
    BlocksShow(log, last, f, NswOrder(f.digital), c);
    NswOrderIsShown(f.digital, c);
    OneMore(Blocks(log, last, f, NswOrder(f.digital)), Syn, c);
  }

  /** A full emission shows the fields of its mode; the others stay. */
  lemma FullShows(log: seq<Event>, f: Frame, way: Choice, c: Code)
    ensures Now(FullLog(log, f, way), c) == if Shown(f.digital, c) then FullField(f, c, way) else Now(log, c)
  {
    PutsShow(log, f, way, FullOrder(f.digital), c);
    FullOrderIsShown(f.digital, c);
    OneMore(Puts(log, f, way, FullOrder(f.digital)), Syn, c);
  }

  /** What the translators show: the fields of the frame, but with the debounced trigger button deciding whether a
      trigger is pulled. */
  lemma TranslatorShows(log: seq<Event>, f: Frame, c: Code)
    ensures Shown(f.digital, c) && c != AbsZ && c != AbsRz ==> Now(FullLog(log, f, ByButton), c) == Field(f, c)
    ensures !f.digital && c == AbsZ && f.l2Down ==> Now(FullLog(log, f, ByButton), c) == if f.l2Direct then f.lt as int else 0
    ensures !f.digital && c == AbsRz && f.r2Down ==> Now(FullLog(log, f, ByButton), c) == if f.r2Direct then f.rt as int else 0
    ensures !f.digital && c == AbsZ && !f.l2Down ==> Now(FullLog(log, f, ByButton), c) == if f.buttons.l2 != 0 then 255 else 0
    ensures !f.digital && c == AbsRz && !f.r2Down ==> Now(FullLog(log, f, ByButton), c) == if f.buttons.r2 != 0 then 255 else 0
  {
    FullShows(log, f, ByButton, c);
  }

  lemma NewCacheHolds(last: Cache, f: Frame, c: Code)
    ensures Cached(NewCache(last, f), c) == if Shown(f.digital, c) then Field(f, c) else Cached(last, c)
  {
  }

  lemma StaysHonest(log: seq<Event>, last: Cache, f: Frame)
    requires Honest(log, last)
    ensures Honest(DeltaLog(log, last, f), NewCache(last, f))
  {
    forall c: Code ensures HonestAbout(DeltaLog(log, last, f), NewCache(last, f), c) {
      assert HonestAbout(log, last, c);
      NewCacheHolds(last, f, c);
      DeltaShows(log, last, f, c);
    }
  }

  // ----- whole runs -----------------------------------------------------------------------------

  /** Log and cache after the first `k` forwards of a fresh context. */
  function DeltaRun(frames: seq<Frame>, k: nat): (seq<Event>, Cache)
    requires k <= |frames|
  {
    if k == 0 then ([], FreshCache)
    else
      var (log, last) := DeltaRun(frames, k - 1);
      (DeltaLog(log, last, frames[k - 1]), NewCache(last, frames[k - 1]))
  }

  function FullRun(frames: seq<Frame>, k: nat, way: Choice): seq<Event>
    requires k <= |frames|
  {
    if k == 0 then [] else FullLog(FullRun(frames, k - 1, way), frames[k - 1], way)
  }

  lemma {:induction false} RunIsHonest(frames: seq<Frame>, k: nat)
    requires k <= |frames|
    ensures Honest(DeltaRun(frames, k).0, DeltaRun(frames, k).1)
  {
    if k == 0 {
      forall c: Code ensures HonestAbout([], FreshCache, c) {}
    } else {
      RunIsHonest(frames, k - 1);
      StaysHonest(DeltaRun(frames, k - 1).0, DeltaRun(frames, k - 1).1, frames[k - 1]);
    }
  }

  lemma DeltaRunShows(frames: seq<Frame>, k: nat, c: Code)
    requires 0 < k <= |frames|
    ensures Now(DeltaRun(frames, k).0, c) ==
            if Shown(frames[k - 1].digital, c) then Field(frames[k - 1], c) else Now(DeltaRun(frames, k - 1).0, c)
  {
    var (log, last) := DeltaRun(frames, k - 1);
    RunIsHonest(frames, k - 1);
    assert HonestAbout(log, last, c);
    DeltaShows(log, last, frames[k - 1], c);
  }

  lemma FullRunShows(frames: seq<Frame>, k: nat, way: Choice, c: Code)
    requires 0 < k <= |frames|
    ensures Now(FullRun(frames, k, way), c) ==
            if Shown(frames[k - 1].digital, c) then FullField(frames[k - 1], c, way) else Now(FullRun(frames, k - 1, way), c)
  {
    FullShows(FullRun(frames, k - 1, way), frames[k - 1], way, c);
  }

  /** What field `c` holds after the first `k` frames: its value in the last of them whose mode has it. */
  function Due(frames: seq<Frame>, k: nat, way: Choice, c: Code): int
    requires k <= |frames|
  {
    if k == 0 then 0
    else if Shown(frames[k - 1].digital, c) then FullField(frames[k - 1], c, way)
    else Due(frames, k - 1, way, c)
  }

  /** Over the life of a device, after every forward it shows what is due, ... */
  lemma {:induction false} DeltaShowsDue(frames: seq<Frame>, k: nat, c: Code)
    requires k <= |frames|
    ensures Now(DeltaRun(frames, k).0, c) == Due(frames, k, ByValue, c)
  {
    if k > 0 {
      DeltaShowsDue(frames, k - 1, c);
      DeltaRunShows(frames, k, c);
    }
  }

  lemma {:induction false} FullShowsDue(frames: seq<Frame>, k: nat, way: Choice, c: Code)
    requires k <= |frames|
    ensures Now(FullRun(frames, k, way), c) == Due(frames, k, way, c)
  {
    if k > 0 {
      FullShowsDue(frames, k - 1, way, c);
      FullDueStep(frames, k, way, c);
    }
  }

  lemma FullDueStep(frames: seq<Frame>, k: nat, way: Choice, c: Code)
    requires 0 < k <= |frames| && Now(FullRun(frames, k - 1, way), c) == Due(frames, k - 1, way, c)
    ensures Now(FullRun(frames, k, way), c) == Due(frames, k, way, c)
  {
    FullRunShows(frames, k, way, c);
  }

  /** ... and so what full emission would show. */
  lemma DeltaRefinesFull(frames: seq<Frame>, k: nat, c: Code)
    requires k <= |frames|
    ensures Now(DeltaRun(frames, k).0, c) == Now(FullRun(frames, k, ByValue), c)
  {
    DeltaShowsDue(frames, k, c);
    FullShowsDue(frames, k, ByValue, c);
  }

  /** Both trigger choices give the same. */
  predicate Agrees(f: Frame, c: Code) {
    FullField(f, c, ByButton) == Field(f, c)
  }

  /** ... in the last of the first `k` frames whose mode has field `c`. */
  predicate Settled(frames: seq<Frame>, k: nat, c: Code)
    requires k <= |frames|
  {
    k == 0 || (if Shown(frames[k - 1].digital, c) then Agrees(frames[k - 1], c) else Settled(frames, k - 1, c))
  }

  lemma {:induction false} SameDueExactly(frames: seq<Frame>, k: nat, c: Code)
    requires k <= |frames|
    ensures Due(frames, k, ByValue, c) == Due(frames, k, ByButton, c) <==> Settled(frames, k, c)
  {
    if k > 0 { SameDueExactly(frames, k - 1, c); }
  }

  /** It shows what the translators of the other controllers would show exactly when the two trigger
      choices agree in the last frame that had the field. */
  lemma DeltaMatchesTranslatorExactly(frames: seq<Frame>, k: nat, c: Code)
    requires k <= |frames|
    ensures Now(DeltaRun(frames, k).0, c) == Now(FullRun(frames, k, ByButton), c) <==> Settled(frames, k, c)
  {
    DeltaShowsDue(frames, k, c);
    FullShowsDue(frames, k, ByButton, c);
    SameDueExactly(frames, k, c);
  }

  /** What a forward adds to the log: nothing, or some writes and one SYN after them. */
  lemma OneSynAtTheEnd(log: seq<Event>, last: Cache, f: Frame)
    ensures var more := DeltaLog(log, last, f);
      && log <= more
      && (more != log ==> |more| > |log| + 1 && more[|more| - 1] == Syn
                          && forall i | |log| <= i < |more| - 1 :: more[i].Put?)
  {
    BlocksGrow(log, last, f, NswOrder(f.digital));
  }

  /** A code of `order` whose field differs from the cache. */
  predicate Differs(last: Cache, f: Frame, order: seq<Code>) {
    exists c: Code :: c in order && Field(f, c) != Cached(last, c)
  }

  lemma {:induction false} BlocksChange(log: seq<Event>, last: Cache, f: Frame, order: seq<Code>)
    ensures |Blocks(log, last, f, order)| >= |log|
    ensures |Blocks(log, last, f, order)| > |log| <==> Differs(last, f, order)
  {
    if order != [] {
      var rest, x := order[..|order| - 1], order[|order| - 1];
      assert order == rest + [x];
      BlocksChange(log, last, f, rest);
      assert Differs(last, f, order) <==> Differs(last, f, rest) || Field(f, x) != Cached(last, x);
    }
  }

  lemma DiffersFromCache(log: seq<Event>, last: Cache, f: Frame, c: Code)
    requires HonestAbout(log, last, c) && Shown(f.digital, c)
    ensures Field(f, c) != Cached(last, c) <==>
            Field(f, c) != Now(log, c) || ((c == AbsZ || c == AbsRz) && Cached(last, c) == -1)
  {
    AxisInRange(f, c);
  }

  /** A forward sends something exactly when a field differs from the cache. */
  lemma SendsExactly(log: seq<Event>, last: Cache, f: Frame)
    ensures DeltaLog(log, last, f) != log <==> exists c: Code :: Shown(f.digital, c) && Field(f, c) != Cached(last, c)
  {
    var order := NswOrder(f.digital);
    BlocksChange(log, last, f, order);
    BlocksGrow(log, last, f, order);
    forall c: Code ensures c in order <==> Shown(f.digital, c) { NswOrderIsShown(f.digital, c); }
    if |Blocks(log, last, f, order)| == |log| {
      assert Blocks(log, last, f, order) == log;
    }
  }

  /** The device shows something else after a forward. */
  ghost predicate Changes(log: seq<Event>, last: Cache, f: Frame) {
    exists c: Code :: Now(DeltaLog(log, last, f), c) != Now(log, c)
  }

  /** A forward sends a SYN exactly when it changes what the device shows, or when a trigger axis is
      forwarded for the first time. */
  lemma SynExactly(log: seq<Event>, last: Cache, f: Frame)
    requires Honest(log, last)
    ensures DeltaLog(log, last, f) != log <==> Changes(log, last, f) || (!f.digital && (last.lt == -1 || last.rt == -1))
  {
    SendsExactly(log, last, f);
    if c: Code :| Shown(f.digital, c) && Field(f, c) != Cached(last, c) {
      assert HonestAbout(log, last, c);
      DiffersFromCache(log, last, f, c);
      DeltaShows(log, last, f, c);
    } else {
      assert DeltaLog(log, last, f) == log;
      AxisInRange(f, AbsZ);
      AxisInRange(f, AbsRz);
      assert !f.digital ==> Shown(f.digital, AbsZ) && Shown(f.digital, AbsRz);
    }
    if !f.digital && (last.lt == -1 || last.rt == -1) {
      var c := if last.lt == -1 then AbsZ else AbsRz;
      AxisInRange(f, c);
      assert Shown(f.digital, c) && Cached(last, c) == -1;
    }
  }

  // ----- the rate limit -------------------------------------------------------------------------

  const UINPUT_RATE_LIMIT_US := 4000

  /** The end of `nsw_read_events`: a batch that read something is forwarded unless the previous forward
      was less than 4 ms ago; what it read is then not remembered as unsent. */
  function Read(log: seq<Event>, last: Cache, lastTime: int, f: Frame, changed: bool, now: int): (seq<Event>, Cache, int) {
    if changed && now - lastTime >= UINPUT_RATE_LIMIT_US then (DeltaLog(log, last, f), NewCache(last, f), now)
    else (log, last, lastTime)
  }

  /** The device shows the fields of the mode. */
  ghost predicate Current(log: seq<Event>, f: Frame) {
    forall c: Code | Shown(f.digital, c) :: Now(log, c) == Field(f, c)
  }

  /** After every forward of a run the device is current. */
  lemma RunIsCurrent(frames: seq<Frame>, k: nat)
    requires 0 < k <= |frames|
    ensures Current(DeltaRun(frames, k).0, frames[k - 1])
  {
    forall c: Code | Shown(frames[k - 1].digital, c) ensures Now(DeltaRun(frames, k).0, c) == Field(frames[k - 1], c) {
      DeltaRunShows(frames, k, c);
    }
  }

  /** What a current device shows where: the buttons under their Xbox names, ... */
  lemma ButtonsShow(log: seq<Event>, f: Frame)
    requires Current(log, f)
    ensures Now(log, BtnSouth) == f.buttons.cross as int && Now(log, BtnEast) == f.buttons.circle as int
    ensures Now(log, BtnNorth) == f.buttons.square as int && Now(log, BtnWest) == f.buttons.triangle as int
    ensures Now(log, BtnTl) == f.buttons.l1 as int && Now(log, BtnTr) == f.buttons.r1 as int
    ensures Now(log, BtnSelect) == f.buttons.share as int && Now(log, BtnStart) == f.buttons.options as int
    ensures Now(log, BtnMode) == f.buttons.ps as int
    ensures Now(log, BtnThumbL) == f.buttons.l3 as int && Now(log, BtnThumbR) == f.buttons.r3 as int
  {
  }

  /** ... the sticks and the hat, ... */
  lemma SticksShow(log: seq<Event>, f: Frame)
    requires Current(log, f)
    ensures Now(log, AbsX) == f.lx && Now(log, AbsY) == f.ly && Now(log, AbsRx) == f.rx && Now(log, AbsRy) == f.ry
    ensures Now(log, AbsHat0X) == f.buttons.hatX && Now(log, AbsHat0Y) == f.buttons.hatY
  {
  }

  /** ... and the triggers: in digital mode their logical buttons; in analog mode an axis that shows the raw value of
      a pulled trigger that keeps its own button, nothing for one that is mapped elsewhere, and, with the
      trigger released, all or nothing as its logical button says. */
  lemma TriggersShow(log: seq<Event>, f: Frame)
    requires Current(log, f)
    ensures f.digital ==> Now(log, BtnTl2) == f.buttons.l2 as int && Now(log, BtnTr2) == f.buttons.r2 as int
    ensures !f.digital && f.lt > 0 ==> Now(log, AbsZ) == if f.l2Direct then f.lt as int else 0
    ensures !f.digital && f.rt > 0 ==> Now(log, AbsRz) == if f.r2Direct then f.rt as int else 0
    ensures !f.digital && f.lt == 0 ==> Now(log, AbsZ) == if f.buttons.l2 != 0 then 255 else 0
    ensures !f.digital && f.rt == 0 ==> Now(log, AbsRz) == if f.buttons.r2 != 0 then 255 else 0
  {
    assert Shown(true, BtnTl2) && Shown(true, BtnTr2) && Shown(false, AbsZ) && Shown(false, AbsRz);
  }

  /** After a batch the device is up to date exactly when the batch was forwarded or the device already
      was; and it stays what it is until a batch that reads something comes late enough. */
  lemma ReadIsCurrentExactly(log: seq<Event>, last: Cache, lastTime: int, f: Frame, changed: bool, now: int)
    requires Honest(log, last)
    ensures var (log1, last1, _) := Read(log, last, lastTime, f, changed, now);
      && Honest(log1, last1)
      && (Current(log1, f) <==> (changed && now - lastTime >= UINPUT_RATE_LIMIT_US) || Current(log, f))
  {
    if changed && now - lastTime >= UINPUT_RATE_LIMIT_US {
      StaysHonest(log, last, f);
      forall c: Code | Shown(f.digital, c) ensures Now(DeltaLog(log, last, f), c) == Field(f, c) {
        DeltaShows(log, last, f, c);
      }
    }
  }

  /** What one call of `nsw_read_events` finds: the slot afterwards, whether it read anything, and the time. */
  datatype Batch = Batch(frame: Frame, changed: bool, now: int)

  /** Batch `k` is forwarded: it read something, and every batch forwarded before it, like the start of the
      context, is at least 4 ms back. */
  ghost predicate Forwarded(start: int, bs: seq<Batch>, k: nat)
    requires k < |bs|
  {
    bs[k].changed && bs[k].now - start >= 4000
    && forall i: nat | i < k && Forwarded(start, bs, i) :: bs[k].now - bs[i].now >= 4000
  }

  /** The context after `k` batches. */
  function BatchRun(start: int, bs: seq<Batch>, k: nat): (seq<Event>, Cache, int)
    requires k <= |bs|
  {
    if k == 0 then ([], FreshCache, start)
    else
      var (log, last, time) := BatchRun(start, bs, k - 1);
      Read(log, last, time, bs[k - 1].frame, bs[k - 1].changed, bs[k - 1].now)
  }

  /** The recorded time is that of the latest forwarded batch, and none is later. */
  ghost predicate TimeOfLatest(start: int, bs: seq<Batch>, k: nat, time: int)
    requires k <= |bs|
  {
    && (time == start || exists i: nat :: i < k && Forwarded(start, bs, i) && time == bs[i].now)
    && time >= start && forall i: nat | i < k && Forwarded(start, bs, i) :: time >= bs[i].now
  }

  lemma {:induction false} TimeIsLatest(start: int, bs: seq<Batch>, k: nat)
    requires k <= |bs|
    ensures TimeOfLatest(start, bs, k, BatchRun(start, bs, k).2)
  {
    if k > 0 {
      var time := BatchRun(start, bs, k - 1).2;
      TimeIsLatest(start, bs, k - 1);
      if Forwarded(start, bs, k - 1) {
        assert BatchRun(start, bs, k).2 == bs[k - 1].now;
      } else {
        assert BatchRun(start, bs, k).2 == time;
      }
    }
  }

  /** Over every run of batches from a fresh context: the device gets exactly what the forwarded batches add,
      and the cache is that of the last of them. */
  lemma ForwardsExactly(start: int, bs: seq<Batch>, k: nat)
    requires k < |bs|
    ensures var (log, last, _), (log1, last1, _) := BatchRun(start, bs, k), BatchRun(start, bs, k + 1);
      if Forwarded(start, bs, k) then log1 == DeltaLog(log, last, bs[k].frame) && last1 == NewCache(last, bs[k].frame)
      else log1 == log && last1 == last
  {
    TimeIsLatest(start, bs, k);
  }

  /** So two forwards are never closer than 4 ms, in whatever order the times come. */
  lemma ForwardsAreApart(start: int, bs: seq<Batch>, i: nat, j: nat)
    requires i < j < |bs| && Forwarded(start, bs, i) && Forwarded(start, bs, j)
    ensures bs[j].now - bs[i].now >= 4000 && bs[i].now - start >= 4000
  {
  }

  /** In every such run the device shows the batch just read if and only if it was forwarded, or the device
      showed the same already. */
  lemma {:induction false} RunIsCurrentExactly(start: int, bs: seq<Batch>, k: nat)
    requires k < |bs|
    ensures Honest(BatchRun(start, bs, k).0, BatchRun(start, bs, k).1)
    ensures Current(BatchRun(start, bs, k + 1).0, bs[k].frame) <==>
            Forwarded(start, bs, k) || Current(BatchRun(start, bs, k).0, bs[k].frame)
  {
    BatchRunIsHonest(start, bs, k);
    ForwardsExactly(start, bs, k);
    var (log, last, _) := BatchRun(start, bs, k);
    forall c: Code | Shown(bs[k].frame.digital, c) ensures Now(DeltaLog(log, last, bs[k].frame), c) == Field(bs[k].frame, c) {
      assert HonestAbout(log, last, c);
      DeltaShows(log, last, bs[k].frame, c);
    }
  }

  lemma {:induction false} BatchRunIsHonest(start: int, bs: seq<Batch>, k: nat)
    requires k <= |bs|
    ensures Honest(BatchRun(start, bs, k).0, BatchRun(start, bs, k).1)
  {
    if k == 0 {
      forall c: Code ensures HonestAbout([], FreshCache, c) {}
    } else {
      var (log, last, time) := BatchRun(start, bs, k - 1);
      BatchRunIsHonest(start, bs, k - 1);
      ReadIsCurrentExactly(log, last, time, bs[k - 1].frame, bs[k - 1].changed, bs[k - 1].now);
    }
  }
}
