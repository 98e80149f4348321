/** The colours of the LED effects, in exact real arithmetic: what the next frame of an effect may look like,
    whatever the time, the battery and the buttons are. */
module EffectColours {
  import opened Records

  const LEDFX_BREATH := 1
  const LEDFX_RAINBOW := 2
  const LEDFX_PULSE := 3
  const LEDFX_STROBE := 4
  const LEDFX_WAVE := 5
  const LEDFX_BATTERY := 6
  const LEDFX_TRIGGER := 7
  const LEDFX_BUTTON_PRESS := 8

  type Shade = (byte, byte, byte)

  const Black: Shade := (0, 0, 0)

  /** What an effect depends on besides the base colour and the brightness: how bright its curve is, how far a
      trigger is pulled, where on the colour wheel it is, the three phases of the wave (sines a third of a turn
      apart add up to 0 and their squares to 3/2), or the battery and its blinking. */
  datatype Look =
    | Level(x: real)
    | Pulled(trigger: byte)
    | Hue(sector: nat, x: real)
    | Phases(a: real, b: real, c: real)
    | Charge(percent: int, x: real)

  predicate Unit(x: real) {
    0.0 <= x <= 1.0
  }

  predicate ThreePhases(a: real, b: real, c: real) {
    a + b + c == 0.0 && a * a + b * b + c * c == 1.5
  }

  predicate Possible(effect: int, look: Look) {
    match look
    case Level(x) =>
      || (effect == LEDFX_BREATH && Unit(x))
      || (effect == LEDFX_PULSE && 0.2 <= x <= 1.0)
      || ((effect == LEDFX_STROBE || effect == LEDFX_BUTTON_PRESS) && (x == 0.0 || x == 1.0))
    case Pulled(_) => effect == LEDFX_TRIGGER
    case Hue(sector, x) => effect == LEDFX_RAINBOW && sector < 6 && Unit(x)
    case Phases(a, b, c) => effect == LEDFX_WAVE && ThreePhases(a, b, c)
    case Charge(_, x) => effect == LEDFX_BATTERY && Unit(x)
  }

  /** A `float` stored in a `uint8_t` drops its fraction. */
  function Cut(v: real): byte {
    if 0.0 <= v < 256.0 then v.Floor as byte else 0
  }

  /** A request with no valid brightness gets 80 percent. */
  function SaneBrightness(b: byte): byte {
    if 1 <= b <= 100 then b else 80
  }

  /** `n` times `v`, spelled out. */
  function Times(n: nat, v: real): real {
    if n == 0 then 0.0 else Times(n - 1, v) + v
  }

  lemma {:induction false} TimesMultiplies(n: nat, v: real)
    ensures Times(n, v) == n as real * v
  {
    if n > 0 { TimesMultiplies(n - 1, v); }
  }

  /** `brightness` percent of `x`. */
  function Part(brightness: byte, x: real): real {
    Times(brightness as nat, x) / 100.0
  }

  function Channel(base: byte, level: real): byte {
    Cut(Times(base as nat, level))
  }

  /** The base colour at some level. */
  function Dimmed(base: Shade, level: real): Shade {
    (Channel(base.0, level), Channel(base.1, level), Channel(base.2, level))
  }

  /** The sector of the colour wheel: one channel full, one rising or falling, one off. */
  function Wheel(sector: nat, full: byte, part: byte): Shade {
    match sector
    case 0 => (full, part, 0)
    case 1 => (part, full, 0)
    case 2 => (0, full, part)
    case 3 => (0, part, full)
    case 4 => (part, 0, full)
    case _ => (full, 0, part)
  }

  /** The level of such a look, from 0 to 1. */
  function LevelOf(look: Look): real {
    match look
    case Level(x) => x
    case Pulled(trigger) => trigger as real / 255.0
    case _ => 0.0
  }

  function PhaseShade(brightness: byte, a: real, b: real, c: real): Shade {
    (Cut(Part(brightness, 128.0 + 127.0 * a)), Cut(Part(brightness, 128.0 + 127.0 * b)), Cut(Part(brightness, 128.0 + 127.0 * c)))
  }

  function ChargeShade(brightness: byte, percent: int, x: real): Shade {
    var full := Cut(Part(brightness, 255.0));
    if percent >= 80 then (0, full, 0)
    else if percent >= 50 then (full, full, 0)
    else if percent >= 20 then (full, Cut(Part(brightness, 165.0)), 0)
    else (Cut(Part(brightness, 255.0 * x)), 0, 0)
  }

  function FrameShade(base: Shade, brightness: byte, look: Look): Shade {
    match look
    case Hue(sector, x) => Wheel(sector, Cut(Part(brightness, 255.0)), Cut(Part(brightness, 255.0 * x)))
    case Phases(a, b, c) => PhaseShade(brightness, a, b, c)
    case Charge(percent, x) => ChargeShade(brightness, percent, x)
    case _ => Dimmed(base, Part(brightness, LevelOf(look)))
  }

  // ----- effects that dim the base colour -------------------------------------------------------

  /** The effects that show the base colour, more or less bright. */
  predicate Dims(effect: int) {
    effect == LEDFX_BREATH || effect == LEDFX_PULSE || effect == LEDFX_STROBE || effect == LEDFX_TRIGGER
    || effect == LEDFX_BUTTON_PRESS
  }

  /** As bright as they get. */
  function Brightest(base: Shade, brightness: byte): Shade {
    Dimmed(base, Part(brightness, 1.0))
  }

  lemma {:induction false} TimesRises(n: nat, y: real, v: real)
    requires 0.0 <= y <= v
    ensures 0.0 <= Times(n, y) <= Times(n, v)
  {
    if n > 0 { TimesRises(n - 1, y, v); }
  }

  lemma {:induction false} TimesOne(n: nat)
    ensures Times(n, 1.0) == n as real
  {
    if n > 0 { TimesOne(n - 1); }
  }

  lemma {:induction false} TimesFifth(n: nat, v: real)
    ensures Times(n, 0.2 * v) == 0.2 * Times(n, v)
  {
    if n > 0 { TimesFifth(n - 1, v); }
  }

  lemma ChannelStaysBlack(b: byte, y: real, v: real)
    requires 0.0 <= y <= v <= 1.0 && Channel(b, v) == 0
    ensures Channel(b, y) == 0
  {
    TimesRises(b as nat, y, v);
    TimesRises(b as nat, v, 1.0);
    TimesOne(b as nat);
  }

  lemma LevelStaysBlack(base: Shade, y: real, v: real)
    requires 0.0 <= y <= v <= 1.0 && Dimmed(base, v) == Black
    ensures Dimmed(base, y) == Black
  {
    ChannelStaysBlack(base.0, y, v);
    ChannelStaysBlack(base.1, y, v);
    ChannelStaysBlack(base.2, y, v);
  }

  lemma LevelIsUnit(effect: int, look: Look)
    requires Dims(effect) && Possible(effect, look)
    ensures Unit(LevelOf(look)) && (look.Level? || look.Pulled?)
  {
    if look.Pulled? { assert 0.0 <= look.trigger as real / 255.0 <= 1.0; }
  }

  lemma PartIsLess(brightness: byte, x: real)
    requires brightness <= 100 && Unit(x)
    ensures 0.0 <= Part(brightness, x) <= Part(brightness, 1.0) <= 1.0
  {
    TimesRises(brightness as nat, x, 1.0);
    TimesOne(brightness as nat);
  }

  /** If the brightest frame is black, so is every one. */
  lemma StaysBlack(effect: int, base: Shade, brightness: byte, look: Look)
    requires Dims(effect) && Possible(effect, look) && 1 <= brightness <= 100 && Brightest(base, brightness) == Black
    ensures FrameShade(base, brightness, look) == Black
  {
    LevelIsUnit(effect, look);
    PartIsLess(brightness, LevelOf(look));
    LevelStaysBlack(base, Part(brightness, LevelOf(look)), Part(brightness, 1.0));
  }

  lemma BlackStaysBlack(brightness: byte)
    ensures Brightest(Black, brightness) == Black
  {
  }

  /** A look as bright as the effect gets. */
  function FullLook(effect: int): Look {
    if effect == LEDFX_TRIGGER then Pulled(255) else Level(1.0)
  }

  lemma FullIsBrightest(effect: int, base: Shade, brightness: byte)
    requires Dims(effect)
    ensures Possible(effect, FullLook(effect)) && FrameShade(base, brightness, FullLook(effect)) == Brightest(base, brightness)
  {
    assert LevelOf(FullLook(effect)) == 1.0;
  }

  /** A dim look: dark, or a fifth. */
  function DimLook(effect: int): Look {
    if effect == LEDFX_TRIGGER then Pulled(0) else if effect == LEDFX_PULSE then Level(0.2) else Level(0.0)
  }

  lemma FifthIsLess(v: real)
    requires 0.0 <= v < 256.0 && Cut(v) != 0
    ensures Cut(0.2 * v) != Cut(v)
  {
    assert v >= 1.0;
    assert v.Floor as real <= v < v.Floor as real + 1.0;
    if v < 5.0 {
      assert (0.2 * v).Floor == 0;
    } else {
      assert 0.2 * v <= v - 4.0;
    }
  }

  lemma {:induction false} TimesZero(n: nat)
    ensures Times(n, 0.0) == 0.0
  {
    if n > 0 { TimesZero(n - 1); }
  }

  lemma DimChannel(b: byte, y: real, v: real)
    requires 0.0 <= v <= 1.0 && Channel(b, v) != 0 && (y == 0.0 || y == 0.2 * v)
    ensures Channel(b, y) != Channel(b, v)
  {
    TimesRises(b as nat, v, 1.0);
    TimesOne(b as nat);
    if y == 0.0 {
      TimesZero(b as nat);
    } else {
      TimesFifth(b as nat, v);
      FifthIsLess(Times(b as nat, v));
    }
  }

  lemma DimLevelDiffers(base: Shade, y: real, v: real)
    requires Unit(v) && (y == 0.0 || y == 0.2 * v) && Dimmed(base, v) != Black
    ensures Dimmed(base, y) != Dimmed(base, v)
  {
    if Channel(base.0, v) != 0 {
      DimChannel(base.0, y, v);
    } else if Channel(base.1, v) != 0 {
      DimChannel(base.1, y, v);
    } else {
      DimChannel(base.2, y, v);
    }
  }

  /** A dim frame differs from the brightest one, unless that is black. */
  lemma DimDiffers(effect: int, base: Shade, brightness: byte)
    requires Dims(effect) && 1 <= brightness <= 100 && Brightest(base, brightness) != Black
    ensures Possible(effect, DimLook(effect))
    ensures FrameShade(base, brightness, DimLook(effect)) != Brightest(base, brightness)
  {
    var x := LevelOf(DimLook(effect));
    PartIsLess(brightness, x);
    if effect == LEDFX_PULSE { TimesFifth(brightness as nat, 1.0); } else { TimesZero(brightness as nat); }
    DimLevelDiffers(base, Part(brightness, x), Part(brightness, 1.0));
  }

  // ----- effects with colours of their own ------------------------------------------------------

  predicate HasOwnColours(effect: int) {
    effect == LEDFX_RAINBOW || effect == LEDFX_WAVE || effect == LEDFX_BATTERY
  }

  /** A frame of such an effect that is not black, and another one. */
  function OwnLook(effect: int, other: bool): Look {
    if effect == LEDFX_RAINBOW then Hue(if other then 2 else 0, 0.0)
    else if effect == LEDFX_WAVE then (if other then Phases(-0.5, 1.0, -0.5) else Phases(1.0, -0.5, -0.5))
    else Charge(if other then 50 else 80, 0.0)
  }

  lemma FullChannel(brightness: byte)
    requires 1 <= brightness <= 100
    ensures Cut(Part(brightness, 255.0)) >= 2
    ensures Cut(Part(brightness, 64.5)) < Cut(Part(brightness, 255.0))
  {
    TimesMultiplies(brightness as nat, 255.0);
    TimesMultiplies(brightness as nat, 64.5);
  }

  lemma OwnLooksDiffer(effect: int, base: Shade, brightness: byte)
    requires HasOwnColours(effect) && 1 <= brightness <= 100
    ensures Possible(effect, OwnLook(effect, false)) && Possible(effect, OwnLook(effect, true))
    ensures var x, y := FrameShade(base, brightness, OwnLook(effect, false)), FrameShade(base, brightness, OwnLook(effect, true));
      x != y && x != Black && y != Black
  {
    FullChannel(brightness);
  }

  /** A rainbow frame has one channel at the brightness, one off and one between, whatever the sector. */
  lemma RainbowIsSaturated(base: Shade, brightness: byte, sector: nat, x: real)
    requires Unit(x) && sector < 6 && brightness <= 100
    ensures var shade, full := FrameShade(base, brightness, Hue(sector, x)), Cut(Part(brightness, 255.0));
      && (shade.0 == full || shade.1 == full || shade.2 == full) && (shade.0 == 0 || shade.1 == 0 || shade.2 == 0)
      && shade.0 <= full && shade.1 <= full && shade.2 <= full
  {
    TimesRises(brightness as nat, 255.0 * x, 255.0);
    TimesRises(brightness as nat, 0.0, 255.0);
    TimesMultiplies(brightness as nat, 255.0);
  }

  /** The battery effect: green from 80 percent, yellow from 50, orange from 20, and red below, at most as bright as
      the brightness says. */
  lemma BatteryShades(base: Shade, brightness: byte, percent: int, x: real)
    requires Unit(x) && 1 <= brightness <= 100
    ensures var shade, full := FrameShade(base, brightness, Charge(percent, x)), Cut(Part(brightness, 255.0));
      && (percent >= 80 ==> shade == (0, full, 0))
      && (50 <= percent < 80 ==> shade == (full, full, 0))
      && (20 <= percent < 50 ==> shade.0 == full && 0 < shade.1 < full && shade.2 == 0)
      && (percent < 20 ==> shade.0 <= full && shade.1 == shade.2 == 0)
  {
    TimesRises(brightness as nat, 255.0 * x, 255.0);
    TimesMultiplies(brightness as nat, 255.0);
    TimesMultiplies(brightness as nat, 165.0);
  }
}
