/** Stick response curves and dead zones, in exact real arithmetic. The square root and the power
    function of the C library are arguments described by the properties that matter. */
module Curves {
  import opened Records

  const LUT_SIZE := 257
  const NORMALIZED_MAX := 65535.0
  const MAX_MAG := 32768.0

  type Lut = s: seq<real> | |s| == LUT_SIZE witness seq(LUT_SIZE, i => 0.0)

  /** The exponent of each preset, in the order of `sensitivity_preset_t`. */
  const EXPONENTS: seq<real> := [1.0, 0.65, 1.8, 0.75, 2.5, 0.5, 1.0, 1.5]

  /** `mag` is the length of the vector; the one pair whose sum of squares is no `int32_t` is left out. */
  predicate Length(mag: real, x: int, y: int) {
    && Stick(x) && Stick(y) && !(x == STICK_MIN && y == STICK_MIN)
    && mag >= 0.0 && mag * mag == (x * x + y * y) as real
  }

  /** Converting a `float` to an integer drops the fraction. */
  function Trunc(r: real): int {
    if r >= 0.0 then r.Floor else -(-r).Floor
  }

  function Clamp(v: int): int {
    if v > STICK_MAX then STICK_MAX else if v < STICK_MIN then STICK_MIN else v
  }

  function AbsR(r: real): real { if r >= 0.0 then r else -r }
  function Square(r: real): real { r * r }
  function AbsI(x: int): int { if x >= 0 then x else -x }

  /** A table that rises strictly from 0 to the maximum. */
  predicate Rising(lut: seq<real>) {
    && |lut| == LUT_SIZE && lut[0] == 0.0 && lut[LUT_SIZE - 1] == NORMALIZED_MAX
    && forall i, j | 0 <= i < j < LUT_SIZE :: lut[i] < lut[j]
  }

  // ----- the tables -----------------------------------------------------------------------------

  /** What the tables need of `powf` for a positive exponent: it maps the unit interval onto itself and
      rises strictly there. */
  ghost predicate PowerLike(pow: (real, real) -> real, e: real) {
    && pow(0.0, e) == 0.0 && pow(1.0, e) == 1.0
    && forall a: real, b: real :: 0.0 <= a < b <= 1.0 ==> pow(a, e) < pow(b, e)
  }

  function Sampled(pow: (real, real) -> real, e: real, i: int): real {
    var output := pow(i as real / 256.0, e);
    var capped := if output > 1.0 then 1.0 else output;
    var normalized := capped * NORMALIZED_MAX;
    if normalized < 0.0 then 0.0 else if normalized > NORMALIZED_MAX then NORMALIZED_MAX else normalized
  }

  function Table(pow: (real, real) -> real, e: real): Lut {
    seq(LUT_SIZE, i requires 0 <= i < LUT_SIZE => Sampled(pow, e, i))
  }

  /** Whatever the power function answers, an entry is that fraction of the maximum, cut to 0 and the maximum. */
  lemma SampledIsCut(pow: (real, real) -> real, e: real, i: int)
    ensures var f, v := pow(i as real / 256.0, e), Sampled(pow, e, i);
      && (f <= 0.0 ==> v == 0.0) && (0.0 <= f <= 1.0 ==> v == f * 65535.0) && (f >= 1.0 ==> v == 65535.0)
  {
  }

  lemma SampledIsExact(pow: (real, real) -> real, e: real, i: int)
    requires PowerLike(pow, e) && 0 <= i < LUT_SIZE
    ensures Sampled(pow, e, i) == pow(i as real / 256.0, e) * NORMALIZED_MAX
    ensures 0.0 <= pow(i as real / 256.0, e) <= 1.0
  {
    var a := i as real / 256.0;
    assert 0.0 <= a <= 1.0;
    if a > 0.0 { assert pow(0.0, e) < pow(a, e); }
    if a < 1.0 { assert pow(a, e) < pow(1.0, e); }
  }

  /** Every table built from a power function rises strictly: neither cap ever acts. */
  lemma TableRises(pow: (real, real) -> real, e: real)
    requires PowerLike(pow, e)
    ensures Rising(Table(pow, e))
  {
    SampledIsExact(pow, e, 0);
    SampledIsExact(pow, e, 256);
    forall i, j | 0 <= i < j < LUT_SIZE ensures Table(pow, e)[i] < Table(pow, e)[j] {
      SampledIsExact(pow, e, i);
      SampledIsExact(pow, e, j);
      assert i as real / 256.0 < j as real / 256.0;
    }
  }

  // ----- the curve ------------------------------------------------------------------------------

  /** The point `frac` of the way up a segment that starts at `low` and rises by `rise`. */
  function Along(low: real, rise: real, frac: real): real {
    low + frac * rise
  }

  function Interp(lut: Lut, t: real): real
    requires 0.0 <= t < 256.0
  {
    var i := t.Floor;
    Along(lut[i], lut[i + 1] - lut[i], t - i as real)
  }

  /** The new length of a vector shorter than the maximum. */
  function Curve(lut: Lut, mag: real): real
    requires 0.0 <= mag < MAX_MAG
  {
    Interp(lut, mag / MAX_MAG * 256.0) / NORMALIZED_MAX * MAX_MAG
  }

  /** ... and of any vector: from the maximum on nothing changes. */
  function Radial(lut: Lut, mag: real): real
    requires 0.0 <= mag
  {
    if mag >= MAX_MAG then mag else Curve(lut, mag)
  }

  /** `apply_sensitivity_core` on a vector of length `mag`. */
  function Curved(lut: Lut, mag: real, x: int, y: int): (int, int)
    requires Length(mag, x, y)
  {
    if x * x + y * y == 0 || mag >= MAX_MAG then (x, y)
    else
      NonzeroLength(mag, x, y);
      (Stretched(x, mag, Curve(lut, mag)), Stretched(y, mag, Curve(lut, mag)))
  }

  /** One axis of a vector whose length changes from `mag` to `len`, before and after it is made an
      integer again. */
  function Scaled(x: int, mag: real, len: real): real
    requires mag > 0.0
  {
    x as real * (len / mag)
  }

  function Stretched(x: int, mag: real, len: real): int
    requires mag > 0.0
  {
    Clamp(Trunc(Scaled(x, mag, len)))
  }

  lemma NonzeroLength(mag: real, x: int, y: int)
    requires Length(mag, x, y) && x * x + y * y != 0
    ensures mag > 0.0
  {
  }

  lemma PositiveProduct(a: real, b: real)
    requires 0.0 <= a && 0.0 <= b
    ensures 0.0 <= a * b
    ensures 0.0 < a && 0.0 < b ==> 0.0 < a * b
  {
  }

  lemma AlongBounds(low: real, rise: real, f: real)
    requires 0.0 <= f < 1.0 && 0.0 < rise
    ensures low <= Along(low, rise, f) < low + rise
  {
  }

  lemma AlongRises(low: real, rise: real, f: real, g: real)
    requires f < g && 0.0 < rise
    ensures Along(low, rise, f) < Along(low, rise, g)
  {
  }

  lemma InterpInSegment(lut: Lut, t: real)
    requires Rising(lut) && 0.0 <= t < 256.0
    ensures lut[t.Floor] <= Interp(lut, t) < lut[t.Floor + 1]
  {
    AlongBounds(lut[t.Floor], lut[t.Floor + 1] - lut[t.Floor], t - t.Floor as real);
  }

  lemma InterpRises(lut: Lut, t: real, u: real)
    requires Rising(lut) && 0.0 <= t < u < 256.0
    ensures Interp(lut, t) < Interp(lut, u)
  {
    var i, j := t.Floor, u.Floor;
    if i == j {
      AlongRises(lut[i], lut[i + 1] - lut[i], t - i as real, u - i as real);
    } else {
      InterpInSegment(lut, t);
      InterpInSegment(lut, u);
      assert i + 1 <= j;
    }
  }

  /** The curve keeps a length below the maximum, and keeps it positive. */
  lemma CurveBounds(lut: Lut, mag: real)
    requires Rising(lut) && 0.0 <= mag < MAX_MAG
    ensures 0.0 <= Curve(lut, mag) < MAX_MAG
    ensures mag > 0.0 <==> Curve(lut, mag) > 0.0
  {
    var t := mag / MAX_MAG * 256.0;
    InterpInSegment(lut, t);
    assert lut[t.Floor + 1] <= NORMALIZED_MAX && 0.0 <= lut[t.Floor];
    if mag > 0.0 { InterpRises(lut, 0.0, t); }
  }

  /** For every rising table the radial map is strictly monotone, across all segment borders and the
      border where the curve stops. */
  lemma RadialRises(lut: Lut, m: real, n: real)
    requires Rising(lut) && 0.0 <= m < n
    ensures Radial(lut, m) < Radial(lut, n)
  {
    if n < MAX_MAG {
      InterpRises(lut, m / MAX_MAG * 256.0, n / MAX_MAG * 256.0);
    } else if m < MAX_MAG {
      CurveBounds(lut, m);
    }
  }

  /** Between two entries of the table the new length is the weighted mean of what the table says there: the
      length of segment `i`, a fraction `f` of the way up. */
  lemma RadialInterpolates(lut: Lut, i: nat, f: real)
    requires i < LUT_SIZE - 1 && 0.0 <= f < 1.0
    ensures Radial(lut, 128.0 * (i as real + f)) == ((1.0 - f) * lut[i] + f * lut[i + 1]) / 65535.0 * 32768.0
  {
    var t := i as real + f;
    assert t.Floor == i && 128.0 * t / MAX_MAG * 256.0 == t;
    WeightedMean(lut[i], lut[i + 1], f);
  }

  lemma WeightedMean(a: real, b: real, f: real)
    ensures Along(a, b - a, f) == (1.0 - f) * a + f * b
  {
  }

  /** At an entry it is the power of the relative length, from the centre to the rim. */
  lemma RadialIsPower(pow: (real, real) -> real, e: real, i: nat)
    requires PowerLike(pow, e) && i < LUT_SIZE
    ensures Radial(Table(pow, e), 128.0 * i as real) == 32768.0 * pow(i as real / 256.0, e)
  {
    if i < LUT_SIZE - 1 {
      SampledIsExact(pow, e, i);
      RadialInterpolates(Table(pow, e), i, 0.0);
    }
  }

  // ----- the presets ------------------------------------------------------------------------------

  const DEFAULT_PRESET := 0
  const PRECISION := 1
  const RAPID := 2
  const SUAVE := 3
  const AGGRESSIVE := 4
  const SNIPER := 5
  const RACING := 6
  const FPS := 7

  /** What powers do for relative lengths strictly inside: the larger exponent gives the smaller power, and
      the exponent 1 changes nothing. */
  ghost predicate Powers(pow: (real, real) -> real) {
    && (forall a: real, d: real, e: real :: 0.0 < a < 1.0 && 0.0 < d < e ==> pow(a, e) < pow(a, d))
    && (forall a: real :: 0.0 <= a <= 1.0 ==> pow(a, 1.0) == a)
  }

  /** How far a stick of relative length `i / 256` is pushed under preset `p`. */
  function Pushed(pow: (real, real) -> real, p: nat, i: nat): real
    requires p < SENS_PRESET_COUNT && i < LUT_SIZE
  {
    Radial(Table(pow, EXPONENTS[p]), 128.0 * i as real)
  }

  /** From the quickest response to the slowest: Sniper, Precision and Suave push further than the stick, Default
      and Racing as far, FPS, Rapid and Aggressive less far. */
  lemma PresetOrder(pow: (real, real) -> real, i: nat)
    requires Powers(pow) && 0 < i < LUT_SIZE - 1
    requires forall p | 0 <= p < SENS_PRESET_COUNT :: PowerLike(pow, EXPONENTS[p])
    ensures Pushed(pow, SNIPER, i) > Pushed(pow, PRECISION, i) > Pushed(pow, SUAVE, i) > 128.0 * i as real
    ensures Pushed(pow, DEFAULT_PRESET, i) == Pushed(pow, RACING, i) == 128.0 * i as real
    ensures 128.0 * i as real > Pushed(pow, FPS, i) > Pushed(pow, RAPID, i) > Pushed(pow, AGGRESSIVE, i)
  {
    Quicker(pow, SNIPER, PRECISION, i);
    Quicker(pow, PRECISION, SUAVE, i);
    Quicker(pow, SUAVE, DEFAULT_PRESET, i);
    Straight(pow, DEFAULT_PRESET, i);
    Straight(pow, RACING, i);
    Quicker(pow, DEFAULT_PRESET, FPS, i);
    Quicker(pow, FPS, RAPID, i);
    Quicker(pow, RAPID, AGGRESSIVE, i);
  }

  /** Entry by entry: what each preset makes of a stick pushed to `i / 256` of its way. */
  lemma PresetPowers(pow: (real, real) -> real, i: nat)
    requires i < LUT_SIZE && forall p | 0 <= p < SENS_PRESET_COUNT :: PowerLike(pow, EXPONENTS[p])
    ensures var a := i as real / 256.0;
      && Pushed(pow, DEFAULT_PRESET, i) == Pushed(pow, RACING, i) == 32768.0 * pow(a, 1.0)
      && Pushed(pow, PRECISION, i) == 32768.0 * pow(a, 0.65) && Pushed(pow, SUAVE, i) == 32768.0 * pow(a, 0.75)
      && Pushed(pow, SNIPER, i) == 32768.0 * pow(a, 0.5) && Pushed(pow, FPS, i) == 32768.0 * pow(a, 1.5)
      && Pushed(pow, RAPID, i) == 32768.0 * pow(a, 1.8) && Pushed(pow, AGGRESSIVE, i) == 32768.0 * pow(a, 2.5)
  {
    forall p | 0 <= p < SENS_PRESET_COUNT ensures Pushed(pow, p, i) == 32768.0 * pow(i as real / 256.0, EXPONENTS[p]) {
      RadialIsPower(pow, EXPONENTS[p], i);
    }
  }

  lemma Quicker(pow: (real, real) -> real, p: nat, q: nat, i: nat)
    requires p < SENS_PRESET_COUNT && q < SENS_PRESET_COUNT && 0.0 < EXPONENTS[p] < EXPONENTS[q]
    requires Powers(pow) && PowerLike(pow, EXPONENTS[p]) && PowerLike(pow, EXPONENTS[q]) && 0 < i < LUT_SIZE - 1
    ensures Pushed(pow, p, i) > Pushed(pow, q, i)
  {
    RadialIsPower(pow, EXPONENTS[p], i);
    RadialIsPower(pow, EXPONENTS[q], i);
    assert 0.0 < i as real / 256.0 < 1.0;
  }

  lemma Straight(pow: (real, real) -> real, p: nat, i: nat)
    requires p < SENS_PRESET_COUNT && EXPONENTS[p] == 1.0
    requires Powers(pow) && PowerLike(pow, EXPONENTS[p]) && 0 < i < LUT_SIZE - 1
    ensures Pushed(pow, p, i) == 128.0 * i as real
  {
    RadialIsPower(pow, EXPONENTS[p], i);
    assert 0.0 <= i as real / 256.0 <= 1.0;
  }

  // ----- the two axes ---------------------------------------------------------------------------

  lemma AxisWithinLength(mag: real, x: int, y: int)
    requires Length(mag, x, y)
    ensures AbsR(x as real) <= mag
  {
    var a := AbsR(x as real);
    assert a * a == (x * x) as real;
    if a > mag { assert a * a > mag * mag by { Squares(mag, a); } }
  }

  lemma Squares(a: real, b: real)
    requires 0.0 <= a < b
    ensures a * a < b * b
  {
    assert 0.0 <= a * (b - a);
    assert 0.0 < b * (b - a);
    assert a * a + a * (b - a) == a * b;
    assert a * b + b * (b - a) == b * b;
  }

  /** An axis scaled to a new length stays within it and keeps its sign. */
  lemma ScaledAxis(x: int, mag: real, len: real)
    requires AbsR(x as real) <= mag && 0.0 < mag && 0.0 <= len
    ensures AbsR(Scaled(x, mag, len)) <= len
    ensures x >= 0 ==> Scaled(x, mag, len) >= 0.0
    ensures x <= 0 ==> Scaled(x, mag, len) <= 0.0
  {
    var r, s := x as real, len / mag;
    assert mag * s == len && s >= 0.0;
    if x >= 0 { assert r * s <= mag * s; } else { assert -r * s <= mag * s; }
  }

  /** `v` is `r` without its fraction, and in the range of a stick. */
  predicate Rounds(v: int, r: real) {
    && v == Trunc(r) && AbsI(v) < 32768
    && AbsR(v as real) <= AbsR(r) < AbsR(v as real) + 1.0
    && (r >= 0.0 ==> v >= 0) && (r <= 0.0 ==> v <= 0)
  }

  lemma RoundsTowardZero(r: real)
    requires AbsR(r) < MAX_MAG
    ensures Clamp(Trunc(r)) == Trunc(r) && Rounds(Trunc(r), r)
  {
  }

  /** `v` is the scaled axis truncated, never clamped, on the same side of the centre. */
  predicate ScalesWell(x: int, scaled: real, v: int) {
    Rounds(v, scaled) && (x >= 0 ==> v >= 0) && (x <= 0 ==> v <= 0)
  }

  lemma AxisBounds(x: int, mag: real, len: real)
    requires AbsR(x as real) <= mag && 0.0 < mag && 0.0 <= len < MAX_MAG
    ensures ScalesWell(x, Scaled(x, mag, len), Stretched(x, mag, len))
  {
    ScaledAxis(x, mag, len);
    RoundsTowardZero(Scaled(x, mag, len));
  }

  lemma CurvedAxes(lut: Lut, mag: real, x: int, y: int)
    requires Length(mag, x, y) && 0.0 < mag < MAX_MAG
    ensures Curved(lut, mag, x, y) == (Stretched(x, mag, Curve(lut, mag)), Stretched(y, mag, Curve(lut, mag)))
  {
    PositiveLength(mag, x, y);
  }

  lemma PositiveLength(mag: real, x: int, y: int)
    requires Length(mag, x, y) && mag > 0.0
    ensures x * x + y * y != 0
  {
    Squares(0.0, mag);
  }

  /** For every rising table: the clamp never acts, each axis keeps its sign, and the result is the
      vector scaled to its new length, up to less than one unit per axis. */
  lemma CurvedIsScaled(lut: Lut, mag: real, x: int, y: int)
    requires Rising(lut) && Length(mag, x, y) && 0.0 < mag < MAX_MAG
    ensures var r := Curved(lut, mag, x, y);
      && ScalesWell(x, Scaled(x, mag, Curve(lut, mag)), r.0)
      && ScalesWell(y, Scaled(y, mag, Curve(lut, mag)), r.1)
  {
    CurveBounds(lut, mag);
    AxisWithinLength(mag, x, y);
    AxisWithinLength(mag, y, x);
    AxisBounds(x, mag, Curve(lut, mag));
    AxisBounds(y, mag, Curve(lut, mag));
    CurvedAxes(lut, mag, x, y);
  }

  lemma SquareOfProduct(a: real, q: real)
    ensures (a * q) * (a * q) == (a * a) * (q * q)
  {
  }

  /** The scaled vector has the new length. */
  lemma ScaledLength(mag: real, x: int, y: int, len: real)
    requires Length(mag, x, y) && 0.0 < mag
    ensures Square(Scaled(x, mag, len)) + Square(Scaled(y, mag, len)) == Square(len)
  {
    var q := len / mag;
    assert q * mag == len;
    SquareOfProduct(x as real, q);
    SquareOfProduct(y as real, q);
    SquareOfProduct(mag, q);
    assert (x * x) as real + (y * y) as real == mag * mag;
  }

  lemma NoLonger(v: real, r: real)
    requires AbsR(v) <= AbsR(r)
    ensures Square(v) <= Square(r)
  {
    var a, b := AbsR(v), AbsR(r);
    if a < b { Squares(a, b); }
  }

  lemma ShorterSquare(a: real, b: real)
    requires 0.0 <= a < b
    ensures Square(a) < Square(b)
  {
    Squares(a, b);
  }

  /** The result is never longer than the curve says, so it stays strictly inside the full circle. */
  lemma CurvedStaysInside(lut: Lut, mag: real, x: int, y: int)
    requires Rising(lut) && Length(mag, x, y) && 0.0 < mag < MAX_MAG
    ensures var r := Curved(lut, mag, x, y);
      Square(r.0 as real) + Square(r.1 as real) <= Square(Curve(lut, mag)) < Square(MAX_MAG)
  {
    CurvedIsScaled(lut, mag, x, y);
    CurveBounds(lut, mag);
    var r, len := Curved(lut, mag, x, y), Curve(lut, mag);
    ScaledLength(mag, x, y, len);
    NoLonger(r.0 as real, Scaled(x, mag, len));
    NoLonger(r.1 as real, Scaled(y, mag, len));
    ShorterSquare(len, MAX_MAG);
  }

  // ----- the linear table -----------------------------------------------------------------------

  /** The table of exponent 1. */
  predicate Linear(lut: Lut) {
    forall i | 0 <= i < LUT_SIZE :: lut[i] == i as real / 256.0 * NORMALIZED_MAX
  }

  lemma LinearInterp(lut: Lut, t: real)
    requires Linear(lut) && 0.0 <= t < 256.0
    ensures Interp(lut, t) == t / 256.0 * NORMALIZED_MAX
  {
    var i := t.Floor;
    assert lut[i + 1] - lut[i] == NORMALIZED_MAX / 256.0;
    assert (t - i as real) * (lut[i + 1] - lut[i]) == (t - i as real) * (NORMALIZED_MAX / 256.0);
  }

  lemma LinearCurve(lut: Lut, mag: real)
    requires Linear(lut) && 0.0 <= mag < MAX_MAG
    ensures Curve(lut, mag) == mag
  {
    LinearInterp(lut, mag / MAX_MAG * 256.0);
  }

  lemma StretchedByOne(x: int, mag: real)
    requires mag > 0.0 && Stick(x)
    ensures Stretched(x, mag, mag) == x
  {
    assert mag / mag == 1.0;
  }

  /** A linear table, the one of the default preset, changes no vector at all. */
  lemma LinearIsIdentity(lut: Lut, mag: real, x: int, y: int)
    requires Linear(lut) && Length(mag, x, y)
    ensures Curved(lut, mag, x, y) == (x, y)
  {
    if x * x + y * y != 0 && mag < MAX_MAG {
      NonzeroLength(mag, x, y);
      LinearCurve(lut, mag);
      CurvedAxes(lut, mag, x, y);
      StretchedByOne(x, mag);
      StretchedByOne(y, mag);
    }
  }

  // ----- dead zone ------------------------------------------------------------------------------

  lemma RescaleCancels(mag: real, threshold: real)
    requires threshold < mag && threshold < MAX_MAG
    ensures threshold + (mag - threshold) * (MAX_MAG - threshold) / (MAX_MAG - threshold) == mag
  {
    var d, e := MAX_MAG - threshold, mag - threshold;
    assert e * d / d == e;
  }

  /** `apply_deadzone`, step by step. It amounts to a cut: inside, the stick is centred; outside, nothing
      changes, since the rescaling factor of the code cancels. */
  method ApplyDeadzone(mag: real, x: int, y: int, pct: byte) returns (u: int, v: int)
    requires Length(mag, x, y)
    ensures pct >= 100 || (pct > 0 && 100.0 * mag <= pct as real * 32768.0) ==> (u, v) == (0, 0)
    ensures pct == 0 || (pct < 100 && 100.0 * mag > pct as real * 32768.0) ==> (u, v) == (x, y)
  {
    var dz := if pct > 100 then 100 else pct as int;
    if dz == 0 { return x, y; }
    if dz >= 100 { return 0, 0; }
    var m := mag;
    var threshold := dz as real / 100.0 * MAX_MAG;
    if m <= threshold { return 0, 0; }
    if m > MAX_MAG { m := MAX_MAG; }
    RescaleCancels(m, threshold);
    var newMag := threshold + (m - threshold) * (MAX_MAG - threshold) / (MAX_MAG - threshold);
    StretchedByOne(x, m);
    StretchedByOne(y, m);
    u, v := Stretched(x, m, newMag), Stretched(y, m, newMag);
  }

  // ----- the axis system in place ---------------------------------------------------------------

  /** `g_preset_luts` and its flag. */
  class AxisSystem {
    const luts: array2<real>
    var initialized: bool

    ghost predicate Valid() {
      luts.Length0 == SENS_PRESET_COUNT && luts.Length1 == LUT_SIZE
    }

    ghost function Row(p: nat): Lut
      requires Valid() && p < SENS_PRESET_COUNT
      reads luts
    {
      seq(LUT_SIZE, i requires 0 <= i < LUT_SIZE reads luts => luts[p, i])
    }

    ghost predicate Ready()
      requires Valid()
      reads this, luts
    {
      initialized && forall p | 0 <= p < SENS_PRESET_COUNT :: Rising(Row(p))
    }

    constructor ()
      ensures Valid() && !initialized && fresh(luts)
    {
      luts := new real[SENS_PRESET_COUNT, LUT_SIZE];
      initialized := false;
    }

    /** `init_axis_system`. */
    method Init(pow: (real, real) -> real)
      requires Valid() && (initialized ==> Ready())
      requires forall p | 0 <= p < SENS_PRESET_COUNT :: PowerLike(pow, EXPONENTS[p])
      modifies this, luts
      ensures Valid() && Ready()
      ensures !old(initialized) ==> forall p | 0 <= p < SENS_PRESET_COUNT :: Row(p) == Table(pow, EXPONENTS[p])
      ensures old(initialized) ==> forall p | 0 <= p < SENS_PRESET_COUNT :: Row(p) == old(Row(p))
    {
      if initialized { return; }
      for p := 0 to SENS_PRESET_COUNT
        invariant forall q, i | 0 <= q < p && 0 <= i < LUT_SIZE :: luts[q, i] == Sampled(pow, EXPONENTS[q], i)
      {
        for i := 0 to LUT_SIZE
          invariant forall q, j | 0 <= q < p && 0 <= j < LUT_SIZE :: luts[q, j] == Sampled(pow, EXPONENTS[q], j)
          invariant forall j | 0 <= j < i :: luts[p, j] == Sampled(pow, EXPONENTS[p], j)
        {
          var output := pow(i as real / 256.0, EXPONENTS[p]);
          if output > 1.0 { output := 1.0; }
          var normalized := output * NORMALIZED_MAX;
          if normalized < 0.0 { normalized := 0.0; }
          if normalized > NORMALIZED_MAX { normalized := NORMALIZED_MAX; }
          luts[p, i] := normalized;
        }
      }
      initialized := true;
      forall p | 0 <= p < SENS_PRESET_COUNT ensures Row(p) == Table(pow, EXPONENTS[p]) && Rising(Row(p)) {
        TableRises(pow, EXPONENTS[p]);
        assert Row(p) == Table(pow, EXPONENTS[p]);
      }
    }

    /** `apply_sensitivity_core`; a preset that does not exist reads as the default one. */
    method ApplySensitivity(preset: byte, mag: real, x: int, y: int) returns (u: int, v: int)
      requires Valid() && Ready() && Length(mag, x, y)
      ensures (u, v) == Curved(Row(if preset as int >= SENS_PRESET_COUNT then 0 else preset as int), mag, x, y)
    {
      var p := if preset as int >= SENS_PRESET_COUNT then 0 else preset as int;
      if x * x + y * y == 0 { return x, y; }
      if mag >= MAX_MAG { return x, y; }
      NonzeroLength(mag, x, y);
      var t := mag / MAX_MAG * 256.0;
      var idx := t.Floor;
      var curved: real;
      if idx >= LUT_SIZE - 1 {
        curved := 1.0;
      } else {
        var low, high := luts[p, idx], luts[p, idx + 1];
        curved := Along(low, high - low, t - idx as real) / NORMALIZED_MAX;
      }
      var newMag := curved * MAX_MAG;
      assert newMag == Curve(Row(p), mag);
      u, v := Stretched(x, mag, newMag), Stretched(y, mag, newMag);
    }
  }

  // ----- pushing a stick further ----------------------------------------------------------------

  /** An axis of a vector of length `m` whose unit vector has the component `u` on it. */
  predicate OnRay(x: int, u: real, m: real) {
    m > 0.0 && x as real == u * m
  }

  /** The component of a vector along a ray, as an integer. */
  function Component(u: real, len: real): int {
    Trunc(u * len)
  }

  lemma ScaledOnRay(x: int, u: real, m: real, len: real)
    requires OnRay(x, u, m)
    ensures Scaled(x, m, len) == u * len
  {
    var q := len / m;
    assert q * m == len;
    assert (u * m) * q == u * (q * m);
  }

  lemma AxisAlongRay(x: int, u: real, m: real, len: real)
    requires OnRay(x, u, m) && AbsR(x as real) <= m && 0.0 <= len < MAX_MAG
    ensures Stretched(x, m, len) == Component(u, len)
  {
    AxisBounds(x, m, len);
    ScaledOnRay(x, u, m, len);
  }

  lemma AbsProduct(u: real, len: real)
    requires 0.0 <= len
    ensures AbsR(u * len) == AbsR(u) * len
  {
    PositiveProduct(AbsR(u), len);
  }

  lemma ComponentGrows(u: real, len: real, longer: real)
    requires 0.0 <= len <= longer
    ensures AbsI(Component(u, len)) <= AbsI(Component(u, longer))
  {
    var v, more := AbsR(u), longer - len;
    PositiveProduct(v, more);
    assert v * len + v * more == v * longer;
    AbsProduct(u, len);
    AbsProduct(u, longer);
  }

  lemma CurvedAlongRay(lut: Lut, m: real, x: int, y: int, u: real)
    requires Rising(lut) && Length(m, x, y) && OnRay(x, u, m)
    ensures Curved(lut, m, x, y).0 == Component(u, Radial(lut, m))
  {
    if m < MAX_MAG {
      CurveBounds(lut, m);
      CurvedAxes(lut, m, x, y);
      AxisWithinLength(m, x, y);
      AxisAlongRay(x, u, m, Curve(lut, m));
    }
  }

  lemma RadialGrows(lut: Lut, m: real, n: real)
    requires Rising(lut) && 0.0 < m <= n
    ensures 0.0 <= Radial(lut, m) <= Radial(lut, n)
  {
    if m < MAX_MAG { CurveBounds(lut, m); }
    if m < n { RadialRises(lut, m, n); }
  }

  /** Pushing a stick further in a direction never lowers an axis: of two vectors along the same ray,
      the longer one comes out at least as large. */
  lemma PushedFurther(lut: Lut, m: real, x: int, y: int, n: real, z: int, w: int, u: real)
    requires Rising(lut) && Length(m, x, y) && Length(n, z, w) && m <= n && OnRay(x, u, m) && OnRay(z, u, n)
    ensures AbsI(Curved(lut, m, x, y).0) <= AbsI(Curved(lut, n, z, w).0)
  {
    RadialGrows(lut, m, n);
    CurvedAlongRay(lut, m, x, y, u);
    CurvedAlongRay(lut, n, z, w, u);
    ComponentGrows(u, Radial(lut, m), Radial(lut, n));
  }

  /** The two axes are treated alike. */
  lemma CurvedMirror(lut: Lut, mag: real, x: int, y: int)
    requires Length(mag, x, y) && Length(mag, y, x)
    ensures Curved(lut, mag, y, x) == (Curved(lut, mag, x, y).1, Curved(lut, mag, x, y).0)
  {
  }
}
