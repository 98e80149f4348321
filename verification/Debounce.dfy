/** Debouncing of physical buttons, one small filter for every button of every slot. */
module Debounce {
  import opened Records

  const DEBOUNCE_DELAY_US := 15000
  const U64 := 0x1_0000_0000_0000_0000

  /** `phy_debounce_t`; a static array starts zeroed. */
  datatype Cell = Cell(lastChange: nat, pending: byte, stable: byte)

  const ZeroCell := Cell(0, 0, 0)

  /** One reading of a button: when, and what. */
  datatype Sample = Sample(time: nat, value: byte)

  /** The difference of two 64-bit unsigned times, which wraps when the clock went back. */
  function Since(now: nat, earlier: nat): (d: nat)
    ensures earlier <= now < U64 ==> d == now - earlier
  {
    (now - earlier) % U64
  }

  /** The body of `debounce_physical`. */
  function Feed(c: Cell, s: Sample): Cell {
    if s.value == c.stable then c.(pending := s.value)
    else if s.value == c.pending then
      if Since(s.time, c.lastChange) >= DEBOUNCE_DELAY_US then c.(stable := s.value, pending := s.value) else c
    else c.(pending := s.value, lastChange := s.time)
  }

  /** The cell of a button after its first `k` readings. */
  function After(samples: seq<Sample>, k: nat): Cell
    requires k <= |samples|
  {
    if k == 0 then ZeroCell else Feed(After(samples, k - 1), samples[k - 1])
  }

  /** Readings are 0 or 1 and time, which fits 64 bits, does not go back. */
  predicate Proper(samples: seq<Sample>) {
    && (forall i | 0 <= i < |samples| :: samples[i].value <= 1 && samples[i].time < U64)
    && (forall i, j | 0 <= i < j < |samples| :: samples[i].time <= samples[j].time)
  }

  /** The readings from `a` to `k` are all the same. */
  predicate Steady(samples: seq<Sample>, a: nat, k: nat) {
    a <= k < |samples| && forall i | a <= i <= k :: samples[i].value == samples[k].value
  }

  /** An unbroken run of equal readings that ends at `k` spans the delay. */
  ghost predicate HeldLong(samples: seq<Sample>, k: nat)
    requires k < |samples|
  {
    exists a: nat :: Steady(samples, a, k) && samples[k].time - samples[a].time >= 15000
  }

  /** What the output should be: the value of the latest run of readings that was held long enough. */
  ghost function Held(samples: seq<Sample>, k: nat): byte
    requires k <= |samples|
  {
    if k == 0 then 0
    else if HeldLong(samples, k - 1) then samples[k - 1].value
    else Held(samples, k - 1)
  }

  /** The first reading of the unbroken run that ends at `k`. */
  function RunStart(samples: seq<Sample>, k: nat): (a: nat)
    requires k < |samples|
    ensures Steady(samples, a, k)
    ensures a == 0 || samples[a - 1].value != samples[k].value
  {
    if k == 0 || samples[k - 1].value != samples[k].value then k else RunStart(samples, k - 1)
  }

  lemma HeldLongFromStart(samples: seq<Sample>, k: nat)
    requires k < |samples| && Proper(samples)
    ensures HeldLong(samples, k) <==> RunIsLong(samples, k)
  {
    var start := RunStart(samples, k);
    if HeldLong(samples, k) {
      var a: nat :| Steady(samples, a, k) && samples[k].time - samples[a].time >= DEBOUNCE_DELAY_US;
      assert a >= start;
    }
  }

  predicate RunIsLong(samples: seq<Sample>, k: nat)
    requires k < |samples|
  {
    samples[k].time - samples[RunStart(samples, k)].time >= DEBOUNCE_DELAY_US
  }

  /** The cell knows when the current run began, if the run differs from the output. */
  lemma {:induction false} CellTracksRun(samples: seq<Sample>, k: nat)
    requires k < |samples| && Proper(samples)
    ensures var c := After(samples, k + 1);
      && c.stable <= 1
      && c.pending == samples[k].value
      && (c.pending != c.stable ==> c.lastChange == samples[RunStart(samples, k)].time)
  {
    if k > 0 { CellTracksRun(samples, k - 1); }
    assert After(samples, k + 1) == Feed(After(samples, k), samples[k]);
  }

  /** One reading, given when its run began: it is taken over exactly when the run was long. */
  lemma FeedTakesLongRun(c: Cell, s: Sample, start: nat)
    requires start <= s.time < U64
    requires s.value != c.stable && s.value == c.pending ==> c.lastChange == start
    requires s.value != c.stable && s.value != c.pending ==> start == s.time
    ensures Feed(c, s).stable == if s.time - start >= DEBOUNCE_DELAY_US then s.value else c.stable
  {
  }

  lemma RunOfDifferentReading(samples: seq<Sample>, k: nat)
    requires k < |samples| && Proper(samples)
    ensures var s, c, start := samples[k], After(samples, k), samples[RunStart(samples, k)].time;
      && start <= s.time < U64
      && (s.value != c.stable && s.value == c.pending ==> c.lastChange == start)
      && (s.value != c.stable && s.value != c.pending ==> start == s.time)
  {
    if k > 0 { CellTracksRun(samples, k - 1); }
  }

  lemma HeldByRun(samples: seq<Sample>, k: nat)
    requires k < |samples| && Proper(samples)
    ensures Held(samples, k + 1) == if RunIsLong(samples, k) then samples[k].value else Held(samples, k)
  {
    HeldLongFromStart(samples, k);
  }

  lemma FeedByRun(samples: seq<Sample>, k: nat)
    requires k < |samples| && Proper(samples)
    ensures After(samples, k + 1).stable == if RunIsLong(samples, k) then samples[k].value else After(samples, k).stable
  {
    RunOfDifferentReading(samples, k);
    FeedTakesLongRun(After(samples, k), samples[k], samples[RunStart(samples, k)].time);
  }

  lemma FilterStep(samples: seq<Sample>, k: nat)
    requires k < |samples| && Proper(samples) && After(samples, k).stable == Held(samples, k)
    ensures After(samples, k + 1).stable == Held(samples, k + 1)
  {
    HeldByRun(samples, k);
    FeedByRun(samples, k);
  }

  /** The filter computes `Held`, for every sequence of readings. */
  lemma {:induction false} FilterIsHeld(samples: seq<Sample>, k: nat)
    requires k <= |samples| && Proper(samples)
    ensures After(samples, k).stable == Held(samples, k)
  {
    if k == 0 {
    } else {
      var p := k - 1;
      FilterIsHeld(samples, p);
      FilterStep(samples, p);
    }
  }

  /** Hence the output flips at a reading exactly when that reading differs from it and ends an unbroken
      run of at least 15 ms, and it flips to the value read. */
  lemma FlipsExactly(samples: seq<Sample>, k: nat)
    requires k < |samples| && Proper(samples)
    ensures var before, now := After(samples, k).stable, After(samples, k + 1).stable;
      && (now != before <==> samples[k].value != before && HeldLong(samples, k))
      && (now != before ==> now == samples[k].value)
  {
    FilterIsHeld(samples, k);
    FilterIsHeld(samples, k + 1);
  }

  predicate Flips(samples: seq<Sample>, k: nat)
    requires k < |samples|
  {
    After(samples, k + 1).stable != After(samples, k).stable
  }

  /** While the button reads what the output shows, the output stays. */
  lemma {:induction false} StaysWhileSteady(samples: seq<Sample>, j: nat, k: nat)
    requires j < k <= |samples|
    requires forall i | j < i < k :: samples[i].value == After(samples, j + 1).stable
    ensures After(samples, k).stable == After(samples, j + 1).stable
  {
    if j + 1 < k {
      StaysWhileSteady(samples, j, k - 1);
    }
  }

  /** Two flips are never closer than 15 ms. */
  lemma FlipsAreApart(samples: seq<Sample>, j: nat, k: nat)
    requires j < k < |samples| && Proper(samples) && Flips(samples, j) && Flips(samples, k)
    ensures samples[k].time - samples[j].time >= DEBOUNCE_DELAY_US
  {
    FlipsExactly(samples, j);
    FlipsExactly(samples, k);
    HeldLongFromStart(samples, k);
    var a := RunStart(samples, k);
    if a <= j {
      assert samples[j].value == samples[k].value;
      StaysWhileSteady(samples, j, k);
      assert false;
    }
  }

  /** The static array `g_phy_debounce`. */
  class Debouncer {
    const cells: array2<Cell>

    ghost predicate Valid() {
      cells.Length0 == MAX_SLOTS && cells.Length1 == PHY_BTN_COUNT
    }

    constructor ()
      ensures Valid() && fresh(cells)
      ensures forall i, p | 0 <= i < MAX_SLOTS && 0 <= p < PHY_BTN_COUNT :: cells[i, p] == ZeroCell
    {
      cells := new Cell[MAX_SLOTS, PHY_BTN_COUNT]((i, p) => ZeroCell);
    }

    /** `debounce_physical`: an index outside the array passes the raw value through. */
    method DebouncePhysical(slot: int, phy: int, raw: byte, now: nat) returns (out: byte)
      requires Valid()
      modifies cells
      ensures !(0 <= slot < MAX_SLOTS && 0 <= phy < PHY_BTN_COUNT) ==> out == raw
      ensures 0 <= slot < MAX_SLOTS && 0 <= phy < PHY_BTN_COUNT ==>
                cells[slot, phy] == Feed(old(cells[slot, phy]), Sample(now, raw)) && out == cells[slot, phy].stable
      ensures forall i, p | 0 <= i < MAX_SLOTS && 0 <= p < PHY_BTN_COUNT && (i != slot || p != phy) ::
                cells[i, p] == old(cells[i, p])
    {
      if slot < 0 || slot >= MAX_SLOTS { return raw; }
      if phy < 0 || phy >= PHY_BTN_COUNT { return raw; }
      var c := cells[slot, phy];
      if raw == c.stable {
        cells[slot, phy] := c.(pending := raw);
        return c.stable;
      }
      if raw == c.pending {
        if Since(now, c.lastChange) >= DEBOUNCE_DELAY_US {
          cells[slot, phy] := c.(stable := raw, pending := raw);
        }
      } else {
        cells[slot, phy] := c.(pending := raw, lastChange := now);
      }
      out := cells[slot, phy].stable;
    }

    /** The loop of the translators over all buttons of a slot; `clock[i]` is the time read for the
        `i`-th call. With debouncing off the raw values go through and the filters do not move. */
    method Stabilise(slot: nat, raw: seq<byte>, clock: seq<nat>, enabled: bool) returns (stable: seq<byte>)
      requires Valid() && slot < MAX_SLOTS && |raw| == PHY_BTN_COUNT && |clock| == PHY_BTN_COUNT
      modifies cells
      ensures |stable| == PHY_BTN_COUNT
      ensures !enabled ==> stable == raw && forall i, p | 0 <= i < MAX_SLOTS && 0 <= p < PHY_BTN_COUNT ::
                cells[i, p] == old(cells[i, p])
      ensures enabled ==> forall p | 0 <= p < PHY_BTN_COUNT ::
                cells[slot, p] == Feed(old(cells[slot, p]), Sample(clock[p], raw[p])) && stable[p] == cells[slot, p].stable
      ensures forall i, p | 0 <= i < MAX_SLOTS && i != slot && 0 <= p < PHY_BTN_COUNT :: cells[i, p] == old(cells[i, p])
    {
      if !enabled { return raw; }
      stable := [];
      for k := 0 to PHY_BTN_COUNT
        invariant |stable| == k
        invariant forall p | 0 <= p < k ::
          cells[slot, p] == Feed(old(cells[slot, p]), Sample(clock[p], raw[p])) && stable[p] == cells[slot, p].stable
        invariant forall i, p | 0 <= i < MAX_SLOTS && 0 <= p < PHY_BTN_COUNT && (i != slot || p >= k) ::
          cells[i, p] == old(cells[i, p])
      {
        var out := DebouncePhysical(slot, k, raw[k], clock[k]);
        stable := stable + [out];
      }
    }
  }
}
