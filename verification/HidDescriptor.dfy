/** HID report descriptors: the short items of section 6.2.2 of the USB HID Device Class Definition 1.11,
    and the report layout they declare. */
module HidDescriptor {
  import opened Records

  /** A short item: its prefix byte and its data bytes. */
  datatype Item = Item(prefix: byte, data: seq<byte>)

  function DataSize(prefix: byte): nat {
    if prefix % 4 == 3 then 4 else (prefix % 4) as nat
  }

  predicate WellFormed(items: seq<Item>) {
    forall i | 0 <= i < |items| :: |items[i].data| == DataSize(items[i].prefix)
  }

  function Flatten(items: seq<Item>): seq<byte> {
    if items == [] then [] else [items[0].prefix] + items[0].data + Flatten(items[1..])
  }

  /** Cutting a byte string into items. */
  function Parse(bytes: seq<byte>): Option<seq<Item>>
    decreases |bytes|
  {
    if bytes == [] then Some([])
    else
      var n := DataSize(bytes[0]);
      if |bytes| < n + 1 then None
      else match Parse(bytes[n + 1..])
        case None => None
        case Some(rest) => Some([Item(bytes[0], bytes[1..n + 1])] + rest)
  }

  /** Bytes and items say the same. */
  lemma {:induction false} ParseFlatten(items: seq<Item>)
    requires WellFormed(items)
    ensures Parse(Flatten(items)) == Some(items)
  {
    if items != [] {
      var bytes, n := Flatten(items), |items[0].data|;
      ParseFlatten(items[1..]);
      assert bytes[0] == items[0].prefix;
      assert bytes[1..n + 1] == items[0].data;
      assert bytes[n + 1..] == Flatten(items[1..]);
      assert [items[0]] + items[1..] == items;
    }
  }

  // ----- the parser state -----------------------------------------------------------------------

  /** The part of a report declared by one main item. */
  datatype Block = Block(
    page: int, usages: seq<int>, usageMin: int, usageMax: int,
    logicalMin: int, logicalMax: int,
    offset: nat, size: nat, count: nat,
    constant: bool, nullable: bool)

  datatype Globals = Globals(page: int, logicalMin: int, logicalMax: int, size: nat, count: nat, reportId: int)

  /** The locals are cleared by every main item; `bits` is the length of the input report so far. */
  datatype State = State(globals: Globals, usages: seq<int>, usageMin: int, usageMax: int, bits: nat, inputs: seq<Block>)

  const Start := State(Globals(0, 0, 0, 0, 0, 0), [], 0, -1, 0, [])

  /** Item data is little-endian; a short item has 0, 1, 2 or 4 bytes of it. */
  function Unsigned(data: seq<byte>): nat {
    match |data|
    case 0 => 0
    case 1 => data[0] as nat
    case 2 => data[0] as nat + 0x100 * data[1] as nat
    case 4 => data[0] as nat + 0x100 * data[1] as nat + 0x1_0000 * data[2] as nat + 0x100_0000 * data[3] as nat
    case _ => 0
  }

  /** The value of an item as a signed number of its own width. */
  function Signed(data: seq<byte>): int {
    var v := Unsigned(data);
    match |data|
    case 0 => 0
    case 1 => if v < 0x80 then v else v - 0x100
    case 2 => if v < 0x8000 then v else v - 0x1_0000
    case _ => if v < 0x8000_0000 then v else v - 0x1_0000_0000
  }

  function ClearLocals(s: State): State {
    s.(usages := [], usageMin := 0, usageMax := -1)
  }

  function Bit(x: nat, k: nat): bool {
    if k == 0 then x % 2 == 1 else Bit(x / 2, k - 1)
  }

  /** An Input item with flags `flags`. */
  function AddInput(s: State, flags: nat): State {
    var g := s.globals;
    var b := Block(g.page, s.usages, s.usageMin, s.usageMax, g.logicalMin, g.logicalMax,
                   s.bits, g.size, g.count, Bit(flags, 0), Bit(flags, 6));
    ClearLocals(s.(bits := s.bits + g.size * g.count, inputs := s.inputs + [b]))
  }

  /** One item; the tag and type are the six upper bits of the prefix. */
  function Step(s: State, item: Item): State {
    var v := Unsigned(item.data);
    match item.prefix as int / 4
    case 0x01 => s.(globals := s.globals.(page := v))                              // Usage Page
    case 0x05 => s.(globals := s.globals.(logicalMin := Signed(item.data)))        // Logical Minimum
    case 0x09 => s.(globals := s.globals.(logicalMax := Signed(item.data)))        // Logical Maximum
    case 0x1D => s.(globals := s.globals.(size := v))                              // Report Size
    case 0x21 => s.(globals := s.globals.(reportId := v))                          // Report ID
    case 0x25 => s.(globals := s.globals.(count := v))                             // Report Count
    case 0x02 => s.(usages := s.usages + [v])                                      // Usage
    case 0x06 => s.(usageMin := v)                                                 // Usage Minimum
    case 0x0A => s.(usageMax := v)                                                 // Usage Maximum
    case 0x20 => AddInput(s, v)                                                    // Input
    case 0x24 => ClearLocals(s)                                                    // Output
    case 0x28 => ClearLocals(s)                                                    // Collection
    case 0x30 => ClearLocals(s)                                                    // End Collection
    case _ => s                                                                    // units and physical ranges
  }

  function Interpret(s: State, items: seq<Item>): State
    decreases |items|
  {
    if items == [] then s else Interpret(Step(s, items[0]), items[1..])
  }

  lemma {:induction false} InterpretConcat(s: State, a: seq<Item>, b: seq<Item>)
    ensures Interpret(s, a + b) == Interpret(Interpret(s, a), b)
    decreases |a|
  {
    if a == [] {
      assert a + b == b;
    } else {
      assert (a + b)[0] == a[0] && (a + b)[1..] == a[1..] + b;
      InterpretConcat(Step(s, a[0]), a[1..], b);
    }
  }

  // ----- reading a report -----------------------------------------------------------------------

  /** Bit `k` of a report, the lowest bit of each byte first. */
  function BitAt(report: seq<byte>, k: nat): bool
    requires k / 8 < |report|
  {
    Bit(report[k / 8] as nat, k % 8)
  }

  /** The `size` bits from `offset` on, as an unsigned number. */
  function Field(report: seq<byte>, offset: nat, size: nat): nat
    requires offset + size <= 8 * |report|
    decreases size
  {
    if size == 0 then 0 else (if BitAt(report, offset) then 1 else 0) + 2 * Field(report, offset + 1, size - 1)
  }

  /** Which element of a block carries a usage. */
  function Element(b: Block, page: int, usage: int): Option<nat> {
    if b.constant || b.page != page then None
    else if b.usageMin <= usage <= b.usageMax && usage - b.usageMin < b.count then Some(usage - b.usageMin)
    else if b.usages == [usage] && b.count == 1 then Some(0)
    else None
  }

  /** The first data block from `k` on that declares a usage. */
  function Find(layout: seq<Block>, page: int, usage: int, k: nat): Option<nat>
    decreases |layout| - k
  {
    if k >= |layout| then None
    else if Element(layout[k], page, usage).Some? then Some(k)
    else Find(layout, page, usage, k + 1)
  }

  lemma {:induction false} FindAt(layout: seq<Block>, page: int, usage: int, k: nat, i: nat)
    requires k <= i < |layout| && Element(layout[i], page, usage).Some?
    requires forall j | k <= j < i :: Element(layout[j], page, usage).None?
    ensures Find(layout, page, usage, k) == Some(i)
    decreases i - k
  {
    if k < i { FindAt(layout, page, usage, k + 1, i); }
  }

  /** Element `e` of a block in a report; a value out of the logical range of a nullable block is the
      null state. */
  function Extract(b: Block, report: seq<byte>, e: nat): Option<nat> {
    if b.offset + e * b.size + b.size > 8 * |report| then None
    else
      var v := Field(report, b.offset + e * b.size, b.size);
      if b.nullable && !(b.logicalMin <= v <= b.logicalMax) then None else Some(v)
  }

  /** The value of a usage in a report. */
  function Value(layout: seq<Block>, report: seq<byte>, page: int, usage: int): Option<nat> {
    match Find(layout, page, usage, 0)
    case None => None
    case Some(i) =>
      if i < |layout| && Element(layout[i], page, usage).Some?
      then Extract(layout[i], report, Element(layout[i], page, usage).value)
      else None
  }

  // ----- bits and bytes -------------------------------------------------------------------------

  /** C's `x & (2^n - 1)`, and `x >> n`. */
  function Low(x: nat, n: nat): nat {
    if n == 0 then 0 else x % 2 + 2 * Low(x / 2, n - 1)
  }

  function High(x: nat, n: nat): nat {
    if n == 0 then x else High(x / 2, n - 1)
  }

  lemma {:induction false} BitOfHigh(x: nat, n: nat, k: nat)
    ensures Bit(High(x, n), k) == Bit(x, n + k)
  {
    if n > 0 { BitOfHigh(x / 2, n - 1, k); }
  }

  lemma {:induction false} BitOfLow(x: nat, n: nat, k: nat)
    ensures Bit(Low(x, n), k) == (k < n && Bit(x, k))
    decreases k
  {
    if n == 0 {
      BitOfZero(k);
    } else if k > 0 {
      BitOfLow(x / 2, n - 1, k - 1);
    }
  }

  /** C's `x | (1 << k)`. */
  function OrBit(x: nat, k: nat): nat {
    if k == 0 then (if x % 2 == 1 then x else x + 1) else 2 * OrBit(x / 2, k - 1) + x % 2
  }

  lemma {:induction false} BitOfOrBit(x: nat, k: nat, j: nat)
    ensures Bit(OrBit(x, k), j) == (j == k || Bit(x, j))
    decreases k
  {
    if k == 0 {
      assert OrBit(x, 0) / 2 == x / 2;
    } else {
      var y := OrBit(x, k);
      assert y % 2 == x % 2 && y / 2 == OrBit(x / 2, k - 1);
      if j > 0 { BitOfOrBit(x / 2, k - 1, j - 1); }
    }
  }

  lemma {:induction false} LowBound(x: nat, n: nat)
    ensures Low(x, n) < Pow2(n)
  {
    if n > 0 { LowBound(x / 2, n - 1); }
  }

  lemma {:induction false} BitOfZero(k: nat)
    ensures !Bit(0, k)
  {
    if k > 0 { BitOfZero(k - 1); }
  }

  /** The bits of one byte, read as a field, are the number they spell. */
  lemma {:induction false} FieldInByte(report: seq<byte>, j: nat, i: nat, n: nat)
    requires j < |report| && i + n <= 8
    ensures Field(report, 8 * j + i, n) == Low(High(report[j] as nat, i), n)
    decreases n
  {
    if n > 0 {
      FieldInByte(report, j, i + 1, n - 1);
      BitOfHigh(report[j] as nat, i, 0);
      HighStep(report[j] as nat, i);
      assert (8 * j + i) / 8 == j && (8 * j + i) % 8 == i;
    }
  }

  lemma {:induction false} HighStep(x: nat, i: nat)
    ensures High(x, i) / 2 == High(x, i + 1)
  {
    if i > 0 { HighStep(x / 2, i - 1); }
  }

  lemma {:induction false} LowOfSmall(x: nat, n: nat)
    requires x < Pow2(n)
    ensures Low(x, n) == x
  {
    if n > 0 { LowOfSmall(x / 2, n - 1); }
  }

  function Pow2(n: nat): nat {
    if n == 0 then 1 else 2 * Pow2(n - 1)
  }

  /** A number of `n` bits read as a field. */
  lemma FieldOfSmall(report: seq<byte>, j: nat, n: nat)
    requires j < |report| && n <= 8 && report[j] as nat < Pow2(n)
    ensures Field(report, 8 * j, n) == report[j] as nat
  {
    FieldInByte(report, j, 0, n);
    LowOfSmall(report[j] as nat, n);
  }

  lemma BitField(report: seq<byte>, j: nat, i: nat)
    requires j < |report| && i < 8
    ensures Field(report, 8 * j + i, 1) == if Bit(report[j] as nat, i) then 1 else 0
  {
    FieldInByte(report, j, i, 1);
    BitOfHigh(report[j] as nat, i, 0);
  }
}
