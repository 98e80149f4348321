/** The virtual pad of `uhid.c`: its report descriptor, the input report built for it, and what a host
    that follows the descriptor reads from that report. */
module HidReport {
  import opened Records
  import opened Keymap
  import opened HidDescriptor
  import Delta = DeltaEmission

  type Frame = Delta.Frame

  // ----- the descriptor -------------------------------------------------------------------------

  function Item1(prefix: byte, v: byte): Item { Item(prefix, [v]) }

  function Item2(prefix: byte, low: byte, high: byte): Item { Item(prefix, [low, high]) }

  /** An application collection with a report number. */
  function HeaderItems(page: byte, usage: byte, report: byte): seq<Item> {
    [Item1(0x05, page), Item1(0x09, usage), Item1(0xA1, 0x01), Item1(0x85, report)]
  }

  function RangeItems(page: byte, first: byte, last: byte, low: byte): seq<Item> {
    [Item1(0x05, page), Item1(0x19, first), Item1(0x29, last), Item1(0x15, low)]
  }

  /** The end of every section: size, count and flags of its input. */
  function InputItems(size: byte, count: byte, flags: byte): seq<Item> {
    [Item1(0x75, size), Item1(0x95, count), Item1(0x81, flags)]
  }

  function ButtonItems(count: byte): seq<Item> {
    RangeItems(0x09, 0x01, count, 0x00) + ([Item1(0x25, 0x01)] + InputItems(0x01, count, 0x02))
  }

  function UsageItems(page: byte, usage: byte, low: byte, high: byte): seq<Item> {
    [Item1(0x05, page), Item1(0x09, usage), Item1(0x15, low), Item1(0x25, high)]
  }

  /** A physical range and a unit, which say nothing about the layout. */
  function UnitItems(low: byte, highLow: byte, highHigh: byte, unit: byte): seq<Item> {
    [Item1(0x35, low), Item2(0x46, highLow, highHigh), Item1(0x65, unit)]
  }

  function HatItems(usage: byte): seq<Item> {
    UsageItems(0x01, usage, 0x00, 0x07) + UnitItems(0x00, 0x3B, 0x01, 0x14) + InputItems(0x08, 0x01, 0x42)
  }

  function AxisRange(usage: byte, low: byte): seq<Item> {
    [Item1(0x09, usage), Item1(0x15, low), Item2(0x26, 0xFF, 0x00)]
  }

  /** One byte: an axis, or padding. Some of them name the usage page again. */
  function ByteItems(withPage: bool, usage: byte, flags: byte): seq<Item> {
    (if withPage then [Item1(0x05, 0x01)] else []) + (AxisRange(usage, 0x00) + InputItems(0x08, 0x01, flags))
  }

  /** The rumble output report and the ends of the collections. */
  function OutputItems(): seq<Item> {
    [Item1(0x05, 0x0F), Item1(0x09, 0x21), Item1(0xA1, 0x02)]
    + [Item1(0x75, 0x08), Item1(0x95, 0x04), Item2(0x46, 0xFF, 0x00), Item2(0x26, 0xFF, 0x00)]
    + [Item1(0x09, 0x26), Item1(0x91, 0x02), Item(0xC0, []), Item(0xC0, [])]
  }

  const SECTIONS := 12

  function Section(i: nat): seq<Item> {
    match i
    case 0 => ButtonItems(0x0F)
    case 1 => InputItems(0x01, 0x01, 0x03)
    case 2 => HatItems(0x39)
    case 3 => ByteItems(true, 0x30, 0x02)
    case 4 => ByteItems(false, 0x31, 0x02)
    case 5 => ByteItems(true, 0x00, 0x03)
    case 6 => ByteItems(true, 0x00, 0x03)
    case 7 => ByteItems(false, 0x33, 0x02)
    case 8 => ByteItems(false, 0x34, 0x02)
    case 9 => ByteItems(true, 0x00, 0x03)
    case 10 => ByteItems(true, 0x32, 0x02)
    case _ => ByteItems(false, 0x35, 0x02)
  }

  /** The header and the first `n` sections. */
  function Sections(n: nat): seq<Item> {
    if n == 0 then HeaderItems(0x01, 0x05, 0x01) else Sections(n - 1) + Section(n - 1)
  }

  /** `uhid_build_report_descriptor`. */
  function Descriptor(): seq<Item> {
    Sections(SECTIONS) + OutputItems()
  }

  // ----- the layout it declares -----------------------------------------------------------------

  function ByteBlock(i: nat, usage: int, constant: bool): Block {
    Block(1, [usage], 0, -1, 0, 255, 8 * i, 8, 1, constant, false)
  }

  /** The block of each section. */
  function BlockOf(i: nat): Block {
    match i
    case 0 => Block(9, [], 1, 15, 0, 1, 0, 1, 15, false, false)
    case 1 => Block(9, [], 0, -1, 0, 1, 15, 1, 1, true, false)
    case 2 => Block(1, [0x39], 0, -1, 0, 7, 16, 8, 1, false, true)
    case 3 => ByteBlock(3, 0x30, false)
    case 4 => ByteBlock(4, 0x31, false)
    case 5 => ByteBlock(5, 0x00, true)
    case 6 => ByteBlock(6, 0x00, true)
    case 7 => ByteBlock(7, 0x33, false)
    case 8 => ByteBlock(8, 0x34, false)
    case 9 => ByteBlock(9, 0x00, true)
    case 10 => ByteBlock(10, 0x32, false)
    case _ => ByteBlock(11, 0x35, false)
  }

  function Blocks(n: nat): (r: seq<Block>)
    ensures |r| == n
  {
    if n == 0 then [] else Blocks(n - 1) + [BlockOf(n - 1)]
  }

  /** The parser after `n` sections. */
  function Reached(n: nat): State {
    var g := match n
      case 0 => Globals(1, 0, 0, 0, 0, 1)
      case 1 => Globals(9, 0, 1, 1, 15, 1)
      case 2 => Globals(9, 0, 1, 1, 1, 1)
      case 3 => Globals(1, 0, 7, 8, 1, 1)
      case _ => Globals(1, 0, 255, 8, 1, 1);
    State(g, [], 0, -1, if n == 0 then 0 else if n == 1 then 15 else 8 * n, Blocks(n))
  }

  lemma Interpret3(s: State, items: seq<Item>)
    requires |items| == 3
    ensures Interpret(s, items) == Step(Step(Step(s, items[0]), items[1]), items[2])
  {
    var more, last := items[1..], items[2..];
    assert more[1..] == last && last[1..] == [];
    var s1 := Step(s, items[0]);
    var s2 := Step(s1, items[1]);
    assert Interpret(s, items) == Interpret(s1, more);
    assert Interpret(s1, more) == Interpret(s2, last);
    assert Interpret(s2, last) == Interpret(Step(s2, last[0]), last[1..]);
  }

  lemma Interpret4(s: State, items: seq<Item>)
    requires |items| == 4
    ensures Interpret(s, items) == Step(Step(Step(Step(s, items[0]), items[1]), items[2]), items[3])
  {
    Interpret3(Step(s, items[0]), items[1..]);
  }

  predicate NoLocals(s: State) {
    s.usages == [] && s.usageMin == 0 && s.usageMax == -1
  }

  lemma Interpret1(s: State, item: Item)
    ensures Interpret(s, [item]) == Step(s, item)
  {
    assert Interpret(Step(s, item), [item][1..]) == Step(s, item);
  }

  lemma InputDeclares(s: State, size: byte, count: byte, flags: byte)
    ensures Interpret(s, InputItems(size, count, flags)) ==
            AddInput(s.(globals := s.globals.(size := size as nat, count := count as nat)), flags as nat)
  {
    Interpret3(s, InputItems(size, count, flags));
    StepSizes(s, size, count);
    StepInput(s.(globals := s.globals.(size := size as nat, count := count as nat)), flags);
  }

  lemma StepSizes(s: State, size: byte, count: byte)
    ensures Step(Step(s, Item1(0x75, size)), Item1(0x95, count)) ==
            s.(globals := s.globals.(size := size as nat, count := count as nat))
  {
  }

  lemma StepInput(s: State, flags: byte)
    ensures Step(s, Item1(0x81, flags)) == AddInput(s, flags as nat)
  {
  }

  lemma RangeSets(s: State, page: byte, first: byte, last: byte, low: byte)
    requires low < 0x80
    ensures Interpret(s, RangeItems(page, first, last, low)) ==
            s.(globals := s.globals.(page := page as int, logicalMin := low as int), usageMin := first as int, usageMax := last as int)
  {
    Interpret4(s, RangeItems(page, first, last, low));
  }

  lemma ButtonsDeclare(s: State, count: byte)
    requires NoLocals(s)
    ensures Interpret(s, ButtonItems(count)) == s.(
      globals := s.globals.(page := 9, logicalMin := 0, logicalMax := 1, size := 1, count := count as nat),
      bits := s.bits + count as nat,
      inputs := s.inputs + [Block(9, [], 1, count as int, 0, 1, s.bits, 1, count as nat, false, false)])
  {
    var max := Item1(0x25, 0x01);
    InterpretConcat(s, RangeItems(0x09, 0x01, count, 0x00), [max] + InputItems(0x01, count, 0x02));
    RangeSets(s, 0x09, 0x01, count, 0x00);
    var s1 := Interpret(s, RangeItems(0x09, 0x01, count, 0x00));
    InterpretConcat(s1, [max], InputItems(0x01, count, 0x02));
    Interpret1(s1, max);
    InputDeclares(Step(s1, max), 0x01, count, 0x02);
    FlagBits();
  }

  /** The flags that occur: constant or variable, nullable or not. */
  lemma FlagBits()
    ensures !Bit(0x02, 0) && !Bit(0x02, 6) && Bit(0x03, 0) && !Bit(0x03, 6) && !Bit(0x42, 0) && Bit(0x42, 6)
  {
  }

  lemma FillerDeclares(s: State, count: byte)
    requires NoLocals(s)
    ensures Interpret(s, InputItems(0x01, count, 0x03)) == s.(
      globals := s.globals.(size := 1, count := count as nat), bits := s.bits + count as nat,
      inputs := s.inputs + [Block(s.globals.page, [], 0, -1, s.globals.logicalMin, s.globals.logicalMax, s.bits, 1, count as nat, true, false)])
  {
    InputDeclares(s, 0x01, count, 0x03);
    FlagBits();
  }

  lemma UsageSets(s: State, page: byte, usage: byte, low: byte, high: byte)
    requires low < 0x80 && high < 0x80
    ensures Interpret(s, UsageItems(page, usage, low, high)) ==
            s.(globals := s.globals.(page := page as int, logicalMin := low as int, logicalMax := high as int), usages := s.usages + [usage as int])
  {
    Interpret4(s, UsageItems(page, usage, low, high));
  }

  lemma UnitsKeep(s: State, low: byte, highLow: byte, highHigh: byte, unit: byte)
    ensures Interpret(s, UnitItems(low, highLow, highHigh, unit)) == s
  {
    Interpret3(s, UnitItems(low, highLow, highHigh, unit));
  }

  lemma HatDeclares(s: State, usage: byte)
    requires NoLocals(s)
    ensures Interpret(s, HatItems(usage)) == s.(
      globals := s.globals.(page := 1, logicalMin := 0, logicalMax := 7, size := 8, count := 1), bits := s.bits + 8,
      inputs := s.inputs + [Block(1, [usage as int], 0, -1, 0, 7, s.bits, 8, 1, false, true)])
  {
    var a, b, c := UsageItems(0x01, usage, 0x00, 0x07), UnitItems(0x00, 0x3B, 0x01, 0x14), InputItems(0x08, 0x01, 0x42);
    InterpretConcat(s, a + b, c);
    InterpretConcat(s, a, b);
    UsageSets(s, 0x01, usage, 0x00, 0x07);
    UnitsKeep(Interpret(s, a), 0x00, 0x3B, 0x01, 0x14);
    ByteInputDeclares(Interpret(s, a), 0x42);
    assert s.usages + [usage as int] == [usage as int];
  }

  lemma AxisRangeSets(s: State, usage: byte, low: byte)
    requires low < 0x80
    ensures Interpret(s, AxisRange(usage, low)) ==
            s.(globals := s.globals.(logicalMin := low as int, logicalMax := 255), usages := s.usages + [usage as int])
  {
    Interpret3(s, AxisRange(usage, low));
  }

  /** The end of a section of one byte. */
  lemma ByteInputDeclares(s: State, flags: byte)
    requires flags == 0x02 || flags == 0x03 || flags == 0x42
    ensures Interpret(s, InputItems(0x08, 0x01, flags)) == ClearLocals(s).(
      globals := s.globals.(size := 8, count := 1), bits := s.bits + 8,
      inputs := s.inputs + [Block(s.globals.page, s.usages, s.usageMin, s.usageMax, s.globals.logicalMin, s.globals.logicalMax,
                                  s.bits, 8, 1, flags == 0x03, flags == 0x42)])
  {
    InputDeclares(s, 0x08, 0x01, flags);
    FlagBits();
  }

  lemma AxisDeclares(s: State, usage: byte, flags: byte)
    requires NoLocals(s) && (flags == 0x02 || flags == 0x03)
    ensures Interpret(s, AxisRange(usage, 0x00) + InputItems(0x08, 0x01, flags)) == s.(
      globals := s.globals.(logicalMin := 0, logicalMax := 255, size := 8, count := 1), bits := s.bits + 8,
      inputs := s.inputs + [Block(s.globals.page, [usage as int], 0, -1, 0, 255, s.bits, 8, 1, flags == 0x03, false)])
  {
    InterpretConcat(s, AxisRange(usage, 0x00), InputItems(0x08, 0x01, flags));
    AxisRangeSets(s, usage, 0x00);
    ByteInputDeclares(Interpret(s, AxisRange(usage, 0x00)), flags);
    assert s.usages + [usage as int] == [usage as int];
  }

  lemma ByteDeclares(s: State, withPage: bool, usage: byte, flags: byte)
    requires NoLocals(s) && (flags == 0x02 || flags == 0x03) && (withPage || s.globals.page == 1)
    ensures Interpret(s, ByteItems(withPage, usage, flags)) == s.(
      globals := s.globals.(page := 1, logicalMin := 0, logicalMax := 255, size := 8, count := 1), bits := s.bits + 8,
      inputs := s.inputs + [Block(1, [usage as int], 0, -1, 0, 255, s.bits, 8, 1, flags == 0x03, false)])
  {
    var page := if withPage then [Item1(0x05, 0x01)] else [];
    InterpretConcat(s, page, AxisRange(usage, 0x00) + InputItems(0x08, 0x01, flags));
    if withPage { Interpret1(s, Item1(0x05, 0x01)); }
    AxisDeclares(s.(globals := s.globals.(page := 1)), usage, flags);
  }

  lemma HeaderReaches(page: byte, usage: byte, report: byte)
    ensures Interpret(Start, HeaderItems(page, usage, report)) == State(Globals(page as int, 0, 0, 0, 0, report as int), [], 0, -1, 0, [])
  {
    Interpret4(Start, HeaderItems(page, usage, report));
  }

  /** Each section takes the parser to the next expected state. */
  lemma SectionReaches(i: nat)
    requires i < SECTIONS
    ensures Interpret(Reached(i), Section(i)) == Reached(i + 1)
  {
    match i
    case 0 => ButtonsDeclare(Reached(i), 0x0F);
    case 1 => FillerDeclares(Reached(i), 0x01);
    case 2 => HatDeclares(Reached(i), 0x39);
    case 3 => ByteDeclares(Reached(i), true, 0x30, 0x02);
    case 4 => ByteDeclares(Reached(i), false, 0x31, 0x02);
    case 5 => ByteDeclares(Reached(i), true, 0x00, 0x03);
    case 6 => ByteDeclares(Reached(i), true, 0x00, 0x03);
    case 7 => ByteDeclares(Reached(i), false, 0x33, 0x02);
    case 8 => ByteDeclares(Reached(i), false, 0x34, 0x02);
    case 9 => ByteDeclares(Reached(i), true, 0x00, 0x03);
    case 10 => ByteDeclares(Reached(i), true, 0x32, 0x02);
    case _ => ByteDeclares(Reached(i), false, 0x35, 0x02);
  }

  lemma OneMoreSection(n: nat)
    requires n < SECTIONS && Interpret(Start, Sections(n)) == Reached(n)
    ensures Interpret(Start, Sections(n + 1)) == Reached(n + 1)
  {
    InterpretConcat(Start, Sections(n), Section(n));
    SectionReaches(n);
  }

  lemma {:induction false} SectionsReach(n: nat)
    requires n <= SECTIONS
    ensures Interpret(Start, Sections(n)) == Reached(n)
  {
    if n == 0 {
      HeaderReaches(0x01, 0x05, 0x01);
    } else {
      SectionsReach(n - 1);
      OneMoreSection(n - 1);
    }
  }

  predicate NoInput(items: seq<Item>) {
    forall i | 0 <= i < |items| :: items[i].prefix as int / 4 != 0x20
  }

  lemma OutputItemsAreShort()
    ensures NoInput(OutputItems()) && WellFormed(OutputItems())
  {
  }

  lemma {:induction false} NoInputKeeps(s: State, items: seq<Item>)
    requires NoInput(items)
    ensures Interpret(s, items).inputs == s.inputs && Interpret(s, items).bits == s.bits
    decreases |items|
  {
    if items != [] { NoInputKeeps(Step(s, items[0]), items[1..]); }
  }

  lemma OutputKeepsLayout(n: nat, out: seq<Item>)
    requires n <= SECTIONS && NoInput(out)
    ensures Interpret(Start, Sections(n) + out).inputs == Reached(n).inputs
    ensures Interpret(Start, Sections(n) + out).bits == Reached(n).bits
  {
    SectionsReach(n);
    InterpretConcat(Start, Sections(n), out);
    NoInputKeeps(Reached(n), out);
  }

  /** The layout of the input report: 15 buttons and a filler bit, then one byte each for the hat, X, Y,
      two of padding, Rx, Ry, one of padding, Z and Rz; 12 bytes in all. */
  lemma DescriptorLayout()
    ensures Interpret(Start, Descriptor()).inputs == Blocks(SECTIONS)
    ensures Interpret(Start, Descriptor()).bits == 96
  {
    OutputItemsAreShort();
    OutputKeepsLayout(SECTIONS, OutputItems());
  }

  lemma ByteItemsWellFormed(withPage: bool, usage: byte, flags: byte)
    ensures WellFormed(ByteItems(withPage, usage, flags))
  {
  }

  lemma ButtonItemsWellFormed(count: byte)
    ensures WellFormed(ButtonItems(count))
  {
  }

  lemma HatItemsWellFormed(usage: byte)
    ensures WellFormed(HatItems(usage))
  {
  }

  lemma SectionWellFormed(i: nat)
    ensures WellFormed(Section(i))
  {
    ButtonItemsWellFormed(0x0F);
    HatItemsWellFormed(0x39);
    forall withPage: bool, usage: byte, flags: byte ensures WellFormed(ByteItems(withPage, usage, flags)) {
      ByteItemsWellFormed(withPage, usage, flags);
    }
  }

  lemma WellFormedConcat(a: seq<Item>, b: seq<Item>, both: seq<Item>)
    requires WellFormed(a) && WellFormed(b) && both == a + b
    ensures WellFormed(both)
  {
  }

  lemma HeaderWellFormed(page: byte, usage: byte, report: byte)
    ensures WellFormed(HeaderItems(page, usage, report))
  {
  }

  lemma {:induction false} SectionsWellFormed(n: nat, items: seq<Item>)
    requires items == Sections(n)
    ensures WellFormed(items)
  {
    if n == 0 {
      HeaderWellFormed(0x01, 0x05, 0x01);
    } else {
      var rest, section := Sections(n - 1), Section(n - 1);
      SectionsWellFormed(n - 1, rest);
      SectionWellFormed(n - 1);
      WellFormedConcat(rest, section, items);
    }
  }

  /** The bytes given to the kernel cut into these items again. */
  lemma DescriptorParses()
    ensures Parse(Flatten(Descriptor())) == Some(Descriptor())
  {
    OutputItemsAreShort();
    SectionsWellFormed(SECTIONS, Sections(SECTIONS));
    WellFormedConcat(Sections(SECTIONS), OutputItems(), Descriptor());
    ParseFlatten(Descriptor());
  }

  // ----- the report -----------------------------------------------------------------------------

  function OrIf(x: nat, on: bool, k: nat): nat {
    if on then OrBit(x, k) else x
  }

  /** Whether the button of usage `k + 1` is down. Usages 3 and 6 are never used, and the trigger
      buttons only in digital mode. */
  function Down(f: Frame, k: nat): bool {
    var b := f.buttons;
    match k
    case 0 => b.cross != 0
    case 1 => b.circle != 0
    case 3 => b.square != 0
    case 4 => b.triangle != 0
    case 6 => b.l1 != 0
    case 7 => b.r1 != 0
    case 8 => f.digital && b.l2 != 0
    case 9 => f.digital && b.r2 != 0
    case 10 => b.share != 0
    case 11 => b.options != 0
    case 12 => b.ps != 0
    case 13 => b.l3 != 0
    case 14 => b.r3 != 0
    case _ => false
  }

  /** The value of the hat byte. */
  function HatCode(x: int, y: int): byte {
    if y == -1 && x == 0 then 0
    else if y == -1 && x == 1 then 1
    else if y == 0 && x == 1 then 2
    else if y == 1 && x == 1 then 3
    else if y == 1 && x == 0 then 4
    else if y == 1 && x == -1 then 5
    else if y == 0 && x == -1 then 6
    else if y == -1 && x == -1 then 7
    else 8
  }

  /** The direction a host understands: eighths of a turn clockwise from up, or centred. */
  function Direction(v: Option<nat>): (int, int) {
    match v
    case None => (0, 0)
    case Some(d) =>
      (if 1 <= d <= 3 then 1 else if 5 <= d <= 7 then -1 else 0,
       if d == 0 || d == 1 || d == 7 then -1 else if 3 <= d <= 5 then 1 else 0)
  }

  predicate Sticks(f: Frame) {
    Stick(f.lx) && Stick(f.ly) && Stick(f.rx) && Stick(f.ry)
  }

  predicate Proper(f: Frame) {
    && Sticks(f)
    && -1 <= f.buttons.hatX <= 1 && -1 <= f.buttons.hatY <= 1
  }

  function StickByte(x: int): byte
    requires Stick(x)
  {
    ((x + 32768) / 256) as byte
  }

  function AxisByte(f: Frame, c: Delta.Code): byte
    requires c == Delta.AbsZ || c == Delta.AbsRz
  {
    Delta.AxisInRange(f, c);
    Delta.Field(f, c) as byte
  }

  /** What a host that knows the layout reads from the bytes after the report number. */
  predicate Decodes(layout: seq<Block>, payload: seq<byte>, f: Frame)
    requires Proper(f)
  {
    && (forall u | 1 <= u <= 15 :: Value(layout, payload, 9, u) == Some(if Down(f, u - 1) then 1 else 0))
    && Direction(Value(layout, payload, 1, 0x39)) == (f.buttons.hatX, f.buttons.hatY)
    && Value(layout, payload, 1, 0x30) == Some(StickByte(f.lx) as nat)
    && Value(layout, payload, 1, 0x31) == Some(StickByte(f.ly) as nat)
    && Value(layout, payload, 1, 0x33) == Some(StickByte(f.rx) as nat)
    && Value(layout, payload, 1, 0x34) == Some(StickByte(f.ry) as nat)
    && (!f.digital ==>
          && Value(layout, payload, 1, 0x32) == Some(AxisByte(f, Delta.AbsZ) as nat)
          && Value(layout, payload, 1, 0x35) == Some(AxisByte(f, Delta.AbsRz) as nat))
    && (f.digital ==> Value(layout, payload, 1, 0x32) == Some(0))
  }

  /** The bytes of a report that carry something: the button word, the hat, the four stick axes and the
      two trigger axes. */
  predicate Carries(low: byte, high: byte, hat: byte, x: byte, y: byte, rx: byte, ry: byte, z: byte, rz: byte,
                    f: Frame, word: nat)
    requires Sticks(f)
  {
    && low as nat == Low(word, 8) && high as nat == Low(High(word, 8), 8)
    && hat == HatCode(f.buttons.hatX, f.buttons.hatY)
    && x == StickByte(f.lx) && y == StickByte(f.ly) && rx == StickByte(f.rx) && ry == StickByte(f.ry)
    && (!f.digital ==> z == AxisByte(f, Delta.AbsZ) && rz == AxisByte(f, Delta.AbsRz))
    && (f.digital ==> z == 0)
  }

  predicate Holds(payload: seq<byte>, f: Frame, word: nat)
    requires Sticks(f)
  {
    |payload| == 12
    && Carries(payload[0], payload[1], payload[2], payload[3], payload[4], payload[7], payload[8],
               payload[10], payload[11], f, word)
  }

  lemma {:induction false} BlocksAt(n: nat, i: nat)
    requires i < n
    ensures Blocks(n)[i] == BlockOf(i)
  {
    if n > 1 { BlocksAt(n - 1, if i < n - 1 then i else 0); }
  }

  /** The section that declares a usage of the generic desktop page. */
  function PlaceOf(usage: int): nat {
    match usage
    case 0x39 => 2
    case 0x30 => 3
    case 0x31 => 4
    case 0x33 => 7
    case 0x34 => 8
    case 0x32 => 10
    case _ => 11
  }

  predicate Axis(usage: int) {
    usage == 0x39 || usage == 0x30 || usage == 0x31 || usage == 0x33 || usage == 0x34 || usage == 0x32 || usage == 0x35
  }

  lemma NotEarlier(usage: int, j: nat)
    requires Axis(usage) && j < PlaceOf(usage)
    ensures Element(BlockOf(j), 1, usage).None?
  {
  }

  lemma AxisFound(usage: int, n: nat)
    requires Axis(usage) && n >= SECTIONS
    ensures Find(Blocks(n), 1, usage, 0) == Some(PlaceOf(usage))
    ensures PlaceOf(usage) < n && Blocks(n)[PlaceOf(usage)] == BlockOf(PlaceOf(usage))
  {
    var i := PlaceOf(usage);
    BlocksAt(n, i);
    forall j: nat | j < i ensures Element(Blocks(n)[j], 1, usage).None? {
      BlocksAt(n, j);
      NotEarlier(usage, j);
    }
    FindAt(Blocks(n), 1, usage, 0, i);
  }

  /** A block of one byte reads that byte; out of its range a nullable one is in the null state. */
  lemma ByteExtract(b: Block, payload: seq<byte>, i: nat)
    requires b.offset == 8 * i && b.size == 8 && i < |payload|
    ensures var v := payload[i] as nat;
      Extract(b, payload, 0) == if b.nullable && !(b.logicalMin <= v <= b.logicalMax) then None else Some(v)
  {
    FirstElement(b, payload);
    ByteIsSmall(payload[i]);
    FieldOfSmall(payload, i, b.size);
  }

  lemma FirstElement(b: Block, payload: seq<byte>)
    requires b.offset + b.size <= 8 * |payload|
    ensures var v := Field(payload, b.offset, b.size);
      Extract(b, payload, 0) == if b.nullable && !(b.logicalMin <= v <= b.logicalMax) then None else Some(v)
  {
    assert 0 * b.size == 0;
  }

  lemma ByteIsSmall(x: byte)
    ensures x as nat < Pow2(8)
  {
    assert Pow2(4) == 16;
  }

  lemma AxisBlock(usage: int)
    requires Axis(usage)
    ensures var b := BlockOf(PlaceOf(usage));
      && Element(b, 1, usage) == Some(0) && b.offset == 8 * PlaceOf(usage) && b.size == 8
      && (b.nullable <==> usage == 0x39) && (b.nullable ==> b.logicalMin == 0 && b.logicalMax == 7)
  {
  }

  lemma AxisValue(usage: int, n: nat, payload: seq<byte>)
    requires Axis(usage) && |payload| == 12 && n >= SECTIONS
    ensures Value(Blocks(n), payload, 1, usage) ==
            var v := payload[PlaceOf(usage)] as nat;
            if usage == 0x39 && v > 7 then None else Some(v)
  {
    AxisFound(usage, n);
    AxisBlock(usage);
    ByteExtract(BlockOf(PlaceOf(usage)), payload, PlaceOf(usage));
  }

  lemma ButtonsFound(u: int, n: nat)
    requires 1 <= u <= 15 && n >= SECTIONS
    ensures n > 0 && Blocks(n)[0] == BlockOf(0)
    ensures Element(Blocks(n)[0], 9, u) == Some(u - 1) && Find(Blocks(n), 9, u, 0) == Some(0)
  {
    BlocksAt(n, 0);
    FindAt(Blocks(n), 9, u, 0, 0);
  }

  /** Element `k` of a block of single bits at the start of a report. */
  lemma BitExtract(b: Block, payload: seq<byte>, k: nat)
    requires b.offset == 0 && b.size == 1 && !b.nullable && k < 8 * |payload|
    ensures Extract(b, payload, k) == Some(if Bit(payload[k / 8] as nat, k % 8) then 1 else 0)
  {
    var j, i := k / 8, k % 8;
    assert k == 8 * j + i;
    BitField(payload, j, i);
  }

  lemma ButtonValue(u: int, n: nat, payload: seq<byte>)
    requires 1 <= u <= 15 && |payload| == 12 && n >= SECTIONS
    ensures Value(Blocks(n), payload, 9, u) == Some(if Bit(payload[(u - 1) / 8] as nat, (u - 1) % 8) then 1 else 0)
  {
    ButtonsFound(u, n);
    BitExtract(BlockOf(0), payload, u - 1);
  }

  /** The two halves of a word of `2 * n` bits hold its bits. */
  lemma WordBit(word: nat, k: nat, n: nat)
    requires k < 2 * n
    ensures k < n ==> Bit(Low(word, n), k) == Bit(word, k)
    ensures k >= n ==> Bit(Low(High(word, n), n), k - n) == Bit(word, k)
  {
    if k < n {
      BitOfLow(word, n, k);
    } else {
      BitOfLow(High(word, n), n, k - n);
      BitOfHigh(word, n, k - n);
    }
  }

  lemma HatDecodes(x: int, y: int, v: nat)
    requires -1 <= x <= 1 && -1 <= y <= 1 && v == HatCode(x, y) as nat
    ensures Direction(if v > 7 then None else Some(v)) == (x, y)
  {
  }

  lemma WordDecodes(n: nat, payload: seq<byte>, f: Frame, word: nat, u: int)
    requires Proper(f) && Holds(payload, f, word) && n >= SECTIONS && 1 <= u <= 15
    requires Bit(word, u - 1) == Down(f, u - 1)
    ensures Value(Blocks(n), payload, 9, u) == Some(if Down(f, u - 1) then 1 else 0)
  {
    ButtonValue(u, n, payload);
    WordBit(word, u - 1, 8);
  }

  lemma HatByteDecodes(n: nat, payload: seq<byte>, f: Frame, word: nat)
    requires Proper(f) && Holds(payload, f, word) && n >= SECTIONS
    ensures Direction(Value(Blocks(n), payload, 1, 0x39)) == (f.buttons.hatX, f.buttons.hatY)
  {
    AxisValue(0x39, n, payload);
    HatDecodes(f.buttons.hatX, f.buttons.hatY, payload[2] as nat);
  }

  /** Any payload with the right bytes decodes to the slot it was built from. */
  lemma HeldIsDecoded(n: nat, payload: seq<byte>, f: Frame, word: nat)
    requires Proper(f) && Holds(payload, f, word) && forall k | 0 <= k < 15 :: Bit(word, k) == Down(f, k)
    requires n >= SECTIONS
    ensures Decodes(Blocks(n), payload, f)
  {
    forall u | 1 <= u <= 15 ensures Value(Blocks(n), payload, 9, u) == Some(if Down(f, u - 1) then 1 else 0) {
      WordDecodes(n, payload, f, word, u);
    }
    HatByteDecodes(n, payload, f, word);
    AxisValue(0x30, n, payload);
    AxisValue(0x31, n, payload);
    AxisValue(0x33, n, payload);
    AxisValue(0x34, n, payload);
    AxisValue(0x32, n, payload);
    AxisValue(0x35, n, payload);
  }

  function One(b: byte): Option<nat> {
    Some(if b != 0 then 1 else 0)
  }

  /** Which button a host sees under which usage; usages 3 and 6 are never set. */
  lemma ButtonsDecode(layout: seq<Block>, payload: seq<byte>, f: Frame)
    requires Proper(f) && Decodes(layout, payload, f)
    ensures Value(layout, payload, 9, 1) == One(f.buttons.cross) && Value(layout, payload, 9, 2) == One(f.buttons.circle)
    ensures Value(layout, payload, 9, 4) == One(f.buttons.square) && Value(layout, payload, 9, 5) == One(f.buttons.triangle)
    ensures Value(layout, payload, 9, 7) == One(f.buttons.l1) && Value(layout, payload, 9, 8) == One(f.buttons.r1)
    ensures Value(layout, payload, 9, 11) == One(f.buttons.share) && Value(layout, payload, 9, 12) == One(f.buttons.options)
    ensures Value(layout, payload, 9, 13) == One(f.buttons.ps)
    ensures Value(layout, payload, 9, 14) == One(f.buttons.l3) && Value(layout, payload, 9, 15) == One(f.buttons.r3)
    ensures Value(layout, payload, 9, 9) == (if f.digital then One(f.buttons.l2) else Some(0))
    ensures Value(layout, payload, 9, 10) == (if f.digital then One(f.buttons.r2) else Some(0))
    ensures Value(layout, payload, 9, 3) == Some(0) && Value(layout, payload, 9, 6) == Some(0)
  {
  }

  /** The stick axes arrive as their upper bytes, counted from the lower end, ... */
  lemma SticksDecode(layout: seq<Block>, payload: seq<byte>, f: Frame)
    requires Proper(f) && Decodes(layout, payload, f)
    ensures Value(layout, payload, 1, 0x30) == Some((f.lx + 32768) / 256) && Value(layout, payload, 1, 0x31) == Some((f.ly + 32768) / 256)
    ensures Value(layout, payload, 1, 0x33) == Some((f.rx + 32768) / 256) && Value(layout, payload, 1, 0x34) == Some((f.ry + 32768) / 256)
  {
  }

  /** ... an analog trigger as its raw value while it is pulled and keeps its own button, as nothing when it is mapped
      elsewhere, and, released, as its logical button says. */
  lemma TriggersDecode(layout: seq<Block>, payload: seq<byte>, f: Frame)
    requires Proper(f) && Decodes(layout, payload, f) && !f.digital
    ensures f.lt > 0 ==> Value(layout, payload, 1, 0x32) == Some(if f.l2Direct then f.lt as nat else 0)
    ensures f.rt > 0 ==> Value(layout, payload, 1, 0x35) == Some(if f.r2Direct then f.rt as nat else 0)
    ensures f.lt == 0 ==> Value(layout, payload, 1, 0x32) == Some(if f.buttons.l2 != 0 then 255 else 0)
    ensures f.rt == 0 ==> Value(layout, payload, 1, 0x35) == Some(if f.buttons.r2 != 0 then 255 else 0)
  {
    TriggerBytes(f);
  }

  lemma TriggerBytes(f: Frame)
    ensures AxisByte(f, Delta.AbsZ) as int == Delta.TriggerAxis(f.lt, f.l2Direct, f.buttons.l2)
    ensures AxisByte(f, Delta.AbsRz) as int == Delta.TriggerAxis(f.rt, f.r2Direct, f.buttons.r2)
  {
  }

  // ----- building the report --------------------------------------------------------------------

  /** The button word, in the order of the code. */
  function Faces(w: nat, f: Frame): nat {
    OrIf(OrIf(OrIf(OrIf(w, f.buttons.cross != 0, 0), f.buttons.circle != 0, 1), f.buttons.triangle != 0, 4),
         f.buttons.square != 0, 3)
  }

  function Shoulders(w: nat, f: Frame): nat {
    OrIf(OrIf(OrIf(OrIf(w, f.buttons.l1 != 0, 6), f.buttons.r1 != 0, 7), f.buttons.share != 0, 10),
         f.buttons.options != 0, 11)
  }

  function Thumbs(w: nat, f: Frame): nat {
    OrIf(OrIf(OrIf(w, f.buttons.ps != 0, 12), f.buttons.l3 != 0, 13), f.buttons.r3 != 0, 14)
  }

  function Triggers(w: nat, f: Frame): nat {
    OrIf(OrIf(w, f.digital && f.buttons.l2 != 0, 8), f.digital && f.buttons.r2 != 0, 9)
  }

  function ButtonWord(f: Frame): nat {
    Triggers(Thumbs(Shoulders(Faces(0, f), f), f), f)
  }

  lemma BitOfOrIf(x: nat, on: bool, k: nat, j: nat)
    ensures Bit(OrIf(x, on, k), j) == ((on && j == k) || Bit(x, j))
  {
    BitOfOrBit(x, k, j);
  }

  lemma FacesBits(w: nat, f: Frame, j: nat)
    ensures Bit(Faces(w, f), j) == (Bit(w, j) || (j in {0, 1, 3, 4} && Down(f, j)))
  {
    var b := f.buttons;
    var w1 := OrIf(w, b.cross != 0, 0);
    var w2 := OrIf(w1, b.circle != 0, 1);
    var w3 := OrIf(w2, b.triangle != 0, 4);
    BitOfOrIf(w, b.cross != 0, 0, j);
    BitOfOrIf(w1, b.circle != 0, 1, j);
    BitOfOrIf(w2, b.triangle != 0, 4, j);
    BitOfOrIf(w3, b.square != 0, 3, j);
  }

  lemma ShouldersBits(w: nat, f: Frame, j: nat)
    ensures Bit(Shoulders(w, f), j) == (Bit(w, j) || (j in {6, 7, 10, 11} && Down(f, j)))
  {
    var b := f.buttons;
    var w1 := OrIf(w, b.l1 != 0, 6);
    var w2 := OrIf(w1, b.r1 != 0, 7);
    var w3 := OrIf(w2, b.share != 0, 10);
    BitOfOrIf(w, b.l1 != 0, 6, j);
    BitOfOrIf(w1, b.r1 != 0, 7, j);
    BitOfOrIf(w2, b.share != 0, 10, j);
    BitOfOrIf(w3, b.options != 0, 11, j);
  }

  lemma ThumbsBits(w: nat, f: Frame, j: nat)
    ensures Bit(Thumbs(w, f), j) == (Bit(w, j) || (j in {12, 13, 14} && Down(f, j)))
  {
    var b := f.buttons;
    var w1 := OrIf(w, b.ps != 0, 12);
    var w2 := OrIf(w1, b.l3 != 0, 13);
    BitOfOrIf(w, b.ps != 0, 12, j);
    BitOfOrIf(w1, b.l3 != 0, 13, j);
    BitOfOrIf(w2, b.r3 != 0, 14, j);
  }

  lemma TriggersBits(w: nat, f: Frame, j: nat)
    ensures Bit(Triggers(w, f), j) == (Bit(w, j) || (j in {8, 9} && Down(f, j)))
  {
    var b := f.buttons;
    var w1 := OrIf(w, f.digital && b.l2 != 0, 8);
    BitOfOrIf(w, f.digital && b.l2 != 0, 8, j);
    BitOfOrIf(w1, f.digital && b.r2 != 0, 9, j);
  }

  /** Every bit of the word is the button of its usage. */
  lemma WordBits(f: Frame, j: nat)
    ensures Bit(ButtonWord(f), j) == Down(f, j)
  {
    BitOfZero(j);
    FacesBits(0, f, j);
    ShouldersBits(Faces(0, f), f, j);
    ThumbsBits(Shoulders(Faces(0, f), f), f, j);
    TriggersBits(Thumbs(Shoulders(Faces(0, f), f), f), f, j);
  }

  method CollectButtons(f: Frame) returns (w: nat)
    ensures w == ButtonWord(f)
  {
    var b := f.buttons;
    w := 0;
    if b.cross != 0 { w := OrBit(w, 0); }
    if b.circle != 0 { w := OrBit(w, 1); }
    if b.triangle != 0 { w := OrBit(w, 4); }
    if b.square != 0 { w := OrBit(w, 3); }
    assert w == Faces(0, f);
    if b.l1 != 0 { w := OrBit(w, 6); }
    if b.r1 != 0 { w := OrBit(w, 7); }
    if b.share != 0 { w := OrBit(w, 10); }
    if b.options != 0 { w := OrBit(w, 11); }
    assert w == Shoulders(Faces(0, f), f);
    if b.ps != 0 { w := OrBit(w, 12); }
    if b.l3 != 0 { w := OrBit(w, 13); }
    if b.r3 != 0 { w := OrBit(w, 14); }
    assert w == Thumbs(Shoulders(Faces(0, f), f), f);
    if f.digital {
      if b.l2 != 0 { w := OrBit(w, 8); }
      if b.r2 != 0 { w := OrBit(w, 9); }
    }
  }

  lemma {:induction false} Pow2Rises(n: nat, m: nat)
    requires n <= m
    ensures Pow2(n) <= Pow2(m)
  {
    if n < m { Pow2Rises(n, m - 1); }
  }

  /** The lowest `n` bits of a number, as a byte. */
  function LowByte(x: nat, n: nat): byte
    requires n <= 8
  {
    LowBound(x, n);
    Pow2Rises(n, 8);
    assert Pow2(8) == 256;
    Low(x, n) as byte
  }

  /** The `memset` and the report number. */
  method ClearHead(buf: array<byte>)
    requires buf.Length >= 12
    modifies buf
    ensures buf[0] == 1 && forall i | 1 <= i < 12 :: buf[i] == 0
    ensures forall i | 12 <= i < buf.Length :: buf[i] == old(buf[i])
  {
    for i := 0 to 12
      invariant forall j | 0 <= j < i :: buf[j] == 0
      invariant forall j | i <= j < buf.Length :: buf[j] == old(buf[j])
    {
      buf[i] := 0;
    }
    buf[0] := 1;
  }

  /** The trigger bytes: in digital mode what the buffer holds. */
  function TriggerByte(f: Frame, c: Delta.Code, held: byte): byte
    requires c == Delta.AbsZ || c == Delta.AbsRz
  {
    if f.digital then held else AxisByte(f, c)
  }

  lemma PackedCarries(f: Frame, w: nat, held: byte)
    requires Sticks(f)
    ensures Carries(LowByte(w, 8), LowByte(High(w, 8), 8), HatCode(f.buttons.hatX, f.buttons.hatY),
                    StickByte(f.lx), StickByte(f.ly), StickByte(f.rx), StickByte(f.ry),
                    TriggerByte(f, Delta.AbsZ, 0), TriggerByte(f, Delta.AbsRz, held), f, w)
  {
  }

  /** Decoding by the declared layout recovers what the report was built from, for every slot. */
  lemma ReportDecodes(payload: seq<byte>, f: Frame)
    requires Proper(f) && Holds(payload, f, ButtonWord(f))
    ensures Decodes(Interpret(Start, Descriptor()).inputs, payload, f)
  {
    DescriptorLayout();
    forall k: nat | k < 15 ensures Bit(ButtonWord(f), k) == Down(f, k) { WordBits(f, k); }
    HeldIsDecoded(SECTIONS, payload, f, ButtonWord(f));
  }

  /** Everything behind the report number. */
  method StoreFields(buf: array<byte>, low: byte, high: byte, hat: byte, x: byte, y: byte, rx: byte, ry: byte)
    requires buf.Length >= 12
    modifies buf
    ensures buf[1] == low && buf[2] == high && buf[3] == hat
    ensures buf[4] == x && buf[5] == y && buf[8] == rx && buf[9] == ry
    ensures forall i | 0 <= i < buf.Length && i !in {1, 2, 3, 4, 5, 8, 9} :: buf[i] == old(buf[i])
  {
    buf[1] := low;
    buf[2] := high;
    buf[3] := hat;
    buf[4] := x;
    buf[5] := y;
    buf[8] := rx;
    buf[9] := ry;
  }

  method StoreTriggers(f: Frame, buf: array<byte>)
    requires buf.Length >= 12 && (!f.digital ==> buf.Length > 12)
    modifies buf
    ensures buf[11] == TriggerByte(f, Delta.AbsZ, old(buf[11]))
    ensures buf.Length > 12 ==> buf[12] == TriggerByte(f, Delta.AbsRz, old(buf[12]))
    ensures forall i | 0 <= i < buf.Length && i != 11 && i != 12 :: buf[i] == old(buf[i])
  {
    if !f.digital {
      buf[11] := AxisByte(f, Delta.AbsZ);
      buf[12] := AxisByte(f, Delta.AbsRz);
    }
  }

  /** `uhid_build_input_report` on a buffer announced with `size` bytes, which may be part of a larger one. With
      12 bytes and analog triggers it stores one byte behind them, so the memory must go on there; everything
      else behind the announced bytes is left alone. In digital mode the report ends with whatever the buffer
      held there. */
  method BuildInputReport(f: Frame, buf: array<byte>, size: nat) returns (length: nat)
    requires Sticks(f) && size <= buf.Length && (size >= 12 && !f.digital ==> buf.Length > 12)
    modifies buf
    ensures size < 12 ==> length == 0 && forall i | 0 <= i < buf.Length :: buf[i] == old(buf[i])
    ensures size >= 12 ==>
              && length == 13 && buf[0] == 1
              && Carries(buf[1], buf[2], buf[3], buf[4], buf[5], buf[8], buf[9], buf[11],
                         if buf.Length > 12 then buf[12] else 0, f, ButtonWord(f))
              && buf[6] == 0 && buf[7] == 0 && buf[10] == 0
              && (f.digital && buf.Length > 12 ==> buf[12] == old(buf[12]))
              && forall i | 13 <= i < buf.Length :: buf[i] == old(buf[i])
    ensures size >= 12 && buf.Length > 12 && Proper(f) ==> Decodes(Interpret(Start, Descriptor()).inputs, buf[1..13], f)
  {
    if size < 12 { return 0; }
    ClearHead(buf);
    var w := CollectButtons(f);
    StoreFields(buf, LowByte(w, 8), LowByte(High(w, 8), 8), HatCode(f.buttons.hatX, f.buttons.hatY),
                StickByte(f.lx), StickByte(f.ly), StickByte(f.rx), StickByte(f.ry));
    PackedCarries(f, w, if buf.Length > 12 then buf[12] else 0);
    StoreTriggers(f, buf);
    length := 13;
    if buf.Length > 12 && Proper(f) {
      ReportDecodes(buf[1..13], f);
    }
  }

  // ----- stick bytes end to end -----------------------------------------------------------------

  /** `safe_normalize`. */
  function Normalize(v: byte): int {
    if v == 128 then 0
    else if v == 0 then -32768
    else if v == 255 then 32767
    else if v < 128 then (v as int - 128) * 256
    else (v as int - 128) * 257 + 128
  }

  /** The raw bytes spread over the whole range in their order, with the centre at 0. */
  lemma NormalizeSpreads(v: byte, w: byte)
    ensures Normalize(0) == -32768 && Normalize(128) == 0 && Normalize(255) == 32767
    ensures v < w ==> Normalize(v) < Normalize(w)
  {
  }

  /** `x` moved toward the centre by `d`, not past it. */
  function Shrunk(x: int, d: nat): int {
    if x > d then x - d else if x + d < 0 then x + d else 0
  }

  /** A raw stick byte survives normalising and packing, even when every distance from the centre is
      shortened by up to 128 units on the way; 129 units are still harmless, 130 are not. */
  lemma StickByteSurvives(d: nat)
    ensures (forall v: byte :: StickByte(Shrunk(Normalize(v), d)) == v) <==> d <= 129
  {
    if d <= 129 {
      forall v: byte ensures StickByte(Shrunk(Normalize(v), d)) == v {
        SurvivesOne(v, d);
      }
    } else {
      assert Normalize(129) == 385;
      assert StickByte(Shrunk(385, d)) != 129;
    }
  }

  lemma SurvivesOne(v: byte, d: nat)
    requires d <= 129
    ensures StickByte(Shrunk(Normalize(v), d)) == v
  {
    var k := v as int - 128;
    if v < 128 {
      assert Normalize(v) == k * 256 && k * 256 <= -256;
      assert Shrunk(k * 256, d) == k * 256 + d;
      assert (k * 256 + d + 32768) / 256 == k + 128;
    } else if v == 255 {
    } else if v > 128 {
      assert Normalize(v) == k * 256 + k + 128 && 1 <= k <= 126;
      assert Shrunk(Normalize(v), d) == k * 256 + k + 128 - d;
      assert (k * 256 + k + 128 - d + 32768) / 256 == k + 128;
    }
  }
}
