/** Remapping: every physical button drives the logical button its keymap entry names. */
module Keymap {
  import opened Records

  const CROSS := 0
  const CIRCLE := 1
  const SQUARE := 2
  const TRIANGLE := 3

  type Presses = p: seq<byte> | |p| == PHY_BTN_COUNT witness ZeroKeymap

  /** The logical buttons of `controller_t` and the hat pair computed from them. */
  datatype Buttons = Buttons(
    cross: byte, circle: byte, square: byte, triangle: byte,
    l1: byte, r1: byte, l2: byte, r2: byte,
    share: byte, options: byte, l3: byte, r3: byte, ps: byte, touch: byte,
    dpadUp: byte, dpadDown: byte, dpadLeft: byte, dpadRight: byte,
    hatX: int, hatY: int)

  const NoButtons := Buttons(0, 0, 0, 0, 0, 0, 0, 0, 0, 0, 0, 0, 0, 0, 0, 0, 0, 0, 0, 0)

  /** The logical button of number `l`, in the order of `logical_button_t`. */
  function Get(b: Buttons, l: nat): byte
    requires 1 <= l < LOGICAL_BTN_COUNT
  {
    match l
    case 1 => b.cross case 2 => b.circle case 3 => b.square case 4 => b.triangle
    case 5 => b.l1 case 6 => b.r1 case 7 => b.l2 case 8 => b.r2
    case 9 => b.share case 10 => b.options case 11 => b.l3 case 12 => b.r3
    case 13 => b.ps case 14 => b.touch
    case 15 => b.dpadUp case 16 => b.dpadDown case 17 => b.dpadLeft case _ => b.dpadRight
  }

  /** Some pressed physical button maps to `l`. */
  predicate Driven(m: Keymap, p: Presses, l: int) {
    exists k | 0 <= k < PHY_BTN_COUNT :: p[k] != 0 && m[k] as int == l
  }

  function On(m: Keymap, p: Presses, l: int): byte {
    if Driven(m, p, l) then 1 else 0
  }

  /** The whole result, one `Driven` per button. */
  function Mapped(m: Keymap, p: Presses): Buttons {
    Buttons(On(m, p, 1), On(m, p, 2), On(m, p, 3), On(m, p, 4), On(m, p, 5), On(m, p, 6), On(m, p, 7), On(m, p, 8),
            On(m, p, 9), On(m, p, 10), On(m, p, 11), On(m, p, 12), On(m, p, 13), On(m, p, 14),
            On(m, p, 15), On(m, p, 16), On(m, p, 17), On(m, p, 18),
            if Driven(m, p, 18) then 1 else if Driven(m, p, 17) then -1 else 0,
            if Driven(m, p, 15) then -1 else if Driven(m, p, 16) then 1 else 0)
  }

  lemma GetMapped(m: Keymap, p: Presses, l: nat)
    requires 1 <= l < LOGICAL_BTN_COUNT
    ensures Get(Mapped(m, p), l) == On(m, p, l)
  {
  }

  lemma SameDriven(m: Keymap, p: Presses, n: Keymap, q: Presses)
    requires forall l | 1 <= l < LOGICAL_BTN_COUNT :: Driven(m, p, l) == Driven(n, q, l)
    ensures Mapped(m, p) == Mapped(n, q)
  {
    forall l | 1 <= l < LOGICAL_BTN_COUNT ensures On(m, p, l) == On(n, q, l) {}
  }

  /** Buttons that are on as they are driven, once the hat is computed from them. */
  lemma AllMapped(m: Keymap, p: Presses, b: Buttons)
    requires forall l | 1 <= l < LOGICAL_BTN_COUNT :: Get(b, l) == On(m, p, l)
    ensures Mapped(m, p) == b.(hatX := if b.dpadRight != 0 then 1 else if b.dpadLeft != 0 then -1 else 0,
                               hatY := if b.dpadUp != 0 then -1 else if b.dpadDown != 0 then 1 else 0)
  {
    assert Get(b, 1) == On(m, p, 1) && Get(b, 2) == On(m, p, 2) && Get(b, 3) == On(m, p, 3);
    assert Get(b, 4) == On(m, p, 4) && Get(b, 5) == On(m, p, 5) && Get(b, 6) == On(m, p, 6);
    assert Get(b, 7) == On(m, p, 7) && Get(b, 8) == On(m, p, 8) && Get(b, 9) == On(m, p, 9);
    assert Get(b, 10) == On(m, p, 10) && Get(b, 11) == On(m, p, 11) && Get(b, 12) == On(m, p, 12);
    assert Get(b, 13) == On(m, p, 13) && Get(b, 14) == On(m, p, 14) && Get(b, 15) == On(m, p, 15);
    assert Get(b, 16) == On(m, p, 16) && Get(b, 17) == On(m, p, 17) && Get(b, 18) == On(m, p, 18);
  }

  // ----- the slot in place ----------------------------------------------------------------------

  /** What `keys.c` reads and writes of a slot. */
  class Pad {
    const keymap: array<byte>
    var buttons: Buttons

    ghost predicate Valid() {
      keymap.Length == PHY_BTN_COUNT
    }

    constructor ()
      ensures Valid() && fresh(keymap) && keymap[..] == ZeroKeymap && buttons == NoButtons
    {
      keymap := new byte[PHY_BTN_COUNT](i => 0);
      buttons := NoButtons;
    }

    /** The switch of `keys_apply_map`; NONE and numbers past the last button are ignored. */
    method Press(logical: byte)
      modifies this`buttons
      ensures 1 <= logical as int < LOGICAL_BTN_COUNT ==> Get(buttons, logical as int) == 1
      ensures forall l | 1 <= l < LOGICAL_BTN_COUNT && l != logical as int :: Get(buttons, l) == Get(old(buttons), l)
      ensures buttons.hatX == old(buttons).hatX && buttons.hatY == old(buttons).hatY
    {
      var b := buttons;
      match logical as int
      case 1 => buttons := b.(cross := 1);
      case 2 => buttons := b.(circle := 1);
      case 3 => buttons := b.(square := 1);
      case 4 => buttons := b.(triangle := 1);
      case 5 => buttons := b.(l1 := 1);
      case 6 => buttons := b.(r1 := 1);
      case 7 => buttons := b.(l2 := 1);
      case 8 => buttons := b.(r2 := 1);
      case 9 => buttons := b.(share := 1);
      case 10 => buttons := b.(options := 1);
      case 11 => buttons := b.(l3 := 1);
      case 12 => buttons := b.(r3 := 1);
      case 13 => buttons := b.(ps := 1);
      case 14 => buttons := b.(touch := 1);
      case 15 => buttons := b.(dpadUp := 1);
      case 16 => buttons := b.(dpadDown := 1);
      case 17 => buttons := b.(dpadLeft := 1);
      case 18 => buttons := b.(dpadRight := 1);
      case _ =>
    }

    /** `keys_apply_map`. */
    method ApplyMap(phy: Presses)
      requires Valid()
      modifies this`buttons
      ensures buttons == Mapped(keymap[..], phy)
    {
      ghost var m := keymap[..];
      buttons := NoButtons.(hatX := buttons.hatX, hatY := buttons.hatY);
      for k := 0 to PHY_BTN_COUNT
        invariant forall l | 1 <= l < LOGICAL_BTN_COUNT ::
          Get(buttons, l) == if exists j | 0 <= j < k :: phy[j] != 0 && m[j] as int == l then 1 else 0
      {
        if phy[k] != 0 {
          Press(keymap[k]);
        }
      }
      ghost var b := buttons;
      buttons := buttons.(
        hatX := if buttons.dpadRight != 0 then 1 else if buttons.dpadLeft != 0 then -1 else 0,
        hatY := if buttons.dpadUp != 0 then -1 else if buttons.dpadDown != 0 then 1 else 0);
      AllMapped(m, phy, b);
    }

    method SetXboxLayout()
      requires Valid()
      modifies keymap
      ensures keymap[..] == XboxLayout(old(keymap[..]))
    {
      keymap[CROSS] := 1;
      keymap[CIRCLE] := 2;
      keymap[SQUARE] := 3;
      keymap[TRIANGLE] := 4;
    }

    method SetSwitchLayout()
      requires Valid()
      modifies keymap
      ensures keymap[..] == SwitchLayout(old(keymap[..]))
    {
      keymap[CROSS] := 2;
      keymap[CIRCLE] := 1;
      keymap[SQUARE] := 4;
      keymap[TRIANGLE] := 3;
    }

    /** `keys_get_default_map` on the keymap of the slot. */
    method ResetAllKeybinds()
      requires Valid()
      modifies keymap
      ensures forall k | 0 <= k < PHY_BTN_COUNT :: keymap[k] as int == k + 1
    {
      for i := 0 to PHY_BTN_COUNT
        invariant forall k | 0 <= k < i :: keymap[k] as int == k + 1
      {
        keymap[i] := (i + 1) as byte;
      }
    }
  }

  /** `keys_get_default_map`. */
  function IdentityKeymap(): Keymap {
    seq(PHY_BTN_COUNT, k requires 0 <= k < PHY_BTN_COUNT => (k + 1) as byte)
  }

  function XboxLayout(m: Keymap): Keymap {
    [1, 2, 3, 4] + m[4..]
  }

  function SwitchLayout(m: Keymap): Keymap {
    [2, 1, 4, 3] + m[4..]
  }

  // ----- what remapping means -------------------------------------------------------------------

  function Union(p: Presses, q: Presses): Presses {
    seq(PHY_BTN_COUNT, k requires 0 <= k < PHY_BTN_COUNT => if p[k] != 0 then p[k] else q[k])
  }

  /** Pressing two sets of buttons together turns on what either turns on. */
  lemma UnionIsUnion(m: Keymap, p: Presses, q: Presses, l: nat)
    requires 1 <= l < LOGICAL_BTN_COUNT
    ensures Get(Mapped(m, Union(p, q)), l) == 1 <==> Get(Mapped(m, p), l) == 1 || Get(Mapped(m, q), l) == 1
  {
    GetMapped(m, Union(p, q), l);
    GetMapped(m, p, l);
    GetMapped(m, q, l);
    if Driven(m, p, l) {
      var k :| 0 <= k < PHY_BTN_COUNT && p[k] != 0 && m[k] as int == l;
      assert Union(p, q)[k] != 0;
    } else if Driven(m, q, l) {
      var k :| 0 <= k < PHY_BTN_COUNT && q[k] != 0 && m[k] as int == l;
      assert Union(p, q)[k] != 0;
    }
    if Driven(m, Union(p, q), l) {
      var k :| 0 <= k < PHY_BTN_COUNT && Union(p, q)[k] != 0 && m[k] as int == l;
      assert p[k] != 0 || q[k] != 0;
    }
  }

  /** The hat is the difference of the direction buttons, except that right beats left and up beats down. */
  lemma HatFollowsDpad(m: Keymap, p: Presses)
    ensures var b := Mapped(m, p);
      && -1 <= b.hatX <= 1 && -1 <= b.hatY <= 1
      && (b.hatX == if b.dpadRight == 1 then 1 else -(b.dpadLeft as int))
      && (b.hatY == if b.dpadUp == 1 then -1 else b.dpadDown as int)
  {
  }

  predicate Binary(p: Presses) {
    forall k | 0 <= k < PHY_BTN_COUNT :: p[k] <= 1
  }

  predicate Permutation(m: Keymap) {
    && (forall k | 0 <= k < PHY_BTN_COUNT :: 1 <= m[k] as int < LOGICAL_BTN_COUNT)
    && (forall j, k | 0 <= j < k < PHY_BTN_COUNT :: m[j] != m[k])
  }

  /** No two different sets of pressed buttons look the same. */
  ghost predicate Lossless(m: Keymap) {
    forall p: Presses, q: Presses | Binary(p) && Binary(q) && Mapped(m, p) == Mapped(m, q) :: p == q
  }

  function Only(k: nat): Presses
    requires k < PHY_BTN_COUNT
  {
    ZeroKeymap[k := 1]
  }

  lemma OnlyDrives(m: Keymap, k: nat, l: int)
    requires k < PHY_BTN_COUNT
    ensures Driven(m, Only(k), l) <==> m[k] as int == l
  {
    assert Only(k)[k] == 1;
  }

  lemma DistinctUnderPermutation(m: Keymap, p: Presses, q: Presses)
    requires Permutation(m) && Binary(p) && Binary(q) && Mapped(m, p) == Mapped(m, q)
    ensures p == q
  {
    forall k | 0 <= k < PHY_BTN_COUNT ensures p[k] == q[k] {
      var l := m[k] as int;
      GetMapped(m, p, l);
      GetMapped(m, q, l);
      DrivenByOne(m, p, k);
      DrivenByOne(m, q, k);
    }
  }

  lemma DrivenByOne(m: Keymap, p: Presses, k: nat)
    requires Permutation(m) && k < PHY_BTN_COUNT
    ensures Driven(m, p, m[k] as int) <==> p[k] != 0
  {
    if j :| 0 <= j < PHY_BTN_COUNT && p[j] != 0 && m[j] == m[k] {
      assert j == k;
    }
  }

  /** A button mapped to NONE or past the last one can be ignored. */
  lemma SilentButton(m: Keymap, p: Presses, k: nat)
    requires k < PHY_BTN_COUNT && !(1 <= m[k] as int < LOGICAL_BTN_COUNT)
    ensures Mapped(m, p) == Mapped(m, p[k := 0])
  {
    var q := p[k := 0];
    forall l | 1 <= l < LOGICAL_BTN_COUNT ensures Driven(m, p, l) == Driven(m, q, l) {
      if j :| 0 <= j < PHY_BTN_COUNT && p[j] != 0 && m[j] as int == l {
        assert q[j] != 0;
      }
    }
    SameDriven(m, p, m, q);
  }

  lemma PermutationIsLossless(m: Keymap)
    requires Permutation(m)
    ensures Lossless(m)
  {
    forall p: Presses, q: Presses | Binary(p) && Binary(q) && Mapped(m, p) == Mapped(m, q) ensures p == q {
      DistinctUnderPermutation(m, p, q);
    }
  }

  lemma SameLooksAreLossy(m: Keymap, p: Presses, q: Presses)
    requires Binary(p) && Binary(q) && p != q
    requires forall l | 1 <= l < LOGICAL_BTN_COUNT :: Driven(m, p, l) == Driven(m, q, l)
    ensures !Lossless(m)
  {
    SameDriven(m, p, m, q);
  }

  lemma SilentIsLossy(m: Keymap, k: nat)
    requires k < PHY_BTN_COUNT && !(1 <= m[k] as int < LOGICAL_BTN_COUNT)
    ensures !Lossless(m)
  {
    forall l | 1 <= l < LOGICAL_BTN_COUNT ensures Driven(m, Only(k), l) == Driven(m, ZeroKeymap, l) { OnlyDrives(m, k, l); }
    assert Only(k)[k] == 1;
    SameLooksAreLossy(m, Only(k), ZeroKeymap);
  }

  lemma TwinsAreLossy(m: Keymap, j: nat, k: nat)
    requires j < k < PHY_BTN_COUNT && m[j] == m[k]
    ensures !Lossless(m)
  {
    forall l | 1 <= l < LOGICAL_BTN_COUNT ensures Driven(m, Only(j), l) == Driven(m, Only(k), l) {
      OnlyDrives(m, j, l);
      OnlyDrives(m, k, l);
    }
    assert Only(j)[j] == 1;
    SameLooksAreLossy(m, Only(j), Only(k));
  }

  /** Remapping loses nothing exactly when the keymap is a permutation of the logical buttons. */
  lemma LosslessExactly(m: Keymap)
    ensures Lossless(m) <==> Permutation(m)
  {
    if Permutation(m) {
      PermutationIsLossless(m);
    } else if k :| 0 <= k < PHY_BTN_COUNT && !(1 <= m[k] as int < LOGICAL_BTN_COUNT) {
      SilentIsLossy(m, k);
    } else {
      var j, k :| 0 <= j < k < PHY_BTN_COUNT && m[j] == m[k];
      TwinsAreLossy(m, j, k);
    }
  }

  /** The physical face buttons with cross and circle, and square and triangle, exchanged. */
  function SwapFaces(p: Presses): Presses {
    [p[CIRCLE], p[CROSS], p[TRIANGLE], p[SQUARE]] + p[4..]
  }

  lemma IdentityDrives(p: Presses, l: nat)
    requires 1 <= l < LOGICAL_BTN_COUNT
    ensures Driven(IdentityKeymap(), p, l) <==> p[l - 1] != 0
  {
    if p[l - 1] != 0 { assert IdentityKeymap()[l - 1] as int == l; }
  }

  function Lit(pressed: byte): byte {
    if pressed != 0 then 1 else 0
  }

  /** After a reset every physical button turns on the logical button of its own name, in the order of
      `physical_button_t`. */
  lemma IdentityFaces(p: Presses)
    ensures var b := Mapped(IdentityKeymap(), p);
      b.cross == Lit(p[0]) && b.circle == Lit(p[1]) && b.square == Lit(p[2])
      && b.triangle == Lit(p[3]) && b.l1 == Lit(p[4]) && b.r1 == Lit(p[5])
  {
    IdentityDrives(p, 1);
    IdentityDrives(p, 2);
    IdentityDrives(p, 3);
    IdentityDrives(p, 4);
    IdentityDrives(p, 5);
    IdentityDrives(p, 6);
  }

  lemma IdentityMiddle(p: Presses)
    ensures var b := Mapped(IdentityKeymap(), p);
      b.l2 == Lit(p[6]) && b.r2 == Lit(p[7]) && b.share == Lit(p[8])
      && b.options == Lit(p[9]) && b.l3 == Lit(p[10]) && b.r3 == Lit(p[11])
  {
    IdentityDrives(p, 7);
    IdentityDrives(p, 8);
    IdentityDrives(p, 9);
    IdentityDrives(p, 10);
    IdentityDrives(p, 11);
    IdentityDrives(p, 12);
  }

  lemma IdentityRest(p: Presses)
    ensures var b := Mapped(IdentityKeymap(), p);
      b.ps == Lit(p[12]) && b.touch == Lit(p[13]) && b.dpadUp == Lit(p[14])
      && b.dpadDown == Lit(p[15]) && b.dpadLeft == Lit(p[16]) && b.dpadRight == Lit(p[17])
  {
    IdentityDrives(p, 13);
    IdentityDrives(p, 14);
    IdentityDrives(p, 15);
    IdentityDrives(p, 16);
    IdentityDrives(p, 17);
    IdentityDrives(p, 18);
  }

  lemma LayoutsAreAbsolute(m: Keymap)
    ensures XboxLayout(SwitchLayout(m)) == XboxLayout(m) && SwitchLayout(XboxLayout(m)) == SwitchLayout(m)
  {
  }

  /** The Xbox layout leaves the face buttons as the reset does, and both layouts leave the other buttons alone. */
  lemma XboxIsPlain(m: Keymap, k: nat)
    requires k < PHY_BTN_COUNT
    ensures XboxLayout(m)[k] == if k < 4 then IdentityKeymap()[k] else m[k]
    ensures k >= 4 ==> SwitchLayout(m)[k] == m[k]
  {
  }

  /** The Switch layout is the Xbox layout on a pad whose face buttons are exchanged, whatever the
      keymap was before; both layouts are absolute. */
  lemma SwitchIsSwappedXbox(m: Keymap, p: Presses)
    ensures Mapped(SwitchLayout(m), p) == Mapped(XboxLayout(m), SwapFaces(p))
    ensures XboxLayout(SwitchLayout(m)) == XboxLayout(m)
    ensures SwitchLayout(XboxLayout(m)) == SwitchLayout(m)
  {
    var q := SwapFaces(p);
    forall l | 1 <= l < LOGICAL_BTN_COUNT ensures Driven(SwitchLayout(m), p, l) == Driven(XboxLayout(m), q, l) {
      SwappedDrives(m, p, l);
    }
    SameDriven(SwitchLayout(m), p, XboxLayout(m), q);
  }

  lemma SwappedDrives(m: Keymap, p: Presses, l: int)
    ensures Driven(SwitchLayout(m), p, l) == Driven(XboxLayout(m), SwapFaces(p), l)
  {
    var a, b, q := SwitchLayout(m), XboxLayout(m), SwapFaces(p);
    if k :| 0 <= k < PHY_BTN_COUNT && p[k] != 0 && a[k] as int == l {
      assert q[Swapped(k)] == p[k] && b[Swapped(k)] == a[k];
    }
    if k :| 0 <= k < PHY_BTN_COUNT && q[k] != 0 && b[k] as int == l {
      assert p[Swapped(k)] == q[k] && a[Swapped(k)] == b[k];
    }
  }

  function Swapped(k: nat): nat {
    if k < 4 then (if k % 2 == 0 then k + 1 else k - 1) else k
  }
}
