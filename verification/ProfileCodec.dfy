/** Profiles on disk: the tree a profile is written as, and the range-checked reader. JSON text is left
    to the cJSON library; a file is a tree, or garbage the parser rejects. A number node carries the
    `valueint` the library gives it, an `int` that saturates. */
module ProfileCodec {
  import opened Records
  import Keys = Keymap

  datatype Key =
    | Version | LastModified | Slots
    | LedR | LedG | LedB | LedBaseR | LedBaseG | LedBaseB
    | RumbleGain | Deadzone | GlobalBrightness | PlayerLeds
    | Debounce | Emulate | IsUhid | LedReapply | RumbleActive | InvertLy | InvertRy
    | SensitivityLeft | SensitivityRight
    | LedEffect | LedEffectSpeed | LedEffectBrightness
    | TriggersDigital
    | KeymapKey

  datatype Json =
    | Null
    | False
    | True
    | Number(valueInt: int)
    | Text(text: string)
    | Array(items: seq<Json>)
    | Object(fields: map<Key, Json>)

  datatype File = Garbage | Tree(root: Json)

  const INT_MAX := 2147483647
  const INT_MIN := -2147483648

  type Profiles = s: seq<SlotConfig> | |s| == MAX_SLOTS witness [ZeroConfig, ZeroConfig, ZeroConfig, ZeroConfig]

  /** `profile_t`: `version` is a `uint32_t`, `lastModified` a `uint64_t`. */
  datatype Profile = Profile(name: string, slots: Profiles, lastModified: int, version: int)

  // ----- reading a number -----------------------------------------------------------------------

  /** `cJSON_CreateNumber`. */
  function CreateNumber(n: int): Json {
    Number(if n > INT_MAX then INT_MAX else if n < INT_MIN then INT_MIN else n)
  }

  /** `valueint` of any node: among the nodes that are not numbers only `true` has one that is not 0. */
  function ValueInt(j: Json): int {
    match j
    case Number(n) => n
    case True => 1
    case _ => 0
  }

  function Lookup(j: Json, key: Key): Option<Json> {
    if j.Object? && key in j.fields then Some(j.fields[key]) else None
  }

  /** There is a number in the range under the key. */
  predicate Usable(j: Json, key: Key, lo: int, hi: int) {
    j.Object? && key in j.fields && j.fields[key].Number? && lo <= j.fields[key].valueInt <= hi
  }

  /** `safe_json_get_int_range`: a missing, non-numeric or out-of-range field reads as the default. */
  function GetInt(j: Json, key: Key, lo: int, hi: int, def: int): (r: int)
    ensures lo <= def <= hi ==> lo <= r <= hi
    ensures if Usable(j, key, lo, hi) then Lookup(j, key) == Some(Number(r)) else r == def
  {
    match Lookup(j, key)
    case None => def
    case Some(item) =>
      if !item.Number? then def
      else if lo <= ValueInt(item) <= hi then ValueInt(item)
      else def
  }

  function GetByte(j: Json, key: Key, lo: byte, hi: byte, def: byte): byte
    requires lo <= def <= hi
  {
    GetInt(j, key, lo as int, hi as int, def as int) as byte
  }

  /** Only 0 and 1 are flags. */
  function GetBool(j: Json, key: Key, def: bool): (r: bool)
    ensures if Usable(j, key, 0, 1) then Lookup(j, key) == Some(Number(if r then 1 else 0)) else r == def
  {
    GetInt(j, key, 0, 1, if def then 1 else 0) != 0
  }

  /** Entry `k` of the keymap: identity where the array is short, not numeric or out of range. */
  function GetKey(items: seq<Json>, k: nat): byte
    requires k < PHY_BTN_COUNT
  {
    if k < |items| && items[k].Number? && 0 <= ValueInt(items[k]) < LOGICAL_BTN_COUNT
    then ValueInt(items[k]) as byte
    else (k + 1) as byte
  }

  function GetKeymap(j: Json): Keymap {
    var arr := Lookup(j, KeymapKey);
    if arr.Some? && arr.value.Array? then seq(PHY_BTN_COUNT, k requires 0 <= k < PHY_BTN_COUNT => GetKey(arr.value.items, k))
    else Keys.IdentityKeymap()
  }

  /** One element of the `slots` array, of whatever kind, as a slot configuration. */
  function LoadSlot(j: Json): SlotConfig {
    SlotConfig(
      GetByte(j, LedR, 0, 255, 0), GetByte(j, LedG, 0, 255, 0), GetByte(j, LedB, 0, 255, 255),
      GetByte(j, LedBaseR, 0, 255, 0), GetByte(j, LedBaseG, 0, 255, 0), GetByte(j, LedBaseB, 0, 255, 255),
      GetByte(j, RumbleGain, 0, 100, 100),
      GetByte(j, Deadzone, 0, 100, 10),
      GetByte(j, GlobalBrightness, 0, 100, 80),
      GetByte(j, PlayerLeds, 0, 5, 0),
      GetBool(j, Debounce, true),
      GetBool(j, Emulate, true),
      GetBool(j, IsUhid, false),
      GetBool(j, LedReapply, true),
      GetBool(j, RumbleActive, true),
      GetBool(j, InvertLy, false),
      GetBool(j, InvertRy, false),
      GetByte(j, SensitivityLeft, 0, 7, 0),
      GetByte(j, SensitivityRight, 0, 7, 0),
      GetByte(j, LedEffect, 0, 8, 0),
      GetByte(j, LedEffectSpeed, 1, 10, 5),
      GetByte(j, LedEffectBrightness, 0, 100, 80),
      GetKeymap(j),
      GetBool(j, TriggersDigital, false))
  }

  predicate Accepted(file: File) {
    file.Tree? && Lookup(file.root, Version).Some? && Lookup(file.root, LastModified).Some?
    && Lookup(file.root, Slots).Some? && Lookup(file.root, Slots).value.Array?
  }

  function Stored(file: File): seq<Json>
    requires Accepted(file)
  {
    Lookup(file.root, Slots).value.items
  }

  /** The slots after reading: those the file holds, and the old ones past its array. */
  function LoadSlots(items: seq<Json>, prior: Profiles): Profiles {
    seq(MAX_SLOTS, i requires 0 <= i < MAX_SLOTS => if i < |items| then LoadSlot(items[i]) else prior[i])
  }

  /** Assigning an `int` to a `uint32_t` and to a `uint64_t`. */
  function Wrap32(x: int): int { x % 0x1_0000_0000 }
  function Wrap64(x: int): int { x % 0x1_0000_0000_0000_0000 }

  function Load(file: File, name: string, prior: Profile): Profile
    requires Accepted(file)
  {
    Profile(name, LoadSlots(Stored(file), prior.slots),
            Wrap64(ValueInt(Lookup(file.root, LastModified).value)),
            Wrap32(ValueInt(Lookup(file.root, Version).value)))
  }

  // ----- writing --------------------------------------------------------------------------------

  function FromByte(b: byte): Json {
    CreateNumber(b as int)
  }

  function FromBool(b: bool): Json {
    CreateNumber(if b then 1 else 0)
  }

  /** The number (or array) `save_profile_to_disk` adds under each key of a slot. */
  function SlotField(c: SlotConfig, key: Key): Json {
    match key
    case LedR => FromByte(c.ledR)
    case LedG => FromByte(c.ledG)
    case LedB => FromByte(c.ledB)
    case LedBaseR => FromByte(c.ledBaseR)
    case LedBaseG => FromByte(c.ledBaseG)
    case LedBaseB => FromByte(c.ledBaseB)
    case RumbleGain => FromByte(c.rumbleGain)
    case Deadzone => FromByte(c.deadzone)
    case GlobalBrightness => FromByte(c.globalLedBrightness)
    case PlayerLeds => FromByte(c.playerLeds)
    case Debounce => FromBool(c.debounceEnabled)
    case Emulate => FromBool(c.emulateActive)
    case IsUhid => FromBool(c.isUhid)
    case LedReapply => FromBool(c.ledReapply)
    case RumbleActive => FromBool(c.rumbleActive)
    case InvertLy => FromBool(c.invertLy)
    case InvertRy => FromBool(c.invertRy)
    case SensitivityLeft => FromByte(c.sensitivityLeft)
    case SensitivityRight => FromByte(c.sensitivityRight)
    case LedEffect => FromByte(c.ledEffect)
    case LedEffectSpeed => FromByte(c.ledEffectSpeed)
    case LedEffectBrightness => FromByte(c.ledEffectBrightness)
    case TriggersDigital => FromBool(c.triggersDigital)
    case KeymapKey => Array(seq(PHY_BTN_COUNT, k requires 0 <= k < PHY_BTN_COUNT => FromByte(c.keymap[k])))
    case _ => Null
  }

  predicate IsSlotKey(key: Key) {
    !key.Version? && !key.LastModified? && !key.Slots?
  }

  function SaveSlot(c: SlotConfig): Json {
    Object(map key: Key | IsSlotKey(key) :: SlotField(c, key))
  }

  function SaveFile(p: Profile, now: int): File {
    Tree(Object(map[
      Version := CreateNumber(p.version),
      LastModified := CreateNumber(now),
      Slots := Array(seq(MAX_SLOTS, i requires 0 <= i < MAX_SLOTS => SaveSlot(p.slots[i])))]))
  }

  // ----- the sanitiser --------------------------------------------------------------------------

  function Within(b: byte, lo: byte, hi: byte, def: byte): byte {
    if lo <= b <= hi then b else def
  }

  /** What a configuration turns into on its way through a file: every field on its own, back to its
      default when it is out of range. */
  function Sanitise(c: SlotConfig): SlotConfig {
    c.(rumbleGain := Within(c.rumbleGain, 0, 100, 100),
       deadzone := Within(c.deadzone, 0, 100, 10),
       globalLedBrightness := Within(c.globalLedBrightness, 0, 100, 80),
       playerLeds := Within(c.playerLeds, 0, 5, 0),
       sensitivityLeft := Within(c.sensitivityLeft, 0, 7, 0),
       sensitivityRight := Within(c.sensitivityRight, 0, 7, 0),
       ledEffect := Within(c.ledEffect, 0, 8, 0),
       ledEffectSpeed := Within(c.ledEffectSpeed, 1, 10, 5),
       ledEffectBrightness := Within(c.ledEffectBrightness, 0, 100, 80),
       keymap := seq(PHY_BTN_COUNT, k requires 0 <= k < PHY_BTN_COUNT => Within(c.keymap[k], 0, 18, (k + 1) as byte)))
  }

  predicate InRange(c: SlotConfig) {
    && c.rumbleGain <= 100 && c.deadzone <= 100 && c.globalLedBrightness <= 100 && c.playerLeds <= 5
    && c.sensitivityLeft < 8 && c.sensitivityRight < 8
    && c.ledEffect < 9 && 1 <= c.ledEffectSpeed <= 10 && c.ledEffectBrightness <= 100
    && forall k | 0 <= k < PHY_BTN_COUNT :: c.keymap[k] < 19
  }

  predicate AllInRange(slots: Profiles) {
    forall i | 0 <= i < MAX_SLOTS :: InRange(slots[i])
  }

  lemma SanitisedIsInRange(c: SlotConfig)
    ensures InRange(Sanitise(c))
    ensures Sanitise(c) == c <==> InRange(c)
    ensures Sanitise(Sanitise(c)) == Sanitise(c)
  {
    assert InRange(c) ==> Sanitise(c).keymap == c.keymap;
    if Sanitise(c) == c {
      forall k | 0 <= k < PHY_BTN_COUNT ensures c.keymap[k] < 19 {
        assert Sanitise(c).keymap[k] == Within(c.keymap[k], 0, 18, (k + 1) as byte);
      }
    }
    assert Sanitise(Sanitise(c)).keymap == Sanitise(c).keymap;
  }

  // ----- round trips ----------------------------------------------------------------------------

  lemma ByteRoundTrip(b: byte)
    ensures FromByte(b).Number? && ValueInt(FromByte(b)) == b as int
  {
  }

  lemma FieldRoundTrip(j: Json, key: Key, b: byte, lo: byte, hi: byte, def: byte)
    requires Lookup(j, key) == Some(FromByte(b)) && lo <= def <= hi
    ensures GetByte(j, key, lo, hi, def) == Within(b, lo, hi, def)
  {
    ByteRoundTrip(b);
  }

  lemma FlagRoundTrip(j: Json, key: Key, b: bool, def: bool)
    requires Lookup(j, key) == Some(FromBool(b))
    ensures GetBool(j, key, def) == b
  {
    assert ValueInt(FromBool(b)) == if b then 1 else 0;
  }

  lemma KeymapRoundTrip(c: SlotConfig)
    ensures GetKeymap(SaveSlot(c)) == Sanitise(c).keymap
  {
    var j := SaveSlot(c);
    assert Lookup(j, KeymapKey).Some?;
    var items := Lookup(j, KeymapKey).value.items;
    forall k | 0 <= k < PHY_BTN_COUNT ensures GetKey(items, k) == Within(c.keymap[k], 0, 18, (k + 1) as byte) {
      ByteRoundTrip(c.keymap[k]);
      assert items[k] == FromByte(c.keymap[k]);
    }
  }

  lemma ColoursRoundTrip(j: Json, c: SlotConfig)
    requires j == SaveSlot(c)
    ensures GetByte(j, LedR, 0, 255, 0) == c.ledR
    ensures GetByte(j, LedG, 0, 255, 0) == c.ledG
    ensures GetByte(j, LedB, 0, 255, 255) == c.ledB
    ensures GetByte(j, LedBaseR, 0, 255, 0) == c.ledBaseR
    ensures GetByte(j, LedBaseG, 0, 255, 0) == c.ledBaseG
    ensures GetByte(j, LedBaseB, 0, 255, 255) == c.ledBaseB
  {
    FieldRoundTrip(j, LedR, c.ledR, 0, 255, 0);
    FieldRoundTrip(j, LedG, c.ledG, 0, 255, 0);
    FieldRoundTrip(j, LedB, c.ledB, 0, 255, 255);
    FieldRoundTrip(j, LedBaseR, c.ledBaseR, 0, 255, 0);
    FieldRoundTrip(j, LedBaseG, c.ledBaseG, 0, 255, 0);
    FieldRoundTrip(j, LedBaseB, c.ledBaseB, 0, 255, 255);
  }

  lemma LevelsRoundTrip(j: Json, c: SlotConfig)
    requires j == SaveSlot(c)
    ensures GetByte(j, RumbleGain, 0, 100, 100) == Within(c.rumbleGain, 0, 100, 100)
    ensures GetByte(j, Deadzone, 0, 100, 10) == Within(c.deadzone, 0, 100, 10)
    ensures GetByte(j, GlobalBrightness, 0, 100, 80) == Within(c.globalLedBrightness, 0, 100, 80)
    ensures GetByte(j, PlayerLeds, 0, 5, 0) == Within(c.playerLeds, 0, 5, 0)
  {
    FieldRoundTrip(j, RumbleGain, c.rumbleGain, 0, 100, 100);
    FieldRoundTrip(j, Deadzone, c.deadzone, 0, 100, 10);
    FieldRoundTrip(j, GlobalBrightness, c.globalLedBrightness, 0, 100, 80);
    FieldRoundTrip(j, PlayerLeds, c.playerLeds, 0, 5, 0);
  }

  lemma CurvesRoundTrip(j: Json, c: SlotConfig)
    requires j == SaveSlot(c)
    ensures GetByte(j, SensitivityLeft, 0, 7, 0) == Within(c.sensitivityLeft, 0, 7, 0)
    ensures GetByte(j, SensitivityRight, 0, 7, 0) == Within(c.sensitivityRight, 0, 7, 0)
  {
    FieldRoundTrip(j, SensitivityLeft, c.sensitivityLeft, 0, 7, 0);
    FieldRoundTrip(j, SensitivityRight, c.sensitivityRight, 0, 7, 0);
  }

  lemma EffectsRoundTrip(j: Json, c: SlotConfig)
    requires j == SaveSlot(c)
    ensures GetByte(j, LedEffect, 0, 8, 0) == Within(c.ledEffect, 0, 8, 0)
    ensures GetByte(j, LedEffectSpeed, 1, 10, 5) == Within(c.ledEffectSpeed, 1, 10, 5)
    ensures GetByte(j, LedEffectBrightness, 0, 100, 80) == Within(c.ledEffectBrightness, 0, 100, 80)
  {
    FieldRoundTrip(j, LedEffect, c.ledEffect, 0, 8, 0);
    FieldRoundTrip(j, LedEffectSpeed, c.ledEffectSpeed, 1, 10, 5);
    FieldRoundTrip(j, LedEffectBrightness, c.ledEffectBrightness, 0, 100, 80);
  }

  lemma SwitchesRoundTrip(j: Json, c: SlotConfig)
    requires j == SaveSlot(c)
    ensures GetBool(j, Debounce, true) == c.debounceEnabled
    ensures GetBool(j, Emulate, true) == c.emulateActive
    ensures GetBool(j, IsUhid, false) == c.isUhid
    ensures GetBool(j, LedReapply, true) == c.ledReapply
  {
    FlagRoundTrip(j, Debounce, c.debounceEnabled, true);
    FlagRoundTrip(j, Emulate, c.emulateActive, true);
    FlagRoundTrip(j, IsUhid, c.isUhid, false);
    FlagRoundTrip(j, LedReapply, c.ledReapply, true);
  }

  lemma FlagsRoundTrip(j: Json, c: SlotConfig)
    requires j == SaveSlot(c)
    ensures GetBool(j, RumbleActive, true) == c.rumbleActive
    ensures GetBool(j, InvertLy, false) == c.invertLy
    ensures GetBool(j, InvertRy, false) == c.invertRy
    ensures GetBool(j, TriggersDigital, false) == c.triggersDigital
  {
    FlagRoundTrip(j, RumbleActive, c.rumbleActive, true);
    FlagRoundTrip(j, InvertLy, c.invertLy, false);
    FlagRoundTrip(j, InvertRy, c.invertRy, false);
    FlagRoundTrip(j, TriggersDigital, c.triggersDigital, false);
  }

  /** Reading back a written slot gives its sanitised form. */
  lemma SlotRoundTrip(c: SlotConfig)
    ensures LoadSlot(SaveSlot(c)) == Sanitise(c)
  {
    var j := SaveSlot(c);
    ColoursRoundTrip(j, c);
    LevelsRoundTrip(j, c);
    CurvesRoundTrip(j, c);
    EffectsRoundTrip(j, c);
    SwitchesRoundTrip(j, c);
    FlagsRoundTrip(j, c);
    KeymapRoundTrip(c);
  }

  /** Reading any element at all gives a configuration in range, which reads back unchanged. */
  lemma LoadedIsInRange(j: Json)
    ensures InRange(LoadSlot(j))
  {
    forall k | 0 <= k < PHY_BTN_COUNT ensures GetKeymap(j)[k] < 19 {}
  }

  /** For any profile, any earlier profile in memory and any name: the written file is accepted and
      reads back as the sanitised slots; the version saturates at the largest `int`. */
  lemma LoadAfterSave(p: Profile, now: int, name: string, prior: Profile)
    requires 0 <= p.version < 0x1_0000_0000 && 0 <= now
    ensures var file := SaveFile(p, now);
      && Accepted(file)
      && var r := Load(file, name, prior);
         && r.name == name
         && (forall i | 0 <= i < MAX_SLOTS :: r.slots[i] == Sanitise(p.slots[i]))
         && r.version == (if p.version <= INT_MAX then p.version else INT_MAX)
         && r.lastModified == (if now <= INT_MAX then now else INT_MAX)
  {
    var file := SaveFile(p, now);
    assert Accepted(file) && |Stored(file)| == MAX_SLOTS;
    forall i | 0 <= i < MAX_SLOTS ensures LoadSlot(Stored(file)[i]) == Sanitise(p.slots[i]) {
      SlotRoundTrip(p.slots[i]);
    }
  }

  /** A version or time that is no number reads as 0, and as 1 if it is `true`; one that is wraps into its width. */
  lemma OddVersions(file: File, name: string, prior: Profile)
    requires Accepted(file)
    ensures var v, t, r := file.root.fields[Version], file.root.fields[LastModified], Load(file, name, prior);
      && (v.Number? && 0 <= v.valueInt < 0x1_0000_0000 ==> r.version == v.valueInt)
      && (v.Number? && -0x1_0000_0000 <= v.valueInt < 0 ==> r.version == v.valueInt + 0x1_0000_0000)
      && (!v.Number? ==> r.version == if v.True? then 1 else 0)
      && (t.Number? && 0 <= t.valueInt <= INT_MAX ==> r.lastModified == t.valueInt)
      && (t.Number? && INT_MIN <= t.valueInt < 0 ==> r.lastModified == t.valueInt + 0x1_0000_0000_0000_0000)
      && (!t.Number? ==> r.lastModified == if t.True? then 1 else 0)
  {
  }

  lemma KeyHolds(c: SlotConfig, key: Key)
    requires IsSlotKey(key)
    ensures Lookup(SaveSlot(c), key) == Some(SlotField(c, key))
  {
  }

  /** Under which key each field is written, whatever its value: numbers as they are, ... */
  lemma KeysOfColours(c: SlotConfig)
    ensures Lookup(SaveSlot(c), LedR) == Some(Number(c.ledR as int))
    ensures Lookup(SaveSlot(c), LedG) == Some(Number(c.ledG as int))
    ensures Lookup(SaveSlot(c), LedB) == Some(Number(c.ledB as int))
    ensures Lookup(SaveSlot(c), LedBaseR) == Some(Number(c.ledBaseR as int))
    ensures Lookup(SaveSlot(c), LedBaseG) == Some(Number(c.ledBaseG as int))
    ensures Lookup(SaveSlot(c), LedBaseB) == Some(Number(c.ledBaseB as int))
  {
    KeyHolds(c, LedR);
    KeyHolds(c, LedG);
    KeyHolds(c, LedB);
    KeyHolds(c, LedBaseR);
    KeyHolds(c, LedBaseG);
    KeyHolds(c, LedBaseB);
  }

  lemma KeysOfLevels(c: SlotConfig)
    ensures Lookup(SaveSlot(c), RumbleGain) == Some(Number(c.rumbleGain as int))
    ensures Lookup(SaveSlot(c), Deadzone) == Some(Number(c.deadzone as int))
    ensures Lookup(SaveSlot(c), GlobalBrightness) == Some(Number(c.globalLedBrightness as int))
    ensures Lookup(SaveSlot(c), PlayerLeds) == Some(Number(c.playerLeds as int))
  {
    KeyHolds(c, RumbleGain);
    KeyHolds(c, Deadzone);
    KeyHolds(c, GlobalBrightness);
    KeyHolds(c, PlayerLeds);
  }

  lemma KeysOfCurves(c: SlotConfig)
    ensures Lookup(SaveSlot(c), SensitivityLeft) == Some(Number(c.sensitivityLeft as int))
    ensures Lookup(SaveSlot(c), SensitivityRight) == Some(Number(c.sensitivityRight as int))
  {
    KeyHolds(c, SensitivityLeft);
    KeyHolds(c, SensitivityRight);
  }

  lemma KeysOfEffects(c: SlotConfig)
    ensures Lookup(SaveSlot(c), LedEffect) == Some(Number(c.ledEffect as int))
    ensures Lookup(SaveSlot(c), LedEffectSpeed) == Some(Number(c.ledEffectSpeed as int))
    ensures Lookup(SaveSlot(c), LedEffectBrightness) == Some(Number(c.ledEffectBrightness as int))
  {
    KeyHolds(c, LedEffect);
    KeyHolds(c, LedEffectSpeed);
    KeyHolds(c, LedEffectBrightness);
  }

  /** ... and flags as 0 and 1. */
  lemma KeysOfSwitches(c: SlotConfig)
    ensures Lookup(SaveSlot(c), Debounce) == Some(Number(if c.debounceEnabled then 1 else 0))
    ensures Lookup(SaveSlot(c), Emulate) == Some(Number(if c.emulateActive then 1 else 0))
    ensures Lookup(SaveSlot(c), IsUhid) == Some(Number(if c.isUhid then 1 else 0))
    ensures Lookup(SaveSlot(c), LedReapply) == Some(Number(if c.ledReapply then 1 else 0))
  {
    KeyHolds(c, Debounce);
    KeyHolds(c, Emulate);
    KeyHolds(c, IsUhid);
    KeyHolds(c, LedReapply);
  }

  lemma KeysOfFlags(c: SlotConfig)
    ensures Lookup(SaveSlot(c), RumbleActive) == Some(Number(if c.rumbleActive then 1 else 0))
    ensures Lookup(SaveSlot(c), InvertLy) == Some(Number(if c.invertLy then 1 else 0))
    ensures Lookup(SaveSlot(c), InvertRy) == Some(Number(if c.invertRy then 1 else 0))
    ensures Lookup(SaveSlot(c), TriggersDigital) == Some(Number(if c.triggersDigital then 1 else 0))
  {
    KeyHolds(c, RumbleActive);
    KeyHolds(c, InvertLy);
    KeyHolds(c, InvertRy);
    KeyHolds(c, TriggersDigital);
  }

  /** Reloading what was just written changes nothing exactly when every slot is in range. */
  lemma ReloadIsNoOp(p: Profile, now: int)
    ensures Accepted(SaveFile(p, now))
    ensures LoadSlots(Stored(SaveFile(p, now)), p.slots) == p.slots <==> AllInRange(p.slots)
  {
    var items := Stored(SaveFile(p, now));
    var r := LoadSlots(items, p.slots);
    forall i | 0 <= i < MAX_SLOTS ensures r[i] == Sanitise(p.slots[i]) && (r[i] == p.slots[i] <==> InRange(p.slots[i])) {
      SlotRoundTrip(p.slots[i]);
      SanitisedIsInRange(p.slots[i]);
    }
  }

  /** A loaded profile reloads as itself from the same file. */
  lemma LoadTwice(items: seq<Json>, prior: Profiles)
    ensures LoadSlots(items, LoadSlots(items, prior)) == LoadSlots(items, prior)
    ensures AllInRange(prior) || |items| >= MAX_SLOTS ==> AllInRange(LoadSlots(items, prior))
  {
    forall i | 0 <= i < |items| ensures InRange(LoadSlot(items[i])) { LoadedIsInRange(items[i]); }
  }
}
