/** The records shared by every part of the daemon: the persistent settings of a
    controller slot, and their snapshot as a profile entry. */
module Records {
  const MAX_SLOTS := 4
  const PHY_BTN_COUNT := 18
  const LOGICAL_BTN_COUNT := 19
  const SENS_PRESET_COUNT := 8
  const LEDFX_COUNT := 9

  datatype Option<T> = None | Some(value: T)

  newtype byte = x: int | 0 <= x < 256

  const STICK_MIN := -32768
  const STICK_MAX := 32767

  predicate Stick(x: int) {
    STICK_MIN <= x <= STICK_MAX
  }

  type Keymap = m: seq<byte> | |m| == PHY_BTN_COUNT witness [0, 0, 0, 0, 0, 0, 0, 0, 0, 0, 0, 0, 0, 0, 0, 0, 0, 0]

  /** One slot of a profile (`slot_config_t`). */
  datatype SlotConfig = SlotConfig(
    ledR: byte, ledG: byte, ledB: byte,
    ledBaseR: byte, ledBaseG: byte, ledBaseB: byte,
    rumbleGain: byte,
    deadzone: byte,
    globalLedBrightness: byte,
    playerLeds: byte,
    debounceEnabled: bool,
    emulateActive: bool,
    isUhid: bool,
    ledReapply: bool,
    rumbleActive: bool,
    invertLy: bool, invertRy: bool,
    sensitivityLeft: byte,
    sensitivityRight: byte,
    ledEffect: byte,
    ledEffectSpeed: byte,
    ledEffectBrightness: byte,
    keymap: Keymap,
    triggersDigital: bool)

  /** The fields of `controller_t` that the two conversions touch. `ledRequestEffect` is a C `int`
      there, wider than the profile's byte; `ledStatic` and `ledRequestPending` are written by the
      restore but never saved. */
  datatype Settings = Settings(
    ledR: byte, ledG: byte, ledB: byte,
    ledBaseR: byte, ledBaseG: byte, ledBaseB: byte,
    rumbleGain: byte,
    deadzone: byte,
    globalLedBrightness: byte,
    playerLeds: byte,
    debounceEnabled: bool,
    emulateActive: bool,
    isUhid: bool,
    ledReapply: bool,
    rumbleActive: bool,
    invertLy: bool, invertRy: bool,
    sensitivityLeftPreset: byte,
    sensitivityRightPreset: byte,
    ledStatic: bool,
    ledRequestEffect: int,
    ledRequestSpeed: byte,
    ledRequestBrightness: byte,
    ledRequestPending: bool,
    keymap: Keymap,
    isTriggerDigital: bool)

  const ZeroKeymap: Keymap := [0, 0, 0, 0, 0, 0, 0, 0, 0, 0, 0, 0, 0, 0, 0, 0, 0, 0]

  /** What `memset(slot, 0, sizeof)` leaves in these fields. */
  const ZeroSettings := Settings(
    0, 0, 0, 0, 0, 0, 0, 0, 0, 0, false, false, false, false, false, false, false,
    0, 0, false, 0, 0, 0, false, ZeroKeymap, false)

  /** What `memset(pm, 0, sizeof)` leaves in a profile entry. */
  const ZeroConfig := SlotConfig(
    0, 0, 0, 0, 0, 0, 0, 0, 0, 0, false, false, false, false, false, false, false,
    0, 0, 0, 0, 0, ZeroKeymap, false)

  /** Storing a C int in a `uint8_t`: reduction modulo 256. */
  function ToByte(x: int): byte {
    (x % 256) as byte
  }

  /** `controller_to_slot_config`. */
  function Save(s: Settings): SlotConfig {
    SlotConfig(
      s.ledR, s.ledG, s.ledB, s.ledBaseR, s.ledBaseG, s.ledBaseB,
      s.rumbleGain, s.deadzone, s.globalLedBrightness, s.playerLeds,
      s.debounceEnabled, s.emulateActive, s.isUhid, s.ledReapply, s.rumbleActive,
      s.invertLy, s.invertRy, s.sensitivityLeftPreset, s.sensitivityRightPreset,
      ToByte(s.ledRequestEffect), s.ledRequestSpeed, s.ledRequestBrightness,
      s.keymap, s.isTriggerDigital)
  }

  /** `slot_config_to_controller`: every field is overwritten, so the old record does not matter. */
  function Restore(c: SlotConfig): Settings {
    Settings(
      c.ledR, c.ledG, c.ledB, c.ledBaseR, c.ledBaseG, c.ledBaseB,
      c.rumbleGain, c.deadzone, c.globalLedBrightness, c.playerLeds,
      c.debounceEnabled, c.emulateActive, c.isUhid, c.ledReapply, c.rumbleActive,
      c.invertLy, c.invertRy, c.sensitivityLeft, c.sensitivityRight,
      c.ledEffect == 0, c.ledEffect as int, c.ledEffectSpeed, c.ledEffectBrightness, true,
      c.keymap, c.triggersDigital)
  }

  /** Every setting goes into the entry of its own name; only the requested effect is cut to a byte. */
  lemma SavedByName(s: Settings)
    ensures var c := Save(s);
      && (c.ledR, c.ledG, c.ledB) == (s.ledR, s.ledG, s.ledB)
      && (c.ledBaseR, c.ledBaseG, c.ledBaseB) == (s.ledBaseR, s.ledBaseG, s.ledBaseB)
      && c.rumbleGain == s.rumbleGain && c.deadzone == s.deadzone && c.globalLedBrightness == s.globalLedBrightness
      && c.playerLeds == s.playerLeds && c.debounceEnabled == s.debounceEnabled && c.emulateActive == s.emulateActive
      && c.isUhid == s.isUhid && c.ledReapply == s.ledReapply && c.rumbleActive == s.rumbleActive
      && (c.invertLy, c.invertRy) == (s.invertLy, s.invertRy)
      && (c.sensitivityLeft, c.sensitivityRight) == (s.sensitivityLeftPreset, s.sensitivityRightPreset)
      && c.ledEffectSpeed == s.ledRequestSpeed && c.ledEffectBrightness == s.ledRequestBrightness
      && c.keymap == s.keymap && c.triggersDigital == s.isTriggerDigital
      && (0 <= s.ledRequestEffect < 256 ==> c.ledEffect as int == s.ledRequestEffect)
  {
  }

  /** Restoring a profile entry and saving it again loses nothing. */
  lemma SaveRestore(c: SlotConfig)
    ensures Save(Restore(c)) == c
  {
    assert ToByte(c.ledEffect as int) == c.ledEffect;
  }

  /** The other direction is exact just when the requested effect fits a byte, the static flag agrees
      with it and a request is pending: these are the parts of a controller a profile does not keep. */
  lemma RestoreSave(s: Settings)
    ensures Restore(Save(s)) == s <==>
            && 0 <= s.ledRequestEffect < 256
            && s.ledStatic == (s.ledRequestEffect == 0)
            && s.ledRequestPending
  {
    var e := ToByte(s.ledRequestEffect);
    assert 0 <= s.ledRequestEffect < 256 <==> e as int == s.ledRequestEffect;
  }
}
