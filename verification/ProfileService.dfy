/** The settings thread: a write-back cache of the controllers' configuration. Shared memory is copied
    into the active profile, which is written to the file of its name when it has been quiet long enough
    or when a client asks. Every step is a function on `Svc`; `SettingsThread` runs it in place. */
module ProfileService {
  import opened Records
  import opened ProfileCodec
  import Keys = Keymap

  type Shm = s: seq<Settings> | |s| == MAX_SLOTS witness [ZeroSettings, ZeroSettings, ZeroSettings, ZeroSettings]

  /** The `led_dirty` flags of the slots. */
  type Flags = s: seq<bool> | |s| == MAX_SLOTS witness [false, false, false, false]

  const AllSet: Flags := [true, true, true, true]

  /** `struct timeval`. */
  datatype TimeVal = TimeVal(sec: int, usec: int)

  predicate ValidTime(t: TimeVal) {
    0 <= t.usec < 1_000_000
  }

  function Micros(t: TimeVal): int {
    t.sec * 1_000_000 + t.usec
  }

  /** `profile_manager_t`, the directory of profiles, and the part of shared memory the thread uses.
      A file that cannot be read counts as `Garbage`. */
  datatype Svc = Svc(
    profile: Profile,
    activeName: string,
    dirty: bool,
    lastChange: TimeVal,
    autoSave: bool,
    delayMs: int,
    disk: map<string, File>,
    shm: Shm,
    ledDirty: Flags,
    shmEnabled: int,
    shmDelay: int,
    shmName: string)

  const DEFAULT_NAME := "Default"

  // ----- the steps ------------------------------------------------------------------------------

  /** C's division of signed integers, which truncates toward zero. */
  function TruncDiv(x: int, d: int): int
    requires d > 0
  {
    if x >= 0 then x / d else -(-x / d)
  }

  /** `elapsed_ms` in `profile_handle_auto_save`. */
  function ElapsedMs(since: TimeVal, now: TimeVal): int {
    (now.sec - since.sec) * 1000 + TruncDiv(now.usec - since.usec, 1000)
  }

  predicate Loadable(disk: map<string, File>, name: string) {
    name in disk && Accepted(disk[name])
  }

  /** `load_profile_from_disk`. */
  function LoadFrom(s: Svc, name: string): Svc {
    if Loadable(s.disk, name) then s.(profile := Load(s.disk[name], name, s.profile)) else s
  }

  /** `save_profile_to_disk`; `ok` says whether the temporary file could be written and renamed. */
  function SaveTo(s: Svc, name: string, stamp: int, ok: bool): Svc {
    if ok then s.(disk := s.disk[name := SaveFile(s.profile, stamp)]) else s
  }

  function SavedShm(shm: Shm): Profiles {
    seq(MAX_SLOTS, i requires 0 <= i < MAX_SLOTS => Save(shm[i]))
  }

  predicate Detects(s: Svc) {
    s.profile.slots != SavedShm(s.shm)
  }

  /** `profile_sync_shm_to_active`. */
  function Sync(s: Svc, now: TimeVal, stamp: int): Svc {
    if Detects(s) then
      s.(profile := s.profile.(slots := SavedShm(s.shm), lastModified := Wrap64(stamp)), dirty := true, lastChange := now)
    else s
  }

  function RestoredSlots(slots: Profiles): Shm {
    seq(MAX_SLOTS, i requires 0 <= i < MAX_SLOTS => Restore(slots[i]))
  }

  /** `profile_apply_to_shm`. */
  function Apply(s: Svc): Svc {
    s.(shm := RestoredSlots(s.profile.slots), ledDirty := AllSet)
  }

  /** The three updates that make a freshly loaded profile visible to clients. */
  function Publish(s: Svc): Svc {
    Apply(s).(shmEnabled := if s.autoSave then 1 else 0, shmDelay := s.delayMs, shmName := s.activeName)
  }

  predicate Attempts(s: Svc, now: TimeVal) {
    s.autoSave && s.dirty && ElapsedMs(s.lastChange, now) >= s.delayMs
  }

  /** `profile_handle_auto_save`. */
  function AutoSave(s: Svc, now: TimeVal, stamp: int, ok: bool): Svc {
    if Attempts(s, now) && ok then SaveTo(s, s.activeName, stamp, ok).(dirty := false) else s
  }

  function LoadRequest(s: Svc, name: string): Svc {
    if Loadable(s.disk, name) then Publish(LoadFrom(s, name).(activeName := name)) else s
  }

  function SaveRequest(s: Svc, name: string, stamp: int, ok: bool): Svc {
    var t := SaveTo(s, name, stamp, ok);
    if ok && name == s.activeName then t.(dirty := false) else t
  }

  /** A delete succeeds when the file is there and `ok`; deleting the active profile falls back to
      `Default`, whose load may fail unnoticed. */
  function DeleteRequest(s: Svc, name: string, ok: bool): Svc {
    if !ok || name !in s.disk then s
    else
      var t := s.(disk := s.disk - {name});
      if name == s.activeName then Publish(LoadFrom(t, DEFAULT_NAME).(activeName := DEFAULT_NAME)) else t
  }

  function AutoSaveRequest(s: Svc): Svc {
    var t := s.(autoSave := if s.shmEnabled != -1 then s.shmEnabled != 0 else s.autoSave,
                delayMs := if s.shmDelay > 0 then s.shmDelay else s.delayMs);
    t.(shmEnabled := if t.autoSave then 1 else 0, shmDelay := t.delayMs)
  }

  /** `profile_process_requests` between taking a request and answering it: the new state and the
      response. Request 4 lists the directory and changes nothing. */
  function Process(s: Svc, req: int, name: string, stamp: int, ok: bool): (Svc, int) {
    match req
    case 1 => (LoadRequest(s, name), if Loadable(s.disk, name) then 1 else -1)
    case 2 => (SaveRequest(s, name, stamp, ok), if ok then 1 else -1)
    case 3 => (DeleteRequest(s, name, ok), if ok && name in s.disk then 1 else -1)
    case 4 => (s, 1)
    case 5 => (AutoSaveRequest(s), 1)
    case _ => (s, -1)
  }

  function FactoryConfig(): SlotConfig {
    SlotConfig(0, 0, 255, 0, 0, 255, 100, 10, 80, 0, true, true, false, true, true, false, false,
               0, 0, 0, 5, 80, Keys.IdentityKeymap(), false)
  }

  function FactorySlots(): Profiles {
    var c := FactoryConfig();
    [c, c, c, c]
  }

  function ZeroSlots(): Profiles {
    seq(MAX_SLOTS, i requires 0 <= i < MAX_SLOTS => ZeroConfig)
  }

  /** `profile_manager_init` and the first lines of `settings_worker`. */
  function Start(disk: map<string, File>, shm: Shm, stamp: int, ok: bool): Svc {
    var blank := Svc(Profile("", ZeroSlots(), 0, 0), DEFAULT_NAME, false, TimeVal(0, 0), true, 2000,
                     disk, shm, AllSet, 0, 0, "");
    Publish(
      if Loadable(disk, DEFAULT_NAME) then LoadFrom(blank, DEFAULT_NAME)
      else SaveTo(blank.(profile := Profile(DEFAULT_NAME, FactorySlots(), Wrap64(stamp), 1)), DEFAULT_NAME, stamp, ok))
  }

  /** `profile_manager_cleanup`. */
  function Shutdown(s: Svc, stamp: int, ok: bool): Svc {
    if s.dirty && s.autoSave then SaveTo(s, s.activeName, stamp, ok) else s
  }

  // ----- the thread in place --------------------------------------------------------------------

  class SettingsThread {
    const slots: array<SlotConfig>
    const shm: array<Settings>
    const ledDirty: array<bool>
    var profileName: string
    var lastModified: int
    var version: int
    var activeName: string
    var dirty: bool
    var lastChange: TimeVal
    var autoSave: bool
    var delayMs: int
    var disk: map<string, File>
    var shmEnabled: int
    var shmDelay: int
    var shmName: string

    ghost predicate Valid() {
      slots.Length == MAX_SLOTS && shm.Length == MAX_SLOTS && ledDirty.Length == MAX_SLOTS
    }

    ghost function View(): Svc
      requires Valid()
      reads this, slots, shm, ledDirty
    {
      Svc(Profile(profileName, slots[..], lastModified, version), activeName, dirty, lastChange,
          autoSave, delayMs, disk, shm[..], ledDirty[..], shmEnabled, shmDelay, shmName)
    }

    /** Maps the shared memory `shared` and starts from the directory `files`. */
    constructor (files: map<string, File>, shared: array<Settings>, flags: array<bool>, stamp: int, ok: bool)
      requires shared.Length == MAX_SLOTS && flags.Length == MAX_SLOTS
      modifies shared, flags
      ensures Valid() && shm == shared && ledDirty == flags && fresh(slots)
      ensures View() == Start(files, old(shared[..]), stamp, ok)
    {
      slots := new SlotConfig[MAX_SLOTS](i => ZeroConfig);
      shm, ledDirty := shared, flags;
      profileName, lastModified, version := "", 0, 0;
      activeName, dirty, lastChange := DEFAULT_NAME, false, TimeVal(0, 0);
      autoSave, delayMs, disk := true, 2000, files;
      shmEnabled, shmDelay, shmName := 0, 0, "";
      new;
      assert slots[..] == ZeroSlots();
      var loaded := LoadProfileFromDisk(DEFAULT_NAME);
      if !loaded {
        profileName, version, lastModified := DEFAULT_NAME, 1, Wrap64(stamp);
        FactoryReset();
        SaveProfileToDisk(DEFAULT_NAME, stamp, ok);
      }
      PublishProfile();
    }

    /** The slots of a profile nobody has saved yet. */
    method FactoryReset()
      requires Valid()
      modifies slots
      ensures slots[..] == FactorySlots()
    {
      var i := 0;
      while i < MAX_SLOTS
        invariant 0 <= i <= MAX_SLOTS
        invariant forall k | 0 <= k < i :: slots[k] == FactoryConfig()
      {
        slots[i] := FactoryConfig();
        i := i + 1;
      }
    }

    /** The loop over the `slots` array of a file. */
    method ReadSlots(items: seq<Json>)
      requires Valid()
      modifies slots
      ensures slots[..] == LoadSlots(items, old(slots[..]))
    {
      ghost var before := slots[..];
      var i := 0;
      while i < MAX_SLOTS && i < |items|
        invariant 0 <= i <= MAX_SLOTS && i <= |items|
        invariant forall k | 0 <= k < i :: slots[k] == LoadSlot(items[k])
        invariant forall k | i <= k < MAX_SLOTS :: slots[k] == before[k]
      {
        slots[i] := LoadSlot(items[i]);
        i := i + 1;
      }
    }

    method LoadProfileFromDisk(name: string) returns (loaded: bool)
      requires Valid()
      modifies this, slots
      ensures Valid()
      ensures View() == LoadFrom(old(View()), name)
      ensures loaded == Loadable(old(disk), name)
    {
      if name !in disk || !Accepted(disk[name]) {
        return false;
      }
      var root := disk[name].root;
      ReadSlots(Stored(disk[name]));
      profileName := name;
      version := Wrap32(ValueInt(Lookup(root, Version).value));
      lastModified := Wrap64(ValueInt(Lookup(root, LastModified).value));
      loaded := true;
    }

    method SaveProfileToDisk(name: string, stamp: int, ok: bool)
      requires Valid()
      modifies this`disk
      ensures View() == SaveTo(old(View()), name, stamp, ok)
    {
      if ok {
        var profile := Profile(profileName, slots[..], lastModified, version);
        disk := disk[name := SaveFile(profile, stamp)];
      }
    }

    /** The comparing loop of `profile_sync_shm_to_active`. */
    method CopyChanges() returns (changed: bool)
      requires Valid()
      modifies slots
      ensures slots[..] == SavedShm(shm[..])
      ensures changed <==> old(slots[..]) != SavedShm(shm[..])
    {
      ghost var before, snapshot := slots[..], SavedShm(shm[..]);
      changed := false;
      var i := 0;
      while i < MAX_SLOTS
        invariant 0 <= i <= MAX_SLOTS
        invariant forall k | 0 <= k < i :: slots[k] == snapshot[k]
        invariant forall k | i <= k < MAX_SLOTS :: slots[k] == before[k]
        invariant changed <==> exists k | 0 <= k < i :: before[k] != snapshot[k]
      {
        var config := Save(shm[i]);
        if slots[i] != config {
          slots[i] := config;
          changed := true;
        }
        i := i + 1;
      }
    }

    method SyncShmToActive(now: TimeVal, stamp: int)
      requires Valid()
      modifies this, slots
      ensures Valid()
      ensures View() == Sync(old(View()), now, stamp)
    {
      var changed := CopyChanges();
      if changed {
        lastModified := Wrap64(stamp);
        dirty := true;
        lastChange := now;
      }
    }

    method ApplyToShm()
      requires Valid()
      modifies shm, ledDirty
      ensures View() == Apply(old(View()))
    {
      var i := 0;
      while i < MAX_SLOTS
        invariant 0 <= i <= MAX_SLOTS
        invariant forall k | 0 <= k < i :: shm[k] == Restore(slots[k]) && ledDirty[k]
      {
        shm[i] := Restore(slots[i]);
        ledDirty[i] := true;
        i := i + 1;
      }
      assert shm[..] == RestoredSlots(slots[..]) && ledDirty[..] == AllSet;
    }

    method PublishProfile()
      requires Valid()
      modifies this`shmEnabled, this`shmDelay, this`shmName, shm, ledDirty
      ensures View() == Publish(old(View()))
    {
      ApplyToShm();
      shmEnabled, shmDelay := if autoSave then 1 else 0, delayMs;
      shmName := activeName;
    }

    method HandleAutoSave(now: TimeVal, stamp: int, ok: bool)
      requires Valid()
      modifies this
      ensures Valid()
      ensures View() == AutoSave(old(View()), now, stamp, ok)
    {
      if !autoSave || !dirty { return; }
      var elapsed := (now.sec - lastChange.sec) * 1000 + TruncDiv(now.usec - lastChange.usec, 1000);
      if elapsed >= delayMs {
        SaveProfileToDisk(activeName, stamp, ok);
        if ok {
          dirty := false;
        }
      }
    }

    method DeleteProfile(name: string, ok: bool) returns (deleted: bool)
      requires Valid()
      modifies this, slots, shm, ledDirty
      ensures Valid()
      ensures View() == DeleteRequest(old(View()), name, ok)
      ensures deleted == (ok && name in old(disk))
    {
      if !ok || name !in disk {
        return false;
      }
      disk := disk - {name};
      if name == activeName {
        var _ := LoadProfileFromDisk(DEFAULT_NAME);
        activeName := DEFAULT_NAME;
        PublishProfile();
      }
      deleted := true;
    }

    method ProcessRequest(req: int, name: string, stamp: int, ok: bool) returns (result: int)
      requires Valid()
      modifies this, slots, shm, ledDirty
      ensures Valid()
      ensures (View(), result) == Process(old(View()), req, name, stamp, ok)
    {
      match req
      case 1 =>
        var loaded := LoadProfileFromDisk(name);
        if loaded {
          activeName := name;
          PublishProfile();
          result := 1;
        } else {
          result := -1;
        }
      case 2 =>
        SaveProfileToDisk(name, stamp, ok);
        if ok {
          if name == activeName { dirty := false; }
          result := 1;
        } else {
          result := -1;
        }
      case 3 =>
        var deleted := DeleteProfile(name, ok);
        result := if deleted then 1 else -1;
      case 4 =>
        result := 1;
      case 5 =>
        if shmEnabled != -1 { autoSave := shmEnabled != 0; }
        if shmDelay > 0 { delayMs := shmDelay; }
        shmEnabled, shmDelay := if autoSave then 1 else 0, delayMs;
        result := 1;
      case _ =>
        result := -1;
    }
  }
}
