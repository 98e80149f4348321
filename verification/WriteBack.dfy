/** What the settings thread promises: the file of the active profile is up to date unless the profile
    is marked dirty, and changes reach the disk when they have been quiet for the configured time. */
module WriteBack {
  import opened Records
  import opened ProfileCodec
  import opened ProfileService

  /** Reading the file `name` over `slots` changes nothing. */
  predicate ReloadsAs(disk: map<string, File>, name: string, slots: Profiles) {
    Loadable(disk, name) && LoadSlots(Stored(disk[name]), slots) == slots
  }

  /** The write-back invariant. */
  predicate UpToDate(s: Svc) {
    s.dirty || ReloadsAs(s.disk, s.activeName, s.profile.slots)
  }

  /** Everything in memory is in the ranges the reader accepts. */
  predicate Tame(s: Svc) {
    AllInRange(s.profile.slots) && AllInRange(SavedShm(s.shm))
  }

  predicate Inv(s: Svc) {
    UpToDate(s) && Tame(s) && Loadable(s.disk, DEFAULT_NAME)
  }

  /** What can happen between two looks at the state, in any order: somebody stores settings in a slot, sets
      or clears its LED flag, or stores new auto-save values, or the thread takes one of its three steps. */
  datatype Event =
    | ClientWrite(slot: nat, value: Settings)
    | LedFlag(slot: nat, on: bool)
    | ClientAutoSave(enabled: int, delay: int)
    | SyncStep(now: TimeVal, stamp: int)
    | RequestStep(req: int, name: string, stamp: int, ok: bool)
    | AutoSaveStep(now: TimeVal, stamp: int, ok: bool)

  function Next(s: Svc, e: Event): Svc {
    match e
    case ClientWrite(i, v) => if i < MAX_SLOTS then s.(shm := s.shm[i := v]) else s
    case LedFlag(i, on) => if i < MAX_SLOTS then s.(ledDirty := s.ledDirty[i := on]) else s
    case ClientAutoSave(enabled, delay) => s.(shmEnabled := enabled, shmDelay := delay)
    case SyncStep(now, stamp) => Sync(s, now, stamp)
    case RequestStep(req, name, stamp, ok) => Process(s, req, name, stamp, ok).0
    case AutoSaveStep(now, stamp, ok) => AutoSave(s, now, stamp, ok)
  }

  /** Clients store settings in range, and nobody deletes `Default`. */
  predicate Allowed(e: Event) {
    && (e.ClientWrite? ==> InRange(Save(e.value)))
    && (e.RequestStep? && e.req == 3 ==> e.name != DEFAULT_NAME)
  }

  // ----- the write-back invariant ---------------------------------------------------------------

  lemma SavedReloads(s: Svc, name: string, stamp: int)
    ensures var t := SaveTo(s, name, stamp, true);
      Loadable(t.disk, name) && (ReloadsAs(t.disk, name, s.profile.slots) <==> AllInRange(s.profile.slots))
  {
    ReloadIsNoOp(s.profile, stamp);
  }

  lemma LoadedReloads(s: Svc, name: string)
    requires Loadable(s.disk, name)
    ensures var t := LoadFrom(s, name);
      ReloadsAs(t.disk, name, t.profile.slots) && (AllInRange(s.profile.slots) ==> AllInRange(t.profile.slots))
  {
    LoadTwice(Stored(s.disk[name]), s.profile.slots);
  }

  lemma AppliedReadsBack(slots: Profiles)
    ensures SavedShm(RestoredSlots(slots)) == slots
  {
    forall i | 0 <= i < MAX_SLOTS ensures SavedShm(RestoredSlots(slots))[i] == slots[i] {
      SaveRestore(slots[i]);
    }
  }

  lemma RequestKeepsInv(s: Svc, req: int, name: string, stamp: int, ok: bool)
    requires Inv(s) && (req == 3 ==> name != DEFAULT_NAME)
    ensures Inv(Process(s, req, name, stamp, ok).0)
  {
    if req == 1 && Loadable(s.disk, name) {
      LoadedReloads(s, name);
      AppliedReadsBack(LoadFrom(s, name).profile.slots);
    } else if req == 2 && ok {
      SavedReloads(s, name, stamp);
      assert DEFAULT_NAME != name ==> s.disk[name := SaveFile(s.profile, stamp)][DEFAULT_NAME] == s.disk[DEFAULT_NAME];
    } else if req == 3 && ok && name in s.disk && name == s.activeName {
      var t := s.(disk := s.disk - {name});
      LoadedReloads(t, DEFAULT_NAME);
      AppliedReadsBack(LoadFrom(t, DEFAULT_NAME).profile.slots);
    }
  }

  lemma EventKeepsInv(s: Svc, e: Event)
    requires Inv(s) && Allowed(e)
    ensures Inv(Next(s, e))
  {
    match e
    case ClientWrite(i, v) =>
      forall k | 0 <= k < MAX_SLOTS ensures InRange(SavedShm(Next(s, e).shm)[k]) {
        assert k != i ==> SavedShm(Next(s, e).shm)[k] == SavedShm(s.shm)[k];
      }
    case LedFlag(_, _) =>
    case ClientAutoSave(_, _) =>
    case SyncStep(_, _) =>
    case RequestStep(req, name, stamp, ok) => RequestKeepsInv(s, req, name, stamp, ok);
    case AutoSaveStep(now, stamp, ok) =>
      if Attempts(s, now) && ok { SavedReloads(s, s.activeName, stamp); }
  }

  /** The state after the first `k` events. */
  function At(s: Svc, es: seq<Event>, k: nat): Svc
    requires k <= |es|
  {
    if k == 0 then s else Next(At(s, es, k - 1), es[k - 1])
  }

  /** In every run the file of a profile that is not dirty is up to date, whatever saves fail. */
  lemma {:induction false} RunKeepsInv(s: Svc, es: seq<Event>, k: nat)
    requires Inv(s) && k <= |es| && forall j | 0 <= j < k :: Allowed(es[j])
    ensures Inv(At(s, es, k))
  {
    if k > 0 {
      RunKeepsInv(s, es, k - 1);
      EventKeepsInv(At(s, es, k - 1), es[k - 1]);
    }
  }

  /** The thread starts up to date just when there was a `Default` to load or it could write one; it
      starts in range as well just when a loaded `Default` had an entry for every slot, since the
      remaining ones keep the zero effect speed of the cleared manager. */
  lemma StartIsUpToDate(disk: map<string, File>, shm: Shm, stamp: int, ok: bool)
    ensures var s := Start(disk, shm, stamp, ok);
      && (UpToDate(s) <==> Loadable(disk, DEFAULT_NAME) || ok)
      && (Inv(s) <==> if Loadable(disk, DEFAULT_NAME) then |Stored(disk[DEFAULT_NAME])| >= MAX_SLOTS else ok)
  {
    var s := Start(disk, shm, stamp, ok);
    AppliedReadsBack(s.profile.slots);
    if Loadable(disk, DEFAULT_NAME) {
      var items := Stored(disk[DEFAULT_NAME]);
      LoadTwice(items, ZeroSlots());
      assert |items| < MAX_SLOTS ==> s.profile.slots[3] == ZeroConfig && !InRange(ZeroConfig);
    } else {
      FactoryInRange();
      var blank := s.(disk := disk);
      if ok { SavedReloads(blank, DEFAULT_NAME, stamp); }
    }
  }

  lemma FactoryInRange()
    ensures AllInRange(FactorySlots())
  {
    assert InRange(FactoryConfig());
  }

  // ----- what a sync and a request take over -----------------------------------------------------

  /** After every sync the profile is what shared memory holds, slot by slot; it is marked dirty, with the time
      and the stamp, exactly when some slot differed, and nothing else changes. */
  lemma SyncCopies(s: Svc, now: TimeVal, stamp: int)
    ensures var t, differed := Sync(s, now, stamp), exists i :: 0 <= i < MAX_SLOTS && s.profile.slots[i] != Save(s.shm[i]);
      && (forall i | 0 <= i < MAX_SLOTS :: t.profile.slots[i] == Save(s.shm[i]))
      && (t.dirty <==> s.dirty || differed)
      && t.lastChange == (if differed then now else s.lastChange)
      && t.profile.lastModified == (if differed then Wrap64(stamp) else s.profile.lastModified)
      && t == s.(profile := s.profile.(slots := t.profile.slots, lastModified := t.profile.lastModified),
                 dirty := t.dirty, lastChange := t.lastChange)
  {
    if s.profile.slots == SavedShm(s.shm) {
      forall i | 0 <= i < MAX_SLOTS ensures s.profile.slots[i] == Save(s.shm[i]) { assert SavedShm(s.shm)[i] == Save(s.shm[i]); }
    } else {
      assert exists i :: 0 <= i < MAX_SLOTS && s.profile.slots[i] != SavedShm(s.shm)[i];
    }
  }

  /** The request that sets automatic saving: the thread takes over a switch that is not -1 and a delay that is
      positive, and answers with what is in force; asking again changes nothing. */
  lemma AutoSaveRequestTakes(s: Svc, name: string, stamp: int, ok: bool)
    ensures var t := Process(s, 5, name, stamp, ok).0;
      && (s.shmEnabled == -1 ==> t.autoSave == s.autoSave) && (s.shmEnabled != -1 ==> (t.autoSave <==> s.shmEnabled != 0))
      && (s.shmDelay <= 0 ==> t.delayMs == s.delayMs) && (s.shmDelay > 0 ==> t.delayMs == s.shmDelay)
      && (t.shmEnabled == 1 <==> t.autoSave) && (t.shmEnabled == 0 <==> !t.autoSave) && t.shmDelay == t.delayMs
      && t == s.(autoSave := t.autoSave, delayMs := t.delayMs, shmEnabled := t.shmEnabled, shmDelay := t.shmDelay)
      && (t.delayMs > 0 ==> Process(t, 5, name, stamp, ok).0 == t)
  {
  }

  /** What a load makes of the slots: those its file holds, as the reader takes them, and the old ones past its
      array. */
  predicate Taken(items: seq<Json>, prior: Profiles, slots: Profiles) {
    forall i | 0 <= i < MAX_SLOTS :: slots[i] == if i < |items| then LoadSlot(items[i]) else prior[i]
  }

  /** Shared memory shows the slots of a profile. */
  predicate Shows(shm: Shm, slots: Profiles) {
    forall i | 0 <= i < MAX_SLOTS :: Save(shm[i]) == slots[i]
  }

  lemma AppliedShows(slots: Profiles)
    ensures Shows(RestoredSlots(slots), slots)
  {
    forall i | 0 <= i < MAX_SLOTS ensures Save(RestoredSlots(slots)[i]) == slots[i] { SaveRestore(slots[i]); }
  }

  /** A published profile is visible to clients: its slots, its name, and the automatic saving in force. */
  predicate Published(t: Svc) {
    && Shows(t.shm, t.profile.slots) && t.shmName == t.activeName
    && t.shmEnabled == (if t.autoSave then 1 else 0) && t.shmDelay == t.delayMs
  }

  lemma PublishKeeps(s: Svc)
    ensures var t := Publish(s);
      && t.profile == s.profile && t.activeName == s.activeName && t.disk == s.disk
      && t.dirty == s.dirty && t.lastChange == s.lastChange && t.autoSave == s.autoSave && t.delayMs == s.delayMs
  {
  }

  lemma PublishStores(s: Svc)
    ensures Publish(s).shm == RestoredSlots(s.profile.slots)
  {
  }

  lemma PublishAnnounces(s: Svc)
    ensures Publish(s).shmName == s.activeName && Publish(s).ledDirty == AllSet
  {
  }

  lemma PublishAnswers(s: Svc)
    ensures Publish(s).shmDelay == s.delayMs && Publish(s).shmEnabled == if s.autoSave then 1 else 0
  {
  }

  lemma PublishShows(s: Svc)
    ensures Published(Publish(s))
  {
    var t := Publish(s);
    assert Shows(t.shm, t.profile.slots) by {
      AppliedShows(s.profile.slots);
      PublishStores(s);
      PublishKeeps(s);
    }
    assert t.shmName == t.activeName by { PublishAnnounces(s); }
    assert t.shmEnabled == (if t.autoSave then 1 else 0) && t.shmDelay == t.delayMs by { PublishAnswers(s); }
  }

  lemma LoadTakes(s: Svc, name: string)
    requires Loadable(s.disk, name)
    ensures var t := LoadFrom(s, name);
      Taken(Stored(s.disk[name]), s.profile.slots, t.profile.slots) && t.profile.name == name && t == s.(profile := t.profile)
  {
  }

  /** Loading a profile that is there takes its slots over, under its name, and publishes them. */
  lemma LoadRequestTakes(s: Svc, name: string, stamp: int, ok: bool)
    requires Loadable(s.disk, name)
    ensures var t := Process(s, 1, name, stamp, ok).0;
      && Taken(Stored(s.disk[name]), s.profile.slots, t.profile.slots) && Published(t)
      && t.activeName == name && t.profile.name == name
      && t.disk == s.disk && t.dirty == s.dirty && t.autoSave == s.autoSave && t.delayMs == s.delayMs
  {
    LoadTakes(s, name);
    PublishKeeps(LoadFrom(s, name).(activeName := name));
    PublishShows(LoadFrom(s, name).(activeName := name));
  }

  /** Deleting the active profile loads `Default` in its place, if that is there; otherwise the slots stay. */
  lemma DeleteRequestTakes(s: Svc, name: string, stamp: int)
    requires name in s.disk && name == s.activeName
    ensures var t, rest := Process(s, 3, name, stamp, true).0, s.disk - {name};
      && t.disk == rest && t.activeName == DEFAULT_NAME && Published(t)
      && (if Loadable(rest, DEFAULT_NAME) then Taken(Stored(rest[DEFAULT_NAME]), s.profile.slots, t.profile.slots)
          else t.profile == s.profile)
  {
    var t := s.(disk := s.disk - {name});
    if Loadable(t.disk, DEFAULT_NAME) { LoadTakes(t, DEFAULT_NAME); }
    PublishKeeps(LoadFrom(t, DEFAULT_NAME).(activeName := DEFAULT_NAME));
    PublishShows(LoadFrom(t, DEFAULT_NAME).(activeName := DEFAULT_NAME));
  }

  /** Which files a request leaves on disk: a save adds or replaces one, a delete takes one away, and the others stay. */
  lemma RequestFiles(s: Svc, req: int, name: string, stamp: int, ok: bool)
    ensures var t := Process(s, req, name, stamp, ok).0;
      && (forall other | other != name :: (other in t.disk <==> other in s.disk) && (other in s.disk ==> t.disk[other] == s.disk[other]))
      && (req == 2 && ok ==> name in t.disk && t.disk[name] == SaveFile(s.profile, stamp))
      && (req == 3 && ok ==> name !in t.disk)
      && ((req != 2 && req != 3) || !ok ==> t.disk == s.disk)
  {
  }

  /** A list, and a request there is none of, change nothing; a save changes no more than its file and, for the active
      profile, the dirty flag. */
  lemma RequestsThatKeep(s: Svc, req: int, name: string, stamp: int, ok: bool)
    ensures var t := Process(s, req, name, stamp, ok).0;
      && (req != 1 && req != 2 && req != 3 && req != 5 ==> t == s)
      && (req == 2 ==> t == s.(disk := t.disk, dirty := s.dirty && !(ok && name == s.activeName)))
  {
  }

  /** The thread starts clean and with automatic saving after two seconds, in force and announced; without a `Default`
      to load it starts with the factory's slots as version 1 of it. */
  lemma StartsClean(disk: map<string, File>, shm: Shm, stamp: int, ok: bool)
    ensures var s := Start(disk, shm, stamp, ok);
      && !s.dirty && s.lastChange == TimeVal(0, 0) && s.autoSave && s.delayMs == 2000
      && s.activeName == "Default" && Published(s)
      && (!Loadable(disk, "Default") ==> s.profile == Profile("Default", FactorySlots(), Wrap64(stamp), 1))
      && (Loadable(disk, "Default") ==> s.disk == disk && Taken(Stored(disk["Default"]), ZeroSlots(), s.profile.slots))
  {
    var blank := Svc(Profile("", ZeroSlots(), 0, 0), DEFAULT_NAME, false, TimeVal(0, 0), true, 2000, disk, shm, AllSet, 0, 0, "");
    if Loadable(disk, DEFAULT_NAME) {
      LoadTakes(blank, DEFAULT_NAME);
      PublishKeeps(LoadFrom(blank, DEFAULT_NAME));
      PublishShows(LoadFrom(blank, DEFAULT_NAME));
    } else {
      var first := SaveTo(blank.(profile := Profile(DEFAULT_NAME, FactorySlots(), Wrap64(stamp), 1)), DEFAULT_NAME, stamp, ok);
      PublishKeeps(first);
      PublishShows(first);
    }
  }

  /** The response is 1 exactly when the request did what it asks for: load a file that is accepted, write a file,
      delete one that was there, list, or set automatic saving. */
  lemma ResponseExactly(s: Svc, req: int, name: string, stamp: int, ok: bool)
    ensures var result := Process(s, req, name, stamp, ok).1;
      && (result == 1 || result == -1)
      && (result == 1 <==>
            || (req == 1 && name in s.disk && Accepted(s.disk[name]))
            || (req == 2 && ok)
            || (req == 3 && ok && name in s.disk)
            || req == 4 || req == 5)
      && (result == -1 && req != 2 ==> Process(s, req, name, stamp, ok).0 == s)
  {
  }

  /** An element of a file with nothing usable in it, of whatever kind, reads as the configuration of a profile that
      nobody has saved yet. */
  lemma UnusableReadsAsFactory(j: Json)
    requires j.Object? ==> forall key | key in j.fields :: !j.fields[key].Number? && !j.fields[key].Array?
    ensures LoadSlot(j) == FactoryConfig()
  {
  }

  // ----- where the conditions matter ------------------------------------------------------------

  /** Saving the active profile leaves it clean and up to date exactly when every slot is in range:
      an out-of-range field would come back as its default. */
  lemma SaveActiveExactly(s: Svc, stamp: int)
    ensures var t := SaveRequest(s, s.activeName, stamp, true); !t.dirty && (UpToDate(t) <==> AllInRange(s.profile.slots))
  {
    SavedReloads(s, s.activeName, stamp);
  }

  /** Deleting the active profile leaves things up to date exactly when there is still a `Default` to
      fall back to, or the profile was dirty; deleting another one does not matter. */
  lemma DeleteExactly(s: Svc, name: string)
    requires name in s.disk
    ensures var t := DeleteRequest(s, name, true);
      UpToDate(t) <==>
        if name == s.activeName then s.dirty || (name != DEFAULT_NAME && Loadable(s.disk, DEFAULT_NAME))
        else UpToDate(s)
  {
    var t := s.(disk := s.disk - {name});
    if name == s.activeName && name != DEFAULT_NAME && Loadable(s.disk, DEFAULT_NAME) {
      LoadedReloads(t, DEFAULT_NAME);
    }
  }

  /** Loading a profile does not make it dirty: the next look at shared memory finds no change. Every
      light bar is due for an update. */
  lemma LoadIsQuiet(s: Svc, name: string, now: TimeVal, stamp: int)
    requires Loadable(s.disk, name)
    ensures var t := LoadRequest(s, name); !Detects(t) && Sync(t, now, stamp) == t && t.dirty == s.dirty && t.ledDirty == AllSet
  {
    AppliedReadsBack(LoadFrom(s, name).profile.slots);
  }

  /** Clients see the name of the active profile, and the delay is never 0. */
  predicate Announced(s: Svc) {
    s.shmName == s.activeName && s.delayMs > 0
  }

  lemma StartIsAnnounced(disk: map<string, File>, shm: Shm, stamp: int, ok: bool)
    ensures Announced(Start(disk, shm, stamp, ok))
  {
  }

  lemma EventKeepsAnnounced(s: Svc, e: Event)
    requires Announced(s)
    ensures Announced(Next(s, e))
  {
  }

  /** In every run from the start of the thread. */
  lemma {:induction false} RunKeepsAnnounced(disk: map<string, File>, shm: Shm, stamp: int, ok: bool, es: seq<Event>, k: nat)
    requires k <= |es|
    ensures Announced(At(Start(disk, shm, stamp, ok), es, k))
  {
    var s := Start(disk, shm, stamp, ok);
    if k == 0 {
      StartIsAnnounced(disk, shm, stamp, ok);
    } else {
      RunKeepsAnnounced(disk, shm, stamp, ok, es, k - 1);
      EventKeepsAnnounced(At(s, es, k - 1), es[k - 1]);
    }
  }

  predicate Complete(disk: map<string, File>) {
    forall name | name in disk && Accepted(disk[name]) :: |Stored(disk[name])| >= MAX_SLOTS
  }

  lemma SaveKeepsComplete(s: Svc, name: string, stamp: int, ok: bool)
    requires Complete(s.disk)
    ensures Complete(SaveTo(s, name, stamp, ok).disk)
  {
    var file := SaveFile(s.profile, stamp);
    assert Accepted(file) && |Stored(file)| == MAX_SLOTS;
  }

  lemma DeleteKeepsComplete(s: Svc, name: string, ok: bool)
    requires Complete(s.disk)
    ensures Complete(DeleteRequest(s, name, ok).disk)
  {
    assert Complete(s.disk - {name});
  }

  /** Files with an entry for every slot stay so, as the thread writes no other. */
  lemma EventKeepsComplete(s: Svc, e: Event)
    requires Complete(s.disk)
    ensures Complete(Next(s, e).disk)
  {
    match e
    case RequestStep(req, name, stamp, ok) =>
      if req == 2 { SaveKeepsComplete(s, name, stamp, ok); }
      if req == 3 { DeleteKeepsComplete(s, name, ok); }
    case AutoSaveStep(_, stamp, ok) => SaveKeepsComplete(s, s.activeName, stamp, ok);
    case _ =>
  }

  /** With such files, a clean profile is recovered by a process that remembers nothing. */
  lemma CleanProfileIsRecovered(s: Svc, prior: Profile)
    requires Inv(s) && Complete(s.disk) && !s.dirty
    ensures Load(s.disk[s.activeName], s.activeName, prior).slots == s.profile.slots
  {
    var items := Stored(s.disk[s.activeName]);
    assert LoadSlots(items, prior.slots) == LoadSlots(items, s.profile.slots);
  }

  /** At shutdown the profile ends up on disk exactly when it was there already, or it was dirty,
      auto-save was on and the write worked. */
  lemma ShutdownExactly(s: Svc, stamp: int, ok: bool)
    requires Inv(s)
    ensures ReloadsAs(Shutdown(s, stamp, ok).disk, s.activeName, s.profile.slots) <==>
            ReloadsAs(s.disk, s.activeName, s.profile.slots) || (s.dirty && s.autoSave && ok)
  {
    SavedReloads(s, s.activeName, stamp);
  }

  // ----- auto-save timing -----------------------------------------------------------------------

  /** The millisecond count of the code is less than one millisecond away from the true difference. */
  lemma ElapsedIsClose(since: TimeVal, now: TimeVal)
    requires ValidTime(since) && ValidTime(now)
    ensures var exact := Micros(now) - Micros(since);
      exact - 1000 < 1000 * ElapsedMs(since, now) < exact + 1000
  {
    var d := now.usec - since.usec;
    assert d - 1000 < 1000 * TruncDiv(d, 1000) < d + 1000;
  }

  /** The count reaches `d` before `d` milliseconds have passed exactly when the microseconds of the
      clock are below those of the last change, so that their negative difference is truncated toward
      zero, and less than one millisecond is missing. */
  lemma EarlyExactly(since: TimeVal, now: TimeVal, d: int)
    requires ValidTime(since) && ValidTime(now)
    ensures ElapsedMs(since, now) >= d && Micros(now) - Micros(since) < 1000 * d <==>
            now.usec < since.usec && 1000 * (d - 1) < Micros(now) - Micros(since) < 1000 * d
  {
    var u := now.usec - since.usec;
    assert u >= 0 ==> 1000 * TruncDiv(u, 1000) <= u;
    assert u < 0 ==> u <= 1000 * TruncDiv(u, 1000) < u + 1000;
  }

  /** It does happen: after 1000.001 ms with a delay of 1001 ms. */
  lemma WriteCanBeEarly()
    ensures exists since: TimeVal, now: TimeVal ::
      && ValidTime(since) && ValidTime(now)
      && ElapsedMs(since, now) == 1001 && Micros(now) - Micros(since) == 1_000_001
  {
    var since, now := TimeVal(0, 999_999), TimeVal(2, 0);
    assert TruncDiv(0 - 999_999, 1000) == -999;
    assert ElapsedMs(since, now) == 1001 && Micros(now) - Micros(since) == 1_000_001;
  }

  /** The time an event looks at, if it looks at one. */
  predicate Timed(e: Event, t: TimeVal) {
    (e.SyncStep? || e.AutoSaveStep?) && e.now == t
  }

  /** Times do not go backwards along a run. */
  ghost predicate Monotone(es: seq<Event>) {
    && (forall i, t | 0 <= i < |es| && Timed(es[i], t) :: ValidTime(t))
    && (forall i, j, t, u | 0 <= i < j < |es| && Timed(es[i], t) && Timed(es[j], u) :: Micros(t) <= Micros(u))
  }

  /** The `j`-th event is a look at shared memory that finds a change. */
  predicate DetectsAt(s: Svc, es: seq<Event>, j: nat) {
    j < |es| && es[j].SyncStep? && Detects(At(s, es, j))
  }

  /** After a detected change the recorded time is never before it again. */
  lemma {:induction false} LastChangeHolds(s: Svc, es: seq<Event>, j: nat, k: nat)
    requires j < k <= |es| && DetectsAt(s, es, j) && Monotone(es)
    ensures ValidTime(At(s, es, k).lastChange)
    ensures Micros(At(s, es, k).lastChange) >= Micros(es[j].now)
  {
    var e := es[k - 1];
    if k - 1 > j {
      LastChangeHolds(s, es, j, k - 1);
      assert Timed(es[j], es[j].now);
    }
    if e.SyncStep? { assert Timed(e, e.now); }
    OnlySyncSetsTime(At(s, es, k - 1), e);
  }

  lemma OnlySyncSetsTime(s: Svc, e: Event)
    ensures !(e.SyncStep? && Detects(s)) ==> Next(s, e).lastChange == s.lastChange
  {
  }

  /** Over every run with non-decreasing times: an automatic write happens only when auto-save is on,
      the profile is dirty, and every change detected so far is more than `delay - 1` milliseconds old. */
  lemma WritesOnlyWhenQuiet(s: Svc, es: seq<Event>, j: nat, k: nat)
    requires j < k < |es| && Monotone(es) && DetectsAt(s, es, j)
    requires es[k].AutoSaveStep? && At(s, es, k + 1) != At(s, es, k)
    ensures var t := At(s, es, k);
      t.autoSave && t.dirty && Micros(es[k].now) - Micros(es[j].now) > 1000 * (t.delayMs - 1)
  {
    LastChangeHolds(s, es, j, k);
    assert Timed(es[k], es[k].now);
    ElapsedIsClose(At(s, es, k).lastChange, es[k].now);
  }

  /** If no change is detected after event `j`, the recorded time stays that of event `j`. */
  lemma {:induction false} LastChangeStays(s: Svc, es: seq<Event>, j: nat, k: nat)
    requires j < k <= |es| && DetectsAt(s, es, j)
    requires forall i | j < i < k :: !DetectsAt(s, es, i)
    ensures At(s, es, k).lastChange == es[j].now
  {
    if k - 1 > j {
      LastChangeStays(s, es, j, k - 1);
      assert !DetectsAt(s, es, k - 1);
      OnlySyncSetsTime(At(s, es, k - 1), es[k - 1]);
    }
  }

  /** Over every run: with event `j` the last detected change, a check at event `k` writes before the
      delay is over exactly when auto-save is on, the profile is dirty, the write works, the clock's
      microseconds are below those of the change and less than one millisecond is missing. */
  lemma WritesEarlyExactly(s: Svc, es: seq<Event>, j: nat, k: nat)
    requires j < k < |es| && Monotone(es) && es[k].AutoSaveStep?
    requires DetectsAt(s, es, j) && forall i | j < i < k :: !DetectsAt(s, es, i)
    ensures var t, passed := At(s, es, k), Micros(es[k].now) - Micros(es[j].now);
      At(s, es, k + 1) != t && passed < 1000 * t.delayMs <==>
      && t.autoSave && t.dirty && es[k].ok
      && es[k].now.usec < es[j].now.usec && 1000 * (t.delayMs - 1) < passed < 1000 * t.delayMs
  {
    var t := At(s, es, k);
    LastChangeStays(s, es, j, k);
    assert Timed(es[j], es[j].now) && Timed(es[k], es[k].now);
    EarlyExactly(t.lastChange, es[k].now, t.delayMs);
  }

  /** No event between `j` and `k` loads another profile. */
  predicate Undisturbed(es: seq<Event>, j: nat, k: nat)
    requires k <= |es|
  {
    forall i | j < i < k :: es[i].RequestStep? ==> es[i].req != 1 && es[i].req != 3
  }

  lemma OnlyLoadsChangeSlots(s: Svc, e: Event)
    requires e.RequestStep? ==> e.req != 1 && e.req != 3
    requires !(e.SyncStep? && Detects(s))
    ensures Next(s, e).profile.slots == s.profile.slots
  {
  }

  lemma DetectedIsShown(s: Svc, now: TimeVal, stamp: int)
    ensures Shows(s.shm, Sync(s, now, stamp).profile.slots)
  {
    SyncCopies(s, now, stamp);
  }

  /** As long as no sync finds a change and no profile is loaded, the profile is what shared memory held at event
      `j`. */
  lemma {:induction false} ProfileHoldsChange(s: Svc, es: seq<Event>, j: nat, k: nat)
    requires j < k <= |es| && DetectsAt(s, es, j) && Undisturbed(es, j, k)
    requires forall i | j < i < k :: !DetectsAt(s, es, i)
    ensures Shows(At(s, es, j).shm, At(s, es, k).profile.slots)
  {
    if k - 1 > j {
      ProfileHoldsChange(s, es, j, k - 1);
      assert !DetectsAt(s, es, k - 1);
      OnlyLoadsChangeSlots(At(s, es, k - 1), es[k - 1]);
    } else {
      DetectedIsShown(At(s, es, j), es[j].now, es[j].stamp);
    }
  }

  /** Once changes stop, the first check at least `delay` milliseconds after the last one leaves the
      active profile on disk, provided auto-save is on and the write works. */
  lemma QuietProfileIsWritten(s: Svc, es: seq<Event>, j: nat, k: nat)
    requires Inv(s) && Monotone(es) && j < k < |es| && forall i | 0 <= i < k :: Allowed(es[i])
    requires DetectsAt(s, es, j) && forall i | j < i < k :: !DetectsAt(s, es, i)
    requires es[k].AutoSaveStep? && es[k].ok && At(s, es, k).autoSave
    requires Micros(es[k].now) - Micros(es[j].now) >= 1000 * At(s, es, k).delayMs
    ensures At(s, es, k).dirty ==> Attempts(At(s, es, k), es[k].now)
    ensures var t := At(s, es, k + 1); !t.dirty && ReloadsAs(t.disk, t.activeName, t.profile.slots)
  {
    var t := At(s, es, k);
    LastChangeStays(s, es, j, k);
    assert Timed(es[j], es[j].now) && Timed(es[k], es[k].now);
    ElapsedIsClose(t.lastChange, es[k].now);
    RunKeepsInv(s, es, k);
    EventKeepsInv(t, es[k]);
  }

  /** And what is on disk then is what the clients had stored: with no profile loaded meanwhile, the file of the
      active profile reads back, whatever was in memory before, as shared memory at the last detected change. */
  lemma QuietChangeIsOnDisk(s: Svc, es: seq<Event>, j: nat, k: nat, prior: Profile)
    requires Inv(s) && Complete(s.disk) && Monotone(es) && j < k < |es| && forall i | 0 <= i <= k :: Allowed(es[i])
    requires DetectsAt(s, es, j) && Undisturbed(es, j, k) && forall i | j < i < k :: !DetectsAt(s, es, i)
    requires es[k].AutoSaveStep? && es[k].ok && At(s, es, k).autoSave
    requires Micros(es[k].now) - Micros(es[j].now) >= 1000 * At(s, es, k).delayMs
    ensures var t := At(s, es, k + 1);
      Loadable(t.disk, t.activeName) && Shows(At(s, es, j).shm, Load(t.disk[t.activeName], t.activeName, prior).slots)
  {
    QuietProfileIsWritten(s, es, j, k);
    ProfileHoldsChange(s, es, j, k);
    RunKeepsInv(s, es, k);
    RunKeepsComplete(s, es, k);
    WrittenIsOnDisk(At(s, es, k), es[k], At(s, es, j).shm, prior);
  }

  lemma WrittenIsOnDisk(s: Svc, e: Event, shm: Shm, prior: Profile)
    requires Inv(s) && Complete(s.disk) && Allowed(e) && e.AutoSaveStep? && !Next(s, e).dirty && Shows(shm, s.profile.slots)
    ensures var t := Next(s, e);
      Loadable(t.disk, t.activeName) && Shows(shm, Load(t.disk[t.activeName], t.activeName, prior).slots)
  {
    EventKeepsInv(s, e);
    EventKeepsComplete(s, e);
    OnlyLoadsChangeSlots(s, e);
    CleanProfileIsRecovered(Next(s, e), prior);
  }

  lemma {:induction false} RunKeepsComplete(s: Svc, es: seq<Event>, k: nat)
    requires Complete(s.disk) && k <= |es|
    ensures Complete(At(s, es, k).disk)
  {
    if k > 0 {
      RunKeepsComplete(s, es, k - 1);
      EventKeepsComplete(At(s, es, k - 1), es[k - 1]);
    }
  }
}
