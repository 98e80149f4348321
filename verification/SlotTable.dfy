/** The slot table in shared memory: the free-slot bitmap, the ghost eviction scan and the
    registration of a device, as the main thread runs them under `proc_mutex`. */
module SlotTable {
  import opened Records

  datatype Kind = DS4 | DualSense | NswPro

  /** The part of `controller_t` the lifecycle depends on. */
  datatype Slot = Slot(
    connected: bool,
    path: string,
    kind: Kind,
    workerStop: bool,
    heartbeat: nat,
    settings: Settings)

  const ZeroSlot := Slot(false, "", DS4, false, 0, ZeroSettings)

  const AllSlots: set<nat> := set i: nat | i < MAX_SLOTS

  // ----- specification ---------------------------------------------------------------------

  predicate Matches(s: Slot, path: string) {
    s.connected && s.path == path
  }

  datatype Scan = Scan(slots: seq<Slot>, free: set<nat>, served: bool)

  /** The anti-ghost loop from slot `i` on. `access[i]` is what `access(path)` answers if the loop
      asks at slot `i`; an accessible match ends the loop and keeps the evictions made before it. */
  function ScanFrom(slots: seq<Slot>, free: set<nat>, path: string, access: seq<bool>, i: nat): (r: Scan)
    requires |slots| == |access| && i <= |slots|
    ensures |r.slots| == |slots|
    decreases |slots| - i
  {
    if i == |slots| then Scan(slots, free, false)
    else if !Matches(slots[i], path) then ScanFrom(slots, free, path, access, i + 1)
    else if access[i] then Scan(slots, free, true)
    else ScanFrom(slots[i := slots[i].(connected := false)], free + {i}, path, access, i + 1)
  }

  predicate Accessible(slots: seq<Slot>, path: string, access: seq<bool>, i: int)
    requires |slots| == |access|
  {
    0 <= i < |slots| && Matches(slots[i], path) && access[i]
  }

  /** The slots from `i` on that have the path and come before the first accessible one. */
  ghost function Ghosts(slots: seq<Slot>, path: string, access: seq<bool>, i: nat): set<nat>
    requires |slots| == |access|
  {
    set j: nat | i <= j < |slots| && Matches(slots[j], path)
              && forall l | i <= l <= j :: !Accessible(slots, path, access, l)
  }

  lemma GhostsStep(slots: seq<Slot>, path: string, access: seq<bool>, i: nat)
    requires |slots| == |access| && i < |slots|
    ensures Ghosts(slots, path, access, i)
         == if !Matches(slots[i], path) then Ghosts(slots, path, access, i + 1)
            else if access[i] then {}
            else {i} + Ghosts(slots[i := slots[i].(connected := false)], path, access, i + 1)
  {
    if Matches(slots[i], path) {
      if access[i] {
        assert Accessible(slots, path, access, i);
      } else {
        var slots1 := slots[i := slots[i].(connected := false)];
        forall l | l > i ensures Accessible(slots1, path, access, l) == Accessible(slots, path, access, l) {}
      }
    }
  }

  /** What the loop does, without the loop: it is cut short exactly when some connected slot has the
      path and is still accessible; it disconnects and frees exactly the ghosts before that one, and
      touches nothing else; when it runs to the end no connected slot has the path any more. */
  lemma {:induction false} ScanMeaning(slots: seq<Slot>, free: set<nat>, path: string, access: seq<bool>, i: nat)
    requires |slots| == |access| && i <= |slots|
    ensures var r, g := ScanFrom(slots, free, path, access, i), Ghosts(slots, path, access, i);
      && (r.served <==> exists j :: i <= j && Accessible(slots, path, access, j))
      && r.free == free + g
      && (forall j | 0 <= j < |slots| ::
            r.slots[j] == if j in g then slots[j].(connected := false) else slots[j])
      && (!r.served ==> forall j | i <= j < |slots| :: !Matches(r.slots[j], path))
    decreases |slots| - i
  {
    if i < |slots| {
      GhostsStep(slots, path, access, i);
      if !Matches(slots[i], path) {
        ScanMeaning(slots, free, path, access, i + 1);
      } else if access[i] {
        assert Accessible(slots, path, access, i);
      } else {
        var slots1 := slots[i := slots[i].(connected := false)];
        ScanMeaning(slots1, free + {i}, path, access, i + 1);
        forall j | j > i ensures Accessible(slots1, path, access, j) == Accessible(slots, path, access, j) {}
      }
    }
  }

  /** The slot record after registration: everything zeroed, then the identity filled in and the
      saved settings restored. */
  function Registered(s: Slot, path: string, kind: Kind): Slot {
    Slot(true, path, kind, false, 0, Restore(Save(s.settings)))
  }

  /** Registration keeps the slot's persistent configuration. */
  lemma RegisteredKeepsConfig(s: Slot, path: string, kind: Kind)
    ensures Save(Registered(s, path, kind).settings) == Save(s.settings)
  {
    SaveRestore(Save(s.settings));
  }

  // ----- the table in shared memory ---------------------------------------------------------

  function Bit(i: nat): bv8
    requires i < MAX_SLOTS
  {
    (1 as bv8) << i
  }

  lemma BitOps(b: bv8, i: nat, j: nat)
    requires i < MAX_SLOTS && j < MAX_SLOTS
    ensures (b & !Bit(i)) & Bit(j) != 0 <==> b & Bit(j) != 0 && i != j
    ensures (b | Bit(i)) & Bit(j) != 0 <==> b & Bit(j) != 0 || i == j
  {
    assert i == 0 || i == 1 || i == 2 || i == 3;
    assert j == 0 || j == 1 || j == 2 || j == 3;
    assert Bit(0) == 1 && Bit(1) == 2 && Bit(2) == 4 && Bit(3) == 8;
  }

  class SharedSlots {
    var freeSlotsBitmap: bv8
    var slots: array<Slot>

    ghost predicate Valid()
      reads this
    {
      slots.Length == MAX_SLOTS
    }

    ghost function Free(): set<nat>
      reads this
    {
      set i: nat | i < MAX_SLOTS && freeSlotsBitmap & Bit(i) != 0
    }

    /** `run_daemon_loop` starts with every slot free. */
    constructor ()
      ensures Valid() && fresh(slots)
      ensures Free() == AllSlots
    {
      freeSlotsBitmap := 0xFF;
      slots := new Slot[MAX_SLOTS](_ => ZeroSlot);
      new;
      assert forall i: nat | i < MAX_SLOTS :: freeSlotsBitmap & Bit(i) != 0 by {
        assert Bit(0) == 1 && Bit(1) == 2 && Bit(2) == 4 && Bit(3) == 8;
      }
    }

    method FindFreeSlot() returns (slot: int)
      requires Valid()
      ensures slot == -1 <==> Free() == {}
      ensures slot != -1 ==> slot in Free() && forall j | j in Free() :: slot <= j
    {
      var i := 0;
      while i < MAX_SLOTS
        invariant 0 <= i <= MAX_SLOTS
        invariant forall j | j in Free() :: i <= j
      {
        if freeSlotsBitmap & Bit(i) != 0 {
          assert i in Free();
          return i;
        }
        i := i + 1;
      }
      slot := -1;
    }

    method MarkSlotBusy(slot: int)
      modifies this`freeSlotsBitmap
      ensures Free() == old(Free()) - {slot}
    {
      if 0 <= slot < MAX_SLOTS {
        forall j: nat | j < MAX_SLOTS { BitOps(freeSlotsBitmap, slot, j); }
        freeSlotsBitmap := freeSlotsBitmap & !Bit(slot);
      }
    }

    method MarkSlotFree(slot: int)
      modifies this`freeSlotsBitmap
      ensures Free() == old(Free()) + if 0 <= slot < MAX_SLOTS then {slot} else {}
    {
      if 0 <= slot < MAX_SLOTS {
        forall j: nat | j < MAX_SLOTS { BitOps(freeSlotsBitmap, slot, j); }
        freeSlotsBitmap := freeSlotsBitmap | Bit(slot);
      }
    }

    /** Evicts every connected slot that has the path of a vanished device; answers true when the
        path is already served by a live one. */
    method EvictGhosts(path: string, access: seq<bool>) returns (served: bool)
      requires Valid() && |access| == MAX_SLOTS
      modifies this`freeSlotsBitmap, slots
      ensures Scan(slots[..], Free(), served) == ScanFrom(old(slots[..]), old(Free()), path, access, 0)
    {
      var i := 0;
      while i < MAX_SLOTS
        invariant 0 <= i <= MAX_SLOTS
        invariant ScanFrom(slots[..], Free(), path, access, i)
               == ScanFrom(old(slots[..]), old(Free()), path, access, 0)
      {
        assert slots[..][i] == slots[i];
        if slots[i].connected && slots[i].path == path {
          if access[i] {
            return true;
          }
          ghost var before := slots[..];
          slots[i] := slots[i].(connected := false);
          assert slots[..] == before[i := before[i].(connected := false)];
          MarkSlotFree(i);
        }
        i := i + 1;
      }
      served := false;
    }

    /** The critical section that hands a free slot to a device: save, zero, fill, restore, mark busy. */
    method Register(k: nat, path: string, kind: Kind)
      requires Valid() && k < MAX_SLOTS
      modifies this`freeSlotsBitmap, slots
      ensures slots[..] == old(slots[..])[k := Registered(old(slots[k]), path, kind)]
      ensures Free() == old(Free()) - {k}
      ensures forall i | 0 <= i < MAX_SLOTS :: Save(slots[i].settings) == old(Save(slots[i].settings))
    {
      RegisteredKeepsConfig(slots[k], path, kind);
      var saved := Save(slots[k].settings);
      slots[k] := ZeroSlot;
      slots[k] := slots[k].(path := path, kind := kind, connected := true);
      slots[k] := slots[k].(settings := Restore(saved));
      slots[k] := slots[k].(heartbeat := 0, workerStop := false);
      MarkSlotBusy(k);
    }

    /** The exit section of a worker that reached its loop. */
    method WorkerExit(idx: nat)
      requires Valid() && idx < MAX_SLOTS
      modifies this`freeSlotsBitmap, slots
      ensures slots[..] == old(slots[..])[idx := old(slots[idx]).(connected := false, path := "")]
      ensures Free() == old(Free()) + {idx}
    {
      slots[idx] := slots[idx].(connected := false);
      slots[idx] := slots[idx].(path := "");
      MarkSlotFree(idx);
    }
  }
}
