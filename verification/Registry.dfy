/** The shared drone registry as a value: slots, free-index stack and derived counters.

    `Add`, `Update` and `Delete` change counters, slot and stack exactly as the three
    operations of the C registry do. A slot access outside the array, undefined behaviour in C,
    is totalised as "no effect"; reachable states never make one (`Accounting.SlotAccessInBounds`). */
module Registry {
  import opened Counting

  datatype Location = Undefined | Base | Mission

  datatype Reason = OutOfPower | Decommissioned | Suicide | Other

  /** One slot: the owning process and its published location. */
  datatype Slot = Slot(id: int, pid: int, loc: Location)

  datatype Reg = Reg(
    nextId: int,
    count: int,
    inBase: int,
    limit: int,
    reserving: int,
    lostSuicide: int,
    lostDecommissioned: int,
    lostPower: int,
    lostOther: int,
    slots: seq<Slot>,
    free: seq<int>)

  /** Places taken or promised in the base. */
  function Occupancy(r: Reg): int {
    r.inBase + r.reserving
  }

  function Lost(r: Reg): int {
    r.lostSuicide + r.lostDecommissioned + r.lostPower + r.lostOther
  }

  function LocAt(slots: seq<Slot>, i: int): Location {
    if 0 <= i < |slots| then slots[i].loc else Undefined
  }

  function SetSlot(slots: seq<Slot>, i: int, x: Slot): seq<Slot> {
    if 0 <= i < |slots| then slots[i := x] else slots
  }

  function SetLoc(slots: seq<Slot>, i: int, loc: Location): seq<Slot> {
    if 0 <= i < |slots| then slots[i := slots[i].(loc := loc)] else slots
  }

  /** Registers a drone in the slot on top of the free stack; -1 when the stack is empty. */
  function Add(r: Reg, x: Slot): (Reg, int) {
    if r.free == [] then (r, -1)
    else
      var i := r.free[|r.free| - 1];
      (r.(free := r.free[..|r.free| - 1],
          count := r.count + 1,
          inBase := r.inBase + One(x.loc == Base),
          slots := SetSlot(r.slots, i, x)), i)
  }

  /** Publishes a new location. The counters move by the OLD location alone. */
  function Update(r: Reg, i: int, loc: Location): Reg {
    var was := LocAt(r.slots, i);
    r.(inBase := r.inBase - One(was == Base) + One(was == Mission),
       reserving := r.reserving - One(was == Mission),
       slots := SetLoc(r.slots, i, loc))
  }

  /** Removes a drone and gives its index back; -1 when the free stack is already full. */
  function Delete(r: Reg, i: int, hasReserved: bool, reason: Reason): (Reg, int) {
    var full := |r.free| >= |r.slots|;
    (r.(count := r.count - 1,
        lostPower := r.lostPower + One(reason == OutOfPower),
        lostDecommissioned := r.lostDecommissioned + One(reason == Decommissioned),
        lostSuicide := r.lostSuicide + One(reason == Suicide),
        lostOther := r.lostOther + One(reason == Other),
        inBase := r.inBase - One(LocAt(r.slots, i) == Base),
        reserving := r.reserving - One(hasReserved),
        slots := SetLoc(r.slots, i, Undefined),
        free := if full then r.free else r.free + [i]),
     if full then -1 else i)
  }

  /** The pid in the first occupied slot at or after `i`; -1 when there is none. */
  function FirstPid(slots: seq<Slot>, i: nat): int
    decreases |slots| - i
  {
    if i >= |slots| then -1
    else if slots[i].loc != Undefined then slots[i].pid
    else FirstPid(slots, i + 1)
  }

  // ---- The representation invariant ----

  predicate Occupied(x: Slot) {
    x.loc != Undefined
  }

  predicate AtBase(x: Slot) {
    x.loc == Base
  }

  predicate Distinct(s: seq<int>) {
    forall i, j :: 0 <= i < j < |s| ==> s[i] != s[j]
  }

  /** The free stack lists each unoccupied slot exactly once. */
  ghost predicate FreeIsComplement(r: Reg) {
    && Distinct(r.free)
    && (forall x :: x in r.free ==> 0 <= x < |r.slots|)
    && (forall i :: 0 <= i < |r.slots| ==> (i in r.free <==> r.slots[i].loc == Undefined))
  }

  /** The cached counters agree with the slots. */
  ghost predicate CountersMatchSlots(r: Reg) {
    && r.count == Count(r.slots, Occupied)
    && r.inBase == Count(r.slots, AtBase)
    && |r.free| + r.count == |r.slots|
  }

  /** Ids handed out are accounted for by the drones present, the losses and the `refusals`. */
  ghost predicate IdsAccounted(r: Reg, refusals: int) {
    r.nextId - 1 == r.count + Lost(r) + refusals
  }

  ghost predicate Consistent(r: Reg) {
    FreeIsComplement(r) && CountersMatchSlots(r)
  }

  lemma AddConsistent(r: Reg, x: Slot)
    requires Consistent(r) && x.loc != Undefined
    ensures Consistent(Add(r, x).0)
    ensures var i := Add(r, x).1;
            if r.count == |r.slots| then i == -1 && Add(r, x).0 == r
            else 0 <= i < |r.slots| && r.slots[i].loc == Undefined && Add(r, x).0.slots == r.slots[i := x]
  {
    var (r1, i) := Add(r, x);
    if r.free != [] {
      assert r.free == r1.free + [i];
      assert i in r.free && forall k :: k in r1.free ==> k in r.free;
      CountUpdate(r.slots, i, x, Occupied);
      CountUpdate(r.slots, i, x, AtBase);
      forall k | 0 <= k < |r.slots| ensures k in r1.free <==> r1.slots[k].loc == Undefined {
        assert k in r.free <==> k in r1.free || k == i;
      }
    }
  }

  /** What adding does to the counters. */
  lemma AddCounters(r: Reg, x: Slot)
    ensures var (r', i) := Add(r, x);
            && r'.nextId == r.nextId && Lost(r') == Lost(r) && r'.limit == r.limit && r'.reserving == r.reserving
            && r'.lostPower == r.lostPower && r'.lostDecommissioned == r.lostDecommissioned
            && r'.lostSuicide == r.lostSuicide && r'.lostOther == r.lostOther
            && (r.free != [] ==> r'.count == r.count + 1 && r'.inBase == r.inBase + One(x.loc == Base))
            && (r.free == [] ==> r' == r && i == -1)
  {
  }

  lemma DeleteConsistent(r: Reg, i: int, hasReserved: bool, reason: Reason)
    requires Consistent(r) && 0 <= i < |r.slots| && r.slots[i].loc != Undefined
    ensures Consistent(Delete(r, i, hasReserved, reason).0)
    ensures Delete(r, i, hasReserved, reason).1 == i
    ensures Delete(r, i, hasReserved, reason).0.free == r.free + [i]
  {
    CountPositive(r.slots, Occupied, i);
    var x := r.slots[i].(loc := Undefined);
    CountUpdate(r.slots, i, x, Occupied);
    CountUpdate(r.slots, i, x, AtBase);
    assert i !in r.free;
  }

  /** An index given back is the next one given out. */
  lemma ReusedFirst(r: Reg, i: int, hasReserved: bool, reason: Reason, x: Slot)
    requires Consistent(r) && 0 <= i < |r.slots| && r.slots[i].loc != Undefined
    ensures Add(Delete(r, i, hasReserved, reason).0, x).1 == i
  {
    DeleteConsistent(r, i, hasReserved, reason);
    hide Consistent;
  }

  /** A location update keeps the base counter exact precisely when the new location is the base
      exactly if the old one was a mission. The counter change is chosen from the old location
      alone, so nothing in the operation itself ensures this. */
  lemma UpdateKeepsBaseCountIff(r: Reg, i: int, loc: Location)
    requires r.inBase == Count(r.slots, AtBase) && 0 <= i < |r.slots|
    ensures var r1 := Update(r, i, loc);
            r1.inBase == Count(r1.slots, AtBase)
            <==> (loc == Base <==> r.slots[i].loc == Mission)
  {
    CountUpdate(r.slots, i, r.slots[i].(loc := loc), AtBase);
  }

  lemma UpdateConsistent(r: Reg, i: int, loc: Location)
    requires Consistent(r) && 0 <= i < |r.slots|
    requires (r.slots[i].loc == Mission && loc == Base) || (r.slots[i].loc == Base && loc == Mission)
    ensures Consistent(Update(r, i, loc))
    ensures Update(r, i, loc).slots == r.slots[i := r.slots[i].(loc := loc)]
  {
    var x := r.slots[i].(loc := loc);
    CountUpdate(r.slots, i, x, Occupied);
    CountUpdate(r.slots, i, x, AtBase);
  }

  /** The pid search finds exactly the lowest occupied slot. */
  lemma {:induction false} FirstPidSpec(slots: seq<Slot>, i: nat) returns (k: nat)
    requires i <= |slots|
    ensures i <= k <= |slots|
    ensures forall j :: i <= j < k ==> slots[j].loc == Undefined
    ensures if k < |slots| then slots[k].loc != Undefined && FirstPid(slots, i) == slots[k].pid
            else FirstPid(slots, i) == -1
    decreases |slots| - i
  {
    if i >= |slots| || slots[i].loc != Undefined {
      k := i;
    } else {
      k := FirstPidSpec(slots, i + 1);
    }
  }

  /** The freshly created registry: every slot unoccupied, indices stacked with 0 on top. */
  function Initial(capacity: nat, limit: int): Reg {
    Reg(1, 0, 0, limit, 0, 0, 0, 0, 0,
        seq(capacity, i => Slot(0, 0, Undefined)),
        seq(capacity, i => capacity - 1 - i))
  }

  lemma InitialConsistent(capacity: nat, limit: int)
    ensures Consistent(Initial(capacity, limit))
  {
    var r := Initial(capacity, limit);
    CountZero(r.slots, Occupied);
    CountZero(r.slots, AtBase);
    forall i | 0 <= i < capacity ensures i in r.free {
      assert r.free[capacity - 1 - i] == i;
    }
  }
}
