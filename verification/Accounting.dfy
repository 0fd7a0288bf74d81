/** What the shared counters, slots, free stack and ids mean in every reachable state. */
module Accounting {
  import opened Counting
  import opened Registry
  import opened Drones
  import opened Swarm
  import opened Invariant
  import opened Preservation
  import opened Progress

  /** The three cached counters are exact: slots at base, occupied slots, and processes (shut-down
      ones included) holding a reservation that no published entry has consumed. */
  lemma CountersExact(c: Config, s: State)
    requires Reachable(c, s)
    ensures s.sh.reg.inBase == Count(s.sh.reg.slots, AtBase) == |Positions(s.ds, InBaseSlot)|
    ensures s.sh.reg.count == Count(s.sh.reg.slots, Occupied) == |Positions(s.ds, Registered)|
    ensures s.sh.reg.reserving == |Positions(s.ds, HoldsReservation)|
  {
    hide LocalInv, SlotInv, IdInv, FreeIsComplement;
    Safety(c, s);
    CountIsCardinality(s.ds, HoldsReservation);
    CountIsCardinality(s.ds, Registered);
    CountIsCardinality(s.ds, InBaseSlot);
  }

  /** Both "reserve space is negative" branches are dead, whatever is interleaved. */
  lemma ReservingNeverNegative(c: Config, s: State, p: nat)
    requires Reachable(c, s) && p < |s.ds| && s.ds[p].pc.Body?
    ensures var d := s.ds[p];
            && (d.pc.sec.Publish? ==> Update(s.sh.reg, d.index, Side(d.pc.sec.dir)).reserving >= 0)
            && (d.pc.sec.Remove? ==> Delete(s.sh.reg, d.index, d.reserved, d.pc.sec.reason).0.reserving >= 0)
  {
    Safety(c, s);
    assert Link(s.sh.reg.slots, p, s.ds[p]);
    if HoldsReservation(s.ds[p]) { CountPositive(s.ds, HoldsReservation, p); }
  }

  /** No critical section touches memory outside the slot array, a drone only ever touches its own
      slot or a free one, and giving an index back never finds the stack full. */
  lemma SlotAccessInBounds(c: Config, s: State, p: nat)
    requires Reachable(c, s) && p < |s.ds| && s.ds[p].pc.Body?
    ensures var d := s.ds[p];
            var r := s.sh.reg;
            |r.slots| == c.capacity
            && match d.pc.sec
               case Register =>
                 var i := Add(r, Slot(d.id, p, d.start)).1;
                 i == -1 || (0 <= i < |r.slots| && r.slots[i].loc == Undefined)
               case Remove(reason) =>
                 && 0 <= d.index < |r.slots| && r.slots[d.index].pid == p
                 && Delete(r, d.index, d.reserved, reason).1 == d.index
               case Publish(_) => 0 <= d.index < |r.slots| && r.slots[d.index].pid == p
               case Reserve => true
  {
    Safety(c, s);
    var d := s.ds[p];
    assert Link(s.sh.reg.slots, p, d);
    match d.pc.sec
    case Register => AddConsistent(s.sh.reg, Slot(d.id, p, d.start));
    case Remove(reason) => DeleteConsistent(s.sh.reg, d.index, d.reserved, reason);
    case _ =>
  }

  /** Every index is either on the free stack exactly once or owned by exactly one registered
      drone, never both. */
  lemma IndicesPartitioned(c: Config, s: State, i: int)
    requires Reachable(c, s) && 0 <= i < c.capacity
    ensures |s.sh.reg.slots| == c.capacity
    ensures Distinct(s.sh.reg.free) && forall x :: x in s.sh.reg.free ==> 0 <= x < c.capacity
    ensures s.sh.reg.slots[i].id == 0
    ensures Positions(s.ds, (d: Drone) => Registered(d) && d.index == i)
            == if i in s.sh.reg.free then {} else {s.sh.reg.slots[i].pid}
  {
    hide CountInv, IdInv;
    Safety(c, s);
    var r := s.sh.reg;
    assert Owned(r.slots, s.ds, i);
    forall q | 0 <= q < |s.ds| && Registered(s.ds[q]) && s.ds[q].index == i
      ensures q == r.slots[i].pid && r.slots[i].loc != Undefined
    {
      assert Link(r.slots, q, s.ds[q]) && LocalInv(c, s.ds[q]);
    }
  }

  /** Ids handed out are accounted for, each loss counter counts the drones removed for its
      reason, nothing is lost for another reason, and no two processes share an id. */
  lemma IdsAndLosses(c: Config, s: State)
    requires Reachable(c, s)
    ensures s.sh.reg.nextId - 1 == s.sh.reg.count + Lost(s.sh.reg) + s.sh.refusals
    ensures s.sh.reg.lostPower == |Positions(s.ds, LostPower)|
    ensures s.sh.reg.lostDecommissioned == |Positions(s.ds, LostDecommissioned)|
    ensures s.sh.reg.lostSuicide == |Positions(s.ds, LostSuicide)|
    ensures s.sh.reg.lostOther == 0
    ensures forall p, q :: 0 <= p < q < |s.ds| && s.ds[p].id > 0 && s.ds[q].id > 0 ==> s.ds[p].id != s.ds[q].id
  {
    hide LocalInv, SlotInv, Consistent;
    Safety(c, s);
    CountIsCardinality(s.ds, LostPower);
    CountIsCardinality(s.ds, LostDecommissioned);
    CountIsCardinality(s.ds, LostSuicide);
  }

  /** The drone was given a slot at some time. */
  predicate Admitted(d: Drone) {
    d.index >= 0
  }

  predicate LostByChoice(d: Drone) {
    LostDecommissioned(d) || LostSuicide(d)
  }

  predicate LostAny(d: Drone) {
    LostPower(d) || LostByChoice(d)
  }

  lemma AdmittedSplits(c: Config, d: Drone)
    requires LocalInv(c, d)
    ensures One(Admitted(d)) == One(Registered(d)) + One(LostAny(d))
  {
  }

  lemma LostSplits(d: Drone)
    ensures One(LostAny(d)) == One(LostPower(d)) + One(LostByChoice(d))
    ensures One(LostByChoice(d)) == One(LostDecommissioned(d)) + One(LostSuicide(d))
  {
  }

  lemma CountAdmitted(c: Config, ds: seq<Drone>)
    requires forall p :: 0 <= p < |ds| ==> LocalInv(c, ds[p])
    ensures Count(ds, Admitted)
            == Count(ds, Registered) + Count(ds, LostPower) + Count(ds, LostDecommissioned) + Count(ds, LostSuicide)
  {
    hide LocalInv, LostAny, LostByChoice, LostPower, LostDecommissioned, LostSuicide, Registered, Admitted;
    forall p | 0 <= p < |ds|
      ensures One(Admitted(ds[p])) == One(Registered(ds[p])) + One(LostAny(ds[p]))
    {
      AdmittedSplits(c, ds[p]);
    }
    forall p | 0 <= p < |ds|
      ensures One(LostAny(ds[p])) == One(LostPower(ds[p])) + One(LostByChoice(ds[p]))
      ensures One(LostByChoice(ds[p])) == One(LostDecommissioned(ds[p])) + One(LostSuicide(ds[p]))
    {
      LostSplits(ds[p]);
    }
    CountSplit(ds, Admitted, Registered, LostAny);
    CountSplit(ds, LostAny, LostPower, LostByChoice);
    CountSplit(ds, LostByChoice, LostDecommissioned, LostSuicide);
  }

  /** Conservation: every admitted drone is still registered or was counted as a loss. */
  lemma AdmissionsConserved(c: Config, s: State)
    requires Reachable(c, s)
    ensures |Positions(s.ds, Admitted)| == s.sh.reg.count + Lost(s.sh.reg)
  {
    hide LocalInv, SlotInv, IdInv, Consistent;
    Safety(c, s);
    CountAdmitted(c, s.ds);
    CountIsCardinality(s.ds, Admitted);
  }

  /** A registered drone that has exited was shut down and left its slot behind. */
  predicate Leaked(d: Drone) {
    d.pc == Exited(ShutDown)
  }

  // ---- The order in which indices are given out ----

  /** As long as nothing was lost the free stack is what start-up left, less what was taken. */
  ghost predicate TakenInOrder(r: Reg) {
    Lost(r) == 0 ==> forall k :: 0 <= k < |r.free| ==> r.free[k] == |r.slots| - 1 - k
  }

  lemma BodyInOrder(sh: Shared, p: int, d: Drone, sec: Sec)
    requires d.pc == Body(sec) && TakenInOrder(sh.reg) && Lost(sh.reg) >= 0
    ensures TakenInOrder(SectionBody(sh, p, d, sec).0.reg)
  {
    if sec.Register? {
      RegisterOutcome(sh, p, d);
      hide RegisterBody, Occupancy;
    }
  }

  lemma ActionInOrder(c: Config, s: State, a: Action)
    requires Inv(c, s) && TakenInOrder(s.sh.reg)
    ensures TakenInOrder(Apply(c, s, a).sh.reg)
  {
    assert Lost(s.sh.reg) >= 0 by { hide LocalInv, SlotInv, IdInv, Consistent; }
    hide Inv;
    match a
    case DroneAct(p) =>
      if p < |s.ds| && s.ds[p].pc.Body? {
        BodyInOrder(s.sh, p, s.ds[p], s.ds[p].pc.sec);
        hide SectionBody, TakenInOrder;
      } else if p < |s.ds| {
        OutsideBodyKeepsRegistry(s.sh, p, s.ds[p]);
        hide StepDrone, TakenInOrder;
      }
    case _ =>
  }

  lemma {:induction false} OrderRun(c: Config, sched: seq<Action>)
    requires ValidConfig(c)
    ensures TakenInOrder(Run(c, sched).sh.reg)
  {
    if sched != [] {
      var n := |sched| - 1;
      hide Inv, Reachable, Apply, TakenInOrder;
      OrderRun(c, sched[..n]);
      ReachableRun(c, sched[..n]);
      Safety(c, Run(c, sched[..n]));
      ActionInOrder(c, Run(c, sched[..n]), sched[n]);
    }
  }

  /** Slots are filled from index 0 upwards: until a drone is lost the occupied slots are exactly
      those below the number of drones. */
  lemma FilledFromZero(c: Config, s: State)
    requires Reachable(c, s) && Lost(s.sh.reg) == 0
    ensures |s.sh.reg.slots| == c.capacity
    ensures forall i :: 0 <= i < |s.sh.reg.slots| ==> (s.sh.reg.slots[i].loc != Undefined <==> i < s.sh.reg.count)
  {
    Safety(c, s);
    var sched :| Exec(c, Init(c), sched) == s;
    OrderRun(c, sched);
    hide SlotInv, IdInv, CountInv, LocalInv, Exec, Reachable;
    var r := s.sh.reg;
    forall i | 0 <= i < c.capacity ensures r.slots[i].loc != Undefined <==> i < r.count {
      if i >= r.count { assert r.free[c.capacity - 1 - i] == i; }
    }
  }
}
