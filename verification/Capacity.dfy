/** How many drones the base holds or has promised a place to, over whole runs. */
module Capacity {
  import opened Counting
  import opened Limit
  import opened Registry
  import opened Drones
  import opened Swarm
  import opened Invariant
  import opened Preservation

  // ---- Occupancy grows only below the limit ----

  /** The step by which drone `d` can take a new place: a fresh reservation, or registering a
      drone that starts in the base. */
  predicate TakesPlace(d: Drone) {
    (d.pc == Body(Reserve) && !d.reserved) || (d.pc == Body(Register) && d.start == Base)
  }

  lemma DroneTakesPlace(c: Config, sh: Shared, p: int, d: Drone)
    requires LocalInv(c, d) && Link(sh.reg.slots, p, d) && !TakesPlace(d)
    ensures Occupancy(StepDrone(sh, p, d).0.reg) <= Occupancy(sh.reg)
  {
  }

  /** One action raises occupancy only if it is below the current limit, by one place, through
      one of the two place-taking steps, and without moving the limit. */
  lemma GrowthOnlyBelowLimit(c: Config, s: State, a: Action)
    requires ValidConfig(c) && Inv(c, s)
    requires Occupancy(Apply(c, s, a).sh.reg) > Occupancy(s.sh.reg)
    ensures Occupancy(s.sh.reg) < s.sh.reg.limit == Apply(c, s, a).sh.reg.limit
    ensures Occupancy(Apply(c, s, a).sh.reg) == Occupancy(s.sh.reg) + 1
    ensures a.DroneAct? && a.p < |s.ds| && TakesPlace(s.ds[a.p])
  {
    if a.DroneAct? {
      InvBefore(c, s, a.p);
      hide Inv, LocalInv, Consistent, TakesPlace, StepDrone;
      DroneEffect(c, s.sh, a.p, s.ds[a.p]);
      if !TakesPlace(s.ds[a.p]) { DroneTakesPlace(c, s.sh, a.p, s.ds[a.p]); }
    } else {
      hide Inv;
    }
  }

  /** Publishing an entry turns a reservation into a place; publishing a departure frees one. */
  lemma PublishMovesPlaces(c: Config, s: State, p: nat)
    requires Reachable(c, s) && p < |s.ds| && s.ds[p].pc.Body? && s.ds[p].pc.sec.Publish?
    ensures var r := s.sh.reg;
            var r' := Apply(c, s, DroneAct(p)).sh.reg;
            match s.ds[p].pc.sec.dir
            case In => r'.inBase == r.inBase + 1 && r'.reserving == r.reserving - 1
            case Out => r'.inBase == r.inBase - 1 && r'.reserving == r.reserving
  {
    Safety(c, s);
    assert LocalInv(c, s.ds[p]) && Link(s.sh.reg.slots, p, s.ds[p]);
  }

  /** While occupancy is at or above the limit, for instance after a halving, it never grows,
      however many unregistered drones race for a place. */
  lemma {:induction false} NoGrowthWhileFull(c: Config, s: State, sched: seq<Action>)
    requires Reachable(c, s)
    requires forall k :: 0 <= k < |sched| ==>
               var r := Exec(c, s, sched[..k]).sh.reg; Occupancy(r) >= r.limit
    ensures Occupancy(Exec(c, s, sched).sh.reg) <= Occupancy(s.sh.reg)
  {
    if sched != [] {
      var n := |sched| - 1;
      forall k | 0 <= k < n
        ensures var r := Exec(c, s, sched[..n][..k]).sh.reg; Occupancy(r) >= r.limit
      {
        assert sched[..n][..k] == sched[..k];
      }
      NoGrowthWhileFull(c, s, sched[..n]);
      var t := Exec(c, s, sched[..n]);
      assert Occupancy(t.sh.reg) >= t.sh.reg.limit;
      assert Inv(c, t) by {
        Safety(c, s);
        ExecKeepsInv(c, s, sched[..n]);
      }
      hide Inv, Apply, Reachable;
      if Occupancy(Apply(c, t, sched[n]).sh.reg) > Occupancy(t.sh.reg) {
        GrowthOnlyBelowLimit(c, t, sched[n]);
      }
    }
  }

  /** Over any schedule occupancy never exceeds both what it was and the highest limit seen. */
  lemma {:induction false} OccupancyBelowPeak(c: Config, s: State, sched: seq<Action>, peak: int)
    requires Reachable(c, s)
    requires forall k :: 0 <= k < |sched| ==> Exec(c, s, sched[..k]).sh.reg.limit <= peak
    ensures Occupancy(Exec(c, s, sched).sh.reg) <= Occupancy(s.sh.reg)
            || Occupancy(Exec(c, s, sched).sh.reg) <= peak
  {
    if sched != [] {
      var n := |sched| - 1;
      forall k | 0 <= k < n ensures Exec(c, s, sched[..n][..k]).sh.reg.limit <= peak {
        assert sched[..n][..k] == sched[..k];
      }
      OccupancyBelowPeak(c, s, sched[..n], peak);
      var t := Exec(c, s, sched[..n]);
      assert t.sh.reg.limit <= peak;
      assert Inv(c, t) by {
        Safety(c, s);
        ExecKeepsInv(c, s, sched[..n]);
      }
      hide Inv, Apply, Reachable;
      if Occupancy(Apply(c, t, sched[n]).sh.reg) > Occupancy(t.sh.reg) {
        GrowthOnlyBelowLimit(c, t, sched[n]);
      }
    }
  }

  // ---- Bounds ----

  /** The limit stays below 2N and so does occupancy; the report's over-capacity warning cannot
      appear. */
  lemma CapacityRespected(c: Config, s: State)
    requires Reachable(c, s)
    ensures s.sh.reg.limit <= 2 * c.n - 1
    ensures 0 <= s.sh.reg.inBase && 0 <= s.sh.reg.reserving
    ensures Occupancy(s.sh.reg) < 2 * c.n <= c.capacity
    ensures s.sh.reg.inBase <= |s.sh.reg.slots|
  {
    hide LocalInv, SlotInv, IdInv, FreeIsComplement;
    Safety(c, s);
  }

  /** No decrease processed yet: occupancy within a non-negative limit. */
  ghost predicate WithinLimit(s: State) {
    s.decs == 0 ==> 0 <= s.sh.reg.limit && Occupancy(s.sh.reg) <= s.sh.reg.limit
  }

  lemma LimitMoves(c: Config, s: State, a: Action)
    ensures var s' := Apply(c, s, a);
            || (s'.sh.reg.limit == s.sh.reg.limit && s'.incs == s.incs && s'.decs == s.decs)
            || (a == OpAct && s.op.pc == OBody(Increase)
                && s'.sh.reg == s.sh.reg.(limit := Doubled(s.sh.reg.limit, c.n))
                && s'.incs == s.incs + 1 && s'.decs == s.decs)
            || (a == OpAct && s.op.pc == OBody(Decrease)
                && s'.sh.reg == s.sh.reg.(limit := Halved(s.sh.reg.limit))
                && s'.incs == s.incs && s'.decs == s.decs + 1)
  {
    match a
    case DroneAct(p) => if p < |s.ds| { DroneKeepsLimit(s.sh, p, s.ds[p]); }
    case _ =>
  }

  lemma DroneKeepsLimit(sh: Shared, p: int, d: Drone)
    ensures StepDrone(sh, p, d).0.reg.limit == sh.reg.limit
  {
  }

  lemma {:induction false} WithinLimitRun(c: Config, sched: seq<Action>)
    requires ValidConfig(c) && c.n >= 2
    ensures WithinLimit(Run(c, sched))
  {
    if sched != [] {
      var n := |sched| - 1;
      WithinLimitRun(c, sched[..n]);
      var s := Run(c, sched[..n]);
      var s' := Apply(c, s, sched[n]);
      assert s' == Run(c, sched);
      InitInv(c);
      ExecKeepsInv(c, Init(c), sched[..n]);
      LimitMoves(c, s, sched[n]);
      assert s.sh.reg.limit <= 2 * c.n - 1;
      hide SwarmInv, Apply, Run;
      if Occupancy(s'.sh.reg) > Occupancy(s.sh.reg) { GrowthOnlyBelowLimit(c, s, sched[n]); }
    }
  }

  /** As long as no decrease has been processed occupancy stays within the limit, exactly when at
      least two drones are configured: with one, the limit starts at -1. */
  lemma WithinLimitIff(c: Config)
    requires ValidConfig(c)
    ensures (forall sched :: Run(c, sched).decs == 0 ==>
               Occupancy(Run(c, sched).sh.reg) <= Run(c, sched).sh.reg.limit) <==> c.n >= 2
  {
    if c.n >= 2 {
      forall sched ensures WithinLimit(Run(c, sched)) { WithinLimitRun(c, sched); }
    } else {
      assert Run(c, []) == Init(c);
    }
  }

  // ---- Physical presence ----

  /** Drones physically inside never outnumber places taken plus places promised, even between
      passing the gate and publishing it. */
  lemma PhysicalOccupancy(c: Config, s: State)
    requires Reachable(c, s)
    ensures |Positions(s.ds, PhysicallyInside)| <= Occupancy(s.sh.reg)
    ensures |Positions(s.ds, PhysicallyInside)| < 2 * c.n
  {
    hide SlotInv, IdInv, Consistent;
    Safety(c, s);
    forall p | 0 <= p < |s.ds|
      ensures One(PhysicallyInside(s.ds[p])) <= One(InBaseSlot(s.ds[p])) + One(HoldsReservation(s.ds[p]))
    {
      InsideIsCounted(c, s.ds[p]);
    }
    CountDominated(s.ds, PhysicallyInside, InBaseSlot, HoldsReservation);
    CountIsCardinality(s.ds, PhysicallyInside);
  }

  lemma InsideIsCounted(c: Config, d: Drone)
    requires LocalInv(c, d)
    ensures One(PhysicallyInside(d)) <= One(InBaseSlot(d)) + One(HoldsReservation(d))
    ensures One(InBaseSlot(d)) + One(HoldsReservation(d)) <= One(Registered(d))
  {
  }

  // ---- Reservations ----

  /** A drone with an unconsumed reservation flies a mission in its slot, needs a charge and may
      still take one; only running out of power can remove it. */
  lemma ReservationHolder(c: Config, s: State, p: nat)
    requires Reachable(c, s) && p < |s.ds| && HoldsReservation(s.ds[p])
    ensures var d := s.ds[p];
            && 0 <= d.index < |s.sh.reg.slots| && s.sh.reg.slots[d.index] == Slot(0, p, Mission)
            && d.battery < 20 && d.cycles >= 1
            && (forall r :: d.pc == Lock(Remove(r)) || d.pc == Body(Remove(r)) ==> r == OutOfPower)
  {
    hide IdInv, CountInv, Consistent;
    Safety(c, s);
    assert LocalInv(c, s.ds[p]) && Link(s.sh.reg.slots, p, s.ds[p]);
  }

  /** A drone takes at most one place, so occupancy never exceeds the drones registered. */
  lemma OccupancyWithinCount(c: Config, s: State)
    requires Reachable(c, s)
    ensures Occupancy(s.sh.reg) <= s.sh.reg.count
  {
    hide SlotInv, IdInv, Consistent;
    Safety(c, s);
    forall p | 0 <= p < |s.ds|
      ensures One(InBaseSlot(s.ds[p])) + One(HoldsReservation(s.ds[p])) <= One(Registered(s.ds[p]))
    {
      InsideIsCounted(c, s.ds[p]);
    }
    CountBelow(s.ds, InBaseSlot, HoldsReservation, Registered);
  }
}
