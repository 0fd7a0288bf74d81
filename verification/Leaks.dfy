/** What a drone that is shut down keeps for ever: its slot, its place and its reservation. */
module Leaks {
  import opened Counting
  import opened Limit
  import opened Registry
  import opened Drones
  import opened Swarm
  import opened Invariant
  import opened Preservation
  import opened Accounting
  import opened Decisions
  import opened Closedown
  import opened Staging

  /** Shut down on the way to the base. */
  predicate LeakedReservation(d: Drone) {
    Leaked(d) && d.reserved
  }

  /** Shut down in the base. */
  predicate LeakedPlace(d: Drone) {
    Leaked(d) && d.loc == Base
  }

  lemma ExitedIsLeaked(c: Config, d: Drone)
    requires LocalInv(c, d) && d.pc.Exited?
    ensures Registered(d) == Leaked(d) && !HoldsToken(d)
    ensures InBaseSlot(d) == LeakedPlace(d) && HoldsReservation(d) == LeakedReservation(d)
  {
  }

  /** Once every drone process has exited, the registry holds exactly what shut-down drones left
      behind, in each of its counters, and both gate tokens are back. */
  lemma QuiescentLeaks(c: Config, s: State)
    requires Reachable(c, s)
    requires forall p :: 0 <= p < |s.ds| ==> s.ds[p].pc.Exited?
    ensures s.sh.reg.count == |Positions(s.ds, Leaked)|
    ensures s.sh.reg.inBase == |Positions(s.ds, LeakedPlace)|
    ensures s.sh.reg.reserving == |Positions(s.ds, LeakedReservation)|
    ensures Lost(s.sh.reg) == |Positions(s.ds, Admitted)| - |Positions(s.ds, Leaked)|
    ensures s.sh.tokens == 2
  {
    AdmissionsConserved(c, s);
    hide SlotInv, IdInv, Consistent, LocalInv;
    Safety(c, s);
    hide Reachable, Registered, Leaked, LeakedPlace, LeakedReservation, InBaseSlot, HoldsReservation, HoldsToken;
    forall p | 0 <= p < |s.ds|
      ensures Registered(s.ds[p]) == Leaked(s.ds[p]) && !HoldsToken(s.ds[p])
      ensures InBaseSlot(s.ds[p]) == LeakedPlace(s.ds[p]) && HoldsReservation(s.ds[p]) == LeakedReservation(s.ds[p])
    {
      ExitedIsLeaked(c, s.ds[p]);
    }
    CountSame(s.ds, Registered, Leaked);
    CountSame(s.ds, InBaseSlot, LeakedPlace);
    CountSame(s.ds, HoldsReservation, LeakedReservation);
    CountZero(s.ds, HoldsToken);
    CountIsCardinality(s.ds, Leaked);
    CountIsCardinality(s.ds, LeakedPlace);
    CountIsCardinality(s.ds, LeakedReservation);
  }

  /** The registry as after start-up: empty, with every index free. */
  ghost predicate Restored(r: Reg) {
    && r.count == 0 && r.inBase == 0 && r.reserving == 0
    && |r.free| == |r.slots| && Distinct(r.free)
    && forall i :: 0 <= i < |r.slots| ==> i in r.free
  }

  /** Once every drone process has exited, the registry is back to its initial shape exactly when
      none of them ended by shutdown. */
  lemma QuiescentRegistry(c: Config, s: State)
    requires Reachable(c, s)
    requires forall p :: 0 <= p < |s.ds| ==> s.ds[p].pc.Exited?
    ensures Restored(s.sh.reg) <==> forall p :: 0 <= p < |s.ds| ==> s.ds[p].pc != Exited(ShutDown)
  {
    QuiescentLeaks(c, s);
    assert Consistent(s.sh.reg) by { Safety(c, s); }
    hide Reachable;
    if p :| 0 <= p < |s.ds| && s.ds[p].pc == Exited(ShutDown) {
      assert p in Positions(s.ds, Leaked);
    } else {
      assert Positions(s.ds, Leaked) == {} == Positions(s.ds, LeakedPlace) == Positions(s.ds, LeakedReservation);
      EmptyIsRestored(s.sh.reg);
    }
  }

  lemma EmptyIsRestored(r: Reg)
    requires Consistent(r) && r.count == 0 && r.inBase == 0 && r.reserving == 0
    ensures Restored(r)
  {
    forall i | 0 <= i < |r.slots| ensures i in r.free {
      if r.slots[i].loc != Undefined { CountPositive(r.slots, Occupied, i); }
    }
  }

  // ---- Leaks last, and they happen ----

  /** A leaked reservation counts against the limit for the rest of the run. */
  lemma LeakIsPermanent(c: Config, s: State, sched: seq<Action>, p: nat)
    requires Reachable(c, s) && p < |s.ds| && LeakedReservation(s.ds[p])
    ensures var t := Exec(c, s, sched);
            && p < |t.ds| && LeakedReservation(t.ds[p])
            && t.sh.reg.reserving >= |Positions(t.ds, LeakedReservation)| >= 1
  {
    var t := Exec(c, s, sched);
    ExitedStays(c, s, sched, p);
    ReachableExec(c, s, sched);
    Safety(c, t);
    hide Reachable, SlotInv, IdInv, Consistent, Exec;
    forall q | 0 <= q < |t.ds| && LeakedReservation(t.ds[q]) ensures HoldsReservation(t.ds[q]) {
      ExitedIsLeaked(c, t.ds[q]);
    }
    CountImplied(t.ds, LeakedReservation, HoldsReservation);
    CountPositive(t.ds, LeakedReservation, p);
    CountIsCardinality(t.ds, LeakedReservation);
  }

  /** Three drones with reservations, two of them in the gate and the third waiting at it. */
  lemma CrowdedGate(c: Config) returns (s: State)
    requires ValidConfig(c) && c.n >= 4
    ensures Reachable(c, s) && |s.ds| >= 3 && s.sh.tokens == 0
    ensures FirstFlight(c, s.ds[2], GatePoll(In), 19) && s.ds[2].reserved
  {
    hide Leads, FirstFlight;
    var s0 := Manned(c);
    var s1 := IncreaseTimes(c, s0, 2);
    LeadsTo(c, Init(c), s0, s1);
    RoomForThree(c.n);
    assert s1.sh.reg.free == seq(c.capacity, i => c.capacity - 1 - i);
    var s2 := FlyToGate(c, s1, 0);
    LeadsTo(c, Init(c), s1, s2);
    var s3 := AtGateEnters(c, s2, 0);
    LeadsTo(c, Init(c), s2, s3);
    var s4 := FlyToGate(c, s3, 1);
    LeadsTo(c, Init(c), s3, s4);
    var s5 := AtGateEnters(c, s4, 1);
    LeadsTo(c, Init(c), s4, s5);
    s := FlyToGate(c, s5, 2);
    LeadsTo(c, Init(c), s5, s);
  }

  lemma AtGateEnters(c: Config, s: State, p: nat) returns (t: State)
    requires p < |s.ds| && FirstFlight(c, s.ds[p], GatePoll(In), 19) && s.sh.tokens > 0
    ensures Leads(c, s, t) && Beside(s, t, p) && t.sh == s.sh.(tokens := s.sh.tokens - 1)
  {
    t := EnterGate(c, s, p);
  }

  lemma RoomForThree(n: int)
    requires n >= 4
    ensures DoubledTimes(StartLimit(n), n, 2) >= 3
  {
    assert DoubledTimes(StartLimit(n), n, 1) >= 2;
  }

  /** The waiting drone times out and is shut down. */
  lemma ShutDownAtGate(c: Config, s: State) returns (t: State)
    requires |s.ds| >= 3 && s.ds[2].pc == GatePoll(In) && s.ds[2].reserved && s.sh.tokens == 0
    ensures Leads(c, s, t) && |t.ds| >= 3 && LeakedReservation(t.ds[2])
  {
    LeadsSelf(c, s);
    var s1 := Apply(c, s, DroneAct(2));
    assert s1 == s.(ds := s.ds[2 := s.ds[2].(pc := Top)]);
    var s2 := Apply(c, s1, ShutdownOrder(2));
    assert |s2.ds| >= 3 && s2.ds[2] == s.ds[2].(pc := Top, shutdown := true);
    var s3 := Apply(c, s2, DroneAct(2));
    assert s3.ds == s2.ds[2 := s2.ds[2].(pc := Closing(ShutDown))] by { OwnTest(c, s2, 2); }
    t := Apply(c, s3, DroneAct(2));
    assert |t.ds| >= 3 && LeakedReservation(t.ds[2]);
    hide Apply, Leads;
    LeadsOne(c, s, s, DroneAct(2));
    LeadsOne(c, s, s1, ShutdownOrder(2));
    LeadsOne(c, s, s2, DroneAct(2));
    LeadsOne(c, s, s3, DroneAct(2));
  }

  ghost predicate HasLeakedReservation(s: State) {
    exists p :: 0 <= p < |s.ds| && LeakedReservation(s.ds[p])
  }

  /** Some run leaks a reservation exactly when at least four drones are configured. */
  lemma LeakPossibleIff(c: Config)
    requires ValidConfig(c)
    ensures (exists s :: Reachable(c, s) && HasLeakedReservation(s)) <==> c.n >= 4
  {
    if c.n >= 4 {
      var s := CrowdedGate(c);
      var t := ShutDownAtGate(c, s);
      LeadsTo(c, Init(c), s, t);
      assert HasLeakedReservation(t);
    } else if s :| Reachable(c, s) && HasLeakedReservation(s) {
      var sched :| Exec(c, Init(c), sched) == s;
      SmallSwarmsNeverDock(c, sched);
    }
  }
}
