/** Battery and loading cycles over the whole life of a drone. */
module Lifetime {
  import opened Counting
  import opened Registry
  import opened Drones
  import opened Swarm
  import opened Invariant
  import opened Preservation
  import opened Decisions

  /** A battery change lowers the potential by exactly one. */
  lemma TickLowersPotential(d: Drone)
    ensures Potential(Tick(d)) + Tick(d).changes == Potential(d) + d.changes
    ensures Tick(d).changes == d.changes <==> Tick(d).battery == d.battery
  {
  }

  ghost predicate SameBattery(d: Drone, d': Drone) {
    d'.battery == d.battery && d'.changes == d.changes && d'.cycles == d.cycles && d'.charging == d.charging
  }

  lemma OtherStepsKeepBattery(sh: Shared, p: int, d: Drone)
    requires !d.pc.Commit?
    ensures SameBattery(d, StepDrone(sh, p, d).1)
  {
    hide StepDrone;
    StepKeeps(sh, p, d);
  }

  lemma CommitKeepsPotential(c: Config, d: Drone, dir: Direction)
    requires LocalInv(c, d) && d.pc == Commit(dir)
    ensures Potential(CommitLocal(d, dir)) <= Potential(d)
  {
  }

  /** No step of the drone raises the potential or changes the battery: an entry trades a loading
      cycle for a charge, a departure happens only at full battery. */
  lemma StepKeepsPotential(c: Config, sh: Shared, p: int, d: Drone)
    requires LocalInv(c, d)
    ensures Potential(StepDrone(sh, p, d).1) <= Potential(d)
    ensures StepDrone(sh, p, d).1.battery == d.battery && StepDrone(sh, p, d).1.changes == d.changes
  {
    hide LocalInv;
    if d.pc.Commit? {
      CommitKeepsPotential(c, d, d.pc.dir);
    } else {
      OtherStepsKeepBattery(sh, p, d);
    }
  }

  lemma SignalKeepsPotential(d: Drone)
    ensures Potential(d.(sigUsr1 := true)) == Potential(d.(shutdown := true)) == Potential(d)
  {
  }

  lemma ActionKeepsPotential(c: Config, s: State, a: Action, p: nat)
    requires ValidConfig(c) && Inv(c, s) && p < |s.ds|
    ensures var s' := Apply(c, s, a);
            p < |s'.ds| && s'.ds[p].changes + Potential(s'.ds[p]) <= s.ds[p].changes + Potential(s.ds[p])
  {
    assert LocalInv(c, s.ds[p]) by { hide SlotInv, IdInv, CountInv, Consistent; }
    hide Inv, LocalInv, StepDrone, Tick, Potential;
    if a == DroneAct(p) && Enabled(s, a) {
      StepKeepsPotential(c, s.sh, p, s.ds[p]);
    } else {
      Bystander(c, s, a, p);
      hide Apply;
      TickLowersPotential(s.ds[p]);
      SignalKeepsPotential(s.ds[p]);
    }
  }

  /** From any reachable state on, however ticks, steps and signals are interleaved, the battery of
      a drone changes at most as often as its potential says; each change uses up one unit. */
  lemma {:induction false} ChangesLeft(c: Config, s: State, sched: seq<Action>, p: nat)
    requires Reachable(c, s) && p < |s.ds|
    ensures var t := Exec(c, s, sched);
            && p < |t.ds|
            && t.ds[p].changes - s.ds[p].changes <= Potential(s.ds[p]) - Potential(t.ds[p])
            && t.ds[p].changes - s.ds[p].changes <= Potential(s.ds[p]) <= 200 * c.cycles + 100
  {
    Safety(c, s);
    PotentialRange(c, s, p);
    if sched != [] {
      var n := |sched| - 1;
      var t := Exec(c, s, sched[..n]);
      ChangesLeft(c, s, sched[..n], p);
      ExecKeepsInv(c, s, sched[..n]);
      ExecKeepsInv(c, s, sched);
      hide Inv, Apply, Potential;
      ActionKeepsPotential(c, t, sched[n], p);
      PotentialRange(c, Exec(c, s, sched), p);
    }
  }

  lemma PotentialRange(c: Config, s: State, p: nat)
    requires Inv(c, s) && p < |s.ds|
    ensures 0 <= Potential(s.ds[p]) <= 200 * c.cycles + 100
  {
    hide SlotInv, IdInv, CountInv, Consistent;
    assert LocalInv(c, s.ds[p]);
  }

  /** In any interleaving of battery ticks with the drone's own steps the battery stays within
      0..100 and changes at most 200 times per loading cycle plus 100. */
  lemma BatteryBounded(c: Config, s: State, p: nat)
    requires Reachable(c, s) && p < |s.ds|
    ensures 0 <= s.ds[p].battery <= 100
    ensures s.ds[p].changes <= 200 * c.cycles + 100 - Potential(s.ds[p])
    ensures s.ds[p].changes <= 200 * c.cycles + 100
  {
    hide SlotInv, IdInv, CountInv, Consistent, AtPc;
    Safety(c, s);
    assert LocalInv(c, s.ds[p]);
  }

  /** Inward passages and loading cycles left add up to the configured cycles, with the passage
      under way counted once; a decommissioned drone has used them all. */
  lemma CyclesAccounted(c: Config, s: State, p: nat)
    requires Reachable(c, s) && p < |s.ds|
    ensures s.ds[p].entries + s.ds[p].cycles == c.cycles + One(Passed(s.ds[p], In))
    ensures 0 <= s.ds[p].entries <= c.cycles && 0 <= s.ds[p].cycles
    ensures LostDecommissioned(s.ds[p]) ==> s.ds[p].entries == c.cycles
  {
    hide SlotInv, IdInv, CountInv, Consistent;
    Safety(c, s);
    assert LocalInv(c, s.ds[p]);
  }

  /** A drone on its way out, in the gate or past it but not yet booked, has a full battery. */
  lemma DeparturesAreFull(c: Config, s: State, p: nat)
    requires Reachable(c, s) && p < |s.ds|
    requires s.ds[p].pc == GatePoll(Out) || s.ds[p].pc == GateRead(Out) || s.ds[p].pc == InGate(Out)
             || Passed(s.ds[p], Out)
    ensures s.ds[p].battery == 100 && s.ds[p].loc == Base
  {
    hide SlotInv, IdInv, CountInv, Consistent;
    Safety(c, s);
    assert LocalInv(c, s.ds[p]);
  }

  /** Nothing ends a drone between its decision to cross and its arrival on the other side: no
      removal, shutdown or refusal can begin while it is in the gate or has passed it unbooked. */
  lemma CrossingIsCompleted(c: Config, s: State, p: nat, a: Action)
    requires Reachable(c, s) && p < |s.ds|
    requires s.ds[p].pc.GateRead? || s.ds[p].pc.InGate? || Passed(s.ds[p], In) || Passed(s.ds[p], Out)
    ensures var d := s.ds[p];
            var d' := Apply(c, s, a).ds[p];
            || d'.pc == d.pc
            || d'.pc.InGate? || Passed(d', In) || Passed(d', Out)
            || (d.pc.Commit? && d'.pc == Top && d'.loc == Side(d.pc.dir))
  {
    hide Reachable;
    match a
    case DroneAct(q) => if q == p { CrossingStep(s.sh, p, s.ds[p]); }
    case _ =>
  }

  lemma CrossingStep(sh: Shared, p: int, d: Drone)
    requires d.pc.GateRead? || d.pc.InGate? || Passed(d, In) || Passed(d, Out)
    ensures var d' := StepDrone(sh, p, d).1;
            || d'.pc.InGate? || Passed(d', In) || Passed(d', Out)
            || (d.pc.Commit? && d'.pc == Top && d'.loc == Side(d.pc.dir))
  {
    hide StepDrone;
    StepPc(sh, p, d);
    StepKeeps(sh, p, d);
    assert d.pc.InGate? ==> d.pc.dir.In? || d.pc.dir.Out?;
  }

  // ---- The battery, tick by tick ----

  /** The battery ticks of drone `p` in a schedule. */
  function Ticks(sched: seq<Action>, p: nat): nat {
    if sched == [] then 0
    else Ticks(sched[..|sched| - 1], p) + if sched[|sched| - 1] == TickAct(p) then 1 else 0
  }

  /** Drone `p` runs and is on this side of the gate. */
  predicate Stays(s: State, p: nat, loc: Location) {
    p < |s.ds| && s.ds[p].loc == loc && !s.ds[p].pc.Exited?
  }

  /** The battery after `k` ticks on one side of the gate. */
  function Level(loc: Location, battery: int, k: nat): int {
    if loc == Base then (if battery + k <= 100 then battery + k else 100)
    else (if battery - k >= 0 then battery - k else 0)
  }

  lemma TickLevel(c: Config, d: Drone, battery: int, k: nat)
    requires LocalInv(c, d) && !d.pc.Exited? && 0 <= battery <= 100 && d.battery == Level(d.loc, battery, k)
    ensures Tick(d).battery == Level(d.loc, battery, k + 1)
  {
  }

  lemma OnlyTicksCount(c: Config, s: State, a: Action, p: nat)
    requires p < |s.ds| && a != TickAct(p)
    ensures p < |Apply(c, s, a).ds| && Apply(c, s, a).ds[p].battery == s.ds[p].battery
  {
    hide StepDrone, Tick;
    if a == DroneAct(p) && Enabled(s, a) { StepKeeps(s.sh, p, s.ds[p]); }
  }

  lemma BatteryAction(c: Config, s: State, a: Action, p: nat, battery: int, k: nat)
    requires Inv(c, s) && p < |s.ds| && !s.ds[p].pc.Exited? && 0 <= battery <= 100
    requires s.ds[p].battery == Level(s.ds[p].loc, battery, k)
    ensures var s' := Apply(c, s, a);
            && p < |s'.ds|
            && s'.ds[p].battery == Level(s.ds[p].loc, battery, k + if a == TickAct(p) then 1 else 0)
  {
    assert LocalInv(c, s.ds[p]) by { hide SlotInv, IdInv, CountInv, Consistent; }
    hide Inv, LocalInv, Level, StepDrone, Tick;
    if a == TickAct(p) {
      TickLevel(c, s.ds[p], battery, k);
    } else {
      OnlyTicksCount(c, s, a, p);
      hide Apply;
    }
  }

  /** Drone `p` stays on this side of the gate throughout the schedule. */
  ghost predicate StaysThroughout(c: Config, s: State, sched: seq<Action>, p: nat, loc: Location) {
    forall j :: 0 <= j <= |sched| ==> Stays(Exec(c, s, sched[..j]), p, loc)
  }

  lemma StaysPrefix(c: Config, s: State, sched: seq<Action>, p: nat, loc: Location)
    requires StaysThroughout(c, s, sched, p, loc)
    ensures Stays(s, p, loc)
    ensures sched != [] ==>
              var n := |sched| - 1;
              StaysThroughout(c, s, sched[..n], p, loc) && Stays(Exec(c, s, sched[..n]), p, loc)
  {
    assert Stays(Exec(c, s, sched[..0]), p, loc) && sched[..0] == [] && Exec(c, s, []) == s;
    if sched != [] {
      var n := |sched| - 1;
      hide Stays, Exec;
      forall j | 0 <= j <= n ensures Stays(Exec(c, s, sched[..n][..j]), p, loc) {
        assert sched[..n][..j] == sched[..j];
      }
    }
  }

  lemma {:induction false} LevelRun(c: Config, s: State, sched: seq<Action>, p: nat, loc: Location)
    requires Reachable(c, s) && StaysThroughout(c, s, sched, p, loc)
    requires p < |s.ds| && 0 <= s.ds[p].battery <= 100 && s.ds[p].battery == Level(loc, s.ds[p].battery, 0)
    ensures p < |Exec(c, s, sched).ds|
    ensures Exec(c, s, sched).ds[p].battery == Level(loc, s.ds[p].battery, Ticks(sched, p))
  {
    if sched != [] {
      hide Inv, Reachable, Apply, StaysThroughout, Level;
      var n := |sched| - 1;
      StaysPrefix(c, s, sched, p, loc);
      LevelRun(c, s, sched[..n], p, loc);
      ReachableExec(c, s, sched[..n]);
      Safety(c, Exec(c, s, sched[..n]));
      BatteryAction(c, Exec(c, s, sched[..n]), sched[n], p, s.ds[p].battery, Ticks(sched[..n], p));
    }
  }

  /** As long as a drone stays in the base its battery rises by one per tick up to 100; as long as it
      stays on a mission it falls by one per tick down to 0; nothing else moves it, whatever is
      interleaved. */
  lemma BatteryExact(c: Config, s: State, sched: seq<Action>, p: nat, loc: Location)
    requires Reachable(c, s) && loc != Undefined
    requires StaysThroughout(c, s, sched, p, loc)
    ensures p < |s.ds| && p < |Exec(c, s, sched).ds|
    ensures var b := s.ds[p].battery;
            var k := Ticks(sched, p);
            Exec(c, s, sched).ds[p].battery
            == if loc == Base then (if b + k <= 100 then b + k else 100) else (if b - k >= 0 then b - k else 0)
  {
    StaysPrefix(c, s, sched, p, loc);
    hide Exec, StaysThroughout, Ticks, Reachable;
    BatteryBounded(c, s, p);
    LevelRun(c, s, sched, p, loc);
  }
}
