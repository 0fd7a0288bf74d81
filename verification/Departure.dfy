/** When a drone in the base can still get back to a mission. */
module Departure {
  import opened Registry
  import opened Drones
  import opened Swarm
  import opened Invariant
  import opened Preservation
  import opened Decisions
  import opened Orders
  import opened Depletion

  /** A drone in the base that is bound to end there: its removal or exit is under way, it will see a
      shutdown request before anything else, or it will see an order that its charge does not spare
      it. In the base the charge never falls. */
  predicate Bound(d: Drone) {
    match d.pc
    case Lock(sec) => sec.Remove?
    case Body(sec) => sec.Remove?
    case Unlock(sec) => sec.Remove? || (sec.Register? && (d.shutdown || (d.sigUsr1 && d.battery > 20)))
    case Closing(_) => true
    case Exited(_) => true
    case Top => d.shutdown || (d.sigUsr1 && d.battery > 20)
    case SigTest => d.sigUsr1 && d.battery > 20
    case SigRead => d.battery > 20
    case _ => false
  }

  /** Drone `p` flies a mission with a full battery. */
  predicate Airborne(s: State, p: nat) {
    p < |s.ds| && Registered(s.ds[p]) && s.ds[p].loc == Mission && s.ds[p].battery == 100
  }

  // ---- Bound drones stay ----

  predicate Kept(d: Drone) {
    d.loc == Base && d.charging && Bound(d)
  }

  lemma KeptLoop(d: Drone)
    requires Kept(d) && InLoop(d.pc)
    ensures Kept(StepLoop(d))
  {
  }

  lemma KeptStep(sh: Shared, p: int, d: Drone)
    requires Kept(d)
    ensures Kept(StepDrone(sh, p, d).1)
  {
    if InLoop(d.pc) {
      KeptLoop(d);
      hide StepLoop, Kept;
    } else {
      StepPc(sh, p, d);
      StepKeeps(sh, p, d);
      StepOrderFlag(sh, p, d);
      hide StepDrone;
    }
  }

  lemma KeptPerturb(d: Drone)
    requires Kept(d)
    ensures Kept(Tick(d)) && Kept(d.(sigUsr1 := true)) && Kept(d.(shutdown := true))
  {
  }

  lemma KeptAction(c: Config, s: State, a: Action, p: nat)
    requires p < |s.ds| && Kept(s.ds[p])
    ensures p < |Apply(c, s, a).ds| && Kept(Apply(c, s, a).ds[p])
  {
    hide Kept, Tick, StepDrone;
    if a == DroneAct(p) && Enabled(s, a) {
      KeptStep(s.sh, p, s.ds[p]);
    } else {
      Bystander(c, s, a, p);
      hide Apply;
      KeptPerturb(s.ds[p]);
    }
  }

  lemma {:induction false} KeptRun(c: Config, s: State, sched: seq<Action>, p: nat)
    requires p < |s.ds| && Kept(s.ds[p])
    ensures p < |Exec(c, s, sched).ds| && Kept(Exec(c, s, sched).ds[p])
  {
    if sched != [] {
      hide Kept, Apply;
      KeptRun(c, s, sched[..|sched| - 1], p);
      KeptAction(c, Exec(c, s, sched[..|sched| - 1]), sched[|sched| - 1], p);
    }
  }

  // ---- The others can leave ----

  /** In the base and free to go. */
  predicate Free(d: Drone) {
    Registered(d) && d.loc == Base && !Bound(d)
  }

  /** Steps left until the departure is booked, at most. */
  function DepartRank(pc: Pc): nat {
    match pc
    case Commit(_) => 1
    case Unlock(Publish(_)) => 2
    case Body(_) => 3
    case Lock(_) => 4
    case InGate(_) => 5
    case GateRead(_) => 6
    case GatePoll(_) => 7
    case LeaveRead => 8
    case Dispatch => 9
    case PowerRead => 10
    case SigRead => 11
    case SigTest => 12
    case Top => 13
    case _ => 14
  }

  /** Past its look for orders, where waiting for the charge does no harm. */
  predicate Charges(pc: Pc) {
    pc.PowerRead? || pc.Dispatch? || pc.LeaveRead?
  }

  lemma DepartLoop(c: Config, d: Drone)
    requires LocalInv(c, d) && Free(d) && InLoop(d.pc) && (Charges(d.pc) ==> d.battery == 100)
    ensures Free(StepLoop(d)) && DepartRank(LoopNext(d)) < DepartRank(d.pc)
  {
  }

  lemma DepartGate(c: Config, sh: Shared, p: int, d: Drone)
    requires LocalInv(c, d) && Free(d) && !InLoop(d.pc) && Clear(sh, d)
    ensures var d' := StepDrone(sh, p, d).1;
            if d.pc.Commit? then d'.loc == Mission && d'.battery == 100 && d'.pc == Top
            else Free(d') && DepartRank(d'.pc) < DepartRank(d.pc)
  {
    StepPc(sh, p, d);
    StepKeeps(sh, p, d);
    StepOrderFlag(sh, p, d);
    hide StepDrone;
  }

  lemma TickCharges(c: Config, d: Drone)
    requires LocalInv(c, d) && d.loc == Base && !d.pc.Exited? && d.battery != 100
    ensures Tick(d) == d.(battery := d.battery + 1, changes := d.changes + 1) && d.battery < 100
  {
  }

  /** Ticks bring a drone in the base to full charge wherever it stands. */
  lemma {:induction false} Charge(c: Config, s: State, p: nat) returns (t: State)
    requires ValidConfig(c) && Inv(c, s) && p < |s.ds| && s.ds[p].loc == Base && !s.ds[p].pc.Exited?
    ensures Leads(c, s, t) && Inv(c, t) && p < |t.ds|
    ensures t.ds[p] == s.ds[p].(battery := 100, changes := t.ds[p].changes)
    decreases 100 - s.ds[p].battery
  {
    assert LocalInv(c, s.ds[p]) by { hide SlotInv, IdInv, CountInv, Consistent; }
    LeadsSelf(c, s);
    hide Inv, Leads, Tick;
    if s.ds[p].battery == 100 {
      t := s;
    } else {
      var u := Apply(c, s, TickAct(p));
      TickCharges(c, s.ds[p]);
      ApplyKeepsInv(c, s, TickAct(p));
      LeadsOne(c, s, s, TickAct(p));
      hide LocalInv, Apply;
      t := Charge(c, u, p);
      LeadsTo(c, s, u, t);
    }
  }

  lemma ChargedStaysFree(d: Drone, changes: int)
    requires Free(d) && Charges(d.pc)
    ensures Free(d.(battery := 100, changes := changes))
  {
  }

  /** Ready to take the next step out. */
  lemma DepartReady(c: Config, s: State, p: nat) returns (t: State)
    requires ValidConfig(c) && Inv(c, s) && p < |s.ds| && Free(s.ds[p])
    ensures Leads(c, s, t) && Inv(c, t) && p < |t.ds| && Free(t.ds[p]) && t.ds[p].pc == s.ds[p].pc
    ensures Clear(t.sh, t.ds[p]) && (Charges(t.ds[p].pc) ==> t.ds[p].battery == 100)
  {
    hide Inv, Leads, Clear;
    if Charges(s.ds[p].pc) {
      var u := Charge(c, s, p);
      ChargedStaysFree(s.ds[p], u.ds[p].changes);
      t := ClearWay(c, u, p);
      LeadsTo(c, s, u, t);
    } else {
      t := ClearWay(c, s, p);
    }
  }

  lemma DepartOnce(c: Config, s: State, p: nat) returns (t: State)
    requires ValidConfig(c) && Inv(c, s) && p < |s.ds| && Free(s.ds[p])
    ensures Leads(c, s, t) && Inv(c, t) && p < |t.ds|
    ensures if s.ds[p].pc.Commit? then Airborne(t, p)
            else Free(t.ds[p]) && DepartRank(t.ds[p].pc) < DepartRank(s.ds[p].pc)
  {
    var u := DepartReady(c, s, p);
    var d := u.ds[p];
    assert LocalInv(c, d);
    assert Enabled(u, DroneAct(p));
    hide Inv, LocalInv, Leads, Clear, Free, DepartRank;
    ApplyKeepsInv(c, u, DroneAct(p));
    LeadsOne(c, s, u, DroneAct(p));
    t := Apply(c, u, DroneAct(p));
    if InLoop(d.pc) {
      DepartLoop(c, d);
      OwnTest(c, u, p);
      hide StepLoop, Apply;
    } else {
      DepartGate(c, u.sh, p, d);
      hide StepDrone;
    }
  }

  lemma {:induction false} Depart(c: Config, s: State, p: nat) returns (t: State)
    requires ValidConfig(c) && Inv(c, s) && p < |s.ds| && Free(s.ds[p])
    ensures Leads(c, s, t) && Airborne(t, p)
    decreases DepartRank(s.ds[p].pc)
  {
    hide Inv, Leads, Free, Airborne;
    var u := DepartOnce(c, s, p);
    if s.ds[p].pc.Commit? {
      t := u;
    } else {
      t := Depart(c, u, p);
      LeadsTo(c, s, u, t);
    }
  }

  /** From every reachable state, a registered drone in the base can be brought back to a mission with
      a full battery, whoever holds the semaphore and the gate, exactly when it is not bound to end
      in the base. */
  lemma DepartsIff(c: Config, s: State, p: nat)
    requires Reachable(c, s) && p < |s.ds| && Registered(s.ds[p]) && s.ds[p].loc == Base
    ensures (exists t :: Leads(c, s, t) && Airborne(t, p)) <==> !Bound(s.ds[p])
  {
    Safety(c, s);
    assert s.ds[p].charging by {
      assert LocalInv(c, s.ds[p]) by { hide SlotInv, IdInv, CountInv, Consistent; }
    }
    hide Reachable, Inv;
    if !Bound(s.ds[p]) {
      var t := Depart(c, s, p);
    } else if t :| Leads(c, s, t) && Airborne(t, p) {
      var sched :| Exec(c, s, sched) == t;
      KeptRun(c, s, sched, p);
    }
  }
}
