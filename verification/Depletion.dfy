/** What becomes of a drone whose battery empties in flight.

    The documentation destroys it. The code looks at the battery once per pass of the main loop, so
    the outcome depends on whether the drone has that look still ahead of it. */
module Depletion {
  import opened Counting
  import opened Registry
  import opened Drones
  import opened Swarm
  import opened Invariant
  import opened Preservation
  import opened Progress
  import opened Decisions
  import opened Closedown
  import opened Staging

  /** On a mission with an empty battery. */
  predicate Flat(d: Drone) {
    d.loc == Mission && d.battery == 0
  }

  /** The power check of the current pass is still to come, or its removal or exit is under way. */
  predicate BeforeCheck(pc: Pc) {
    match pc
    case Lock(sec) => sec.Remove?
    case Body(sec) => sec.Remove?
    case Unlock(sec) => sec.Remove?
    case Closing(how) => !how.Refused?
    case Exited(how) => !how.Refused?
    case _ => pc.Top? || pc.SigTest? || pc.SigRead? || pc.PowerRead?
  }

  /** The power check of the current pass has been passed, on the way into the base. */
  predicate PastCheck(pc: Pc) {
    match pc
    case Lock(sec) => sec == Reserve || sec == Publish(In)
    case Body(sec) => sec == Reserve || sec == Publish(In)
    case Unlock(sec) => sec == Reserve || sec == Publish(In)
    case GatePoll(dir) => dir == In
    case GateRead(dir) => dir == In
    case InGate(dir) => dir == In
    case Commit(dir) => dir == In
    case _ => pc.Dispatch? || pc.ReturnRead?
  }

  /** Steps left for a flat drone that finds no place in the base. */
  function FlatRank(pc: Pc): nat {
    match pc
    case Exited(_) => 0
    case Closing(_) => 1
    case Unlock(Remove(_)) => 2
    case Body(Remove(_)) => 3
    case Lock(Remove(_)) => 4
    case PowerRead => 5
    case SigRead => 6
    case SigTest => 7
    case Top => 8
    case Unlock(_) => 9
    case Body(_) => 10
    case Lock(_) => 11
    case ReturnRead => 12
    case _ => 13
  }

  // ---- The check is ahead ----

  /** Flat, with the check ahead; the battery does not charge in flight. */
  predicate Doomed(d: Drone) {
    Flat(d) && BeforeCheck(d.pc) && !d.charging
  }

  lemma DoomedStep(sh: Shared, p: int, d: Drone)
    requires Doomed(d) && !d.pc.Exited?
    ensures var d' := StepDrone(sh, p, d).1;
            Doomed(d') && d'.entries == d.entries && FlatRank(d'.pc) < FlatRank(d.pc)
  {
    hide StepDrone;
    StepPc(sh, p, d);
    StepKeeps(sh, p, d);
  }

  lemma DoomedAction(c: Config, s: State, a: Action, p: nat)
    requires p < |s.ds| && Doomed(s.ds[p])
    ensures p < |Apply(c, s, a).ds|
    ensures var d := s.ds[p];
            var d' := Apply(c, s, a).ds[p];
            && Doomed(d') && d'.entries == d.entries
            && FlatRank(d'.pc) + One(SameProcess(a, DroneAct(p)) && Enabled(s, a)) <= FlatRank(d.pc)
  {
    if a == DroneAct(p) && Enabled(s, a) {
      hide StepDrone, Doomed, FlatRank;
      DoomedStep(s.sh, p, s.ds[p]);
    } else {
      Bystander(c, s, a, p);
      hide Apply, Enabled;
      DoomedPerturb(s.ds[p]);
      hide Doomed, FlatRank, Tick;
    }
  }

  lemma DoomedPerturb(d: Drone)
    requires Doomed(d)
    ensures Doomed(Tick(d)) && Tick(d).pc == d.pc && Tick(d).entries == d.entries
    ensures Doomed(d.(sigUsr1 := true)) && Doomed(d.(shutdown := true))
  {
  }

  lemma {:induction false} DoomedRun(c: Config, s: State, sched: seq<Action>, p: nat)
    requires p < |s.ds| && Doomed(s.ds[p])
    ensures var t := Exec(c, s, sched);
            && p < |t.ds| && Doomed(t.ds[p]) && t.ds[p].entries == s.ds[p].entries
            && OwnSteps(c, s, sched, DroneAct(p)) + FlatRank(t.ds[p].pc) <= FlatRank(s.ds[p].pc)
  {
    if sched != [] {
      hide Apply, Doomed, Enabled, SameProcess, FlatRank;
      var n := |sched| - 1;
      DoomedRun(c, s, sched[..n], p);
      DoomedAction(c, Exec(c, s, sched[..n]), sched[n], p);
    }
  }

  /** A drone whose battery is empty in flight and that has not passed the power check never enters
      the base again, whatever is scheduled: it leaves by removal or shutdown, within eight steps of
      its own. */
  lemma EmptyBeforeCheckIsLost(c: Config, s: State, sched: seq<Action>, p: nat)
    requires Reachable(c, s) && p < |s.ds| && Flat(s.ds[p]) && BeforeCheck(s.ds[p].pc)
    ensures var t := Exec(c, s, sched);
            var k := OwnSteps(c, s, sched, DroneAct(p));
            && p < |t.ds| && Flat(t.ds[p]) && t.ds[p].entries == s.ds[p].entries && BeforeCheck(t.ds[p].pc)
            && k + FlatRank(t.ds[p].pc) <= FlatRank(s.ds[p].pc) <= 8
            && (k == FlatRank(s.ds[p].pc) ==> t.ds[p].pc.Exited? && !t.ds[p].pc.how.Refused?)
  {
    assert !s.ds[p].charging by { Safety(c, s); assert LocalInv(c, s.ds[p]); }
    hide Reachable, Exec, OwnSteps;
    DoomedRun(c, s, sched, p);
  }

  // ---- The check is behind ----

  /** Holding a reservation on the way into the base. */
  predicate Approaching(d: Drone) {
    d.reserved && PastCheck(d.pc)
  }

  /** Steps left until the drone has booked its entry. */
  function DockRank(pc: Pc): nat {
    match pc
    case Commit(_) => 1
    case Unlock(Publish(_)) => 2
    case Body(Publish(_)) => 3
    case Lock(Publish(_)) => 4
    case InGate(_) => 5
    case GateRead(_) => 6
    case GatePoll(_) => 7
    case Unlock(_) => 8
    case Body(_) => 9
    case Lock(_) => 10
    case ReturnRead => 11
    case _ => 12
  }

  /** What the way into the base leaves alone. */
  ghost predicate SameCondition(d: Drone, d': Drone) {
    d'.battery == d.battery && d'.sigUsr1 == d.sigUsr1 && d'.shutdown == d.shutdown
  }

  /** Booked in and at the top of the main loop. */
  ghost predicate Docked(d: Drone) {
    d.pc == Top && d.loc == Base && d.charging
  }

  /** Nothing stands in the way of the next step, at the gate or elsewhere. */
  predicate Clear(sh: Shared, d: Drone) {
    Ready(sh, d) && (d.pc.GatePoll? ==> sh.tokens > 0)
  }

  lemma ApproachStep(c: Config, sh: Shared, p: int, d: Drone)
    requires LocalInv(c, d) && Approaching(d) && Clear(sh, d)
    ensures var d' := StepDrone(sh, p, d).1;
            && SameCondition(d, d')
            && (if DockRank(d.pc) == 1 then Docked(d') else Approaching(d') && DockRank(d'.pc) == DockRank(d.pc) - 1)
            && d'.entries == d.entries + One(d.pc.InGate?)
  {
    hide Update, RegisterBody, DeleteBody;
    if d.pc.Lock? || d.pc.Body? || d.pc.Unlock? {
      ApproachSection(c, sh, p, d);
      hide StepDrone;
    } else {
      hide SectionBody;
    }
  }

  lemma ApproachSection(c: Config, sh: Shared, p: int, d: Drone)
    requires LocalInv(c, d) && Approaching(d) && (d.pc.Lock? || d.pc.Body? || d.pc.Unlock?)
    ensures var d' := StepDrone(sh, p, d).1;
            && SameCondition(d, d') && Approaching(d')
            && DockRank(d'.pc) == DockRank(d.pc) - 1 >= 1 && d'.entries == d.entries
  {
    hide Update, RegisterBody, DeleteBody, LocalInv;
  }

  /** Whoever holds the semaphore can be run until it gives it back, without touching drone `p`. */
  lemma FreeSem(c: Config, s: State, p: nat) returns (t: State)
    requires ValidConfig(c) && Inv(c, s) && p < |s.ds| && s.ds[p].semAdj == 0
    ensures Leads(c, s, t) && Inv(c, t) && p < |t.ds| && t.ds[p] == s.ds[p] && t.sh.sem > 0
  {
    t := s;
    LeadsSelf(c, s);
    assert s.sh.sem >= 0 by { hide LocalInv, SlotInv, IdInv, Consistent; }
    if s.sh.sem == 0 {
      var a := HolderExists(c, s);
      HolderReleases(c, s, a);
      HolderSpares(c, s, a, p);
      t := Apply(c, s, a);
      LeadsOne(c, s, s, a);
      ApplyKeepsInv(c, s, a);
      if t.sh.sem == 0 {
        hide Inv, Leads;
        HolderKeeps(c, s, a);
        HolderSpares(c, t, a, p);
        ApplyKeepsInv(c, t, a);
        LeadsOne(c, s, t, a);
        t := Apply(c, t, a);
      } else {
        assert t.sh.sem > 0 by { hide LocalInv, SlotInv, IdInv, Consistent; }
      }
    }
  }

  lemma HolderSpares(c: Config, s: State, a: Action, p: nat)
    requires Inv(c, s) && p < |s.ds| && s.ds[p].semAdj == 0 && Holder(s, a)
    ensures p < |Apply(c, s, a).ds| && Apply(c, s, a).ds[p] == s.ds[p]
  {
    hide SwarmInv;
    assert !Disturbs(s, a, p) && a != DroneAct(p);
    hide Apply, Disturbs;
    SpareDrone(c, s, a, p);
  }

  /** A holder that has not given the semaphore back after one step still holds it. */
  lemma HolderKeeps(c: Config, s: State, a: Action)
    requires Inv(c, s) && Holder(s, a) && Apply(c, s, a).sh.sem <= s.sh.sem
    ensures Holder(Apply(c, s, a), a)
  {
    hide SlotInv, IdInv, CountInv, Consistent;
    if a.DroneAct? {
      assert LocalInv(c, s.ds[a.p]);
      if s.ds[a.p].pc.Body? { BodyStaysInside(s.sh, a.p, s.ds[a.p]); } else { ReleaseGivesBack(s.sh, a.p, s.ds[a.p]); }
      hide StepDrone, LocalInv;
    }
  }

  /** A token in a drone's hand can be brought back, without touching drone `p`. */
  lemma FreeToken(c: Config, s: State, p: nat) returns (t: State)
    requires ValidConfig(c) && Inv(c, s) && p < |s.ds| && !s.ds[p].pc.InGate?
    ensures Leads(c, s, t) && Inv(c, t) && p < |t.ds| && t.ds[p] == s.ds[p] && t.sh.tokens > 0
  {
    t := s;
    LeadsSelf(c, s);
    assert s.sh.tokens >= 0 by { hide LocalInv, SlotInv, IdInv, Consistent; }
    if s.sh.tokens == 0 {
      var q, r := EmptyGateHasTwo(c, s);
      GateDroneReleases(c, s, q);
      ApplyKeepsInv(c, s, DroneAct(q));
      LeadsOne(c, s, s, DroneAct(q));
      SpareDrone(c, s, DroneAct(q), p);
      t := Apply(c, s, DroneAct(q));
    }
  }

  /** The way for a drone's next step can be cleared. */
  lemma ClearWay(c: Config, s: State, p: nat) returns (t: State)
    requires ValidConfig(c) && Inv(c, s) && p < |s.ds| && !s.ds[p].pc.Exited?
    ensures Leads(c, s, t) && Inv(c, t) && p < |t.ds| && t.ds[p] == s.ds[p] && Clear(t.sh, s.ds[p])
  {
    assert LocalInv(c, s.ds[p]);
    hide Inv, Leads;
    if s.ds[p].pc.Lock? {
      t := FreeSem(c, s, p);
    } else if s.ds[p].pc.GatePoll? || s.ds[p].pc.GateRead? {
      t := FreeToken(c, s, p);
    } else {
      t := s;
      LeadsSelf(c, s);
    }
  }

  lemma ApproachOnce(c: Config, s: State, p: nat) returns (t: State)
    requires ValidConfig(c) && Inv(c, s) && p < |s.ds| && Approaching(s.ds[p])
    ensures Leads(c, s, t) && Inv(c, t) && p < |t.ds| && SameCondition(s.ds[p], t.ds[p])
    ensures var d := s.ds[p];
            if DockRank(d.pc) == 1 then Docked(t.ds[p])
            else Approaching(t.ds[p]) && DockRank(t.ds[p].pc) == DockRank(d.pc) - 1
    ensures t.ds[p].entries == s.ds[p].entries + One(s.ds[p].pc.InGate?)
  {
    var u := ClearWay(c, s, p);
    assert LocalInv(c, u.ds[p]);
    assert Enabled(u, DroneAct(p));
    hide Inv, LocalInv, Leads, Clear, Approaching, Docked, SameCondition, DockRank, StepDrone;
    ApproachStep(c, u.sh, p, u.ds[p]);
    ApplyKeepsInv(c, u, DroneAct(p));
    LeadsOne(c, s, u, DroneAct(p));
    t := Apply(c, u, DroneAct(p));
  }

  lemma DockSame(d: Drone, d': Drone)
    requires SameCondition(d, d')
    ensures forall e :: SameCondition(d', e) ==> SameCondition(d, e)
  {
  }

  /** From every state a drone past the check that holds a reservation can be brought into the base,
      whoever stands in its way. */
  lemma {:induction false} Dock(c: Config, s: State, p: nat) returns (t: State)
    requires ValidConfig(c) && Inv(c, s) && p < |s.ds| && Approaching(s.ds[p])
    ensures Leads(c, s, t) && p < |t.ds| && Docked(t.ds[p]) && SameCondition(s.ds[p], t.ds[p])
    ensures t.ds[p].entries == s.ds[p].entries + One(DockRank(s.ds[p].pc) >= 5)
    decreases DockRank(s.ds[p].pc)
  {
    assert s.ds[p].pc.InGate? <==> DockRank(s.ds[p].pc) == 5;
    assert DockRank(s.ds[p].pc) >= 1;
    hide Inv, Leads, Approaching, Docked, DockRank, SameCondition;
    var u := ApproachOnce(c, s, p);
    DockSame(s.ds[p], u.ds[p]);
    if DockRank(s.ds[p].pc) == 1 {
      t := u;
    } else {
      t := Dock(c, u, p);
      LeadsTo(c, s, u, t);
    }
  }

  /** Charging in the base, between the top of the loop and past its power check. */
  ghost predicate Charged(d: Drone, k: nat) {
    && d.loc == Base && d.battery == 1 && !d.shutdown
    && match d.pc
       case Top => k == 4
       case SigTest => k == 3
       case SigRead => k == 2
       case PowerRead => k == 1
       case Dispatch => k == 0
       case _ => false
  }

  lemma ChargedTest(d: Drone, k: nat)
    requires Charged(d, k) && k > 0
    ensures InLoop(d.pc) && exists j: nat :: j < k && Charged(StepLoop(d), j)
  {
    var j: nat := if d.pc.SigTest? && !d.sigUsr1 then 1 else k - 1;
    assert Charged(StepLoop(d), j);
  }

  lemma {:induction false} PassPowerCheck(c: Config, s: State, p: nat, k: nat) returns (t: State)
    requires p < |s.ds| && Charged(s.ds[p], k)
    ensures Leads(c, s, t) && p < |t.ds| && Charged(t.ds[p], 0)
    decreases k
  {
    hide Apply, Leads, Charged, StepLoop;
    LeadsSelf(c, s);
    if k == 0 {
      t := s;
    } else {
      ChargedTest(s.ds[p], k);
      var j: nat :| j < k && Charged(StepLoop(s.ds[p]), j);
      OwnTest(c, s, p);
      var u := Apply(c, s, DroneAct(p));
      LeadsOne(c, s, s, DroneAct(p));
      t := PassPowerCheck(c, u, p, j);
      LeadsTo(c, s, u, t);
    }
  }

  /** One tick after docking the drone passes its next power check, unless it is shut down there. */
  lemma Recharge(c: Config, s: State, p: nat) returns (t: State)
    requires p < |s.ds| && Docked(s.ds[p]) && s.ds[p].battery == 0
    ensures Leads(c, s, t) && p < |t.ds| && t.ds[p].loc == Base && t.ds[p].battery == 1
    ensures !s.ds[p].shutdown ==> t.ds[p].pc == Dispatch
  {
    var u := Apply(c, s, TickAct(p));
    LeadsSelf(c, s);
    LeadsOne(c, s, s, TickAct(p));
    t := u;
    hide Apply, Leads;
    if !s.ds[p].shutdown {
      t := PassPowerCheck(c, u, p, 4);
      LeadsTo(c, s, u, t);
    }
  }

  /** Drone `p` is in the base with some charge. */
  predicate Saved(s: State, p: nat) {
    p < |s.ds| && s.ds[p].loc == Base && s.ds[p].battery > 0
  }

  /** An empty battery does not end a drone past the check that holds a reservation: some schedule
      docks it and charges it, and unless it is being shut down it flies on. */
  lemma EmptyPastCheckDocks(c: Config, s: State, p: nat) returns (t: State)
    requires Reachable(c, s) && p < |s.ds| && Flat(s.ds[p]) && Approaching(s.ds[p])
    ensures Leads(c, s, t) && Saved(t, p) && t.ds[p].battery == 1
    ensures !s.ds[p].shutdown ==> t.ds[p].pc == Dispatch
  {
    Safety(c, s);
    hide Inv, Reachable, Leads, Approaching;
    var u := Dock(c, s, p);
    t := Recharge(c, u, p);
    LeadsTo(c, s, u, t);
  }

  lemma ReservedSplits(c: Config, d: Drone)
    requires LocalInv(c, d) && d.reserved
    ensures PastCheck(d.pc) <==> !BeforeCheck(d.pc)
  {
  }

  /** A drone flat in flight with a reservation can still be saved exactly when it has passed the
      power check of its current pass. */
  lemma EmptyDocksIff(c: Config, s: State, p: nat)
    requires Reachable(c, s) && p < |s.ds| && Flat(s.ds[p]) && s.ds[p].reserved
    ensures (exists t :: Leads(c, s, t) && Saved(t, p)) <==> PastCheck(s.ds[p].pc)
  {
    assert LocalInv(c, s.ds[p]) by { Safety(c, s); }
    ReservedSplits(c, s.ds[p]);
    hide Reachable, LocalInv, PastCheck, BeforeCheck;
    if PastCheck(s.ds[p].pc) {
      var t := EmptyPastCheckDocks(c, s, p);
    } else if t :| Leads(c, s, t) && Saved(t, p) {
      var sched :| Exec(c, s, sched) == t;
      EmptyBeforeCheckIsLost(c, s, sched, p);
      assert false;
    }
  }

  // ---- Configurations ----

  /** In state `s` drone `p` is flat in flight and from there `t` sees it charged in the base. */
  ghost predicate SavedFromEmpty(c: Config, s: State, t: State, p: nat) {
    Reachable(c, s) && p < |s.ds| && Flat(s.ds[p]) && Leads(c, s, t) && Saved(t, p)
  }

  /** With four drones or more a drone can reach the gate with a reservation and be flat there. */
  lemma EmptyAtGate(c: Config) returns (s: State)
    requires ValidConfig(c) && c.n >= 4
    ensures Reachable(c, s) && |s.ds| == 1 && Flat(s.ds[0]) && s.ds[0].reserved
    ensures s.ds[0].pc == GatePoll(In) && !s.ds[0].shutdown
  {
    var s0 := Launched(c, 1);
    Launch(c, 1);
    var s1 := FlyToGate(c, s0, 0);
    s := Drain(c, s1, 0, GatePoll(In), 19, 19);
    hide Leads;
    LeadsTo(c, Init(c), s0, s1);
    LeadsTo(c, Init(c), s1, s);
  }

  /** The rule that a drone flat in flight is lost fails, in some run, exactly when at least four
      drones are configured. */
  lemma EmptyInFlightSavedIff(c: Config)
    requires ValidConfig(c)
    ensures (exists s, t, p :: SavedFromEmpty(c, s, t, p)) <==> c.n >= 4
  {
    hide Reachable, Leads;
    if c.n >= 4 {
      var s := EmptyAtGate(c);
      var t := EmptyPastCheckDocks(c, s, 0);
      assert SavedFromEmpty(c, s, t, 0);
    } else if s, t, p :| SavedFromEmpty(c, s, t, p) {
      NothingSavedWhenClosed(c, s, t, p);
    }
  }

  lemma NothingSavedWhenClosed(c: Config, s: State, t: State, p: nat)
    requires Reachable(c, s) && c.n <= 3 && p < |s.ds| && Flat(s.ds[p]) && Leads(c, s, t)
    ensures !Saved(t, p)
  {
    var first :| Exec(c, Init(c), first) == s;
    SmallSwarmsNeverDock(c, first);
    var sched :| Exec(c, s, sched) == t;
    ClosedForever(c, s, sched);
  }

  // ---- After closing ----

  /** On a mission without a promised place and without charge. */
  predicate Sunk(d: Drone) {
    Grounded(d) && d.battery == 0
  }

  lemma SunkStep(c: Config, sh: Shared, p: int, d: Drone)
    requires LocalInv(c, d) && Sunk(d) && !d.pc.Exited? && Occupancy(sh.reg) >= 0 >= sh.reg.limit
    ensures var d' := StepDrone(sh, p, d).1;
            Sunk(d') && FlatRank(d'.pc) < FlatRank(d.pc)
  {
    hide Add, Delete, Update, Occupancy;
  }

  lemma SunkAction(c: Config, s: State, a: Action, p: nat)
    requires Inv(c, s) && s.sh.reg.limit <= 0 && p < |s.ds| && Sunk(s.ds[p])
    ensures p < |Apply(c, s, a).ds|
    ensures var d := s.ds[p];
            var d' := Apply(c, s, a).ds[p];
            && Sunk(d')
            && FlatRank(d'.pc) + One(SameProcess(a, DroneAct(p)) && Enabled(s, a)) <= FlatRank(d.pc)
  {
    assert LocalInv(c, s.ds[p]) && Occupancy(s.sh.reg) >= 0 by { hide SlotInv, IdInv, FreeIsComplement; }
    if a == DroneAct(p) && Enabled(s, a) {
      hide Inv, LocalInv, StepDrone, Sunk, FlatRank;
      SunkStep(c, s.sh, p, s.ds[p]);
    } else {
      SunkPerturb(c, s.ds[p]);
      hide Inv, LocalInv, Tick, Sunk, FlatRank;
      Bystander(c, s, a, p);
      hide Apply, Enabled;
    }
  }

  lemma SunkPerturb(c: Config, d: Drone)
    requires LocalInv(c, d) && Sunk(d)
    ensures Sunk(Tick(d)) && Tick(d).pc == d.pc
    ensures Sunk(d.(sigUsr1 := true)) && Sunk(d.(shutdown := true))
  {
  }

  lemma {:induction false} SunkRun(c: Config, s: State, sched: seq<Action>, p: nat)
    requires Reachable(c, s) && s.sh.reg.limit <= 0 && p < |s.ds| && Sunk(s.ds[p])
    ensures var t := Exec(c, s, sched);
            && p < |t.ds| && Sunk(t.ds[p])
            && OwnSteps(c, s, sched, DroneAct(p)) + FlatRank(t.ds[p].pc) <= FlatRank(s.ds[p].pc)
  {
    if sched != [] {
      hide Inv, Reachable, Apply, Sunk, Enabled, SameProcess, FlatRank, ClosedSince;
      var n := |sched| - 1;
      var u := Exec(c, s, sched[..n]);
      SunkRun(c, s, sched[..n], p);
      ReachableExec(c, s, sched[..n]);
      Safety(c, u);
      ClosedForever(c, s, sched[..n]);
      ClosedLimit(s, u);
      SunkAction(c, u, sched[n], p);
    }
  }

  /** Once the base is closed, a drone on a mission without a reservation whose battery is empty
      exits within thirteen steps of its own, wherever it stands and whatever is interleaved. */
  lemma EmptyAfterClosingExits(c: Config, s: State, sched: seq<Action>, p: nat)
    requires Reachable(c, s) && s.sh.reg.limit <= 0 && p < |s.ds| && Grounded(s.ds[p]) && s.ds[p].battery == 0
    ensures var t := Exec(c, s, sched);
            var k := OwnSteps(c, s, sched, DroneAct(p));
            && p < |t.ds| && Grounded(t.ds[p]) && t.ds[p].battery == 0
            && k + FlatRank(t.ds[p].pc) <= FlatRank(s.ds[p].pc) <= 13
            && (k == FlatRank(s.ds[p].pc) ==> t.ds[p].pc.Exited?)
  {
    hide Reachable, Exec, OwnSteps;
    SunkRun(c, s, sched, p);
  }
}
