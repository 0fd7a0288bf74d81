/** Mutual exclusion, the gate, and freedom from deadlock. */
module Progress {
  import opened Counting
  import opened Registry
  import opened Drones
  import opened Swarm
  import opened Invariant
  import opened Preservation

  /** The process that takes action `a` holds the data semaphore. */
  predicate Holder(s: State, a: Action) {
    match a
    case DroneAct(p) => p < |s.ds| && HoldsSem(s.ds[p])
    case OpAct => s.op.semAdj > 0
    case CmdAct(_) => s.cmd.semAdj > 0
    case _ => false
  }

  // ---- The semaphore ----

  /** At most one process holds the data semaphore, and its value says whether one does. The
      kernel's undo is included: a refused drone exits without unlocking. */
  lemma MutualExclusion(c: Config, s: State, a: Action, b: Action)
    requires Reachable(c, s) && Holder(s, a)
    ensures s.sh.sem == 0
    ensures Holder(s, b) ==> SameProcess(a, b)
  {
    hide LocalInv, SlotInv, IdInv, Consistent;
    Safety(c, s);
    if a.DroneAct? { CountPositive(s.ds, HoldsSem, a.p); }
    if Holder(s, b) && b.DroneAct? {
      CountPositive(s.ds, HoldsSem, b.p);
      if a.DroneAct? && a.p != b.p {
        CountPair(s.ds, HoldsSem, if a.p < b.p then a.p else b.p, if a.p < b.p then b.p else a.p);
      }
    }
  }

  /** A taken semaphore has a holder. */
  lemma HolderExists(c: Config, s: State) returns (a: Action)
    requires Inv(c, s) && s.sh.sem == 0
    ensures Holder(s, a)
  {
    hide LocalInv, SlotInv, IdInv, Consistent;
    if s.op.semAdj > 0 {
      a := OpAct;
    } else if s.cmd.semAdj > 0 {
      a := CmdAct(false);
    } else {
      var p := CountWitness(s.ds, HoldsSem);
      a := DroneAct(p);
    }
  }

  lemma OutsideBodyKeepsRegistry(sh: Shared, p: int, d: Drone)
    ensures d.pc.Body? || StepDrone(sh, p, d).0.reg == sh.reg
  {
  }

  /** Only the holder of the semaphore ever changes the registry. */
  lemma OnlyHolderWrites(c: Config, s: State, a: Action)
    requires Reachable(c, s) && Apply(c, s, a).sh.reg != s.sh.reg
    ensures Holder(s, a)
  {
    hide SlotInv, IdInv, CountInv, Consistent;
    Safety(c, s);
    match a
    case DroneAct(p) =>
      assert p < |s.ds| && LocalInv(c, s.ds[p]);
      OutsideBodyKeepsRegistry(s.sh, p, s.ds[p]);
    case _ =>
  }

  /** A drone's critical section takes two more steps of its own, none of them a wait. */
  lemma DroneReleases(c: Config, s: State, p: nat)
    requires ValidConfig(c) && Inv(c, s) && p < |s.ds| && HoldsSem(s.ds[p])
    ensures Enabled(s, DroneAct(p))
    ensures !HoldsToken(s.ds[p])
    ensures var s1 := Apply(c, s, DroneAct(p));
            s1.sh.sem > s.sh.sem || Apply(c, s1, DroneAct(p)).sh.sem > s.sh.sem
  {
    hide SlotInv, IdInv, Consistent;
    var d := s.ds[p];
    assert LocalInv(c, d);
    var (sh1, d1) := StepDrone(s.sh, p, d);
    if d.pc.Body? {
      BodyStaysInside(s.sh, p, d);
      var s1 := Apply(c, s, DroneAct(p));
      assert s1.ds[p] == d1 && s1.sh == sh1;
      ReleaseGivesBack(sh1, p, d1);
      assert Apply(c, s1, DroneAct(p)).sh == StepDrone(sh1, p, d1).0;
    } else {
      ReleaseGivesBack(s.sh, p, d);
    }
  }

  lemma BodyStaysInside(sh: Shared, p: nat, d: Drone)
    requires d.pc.Body?
    ensures var (sh1, d1) := StepDrone(sh, p, d);
            sh1.sem == sh.sem && d1.semAdj == d.semAdj && (d1.pc.Unlock? || d1.pc == Closing(Refused))
  {
    hide SectionBody;
    SectionFrame(sh, p, d, d.pc.sec);
  }

  lemma ReleaseGivesBack(sh: Shared, p: nat, d: Drone)
    requires d.semAdj == 1 && (d.pc.Unlock? || d.pc.Closing?)
    ensures Ready(sh, d) && StepDrone(sh, p, d).0.sem == sh.sem + 1
  {
  }

  /** Whoever holds the semaphore can move, holds no gate token, and gives the semaphore back
      within two of its own steps. */
  lemma HolderReleases(c: Config, s: State, a: Action)
    requires ValidConfig(c) && Inv(c, s) && Holder(s, a)
    ensures Enabled(s, a)
    ensures a.DroneAct? ==> !HoldsToken(s.ds[a.p])
    ensures var s1 := Apply(c, s, a);
            s1.sh.sem > s.sh.sem || Apply(c, s1, a).sh.sem > s.sh.sem
  {
    hide SwarmInv;
    match a
    case DroneAct(p) => DroneReleases(c, s, p);
    case _ =>
  }

  // ---- The gate ----

  /** Tokens in the FIFO and tokens in drones' hands are always two, and a token in hand means
      being inside the gate without the semaphore. */
  lemma GateHoldsTwo(c: Config, s: State)
    requires Reachable(c, s)
    ensures s.sh.tokens + |Positions(s.ds, HoldsToken)| == 2
    ensures 0 <= s.sh.tokens <= 2
    ensures forall p :: 0 <= p < |s.ds| ==>
              (HoldsToken(s.ds[p]) <==> s.ds[p].pc.InGate?) && !(HoldsToken(s.ds[p]) && HoldsSem(s.ds[p]))
  {
    hide LocalInv, SlotInv, IdInv, Consistent;
    Safety(c, s);
    hide Reachable, HoldsToken, HoldsSem;
    CountIsCardinality(s.ds, HoldsToken);
    forall p | 0 <= p < |s.ds|
      ensures (HoldsToken(s.ds[p]) <==> s.ds[p].pc.InGate?) && !(HoldsToken(s.ds[p]) && HoldsSem(s.ds[p]))
    {
      TokenInGate(c, s.ds[p]);
    }
  }

  lemma TokenInGate(c: Config, d: Drone)
    requires LocalInv(c, d)
    ensures (HoldsToken(d) <==> d.pc.InGate?) && !(HoldsToken(d) && HoldsSem(d))
  {
  }

  /** An empty FIFO means two different drones are in the gate. */
  lemma EmptyGateHasTwo(c: Config, s: State) returns (q: nat, r: nat)
    requires Inv(c, s) && s.sh.tokens == 0
    ensures q < r < |s.ds| && s.ds[q].pc.InGate? && s.ds[r].pc.InGate?
  {
    hide SlotInv, IdInv, Consistent;
    hide LocalInv;
    q, r := TwoWitnesses(s.ds, HoldsToken);
    TokenInGate(c, s.ds[q]);
    TokenInGate(c, s.ds[r]);
  }

  lemma GateDroneReleases(c: Config, s: State, q: nat)
    requires q < |s.ds| && s.ds[q].pc.InGate?
    ensures Enabled(s, DroneAct(q)) && Apply(c, s, DroneAct(q)).sh.tokens == s.sh.tokens + 1
  {
  }

  lemma GateFreesReader(c: Config, s: State, q: nat, p: nat)
    requires q < |s.ds| && s.ds[q].pc.InGate? && p < |s.ds| && s.ds[p].pc.GateRead? && s.sh.tokens >= 0
    ensures Enabled(s, DroneAct(q)) && Enabled(Apply(c, s, DroneAct(q)), DroneAct(p))
  {
    GateDroneReleases(c, s, q);
  }

  /** A drone that saw a token in `poll` but finds the FIFO empty waits on exactly two other
      drones, each of which can move; the next step of either lets the waiting drone move. */
  lemma GateWaitEnds(c: Config, s: State, p: nat) returns (q: nat, r: nat)
    requires Reachable(c, s) && p < |s.ds| && s.ds[p].pc.GateRead? && s.sh.tokens == 0
    ensures q < r < |s.ds| && q != p && r != p
    ensures Positions(s.ds, HoldsToken) == {q, r}
    ensures Enabled(s, DroneAct(q)) && Enabled(Apply(c, s, DroneAct(q)), DroneAct(p))
    ensures Enabled(s, DroneAct(r)) && Enabled(Apply(c, s, DroneAct(r)), DroneAct(p))
  {
    hide Inv, Reachable;
    Safety(c, s);
    GateHoldsTwo(c, s);
    q, r := EmptyGateHasTwo(c, s);
    GateFreesReader(c, s, q, p);
    GateFreesReader(c, s, r, p);
    hide Apply, Enabled;
    forall k | k in Positions(s.ds, HoldsToken) ensures k == q || k == r {
      if k != q && k != r {
        CountIsCardinality(s.ds, HoldsToken);
        CountTriple(s.ds, HoldsToken, k, q, r);
      }
    }
  }

  // ---- Deadlock ----

  /** Whether the process of `a` has work left. */
  predicate Unfinished(s: State, a: Action) {
    match a
    case DroneAct(p) => p < |s.ds| && !s.ds[p].pc.Exited?
    case OpAct => !s.op.pc.ODone?
    case CmdAct(_) => !s.cmd.pc.CDone?
    case _ => false
  }

  predicate AwaitsSem(s: State, a: Action) {
    match a
    case DroneAct(p) => p < |s.ds| && s.ds[p].pc.Lock?
    case OpAct => s.op.pc.OLock?
    case CmdAct(_) => s.cmd.pc.CLock?
    case _ => false
  }

  /** A process that cannot move waits for the semaphore or for a gate token, and then another
      process holds what it waits for and can move. Nobody holding either resource waits, so
      there is no circular wait and the system never deadlocks. */
  lemma NoDeadlock(c: Config, s: State, a: Action) returns (b: Action)
    requires Reachable(c, s) && Unfinished(s, a)
    ensures Enabled(s, b)
    ensures Enabled(s, a) ==> b == a
    ensures !Enabled(s, a) && AwaitsSem(s, a) ==> Holder(s, b) && !SameProcess(a, b)
    ensures !Enabled(s, a) && !AwaitsSem(s, a) ==>
              a.DroneAct? && s.ds[a.p].pc.GateRead? && b.DroneAct? && HoldsToken(s.ds[b.p]) && b != a
  {
    if Enabled(s, a) {
      b := a;
    } else {
      Safety(c, s);
      assert s.sh.sem >= 0 && s.sh.tokens >= 0 by { hide LocalInv, SlotInv, IdInv, Consistent; }
      hide Inv, Reachable, Apply;
      if AwaitsSem(s, a) {
        b := HolderExists(c, s);
        HolderReleases(c, s, b);
      } else {
        var q, r := EmptyGateHasTwo(c, s);
        GateHoldsTwo(c, s);
        b := DroneAct(q);
      }
    }
  }

  /** Somebody can always move until everybody is done. */
  lemma SystemNeverStuck(c: Config, s: State)
    requires Reachable(c, s)
    ensures (exists a :: Enabled(s, a)) <==> (exists a :: Unfinished(s, a))
  {
    if a :| Unfinished(s, a) {
      var b := NoDeadlock(c, s, a);
    }
    if a :| Enabled(s, a) {
      hide Reachable;
      assert Unfinished(s, a);
    }
  }

  // ---- The operator's advisory check ----

  /** The room the operator saw is still what the registry says. */
  ghost predicate CheckCurrent(s: State) {
    s.op.pc == OUnlock(Check) ==> s.op.canCreate == (Occupancy(s.sh.reg) < s.sh.reg.limit)
  }

  lemma OthersSpareCheck(c: Config, s: State, a: Action)
    requires !a.OpAct?
    ensures Apply(c, s, a).op.pc == s.op.pc && Apply(c, s, a).op.canCreate == s.op.canCreate
  {
  }

  lemma CheckStep(c: Config, s: State, a: Action)
    requires Reachable(c, s) && CheckCurrent(s)
    ensures CheckCurrent(Apply(c, s, a))
  {
    hide Reachable;
    if !a.OpAct? {
      OthersSpareCheck(c, s, a);
      hide Apply;
      if s.op.pc == OUnlock(Check) && Apply(c, s, a).sh.reg != s.sh.reg {
        OnlyHolderWrites(c, s, a);
        assert Holder(s, OpAct) by { hide SwarmInv; Safety(c, s); }
        MutualExclusion(c, s, OpAct, a);
        assert false;
      }
    }
  }

  /** While the operator still holds the semaphore its advisory check is exact. The spawn that
      follows happens after the release, when it may be stale; the drone decides again itself. */
  lemma {:induction false} AdvisoryCheck(c: Config, sched: seq<Action>)
    requires ValidConfig(c)
    ensures CheckCurrent(Run(c, sched))
  {
    if sched != [] {
      var n := |sched| - 1;
      AdvisoryCheck(c, sched[..n]);
      ReachableRun(c, sched[..n]);
      CheckStep(c, Run(c, sched[..n]), sched[n]);
      hide Apply;
    }
  }
}
