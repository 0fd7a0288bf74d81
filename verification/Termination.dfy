/** Shutting down is bounded: how many steps a process can still take, in any interleaving. */
module Termination {
  import opened Counting
  import opened Registry
  import opened Drones
  import opened Swarm
  import opened Invariant
  import opened Preservation
  import opened Decisions
  import opened Closedown
  import opened Latch
  import opened Depletion

  /** Steps left for a drone that has been told to shut down. */
  function Rank(pc: Pc): nat {
    match pc
    case Exited(_) => 0
    case Closing(_) => 1
    case Top => 2
    case Commit(_) => 3
    case Unlock(Register) => 3
    case Body(Register) => 4
    case Lock(Register) => 5
    case Unlock(Remove(_)) => 2
    case Body(Remove(_)) => 3
    case Lock(Remove(_)) => 4
    case Unlock(Publish(_)) => 4
    case Body(Publish(_)) => 5
    case Lock(Publish(_)) => 6
    case InGate(_) => 7
    case GateRead(_) => 8
    case GatePoll(_) => 9
    case Unlock(Reserve) => 10
    case Body(Reserve) => 11
    case Lock(Reserve) => 12
    case ReturnRead => 13
    case LeaveRead => 13
    case Dispatch => 14
    case PowerRead => 15
    case SigRead => 16
    case SigTest => 17
  }

  lemma LoopLowersRank(d: Drone)
    requires d.shutdown && InLoop(d.pc)
    ensures Rank(LoopNext(d)) < Rank(d.pc)
  {
  }

  lemma StepLowersRank(sh: Shared, p: int, d: Drone)
    requires d.shutdown && !d.pc.Exited?
    ensures Rank(StepDrone(sh, p, d).1.pc) < Rank(d.pc)
  {
    hide StepDrone, LoopNext;
    StepPc(sh, p, d);
    if InLoop(d.pc) { LoopLowersRank(d); }
  }

  lemma StepKeepsShutdown(sh: Shared, p: int, d: Drone)
    ensures StepDrone(sh, p, d).1.shutdown == d.shutdown
  {
    hide StepDrone;
    StepKeeps(sh, p, d);
  }

  /** Other processes, ticks and signals leave the drone's program counter alone. */
  lemma OthersSpareDrone(c: Config, s: State, a: Action, p: nat)
    requires p < |s.ds|
    requires a == DroneAct(p) ==> !Enabled(s, a)
    ensures var s' := Apply(c, s, a);
            p < |s'.ds| && s'.ds[p].pc == s.ds[p].pc && (s.ds[p].shutdown ==> s'.ds[p].shutdown)
  {
    Bystander(c, s, a, p);
    hide Apply;
  }

  lemma OwnStepLowersRank(c: Config, s: State, p: nat)
    requires p < |s.ds| && s.ds[p].shutdown && Enabled(s, DroneAct(p))
    ensures var s' := Apply(c, s, DroneAct(p));
            p < |s'.ds| && s'.ds[p].shutdown && Rank(s'.ds[p].pc) < Rank(s.ds[p].pc)
  {
    hide StepDrone;
    StepLowersRank(s.sh, p, s.ds[p]);
    StepKeepsShutdown(s.sh, p, s.ds[p]);
  }

  lemma RankRange(pc: Pc)
    ensures Rank(pc) <= 17 && (Rank(pc) == 0 <==> pc.Exited?)
  {
  }

  lemma {:induction false} ShutdownRun(c: Config, s: State, sched: seq<Action>, p: nat)
    requires p < |s.ds| && s.ds[p].shutdown
    ensures var t := Exec(c, s, sched);
            && p < |t.ds| && t.ds[p].shutdown
            && OwnSteps(c, s, sched, DroneAct(p)) + Rank(t.ds[p].pc) <= Rank(s.ds[p].pc)
  {
    if sched != [] {
      hide Apply, Rank, Enabled;
      var n := |sched| - 1;
      ShutdownRun(c, s, sched[..n], p);
      var t := Exec(c, s, sched[..n]);
      if sched[n] == DroneAct(p) && Enabled(t, sched[n]) {
        OwnStepLowersRank(c, t, p);
      } else {
        OthersSpareDrone(c, t, sched[n], p);
      }
    }
  }

  /** A drone told to shut down takes at most `Rank` further steps of its own, never more than
      seventeen, whatever else is interleaved; once it has taken them all it has exited. */
  lemma ShutdownBounded(c: Config, s: State, sched: seq<Action>, p: nat)
    requires p < |s.ds| && s.ds[p].shutdown
    ensures var t := Exec(c, s, sched);
            var k := OwnSteps(c, s, sched, DroneAct(p));
            && p < |t.ds| && t.ds[p].shutdown
            && k + Rank(t.ds[p].pc) <= Rank(s.ds[p].pc) <= 17
            && (k == Rank(s.ds[p].pc) ==> t.ds[p].pc.Exited?)
  {
    hide Exec, OwnSteps, Rank;
    ShutdownRun(c, s, sched, p);
    RankRange(s.ds[p].pc);
    RankRange(Exec(c, s, sched).ds[p].pc);
  }

  // ---- A suicide order is looked at ----

  /** Steps until the drone has looked for a suicide order, or has ended. */
  function LookRank(pc: Pc): nat {
    if pc.SigTest? then 1 else Rank(pc)
  }

  lemma OrderLoop(d: Drone)
    requires d.sigUsr1 && InLoop(d.pc)
    ensures !StepLoop(d).sigUsr1 || LookRank(LoopNext(d)) < LookRank(d.pc)
  {
  }

  lemma OrderStep(sh: Shared, p: int, d: Drone)
    requires d.sigUsr1 && !d.pc.Exited?
    ensures var d' := StepDrone(sh, p, d).1; !d'.sigUsr1 || LookRank(d'.pc) < LookRank(d.pc)
  {
    StepPc(sh, p, d);
    if InLoop(d.pc) {
      hide StepLoop, LoopNext, LookRank;
      OrderLoop(d);
    } else {
      hide StepDrone;
    }
  }

  lemma OrderAction(c: Config, s: State, a: Action, p: nat)
    requires p < |s.ds| && s.ds[p].sigUsr1
    ensures p < |Apply(c, s, a).ds|
    ensures var d' := Apply(c, s, a).ds[p];
            || !d'.sigUsr1
            || LookRank(d'.pc) + One(SameProcess(a, DroneAct(p)) && Enabled(s, a)) <= LookRank(s.ds[p].pc)
  {
    hide LookRank;
    if a == DroneAct(p) && Enabled(s, a) {
      hide StepDrone;
      OrderStep(s.sh, p, s.ds[p]);
    } else {
      Bystander(c, s, a, p);
      hide Apply;
    }
  }

  /** At some moment of the schedule the order was no longer pending. */
  ghost predicate OrderSeen(c: Config, s: State, sched: seq<Action>, p: nat) {
    exists j :: 0 <= j <= |sched| && !OrderPending(Exec(c, s, sched[..j]), p)
  }

  predicate OrderPending(s: State, p: nat) {
    p < |s.ds| && s.ds[p].sigUsr1
  }

  lemma SeenLater(c: Config, s: State, sched: seq<Action>, p: nat)
    requires sched != []
    requires OrderSeen(c, s, sched[..|sched| - 1], p) || !OrderPending(Exec(c, s, sched), p)
    ensures OrderSeen(c, s, sched, p)
  {
    hide Exec, OrderPending;
    var n := |sched| - 1;
    assert sched[..|sched|] == sched;
    if OrderSeen(c, s, sched[..n], p) {
      var j :| 0 <= j <= n && !OrderPending(Exec(c, s, sched[..n][..j]), p);
      assert sched[..n][..j] == sched[..j];
    }
  }

  lemma {:induction false} OrderRun(c: Config, s: State, sched: seq<Action>, p: nat)
    requires OrderPending(s, p)
    ensures || OrderSeen(c, s, sched, p)
            || (&& OrderPending(Exec(c, s, sched), p)
                && OwnSteps(c, s, sched, DroneAct(p)) + LookRank(Exec(c, s, sched).ds[p].pc) <= LookRank(s.ds[p].pc))
  {
    if sched != [] {
      var n := |sched| - 1;
      var t := Exec(c, s, sched[..n]);
      hide OrderSeen, Apply, Enabled, SameProcess, LookRank;
      OrderRun(c, s, sched[..n], p);
      if OrderPending(t, p) { OrderAction(c, t, sched[n], p); }
      if OrderSeen(c, s, sched[..n], p) || !OrderPending(Exec(c, s, sched), p) { SeenLater(c, s, sched, p); }
    }
  }

  /** A suicide order is not forgotten: within sixteen steps of the drone itself, whatever else is
      interleaved, the drone has looked at it or has exited. */
  lemma OrderAnswered(c: Config, s: State, sched: seq<Action>, p: nat)
    requires p < |s.ds| && s.ds[p].sigUsr1
    ensures LookRank(s.ds[p].pc) <= 16
    ensures OwnSteps(c, s, sched, DroneAct(p)) >= LookRank(s.ds[p].pc) ==>
              || (exists j :: 0 <= j <= |sched| && !OrderPending(Exec(c, s, sched[..j]), p))
              || (var t := Exec(c, s, sched); p < |t.ds| && t.ds[p].pc.Exited?)
  {
    hide Exec, OwnSteps;
    OrderRun(c, s, sched, p);
  }

  // ---- The operator ----

  /** Steps left for an operator that has been told to shut down. */
  function OpRank(pc: OpPc): nat {
    match pc
    case ODone => 0
    case OTop => 1
    case Starting(_) => 2
    case OUnlock(Describe) => 2
    case OBody(Describe) => 3
    case OLock(Describe) => 4
    case OSpawn => 5
    case OUnlock(Check) => 6
    case OBody(Check) => 7
    case OLock(Check) => 8
    case OLatch => 9
    case OUnlock(Decrease) => 10
    case OBody(Decrease) => 11
    case OLock(Decrease) => 12
    case OSig2 => 13
    case OUnlock(Increase) => 14
    case OBody(Increase) => 15
    case OLock(Increase) => 16
    case OSig1 => 17
  }

  /** Drones spawned already plus the one that may still be. */
  function SpawnBound(s: State): int {
    |s.ds| + One(OpRank(s.op.pc) >= 5)
  }

  lemma OpLowersRank(c: Config, s: State)
    requires (s.op.shutdown || PastLatch(s.op)) && !s.op.pc.ODone?
    ensures OpRank(OpLocal(c, s).pc) < OpRank(s.op.pc)
    ensures s.op.shutdown ==> OpLocal(c, s).shutdown
    ensures PastLatch(s.op) ==> PastLatch(OpLocal(c, s))
  {
    hide Occupancy;
    if s.op.shutdown {
      assert OpLocal(c, s).shutdown && OpRank(OpLocal(c, s).pc) < OpRank(s.op.pc);
    }
  }

  lemma OpSpawns(c: Config, s: State)
    requires (s.op.shutdown || PastLatch(s.op)) && !s.op.pc.ODone?
    ensures SpawnBound(StepOp(c, s)) <= SpawnBound(s) && s.ds <= StepOp(c, s).ds
    ensures PastLatch(s.op) ==> var s' := OpOutput(c, s);
                                s'.sh.reg.limit == s.sh.reg.limit && s'.incs == s.incs && s'.decs == s.decs
  {
    OpLowersRank(c, s);
  }

  lemma OthersSpareOp(c: Config, s: State, a: Action)
    requires !(a.OpAct? && Enabled(s, a))
    ensures var s' := Apply(c, s, a);
            && s'.op.pc == s.op.pc && (s.op.shutdown ==> s'.op.shutdown) && (PastLatch(s.op) ==> PastLatch(s'.op))
            && |s'.ds| == |s.ds|
            && s'.sh.reg.limit == s.sh.reg.limit && s'.incs == s.incs && s'.decs == s.decs
  {
    if !a.OpAct? {
      OthersSparePc(c, s, a);
      StartsKept(c, s, a);
      hide Apply;
    }
  }

  lemma OpAction(c: Config, s: State, a: Action)
    requires s.op.shutdown || PastLatch(s.op)
    ensures var s' := Apply(c, s, a);
            && (s.op.shutdown ==> s'.op.shutdown) && SpawnBound(s') <= SpawnBound(s)
            && OpRank(s'.op.pc) + One(SameProcess(a, OpAct) && Enabled(s, a)) <= OpRank(s.op.pc)
            && (PastLatch(s.op) ==>
                  && PastLatch(s'.op)
                  && s'.sh.reg.limit == s.sh.reg.limit && s'.incs == s.incs && s'.decs == s.decs)
  {
    if a.OpAct? && Enabled(s, a) {
      OpLowersRank(c, s);
      OpSpawns(c, s);
      hide OpLocal, OpOutput, PastLatch, OpRank, SpawnBound;
    } else {
      OthersSpareOp(c, s, a);
      hide Apply, PastLatch, OpRank;
    }
  }

  lemma OpRankRange(pc: OpPc)
    ensures OpRank(pc) <= 17 && (OpRank(pc) == 0 <==> pc.ODone?)
  {
  }

  lemma {:induction false} OpRun(c: Config, s: State, sched: seq<Action>)
    requires s.op.shutdown || PastLatch(s.op)
    ensures var t := Exec(c, s, sched);
            && (s.op.shutdown ==> t.op.shutdown) && SpawnBound(t) <= SpawnBound(s)
            && OwnSteps(c, s, sched, OpAct) + OpRank(t.op.pc) <= OpRank(s.op.pc)
            && (PastLatch(s.op) ==>
                  && PastLatch(t.op)
                  && t.sh.reg.limit == s.sh.reg.limit && t.incs == s.incs && t.decs == s.decs)
  {
    hide Apply, Enabled, SameProcess, PastLatch, OpRank, SpawnBound;
    if sched != [] {
      OpRun(c, s, sched[..|sched| - 1]);
      OpAction(c, Exec(c, s, sched[..|sched| - 1]), sched[|sched| - 1]);
    }
  }

  lemma PastStart(op: Operator)
    requires PastLatch(op)
    ensures !op.pc.Starting?
  {
  }

  lemma SpawnsOne(s: State)
    ensures |s.ds| <= SpawnBound(s) <= |s.ds| + 1
  {
  }

  /** An operator told to shut down takes at most seventeen further steps of its own and spawns at
      most one more drone, whatever else is interleaved. */
  lemma OperatorShutdownBounded(c: Config, s: State, sched: seq<Action>)
    requires s.op.shutdown
    ensures var t := Exec(c, s, sched);
            var k := OwnSteps(c, s, sched, OpAct);
            && t.op.shutdown
            && k + OpRank(t.op.pc) <= OpRank(s.op.pc) <= 17
            && (k == OpRank(s.op.pc) ==> t.op.pc.ODone?)
            && |t.ds| <= SpawnBound(s) <= |s.ds| + 1
  {
    hide Exec, OwnSteps, OpRank, SpawnBound, PastLatch;
    OpRun(c, s, sched);
    OpRankRange(s.op.pc);
    OpRankRange(Exec(c, s, sched).op.pc);
    SpawnsOne(s);
    SpawnsOne(Exec(c, s, sched));
  }

  // ---- A closed base spawns nothing ----

  /** With the limit at or below zero the operator's check has found no room. */
  ghost predicate NoRoomSeen(s: State) {
    s.sh.reg.limit <= 0 && (s.op.pc == OUnlock(Check) || s.op.pc.OSpawn?) ==> !s.op.canCreate
  }

  lemma OpSeesNoRoom(c: Config, s: State)
    requires NoRoomSeen(s) && Occupancy(s.sh.reg) >= 0
    ensures NoRoomSeen(StepOp(c, s))
    ensures s.sh.reg.limit <= 0 && !s.op.pc.Starting? ==> StepOp(c, s).ds == s.ds && !StepOp(c, s).op.pc.Starting?
  {
  }

  lemma NoRoomAction(c: Config, s: State, a: Action)
    requires Inv(c, s) && NoRoomSeen(s)
    ensures var s' := Apply(c, s, a);
            && NoRoomSeen(s')
            && (s.sh.reg.limit <= 0 && !s.op.pc.Starting? ==> |s'.ds| == |s.ds| && !s'.op.pc.Starting?)
  {
    assert Occupancy(s.sh.reg) >= 0 by { hide LocalInv, SlotInv, IdInv, Consistent; }
    hide Inv;
    if a.OpAct? {
      OpSeesNoRoom(c, s);
      hide StepOp, NoRoomSeen;
    } else {
      OthersSparePc(c, s, a);
      StartsKept(c, s, a);
      hide Apply;
    }
  }

  lemma {:induction false} NoRoomRun(c: Config, sched: seq<Action>)
    requires ValidConfig(c)
    ensures NoRoomSeen(Run(c, sched))
  {
    if sched != [] {
      hide Inv, Apply, NoRoomSeen, Reachable;
      NoRoomRun(c, sched[..|sched| - 1]);
      ReachableRun(c, sched[..|sched| - 1]);
      Safety(c, Run(c, sched[..|sched| - 1]));
      NoRoomAction(c, Run(c, sched[..|sched| - 1]), sched[|sched| - 1]);
    }
  }

  /** Once the limit is at or below zero and the starting drones are out, no drone is ever spawned
      again: the latch, unlike a shutdown from outside, lets not even one more through. */
  lemma {:induction false} ClosedSpawnsNothing(c: Config, s: State, sched: seq<Action>)
    requires Reachable(c, s) && s.sh.reg.limit <= 0 && !s.op.pc.Starting?
    ensures |Exec(c, s, sched).ds| == |s.ds| && !Exec(c, s, sched).op.pc.Starting?
  {
    if sched != [] {
      var n := |sched| - 1;
      var t := Exec(c, s, sched[..n]);
      ClosedSpawnsNothing(c, s, sched[..n]);
      ReachableExec(c, s, sched[..n]);
      var all :| Exec(c, Init(c), all) == t;
      NoRoomRun(c, all);
      Safety(c, t);
      hide Inv, Apply, NoRoomSeen, Reachable, ClosedSince;
      ClosedForever(c, s, sched[..n]);
      ClosedLimit(s, t);
      NoRoomAction(c, t, sched[n]);
    }
  }

  /** Past the latch the operator ends within ten more steps of its own and processes no further
      signal, in any interleaving. It spawns nothing more when the limit has reached zero, and at
      most one more drone when it was shut down from outside above zero. */
  lemma LatchEndsOperator(c: Config, s: State, sched: seq<Action>)
    requires PastLatch(s.op)
    ensures var t := Exec(c, s, sched);
            && PastLatch(t.op)
            && OwnSteps(c, s, sched, OpAct) + OpRank(t.op.pc) <= OpRank(s.op.pc) <= 10
            && (OwnSteps(c, s, sched, OpAct) == OpRank(s.op.pc) ==> t.op.pc.ODone?)
            && t.sh.reg.limit == s.sh.reg.limit && t.incs == s.incs && t.decs == s.decs
            && |t.ds| <= |s.ds| + 1
            && (Reachable(c, s) && s.sh.reg.limit <= 0 ==> |t.ds| == |s.ds|)
  {
    assert OpRank(s.op.pc) <= 10;
    hide Exec, OwnSteps, Reachable, OpRank, SpawnBound, PastLatch;
    OpRun(c, s, sched);
    OpRankRange(Exec(c, s, sched).op.pc);
    SpawnsOne(s);
    SpawnsOne(Exec(c, s, sched));
    if Reachable(c, s) && s.sh.reg.limit <= 0 {
      assert !s.op.pc.Starting? by { PastStart(s.op); }
      ClosedSpawnsNothing(c, s, sched);
    }
  }

  // ---- The commander ----

  /** Steps left for a commander that has been told to shut down. */
  function CmdRank(pc: CmdPc): nat {
    match pc
    case CDone => 0
    case CLoop(ph) => PhaseRank(ph)
    case CWait(ph) => PhaseRank(ph)
    case CAct(ph) => if ph.PKill? then 10 else PhaseRank(ph) + 1
    case CSleep(ph) => if ph.PKill? then 11 else PhaseRank(ph) + 2
    case CSubtract => 2
    case CSuicide(_) => 6
    case CUnlock(sec) => SectionRank(sec)
    case CBody(sec) => SectionRank(sec) + 1
    case CLock(sec) => SectionRank(sec) + 2
  }

  function PhaseRank(ph: Phase): nat {
    match ph
    case PIncrease(_) => 6
    case PKill(_) => 5
    case PDecrease => 1
  }

  function SectionRank(sec: CmdSection): nat {
    match sec
    case Pick(_) => 7
    case ReadFirst => 2
    case ReadAgain => 3
  }

  /** From here on a commander that is shutting down has only one way to go. */
  predicate Straight(pc: CmdPc) {
    match pc
    case CSleep(_) => false
    case CSuicide(_) => false
    case CAct(ph) => !ph.PKill?
    case CLock(sec) => !sec.Pick?
    case CBody(sec) => !sec.Pick?
    case CUnlock(sec) => !sec.Pick?
    case _ => true
  }

  lemma CmdStaysStraight(cmd: Commander, interrupted: bool)
    requires cmd.shutdown && !cmd.pc.CDone? && Straight(cmd.pc)
    ensures Straight(CmdNext(cmd, interrupted)) && CmdRank(CmdNext(cmd, interrupted)) == CmdRank(cmd.pc) - 1
  {
  }

  lemma CmdLowersRank(cmd: Commander, interrupted: bool)
    requires cmd.shutdown && !cmd.pc.CDone?
    ensures CmdRank(CmdNext(cmd, interrupted)) < CmdRank(cmd.pc)
  {
  }

  lemma CmdAction(c: Config, s: State, a: Action)
    requires s.cmd.shutdown
    ensures var s' := Apply(c, s, a);
            && s'.cmd.shutdown
            && CmdRank(s'.cmd.pc) + One(a.CmdAct? && Enabled(s, a)) <= CmdRank(s.cmd.pc)
            && (Straight(s.cmd.pc) ==>
                  && Straight(s'.cmd.pc)
                  && CmdRank(s'.cmd.pc) + One(a.CmdAct? && Enabled(s, a)) == CmdRank(s.cmd.pc))
  {
    hide StepDrone, OpLocal, CmdNext, CmdRank, Straight;
    if a.CmdAct? && Enabled(s, a) {
      CmdLowersRank(s.cmd, a.interrupted);
      if Straight(s.cmd.pc) { CmdStaysStraight(s.cmd, a.interrupted); }
    }
  }

  lemma {:induction false} CmdRun(c: Config, s: State, sched: seq<Action>)
    requires s.cmd.shutdown
    ensures var t := Exec(c, s, sched);
            var k := OwnSteps(c, s, sched, CmdAct(false));
            && t.cmd.shutdown && k + CmdRank(t.cmd.pc) <= CmdRank(s.cmd.pc)
            && (Straight(s.cmd.pc) ==> Straight(t.cmd.pc) && k + CmdRank(t.cmd.pc) == CmdRank(s.cmd.pc))
  {
    if sched != [] {
      hide Apply, Enabled, CmdRank, Straight;
      CmdRun(c, s, sched[..|sched| - 1]);
      CmdAction(c, Exec(c, s, sched[..|sched| - 1]), sched[|sched| - 1]);
    }
  }

  lemma CmdRankRange(pc: CmdPc)
    ensures CmdRank(pc) <= 11 && (CmdRank(pc) == 0 <==> pc.CDone?)
  {
  }

  /** A commander told to shut down takes at most eleven further steps of its own, whatever else is
      interleaved; once it has taken them all it is done. Unless it is asleep or in the middle of an
      attack the number is exact: it still goes through the rest of its phases. */
  lemma CommanderShutdownBounded(c: Config, s: State, sched: seq<Action>)
    requires s.cmd.shutdown
    ensures var t := Exec(c, s, sched);
            var k := OwnSteps(c, s, sched, CmdAct(false));
            && t.cmd.shutdown
            && k + CmdRank(t.cmd.pc) <= CmdRank(s.cmd.pc) <= 11
            && (k == CmdRank(s.cmd.pc) ==> t.cmd.pc.CDone?)
            && (Straight(s.cmd.pc) ==> (t.cmd.pc.CDone? <==> k == CmdRank(s.cmd.pc)))
  {
    hide Exec, OwnSteps, CmdRank, Straight;
    CmdRun(c, s, sched);
    CmdRankRange(s.cmd.pc);
    CmdRankRange(Exec(c, s, sched).cmd.pc);
  }

  // ---- Everybody ----

  /** The steps the first `m` drones take between them while `sched` runs from `s`. */
  function DroneSteps(c: Config, s: State, sched: seq<Action>, m: nat): nat {
    if m == 0 then 0 else DroneSteps(c, s, sched, m - 1) + OwnSteps(c, s, sched, DroneAct(m - 1))
  }

  /** The sum of the ranks of the first `m` drones. */
  function Ranks(ds: seq<Drone>, rank: Pc -> nat, m: nat): nat
    requires m <= |ds|
  {
    if m == 0 then 0 else Ranks(ds, rank, m - 1) + rank(ds[m - 1].pc)
  }

  lemma RanksStep(c: Config, s: State, sched: seq<Action>, rank: Pc -> nat, m: nat)
    requires m <= |s.ds|
    ensures m > 0 ==>
              && DroneSteps(c, s, sched, m)
                 == DroneSteps(c, s, sched, m - 1) + OwnSteps(c, s, sched, DroneAct(m - 1))
              && Ranks(s.ds, rank, m) == Ranks(s.ds, rank, m - 1) + rank(s.ds[m - 1].pc)
    ensures m == 0 ==> DroneSteps(c, s, sched, m) == Ranks(s.ds, rank, m) == 0 && ExitedUpTo(Exec(c, s, sched), m)
  {
  }

  lemma {:induction false} ToldDrones(c: Config, s: State, sched: seq<Action>, m: nat)
    requires m <= |s.ds| && forall p :: 0 <= p < m ==> s.ds[p].shutdown
    ensures var k := DroneSteps(c, s, sched, m);
            && k <= Ranks(s.ds, Rank, m) <= 17 * m
            && (k == Ranks(s.ds, Rank, m) ==> ExitedUpTo(Exec(c, s, sched), m))
  {
    hide Exec, OwnSteps, Rank, DroneSteps, Ranks, ExitedUpTo;
    RanksStep(c, s, sched, Rank, m);
    if m > 0 {
      ToldDrones(c, s, sched, m - 1);
      ShutdownBounded(c, s, sched, m - 1);
      ExitedOneMore(Exec(c, s, sched), m);
    }
  }

  lemma ExitedOneMore(s: State, m: nat)
    requires 0 < m <= |s.ds|
    ensures ExitedUpTo(s, m) <==> ExitedUpTo(s, m - 1) && s.ds[m - 1].pc.Exited?
  {
  }

  ghost predicate ExitedUpTo(s: State, m: nat) {
    m <= |s.ds| && forall p :: 0 <= p < m ==> s.ds[p].pc.Exited?
  }

  /** After a global shutdown request all processes present take at most 17 steps per drone and 28
      more between them, whatever the schedule; once they have taken as many as their ranks allow,
      every one of them has ended. At most one more drone is spawned meanwhile. */
  lemma GlobalShutdownBounded(c: Config, s: State, sched: seq<Action>)
    requires s.op.shutdown && s.cmd.shutdown && forall p :: 0 <= p < |s.ds| ==> s.ds[p].shutdown
    ensures var t := Exec(c, s, sched);
            var m := |s.ds|;
            var steps := DroneSteps(c, s, sched, m) + OwnSteps(c, s, sched, OpAct)
                         + OwnSteps(c, s, sched, CmdAct(false));
            var ranks := Ranks(s.ds, Rank, m) + OpRank(s.op.pc) + CmdRank(s.cmd.pc);
            && steps <= ranks <= 17 * m + 28
            && m <= |t.ds| <= m + 1
            && (steps == ranks ==>
                  && t.op.pc.ODone? && t.cmd.pc.CDone?
                  && forall p :: 0 <= p < m ==> t.ds[p].pc.Exited?)
  {
    hide Exec, OwnSteps, DroneSteps, Ranks, Rank, OpRank, CmdRank;
    ToldDrones(c, s, sched, |s.ds|);
    if s.ds != [] { ShutdownBounded(c, s, sched, |s.ds| - 1); }
    OperatorShutdownBounded(c, s, sched);
    CommanderShutdownBounded(c, s, sched);
  }

  /** Has exited, or flies its last metres: no promised place and no charge. */
  predicate Drained(d: Drone) {
    d.pc.Exited? || Sunk(d)
  }

  lemma DrainedExits(c: Config, s: State, sched: seq<Action>, p: nat)
    requires Reachable(c, s) && s.sh.reg.limit <= 0 && p < |s.ds| && Drained(s.ds[p])
    ensures var t := Exec(c, s, sched);
            var k := OwnSteps(c, s, sched, DroneAct(p));
            && p < |t.ds| && k <= FlatRank(s.ds[p].pc) <= 13
            && (k == FlatRank(s.ds[p].pc) ==> t.ds[p].pc.Exited?)
  {
    hide Reachable, Exec, OwnSteps;
    if s.ds[p].pc.Exited? { ExitedStays(c, s, sched, p); } else { EmptyAfterClosingExits(c, s, sched, p); }
  }

  lemma {:induction false} DrainedDrones(c: Config, s: State, sched: seq<Action>, m: nat)
    requires Reachable(c, s) && s.sh.reg.limit <= 0
    requires m <= |s.ds| && forall p :: 0 <= p < m ==> Drained(s.ds[p])
    ensures var k := DroneSteps(c, s, sched, m);
            && k <= Ranks(s.ds, FlatRank, m) <= 13 * m
            && (k == Ranks(s.ds, FlatRank, m) ==> ExitedUpTo(Exec(c, s, sched), m))
  {
    hide Reachable, Exec, OwnSteps, FlatRank, Drained, DroneSteps, Ranks, ExitedUpTo;
    RanksStep(c, s, sched, FlatRank, m);
    if m > 0 {
      DrainedDrones(c, s, sched, m - 1);
      DrainedExits(c, s, sched, m - 1);
      ExitedOneMore(Exec(c, s, sched), m);
    }
  }

  /** The simulation ends once the limit has reached zero and every drone has drained: from then on
      no drone is spawned, and operator and drones together take at most 13 steps per drone and ten
      more, after which all of them have ended, with no shutdown request needed. */
  lemma DrainedSwarmEnds(c: Config, s: State, sched: seq<Action>)
    requires Reachable(c, s) && s.sh.reg.limit <= 0 && PastLatch(s.op)
    requires forall p :: 0 <= p < |s.ds| ==> s.ds[p].pc.Exited? || (Grounded(s.ds[p]) && s.ds[p].battery == 0)
    ensures var t := Exec(c, s, sched);
            var m := |s.ds|;
            var steps := DroneSteps(c, s, sched, m) + OwnSteps(c, s, sched, OpAct);
            var ranks := Ranks(s.ds, FlatRank, m) + OpRank(s.op.pc);
            && |t.ds| == m && steps <= ranks <= 13 * m + 10
            && (steps == ranks ==> t.op.pc.ODone? && forall p :: 0 <= p < m ==> t.ds[p].pc.Exited?)
  {
    hide Reachable, Exec, OwnSteps, DroneSteps, Ranks, FlatRank, OpRank;
    DrainedDrones(c, s, sched, |s.ds|);
    LatchEndsOperator(c, s, sched);
  }
}
