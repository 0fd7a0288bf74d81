/** The operator's limit and its shutdown latch over whole runs, and the commander's share in them. */
module Latch {
  import opened Counting
  import opened Limit
  import opened Drones
  import opened Swarm
  import opened Invariant
  import opened Preservation
  import opened Capacity

  /** The operator has seen the limit at or below zero and can only run to its end. */
  predicate PastLatch(op: Operator) {
    match op.pc
    case OUnlock(Decrease) => op.newMax <= 0
    case OLatch => op.newMax <= 0
    case OLock(sec) => op.shutdown && (sec.Check? || sec.Describe?)
    case OBody(sec) => op.shutdown && (sec.Check? || sec.Describe?)
    case OUnlock(sec) => op.shutdown && (sec.Check? || sec.Describe?)
    case OSpawn => op.shutdown
    case OTop => op.shutdown
    case ODone => true
    case _ => false
  }

  /** A signal of this kind has arrived and is still to be processed: seen already, or flagged. */
  function Unprocessed(op: Operator, sec: Section): int {
    One(if sec.Increase? then op.sig1 else op.sig2) + One(op.pc == OLock(sec) || op.pc == OBody(sec))
  }

  /** A limit at or below zero that a decrease has led to is latched, and one that the
      configuration starts with stays closed and sees at most one decrease. */
  ghost predicate ClosedIsLatched(c: Config, s: State)
    requires ValidConfig(c)
  {
    && (s.sh.reg.limit <= 0 && (StartLimit(c.n) > 0 || s.decs >= 1) ==> PastLatch(s.op))
    && (StartLimit(c.n) <= 0 ==> s.sh.reg.limit <= 0 && s.decs <= 1)
  }

  /** Each increase can double a negative limit once. */
  ghost predicate BoundedBelow(s: State) {
    s.sh.reg.limit + Pow2(s.incs) >= 0
  }

  /** Nothing is processed that was not sent. */
  ghost predicate SentFirst(s: State) {
    && s.incs + Unprocessed(s.op, Increase) <= s.adds
    && s.decs + Unprocessed(s.op, Decrease) <= s.subs
  }

  ghost predicate LatchInv(c: Config, s: State)
    requires ValidConfig(c)
  {
    ClosedIsLatched(c, s) && BoundedBelow(s) && SentFirst(s)
  }

  /** What every action but an operator step leaves of the operator. */
  lemma OthersSparePc(c: Config, s: State, a: Action)
    requires !a.OpAct?
    ensures var s' := Apply(c, s, a);
            && s'.op.pc == s.op.pc && s'.op.newMax == s.op.newMax && s'.op.canCreate == s.op.canCreate
            && s'.op.shutdown == (s.op.shutdown || a.OpShutdown?)
            && s'.sh.reg.limit == s.sh.reg.limit && s'.incs == s.incs && s'.decs == s.decs
            && (s.op.sig1 ==> s'.op.sig1) && (s.op.sig2 ==> s'.op.sig2)
            && (s'.op.sig1 == s.op.sig1 || s'.adds == s.adds + 1) && s'.adds >= s.adds
            && (s'.op.sig2 == s.op.sig2 || s'.subs == s.subs + 1) && s'.subs >= s.subs
  {
    if a.DroneAct? && a.p < |s.ds| { DroneKeepsLimit(s.sh, a.p, s.ds[a.p]); }
  }

  lemma OpKeepsLatched(c: Config, s: State)
    requires ValidConfig(c) && OpInv(c, s.sh.reg, s.op) && ClosedIsLatched(c, s)
    ensures ClosedIsLatched(c, StepOp(c, s))
  {
    OpMovesLimit(c, s);
    hide OpOutput;
  }

  lemma OpMovesLimit(c: Config, s: State)
    ensures var s' := OpOutput(c, s);
            match s.op.pc
            case OBody(Increase) =>
              s'.sh.reg.limit == Doubled(s.sh.reg.limit, c.n) && s'.incs == s.incs + 1 && s'.decs == s.decs
            case OBody(Decrease) =>
              s'.sh.reg.limit == Halved(s.sh.reg.limit) && s'.incs == s.incs && s'.decs == s.decs + 1
            case _ => s'.sh.reg.limit == s.sh.reg.limit && s'.incs == s.incs && s'.decs == s.decs
    ensures OpOutput(c, s).adds == s.adds && OpOutput(c, s).subs == s.subs
  {
  }

  lemma OpKeepsBound(c: Config, s: State)
    requires ValidConfig(c) && BoundedBelow(s)
    ensures BoundedBelow(StepOp(c, s))
  {
    OpMovesLimit(c, s);
    DoubledBound(s.sh.reg.limit, c.n, s.incs);
    HalvedBound(s.sh.reg.limit, s.incs);
    hide OpOutput, OpLocal, Doubled, Halved, Pow2;
  }

  lemma OpKeepsSent(c: Config, s: State)
    requires SentFirst(s)
    ensures SentFirst(StepOp(c, s))
  {
    OpMovesLimit(c, s);
    hide OpOutput, Doubled, Halved;
  }

  lemma OpKeepsLatchInv(c: Config, s: State)
    requires ValidConfig(c) && OpInv(c, s.sh.reg, s.op) && LatchInv(c, s)
    ensures LatchInv(c, StepOp(c, s))
  {
    hide StepOp, OpInv, ClosedIsLatched, BoundedBelow, SentFirst;
    OpKeepsLatched(c, s);
    OpKeepsBound(c, s);
    OpKeepsSent(c, s);
  }

  lemma ApplyKeepsLatchInv(c: Config, s: State, a: Action)
    requires ValidConfig(c) && Inv(c, s) && LatchInv(c, s)
    ensures LatchInv(c, Apply(c, s, a))
  {
    hide SwarmInv, StepOp;
    if a.OpAct? {
      OpKeepsLatchInv(c, s);
    } else {
      OthersSparePc(c, s, a);
      hide Apply, Inv;
    }
  }

  lemma {:induction false} LatchRun(c: Config, sched: seq<Action>)
    requires ValidConfig(c)
    ensures Inv(c, Run(c, sched)) && LatchInv(c, Run(c, sched))
  {
    hide Inv, Apply;
    InitInv(c);
    ExecKeepsInv(c, Init(c), sched);
    if sched != [] {
      LatchRun(c, sched[..|sched| - 1]);
      ApplyKeepsLatchInv(c, Run(c, sched[..|sched| - 1]), sched[|sched| - 1]);
    }
  }

  lemma Latched(c: Config, s: State)
    requires Reachable(c, s)
    ensures Inv(c, s) && LatchInv(c, s)
  {
    hide Inv, LatchInv;
    var sched :| Exec(c, Init(c), sched) == s;
    LatchRun(c, sched);
  }

  // ---- Why the operator ends ----

  /** Nobody asked, so the limit did. */
  ghost predicate EndsJustified(s: State, asked: bool) {
    && (s.op.shutdown ==> asked || s.sh.reg.limit <= 0)
    && (s.op.pc.ODone? ==> s.op.shutdown)
  }

  lemma OpEndsJustified(c: Config, s: State, asked: bool)
    requires ValidConfig(c) && OpInv(c, s.sh.reg, s.op) && EndsJustified(s, asked)
    ensures EndsJustified(StepOp(c, s), asked)
  {
    OpMovesLimit(c, s);
    hide OpOutput;
  }

  lemma {:induction false} OperatorEndsJustified(c: Config, sched: seq<Action>)
    requires ValidConfig(c)
    ensures EndsJustified(Run(c, sched), OpShutdown in sched)
  {
    if sched != [] {
      var n := |sched| - 1;
      var s := Run(c, sched[..n]);
      OperatorEndsJustified(c, sched[..n]);
      assert OpShutdown in sched <==> OpShutdown in sched[..n] || sched[n] == OpShutdown;
      ReachableRun(c, sched[..n]);
      assert OpInv(c, s.sh.reg, s.op) by { hide SwarmInv, Reachable; Safety(c, s); }
      hide Inv, Reachable, OpInv;
      if sched[n].OpAct? {
        OpEndsJustified(c, s, OpShutdown in sched);
        hide StepOp, EndsJustified;
      } else {
        OthersSparePc(c, s, sched[n]);
        hide Apply;
      }
    }
  }

  /** The operator is set to end, or has ended, only if it was asked to or the limit is at or below
      zero. */
  lemma OperatorEndsOnlyIf(c: Config, sched: seq<Action>)
    requires ValidConfig(c) && (Run(c, sched).op.shutdown || Run(c, sched).op.pc.ODone?)
    ensures OpShutdown in sched || Run(c, sched).sh.reg.limit <= 0
  {
    OperatorEndsJustified(c, sched);
  }

  // ---- How fast the limit falls ----

  /** Between two states of a run, starting from a positive limit: with no increase in between the
      limit is halved once per decrease; in general each decrease is paid for by a bit of the
      limit or by an increase. */
  ghost predicate HalvedSince(s: State, t: State) {
    && s.incs <= t.incs && s.decs <= t.decs
    && (t.incs == s.incs ==> t.sh.reg.limit == HalvedTimes(s.sh.reg.limit, t.decs - s.decs))
    && Bits(t.sh.reg.limit) + (t.decs - s.decs) <= Bits(s.sh.reg.limit) + (t.incs - s.incs)
  }

  lemma HalvedStep(c: Config, s: State, t: State, a: Action)
    requires ValidConfig(c) && LatchInv(c, t) && StartLimit(c.n) > 0
    requires HalvedSince(s, t)
    ensures HalvedSince(s, Apply(c, t, a))
  {
    LimitMoves(c, t, a);
    var limit := t.sh.reg.limit;
    DoubledBits(limit, c.n);
    if limit > 0 { HalvedBits(limit); }
    hide Apply, StepOp;
  }

  lemma {:induction false} LimitFalls(c: Config, s: State, sched: seq<Action>)
    requires Reachable(c, s) && s.sh.reg.limit > 0
    ensures HalvedSince(s, Exec(c, s, sched))
  {
    hide Inv, Apply, HalvedSince;
    Latched(c, s);
    if sched == [] {
      HalvedSelf(s);
    } else {
      var n := |sched| - 1;
      var t := Exec(c, s, sched[..n]);
      LimitFalls(c, s, sched[..n]);
      ReachableExec(c, s, sched[..n]);
      Latched(c, t);
      HalvedStep(c, s, t, sched[n]);
    }
  }

  lemma HalvedSelf(s: State)
    ensures HalvedSince(s, s)
  {
  }

  /** From any positive limit L with no further increase, the limit is at or below zero exactly
      from the (floor(log2 L) + 1)-th decrease on, which is then the last one processed, and the
      operator is then bound to shut down. */
  lemma LatchExactly(c: Config, s: State, sched: seq<Action>)
    requires Reachable(c, s) && s.sh.reg.limit > 0
    ensures var t := Exec(c, s, sched);
            t.incs == s.incs ==>
              && t.decs - s.decs <= Bits(s.sh.reg.limit)
              && (t.sh.reg.limit <= 0 <==> t.decs - s.decs == Bits(s.sh.reg.limit))
              && (t.sh.reg.limit <= 0 ==> PastLatch(t.op))
  {
    hide Inv, Exec, Reachable;
    LimitFalls(c, s, sched);
    var t := Exec(c, s, sched);
    ReachableExec(c, s, sched);
    Latched(c, t);
    Latched(c, s);
    if t.incs == s.incs { HalvedTimesReachesZero(s.sh.reg.limit, t.decs - s.decs); }
  }

  /** With `a` increases interleaved in any way, at most floor(log2 L) + 1 + a decreases are
      processed after a state with limit L. */
  lemma DecreasesBounded(c: Config, s: State, sched: seq<Action>)
    requires Reachable(c, s) && s.sh.reg.limit > 0
    ensures var t := Exec(c, s, sched);
            t.decs - s.decs <= Bits(s.sh.reg.limit) + (t.incs - s.incs)
  {
    LimitFalls(c, s, sched);
  }

  // ---- The commander's signals ----

  predicate InIncreasePhase(pc: CmdPc) {
    (pc.CLoop? || pc.CWait? || pc.CSleep? || pc.CAct?) && pc.ph.PIncrease?
  }

  /** The commander sends each of its three increases once. */
  ghost predicate AddsInv(s: State) {
    && 0 <= s.adds <= 3
    && (if InIncreasePhase(s.cmd.pc)
        then s.adds == s.cmd.pc.ph.i && (!s.cmd.pc.CLoop? ==> s.adds < 3)
        else s.adds == 3 || s.cmd.shutdown)
  }

  lemma CmdKeepsAdds(s: State, interrupted: bool)
    requires AddsInv(s)
    ensures AddsInv(StepCmd(s, interrupted))
  {
  }

  /** What every action but a commander step leaves of the commander and its counts. */
  lemma OthersSpareCmd(c: Config, s: State, a: Action)
    requires !a.CmdAct?
    ensures var s' := Apply(c, s, a);
            && s'.cmd == s.cmd.(shutdown := s.cmd.shutdown || a.CmdShutdown?)
            && s'.kills == s.kills
            && s'.adds == s.adds + One(a.AddSignal?) && s'.subs == s.subs + One(a.SubSignal?)
  {
    hide StepDrone, OpLocal;
  }

  /** A signal counted as sent has raised the operator's flag. */
  lemma SentRaisesFlag(c: Config, s: State, a: Action)
    ensures var s' := Apply(c, s, a);
            && s.adds <= s'.adds <= s.adds + 1 && (s'.adds > s.adds ==> s'.op.sig1)
            && s.subs <= s'.subs <= s.subs + 1 && (s'.subs > s.subs ==> s'.op.sig2)
            && (a.AddSignal? ==> s'.adds > s.adds) && (a.SubSignal? ==> s'.subs > s.subs)
  {
    hide StepDrone, OpLocal;
  }

  lemma {:induction false} CommanderAdds(c: Config, sched: seq<Action>)
    requires ValidConfig(c) && AddSignal !in sched
    ensures AddsInv(Run(c, sched))
  {
    if sched != [] {
      var n := |sched| - 1;
      var s := Run(c, sched[..n]);
      CommanderAdds(c, sched[..n]);
      assert sched[n] in sched;
      if sched[n].CmdAct? {
        hide StepCmd;
        CmdKeepsAdds(s, sched[n].interrupted);
      } else {
        OthersSpareCmd(c, s, sched[n]);
        hide Apply;
      }
    }
  }

  predicate InDecreasePhase(pc: CmdPc) {
    match pc
    case CLock(sec) => !sec.Pick?
    case CBody(sec) => !sec.Pick?
    case CUnlock(sec) => !sec.Pick?
    case CSubtract => true
    case CLoop(ph) => ph.PDecrease?
    case CWait(ph) => ph.PDecrease?
    case CSleep(ph) => ph.PDecrease?
    case CAct(ph) => ph.PDecrease?
    case _ => false
  }

  /** The round of the suicide phase the commander is in: 0 before it, 10 or less throughout, all
      ten behind it in the decrease phase; and the three ways in which its plan can end. */
  ghost predicate KillsInv(s: State) {
    && 0 <= s.kills <= 10
    && (InDecreasePhase(s.cmd.pc) ==> s.kills == 10 || s.cmd.shutdown)
    && (s.cmd.pc.CDone? ==> s.cmd.shutdown || s.cmd.pick == -1 || (s.kills == 10 && s.cmd.seen <= 0))
    && match s.cmd.pc
       case CLock(Pick(i)) => s.kills == i < 10
       case CBody(Pick(i)) => s.kills == i < 10
       case CUnlock(Pick(i)) => s.kills == i < 10
       case CSuicide(i) => s.kills == i < 10
       case CLoop(ph) => (ph.PIncrease? ==> s.kills == 0) && (ph.PKill? ==> s.kills == ph.i)
       case CWait(ph) => (ph.PIncrease? ==> s.kills == 0) && (ph.PKill? ==> s.kills == ph.i < 10)
       case CSleep(ph) => (ph.PIncrease? ==> s.kills == 0) && (ph.PKill? ==> s.kills == ph.i < 10)
       case CAct(ph) => (ph.PIncrease? ==> s.kills == 0) && (ph.PKill? ==> s.kills == ph.i < 10)
       case _ => true
  }

  lemma CmdKeepsKills(s: State, interrupted: bool)
    requires KillsInv(s)
    ensures KillsInv(StepCmd(s, interrupted))
  {
  }

  /** Over any schedule the commander orders at most ten suicides. */
  lemma {:induction false} SuicideOrdersBounded(c: Config, sched: seq<Action>)
    requires ValidConfig(c)
    ensures KillsInv(Run(c, sched)) && 0 <= Run(c, sched).kills <= 10
  {
    if sched != [] {
      var n := |sched| - 1;
      var s := Run(c, sched[..n]);
      SuicideOrdersBounded(c, sched[..n]);
      if sched[n].CmdAct? {
        hide StepCmd;
        CmdKeepsKills(s, sched[n].interrupted);
      } else {
        OthersSpareCmd(c, s, sched[n]);
        hide Apply;
      }
    }
  }

  /** The commander's decreases come last. */
  ghost predicate DecreasesLast(s: State) {
    s.subs >= 0 && (s.subs == 0 || InDecreasePhase(s.cmd.pc) || s.cmd.pc.CDone?)
  }

  lemma {:induction false} DecreasesComeLast(c: Config, sched: seq<Action>)
    requires ValidConfig(c) && SubSignal !in sched
    ensures DecreasesLast(Run(c, sched))
  {
    if sched != [] {
      var n := |sched| - 1;
      var s := Run(c, sched[..n]);
      DecreasesComeLast(c, sched[..n]);
      assert sched[n] in sched;
      if !sched[n].CmdAct? {
        OthersSpareCmd(c, s, sched[n]);
        hide Apply;
      }
    }
  }

  /** The phases come in order: attacks only after the increases, decreases only after the attacks.
      A commander that is not shut down has sent its three increases when it leaves the first phase
      and ordered ten attacks when it enters the third. */
  lemma CommanderPlan(c: Config, sched: seq<Action>)
    requires ValidConfig(c) && AddSignal !in sched
    ensures var t := Run(c, sched);
            && (InIncreasePhase(t.cmd.pc) ==> t.kills == 0)
            && (SubSignal !in sched && t.subs > 0 ==> InDecreasePhase(t.cmd.pc) || t.cmd.pc.CDone?)
            && (!t.cmd.shutdown ==>
                  && (!InIncreasePhase(t.cmd.pc) ==> t.adds == 3)
                  && (InDecreasePhase(t.cmd.pc) ==> t.kills == 10)
                  && (t.cmd.pc.CDone? ==> t.cmd.pick == -1 || (t.kills == 10 && t.cmd.seen <= 0)))
  {
    CommanderAdds(c, sched);
    SuicideOrdersBounded(c, sched);
    if SubSignal !in sched { DecreasesComeLast(c, sched); }
  }

  /** When only the commander signals increases, at most three are processed, so at most
      floor(log2 L) + 4 decreases are, with L the initial limit, and at most one if L is not
      positive; the limit never falls below -8. */
  lemma CommandedRun(c: Config, sched: seq<Action>)
    requires ValidConfig(c) && AddSignal !in sched
    ensures var t := Run(c, sched);
            && t.incs <= 3
            && t.decs <= (if StartLimit(c.n) > 0 then Bits(StartLimit(c.n)) + 3 else 1)
            && t.sh.reg.limit >= -8
  {
    hide Inv, Apply;
    CommanderAdds(c, sched);
    LatchRun(c, sched);
    var t := Run(c, sched);
    PowMonotone(t.incs, 3);
    assert Pow2(3) == 8;
    if StartLimit(c.n) > 0 {
      assert Run(c, []) == Init(c);
      DecreasesBounded(c, Init(c), sched);
    }
  }

  lemma {:induction false} NonNegativeRun(c: Config, sched: seq<Action>)
    requires ValidConfig(c) && c.n >= 2
    ensures Run(c, sched).sh.reg.limit >= 0
  {
    if sched != [] {
      NonNegativeRun(c, sched[..|sched| - 1]);
      LimitMoves(c, Run(c, sched[..|sched| - 1]), sched[|sched| - 1]);
      hide Apply;
    }
  }

  lemma NonNegativeLimit(c: Config, s: State)
    requires Reachable(c, s) && c.n >= 2
    ensures s.sh.reg.limit >= 0
  {
    var sched :| Exec(c, Init(c), sched) == s;
    NonNegativeRun(c, sched);
  }
}
