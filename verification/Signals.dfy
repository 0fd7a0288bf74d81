/** How the operator works through its rounds, whatever is interleaved.

    Each round is followed by the number of steps the operator has taken itself; all other actions,
    in any number and order, may fall between them. */
module Signals {
  import opened Counting
  import opened Limit
  import opened Registry
  import opened Drones
  import opened Swarm
  import opened Decisions
  import opened Latch

  // ---- The operator: one increase ----

  /** The operator `k` of its own steps after it stood before a pending increase in `s`. */
  ghost predicate Increasing(c: Config, s: State, t: State, k: nat) {
    k <= 4 ==>
      && t.op.pc == [OSig1, OLock(Increase), OBody(Increase), OUnlock(Increase), OSig2][k]
      && t.sh.reg.limit == (if k <= 2 then s.sh.reg.limit else Doubled(s.sh.reg.limit, c.n))
      && t.incs == s.incs + One(k >= 3) && t.decs == s.decs && t.adds >= s.adds
      && (k == 0 ==> t.op.sig1) && (k >= 1 && t.op.sig1 ==> t.adds > s.adds)
  }

  lemma IncreasingAction(c: Config, s: State, t: State, a: Action, k: nat)
    requires Increasing(c, s, t, k)
    ensures Increasing(c, s, Apply(c, t, a), if SameProcess(a, OpAct) && Enabled(t, a) then k + 1 else k)
  {
    if a.OpAct? {
      OpMovesLimit(c, t);
      hide OpOutput, Doubled, Halved;
    } else {
      OthersSparePc(c, t, a);
      hide Apply, Doubled;
    }
  }

  lemma {:induction false} IncreasingRun(c: Config, s: State, sched: seq<Action>)
    requires s.op.pc == OSig1 && s.op.sig1
    ensures Increasing(c, s, Exec(c, s, sched), OwnSteps(c, s, sched, OpAct))
  {
    if sched != [] {
      hide Apply, Enabled, SameProcess, Increasing;
      var n := |sched| - 1;
      IncreasingRun(c, s, sched[..n]);
      IncreasingAction(c, s, Exec(c, s, sched[..n]), sched[n], OwnSteps(c, s, sched[..n], OpAct));
    }
  }

  /** A pending increase is carried out by the operator's next four steps: the limit is doubled and
      clamped from the value it had when the operator looked, nothing else moves it meanwhile, and
      the flag is up again only if another increase was sent. */
  lemma IncreaseRound(c: Config, s: State, sched: seq<Action>)
    requires s.op.pc == OSig1 && s.op.sig1 && OwnSteps(c, s, sched, OpAct) == 4
    ensures var t := Exec(c, s, sched);
            && t.op.pc == OSig2 && t.incs == s.incs + 1 && t.decs == s.decs
            && t.sh.reg.limit == (if s.sh.reg.limit < c.n then 2 * s.sh.reg.limit else 2 * c.n - 1)
            && (t.op.sig1 ==> t.adds > s.adds)
  {
    IncreasingRun(c, s, sched);
    hide Exec, OwnSteps;
  }

  // ---- The operator: one decrease ----

  lemma NotInPrefix(sched: seq<Action>, a: Action)
    requires a !in sched && sched != []
    ensures a !in sched[..|sched| - 1] && sched[|sched| - 1] != a
  {
  }

  ghost predicate Decreasing(s: State, t: State, k: nat, calm: bool) {
    k <= 5 ==>
      && t.op.pc == [OSig2, OLock(Decrease), OBody(Decrease), OUnlock(Decrease), OLatch, OLock(Check)][k]
      && t.sh.reg.limit == (if k <= 2 then s.sh.reg.limit else Halved(s.sh.reg.limit))
      && (k >= 3 ==> t.op.newMax == t.sh.reg.limit)
      && t.decs == s.decs + One(k >= 3) && t.incs == s.incs && t.subs >= s.subs
      && (k == 0 ==> t.op.sig2) && (k >= 1 && t.op.sig2 ==> t.subs > s.subs)
      && (s.op.shutdown || (k == 5 && Halved(s.sh.reg.limit) <= 0) ==> t.op.shutdown)
      && (calm && t.op.shutdown ==> s.op.shutdown || (k == 5 && Halved(s.sh.reg.limit) <= 0))
  }

  lemma DecreasingAction(c: Config, s: State, t: State, a: Action, k: nat, calm: bool)
    requires Decreasing(s, t, k, calm) && (calm ==> !a.OpShutdown?)
    ensures Decreasing(s, Apply(c, t, a), if SameProcess(a, OpAct) && Enabled(t, a) then k + 1 else k, calm)
  {
    if a.OpAct? {
      OpMovesLimit(c, t);
      hide OpOutput, Doubled, Halved;
    } else {
      OthersSparePc(c, t, a);
      hide Apply, Halved;
    }
  }

  lemma {:induction false} DecreasingRun(c: Config, s: State, sched: seq<Action>, calm: bool)
    requires s.op.pc == OSig2 && s.op.sig2 && (calm ==> OpShutdown !in sched)
    ensures Decreasing(s, Exec(c, s, sched), OwnSteps(c, s, sched, OpAct), calm)
  {
    if sched != [] {
      hide Apply, Enabled, SameProcess, Decreasing;
      var n := |sched| - 1;
      if calm { NotInPrefix(sched, OpShutdown); }
      DecreasingRun(c, s, sched[..n], calm);
      DecreasingAction(c, s, Exec(c, s, sched[..n]), sched[n], OwnSteps(c, s, sched[..n], OpAct), calm);
    }
  }

  /** A pending decrease is carried out by the operator's next five steps: the limit, of either
      sign, is divided by two and truncated toward zero, and shutdown is latched exactly when nothing
      positive is left, unless somebody asks for it meanwhile. */
  lemma DecreaseRound(c: Config, s: State, sched: seq<Action>)
    requires s.op.pc == OSig2 && s.op.sig2 && OwnSteps(c, s, sched, OpAct) == 5
    ensures var t := Exec(c, s, sched);
            && t.op.pc == OLock(Check) && t.decs == s.decs + 1 && t.incs == s.incs
            && (s.sh.reg.limit >= 0 ==> 2 * t.sh.reg.limit <= s.sh.reg.limit <= 2 * t.sh.reg.limit + 1)
            && (s.sh.reg.limit <= 0 ==> 2 * t.sh.reg.limit - 1 <= s.sh.reg.limit <= 2 * t.sh.reg.limit)
            && (t.op.sig2 ==> t.subs > s.subs)
            && (OpShutdown !in sched ==> (t.op.shutdown <==> s.op.shutdown || t.sh.reg.limit <= 0))
            && (t.sh.reg.limit <= 0 ==> t.op.shutdown)
  {
    DecreasingRun(c, s, sched, OpShutdown !in sched);
    HalvedTruncates(s.sh.reg.limit);
    hide Exec, OwnSteps, Halved;
  }

  // ---- The operator: one check and its consequence ----

  /** The operator looks for room inside its critical section, and `room` is what is true then. */
  function LooksFor(room: bool): (State, Action) -> bool {
    (s: State, a: Action) => a == OpAct && s.op.pc == OBody(Check) && room == (Occupancy(s.sh.reg) < s.sh.reg.limit)
  }

  /** The operator adds one drone to the `m` there are, fresh and starting in the base. */
  function Spawns(c: Config, m: nat): (State, Action) -> bool {
    (s: State, a: Action) => a == OpAct && s.op.pc == OSpawn && |s.ds| == m && GrowsBy(s.ds, Apply(c, s, a).ds, c, Base)
  }

  predicate GrowsBy(ds: seq<Drone>, ds': seq<Drone>, c: Config, start: Location) {
    |ds'| == |ds| + 1 && ds'[..|ds|] == ds && Pristine(c, ds'[|ds|], start)
  }

  ghost predicate Checking(s: State, t: State, k: nat) {
    k <= 4 ==>
      && t.op.pc == [OLock(Check), OBody(Check), OUnlock(Check), OSpawn, OLock(Describe)][k]
      && |t.ds| == |s.ds| + One(k == 4 && t.op.canCreate)
  }

  lemma CheckingAction(c: Config, s: State, t: State, a: Action, k: nat)
    requires Checking(s, t, k)
    ensures var t' := Apply(c, t, a);
            var k' := if SameProcess(a, OpAct) && Enabled(t, a) then k + 1 else k;
            && Checking(s, t', k')
            && (k == 1 && k' == 2 ==> LooksFor(t'.op.canCreate)(t, a))
            && (k' == k || (k <= 3 && k != 1) ==> t'.op.canCreate == t.op.canCreate)
            && (k == 3 && k' == 4 && t.op.canCreate ==> Spawns(c, |s.ds|)(t, a))
  {
    if a.OpAct? {
      hide Doubled, Halved;
    } else {
      OthersSparePc(c, t, a);
      StartsKept(c, t, a);
      hide Apply;
    }
  }

  lemma {:induction false} CheckingRun(c: Config, s: State, sched: seq<Action>)
    requires s.op.pc == OLock(Check)
    ensures var t := Exec(c, s, sched);
            var k := OwnSteps(c, s, sched, OpAct);
            && Checking(s, t, k)
            && (2 <= k <= 4 ==> Moment(c, s, sched, LooksFor(t.op.canCreate)))
            && (k == 4 && t.op.canCreate ==> Moment(c, s, sched, Spawns(c, |s.ds|)))
  {
    if sched != [] {
      hide Apply, Enabled, SameProcess, Moment, LooksFor, Spawns, Checking;
      var n := |sched| - 1;
      CheckingRun(c, s, sched[..n]);
      CheckingAction(c, s, Exec(c, s, sched[..n]), sched[n], OwnSteps(c, s, sched[..n], OpAct));
      var k := OwnSteps(c, s, sched, OpAct);
      var t := Exec(c, s, sched);
      if 2 <= k <= 4 { MomentLater(c, s, sched, LooksFor(t.op.canCreate)); }
      if k == 4 && t.op.canCreate { MomentLater(c, s, sched, Spawns(c, |s.ds|)); }
    }
  }

  /** The operator's check and what follows take four steps of its own, with anything in between:
      it adds one fresh drone starting in the base if there was room at the moment it looked inside
      the critical section, and none otherwise. */
  lemma ReplenishRound(c: Config, s: State, sched: seq<Action>)
    requires s.op.pc == OLock(Check) && OwnSteps(c, s, sched, OpAct) == 4
    ensures var t := Exec(c, s, sched);
            exists room :: && Moment(c, s, sched, LooksFor(room)) && |t.ds| == |s.ds| + One(room)
                           && (room ==> Moment(c, s, sched, Spawns(c, |s.ds|)))
  {
    CheckingRun(c, s, sched);
    hide Exec, OwnSteps, Moment;
  }

  // ---- The operator: it looks in every round ----

  /** The operator has looked for room. */
  ghost predicate HasLooked(c: Config, s: State, sched: seq<Action>) {
    Moment(c, s, sched, LooksFor(true)) || Moment(c, s, sched, LooksFor(false))
  }

  lemma LookLater(c: Config, s: State, sched: seq<Action>)
    requires sched != []
    requires var n := |sched| - 1;
             || HasLooked(c, s, sched[..n])
             || (sched[n] == OpAct && Exec(c, s, sched[..n]).op.pc == OBody(Check))
    ensures HasLooked(c, s, sched)
  {
    var n := |sched| - 1;
    var u := Exec(c, s, sched[..n]);
    var room := Occupancy(u.sh.reg) < u.sh.reg.limit;
    assert sched[n] == OpAct && u.op.pc == OBody(Check) ==> LooksFor(room)(u, sched[n]);
    hide Moment, LooksFor, Exec;
    if Moment(c, s, sched[..n], LooksFor(true)) {
      MomentLater(c, s, sched, LooksFor(true));
    } else if Moment(c, s, sched[..n], LooksFor(false)) {
      MomentLater(c, s, sched, LooksFor(false));
    } else {
      MomentLater(c, s, sched, LooksFor(room));
    }
  }

  lemma CheckTowards(c: Config, s: State)
    requires !s.op.pc.ODone? && s.op.pc != OBody(Check)
    ensures var pc := OpLocal(c, s).pc;
            pc.ODone? || Until(c, pc, Check) < Until(c, s.op.pc, Check)
  {
  }

  lemma CheckAction(c: Config, s: State, a: Action)
    requires !(a.OpAct? && s.op.pc == OBody(Check))
    ensures var s' := Apply(c, s, a);
            || s'.op.pc.ODone?
            || (Until(c, s'.op.pc, Check) + One(SameProcess(a, OpAct) && Enabled(s, a)) <= Until(c, s.op.pc, Check))
  {
    hide Until;
    if a.OpAct? {
      if !s.op.pc.ODone? { CheckTowards(c, s); }
      hide OpLocal, OpOutput;
    } else {
      OthersSparePc(c, s, a);
      hide Apply;
    }
  }

  lemma {:induction false} CheckRun(c: Config, s: State, sched: seq<Action>)
    ensures var t := Exec(c, s, sched);
            || HasLooked(c, s, sched)
            || t.op.pc.ODone?
            || OwnSteps(c, s, sched, OpAct) + Until(c, t.op.pc, Check) <= Until(c, s.op.pc, Check)
  {
    if sched != [] {
      hide Apply, Enabled, SameProcess, Until, HasLooked;
      var n := |sched| - 1;
      var t := Exec(c, s, sched[..n]);
      CheckRun(c, s, sched[..n]);
      if HasLooked(c, s, sched[..n]) || (sched[n] == OpAct && t.op.pc == OBody(Check)) {
        LookLater(c, s, sched);
      } else {
        CheckAction(c, t, sched[n]);
        if t.op.pc.ODone? { ProcessedGrows(c, t, sched[n], Increase); }
      }
    }
  }

  /** From wherever it stands, with or without signals pending and whatever is interleaved, the
      operator looks for room within one round of its loop, at most seventeen steps once the starting
      drones are out, unless it ends first. */
  lemma CheckAnswered(c: Config, s: State, sched: seq<Action>)
    requires OwnSteps(c, s, sched, OpAct) >= Until(c, s.op.pc, Check)
    ensures HasLooked(c, s, sched) || Exec(c, s, sched).op.pc.ODone?
    ensures !s.op.pc.Starting? ==> Until(c, s.op.pc, Check) <= 17
  {
    hide Exec, OwnSteps, HasLooked, Until;
    CheckRun(c, s, sched);
    UntilRange(c, s.op.pc, Check);
    UntilRange(c, Exec(c, s, sched).op.pc, Check);
  }

  // ---- The operator: every signal is answered ----

  /** Position in the operator's loop. */
  function CyclePos(pc: OpPc): nat {
    match pc
    case OTop => 0
    case OSig1 => 1
    case OLock(Increase) => 2
    case OBody(Increase) => 3
    case OUnlock(Increase) => 4
    case OSig2 => 5
    case OLock(Decrease) => 6
    case OBody(Decrease) => 7
    case OUnlock(Decrease) => 8
    case OLatch => 9
    case OLock(Check) => 10
    case OBody(Check) => 11
    case OUnlock(Check) => 12
    case OSpawn => 13
    case OLock(Describe) => 14
    case OBody(Describe) => 15
    case OUnlock(Describe) => 16
    case Starting(_) => 0
    case ODone => 0
  }

  /** Operator steps until the body of `sec` has been executed, at most: one round of the loop and,
      before it, the starting drones. */
  function Until(c: Config, pc: OpPc, sec: Section): nat {
    var k := CyclePos(OBody(sec)) - CyclePos(pc);
    (if k >= 0 then k + 1 else k + 18)
    + if pc.Starting? then 1 + (if pc.i < c.n then c.n - pc.i else 0) else 0
  }

  lemma UntilRange(c: Config, pc: OpPc, sec: Section)
    ensures Until(c, pc, sec) >= 1
    ensures !pc.Starting? ==> Until(c, pc, sec) <= 17
  {
  }

  function Processed(s: State, sec: Section): nat {
    if sec.Increase? then s.incs else s.decs
  }

  lemma OpTowards(c: Config, s: State, sec: Section)
    requires (sec.Increase? || sec.Decrease?) && Unprocessed(s.op, sec) > 0 && !s.op.pc.ODone?
    ensures var s' := StepOp(c, s);
            || Processed(s', sec) > Processed(s, sec)
            || s'.op.pc.ODone?
            || (Unprocessed(s'.op, sec) > 0 && Until(c, s'.op.pc, sec) < Until(c, s.op.pc, sec))
    ensures Processed(StepOp(c, s), sec) >= Processed(s, sec)
  {
    OpMovesLimit(c, s);
    hide OpOutput, Doubled, Halved;
  }

  lemma TowardsAction(c: Config, s: State, a: Action, sec: Section)
    requires (sec.Increase? || sec.Decrease?) && Unprocessed(s.op, sec) > 0 && !s.op.pc.ODone?
    ensures var s' := Apply(c, s, a);
            || Processed(s', sec) > Processed(s, sec)
            || s'.op.pc.ODone?
            || (&& Unprocessed(s'.op, sec) > 0 && Processed(s', sec) == Processed(s, sec)
                && Until(c, s'.op.pc, sec) + One(SameProcess(a, OpAct) && Enabled(s, a)) <= Until(c, s.op.pc, sec))
  {
    if a.OpAct? {
      OpTowards(c, s, sec);
      hide StepOp, Until, Unprocessed;
    } else {
      OthersSparePc(c, s, a);
      hide Apply;
    }
  }

  lemma ProcessedGrows(c: Config, s: State, a: Action, sec: Section)
    ensures Processed(Apply(c, s, a), sec) >= Processed(s, sec)
    ensures s.op.pc.ODone? ==> Apply(c, s, a).op.pc.ODone?
  {
    if a.OpAct? {
      OpMovesLimit(c, s);
      hide OpOutput;
    } else {
      OthersSparePc(c, s, a);
      hide Apply;
    }
  }

  /** A pending increase or decrease is processed within `Until` steps of the operator, at most
      seventeen once the starting drones are out, unless the operator ends first. */
  lemma {:induction false} SignalAnswered(c: Config, s: State, sched: seq<Action>, sec: Section)
    requires (sec.Increase? || sec.Decrease?) && Unprocessed(s.op, sec) > 0
    ensures var t := Exec(c, s, sched);
            var k := OwnSteps(c, s, sched, OpAct);
            && (Processed(t, sec) > Processed(s, sec) || t.op.pc.ODone?
                || (&& Unprocessed(t.op, sec) > 0 && Processed(t, sec) == Processed(s, sec)
                    && k + Until(c, t.op.pc, sec) <= Until(c, s.op.pc, sec)))
            && (k >= Until(c, s.op.pc, sec) ==> Processed(t, sec) > Processed(s, sec) || t.op.pc.ODone?)
            && (!s.op.pc.Starting? ==> Until(c, s.op.pc, sec) <= 17)
  {
    UntilRange(c, s.op.pc, sec);
    UntilRange(c, Exec(c, s, sched).op.pc, sec);
    if sched != [] {
      hide Apply, Enabled, SameProcess, Until, Unprocessed, Processed;
      var n := |sched| - 1;
      var t := Exec(c, s, sched[..n]);
      SignalAnswered(c, s, sched[..n], sec);
      ProcessedGrows(c, t, sched[n], sec);
      if Unprocessed(t.op, sec) > 0 && !t.op.pc.ODone? { TowardsAction(c, t, sched[n], sec); }
    }
  }
}
