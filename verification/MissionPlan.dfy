/** How the commander works through its plan, whatever is interleaved. */
module MissionPlan {
  import opened Counting
  import opened Registry
  import opened Drones
  import opened Swarm
  import opened Invariant
  import opened Preservation
  import opened Progress
  import opened Decisions
  import opened Latch
  import opened Signals

  // ---- What it reads ----

  /** What the commander has read in its critical section is still what the registry says. */
  ghost predicate ReadCurrent(s: State) {
    match s.cmd.pc
    case CUnlock(Pick(_)) => s.cmd.pick == FirstPid(s.sh.reg.slots, 0)
    case CUnlock(_) => s.cmd.seen == s.sh.reg.limit
    case _ => true
  }

  lemma CmdReads(s: State, interrupted: bool)
    ensures ReadCurrent(StepCmd(s, interrupted))
  {
  }

  lemma ReadStep(c: Config, s: State, a: Action)
    requires Reachable(c, s) && ReadCurrent(s)
    ensures ReadCurrent(Apply(c, s, a))
  {
    hide Reachable;
    if a.CmdAct? {
      CmdReads(s, a.interrupted);
    } else {
      OthersSpareCmd(c, s, a);
      hide Apply;
      if s.cmd.pc.CUnlock? && Apply(c, s, a).sh.reg != s.sh.reg {
        OnlyHolderWrites(c, s, a);
        assert Holder(s, CmdAct(false)) by { hide SwarmInv; Safety(c, s); }
        MutualExclusion(c, s, CmdAct(false), a);
        assert false;
      }
    }
  }

  /** While the commander still holds the semaphore, its pick is the drone in the lowest occupied
      slot and the limit it has read is the current one. */
  lemma {:induction false} CommanderReads(c: Config, sched: seq<Action>)
    requires ValidConfig(c)
    ensures ReadCurrent(Run(c, sched))
  {
    if sched != [] {
      var n := |sched| - 1;
      CommanderReads(c, sched[..n]);
      ReachableRun(c, sched[..n]);
      ReadStep(c, Run(c, sched[..n]), sched[n]);
      hide Apply;
    }
  }

  // ---- One decrease ----

  /** The commander sends a decrease, and the operator's flag is up. */
  function Subtracts(c: Config): (State, Action) -> bool {
    (s: State, a: Action) => a.CmdAct? && s.cmd.pc == CSubtract && Apply(c, s, a).op.sig2
  }

  ghost predicate Subtracting(s: State, t: State, k: nat, alone: bool) {
    k <= 4 ==>
      && t.cmd.pc == [CLock(ReadAgain), CBody(ReadAgain), CUnlock(ReadAgain), CSubtract, CWait(PDecrease)][k]
      && t.subs >= s.subs + One(k == 4)
      && (alone ==> t.subs == s.subs + One(k == 4))
  }

  lemma SubtractingAction(c: Config, s: State, t: State, a: Action, k: nat, alone: bool)
    requires Subtracting(s, t, k, alone) && (alone ==> !a.SubSignal?)
    ensures var k' := if a.CmdAct? && Enabled(t, a) then k + 1 else k;
            && Subtracting(s, Apply(c, t, a), k', alone)
            && (k == 3 && k' == 4 ==> Subtracts(c)(t, a))
  {
    if !a.CmdAct? {
      OthersSpareCmd(c, t, a);
      hide Apply;
    }
  }

  lemma {:induction false} SubtractingRun(c: Config, s: State, sched: seq<Action>, alone: bool)
    requires s.cmd.pc == CLock(ReadAgain) && (alone ==> SubSignal !in sched)
    ensures var k := OwnSteps(c, s, sched, CmdAct(false));
            && Subtracting(s, Exec(c, s, sched), k, alone)
            && (k == 4 ==> Moment(c, s, sched, Subtracts(c)))
  {
    if sched != [] {
      hide Apply, Enabled, Subtracting, Moment, Subtracts;
      var n := |sched| - 1;
      if alone { NotInPrefix(sched, SubSignal); }
      SubtractingRun(c, s, sched[..n], alone);
      SubtractingAction(c, s, Exec(c, s, sched[..n]), sched[n], OwnSteps(c, s, sched[..n], CmdAct(false)), alone);
      if OwnSteps(c, s, sched, CmdAct(false)) == 4 { MomentLater(c, s, sched, Subtracts(c)); }
    }
  }

  /** A commander that has begun a round of its decrease phase sends exactly one decrease in it,
      whatever is interleaved: within four of its own steps there is a moment at which it sends one
      and the operator's flag is up, and it sends no other. */
  lemma SubtractRound(c: Config, s: State, sched: seq<Action>)
    requires s.cmd.pc == CLock(ReadAgain) && OwnSteps(c, s, sched, CmdAct(false)) == 4
    ensures var t := Exec(c, s, sched);
            && t.cmd.pc == CWait(PDecrease) && t.subs > s.subs
            && (SubSignal !in sched ==> t.subs == s.subs + 1)
    ensures Moment(c, s, sched, Subtracts(c))
  {
    SubtractingRun(c, s, sched, SubSignal !in sched);
    hide Exec, OwnSteps, Moment;
  }

  // ---- One attack ----

  /** The commander looks for a drone inside its critical section, and finds process `p`. */
  function Finds(p: int): (State, Action) -> bool {
    (s: State, a: Action) =>
      a.CmdAct? && s.cmd.pc.CBody? && s.cmd.pc.sec.Pick? && p == FirstPid(s.sh.reg.slots, 0)
  }

  ghost predicate Picking(s: State, t: State, i: int, k: nat) {
    k <= 4 ==>
      && t.kills == s.kills + One(k == 4 && t.cmd.pick != -1)
      && match k
         case 0 => t.cmd.pc == CLock(Pick(i))
         case 1 => t.cmd.pc == CBody(Pick(i))
         case 2 => t.cmd.pc == CUnlock(Pick(i))
         case 3 => t.cmd.pc == CSuicide(i)
         case _ => t.cmd.pc == if t.cmd.pick == -1 then CDone else CLoop(PKill(i + 1))
  }

  lemma PickingAction(c: Config, s: State, t: State, a: Action, i: int, k: nat)
    requires Picking(s, t, i, k)
    ensures var t' := Apply(c, t, a);
            var k' := if a.CmdAct? && Enabled(t, a) then k + 1 else k;
            && Picking(s, t', i, k')
            && (k == 1 && k' == 2 ==> Finds(t'.cmd.pick)(t, a))
            && (k' == k || (k <= 3 && k != 1) ==> t'.cmd.pick == t.cmd.pick)
  {
    if !a.CmdAct? {
      OthersSpareCmd(c, t, a);
      hide Apply;
    } else {
      hide FirstPid;
    }
  }

  lemma {:induction false} PickingRun(c: Config, s: State, sched: seq<Action>, i: int)
    requires s.cmd.pc == CLock(Pick(i))
    ensures var t := Exec(c, s, sched);
            var k := OwnSteps(c, s, sched, CmdAct(false));
            Picking(s, t, i, k) && (2 <= k <= 4 ==> Moment(c, s, sched, Finds(t.cmd.pick)))
  {
    if sched != [] {
      hide Apply, Enabled, Moment, Finds, Picking;
      var n := |sched| - 1;
      PickingRun(c, s, sched[..n], i);
      PickingAction(c, s, Exec(c, s, sched[..n]), sched[n], i, OwnSteps(c, s, sched[..n], CmdAct(false)));
      if 2 <= OwnSteps(c, s, sched, CmdAct(false)) <= 4 {
        MomentLater(c, s, sched, Finds(Exec(c, s, sched).cmd.pick));
      }
    }
  }

  /** One attack takes four steps of the commander, with anything in between: it looks once, at a
      moment when its critical section shows the lowest occupied slot; nobody there ends the plan,
      and otherwise one order is counted and the next round begins. */
  lemma PickRound(c: Config, s: State, sched: seq<Action>, i: int)
    requires s.cmd.pc == CLock(Pick(i)) && OwnSteps(c, s, sched, CmdAct(false)) == 4
    ensures var t := Exec(c, s, sched);
            exists p :: && Moment(c, s, sched, Finds(p)) && t.kills == s.kills + One(p != -1)
                        && t.cmd.pc == if p == -1 then CDone else CLoop(PKill(i + 1))
  {
    PickingRun(c, s, sched, i);
    hide Exec, OwnSteps, Moment;
  }

  // ---- Who gets the order ----

  /** The process about to be ordered into an attack, if any, is a drone that has had a slot. */
  ghost predicate PickKnown(s: State) {
    s.cmd.pc.CSuicide? || (s.cmd.pc.CUnlock? && s.cmd.pc.sec.Pick?) ==>
      s.cmd.pick == -1 || (0 <= s.cmd.pick < |s.ds| && s.ds[s.cmd.pick].index >= 0)
  }

  lemma IndexKept(c: Config, sh: Shared, p: int, d: Drone)
    requires LocalInv(c, d) && d.index >= 0
    ensures StepDrone(sh, p, d).1.index >= 0
  {
    assert d.pc != Body(Register);
    hide LocalInv, RegisterBody, LoopNext, AfterSection, Delete, Update, Occupancy;
  }

  lemma TickIndex(d: Drone)
    ensures Tick(d).index == d.index
  {
  }

  lemma ActionKeepsIndex(c: Config, s: State, a: Action, p: nat)
    requires Inv(c, s) && p < |s.ds| && s.ds[p].index >= 0
    ensures p < |Apply(c, s, a).ds| && Apply(c, s, a).ds[p].index >= 0
  {
    assert LocalInv(c, s.ds[p]) by { hide SlotInv, IdInv, CountInv, Consistent; }
    hide Inv, StepDrone, LocalInv, Tick;
    if a == DroneAct(p) && Enabled(s, a) {
      IndexKept(c, s.sh, p, s.ds[p]);
    } else {
      Bystander(c, s, a, p);
      hide Apply;
      TickIndex(s.ds[p]);
    }
  }

  lemma PickIsKnown(c: Config, s: State)
    requires Reachable(c, s)
    ensures var p := FirstPid(s.sh.reg.slots, 0);
            p == -1 || (0 <= p < |s.ds| && s.ds[p].index >= 0)
  {
    PickSpec(c, s);
    Safety(c, s);
    var p := FirstPid(s.sh.reg.slots, 0);
    if p != -1 { assert Link(s.sh.reg.slots, p, s.ds[p]); }
  }

  lemma CmdPicks(s: State, interrupted: bool)
    ensures var cmd := CmdLocal(s.cmd, s.sh.reg, interrupted);
            && (cmd.pc.CUnlock? && cmd.pc.sec.Pick? ==> cmd.pick == FirstPid(s.sh.reg.slots, 0))
            && (cmd.pc.CSuicide? ==> s.cmd.pc.CUnlock? && s.cmd.pc.sec.Pick? && cmd.pick == s.cmd.pick)
  {
    hide FirstPid;
  }

  lemma PickKnownStep(c: Config, s: State, a: Action)
    requires Reachable(c, s) && PickKnown(s)
    ensures PickKnown(Apply(c, s, a))
  {
    PickIsKnown(c, s);
    Safety(c, s);
    hide Reachable, Inv;
    var p := FirstPid(s.sh.reg.slots, 0);
    if 0 <= p < |s.ds| && s.ds[p].index >= 0 { ActionKeepsIndex(c, s, a, p); }
    if 0 <= s.cmd.pick < |s.ds| && s.ds[s.cmd.pick].index >= 0 { ActionKeepsIndex(c, s, a, s.cmd.pick); }
    if a.CmdAct? {
      CmdPicks(s, a.interrupted);
      hide FirstPid, CmdLocal, CmdOutput;
    } else {
      OthersSpareCmd(c, s, a);
      hide Apply;
    }
  }

  lemma {:induction false} PickKnownRun(c: Config, sched: seq<Action>)
    requires ValidConfig(c)
    ensures PickKnown(Run(c, sched))
  {
    if sched != [] {
      var n := |sched| - 1;
      PickKnownRun(c, sched[..n]);
      ReachableRun(c, sched[..n]);
      hide Apply, PickKnown;
      PickKnownStep(c, Run(c, sched[..n]), sched[n]);
    }
  }

  /** The commander's order goes to a drone that has had a slot, and reaches it unless its process
      has exited since; no other drone is touched. */
  lemma OrderDelivered(c: Config, s: State, interrupted: bool)
    requires Reachable(c, s) && s.cmd.pc.CSuicide? && s.cmd.pick != -1
    ensures var p := s.cmd.pick;
            var s' := Apply(c, s, CmdAct(interrupted));
            && 0 <= p < |s.ds| && s.ds[p].index >= 0 && s'.kills == s.kills + 1
            && |s'.ds| == |s.ds| && (s'.ds[p].sigUsr1 || s.ds[p].pc.Exited?)
            && forall q :: 0 <= q < |s.ds| ==>
                 s'.ds[q] == if q == p && !s.ds[p].pc.Exited? then s.ds[q].(sigUsr1 := true) else s.ds[q]
  {
    var sched :| Exec(c, Init(c), sched) == s;
    PickKnownRun(c, sched);
    hide Reachable;
  }

  // ---- Waiting ----

  /** What a step counts towards the commander's progress: nothing for the steps of others, and a
      sleep that is interrupted takes back the test that led to it. */
  function Weight(s: State, a: Action): int {
    if !a.CmdAct? || !Enabled(s, a) then 0
    else if a.interrupted && s.cmd.pc.CSleep? then -1 else 1
  }

  /** The commander's own steps, less two for each interrupted sleep. */
  function NetSteps(c: Config, s: State, sched: seq<Action>): int {
    if sched == [] then 0
    else NetSteps(c, s, sched[..|sched| - 1]) + Weight(Exec(c, s, sched[..|sched| - 1]), sched[|sched| - 1])
  }

  function WaitPath(ph: Phase): seq<CmdPc> {
    [CLoop(ph), CWait(ph), CSleep(ph), CAct(ph)]
  }

  predicate MoreRounds(ph: Phase) {
    match ph
    case PIncrease(i) => i < 3
    case PKill(i) => i < 10
    case PDecrease => false
  }

  /** The commander acts as the phase demands: it sends an increase that raises the operator's flag
      and goes on to the next round, or turns to picking a drone. */
  function ActsIn(c: Config, ph: Phase): (State, Action) -> bool {
    (s: State, a: Action) =>
      && a.CmdAct? && s.cmd.pc == CAct(ph)
      && match ph
         case PIncrease(i) =>
           var s' := Apply(c, s, a);
           s'.cmd.pc == CLoop(PIncrease(i + 1)) && s'.op.sig1 && s'.adds == s.adds + 1
         case PKill(i) => Apply(c, s, a).cmd.pc == CLock(Pick(i))
         case PDecrease => false
  }

  ghost predicate Waiting(t: State, ph: Phase, m: int) {
    0 <= m <= 3 && t.cmd.pc == WaitPath(ph)[m] && !t.cmd.shutdown
  }

  lemma WaitAction(c: Config, t: State, a: Action, ph: Phase, m: int)
    requires Waiting(t, ph, m) && MoreRounds(ph) && !a.CmdShutdown?
    ensures ActsIn(c, ph)(t, a) || Waiting(Apply(c, t, a), ph, m + Weight(t, a))
  {
    if !a.CmdAct? {
      OthersSpareCmd(c, t, a);
      hide Apply;
    }
  }

  lemma {:induction false} WaitRun(c: Config, s: State, sched: seq<Action>, ph: Phase)
    requires s.cmd.pc == CLoop(ph) && MoreRounds(ph) && !s.cmd.shutdown && CmdShutdown !in sched
    ensures Moment(c, s, sched, ActsIn(c, ph)) || Waiting(Exec(c, s, sched), ph, NetSteps(c, s, sched))
  {
    if sched != [] {
      hide Apply, Weight, Waiting, Moment, ActsIn;
      var n := |sched| - 1;
      NotInPrefix(sched, CmdShutdown);
      WaitRun(c, s, sched[..n], ph);
      if Moment(c, s, sched[..n], ActsIn(c, ph)) {
        MomentLater(c, s, sched, ActsIn(c, ph));
      } else {
        WaitAction(c, Exec(c, s, sched[..n]), sched[n], ph, NetSteps(c, s, sched[..n]));
        if ActsIn(c, ph)(Exec(c, s, sched[..n]), sched[n]) { MomentLater(c, s, sched, ActsIn(c, ph)); }
      }
    }
  }

  /** Unless it is shut down, the commander tests, waits, sleeps uninterrupted and then acts, in this
      order and in each of its three increase and ten attack rounds, whatever is interleaved. */
  lemma WaitRound(c: Config, s: State, sched: seq<Action>, ph: Phase)
    requires s.cmd.pc == CLoop(ph) && MoreRounds(ph) && !s.cmd.shutdown && CmdShutdown !in sched
    ensures NetSteps(c, s, sched) >= 4 ==> Moment(c, s, sched, ActsIn(c, ph))
    ensures !Moment(c, s, sched, ActsIn(c, ph)) ==>
              var m := NetSteps(c, s, sched);
              0 <= m <= 3 && Exec(c, s, sched).cmd.pc == WaitPath(ph)[m]
  {
    hide Exec, NetSteps, Moment;
    WaitRun(c, s, sched, ph);
  }

  // ---- What a look at the limit leads to ----

  /** The commander's way from a look at the limit: to the test that ends its plan if the limit was
      at or below zero, else to sending one more decrease. */
  function ReadPath(sec: CmdSection, limit: int): seq<CmdPc> {
    var test := if sec.ReadFirst? then [CBody(ReadFirst), CUnlock(ReadFirst), CLoop(PDecrease)]
                else [CBody(ReadAgain), CUnlock(ReadAgain), CSubtract, CWait(PDecrease), CSleep(PDecrease),
                      CAct(PDecrease), CLoop(PDecrease)];
    if limit <= 0 then test
    else test + [CLock(ReadAgain), CBody(ReadAgain), CUnlock(ReadAgain), CSubtract]
  }

  /** The step at the end of that way, with `subs` decreases sent before it. */
  function Concludes(c: Config, limit: int, subs: int, alone: bool): (State, Action) -> bool {
    (s: State, a: Action) =>
      && a.CmdAct? && s.subs >= subs && (alone ==> s.subs == subs)
      && var s' := Apply(c, s, a);
         if limit <= 0 then s.cmd.pc == CLoop(PDecrease) && s'.cmd.pc == CDone && s'.subs == s.subs
         else s.cmd.pc == CSubtract && s'.op.sig2 && s'.subs == s.subs + 1
  }

  ghost predicate Reading(s: State, t: State, sec: CmdSection, m: int, alone: bool) {
    var path := ReadPath(sec, s.sh.reg.limit);
    var test := if sec.ReadFirst? then 2 else 6;
    && 0 <= m < |path| && t.cmd.pc == path[m] && !t.cmd.shutdown
    && (1 <= m <= test ==> t.cmd.seen == s.sh.reg.limit)
    && t.subs >= s.subs + One(sec.ReadAgain? && m >= 3)
    && (alone ==> t.subs == s.subs + One(sec.ReadAgain? && m >= 3))
    && (m == 0 ==> t.sh.reg.limit == s.sh.reg.limit)
  }

  lemma ReadingFirst(c: Config, s: State, t: State, a: Action, m: int, alone: bool)
    requires Reading(s, t, ReadFirst, m, alone) && a.CmdAct?
    ensures || Concludes(c, s.sh.reg.limit, s.subs, alone)(t, a)
            || Reading(s, Apply(c, t, a), ReadFirst, m + Weight(t, a), alone)
  {
  }

  lemma ReadingAgain(c: Config, s: State, t: State, a: Action, m: int, alone: bool)
    requires Reading(s, t, ReadAgain, m, alone) && a.CmdAct?
    ensures || Concludes(c, s.sh.reg.limit, s.subs + 1, alone)(t, a)
            || Reading(s, Apply(c, t, a), ReadAgain, m + Weight(t, a), alone)
  {
  }

  lemma ReadingOthers(c: Config, s: State, t: State, a: Action, sec: CmdSection, m: int, alone: bool)
    requires Reading(s, t, sec, m, alone) && !a.CmdAct? && !a.CmdShutdown? && (alone ==> !a.SubSignal?)
    requires (sec.ReadFirst? || sec.ReadAgain?) && Reachable(c, t)
    ensures Reading(s, Apply(c, t, a), sec, m, alone)
  {
    OthersSpareCmd(c, t, a);
    hide Apply, Reachable;
    if m == 0 && Apply(c, t, a).sh.reg != t.sh.reg {
      OnlyHolderWrites(c, t, a);
      assert Holder(t, CmdAct(false)) by { hide SwarmInv; Safety(c, t); }
      MutualExclusion(c, t, CmdAct(false), a);
      assert false;
    }
  }

  lemma NoWeight(s: State, a: Action)
    requires !a.CmdAct?
    ensures Weight(s, a) == 0
  {
  }

  lemma ReadingStep(c: Config, s: State, t: State, a: Action, sec: CmdSection, m: int, alone: bool)
    requires Reading(s, t, sec, m, alone) && !a.CmdShutdown? && (alone ==> !a.SubSignal?)
    requires (sec.ReadFirst? || sec.ReadAgain?) && Reachable(c, t)
    ensures || Concludes(c, s.sh.reg.limit, s.subs + One(sec.ReadAgain?), alone)(t, a)
            || Reading(s, Apply(c, t, a), sec, m + Weight(t, a), alone)
  {
    hide Apply, Weight, Reading, Concludes, Reachable;
    if !a.CmdAct? {
      ReadingOthers(c, s, t, a, sec, m, alone);
      NoWeight(t, a);
    } else if sec.ReadFirst? {
      ReadingFirst(c, s, t, a, m, alone);
    } else {
      ReadingAgain(c, s, t, a, m, alone);
    }
  }

  lemma ReadingStart(s: State, sec: CmdSection, alone: bool)
    requires s.cmd.pc == CBody(sec) && (sec.ReadFirst? || sec.ReadAgain?) && !s.cmd.shutdown
    ensures Reading(s, s, sec, 0, alone)
  {
  }

  lemma {:induction false} ReadingRun(c: Config, s: State, sched: seq<Action>, sec: CmdSection, alone: bool)
    requires Reachable(c, s) && s.cmd.pc == CBody(sec) && (sec.ReadFirst? || sec.ReadAgain?)
    requires !s.cmd.shutdown && CmdShutdown !in sched && (alone ==> SubSignal !in sched)
    ensures || Moment(c, s, sched, Concludes(c, s.sh.reg.limit, s.subs + One(sec.ReadAgain?), alone))
            || Reading(s, Exec(c, s, sched), sec, NetSteps(c, s, sched), alone)
  {
    hide Apply, Weight, Reading, Moment, Concludes, Reachable;
    if sched == [] {
      ReadingStart(s, sec, alone);
    } else {
      var n := |sched| - 1;
      var t := Exec(c, s, sched[..n]);
      var f := Concludes(c, s.sh.reg.limit, s.subs + One(sec.ReadAgain?), alone);
      NotInPrefix(sched, CmdShutdown);
      if alone { NotInPrefix(sched, SubSignal); }
      ReadingRun(c, s, sched[..n], sec, alone);
      ReachableExec(c, s, sched[..n]);
      if Moment(c, s, sched[..n], f) {
        MomentLater(c, s, sched, f);
      } else {
        ReadingStep(c, s, t, sched[n], sec, NetSteps(c, s, sched[..n]), alone);
        if f(t, sched[n]) { MomentLater(c, s, sched, f); }
      }
    }
  }

  /** Every look at the limit decides how the plan goes on, whatever is interleaved and unless the
      commander is shut down: within eleven steps, interrupted sleeps aside, it has ended the plan
      with nothing more sent if the limit was at or below zero when it looked, and otherwise has sent
      exactly one more decrease in the next round. */
  lemma ReadRound(c: Config, s: State, sched: seq<Action>, sec: CmdSection)
    requires Reachable(c, s) && s.cmd.pc == CBody(sec) && (sec.ReadFirst? || sec.ReadAgain?)
    requires !s.cmd.shutdown && CmdShutdown !in sched
    ensures |ReadPath(sec, s.sh.reg.limit)| <= 11
    ensures NetSteps(c, s, sched) >= |ReadPath(sec, s.sh.reg.limit)| ==>
              Moment(c, s, sched,
                     Concludes(c, s.sh.reg.limit, s.subs + One(sec.ReadAgain?), SubSignal !in sched))
  {
    hide Exec, NetSteps, Moment, Reachable;
    ReadingRun(c, s, sched, sec, SubSignal !in sched);
  }

  // ---- How the plan ends ----

  /** The commander reads the limit inside its critical section, and it is `limit`. */
  function Reads(limit: int): (State, Action) -> bool {
    (s: State, a: Action) => a.CmdAct? && s.cmd.pc.CBody? && !s.cmd.pc.sec.Pick? && s.sh.reg.limit == limit
  }

  /** The commander looks for a drone inside its critical section while none is registered. */
  function FindsNobody(): (State, Action) -> bool {
    (s: State, a: Action) => a.CmdAct? && s.cmd.pc.CBody? && s.cmd.pc.sec.Pick? && s.sh.reg.count == 0
  }

  /** The commander has read the limit since it entered the decrease phase. */
  predicate AfterRead(pc: CmdPc) {
    match pc
    case CUnlock(sec) => !sec.Pick?
    case CLock(sec) => sec.ReadAgain?
    case CBody(sec) => sec.ReadAgain?
    case CSubtract => true
    case CLoop(ph) => ph.PDecrease?
    case CWait(ph) => ph.PDecrease?
    case CSleep(ph) => ph.PDecrease?
    case CAct(ph) => ph.PDecrease?
    case _ => false
  }

  predicate AfterPick(pc: CmdPc) {
    pc.CSuicide? || (pc.CUnlock? && pc.sec.Pick?)
  }

  /** The plan has come to its end by itself: a look found nobody, or a limit at or below zero. */
  ghost predicate PlanSpent(c: Config, s: State, sched: seq<Action>) {
    Moment(c, s, sched, FindsNobody()) || exists limit :: limit <= 0 && Moment(c, s, sched, Reads(limit))
  }

  /** What the commander remembers, it has read at some moment of the run. */
  ghost predicate Remembers(c: Config, sched: seq<Action>, t: State)
    requires ValidConfig(c)
  {
    && (AfterRead(t.cmd.pc) ==> Moment(c, Init(c), sched, Reads(t.cmd.seen)))
    && (AfterPick(t.cmd.pc) && t.cmd.pick == -1 ==> Moment(c, Init(c), sched, FindsNobody()))
    && (t.cmd.pc.CDone? ==> t.cmd.shutdown || PlanSpent(c, Init(c), sched))
  }

  /** Where a commander step comes from and what it has read. */
  lemma CmdStepReads(c: Config, s: State, interrupted: bool)
    requires CmdReady(s)
    ensures var cmd := CmdLocal(s.cmd, s.sh.reg, interrupted);
            && cmd.shutdown == s.cmd.shutdown
            && (AfterRead(cmd.pc) ==>
                  || (AfterRead(s.cmd.pc) && cmd.seen == s.cmd.seen)
                  || Reads(cmd.seen)(s, CmdAct(interrupted)))
            && (AfterPick(cmd.pc) ==>
                  || (AfterPick(s.cmd.pc) && cmd.pick == s.cmd.pick)
                  || Finds(cmd.pick)(s, CmdAct(interrupted)))
            && (cmd.pc.CDone? ==>
                  || s.cmd.shutdown
                  || (AfterRead(s.cmd.pc) && s.cmd.seen <= 0)
                  || (AfterPick(s.cmd.pc) && s.cmd.pick == -1))
  {
    hide FirstPid;
  }

  lemma SpentLater(c: Config, s: State, sched: seq<Action>)
    requires sched != [] && PlanSpent(c, s, sched[..|sched| - 1])
    ensures PlanSpent(c, s, sched)
  {
    hide Moment, Reads, FindsNobody;
    var n := |sched| - 1;
    if Moment(c, s, sched[..n], FindsNobody()) {
      MomentLater(c, s, sched, FindsNobody());
    } else {
      var limit :| limit <= 0 && Moment(c, s, sched[..n], Reads(limit));
      MomentLater(c, s, sched, Reads(limit));
    }
  }

  lemma NobodyFound(c: Config, s: State, interrupted: bool)
    requires Reachable(c, s) && Finds(-1)(s, CmdAct(interrupted))
    ensures FindsNobody()(s, CmdAct(interrupted))
  {
    PickSpec(c, s);
  }

  lemma RememberOthers(c: Config, sched: seq<Action>, s: State, s': State)
    requires ValidConfig(c) && sched != [] && Remembers(c, sched[..|sched| - 1], s)
    requires s'.cmd == s.cmd.(shutdown := s'.cmd.shutdown) && (s.cmd.shutdown ==> s'.cmd.shutdown)
    ensures Remembers(c, sched, s')
  {
    hide Moment, PlanSpent, AfterRead, AfterPick;
    var n := |sched| - 1;
    if Moment(c, Init(c), sched[..n], Reads(s.cmd.seen)) { MomentLater(c, Init(c), sched, Reads(s.cmd.seen)); }
    if Moment(c, Init(c), sched[..n], FindsNobody()) { MomentLater(c, Init(c), sched, FindsNobody()); }
    if PlanSpent(c, Init(c), sched[..n]) { SpentLater(c, Init(c), sched); }
  }

  lemma RememberStep(c: Config, sched: seq<Action>)
    requires ValidConfig(c) && sched != [] && sched[|sched| - 1].CmdAct?
    requires var n := |sched| - 1;
             Remembers(c, sched[..n], Run(c, sched[..n])) && CmdReady(Run(c, sched[..n]))
    ensures Remembers(c, sched, Run(c, sched))
  {
    var n := |sched| - 1;
    var a := sched[n];
    var s := Run(c, sched[..n]);
    var s' := Run(c, sched);
    assert s'.cmd == CmdLocal(s.cmd, s.sh.reg, a.interrupted);
    assert a == CmdAct(a.interrupted) && s == Exec(c, Init(c), sched[..n]);
    ReachableRun(c, sched[..n]);
    CmdStepReads(c, s, a.interrupted);
    hide Run, Exec, CmdLocal, Moment, AfterRead, AfterPick, Reads, Finds, FindsNobody, Reachable;
    if AfterRead(s'.cmd.pc) { MomentLater(c, Init(c), sched, Reads(s'.cmd.seen)); }
    if AfterPick(s'.cmd.pc) && s'.cmd.pick == -1 {
      if Finds(-1)(s, a) { NobodyFound(c, s, a.interrupted); }
      MomentLater(c, Init(c), sched, FindsNobody());
    }
    if s'.cmd.pc.CDone? && !s'.cmd.shutdown {
      if AfterRead(s.cmd.pc) && s.cmd.seen <= 0 {
        MomentLater(c, Init(c), sched, Reads(s.cmd.seen));
      } else {
        MomentLater(c, Init(c), sched, FindsNobody());
      }
    }
  }

  lemma {:induction false} RememberRun(c: Config, sched: seq<Action>)
    requires ValidConfig(c)
    ensures Remembers(c, sched, Run(c, sched))
  {
    if sched != [] {
      var n := |sched| - 1;
      var s := Run(c, sched[..n]);
      RememberRun(c, sched[..n]);
      hide Remembers;
      if sched[n].CmdAct? && CmdReady(s) {
        RememberStep(c, sched);
      } else {
        if !sched[n].CmdAct? { OthersSpareCmd(c, s, sched[n]); }
        RememberOthers(c, sched, s, Run(c, sched));
      }
    }
  }

  /** A commander that ends without being shut down has, at some moment of the run and inside its
      critical section, found no drone registered or read a limit at or below zero. */
  lemma PlanEnds(c: Config, sched: seq<Action>)
    requires ValidConfig(c) && Run(c, sched).cmd.pc.CDone? && !Run(c, sched).cmd.shutdown
    ensures PlanSpent(c, Init(c), sched)
  {
    RememberRun(c, sched);
  }
}
