/** What the processes decide, stated independently of the steps by which they decide it. */
module Decisions {
  import opened Counting
  import opened Registry
  import opened Drones
  import opened Swarm
  import opened Invariant
  import opened Preservation

  // ---- The main loop of a drone ----

  /** The rules of a drone's life, in order of priority: a shutdown request; an ordered suicide
      attack unless the battery is at 20 or below; an empty battery; on a mission below 20, retire
      when all loading cycles are used, else seek a place in the base; in the base at full battery,
      leave; otherwise carry on. */
  function Decision(d: Drone): Pc {
    if d.shutdown then Closing(ShutDown)
    else if d.sigUsr1 && d.battery > 20 then Lock(Remove(Suicide))
    else if d.battery == 0 then Lock(Remove(OutOfPower))
    else if d.loc == Mission && d.battery < 20 then
      (if d.cycles == 0 then Lock(Remove(Decommissioned)) else Lock(Reserve))
    else if d.loc == Base && d.battery == 100 then GatePoll(Out)
    else Top
  }

  /** The drone once it has decided; a suicide order it has looked at is cleared. */
  function Decided(d: Drone): Drone {
    d.(pc := Decision(d), sigUsr1 := d.sigUsr1 && d.shutdown)
  }

  /** The tests one pass of the main loop makes before it has decided. */
  function PassLength(d: Drone): nat {
    if d.shutdown then 1
    else if d.sigUsr1 && d.battery > 20 then 3
    else if d.battery == 0 then 3 + One(d.sigUsr1)
    else 5 + One(d.sigUsr1)
  }

  /** The drone after `k` tests of its main loop. */
  function Tests(d: Drone, k: nat): Drone {
    if k == 0 then d else AfterTest(Tests(d, k - 1))
  }

  function AfterTest(d: Drone): Drone {
    if InLoop(d.pc) then StepLoop(d) else d
  }

  /** Where a pass that began in `d` stands after `k` tests. */
  ghost predicate Onward(d: Drone, e: Drone, k: nat) {
    var spared := !d.shutdown && !(d.sigUsr1 && d.battery > 20);
    var powered := spared && !e.sigUsr1 && d.battery > 0;
    && e == d.(pc := e.pc, sigUsr1 := e.sigUsr1)
    && match e.pc
       case SigTest => k == 1 && !d.shutdown && e.sigUsr1 == d.sigUsr1
       case SigRead => k == 2 && !d.shutdown && d.sigUsr1 && !e.sigUsr1
       case PowerRead => k == 2 + One(d.sigUsr1) && spared && !e.sigUsr1
       case Dispatch => k == 3 + One(d.sigUsr1) && powered
       case ReturnRead => k == 4 + One(d.sigUsr1) && powered && d.loc == Mission
       case LeaveRead => k == 4 + One(d.sigUsr1) && powered && d.loc == Base
       case _ => k == PassLength(d) && e.pc == Decision(d) && e.sigUsr1 == (d.sigUsr1 && d.shutdown)
  }

  lemma OnwardFirst(d: Drone)
    requires d.pc == Top
    ensures Onward(d, AfterTest(d), 1)
  {
  }

  lemma OnwardStep(c: Config, d: Drone, e: Drone, k: nat)
    requires Core(c, d) && Onward(d, e, k) && k < PassLength(d)
    ensures InLoop(e.pc) && Onward(d, AfterTest(e), k + 1)
  {
  }

  lemma {:induction false} TestsOnward(c: Config, d: Drone, k: nat)
    requires Core(c, d) && d.pc == Top && 1 <= k <= PassLength(d)
    ensures Onward(d, Tests(d, k), k)
    ensures k < PassLength(d) ==> InLoop(Tests(d, k).pc)
  {
    hide AfterTest, Onward, PassLength;
    if k == 1 {
      assert Tests(d, 0) == d;
      OnwardFirst(d);
    } else {
      TestsOnward(c, d, k - 1);
      OnwardStep(c, d, Tests(d, k - 1), k - 1);
    }
    if k < PassLength(d) { OnwardStep(c, d, Tests(d, k), k); }
  }

  lemma OnwardEnds(c: Config, d: Drone, e: Drone)
    requires Core(c, d) && Onward(d, e, PassLength(d))
    ensures e == Decided(d)
  {
  }

  /** The action changes the drone from outside: a battery tick or a signal to it. */
  predicate Disturbs(s: State, a: Action, p: nat) {
    match a
    case TickAct(q) => q == p
    case SuicideOrder(q) => q == p
    case ShutdownOrder(q) => q == p
    case CmdAct(_) => s.cmd.pc.CSuicide? && s.cmd.pick == p
    case _ => false
  }

  /** Drone `p` sees no tick and no signal while `sched` runs. */
  ghost predicate Undisturbed(c: Config, s: State, sched: seq<Action>, p: nat) {
    forall k :: 0 <= k < |sched| ==> !Disturbs(Exec(c, s, sched[..k]), sched[k], p)
  }

  lemma UndisturbedPrefix(c: Config, s: State, sched: seq<Action>, p: nat)
    requires Undisturbed(c, s, sched, p) && sched != []
    ensures var n := |sched| - 1;
            Undisturbed(c, s, sched[..n], p) && !Disturbs(Exec(c, s, sched[..n]), sched[n], p)
  {
    hide Disturbs, Exec;
    var n := |sched| - 1;
    forall k | 0 <= k < n ensures !Disturbs(Exec(c, s, sched[..n][..k]), sched[..n][k], p) {
      assert sched[..n][..k] == sched[..k];
    }
  }

  /** What anything but its own step can do to a drone. */
  lemma Bystander(c: Config, s: State, a: Action, p: nat)
    requires p < |s.ds| && !(a == DroneAct(p) && Enabled(s, a))
    ensures p < |Apply(c, s, a).ds|
    ensures var d := s.ds[p];
            var d' := Apply(c, s, a).ds[p];
            d' == d || d' == Tick(d) || d' == d.(sigUsr1 := true) || d' == d.(shutdown := true)
  {
    hide StepDrone, Tick;
  }

  lemma SpareDrone(c: Config, s: State, a: Action, p: nat)
    requires p < |s.ds| && !Disturbs(s, a, p) && !(a == DroneAct(p) && Enabled(s, a))
    ensures p < |Apply(c, s, a).ds| && Apply(c, s, a).ds[p] == s.ds[p]
  {
    hide StepDrone;
  }

  lemma ExitedSpared(c: Config, s: State, a: Action, p: nat)
    requires p < |s.ds| && s.ds[p].pc.Exited?
    ensures p < |Apply(c, s, a).ds| && Apply(c, s, a).ds[p] == s.ds[p]
  {
    hide StepDrone;
  }

  /** A process that has exited takes no step and is changed by nothing. */
  lemma {:induction false} ExitedStays(c: Config, s: State, sched: seq<Action>, p: nat)
    requires p < |s.ds| && s.ds[p].pc.Exited?
    ensures var t := Exec(c, s, sched); p < |t.ds| && t.ds[p] == s.ds[p]
    ensures OwnSteps(c, s, sched, DroneAct(p)) == 0
  {
    if sched != [] {
      ExitedStays(c, s, sched[..|sched| - 1], p);
      ExitedSpared(c, Exec(c, s, sched[..|sched| - 1]), sched[|sched| - 1], p);
      hide Apply;
    }
  }

  lemma OwnTest(c: Config, s: State, p: nat)
    requires p < |s.ds| && InLoop(s.ds[p].pc)
    ensures Apply(c, s, DroneAct(p)) == s.(ds := s.ds[p := StepLoop(s.ds[p])])
  {
    hide StepLoop;
  }

  /** What a drone that was `d` at the top has become after `k` steps of its own. */
  ghost predicate InPass(d: Drone, e: Drone, k: nat) {
    && (k < PassLength(d) ==> e == Tests(d, k) && InLoop(e.pc))
    && (k == PassLength(d) ==> e == Decided(d))
  }

  lemma InPassStep(c: Config, d: Drone, e: Drone, k: nat)
    requires Core(c, d) && d.pc == Top && InPass(d, e, k)
    ensures InPass(d, AfterTest(e), k + 1)
    ensures k < PassLength(d) ==> InLoop(e.pc)
  {
    hide AfterTest, PassLength, Decided, Core, Onward;
    if k < PassLength(d) {
      TestsOnward(c, d, k + 1);
      if k + 1 == PassLength(d) { OnwardEnds(c, d, Tests(d, k + 1)); }
    }
  }

  lemma InPassOver(d: Drone, e: Drone, k: nat)
    requires k > PassLength(d)
    ensures InPass(d, e, k)
  {
  }

  lemma InPassAction(c: Config, d: Drone, s: State, a: Action, p: nat, k: nat)
    requires Core(c, d) && d.pc == Top && p < |s.ds| && InPass(d, s.ds[p], k) && !Disturbs(s, a, p)
    ensures p < |Apply(c, s, a).ds|
    ensures InPass(d, Apply(c, s, a).ds[p], if SameProcess(a, DroneAct(p)) && Enabled(s, a) then k + 1 else k)
  {
    hide Core, InPass, Apply, StepLoop, Enabled, Disturbs, PassLength;
    if a == DroneAct(p) && Enabled(s, a) {
      SparesCount(c, s, a);
      InPassStep(c, d, s.ds[p], k);
      if k < PassLength(d) {
        OwnTest(c, s, p);
      } else {
        InPassOver(d, Apply(c, s, a).ds[p], k + 1);
      }
    } else {
      SpareDrone(c, s, a, p);
    }
  }

  lemma {:induction false} PassRun(c: Config, s: State, sched: seq<Action>, p: nat)
    requires p < |s.ds| && s.ds[p].pc == Top && Core(c, s.ds[p])
    requires Undisturbed(c, s, sched, p)
    ensures p < |Exec(c, s, sched).ds|
    ensures InPass(s.ds[p], Exec(c, s, sched).ds[p], OwnSteps(c, s, sched, DroneAct(p)))
  {
    if sched == [] {
      assert s.ds[p] == Tests(s.ds[p], 0);
    } else {
      hide Core, InPass, Apply, Disturbs, Undisturbed, Enabled, SameProcess;
      var n := |sched| - 1;
      UndisturbedPrefix(c, s, sched, p);
      PassRun(c, s, sched[..n], p);
      InPassAction(c, s.ds[p], Exec(c, s, sched[..n]), sched[n], p, OwnSteps(c, s, sched[..n], DroneAct(p)));
    }
  }

  lemma SparesCount(c: Config, s: State, a: Action)
    ensures |Apply(c, s, a).ds| >= |s.ds|
  {
    hide StepDrone, OpLocal, CmdLocal;
  }

  /** A pass of the main loop makes at most six tests and then takes the decision those rules
      prescribe for the drone as it was at the top, whatever the other processes do in between, as
      long as no tick or signal reaches the drone itself. */
  lemma OnePassDecides(c: Config, s: State, sched: seq<Action>, p: nat)
    requires Reachable(c, s) && p < |s.ds| && s.ds[p].pc == Top
    requires Undisturbed(c, s, sched, p)
    ensures var d := s.ds[p];
            var t := Exec(c, s, sched);
            var k := OwnSteps(c, s, sched, DroneAct(p));
            && 1 <= PassLength(d) <= 6 && p < |t.ds|
            && (k < PassLength(d) ==> t.ds[p] == Tests(d, k) && InLoop(t.ds[p].pc))
            && (k == PassLength(d) ==> t.ds[p] == Decided(d))
  {
    var d := s.ds[p];
    assert Core(c, d) by { Safety(c, s); assert LocalInv(c, d); }
    hide Reachable, Undisturbed, Core, Exec, OwnSteps;
    PassRun(c, s, sched, p);
  }

  /** A drone bound for removal meets the condition of its reason: on a mission an empty battery,
      all loading cycles used, or no reservation held. */
  lemma RemovalJustified(c: Config, s: State, p: nat, reason: Reason)
    requires Reachable(c, s) && p < |s.ds|
    requires s.ds[p].pc == Lock(Remove(reason)) || s.ds[p].pc == Body(Remove(reason)) || RemovedFor(s.ds[p], reason)
    ensures match reason
            case OutOfPower => s.ds[p].loc == Mission ==> s.ds[p].battery == 0
            case Decommissioned => s.ds[p].entries == c.cycles && s.ds[p].battery < 20 && !s.ds[p].reserved
            case Suicide => !s.ds[p].reserved && (s.ds[p].loc == Base ==> s.ds[p].battery > 20)
            case Other => false
  {
    hide SlotInv, IdInv, CountInv, Consistent;
    Safety(c, s);
    assert LocalInv(c, s.ds[p]);
  }

  // ---- Admission and reservation ----

  /** A registering drone is admitted exactly when some slot is unoccupied and it either starts on
      a mission or finds occupancy below the limit. An admitted drone gets a slot that was
      unoccupied; every other slot is left alone. */
  lemma AdmittedIff(c: Config, s: State, p: nat)
    requires Reachable(c, s) && p < |s.ds| && s.ds[p].pc == Body(Register)
    ensures var s' := Apply(c, s, DroneAct(p));
            var i := s'.ds[p].index;
            && Registered(s'.ds[p]) == ((s.ds[p].start == Mission || Occupancy(s.sh.reg) < s.sh.reg.limit)
                                        && exists k :: 0 <= k < |s.sh.reg.slots| && s.sh.reg.slots[k].loc == Undefined)
            && (Registered(s'.ds[p]) ==>
                  && 0 <= i < |s.sh.reg.slots| && s.sh.reg.slots[i].loc == Undefined
                  && s'.sh.reg.slots == s.sh.reg.slots[i := Slot(0, p, s.ds[p].start)])
            && (!Registered(s'.ds[p]) ==> s'.sh.reg.slots == s.sh.reg.slots)
  {
    var d := s.ds[p];
    assert Consistent(s.sh.reg) && d.id == 0 && d.start != Undefined by {
      hide SlotInv, IdInv, CountInv, Consistent;
      Safety(c, s);
      assert LocalInv(c, d);
    }
    hide Reachable, StepDrone, Consistent, Registered;
    assert StepDrone(s.sh, p, d) == RegisterBody(s.sh, p, d) by { RegisterStep(s.sh, p, d); }
    SomeUnoccupied(s.sh.reg);
    Admission(s.sh, p, d);
    hide RegisterBody;
  }

  lemma RegisterStep(sh: Shared, p: int, d: Drone)
    requires d.pc == Body(Register)
    ensures StepDrone(sh, p, d) == RegisterBody(sh, p, d)
  {
    hide RegisterBody;
  }

  lemma Admission(sh: Shared, p: int, d: Drone)
    requires Consistent(sh.reg) && d.pc == Body(Register) && d.id == 0 && d.start != Undefined
    ensures var (sh', d') := RegisterBody(sh, p, d);
            var r := sh.reg;
            && r.count <= |r.slots|
            && Registered(d') == ((d.start == Mission || Occupancy(r) < r.limit) && r.count < |r.slots|)
            && (if Registered(d') then
                  && 0 <= d'.index < |r.slots| && r.slots[d'.index].loc == Undefined
                  && sh'.reg.slots == r.slots[d'.index := Slot(0, p, d.start)]
                else sh'.reg.slots == r.slots)
  {
    RegisterOutcome(sh, p, d);
    AddConsistent(sh.reg, Slot(d.id, p, d.start));
    assert sh.reg.count <= |sh.reg.slots|;
    hide Consistent, Add, Occupancy, RegisterBody;
  }

  lemma SomeUnoccupied(r: Reg)
    requires Consistent(r)
    ensures (r.count < |r.slots|) == exists k :: 0 <= k < |r.slots| && r.slots[k].loc == Undefined
  {
    if r.free != [] {
      var k := r.free[0];
      assert k in r.free && r.slots[k].loc == Undefined;
    } else {
      forall k | 0 <= k < |r.slots| ensures r.slots[k].loc != Undefined { assert k !in r.free; }
    }
  }

  /** A drone seeking a place leaves the reservation section on its way to the gate exactly when it
      already held a reservation or occupancy was below the limit, and then holds exactly one. */
  lemma ReservedIff(c: Config, s: State, p: nat)
    requires Reachable(c, s) && p < |s.ds| && s.ds[p].pc == Body(Reserve)
    ensures var s1 := Apply(c, s, DroneAct(p));
            var s2 := Apply(c, s1, DroneAct(p));
            && s2.ds[p].pc == (if s.ds[p].reserved || Occupancy(s.sh.reg) < s.sh.reg.limit then GatePoll(In) else Top)
            && (s2.ds[p].pc == GatePoll(In) <==> HoldsReservation(s2.ds[p]))
            && s2.sh.reg.reserving == s.sh.reg.reserving + One(HoldsReservation(s2.ds[p])) - One(s.ds[p].reserved)
            && s2.sh.sem == s.sh.sem + 1
  {
    hide SlotInv, IdInv, CountInv, Consistent;
    Safety(c, s);
    assert LocalInv(c, s.ds[p]);
  }

  // ---- Who can touch what ----

  /** The drones of `t` are those of `s`, in order, but for drone `p`. */
  predicate OthersKept(s: State, t: State, p: int) {
    |t.ds| == |s.ds| && forall q :: 0 <= q < |s.ds| && q != p ==> t.ds[q] == s.ds[q]
  }

  /** Processes are isolated: an action of or to a drone leaves all other drones, the operator and
      the commander alone; the operator leaves the drones there are and the commander alone; the
      commander leaves the registry alone, touches no drone but the one it orders, and reaches the
      operator only through the flag of the signal it sends. */
  lemma Isolation(c: Config, s: State, a: Action)
    ensures var s' := Apply(c, s, a);
            match a
            case DroneAct(p) => OthersKept(s, s', p) && s'.op == s.op && s'.cmd == s.cmd
            case TickAct(p) => OthersKept(s, s', p) && s' == s.(ds := s'.ds)
            case SuicideOrder(p) => OthersKept(s, s', p) && s' == s.(ds := s'.ds)
            case ShutdownOrder(p) => OthersKept(s, s', p) && s' == s.(ds := s'.ds)
            case OpAct => s.ds <= s'.ds && s'.cmd == s.cmd && s'.sh.reg == s.sh.reg.(limit := s'.sh.reg.limit)
                          && s'.sh.tokens == s.sh.tokens
            case CmdAct(_) =>
              var pc := s.cmd.pc;
              && OthersKept(s, s', if pc.CSuicide? then s.cmd.pick else -1)
              && s'.sh == s.sh.(sem := s'.sh.sem)
              && s'.op == s.op.(sig1 := s.op.sig1 || (pc.CAct? && pc.ph.PIncrease?),
                                sig2 := s.op.sig2 || pc == CSubtract)
              && s'.adds == s.adds + One(pc.CAct? && pc.ph.PIncrease?) && s'.subs == s.subs + One(pc == CSubtract)
            case _ => s'.ds == s.ds && s'.sh == s.sh
  {
    hide StepDrone, OpLocal, CmdLocal, Tick;
  }

  // ---- New drones ----

  /** A process that has just been started: full battery, nothing held, no signal seen, and charging
      exactly when it starts in the base. */
  predicate Pristine(c: Config, d: Drone, start: Location) {
    && d.pc == Lock(Register) && d.start == start && d.loc == start
    && d.battery == 100 && (d.charging <==> start == Base) && d.cycles == c.cycles
    && !d.reserved && !d.sigUsr1 && !d.shutdown && d.semAdj == 0 && !d.token
    && d.index == -1 && d.entries == 0 && d.changes == 0
  }

  /** Only the operator starts drones, one at a time and pristine: on a mission while it brings up the
      starting drones, in the base when its check has found room. */
  lemma SpawnedPristine(c: Config, s: State, a: Action)
    requires |Apply(c, s, a).ds| != |s.ds|
    ensures a == OpAct && (s.op.pc.Starting? || (s.op.pc.OSpawn? && s.op.canCreate))
    ensures var ds' := Apply(c, s, a).ds;
            && |ds'| == |s.ds| + 1 && ds'[..|s.ds|] == s.ds
            && Pristine(c, ds'[|s.ds|], if s.op.pc.Starting? then Mission else Base)
  {
    hide StepDrone, OpLocal, CmdLocal, Tick;
  }

  // ---- The operator's starting drones ----

  predicate StartsOnMission(d: Drone) {
    d.start == Mission
  }

  ghost predicate StartInv(c: Config, s: State) {
    var k := Count(s.ds, StartsOnMission);
    match s.op.pc
    case Starting(i) => k == i <= c.n
    case _ => k <= c.n && (k == c.n || s.op.shutdown)
  }

  /** Apart from spawning, no action changes where a drone started or forgets a shutdown. */
  lemma StartsKept(c: Config, s: State, a: Action)
    requires !a.OpAct?
    ensures var s' := Apply(c, s, a);
            && s'.op.pc == s.op.pc && (s.op.shutdown ==> s'.op.shutdown)
            && |s'.ds| == |s.ds| && forall p :: 0 <= p < |s.ds| ==> s'.ds[p].start == s.ds[p].start
  {
    match a
    case DroneAct(p) => if p < |s.ds| { DroneKeepsStart(s.sh, p, s.ds[p]); }
    case _ =>
  }

  lemma DroneKeepsStart(sh: Shared, p: int, d: Drone)
    ensures StepDrone(sh, p, d).1.start == d.start
  {
    hide StepDrone;
    StepKeeps(sh, p, d);
  }

  lemma StartOp(c: Config, s: State)
    requires ValidConfig(c) && StartInv(c, s)
    ensures StartInv(c, StepOp(c, s))
  {
    CountAppend(s.ds, NewDrone(c, Mission), StartsOnMission);
    CountAppend(s.ds, NewDrone(c, Base), StartsOnMission);
    hide Count, ValidConfig;
  }

  lemma StartStep(c: Config, s: State, a: Action)
    requires ValidConfig(c) && StartInv(c, s)
    ensures StartInv(c, Apply(c, s, a))
  {
    if a.OpAct? {
      StartOp(c, s);
      hide StepOp;
    } else {
      StartsKept(c, s, a);
      hide Apply;
      CountByPosition(s.ds, Apply(c, s, a).ds, StartsOnMission);
    }
  }

  lemma {:induction false} StartRun(c: Config, sched: seq<Action>)
    requires ValidConfig(c)
    ensures StartInv(c, Run(c, sched))
  {
    if sched != [] {
      StartRun(c, sched[..|sched| - 1]);
      StartStep(c, Run(c, sched[..|sched| - 1]), sched[|sched| - 1]);
      hide Apply;
    }
  }

  /** The operator starts exactly the configured number of mission drones unless it is told to shut
      down first; every other drone starts in the base. */
  lemma StartingDrones(c: Config, sched: seq<Action>)
    requires ValidConfig(c)
    ensures var s := Run(c, sched);
            var k := |Positions(s.ds, StartsOnMission)|;
            k <= c.n && (!s.op.pc.Starting? && !s.op.shutdown ==> k == c.n)
  {
    StartRun(c, sched);
    CountIsCardinality(Run(c, sched).ds, StartsOnMission);
  }

  // ---- The commander's pick ----

  /** The commander finds nobody to pick exactly when no drone is registered; otherwise it picks
      the registered drone with the lowest index. */
  lemma PickSpec(c: Config, s: State)
    requires Reachable(c, s)
    ensures FirstPid(s.sh.reg.slots, 0) == -1 <==> s.sh.reg.count == 0
    ensures s.sh.reg.count > 0 ==>
              var p := FirstPid(s.sh.reg.slots, 0);
              && 0 <= p < |s.ds| && Registered(s.ds[p])
              && forall q :: 0 <= q < |s.ds| && Registered(s.ds[q]) ==> s.ds[p].index <= s.ds[q].index
  {
    hide IdInv, CountInv, FreeIsComplement;
    Safety(c, s);
    var r := s.sh.reg;
    var k := FirstPidSpec(r.slots, 0);
    if k < |r.slots| {
      assert Owned(r.slots, s.ds, k);
      CountPositive(r.slots, Occupied, k);
      forall q | 0 <= q < |s.ds| && Registered(s.ds[q]) ensures k <= s.ds[q].index {
        assert Link(r.slots, q, s.ds[q]) && LocalInv(c, s.ds[q]);
      }
    } else {
      CountZero(r.slots, Occupied);
    }
  }
}
