/** Every action keeps the invariant, hence every state of every run satisfies it. */
module Preservation {
  import opened Counting
  import opened Limit
  import opened Registry
  import opened Drones
  import opened Swarm
  import opened Invariant

  // ---- One drone step ----

  lemma QuietRegistryStep(c: Config, sh: Shared, p: int, d: Drone, sh': Shared, d': Drone)
    requires Before(c, sh, p, d)
    requires sh'.reg == sh.reg && sh'.refusals == sh.refusals && SameStanding(d, d')
    ensures RegistryStep(sh, p, d, sh', d')
  {
  }

  /** What the rest of the system may rely on when drone `p` steps. */
  ghost predicate Effect(c: Config, sh: Shared, p: int, d: Drone, sh': Shared, d': Drone) {
    LocalInv(c, d') && RegistryStep(sh, p, d, sh', d') && UnitsStep(sh, d, sh', d')
  }

  lemma BodyEffect(c: Config, sh: Shared, p: int, d: Drone, sec: Sec)
    requires Before(c, sh, p, d) && d.pc == Body(sec)
    ensures var (sh', d') := SectionBody(sh, p, d, sec); Effect(c, sh, p, d, sh', d')
  {
    match sec
    case Register =>
      RegisterLocal(c, sh, p, d);
      RegisterSlots(c, sh, p, d);
      RegisterCounts(c, sh, p, d);
    case Remove(reason) =>
      DeleteSlots(c, sh, p, d, reason);
      DeleteCounts(c, sh, p, d, reason);
    case Reserve => ReserveEffect(c, sh, p, d);
    case Publish(dir) => PublishEffect(c, sh, p, d, dir);
  }

  lemma UnitEffect(c: Config, sh: Shared, p: int, d: Drone)
    requires Before(c, sh, p, d) && Ready(sh, d)
    requires d.pc.Lock? || d.pc.Unlock? || d.pc.Closing?
    ensures var (sh', d') := StepDrone(sh, p, d); Effect(c, sh, p, d, sh', d')
  {
    assert LocalInv(c, d);
    hide Before, LocalInv, SameStanding, RegistryStep, UnitsStep, SectionBody, StepGate, StepLoop;
    var (sh', d') := StepDrone(sh, p, d);
    match d.pc {
      case Lock(sec) => LockEffect(c, sh, d, sec);
      case Unlock(sec) => UnlockEffect(c, sh, d, sec);
      case Closing(how) => ExitEffect(c, sh, d, how);
    }
    QuietRegistryStep(c, sh, p, d, sh', d');
  }

  lemma CrossingEffect(c: Config, sh: Shared, p: int, d: Drone)
    requires Before(c, sh, p, d) && Ready(sh, d)
    requires d.pc.GatePoll? || d.pc.GateRead? || d.pc.InGate? || d.pc.Commit?
    ensures var (sh', d') := StepDrone(sh, p, d); Effect(c, sh, p, d, sh', d')
  {
    assert LocalInv(c, d);
    hide Before, LocalInv, SameStanding, RegistryStep, SectionBody, StepLoop;
    var (sh', d') := StepDrone(sh, p, d);
    if d.pc.Commit? { CommitEffect(c, d, d.pc.dir); } else { GateEffect(c, sh, d); }
    QuietRegistryStep(c, sh, p, d, sh', d');
  }

  lemma LoopEffect(c: Config, sh: Shared, p: int, d: Drone)
    requires Before(c, sh, p, d) && InLoop(d.pc)
    ensures Effect(c, sh, p, d, sh, StepLoop(d))
  {
    LoopLocal(c, d);
    LoopStanding(d);
    QuietRegistryStep(c, sh, p, d, sh, StepLoop(d));
  }

  lemma DroneEffect(c: Config, sh: Shared, p: int, d: Drone)
    requires Before(c, sh, p, d) && Ready(sh, d)
    ensures var (sh', d') := StepDrone(sh, p, d); Effect(c, sh, p, d, sh', d')
  {
    if d.pc.Body? {
      BodyEffect(c, sh, p, d, d.pc.sec);
    } else if InLoop(d.pc) {
      LoopEffect(c, sh, p, d);
    } else if d.pc.Lock? || d.pc.Unlock? || d.pc.Closing? {
      UnitEffect(c, sh, p, d);
    } else {
      CrossingEffect(c, sh, p, d);
    }
  }

  // ---- Installing a stepped drone ----

  lemma SlotInvUpdate(slots: seq<Slot>, slots': seq<Slot>, ds: seq<Drone>, p: nat, d': Drone)
    requires SlotInv(slots, ds) && p < |ds| && SlotStep(slots, slots', p, d')
    requires forall q :: 0 <= q < |ds| ==> ds[q].loc != Undefined
    ensures SlotInv(slots', ds[p := d'])
  {
    var ds' := ds[p := d'];
    forall q | 0 <= q < |ds'| ensures Link(slots', q, ds'[q]) {
      if q != p {
        assert Link(slots, q, ds[q]);
        if Registered(ds[q]) {
          assert Owned(slots, ds, ds[q].index);
        }
      }
    }
    forall i | 0 <= i < |slots'| ensures Owned(slots', ds', i) {
      assert Owned(slots, ds, i);
    }
  }

  lemma CountInvUpdate(sh: Shared, ds: seq<Drone>, others: int, p: nat, sh': Shared, d': Drone)
    requires CountInv(sh, ds, others) && p < |ds|
    requires StandingStep(sh.reg, ds[p], sh'.reg, d') && UnitsStep(sh, ds[p], sh', d')
    ensures CountInv(sh', ds[p := d'], others)
  {
    CountUpdate(ds, p, d', HoldsSem);
    CountUpdate(ds, p, d', HoldsToken);
    CountUpdate(ds, p, d', Registered);
    CountUpdate(ds, p, d', InBaseSlot);
    CountUpdate(ds, p, d', HoldsReservation);
    CountUpdate(ds, p, d', LostPower);
    CountUpdate(ds, p, d', LostDecommissioned);
    CountUpdate(ds, p, d', LostSuicide);
  }

  lemma InvBefore(c: Config, s: State, p: nat)
    requires Inv(c, s) && p < |s.ds|
    ensures Before(c, s.sh, p, s.ds[p])
  {
    forall i | 0 <= i < |s.sh.reg.slots| && s.sh.reg.slots[i].loc != Undefined && s.sh.reg.slots[i].pid == p
      ensures Registered(s.ds[p]) && s.ds[p].index == i
    {
      assert Owned(s.sh.reg.slots, s.ds, i);
    }
  }

  lemma IdInvUpdate(r: Reg, r': Reg, ds: seq<Drone>, p: nat, d': Drone)
    requires IdInv(r.nextId, ds) && p < |ds| && IdStep(r, ds[p], r', d')
    ensures IdInv(r'.nextId, ds[p := d'])
  {
  }

  lemma Install(c: Config, s: State, p: nat, sh': Shared, d': Drone)
    requires ValidConfig(c) && Inv(c, s) && p < |s.ds| && Effect(c, s.sh, p, s.ds[p], sh', d')
    ensures Inv(c, s.(sh := sh', ds := s.ds[p := d']))
  {
    SlotInvUpdate(s.sh.reg.slots, sh'.reg.slots, s.ds, p, d');
    IdInvUpdate(s.sh.reg, sh'.reg, s.ds, p, d');
    hide SlotInv, IdInv, Consistent, LocalInv, SlotStep;
    CountInvUpdate(s.sh, s.ds, s.op.semAdj + s.cmd.semAdj, p, sh', d');
  }

  lemma DroneStepKeepsInv(c: Config, s: State, p: nat)
    requires ValidConfig(c) && Inv(c, s) && p < |s.ds| && Ready(s.sh, s.ds[p])
    ensures Inv(c, StepProcess(s, p))
  {
    InvBefore(c, s, p);
    DroneEffect(c, s.sh, p, s.ds[p]);
    var (sh', d') := StepDrone(s.sh, p, s.ds[p]);
    Install(c, s, p, sh', d');
  }

  /** Battery ticks and signals, which leave the shared state alone. */
  lemma PerturbKeepsInv(c: Config, s: State, p: nat, d': Drone)
    requires ValidConfig(c) && Inv(c, s) && p < |s.ds|
    requires LocalInv(c, d') && SameStanding(s.ds[p], d')
    requires d'.semAdj == s.ds[p].semAdj && d'.token == s.ds[p].token
    ensures Inv(c, s.(ds := s.ds[p := d']))
  {
    InvBefore(c, s, p);
    QuietRegistryStep(c, s.sh, p, s.ds[p], s.sh, d');
    Install(c, s, p, s.sh, d');
  }

  lemma OrderSuicideKeepsInv(c: Config, s: State, p: int)
    requires ValidConfig(c) && Inv(c, s)
    ensures Inv(c, OrderSuicide(s, p))
  {
    if 0 <= p < |s.ds| && !s.ds[p].pc.Exited? {
      var d := s.ds[p];
      assert LocalInv(c, d);
      hide Inv, LocalInv, SameStanding;
      SignalEffect(c, d, true, d.shutdown);
      assert d.(sigUsr1 := true) == Perturb(d, d.battery, d.changes, true, d.shutdown);
      PerturbKeepsInv(c, s, p, d.(sigUsr1 := true));
    }
  }

  lemma TickKeepsInv(c: Config, s: State, p: nat)
    requires ValidConfig(c) && Inv(c, s) && p < |s.ds|
    ensures Inv(c, s.(ds := s.ds[p := Tick(s.ds[p])]))
  {
    TickEffect(c, s.ds[p]);
    PerturbKeepsInv(c, s, p, Tick(s.ds[p]));
  }

  lemma ShutdownKeepsInv(c: Config, s: State, p: nat)
    requires ValidConfig(c) && Inv(c, s) && p < |s.ds|
    ensures Inv(c, s.(ds := s.ds[p := s.ds[p].(shutdown := true)]))
  {
    var d := s.ds[p];
    assert LocalInv(c, d);
    hide Inv, LocalInv, SameStanding;
    SignalEffect(c, d, d.sigUsr1, true);
    assert d.(shutdown := true) == Perturb(d, d.battery, d.changes, d.sigUsr1, true);
    PerturbKeepsInv(c, s, p, d.(shutdown := true));
  }

  // ---- The operator ----

  lemma SpawnSlots(slots: seq<Slot>, ds: seq<Drone>, d: Drone)
    requires SlotInv(slots, ds) && !Registered(d)
    ensures SlotInv(slots, ds + [d])
  {
    var ds' := ds + [d];
    forall i | 0 <= i < |slots| ensures Owned(slots, ds', i) { assert Owned(slots, ds, i); }
    forall q | 0 <= q < |ds'| ensures Link(slots, q, ds'[q]) {
      if q < |ds| { assert Link(slots, q, ds[q]); }
    }
  }

  lemma SpawnCounts(sh: Shared, ds: seq<Drone>, others: int, c: Config, start: Location)
    requires CountInv(sh, ds, others)
    ensures CountInv(sh, ds + [NewDrone(c, start)], others)
  {
    var d := NewDrone(c, start);
    CountAppend(ds, d, HoldsSem);
    CountAppend(ds, d, HoldsToken);
    CountAppend(ds, d, Registered);
    CountAppend(ds, d, InBaseSlot);
    CountAppend(ds, d, HoldsReservation);
    CountAppend(ds, d, LostPower);
    CountAppend(ds, d, LostDecommissioned);
    CountAppend(ds, d, LostSuicide);
  }

  lemma NewDroneLocal(c: Config, start: Location)
    requires start != Undefined && c.cycles >= 0
    ensures LocalInv(c, NewDrone(c, start))
  {
  }

  lemma SpawnKeepsInv(c: Config, sh: Shared, ds: seq<Drone>, others: int, start: Location)
    requires SwarmInv(c, sh, ds, others) && start != Undefined && c.cycles >= 0
    ensures SwarmInv(c, sh, ds + [NewDrone(c, start)], others)
  {
    hide LocalInv, CountInv, SlotInv, Consistent;
    SpawnSlots(sh.reg.slots, ds, NewDrone(c, start));
    SpawnCounts(sh, ds, others, c, start);
    NewDroneLocal(c, start);
  }

  /** The operator or the commander takes or returns the semaphore, or the limit moves. */
  lemma OthersKeepInv(c: Config, sh: Shared, ds: seq<Drone>, others: int, k: int, limit: int)
    requires SwarmInv(c, sh, ds, others) && (k <= 0 || sh.sem >= k)
    ensures SwarmInv(c, sh.(sem := sh.sem - k), ds, others + k)
    ensures SwarmInv(c, sh.(reg := sh.reg.(limit := limit)), ds, others)
  {
  }

  lemma OpLocalInv(c: Config, s: State)
    requires ValidConfig(c) && OpInv(c, s.sh.reg, s.op)
    ensures OpInv(c, OpOutput(c, s).sh.reg, OpLocal(c, s))
  {
  }

  lemma OpOutputKeepsInv(c: Config, s: State, others: int)
    requires ValidConfig(c) && SwarmInv(c, s.sh, s.ds, others) && OpReady(s)
    ensures var s' := OpOutput(c, s);
            SwarmInv(c, s'.sh, s'.ds, others + One(s.op.pc.OLock?) - One(s.op.pc.OUnlock?))
  {
    hide SwarmInv;
    match s.op.pc
    case Starting(_) => SpawnKeepsInv(c, s.sh, s.ds, others, Mission);
    case OSpawn => SpawnKeepsInv(c, s.sh, s.ds, others, Base);
    case OLock(_) => OthersKeepInv(c, s.sh, s.ds, others, 1, 0);
    case OUnlock(_) => OthersKeepInv(c, s.sh, s.ds, others, -1, 0);
    case OBody(Increase) => OthersKeepInv(c, s.sh, s.ds, others, 0, Doubled(s.sh.reg.limit, c.n));
    case OBody(Decrease) => OthersKeepInv(c, s.sh, s.ds, others, 0, Halved(s.sh.reg.limit));
    case _ =>
  }

  lemma OpStepKeepsInv(c: Config, s: State)
    requires ValidConfig(c) && Inv(c, s) && OpReady(s)
    ensures Inv(c, StepOp(c, s))
  {
    hide SwarmInv;
    OpLocalInv(c, s);
    OpOutputKeepsInv(c, s, s.op.semAdj + s.cmd.semAdj);
  }

  // ---- The commander ----

  lemma CmdOutputKeepsInv(c: Config, s: State)
    requires ValidConfig(c) && Inv(c, s) && CmdReady(s)
    ensures var s' := CmdOutput(s);
            && SwarmInv(c, s'.sh, s'.ds, s.op.semAdj + s.cmd.semAdj + One(s.cmd.pc.CLock?) - One(s.cmd.pc.CUnlock?))
            && OpInv(c, s'.sh.reg, s'.op)
            && s'.op.semAdj == s.op.semAdj
  {
    hide SwarmInv;
    var others := s.op.semAdj + s.cmd.semAdj;
    match s.cmd.pc
    case CLock(_) => OthersKeepInv(c, s.sh, s.ds, others, 1, 0);
    case CUnlock(_) => OthersKeepInv(c, s.sh, s.ds, others, -1, 0);
    case CSuicide(_) => OrderSuicideKeepsInv(c, s, s.cmd.pick);
    case _ =>
  }

  lemma CmdStepKeepsInv(c: Config, s: State, interrupted: bool)
    requires ValidConfig(c) && Inv(c, s) && CmdReady(s)
    ensures Inv(c, StepCmd(s, interrupted))
  {
    hide SwarmInv;
    CmdOutputKeepsInv(c, s);
  }

  // ---- Every run ----

  lemma ApplyKeepsInv(c: Config, s: State, a: Action)
    requires ValidConfig(c) && Inv(c, s)
    ensures Inv(c, Apply(c, s, a))
  {
    hide SwarmInv;
    match a
    case DroneAct(p) => if Enabled(s, a) { DroneStepKeepsInv(c, s, p); }
    case TickAct(p) => if p < |s.ds| { TickKeepsInv(c, s, p); }
    case SuicideOrder(p) => OrderSuicideKeepsInv(c, s, p);
    case ShutdownOrder(p) => if p < |s.ds| { ShutdownKeepsInv(c, s, p); }
    case OpAct => if OpReady(s) { OpStepKeepsInv(c, s); }
    case CmdAct(interrupted) => if CmdReady(s) { CmdStepKeepsInv(c, s, interrupted); }
    case _ =>
  }

  lemma InitInv(c: Config)
    requires ValidConfig(c)
    ensures Inv(c, Init(c))
  {
    InitialConsistent(c.capacity, StartLimit(c.n));
  }

  lemma {:induction false} ExecKeepsInv(c: Config, s: State, sched: seq<Action>)
    requires ValidConfig(c) && Inv(c, s)
    ensures Inv(c, Exec(c, s, sched))
  {
    if sched != [] {
      ExecKeepsInv(c, s, sched[..|sched| - 1]);
      ApplyKeepsInv(c, Exec(c, s, sched[..|sched| - 1]), sched[|sched| - 1]);
    }
  }

  /** Some schedule leads from the start to `s`. */
  ghost predicate Reachable(c: Config, s: State) {
    ValidConfig(c) && Leads(c, Init(c), s)
  }

  lemma ReachableRun(c: Config, sched: seq<Action>)
    requires ValidConfig(c)
    ensures Reachable(c, Run(c, sched))
  {
  }

  /** Reachable states are closed under schedules. */
  lemma ReachableExec(c: Config, s: State, sched: seq<Action>)
    requires Reachable(c, s)
    ensures Reachable(c, Exec(c, s, sched))
  {
    LeadsTo(c, Init(c), s, Exec(c, s, sched));
  }

  /** The protocol invariant holds in every reachable state of every configuration. */
  lemma Safety(c: Config, s: State)
    requires Reachable(c, s)
    ensures Inv(c, s)
  {
    var sched :| Exec(c, Init(c), sched) == s;
    InitInv(c);
    ExecKeepsInv(c, Init(c), sched);
  }
}
