/** The whole system: any number of drones, the operator and the commander over shared memory.

    A schedule is any sequence of actions; an action whose process cannot move leaves the state
    unchanged, so `Exec` ranges over every interleaving, including starvation of any process. */
module Swarm {
  import opened Counting
  import opened Limit
  import opened Registry
  import opened Drones

  // ---- The operator ----

  datatype Section = Increase | Decrease | Check | Describe

  datatype OpPc =
    | Starting(i: int)
    | OTop | OSig1 | OSig2
    | OLock(sec: Section) | OBody(sec: Section) | OUnlock(sec: Section)
    | OLatch | OSpawn
    | ODone

  datatype Operator = Operator(
    pc: OpPc,
    shutdown: bool,
    sig1: bool,
    sig2: bool,
    newMax: int,
    canCreate: bool,
    semAdj: int)

  // ---- The commander ----

  datatype Phase = PIncrease(i: int) | PKill(i: int) | PDecrease

  datatype CmdSection = Pick(i: int) | ReadFirst | ReadAgain

  datatype CmdPc =
    | CLoop(ph: Phase) | CWait(ph: Phase) | CSleep(ph: Phase) | CAct(ph: Phase)
    | CLock(sec: CmdSection) | CBody(sec: CmdSection) | CUnlock(sec: CmdSection)
    | CSuicide(i: int) | CSubtract
    | CDone

  datatype Commander = Commander(pc: CmdPc, shutdown: bool, pick: int, seen: int, semAdj: int)

  /** `adds` and `subs` count increase and decrease signals sent to the operator, `kills` the
      commander's suicide orders, `incs` and `decs` the signals the operator has processed. */
  datatype State = State(
    sh: Shared,
    ds: seq<Drone>,
    op: Operator,
    cmd: Commander,
    adds: int,
    subs: int,
    kills: int,
    incs: nat,
    decs: nat)

  datatype Action =
    | DroneAct(p: nat)
    | TickAct(p: nat)
    | SuicideOrder(p: nat)
    | ShutdownOrder(p: nat)
    | OpAct
    | CmdAct(interrupted: bool)
    | AddSignal
    | SubSignal
    | OpShutdown
    | CmdShutdown

  function Init(c: Config): State
    requires ValidConfig(c)
  {
    State(
      Shared(Initial(c.capacity, StartLimit(c.n)), 1, 2, 0),
      [],
      Operator(Starting(0), false, false, false, 0, false, 0),
      Commander(CLoop(PIncrease(0)), false, -1, 0, 0),
      0, 0, 0, 0, 0)
  }

  // ---- Operator steps ----

  predicate OpReady(s: State) {
    if s.op.pc.OLock? then s.sh.sem > 0 else !s.op.pc.ODone?
  }

  function WithSem(s: State, k: int): State {
    s.(sh := s.sh.(sem := s.sh.sem + k))
  }

  function WithLimit(s: State, limit: int): State {
    s.(sh := s.sh.(reg := s.sh.reg.(limit := limit)))
  }

  function Spawn(c: Config, s: State, start: Location): State {
    s.(ds := s.ds + [NewDrone(c, start)])
  }

  /** What an operator step does to the rest of the system. */
  function OpOutput(c: Config, s: State): State {
    match s.op.pc
    case Starting(i) => if i >= c.n || s.op.shutdown then s else Spawn(c, s, Mission)
    case OLock(_) => WithSem(s, -1)
    case OBody(Increase) => WithLimit(s, Doubled(s.sh.reg.limit, c.n)).(incs := s.incs + 1)
    case OBody(Decrease) => WithLimit(s, Halved(s.sh.reg.limit)).(decs := s.decs + 1)
    case OUnlock(_) => WithSem(s, 1)
    case OSpawn => if s.op.canCreate then Spawn(c, s, Base) else s
    case _ => s
  }

  function AfterOpSection(sec: Section): OpPc {
    match sec
    case Increase => OSig2
    case Decrease => OLatch
    case Check => OSpawn
    case Describe => OTop
  }

  /** What an operator step does to the operator. */
  function OpLocal(c: Config, s: State): Operator {
    var op := s.op;
    match op.pc
    case Starting(i) => op.(pc := if i >= c.n || op.shutdown then OTop else Starting(i + 1))
    case OTop => op.(pc := if op.shutdown then ODone else OSig1)
    case OSig1 => op.(sig1 := false, pc := if op.sig1 then OLock(Increase) else OSig2)
    case OSig2 => op.(sig2 := false, pc := if op.sig2 then OLock(Decrease) else OLock(Check))
    case OLock(sec) => op.(semAdj := op.semAdj + 1, pc := OBody(sec))
    case OBody(sec) =>
      op.(newMax := if sec.Decrease? then Halved(s.sh.reg.limit) else op.newMax,
          canCreate := if sec.Check? then Occupancy(s.sh.reg) < s.sh.reg.limit else op.canCreate,
          pc := OUnlock(sec))
    case OUnlock(sec) => op.(semAdj := op.semAdj - 1, pc := AfterOpSection(sec))
    case OLatch => op.(shutdown := op.shutdown || op.newMax <= 0, pc := OLock(Check))
    case OSpawn => op.(pc := OLock(Describe))
    case ODone => op
  }

  function StepOp(c: Config, s: State): State {
    OpOutput(c, s).(op := OpLocal(c, s))
  }

  // ---- Commander steps ----

  predicate CmdReady(s: State) {
    if s.cmd.pc.CLock? then s.sh.sem > 0 else !s.cmd.pc.CDone?
  }

  function NextPhase(ph: Phase): CmdPc {
    match ph
    case PIncrease(_) => CLoop(PKill(0))
    case PKill(_) => CLock(ReadFirst)
    case PDecrease => CDone
  }

  predicate PhaseOver(cmd: Commander, ph: Phase) {
    match ph
    case PIncrease(i) => i >= 3
    case PKill(i) => i >= 10
    case PDecrease => cmd.seen <= 0
  }

  /** A suicide order to a process that has exited is lost. */
  function OrderSuicide(s: State, p: int): State {
    if 0 <= p < |s.ds| && !s.ds[p].pc.Exited? then s.(ds := s.ds[p := s.ds[p].(sigUsr1 := true)]) else s
  }

  function SendAdd(s: State): State {
    s.(op := s.op.(sig1 := true), adds := s.adds + 1)
  }

  function SendSub(s: State): State {
    s.(op := s.op.(sig2 := true), subs := s.subs + 1)
  }

  /** What a commander step does to the rest of the system. */
  function CmdOutput(s: State): State {
    match s.cmd.pc
    case CAct(PIncrease(_)) => SendAdd(s)
    case CLock(_) => WithSem(s, -1)
    case CUnlock(_) => WithSem(s, 1)
    case CSuicide(_) => OrderSuicide(s, s.cmd.pick).(kills := s.kills + One(s.cmd.pick != -1))
    case CSubtract => SendSub(s)
    case _ => s
  }

  /** Where the commander continues. Finding no drone to pick aborts the whole mission plan. */
  function CmdNext(cmd: Commander, interrupted: bool): CmdPc {
    match cmd.pc
    case CLoop(ph) =>
      if PhaseOver(cmd, ph) || cmd.shutdown then NextPhase(ph)
      else if ph.PDecrease? then CLock(ReadAgain) else CWait(ph)
    case CWait(ph) => if cmd.shutdown then NextPhase(ph) else CSleep(ph)
    case CSleep(ph) => if interrupted then CWait(ph) else CAct(ph)
    case CAct(PIncrease(i)) => CLoop(PIncrease(i + 1))
    case CAct(PKill(i)) => CLock(Pick(i))
    case CAct(PDecrease) => CLoop(PDecrease)
    case CLock(sec) => CBody(sec)
    case CBody(sec) => CUnlock(sec)
    case CUnlock(Pick(i)) => CSuicide(i)
    case CUnlock(ReadFirst) => CLoop(PDecrease)
    case CUnlock(ReadAgain) => CSubtract
    case CSuicide(i) => if cmd.pick == -1 then CDone else CLoop(PKill(i + 1))
    case CSubtract => CWait(PDecrease)
    case CDone => CDone
  }

  /** What a commander step does to the commander. */
  function CmdLocal(cmd: Commander, r: Reg, interrupted: bool): Commander {
    cmd.(pc := CmdNext(cmd, interrupted),
         semAdj := cmd.semAdj + One(cmd.pc.CLock?) - One(cmd.pc.CUnlock?),
         pick := if cmd.pc.CBody? && cmd.pc.sec.Pick? then FirstPid(r.slots, 0) else cmd.pick,
         seen := if cmd.pc.CBody? && !cmd.pc.sec.Pick? then r.limit else cmd.seen)
  }

  function StepCmd(s: State, interrupted: bool): State {
    CmdOutput(s).(cmd := CmdLocal(s.cmd, s.sh.reg, interrupted))
  }

  // ---- Runs ----

  function StepProcess(s: State, p: nat): State
    requires p < |s.ds|
  {
    var (sh, d) := StepDrone(s.sh, p, s.ds[p]);
    s.(sh := sh, ds := s.ds[p := d])
  }

  /** The processes' own steps, as opposed to battery ticks and signals from outside. */
  predicate Enabled(s: State, a: Action) {
    match a
    case DroneAct(p) => p < |s.ds| && Ready(s.sh, s.ds[p])
    case OpAct => OpReady(s)
    case CmdAct(_) => CmdReady(s)
    case _ => false
  }

  function Apply(c: Config, s: State, a: Action): State {
    match a
    case DroneAct(p) => if Enabled(s, a) then StepProcess(s, p) else s
    case TickAct(p) => if p < |s.ds| then s.(ds := s.ds[p := Tick(s.ds[p])]) else s
    case SuicideOrder(p) => OrderSuicide(s, p)
    case ShutdownOrder(p) =>
      if p < |s.ds| && !s.ds[p].pc.Exited? then s.(ds := s.ds[p := s.ds[p].(shutdown := true)]) else s
    case OpAct => if OpReady(s) then StepOp(c, s) else s
    case CmdAct(interrupted) => if CmdReady(s) then StepCmd(s, interrupted) else s
    case AddSignal => SendAdd(s)
    case SubSignal => SendSub(s)
    case OpShutdown => s.(op := s.op.(shutdown := true))
    case CmdShutdown => s.(cmd := s.cmd.(shutdown := true))
  }

  /** The state after running `sched` from `s`. */
  function Exec(c: Config, s: State, sched: seq<Action>): State {
    if sched == [] then s
    else Apply(c, Exec(c, s, sched[..|sched| - 1]), sched[|sched| - 1])
  }

  /** The state after running `sched` from the start. */
  function Run(c: Config, sched: seq<Action>): State
    requires ValidConfig(c)
  {
    Exec(c, Init(c), sched)
  }

  /** The same process takes both actions. */
  predicate SameProcess(a: Action, b: Action) {
    a == b || (a.CmdAct? && b.CmdAct?)
  }

  /** The steps the process of `a` takes while `sched` runs from `s`. */
  function OwnSteps(c: Config, s: State, sched: seq<Action>, a: Action): nat {
    if sched == [] then 0
    else
      var n := |sched| - 1;
      OwnSteps(c, s, sched[..n], a)
      + if SameProcess(sched[n], a) && Enabled(Exec(c, s, sched[..n]), sched[n]) then 1 else 0
  }

  /** At some moment of the schedule `f` holds of the state and the action taken in it. */
  ghost predicate Moment(c: Config, s: State, sched: seq<Action>, f: (State, Action) -> bool) {
    exists j :: 0 <= j < |sched| && f(Exec(c, s, sched[..j]), sched[j])
  }

  lemma MomentLater(c: Config, s: State, sched: seq<Action>, f: (State, Action) -> bool)
    requires sched != []
    requires var n := |sched| - 1;
             Moment(c, s, sched[..n], f) || f(Exec(c, s, sched[..n]), sched[n])
    ensures Moment(c, s, sched, f)
  {
    hide Exec;
    var n := |sched| - 1;
    if Moment(c, s, sched[..n], f) {
      var j :| 0 <= j < n && f(Exec(c, s, sched[..n][..j]), sched[..n][j]);
      assert sched[..n][..j] == sched[..j];
    }
  }

  /** Some schedule leads from `s` to `t`. */
  ghost predicate Leads(c: Config, s: State, t: State) {
    exists sched :: Exec(c, s, sched) == t
  }

  lemma LeadsSelf(c: Config, s: State)
    ensures Leads(c, s, s)
  {
    assert Exec(c, s, []) == s;
  }

  lemma LeadsTo(c: Config, s: State, t: State, u: State)
    requires Leads(c, s, t) && Leads(c, t, u)
    ensures Leads(c, s, u)
  {
    var a :| Exec(c, s, a) == t;
    var b :| Exec(c, t, b) == u;
    ExecConcat(c, s, a, b);
  }

  lemma LeadsOne(c: Config, s: State, t: State, a: Action)
    requires Leads(c, s, t)
    ensures Leads(c, s, Apply(c, t, a))
  {
    hide Apply;
    assert [a][..0] == [] && Exec(c, t, [a][..0]) == t;
    assert Exec(c, t, [a]) == Apply(c, t, a);
    LeadsTo(c, s, t, Apply(c, t, a));
  }

  lemma {:induction false} ExecConcat(c: Config, s: State, a: seq<Action>, b: seq<Action>)
    ensures Exec(c, s, a + b) == Exec(c, Exec(c, s, a), b)
  {
    if b == [] {
      assert a + b == a;
    } else {
      var n := |b| - 1;
      assert (a + b)[..|a + b| - 1] == a + b[..n];
      ExecConcat(c, s, a, b[..n]);
    }
  }
}
