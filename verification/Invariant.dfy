/** The whole-protocol invariant and its preservation by every action. */
module Invariant {
  import opened Counting
  import opened Registry
  import opened Drones
  import opened Swarm

  // ---- What each drone keeps on its own ----

  /** The conditions under which a drone seeks, holds or uses a reservation. */
  ghost predicate Returnable(d: Drone) {
    d.loc == Mission && d.cycles >= 1 && d.battery < 20
  }

  /** Facts that hold at every program point. */
  ghost predicate Core(c: Config, d: Drone) {
    && 0 <= d.battery <= 100
    && d.cycles >= 0 && d.entries >= 0 && d.changes >= 0 && d.id >= 0
    && d.start != Undefined && d.loc != Undefined
    && (d.charging <==> d.loc == Base)
    && (d.reserved ==> Returnable(d))
    && d.changes + Potential(d) <= 200 * c.cycles + 100
  }

  /** Not yet registered. */
  ghost predicate Fresh(c: Config, d: Drone) {
    && !d.reserved && !d.inside && !d.token
    && d.loc == d.start && d.index == -1
    && d.cycles == c.cycles && d.entries == 0
  }

  /** Registered, with every passage so far booked. */
  ghost predicate Booked(c: Config, d: Drone) {
    && d.index >= 0 && d.id > 0
    && d.entries + d.cycles == c.cycles
  }

  /** Registered and on a definite side of the gate. */
  ghost predicate Steady(c: Config, d: Drone) {
    Booked(c, d) && !d.token && (d.inside <==> d.loc == Base)
  }

  /** On the way to the gate, or in it. */
  ghost predicate Crossing(c: Config, d: Drone, dir: Direction) {
    && Booked(c, d)
    && (d.inside <==> d.loc == Base)
    && if dir == In then d.reserved else d.loc == Base && d.battery == 100
  }

  /** Through the gate, not yet booked. */
  ghost predicate Crossed(c: Config, d: Drone, dir: Direction) {
    && !d.token && d.index >= 0 && d.id > 0
    && match dir
       case In => d.reserved && d.inside && d.entries + d.cycles == c.cycles + 1
       case Out => d.loc == Base && d.battery == 100 && !d.inside && d.entries + d.cycles == c.cycles
  }

  /** What each reason for removal guarantees. */
  ghost predicate RemovalInv(d: Drone, reason: Reason) {
    match reason
    case OutOfPower => d.loc == Mission ==> d.battery == 0
    case Decommissioned => !d.reserved && d.cycles == 0 && d.loc == Mission && d.battery < 20
    case Suicide => !d.reserved && (d.loc == Base ==> d.battery > 20)
    case Other => false
  }

  /** Before and inside a critical section. */
  ghost predicate SectionInv(c: Config, d: Drone, sec: Sec) {
    match sec
    case Register => Fresh(c, d) && d.id == 0
    case Remove(reason) => Steady(c, d) && RemovalInv(d, reason)
    case Reserve => Steady(c, d) && Returnable(d)
    case Publish(dir) => Crossed(c, d, dir)
  }

  /** After the body of a critical section. */
  ghost predicate SectionDone(c: Config, d: Drone, sec: Sec) {
    match sec
    case Register => Steady(c, d) && !d.reserved
    case _ => SectionInv(c, d, sec)
  }

  ghost predicate EndingInv(c: Config, d: Drone, how: Ending) {
    match how
    case Refused => Fresh(c, d)
    case Removed(reason) => Steady(c, d) && RemovalInv(d, reason)
    case ShutDown => Steady(c, d) && d.shutdown
  }

  ghost predicate AtPc(c: Config, d: Drone) {
    match d.pc
    case Lock(sec) => d.semAdj == 0 && SectionInv(c, d, sec)
    case Body(sec) => d.semAdj == 1 && SectionInv(c, d, sec)
    case Unlock(sec) => d.semAdj == 1 && SectionDone(c, d, sec)
    case ReturnRead => d.semAdj == 0 && Steady(c, d) && d.loc == Mission
    case LeaveRead => d.semAdj == 0 && Steady(c, d) && d.loc == Base
    case GatePoll(dir) => d.semAdj == 0 && Crossing(c, d, dir) && !d.token
    case GateRead(dir) => d.semAdj == 0 && Crossing(c, d, dir) && !d.token
    case InGate(dir) => d.semAdj == 0 && Crossing(c, d, dir) && d.token
    case Commit(dir) => d.semAdj == 0 && Crossed(c, d, dir)
    case Closing(how) => d.semAdj == One(how.Refused?) && EndingInv(c, d, how)
    case Exited(how) => d.semAdj == 0 && EndingInv(c, d, how)
    case _ => d.semAdj == 0 && Steady(c, d)
  }

  ghost predicate LocalInv(c: Config, d: Drone) {
    Core(c, d) && AtPc(c, d)
  }

  // ---- How drones and slots belong together ----

  /** The slot of a registered drone carries its pid and its published location. */
  ghost predicate Link(slots: seq<Slot>, p: int, d: Drone) {
    Registered(d) ==> 0 <= d.index < |slots| && slots[d.index] == Slot(0, p, Published(d))
  }

  /** No slot carries an id, and an occupied one belongs to the registered drone whose pid it has. */
  ghost predicate Owned(slots: seq<Slot>, ds: seq<Drone>, i: int)
    requires 0 <= i < |slots|
  {
    && slots[i].id == 0
    && (slots[i].loc != Undefined ==>
          var p := slots[i].pid;
          0 <= p < |ds| && Registered(ds[p]) && ds[p].index == i)
  }

  ghost predicate SlotInv(slots: seq<Slot>, ds: seq<Drone>) {
    && (forall p :: 0 <= p < |ds| ==> Link(slots, p, ds[p]))
    && (forall i :: 0 <= i < |slots| ==> Owned(slots, ds, i))
  }

  ghost predicate IdInv(nextId: int, ds: seq<Drone>) {
    && (forall p :: 0 <= p < |ds| ==> ds[p].id < nextId)
    && (forall p, q :: 0 <= p < q < |ds| && ds[p].id > 0 && ds[q].id > 0 ==> ds[p].id != ds[q].id)
  }

  /** Every shared counter equals the number of processes it stands for. */
  ghost predicate CountInv(sh: Shared, ds: seq<Drone>, others: int) {
    && sh.sem >= 0 && sh.tokens >= 0
    && sh.sem + Count(ds, HoldsSem) + others == 1
    && sh.tokens + Count(ds, HoldsToken) == 2
    && sh.reg.count == Count(ds, Registered)
    && sh.reg.inBase == Count(ds, InBaseSlot)
    && sh.reg.reserving == Count(ds, HoldsReservation)
    && sh.reg.lostPower == Count(ds, LostPower)
    && sh.reg.lostDecommissioned == Count(ds, LostDecommissioned)
    && sh.reg.lostSuicide == Count(ds, LostSuicide)
    && sh.reg.lostOther == 0
  }

  // ---- The operator and the commander ----

  ghost predicate OpInv(c: Config, r: Reg, op: Operator) {
    && op.semAdj == One(op.pc.OBody? || op.pc.OUnlock?)
    && (op.pc == OUnlock(Decrease) || op.pc.OLatch? ==> op.newMax == r.limit)
    && r.limit <= 2 * c.n - 1
    && Occupancy(r) <= 2 * c.n - 1
  }

  ghost predicate CmdInv(cmd: Commander) {
    cmd.semAdj == One(cmd.pc.CBody? || cmd.pc.CUnlock?)
  }

  /** The registry, the drones and the units they hold; `others` is what the operator and the
      commander hold of the semaphore. */
  ghost predicate SwarmInv(c: Config, sh: Shared, ds: seq<Drone>, others: int) {
    && Consistent(sh.reg)
    && |sh.reg.slots| == c.capacity
    && IdsAccounted(sh.reg, sh.refusals)
    && (forall p :: 0 <= p < |ds| ==> LocalInv(c, ds[p]))
    && SlotInv(sh.reg.slots, ds)
    && IdInv(sh.reg.nextId, ds) && sh.reg.nextId >= 1
    && CountInv(sh, ds, others)
  }

  ghost predicate Inv(c: Config, s: State) {
    && SwarmInv(c, s.sh, s.ds, s.op.semAdj + s.cmd.semAdj)
    && OpInv(c, s.sh.reg, s.op)
    && CmdInv(s.cmd)
  }

  // ---- What one drone step does, as seen by the rest of the system ----

  /** The step touches at most the drone's own slot or a free one, and leaves it in agreement. */
  ghost predicate SlotStep(slots: seq<Slot>, slots': seq<Slot>, p: int, d': Drone) {
    && |slots'| == |slots|
    && Link(slots', p, d')
    && (forall i :: 0 <= i < |slots| && slots'[i] != slots[i] ==>
          slots'[i].id == 0 && (slots[i].loc == Undefined || slots[i].pid == p))
    && (forall i :: 0 <= i < |slots| && slots'[i].loc != Undefined && (slots'[i] != slots[i] || slots[i].pid == p) ==>
          slots'[i].pid == p && Registered(d') && d'.index == i)
  }

  /** The step moves each registry counter by what the drone's own standing changed. */
  ghost predicate StandingStep(r: Reg, d: Drone, r': Reg, d': Drone) {
    && r'.count - r.count == One(Registered(d')) - One(Registered(d))
    && r'.inBase - r.inBase == One(InBaseSlot(d')) - One(InBaseSlot(d))
    && r'.reserving - r.reserving == One(HoldsReservation(d')) - One(HoldsReservation(d))
    && r'.lostPower - r.lostPower == One(LostPower(d')) - One(LostPower(d))
    && r'.lostDecommissioned - r.lostDecommissioned == One(LostDecommissioned(d')) - One(LostDecommissioned(d))
    && r'.lostSuicide - r.lostSuicide == One(LostSuicide(d')) - One(LostSuicide(d))
    && r'.lostOther == r.lostOther
  }

  /** An id is either kept or taken fresh from the counter. */
  ghost predicate IdStep(r: Reg, d: Drone, r': Reg, d': Drone) {
    || (r'.nextId == r.nextId && d'.id == d.id)
    || (r'.nextId == r.nextId + 1 && d'.id == r.nextId && d.id == 0)
  }

  /** The limit is kept, and occupancy grows by at most one and only below the limit. */
  ghost predicate OccupancyStep(r: Reg, r': Reg) {
    && r'.limit == r.limit
    && (Occupancy(r') <= Occupancy(r)
        || (Occupancy(r') == Occupancy(r) + 1 && Occupancy(r) < r.limit))
  }

  ghost predicate RegistryStep(sh: Shared, p: int, d: Drone, sh': Shared, d': Drone) {
    && Consistent(sh'.reg)
    && IdsAccounted(sh'.reg, sh'.refusals)
    && SlotStep(sh.reg.slots, sh'.reg.slots, p, d')
    && StandingStep(sh.reg, d, sh'.reg, d')
    && IdStep(sh.reg, d, sh'.reg, d')
    && OccupancyStep(sh.reg, sh'.reg)
  }

  /** Semaphore and gate units move between the shared pool and the drone. */
  ghost predicate UnitsStep(sh: Shared, d: Drone, sh': Shared, d': Drone) {
    && sh'.sem + One(HoldsSem(d')) == sh.sem + One(HoldsSem(d))
    && sh'.tokens + One(HoldsToken(d')) == sh.tokens + One(HoldsToken(d))
    && (sh.sem >= 0 ==> sh'.sem >= 0)
    && (sh.tokens >= 0 ==> sh'.tokens >= 0)
  }

  /** Everything known about drone `p` and the registry before its step. */
  ghost predicate Before(c: Config, sh: Shared, p: int, d: Drone) {
    && LocalInv(c, d)
    && Consistent(sh.reg) && sh.reg.nextId >= 1
    && IdsAccounted(sh.reg, sh.refusals)
    && Link(sh.reg.slots, p, d)
    && forall i :: 0 <= i < |sh.reg.slots| && sh.reg.slots[i].loc != Undefined && sh.reg.slots[i].pid == p ==>
                     Registered(d) && d.index == i
  }

  // ---- The critical-section bodies ----

  lemma RegisterLocal(c: Config, sh: Shared, p: int, d: Drone)
    requires Before(c, sh, p, d) && d.pc == Body(Register)
    ensures LocalInv(c, RegisterBody(sh, p, d).1)
  {
    AddConsistent(sh.reg, Slot(d.id, p, d.start));
  }

  lemma RegisterSlots(c: Config, sh: Shared, p: int, d: Drone)
    requires Before(c, sh, p, d) && d.pc == Body(Register)
    ensures var (sh', d') := RegisterBody(sh, p, d);
            && Consistent(sh'.reg)
            && IdsAccounted(sh'.reg, sh'.refusals)
            && SlotStep(sh.reg.slots, sh'.reg.slots, p, d')
  {
    hide Consistent, IdsAccounted, SlotStep;
    RegisterRegistry(c, sh, p, d);
    RegisterSlot(c, sh, p, d);
  }

  lemma RegisterRegistry(c: Config, sh: Shared, p: int, d: Drone)
    requires Before(c, sh, p, d) && d.pc == Body(Register)
    ensures var (sh', d') := RegisterBody(sh, p, d);
            Consistent(sh'.reg) && IdsAccounted(sh'.reg, sh'.refusals)
  {
    var x := Slot(d.id, p, d.start);
    RegisterOutcome(sh, p, d);
    AddConsistent(sh.reg, x);
    AddCounters(sh.reg, x);
    assert (sh.reg.free == []) == (sh.reg.count == |sh.reg.slots|);
    hide RegisterBody, Add, Occupancy, LocalInv;
  }

  lemma RegisterSlot(c: Config, sh: Shared, p: int, d: Drone)
    requires Before(c, sh, p, d) && d.pc == Body(Register)
    ensures var (sh', d') := RegisterBody(sh, p, d);
            SlotStep(sh.reg.slots, sh'.reg.slots, p, d')
  {
    RegisterOutcome(sh, p, d);
    RegisterFrame(sh, p, d);
    AddConsistent(sh.reg, Slot(d.id, p, d.start));
    hide RegisterBody, Add, Occupancy, Consistent, IdsAccounted;
  }

  lemma RegisterCounts(c: Config, sh: Shared, p: int, d: Drone)
    requires Before(c, sh, p, d) && d.pc == Body(Register)
    ensures var (sh', d') := RegisterBody(sh, p, d);
            && StandingStep(sh.reg, d, sh'.reg, d')
            && IdStep(sh.reg, d, sh'.reg, d')
            && OccupancyStep(sh.reg, sh'.reg)
            && UnitsStep(sh, d, sh', d')
  {
    hide StandingStep;
    RegisterStanding(c, sh, p, d);
    RegisterOutcome(sh, p, d);
    RegisterFrame(sh, p, d);
    AddCounters(sh.reg, Slot(d.id, p, d.start));
    assert d.id == 0;
    hide RegisterBody, Consistent, IdsAccounted, Add, LocalInv, Lost;
  }

  lemma RegisterStanding(c: Config, sh: Shared, p: int, d: Drone)
    requires Before(c, sh, p, d) && d.pc == Body(Register)
    ensures var (sh', d') := RegisterBody(sh, p, d); StandingStep(sh.reg, d, sh'.reg, d')
  {
    var x := Slot(d.id, p, d.start);
    RegisterOutcome(sh, p, d);
    RegisterFrame(sh, p, d);
    AddConsistent(sh.reg, x);
    AddCounters(sh.reg, x);
    assert (sh.reg.free == []) == (sh.reg.count == |sh.reg.slots|);
    assert !d.reserved && d.loc == d.start;
    hide RegisterBody, Consistent, IdsAccounted, Add, LocalInv, Lost, Occupancy;
  }

  lemma DeleteSlots(c: Config, sh: Shared, p: int, d: Drone, reason: Reason)
    requires Before(c, sh, p, d) && d.pc == Body(Remove(reason))
    ensures var (sh', d') := DeleteBody(sh, d, reason);
            && Consistent(sh'.reg)
            && IdsAccounted(sh'.reg, sh'.refusals)
            && SlotStep(sh.reg.slots, sh'.reg.slots, p, d')
  {
    DeleteConsistent(sh.reg, d.index, d.reserved, reason);
    hide Consistent;
  }

  lemma DeleteCounts(c: Config, sh: Shared, p: int, d: Drone, reason: Reason)
    requires Before(c, sh, p, d) && d.pc == Body(Remove(reason))
    ensures var (sh', d') := DeleteBody(sh, d, reason);
            && LocalInv(c, d')
            && StandingStep(sh.reg, d, sh'.reg, d')
            && IdStep(sh.reg, d, sh'.reg, d')
            && OccupancyStep(sh.reg, sh'.reg)
            && UnitsStep(sh, d, sh', d')
  {
    hide Consistent, IdsAccounted;
  }

  lemma ReserveEffect(c: Config, sh: Shared, p: int, d: Drone)
    requires Before(c, sh, p, d) && d.pc == Body(Reserve)
    ensures var (sh', d') := ReserveBody(sh, d);
            LocalInv(c, d') && RegistryStep(sh, p, d, sh', d') && UnitsStep(sh, d, sh', d')
  {
  }

  lemma PublishEffect(c: Config, sh: Shared, p: int, d: Drone, dir: Direction)
    requires Before(c, sh, p, d) && d.pc == Body(Publish(dir))
    ensures var (sh', d') := PublishBody(sh, d, dir);
            LocalInv(c, d') && RegistryStep(sh, p, d, sh', d') && UnitsStep(sh, d, sh', d')
  {
    UpdateConsistent(sh.reg, d.index, Side(dir));
  }

  // ---- The other steps ----

  /** The drone's standing in the registry is unchanged. */
  ghost predicate SameStanding(d: Drone, d': Drone) {
    && d'.index == d.index && d'.id == d.id
    && Registered(d') == Registered(d)
    && Published(d') == Published(d)
    && HoldsReservation(d') == HoldsReservation(d)
    && LostPower(d') == LostPower(d)
    && LostDecommissioned(d') == LostDecommissioned(d)
    && LostSuicide(d') == LostSuicide(d)
  }

  lemma LoopLocal(c: Config, d: Drone)
    requires LocalInv(c, d) && InLoop(d.pc)
    ensures LocalInv(c, StepLoop(d))
  {
  }

  lemma LoopStanding(d: Drone)
    requires InLoop(d.pc)
    ensures SameStanding(d, StepLoop(d)) && StepLoop(d).semAdj == d.semAdj && StepLoop(d).token == d.token
  {
  }

  lemma GateEffect(c: Config, sh: Shared, d: Drone)
    requires LocalInv(c, d) && Ready(sh, d)
    requires d.pc.GatePoll? || d.pc.GateRead? || d.pc.InGate?
    ensures var (sh', d') := StepGate(sh, d);
            LocalInv(c, d') && SameStanding(d, d') && UnitsStep(sh, d, sh', d')
  {
  }

  lemma CommitEffect(c: Config, d: Drone, dir: Direction)
    requires LocalInv(c, d) && d.pc == Commit(dir)
    ensures var d' := CommitLocal(d, dir);
            LocalInv(c, d') && SameStanding(d, d') && d'.semAdj == d.semAdj && d'.token == d.token
  {
  }

  lemma LockEffect(c: Config, sh: Shared, d: Drone, sec: Sec)
    requires LocalInv(c, d) && Ready(sh, d) && d.pc == Lock(sec)
    ensures var (sh', d') := Acquire(sh, d, Body(sec));
            LocalInv(c, d') && SameStanding(d, d') && UnitsStep(sh, d, sh', d')
  {
  }

  lemma UnlockEffect(c: Config, sh: Shared, d: Drone, sec: Sec)
    requires LocalInv(c, d) && d.pc == Unlock(sec)
    ensures var (sh', d') := Release(sh, d, AfterSection(d, sec));
            LocalInv(c, d') && SameStanding(d, d') && UnitsStep(sh, d, sh', d')
  {
  }

  lemma ExitEffect(c: Config, sh: Shared, d: Drone, how: Ending)
    requires LocalInv(c, d) && d.pc == Closing(how)
    ensures var (sh', d') := Exit(sh, d, how);
            LocalInv(c, d') && SameStanding(d, d') && UnitsStep(sh, d, sh', d')
  {
  }

  /** What a battery tick or a signal does: it changes battery and flags only. */
  function Perturb(d: Drone, battery: int, changes: int, sigUsr1: bool, shutdown: bool): Drone {
    d.(battery := battery, changes := changes, sigUsr1 := sigUsr1, shutdown := shutdown)
  }

  lemma PerturbStanding(d: Drone, battery: int, changes: int, sigUsr1: bool, shutdown: bool)
    ensures SameStanding(d, Perturb(d, battery, changes, sigUsr1, shutdown))
  {
  }

  /** A battery change that cannot undo what the drone has read from it. */
  ghost predicate Drift(d: Drone, battery: int) {
    && (d.battery < 20 && d.loc == Mission ==> battery < 20)
    && (d.battery == 100 && d.loc == Base ==> battery == 100)
    && (d.battery == 0 && d.loc == Mission ==> battery == 0)
    && (d.battery > 20 && d.loc == Base ==> battery > 20)
  }

  lemma PerturbInSection(c: Config, d: Drone, battery: int, changes: int, sigUsr1: bool, shutdown: bool)
    requires AtPc(c, d) && Drift(d, battery)
    requires d.pc.Lock? || d.pc.Body? || d.pc.Unlock?
    ensures AtPc(c, Perturb(d, battery, changes, sigUsr1, shutdown))
  {
  }

  lemma PerturbElsewhere(c: Config, d: Drone, battery: int, changes: int, sigUsr1: bool, shutdown: bool)
    requires AtPc(c, d) && Drift(d, battery) && (d.shutdown ==> shutdown)
    requires !d.pc.Lock? && !d.pc.Body? && !d.pc.Unlock?
    ensures AtPc(c, Perturb(d, battery, changes, sigUsr1, shutdown))
  {
  }

  lemma PerturbAtPc(c: Config, d: Drone, battery: int, changes: int, sigUsr1: bool, shutdown: bool)
    requires AtPc(c, d) && Drift(d, battery) && (d.shutdown ==> shutdown)
    ensures AtPc(c, Perturb(d, battery, changes, sigUsr1, shutdown))
  {
    if d.pc.Lock? || d.pc.Body? || d.pc.Unlock? {
      PerturbInSection(c, d, battery, changes, sigUsr1, shutdown);
    } else {
      PerturbElsewhere(c, d, battery, changes, sigUsr1, shutdown);
    }
  }

  lemma TickEffect(c: Config, d: Drone)
    requires LocalInv(c, d)
    ensures LocalInv(c, Tick(d)) && SameStanding(d, Tick(d))
    ensures Tick(d).semAdj == d.semAdj && Tick(d).token == d.token
  {
    if !d.pc.Exited? {
      var b := NextBattery(d.charging, d.battery);
      var k := d.changes + One(b != d.battery);
      assert Tick(d) == Perturb(d, b, k, d.sigUsr1, d.shutdown);
      PerturbAtPc(c, d, b, k, d.sigUsr1, d.shutdown);
      PerturbStanding(d, b, k, d.sigUsr1, d.shutdown);
    }
  }

  lemma SignalEffect(c: Config, d: Drone, sigUsr1: bool, shutdown: bool)
    requires LocalInv(c, d) && (d.shutdown ==> shutdown)
    ensures var d' := Perturb(d, d.battery, d.changes, sigUsr1, shutdown);
            LocalInv(c, d') && SameStanding(d, d')
  {
    PerturbAtPc(c, d, d.battery, d.changes, sigUsr1, shutdown);
    PerturbStanding(d, d.battery, d.changes, sigUsr1, shutdown);
  }
}
