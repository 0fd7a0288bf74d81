/** One drone process as a program counter machine over the shared state.

    A step is one lock, one critical-section body, one unlock, one gate operation or one test of
    the main loop, so that every window between two of them is a state of its own. Each step is a
    function of the shared state and the drone; where a system call may block, `Ready` says when
    the step can be taken. */
module Drones {
  import opened Counting
  import opened Registry

  /** Start-up parameters: starting drones, loading cycles per drone, slots in memory. */
  datatype Config = Config(n: int, cycles: int, capacity: int)

  predicate ValidConfig(c: Config) {
    c.n >= 1 && c.cycles >= 1 && c.capacity >= 2 * c.n
  }

  datatype Direction = In | Out

  datatype Ending = Refused | Removed(reason: Reason) | ShutDown

  /** The four critical sections of a drone. */
  datatype Sec = Register | Remove(reason: Reason) | Reserve | Publish(dir: Direction)

  datatype Pc =
    // a critical section: waiting for the semaphore, inside, about to release
    | Lock(sec: Sec) | Body(sec: Sec) | Unlock(sec: Sec)
    // the tests of the main loop
    | Top | SigTest | SigRead | PowerRead | Dispatch | ReturnRead | LeaveRead
    // the gate
    | GatePoll(dir: Direction) | GateRead(dir: Direction) | InGate(dir: Direction)
    // the local bookkeeping after a published move
    | Commit(dir: Direction)
    // clean-up, then process exit
    | Closing(how: Ending) | Exited(how: Ending)

  /** A drone process. `semAdj` is the kernel's undo adjustment for the process. The last four
      fields record history and never influence a step: the token taken from the gate, whether the
      drone has physically passed into the base, the inward passages made and the battery changes. */
  datatype Drone = Drone(
    pc: Pc,
    start: Location,
    index: int,
    id: int,
    cycles: int,
    reserved: bool,
    loc: Location,
    charging: bool,
    battery: int,
    sigUsr1: bool,
    shutdown: bool,
    semAdj: int,
    token: bool,
    inside: bool,
    entries: int,
    changes: int)

  /** Registry, data semaphore, gate tokens, and the history count of registrations that were
      refused because no slot was free. */
  datatype Shared = Shared(reg: Reg, sem: int, tokens: int, refusals: int)

  function NewDrone(c: Config, start: Location): Drone {
    Drone(Lock(Register), start, -1, 0, c.cycles, false, start, start != Mission, 100,
          false, false, 0, false, false, 0, 0)
  }

  /** Whether the drone's next step can be taken now. */
  predicate Ready(sh: Shared, d: Drone) {
    if d.pc.Lock? then sh.sem > 0
    else if d.pc.GateRead? then sh.tokens > 0
    else !d.pc.Exited?
  }

  // ---- The semaphore ----

  function Acquire(sh: Shared, d: Drone, pc: Pc): (Shared, Drone) {
    (sh.(sem := sh.sem - 1), d.(semAdj := d.semAdj + 1, pc := pc))
  }

  function Release(sh: Shared, d: Drone, pc: Pc): (Shared, Drone) {
    (sh.(sem := sh.sem + 1), d.(semAdj := d.semAdj - 1, pc := pc))
  }

  /** Process exit: the kernel gives back whatever the process still holds. */
  function Exit(sh: Shared, d: Drone, how: Ending): (Shared, Drone) {
    (sh.(sem := sh.sem + d.semAdj), d.(semAdj := 0, pc := Exited(how)))
  }

  // ---- Critical-section bodies ----

  /** What no critical-section body changes: the drone's own condition and the units it holds, and
      the pools those units come from. Afterwards it releases, or closes as refused. */
  ghost predicate BodyFrame(sh: Shared, d: Drone, sh': Shared, d': Drone)
    requires d.pc.Body?
  {
    && sh'.sem == sh.sem && sh'.tokens == sh.tokens
    && d'.semAdj == d.semAdj && d'.token == d.token
    && d'.start == d.start && d'.loc == d.loc && d'.charging == d.charging
    && d'.cycles == d.cycles && d'.entries == d.entries
    && d'.battery == d.battery && d'.changes == d.changes
    && d'.sigUsr1 == d.sigUsr1 && d'.shutdown == d.shutdown
    && (d'.pc == Unlock(d.pc.sec) || (d'.pc == Closing(Refused) && d.pc.sec.Register?))
  }

  /** An id is handed out even when no slot is free; a refused drone leaves without unlocking. */
  function RegisterBody(sh: Shared, p: int, d: Drone): (Shared, Drone)
    requires d.pc == Body(Register)
  {
    if Occupancy(sh.reg) < sh.reg.limit || d.start == Mission then
      var (reg, i) := Add(sh.reg, Slot(d.id, p, d.start));
      (sh.(reg := reg.(nextId := reg.nextId + 1), refusals := sh.refusals + One(i == -1)),
       d.(index := i, id := reg.nextId, inside := i != -1 && d.start == Base,
          pc := if i == -1 then Closing(Refused) else Unlock(Register)))
    else
      (sh, d.(pc := Closing(Refused)))
  }

  /** A reservation is taken once and kept until an entry is published. */
  function ReserveBody(sh: Shared, d: Drone): (Shared, Drone)
    requires d.pc == Body(Reserve)
  {
    var take := !d.reserved && Occupancy(sh.reg) < sh.reg.limit;
    (sh.(reg := sh.reg.(reserving := sh.reg.reserving + One(take))),
     d.(reserved := d.reserved || take, pc := Unlock(Reserve)))
  }

  function DeleteBody(sh: Shared, d: Drone, reason: Reason): (Shared, Drone)
    requires d.pc == Body(Remove(reason))
  {
    (sh.(reg := Delete(sh.reg, d.index, d.reserved, reason).0), d.(pc := Unlock(Remove(reason))))
  }

  function Side(dir: Direction): Location {
    if dir == In then Base else Mission
  }

  function PublishBody(sh: Shared, d: Drone, dir: Direction): (Shared, Drone)
    requires d.pc == Body(Publish(dir))
  {
    (sh.(reg := Update(sh.reg, d.index, Side(dir))), d.(pc := Unlock(Publish(dir))))
  }

  /** The local assignments after the location has been published. */
  function CommitLocal(d: Drone, dir: Direction): Drone {
    match dir
    case In => d.(reserved := false, cycles := d.cycles - 1, loc := Base, charging := true, pc := Top)
    case Out => d.(loc := Mission, charging := false, pc := Top)
  }

  function SectionBody(sh: Shared, p: int, d: Drone, sec: Sec): (Shared, Drone)
    requires d.pc == Body(sec)
  {
    match sec
    case Register => RegisterBody(sh, p, d)
    case Remove(reason) => DeleteBody(sh, d, reason)
    case Reserve => ReserveBody(sh, d)
    case Publish(dir) => PublishBody(sh, d, dir)
  }

  lemma RegisterFrame(sh: Shared, p: int, d: Drone)
    requires d.pc == Body(Register)
    ensures var (sh', d') := RegisterBody(sh, p, d); BodyFrame(sh, d, sh', d')
  {
    hide Add, Occupancy;
  }

  /** The outcome of registration, field by field. */
  lemma RegisterOutcome(sh: Shared, p: int, d: Drone)
    requires d.pc == Body(Register)
    ensures var (sh', d') := RegisterBody(sh, p, d);
            var (r, i) := Add(sh.reg, Slot(d.id, p, d.start));
            && d'.reserved == d.reserved
            && if Occupancy(sh.reg) < sh.reg.limit || d.start == Mission then
                 && sh'.reg == r.(nextId := r.nextId + 1) && sh'.refusals == sh.refusals + One(i == -1)
                 && d'.index == i && d'.id == r.nextId && d'.inside == (i != -1 && d.start == Base)
                 && d'.pc == if i == -1 then Closing(Refused) else Unlock(Register)
               else
                 && sh' == sh && d'.index == d.index && d'.id == d.id && d'.inside == d.inside
                 && d'.pc == Closing(Refused)
  {
    hide Add, Occupancy;
  }

  lemma SectionFrame(sh: Shared, p: int, d: Drone, sec: Sec)
    requires d.pc == Body(sec)
    ensures var (sh', d') := SectionBody(sh, p, d, sec); BodyFrame(sh, d, sh', d')
  {
    hide RegisterBody, Delete, Update, Occupancy;
    if sec.Register? { RegisterFrame(sh, p, d); }
  }

  /** Where the drone continues after releasing the semaphore. */
  function AfterSection(d: Drone, sec: Sec): Pc {
    match sec
    case Register => Top
    case Remove(reason) => Closing(Removed(reason))
    case Reserve => if d.reserved then GatePoll(In) else Top
    case Publish(dir) => Commit(dir)
  }

  predicate InLoop(pc: Pc) {
    pc.Top? || pc.SigTest? || pc.SigRead? || pc.PowerRead? || pc.Dispatch? || pc.ReturnRead? || pc.LeaveRead?
  }

  /** Where the tests of the main loop and of the two movement functions lead. */
  function LoopNext(d: Drone): Pc
    requires InLoop(d.pc)
  {
    match d.pc
    case Top => if d.shutdown then Closing(ShutDown) else SigTest
    case SigTest => if d.sigUsr1 then SigRead else PowerRead
    case SigRead => if d.battery > 20 then Lock(Remove(Suicide)) else PowerRead
    case PowerRead => if d.battery <= 0 then Lock(Remove(OutOfPower)) else Dispatch
    case Dispatch => if d.loc == Mission then ReturnRead else if d.loc == Base then LeaveRead else Top
    case ReturnRead =>
      if d.battery >= 20 then Top
      else if d.cycles <= 0 then Lock(Remove(Decommissioned)) else Lock(Reserve)
    case LeaveRead => if d.loc == Base && d.battery >= 100 then GatePoll(Out) else Top
  }

  /** A test moves only the program counter, and clears the suicide flag once it is seen. */
  function StepLoop(d: Drone): Drone
    requires InLoop(d.pc)
  {
    d.(pc := LoopNext(d), sigUsr1 := d.sigUsr1 && !d.pc.SigTest?)
  }

  /** The gate: poll either sees a token or times out; a token seen may be gone when read. */
  function StepGate(sh: Shared, d: Drone): (Shared, Drone)
    requires d.pc.GatePoll? || d.pc.GateRead? || d.pc.InGate?
  {
    match d.pc
    case GatePoll(dir) => (sh, d.(pc := if sh.tokens > 0 then GateRead(dir) else Top))
    case GateRead(dir) => (sh.(tokens := sh.tokens - 1), d.(token := true, pc := InGate(dir)))
    case InGate(dir) =>
      (sh.(tokens := sh.tokens + 1),
       d.(token := false, inside := dir == In, entries := d.entries + One(dir == In), pc := Lock(Publish(dir))))
  }

  /** One step of drone `p`. */
  function StepDrone(sh: Shared, p: int, d: Drone): (Shared, Drone) {
    match d.pc
    case Lock(sec) => Acquire(sh, d, Body(sec))
    case Body(sec) => SectionBody(sh, p, d, sec)
    case Unlock(sec) => Release(sh, d, AfterSection(d, sec))
    case GatePoll(_) => StepGate(sh, d)
    case GateRead(_) => StepGate(sh, d)
    case InGate(_) => StepGate(sh, d)
    case Commit(dir) => (sh, CommitLocal(d, dir))
    case Closing(how) => Exit(sh, d, how)
    case Exited(_) => (sh, d)
    case _ => (sh, StepLoop(d))
  }

  /** Where a step leads. */
  lemma StepPc(sh: Shared, p: int, d: Drone)
    ensures var pc' := StepDrone(sh, p, d).1.pc;
            match d.pc
            case Lock(sec) => pc' == Body(sec)
            case Body(sec) => pc' == Unlock(sec) || (pc' == Closing(Refused) && sec.Register?)
            case Unlock(sec) => pc' == AfterSection(d, sec)
            case GatePoll(dir) => pc' == if sh.tokens > 0 then GateRead(dir) else Top
            case GateRead(dir) => pc' == InGate(dir)
            case InGate(dir) => pc' == Lock(Publish(dir))
            case Commit(_) => pc' == Top
            case Closing(how) => pc' == Exited(how)
            case Exited(how) => pc' == Exited(how)
            case _ => pc' == LoopNext(d)
  {
    hide SectionBody, LoopNext, AfterSection;
    if d.pc.Body? { SectionFrame(sh, p, d, d.pc.sec); }
  }

  /** What no step changes, apart from a booked move and a passage through the gate. */
  ghost predicate StepFrame(d: Drone, d': Drone) {
    && d'.start == d.start && d'.shutdown == d.shutdown
    && d'.battery == d.battery && d'.changes == d.changes
    && (if d.pc.Commit? then d'.loc == Side(d.pc.dir)
        else d'.cycles == d.cycles && d'.charging == d.charging && d'.loc == d.loc)
    && (d.pc.InGate? || d'.entries == d.entries)
  }

  lemma GateFrame(sh: Shared, d: Drone)
    requires d.pc.GatePoll? || d.pc.GateRead? || d.pc.InGate?
    ensures StepFrame(d, StepGate(sh, d).1)
  {
  }

  lemma LoopFrame(d: Drone)
    requires InLoop(d.pc)
    ensures StepFrame(d, StepLoop(d))
  {
    hide LoopNext;
  }

  lemma UnitsFrame(sh: Shared, d: Drone, pc: Pc, how: Ending)
    requires !d.pc.Commit?
    ensures StepFrame(d, Acquire(sh, d, pc).1) && StepFrame(d, Release(sh, d, pc).1)
    ensures StepFrame(d, Exit(sh, d, how).1) && StepFrame(d, d)
  {
  }

  lemma StepKeeps(sh: Shared, p: int, d: Drone)
    ensures StepFrame(d, StepDrone(sh, p, d).1)
  {
    hide SectionBody, StepLoop, StepGate, AfterSection, Acquire, Release, Exit;
    match d.pc {
      case Body(sec) => SectionFrame(sh, p, d, sec);
      case Commit(_) =>
      case Lock(sec) => UnitsFrame(sh, d, Body(sec), Refused); hide StepFrame;
      case Unlock(sec) => UnitsFrame(sh, d, AfterSection(d, sec), Refused); hide StepFrame;
      case Closing(how) => UnitsFrame(sh, d, d.pc, how); hide StepFrame;
      case Exited(how) => UnitsFrame(sh, d, d.pc, how); hide StepFrame;
      case GatePoll(_) => GateFrame(sh, d); hide StepFrame;
      case GateRead(_) => GateFrame(sh, d); hide StepFrame;
      case InGate(_) => GateFrame(sh, d); hide StepFrame;
      case _ => LoopFrame(d); hide StepFrame;
    }
  }

  /** One iteration of the battery thread. */
  function NextBattery(charging: bool, battery: int): int {
    if charging then (if battery < 100 then battery + 1 else battery)
    else (if battery > 0 then battery - 1 else battery)
  }

  function Tick(d: Drone): Drone {
    if d.pc.Exited? then d
    else
      var b := NextBattery(d.charging, d.battery);
      d.(battery := b, changes := d.changes + One(b != d.battery))
  }

  // ---- What the program counter says ----

  /** The drone has a slot in the registry; a drone that was shut down keeps its slot. */
  predicate Registered(d: Drone) {
    match d.pc
    case Lock(sec) => !sec.Register?
    case Body(sec) => !sec.Register?
    case Unlock(sec) => !sec.Remove?
    case Closing(how) => how.ShutDown?
    case Exited(how) => how.ShutDown?
    case _ => true
  }

  /** The drone has been taken out of the registry for this reason. */
  predicate RemovedFor(d: Drone, reason: Reason) {
    match d.pc
    case Unlock(sec) => sec == Remove(reason)
    case Closing(how) => how == Removed(reason)
    case Exited(how) => how == Removed(reason)
    case _ => false
  }

  predicate LostPower(d: Drone) { RemovedFor(d, OutOfPower) }
  predicate LostDecommissioned(d: Drone) { RemovedFor(d, Decommissioned) }
  predicate LostSuicide(d: Drone) { RemovedFor(d, Suicide) }

  /** The process holds a unit of the data semaphore. */
  predicate HoldsSem(d: Drone) { d.semAdj > 0 }

  predicate HoldsToken(d: Drone) { d.token }

  /** The location now standing in the drone's slot. */
  function Published(d: Drone): Location {
    match d.pc
    case Unlock(sec) => if sec.Publish? then Side(sec.dir) else d.loc
    case Commit(dir) => Side(dir)
    case _ => d.loc
  }

  predicate InBaseSlot(d: Drone) {
    Registered(d) && Published(d) == Base
  }

  /** The drone holds a reservation that no published entry has consumed yet. */
  predicate HoldsReservation(d: Drone) {
    Registered(d) && d.reserved && Published(d) != Base
  }

  /** The gate has been passed in this direction but the move is not yet booked locally. */
  predicate Passed(d: Drone, dir: Direction) {
    match d.pc
    case Lock(sec) => sec == Publish(dir)
    case Body(sec) => sec == Publish(dir)
    case Unlock(sec) => sec == Publish(dir)
    case Commit(dir') => dir' == dir
    case _ => false
  }

  predicate PhysicallyInside(d: Drone) {
    Registered(d) && d.inside
  }

  /** An upper bound on the battery changes still to come. */
  function Potential(d: Drone): int {
    200 * d.cycles + if d.charging then 200 - d.battery else d.battery
  }
}
