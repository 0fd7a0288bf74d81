/** The system executed on real memory: an imperative run of a schedule over the in-place registry
    refines the abstract run, so everything proved of `Run` holds of it. */
module Simulations {
  import opened Counting
  import opened Limit
  import opened Registry
  import opened Drones
  import opened Swarm
  import opened Invariant
  import opened Preservation
  import opened ByteStacks
  import opened SharedMemories

  /** The memory accesses of drone `p`'s critical section are in bounds. */
  lemma Accessible(c: Config, s: State, p: nat)
    requires Inv(c, s)
    ensures |s.sh.reg.slots| == c.capacity
    ensures forall i :: i in s.sh.reg.free ==> 0 <= i < c.capacity
    ensures p < |s.ds| && Registered(s.ds[p]) ==> 0 <= s.ds[p].index < c.capacity
  {
    if p < |s.ds| { assert Link(s.sh.reg.slots, p, s.ds[p]); }
  }

  class Simulation {
    const c: Config
    const shm: SharedMemory
    var sem: int
    var tokens: int
    var refusals: int
    var drones: seq<Drone>
    var op: Operator
    var cmd: Commander
    var adds: int
    var subs: int
    var kills: int
    var incs: nat
    var decs: nat

    ghost predicate Valid()
      reads this, shm, shm.stack, shm.stack.data
    {
      ValidConfig(c) && shm.Valid()
    }

    ghost function ViewShared(): Shared
      requires Valid()
      reads this, shm, shm.slots, shm.stack, shm.stack.data
    {
      Shared(shm.View(), sem, tokens, refusals)
    }

    /** The abstract state this simulation is in. */
    ghost function View(): State
      requires Valid()
      reads this, shm, shm.slots, shm.stack, shm.stack.data
    {
      State(ViewShared(), drones, op, cmd, adds, subs, kills, incs, decs)
    }

    constructor (c: Config)
      requires ValidConfig(c) && FitsInt(c.capacity)
      ensures Valid() && this.c == c && View() == Init(c)
      ensures fresh(shm) && fresh(shm.slots) && fresh(shm.stack) && fresh(shm.stack.data)
    {
      this.c := c;
      shm := new SharedMemory(c.capacity, c.n / 2 - 1);
      sem, tokens, refusals := 1, 2, 0;
      drones := [];
      op := Operator(Starting(0), false, false, false, 0, false, 0);
      cmd := Commander(CLoop(PIncrease(0)), false, -1, 0, 0);
      adds, subs, kills, incs, decs := 0, 0, 0, 0, 0;
    }

    // ---- The drone's critical sections, on the memory itself ----

    method RegisterSection(p: nat, d: Drone) returns (d': Drone)
      requires Valid() && d.pc == Body(Register)
      requires forall i :: i in shm.View().free ==> 0 <= i < shm.slots.Length
      modifies this`refusals, shm, shm.slots, shm.stack`size
      ensures Valid() && (ViewShared(), d') == RegisterBody(old(ViewShared()), p, d)
    {
      if shm.inBase + shm.reserving < shm.limit || d.start == Mission {
        var i := shm.AddDrone(Slot(d.id, p, d.start));
        var id := shm.nextId;
        shm.nextId := shm.nextId + 1;
        if i == -1 {
          refusals := refusals + 1;
          d' := d.(index := i, id := id, inside := false, pc := Closing(Refused));
        } else {
          d' := d.(index := i, id := id, inside := d.start == Base, pc := Unlock(Register));
        }
      } else {
        d' := d.(pc := Closing(Refused));
      }
    }

    method ReserveSection(d: Drone) returns (d': Drone)
      requires Valid() && d.pc == Body(Reserve)
      modifies shm`reserving
      ensures Valid() && (ViewShared(), d') == ReserveBody(old(ViewShared()), d)
    {
      d' := d.(pc := Unlock(Reserve));
      if !d.reserved && shm.inBase + shm.reserving < shm.limit {
        shm.reserving := shm.reserving + 1;
        d' := d'.(reserved := true);
      }
    }

    method SectionStep(p: nat, d: Drone) returns (d': Drone)
      requires Valid() && d.pc.Body?
      requires forall i :: i in shm.View().free ==> 0 <= i < shm.slots.Length
      requires Registered(d) ==> 0 <= d.index < shm.slots.Length
      modifies this`refusals, shm, shm.slots, shm.stack, shm.stack.data
      ensures Valid() && (ViewShared(), d') == StepDrone(old(ViewShared()), p, d)
    {
      match d.pc.sec
      case Register => d' := RegisterSection(p, d);
      case Reserve => d' := ReserveSection(d);
      case Remove(reason) =>
        var freed := shm.DeleteDrone(d.index, d.reserved, reason);
        d' := d.(pc := Unlock(Remove(reason)));
      case Publish(dir) =>
        shm.UpdateLocation(d.index, Side(dir));
        d' := d.(pc := Unlock(Publish(dir)));
    }

    /** Taking, returning and undoing the semaphore. */
    method SemStep(p: nat, d: Drone) returns (d': Drone)
      requires Valid() && (d.pc.Lock? || d.pc.Unlock? || d.pc.Closing?)
      modifies this`sem
      ensures Valid() && (ViewShared(), d') == StepDrone(old(ViewShared()), p, d)
    {
      match d.pc
      case Lock(sec) =>
        sem := sem - 1;
        d' := d.(semAdj := d.semAdj + 1, pc := Body(sec));
      case Unlock(sec) =>
        sem := sem + 1;
        d' := d.(semAdj := d.semAdj - 1, pc := AfterSection(d, sec));
      case Closing(how) =>
        sem := sem + d.semAdj;
        d' := d.(semAdj := 0, pc := Exited(how));
    }

    method GateStep(p: nat, d: Drone) returns (d': Drone)
      requires Valid() && (d.pc.GatePoll? || d.pc.GateRead? || d.pc.InGate?)
      modifies this`tokens
      ensures Valid() && (ViewShared(), d') == StepDrone(old(ViewShared()), p, d)
    {
      match d.pc
      case GatePoll(dir) =>
        d' := d.(pc := if tokens > 0 then GateRead(dir) else Top);
      case GateRead(dir) =>
        tokens := tokens - 1;
        d' := d.(token := true, pc := InGate(dir));
      case InGate(dir) =>
        tokens := tokens + 1;
        d' := d.(token := false, inside := dir == In, entries := d.entries + One(dir == In),
                 pc := Lock(Publish(dir)));
    }

    /** Tests and bookkeeping, which touch nothing shared. */
    method LocalStep(p: nat, d: Drone) returns (d': Drone)
      requires Valid() && (InLoop(d.pc) || d.pc.Commit?)
      ensures (ViewShared(), d') == StepDrone(ViewShared(), p, d)
    {
      d' := if d.pc.Commit? then CommitLocal(d, d.pc.dir) else StepLoop(d);
    }

    /** One step of drone `p`. */
    method DroneStep(p: nat)
      requires Valid() && p < |drones| && Ready(ViewShared(), drones[p])
      requires forall i :: i in shm.View().free ==> 0 <= i < shm.slots.Length
      requires Registered(drones[p]) ==> 0 <= drones[p].index < shm.slots.Length
      modifies this, shm, shm.slots, shm.stack, shm.stack.data
      ensures Valid() && View() == StepProcess(old(View()), p)
    {
      hide StepDrone, Registered;
      var d := drones[p];
      var d': Drone;
      if d.pc.Body? {
        d' := SectionStep(p, d);
      } else if d.pc.Lock? || d.pc.Unlock? || d.pc.Closing? {
        d' := SemStep(p, d);
      } else if d.pc.GatePoll? || d.pc.GateRead? || d.pc.InGate? {
        d' := GateStep(p, d);
      } else {
        d' := LocalStep(p, d);
      }
      drones := drones[p := d'];
    }

    // ---- The operator and the commander ----

    /** C's division by two, which truncates toward zero where Dafny's quotient rounds down. */
    method HalfOf(x: int) returns (half: int)
      ensures x >= 0 ==> 2 * half <= x <= 2 * half + 1
      ensures x <= 0 ==> 2 * half - 1 <= x <= 2 * half
    {
      half := x / 2;
      if x < 0 && x % 2 != 0 { half := half + 1; }
    }

    method OpSection(sec: Section)
      requires Valid() && op.pc == OBody(sec)
      modifies this, shm`limit
      ensures Valid() && View() == StepOp(c, old(View()))
    {
      match sec
      case Increase =>
        var newMax := shm.limit * 2;
        if newMax >= c.n * 2 { newMax := c.n * 2 - 1; }
        shm.limit := newMax;
        incs := incs + 1;
        op := op.(pc := OUnlock(Increase));
      case Decrease =>
        var newMax := HalfOf(shm.limit);
        HalvedTruncates(shm.limit);
        shm.limit := newMax;
        decs := decs + 1;
        op := op.(newMax := shm.limit, pc := OUnlock(Decrease));
      case Check =>
        op := op.(canCreate := shm.inBase + shm.reserving < shm.limit, pc := OUnlock(Check));
      case Describe => op := op.(pc := OUnlock(Describe));
    }

    method OpStep()
      requires Valid() && OpReady(View())
      modifies this, shm`limit
      ensures Valid() && View() == StepOp(c, old(View()))
    {
      match op.pc
      case Starting(i) =>
        if i >= c.n || op.shutdown {
          op := op.(pc := OTop);
        } else {
          drones := drones + [NewDrone(c, Mission)];
          op := op.(pc := Starting(i + 1));
        }
      case OTop => op := op.(pc := if op.shutdown then ODone else OSig1);
      case OSig1 => op := op.(sig1 := false, pc := if op.sig1 then OLock(Increase) else OSig2);
      case OSig2 => op := op.(sig2 := false, pc := if op.sig2 then OLock(Decrease) else OLock(Check));
      case OLock(sec) =>
        sem := sem - 1;
        op := op.(semAdj := op.semAdj + 1, pc := OBody(sec));
      case OBody(sec) => OpSection(sec);
      case OUnlock(sec) =>
        sem := sem + 1;
        op := op.(semAdj := op.semAdj - 1, pc := AfterOpSection(sec));
      case OLatch => op := op.(shutdown := op.shutdown || op.newMax <= 0, pc := OLock(Check));
      case OSpawn =>
        if op.canCreate { drones := drones + [NewDrone(c, Base)]; }
        op := op.(pc := OLock(Describe));
      case ODone =>
    }

    method SuicideTo(p: int)
      requires Valid()
      modifies this`drones
      ensures Valid() && View() == OrderSuicide(old(View()), p)
    {
      if 0 <= p < |drones| && !drones[p].pc.Exited? {
        drones := drones[p := drones[p].(sigUsr1 := true)];
      }
    }

    /** The commander's own variables after its step. */
    method NextCommander(interrupted: bool) returns (next: Commander)
      requires Valid()
      ensures next == CmdLocal(cmd, shm.View(), interrupted)
    {
      next := cmd.(pc := CmdNext(cmd, interrupted));
      match cmd.pc
      case CLock(_) => next := next.(semAdj := cmd.semAdj + 1);
      case CUnlock(_) => next := next.(semAdj := cmd.semAdj - 1);
      case CBody(Pick(_)) =>
        var pid := shm.GetPid();
        next := next.(pick := pid);
      case CBody(_) => next := next.(seen := shm.limit);
      case _ =>
    }

    /** The commander's effect on semaphore, operator and drones. */
    method CommanderOutput()
      requires Valid()
      modifies this`sem, this`op, this`adds, this`subs, this`kills, this`drones
      ensures Valid() && View() == CmdOutput(old(View()))
    {
      match cmd.pc
      case CAct(PIncrease(_)) =>
        op := op.(sig1 := true);
        adds := adds + 1;
      case CLock(_) => sem := sem - 1;
      case CUnlock(_) => sem := sem + 1;
      case CSuicide(_) =>
        SuicideTo(cmd.pick);
        if cmd.pick != -1 { kills := kills + 1; }
      case CSubtract => op, subs := op.(sig2 := true), subs + 1;
      case _ =>
    }

    method CmdStep(interrupted: bool)
      requires Valid() && CmdReady(View())
      modifies this
      ensures Valid() && View() == StepCmd(old(View()), interrupted)
    {
      hide CmdLocal, CmdOutput;
      var next := NextCommander(interrupted);
      CommanderOutput();
      cmd := next;
    }

    // ---- Whole schedules ----

    method Step(a: Action)
      requires Valid() && Inv(c, View())
      modifies this, shm, shm.slots, shm.stack, shm.stack.data
      ensures Valid() && View() == Apply(c, old(View()), a)
    {
      hide Inv, StepProcess, StepOp, StepCmd;
      match a
      case DroneAct(p) =>
        Accessible(c, View(), p);
        if p < |drones| && ReadyNow(p) { DroneStep(p); }
      case TickAct(p) => if p < |drones| { drones := drones[p := Tick(drones[p])]; }
      case SuicideOrder(p) => SuicideTo(p);
      case ShutdownOrder(p) =>
        if p < |drones| && !drones[p].pc.Exited? { drones := drones[p := drones[p].(shutdown := true)]; }
      case OpAct => if (if op.pc.OLock? then sem > 0 else !op.pc.ODone?) { OpStep(); }
      case CmdAct(interrupted) => if (if cmd.pc.CLock? then sem > 0 else !cmd.pc.CDone?) { CmdStep(interrupted); }
      case AddSignal => op, adds := op.(sig1 := true), adds + 1;
      case SubSignal => op, subs := op.(sig2 := true), subs + 1;
      case OpShutdown => op := op.(shutdown := true);
      case CmdShutdown => cmd := cmd.(shutdown := true);
    }

    predicate ReadyNow(p: nat)
      requires Valid() && p < |drones|
      reads this, shm, shm.slots, shm.stack, shm.stack.data
      ensures ReadyNow(p) == Ready(ViewShared(), drones[p])
    {
      if drones[p].pc.Lock? then sem > 0
      else if drones[p].pc.GateRead? then tokens > 0
      else !drones[p].pc.Exited?
    }

    /** Runs a schedule on the memory: the result is the abstract run, and it keeps the protocol
        invariant throughout. */
    method RunSchedule(sched: seq<Action>)
      requires Valid() && View() == Init(c)
      modifies this, shm, shm.slots, shm.stack, shm.stack.data
      ensures Valid() && View() == Run(c, sched) && Inv(c, View())
    {
      InitInv(c);
      hide Inv, Apply, Init;
      for k := 0 to |sched|
        invariant Valid() && View() == Exec(c, Init(c), sched[..k]) && Inv(c, View())
      {
        ghost var before := View();
        Step(sched[k]);
        ApplyKeepsInv(c, before, sched[k]);
        assert sched[..k + 1][..k] == sched[..k];
      }
      assert sched[..|sched|] == sched;
    }
  }
}
