/** What a limit at or below zero means for the rest of the run. */
module Closedown {
  import opened Counting
  import opened Registry
  import opened Drones
  import opened Swarm
  import opened Invariant
  import opened Preservation
  import opened Capacity

  /** A reservation with which the base has not been entered yet. */
  predicate Pending(d: Drone) {
    HoldsReservation(d) && !Passed(d, In)
  }

  function Entries(d: Drone): int {
    d.entries
  }

  /** On a mission without a promised place. */
  predicate Grounded(d: Drone) {
    d.loc == Mission && !d.reserved
  }

  // ---- One drone, one step ----

  /** What a drone can no longer gain once the base is closed. */
  ghost predicate NoGain(d: Drone, d': Drone) {
    && d'.start == d.start
    && (d'.reserved ==> d.reserved)
    && (d'.index >= 0 && d.start == Base ==> d.index >= 0)
    && d'.entries + One(Pending(d')) <= d.entries + One(Pending(d))
    && (Grounded(d) ==> Grounded(d') && d'.entries == d.entries
                        && d'.battery + d'.changes == d.battery + d.changes)
  }

  lemma ClosedBody(c: Config, sh: Shared, p: int, d: Drone)
    requires LocalInv(c, d) && d.pc.Body? && Occupancy(sh.reg) >= 0 >= sh.reg.limit
    ensures NoGain(d, SectionBody(sh, p, d, d.pc.sec).1)
  {
  }

  lemma ClosedLoop(d: Drone)
    requires InLoop(d.pc)
    ensures NoGain(d, StepLoop(d))
  {
  }

  lemma ClosedUnits(c: Config, sh: Shared, p: int, d: Drone)
    requires LocalInv(c, d) && (d.pc.Lock? || d.pc.Unlock? || d.pc.Closing? || d.pc.Exited?)
    ensures NoGain(d, StepDrone(sh, p, d).1)
  {
  }

  lemma ClosedCrossing(c: Config, sh: Shared, p: int, d: Drone)
    requires LocalInv(c, d) && (d.pc.GatePoll? || d.pc.GateRead? || d.pc.InGate? || d.pc.Commit?)
    ensures NoGain(d, StepDrone(sh, p, d).1)
  {
  }

  lemma ClosedStep(c: Config, sh: Shared, p: int, d: Drone)
    requires LocalInv(c, d) && Occupancy(sh.reg) >= 0 >= sh.reg.limit
    ensures NoGain(d, StepDrone(sh, p, d).1)
  {
    hide LocalInv, NoGain;
    if d.pc.Body? {
      ClosedBody(c, sh, p, d);
    } else if InLoop(d.pc) {
      ClosedLoop(d);
    } else if d.pc.Lock? || d.pc.Unlock? || d.pc.Closing? || d.pc.Exited? {
      ClosedUnits(c, sh, p, d);
    } else {
      ClosedCrossing(c, sh, p, d);
    }
  }

  lemma ClosedTick(c: Config, d: Drone)
    requires LocalInv(c, d)
    ensures NoGain(d, Tick(d))
  {
    assert Pending(Tick(d)) == Pending(d);
    hide Pending;
  }

  lemma ClosedSignal(d: Drone, sigUsr1: bool, shutdown: bool)
    ensures NoGain(d, d.(sigUsr1 := sigUsr1, shutdown := shutdown))
  {
  }

  // ---- The whole system, one action ----

  /** What holds between a state with the base closed and every later one. */
  ghost predicate ClosedSince(s: State, t: State) {
    && t.sh.reg.limit <= 0
    && |s.ds| <= |t.ds|
    // no reservation succeeds any more, and no drone is admitted into the base
    && (forall p :: 0 <= p < |t.ds| && t.ds[p].reserved ==> p < |s.ds| && s.ds[p].reserved)
    && (forall p :: 0 <= p < |t.ds| && t.ds[p].start == Base && t.ds[p].index >= 0 ==>
          p < |s.ds| && s.ds[p].start == Base && s.ds[p].index >= 0)
    // every entry uses up a reservation that was already held
    && Total(t.ds, Entries) + Count(t.ds, Pending) <= Total(s.ds, Entries) + Count(s.ds, Pending)
    // a drone on a mission without a promised place never charges again
    && (forall p :: 0 <= p < |s.ds| && Grounded(s.ds[p]) ==>
          && Grounded(t.ds[p])
          && t.ds[p].entries == s.ds[p].entries
          && t.ds[p].battery + t.ds[p].changes == s.ds[p].battery + s.ds[p].changes)
  }

  lemma ClosedUpdate(s: State, p: nat, d': Drone, sh': Shared)
    requires s.sh.reg.limit <= 0 && sh'.reg.limit <= 0 && p < |s.ds| && NoGain(s.ds[p], d')
    ensures ClosedSince(s, s.(sh := sh', ds := s.ds[p := d']))
  {
    TotalUpdate(s.ds, p, d', Entries);
    CountUpdate(s.ds, p, d', Pending);
  }

  lemma ClosedOrder(c: Config, s: State, p: int)
    requires Inv(c, s) && s.sh.reg.limit <= 0
    ensures ClosedSince(s, OrderSuicide(s, p))
  {
    hide SlotInv, IdInv, CountInv, Consistent;
    if 0 <= p < |s.ds| && !s.ds[p].pc.Exited? {
      ClosedSignal(s.ds[p], true, s.ds[p].shutdown);
      var d' := s.ds[p].(sigUsr1 := true);
      assert d' == s.ds[p].(sigUsr1 := true, shutdown := s.ds[p].shutdown);
      ClosedUpdate(s, p, d', s.sh);
    }
  }

  lemma ClosedDrone(c: Config, s: State, a: Action)
    requires ValidConfig(c) && Inv(c, s) && s.sh.reg.limit <= 0
    requires a.DroneAct? || a.TickAct? || a.ShutdownOrder?
    ensures ClosedSince(s, Apply(c, s, a))
  {
    hide SlotInv, IdInv, Consistent, ClosedSince, NoGain;
    if a.p < |s.ds| {
      var d := s.ds[a.p];
      ClosedSelf(s);
      ClosedStep(c, s.sh, a.p, d);
      DroneKeepsLimit(s.sh, a.p, d);
      ClosedTick(c, d);
      ClosedSignal(d, d.sigUsr1, true);
      var (sh', d') := StepDrone(s.sh, a.p, d);
      ClosedUpdate(s, a.p, d', sh');
      ClosedUpdate(s, a.p, Tick(d), s.sh);
      assert d.(shutdown := true) == d.(sigUsr1 := d.sigUsr1, shutdown := true);
      ClosedUpdate(s, a.p, d.(shutdown := true), s.sh);
    } else {
      ClosedSelf(s);
    }
  }

  lemma ClosedSelf(s: State)
    requires s.sh.reg.limit <= 0
    ensures ClosedSince(s, s)
  {
  }

  lemma ClosedSpawn(c: Config, s: State, start: Location)
    requires s.sh.reg.limit <= 0
    ensures ClosedSince(s, Spawn(c, s, start))
  {
    TotalAppend(s.ds, NewDrone(c, start), Entries);
    CountAppend(s.ds, NewDrone(c, start), Pending);
  }

  /** `ClosedSince` looks at the drones and the limit only. */
  lemma ClosedFrame(s: State, t: State, t': State)
    requires ClosedSince(s, t) && t'.ds == t.ds && t'.sh.reg.limit <= 0
    ensures ClosedSince(s, t')
  {
  }

  lemma OpDrones(c: Config, s: State)
    ensures var ds' := StepOp(c, s).ds;
            ds' == s.ds || ds' == Spawn(c, s, Mission).ds || ds' == Spawn(c, s, Base).ds
  {
  }

  lemma ClosedApply(c: Config, s: State, a: Action)
    requires ValidConfig(c) && Inv(c, s) && s.sh.reg.limit <= 0
    ensures ClosedSince(s, Apply(c, s, a))
  {
    hide Inv, ClosedSince, StepOp, CmdLocal;
    LimitMoves(c, s, a);
    ClosedSelf(s);
    var s' := Apply(c, s, a);
    match a
    case DroneAct(_) => ClosedDrone(c, s, a);
    case TickAct(_) => ClosedDrone(c, s, a);
    case ShutdownOrder(_) => ClosedDrone(c, s, a);
    case SuicideOrder(p) => ClosedOrder(c, s, p);
    case OpAct =>
      OpDrones(c, s);
      ClosedSpawn(c, s, Mission);
      ClosedSpawn(c, s, Base);
      if s'.ds == s.ds {
        ClosedFrame(s, s, s');
      } else if s'.ds == Spawn(c, s, Mission).ds {
        ClosedFrame(s, Spawn(c, s, Mission), s');
      } else {
        ClosedFrame(s, Spawn(c, s, Base), s');
      }
    case CmdAct(_) =>
      ClosedOrder(c, s, s.cmd.pick);
      if s'.ds == s.ds { ClosedFrame(s, s, s'); } else { ClosedFrame(s, OrderSuicide(s, s.cmd.pick), s'); }
    case _ => ClosedFrame(s, s, s');
  }

  lemma ClosedTransitive(s: State, t: State, u: State)
    requires ClosedSince(s, t) && ClosedSince(t, u)
    ensures ClosedSince(s, u)
  {
  }

  // ---- Whole runs ----

  /** Once the limit is at or below zero it stays there, no reservation and no base start ever
      succeeds again, and whoever flies without a reservation flies on its last charge. */
  lemma {:induction false} ClosedForever(c: Config, s: State, sched: seq<Action>)
    requires Reachable(c, s) && s.sh.reg.limit <= 0
    ensures ClosedSince(s, Exec(c, s, sched))
  {
    hide ClosedSince, Apply, Inv;
    if sched == [] {
      ClosedSelf(s);
    } else {
      var n := |sched| - 1;
      var t := Exec(c, s, sched[..n]);
      ClosedForever(c, s, sched[..n]);
      Safety(c, s);
      ExecKeepsInv(c, s, sched[..n]);
      ClosedLimit(s, t);
      ClosedApply(c, t, sched[n]);
      ClosedTransitive(s, t, Apply(c, t, sched[n]));
    }
  }

  lemma ClosedLimit(s: State, t: State)
    requires ClosedSince(s, t)
    ensures t.sh.reg.limit <= 0
  {
  }

  /** The base entries made after the limit reached zero, over all drones and whatever is
      spawned, are at most the reservations held at that moment. */
  lemma EntriesAfterClosing(c: Config, s: State, sched: seq<Action>)
    requires Reachable(c, s) && s.sh.reg.limit <= 0
    ensures Total(Exec(c, s, sched).ds, Entries) <= Total(s.ds, Entries) + s.sh.reg.reserving
  {
    ClosedForever(c, s, sched);
    Safety(c, s);
    CountImplied(s.ds, Pending, HoldsReservation);
  }

  /** With one, two or three drones configured the limit is never positive, so in no run does any
      drone enter the base, hold a reservation, or start in the base. */
  lemma SmallSwarmsNeverDock(c: Config, sched: seq<Action>)
    requires ValidConfig(c) && c.n <= 3
    ensures var t := Run(c, sched);
            && t.sh.reg.limit <= 0
            && forall p :: 0 <= p < |t.ds| ==>
                 t.ds[p].entries == 0 && !t.ds[p].reserved && (t.ds[p].start == Base ==> t.ds[p].index < 0)
  {
    var s := Init(c);
    assert Run(c, []) == s;
    ClosedForever(c, s, sched);
    EntriesAfterClosing(c, s, sched);
    var t := Run(c, sched);
    ExecKeepsInv(c, s, sched) by { InitInv(c); }
    forall p | 0 <= p < |t.ds| ensures Entries(t.ds[p]) >= 0 { assert LocalInv(c, t.ds[p]); }
    forall p | 0 <= p < |t.ds| ensures t.ds[p].entries == 0 { TotalBounds(t.ds, Entries, p); }
  }
}
