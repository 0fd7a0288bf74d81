/** Suicide orders and shutdown requests to drones: what raises a flag, what lowers it, and that
    nothing happens without one. */
module Orders {
  import opened Registry
  import opened Drones
  import opened Swarm
  import opened Decisions

  /** The action orders drone `p` into a suicide attack. */
  predicate Orders(s: State, a: Action, p: nat) {
    a == SuicideOrder(p) || (a.CmdAct? && s.cmd.pc.CSuicide? && s.cmd.pick == p)
  }

  lemma StepOrderFlag(sh: Shared, p: int, d: Drone)
    ensures StepDrone(sh, p, d).1.sigUsr1 == (d.sigUsr1 && !d.pc.SigTest?)
  {
    hide SectionBody, LoopNext, AfterSection;
    if d.pc.Body? { SectionFrame(sh, p, d, d.pc.sec); }
  }

  /** The suicide flag goes up by an order to a running drone and by nothing else, and comes down by
      the drone's own look at it and by nothing else; the shutdown flag goes up by a request to a
      running drone and never comes down. */
  lemma FlagsExact(c: Config, s: State, a: Action, p: nat)
    requires p < |s.ds|
    ensures var d := s.ds[p];
            var looks := a == DroneAct(p) && d.pc.SigTest?;
            && p < |Apply(c, s, a).ds|
            && Apply(c, s, a).ds[p].sigUsr1
               == ((d.sigUsr1 && !looks) || (Orders(s, a, p) && !d.pc.Exited?))
            && Apply(c, s, a).ds[p].shutdown == (d.shutdown || (a == ShutdownOrder(p) && !d.pc.Exited?))
  {
    hide StepDrone;
    if a == DroneAct(p) {
      StepOrderFlag(s.sh, p, s.ds[p]);
      StepKeeps(s.sh, p, s.ds[p]);
    }
  }

  /** At some moment of the run somebody ordered drone `p` into an attack. */
  function OrderTo(p: nat): (State, Action) -> bool {
    (s: State, a: Action) => Orders(s, a, p)
  }

  /** The drone carries out an order, or has one to look at. */
  predicate UnderOrder(d: Drone) {
    d.sigUsr1 || d.pc.SigRead? || d.pc == Lock(Remove(Suicide)) || d.pc == Body(Remove(Suicide)) || LostSuicide(d)
  }

  ghost predicate Obedient(c: Config, sched: seq<Action>, t: State)
    requires ValidConfig(c)
  {
    && (forall p :: 0 <= p < |t.ds| && UnderOrder(t.ds[p]) ==> Moment(c, Init(c), sched, OrderTo(p)))
    && (forall p :: 0 <= p < |t.ds| && (t.ds[p].shutdown || Leaving(t.ds[p])) ==> ShutdownOrder(p) in sched)
  }

  /** On its way out by shutdown. */
  predicate Leaving(d: Drone) {
    d.pc == Closing(ShutDown) || d.pc == Exited(ShutDown)
  }

  lemma OrderStepLocal(sh: Shared, p: int, d: Drone)
    ensures var d' := StepDrone(sh, p, d).1;
            && (UnderOrder(d') ==> UnderOrder(d))
            && (d'.shutdown || Leaving(d') ==> d.shutdown || Leaving(d))
  {
    StepPc(sh, p, d);
    StepOrderFlag(sh, p, d);
    StepKeeps(sh, p, d);
    hide StepDrone;
  }

  lemma OrderActionLocal(c: Config, s: State, a: Action, p: nat)
    requires p < |Apply(c, s, a).ds|
    ensures var d' := Apply(c, s, a).ds[p];
            && (UnderOrder(d') ==> (p < |s.ds| && UnderOrder(s.ds[p])) || Orders(s, a, p))
            && (d'.shutdown || Leaving(d') ==>
                  (p < |s.ds| && (s.ds[p].shutdown || Leaving(s.ds[p]))) || a == ShutdownOrder(p))
  {
    hide StepDrone;
    if p >= |s.ds| {
      SpawnedPristine(c, s, a);
      hide Apply;
    } else if a == DroneAct(p) && Enabled(s, a) {
      OrderStepLocal(s.sh, p, s.ds[p]);
      hide UnderOrder, Leaving;
    } else {
      Bystander(c, s, a, p);
      FlagsExact(c, s, a, p);
      hide Apply;
    }
  }

  lemma {:induction false} ObedientRun(c: Config, sched: seq<Action>)
    requires ValidConfig(c)
    ensures Obedient(c, sched, Run(c, sched))
  {
    if sched != [] {
      var n := |sched| - 1;
      var s := Run(c, sched[..n]);
      var t := Run(c, sched);
      ObedientRun(c, sched[..n]);
      assert s == Exec(c, Init(c), sched[..n]) && t == Apply(c, s, sched[n]);
      hide Run, Exec, Apply, Moment, UnderOrder, Leaving, Orders;
      forall p | 0 <= p < |t.ds|
        ensures UnderOrder(t.ds[p]) ==> Moment(c, Init(c), sched, OrderTo(p))
        ensures t.ds[p].shutdown || Leaving(t.ds[p]) ==> ShutdownOrder(p) in sched
      {
        OrderActionLocal(c, s, sched[n], p);
        if UnderOrder(t.ds[p]) { MomentLater(c, Init(c), sched, OrderTo(p)); }
      }
    }
  }

  /** Nobody dies or leaves unasked: a drone removed as a suicide was ordered into the attack at some
      moment of the run, and one that ended by shutdown was told to. */
  lemma NothingUnasked(c: Config, sched: seq<Action>, p: nat)
    requires ValidConfig(c) && p < |Run(c, sched).ds|
    ensures var d := Run(c, sched).ds[p];
            && (d.pc == Lock(Remove(Suicide)) || d.pc == Body(Remove(Suicide)) || RemovedFor(d, Suicide) ==>
                  Moment(c, Init(c), sched, OrderTo(p)))
            && (d.pc == Closing(ShutDown) || d.pc == Exited(ShutDown) ==> ShutdownOrder(p) in sched)
  {
    ObedientRun(c, sched);
    hide Run;
  }
}
