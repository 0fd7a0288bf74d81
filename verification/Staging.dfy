/** States that chosen schedules lead to, from which witnesses of reachability are built. */
module Staging {
  import opened Limit
  import opened Registry
  import opened Drones
  import opened Swarm
  import opened Decisions

  // ---- The operator ----

  /** The state after the operator has started `k` drones and nothing else has happened. */
  function Launched(c: Config, k: nat): State
    requires ValidConfig(c)
  {
    Init(c).(ds := seq(k, _ => NewDrone(c, Mission)), op := Init(c).op.(pc := Starting(k)))
  }

  lemma {:induction false} Launch(c: Config, k: nat)
    requires ValidConfig(c) && k <= c.n
    ensures Leads(c, Init(c), Launched(c, k))
  {
    if k == 0 {
      assert Launched(c, 0).ds == [] && Launched(c, 0) == Init(c);
      LeadsSelf(c, Init(c));
    } else {
      Launch(c, k - 1);
      assert Launched(c, k - 1).ds + [NewDrone(c, Mission)] == Launched(c, k).ds;
      assert Apply(c, Launched(c, k - 1), OpAct) == Launched(c, k);
      hide Apply, Launched, Leads;
      LeadsOne(c, Init(c), Launched(c, k - 1), OpAct);
    }
  }

  /** The operator stands at `pc` with no signal pending and no process holds the semaphore. */
  ghost predicate Idle(s: State, pc: OpPc) {
    s.op == Operator(pc, false, false, false, s.op.newMax, s.op.canCreate, 0) && s.sh.sem == 1
  }

  /** Between the two states only the operator was at work, and it left the base as it was. */
  ghost predicate Attended(s: State, t: State) {
    && s.ds <= t.ds && t.cmd == s.cmd
    && t.sh == s.sh.(reg := s.sh.reg.(limit := t.sh.reg.limit))
  }

  /** All configured drones have been started and the operator looks for signals. */
  lemma Manned(c: Config) returns (s: State)
    requires ValidConfig(c)
    ensures Leads(c, Init(c), s) && Idle(s, OSig1) && s.incs == 0 && s.decs == 0
    ensures s.sh == Init(c).sh && |s.ds| == c.n && forall p :: 0 <= p < c.n ==> s.ds[p] == NewDrone(c, Mission)
  {
    var s0 := Launched(c, c.n);
    Launch(c, c.n);
    var s1 := Apply(c, s0, OpAct);
    s := Apply(c, s1, OpAct);
    hide Apply, Leads;
    LeadsOne(c, Init(c), s0, OpAct);
    LeadsOne(c, Init(c), s1, OpAct);
  }

  lemma ServeIncrease(c: Config, s: State) returns (t: State)
    requires Idle(s, OSig1)
    ensures Leads(c, s, t) && Idle(t, OSig2) && Attended(s, t)
    ensures t.sh.reg.limit == Doubled(s.sh.reg.limit, c.n) && t.incs == s.incs + 1 && t.decs == s.decs
  {
    var s1 := Apply(c, s, AddSignal);
    var s2 := Apply(c, s1, OpAct);
    assert s2.op.pc == OLock(Increase);
    var s3 := Apply(c, s2, OpAct);
    var s4 := Apply(c, s3, OpAct);
    assert s4.op.pc == OUnlock(Increase);
    t := Apply(c, s4, OpAct);
    hide Apply, Leads;
    LeadsSelf(c, s);
    LeadsOne(c, s, s, AddSignal);
    LeadsOne(c, s, s1, OpAct);
    LeadsOne(c, s, s2, OpAct);
    LeadsOne(c, s, s3, OpAct);
    LeadsOne(c, s, s4, OpAct);
  }

  /** With no decrease pending the operator goes on to its check. */
  lemma ServeQuiet(c: Config, s: State) returns (t: State)
    requires Idle(s, OSig2)
    ensures Leads(c, s, t) && Idle(t, OLock(Check)) && Attended(s, t)
    ensures t.sh.reg.limit == s.sh.reg.limit && t.incs == s.incs && t.decs == s.decs
  {
    t := Apply(c, s, OpAct);
    LeadsSelf(c, s);
    LeadsOne(c, s, s, OpAct);
    hide Leads;
  }

  lemma ServeCheck(c: Config, s: State) returns (t: State)
    requires Idle(s, OLock(Check))
    ensures Leads(c, s, t) && Idle(t, OSpawn) && Attended(s, t)
    ensures t.sh.reg.limit == s.sh.reg.limit && t.incs == s.incs && t.decs == s.decs
  {
    var s1 := Apply(c, s, OpAct);
    var s2 := Apply(c, s1, OpAct);
    assert s2.op.pc == OUnlock(Check);
    t := Apply(c, s2, OpAct);
    hide Apply, Leads;
    LeadsSelf(c, s);
    LeadsOne(c, s, s, OpAct);
    LeadsOne(c, s, s1, OpAct);
    LeadsOne(c, s, s2, OpAct);
  }

  lemma ServeSpawn(c: Config, s: State) returns (t: State)
    requires Idle(s, OSpawn)
    ensures Leads(c, s, t) && Idle(t, OLock(Describe)) && Attended(s, t)
    ensures t.sh.reg.limit == s.sh.reg.limit && t.incs == s.incs && t.decs == s.decs
  {
    t := Apply(c, s, OpAct);
    LeadsSelf(c, s);
    LeadsOne(c, s, s, OpAct);
    hide Leads;
  }

  lemma ServeDescribe(c: Config, s: State) returns (t: State)
    requires Idle(s, OLock(Describe))
    ensures Leads(c, s, t) && Idle(t, OSig1) && Attended(s, t)
    ensures t.sh.reg.limit == s.sh.reg.limit && t.incs == s.incs && t.decs == s.decs
  {
    var s1 := Apply(c, s, OpAct);
    var s2 := Apply(c, s1, OpAct);
    assert s2.op.pc == OUnlock(Describe);
    var s3 := Apply(c, s2, OpAct);
    assert s3.op.pc == OTop;
    t := Apply(c, s3, OpAct);
    hide Apply, Leads;
    LeadsSelf(c, s);
    LeadsOne(c, s, s, OpAct);
    LeadsOne(c, s, s1, OpAct);
    LeadsOne(c, s, s2, OpAct);
    LeadsOne(c, s, s3, OpAct);
  }

  /** The rest of a round, from the check to the next look for signals. */
  lemma FinishRound(c: Config, s: State) returns (t: State)
    requires Idle(s, OLock(Check))
    ensures Leads(c, s, t) && Idle(t, OSig1) && Attended(s, t)
    ensures t.sh.reg.limit == s.sh.reg.limit && t.incs == s.incs && t.decs == s.decs
  {
    hide Leads;
    var s1 := ServeCheck(c, s);
    var s2 := ServeSpawn(c, s1);
    t := ServeDescribe(c, s2);
    LeadsTo(c, s, s1, s2);
    LeadsTo(c, s, s2, t);
  }

  /** One signalled increase and one full round of the operator. */
  lemma IncreaseOnce(c: Config, s: State) returns (t: State)
    requires Idle(s, OSig1)
    ensures Leads(c, s, t) && Idle(t, OSig1) && Attended(s, t)
    ensures t.sh.reg.limit == Doubled(s.sh.reg.limit, c.n) && t.incs == s.incs + 1 && t.decs == s.decs
  {
    hide Leads;
    var s1 := ServeIncrease(c, s);
    var s2 := ServeQuiet(c, s1);
    t := FinishRound(c, s2);
    LeadsTo(c, s, s1, s2);
    LeadsTo(c, s, s2, t);
  }

  /** `k` signalled increases, each served before the next. */
  lemma {:induction false} IncreaseTimes(c: Config, s: State, k: nat) returns (t: State)
    requires Idle(s, OSig1)
    ensures Leads(c, s, t) && Idle(t, OSig1) && Attended(s, t)
    ensures t.sh.reg.limit == DoubledTimes(s.sh.reg.limit, c.n, k) && t.incs == s.incs + k && t.decs == s.decs
  {
    hide Leads, Doubled;
    if k == 0 {
      t := s;
      LeadsSelf(c, s);
    } else {
      var u := IncreaseTimes(c, s, k - 1);
      t := IncreaseOnce(c, u);
      LeadsTo(c, s, u, t);
    }
  }

  /** One signalled decrease, up to the latch. */
  lemma ServeDecrease(c: Config, s: State) returns (t: State)
    requires Idle(s, OSig1)
    ensures Leads(c, s, t) && Idle(t, OLatch) && Attended(s, t) && t.op.newMax == t.sh.reg.limit
    ensures t.sh.reg.limit == Halved(s.sh.reg.limit) && t.incs == s.incs && t.decs == s.decs + 1
  {
    hide Halved;
    var s1 := Apply(c, s, SubSignal);
    var s2 := Apply(c, s1, OpAct);
    assert s2.op.pc == OSig2 && s2.op.sig2;
    var s3 := Apply(c, s2, OpAct);
    var s4 := Apply(c, s3, OpAct);
    assert s4.op.pc == OBody(Decrease);
    var s5 := Apply(c, s4, OpAct);
    t := Apply(c, s5, OpAct);
    hide Apply, Leads;
    LeadsSelf(c, s);
    LeadsOne(c, s, s, SubSignal);
    LeadsOne(c, s, s1, OpAct);
    LeadsOne(c, s, s2, OpAct);
    LeadsOne(c, s, s3, OpAct);
    LeadsOne(c, s, s4, OpAct);
    LeadsOne(c, s, s5, OpAct);
  }

  /** Above zero the operator passes its latch and goes on. */
  lemma ServeLatch(c: Config, s: State) returns (t: State)
    requires Idle(s, OLatch) && s.op.newMax > 0
    ensures Leads(c, s, t) && Idle(t, OLock(Check)) && Attended(s, t)
    ensures t.sh.reg.limit == s.sh.reg.limit && t.incs == s.incs && t.decs == s.decs
  {
    t := Apply(c, s, OpAct);
    LeadsSelf(c, s);
    LeadsOne(c, s, s, OpAct);
    hide Leads;
  }

  /** `k` signalled decreases, each served before the next; the last may be the one that closes the
      base. */
  lemma {:induction false} DecreaseTimes(c: Config, s: State, k: nat) returns (t: State)
    requires Idle(s, OSig1) && s.sh.reg.limit > 0 && k <= Bits(s.sh.reg.limit)
    ensures Leads(c, s, t) && t.incs == s.incs && t.decs == s.decs + k
    ensures t.sh.reg.limit == HalvedTimes(s.sh.reg.limit, k)
    ensures if k < Bits(s.sh.reg.limit) then Idle(t, OSig1) else t.op.pc == OLatch && t.op.newMax <= 0
  {
    hide Leads, Halved, Attended;
    HalvedTimesReachesZero(s.sh.reg.limit, k);
    if k == 0 {
      BitsIsLog2(s.sh.reg.limit);
      t := s;
      LeadsSelf(c, s);
    } else {
      var u := DecreaseTimes(c, s, k - 1);
      t := ServeDecrease(c, u);
      LeadsTo(c, s, u, t);
      if k < Bits(s.sh.reg.limit) {
        var v := ServeLatch(c, t);
        LeadsTo(c, s, t, v);
        t := FinishRound(c, v);
        LeadsTo(c, s, v, t);
      }
    }
  }

  // ---- One drone at a time ----

  /** On its first mission at `pc`, holding nothing and seeing no signal. */
  ghost predicate FirstFlight(c: Config, d: Drone, pc: Pc, battery: int) {
    && d.pc == pc && d.battery == battery && d.start == Mission && d.loc == Mission && !d.charging
    && d.cycles == c.cycles && d.entries == 0 && !d.sigUsr1 && !d.shutdown && d.semAdj == 0
  }

  /** Between the two states only drone `p` was at work; it left the semaphore and the base alone. */
  ghost predicate Beside(s: State, t: State, p: nat) {
    && t.op == s.op && t.cmd == s.cmd && |t.ds| == |s.ds| && p < |s.ds|
    && (forall q :: 0 <= q < |s.ds| && q != p ==> t.ds[q] == s.ds[q])
    && t.sh.sem == s.sh.sem && t.sh.reg.limit == s.sh.reg.limit && t.sh.reg.inBase == s.sh.reg.inBase
  }

  lemma RegisterOne(c: Config, s: State, p: nat) returns (t: State)
    requires p < |s.ds| && s.ds[p] == NewDrone(c, Mission) && s.sh.sem == 1
    requires s.sh.reg.free != [] && s.sh.reg.free[|s.sh.reg.free| - 1] != -1
    ensures Leads(c, s, t) && Beside(s, t, p) && FirstFlight(c, t.ds[p], Top, 100) && !t.ds[p].reserved
    ensures t.sh.tokens == s.sh.tokens && t.sh.reg.reserving == s.sh.reg.reserving
    ensures t.sh.reg.free == s.sh.reg.free[..|s.sh.reg.free| - 1]
  {
    var s1 := Apply(c, s, DroneAct(p));
    var s2 := Apply(c, s1, DroneAct(p));
    assert s2.ds[p].pc == Unlock(Register);
    t := Apply(c, s2, DroneAct(p));
    hide Apply, Leads;
    LeadsSelf(c, s);
    LeadsOne(c, s, s, DroneAct(p));
    LeadsOne(c, s, s1, DroneAct(p));
    LeadsOne(c, s, s2, DroneAct(p));
  }

  /** `k` battery ticks of a flying drone. */
  lemma {:induction false} Drain(c: Config, s: State, p: nat, pc: Pc, battery: int, k: nat) returns (t: State)
    requires p < |s.ds| && FirstFlight(c, s.ds[p], pc, battery) && k <= battery && !pc.Exited?
    ensures Leads(c, s, t) && Beside(s, t, p) && t.sh == s.sh
    ensures FirstFlight(c, t.ds[p], pc, battery - k) && t.ds[p].reserved == s.ds[p].reserved
  {
    if k == 0 {
      t := s;
      LeadsSelf(c, s);
    } else {
      var u := Drain(c, s, p, pc, battery, k - 1);
      t := Apply(c, u, TickAct(p));
      hide Apply, Leads;
      LeadsOne(c, s, u, TickAct(p));
    }
  }

  /** One test of the main loop, with no suicide order pending. */
  lemma TestAs(c: Config, s: State, t: State, p: nat, next: Pc) returns (t': State)
    requires Leads(c, s, t) && p < |s.ds| && !s.ds[p].sigUsr1
    requires p < |t.ds| && t == s.(ds := s.ds[p := s.ds[p].(pc := t.ds[p].pc)])
    requires InLoop(t.ds[p].pc) && LoopNext(t.ds[p]) == next
    ensures Leads(c, s, t') && t' == s.(ds := s.ds[p := s.ds[p].(pc := next)])
  {
    hide Apply, Leads, LoopNext;
    OwnTest(c, t, p);
    t' := Apply(c, t, DroneAct(p));
    LeadsOne(c, s, t, DroneAct(p));
  }

  lemma SeekPlace(c: Config, s: State, p: nat) returns (t: State)
    requires p < |s.ds| && FirstFlight(c, s.ds[p], Top, 19) && c.cycles >= 1
    ensures Leads(c, s, t) && t == s.(ds := s.ds[p := s.ds[p].(pc := Lock(Reserve))])
  {
    hide Apply, Leads;
    LeadsSelf(c, s);
    var s1 := TestAs(c, s, s, p, SigTest);
    var s2 := TestAs(c, s, s1, p, PowerRead);
    var s3 := TestAs(c, s, s2, p, Dispatch);
    var s4 := TestAs(c, s, s3, p, ReturnRead);
    t := TestAs(c, s, s4, p, Lock(Reserve));
  }

  /** A low drone finds room, reserves and goes to the gate. */
  lemma ReserveOne(c: Config, s: State, p: nat) returns (t: State)
    requires p < |s.ds| && FirstFlight(c, s.ds[p], Top, 19) && !s.ds[p].reserved && c.cycles >= 1
    requires s.sh.sem == 1 && Occupancy(s.sh.reg) < s.sh.reg.limit
    ensures Leads(c, s, t) && Beside(s, t, p) && FirstFlight(c, t.ds[p], GatePoll(In), 19) && t.ds[p].reserved
    ensures t.sh.tokens == s.sh.tokens && t.sh.reg.reserving == s.sh.reg.reserving + 1
    ensures t.sh.reg.free == s.sh.reg.free
  {
    var s1 := SeekPlace(c, s, p);
    var s2 := Apply(c, s1, DroneAct(p));
    var s3 := Apply(c, s2, DroneAct(p));
    assert s3.ds[p].pc == Unlock(Reserve) && s3.ds[p].reserved;
    t := Apply(c, s3, DroneAct(p));
    hide Apply, Leads;
    LeadsOne(c, s, s1, DroneAct(p));
    LeadsOne(c, s, s2, DroneAct(p));
    LeadsOne(c, s, s3, DroneAct(p));
  }

  /** A drone at the gate takes a token. */
  lemma EnterGate(c: Config, s: State, p: nat) returns (t: State)
    requires p < |s.ds| && s.ds[p].pc == GatePoll(In) && s.sh.tokens > 0
    ensures Leads(c, s, t) && Beside(s, t, p) && t.sh == s.sh.(tokens := s.sh.tokens - 1)
  {
    var s1 := Apply(c, s, DroneAct(p));
    assert s1.ds[p].pc == GateRead(In) && s1.sh == s.sh;
    t := Apply(c, s1, DroneAct(p));
    hide Apply, Leads;
    LeadsSelf(c, s);
    LeadsOne(c, s, s, DroneAct(p));
    LeadsOne(c, s, s1, DroneAct(p));
  }

  /** From the start of a registered drone's flight to the gate, with a reservation. */
  lemma FlyToGate(c: Config, s: State, p: nat) returns (t: State)
    requires ValidConfig(c) && p < |s.ds| && s.ds[p] == NewDrone(c, Mission)
    requires s.sh.sem == 1 && Occupancy(s.sh.reg) < s.sh.reg.limit
    requires s.sh.reg.free != [] && s.sh.reg.free[|s.sh.reg.free| - 1] != -1
    ensures Leads(c, s, t) && Beside(s, t, p) && FirstFlight(c, t.ds[p], GatePoll(In), 19) && t.ds[p].reserved
    ensures t.sh.tokens == s.sh.tokens && t.sh.reg.reserving == s.sh.reg.reserving + 1
    ensures t.sh.reg.free == s.sh.reg.free[..|s.sh.reg.free| - 1]
  {
    hide Leads;
    var s1 := RegisterOne(c, s, p);
    var s2 := Drain(c, s1, p, Top, 100, 81);
    t := ReserveOne(c, s2, p);
    hide FirstFlight;
    LeadsTo(c, s, s1, s2);
    LeadsTo(c, s, s2, t);
  }
}
