/** How many decreases can be processed: the bounds of `Latch` are reached. */
module Decreases {
  import opened Limit
  import opened Drones
  import opened Swarm
  import opened Preservation
  import opened Latch
  import opened Staging

  /** The decreases a swarm of `n` can see without an increase. */
  function MostDecreases(n: int): nat
    requires n >= 1
  {
    if StartLimit(n) > 0 then Bits(StartLimit(n)) else 1
  }

  lemma AtMost(c: Config, s: State)
    requires Reachable(c, s) && s.incs == 0
    ensures s.decs <= MostDecreases(c.n)
  {
    if StartLimit(c.n) > 0 {
      var sched :| Exec(c, Init(c), sched) == s;
      assert Exec(c, Init(c), []) == Init(c);
      LatchExactly(c, Init(c), sched);
    } else {
      Latched(c, s);
    }
  }

  /** Every number up to that is reached, and the last decrease leaves the operator past its latch
      with the base closed. */
  lemma Attain(c: Config, k: nat) returns (t: State)
    requires ValidConfig(c) && k <= MostDecreases(c.n)
    ensures Reachable(c, t) && t.incs == 0 && t.decs == k
    ensures k == MostDecreases(c.n) ==> t.sh.reg.limit <= 0 && PastLatch(t.op)
  {
    hide Leads;
    var s := Manned(c);
    if StartLimit(c.n) > 0 {
      t := DecreaseTimes(c, s, k);
      HalvedTimesReachesZero(s.sh.reg.limit, k);
      LeadsTo(c, Init(c), s, t);
    } else if k == 0 {
      t := s;
    } else {
      t := ServeDecrease(c, s);
      LeadsTo(c, Init(c), s, t);
    }
  }

  /** Exactly the numbers of decreases up to floor(log2 L) + 1, for a start limit L above zero, and
      up to one otherwise, occur in runs without increases. */
  lemma DecreasesReachableIff(c: Config, k: nat)
    requires ValidConfig(c)
    ensures (exists s :: Reachable(c, s) && s.incs == 0 && s.decs == k) <==> k <= MostDecreases(c.n)
  {
    hide Reachable;
    if k <= MostDecreases(c.n) {
      var t := Attain(c, k);
    } else if s :| Reachable(c, s) && s.incs == 0 && s.decs == k {
      AtMost(c, s);
    }
  }

  /** The limit the system starts with: half the number of drones, less one, rounded down. */
  lemma StartsAtHalf(c: Config)
    requires ValidConfig(c)
    ensures var limit := Init(c).sh.reg.limit; 2 * (limit + 1) <= c.n <= 2 * (limit + 1) + 1
  {
  }
}
