/** When doubling the limit stays within a C int. */
module Overflow {
  import opened Limit
  import opened ByteStacks
  import opened Drones
  import opened Swarm
  import opened Invariant
  import opened Preservation
  import opened Latch
  import opened Staging

  lemma LimitRange(c: Config, s: State)
    requires Reachable(c, s)
    ensures s.sh.reg.limit + Pow2(s.incs) >= 0 && s.sh.reg.limit <= 2 * c.n - 1
    ensures c.n >= 2 ==> s.sh.reg.limit >= 0
  {
    hide SwarmInv;
    Latched(c, s);
    if c.n >= 2 { NonNegativeLimit(c, s); }
  }

  /** With one drone the limit starts at -1 and every increase doubles it. */
  lemma {:induction false} DoubledFromMinusOne(k: nat)
    ensures DoubledTimes(StartLimit(1), 1, k) + Pow2(k) == 0
  {
    if k > 0 { DoubledFromMinusOne(k - 1); }
  }

  /** With one drone, `k` increases lead to a limit of exactly -(2^k). */
  lemma LoneLimit(c: Config, k: nat) returns (s: State)
    requires ValidConfig(c) && c.n == 1
    ensures Reachable(c, s) && s.incs == k && s.sh.reg.limit + Pow2(k) == 0
  {
    hide Leads;
    var s0 := Manned(c);
    s := IncreaseTimes(c, s0, k);
    LeadsTo(c, Init(c), s0, s);
    DoubledFromMinusOne(k);
  }

  /** With four drones or more, increases lead to the ceiling. */
  lemma CeilingLimit(c: Config) returns (s: State)
    requires ValidConfig(c) && c.n >= 4
    ensures Reachable(c, s) && s.sh.reg.limit == 2 * c.n - 1
  {
    hide Leads;
    var s0 := Manned(c);
    CeilingReachableIff(c.n);
    var k: nat :| DoubledTimes(StartLimit(c.n), c.n, k) == 2 * c.n - 1;
    s := IncreaseTimes(c, s0, k);
    LeadsTo(c, Init(c), s0, s);
  }

  /** Doubling never overflows, in any run, exactly when at least two drones are configured, and no
      more than 2^29; the command line accepts at most a million. */
  lemma LimitFitsInt(c: Config)
    requires ValidConfig(c)
    ensures (forall s :: Reachable(c, s) ==> FitsInt(2 * s.sh.reg.limit)) <==> 2 <= c.n <= 0x2000_0000
  {
    hide Reachable;
    if 2 <= c.n <= 0x2000_0000 {
      forall s | Reachable(c, s) ensures FitsInt(2 * s.sh.reg.limit) { LimitRange(c, s); }
    } else if c.n >= 2 {
      var s := CeilingLimit(c);
      assert !FitsInt(2 * s.sh.reg.limit);
    } else {
      var s := LoneLimit(c, 31);
      PowThirty();
      assert Pow2(31) == 2 * Pow2(30);
      assert !FitsInt(2 * s.sh.reg.limit);
    }
  }

  /** With one drone it takes 31 increases: up to `k` of them are safe exactly for `k` <= 30. */
  lemma LoneLimitFitsInt(c: Config, k: nat)
    requires ValidConfig(c) && c.n == 1
    ensures (forall s :: Reachable(c, s) && s.incs <= k ==> FitsInt(2 * s.sh.reg.limit)) <==> k <= 30
  {
    hide Reachable;
    PowThirty();
    if k <= 30 {
      forall s | Reachable(c, s) && s.incs <= k ensures FitsInt(2 * s.sh.reg.limit) {
        LimitRange(c, s);
        PowMonotone(s.incs, 30);
      }
    } else {
      var s := LoneLimit(c, 31);
      assert Pow2(31) == 2 * Pow2(30);
      assert !FitsInt(2 * s.sh.reg.limit) && s.incs <= k;
    }
  }
}
