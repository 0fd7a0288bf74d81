/** A drone can actually dock, exactly when at least four drones are configured. */
module Docking {
  import opened Registry
  import opened Drones
  import opened Swarm
  import opened Invariant
  import opened Preservation
  import opened Closedown
  import opened Staging
  import opened Depletion

  /** A starting drone flies until it needs a charge, reserves, passes the gate and docks. */
  lemma LargeSwarmDocks(c: Config) returns (t: State)
    requires ValidConfig(c) && c.n >= 4
    ensures Reachable(c, t)
    ensures |t.ds| >= 1 && Registered(t.ds[0]) && t.ds[0].loc == Base && t.ds[0].entries == 1
  {
    var s0 := Launched(c, 1);
    Launch(c, 1);
    var s1 := FlyToGate(c, s0, 0);
    LeadsTo(c, Init(c), s0, s1);
    Safety(c, s1);
    hide Inv, Leads;
    t := Dock(c, s1, 0);
    LeadsTo(c, Init(c), s1, t);
  }

  ghost predicate HasEntry(s: State) {
    exists p :: 0 <= p < |s.ds| && s.ds[p].entries > 0
  }

  /** Some run sees a drone enter the base exactly when at least four drones are configured. */
  lemma DockingPossibleIff(c: Config)
    requires ValidConfig(c)
    ensures (exists s :: Reachable(c, s) && HasEntry(s)) <==> c.n >= 4
  {
    if c.n >= 4 {
      var t := LargeSwarmDocks(c);
      assert HasEntry(t);
    } else if s :| Reachable(c, s) && HasEntry(s) {
      var sched :| Exec(c, Init(c), sched) == s;
      SmallSwarmsNeverDock(c, sched);
    }
  }
}
