/** How long a paused pool stays paused. */
module PauseRecovery {
  import opened Basics
  import opened Network
  import opened NetworkRuns

  /** How many steps after the active profile the goal comes up: between one and once around. */
  function Distance(profiles: seq<Profile>, active: Profile, goal: Profile): (d: int)
    requires goal in profiles
    ensures 1 <= d <= |profiles|
  {
    var a, b := Place(profiles, active), Place(profiles, goal);
    if b > a then b - a else b - a + |profiles|
  }

  /** The provider can be reached and its switches take effect; nobody asks to stop; and the goal stays accepted.
      Everything else may change from check to check. */
  ghost predicate Steady(e: Env, profiles: seq<Profile>, goal: Profile) {
    && e.reachable && !e.busy && e.stops >= 1
    && e.profiles == profiles && Accepted(e, goal)
    && forall p :: p in profiles ==> FateOf(e, p) != SwitchFails(false)
  }

  /** Successive checks of a paused pool, up to the first that reopens it; the active profile carries over. */
  function Checks(c: Config, g: Guard, active: Profile, worlds: seq<Env>): (bool, Guard, Profile)
    decreases |worlds|
  {
    if worlds == [] then (false, g, active)
    else
      var (open, g1, e1) := CheckPaused(c, g, worlds[0].(active := active));
      if open then (true, g1, e1.active) else Checks(c, g1, e1.active, worlds[1..])
  }

  /** The checks in which the site, asked through the current route, did not report maintenance. */
  function Answers(worlds: seq<Env>): nat {
    if worlds == [] then 0 else (if worlds[0].current == Maintenance then 0 else 1) + Answers(worlds[1..])
  }

  lemma PlaceIsTheOnly(profiles: seq<Profile>, k: nat)
    requires NoDup(profiles) && k < |profiles|
    ensures Place(profiles, profiles[k]) == k
  {
  }

  /** One step of the provider brings the goal one step closer. */
  lemma OneStepCloser(profiles: seq<Profile>, active: Profile, goal: Profile)
    requires NoDup(profiles) && goal in profiles
    ensures var next := Order(profiles, active)[0];
            next in profiles
            && (Distance(profiles, active, goal) == 1 <==> next == goal)
            && (next != goal ==> Distance(profiles, next, goal) == Distance(profiles, active, goal) - 1)
  {
    var n, start := |profiles|, Place(profiles, active);
    Wrap(start + 1, n);
    var k := if start + 1 < n then start + 1 else 0;
    assert Order(profiles, active)[0] == profiles[k];
    PlaceIsTheOnly(profiles, k);
    PlaceIsTheOnly(profiles, Place(profiles, goal));
  }

  /** What one check does while the pool is paused. */
  lemma OneCheck(c: Config, g: Guard, e: Env, goal: Profile)
    requires c.provider && c.proxy && NoDup(e.profiles) && goal in e.profiles && Steady(e, e.profiles, goal)
             && Paused(g, e.now)
    ensures var after := CheckPaused(c, g, e);
            if after.0 then e.current != Maintenance
            else after.1.pausedUntil == g.pausedUntil
                 && if e.current == Maintenance then after.2 == e
                    else after.2.active == Order(e.profiles, e.active)[0] && after.2.active != goal
  {
    var probed := g.(lastProbe := Some(Probed(UsesProxy(c, g), e.active, e.current)));
    var order := Order(e.profiles, e.active);
    assert |order[..1]| == 1 && order[..1][1..] == [];
    OneStepCloser(e.profiles, e.active, goal);
    OneTry(probed, e, order[..1]);
    assert Rotate(probed, e, Some(1)) == TryEach(probed, e, order[..1]) by {
      assert |order| == 1 ==> order == order[..1];
    }
  }

  lemma OneTry(g: Guard, e: Env, order: seq<Profile>)
    requires |order| == 1 && e.stops >= 1 && FateOf(e, order[0]) != SwitchFails(false)
    ensures var after := TryEach(g, e, order);
            after.2.active == order[0] && (after.0 <==> Accepted(e, order[0]))
            && after.1.pausedUntil == g.pausedUntil
  {
    assert order[1..] == [];
  }

  /** As soon as as many checks have found the site answering as the goal is steps away, the pool is open: at most one
      check for every profile. */
  lemma {:induction false} PauseEnds(c: Config, g: Guard, active: Profile, worlds: seq<Env>, profiles: seq<Profile>,
                                     goal: Profile)
    requires c.provider && c.proxy && NoDup(profiles) && goal in profiles
    requires forall w :: w in worlds ==> Steady(w, profiles, goal)
    requires Answers(worlds) >= Distance(profiles, active, goal)
    ensures Checks(c, g, active, worlds).0
    decreases |worlds|
  {
    assert worlds[0] in worlds;
    var e := worlds[0].(active := active);
    var after := CheckPaused(c, g, e);
    if Paused(g, e.now) {
      OneCheck(c, g, e, goal);
      OneStepCloser(profiles, active, goal);
      hide CheckPaused, Order, Distance, Steady;
      if !after.0 {
        PauseEnds(c, after.1, after.2.active, worlds[1..], profiles, goal);
      }
    }
  }

  lemma {:induction false} NoMaintenanceMeansAnswers(worlds: seq<Env>)
    requires forall w :: w in worlds ==> w.current != Maintenance
    ensures Answers(worlds) == |worlds|
  {
    if worlds != [] {
      assert worlds[0] in worlds;
      NoMaintenanceMeansAnswers(worlds[1..]);
    }
  }

  /** With a profile that stays connectable and accepted, and no maintenance reported, as many checks as there are
      profiles reopen the pool. */
  lemma OnceAroundReopens(c: Config, g: Guard, active: Profile, worlds: seq<Env>, profiles: seq<Profile>, goal: Profile)
    requires c.provider && c.proxy && NoDup(profiles) && goal in profiles
    requires forall w :: w in worlds ==> Steady(w, profiles, goal) && w.current != Maintenance
    requires |worlds| >= |profiles|
    ensures Checks(c, g, active, worlds).0
  {
    NoMaintenanceMeansAnswers(worlds);
    PauseEnds(c, g, active, worlds, profiles, goal);
  }

  /** The bound is exact.  While the pause lasts, with every other route refused, the checks reopen the pool if and
      only if the site has answered as many of them as the goal is steps away: a check that meets a maintenance page
      neither reopens it nor moves on, however long that goes on and although the goal would be accepted. */
  lemma {:induction false} PauseEndsExactly(c: Config, g: Guard, active: Profile, worlds: seq<Env>,
                                            profiles: seq<Profile>, goal: Profile)
    requires c.provider && c.proxy && !c.directFallback && NoDup(profiles) && goal in profiles
    requires forall w :: w in worlds ==> Steady(w, profiles, goal) && w.current != Ok && Paused(g, w.now)
    requires forall w, p :: w in worlds && p in profiles && Accepted(w, p) ==> p == goal
    ensures Checks(c, g, active, worlds).0 <==> Answers(worlds) >= Distance(profiles, active, goal)
    decreases |worlds|
  {
    if worlds != [] {
      var e := worlds[0].(active := active);
      assert worlds[0] in worlds;
      OneCheck(c, g, e, goal);
      OneStepCloser(profiles, active, goal);
      var after := CheckPaused(c, g, e);
      var order := Order(profiles, active);
      assert after.0 ==> order[0] == goal by {
        var probed := g.(lastProbe := Some(Probed(UsesProxy(c, g), e.active, e.current)));
        OneTry(probed, e, order[..1]);
        assert Rotate(probed, e, Some(1)) == TryEach(probed, e, order[..1]) by {
          assert |order| == 1 ==> order == order[..1];
        }
        assert order[0] in profiles && (Accepted(e, order[0]) <==> Accepted(worlds[0], order[0]));
      }
      hide CheckPaused, Order, Distance, Steady, Accepted;
      if !after.0 {
        PauseEndsExactly(c, after.1, after.2.active, worlds[1..], profiles, goal);
      }
    }
  }

  /** Checks that meet nothing but maintenance pages leave the pool paused and the provider where it is, whichever
      profiles would be accepted. */
  lemma {:induction false} MaintenanceKeepsItPaused(c: Config, g: Guard, active: Profile, worlds: seq<Env>)
    requires forall w :: w in worlds ==> w.current == Maintenance && Paused(g, w.now)
    ensures !Checks(c, g, active, worlds).0 && Checks(c, g, active, worlds).2 == active
    decreases |worlds|
  {
    if worlds != [] {
      assert worlds[0] in worlds;
      var g1 := CheckPaused(c, g, worlds[0].(active := active)).1;
      assert g1.pausedUntil == g.pausedUntil;
      MaintenanceKeepsItPaused(c, g1, active, worlds[1..]);
    }
  }
}
