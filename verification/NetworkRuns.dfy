/** Rotation is exhaustive, recovery is honest, and a pause ends. */
module NetworkRuns {
  import opened Basics
  import opened Network

  // ---------------------------------------------------------------- once around

  lemma Wrap(x: int, n: int)
    requires 0 <= x < 2 * n
    ensures x % n == if x < n then x else x - n
  {
    if x >= n {
      var q, r := x / n, x % n;
      assert x == n * q + r;
      assert q == 1;
    }
  }

  /** The order is every profile exactly once, and the active one comes last. */
  lemma OnceAround(profiles: seq<Profile>, active: Profile)
    requires NoDup(profiles) && profiles != []
    ensures var order := Order(profiles, active);
            NoDup(order) && (forall p :: p in order <==> p in profiles)
            && (active in profiles ==> order[|order| - 1] == active)
  {
    var n, start, order := |profiles|, Place(profiles, active), Order(profiles, active);
    forall i | 0 <= i < n
      ensures order[i] == profiles[if start + 1 + i < n then start + 1 + i else start + 1 + i - n]
    {
      Wrap(start + 1 + i, n);
    }
    hide Order;
    forall p | p in profiles
      ensures p in order
    {
      var k :| 0 <= k < n && profiles[k] == p;
      var i := if k > start then k - start - 1 else k - start - 1 + n;
      assert order[i] == p;
    }
  }

  // ---------------------------------------------------------------- rotation

  predicate Accepted(e: Env, p: Profile) {
    FateOf(e, p) == Reaches(Ok)
  }

  function Fewer(a: nat, b: nat): nat {
    if a < b then a else b
  }

  /** The i-th profile tried is the first accepted one, and traffic now goes through it. */
  ghost predicate SettledOn(g: Guard, e: Env, order: seq<Profile>, after: (bool, Guard, Env), i: nat)
    requires i < |order|
  {
    && Accepted(e, order[i]) && (forall j :: 0 <= j < i ==> !Accepted(e, order[j]))
    && after.1 == g.(mode := Vpn, lastProbe := Some(Probed(true, order[i], Ok)))
    && after.2.active == order[i] && after.2.tried == e.tried + order[..i + 1]
  }

  /** The outside world only changes in which profile is active, and in what was tried. */
  ghost predicate OnlyTried(before: Env, after: Env) {
    after == before.(active := after.active, stops := after.stops, tried := after.tried)
  }

  /** What trying the profiles in this order comes to. */
  ghost predicate TriedExactly(g: Guard, e: Env, order: seq<Profile>, after: (bool, Guard, Env)) {
    var reach := Fewer(e.stops, |order|);
    OnlyTried(e, after.2)
    && if after.0 then exists i: nat :: i < reach && SettledOn(g, e, order, after, i)
       else (forall i :: 0 <= i < reach ==> !Accepted(e, order[i]))
            && after.1 == g.(lastProbe := after.1.lastProbe) && after.2.tried == e.tried + order[..reach]
  }

  /** Trying each profile succeeds exactly when one of those reached before the stop flag is accepted; it stops at the
      first such profile, and otherwise has tried them all. */
  lemma {:induction false} TryingExactly(g: Guard, e: Env, order: seq<Profile>)
    ensures TriedExactly(g, e, order, TryEach(g, e, order))
    decreases |order|
  {
    if order != [] && e.stops > 0 {
      var p, rest := order[0], order[1..];
      var here := e.(stops := e.stops - 1, tried := e.tried + [p]);
      assert order[..1] == [p];
      if !Accepted(e, p) {
        var next := if FateOf(e, p) == SwitchFails(false) then here else here.(active := p);
        var g1 := if FateOf(e, p).Reaches? then g.(lastProbe := Some(Probed(true, p, FateOf(e, p).verdict))) else g;
        TryingExactly(g1, next, rest);
        TriedLater(g, e, order, g1, next, TryEach(g, e, order));
      } else {
        assert SettledOn(g, e, order, TryEach(g, e, order), 0);
      }
    }
  }

  /** One refused profile in front changes neither the outcome nor where it ends. */
  lemma TriedLater(g: Guard, e: Env, order: seq<Profile>, g1: Guard, next: Env, after: (bool, Guard, Env))
    requires order != [] && e.stops > 0 && !Accepted(e, order[0])
    requires OnlyTried(e, next) && next.stops == e.stops - 1 && next.tried == e.tried + [order[0]]
    requires g1 == g.(lastProbe := g1.lastProbe)
    requires TriedExactly(g1, next, order[1..], after)
    ensures TriedExactly(g, e, order, after)
  {
    var rest, reach := order[1..], Fewer(e.stops, |order|);
    if after.0 {
      hide Accepted, SettledOn;
      var i: nat :| i < reach - 1 && SettledOn(g1, next, rest, after, i);
      SettledLater(g, e, order, g1, next, after, i);
    } else {
      assert [order[0]] + rest[..reach - 1] == order[..reach];
      forall i | 0 <= i < reach
        ensures !Accepted(e, order[i])
      {
        if i > 0 {
          assert order[i] == rest[i - 1];
          assert !Accepted(next, rest[i - 1]);
        }
      }
    }
  }

  lemma SettledLater(g: Guard, e: Env, order: seq<Profile>, g1: Guard, next: Env, after: (bool, Guard, Env), i: nat)
    requires order != [] && !Accepted(e, order[0]) && i < |order| - 1
    requires OnlyTried(e, next) && next.tried == e.tried + [order[0]] && g1 == g.(lastProbe := g1.lastProbe)
    requires SettledOn(g1, next, order[1..], after, i)
    ensures SettledOn(g, e, order, after, i + 1)
  {
    var rest := order[1..];
    assert forall p :: Accepted(next, p) <==> Accepted(e, p);
    hide Accepted;
    assert [order[0]] + rest[..i + 1] == order[..i + 2];
    forall j | 0 <= j < i + 1
      ensures !Accepted(e, order[j])
    {
      assert j > 0 ==> order[j] == rest[j - 1];
    }
  }

  /** With the provider reachable and nobody asking to stop, an unlimited rotation tries every profile at most once, in
      cyclic order beginning after the active one, and succeeds exactly when some profile connects and is accepted. */
  lemma RotationIsExhaustive(g: Guard, e: Env)
    requires e.reachable && NoDup(e.profiles) && e.stops >= |e.profiles|
    ensures var after := Rotate(g, e, None);
            (after.0 <==> exists p :: p in e.profiles && Accepted(e, p))
            && (after.0 ==> exists i: nat :: i < |e.profiles| && SettledOn(g, e, Order(e.profiles, e.active), after, i))
            && (!after.0 ==> e.profiles == [] || after.2.tried == e.tried + Order(e.profiles, e.active))
            && NoDup(Order(e.profiles, e.active)) && |Order(e.profiles, e.active)| == |e.profiles|
  {
    if e.profiles != [] {
      var order := Order(e.profiles, e.active);
      OnceAround(e.profiles, e.active);
      TryingExactly(g, e, order);
      assert order[..|order|] == order;
      var after := Rotate(g, e, None);
      assert after.0 ==> exists i: nat :: i < |order| && Accepted(e, order[i]);
      hide TryEach, SettledOn, Order, Accepted;
      forall p | p in e.profiles && Accepted(e, p)
        ensures after.0
      {
        var i :| 0 <= i < |order| && order[i] == p;
        assert Accepted(e, order[i]);
      }
      if after.0 {
        var i :| 0 <= i < |order| && Accepted(e, order[i]);
        assert order[i] in order;
      }
    }
  }

  // ---------------------------------------------------------------- honesty

  /** Traffic now takes the route that was last probed, through the profile that was active then, and it was
      accepted. */
  ghost predicate Honest(c: Config, g: Guard, e: Env) {
    g.lastProbe.Some? && g.lastProbe.value.verdict == Ok
    && g.lastProbe.value.viaProxy == UsesProxy(c, g)
    && (UsesProxy(c, g) ==> g.lastProbe.value.active == e.active)
  }

  /** Direct traffic with a proxy configured is only ever the allowed fallback. */
  ghost predicate ModeAllowed(c: Config, g: Guard) {
    (g.mode == Direct && c.proxy ==> c.directFallback) && (!c.proxy ==> g.mode == Direct)
  }

  /** A rotation that succeeds leaves traffic on an accepted profile; one that fails changes neither mode nor times. */
  lemma RotationIsHonest(c: Config, g: Guard, e: Env, limit: Option<nat>)
    requires c.proxy
    ensures var after := Rotate(g, e, limit);
            OnlyTried(e, after.2)
            && (after.0 ==> Honest(c, after.1, after.2) && after.1 == g.(mode := Vpn, lastProbe := after.1.lastProbe))
            && (!after.0 ==> after.1 == g.(lastProbe := after.1.lastProbe))
  {
    if e.reachable && e.profiles != [] {
      var order := Order(e.profiles, e.active);
      var few := if limit.Some? && limit.value < |order| then order[..limit.value] else order;
      TryingExactly(g, e, few);
    }
  }

  /** Whenever recovering, returning to the VPN or a paused check reports success, the route traffic takes from then
      on is the one last probed, and the site accepted it; and none of them ever leaves the proxy unless that is
      allowed. */
  lemma RecoveryIsHonest(c: Config, g: Guard, e: Env)
    requires ModeAllowed(c, g)
    ensures var after := Recover(c, g, e);
            ModeAllowed(c, after.1) && (after.0 ==> Honest(c, after.1, after.2)) && (after.0 ==> !e.busy)
    ensures var after := CheckPaused(c, g, e);
            ModeAllowed(c, after.1)
            && (after.0 && Paused(g, e.now) ==> Honest(c, after.1, after.2) && after.1.pausedUntil == 0)
    ensures var after := MaybeReturnToVpn(c, g, e);
            ModeAllowed(c, after.1) && (after.0 ==> UsesProxy(c, after.1) && Honest(c, after.1, after.2))
  {
    hide Rotate;
    if c.proxy {
      RotationIsHonest(c, g.(ipBans := g.ipBans + 1), e, None);
      RotationIsHonest(c, g.(lastProbe := Some(Probed(UsesProxy(c, g), e.active, e.current))), e, Some(1));
      RotationIsHonest(c,
                       g.(nextVpnRetry := e.now + AtLeast(1, c.retry),
                          lastProbe := Some(Probed(true, e.active, e.current))), e, Some(1));
    }
  }

  /** A failed recovery pauses the pool, and takes traffic that had fallen back to the direct route off it again. */
  lemma FailedRecoveryPauses(c: Config, g: Guard, e: Env)
    requires ModeAllowed(c, g) && !e.busy && !Recover(c, g, e).0
    ensures var after := Recover(c, g, e).1;
            after.pausedUntil == e.now + AtLeast(0, c.pause) && (c.proxy ==> UsesProxy(c, after))
  {
    hide Rotate;
    if c.proxy {
      RotationIsHonest(c, g.(ipBans := g.ipBans + 1), e, None);
    }
  }

  // ---------------------------------------------------------------- runs of calls

  datatype Call =
    | Recovering(e: Env)
    | Checking(e: Env)
    | Returning(e: Env)
    | Classifying(e: Env)
    | Switching(e: Env, p: Profile)

  function Called(c: Config, g: Guard, call: Call): Guard {
    match call
    case Recovering(e) => Recover(c, g, e).1
    case Checking(e) => CheckPaused(c, g, e).1
    case Returning(e) => MaybeReturnToVpn(c, g, e).1
    case Classifying(e) => ClassifyFailedSweep(c, g, e).1
    case Switching(e, p) => ManualSwitch(c, g, e, p).0
  }

  function AfterCalls(c: Config, calls: seq<Call>): Guard {
    if calls == [] then Initial(c) else Called(c, AfterCalls(c, calls[..|calls| - 1]), calls[|calls| - 1])
  }

  /** Over every run of calls: with a proxy configured, the mode is direct only if the fallback is allowed. */
  lemma {:induction false} ModeIsAlwaysAllowed(c: Config, calls: seq<Call>)
    ensures ModeAllowed(c, AfterCalls(c, calls))
  {
    if calls != [] {
      var g, last := AfterCalls(c, calls[..|calls| - 1]), calls[|calls| - 1];
      ModeIsAlwaysAllowed(c, calls[..|calls| - 1]);
      RecoveryIsHonest(c, g, last.e);
      hide Recover, CheckPaused, MaybeReturnToVpn;
    }
  }
}
