/** When recovery, the return to the VPN and a paused check succeed: exactly when some route they may use is accepted.
    */
module NetworkSuccess {
  import opened Basics
  import opened Network
  import opened NetworkRuns

  /** One of the first `limit` profiles after the active one (None: of all) is accepted, and reached before the stop
      flag. */
  ghost predicate SomeAccepted(e: Env, limit: Option<nat>) {
    && e.reachable && e.profiles != []
    && exists i: nat :: && i < |e.profiles| && i < e.stops && (limit.Some? ==> i < limit.value)
                        && Accepted(e, Order(e.profiles, e.active)[i])
  }

  lemma RotatesExactly(g: Guard, e: Env, limit: Option<nat>)
    ensures Rotate(g, e, limit).0 <==> SomeAccepted(e, limit)
    ensures var after := Rotate(g, e, limit).1; after == g.(mode := after.mode, lastProbe := after.lastProbe)
    ensures Rotate(g, e, limit).1.mode == if Rotate(g, e, limit).0 then Vpn else g.mode
    ensures OnlyTried(e, Rotate(g, e, limit).2)
  {
    if e.reachable && e.profiles != [] {
      var order := Order(e.profiles, e.active);
      var few := if limit.Some? && limit.value < |order| then order[..limit.value] else order;
      TryingExactly(g, e, few);
      assert forall i :: 0 <= i < |few| ==> few[i] == order[i];
      var after := TryEach(g, e, few);
      assert Rotate(g, e, limit) == after;
      hide Order, TryEach, Rotate, Accepted;
      if SomeAccepted(e, limit) {
        var i: nat :| i < |e.profiles| && i < e.stops && (limit.Some? ==> i < limit.value) && Accepted(e, order[i]);
        assert Accepted(e, few[i]);
      }
    }
  }

  /** The direct route may be used, and the site accepts it. */
  predicate DirectAccepted(c: Config, g: Guard, e: Env) {
    c.directFallback && c.proxy && g.mode == Vpn && e.direct == Ok
  }

  /** Recovery succeeds if and only if nobody is at it already and some profile is accepted, or else the direct route
      where it is allowed. */
  lemma RecoversExactly(c: Config, g: Guard, e: Env)
    requires ModeAllowed(c, g)
    ensures Recover(c, g, e).0 <==>
            !e.busy && ((c.provider && c.proxy && SomeAccepted(e, None)) || DirectAccepted(c, g, e))
  {
    var counted := g.(ipBans := g.ipBans + 1);
    RotatesExactly(counted, e, None);
    hide Rotate, SomeAccepted;
    var (rotated, g1, e1) := if c.provider && c.proxy then Rotate(counted, e, None) else (false, counted, e);
    assert !rotated ==> g1.mode == g.mode && e1.direct == e.direct;
    assert rotated && !e.busy ==> Recover(c, g, e).0;
  }

  /** A paused pool's check succeeds if and only if the site accepts the route in use, or, there being no maintenance,
      the next profile or the allowed direct route. */
  lemma ChecksExactly(c: Config, g: Guard, e: Env)
    requires Paused(g, e.now)
    ensures CheckPaused(c, g, e).0 <==>
            && !e.busy && e.current != Maintenance
            && (e.current == Ok || (c.provider && c.proxy && SomeAccepted(e, Some(1))) || DirectAccepted(c, g, e))
  {
    RotatesExactly(g.(lastProbe := Some(Probed(UsesProxy(c, g), e.active, e.current))), e, Some(1));
    hide Rotate, SomeAccepted;
  }

  /** The way back to the VPN is tried when traffic is direct, there is a proxy and the time has come, and succeeds if
      and only if the profile in use is accepted, or the next one. */
  lemma ReturnsExactly(c: Config, g: Guard, e: Env)
    ensures var due := g.mode == Direct && c.proxy && e.now >= g.nextVpnRetry;
            var (moved, after, _) := MaybeReturnToVpn(c, g, e);
            && (moved <==> due && !e.busy && (e.current == Ok || (c.provider && SomeAccepted(e, Some(1)))))
            && (moved ==> after.mode == Vpn)
            && (due ==> after.nextVpnRetry == e.now + AtLeast(1, c.retry)) && (!due ==> after == g)
  {
    RotatesExactly(g.(nextVpnRetry := e.now + AtLeast(1, c.retry),
                      lastProbe := Some(Probed(true, e.active, e.current))), e,
                   Some(1));
    hide Rotate, SomeAccepted;
  }

  /** Traffic goes through the proxy if there is one, unless it has fallen back to the direct route. */
  lemma RouteExactly(c: Config, g: Guard)
    ensures UsesProxy(c, g) <==> c.proxy && g.mode != Direct
  {
  }

  function NotNegative(x: int): int {
    if x > 0 then x else 0
  }

  /** A failed recovery pauses the pool for the configured time, if that is not negative, and not a moment longer; a
      return or a fallback is followed by the next attempt after the configured time, at least one. */
  lemma PausesExactly(c: Config, g: Guard, e: Env, t: int)
    requires ModeAllowed(c, g)
    ensures var (recovered, after, _) := Recover(c, g, e);
            && (!recovered && !e.busy ==> (Paused(after, t) <==> t < e.now + NotNegative(c.pause)))
            && (after.mode == Direct && c.proxy && g.mode == Vpn ==>
                  after.nextVpnRetry == e.now + if c.retry < 1 then 1 else c.retry)
    ensures var (_, after, _) := MaybeReturnToVpn(c, g, e);
            g.mode == Direct && c.proxy && e.now >= g.nextVpnRetry ==>
              after.nextVpnRetry == e.now + if c.retry < 1 then 1 else c.retry
  {
    RecoveryTimes(c, g, e);
    ReturnsExactly(c, g, e);
    hide Recover, MaybeReturnToVpn, SomeAccepted;
  }

  /** Until when recovery pauses the pool, and when the VPN is tried again. */
  lemma RecoveryTimes(c: Config, g: Guard, e: Env)
    requires ModeAllowed(c, g)
    ensures var (recovered, after, _) := Recover(c, g, e);
            && (recovered || e.busy ==> after.pausedUntil == g.pausedUntil)
            && (!recovered && !e.busy ==> after.pausedUntil == e.now + AtLeast(0, c.pause))
            && (after.mode == Direct && c.proxy && g.mode == Vpn ==> after.nextVpnRetry == e.now + AtLeast(1, c.retry))
            && after.ipBans == g.ipBans + if e.busy then 0 else 1
  {
    RotatesExactly(g.(ipBans := g.ipBans + 1), e, None);
    hide Rotate, SomeAccepted, OnlyTried;
  }

  /** A check reopens the pool or leaves it paused as it was. */
  lemma CheckTimes(c: Config, g: Guard, e: Env)
    requires ModeAllowed(c, g)
    ensures var (reopened, after, _) := CheckPaused(c, g, e);
            && after.pausedUntil == (if reopened && Paused(g, e.now) then 0 else g.pausedUntil)
            && (after.mode == Direct && c.proxy && g.mode == Vpn ==> after.nextVpnRetry == e.now + AtLeast(1, c.retry))
            && after.ipBans == g.ipBans
  {
    RotatesExactly(g.(lastProbe := Some(Probed(UsesProxy(c, g), e.active, e.current))), e, Some(1));
    hide Rotate, SomeAccepted, OnlyTried;
  }

  /** An operator's switch lands on the profile unless the provider refuses it, and sometimes even then; when it is
      accepted and nobody is recovering, traffic with a proxy goes through it from then on; nothing else of the guard
      changes, and without a provider nothing at all. */
  lemma SwitchesExactly(c: Config, g: Guard, e: Env, p: Profile)
    ensures var (after, e1) := ManualSwitch(c, g, e, p);
            var refused := FateOf(e, p).SwitchFails?;
            && e1.active == (if c.provider && FateOf(e, p) != SwitchFails(false) then p else e.active)
            && e1 == e.(active := e1.active) && after == g.(mode := after.mode)
            && (c.provider && !refused && !e.busy && c.proxy ==> UsesProxy(c, after))
            && (!c.provider || refused || e.busy || !c.proxy ==> after.mode == g.mode)
  {
  }
}
