/** The egress guard, step by step: every method is tied to the value functions of Network. */
module NetworkGuards {
  import opened Basics
  import opened Network
  import opened NetworkRuns

  class NetworkGuard {
    const config: Config
    var mode: Mode
    var pausedUntil: int
    var nextVpnRetry: int
    var lastProbe: Option<Probed>
    var ipBans: nat

    constructor (config: Config)
      ensures this.config == config && State() == Initial(config) && ModeAllowed(config, State())
    {
      this.config := config;
      mode := if config.proxy then Vpn else Direct;
      pausedUntil, nextVpnRetry, lastProbe, ipBans := 0, 0, None, 0;
    }

    function State(): Guard
      reads this
    {
      Guard(mode, pausedUntil, nextVpnRetry, lastProbe, ipBans)
    }

    method Probe(viaProxy: bool, active: Profile, verdict: Verdict)
      modifies this`lastProbe
      ensures State() == old(State()).(lastProbe := Some(Probed(viaProxy, active, verdict)))
    {
      lastProbe := Some(Probed(viaProxy, active, verdict));
    }

    /** Switch the provider to one profile after another, at most `limit` of them, until the site accepts one. */
    method RotateProvider(e: Env, limit: Option<nat>) returns (ok: bool, after: Env)
      modifies this`mode, this`lastProbe
      ensures (ok, State(), after) == Rotate(old(State()), e, limit)
    {
      after := e;
      if !e.reachable || e.profiles == [] {
        return false, after;
      }
      var order := Order(e.profiles, e.active);
      hide Order;
      if limit.Some? && limit.value < |order| {
        order := order[..limit.value];
      }
      for i := 0 to |order|
        invariant TryEach(State(), after, order[i..]) == TryEach(old(State()), e, order)
      {
        if after.stops == 0 {
          return false, after;
        }
        OneMoreTry(State(), after, order, i);
        hide TryEach;
        after := after.(stops := after.stops - 1, tried := after.tried + [order[i]]);
        var fate := FateOf(after, order[i]);
        if !fate.SwitchFails? || fate.landed {
          after := after.(active := order[i]);
        }
        if fate.Reaches? {
          Probe(true, order[i], fate.verdict);
          if fate.verdict == Ok {
            mode := Vpn;
            return true, after;
          }
        }
      }
      ok := false;
    }

    method FallBackToDirect(e: Env) returns (ok: bool)
      modifies this`mode, this`lastProbe, this`nextVpnRetry
      ensures (ok, State()) == TryDirect(config, old(State()), e)
    {
      if !(config.directFallback && mode == Vpn && config.proxy) {
        return false;
      }
      Probe(false, e.active, e.direct);
      if e.direct != Ok {
        return false;
      }
      mode := Direct;
      nextVpnRetry := e.now + AtLeast(1, config.retry);
      ok := true;
    }

    method FindEgress(e: Env) returns (ok: bool, after: Env)
      requires ModeAllowed(config, State())
      modifies this
      ensures (ok, State(), after) == Recover(config, old(State()), e)
      ensures ModeAllowed(config, State()) && (ok ==> Honest(config, State(), after))
    {
      hide Rotate, TryDirect;
      RecoveryIsHonest(config, State(), e);
      hide Honest;
      after := e;
      if e.busy {
        return false, after;
      }
      ipBans := ipBans + 1;
      if config.provider && config.proxy {
        ok, after := RotateProvider(e, None);
        if ok {
          return;
        }
      }
      if config.directFallback && mode == Vpn {
        ok := FallBackToDirect(after);
        if ok {
          return;
        }
      } else if mode == Direct && config.proxy {
        mode := Vpn;
      }
      pausedUntil := e.now + AtLeast(0, config.pause);
      ok := false;
    }

    method CheckPause(e: Env) returns (open: bool, after: Env)
      requires ModeAllowed(config, State())
      modifies this
      ensures (open, State(), after) == CheckPaused(config, old(State()), e)
      ensures ModeAllowed(config, State()) && (open && Paused(old(State()), e.now) ==> Honest(config, State(), after))
    {
      hide Rotate, TryDirect;
      RecoveryIsHonest(config, State(), e);
      hide Honest;
      after := e;
      if e.now >= pausedUntil {
        return true, after;
      }
      if e.busy {
        return false, after;
      }
      Probe(UsesProxy(config, State()), e.active, e.current);
      if e.current == Maintenance {
        return false, after;
      }
      open := e.current == Ok;
      if !open && config.provider && config.proxy {
        open, after := RotateProvider(e, Some(1));
      }
      if !open {
        open := FallBackToDirect(after);
      }
      if open {
        pausedUntil := 0;
      }
    }

    method ReturnToVpn(e: Env) returns (moved: bool, after: Env)
      requires ModeAllowed(config, State())
      modifies this
      ensures (moved, State(), after) == MaybeReturnToVpn(config, old(State()), e)
      ensures ModeAllowed(config, State()) && (moved ==> Honest(config, State(), after))
    {
      hide Rotate;
      RecoveryIsHonest(config, State(), e);
      hide Honest;
      after := e;
      if mode != Direct || !config.proxy || e.now < nextVpnRetry {
        return false, after;
      }
      nextVpnRetry := e.now + AtLeast(1, config.retry);
      if e.busy {
        return false, after;
      }
      Probe(true, e.active, e.current);
      moved := e.current == Ok;
      if !moved && config.provider {
        moved, after := RotateProvider(e, Some(1));
      }
      if moved {
        mode := Vpn;
      }
    }

    method Classify(e: Env) returns (cause: Cause)
      modifies this`lastProbe
      ensures (cause, State()) == ClassifyFailedSweep(config, old(State()), e)
    {
      if !config.detection {
        return AccountsFault;
      }
      Probe(UsesProxy(config, State()), e.active, e.current);
      match e.current
      case Ok => cause := AccountsFault;
      case Blocked => cause := IpRefused;
      case Maintenance => cause := Down;
    }

    method Switch(e: Env, p: Profile) returns (after: Env)
      modifies this`mode
      ensures (State(), after) == ManualSwitch(config, old(State()), e, p)
    {
      after := e;
      if !config.provider {
        return;
      }
      var fate := FateOf(e, p);
      if !fate.SwitchFails? || fate.landed {
        after := e.(active := p);
      }
      if !fate.SwitchFails? && config.proxy && !e.busy {
        mode := Vpn;
      }
    }
  }

  /** What trying the i-th profile leads to. */
  lemma OneMoreTry(g: Guard, e: Env, order: seq<Profile>, i: nat)
    requires i < |order| && e.stops > 0
    ensures var p := order[i];
            var here := e.(stops := e.stops - 1, tried := e.tried + [p]);
            TryEach(g, e, order[i..])
            == match FateOf(e, p)
               case SwitchFails(landed) => TryEach(g, if landed then here.(active := p) else here, order[i + 1..])
               case NeverConnects => TryEach(g, here.(active := p), order[i + 1..])
               case Reaches(v) =>
                 var probed := g.(lastProbe := Some(Probed(true, p, v)));
                 if v == Ok then (true, probed.(mode := Vpn), here.(active := p))
                 else TryEach(probed, here.(active := p), order[i + 1..])
  {
    assert order[i..][0] == order[i] && order[i..][1..] == order[i + 1..];
  }
}
