/** The egress guard on values: which route traffic takes, how the provider is rotated, when the pool pauses. */
module Network {
  import opened Basics

  type Profile = string

  datatype Mode = Vpn | Direct

  datatype Verdict = Ok | Blocked | Maintenance

  datatype Config = Config(provider: bool, proxy: bool, directFallback: bool, detection: bool, pause: int, retry: int)

  /** The last probe: through the proxy or not, which profile was active then, and what came back. */
  datatype Probed = Probed(viaProxy: bool, active: Profile, verdict: Verdict)

  datatype Guard = Guard(mode: Mode, pausedUntil: int, nextVpnRetry: int, lastProbe: Option<Probed>, ipBans: nat)

  /** What trying a profile leads to: the switch is refused (and lands all the same or not), it never connects,
      or it connects and the site is probed through it. */
  datatype Fate = SwitchFails(landed: bool) | NeverConnects | Reaches(verdict: Verdict)

  /** Everything outside the guard during one of its calls.  No call probes its current route or the direct one more
      than once, and no rotation tries a profile twice, so one verdict for each is enough.  `stops` counts the checks
      that still find the stop flag clear, `tried` logs the profiles switched to. */
  datatype Env = Env(now: int, busy: bool, reachable: bool, active: Profile, profiles: seq<Profile>,
                     fates: map<Profile, Fate>, current: Verdict, direct: Verdict, stops: nat, tried: seq<Profile>)

  function Initial(c: Config): Guard {
    Guard(if c.proxy then Vpn else Direct, 0, 0, None, 0)
  }

  /** Does AIS traffic go through the proxy? */
  predicate UsesProxy(c: Config, g: Guard) {
    g.mode == Vpn && c.proxy
  }

  predicate Paused(g: Guard, now: int) {
    now < g.pausedUntil
  }

  function FateOf(e: Env, p: Profile): Fate {
    if p in e.fates then e.fates[p] else SwitchFails(false)
  }

  // ---------------------------------------------------------------- rotation

  /** The place of the active profile, or -1. */
  function Place(profiles: seq<Profile>, active: Profile): int
    ensures -1 <= Place(profiles, active) < |profiles|
    ensures Place(profiles, active) >= 0 ==> profiles[Place(profiles, active)] == active
    ensures Place(profiles, active) == -1 <==> active !in profiles
  {
    if profiles == [] then -1
    else if profiles[0] == active then 0
    else
      var rest := Place(profiles[1..], active);
      if rest == -1 then -1 else rest + 1
  }

  /** Every profile once around, beginning after the active one. */
  function Order(profiles: seq<Profile>, active: Profile): (order: seq<Profile>)
    ensures |order| == |profiles|
    ensures forall i :: 0 <= i < |order| ==> order[i] == profiles[(Place(profiles, active) + 1 + i) % |profiles|]
  {
    var start := Place(profiles, active);
    seq(|profiles|, i requires 0 <= i < |profiles| => profiles[(start + 1 + i) % |profiles|])
  }

  /** Try one profile after another until one is accepted. */
  function TryEach(g: Guard, e: Env, order: seq<Profile>): (bool, Guard, Env)
    decreases |order|
  {
    if order == [] || e.stops == 0 then (false, g, e)
    else
      var p := order[0];
      var here := e.(stops := e.stops - 1, tried := e.tried + [p]);
      match FateOf(e, p)
      case SwitchFails(landed) => TryEach(g, if landed then here.(active := p) else here, order[1..])
      case NeverConnects => TryEach(g, here.(active := p), order[1..])
      case Reaches(v) =>
        var probed := g.(lastProbe := Some(Probed(true, p, v)));
        if v == Ok then (true, probed.(mode := Vpn), here.(active := p))
        else TryEach(probed, here.(active := p), order[1..])
  }

  /** `limit` None means every profile. */
  function Rotate(g: Guard, e: Env, limit: Option<nat>): (bool, Guard, Env) {
    if !e.reachable || e.profiles == [] then (false, g, e)
    else
      var order := Order(e.profiles, e.active);
      TryEach(g, e, if limit.Some? && limit.value < |order| then order[..limit.value] else order)
  }

  // ---------------------------------------------------------------- the guard's calls

  function AtLeast(lo: int, x: int): int {
    if x < lo then lo else x
  }

  function TryDirect(c: Config, g: Guard, e: Env): (bool, Guard) {
    if !(c.directFallback && g.mode == Vpn && c.proxy) then (false, g)
    else
      var probed := g.(lastProbe := Some(Probed(false, e.active, e.direct)));
      if e.direct == Ok then (true, probed.(mode := Direct, nextVpnRetry := e.now + AtLeast(1, c.retry)))
         else (false, probed)
  }

  function Recover(c: Config, g: Guard, e: Env): (bool, Guard, Env) {
    if e.busy then (false, g, e)
    else
      var counted := g.(ipBans := g.ipBans + 1);
      var (rotated, g1, e1) := if c.provider && c.proxy then Rotate(counted, e, None) else (false, counted, e);
      if rotated then (true, g1, e1)
      else
        var fallback := c.directFallback && g1.mode == Vpn;
        var (direct, g2) := if fallback then TryDirect(c, g1, e1) else (false, g1);
        if direct then (true, g2, e1)
        else
          var g3 := if !fallback && g2.mode == Direct && c.proxy then g2.(mode := Vpn) else g2;
          (false, g3.(pausedUntil := e.now + AtLeast(0, c.pause)), e1)
  }

  function CheckPaused(c: Config, g: Guard, e: Env): (bool, Guard, Env) {
    if !Paused(g, e.now) then (true, g, e)
    else if e.busy then (false, g, e)
    else
      var probed := g.(lastProbe := Some(Probed(UsesProxy(c, g), e.active, e.current)));
      if e.current == Maintenance then (false, probed, e)
      else if e.current == Ok then (true, probed.(pausedUntil := 0), e)
      else
        var (rotated, g1, e1) := if c.provider && c.proxy then Rotate(probed, e, Some(1)) else (false, probed, e);
        if rotated then (true, g1.(pausedUntil := 0), e1)
        else
          var (direct, g2) := TryDirect(c, g1, e1);
          if direct then (true, g2.(pausedUntil := 0), e1) else (false, g2, e1)
  }

  function MaybeReturnToVpn(c: Config, g: Guard, e: Env): (bool, Guard, Env) {
    if g.mode != Direct || !c.proxy || e.now < g.nextVpnRetry then (false, g, e)
    else
      var due := g.(nextVpnRetry := e.now + AtLeast(1, c.retry));
      if e.busy then (false, due, e)
      else
        var probed := due.(lastProbe := Some(Probed(true, e.active, e.current)));
        if e.current == Ok then (true, probed.(mode := Vpn), e)
        else if c.provider then
          var (rotated, g1, e1) := Rotate(probed, e, Some(1));
          if rotated then (true, g1.(mode := Vpn), e1) else (false, g1, e1)
        else (false, probed, e)
  }

  datatype Cause = AccountsFault | IpRefused | Down

  function ClassifyFailedSweep(c: Config, g: Guard, e: Env): (Cause, Guard) {
    if !c.detection then (AccountsFault, g)
    else
      (match e.current case Ok => AccountsFault case Blocked => IpRefused case Maintenance => Down,
       g.(lastProbe := Some(Probed(UsesProxy(c, g), e.active, e.current))))
  }

  /** An operator's choice of a profile is also a choice of the VPN. */
  function ManualSwitch(c: Config, g: Guard, e: Env, p: Profile): (Guard, Env) {
    if !c.provider then (g, e)
    else
      match FateOf(e, p)
      case SwitchFails(landed) => (g, if landed then e.(active := p) else e)
      case _ => (if c.proxy && !e.busy then g.(mode := Vpn) else g, e.(active := p))
  }
}
