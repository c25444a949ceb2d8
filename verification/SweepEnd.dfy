/** The end of a sweep with the egress guard in it: whether its failures are the accounts' or the address's. */
module SweepEnd {
  import opened Basics
  import opened Settlement
  import opened SettlementRuns
  import Network
  import NetworkRuns

  /** What the guard's verdict means to the settlement. */
  function Meaning(cause: Network.Cause): Cause {
    match cause
    case AccountsFault => AccountsFault
    case IpRefused => IpRefused
    case Down => Maintenance
  }

  /** The egress is suspect: a finished sweep with failures in which nothing got through. */
  predicate Suspect(d: Draft, s: Script) {
    !d.over && d.incidents != [] && !Talked(d, s)
  }

  /** The settlement of one sweep with a guard: it is only asked when the egress is suspect, and moves on when the
      address is to blame. */
  function SweptWithGuard(p: Pool, policy: Policy, accounts: seq<Login>, s: Script, c: Network.Config, g: Network.Guard,
                          e: Network.Env): (Pool, Network.Guard, Network.Env)
    requires |accounts| == |s.turns| <= |s.visits|
  {
    var d := Gathered(p, accounts, s);
    var cleared := AllSucceeded(d.pool, Clean(d));
    if d.over || d.incidents == [] then (cleared, g, e)
    else if Talked(d, s) then (SettleTo(cleared, policy, d.incidents, s.now), g, e)
    else
      var (cause, g1) := Network.ClassifyFailedSweep(c, g, e);
      match cause
      case AccountsFault => (SettleTo(cleared, policy, d.incidents, s.now), g1, e)
      case Down => (cleared, g1, e)
      case IpRefused =>
        var (_, g2, e2) := Network.Recover(c, g1, e);
        (cleared, g2, e2)
  }

  // ---------------------------------------------------------------- it is a sweep as settled before

  lemma {:induction false} PreparingHearsNoVerdict(p: Pool, accounts: seq<Login>, s: Script, v: Option<Cause>, n: nat)
    requires n <= |accounts| == |s.turns|
    ensures PrepareTo(p, accounts, s.(verdict := v), n) == PrepareTo(p, accounts, s, n)
  {
    if n > 0 {
      PreparingHearsNoVerdict(p, accounts, s, v, n - 1);
    }
  }

  lemma {:induction false} ErrorsHearNoVerdict(d: Draft, s: Script, v: Option<Cause>, n: nat)
    requires n <= |s.errors|
    ensures ErrorsTo(d, s.(verdict := v), n) == ErrorsTo(d, s, n)
  {
    if n > 0 {
      ErrorsHearNoVerdict(d, s, v, n - 1);
    }
  }

  lemma {:induction false} StatsHearNoVerdict(d: Draft, s: Script, v: Option<Cause>, n: nat)
    requires n <= |s.stats|
    ensures StatsTo(d, s.(verdict := v), n) == StatsTo(d, s, n)
  {
    if n > 0 {
      StatsHearNoVerdict(d, s, v, n - 1);
    }
  }

  lemma {:induction false} VisitsHearNoVerdict(d: Draft, s: Script, v: Option<Cause>, n: nat)
    requires n <= |d.prepared| <= |s.visits|
    ensures VisitsTo(d, s.(verdict := v), n) == VisitsTo(d, s, n)
  {
    if n > 0 {
      VisitsHearNoVerdict(d, s, v, n - 1);
    }
  }

  lemma VerdictComesLast(p: Pool, accounts: seq<Login>, s: Script, v: Option<Cause>)
    requires |accounts| == |s.turns| <= |s.visits|
    ensures Gathered(p, accounts, s.(verdict := v)) == Gathered(p, accounts, s)
  {
    PreparingHearsNoVerdict(p, accounts, s, v, |accounts|);
    var d := PrepareTo(p, accounts, s, |accounts|);
    hide PrepareTo;
    if !d.over {
      PreparedFew(p, accounts, s, |accounts|);
      PreparedUntouched(d, s);
      ErrorsHearNoVerdict(d, s, v, |s.errors|);
      var told := ErrorsTo(d, s, |s.errors|);
      StatsHearNoVerdict(told, s, v, |s.stats|);
      var asked := StatsTo(told, s, |s.stats|);
      VisitsHearNoVerdict(asked, s, v, |asked.prepared|);
      hide ErrorsTo, StatsTo, VisitsTo;
    }
  }

  /** With the guard's verdict written into the script, the pool is the one settled without a guard: so whatever holds
      of every script holds with a guard. */
  lemma GuardGivesTheVerdict(p: Pool, policy: Policy, accounts: seq<Login>, s: Script, c: Network.Config,
                             g: Network.Guard, e: Network.Env)
    requires |accounts| == |s.turns| <= |s.visits|
    ensures var verdict := Some(Meaning(Network.ClassifyFailedSweep(c, g, e).0));
            SweptWithGuard(p, policy, accounts, s, c, g, e).0 == Swept(p, policy, accounts, s.(verdict := verdict))
  {
    var verdict := Some(Meaning(Network.ClassifyFailedSweep(c, g, e).0));
    VerdictComesLast(p, accounts, s, verdict);
    hide Gathered, AllSucceeded, Network.Recover;
  }

  // ---------------------------------------------------------------- who is to blame

  lemma {:induction false} BillChargesSomeone(bill: seq<Incident>, i: Incident)
    requires i in bill
    ensures Times(bill, i.name) > 0
  {
    TimesIsMembership(bill, i.name);
  }

  /** Somebody is charged exactly when a finished sweep had failures that say something about the accounts: something
      got through, or nobody watches for address bans, or the site accepts the route in use.  Nobody is charged for an
      address. */
  lemma SomeoneIsChargedExactly(p: Pool, policy: Policy, accounts: seq<Login>, s: Script, c: Network.Config,
                                g: Network.Guard, e: Network.Env)
    requires |accounts| == |s.turns| <= |s.visits|
    ensures var d := Gathered(p, accounts, s);
            var after := SweptWithGuard(p, policy, accounts, s, c, g, e).0;
            (exists name :: Count(after, name) > Count(p, name)) <==>
            !d.over && d.incidents != [] && (Talked(d, s) || !c.detection || e.current == Network.Ok)
  {
    var d := Gathered(p, accounts, s);
    var verdict := Some(Meaning(Network.ClassifyFailedSweep(c, g, e).0));
    var told := s.(verdict := verdict);
    var after := SweptWithGuard(p, policy, accounts, s, c, g, e).0;
    GuardGivesTheVerdict(p, policy, accounts, s, c, g, e);
    VerdictComesLast(p, accounts, s, verdict);
    hide Gathered, Swept, SweptWithGuard;
    forall name
      ensures Count(after, name) > Count(p, name) ==> Bill(d, told) != []
    {
      CounterAfterASweep(p, policy, accounts, told, name);
    }
    if Bill(d, told) != [] {
      var i := Bill(d, told)[0];
      BillChargesSomeone(Bill(d, told), i);
      CounterAfterASweep(p, policy, accounts, told, i.name);
      assert Count(after, i.name) > Count(p, i.name);
    }
  }

  /** And the egress is changed, or the pool paused, exactly when nothing got through and the probe of the route in
      use was refused, unless someone is at it already; then nobody is charged. */
  lemma AddressIsBlamedExactly(p: Pool, policy: Policy, accounts: seq<Login>, s: Script, c: Network.Config,
                               g: Network.Guard, e: Network.Env)
    requires |accounts| == |s.turns| <= |s.visits|
    ensures var d := Gathered(p, accounts, s);
            var (after, g1, e1) := SweptWithGuard(p, policy, accounts, s, c, g, e);
            var blamed := Suspect(d, s) && c.detection && e.current == Network.Blocked;
            && (g1.ipBans > g.ipBans <==> blamed && !e.busy)
            && (!blamed ==> e1 == e && g1.mode == g.mode && g1.pausedUntil == g.pausedUntil)
            && (blamed ==> forall name :: Count(after, name) <= Count(p, name))
            && (Suspect(d, s) && c.detection && (!blamed || e.busy) ==>
                  g1.lastProbe == Some(Network.Probed(Network.UsesProxy(c, g), e.active, e.current)))
  {
    var d := Gathered(p, accounts, s);
    SomeoneIsChargedExactly(p, policy, accounts, s, c, g, e);
    hide Gathered, SettleTo, AllSucceeded;
    if Suspect(d, s) && c.detection && e.current == Network.Blocked {
      RecoveryCounts(c, Network.ClassifyFailedSweep(c, g, e).1, e);
    }
    hide Network.Recover;
  }

  lemma RecoveryCounts(c: Network.Config, g: Network.Guard, e: Network.Env)
    ensures var (_, after, e1) := Network.Recover(c, g, e);
            if e.busy then after == g && e1 == e else after.ipBans == g.ipBans + 1
  {
    if !e.busy && c.provider && c.proxy && e.reachable {
      var counted := g.(ipBans := g.ipBans + 1);
      TryingKeepsBans(counted, e, Network.Order(e.profiles, e.active));
    }
  }

  lemma {:induction false} TryingKeepsBans(g: Network.Guard, e: Network.Env, order: seq<Network.Profile>)
    ensures Network.TryEach(g, e, order).1.ipBans == g.ipBans
    decreases |order|
  {
    if order != [] && e.stops > 0 {
      var p := order[0];
      var here := e.(stops := e.stops - 1, tried := e.tried + [p]);
      match Network.FateOf(e, p) {
        case SwitchFails(landed) => TryingKeepsBans(g, if landed then here.(active := p) else here, order[1..]);
        case NeverConnects => TryingKeepsBans(g, here.(active := p), order[1..]);
        case Reaches(v) => TryingKeepsBans(g.(lastProbe := Some(Network.Probed(true, p, v))), here.(active := p),
                                           order[1..]);
      }
    }
  }
}
