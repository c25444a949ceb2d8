/** Which account a failed sweep is charged to, and when an account rests. */
module Settlement {
  import opened Basics
  import opened Calendar

  type Name = AccountId

  /** An account of the configuration.  Names are not checked for uniqueness there; only e-mail addresses are. */
  datatype Login = Login(name: Name, canary: bool)

  datatype Failure = Expired | Transient | Refused

  /** A failure noted during the sweep: an exception, or (None) an account whose every request failed. */
  datatype Incident = Incident(name: Name, failure: Option<Failure>)

  /** `sessions` are the accounts with a live session. */
  datatype Pool = Pool(failures: map<Name, nat>, cooldownUntil: map<Name, int>, sessions: set<Name>)

  datatype Policy = Policy(maxFailures: int, rest: int)

  /** What happens when one account's turn to prepare comes.  `signedIn`: a session could be had, even if what
      followed failed. */
  datatype Turn = Turn(stopped: bool, now: int, stale: bool, signedIn: bool, failure: Option<Failure>, actionable: bool,
                       stoppedAfter: bool)

  /** What happens when one prepared account's turn to book comes. */
  datatype Visit = Visit(stopped: bool, failure: Option<Failure>)

  datatype Cause = AccountsFault | IpRefused | Maintenance

  /** Everything the outside world decides in one sweep: `errors` and `stats` come from the calendar requests (the first
      exception, and how many requests succeeded and failed, per account), `replied` says whether any session got an
      answer at all, `verdict` is the probe's (None without a network guard). */
  datatype Script = Script(turns: seq<Turn>, errors: seq<(Name, Failure)>, stats: seq<(Name, nat, nat)>,
                           visits: seq<Visit>, replied: bool, verdict: Option<Cause>, now: int)

  function Count(p: Pool, name: Name): nat {
    if name in p.failures then p.failures[name] else 0
  }

  // ---------------------------------------------------------------- one account's bookkeeping

  predicate Available(p: Pool, name: Name, now: int) {
    name !in p.cooldownUntil || now >= p.cooldownUntil[name]
  }

  function Threshold(policy: Policy): nat {
    if policy.maxFailures < 1 then 1 else policy.maxFailures
  }

  /** Charge one failure; at the threshold the account rests. */
  function Charged(p: Pool, policy: Policy, name: Name, keepSession: bool, now: int): Pool {
    var count := Count(p, name) + 1;
    Pool(p.failures[name := count],
         if policy.rest <= 0 || count < Threshold(policy) then p.cooldownUntil
            else p.cooldownUntil[name := now + policy.rest],
         if keepSession then p.sessions else p.sessions - {name})
  }

  function Settled(p: Pool, policy: Policy, i: Incident, now: int): Pool {
    if i.failure == Some(Expired) then p.(sessions := p.sessions - {i.name})
    else Charged(p, policy, i.name, i.failure != Some(Refused), now)
  }

  function Succeeded(p: Pool, name: Name): Pool {
    p.(failures := p.failures[name := 0], cooldownUntil := p.cooldownUntil - {name})
  }

  // ---------------------------------------------------------------- the sweep, phase by phase

  /** The sweep under way; `over` once the stop flag has ended it. */
  datatype Draft = Draft(pool: Pool, clients: set<Name>, prepared: seq<Name>, failed: set<Name>,
                         incidents: seq<Incident>, talked: bool, over: bool)

  /** Note a failure; an expired session only costs the session. */
  function Noted(d: Draft, name: Name, failure: Failure): Draft {
    if failure.Expired? then d.(failed := d.failed + {name}, pool := d.pool.(sessions := d.pool.sessions - {name}))
    else d.(failed := d.failed + {name}, incidents := d.incidents + [Incident(name, Some(failure))])
  }

  function Prepare(d: Draft, account: Login, last: bool, t: Turn): Draft {
    if t.stopped then d.(over := true)
    else if !Available(d.pool, account.name, t.now) then d
    else
      var heavy := account.name !in d.pool.sessions || (!account.canary && t.stale);
      var begun :=
        if t.signedIn || t.failure.None? then d.(pool := d.pool.(sessions := d.pool.sessions + {account.name})) else d;
      var next :=
        if t.failure.Some? then Noted(begun, account.name, t.failure.value)
        else
          begun.(clients := d.clients + {account.name}, talked := d.talked || heavy,
                 prepared := if !account.canary && t.actionable then d.prepared + [account.name] else d.prepared);
      if heavy && !last && t.stoppedAfter then next.(over := true) else next
  }

  function PrepareTo(p: Pool, accounts: seq<Login>, s: Script, n: nat): Draft
    requires n <= |accounts| == |s.turns|
  {
    if n == 0 then Draft(p, {}, [], {}, [], false, false)
    else
      var d := PrepareTo(p, accounts, s, n - 1);
      if d.over then d else Prepare(d, accounts[n - 1], n == |accounts|, s.turns[n - 1])
  }

  function ErrorsTo(d: Draft, s: Script, n: nat): Draft
    requires n <= |s.errors|
  {
    if n == 0 then d
    else
      var before := ErrorsTo(d, s, n - 1);
      var (name, failure) := s.errors[n - 1];
      if name in before.failed then before else Noted(before, name, failure)
  }

  function StatsTo(d: Draft, s: Script, n: nat): Draft
    requires n <= |s.stats|
  {
    if n == 0 then d
    else
      var before := StatsTo(d, s, n - 1);
      var (name, ok, bad) := s.stats[n - 1];
      if name in before.failed || ok > 0 || bad == 0 then before
      else before.(failed := before.failed + {name}, incidents := before.incidents + [Incident(name, None)])
  }

  function VisitsTo(d: Draft, s: Script, n: nat): Draft
    requires n <= |d.prepared| <= |s.visits|
  {
    if n == 0 then d
    else
      var before := VisitsTo(d, s, n - 1);
      var name, v := d.prepared[n - 1], s.visits[n - 1];
      if before.over then before
      else if v.stopped then before.(over := true)
      else if name in before.failed || v.failure.None? then before
      else Noted(before, name, v.failure.value)
  }

  /** After the booking phase. */
  function Gathered(p: Pool, accounts: seq<Login>, s: Script): Draft
    requires |accounts| == |s.turns| <= |s.visits|
  {
    var d := PrepareTo(p, accounts, s, |accounts|);
    if d.over then d
    else
      PreparedFew(p, accounts, s, |accounts|);
      var asked := StatsTo(ErrorsTo(d, s, |s.errors|), s, |s.stats|);
      PreparedUntouched(d, s);
      VisitsTo(asked, s, |asked.prepared|)
  }

  /** The accounts that answered, without a failure, in a sweep that was not cut short. */
  function Clean(d: Draft): set<Name> {
    if d.over then {} else d.clients - d.failed
  }

  function AllSucceeded(p: Pool, clean: set<Name>): Pool {
    p.(failures := p.failures + map n | n in clean :: 0, cooldownUntil := p.cooldownUntil - clean)
  }

  predicate Talked(d: Draft, s: Script) {
    d.talked || (exists x :: x in s.stats && x.1 > 0) || s.replied
  }

  /** The accounts' own fault if anything got through, or if no guard can tell. */
  function CauseOf(d: Draft, s: Script): Cause {
    if Talked(d, s) || s.verdict.None? then AccountsFault else s.verdict.value
  }

  /** The incidents charged: all of them or none. */
  function Bill(d: Draft, s: Script): seq<Incident> {
    if d.over || CauseOf(d, s) != AccountsFault then [] else d.incidents
  }

  function SettleTo(p: Pool, policy: Policy, bill: seq<Incident>, now: int): Pool {
    if bill == [] then p
    else Settled(SettleTo(p, policy, bill[..|bill| - 1], now), policy, bill[|bill| - 1], now)
  }

  /** One whole sweep. */
  function Swept(p: Pool, policy: Policy, accounts: seq<Login>, s: Script): Pool
    requires |accounts| == |s.turns| <= |s.visits|
  {
    var d := Gathered(p, accounts, s);
    SettleTo(AllSucceeded(d.pool, Clean(d)), policy, Bill(d, s), s.now)
  }

  lemma {:induction false} PreparedFew(p: Pool, accounts: seq<Login>, s: Script, n: nat)
    requires n <= |accounts| == |s.turns|
    ensures |PrepareTo(p, accounts, s, n).prepared| <= n
  {
    if n > 0 {
      PreparedFew(p, accounts, s, n - 1);
    }
  }

  lemma PreparedUntouched(d: Draft, s: Script)
    ensures StatsTo(ErrorsTo(d, s, |s.errors|), s, |s.stats|).prepared == d.prepared
  {
    ErrorsUntouched(d, s, |s.errors|);
    StatsUntouched(ErrorsTo(d, s, |s.errors|), s, |s.stats|);
  }

  lemma {:induction false} ErrorsUntouched(d: Draft, s: Script, n: nat)
    requires n <= |s.errors|
    ensures var e := ErrorsTo(d, s, n);
            e.prepared == d.prepared && e.clients == d.clients && e.talked == d.talked && e.over == d.over
            && e.pool.failures == d.pool.failures && e.pool.cooldownUntil == d.pool.cooldownUntil
  {
    if n > 0 {
      ErrorsUntouched(d, s, n - 1);
    }
  }

  lemma {:induction false} StatsUntouched(d: Draft, s: Script, n: nat)
    requires n <= |s.stats|
    ensures StatsTo(d, s, n) == d.(failed := StatsTo(d, s, n).failed, incidents := StatsTo(d, s, n).incidents)
  {
    if n > 0 {
      StatsUntouched(d, s, n - 1);
    }
  }
}
