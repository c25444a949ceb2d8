/** What the failure counters and the rests mean, over any number of sweeps. */
module SettlementRuns {
  import opened Basics
  import opened Calendar
  import opened Settlement

  // ---------------------------------------------------------------- counting incidents

  function Times(incidents: seq<Incident>, name: Name): nat {
    if incidents == [] then 0
    else Times(incidents[..|incidents| - 1], name) + if incidents[|incidents| - 1].name == name then 1 else 0
  }

  lemma {:induction false} TimesIsMembership(incidents: seq<Incident>, name: Name)
    ensures Times(incidents, name) > 0 <==> exists i :: i in incidents && i.name == name
  {
    if incidents != [] {
      var front, last := incidents[..|incidents| - 1], incidents[|incidents| - 1];
      TimesIsMembership(front, name);
      assert incidents == front + [last];
      assert forall i :: i in incidents <==> i in front || i == last;
    }
  }

  lemma TimesPlusOne(incidents: seq<Incident>, i: Incident, name: Name)
    ensures Times(incidents + [i], name) == Times(incidents, name) + if i.name == name then 1 else 0
  {
    assert (incidents + [i])[..|incidents|] == incidents;
  }

  /** The sweep's notes are orderly: only failed accounts have incidents, none of them is a lapsed session, and
      the bookkeeping is still what it was before the sweep. */
  ghost predicate Orderly(p: Pool, d: Draft) {
    && (forall i :: i in d.incidents ==> i.name in d.failed && i.failure != Some(Expired))
    && d.pool.failures == p.failures && d.pool.cooldownUntil == p.cooldownUntil
  }

  ghost predicate AtMostOnce(d: Draft) {
    forall name :: Times(d.incidents, name) <= 1
  }

  lemma NotedIsOrderly(p: Pool, d: Draft, name: Name, failure: Failure)
    requires Orderly(p, d)
    ensures Orderly(p, Noted(d, name, failure))
    ensures AtMostOnce(d) && name !in d.failed ==> AtMostOnce(Noted(d, name, failure))
  {
    if !failure.Expired? {
      var i := Incident(name, Some(failure));
      assert forall x :: x in d.incidents + [i] <==> x in d.incidents || x == i;
      forall n
        ensures AtMostOnce(d) && name !in d.failed ==> Times(d.incidents + [i], n) <= 1
      {
        TimesPlusOne(d.incidents, i, n);
        TimesIsMembership(d.incidents, n);
      }
    }
  }

  lemma PrepareIsOrderly(p: Pool, d: Draft, account: Login, last: bool, t: Turn)
    requires Orderly(p, d)
    ensures var e := Prepare(d, account, last, t);
            Orderly(p, e) && (AtMostOnce(d) && account.name !in d.failed ==> AtMostOnce(e))
            && e.failed <= d.failed + {account.name} && e.clients <= d.clients + {account.name}
  {
    if t.failure.Some? {
      var signed := d.(pool := d.pool.(sessions := d.pool.sessions + {account.name}));
      NotedIsOrderly(p, d, account.name, t.failure.value);
      NotedIsOrderly(p, signed, account.name, t.failure.value);
    }
  }

  ghost predicate DistinctNames(accounts: seq<Login>) {
    forall i, j :: 0 <= i < j < |accounts| ==> accounts[i].name != accounts[j].name
  }

  function NamesOf(accounts: seq<Login>): set<Name> {
    set a | a in accounts :: a.name
  }

  lemma {:induction false} PreparationIsOrderly(p: Pool, accounts: seq<Login>, s: Script, n: nat)
    requires n <= |accounts| == |s.turns|
    ensures var d := PrepareTo(p, accounts, s, n);
            Orderly(p, d) && d.failed + d.clients <= NamesOf(accounts[..n])
            && (DistinctNames(accounts) ==> AtMostOnce(d))
  {
    if n > 0 {
      PreparationIsOrderly(p, accounts, s, n - 1);
      var d := PrepareTo(p, accounts, s, n - 1);
      var account := accounts[n - 1];
      OneMoreName(accounts, n - 1);
      PrepareIsOrderly(p, d, account, n == |accounts|, s.turns[n - 1]);
      hide NamesOf, DistinctNames, AtMostOnce, Orderly, Prepare;
    }
  }

  lemma OneMoreName(accounts: seq<Login>, n: nat)
    requires n < |accounts|
    ensures NamesOf(accounts[..n + 1]) == NamesOf(accounts[..n]) + {accounts[n].name}
    ensures DistinctNames(accounts) ==> accounts[n].name !in NamesOf(accounts[..n])
  {
    assert accounts[..n + 1] == accounts[..n] + [accounts[n]];
  }

  lemma {:induction false} ErrorsAreOrderly(p: Pool, d: Draft, s: Script, n: nat)
    requires n <= |s.errors| && Orderly(p, d)
    ensures Orderly(p, ErrorsTo(d, s, n)) && (AtMostOnce(d) ==> AtMostOnce(ErrorsTo(d, s, n)))
    ensures forall name ::
              name in ErrorsTo(d, s, n).failed ==> name in d.failed || exists e :: e in s.errors && e.0 == name
  {
    if n > 0 {
      ErrorsAreOrderly(p, d, s, n - 1);
      var (name, failure) := s.errors[n - 1];
      assert s.errors[n - 1] in s.errors;
      NotedIsOrderly(p, ErrorsTo(d, s, n - 1), name, failure);
      hide Orderly, AtMostOnce;
    }
  }

  lemma {:induction false} StatsAreOrderly(p: Pool, d: Draft, s: Script, n: nat)
    requires n <= |s.stats| && Orderly(p, d)
    ensures Orderly(p, StatsTo(d, s, n)) && (AtMostOnce(d) ==> AtMostOnce(StatsTo(d, s, n)))
    ensures forall name ::
              name in StatsTo(d, s, n).failed ==> name in d.failed || exists e :: e in s.stats && e.0 == name
  {
    if n > 0 {
      StatsAreOrderly(p, d, s, n - 1);
      var before := StatsTo(d, s, n - 1);
      var name := s.stats[n - 1].0;
      assert s.stats[n - 1] in s.stats;
      var i := Incident(name, None);
      assert forall x :: x in before.incidents + [i] <==> x in before.incidents || x == i;
      if name !in before.failed {
        forall m
          ensures AtMostOnce(before) ==> Times(before.incidents + [i], m) <= 1
        {
          TimesPlusOne(before.incidents, i, m);
          TimesIsMembership(before.incidents, m);
        }
      }
    }
  }

  lemma {:induction false} VisitsAreOrderly(p: Pool, d: Draft, s: Script, n: nat)
    requires n <= |d.prepared| <= |s.visits| && Orderly(p, d)
    ensures var e := VisitsTo(d, s, n);
            Orderly(p, e) && (AtMostOnce(d) ==> AtMostOnce(e)) && e.clients == d.clients
    ensures forall name :: name in VisitsTo(d, s, n).failed ==> name in d.failed || name in d.prepared
  {
    if n > 0 {
      VisitsAreOrderly(p, d, s, n - 1);
      var before := VisitsTo(d, s, n - 1);
      if s.visits[n - 1].failure.Some? {
        NotedIsOrderly(p, before, d.prepared[n - 1], s.visits[n - 1].failure.value);
      }
      hide AtMostOnce;
    }
  }

  lemma GatheringIsOrderly(p: Pool, accounts: seq<Login>, s: Script)
    requires |accounts| == |s.turns| <= |s.visits|
    ensures Orderly(p, Gathered(p, accounts, s))
    ensures DistinctNames(accounts) ==> AtMostOnce(Gathered(p, accounts, s))
  {
    hide Orderly, AtMostOnce, DistinctNames;
    PreparationIsOrderly(p, accounts, s, |accounts|);
    var d := PrepareTo(p, accounts, s, |accounts|);
    if !d.over {
      PreparedFew(p, accounts, s, |accounts|);
      ErrorsAreOrderly(p, d, s, |s.errors|);
      var e := ErrorsTo(d, s, |s.errors|);
      StatsAreOrderly(p, e, s, |s.stats|);
      PreparedUntouched(d, s);
      var asked := StatsTo(e, s, |s.stats|);
      VisitsAreOrderly(p, asked, s, |asked.prepared|);
    }
  }

  // ---------------------------------------------------------------- the bill

  lemma {:induction false} SettlingAddsTheBill(p: Pool, policy: Policy, bill: seq<Incident>, now: int, name: Name)
    requires forall i :: i in bill ==> i.failure != Some(Expired)
    ensures Count(SettleTo(p, policy, bill, now), name) == Count(p, name) + Times(bill, name)
  {
    if bill != [] {
      var front, last := bill[..|bill| - 1], bill[|bill| - 1];
      assert last in bill;
      SettlingAddsTheBill(p, policy, front, now, name);
    }
  }

  /** The sweep's outcome for one account: charged some times, cleared, or neither. */
  function Charges(p: Pool, accounts: seq<Login>, s: Script, name: Name): nat
    requires |accounts| == |s.turns| <= |s.visits|
  {
    var d := Gathered(p, accounts, s);
    Times(Bill(d, s), name)
  }

  predicate Cleared(p: Pool, accounts: seq<Login>, s: Script, name: Name)
    requires |accounts| == |s.turns| <= |s.visits|
  {
    name in Clean(Gathered(p, accounts, s))
  }

  /** What a sweep does to every counter; and no account is both charged and cleared. */
  lemma CounterAfterASweep(p: Pool, policy: Policy, accounts: seq<Login>, s: Script, name: Name)
    requires |accounts| == |s.turns| <= |s.visits|
    ensures Count(Swept(p, policy, accounts, s), name)
            == if Cleared(p, accounts, s, name) then 0 else Count(p, name) + Charges(p, accounts, s, name)
    ensures Cleared(p, accounts, s, name) ==> Charges(p, accounts, s, name) == 0
    ensures DistinctNames(accounts) ==> Charges(p, accounts, s, name) <= 1
  {
    var d := Gathered(p, accounts, s);
    GatheringIsOrderly(p, accounts, s);
    hide Gathered, DistinctNames;
    TimesIsMembership(Bill(d, s), name);
    SettlingAddsTheBill(AllSucceeded(d.pool, Clean(d)), policy, Bill(d, s), s.now, name);
  }

  /** Nothing is charged in a sweep put down to the address or to maintenance, nor in one cut short. */
  lemma NotTheAccountsFault(p: Pool, policy: Policy, accounts: seq<Login>, s: Script, name: Name)
    requires |accounts| == |s.turns| <= |s.visits|
    requires var d := Gathered(p, accounts, s); d.over || CauseOf(d, s) != AccountsFault
    ensures Count(Swept(p, policy, accounts, s), name) <= Count(p, name)
  {
    CounterAfterASweep(p, policy, accounts, s, name);
  }

  /** A counter only rises for a failure that is not a lapsed session. */
  lemma ExpiryIsNotCharged(p: Pool, policy: Policy, accounts: seq<Login>, s: Script, name: Name)
    requires |accounts| == |s.turns| <= |s.visits|
    requires Count(Swept(p, policy, accounts, s), name) > Count(p, name)
    ensures exists i :: i in Gathered(p, accounts, s).incidents && i.name == name && i.failure != Some(Expired)
  {
    CounterAfterASweep(p, policy, accounts, s, name);
    GatheringIsOrderly(p, accounts, s);
    TimesIsMembership(Bill(Gathered(p, accounts, s), s), name);
  }

  // ---------------------------------------------------------------- is the egress suspect?

  /** The i-th account was signed in or discovered afresh in this sweep, and it worked. */
  predicate FreshlyPrepared(p: Pool, accounts: seq<Login>, s: Script, i: nat)
    requires i < |accounts| == |s.turns|
  {
    var before, t, account := PrepareTo(p, accounts, s, i), s.turns[i], accounts[i];
    && !before.over && !t.stopped && Available(before.pool, account.name, t.now) && t.failure.None?
    && (account.name !in before.pool.sessions || (!account.canary && t.stale))
  }

  lemma {:induction false} TalkedWhilePreparing(p: Pool, accounts: seq<Login>, s: Script, n: nat)
    requires n <= |accounts| == |s.turns|
    ensures PrepareTo(p, accounts, s, n).talked <==> exists i :: 0 <= i < n && FreshlyPrepared(p, accounts, s, i)
  {
    if n > 0 {
      TalkedWhilePreparing(p, accounts, s, n - 1);
      assert PrepareTo(p, accounts, s, n).talked
             <==> PrepareTo(p, accounts, s, n - 1).talked || FreshlyPrepared(p, accounts, s, n - 1);
      hide FreshlyPrepared;
    }
  }

  /** The egress is above suspicion, and every incident of a finished sweep is charged without a probe being asked,
      exactly when something got through: a fresh sign-in, a calendar request, or any other answer of the site. */
  lemma SomethingGotThroughExactly(p: Pool, accounts: seq<Login>, s: Script)
    requires |accounts| == |s.turns| <= |s.visits|
    ensures var d := Gathered(p, accounts, s);
            var through := (exists i :: 0 <= i < |accounts| && FreshlyPrepared(p, accounts, s, i))
                           || (exists x :: x in s.stats && x.1 > 0) || s.replied;
            !d.over && d.incidents != [] ==>
              ((forall verdict :: Bill(d, s.(verdict := verdict)) == d.incidents) <==> through)
  {
    TalkedWhilePreparing(p, accounts, s, |accounts|);
    TalkedIsKept(p, accounts, s);
    var d := Gathered(p, accounts, s);
    hide Gathered, PrepareTo, FreshlyPrepared;
    if !d.over && d.incidents != [] && !Talked(d, s) {
      assert Bill(d, s.(verdict := Some(IpRefused))) == [];
    }
  }

  lemma TalkedIsKept(p: Pool, accounts: seq<Login>, s: Script)
    requires |accounts| == |s.turns| <= |s.visits|
    ensures Gathered(p, accounts, s).talked == PrepareTo(p, accounts, s, |accounts|).talked
  {
    var d := PrepareTo(p, accounts, s, |accounts|);
    hide PrepareTo;
    if !d.over {
      PreparedFew(p, accounts, s, |accounts|);
      ErrorsUntouched(d, s, |s.errors|);
      StatsUntouched(ErrorsTo(d, s, |s.errors|), s, |s.stats|);
      PreparedUntouched(d, s);
      var asked := StatsTo(ErrorsTo(d, s, |s.errors|), s, |s.stats|);
      VisitsKeepTalked(asked, s, |asked.prepared|);
    }
  }

  lemma {:induction false} VisitsKeepTalked(d: Draft, s: Script, n: nat)
    requires n <= |d.prepared| <= |s.visits|
    ensures VisitsTo(d, s, n).talked == d.talked
  {
    if n > 0 {
      VisitsKeepTalked(d, s, n - 1);
    }
  }

  // ---------------------------------------------------------------- one charge per sweep needs distinct names

  /** All accounts refused at sign-in: nobody has a session, and there is no guard to ask. */
  function AllRefused(accounts: seq<Login>): Script {
    Script(seq(|accounts|, i => Turn(false, 0, true, false, Some(Refused), true, false)), [], [],
           seq(|accounts|, i => Visit(false, None)), false, None, 0)
  }

  const EMPTY := Pool(map[], map[], {})

  lemma {:induction false} EveryoneRefused(accounts: seq<Login>, n: nat)
    requires n <= |accounts|
    ensures PrepareTo(EMPTY, accounts, AllRefused(accounts), n)
            == Draft(EMPTY, {}, [], NamesOf(accounts[..n]),
                     seq(n, i requires 0 <= i < n => Incident(accounts[i].name, Some(Refused))), false, false)
  {
    if n > 0 {
      EveryoneRefused(accounts, n - 1);
      assert accounts[..n] == accounts[..n - 1] + [accounts[n - 1]];
      assert NamesOf(accounts[..n]) == NamesOf(accounts[..n - 1]) + {accounts[n - 1].name};
      assert seq(n, i requires 0 <= i < n => Incident(accounts[i].name, Some(Refused)))
             == seq(n - 1, i requires 0 <= i < n - 1 => Incident(accounts[i].name, Some(Refused)))
             + [Incident(accounts[n - 1].name, Some(Refused))];
    } else {
      assert NamesOf(accounts[..0]) == {};
    }
  }

  lemma {:induction false} TwoIncidents(incidents: seq<Incident>, i: nat, j: nat)
    requires i < j < |incidents| && incidents[i].name == incidents[j].name
    ensures Times(incidents, incidents[i].name) >= 2
  {
    var front := incidents[..|incidents| - 1];
    if j < |incidents| - 1 {
      TwoIncidents(front, i, j);
    } else {
      assert front[i] in front;
      TimesIsMembership(front, incidents[i].name);
    }
  }

  /** A counter rises by at most one in every sweep, whatever happens in it, exactly when no two accounts of the
      configuration share a name. */
  lemma OneChargePerSweepExactly(policy: Policy, accounts: seq<Login>)
    ensures DistinctNames(accounts) <==>
              forall p: Pool, s: Script, name: Name | |accounts| == |s.turns| <= |s.visits| ::
                Count(Swept(p, policy, accounts, s), name) <= Count(p, name) + 1
  {
    if DistinctNames(accounts) {
      forall p: Pool, s: Script, name: Name | |accounts| == |s.turns| <= |s.visits|
        ensures Count(Swept(p, policy, accounts, s), name) <= Count(p, name) + 1
      {
        CounterAfterASweep(p, policy, accounts, s, name);
      }
    } else {
      var i, j :| 0 <= i < j < |accounts| && accounts[i].name == accounts[j].name;
      SharedNameIsChargedTwice(policy, accounts, i, j);
      assert Count(EMPTY, accounts[i].name) == 0;
    }
  }

  lemma SharedNameIsChargedTwice(policy: Policy, accounts: seq<Login>, i: nat, j: nat)
    requires i < j < |accounts| && accounts[i].name == accounts[j].name
    ensures var s := AllRefused(accounts);
            |accounts| == |s.turns| <= |s.visits| && Count(Swept(EMPTY, policy, accounts, s), accounts[i].name) >= 2
  {
    var s := AllRefused(accounts);
    EveryoneRefused(accounts, |accounts|);
    var d := PrepareTo(EMPTY, accounts, s, |accounts|);
    assert ErrorsTo(d, s, 0) == d && StatsTo(d, s, 0) == d && VisitsTo(d, s, 0) == d;
    assert Gathered(EMPTY, accounts, s) == d;
    hide PrepareTo, Gathered;
    CounterAfterASweep(EMPTY, policy, accounts, s, accounts[i].name);
    assert Bill(d, s) == d.incidents;
    TwoIncidents(d.incidents, i, j);
  }

  // ---------------------------------------------------------------- resting

  /** An account has a resting time exactly when its counter has reached the threshold; without a rest configured,
      never. */
  ghost predicate RestsExactly(p: Pool, policy: Policy) {
    forall name :: name in p.cooldownUntil <==> policy.rest > 0 && Count(p, name) >= Threshold(policy)
  }

  lemma {:induction false} SettlingKeepsRests(p: Pool, policy: Policy, bill: seq<Incident>, now: int)
    requires RestsExactly(p, policy)
    ensures RestsExactly(SettleTo(p, policy, bill, now), policy)
  {
    if bill != [] {
      SettlingKeepsRests(p, policy, bill[..|bill| - 1], now);
    }
  }

  lemma SweepKeepsRests(p: Pool, policy: Policy, accounts: seq<Login>, s: Script)
    requires |accounts| == |s.turns| <= |s.visits| && RestsExactly(p, policy)
    ensures RestsExactly(Swept(p, policy, accounts, s), policy)
  {
    var d := Gathered(p, accounts, s);
    GatheringIsOrderly(p, accounts, s);
    hide Gathered, CauseOf;
    forall name
      ensures Count(AllSucceeded(d.pool, Clean(d)), name) == if name in Clean(d) then 0 else Count(p, name)
    {
    }
    SettlingKeepsRests(AllSucceeded(d.pool, Clean(d)), policy, Bill(d, s), s.now);
  }

  /** The requests of a sweep are only made for accounts that were prepared in it. */
  ghost predicate RequestsAreClients(p: Pool, accounts: seq<Login>, s: Script)
    requires |accounts| == |s.turns|
  {
    var clients := PrepareTo(p, accounts, s, |accounts|).clients;
    (forall x :: x in s.errors ==> x.0 in clients) && (forall x :: x in s.stats ==> x.0 in clients)
  }

  lemma {:induction false} RestingIsNotPrepared(p: Pool, accounts: seq<Login>, s: Script, name: Name, n: nat)
    requires n <= |accounts| == |s.turns|
    requires forall i :: 0 <= i < |accounts| && accounts[i].name == name ==> !Available(p, name, s.turns[i].now)
    ensures var d := PrepareTo(p, accounts, s, n); name !in d.failed && name !in d.clients && name !in d.prepared
  {
    if n > 0 {
      RestingIsNotPrepared(p, accounts, s, name, n - 1);
      PreparationIsOrderly(p, accounts, s, n - 1);
      var d := PrepareTo(p, accounts, s, n - 1);
      assert d.pool.cooldownUntil == p.cooldownUntil;
      OthersTurn(p, d, accounts[n - 1], n == |accounts|, s.turns[n - 1], name);
      hide Prepare, Available, Orderly, AtMostOnce, NamesOf;
    }
  }

  /** An account's turn does not touch another one, and not itself while it rests. */
  lemma OthersTurn(p: Pool, d: Draft, account: Login, last: bool, t: Turn, name: Name)
    requires d.pool.cooldownUntil == p.cooldownUntil && (account.name == name ==> !Available(p, name, t.now))
    ensures var e := Prepare(d, account, last, t);
            (name in e.failed <==> name in d.failed) && (name in e.clients <==> name in d.clients)
            && (name in e.prepared <==> name in d.prepared)
  {
  }

  /** An account that is still resting whenever its turn comes is neither charged nor cleared. */
  lemma RestingAccountsAreLeftAlone(p: Pool, policy: Policy, accounts: seq<Login>, s: Script, name: Name)
    requires |accounts| == |s.turns| <= |s.visits| && RequestsAreClients(p, accounts, s)
    requires forall i :: 0 <= i < |accounts| && accounts[i].name == name ==> !Available(p, name, s.turns[i].now)
    ensures !Cleared(p, accounts, s, name) && Charges(p, accounts, s, name) == 0
    ensures Count(Swept(p, policy, accounts, s), name) == Count(p, name)
  {
    RestingIsNotPrepared(p, accounts, s, name, |accounts|);
    CounterAfterASweep(p, policy, accounts, s, name);
    GatheringIsOrderly(p, accounts, s);
    PreparationIsOrderly(p, accounts, s, |accounts|);
    NotGathered(p, accounts, s, name);
    var d := Gathered(p, accounts, s);
    hide Gathered, Swept, PrepareTo, Available;
    TimesIsMembership(Bill(d, s), name);
  }

  lemma NotGathered(p: Pool, accounts: seq<Login>, s: Script, name: Name)
    requires |accounts| == |s.turns| <= |s.visits| && RequestsAreClients(p, accounts, s)
    requires var d := PrepareTo(p, accounts, s, |accounts|);
             Orderly(p, d) && name !in d.failed && name !in d.clients && name !in d.prepared
    ensures name !in Gathered(p, accounts, s).failed && name !in Gathered(p, accounts, s).clients
  {
    hide Orderly, PrepareTo;
    var d := PrepareTo(p, accounts, s, |accounts|);
    if !d.over {
      PreparedFew(p, accounts, s, |accounts|);
      ErrorsAreOrderly(p, d, s, |s.errors|);
      ErrorsUntouched(d, s, |s.errors|);
      var e := ErrorsTo(d, s, |s.errors|);
      StatsAreOrderly(p, e, s, |s.stats|);
      StatsUntouched(e, s, |s.stats|);
      PreparedUntouched(d, s);
      var asked := StatsTo(e, s, |s.stats|);
      VisitsAreOrderly(p, asked, s, |asked.prepared|);
    }
  }

  // ---------------------------------------------------------------- whole runs

  ghost predicate Fits(accounts: seq<Login>, scripts: seq<Script>) {
    forall s :: s in scripts ==> |accounts| == |s.turns| <= |s.visits|
  }

  /** The pool after a run of sweeps from a fresh start. */
  function After(policy: Policy, accounts: seq<Login>, scripts: seq<Script>): Pool
    requires Fits(accounts, scripts)
  {
    if scripts == [] then EMPTY
    else
      var last := scripts[|scripts| - 1];
      assert last in scripts;
      Swept(After(policy, accounts, scripts[..|scripts| - 1]), policy, accounts, last)
  }

  /** In how many sweeps the account was charged, since the last sweep that cleared it. */
  function ChargedSinceCleared(policy: Policy, accounts: seq<Login>, scripts: seq<Script>, name: Name): nat
    requires Fits(accounts, scripts)
  {
    if scripts == [] then 0
    else
      var before, last := scripts[..|scripts| - 1], scripts[|scripts| - 1];
      assert last in scripts;
      var p := After(policy, accounts, before);
      if Cleared(p, accounts, last, name) then 0
      else ChargedSinceCleared(policy, accounts, before, name) + if Charges(p, accounts, last, name) > 0 then 1 else 0
  }

  /** Over every run: the counter is the number of sweeps charged to the account since it was last cleared, and the
      account has a resting time exactly when that number has reached the threshold. */
  lemma {:induction false} CounterCountsChargedSweeps(policy: Policy, accounts: seq<Login>, scripts: seq<Script>,
                                                      name: Name)
    requires Fits(accounts, scripts) && DistinctNames(accounts)
    ensures Count(After(policy, accounts, scripts), name) == ChargedSinceCleared(policy, accounts, scripts, name)
    ensures name in After(policy, accounts, scripts).cooldownUntil
            <==> policy.rest > 0 && ChargedSinceCleared(policy, accounts, scripts, name) >= Threshold(policy)
  {
    RestsAreExact(policy, accounts, scripts);
    hide DistinctNames;
    if scripts != [] {
      var before, last := scripts[..|scripts| - 1], scripts[|scripts| - 1];
      assert last in scripts;
      CounterCountsChargedSweeps(policy, accounts, before, name);
      CounterAfterASweep(After(policy, accounts, before), policy, accounts, last, name);
    }
  }

  /** Resting times are exact even when names are shared. */
  lemma {:induction false} RestsAreExact(policy: Policy, accounts: seq<Login>, scripts: seq<Script>)
    requires Fits(accounts, scripts)
    ensures RestsExactly(After(policy, accounts, scripts), policy)
  {
    if scripts != [] {
      assert scripts[|scripts| - 1] in scripts;
      RestsAreExact(policy, accounts, scripts[..|scripts| - 1]);
      SweepKeepsRests(After(policy, accounts, scripts[..|scripts| - 1]), policy, accounts, scripts[|scripts| - 1]);
    }
  }
}
