/** Who has an incident in a sweep, who is charged and who is cleared, read off what happened in it. */
module SettlementScripts {
  import opened Basics
  import opened Calendar
  import opened Settlement
  import opened SettlementRuns

  // ---------------------------------------------------------------- the turns

  /** The i-th account's turn came while it was not resting. */
  predicate Tried(p: Pool, accounts: seq<Login>, s: Script, i: nat)
    requires i < |accounts| == |s.turns|
  {
    Available(p, accounts[i].name, s.turns[i].now)
  }

  predicate WentWell(p: Pool, accounts: seq<Login>, s: Script, i: nat)
    requires i < |accounts| == |s.turns|
  {
    Tried(p, accounts, s, i) && s.turns[i].failure.None?
  }

  predicate WentWrong(p: Pool, accounts: seq<Login>, s: Script, i: nat)
    requires i < |accounts| == |s.turns|
  {
    Tried(p, accounts, s, i) && s.turns[i].failure.Some?
  }

  /** The accounts to book for: no canaries, and only those with something actionable. */
  function ToBook(p: Pool, accounts: seq<Login>, s: Script, n: nat): seq<Name>
    requires n <= |accounts| == |s.turns|
  {
    if n == 0 then []
    else
      ToBook(p, accounts, s, n - 1)
      + if WentWell(p, accounts, s, n - 1) && !accounts[n - 1].canary && s.turns[n - 1].actionable then
          [accounts[n - 1].name]
        else []
  }

  /** After the first `n` turns, with nobody having asked to stop. */
  ghost predicate TurnsAre(p: Pool, accounts: seq<Login>, s: Script, n: nat, d: Draft)
    requires n <= |accounts| == |s.turns|
  {
    && (forall name :: name in d.clients <==>
                       exists i :: 0 <= i < n && accounts[i].name == name && WentWell(p, accounts, s, i))
    && (forall name :: name in d.failed <==>
                       exists i :: 0 <= i < n && accounts[i].name == name && WentWrong(p, accounts, s, i))
    && (forall x :: x in d.incidents <==>
                    exists i :: 0 <= i < n && WentWrong(p, accounts, s, i)
                                && x == Incident(accounts[i].name, s.turns[i].failure) && x.failure != Some(Expired))
    && d.prepared == ToBook(p, accounts, s, n)
    && d.pool.cooldownUntil == p.cooldownUntil
  }

  /** What one turn adds. */
  lemma TurnAdds(p: Pool, accounts: seq<Login>, s: Script, n: nat, d: Draft)
    requires n < |accounts| == |s.turns| && d.pool.cooldownUntil == p.cooldownUntil && !s.turns[n].stopped
    ensures var e, name := Prepare(d, accounts[n], n + 1 == |accounts|, s.turns[n]), accounts[n].name;
            && e.clients == d.clients + (if WentWell(p, accounts, s, n) then {name} else {})
            && e.failed == d.failed + (if WentWrong(p, accounts, s, n) then {name} else {})
            && e.incidents == d.incidents
               + (if WentWrong(p, accounts, s, n) && s.turns[n].failure != Some(Expired) then
                    [Incident(name, s.turns[n].failure)]
                  else [])
            && e.prepared == d.prepared
               + (if WentWell(p, accounts, s, n) && !accounts[n].canary && s.turns[n].actionable then [name] else [])
            && e.pool.cooldownUntil == d.pool.cooldownUntil
  {
  }

  lemma OneTurn(p: Pool, accounts: seq<Login>, s: Script, n: nat, d: Draft)
    requires n < |accounts| == |s.turns| && TurnsAre(p, accounts, s, n, d) && !s.turns[n].stopped
    ensures TurnsAre(p, accounts, s, n + 1, Prepare(d, accounts[n], n + 1 == |accounts|, s.turns[n]))
  {
    TurnAdds(p, accounts, s, n, d);
    hide Prepare, WentWell, WentWrong;
    var e := Prepare(d, accounts[n], n + 1 == |accounts|, s.turns[n]);
    assert e.prepared == ToBook(p, accounts, s, n + 1);
    hide ToBook;
  }

  lemma {:induction false} TurnsExactly(p: Pool, accounts: seq<Login>, s: Script, n: nat)
    requires n <= |accounts| == |s.turns| && !PrepareTo(p, accounts, s, n).over
    ensures TurnsAre(p, accounts, s, n, PrepareTo(p, accounts, s, n))
  {
    if n > 0 {
      var d := PrepareTo(p, accounts, s, n - 1);
      assert !d.over && !s.turns[n - 1].stopped;
      TurnsExactly(p, accounts, s, n - 1);
      hide TurnsAre, Prepare;
      OneTurn(p, accounts, s, n - 1, d);
    }
  }

  // ---------------------------------------------------------------- the requests

  /** The first exception of an account that had not failed before. */
  predicate FirstError(d: Draft, s: Script, j: nat)
    requires j < |s.errors|
  {
    s.errors[j].0 !in d.failed && forall i :: 0 <= i < j ==> s.errors[i].0 != s.errors[j].0
  }

  lemma {:induction false} ErrorsExactly(d: Draft, s: Script, n: nat)
    requires n <= |s.errors|
    ensures var e := ErrorsTo(d, s, n);
            && (forall name ::
                  name in e.failed <==> name in d.failed || exists j :: 0 <= j < n && s.errors[j].0 == name)
            && (forall x :: x in e.incidents <==>
                            || x in d.incidents
                            || exists j :: 0 <= j < n && FirstError(d, s, j) && !s.errors[j].1.Expired?
                                           && x == Incident(s.errors[j].0, Some(s.errors[j].1)))
  {
    if n > 0 {
      ErrorsExactly(d, s, n - 1);
      var before, e := ErrorsTo(d, s, n - 1), ErrorsTo(d, s, n);
      var (name, failure) := s.errors[n - 1];
      assert name !in before.failed <==> FirstError(d, s, n - 1);
      forall x
        ensures x in e.incidents <==>
                || x in before.incidents
                || (FirstError(d, s, n - 1) && !failure.Expired? && x == Incident(name, Some(failure)))
      {
      }
      assert forall m :: m in e.failed <==> m in before.failed || m == name;
      hide ErrorsTo, Noted, FirstError;
    }
  }

  /** All of its requests failed, and there were some. */
  predicate AllFailed(x: (Name, nat, nat)) {
    x.1 == 0 && x.2 > 0
  }

  lemma {:induction false} StatsExactly(d: Draft, s: Script, n: nat)
    requires n <= |s.stats|
    ensures var e := StatsTo(d, s, n);
            && (forall name :: name in e.failed <==>
                               || name in d.failed
                               || exists j :: 0 <= j < n && s.stats[j].0 == name && AllFailed(s.stats[j]))
            && (forall x :: x in e.incidents <==>
                            || x in d.incidents
                            || exists j :: 0 <= j < n && AllFailed(s.stats[j]) && s.stats[j].0 !in d.failed
                                           && x == Incident(s.stats[j].0, None))
  {
    if n > 0 {
      StatsExactly(d, s, n - 1);
      var before, e, last := StatsTo(d, s, n - 1), StatsTo(d, s, n), s.stats[n - 1];
      assert forall name :: name in e.failed <==> name in before.failed || (name == last.0 && AllFailed(last));
      forall x
        ensures x in e.incidents <==>
                || x in before.incidents
                || (AllFailed(last) && last.0 !in before.failed && x == Incident(last.0, None))
      {
      }
      hide StatsTo, AllFailed;
    }
  }

  // ---------------------------------------------------------------- the visits

  predicate FirstVisitFailure(d: Draft, s: Script, j: nat)
    requires j < |d.prepared| <= |s.visits|
  {
    && s.visits[j].failure.Some? && d.prepared[j] !in d.failed
    && forall i :: 0 <= i < j && d.prepared[i] == d.prepared[j] ==> s.visits[i].failure.None?
  }

  lemma {:induction false} VisitsExactly(d: Draft, s: Script, n: nat)
    requires n <= |d.prepared| <= |s.visits| && !VisitsTo(d, s, n).over
    ensures var e := VisitsTo(d, s, n);
            && e.clients == d.clients
            && (forall name :: name in e.failed <==>
                               || name in d.failed
                               || exists j :: 0 <= j < n && d.prepared[j] == name && s.visits[j].failure.Some?)
            && (forall x :: x in e.incidents <==>
                            || x in d.incidents
                            || exists j :: 0 <= j < n && FirstVisitFailure(d, s, j)
                                           && x == Incident(d.prepared[j], s.visits[j].failure)
                                           && x.failure != Some(Expired))
  {
    if n > 0 {
      var before, e, name, v := VisitsTo(d, s, n - 1), VisitsTo(d, s, n), d.prepared[n - 1], s.visits[n - 1];
      assert !before.over;
      VisitsExactly(d, s, n - 1);
      assert v.failure.Some? && name !in before.failed <==> FirstVisitFailure(d, s, n - 1);
      assert forall m :: m in e.failed <==> m in before.failed || (m == name && v.failure.Some?);
      forall x
        ensures x in e.incidents <==>
                || x in before.incidents
                || (FirstVisitFailure(d, s, n - 1) && x == Incident(name, v.failure) && x.failure != Some(Expired))
      {
      }
      assert e.clients == before.clients;
      hide VisitsTo, Noted, FirstVisitFailure;
    }
  }

  // ---------------------------------------------------------------- the whole sweep

  ghost predicate FailedTurn(p: Pool, accounts: seq<Login>, s: Script, name: Name)
    requires |accounts| == |s.turns|
  {
    exists i :: 0 <= i < |accounts| && accounts[i].name == name && WentWrong(p, accounts, s, i)
  }

  ghost predicate HadError(s: Script, name: Name) {
    exists j :: 0 <= j < |s.errors| && s.errors[j].0 == name
  }

  ghost predicate HadNoSuccess(s: Script, name: Name) {
    exists j :: 0 <= j < |s.stats| && s.stats[j].0 == name && AllFailed(s.stats[j])
  }

  ghost predicate FailedVisit(p: Pool, accounts: seq<Login>, s: Script, name: Name)
    requires |accounts| == |s.turns| <= |s.visits|
  {
    var toBook := ToBook(p, accounts, s, |accounts|);
    exists j :: 0 <= j < |toBook| && j < |s.visits| && toBook[j] == name && s.visits[j].failure.Some?
  }

  /** The failure its turn ended with. */
  ghost predicate ByTurn(p: Pool, accounts: seq<Login>, s: Script, name: Name, f: Failure)
    requires |accounts| == |s.turns|
  {
    exists i :: 0 <= i < |accounts| && accounts[i].name == name && WentWrong(p, accounts, s, i)
                && s.turns[i].failure == Some(f)
  }

  /** Its first exception among the requests, its turn having gone well. */
  ghost predicate ByError(p: Pool, accounts: seq<Login>, s: Script, name: Name, f: Failure)
    requires |accounts| == |s.turns|
  {
    && !FailedTurn(p, accounts, s, name)
    && exists j :: 0 <= j < |s.errors| && s.errors[j] == (name, f) && forall i :: 0 <= i < j ==> s.errors[i].0 != name
  }

  /** Not one of its requests succeeded, and nothing had gone wrong before. */
  ghost predicate ByRequests(p: Pool, accounts: seq<Login>, s: Script, name: Name)
    requires |accounts| == |s.turns|
  {
    !FailedTurn(p, accounts, s, name) && !HadError(s, name) && HadNoSuccess(s, name)
  }

  /** Its first failed visit, nothing else having gone wrong. */
  ghost predicate ByVisit(p: Pool, accounts: seq<Login>, s: Script, name: Name, f: Failure)
    requires |accounts| == |s.turns| <= |s.visits|
  {
    var toBook := ToBook(p, accounts, s, |accounts|);
    && !FailedTurn(p, accounts, s, name) && !HadError(s, name) && !HadNoSuccess(s, name)
    && exists j :: 0 <= j < |toBook| && j < |s.visits| && toBook[j] == name && s.visits[j].failure == Some(f)
                   && forall i :: 0 <= i < j && toBook[i] == name ==> s.visits[i].failure.None?
  }

  /** What happened to the account. */
  ghost predicate Suffered(p: Pool, accounts: seq<Login>, s: Script, name: Name, failure: Option<Failure>)
    requires |accounts| == |s.turns| <= |s.visits|
  {
    if failure.None? then ByRequests(p, accounts, s, name)
    else
      || ByTurn(p, accounts, s, name, failure.value) || ByError(p, accounts, s, name, failure.value)
      || ByVisit(p, accounts, s, name, failure.value)
  }

  /** Up to the visits: who failed, and with what. */
  lemma UpToTheVisits(p: Pool, accounts: seq<Login>, s: Script, name: Name, failure: Option<Failure>)
    requires |accounts| == |s.turns| && !PrepareTo(p, accounts, s, |accounts|).over
    ensures var d := PrepareTo(p, accounts, s, |accounts|);
            var e := StatsTo(ErrorsTo(d, s, |s.errors|), s, |s.stats|);
            && (name in e.failed <==>
                  FailedTurn(p, accounts, s, name) || HadError(s, name) || HadNoSuccess(s, name))
            && (Incident(name, failure) in e.incidents <==>
                  && failure != Some(Expired)
                  && if failure.None? then ByRequests(p, accounts, s, name)
                     else ByTurn(p, accounts, s, name, failure.value) || ByError(p, accounts, s, name, failure.value))
  {
    var d := PrepareTo(p, accounts, s, |accounts|);
    TurnsExactly(p, accounts, s, |accounts|);
    ErrorsExactly(d, s, |s.errors|);
    StatsExactly(ErrorsTo(d, s, |s.errors|), s, |s.stats|);
    hide PrepareTo, ErrorsTo, StatsTo, WentWrong, WentWell, ToBook, AllFailed;
    var told := ErrorsTo(d, s, |s.errors|);
    assert name in d.failed <==> FailedTurn(p, accounts, s, name);
    assert name in told.failed <==> FailedTurn(p, accounts, s, name) || HadError(s, name);
    ErrorIncidents(p, accounts, s, d, name, failure);
    hide ByTurn, ByError, HadError, FailedTurn, FirstError;
  }

  lemma ErrorIncidents(p: Pool, accounts: seq<Login>, s: Script, d: Draft, name: Name, failure: Option<Failure>)
    requires |accounts| == |s.turns| && TurnsAre(p, accounts, s, |accounts|, d)
    ensures Incident(name, failure) in ErrorsTo(d, s, |s.errors|).incidents <==>
            && failure.Some? && failure != Some(Expired)
            && (ByTurn(p, accounts, s, name, failure.value) || ByError(p, accounts, s, name, failure.value))
  {
    ErrorsExactly(d, s, |s.errors|);
    hide ErrorsTo, WentWrong, WentWell, ToBook;
    assert name in d.failed <==> FailedTurn(p, accounts, s, name);
    var x := Incident(name, failure);
    assert x in d.incidents <==>
           failure.Some? && failure != Some(Expired) && ByTurn(p, accounts, s, name, failure.value) by {
      TurnsFail(p, accounts, s, d, name, failure);
    }
    hide TurnsAre, ByTurn, FailedTurn;
    if failure.Some? && ByError(p, accounts, s, name, failure.value) {
      var j :| 0 <= j < |s.errors| && s.errors[j] == (name, failure.value)
               && forall i :: 0 <= i < j ==> s.errors[i].0 != name;
      assert FirstError(d, s, j);
    }
  }

  lemma TurnsFail(p: Pool, accounts: seq<Login>, s: Script, d: Draft, name: Name, failure: Option<Failure>)
    requires |accounts| == |s.turns| && TurnsAre(p, accounts, s, |accounts|, d)
    ensures Incident(name, failure) in d.incidents <==>
            failure.Some? && failure != Some(Expired) && ByTurn(p, accounts, s, name, failure.value)
  {
  }

  /** In a sweep nobody cut short: the incidents are what happened, lapsed sessions apart; and those clean are the
      accounts whose turn went well and to whom nothing happened later. */
  lemma IncidentsExactly(p: Pool, accounts: seq<Login>, s: Script, name: Name, failure: Option<Failure>)
    requires |accounts| == |s.turns| <= |s.visits| && !Gathered(p, accounts, s).over
    ensures Incident(name, failure) in Gathered(p, accounts, s).incidents <==>
            failure != Some(Expired) && Suffered(p, accounts, s, name, failure)
    ensures name in Clean(Gathered(p, accounts, s)) <==>
            && (exists i :: 0 <= i < |accounts| && accounts[i].name == name && WentWell(p, accounts, s, i))
            && !FailedTurn(p, accounts, s, name) && !HadError(s, name) && !HadNoSuccess(s, name)
            && !FailedVisit(p, accounts, s, name)
  {
    var d := PrepareTo(p, accounts, s, |accounts|);
    assert !d.over;
    TurnsExactly(p, accounts, s, |accounts|);
    PreparedFew(p, accounts, s, |accounts|);
    PreparedUntouched(d, s);
    ErrorsUntouched(d, s, |s.errors|);
    StatsUntouched(ErrorsTo(d, s, |s.errors|), s, |s.stats|);
    var asked := StatsTo(ErrorsTo(d, s, |s.errors|), s, |s.stats|);
    assert Gathered(p, accounts, s) == VisitsTo(asked, s, |asked.prepared|);
    UpToTheVisits(p, accounts, s, name, failure);
    hide Gathered, PrepareTo, ErrorsTo, StatsTo, VisitsTo, WentWrong, WentWell, HadError, HadNoSuccess, FailedTurn,
         ByTurn,
         ByError;
    assert asked.prepared == ToBook(p, accounts, s, |accounts|) && asked.clients == d.clients;
    VisitsExactly(asked, s, |asked.prepared|);
    VisitIncidents(p, accounts, s, asked, name, failure);
  }

  lemma VisitIncidents(p: Pool, accounts: seq<Login>, s: Script, asked: Draft, name: Name, failure: Option<Failure>)
    requires |accounts| == |s.turns| <= |s.visits| && asked.prepared == ToBook(p, accounts, s, |accounts|)
    requires |asked.prepared| <= |s.visits|
    requires name in asked.failed <==> FailedTurn(p, accounts, s, name) || HadError(s, name) || HadNoSuccess(s, name)
    ensures (exists j :: 0 <= j < |asked.prepared| && FirstVisitFailure(asked, s, j)
                         && Incident(name, failure) == Incident(asked.prepared[j], s.visits[j].failure)) <==>
            failure.Some? && ByVisit(p, accounts, s, name, failure.value)
  {
    hide ToBook, FailedTurn, HadError, HadNoSuccess;
    if failure.Some? && ByVisit(p, accounts, s, name, failure.value) {
      var j :| 0 <= j < |asked.prepared| && asked.prepared[j] == name && s.visits[j].failure == failure
               && forall i :: 0 <= i < j && asked.prepared[i] == name ==> s.visits[i].failure.None?;
      assert FirstVisitFailure(asked, s, j);
    }
  }

  // ---------------------------------------------------------------- who is charged, and who is cleared

  /** In a sweep nobody cut short a counter rises if and only if something other than a lapsed session happened to the
      account and the accounts are to blame; and it is zero afterwards if the account's turn went well and nothing
      happened to it. */
  lemma ChargedExactly(p: Pool, policy: Policy, accounts: seq<Login>, s: Script, name: Name)
    requires |accounts| == |s.turns| <= |s.visits| && !Gathered(p, accounts, s).over
    ensures Count(Swept(p, policy, accounts, s), name) > Count(p, name) <==>
            && CauseOf(Gathered(p, accounts, s), s) == AccountsFault
            && exists failure :: failure != Some(Expired) && Suffered(p, accounts, s, name, failure)
    ensures (exists i :: 0 <= i < |accounts| && accounts[i].name == name && WentWell(p, accounts, s, i))
            && !FailedTurn(p, accounts, s, name) && !HadError(s, name) && !HadNoSuccess(s, name)
            && !FailedVisit(p, accounts, s, name) ==>
              Count(Swept(p, policy, accounts, s), name) == 0 && name !in Swept(p, policy, accounts, s).cooldownUntil
  {
    var d := Gathered(p, accounts, s);
    CounterAfterASweep(p, policy, accounts, s, name);
    TimesIsMembership(Bill(d, s), name);
    ClearedRestsNoMore(p, policy, accounts, s, name);
    forall failure
      ensures Incident(name, failure) in d.incidents <==>
              failure != Some(Expired) && Suffered(p, accounts, s, name, failure)
    {
      IncidentsExactly(p, accounts, s, name, failure);
    }
    IncidentsExactly(p, accounts, s, name, None);
    hide Gathered, Swept, CauseOf, Suffered, WentWell, FailedTurn, HadError, HadNoSuccess, FailedVisit;
    if i :| i in d.incidents && i.name == name {
      assert i == Incident(name, i.failure);
    }
  }

  lemma {:induction false} SettlingTouchesOnlyTheBilled(p: Pool, policy: Policy, bill: seq<Incident>, now: int,
                                                        name: Name)
    requires Times(bill, name) == 0
    ensures var after := SettleTo(p, policy, bill, now);
            && (name in after.cooldownUntil <==> name in p.cooldownUntil)
            && (name in after.sessions <==> name in p.sessions)
  {
    if bill != [] {
      SettlingTouchesOnlyTheBilled(p, policy, bill[..|bill| - 1], now, name);
    }
  }

  lemma ClearedRestsNoMore(p: Pool, policy: Policy, accounts: seq<Login>, s: Script, name: Name)
    requires |accounts| == |s.turns| <= |s.visits|
    ensures Cleared(p, accounts, s, name) ==> name !in Swept(p, policy, accounts, s).cooldownUntil
  {
    var d := Gathered(p, accounts, s);
    CounterAfterASweep(p, policy, accounts, s, name);
    hide Gathered;
    if Cleared(p, accounts, s, name) {
      SettlingTouchesOnlyTheBilled(AllSucceeded(d.pool, Clean(d)), policy, Bill(d, s), s.now, name);
    }
  }

  // ---------------------------------------------------------------- who cuts a sweep short

  /** The i-th turn sees the stop flag: when it comes, or after signing in or looking around for long, unless it is the
      last. */
  predicate StopsAtTurn(p: Pool, accounts: seq<Login>, s: Script, i: nat)
    requires i < |accounts| == |s.turns|
  {
    var t, account := s.turns[i], accounts[i];
    || t.stopped
    || (Tried(p, accounts, s, i) && t.stoppedAfter && i + 1 < |accounts|
        && (account.name !in PrepareTo(p, accounts, s, i).pool.sessions || (!account.canary && t.stale)))
  }

  lemma {:induction false} TurnsAreCutShort(p: Pool, accounts: seq<Login>, s: Script, n: nat)
    requires n <= |accounts| == |s.turns|
    ensures PrepareTo(p, accounts, s, n).over <==> exists i :: 0 <= i < n && StopsAtTurn(p, accounts, s, i)
  {
    if n > 0 {
      var d := PrepareTo(p, accounts, s, n - 1);
      TurnsAreCutShort(p, accounts, s, n - 1);
      if !d.over {
        TurnsExactly(p, accounts, s, n - 1);
        assert PrepareTo(p, accounts, s, n).over <==> StopsAtTurn(p, accounts, s, n - 1);
      }
      hide StopsAtTurn, TurnsAre;
    }
  }

  lemma {:induction false} VisitsAreCutShort(d: Draft, s: Script, n: nat)
    requires n <= |d.prepared| <= |s.visits|
    ensures VisitsTo(d, s, n).over <==> d.over || exists j :: 0 <= j < n && s.visits[j].stopped
  {
    if n > 0 {
      VisitsAreCutShort(d, s, n - 1);
    }
  }

  /** A sweep is cut short, and nobody charged or cleared, exactly when the stop flag was seen at some turn or before
      some visit. */
  lemma CutShortExactly(p: Pool, accounts: seq<Login>, s: Script)
    requires |accounts| == |s.turns| <= |s.visits|
    ensures Gathered(p, accounts, s).over <==>
            || (exists i :: 0 <= i < |accounts| && StopsAtTurn(p, accounts, s, i))
            || exists j :: 0 <= j < |ToBook(p, accounts, s, |accounts|)| && j < |s.visits| && s.visits[j].stopped
  {
    TurnsAreCutShort(p, accounts, s, |accounts|);
    var d := PrepareTo(p, accounts, s, |accounts|);
    if !d.over {
      TurnsExactly(p, accounts, s, |accounts|);
      PreparedFew(p, accounts, s, |accounts|);
      PreparedUntouched(d, s);
      ErrorsUntouched(d, s, |s.errors|);
      StatsUntouched(ErrorsTo(d, s, |s.errors|), s, |s.stats|);
      var asked := StatsTo(ErrorsTo(d, s, |s.errors|), s, |s.stats|);
      assert Gathered(p, accounts, s) == VisitsTo(asked, s, |asked.prepared|);
      VisitsAreCutShort(asked, s, |asked.prepared|);
      assert asked.prepared == ToBook(p, accounts, s, |accounts|);
    }
    hide StopsAtTurn, PrepareTo, ErrorsTo, StatsTo, VisitsTo, ToBook;
  }

  // ---------------------------------------------------------------- sessions

  /** One failure settled: a refused account loses its session and is charged, a transient failure or a sweep without
      a successful request is charged and keeps it, and a lapsed session is only lost. */
  lemma SettlingOne(p: Pool, policy: Policy, i: Incident, now: int, name: Name)
    ensures var after := Settled(p, policy, i, now);
            && (name in after.sessions <==>
                  name in p.sessions && (name != i.name || (i.failure != Some(Refused) && i.failure != Some(Expired))))
            && Count(after, name) == Count(p, name) + (if name == i.name && i.failure != Some(Expired) then 1 else 0)
  {
  }

  lemma {:induction false} SettlingTakesSessions(p: Pool, policy: Policy, bill: seq<Incident>, now: int, name: Name)
    requires forall i :: i in bill ==> i.failure != Some(Expired)
    ensures name in SettleTo(p, policy, bill, now).sessions <==>
            name in p.sessions && Incident(name, Some(Refused)) !in bill
  {
    if bill != [] {
      var front, last := bill[..|bill| - 1], bill[|bill| - 1];
      assert bill == front + [last];
      SettlingTakesSessions(p, policy, front, now, name);
      SettlingOne(SettleTo(p, policy, front, now), policy, last, now, name);
      hide Settled;
    }
  }

  /** A billed account keeps its session unless it was refused. */
  lemma RefusedLosesItsSession(p: Pool, policy: Policy, accounts: seq<Login>, s: Script, name: Name)
    requires |accounts| == |s.turns| <= |s.visits|
    ensures var d := Gathered(p, accounts, s);
            name in Swept(p, policy, accounts, s).sessions <==>
            name in d.pool.sessions && Incident(name, Some(Refused)) !in Bill(d, s)
  {
    var d := Gathered(p, accounts, s);
    GatheringIsOrderly(p, accounts, s);
    hide Gathered;
    SettlingTakesSessions(AllSucceeded(d.pool, Clean(d)), policy, Bill(d, s), s.now, name);
  }

  /** The session of an account after its turn, when it has only one. */
  lemma {:induction false} SessionAfterTurns(p: Pool, accounts: seq<Login>, s: Script, n: nat, k: nat)
    requires n <= |accounts| == |s.turns| && k < |accounts| && !PrepareTo(p, accounts, s, n).over
    requires forall i :: 0 <= i < |accounts| && accounts[i].name == accounts[k].name ==> i == k
    ensures accounts[k].name in PrepareTo(p, accounts, s, n).pool.sessions <==>
            if k < n && Tried(p, accounts, s, k) then
              && s.turns[k].failure != Some(Expired)
              && (s.turns[k].signedIn || s.turns[k].failure.None? || accounts[k].name in p.sessions)
            else accounts[k].name in p.sessions
  {
    if n > 0 {
      var d := PrepareTo(p, accounts, s, n - 1);
      SessionAfterTurns(p, accounts, s, n - 1, k);
      TurnsExactly(p, accounts, s, n - 1);
      hide TurnsAre;
    }
  }

  /** Between the turns and the settlement only a session that lapsed in a request or a visit is lost. */
  lemma {:induction false} SessionAfterErrors(d: Draft, s: Script, n: nat, name: Name)
    requires n <= |s.errors|
    ensures name in ErrorsTo(d, s, n).pool.sessions <==>
            name in d.pool.sessions
            && !exists j :: 0 <= j < n && FirstError(d, s, j) && s.errors[j] == (name, Expired)
  {
    if n > 0 {
      SessionAfterErrors(d, s, n - 1, name);
      ErrorsExactly(d, s, n - 1);
      var who, before := s.errors[n - 1].0, ErrorsTo(d, s, n - 1);
      assert who in before.failed <==> who in d.failed || exists j :: 0 <= j < n - 1 && s.errors[j].0 == who;
      assert who !in before.failed <==> FirstError(d, s, n - 1);
      hide FirstError;
    }
  }

  lemma {:induction false} SessionAfterVisits(d: Draft, s: Script, n: nat, name: Name)
    requires n <= |d.prepared| <= |s.visits| && !VisitsTo(d, s, n).over
    ensures name in VisitsTo(d, s, n).pool.sessions <==>
            name in d.pool.sessions
            && !exists j :: 0 <= j < n && d.prepared[j] == name && FirstVisitFailure(d, s, j)
                            && s.visits[j].failure == Some(Expired)
  {
    if n > 0 {
      assert !VisitsTo(d, s, n - 1).over;
      SessionAfterVisits(d, s, n - 1, name);
      VisitsExactly(d, s, n - 1);
      assert s.visits[n - 1].failure.Some? && d.prepared[n - 1] !in VisitsTo(d, s, n - 1).failed <==>
             FirstVisitFailure(d, s, n - 1);
      hide FirstVisitFailure;
    }
  }

  /** The session it had, or got in its turn, unless that turn found it lapsed. */
  predicate SessionAfterTurn(p: Pool, accounts: seq<Login>, s: Script, k: nat)
    requires k < |accounts| == |s.turns|
  {
    if Tried(p, accounts, s, k) then
      && s.turns[k].failure != Some(Expired)
      && (s.turns[k].signedIn || s.turns[k].failure.None? || accounts[k].name in p.sessions)
    else accounts[k].name in p.sessions
  }

  /** After a sweep nobody cut short an account with a name of its own has a session if and only if it had one or got
      one, and it was not found to have lapsed, in its turn, a request or a visit, and the account was not refused and
      charged. */
  lemma SessionExactly(p: Pool, policy: Policy, accounts: seq<Login>, s: Script, k: nat)
    requires |accounts| == |s.turns| <= |s.visits| && !Gathered(p, accounts, s).over && k < |accounts|
    requires forall i :: 0 <= i < |accounts| && accounts[i].name == accounts[k].name ==> i == k
    ensures var name := accounts[k].name;
            name in Swept(p, policy, accounts, s).sessions <==>
            && SessionAfterTurn(p, accounts, s, k)
            && !ByError(p, accounts, s, name, Expired) && !ByVisit(p, accounts, s, name, Expired)
            && !(CauseOf(Gathered(p, accounts, s), s) == AccountsFault && Suffered(p, accounts, s, name, Some(Refused)))
  {
    var name, d := accounts[k].name, PrepareTo(p, accounts, s, |accounts|);
    assert !d.over;
    RefusedLosesItsSession(p, policy, accounts, s, name);
    IncidentsExactly(p, accounts, s, name, Some(Refused));
    assert Incident(name, Some(Refused)) in Bill(Gathered(p, accounts, s), s) <==>
           CauseOf(Gathered(p, accounts, s), s) == AccountsFault && Suffered(p, accounts, s, name, Some(Refused));
    GatheredSession(p, accounts, s, k);
    hide Gathered, Swept, CauseOf, Suffered, PrepareTo, SessionAfterTurn, ByError, ByVisit;
  }

  lemma GatheredSession(p: Pool, accounts: seq<Login>, s: Script, k: nat)
    requires |accounts| == |s.turns| <= |s.visits| && !Gathered(p, accounts, s).over && k < |accounts|
    requires forall i :: 0 <= i < |accounts| && accounts[i].name == accounts[k].name ==> i == k
    ensures var name := accounts[k].name;
            name in Gathered(p, accounts, s).pool.sessions <==>
            && SessionAfterTurn(p, accounts, s, k)
            && !ByError(p, accounts, s, name, Expired) && !ByVisit(p, accounts, s, name, Expired)
  {
    var name, d := accounts[k].name, PrepareTo(p, accounts, s, |accounts|);
    assert !d.over;
    SessionAfterTurns(p, accounts, s, |accounts|, k);
    TurnsExactly(p, accounts, s, |accounts|);
    PreparedFew(p, accounts, s, |accounts|);
    PreparedUntouched(d, s);
    ErrorsUntouched(d, s, |s.errors|);
    StatsUntouched(ErrorsTo(d, s, |s.errors|), s, |s.stats|);
    var told := ErrorsTo(d, s, |s.errors|);
    var asked := StatsTo(told, s, |s.stats|);
    assert Gathered(p, accounts, s) == VisitsTo(asked, s, |asked.prepared|);
    UpToTheVisits(p, accounts, s, name, Some(Expired));
    SessionAfterErrors(d, s, |s.errors|, name);
    SessionAfterVisits(asked, s, |asked.prepared|, name);
    hide Gathered, PrepareTo, ErrorsTo, StatsTo, VisitsTo, WentWrong, WentWell, ToBook, HadError, HadNoSuccess;
    VisitIncidents(p, accounts, s, asked, name, Some(Expired));
    ExpiredInARequest(p, accounts, s, d, name);
    hide ByError, ByVisit, FirstError, FirstVisitFailure, FailedTurn, TurnsAre;
  }

  lemma ExpiredInARequest(p: Pool, accounts: seq<Login>, s: Script, d: Draft, name: Name)
    requires |accounts| == |s.turns| && TurnsAre(p, accounts, s, |accounts|, d)
    ensures (exists j :: 0 <= j < |s.errors| && FirstError(d, s, j) && s.errors[j] == (name, Expired)) <==>
            ByError(p, accounts, s, name, Expired)
  {
    hide WentWell, WentWrong, ToBook;
    assert name in d.failed <==> FailedTurn(p, accounts, s, name);
    hide FailedTurn, TurnsAre;
    if ByError(p, accounts, s, name, Expired) {
      var j :| 0 <= j < |s.errors| && s.errors[j] == (name, Expired)
               && forall i :: 0 <= i < j ==> s.errors[i].0 != name;
      assert FirstError(d, s, j);
    }
  }
}
