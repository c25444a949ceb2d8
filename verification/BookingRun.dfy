/** The sweep before an account's booking phase, and one in which a single calendar of the account came from a canary.
    */
module BookingRuns {
  import opened Basics
  import opened Calendar
  import PlannerSpec
  import opened PlannerRuns
  import opened PlannerAnchors
  import opened PlannerChanges
  import opened BorrowedRuns
  import opened FanOut
  import opened BookingSpec
  import opened BookingSources
  import opened BookingPhase
  import opened Subscriptions
  import opened BookingReads

  // ---------------------------------------------------------------- the sweep before the phase

  /** Everything the account needs is subscribed to, and nothing else on its behalf. */
  ghost predicate Subscribes(booked: set<ScheduleId>, account: Account, subs: set<Subscription>) {
    && (forall k :: Asked(booked, account, k) ==> exists s :: s in subs && s.KeyOf() == k)
    && forall s :: s in subs && s.account == account.id ==> Asked(booked, account, s.KeyOf()) && Declares(account, s)
  }

  /** A run of the planner that ends with a sweep for this account, among others, in which every request came back; its
      canaries have schedule ids of their own. */
  ghost predicate SweptFor(policy: PlannerSpec.Policy, steps: seq<Step>, booked: set<ScheduleId>, account: Account) {
    LegalRun(policy, steps) && steps != []
    && var last := steps[|steps| - 1];
       && last.Sweep? && PollsOf(last.results) == last.polls && Subscribes(booked, account, last.subs)
       && CanariesDiffer(last.canaries) && CanariesApart(last.subs, last.canaries)
  }

  function LastRound(steps: seq<Step>): seq<PollResult>
    requires steps != [] && steps[|steps| - 1].Sweep?
  {
    steps[|steps| - 1].results
  }

  /** An honest site can have given all of the run's answers. */
  ghost predicate AtAnHonestSite(steps: seq<Step>) {
    exists ident, calendar :: HonestLog(ident, calendar, LogAfter(steps))
  }

  /** Nothing has happened yet but the handing out of these answers. */
  ghost predicate JustFannedOut(d: Desk, results: seq<PollResult>) {
    d.borrowed == FannedBorrowed(map[], results) && d.booked == {} && d.submitted == [] && d.heard == {}
  }

  // ---------------------------------------------------------------- one in which one calendar came from a canary

  ghost function KeyList(keys: set<Key>): (list: seq<Key>)
    ensures NoDup(list) && forall k :: k in list <==> k in keys
  {
    if keys == {} then []
    else
      assert (forall k :: k !in keys) ==> keys == {};
      var k :| k in keys;
      KeyList(keys - {k}) + [k]
  }

  /** An id above those of these keys. */
  function Above(keys: seq<Key>): (id: ScheduleId)
    ensures forall k :: k in keys ==> k.scheduleId < id
  {
    if keys == [] then 0
    else
      var last := keys[|keys| - 1].scheduleId;
      var id := Above(keys[..|keys| - 1]);
      if id <= last then last + 1 else id
  }

  function SubOf(account: Account, k: Key): Subscription {
    Subscription(account.id, k.scheduleId, k.facility, VisaOf(account.applications, k.scheduleId))
  }

  ghost function AskedKeys(account: Account): (keys: set<Key>)
    ensures forall k :: k in keys <==> Asked({}, account, k)
  {
    AskedIsListed({}, account);
    set k | k in AllAppKeys(account.applications) + AllGroupKeys(account.groups) && Asked({}, account, k)
  }

  /** A canary comes to share the calendar `k`; everyone else is on its own. */
  ghost function CastFor(account: Account, k: Key, days: seq<Day>): Cast {
    var others := KeyList(AskedKeys(account) - {k});
    Cast([SubOf(account, k)],
         seq(|others|, i requires 0 <= i < |others| => SubOf(account, others[i])),
         k.facility, Poller(account.id + 1, Above([k] + others), None, true), days)
  }

  lemma CastIs(account: Account, k: Key, days: seq<Day>)
    requires Asked({}, account, k) && days != []
    ensures var c := CastFor(account, k, days);
            && CastOk(c) && (forall q :: AskedBy(Everyone(c), q) <==> Asked({}, account, q))
            && (forall q :: AskedBy(c.mine, q) <==> q == k)
            && forall s :: s in Everyone(c) ==> s == SubOf(account, s.KeyOf())
  {
    var c, others := CastFor(account, k, days), KeyList(AskedKeys(account) - {k});
    var keys, all := [k] + others, Everyone(c);
    hide Asked, KeyList, AskedKeys, VisaOf;
    assert |all| == |keys| && forall i :: 0 <= i < |keys| ==> all[i] == SubOf(account, keys[i]);
    forall s | s in all
      ensures s.KeyOf() in keys && s == SubOf(account, s.KeyOf())
    {
      var i :| 0 <= i < |all| && all[i] == s;
    }
    forall q | q in keys
      ensures AskedBy(all, q)
    {
      var i :| 0 <= i < |keys| && keys[i] == q;
      assert all[i].KeyOf() == q;
    }
    assert c.mine[0].KeyOf() == k;
  }

  lemma CastSubscribes(account: Account, k: Key, days: seq<Day>)
    requires Asked({}, account, k) && days != []
    ensures Subscribes({}, account, PlannerSpec.SeqSet(Everyone(CastFor(account, k, days))))
  {
    var c := CastFor(account, k, days);
    CastIs(account, k, days);
    hide Asked, CastFor, VisaOf, CastOk, Everyone;
    forall q | Asked({}, account, q)
      ensures exists s :: s in PlannerSpec.SeqSet(Everyone(c)) && s.KeyOf() == q
    {
      assert AskedBy(Everyone(c), q);
    }
    forall s | s in Everyone(c)
      ensures Asked({}, account, s.KeyOf()) && Declares(account, s)
    {
      assert AskedBy(Everyone(c), s.KeyOf());
      AskedIsKnownTo(account, s.KeyOf());
      VisaIsDeclared(account.applications, s.scheduleId);
    }
  }

  lemma AskedIsKnownTo(account: Account, k: Key)
    requires Asked({}, account, k)
    ensures k.scheduleId in ByIdOf(account.applications)
  {
    KnownExactly(account.applications, k.scheduleId);
    if g :| g in account.groups && AskedTogether({}, ByIdOf(account.applications), g, k) {
      ListedAre({}, ByIdOf(account.applications), g.members);
    }
  }

  /** The batch of that sweep: an entry for everything asked for, with the days on those of one consulate. */
  ghost predicate BatchOf(account: Account, calendars: Calendars, fid: FacilityId, days: seq<Day>) {
    forall k :: (k in calendars <==> Asked({}, account, k))
                && (k in calendars ==> calendars[k] == Some(if k.facility == fid then days else []))
  }

  /** With `k` the only calendar that comes to be shared. */
  lemma HandsOut(account: Account, c: Cast, k: Key, results: seq<PollResult>)
    requires CastOk(c) && k.facility == c.fid && results == SecondSweep(c).results
    requires forall q :: AskedBy(Everyone(c), q) <==> Asked({}, account, q)
    requires forall q :: AskedBy(c.mine, q) <==> q == k
    ensures BatchOf(account, FannedCalendars(results), k.facility, c.days)
    ensures forall q :: q in FannedBorrowed(map[], results) ==> q == k
    ensures forall other :: !AnsweredWithoutCanary(results, k, other)
  {
    hide Asked, FannedCalendars, FannedBorrowed, SecondSweep, CastOk, AskedBy, Everyone;
    forall q
      ensures (q in FannedCalendars(results) <==> Asked({}, account, q))
      ensures q in FannedCalendars(results) ==>
                FannedCalendars(results)[q] == Some(if q.facility == k.facility then c.days else [])
      ensures q in FannedBorrowed(map[], results) ==> q == k
    {
      FannedOut(c, q);
    }
    FannedOut(c, k);
    assert AskedBy(c.mine, k);
  }

  lemma LastIsSecond(c: Cast)
    ensures LastRound(TwoSweeps(c)) == SecondSweep(c).results
    ensures forall r :: r in SecondSweep(c).results ==> r.poller.Some?
  {
    hide SecondPolls;
  }

  lemma CastHandsOut(account: Account, k: Key, days: seq<Day>)
    requires Asked({}, account, k) && days != []
    ensures var results := SecondSweep(CastFor(account, k, days)).results;
            && BatchOf(account, FannedCalendars(results), k.facility, days)
            && (forall q :: q in FannedBorrowed(map[], results) ==> q == k)
            && (forall other :: !AnsweredWithoutCanary(results, k, other))
            && forall r :: r in results ==> r.poller.Some?
  {
    var c := CastFor(account, k, days);
    CastIs(account, k, days);
    assert c.fid == k.facility && c.days == days;
    LastIsSecond(c);
    hide CastFor, Asked, FannedCalendars, FannedBorrowed, SecondSweep, CastOk, AskedBy, Everyone, BatchOf,
         AnsweredWithoutCanary;
    HandsOut(account, c, k, SecondSweep(c).results);
  }

  lemma CastIsSwept(account: Account, k: Key, days: seq<Day>)
    requires Asked({}, account, k) && days != []
    ensures SweptFor(PlannerSpec.Policy(true, 10), TwoSweeps(CastFor(account, k, days)), {}, account)
    ensures AtAnHonestSite(TwoSweeps(CastFor(account, k, days)))
  {
    var c := CastFor(account, k, days);
    CastIs(account, k, days);
    CastSubscribes(account, k, days);
    TwoSweepsAreLegal(c);
    TwoSweepsAreHonest(c);
    EveryoneDiffers(c);
    AllCameBack(c);
    hide CastFor, LegalRun, HonestLog, CastOk, Subscribes, CanariesDiffer, CanariesApart, Everyone;
  }

  lemma AllCameBack(c: Cast)
    ensures PollsOf(SecondSweep(c).results) == SecondSweep(c).polls
  {
    hide SecondPolls;
  }
}
