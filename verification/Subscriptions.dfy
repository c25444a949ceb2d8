/** Which calendars a sweep asks for, against which ones the booking phase goes on to read. */
module Subscriptions {
  import opened Basics
  import opened Calendar
  import opened BookingSpec
  import opened BookingSources
  import opened BookingPhase

  function KeysOf(subs: seq<Subscription>): set<Key> {
    set s | s in subs :: s.KeyOf()
  }

  lemma NoKeys()
    ensures KeysOf([]) == {}
  {
  }

  lemma KeysOfConcat(a: seq<Subscription>, b: seq<Subscription>)
    ensures KeysOf(a + b) == KeysOf(a) + KeysOf(b)
  {
    assert forall s :: s in a + b <==> s in a || s in b;
  }

  /** The unbooked members the sweep knows something about. */
  function Listed(booked: set<ScheduleId>, byId: ById, members: seq<ScheduleId>): seq<ScheduleId> {
    if members == [] then []
    else
      var before := Listed(booked, byId, members[..|members| - 1]);
      var last := members[|members| - 1];
      if last in byId && last !in booked then before + [last] else before
  }

  predicate AskedAlone(booked: set<ScheduleId>, a: (Application, Schedule), k: Key) {
    a.0.scheduleId !in booked && k in AppKeys(a.0.scheduleId, a.0.target.consulates)
  }

  predicate AskedTogether(booked: set<ScheduleId>, byId: ById, g: Group, k: Key) {
    var members := Listed(booked, byId, g.members);
    |members| >= 2 && k in GroupKeys(members, g.consulates)
  }

  /** The calendars asked for on behalf of one account. */
  ghost predicate Asked(booked: set<ScheduleId>, account: Account, k: Key) {
    || (exists a :: a in account.applications && AskedAlone(booked, a, k))
    || exists g :: g in account.groups && AskedTogether(booked, ByIdOf(account.applications), g, k)
  }

  /** The declared visa type of an application; the last one listed under the id counts. */
  function VisaOf(applications: seq<(Application, Schedule)>, m: ScheduleId): Option<string> {
    if applications == [] then None
    else
      var last := applications[|applications| - 1].0;
      if last.scheduleId == m then last.visaType else VisaOf(applications[..|applications| - 1], m)
  }

  /** The subscription carries its account and a visa type declared for its application. */
  ghost predicate Declares(account: Account, s: Subscription) {
    s.account == account.id
    && exists a :: a in account.applications && a.0.scheduleId == s.scheduleId && a.0.visaType == s.visaType
  }

  lemma {:induction false} VisaIsDeclared(applications: seq<(Application, Schedule)>, m: ScheduleId)
    requires m in ByIdOf(applications)
    ensures exists a :: a in applications && a.0.scheduleId == m && a.0.visaType == VisaOf(applications, m)
  {
    var front, last := applications[..|applications| - 1], applications[|applications| - 1];
    assert last in applications;
    if last.0.scheduleId != m {
      VisaIsDeclared(front, m);
      var a :| a in front && a.0.scheduleId == m && a.0.visaType == VisaOf(front, m);
      assert a in applications;
    }
  }

  lemma AskedEitherWay(booked: set<ScheduleId>, account: Account)
    ensures forall k :: Asked(booked, account, k) <==>
                        || (exists i :: 0 <= i < |account.applications|
                                        && AskedAlone(booked, account.applications[i], k))
                        || exists i :: 0 <= i < |account.groups|
                                       && AskedTogether(booked, ByIdOf(account.applications), account.groups[i], k)
  {
  }

  /** The calendars the booking phase looks up if nothing gets booked in the meantime. */
  ghost predicate Needed(booked: set<ScheduleId>, account: Account, k: Key) {
    || (exists a :: a in account.applications && AskedAlone(booked, a, k))
    || exists g :: g in account.groups && |Unbooked(booked, g.members)| >= 2
                   && k in GroupKeys(Unbooked(booked, g.members), g.consulates)
  }

  lemma {:induction false} ListedAre(booked: set<ScheduleId>, byId: ById, members: seq<ScheduleId>)
    ensures forall m :: m in Listed(booked, byId, members) <==> m in members && m in byId && m !in booked
    ensures (forall m :: m in Unbooked(booked, members) ==> m in byId) ==>
              Listed(booked, byId, members) == Unbooked(booked, members)
    ensures |Listed(booked, byId, members)| <= |Unbooked(booked, members)|
    ensures forall m :: m in Unbooked(booked, members) <==> m in members && m !in booked
  {
    if members != [] {
      var front, last := members[..|members| - 1], members[|members| - 1];
      ListedAre(booked, byId, front);
      assert members == front + [last];
      assert forall m :: m in members <==> m in front || m == last;
      var u := Unbooked(booked, members);
      assert forall m :: m in Unbooked(booked, front) ==> m in u;
    }
  }

  lemma {:induction false} KnownExactly(applications: seq<(Application, Schedule)>, m: ScheduleId)
    ensures m in ByIdOf(applications) <==> exists a :: a in applications && a.0.scheduleId == m
  {
    if applications != [] {
      var front, last := applications[..|applications| - 1], applications[|applications| - 1];
      KnownExactly(front, m);
      assert applications == front + [last];
    }
  }

  /** Every group still to be booked, at some consulate, is made of applications the sweep found actionable. */
  ghost predicate GroupsAreKnown(booked: set<ScheduleId>, account: Account) {
    forall g :: g in account.groups && |Unbooked(booked, g.members)| >= 2 && g.consulates != [] ==>
                  forall m :: m in Unbooked(booked, g.members) ==> m in ByIdOf(account.applications)
  }

  /** The sweep means to ask for every calendar the booking phase will read.  It does so exactly when no group has an
      unbooked member without a known schedule; otherwise each sweep fetches that group's calendars again, and the group
      check then raises. */
  lemma EveryReadIsAskedForExactly(booked: set<ScheduleId>, account: Account)
    ensures (forall k :: Needed(booked, account, k) ==> Asked(booked, account, k)) <==> GroupsAreKnown(booked, account)
    ensures forall k :: Asked(booked, account, k) ==> Needed(booked, account, k)
  {
    var byId := ByIdOf(account.applications);
    forall g | g in account.groups
      ensures forall m :: m in Listed(booked, byId, g.members) <==> m in Unbooked(booked, g.members) && m in byId
      ensures (forall m :: m in Unbooked(booked, g.members) ==> m in byId) ==>
                Listed(booked, byId, g.members) == Unbooked(booked, g.members)
      ensures |Listed(booked, byId, g.members)| <= |Unbooked(booked, g.members)|
    {
      ListedAre(booked, byId, g.members);
    }
    hide ByIdOf, Listed, Unbooked;
    if GroupsAreKnown(booked, account) {
      forall k | Needed(booked, account, k)
        ensures Asked(booked, account, k)
      {
        NeededIsAsked(booked, account, k);
      }
    } else {
      var g :| g in account.groups && |Unbooked(booked, g.members)| >= 2 && g.consulates != []
               && exists m :: m in Unbooked(booked, g.members) && m !in byId;
      var m :| m in Unbooked(booked, g.members) && m !in byId;
      var k := Key(m, g.consulates[0]);
      KnownExactly(account.applications, m);
      assert Needed(booked, account, k);
      assert !Asked(booked, account, k);
    }
  }

  lemma NeededIsAsked(booked: set<ScheduleId>, account: Account, k: Key)
    requires GroupsAreKnown(booked, account) && Needed(booked, account, k)
    ensures Asked(booked, account, k)
  {
    var byId := ByIdOf(account.applications);
    if !(exists a :: a in account.applications && AskedAlone(booked, a, k)) {
      var g :| g in account.groups && |Unbooked(booked, g.members)| >= 2
               && k in GroupKeys(Unbooked(booked, g.members), g.consulates);
      ListedAre(booked, byId, g.members);
    }
  }

  /** A group of two, of which the site reports only the first as actionable. */
  const HALF_KNOWN := Account(0, [(Application(1, None, Target([9], None, None, [], true)), Schedule(None, false))],
                              [Group([1, 2], [7], Target([7], None, None, [], true), 2)])

  lemma OnlyOneIsListed()
    ensures |Listed({}, ByIdOf(HALF_KNOWN.applications), [1, 2])| <= 1
  {
    var byId := ByIdOf(HALF_KNOWN.applications);
    KnownExactly(HALF_KNOWN.applications, 2);
    assert 2 !in byId;
    hide ByIdOf;
    assert [1, 2][..1] == [1] && [1][..0] == [];
    assert Listed({}, byId, [1, 2]) == Listed({}, byId, [1]);
    assert Listed({}, byId, []) == [];
  }

  lemma BothAreUnbooked()
    ensures Unbooked({}, [1, 2]) == [1, 2]
  {
    assert [1, 2][..1] == [1] && [1][..0] == [];
    assert Unbooked({}, []) == [] && Unbooked({}, [1]) == [1];
  }

  /** Both members' calendars are needed, and neither is asked for. */
  lemma UnknownMemberIsNotAskedFor()
    ensures Needed({}, HALF_KNOWN, Key(1, 7)) && !Asked({}, HALF_KNOWN, Key(1, 7))
    ensures Needed({}, HALF_KNOWN, Key(2, 7)) && !Asked({}, HALF_KNOWN, Key(2, 7))
  {
    hide Listed, Unbooked, ByIdOf;
    BothAreUnbooked();
    OnlyOneIsListed();
    var g := HALF_KNOWN.groups[0];
    assert g in HALF_KNOWN.groups && forall h :: h in HALF_KNOWN.groups ==> h == g;
    assert Key(1, 7) in GroupKeys([1, 2], [7]) && Key(2, 7) in GroupKeys([1, 2], [7]);
  }
}
