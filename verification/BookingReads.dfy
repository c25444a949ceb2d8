/** Which calendars the booking phase reads: what it does depends on no other entry of the batch, and every one of
    them that the batch lacks is asked for again. */
module BookingReads {
  import opened Basics
  import opened Calendar
  import opened Days
  import opened FanOut
  import opened BookingSpec
  import opened BookingSources
  import opened BookingPhase
  import opened BookingGroups
  import opened BookingBarren
  import opened BookingTurns
  import opened BookingRequests
  import opened Subscriptions

  // ---------------------------------------------------------------- nothing else is looked at

  /** The two batches hold the same under these keys. */
  ghost predicate Agree(a: Calendars, b: Calendars, keys: iset<Key>) {
    forall k :: k in keys ==> (k in a <==> k in b) && (k in a ==> a[k] == b[k])
  }

  /** From `d` to `e` calendars were only heard under these keys, and nobody became unbooked. */
  ghost predicate HearsOnly(d: Desk, e: Desk, keys: iset<Key>) {
    d.booked <= e.booked && forall x :: x in e.heard ==> x in d.heard || x.0 in keys
  }

  lemma ReadsOnlyItsKey(d: Desk, app: Application, schedule: Option<Schedule>, a: Calendars, b: Calendars,
                        fid: FacilityId, keys: iset<Key>)
    requires Agree(a, b, keys) && Key(app.scheduleId, fid) in keys
    ensures ReadAt(d, app, schedule, a, fid) == ReadAt(d, app, schedule, b, fid)
    ensures HearsOnly(d, ReadAt(d, app, schedule, a, fid).1, keys)
  {
    hide Hit;
  }

  lemma VisitOneReadsOnly(v: Visit, app: Application, schedule: Option<Schedule>, a: Calendars, b: Calendars,
                          keys: iset<Key>, n: nat)
    requires n < |app.target.consulates| && Agree(a, b, keys) && Key(app.scheduleId, app.target.consulates[n]) in keys
    ensures VisitOne(v, app, schedule, a, n) == VisitOne(v, app, schedule, b, n)
    ensures HearsOnly(v.desk, VisitOne(v, app, schedule, a, n).desk, keys)
  {
    ReadsOnlyItsKey(StopCheck(v.desk).1, app, schedule, a, b, app.target.consulates[n], keys);
    hide ReadAt;
  }

  lemma {:induction false} VisitReadsOnly(d: Desk, app: Application, schedule: Option<Schedule>, a: Calendars,
                                          b: Calendars, keys: iset<Key>, n: nat)
    requires n <= |app.target.consulates| && Agree(a, b, keys)
    requires forall k :: k in AppKeys(app.scheduleId, app.target.consulates) ==> k in keys
    ensures VisitTo(d, app, schedule, a, n) == VisitTo(d, app, schedule, b, n)
    ensures HearsOnly(d, VisitTo(d, app, schedule, a, n).desk, keys)
  {
    hide VisitOne, Agree, HearsOnly;
    if n > 0 {
      var before := VisitTo(d, app, schedule, a, n - 1);
      VisitReadsOnly(d, app, schedule, a, b, keys, n - 1);
      assert Key(app.scheduleId, app.target.consulates[n - 1]) in AppKeys(app.scheduleId, app.target.consulates);
      hide AppKeys;
      VisitOneReadsOnly(before, app, schedule, a, b, keys, n - 1);
      HearsTwice(d, before.desk, VisitOne(before, app, schedule, a, n - 1).desk, keys);
    } else {
      HearsNothing(d, keys);
    }
  }

  lemma HearsNothing(d: Desk, keys: iset<Key>)
    ensures HearsOnly(d, d, keys)
  {
  }

  lemma HearsTwice(d: Desk, mid: Desk, e: Desk, keys: iset<Key>)
    requires HearsOnly(d, mid, keys) && HearsOnly(mid, e, keys)
    ensures HearsOnly(d, e, keys)
  {
  }

  lemma AppReadsOnly(d: Desk, app: Application, schedule: Option<Schedule>, a: Calendars, b: Calendars, keys: iset<Key>)
    requires Agree(a, b, keys) && forall k :: k in AppKeys(app.scheduleId, app.target.consulates) ==> k in keys
    ensures AppSwept(d, app, schedule, a) == AppSwept(d, app, schedule, b)
    ensures HearsOnly(d, AppSwept(d, app, schedule, a).0, keys)
  {
    VisitReadsOnly(d, app, schedule, a, b, keys, |app.target.consulates|);
    hide VisitTo, Candidates, Pick, UnderCeiling, AppKeys, Agree;
  }

  lemma {:induction false} SharedReadsOnly(d: Desk, fid: FacilityId, members: seq<ScheduleId>, a: Calendars,
                                           b: Calendars, n: nat)
    requires n <= |members|
    requires forall m :: m in members ==>
                           var k := Key(m, fid); (k in a <==> k in b) && (k in a ==> a[k] == b[k])
    ensures SharedDays(d, fid, members, a, n) == SharedDays(d, fid, members, b, n)
    ensures var r := SharedDays(d, fid, members, a, n); r.desk == d.(site := r.desk.site)
  {
    if n > 0 {
      SharedReadsOnly(d, fid, members, a, b, n - 1);
      assert members[n - 1] in members;
    }
  }

  lemma {:induction false} ConfirmsHearOnly(d: Desk, fid: FacilityId, members: seq<ScheduleId>, shared: seq<seq<Day>>,
                                            keys: iset<Key>, n: nat)
    requires n <= |members| == |shared| && forall m :: m in members ==> Key(m, fid) in keys
    ensures HearsOnly(d, ConfirmAll(d, fid, members, shared, n).desk, keys)
  {
    if n > 0 {
      ConfirmsHearOnly(d, fid, members, shared, keys, n - 1);
      assert members[n - 1] in members;
    }
  }

  lemma GroupReadReadsOnly(d: Desk, group: Group, byId: ById, fid: FacilityId, members: seq<ScheduleId>, a: Calendars,
                           b: Calendars, keys: iset<Key>)
    requires Agree(a, b, keys) && forall m :: m in members ==> Key(m, fid) in keys
    ensures GroupRead(d, group, byId, fid, members, a) == GroupRead(d, group, byId, fid, members, b)
    ensures HearsOnly(d, GroupRead(d, group, byId, fid, members, a).desk, keys)
  {
    var (mine, d0) := GroupCalendars(d, fid, members, a);
    var (theirs, d1) := GroupCalendars(d, fid, members, b);
    FetchReadsOnly(d, fid, members, a, b, keys);
    hide GroupCalendars, Joint, SharedDays, ConfirmAll, Agree;
    if mine.Some? {
      SharedReadsOnly(d0, fid, members, mine.value, theirs.value, |members|);
      var shared := SharedDays(d0, fid, members, mine.value, |members|);
      if shared.status.Going? {
        ConfirmsHearOnly(shared.desk, fid, members, shared.days, keys, |members|);
      }
    }
  }

  lemma FetchReadsOnly(d: Desk, fid: FacilityId, members: seq<ScheduleId>, a: Calendars, b: Calendars, keys: iset<Key>)
    requires Agree(a, b, keys) && forall m :: m in members ==> Key(m, fid) in keys
    ensures var (mine, d0) := GroupCalendars(d, fid, members, a);
            var (theirs, d1) := GroupCalendars(d, fid, members, b);
            && d0 == d1 && mine.Some? == theirs.Some? && HearsOnly(d, d0, keys)
            && (mine.Some? ==> forall m :: m in members ==>
                                             var k := Key(m, fid);
                                             (k in mine.value <==> k in theirs.value)
                                             && (k in mine.value ==> mine.value[k] == theirs.value[k]))
  {
  }

  lemma GroupReadsOnly(d: Desk, group: Group, byId: ById, fid: FacilityId, members: seq<ScheduleId>, a: Calendars,
                       b: Calendars, keys: iset<Key>)
    requires Agree(a, b, keys) && forall m :: m in members ==> Key(m, fid) in keys
    ensures GroupSwept(d, group, byId, fid, members, a) == GroupSwept(d, group, byId, fid, members, b)
    ensures HearsOnly(d, GroupSwept(d, group, byId, fid, members, a).0, keys)
  {
    GroupReadReadsOnly(d, group, byId, fid, members, a, b, keys);
    hide GroupRead, Agree;
    var chosen := GroupRead(d, group, byId, fid, members, a);
    if chosen.status.Going? {
      GroupBookedAsksNoDays(chosen, group, byId, fid, members);
      BookingSpendsNothing(chosen, group, byId, fid, members);
    }
    hide GroupBooked;
  }

  lemma {:induction false} GroupToReadsOnly(d: Desk, group: Group, byId: ById, members: seq<ScheduleId>, a: Calendars,
                                            b: Calendars, keys: iset<Key>, n: nat)
    requires n <= |group.consulates| && Agree(a, b, keys)
    requires forall k :: k in GroupKeys(members, group.consulates) ==> k in keys
    ensures GroupTo(d, group, byId, members, a, n) == GroupTo(d, group, byId, members, b, n)
    ensures HearsOnly(d, GroupTo(d, group, byId, members, a, n).0, keys)
  {
    hide GroupSwept, Agree;
    if n > 0 {
      GroupToReadsOnly(d, group, byId, members, a, b, keys, n - 1);
      var fid := group.consulates[n - 1];
      assert forall m :: m in members ==> Key(m, fid) in GroupKeys(members, group.consulates);
      var d1 := StopCheck(GroupTo(d, group, byId, members, a, n - 1).0).1;
      GroupReadsOnly(d1, group, byId, fid, members, a, b, keys);
    }
  }

  ghost function NeededKeys(booked: set<ScheduleId>, account: Account): iset<Key> {
    iset k | Needed(booked, account, k)
  }

  lemma {:induction false} GroupsReadOnly(d: Desk, account: Account, a: Calendars, b: Calendars, n: nat)
    requires n <= |account.groups| && Agree(a, b, NeededKeys(d.booked, account))
    ensures GroupsTo(d, account, a, n) == GroupsTo(d, account, b, n)
    ensures HearsOnly(d, GroupsTo(d, account, a, n).0, NeededKeys(d.booked, account))
  {
    hide GroupTo, Agree;
    if n > 0 {
      GroupsReadOnly(d, account, a, b, n - 1);
      var d1 := StopCheck(GroupsTo(d, account, a, n - 1).0).1;
      var group := account.groups[n - 1];
      FewerUnbooked(d.booked, d1.booked, group.members);
      var members := Unbooked(d1.booked, group.members);
      hide Unbooked;
      if |members| >= 2 {
        forall k | k in GroupKeys(members, group.consulates)
          ensures k in NeededKeys(d.booked, account)
        {
          assert k in GroupKeys(Unbooked(d.booked, group.members), group.consulates);
        }
        GroupToReadsOnly(d1, group, ByIdOf(account.applications), members, a, b, NeededKeys(d.booked, account),
                         |group.consulates|);
      }
    }
  }

  lemma {:induction false} AppsReadOnly(d: Desk, pending: seq<(Application, Schedule)>, a: Calendars, b: Calendars,
                                        keys: iset<Key>, n: nat)
    requires n <= |pending| && Agree(a, b, keys)
    requires forall x, k :: x in pending && k in AppKeys(x.0.scheduleId, x.0.target.consulates) ==> k in keys
    ensures AppsTo(d, pending, a, n) == AppsTo(d, pending, b, n)
    ensures HearsOnly(d, AppsTo(d, pending, a, n).0, keys)
  {
    hide AppSwept, Agree;
    if n > 0 {
      AppsReadOnly(d, pending, a, b, keys, n - 1);
      var d1 := StopCheck(AppsTo(d, pending, a, n - 1).0).1;
      assert pending[n - 1] in pending;
      AppReadsOnly(d1, pending[n - 1].0, Some(pending[n - 1].1), a, b, keys);
    }
  }

  /** The phase reads nothing but the needed calendars: two batches that agree on those give the same outcome, and no
      other calendar is heard, whatever the site replies. */
  lemma OnlyNeededIsRead(account: Account, d: Desk, a: Calendars, b: Calendars)
    requires Agree(a, b, NeededKeys(d.booked, account))
    ensures Processed(d, account, a) == Processed(d, account, b)
    ensures forall x :: x in Processed(d, account, a).0.heard ==> x in d.heard || Needed(d.booked, account, x.0)
  {
    GroupsReadOnly(d, account, a, b, |account.groups|);
    var (d0, status) := GroupsTo(d, account, a, |account.groups|);
    hide GroupsTo, Agree;
    if status.Going? {
      var pending := Pending(d0.booked, account.applications);
      PendingAreApplications(d0.booked, account.applications);
      forall x, k | x in pending && k in AppKeys(x.0.scheduleId, x.0.target.consulates)
        ensures k in NeededKeys(d.booked, account)
      {
        assert AskedAlone(d.booked, x, k);
      }
      AppsReadOnly(d0, pending, a, b, NeededKeys(d.booked, account), |pending|);
    }
  }

  // ---------------------------------------------------------------- everything needed is read

  /** A desk at which nothing is borrowed or heard yet, and a site that gives nothing. */
  function Empty(booked: set<ScheduleId>, w: World, n: nat): Desk {
    Desk(map[], booked, [], {},
         Site([], seq(n, i => TimesAnswered(Some(w.offered))), [], seq(n, i => Fetched(Failures(w))), n))
  }

  lemma GroupAsks(d: Desk, account: Account, calendars: Calendars, i: nat, k: Key, w: World)
    requires i < |account.groups| && OnlyKnown(calendars, ByIdOf(account.applications))
    requires |Unbooked(d.booked, account.groups[i].members)| >= 2
    requires k in GroupKeys(Unbooked(d.booked, account.groups[i].members), account.groups[i].consulates)
    requires k !in calendars && k in w.failing && Barren(d, w, GroupsCost(account.groups, |account.groups|))
    ensures (k, None) in GroupsTo(d, account, calendars, |account.groups|).0.heard
  {
    var g, n := account.groups[i], |account.groups|;
    var byId := ByIdOf(account.applications);
    var members := Unbooked(d.booked, g.members);
    assert members != [] && k.scheduleId in members && k.facility in g.consulates;
    hide GroupsTo, GroupDone, GroupSwept, ByIdOf, Barren, GroupsCost, GroupCost, OnlyKnown, Unbooked;
    var d1 := AtTheGroup(d, account, calendars, i, n, w);
    var d2 := AtTheCheck(d1, g, byId, calendars, k.facility, w);
    GroupBarren(d2, g, byId, k.facility, members, calendars, w, 0);
  }

  lemma AppAsksInTurn(d: Desk, apps: seq<(Application, Schedule)>, calendars: Calendars, i: nat, k: Key, w: World)
    requires i < |apps| && k in AppKeys(apps[i].0.scheduleId, apps[i].0.target.consulates) && k !in calendars
    requires Barren(d, w, AppsCost(apps, |apps|))
    ensures (k, None) in AppsTo(d, apps, calendars, |apps|).0.heard
  {
    hide AppsTo, AppSwept, Barren, AppsCost;
    var d1 := AtTheApp(d, apps, calendars, i, |apps|, w);
    AppAsks(d1, apps[i].0, Some(apps[i].1), calendars, k.facility, w);
  }

  /** Each needed calendar that the batch lacks is asked for in the phase, when the site gives it nothing to book on. */
  lemma MissingIsAskedFor(booked: set<ScheduleId>, account: Account, calendars: Calendars, k: Key)
    requires Needed(booked, account, k) && k !in calendars && OnlyKnown(calendars, ByIdOf(account.applications))
    ensures exists d: Desk :: d.booked == booked && d.heard == {} && d.borrowed == map[]
                              && (k, None) in Processed(d, account, calendars).0.heard
  {
    var w := World({k}, []);
    var d := Empty(booked, w, PhaseCost(booked, account));
    var pending := Pending(booked, account.applications);
    var d0 := GroupsTo(d, account, calendars, |account.groups|).0;
    assert Barren(d, w, PhaseCost(booked, account));
    hide Processed, GroupsTo, AppsTo, GroupsCost, AppsCost, OnlyKnown, Barren, ByIdOf, Unbooked, Pending, PhaseCost;
    PhaseBarren(d, account, calendars, w);
    if a :| a in account.applications && AskedAlone(booked, a, k) {
      PendingAreApplications(booked, account.applications);
      assert a in pending;
      var i :| 0 <= i < |pending| && pending[i] == a;
      AppAsksInTurn(d0, pending, calendars, i, k, w);
    } else {
      var g :| g in account.groups && |Unbooked(booked, g.members)| >= 2
               && k in GroupKeys(Unbooked(booked, g.members), g.consulates);
      var i :| 0 <= i < |account.groups| && account.groups[i] == g;
      GroupsAreCovered(booked, account, d, w);
      GroupAsks(d, account, calendars, i, k, w);
    }
  }

  lemma GroupsAreCovered(booked: set<ScheduleId>, account: Account, d: Desk, w: World)
    requires Barren(d, w, PhaseCost(booked, account))
    ensures Barren(d, w, GroupsCost(account.groups, |account.groups|))
  {
    Fewer(d, w, PhaseCost(booked, account), GroupsCost(account.groups, |account.groups|));
  }

  // ---------------------------------------------------------------- what the sweep asked for

  /** The batch of a sweep: an entry for each calendar asked for, and for no other. */
  ghost predicate BatchIsAsked(booked: set<ScheduleId>, account: Account, calendars: Calendars) {
    forall k :: k in calendars <==> Asked(booked, account, k)
  }

  /** Nothing is fetched, and only borrowed calendars are asked for. */
  ghost predicate AsksNothingNew(d: Desk, e: Desk) {
    e.site.fetches == d.site.fetches && forall x :: x in e.heard ==> x in d.heard || x.0 in d.borrowed
  }

  lemma AskedIsKnown(booked: set<ScheduleId>, account: Account, calendars: Calendars)
    requires BatchIsAsked(booked, account, calendars)
    ensures OnlyKnown(calendars, ByIdOf(account.applications))
  {
    forall k | k in calendars
      ensures k.scheduleId in ByIdOf(account.applications)
    {
      KnownExactly(account.applications, k.scheduleId);
      if g :| g in account.groups && AskedTogether(booked, ByIdOf(account.applications), g, k) {
        ListedAre(booked, ByIdOf(account.applications), g.members);
      }
    }
  }

  /** The sweep asks for all the booking phase goes on to read, so that the phase only re-reads what is borrowed, if
      and only if every unbooked member of every group still to be booked has a known schedule: this for every batch of
      the calendars asked for, whatever is on them. */
  lemma NothingNewIsAskedExactly(booked: set<ScheduleId>, account: Account, calendars: Calendars)
    requires BatchIsAsked(booked, account, calendars)
    ensures GroupsAreKnown(booked, account) <==>
            forall d: Desk :: d.booked == booked ==> AsksNothingNew(d, Processed(d, account, calendars).0)
  {
    EveryReadIsAskedForExactly(booked, account);
    hide Processed, Needed, Asked, GroupsAreKnown;
    if GroupsAreKnown(booked, account) {
      forall d: Desk | d.booked == booked
        ensures AsksNothingNew(d, Processed(d, account, calendars).0)
      {
        CompleteBatchIsOnlyConfirmed(account, d, calendars);
      }
    } else {
      var k :| Needed(booked, account, k) && !Asked(booked, account, k);
      AskedIsKnown(booked, account, calendars);
      MissingIsAskedFor(booked, account, calendars, k);
    }
  }

  lemma AskedIsListed(booked: set<ScheduleId>, account: Account)
    ensures forall k ::
              Asked(booked, account, k) ==> k in AllAppKeys(account.applications) + AllGroupKeys(account.groups)
  {
    forall k | Asked(booked, account, k)
      ensures k in AllAppKeys(account.applications) + AllGroupKeys(account.groups)
    {
      if a :| a in account.applications && AskedAlone(booked, a, k) {
        assert k in AllAppKeys(account.applications);
      } else {
        var g :| g in account.groups && AskedTogether(booked, ByIdOf(account.applications), g, k);
        ListedAre(booked, ByIdOf(account.applications), g.members);
        assert k in GroupKeys(g.members, g.consulates);
      }
    }
  }

  function BothFetched(days: seq<Day>, others: seq<Day>): FetchReply {
    Fetched(map[Key(1, 7) := Some(days), Key(2, 7) := Some(others)])
  }

  /** Its fetch gives the check both calendars. */
  lemma HalfKnownIsFetched(d: Desk, calendars: Calendars, days: seq<Day>, others: seq<Day>)
    requires Key(1, 7) !in calendars && d.borrowed == map[] && d.site.fetches == [BothFetched(days, others)]
    ensures var (mine, after) := GroupCalendars(d, 7, [1, 2], calendars);
            && mine.Some? && Key(1, 7) in mine.value && mine.value[Key(1, 7)].Some? && Key(2, 7) in mine.value
            && mine.value[Key(2, 7)].Some?
            && after.borrowed == map[] && after.site == d.site.(fetches := []) && after.submitted == d.submitted
            && (Key(1, 7), Some(SortDays(days))) in after.heard
  {
    assert 1 in [1, 2];
    hide SortDays;
  }

  lemma HalfKnownCheckRaises(d: Desk, calendars: Calendars, days: seq<Day>, others: seq<Day>)
    requires Key(1, 7) !in calendars && d.borrowed == map[] && d.site.patience == 2
    requires d.site.fetches == [BothFetched(days, others)]
    ensures var (after, status) :=
              GroupSwept(d, HALF_KNOWN.groups[0], ByIdOf(HALF_KNOWN.applications), 7, [1, 2], calendars);
            && status == Crashed && after.site.fetches == [] && after.submitted == d.submitted
            && (Key(1, 7), Some(SortDays(days))) in after.heard
  {
    var g, byId := HALF_KNOWN.groups[0], ByIdOf(HALF_KNOWN.applications);
    KnownExactly(HALF_KNOWN.applications, 2);
    HalfKnownIsFetched(d, calendars, days, others);
    var (mine, d2) := GroupCalendars(d, 7, [1, 2], calendars);
    hide ByIdOf, Joint, SortDays, GroupCalendars, BothFetched;
    SharedBarren(d2, 7, [1, 2], mine.value, 2);
    var shared := SharedDays(d2, 7, [1, 2], mine.value, 2);
    hide SharedDays;
    assert shared.status == Going && GroupRead(d, g, byId, 7, [1, 2], calendars) == shared;
    assert 2 in [1, 2];
  }

  /** The half-known group in action: neither calendar of it is in the batch, so the one fetch is used up, and with both
      calendars in hand the check raises; the account's phase ends there, with nothing submitted. */
  lemma HalfKnownGroupRaises(calendars: Calendars, days: seq<Day>, others: seq<Day>)
    requires BatchIsAsked({}, HALF_KNOWN, calendars)
    ensures var d := Desk(map[], {}, [], {}, Site([], [], [], [BothFetched(days, others)], 4));
            var (after, status) := Processed(d, HALF_KNOWN, calendars);
            status == Crashed && after.site.fetches == [] && after.submitted == []
            && (Key(1, 7), Some(SortDays(days))) in after.heard
  {
    var d := Desk(map[], {}, [], {}, Site([], [], [], [BothFetched(days, others)], 4));
    UnknownMemberIsNotAskedFor();
    assert Key(1, 7) !in calendars;
    hide Processed, SortDays, Asked, Needed, BothFetched, GroupSwept, BatchIsAsked, ByIdOf, Unbooked;
    HalfKnownCheckRaises(d.(site := d.site.(patience := 2)), calendars, days, others);
    NoneBooked([1, 2]);
    OneCheckRaises(d, HALF_KNOWN, calendars);
  }

  /** With one group at one consulate, a check that raises ends the phase. */
  lemma OneCheckRaises(d: Desk, account: Account, calendars: Calendars)
    requires |account.groups| == 1 && |account.groups[0].consulates| == 1 && d.site.patience >= 2
    requires |Unbooked(d.booked, account.groups[0].members)| >= 2
    requires var g := account.groups[0];
             GroupSwept(d.(site := d.site.(patience := d.site.patience - 2)), g, ByIdOf(account.applications),
                        g.consulates[0],
                        Unbooked(d.booked, g.members), calendars).1 == Crashed
    ensures var g := account.groups[0];
            var swept := GroupSwept(d.(site := d.site.(patience := d.site.patience - 2)), g,
                                    ByIdOf(account.applications),
                                    g.consulates[0], Unbooked(d.booked, g.members), calendars);
            Processed(d, account, calendars) == swept
  {
    hide GroupDone, GroupSwept, ByIdOf, Unbooked, AppsTo, Pending;
    OneConsulateRaises(StopCheck(d).1, account.groups[0], ByIdOf(account.applications), calendars);
    assert GroupsTo(d, account, calendars, 0) == (d, Going);
    assert GroupsTo(d, account, calendars, 1).1 == Crashed;
  }

  lemma OneConsulateRaises(d: Desk, g: Group, byId: ById, calendars: Calendars)
    requires |g.consulates| == 1 && d.site.patience >= 1 && |Unbooked(d.booked, g.members)| >= 2
    requires GroupSwept(StopCheck(d).1, g, byId, g.consulates[0], Unbooked(d.booked, g.members), calendars).1 == Crashed
    ensures GroupDone(d, g, byId, calendars)
            == GroupSwept(StopCheck(d).1, g, byId, g.consulates[0], Unbooked(d.booked, g.members), calendars)
  {
    var members := Unbooked(d.booked, g.members);
    hide GroupSwept, Unbooked;
    assert GroupTo(d, g, byId, members, calendars, 0) == (d, Going);
  }
}
