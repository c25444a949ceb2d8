/** What the booking phase asks the site for when the sweep's batch already holds every calendar it needs. */
module BookingRequests {
  import opened Basics
  import opened Calendar
  import opened FanOut
  import opened BookingSpec
  import opened BookingSources
  import opened BookingPhase
  import opened Subscriptions

  /** From `d` to `e`: nothing was fetched, every days.json request took its entry off the borrowed table, and nobody
      became unbooked. */
  ghost predicate OnlyConfirms(d: Desk, e: Desk) {
    && e.site.fetches == d.site.fetches
    && |d.site.days| - |e.site.days| <= |d.borrowed| - |e.borrowed|
    && |e.borrowed| <= |d.borrowed|
    && d.booked <= e.booked
    && (forall k :: k in e.borrowed ==> k in d.borrowed)
    && forall x :: x in e.heard ==> x in d.heard || x.0 in d.borrowed
  }

  lemma ConfirmOnlyConfirms(d: Desk, k: Key, days: Option<seq<Day>>)
    ensures OnlyConfirms(d, Confirm(d, k, days).1)
  {
    if k in d.borrowed {
      assert (d.borrowed - {k}).Keys == d.borrowed.Keys - {k};
      assert |d.borrowed - {k}| == |d.borrowed| - 1 by {
        assert |d.borrowed.Keys - {k}| == |d.borrowed.Keys| - 1;
      }
    }
  }

  lemma {:induction false} VisitOnlyConfirms(d: Desk, app: Application, schedule: Option<Schedule>,
                                             calendars: Calendars, n: nat)
    requires n <= |app.target.consulates|
    requires forall k :: k in AppKeys(app.scheduleId, app.target.consulates) ==> k in calendars
    ensures OnlyConfirms(d, VisitTo(d, app, schedule, calendars, n).desk)
  {
    hide Hit, Confirm;
    if n > 0 {
      VisitOnlyConfirms(d, app, schedule, calendars, n - 1);
      var k := Key(app.scheduleId, app.target.consulates[n - 1]);
      assert k in AppKeys(app.scheduleId, app.target.consulates);
      var d0 := StopCheck(VisitTo(d, app, schedule, calendars, n - 1).desk).1;
      ConfirmOnlyConfirms(d0, k, calendars[k]);
    }
  }

  lemma AppOnlyConfirms(d: Desk, app: Application, schedule: Option<Schedule>, calendars: Calendars)
    requires forall k :: k in AppKeys(app.scheduleId, app.target.consulates) ==> k in calendars
    ensures OnlyConfirms(d, AppSwept(d, app, schedule, calendars).0)
  {
    VisitOnlyConfirms(d, app, schedule, calendars, |app.target.consulates|);
    hide VisitTo, Candidates, Pick, AppKeys;
  }

  lemma {:induction false} SharedAsksNothing(d: Desk, fid: FacilityId, members: seq<ScheduleId>, calendars: Calendars,
                                             n: nat)
    requires n <= |members|
    ensures OnlyConfirms(d, SharedDays(d, fid, members, calendars, n).desk)
  {
    if n > 0 {
      SharedAsksNothing(d, fid, members, calendars, n - 1);
    }
  }

  lemma {:induction false} ConfirmAllOnlyConfirms(d: Desk, fid: FacilityId, members: seq<ScheduleId>,
                                                  shared: seq<seq<Day>>, n: nat)
    requires n <= |members| == |shared|
    ensures OnlyConfirms(d, ConfirmAll(d, fid, members, shared, n).desk)
  {
    hide Confirm;
    if n > 0 {
      ConfirmAllOnlyConfirms(d, fid, members, shared, n - 1);
      ConfirmOnlyConfirms(ConfirmAll(d, fid, members, shared, n - 1).desk, Key(members[n - 1], fid),
                          Some(shared[n - 1]));
    }
  }

  lemma {:induction false} TimesAskNoDays(d: Desk, members: seq<ScheduleId>, n: nat)
    requires n <= |members|
    ensures OnlyConfirms(d, AskTimes(d, members, n).desk)
  {
    if n > 0 {
      TimesAskNoDays(d, members, n - 1);
    }
  }

  lemma {:induction false} AttemptsAskNoDays(d: Desk, fid: FacilityId, day: Day, byId: ById, members: seq<ScheduleId>,
                                             times: seq<seq<Time>>, n: nat)
    requires n <= |members| == |times| && EveryoneHasATime(times)
    ensures OnlyConfirms(d, AttemptAll(d, fid, day, byId, members, times, n))
  {
    if n > 0 {
      AttemptsAskNoDays(d, fid, day, byId, members, times, n - 1);
      hide UnderCeiling;
    }
  }

  lemma GroupReadOnlyConfirms(d: Desk, group: Group, byId: ById, fid: FacilityId, members: seq<ScheduleId>,
                              calendars: Calendars)
    requires forall m :: m in members ==> Key(m, fid) in calendars
    ensures OnlyConfirms(d, GroupRead(d, group, byId, fid, members, calendars).desk)
  {
    hide Joint, SharedDays, ConfirmAll;
    SharedAsksNothing(d, fid, members, calendars, |members|);
    var shared := SharedDays(d, fid, members, calendars, |members|);
    if shared.status.Going? {
      ConfirmAllOnlyConfirms(shared.desk, fid, members, shared.days, |members|);
    }
  }

  lemma GroupBookedAsksNoDays(chosen: Reading, group: Group, byId: ById, fid: FacilityId, members: seq<ScheduleId>)
    requires |chosen.days| == |members|
    ensures OnlyConfirms(chosen.desk, GroupBooked(chosen, group, byId, fid, members).0)
  {
    hide Joint, AskTimes, AttemptAll, Total;
    TimesAskNoDays(chosen.desk, members, |members|);
    var asked := AskTimes(chosen.desk, members, |members|);
    var common := Joint(group, byId, members, chosen.days);
    if common != [] && asked.status.Going? && EveryoneHasATime(asked.times) {
      AttemptsAskNoDays(asked.desk, fid, common[0], byId, members, asked.times, |members|);
    }
  }

  lemma GroupOnlyConfirms(d: Desk, group: Group, byId: ById, fid: FacilityId, members: seq<ScheduleId>,
                          calendars: Calendars)
    requires forall m :: m in members ==> Key(m, fid) in calendars
    ensures OnlyConfirms(d, GroupSwept(d, group, byId, fid, members, calendars).0)
  {
    GroupReadOnlyConfirms(d, group, byId, fid, members, calendars);
    var chosen := GroupRead(d, group, byId, fid, members, calendars);
    hide GroupRead;
    if chosen.status.Going? {
      GroupBookedAsksNoDays(chosen, group, byId, fid, members);
    }
    hide GroupBooked;
  }

  lemma {:induction false} GroupToOnlyConfirms(d: Desk, group: Group, byId: ById, members: seq<ScheduleId>,
                                               calendars: Calendars, n: nat)
    requires n <= |group.consulates|
    requires forall k :: k in GroupKeys(members, group.consulates) ==> k in calendars
    ensures OnlyConfirms(d, GroupTo(d, group, byId, members, calendars, n).0)
  {
    hide GroupSwept;
    if n > 0 {
      GroupToOnlyConfirms(d, group, byId, members, calendars, n - 1);
      var d1 := StopCheck(GroupTo(d, group, byId, members, calendars, n - 1).0).1;
      var fid := group.consulates[n - 1];
      assert forall m :: m in members ==> Key(m, fid) in GroupKeys(members, group.consulates);
      GroupOnlyConfirms(d1, group, byId, fid, members, calendars);
    }
  }

  /** The batch holds everything the phase is going to look up. */
  ghost predicate BatchIsComplete(booked: set<ScheduleId>, account: Account, calendars: Calendars) {
    forall k :: Needed(booked, account, k) ==> k in calendars
  }

  lemma {:induction false} FewerUnbooked(booked: set<ScheduleId>, more: set<ScheduleId>, members: seq<ScheduleId>)
    requires booked <= more
    ensures |Unbooked(more, members)| <= |Unbooked(booked, members)|
    ensures forall m :: m in Unbooked(more, members) ==> m in Unbooked(booked, members)
  {
    if members != [] {
      FewerUnbooked(booked, more, members[..|members| - 1]);
    }
  }

  lemma {:induction false} GroupsOnlyConfirm(d: Desk, account: Account, calendars: Calendars, n: nat)
    requires n <= |account.groups| && BatchIsComplete(d.booked, account, calendars)
    ensures OnlyConfirms(d, GroupsTo(d, account, calendars, n).0)
  {
    hide GroupTo;
    if n > 0 {
      GroupsOnlyConfirm(d, account, calendars, n - 1);
      var d1 := StopCheck(GroupsTo(d, account, calendars, n - 1).0).1;
      var group := account.groups[n - 1];
      FewerUnbooked(d.booked, d1.booked, group.members);
      var members := Unbooked(d1.booked, group.members);
      hide Unbooked;
      if |members| >= 2 {
        forall k | k in GroupKeys(members, group.consulates)
          ensures k in calendars
        {
          assert k in GroupKeys(Unbooked(d.booked, group.members), group.consulates);
          assert Needed(d.booked, account, k);
        }
        GroupToOnlyConfirms(d1, group, ByIdOf(account.applications), members, calendars, |group.consulates|);
      }
    }
  }

  lemma {:induction false} AppsOnlyConfirm(d: Desk, pending: seq<(Application, Schedule)>, calendars: Calendars, n: nat)
    requires n <= |pending|
    requires forall a, k :: a in pending && k in AppKeys(a.0.scheduleId, a.0.target.consulates) ==> k in calendars
    ensures OnlyConfirms(d, AppsTo(d, pending, calendars, n).0)
  {
    hide AppSwept;
    if n > 0 {
      AppsOnlyConfirm(d, pending, calendars, n - 1);
      var d1 := StopCheck(AppsTo(d, pending, calendars, n - 1).0).1;
      assert pending[n - 1] in pending;
      AppOnlyConfirms(d1, pending[n - 1].0, Some(pending[n - 1].1), calendars);
    }
  }

  /** With a complete batch an account's booking phase fetches no calendar, and makes at most one days.json request
      for each entry that was borrowed: everything else was asked for in the sweep. */
  lemma CompleteBatchIsOnlyConfirmed(account: Account, d: Desk, calendars: Calendars)
    requires BatchIsComplete(d.booked, account, calendars)
    ensures var after := Processed(d, account, calendars).0;
            && after.site.fetches == d.site.fetches
            && |d.site.days| - |after.site.days| <= |d.borrowed| - |after.borrowed|
            && forall x :: x in after.heard ==> x in d.heard || x.0 in d.borrowed
  {
    GroupsOnlyConfirm(d, account, calendars, |account.groups|);
    var (d0, status) := GroupsTo(d, account, calendars, |account.groups|);
    hide GroupsTo;
    if status.Going? {
      var pending := Pending(d0.booked, account.applications);
      PendingAreApplications(d0.booked, account.applications);
      forall a, k | a in pending && k in AppKeys(a.0.scheduleId, a.0.target.consulates)
        ensures k in calendars
      {
        assert AskedAlone(d.booked, a, k);
        assert Needed(d.booked, account, k);
      }
      AppsOnlyConfirm(d0, pending, calendars, |pending|);
    }
  }
}
