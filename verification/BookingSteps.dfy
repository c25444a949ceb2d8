/** The course of a phase: what ends it, which borrowed calendars are read again, and how often the stop flag is
    looked at. */
module BookingSteps {
  import opened Basics
  import opened Calendar
  import opened FanOut
  import opened BookingSpec
  import opened BookingChoice
  import opened BookingGroups

  // ---------------------------------------------------------------- replies are used up in order, and a raise ends it

  /** From `d` to `e` replies of each kind were used up from the front. */
  ghost predicate UsesUp(d: Desk, e: Desk) {
    && |e.site.days| <= |d.site.days| && e.site.days == d.site.days[|d.site.days| - |e.site.days|..]
    && |e.site.times| <= |d.site.times| && e.site.times == d.site.times[|d.site.times| - |e.site.times|..]
    && |e.site.fetches| <= |d.site.fetches| && e.site.fetches == d.site.fetches[|d.site.fetches| - |e.site.fetches|..]
  }

  /** One of the replies used up was an exception. */
  ghost predicate SomeRaised(d: Desk, e: Desk) {
    || (exists i :: 0 <= i < |d.site.days| - |e.site.days| && d.site.days[i].Raised?)
    || (exists i :: 0 <= i < |d.site.times| - |e.site.times| && d.site.times[i].TimesRaised?)
    || (exists i :: 0 <= i < |d.site.fetches| - |e.site.fetches| && d.site.fetches[i].FetchRaised?)
  }

  lemma Twice(d: Desk, mid: Desk, e: Desk)
    requires UsesUp(d, mid) && UsesUp(mid, e)
    ensures UsesUp(d, e) && (SomeRaised(d, e) <==> SomeRaised(d, mid) || SomeRaised(mid, e))
  {
    DaysTwice(d.site.days, mid.site.days, e.site.days);
    TimesTwice(d.site.times, mid.site.times, e.site.times);
    FetchesTwice(d.site.fetches, mid.site.fetches, e.site.fetches);
  }

  lemma DaysTwice(a: seq<DaysReply>, b: seq<DaysReply>, c: seq<DaysReply>)
    requires |c| <= |b| <= |a| && b == a[|a| - |b|..] && c == b[|b| - |c|..]
    ensures c == a[|a| - |c|..]
    ensures (exists i :: 0 <= i < |a| - |c| && a[i].Raised?) <==>
            (exists i :: 0 <= i < |a| - |b| && a[i].Raised?) || exists i :: 0 <= i < |b| - |c| && b[i].Raised?
  {
    if i :| 0 <= i < |b| - |c| && b[i].Raised? {
      assert a[|a| - |b| + i] == b[i];
    }
    if i :| |a| - |b| <= i < |a| - |c| && a[i].Raised? {
      assert b[i - (|a| - |b|)] == a[i];
    }
  }

  lemma TimesTwice(a: seq<TimesReply>, b: seq<TimesReply>, c: seq<TimesReply>)
    requires |c| <= |b| <= |a| && b == a[|a| - |b|..] && c == b[|b| - |c|..]
    ensures c == a[|a| - |c|..]
    ensures (exists i :: 0 <= i < |a| - |c| && a[i].TimesRaised?) <==>
            (exists i :: 0 <= i < |a| - |b| && a[i].TimesRaised?) || exists i :: 0 <= i < |b| - |c| && b[i].TimesRaised?
  {
    if i :| 0 <= i < |b| - |c| && b[i].TimesRaised? {
      assert a[|a| - |b| + i] == b[i];
    }
    if i :| |a| - |b| <= i < |a| - |c| && a[i].TimesRaised? {
      assert b[i - (|a| - |b|)] == a[i];
    }
  }

  lemma FetchesTwice(a: seq<FetchReply>, b: seq<FetchReply>, c: seq<FetchReply>)
    requires |c| <= |b| <= |a| && b == a[|a| - |b|..] && c == b[|b| - |c|..]
    ensures c == a[|a| - |c|..]
    ensures (exists i :: 0 <= i < |a| - |c| && a[i].FetchRaised?) <==>
            (exists i :: 0 <= i < |a| - |b| && a[i].FetchRaised?) || exists i :: 0 <= i < |b| - |c| && b[i].FetchRaised?
  {
    if i :| 0 <= i < |b| - |c| && b[i].FetchRaised? {
      assert a[|a| - |b| + i] == b[i];
    }
    if i :| |a| - |b| <= i < |a| - |c| && a[i].FetchRaised? {
      assert b[i - (|a| - |b|)] == a[i];
    }
  }

  lemma NothingUsed(d: Desk, e: Desk)
    requires e.site.days == d.site.days && e.site.times == d.site.times && e.site.fetches == d.site.fetches
    ensures UsesUp(d, e) && !SomeRaised(d, e)
  {
  }

  /** `e` came from `d` with a raise among the replies exactly when the operation raised. */
  ghost predicate EndsOnARaise(d: Desk, e: Desk, raised: bool) {
    UsesUp(d, e) && (SomeRaised(d, e) <==> raised)
  }

  lemma EndsLater(d: Desk, mid: Desk, e: Desk, raised: bool)
    requires EndsOnARaise(d, mid, false) && EndsOnARaise(mid, e, raised)
    ensures EndsOnARaise(d, e, raised)
  {
    Twice(d, mid, e);
    hide UsesUp, SomeRaised;
  }

  lemma NothingEnds(d: Desk, e: Desk)
    requires e.site.days == d.site.days && e.site.times == d.site.times && e.site.fetches == d.site.fetches
    ensures EndsOnARaise(d, e, false)
  {
    NothingUsed(d, e);
    hide UsesUp, SomeRaised;
  }

  lemma AskEnds(d: Desk, k: Key)
    ensures EndsOnARaise(d, AskDays(d, k).1, AskDays(d, k).0.Raised?)
  {
    hide Tidy;
  }

  lemma ConfirmEnds(d: Desk, k: Key, days: Option<seq<Day>>)
    ensures EndsOnARaise(d, Confirm(d, k, days).1, Confirm(d, k, days).0.Raised?)
  {
    hide AskDays, EndsOnARaise;
    NothingEnds(d, d);
    if k in d.borrowed {
      var d1 := d.(borrowed := d.borrowed - {k});
      NothingEnds(d, d1);
      AskEnds(d1, k);
      EndsLater(d, d1, AskDays(d1, k).1, AskDays(d1, k).0.Raised?);
    }
  }

  lemma ReadEnds(d: Desk, app: Application, schedule: Option<Schedule>, calendars: Calendars, fid: FacilityId)
    ensures var (reply, after) := ReadAt(d, app, schedule, calendars, fid); EndsOnARaise(d, after, reply.Raised?)
  {
    hide Hit, AskDays, Confirm, EndsOnARaise;
    var k := Key(app.scheduleId, fid);
    NothingEnds(d, d);
    AskEnds(d, k);
    var (first, d1) := if k in calendars then (Answered(calendars[k]), d) else AskDays(d, k);
    if first.Answered? && Hit(app.target, schedule, first.days) {
      ConfirmEnds(d1, k, first.days);
      EndsLater(d, d1, Confirm(d1, k, first.days).1, Confirm(d1, k, first.days).0.Raised?);
    }
  }

  lemma VisitOneEnds(v: BookingSpec.Visit, app: Application, schedule: Option<Schedule>, calendars: Calendars, n: nat)
    requires n < |app.target.consulates|
    ensures var w := VisitOne(v, app, schedule, calendars, n); EndsOnARaise(v.desk, w.desk, w.status.Crashed?)
  {
    hide EndsOnARaise, ReadAt, StopCheck;
    var fid, d0 := app.target.consulates[n], StopCheck(v.desk).1;
    var (reply, d1) := ReadAt(d0, app, schedule, calendars, fid);
    NothingEnds(v.desk, v.desk);
    StoppingEnds(v.desk);
    StoppingEnds(d1);
    ReadEnds(d0, app, schedule, calendars, fid);
    EndsLater(v.desk, d0, d1, reply.Raised?);
    if !reply.Raised? {
      EndsLater(v.desk, d1, StopCheck(d1).1, false);
    }
    var w := VisitOne(v, app, schedule, calendars, n);
    assert if StopCheck(v.desk).0 then w.desk == v.desk && w.status == Stopped
           else if reply.Raised? then w.desk == d1 && w.status == Crashed
           else (w.desk == d1 || w.desk == StopCheck(d1).1) && !w.status.Crashed?;
    hide VisitOne;
  }

  lemma StoppingEnds(d: Desk)
    ensures EndsOnARaise(d, StopCheck(d).1, false)
  {
    NothingEnds(d, StopCheck(d).1);
    hide EndsOnARaise;
  }

  lemma {:induction false} VisitEnds(d: Desk, app: Application, schedule: Option<Schedule>, calendars: Calendars,
                                     n: nat)
    requires n <= |app.target.consulates|
    ensures var v := VisitTo(d, app, schedule, calendars, n); EndsOnARaise(d, v.desk, v.status.Crashed?)
  {
    hide EndsOnARaise, VisitOne;
    if n == 0 {
      NothingEnds(d, d);
    } else {
      VisitEnds(d, app, schedule, calendars, n - 1);
      var v := VisitTo(d, app, schedule, calendars, n - 1);
      if v.status.Going? {
        VisitOneEnds(v, app, schedule, calendars, n - 1);
        var w := VisitOne(v, app, schedule, calendars, n - 1);
        EndsLater(d, v.desk, w.desk, w.status.Crashed?);
      }
    }
  }

  lemma AttemptUsesNothing(d: Desk, slot: Slot, schedule: Option<Schedule>)
    ensures EndsOnARaise(d, Attempt(d, slot, schedule), false)
  {
    NothingEnds(d, Attempt(d, slot, schedule));
  }

  /** An application's turn raises exactly when one of the site's replies in it did: days replies are used up in
      order, and the first exception ends the turn. */
  lemma AppRaisesExactly(d: Desk, app: Application, schedule: Option<Schedule>, calendars: Calendars)
    ensures var (after, status) := AppSwept(d, app, schedule, calendars); EndsOnARaise(d, after, status.Crashed?)
  {
    hide EndsOnARaise, VisitTo, Candidates, Pick, Attempt;
    VisitEnds(d, app, schedule, calendars, |app.target.consulates|);
    VisitLength(d, app, schedule, calendars, |app.target.consulates|);
    var v := VisitTo(d, app, schedule, calendars, |app.target.consulates|);
    if v.status.Going? && Candidates(app, schedule, v.used) != [] {
      var slot := Pick(app.target, Candidates(app, schedule, v.used));
      AttemptUsesNothing(v.desk, slot, schedule);
      EndsLater(d, v.desk, Attempt(v.desk, slot, schedule), false);
    }
  }

  // ---------------------------------------------------------------- groups

  lemma {:induction false} SharedEnds(d: Desk, fid: FacilityId, members: seq<ScheduleId>, calendars: Calendars, n: nat)
    requires n <= |members|
    ensures EndsOnARaise(d, SharedDays(d, fid, members, calendars, n).desk, false)
    ensures !SharedDays(d, fid, members, calendars, n).status.Crashed?
  {
    hide EndsOnARaise;
    if n == 0 {
      NothingEnds(d, d);
    } else {
      SharedEnds(d, fid, members, calendars, n - 1);
      var e := SharedDays(d, fid, members, calendars, n - 1).desk;
      NothingEnds(e, StopCheck(e).1);
      EndsLater(d, e, StopCheck(e).1, false);
    }
  }

  lemma {:induction false} ConfirmsEnd(d: Desk, fid: FacilityId, members: seq<ScheduleId>, shared: seq<seq<Day>>,
                                       n: nat)
    requires n <= |members| == |shared|
    ensures var r := ConfirmAll(d, fid, members, shared, n); EndsOnARaise(d, r.desk, r.status.Crashed?)
  {
    hide EndsOnARaise, Confirm;
    if n == 0 {
      NothingEnds(d, d);
    } else {
      ConfirmsEnd(d, fid, members, shared, n - 1);
      var r := ConfirmAll(d, fid, members, shared, n - 1);
      if r.status.Going? {
        var k := Key(members[n - 1], fid);
        ConfirmEnds(r.desk, k, Some(shared[n - 1]));
        EndsLater(d, r.desk, Confirm(r.desk, k, Some(shared[n - 1])).1,
                  Confirm(r.desk, k, Some(shared[n - 1])).0.Raised?);
      }
    }
  }

  lemma {:induction false} TimesEnd(d: Desk, members: seq<ScheduleId>, n: nat)
    requires n <= |members|
    ensures var r := AskTimes(d, members, n); EndsOnARaise(d, r.desk, r.status.Crashed?)
  {
    if n == 0 {
      NothingEnds(d, d);
    } else {
      TimesEnd(d, members, n - 1);
      hide EndsOnARaise;
      var r := AskTimes(d, members, n - 1);
      if r.status.Going? {
        OneTimeEnds(r, AskTimes(d, members, n), members[n - 1]);
        var last := AskTimes(d, members, n);
        EndsLater(d, r.desk, last.desk, last.status.Crashed?);
      }
    }
  }

  lemma OneTimeEnds(r: TimesRead, last: TimesRead, m: ScheduleId)
    requires r.status.Going?
    requires var (stop, d1) := StopCheck(r.desk);
             if stop then last == r.(status := Stopped)
             else if d1.site.times == [] then last == TimesRead(r.times + [[]], d1, Going)
             else
               && last.desk == d1.(site := d1.site.(times := d1.site.times[1..]))
               && (last.status.Crashed? <==> d1.site.times[0].TimesRaised?)
    ensures EndsOnARaise(r.desk, last.desk, last.status.Crashed?)
  {
  }

  /** The fetch of a group check raised, or could not be made. */
  ghost predicate FetchFailed(d: Desk, fid: FacilityId, members: seq<ScheduleId>, calendars: Calendars) {
    && (exists m :: m in members && Key(m, fid) !in calendars)
    && (d.site.fetches == [] || d.site.fetches[0].FetchRaised?)
  }

  lemma FetchEnds(d: Desk, fid: FacilityId, members: seq<ScheduleId>, calendars: Calendars)
    ensures var (mine, after) := GroupCalendars(d, fid, members, calendars);
            && (mine.None? <==> FetchFailed(d, fid, members, calendars))
            && EndsOnARaise(d, after, mine.None? && d.site.fetches != [])
  {
    hide EndsOnARaise, Wanted;
    var after := GroupCalendars(d, fid, members, calendars).1;
    NothingEnds(d, d);
    if d.site.fetches != [] && after.site != d.site {
      OneFetchEnds(d, after);
    } else {
      NothingEnds(d, after);
    }
  }

  lemma OneFetchEnds(d: Desk, after: Desk)
    requires d.site.fetches != [] && after.site == d.site.(fetches := d.site.fetches[1..])
    ensures EndsOnARaise(d, after, d.site.fetches[0].FetchRaised?)
  {
  }

  /** A group check raises exactly when a reply did, or no fetch was to be had, or everything could be read and some
      member is not known. */
  lemma GroupRaisesExactly(d: Desk, group: Group, byId: ById, fid: FacilityId, members: seq<ScheduleId>,
                           calendars: Calendars)
    ensures var (after, status) := GroupSwept(d, group, byId, fid, members, calendars);
            && UsesUp(d, after) && (SomeRaised(d, after) ==> status.Crashed?)
            && (status.Crashed? ==>
                  || SomeRaised(d, after) || (FetchFailed(d, fid, members, calendars) && d.site.fetches == [])
                  || exists m :: m in members && m !in byId)
  {
    GroupReadEnds(d, group, byId, fid, members, calendars);
    var chosen := GroupRead(d, group, byId, fid, members, calendars);
    hide GroupRead;
    if chosen.status.Going? {
      GroupBookedEnds(chosen, group, byId, fid, members);
      Twice(d, chosen.desk, GroupBooked(chosen, group, byId, fid, members).0);
    }
    hide GroupBooked, UsesUp, SomeRaised;
  }

  lemma GroupReadEnds(d: Desk, group: Group, byId: ById, fid: FacilityId, members: seq<ScheduleId>,
                      calendars: Calendars)
    ensures var r := GroupRead(d, group, byId, fid, members, calendars);
            && UsesUp(d, r.desk)
            && (r.status.Crashed? <==>
                  SomeRaised(d, r.desk) || (FetchFailed(d, fid, members, calendars) && d.site.fetches == []))
            && (FetchFailed(d, fid, members, calendars) && d.site.fetches == [] ==> !SomeRaised(d, r.desk))
  {
    var (mine, d0) := GroupCalendars(d, fid, members, calendars);
    FetchEnds(d, fid, members, calendars);
    hide GroupCalendars, Joint, SharedDays, ConfirmAll, UsesUp, SomeRaised;
    if mine.Some? {
      SharedEnds(d0, fid, members, mine.value, |members|);
      var shared := SharedDays(d0, fid, members, mine.value, |members|);
      Twice(d, d0, shared.desk);
      if shared.status.Going? {
        ConfirmsEnd(shared.desk, fid, members, shared.days, |members|);
        Twice(d, shared.desk, ConfirmAll(shared.desk, fid, members, shared.days, |members|).desk);
      }
    }
  }

  lemma {:induction false} AttemptsUseNothing(d: Desk, fid: FacilityId, day: Day, byId: ById, members: seq<ScheduleId>,
                                              times: seq<seq<Time>>, n: nat)
    requires n <= |members| == |times| && EveryoneHasATime(times)
    ensures var e := AttemptAll(d, fid, day, byId, members, times, n);
            e.site.days == d.site.days && e.site.times == d.site.times && e.site.fetches == d.site.fetches
  {
    if n > 0 {
      AttemptsUseNothing(d, fid, day, byId, members, times, n - 1);
      hide UnderCeiling;
    }
  }

  lemma GroupBookedEnds(chosen: Reading, group: Group, byId: ById, fid: FacilityId, members: seq<ScheduleId>)
    requires |chosen.days| == |members|
    ensures var (after, status) := GroupBooked(chosen, group, byId, fid, members);
            && UsesUp(chosen.desk, after) && (SomeRaised(chosen.desk, after) ==> status.Crashed?)
            && (status.Crashed? ==> SomeRaised(chosen.desk, after) || exists m :: m in members && m !in byId)
  {
    hide Joint, AskTimes, AttemptAll, Total, UsesUp, SomeRaised;
    NothingUsed(chosen.desk, chosen.desk);
    TimesEnd(chosen.desk, members, |members|);
    var asked := AskTimes(chosen.desk, members, |members|);
    var common := Joint(group, byId, members, chosen.days);
    if common != [] && asked.status.Going? && EveryoneHasATime(asked.times) {
      AttemptsUseNothing(asked.desk, fid, common[0], byId, members, asked.times, |members|);
      NothingUsed(asked.desk, AttemptAll(asked.desk, fid, common[0], byId, members, asked.times, |members|));
      Twice(chosen.desk, asked.desk, AttemptAll(asked.desk, fid, common[0], byId, members, asked.times, |members|));
    }
  }

  // ---------------------------------------------------------------- the whole phase

  lemma StopUsesNothing(d: Desk, e: Desk)
    requires UsesUp(d, e)
    ensures UsesUp(d, StopCheck(e).1) && (SomeRaised(d, StopCheck(e).1) <==> SomeRaised(d, e))
  {
    NothingUsed(e, StopCheck(e).1);
    Twice(d, e, StopCheck(e).1);
    hide UsesUp, SomeRaised;
  }

  lemma {:induction false} GroupToEnds(d: Desk, group: Group, byId: ById, members: seq<ScheduleId>,
                                       calendars: Calendars, n: nat)
    requires n <= |group.consulates|
    ensures var (after, status) := GroupTo(d, group, byId, members, calendars, n);
            UsesUp(d, after) && (SomeRaised(d, after) ==> status.Crashed?)
  {
    hide UsesUp, SomeRaised, GroupSwept, StopCheck;
    if n == 0 {
      NothingUsed(d, d);
    } else {
      GroupToEnds(d, group, byId, members, calendars, n - 1);
      var d0 := GroupTo(d, group, byId, members, calendars, n - 1).0;
      StopUsesNothing(d, d0);
      var d1 := StopCheck(d0).1;
      GroupRaisesExactly(d1, group, byId, group.consulates[n - 1], members, calendars);
      Twice(d, d1, GroupSwept(d1, group, byId, group.consulates[n - 1], members, calendars).0);
    }
  }

  lemma {:induction false} GroupsToEnd(d: Desk, account: Account, calendars: Calendars, n: nat)
    requires n <= |account.groups|
    ensures var (after, status) := GroupsTo(d, account, calendars, n);
            UsesUp(d, after) && (SomeRaised(d, after) ==> status.Crashed?)
  {
    hide UsesUp, SomeRaised, GroupTo, StopCheck, ByIdOf, Unbooked;
    if n == 0 {
      NothingUsed(d, d);
    } else {
      GroupsToEnd(d, account, calendars, n - 1);
      var d0 := GroupsTo(d, account, calendars, n - 1).0;
      StopUsesNothing(d, d0);
      var d1, g, byId := StopCheck(d0).1, account.groups[n - 1], ByIdOf(account.applications);
      var members := Unbooked(d1.booked, g.members);
      GroupToEnds(d1, g, byId, members, calendars, |g.consulates|);
      Twice(d, d1, GroupTo(d1, g, byId, members, calendars, |g.consulates|).0);
    }
  }

  lemma {:induction false} AppsToEnd(d: Desk, pending: seq<(Application, Schedule)>, calendars: Calendars, n: nat)
    requires n <= |pending|
    ensures var (after, status) := AppsTo(d, pending, calendars, n); EndsOnARaise(d, after, status.Crashed?)
  {
    hide AppSwept, StopCheck;
    if n == 0 {
      NothingEnds(d, d);
    } else {
      AppsToEnd(d, pending, calendars, n - 1);
      var d0 := AppsTo(d, pending, calendars, n - 1).0;
      StopUsesNothing(d, d0);
      var d1 := StopCheck(d0).1;
      AppRaisesExactly(d1, pending[n - 1].0, Some(pending[n - 1].1), calendars);
      Twice(d, d1, AppSwept(d1, pending[n - 1].0, Some(pending[n - 1].1), calendars).0);
      hide UsesUp, SomeRaised;
    }
  }

  /** In an account's phase the site's replies are used up in order, and the first exception among them ends it:
      nothing is used up, read or submitted after it. */
  lemma ARaiseEndsThePhase(account: Account, d: Desk, calendars: Calendars)
    ensures var (after, status) := Processed(d, account, calendars);
            UsesUp(d, after) && (SomeRaised(d, after) ==> status.Crashed?)
  {
    hide UsesUp, SomeRaised, GroupsTo, AppsTo, Pending;
    GroupsToEnd(d, account, calendars, |account.groups|);
    var (d0, status) := GroupsTo(d, account, calendars, |account.groups|);
    if status.Going? {
      var pending := Pending(d0.booked, account.applications);
      AppsToEnd(d0, pending, calendars, |pending|);
      Twice(d, d0, AppsTo(d0, pending, calendars, |pending|).0);
    }
  }

  // ---------------------------------------------------------------- the stop flag

  /** Once the stop flag is up an application visits no further consulate. */
  lemma {:induction false} StopEndsTheVisit(d: Desk, app: Application, schedule: Option<Schedule>, calendars: Calendars,
                                            k: nat, n: nat)
    requires k < n <= |app.target.consulates| && VisitTo(d, app, schedule, calendars, k).desk.site.patience == 0
    ensures var v, w := VisitTo(d, app, schedule, calendars, k), VisitTo(d, app, schedule, calendars, n);
            w == v.(status := if v.status.Going? then Stopped else v.status)
    decreases n
  {
    if k + 1 < n {
      StopEndsTheVisit(d, app, schedule, calendars, k, n - 1);
    }
  }

  /** A group no further consulate, */
  lemma {:induction false} StopEndsTheGroup(d: Desk, group: Group, byId: ById, members: seq<ScheduleId>,
                                            calendars: Calendars, k: nat, n: nat)
    requires k < n <= |group.consulates| && GroupTo(d, group, byId, members, calendars, k).0.site.patience == 0
    ensures var v, w := GroupTo(d, group, byId, members, calendars, k), GroupTo(d, group, byId, members, calendars, n);
            w == (v.0, if v.1.Going? then Stopped else v.1)
    decreases n
  {
    hide GroupSwept;
    if k + 1 < n {
      StopEndsTheGroup(d, group, byId, members, calendars, k, n - 1);
    }
  }

  /** and the phase turns to no further group */
  lemma {:induction false} StopEndsTheGroups(d: Desk, account: Account, calendars: Calendars, k: nat, n: nat)
    requires k < n <= |account.groups| && GroupsTo(d, account, calendars, k).0.site.patience == 0
    ensures var v, w := GroupsTo(d, account, calendars, k), GroupsTo(d, account, calendars, n);
            w == (v.0, if v.1.Going? then Stopped else v.1)
    decreases n
  {
    hide GroupDone;
    if k + 1 < n {
      StopEndsTheGroups(d, account, calendars, k, n - 1);
    }
  }

  /** or application. */
  lemma {:induction false} StopEndsTheApplications(d: Desk, pending: seq<(Application, Schedule)>, calendars: Calendars,
                                                   k: nat, n: nat)
    requires k < n <= |pending| && AppsTo(d, pending, calendars, k).0.site.patience == 0
    ensures var v, w := AppsTo(d, pending, calendars, k), AppsTo(d, pending, calendars, n);
            w == (v.0, if v.1.Going? then Stopped else v.1)
    decreases n
  {
    hide AppSwept;
    if k + 1 < n {
      StopEndsTheApplications(d, pending, calendars, k, n - 1);
    }
  }

  /** With the flag up from the start nothing is done at all. */
  lemma StoppedFromTheStart(account: Account, d: Desk, calendars: Calendars)
    requires d.site.patience == 0
    ensures Processed(d, account, calendars).0 == d
    ensures Processed(d, account, calendars).1.Going? <==>
            account.groups == [] && Pending(d.booked, account.applications) == []
  {
    hide Pending, GroupsTo, AppsTo;
    var n := |account.groups|;
    assert GroupsTo(d, account, calendars, 0) == (d, Going) by {
      NoGroupsYet(d, account, calendars);
    }
    if n > 0 {
      StopEndsTheGroups(d, account, calendars, 0, n);
    } else {
      var pending := Pending(d.booked, account.applications);
      NoApplicationsYet(d, pending, calendars);
      if pending != [] {
        StopEndsTheApplications(d, pending, calendars, 0, |pending|);
      }
    }
  }

  lemma NoGroupsYet(d: Desk, account: Account, calendars: Calendars)
    ensures GroupsTo(d, account, calendars, 0) == (d, Going)
  {
  }

  lemma NoApplicationsYet(d: Desk, pending: seq<(Application, Schedule)>, calendars: Calendars)
    ensures AppsTo(d, pending, calendars, 0) == (d, Going)
  {
  }

  /** How often one consulate looks at the flag: when its turn comes, and after a request of its own, unless it is the
      last. */
  function Looks(app: Application, calendars: Calendars, n: nat): nat
    requires n <= |app.target.consulates|
  {
    if n == 0 then 0
    else
      Looks(app, calendars, n - 1)
      + if Key(app.scheduleId, app.target.consulates[n - 1]) !in calendars && n < |app.target.consulates| then 2 else 1
  }

  lemma ReadingLooksNot(d: Desk, app: Application, schedule: Option<Schedule>, calendars: Calendars, fid: FacilityId)
    ensures ReadAt(d, app, schedule, calendars, fid).1.site.patience == d.site.patience
  {
    hide Hit, Tidy;
  }

  /** A visit that is not cut short has looked at the flag just that often. */
  lemma {:induction false} VisitLooksExactly(d: Desk, app: Application, schedule: Option<Schedule>,
                                             calendars: Calendars, n: nat)
    requires n <= |app.target.consulates| && VisitTo(d, app, schedule, calendars, n).status.Going?
    ensures d.site.patience == VisitTo(d, app, schedule, calendars, n).desk.site.patience + Looks(app, calendars, n)
  {
    hide ReadAt;
    if n > 0 {
      VisitLooksExactly(d, app, schedule, calendars, n - 1);
      var v := VisitTo(d, app, schedule, calendars, n - 1);
      ReadingLooksNot(StopCheck(v.desk).1, app, schedule, calendars, app.target.consulates[n - 1]);
    }
  }
}
