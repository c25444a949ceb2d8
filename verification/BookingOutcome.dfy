/** Which applications are booked after a phase: exactly those whose own booking request the site confirmed. */
module BookingOutcome {
  import opened Basics
  import opened Calendar
  import opened FanOut
  import opened BookingSpec
  import opened BookingChoice
  import opened BookingGroups
  import opened BookingSources
  import opened BookingPhase

  /** The i-th slot submitted after `d` is answered by the i-th of the replies `d` still has, and it was yes. */
  ghost predicate Confirmed(d: Desk, e: Desk, i: nat) {
    i < |e.submitted| - |d.submitted| && i < |d.site.bookings| && d.site.bookings[i]
  }

  /** From `d` to `e` each submission used up one reply, as long as there were any, and those confirmed became booked,
      and nobody else. */
  ghost predicate Settles(d: Desk, e: Desk) {
    d.submitted <= e.submitted
    && var n := |e.submitted| - |d.submitted|;
       && e.site.bookings == d.site.bookings[if n < |d.site.bookings| then n else |d.site.bookings|..]
       && forall x :: x in e.booked <==> x in d.booked || BookedBetween(d, e, x)
  }

  lemma SettlesNothing(d: Desk, e: Desk)
    requires e.submitted == d.submitted && e.booked == d.booked && e.site.bookings == d.site.bookings
    ensures Settles(d, e)
  {
  }

  lemma ConfirmedTwice(d: Desk, mid: Desk, e: Desk, i: nat)
    requires Settles(d, mid) && Settles(mid, e)
    ensures var m := |mid.submitted| - |d.submitted|;
            && (Confirmed(d, e, i) <==> Confirmed(d, mid, i) || (i >= m && Confirmed(mid, e, i - m)))
            && (Confirmed(d, mid, i) ==> e.submitted[|d.submitted| + i] == mid.submitted[|d.submitted| + i])
            && (Confirmed(d, e, i) && i >= m ==>
                  e.submitted[|d.submitted| + i] == e.submitted[|mid.submitted| + (i - m)])
  {
  }

  /** The id of a slot confirmed between the two. */
  ghost predicate BookedBetween(d: Desk, e: Desk, x: ScheduleId) {
    exists i: nat :: Confirmed(d, e, i) && e.submitted[|d.submitted| + i].scheduleId == x
  }

  lemma BookedBetweenTwice(d: Desk, mid: Desk, e: Desk, x: ScheduleId)
    requires Settles(d, mid) && Settles(mid, e)
    ensures BookedBetween(d, e, x) <==> BookedBetween(d, mid, x) || BookedBetween(mid, e, x)
  {
    var m := |mid.submitted| - |d.submitted|;
    forall i: nat
      ensures Confirmed(d, e, i) <==> Confirmed(d, mid, i) || (i >= m && Confirmed(mid, e, i - m))
      ensures Confirmed(d, mid, i) ==> e.submitted[|d.submitted| + i] == mid.submitted[|d.submitted| + i]
      ensures Confirmed(d, e, i) && i >= m ==> e.submitted[|d.submitted| + i] == e.submitted[|mid.submitted| + (i - m)]
    {
      ConfirmedTwice(d, mid, e, i);
    }
    assert m >= 0 by {
      hide Confirmed, BookedBetween;
    }
    hide Settles;
    if i: nat :| Confirmed(mid, e, i) && e.submitted[|mid.submitted| + i].scheduleId == x {
      assert Confirmed(mid, e, m + i - m) && Confirmed(d, e, m + i);
      assert e.submitted[|d.submitted| + (m + i)].scheduleId == x;
    }
  }

  lemma SettlesTwice(d: Desk, mid: Desk, e: Desk)
    requires Settles(d, mid) && Settles(mid, e)
    ensures Settles(d, e)
  {
    forall x
      ensures BookedBetween(d, e, x) <==> BookedBetween(d, mid, x) || BookedBetween(mid, e, x)
    {
      BookedBetweenTwice(d, mid, e, x);
    }
    hide BookedBetween, Confirmed;
  }

  lemma AttemptSettles(d: Desk, slot: Slot, schedule: Option<Schedule>)
    ensures Settles(d, Attempt(d, slot, schedule))
  {
    var e := Attempt(d, slot, schedule);
    if UnderCeiling(schedule, slot.day) {
      assert e.submitted[|d.submitted|] == slot;
      assert d.site.bookings != [] && d.site.bookings[0] ==>
               Confirmed(d, e, 0) && e.submitted[|d.submitted| + 0] == slot;
    }
    hide UnderCeiling;
  }

  /** Checking the stop flag does not either. */
  lemma SettlesAndStops(d: Desk, e: Desk)
    requires Settles(d, e)
    ensures Settles(d, StopCheck(e).1)
  {
    SettlesNothing(e, StopCheck(e).1);
    SettlesTwice(d, e, StopCheck(e).1);
  }

  // ---------------------------------------------------------------- reading settles nothing

  ghost predicate NoReplyUsed(d: Desk, e: Desk) {
    e.submitted == d.submitted && e.booked == d.booked && e.site.bookings == d.site.bookings
  }

  lemma VisitOneKeepsReplies(v: BookingSpec.Visit, app: Application, schedule: Option<Schedule>, calendars: Calendars,
                             n: nat)
    requires n < |app.target.consulates|
    ensures NoReplyUsed(v.desk, VisitOne(v, app, schedule, calendars, n).desk)
  {
    var fid := app.target.consulates[n];
    assert NoReplyUsed(v.desk, ReadAt(StopCheck(v.desk).1, app, schedule, calendars, fid).1) by {
      hide Hit, Tidy;
    }
    hide ReadAt;
  }

  lemma {:induction false} VisitKeepsReplies(d: Desk, app: Application, schedule: Option<Schedule>,
                                             calendars: Calendars, n: nat)
    requires n <= |app.target.consulates|
    ensures var e := VisitTo(d, app, schedule, calendars, n).desk;
            e.submitted == d.submitted && e.booked == d.booked && e.site.bookings == d.site.bookings
  {
    hide VisitOne;
    if n > 0 {
      VisitKeepsReplies(d, app, schedule, calendars, n - 1);
      VisitOneKeepsReplies(VisitTo(d, app, schedule, calendars, n - 1), app, schedule, calendars, n - 1);
    }
  }

  /** What an application's turn comes to: its visit, and at most one attempt. */
  lemma TurnIs(d: Desk, app: Application, schedule: Option<Schedule>, calendars: Calendars)
    ensures var v := VisitTo(d, app, schedule, calendars, |app.target.consulates|);
            var after := AppSwept(d, app, schedule, calendars).0;
            |v.used| <= |app.target.consulates|
            && (after == v.desk
                || (Candidates(app, schedule, v.used) != []
                    && after == Attempt(v.desk, Pick(app.target, Candidates(app, schedule, v.used)), schedule)))
  {
    VisitLength(d, app, schedule, calendars, |app.target.consulates|);
    hide VisitTo, Candidates, Pick, Attempt;
  }

  lemma AppSettles(d: Desk, app: Application, schedule: Option<Schedule>, calendars: Calendars)
    ensures Settles(d, AppSwept(d, app, schedule, calendars).0)
  {
    hide VisitTo, Candidates, Pick, Attempt, Settles, AppSwept;
    VisitKeepsReplies(d, app, schedule, calendars, |app.target.consulates|);
    TurnIs(d, app, schedule, calendars);
    var v := VisitTo(d, app, schedule, calendars, |app.target.consulates|);
    SettlesNothing(d, v.desk);
    if AppSwept(d, app, schedule, calendars).0 != v.desk {
      var slot := Pick(app.target, Candidates(app, schedule, v.used));
      AttemptSettles(v.desk, slot, schedule);
      SettlesTwice(d, v.desk, Attempt(v.desk, slot, schedule));
    }
  }

  lemma {:induction false} ConfirmsKeepReplies(d: Desk, fid: FacilityId, members: seq<ScheduleId>,
                                               shared: seq<seq<Day>>, n: nat)
    requires n <= |members| == |shared|
    ensures var e := ConfirmAll(d, fid, members, shared, n).desk;
            e.submitted == d.submitted && e.booked == d.booked && e.site.bookings == d.site.bookings
  {
    hide Tidy;
    if n > 0 {
      ConfirmsKeepReplies(d, fid, members, shared, n - 1);
    }
  }

  lemma {:induction false} SharedKeepsReplies(d: Desk, fid: FacilityId, members: seq<ScheduleId>, calendars: Calendars,
                                              n: nat)
    requires n <= |members|
    ensures var e := SharedDays(d, fid, members, calendars, n).desk;
            e.submitted == d.submitted && e.booked == d.booked && e.site.bookings == d.site.bookings
  {
    if n > 0 {
      SharedKeepsReplies(d, fid, members, calendars, n - 1);
    }
  }

  lemma {:induction false} TimesKeepReplies(d: Desk, members: seq<ScheduleId>, n: nat)
    requires n <= |members|
    ensures var e := AskTimes(d, members, n).desk;
            e.submitted == d.submitted && e.booked == d.booked && e.site.bookings == d.site.bookings
  {
    if n > 0 {
      TimesKeepReplies(d, members, n - 1);
    }
  }

  lemma GroupReadKeepsReplies(d: Desk, group: Group, byId: ById, fid: FacilityId, members: seq<ScheduleId>,
                              calendars: Calendars)
    ensures var e := GroupRead(d, group, byId, fid, members, calendars).desk;
            e.submitted == d.submitted && e.booked == d.booked && e.site.bookings == d.site.bookings
  {
    hide Joint, SharedDays, ConfirmAll, Wanted;
    var (fetched, d0) := GroupCalendars(d, fid, members, calendars);
    if fetched.Some? {
      SharedKeepsReplies(d0, fid, members, fetched.value, |members|);
      var shared := SharedDays(d0, fid, members, fetched.value, |members|);
      if shared.status.Going? {
        ConfirmsKeepReplies(shared.desk, fid, members, shared.days, |members|);
      }
    }
  }

  lemma {:induction false} AttemptsSettle(d: Desk, fid: FacilityId, day: Day, byId: ById, members: seq<ScheduleId>,
                                          times: seq<seq<Time>>, n: nat)
    requires n <= |members| == |times| && EveryoneHasATime(times)
    ensures Settles(d, AttemptAll(d, fid, day, byId, members, times, n))
  {
    hide Settles, Attempt;
    if n == 0 {
      SettlesNothing(d, d);
    } else {
      AttemptsSettle(d, fid, day, byId, members, times, n - 1);
      var before := AttemptAll(d, fid, day, byId, members, times, n - 1);
      assert times[n - 1] in times;
      var slot, schedule := MemberSlot(fid, day, members, times, n - 1), ScheduleOf(byId, members[n - 1]);
      AttemptSettles(before, slot, schedule);
      SettlesTwice(d, before, Attempt(before, slot, schedule));
    }
  }

  /** What booking a group comes to: nothing, asking for times, or one attempt per member after that. */
  lemma GroupBookingIs(chosen: Reading, group: Group, byId: ById, fid: FacilityId, members: seq<ScheduleId>)
    requires |chosen.days| == |members|
    ensures var asked := AskTimes(chosen.desk, members, |members|);
            var common := Joint(group, byId, members, chosen.days);
            var after := GroupBooked(chosen, group, byId, fid, members).0;
            || after == chosen.desk || after == asked.desk
            || (common != [] && |asked.times| == |members| && EveryoneHasATime(asked.times)
                && after == AttemptAll(asked.desk, fid, common[0], byId, members, asked.times, |members|))
  {
    hide Joint, AskTimes, AttemptAll, Total, EveryoneHasATime;
  }

  lemma GroupBookedSettles(chosen: Reading, group: Group, byId: ById, fid: FacilityId, members: seq<ScheduleId>)
    requires |chosen.days| == |members|
    ensures Settles(chosen.desk, GroupBooked(chosen, group, byId, fid, members).0)
  {
    GroupBookingIs(chosen, group, byId, fid, members);
    hide Joint, AskTimes, AttemptAll, EveryoneHasATime, GroupBooked, Settles;
    SettlesNothing(chosen.desk, chosen.desk);
    TimesKeepReplies(chosen.desk, members, |members|);
    var asked := AskTimes(chosen.desk, members, |members|);
    SettlesNothing(chosen.desk, asked.desk);
    var after := GroupBooked(chosen, group, byId, fid, members).0;
    if after != chosen.desk && after != asked.desk {
      var day := Joint(group, byId, members, chosen.days)[0];
      AttemptsSettle(asked.desk, fid, day, byId, members, asked.times, |members|);
      SettlesTwice(chosen.desk, asked.desk, after);
    }
  }

  /** What a group check comes to: its reading, and the booking if everything could be read. */
  lemma CheckIs(d: Desk, group: Group, byId: ById, fid: FacilityId, members: seq<ScheduleId>, calendars: Calendars)
    ensures var chosen := GroupRead(d, group, byId, fid, members, calendars);
            var after := GroupSwept(d, group, byId, fid, members, calendars).0;
            if chosen.status.Going? then after == GroupBooked(chosen, group, byId, fid, members).0
               else after == chosen.desk
  {
    hide GroupRead, GroupBooked;
  }

  lemma GroupSettles(d: Desk, group: Group, byId: ById, fid: FacilityId, members: seq<ScheduleId>, calendars: Calendars)
    ensures Settles(d, GroupSwept(d, group, byId, fid, members, calendars).0)
  {
    hide GroupRead, GroupBooked, GroupSwept, Settles;
    GroupReadKeepsReplies(d, group, byId, fid, members, calendars);
    CheckIs(d, group, byId, fid, members, calendars);
    var chosen := GroupRead(d, group, byId, fid, members, calendars);
    SettlesNothing(d, chosen.desk);
    if chosen.status.Going? {
      GroupBookedSettles(chosen, group, byId, fid, members);
      SettlesTwice(d, chosen.desk, GroupBooked(chosen, group, byId, fid, members).0);
    }
  }

  // ---------------------------------------------------------------- the loops

  lemma {:induction false} GroupToSettles(d: Desk, group: Group, byId: ById, members: seq<ScheduleId>,
                                          calendars: Calendars, n: nat)
    requires n <= |group.consulates|
    ensures Settles(d, GroupTo(d, group, byId, members, calendars, n).0)
  {
    hide Settles, GroupSwept, StopCheck;
    if n == 0 {
      SettlesNothing(d, d);
    } else {
      GroupToSettles(d, group, byId, members, calendars, n - 1);
      var d0 := GroupTo(d, group, byId, members, calendars, n - 1).0;
      var d1 := StopCheck(d0).1;
      SettlesAndStops(d, d0);
      var fid := group.consulates[n - 1];
      GroupSettles(d1, group, byId, fid, members, calendars);
      SettlesTwice(d, d1, GroupSwept(d1, group, byId, fid, members, calendars).0);
    }
  }

  lemma {:induction false} GroupsToSettles(d: Desk, account: Account, calendars: Calendars, n: nat)
    requires n <= |account.groups|
    ensures Settles(d, GroupsTo(d, account, calendars, n).0)
  {
    hide Settles, GroupTo, StopCheck, Unbooked, ByIdOf;
    if n == 0 {
      SettlesNothing(d, d);
    } else {
      GroupsToSettles(d, account, calendars, n - 1);
      var d0 := GroupsTo(d, account, calendars, n - 1).0;
      var d1 := StopCheck(d0).1;
      var group, byId := account.groups[n - 1], ByIdOf(account.applications);
      var members := Unbooked(d1.booked, group.members);
      SettlesAndStops(d, d0);
      GroupToSettles(d1, group, byId, members, calendars, |group.consulates|);
      SettlesTwice(d, d1, GroupTo(d1, group, byId, members, calendars, |group.consulates|).0);
    }
  }

  lemma {:induction false} AppsToSettles(d: Desk, pending: seq<(Application, Schedule)>, calendars: Calendars, n: nat)
    requires n <= |pending|
    ensures Settles(d, AppsTo(d, pending, calendars, n).0)
  {
    hide Settles, AppSwept, StopCheck;
    if n == 0 {
      SettlesNothing(d, d);
    } else {
      AppsToSettles(d, pending, calendars, n - 1);
      var d0 := AppsTo(d, pending, calendars, n - 1).0;
      var d1 := StopCheck(d0).1;
      SettlesAndStops(d, d0);
      AppSettles(d1, pending[n - 1].0, Some(pending[n - 1].1), calendars);
      SettlesTwice(d, d1, AppSwept(d1, pending[n - 1].0, Some(pending[n - 1].1), calendars).0);
    }
  }

  /** After an account's phase those booked are the ones booked before, and the ids of exactly those submitted slots
      whose own reply, in the order of submission, was yes. */
  lemma BookedExactly(account: Account, d: Desk, calendars: Calendars)
    ensures Settles(d, Processed(d, account, calendars).0)
  {
    hide Settles, GroupsTo, AppsTo, Pending;
    GroupsToSettles(d, account, calendars, |account.groups|);
    var (d0, status) := GroupsTo(d, account, calendars, |account.groups|);
    if status.Going? {
      var pending := Pending(d0.booked, account.applications);
      AppsToSettles(d0, pending, calendars, |pending|);
      SettlesTwice(d, d0, AppsTo(d0, pending, calendars, |pending|).0);
    }
  }

  // ---------------------------------------------------------------- nobody booked is attempted again

  lemma AppSubmitsItself(d: Desk, app: Application, schedule: Option<Schedule>, calendars: Calendars)
    ensures var after := AppSwept(d, app, schedule, calendars).0;
            d.submitted <= after.submitted
            && forall i :: |d.submitted| <= i < |after.submitted| ==> after.submitted[i].scheduleId == app.scheduleId
  {
    hide VisitTo, Pick, UnderCeiling, Candidates, AppSwept;
    VisitKeepsReplies(d, app, schedule, calendars, |app.target.consulates|);
    TurnIs(d, app, schedule, calendars);
    var v := VisitTo(d, app, schedule, calendars, |app.target.consulates|);
    if AppSwept(d, app, schedule, calendars).0 != v.desk {
      PickIsOneOfThem(app.target, Candidates(app, schedule, v.used));
      CandidatesAreItsOwn(app, schedule, v.used);
    }
  }

  lemma {:induction false} CandidatesAreItsOwn(app: Application, schedule: Option<Schedule>,
                                               used: seq<Option<seq<Day>>>)
    requires |used| <= |app.target.consulates|
    ensures forall slot :: slot in Candidates(app, schedule, used) ==> slot.scheduleId == app.scheduleId
  {
    hide AcceptableDays;
    if used != [] {
      CandidatesAreItsOwn(app, schedule, used[..|used| - 1]);
    }
  }

  lemma PickIsOneOfThem(t: Target, candidates: seq<Slot>)
    requires candidates != []
    ensures Pick(t, candidates) in candidates
  {
    LeastIsOneOfThem(t.consulates, candidates);
    hide Least;
  }

  lemma {:induction false} LeastIsOneOfThem(order: seq<FacilityId>, candidates: seq<Slot>)
    requires candidates != []
    ensures Least(order, candidates) in candidates
  {
    hide Before;
    if |candidates| > 1 {
      LeastIsOneOfThem(order, candidates[..|candidates| - 1]);
    }
  }

  lemma {:induction false} AppsSubmitPending(d: Desk, pending: seq<(Application, Schedule)>, calendars: Calendars,
                                             n: nat)
    requires n <= |pending|
    ensures var after := AppsTo(d, pending, calendars, n).0;
            d.submitted <= after.submitted
            && forall i :: |d.submitted| <= i < |after.submitted| ==>
                             exists a :: a in pending && a.0.scheduleId == after.submitted[i].scheduleId
  {
    hide AppSwept;
    if n > 0 {
      AppsSubmitPending(d, pending, calendars, n - 1);
      var d1 := StopCheck(AppsTo(d, pending, calendars, n - 1).0).1;
      AppSubmitsItself(d1, pending[n - 1].0, Some(pending[n - 1].1), calendars);
      assert pending[n - 1] in pending;
    }
  }

  /** No slot of the application loop is for an application that was booked by the end of the group loop, before the
      phase or in it. */
  lemma BookedByAGroupIsNotTriedAgain(account: Account, d: Desk, calendars: Calendars)
    ensures var d0 := GroupsTo(d, account, calendars, |account.groups|).0;
            var after := Processed(d, account, calendars).0;
            d0.submitted <= after.submitted
            && forall i :: |d0.submitted| <= i < |after.submitted| ==> after.submitted[i].scheduleId !in d0.booked
  {
    hide GroupsTo, AppsTo;
    var (d0, status) := GroupsTo(d, account, calendars, |account.groups|);
    if status.Going? {
      var pending := Pending(d0.booked, account.applications);
      PendingAreApplications(d0.booked, account.applications);
      hide Pending, EntriesApart;
      AppsSubmitPending(d0, pending, calendars, |pending|);
    }
  }
}
