/** Which slot one application submits. */
module BookingChoice {
  import opened Basics
  import opened Calendar
  import opened Days
  import opened FanOut
  import opened BookingSpec

  // ---------------------------------------------------------------- what is acceptable

  /** In the window, outside every exclusion, and never a move to a later day. */
  ghost predicate Bookable(t: Target, schedule: Option<Schedule>, day: Day) {
    InWindow(t, day) && MayMoveTo(schedule, day)
  }

  lemma {:induction false} ExcludedByFindsAnExclusion(exclusions: seq<(Day, Day)>, day: Day)
    ensures match ExcludedBy(exclusions, day)
            case None => forall x :: x in exclusions ==> !(x.0 <= day <= x.1)
            case Some(x) => x in exclusions && x.0 <= day <= x.1
  {
    if exclusions != [] {
      ExcludedByFindsAnExclusion(exclusions[1..], day);
      assert exclusions == [exclusions[0]] + exclusions[1..];
    }
  }

  lemma AcceptableExactly(t: Target, schedule: Option<Schedule>, day: Day)
    ensures Acceptable(t, schedule, day) <==> Bookable(t, schedule, day)
  {
    ExcludedByFindsAnExclusion(t.exclusions, day);
  }

  // ---------------------------------------------------------------- one calendar

  lemma {:induction false} AcceptableDaysAre(t: Target, schedule: Option<Schedule>, days: seq<Day>)
    ensures forall d :: d in AcceptableDays(t, schedule, days) <==> d in days && Bookable(t, schedule, d)
    ensures Sorted(days) && AcceptableDays(t, schedule, days) != [] ==>
              forall d :: d in days && Bookable(t, schedule, d) ==> AcceptableDays(t, schedule, days)[0] <= d
  {
    if days != [] {
      var rest := days[1..];
      AcceptableDaysAre(t, schedule, rest);
      AcceptableExactly(t, schedule, days[0]);
      assert days == [days[0]] + rest;
      assert Sorted(days) ==> Sorted(rest);
    }
  }

  /** Calendars come sorted from the site client. */
  ghost predicate SortedCalendars(calendars: Calendars) {
    forall k :: k in calendars && calendars[k].Some? ==> Sorted(calendars[k].value)
  }

  ghost predicate SortedUsed(used: seq<Option<seq<Day>>>) {
    forall i :: 0 <= i < |used| && used[i].Some? ==> Sorted(used[i].value)
  }

  ghost predicate SortedDays(days: Option<seq<Day>>) {
    days.Some? ==> Sorted(days.value)
  }

  lemma AskKeeps(d: Desk, k: Key)
    ensures var (reply, after) := AskDays(d, k);
            after.submitted == d.submitted && after.booked == d.booked && (reply.Answered? ==> SortedDays(reply.days))
  {
    hide Sorted;
    if d.site.days == [] || !d.site.days[0].Answered? || d.site.days[0].days.None? {
    } else {
      SortDaysSorts(d.site.days[0].days.value);
    }
  }

  lemma ReadKeeps(d: Desk, app: Application, schedule: Option<Schedule>, calendars: Calendars, fid: FacilityId)
    requires SortedCalendars(calendars)
    ensures var (reply, after) := ReadAt(d, app, schedule, calendars, fid);
            after.submitted == d.submitted && after.booked == d.booked && (reply.Answered? ==> SortedDays(reply.days))
  {
    hide Hit, AskDays;
    var k := Key(app.scheduleId, fid);
    AskKeeps(d, k);
    var d1 := if k in calendars then d else AskDays(d, k).1;
    AskKeeps(d1.(borrowed := d1.borrowed - {k}), k);
  }

  lemma SortedUsedAppend(used: seq<Option<seq<Day>>>, days: Option<seq<Day>>)
    requires SortedUsed(used) && SortedDays(days)
    ensures SortedUsed(used + [days])
  {
    hide Sorted;
    forall i | 0 <= i < |used| + 1 && (used + [days])[i].Some?
      ensures Sorted((used + [days])[i].value)
    {
      assert i < |used| ==> (used + [days])[i] == used[i];
    }
  }

  lemma {:induction false} UsedCalendarsAreSorted(d: Desk, app: Application, schedule: Option<Schedule>,
                                                  calendars: Calendars, n: nat)
    requires n <= |app.target.consulates| && SortedCalendars(calendars)
    ensures var v := VisitTo(d, app, schedule, calendars, n);
            SortedUsed(v.used) && v.desk.submitted == d.submitted && v.desk.booked == d.booked
            && |v.used| <= n && (v.status.Going? ==> |v.used| == n)
  {
    hide ReadAt, SortedCalendars;
    if n > 0 {
      UsedCalendarsAreSorted(d, app, schedule, calendars, n - 1);
      var v := VisitTo(d, app, schedule, calendars, n - 1);
      var d0 := StopCheck(v.desk).1;
      ReadKeeps(d0, app, schedule, calendars, app.target.consulates[n - 1]);
      var reply := ReadAt(d0, app, schedule, calendars, app.target.consulates[n - 1]).0;
      if reply.Answered? {
        SortedUsedAppend(v.used, reply.days);
      }
    }
  }

  // ---------------------------------------------------------------- candidates

  /** `slot` is the earliest bookable day of the i-th calendar used. */
  ghost predicate EarliestAt(app: Application, schedule: Option<Schedule>, used: seq<Option<seq<Day>>>, i: nat,
                             slot: Slot)
    requires |used| <= |app.target.consulates|
  {
    && i < |used| && used[i].Some?
    && slot == Slot(app.scheduleId, app.target.consulates[i], slot.day, None)
    && slot.day in used[i].value && Bookable(app.target, schedule, slot.day)
    && forall d :: d in used[i].value && Bookable(app.target, schedule, d) ==> slot.day <= d
  }

  ghost predicate HasBookable(app: Application, schedule: Option<Schedule>, days: Option<seq<Day>>) {
    days.Some? && exists d :: d in days.value && Bookable(app.target, schedule, d)
  }

  /** What the candidates are: one per calendar with a bookable day, the earliest one, in the order of the
      consulates. */
  ghost predicate CandidatesOf(app: Application, schedule: Option<Schedule>, used: seq<Option<seq<Day>>>,
                               candidates: seq<Slot>)
    requires |used| <= |app.target.consulates|
  {
    && (forall c :: c in candidates ==> exists i: nat :: EarliestAt(app, schedule, used, i, c))
    && (forall i: nat :: i < |used| && HasBookable(app, schedule, used[i]) ==>
                           exists c :: c in candidates && EarliestAt(app, schedule, used, i, c))
    && (candidates != [] ==>
          exists i: nat :: EarliestAt(app, schedule, used, i, candidates[0]) && NoneBefore(app, schedule, used, i))
  }

  ghost predicate NoneBefore(app: Application, schedule: Option<Schedule>, used: seq<Option<seq<Day>>>, i: nat)
    requires i <= |used|
  {
    forall j :: 0 <= j < i ==> !HasBookable(app, schedule, used[j])
  }

  /** A calendar without a bookable day changes nothing but the length. */
  lemma NothingAdded(app: Application, schedule: Option<Schedule>, used: seq<Option<seq<Day>>>, candidates: seq<Slot>)
    requires 0 < |used| <= |app.target.consulates|
    requires CandidatesOf(app, schedule, used[..|used| - 1], candidates)
    requires !HasBookable(app, schedule, used[|used| - 1])
    ensures CandidatesOf(app, schedule, used, candidates)
  {
    hide Bookable, HasBookable;
    var front := used[..|used| - 1];
    forall i: nat, c | EarliestAt(app, schedule, front, i, c)
      ensures EarliestAt(app, schedule, used, i, c)
    {
    }
    forall c | c in candidates
      ensures exists i: nat :: EarliestAt(app, schedule, used, i, c)
    {
      var i: nat :| EarliestAt(app, schedule, front, i, c);
      assert EarliestAt(app, schedule, used, i, c);
    }
    forall i: nat | i < |used| && HasBookable(app, schedule, used[i])
      ensures exists c :: c in candidates && EarliestAt(app, schedule, used, i, c)
    {
      assert front[i] == used[i];
      var c :| c in candidates && EarliestAt(app, schedule, front, i, c);
      assert EarliestAt(app, schedule, used, i, c);
    }
    if candidates != [] {
      var i: nat :| EarliestAt(app, schedule, front, i, candidates[0]) && NoneBefore(app, schedule, front, i);
      assert EarliestAt(app, schedule, used, i, candidates[0]);
      assert NoneBefore(app, schedule, used, i);
    }
  }

  lemma OneAdded(app: Application, schedule: Option<Schedule>, used: seq<Option<seq<Day>>>, candidates: seq<Slot>,
                 last: Slot)
    requires 0 < |used| <= |app.target.consulates|
    requires CandidatesOf(app, schedule, used[..|used| - 1], candidates)
    requires EarliestAt(app, schedule, used, |used| - 1, last)
    ensures CandidatesOf(app, schedule, used, candidates + [last])
  {
    hide Bookable, HasBookable;
    var n, front, all := |used| - 1, used[..|used| - 1], candidates + [last];
    assert last in all by {
      assert all[|candidates|] == last;
    }
    forall c | c in all
      ensures exists i: nat :: EarliestAt(app, schedule, used, i, c)
    {
      if c in candidates {
        var i: nat :| EarliestAt(app, schedule, front, i, c);
        assert EarliestAt(app, schedule, used, i, c);
      } else {
        assert c == last;
      }
    }
    forall i: nat | i < |used| && HasBookable(app, schedule, used[i])
      ensures exists c :: c in all && EarliestAt(app, schedule, used, i, c)
    {
      if i < n {
        assert front[i] == used[i];
        var c :| c in candidates && EarliestAt(app, schedule, front, i, c);
        assert c in all && EarliestAt(app, schedule, used, i, c);
      } else {
        assert last in all && EarliestAt(app, schedule, used, i, last);
      }
    }
    if candidates != [] {
      var i: nat :| EarliestAt(app, schedule, front, i, candidates[0]) && NoneBefore(app, schedule, front, i);
      assert all[0] == candidates[0];
      assert EarliestAt(app, schedule, used, i, all[0]);
      assert NoneBefore(app, schedule, used, i);
    } else {
      forall j | 0 <= j < n
        ensures !HasBookable(app, schedule, used[j])
      {
        assert front[j] == used[j];
      }
      assert all[0] == last;
      assert NoneBefore(app, schedule, used, n);
    }
  }

  lemma {:induction false} CandidatesAre(app: Application, schedule: Option<Schedule>, used: seq<Option<seq<Day>>>)
    requires |used| <= |app.target.consulates| && SortedUsed(used)
    ensures CandidatesOf(app, schedule, used, Candidates(app, schedule, used))
  {
    hide AcceptableDays;
    if used != [] {
      var n := |used| - 1;
      var front := used[..n];
      CandidatesAre(app, schedule, front);
      hide CandidatesOf;
      var before := Candidates(app, schedule, front);
      if used[n].None? {
        NothingAdded(app, schedule, used, before);
      } else {
        AcceptableDaysAre(app.target, schedule, used[n].value);
        var acceptable := AcceptableDays(app.target, schedule, used[n].value);
        if acceptable == [] {
          assert forall d :: d in used[n].value ==> d in acceptable || !Bookable(app.target, schedule, d);
          NothingAdded(app, schedule, used, before);
        } else {
          assert acceptable[0] in acceptable;
          OneAdded(app, schedule, used, before, Slot(app.scheduleId, app.target.consulates[n], acceptable[0], None));
        }
      }
    }
  }

  /** The preference index is the consulate's first place in the list. */
  lemma {:induction false} IndexOfIsFirst(order: seq<FacilityId>, fid: FacilityId)
    requires fid in order
    ensures IndexOf(order, fid) < |order| && order[IndexOf(order, fid)] == fid
    ensures forall j :: 0 <= j < IndexOf(order, fid) ==> order[j] != fid
  {
    if order[0] != fid {
      assert order == [order[0]] + order[1..];
      IndexOfIsFirst(order[1..], fid);
    }
  }

  lemma {:induction false} LeastIsLeast(order: seq<FacilityId>, candidates: seq<Slot>)
    requires candidates != []
    ensures Least(order, candidates) in candidates
    ensures forall c :: c in candidates ==> !Before(order, c, Least(order, candidates))
  {
    if |candidates| > 1 {
      LeastIsLeast(order, candidates[..|candidates| - 1]);
      assert candidates == candidates[..|candidates| - 1] + [candidates[|candidates| - 1]];
    }
  }

  // ---------------------------------------------------------------- the optimum

  /** No bookable day of any calendar used beats the slot: with prefer_earliest the least (day, preference
      index); otherwise the earliest day at the first listed consulate that has one. */
  ghost predicate Optimum(app: Application, schedule: Option<Schedule>, used: seq<Option<seq<Day>>>, slot: Slot)
    requires |used| <= |app.target.consulates|
  {
    exists i: nat :: EarliestAt(app, schedule, used, i, slot) &&
                     forall j, day | 0 <= j < |used| && used[j].Some? && day in used[j].value
                            && Bookable(app.target, schedule, day) ::
                  if app.target.preferEarliest then
                    slot.day < day || (slot.day == day && IndexOf(app.target.consulates, slot.facility)
                                                          <= IndexOf(app.target.consulates, app.target.consulates[j]))
                  else i < j || (i == j && slot.day <= day)
  }

  lemma EarliestIsEarliest(app: Application, schedule: Option<Schedule>, used: seq<Option<seq<Day>>>,
                           candidates: seq<Slot>, j: nat, day: Day)
    returns (c: Slot)
    requires j < |used| <= |app.target.consulates| && CandidatesOf(app, schedule, used, candidates)
    requires used[j].Some? && day in used[j].value && Bookable(app.target, schedule, day)
    ensures c in candidates && c.facility == app.target.consulates[j] && c.day <= day
  {
    hide Bookable;
    assert HasBookable(app, schedule, used[j]);
    c :| c in candidates && EarliestAt(app, schedule, used, j, c);
  }

  lemma LeastIsTheOptimum(app: Application, schedule: Option<Schedule>, used: seq<Option<seq<Day>>>,
                          candidates: seq<Slot>)
    requires |used| <= |app.target.consulates| && app.target.preferEarliest
    requires CandidatesOf(app, schedule, used, candidates) && candidates != []
    ensures Optimum(app, schedule, used, Least(app.target.consulates, candidates))
  {
    hide Bookable;
    var order := app.target.consulates;
    LeastIsLeast(order, candidates);
    hide Least;
    var slot := Least(order, candidates);
    var i: nat :| EarliestAt(app, schedule, used, i, slot);
    forall j, day | 0 <= j < |used| && used[j].Some? && day in used[j].value && Bookable(app.target, schedule, day)
      ensures slot.day < day || (slot.day == day && IndexOf(order, slot.facility) <= IndexOf(order, order[j]))
    {
      var c := EarliestIsEarliest(app, schedule, used, candidates, j, day);
      hide CandidatesOf;
      assert !Before(order, c, slot);
    }
    hide CandidatesOf, EarliestAt;
  }

  lemma FirstIsTheOptimum(app: Application, schedule: Option<Schedule>, used: seq<Option<seq<Day>>>,
                          candidates: seq<Slot>)
    requires |used| <= |app.target.consulates| && !app.target.preferEarliest
    requires CandidatesOf(app, schedule, used, candidates) && candidates != []
    ensures Optimum(app, schedule, used, candidates[0])
  {
    hide Bookable;
    var i: nat :| EarliestAt(app, schedule, used, i, candidates[0]) && NoneBefore(app, schedule, used, i);
    hide CandidatesOf;
    forall j, day | 0 <= j < |used| && used[j].Some? && day in used[j].value && Bookable(app.target, schedule, day)
      ensures i < j || (i == j && candidates[0].day <= day)
    {
      assert HasBookable(app, schedule, used[j]);
    }
  }

  lemma PickIsTheOptimum(app: Application, schedule: Option<Schedule>, used: seq<Option<seq<Day>>>)
    requires |used| <= |app.target.consulates| && SortedUsed(used)
    ensures Candidates(app, schedule, used) != []
            <==> exists i :: 0 <= i < |used| && HasBookable(app, schedule, used[i])
    ensures Candidates(app, schedule, used) != [] ==>
              Optimum(app, schedule, used, Pick(app.target, Candidates(app, schedule, used)))
  {
    hide Bookable, Optimum, Candidates, Least;
    CandidatesAre(app, schedule, used);
    var candidates := Candidates(app, schedule, used);
    if candidates != [] {
      var i: nat :| EarliestAt(app, schedule, used, i, candidates[0]);
      assert HasBookable(app, schedule, used[i]);
      hide CandidatesOf;
      if app.target.preferEarliest {
        LeastIsTheOptimum(app, schedule, used, candidates);
      } else {
        FirstIsTheOptimum(app, schedule, used, candidates);
      }
    }
  }

  /** One application submits nothing or exactly one slot: it submits one if and only if its visit was not cut
      short and some calendar used holds a bookable day, and then it is the optimum of the calendars used. */
  lemma ChosenSlotIsTheOptimum(d: Desk, app: Application, schedule: Option<Schedule>, calendars: Calendars)
    requires SortedCalendars(calendars)
    ensures var v := VisitTo(d, app, schedule, calendars, |app.target.consulates|);
            var after := AppSwept(d, app, schedule, calendars);
            |v.used| <= |app.target.consulates|
            && if v.status.Going? && exists i :: 0 <= i < |v.used| && HasBookable(app, schedule, v.used[i]) then
              exists slot :: after.0.submitted == d.submitted + [slot] && Optimum(app, schedule, v.used, slot)
            else after.0.submitted == d.submitted
  {
    hide Bookable, SortedUsed, SortedCalendars, Candidates, HasBookable, Acceptable, VisitTo, Pick;
    var v := VisitTo(d, app, schedule, calendars, |app.target.consulates|);
    UsedCalendarsAreSorted(d, app, schedule, calendars, |app.target.consulates|);
    if v.status.Going? {
      PickIsTheOptimum(app, schedule, v.used);
      if Candidates(app, schedule, v.used) != [] {
        var slot := Pick(app.target, Candidates(app, schedule, v.used));
        OptimumMayBeAttempted(app, schedule, v.used, slot);
        hide Optimum;
        assert Attempt(v.desk, slot, schedule).submitted == d.submitted + [slot];
      }
    }
  }

  lemma OptimumMayBeAttempted(app: Application, schedule: Option<Schedule>, used: seq<Option<seq<Day>>>, slot: Slot)
    requires |used| <= |app.target.consulates| && Optimum(app, schedule, used, slot)
    ensures UnderCeiling(schedule, slot.day)
  {
    AcceptableExactly(app.target, schedule, slot.day);
  }

  /** A reschedule whose current date is absent or unreadable is never attempted. */
  lemma UnreadableDatesSubmitNothing(d: Desk, app: Application, schedule: Schedule, calendars: Calendars)
    requires SortedCalendars(calendars) && schedule.isReschedule && schedule.current.None?
    ensures AppSwept(d, app, Some(schedule), calendars).0.submitted == d.submitted
  {
    ChosenSlotIsTheOptimum(d, app, Some(schedule), calendars);
  }
}
