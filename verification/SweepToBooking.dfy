/** From the plan of a sweep to the slots submitted at the end of it. */
module SweepToBooking {
  import opened Basics
  import opened Calendar
  import opened FanOut
  import PlannerEvidence
  import PlannerSpec
  import opened PlannerRuns
  import opened BookingSpec
  import opened BookingChoice
  import opened BookingSources
  import opened BookingPhase

  /** A day submitted in the booking phase was given by a request made in the phase itself, or is on the calendar the
      subscriber's own request would have returned in this sweep: over every run of sweeps, with every shared answer,
      failure, change of calendars and forgotten class in it, and whatever happens during the phase. */
  lemma EverySubmittedDayIsOnTheSubscribersCalendar(policy: PlannerSpec.Policy, steps: seq<Step>, ident: Key -> int,
                                                    calendar: (nat, int) -> seq<Day>, account: Account, d: Desk, n: nat)
    requires LegalRun(policy, steps) && steps != [] && steps[|steps| - 1].Sweep?
    requires HonestLog(ident, calendar, LogAfter(steps))
    requires ReadOnce(account) && SortedCalendars(FannedCalendars(steps[|steps| - 1].results))
    requires Unread(account, d, d.borrowed)
    requires |d.submitted| <= n < |Processed(d, account, FannedCalendars(steps[|steps| - 1].results)).0.submitted|
    ensures var after := Processed(d, account, FannedCalendars(steps[|steps| - 1].results)).0;
            var slot := after.submitted[n];
            var k := Key(slot.scheduleId, slot.facility);
            slot.day in calendar(|LogAfter(steps)| - 1, ident(k))
            || exists days: seq<Day> :: slot.day in days && (k, Some(days)) in after.heard - d.heard
  {
    var calendars := FannedCalendars(steps[|steps| - 1].results);
    EverySubmittedSlotIsSound(account, d, calendars);
    var after := Processed(d, account, calendars).0;
    hide Processed, ReadOnce, SortedCalendars, FannedCalendars;
    var slot := after.submitted[n];
    var k := Key(slot.scheduleId, slot.facility);
    assert Allowed(account, slot);
    var a :| a in account.applications && a.0.scheduleId == slot.scheduleId;
    hide Allowed;
    var days: seq<Day> :| slot.day in days && CanaryFree(k, days, after.heard, calendars, d.borrowed);
    if (k, Some(days)) !in after.heard {
      SharingIsSound(policy, steps, ident, calendar, k);
    }
  }

  /** This answer covers `k`, and was given by the subscriber itself or by a member of its class that is no canary. */
  ghost predicate ByOwnOrClassmate(st: PlannerSpec.Learned, r: PollResult, k: Key, days: seq<Day>) {
    && Covers(r.poll, k) && r.days == Some(days) && r.poller.Some?
    && var p := r.poller.value;
       p.scheduleId == k.scheduleId || (!p.canary && PlannerSpec.SameClass(st, k, Key(p.scheduleId, k.facility)))
  }

  /** The same with the classes spelled out: in every run of sweeps, with the last one's results fanned out and no
      calendar read twice, each slot submitted lies in a calendar read during the phase without a canary, or one that
      the subscriber or a non-canary member of its class was given in this sweep. */
  lemma NoSlotOnACanarysWordInAnyRun(policy: PlannerSpec.Policy, steps: seq<Step>, account: Account, d: Desk,
                                     borrowed: map<Key, ScheduleId>, n: nat)
    requires LegalRun(policy, steps) && steps != [] && steps[|steps| - 1].Sweep?
    requires ReadOnce(account) && Unread(account, d, FannedBorrowed(borrowed, steps[|steps| - 1].results))
    requires SortedCalendars(FannedCalendars(steps[|steps| - 1].results))
    requires |d.submitted| <= n < |Processed(d, account, FannedCalendars(steps[|steps| - 1].results)).0.submitted|
    ensures var results := steps[|steps| - 1].results;
            var after := Processed(d, account, FannedCalendars(results)).0;
            var slot := after.submitted[n];
            var k := Key(slot.scheduleId, slot.facility);
            exists days: seq<Day> ::
              slot.day in days
              && ((k, Some(days)) in after.heard - d.heard
                  || exists r :: r in results && ByOwnOrClassmate(StateAfter(steps[..|steps| - 1]), r, k, days))
  {
    var st, step := StateAfter(steps[..|steps| - 1]), steps[|steps| - 1];
    var results := step.results;
    NoSlotOnACanarysWord(account, d, borrowed, results);
    PlannedAnswersStayInClass(policy, st, step);
    var after := Processed(d, account, FannedCalendars(results)).0;
    assert TrustsNoCanary(account, d, borrowed, results);
    hide Processed, ReadOnce, Unread, SortedCalendars, FannedCalendars, FannedBorrowed, LegalRun, StateAfter, Legal;
    assert GivenWithoutCanary(results, after.heard - d.heard, after.submitted[n]);
    var slot := after.submitted[n];
    var k := Key(slot.scheduleId, slot.facility);
    var days: seq<Day> :|
      slot.day in days && ((k, Some(days)) in after.heard - d.heard || AnsweredWithoutCanary(results, k, days));
    if (k, Some(days)) !in after.heard - d.heard {
      var r :| r in results && Covers(r.poll, k) && r.days == Some(days) && r.poller.Some? && !FromCanary(r, k);
      assert PlannerEvidence.AnsweredInClass(st, r);
      assert ByOwnOrClassmate(st, r, k, days);
    }
  }
}
