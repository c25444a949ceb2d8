/** Handing one request's answer back to everyone it covers. */
module FanOut {
  import opened Basics
  import opened Calendar
  import opened PlannerSpec

  type Calendars = map<Key, Option<seq<Day>>>

  function CoveredKeys(r: PollResult): set<Key> {
    KeysAt(SeqSet(r.poll.covers), r.poll.facility)
  }

  /** The subscriber `k` got this answer from a canary that is not itself. */
  predicate FromCanary(r: PollResult, k: Key) {
    r.poller.Some? && r.poller.value.canary && r.poller.value.scheduleId != k.scheduleId
  }

  function FannedCalendars(results: seq<PollResult>): Calendars {
    if results == [] then map[]
    else
      var r := results[|results| - 1];
      FannedCalendars(results[..|results| - 1]) + map k | k in CoveredKeys(r) :: r.days
  }

  /** Which answers are borrowed from a canary, and from whom, once these results are fanned out. */
  function FannedBorrowed(borrowed: map<Key, ScheduleId>, results: seq<PollResult>): map<Key, ScheduleId> {
    if results == [] then borrowed
    else
      var r := results[|results| - 1];
      (FannedBorrowed(borrowed, results[..|results| - 1]) - CoveredKeys(r))
      + map k | k in CoveredKeys(r) && FromCanary(r, k) :: r.poller.value.scheduleId
  }

  /** Who answered for each covered calendar. */
  function FannedSources(results: seq<PollResult>): map<Key, Option<Poller>> {
    if results == [] then map[]
    else
      var r := results[|results| - 1];
      FannedSources(results[..|results| - 1]) + map k | k in CoveredKeys(r) :: r.poller
  }

  /** A fanned-out entry comes from a result that covers it, and names that result's answerer. */
  lemma {:induction false} FannedFromAResult(results: seq<PollResult>, k: Key)
    ensures k in FannedCalendars(results) <==> exists r :: r in results && k in CoveredKeys(r)
    ensures k in FannedCalendars(results) <==> k in FannedSources(results)
    ensures k in FannedCalendars(results) ==>
              exists r :: r in results && k in CoveredKeys(r) && FannedCalendars(results)[k] == r.days
                          && FannedSources(results)[k] == r.poller
  {
    if results != [] {
      var front, r := results[..|results| - 1], results[|results| - 1];
      FannedFromAResult(front, k);
      assert results == front + [r];
      assert forall q :: q in results <==> q in front || q == r;
    }
  }

  /** For every key just fanned out, the borrowed table agrees with whoever answered;
      every other entry is left alone. */
  lemma {:induction false} BorrowedAgreesWithAnswerer(borrowed: map<Key, ScheduleId>, results: seq<PollResult>, k: Key)
    ensures var after := FannedBorrowed(borrowed, results);
            var sources := FannedSources(results);
            if k in FannedCalendars(results) then
              k in sources
              && (k in after <==>
                    sources[k].Some? && sources[k].value.canary && sources[k].value.scheduleId != k.scheduleId)
              && (k in after ==> after[k] == sources[k].value.scheduleId)
            else
              (k in after <==> k in borrowed) && (k in after ==> after[k] == borrowed[k])
  {
    if results != [] {
      BorrowedAgreesWithAnswerer(borrowed, results[..|results| - 1], k);
      FannedFromAResult(results[..|results| - 1], k);
    }
  }
}
