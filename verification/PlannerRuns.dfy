/** Whole runs of plan, ask, observe and forget: classes rest on evidence, and every
    shared answer is the answer the subscriber would have got itself. */
module PlannerRuns {
  import opened Basics
  import opened Calendar
  import opened PlannerSpec
  import opened PlannerEvidence
  import opened FanOut

  datatype Step =
    | Sweep(subs: set<Subscription>, canaries: seq<Poller>, sweep: int, polls: seq<PollView>, results: Round)
    | Forget(who: Option<ScheduleId>)

  function PollsOf(results: Round): seq<PollView> {
    seq(|results|, i requires 0 <= i < |results| => results[i].poll)
  }

  /** What the executor may hand back: any of the polls, each once, in any order, answered by a candidate or by
      nobody. */
  ghost predicate ResultsOk(polls: seq<PollView>, results: Round) {
    && multiset(PollsOf(results)) <= multiset(polls)
    && forall r :: r in results ==>
      && r.poll in polls
      && (r.poller.Some? ==> r.poller.value in r.poll.candidates)
      && (r.days.Some? ==> r.poller.Some?)
  }

  ghost predicate Legal(policy: Policy, st: Learned, step: Step) {
    match step
    case Sweep(subs, canaries, sweep, polls, results) =>
      OneKeyOneSubscription(subs) && IsPlan(policy, st, subs, canaries, sweep, polls) && ResultsOk(polls, results)
    case Forget(_) => true
  }

  function StateAfter(steps: seq<Step>): Learned {
    if steps == [] then NOTHING_LEARNED
    else
      var before := StateAfter(steps[..|steps| - 1]);
      match steps[|steps| - 1]
      case Sweep(_, _, sweep, _, results) => Observed(before, results, sweep)
      case Forget(who) => Forgotten(before, who)
  }

  function LogAfter(steps: seq<Step>): seq<Round> {
    if steps == [] then []
    else
      var before := LogAfter(steps[..|steps| - 1]);
      match steps[|steps| - 1]
      case Sweep(_, _, _, _, results) => before + [results]
      case Forget(_) => before
  }

  ghost predicate LegalRun(policy: Policy, steps: seq<Step>) {
    steps != [] ==>
      && LegalRun(policy, steps[..|steps| - 1])
      && Legal(policy, StateAfter(steps[..|steps| - 1]), steps[|steps| - 1])
  }

  lemma AtTheStart(policy: Policy)
    ensures LegalRun(policy, []) && StateAfter([]) == NOTHING_LEARNED
  {
  }

  lemma OneMore(policy: Policy, steps: seq<Step>, step: Step)
    requires step.Sweep?
    ensures LegalRun(policy, steps + [step]) <==> LegalRun(policy, steps) && Legal(policy, StateAfter(steps), step)
    ensures StateAfter(steps + [step]) == Observed(StateAfter(steps), step.results, step.sweep)
    ensures LogAfter(steps + [step]) == LogAfter(steps) + [step.results]
  {
    assert (steps + [step])[..|steps|] == steps;
    hide Legal, Observed;
  }

  // ---------------------------------------------------------------- what a plan promises each subscriber

  /** A poll covering a subscriber is that subscriber's own, or its class's. */
  ghost predicate Serves(policy: Policy, st: Learned, sweep: int, p: PollView, s: Subscription) {
    && s.AsPoller() in p.candidates
    && (p.candidates == [s.AsPoller()] || (policy.enabled && !Due(st, policy.reverify, s.KeyOf(), sweep)))
    && forall c :: c in p.candidates ==>
         c == s.AsPoller() || SameClass(st, s.KeyOf(), Key(c.scheduleId, p.facility))
  }

  lemma CoveringPollIs(policy: Policy, st: Learned, subs: set<Subscription>, canaries: seq<Poller>, sweep: int,
                       polls: seq<PollView>, p: PollView, x: ScheduleId)
    requires IsPlan(policy, st, subs, canaries, sweep, polls)
    requires p in polls && x in p.covers
    ensures exists s :: s in subs && s.KeyOf() == Key(x, p.facility) && Serves(policy, st, sweep, p, s)
  {
    var i :| 0 <= i < |polls| && polls[i] == p;
    if policy.enabled {
      PollOfPlan(st, policy.reverify, subs, canaries, sweep, polls, i);
      ShapedPollServes(policy, st, subs, canaries, sweep, p, x);
    } else {
      assert AsksForItself(subs, polls[i]);
      var s :| s in subs && p == SoloPoll(s, NoLabel);
      SoloServes(policy, st, sweep, p, s, x);
    }
  }

  lemma PollOfPlan(st: Learned, reverify: int, subs: set<Subscription>, canaries: seq<Poller>, sweep: int,
                   polls: seq<PollView>, i: nat)
    requires PlanOk(st, reverify, subs, canaries, sweep, polls) && i < |polls|
    ensures WellShaped(st, reverify, subs, canaries, sweep, polls[i])
  {
  }

  lemma PlanPartitions(policy: Policy, st: Learned, subs: set<Subscription>, canaries: seq<Poller>, sweep: int,
                       polls: seq<PollView>)
    requires IsPlan(policy, st, subs, canaries, sweep, polls)
    ensures Partitions(subs, polls)
  {
  }

  lemma SoloServes(policy: Policy, st: Learned, sweep: int, p: PollView, s: Subscription, x: ScheduleId)
    requires (p == SoloPoll(s, NoLabel) || p == SoloPoll(s, Calibrating)) && x in p.covers
    ensures s.KeyOf() == Key(x, p.facility) && Serves(policy, st, sweep, p, s)
  {
  }

  lemma ShapedPollServes(policy: Policy, st: Learned, subs: set<Subscription>, canaries: seq<Poller>, sweep: int,
                         p: PollView, x: ScheduleId)
    requires policy.enabled && WellShaped(st, policy.reverify, subs, canaries, sweep, p) && x in p.covers
    ensures exists s :: s in subs && s.KeyOf() == Key(x, p.facility) && Serves(policy, st, sweep, p, s)
  {
    if s :| s in subs && (p == SoloPoll(s, NoLabel) || p == SoloPoll(s, Calibrating)) {
      SoloServes(policy, st, sweep, p, s, x);
    } else if c :| Probed(st, policy.reverify, subs, canaries, sweep, p.facility, c) && p == ProbePoll(p.facility, c) {
      assert false;
    } else {
      var cid :| ClassPoll(st, policy.reverify, subs, canaries, sweep, p, cid);
      ClassPollServes(policy, st, subs, canaries, sweep, p, cid, x);
    }
  }

  lemma ClassPollServes(policy: Policy, st: Learned, subs: set<Subscription>, canaries: seq<Poller>, sweep: int,
                        p: PollView, cid: int, x: ScheduleId)
    requires policy.enabled && ClassPoll(st, policy.reverify, subs, canaries, sweep, p, cid) && x in p.covers
    ensures exists s :: s in subs && s.KeyOf() == Key(x, p.facility) && Serves(policy, st, sweep, p, s)
  {
    ClassPollCandidates(st, policy.reverify, subs, canaries, sweep, p, cid);
    var s :| s in subs && InGroup(st, policy.reverify, sweep, s, p.facility, cid) && s.scheduleId == x;
    assert s.AsPoller() in Fallbacks(p);
    assert Serves(policy, st, sweep, p, s);
  }

  /** Every candidate of a class poll is in the class. */
  lemma ClassPollCandidates(st: Learned, reverify: int, subs: set<Subscription>, canaries: seq<Poller>, sweep: int,
                            p: PollView, cid: int)
    requires ClassPoll(st, reverify, subs, canaries, sweep, p, cid)
    ensures forall c :: c in p.candidates ==> InClass(st, p.facility, c, cid)
  {
    var own := OwnCanaries(st, canaries, p.facility, cid);
    OwnCanariesAre(st, canaries, p.facility, cid);
    assert p.candidates == First(p) + Fallbacks(p);
    forall c | c in First(p)
      ensures InClass(st, p.facility, c, cid)
    {
      if p.tag == NoLabel {
        assert c in multiset(First(p));
        assert c in multiset(own);
      }
    }
  }

  /** The plan partitions the work: one poll per wanted calendar, made by the subscriber itself or by classmates,
      and by others only while the subscriber's last calibration is recent enough. */
  lemma PlanPartitionsTheWork(policy: Policy, st: Learned, subs: set<Subscription>, canaries: seq<Poller>, sweep: int,
                              polls: seq<PollView>, s: Subscription)
    requires OneKeyOneSubscription(subs) && IsPlan(policy, st, subs, canaries, sweep, polls) && s in subs
    ensures exists i :: 0 <= i < |polls| && Covers(polls[i], s.KeyOf())
    ensures forall i, j ::
              0 <= i < |polls| && 0 <= j < |polls| && Covers(polls[i], s.KeyOf()) && Covers(polls[j], s.KeyOf()) ==>
                i == j
    ensures forall i, c :: 0 <= i < |polls| && Covers(polls[i], s.KeyOf()) && c in polls[i].candidates ==>
              c == s.AsPoller() || SameClass(st, s.KeyOf(), Key(c.scheduleId, s.facility))
    ensures forall i, c ::
              0 <= i < |polls| && Covers(polls[i], s.KeyOf()) && c in polls[i].candidates && c != s.AsPoller() ==>
              s.KeyOf() in st.calibrated && (policy.reverify > 0 ==> sweep - st.calibrated[s.KeyOf()] < policy.reverify)
    ensures forall i :: 0 <= i < |polls| && Covers(polls[i], s.KeyOf()) ==> s.AsPoller() in polls[i].candidates
  {
    PlanPartitions(policy, st, subs, canaries, sweep, polls);
    forall i | 0 <= i < |polls| && Covers(polls[i], s.KeyOf())
      ensures Serves(policy, st, sweep, polls[i], s)
    {
      CoveringPollIs(policy, st, subs, canaries, sweep, polls, polls[i], s.scheduleId);
    }
  }

  lemma PlannedAnswersStayInClass(policy: Policy, st: Learned, step: Step)
    requires step.Sweep? && Legal(policy, st, step)
    ensures AllAnsweredInClass(st, step.results)
  {
    forall r, x | r in step.results && x in r.poll.covers && r.poller.Some?
      ensures x == r.poller.value.scheduleId
              || SameClass(st, Key(x, r.poll.facility), Key(r.poller.value.scheduleId, r.poll.facility))
    {
      CoveringPollIs(policy, st, step.subs, step.canaries, step.sweep, step.polls, r.poll, x);
      var s :| s in step.subs && s.KeyOf() == Key(x, r.poll.facility) && Serves(policy, st, step.sweep, r.poll, s);
    }
  }

  // ---------------------------------------------------------------- every run

  /** In every run, equal class ids at one consulate imply a chain of same-sweep, non-empty, equal-ETag answers,
      and the next id is above every id in use. */
  lemma {:induction false} ClassesRestOnEvidence(policy: Policy, steps: seq<Step>)
    requires LegalRun(policy, steps)
    ensures Evidenced(StateAfter(steps), LogAfter(steps))
  {
    if steps != [] {
      var front, step := steps[..|steps| - 1], steps[|steps| - 1];
      ClassesRestOnEvidence(policy, front);
      match step {
        case Sweep(_, _, sweep, _, results) =>
          PlannedAnswersStayInClass(policy, StateAfter(front), step);
          ObservingKeepsEvidence(StateAfter(front), LogAfter(front), results, sweep);
        case Forget(who) =>
          ForgettingKeepsEvidence(StateAfter(front), LogAfter(front), who);
      }
    }
  }

  // ---------------------------------------------------------------- the site

  /** The site as an oracle.  `ident` says which calendar a key reads and never changes; `calendar` gives the days of
      a calendar in a sweep.  Answers are honest, and equal ETags on non-empty answers of one sweep name one
      calendar. */
  ghost predicate Honest(ident: Key -> int, calendar: (nat, int) -> seq<Day>, t: nat, round: Round) {
    && (forall r :: r in round && r.days.Some? ==>
         r.poller.Some? && r.days.value == calendar(t, ident(Key(r.poller.value.scheduleId, r.poll.facility))))
    && (forall i, j, fid :: 0 <= i < |round| && 0 <= j < |round| && Matches(round[i], round[j], fid) ==>
         ident(Key(round[i].poller.value.scheduleId, fid)) == ident(Key(round[j].poller.value.scheduleId, fid)))
  }

  ghost predicate HonestLog(ident: Key -> int, calendar: (nat, int) -> seq<Day>, log: seq<Round>) {
    forall t :: 0 <= t < |log| ==> Honest(ident, calendar, t, log[t])
  }

  lemma {:induction false} ChainKeepsIdentity(ident: Key -> int, calendar: (nat, int) -> seq<Day>, log: seq<Round>,
                                              fid: FacilityId, path: seq<ScheduleId>)
    requires HonestLog(ident, calendar, log) && path != [] && Chain(log, fid, path)
    ensures ident(Key(path[0], fid)) == ident(Key(path[|path| - 1], fid))
    decreases |path|
  {
    if |path| > 1 {
      var rest := path[1..];
      forall i {:trigger rest[i]} | 0 <= i < |rest| - 1
        ensures Edge(log, fid, rest[i], rest[i + 1])
      {
        assert path[i + 1] == rest[i];
      }
      ChainKeepsIdentity(ident, calendar, log, fid, rest);
      assert Edge(log, fid, path[0], path[1]);
      var t :| 0 <= t < |log| && Witnessed(log[t], fid, path[0], path[1]);
      assert Honest(ident, calendar, t, log[t]);
    }
  }

  /** Classmates read the same calendar. */
  lemma ClassmatesReadOneCalendar(ident: Key -> int, calendar: (nat, int) -> seq<Day>, log: seq<Round>,
                                  st: Learned, a: Key, b: Key)
    requires HonestLog(ident, calendar, log) && Evidenced(st, log)
    requires SameClass(st, a, b) && a.facility == b.facility
    ensures ident(a) == ident(b)
  {
    assert Linked(log, a.facility, a.scheduleId, b.scheduleId);
    var path :| ChainBetween(log, a.facility, path, a.scheduleId, b.scheduleId);
    ChainKeepsIdentity(ident, calendar, log, a.facility, path);
  }

  lemma {:induction false} EarlierLogIsHonest(ident: Key -> int, calendar: (nat, int) -> seq<Day>, log: seq<Round>,
                                              round: Round)
    requires HonestLog(ident, calendar, log + [round])
    ensures HonestLog(ident, calendar, log) && Honest(ident, calendar, |log|, round)
  {
    forall t | 0 <= t < |log|
      ensures Honest(ident, calendar, t, log[t])
    {
      assert (log + [round])[t] == log[t];
    }
    assert (log + [round])[|log|] == round;
  }

  /** Sharing is sound: in every run, whatever calendars change, requests fail or come back empty, the calendar fanned
      out to a subscriber is missing, or exactly what that subscriber's own request would have returned that sweep. */
  lemma SharingIsSound(policy: Policy, steps: seq<Step>, ident: Key -> int, calendar: (nat, int) -> seq<Day>, k: Key)
    requires LegalRun(policy, steps) && steps != [] && steps[|steps| - 1].Sweep?
    requires HonestLog(ident, calendar, LogAfter(steps))
    ensures var now: nat := |LogAfter(steps)| - 1;
            var shared := FannedCalendars(steps[|steps| - 1].results);
            k in shared ==> shared[k] == None || shared[k] == Some(calendar(now, ident(k)))
  {
    var front, step := steps[..|steps| - 1], steps[|steps| - 1];
    ClassesRestOnEvidence(policy, front);
    PlannedAnswersStayInClass(policy, StateAfter(front), step);
    EarlierLogIsHonest(ident, calendar, LogAfter(front), step.results);
    SweepIsSound(StateAfter(front), LogAfter(front), step.results, ident, calendar, k);
  }

  lemma SweepIsSound(st: Learned, log: seq<Round>, results: Round, ident: Key -> int, calendar: (nat, int) -> seq<Day>,
                     k: Key)
    requires HonestLog(ident, calendar, log) && Evidenced(st, log) && AllAnsweredInClass(st, results)
    requires Honest(ident, calendar, |log|, results)
    ensures var shared := FannedCalendars(results);
            k in shared ==> shared[k] == None || shared[k] == Some(calendar(|log|, ident(k)))
  {
    var shared := FannedCalendars(results);
    FannedFromAResult(results, k);
    if k in shared && shared[k].Some? {
      var r :| r in results && k in CoveredKeys(r) && shared[k] == r.days;
      assert AnsweredInClass(st, r) && k.scheduleId in r.poll.covers;
      var asker := Key(r.poller.value.scheduleId, r.poll.facility);
      if k != asker {
        ClassmatesReadOneCalendar(ident, calendar, log, st, k, asker);
      }
    }
  }

  /** When every poll of the plan comes back, every subscriber gets an entry. */
  lemma EverySubscriberIsServed(policy: Policy, st: Learned, step: Step, s: Subscription)
    requires step.Sweep? && Legal(policy, st, step) && s in step.subs
    requires forall p :: p in step.polls ==> exists r :: r in step.results && r.poll == p
    ensures s.KeyOf() in FannedCalendars(step.results)
  {
    PlanPartitions(policy, st, step.subs, step.canaries, step.sweep, step.polls);
    var i :| 0 <= i < |step.polls| && Covers(step.polls[i], s.KeyOf());
    assert step.polls[i] in step.polls;
    var r :| r in step.results && r.poll == step.polls[i];
    assert s.KeyOf() in CoveredKeys(r);
    FannedFromAResult(step.results, s.KeyOf());
  }
}
