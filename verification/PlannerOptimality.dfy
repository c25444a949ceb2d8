/** With fixed subscriptions and a site that answers everything, classes are exactly the
    distinct calendars, so a settled sweep makes one request per distinct calendar. */
module PlannerOptimality {
  import opened Basics
  import opened Calendar
  import opened PlannerSpec
  import opened PlannerEvidence
  import opened PlannerRuns

  /** Every poll of the plan was answered at once with a non-empty calendar, and answers of one
      calendar carry one ETag whoever asks. */
  ghost predicate FullyAnswered(ident: Key -> int, polls: seq<PollView>, results: Round) {
    && |results| == |polls|
    && (forall i :: 0 <= i < |polls| ==> results[i].poll == polls[i] && Usable(results[i]))
    && (forall a, b | a in results && b in results && a.poll.facility == b.poll.facility
        && IdentOf(ident, a) == IdentOf(ident, b) ::
         a.etag == b.etag)
  }

  function IdentOf(ident: Key -> int, r: PollResult): int {
    if r.poller.Some? then ident(Key(r.poller.value.scheduleId, r.poll.facility)) else 0
  }

  /** A run over one fixed set of subscriptions and canaries in which everything is answered;
      learned state may be dropped at any time. */
  ghost predicate FixedRun(policy: Policy, subs: set<Subscription>, canaries: seq<Poller>, ident: Key -> int,
                           steps: seq<Step>) {
    && policy.enabled
    && LegalRun(policy, steps)
    && forall i {:trigger steps[i]} :: 0 <= i < |steps| && steps[i].Sweep? ==>
         steps[i].subs == subs && steps[i].canaries == canaries
         && FullyAnswered(ident, steps[i].polls, steps[i].results)
  }

  /** Calibrated subscribers at one consulate share a class exactly when they read the same calendar. */
  ghost predicate ClassesAreCalendars(st: Learned, subs: set<Subscription>, ident: Key -> int) {
    forall a, b | a in subs && b in subs && a.facility == b.facility
                  && a.KeyOf() in st.calibrated && b.KeyOf() in st.calibrated ::
      (SameClass(st, a.KeyOf(), b.KeyOf()) <==> ident(a.KeyOf()) == ident(b.KeyOf()))
  }

  // ---------------------------------------------------------------- one facility

  /** No schedule id gave, or is covered by, answers under two ETags. */
  ghost predicate OneEtagEach(rs: seq<PollResult>) {
    forall a, b, x ::
             a in rs && b in rs && Usable(a) && Usable(b) && x in Members(a) && x in Members(b) ==> a.etag == b.etag
  }

  ghost predicate AllUsable(rs: seq<PollResult>) {
    forall r :: r in rs ==> Usable(r)
  }

  lemma MembersStayInTheirBucket(rs: seq<PollResult>, a: PollResult, x: ScheduleId, etag: string)
    requires OneEtagEach(rs) && a in rs && Usable(a) && x in Members(a)
    ensures x in BucketMembers(Bucket(rs, etag)) <==> a.etag.value == etag
  {
    BucketIs(rs, etag);
    BucketMembersAre(Bucket(rs, etag));
    assert a in Bucket(rs, etag) <==> a.etag.value == etag;
    if x in BucketMembers(Bucket(rs, etag)) {
      var b :| b in Bucket(rs, etag) && x in Members(b);
      assert a.etag == b.etag;
    }
  }

  /** After the buckets are joined, members of one bucket share a class. */
  lemma {:induction false} BucketsShareAClass(st: Learned, fid: FacilityId, rs: seq<PollResult>, etags: seq<string>,
                                              etag: string, x: ScheduleId, y: ScheduleId)
    requires etag in etags
    requires forall e :: e in etags ==> (x in BucketMembers(Bucket(rs, e)) <==> e == etag)
    requires forall e :: e in etags ==> (y in BucketMembers(Bucket(rs, e)) <==> e == etag)
    ensures SameClass(JoinBuckets(st, fid, rs, etags), Key(x, fid), Key(y, fid))
  {
    hide Bucket, BucketMembers, Anchor;
    var front, e := etags[..|etags| - 1], etags[|etags| - 1];
    assert etags == front + [e];
    var mid := JoinBuckets(st, fid, rs, front);
    var joined := BucketMembers(Bucket(rs, e));
    assert e in etags;
    if e != etag {
      assert forall d :: d in front ==> d in etags;
      BucketsShareAClass(st, fid, rs, front, etag, x, y);
      hide JoinBuckets;
      assert Key(x, fid) !in KeysAt(joined, fid) && Key(y, fid) !in KeysAt(joined, fid);
    } else {
      assert Key(x, fid) in KeysAt(joined, fid) && Key(y, fid) in KeysAt(joined, fid);
    }
  }

  /** When every answer is usable, noting them changes no class and calibrates exactly the calibrating subscribers. */
  lemma {:induction false} NotingUsable(st: Learned, fid: FacilityId, rs: seq<PollResult>, sweep: int)
    requires AllUsable(rs)
    ensures var after := NoteAll(st, fid, rs, sweep);
            && after.cls == st.cls && after.nextId == st.nextId
            && forall k :: k in after.calibrated <==>
                 k in st.calibrated
                 || (k.facility == fid && exists r :: r in rs && IsCalibrating(r.poll) && k.scheduleId in r.poll.covers)
  {
    if rs != [] {
      var front, r := rs[..|rs| - 1], rs[|rs| - 1];
      assert rs == front + [r];
      assert forall q :: q in rs <==> q in front || q == r;
      NotingUsable(st, fid, front, sweep);
    }
  }

  lemma {:induction false} JoiningKeepsCalibration(st: Learned, fid: FacilityId, rs: seq<PollResult>,
                                                   etags: seq<string>)
    ensures JoinBuckets(st, fid, rs, etags).calibrated == st.calibrated
  {
    if etags != [] {
      JoiningKeepsCalibration(st, fid, rs, etags[..|etags| - 1]);
    }
  }

  // ---------------------------------------------------------------- other facilities are left alone

  ghost predicate SameAt(st: Learned, after: Learned, fid: FacilityId) {
    forall k: Key | k.facility == fid ::
      && (k in st.cls <==> k in after.cls)
      && (k in st.cls ==> st.cls[k] == after.cls[k])
      && (k in st.calibrated <==> k in after.calibrated)
      && (k in st.calibrated ==> st.calibrated[k] == after.calibrated[k])
  }

  lemma {:induction false} NotingIsLocal(st: Learned, fid: FacilityId, rs: seq<PollResult>, sweep: int,
                                         other: FacilityId)
    requires other != fid
    ensures SameAt(st, NoteAll(st, fid, rs, sweep), other)
  {
    if rs != [] {
      NotingIsLocal(st, fid, rs[..|rs| - 1], sweep, other);
    }
  }

  lemma {:induction false} JoiningIsLocal(st: Learned, fid: FacilityId, rs: seq<PollResult>, etags: seq<string>,
                                          other: FacilityId)
    requires other != fid
    ensures SameAt(st, JoinBuckets(st, fid, rs, etags), other)
  {
    if etags != [] {
      JoiningIsLocal(st, fid, rs, etags[..|etags| - 1], other);
    }
  }

  lemma ObservingIsLocal(st: Learned, fid: FacilityId, rs: seq<PollResult>, sweep: int, other: FacilityId)
    requires other != fid
    ensures SameAt(st, ObserveFacility(st, fid, rs, sweep), other)
  {
    NotingIsLocal(st, fid, rs, sweep, other);
    JoiningIsLocal(NoteAll(st, fid, rs, sweep), fid, rs, Etags(rs), other);
  }

  /** What a facility looks like after all facilities were observed is what observing it alone made of it. */
  lemma {:induction false} FacilityInSweep(st: Learned, results: Round, sweep: int, fids: seq<FacilityId>,
                                           fid: FacilityId)
    requires NoDup(fids)
    ensures fid !in fids ==> SameAt(st, ObserveFacilities(st, results, sweep, fids), fid)
    ensures fid in fids ==>
              exists before: Learned :: SameAt(st, before, fid)
                && SameAt(ObserveFacility(before, fid, AtFacility(results, fid), sweep),
                          ObserveFacilities(st, results, sweep, fids), fid)
  {
    if fids != [] {
      var front, last := fids[..|fids| - 1], fids[|fids| - 1];
      FacilityInSweep(st, results, sweep, front, fid);
      var mid := ObserveFacilities(st, results, sweep, front);
      if last != fid {
        ObservingIsLocal(mid, last, AtFacility(results, last), sweep, fid);
        if fid in front {
          var before: Learned :| SameAt(st, before, fid)
            && SameAt(ObserveFacility(before, fid, AtFacility(results, fid), sweep), mid, fid);
          assert SameAt(ObserveFacility(before, fid, AtFacility(results, fid), sweep),
                        ObserveFacilities(st, results, sweep, fids), fid);
        }
      } else {
        assert SameAt(st, mid, fid);
      }
    }
  }

  // ---------------------------------------------------------------- one sweep

  /** In a fully answered sweep at a calibrating facility, two subscribers of one calendar end up classmates. */
  lemma CalibratingJoins(before: Learned, rs: seq<PollResult>, fid: FacilityId, sweep: int,
                         a: PollResult, b: PollResult, x: ScheduleId, y: ScheduleId)
    requires AllUsable(rs) && OneEtagEach(rs) && AnyCalibrating(rs)
    requires a in rs && b in rs && a.etag == b.etag && x in a.poll.covers && y in b.poll.covers
    ensures SameClass(ObserveFacility(before, fid, rs, sweep), Key(x, fid), Key(y, fid))
  {
    EtagsAre(rs);
    forall e
      ensures x in BucketMembers(Bucket(rs, e)) <==> e == a.etag.value
      ensures y in BucketMembers(Bucket(rs, e)) <==> e == a.etag.value
    {
      MembersStayInTheirBucket(rs, a, x, e);
      MembersStayInTheirBucket(rs, b, y, e);
    }
    BucketsShareAClass(NoteAll(before, fid, rs, sweep), fid, rs, Etags(rs), a.etag.value, x, y);
  }

  /** The calibration table after one facility was observed with usable answers. */
  lemma CalibrationAfter(before: Learned, rs: seq<PollResult>, fid: FacilityId, sweep: int, k: Key)
    requires AllUsable(rs) && k.facility == fid
    ensures k in ObserveFacility(before, fid, rs, sweep).calibrated <==>
              k in before.calibrated || exists r :: r in rs && IsCalibrating(r.poll) && k.scheduleId in r.poll.covers
  {
    NotingUsable(before, fid, rs, sweep);
    JoiningKeepsCalibration(NoteAll(before, fid, rs, sweep), fid, rs, Etags(rs));
  }

  /** A due subscriber asks for itself, to be calibrated. */
  lemma DueAsksForItself(st: Learned, reverify: int, subs: set<Subscription>, canaries: seq<Poller>, sweep: int,
                         polls: seq<PollView>, i: nat, s: Subscription)
    requires OneKeyOneSubscription(subs) && PlanOk(st, reverify, subs, canaries, sweep, polls)
    requires i < |polls| && s in subs && Covers(polls[i], s.KeyOf())
    ensures Due(st, reverify, s.KeyOf(), sweep) ==> polls[i] == SoloPoll(s, Calibrating)
  {
    PollOfPlan(st, reverify, subs, canaries, sweep, polls, i);
    var p := polls[i];
    if z :| z in subs && Due(st, reverify, z.KeyOf(), sweep) && p == SoloPoll(z, Calibrating) {
      assert z.KeyOf() == s.KeyOf();
    } else if z :| z in subs && !Due(st, reverify, z.KeyOf(), sweep) && p == SoloPoll(z, NoLabel) {
      assert z.KeyOf() == s.KeyOf();
    } else {
      var cid :| ClassPoll(st, reverify, subs, canaries, sweep, p, cid);
      var z :| z in subs && InGroup(st, reverify, sweep, z, p.facility, cid) && z.scheduleId == s.scheduleId;
      assert z.KeyOf() == s.KeyOf();
    }
  }

  /** Everything a member of an answer tags is what the answerer read. */
  lemma MembersReadWhatWasRead(st: Learned, log: seq<Round>, results: Round, ident: Key -> int,
                               calendar: (nat, int) -> seq<Day>, r: PollResult, x: ScheduleId)
    requires HonestLog(ident, calendar, log) && Evidenced(st, log) && AllAnsweredInClass(st, results)
    requires r in results && r.poller.Some? && x in Members(r)
    ensures ident(Key(x, r.poll.facility)) == IdentOf(ident, r)
  {
    var asker := Key(r.poller.value.scheduleId, r.poll.facility);
    if x != asker.scheduleId {
      assert AnsweredInClass(st, r) && x in r.poll.covers;
      ClassmatesReadOneCalendar(ident, calendar, log, st, Key(x, r.poll.facility), asker);
    }
  }

  /** The state before a fully answered sweep, and the sweep itself. */
  ghost predicate FixedSweep(policy: Policy, st: Learned, log: seq<Round>, step: Step, ident: Key -> int,
                             calendar: (nat, int) -> seq<Day>) {
    && policy.enabled && step.Sweep? && Legal(policy, st, step)
    && FullyAnswered(ident, step.polls, step.results)
    && Evidenced(st, log)
    && AllAnsweredInClass(st, step.results)
    && HonestLog(ident, calendar, log)
    && HonestLog(ident, calendar, log + [step.results])
  }

  lemma AnswerFor(policy: Policy, st: Learned, step: Step, s: Subscription, ident: Key -> int) returns (r: PollResult)
    requires policy.enabled && step.Sweep? && Legal(policy, st, step) && FullyAnswered(ident, step.polls, step.results)
    requires s in step.subs
    ensures r in AtFacility(step.results, s.facility) && Usable(r) && s.scheduleId in r.poll.covers
    ensures Due(st, policy.reverify, s.KeyOf(), step.sweep) ==> IsCalibrating(r.poll)
  {
    PlanPartitions(policy, st, step.subs, step.canaries, step.sweep, step.polls);
    var i :| 0 <= i < |step.polls| && Covers(step.polls[i], s.KeyOf());
    r := step.results[i];
    AtFacilityIs(step.results, s.facility);
    if Due(st, policy.reverify, s.KeyOf(), step.sweep) {
      DueAsksForItself(st, policy.reverify, step.subs, step.canaries, step.sweep, step.polls, i, s);
    }
  }

  lemma AnswersAreUsable(policy: Policy, st: Learned, log: seq<Round>, step: Step, ident: Key -> int,
                         calendar: (nat, int) -> seq<Day>, fid: FacilityId)
    requires FixedSweep(policy, st, log, step, ident, calendar)
    ensures AllUsable(AtFacility(step.results, fid)) && OneEtagEach(AtFacility(step.results, fid))
  {
    var rs := AtFacility(step.results, fid);
    AtFacilityIs(step.results, fid);
    forall a, b, x | a in rs && b in rs && Usable(a) && Usable(b) && x in Members(a) && x in Members(b)
      ensures a.etag == b.etag
    {
      MembersReadWhatWasRead(st, log, step.results, ident, calendar, a, x);
      MembersReadWhatWasRead(st, log, step.results, ident, calendar, b, x);
    }
  }

  /** After the sweep every subscriber is calibrated. */
  lemma SweepCalibrates(policy: Policy, st: Learned, log: seq<Round>, step: Step, ident: Key -> int,
                        calendar: (nat, int) -> seq<Day>, s: Subscription)
    requires FixedSweep(policy, st, log, step, ident, calendar) && s in step.subs
    ensures s.KeyOf() in Observed(st, step.results, step.sweep).calibrated
  {
    var r := AnswerFor(policy, st, step, s, ident);
    var rs := AtFacility(step.results, s.facility);
    AtFacilityIs(step.results, s.facility);
    FacilitiesAre(step.results);
    FacilityInSweep(st, step.results, step.sweep, Facilities(step.results), s.facility);
    var before: Learned :| SameAt(st, before, s.facility)
      && SameAt(ObserveFacility(before, s.facility, rs, step.sweep), Observed(st, step.results, step.sweep),
                s.facility);
    AnswersAreUsable(policy, st, log, step, ident, calendar, s.facility);
    CalibrationAfter(before, rs, s.facility, step.sweep, s.KeyOf());
  }

  /** Two subscribers of one calendar are classmates after the sweep. */
  lemma SweepJoins(policy: Policy, st: Learned, log: seq<Round>, step: Step, ident: Key -> int,
                   calendar: (nat, int) -> seq<Day>, a: Subscription, b: Subscription)
    requires FixedSweep(policy, st, log, step, ident, calendar) && ClassesAreCalendars(st, step.subs, ident)
    requires a in step.subs && b in step.subs && a.facility == b.facility && ident(a.KeyOf()) == ident(b.KeyOf())
    ensures SameClass(Observed(st, step.results, step.sweep), a.KeyOf(), b.KeyOf())
  {
    var fid := a.facility;
    var rs := AtFacility(step.results, fid);
    var ra := AnswerFor(policy, st, step, a, ident);
    var rb := AnswerFor(policy, st, step, b, ident);
    AtFacilityIs(step.results, fid);
    MembersReadWhatWasRead(st, log, step.results, ident, calendar, ra, a.scheduleId);
    MembersReadWhatWasRead(st, log, step.results, ident, calendar, rb, b.scheduleId);
    FacilitiesAre(step.results);
    FacilityInSweep(st, step.results, step.sweep, Facilities(step.results), fid);
    var before: Learned :| SameAt(st, before, fid)
      && SameAt(ObserveFacility(before, fid, rs, step.sweep), Observed(st, step.results, step.sweep), fid);
    if AnyCalibrating(rs) {
      AnswersAreUsable(policy, st, log, step, ident, calendar, fid);
      CalibratingJoins(before, rs, fid, step.sweep, ra, rb, a.scheduleId, b.scheduleId);
    } else {
      assert SameClass(st, a.KeyOf(), b.KeyOf());
    }
  }

  lemma SweepKeepsClassesCalendars(policy: Policy, st: Learned, log: seq<Round>, step: Step, ident: Key -> int,
                                   calendar: (nat, int) -> seq<Day>)
    requires FixedSweep(policy, st, log, step, ident, calendar) && ClassesAreCalendars(st, step.subs, ident)
    ensures ClassesAreCalendars(Observed(st, step.results, step.sweep), step.subs, ident)
  {
    var after := Observed(st, step.results, step.sweep);
    ObservingKeepsEvidence(st, log, step.results, step.sweep);
    forall a, b | a in step.subs && b in step.subs && a.facility == b.facility
      ensures SameClass(after, a.KeyOf(), b.KeyOf()) <==> ident(a.KeyOf()) == ident(b.KeyOf())
    {
      if SameClass(after, a.KeyOf(), b.KeyOf()) {
        ClassmatesReadOneCalendar(ident, calendar, log + [step.results], after, a.KeyOf(), b.KeyOf());
      }
      if ident(a.KeyOf()) == ident(b.KeyOf()) {
        SweepJoins(policy, st, log, step, ident, calendar, a, b);
      }
    }
  }

  // ---------------------------------------------------------------- whole runs

  lemma HonestPrefix(ident: Key -> int, calendar: (nat, int) -> seq<Day>, steps: seq<Step>)
    requires steps != [] && HonestLog(ident, calendar, LogAfter(steps))
    ensures HonestLog(ident, calendar, LogAfter(steps[..|steps| - 1]))
  {
    if steps[|steps| - 1].Sweep? {
      EarlierLogIsHonest(ident, calendar, LogAfter(steps[..|steps| - 1]), steps[|steps| - 1].results);
    }
  }

  lemma FixedPrefix(policy: Policy, subs: set<Subscription>, canaries: seq<Poller>, ident: Key -> int, steps: seq<Step>)
    requires steps != [] && FixedRun(policy, subs, canaries, ident, steps)
    ensures FixedRun(policy, subs, canaries, ident, steps[..|steps| - 1])
  {
    var front := steps[..|steps| - 1];
    forall i {:trigger front[i]} | 0 <= i < |front| && front[i].Sweep?
      ensures front[i].subs == subs && front[i].canaries == canaries
              && FullyAnswered(ident, front[i].polls, front[i].results)
    {
      assert front[i] == steps[i];
    }
  }

  /** In every run with fixed subscriptions and canaries and every request answered, calibrated subscribers at one
      consulate have equal class ids exactly when they read the same calendar. */
  lemma {:induction false} SharingIsComplete(policy: Policy, subs: set<Subscription>, canaries: seq<Poller>,
                                             ident: Key -> int,
                                             calendar: (nat, int) -> seq<Day>, steps: seq<Step>)
    requires FixedRun(policy, subs, canaries, ident, steps) && HonestLog(ident, calendar, LogAfter(steps))
    ensures ClassesAreCalendars(StateAfter(steps), subs, ident)
  {
    if steps != [] {
      var front, step := steps[..|steps| - 1], steps[|steps| - 1];
      FixedPrefix(policy, subs, canaries, ident, steps);
      HonestPrefix(ident, calendar, steps);
      SharingIsComplete(policy, subs, canaries, ident, calendar, front);
      if step.Sweep? {
        LastSweepIsFixed(policy, subs, canaries, ident, calendar, steps);
        SweepKeepsClassesCalendars(policy, StateAfter(front), LogAfter(front), step, ident, calendar);
      }
    }
  }

  lemma LastSweepIsFixed(policy: Policy, subs: set<Subscription>, canaries: seq<Poller>, ident: Key -> int,
                         calendar: (nat, int) -> seq<Day>, steps: seq<Step>)
    requires steps != [] && steps[|steps| - 1].Sweep?
    requires FixedRun(policy, subs, canaries, ident, steps) && HonestLog(ident, calendar, LogAfter(steps))
    ensures var front, step := steps[..|steps| - 1], steps[|steps| - 1];
            FixedSweep(policy, StateAfter(front), LogAfter(front), step, ident, calendar) && step.subs == subs
  {
    var front, step := steps[..|steps| - 1], steps[|steps| - 1];
    HonestPrefix(ident, calendar, steps);
    ClassesRestOnEvidence(policy, front);
    PlannedAnswersStayInClass(policy, StateAfter(front), step);
  }

  /** One answered sweep is enough to calibrate every subscriber. */
  lemma OneSweepCalibratesEveryone(policy: Policy, subs: set<Subscription>, canaries: seq<Poller>, ident: Key -> int,
                                   calendar: (nat, int) -> seq<Day>, steps: seq<Step>, s: Subscription)
    requires FixedRun(policy, subs, canaries, ident, steps) && HonestLog(ident, calendar, LogAfter(steps))
    requires steps != [] && steps[|steps| - 1].Sweep? && s in subs
    ensures s.KeyOf() in StateAfter(steps).calibrated
  {
    var front, step := steps[..|steps| - 1], steps[|steps| - 1];
    LastSweepIsFixed(policy, subs, canaries, ident, calendar, steps);
    SweepCalibrates(policy, StateAfter(front), LogAfter(front), step, ident, calendar, s);
  }

  // ---------------------------------------------------------------- counting requests

  /** The distinct calendars wanted: (facility, calendar identity) pairs. */
  function Wanted(subs: set<Subscription>, ident: Key -> int): set<(FacilityId, int)> {
    set s | s in subs :: (s.facility, ident(s.KeyOf()))
  }

  /** The calendar a poll tags. */
  function ReadBy(p: PollView, ident: Key -> int): (FacilityId, int) {
    (p.facility, if p.covers == [] then 0 else ident(Key(p.covers[0], p.facility)))
  }

  function Reads(polls: seq<PollView>, ident: Key -> int): seq<(FacilityId, int)> {
    seq(|polls|, i requires 0 <= i < |polls| => ReadBy(polls[i], ident))
  }

  lemma {:induction false} DistinctSize<T>(xs: seq<T>)
    requires forall i, j :: 0 <= i < j < |xs| ==> xs[i] != xs[j]
    ensures |SeqSet(xs)| == |xs|
  {
    if xs != [] {
      var front, last := xs[..|xs| - 1], xs[|xs| - 1];
      DistinctSize(front);
      assert last !in front;
      assert xs == front + [last];
      assert SeqSet(xs) == SeqSet(front) + {last};
    }
  }

  /** The first schedule id a poll covers is a subscriber's. */
  ghost predicate CoversSomeone(subs: set<Subscription>, p: PollView) {
    exists s :: s in subs && Covers(p, s.KeyOf()) && p.covers[0] == s.scheduleId
  }

  /** A poll that covers a subscriber covers exactly it and its classmates. */
  ghost predicate CoversClassmates(st: Learned, subs: set<Subscription>, p: PollView) {
    forall s, z | s in subs && z in subs && Covers(p, s.KeyOf()) && z.facility == s.facility ::
      Covers(p, z.KeyOf()) <==> (s == z || SameClass(st, s.KeyOf(), z.KeyOf()))
  }

  lemma SettledPollCovers(st: Learned, reverify: int, subs: set<Subscription>, canaries: seq<Poller>, sweep: int,
                          p: PollView)
    requires OneKeyOneSubscription(subs) && WellShaped(st, reverify, subs, canaries, sweep, p)
    requires forall s :: s in subs ==> !Due(st, reverify, s.KeyOf(), sweep)
    ensures CoversSomeone(subs, p) && CoversClassmates(st, subs, p)
  {
    if s :| s in subs && s.KeyOf() !in st.cls && p == SoloPoll(s, NoLabel) {
      assert Covers(p, s.KeyOf());
    } else {
      var cid :| ClassPoll(st, reverify, subs, canaries, sweep, p, cid);
      var x := p.covers[0];
      assert x in p.covers;
      var s :| s in subs && InGroup(st, reverify, sweep, s, p.facility, cid) && s.scheduleId == x;
      assert Covers(p, s.KeyOf());
      forall y, z | y in subs && z in subs && Covers(p, y.KeyOf()) && z.facility == y.facility
        ensures Covers(p, z.KeyOf()) <==> (y == z || SameClass(st, y.KeyOf(), z.KeyOf()))
      {
        CoversTheGroup(st, reverify, subs, sweep, p, cid, y);
        CoversTheGroup(st, reverify, subs, sweep, p, cid, z);
      }
    }
  }

  lemma CoversTheGroup(st: Learned, reverify: int, subs: set<Subscription>, sweep: int, p: PollView, cid: int,
                       s: Subscription)
    requires OneKeyOneSubscription(subs) && ServesGroup(st, reverify, subs, sweep, p, cid) && s in subs
             && s.facility == p.facility
    ensures Covers(p, s.KeyOf()) <==> InGroup(st, reverify, sweep, s, p.facility, cid)
  {
    if Covers(p, s.KeyOf()) {
      var w :| w in subs && InGroup(st, reverify, sweep, w, p.facility, cid) && w.scheduleId == s.scheduleId;
      assert w.KeyOf() == s.KeyOf();
    }
  }

  /** A sweep with nothing due makes exactly one request per distinct calendar. */
  lemma OneRequestPerCalendar(policy: Policy, subs: set<Subscription>, canaries: seq<Poller>, ident: Key -> int,
                              calendar: (nat, int) -> seq<Day>, steps: seq<Step>, sweep: int, polls: seq<PollView>)
    requires FixedRun(policy, subs, canaries, ident, steps) && HonestLog(ident, calendar, LogAfter(steps))
    requires OneKeyOneSubscription(subs) && PlanOk(StateAfter(steps), policy.reverify, subs, canaries, sweep, polls)
    requires forall s :: s in subs ==> !Due(StateAfter(steps), policy.reverify, s.KeyOf(), sweep)
    ensures |polls| == |Wanted(subs, ident)|
  {
    SharingIsComplete(policy, subs, canaries, ident, calendar, steps);
    ClassesRestOnEvidence(policy, steps);
    CountPolls(StateAfter(steps), policy.reverify, subs, canaries, sweep, polls, ident);
  }

  lemma CountPolls(st: Learned, reverify: int, subs: set<Subscription>, canaries: seq<Poller>, sweep: int,
                   polls: seq<PollView>, ident: Key -> int)
    requires OneKeyOneSubscription(subs) && PlanOk(st, reverify, subs, canaries, sweep, polls)
    requires forall s :: s in subs ==> !Due(st, reverify, s.KeyOf(), sweep)
    requires ClassesAreCalendars(st, subs, ident)
    ensures |polls| == |Wanted(subs, ident)|
  {
    forall i | 0 <= i < |polls|
      ensures CoversSomeone(subs, polls[i]) && CoversClassmates(st, subs, polls[i])
    {
      PollOfPlan(st, reverify, subs, canaries, sweep, polls, i);
      SettledPollCovers(st, reverify, subs, canaries, sweep, polls[i]);
    }
    PollsAreCalendars(st, subs, polls, ident);
  }

  lemma PollsReadApart(st: Learned, subs: set<Subscription>, polls: seq<PollView>, ident: Key -> int, i: nat, j: nat)
    requires Partitions(subs, polls) && ClassesAreCalendars(st, subs, ident) && i < j < |polls|
    requires forall s :: s in subs ==> s.KeyOf() in st.calibrated
    requires CoversSomeone(subs, polls[i]) && CoversClassmates(st, subs, polls[i]) && CoversSomeone(subs, polls[j])
    ensures ReadBy(polls[i], ident) != ReadBy(polls[j], ident)
  {
    var s :| s in subs && Covers(polls[i], s.KeyOf()) && polls[i].covers[0] == s.scheduleId;
    var z :| z in subs && Covers(polls[j], z.KeyOf()) && polls[j].covers[0] == z.scheduleId;
    assert !Covers(polls[i], z.KeyOf());
    assert z.facility == s.facility ==> !SameClass(st, s.KeyOf(), z.KeyOf());
  }

  lemma PollsAreCalendars(st: Learned, subs: set<Subscription>, polls: seq<PollView>, ident: Key -> int)
    requires Partitions(subs, polls) && ClassesAreCalendars(st, subs, ident)
    requires forall s :: s in subs ==> s.KeyOf() in st.calibrated
    requires forall i {:trigger CoversSomeone(subs, polls[i])} :: 0 <= i < |polls| ==>
               CoversSomeone(subs, polls[i]) && CoversClassmates(st, subs, polls[i])
    ensures |polls| == |Wanted(subs, ident)|
  {
    forall i, j | 0 <= i < j < |polls|
      ensures ReadBy(polls[i], ident) != ReadBy(polls[j], ident)
    {
      assert CoversSomeone(subs, polls[i]) && CoversSomeone(subs, polls[j]);
      PollsReadApart(st, subs, polls, ident, i, j);
    }
    var tags := Reads(polls, ident);
    DistinctSize(tags);
    forall i | 0 <= i < |polls|
      ensures tags[i] in Wanted(subs, ident)
    {
      assert CoversSomeone(subs, polls[i]);
      var s :| s in subs && Covers(polls[i], s.KeyOf()) && polls[i].covers[0] == s.scheduleId;
      assert (s.facility, ident(s.KeyOf())) in Wanted(subs, ident);
    }
    forall s | s in subs
      ensures (s.facility, ident(s.KeyOf())) in tags
    {
      var i :| 0 <= i < |polls| && Covers(polls[i], s.KeyOf());
      assert CoversSomeone(subs, polls[i]);
      ReadsWhatItCovers(st, subs, polls[i], ident, s);
      assert tags[i] == (s.facility, ident(s.KeyOf()));
    }
    assert SeqSet(tags) == Wanted(subs, ident);
  }

  lemma ReadsWhatItCovers(st: Learned, subs: set<Subscription>, p: PollView, ident: Key -> int, s: Subscription)
    requires CoversSomeone(subs, p) && CoversClassmates(st, subs, p) && ClassesAreCalendars(st, subs, ident)
    requires forall z :: z in subs ==> z.KeyOf() in st.calibrated
    requires s in subs && Covers(p, s.KeyOf())
    ensures ReadBy(p, ident) == (s.facility, ident(s.KeyOf()))
  {
    var z :| z in subs && Covers(p, z.KeyOf()) && p.covers[0] == z.scheduleId;
    assert s == z || SameClass(st, s.KeyOf(), z.KeyOf());
  }
}
