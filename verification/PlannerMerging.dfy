/** A run in which somebody not calibrated changes class: two classes turn out to read one calendar while a third
    subscriber is calibrated. */
module PlannerMerging {
  import opened Basics
  import opened Calendar
  import opened PlannerSpec
  import opened PlannerEvidence
  import opened PlannerOptimality
  import opened PlannerRuns
  import opened PlannerAnchors
  import opened PlannerChanges

  function Wants(x: ScheduleId): Subscription {
    Subscription(x, x, 7, None)
  }

  function Answer(x: ScheduleId, tag: Label, etag: string): PollResult {
    PollResult(SoloPoll(Wants(x), tag), Some(Wants(x).AsPoller()), Some([1]), Some(etag))
  }

  const ROUND := [Answer(1, NoLabel, "a"), Answer(2, NoLabel, "a"), Answer(3, Calibrating, "b")]

  /** Without canaries.  First 1 is calibrated, then 2, alone and under the same ETag, then 3 with both of them
      settled. */
  function Alone(x: ScheduleId, sweep: int): Step {
    Sweep({Wants(x)}, [], sweep, [SoloPoll(Wants(x), Calibrating)], [Answer(x, Calibrating, "a")])
  }

  const FIRST := Alone(1, 1)
  const SECOND := Alone(2, 2)
  const THIRD := Sweep({Wants(1), Wants(2), Wants(3)}, [], 3, PollsOf(ROUND), ROUND)
  const POLICY := Policy(true, 10)

  // ---------------------------------------------------------------- the first two sweeps

  /** When `x` was last calibrated, if ever. */
  function NotedAt(st: Learned, x: ScheduleId): Option<int> {
    if Key(x, 7) in st.calibrated then Some(st.calibrated[Key(x, 7)]) else None
  }

  ghost predicate ClassAlone(st: Learned, after: Learned, x: ScheduleId) {
    ClassAt(after, 7, x) == Some(st.nextId) && after.nextId == st.nextId + 1
  }

  /** Someone whose calendar is asked for alone gets a class of its own. */
  lemma CalibratedAlone(st: Learned, x: ScheduleId, sweep: int)
    ensures var after := Observed(st, [Answer(x, Calibrating, "a")], sweep);
            ClassAlone(st, after, x) && NotedAt(after, x) == Some(sweep)
            && forall y :: y != x ==> ClassAt(after, 7, y) == ClassAt(st, 7, y)
                                      && NotedAt(after, y) == NotedAt(st, y)
  {
    var r := Answer(x, Calibrating, "a");
    assert Members(r) == {x} && SeqSet(r.poll.covers) == {x} && Usable(r) && IsCalibrating(r.poll);
    hide Observed, ObserveFacility, NoteAll, JoinBuckets, Bucket, BucketMembers, Etags, AtFacility, Facilities,
         Anchor, Members, Usable;
    AloneIs(st, r, sweep);
  }

  lemma AloneIs(st: Learned, r: PollResult, sweep: int)
    requires r.poll.facility == 7 && Usable(r) && IsCalibrating(r.poll)
    ensures Observed(st, [r], sweep) == JoinBucket(Mark(st, 7, r, sweep), 7, [r])
    ensures Anchor(Mark(st, 7, r, sweep).cls, 7, [r]) == None && BucketMembers([r]) == Members(r)
  {
    hide Observed, JoinBucket, Mark, ObserveFacility, Anchor, BucketMembers, Members, Usable;
    OneAnswerIs(r);
    NotedAlone(st, r, sweep);
    ObservedAtOnePlace(st, [r], sweep);
  }

  lemma ObservedAtOnePlace(st: Learned, rs: Round, sweep: int)
    requires Facilities(rs) == [7] && AtFacility(rs, 7) == rs
    ensures Observed(st, rs, sweep) == ObserveFacility(st, 7, rs, sweep)
  {
    assert [7][..0] == [];
    hide ObserveFacility;
    assert ObserveFacilities(st, rs, sweep, []) == st;
  }

  lemma OneAnswerIs(r: PollResult)
    requires r.poll.facility == 7 && Usable(r)
    ensures Facilities([r]) == [7] && AtFacility([r], 7) == [r] && Etags([r]) == [r.etag.value]
            && Bucket([r], r.etag.value) == [r]
    ensures BucketMembers([r]) == Members(r)
  {
    assert [r][..0] == [];
    assert AtFacility([], 7) == [] && AtFacility([r], 7) == [] + [r];
    assert Facilities([]) == [] && Facilities([r]) == [] + [7];
    assert Etags([]) == [] && Etags([r]) == [] + [r.etag.value];
    assert Bucket([], r.etag.value) == [] && Bucket([r], r.etag.value) == [] + [r];
    assert BucketMembers([]) == {};
  }

  lemma NotedAlone(st: Learned, r: PollResult, sweep: int)
    requires r.poll.facility == 7 && Usable(r) && IsCalibrating(r.poll) && Bucket([r], r.etag.value) == [r]
    requires Etags([r]) == [r.etag.value]
    ensures ObserveFacility(st, 7, [r], sweep) == JoinBucket(Mark(st, 7, r, sweep), 7, [r])
    ensures Anchor(Mark(st, 7, r, sweep).cls, 7, [r]) == None
  {
    assert r in [r];
    assert [r][..0] == [] && [r.etag.value][..0] == [];
    assert NoteAll(st, 7, [], sweep) == st;
    assert NoteAll(st, 7, [r], sweep) == Mark(st, 7, r, sweep);
    assert [r][1..] == [];
    hide Mark, JoinBucket, NoteAll;
    assert JoinBuckets(Mark(st, 7, r, sweep), 7, [r], []) == Mark(st, 7, r, sweep);
  }

  /** Before the third sweep 1 and 2 are settled, in different classes. */
  ghost predicate TwoClasses(st: Learned) {
    && ClassAt(st, 7, 1) == Some(1) && ClassAt(st, 7, 2) == Some(2) && ClassAt(st, 7, 3) == None
    && NotedAt(st, 1) == Some(1) && NotedAt(st, 2) == Some(2) && NotedAt(st, 3) == None
  }

  lemma AlonePlan(st: Learned, x: ScheduleId, sweep: int)
    requires NotedAt(st, x) == None
    ensures Legal(POLICY, st, Alone(x, sweep))
  {
    var polls, r := [SoloPoll(Wants(x), Calibrating)], Answer(x, Calibrating, "a");
    assert PollsOf([r]) == polls;
    assert Due(st, 10, Wants(x).KeyOf(), sweep) && Wants(x) in {Wants(x)};
    assert WellShaped(st, 10, {Wants(x)}, [], sweep, polls[0]);
    assert Covers(polls[0], Wants(x).KeyOf());
  }

  lemma OneAloneMore(steps: seq<Step>, x: ScheduleId, sweep: int)
    requires LegalRun(POLICY, steps) && NotedAt(StateAfter(steps), x) == None
    ensures LegalRun(POLICY, steps + [Alone(x, sweep)])
    ensures var st, after := StateAfter(steps), StateAfter(steps + [Alone(x, sweep)]);
            ClassAlone(st, after, x) && NotedAt(after, x) == Some(sweep)
            && forall y :: y != x ==> ClassAt(after, 7, y) == ClassAt(st, 7, y)
                                      && NotedAt(after, y) == NotedAt(st, y)
  {
    OneMore(POLICY, steps, Alone(x, sweep));
    AlonePlan(StateAfter(steps), x, sweep);
    CalibratedAlone(StateAfter(steps), x, sweep);
    hide Legal, Observed, ClassAt, LegalRun, StateAfter, Answer, NotedAt, ClassAlone;
  }

  lemma NothingIsKnown(x: ScheduleId)
    ensures NotedAt(NOTHING_LEARNED, x) == None && ClassAt(NOTHING_LEARNED, 7, x) == None
  {
  }

  lemma AfterTwoSweeps()
    ensures LegalRun(POLICY, [FIRST, SECOND]) && TwoClasses(StateAfter([FIRST, SECOND]))
  {
    hide ClassAt, LegalRun, StateAfter, NotedAt, Alone;
    assert [] + [FIRST] == [FIRST] && [FIRST] + [SECOND] == [FIRST, SECOND];
    AtTheStart(POLICY);
    NothingIsKnown(1);
    NothingIsKnown(2);
    NothingIsKnown(3);
    OneAloneMore([], 1, 1);
    OneAloneMore([FIRST], 2, 2);
  }

  // ---------------------------------------------------------------- the third sweep

  lemma SettledPlan(st: Learned, x: ScheduleId)
    requires TwoClasses(st) && (x == 1 || x == 2)
    ensures WellShaped(st, 10, THIRD.subs, [], 3, SoloPoll(Wants(x), NoLabel))
  {
    var p := SoloPoll(Wants(x), NoLabel);
    assert Key(x, 7) in st.cls && st.cls[Key(x, 7)] == x;
    forall s | s in THIRD.subs
      ensures InGroup(st, 10, 3, s, 7, x) <==> s == Wants(x)
    {
      assert ClassAt(st, 7, s.scheduleId) == if s.scheduleId == 3 then None else Some(s.scheduleId);
    }
    assert Wants(x) in THIRD.subs;
    assert ServesGroup(st, 10, THIRD.subs, 3, p, x);
    assert OwnCanaries(st, [], 7, x) == [] && First(p) == [];
    assert ClassPoll(st, 10, THIRD.subs, [], 3, p, x);
  }

  lemma ThirdPolls()
    ensures THIRD.polls == [SoloPoll(Wants(1), NoLabel), SoloPoll(Wants(2), NoLabel), SoloPoll(Wants(3), Calibrating)]
    ensures Partitions(THIRD.subs, THIRD.polls) && OneKeyOneSubscription(THIRD.subs)
  {
    var polls := THIRD.polls;
    assert polls == [SoloPoll(Wants(1), NoLabel), SoloPoll(Wants(2), NoLabel), SoloPoll(Wants(3), Calibrating)];
    assert Covers(polls[0], Wants(1).KeyOf()) && Covers(polls[1], Wants(2).KeyOf())
           && Covers(polls[2], Wants(3).KeyOf());
  }

  lemma RoundIsOk()
    ensures ResultsOk(THIRD.polls, ROUND)
  {
    forall r | r in ROUND
      ensures r.poll in THIRD.polls && r.poller.Some? && r.poller.value in r.poll.candidates
    {
      var i :| 0 <= i < 3 && ROUND[i] == r;
      assert THIRD.polls[i] == r.poll;
      assert r.poll.candidates[0] == r.poller.value;
    }
  }

  /** Without canaries a plan is a partition into well-shaped polls. */
  lemma PlanWithoutCanaries(st: Learned, subs: set<Subscription>, sweep: int, polls: seq<PollView>)
    requires Partitions(subs, polls) && ChecksOnce(polls)
    requires forall i :: 0 <= i < |polls| ==> WellShaped(st, 10, subs, [], sweep, polls[i])
    ensures PlanOk(st, 10, subs, [], sweep, polls)
  {
    hide WellShaped, Partitions, ChecksOnce;
    assert forall fid, c :: !Probed(st, 10, subs, [], sweep, fid, c);
  }

  lemma DuePlan(st: Learned, subs: set<Subscription>, s: Subscription, sweep: int)
    requires s in subs && s.KeyOf() !in st.calibrated
    ensures WellShaped(st, 10, subs, [], sweep, SoloPoll(s, Calibrating))
  {
    assert Due(st, 10, s.KeyOf(), sweep);
  }

  lemma ThirdIsLegal(st: Learned)
    requires TwoClasses(st)
    ensures Legal(POLICY, st, THIRD)
  {
    SettledPlan(st, 1);
    SettledPlan(st, 2);
    ThirdPolls();
    RoundIsOk();
    ThirdChecksNobody();
    DuePlan(st, THIRD.subs, Wants(3), 3);
    hide WellShaped, Partitions, OneKeyOneSubscription, ResultsOk, TwoClasses, SoloPoll, ChecksOnce, PlanOk;
    forall i | 0 <= i < |THIRD.polls|
      ensures WellShaped(st, 10, THIRD.subs, [], 3, THIRD.polls[i])
    {
      assert i == 0 || i == 1 || i == 2;
    }
    PlanWithoutCanaries(st, THIRD.subs, 3, THIRD.polls);
  }

  lemma ThirdChecksNobody()
    ensures ChecksOnce(THIRD.polls)
  {
    ThirdPolls();
  }

  lemma RoundBucket()
    ensures Bucket(ROUND, "a") == [Answer(1, NoLabel, "a"), Answer(2, NoLabel, "a")]
  {
    var x, y := Answer(1, NoLabel, "a"), Answer(2, NoLabel, "a");
    var two := [x, y];
    assert ROUND[..2] == two && two[..1] == [x] && [x][..0] == [];
    assert Bucket([], "a") == [];
    assert Bucket([x], "a") == [x];
    assert Bucket(two, "a") == two;
  }

  lemma InRound(r: PollResult)
    ensures r in ROUND
            <==> r == Answer(1, NoLabel, "a") || r == Answer(2, NoLabel, "a") || r == Answer(3, Calibrating, "b")
  {
    assert ROUND[0] in ROUND && ROUND[1] in ROUND && ROUND[2] in ROUND;
  }

  /** Everyone in it answers for itself alone. */
  lemma RoundMembers(r: PollResult, x: ScheduleId)
    requires r in ROUND
    ensures x in Members(r) <==> r.poller.Some? && x == r.poller.value.scheduleId
    ensures r.poller.Some? && r.poller.value.scheduleId < 3 ==> !IsCalibrating(r.poll) && r.etag == Some("a")
    ensures r.poller.Some? && r.poller.value.scheduleId >= 3 ==> r.etag == Some("b")
  {
    InRound(r);
  }

  lemma RoundIsCalibrating()
    ensures AnyCalibrating(ROUND) && OneEtagEach(ROUND) && !CalibratedNow(ROUND, 1) && !CalibratedNow(ROUND, 2)
  {
    InRound(Answer(3, Calibrating, "b"));
    forall r, x | r in ROUND
      ensures x in Members(r) <==> r.poller.Some? && x == r.poller.value.scheduleId
      ensures r.poller.Some? && r.poller.value.scheduleId < 3 ==> !IsCalibrating(r.poll) && r.etag == Some("a")
      ensures r.poller.Some? && r.poller.value.scheduleId >= 3 ==> r.etag == Some("b")
    {
      RoundMembers(r, x);
    }
    assert IsCalibrating(Answer(3, Calibrating, "b").poll);
    hide Members, IsCalibrating, Usable;
  }

  lemma RoundIsAtOnePlace()
    ensures AtFacility(ROUND, 7) == ROUND
  {
    var x, y, z := Answer(1, NoLabel, "a"), Answer(2, NoLabel, "a"), Answer(3, Calibrating, "b");
    assert ROUND[..2] == [x, y] && [x, y][..1] == [x] && [x][..0] == [];
    assert AtFacility([], 7) == [];
    assert AtFacility([x], 7) == [x];
    assert AtFacility([x, y], 7) == [x, y];
  }

  lemma RoundMerges(st: Learned)
    requires ClassAt(st, 7, 1) == Some(1)
    ensures ClassAt(ObserveFacility(st, 7, ROUND, 3), 7, 2) == Some(1)
  {
    RoundIsCalibrating();
    var noted := NoteAll(st, 7, ROUND, 3);
    NotingTouchesOnlyCalibrated(st, 7, ROUND, 3, 1);
    RoundBucket();
    var y := Answer(2, NoLabel, "a");
    assert ROUND[1] == y;
    InItsBucket(ROUND, y, 2);
    hide NoteAll, Bucket, CalibratedNow, OneEtagEach, BucketMembers, Etags, JoinBuckets;
    JoiningFollowsTheAnchor(noted, 7, ROUND, Etags(ROUND), "a", 2);
  }

  const MERGING := [FIRST, SECOND, THIRD]

  /** So it fails in a run of the program: at the end of this one the class of 2 has changed, though only 3 was
      calibrated. */
  lemma OldClassesMerge()
    ensures LegalRun(POLICY, MERGING) && !CalibratedNow(AtFacility(THIRD.results, 7), 2)
    ensures ClassAt(StateAfter(MERGING[..2]), 7, 2) == Some(2) && ClassAt(StateAfter(MERGING), 7, 2) == Some(1)
  {
    hide LegalRun, StateAfter, Alone, Observed, ObserveFacility, CalibratedNow, Legal, ClassAt, AtFacility;
    var two := [FIRST, SECOND];
    assert MERGING[..2] == two && two + [THIRD] == MERGING;
    AfterTwoSweeps();
    var st := StateAfter(two);
    ThirdIsLegal(st);
    RoundIsAtOnePlace();
    RoundIsCalibrating();
    OneMore(POLICY, two, THIRD);
    var before := AfterTheSweep(st, ROUND, 3, 7);
    SameClassesAt(st, before, 7);
    SameClassesAt(ObserveFacility(before, 7, ROUND, 3), StateAfter(MERGING), 7);
    RoundMerges(before);
  }
}
