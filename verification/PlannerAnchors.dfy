/** Who changes class when a sweep's answers are noted: the planner means only those calibrated in it to. */
module PlannerAnchors {
  import opened Basics
  import opened Calendar
  import opened PlannerSpec
  import opened PlannerEvidence
  import opened PlannerOptimality
  import opened PlannerRuns

  function ClassAt(st: Learned, fid: FacilityId, x: ScheduleId): Option<int> {
    if Key(x, fid) in st.cls then Some(st.cls[Key(x, fid)]) else None
  }

  /** `x` took part in a calibration that was answered. */
  ghost predicate CalibratedNow(rs: seq<PollResult>, x: ScheduleId) {
    exists r :: r in rs && IsCalibrating(r.poll) && r.poller.Some? && r.days.Some? && x in Members(r)
  }

  predicate Settled(r: PollResult) {
    Usable(r) && !IsCalibrating(r.poll)
  }

  /** A settled answer serves somebody not being calibrated, and everyone it names is in that subscriber's class. */
  ghost predicate SettledInClass(st: Learned, fid: FacilityId, rs: seq<PollResult>) {
    forall r :: r in rs && Settled(r) ==>
                  r.poll.covers != [] && !CalibratedNow(rs, r.poll.covers[0])
                  && forall x :: x in Members(r) ==> ClassAt(st, fid, x) == ClassAt(st, fid, r.poll.covers[0])
  }

  /** Every settled answer comes from a class, and those under one ETag from one class. */
  ghost predicate AnchorsAgree(st: Learned, fid: FacilityId, rs: seq<PollResult>) {
    && (forall a :: a in rs && Settled(a) ==> a.poll.covers != [] && ClassAt(st, fid, a.poll.covers[0]).Some?)
    && forall a, b | a in rs && b in rs && Settled(a) && Settled(b) && a.etag == b.etag ::
         a.poll.covers != [] && b.poll.covers != []
         && ClassAt(st, fid, a.poll.covers[0]) == ClassAt(st, fid, b.poll.covers[0])
  }

  // ---------------------------------------------------------------- the first pass

  lemma {:induction false} NotingTouchesOnlyCalibrated(st: Learned, fid: FacilityId, rs: seq<PollResult>, sweep: int,
                                                       x: ScheduleId)
    requires !CalibratedNow(rs, x)
    ensures ClassAt(NoteAll(st, fid, rs, sweep), fid, x) == ClassAt(st, fid, x)
  {
    if rs != [] {
      var front, r := rs[..|rs| - 1], rs[|rs| - 1];
      assert rs == front + [r];
      assert r in rs && forall q :: q in front ==> q in rs;
      NotingTouchesOnlyCalibrated(st, fid, front, sweep, x);
    }
  }

  /** An empty calendar leaves no class: it says nothing about which calendar it is. */
  lemma {:induction false} NotingEmptyRemoves(st: Learned, fid: FacilityId, rs: seq<PollResult>, sweep: int,
                                              x: ScheduleId)
    requires exists r ::
               r in rs && IsCalibrating(r.poll) && r.poller.Some? && r.days.Some? && !Usable(r) && x in Members(r)
    ensures ClassAt(NoteAll(st, fid, rs, sweep), fid, x) == None
  {
    var front, last := rs[..|rs| - 1], rs[|rs| - 1];
    assert rs == front + [last];
    if !(IsCalibrating(last.poll) && last.poller.Some? && last.days.Some? && !Usable(last) && x in Members(last)) {
      NotingEmptyRemoves(st, fid, front, sweep, x);
    }
  }

  // ---------------------------------------------------------------- the buckets

  lemma {:induction false} AnchorLooksAtHeads(cls: map<Key, int>, other: map<Key, int>, fid: FacilityId,
                                              entries: seq<PollResult>)
    requires forall r | r in entries && r.poll.covers != [] ::
               var k := Key(r.poll.covers[0], fid);
               (k in cls <==> k in other) && (k in cls ==> cls[k] == other[k])
    ensures Anchor(cls, fid, entries) == Anchor(other, fid, entries)
  {
    if entries != [] {
      assert entries[0] in entries && forall r :: r in entries[1..] ==> r in entries;
      AnchorLooksAtHeads(cls, other, fid, entries[1..]);
    }
  }

  lemma {:induction false} AnchorFound(cls: map<Key, int>, fid: FacilityId, entries: seq<PollResult>, a: PollResult)
    requires a in entries && !IsCalibrating(a.poll) && a.poll.covers != [] && Key(a.poll.covers[0], fid) in cls
    ensures Anchor(cls, fid, entries).Some?
    ensures exists r ::
              r in entries && !IsCalibrating(r.poll) && r.poll.covers != [] && Key(r.poll.covers[0], fid) in cls
                        && Anchor(cls, fid, entries) == Some(cls[Key(r.poll.covers[0], fid)])
  {
    var p := entries[0].poll;
    assert entries[0] in entries;
    if IsCalibrating(p) || p.covers == [] || Key(p.covers[0], fid) !in cls {
      assert entries == [entries[0]] + entries[1..];
      assert a in entries[1..];
      AnchorFound(cls, fid, entries[1..], a);
    }
  }

  /** Schedule ids in none of the buckets stay where they are. */
  lemma {:induction false} JoiningLeavesOthers(st: Learned, fid: FacilityId, rs: seq<PollResult>, etags: seq<string>,
                                               x: ScheduleId)
    requires forall e :: e in etags ==> x !in BucketMembers(Bucket(rs, e))
    ensures ClassAt(JoinBuckets(st, fid, rs, etags), fid, x) == ClassAt(st, fid, x)
  {
    if etags != [] {
      var front, e := etags[..|etags| - 1], etags[|etags| - 1];
      assert etags == front + [e];
      assert e in etags;
      JoiningLeavesOthers(st, fid, rs, front, x);
      hide BucketMembers, Bucket, Anchor;
    }
  }

  /** Those in a bucket end up in a class, and in its anchor's if it has one. */
  lemma {:induction false} JoiningFollowsTheAnchor(st: Learned, fid: FacilityId, rs: seq<PollResult>,
                                                   etags: seq<string>, etag: string, x: ScheduleId)
    requires OneEtagEach(rs) && etag in etags && NoDup(etags) && x in BucketMembers(Bucket(rs, etag))
    ensures var after := ClassAt(JoinBuckets(st, fid, rs, etags), fid, x);
            after.Some? && (Anchor(st.cls, fid, Bucket(rs, etag)).Some? ==>
                              after == Anchor(st.cls, fid, Bucket(rs, etag)))
  {
    var front, e := etags[..|etags| - 1], etags[|etags| - 1];
    assert etags == front + [e];
    var mid := JoinBuckets(st, fid, rs, front);
    if e == etag {
      assert etag !in front;
      HeadsUntouched(st, fid, rs, front, etag);
      AnchorLooksAtHeads(st.cls, mid.cls, fid, Bucket(rs, etag));
      hide BucketMembers, Bucket, Anchor, OneEtagEach;
      assert Key(x, fid) in KeysAt(BucketMembers(Bucket(rs, etag)), fid);
    } else {
      assert etag in front;
      JoiningFollowsTheAnchor(st, fid, rs, front, etag, x);
      OnlyItsBucket(rs, etag, e, x);
      hide BucketMembers, Bucket, Anchor, OneEtagEach;
    }
  }

  lemma OnlyItsBucket(rs: seq<PollResult>, etag: string, other: string, x: ScheduleId)
    requires OneEtagEach(rs) && etag != other && x in BucketMembers(Bucket(rs, etag))
    ensures x !in BucketMembers(Bucket(rs, other))
  {
    BucketIs(rs, etag);
    BucketMembersAre(Bucket(rs, etag));
    var a :| a in Bucket(rs, etag) && x in Members(a);
    MembersStayInTheirBucket(rs, a, x, other);
  }

  /** The buckets before it do not touch the heads of a bucket's answers. */
  lemma HeadsUntouched(st: Learned, fid: FacilityId, rs: seq<PollResult>, front: seq<string>, etag: string)
    requires OneEtagEach(rs) && etag !in front
    ensures var mid := JoinBuckets(st, fid, rs, front);
            forall r | r in Bucket(rs, etag) && r.poll.covers != [] ::
              var k := Key(r.poll.covers[0], fid);
              (k in st.cls <==> k in mid.cls) && (k in st.cls ==> st.cls[k] == mid.cls[k])
  {
    var mid := JoinBuckets(st, fid, rs, front);
    BucketIs(rs, etag);
    BucketMembersAre(Bucket(rs, etag));
    hide Bucket, BucketMembers, JoinBuckets, OneEtagEach;
    forall r | r in Bucket(rs, etag) && r.poll.covers != []
      ensures ClassAt(mid, fid, r.poll.covers[0]) == ClassAt(st, fid, r.poll.covers[0])
    {
      var z := r.poll.covers[0];
      assert z in Members(r);
      forall e | e in front
        ensures z !in BucketMembers(Bucket(rs, e))
      {
        OnlyItsBucket(rs, etag, e, z);
      }
      JoiningLeavesOthers(st, fid, rs, front, z);
    }
    forall r | r in Bucket(rs, etag) && r.poll.covers != []
      ensures var k := Key(r.poll.covers[0], fid);
              (k in st.cls <==> k in mid.cls) && (k in st.cls ==> st.cls[k] == mid.cls[k])
    {
      assert ClassAt(mid, fid, r.poll.covers[0]) == ClassAt(st, fid, r.poll.covers[0]);
    }
  }

  // ---------------------------------------------------------------- who changes class

  lemma InItsBucket(rs: seq<PollResult>, r: PollResult, x: ScheduleId)
    requires r in rs && Usable(r) && x in Members(r)
    ensures r in Bucket(rs, r.etag.value) && x in BucketMembers(Bucket(rs, r.etag.value)) && r.etag.value in Etags(rs)
    ensures NoDup(Etags(rs))
  {
    BucketIs(rs, r.etag.value);
    BucketMembersAre(Bucket(rs, r.etag.value));
    EtagsAre(rs);
  }

  /** A settled answer's bucket has an anchor: the class of some settled answer under the same ETag. */
  lemma SettledBucketHasAnchor(st: Learned, fid: FacilityId, rs: seq<PollResult>, sweep: int, a: PollResult)
    returns (b: PollResult)
    requires SettledInClass(st, fid, rs) && a in rs && Settled(a) && ClassAt(st, fid, a.poll.covers[0]).Some?
    ensures b in rs && Settled(b) && b.etag == a.etag && b.poll.covers != []
    ensures ClassAt(st, fid, b.poll.covers[0]).Some?
    ensures Anchor(NoteAll(st, fid, rs, sweep).cls, fid, Bucket(rs, a.etag.value)) == ClassAt(st, fid, b.poll.covers[0])
  {
    var noted, entries := NoteAll(st, fid, rs, sweep), Bucket(rs, a.etag.value);
    BucketIs(rs, a.etag.value);
    NotingTouchesOnlyCalibrated(st, fid, rs, sweep, a.poll.covers[0]);
    AnchorFound(noted.cls, fid, entries, a);
    b :| b in entries && !IsCalibrating(b.poll) && b.poll.covers != [] && Key(b.poll.covers[0], fid) in noted.cls
         && Anchor(noted.cls, fid, entries) == Some(noted.cls[Key(b.poll.covers[0], fid)]);
    NotingTouchesOnlyCalibrated(st, fid, rs, sweep, b.poll.covers[0]);
  }

  lemma StaysIfAnchorsAgree(st: Learned, fid: FacilityId, rs: seq<PollResult>, sweep: int, x: ScheduleId)
    requires AnyCalibrating(rs) && OneEtagEach(rs) && SettledInClass(st, fid, rs) && AnchorsAgree(st, fid, rs)
    requires !CalibratedNow(rs, x)
    ensures ClassAt(ObserveFacility(st, fid, rs, sweep), fid, x) == ClassAt(st, fid, x)
  {
    var noted := NoteAll(st, fid, rs, sweep);
    NotingTouchesOnlyCalibrated(st, fid, rs, sweep, x);
    if exists r :: r in rs && Usable(r) && x in Members(r) {
      var r :| r in rs && Usable(r) && x in Members(r);
      assert Settled(r);
      InItsBucket(rs, r, x);
      var b := SettledBucketHasAnchor(st, fid, rs, sweep, r);
      JoiningFollowsTheAnchor(noted, fid, rs, Etags(rs), r.etag.value, x);
    } else {
      forall e | e in Etags(rs)
        ensures x !in BucketMembers(Bucket(rs, e))
      {
        BucketIs(rs, e);
        BucketMembersAre(Bucket(rs, e));
      }
      JoiningLeavesOthers(noted, fid, rs, Etags(rs), x);
    }
  }

  lemma AgreeIfHeadsStay(st: Learned, fid: FacilityId, rs: seq<PollResult>, sweep: int, a: PollResult, b: PollResult)
    requires AnyCalibrating(rs) && OneEtagEach(rs) && SettledInClass(st, fid, rs)
    requires a in rs && b in rs && Settled(a) && Settled(b) && a.etag == b.etag
    requires forall x ::
               !CalibratedNow(rs, x) ==> ClassAt(ObserveFacility(st, fid, rs, sweep), fid, x) == ClassAt(st, fid, x)
    ensures ClassAt(st, fid, a.poll.covers[0]).Some?
    ensures ClassAt(st, fid, a.poll.covers[0]) == ClassAt(st, fid, b.poll.covers[0])
  {
    var noted, x, y := NoteAll(st, fid, rs, sweep), a.poll.covers[0], b.poll.covers[0];
    assert x in Members(a) && y in Members(b);
    InItsBucket(rs, a, x);
    InItsBucket(rs, b, y);
    JoiningFollowsTheAnchor(noted, fid, rs, Etags(rs), a.etag.value, x);
    JoiningFollowsTheAnchor(noted, fid, rs, Etags(rs), a.etag.value, y);
    var anchor := SettledBucketHasAnchor(st, fid, rs, sweep, a);
  }

  /** The planner means only schedule ids calibrated in a sweep to change class.  That holds exactly when every settled
      answer of a calibrating sweep comes from a known class, and those under one ETag from one class: otherwise two old
      classes that turn out to read one calendar are merged, and a settled subscriber without a class is given one. */
  lemma OnlyCalibratedChangeClassExactly(st: Learned, fid: FacilityId, rs: seq<PollResult>, sweep: int)
    requires AnyCalibrating(rs) && OneEtagEach(rs) && SettledInClass(st, fid, rs)
    ensures (forall x ::
               !CalibratedNow(rs, x) ==> ClassAt(ObserveFacility(st, fid, rs, sweep), fid, x) == ClassAt(st, fid, x))
            <==> AnchorsAgree(st, fid, rs)
  {
    hide ObserveFacility, OneEtagEach;
    if AnchorsAgree(st, fid, rs) {
      forall x | !CalibratedNow(rs, x)
        ensures ClassAt(ObserveFacility(st, fid, rs, sweep), fid, x) == ClassAt(st, fid, x)
      {
        StaysIfAnchorsAgree(st, fid, rs, sweep, x);
      }
    } else if forall x ::
      !CalibratedNow(rs, x) ==> ClassAt(ObserveFacility(st, fid, rs, sweep), fid, x) == ClassAt(st, fid, x) {
      forall a, b | a in rs && b in rs && Settled(a) && Settled(b) && a.etag == b.etag
        ensures ClassAt(st, fid, a.poll.covers[0]).Some?
        ensures ClassAt(st, fid, a.poll.covers[0]) == ClassAt(st, fid, b.poll.covers[0])
      {
        AgreeIfHeadsStay(st, fid, rs, sweep, a, b);
      }
      assert false;
    }
  }

  /** A calibration that finds only an empty calendar leaves no class behind. */
  lemma EmptyCalendarLeavesNoClass(st: Learned, fid: FacilityId, rs: seq<PollResult>, sweep: int, x: ScheduleId)
    requires exists r ::
               r in rs && IsCalibrating(r.poll) && r.poller.Some? && r.days.Some? && !Usable(r) && x in Members(r)
    requires forall r :: r in rs && Usable(r) ==> x !in Members(r)
    ensures ClassAt(ObserveFacility(st, fid, rs, sweep), fid, x) == None
  {
    NotingEmptyRemoves(st, fid, rs, sweep, x);
    forall e | e in Etags(rs)
      ensures x !in BucketMembers(Bucket(rs, e))
    {
      BucketIs(rs, e);
      BucketMembersAre(Bucket(rs, e));
    }
    JoiningLeavesOthers(NoteAll(st, fid, rs, sweep), fid, rs, Etags(rs), x);
  }

  // ---------------------------------------------------------------- planned answers

  /** No canary's schedule id is a subscriber's. */
  ghost predicate CanariesApart(subs: set<Subscription>, canaries: seq<Poller>) {
    forall s, c :: s in subs && c in canaries ==> s.scheduleId != c.scheduleId
  }

  /** A poll that calibrates nobody serves a settled subscriber, and whoever may answer it is in the same class. */
  lemma SettledPoll(st: Learned, reverify: int, subs: set<Subscription>, canaries: seq<Poller>, sweep: int,
                    r: PollResult)
    requires WellShaped(st, reverify, subs, canaries, sweep, r.poll) && !IsCalibrating(r.poll)
    requires r.poller.Some? && r.poller.value in r.poll.candidates
    ensures r.poll.covers != []
    ensures exists s ::
              s in subs && !Due(st, reverify, s.KeyOf(), sweep) && s.KeyOf() == Key(r.poll.covers[0], r.poll.facility)
    ensures forall x ::
              x in Members(r) ==> ClassAt(st, r.poll.facility, x) == ClassAt(st, r.poll.facility, r.poll.covers[0])
  {
    if s :|
        s in subs && !Due(st, reverify, s.KeyOf(), sweep) && s.KeyOf() !in st.cls && r.poll == SoloPoll(s, NoLabel) {
    } else {
      var cid :| ClassPoll(st, reverify, subs, canaries, sweep, r.poll, cid);
      ClassPollCandidates(st, reverify, subs, canaries, sweep, r.poll, cid);
      hide ClassPoll, WellShaped;
      assert ServesGroup(st, reverify, subs, sweep, r.poll, cid);
      forall x | x in r.poll.covers
        ensures exists s :: s in subs && InGroup(st, reverify, sweep, s, r.poll.facility, cid) && s.scheduleId == x
      {
      }
      assert r.poll.covers[0] in r.poll.covers;
    }
  }

  /** A calibrating poll names a due subscriber or a canary, and nobody else. */
  lemma CalibratingPoll(st: Learned, reverify: int, subs: set<Subscription>, canaries: seq<Poller>, sweep: int,
                        q: PollResult, s: Subscription)
    requires WellShaped(st, reverify, subs, canaries, sweep, q.poll) && IsCalibrating(q.poll)
    requires q.poller.Some? && q.poller.value in q.poll.candidates
    requires OneKeyOneSubscription(subs) && CanariesApart(subs, canaries)
    requires s in subs && !Due(st, reverify, s.KeyOf(), sweep) && s.facility == q.poll.facility
    ensures s.scheduleId !in Members(q)
  {
    if z :| z in subs && Due(st, reverify, z.KeyOf(), sweep) && q.poll == SoloPoll(z, Calibrating) {
      assert z != s;
      assert Members(q) == {z.scheduleId};
    } else {
      var c :| Probed(st, reverify, subs, canaries, sweep, q.poll.facility, c)
               && q.poll == ProbePoll(q.poll.facility, c);
      assert Members(q) == {c.scheduleId};
    }
  }

  /** So the answers to any plan, with canaries' schedule ids apart from the subscribers', meet the assumption above. */
  lemma PlannedAnswersAreSettledInClass(policy: Policy, st: Learned, step: Step, fid: FacilityId)
    requires policy.enabled && step.Sweep? && Legal(policy, st, step) && CanariesApart(step.subs, step.canaries)
    ensures SettledInClass(st, fid, AtFacility(step.results, fid))
  {
    var rs := AtFacility(step.results, fid);
    AtFacilityIs(step.results, fid);
    hide AtFacility, WellShaped;
    forall r | r in rs && r.poller.Some?
      ensures WellShaped(st, policy.reverify, step.subs, step.canaries, step.sweep, r.poll)
              && r.poller.value in r.poll.candidates
    {
      var i :| 0 <= i < |step.polls| && step.polls[i] == r.poll;
      assert WellShaped(st, policy.reverify, step.subs, step.canaries, step.sweep, step.polls[i]);
    }
    assert forall r :: r in rs ==> r.poll.facility == fid;
    assert OneKeyOneSubscription(step.subs);
    hide Legal, OneKeyOneSubscription, CanariesApart;
    forall r | r in rs && Settled(r)
      ensures r.poll.covers != [] && !CalibratedNow(rs, r.poll.covers[0])
      ensures forall x :: x in Members(r) ==> ClassAt(st, fid, x) == ClassAt(st, fid, r.poll.covers[0])
    {
      SettledPoll(st, policy.reverify, step.subs, step.canaries, step.sweep, r);
      var s :| s in step.subs && !Due(st, policy.reverify, s.KeyOf(), step.sweep)
               && s.KeyOf() == Key(r.poll.covers[0], r.poll.facility);
      forall q | q in rs && IsCalibrating(q.poll) && q.poller.Some?
        ensures s.scheduleId !in Members(q)
      {
        CalibratingPoll(st, policy.reverify, step.subs, step.canaries, step.sweep, q, s);
      }
    }
  }
}
