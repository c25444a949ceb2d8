/** Who counts as calibrated, and when: exactly those whose calibrating request was answered, in the sweep it last
    was. */
module PlannerCalibration {
  import opened Basics
  import opened Calendar
  import opened PlannerSpec
  import opened PlannerEvidence
  import opened PlannerOptimality
  import opened PlannerRuns
  import opened PlannerAnchors
  import opened PlannerChanges

  /** This answer calibrates `k`: the poll was a calibration or a probe, it covers `k`, and days came back, if only an
      empty list of them. */
  predicate Calibrates(r: PollResult, k: Key) {
    && (r.poll.kind == Calibrate || r.poll.tag == Calibrating)
    && Covers(r.poll, k) && r.poller.Some? && r.days.Some?
  }

  function CalibratedAt(st: Learned, k: Key): Option<int> {
    if k in st.calibrated then Some(st.calibrated[k]) else None
  }

  lemma OneNote(st: Learned, fid: FacilityId, r: PollResult, sweep: int, k: Key)
    requires k.facility == fid == r.poll.facility
    ensures CalibratedAt(Note(st, fid, r, sweep), k) == if Calibrates(r, k) then Some(sweep) else CalibratedAt(st, k)
  {
    assert k in KeysAt(SeqSet(r.poll.covers), fid) <==> Covers(r.poll, k);
  }

  lemma {:induction false} NotingCalibratesExactly(st: Learned, fid: FacilityId, rs: seq<PollResult>, sweep: int,
                                                   k: Key)
    requires k.facility == fid && forall r :: r in rs ==> r.poll.facility == fid
    ensures CalibratedAt(NoteAll(st, fid, rs, sweep), k)
            == if exists r :: r in rs && Calibrates(r, k) then Some(sweep) else CalibratedAt(st, k)
  {
    if rs != [] {
      var front, last := rs[..|rs| - 1], rs[|rs| - 1];
      assert rs == front + [last];
      assert forall r :: r in rs <==> r in front || r == last;
      NotingCalibratesExactly(st, fid, front, sweep, k);
      OneNote(NoteAll(st, fid, front, sweep), fid, last, sweep, k);
      hide Note, Calibrates, CalibratedAt;
      if Calibrates(last, k) {
        assert last in rs;
      }
    }
  }

  /** After a sweep's answers a calendar is calibrated at this sweep if and only if some calibrating request covering
      it was answered, with days or without any; otherwise it is calibrated as it was. */
  lemma ObservingCalibratesExactly(st: Learned, results: Round, sweep: int, k: Key)
    ensures CalibratedAt(Observed(st, results, sweep), k)
            == if exists r :: r in results && Calibrates(r, k) then Some(sweep) else CalibratedAt(st, k)
  {
    var rs := AtFacility(results, k.facility);
    AtFacilityIs(results, k.facility);
    var before := AfterTheSweep(st, results, sweep, k.facility);
    NotingCalibratesExactly(before, k.facility, rs, sweep, k);
    JoiningKeepsCalibration(NoteAll(before, k.facility, rs, sweep), k.facility, rs, Etags(rs));
    assert forall r :: r in rs && Calibrates(r, k) <==> r in results && Calibrates(r, k);
    hide NoteAll, JoinBuckets, Observed, AtFacility, Etags;
  }

  // ---------------------------------------------------------------- what is no evidence

  /** No days, an empty list of them, no ETag or an empty one: the answer says nothing about which calendar it is. */
  predicate SaysNothing(r: PollResult) {
    r.poller.None? || r.days.None? || r.days == Some([]) || r.etag.None? || r.etag == Some("")
  }

  lemma {:induction false} NotingOnlyRemoves(st: Learned, fid: FacilityId, rs: seq<PollResult>, sweep: int,
                                             x: ScheduleId)
    ensures var after := ClassAt(NoteAll(st, fid, rs, sweep), fid, x); after == None || after == ClassAt(st, fid, x)
  {
    if rs != [] {
      NotingOnlyRemoves(st, fid, rs[..|rs| - 1], sweep, x);
    }
  }

  /** Answers that say nothing give nobody a class: who is named in no others keeps its class or loses it. */
  lemma NothingSaidNobodyJoined(st: Learned, results: Round, sweep: int, k: Key)
    requires forall r :: r in results && r.poll.facility == k.facility && k.scheduleId in Members(r) ==> SaysNothing(r)
    ensures var after := ClassAt(Observed(st, results, sweep), k.facility, k.scheduleId);
            after == None || after == ClassAt(st, k.facility, k.scheduleId)
  {
    var fid, x := k.facility, k.scheduleId;
    var rs := AtFacility(results, fid);
    AtFacilityIs(results, fid);
    var before := AfterTheSweep(st, results, sweep, fid);
    SameClassesAt(st, before, fid);
    SameClassesAt(ObserveFacility(before, fid, rs, sweep), Observed(st, results, sweep), fid);
    NotingOnlyRemoves(before, fid, rs, sweep, x);
    forall e | e in Etags(rs)
      ensures x !in BucketMembers(Bucket(rs, e))
    {
      BucketIs(rs, e);
      BucketMembersAre(Bucket(rs, e));
    }
    JoiningLeavesOthers(NoteAll(before, fid, rs, sweep), fid, rs, Etags(rs), x);
    hide NoteAll, JoinBuckets, Observed, AtFacility, Etags, Bucket, BucketMembers;
  }

  // ---------------------------------------------------------------- runs

  /** The sweep in which `k` was last calibrated, unless it was forgotten since. */
  function LastCalibrated(steps: seq<Step>, k: Key): Option<int> {
    if steps == [] then None
    else
      var before := LastCalibrated(steps[..|steps| - 1], k);
      match steps[|steps| - 1]
      case Sweep(_, _, sweep, _, results) => if exists r ::
             r in results && Calibrates(r, k) then Some(sweep) else before
      case Forget(None) => None
      case Forget(Some(who)) => if who == k.scheduleId then None else before
  }

  lemma {:induction false} CalibratedExactly(steps: seq<Step>, k: Key)
    ensures CalibratedAt(StateAfter(steps), k) == LastCalibrated(steps, k)
  {
    if steps != [] {
      var front := steps[..|steps| - 1];
      CalibratedExactly(front, k);
      match steps[|steps| - 1] {
        case Sweep(_, _, sweep, _, results) => ObservingCalibratesExactly(StateAfter(front), results, sweep, k);
        case Forget(_) =>
      }
    }
  }

  /** Over any steps: a subscriber is due if and only if it was not calibrated since it was last forgotten, or a
      re-verification is configured and at least that many sweeps ago. */
  lemma DueExactly(steps: seq<Step>, reverify: int, k: Key, sweep: int)
    ensures Due(StateAfter(steps), reverify, k, sweep) <==>
            match LastCalibrated(steps, k)
            case None => true
            case Some(at) => reverify > 0 && sweep >= at + reverify
  {
    CalibratedExactly(steps, k);
  }

  /** Whoever's calibrating requests have all failed is still due. */
  lemma {:induction false} FailuresLeaveDue(steps: seq<Step>, reverify: int, k: Key, sweep: int)
    requires forall step, r ::
               step in steps && step.Sweep? && r in step.results && Covers(r.poll, k) && IsCalibrating(r.poll) ==>
                                 r.days == None
    ensures LastCalibrated(steps, k) == None && Due(StateAfter(steps), reverify, k, sweep)
  {
    DueExactly(steps, reverify, k, sweep);
    if steps != [] {
      var front, last := steps[..|steps| - 1], steps[|steps| - 1];
      assert last in steps && forall step :: step in front ==> step in steps;
      FailuresLeaveDue(front, reverify, k, sweep);
    }
  }

  // ---------------------------------------------------------------- forgetting

  /** Forgetting an id leaves no entry of it, and every other one as it was; forgetting everything leaves none. */
  lemma ForgettingForgetsExactly(st: Learned, who: Option<ScheduleId>, k: Key)
    ensures var gone := who.None? || who.value == k.scheduleId;
            && CalibratedAt(Forgotten(st, who), k) == (if gone then None else CalibratedAt(st, k))
            && ClassAt(Forgotten(st, who), k.facility, k.scheduleId)
               == (if gone then None else ClassAt(st, k.facility, k.scheduleId))
  {
    assert Key(k.scheduleId, k.facility) == k;
  }

  // ---------------------------------------------------------------- visa types

  /** A canary is ruled out by two different declared types, and by nothing else: not by an equal one, nor by one that
      is missing or empty. */
  lemma RuledOutExactly(canary: Poller, sub: Subscription)
    ensures !Compatible(canary, sub) <==>
            exists a: string, b: string ::
              canary.visaType == Some(a) && sub.visaType == Some(b) && a != "" && b != "" && a != b
    ensures canary.visaType == sub.visaType ==> Compatible(canary, sub)
  {
  }
}
