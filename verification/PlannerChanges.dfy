/** Who changes class in a sweep: no schedule id is asked about twice in one, so the exact condition holds of every
    legal step; and a run that ends with a step in which it fails. */
module PlannerChanges {
  import opened Basics
  import opened Calendar
  import opened PlannerSpec
  import opened PlannerEvidence
  import opened PlannerOptimality
  import opened PlannerRuns
  import opened PlannerAnchors

  // ---------------------------------------------------------------- a plan names everyone once

  /** Whom a poll serves, and who may make it. */
  ghost predicate Names(p: PollView, x: ScheduleId) {
    x in p.covers || exists c :: c in p.candidates && c.scheduleId == x
  }

  /** The canaries' schedule ids are pairwise different. */
  ghost predicate CanariesDiffer(canaries: seq<Poller>) {
    forall i, j :: 0 <= i < j < |canaries| ==> canaries[i].scheduleId != canaries[j].scheduleId
  }

  /** Asked for its ETag by this poll. */
  ghost predicate ChecksCanary(st: Learned, reverify: int, subs: set<Subscription>, canaries: seq<Poller>, sweep: int,
                               p: PollView, c: Poller) {
    p.tag == EtagCheck && p.candidates != [] && p.candidates[0] == c
    && Probed(st, reverify, subs, canaries, sweep, p.facility, c)
  }

  /** Not asked for its ETag, but a candidate for its own class. */
  ghost predicate HelpsClass(st: Learned, reverify: int, subs: set<Subscription>, canaries: seq<Poller>, sweep: int,
                             p: PollView, c: Poller) {
    && !Probed(st, reverify, subs, canaries, sweep, p.facility, c) && Key(c.scheduleId, p.facility) in st.cls
    && ServesGroup(st, reverify, subs, sweep, p, st.cls[Key(c.scheduleId, p.facility)])
  }

  /** A name on a poll is a subscriber it serves, or a canary in one of two roles. */
  lemma NameIs(st: Learned, reverify: int, subs: set<Subscription>, canaries: seq<Poller>, sweep: int, p: PollView,
               x: ScheduleId)
    requires WellShaped(st, reverify, subs, canaries, sweep, p) && Names(p, x)
    ensures || x in p.covers
            || exists c :: c in canaries && c.scheduleId == x
                           && (ChecksCanary(st, reverify, subs, canaries, sweep, p, c)
                               || HelpsClass(st, reverify, subs, canaries, sweep, p, c))
  {
    if x !in p.covers {
      var c :| c in p.candidates && c.scheduleId == x;
      hide Due, Probed, ServesGroup;
      if cid :| ClassPoll(st, reverify, subs, canaries, sweep, p, cid) {
        ClassNameIs(st, reverify, subs, canaries, sweep, p, cid, c);
      } else if q :| Probed(st, reverify, subs, canaries, sweep, p.facility, q) && p == ProbePoll(p.facility, q) {
        assert q in canaries by {
          ProbedIsCanary(st, reverify, subs, canaries, sweep, p.facility, q);
        }
        assert ChecksCanary(st, reverify, subs, canaries, sweep, p, q);
      }
    }
  }

  lemma ProbedIsCanary(st: Learned, reverify: int, subs: set<Subscription>, canaries: seq<Poller>, sweep: int,
                       fid: FacilityId, c: Poller)
    requires Probed(st, reverify, subs, canaries, sweep, fid, c)
    ensures c in canaries
  {
  }

  lemma ClassNameIs(st: Learned, reverify: int, subs: set<Subscription>, canaries: seq<Poller>, sweep: int, p: PollView,
                    cid: int, c: Poller)
    requires ClassPoll(st, reverify, subs, canaries, sweep, p, cid) && c in p.candidates && c.scheduleId !in p.covers
    ensures c in canaries
    ensures ChecksCanary(st, reverify, subs, canaries, sweep, p, c)
            || HelpsClass(st, reverify, subs, canaries, sweep, p, c)
  {
    var own := OwnCanaries(st, canaries, p.facility, cid);
    OwnCanariesAre(st, canaries, p.facility, cid);
    assert p.candidates == First(p) + Fallbacks(p);
    assert c !in Fallbacks(p);
    if p.tag == NoLabel {
      assert c in multiset(First(p));
      assert c in multiset(own);
    }
    hide Probed, ServesGroup;
  }

  lemma CoveredIsSubscriber(policy: Policy, st: Learned, subs: set<Subscription>, canaries: seq<Poller>, sweep: int,
                            polls: seq<PollView>, i: nat, x: ScheduleId)
    requires IsPlan(policy, st, subs, canaries, sweep, polls) && i < |polls| && x in polls[i].covers
    ensures exists s :: s in subs && s.scheduleId == x
  {
    CoveringPollIs(policy, st, subs, canaries, sweep, polls, polls[i], x);
    var s :| s in subs && s.KeyOf() == Key(x, polls[i].facility);
  }

  lemma CanariesDifferHaveNoDup(canaries: seq<Poller>)
    requires CanariesDiffer(canaries)
    ensures NoDup(canaries)
    ensures forall a, b :: a in canaries && b in canaries && a.scheduleId == b.scheduleId ==> a == b
  {
  }

  /** Two polls of a plan at one consulate have no name in common, when the canaries' schedule ids differ from each
      other and from the subscribers'. */
  lemma PlanNamesOnce(policy: Policy, st: Learned, subs: set<Subscription>, canaries: seq<Poller>, sweep: int,
                      polls: seq<PollView>, i: nat, j: nat, x: ScheduleId)
    requires policy.enabled && IsPlan(policy, st, subs, canaries, sweep, polls)
    requires CanariesDiffer(canaries) && CanariesApart(subs, canaries)
    requires i < |polls| && j < |polls| && polls[i].facility == polls[j].facility && Names(polls[i], x)
             && Names(polls[j], x)
    ensures i == j
  {
    PlanPartitions(policy, st, subs, canaries, sweep, polls);
    PollOfPlan(st, policy.reverify, subs, canaries, sweep, polls, i);
    PollOfPlan(st, policy.reverify, subs, canaries, sweep, polls, j);
    NameIs(st, policy.reverify, subs, canaries, sweep, polls[i], x);
    NameIs(st, policy.reverify, subs, canaries, sweep, polls[j], x);
    CanariesDifferHaveNoDup(canaries);
    assert ChecksOnce(polls);
    hide WellShaped, Names, Probed, CanariesDiffer, ServesGroup;
    if x in polls[i].covers || x in polls[j].covers {
      CoveredIsSubscriber(policy, st, subs, canaries, sweep, polls, if x in polls[i].covers then i else j, x);
      assert x in polls[i].covers && x in polls[j].covers;
    } else {
      var c :| c in canaries && c.scheduleId == x
               && (ChecksCanary(st, policy.reverify, subs, canaries, sweep, polls[i], c)
                   || HelpsClass(st, policy.reverify, subs, canaries, sweep, polls[i], c));
      assert || ChecksCanary(st, policy.reverify, subs, canaries, sweep, polls[j], c)
             || HelpsClass(st, policy.reverify, subs, canaries, sweep, polls[j], c);
      if HelpsClass(st, policy.reverify, subs, canaries, sweep, polls[i], c) {
        assert HelpsClass(st, policy.reverify, subs, canaries, sweep, polls[j], c);
        OneClassOnePoll(st, policy.reverify, subs, sweep, polls, i, j, st.cls[Key(x, polls[i].facility)]);
      }
    }
  }

  lemma OneClassOnePoll(st: Learned, reverify: int, subs: set<Subscription>, sweep: int, polls: seq<PollView>, i: nat,
                        j: nat, cid: int)
    requires Partitions(subs, polls) && i < |polls| && j < |polls| && polls[i].facility == polls[j].facility
    requires ServesGroup(st, reverify, subs, sweep, polls[i], cid)
             && ServesGroup(st, reverify, subs, sweep, polls[j], cid)
    ensures i == j
  {
    var x := polls[i].covers[0];
    assert x in polls[i].covers;
    assert x in polls[j].covers;
  }

  // ---------------------------------------------------------------- so its answers name everyone under one ETag

  /** Two answers to one poll are one answer. */
  lemma AnsweredOnce(policy: Policy, st: Learned, step: Step, i: nat, j: nat, x: ScheduleId)
    requires policy.enabled && step.Sweep? && Legal(policy, st, step)
    requires CanariesDiffer(step.canaries) && CanariesApart(step.subs, step.canaries)
    requires i < |step.results| && j < |step.results| && step.results[i].poll.facility == step.results[j].poll.facility
    requires x in Members(step.results[i]) && x in Members(step.results[j])
    ensures i == j
  {
    var a, b := step.results[i], step.results[j];
    assert a in step.results && b in step.results;
    var m: nat :| m < |step.polls| && step.polls[m] == a.poll;
    var n: nat :| n < |step.polls| && step.polls[n] == b.poll;
    assert Names(a.poll, x) && Names(b.poll, x);
    PlanNamesOnce(policy, st, step.subs, step.canaries, step.sweep, step.polls, m, n, x);
    forall q: nat | q < |step.polls| && step.polls[q] == a.poll
      ensures q == m
    {
      PlanNamesOnce(policy, st, step.subs, step.canaries, step.sweep, step.polls, m, q, x);
    }
    hide Legal, IsPlan;
    AtMostOnce(PollsOf(step.results), step.polls, i, j, m);
  }

  lemma CountsTwo<T>(s: seq<T>, i: nat, j: nat)
    requires i < j < |s| && s[i] == s[j]
    ensures multiset(s)[s[i]] >= 2
  {
    assert s == s[..j] + s[j..];
    assert s[..j][i] == s[i] && s[j..][0] == s[i];
    assert s[i] in s[..j] && s[i] in s[j..];
  }

  lemma {:induction false} CountsOne<T>(s: seq<T>, m: nat)
    requires m < |s| && forall q :: 0 <= q < |s| && s[q] == s[m] ==> q == m
    ensures multiset(s)[s[m]] == 1
  {
    var x := s[m];
    assert s == s[..m] + [x] + s[m + 1..];
    assert x !in s[..m] && x !in s[m + 1..];
  }

  lemma AtMostOnce<T>(s: seq<T>, t: seq<T>, i: nat, j: nat, m: nat)
    requires multiset(s) <= multiset(t) && i < |s| && j < |s| && s[i] == s[j]
    requires m < |t| && t[m] == s[i] && forall q :: 0 <= q < |t| && t[q] == t[m] ==> q == m
    ensures i == j
  {
    CountsOne(t, m);
    if i < j {
      CountsTwo(s, i, j);
    } else if j < i {
      CountsTwo(s, j, i);
    }
  }

  lemma OneAnswerEach(policy: Policy, st: Learned, step: Step, fid: FacilityId)
    requires policy.enabled && step.Sweep? && Legal(policy, st, step)
    requires CanariesDiffer(step.canaries) && CanariesApart(step.subs, step.canaries)
    ensures OneEtagEach(AtFacility(step.results, fid))
  {
    AtFacilityIs(step.results, fid);
    var rs := AtFacility(step.results, fid);
    hide AtFacility, Legal;
    forall a, b, x | a in rs && b in rs && Usable(a) && Usable(b) && x in Members(a) && x in Members(b)
      ensures a.etag == b.etag
    {
      var i :| 0 <= i < |step.results| && step.results[i] == a;
      var j :| 0 <= j < |step.results| && step.results[j] == b;
      AnsweredOnce(policy, st, step, i, j, x);
    }
  }

  // ---------------------------------------------------------------- who changes class in a sweep

  lemma SoloPlansCalibrateNobody(policy: Policy, st: Learned, step: Step, fid: FacilityId)
    requires !policy.enabled && step.Sweep? && Legal(policy, st, step)
    ensures !AnyCalibrating(AtFacility(step.results, fid))
  {
    AtFacilityIs(step.results, fid);
    hide AtFacility;
    forall r | r in AtFacility(step.results, fid)
      ensures !IsCalibrating(r.poll)
    {
      var i :| 0 <= i < |step.polls| && step.polls[i] == r.poll;
      assert AsksForItself(step.subs, step.polls[i]);
    }
  }

  /** The schedule ids not calibrated at this consulate keep their class through the sweep. */
  ghost predicate OnlyCalibratedChange(st: Learned, after: Learned, fid: FacilityId, rs: seq<PollResult>) {
    forall x :: !CalibratedNow(rs, x) ==> ClassAt(after, fid, x) == ClassAt(st, fid, x)
  }

  /** What one consulate looks like after the whole sweep. */
  lemma AfterTheSweep(st: Learned, results: Round, sweep: int, fid: FacilityId) returns (before: Learned)
    ensures SameAt(st, before, fid)
    ensures SameAt(ObserveFacility(before, fid, AtFacility(results, fid), sweep), Observed(st, results, sweep), fid)
  {
    FacilitiesAre(results);
    AtFacilityIs(results, fid);
    FacilityInSweep(st, results, sweep, Facilities(results), fid);
    hide ObserveFacilities, Facilities, AtFacility, JoinBuckets, NoteAll;
    if fid in Facilities(results) {
      before :| SameAt(st, before, fid)
                && SameAt(ObserveFacility(before, fid, AtFacility(results, fid), sweep), Observed(st, results, sweep),
                          fid);
    } else {
      before := st;
      assert !AnyCalibrating(AtFacility(results, fid));
    }
  }

  lemma SameClassesAt(st: Learned, after: Learned, fid: FacilityId)
    requires SameAt(st, after, fid)
    ensures forall x :: ClassAt(st, fid, x) == ClassAt(after, fid, x)
  {
    forall x
      ensures ClassAt(st, fid, x) == ClassAt(after, fid, x)
    {
      assert Key(x, fid).facility == fid;
    }
  }

  /** In every sweep of every run with such canaries: only those calibrated in the sweep change class if and only if,
      when anything is calibrated, every settled answer comes from a known class and those under one ETag from one
      class. */
  lemma OnlyCalibratedChangeClassInASweep(policy: Policy, st: Learned, step: Step, fid: FacilityId)
    requires step.Sweep? && Legal(policy, st, step)
    requires CanariesDiffer(step.canaries) && CanariesApart(step.subs, step.canaries)
    ensures var rs := AtFacility(step.results, fid);
            OnlyCalibratedChange(st, Observed(st, step.results, step.sweep), fid, rs)
            <==> (AnyCalibrating(rs) ==> AnchorsAgree(st, fid, rs))
  {
    var rs, after := AtFacility(step.results, fid), Observed(st, step.results, step.sweep);
    var before := AfterTheSweep(st, step.results, step.sweep, fid);
    var alone := ObserveFacility(before, fid, rs, step.sweep);
    SameClassesAt(st, before, fid);
    SameClassesAt(alone, after, fid);
    assert AnchorsAgree(st, fid, rs) <==> AnchorsAgree(before, fid, rs);
    if AnyCalibrating(rs) {
      if !policy.enabled {
        SoloPlansCalibrateNobody(policy, st, step, fid);
      }
      OneAnswerEach(policy, st, step, fid);
      PlannedAnswersAreSettledInClass(policy, st, step, fid);
      assert SettledInClass(before, fid, rs);
      hide Legal, AnchorsAgree, SettledInClass, ObserveFacility, Observed, AtFacility, CalibratedNow, ClassAt;
      OnlyCalibratedChangeClassExactly(before, fid, rs, step.sweep);
    } else {
      hide Legal, AnchorsAgree, Observed, AtFacility, CalibratedNow, ClassAt;
    }
  }
}
