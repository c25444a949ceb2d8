/** A run of two sweeps at the end of which a canary has answered for some subscribers at one consulate, and every other
    subscriber for itself.  No request fails in it. */
module BorrowedRuns {
  import opened Basics
  import opened Calendar
  import opened PlannerSpec
  import opened PlannerEvidence
  import opened PlannerOptimality
  import opened PlannerRuns
  import opened PlannerAnchors
  import opened PlannerChanges
  import opened FanOut

  /** `mine` come to share a calendar with the canary at `fid`; `others` are everyone else's subscriptions, and those of
      the same people at other consulates.  `days` are what is free in the end. */
  datatype Cast = Cast(mine: seq<Subscription>, others: seq<Subscription>, fid: FacilityId, canary: Poller,
                       days: seq<Day>)

  function Everyone(c: Cast): seq<Subscription> {
    c.mine + c.others
  }

  ghost predicate CastOk(c: Cast) {
    && c.mine != [] && c.days != [] && c.canary.canary && c.canary.visaType == None
    && (forall s :: s in c.mine ==> s.facility == c.fid)
    && (forall s :: s in Everyone(c) ==> s.scheduleId != c.canary.scheduleId)
    && forall i, j :: 0 <= i < j < |Everyone(c)| ==> Everyone(c)[i].KeyOf() != Everyone(c)[j].KeyOf()
  }

  // ---------------------------------------------------------------- the first sweep

  function Places(subs: seq<Subscription>): seq<FacilityId> {
    if subs == [] then []
    else
      var before := Places(subs[..|subs| - 1]);
      var fid := subs[|subs| - 1].facility;
      if fid in before then before else before + [fid]
  }

  lemma {:induction false} PlacesAre(subs: seq<Subscription>)
    ensures forall fid :: fid in Places(subs) <==> exists s :: s in subs && s.facility == fid
    ensures NoDup(Places(subs))
  {
    if subs != [] {
      var front, last := subs[..|subs| - 1], subs[|subs| - 1];
      PlacesAre(front);
      assert subs == front + [last];
      assert forall s :: s in subs <==> s in front || s == last;
    }
  }

  /** Everyone is due, so the canary is asked for its ETag at every consulate. */
  function FirstPolls(c: Cast): seq<PollView> {
    var places := Places(Everyone(c));
    seq(|Everyone(c)|, i requires 0 <= i < |Everyone(c)| => SoloPoll(Everyone(c)[i], Calibrating))
    + seq(|places|, i requires 0 <= i < |places| => ProbePoll(places[i], c.canary))
  }

  /** Reads the calendar in question at that consulate. */
  predicate Shares(c: Cast, fid: FacilityId, x: ScheduleId) {
    fid == c.fid && (x == c.canary.scheduleId || exists s :: s in c.mine && s.scheduleId == x)
  }

  /** Only the shared calendar has anything on it. */
  function FirstReply(c: Cast, p: PollView): PollResult
    requires p.candidates != []
  {
    var shares := Shares(c, p.facility, p.candidates[0].scheduleId);
    PollResult(p, Some(p.candidates[0]), Some(if shares then c.days else []), Some(if shares then "a" else "b"))
  }

  function FirstSweep(c: Cast): Step {
    var polls := FirstPolls(c);
    Sweep(SeqSet(Everyone(c)), [c.canary], 1, polls,
          seq(|polls|, i requires 0 <= i < |polls| => FirstReply(c, polls[i])))
  }

  lemma EveryoneDiffers(c: Cast)
    requires CastOk(c)
    ensures OneKeyOneSubscription(SeqSet(Everyone(c)))
    ensures CanariesDiffer([c.canary]) && CanariesApart(SeqSet(Everyone(c)), [c.canary])
  {
    forall a, b | a in Everyone(c) && b in Everyone(c) && a.KeyOf() == b.KeyOf()
      ensures a == b
    {
      var i :| 0 <= i < |Everyone(c)| && Everyone(c)[i] == a;
      var j :| 0 <= j < |Everyone(c)| && Everyone(c)[j] == b;
    }
  }

  lemma FirstPollIs(c: Cast, i: nat)
    requires i < |FirstPolls(c)|
    ensures var p, n := FirstPolls(c)[i], |Everyone(c)|;
            if i < n then p == SoloPoll(Everyone(c)[i], Calibrating)
            else i - n < |Places(Everyone(c))| && p == ProbePoll(Places(Everyone(c))[i - n], c.canary)
    ensures |FirstPolls(c)| == |Everyone(c)| + |Places(Everyone(c))|
  {
  }

  lemma FirstPartitions(c: Cast)
    requires CastOk(c)
    ensures Partitions(SeqSet(Everyone(c)), FirstPolls(c))
  {
    var polls, subs := FirstPolls(c), Everyone(c);
    forall s | s in SeqSet(subs)
      ensures exists i :: 0 <= i < |polls| && Covers(polls[i], s.KeyOf())
    {
      var i :| 0 <= i < |subs| && subs[i] == s;
      FirstPollIs(c, i);
      assert Covers(polls[i], s.KeyOf());
    }
    forall i, j, x | 0 <= i < j < |polls| && polls[i].facility == polls[j].facility && x in polls[i].covers
      ensures x !in polls[j].covers
    {
      FirstPollIs(c, i);
      FirstPollIs(c, j);
      hide FirstPolls;
      assert j < |subs| ==> subs[i].KeyOf() != subs[j].KeyOf();
    }
  }

  lemma FirstChecksOnce(c: Cast)
    ensures ChecksOnce(FirstPolls(c))
  {
    PlacesAre(Everyone(c));
    var polls, n := FirstPolls(c), |Everyone(c)|;
    forall i, j | 0 <= i < j < |polls| && polls[i].tag == EtagCheck && polls[j].tag == EtagCheck
      ensures polls[i].facility != polls[j].facility
    {
      FirstPollIs(c, i);
      FirstPollIs(c, j);
      hide FirstPolls;
      assert Places(Everyone(c))[i - n] != Places(Everyone(c))[j - n];
    }
  }

  lemma FirstIsPlan(c: Cast, reverify: int)
    requires CastOk(c)
    ensures PlanOk(NOTHING_LEARNED, reverify, SeqSet(Everyone(c)), [c.canary], 1, FirstPolls(c))
  {
    var polls, subs, n := FirstPolls(c), SeqSet(Everyone(c)), |Everyone(c)|;
    FirstPartitions(c);
    FirstChecksOnce(c);
    PlacesAre(Everyone(c));
    hide Partitions, ChecksOnce;
    forall fid | fid in Places(Everyone(c))
      ensures Probed(NOTHING_LEARNED, reverify, subs, [c.canary], 1, fid, c.canary)
    {
      var s :| s in Everyone(c) && s.facility == fid;
      assert Due(NOTHING_LEARNED, reverify, s.KeyOf(), 1) && Compatible(c.canary, s) && s in subs;
    }
    forall i | 0 <= i < |polls|
      ensures WellShaped(NOTHING_LEARNED, reverify, subs, [c.canary], 1, polls[i])
    {
      FirstPollIs(c, i);
      hide FirstPolls, Probed;
      if i < n {
        var s := Everyone(c)[i];
        assert s in subs && Due(NOTHING_LEARNED, reverify, s.KeyOf(), 1) && polls[i] == SoloPoll(s, Calibrating);
      } else {
        assert Probed(NOTHING_LEARNED, reverify, subs, [c.canary], 1, polls[i].facility, c.canary);
      }
    }
    forall fid, q | Probed(NOTHING_LEARNED, reverify, subs, [c.canary], 1, fid, q)
      ensures AsksCanary(polls, fid, q)
    {
      assert q == c.canary && fid in Places(Everyone(c));
      var i :| 0 <= i < |Places(Everyone(c))| && Places(Everyone(c))[i] == fid;
      FirstPollIs(c, n + i);
      assert polls[n + i] == ProbePoll(fid, q);
    }
  }

  lemma FirstIsLegal(c: Cast, policy: Policy)
    requires CastOk(c) && policy.enabled
    ensures Legal(policy, NOTHING_LEARNED, FirstSweep(c))
    ensures PollsOf(FirstSweep(c).results) == FirstSweep(c).polls
  {
    hide PlanOk, CanariesDiffer, CanariesApart, OneKeyOneSubscription, Shares, CastOk;
    var step := FirstSweep(c);
    EveryoneDiffers(c);
    FirstIsPlan(c, policy.reverify);
    assert PollsOf(step.results) == step.polls;
    forall r | r in step.results
      ensures r.poll in step.polls && r.poller.Some? && r.poller.value in r.poll.candidates
    {
      var i :| 0 <= i < |step.results| && step.results[i] == r;
      assert step.polls[i] == r.poll && r.poll.candidates[0] == r.poller.value;
    }
  }

  // ---------------------------------------------------------------- what it teaches

  lemma SubscriberReplies(c: Cast, s: Subscription)
    requires s in Everyone(c)
    ensures FirstReply(c, SoloPoll(s, Calibrating)) in FirstSweep(c).results
  {
    var i :| 0 <= i < |Everyone(c)| && Everyone(c)[i] == s;
    FirstPollIs(c, i);
    assert FirstSweep(c).results[i] == FirstReply(c, FirstPolls(c)[i]);
  }

  lemma CanaryReplies(c: Cast, fid: FacilityId)
    requires fid in Places(Everyone(c))
    ensures FirstReply(c, ProbePoll(fid, c.canary)) in FirstSweep(c).results
  {
    var i :| 0 <= i < |Places(Everyone(c))| && Places(Everyone(c))[i] == fid;
    FirstPollIs(c, |Everyone(c)| + i);
    assert FirstSweep(c).results[|Everyone(c)| + i] == FirstReply(c, FirstPolls(c)[|Everyone(c)| + i]);
  }

  /** Each answer calibrates, and names its asker only. */
  lemma FirstResultIs(c: Cast, r: PollResult)
    requires r in FirstSweep(c).results
    ensures r.poll.candidates != [] && r == FirstReply(c, r.poll) && IsCalibrating(r.poll)
    ensures Members(r) == {r.poller.value.scheduleId}
    ensures r.poller.value == c.canary
            || exists s :: s in Everyone(c) && s.facility == r.poll.facility && s.AsPoller() == r.poller.value
  {
    var i :| 0 <= i < |FirstPolls(c)| && FirstSweep(c).results[i] == r;
    FirstPollIs(c, i);
    hide FirstPolls, Shares;
    if i < |Everyone(c)| {
      assert Everyone(c)[i] in Everyone(c);
    }
  }

  lemma {:induction false} NotingCalibrates(st: Learned, fid: FacilityId, rs: seq<PollResult>, sweep: int,
                                            r: PollResult, x: ScheduleId)
    requires r in rs && IsCalibrating(r.poll) && r.poller.Some? && r.days.Some? && x in r.poll.covers
    ensures var after := NoteAll(st, fid, rs, sweep);
            Key(x, fid) in after.calibrated && after.calibrated[Key(x, fid)] == sweep
  {
    var front, last := rs[..|rs| - 1], rs[|rs| - 1];
    assert rs == front + [last];
    if last != r {
      NotingCalibrates(st, fid, front, sweep, r, x);
    }
  }

  lemma EveryoneIsCalibrated(c: Cast, s: Subscription)
    requires s in Everyone(c)
    ensures var after := Observed(NOTHING_LEARNED, FirstSweep(c).results, 1);
            s.KeyOf() in after.calibrated && after.calibrated[s.KeyOf()] == 1
  {
    var results, fid := FirstSweep(c).results, s.facility;
    var rs := AtFacility(results, fid);
    SubscriberReplies(c, s);
    var r := FirstReply(c, SoloPoll(s, Calibrating));
    AtFacilityIs(results, fid);
    var before := AfterTheSweep(NOTHING_LEARNED, results, 1, fid);
    hide Observed, AtFacility, FirstSweep, Shares;
    assert r in rs;
    NotingCalibrates(before, fid, rs, 1, r, s.scheduleId);
    JoiningKeepsCalibration(NoteAll(before, fid, rs, 1), fid, rs, Etags(rs));
    assert s.KeyOf().facility == fid;
  }

  /** Whoever answers with something on its calendar shares it. */
  lemma UsableShares(c: Cast, r: PollResult, x: ScheduleId)
    requires r in FirstSweep(c).results && Usable(r) && x in Members(r)
    ensures r.etag == Some("a") && Shares(c, r.poll.facility, x)
  {
    FirstResultIs(c, r);
    hide Shares, FirstSweep;
  }

  lemma OthersHaveNoClass(c: Cast, s: Subscription)
    requires CastOk(c) && s in c.others
    ensures ClassAt(Observed(NOTHING_LEARNED, FirstSweep(c).results, 1), s.facility, s.scheduleId) == None
  {
    var results, fid := FirstSweep(c).results, s.facility;
    var rs := AtFacility(results, fid);
    OthersDoNotShare(c, s);
    SubscriberReplies(c, s);
    var r := FirstReply(c, SoloPoll(s, Calibrating));
    AtFacilityIs(results, fid);
    var before := AfterTheSweep(NOTHING_LEARNED, results, 1, fid);
    forall q | q in rs && Usable(q)
      ensures s.scheduleId !in Members(q)
    {
      if s.scheduleId in Members(q) {
        UsableShares(c, q, s.scheduleId);
      }
    }
    hide Observed, AtFacility, FirstSweep, Shares, ObserveFacility;
    assert r in rs && s.scheduleId in Members(r) && !Usable(r);
    EmptyCalendarLeavesNoClass(before, fid, rs, 1, s.scheduleId);
    SameClassesAt(ObserveFacility(before, fid, rs, 1), Observed(NOTHING_LEARNED, results, 1), fid);
  }

  lemma OthersDoNotShare(c: Cast, s: Subscription)
    requires CastOk(c) && s in c.others
    ensures s in Everyone(c) && !Shares(c, s.facility, s.scheduleId)
  {
    var j :| 0 <= j < |c.others| && c.others[j] == s;
    assert Everyone(c)[|c.mine| + j] == s;
    forall z | z in c.mine
      ensures z.KeyOf() != s.KeyOf()
    {
      var i :| 0 <= i < |c.mine| && c.mine[i] == z;
      assert Everyone(c)[i] == z;
    }
  }

  lemma SharersShareAClass(c: Cast, s: Subscription)
    requires CastOk(c) && s in c.mine
    ensures SameClass(Observed(NOTHING_LEARNED, FirstSweep(c).results, 1), s.KeyOf(), Key(c.canary.scheduleId, c.fid))
  {
    var results, fid := FirstSweep(c).results, c.fid;
    var rs, x, y := AtFacility(results, fid), s.scheduleId, c.canary.scheduleId;
    PlacesAre(Everyone(c));
    assert s in Everyone(c);
    SubscriberReplies(c, s);
    CanaryReplies(c, fid);
    AtFacilityIs(results, fid);
    var a, b := FirstReply(c, SoloPoll(s, Calibrating)), FirstReply(c, ProbePoll(fid, c.canary));
    assert Usable(a) && Usable(b) && a in rs && b in rs && x in Members(a) && y in Members(b);
    var before := AfterTheSweep(NOTHING_LEARNED, results, 1, fid);
    forall r | r in rs && Usable(r)
      ensures r.etag == Some("a")
    {
      FirstResultIs(c, r);
    }
    hide Observed, AtFacility, FirstSweep, Shares, FirstReply;
    InItsBucket(rs, a, x);
    InItsBucket(rs, b, y);
    EtagsAre(rs);
    hide Bucket, BucketMembers, Etags, JoinBuckets, NoteAll, Usable, Members, IsCalibrating;
    BucketsShareAClass(NoteAll(before, fid, rs, 1), fid, rs, Etags(rs), "a", x, y);
    assert AnyCalibrating(rs) by {
      AnswerCalibrates(c, a, rs);
    }
    assert s.KeyOf() == Key(x, fid);
  }

  lemma AnswerCalibrates(c: Cast, a: PollResult, rs: Round)
    requires a in FirstSweep(c).results && a in rs
    ensures AnyCalibrating(rs)
  {
    FirstResultIs(c, a);
  }

  /** `mine` and the canary form the class `cid`, nobody else has a class, and everyone was calibrated in sweep 1. */
  ghost predicate Classed(c: Cast, st: Learned, cid: int) {
    && ClassAt(st, c.fid, c.canary.scheduleId) == Some(cid)
    && forall s :: s in Everyone(c) ==>
                     && s.KeyOf() in st.calibrated && st.calibrated[s.KeyOf()] == 1
                     && ClassAt(st, s.facility, s.scheduleId) == if s in c.mine then Some(cid) else None
  }

  lemma FirstTeaches(c: Cast) returns (cid: int)
    requires CastOk(c)
    ensures Classed(c, Observed(NOTHING_LEARNED, FirstSweep(c).results, 1), cid)
  {
    var st := Observed(NOTHING_LEARNED, FirstSweep(c).results, 1);
    SharersShareAClass(c, c.mine[0]);
    hide Observed, FirstSweep;
    cid := st.cls[Key(c.canary.scheduleId, c.fid)];
    forall s | s in Everyone(c)
      ensures s.KeyOf() in st.calibrated && st.calibrated[s.KeyOf()] == 1
      ensures ClassAt(st, s.facility, s.scheduleId) == if s in c.mine then Some(cid) else None
    {
      EveryoneIsCalibrated(c, s);
      if s in c.mine {
        SharersShareAClass(c, s);
      } else {
        OthersHaveNoClass(c, s);
      }
    }
  }

  // ---------------------------------------------------------------- the second sweep

  function IdsOf(subs: seq<Subscription>): seq<ScheduleId> {
    seq(|subs|, i requires 0 <= i < |subs| => subs[i].scheduleId)
  }

  function PollersOf(subs: seq<Subscription>): seq<Poller> {
    seq(|subs|, i requires 0 <= i < |subs| => subs[i].AsPoller())
  }

  /** Nobody is due any more: one request for the class, by the canary if it answers, and one for each of the others. */
  function ClassRequest(c: Cast): PollView {
    PollView(c.fid, [c.canary] + PollersOf(c.mine), IdsOf(c.mine), Shared, NoLabel)
  }

  function SecondPolls(c: Cast): seq<PollView> {
    [ClassRequest(c)] + seq(|c.others|, i requires 0 <= i < |c.others| => SoloPoll(c.others[i], NoLabel))
  }

  /** Now the days are free at `fid` for everyone. */
  function SecondReply(c: Cast, p: PollView): PollResult
    requires p.candidates != []
  {
    PollResult(p, Some(p.candidates[0]), Some(if p.facility == c.fid then c.days else []),
               Some(if p.candidates[0] == c.canary then "a" else "b"))
  }

  function SecondSweep(c: Cast): (step: Step)
    ensures step.Sweep?
  {
    var polls := SecondPolls(c);
    Sweep(SeqSet(Everyone(c)), [c.canary], 2, polls,
          seq(|polls|, i requires 0 <= i < |polls| => SecondReply(c, polls[i])))
  }

  lemma SecondPollIs(c: Cast, i: nat)
    requires i < |SecondPolls(c)|
    ensures |SecondPolls(c)| == 1 + |c.others|
    ensures SecondPolls(c)[i] == if i == 0 then ClassRequest(c) else SoloPoll(c.others[i - 1], NoLabel)
  {
  }

  /** A key is served by the class's request or by its subscriber's own, and not by two of them. */
  lemma SecondServes(c: Cast, i: nat, x: ScheduleId)
    requires CastOk(c) && i < |SecondPolls(c)| && x in SecondPolls(c)[i].covers
    ensures exists j :: 0 <= j < |Everyone(c)| && Everyone(c)[j].KeyOf() == Key(x, SecondPolls(c)[i].facility)
                        && if i == 0 then j < |c.mine| else j == |c.mine| + i - 1
  {
    SecondPollIs(c, i);
    hide SecondPolls;
    if i == 0 {
      var j :| 0 <= j < |c.mine| && IdsOf(c.mine)[j] == x;
      assert Everyone(c)[j] == c.mine[j] && c.mine[j] in c.mine;
    } else {
      assert Everyone(c)[|c.mine| + i - 1] == c.others[i - 1];
    }
  }

  lemma SecondPartitions(c: Cast)
    requires CastOk(c)
    ensures Partitions(SeqSet(Everyone(c)), SecondPolls(c))
  {
    var polls, subs := SecondPolls(c), Everyone(c);
    forall s | s in SeqSet(subs)
      ensures exists i :: 0 <= i < |polls| && Covers(polls[i], s.KeyOf())
    {
      var j :| 0 <= j < |subs| && subs[j] == s;
      if j < |c.mine| {
        SecondPollIs(c, 0);
        assert s in c.mine && IdsOf(c.mine)[j] == s.scheduleId;
        assert Covers(polls[0], s.KeyOf());
      } else {
        SecondPollIs(c, 1 + j - |c.mine|);
        assert Covers(polls[1 + j - |c.mine|], s.KeyOf());
      }
    }
    forall i, j, x | 0 <= i < j < |polls| && polls[i].facility == polls[j].facility && x in polls[i].covers
      ensures x !in polls[j].covers
    {
      hide SecondPolls;
      if x in polls[j].covers {
        SecondServes(c, i, x);
        SecondServes(c, j, x);
      }
    }
  }

  lemma ClassIsServed(c: Cast, st: Learned, cid: int)
    requires CastOk(c) && Classed(c, st, cid)
    ensures WellShaped(st, 10, SeqSet(Everyone(c)), [c.canary], 2, ClassRequest(c))
  {
    var p, subs := ClassRequest(c), SeqSet(Everyone(c));
    NobodyIsDue(c, st, cid);
    forall s
      ensures s in subs && InGroup(st, 10, 2, s, c.fid, cid) <==> s in c.mine
    {
      assert s in subs ==> ClassAt(st, s.facility, s.scheduleId) == if s in c.mine then Some(cid) else None;
    }
    assert forall s :: s in c.mine ==> s in subs;
    MineOnce(c);
    hide Everyone, Classed, CastOk, InGroup, Due, ClassAt;
    assert Fallbacks(p) == PollersOf(c.mine) && First(p) == [c.canary];
    forall x
      ensures x in p.covers <==> exists s :: s in subs && InGroup(st, 10, 2, s, p.facility, cid) && s.scheduleId == x
    {
      if s :| s in c.mine && s.scheduleId == x {
        var i :| 0 <= i < |c.mine| && c.mine[i] == s;
        assert IdsOf(c.mine)[i] == x;
      }
    }
    forall q
      ensures q in Fallbacks(p)
              <==> exists s :: s in subs && InGroup(st, 10, 2, s, p.facility, cid) && s.AsPoller() == q
    {
      if s :| s in c.mine && s.AsPoller() == q {
        var i :| 0 <= i < |c.mine| && c.mine[i] == s;
        assert PollersOf(c.mine)[i] == q;
      }
    }
    assert ServesGroup(st, 10, subs, 2, p, cid);
    assert [c.canary][..0] == [];
    assert OwnCanaries(st, [], c.fid, cid) == [] && OwnCanaries(st, [c.canary], c.fid, cid) == [c.canary];
    assert ClassPoll(st, 10, subs, [c.canary], 2, p, cid);
  }

  lemma MineOnce(c: Cast)
    requires CastOk(c)
    ensures NoDup(IdsOf(c.mine)) && c.mine != []
  {
    forall i, j | 0 <= i < j < |c.mine|
      ensures c.mine[i].scheduleId != c.mine[j].scheduleId
    {
      assert Everyone(c)[i] == c.mine[i] && Everyone(c)[j] == c.mine[j];
      assert c.mine[i] in c.mine && c.mine[j] in c.mine;
    }
  }

  lemma NobodyIsDue(c: Cast, st: Learned, cid: int)
    requires CastOk(c) && Classed(c, st, cid)
    ensures forall s :: s in Everyone(c) ==> !Due(st, 10, s.KeyOf(), 2)
    ensures forall fid, q :: !Probed(st, 10, SeqSet(Everyone(c)), [c.canary], 2, fid, q)
    ensures InClass(st, c.fid, c.canary, cid)
  {
  }

  lemma SecondIsPlan(c: Cast, st: Learned, cid: int)
    requires CastOk(c) && Classed(c, st, cid)
    ensures PlanOk(st, 10, SeqSet(Everyone(c)), [c.canary], 2, SecondPolls(c))
  {
    var polls, subs := SecondPolls(c), SeqSet(Everyone(c));
    SecondPartitions(c);
    ClassIsServed(c, st, cid);
    NobodyIsDue(c, st, cid);
    forall i | 0 <= i < |polls|
      ensures WellShaped(st, 10, subs, [c.canary], 2, polls[i]) && polls[i].tag != EtagCheck
    {
      SecondPollIs(c, i);
      if i > 0 {
        var s := c.others[i - 1];
        OthersDoNotShare(c, s);
        assert s !in c.mine && s in subs;
        hide SecondPolls, Due, ClassPoll, Probed;
        assert s.KeyOf() !in st.cls && !Due(st, 10, s.KeyOf(), 2) && polls[i] == SoloPoll(s, NoLabel);
      }
    }
    hide WellShaped, Partitions, SecondPolls, Probed;
  }

  lemma SecondIsLegal(c: Cast, st: Learned, cid: int)
    requires CastOk(c) && Classed(c, st, cid)
    ensures Legal(Policy(true, 10), st, SecondSweep(c))
    ensures PollsOf(SecondSweep(c).results) == SecondSweep(c).polls
  {
    var step := SecondSweep(c);
    EveryoneDiffers(c);
    SecondIsPlan(c, st, cid);
    hide PlanOk, CanariesDiffer, CanariesApart, OneKeyOneSubscription, CastOk, Classed;
    assert PollsOf(step.results) == step.polls;
    forall r | r in step.results
      ensures r.poll in step.polls && r.poller.Some? && r.poller.value in r.poll.candidates
    {
      var i :| 0 <= i < |step.results| && step.results[i] == r;
      assert step.polls[i] == r.poll && r.poll.candidates[0] == r.poller.value;
    }
  }

  function TwoSweeps(c: Cast): seq<Step> {
    [FirstSweep(c), SecondSweep(c)]
  }

  /** They are a run of the planner. */
  lemma TwoSweepsAreLegal(c: Cast)
    requires CastOk(c)
    ensures LegalRun(Policy(true, 10), TwoSweeps(c))
  {
    var policy := Policy(true, 10);
    FirstIsLegal(c, policy);
    var cid := FirstTeaches(c);
    SecondIsLegal(c, Observed(NOTHING_LEARNED, FirstSweep(c).results, 1), cid);
    AtTheStart(policy);
    var one, two := FirstSweep(c), SecondSweep(c);
    OneMore(policy, [], one);
    OneMore(policy, [one], two);
    hide Legal, LegalRun, StateAfter, Observed, FirstSweep, SecondSweep;
    assert [] + [one] == [one] && [one] + [two] == [one, two];
  }

  // ---------------------------------------------------------------- what it hands out

  predicate AskedBy(subs: seq<Subscription>, k: Key) {
    exists s :: s in subs && s.KeyOf() == k
  }

  /** A calendar is answered by the canary exactly when it is one of `mine`. */
  lemma SecondResultIs(c: Cast, r: PollResult, k: Key)
    requires CastOk(c) && r in SecondSweep(c).results && k in CoveredKeys(r)
    ensures AskedBy(Everyone(c), k) && r.poller.Some?
    ensures r.days == Some(if k.facility == c.fid then c.days else [])
    ensures if AskedBy(c.mine, k) then r.poller == Some(c.canary) else r.poller.value.scheduleId == k.scheduleId
  {
    var i :| 0 <= i < |SecondPolls(c)| && SecondSweep(c).results[i] == r;
    SecondPollIs(c, i);
    SecondServes(c, i, k.scheduleId);
    hide SecondPolls;
    var j :| 0 <= j < |Everyone(c)| && Everyone(c)[j].KeyOf() == k && if i == 0 then j < |c.mine|
             else j == |c.mine| + i - 1;
    assert Everyone(c)[j] in Everyone(c);
    if i == 0 {
      assert c.mine[j] in c.mine;
    } else {
      OthersDoNotShare(c, c.others[i - 1]);
      forall s | s in c.mine
        ensures s.KeyOf() != k
      {
        assert Everyone(c)[j] == c.others[i - 1];
      }
    }
  }

  lemma SomeoneAnswers(c: Cast, k: Key)
    requires CastOk(c) && AskedBy(Everyone(c), k)
    ensures exists r :: r in SecondSweep(c).results && k in CoveredKeys(r)
  {
    SecondPartitions(c);
    var s :| s in Everyone(c) && s.KeyOf() == k;
    assert s in SeqSet(Everyone(c));
    var i :| 0 <= i < |SecondPolls(c)| && Covers(SecondPolls(c)[i], s.KeyOf());
    var r := SecondSweep(c).results[i];
    hide SecondPolls;
    assert r in SecondSweep(c).results && r.poll == SecondPolls(c)[i];
    assert k.scheduleId in SeqSet(r.poll.covers);
  }

  /** Everyone has an entry, and exactly those of `mine` are borrowed, from the canary. */
  lemma FannedOut(c: Cast, k: Key)
    requires CastOk(c)
    ensures var calendars := FannedCalendars(SecondSweep(c).results);
            && (k in calendars <==> AskedBy(Everyone(c), k))
            && (k in calendars ==> calendars[k] == Some(if k.facility == c.fid then c.days else []))
    ensures var borrowed := FannedBorrowed(map[], SecondSweep(c).results);
            && (k in borrowed <==> AskedBy(c.mine, k))
            && (k in borrowed ==> borrowed[k] == c.canary.scheduleId)
    ensures AskedBy(c.mine, k) ==>
              forall r :: r in SecondSweep(c).results && Covers(r.poll, k) ==> FromCanary(r, k)
  {
    var results := SecondSweep(c).results;
    forall r | r in results && k in CoveredKeys(r)
      ensures AskedBy(Everyone(c), k) && r.poller.Some?
      ensures r.days == Some(if k.facility == c.fid then c.days else [])
      ensures if AskedBy(c.mine, k) then r.poller == Some(c.canary) else r.poller.value.scheduleId == k.scheduleId
    {
      SecondResultIs(c, r, k);
    }
    if AskedBy(Everyone(c), k) {
      SomeoneAnswers(c, k);
    }
    assert forall r: PollResult :: Covers(r.poll, k) ==> k in CoveredKeys(r);
    if AskedBy(c.mine, k) {
      MineAreWanted(c, k);
    }
    FannedFromAResult(results, k);
    BorrowedAgreesWithAnswerer(map[], results, k);
    hide FannedCalendars, FannedBorrowed, FannedSources, SecondSweep, CoveredKeys, AskedBy;
  }

  lemma MineAreWanted(c: Cast, k: Key)
    requires CastOk(c) && AskedBy(c.mine, k)
    ensures AskedBy(Everyone(c), k) && k.scheduleId != c.canary.scheduleId
  {
    var s :| s in c.mine && s.KeyOf() == k;
    assert s in Everyone(c);
  }

  // ---------------------------------------------------------------- at an honest site

  /** Three calendars: the shared one, the others at that consulate, and the empty ones elsewhere. */
  function Ident(c: Cast): Key -> int {
    (k: Key) => if Shares(c, k.facility, k.scheduleId) then 0 else if k.facility == c.fid then 1 else 2
  }

  function Days(c: Cast): (nat, int) -> seq<Day> {
    (t: nat, i: int) => if i == 0 || (i == 1 && t == 1) then c.days else []
  }

  lemma FirstIsHonest(c: Cast)
    requires CastOk(c)
    ensures Honest(Ident(c), Days(c), 0, FirstSweep(c).results)
  {
    var round := FirstSweep(c).results;
    hide FirstSweep, Shares;
    forall r | r in round
      ensures r.poller.Some? && r.days == Some(Days(c)(0, Ident(c)(Key(r.poller.value.scheduleId, r.poll.facility))))
      ensures Usable(r) ==> Ident(c)(Key(r.poller.value.scheduleId, r.poll.facility)) == 0
    {
      FirstResultIs(c, r);
    }
    forall i, j, fid | 0 <= i < |round| && 0 <= j < |round| && Matches(round[i], round[j], fid)
      ensures Ident(c)(Key(round[i].poller.value.scheduleId, fid))
                == Ident(c)(Key(round[j].poller.value.scheduleId, fid))
    {
      assert round[i] in round && round[j] in round;
    }
  }

  lemma SecondAskerIs(c: Cast, r: PollResult)
    requires CastOk(c) && r in SecondSweep(c).results
    ensures r.poll.candidates != [] && r == SecondReply(c, r.poll)
    ensures var asker := r.poller.value;
            if asker == c.canary then r.poll.facility == c.fid && Shares(c, c.fid, asker.scheduleId)
            else !Shares(c, r.poll.facility, asker.scheduleId)
  {
    var i :| 0 <= i < |SecondPolls(c)| && SecondSweep(c).results[i] == r;
    SecondPollIs(c, i);
    hide SecondPolls;
    if i > 0 {
      assert c.others[i - 1] in c.others;
      OthersDoNotShare(c, c.others[i - 1]);
    }
  }

  lemma SecondIsHonest(c: Cast)
    requires CastOk(c)
    ensures Honest(Ident(c), Days(c), 1, SecondSweep(c).results)
  {
    var round := SecondSweep(c).results;
    hide SecondSweep, Shares;
    forall r | r in round
      ensures r.poller.Some? && r.days == Some(Days(c)(1, Ident(c)(Key(r.poller.value.scheduleId, r.poll.facility))))
      ensures Usable(r) ==>
                Ident(c)(Key(r.poller.value.scheduleId, r.poll.facility)) == if r.etag == Some("a") then 0 else 1
    {
      SecondAskerIs(c, r);
    }
    forall i, j, fid | 0 <= i < |round| && 0 <= j < |round| && Matches(round[i], round[j], fid)
      ensures Ident(c)(Key(round[i].poller.value.scheduleId, fid))
                == Ident(c)(Key(round[j].poller.value.scheduleId, fid))
    {
      assert round[i] in round && round[j] in round;
    }
  }

  /** The answers of both sweeps are what an honest site would give. */
  lemma TwoSweepsAreHonest(c: Cast)
    requires CastOk(c)
    ensures HonestLog(Ident(c), Days(c), LogAfter(TwoSweeps(c)))
  {
    var one, two := FirstSweep(c), SecondSweep(c);
    FirstIsHonest(c);
    SecondIsHonest(c);
    OneMore(Policy(true, 10), [], one);
    OneMore(Policy(true, 10), [one], two);
    assert LogAfter([]) == [];
    hide Honest, Ident, Days, FirstSweep, SecondSweep, LogAfter, StateAfter, LegalRun, Legal;
    assert [] + [one] == [one] && [one] + [two] == TwoSweeps(c);
    assert LogAfter([one]) == [one.results] && LogAfter(TwoSweeps(c)) == [one.results, two.results];
  }
}
