/** A plan under construction: each append, and each reuse of a canary's check, keeps the draft right. */
module PlannerDrafts {
  import opened Basics
  import opened Calendar
  import opened PlannerSpec

  /** A draft covers nobody but the subscribers already dealt with. */
  ghost predicate CoversOnly(done: set<Subscription>, polls: seq<PollView>) {
    forall i, x :: 0 <= i < |polls| && x in polls[i].covers ==>
                     exists s :: s in done && s.KeyOf() == Key(x, polls[i].facility)
  }

  /** `at` says which poll each asked canary heads. */
  ghost predicate ChecksAt(fid: FacilityId, canaries: seq<Poller>, polls: seq<PollView>, at: map<Poller, nat>) {
    && (forall c :: c in at ==> at[c] < |polls| && polls[at[c]].tag == EtagCheck && polls[at[c]].facility == fid
                                && polls[at[c]].candidates != [] && polls[at[c]].candidates[0] == c)
    && (NoDup(canaries) ==>
          forall i :: 0 <= i < |polls| && polls[i].tag == EtagCheck && polls[i].candidates != [] ==>
            polls[i].candidates[0] in at && at[polls[i].candidates[0]] == i)
  }

  ghost predicate Draft(st: Learned, reverify: int, subs: set<Subscription>, canaries: seq<Poller>, sweep: int,
                        fid: FacilityId,
                        done: set<Subscription>, polls: seq<PollView>, at: map<Poller, nat>)
  {
    && OneKeyOneSubscription(subs)
    && done <= subs
    && (forall s :: s in subs ==> s.facility == fid)
    && Partitions(done, polls)
    && CoversOnly(done, polls)
    && (forall i {:trigger WellShaped(st, reverify, subs, canaries, sweep, polls[i])} :: 0 <= i < |polls| ==>
         WellShaped(st, reverify, subs, canaries, sweep, polls[i]))
    && ChecksAt(fid, canaries, polls, at)
  }

  /** `p` covers exactly the keys of `group`. */
  ghost predicate CoversGroup(p: PollView, fid: FacilityId, group: set<Subscription>) {
    && p.facility == fid
    && forall x :: x in p.covers <==> exists s :: s in group && s.KeyOf() == Key(x, fid)
  }

  lemma CoverMore(fid: FacilityId, subs: set<Subscription>, done: set<Subscription>, group: set<Subscription>,
                  polls: seq<PollView>, more: seq<PollView>, i: nat)
    requires OneKeyOneSubscription(subs) && done <= subs && group <= subs && done !! group
    requires forall s :: s in subs ==> s.facility == fid
    requires Partitions(done, polls) && CoversOnly(done, polls)
    requires i < |more| && CoversGroup(more[i], fid, group)
    requires (i == |polls| && |more| == |polls| + 1) || (i < |polls| == |more| && polls[i].covers == [])
    requires forall j :: 0 <= j < |more| && j != i ==> more[j] == polls[j]
    ensures Partitions(done + group, more) && CoversOnly(done + group, more)
  {
    forall s | s in done + group
      ensures exists j :: 0 <= j < |more| && Covers(more[j], s.KeyOf())
    {
      if s in group {
        assert Covers(more[i], s.KeyOf());
      } else {
        var j :| 0 <= j < |polls| && Covers(polls[j], s.KeyOf());
        assert Covers(more[j], s.KeyOf());
      }
    }
    forall j, x | 0 <= j < |more| && x in more[j].covers
      ensures exists s :: s in done + group && s.KeyOf() == Key(x, more[j].facility)
      ensures j != i && more[j].facility == fid ==> x !in more[i].covers
    {
      if j == i {
        var s :| s in group && s.KeyOf() == Key(x, fid);
        assert s in done + group;
      } else {
        var s :| s in done && s.KeyOf() == Key(x, polls[j].facility);
        assert s in done + group;
      }
    }
  }

  lemma AddPoll(st: Learned, reverify: int, subs: set<Subscription>, canaries: seq<Poller>, sweep: int, fid: FacilityId,
                done: set<Subscription>, polls: seq<PollView>, at: map<Poller, nat>, p: PollView,
                group: set<Subscription>)
    requires Draft(st, reverify, subs, canaries, sweep, fid, done, polls, at)
    requires group <= subs && done !! group && CoversGroup(p, fid, group)
    requires WellShaped(st, reverify, subs, canaries, sweep, p) && p.tag != EtagCheck
    ensures Draft(st, reverify, subs, canaries, sweep, fid, done + group, polls + [p], at)
  {
    CoverMore(fid, subs, done, group, polls, polls + [p], |polls|);
    forall i | 0 <= i < |polls + [p]|
      ensures WellShaped(st, reverify, subs, canaries, sweep, (polls + [p])[i])
    {
      assert i < |polls| ==> WellShaped(st, reverify, subs, canaries, sweep, polls[i]);
    }
  }

  lemma AddProbe(st: Learned, reverify: int, subs: set<Subscription>, canaries: seq<Poller>, sweep: int,
                 fid: FacilityId,
                 done: set<Subscription>, polls: seq<PollView>, at: map<Poller, nat>, c: Poller)
    requires Draft(st, reverify, subs, canaries, sweep, fid, done, polls, at)
    requires Probed(st, reverify, subs, canaries, sweep, fid, c) && (NoDup(canaries) ==> c !in at)
    ensures Draft(st, reverify, subs, canaries, sweep, fid, done, polls + [ProbePoll(fid, c)], at[c := |polls|])
  {
    var p := ProbePoll(fid, c);
    CoverMore(fid, subs, done, {}, polls, polls + [p], |polls|);
    assert done + {} == done;
    forall i | 0 <= i < |polls + [p]|
      ensures WellShaped(st, reverify, subs, canaries, sweep, (polls + [p])[i])
    {
      assert i < |polls| ==> WellShaped(st, reverify, subs, canaries, sweep, polls[i]);
    }
  }

  /** A class rides on a canary's check: the poll keeps its place and its head. */
  lemma RideProbe(st: Learned, reverify: int, subs: set<Subscription>, canaries: seq<Poller>, sweep: int,
                  fid: FacilityId, done: set<Subscription>, polls: seq<PollView>, at: map<Poller, nat>, c: Poller,
                  p: PollView, group: set<Subscription>)
    requires Draft(st, reverify, subs, canaries, sweep, fid, done, polls, at)
    requires c in at && polls[at[c]].covers == []
    requires group <= subs && done !! group && CoversGroup(p, fid, group)
    requires WellShaped(st, reverify, subs, canaries, sweep, p) && p.tag == EtagCheck && p.candidates != []
             && p.candidates[0] == c
    ensures Draft(st, reverify, subs, canaries, sweep, fid, done + group, polls[at[c] := p], at)
  {
    var more := polls[at[c] := p];
    CoverMore(fid, subs, done, group, polls, more, at[c]);
    forall i | 0 <= i < |more|
      ensures WellShaped(st, reverify, subs, canaries, sweep, more[i])
    {
      assert i != at[c] ==> WellShaped(st, reverify, subs, canaries, sweep, polls[i]);
    }
  }

  /** A draft that deals with every subscriber and asks every canary it should is a plan. */
  lemma DraftIsPlan(st: Learned, reverify: int, subs: set<Subscription>, canaries: seq<Poller>, sweep: int,
                    fid: FacilityId,
                    polls: seq<PollView>, at: map<Poller, nat>)
    requires Draft(st, reverify, subs, canaries, sweep, fid, subs, polls, at)
    requires forall c :: Probed(st, reverify, subs, canaries, sweep, fid, c) ==> c in at
    ensures PlanOk(st, reverify, subs, canaries, sweep, polls)
  {
    forall f, c | Probed(st, reverify, subs, canaries, sweep, f, c)
      ensures AsksCanary(polls, f, c)
    {
      assert f == fid;
      assert polls[at[c]].candidates[0] == c;
    }
  }

  lemma EmptyDraft(st: Learned, reverify: int, subs: set<Subscription>, canaries: seq<Poller>, sweep: int,
                   fid: FacilityId)
    requires OneKeyOneSubscription(subs) && forall s :: s in subs ==> s.facility == fid
    ensures Draft(st, reverify, subs, canaries, sweep, fid, {}, [], map[])
  {
  }

  // ---------------------------------------------------------------- plans of several consulates side by side

  lemma ShapeIsLocal(st: Learned, reverify: int, subs: set<Subscription>, all: set<Subscription>, canaries: seq<Poller>,
                     sweep: int, p: PollView)
    requires subs <= all && forall s :: s in all && s.facility == p.facility ==> s in subs
    requires WellShaped(st, reverify, subs, canaries, sweep, p)
    ensures WellShaped(st, reverify, all, canaries, sweep, p)
  {
    var fid := p.facility;
    forall c
      ensures Probed(st, reverify, subs, canaries, sweep, fid, c)
              <==> Probed(st, reverify, all, canaries, sweep, fid, c)
    {
      ProbedIsLocal(st, reverify, subs, all, canaries, sweep, fid, c);
    }
    if s :| s in subs && Due(st, reverify, s.KeyOf(), sweep) && p == SoloPoll(s, Calibrating) {
      assert s in all;
    } else if s :|
        s in subs && !Due(st, reverify, s.KeyOf(), sweep) && s.KeyOf() !in st.cls && p == SoloPoll(s, NoLabel) {
      assert s in all;
    } else if c :| Probed(st, reverify, subs, canaries, sweep, fid, c) && p == ProbePoll(fid, c) {
      assert Probed(st, reverify, all, canaries, sweep, fid, c);
    } else {
      var cid :| ClassPoll(st, reverify, subs, canaries, sweep, p, cid);
      ServesGroupIsLocal(st, reverify, subs, all, sweep, p, cid);
      assert ClassPoll(st, reverify, all, canaries, sweep, p, cid);
    }
  }

  lemma ServesGroupIsLocal(st: Learned, reverify: int, subs: set<Subscription>, all: set<Subscription>, sweep: int,
                           p: PollView, cid: int)
    requires subs <= all && forall s :: s in all && s.facility == p.facility ==> s in subs
    requires ServesGroup(st, reverify, subs, sweep, p, cid)
    ensures ServesGroup(st, reverify, all, sweep, p, cid)
  {
    forall s | s in all
      ensures InGroup(st, reverify, sweep, s, p.facility, cid) ==> s in subs
    {
    }
  }

  lemma ProbedIsLocal(st: Learned, reverify: int, subs: set<Subscription>, all: set<Subscription>,
                      canaries: seq<Poller>, sweep: int, fid: FacilityId, c: Poller)
    requires subs <= all && forall s :: s in all && s.facility == fid ==> s in subs
    ensures Probed(st, reverify, subs, canaries, sweep, fid, c) <==> Probed(st, reverify, all, canaries, sweep, fid, c)
  {
  }

  /** Plans for disjoint sets of consulates, put one after the other, are a plan for all of them. */
  lemma PlansSideBySide(st: Learned, reverify: int, a: set<Subscription>, b: set<Subscription>, canaries: seq<Poller>,
                        sweep: int,
                        p: seq<PollView>, q: seq<PollView>)
    requires PlanOk(st, reverify, a, canaries, sweep, p) && PlanOk(st, reverify, b, canaries, sweep, q)
    requires forall s, z :: s in a && z in b ==> s.facility != z.facility
    ensures PlanOk(st, reverify, a + b, canaries, sweep, p + q)
  {
    forall i | 0 <= i < |p|
      ensures AtHome(a, p[i])
    {
      assert WellShaped(st, reverify, a, canaries, sweep, p[i]);
      ShapedForSomeone(st, reverify, a, canaries, sweep, p[i]);
    }
    forall i | 0 <= i < |q|
      ensures AtHome(b, q[i])
    {
      assert WellShaped(st, reverify, b, canaries, sweep, q[i]);
      ShapedForSomeone(st, reverify, b, canaries, sweep, q[i]);
    }
    forall i | 0 <= i < |p + q|
      ensures WellShaped(st, reverify, a + b, canaries, sweep, (p + q)[i])
    {
      var mine, z := if i < |p| then a else b, (p + q)[i];
      assert z == if i < |p| then p[i] else q[i - |p|];
      assert WellShaped(st, reverify, mine, canaries, sweep, z);
      assert AtHome(mine, z);
      ShapeIsLocal(st, reverify, mine, a + b, canaries, sweep, z);
    }
    SideBySidePartitions(a, b, p, q);
    forall f, c | Probed(st, reverify, a + b, canaries, sweep, f, c)
      ensures AsksCanary(p + q, f, c)
    {
      SideBySideAsks(st, reverify, a, b, canaries, sweep, p, q, f, c);
    }
    if NoDup(canaries) {
      SideBySideChecks(a, b, p, q);
    }
  }

  lemma ShapedForSomeone(st: Learned, reverify: int, subs: set<Subscription>, canaries: seq<Poller>, sweep: int,
                         p: PollView)
    requires WellShaped(st, reverify, subs, canaries, sweep, p)
    ensures AtHome(subs, p)
  {
    if cid :| ClassPoll(st, reverify, subs, canaries, sweep, p, cid) {
      var x := p.covers[0];
      assert x in p.covers;
      var s :| s in subs && InGroup(st, reverify, sweep, s, p.facility, cid) && s.scheduleId == x;
    }
  }

  ghost predicate AtHome(subs: set<Subscription>, p: PollView) {
    exists s :: s in subs && s.facility == p.facility
  }

  /** Each half of the concatenation stays at its own consulates. */
  ghost predicate Halves(a: set<Subscription>, b: set<Subscription>, p: seq<PollView>, q: seq<PollView>) {
    && (forall s, z :: s in a && z in b ==> s.facility != z.facility)
    && (forall i {:trigger AtHome(a, p[i])} :: 0 <= i < |p| ==> AtHome(a, p[i]))
    && (forall i {:trigger AtHome(b, q[i])} :: 0 <= i < |q| ==> AtHome(b, q[i]))
  }

  lemma SideBySidePartitions(a: set<Subscription>, b: set<Subscription>, p: seq<PollView>, q: seq<PollView>)
    requires Halves(a, b, p, q) && Partitions(a, p) && Partitions(b, q)
    ensures Partitions(a + b, p + q)
  {
    forall s | s in a + b
      ensures exists i :: 0 <= i < |p + q| && Covers((p + q)[i], s.KeyOf())
    {
      if s in a {
        var i :| 0 <= i < |p| && Covers(p[i], s.KeyOf());
        assert Covers((p + q)[i], s.KeyOf());
      } else {
        var i :| 0 <= i < |q| && Covers(q[i], s.KeyOf());
        assert Covers((p + q)[|p| + i], s.KeyOf());
      }
    }
    forall i, j, x | 0 <= i < j < |p + q| && (p + q)[i].facility == (p + q)[j].facility && x in (p + q)[i].covers
      ensures x !in (p + q)[j].covers
    {
      HalvesApart(a, b, p, q, i, j);
    }
  }

  /** Two polls of one consulate are in the same half. */
  lemma HalvesApart(a: set<Subscription>, b: set<Subscription>, p: seq<PollView>, q: seq<PollView>, i: nat, j: nat)
    requires Halves(a, b, p, q) && i < j < |p + q| && (p + q)[i].facility == (p + q)[j].facility
    ensures i < |p| <==> j < |p|
  {
    assert if i < |p| then AtHome(a, p[i]) else AtHome(b, q[i - |p|]);
    assert if j < |p| then AtHome(a, p[j]) else AtHome(b, q[j - |p|]);
  }

  lemma SideBySideChecks(a: set<Subscription>, b: set<Subscription>, p: seq<PollView>, q: seq<PollView>)
    requires Halves(a, b, p, q) && ChecksOnce(p) && ChecksOnce(q)
    ensures ChecksOnce(p + q)
  {
    var all := p + q;
    forall i, j | 0 <= i < j < |all| && all[i].facility == all[j].facility
                  && all[i].tag == EtagCheck && all[j].tag == EtagCheck && all[i].candidates != []
                  && all[j].candidates != []
      ensures all[i].candidates[0] != all[j].candidates[0]
    {
      HalvesApart(a, b, p, q, i, j);
    }
  }

  lemma SideBySideAsks(st: Learned, reverify: int, a: set<Subscription>, b: set<Subscription>, canaries: seq<Poller>,
                       sweep: int,
                       p: seq<PollView>, q: seq<PollView>, f: FacilityId, c: Poller)
    requires PlanOk(st, reverify, a, canaries, sweep, p) && PlanOk(st, reverify, b, canaries, sweep, q)
    requires forall s, z :: s in a && z in b ==> s.facility != z.facility
    requires Probed(st, reverify, a + b, canaries, sweep, f, c)
    ensures AsksCanary(p + q, f, c)
  {
    var s :| s in a + b && s.facility == f && Compatible(c, s);
    if s in a {
      ProbedIsLocal(st, reverify, a, a + b, canaries, sweep, f, c);
      assert AsksCanary(p, f, c);
      var i :| 0 <= i < |p| && p[i].facility == f && p[i].tag == EtagCheck && p[i].candidates != []
               && p[i].candidates[0] == c;
      assert (p + q)[i] == p[i];
    } else {
      ProbedIsLocal(st, reverify, b, a + b, canaries, sweep, f, c);
      assert AsksCanary(q, f, c);
      var i :| 0 <= i < |q| && q[i].facility == f && q[i].tag == EtagCheck && q[i].candidates != []
               && q[i].candidates[0] == c;
      assert (p + q)[|p| + i] == q[i];
    }
  }
}
