/** Calendar classes rest on evidence, and sharing an answer inside a class is therefore sound. */
module PlannerEvidence {
  import opened Basics
  import opened Calendar
  import opened PlannerSpec

  /** The answers of one sweep. */
  type Round = seq<PollResult>

  // ---------------------------------------------------------------- chains of matching answers

  /** In this sweep `x` and `y` both read a calendar at `fid` that was not empty, under one ETag. */
  ghost predicate Witnessed(round: Round, fid: FacilityId, x: ScheduleId, y: ScheduleId) {
    exists i, j :: 0 <= i < |round| && 0 <= j < |round| && Matches(round[i], round[j], fid)
                   && round[i].poller.value.scheduleId == x && round[j].poller.value.scheduleId == y
  }

  predicate Matches(a: PollResult, b: PollResult, fid: FacilityId) {
    Usable(a) && Usable(b) && a.poll.facility == fid && b.poll.facility == fid && a.etag == b.etag
  }

  ghost predicate Edge(log: seq<Round>, fid: FacilityId, x: ScheduleId, y: ScheduleId) {
    exists t :: 0 <= t < |log| && Witnessed(log[t], fid, x, y)
  }

  ghost predicate Chain(log: seq<Round>, fid: FacilityId, path: seq<ScheduleId>) {
    forall i {:trigger path[i]} :: 0 <= i < |path| - 1 ==> Edge(log, fid, path[i], path[i + 1])
  }

  ghost predicate ChainBetween(log: seq<Round>, fid: FacilityId, path: seq<ScheduleId>, x: ScheduleId, y: ScheduleId) {
    path != [] && path[0] == x && path[|path| - 1] == y && Chain(log, fid, path)
  }

  /** A chain of same-sweep, non-empty, equal-ETag answers leads from `x` to `y`. */
  ghost predicate Linked(log: seq<Round>, fid: FacilityId, x: ScheduleId, y: ScheduleId) {
    exists path :: ChainBetween(log, fid, path, x, y)
  }

  lemma LinkedSelf(log: seq<Round>, fid: FacilityId, x: ScheduleId)
    ensures Linked(log, fid, x, x)
  {
    assert ChainBetween(log, fid, [x], x, x);
  }

  lemma LinkedStep(log: seq<Round>, fid: FacilityId, x: ScheduleId, y: ScheduleId)
    requires Edge(log, fid, x, y)
    ensures Linked(log, fid, x, y)
  {
    assert ChainBetween(log, fid, [x, y], x, y);
  }

  lemma LinkedTrans(log: seq<Round>, fid: FacilityId, x: ScheduleId, y: ScheduleId, z: ScheduleId)
    requires Linked(log, fid, x, y) && Linked(log, fid, y, z)
    ensures Linked(log, fid, x, z)
  {
    var p :| ChainBetween(log, fid, p, x, y);
    var q :| ChainBetween(log, fid, q, y, z);
    var path := p + q[1..];
    forall i {:trigger path[i]} | 0 <= i < |path| - 1
      ensures Edge(log, fid, path[i], path[i + 1])
    {
      if i < |p| - 1 {
        assert path[i] == p[i] && path[i + 1] == p[i + 1];
      } else {
        assert path[i] == q[i + 1 - |p|] && path[i + 1] == q[i + 2 - |p|];
      }
    }
    assert ChainBetween(log, fid, path, x, z);
  }

  lemma LinkedSym(log: seq<Round>, fid: FacilityId, x: ScheduleId, y: ScheduleId)
    requires Linked(log, fid, x, y)
    ensures Linked(log, fid, y, x)
  {
    var p :| ChainBetween(log, fid, p, x, y);
    ChainReverses(log, fid, p);
  }

  lemma {:induction false} ChainReverses(log: seq<Round>, fid: FacilityId, path: seq<ScheduleId>)
    requires path != [] && Chain(log, fid, path)
    ensures Linked(log, fid, path[|path| - 1], path[0])
    decreases |path|
  {
    if |path| == 1 {
      LinkedSelf(log, fid, path[0]);
    } else {
      var rest := path[1..];
      forall i {:trigger rest[i]} | 0 <= i < |rest| - 1
        ensures Edge(log, fid, rest[i], rest[i + 1])
      {
        assert path[i + 1] == rest[i];
      }
      ChainReverses(log, fid, rest);
      assert Edge(log, fid, path[0], path[1]);
      EdgeSym(log, fid, path[0], path[1]);
      LinkedStep(log, fid, path[1], path[0]);
      LinkedTrans(log, fid, path[|path| - 1], path[1], path[0]);
    }
  }

  lemma EdgeSym(log: seq<Round>, fid: FacilityId, x: ScheduleId, y: ScheduleId)
    requires Edge(log, fid, x, y)
    ensures Edge(log, fid, y, x)
  {
    var t :| 0 <= t < |log| && Witnessed(log[t], fid, x, y);
    var i, j :| 0 <= i < |log[t]| && 0 <= j < |log[t]| && Matches(log[t][i], log[t][j], fid)
                && log[t][i].poller.value.scheduleId == x && log[t][j].poller.value.scheduleId == y;
    assert Matches(log[t][j], log[t][i], fid);
    assert Witnessed(log[t], fid, y, x);
  }

  /** Evidence is never lost: a longer log links whatever a shorter one did. */
  lemma LinkedGrows(log: seq<Round>, more: seq<Round>, fid: FacilityId, x: ScheduleId, y: ScheduleId)
    requires Linked(log, fid, x, y)
    ensures Linked(log + more, fid, x, y)
  {
    var p :| ChainBetween(log, fid, p, x, y);
    forall i {:trigger p[i]} | 0 <= i < |p| - 1
      ensures Edge(log + more, fid, p[i], p[i + 1])
    {
      var t :| 0 <= t < |log| && Witnessed(log[t], fid, p[i], p[i + 1]);
      assert (log + more)[t] == log[t];
    }
    assert ChainBetween(log + more, fid, p, x, y);
  }

  // ---------------------------------------------------------------- the class invariant

  /** Equal class ids at one consulate are backed by a chain of answers, and fresh ids are fresh. */
  ghost predicate Evidenced(st: Learned, log: seq<Round>) {
    && (forall a, b ::
          SameClass(st, a, b) && a.facility == b.facility ==> Linked(log, a.facility, a.scheduleId, b.scheduleId))
    && (forall k :: k in st.cls ==> st.cls[k] < st.nextId)
  }

  /** Whoever answered the poll is, for every subscriber it covers, that subscriber or a classmate of theirs. */
  ghost predicate AnsweredInClass(st: Learned, r: PollResult) {
    forall x :: x in r.poll.covers && r.poller.Some? ==>
      x == r.poller.value.scheduleId
      || SameClass(st, Key(x, r.poll.facility), Key(r.poller.value.scheduleId, r.poll.facility))
  }

  ghost predicate AllAnsweredInClass(st: Learned, results: Round) {
    forall r :: r in results ==> AnsweredInClass(st, r)
  }

  /** Every member of a usable answer is linked to whoever gave it. */
  ghost predicate Coherent(log: seq<Round>, results: Round) {
    forall r, x :: r in results && Usable(r) && x in Members(r) ==>
      Linked(log, r.poll.facility, x, r.poller.value.scheduleId)
  }

  lemma EvidencedGrows(st: Learned, log: seq<Round>, results: Round)
    requires Evidenced(st, log) && AllAnsweredInClass(st, results)
    ensures Evidenced(st, log + [results])
    ensures Coherent(log + [results], results)
  {
    forall a, b | SameClass(st, a, b) && a.facility == b.facility
      ensures Linked(log + [results], a.facility, a.scheduleId, b.scheduleId)
    {
      LinkedGrows(log, [results], a.facility, a.scheduleId, b.scheduleId);
    }
    forall r, x | r in results && Usable(r) && x in Members(r)
      ensures Linked(log + [results], r.poll.facility, x, r.poller.value.scheduleId)
    {
      var y := r.poller.value.scheduleId;
      if x == y {
        LinkedSelf(log + [results], r.poll.facility, x);
      } else {
        assert AnsweredInClass(st, r) && x in r.poll.covers;
        assert SameClass(st, Key(x, r.poll.facility), Key(y, r.poll.facility));
      }
    }
  }

  /** Two members of one ETag bucket are linked. */
  lemma BucketLinked(log: seq<Round>, results: Round, a: PollResult, b: PollResult, x: ScheduleId, y: ScheduleId)
    requires results in log && Coherent(log, results)
    requires a in results && b in results && Matches(a, b, a.poll.facility)
    requires x in Members(a) && y in Members(b)
    ensures Linked(log, a.poll.facility, x, y)
  {
    var fid := a.poll.facility;
    var pa, pb := a.poller.value.scheduleId, b.poller.value.scheduleId;
    var t :| 0 <= t < |log| && log[t] == results;
    var i :| 0 <= i < |results| && results[i] == a;
    var j :| 0 <= j < |results| && results[j] == b;
    assert Witnessed(log[t], fid, pa, pb);
    LinkedStep(log, fid, pa, pb);
    LinkedTrans(log, fid, x, pa, pb);
    LinkedSym(log, fid, y, pb);
    LinkedTrans(log, fid, x, pb, y);
  }

  /** Everyone in one bucket was given the same non-empty calendar in the same sweep. */
  lemma MembersAreLinked(log: seq<Round>, results: Round, fid: FacilityId, etag: string)
    requires results in log && Coherent(log, results)
    ensures var joined := BucketMembers(Bucket(AtFacility(results, fid), etag));
            forall x, y :: x in joined && y in joined ==> Linked(log, fid, x, y)
  {
    var entries := Bucket(AtFacility(results, fid), etag);
    var joined := BucketMembers(entries);
    AtFacilityIs(results, fid);
    BucketIs(AtFacility(results, fid), etag);
    BucketMembersAre(entries);
    hide BucketMembers, Bucket, AtFacility, Linked;
    forall x, y | x in joined && y in joined
      ensures Linked(log, fid, x, y)
    {
      var a :| a in entries && x in Members(a);
      var b :| b in entries && y in Members(b);
      BucketLinked(log, results, a, b, x, y);
    }
  }

  /** A class kept as the bucket's anchor is linked to everyone in the bucket. */
  lemma AnchoredAreLinked(st: Learned, log: seq<Round>, results: Round, fid: FacilityId, etag: string)
    requires results in log && Coherent(log, results) && Evidenced(st, log)
    ensures var entries := Bucket(AtFacility(results, fid), etag);
            forall x, k | x in BucketMembers(entries) && k in st.cls && k.facility == fid
                   && Anchor(st.cls, fid, entries) == Some(st.cls[k]) ::
              Linked(log, fid, x, k.scheduleId)
  {
    var entries := Bucket(AtFacility(results, fid), etag);
    var joined := BucketMembers(entries);
    MembersAreLinked(log, results, fid, etag);
    BucketMembersAre(entries);
    AnchorIs(st.cls, fid, entries);
    hide BucketMembers, Bucket, AtFacility, Linked, Coherent, Anchor;
    forall x, k | x in joined && k in st.cls && k.facility == fid && Anchor(st.cls, fid, entries) == Some(st.cls[k])
      ensures Linked(log, fid, x, k.scheduleId)
    {
      var r :| r in entries && r.poll.covers != [] && Key(r.poll.covers[0], fid) in st.cls
               && st.cls[Key(r.poll.covers[0], fid)] == st.cls[k];
      var z := r.poll.covers[0];
      assert z in Members(r);
      assert SameClass(st, Key(z, fid), k);
      LinkedTrans(log, fid, x, z, k.scheduleId);
    }
  }

  /** Joining one bucket keeps the invariant. */
  lemma JoinBucketEvidenced(st: Learned, log: seq<Round>, results: Round, fid: FacilityId, etag: string)
    requires results in log && Coherent(log, results) && Evidenced(st, log)
    ensures Evidenced(JoinBucket(st, fid, Bucket(AtFacility(results, fid), etag)), log)
  {
    var entries := Bucket(AtFacility(results, fid), etag);
    var joined := BucketMembers(entries);
    var after := JoinBucket(st, fid, entries);
    MembersAreLinked(log, results, fid, etag);
    AnchoredAreLinked(st, log, results, fid, etag);
    AnchorIs(st.cls, fid, entries);
    hide Linked, BucketMembers, Bucket, AtFacility, Coherent, Anchor;
    forall a, b | SameClass(after, a, b) && a.facility == b.facility
      ensures Linked(log, a.facility, a.scheduleId, b.scheduleId)
    {
      var inA, inB := a in KeysAt(joined, fid), b in KeysAt(joined, fid);
      if inA && !inB {
        assert b in st.cls;
      } else if inB && !inA {
        assert a in st.cls;
        LinkedSym(log, fid, b.scheduleId, a.scheduleId);
      } else if !inA {
        assert SameClass(st, a, b);
      }
    }
  }

  lemma {:induction false} JoinBucketsEvidenced(st: Learned, log: seq<Round>, results: Round, fid: FacilityId,
                                                etags: seq<string>)
    requires results in log && Coherent(log, results) && Evidenced(st, log)
    ensures Evidenced(JoinBuckets(st, fid, AtFacility(results, fid), etags), log)
  {
    if etags != [] {
      var front := etags[..|etags| - 1];
      JoinBucketsEvidenced(st, log, results, fid, front);
      JoinBucketEvidenced(JoinBuckets(st, fid, AtFacility(results, fid), front), log, results, fid, etags[|etags| - 1]);
    }
  }

  /** Noting answers only ever takes classes away. */
  lemma {:induction false} NoteAllOnlyRemoves(st: Learned, fid: FacilityId, rs: seq<PollResult>, sweep: int)
    ensures var after := NoteAll(st, fid, rs, sweep);
            && after.nextId == st.nextId
            && forall k :: k in after.cls ==> k in st.cls && after.cls[k] == st.cls[k]
  {
    if rs != [] {
      NoteAllOnlyRemoves(st, fid, rs[..|rs| - 1], sweep);
    }
  }

  lemma ObserveFacilityEvidenced(st: Learned, log: seq<Round>, results: Round, fid: FacilityId, sweep: int)
    requires results in log && Coherent(log, results) && Evidenced(st, log)
    ensures Evidenced(ObserveFacility(st, fid, AtFacility(results, fid), sweep), log)
  {
    var rs := AtFacility(results, fid);
    if AnyCalibrating(rs) {
      NoteAllOnlyRemoves(st, fid, rs, sweep);
      var noted := NoteAll(st, fid, rs, sweep);
      assert forall a, b :: SameClass(noted, a, b) ==> SameClass(st, a, b);
      JoinBucketsEvidenced(noted, log, results, fid, Etags(rs));
    }
  }

  lemma {:induction false} ObserveFacilitiesEvidenced(st: Learned, log: seq<Round>, results: Round, sweep: int,
                                                      fids: seq<FacilityId>)
    requires results in log && Coherent(log, results) && Evidenced(st, log)
    ensures Evidenced(ObserveFacilities(st, results, sweep, fids), log)
  {
    if fids != [] {
      var front := fids[..|fids| - 1];
      ObserveFacilitiesEvidenced(st, log, results, sweep, front);
      ObserveFacilityEvidenced(ObserveFacilities(st, results, sweep, front), log, results, fids[|fids| - 1], sweep);
    }
  }

  /** One sweep's answers keep the invariant, with those answers added to the evidence. */
  lemma ObservingKeepsEvidence(st: Learned, log: seq<Round>, results: Round, sweep: int)
    requires Evidenced(st, log) && AllAnsweredInClass(st, results)
    ensures Evidenced(Observed(st, results, sweep), log + [results])
  {
    EvidencedGrows(st, log, results);
    assert (log + [results])[|log|] == results;
    ObserveFacilitiesEvidenced(st, log + [results], results, sweep, Facilities(results));
  }

  lemma ForgettingKeepsEvidence(st: Learned, log: seq<Round>, who: Option<ScheduleId>)
    requires Evidenced(st, log)
    ensures Evidenced(Forgotten(st, who), log)
  {
    var after := Forgotten(st, who);
    assert forall k :: k in after.cls ==> k in st.cls && after.cls[k] == st.cls[k];
    assert forall a, b :: SameClass(after, a, b) ==> SameClass(st, a, b);
  }
}
