/** What a sweep plan is and what its answers teach, stated on values.
    The class in CalendarPlanner.dfy is proved against these definitions. */
module PlannerSpec {
  import opened Basics
  import opened Calendar

  /** The planner's memory: calendar classes, last calibration sweeps, next fresh class id. */
  datatype Learned = Learned(cls: map<Key, int>, calibrated: map<Key, int>, nextId: int)

  const NOTHING_LEARNED := Learned(map[], map[], 1)

  datatype Policy = Policy(enabled: bool, reverify: int)

  // ---------------------------------------------------------------- planning

  predicate Due(st: Learned, reverify: int, k: Key, sweep: int) {
    k !in st.calibrated || (reverify > 0 && sweep - st.calibrated[k] >= reverify)
  }

  ghost predicate SameClass(st: Learned, a: Key, b: Key) {
    a in st.cls && b in st.cls && st.cls[a] == st.cls[b]
  }

  /** A subscription that is settled in class `cid` at consulate `fid`. */
  predicate InGroup(st: Learned, reverify: int, sweep: int, s: Subscription, fid: FacilityId, cid: int) {
    s.facility == fid && !Due(st, reverify, s.KeyOf(), sweep) && s.KeyOf() in st.cls && st.cls[s.KeyOf()] == cid
  }

  function SoloPoll(s: Subscription, tag: Label): PollView {
    PollView(s.facility, [s.AsPoller()], [s.scheduleId], Solo, tag)
  }

  function ProbePoll(fid: FacilityId, c: Poller): PollView {
    PollView(fid, [c], [], Calibrate, EtagCheck)
  }

  predicate InClass(st: Learned, fid: FacilityId, c: Poller, cid: int) {
    var k := Key(c.scheduleId, fid);
    k in st.cls && st.cls[k] == cid
  }

  /** The canaries proven to see class `cid` at consulate `fid`, in configuration order. */
  function OwnCanaries(st: Learned, canaries: seq<Poller>, fid: FacilityId, cid: int): seq<Poller> {
    if canaries == [] then []
    else
      var before := OwnCanaries(st, canaries[..|canaries| - 1], fid, cid);
      var c := canaries[|canaries| - 1];
      if InClass(st, fid, c, cid) then before + [c] else before
  }

  ghost predicate AnyDue(st: Learned, reverify: int, subs: set<Subscription>, sweep: int, fid: FacilityId) {
    exists s :: s in subs && s.facility == fid && Due(st, reverify, s.KeyOf(), sweep)
  }

  /** Canary `c` is asked for its ETag at `fid`: someone there is due and `c` could match someone there. */
  ghost predicate Probed(st: Learned, reverify: int, subs: set<Subscription>, canaries: seq<Poller>, sweep: int,
                         fid: FacilityId, c: Poller)
  {
    && c in canaries
    && AnyDue(st, reverify, subs, sweep, fid)
    && exists s :: s in subs && s.facility == fid && Compatible(c, s)
  }

  /** The candidates tried before, and after, the class's own members come in. */
  function First(p: PollView): seq<Poller>
    requires |p.covers| <= |p.candidates|
  {
    p.candidates[..|p.candidates| - |p.covers|]
  }

  function Fallbacks(p: PollView): seq<Poller>
    requires |p.covers| <= |p.candidates|
  {
    p.candidates[|p.candidates| - |p.covers|..]
  }

  /** `p` answers for exactly the settled members of class `cid`; its last candidates are exactly those
      members themselves, each once. */
  ghost predicate ServesGroup(st: Learned, reverify: int, subs: set<Subscription>, sweep: int, p: PollView, cid: int) {
    && p.covers != []
    && |p.covers| <= |p.candidates|
    && NoDup(p.covers)
    && (forall x :: x in p.covers <==>
         exists s :: s in subs && InGroup(st, reverify, sweep, s, p.facility, cid) && s.scheduleId == x)
    && (forall c :: c in Fallbacks(p) <==>
         exists s :: s in subs && InGroup(st, reverify, sweep, s, p.facility, cid) && s.AsPoller() == c)
  }

  /** One request for a whole class: either a canary of the class that is asked for its ETag anyway, or a
      request of its own by every canary of the class, and the members as fallbacks in both cases. */
  ghost predicate ClassPoll(st: Learned, reverify: int, subs: set<Subscription>, canaries: seq<Poller>, sweep: int,
                            p: PollView, cid: int)
  {
    && ServesGroup(st, reverify, subs, sweep, p, cid)
    && var own := OwnCanaries(st, canaries, p.facility, cid);
       var first := First(p);
       || (&& p.tag == EtagCheck
           && p.kind == Shared
           && |first| == 1
           && first[0] in own
           && Probed(st, reverify, subs, canaries, sweep, p.facility, first[0]))
       || (&& p.tag == NoLabel
           && p.kind == (if |p.candidates| > 1 then Shared else Solo)
           && multiset(first) == multiset(own)
           && forall c :: c in own ==> !Probed(st, reverify, subs, canaries, sweep, p.facility, c))
  }

  /** Every poll of a plan is one of four kinds. */
  ghost predicate WellShaped(st: Learned, reverify: int, subs: set<Subscription>, canaries: seq<Poller>, sweep: int,
                             p: PollView)
  {
    || (exists s :: s in subs && Due(st, reverify, s.KeyOf(), sweep) && p == SoloPoll(s, Calibrating))
    || (exists s :: s in subs && !Due(st, reverify, s.KeyOf(), sweep) && s.KeyOf() !in st.cls
                    && p == SoloPoll(s, NoLabel))
    || (exists c :: Probed(st, reverify, subs, canaries, sweep, p.facility, c) && p == ProbePoll(p.facility, c))
    || (exists cid :: ClassPoll(st, reverify, subs, canaries, sweep, p, cid))
  }

  ghost predicate OneKeyOneSubscription(subs: set<Subscription>) {
    forall a, b :: a in subs && b in subs && a.KeyOf() == b.KeyOf() ==> a == b
  }

  /** Every wanted calendar is covered, and by one poll only. */
  ghost predicate Partitions(subs: set<Subscription>, polls: seq<PollView>) {
    && (forall s :: s in subs ==> exists i :: 0 <= i < |polls| && Covers(polls[i], s.KeyOf()))
    && (forall i, j, x :: 0 <= i < j < |polls| && polls[i].facility == polls[j].facility && x in polls[i].covers ==>
         x !in polls[j].covers)
  }

  /** Canary `c` is asked at `fid`, by a poll it heads. */
  ghost predicate AsksCanary(polls: seq<PollView>, fid: FacilityId, c: Poller) {
    exists i :: 0 <= i < |polls| && polls[i].facility == fid && polls[i].tag == EtagCheck && polls[i].candidates != []
                && polls[i].candidates[0] == c
  }

  /** ETag checks are not repeated: two at one consulate are headed by different canaries. */
  ghost predicate ChecksOnce(polls: seq<PollView>) {
    forall i, j :: 0 <= i < j < |polls| && polls[i].facility == polls[j].facility
      && polls[i].tag == EtagCheck && polls[j].tag == EtagCheck && polls[i].candidates != []
      && polls[j].candidates != []
      ==> polls[i].candidates[0] != polls[j].candidates[0]
  }

  /** A plan made with sharing enabled. */
  ghost predicate PlanOk(st: Learned, reverify: int, subs: set<Subscription>, canaries: seq<Poller>, sweep: int,
                         polls: seq<PollView>)
  {
    && Partitions(subs, polls)
    && (forall i {:trigger WellShaped(st, reverify, subs, canaries, sweep, polls[i])} :: 0 <= i < |polls| ==>
         WellShaped(st, reverify, subs, canaries, sweep, polls[i]))
    && (forall fid, c :: Probed(st, reverify, subs, canaries, sweep, fid, c) ==> AsksCanary(polls, fid, c))
    && (NoDup(canaries) ==> ChecksOnce(polls))
  }

  /** A plan made with sharing disabled: everyone asks for themselves. */
  ghost predicate SoloPlanOk(subs: set<Subscription>, polls: seq<PollView>) {
    && Partitions(subs, polls)
    && forall i {:trigger AsksForItself(subs, polls[i])} :: 0 <= i < |polls| ==> AsksForItself(subs, polls[i])
  }

  ghost predicate AsksForItself(subs: set<Subscription>, p: PollView) {
    exists s :: s in subs && p == SoloPoll(s, NoLabel)
  }

  ghost predicate IsPlan(policy: Policy, st: Learned, subs: set<Subscription>, canaries: seq<Poller>, sweep: int,
                         polls: seq<PollView>)
  {
    if policy.enabled then PlanOk(st, policy.reverify, subs, canaries, sweep, polls) else SoloPlanOk(subs, polls)
  }

  // ---------------------------------------------------------------- learning

  /** An answer that says something about which calendar it is: not empty, and with an ETag. */
  predicate Usable(r: PollResult) {
    r.poller.Some? && r.days.Some? && r.days.value != [] && r.etag.Some? && r.etag.value != ""
  }

  predicate IsCalibrating(p: PollView) {
    p.kind == Calibrate || p.tag == Calibrating
  }

  function SeqSet<T>(s: seq<T>): set<T> {
    set x | x in s
  }

  function Members(r: PollResult): set<ScheduleId> {
    SeqSet(r.poll.covers) + (if r.poller.Some? then {r.poller.value.scheduleId} else {})
  }

  function KeysAt(sids: set<ScheduleId>, fid: FacilityId): set<Key> {
    set x | x in sids :: Key(x, fid)
  }

  function Mark(st: Learned, fid: FacilityId, r: PollResult, sweep: int): Learned {
    st.(calibrated := st.calibrated + map k | k in KeysAt(SeqSet(r.poll.covers), fid) :: sweep)
  }

  /** One answer, first pass: calibration is noted, and an empty calibrating answer takes its members out of their
      class. */
  function Note(st: Learned, fid: FacilityId, r: PollResult, sweep: int): Learned {
    if r.poller.None? || r.days.None? || !IsCalibrating(r.poll) then st
    else
      Mark(if Usable(r) then st else st.(cls := st.cls - KeysAt(Members(r), fid)), fid, r, sweep)
  }

  function NoteAll(st: Learned, fid: FacilityId, rs: seq<PollResult>, sweep: int): Learned {
    if rs == [] then st else Note(NoteAll(st, fid, rs[..|rs| - 1], sweep), fid, rs[|rs| - 1], sweep)
  }

  /** The answers carrying `etag`, in order. */
  function Bucket(rs: seq<PollResult>, etag: string): seq<PollResult> {
    if rs == [] then []
    else
      var before := Bucket(rs[..|rs| - 1], etag);
      var r := rs[|rs| - 1];
      if Usable(r) && r.etag.value == etag then before + [r] else before
  }

  /** The distinct usable ETags, in order of first appearance. */
  function Etags(rs: seq<PollResult>): seq<string> {
    if rs == [] then []
    else
      var before := Etags(rs[..|rs| - 1]);
      var r := rs[|rs| - 1];
      if Usable(r) && r.etag.value !in before then before + [r.etag.value] else before
  }

  /** The class a settled answer of the bucket already has, if any: the first one found. */
  function Anchor(cls: map<Key, int>, fid: FacilityId, entries: seq<PollResult>): Option<int> {
    if entries == [] then None
    else
      var p := entries[0].poll;
      if !IsCalibrating(p) && p.covers != [] && Key(p.covers[0], fid) in cls then Some(cls[Key(p.covers[0], fid)])
      else Anchor(cls, fid, entries[1..])
  }

  function BucketMembers(entries: seq<PollResult>): set<ScheduleId> {
    if entries == [] then {} else BucketMembers(entries[..|entries| - 1]) + Members(entries[|entries| - 1])
  }

  function JoinAll(cls: map<Key, int>, fid: FacilityId, sids: set<ScheduleId>, anchor: int): map<Key, int> {
    cls + map k | k in KeysAt(sids, fid) :: anchor
  }

  /** Everyone who returned one ETag ends up in one class: the anchor's, or a fresh one. */
  function JoinBucket(st: Learned, fid: FacilityId, entries: seq<PollResult>): Learned {
    match Anchor(st.cls, fid, entries)
    case Some(cid) => st.(cls := JoinAll(st.cls, fid, BucketMembers(entries), cid))
    case None => st.(cls := JoinAll(st.cls, fid, BucketMembers(entries), st.nextId), nextId := st.nextId + 1)
  }

  function JoinBuckets(st: Learned, fid: FacilityId, rs: seq<PollResult>, etags: seq<string>): Learned {
    if etags == [] then st
    else JoinBucket(JoinBuckets(st, fid, rs, etags[..|etags| - 1]), fid, Bucket(rs, etags[|etags| - 1]))
  }

  predicate AnyCalibrating(rs: seq<PollResult>) {
    exists r :: r in rs && IsCalibrating(r.poll)
  }

  function ObserveFacility(st: Learned, fid: FacilityId, rs: seq<PollResult>, sweep: int): Learned {
    if AnyCalibrating(rs) then JoinBuckets(NoteAll(st, fid, rs, sweep), fid, rs, Etags(rs)) else st
  }

  function AtFacility(results: seq<PollResult>, fid: FacilityId): seq<PollResult> {
    if results == [] then []
    else
      var before := AtFacility(results[..|results| - 1], fid);
      var r := results[|results| - 1];
      if r.poll.facility == fid then before + [r] else before
  }

  /** The facilities answered for, in order of first appearance. */
  function Facilities(results: seq<PollResult>): seq<FacilityId> {
    if results == [] then []
    else
      var before := Facilities(results[..|results| - 1]);
      var fid := results[|results| - 1].poll.facility;
      if fid in before then before else before + [fid]
  }

  function ObserveFacilities(st: Learned, results: seq<PollResult>, sweep: int, fids: seq<FacilityId>): Learned {
    if fids == [] then st
    else
      var fid := fids[|fids| - 1];
      ObserveFacility(ObserveFacilities(st, results, sweep, fids[..|fids| - 1]), fid, AtFacility(results, fid), sweep)
  }

  /** What the planner knows after a sweep's answers. */
  function Observed(st: Learned, results: seq<PollResult>, sweep: int): Learned {
    ObserveFacilities(st, results, sweep, Facilities(results))
  }

  /** Learned state dropped entirely, or for one schedule id. */
  function Forgotten(st: Learned, who: Option<ScheduleId>): Learned {
    match who
    case None => st.(cls := map[], calibrated := map[])
    case Some(sid) =>
      st.(cls := map k | k in st.cls && k.scheduleId != sid :: st.cls[k],
          calibrated := map k | k in st.calibrated && k.scheduleId != sid :: st.calibrated[k])
  }

  // ---------------------------------------------------------------- facts about the learning functions

  lemma {:induction false} BucketIs(rs: seq<PollResult>, etag: string)
    ensures forall r :: r in Bucket(rs, etag) <==> r in rs && Usable(r) && r.etag.value == etag
  {
    if rs != [] {
      BucketIs(rs[..|rs| - 1], etag);
      assert rs == rs[..|rs| - 1] + [rs[|rs| - 1]];
    }
  }

  lemma {:induction false} AtFacilityIs(rs: seq<PollResult>, fid: FacilityId)
    ensures forall r :: r in AtFacility(rs, fid) <==> r in rs && r.poll.facility == fid
  {
    if rs != [] {
      AtFacilityIs(rs[..|rs| - 1], fid);
      assert rs == rs[..|rs| - 1] + [rs[|rs| - 1]];
    }
  }

  lemma {:induction false} EtagsAre(rs: seq<PollResult>)
    ensures forall e :: e in Etags(rs) <==> exists r :: r in rs && Usable(r) && r.etag.value == e
    ensures NoDup(Etags(rs))
  {
    if rs != [] {
      var front, last := rs[..|rs| - 1], rs[|rs| - 1];
      EtagsAre(front);
      assert rs == front + [last];
      assert forall r :: r in rs <==> r in front || r == last;
    }
  }

  lemma {:induction false} FacilitiesAre(rs: seq<PollResult>)
    ensures forall f :: f in Facilities(rs) <==> exists r :: r in rs && r.poll.facility == f
    ensures NoDup(Facilities(rs))
  {
    if rs != [] {
      var front, last := rs[..|rs| - 1], rs[|rs| - 1];
      FacilitiesAre(front);
      assert rs == front + [last];
      assert forall r :: r in rs <==> r in front || r == last;
    }
  }

  lemma {:induction false} BucketMembersAre(entries: seq<PollResult>)
    ensures forall x :: x in BucketMembers(entries) <==> exists r :: r in entries && x in Members(r)
  {
    if entries != [] {
      var front, last := entries[..|entries| - 1], entries[|entries| - 1];
      BucketMembersAre(front);
      assert entries == front + [last];
      assert forall r :: r in entries <==> r in front || r == last;
    }
  }

  lemma {:induction false} OwnCanariesAre(st: Learned, canaries: seq<Poller>, fid: FacilityId, cid: int)
    ensures forall c :: c in OwnCanaries(st, canaries, fid, cid) <==> c in canaries && InClass(st, fid, c, cid)
  {
    if canaries != [] {
      OwnCanariesAre(st, canaries[..|canaries| - 1], fid, cid);
      assert canaries == canaries[..|canaries| - 1] + [canaries[|canaries| - 1]];
    }
  }

  /** The anchor of a bucket is the class of some settled answer in it. */
  lemma {:induction false} AnchorIs(cls: map<Key, int>, fid: FacilityId, entries: seq<PollResult>)
    ensures Anchor(cls, fid, entries).Some? ==>
              exists r :: r in entries && r.poll.covers != [] && Key(r.poll.covers[0], fid) in cls
                          && cls[Key(r.poll.covers[0], fid)] == Anchor(cls, fid, entries).value
  {
    if entries != [] {
      AnchorIs(cls, fid, entries[1..]);
      assert entries[0] in entries;
      assert forall r :: r in entries[1..] ==> r in entries;
    }
  }
}
