/** The planner itself: it keeps what it learned, turns subscriptions into polls, and
    re-draws the calendar classes from the answers. */
module CalendarPlanners {
  import opened Basics
  import opened Calendar
  import opened PlannerSpec
  import opened PlannerDrafts
  import opened PlannerLoad
  import opened PlanBuilding

  /** `group` lists the members of `settled` in class `cid`, each once. */
  ghost predicate IsGroup(st: Learned, settled: seq<Subscription>, group: seq<Subscription>, cid: int) {
    && NoDup(group)
    && forall s :: s in group <==> s in settled && s.KeyOf() in st.cls && st.cls[s.KeyOf()] == cid
  }

  /** The class ids met among `settled`, each once, and the members of each. */
  ghost predicate AreClasses(st: Learned, settled: seq<Subscription>, ids: seq<int>,
                             groups: map<int, seq<Subscription>>) {
    && NoDup(ids)
    && (forall cid :: cid in ids <==> cid in groups)
    && (forall cid :: cid in groups ==> groups[cid] != [] && IsGroup(st, settled, groups[cid], cid))
    && (forall s :: s in settled && s.KeyOf() in st.cls ==> st.cls[s.KeyOf()] in groups)
  }

  function Unclassed(st: Learned, settled: seq<Subscription>): set<Subscription> {
    set s | s in settled && s.KeyOf() !in st.cls
  }

  lemma NoClassesYet(st: Learned)
    ensures AreClasses(st, [], [], map[])
  {
  }

  lemma ClassesGrow(st: Learned, settled: seq<Subscription>, s: Subscription, ids: seq<int>,
                    groups: map<int, seq<Subscription>>, cid: int)
    requires AreClasses(st, settled, ids, groups) && s !in settled
    requires s.KeyOf() in st.cls && st.cls[s.KeyOf()] == cid
    ensures var group := if cid in groups then groups[cid] else [];
            AreClasses(st, settled + [s], if cid in groups then ids else ids + [cid], groups[cid := group + [s]])
  {
    var group := if cid in groups then groups[cid] else [];
    var more := groups[cid := group + [s]];
    forall c | c in more
      ensures more[c] != [] && IsGroup(st, settled + [s], more[c], c)
    {
      assert forall z :: z in settled + [s] <==> z in settled || z == s;
      assert c != cid ==> IsGroup(st, settled, groups[c], c);
    }
  }

  lemma ClassesStay(st: Learned, settled: seq<Subscription>, s: Subscription, ids: seq<int>,
                    groups: map<int, seq<Subscription>>)
    requires AreClasses(st, settled, ids, groups) && s.KeyOf() !in st.cls
    ensures AreClasses(st, settled + [s], ids, groups)
  {
    forall c | c in groups
      ensures IsGroup(st, settled + [s], groups[c], c)
    {
      assert forall z :: z in settled + [s] <==> z in settled || z == s;
      assert IsGroup(st, settled, groups[c], c);
    }
  }

  function Sids(group: seq<Subscription>): seq<ScheduleId> {
    seq(|group|, i requires 0 <= i < |group| => group[i].scheduleId)
  }

  function Pollers(group: seq<Subscription>): seq<Poller> {
    seq(|group|, i requires 0 <= i < |group| => group[i].AsPoller())
  }

  /** A poll built from a whole group, with the group's own pollers last in some order, serves the group. */
  lemma GroupIsServed(st: Learned, reverify: int, subs: set<Subscription>, sweep: int, fid: FacilityId,
                      settled: seq<Subscription>,
                      group: seq<Subscription>, cid: int, p: PollView, first: seq<Poller>, fallbacks: seq<Poller>)
    requires OneKeyOneSubscription(subs) && forall s :: s in subs ==> s.facility == fid
    requires forall s :: s in settled <==> s in subs && !Due(st, reverify, s.KeyOf(), sweep)
    requires IsGroup(st, settled, group, cid) && group != []
    requires p.facility == fid && p.covers == Sids(group) && p.candidates == first + fallbacks
    requires |fallbacks| == |group| && forall q :: q in fallbacks <==> q in Pollers(group)
    ensures ServesGroup(st, reverify, subs, sweep, p, cid) && CoversGroup(p, fid, SeqSet(group))
    ensures First(p) == first && Fallbacks(p) == fallbacks && SeqSet(group) <= subs
  {
    assert First(p) == first && Fallbacks(p) == fallbacks;
    forall s
      ensures s in group <==> s in subs && InGroup(st, reverify, sweep, s, fid, cid)
    {
    }
    forall s | s in group
      ensures s.scheduleId in p.covers && s.AsPoller() in fallbacks
    {
      var i :| 0 <= i < |group| && group[i] == s;
      assert p.covers[i] == s.scheduleId && Pollers(group)[i] == s.AsPoller();
    }
    forall x | x in p.covers
      ensures exists s :: s in group && s.KeyOf() == Key(x, fid)
    {
      var i :| 0 <= i < |p.covers| && p.covers[i] == x;
      assert group[i].KeyOf() == Key(x, fid);
    }
    forall q | q in fallbacks
      ensures exists s :: s in group && s.AsPoller() == q
    {
      var i :| 0 <= i < |group| && Pollers(group)[i] == q;
      assert group[i] in group;
    }
    forall i, j | 0 <= i < j < |p.covers|
      ensures p.covers[i] != p.covers[j]
    {
      assert group[i] != group[j] && group[i] in subs && group[j] in subs;
      assert group[i].KeyOf() != group[j].KeyOf();
    }
  }

  /** The poll of a class that rides on no check. */
  lemma OwnPollIsWellShaped(st: Learned, reverify: int, subs: set<Subscription>, canaries: seq<Poller>, sweep: int,
                            fid: FacilityId, settled: seq<Subscription>, group: seq<Subscription>, cid: int,
                            p: PollView, first: seq<Poller>, fallbacks: seq<Poller>)
    requires OneKeyOneSubscription(subs) && forall s :: s in subs ==> s.facility == fid
    requires forall s :: s in settled <==> s in subs && !Due(st, reverify, s.KeyOf(), sweep)
    requires IsGroup(st, settled, group, cid) && group != []
    requires p == PollView(fid, first + fallbacks, Sids(group), if |first + fallbacks| > 1 then Shared else Solo,
                           NoLabel)
    requires multiset(first) == multiset(OwnCanaries(st, canaries, fid, cid))
    requires forall c ::
               c in OwnCanaries(st, canaries, fid, cid) ==> !Probed(st, reverify, subs, canaries, sweep, fid, c)
    requires |fallbacks| == |group| && forall q :: q in fallbacks <==> q in Pollers(group)
    ensures WellShaped(st, reverify, subs, canaries, sweep, p) && CoversGroup(p, fid, SeqSet(group))
            && SeqSet(group) <= subs
  {
    GroupIsServed(st, reverify, subs, sweep, fid, settled, group, cid, p, first, fallbacks);
    assert ClassPoll(st, reverify, subs, canaries, sweep, p, cid);
  }

  /** The checks are where the draft says they are: poll `from + at[c]` of the plan is the check of canary `c`. */
  ghost predicate ChecksPlaced(polls: seq<Poll>, from: nat, probes: map<Poller, Poll>, at: map<Poller, nat>) {
    && probes.Keys == at.Keys
    && (forall c :: c in at ==> from + at[c] < |polls| && polls[from + at[c]] == probes[c])
    && forall c, d :: c in at && d in at && c != d ==> probes[c] != probes[d]
  }

  lemma NoChecksPlaced(polls: seq<Poll>, from: nat)
    ensures ChecksPlaced(polls, from, map[], map[])
  {
  }

  lemma PlaceCheck(polls: seq<Poll>, from: nat, probes: map<Poller, Poll>, at: map<Poller, nat>, c: Poller, poll: Poll)
    requires ChecksPlaced(polls, from, probes, at) && from <= |polls| && poll !in polls
    ensures ChecksPlaced(polls + [poll], from, probes[c := poll], at[c := |polls| - from])
  {
    forall d | d in at
      ensures probes[d] != poll
    {
      assert polls[from + at[d]] in polls;
    }
  }

  class CalendarPlanner {
    const enabled: bool
    const reverifySweeps: int
    var cls: map<Key, int>
    var calibrated: map<Key, int>
    var nextId: int

    constructor (enabled: bool, reverifySweeps: int)
      ensures this.enabled == enabled && this.reverifySweeps == reverifySweeps && State() == NOTHING_LEARNED
    {
      this.enabled, this.reverifySweeps := enabled, reverifySweeps;
      cls, calibrated, nextId := map[], map[], 1;
    }

    function State(): Learned
      reads this
    {
      Learned(cls, calibrated, nextId)
    }

    function PolicyOf(): Policy {
      Policy(enabled, reverifySweeps)
    }

    /** Canaries currently proven to serve this target's calendar. */
    method Matches(scheduleId: ScheduleId, fid: FacilityId, canaries: seq<Poller>) returns (matched: seq<Poller>)
      ensures forall c ::
                c in matched <==> c in canaries && SameClass(State(), Key(scheduleId, fid), Key(c.scheduleId, fid))
    {
      var k := Key(scheduleId, fid);
      if k !in cls {
        return [];
      }
      OwnCanariesAre(State(), canaries, fid, cls[k]);
      return OwnCanaries(State(), canaries, fid, cls[k]);
    }

    // -------------------------------------------------------------- planning

    /** The plan so far: `base` untouched, then a draft for consulate `fid`. */
    ghost predicate Building(out: SweepPlan, base: seq<PollView>, load: Load, subs: set<Subscription>,
                             canaries: seq<Poller>,
                             sweep: int, fid: FacilityId, done: set<Subscription>, at: map<Poller, nat>)
      reads this, out, out.polls
    {
      && out.Valid()
      && |base| <= |out.polls|
      && out.Views()[..|base|] == base
      && Draft(State(), reverifySweeps, subs, canaries, sweep, fid, done, out.Views()[|base|..], at)
      && Tallied(load, out.Views())
    }

    /** A subscriber asking for itself is added. */
    method AddSolo(s: Subscription, tag: Label, load: Load, out: SweepPlan, ghost base: seq<PollView>,
                   ghost subs: set<Subscription>, ghost canaries: seq<Poller>, ghost sweep: int,
                   ghost done: set<Subscription>, ghost at: map<Poller, nat>)
      returns (load': Load)
      requires Building(out, base, load, subs, canaries, sweep, s.facility, done, at)
      requires s in subs && s !in done
      requires tag == (if Due(State(), reverifySweeps, s.KeyOf(), sweep) then Calibrating else NoLabel)
      requires tag == NoLabel ==> s.KeyOf() !in cls
      modifies out
      ensures Building(out, base, load', subs, canaries, sweep, s.facility, done + {s}, at)
      ensures |out.polls| == |old(out.polls)| + 1 && out.polls[..|old(out.polls)|] == old(out.polls)
              && fresh(out.polls[|old(out.polls)|])
      ensures load' == Bump(load, s.account)
    {
      hide Draft, Tallied;
      var poll := new Poll(s.facility, [s.AsPoller()], [s.scheduleId], Solo, tag);
      ghost var views := out.Views();
      ghost var p := SoloPoll(s, tag);
      AddPoll(State(), reverifySweeps, subs, canaries, sweep, s.facility, done, views[|base|..], at, p, {s}) by {
        assert CoversGroup(p, s.facility, {s});
      }
      TalliedGrows(load, views, p);
      out.Append(poll);
      assert out.Views()[|base|..] == views[|base|..] + [p];
      load' := Bump(load, s.account);
    }

    /** Settled subscribers without a class ask for themselves; the others are sorted into their classes. */
    method AddSettled(fid: FacilityId, settled: seq<Subscription>, load0: Load, out: SweepPlan,
                      ghost base: seq<PollView>,
                      ghost subs: set<Subscription>, ghost canaries: seq<Poller>, ghost sweep: int)
      returns (load: Load, ids: seq<int>, groups: map<int, seq<Subscription>>)
      requires Building(out, base, load0, subs, canaries, sweep, fid, {}, map[])
      requires NoDup(settled)
               && forall s :: s in settled ==>
                                s in subs && s.facility == fid && !Due(State(), reverifySweeps, s.KeyOf(), sweep)
      modifies out
      ensures Building(out, base, load, subs, canaries, sweep, fid, Unclassed(State(), settled), map[])
      ensures AreClasses(State(), settled, ids, groups)
      ensures |old(out.polls)| <= |out.polls| && out.polls[..|old(out.polls)|] == old(out.polls)
      ensures forall i :: |old(out.polls)| <= i < |out.polls| ==> fresh(out.polls[i])
      ensures Balanced(load0, canaries) && EveryCanaryServes(State(), reverifySweeps, subs, canaries, sweep) ==>
                Balanced(load, canaries)
    {
      hide Building, AreClasses;
      load, ids, groups := load0, [], map[];
      ghost var n0 := |out.polls|;
      NoClassesYet(State());
      assert settled[..0] == [] && Unclassed(State(), []) == {};
      for n := 0 to |settled|
        invariant Building(out, base, load, subs, canaries, sweep, fid, Unclassed(State(), settled[..n]), map[])
        invariant AreClasses(State(), settled[..n], ids, groups)
        invariant n0 <= |out.polls| && out.polls[..n0] == old(out.polls)
        invariant forall i :: n0 <= i < |out.polls| ==> fresh(out.polls[i])
        invariant Balanced(load0, canaries) && EveryCanaryServes(State(), reverifySweeps, subs, canaries, sweep) ==>
                    Balanced(load, canaries)
      {
        var s := settled[n];
        assert s in settled && s !in settled[..n];
        assert settled[..n + 1] == settled[..n] + [s];
        if s.KeyOf() !in cls {
          ghost var before := load;
          assert s !in Unclassed(State(), settled[..n]);
          load := AddSolo(s, NoLabel, load, out, base, subs, canaries, sweep, Unclassed(State(), settled[..n]), map[]);
          ClassesStay(State(), settled[..n], s, ids, groups);
          assert Unclassed(State(), settled[..n + 1]) == Unclassed(State(), settled[..n]) + {s};
          if Balanced(before, canaries) && EveryCanaryServes(State(), reverifySweeps, subs, canaries, sweep) {
            BumpKeepsBalance(before, canaries, s.account);
          }
        } else {
          var cid := cls[s.KeyOf()];
          ClassesGrow(State(), settled[..n], s, ids, groups, cid);
          var group := if cid in groups then groups[cid] else [];
          ids := if cid in groups then ids else ids + [cid];
          groups := groups[cid := group + [s]];
          assert Unclassed(State(), settled[..n + 1]) == Unclassed(State(), settled[..n]);
        }
      }
      assert settled[..|settled|] == settled;
    }

    /** Each due subscriber asks for itself. */
    method AddDue(fid: FacilityId, due: seq<Subscription>, load0: Load, out: SweepPlan, ghost base: seq<PollView>,
                  ghost subs: set<Subscription>, ghost canaries: seq<Poller>, ghost sweep: int,
                  ghost done: set<Subscription>)
      returns (load: Load)
      requires Building(out, base, load0, subs, canaries, sweep, fid, done, map[])
      requires NoDup(due)
               && forall s :: s in due ==>
                                s in subs && s.facility == fid && Due(State(), reverifySweeps, s.KeyOf(), sweep)
      requires SeqSet(due) !! done
      modifies out
      ensures Building(out, base, load, subs, canaries, sweep, fid, done + SeqSet(due), map[])
      ensures |old(out.polls)| <= |out.polls| && out.polls[..|old(out.polls)|] == old(out.polls)
      ensures forall i :: |old(out.polls)| <= i < |out.polls| ==> fresh(out.polls[i])
    {
      hide Building;
      load := load0;
      ghost var n0 := |out.polls|;
      assert due[..0] == [] && done + SeqSet([]) == done;
      for n := 0 to |due|
        invariant Building(out, base, load, subs, canaries, sweep, fid, done + SeqSet(due[..n]), map[])
        invariant n0 <= |out.polls| && out.polls[..n0] == old(out.polls)
        invariant forall i :: n0 <= i < |out.polls| ==> fresh(out.polls[i])
      {
        var s := due[n];
        assert s in due && s !in due[..n];
        assert due[..n + 1] == due[..n] + [s];
        assert done + SeqSet(due[..n + 1]) == done + SeqSet(due[..n]) + {s};
        load := AddSolo(s, Calibrating, load, out, base, subs, canaries, sweep, done + SeqSet(due[..n]), map[]);
      }
      assert due[..|due|] == due;
    }

    /** Every canary that could match someone at the consulate is asked for its ETag. */
    method AddChecks(fid: FacilityId, members: seq<Subscription>, canaries: seq<Poller>, load0: Load, out: SweepPlan,
                     ghost base: seq<PollView>, ghost sweep: int, ghost done: set<Subscription>)
      returns (load: Load, probes: map<Poller, Poll>, ghost at: map<Poller, nat>)
      requires Building(out, base, load0, SeqSet(members), canaries, sweep, fid, done, map[])
      requires AnyDue(State(), reverifySweeps, SeqSet(members), sweep, fid)
               && forall s :: s in members ==> s.facility == fid
      modifies out
      ensures Building(out, base, load, SeqSet(members), canaries, sweep, fid, done, at)
              && ChecksPlaced(out.polls, |base|, probes, at)
      ensures |old(out.polls)| <= |out.polls| && out.polls[..|old(out.polls)|] == old(out.polls)
      ensures forall i :: |old(out.polls)| <= i < |out.polls| ==> fresh(out.polls[i])
      ensures forall c :: c in at <==> Probed(State(), reverifySweeps, SeqSet(members), canaries, sweep, fid, c)
      ensures forall c :: c in probes ==> fresh(probes[c]) && probes[c].covers == []
    {
      hide Building, ChecksPlaced, Probed, Compatible, AnyDue;
      load, probes, at := load0, map[], map[];
      ghost var subs, n0 := SeqSet(members), |out.polls|;
      NoDupPrefixes(canaries);
      NoChecksPlaced(out.polls, |base|);
      for n := 0 to |canaries|
        invariant Building(out, base, load, subs, canaries, sweep, fid, done, at)
                  && ChecksPlaced(out.polls, |base|, probes, at)
        invariant n0 <= |out.polls| && out.polls[..n0] == old(out.polls)
        invariant forall i :: n0 <= i < |out.polls| ==> fresh(out.polls[i])
        invariant forall c ::
                    c in at <==> c in canaries[..n] && Probed(State(), reverifySweeps, subs, canaries, sweep, fid, c)
        invariant probes.Keys == at.Keys
        invariant forall c :: c in probes ==> fresh(probes[c]) && probes[c].covers == []
      {
        var canary := canaries[n];
        assert forall c :: c in canaries[..n + 1] <==> c in canaries[..n] || c == canary;
        ProbedIfCompatible(State(), reverifySweeps, subs, canaries, sweep, fid, canary);
        if exists s :: s in members && Compatible(canary, s) {
          load, probes, at := AddCheck(fid, canary, load, probes, out, base, subs, canaries, sweep, done, at);
        }
      }
      assert canaries[..|canaries|] == canaries;
      OnlyCanariesAreProbed(State(), reverifySweeps, subs, canaries, sweep, fid);
    }

    /** A canary's ETag check is added. */
    method AddCheck(fid: FacilityId, canary: Poller, load: Load, probes: map<Poller, Poll>, out: SweepPlan,
                    ghost base: seq<PollView>, ghost subs: set<Subscription>, ghost canaries: seq<Poller>,
                    ghost sweep: int, ghost done: set<Subscription>, ghost at: map<Poller, nat>)
      returns (load': Load, probes': map<Poller, Poll>, ghost at': map<Poller, nat>)
      requires Building(out, base, load, subs, canaries, sweep, fid, done, at)
               && ChecksPlaced(out.polls, |base|, probes, at)
      requires Probed(State(), reverifySweeps, subs, canaries, sweep, fid, canary)
               && (NoDup(canaries) ==> canary !in at)
      modifies out
      ensures Building(out, base, load', subs, canaries, sweep, fid, done, at')
              && ChecksPlaced(out.polls, |base|, probes', at')
      ensures |out.polls| == |old(out.polls)| + 1 && out.polls[..|old(out.polls)|] == old(out.polls)
      ensures var poll := out.polls[|old(out.polls)|];
              && fresh(poll) && poll.covers == []
              && probes' == probes[canary := poll] && at'.Keys == at.Keys + {canary}
    {
      hide Draft, Probed, ChecksPlaced, Tallied;
      var poll := new Poll(fid, [canary], [], Calibrate, EtagCheck);
      PlaceCheck(out.polls, |base|, probes, at, canary, poll);
      ghost var views := out.Views();
      AddProbe(State(), reverifySweeps, subs, canaries, sweep, fid, done, views[|base|..], at, canary);
      TalliedGrows(load, views, ProbePoll(fid, canary));
      at' := at[canary := |out.polls| - |base|];
      out.Append(poll);
      assert out.Views()[|base|..] == views[|base|..] + [ProbePoll(fid, canary)];
      load' := Bump(load, canary.account);
      probes' := probes[canary := poll];
    }

    /** The canaries of `own` that are being asked anyway and serve no class yet. */
    function Probing(own: seq<Poller>, probes: map<Poller, Poll>): (r: seq<Poller>)
      reads probes.Values
      ensures forall c :: c in r <==> c in own && c in probes && probes[c].covers == []
    {
      if own == [] then []
      else
        var before := Probing(own[..|own| - 1], probes);
        var c := own[|own| - 1];
        assert own == own[..|own| - 1] + [c];
        if c in probes && probes[c].covers == [] then before + [c] else before
    }

    /** A class none of whose canaries is being asked gets a poll of its own. */
    method AddOwnPoll(fid: FacilityId, cid: int, group: seq<Subscription>, canaries: seq<Poller>, first: seq<Poller>,
                      fallbacks: seq<Poller>, load: Load, out: SweepPlan, ghost base: seq<PollView>,
                      ghost subs: set<Subscription>, ghost settled: seq<Subscription>, ghost sweep: int,
                      ghost done: set<Subscription>, ghost at: map<Poller, nat>)
      returns (load': Load)
      requires Building(out, base, load, subs, canaries, sweep, fid, done, at)
      requires OneKeyOneSubscription(subs) && forall s :: s in subs ==> s.facility == fid
      requires forall s :: s in settled <==> s in subs && !Due(State(), reverifySweeps, s.KeyOf(), sweep)
      requires IsGroup(State(), settled, group, cid) && group != [] && SeqSet(group) !! done
      requires multiset(first) == multiset(OwnCanaries(State(), canaries, fid, cid))
      requires forall c ::
                 c in OwnCanaries(State(), canaries, fid, cid) ==>
                   !Probed(State(), reverifySweeps, subs, canaries, sweep, fid, c)
      requires |fallbacks| == |group| && forall q :: q in fallbacks <==> q in Pollers(group)
      requires SortedByLoad(first, load) && SortedByLoad(fallbacks, load)
      modifies out
      ensures Building(out, base, load', subs, canaries, sweep, fid, done + SeqSet(group), at)
      ensures |out.polls| == |old(out.polls)| + 1 && out.polls[..|old(out.polls)|] == old(out.polls)
              && fresh(out.polls[|old(out.polls)|])
      ensures load' == Bump(load, (first + fallbacks)[0].account)
    {
      hide Draft, ClassPoll, WellShaped, ServesGroup, CoversGroup, IsGroup, OwnCanaries, Probed, Due,
           OneKeyOneSubscription, Tallied, SortedByLoad;
      var candidates := first + fallbacks;
      var kind := if |candidates| > 1 then Shared else Solo;
      ghost var p := PollView(fid, candidates, Sids(group), kind, NoLabel);
      OwnPollIsWellShaped(State(), reverifySweeps, subs, canaries, sweep, fid, settled, group, cid, p, first,
                          fallbacks);
      var poll := new Poll(fid, candidates, Sids(group), kind, NoLabel);
      ghost var views := out.Views();
      AddPoll(State(), reverifySweeps, subs, canaries, sweep, fid, done, views[|base|..], at, p, SeqSet(group));
      assert First(p) == first && Fallbacks(p) == fallbacks;
      TalliedGrows(load, views, p);
      out.Append(poll);
      assert out.Views()[|base|..] == views[|base|..] + [p];
      load' := Bump(load, candidates[0].account);
    }

    /** A class rides on the check of one of its canaries. */
    method RideCheck(fid: FacilityId, cid: int, group: seq<Subscription>, ghost canaries: seq<Poller>,
                     probes: map<Poller, Poll>, canary: Poller, fallbacks: seq<Poller>, ghost load: Load,
                     ghost out: SweepPlan, ghost base: seq<PollView>, ghost subs: set<Subscription>,
                     ghost settled: seq<Subscription>, ghost sweep: int, ghost done: set<Subscription>,
                     ghost at: map<Poller, nat>)
      requires Building(out, base, load, subs, canaries, sweep, fid, done, at)
               && ChecksPlaced(out.polls, |base|, probes, at)
      requires canary in at && probes[canary].covers == [] && canary in OwnCanaries(State(), canaries, fid, cid)
      requires Probed(State(), reverifySweeps, subs, canaries, sweep, fid, canary)
      requires OneKeyOneSubscription(subs) && forall s :: s in subs ==> s.facility == fid
      requires forall s :: s in settled <==> s in subs && !Due(State(), reverifySweeps, s.KeyOf(), sweep)
      requires IsGroup(State(), settled, group, cid) && group != [] && SeqSet(group) !! done
      requires |fallbacks| == |group| && forall q :: q in fallbacks <==> q in Pollers(group)
      requires SortedByLoad(fallbacks, load)
      modifies probes[canary]
      ensures Building(out, base, load, subs, canaries, sweep, fid, done + SeqSet(group), at)
    {
      hide Draft, Probed, OwnCanaries, IsGroup, OneKeyOneSubscription, Due, LoadOf, ServesGroup, NoDup,
           LoadOrdered, SortedByLoad;
      var poll := probes[canary];
      ghost var views := out.Views();
      ghost var p := PollView(fid, [canary] + fallbacks, Sids(group), Shared, EtagCheck);
      GroupIsServed(State(), reverifySweeps, subs, sweep, fid, settled, group, cid, p, [canary], fallbacks);
      RidingClass(State(), reverifySweeps, subs, canaries, sweep, fid, done, views[|base|..], at, canary, p, group,
                  cid);
      ghost var i := |base| + at[canary];
      SameHeadSameLoad(views, i, p);
      OrderedRides(views, i, p);
      poll.covers := Sids(group);
      poll.kind := Shared;
      poll.candidates := [canary] + fallbacks;
      assert out.Views() == views[i := p];
      assert out.Views()[|base|..] == views[|base|..][at[canary] := p];
    }

    /** One class is given its request: it rides on the check of one of its canaries when one is being asked,
        and gets a poll of its own otherwise. */
    method AddClass(fid: FacilityId, cid: int, group: seq<Subscription>, canaries: seq<Poller>,
                    probes: map<Poller, Poll>, load: Load, out: SweepPlan, ghost base: seq<PollView>,
                    ghost subs: set<Subscription>, ghost settled: seq<Subscription>, ghost sweep: int,
                    ghost done: set<Subscription>, ghost at: map<Poller, nat>)
      returns (load': Load)
      requires Building(out, base, load, subs, canaries, sweep, fid, done, at)
               && ChecksPlaced(out.polls, |base|, probes, at)
      requires forall c :: c in at <==> Probed(State(), reverifySweeps, subs, canaries, sweep, fid, c)
      requires forall c :: c in at && InClass(State(), fid, c, cid) ==> probes[c].covers == []
      requires OneKeyOneSubscription(subs) && forall s :: s in subs ==> s.facility == fid
      requires forall s :: s in settled <==> s in subs && !Due(State(), reverifySweeps, s.KeyOf(), sweep)
      requires IsGroup(State(), settled, group, cid) && group != [] && SeqSet(group) !! done
      modifies out, probes.Values
      ensures Building(out, base, load', subs, canaries, sweep, fid, done + SeqSet(group), at)
              && ChecksPlaced(out.polls, |base|, probes, at)
      ensures |old(out.polls)| <= |out.polls| && out.polls[..|old(out.polls)|] == old(out.polls)
      ensures forall i :: |old(out.polls)| <= i < |out.polls| ==> fresh(out.polls[i])
      ensures forall c :: c in at && !InClass(State(), fid, c, cid) ==> probes[c].covers == old(probes[c].covers)
      ensures Balanced(load, canaries) && EveryCanaryServes(State(), reverifySweeps, subs, canaries, sweep) ==>
                Balanced(load', canaries)
    {
      hide Building, Balanced, Probed, IsGroup, EveryCanaryServes, SortedByLoad, OneKeyOneSubscription, Due,
           OwnCanaries, LoadOf;
      var own := OwnCanaries(State(), canaries, fid, cid);
      OwnCanariesAre(State(), canaries, fid, cid);
      var fallbacks := LeastLoaded(Pollers(group), load);
      var probing := Probing(own, probes);
      if probing != [] {
        var k := Below(|probing|);
        assert probing[k] in probing;
        var canary := probing[k];
        RideCheck(fid, cid, group, canaries, probes, canary, fallbacks, load, out, base, subs, settled, sweep, done,
                  at);
        assert forall c :: c in at && c != canary ==> probes[c].covers == old(probes[c].covers);
        load' := load;
      } else {
        var candidates := LeastLoaded(own, load);
        assert forall c :: c in own ==> c !in probing;
        load' := AddOwnPoll(fid, cid, group, canaries, candidates, fallbacks, load, out, base, subs, settled, sweep,
                            done, at);
        if Balanced(load, canaries) && EveryCanaryServes(State(), reverifySweeps, subs, canaries, sweep) {
          FirstOfGroup(State(), reverifySweeps, subs, sweep, fid, settled, group, cid);
          OwnPollKeepsBalance(State(), reverifySweeps, subs, canaries, sweep, fid, cid, group, candidates, fallbacks,
                              load);
        }
      }
    }

    /** Each known class is given its request. */
    method AddClasses(fid: FacilityId, ids: seq<int>, groups: map<int, seq<Subscription>>, canaries: seq<Poller>,
                      probes: map<Poller, Poll>, load0: Load, out: SweepPlan, ghost base: seq<PollView>,
                      ghost subs: set<Subscription>, ghost settled: seq<Subscription>, ghost sweep: int,
                      ghost done0: set<Subscription>, ghost at: map<Poller, nat>)
      returns (load: Load)
      requires Building(out, base, load0, subs, canaries, sweep, fid, done0, at)
               && ChecksPlaced(out.polls, |base|, probes, at)
      requires forall c :: c in at <==> Probed(State(), reverifySweeps, subs, canaries, sweep, fid, c)
      requires forall c :: c in probes ==> probes[c].covers == []
      requires OneKeyOneSubscription(subs) && forall s :: s in subs ==> s.facility == fid
      requires forall s :: s in settled <==> s in subs && !Due(State(), reverifySweeps, s.KeyOf(), sweep)
      requires AreClasses(State(), settled, ids, groups) && done0 !! ClassedIn(State(), settled, ids)
      modifies out, probes.Values
      ensures Building(out, base, load, subs, canaries, sweep, fid, done0 + ClassedIn(State(), settled, ids), at)
      ensures |old(out.polls)| <= |out.polls| && out.polls[..|old(out.polls)|] == old(out.polls)
      ensures forall i :: |old(out.polls)| <= i < |out.polls| ==> fresh(out.polls[i])
      ensures Balanced(load0, canaries) && EveryCanaryServes(State(), reverifySweeps, subs, canaries, sweep) ==>
                Balanced(load, canaries)
    {
      hide Building, Probed, ChecksPlaced, EveryCanaryServes, Balanced;
      load := load0;
      ghost var n0 := |out.polls|;
      assert done0 + ClassedIn(State(), settled, ids[..0]) == done0;
      for n := 0 to |ids|
        invariant Building(out, base, load, subs, canaries, sweep, fid, done0 + ClassedIn(State(), settled, ids[..n]),
                           at)
        invariant ChecksPlaced(out.polls, |base|, probes, at)
        invariant n0 <= |out.polls| && out.polls[..n0] == old(out.polls)
        invariant forall i :: n0 <= i < |out.polls| ==> fresh(out.polls[i])
        invariant forall c, cid ::
                    c in probes && InClass(State(), fid, c, cid) && cid !in ids[..n] ==> probes[c].covers == []
        invariant Balanced(load0, canaries) && EveryCanaryServes(State(), reverifySweeps, subs, canaries, sweep) ==>
                    Balanced(load, canaries)
      {
        var cid := ids[n];
        assert cid in ids && cid !in ids[..n];
        ghost var done := done0 + ClassedIn(State(), settled, ids[..n]);
        NextClass(State(), settled, ids, groups, n);
        assert SeqSet(groups[cid]) !! done;
        assert probes.Keys == at.Keys by {
          PlacedKeys(out.polls, |base|, probes, at);
        }
        load := AddClass(fid, cid, groups[cid], canaries, probes, load, out, base, subs, settled, sweep, done, at);
        assert done + SeqSet(groups[cid]) == done0 + ClassedIn(State(), settled, ids[..n + 1]);
      }
      assert ids[..|ids|] == ids;
    }

    /** Plan one consulate. */
    method PlanFacility(fid: FacilityId, members: seq<Subscription>, canaries: seq<Poller>, sweep: int, load0: Load,
                        out: SweepPlan)
      returns (load: Load)
      requires out.Valid() && Tallied(load0, out.Views())
      requires NoDup(members) && OneKeyOneSubscription(SeqSet(members))
               && forall s :: s in members ==> s.facility == fid
      modifies out
      ensures out.Valid() && |old(out.polls)| <= |out.polls| && out.polls[..|old(out.polls)|] == old(out.polls)
      ensures forall i :: |old(out.polls)| <= i < |out.polls| ==> fresh(out.polls[i])
      ensures out.Views()[..|old(out.polls)|] == old(out.Views())
      ensures PlanOk(State(), reverifySweeps, SeqSet(members), canaries, sweep, out.Views()[|old(out.polls)|..])
      ensures Tallied(load, out.Views())
      ensures Balanced(load0, canaries)
              && EveryCanaryServes(State(), reverifySweeps, SeqSet(members), canaries, sweep) ==>
                Balanced(load, canaries)
    {
      hide EveryCanaryServes, Balanced, Building, PlanOk, Probed, AreClasses, ChecksPlaced, OneKeyOneSubscription,
           Tallied;
      ghost var base, subs := out.Views(), SeqSet(members);
      var due := DueOnes(State(), reverifySweeps, members, sweep);
      var settled := SettledOnes(State(), reverifySweeps, members, sweep);
      DueOrSettled(State(), reverifySweeps, members, sweep);
      StartBuilding(out, load0, subs, canaries, sweep, fid);
      var ids, groups;
      load, ids, groups := AddSettled(fid, settled, load0, out, base, subs, canaries, sweep);
      ghost var first := out.polls;
      var probes: map<Poller, Poll>;
      ghost var at: map<Poller, nat>;
      ghost var done := Unclassed(State(), settled) + SeqSet(due);
      load, probes, at := AddCalibration(fid, members, due, settled, canaries, sweep, load, out, base);
      ghost var second := out.polls;
      forall i | |base| <= i < |second|
        ensures fresh(second[i])
      {
        assert i < |first| ==> second[i] == second[..|first|][i];
      }
      EveryoneDealtWith(State(), settled, due, subs, ids, groups);
      load := AddClasses(fid, ids, groups, canaries, probes, load, out, base, subs, settled, sweep, done, at);
      forall i | |base| <= i < |out.polls|
        ensures fresh(out.polls[i])
      {
        assert i < |second| ==> out.polls[i] == out.polls[..|second|][i];
      }
      FinishBuilding(out, base, load, subs, canaries, sweep, fid, at);
    }

    lemma StartBuilding(out: SweepPlan, load: Load, subs: set<Subscription>, canaries: seq<Poller>, sweep: int,
                        fid: FacilityId)
      requires out.Valid() && Tallied(load, out.Views())
      requires OneKeyOneSubscription(subs) && forall s :: s in subs ==> s.facility == fid
      ensures Building(out, out.Views(), load, subs, canaries, sweep, fid, {}, map[])
    {
      EmptyDraft(State(), reverifySweeps, subs, canaries, sweep, fid);
      assert out.Views()[|out.polls|..] == [];
    }

    lemma FinishBuilding(out: SweepPlan, base: seq<PollView>, load: Load, subs: set<Subscription>,
                         canaries: seq<Poller>, sweep: int, fid: FacilityId, at: map<Poller, nat>)
      requires Building(out, base, load, subs, canaries, sweep, fid, subs, at)
      requires forall c :: c in at <==> Probed(State(), reverifySweeps, subs, canaries, sweep, fid, c)
      ensures out.Valid() && Tallied(load, out.Views()) && |base| <= |out.polls| && out.Views()[..|base|] == base
      ensures PlanOk(State(), reverifySweeps, subs, canaries, sweep, out.Views()[|base|..])
    {
      DraftIsPlan(State(), reverifySweeps, subs, canaries, sweep, fid, out.Views()[|base|..], at);
    }

    /** The calibration round, if anyone is due. */
    method AddCalibration(fid: FacilityId, members: seq<Subscription>, due: seq<Subscription>,
                          ghost settled: seq<Subscription>,
                     canaries: seq<Poller>, sweep: int, load0: Load, out: SweepPlan, ghost base: seq<PollView>)
      returns (load: Load, probes: map<Poller, Poll>, ghost at: map<Poller, nat>)
      requires Building(out, base, load0, SeqSet(members), canaries, sweep, fid, Unclassed(State(), settled), map[])
      requires forall s :: s in members ==> s.facility == fid
      requires due == DueOnes(State(), reverifySweeps, members, sweep) && NoDup(due)
      requires settled == SettledOnes(State(), reverifySweeps, members, sweep)
      modifies out
      ensures Building(out, base, load, SeqSet(members), canaries, sweep, fid,
                       Unclassed(State(), settled) + SeqSet(due), at)
      ensures ChecksPlaced(out.polls, |base|, probes, at)
      ensures |old(out.polls)| <= |out.polls| && out.polls[..|old(out.polls)|] == old(out.polls)
      ensures forall i :: |old(out.polls)| <= i < |out.polls| ==> fresh(out.polls[i])
      ensures forall c :: c in at <==> Probed(State(), reverifySweeps, SeqSet(members), canaries, sweep, fid, c)
      ensures forall c :: c in probes ==> fresh(probes[c]) && probes[c].covers == []
      ensures Balanced(load0, canaries)
              && EveryCanaryServes(State(), reverifySweeps, SeqSet(members), canaries, sweep) ==>
                Balanced(load, canaries)
    {
      hide Building, Balanced, Probed;
      load, probes, at := load0, map[], map[];
      ghost var done, subs := Unclassed(State(), settled), SeqSet(members);
      DueOrSettled(State(), reverifySweeps, members, sweep);
      OnlyCanariesAreProbed(State(), reverifySweeps, subs, canaries, sweep, fid);
      if due != [] {
        assert due[0] in due;
        assert AnyDue(State(), reverifySweeps, subs, sweep, fid);
        load := AddDue(fid, due, load, out, base, subs, canaries, sweep, done);
        load, probes, at := AddChecks(fid, members, canaries, load, out, base, sweep, done + SeqSet(due));
      } else {
        assert done + SeqSet(due) == done;
        NoChecksPlaced(out.polls, |base|);
        assert !AnyDue(State(), reverifySweeps, subs, sweep, fid);
      }
    }

    /** Turn what the sweep wants into the requests it will make. */
    method Plan(subscriptions: seq<Subscription>, canaries: seq<Poller>, sweep: int) returns (out: SweepPlan)
      ensures fresh(out) && out.Valid() && out.sweep == sweep && out.subscriptions == |Deduped(subscriptions)|
      ensures OneKeyOneSubscription(SeqSet(Deduped(subscriptions)))
      ensures IsPlan(PolicyOf(), State(), SeqSet(Deduped(subscriptions)), canaries, sweep, out.Views())
      ensures enabled && EveryCanaryServes(State(), reverifySweeps, SeqSet(Deduped(subscriptions)), canaries, sweep)
              ==> Balanced(LoadOf(out.Views()), canaries)
      ensures enabled ==> LoadOrdered(out.Views())
    {
      hide EveryCanaryServes, Balanced, PlanOk, SoloPlanOk, LoadOrdered;
      DedupedKeepsKeysOnce(subscriptions);
      var subs := Dedupe(subscriptions);
      out := new SweepPlan(|subs|, sweep);
      assert out.Views() == [];
      if !enabled {
        PlanSolo(subs, out);
      } else {
        PlanShared(subs, canaries, sweep, out);
      }
    }

    /** Sharing disabled: every subscription is one request. */
    method PlanSolo(subs: seq<Subscription>, out: SweepPlan)
      requires OneKeyOneSubscription(SeqSet(subs)) && NoDup(subs) && out.polls == []
      modifies out
      ensures out.Valid() && SoloPlanOk(SeqSet(subs), out.Views())
    {
      for n := 0 to |subs|
        invariant out.Valid() && |out.polls| == n && forall i :: 0 <= i < n ==> fresh(out.polls[i])
        invariant forall i :: 0 <= i < n ==> out.Views()[i] == SoloPoll(subs[i], NoLabel)
      {
        var s := subs[n];
        var poll := new Poll(s.facility, [s.AsPoller()], [s.scheduleId], Solo, NoLabel);
        out.Append(poll);
      }
      SolosPartition(subs, out.Views());
    }

    /** Sharing enabled: consulate by consulate, with one load table for the whole sweep. */
    method PlanShared(subs: seq<Subscription>, canaries: seq<Poller>, sweep: int, out: SweepPlan)
      requires OneKeyOneSubscription(SeqSet(subs)) && NoDup(subs) && out.polls == []
      modifies out
      ensures out.Valid() && PlanOk(State(), reverifySweeps, SeqSet(subs), canaries, sweep, out.Views())
      ensures EveryCanaryServes(State(), reverifySweeps, SeqSet(subs), canaries, sweep) ==>
                Balanced(LoadOf(out.Views()), canaries)
      ensures LoadOrdered(out.Views())
    {
      hide EveryCanaryServes, Balanced, PlanOk, OneKeyOneSubscription, NoDup, LoadOf;
      var load: Load := map[];
      var fids, byFacility := ByFacility(subs);
      assert out.Views() == [];
      NothingToPlan(State(), reverifySweeps, canaries, sweep);
      NothingTallied();
      assert AtFacilities(subs, fids[..0]) == {};
      for n := 0 to |fids|
        invariant out.Valid() && forall i :: 0 <= i < |out.polls| ==> fresh(out.polls[i])
        invariant Tallied(load, out.Views())
        invariant PlanOk(State(), reverifySweeps, AtFacilities(subs, fids[..n]), canaries, sweep, out.Views())
        invariant EveryCanaryServes(State(), reverifySweeps, SeqSet(subs), canaries, sweep) ==> Balanced(load, canaries)
      {
        var fid := fids[n];
        assert fid in fids && fid !in fids[..n];
        var members := byFacility[fid];
        ghost var base := out.Views();
        FewerServed(State(), reverifySweeps, SeqSet(subs), SeqSet(members), canaries, sweep);
        load := PlanFacility(fid, members, canaries, sweep, load, out);
        PlansSideBySide(State(), reverifySweeps, AtFacilities(subs, fids[..n]), SeqSet(members), canaries, sweep, base,
                        out.Views()[|base|..]);
        assert out.Views() == base + out.Views()[|base|..];
        assert AtFacilities(subs, fids[..n + 1]) == AtFacilities(subs, fids[..n]) + SeqSet(members);
      }
      assert AtFacilities(subs, fids[..|fids|]) == SeqSet(subs);
    }

    /** Drop learned state, entirely or for one schedule id. */
    method Forget(who: Option<ScheduleId>)
      modifies this
      ensures State() == Forgotten(old(State()), who)
    {
      match who {
        case None =>
          cls, calibrated := map[], map[];
        case Some(sid) =>
          cls := map k | k in cls && k.scheduleId != sid :: cls[k];
          calibrated := map k | k in calibrated && k.scheduleId != sid :: calibrated[k];
      }
    }

    // -------------------------------------------------------------- learning

    /** Re-draw the calendar classes from this sweep's calibration answers. */
    method Observe(results: seq<PollResult>, sweep: int)
      modifies this
      ensures State() == Observed(old(State()), results, sweep)
    {
      hide ObserveFacility, AtFacility, Facilities;
      var fids, byFacility := AnswersByFacility(results);
      for n := 0 to |fids|
        invariant State() == ObserveFacilities(old(State()), results, sweep, fids[..n])
      {
        assert fids[..n + 1][..n] == fids[..n];
        LearnFacility(fids[n], byFacility[fids[n]], sweep);
      }
      assert fids[..|fids|] == fids;
    }

    /** The answers of each consulate, in order. */
    method AnswersByFacility(results: seq<PollResult>)
      returns (fids: seq<FacilityId>, byFacility: map<FacilityId, seq<PollResult>>)
      ensures fids == Facilities(results)
      ensures forall f :: f in fids ==> f in byFacility && byFacility[f] == AtFacility(results, f)
    {
      hide *;
      fids, byFacility := [], map[];
      NoPlaces(results);
      for n := 0 to |results|
        invariant fids == Facilities(results[..n])
        invariant forall f :: f in fids ==> f in byFacility && byFacility[f] == AtFacility(results[..n], f)
        invariant forall f :: f !in fids ==> AtFacility(results[..n], f) == [] && f !in byFacility
      {
        var r := results[n];
        var fid := r.poll.facility;
        OneMorePlace(results, n);
        byFacility := byFacility[fid := (if fid in byFacility then byFacility[fid] else []) + [r]];
        fids := if fid in fids then fids else fids + [fid];
      }
      assert results[..|results|] == results;
    }

    method LearnFacility(fid: FacilityId, results: seq<PollResult>, sweep: int)
      modifies this
      ensures State() == ObserveFacility(old(State()), fid, results, sweep)
    {
      if !exists r :: r in results && IsCalibrating(r.poll) {
        return;
      }
      hide NoteAll, Etags, Bucket, JoinBucket;
      var etags, buckets := NoteAnswers(fid, results, sweep);
      ghost var noted := State();
      for n := 0 to |etags|
        invariant State() == JoinBuckets(noted, fid, results, etags[..n])
      {
        assert etags[..n + 1][..n] == etags[..n];
        Join(fid, buckets[etags[n]]);
      }
      assert etags[..|etags|] == etags;
    }

    /** First pass: calibrations are noted, and the usable answers sorted by their ETags. */
    method NoteAnswers(fid: FacilityId, results: seq<PollResult>, sweep: int)
      returns (etags: seq<string>, buckets: map<string, seq<PollResult>>)
      modifies this`cls, this`calibrated
      ensures State() == NoteAll(old(State()), fid, results, sweep) && etags == Etags(results)
      ensures forall e :: e in etags ==> e in buckets && buckets[e] == Bucket(results, e)
    {
      hide NoteAll, Etags, Bucket, Note;
      etags, buckets := [], map[];
      NoAnswers(State(), fid, results, sweep);
      for n := 0 to |results|
        invariant State() == NoteAll(old(State()), fid, results[..n], sweep)
        invariant etags == Etags(results[..n])
        invariant forall e :: e in etags ==> e in buckets && buckets[e] == Bucket(results[..n], e)
        invariant forall e :: e !in etags ==> Bucket(results[..n], e) == [] && e !in buckets
      {
        var res := results[n];
        OneMoreAnswer(old(State()), fid, results, n, sweep);
        NoteAnswer(res, fid, sweep);
        // Empty calendars all share one ETag: no evidence either way.
        if Usable(res) {
          var e := res.etag.value;
          buckets := buckets[e := (if e in buckets then buckets[e] else []) + [res]];
          etags := if e in etags then etags else etags + [e];
        }
      }
      assert results[..|results|] == results;
    }

    method NoteAnswer(res: PollResult, fid: FacilityId, sweep: int)
      modifies this`cls, this`calibrated
      ensures State() == Note(old(State()), fid, res, sweep)
    {
      hide Members, KeysAt, Mark;
      if res.poller.None? || res.days.None? || !IsCalibrating(res.poll) {
        return;
      }
      if !Usable(res) {
        cls := cls - KeysAt(Members(res), fid);
      }
      MarkCalibrated(res, fid, sweep);
    }

    method MarkCalibrated(res: PollResult, fid: FacilityId, sweep: int)
      modifies this`calibrated
      ensures State() == Mark(old(State()), fid, res, sweep)
    {
      var sids := res.poll.covers;
      assert old(calibrated) == Marked(old(calibrated), sids[..0], fid, sweep);
      for n := 0 to |sids|
        invariant calibrated == Marked(old(calibrated), sids[..n], fid, sweep)
      {
        OneMoreMarked(old(calibrated), sids, n, fid, sweep);
        hide Marked;
        calibrated := calibrated[Key(sids[n], fid) := sweep];
      }
      assert sids[..|sids|] == sids;
    }

    /** Everyone who returned one ETag joins the anchor's class, or a fresh one. */
    method Join(fid: FacilityId, entries: seq<PollResult>)
      modifies this`cls, this`nextId
      ensures State() == JoinBucket(old(State()), fid, entries)
    {
      var anchor: Option<int> := None;
      var i := 0;
      while i < |entries| && anchor.None?
        invariant 0 <= i <= |entries|
        invariant Anchor(cls, fid, entries) == if anchor.Some? then anchor else Anchor(cls, fid, entries[i..])
      {
        var p := entries[i].poll;
        if !IsCalibrating(p) && p.covers != [] && Key(p.covers[0], fid) in cls {
          anchor := Some(cls[Key(p.covers[0], fid)]);
        }
        i := i + 1;
      }
      assert anchor.None? ==> entries[i..] == [];
      assert anchor == Anchor(old(cls), fid, entries);
      var cid := nextId;
      match anchor {
        case Some(known) => cid := known;
        case None => nextId := nextId + 1;
      }
      ghost var next := nextId;
      for n := 0 to |entries|
        invariant cls == JoinAll(old(cls), fid, BucketMembers(entries[..n]), cid) && nextId == next
      {
        assert entries[..n + 1][..n] == entries[..n];
        JoinTwice(old(cls), fid, BucketMembers(entries[..n]), Members(entries[n]), cid);
        cls := JoinAll(cls, fid, Members(entries[n]), cid);
      }
      assert entries[..|entries|] == entries;
    }
  }

  /** Subscriptions by consulate, consulates in order of first appearance. */
  method ByFacility(subs: seq<Subscription>)
    returns (fids: seq<FacilityId>, members: map<FacilityId, seq<Subscription>>)
    requires NoDup(subs)
    ensures (forall n :: 0 <= n < |fids| ==> fids[n] !in fids[..n]) && forall f :: f in fids <==> f in members
    ensures forall s :: s in subs ==> s.facility in members
    ensures forall f ::
              f in members ==> NoDup(members[f]) && forall s :: s in members[f] <==> s in subs && s.facility == f
  {
    fids, members := [], map[];
    for n := 0 to |subs|
      invariant NoDup(fids) && forall f :: f in fids <==> f in members
      invariant forall s :: s in subs[..n] ==> s.facility in members
      invariant forall f ::
                  f in members ==>
                    NoDup(members[f]) && forall s :: s in members[f] <==> s in subs[..n] && s.facility == f
    {
      var s := subs[n];
      assert s !in subs[..n];
      assert forall z :: z in subs[..n + 1] <==> z in subs[..n] || z == s;
      fids := if s.facility in members then fids else fids + [s.facility];
      members := members[s.facility := (if s.facility in members then members[s.facility] else []) + [s]];
    }
  }

  lemma JoinTwice(cls: map<Key, int>, fid: FacilityId, a: set<ScheduleId>, b: set<ScheduleId>, cid: int)
    ensures JoinAll(JoinAll(cls, fid, a, cid), fid, b, cid) == JoinAll(cls, fid, a + b, cid)
  {
    assert KeysAt(a + b, fid) == KeysAt(a, fid) + KeysAt(b, fid);
  }

  function AtFacilities(subs: seq<Subscription>, fids: seq<FacilityId>): set<Subscription> {
    set s | s in subs && s.facility in fids
  }

  lemma NothingToPlan(st: Learned, reverify: int, canaries: seq<Poller>, sweep: int)
    ensures PlanOk(st, reverify, {}, canaries, sweep, [])
    ensures Balanced(map[], canaries) && LoadOf([]) == map[]
  {
  }

  lemma FewerServed(st: Learned, reverify: int, subs: set<Subscription>, fewer: set<Subscription>,
                    canaries: seq<Poller>, sweep: int)
    requires fewer <= subs
    ensures EveryCanaryServes(st, reverify, subs, canaries, sweep) ==>
              EveryCanaryServes(st, reverify, fewer, canaries, sweep)
    ensures OneKeyOneSubscription(subs) ==> OneKeyOneSubscription(fewer)
  {
  }

  /** One request per subscription covers each exactly once. */
  lemma SolosPartition(subs: seq<Subscription>, polls: seq<PollView>)
    requires OneKeyOneSubscription(SeqSet(subs)) && NoDup(subs) && |polls| == |subs|
    requires forall i :: 0 <= i < |subs| ==> polls[i] == SoloPoll(subs[i], NoLabel)
    ensures SoloPlanOk(SeqSet(subs), polls)
  {
    forall s | s in subs
      ensures exists i :: 0 <= i < |polls| && Covers(polls[i], s.KeyOf())
    {
      var i :| 0 <= i < |subs| && subs[i] == s;
      assert Covers(polls[i], s.KeyOf());
    }
    forall i, j, x | 0 <= i < j < |polls| && polls[i].facility == polls[j].facility && x in polls[i].covers
      ensures x !in polls[j].covers
    {
      assert subs[i] != subs[j] && subs[i] in subs && subs[j] in subs;
      assert subs[i].KeyOf() != subs[j].KeyOf();
    }
    forall i | 0 <= i < |polls|
      ensures AsksForItself(SeqSet(subs), polls[i])
    {
      assert subs[i] in subs;
    }
  }

  function ClassedIn(st: Learned, settled: seq<Subscription>, ids: seq<int>): set<Subscription> {
    set s | s in settled && s.KeyOf() in st.cls && st.cls[s.KeyOf()] in ids
  }

  lemma PlacedKeys(polls: seq<Poll>, from: nat, probes: map<Poller, Poll>, at: map<Poller, nat>)
    requires ChecksPlaced(polls, from, probes, at)
    ensures probes.Keys == at.Keys
  {
  }

  lemma NextClass(st: Learned, settled: seq<Subscription>, ids: seq<int>, groups: map<int, seq<Subscription>>, n: nat)
    requires AreClasses(st, settled, ids, groups) && n < |ids|
    ensures ids[n] in groups && groups[ids[n]] != [] && IsGroup(st, settled, groups[ids[n]], ids[n])
    ensures ClassedIn(st, settled, ids[..n + 1]) == ClassedIn(st, settled, ids[..n]) + SeqSet(groups[ids[n]])
    ensures ClassedIn(st, settled, ids[..n]) !! SeqSet(groups[ids[n]])
    ensures ClassedIn(st, settled, ids[..n + 1]) <= ClassedIn(st, settled, ids)
  {
    assert ids[n] in ids;
    assert forall c :: c in ids[..n + 1] <==> c in ids[..n] || c == ids[n];
    assert IsGroup(st, settled, groups[ids[n]], ids[n]);
  }

  /** The members whose calibration is missing or too old, in order. */
  function DueOnes(st: Learned, reverify: int, members: seq<Subscription>, sweep: int): seq<Subscription> {
    if members == [] then []
    else
      var before := DueOnes(st, reverify, members[..|members| - 1], sweep);
      var s := members[|members| - 1];
      if Due(st, reverify, s.KeyOf(), sweep) then before + [s] else before
  }

  /** The others, in order. */
  function SettledOnes(st: Learned, reverify: int, members: seq<Subscription>, sweep: int): seq<Subscription> {
    if members == [] then []
    else
      var before := SettledOnes(st, reverify, members[..|members| - 1], sweep);
      var s := members[|members| - 1];
      if Due(st, reverify, s.KeyOf(), sweep) then before else before + [s]
  }

  lemma {:induction false} DueOrSettled(st: Learned, reverify: int, members: seq<Subscription>, sweep: int)
    ensures forall s ::
              s in DueOnes(st, reverify, members, sweep) <==> s in members && Due(st, reverify, s.KeyOf(), sweep)
    ensures forall s ::
              s in SettledOnes(st, reverify, members, sweep) <==> s in members && !Due(st, reverify, s.KeyOf(), sweep)
    ensures NoDup(members) ==>
              NoDup(DueOnes(st, reverify, members, sweep)) && NoDup(SettledOnes(st, reverify, members, sweep))
  {
    if members != [] {
      var front, s := members[..|members| - 1], members[|members| - 1];
      DueOrSettled(st, reverify, front, sweep);
      assert forall z :: z in members <==> z in front || z == s;
      assert NoDup(members) ==> s !in front;
    }
  }

  lemma EveryoneDealtWith(st: Learned, settled: seq<Subscription>, due: seq<Subscription>, subs: set<Subscription>,
                          ids: seq<int>,
                          groups: map<int, seq<Subscription>>)
    requires AreClasses(st, settled, ids, groups)
    requires (forall s :: s in subs <==> s in settled || s in due) && forall s :: s in due ==> s !in settled
    ensures Unclassed(st, settled) + SeqSet(due) + ClassedIn(st, settled, ids) == subs
    ensures Unclassed(st, settled) + SeqSet(due) !! ClassedIn(st, settled, ids)
  {
    forall s | s in settled && s.KeyOf() in st.cls
      ensures s in ClassedIn(st, settled, ids)
    {
      var cid := st.cls[s.KeyOf()];
      assert cid in groups;
      assert cid in ids;
    }
    assert forall s :: s in subs ==> s in Unclassed(st, settled) + SeqSet(due) + ClassedIn(st, settled, ids);
  }

  /** Where someone is due, a canary is asked exactly when it could match someone there. */
  lemma ProbedIfCompatible(st: Learned, reverify: int, subs: set<Subscription>, canaries: seq<Poller>, sweep: int,
                           fid: FacilityId, c: Poller)
    requires AnyDue(st, reverify, subs, sweep, fid) && c in canaries && forall s :: s in subs ==> s.facility == fid
    ensures Probed(st, reverify, subs, canaries, sweep, fid, c) <==> exists s :: s in subs && Compatible(c, s)
  {
  }

  lemma OnlyCanariesAreProbed(st: Learned, reverify: int, subs: set<Subscription>, canaries: seq<Poller>, sweep: int,
                              fid: FacilityId)
    ensures forall c :: Probed(st, reverify, subs, canaries, sweep, fid, c) ==> c in canaries
    ensures forall c :: Probed(st, reverify, subs, canaries, sweep, fid, c) ==> AnyDue(st, reverify, subs, sweep, fid)
  {
  }

  lemma NoDupPrefixes<T(!new)>(xs: seq<T>)
    ensures NoDup(xs) ==> forall n :: 0 <= n < |xs| ==> xs[n] !in xs[..n]
  {
  }

  lemma FirstOfGroup(st: Learned, reverify: int, subs: set<Subscription>, sweep: int, fid: FacilityId,
                     settled: seq<Subscription>,
                     group: seq<Subscription>, cid: int)
    requires IsGroup(st, settled, group, cid) && group != []
    requires forall s :: s in settled <==> s in subs && !Due(st, reverify, s.KeyOf(), sweep)
    requires forall s :: s in subs ==> s.facility == fid
    ensures group[0] in subs && group[0].facility == fid && InClass(st, fid, group[0].AsPoller(), cid)
  {
    assert group[0] in group;
  }

  /** The class's own poll is charged to a least loaded canary, so canary loads stay balanced. */
  lemma OwnPollKeepsBalance(st: Learned, reverify: int, subs: set<Subscription>, canaries: seq<Poller>, sweep: int,
                            fid: FacilityId, cid: int, group: seq<Subscription>, candidates: seq<Poller>,
                            fallbacks: seq<Poller>, load: Load)
    requires Balanced(load, canaries) && EveryCanaryServes(st, reverify, subs, canaries, sweep)
    requires group != [] && group[0] in subs && group[0].facility == fid && InClass(st, fid, group[0].AsPoller(), cid)
    requires SortedByLoad(candidates, load) && forall c :: c in candidates <==> c in OwnCanaries(st, canaries, fid, cid)
    requires fallbacks != []
    ensures Balanced(Bump(load, (candidates + fallbacks)[0].account), canaries)
  {
    assert group[0].KeyOf() in st.cls;
    AllCanariesOwn(st, canaries, fid, cid);
    if canaries != [] {
      assert canaries[0] in candidates;
      forall c | c in canaries
        ensures Get(load, candidates[0].account) <= Get(load, c.account)
      {
        var i :| 0 <= i < |candidates| && candidates[i] == c;
      }
      BumpKeepsBalance(load, canaries, candidates[0].account);
    }
  }

  lemma RidingClass(st: Learned, reverify: int, subs: set<Subscription>, canaries: seq<Poller>, sweep: int,
                    fid: FacilityId,
                    done: set<Subscription>, polls: seq<PollView>, at: map<Poller, nat>, c: Poller, p: PollView,
                    group: seq<Subscription>, cid: int)
    requires Draft(st, reverify, subs, canaries, sweep, fid, done, polls, at)
    requires c in at && polls[at[c]].covers == []
    requires SeqSet(group) <= subs && done !! SeqSet(group) && CoversGroup(p, fid, SeqSet(group))
    requires ServesGroup(st, reverify, subs, sweep, p, cid) && First(p) == [c] && p.tag == EtagCheck && p.kind == Shared
    requires c in OwnCanaries(st, canaries, fid, cid) && Probed(st, reverify, subs, canaries, sweep, fid, c)
    ensures Draft(st, reverify, subs, canaries, sweep, fid, done + SeqSet(group), polls[at[c] := p], at)
    ensures polls[at[c]].candidates != [] && polls[at[c]].candidates[0] == c
    ensures polls[at[c]].facility == fid && polls[at[c]].tag == EtagCheck
  {
    assert p.candidates[0] == First(p)[0];
    assert ClassPoll(st, reverify, subs, canaries, sweep, p, cid);
    RideProbe(st, reverify, subs, canaries, sweep, fid, done, polls, at, c, p, SeqSet(group));
  }

  /** A calibration table once these schedule ids are marked. */
  function Marked(calibrated: map<Key, int>, sids: seq<ScheduleId>, fid: FacilityId, sweep: int): map<Key, int> {
    calibrated + map k | k in KeysAt(SeqSet(sids), fid) :: sweep
  }

  lemma OneMoreMarked(calibrated: map<Key, int>, sids: seq<ScheduleId>, n: nat, fid: FacilityId, sweep: int)
    requires n < |sids|
    ensures Marked(calibrated, sids[..n + 1], fid, sweep)
            == Marked(calibrated, sids[..n], fid, sweep)[Key(sids[n], fid) := sweep]
  {
    assert SeqSet(sids[..n + 1]) == SeqSet(sids[..n]) + {sids[n]};
  }

  lemma NoPlaces(results: seq<PollResult>)
    ensures Facilities(results[..0]) == [] && forall f :: AtFacility(results[..0], f) == []
  {
  }

  lemma NoAnswers(st: Learned, fid: FacilityId, results: seq<PollResult>, sweep: int)
    ensures NoteAll(st, fid, results[..0], sweep) == st && Etags(results[..0]) == []
    ensures forall e :: Bucket(results[..0], e) == []
  {
  }

  /** What one more answer adds to the notes, the ETags and the buckets. */
  lemma OneMoreAnswer(st: Learned, fid: FacilityId, results: seq<PollResult>, n: nat, sweep: int)
    requires n < |results|
    ensures var r, before, after := results[n], results[..n], results[..n + 1];
            && NoteAll(st, fid, after, sweep) == Note(NoteAll(st, fid, before, sweep), fid, r, sweep)
            && (Etags(after) == if Usable(r) && r.etag.value !in Etags(before) then Etags(before) + [r.etag.value]
                                else Etags(before))
            && forall e :: Bucket(after, e) == if Usable(r) && r.etag.value == e then Bucket(before, e) + [r]
                                               else Bucket(before, e)
  {
    assert results[..n + 1][..n] == results[..n];
  }

  /** And to the consulates answered for. */
  lemma OneMorePlace(results: seq<PollResult>, n: nat)
    requires n < |results|
    ensures var fid, before, after := results[n].poll.facility, results[..n], results[..n + 1];
            && (Facilities(after) == if fid in Facilities(before) then Facilities(before)
                else Facilities(before) + [fid])
            && forall f :: AtFacility(after, f) == if f == fid then AtFacility(before, f) + [results[n]]
                                                   else AtFacility(before, f)
  {
    assert results[..n + 1][..n] == results[..n];
  }
}
