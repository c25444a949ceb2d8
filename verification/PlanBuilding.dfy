/** Random picks, the least-loaded order, deduplication, and the poll and plan objects that are built in place. */
module PlanBuilding {
  import opened Basics
  import opened Calendar
  import opened PlannerSpec
  import opened PlannerDrafts
  import opened PlannerLoad

  // ---------------------------------------------------------------- random picks

  /** A random index below `n`. */
  method Below(n: nat) returns (k: nat)
    requires n > 0
    ensures k < n
  {
    k :| k < n;
  }

  method Shuffle<T>(xs: seq<T>) returns (ys: seq<T>)
    ensures multiset(ys) == multiset(xs)
  {
    ys := xs;
    var i := |ys|;
    while i > 1
      invariant 0 <= i <= |ys| == |xs|
      invariant multiset(ys) == multiset(xs)
    {
      i := i - 1;
      var j := Below(i + 1);
      ys := ys[i := ys[j]][j := ys[i]];
    }
  }

  /** `p` goes after everyone no more loaded than it. */
  function Insert(sorted: seq<Poller>, p: Poller, load: Load): seq<Poller> {
    if sorted == [] || Get(load, p.account) < Get(load, sorted[0].account) then [p] + sorted
    else [sorted[0]] + Insert(sorted[1..], p, load)
  }

  lemma {:induction false} InsertKeeps(sorted: seq<Poller>, p: Poller, load: Load)
    ensures multiset(Insert(sorted, p, load)) == multiset(sorted) + multiset{p}
    ensures forall q :: q in Insert(sorted, p, load) ==> q in sorted || q == p
  {
    if !(sorted == [] || Get(load, p.account) < Get(load, sorted[0].account)) {
      InsertKeeps(sorted[1..], p, load);
      assert sorted == [sorted[0]] + sorted[1..];
    }
  }

  lemma SortedCons(p: Poller, rest: seq<Poller>, load: Load)
    requires SortedByLoad(rest, load) && forall q :: q in rest ==> Get(load, p.account) <= Get(load, q.account)
    ensures SortedByLoad([p] + rest, load)
  {
    forall i, j | 0 <= i < j < |[p] + rest|
      ensures Get(load, ([p] + rest)[i].account) <= Get(load, ([p] + rest)[j].account)
    {
      assert ([p] + rest)[j] == rest[j - 1];
      if i > 0 {
        assert ([p] + rest)[i] == rest[i - 1];
      }
    }
  }

  lemma SortedHead(sorted: seq<Poller>, load: Load)
    requires SortedByLoad(sorted, load) && sorted != []
    ensures SortedByLoad(sorted[1..], load)
    ensures forall q :: q in sorted ==> Get(load, sorted[0].account) <= Get(load, q.account)
  {
  }

  lemma {:induction false} InsertSorts(sorted: seq<Poller>, p: Poller, load: Load)
    requires SortedByLoad(sorted, load)
    ensures SortedByLoad(Insert(sorted, p, load), load)
  {
    if sorted != [] {
      SortedHead(sorted, load);
      if Get(load, p.account) < Get(load, sorted[0].account) {
        SortedCons(p, sorted, load);
      } else {
        InsertSorts(sorted[1..], p, load);
        InsertKeeps(sorted[1..], p, load);
        SortedCons(sorted[0], Insert(sorted[1..], p, load), load);
      }
    }
  }

  /** The list's stable sort by load. */
  function Sort(ps: seq<Poller>, load: Load): seq<Poller> {
    if ps == [] then [] else Insert(Sort(ps[..|ps| - 1], load), ps[|ps| - 1], load)
  }

  lemma {:induction false} SortSorts(ps: seq<Poller>, load: Load)
    ensures multiset(Sort(ps, load)) == multiset(ps)
    ensures SortedByLoad(Sort(ps, load), load)
  {
    if ps != [] {
      SortSorts(ps[..|ps| - 1], load);
      InsertSorts(Sort(ps[..|ps| - 1], load), ps[|ps| - 1], load);
      InsertKeeps(Sort(ps[..|ps| - 1], load), ps[|ps| - 1], load);
      assert ps == ps[..|ps| - 1] + [ps[|ps| - 1]];
    }
  }

  /** Least loaded this sweep first, random among equals. */
  method LeastLoaded(pollers: seq<Poller>, load: Load) returns (order: seq<Poller>)
    ensures multiset(order) == multiset(pollers) && |order| == |pollers|
    ensures forall p :: p in order <==> p in pollers
    ensures SortedByLoad(order, load)
  {
    var shuffled := Shuffle(pollers);
    order := Sort(shuffled, load);
    SortSorts(shuffled, load);
    SameElements(order, pollers);
  }

  lemma SameElements<T>(a: seq<T>, b: seq<T>)
    requires multiset(a) == multiset(b)
    ensures |a| == |b|
    ensures forall x :: x in a <==> x in b
  {
    assert |multiset(a)| == |a| && |multiset(b)| == |b|;
    forall x
      ensures x in a <==> x in b
    {
      assert x in a <==> x in multiset(a);
      assert x in b <==> x in multiset(b);
    }
  }

  // ---------------------------------------------------------------- removing duplicate subscriptions

  function Keys(subs: seq<Subscription>): set<Key> {
    set s | s in subs :: s.KeyOf()
  }

  /** The first subscription of each key, in order. */
  function Deduped(subs: seq<Subscription>): seq<Subscription> {
    if subs == [] then []
    else
      var before := Deduped(subs[..|subs| - 1]);
      var s := subs[|subs| - 1];
      if s.KeyOf() in Keys(before) then before else before + [s]
  }

  /** The subscription at `i` is the first with its key. */
  ghost predicate FirstOfItsKey(subs: seq<Subscription>, i: nat) {
    i < |subs| && forall j :: 0 <= j < i ==> subs[j].KeyOf() != subs[i].KeyOf()
  }

  lemma KeyIsFirst(subs: seq<Subscription>, n: nat)
    requires n < |subs|
    ensures subs[n].KeyOf() !in Keys(subs[..n]) <==> FirstOfItsKey(subs, n)
  {
    assert forall j :: 0 <= j < n ==> subs[..n][j] == subs[j] && subs[j] in subs[..n];
  }

  /** Some subscription is `s` and the first with its key. */
  ghost predicate IsAFirst(subs: seq<Subscription>, s: Subscription) {
    exists i: nat :: FirstOfItsKey(subs, i) && subs[i] == s
  }

  lemma OneMoreFirst(subs: seq<Subscription>, n: nat, s: Subscription)
    requires n + 1 == |subs|
    ensures IsAFirst(subs, s) <==> IsAFirst(subs[..n], s) || (s == subs[n] && FirstOfItsKey(subs, n))
  {
    forall i: nat | i < n
      ensures FirstOfItsKey(subs[..n], i) <==> FirstOfItsKey(subs, i)
    {
      assert forall j :: 0 <= j <= i ==> subs[..n][j] == subs[j];
    }
    hide FirstOfItsKey;
    if IsAFirst(subs[..n], s) {
      var i: nat :| FirstOfItsKey(subs[..n], i) && subs[..n][i] == s;
      assert FirstOfItsKey(subs, i) && subs[i] == s;
    }
  }

  /** What deduplication keeps of each key is the first subscription. */
  lemma {:induction false} DedupedKeepsTheFirst(subs: seq<Subscription>, s: Subscription)
    ensures s in Deduped(subs) <==> IsAFirst(subs, s)
  {
    hide IsAFirst;
    if subs == [] {
      NoFirst(s);
    } else {
      var n := |subs| - 1;
      DedupedKeepsTheFirst(subs[..n], s);
      DedupedKeepsKeysOnce(subs[..n]);
      KeyIsFirst(subs, n);
      OneMoreFirst(subs, n, s);
      hide Keys, FirstOfItsKey;
    }
  }

  lemma NoFirst(s: Subscription)
    ensures !IsAFirst([], s)
  {
  }

  /** Deduplication keeps every key, once, and invents nothing. */
  lemma {:induction false} DedupedKeepsKeysOnce(subs: seq<Subscription>)
    ensures Keys(Deduped(subs)) == Keys(subs)
    ensures forall s :: s in Deduped(subs) ==> s in subs
    ensures OneKeyOneSubscription(SeqSet(Deduped(subs)))
    ensures NoDup(Deduped(subs))
  {
    if subs != [] {
      var front, s := subs[..|subs| - 1], subs[|subs| - 1];
      var before := Deduped(front);
      DedupedKeepsKeysOnce(front);
      KeysOfAppend(front, s);
      KeysOfAppend(before, s);
      assert subs == front + [s];
      assert forall z :: z in before ==> z.KeyOf() in Keys(before);
      assert forall z :: z in before + [s] <==> z in before || z == s;
    }
  }

  lemma KeysOfAppend(subs: seq<Subscription>, s: Subscription)
    ensures Keys(subs + [s]) == Keys(subs) + {s.KeyOf()}
  {
    assert forall z :: z in subs + [s] <==> z in subs || z == s;
  }

  method Dedupe(subs: seq<Subscription>) returns (out: seq<Subscription>)
    ensures out == Deduped(subs)
  {
    var seen: set<Key> := {};
    out := [];
    for n := 0 to |subs|
      invariant out == Deduped(subs[..n]) && seen == Keys(out)
    {
      var key := subs[n].KeyOf();
      assert subs[..n + 1][..n] == subs[..n];
      if key !in seen {
        seen := seen + {key};
        out := out + [subs[n]];
        assert Keys(out) == seen;
      }
    }
    assert subs[..|subs|] == subs;
  }

  // ---------------------------------------------------------------- polls and plans under construction

  class Poll {
    const facility: FacilityId
    const tag: Label
    var candidates: seq<Poller>
    var covers: seq<ScheduleId>
    var kind: Kind

    constructor (facility: FacilityId, candidates: seq<Poller>, covers: seq<ScheduleId>, kind: Kind, tag: Label)
      ensures View() == PollView(facility, candidates, covers, kind, tag)
    {
      this.facility, this.candidates, this.covers, this.kind, this.tag := facility, candidates, covers, kind, tag;
    }

    function View(): PollView
      reads this
    {
      PollView(facility, candidates, covers, kind, tag)
    }
  }

  class SweepPlan {
    var polls: seq<Poll>
    const subscriptions: nat
    const sweep: int

    constructor (subscriptions: nat, sweep: int)
      ensures polls == [] && this.subscriptions == subscriptions && this.sweep == sweep
    {
      polls := [];
      this.subscriptions, this.sweep := subscriptions, sweep;
    }

    /** No poll object is in the plan twice. */
    ghost predicate Valid()
      reads this
    {
      forall i, j :: 0 <= i < j < |polls| ==> polls[i] != polls[j]
    }

    function Views(): seq<PollView>
      reads this, polls
    {
      seq(|polls|, i requires 0 <= i < |polls| reads this, polls => polls[i].View())
    }

    method Append(p: Poll)
      requires Valid() && p !in polls
      modifies this
      ensures Valid() && polls == old(polls) + [p] && Views() == old(Views()) + [p.View()]
    {
      polls := polls + [p];
    }

    /** How many requests each account will make. */
    method CountLoad() returns (load: Load)
      ensures load == LoadOf(Views())
    {
      load := map[];
      for n := 0 to |polls|
        invariant load == LoadOf(Views()[..n])
      {
        assert Views()[..n + 1][..n] == Views()[..n];
        var poll := polls[n];
        if poll.candidates != [] {
          load := Bump(load, poll.candidates[0].account);
        }
      }
      assert Views()[..|polls|] == Views();
    }
  }
}
