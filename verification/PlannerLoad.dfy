/** How many requests of a plan each account makes, and when that is balanced. */
module PlannerLoad {
  import opened Basics
  import opened Calendar
  import opened PlannerSpec

  type Load = map<AccountId, nat>

  function Get(load: Load, a: AccountId): nat {
    if a in load then load[a] else 0
  }

  function Bump(load: Load, a: AccountId): Load {
    load[a := Get(load, a) + 1]
  }

  /** Requests per account: each poll is charged to its preferred poller. */
  function LoadOf(polls: seq<PollView>): Load {
    if polls == [] then map[]
    else
      var before := LoadOf(polls[..|polls| - 1]);
      var p := polls[|polls| - 1];
      if p.candidates == [] then before else Bump(before, p.candidates[0].account)
  }

  predicate Heads(p: PollView, a: AccountId) {
    p.candidates != [] && p.candidates[0].account == a
  }

  /** The load table counts, for each account, the polls it heads. */
  lemma {:induction false} LoadCountsHeads(polls: seq<PollView>, a: AccountId)
    ensures Get(LoadOf(polls), a) == |set i | 0 <= i < |polls| && Heads(polls[i], a)|
  {
    var all := set i | 0 <= i < |polls| && Heads(polls[i], a);
    if polls != [] {
      var front, n := polls[..|polls| - 1], |polls| - 1;
      LoadCountsHeads(front, a);
      var before := set i | 0 <= i < |front| && Heads(front[i], a);
      assert forall i :: 0 <= i < n ==> front[i] == polls[i];
      if Heads(polls[n], a) {
        assert all == before + {n};
      } else {
        assert all == before;
      }
    }
  }

  /** Handing a poll more work without changing its preferred account leaves the load as it was. */
  lemma {:induction false} SameHeadSameLoad(polls: seq<PollView>, i: nat, p: PollView)
    requires i < |polls| && p.candidates != [] && polls[i].candidates != []
    requires p.candidates[0].account == polls[i].candidates[0].account
    ensures LoadOf(polls[i := p]) == LoadOf(polls)
  {
    var n := |polls| - 1;
    if i < n {
      SameHeadSameLoad(polls[..n], i, p);
      assert polls[i := p][..n] == polls[..n][i := p];
    } else {
      assert polls[i := p][..n] == polls[..n];
    }
  }

  lemma LoadOfAppend(polls: seq<PollView>, p: PollView)
    requires p.candidates != []
    ensures LoadOf(polls + [p]) == Bump(LoadOf(polls), p.candidates[0].account)
  {
    assert (polls + [p])[..|polls|] == polls;
  }

  /** Canary accounts differ by at most one request. */
  ghost predicate Balanced(load: Load, canaries: seq<Poller>) {
    forall c, d :: c in canaries && d in canaries ==> Get(load, c.account) <= Get(load, d.account) + 1
  }

  /** Charging a least loaded canary, or an account that is no canary's, keeps the balance. */
  lemma BumpKeepsBalance(load: Load, canaries: seq<Poller>, a: AccountId)
    requires Balanced(load, canaries)
    requires (forall c :: c in canaries ==> c.account != a)
             || (forall c :: c in canaries ==> Get(load, a) <= Get(load, c.account))
    ensures Balanced(Bump(load, a), canaries)
  {
  }

  ghost predicate SortedByLoad(ps: seq<Poller>, load: Load) {
    forall i, j :: 0 <= i < j < |ps| ==> Get(load, ps[i].account) <= Get(load, ps[j].account)
  }

  /** Who is asked first is asked least.  A poll of its own tries its canaries, and then the members, in the order of
      the load just before it; a class that rides on a check has its members in the order of the load some time after
      the check. */
  ghost predicate InLoadOrder(polls: seq<PollView>, i: nat)
    requires i < |polls|
  {
    var p := polls[i];
    && p.candidates != [] && |p.covers| <= |p.candidates|
    && if p.tag == EtagCheck then exists j: nat :: i < j <= |polls| && SortedByLoad(Fallbacks(p), LoadOf(polls[..j]))
       else SortedByLoad(First(p), LoadOf(polls[..i])) && SortedByLoad(Fallbacks(p), LoadOf(polls[..i]))
  }

  ghost predicate LoadOrdered(polls: seq<PollView>) {
    forall i: nat :: i < |polls| ==> InLoadOrder(polls, i)
  }

  /** One more poll, in the order of the load so far. */
  lemma OrderedGrows(polls: seq<PollView>, p: PollView)
    requires LoadOrdered(polls) && p.candidates != [] && |p.covers| <= |p.candidates|
    requires if p.tag == EtagCheck then p.covers == []
             else SortedByLoad(First(p), LoadOf(polls)) && SortedByLoad(Fallbacks(p), LoadOf(polls))
    ensures LoadOrdered(polls + [p])
  {
    hide LoadOf;
    var more := polls + [p];
    assert more[..|polls|] == polls;
    assert forall j: nat :: j <= |polls| ==> more[..j] == polls[..j];
    forall i: nat | i < |more|
      ensures InLoadOrder(more, i)
    {
      if i < |polls| {
        assert InLoadOrder(polls, i);
      } else if p.tag == EtagCheck {
        assert SortedByLoad(Fallbacks(p), LoadOf(more[..i + 1]));
      }
    }
  }

  /** A class rides on the i-th poll, a check, in the order of the load now. */
  lemma OrderedRides(polls: seq<PollView>, i: nat, p: PollView)
    requires LoadOrdered(polls) && i < |polls| && p.candidates != [] && |p.covers| <= |p.candidates|
    requires polls[i].candidates != [] && p.tag == EtagCheck
             && p.candidates[0].account == polls[i].candidates[0].account
    requires SortedByLoad(Fallbacks(p), LoadOf(polls))
    ensures LoadOrdered(polls[i := p])
  {
    hide SortedByLoad;
    var more := polls[i := p];
    forall j: nat | j <= |polls|
      ensures LoadOf(more[..j]) == LoadOf(polls[..j])
    {
      if i < j {
        assert more[..j] == polls[..j][i := p];
        SameHeadSameLoad(polls[..j], i, p);
      } else {
        assert more[..j] == polls[..j];
      }
    }
    hide LoadOf;
    assert more[..|more|] == more && polls[..|polls|] == polls;
    forall k: nat | k < |more|
      ensures InLoadOrder(more, k)
    {
      assert InLoadOrder(polls, k);
      if k == i {
        assert SortedByLoad(Fallbacks(p), LoadOf(more[..|polls|]));
      } else if more[k].tag == EtagCheck {
        var j: nat :| k < j <= |polls| && SortedByLoad(Fallbacks(polls[k]), LoadOf(polls[..j]));
        assert SortedByLoad(Fallbacks(more[k]), LoadOf(more[..j]));
      }
    }
  }

  /** The load table is exact and the polls are in its order. */
  ghost predicate Tallied(load: Load, polls: seq<PollView>) {
    load == LoadOf(polls) && LoadOrdered(polls)
  }

  lemma TalliedGrows(load: Load, polls: seq<PollView>, p: PollView)
    requires Tallied(load, polls) && p.candidates != [] && |p.covers| <= |p.candidates|
    requires if p.tag == EtagCheck then p.covers == []
             else SortedByLoad(First(p), load) && SortedByLoad(Fallbacks(p), load)
    ensures Tallied(Bump(load, p.candidates[0].account), polls + [p])
  {
    LoadOfAppend(polls, p);
    OrderedGrows(polls, p);
  }

  lemma NothingTallied()
    ensures Tallied(map[], [])
  {
  }

  /** Nothing is due, and every canary sees every class in use: the case in which loads must even out. */
  ghost predicate EveryCanaryServes(st: Learned, reverify: int, subs: set<Subscription>, canaries: seq<Poller>,
                                    sweep: int) {
    && (forall s :: s in subs ==> !Due(st, reverify, s.KeyOf(), sweep))
    && (forall s, c :: s in subs && c in canaries ==> s.account != c.account)
    && (forall s, c ::
          s in subs && c in canaries && s.KeyOf() in st.cls ==> InClass(st, s.facility, c, st.cls[s.KeyOf()]))
  }

  /** When every canary sees the class, the class's own canaries are all of them. */
  lemma {:induction false} AllCanariesOwn(st: Learned, canaries: seq<Poller>, fid: FacilityId, cid: int)
    requires forall c :: c in canaries ==> InClass(st, fid, c, cid)
    ensures OwnCanaries(st, canaries, fid, cid) == canaries
  {
    if canaries != [] {
      AllCanariesOwn(st, canaries[..|canaries| - 1], fid, cid);
    }
  }
}
