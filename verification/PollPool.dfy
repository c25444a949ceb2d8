/** The pool the polls run in: at most so many at a time, taken up in order.  Its runs are runs, so that everything
    proved of those holds; and it cannot come to a standstill. */
module PollPool {
  import opened Basics
  import opened Calendar
  import opened PlannerRuns
  import opened PollExecution

  const FRESH := Worker(Choosing(0), 0, None, 0)

  function Larger(a: nat, b: nat): nat {
    if a < b then b else a
  }

  /** How many polls may be under way at once. */
  function PoolSize(c: Setup): nat {
    var slots := c.limit * Larger(1, |c.clients|);
    if |c.polls| < slots then |c.polls| else slots
  }

  /** Taken up and not finished. */
  predicate UnderWay(w: Worker) {
    w != FRESH && !w.pc.Finished?
  }

  function Busy(ws: seq<Worker>): nat {
    if ws == [] then 0 else Busy(ws[..|ws| - 1]) + if UnderWay(ws[|ws| - 1]) then 1 else 0
  }

  /** A poll is only taken up when all before it were and the pool has a thread to spare. */
  ghost predicate PoolAllows(c: Setup, s: State, e: Event)
    requires e.i < |s.workers|
  {
    s.workers[e.i] == FRESH ==> Busy(s.workers) < PoolSize(c) && forall j :: 0 <= j < e.i ==> s.workers[j] != FRESH
  }

  ghost predicate PoolRun(c: Setup, events: seq<Event>)
    ensures PoolRun(c, events) ==> Run(c, events)
  {
    events != [] ==>
      var front, e := events[..|events| - 1], events[|events| - 1];
      PoolRun(c, front) && Enabled(After(c, front), e) && PoolAllows(c, After(c, front), e)
  }

  // ---------------------------------------------------------------- counting

  lemma {:induction false} BusyAfterPut(ws: seq<Worker>, i: nat, w: Worker)
    requires i < |ws|
    ensures Busy(ws[i := w]) + (if UnderWay(ws[i]) then 1 else 0) == Busy(ws) + (if UnderWay(w) then 1 else 0)
  {
    var n := |ws| - 1;
    if i < n {
      BusyAfterPut(ws[..n], i, w);
      assert ws[i := w][..n] == ws[..n][i := w];
    } else {
      assert ws[i := w][..n] == ws[..n];
    }
  }

  lemma {:induction false} NobodyUnderWay(ws: seq<Worker>)
    requires forall i :: 0 <= i < |ws| ==> !UnderWay(ws[i])
    ensures Busy(ws) == 0
  {
    if ws != [] {
      NobodyUnderWay(ws[..|ws| - 1]);
    }
  }

  /** Nobody ever goes back to not having been taken up, and a step that is not of a fresh worker is of one under
      way. */
  lemma StepOfAWorker(c: Setup, s: State, e: Event)
    requires |s.workers| == |c.polls| && Enabled(s, e)
    ensures var after := Apply(c, s, e);
            && after.workers == s.workers[e.i := after.workers[e.i]] && after.workers[e.i] != FRESH
            && (s.workers[e.i] != FRESH ==> UnderWay(s.workers[e.i]))
  {
  }

  /** What the pool keeps: no more polls under way than it has threads, and those taken up come before those not. */
  ghost predicate PoolInv(c: Setup, s: State) {
    && Busy(s.workers) <= PoolSize(c)
    && forall i, j :: 0 <= i < j < |s.workers| && s.workers[j] != FRESH ==> s.workers[i] != FRESH
  }

  lemma {:induction false} PoolIsBounded(c: Setup, events: seq<Event>)
    requires PoolRun(c, events)
    ensures PoolInv(c, After(c, events))
  {
    if events == [] {
      NobodyUnderWay(After(c, events).workers);
    } else {
      var front, e := events[..|events| - 1], events[|events| - 1];
      PoolIsBounded(c, front);
      var s := After(c, front);
      StepOfAWorker(c, s, e);
      var w := Apply(c, s, e).workers[e.i];
      hide Apply, Enabled, Busy, PoolSize;
      BusyAfterPut(s.workers, e.i, w);
    }
  }

  lemma SizeIs(c: Setup, busy: nat)
    ensures busy <= PoolSize(c) ==> busy <= |c.polls| && (c.clients != {} ==> busy <= c.limit * |c.clients|)
    ensures busy < |c.polls| && busy < c.limit * |c.clients| ==> busy < PoolSize(c)
  {
    var n := |c.clients|;
    assert c.clients != {} <==> n > 0;
    assert n == 0 ==> c.limit * n == 0;
  }

  /** So no more polls are under way than there are, or than requests the gates of all accounts together let through;
      and while fewer are, one more may be taken up. */
  lemma NoMoreThanTheGates(c: Setup, events: seq<Event>)
    requires PoolRun(c, events)
    ensures var busy := Busy(After(c, events).workers);
            && busy <= |c.polls| && (c.clients != {} ==> busy <= c.limit * |c.clients|)
            && (busy < |c.polls| && busy < c.limit * |c.clients| ==> busy < PoolSize(c))
  {
    PoolIsBounded(c, events);
    SizeIs(c, Busy(After(c, events).workers));
    hide *;
  }

  // ---------------------------------------------------------------- somebody can always move

  /** The first poll not taken up. */
  lemma {:induction false} FirstFresh(ws: seq<Worker>, n: nat) returns (i: nat)
    requires n < |ws| && ws[n] == FRESH
    ensures i < |ws| && ws[i] == FRESH && forall j :: 0 <= j < i ==> ws[j] != FRESH
    decreases n
  {
    if j: nat :| j < n && ws[j] == FRESH {
      i := FirstFresh(ws, j);
    } else {
      i := n;
    }
  }

  /** The pool does not come to a standstill: until every poll has its result, somebody can take a step that the gates
      and the pool allow. */
  lemma PoolCanMove(c: Setup, events: seq<Event>) returns (e: Event)
    requires PoolRun(c, events) && !AllFinished(After(c, events)) && c.limit > 0
    ensures PoolRun(c, events + [e])
  {
    EveryRunKeepsInv(c, events);
    var s := After(c, events);
    if i: nat :| i < |s.workers| && UnderWay(s.workers[i]) {
      e := UnfinishedCanMove(c, s, i);
    } else {
      var n :| 0 <= n < |s.workers| && !s.workers[n].pc.Finished?;
      var i := FirstFresh(s.workers, n);
      NobodyUnderWay(s.workers);
      PoolHasThreads(c);
      e := Choose(i);
    }
    assert (events + [e])[..|events|] == events;
  }

  lemma PoolHasThreads(c: Setup)
    requires c.polls != [] && c.limit > 0
    ensures PoolSize(c) > 0
  {
  }

  /** So every run in the pool can be carried on until every poll has its result, and one that cannot be carried on
      has got there. */
  lemma {:induction false} PoolFinishes(c: Setup, events: seq<Event>) returns (more: seq<Event>)
    requires PoolRun(c, events) && c.limit > 0
    ensures PoolRun(c, events + more) && AllFinished(After(c, events + more))
    decreases Work(c.polls, Initial(c).workers) - |events|
  {
    hide PoolRun, Run, After, Work, Initial;
    RunsAreFinite(c, events);
    if AllFinished(After(c, events)) {
      more := [];
      assert events + more == events;
    } else {
      var e := PoolCanMove(c, events);
      RunsAreFinite(c, events + [e]);
      var rest := PoolFinishes(c, events + [e]);
      more := [e] + rest;
      assert events + more == events + [e] + rest;
    }
  }
}
