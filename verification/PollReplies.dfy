/** Who is asked: a candidate is only passed over unasked once a request of its account has raised, and the tallies
    count the replies. */
module PollReplies {
  import opened Basics
  import opened Calendar
  import opened PlannerRuns
  import opened PollExecution

  // ---------------------------------------------------------------- whose requests raised

  /** The n-th event of the run is a request of account `a` that raised. */
  ghost predicate RaisedAt(c: Setup, events: seq<Event>, n: nat, a: AccountId)
    requires Run(c, events) && n < |events|
  {
    && events[n].Answer? && events[n].raised && Run(c, events[..n])
    && events[n].i < |c.polls|
    && var pc := After(c, events[..n]).workers[events[n].i].pc;
       pc.Asking? && pc.asker.account == a
  }

  lemma {:induction false} PrefixRuns(c: Setup, events: seq<Event>, n: nat)
    requires Run(c, events) && n <= |events|
    ensures Run(c, events[..n])
    decreases |events|
  {
    if n < |events| {
      var front := events[..|events| - 1];
      assert front[..n] == events[..n];
      PrefixRuns(c, front, n);
    } else {
      assert events[..n] == events;
    }
  }

  /** A request of `a` that raises is answered. */
  predicate Raises(s: State, e: Event, a: AccountId)
    requires Enabled(s, e)
  {
    e.Answer? && e.raised && s.workers[e.i].pc.asker.account == a
  }

  lemma StepMarks(c: Setup, s: State, e: Event, a: AccountId)
    requires |s.workers| == |c.polls| && Enabled(s, e)
    ensures a in Apply(c, s, e).errors <==> a in s.errors || Raises(s, e, a)
  {
  }

  /** An account is marked exactly when some request of it raised. */
  lemma {:induction false} MarkedExactlyWhenRaised(c: Setup, events: seq<Event>, a: AccountId)
    requires Run(c, events)
    ensures a in After(c, events).errors <==> exists n: nat :: n < |events| && RaisedAt(c, events, n, a)
  {
    hide Apply;
    if events != [] {
      var last := |events| - 1;
      var front, e := events[..last], events[last];
      MarkedExactlyWhenRaised(c, front, a);
      StepMarks(c, After(c, front), e, a);
      assert RaisedAt(c, events, last, a) <==> Raises(After(c, front), e, a);
      forall n: nat | n < last
        ensures RaisedAt(c, events, n, a) <==> RaisedAt(c, front, n, a)
      {
        assert front[..n] == events[..n] && front[n] == events[n];
      }
      hide Run, After, RaisedAt;
      if n: nat :| n < |events| && RaisedAt(c, events, n, a) {
        assert n == last || RaisedAt(c, front, n, a);
      }
    }
  }

  /** A request that raised gave no calendar. */
  lemma RaisingGivesNothing(c: Setup, events: seq<Event>, n: nat, a: AccountId)
    requires Run(c, events) && n < |events| && RaisedAt(c, events, n, a)
    ensures events[n].days == None && events[n].etag == None
  {
    PrefixRuns(c, events, n + 1);
    assert events[..n + 1][..n] == events[..n];
    hide After, Enabled;
    RaisedReplyIsEmpty(c, events, n);
  }

  lemma RaisedReplyIsEmpty(c: Setup, events: seq<Event>, n: nat)
    requires n < |events| && Run(c, events[..n]) && Run(c, events[..n + 1]) && events[n].Answer? && events[n].raised
    ensures events[n].days == None && events[n].etag == None
  {
    assert events[..n + 1][..n] == events[..n];
    assert Enabled(After(c, events[..n]), events[n]);
  }

  /** Waiting for the account's gate, or through it. */
  predicate AtGate(w: Worker, a: AccountId) {
    (w.pc.Queued? || w.pc.Asking?) && w.pc.asker.account == a
  }

  lemma NobodyComes(c: Setup, s: State, e: Event, a: AccountId, i: nat)
    requires |s.workers| == |c.polls| && Enabled(s, e) && i < |s.workers|
    requires a in s.errors && !AtGate(s.workers[i], a)
    ensures |Apply(c, s, e).workers| == |s.workers|
    ensures a in Apply(c, s, e).errors && !AtGate(Apply(c, s, e).workers[i], a)
  {
    if e.i != i {
      OthersStay(c, s, e, i);
      LogsGrow(c, s, e);
      hide Apply;
    }
  }

  /** Once a request of an account has raised nobody comes to its gate any more: only those already there are served. */
  lemma {:induction false} NobodyComesAfterARaise(c: Setup, events: seq<Event>, n: nat, a: AccountId, i: nat)
    requires Run(c, events) && n <= |events| && Run(c, events[..n]) && i < |c.polls|
    requires a in After(c, events[..n]).errors && !AtGate(After(c, events[..n]).workers[i], a)
    ensures a in After(c, events).errors && !AtGate(After(c, events).workers[i], a)
    decreases |events|
  {
    if n == |events| {
      assert events[..n] == events;
    } else {
      var front := events[..|events| - 1];
      assert front[..n] == events[..n];
      NobodyComesAfterARaise(c, front, n, a, i);
      hide Apply;
      NobodyComes(c, After(c, front), events[|events| - 1], a, i);
    }
  }

  // ---------------------------------------------------------------- nobody is passed over

  /** `p` was asked for poll `i` and gave no calendar, or an earlier request of its account had raised. */
  ghost predicate TurnedDown(s: State, i: nat, p: Poller) {
    p.account in s.errors || Reply(i, p, None, None) in s.replies
  }

  ghost predicate AllTurnedDown(s: State, i: nat, asked: seq<Poller>) {
    forall p :: p in asked ==> TurnedDown(s, i, p)
  }

  /** The candidates the worker has done with, and the one it is dealing with. */
  ghost predicate WorkerAsked(c: Setup, s: State, i: nat)
    requires i < |s.workers| == |c.polls|
  {
    var w, poll := s.workers[i], c.polls[i];
    match w.pc
    case Choosing(k) => k <= |poll.candidates| && AllTurnedDown(s, i, Able(poll.candidates[..k], c.clients))
    case Checking(k, _) => k < |poll.candidates| && AllTurnedDown(s, i, Able(poll.candidates[..k], c.clients))
    case Queued(k, _) => k < |poll.candidates| && AllTurnedDown(s, i, Able(poll.candidates[..k], c.clients))
    case Asking(k, _) => k < |poll.candidates| && AllTurnedDown(s, i, Able(poll.candidates[..k], c.clients))
    case Tallying(k, asker, days, etag) =>
      && k < |poll.candidates| && AllTurnedDown(s, i, Able(poll.candidates[..k], c.clients))
      && Reply(i, asker, days, etag) in s.replies && (days == None ==> etag == None)
    case Finished(r) => NobodyPassedOver(c, s, i, r)
  }

  /** Every able candidate before the one that answered was turned down; and when none answered, the first two were, or
      all there are. */
  ghost predicate NobodyPassedOver(c: Setup, s: State, i: nat, r: PollResult)
    requires i < |c.polls|
  {
    var able := Able(c.polls[i].candidates, c.clients);
    if r.days.Some? then
      exists n: nat :: n < |able| && r.poller == Some(able[n]) && AllTurnedDown(s, i, able[..n])
    else AllTurnedDown(s, i, if |able| < 2 then able else able[..2])
  }

  lemma LogsGrow(c: Setup, s: State, e: Event)
    requires |s.workers| == |c.polls| && Enabled(s, e)
    ensures s.errors <= Apply(c, s, e).errors
    ensures forall r :: r in s.replies ==> r in Apply(c, s, e).replies
  {
  }

  lemma TurnedDownStays(s: State, after: State, i: nat, asked: seq<Poller>)
    requires s.errors <= after.errors && forall r :: r in s.replies ==> r in after.replies
    requires AllTurnedDown(s, i, asked)
    ensures AllTurnedDown(after, i, asked)
  {
  }

  lemma AskedStays(c: Setup, s: State, after: State, i: nat)
    requires i < |s.workers| == |c.polls| == |after.workers| && after.workers[i] == s.workers[i]
    requires s.errors <= after.errors && forall r :: r in s.replies ==> r in after.replies
    requires WorkerAsked(c, s, i)
    ensures WorkerAsked(c, after, i)
  {
    var able := Able(c.polls[i].candidates, c.clients);
    hide AllTurnedDown, Able;
    forall asked | AllTurnedDown(s, i, asked)
      ensures AllTurnedDown(after, i, asked)
    {
      TurnedDownStays(s, after, i, asked);
    }
  }

  lemma ChosenAsked(c: Setup, s: State, i: nat, after: State)
    requires i < |s.workers| == |c.polls| == |after.workers| && s.workers[i].pc.Choosing?
    requires WorkerAsked(c, s, i) && WorkerInOrder(c, c.polls[i], s.workers[i])
    requires after.workers[i] == Chosen(c, c.polls[i], s.workers[i])
    requires after.errors == s.errors && after.replies == s.replies
    ensures WorkerAsked(c, after, i)
  {
    var w, poll, k := s.workers[i], c.polls[i], s.workers[i].pc.k;
    var asked, able := Able(poll.candidates[..k], c.clients), Able(poll.candidates, c.clients);
    if k < |poll.candidates| {
      AbleNext(poll.candidates, c.clients, k);
    }
    AbleGrows(poll.candidates, c.clients, k);
    assert k == |poll.candidates| ==> poll.candidates[..k] == poll.candidates;
    TurnedDownStays(s, after, i, asked);
    hide Able, AllTurnedDown;
    if Chosen(c, poll, w).pc.Finished? && k < |poll.candidates| {
      assert |asked| == 2 && asked == able[..2];
    } else if Chosen(c, poll, w).pc.Finished? {
      assert asked == able && |able| <= 2;
      assert |able| == 2 ==> able[..2] == able;
    }
  }

  lemma AllTurnedDownAfter(s: State, i: nat, asked: seq<Poller>, more: seq<Poller>)
    requires AllTurnedDown(s, i, asked) && AllTurnedDown(s, i, more)
    ensures AllTurnedDown(s, i, asked + more)
  {
  }

  lemma TalliedAsked(c: Setup, s: State, i: nat, after: State)
    requires i < |s.workers| == |c.polls| == |after.workers| && s.workers[i].pc.Tallying?
    requires WorkerAsked(c, s, i) && WorkerOk(c, s, i)
    requires after.workers[i] == Tallied(c.polls[i], s.workers[i])
    requires after.errors == s.errors && after.replies == s.replies
    ensures WorkerAsked(c, after, i)
  {
    var w, poll, k := s.workers[i], c.polls[i], s.workers[i].pc.k;
    var asked, able := Able(poll.candidates[..k], c.clients), Able(poll.candidates, c.clients);
    AbleNext(poll.candidates, c.clients, k);
    AbleGrows(poll.candidates, c.clients, k + 1);
    TurnedDownStays(s, after, i, asked);
    if w.pc.days.Some? {
      assert able[..|asked|] == asked && able[|asked|] == w.pc.asker;
    } else {
      assert AllTurnedDown(after, i, [w.pc.asker]);
      AllTurnedDownAfter(after, i, asked, [w.pc.asker]);
    }
  }

  lemma CheckedAsked(c: Setup, s: State, i: nat, after: State)
    requires i < |s.workers| == |c.polls| == |after.workers| && s.workers[i].pc.Checking?
    requires WorkerAsked(c, s, i) && WorkerOk(c, s, i) && after == Apply(c, s, Check(i))
    ensures WorkerAsked(c, after, i)
  {
    var w, poll, k := s.workers[i], c.polls[i], s.workers[i].pc.k;
    var asked := Able(poll.candidates[..k], c.clients);
    AbleNext(poll.candidates, c.clients, k);
    TurnedDownStays(s, after, i, asked);
    if w.pc.asker.account in s.errors {
      assert AllTurnedDown(after, i, [w.pc.asker]);
      AllTurnedDownAfter(after, i, asked, [w.pc.asker]);
    }
  }

  lemma AnsweredAsked(c: Setup, s: State, e: Event)
    requires e.i < |s.workers| == |c.polls| && e.Answer? && Enabled(s, e) && WorkerAsked(c, s, e.i)
    ensures WorkerAsked(c, Apply(c, s, e), e.i)
  {
    var after, k := Apply(c, s, e), s.workers[e.i].pc.k;
    LogsGrow(c, s, e);
    TurnedDownStays(s, after, e.i, Able(c.polls[e.i].candidates[..k], c.clients));
    assert after.replies[|s.replies|] == Reply(e.i, s.workers[e.i].pc.asker, e.days, e.etag);
  }

  lemma OwnStepAsked(c: Setup, s: State, e: Event)
    requires |s.workers| == |c.polls| && Enabled(s, e) && WorkerAsked(c, s, e.i)
    requires WorkerOk(c, s, e.i) && WorkerInOrder(c, c.polls[e.i], s.workers[e.i])
    ensures |Apply(c, s, e).workers| == |s.workers| && WorkerAsked(c, Apply(c, s, e), e.i)
  {
    var after := Apply(c, s, e);
    match e {
      case Choose(i) =>
        assert after.workers[i] == Chosen(c, c.polls[i], s.workers[i]);
        hide Apply, Chosen, Able;
        ChosenAsked(c, s, i, after);
      case Check(i) => CheckedAsked(c, s, i, after);
      case Enter(i) =>
        TurnedDownStays(s, after, i, Able(c.polls[i].candidates[..s.workers[i].pc.k], c.clients));
      case Answer(i, days, etag, raised) => AnsweredAsked(c, s, e);
      case Tally(i) =>
        assert after.workers[i] == Tallied(c.polls[i], s.workers[i]);
        hide Apply, Tallied, Able;
        TalliedAsked(c, s, i, after);
    }
  }

  lemma {:induction false} EveryRunAsks(c: Setup, events: seq<Event>, i: nat)
    requires Run(c, events) && i < |c.polls|
    ensures WorkerAsked(c, After(c, events), i)
  {
    hide WorkerAsked, Apply, WorkerOk, WorkerInOrder;
    if events == [] {
      FreshAsked(c, i);
    } else {
      var front, e := events[..|events| - 1], events[|events| - 1];
      var s := After(c, front);
      EveryRunAsks(c, front, i);
      EveryRunKeepsInv(c, front);
      EveryRunAsksInOrder(c, front);
      if e.i == i {
        assert WorkerOk(c, s, i);
        OwnStepAsked(c, s, e);
      } else {
        OthersStay(c, s, e, i);
        LogsGrow(c, s, e);
        AskedStays(c, s, Apply(c, s, e), i);
      }
    }
  }

  lemma FreshAsked(c: Setup, i: nat)
    requires i < |c.polls|
    ensures WorkerAsked(c, Initial(c), i)
  {
    assert c.polls[i].candidates[..0] == [];
  }

  /** In a finished run every candidate preferred to the one that answered was asked in vain, or a request of its
      account had raised; and a poll without a calendar was turned down so by its first two able candidates, or by all
      there are.  So if nothing raised, each of those was asked, and its request failed. */
  lemma NobodyIsPassedOver(c: Setup, events: seq<Event>, i: nat)
    requires Run(c, events) && AllFinished(After(c, events)) && i < |c.polls|
    ensures NobodyPassedOver(c, After(c, events), i, Results(After(c, events))[i])
    ensures var able := Able(c.polls[i].candidates, c.clients);
            (forall n: nat, a :: n < |events| ==> !RaisedAt(c, events, n, a)) && able != [] ==>
              exists reply :: reply in After(c, events).replies && reply.poll == i && reply.asker == able[0]
  {
    EveryRunAsks(c, events, i);
    EveryRunKeepsInv(c, events);
    var s := After(c, events);
    assert WorkerOk(c, s, i);
    var r, able := Results(s)[i], Able(c.polls[i].candidates, c.clients);
    if (forall n: nat, a :: n < |events| ==> !RaisedAt(c, events, n, a)) && able != [] {
      forall a
        ensures a !in s.errors
      {
        MarkedExactlyWhenRaised(c, events, a);
      }
      hide Run, After, Able;
      FirstIsAsked(c, s, i, r);
    }
  }

  lemma FirstIsAsked(c: Setup, s: State, i: nat, r: PollResult)
    requires i < |c.polls| && NobodyPassedOver(c, s, i, r) && s.errors == {}
    requires r.days.Some? ==> r.poller.Some? && Reply(i, r.poller.value, r.days, r.etag) in s.replies
    requires Able(c.polls[i].candidates, c.clients) != []
    ensures exists reply :: reply in s.replies && reply.poll == i
                            && reply.asker == Able(c.polls[i].candidates, c.clients)[0]
  {
    var able := Able(c.polls[i].candidates, c.clients);
    hide Able;
    if r.days.Some? {
      var n: nat :| n < |able| && r.poller == Some(able[n]) && AllTurnedDown(s, i, able[..n]);
      if n > 0 {
        assert able[..n][0] == able[0] && able[0] in able[..n];
        assert TurnedDown(s, i, able[0]);
      }
    } else {
      var first := if |able| < 2 then able else able[..2];
      assert first[0] == able[0] && able[0] in first;
      assert TurnedDown(s, i, able[0]);
    }
  }

  // ---------------------------------------------------------------- the tallies count the replies

  predicate Counts(r: Reply, a: AccountId, good: bool) {
    r.asker.account == a && (r.days.Some? <==> good)
  }

  function Replied(replies: seq<Reply>, a: AccountId, good: bool): nat {
    if replies == [] then 0
    else Replied(replies[..|replies| - 1], a, good) + if Counts(replies[|replies| - 1], a, good) then 1 else 0
  }

  predicate TallyingOf(w: Worker, a: AccountId, good: bool) {
    w.pc.Tallying? && w.pc.asker.account == a && (w.pc.days.Some? <==> good)
  }

  function StillTallying(ws: seq<Worker>, a: AccountId, good: bool): nat {
    if ws == [] then 0 else StillTallying(ws[1..], a, good) + if TallyingOf(ws[0], a, good) then 1 else 0
  }

  lemma {:induction false} TallyingAfterPut(ws: seq<Worker>, i: nat, w: Worker, a: AccountId, good: bool)
    requires i < |ws|
    ensures StillTallying(ws[i := w], a, good) + (if TallyingOf(ws[i], a, good) then 1 else 0)
            == StillTallying(ws, a, good) + (if TallyingOf(w, a, good) then 1 else 0)
  {
    if i > 0 {
      TallyingAfterPut(ws[1..], i - 1, w, a, good);
      assert ws[i := w][1..] == ws[1..][i - 1 := w];
    } else {
      assert ws[i := w][1..] == ws[1..];
    }
  }

  lemma {:induction false} NobodyTallying(ws: seq<Worker>, a: AccountId, good: bool)
    requires forall i :: 0 <= i < |ws| ==> !ws[i].pc.Tallying?
    ensures StillTallying(ws, a, good) == 0
  {
    if ws != [] {
      assert forall i :: 0 <= i < |ws[1..]| ==> ws[1..][i] == ws[i + 1];
      NobodyTallying(ws[1..], a, good);
    }
  }

  lemma OneMoreReply(replies: seq<Reply>, r: Reply, a: AccountId, good: bool)
    ensures Replied(replies + [r], a, good) == Replied(replies, a, good) + if Counts(r, a, good) then 1 else 0
  {
    assert (replies + [r])[..|replies|] == replies;
  }

  function TallyOf(s: State, a: AccountId, good: bool): nat {
    Get(if good then s.ok else s.bad, a)
  }

  lemma StepCountsReplies(c: Setup, s: State, e: Event, a: AccountId, good: bool)
    requires |s.workers| == |c.polls| && Enabled(s, e)
    requires TallyOf(s, a, good) + StillTallying(s.workers, a, good) == Replied(s.replies, a, good)
    ensures var after := Apply(c, s, e);
            TallyOf(after, a, good) + StillTallying(after.workers, a, good) == Replied(after.replies, a, good)
  {
    hide StillTallying, Replied, AtCandidate;
    var after := Apply(c, s, e);
    TallyingAfterPut(s.workers, e.i, after.workers[e.i], a, good);
    if e.Answer? {
      OneMoreReply(s.replies, Reply(e.i, s.workers[e.i].pc.asker, e.days, e.etag), a, good);
    }
  }

  lemma {:induction false} RepliesAreCounted(c: Setup, events: seq<Event>, a: AccountId, good: bool)
    requires Run(c, events)
    ensures var s := After(c, events);
            TallyOf(s, a, good) + StillTallying(s.workers, a, good) == Replied(s.replies, a, good)
  {
    hide Apply;
    if events == [] {
      NobodyTallying(Initial(c).workers, a, good);
    } else {
      var front := events[..|events| - 1];
      RepliesAreCounted(c, front, a, good);
      StepCountsReplies(c, After(c, front), events[|events| - 1], a, good);
    }
  }

  /** A finished run's tallies are the numbers of the account's requests that gave a calendar, and that did not. */
  lemma TalliesCountReplies(c: Setup, events: seq<Event>, a: AccountId)
    requires Run(c, events) && AllFinished(After(c, events))
    ensures Get(After(c, events).ok, a) == Replied(After(c, events).replies, a, true)
    ensures Get(After(c, events).bad, a) == Replied(After(c, events).replies, a, false)
  {
    RepliesAreCounted(c, events, a, true);
    RepliesAreCounted(c, events, a, false);
    NobodyTallying(After(c, events).workers, a, true);
    NobodyTallying(After(c, events).workers, a, false);
  }

  /** And the replies are those of the run, in order. */
  function RepliesGiven(c: Setup, events: seq<Event>): seq<(nat, Option<seq<Day>>, Option<string>)> {
    if events == [] then []
    else
      var e := events[|events| - 1];
      RepliesGiven(c, events[..|events| - 1]) + if e.Answer? then [(e.i, e.days, e.etag)] else []
  }

  lemma OneStepReplies(c: Setup, s: State, e: Event)
    requires |s.workers| == |c.polls| && Enabled(s, e)
    ensures Apply(c, s, e).replies
            == s.replies + if e.Answer? then [Reply(e.i, s.workers[e.i].pc.asker, e.days, e.etag)] else []
  {
  }

  lemma {:induction false} RepliesAreThoseGiven(c: Setup, events: seq<Event>)
    requires Run(c, events)
    ensures var replies, given := After(c, events).replies, RepliesGiven(c, events);
            |replies| == |given|
            && forall n :: 0 <= n < |given| ==> (replies[n].poll, replies[n].days, replies[n].etag) == given[n]
  {
    if events != [] {
      RepliesAreThoseGiven(c, events[..|events| - 1]);
      OneStepReplies(c, After(c, events[..|events| - 1]), events[|events| - 1]);
      hide Apply;
    }
  }

  /** How often the worker of poll `i` has gone through a gate. */
  function SentFor(events: seq<Event>, i: nat): nat {
    if events == [] then 0 else SentFor(events[..|events| - 1], i) + if events[|events| - 1] == Enter(i) then 1 else 0
  }

  lemma StepSends(c: Setup, s: State, e: Event, i: nat)
    requires |s.workers| == |c.polls| && Enabled(s, e) && i < |s.workers|
    ensures |Apply(c, s, e).workers| == |s.workers|
    ensures Apply(c, s, e).workers[i].requests == s.workers[i].requests + if e == Enter(i) then 1 else 0
  {
    if e.i != i {
      OthersStay(c, s, e, i);
      hide Apply;
    }
  }

  /** The requests of a poll are the passages of its worker through a gate; so there are at most two in any run. */
  lemma {:induction false} RequestsAreThoseSent(c: Setup, events: seq<Event>, i: nat)
    requires Run(c, events) && i < |c.polls|
    ensures After(c, events).workers[i].requests == SentFor(events, i) <= 2
  {
    hide Apply;
    GatesAndAttempts(c, events, i);
    if events != [] {
      var front := events[..|events| - 1];
      RequestsAreThoseSent(c, front, i);
      StepSends(c, After(c, front), events[|events| - 1], i);
    }
  }

  lemma GatesAndAttempts(c: Setup, events: seq<Event>, i: nat)
    requires Run(c, events) && i < |c.polls|
    ensures After(c, events).workers[i].requests <= 2
  {
    EveryRunKeepsInv(c, events);
    assert WorkerOk(c, After(c, events), i);
  }
}
