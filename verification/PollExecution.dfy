/** Running a plan's polls in parallel: one worker per poll, one gate per account, shared
    tallies, interleaved step by step.  Nobody asks the sweep to stop.  How many are under way at once is bounded in
    PollPool. */
module PollExecution {
  import opened Basics
  import opened Calendar
  import opened PlannerRuns

  /** Where a worker is in its poll's list of candidates. */
  datatype Pc =
    | Choosing(k: nat)                                     // about to look at candidate k
    | Checking(k: nat, asker: Poller)                         // about to check the account under the lock
    | Queued(k: nat, asker: Poller)                           // waiting for the account's gate
    | Asking(k: nat, asker: Poller)                           // inside the gate, request sent
    | Tallying(k: nat, asker: Poller, days: Option<seq<Day>>, etag: Option<string>)
    | Finished(result: PollResult)

  datatype Worker = Worker(pc: Pc, attempts: nat, last: Option<Poller>, requests: nat)

  /** One request's reply, as the worker of poll `poll` got it. */
  datatype Reply = Reply(poll: nat, asker: Poller, days: Option<seq<Day>>, etag: Option<string>)

  datatype Setup = Setup(polls: seq<PollView>, clients: set<AccountId>, limit: nat)

  datatype State = State(workers: seq<Worker>, free: map<AccountId, nat>, errors: set<AccountId>,
                         ok: map<AccountId, nat>, bad: map<AccountId, nat>, sent: map<AccountId, nat>,
                         replies: seq<Reply>)

  function Initial(c: Setup): State {
    State(seq(|c.polls|, _ => Worker(Choosing(0), 0, None, 0)), map a | a in c.clients :: c.limit, {},
          map[], map[], map[], [])
  }

  datatype Event =
    | Choose(i: nat)
    | Check(i: nat)
    | Enter(i: nat)
    | Answer(i: nat, days: Option<seq<Day>>, etag: Option<string>, raised: bool)
    | Tally(i: nat)

  predicate Enabled(s: State, e: Event) {
    && e.i < |s.workers|
    && var pc := s.workers[e.i].pc;
       match e
       case Choose(_) => pc.Choosing?
       case Check(_) => pc.Checking?
       case Enter(_) => pc.Queued? && pc.asker.account in s.free && s.free[pc.asker.account] > 0
       case Answer(_, days, etag, raised) =>
         pc.Asking? && pc.asker.account in s.free && (raised ==> days == None && etag == None)
         && (days == None ==> etag == None)
       case Tally(_) => pc.Tallying?
  }

  function Get(m: map<AccountId, nat>, a: AccountId): nat {
    if a in m then m[a] else 0
  }

  function Inc(m: map<AccountId, nat>, a: AccountId): map<AccountId, nat> {
    m[a := Get(m, a) + 1]
  }

  function Put(s: State, i: nat, w: Worker): State
    requires i < |s.workers|
  {
    s.(workers := s.workers[i := w])
  }

  function Apply(c: Setup, s: State, e: Event): State
    requires Enabled(s, e) && |c.polls| == |s.workers|
  {
    var w, poll := s.workers[e.i], c.polls[e.i];
    match e
    case Choose(i) =>
      var k := w.pc.k;
      if k >= |poll.candidates| then Put(s, i, w.(pc := Finished(PollResult(poll, w.last, None, None))))
      else if poll.candidates[k].account !in c.clients then Put(s, i, w.(pc := Choosing(k + 1)))
      else if w.attempts == 2 then Put(s, i, w.(pc := Finished(PollResult(poll, w.last, None, None))))
      else
        var asker := poll.candidates[k];
        Put(s, i, w.(pc := Checking(k, asker), attempts := w.attempts + 1, last := Some(asker)))
    case Check(i) =>
      Put(s, i, w.(pc := if w.pc.asker.account in s.errors then Choosing(w.pc.k + 1) else Queued(w.pc.k, w.pc.asker)))
    case Enter(i) =>
      var a := w.pc.asker.account;
      Put(s, i, w.(pc := Asking(w.pc.k, w.pc.asker), requests := w.requests + 1)).(free := s.free[a := s.free[a] - 1],
                                                                                   sent := Inc(s.sent, a))
    case Answer(i, days, etag, raised) =>
      var asker := w.pc.asker;
      Put(s, i, w.(pc := Tallying(w.pc.k, asker, days, etag))).(
        free := s.free[asker.account := s.free[asker.account] + 1],
        errors := if raised then s.errors + {asker.account} else s.errors,
        replies := s.replies + [Reply(i, asker, days, etag)])
    case Tally(i) =>
      var asker := w.pc.asker;
      if w.pc.days.Some? then
        Put(s, i, w.(pc := Finished(PollResult(poll, Some(asker), w.pc.days, w.pc.etag)))).(ok :=
                                                                                              Inc(s.ok, asker.account))
      else
        Put(s, i, w.(pc := Choosing(w.pc.k + 1))).(bad := Inc(s.bad, asker.account))
  }

  // ---------------------------------------------------------------- counting workers

  /** Workers with a request of account `a` in flight. */
  function InFlight(ws: seq<Worker>, a: AccountId): nat {
    if ws == [] then 0 else InFlight(ws[1..], a) + (if FlightOf(ws[0], a) then 1 else 0)
  }

  predicate FlightOf(w: Worker, a: AccountId) {
    w.pc.Asking? && w.pc.asker.account == a
  }

  /** Workers whose request to account `a` was sent and is not tallied yet. */
  function Untallied(ws: seq<Worker>, a: AccountId): nat {
    if ws == [] then 0 else Untallied(ws[1..], a) + (if UntalliedOf(ws[0], a) then 1 else 0)
  }

  predicate UntalliedOf(w: Worker, a: AccountId) {
    (w.pc.Asking? || w.pc.Tallying?) && w.pc.asker.account == a
  }

  lemma {:induction false} CountsAfterPut(ws: seq<Worker>, i: nat, w: Worker, a: AccountId)
    requires i < |ws|
    ensures InFlight(ws[i := w], a) + (if FlightOf(ws[i], a) then 1 else 0)
              == InFlight(ws, a) + (if FlightOf(w, a) then 1 else 0)
    ensures Untallied(ws[i := w], a) + (if UntalliedOf(ws[i], a) then 1 else 0)
              == Untallied(ws, a) + (if UntalliedOf(w, a) then 1 else 0)
  {
    if i > 0 {
      CountsAfterPut(ws[1..], i - 1, w, a);
      assert ws[i := w][1..] == ws[1..][i - 1 := w];
    } else {
      assert ws[i := w][1..] == ws[1..];
    }
  }

  lemma {:induction false} NothingPending(ws: seq<Worker>, a: AccountId)
    requires forall i :: 0 <= i < |ws| ==> !UntalliedOf(ws[i], a)
    ensures InFlight(ws, a) == 0 && Untallied(ws, a) == 0
  {
    if ws != [] {
      forall i | 0 <= i < |ws[1..]|
        ensures !UntalliedOf(ws[1..][i], a)
      {
        assert ws[1..][i] == ws[i + 1];
      }
      NothingPending(ws[1..], a);
      assert !UntalliedOf(ws[0], a);
    }
  }

  lemma {:induction false} SomeoneInFlight(ws: seq<Worker>, a: AccountId) returns (i: nat)
    requires InFlight(ws, a) > 0
    ensures i < |ws| && FlightOf(ws[i], a)
  {
    if FlightOf(ws[0], a) {
      i := 0;
    } else {
      var j := SomeoneInFlight(ws[1..], a);
      i := j + 1;
    }
  }

  // ---------------------------------------------------------------- what every step keeps

  /** One worker's own bookkeeping. */
  ghost predicate WorkerOk(c: Setup, s: State, i: nat)
    requires i < |s.workers| == |c.polls|
  {
    var w, poll := s.workers[i], c.polls[i];
    && w.requests <= w.attempts <= 2
    && (w.last.Some? ==> w.last.value in poll.candidates && w.last.value.account in c.clients)
    && match w.pc
       case Choosing(k) => k <= |poll.candidates| && NoAnswerYet(s.replies, i)
       case Checking(k, asker) => AtCandidate(c, poll, k, asker) && w.last == Some(asker) && w.requests < w.attempts
            && NoAnswerYet(s.replies, i)
       case Queued(k, asker) => AtCandidate(c, poll, k, asker) && w.last == Some(asker) && w.requests < w.attempts
            && NoAnswerYet(s.replies, i)
       case Asking(k, asker) => AtCandidate(c, poll, k, asker) && w.last == Some(asker) && NoAnswerYet(s.replies, i)
       case Tallying(k, asker, days, etag) =>
         AtCandidate(c, poll, k, asker) && w.last == Some(asker) && (days == None ==> NoAnswerYet(s.replies, i))
         && (days.Some? ==> Reply(i, asker, days, etag) in s.replies)
       case Finished(r) =>
         r.poll == poll && r.poller == w.last
         && (if r.days.Some? then r.poller.Some? && Reply(i, r.poller.value, r.days, r.etag) in s.replies
             else NoAnswerYet(s.replies, i))
  }

  ghost predicate AtCandidate(c: Setup, poll: PollView, k: nat, asker: Poller) {
    k < |poll.candidates| && poll.candidates[k] == asker && asker.account in c.clients
  }

  /** No request of poll `i` has been answered with a calendar. */
  ghost predicate NoAnswerYet(replies: seq<Reply>, i: nat) {
    forall r :: r in replies && r.poll == i ==> r.days == None
  }

  ghost predicate Inv(c: Setup, s: State) {
    && |s.workers| == |c.polls|
    && (forall i {:trigger WorkerOk(c, s, i)} :: 0 <= i < |s.workers| ==> WorkerOk(c, s, i))
    && (forall a :: a in s.free <==> a in c.clients)
    && (forall a :: a in c.clients ==> s.free[a] + InFlight(s.workers, a) == c.limit)
    && (forall a :: Get(s.ok, a) + Get(s.bad, a) + Untallied(s.workers, a) == Get(s.sent, a))
  }

  lemma InitialInv(c: Setup)
    ensures Inv(c, Initial(c))
  {
    forall a {
      NothingPending(Initial(c).workers, a);
    }
  }

  lemma AnswerKeepsWorker(c: Setup, s: State, i: nat, days: Option<seq<Day>>, etag: Option<string>, raised: bool)
    requires |s.workers| == |c.polls| && Enabled(s, Answer(i, days, etag, raised)) && WorkerOk(c, s, i)
    ensures WorkerOk(c, Apply(c, s, Answer(i, days, etag, raised)), i)
  {
    var after := Apply(c, s, Answer(i, days, etag, raised));
    var reply := Reply(i, s.workers[i].pc.asker, days, etag);
    assert after.replies[|s.replies|] == reply;
    assert forall r :: r in after.replies <==> r in s.replies || r == reply;
  }

  lemma ChooseKeepsWorker(c: Setup, s: State, i: nat)
    requires |s.workers| == |c.polls| && Enabled(s, Choose(i)) && WorkerOk(c, s, i)
    ensures WorkerOk(c, Apply(c, s, Choose(i)), i)
  {
    hide NoAnswerYet;
    var after := Apply(c, s, Choose(i));
    assert after.replies == s.replies && after.workers[i] == Apply(c, s, Choose(i)).workers[i];
  }

  lemma QuietKeepsWorker(c: Setup, s: State, e: Event)
    requires |s.workers| == |c.polls| && Enabled(s, e) && (e.Check? || e.Enter? || e.Tally?) && WorkerOk(c, s, e.i)
    ensures WorkerOk(c, Apply(c, s, e), e.i)
  {
    assert Apply(c, s, e).replies == s.replies;
  }

  lemma OwnStepKeepsWorker(c: Setup, s: State, e: Event)
    requires |s.workers| == |c.polls| && Enabled(s, e) && WorkerOk(c, s, e.i)
    ensures |Apply(c, s, e).workers| == |s.workers| && WorkerOk(c, Apply(c, s, e), e.i)
  {
    hide WorkerOk;
    match e {
      case Answer(i, days, etag, raised) => AnswerKeepsWorker(c, s, i, days, etag, raised);
      case Choose(i) => ChooseKeepsWorker(c, s, i);
      case _ => QuietKeepsWorker(c, s, e);
    }
  }

  lemma OtherStepKeepsWorker(c: Setup, s: State, e: Event, i: nat)
    requires |s.workers| == |c.polls| && i < |s.workers| && i != e.i && Enabled(s, e) && WorkerOk(c, s, i)
    ensures |Apply(c, s, e).workers| == |s.workers| && WorkerOk(c, Apply(c, s, e), i)
  {
    var after := Apply(c, s, e);
    assert after.workers[i] == s.workers[i];
    assert forall r :: r in after.replies && r.poll == i <==> r in s.replies && r.poll == i;
  }

  lemma StepKeepsInv(c: Setup, s: State, e: Event)
    requires Inv(c, s) && Enabled(s, e)
    ensures Inv(c, Apply(c, s, e))
  {
    hide WorkerOk, Enabled, Apply;
    var after := Apply(c, s, e);
    EventOfAWorker(s, e);
    assert WorkerOk(c, s, e.i);
    OwnStepKeepsWorker(c, s, e);
    forall i | 0 <= i < |s.workers|
      ensures WorkerOk(c, after, i)
    {
      assert WorkerOk(c, s, i);
      if i != e.i {
        OtherStepKeepsWorker(c, s, e, i);
      }
    }
    forall a
      ensures (a in after.free <==> a in c.clients)
              && (a in c.clients ==> after.free[a] + InFlight(after.workers, a) == c.limit)
      ensures Get(after.ok, a) + Get(after.bad, a) + Untallied(after.workers, a) == Get(after.sent, a)
    {
      StepKeepsGate(c, s, e, a);
      StepKeepsTally(c, s, e, a);
    }
  }

  lemma EventOfAWorker(s: State, e: Event)
    requires Enabled(s, e)
    ensures e.i < |s.workers|
  {
  }

  lemma StepKeepsGate(c: Setup, s: State, e: Event, a: AccountId)
    requires Enabled(s, e) && |s.workers| == |c.polls|
    requires (a in s.free <==> a in c.clients) && (a in c.clients ==> s.free[a] + InFlight(s.workers, a) == c.limit)
    ensures var after := Apply(c, s, e);
            (a in after.free <==> a in c.clients)
            && (a in c.clients ==> after.free[a] + InFlight(after.workers, a) == c.limit)
  {
    hide InFlight, Untallied;
    CountsAfterPut(s.workers, e.i, Apply(c, s, e).workers[e.i], a);
  }

  lemma StepKeepsTally(c: Setup, s: State, e: Event, a: AccountId)
    requires Enabled(s, e) && |s.workers| == |c.polls|
    requires Get(s.ok, a) + Get(s.bad, a) + Untallied(s.workers, a) == Get(s.sent, a)
    ensures var after := Apply(c, s, e);
            Get(after.ok, a) + Get(after.bad, a) + Untallied(after.workers, a) == Get(after.sent, a)
  {
    hide InFlight, Untallied;
    if e.Tally? {
      TallyCounts(c, s, e.i, a);
    } else {
      CountsAfterPut(s.workers, e.i, Apply(c, s, e).workers[e.i], a);
    }
  }

  lemma TallyCounts(c: Setup, s: State, i: nat, a: AccountId)
    requires Enabled(s, Tally(i)) && |s.workers| == |c.polls|
    ensures var after := Apply(c, s, Tally(i));
            Get(after.ok, a) + Get(after.bad, a) + Untallied(after.workers, a)
              == Get(s.ok, a) + Get(s.bad, a) + Untallied(s.workers, a)
            && after.sent == s.sent
  {
    hide InFlight, Untallied;
    CountsAfterPut(s.workers, i, Apply(c, s, Tally(i)).workers[i], a);
  }

  // ---------------------------------------------------------------- runs

  ghost predicate Run(c: Setup, events: seq<Event>)
    decreases |events|, 0
  {
    events != [] ==>
      && Run(c, events[..|events| - 1])
      && Enabled(After(c, events[..|events| - 1]), events[|events| - 1])
  }

  ghost function After(c: Setup, events: seq<Event>): (s: State)
    requires Run(c, events)
    ensures |s.workers| == |c.polls|
    decreases |events|, 1
  {
    if events == [] then Initial(c) else Apply(c, After(c, events[..|events| - 1]), events[|events| - 1])
  }

  lemma {:induction false} EveryRunKeepsInv(c: Setup, events: seq<Event>)
    requires Run(c, events)
    ensures Inv(c, After(c, events))
  {
    if events == [] {
      InitialInv(c);
    } else {
      EveryRunKeepsInv(c, events[..|events| - 1]);
      StepKeepsInv(c, After(c, events[..|events| - 1]), events[|events| - 1]);
    }
  }

  /** No account ever has more requests in flight than its gate allows, and no poll sends more than two. */
  lemma GatesAndAttemptsHold(c: Setup, events: seq<Event>, a: AccountId, i: nat)
    requires Run(c, events) && a in c.clients && i < |c.polls|
    ensures InFlight(After(c, events).workers, a) <= c.limit
    ensures After(c, events).workers[i].requests <= 2
  {
    EveryRunKeepsInv(c, events);
    assert WorkerOk(c, After(c, events), i);
  }

  ghost predicate AllFinished(s: State) {
    forall i :: 0 <= i < |s.workers| ==> s.workers[i].pc.Finished?
  }

  function Results(s: State): seq<PollResult>
    requires AllFinished(s)
  {
    seq(|s.workers|, i requires 0 <= i < |s.workers| => s.workers[i].pc.result)
  }

  /** `r` is the result of poll `i`: by nobody or by a candidate, and as answered. */
  ghost predicate ResultFits(c: Setup, s: State, i: nat, r: PollResult)
    requires i < |c.polls|
  {
    && r.poll == c.polls[i]
    && (r.poller.Some? ==> r.poller.value in r.poll.candidates)
    && (if r.days.Some? then r.poller.Some? && Reply(i, r.poller.value, r.days, r.etag) in s.replies
        else NoAnswerYet(s.replies, i))
  }

  lemma WorkerGivesResult(c: Setup, s: State, i: nat)
    requires |s.workers| == |c.polls| && i < |c.polls| && WorkerOk(c, s, i) && s.workers[i].pc.Finished?
    ensures ResultFits(c, s, i, s.workers[i].pc.result)
  {
  }

  /** A finished run gives each poll exactly one result, by nobody or by one of its candidates; a calendar in it is
      what that candidate was answered, a failure means every request of the poll failed; and the tallies of an
      account add up to the requests it sent. */
  lemma FinishedRunAccountsForEverything(c: Setup, events: seq<Event>)
    requires Run(c, events) && AllFinished(After(c, events))
    ensures var s := After(c, events);
            && |Results(s)| == |c.polls|
            && ResultsOk(c.polls, Results(s))
            && (forall i :: 0 <= i < |c.polls| ==> ResultFits(c, s, i, Results(s)[i]))
            && (forall a :: Get(s.ok, a) + Get(s.bad, a) == Get(s.sent, a))
  {
    hide Run, After;
    EveryRunKeepsInv(c, events);
    var s := After(c, events);
    forall i | 0 <= i < |c.polls|
      ensures ResultFits(c, s, i, Results(s)[i])
    {
      assert WorkerOk(c, s, i);
      WorkerGivesResult(c, s, i);
    }
    assert forall i :: 0 <= i < |c.polls| ==> ResultFits(c, s, i, Results(s)[i]);
    assert PollsOf(Results(s)) == c.polls;
    forall a
      ensures Untallied(s.workers, a) == 0
    {
      NothingPending(s.workers, a);
    }
  }

  // ---------------------------------------------------------------- runs end

  function Rank(w: Worker, n: nat): int {
    match w.pc
    case Choosing(k) => 5 * (n - k) + 1
    case Checking(k, _) => 5 * (n - k)
    case Queued(k, _) => 5 * (n - k) - 1
    case Asking(k, _) => 5 * (n - k) - 2
    case Tallying(k, _, _, _) => 5 * (n - k) - 3
    case Finished(_) => 0
  }

  function Work(polls: seq<PollView>, ws: seq<Worker>): int
    requires |polls| == |ws|
  {
    if ws == [] then 0 else Rank(ws[0], |polls[0].candidates|) + Work(polls[1..], ws[1..])
  }

  lemma {:induction false} WorkAfterPut(polls: seq<PollView>, ws: seq<Worker>, i: nat, w: Worker)
    requires |polls| == |ws| && i < |ws|
    ensures Work(polls, ws[i := w])
              == Work(polls, ws) - Rank(ws[i], |polls[i].candidates|) + Rank(w, |polls[i].candidates|)
  {
    if i > 0 {
      WorkAfterPut(polls[1..], ws[1..], i - 1, w);
      assert ws[i := w][1..] == ws[1..][i - 1 := w];
    } else {
      assert ws[i := w][1..] == ws[1..];
    }
  }

  lemma {:induction false} WorkIsNatural(c: Setup, polls: seq<PollView>, ws: seq<Worker>)
    requires |polls| == |ws|
    requires forall i :: 0 <= i < |ws| ==> Rank(ws[i], |polls[i].candidates|) >= 0
    ensures Work(polls, ws) >= 0
  {
    if ws != [] {
      forall i | 0 <= i < |ws[1..]|
        ensures Rank(ws[1..][i], |polls[1..][i].candidates|) >= 0
      {
        assert ws[1..][i] == ws[i + 1] && polls[1..][i] == polls[i + 1];
      }
      WorkIsNatural(c, polls[1..], ws[1..]);
      assert Rank(ws[0], |polls[0].candidates|) >= 0;
    }
  }

  lemma StepUsesWork(c: Setup, s: State, e: Event)
    requires |s.workers| == |c.polls| && Enabled(s, e) && WorkerOk(c, s, e.i)
    ensures |Apply(c, s, e).workers| == |c.polls| && Work(c.polls, Apply(c, s, e).workers) < Work(c.polls, s.workers)
  {
    hide Work;
    WorkAfterPut(c.polls, s.workers, e.i, Apply(c, s, e).workers[e.i]);
  }

  lemma WorkLeft(c: Setup, s: State)
    requires Inv(c, s)
    ensures Work(c.polls, s.workers) >= 0
  {
    forall i | 0 <= i < |s.workers|
      ensures Rank(s.workers[i], |c.polls[i].candidates|) >= 0
    {
      assert WorkerOk(c, s, i);
    }
    WorkIsNatural(c, c.polls, s.workers);
  }

  /** Every step uses up work, so every run is finite. */
  lemma {:induction false} RunsAreFinite(c: Setup, events: seq<Event>)
    requires Run(c, events)
    ensures |events| + Work(c.polls, After(c, events).workers) <= Work(c.polls, Initial(c).workers)
    ensures Work(c.polls, After(c, events).workers) >= 0
  {
    hide Work, Apply, Initial, WorkerOk;
    EveryRunKeepsInv(c, events);
    WorkLeft(c, After(c, events));
    if events != [] {
      var front, e := events[..|events| - 1], events[|events| - 1];
      RunsAreFinite(c, front);
      EveryRunKeepsInv(c, front);
      assert WorkerOk(c, After(c, front), e.i);
      StepUsesWork(c, After(c, front), e);
    }
  }

  /** A worker that is not finished can take a step, or waits at a gate for one who can. */
  lemma UnfinishedCanMove(c: Setup, s: State, i: nat) returns (e: Event)
    requires Inv(c, s) && c.limit > 0 && i < |s.workers| && !s.workers[i].pc.Finished?
    ensures Enabled(s, e) && (e.i == i || s.workers[e.i].pc.Asking?)
  {
    assert WorkerOk(c, s, i);
    match s.workers[i].pc {
      case Choosing(_) => e := Choose(i);
      case Checking(_, _) => e := Check(i);
      case Queued(_, asker) =>
        if s.free[asker.account] > 0 {
          e := Enter(i);
        } else {
          var j := SomeoneInFlight(s.workers, asker.account);
          e := Answer(j, None, None, false);
        }
      case Asking(_, _) => e := Answer(i, None, None, false);
      case Tallying(_, _, _, _) => e := Tally(i);
    }
  }

  /** Until every poll is finished, someone can take a step: gates do not deadlock. */
  lemma SomeoneCanMove(c: Setup, events: seq<Event>) returns (e: Event)
    requires Run(c, events) && !AllFinished(After(c, events)) && c.limit > 0
    ensures Enabled(After(c, events), e)
  {
    EveryRunKeepsInv(c, events);
    var s := After(c, events);
    var i :| 0 <= i < |s.workers| && !s.workers[i].pc.Finished?;
    e := UnfinishedCanMove(c, s, i);
  }

  // ---------------------------------------------------------------- the order of asking

  /** The candidates whose account has a session, in order of preference. */
  function Able(candidates: seq<Poller>, clients: set<AccountId>): seq<Poller> {
    if candidates == [] then []
    else
      var last := candidates[|candidates| - 1];
      Able(candidates[..|candidates| - 1], clients) + if last.account in clients then [last] else []
  }

  lemma {:induction false} AbleGrows(candidates: seq<Poller>, clients: set<AccountId>, k: nat)
    requires k <= |candidates|
    ensures Able(candidates[..k], clients) <= Able(candidates, clients)
  {
    if k < |candidates| {
      var front := candidates[..|candidates| - 1];
      AbleGrows(front, clients, k);
      assert front[..k] == candidates[..k];
    } else {
      assert candidates[..k] == candidates;
    }
  }

  lemma AbleNext(candidates: seq<Poller>, clients: set<AccountId>, k: nat)
    requires k < |candidates|
    ensures Able(candidates[..k + 1], clients)
            == Able(candidates[..k], clients) + if candidates[k].account in clients then [candidates[k]] else []
  {
    assert candidates[..k + 1][..k] == candidates[..k];
  }

  /** The worker has turned to exactly these candidates, in this order. */
  predicate TurnedTo(w: Worker, asked: seq<Poller>) {
    w.attempts == |asked| && w.last == if asked == [] then None else Some(asked[|asked| - 1])
  }

  /** It is dealing with candidate `k`, an able one. */
  predicate AtAble(clients: set<AccountId>, candidates: seq<Poller>, k: nat, w: Worker) {
    k < |candidates| && candidates[k].account in clients && TurnedTo(w, Able(candidates[..k + 1], clients))
  }

  /** The result names the first or the second able candidate, or nobody when there is none; and a poll only fails once
      two of them, or all there are, have been turned to. */
  ghost predicate FellBack(clients: set<AccountId>, candidates: seq<Poller>, r: PollResult) {
    var able := Able(candidates, clients);
    match r.poller
    case None => able == [] && r.days == None
    case Some(p) =>
      exists n: nat :: n < 2 && n < |able| && p == able[n] && (r.days == None ==> n == 1 || |able| == 1)
  }

  lemma FallsBackInOrder(clients: set<AccountId>, candidates: seq<Poller>, k: nat, w: Worker, r: PollResult)
    requires k <= |candidates| && w.attempts <= 2 && TurnedTo(w, Able(candidates[..k], clients)) && r.poller == w.last
    requires r.days == None ==> k == |candidates| || w.attempts == 2
    requires r.days.Some? ==> w.attempts > 0
    ensures FellBack(clients, candidates, r)
  {
    var asked, able := Able(candidates[..k], clients), Able(candidates, clients);
    AbleGrows(candidates, clients, k);
    assert k == |candidates| ==> candidates[..k] == candidates;
    hide Able;
    if asked != [] {
      var n := |asked| - 1;
      assert able[n] == asked[n];
    }
  }

  /** A worker that is about to look at candidate `k`. */
  function Chosen(c: Setup, poll: PollView, w: Worker): Worker
    requires w.pc.Choosing?
  {
    var k := w.pc.k;
    if k < |poll.candidates| && poll.candidates[k].account !in c.clients then w.(pc := Choosing(k + 1))
    else if k < |poll.candidates| && w.attempts < 2 then
      w.(pc := Checking(k, poll.candidates[k]), attempts := w.attempts + 1, last := Some(poll.candidates[k]))
    else w.(pc := Finished(PollResult(poll, w.last, None, None)))
  }

  /** A worker whose reply has been tallied. */
  function Tallied(poll: PollView, w: Worker): Worker
    requires w.pc.Tallying?
  {
    w.(pc := if w.pc.days.Some? then Finished(PollResult(poll, Some(w.pc.asker), w.pc.days, w.pc.etag))
             else Choosing(w.pc.k + 1))
  }

  ghost predicate WorkerInOrder(c: Setup, poll: PollView, w: Worker) {
    w.attempts <= 2
    && match w.pc
       case Choosing(k) => k <= |poll.candidates| && TurnedTo(w, Able(poll.candidates[..k], c.clients))
       case Checking(k, _) => AtAble(c.clients, poll.candidates, k, w)
       case Queued(k, _) => AtAble(c.clients, poll.candidates, k, w)
       case Asking(k, _) => AtAble(c.clients, poll.candidates, k, w)
       case Tallying(k, _, _, _) => AtAble(c.clients, poll.candidates, k, w)
       case Finished(r) => FellBack(c.clients, poll.candidates, r)
  }

  lemma ChosenInOrder(c: Setup, poll: PollView, w: Worker)
    requires w.pc.Choosing? && WorkerInOrder(c, poll, w)
    ensures WorkerInOrder(c, poll, Chosen(c, poll, w))
  {
    hide Able;
    var k := w.pc.k;
    if k < |poll.candidates| {
      AbleNext(poll.candidates, c.clients, k);
    }
    if Chosen(c, poll, w).pc.Finished? {
      FallsBackInOrder(c.clients, poll.candidates, k, w, PollResult(poll, w.last, None, None));
    }
    hide FellBack;
  }

  lemma TallyInOrder(c: Setup, poll: PollView, w: Worker, after: Worker)
    requires w.pc.Tallying? && WorkerInOrder(c, poll, w) && w.last == Some(w.pc.asker)
    requires after == Tallied(poll, w)
    ensures WorkerInOrder(c, poll, after)
  {
    AbleNext(poll.candidates, c.clients, w.pc.k);
    hide Able;
    if after.pc.Finished? {
      FallsBackInOrder(c.clients, poll.candidates, w.pc.k + 1, w, after.pc.result);
    }
    hide FellBack;
  }

  lemma OwnStepKeepsOrder(c: Setup, s: State, e: Event)
    requires |s.workers| == |c.polls| && Enabled(s, e) && WorkerOk(c, s, e.i)
             && WorkerInOrder(c, c.polls[e.i], s.workers[e.i])
    ensures |Apply(c, s, e).workers| == |s.workers| && WorkerInOrder(c, c.polls[e.i], Apply(c, s, e).workers[e.i])
  {
    var w, poll := s.workers[e.i], c.polls[e.i];
    var after := Apply(c, s, e).workers[e.i];
    hide Able, FellBack, AtAble, TurnedTo, NoAnswerYet;
    match e {
      case Choose(_) =>
        assert after == Chosen(c, poll, w);
        hide Apply, Chosen;
        ChosenInOrder(c, poll, w);
      case Tally(_) =>
        assert after == Tallied(poll, w);
        hide Apply;
        TallyInOrder(c, poll, w, after);
      case Check(_) => CheckedInOrder(c, poll, w, after);
      case _ => SameOrder(c, poll, w, after);
    }
  }

  lemma CheckedInOrder(c: Setup, poll: PollView, w: Worker, after: Worker)
    requires w.pc.Checking? && WorkerInOrder(c, poll, w)
    requires after == w.(pc := Choosing(w.pc.k + 1)) || after == w.(pc := Queued(w.pc.k, w.pc.asker))
    ensures WorkerInOrder(c, poll, after)
  {
    hide Able;
  }

  lemma SameOrder(c: Setup, poll: PollView, w: Worker, after: Worker)
    requires (w.pc.Queued? && after.pc.Asking?) || (w.pc.Asking? && after.pc.Tallying?)
    requires WorkerInOrder(c, poll, w) && after.pc.k == w.pc.k && after.attempts == w.attempts && after.last == w.last
    ensures WorkerInOrder(c, poll, after)
  {
    hide Able;
  }

  ghost predicate AllInOrder(c: Setup, s: State) {
    |s.workers| == |c.polls| && forall i :: 0 <= i < |s.workers| ==> WorkerInOrder(c, c.polls[i], s.workers[i])
  }

  lemma {:induction false} EveryRunAsksInOrder(c: Setup, events: seq<Event>)
    requires Run(c, events)
    ensures AllInOrder(c, After(c, events))
  {
    hide WorkerInOrder, Apply, WorkerOk;
    if events == [] {
      forall i | 0 <= i < |c.polls|
        ensures WorkerInOrder(c, c.polls[i], Initial(c).workers[i])
      {
        FreshInOrder(c, c.polls[i]);
      }
    } else {
      var front, e := events[..|events| - 1], events[|events| - 1];
      EveryRunAsksInOrder(c, front);
      EveryRunKeepsInv(c, front);
      var s := After(c, front);
      assert WorkerOk(c, s, e.i);
      OwnStepKeepsOrder(c, s, e);
      forall i | 0 <= i < |s.workers| && i != e.i
        ensures Apply(c, s, e).workers[i] == s.workers[i]
      {
        OthersStay(c, s, e, i);
      }
    }
  }

  lemma FreshInOrder(c: Setup, poll: PollView)
    ensures WorkerInOrder(c, poll, Worker(Choosing(0), 0, None, 0))
  {
    assert poll.candidates[..0] == [];
  }

  lemma OthersStay(c: Setup, s: State, e: Event, i: nat)
    requires |s.workers| == |c.polls| && i < |s.workers| && i != e.i && Enabled(s, e)
    ensures |Apply(c, s, e).workers| == |s.workers| && Apply(c, s, e).workers[i] == s.workers[i]
  {
  }

  /** Fallback goes down the list of candidates: in a finished run each result names the first candidate with a
      session, or the second once the first was turned to in vain; and a poll is only given up after two such
      candidates, or all. */
  lemma FallbackIsInOrder(c: Setup, events: seq<Event>, i: nat)
    requires Run(c, events) && AllFinished(After(c, events)) && i < |c.polls|
    ensures FellBack(c.clients, c.polls[i].candidates, Results(After(c, events))[i])
  {
    EveryRunAsksInOrder(c, events);
    hide Run, After;
    assert WorkerInOrder(c, c.polls[i], After(c, events).workers[i]);
  }
}
