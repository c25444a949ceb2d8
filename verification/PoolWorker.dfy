/** The pool bookkeeping of the worker, step by step: every method is tied to the value functions of Settlement. */
module PoolWorkers {
  import opened Basics
  import opened Calendar
  import opened Settlement
  import opened SettlementRuns

  class PoolWorker {
    const policy: Policy
    var failures: map<Name, nat>
    var cooldownUntil: map<Name, int>
    var sessions: set<Name>

    constructor (policy: Policy)
      ensures State() == EMPTY && this.policy == policy
      ensures RestsExactly(State(), policy)
    {
      this.policy := policy;
      failures, cooldownUntil, sessions := map[], map[], {};
    }

    function State(): Pool
      reads this
    {
      Pool(failures, cooldownUntil, sessions)
    }

    // ------------------------------------------------------------ one account

    method MaybeCoolDown(name: Name, now: int)
      modifies this`cooldownUntil
      ensures cooldownUntil == if policy.rest > 0 && Count(State(), name) >= Threshold(policy)
                               then old(cooldownUntil)[name := now + policy.rest] else old(cooldownUntil)
    {
      var count := Count(State(), name);
      if policy.rest <= 0 || count < Threshold(policy) {
        return;
      }
      cooldownUntil := cooldownUntil[name := now + policy.rest];
    }

    method RecordSuccess(name: Name)
      modifies this`failures, this`cooldownUntil
      ensures State() == Succeeded(old(State()), name)
    {
      failures := failures[name := 0];
      cooldownUntil := cooldownUntil - {name};
    }

    /** A failure that does not invalidate the session. */
    method SoftFailure(name: Name, now: int)
      modifies this`failures, this`cooldownUntil
      ensures State() == Charged(old(State()), policy, name, true, now)
    {
      failures := failures[name := Count(State(), name) + 1];
      MaybeCoolDown(name, now);
    }

    /** A failure after which the next sweep signs in afresh. */
    method HandleAccountFailure(name: Name, now: int)
      modifies this
      ensures State() == Charged(old(State()), policy, name, false, now)
    {
      failures := failures[name := Count(State(), name) + 1];
      sessions := sessions - {name};
      MaybeCoolDown(name, now);
    }

    method HandleSweepException(name: Name, failure: Failure, now: int)
      modifies this
      ensures State() == Settled(old(State()), policy, Incident(name, Some(failure)), now)
    {
      match failure
      case Expired => sessions := sessions - {name};
      case Transient => SoftFailure(name, now);
      case Refused => HandleAccountFailure(name, now);
    }

    /** Note a failure for the end of the sweep; an expired session is dealt with on the spot. */
    method NoteIncident(d: Draft, name: Name, failure: Failure) returns (next: Draft)
      requires d.pool == State()
      modifies this`sessions
      ensures next == Noted(d, name, failure) && next.pool == State()
    {
      if failure.Expired? {
        sessions := sessions - {name};
        next := d.(failed := d.failed + {name}, pool := State());
      } else {
        next := d.(failed := d.failed + {name}, incidents := d.incidents + [Incident(name, Some(failure))]);
      }
    }

    // ------------------------------------------------------------ one sweep

    method PrepareAccount(d: Draft, account: Login, last: bool, t: Turn) returns (next: Draft)
      requires d.pool == State()
      modifies this`sessions
      ensures next == Prepare(d, account, last, t) && next.pool == State()
    {
      if t.stopped {
        return d.(over := true);
      }
      if account.name in cooldownUntil && t.now < cooldownUntil[account.name] {
        return d;
      }
      var heavy := account.name !in sessions || (!account.canary && t.stale);
      next := d;
      if t.signedIn || t.failure.None? {
        sessions := sessions + {account.name};
        next := d.(pool := State());
      }
      if t.failure.Some? {
        next := NoteIncident(next, account.name, t.failure.value);
      } else {
        next := next.(clients := next.clients + {account.name}, talked := next.talked || heavy);
        if !account.canary && t.actionable {
          next := next.(prepared := next.prepared + [account.name]);
        }
      }
      if heavy && !last && t.stoppedAfter {
        next := next.(over := true);
      }
    }

    method Settle(incidents: seq<Incident>, now: int)
      modifies this
      ensures State() == SettleTo(old(State()), policy, incidents, now)
    {
      for n := 0 to |incidents|
        invariant State() == SettleTo(old(State()), policy, incidents[..n], now)
      {
        assert incidents[..n + 1][..n] == incidents[..n];
        match incidents[n].failure
        case None => SoftFailure(incidents[n].name, now);
        case Some(failure) => HandleSweepException(incidents[n].name, failure, now);
      }
      assert incidents[..|incidents|] == incidents;
    }

    method PrepareAll(accounts: seq<Login>, s: Script) returns (draft: Draft)
      requires |accounts| == |s.turns|
      modifies this`sessions
      ensures draft == PrepareTo(old(State()), accounts, s, |accounts|) && draft.pool == State()
    {
      hide Prepare;
      draft := Draft(State(), {}, [], {}, [], false, false);
      for n := 0 to |accounts|
        invariant draft == PrepareTo(old(State()), accounts, s, n) && draft.pool == State() && !draft.over
      {
        draft := PrepareAccount(draft, accounts[n], n == |accounts| - 1, s.turns[n]);
        if draft.over {
          OverStaysOver(old(State()), accounts, s, n + 1, |accounts|);
          return;
        }
      }
    }

    /** What came back from the calendar requests. */
    method NoteRequests(d: Draft, s: Script) returns (draft: Draft)
      requires d.pool == State()
      modifies this`sessions
      ensures draft == StatsTo(ErrorsTo(d, s, |s.errors|), s, |s.stats|) && draft.pool == State()
    {
      draft := d;
      for n := 0 to |s.errors|
        invariant draft == ErrorsTo(d, s, n) && draft.pool == State()
      {
        if s.errors[n].0 !in draft.failed {
          draft := NoteIncident(draft, s.errors[n].0, s.errors[n].1);
        }
      }
      ghost var answered := draft;
      for n := 0 to |s.stats|
        invariant draft == StatsTo(answered, s, n) && draft.pool == State()
      {
        var (name, ok, bad) := s.stats[n];
        if name !in draft.failed && ok == 0 && bad > 0 {
          draft := draft.(failed := draft.failed + {name}, incidents := draft.incidents + [Incident(name, None)]);
        }
      }
    }

    method BookAll(d: Draft, s: Script) returns (draft: Draft)
      requires d.pool == State() && |d.prepared| <= |s.visits| && !d.over
      modifies this`sessions
      ensures draft == VisitsTo(d, s, |d.prepared|) && draft.pool == State()
    {
      draft := d;
      for n := 0 to |d.prepared|
        invariant draft == VisitsTo(d, s, n) && draft.pool == State() && !draft.over
      {
        if s.visits[n].stopped {
          draft := draft.(over := true);
          VisitsStayOver(d, s, n + 1, |d.prepared|);
          return;
        }
        if d.prepared[n] !in draft.failed && s.visits[n].failure.Some? {
          draft := NoteIncident(draft, d.prepared[n], s.visits[n].failure.value);
        }
      }
    }

    /** The sweep's own bookkeeping, from preparing the accounts to settling its incidents. */
    method Sweep(accounts: seq<Login>, s: Script)
      requires |accounts| == |s.turns| <= |s.visits| && RestsExactly(State(), policy)
      modifies this
      ensures State() == Swept(old(State()), policy, accounts, s) && RestsExactly(State(), policy)
    {
      assert forall p: Pool :: SettleTo(p, policy, [], s.now) == p;
      hide RestsExactly, PrepareTo, ErrorsTo, StatsTo, VisitsTo, AllSucceeded, SettleTo;
      SweepKeepsRests(State(), policy, accounts, s);
      var draft := PrepareAll(accounts, s);
      if draft.over {
        CutShortSettlesNothing(old(State()), policy, accounts, s);
        return;
      }
      PreparedFew(old(State()), accounts, s, |accounts|);
      PreparedUntouched(draft, s);
      RequestsDoNotStop(draft, s);
      draft := NoteRequests(draft, s);
      draft := BookAll(draft, s);
      assert draft == Gathered(old(State()), accounts, s);
      hide Gathered;
      if draft.over {
        CutShortSettlesNothing(old(State()), policy, accounts, s);
        return;
      }
      ClearAll(draft.clients - draft.failed);
      if draft.incidents == [] {
        return;
      }
      var talked := draft.talked || (exists x :: x in s.stats && x.1 > 0) || s.replied;
      var cause := if !talked && s.verdict.Some? then s.verdict.value else AccountsFault;
      if cause == AccountsFault {
        Settle(draft.incidents, s.now);
      }
    }

    /** Every account that answered starts counting afresh. */
    method ClearAll(clean: set<Name>)
      modifies this`failures, this`cooldownUntil
      ensures State() == AllSucceeded(old(State()), clean)
    {
      var left := clean;
      while left != {}
        invariant left <= clean
        invariant State() == AllSucceeded(old(State()), clean - left)
        decreases |left|
      {
        assert (forall n :: n !in left) ==> left == {};
        var name :| name in left;
        OneMoreCleared(old(State()), clean - left, name);
        assert clean - (left - {name}) == clean - left + {name};
        RecordSuccess(name);
        left := left - {name};
      }
      assert clean - {} == clean;
    }
  }

  lemma OneMoreCleared(p: Pool, clean: set<Name>, name: Name)
    ensures Succeeded(AllSucceeded(p, clean), name) == AllSucceeded(p, clean + {name})
  {
  }

  lemma {:induction false} OverStaysOver(p: Pool, accounts: seq<Login>, s: Script, m: nat, n: nat)
    requires m <= n <= |accounts| == |s.turns| && PrepareTo(p, accounts, s, m).over
    ensures PrepareTo(p, accounts, s, n) == PrepareTo(p, accounts, s, m)
  {
    if m < n {
      OverStaysOver(p, accounts, s, m, n - 1);
    }
  }

  lemma {:induction false} VisitsStayOver(d: Draft, s: Script, m: nat, n: nat)
    requires m <= n <= |d.prepared| <= |s.visits| && VisitsTo(d, s, m).over
    ensures VisitsTo(d, s, n) == VisitsTo(d, s, m)
  {
    if m < n {
      VisitsStayOver(d, s, m, n - 1);
    }
  }

  lemma RequestsDoNotStop(d: Draft, s: Script)
    ensures StatsTo(ErrorsTo(d, s, |s.errors|), s, |s.stats|).over == d.over
  {
    ErrorsUntouched(d, s, |s.errors|);
    StatsUntouched(ErrorsTo(d, s, |s.errors|), s, |s.stats|);
  }

  /** A sweep cut short by the stop flag drops what it noted. */
  lemma CutShortSettlesNothing(p: Pool, policy: Policy, accounts: seq<Login>, s: Script)
    requires |accounts| == |s.turns| <= |s.visits| && Gathered(p, accounts, s).over
    ensures Swept(p, policy, accounts, s) == Gathered(p, accounts, s).pool
  {
  }
}
