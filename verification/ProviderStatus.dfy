/** What the provider reports: when it says connected, connecting or initializing, and which profile. */
module ProviderStatus {
  import opened Basics
  import opened Provider

  // ---------------------------------------------------------------- how the tunnel came out

  /** The tunnel of `pid` came up; of a goroutine that is done that is no longer written down. */
  ghost predicate TunFits(events: seq<Event>, s: State, pid: nat) {
    pid in s.tuns ==>
      && (s.tuns[pid] in {Polling, TunFailed} ==> TunComesUp(pid) !in events)
      && (s.tuns[pid] == TunUp ==> TunComesUp(pid) in events)
      && (s.tuns[pid] == TunDone <==> TunSettles(pid) in events)
  }

  lemma {:induction false} TunsFit(events: seq<Event>, pid: nat)
    requires Run(events)
    ensures TunFits(events, After(events), pid)
    ensures pid !in After(events).tuns ==> TunComesUp(pid) !in events && TunSettles(pid) !in events
  {
    if events != [] {
      var front, e := events[..|events| - 1], events[|events| - 1];
      assert events == front + [e];
      TunsFit(front, pid);
      EveryRunKeepsInv(front);
      assert pid in After(front).tuns <==> pid < After(front).next;
      hide Inv;
      TunStepFits(front, After(front), e, pid);
    }
  }

  lemma TunStepFits(front: seq<Event>, s: State, e: Event, pid: nat)
    requires Enabled(s, e) && TunFits(front, s, pid) && (pid in s.tuns <==> pid < s.next)
    requires pid !in s.tuns ==> TunComesUp(pid) !in front && TunSettles(pid) !in front
    ensures TunFits(front + [e], Apply(s, e), pid)
    ensures pid !in Apply(s, e).tuns ==> TunComesUp(pid) !in front + [e] && TunSettles(pid) !in front + [e]
  {
    assert forall x :: x in front + [e] <==> x in front || x == e;
  }

  // ---------------------------------------------------------------- the last word on the status

  /** Since the n-th event no call was refused and left its error behind. */
  ghost predicate NoRefusalSince(events: seq<Event>, n: nat) {
    forall m :: n < m < |events| ==> !events[m].Refuse?
  }

  /** The tunnel of `pid` came up, its goroutine had its say, and no call was refused since. */
  ghost predicate UpAndSettled(events: seq<Event>, pid: nat) {
    exists n: nat ::
      n < |events| && events[n] == TunSettles(pid) && TunComesUp(pid) in events[..n] && NoRefusalSince(events, n)
  }

  /** `pid` was launched, its tunnel goroutine has not had its say, and no call was refused since. */
  ghost predicate StillConnecting(events: seq<Event>, pid: nat)
    requires Run(events)
  {
    TunSettles(pid) !in events
    && exists n: nat :: n < |events| && events[n].Launch? && Run(events[..n]) && After(events[..n]).next == pid
                        && NoRefusalSince(events, n)
  }

  lemma UpAndSettledGrows(front: seq<Event>, e: Event, pid: nat)
    ensures UpAndSettled(front + [e], pid) <==>
            (UpAndSettled(front, pid) && !e.Refuse?) || (e == TunSettles(pid) && TunComesUp(pid) in front)
  {
    var events, last := front + [e], |front|;
    assert events[..last] == front;
    forall n: nat | n < last
      ensures events[n] == front[n] && events[..n] == front[..n]
      ensures NoRefusalSince(events, n) <==> NoRefusalSince(front, n) && !e.Refuse?
    {
      assert events[last] == e;
      if NoRefusalSince(events, n) {
        forall m | n < m < last
          ensures !front[m].Refuse?
        {
          assert events[m] == front[m];
        }
      }
    }
    if e == TunSettles(pid) && TunComesUp(pid) in front {
      assert events[last] == TunSettles(pid) && NoRefusalSince(events, last);
    }
    if n: nat :| n < last && front[n] == TunSettles(pid) && TunComesUp(pid) in front[..n] && NoRefusalSince(front, n)
                 && !e.Refuse? {
      assert events[n] == TunSettles(pid) && NoRefusalSince(events, n);
    }
  }

  lemma StillConnectingGrows(front: seq<Event>, e: Event, pid: nat)
    requires Run(front + [e]) && Run(front)
    ensures StillConnecting(front + [e], pid) <==>
            && e != TunSettles(pid) && TunSettles(pid) !in front
            && ((StillConnecting(front, pid) && !e.Refuse?) || (e.Launch? && After(front).next == pid))
  {
    var events, last := front + [e], |front|;
    assert events[..last] == front;
    forall n: nat | n < last
      ensures events[n] == front[n] && events[..n] == front[..n]
      ensures NoRefusalSince(events, n) <==> NoRefusalSince(front, n) && !e.Refuse?
    {
      assert events[last] == e;
      if NoRefusalSince(events, n) {
        forall m | n < m < last
          ensures !front[m].Refuse?
        {
          assert events[m] == front[m];
        }
      }
    }
    hide Run, After;
    if e.Launch? && After(front).next == pid {
      assert events[last].Launch? && NoRefusalSince(events, last);
    }
    if n: nat :|
        && n < last && front[n].Launch? && Run(front[..n]) && After(front[..n]).next == pid
        && NoRefusalSince(front, n) && !e.Refuse?
    {
      assert events[n].Launch? && NoRefusalSince(events, n);
    }
  }

  /** While a process is registered the status is the last thing said about it. */
  ghost predicate StatusFits(events: seq<Event>, s: State)
    requires Run(events)
  {
    s.cmd.Some? ==>
      && (s.status == Connected <==> UpAndSettled(events, s.cmd.value))
      && (s.status == Connecting <==> StillConnecting(events, s.cmd.value))
  }

  lemma {:induction false} StatusAlwaysFits(events: seq<Event>)
    requires Run(events)
    ensures StatusFits(events, After(events))
  {
    if events != [] {
      var front, e := events[..|events| - 1], events[|events| - 1];
      assert events == front + [e];
      StatusAlwaysFits(front);
      if Apply(After(front), e).cmd.Some? {
        StatusFollows(front, e, Apply(After(front), e).cmd.value);
      }
    }
  }

  lemma StatusFollows(front: seq<Event>, e: Event, pid: nat)
    requires Run(front) && Enabled(After(front), e) && Run(front + [e]) && Apply(After(front), e).cmd == Some(pid)
    requires StatusFits(front, After(front))
    ensures Apply(After(front), e).status == Connected <==> UpAndSettled(front + [e], pid)
    ensures Apply(After(front), e).status == Connecting <==> StillConnecting(front + [e], pid)
  {
    var s, before := After(front), Word(UpAndSettled(front, pid), StillConnecting(front, pid));
    var after := Word(UpAndSettled(front + [e], pid), StillConnecting(front + [e], pid));
    var cameUp, settled := TunComesUp(pid) in front, TunSettles(pid) in front;
    assert before.up ==> settled;
    assert before.connecting ==> !settled;
    hide UpAndSettled, StillConnecting, Apply, Run, After;
    TunsFit(front, pid);
    UpAndSettledGrows(front, e, pid);
    StillConnectingGrows(front, e, pid);
    NoneOfALaterProcess(front, pid);
    WhatIsRegistered(front, e, pid);
    StatusWord(s, e, pid, before, after, cameUp, settled);
  }

  lemma WhatIsRegistered(front: seq<Event>, e: Event, pid: nat)
    requires Run(front) && Enabled(After(front), e)
    ensures var s := After(front);
            && (e.Launch? || e.LaunchFails? ==> s.cmd == None) && (s.cmd.Some? ==> s.cmd.value < s.next)
            && (pid in s.tuns <==> pid < s.next)
  {
    EveryRunKeepsInv(front);
  }

  /** Initializing means that nothing was tried yet. */
  lemma {:induction false} InitializingExactly(events: seq<Event>)
    requires Run(events)
    ensures var s := After(events);
            && (s.status == Initializing <==> forall e :: e in events ==> !e.Launch? && !e.Refuse? && !e.LaunchFails?)
            && (s.cmd.Some? ==> s.status != Initializing)
  {
    if events != [] {
      var front, e := events[..|events| - 1], events[|events| - 1];
      InitializingExactly(front);
      InitializingStep(After(front), e);
      assert forall x :: x in events <==> x in front || x == e;
      hide Apply;
    }
  }

  lemma InitializingStep(s: State, e: Event)
    requires Enabled(s, e) && (s.cmd.Some? ==> s.status != Initializing)
    ensures Apply(s, e).status == Initializing <==>
            s.status == Initializing && !e.Launch? && !e.Refuse? && !e.LaunchFails?
    ensures Apply(s, e).cmd.Some? ==> Apply(s, e).status != Initializing
  {
  }

  /** Nothing has been said of a process that is not launched yet. */
  lemma {:induction false} NoneOfALaterProcess(events: seq<Event>, pid: nat)
    requires Run(events)
    ensures pid >= After(events).next ==> !UpAndSettled(events, pid) && !StillConnecting(events, pid)
  {
    TunsFit(events, pid);
    EveryRunKeepsInv(events);
    if pid >= After(events).next {
      forall n: nat | n < |events| && events[n].Launch? && Run(events[..n])
        ensures After(events[..n]).next != pid
      {
        LaunchesCount(events, n);
      }
    }
    hide Inv;
  }

  lemma {:induction false} LaunchesCount(events: seq<Event>, n: nat)
    requires Run(events) && n < |events| && events[n].Launch? && Run(events[..n])
    ensures After(events[..n]).next < After(events).next
    decreases |events|
  {
    var front, last := events[..|events| - 1], |events| - 1;
    if n < last {
      assert front[..n] == events[..n] && front[n] == events[n];
      LaunchesCount(front, n);
    }
    hide Apply;
    LaunchingCounts(After(front), events[last]);
  }

  /** Whether connected, or connecting, was the last word on a process. */
  datatype Word = Word(up: bool, connecting: bool)

  lemma StatusWord(s: State, e: Event, pid: nat, before: Word, after: Word, cameUp: bool, settled: bool)
    requires Enabled(s, e) && Apply(s, e).cmd == Some(pid) && (e.Launch? || e.LaunchFails? ==> s.cmd == None)
    requires s.cmd.Some? ==> s.cmd.value < s.next
    requires s.cmd == Some(pid) ==>
               (s.status == Connected <==> before.up) && (s.status == Connecting <==> before.connecting)
    requires pid in s.tuns <==> pid < s.next
    requires pid in s.tuns ==>
               && (s.tuns[pid] in {Polling, TunFailed} ==> !cameUp) && (s.tuns[pid] == TunUp ==> cameUp)
               && (s.tuns[pid] == TunDone <==> settled)
    requires pid !in s.tuns ==> !cameUp && !settled && !before.up && !before.connecting
    requires (before.up ==> settled) && (before.connecting ==> !settled)
    requires after.up <==> (before.up && !e.Refuse?) || (e == TunSettles(pid) && cameUp)
    requires after.connecting <==> && e != TunSettles(pid) && !settled
                                   && ((before.connecting && !e.Refuse?) || (e.Launch? && s.next == pid))
    ensures Apply(s, e).status == Connected <==> after.up
    ensures Apply(s, e).status == Connecting <==> after.connecting
  {
  }

  /** With the mutex free: connected means that the current process's tunnel came up, that its goroutine said so, and
      that no call was refused since; connecting that it was launched, with neither since; and initializing that
      nothing was ever tried.  In all other states the status is an error. */
  lemma StatusExactly(events: seq<Event>)
    requires Run(events) && After(events).mutex == None
    ensures var s := After(events);
            && (s.status == Connected <==> s.cmd.Some? && UpAndSettled(events, s.cmd.value))
            && (s.status == Connecting <==> s.cmd.Some? && StillConnecting(events, s.cmd.value))
            && (s.status == Initializing <==> forall e :: e in events ==> !e.Launch? && !e.Refuse? && !e.LaunchFails?)
  {
    StatusAlwaysFits(events);
    InitializingExactly(events);
    EveryRunKeepsInv(events);
    hide Run, After, UpAndSettled, StillConnecting;
  }

  // ---------------------------------------------------------------- the profile

  /** The profile of the last launch, and how many there were. */
  function LastLaunched(events: seq<Event>): (string, nat) {
    if events == [] then ("", 0)
    else
      var (profile, count) := LastLaunched(events[..|events| - 1]);
      match events[|events| - 1]
      case Launch(_, p) => (p, count + 1)
      case _ => (profile, count)
  }

  lemma LaunchingCounts(s: State, e: Event)
    requires Enabled(s, e)
    ensures var after := Apply(s, e);
            if e.Launch? then after.active == e.profile && after.switches == s.switches + 1 && after.next == s.next + 1
            else after.active == s.active && after.switches == s.switches && after.next == s.next
  {
  }

  /** The active profile is the one launched last, and the switches are the launches. */
  lemma {:induction false} ActiveIsLastLaunched(events: seq<Event>)
    requires Run(events)
    ensures (After(events).active, After(events).switches) == LastLaunched(events)
  {
    hide Apply;
    if events != [] {
      ActiveIsLastLaunched(events[..|events| - 1]);
      LaunchingCounts(After(events[..|events| - 1]), events[|events| - 1]);
    }
  }

  // ---------------------------------------------------------------- who is registered

  /** Since the n-th event no call finished stopping a process, and no exit of `pid` was noticed. */
  ghost predicate NotStoppedSince(events: seq<Event>, n: nat, pid: nat) {
    forall m :: n < m < |events| ==> !events[m].FinishStop? && events[m] != WaiterSettles(pid)
  }

  /** A process is registered from its launch until a call has stopped it or its exit was noticed. */
  ghost predicate Registered(events: seq<Event>, pid: nat)
    requires Run(events)
  {
    exists n: nat :: n < |events| && events[n].Launch? && Run(events[..n]) && After(events[..n]).next == pid
                     && NotStoppedSince(events, n, pid)
  }

  lemma {:induction false} RegisteredExactly(events: seq<Event>, pid: nat)
    requires Run(events)
    ensures After(events).cmd == Some(pid) <==> Registered(events, pid)
  {
    if events != [] {
      var front, e, last := events[..|events| - 1], events[|events| - 1], |events| - 1;
      assert events == front + [e];
      RegisteredExactly(front, pid);
      EveryRunKeepsInv(front);
      var s := After(front);
      assert e.Launch? ==> s.cmd == None;
      assert s.cmd.Some? ==> s.cmd.value < s.next;
      assert Registered(events, pid) <==>
             || (Registered(front, pid) && !e.FinishStop? && e != WaiterSettles(pid))
             || (e.Launch? && s.next == pid) by {
        RegisteredGrows(front, e, pid);
      }
      hide Registered, Inv, Run, After;
      RegisteredStep(s, e, pid);
    }
  }

  lemma RegisteredStep(s: State, e: Event, pid: nat)
    requires Enabled(s, e) && (e.Launch? ==> s.cmd == None) && (s.cmd.Some? ==> s.cmd.value < s.next)
    ensures Apply(s, e).cmd == Some(pid) <==>
            || (s.cmd == Some(pid) && !e.FinishStop? && e != WaiterSettles(pid))
            || (e.Launch? && s.next == pid)
  {
  }

  lemma RegisteredGrows(front: seq<Event>, e: Event, pid: nat)
    requires Run(front) && Run(front + [e])
    ensures Registered(front + [e], pid) <==>
            || (Registered(front, pid) && !e.FinishStop? && e != WaiterSettles(pid))
            || (e.Launch? && After(front).next == pid)
  {
    var events, last := front + [e], |front|;
    assert events[..last] == front && events[last] == e;
    forall n: nat | n < last
      ensures events[n] == front[n] && events[..n] == front[..n]
      ensures NotStoppedSince(events, n, pid) <==>
              NotStoppedSince(front, n, pid) && !e.FinishStop? && e != WaiterSettles(pid)
    {
      StoppedLater(front, e, n, pid);
    }
    hide Run, After;
    if e.Launch? && After(front).next == pid {
      assert events[last].Launch? && NotStoppedSince(events, last, pid);
    }
    hide NotStoppedSince;
    if n: nat :| n < last && front[n].Launch? && Run(front[..n]) && After(front[..n]).next == pid
                 && NotStoppedSince(front, n, pid) && !e.FinishStop? && e != WaiterSettles(pid) {
      assert events[n].Launch? && NotStoppedSince(events, n, pid);
    }
    if n: nat :| n < last && events[n].Launch? && Run(events[..n]) && After(events[..n]).next == pid
                 && NotStoppedSince(events, n, pid) {
      assert front[n].Launch? && NotStoppedSince(front, n, pid);
    }
  }

  lemma StoppedLater(front: seq<Event>, e: Event, n: nat, pid: nat)
    requires n < |front|
    ensures NotStoppedSince(front + [e], n, pid) <==>
            NotStoppedSince(front, n, pid) && !e.FinishStop? && e != WaiterSettles(pid)
  {
    var events, last := front + [e], |front|;
    assert events[last] == e;
    assert forall m :: 0 <= m < last ==> events[m] == front[m];
    if NotStoppedSince(events, n, pid) {
      forall m | n < m < last
        ensures !front[m].FinishStop? && front[m] != WaiterSettles(pid)
      {
        assert events[m] == front[m];
      }
    }
  }

  // ---------------------------------------------------------------- starting only when idle

  /** A StartIfIdle call that finds a process connecting or connected is over, and has changed nothing; any other goes
      on to start one. */
  lemma IdleStartsExactly(events: seq<Event>, t: nat)
    requires Run(events) && Enabled(After(events), LookIdle(t))
    ensures var s, after := After(events), Apply(After(events), LookIdle(t));
            && after == s.(calls := after.calls) && after.calls - {t} == s.calls - {t}
            && (t !in after.calls <==> s.status in {Connecting, Connected})
            && (t in after.calls ==> after.calls[t] == WantLock)
  {
    EveryRunKeepsInv(events);
  }
}
