/** What the provider's state says about its run: where each call is, which processes live, and what their goroutines
    have done; what the mutex keeps apart, and that every call and every goroutine can come to its end. */
module ProviderHistory {
  import opened Basics
  import opened Provider
  import opened ProviderStatus

  // ---------------------------------------------------------------- calls

  predicate IsStepOf(e: Event, t: nat) {
    match e
    case CallStart(u) => u == t
    case CallStartIfIdle(u) => u == t
    case LookIdle(u) => u == t
    case Lock(u) => u == t
    case Refuse(u) => u == t
    case BeginStop(u) => u == t
    case Kill(u) => u == t
    case FinishStop(u) => u == t
    case LaunchFails(u) => u == t
    case Launch(u, _) => u == t
    case _ => false
  }

  /** The last step call `t` took. */
  function LastStepOf(events: seq<Event>, t: nat): Option<Event> {
    if events == [] then None
    else
      var e := events[|events| - 1];
      if IsStepOf(e, t) then Some(e) else LastStepOf(events[..|events| - 1], t)
  }

  /** Where a call is after its last step: a Start waits for the mutex, a StartIfIdle first looks, and both are over
      once they were refused, failed to launch or launched. */
  ghost predicate CallIs(s: State, t: nat, last: Option<Event>) {
    match last
    case None => t !in s.calls
    case Some(e) =>
      if e.Refuse? || e.LaunchFails? || e.Launch? then t !in s.calls
      else if e.LookIdle? then t in s.calls ==> s.calls[t] == WantLock
      else
        t in s.calls
        && match e
           case CallStart(_) => s.calls[t] == WantLock
           case CallStartIfIdle(_) => s.calls[t] == Peek
           case Lock(_) => s.calls[t] == Entered
           case BeginStop(_) => s.calls[t] == if s.cmd == None then Ready else Stopping(s.cmd.value)
           case Kill(_) => s.cmd.Some? && s.calls[t] == Killing(s.cmd.value)
           case _ => s.calls[t] == Ready
  }

  lemma {:induction false} CallsFollowTheirSteps(events: seq<Event>, t: nat)
    requires Run(events)
    ensures CallIs(After(events), t, LastStepOf(events, t))
    ensures After(events).mutex == Some(t) <==>
            LastStepOf(events, t).Some?
            && var e := LastStepOf(events, t).value; e.Lock? || e.BeginStop? || e.Kill? || e.FinishStop?
  {
    EveryRunKeepsInv(events);
    if events != [] {
      var front, e := events[..|events| - 1], events[|events| - 1];
      CallsFollowTheirSteps(front, t);
      EveryRunKeepsInv(front);
      var s := After(front);
      var after := Apply(s, e);
      assert after.mutex == Some(t) ==> t in after.calls && Holds(after.calls[t]);
      assert t in after.calls && Holds(after.calls[t]) ==> after.mutex == Some(t);
      assert t in after.calls ==> CallFits(after, after.calls[t]);
      assert s.mutex.Some? ==> s.mutex.value in s.calls && Holds(s.calls[s.mutex.value]);
      assert t in s.calls && Holds(s.calls[t]) ==> s.mutex == Some(t);
      hide Inv, Run, After;
      CallStep(s, e, t, LastStepOf(front, t));
    }
  }

  lemma CallStep(s: State, e: Event, t: nat, last: Option<Event>)
    requires Enabled(s, e) && CallIs(s, t, last)
    requires t in Apply(s, e).calls ==> CallFits(Apply(s, e), Apply(s, e).calls[t])
    ensures CallIs(Apply(s, e), t, if IsStepOf(e, t) then Some(e) else last)
  {
  }

  // ---------------------------------------------------------------- processes and their goroutines

  /** A look at the registered process found that it was not `pid` any more. */
  ghost predicate LookedInVain(events: seq<Event>, pid: nat)
    requires Run(events)
  {
    exists n: nat ::
      n < |events| && events[n] == TunPolls(pid) && Run(events[..n]) && After(events[..n]).cmd != Some(pid)
  }

  lemma LookedInVainGrows(front: seq<Event>, e: Event, pid: nat)
    requires Run(front) && Run(front + [e])
    ensures LookedInVain(front + [e], pid)
            <==> LookedInVain(front, pid) || (e == TunPolls(pid) && After(front).cmd != Some(pid))
  {
    var events, last := front + [e], |front|;
    assert events[..last] == front && events[last] == e;
    assert forall n: nat | n < last :: events[n] == front[n] && events[..n] == front[..n];
    hide Run, After;
    if n: nat :| n < last && front[n] == TunPolls(pid) && Run(front[..n]) && After(front[..n]).cmd != Some(pid) {
      assert events[n] == TunPolls(pid);
    }
    if e == TunPolls(pid) && After(front).cmd != Some(pid) {
      assert events[last] == TunPolls(pid);
    }
  }

  /** Which steps of the goroutines of `pid` have been taken. */
  datatype Taken = Taken(exit: bool, returned: bool, closed: bool, noticed: bool, up: bool, timedOut: bool,
                         inVain: bool, settled: bool)

  ghost function TakenIn(events: seq<Event>, pid: nat): Taken
    requires Run(events)
  {
    Taken(Exit(pid) in events, WaitReturns(pid) in events, CloseChannel(pid) in events, WaiterSettles(pid) in events,
          TunComesUp(pid) in events, TunTimesOut(pid) in events, LookedInVain(events, pid), TunSettles(pid) in events)
  }

  /** A launched process lives until its exit; its waiter returns, closes the channel and notices the exit, in this
      order and once each. */
  ghost predicate WaiterIs(s: State, pid: nat, h: Taken) {
    if pid >= s.next then
      pid !in s.live && pid !in s.waiters && pid !in s.closed && !h.exit && !h.returned && !h.closed && !h.noticed
    else
      && (pid in s.live <==> !h.exit) && (pid in s.closed <==> h.closed) && pid in s.waiters
      && (s.waiters[pid] == Waiting <==> !h.returned) && (s.waiters[pid] == Returned <==> h.returned && !h.closed)
      && (s.waiters[pid] == Closed <==> h.closed && !h.noticed) && (s.waiters[pid] == WaitDone <==> h.noticed)
  }

  /** Its tunnel goroutine waits for the tunnel, a timeout or a look in vain, and then settles, once. */
  ghost predicate TunIs(s: State, pid: nat, h: Taken) {
    if pid >= s.next then pid !in s.tuns && !h.up && !h.timedOut && !h.inVain && !h.settled
    else
      && pid in s.tuns
      && (s.tuns[pid] == Polling <==> !h.up && !h.timedOut && !h.inVain)
      && (s.tuns[pid] == TunUp <==> h.up && !h.settled)
      && (s.tuns[pid] == TunFailed <==> (h.timedOut || h.inVain) && !h.settled)
      && (s.tuns[pid] == TunDone <==> h.settled)
      && !(h.up && (h.timedOut || h.inVain))
  }

  lemma {:induction false} ProcessesExactly(events: seq<Event>, pid: nat)
    requires Run(events)
    ensures WaiterIs(After(events), pid, TakenIn(events, pid)) && TunIs(After(events), pid, TakenIn(events, pid))
  {
    hide WaiterIs, TunIs;
    if events != [] {
      var front, e := events[..|events| - 1], events[|events| - 1];
      assert events == front + [e];
      ProcessesExactly(front, pid);
      LookedInVainGrows(front, e, pid);
      assert forall x :: x in events <==> x in front || x == e;
      var s := After(front);
      hide Run, LookedInVain, Apply;
      var h := TakenIn(front, pid);
      assert TakenIn(events, pid) == TakenThen(h, s, e, pid);
      WaiterStep(s, e, pid, h);
      TunStep(s, e, pid, h);
    } else {
      NothingTaken(pid);
    }
  }

  lemma NothingTaken(pid: nat)
    ensures WaiterIs(INITIAL, pid, TakenIn([], pid)) && TunIs(INITIAL, pid, TakenIn([], pid))
  {
  }

  function TakenThen(h: Taken, s: State, e: Event, pid: nat): Taken {
    Taken(h.exit || e == Exit(pid), h.returned || e == WaitReturns(pid), h.closed || e == CloseChannel(pid),
          h.noticed || e == WaiterSettles(pid), h.up || e == TunComesUp(pid), h.timedOut || e == TunTimesOut(pid),
          h.inVain || (e == TunPolls(pid) && s.cmd != Some(pid)), h.settled || e == TunSettles(pid))
  }

  lemma WaiterStep(s: State, e: Event, pid: nat, h: Taken)
    requires Enabled(s, e) && WaiterIs(s, pid, h)
    ensures WaiterIs(Apply(s, e), pid, TakenThen(h, s, e, pid))
  {
  }

  lemma TunStep(s: State, e: Event, pid: nat, h: Taken)
    requires Enabled(s, e) && TunIs(s, pid, h)
    ensures TunIs(Apply(s, e), pid, TakenThen(h, s, e, pid))
  {
  }

  /** The channel a call would wait for: the one of the last launch, until a call has stopped that process. */
  function LastChannel(events: seq<Event>): Option<nat> {
    if events == [] then None
    else
      var front := events[..|events| - 1];
      match events[|events| - 1]
      case Launch(_, _) => Some(LastLaunched(front).1)
      case FinishStop(_) => None
      case _ => LastChannel(front)
  }

  lemma {:induction false} ChannelExactly(events: seq<Event>)
    requires Run(events)
    ensures After(events).waitChan == LastChannel(events)
  {
    if events != [] {
      var front, e := events[..|events| - 1], events[|events| - 1];
      ChannelExactly(front);
      ActiveIsLastLaunched(front);
      EveryRunKeepsInv(front);
      assert After(front).switches == After(front).next;
      hide Inv, Run;
      ChannelStep(After(front), e);
      hide Apply;
    }
  }

  lemma ChannelStep(s: State, e: Event)
    requires Enabled(s, e)
    ensures Apply(s, e).waitChan == if e.Launch? then Some(s.next) else if e.FinishStop? then None else s.waitChan
  {
  }

  // ---------------------------------------------------------------- what the mutex keeps apart

  /** Neither the holder of the mutex nor anyone who needs it: beginnings of calls, the operating system, and a
      goroutine on its own. */
  predicate NeedsNoMutex(e: Event) {
    || e.CallStart? || e.CallStartIfIdle? || e.Exit? || e.WaitReturns? || e.CloseChannel? || e.TunComesUp?
    || e.TunTimesOut?
  }

  /** While a call holds the mutex only its own steps, and steps that need no mutex, are possible, and the latter
      leave what it protects as it is. */
  lemma MutexKeepsOthersOut(events: seq<Event>, t: nat, e: Event)
    requires Run(events) && After(events).mutex == Some(t) && Enabled(After(events), e)
    ensures IsStepOf(e, t) || NeedsNoMutex(e)
    ensures NeedsNoMutex(e) ==>
              var s, after := After(events), Apply(After(events), e);
              s.cmd == after.cmd && s.waitChan == after.waitChan && s.status == after.status && s.active == after.active
              && s.switches == after.switches && s.mutex == after.mutex
  {
    EveryRunKeepsInv(events);
    var s := After(events);
    assert forall u: nat :: u in s.calls && Holds(s.calls[u]) ==> u == t;
    hide Inv, Run, After;
  }

  // ---------------------------------------------------------------- everybody can go on

  /** With the mutex free no call is shut out: any can begin, and one under way can take its next step. */
  lemma NoCallIsShutOut(events: seq<Event>, t: nat)
    requires Run(events) && After(events).mutex == None
    ensures var s := After(events);
            if t in s.calls then Enabled(s, LookIdle(t)) || Enabled(s, Lock(t))
            else Enabled(s, CallStart(t)) && Enabled(s, CallStartIfIdle(t))
  {
    EveryRunKeepsInv(events);
    var s := After(events);
    assert t in s.calls ==> !Holds(s.calls[t]);
    hide Run, After, Inv;
  }

  /** Nor is any goroutine that is not done. */
  lemma NoGoroutineIsShutOut(events: seq<Event>, pid: nat)
    requires Run(events) && After(events).mutex == None
    ensures var s := After(events);
            && (pid in s.live ==> Enabled(s, Exit(pid)))
            && (pid in s.waiters && s.waiters[pid] != WaitDone && pid !in s.live ==>
                  Enabled(s, WaitReturns(pid)) || Enabled(s, CloseChannel(pid)) || Enabled(s, WaiterSettles(pid)))
            && (pid in s.tuns && s.tuns[pid] == Polling ==>
                  Enabled(s, TunPolls(pid)) && Enabled(s, TunComesUp(pid)) && Enabled(s, TunTimesOut(pid)))
            && (pid in s.tuns && s.tuns[pid] in {TunUp, TunFailed} ==> Enabled(s, TunSettles(pid)))
  {
    hide Run, After;
  }

  /** And whoever has just locked can be refused, or begin to stop what is running, which may take a kill; whoever is
      ready can launch or fail to. */
  lemma TheHolderMayChoose(s: State, t: nat, profile: string)
    requires t in s.calls
    ensures s.calls[t] == Entered ==> Enabled(s, Refuse(t)) && Enabled(s, BeginStop(t))
    ensures s.calls[t] == Ready ==> Enabled(s, Launch(t, profile)) && Enabled(s, LaunchFails(t))
    ensures s.calls[t].Stopping? ==> Enabled(s, Kill(t))
    ensures (s.calls[t].Stopping? || s.calls[t].Killing?) && s.calls[t].pid in s.closed ==> Enabled(s, FinishStop(t))
  {
  }

  /** Every call can be brought to its end. */
  lemma EveryCallCanEnd(events: seq<Event>, t: nat) returns (more: seq<Event>)
    requires Run(events) && t in After(events).calls
    ensures Run(events + more) && t !in After(events + more).calls
  {
    var first := MutexCanBeFreed(events);
    var free := events + first;
    if t !in After(free).calls {
      return first;
    }
    EveryRunKeepsInv(free);
    assert !Holds(After(free).calls[t]);
    var rest := FromTheDoor(free, t);
    more := first + rest;
    assert events + more == free + rest;
  }

  lemma FromTheDoor(events: seq<Event>, t: nat) returns (more: seq<Event>)
    requires Run(events) && t in After(events).calls && After(events).mutex == None && !Holds(After(events).calls[t])
    ensures Run(events + more) && t !in After(events + more).calls
  {
    if After(events).calls[t] == Peek {
      var looked := events + [LookIdle(t)];
      assert looked[..|events|] == events;
      if t !in After(looked).calls {
        return [LookIdle(t)];
      }
      LockAndRefuse(looked, t);
      more := [LookIdle(t), Lock(t), Refuse(t)];
      assert events + more == looked + [Lock(t), Refuse(t)];
    } else {
      LockAndRefuse(events, t);
      more := [Lock(t), Refuse(t)];
    }
  }

  lemma LockAndRefuse(events: seq<Event>, t: nat)
    requires Run(events) && After(events).mutex == None && At(After(events), t, WantLock)
    ensures Run(events + [Lock(t), Refuse(t)]) && t !in After(events + [Lock(t), Refuse(t)]).calls
  {
    var locked := events + [Lock(t)];
    assert locked[..|events|] == events;
    assert (locked + [Refuse(t)])[..|locked|] == locked;
    assert events + [Lock(t), Refuse(t)] == locked + [Refuse(t)];
  }
}
