/** The OpenVPN provider: Start calls, and the two goroutines each started process leaves
    behind, interleaved step by step around one mutex. */
module Provider {

  import opened Basics

  datatype Status = Initializing | Connecting | Connected | Error

  /** Where a Start or StartIfIdle call is.  From Entered on it holds the mutex. */
  datatype CallPc =
    | Peek                    // StartIfIdle: about to look whether a process is running
    | WantLock                // about to lock
    | Entered                 // locked; profile not checked yet
    | Stopping(pid: nat)      // SIGTERM sent, waiting for the channel of `pid`
    | Killing(pid: nat)       // SIGKILL sent after the grace period, still waiting
    | Ready                   // nothing is running; about to launch

  /** The goroutine that waits for a process to exit. */
  datatype WaitPc = Waiting | Returned | Closed | WaitDone

  /** The goroutine that waits for the tunnel to come up. */
  datatype TunPc = Polling | TunUp | TunFailed | TunDone

  /** `cmd` and `waitChan` name a process by its number; `live` and `closed` are what the operating system knows:
      the processes still running and the channels already closed. */
  datatype State = State(
    mutex: Option<nat>, calls: map<nat, CallPc>,
    cmd: Option<nat>, waitChan: Option<nat>, status: Status, active: string, switches: nat,
    live: set<nat>, closed: set<nat>, waiters: map<nat, WaitPc>, tuns: map<nat, TunPc>, next: nat)

  const INITIAL := State(None, map[], None, None, Initializing, "", 0, {}, {}, map[], map[], 0)

  datatype Event =
    | CallStart(t: nat)
    | CallStartIfIdle(t: nat)
    | LookIdle(t: nat)
    | Lock(t: nat)
    | Refuse(t: nat)                      // no profiles, or an unknown one
    | BeginStop(t: nat)
    | Kill(t: nat)                        // eight seconds passed
    | FinishStop(t: nat)
    | LaunchFails(t: nat)
    | Launch(t: nat, profile: string)
    | Exit(pid: nat)                      // the process ends, signalled or not
    | WaitReturns(pid: nat)
    | CloseChannel(pid: nat)
    | WaiterSettles(pid: nat)
    | TunPolls(pid: nat)                  // one look at the current process under the mutex
    | TunComesUp(pid: nat)
    | TunTimesOut(pid: nat)
    | TunSettles(pid: nat)

  predicate At(s: State, t: nat, pc: CallPc) {
    t in s.calls && s.calls[t] == pc
  }

  predicate Enabled(s: State, e: Event) {
    match e
    case CallStart(t) => t !in s.calls
    case CallStartIfIdle(t) => t !in s.calls
    case LookIdle(t) => At(s, t, Peek) && s.mutex == None
    case Lock(t) => At(s, t, WantLock) && s.mutex == None
    case Refuse(t) => At(s, t, Entered)
    case BeginStop(t) => At(s, t, Entered)
    case Kill(t) => t in s.calls && s.calls[t].Stopping?
    case FinishStop(t) => t in s.calls && (s.calls[t].Stopping? || s.calls[t].Killing?) && s.calls[t].pid in s.closed
    case LaunchFails(t) => At(s, t, Ready)
    case Launch(t, _) => At(s, t, Ready)
    case Exit(pid) => pid in s.live
    case WaitReturns(pid) => pid in s.waiters && s.waiters[pid] == Waiting && pid !in s.live
    case CloseChannel(pid) => pid in s.waiters && s.waiters[pid] == Returned
    case WaiterSettles(pid) => pid in s.waiters && s.waiters[pid] == Closed && s.mutex == None
    case TunPolls(pid) => pid in s.tuns && s.tuns[pid] == Polling && s.mutex == None
    case TunComesUp(pid) => pid in s.tuns && s.tuns[pid] == Polling
    case TunTimesOut(pid) => pid in s.tuns && s.tuns[pid] == Polling
    case TunSettles(pid) => pid in s.tuns && s.tuns[pid] in {TunUp, TunFailed} && s.mutex == None
  }

  function Unlock(s: State, t: nat): State {
    s.(mutex := None, calls := s.calls - {t})
  }

  function Apply(s: State, e: Event): State
    requires Enabled(s, e)
  {
    match e
    case CallStart(t) => s.(calls := s.calls[t := WantLock])
    case CallStartIfIdle(t) => s.(calls := s.calls[t := Peek])
    case LookIdle(t) =>
      if s.cmd != None && s.status in {Connected, Connecting} then s.(calls := s.calls - {t})
      else s.(calls := s.calls[t := WantLock])
    case Lock(t) => s.(mutex := Some(t), calls := s.calls[t := Entered])
    case Refuse(t) => Unlock(s.(status := Error), t)
    case BeginStop(t) =>
      s.(calls := s.calls[t := if s.cmd == None then Ready else Stopping(s.cmd.value)])
    case Kill(t) => s.(calls := s.calls[t := Killing(s.calls[t].pid)])
    case FinishStop(t) => s.(cmd := None, waitChan := None, calls := s.calls[t := Ready])
    case LaunchFails(t) => Unlock(s.(status := Error), t)
    case Launch(t, profile) =>
      Unlock(s.(cmd := Some(s.next), waitChan := Some(s.next), status := Connecting, active := profile,
                switches := s.switches + 1, live := s.live + {s.next}, waiters := s.waiters[s.next := Waiting],
                tuns := s.tuns[s.next := Polling], next := s.next + 1), t)
    case Exit(pid) => s.(live := s.live - {pid})
    case WaitReturns(pid) => s.(waiters := s.waiters[pid := Returned])
    case CloseChannel(pid) => s.(waiters := s.waiters[pid := Closed], closed := s.closed + {pid})
    case WaiterSettles(pid) =>
      var done := s.(waiters := s.waiters[pid := WaitDone]);
      if s.cmd == Some(pid) then done.(status := Error, cmd := None) else done
    case TunPolls(pid) => if s.cmd == Some(pid) then s else s.(tuns := s.tuns[pid := TunFailed])
    case TunComesUp(pid) => s.(tuns := s.tuns[pid := TunUp])
    case TunTimesOut(pid) => s.(tuns := s.tuns[pid := TunFailed])
    case TunSettles(pid) =>
      var done := s.(tuns := s.tuns[pid := TunDone]);
      if s.cmd != Some(pid) then done else done.(status := if s.tuns[pid] == TunUp then Connected else Error)
  }

  // ---------------------------------------------------------------- runs

  ghost predicate Run(events: seq<Event>)
    decreases |events|, 0
  {
    events != [] ==> Run(events[..|events| - 1]) && Enabled(After(events[..|events| - 1]), events[|events| - 1])
  }

  ghost function After(events: seq<Event>): State
    requires Run(events)
    decreases |events|, 1
  {
    if events == [] then INITIAL else Apply(After(events[..|events| - 1]), events[|events| - 1])
  }

  // ---------------------------------------------------------------- what every step keeps

  predicate Holds(pc: CallPc) {
    pc.Entered? || pc.Stopping? || pc.Killing? || pc.Ready?
  }

  predicate CallFits(s: State, pc: CallPc) {
    match pc
    case Stopping(pid) => s.cmd == Some(pid)
    case Killing(pid) => s.cmd == Some(pid)
    case Ready => s.cmd == None
    case _ => true
  }

  ghost predicate Inv(s: State) {
    // the mutex is held by exactly the call that is past its lock
    && (forall t: nat :: t in s.calls ==> (Holds(s.calls[t]) <==> s.mutex == Some(t)))
    && (s.mutex.Some? ==> s.mutex.value in s.calls)
    // a waiting call waits for the current process, a ready one has none
    && (forall t: nat :: t in s.calls ==> CallFits(s, s.calls[t]))
    // processes, channels and goroutines
    && (forall pid: nat :: pid in s.live ==> s.cmd == Some(pid))
    && (forall pid: nat :: pid in s.waiters <==> pid < s.next)
    && (forall pid: nat :: pid in s.tuns <==> pid < s.next)
    && (forall pid: nat :: pid in s.closed <==> pid in s.waiters && s.waiters[pid] in {Closed, WaitDone})
    && (forall pid: nat :: pid in s.live ==> pid < s.next && s.waiters[pid] == Waiting)
    && (s.cmd.Some? ==> s.cmd.value < s.next && s.waitChan == s.cmd && s.waiters[s.cmd.value] != WaitDone)
    // the status tells the truth whenever the mutex is free
    && (s.mutex == None && s.status in {Connecting, Connected} ==> s.cmd.Some?)
    && s.switches == s.next
  }

  /** Steps of a call up to the decision to stop the old process, and from there on. */
  predicate Opens(e: Event) {
    e.CallStart? || e.CallStartIfIdle? || e.LookIdle? || e.Lock? || e.Refuse?
  }

  predicate Stops(e: Event) {
    e.BeginStop? || e.Kill? || e.FinishStop? || e.LaunchFails?
  }

  predicate ByTun(e: Event) {
    e.TunPolls? || e.TunComesUp? || e.TunTimesOut?
  }

  lemma OpeningKeepsInv(s: State, e: Event)
    requires Inv(s) && Enabled(s, e) && Opens(e)
    ensures Inv(Apply(s, e))
  {
  }

  lemma StoppingKeepsInv(s: State, e: Event)
    requires Inv(s) && Enabled(s, e) && Stops(e)
    ensures Inv(Apply(s, e))
  {
  }

  lemma TunKeepsInv(s: State, e: Event)
    requires Inv(s) && Enabled(s, e) && ByTun(e)
    ensures Inv(Apply(s, e))
  {
  }

  lemma LaunchKeepsInv(s: State, t: nat, profile: string)
    requires Inv(s) && Enabled(s, Launch(t, profile))
    ensures Inv(Apply(s, Launch(t, profile)))
  {
    assert s.live == {};
  }

  lemma WaiterKeepsInv(s: State, e: Event)
    requires Inv(s) && Enabled(s, e) && (e.Exit? || e.WaitReturns? || e.CloseChannel?)
    ensures Inv(Apply(s, e))
  {
  }

  lemma SettlingKeepsInv(s: State, e: Event)
    requires Inv(s) && Enabled(s, e) && (e.WaiterSettles? || e.TunSettles?)
    ensures Inv(Apply(s, e))
  {
  }

  lemma StepKeepsInv(s: State, e: Event)
    requires Inv(s) && Enabled(s, e)
    ensures Inv(Apply(s, e))
  {
    if Opens(e) {
      OpeningKeepsInv(s, e);
    } else if Stops(e) {
      StoppingKeepsInv(s, e);
    } else if ByTun(e) {
      TunKeepsInv(s, e);
    } else if e.Launch? {
      LaunchKeepsInv(s, e.t, e.profile);
    } else if e.WaiterSettles? || e.TunSettles? {
      SettlingKeepsInv(s, e);
    } else {
      WaiterKeepsInv(s, e);
    }
  }

  lemma {:induction false} EveryRunKeepsInv(events: seq<Event>)
    requires Run(events)
    ensures Inv(After(events))
  {
    if events != [] {
      EveryRunKeepsInv(events[..|events| - 1]);
      StepKeepsInv(After(events[..|events| - 1]), events[|events| - 1]);
    }
  }

  /** In any interleaving at most one OpenVPN process is live, and it is the current one. */
  lemma AtMostOneProcess(events: seq<Event>)
    requires Run(events)
    ensures |After(events).live| <= 1
    ensures forall pid: nat :: pid in After(events).live ==> After(events).cmd == Some(pid)
  {
    EveryRunKeepsInv(events);
    var s := After(events);
    if s.cmd.Some? {
      assert s.live <= {s.cmd.value};
      SubsetSize(s.live, {s.cmd.value});
    } else {
      assert s.live == {};
    }
  }

  lemma SubsetSize(a: set<nat>, b: set<nat>)
    requires a <= b
    ensures |a| <= |b|
  {
    assert b == a + (b - a);
  }

  /** Whenever the mutex is free, "connecting" or "connected" means a process is registered. */
  lemma StatusImpliesProcess(events: seq<Event>)
    requires Run(events) && After(events).mutex == None && After(events).status in {Connecting, Connected}
    ensures After(events).cmd.Some?
  {
    EveryRunKeepsInv(events);
  }

  /** Once nothing is pending, a registered process is a live one: the status is not stale. */
  lemma QuietStatusIsHonest(events: seq<Event>)
    requires Run(events) && After(events).mutex == None
    requires forall pid: nat :: pid in After(events).waiters ==>
               After(events).waiters[pid] == WaitDone
               || (After(events).waiters[pid] == Waiting && pid in After(events).live)
    ensures After(events).cmd.Some? <==> After(events).live != {}
    ensures After(events).status in {Connecting, Connected} ==> After(events).live != {}
  {
    EveryRunKeepsInv(events);
    var s := After(events);
    if s.cmd.Some? {
      assert s.cmd.value in s.live;
    }
    if pid :| pid in s.live {
      assert s.cmd == Some(pid);
    }
  }

  // ---------------------------------------------------------------- goroutines of a replaced process

  /** `pid` was started and is no longer current. */
  predicate Replaced(s: State, pid: nat) {
    pid < s.next && s.cmd != Some(pid)
  }

  /** The step is taken by a goroutine of `pid`. */
  predicate ByGoroutineOf(e: Event, pid: nat) {
    e in {WaitReturns(pid), CloseChannel(pid), WaiterSettles(pid), TunPolls(pid), TunComesUp(pid), TunTimesOut(pid),
          TunSettles(pid)}
  }

  /** What a caller of the provider can see or what decides the next start. */
  ghost predicate SameFace(s: State, after: State) {
    && s.cmd == after.cmd && s.waitChan == after.waitChan && s.status == after.status && s.active == after.active
    && s.switches == after.switches && s.live == after.live && s.mutex == after.mutex && s.calls == after.calls
  }

  lemma StepKeepsReplaced(s: State, e: Event, pid: nat)
    requires Inv(s) && Enabled(s, e) && Replaced(s, pid)
    ensures Replaced(Apply(s, e), pid)
    ensures ByGoroutineOf(e, pid) ==> SameFace(s, Apply(s, e))
  {
    assert s.cmd.Some? ==> s.cmd.value < s.next;
    hide Inv;
    if ByGoroutineOf(e, pid) {
      LateStepChangesNothing(s, e, pid);
    }
  }

  lemma LateStepChangesNothing(s: State, e: Event, pid: nat)
    requires Enabled(s, e) && Replaced(s, pid) && ByGoroutineOf(e, pid)
    ensures SameFace(s, Apply(s, e))
  {
  }

  /** A process once replaced stays replaced for the rest of the run, and from then on its goroutines change nothing. */
  lemma {:induction false} ReplacedForGood(events: seq<Event>, n: nat, pid: nat)
    requires Run(events) && n <= |events| && Run(events[..n]) && Replaced(After(events[..n]), pid)
    ensures Replaced(After(events), pid)
    ensures forall e ::
              ByGoroutineOf(e, pid) && Enabled(After(events), e) ==> SameFace(After(events), Apply(After(events), e))
    decreases |events|
  {
    if n == |events| {
      assert events[..n] == events;
    } else {
      var front := events[..|events| - 1];
      assert front[..n] == events[..n];
      ReplacedForGood(front, n, pid);
      EveryRunKeepsInv(front);
      StepKeepsReplaced(After(front), events[|events| - 1], pid);
    }
    EveryRunKeepsInv(events);
    forall e | ByGoroutineOf(e, pid) && Enabled(After(events), e)
      ensures SameFace(After(events), Apply(After(events), e))
    {
      StepKeepsReplaced(After(events), e, pid);
    }
  }

  // ---------------------------------------------------------------- waiting under the mutex cannot deadlock

  /** How far the call that holds the mutex is from releasing it. */
  ghost function Distance(s: State): (d: nat)
    ensures d <= 6
  {
    if s.mutex == None || s.mutex.value !in s.calls then 0
    else
      var pc := s.calls[s.mutex.value];
      match pc
      case Ready => 1
      case Entered => 6
      case Stopping(pid) => Away(s, pid)
      case Killing(pid) => Away(s, pid)
      case _ => 0
  }

  ghost function Away(s: State, pid: nat): (d: nat)
    ensures 2 <= d <= 5
  {
    if pid in s.live then 5
    else if pid in s.waiters && s.waiters[pid] == Waiting then 4
    else if pid in s.waiters && s.waiters[pid] == Returned then 3
    else 2
  }

  /** The one step the holder is waiting for; none of them needs the mutex. */
  ghost function Helpful(s: State): Event
    requires s.mutex.Some? && s.mutex.value in s.calls
  {
    var t := s.mutex.value;
    match s.calls[t]
    case Entered => BeginStop(t)
    case Ready => LaunchFails(t)
    case Stopping(pid) => HelpfulFor(s, t, pid)
    case Killing(pid) => HelpfulFor(s, t, pid)
    case _ => CallStart(t)
  }

  ghost function HelpfulFor(s: State, t: nat, pid: nat): Event {
    match Away(s, pid)
    case 5 => Exit(pid)
    case 4 => WaitReturns(pid)
    case 3 => CloseChannel(pid)
    case _ => FinishStop(t)
  }

  /** Whoever holds the mutex can always be brought closer to releasing it, by its own step or by the exit and the
      waiter of the process it waits for, and no step of anyone else moves it back. */
  lemma HolderIsNeverStuck(events: seq<Event>)
    requires Run(events) && After(events).mutex.Some?
    ensures var s := After(events);
            && s.mutex.value in s.calls
            && Enabled(s, Helpful(s))
            && Distance(Apply(s, Helpful(s))) < Distance(s)
            && forall e :: Enabled(s, e) ==> Distance(Apply(s, e)) <= Distance(s)
  {
    EveryRunKeepsInv(events);
    var s := After(events);
    NoStepMovesBack(s);
    HelpIsPossible(s);
  }

  lemma HelpIsPossible(s: State)
    requires Inv(s) && s.mutex.Some?
    ensures s.mutex.value in s.calls && Enabled(s, Helpful(s)) && Distance(Apply(s, Helpful(s))) < Distance(s)
  {
    var t := s.mutex.value;
    assert Holds(s.calls[t]) && CallFits(s, s.calls[t]);
    match s.calls[t] {
      case Stopping(pid) => HelpFor(s, t, pid);
      case Killing(pid) => HelpFor(s, t, pid);
      case Entered =>
      case Ready =>
    }
  }

  lemma HelpFor(s: State, t: nat, pid: nat)
    requires Inv(s) && s.mutex == Some(t) && t in s.calls && s.calls[t] in {Stopping(pid), Killing(pid)}
             && s.cmd == Some(pid)
    ensures Enabled(s, HelpfulFor(s, t, pid)) && Distance(Apply(s, HelpfulFor(s, t, pid))) < Away(s, pid)
  {
    assert pid in s.waiters && s.waiters[pid] != WaitDone;
    assert pid in s.live ==> s.waiters[pid] == Waiting;
    assert pid in s.closed <==> s.waiters[pid] == Closed;
    hide Inv;
  }

  lemma NoStepMovesBack(s: State)
    requires Inv(s) && s.mutex.Some?
    ensures forall e :: Enabled(s, e) ==> Distance(Apply(s, e)) <= Distance(s)
  {
    forall e | Enabled(s, e)
      ensures Distance(Apply(s, e)) <= Distance(s)
    {
      var t := s.mutex.value;
      assert Holds(s.calls[t]);
    }
  }

  /** From every reachable state the mutex can be freed within six steps. */
  lemma {:induction false} MutexCanBeFreed(events: seq<Event>) returns (more: seq<Event>)
    requires Run(events)
    ensures Run(events + more) && After(events + more).mutex == None
    ensures |more| <= Distance(After(events)) <= 6
    decreases Distance(After(events))
  {
    hide Inv, Apply, Distance, Helpful;
    var s := After(events);
    if s.mutex == None {
      more := [];
      assert events + more == events;
    } else {
      HolderIsNeverStuck(events);
      var e := Helpful(s);
      var longer := events + [e];
      assert longer[..|longer| - 1] == events;
      var rest := MutexCanBeFreed(longer);
      more := [e] + rest;
      assert events + more == longer + rest;
    }
  }
}
