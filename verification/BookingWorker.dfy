/** The booking side of the worker, step by step: every method is tied to the value functions of BookingSpec. */
module BookingWorkers {
  import opened Basics
  import opened Calendar
  import opened Days
  import opened PlannerSpec
  import opened FanOut
  import opened BookingSpec
  import opened BookingChoice
  import opened BookingGroups
  import opened BookingPhase
  import opened BookingSources
  import opened Subscriptions

  class BookingWorker {
    var borrowed: map<Key, ScheduleId>
    var booked: set<ScheduleId>
    var submitted: seq<Slot>
    ghost var heard: set<(Key, Option<seq<Day>>)>
    var site: Site

    constructor (site: Site)
      ensures State() == Desk(map[], {}, [], {}, site)
    {
      borrowed, booked, submitted, heard, this.site := map[], {}, [], {}, site;
    }

    ghost function State(): Desk
      reads this
    {
      Desk(borrowed, booked, submitted, heard, site)
    }

    // ------------------------------------------------------------ the outside world

    method StopIsSet() returns (stop: bool)
      modifies this`site
      ensures (stop, State()) == StopCheck(old(State()))
    {
      stop := site.patience == 0;
      if !stop {
        site := site.(patience := site.patience - 1);
      }
    }

    method SortedByDay(days: seq<Day>) returns (sorted: seq<Day>)
      ensures sorted == SortDays(days) && Sorted(sorted) && multiset(sorted) == multiset(days)
    {
      sorted := [];
      for n := 0 to |days|
        invariant sorted == SortDays(days[..n])
      {
        assert days[..n + 1][..n] == days[..n];
        sorted := InsertDay(sorted, days[n]);
      }
      assert days[..|days|] == days;
      SortDaysSorts(days);
    }

    method GetAvailableDays(k: Key) returns (reply: DaysReply)
      modifies this`site, this`heard
      ensures (reply, State()) == AskDays(old(State()), k)
    {
      if site.days == [] {
        heard := heard + {(k, None)};
        return Answered(None);
      }
      var next := site.days[0];
      site := site.(days := site.days[1..]);
      match next
      case Raised =>
        reply := Raised;
      case Answered(None) =>
        heard := heard + {(k, None)};
        reply := Answered(None);
      case Answered(Some(days)) =>
        var sorted := SortedByDay(days);
        heard := heard + {(k, Some(sorted))};
        reply := Answered(Some(sorted));
    }

    // ------------------------------------------------------------ handing answers out

    /** One result, handed to every schedule id it covers. */
    method HandOut(r: PollResult, calendars: Calendars) returns (after: Calendars)
      modifies this`borrowed
      ensures after == calendars + map k | k in CoveredKeys(r) :: r.days
      ensures borrowed == (old(borrowed) - CoveredKeys(r)) + map k | k in CoveredKeys(r)
              && FromCanary(r, k) :: r.poller.value.scheduleId
    {
      var covers := r.poll.covers;
      after := calendars;
      assert covers[..0] == [] && Keyed([], r.poll.facility) == {};
      for c := 0 to |covers|
        invariant after == Given(calendars, Keyed(covers[..c], r.poll.facility), r.days)
        invariant borrowed == Owed(old(borrowed), Keyed(covers[..c], r.poll.facility), r)
      {
        var k := Key(covers[c], r.poll.facility);
        assert Keyed(covers[..c + 1], r.poll.facility) == Keyed(covers[..c], r.poll.facility) + {k} by {
          assert covers[..c + 1] == covers[..c] + [covers[c]];
        }
        OneMoreKey(calendars, old(borrowed), Keyed(covers[..c], r.poll.facility), r, k);
        hide Keyed, Given, Owed;
        after := after[k := r.days];
        if r.poller.Some? && r.poller.value.canary && r.poller.value.scheduleId != k.scheduleId {
          borrowed := borrowed[k := r.poller.value.scheduleId];
        } else {
          borrowed := borrowed - {k};
        }
      }
      assert covers[..|covers|] == covers;
      assert Keyed(covers, r.poll.facility) == CoveredKeys(r);
    }

    method FanOut(results: seq<PollResult>) returns (calendars: Calendars)
      modifies this`borrowed
      ensures calendars == FannedCalendars(results)
      ensures borrowed == FannedBorrowed(old(borrowed), results)
    {
      hide CoveredKeys, FromCanary;
      calendars := map[];
      for n := 0 to |results|
        invariant calendars == FannedCalendars(results[..n])
        invariant borrowed == FannedBorrowed(old(borrowed), results[..n])
      {
        assert results[..n + 1][..n] == results[..n];
        calendars := HandOut(results[n], calendars);
      }
      assert results[..|results|] == results;
    }

    method ConfirmDays(k: Key, days: Option<seq<Day>>) returns (reply: DaysReply)
      modifies this`borrowed, this`site, this`heard
      ensures (reply, State()) == Confirm(old(State()), k, days)
    {
      if k !in borrowed {
        return Answered(days);
      }
      borrowed := borrowed - {k};
      reply := GetAvailableDays(k);
    }

    // ------------------------------------------------------------ submitting

    method AttemptBooking(slot: Slot, schedule: Option<Schedule>)
      modifies this`submitted, this`booked, this`site
      ensures State() == Attempt(old(State()), slot, schedule)
    {
      var (canBook, ceiling) := BookingCeiling(schedule);
      if !canBook || (ceiling.Some? && slot.day >= ceiling.value) {
        return;
      }
      submitted := submitted + [slot];
      if site.bookings == [] {
        return;
      }
      var ok := site.bookings[0];
      site := site.(bookings := site.bookings[1..]);
      if ok {
        booked := booked + {slot.scheduleId};
      }
    }

    // ------------------------------------------------------------ what to ask for

    /** Every calendar asked for on behalf of one account. */
    method SubscriptionsOf(account: Account) returns (subs: seq<Subscription>)
      ensures forall k :: (exists s :: s in subs && s.KeyOf() == k) <==> Asked(booked, account, k)
      ensures forall s :: s in subs ==> Declares(account, s)
    {
      hide AskedAlone, AskedTogether, ByIdOf, Declares;
      var alone := ApplicationsOf(account);
      var together := GroupsOf(account);
      subs := alone + together;
      KeysOfConcat(alone, together);
      forall k
        ensures (exists s :: s in subs && s.KeyOf() == k) <==> Asked(booked, account, k)
      {
        AskedEitherWay(booked, account);
        assert k in KeysOf(subs) <==> exists s :: s in subs && s.KeyOf() == k;
      }
    }

    /** Each application still to be booked, at each of its consulates. */
    method ApplicationsOf(account: Account) returns (subs: seq<Subscription>)
      ensures forall k ::
                k in KeysOf(subs) <==>
                exists i :: 0 <= i < |account.applications| && AskedAlone(booked, account.applications[i], k)
      ensures forall s :: s in subs ==> Declares(account, s)
    {
      var apps := account.applications;
      subs := [];
      for n := 0 to |apps|
        invariant forall k :: k in KeysOf(subs) <==> exists i :: 0 <= i < n && AskedAlone(booked, apps[i], k)
        invariant forall s :: s in subs ==> Declares(account, s)
      {
        if apps[n].0.scheduleId !in booked {
          var more := PerConsulate(account.id, apps[n].0.scheduleId, apps[n].0.target.consulates, apps[n].0.visaType);
          assert apps[n] in apps;
          KeysOfConcat(subs, more);
          subs := subs + more;
        }
      }
    }

    /** Each group of which two known members are still to be booked, at each of its consulates. */
    method GroupsOf(account: Account) returns (subs: seq<Subscription>)
      ensures forall k ::
                k in KeysOf(subs) <==>
                exists i :: 0 <= i < |account.groups|
                            && AskedTogether(booked, ByIdOf(account.applications), account.groups[i], k)
      ensures forall s :: s in subs ==> Declares(account, s)
    {
      hide ByIdOf, Listed, Declares, GroupKeys, KeysOf;
      var byId := ByIdOf(account.applications);
      subs := [];
      assert KeysOf([]) == {} by {
        NoKeys();
      }
      for n := 0 to |account.groups|
        invariant forall k ::
                    k in KeysOf(subs) <==> exists i :: 0 <= i < n && AskedTogether(booked, byId, account.groups[i], k)
        invariant forall s :: s in subs ==> Declares(account, s)
      {
        var group := account.groups[n];
        var members := Listed(booked, byId, group.members);
        if |members| >= 2 {
          var more := PerMember(account, members, group.consulates) by {
            ListedAre(booked, byId, group.members);
          }
          KeysOfConcat(subs, more);
          subs := subs + more;
        }
      }
    }

    method PerMember(account: Account, members: seq<ScheduleId>, consulates: seq<FacilityId>)
      returns (subs: seq<Subscription>)
      requires forall m :: m in members ==> m in ByIdOf(account.applications)
      ensures KeysOf(subs) == GroupKeys(members, consulates)
      ensures forall s :: s in subs ==> Declares(account, s)
    {
      subs := [];
      for i := 0 to |members|
        invariant KeysOf(subs) == GroupKeys(members[..i], consulates)
        invariant forall s :: s in subs ==> Declares(account, s)
      {
        var more := PerConsulate(account.id, members[i], consulates, VisaOf(account.applications, members[i]));
        assert members[i] in members;
        VisaIsDeclared(account.applications, members[i]);
        KeysOfConcat(subs, more);
        assert members[..i + 1] == members[..i] + [members[i]];
        subs := subs + more;
      }
      assert members[..|members|] == members;
    }

    method PerConsulate(account: AccountId, scheduleId: ScheduleId, consulates: seq<FacilityId>,
                        visaType: Option<string>)
      returns (subs: seq<Subscription>)
      ensures KeysOf(subs) == AppKeys(scheduleId, consulates)
      ensures forall s :: s in subs ==> s.account == account && s.scheduleId == scheduleId && s.visaType == visaType
    {
      subs := [];
      for n := 0 to |consulates|
        invariant KeysOf(subs) == AppKeys(scheduleId, consulates[..n])
        invariant forall s :: s in subs ==> s.account == account && s.scheduleId == scheduleId && s.visaType == visaType
      {
        var one := [Subscription(account, scheduleId, consulates[n], visaType)];
        KeysOfConcat(subs, one);
        assert KeysOf(one) == {Key(scheduleId, consulates[n])} by {
          assert one[0] in one;
        }
        assert consulates[..n + 1] == consulates[..n] + [consulates[n]];
        assert AppKeys(scheduleId, consulates[..n + 1])
                 == AppKeys(scheduleId, consulates[..n]) + {Key(scheduleId, consulates[n])};
        subs := subs + one;
      }
      assert consulates[..|consulates|] == consulates;
    }

    // ------------------------------------------------------------ one application

    method ReadCalendar(app: Application, schedule: Option<Schedule>, calendars: Calendars, fid: FacilityId)
      returns (reply: DaysReply)
      modifies this`borrowed, this`site, this`heard
      ensures (reply, State()) == ReadAt(old(State()), app, schedule, calendars, fid)
    {
      var k := Key(app.scheduleId, fid);
      if k in calendars {
        reply := Answered(calendars[k]);
      } else {
        reply := GetAvailableDays(k);
      }
      if reply.Answered? && Hit(app.target, schedule, reply.days) {
        reply := ConfirmDays(k, reply.days);
      }
    }

    /** One consulate of an application: the calendar to act on there, if it came to reading one. */
    method VisitConsulate(app: Application, schedule: Option<Schedule>, calendars: Calendars, i: nat,
                          ghost used: seq<Option<seq<Day>>>)
      returns (days: Option<seq<Day>>, status: Status, ghost now: seq<Option<seq<Day>>>)
      requires i < |app.target.consulates|
      modifies this`borrowed, this`site, this`heard
      ensures Visit(now, State(), status) == VisitOne(Visit(used, old(State()), Going), app, schedule, calendars, i)
      ensures status.Going? ==> now == used + [days]
    {
      hide ReadAt;
      days, now := None, used;
      var stop := StopIsSet();
      if stop {
        return days, Stopped, used;
      }
      var fid := app.target.consulates[i];
      var reply := ReadCalendar(app, schedule, calendars, fid);
      if reply.Raised? {
        return days, Crashed, used;
      }
      days, now, status := reply.days, used + [reply.days], Going;
      if i < |app.target.consulates| - 1 && Key(app.scheduleId, fid) !in calendars {
        var late := StopIsSet();
        if late {
          status := Stopped;
        }
      }
    }

    method SweepApplication(app: Application, schedule: Option<Schedule>, calendars: Calendars) returns (status: Status)
      modifies this
      ensures (State(), status) == AppSwept(old(State()), app, schedule, calendars)
    {
      hide VisitOne, AcceptableDays, Pick, Attempt;
      ghost var start := State();
      var consulates := app.target.consulates;
      var candidates: seq<Slot> := [];
      ghost var used: seq<Option<seq<Day>>> := [];
      for i := 0 to |consulates|
        invariant VisitTo(start, app, schedule, calendars, i) == Visit(used, State(), Going)
        invariant |used| == i && candidates == Candidates(app, schedule, used)
      {
        ghost var before := used;
        var days, ended;
        days, ended, used := VisitConsulate(app, schedule, calendars, i, used);
        assert VisitTo(start, app, schedule, calendars, i + 1) == Visit(used, State(), ended);
        if !ended.Going? {
          CutShort(start, app, schedule, calendars, i + 1, |consulates|);
          return ended;
        }
        assert used[..i] == before && used[i] == days;
        if days.Some? {
          var acceptable := AcceptableDays(app.target, schedule, days.value);
          if acceptable != [] {
            candidates := candidates + [Slot(app.scheduleId, consulates[i], acceptable[0], None)];
          }
        }
      }
      if candidates != [] {
        AttemptBooking(Pick(app.target, candidates), schedule);
      }
      status := Going;
    }

    // ------------------------------------------------------------ one group

    method GroupLimits(byId: ById, members: seq<ScheduleId>) returns (blocked: bool, ceiling: Option<Day>)
      ensures blocked == Blocked(byId, members) && ceiling == GroupCeiling(byId, members)
    {
      blocked, ceiling := false, None;
      for n := 0 to |members|
        invariant blocked <==> exists i :: 0 <= i < n && !BookingCeiling(ScheduleOf(byId, members[i])).0
        invariant ceiling == GroupCeiling(byId, members[..n])
      {
        assert members[..n + 1][..n] == members[..n];
        var (ok, mine) := BookingCeiling(ScheduleOf(byId, members[n]));
        if !ok {
          blocked := true;
        } else if mine.Some? {
          ceiling := if ceiling.None? || mine.value < ceiling.value then mine else ceiling;
        }
      }
      assert members[..|members|] == members;
    }

    /** A fetch of one group's missing calendars, in which no canary takes part. */
    method FetchCalendars(fid: FacilityId, members: seq<ScheduleId>) returns (calendars: Option<Calendars>)
      modifies this`borrowed, this`heard, this`site
      ensures old(site.fetches) == [] ==> calendars == None && State() == old(State())
      ensures old(site.fetches) != [] ==>
                var rest := old(State()).(site := old(site).(fetches := old(site.fetches)[1..]));
                match old(site.fetches)[0]
                case FetchRaised => calendars == None && State() == rest
                case Fetched(answers) =>
                  var fetched := Wanted(answers, fid, members);
                  calendars == Some(fetched)
                  && State() == rest.(borrowed := rest.borrowed - fetched.Keys,
                                      heard := rest.heard + set k | k in fetched :: (k, fetched[k]))
    {
      if site.fetches == [] {
        return None;
      }
      var next := site.fetches[0];
      site := site.(fetches := site.fetches[1..]);
      if next.FetchRaised? {
        return None;
      }
      var fetched := Wanted(next.answers, fid, members);
      borrowed := borrowed - fetched.Keys;
      heard := heard + set k | k in fetched :: (k, fetched[k]);
      calendars := Some(fetched);
    }

    method CalendarsFor(fid: FacilityId, members: seq<ScheduleId>, calendars: Calendars)
      returns (mine: Option<Calendars>)
      modifies this`borrowed, this`heard, this`site
      ensures (mine, State()) == GroupCalendars(old(State()), fid, members, calendars)
    {
      if exists m :: m in members && Key(m, fid) !in calendars {
        mine := FetchCalendars(fid, members);
      } else {
        mine := Some(calendars);
      }
    }

    method ReadShared(fid: FacilityId, members: seq<ScheduleId>, calendars: Calendars)
      returns (perMember: seq<seq<Day>>, status: Status)
      modifies this`site
      ensures Reading(perMember, State(), status) == SharedDays(old(State()), fid, members, calendars, |members|)
    {
      ghost var d0 := State();
      perMember, status := [], Going;
      for n := 0 to |members|
        invariant Reading(perMember, State(), status) == SharedDays(d0, fid, members, calendars, n) && !status.Stopped?
      {
        var stop := StopIsSet();
        if stop {
          SharedStaysStopped(d0, fid, members, calendars, n + 1, |members|);
          return perMember, Stopped;
        }
        var k := Key(members[n], fid);
        if k !in calendars || calendars[k].None? {
          perMember, status := perMember + [[]], Missing;
        } else {
          perMember := perMember + [calendars[k].value];
        }
      }
    }

    /** The members' own or shared calendars for one check. */
    method ReadGroup(group: Group, byId: ById, fid: FacilityId, members: seq<ScheduleId>, calendars: Calendars)
      returns (perMember: seq<seq<Day>>, status: Status)
      modifies this`borrowed, this`heard, this`site
      ensures Reading(perMember, State(), status) == GroupRead(old(State()), group, byId, fid, members, calendars)
    {
      hide CommonDays, BookingCeiling, ScheduleOf, GroupCalendars, SharedDays, ConfirmAll;
      var mine := CalendarsFor(fid, members, calendars);
      if mine.None? {
        return [], Crashed;
      }
      perMember, status := ReadShared(fid, members, mine.value);
      if !status.Going? {
        return;
      }
      var blocked, ceiling := GroupLimits(byId, members);
      var common := CommonDays(group.target, blocked, ceiling, perMember);
      if common != [] && exists m :: m in members && Key(m, fid) in borrowed {
        perMember, status := ConfirmGroup(fid, members, perMember);
      }
    }

    /** A joint hit built from borrowed answers: those members' own calendars are read. */
    method ConfirmGroup(fid: FacilityId, members: seq<ScheduleId>, shared: seq<seq<Day>>)
      returns (perMember: seq<seq<Day>>, status: Status)
      requires |shared| == |members|
      modifies this`borrowed, this`heard, this`site
      ensures Reading(perMember, State(), status) == ConfirmAll(old(State()), fid, members, shared, |members|)
    {
      hide AskDays;
      ghost var d0 := State();
      perMember, status := [], Going;
      for n := 0 to |members|
        invariant Reading(perMember, State(), Going) == ConfirmAll(d0, fid, members, shared, n)
      {
        var own := ConfirmDays(Key(members[n], fid), Some(shared[n]));
        if own.Raised? || own.days.None? {
          status := if own.Raised? then Crashed else Missing;
          ConfirmStaysCut(d0, fid, members, shared, n + 1, |members|);
          return;
        }
        perMember := perMember + [own.days.value];
      }
    }

    method AskGroupTimes(members: seq<ScheduleId>) returns (times: seq<seq<Time>>, status: Status)
      modifies this`site
      ensures TimesRead(times, State(), status) == AskTimes(old(State()), members, |members|)
    {
      ghost var d0 := State();
      times, status := [], Going;
      for n := 0 to |members|
        invariant TimesRead(times, State(), Going) == AskTimes(d0, members, n)
      {
        var stop := StopIsSet();
        if stop {
          TimesStayCut(d0, members, n + 1, |members|);
          return times, Stopped;
        }
        if site.times == [] {
          times := times + [[]];
        } else {
          var next := site.times[0];
          site := site.(times := site.times[1..]);
          if next.TimesRaised? {
            TimesStayCut(d0, members, n + 1, |members|);
            return times, Crashed;
          }
          times := times + [if next.times.Some? then next.times.value else []];
        }
      }
    }

    /** One consulate of a group: read, intersect, check the room, book everyone on the same day. */
    method SweepGroupFacility(group: Group, byId: ById, fid: FacilityId, members: seq<ScheduleId>, calendars: Calendars)
      returns (status: Status)
      modifies this
      ensures (State(), status) == GroupSwept(old(State()), group, byId, fid, members, calendars)
    {
      hide GroupRead, CommonDays, AskTimes, Attempt, BookingCeiling, ScheduleOf;
      var perMember, ended := ReadGroup(group, byId, fid, members, calendars);
      if !ended.Going? {
        return if ended.Missing? then Going else ended;
      }
      var blocked, ceiling := GroupLimits(byId, members);
      var common := CommonDays(group.target, blocked, ceiling, perMember);
      assert common == Joint(group, byId, members, perMember);
      if exists m :: m in members && m !in byId {
        return Crashed;
      }
      if common == [] {
        return Going;
      }
      var times, asked := AskGroupTimes(members);
      if !asked.Going? {
        return asked;
      }
      var total := 0;
      for n := 0 to |times|
        invariant total == Total(times[..n])
      {
        assert times[..n + 1][..n] == times[..n];
        total := total + |times[n]|;
      }
      assert times[..|times|] == times;
      if total < group.minSlots || exists t :: t in times && t == [] {
        return Going;
      }
      ghost var d0 := State();
      for n := 0 to |members|
        invariant State() == AttemptAll(d0, fid, common[0], byId, members, times, n)
      {
        assert times[n] in times;
        AttemptBooking(MemberSlot(fid, common[0], members, times, n), ScheduleOf(byId, members[n]));
      }
      status := Going;
    }

    method SweepGroup(group: Group, byId: ById, calendars: Calendars) returns (status: Status)
      modifies this
      ensures (State(), status) == GroupDone(old(State()), group, byId, calendars)
    {
      hide GroupSwept;
      ghost var d0 := State();
      var members := Unbooked(booked, group.members);
      if |members| < 2 {
        return Going;
      }
      for n := 0 to |group.consulates|
        invariant (State(), Going) == GroupTo(d0, group, byId, members, calendars, n)
      {
        var stop := StopIsSet();
        if stop {
          GroupStaysCut(d0, group, byId, members, calendars, n + 1, |group.consulates|);
          return Stopped;
        }
        var ended := SweepGroupFacility(group, byId, group.consulates[n], members, calendars);
        if ended.Crashed? {
          GroupStaysCut(d0, group, byId, members, calendars, n + 1, |group.consulates|);
          return Crashed;
        }
      }
      status := Going;
    }

    // ------------------------------------------------------------ one account

    method ProcessAccount(account: Account, calendars: Calendars) returns (status: Status)
      requires SortedCalendars(calendars)
      modifies this
      ensures (State(), status) == Processed(old(State()), account, calendars)
      ensures Sound(account, |old(submitted)|, State(), calendars, old(borrowed))
    {
      hide GroupDone, AppSwept, Sound;
      ghost var d0 := State();
      EverySubmittedSlotIsSound(account, d0, calendars);
      var byId := ByIdOf(account.applications);
      for n := 0 to |account.groups|
        invariant (State(), Going) == GroupsTo(d0, account, calendars, n)
      {
        var stop := StopIsSet();
        if stop {
          GroupsStayCut(d0, account, calendars, n + 1, |account.groups|);
          return Stopped;
        }
        var ended := SweepGroup(account.groups[n], byId, calendars);
        if ended.Crashed? {
          GroupsStayCut(d0, account, calendars, n + 1, |account.groups|);
          return Crashed;
        }
      }
      ghost var d1 := State();
      var pending := Pending(booked, account.applications);
      for n := 0 to |pending|
        invariant (State(), Going) == AppsTo(d1, pending, calendars, n)
      {
        var stop := StopIsSet();
        if stop {
          AppsStayCut(d1, pending, calendars, n + 1, |pending|);
          return Stopped;
        }
        var ended := SweepApplication(pending[n].0, Some(pending[n].1), calendars);
        if ended.Crashed? {
          AppsStayCut(d1, pending, calendars, n + 1, |pending|);
          return Crashed;
        }
      }
      status := Going;
    }
  }

  function Keyed(covers: seq<ScheduleId>, fid: FacilityId): set<Key> {
    set c | c in covers :: Key(c, fid)
  }

  function Given(calendars: Calendars, keys: set<Key>, days: Option<seq<Day>>): Calendars {
    calendars + map k | k in keys :: days
  }

  function Owed(borrowed: map<Key, ScheduleId>, keys: set<Key>, r: PollResult): map<Key, ScheduleId> {
    (borrowed - keys) + map k | k in keys && FromCanary(r, k) :: r.poller.value.scheduleId
  }

  lemma OneMoreKey(calendars: Calendars, borrowed: map<Key, ScheduleId>, keys: set<Key>, r: PollResult, k: Key)
    ensures Given(calendars, keys + {k}, r.days) == Given(calendars, keys, r.days)[k := r.days]
    ensures Owed(borrowed, keys + {k}, r)
            == if FromCanary(r, k) then Owed(borrowed, keys, r)[k := r.poller.value.scheduleId]
            else Owed(borrowed, keys, r) - {k}
  {
    OneMoreOwed(borrowed, keys, r, k);
  }

  lemma OneMoreOwed(borrowed: map<Key, ScheduleId>, keys: set<Key>, r: PollResult, k: Key)
    ensures Owed(borrowed, keys + {k}, r)
            == if FromCanary(r, k) then Owed(borrowed, keys, r)[k := r.poller.value.scheduleId]
            else Owed(borrowed, keys, r) - {k}
  {
    var before, after := Owed(borrowed, keys, r), Owed(borrowed, keys + {k}, r);
    if FromCanary(r, k) {
      assert after == before[k := r.poller.value.scheduleId];
    } else {
      assert after == before - {k};
    }
  }

  /** A visit that was cut short stays as it is. */
  lemma {:induction false} CutShort(d: Desk, app: Application, schedule: Option<Schedule>, calendars: Calendars, m: nat,
                                    n: nat)
    requires m <= n <= |app.target.consulates| && !VisitTo(d, app, schedule, calendars, m).status.Going?
    ensures VisitTo(d, app, schedule, calendars, n) == VisitTo(d, app, schedule, calendars, m)
  {
    if m < n {
      CutShort(d, app, schedule, calendars, m, n - 1);
    }
  }

  lemma {:induction false} SharedStaysStopped(d: Desk, fid: FacilityId, members: seq<ScheduleId>, calendars: Calendars,
                                              m: nat, n: nat)
    requires m <= n <= |members| && SharedDays(d, fid, members, calendars, m).status.Stopped?
    ensures SharedDays(d, fid, members, calendars, n) == SharedDays(d, fid, members, calendars, m)
  {
    if m < n {
      SharedStaysStopped(d, fid, members, calendars, m, n - 1);
    }
  }

  lemma {:induction false} ConfirmStaysCut(d: Desk, fid: FacilityId, members: seq<ScheduleId>, shared: seq<seq<Day>>,
                                           m: nat, n: nat)
    requires m <= n <= |members| == |shared| && !ConfirmAll(d, fid, members, shared, m).status.Going?
    ensures ConfirmAll(d, fid, members, shared, n) == ConfirmAll(d, fid, members, shared, m)
  {
    if m < n {
      ConfirmStaysCut(d, fid, members, shared, m, n - 1);
    }
  }

  lemma {:induction false} TimesStayCut(d: Desk, members: seq<ScheduleId>, m: nat, n: nat)
    requires m <= n <= |members| && !AskTimes(d, members, m).status.Going?
    ensures AskTimes(d, members, n) == AskTimes(d, members, m)
  {
    if m < n {
      TimesStayCut(d, members, m, n - 1);
    }
  }

  lemma {:induction false} GroupStaysCut(d: Desk, group: Group, byId: ById, members: seq<ScheduleId>,
                                         calendars: Calendars, m: nat, n: nat)
    requires m <= n <= |group.consulates| && !GroupTo(d, group, byId, members, calendars, m).1.Going?
    ensures GroupTo(d, group, byId, members, calendars, n) == GroupTo(d, group, byId, members, calendars, m)
  {
    if m < n {
      GroupStaysCut(d, group, byId, members, calendars, m, n - 1);
    }
  }

  lemma {:induction false} GroupsStayCut(d: Desk, account: Account, calendars: Calendars, m: nat, n: nat)
    requires m <= n <= |account.groups| && !GroupsTo(d, account, calendars, m).1.Going?
    ensures GroupsTo(d, account, calendars, n) == GroupsTo(d, account, calendars, m)
  {
    if m < n {
      GroupsStayCut(d, account, calendars, m, n - 1);
    }
  }

  lemma {:induction false} AppsStayCut(d: Desk, pending: seq<(Application, Schedule)>, calendars: Calendars, m: nat,
                                       n: nat)
    requires m <= n <= |pending| && !AppsTo(d, pending, calendars, m).1.Going?
    ensures AppsTo(d, pending, calendars, n) == AppsTo(d, pending, calendars, m)
  {
    if m < n {
      AppsStayCut(d, pending, calendars, m, n - 1);
    }
  }
}
