/** Everything one account's booking phase submits, whatever the site answers and whenever it is stopped. */
module BookingPhase {
  import opened Basics
  import opened Calendar
  import opened PlannerSpec
  import opened FanOut
  import opened BookingSpec
  import opened BookingChoice
  import opened BookingGroups
  import opened BookingSources

  // ---------------------------------------------------------------- what may be submitted

  ghost predicate WantedAlone(a: (Application, Schedule), slot: Slot) {
    slot.facility in a.0.target.consulates && InWindow(a.0.target, slot.day)
  }

  ghost predicate WantedTogether(g: Group, slot: Slot) {
    slot.scheduleId in g.members && slot.facility in g.consulates && InWindow(g.target, slot.day)
  }

  /** The slot is for one of the account's applications, never moves its appointment later, and lies in the window and
      at a consulate of that application or of a group it belongs to. */
  ghost predicate Allowed(account: Account, slot: Slot) {
    exists a :: a in account.applications && a.0.scheduleId == slot.scheduleId && MayMoveTo(Some(a.1), slot.day)
                && (WantedAlone(a, slot) || exists g :: g in account.groups && WantedTogether(g, slot))
  }

  /** Every slot submitted since the log held `from` entries is allowed, and rests on a canary-free calendar. */
  ghost predicate Sound(account: Account, from: nat, d: Desk, calendars: Calendars, borrowed: map<Key, ScheduleId>) {
    from <= |d.submitted|
    && forall n :: from <= n < |d.submitted| ==>
                     Allowed(account, d.submitted[n])
                     && (ReadOnce(account) ==> Vouched(d.submitted[n], d.heard, calendars, borrowed))
  }

  lemma SoundExtends(account: Account, from: nat, d: Desk, e: Desk, calendars: Calendars,
                     borrowed: map<Key, ScheduleId>)
    requires Sound(account, from, d, calendars, borrowed)
    requires d.submitted <= e.submitted && (ReadOnce(account) ==> d.heard <= e.heard)
    requires forall n :: |d.submitted| <= n < |e.submitted| ==>
                           Allowed(account, e.submitted[n])
                           && (ReadOnce(account) ==> Vouched(e.submitted[n], e.heard, calendars, borrowed))
    ensures Sound(account, from, e, calendars, borrowed)
  {
    hide Allowed, ReadOnce;
    forall n | from <= n < |e.submitted|
      ensures Allowed(account, e.submitted[n])
              && (ReadOnce(account) ==> Vouched(e.submitted[n], e.heard, calendars, borrowed))
    {
      if n < |d.submitted| {
        assert e.submitted[n] == d.submitted[n];
      }
    }
  }

  // ---------------------------------------------------------------- one step of the phase

  lemma AppStep(account: Account, from: nat, d: Desk, a: (Application, Schedule), calendars: Calendars,
                borrowed: map<Key, ScheduleId>)
    requires SortedCalendars(calendars) && Sound(account, from, d, calendars, borrowed) && a in account.applications
    requires ReadOnce(account) ==> Unspent(borrowed, d, AppKeys(a.0.scheduleId, a.0.target.consulates))
    ensures var after := AppSwept(d, a.0, Some(a.1), calendars).0;
            Sound(account, from, after, calendars, borrowed)
            && (ReadOnce(account) ==> Spends(d, after, AppKeys(a.0.scheduleId, a.0.target.consulates)))
  {
    var after := AppSwept(d, a.0, Some(a.1), calendars).0;
    ChosenSlotIsTheOptimum(d, a.0, Some(a.1), calendars);
    assert ReadOnce(account) ==> NoDup(a.0.target.consulates);
    hide ReadOnce, AppSwept, VisitTo, HasBookable, SortedCalendars, InWindow, MayMoveTo, Vouched, Unspent, Spends;
    var used := VisitTo(d, a.0, Some(a.1), calendars, |a.0.target.consulates|).used;
    if after.submitted != d.submitted {
      var slot :| after.submitted == d.submitted + [slot] && Optimum(a.0, Some(a.1), used, slot);
      assert WantedAlone(a, slot) && MayMoveTo(Some(a.1), slot.day);
      assert Allowed(account, slot);
    }
    hide Allowed, Optimum;
    if ReadOnce(account) {
      AppIsVouched(d, a.0, Some(a.1), calendars, borrowed);
      assert Spends(d, after, AppKeys(a.0.scheduleId, a.0.target.consulates));
      SpendsRemembers(d, after, AppKeys(a.0.scheduleId, a.0.target.consulates));
    }
    SoundExtends(account, from, d, after, calendars, borrowed);
  }

  lemma SpendsRemembers(d: Desk, e: Desk, keys: set<Key>)
    requires Spends(d, e, keys)
    ensures d.heard <= e.heard
  {
  }

  lemma {:induction false} KnownById(applications: seq<(Application, Schedule)>, m: ScheduleId)
    requires m in ByIdOf(applications)
    ensures exists a :: a in applications && a.0.scheduleId == m && a.1 == ByIdOf(applications)[m]
  {
    var front, last := applications[..|applications| - 1], applications[|applications| - 1];
    assert last in applications;
    if last.0.scheduleId != m {
      KnownById(front, m);
      var a :| a in front && a.0.scheduleId == m && a.1 == ByIdOf(front)[m];
      assert a in applications;
    }
  }

  lemma GroupIsAllowed(account: Account, group: Group, fid: FacilityId, members: seq<ScheduleId>,
                       perMember: seq<seq<Day>>, day: Day, slot: Slot)
    requires group in account.groups && fid in group.consulates && slot.scheduleId in members
    requires forall m :: m in members ==> m in group.members && m in ByIdOf(account.applications)
    requires JointDay(group, ByIdOf(account.applications), members, perMember, day)
    requires slot.facility == fid && slot.day == day
    ensures Allowed(account, slot)
  {
    hide InWindow, MayMoveTo;
    var m := slot.scheduleId;
    KnownById(account.applications, m);
    var a :| a in account.applications && a.0.scheduleId == m && a.1 == ByIdOf(account.applications)[m];
    assert MayMoveTo(ScheduleOf(ByIdOf(account.applications), m), day);
    assert WantedTogether(group, slot);
  }

  lemma TogetherIsAllowed(account: Account, group: Group, fid: FacilityId, members: seq<ScheduleId>, before: seq<Slot>,
                          after: seq<Slot>,
                          perMember: seq<seq<Day>>, times: seq<seq<Time>>)
    requires group in account.groups && fid in group.consulates
    requires forall m :: m in members ==> m in group.members && m in ByIdOf(account.applications)
    requires BookedTogether(before, after, group, ByIdOf(account.applications), fid, members, perMember, times)
    ensures before <= after && forall n :: |before| <= n < |after| ==> Allowed(account, after[n])
  {
    var day, slots :| EarliestJointDay(group, ByIdOf(account.applications), members, perMember, day)
                      && OneDayForAll(slots, fid, day, members, times) && after == before + slots;
    assert JointDay(group, ByIdOf(account.applications), members, perMember, day);
    hide Allowed, JointDay, EarliestJointDay, ByIdOf;
    forall n | |before| <= n < |after|
      ensures Allowed(account, after[n])
    {
      var slot := slots[n - |before|];
      assert after[n] == slot;
      assert members[n - |before|] in members;
      GroupIsAllowed(account, group, fid, members, perMember, day, slot);
    }
  }

  lemma GroupSubmitsAllowed(account: Account, d: Desk, group: Group, fid: FacilityId, members: seq<ScheduleId>,
                            calendars: Calendars)
    requires group in account.groups && fid in group.consulates
    requires members != [] && forall m :: m in members ==> m in group.members
    ensures var after := GroupSwept(d, group, ByIdOf(account.applications), fid, members, calendars).0;
            d.submitted <= after.submitted
            && forall n :: |d.submitted| <= n < |after.submitted| ==> Allowed(account, after.submitted[n])
  {
    var byId := ByIdOf(account.applications);
    var after := GroupSwept(d, group, byId, fid, members, calendars).0;
    var chosen := GroupRead(d, group, byId, fid, members, calendars);
    GroupBooksTheEarliestJointDay(d, group, byId, fid, members, calendars);
    hide GroupSwept, GroupRead, Allowed, JointDay, ByIdOf, BookedTogether, AskTimes;
    if GroupReady(chosen, group, byId, members) {
      hide GroupReady;
      TogetherIsAllowed(account, group, fid, members, d.submitted, after.submitted, chosen.days,
                        AskTimes(chosen.desk, members, |members|).times) by {
        assert forall m :: m in members ==> m in byId by {
          KnownWhenReady(chosen, group, byId, members);
        }
      }
    }
  }

  lemma KnownWhenReady(chosen: Reading, group: Group, byId: ById, members: seq<ScheduleId>)
    requires GroupReady(chosen, group, byId, members)
    ensures forall m :: m in members ==> m in byId
  {
  }

  lemma GroupStep(account: Account, from: nat, d: Desk, group: Group, fid: FacilityId, members: seq<ScheduleId>,
                  calendars: Calendars,
                  borrowed: map<Key, ScheduleId>)
    requires Sound(account, from, d, calendars, borrowed) && group in account.groups && fid in group.consulates
    requires members != [] && forall m :: m in members ==> m in group.members
    requires ReadOnce(account) ==> NoDup(members) && Unspent(borrowed, d, GroupKeys(members, [fid]))
    ensures var after := GroupSwept(d, group, ByIdOf(account.applications), fid, members, calendars).0;
            Sound(account, from, after, calendars, borrowed)
            && (ReadOnce(account) ==> Spends(d, after, GroupKeys(members, [fid])))
  {
    hide ReadOnce, GroupSwept, Vouched, Unspent, Spends, Allowed, ByIdOf, Sound;
    var byId := ByIdOf(account.applications);
    var after := GroupSwept(d, group, byId, fid, members, calendars).0;
    GroupSubmitsAllowed(account, d, group, fid, members, calendars);
    if ReadOnce(account) {
      GroupIsVouched(d, group, byId, fid, members, calendars, borrowed);
      SpendsRemembers(d, after, GroupKeys(members, [fid]));
    }
    SoundExtends(account, from, d, after, calendars, borrowed);
  }

  // ---------------------------------------------------------------- the loops

  lemma {:induction false} UnbookedAreMembers(booked: set<ScheduleId>, members: seq<ScheduleId>)
    ensures forall m :: m in Unbooked(booked, members) <==> m in members && m !in booked
    ensures NoDup(members) ==> NoDup(Unbooked(booked, members))
  {
    if members != [] {
      var front := members[..|members| - 1];
      UnbookedAreMembers(booked, front);
      assert members == front + [members[|members| - 1]];
      assert NoDup(members) ==> NoDup(front);
    }
  }

  lemma {:induction false} GroupToStep(account: Account, from: nat, d: Desk, group: Group, members: seq<ScheduleId>,
                                       calendars: Calendars,
                                       borrowed: map<Key, ScheduleId>, n: nat)
    requires n <= |group.consulates|
    requires Sound(account, from, d, calendars, borrowed) && group in account.groups
    requires members != [] && forall m :: m in members ==> m in group.members
    requires ReadOnce(account) ==> NoDup(members) && Unspent(borrowed, d, GroupKeys(group.members, group.consulates))
    ensures var after := GroupTo(d, group, ByIdOf(account.applications), members, calendars, n).0;
            Sound(account, from, after, calendars, borrowed)
            && (ReadOnce(account) ==> Spends(d, after, GroupKeys(group.members, group.consulates[..n])))
  {
    if n > 0 {
      GroupToStep(account, from, d, group, members, calendars, borrowed, n - 1);
      var (d0, status) := GroupTo(d, group, ByIdOf(account.applications), members, calendars, n - 1);
      var d1 := StopCheck(d0).1;
      var fid := group.consulates[n - 1];
      assert ReadOnce(account) ==> NoDup(group.consulates);
      assert Sound(account, from, d1, calendars, borrowed) by {
        hide Allowed, Vouched, ReadOnce;
      }
      hide GroupSwept, Sound, ReadOnce;
      assert GroupKeys(group.members, group.consulates[..n - 1])
             + GroupKeys(members, [fid]) <= GroupKeys(group.members, group.consulates[..n]);
      if status.Going? && !StopCheck(d0).0 {
        if ReadOnce(account) {
          forall k | k in GroupKeys(members, [fid]) && k in borrowed
            ensures k in d1.borrowed
          {
            assert k in GroupKeys(group.members, group.consulates);
            assert k !in GroupKeys(group.members, group.consulates[..n - 1]);
          }
          assert Unspent(borrowed, d1, GroupKeys(members, [fid]));
        }
        GroupStep(account, from, d1, group, fid, members, calendars, borrowed);
      }
    }
  }

  function AllGroupKeys(groups: seq<Group>): set<Key> {
    set g, k | g in groups && k in GroupKeys(g.members, g.consulates) :: k
  }

  function AllAppKeys(applications: seq<(Application, Schedule)>): set<Key> {
    set a, k | a in applications && k in AppKeys(a.0.scheduleId, a.0.target.consulates) :: k
  }

  lemma {:induction false} GroupsToStep(account: Account, d: Desk, calendars: Calendars, n: nat)
    requires n <= |account.groups|
    ensures var after := GroupsTo(d, account, calendars, n).0;
            Sound(account, |d.submitted|, after, calendars, d.borrowed)
            && (ReadOnce(account) ==> Spends(d, after, AllGroupKeys(account.groups[..n])))
  {
    if n > 0 {
      GroupsToStep(account, d, calendars, n - 1);
      var (d0, status) := GroupsTo(d, account, calendars, n - 1);
      var d1 := StopCheck(d0).1;
      var group := account.groups[n - 1];
      var members := Unbooked(d1.booked, group.members);
      UnbookedAreMembers(d1.booked, group.members);
      assert Sound(account, |d.submitted|, d1, calendars, d.borrowed) by {
        hide Allowed, Vouched, ReadOnce;
      }
      assert account.groups[..n] == account.groups[..n - 1] + [group];
      assert AllGroupKeys(account.groups[..n])
               == AllGroupKeys(account.groups[..n - 1]) + GroupKeys(group.members, group.consulates);
      if ReadOnce(account) {
        forall k | k in GroupKeys(group.members, group.consulates)
          ensures k !in AllGroupKeys(account.groups[..n - 1])
        {
          assert forall i :: 0 <= i < n - 1 ==>
                               GroupKeys(account.groups[i].members,
                                         account.groups[i].consulates) !! GroupKeys(group.members, group.consulates);
        }
        assert Unspent(d.borrowed, d1, GroupKeys(group.members, group.consulates));
      }
      assert ReadOnce(account) ==> NoDup(group.members);
      hide ReadOnce, Sound, GroupTo, AllGroupKeys, GroupKeys;
      if status.Going? && !StopCheck(d0).0 && |members| >= 2 {
        assert group.consulates[..|group.consulates|] == group.consulates;
        GroupToStep(account, |d.submitted|, d1, group, members, calendars, d.borrowed, |group.consulates|);
      }
    }
  }

  lemma {:induction false} PendingAreApplications(booked: set<ScheduleId>, applications: seq<(Application, Schedule)>)
    ensures forall a :: a in Pending(booked, applications) <==> a in applications && a.0.scheduleId !in booked
    ensures EntriesApart(applications) ==> EntriesApart(Pending(booked, applications))
  {
    if applications != [] {
      var front := applications[..|applications| - 1];
      PendingAreApplications(booked, front);
      var last := applications[|applications| - 1];
      assert applications == front + [last];
      if EntriesApart(applications) {
        assert EntriesApart(front);
        var before := Pending(booked, front);
        forall a | a in front
          ensures AppKeys(a.0.scheduleId, a.0.target.consulates) !! AppKeys(last.0.scheduleId, last.0.target.consulates)
        {
          var i :| 0 <= i < |front| && front[i] == a;
          assert applications[i] == a;
        }
        hide AppKeys;
        var all := before + [last];
        forall i, j | 0 <= i < j < |all|
          ensures AppKeys(all[i].0.scheduleId, all[i].0.target.consulates)
                  !! AppKeys(all[j].0.scheduleId, all[j].0.target.consulates)
        {
          assert all[i] == before[i] && before[i] in before;
        }
      }
    }
  }

  lemma SpendsBoth(d: Desk, mid: Desk, e: Desk, first: set<Key>, then_: set<Key>)
    requires Spends(d, mid, first) && Spends(mid, e, then_)
    ensures Spends(d, e, first + then_)
  {
  }

  lemma {:induction false} AppsToStep(account: Account, from: nat, d: Desk, pending: seq<(Application, Schedule)>,
                                      calendars: Calendars,
                                      borrowed: map<Key, ScheduleId>, n: nat)
    requires n <= |pending| && SortedCalendars(calendars) && Sound(account, from, d, calendars, borrowed)
    requires forall a :: a in pending ==> a in account.applications
    requires ReadOnce(account) ==> Unspent(borrowed, d, AllAppKeys(pending))
    requires ReadOnce(account) ==> EntriesApart(pending)
    ensures var after := AppsTo(d, pending, calendars, n).0;
            Sound(account, from, after, calendars, borrowed)
            && (ReadOnce(account) ==> Spends(d, after, AllAppKeys(pending[..n])))
  {
    if n > 0 {
      AppsToStep(account, from, d, pending, calendars, borrowed, n - 1);
      var (d0, status) := AppsTo(d, pending, calendars, n - 1);
      var d1 := StopCheck(d0).1;
      var a := pending[n - 1];
      assert Sound(account, from, d1, calendars, borrowed) by {
        hide Allowed, Vouched, ReadOnce;
      }
      assert pending[..n] == pending[..n - 1] + [a];
      var keys := AppKeys(a.0.scheduleId, a.0.target.consulates);
      assert AllAppKeys(pending[..n]) == AllAppKeys(pending[..n - 1]) + keys;
      hide ReadOnce, Sound, AppSwept;
      if ReadOnce(account) {
        assert forall k :: k in keys ==> k in AllAppKeys(pending) && k !in AllAppKeys(pending[..n - 1]);
        assert Unspent(borrowed, d1, keys);
      }
      hide AllAppKeys, AppKeys, Unspent, Spends, SortedCalendars;
      if status.Going? && !StopCheck(d0).0 {
        AppStep(account, from, d1, a, calendars, borrowed);
        if ReadOnce(account) {
          assert Spends(d, d1, AllAppKeys(pending[..n - 1])) by {
            StopSpendsNothing(d, d0, AllAppKeys(pending[..n - 1]));
          }
          SpendsBoth(d, d1, AppSwept(d1, a.0, Some(a.1), calendars).0, AllAppKeys(pending[..n - 1]), keys);
        }
      } else if ReadOnce(account) {
        SpendsMore(d, d0, AllAppKeys(pending[..n - 1]), keys);
        SpendsMore(d, d1, AllAppKeys(pending[..n - 1]), keys) by {
          StopSpendsNothing(d, d0, AllAppKeys(pending[..n - 1]));
        }
      }
    }
  }

  lemma StopSpendsNothing(d: Desk, e: Desk, keys: set<Key>)
    requires Spends(d, e, keys)
    ensures Spends(d, StopCheck(e).1, keys)
  {
  }

  lemma SpendsMore(d: Desk, e: Desk, keys: set<Key>, more: set<Key>)
    requires Spends(d, e, keys)
    ensures Spends(d, e, keys + more)
  {
  }

  // ---------------------------------------------------------------- the whole phase

  /** Whatever the site answers, whenever the stop flag is raised: every slot submitted in an account's booking phase
      is allowed; and if no calendar is read twice, it rests on a calendar read for the subscriber during the phase
      without a canary, or one that was never borrowed. */
  lemma EverySubmittedSlotIsSound(account: Account, d: Desk, calendars: Calendars)
    requires SortedCalendars(calendars)
    ensures Sound(account, |d.submitted|, Processed(d, account, calendars).0, calendars, d.borrowed)
  {
    GroupsToStep(account, d, calendars, |account.groups|);
    var (d0, status) := GroupsTo(d, account, calendars, |account.groups|);
    assert account.groups[..|account.groups|] == account.groups;
    if status.Going? {
      var pending := Pending(d0.booked, account.applications);
      PendingAreApplications(d0.booked, account.applications);
      if ReadOnce(account) {
        forall k | k in AllAppKeys(pending)
          ensures k !in AllGroupKeys(account.groups)
        {
        }
        assert Unspent(d.borrowed, d0, AllAppKeys(pending));
      }
      hide Sound, AllAppKeys, AllGroupKeys;
      AppsToStep(account, |d.submitted|, d0, pending, calendars, d.borrowed, |pending|);
    }
  }

  /** Someone other than a foreign canary gave these days for `k` this sweep. */
  ghost predicate AnsweredWithoutCanary(results: seq<PollResult>, k: Key, days: seq<Day>) {
    exists r :: r in results && Covers(r.poll, k) && r.days == Some(days) && r.poller.Some? && !FromCanary(r, k)
  }

  /** For the account's applications nothing has been read, and nothing taken off `borrowed`, since the sweep's results
      were fanned out. */
  ghost predicate Unread(account: Account, d: Desk, borrowed: map<Key, ScheduleId>) {
    && (forall a, k: Key ::
          a in account.applications && a.0.scheduleId == k.scheduleId && k in borrowed ==> k in d.borrowed)
    && (forall a, x :: a in account.applications && x in d.heard ==> x.0.scheduleId != a.0.scheduleId)
  }

  /** The slot's day is on a calendar of the subscriber that was among those `heard`, or was given by someone other
      than a foreign canary. */
  ghost predicate GivenWithoutCanary(results: seq<PollResult>, heard: set<(Key, Option<seq<Day>>)>, slot: Slot) {
    var k := Key(slot.scheduleId, slot.facility);
    exists days: seq<Day> :: slot.day in days && ((k, Some(days)) in heard || AnsweredWithoutCanary(results, k, days))
  }

  /** With the sweep's results fanned out, every slot of the phase from `d` on is of that kind. */
  ghost predicate TrustsNoCanary(account: Account, d: Desk, borrowed: map<Key, ScheduleId>, results: seq<PollResult>) {
    && Unread(account, d, FannedBorrowed(borrowed, results))
    && SortedCalendars(FannedCalendars(results))
    && (forall r :: r in results && r.days.Some? ==> r.poller.Some?)
    ==>
      var after := Processed(d, account, FannedCalendars(results)).0;
      forall n :: |d.submitted| <= n < |after.submitted| ==>
                    GivenWithoutCanary(results, after.heard - d.heard, after.submitted[n])
  }

  /** No slot is submitted on a canary's word.  With no calendar read twice, every slot submitted lies in a calendar
      that was read during the phase itself without a canary, or that the subscriber or a non-canary answered in this
      sweep. */
  lemma NoSlotOnACanarysWord(account: Account, d: Desk, borrowed: map<Key, ScheduleId>, results: seq<PollResult>)
    requires ReadOnce(account)
    ensures TrustsNoCanary(account, d, borrowed, results)
  {
    var calendars := FannedCalendars(results);
    if && Unread(account, d, FannedBorrowed(borrowed, results)) && SortedCalendars(calendars)
       && forall r :: r in results && r.days.Some? ==> r.poller.Some? {
      EverySubmittedSlotIsSound(account, d, calendars);
      var after := Processed(d, account, calendars).0;
      hide Processed, ReadOnce, SortedCalendars;
      forall n | |d.submitted| <= n < |after.submitted|
        ensures GivenWithoutCanary(results, after.heard - d.heard, after.submitted[n])
      {
        VouchedIsWithoutCanary(account, d, borrowed, results, after.heard, after.submitted[n]);
      }
    }
  }

  lemma VouchedIsWithoutCanary(account: Account, d: Desk, borrowed: map<Key, ScheduleId>, results: seq<PollResult>,
                               heard: set<(Key, Option<seq<Day>>)>, slot: Slot)
    requires Unread(account, d, FannedBorrowed(borrowed, results)) && Allowed(account, slot)
    requires forall r :: r in results && r.days.Some? ==> r.poller.Some?
    requires Vouched(slot, heard, FannedCalendars(results), d.borrowed)
    ensures GivenWithoutCanary(results, heard - d.heard, slot)
  {
    var calendars := FannedCalendars(results);
    var k := Key(slot.scheduleId, slot.facility);
    var days: seq<Day> :| slot.day in days && CanaryFree(k, days, heard, calendars, d.borrowed);
    var a :| a in account.applications && a.0.scheduleId == slot.scheduleId;
    hide Allowed;
    if (k, Some(days)) !in heard {
      FannedSourceIsAResult(results, k);
      BorrowedAgreesWithAnswerer(borrowed, results, k);
      assert k !in FannedBorrowed(borrowed, results);
      hide FannedCalendars, FannedBorrowed, FannedSources, Unread;
      var r :| r in results && Covers(r.poll, k) && calendars[k] == r.days && FannedSources(results)[k] == r.poller;
      assert !FromCanary(r, k);
      assert AnsweredWithoutCanary(results, k, days);
    }
  }

  lemma FannedSourceIsAResult(results: seq<PollResult>, k: Key)
    requires k in FannedCalendars(results)
    ensures k in FannedSources(results)
    ensures exists r ::
              r in results && Covers(r.poll, k) && FannedCalendars(results)[k] == r.days
              && FannedSources(results)[k] == r.poller
  {
    FannedFromAResult(results, k);
    var r :| r in results && k in CoveredKeys(r) && FannedCalendars(results)[k] == r.days
             && FannedSources(results)[k] == r.poller;
    assert Covers(r.poll, k);
  }
}
