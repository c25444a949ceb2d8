/** Whose word a submitted slot rests on, over one account's whole booking phase. */
module BookingSources {
  import opened Basics
  import opened Calendar
  import opened Days
  import opened FanOut
  import opened BookingSpec
  import opened BookingChoice
  import opened BookingGroups

  // ---------------------------------------------------------------- keys

  function GroupKeys(members: seq<ScheduleId>, consulates: seq<FacilityId>): set<Key> {
    set m, fid | m in members && fid in consulates :: Key(m, fid)
  }

  function AppKeys(scheduleId: ScheduleId, consulates: seq<FacilityId>): set<Key> {
    set fid | fid in consulates :: Key(scheduleId, fid)
  }

  /** No two entries of the application list read one calendar: an id listed twice has its consulates divided up. */
  ghost predicate EntriesApart(applications: seq<(Application, Schedule)>) {
    forall i, j | 0 <= i < j < |applications| ::
      AppKeys(applications[i].0.scheduleId, applications[i].0.target.consulates)
      !! AppKeys(applications[j].0.scheduleId, applications[j].0.target.consulates)
  }

  /** No calendar is read twice in the account's booking phase. */
  ghost predicate ReadOnce(account: Account) {
    && (forall g :: g in account.groups ==> NoDup(g.consulates) && NoDup(g.members))
    && (forall i, j | 0 <= i < j < |account.groups| ::
          GroupKeys(account.groups[i].members, account.groups[i].consulates)
          !! GroupKeys(account.groups[j].members, account.groups[j].consulates))
    && (forall a :: a in account.applications ==> NoDup(a.0.target.consulates))
    && EntriesApart(account.applications)
    && (forall g, a | g in account.groups && a in account.applications ::
          GroupKeys(g.members, g.consulates) !! AppKeys(a.0.scheduleId, a.0.target.consulates))
  }

  // ---------------------------------------------------------------- evidence

  /** These days were read for `k` during the phase, by the subscriber or in a fetch without canaries, or were never
      borrowed. */
  ghost predicate CanaryFree(k: Key, days: seq<Day>, heard: set<(Key, Option<seq<Day>>)>, calendars: Calendars,
                      borrowed: map<Key, ScheduleId>) {
    (k, Some(days)) in heard || (k in calendars && calendars[k] == Some(days) && k !in borrowed)
  }

  ghost predicate Vouched(slot: Slot, heard: set<(Key, Option<seq<Day>>)>, calendars: Calendars,
                          borrowed: map<Key, ScheduleId>) {
    exists days: seq<Day> ::
      slot.day in days && CanaryFree(Key(slot.scheduleId, slot.facility), days, heard, calendars, borrowed)
  }

  /** Between `d` and `e` no key outside `keys` stopped being borrowed, and nothing heard was forgotten. */
  ghost predicate Spends(d: Desk, e: Desk, keys: set<Key>) {
    d.heard <= e.heard && forall k :: k in d.borrowed && k !in keys ==> k in e.borrowed
  }

  /** Whatever is borrowed in `borrowed` among `keys` is still borrowed. */
  ghost predicate Unspent(borrowed: map<Key, ScheduleId>, d: Desk, keys: set<Key>) {
    forall k :: k in keys && k in borrowed ==> k in d.borrowed
  }

  // ---------------------------------------------------------------- one application

  lemma ReadSpends(d: Desk, app: Application, schedule: Option<Schedule>, calendars: Calendars, fid: FacilityId,
                   borrowed: map<Key, ScheduleId>)
    requires Unspent(borrowed, d, {Key(app.scheduleId, fid)})
    ensures var (reply, after) := ReadAt(d, app, schedule, calendars, fid);
            Spends(d, after, {Key(app.scheduleId, fid)})
            && (reply.Answered? && Hit(app.target, schedule, reply.days) ==>
                  reply.days.Some?
                  && CanaryFree(Key(app.scheduleId, fid), reply.days.value, after.heard, calendars, borrowed))
  {
    assert forall days :: Hit(app.target, schedule, days) ==> days.Some?;
    hide Hit;
  }

  /** The i-th calendar used is canary-free if there is a hit on it. */
  ghost predicate FreeHit(app: Application, schedule: Option<Schedule>, i: nat, days: Option<seq<Day>>,
                         heard: set<(Key, Option<seq<Day>>)>, calendars: Calendars, borrowed: map<Key, ScheduleId>)
    requires i < |app.target.consulates|
  {
    Hit(app.target, schedule, days) ==>
      CanaryFree(Key(app.scheduleId, app.target.consulates[i]), days.value, heard, calendars, borrowed)
  }

  ghost predicate FreeHits(app: Application, schedule: Option<Schedule>, v: Visit, calendars: Calendars,
                          borrowed: map<Key, ScheduleId>) {
    |v.used| <= |app.target.consulates|
    && forall i :: 0 <= i < |v.used| ==> FreeHit(app, schedule, i, v.used[i], v.desk.heard, calendars, borrowed)
  }

  /** One more consulate visited. */
  lemma VisitOneSpends(before: Visit, app: Application, schedule: Option<Schedule>, calendars: Calendars, n: nat,
                       borrowed: map<Key, ScheduleId>)
    requires n < |app.target.consulates| && |before.used| == n && FreeHits(app, schedule, before, calendars, borrowed)
    requires Unspent(borrowed, before.desk, {Key(app.scheduleId, app.target.consulates[n])})
    ensures var v := VisitOne(before, app, schedule, calendars, n);
            Spends(before.desk, v.desk, {Key(app.scheduleId, app.target.consulates[n])})
            && FreeHits(app, schedule, v, calendars, borrowed)
  {
    var fid := app.target.consulates[n];
    var d0 := StopCheck(before.desk).1;
    ReadSpends(d0, app, schedule, calendars, fid, borrowed);
    var (reply, d1) := ReadAt(d0, app, schedule, calendars, fid);
    assert forall days :: Hit(app.target, schedule, days) ==> days.Some?;
    hide Hit, ReadAt, CanaryFree;
    var v := VisitOne(before, app, schedule, calendars, n);
    assert v.desk.heard >= before.desk.heard;
    forall i | 0 <= i < |v.used|
      ensures FreeHit(app, schedule, i, v.used[i], v.desk.heard, calendars, borrowed)
    {
      if i < n {
        assert v.used[i] == before.used[i];
        FreeHitStays(app, schedule, i, before.used[i], before.desk.heard, v.desk.heard, calendars, borrowed);
      } else {
        assert reply.Answered? && v.used[i] == reply.days && v.desk.heard == d1.heard;
      }
    }
  }

  lemma FreeHitStays(app: Application, schedule: Option<Schedule>, i: nat, days: Option<seq<Day>>,
                    heard: set<(Key, Option<seq<Day>>)>,
                    more: set<(Key, Option<seq<Day>>)>, calendars: Calendars, borrowed: map<Key, ScheduleId>)
    requires i < |app.target.consulates| && FreeHit(app, schedule, i, days, heard, calendars, borrowed) && heard <= more
    ensures FreeHit(app, schedule, i, days, more, calendars, borrowed)
  {
    assert Hit(app.target, schedule, days) ==> days.Some?;
  }

  lemma {:induction false} VisitSpends(d: Desk, app: Application, schedule: Option<Schedule>, calendars: Calendars,
                                       n: nat,
                                       borrowed: map<Key, ScheduleId>)
    requires n <= |app.target.consulates| && NoDup(app.target.consulates)
    requires Unspent(borrowed, d, AppKeys(app.scheduleId, app.target.consulates))
    ensures var v := VisitTo(d, app, schedule, calendars, n);
            Spends(d, v.desk, AppKeys(app.scheduleId, app.target.consulates[..n]))
            && FreeHits(app, schedule, v, calendars, borrowed)
  {
    if n > 0 {
      VisitSpends(d, app, schedule, calendars, n - 1, borrowed);
      var before := VisitTo(d, app, schedule, calendars, n - 1);
      UsedCount(d, app, schedule, calendars, n - 1);
      var k := Key(app.scheduleId, app.target.consulates[n - 1]);
      assert AppKeys(app.scheduleId, app.target.consulates[..n - 1])
             <= AppKeys(app.scheduleId, app.target.consulates[..n]);
      if before.status.Going? {
        assert k !in AppKeys(app.scheduleId, app.target.consulates[..n - 1]);
        assert k in AppKeys(app.scheduleId, app.target.consulates[..n]);
        hide VisitOne, FreeHits, AppKeys;
        VisitOneSpends(before, app, schedule, calendars, n - 1, borrowed);
      }
    }
  }

  lemma {:induction false} UsedCount(d: Desk, app: Application, schedule: Option<Schedule>, calendars: Calendars,
                                     n: nat)
    requires n <= |app.target.consulates|
    ensures var v := VisitTo(d, app, schedule, calendars, n);
            |v.used| <= n && (v.status.Going? ==> |v.used| == n)
  {
    hide ReadAt;
    if n > 0 {
      UsedCount(d, app, schedule, calendars, n - 1);
    }
  }

  lemma OptimumIsVouched(app: Application, schedule: Option<Schedule>, v: Visit, calendars: Calendars,
                         borrowed: map<Key, ScheduleId>, slot: Slot)
    requires FreeHits(app, schedule, v, calendars, borrowed) && Optimum(app, schedule, v.used, slot)
    ensures Vouched(slot, v.desk.heard, calendars, borrowed)
  {
    hide Bookable;
    var i: nat :| EarliestAt(app, schedule, v.used, i, slot);
    AcceptableExactly(app.target, schedule, slot.day);
    assert Hit(app.target, schedule, v.used[i]);
    assert FreeHit(app, schedule, i, v.used[i], v.desk.heard, calendars, borrowed);
  }

  lemma SweptAfterVisit(d: Desk, app: Application, schedule: Option<Schedule>, calendars: Calendars)
    ensures var v := VisitTo(d, app, schedule, calendars, |app.target.consulates|);
            var after := AppSwept(d, app, schedule, calendars).0;
            after.heard == v.desk.heard && after.borrowed == v.desk.borrowed
  {
    hide VisitTo, Candidates, Pick;
  }

  lemma AppIsVouched(d: Desk, app: Application, schedule: Option<Schedule>, calendars: Calendars,
                     borrowed: map<Key, ScheduleId>)
    requires SortedCalendars(calendars) && NoDup(app.target.consulates)
    requires Unspent(borrowed, d, AppKeys(app.scheduleId, app.target.consulates))
    ensures var after := AppSwept(d, app, schedule, calendars).0;
            Spends(d, after, AppKeys(app.scheduleId, app.target.consulates))
            && (after.submitted == d.submitted
                || exists slot ::
                  after.submitted == d.submitted + [slot] && Vouched(slot, after.heard, calendars, borrowed))
  {
    hide VisitTo, AppSwept, Optimum, AppKeys, FreeHits, Vouched, HasBookable, SortedCalendars, NoDup;
    var all := |app.target.consulates|;
    assert app.target.consulates[..all] == app.target.consulates;
    VisitSpends(d, app, schedule, calendars, all, borrowed);
    ChosenSlotIsTheOptimum(d, app, schedule, calendars);
    SweptAfterVisit(d, app, schedule, calendars);
    var v := VisitTo(d, app, schedule, calendars, all);
    var after := AppSwept(d, app, schedule, calendars).0;
    if after.submitted != d.submitted {
      var slot :| after.submitted == d.submitted + [slot] && Optimum(app, schedule, v.used, slot);
      OptimumIsVouched(app, schedule, v, calendars, borrowed, slot);
    }
  }

  // ---------------------------------------------------------------- one group check

  lemma {:induction false} ConfirmsAreOwn(d: Desk, fid: FacilityId, members: seq<ScheduleId>, shared: seq<seq<Day>>,
                                          n: nat)
    requires n <= |members| == |shared| && NoDup(members)
    ensures var r := ConfirmAll(d, fid, members, shared, n);
            Spends(d, r.desk, GroupKeys(members[..n], [fid]))
            && (r.status.Going? ==>
                  forall i :: 0 <= i < n ==> (Key(members[i], fid), Some(r.days[i])) in r.desk.heard
                                             || (r.days[i] == shared[i] && Key(members[i], fid) !in d.borrowed))
  {
    if n > 0 {
      ConfirmsAreOwn(d, fid, members, shared, n - 1);
      var before := ConfirmAll(d, fid, members, shared, n - 1);
      var k := Key(members[n - 1], fid);
      assert k !in GroupKeys(members[..n - 1], [fid]);
      assert GroupKeys(members[..n], [fid]) >= {k} + GroupKeys(members[..n - 1], [fid]);
      hide GroupKeys, SortDays;
    }
  }

  /** If there is a joint day on the calendars decided on, every one of them is canary-free. */
  lemma GroupReadIsCanaryFree(d: Desk, group: Group, byId: ById, fid: FacilityId, members: seq<ScheduleId>,
                       calendars: Calendars,
                       borrowed: map<Key, ScheduleId>)
    requires NoDup(members) && Unspent(borrowed, d, GroupKeys(members, [fid]))
    ensures var r := GroupRead(d, group, byId, fid, members, calendars);
            Spends(d, r.desk, GroupKeys(members, [fid]))
            && (r.status.Going? && Joint(group, byId, members, r.days) != [] ==>
                  forall i :: 0 <= i < |members| ==>
                                CanaryFree(Key(members[i], fid), r.days[i], r.desk.heard, calendars, borrowed))
  {
    hide Joint, Blocked, SharedDays, ConfirmAll, SortDays;
    var (fetched, d0) := GroupCalendars(d, fid, members, calendars);
    assert forall m :: m in members ==> Key(m, fid) in GroupKeys(members, [fid]);
    assert Spends(d, d0, GroupKeys(members, [fid]));
    if fetched.Some? {
      var shared := SharedDays(d0, fid, members, fetched.value, |members|);
      SharedKeeps(d0, fid, members, fetched.value, |members|);
      if shared.status.Going? {
        forall i | 0 <= i < |members|
          ensures Key(members[i], fid) !in d0.borrowed ==>
                    CanaryFree(Key(members[i], fid), shared.days[i], d0.heard, calendars, borrowed)
        {
          assert members[i] in members;
        }
        ConfirmsAreOwn(shared.desk, fid, members, shared.days, |members|);
        assert members[..|members|] == members;
      }
    }
  }

  lemma {:induction false} AttemptsSpendNothing(d: Desk, fid: FacilityId, day: Day, byId: ById,
                                                members: seq<ScheduleId>,
                                                times: seq<seq<Time>>, n: nat)
    requires n <= |members| == |times| && EveryoneHasATime(times)
    ensures var after := AttemptAll(d, fid, day, byId, members, times, n);
            after.borrowed == d.borrowed && after.heard == d.heard
  {
    if n > 0 {
      AttemptsSpendNothing(d, fid, day, byId, members, times, n - 1);
    }
  }

  lemma BookingSpendsNothing(chosen: Reading, group: Group, byId: ById, fid: FacilityId, members: seq<ScheduleId>)
    requires |chosen.days| == |members|
    ensures var after := GroupBooked(chosen, group, byId, fid, members).0;
            after.borrowed == chosen.desk.borrowed && after.heard == chosen.desk.heard
  {
    hide Joint, AttemptAll, AskTimes;
    var asked := AskTimes(chosen.desk, members, |members|);
    TimesKeep(chosen.desk, members, |members|);
    var common := Joint(group, byId, members, chosen.days);
    if common != [] && asked.status.Going? && EveryoneHasATime(asked.times) {
      AttemptsSpendNothing(asked.desk, fid, common[0], byId, members, asked.times, |members|);
    }
  }

  lemma TogetherIsVouched(group: Group, byId: ById, fid: FacilityId, members: seq<ScheduleId>, before: seq<Slot>,
                          after: seq<Slot>, perMember: seq<seq<Day>>, times: seq<seq<Time>>,
                          heard: set<(Key, Option<seq<Day>>)>, calendars: Calendars, borrowed: map<Key, ScheduleId>)
    requires |perMember| == |members| && BookedTogether(before, after, group, byId, fid, members, perMember, times)
    requires forall i ::
               0 <= i < |members| ==> CanaryFree(Key(members[i], fid), perMember[i], heard, calendars, borrowed)
    ensures before <= after && forall n :: |before| <= n < |after| ==> Vouched(after[n], heard, calendars, borrowed)
  {
    hide InWindow, MayMoveTo, CanaryFree;
    var day, slots :| EarliestJointDay(group, byId, members, perMember, day)
                      && OneDayForAll(slots, fid, day, members, times)
                      && after == before + slots;
    forall n | |before| <= n < |after|
      ensures Vouched(after[n], heard, calendars, borrowed)
    {
      var i := n - |before|;
      assert after[n] == slots[i];
      assert day in perMember[i];
    }
  }

  lemma SweptAfterRead(d: Desk, group: Group, byId: ById, fid: FacilityId, members: seq<ScheduleId>,
                       calendars: Calendars)
    ensures var chosen := GroupRead(d, group, byId, fid, members, calendars);
            var after := GroupSwept(d, group, byId, fid, members, calendars).0;
            after.heard == chosen.desk.heard && after.borrowed == chosen.desk.borrowed
  {
    hide GroupRead, GroupBooked;
    var chosen := GroupRead(d, group, byId, fid, members, calendars);
    if chosen.status.Going? {
      BookingSpendsNothing(chosen, group, byId, fid, members);
    }
  }

  lemma ReadyIsJoint(chosen: Reading, group: Group, byId: ById, members: seq<ScheduleId>)
    requires members != [] && GroupReady(chosen, group, byId, members)
    ensures chosen.status.Going? && |chosen.days| == |members| && Joint(group, byId, members, chosen.days) != []
  {
    JointExactly(group, byId, members, chosen.days);
    hide Joint, JointDay, AskTimes;
    var day :| JointDay(group, byId, members, chosen.days, day);
    assert day in Joint(group, byId, members, chosen.days);
  }

  lemma GroupIsVouched(d: Desk, group: Group, byId: ById, fid: FacilityId, members: seq<ScheduleId>,
                       calendars: Calendars,
                       borrowed: map<Key, ScheduleId>)
    requires members != [] && NoDup(members) && Unspent(borrowed, d, GroupKeys(members, [fid]))
    ensures var after := GroupSwept(d, group, byId, fid, members, calendars).0;
            Spends(d, after, GroupKeys(members, [fid]))
            && d.submitted <= after.submitted
            && forall n :: |d.submitted| <= n < |after.submitted| ==>
                             Vouched(after.submitted[n], after.heard, calendars, borrowed)
  {
    var chosen := GroupRead(d, group, byId, fid, members, calendars);
    var after := GroupSwept(d, group, byId, fid, members, calendars).0;
    GroupReadIsCanaryFree(d, group, byId, fid, members, calendars, borrowed);
    GroupBooksTheEarliestJointDay(d, group, byId, fid, members, calendars);
    SweptAfterRead(d, group, byId, fid, members, calendars);
    hide GroupRead, GroupSwept, GroupReady, BookedTogether, CanaryFree, Vouched, NoDup, Joint, AskTimes, GroupKeys;
    if GroupReady(chosen, group, byId, members) {
      ReadyIsJoint(chosen, group, byId, members);
      TogetherIsVouched(group, byId, fid, members, d.submitted, after.submitted, chosen.days,
                        AskTimes(chosen.desk, members, |members|).times,
                        after.heard, calendars, borrowed);
    }
  }
}
