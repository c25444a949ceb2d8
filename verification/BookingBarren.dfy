/** A site with nothing to give: every calendar request of the booking phase fails, every booking request is lost, and
    nobody asks the phase to stop.  Whatever is submitted then rests on the sweep's own batch. */
module BookingBarren {
  import opened Basics
  import opened Calendar
  import opened FanOut
  import opened BookingSpec
  import opened BookingChoice
  import opened BookingGroups

  /** What it answers to every fetch (no calendar: only which keys the fetch covers), and the times it offers. */
  datatype World = World(failing: set<Key>, offered: seq<Time>)

  function Failures(w: World): map<Key, Option<seq<Day>>> {
    map k | k in w.failing :: None
  }

  /** Enough replies are left for `n` more of each kind. */
  ghost predicate Barren(d: Desk, w: World, n: nat) {
    && d.site.days == [] && d.site.bookings == [] && d.site.patience >= n
    && |d.site.fetches| >= n && (forall i :: 0 <= i < |d.site.fetches| ==> d.site.fetches[i] == Fetched(Failures(w)))
    && |d.site.times| >= n
    && (forall i :: 0 <= i < |d.site.times| ==> d.site.times[i] == TimesAnswered(Some(w.offered)))
  }

  /** From `d` to `e`: logs only grew, the borrowed table only shrank, nobody was booked and no calendar was heard. */
  ghost predicate Follows(d: Desk, e: Desk) {
    && e.booked == d.booked && d.submitted <= e.submitted && d.heard <= e.heard
    && (forall k :: k in e.borrowed ==> k in d.borrowed)
    && forall x :: x in e.heard ==> x in d.heard || x.1 == None
  }

  lemma FollowsTwice(d: Desk, mid: Desk, e: Desk)
    requires Follows(d, mid) && Follows(mid, e)
    ensures Follows(d, e)
  {
  }

  lemma Fewer(d: Desk, w: World, n: nat, m: nat)
    requires Barren(d, w, n) && m <= n
    ensures Barren(d, w, m)
  {
  }

  // ---------------------------------------------------------------- applications

  lemma ReadBarren(d: Desk, app: Application, schedule: Option<Schedule>, calendars: Calendars, fid: FacilityId)
    requires d.site.days == []
    ensures var (reply, after) := ReadAt(d, app, schedule, calendars, fid);
            && reply.Answered? && Follows(d, after) && after.site == d.site && after.submitted == d.submitted
            && Seen(d, app, schedule, calendars, fid, reply.days, after)
  {
    hide Hit;
  }

  /** What acting on the calendar of one consulate amounts to, with `e` some time after it. */
  ghost predicate Seen(d: Desk, app: Application, schedule: Option<Schedule>, calendars: Calendars, fid: FacilityId,
                       days: Option<seq<Day>>, e: Desk) {
    var k := Key(app.scheduleId, fid);
    && (days.Some? ==> k in calendars && days == calendars[k])
    && (k in calendars && k !in d.borrowed ==> days == calendars[k])
    && (k in calendars && Hit(app.target, schedule, calendars[k]) ==> k !in e.borrowed)
    && (k !in calendars ==> (k, None) in e.heard)
  }

  lemma SeenLater(d: Desk, mid: Desk, app: Application, schedule: Option<Schedule>, calendars: Calendars,
                  fid: FacilityId, days: Option<seq<Day>>, e: Desk, f: Desk)
    requires Seen(mid, app, schedule, calendars, fid, days, e) && Follows(d, mid) && Follows(e, f)
    ensures Seen(d, app, schedule, calendars, fid, days, f)
  {
    hide Hit;
  }

  ghost predicate AllSeen(d: Desk, app: Application, schedule: Option<Schedule>, calendars: Calendars, v: Visit) {
    |v.used| <= |app.target.consulates|
    && forall i :: 0 <= i < |v.used| ==> Seen(d, app, schedule, calendars, app.target.consulates[i], v.used[i], v.desk)
  }

  lemma VisitOneBarren(d: Desk, before: Visit, app: Application, schedule: Option<Schedule>, calendars: Calendars,
                       n: nat, w: World, left: nat)
    requires n < |app.target.consulates| && |before.used| == n && Follows(d, before.desk)
    requires Barren(before.desk, w, 2 + left) && AllSeen(d, app, schedule, calendars, before)
    ensures var v := VisitOne(before, app, schedule, calendars, n);
            && v.status.Going? && |v.used| == n + 1 && Follows(before.desk, v.desk) && Barren(v.desk, w, left)
            && v.desk.submitted == before.desk.submitted && AllSeen(d, app, schedule, calendars, v)
  {
    var d0 := StopCheck(before.desk).1;
    var fid := app.target.consulates[n];
    ReadBarren(d0, app, schedule, calendars, fid);
    hide ReadAt, Seen, Failures;
    var v := VisitOne(before, app, schedule, calendars, n);
    var (reply, d1) := ReadAt(d0, app, schedule, calendars, fid);
    assert v.used == before.used + [reply.days] && Follows(d1, v.desk) && Follows(before.desk, v.desk);
    SeenLater(d, d0, app, schedule, calendars, fid, reply.days, d1, v.desk);
    forall i | 0 <= i < n
      ensures Seen(d, app, schedule, calendars, app.target.consulates[i], v.used[i], v.desk)
    {
      SeenLater(d, d, app, schedule, calendars, app.target.consulates[i], before.used[i], before.desk, v.desk);
    }
  }

  lemma {:induction false} VisitBarren(d: Desk, app: Application, schedule: Option<Schedule>, calendars: Calendars,
                                       n: nat, w: World, left: nat)
    requires n <= |app.target.consulates| && Barren(d, w, 2 * n + left)
    ensures var v := VisitTo(d, app, schedule, calendars, n);
            && v.status.Going? && |v.used| == n && Follows(d, v.desk) && Barren(v.desk, w, left)
            && v.desk.submitted == d.submitted && AllSeen(d, app, schedule, calendars, v)
  {
    hide VisitOne, AllSeen, Barren;
    if n > 0 {
      VisitBarren(d, app, schedule, calendars, n - 1, w, left + 2);
      VisitOneBarren(d, VisitTo(d, app, schedule, calendars, n - 1), app, schedule, calendars, n - 1, w, left);
    } else {
      assert AllSeen(d, app, schedule, calendars, Visit([], d, Going)) by {
        NothingSeen(d, app, schedule, calendars);
      }
    }
  }

  lemma NothingSeen(d: Desk, app: Application, schedule: Option<Schedule>, calendars: Calendars)
    ensures AllSeen(d, app, schedule, calendars, Visit([], d, Going))
  {
  }

  /** An application's turn neither stops nor raises, and submits at most one slot after its visit. */
  lemma AppBarren(d: Desk, app: Application, schedule: Option<Schedule>, calendars: Calendars, w: World, left: nat)
    requires Barren(d, w, 2 * |app.target.consulates| + left)
    ensures var (after, status) := AppSwept(d, app, schedule, calendars);
            status.Going? && Follows(d, after) && Barren(after, w, left)
    ensures var v := VisitTo(d, app, schedule, calendars, |app.target.consulates|);
            Follows(v.desk, AppSwept(d, app, schedule, calendars).0)
  {
    hide VisitTo, Candidates, Pick, UnderCeiling, AllSeen, Failures, Attempt, Barren;
    VisitBarren(d, app, schedule, calendars, |app.target.consulates|, w, left);
    VisitLength(d, app, schedule, calendars, |app.target.consulates|);
    var v := VisitTo(d, app, schedule, calendars, |app.target.consulates|);
    var candidates := Candidates(app, schedule, v.used);
    if candidates != [] {
      AttemptBarren(v.desk, Pick(app.target, candidates), schedule, w, left);
    }
  }

  lemma AttemptBarren(d: Desk, slot: Slot, schedule: Option<Schedule>, w: World, left: nat)
    requires Barren(d, w, left)
    ensures Follows(d, Attempt(d, slot, schedule)) && Barren(Attempt(d, slot, schedule), w, left)
  {
    hide UnderCeiling, Failures;
  }

  /** It reads, and so uses up, a borrowed calendar that holds a hit. */
  lemma AppUsesUp(d: Desk, app: Application, schedule: Option<Schedule>, calendars: Calendars, fid: FacilityId,
                  w: World)
    requires Barren(d, w, 2 * |app.target.consulates|) && fid in app.target.consulates
    requires var k := Key(app.scheduleId, fid); k in calendars && Hit(app.target, schedule, calendars[k])
    ensures Key(app.scheduleId, fid) !in AppSwept(d, app, schedule, calendars).0.borrowed
  {
    VisitBarren(d, app, schedule, calendars, |app.target.consulates|, w, 0);
    var i :| 0 <= i < |app.target.consulates| && app.target.consulates[i] == fid;
    AppBarren(d, app, schedule, calendars, w, 0);
    var v := VisitTo(d, app, schedule, calendars, |app.target.consulates|);
    assert Seen(d, app, schedule, calendars, fid, v.used[i], v.desk);
    hide VisitTo, AppSwept, Hit, Failures;
  }

  /** A calendar that is not in the batch is asked for. */
  lemma AppAsks(d: Desk, app: Application, schedule: Option<Schedule>, calendars: Calendars, fid: FacilityId,
                w: World)
    requires Barren(d, w, 2 * |app.target.consulates|) && fid in app.target.consulates
    requires Key(app.scheduleId, fid) !in calendars
    ensures (Key(app.scheduleId, fid), None) in AppSwept(d, app, schedule, calendars).0.heard
  {
    VisitBarren(d, app, schedule, calendars, |app.target.consulates|, w, 0);
    var i :| 0 <= i < |app.target.consulates| && app.target.consulates[i] == fid;
    AppBarren(d, app, schedule, calendars, w, 0);
    var v := VisitTo(d, app, schedule, calendars, |app.target.consulates|);
    assert Seen(d, app, schedule, calendars, fid, v.used[i], v.desk);
    hide VisitTo, AppSwept, Hit, Failures;
  }

  ghost predicate HasSlotAt(submitted: seq<Slot>, k: Key) {
    exists slot :: slot in submitted && Key(slot.scheduleId, slot.facility) == k
  }

  /** It books on a bookable calendar of the batch that is not borrowed any more, if it has no other one. */
  lemma AppBooksOnBatch(d: Desk, app: Application, schedule: Option<Schedule>, calendars: Calendars, fid: FacilityId,
                        w: World)
    requires Barren(d, w, 2 * |app.target.consulates|) && fid in app.target.consulates
    requires SortedCalendars(calendars)
    requires forall k :: k in calendars && k.facility != fid ==> calendars[k] == Some([])
    requires var k := Key(app.scheduleId, fid);
             k in calendars && k !in d.borrowed && HasBookable(app, schedule, calendars[k])
    ensures HasSlotAt(AppSwept(d, app, schedule, calendars).0.submitted, Key(app.scheduleId, fid))
  {
    var all := |app.target.consulates|;
    VisitBarren(d, app, schedule, calendars, all, w, 0);
    ChosenSlotIsTheOptimum(d, app, schedule, calendars);
    var v := VisitTo(d, app, schedule, calendars, all);
    var after := AppSwept(d, app, schedule, calendars).0;
    var i :| 0 <= i < all && app.target.consulates[i] == fid;
    hide VisitTo, AppSwept, SortedCalendars, Hit, Bookable, Failures;
    assert Seen(d, app, schedule, calendars, fid, v.used[i], v.desk);
    assert HasBookable(app, schedule, v.used[i]);
    var slot :| after.submitted == d.submitted + [slot] && Optimum(app, schedule, v.used, slot);
    var j: nat :| EarliestAt(app, schedule, v.used, j, slot);
    assert Seen(d, app, schedule, calendars, app.target.consulates[j], v.used[j], v.desk);
    assert after.submitted[|d.submitted|] == slot;
  }

  // ---------------------------------------------------------------- groups

  lemma {:induction false} SharedBarren(d: Desk, fid: FacilityId, members: seq<ScheduleId>, calendars: Calendars,
                                        n: nat)
    requires n <= |members| && d.site.patience >= n
    ensures var r := SharedDays(d, fid, members, calendars, n);
            r.desk == d.(site := d.site.(patience := d.site.patience - n))
            && (r.status.Going? || r.status.Missing?)
            && (r.status.Going?
                <==> forall i ::
                  0 <= i < n ==> Key(members[i], fid) in calendars && calendars[Key(members[i], fid)].Some?)
            && forall i :: 0 <= i < n && Key(members[i], fid) in calendars && calendars[Key(members[i], fid)].Some? ==>
                             r.days[i] == calendars[Key(members[i], fid)].value
  {
    if n > 0 {
      SharedBarren(d, fid, members, calendars, n - 1);
    }
  }

  lemma {:induction false} ConfirmsBarren(d: Desk, fid: FacilityId, members: seq<ScheduleId>, shared: seq<seq<Day>>,
                                          n: nat)
    requires n <= |members| == |shared| && d.site.days == []
    ensures var r := ConfirmAll(d, fid, members, shared, n);
            && (r.status.Going? || r.status.Missing?) && Follows(d, r.desk) && r.desk.site == d.site
            && r.desk.submitted == d.submitted
            && (r.status.Going? ==>
                  r.desk == d && forall i ::
                    0 <= i < n ==> Key(members[i], fid) !in d.borrowed && r.days[i] == shared[i])
            && (r.status.Missing? ==>
                  exists i :: 0 <= i < n && Key(members[i], fid) in d.borrowed
                              && Key(members[i], fid) !in r.desk.borrowed)
  {
    if n > 0 {
      ConfirmsBarren(d, fid, members, shared, n - 1);
    }
  }

  lemma {:induction false} TimesBarren(d: Desk, members: seq<ScheduleId>, n: nat, w: World,
                                       left: nat)
    requires n <= |members| && Barren(d, w, n + left)
    ensures var r := AskTimes(d, members, n);
            r.status.Going? && Barren(r.desk, w, left) && r.desk == d.(site := r.desk.site)
            && r.times == seq(n, i => w.offered)
  {
    if n > 0 {
      TimesBarren(d, members, n - 1, w, left + 1);
    }
  }

  lemma {:induction false} AttemptsBarren(d: Desk, fid: FacilityId, day: Day, byId: ById, members: seq<ScheduleId>,
                                          times: seq<seq<Time>>, n: nat)
    requires n <= |members| == |times| && EveryoneHasATime(times) && d.site.bookings == []
    ensures var e := AttemptAll(d, fid, day, byId, members, times, n);
            e.site == d.site && Follows(d, e) && e.borrowed == d.borrowed
  {
    if n > 0 {
      AttemptsBarren(d, fid, day, byId, members, times, n - 1);
      hide UnderCeiling;
    }
  }

  /** The batch only holds calendars of applications with a known schedule. */
  ghost predicate OnlyKnown(calendars: Calendars, byId: ById) {
    forall k :: k in calendars ==> k.scheduleId in byId
  }

  lemma FetchBarren(d: Desk, fid: FacilityId, members: seq<ScheduleId>, calendars: Calendars,
                    w: World, left: nat)
    requires Barren(d, w, 1 + left)
    ensures var (mine, e) := GroupCalendars(d, fid, members, calendars);
            && mine.Some? && Follows(d, e) && Barren(e, w, left) && e.submitted == d.submitted
            && e.site.patience == d.site.patience && |e.site.times| == |d.site.times|
            && if forall m :: m in members ==> Key(m, fid) in calendars then mine.value == calendars && e == d
               else (forall k :: k in mine.value ==> mine.value[k] == None)
                    && forall k :: k in w.failing && k.facility == fid && k.scheduleId in members ==>
                                     (k, None) in e.heard
  {
    if exists m :: m in members && Key(m, fid) !in calendars {
      var fetched := Wanted(Failures(w), fid, members);
      forall k | k in w.failing && k.facility == fid && k.scheduleId in members
        ensures (k, None) in set q | q in fetched :: (q, fetched[q])
      {
        assert k in fetched && fetched[k] == None;
      }
    }
  }

  /** One check of a group neither stops nor raises. */
  lemma GroupBarren(d: Desk, group: Group, byId: ById, fid: FacilityId, members: seq<ScheduleId>, calendars: Calendars,
                    w: World, left: nat)
    requires Barren(d, w, 1 + 2 * |members| + left) && OnlyKnown(calendars, byId) && members != []
    ensures var (after, status) := GroupSwept(d, group, byId, fid, members, calendars);
            status.Going? && Follows(d, after) && Barren(after, w, left)
            && ((exists m :: m in members && Key(m, fid) !in calendars) ==>
                  forall k :: k in w.failing && k.facility == fid && k.scheduleId in members ==>
                                (k, None) in after.heard)
  {
    hide Joint, SharedDays, ConfirmAll, GroupBooked, AskTimes;
    FetchBarren(d, fid, members, calendars, w, 2 * |members| + left);
    var (mine, d0) := GroupCalendars(d, fid, members, calendars);
    hide GroupCalendars;
    SharedBarren(d0, fid, members, mine.value, |members|);
    var shared := SharedDays(d0, fid, members, mine.value, |members|);
    assert Barren(shared.desk, w, |members| + left);
    if shared.status.Going? {
      assert members[0] in members;
      assert forall m :: m in members ==> m in byId;
      ConfirmsBarren(shared.desk, fid, members, shared.days, |members|);
      var chosen := GroupRead(d, group, byId, fid, members, calendars);
      assert Barren(chosen.desk, w, |members| + left);
      if chosen.status.Going? {
        BookedBarren(chosen, group, byId, fid, members, w, left);
      }
    }
  }

  lemma BookedBarren(chosen: Reading, group: Group, byId: ById, fid: FacilityId, members: seq<ScheduleId>,
                     w: World, left: nat)
    requires |chosen.days| == |members| && Barren(chosen.desk, w, |members| + left)
    requires forall m :: m in members ==> m in byId
    ensures var (after, status) := GroupBooked(chosen, group, byId, fid, members);
            status.Going? && Follows(chosen.desk, after) && Barren(after, w, left)
  {
    hide Joint, AskTimes, AttemptAll, Total;
    TimesBarren(chosen.desk, members, |members|, w, left);
    var asked := AskTimes(chosen.desk, members, |members|);
    var common := Joint(group, byId, members, chosen.days);
    Fewer(chosen.desk, w, |members| + left, left);
    if common != [] && EveryoneHasATime(asked.times) {
      AttemptsBarren(asked.desk, fid, common[0], byId, members, asked.times, |members|);
    }
  }

  // ---------------------------------------------------------------- one group check on calendars of the batch

  /** Every member's calendar is in the batch and holds the same days. */
  ghost predicate SameDays(calendars: Calendars, fid: FacilityId, members: seq<ScheduleId>, days: seq<Day>) {
    forall m :: m in members ==> Key(m, fid) in calendars && calendars[Key(m, fid)] == Some(days)
  }

  function Copies(n: nat, days: seq<Day>): seq<seq<Day>> {
    seq(n, i => days)
  }

  lemma SharedSameDays(d: Desk, fid: FacilityId, members: seq<ScheduleId>, calendars: Calendars, days: seq<Day>)
    requires d.site.patience >= |members| && SameDays(calendars, fid, members, days)
    ensures SharedDays(d, fid, members, calendars, |members|)
            == Reading(Copies(|members|, days), d.(site := d.site.(patience := d.site.patience - |members|)), Going)
  {
    SharedBarren(d, fid, members, calendars, |members|);
    var r := SharedDays(d, fid, members, calendars, |members|);
    hide SharedDays;
    forall i | 0 <= i < |members|
      ensures Key(members[i], fid) in calendars && calendars[Key(members[i], fid)] == Some(days)
    {
      assert members[i] in members;
    }
    assert r.days == Copies(|members|, days);
  }

  /** A joint hit on it uses up the one borrowed member calendar. */
  lemma GroupUsesUp(d: Desk, group: Group, byId: ById, fid: FacilityId, members: seq<ScheduleId>, calendars: Calendars,
                    days: seq<Day>, m: ScheduleId, w: World)
    requires Barren(d, w, 1 + 2 * |members|) && OnlyKnown(calendars, byId) && m in members
    requires SameDays(calendars, fid, members, days) && Joint(group, byId, members, Copies(|members|, days)) != []
    requires forall k :: k in d.borrowed ==> k == Key(m, fid)
    ensures Key(m, fid) !in GroupSwept(d, group, byId, fid, members, calendars).0.borrowed
  {
    hide Joint;
    GroupBarren(d, group, byId, fid, members, calendars, w, 0);
    if Key(m, fid) in d.borrowed {
      SharedSameDays(d, fid, members, calendars, days);
      var shared := SharedDays(d, fid, members, calendars, |members|);
      hide SharedDays, SameDays;
      ConfirmsBarren(shared.desk, fid, members, shared.days, |members|);
      var i :| 0 <= i < |members| && members[i] == m;
      var r := ConfirmAll(shared.desk, fid, members, shared.days, |members|);
      hide ConfirmAll;
      assert r.status.Missing? && Key(m, fid) !in r.desk.borrowed;
    } else {
      hide GroupSwept;
    }
  }

  /** With nothing borrowed any more it books everyone on the batch's days. */
  lemma GroupBooksOnBatch(d: Desk, group: Group, byId: ById, fid: FacilityId, members: seq<ScheduleId>,
                          calendars: Calendars, days: seq<Day>, m: ScheduleId, w: World)
    requires Barren(d, w, 1 + 2 * |members|) && m in members && d.borrowed == map[]
    requires SameDays(calendars, fid, members, days)
             && exists day :: JointDay(group, byId, members, Copies(|members|, days), day)
    requires (forall x :: x in members ==> x in byId) && |w.offered| >= group.minSlots && w.offered != []
    ensures HasSlotAt(GroupSwept(d, group, byId, fid, members, calendars).0.submitted, Key(m, fid))
  {
    GroupReadsBatch(d, group, byId, fid, members, calendars, days, w);
    EnoughTimes(w.offered, |members|);
    GroupBooksTheEarliestJointDay(d, group, byId, fid, members, calendars);
    var chosen := GroupRead(d, group, byId, fid, members, calendars);
    var after := GroupSwept(d, group, byId, fid, members, calendars).0;
    var times := AskTimes(chosen.desk, members, |members|).times;
    hide GroupRead, GroupSwept, AskTimes, EarliestJointDay, JointDay, SameDays, Barren;
    assert BookedTogether(d.submitted, after.submitted, group, byId, fid, members, chosen.days, times);
    var day, slots :| EarliestJointDay(group, byId, members, chosen.days, day)
                      && OneDayForAll(slots, fid, day, members, times)
                      && after.submitted == d.submitted + slots;
    var i :| 0 <= i < |members| && members[i] == m;
    assert after.submitted[|d.submitted| + i] == slots[i];
  }

  lemma GroupReadsBatch(d: Desk, group: Group, byId: ById, fid: FacilityId, members: seq<ScheduleId>,
                        calendars: Calendars, days: seq<Day>, w: World)
    requires Barren(d, w, 1 + 2 * |members|) && d.borrowed == map[] && SameDays(calendars, fid, members, days)
    ensures var chosen := GroupRead(d, group, byId, fid, members, calendars);
            var asked := AskTimes(chosen.desk, members, |members|);
            && chosen.status.Going? && chosen.days == Copies(|members|, days)
            && asked.status.Going? && asked.times == seq(|members|, i => w.offered)
  {
    SharedSameDays(d, fid, members, calendars, days);
    var chosen := SharedDays(d, fid, members, calendars, |members|);
    hide SharedDays, Joint, ConfirmAll, AskTimes;
    assert GroupRead(d, group, byId, fid, members, calendars) == chosen;
    TimesBarren(chosen.desk, members, |members|, w, 0);
  }

  lemma {:induction false} EnoughTimes(offered: seq<Time>, n: nat)
    requires offered != []
    ensures EveryoneHasATime(seq(n, i => offered)) && Total(seq(n, i => offered)) >= if n == 0 then 0 else |offered|
  {
    if n > 0 {
      EnoughTimes(offered, n - 1);
      assert seq(n, i => offered)[..n - 1] == seq(n - 1, i => offered);
    }
  }

  // ---------------------------------------------------------------- the loops of the phase

  function GroupCost(g: Group, n: nat): nat {
    if n == 0 then 0 else GroupCost(g, n - 1) + 2 + 2 * |g.members|
  }

  function GroupsCost(groups: seq<Group>, n: nat): nat
    requires n <= |groups|
  {
    if n == 0 then 0 else GroupsCost(groups, n - 1) + 1 + GroupCost(groups[n - 1], |groups[n - 1].consulates|)
  }

  function AppsCost(apps: seq<(Application, Schedule)>, n: nat): nat
    requires n <= |apps|
  {
    if n == 0 then 0 else AppsCost(apps, n - 1) + 1 + 2 * |apps[n - 1].0.target.consulates|
  }

  lemma {:induction false} GroupToBarren(d: Desk, group: Group, byId: ById, members: seq<ScheduleId>,
                                         calendars: Calendars, n: nat, w: World, left: nat)
    requires n <= |group.consulates| && members != [] && |members| <= |group.members| && OnlyKnown(calendars, byId)
    requires Barren(d, w, GroupCost(group, n) + left)
    ensures var (after, status) := GroupTo(d, group, byId, members, calendars, n);
            status.Going? && Follows(d, after) && Barren(after, w, left)
  {
    hide GroupSwept, OnlyKnown;
    if n > 0 {
      var cost := 2 + 2 * |group.members|;
      GroupToBarren(d, group, byId, members, calendars, n - 1, w, cost + left);
      var mid := GroupTo(d, group, byId, members, calendars, n - 1).0;
      var d1 := StopCheck(mid).1;
      Fewer(d1, w, 1 + 2 * |group.members| + left, 1 + 2 * |members| + left);
      GroupBarren(d1, group, byId, group.consulates[n - 1], members, calendars, w, left);
      hide Barren;
    }
  }

  lemma {:induction false} NoneBooked(members: seq<ScheduleId>)
    ensures Unbooked({}, members) == members
  {
    if members != [] {
      NoneBooked(members[..|members| - 1]);
    }
  }

  lemma {:induction false} NobodyLeftOut(apps: seq<(Application, Schedule)>)
    ensures Pending({}, apps) == apps
  {
    if apps != [] {
      NobodyLeftOut(apps[..|apps| - 1]);
    }
  }

  lemma {:induction false} FewUnbooked(booked: set<ScheduleId>, members: seq<ScheduleId>)
    ensures |Unbooked(booked, members)| <= |members|
  {
    if members != [] {
      FewUnbooked(booked, members[..|members| - 1]);
    }
  }

  lemma GroupDoneBarren(d: Desk, group: Group, byId: ById, calendars: Calendars, w: World, left: nat)
    requires OnlyKnown(calendars, byId) && Barren(d, w, GroupCost(group, |group.consulates|) + left)
    ensures var (after, status) := GroupDone(d, group, byId, calendars);
            status.Going? && Follows(d, after) && Barren(after, w, left)
  {
    hide GroupTo, Unbooked, OnlyKnown;
    var members := Unbooked(d.booked, group.members);
    FewUnbooked(d.booked, group.members);
    if |members| >= 2 {
      GroupToBarren(d, group, byId, members, calendars, |group.consulates|, w, left);
    }
  }

  lemma {:induction false} GroupsToBarren(d: Desk, account: Account, calendars: Calendars, n: nat, w: World, left: nat)
    requires n <= |account.groups| && OnlyKnown(calendars, ByIdOf(account.applications))
    requires Barren(d, w, GroupsCost(account.groups, n) + left)
    ensures var (after, status) := GroupsTo(d, account, calendars, n);
            status.Going? && Follows(d, after) && Barren(after, w, left)
  {
    hide GroupDone, OnlyKnown;
    if n > 0 {
      var g := account.groups[n - 1];
      var cost := GroupCost(g, |g.consulates|);
      GroupsToBarren(d, account, calendars, n - 1, w, 1 + cost + left);
      var mid := GroupsTo(d, account, calendars, n - 1).0;
      GroupDoneBarren(StopCheck(mid).1, g, ByIdOf(account.applications), calendars, w, left);
      hide Barren;
    }
  }

  lemma {:induction false} AppsToBarren(d: Desk, apps: seq<(Application, Schedule)>, calendars: Calendars, n: nat,
                                        w: World, left: nat)
    requires n <= |apps| && Barren(d, w, AppsCost(apps, n) + left)
    ensures var (after, status) := AppsTo(d, apps, calendars, n);
            status.Going? && Follows(d, after) && Barren(after, w, left)
  {
    hide AppSwept;
    if n > 0 {
      var cost := 2 * |apps[n - 1].0.target.consulates|;
      AppsToBarren(d, apps, calendars, n - 1, w, 1 + cost + left);
      var mid := AppsTo(d, apps, calendars, n - 1).0;
      AppBarren(StopCheck(mid).1, apps[n - 1].0, Some(apps[n - 1].1), calendars, w, left);
      hide Barren;
    }
  }
}
