/** What a group books: one day for everyone, or nothing. */
module BookingGroups {
  import opened Basics
  import opened Calendar
  import opened Days
  import opened FanOut
  import opened BookingSpec
  import opened BookingChoice

  /** A day in every member's calendar, in the group's window, that moves no member's appointment later. */
  ghost predicate JointDay(group: Group, byId: ById, members: seq<ScheduleId>, perMember: seq<seq<Day>>, day: Day) {
    && (forall i :: 0 <= i < |perMember| ==> day in perMember[i])
    && InWindow(group.target, day)
    && forall m :: m in members ==> MayMoveTo(ScheduleOf(byId, m), day)
  }

  ghost predicate EarliestJointDay(group: Group, byId: ById, members: seq<ScheduleId>, perMember: seq<seq<Day>>,
                                   day: Day) {
    JointDay(group, byId, members, perMember, day)
    && forall other :: JointDay(group, byId, members, perMember, other) ==> day <= other
  }

  /** The running minimum of the ceilings, with its "unreadable" flag, is the same as asking every member. */
  lemma {:induction false} GroupCeilingBoundsEveryone(byId: ById, members: seq<ScheduleId>, day: Day)
    ensures !Blocked(byId, members) && (GroupCeiling(byId, members).None? || day < GroupCeiling(byId, members).value)
            <==> forall m :: m in members ==> MayMoveTo(ScheduleOf(byId, m), day)
  {
    if members != [] {
      var front, last := members[..|members| - 1], members[|members| - 1];
      GroupCeilingBoundsEveryone(byId, front, day);
      assert members == front + [last];
      assert forall m :: m in members <==> m in front || m == last;
      assert Blocked(byId, members) <==> Blocked(byId, front) || !BookingCeiling(ScheduleOf(byId, last)).0;
    }
  }

  /** The joint list holds exactly the joint days, in strictly ascending order. */
  lemma JointExactly(group: Group, byId: ById, members: seq<ScheduleId>, perMember: seq<seq<Day>>)
    requires perMember != []
    ensures forall d :: d in Joint(group, byId, members, perMember) <==> JointDay(group, byId, members, perMember, d)
    ensures Joint(group, byId, members, perMember) != [] ==>
              EarliestJointDay(group, byId, members, perMember, Joint(group, byId, members, perMember)[0])
  {
    hide InWindow, MayMoveTo, GroupCeiling;
    var common := Joint(group, byId, members, perMember);
    forall d
      ensures d in common <==> JointDay(group, byId, members, perMember, d)
    {
      GroupCeilingBoundsEveryone(byId, members, d);
      AcceptsExactly(group.target, d);
      assert InAll(perMember, d) <==> forall i :: 0 <= i < |perMember| ==> d in perMember[i];
    }
    if common != [] {
      assert common[0] in common;
    }
  }

  /** The joint list is determined by which days are joint. */
  lemma JointIsAscending(group: Group, byId: ById, members: seq<ScheduleId>, perMember: seq<seq<Day>>, days: set<Day>)
    requires perMember != []
    requires forall d :: d in days <==> JointDay(group, byId, members, perMember, d)
    ensures Joint(group, byId, members, perMember) == Ascending(days)
  {
    JointExactly(group, byId, members, perMember);
    var common := Joint(group, byId, members, perMember);
    assert forall d :: d in common <==> d in days;
    hide JointDay;
    if Blocked(byId, members) {
      assert common == [];
      assert forall d :: d in days ==> d in common;
      assert days == {};
    } else {
      var ceiling := GroupCeiling(byId, members);
      var joint := set d | d in perMember[0] && InAll(perMember, d) && Accepts(group.target, d)
                   && (ceiling.None? || d < ceiling.value);
      assert common == Ascending(joint);
      assert forall d :: d in joint <==> d in common;
      assert joint == days;
    }
  }

  lemma AcceptsExactly(t: Target, day: Day)
    ensures Accepts(t, day) <==> InWindow(t, day)
  {
    ExcludedByFindsAnExclusion(t.exclusions, day);
  }

  // ---------------------------------------------------------------- reading changes nothing but what was read

  lemma {:induction false} SharedKeeps(d: Desk, fid: FacilityId, members: seq<ScheduleId>, calendars: Calendars, n: nat)
    requires n <= |members|
    ensures var r := SharedDays(d, fid, members, calendars, n);
            r.desk == d.(site := r.desk.site) && !r.status.Crashed?
    ensures var r := SharedDays(d, fid, members, calendars, n);
            r.status.Going? ==>
              forall i :: 0 <= i < n ==>
                            Key(members[i], fid) in calendars && calendars[Key(members[i], fid)] == Some(r.days[i])
  {
    if n > 0 {
      SharedKeeps(d, fid, members, calendars, n - 1);
    }
  }

  lemma {:induction false} ConfirmsKeep(d: Desk, fid: FacilityId, members: seq<ScheduleId>, shared: seq<seq<Day>>,
                                        n: nat)
    requires n <= |members| == |shared|
    ensures var r := ConfirmAll(d, fid, members, shared, n);
            r.desk.submitted == d.submitted && r.desk.booked == d.booked
  {
    hide AskDays;
    if n > 0 {
      ConfirmsKeep(d, fid, members, shared, n - 1);
      var before := ConfirmAll(d, fid, members, shared, n - 1).desk;
      AskKeeps(before.(borrowed := before.borrowed - {Key(members[n - 1], fid)}), Key(members[n - 1], fid));
    }
  }

  lemma GroupReadKeeps(d: Desk, group: Group, byId: ById, fid: FacilityId, members: seq<ScheduleId>,
                       calendars: Calendars)
    ensures var r := GroupRead(d, group, byId, fid, members, calendars);
            r.desk.submitted == d.submitted && r.desk.booked == d.booked
  {
    hide Joint, SharedDays, ConfirmAll;
    var (fetched, d0) := GroupCalendars(d, fid, members, calendars);
    if fetched.Some? {
      SharedKeeps(d0, fid, members, fetched.value, |members|);
      var shared := SharedDays(d0, fid, members, fetched.value, |members|);
      if shared.status.Going? {
        ConfirmsKeep(shared.desk, fid, members, shared.days, |members|);
      }
    }
  }

  lemma {:induction false} TimesKeep(d: Desk, members: seq<ScheduleId>, n: nat)
    requires n <= |members|
    ensures AskTimes(d, members, n).desk == d.(site := AskTimes(d, members, n).desk.site)
  {
    if n > 0 {
      TimesKeep(d, members, n - 1);
    }
  }

  // ---------------------------------------------------------------- what is submitted

  /** One slot per member, in order, all on one day at one consulate, each at a time that member was offered. */
  ghost predicate OneDayForAll(slots: seq<Slot>, fid: FacilityId, day: Day, members: seq<ScheduleId>,
                               times: seq<seq<Time>>) {
    |slots| == |members| == |times|
    && forall i :: 0 <= i < |slots| ==>
                     slots[i].scheduleId == members[i] && slots[i].facility == fid && slots[i].day == day
                     && slots[i].time.Some? && slots[i].time.value in times[i]
  }

  function MemberSlots(fid: FacilityId, day: Day, members: seq<ScheduleId>, times: seq<seq<Time>>): (slots: seq<Slot>)
    requires |members| == |times| && EveryoneHasATime(times)
    ensures OneDayForAll(slots, fid, day, members, times)
  {
    seq(|members|, i requires 0 <= i < |members| => assert times[i] in times; MemberSlot(fid, day, members, times, i))
  }

  lemma {:induction false} EveryMemberIsAttempted(d: Desk, fid: FacilityId, day: Day, byId: ById,
                                                  members: seq<ScheduleId>,
                                                  times: seq<seq<Time>>, n: nat)
    requires n <= |members| == |times| && EveryoneHasATime(times)
    requires forall m :: m in members ==> MayMoveTo(ScheduleOf(byId, m), day)
    ensures AttemptAll(d, fid, day, byId, members, times, n).submitted
              == d.submitted + MemberSlots(fid, day, members, times)[..n]
  {
    hide MayMoveTo, UnderCeiling;
    if n > 0 {
      EveryMemberIsAttempted(d, fid, day, byId, members, times, n - 1);
      assert members[n - 1] in members;
      MovingIsUnderCeiling(ScheduleOf(byId, members[n - 1]), day);
      var slots := MemberSlots(fid, day, members, times);
      assert slots[..n] == slots[..n - 1] + [slots[n - 1]];
    }
  }

  lemma MovingIsUnderCeiling(schedule: Option<Schedule>, day: Day)
    requires MayMoveTo(schedule, day)
    ensures UnderCeiling(schedule, day)
  {
  }

  /** Everything a group booking rests on: everyone's calendar could be had and everyone's schedule is known, some day
      suits them all, and there is room on it. */
  ghost predicate GroupReady(chosen: Reading, group: Group, byId: ById, members: seq<ScheduleId>) {
    && chosen.status.Going? && |chosen.days| == |members|
    && (forall m :: m in members ==> m in byId)
    && (exists day :: JointDay(group, byId, members, chosen.days, day))
    && var asked := AskTimes(chosen.desk, members, |members|);
       asked.status.Going? && EveryoneHasATime(asked.times) && Total(asked.times) >= group.minSlots
  }

  /** The log grew by one slot per member, all on the earliest day everyone could be moved to together. */
  ghost predicate BookedTogether(before: seq<Slot>, after: seq<Slot>, group: Group, byId: ById, fid: FacilityId,
                                 members: seq<ScheduleId>,
                                 perMember: seq<seq<Day>>, times: seq<seq<Time>>) {
    exists day, slots ::
      EarliestJointDay(group, byId, members, perMember, day) && OneDayForAll(slots, fid, day, members, times)
                         && after == before + slots
  }

  /** A group check submits nothing unless all of that holds, and then exactly one slot per member, all on the
      earliest joint day.  In particular nothing is submitted while some member's current date is unreadable. */
  lemma GroupBooksTheEarliestJointDay(d: Desk, group: Group, byId: ById, fid: FacilityId, members: seq<ScheduleId>,
                                      calendars: Calendars)
    requires members != []
    ensures var chosen := GroupRead(d, group, byId, fid, members, calendars);
            var after := GroupSwept(d, group, byId, fid, members, calendars).0;
            if GroupReady(chosen, group, byId, members) then
              BookedTogether(d.submitted, after.submitted, group, byId, fid, members, chosen.days,
                             AskTimes(chosen.desk, members, |members|).times)
            else after.submitted == d.submitted
  {
    var chosen := GroupRead(d, group, byId, fid, members, calendars);
    GroupReadKeeps(d, group, byId, fid, members, calendars);
    hide GroupRead;
    if chosen.status.Going? {
      BookedKeeps(chosen, group, byId, fid, members);
    }
  }

  lemma BookedKeeps(chosen: Reading, group: Group, byId: ById, fid: FacilityId, members: seq<ScheduleId>)
    requires members != [] && chosen.status.Going? && |chosen.days| == |members|
    ensures var after := GroupBooked(chosen, group, byId, fid, members).0;
            if GroupReady(chosen, group, byId, members) then
              BookedTogether(chosen.desk.submitted, after.submitted, group, byId, fid, members, chosen.days,
                             AskTimes(chosen.desk, members, |members|).times)
            else after.submitted == chosen.desk.submitted
  {
    JointExactly(group, byId, members, chosen.days);
    TimesKeep(chosen.desk, members, |members|);
    var common := Joint(group, byId, members, chosen.days);
    var asked := AskTimes(chosen.desk, members, |members|);
    hide Joint, AskTimes;
    assert common != [] ==> common[0] in common;
    if GroupReady(chosen, group, byId, members) {
      var slots := MemberSlots(fid, common[0], members, asked.times);
      EveryMemberIsAttempted(asked.desk, fid, common[0], byId, members, asked.times, |members|);
      assert slots[..|members|] == slots;
    }
  }

  /** One member whose current date cannot be read blocks the whole group. */
  lemma UnreadableMemberBlocksTheGroup(d: Desk, group: Group, byId: ById, fid: FacilityId, members: seq<ScheduleId>,
                                       calendars: Calendars, m: ScheduleId)
    requires m in members && m in byId && byId[m].isReschedule && byId[m].current.None?
    ensures GroupSwept(d, group, byId, fid, members, calendars).0.submitted == d.submitted
  {
    GroupBooksTheEarliestJointDay(d, group, byId, fid, members, calendars);
    assert !MayMoveTo(ScheduleOf(byId, m), 0);
    forall day, perMember
      ensures !JointDay(group, byId, members, perMember, day)
    {
      assert !MayMoveTo(ScheduleOf(byId, m), day);
    }
  }

  /** A member without a known schedule: nothing is ever submitted, and once everyone's calendar could be had the
      check raises. */
  lemma UnknownMemberRaises(d: Desk, group: Group, byId: ById, fid: FacilityId, members: seq<ScheduleId>,
                            calendars: Calendars, m: ScheduleId)
    requires m in members && m !in byId
    ensures var (after, status) := GroupSwept(d, group, byId, fid, members, calendars);
            after.submitted == d.submitted
            && (status.Crashed? <==> GroupRead(d, group, byId, fid, members, calendars).status in {Going, Crashed})
  {
    GroupBooksTheEarliestJointDay(d, group, byId, fid, members, calendars);
    hide GroupRead, Joint;
  }

  // ---------------------------------------------------------------- are the times distinct?

  ghost predicate DistinctTimes(slots: seq<Slot>) {
    forall i, j :: 0 <= i < j < |slots| ==> slots[i].time != slots[j].time
  }

  /** Where a time first stands in a list. */
  function PlaceIn(offered: seq<Time>, time: Time): nat {
    if offered == [] || offered[0] == time then 0 else 1 + PlaceIn(offered[1..], time)
  }

  lemma {:induction false} PlaceInFinds(offered: seq<Time>, time: Time)
    requires time in offered
    ensures PlaceIn(offered, time) < |offered| && offered[PlaceIn(offered, time)] == time
    ensures forall p :: 0 <= p < |offered| && offered[p] == time && NoDup(offered) ==> p == PlaceIn(offered, time)
  {
    if offered[0] != time {
      PlaceInFinds(offered[1..], time);
    }
  }

  /** The n-th member's place in its own list, or the last one of a shorter list. */
  function Turn(offered: seq<Time>, n: nat): int {
    if n < |offered| then n else |offered| - 1
  }

  /** Some time is offered to both, and stands at the i-th member's turn in the one list and at the j-th's in the
      other. */
  ghost predicate Collide(times: seq<seq<Time>>, i: nat, j: nat)
    requires i < |times| && j < |times|
  {
    exists time :: time in times[i] && time in times[j]
                   && PlaceIn(times[i], time) == Turn(times[i], i) && PlaceIn(times[j], time) == Turn(times[j], j)
  }

  /** Whatever lists the members are offered: the times handed out are distinct exactly when no time stands at the
      turns of two members. */
  lemma TimesAreDistinctExactly(fid: FacilityId, day: Day, members: seq<ScheduleId>, times: seq<seq<Time>>)
    requires |members| == |times| && EveryoneHasATime(times) && forall t :: t in times ==> NoDup(t)
    ensures DistinctTimes(MemberSlots(fid, day, members, times))
            <==> forall i, j :: 0 <= i < j < |times| ==> !Collide(times, i, j)
  {
    var slots := MemberSlots(fid, day, members, times);
    forall i, j | 0 <= i < j < |times|
      ensures slots[i].time == slots[j].time <==> Collide(times, i, j)
    {
      SameTimeIsCollision(fid, day, members, times, i, j);
    }
  }

  lemma SameTimeIsCollision(fid: FacilityId, day: Day, members: seq<ScheduleId>, times: seq<seq<Time>>, i: nat, j: nat)
    requires |members| == |times| && EveryoneHasATime(times) && forall t :: t in times ==> NoDup(t)
    requires i < |times| && j < |times|
    ensures var slots := MemberSlots(fid, day, members, times);
            slots[i].time == slots[j].time <==> Collide(times, i, j)
  {
    assert times[i] in times && times[j] in times;
    var x, y := times[i][Turn(times[i], i)], times[j][Turn(times[j], j)];
    PlaceInFinds(times[i], x);
    PlaceInFinds(times[j], y);
    forall time | time in times[i] && time in times[j]
      ensures PlaceIn(times[i], time) < |times[i]| && times[i][PlaceIn(times[i], time)] == time
      ensures PlaceIn(times[j], time) < |times[j]| && times[j][PlaceIn(times[j], time)] == time
    {
      PlaceInFinds(times[i], time);
      PlaceInFinds(times[j], time);
    }
  }

  /** Nobody is offered a time that another member is offered. */
  ghost predicate Apart(times: seq<seq<Time>>) {
    forall i, j, time :: 0 <= i < j < |times| && time in times[i] ==> time !in times[j]
  }

  /** No list has a time later on than an earlier member's list has it, and everyone's turn comes: so it is when each
      list is what earlier bookings left of one list. */
  ghost predicate NeverLater(times: seq<seq<Time>>) {
    && (forall i :: 0 <= i < |times| ==> |times[i]| > i)
    && forall i, j, time :: 0 <= i < j < |times| && time in times[i] && time in times[j] ==>
                              PlaceIn(times[j], time) <= PlaceIn(times[i], time)
  }

  /** Either is enough. */
  lemma DistinctWhenApartOrNeverLater(fid: FacilityId, day: Day, members: seq<ScheduleId>, times: seq<seq<Time>>)
    requires |members| == |times| && EveryoneHasATime(times) && forall t :: t in times ==> NoDup(t)
    requires Apart(times) || NeverLater(times)
    ensures DistinctTimes(MemberSlots(fid, day, members, times))
  {
    TimesAreDistinctExactly(fid, day, members, times);
    hide DistinctTimes, NoDup, PlaceIn;
  }

  /** `u` is what is left of `t` once some of its times are gone. */
  predicate LeftOf(u: seq<Time>, t: seq<Time>) {
    if u == [] then true
    else if t == [] then false
    else if u[0] == t[0] then LeftOf(u[1..], t[1..])
    else LeftOf(u, t[1..])
  }

  lemma {:induction false} LeftOfMovesUp(u: seq<Time>, t: seq<Time>)
    requires LeftOf(u, t) && NoDup(t)
    ensures |u| <= |t| && forall time :: time in u ==> time in t && PlaceIn(u, time) <= PlaceIn(t, time)
  {
    if u != [] {
      assert forall p :: 0 < p < |t| ==> t[p] != t[0];
      assert NoDup(t[1..]);
      LeftOfMovesUp(if u[0] == t[0] then u[1..] else u, t[1..]);
    }
  }

  /** So bookings that only take times away leave everyone's time distinct while enough of them remain. */
  lemma DistinctWhileTimesAreOnlyTaken(fid: FacilityId, day: Day, members: seq<ScheduleId>, times: seq<seq<Time>>)
    requires |members| == |times| && forall t :: t in times ==> NoDup(t)
    requires forall i, j :: 0 <= i < j < |times| ==> LeftOf(times[j], times[i])
    requires times != [] ==> |times| <= |times[|times| - 1]|
    ensures EveryoneHasATime(times) && DistinctTimes(MemberSlots(fid, day, members, times))
  {
    forall i, j | 0 <= i < j < |times|
      ensures |times[j]| <= |times[i]|
      ensures forall time :: time in times[j] ==> PlaceIn(times[j], time) <= PlaceIn(times[i], time)
    {
      LeftOfMovesUp(times[j], times[i]);
    }
    hide LeftOf, PlaceIn;
    DistinctWhenApartOrNeverLater(fid, day, members, times);
  }

  lemma {:induction false} LeftOfItself(t: seq<Time>)
    ensures LeftOf(t, t)
  {
    if t != [] {
      LeftOfItself(t[1..]);
    }
  }

  /** When every member is offered the same list, the times handed out are distinct exactly when the list is
      long enough. */
  lemma SameListGivesDistinctTimes(fid: FacilityId, day: Day, members: seq<ScheduleId>, offered: seq<Time>)
    requires NoDup(offered) && offered != []
    ensures var times := seq(|members|, i => offered);
            EveryoneHasATime(times)
            && (DistinctTimes(MemberSlots(fid, day, members, times)) <==> |members| <= |offered|)
  {
    var times := seq(|members|, i => offered);
    if |members| <= |offered| {
      LeftOfItself(offered);
      DistinctWhileTimesAreOnlyTaken(fid, day, members, times);
    } else {
      TimesAreDistinctExactly(fid, day, members, times);
      var i, time := |offered| - 1, offered[|offered| - 1];
      PlaceInFinds(offered, time);
      assert times[i] == offered && times[i + 1] == offered && PlaceIn(offered, time) == i;
      assert Collide(times, i, i + 1);
    }
  }

  /** A time that turns up at the front of the second list moves the others one place on: two members can be handed the
      same one, however many times there are between them. */
  lemma DifferentListsCanCollide(fid: FacilityId, day: Day)
    ensures var times := [["09:00", "10:00"], ["08:00", "09:00"]];
            EveryoneHasATime(times) && Total(times) == 4 && !DistinctTimes(MemberSlots(fid, day, [1, 2], times))
  {
    var times := [["09:00", "10:00"], ["08:00", "09:00"]];
    assert forall t :: t in times ==> t == times[0] || t == times[1];
    TimesAreDistinctExactly(fid, day, [1, 2], times);
    assert PlaceIn(times[0], "09:00") == 0;
    assert PlaceIn(times[1][1..], "09:00") == 0;
    assert Collide(times, 0, 1);
  }
}
