/** What the booking phase reads and what it submits, stated on values.  The site is a script
    of replies: any script is possible, and an exhausted one answers nothing. */
module BookingSpec {
  import opened Basics
  import opened Calendar
  import opened Days
  import opened FanOut

  type Time = string

  // ---------------------------------------------------------------- targets and ceilings

  datatype Target = Target(consulates: seq<FacilityId>, earliest: Option<Day>, latest: Option<Day>,
                           exclusions: seq<(Day, Day)>, preferEarliest: bool)

  /** The first exclusion containing the day, if any. */
  function ExcludedBy(exclusions: seq<(Day, Day)>, day: Day): Option<(Day, Day)> {
    if exclusions == [] then None
    else if exclusions[0].0 <= day <= exclusions[0].1 then Some(exclusions[0])
    else ExcludedBy(exclusions[1..], day)
  }

  predicate Accepts(t: Target, day: Day) {
    if t.earliest.Some? && day < t.earliest.value then false
    else if t.latest.Some? && day > t.latest.value then false
    else ExcludedBy(t.exclusions, day) == None
  }

  /** In the window and outside every exclusion. */
  ghost predicate InWindow(t: Target, day: Day) {
    && (t.earliest.Some? ==> t.earliest.value <= day)
    && (t.latest.Some? ==> day <= t.latest.value)
    && forall x :: x in t.exclusions ==> !(x.0 <= day <= x.1)
  }

  /** What the site says about an application: the parsed current appointment (None: absent or unreadable),
      and whether booking it would be a reschedule. */
  datatype Schedule = Schedule(current: Option<Day>, isReschedule: bool)

  /** (may be booked at all, only days strictly before this one). */
  function BookingCeiling(schedule: Option<Schedule>): (bool, Option<Day>) {
    match schedule
    case None => (true, None)
    case Some(s) =>
      if s.current.Some? then (true, s.current)
      else if s.isReschedule then (false, None)
      else (true, None)
  }

  /** Booking `day` never moves an appointment later, and never moves one whose date cannot be read. */
  ghost predicate MayMoveTo(schedule: Option<Schedule>, day: Day) {
    schedule.Some? ==>
      if schedule.value.current.Some? then day < schedule.value.current.value else !schedule.value.isReschedule
  }

  predicate UnderCeiling(schedule: Option<Schedule>, day: Day) {
    var (canBook, ceiling) := BookingCeiling(schedule);
    canBook && (ceiling.None? || day < ceiling.value)
  }

  predicate Acceptable(t: Target, schedule: Option<Schedule>, day: Day) {
    Accepts(t, day) && UnderCeiling(schedule, day)
  }

  // ---------------------------------------------------------------- the site and the worker's state

  datatype Slot = Slot(scheduleId: ScheduleId, facility: FacilityId, day: Day, time: Option<Time>)

  datatype DaysReply = Raised | Answered(days: Option<seq<Day>>)
  datatype TimesReply = TimesRaised | TimesAnswered(times: Option<seq<Time>>)
  datatype FetchReply = FetchRaised | Fetched(answers: map<Key, Option<seq<Day>>>)

  /** Replies still to come, and how many more times the stop flag will be found clear. */
  datatype Site = Site(days: seq<DaysReply>, times: seq<TimesReply>, bookings: seq<bool>, fetches: seq<FetchReply>,
                       patience: nat)

  /** `submitted` logs every slot handed to the site for booking; `heard` every calendar read
      during the phase itself, that is, by a request that no canary answered. */
  datatype Desk = Desk(borrowed: map<Key, ScheduleId>, booked: set<ScheduleId>, submitted: seq<Slot>,
                       heard: set<(Key, Option<seq<Day>>)>, site: Site)

  /** How an operation ended: Going means nothing cut it short, Missing that a calendar could not be had,
      Crashed that an exception left the account's booking phase. */
  datatype Status = Going | Stopped | Missing | Crashed

  function StopCheck(d: Desk): (bool, Desk) {
    if d.site.patience == 0 then (true, d) else (false, d.(site := d.site.(patience := d.site.patience - 1)))
  }

  // ---------------------------------------------------------------- reading calendars

  /** One days.json request by the subscriber itself: the reply's days, sorted. */
  function AskDays(d: Desk, k: Key): (DaysReply, Desk) {
    if d.site.days == [] then (Answered(None), d.(heard := d.heard + {(k, None)}))
    else
      var rest := d.(site := d.site.(days := d.site.days[1..]));
      match d.site.days[0]
      case Raised => (Raised, rest)
      case Answered(days) => (Answered(Tidy(days)), rest.(heard := rest.heard + {(k, Tidy(days))}))
  }

  function Tidy(days: Option<seq<Day>>): Option<seq<Day>> {
    if days.Some? then Some(SortDays(days.value)) else None
  }

  /** A borrowed calendar is re-read by the subscriber itself, once. */
  function Confirm(d: Desk, k: Key, days: Option<seq<Day>>): (DaysReply, Desk) {
    if k !in d.borrowed then (Answered(days), d) else AskDays(d.(borrowed := d.borrowed - {k}), k)
  }

  // ---------------------------------------------------------------- one application

  datatype Application = Application(scheduleId: ScheduleId, visaType: Option<string>, target: Target)

  /** `used` holds the calendar acted on at each consulate visited. */
  datatype Visit = Visit(used: seq<Option<seq<Day>>>, desk: Desk, status: Status)

  predicate Hit(t: Target, schedule: Option<Schedule>, days: Option<seq<Day>>) {
    days.Some? && exists d :: d in days.value && Acceptable(t, schedule, d)
  }

  /** The calendar read at one consulate, confirmed if it is borrowed and holds a hit. */
  function ReadAt(d: Desk, app: Application, schedule: Option<Schedule>, calendars: Calendars,
                  fid: FacilityId): (DaysReply, Desk) {
    var k := Key(app.scheduleId, fid);
    var (first, d1) := if k in calendars then (Answered(calendars[k]), d) else AskDays(d, k);
    if first.Answered? && Hit(app.target, schedule, first.days) then Confirm(d1, k, first.days) else (first, d1)
  }

  /** One consulate: the stop flag, the calendar, and a pause after a request of one's own. */
  function VisitOne(v: Visit, app: Application, schedule: Option<Schedule>, calendars: Calendars, i: nat): Visit
    requires i < |app.target.consulates|
  {
    var fid := app.target.consulates[i];
    var (stop, d0) := StopCheck(v.desk);
    if stop then v.(status := Stopped)
    else
      var (reply, d1) := ReadAt(d0, app, schedule, calendars, fid);
      if reply.Raised? then v.(desk := d1, status := Crashed)
      else
        var seen := Visit(v.used + [reply.days], d1, Going);
        if i < |app.target.consulates| - 1 && Key(app.scheduleId, fid) !in calendars then
          var (late, d2) := StopCheck(d1);
          seen.(desk := d2, status := if late then Stopped else Going)
        else seen
  }

  /** The visit after the first `n` consulates. */
  function VisitTo(d: Desk, app: Application, schedule: Option<Schedule>, calendars: Calendars, n: nat): Visit
    requires n <= |app.target.consulates|
  {
    if n == 0 then Visit([], d, Going)
    else
      var v := VisitTo(d, app, schedule, calendars, n - 1);
      if v.status.Going? then VisitOne(v, app, schedule, calendars, n - 1) else v
  }

  function AcceptableDays(t: Target, schedule: Option<Schedule>, days: seq<Day>): seq<Day> {
    if days == [] then []
    else
      var rest := AcceptableDays(t, schedule, days[1..]);
      if Acceptable(t, schedule, days[0]) then [days[0]] + rest else rest
  }

  /** One candidate per consulate with an acceptable day: the first one of its calendar. */
  function Candidates(app: Application, schedule: Option<Schedule>, used: seq<Option<seq<Day>>>): seq<Slot>
    requires |used| <= |app.target.consulates|
  {
    if used == [] then []
    else
      var n := |used| - 1;
      var before := Candidates(app, schedule, used[..n]);
      var acceptable := if used[n].Some? then AcceptableDays(app.target, schedule, used[n].value) else [];
      if acceptable == [] then before
      else before + [Slot(app.scheduleId, app.target.consulates[n], acceptable[0], None)]
  }

  function IndexOf(order: seq<FacilityId>, fid: FacilityId): nat {
    if order == [] || order[0] == fid then 0 else 1 + IndexOf(order[1..], fid)
  }

  /** (day, preference index), compared lexicographically. */
  predicate Before(order: seq<FacilityId>, a: Slot, b: Slot) {
    a.day < b.day || (a.day == b.day && IndexOf(order, a.facility) < IndexOf(order, b.facility))
  }

  /** The first least candidate. */
  function Least(order: seq<FacilityId>, candidates: seq<Slot>): Slot
    requires candidates != []
  {
    if |candidates| == 1 then candidates[0]
    else
      var best := Least(order, candidates[..|candidates| - 1]);
      var last := candidates[|candidates| - 1];
      if Before(order, last, best) then last else best
  }

  function Pick(t: Target, candidates: seq<Slot>): Slot
    requires candidates != []
  {
    if t.preferEarliest then Least(t.consulates, candidates) else candidates[0]
  }

  /** The last check, the request, and what it changes. A booking that fails or raises changes nothing. */
  function Attempt(d: Desk, slot: Slot, schedule: Option<Schedule>): Desk {
    if !UnderCeiling(schedule, slot.day) then d
    else
      var sent := d.(submitted := d.submitted + [slot]);
      if d.site.bookings == [] then sent
      else
        var rest := sent.(site := d.site.(bookings := d.site.bookings[1..]));
        if d.site.bookings[0] then rest.(booked := d.booked + {slot.scheduleId}) else rest
  }

  /** One application of the booking phase. */
  function AppSwept(d: Desk, app: Application, schedule: Option<Schedule>, calendars: Calendars): (Desk, Status) {
    var v := VisitTo(d, app, schedule, calendars, |app.target.consulates|);
    if !v.status.Going? then (v.desk, v.status)
    else
      VisitLength(d, app, schedule, calendars, |app.target.consulates|);
      var candidates := Candidates(app, schedule, v.used);
      if candidates == [] then (v.desk, Going)
      else (Attempt(v.desk, Pick(app.target, candidates), schedule), Going)
  }

  lemma {:induction false} VisitLength(d: Desk, app: Application, schedule: Option<Schedule>, calendars: Calendars,
                                       n: nat)
    requires n <= |app.target.consulates|
    ensures |VisitTo(d, app, schedule, calendars, n).used| <= n
    ensures VisitTo(d, app, schedule, calendars, n).status.Going? ==>
              |VisitTo(d, app, schedule, calendars, n).used| == n
  {
    if n > 0 {
      VisitLength(d, app, schedule, calendars, n - 1);
    }
  }

  // ---------------------------------------------------------------- groups

  datatype Group = Group(members: seq<ScheduleId>, consulates: seq<FacilityId>, target: Target, minSlots: nat)

  /** The applications found actionable, with what the site says about them. */
  type ById = map<ScheduleId, Schedule>

  function ScheduleOf(byId: ById, m: ScheduleId): Option<Schedule> {
    if m in byId then Some(byId[m]) else None
  }

  /** Some member's current date is unreadable. */
  predicate Blocked(byId: ById, members: seq<ScheduleId>) {
    exists m :: m in members && !BookingCeiling(ScheduleOf(byId, m)).0
  }

  function MinCeiling(a: Option<Day>, b: Option<Day>): Option<Day> {
    if a.None? then b else if b.None? || a.value < b.value then a else b
  }

  /** The earliest current appointment among the members. */
  function GroupCeiling(byId: ById, members: seq<ScheduleId>): Option<Day> {
    if members == [] then None
    else MinCeiling(GroupCeiling(byId, members[..|members| - 1]),
                    BookingCeiling(ScheduleOf(byId, members[|members| - 1])).1)
  }

  /** The days in every calendar of the list. */
  predicate InAll(calendars: seq<seq<Day>>, day: Day) {
    forall c :: c in calendars ==> day in c
  }

  /** The days in every calendar that the target accepts, under the ceiling, earliest first. */
  function CommonDays(t: Target, blocked: bool, ceiling: Option<Day>, perMember: seq<seq<Day>>): seq<Day> {
    if perMember == [] || blocked then []
    else Ascending(set d | d in perMember[0] && InAll(perMember, d) && Accepts(t, d)
                   && (ceiling.None? || d < ceiling.value))
  }

  /** The days every member could be moved to together. */
  function Joint(group: Group, byId: ById, members: seq<ScheduleId>, perMember: seq<seq<Day>>): seq<Day> {
    CommonDays(group.target, Blocked(byId, members), GroupCeiling(byId, members), perMember)
  }

  datatype Reading = Reading(days: seq<seq<Day>>, desk: Desk, status: Status)

  /** The members' entries of the shared calendar: cut short by the stop flag, and noting whether one is missing. */
  function SharedDays(d: Desk, fid: FacilityId, members: seq<ScheduleId>, calendars: Calendars, n: nat): (r: Reading)
    requires n <= |members|
    ensures !r.status.Stopped? ==> |r.days| == n
  {
    if n == 0 then Reading([], d, Going)
    else
      var r := SharedDays(d, fid, members, calendars, n - 1);
      if r.status.Stopped? then r
      else
        var (stop, d1) := StopCheck(r.desk);
        var k := Key(members[n - 1], fid);
        if stop then r.(status := Stopped)
        else if k !in calendars || calendars[k].None? then Reading(r.days + [[]], d1, Missing)
        else Reading(r.days + [calendars[k].value], d1, r.status)
  }

  /** Every borrowed member entry is re-read by the member itself. */
  function ConfirmAll(d: Desk, fid: FacilityId, members: seq<ScheduleId>, shared: seq<seq<Day>>, n: nat): (r: Reading)
    requires n <= |members| == |shared|
    ensures r.status.Going? ==> |r.days| == n
  {
    if n == 0 then Reading([], d, Going)
    else
      var r := ConfirmAll(d, fid, members, shared, n - 1);
      if !r.status.Going? then r
      else
        var (reply, d1) := Confirm(r.desk, Key(members[n - 1], fid), Some(shared[n - 1]));
        if reply.Raised? then r.(desk := d1, status := Crashed)
        else if reply.days.None? then r.(desk := d1, status := Missing)
        else Reading(r.days + [reply.days.value], d1, Going)
  }

  datatype TimesRead = TimesRead(times: seq<seq<Time>>, desk: Desk, status: Status)

  function AskTimes(d: Desk, members: seq<ScheduleId>, n: nat): (r: TimesRead)
    requires n <= |members|
    ensures r.status.Going? ==> |r.times| == n
  {
    if n == 0 then TimesRead([], d, Going)
    else
      var r := AskTimes(d, members, n - 1);
      if !r.status.Going? then r
      else
        var (stop, d1) := StopCheck(r.desk);
        if stop then r.(status := Stopped)
        else if d1.site.times == [] then TimesRead(r.times + [[]], d1, Going)
        else
          var rest := d1.(site := d1.site.(times := d1.site.times[1..]));
          match d1.site.times[0]
          case TimesRaised => r.(desk := rest, status := Crashed)
          case TimesAnswered(None) => TimesRead(r.times + [[]], rest, Going)
          case TimesAnswered(Some(ts)) => TimesRead(r.times + [ts], rest, Going)
  }

  function Total(times: seq<seq<Time>>): nat {
    if times == [] then 0 else Total(times[..|times| - 1]) + |times[|times| - 1]|
  }

  predicate EveryoneHasATime(times: seq<seq<Time>>) {
    forall t :: t in times ==> t != []
  }

  function MemberSlot(fid: FacilityId, day: Day, members: seq<ScheduleId>, times: seq<seq<Time>>, i: nat): (slot: Slot)
    requires i < |members| == |times| && times[i] != []
    ensures slot.time.Some? && slot.time.value in times[i]
  {
    var last := |times[i]| - 1;
    Slot(members[i], fid, day, Some(times[i][if i < last then i else last]))
  }

  /** One booking request per member, in order. */
  function AttemptAll(d: Desk, fid: FacilityId, day: Day, byId: ById, members: seq<ScheduleId>, times: seq<seq<Time>>,
                      n: nat): Desk
    requires n <= |members| == |times| && EveryoneHasATime(times)
  {
    if n == 0 then d
    else
      assert times[n - 1] in times;
      Attempt(AttemptAll(d, fid, day, byId, members, times, n - 1), MemberSlot(fid, day, members, times, n - 1),
              ScheduleOf(byId, members[n - 1]))
  }

  /** The requested keys that were answered: no canary takes part in such a fetch, so none of them is borrowed. */
  function Wanted(answers: map<Key, Option<seq<Day>>>, fid: FacilityId, members: seq<ScheduleId>): Calendars {
    map k | k in answers && k.facility == fid && k.scheduleId in members :: Tidy(answers[k])
  }

  /** The calendars a group check works on: the sweep's, or freshly fetched ones when an entry is missing. */
  function GroupCalendars(d: Desk, fid: FacilityId, members: seq<ScheduleId>, calendars: Calendars): (Option<Calendars>,
                          Desk) {
    if forall m :: m in members ==> Key(m, fid) in calendars then (Some(calendars), d)
    else if d.site.fetches == [] then (None, d)
    else
      var rest := d.(site := d.site.(fetches := d.site.fetches[1..]));
      match d.site.fetches[0]
      case FetchRaised => (None, rest)
      case Fetched(answers) =>
        var fetched := Wanted(answers, fid, members);
        (Some(fetched), rest.(borrowed := rest.borrowed - fetched.Keys,
                              heard := rest.heard + set k | k in fetched :: (k, fetched[k])))
  }

  /** The calendars the group decides on: the shared ones, or the members' own once a joint hit is partly borrowed. */
  function Decide(group: Group, byId: ById, fid: FacilityId, members: seq<ScheduleId>, shared: Reading): (r: Reading)
    requires |shared.days| == |members| && shared.status.Going?
    ensures r.status.Going? ==> |r.days| == |members|
  {
    if Joint(group, byId, members, shared.days) != []
       && exists m :: m in members && Key(m, fid) in shared.desk.borrowed then
      ConfirmAll(shared.desk, fid, members, shared.days, |members|)
    else shared
  }

  /** The calendars of one group check; Going when every member's could be had. */
  function GroupRead(d: Desk, group: Group, byId: ById, fid: FacilityId, members: seq<ScheduleId>,
                     calendars: Calendars): (r: Reading)
    ensures r.status.Going? ==> |r.days| == |members|
  {
    var (fetched, d0) := GroupCalendars(d, fid, members, calendars);
    if fetched.None? then Reading([], d0, Crashed)
    else
      var shared := SharedDays(d0, fid, members, fetched.value, |members|);
      if !shared.status.Going? then shared else Decide(group, byId, fid, members, shared)
  }

  /** One consulate of a group. */
  function GroupSwept(d: Desk, group: Group, byId: ById, fid: FacilityId, members: seq<ScheduleId>,
                      calendars: Calendars): (Desk, Status) {
    var chosen := GroupRead(d, group, byId, fid, members, calendars);
    if chosen.status.Missing? then (chosen.desk, Going)
    else if !chosen.status.Going? then (chosen.desk, chosen.status)
    else GroupBooked(chosen, group, byId, fid, members)
  }

  /** The earliest joint day, if there is enough room on it for everyone.  A member without a known
      schedule raises before anything is booked. */
  function GroupBooked(chosen: Reading, group: Group, byId: ById, fid: FacilityId, members: seq<ScheduleId>): (Desk,
                       Status)
    requires |chosen.days| == |members|
  {
    var common := Joint(group, byId, members, chosen.days);
    if !(forall m :: m in members ==> m in byId) then (chosen.desk, Crashed)
    else if common == [] then (chosen.desk, Going)
    else
      var asked := AskTimes(chosen.desk, members, |members|);
      if !asked.status.Going? then (asked.desk, asked.status)
      else if Total(asked.times) < group.minSlots || !EveryoneHasATime(asked.times) then (asked.desk, Going)
      else (AttemptAll(asked.desk, fid, common[0], byId, members, asked.times, |members|), Going)
  }

  // ---------------------------------------------------------------- one account

  datatype Account = Account(id: AccountId, applications: seq<(Application, Schedule)>, groups: seq<Group>)

  function ByIdOf(applications: seq<(Application, Schedule)>): ById {
    if applications == [] then map[]
    else
      var last := applications[|applications| - 1];
      ByIdOf(applications[..|applications| - 1])[last.0.scheduleId := last.1]
  }

  function Unbooked(booked: set<ScheduleId>, members: seq<ScheduleId>): seq<ScheduleId> {
    if members == [] then []
    else
      var before := Unbooked(booked, members[..|members| - 1]);
      var last := members[|members| - 1];
      if last in booked then before else before + [last]
  }

  function Pending(booked: set<ScheduleId>, applications: seq<(Application, Schedule)>): seq<(Application, Schedule)> {
    if applications == [] then []
    else
      var before := Pending(booked, applications[..|applications| - 1]);
      var last := applications[|applications| - 1];
      if last.0.scheduleId in booked then before else before + [last]
  }

  /** The first `n` consulates of a group; an inner return on the stop flag is seen again by the next check. */
  function GroupTo(d: Desk, group: Group, byId: ById, members: seq<ScheduleId>, calendars: Calendars, n: nat): (Desk,
                   Status)
    requires n <= |group.consulates|
  {
    if n == 0 then (d, Going)
    else
      var (d0, status) := GroupTo(d, group, byId, members, calendars, n - 1);
      if !status.Going? then (d0, status)
      else
        var (stop, d1) := StopCheck(d0);
        if stop then (d1, Stopped)
        else
          var (d2, ended) := GroupSwept(d1, group, byId, group.consulates[n - 1], members, calendars);
          (d2, if ended.Crashed? then Crashed else Going)
  }

  /** A group with fewer than two members left to book is settled. */
  function GroupDone(d: Desk, group: Group, byId: ById, calendars: Calendars): (Desk, Status) {
    var members := Unbooked(d.booked, group.members);
    if |members| < 2 then (d, Going) else GroupTo(d, group, byId, members, calendars, |group.consulates|)
  }

  function GroupsTo(d: Desk, account: Account, calendars: Calendars, n: nat): (Desk, Status)
    requires n <= |account.groups|
  {
    if n == 0 then (d, Going)
    else
      var (d0, status) := GroupsTo(d, account, calendars, n - 1);
      if !status.Going? then (d0, status)
      else
        var (stop, d1) := StopCheck(d0);
        if stop then (d1, Stopped)
        else
          var (d2, ended) := GroupDone(d1, account.groups[n - 1], ByIdOf(account.applications), calendars);
          (d2, if ended.Crashed? then Crashed else Going)
  }

  function AppsTo(d: Desk, pending: seq<(Application, Schedule)>, calendars: Calendars, n: nat): (Desk, Status)
    requires n <= |pending|
  {
    if n == 0 then (d, Going)
    else
      var (d0, status) := AppsTo(d, pending, calendars, n - 1);
      if !status.Going? then (d0, status)
      else
        var (stop, d1) := StopCheck(d0);
        if stop then (d1, Stopped)
        else
          var (d2, ended) := AppSwept(d1, pending[n - 1].0, Some(pending[n - 1].1), calendars);
          (d2, if ended.Crashed? then Crashed else Going)
  }

  /** The booking phase of one account: its groups, then the applications still unbooked after them. */
  function Processed(d: Desk, account: Account, calendars: Calendars): (Desk, Status) {
    var (d0, status) := GroupsTo(d, account, calendars, |account.groups|);
    if !status.Going? then (d0, status)
    else
      var pending := Pending(d0.booked, account.applications);
      AppsTo(d0, pending, calendars, |pending|)
  }
}
