/** When a calendar is read twice in one booking phase, the second reading can book on a canary's word: a sweep and a
    site are constructed for every such pair of readings, so reading once is exactly what is needed. */
module BookingClash {
  import opened Basics
  import opened Calendar
  import opened Days
  import PlannerSpec
  import opened PlannerRuns
  import opened BorrowedRuns
  import opened FanOut
  import opened BookingSpec
  import opened BookingChoice
  import opened BookingGroups
  import opened BookingSources
  import opened BookingPhase
  import opened BookingBarren
  import opened BookingTurns
  import opened Subscriptions
  import opened BookingReads
  import opened BookingRuns

  // ---------------------------------------------------------------- the phase after it

  /** Before the phase: the answers just handed out, and a site with nothing to give. */
  ghost function Start(results: seq<PollResult>, w: World, n: nat): Desk {
    Desk(FannedBorrowed(map[], results), {}, [], {},
         Site([], seq(n, i => TimesAnswered(Some(w.offered))), [], seq(n, i => Fetched(Failures(w))), n))
  }

  lemma StartIsBarren(results: seq<PollResult>, w: World, n: nat)
    ensures Barren(Start(results, w, n), w, n) && JustFannedOut(Start(results, w, n), results)
  {
    hide FannedBorrowed, Failures;
  }

  /** A slot for `k` submitted in such a phase rests on the canary's word alone. */
  lemma SlotIsOnCanarysWord(account: Account, results: seq<PollResult>, k: Key, d: Desk)
    requires JustFannedOut(d, results) && SortedCalendars(FannedCalendars(results))
    requires forall r :: r in results ==> r.poller.Some?
    requires forall other :: !AnsweredWithoutCanary(results, k, other)
    requires var after := Processed(d, account, FannedCalendars(results)).0;
             Follows(d, after) && HasSlotAt(after.submitted, k)
    ensures !TrustsNoCanary(account, d, map[], results)
  {
    hide Processed, FannedCalendars, FannedBorrowed, AnsweredWithoutCanary, SortedCalendars;
    var after := Processed(d, account, FannedCalendars(results)).0;
    var slot :| slot in after.submitted && Key(slot.scheduleId, slot.facility) == k;
    var i :| 0 <= i < |after.submitted| && after.submitted[i] == slot;
    assert !GivenWithoutCanary(results, after.heard - d.heard, slot);
    assert Unread(account, d, FannedBorrowed(map[], results));
  }

  // ---------------------------------------------------------------- who can book

  ghost predicate AppCanBook(a: (Application, Schedule), day: Day) {
    Bookable(a.0.target, Some(a.1), day)
  }

  ghost predicate GroupCanBook(account: Account, g: Group, day: Day) {
    && |g.members| >= 2 && InWindow(g.target, day)
    && forall m :: m in g.members ==>
                     m in ByIdOf(account.applications) && MayMoveTo(ScheduleOf(ByIdOf(account.applications), m), day)
  }

  /** Everyone has some day it could book on: each application one of its own, each group one for all of its members. */
  ghost predicate EveryoneCanBook(account: Account) {
    && (forall a :: a in account.applications ==> exists day :: AppCanBook(a, day))
    && forall g :: g in account.groups ==> exists day :: GroupCanBook(account, g, day)
  }

  /** A calendar with both days on it. */
  function Both(x: Day, y: Day): seq<Day> {
    if x <= y then [x, y] else [y, x]
  }

  lemma BatchIs(calendars: Calendars, account: Account, fid: FacilityId, days: seq<Day>)
    requires BatchOf(account, calendars, fid, days) && Sorted(days)
    ensures OnlyKnown(calendars, ByIdOf(account.applications)) && SortedCalendars(calendars)
    ensures forall k :: k in calendars && k.facility != fid ==> calendars[k] == Some([])
  {
    hide Asked, ByIdOf;
    forall k | k in calendars
      ensures k.scheduleId in ByIdOf(account.applications)
    {
      AskedIsKnownTo(account, k);
    }
  }

  /** A group all of whose members are known has everyone's calendars asked for. */
  lemma GroupIsAsked(account: Account, g: Group, fid: FacilityId, m: ScheduleId)
    requires g in account.groups && fid in g.consulates && m in g.members && |g.members| >= 2
    requires forall x :: x in g.members ==> x in ByIdOf(account.applications)
    ensures Asked({}, account, Key(m, fid))
  {
    NoneBooked(g.members);
    ListedAre({}, ByIdOf(account.applications), g.members);
    hide ByIdOf;
    assert AskedTogether({}, ByIdOf(account.applications), g, Key(m, fid));
  }

  lemma GroupIsInBatch(account: Account, g: Group, calendars: Calendars, fid: FacilityId, days: seq<Day>, day: Day)
    requires BatchOf(account, calendars, fid, days) && g in account.groups && fid in g.consulates
    requires GroupCanBook(account, g, day)
    ensures SameDays(calendars, fid, g.members, days)
  {
    hide ByIdOf, Asked;
    forall m | m in g.members
      ensures Key(m, fid) in calendars && calendars[Key(m, fid)] == Some(days)
    {
      GroupIsAsked(account, g, fid, m);
    }
  }

  lemma GroupHasJoint(account: Account, g: Group, day: Day, days: seq<Day>)
    requires GroupCanBook(account, g, day) && day in days
    ensures JointDay(g, ByIdOf(account.applications), g.members, Copies(|g.members|, days), day)
    ensures Joint(g, ByIdOf(account.applications), g.members, Copies(|g.members|, days)) != []
  {
    hide InWindow, MayMoveTo, ByIdOf;
    JointExactly(g, ByIdOf(account.applications), g.members, Copies(|g.members|, days));
    assert day in Joint(g, ByIdOf(account.applications), g.members, Copies(|g.members|, days));
  }

  // ---------------------------------------------------------------- one reading by a group

  lemma SlotStays(d: Desk, e: Desk, k: Key)
    requires HasSlotAt(d.submitted, k) && Follows(d, e)
    ensures HasSlotAt(e.submitted, k)
  {
    var slot :| slot in d.submitted && Key(slot.scheduleId, slot.facility) == k;
    var i :| 0 <= i < |d.submitted| && d.submitted[i] == slot;
    assert e.submitted[i] == slot;
  }

  lemma BorrowsLess(d: Desk, e: Desk)
    requires Follows(d, e)
    ensures forall k :: k in e.borrowed ==> k in d.borrowed
  {
  }

  lemma NothingBorrowed(d: Desk, k: Key)
    requires (forall q :: q in d.borrowed ==> q == k) && k !in d.borrowed
    ensures d.borrowed == map[]
  {
    assert d.borrowed.Keys == {};
  }

  /** A reading of the calendar of `m` at `fid` by the group, with everyone's days in the batch. */
  ghost predicate Reads(account: Account, g: Group, calendars: Calendars, fid: FacilityId, days: seq<Day>,
                        m: ScheduleId) {
    && g in account.groups && fid in g.consulates && m in g.members
    && BatchOf(account, calendars, fid, days) && Sorted(days)
    && exists day :: day in days && GroupCanBook(account, g, day)
  }

  /** With nobody booked yet the group turns to this consulate for all of its members. */
  lemma EveryoneAtTheCheck(d: Desk, g: Group, byId: ById, calendars: Calendars, fid: FacilityId, w: World)
    returns (d1: Desk)
    requires d.booked == {} && fid in g.consulates && |g.members| >= 2
    requires OnlyKnown(calendars, byId) && Barren(d, w, GroupCost(g, |g.consulates|))
    ensures Follows(d, d1) && Barren(d1, w, 1 + 2 * |g.members|)
    ensures Follows(GroupSwept(d1, g, byId, fid, g.members, calendars).0, GroupDone(d, g, byId, calendars).0)
  {
    NoneBooked(g.members);
    hide GroupSwept, GroupDone, Barren, Follows, OnlyKnown, GroupCost, Unbooked;
    d1 := AtTheCheck(d, g, byId, calendars, fid, w);
  }

  /** What such a reading finds in the batch. */
  lemma ReadsInBatch(account: Account, g: Group, calendars: Calendars, fid: FacilityId, days: seq<Day>, m: ScheduleId)
    requires Reads(account, g, calendars, fid, days, m)
    ensures var byId := ByIdOf(account.applications);
            && OnlyKnown(calendars, byId) && SameDays(calendars, fid, g.members, days)
            && |g.members| >= 2 && fid in g.consulates && m in g.members && (forall x :: x in g.members ==> x in byId)
            && Joint(g, byId, g.members, Copies(|g.members|, days)) != []
            && exists day :: JointDay(g, byId, g.members, Copies(|g.members|, days), day)
  {
    var day :| day in days && GroupCanBook(account, g, day);
    hide ByIdOf, BatchOf, Joint, JointDay, SameDays, OnlyKnown;
    GroupHasJoint(account, g, day, days);
    BatchIs(calendars, account, fid, days);
    GroupIsInBatch(account, g, calendars, fid, days, day);
  }

  lemma GroupUsesItUp(d: Desk, account: Account, g: Group, calendars: Calendars, fid: FacilityId, days: seq<Day>,
                      m: ScheduleId, w: World)
    requires d.booked == {} && Reads(account, g, calendars, fid, days, m)
    requires Barren(d, w, GroupCost(g, |g.consulates|)) && forall k :: k in d.borrowed ==> k == Key(m, fid)
    ensures GroupDone(d, g, ByIdOf(account.applications), calendars).0.borrowed == map[]
  {
    hide *;
    var byId := ByIdOf(account.applications);
    ReadsInBatch(account, g, calendars, fid, days, m);
    var d1 := EveryoneAtTheCheck(d, g, byId, calendars, fid, w);
    BorrowsLess(d, d1);
    GroupUsesUp(d1, g, byId, fid, g.members, calendars, days, m, w);
    GroupDoneBarren(d, g, byId, calendars, w, 0);
    BorrowsLess(GroupSwept(d1, g, byId, fid, g.members, calendars).0, GroupDone(d, g, byId, calendars).0);
    BorrowsLess(d, GroupDone(d, g, byId, calendars).0);
    NothingBorrowed(GroupDone(d, g, byId, calendars).0, Key(m, fid));
  }

  lemma GroupBooksOnIt(d: Desk, account: Account, g: Group, calendars: Calendars, fid: FacilityId, days: seq<Day>,
                       m: ScheduleId, w: World)
    requires d.booked == {} && Reads(account, g, calendars, fid, days, m)
    requires Barren(d, w, GroupCost(g, |g.consulates|)) && d.borrowed == map[]
    requires |w.offered| >= g.minSlots && w.offered != []
    ensures HasSlotAt(GroupDone(d, g, ByIdOf(account.applications), calendars).0.submitted, Key(m, fid))
  {
    hide *;
    var byId := ByIdOf(account.applications);
    ReadsInBatch(account, g, calendars, fid, days, m);
    var d1 := EveryoneAtTheCheck(d, g, byId, calendars, fid, w);
    BorrowsLess(d, d1);
    NothingBorrowed(d1, Key(m, fid));
    GroupBooksOnBatch(d1, g, byId, fid, g.members, calendars, days, m, w);
    SlotStays(GroupSwept(d1, g, byId, fid, g.members, calendars).0, GroupDone(d, g, byId, calendars).0, Key(m, fid));
  }

  // ---------------------------------------------------------------- readers, and what they leave behind

  /** The calendar of `m` at `fid`, its days, and the batch it came in. */
  datatype Scene = Scene(m: ScheduleId, fid: FacilityId, days: seq<Day>, w: World)

  function KeyOf(sc: Scene): Key {
    Key(sc.m, sc.fid)
  }

  ghost predicate Staged(account: Account, calendars: Calendars, sc: Scene) {
    BatchOf(account, calendars, sc.fid, sc.days) && Sorted(sc.days) && Asked({}, account, KeyOf(sc))
  }

  /** A group that can book on one of the scene's days. */
  ghost predicate GroupReads(account: Account, i: nat, sc: Scene) {
    && i < |account.groups| && sc.fid in account.groups[i].consulates && sc.m in account.groups[i].members
    && exists day :: day in sc.days && GroupCanBook(account, account.groups[i], day)
  }

  /** An application that can. */
  ghost predicate AppReads(account: Account, i: nat, sc: Scene) {
    && i < |account.applications| && account.applications[i].0.scheduleId == sc.m
    && sc.fid in account.applications[i].0.target.consulates
    && exists day :: day in sc.days && AppCanBook(account.applications[i], day)
  }

  lemma GroupReaderUsesUp(d: Desk, account: Account, calendars: Calendars, i: nat, n: nat, sc: Scene)
    requires d.booked == {} && Staged(account, calendars, sc) && GroupReads(account, i, sc) && i < n <= |account.groups|
    requires Barren(d, sc.w, GroupsCost(account.groups, n)) && forall k :: k in d.borrowed ==> k == KeyOf(sc)
    ensures GroupsTo(d, account, calendars, n).0.borrowed == map[]
  {
    var g := account.groups[i];
    var day :| day in sc.days && GroupCanBook(account, g, day);
    BatchIs(calendars, account, sc.fid, sc.days);
    assert Reads(account, g, calendars, sc.fid, sc.days, sc.m);
    hide GroupsTo, GroupDone, ByIdOf, BatchOf, Barren, GroupsCost, GroupCost, OnlyKnown, GroupCanBook, Reads, Staged,
         GroupReads;
    var d1 := AtTheGroup(d, account, calendars, i, n, sc.w);
    GroupUsesItUp(d1, account, g, calendars, sc.fid, sc.days, sc.m, sc.w);
    NothingBorrowed(GroupsTo(d, account, calendars, n).0, KeyOf(sc));
  }

  lemma GroupReaderBooks(d: Desk, account: Account, calendars: Calendars, j: nat, n: nat, sc: Scene)
    requires d.booked == {} && Staged(account, calendars, sc) && GroupReads(account, j, sc) && j < n <= |account.groups|
    requires Barren(d, sc.w, GroupsCost(account.groups, n)) && GroupsTo(d, account, calendars, j).0.borrowed == map[]
    requires |sc.w.offered| >= account.groups[j].minSlots && sc.w.offered != []
    ensures HasSlotAt(GroupsTo(d, account, calendars, n).0.submitted, KeyOf(sc))
  {
    var g := account.groups[j];
    var day :| day in sc.days && GroupCanBook(account, g, day);
    BatchIs(calendars, account, sc.fid, sc.days);
    assert Reads(account, g, calendars, sc.fid, sc.days, sc.m);
    hide GroupsTo, GroupDone, ByIdOf, BatchOf, Barren, GroupsCost, GroupCost, OnlyKnown, GroupCanBook, Reads, Staged,
         GroupReads;
    var d1 := AtTheGroup(d, account, calendars, j, n, sc.w);
    NothingBorrowed(d1, KeyOf(sc));
    GroupBooksOnIt(d1, account, g, calendars, sc.fid, sc.days, sc.m, sc.w);
    SlotStays(GroupDone(d1, g, ByIdOf(account.applications), calendars).0, GroupsTo(d, account, calendars, n).0,
              KeyOf(sc));
  }

  lemma BookableIsAHit(a: (Application, Schedule), days: seq<Day>, day: Day)
    requires day in days && AppCanBook(a, day)
    ensures Hit(a.0.target, Some(a.1), Some(days)) && HasBookable(a.0, Some(a.1), Some(days))
  {
    AcceptableExactly(a.0.target, Some(a.1), day);
  }

  lemma AppReaderUsesUp(d: Desk, account: Account, calendars: Calendars, i: nat, n: nat, sc: Scene)
    requires Staged(account, calendars, sc) && AppReads(account, i, sc) && i < n <= |account.applications|
    requires Barren(d, sc.w, AppsCost(account.applications, n)) && forall k :: k in d.borrowed ==> k == KeyOf(sc)
    ensures AppsTo(d, account.applications, calendars, n).0.borrowed == map[]
  {
    var apps := account.applications;
    var day :| day in sc.days && AppCanBook(apps[i], day);
    BookableIsAHit(apps[i], sc.days, day);
    assert KeyOf(sc) in calendars && calendars[KeyOf(sc)] == Some(sc.days);
    hide AppsTo, AppSwept, BatchOf, Barren, AppsCost, Hit, HasBookable, ByIdOf, SortedCalendars, Staged, AppReads;
    var d1 := AtTheApp(d, apps, calendars, i, n, sc.w);
    AppUsesUp(d1, apps[i].0, Some(apps[i].1), calendars, sc.fid, sc.w);
    AppsToBarren(d, apps, calendars, n, sc.w, 0);
    NothingBorrowed(AppsTo(d, apps, calendars, n).0, KeyOf(sc));
  }

  lemma AppReaderBooks(d: Desk, account: Account, calendars: Calendars, j: nat, n: nat, sc: Scene)
    requires Staged(account, calendars, sc) && AppReads(account, j, sc) && j < n <= |account.applications|
    requires Barren(d, sc.w, AppsCost(account.applications, n))
    requires AppsTo(d, account.applications, calendars, j).0.borrowed == map[]
    ensures HasSlotAt(AppsTo(d, account.applications, calendars, n).0.submitted, KeyOf(sc))
  {
    var apps := account.applications;
    var day :| day in sc.days && AppCanBook(apps[j], day);
    BookableIsAHit(apps[j], sc.days, day);
    BatchIs(calendars, account, sc.fid, sc.days);
    assert KeyOf(sc) in calendars && calendars[KeyOf(sc)] == Some(sc.days);
    hide AppsTo, AppSwept, BatchOf, Barren, AppsCost, Hit, HasBookable, ByIdOf, SortedCalendars, Staged, AppReads;
    var d1 := AtTheApp(d, apps, calendars, j, n, sc.w);
    assert KeyOf(sc) !in d1.borrowed;
    AppBooksOnBatch(d1, apps[j].0, Some(apps[j].1), calendars, sc.fid, sc.w);
    SlotStays(AppSwept(d1, apps[j].0, Some(apps[j].1), calendars).0, AppsTo(d, apps, calendars, n).0, KeyOf(sc));
  }

  // ---------------------------------------------------------------- any two readers

  /** Whoever reads calendars in the phase, in its order: the groups, then the applications. */
  datatype Reader = TheGroup(i: nat) | TheApp(i: nat)

  predicate IsReader(account: Account, r: Reader) {
    match r
    case TheGroup(i) => i < |account.groups|
    case TheApp(i) => i < |account.applications|
  }

  predicate Earlier(r: Reader, s: Reader) {
    match r
    case TheGroup(i) => s.TheApp? || i < s.i
    case TheApp(i) => s.TheApp? && i < s.i
  }

  function KeysRead(account: Account, r: Reader): set<Key>
    requires IsReader(account, r)
  {
    match r
    case TheGroup(i) => GroupKeys(account.groups[i].members, account.groups[i].consulates)
    case TheApp(i) => AppKeys(account.applications[i].0.scheduleId, account.applications[i].0.target.consulates)
  }

  ghost predicate CanBookOn(account: Account, r: Reader, day: Day)
    requires IsReader(account, r)
  {
    match r
    case TheGroup(i) => GroupCanBook(account, account.groups[i], day)
    case TheApp(i) => AppCanBook(account.applications[i], day)
  }

  /** Distinct times, enough of them. */
  function Offer(n: nat): (offered: seq<Time>)
    ensures |offered| == n + 1 && NoDup(offered)
  {
    seq(n + 1, i requires 0 <= i => seq(i + 1, j => '0'))
  }

  /** The scene of two readers of `k`: everyone is given the same two days, one for each of them. */
  function SceneOf(account: Account, k: Key, x: Day, y: Day, minSlots: nat): Scene {
    Scene(k.scheduleId, k.facility, Both(x, y), World(AllGroupKeys(account.groups), Offer(minSlots)))
  }

  lemma SceneIsStaged(account: Account, calendars: Calendars, k: Key, x: Day, y: Day, minSlots: nat)
    requires Asked({}, account, k) && BatchOf(account, calendars, k.facility, Both(x, y))
    ensures var sc := SceneOf(account, k, x, y, minSlots);
            && KeyOf(sc) == k && Staged(account, calendars, sc) && x in sc.days && y in sc.days
            && sc.w == World(AllGroupKeys(account.groups), Offer(minSlots)) && SortedCalendars(calendars)
  {
    hide Asked;
  }

  /** A reader of the scene's key can act on the scene. */
  lemma ReaderReads(account: Account, sc: Scene, r: Reader, day: Day)
    requires IsReader(account, r) && KeyOf(sc) in KeysRead(account, r) && CanBookOn(account, r, day) && day in sc.days
    ensures if r.TheGroup? then GroupReads(account, r.i, sc) else AppReads(account, r.i, sc)
  {
    hide ByIdOf;
  }

  /** The second reader's slot is submitted, on the batch the first one found borrowed and gone. */
  lemma SecondReaderBooks(account: Account, calendars: Calendars, d: Desk, sc: Scene, r: Reader, s: Reader)
    requires IsReader(account, r) && IsReader(account, s) && Earlier(r, s)
    requires d.booked == {} && Staged(account, calendars, sc) && Barren(d, sc.w, PhaseCost({}, account))
    requires forall q :: q in d.borrowed ==> q == KeyOf(sc)
    requires if r.TheGroup? then GroupReads(account, r.i, sc) else AppReads(account, r.i, sc)
    requires if s.TheGroup? then GroupReads(account, s.i, sc) else AppReads(account, s.i, sc)
    requires sc.w.offered != [] && (s.TheGroup? ==> |sc.w.offered| >= account.groups[s.i].minSlots)
    ensures Follows(d, Processed(d, account, calendars).0)
    ensures HasSlotAt(Processed(d, account, calendars).0.submitted, KeyOf(sc))
  {
    var groups, apps := account.groups, account.applications;
    BatchIs(calendars, account, sc.fid, sc.days);
    hide GroupsTo, AppsTo, ByIdOf, Processed, Barren, GroupsCost, AppsCost, Staged, GroupReads, AppReads, BatchOf,
         OnlyKnown;
    NobodyLeftOut(apps);
    PhaseBarren(d, account, calendars, sc.w);
    assert Barren(d, sc.w, GroupsCost(groups, |groups|)) by {
      Fewer(d, sc.w, PhaseCost({}, account), GroupsCost(groups, |groups|));
    }
    var d0 := GroupsTo(d, account, calendars, |groups|).0;
    var after := Processed(d, account, calendars).0;
    FollowsTwice(d, d0, after);
    if s.TheGroup? {
      GroupsThenGroup(account, calendars, d, sc, r.i, s.i);
      SlotStays(d0, after, KeyOf(sc));
    } else {
      if r.TheGroup? {
        GroupReaderUsesUp(d, account, calendars, r.i, |groups|, sc);
        AppsToStart(d0, apps, calendars, s.i, sc.w);
        NothingBorrowed(AppsTo(d0, apps, calendars, s.i).0, KeyOf(sc));
      } else {
        AppsCostGrows(apps, s.i, |apps|);
        Fewer(d0, sc.w, AppsCost(apps, |apps|), AppsCost(apps, s.i));
        AppReaderUsesUp(d0, account, calendars, r.i, s.i, sc);
      }
      AppReaderBooks(d0, account, calendars, s.i, |apps|, sc);
    }
  }

  lemma GroupsThenGroup(account: Account, calendars: Calendars, d: Desk, sc: Scene, i: nat, j: nat)
    requires i < j < |account.groups| && d.booked == {} && Staged(account, calendars, sc)
    requires Barren(d, sc.w, GroupsCost(account.groups, |account.groups|))
             && forall q :: q in d.borrowed ==> q == KeyOf(sc)
    requires GroupReads(account, i, sc) && GroupReads(account, j, sc)
    requires sc.w.offered != [] && |sc.w.offered| >= account.groups[j].minSlots
    ensures HasSlotAt(GroupsTo(d, account, calendars, |account.groups|).0.submitted, KeyOf(sc))
  {
    var n := |account.groups|;
    hide GroupsTo, Barren, GroupsCost, Staged, GroupReads;
    GroupsCostGrows(account.groups, j, n);
    Fewer(d, sc.w, GroupsCost(account.groups, n), GroupsCost(account.groups, j));
    GroupReaderUsesUp(d, account, calendars, i, j, sc);
    GroupReaderBooks(d, account, calendars, j, n, sc);
  }

  /** The second reader books on the canary's word in a phase right after a sweep. */
  ghost predicate BooksOnACanary(account: Account, steps: seq<Step>, d: Desk) {
    && SweptFor(PlannerSpec.Policy(true, 10), steps, {}, account) && AtAnHonestSite(steps)
    && JustFannedOut(d, LastRound(steps))
    && !TrustsNoCanary(account, d, map[], LastRound(steps))
  }

  /** Whenever two readers of one calendar can each book on some day, there are a run of the planner at an honest
      site, ending with a sweep in which no request fails, and replies to the phase after it, for which the second one
      books on a canary's word. */
  lemma TwoReadersClash(account: Account, r: Reader, s: Reader, k: Key, x: Day, y: Day)
    requires IsReader(account, r) && IsReader(account, s) && Earlier(r, s)
    requires k in KeysRead(account, r) && k in KeysRead(account, s)
    requires CanBookOn(account, r, x) && CanBookOn(account, s, y)
    ensures exists steps, d :: BooksOnACanary(account, steps, d)
  {
    hide Asked, KeysRead, CanBookOn, ByIdOf, CastFor, SecondSweep, PhaseCost, AllGroupKeys;
    ReaderIsAsked(account, s, k, y);
    var minSlots := if s.TheGroup? then account.groups[s.i].minSlots else 0;
    var sc := SceneOf(account, k, x, y, minSlots);
    var cast := CastFor(account, k, Both(x, y));
    var results := SecondSweep(cast).results;
    var d := Start(results, sc.w, PhaseCost({}, account));
    assert Both(x, y) != [];
    hide *;
    CastIsSwept(account, k, Both(x, y));
    CastHandsOut(account, k, Both(x, y));
    SceneIsStaged(account, FannedCalendars(results), k, x, y, minSlots);
    StartIsBarren(results, sc.w, PhaseCost({}, account));
    OnlyOneIsBorrowed(d, results, k);
    ReaderReads(account, sc, r, x);
    ReaderReads(account, sc, s, y);
    SecondReaderBooks(account, FannedCalendars(results), d, sc, r, s);
    SlotIsOnCanarysWord(account, results, k, d);
    ItIsShown(account, cast, d);
  }

  lemma ItIsShown(account: Account, cast: Cast, d: Desk)
    requires SweptFor(PlannerSpec.Policy(true, 10), TwoSweeps(cast), {}, account) && AtAnHonestSite(TwoSweeps(cast))
    requires JustFannedOut(d, SecondSweep(cast).results)
             && !TrustsNoCanary(account, d, map[], SecondSweep(cast).results)
    ensures BooksOnACanary(account, TwoSweeps(cast), d)
  {
    LastIsSecond(cast);
    hide SweptFor, JustFannedOut, TrustsNoCanary, SecondSweep, FirstSweep, AtAnHonestSite;
  }

  lemma OnlyOneIsBorrowed(d: Desk, results: seq<PollResult>, k: Key)
    requires JustFannedOut(d, results) && forall q :: q in FannedBorrowed(map[], results) ==> q == k
    ensures d.booked == {} && forall q :: q in d.borrowed ==> q == k
  {
    hide FannedBorrowed;
  }

  lemma ReaderIsAsked(account: Account, s: Reader, k: Key, day: Day)
    requires IsReader(account, s) && k in KeysRead(account, s) && CanBookOn(account, s, day)
    ensures Asked({}, account, k)
  {
    hide ByIdOf, Listed;
    if s.TheApp? {
      assert account.applications[s.i] in account.applications;
      assert AskedAlone({}, account.applications[s.i], k);
    } else {
      assert account.groups[s.i] in account.groups;
      GroupIsAsked(account, account.groups[s.i], k.facility, k.scheduleId);
    }
  }

  // ---------------------------------------------------------------- the exact condition

  /** Every list is as the configuration leaves it: without repeats. */
  ghost predicate NoRepeats(account: Account) {
    && (forall g :: g in account.groups ==> NoDup(g.consulates) && NoDup(g.members))
    && forall a :: a in account.applications ==> NoDup(a.0.target.consulates)
  }

  /** Reading once is everyone reading their own calendars. */
  lemma ReadOnceMeansApart(account: Account)
    requires NoRepeats(account)
    ensures ReadOnce(account) <==>
            forall r, s :: IsReader(account, r) && IsReader(account, s) && Earlier(r, s) ==>
                             KeysRead(account, r) !! KeysRead(account, s)
  {
    hide GroupKeys, AppKeys, NoDup;
    if forall r, s ::
         IsReader(account, r) && IsReader(account, s) && Earlier(r, s) ==>
           KeysRead(account, r) !! KeysRead(account, s) {
      forall i, j | 0 <= i < j < |account.groups|
        ensures GroupKeys(account.groups[i].members, account.groups[i].consulates)
                !! GroupKeys(account.groups[j].members, account.groups[j].consulates)
      {
        assert KeysRead(account, TheGroup(i)) !! KeysRead(account, TheGroup(j));
      }
      forall i, j | 0 <= i < j < |account.applications|
        ensures AppKeys(account.applications[i].0.scheduleId, account.applications[i].0.target.consulates)
                !! AppKeys(account.applications[j].0.scheduleId, account.applications[j].0.target.consulates)
      {
        assert KeysRead(account, TheApp(i)) !! KeysRead(account, TheApp(j));
      }
      forall g, a | g in account.groups && a in account.applications
        ensures GroupKeys(g.members, g.consulates) !! AppKeys(a.0.scheduleId, a.0.target.consulates)
      {
        var i :| 0 <= i < |account.groups| && account.groups[i] == g;
        var j :| 0 <= j < |account.applications| && account.applications[j] == a;
        assert KeysRead(account, TheGroup(i)) !! KeysRead(account, TheApp(j));
      }
    }
  }

  lemma ReaderCanBook(account: Account, r: Reader)
    requires EveryoneCanBook(account) && IsReader(account, r)
    ensures exists day :: CanBookOn(account, r, day)
  {
    hide GroupCanBook, AppCanBook;
    if r.TheGroup? {
      assert account.groups[r.i] in account.groups;
      var day :| GroupCanBook(account, account.groups[r.i], day);
      assert CanBookOn(account, r, day);
    } else {
      assert account.applications[r.i] in account.applications;
      var day :| AppCanBook(account.applications[r.i], day);
      assert CanBookOn(account, r, day);
    }
  }

  /** In no phase after any sweep of any run is a slot submitted on a canary's word. */
  ghost predicate NeverOnACanarysWord(account: Account) {
    forall policy, steps, d: Desk, borrowed :: SweptFor(policy, steps, d.booked, account) ==>
                                                 TrustsNoCanary(account, d, borrowed, LastRound(steps))
  }

  /** Reading every calendar once is what it takes: where everyone has some day to book on, no slot is ever submitted on
      a canary's word, whatever the runs of sweeps answered and the site replies, if and only if no calendar is read
      twice. */
  lemma TrustsNoCanaryExactly(account: Account)
    requires NoRepeats(account) && EveryoneCanBook(account)
    ensures NeverOnACanarysWord(account) <==> ReadOnce(account)
  {
    hide TrustsNoCanary, KeysRead, CanBookOn, EveryoneCanBook, NoRepeats, LegalRun, Subscribes;
    if ReadOnce(account) {
      hide ReadOnce;
      forall policy, steps, d: Desk, borrowed | SweptFor(policy, steps, d.booked, account)
        ensures TrustsNoCanary(account, d, borrowed, LastRound(steps))
      {
        NoSlotOnACanarysWord(account, d, borrowed, LastRound(steps));
      }
    } else {
      ReadOnceMeansApart(account);
      hide ReadOnce;
      var r, s :| IsReader(account, r) && IsReader(account, s) && Earlier(r, s)
                  && !(KeysRead(account, r) !! KeysRead(account, s));
      var k :| k in KeysRead(account, r) && k in KeysRead(account, s);
      ReaderCanBook(account, r);
      ReaderCanBook(account, s);
      var x :| CanBookOn(account, r, x);
      var y :| CanBookOn(account, s, y);
      TwoReadersClash(account, r, s, k, x, y);
      var steps, d :| BooksOnACanary(account, steps, d);
      assert d.booked == {};
    }
  }
}
