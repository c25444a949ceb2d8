/** Two groups sharing two members and a consulate: the configuration accepts them, and the second one books on a
    canary's word although both members' own calendars have just been found empty.  And one application listed twice. */
module BookingExample {
  import opened Basics
  import opened Calendar
  import opened Days
  import opened FanOut
  import opened BookingSpec
  import opened BookingChoice
  import opened BookingGroups
  import opened BookingSources
  import opened BookingPhase
  import opened PlannerSpec
  import opened PlannerRuns
  import opened PlannerAnchors
  import opened PlannerChanges
  import opened BorrowedRuns
  import opened BookingBarren
  import opened BookingRuns
  import opened BookingClash
  import opened BookingConfig
  import opened Subscriptions

  /** Any day will do, at this one consulate. */
  function AnyDayAt(fid: FacilityId): Target {
    Target([fid], None, None, [], true)
  }

  const FRESH := Schedule(None, false)
  const PAIR := Group([1, 2], [7], AnyDayAt(7), 2)

  /** Both members also watch a consulate of their own. */
  const LISTED := [Application(1, None, AnyDayAt(9)), Application(2, None, AnyDayAt(9))]
  const TWINS := Account(0, [(LISTED[0], FRESH), (LISTED[1], FRESH)], [PAIR, PAIR])

  /** The program can be given this account, and its groups overlap. */
  lemma TwinsAreAccepted()
    ensures TWINS == AccountOf(0, LISTED, map[1 := FRESH, 2 := FRESH], [PAIR, PAIR])
    ensures ConfigAccepts(LISTED, TWINS.groups) && DistinctIds(LISTED) && !GroupsApart(TWINS.groups)
  {
    assert LISTED[..1] == [LISTED[0]] && LISTED[..1][..0] == [];
    assert Actionable(LISTED[..1], map[1 := FRESH, 2 := FRESH]) == [(LISTED[0], FRESH)];
    assert Actionable(LISTED, map[1 := FRESH, 2 := FRESH]) == TWINS.applications;
    assert EntryOf(LISTED[..1], 1) == Some(LISTED[0]);
    assert 1 in PAIR.members && 7 in PAIR.consulates && TWINS.groups[0] == TWINS.groups[1] == PAIR;
  }

  /** One application listed twice, which the configuration accepts as well: nobody is in a group, and there are a run
      and a site for which it is booked on a canary's word. */
  lemma EntryListedTwiceTrustsTheCanary()
    ensures var configured := [LISTED[0], LISTED[0]];
            var account := AccountOf(0, configured, map[1 := FRESH], []);
            ConfigAccepts(configured, []) && exists steps, d :: BooksOnACanary(account, steps, d)
  {
    var configured := [LISTED[0], LISTED[0]];
    var account := AccountOf(0, configured, map[1 := FRESH], []);
    BothEntriesCount();
    BothEntriesRead(account);
    hide *;
    TwoReadersClash(account, TheApp(0), TheApp(1), Key(1, 9), 5, 5);
  }

  lemma BothEntriesCount()
    ensures Actionable([LISTED[0], LISTED[0]], map[1 := FRESH]) == [(LISTED[0], FRESH), (LISTED[0], FRESH)]
  {
    var configured := [LISTED[0], LISTED[0]];
    assert configured[..1] == [LISTED[0]] && configured[..1][..0] == [];
    assert Actionable(configured[..1], map[1 := FRESH]) == [(LISTED[0], FRESH)];
  }

  lemma BothEntriesRead(account: Account)
    requires account.applications == [(LISTED[0], FRESH), (LISTED[0], FRESH)]
    ensures IsReader(account, TheApp(0)) && IsReader(account, TheApp(1)) && Earlier(TheApp(0), TheApp(1))
    ensures Key(1, 9) in KeysRead(account, TheApp(0)) && Key(1, 9) in KeysRead(account, TheApp(1))
    ensures CanBookOn(account, TheApp(0), 5) && CanBookOn(account, TheApp(1), 5)
  {
  }

  const CANARY := Poller(1, 99, None, true)

  /** At consulate 7 both members come to share a calendar with the canary; at 9 there is nothing. */
  const CAST := Cast([Subscription(0, 1, 7, None), Subscription(0, 2, 7, None)],
                     [Subscription(0, 1, 9, None), Subscription(0, 2, 9, None)], 7, CANARY, [5])

  /** What the canary answers for both of them in the second sweep. */
  const ANSWER := PollResult(PollView(7, [CANARY, Poller(0, 1, None, false), Poller(0, 2, None, false)], [1, 2], Shared,
                                      NoLabel), Some(CANARY), Some([5]), Some("a"))

  /** As handed out after it. */
  ghost predicate Given(calendars: Calendars) {
    && Key(1, 7) in calendars && calendars[Key(1, 7)] == Some([5])
    && Key(2, 7) in calendars && calendars[Key(2, 7)] == Some([5])
    && Key(1, 9) in calendars && calendars[Key(1, 9)] == Some([])
    && Key(2, 9) in calendars && calendars[Key(2, 9)] == Some([])
  }

  const TIMES := TimesAnswered(Some(["08:00", "09:00"]))

  function SiteAfter(days: nat, times: nat, patience: nat): Site {
    Site(seq(days, i => Answered(Some([]))), seq(times, i => TIMES), [], [], patience)
  }

  /** Before the phase: both entries borrowed; the members' own calendars are empty. */
  const BEFORE := Desk(map[Key(1, 7) := 99, Key(2, 7) := 99], {}, [], {}, SiteAfter(2, 2, 50))
  const HEARD: set<(Key, Option<seq<Day>>)> := {(Key(1, 7), Some([])), (Key(2, 7), Some([]))}
  const BETWEEN := Desk(map[], {}, [], HEARD, SiteAfter(0, 2, 47))

  lemma CastIsOk()
    ensures CastOk(CAST)
    ensures Everyone(CAST) == [Subscription(0, 1, 7, None), Subscription(0, 2, 7, None), Subscription(0, 1, 9, None),
                               Subscription(0, 2, 9, None)]
  {
    assert Everyone(CAST) == [Subscription(0, 1, 7, None), Subscription(0, 2, 7, None), Subscription(0, 1, 9, None),
                              Subscription(0, 2, 9, None)];
  }

  lemma WhoIsAsked(k: Key)
    ensures AskedBy(CAST.mine, k) <==> k == Key(1, 7) || k == Key(2, 7)
    ensures AskedBy(Everyone(CAST), k) <==> k == Key(1, 7) || k == Key(2, 7) || k == Key(1, 9) || k == Key(2, 9)
  {
    CastIsOk();
    var all := Everyone(CAST);
    assert CAST.mine[0].KeyOf() == Key(1, 7) && CAST.mine[1].KeyOf() == Key(2, 7);
    assert all[0].KeyOf() == Key(1, 7) && all[1].KeyOf() == Key(2, 7) && all[2].KeyOf() == Key(1, 9);
    assert all[3].KeyOf() == Key(2, 9);
  }

  /** The answers handed out make these entries, two of them borrowed. */
  lemma HandedOut(results: seq<PollResult>)
    requires results == SecondSweep(CAST).results
    ensures Given(FannedCalendars(results)) && FannedBorrowed(map[], results) == BEFORE.borrowed
    ensures SortedCalendars(FannedCalendars(results)) && forall r :: r in results ==> r.poller.Some?
    ensures forall k, days :: k == Key(1, 7) || k == Key(2, 7) ==> !AnsweredWithoutCanary(results, k, days)
  {
    CastIsOk();
    LastIsSecond(CAST);
    hide CastOk, Everyone, AskedBy, SecondSweep, FannedCalendars, FannedBorrowed;
    forall k
      ensures k in FannedCalendars(results) <==> k == Key(1, 7) || k == Key(2, 7) || k == Key(1, 9) || k == Key(2, 9)
      ensures k in FannedCalendars(results) ==>
                FannedCalendars(results)[k] == Some(if k.facility == 7 then [5] else [])
      ensures k in FannedBorrowed(map[], results) <==> k == Key(1, 7) || k == Key(2, 7)
      ensures k in FannedBorrowed(map[], results) ==> FannedBorrowed(map[], results)[k] == 99
      ensures k == Key(1, 7) || k == Key(2, 7) ==>
                forall r :: r in results && Covers(r.poll, k) ==> FromCanary(r, k)
    {
      FannedOut(CAST, k);
      WhoIsAsked(k);
    }
    var borrowed := FannedBorrowed(map[], results);
    assert borrowed == BEFORE.borrowed;
  }

  lemma TwinsAsk(k: Key)
    ensures Asked({}, TWINS, k) <==> AskedBy(Everyone(CAST), k)
  {
    WhoIsAsked(k);
    ByIdIs();
    BothAreListed();
    var apps := TWINS.applications;
    assert apps[0] in apps && apps[1] in apps && TWINS.groups[0] in TWINS.groups;
    hide ByIdOf, Listed;
    assert AskedAlone({}, apps[0], k) <==> k == Key(1, 9);
    assert AskedAlone({}, apps[1], k) <==> k == Key(2, 9);
    assert AskedTogether({}, map[1 := FRESH, 2 := FRESH], PAIR, k) <==> k == Key(1, 7) || k == Key(2, 7);
  }

  lemma BothAreListed()
    ensures Listed({}, map[1 := FRESH, 2 := FRESH], [1, 2]) == [1, 2]
  {
    assert [1, 2][..1] == [1] && [1][..0] == [];
    assert Listed({}, map[1 := FRESH, 2 := FRESH], [1]) == [1];
  }

  lemma TwinsSubscribe()
    ensures Subscribes({}, TWINS, SeqSet(Everyone(CAST)))
  {
    CastIsOk();
    var subs := SeqSet(Everyone(CAST));
    assert TWINS.applications[0] in TWINS.applications && TWINS.applications[1] in TWINS.applications;
    assert forall s :: s in subs ==> Declares(TWINS, s);
    hide Asked, CastOk, Declares, Everyone;
    forall k
      ensures Asked({}, TWINS, k) <==> exists s :: s in subs && s.KeyOf() == k
    {
      TwinsAsk(k);
    }
  }

  lemma AnswerIsFirst()
    ensures |SecondSweep(CAST).results| > 0 && SecondSweep(CAST).results[0] == ANSWER
  {
    SecondPollIs(CAST, 0);
    assert IdsOf(CAST.mine) == [1, 2] && PollersOf(CAST.mine) == [Poller(0, 1, None, false), Poller(0, 2, None, false)];
    assert ClassRequest(CAST) == ANSWER.poll;
    hide Everyone, SecondPolls;
    assert SecondSweep(CAST).results[0] == SecondReply(CAST, ANSWER.poll);
  }

  /** The run is one the program can be in with this account. */
  lemma TwinsAreSwept()
    ensures SweptFor(Policy(true, 10), TwoSweeps(CAST), {}, TWINS) && AtAnHonestSite(TwoSweeps(CAST))
  {
    CastIsOk();
    TwoSweepsAreLegal(CAST);
    TwoSweepsAreHonest(CAST);
    EveryoneDiffers(CAST);
    AllCameBack(CAST);
    TwinsSubscribe();
    hide Subscribes, LegalRun, HonestLog, CastOk, CanariesDiffer, CanariesApart, Everyone;
  }

  lemma ByIdIs()
    ensures ByIdOf(TWINS.applications) == map[1 := FRESH, 2 := FRESH]
  {
    var apps := TWINS.applications;
    assert apps[..1] == [apps[0]];
    assert apps[..1][..0] == [];
    assert ByIdOf([]) == map[];
    assert ByIdOf(apps[..1]) == map[1 := FRESH];
    assert apps[1] == (LISTED[1], FRESH);
  }

  lemma JointIs(days: seq<Day>)
    requires days == [] || days == [5]
    ensures Joint(PAIR, map[1 := FRESH, 2 := FRESH], [1, 2], [days, days]) == days
  {
    var byId: ById := map[1 := FRESH, 2 := FRESH];
    var all := set d | d in days;
    forall d
      ensures d in all <==> JointDay(PAIR, byId, [1, 2], [days, days], d)
    {
      assert MayMoveTo(ScheduleOf(byId, 1), d) && MayMoveTo(ScheduleOf(byId, 2), d);
      assert [days, days][0] == days;
    }
    JointIsAscending(PAIR, byId, [1, 2], [days, days], all);
    assert all == if days == [] then {} else {5};
    assert {5} - {5} == {};
  }

  lemma SharedIs(d: Desk, calendars: Calendars, p: nat)
    requires d.site.patience == p + 2 && Given(calendars)
    ensures SharedDays(d, 7, [1, 2], calendars, 2) == Reading([[5], [5]], d.(site := d.site.(patience := p)), Going)
  {
    var d1 := d.(site := d.site.(patience := p + 1));
    assert SharedDays(d, 7, [1, 2], calendars, 1) == Reading([[5]], d1, Going);
  }

  lemma AsksEmpty(d: Desk, k: Key, left: nat, times: nat, patience: nat)
    requires d.site == SiteAfter(left + 1, times, patience)
    ensures AskDays(d, k)
              == (Answered(Some([])), d.(heard := d.heard + {(k, Some([]))}, site := SiteAfter(left, times, patience)))
  {
    assert d.site.days[0] == Answered(Some([]));
    assert d.site.days[1..] == SiteAfter(left, times, patience).days;
    assert SortDays([]) == [];
  }

  lemma BothConfirmEmpty(desk: Desk)
    requires desk == BEFORE.(site := SiteAfter(2, 2, 46))
    ensures ConfirmAll(desk, 7, [1, 2], [[5], [5]], 2)
              == Reading([[], []], BETWEEN.(site := SiteAfter(0, 2, 46)), Going)
  {
    var shared: seq<seq<Day>> := [[5], [5]];
    var one := Desk(map[Key(2, 7) := 99], {}, [], {(Key(1, 7), Some([]))}, SiteAfter(1, 2, 46));
    var two := BETWEEN.(site := SiteAfter(0, 2, 46));
    assert desk.borrowed - {Key(1, 7)} == one.borrowed;
    assert desk.heard + {(Key(1, 7), Some([]))} == one.heard;
    AsksEmpty(desk.(borrowed := one.borrowed), Key(1, 7), 1, 2, 46);
    assert one.borrowed - {Key(2, 7)} == map[];
    assert one.heard + {(Key(2, 7), Some([]))} == two.heard;
    AsksEmpty(one.(borrowed := map[]), Key(2, 7), 0, 2, 46);
    hide AskDays, SiteAfter;
    assert Confirm(desk, Key(1, 7), Some([5])) == (Answered(Some([])), one);
    assert Confirm(one, Key(2, 7), Some([5])) == (Answered(Some([])), two);
    hide Confirm;
    assert ConfirmAll(desk, 7, [1, 2], shared, 0) == Reading([], desk, Going);
    assert ConfirmAll(desk, 7, [1, 2], shared, 1) == Reading([[]], one, Going);
  }

  /** The first group reads both members' own calendars, finds them empty and gives up. */
  lemma FirstGroup(calendars: Calendars)
    requires Given(calendars)
    ensures GroupSwept(StopCheck(StopCheck(BEFORE).1).1, PAIR, map[1 := FRESH, 2 := FRESH], 7, [1, 2], calendars)
            == (BETWEEN.(site := SiteAfter(0, 2, 46)), Going)
  {
    var byId: ById := map[1 := FRESH, 2 := FRESH];
    var d := BEFORE.(site := SiteAfter(2, 2, 48));
    assert StopCheck(StopCheck(BEFORE).1).1 == d;
    SharedIs(d, calendars, 46);
    JointIs([5]);
    JointIs([]);
    var desk := BEFORE.(site := SiteAfter(2, 2, 46));
    BothConfirmEmpty(desk);
    hide Joint, SharedDays, ConfirmAll, SiteAfter;
    assert Key(1, 7) in desk.borrowed && 1 in [1, 2];
    assert GroupRead(d, PAIR, byId, 7, [1, 2], calendars)
             == Reading([[], []], BETWEEN.(site := SiteAfter(0, 2, 46)), Going);
  }

  const BOOKED := [Slot(1, 7, 5, Some("08:00")), Slot(2, 7, 5, Some("09:00"))]

  const OFFERED: seq<seq<Time>> := [["08:00", "09:00"], ["08:00", "09:00"]]

  lemma TimesAre(d: Desk)
    requires d.site == SiteAfter(0, 2, 42)
    ensures AskTimes(d, [1, 2], 2) == TimesRead(OFFERED, d.(site := SiteAfter(0, 0, 40)), Going)
    ensures EveryoneHasATime(OFFERED) && Total(OFFERED) == 4
  {
    assert AskTimes(d, [1, 2], 0) == TimesRead([], d, Going);
    assert SiteAfter(0, 2, 41).times[1..] == SiteAfter(0, 1, 41).times;
    assert AskTimes(d, [1, 2], 1) == TimesRead([OFFERED[0]], d.(site := SiteAfter(0, 1, 41)), Going);
    assert SiteAfter(0, 1, 40).times[1..] == SiteAfter(0, 0, 40).times;
    assert OFFERED[..1] == [OFFERED[0]] && [OFFERED[0]][..0] == [];
    assert Total([OFFERED[0]]) == 2;
  }

  lemma BothAreAttempted(d: Desk, byId: ById)
    requires byId == map[1 := FRESH, 2 := FRESH] && d.submitted == [] && EveryoneHasATime(OFFERED)
    ensures AttemptAll(d, 7, 5, byId, [1, 2], OFFERED, 2).submitted == BOOKED
    ensures AttemptAll(d, 7, 5, byId, [1, 2], OFFERED, 2).heard == d.heard
    ensures d.site.bookings == [] ==>
              AttemptAll(d, 7, 5, byId, [1, 2], OFFERED, 2).site == d.site
              && AttemptAll(d, 7, 5, byId, [1, 2], OFFERED, 2).booked == d.booked
  {
    assert MayMoveTo(ScheduleOf(byId, 1), 5) && MayMoveTo(ScheduleOf(byId, 2), 5);
    EveryMemberIsAttempted(d, 7, 5, byId, [1, 2], OFFERED, 2);
    var slots := MemberSlots(7, 5, [1, 2], OFFERED);
    assert slots == BOOKED;
    assert slots[..2] == slots;
    AttemptsSpendNothing(d, 7, 5, byId, [1, 2], OFFERED, 2);
    if d.site.bookings == [] {
      AttemptsBarren(d, 7, 5, byId, [1, 2], OFFERED, 2);
    }
  }

  /** The second group decides on the canary's days: nothing is borrowed any more, so nothing is re-read. */
  lemma SecondGroup(calendars: Calendars)
    requires Given(calendars)
    ensures var after := GroupSwept(BETWEEN.(site := SiteAfter(0, 2, 44)), PAIR, map[1 := FRESH, 2 := FRESH], 7, [1, 2],
                                    calendars);
            after.1 == Going && after.0.submitted == BOOKED && after.0.heard == HEARD && after.0.booked == {}
            && after.0.site.patience == 40
  {
    hide Joint, SharedDays, AskTimes, AttemptAll, Total, SiteAfter;
    var byId: ById := map[1 := FRESH, 2 := FRESH];
    var d := BETWEEN.(site := SiteAfter(0, 2, 44));
    SitePatience(0, 2, 44, 42);
    SitePatience(0, 0, 40, 40);
    SharedIs(d, calendars, 42);
    JointIs([5]);
    var desk := BETWEEN.(site := d.site.(patience := 42));
    var chosen := Reading([[5], [5]], desk, Going);
    assert GroupRead(d, PAIR, byId, 7, [1, 2], calendars) == chosen;
    TimesAre(desk);
    BothAreAttempted(desk.(site := SiteAfter(0, 0, 40)), byId);
  }

  lemma SitePatience(days: nat, times: nat, p: nat, q: nat)
    ensures SiteAfter(days, times, p).(patience := q) == SiteAfter(days, times, q)
    ensures SiteAfter(days, times, p).patience == p && SiteAfter(days, times, p).bookings == []
  {
  }

  lemma OneGroup(d: Desk, calendars: Calendars, byId: ById, n: nat)
    requires d.site.patience >= 2 && d.booked == {} && n < 2 && byId == ByIdOf(TWINS.applications)
    requires GroupsTo(BEFORE, TWINS, calendars, n) == (d, Going)
    ensures var swept := GroupSwept(StopCheck(StopCheck(d).1).1, PAIR, byId, 7, [1, 2], calendars);
            GroupsTo(BEFORE, TWINS, calendars, n + 1) == (swept.0, if swept.1.Crashed? then Crashed else Going)
  {
    assert Unbooked({}, [1, 2]) == [1, 2] by {
      assert [1, 2][..1] == [1] && [1][..0] == [];
      assert Unbooked({}, [1]) == [1];
    }
    hide Unbooked, ByIdOf, GroupSwept;
    var e := StopCheck(d).1;
    assert GroupTo(e, PAIR, byId, [1, 2], calendars, 0) == (e, Going);
  }

  lemma BothGroups(calendars: Calendars)
    requires Given(calendars)
    ensures var (after, status) := GroupsTo(BEFORE, TWINS, calendars, 2);
            && status == Going && after.submitted == BOOKED && after.heard == HEARD && after.booked == {}
            && after.site.patience == 40
  {
    ByIdIs();
    FirstGroup(calendars);
    SecondGroup(calendars);
    hide GroupSwept, SiteAfter, ByIdOf;
    SitePatience(2, 2, 50, 49);
    SitePatience(2, 2, 50, 48);
    SitePatience(0, 2, 46, 45);
    SitePatience(0, 2, 46, 44);
    var byId: ById := map[1 := FRESH, 2 := FRESH];
    assert GroupsTo(BEFORE, TWINS, calendars, 0) == (BEFORE, Going);
    OneGroup(BEFORE, calendars, byId, 0);
    var one := BETWEEN.(site := SiteAfter(0, 2, 46));
    hide GroupsTo;
    OneGroup(one, calendars, byId, 1);
    assert StopCheck(StopCheck(one).1).1 == BETWEEN.(site := SiteAfter(0, 2, 44));
  }

  /** An application with nothing on its calendar leaves everything as it was. */
  lemma NothingToBook(d: Desk, a: (Application, Schedule), calendars: Calendars)
    requires a.0.target.consulates == [9] && d.site.patience > 0
    requires Key(a.0.scheduleId, 9) in calendars && calendars[Key(a.0.scheduleId, 9)] == Some([])
    ensures AppSwept(d, a.0, Some(a.1), calendars) == (StopCheck(d).1, Going)
  {
    var v := VisitTo(d, a.0, Some(a.1), calendars, 0);
    assert v == BookingSpec.Visit([], d, Going);
    assert ReadAt(StopCheck(d).1, a.0, Some(a.1), calendars, 9) == (Answered(Some([])), StopCheck(d).1);
    hide ReadAt;
    assert VisitTo(d, a.0, Some(a.1), calendars, 1) == BookingSpec.Visit([Some([])], StopCheck(d).1, Going);
    hide VisitTo;
    var used: seq<Option<seq<Day>>> := [Some([])];
    assert used[..0] == [] && Candidates(a.0, Some(a.1), used[..0]) == [];
    assert Candidates(a.0, Some(a.1), used) == [];
  }

  lemma BothApplications(d: Desk, calendars: Calendars)
    requires Given(calendars) && d.site.patience == 40
    ensures var after := AppsTo(d, TWINS.applications, calendars, 2).0;
            after.submitted == d.submitted && after.heard == d.heard
  {
    var apps := TWINS.applications;
    var d1 := StopCheck(StopCheck(d).1).1;
    NothingToBook(StopCheck(d).1, apps[0], calendars);
    NothingToBook(StopCheck(d1).1, apps[1], calendars);
    hide AppSwept;
    assert AppsTo(d, apps, calendars, 0) == (d, Going);
    assert AppsTo(d, apps, calendars, 1) == (d1, Going);
  }

  /** So the property needs its condition: at the end of that run two calendars are read twice, and both slots
      submitted lie in calendars that only the canary gave, after both members' own requests came back empty. */
  lemma SharedGroupsTrustTheCanary()
    ensures SweptFor(Policy(true, 10), TwoSweeps(CAST), {}, TWINS) && AtAnHonestSite(TwoSweeps(CAST))
    ensures ANSWER in LastRound(TwoSweeps(CAST))
    ensures JustFannedOut(BEFORE, LastRound(TwoSweeps(CAST)))
    ensures var results := LastRound(TwoSweeps(CAST));
            var after := Processed(BEFORE, TWINS, FannedCalendars(results)).0;
            after.submitted == BOOKED && after.heard == HEARD && !TrustsNoCanary(TWINS, BEFORE, map[], results)
  {
    TwinsAreSwept();
    AnswerIsFirst();
    LastIsSecond(CAST);
    var results := SecondSweep(CAST).results;
    var calendars := FannedCalendars(results);
    HandedOut(results);
    BothGroups(calendars);
    NobodyLeftOut(TWINS.applications);
    var d0 := GroupsTo(BEFORE, TWINS, calendars, 2).0;
    BothApplications(d0, calendars);
    hide GroupsTo, AppsTo, SiteAfter, Pending, Given, SweptFor, AtAnHonestSite, SecondSweep, FannedCalendars,
         FannedBorrowed, TwoSweeps,
         AnsweredWithoutCanary, SortedCalendars;
    var after := Processed(BEFORE, TWINS, calendars).0;
    assert after == AppsTo(d0, TWINS.applications, calendars, 2).0;
    hide Processed;
    TheyAreBorrowed(results, after);
  }

  lemma TheyAreBorrowed(results: seq<PollResult>, after: Desk)
    requires JustFannedOut(BEFORE, results) && SortedCalendars(FannedCalendars(results))
    requires (forall r :: r in results ==> r.poller.Some?) && after.submitted == BOOKED && after.heard == HEARD
    requires after == Processed(BEFORE, TWINS, FannedCalendars(results)).0
    requires forall days :: !AnsweredWithoutCanary(results, Key(1, 7), days)
    ensures !TrustsNoCanary(TWINS, BEFORE, map[], results)
  {
    hide Processed, FannedCalendars, FannedBorrowed, AnsweredWithoutCanary, SortedCalendars, SiteAfter;
    assert after.submitted[0] == BOOKED[0];
    assert !GivenWithoutCanary(results, after.heard - BEFORE.heard, BOOKED[0]);
    assert Unread(TWINS, BEFORE, FannedBorrowed(map[], results));
  }
}
