# A model of the visa-appointment worker, with proofs

The program signs in to several accounts of a visa-appointment site, asks each consulate which days are
free, and books the best slot it finds.  Many applications see the same calendar, so it asks once and hands
the answer around; it spaces its requests, tells a banned account from a banned address, and changes the
address when it has to.  This project models the parts in which that could go wrong and proves what they
promise, for every input, every reply of the site and every interleaving.

* **Shared calendars.** `PlannerSpec` says what a plan is and what a sweep's answers teach; `PlannerEvidence`,
  `PlannerRuns` and `PlannerOptimality` prove, over unbounded runs, that sharing an answer is sound, complete
  and as cheap as possible; `PlannerAnchors` and `PlannerChanges` who changes class in a sweep, and `PlannerMerging` is a
  run in which someone does who should not; `PlannerCalibration` who is calibrated, and due; `PlannerLoad` that the load
  evens out.  `PlanBuilding`, `PlannerDrafts` and `CalendarPlanner` build the plan in place, object by object.  `PollExecution` runs the requests in parallel and
  `PollPool` in a bounded pool of threads, and `PollReplies` says who is asked and what the tallies count; `FanOut` hands
  the answers out.
* **Booking.** `BookingSpec` states one account's booking phase on values, against a site whose replies are
  an arbitrary script; `BookingChoice`, `BookingGroups`, `BookingSources`, `BookingPhase`, `SweepToBooking` and
  `Subscriptions` prove which slot is chosen, what a group books, and whose word a booking rests on.
  `BookingRequests` and `BookingReads` prove what the phase reads and what it still asks the site for, `BookingRereads`
  which borrowed calendars it reads again, `BookingSteps` what ends it, and `BookingOutcome` who is booked after it.
  `BookingBarren` and
  `BookingTurns` follow a phase at a site with nothing to give; `BorrowedRun` is a run of the planner at the end of which
  a canary has answered for chosen subscribers, and `BookingRun` fits one to an account.  With them `BookingClash`
  constructs, for any two readers of one calendar, the run and the phase in which the promise about whose word it is
  fails, and `BookingConfig` says which accepted configurations have such readers; `BookingExample` is two of them.
  `BookingWorker` is the phase step by step.
  `AvailableDays` reads one payload, `Days` sorts.
* **Failures.** `Settlement` and `SettlementRuns`: which account a failed sweep is charged to, and when it
  rests, and `RestRuns` until when; `SettlementScript` reads all of it off what happened in the sweep; `SweepEnd` joins
  them to the egress guard; `PoolWorker` is the same bookkeeping step by step.
* **Egress.** `Network`, `NetworkRuns`, `NetworkSuccess` and `PauseRecovery`: rotation, recovery and the end of a pause;
  `NetworkGuard` is the guard step by step.  `Provider` is the VPN provider's mutex and its goroutines, `ProviderStatus`
  what it reports, and `ProviderHistory` what its state says about the run.
* **Requests.** `RateLimiting` and `HttpClient`: the rate limit and the retry loop; `ConditionalGet`: the ETag
  cache, and `ConditionalHistory` what its state says about the run; `MetricBatches`: splitting and sending metrics.

How the pieces fit.  Each component is first stated as functions on values, the theorems are lemmas about
those functions and about runs of them, and the classes are proved to compute them: their methods' `ensures`
tie the new state to the function of the old one.  Randomness is nondeterminism.  Threads are state machines
whose steps are the program's critical sections.  The outside world (the site, the provider, the clock, the stop
flag) is a parameter or a script about which nothing is assumed, except where a theorem says so.  Times are
integers, and reals for the rate limiter; accounts, schedule ids, consulates and dates are only compared or used as
keys, so integers stand for them.

Where the code falls short of what its comments promise, the code is modelled as it is, with inputs that show it and
the exact condition under which the promise holds:

* "Only schedule ids calibrated this sweep change class" holds of a sweep exactly when, if anything is calibrated, settled
  answers under one ETag come from one known class (`PlannerChanges.OnlyCalibratedChangeClassInASweep`); a run of three
  sweeps ends with one in which they do not (`PlannerMerging.OldClassesMerge`).
* A calendar read twice in one booking phase can be booked on a canary's word: for any two readers of one calendar that
  can each book on some day there is a run of two sweeps, planned as the planner plans, in which every request is
  answered as an honest site would, and replies to the phase after it, for which the second one does
  (`BookingClash.TwoReadersClash`).  So where everyone can book, reading once is exactly what the promise needs, over all
  runs (`BookingClash.TrustsNoCanaryExactly`).  The configuration leaves three ways open: two groups that share a member
  and a consulate, a schedule id listed twice for one consulate, and an earlier entry of a member that watches a
  consulate of its group.  It keeps the promise exactly when it has none of them
  (`BookingConfig.AcceptedTrustsNoCanaryExactly`); with no id listed twice only the groups matter
  (`BookingConfig.DistinctIdsLeaveTheGroups`).  Inputs: `BookingExample.SharedGroupsTrustTheCanary`,
  `BookingExample.EntryListedTwiceTrustsTheCanary`.
* "Every calendar the booking phase will read" is asked for, and the phase then only re-reads what is borrowed, exactly
  when no group has an unbooked member without a known schedule (`BookingReads.NothingNewIsAskedExactly`); such a
  group is fetched again and its check then raises (`BookingReads.HalfKnownGroupRaises`).
* Members of a group get distinct times when the lists they are offered are disjoint, or when no time stands later in a
  later member's list and everyone's turn comes (`BookingGroups.DistinctWhenApartOrNeverLater`), as it is when bookings
  only take times away and enough are left (`BookingGroups.DistinctWhileTimesAreOnlyTaken`).  A time that turns up in
  between can be handed out twice (`BookingGroups.DifferentListsCanCollide`); the exact condition is that no time stands
  at the turns of two members (`BookingGroups.TimesAreDistinctExactly`).
* A failure counter rises by at most one per sweep exactly when no two accounts share a name, which the
  configuration does not check (`SettlementRuns.OneChargePerSweepExactly`, `SettlementRuns.SharedNameIsChargedTwice`).
* A paused pool reopens exactly when as many of its checks as the accepted profile is steps away have found the site
  answering: a check that meets a maintenance page neither reopens it nor moves on
  (`PauseRecovery.PauseEndsExactly`, `PauseRecovery.MaintenanceKeepsItPaused`).

## Model

| member | source | states |
|---|---|---|
| PlannerRuns.SharingIsSound | app/planner.py:211-345 | over every run of plan, ask, observe and forget, with a fixed partition into calendars that change every sweep, any failures and any empty calendars: what is fanned out to a subscriber is missing, or exactly what its own request would have returned that sweep |
| PlannerRuns.ClassesRestOnEvidence | app/planner.py:295-341 | in every run, equal class ids at one consulate imply a chain of same-sweep, non-empty, equal-ETag answers between the two schedule ids, and the next id is above every id in use |
| PlannerEvidence.ObservingKeepsEvidence | app/planner.py:281-345 | one sweep's answers keep that invariant, with those answers added to the evidence, provided each poll was answered by the subscriber or a classmate |
| PlannerEvidence.JoinBucketEvidenced | app/planner.py:318-334 | joining everyone who returned one ETag, into the anchor's class or a fresh one, keeps the invariant |
| PlannerEvidence.ForgettingKeepsEvidence | app/planner.py:168-176 | dropping learned state keeps it |
| PlannerRuns.PlanPartitionsTheWork | app/planner.py:178-270 | every wanted calendar is covered by exactly one poll; each candidate of it is the subscriber or a classmate; a candidate other than the subscriber means it was calibrated fewer than reverify_sweeps sweeps ago when that is positive; the subscriber is always among the candidates |
| PlannerRuns.EverySubscriberIsServed | app/worker.py:777-801 | if every poll of a plan comes back, every subscriber gets an entry |
| PlannerRuns.ClassmatesReadOneCalendar | app/planner.py:144-146 | under an honest site, equal class ids at one consulate mean the same calendar |
| PlannerChanges.OnlyCalibratedChangeClassInASweep | app/planner.py:281-334 | in every sweep, whatever was learned before, of canaries whose schedule ids differ from each other's and the subscribers': at each consulate, only those calibrated there change class if and only if, when anything is calibrated there, every settled answer comes from a known class and those under one ETag from one class |
| PlannerChanges.OneAnswerEach | app/planner.py:223-270 | in every such sweep each schedule id is named, as served or asking, in at most one answer per consulate, so under one ETag |
| PlannerChanges.PlanNamesOnce | app/planner.py:223-270 | no two polls of a plan at one consulate have a subscriber or a candidate's schedule id in common |
| PlannerAnchors.PlannedAnswersAreSettledInClass | app/planner.py:223-270 | for canaries' schedule ids apart from the subscribers': a settled answer to any plan serves a subscriber not being calibrated and names only its classmates |
| PlannerMerging.OldClassesMerge | app/planner.py:318-334 | a legal run of three sweeps at the end of which it fails: two settled classes return one ETag, and the second one's class changes though only a third subscriber was calibrated |
| PlannerAnchors.JoiningFollowsTheAnchor | app/planner.py:318-334 | everyone who returned one ETag ends up in one class, the anchor's as it was before the sweep's joins if there is an anchor |
| PlannerAnchors.EmptyCalendarLeavesNoClass | app/planner.py:307-313 | a schedule id whose calibration found only an empty calendar has no class afterwards |
| PlannerOptimality.SharingIsComplete | app/planner.py:211-345 | with fixed subscriptions and canaries, every request answered and every calendar non-empty under one ETag of its own, calibrated subscribers of one consulate have equal class ids exactly when they read the same calendar |
| PlannerOptimality.OneSweepCalibratesEveryone | app/planner.py:295-316 | one fully answered sweep calibrates every subscriber |
| PlannerOptimality.OneRequestPerCalendar | app/planner.py:250-270 | then a sweep with nothing due makes exactly as many requests as there are distinct calendars |
| PlannerLoad.LoadCountsHeads | app/planner.py:104-108 | the load of an account is the number of polls it heads |
| PlannerLoad.SameHeadSameLoad | app/planner.py:255-264 | a class riding on a canary's check leaves the load table as it was |
| PlannerLoad.BumpKeepsBalance | app/planner.py:349-366 | charging a least loaded canary keeps canary loads within one of each other |
| PlannerLoad.OrderedRides | app/planner.py:254-264 | a class riding on an earlier check, its members in the order of the load now, leaves every poll in its order |
| PlanBuilding.LeastLoaded | app/planner.py:352-366 | the order is a permutation of the pollers, least loaded first |
| PlanBuilding.Dedupe | app/planner.py:384-392 | computes the deduplicated subscriptions |
| PlanBuilding.DedupedKeepsKeysOnce | app/planner.py:384-392 | deduplication keeps every key, exactly once, and invents nothing |
| PlanBuilding.DedupedKeepsTheFirst | app/planner.py:384-392 | what it keeps of each key is the first subscription |
| PlanBuilding.SweepPlan.CountLoad | app/planner.py:104-108 | counts the load of the polls built so far |
| PlanBuilding.SweepPlan.Append | app/planner.py:229-247 | a new poll object goes to the end of the plan and changes no other |
| PlannerDrafts.DraftIsPlan | app/planner.py:211-270 | a draft that has dealt with every subscriber and asked every plausible canary is a plan of its consulate |
| PlannerDrafts.PlansSideBySide | app/planner.py:202-209 | the plans of different consulates, one after the other, are a plan of them all |
| CalendarPlanners.CalendarPlanner.constructor | app/planner.py:134-151 | starts with nothing learned |
| CalendarPlanners.CalendarPlanner.Matches | app/planner.py:155-162 | returns exactly the canaries in the target's class at that consulate |
| CalendarPlanners.CalendarPlanner.Plan | app/planner.py:186-209 | whatever the random choices: the plan built in place meets the plan specification for the deduplicated subscriptions; each class poll tries its canaries, and then its members, in the order of the load just before it, and a class riding on a check has its members in the order of the load at some later point; with nothing due and every canary in every class canary loads differ by at most one |
| CalendarPlanners.CalendarPlanner.PlanSolo | app/planner.py:198-200 | with sharing off everyone asks for themselves, once |
| CalendarPlanners.CalendarPlanner.PlanShared | app/planner.py:202-209 | plans consulate after consulate, with the load carried over |
| CalendarPlanners.CalendarPlanner.PlanFacility | app/planner.py:211-270 | adds a plan of this consulate after the existing polls, which it leaves alone; the running load table is the load of all polls built |
| CalendarPlanners.CalendarPlanner.AddSettled | app/planner.py:223-232 | settled subscribers without a class ask for themselves, the others are sorted into their classes |
| CalendarPlanners.CalendarPlanner.AddDue | app/planner.py:237-240 | every due subscriber asks for itself |
| CalendarPlanners.CalendarPlanner.AddChecks | app/planner.py:241-248 | exactly the canaries compatible with someone at the consulate are asked for their ETag, serving no class yet |
| CalendarPlanners.CalendarPlanner.AddClass | app/planner.py:250-270 | one class is covered, by the check of one of its canaries or by a poll of its own, and no other check is touched |
| CalendarPlanners.CalendarPlanner.RideCheck | app/planner.py:255-264 | changing a check in place so that it serves the class keeps the draft a draft and the load what it was |
| CalendarPlanners.CalendarPlanner.AddOwnPoll | app/planner.py:265-270 | adds the class's poll, headed by the least loaded candidate, who is charged |
| CalendarPlanners.CalendarPlanner.Forget | app/planner.py:168-176 | drops learned state entirely or for one schedule id |
| CalendarPlanners.CalendarPlanner.Observe | app/planner.py:281-293 | computes what the sweep's answers teach, consulate by consulate |
| PlannerCalibration.ObservingCalibratesExactly | app/planner.py:295-316 | after a sweep a calendar is calibrated at this sweep if and only if some calibration or probe covering it was answered with days, if only an empty list; a failed request calibrates nobody, and every other entry is what it was |
| PlannerCalibration.CalibratedExactly | app/planner.py:168-176 | over any steps the calibration of a calendar is the last such sweep, unless its id was forgotten since |
| PlannerCalibration.DueExactly | app/planner.py:178-182 | so a subscriber is due if and only if it was not calibrated since it was last forgotten, or that is at least reverify sweeps ago |
| PlannerCalibration.FailuresLeaveDue | app/planner.py:304-306 | whoever's calibrating requests have all failed is still due |
| PlannerCalibration.ForgettingForgetsExactly | app/planner.py:168-176 | forgetting an id leaves no class and no calibration of it, and every other entry as it was |
| PlannerCalibration.NothingSaidNobodyJoined | app/planner.py:304-313 | a schedule id named only in answers without days, or without an ETag, keeps its class or loses it |
| PlannerCalibration.RuledOutExactly | app/planner.py:371-374 | a canary is ruled out by two different declared visa types and by nothing else |
| CalendarPlanners.CalendarPlanner.LearnFacility | app/planner.py:295-334 | computes what they teach at one consulate: calibrations noted, empty calibrating answers taken out of their class, ETag buckets joined in order |
| CalendarPlanners.CalendarPlanner.Join | app/planner.py:318-334 | finds the first anchor, or takes a fresh id, and moves the whole bucket into that class |
| CalendarPlanners.CalendarPlanner.MarkCalibrated | app/planner.py:343-345 | every covered schedule id, and no other key, is calibrated at this sweep |
| PollExecution.GatesAndAttemptsHold | app/worker.py:709-775 | in every interleaving no account has more requests in flight than its gate allows, and no poll sends more than two |
| PollExecution.FinishedRunAccountsForEverything | app/worker.py:713-775 | a finished run gives each poll exactly one result, by nobody or by one of its candidates, with the calendar that candidate was given; and an account's (ok, failed) tallies sum to the requests it sent |
| PollExecution.FallbackIsInOrder | app/worker.py:740-762 | fallback goes down the list: a result names the first candidate with a session, or the second once the first was turned to in vain, and a poll is only given up after two such candidates, or all there are |
| PollReplies.NobodyIsPassedOver | app/worker.py:713-762 | in a finished run every able candidate before the one that answered was asked in vain, or a request of its account had raised; a poll without a calendar was turned down so by its first two able candidates, or all there are; so if nothing raised its first able candidate was asked |
| PollReplies.MarkedExactlyWhenRaised | app/worker.py:730-735 | in every run an account is marked as failing exactly when some request of it raised |
| PollReplies.NobodyComesAfterARaise | app/worker.py:715-718 | from then on nobody comes to its gate any more |
| PollReplies.TalliesCountReplies | app/worker.py:736-738 | a finished run's tallies are the numbers of the account's requests that gave a calendar and that did not |
| PollReplies.RepliesAreThoseGiven | app/worker.py:727-738 | the replies noted are those the site gave, in order, each to its poll |
| PollReplies.RequestsAreThoseSent | app/worker.py:713-762 | a poll's requests are its passages through a gate, never more than two in any run |
| PollExecution.RunsAreFinite | app/worker.py:740-762 | every step uses up work, so every run ends |
| PollPool.PoolIsBounded | app/worker.py:763-773 | in a pool of min(polls, limit × clients) threads that takes polls up in order, no more than that many are ever under way |
| PollPool.NoMoreThanTheGates | app/worker.py:763-773 | never more than there are polls, or than the gates of all accounts together let through; and while fewer are under way, one more may be taken up |
| PollPool.PoolCanMove | app/worker.py:719-773 | until every poll has its result somebody can take a step that both the gates and the pool allow: neither can deadlock |
| PollPool.PoolFinishes | app/worker.py:763-773 | every run in the pool can be carried on until every poll has its result |
| PollExecution.EveryRunKeepsInv | app/worker.py:713-762 | the bookkeeping of workers, gates and tallies holds in every run |
| FanOut.BorrowedAgreesWithAnswerer | app/worker.py:786-801 | for every key just fanned out, the borrowed table names a source exactly when a canary other than the subscriber answered, and then that canary; every other entry is left alone |
| FanOut.FannedFromAResult | app/worker.py:786-801 | an entry exists exactly when a result covers the key, and it is that result's calendar and answerer |
| BookingWorkers.BookingWorker.FanOut | app/worker.py:777-801 | the nested loop hands out exactly those calendars and updates the borrowed table accordingly |
| BookingWorkers.BookingWorker.HandOut | app/worker.py:788-800 | the same for one result |
| BookingChoice.AcceptableExactly | app/config.py:207-218 | a day passes the filters exactly when it lies in the window, outside every exclusion, and moves no appointment later or away from an unreadable date |
| BookingChoice.ExcludedByFindsAnExclusion | app/config.py:214-218 | an exclusion containing the day is found if there is one |
| BookingChoice.ChosenSlotIsTheOptimum | app/worker.py:1484-1622 | one application submits a slot if and only if its visit was not cut short and some calendar used holds a bookable day; with prefer_earliest it is the lexicographic minimum of (day, preference index) over all bookable days of the calendars used, otherwise the earliest such day at the first listed consulate having one |
| BookingChoice.UnreadableDatesSubmitNothing | app/worker.py:1596-1615 | a reschedule whose current date cannot be read submits nothing |
| BookingChoice.CandidatesAre | app/worker.py:1512-1565 | there is one candidate per consulate with a bookable day, the earliest one, in consulate order |
| BookingChoice.IndexOfIsFirst | app/worker.py:1618-1622 | the preference index is the consulate's first place in the target's list |
| BookingChoice.UsedCalendarsAreSorted | app/ais_client.py:695-704 | every calendar acted on is sorted, and reading them neither submits nor books |
| BookingGroups.GroupBooksTheEarliestJointDay | app/worker.py:1262-1416 | a group check submits nothing unless every member's calendar could be had, every member's schedule is known, some day suits them all, everyone has a time and the total reaches min_slots; and then exactly one slot per member, all on the earliest day that is in every member's calendar, in the group's window and later for nobody |
| BookingGroups.UnreadableMemberBlocksTheGroup | app/worker.py:1303-1319 | one member with an unreadable date blocks the whole group |
| BookingGroups.UnknownMemberRaises | app/worker.py:1342-1416 | with a member whose schedule is not known nothing is submitted, and the check raises exactly when everyone's calendar could be had or reading one raised |
| BookingGroups.GroupCeilingBoundsEveryone | app/worker.py:1306-1322 | the running minimum with its blocked flag is the same as asking every member |
| BookingGroups.JointExactly | app/worker.py:1315-1322 | the joint list holds exactly the joint days, and its first is the earliest |
| BookingGroups.EveryMemberIsAttempted | app/worker.py:1407-1416 | the last check before each request rejects nobody on a joint day: one slot per member is submitted, in order |
| BookingGroups.DistinctWhenApartOrNeverLater | app/worker.py:1400-1415 | sufficient: no time is offered to two members, or everyone's turn comes and no time stands later in a later member's list |
| BookingGroups.DistinctWhileTimesAreOnlyTaken | app/worker.py:1400-1415 | so it is when each list is what is left of the earlier ones and the last is long enough for everyone |
| BookingGroups.TimesAreDistinctExactly | app/worker.py:1400-1415 | for any lists offered to the members: the times handed out are distinct if and only if no time stands at the turn of two members, the turn of the i-th being place i of its list or the last one |
| BookingGroups.SameListGivesDistinctTimes | app/worker.py:1400-1415 | when all members are offered one list without repeats, their times are distinct exactly when the list is long enough |
| BookingGroups.DifferentListsCanCollide | app/worker.py:1400-1415 | two members with two times each are handed the same time |
| BookingRereads.AppRereadsExactly | app/worker.py:803-834 | after an application's turn a calendar of the batch is still borrowed exactly when it was and is not the application's own at one of its consulates with a day it could be moved to: these are read again, and no others |
| BookingRereads.GroupRereadsExactly | app/worker.py:1325-1341 | a group check that has everyone's calendar decides on them as they are, and spends none, when they have no joint day; when they have one, none is borrowed afterwards; with a calendar missing none is read again |
| BookingRereads.FetchedAreNotBorrowed | app/worker.py:1273-1278 | calendars fetched for a check were answered for every member, and none is borrowed afterwards |
| BookingSteps.AppRaisesExactly | app/worker.py:1512-1532 | the site's replies are used up in order, and an application's turn raises exactly when one of those used up is an exception |
| BookingSteps.GroupRaisesExactly | app/worker.py:1262-1416 | a group check that used up an exception raises, and it raises for nothing else but a fetch that could not be made or a member not known |
| BookingSteps.ARaiseEndsThePhase | app/worker.py:1095-1122 | the first exception among an account's replies ends its phase |
| BookingSteps.StoppedFromTheStart | app/worker.py:1104-1116 | with the stop flag up nothing is read, booked or submitted |
| BookingSteps.StopEndsTheVisit | app/worker.py:1512-1514 | once it is up an application visits no further consulate |
| BookingSteps.StopEndsTheGroup | app/worker.py:1231-1260 | and a group neither |
| BookingSteps.StopEndsTheGroups | app/worker.py:1104-1107 | and the phase turns to no further group |
| BookingSteps.StopEndsTheApplications | app/worker.py:1114-1118 | or application |
| BookingSteps.VisitLooksExactly | app/worker.py:1512-1578 | a visit not cut short looked at the flag once per consulate, and once more after each request of its own but the last consulate's |
| BookingPhase.EverySubmittedSlotIsSound | app/worker.py:1095-1122 | over an account's whole booking phase, whatever the site answers and whenever it is stopped: every slot submitted is for one of its applications, never moves it later, lies in the window and at a consulate of it or of a group of it, and, if no calendar is read twice, lies in a calendar read for it in the phase without a canary, or one that was never borrowed |
| BookingPhase.NoSlotOnACanarysWord | app/worker.py:786-834 | when no calendar is read twice in the phase, every submitted day comes from a calendar read in the phase itself without a canary, or answered in this sweep by the subscriber or a non-canary |
| SweepToBooking.NoSlotOnACanarysWordInAnyRun | app/worker.py:551-594 | the same over every run of sweeps, with the classes spelled out: the day was read in the phase without a canary, or given in this sweep to the subscriber or to a non-canary member of its class |
| BorrowedRuns.TwoSweepsAreLegal | app/planner.py:211-270 | for any subscriptions, some of them at one consulate singled out, and any canary with a schedule id of its own: two sweeps, in the first of which the singled out and the canary return one ETag, are a legal run of plan, ask and observe, every poll of them answered |
| BorrowedRuns.FirstTeaches | app/planner.py:295-345 | after the first sweep everyone is calibrated, and exactly the singled out and the canary have a class there, one class |
| BorrowedRuns.TwoSweepsAreHonest | app/planner.py:281-293 | their answers are those of a site with three calendars, one for each ETag on a non-empty answer |
| BorrowedRuns.FannedOut | app/worker.py:786-801 | the second sweep hands everyone an entry, and borrowed are exactly those of the singled out, each given by the canary and by nobody else |
| BookingClash.TwoReadersClash | app/worker.py:1512-1532 | for any account and any two groups or applications of it that read one calendar and can each book on some day, there are a run of the planner at an honest site, ending with a sweep of all the account asks for in which no request fails, and replies to the phase right after it, for which a slot is submitted on a canary's word alone |
| BookingClash.TrustsNoCanaryExactly | app/worker.py:803-834 | for lists without repeats and everyone able to book on some day: in no phase after any sweep of any run of the planner, whatever the site replies and whenever it is stopped, is a slot submitted on a canary's word, if and only if no calendar is read twice |
| BookingConfig.AcceptedReadsOnceExactly | app/config.py:595-610 | for every accepted configuration and whatever the site reports actionable: no calendar is read twice if and only if no two groups share a member and a consulate, no two entries of one id share a consulate, and no entry of a member watches a consulate of its group |
| BookingConfig.DistinctIdsLeaveTheGroups | app/config.py:595-610 | with no id listed twice: if and only if no two groups share a member and a consulate |
| BookingConfig.AcceptedTrustsNoCanaryExactly | app/config.py:536-610 | for every accepted configuration in which everyone can book on some day: in no phase after any sweep of any run is a slot submitted on a canary's word if and only if those three hold |
| BookingConfig.ActionableAre | app/worker.py:1180-1193 | the applications found actionable are exactly the configured entries whose id the site reports, each with what it says about the id |
| BookingSources.AppIsVouched | app/worker.py:1512-1532 | one application's slot lies in a calendar read for it in the phase without a canary, or one that was never borrowed; and its turn uses up only its own borrowed entries |
| BookingSources.GroupIsVouched | app/worker.py:1280-1340 | the same for every slot of one group check, whose calendars may also come from a fetch that a classmate answered |
| BookingExample.SharedGroupsTrustTheCanary | app/worker.py:1324-1340 | two groups sharing two members and a consulate, at the end of a legal run at an honest site: the canary, preferred to both members, answers for them, both members' own calendars then come back empty, and the phase submits both slots on the canary's days |
| BookingExample.TwinsAreAccepted | app/config.py:595-610 | the configuration accepts that account, each member with a consulate of its own, and its two groups share members and a consulate |
| BookingExample.EntryListedTwiceTrustsTheCanary | app/worker.py:1180-1193 | an accepted configuration with one application listed twice and no groups, for which some such run and phase lead to a slot on a canary's word |
| SweepToBooking.EverySubmittedDayIsOnTheSubscribersCalendar | app/worker.py:551-594 | from planning to submission: in every run of sweeps under an honest site, a submitted day is on the calendar the subscriber's own request would have returned, or was read in the phase itself |
| Subscriptions.EveryReadIsAskedForExactly | app/worker.py:656-681 | the keys asked for are among those the booking phase needs, and are all of them if and only if every unbooked member of every group still to be booked has a known schedule |
| BookingReads.OnlyNeededIsRead | app/worker.py:1095-1122 | needed is what the phase reads: batches that agree on the needed keys give the same outcome, and no calendar is heard in the phase under any other key |
| BookingReads.MissingIsAskedFor | app/worker.py:1277-1279 | and each needed key missing from the batch is asked for in the phase at some site |
| BookingReads.NothingNewIsAskedExactly | app/worker.py:656-681 | for every batch of exactly the keys asked for, whatever its calendars: the phase fetches nothing and only re-reads borrowed calendars, at every site, if and only if every unbooked member of every group still to be booked has a known schedule |
| BookingReads.HalfKnownGroupRaises | app/worker.py:1277-1416 | a group of two of which only one is reported actionable: its check uses up a fetch, and with both calendars in hand it raises, which ends the account's phase with nothing submitted |
| Subscriptions.UnknownMemberIsNotAskedFor | app/worker.py:669-675 | a group of two of which only one is reported actionable: both calendars are needed, neither is asked for |
| BookingRequests.CompleteBatchIsOnlyConfirmed | app/worker.py:1512-1532 | with every needed calendar in the sweep's batch, the booking phase fetches none, makes at most one days.json request per borrowed entry, and hears no calendar that was not borrowed |
| BookingWorkers.BookingWorker.SubscriptionsOf | app/worker.py:656-681 | the subscriptions built for one account are exactly those keys, each with a visa type declared for its application |
| BookingWorkers.BookingWorker.ConfirmDays | app/worker.py:803-834 | a borrowed calendar is re-read by the subscriber once, any other returned as it is |
| BookingWorkers.BookingWorker.GetAvailableDays | app/ais_client.py:669-704 | the site's next reply, sorted |
| BookingWorkers.BookingWorker.AttemptBooking | app/worker.py:1646-1697 | nothing is submitted past the ceiling; otherwise the slot is, and the application becomes booked only on success |
| BookingOutcome.BookedExactly | app/worker.py:1646-1697 | after a phase those booked are those booked before and the ids of exactly those submitted slots whose own reply, in the order of submission, was yes |
| BookingOutcome.BookedByAGroupIsNotTriedAgain | app/worker.py:1103-1112 | no slot of the application loop is for an application booked before it, in the phase or earlier |
| BookingWorkers.BookingWorker.SweepApplication | app/worker.py:1484-1592 | the loop over consulates computes the application's outcome and new state |
| BookingWorkers.BookingWorker.SweepGroupFacility | app/worker.py:1262-1416 | one consulate of a group: computes its outcome and new state |
| BookingWorkers.BookingWorker.GroupLimits | app/worker.py:1306-1313 | the loop computes whether some member blocks the group, and the earliest current appointment |
| BookingWorkers.BookingWorker.SweepGroup | app/worker.py:1231-1260 | the members are fixed once, before the loop over consulates |
| BookingWorkers.BookingWorker.ProcessAccount | app/worker.py:1095-1122 | groups first, then the applications still unbooked; every slot submitted is sound in the sense of EverySubmittedSlotIsSound |
| AvailableDays.AvailableDaysOf | app/ais_client.py:691-704 | every readable date of the payload, as often as listed, in order; unreadable entries are skipped |
| Days.SortDaysSorts | app/ais_client.py:704 | sorting keeps every day as often as it came |
| SettlementRuns.CounterAfterASweep | app/worker.py:515-605 | after a sweep each counter is zero if the account was cleared, and otherwise grew by its charges; nobody is both charged and cleared |
| SettlementScripts.IncidentsExactly | app/worker.py:515-605 | read off the sweep: in one nobody cut short the incidents are the failed turns, the first exception of an account whose turn went well, accounts whose every request failed and that had not failed before, and first failed visits of the others, lapsed sessions apart; clean are exactly the accounts whose turn went well and to whom none of this happened |
| SettlementScripts.ChargedExactly | app/worker.py:515-605 | so a counter rises if and only if something other than a lapsed session happened to the account and the accounts are to blame; and it is zero, with no rest left, when nothing did |
| SettlementScripts.CutShortExactly | app/worker.py:516-605 | a sweep is cut short exactly when the stop flag is seen when a turn comes, after a heavy turn that is not the last, or before a visit |
| SettlementScripts.SessionExactly | app/worker.py:968-1017 | after a sweep nobody cut short an account with a name of its own has a session if and only if it had or got one, it was not found lapsed, and it was not refused and charged |
| SettlementRuns.OneChargePerSweepExactly | app/worker.py:516-605 | a counter rises by at most one in every sweep if and only if no two accounts share a name |
| SettlementRuns.SharedNameIsChargedTwice | app/worker.py:516-536 | two accounts of one name, both refused at sign-in: that name is charged at least twice in the sweep |
| SettlementRuns.CounterCountsChargedSweeps | app/worker.py:843-1017 | over every run, with distinct names: the counter is the number of sweeps charged since the last clean one, and an account has a resting time exactly when that number has reached the threshold |
| SettlementRuns.SweepKeepsRests | app/worker.py:843-869 | resting times stay exact through every sweep, also with shared names: an account in the cooldown map has a counter at or above the threshold, and conversely |
| SettlementRuns.NotTheAccountsFault | app/worker.py:904-966 | no counter rises in a sweep settled as the address's fault or as maintenance, nor in one cut short |
| SettlementRuns.SomethingGotThroughExactly | app/worker.py:904-927 | whatever a probe would say, every incident of a finished sweep is charged exactly when something got through: a fresh sign-in or discovery, a calendar request, or any other answer of the site |
| SettlementRuns.ExpiryIsNotCharged | app/worker.py:888-902 | a counter only rises for a failure that is not a lapsed session |
| SettlementRuns.RestingAccountsAreLeftAlone | app/worker.py:516-523 | an account still resting whenever its turn comes is neither charged nor cleared |
| PoolWorkers.PoolWorker.Sweep | app/worker.py:469-605 | the sweep's bookkeeping computes the specified pool and keeps resting times exact |
| PoolWorkers.PoolWorker.PrepareAccount | app/worker.py:516-548 | one account's turn: resting, signing in, what counts as having reached the site, and the pauses between heavy ones |
| PoolWorkers.PoolWorker.NoteRequests | app/worker.py:570-583 | one incident at most per account for its requests: the first exception, or all requests failed |
| PoolWorkers.PoolWorker.NoteIncident | app/worker.py:888-902 | a lapsed session is handled on the spot, any other failure kept for the end |
| PoolWorkers.PoolWorker.Settle | app/worker.py:921-927 | charges the incidents in order |
| PoolWorkers.PoolWorker.HandleSweepException | app/worker.py:968-1017 | each kind of failure: what it does to the session, the counter and the resting time |
| RestRuns.OutOfThePoolExactly | app/worker.py:837-861 | over every run, shared names included: an account is out of the pool at a moment if and only if a rest is configured, its counter has reached the threshold, and less than the rest has passed since the last sweep that charged it |
| PoolWorkers.PoolWorker.RecordSuccess | app/worker.py:863-869 | counter to zero, resting time removed |
| NetworkRuns.RotationIsExhaustive | app/network.py:300-337 | with the provider reachable and nobody asking to stop, an unlimited rotation tries every profile at most once, in cyclic order beginning after the active one, and succeeds exactly when some profile connects and is accepted, on the first such one |
| NetworkRuns.OnceAround | app/network.py:312-314 | the order is every profile exactly once, the active one last |
| NetworkRuns.TryingExactly | app/network.py:317-337 | the loop stops at the first accepted profile reached before the stop flag, and has otherwise tried them all and changed only the last probe |
| NetworkRuns.RecoveryIsHonest | app/network.py:148-222 | whenever recover, maybe_return_to_vpn or a paused check_paused returns True, the route traffic now takes is the one last probed, and it was accepted; none of them leaves the proxy unless the fallback is allowed |
| NetworkRuns.FailedRecoveryPauses | app/network.py:268-298 | a failed recovery pauses the pool and takes traffic off a direct fallback |
| NetworkSuccess.RecoversExactly | app/network.py:268-298 | recovery succeeds if and only if nobody is at it already and some profile is accepted before the stop flag, or the direct route where it is allowed |
| NetworkSuccess.ChecksExactly | app/network.py:148-176 | a paused check succeeds if and only if the route in use is accepted, or, there being no maintenance, the next profile or the allowed direct route |
| NetworkSuccess.ReturnsExactly | app/network.py:178-209 | the way back is tried exactly when due, and succeeds if and only if the profile in use is accepted, or the next one |
| NetworkSuccess.RecoveryTimes | app/network.py:268-298 | a failed recovery, and no other, pauses the pool, for the configured time; a fallback sets when the VPN is tried again; each recovery counts one ban |
| NetworkSuccess.CheckTimes | app/network.py:148-176 | a paused check reopens the pool or leaves the pause as it was |
| NetworkSuccess.PausesExactly | app/network.py:268-298 | after a failed recovery the pool is paused for the configured time and not a moment longer; after a fallback or an attempt to return the next one comes after the configured time, at least one |
| NetworkRuns.ModeIsAlwaysAllowed | app/network.py:105-131 | over every run of calls, manual switches included: with a proxy the mode is direct only if direct_fallback is on |
| PauseRecovery.PauseEnds | app/network.py:148-176 | a paused pool is open as soon as as many checks have found the site answering as the accepted profile is steps away |
| PauseRecovery.OnceAroundReopens | app/network.py:148-176 | so without maintenance pages n checks reopen it, n being the number of profiles |
| PauseRecovery.PauseEndsExactly | app/network.py:163-176 | with every other route refused that many answers are also necessary: a maintenance page neither reopens the pool nor moves on |
| PauseRecovery.MaintenanceKeepsItPaused | app/network.py:163-164 | checks that meet nothing but maintenance pages leave the pool paused and the provider where it is, whichever profiles would be accepted |
| PauseRecovery.OneStepCloser | app/network.py:312-316 | one step of the provider brings the accepted profile one step closer |
| NetworkGuards.NetworkGuard.RotateProvider | app/network.py:300-337 | the loop computes the specified rotation |
| NetworkGuards.NetworkGuard.FindEgress | app/network.py:268-298 | recovery, step by step, and honest |
| NetworkGuards.NetworkGuard.CheckPause | app/network.py:148-176 | the paused check, step by step, and honest |
| NetworkGuards.NetworkGuard.ReturnToVpn | app/network.py:178-209 | the way back to the VPN, step by step, and honest |
| NetworkGuards.NetworkGuard.FallBackToDirect | app/network.py:211-222 | the direct route is taken only if allowed and accepted |
| SweepEnd.AddressIsBlamedExactly | app/worker.py:904-966 | a sweep with the guard in it: the egress is moved on, or the pool paused, if and only if it finished with failures, nothing got through, detection is on, the probe of the route in use was refused and no recovery is under way; then nobody is charged, and otherwise the route stays as it is |
| SweepEnd.SomeoneIsChargedExactly | app/network.py:256-266 | some counter rises if and only if a finished sweep had failures and something got through, or detection is off, or the route in use was accepted |
| SweepEnd.GuardGivesTheVerdict | app/worker.py:904-927 | with the guard's verdict as the script's, the pool is the one settled without a guard, so all that holds of every script holds with it |
| NetworkSuccess.SwitchesExactly | app/network.py:380-390 | an operator's switch that the provider does not refuse sends traffic with a proxy through it, unless a recovery is under way; nothing else of the guard changes |
| NetworkGuards.NetworkGuard.Switch | app/network.py:380-390 | a manual switch also chooses the VPN |
| Provider.AtMostOneProcess | docker/openvpn-provider/provider.go:51-138 | in any interleaving of Start, Switch, StartIfIdle and the goroutines, at most one process is live, and it is the current one |
| ProviderStatus.StatusExactly | docker/openvpn-provider/provider.go:91-134 | over every run, with the mutex free: connected means that the current process's tunnel came up, its goroutine said so, and no call was refused since; connecting that it was launched, with neither since; initializing that nothing was ever tried; anything else is an error |
| ProviderStatus.RegisteredExactly | docker/openvpn-provider/provider.go:91-116 | a process is registered from its launch until a call stops it or its exit is noticed |
| ProviderStatus.ActiveIsLastLaunched | docker/openvpn-provider/provider.go:91-98 | the active profile is the one launched last, and the switches are the launches |
| ProviderStatus.IdleStartsExactly | docker/openvpn-provider/provider.go:148-162 | StartIfIdle that finds a process connecting or connected is over and has changed nothing; otherwise it goes on to start one |
| ProviderHistory.CallsFollowTheirSteps | docker/openvpn-provider/provider.go:51-138 | where a call is, and whether it holds the mutex, is determined by its last step; it is over once refused, failed to launch, or launched |
| ProviderHistory.ProcessesExactly | docker/openvpn-provider/provider.go:99-134 | a process lives from its launch to its exit; its waiter returns, closes the channel and notices the exit, in this order and once; its tunnel goroutine settles once, after the tunnel, a timeout, or a look that found another process |
| ProviderHistory.ChannelExactly | docker/openvpn-provider/provider.go:208-231 | the channel a call waits for is that of the last launch until a call has stopped it |
| ProviderHistory.MutexKeepsOthersOut | docker/openvpn-provider/provider.go:51-138 | while a call holds the mutex nobody else's step changes what it protects, or needs it |
| ProviderHistory.EveryCallCanEnd | docker/openvpn-provider/provider.go:51-138 | from every reachable state every call can be brought to its end |
| Provider.QuietStatusIsHonest | docker/openvpn-provider/provider.go:101-134 | once no exit is pending, such a status means a live process |
| Provider.ReplacedForGood | docker/openvpn-provider/provider.go:101-134 | once a process is replaced its goroutines change nothing for the rest of the run |
| Provider.HolderIsNeverStuck | docker/openvpn-provider/provider.go:208-231 | whoever holds the mutex can always be brought closer to releasing it, by steps that do not need the mutex, and no step of anyone else moves it back |
| Provider.MutexCanBeFreed | docker/openvpn-provider/provider.go:208-231 | so waiting for the process under the mutex cannot deadlock: from every reachable state it can be free within six steps |
| RateLimiting.ReservationsAreArrivals | app/httpclient.py:78-90 | closed form: the i-th slot is the greatest of now_j + (i - j) / rate over the queueing calls j up to i |
| RateLimiting.WindowIsBounded | app/httpclient.py:78-90 | any window of length T holds at most floor(T * rate) + 1 slots, whatever the clock does and however many urgent calls pass |
| HttpClient.RateLimiter.Acquire | app/httpclient.py:78-90 | reserves now + wait, with wait never negative; urgent calls and a rate of zero reserve nothing |
| HttpClient.RateLimiter.Configure | app/httpclient.py:75-76 | a negative rate counts as zero; slots already handed out stay reserved |
| HttpClient.RateLimiter.NeverTooManyAtOnce | app/httpclient.py:78-90 | the window bound for the slots this object has handed out since it was configured |
| HttpClient.Session.Request | app/httpclient.py:140-158 | the result is the application's first answer or else the last attempt's outcome; a POST is sent once; every attempt, retries included, took its turn at the limiter; retries and site replies are counted |
| HttpClient.AnswersAre | app/httpclient.py:43-51 | an answer of the application is any status below 500 but 403, 407 and 429 |
| HttpClient.RetriedVerbsAre | app/httpclient.py:140-158 | GET and HEAD are retried, in whatever case they are written; POST, PUT and DELETE are not |
| ConditionalGet.EveryAnswerIsAsPlainGet | app/ais_client.py:315-358 | if ETags determine bodies and 304 is sent only for the current ETag (sections 13.1.2 and 15.4.5 of RFC 9110), every successful answer in every run with concurrent callers is what an unconditional GET would have been given |
| ConditionalGet.EveryCallIsTold | app/ais_client.py:315-358 | in every run a call that ends is told the new body with the ETag it came with, the remembered body and ETag on a 304, that the session lapsed exactly on a 401, and otherwise nothing |
| ConditionalGet.WhatIsRemembered | app/ais_client.py:346-358 | what is remembered of a URL changes exactly on a parsed 200 with an ETag |
| ConditionalHistory.CacheIsAsRemembered | app/ais_client.py:346-358 | in every run what is remembered of a URL is what the last call to end with a parsed 200 and an ETag for it was given |
| ConditionalHistory.CallsAreUnderWay | app/ais_client.py:315-345 | a call under way sent the ETag remembered when it began, and was served from what was published when it was served |
| ConditionalHistory.OneAnswerEach | app/ais_client.py:315-358 | each call that ended was given one answer |
| ConditionalGet.StepKeepsInv | app/ais_client.py:315-358 | remembered bodies stay the ones their ETags stand for |
| ConditionalGet.JsonCache.GetJsonMeta | app/ais_client.py:315-358 | one caller's request, step by step: when it succeeds, with what, and what is remembered |
| MetricBatches.BatchesConserveSamples | app/newrelic.py:142-151 | for any non-empty list and any encoder, the batches in order are the samples; each is within the limit or a single sample; none is empty |
| MetricBatches.OneBatchExactlyWhenItFits | app/newrelic.py:142-151 | the samples are split exactly when they do not fit |
| MetricBatches.NewRelicClient.Send | app/newrelic.py:114-123 | posts a prefix of the batches, up to the first refused; True means the samples were all posted, in order |

## Left out

- HTTP, TLS, proxies, DNS, Telegram, captcha solving and secrets: foreign calls; their outcomes are parameters.
- HTML parsing, regular expressions and the discovery of applications: they rest on library parsers.
- Pre-warmed forms and speculative booking: a booking request is an oracle that succeeds or not, and what the site does with it is not modelled.
- The dashboard, log texts, notifications, metric gauges and the store: presentation and persistence.
- app/calendars.py: an older planner that the worker no longer uses.
- Sessions' cookies and the invalidation of discovery: only whether a session is live is kept.
- Floating-point rounding and real sleeping: the rate limiter is over reals, and a slot is when a request may start at the earliest.
- The stop flag during parallel polling: `PollExecution` covers runs in which nobody asks the sweep to stop.
- Canary accounts that are also subscribers: the load balance is stated for canaries whose accounts are not subscribed, as the configuration has it.
- Interleavings of two recoveries: one that finds another under way returns at once, which is modelled; what the other does meanwhile is not.
- The start of a sweep (the way back to the VPN, the paused check): covered by the egress guard, but not joined to `PoolWorkers.PoolWorker.Sweep`, as the end of one is in `SweepEnd`.
- The wait for a switched profile to connect: its outcome is a parameter.
- BookingWorkers.BookingWorker.FetchCalendars: models a fetch by its answers to the keys asked for; planning and running it is covered by the planner and the poll execution.
- PollExecution, Provider and ConditionalGet.EveryAnswerIsAsPlainGet: concurrent code is modelled as steps on values, each a critical section; objects shared in place between threads are not.
- BookingClash.TrustsNoCanaryExactly: its "only if" is for accounts in which every group and application can book on some day, because one that cannot neither submits nor uses up a borrowed entry; `BookingClash.TwoReadersClash` asks it of the two readers only.
- BookingConfig.AcceptedTrustsNoCanaryExactly: makes the same assumption.
- BookingClash.TwoReadersClash: does not follow the booking phase after the first of its two sweeps; what it needs of it is that nothing is booked there, as when every booking request is lost.
- PlannerChanges.OnlyCalibratedChangeClassInASweep: does not speak of canaries that share a schedule id with each other or with a subscriber, because two answers can then name one id.
- MetricBatches.NewRelicClient.Send: does not model pinning an address or compressing a body.
