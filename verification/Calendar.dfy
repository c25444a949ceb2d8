/** The values that travel between the planner, the poll executor and the booking
    phase.  Account names, schedule ids, consulates and dates are only ever compared,
    ordered or used as dictionary keys by the program, so integers stand for them. */
module Calendar {
  import opened Basics

  type AccountId = int
  type ScheduleId = int
  type FacilityId = int
  type Day = int

  /** An (account, schedule id) able to ask the site for a calendar. */
  datatype Poller = Poller(account: AccountId, scheduleId: ScheduleId, visaType: Option<string>, canary: bool)

  /** (schedule id, facility): one calendar as one asker sees it. */
  datatype Key = Key(scheduleId: ScheduleId, facility: FacilityId)

  /** One application wanting one consulate's calendar. */
  datatype Subscription = Subscription(account: AccountId, scheduleId: ScheduleId,
                                       facility: FacilityId, visaType: Option<string>)
  {
    function AsPoller(): Poller {
      Poller(account, scheduleId, visaType, false)
    }

    function KeyOf(): Key {
      Key(scheduleId, facility)
    }
  }

  datatype Kind = Shared | Solo | Calibrate

  datatype Label = NoLabel | Calibrating | EtagCheck

  /** One request to make, who may make it (preferred first) and whose calendars it answers. */
  datatype PollView = PollView(facility: FacilityId, candidates: seq<Poller>, covers: seq<ScheduleId>,
                               kind: Kind, tag: Label)

  /** What came back for a poll: who answered, its days (None: the request failed) and its ETag. */
  datatype PollResult = PollResult(poll: PollView, poller: Option<Poller>, days: Option<seq<Day>>, etag: Option<string>)

  /** A declared visa type; the empty string counts as undeclared. */
  predicate Declared(visaType: Option<string>) {
    visaType.Some? && visaType.value != ""
  }

  /** A declared type only ever rules a canary out, never in. */
  predicate Compatible(canary: Poller, sub: Subscription) {
    !(Declared(canary.visaType) && Declared(sub.visaType) && canary.visaType != sub.visaType)
  }

  /** The poll `p` answers for the calendar `k`. */
  predicate Covers(p: PollView, k: Key) {
    p.facility == k.facility && k.scheduleId in p.covers
  }
}
