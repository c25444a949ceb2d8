/** Which calendars got from a canary are read again: those that hold something to book, and no others. */
module BookingRereads {
  import opened Basics
  import opened Calendar
  import opened FanOut
  import opened BookingSpec
  import opened BookingChoice
  import opened BookingGroups

  // ---------------------------------------------------------------- one application

  /** The application's calendar at one of the consulates, holding a day it could be moved to. */
  ghost predicate Tempting(app: Application, schedule: Option<Schedule>, calendars: Calendars, k: Key,
                           fids: seq<FacilityId>)
    requires k in calendars
  {
    k.scheduleId == app.scheduleId && k.facility in fids && HasBookable(app, schedule, calendars[k])
  }

  lemma HitExactly(app: Application, schedule: Option<Schedule>, days: Option<seq<Day>>)
    ensures Hit(app.target, schedule, days) <==> HasBookable(app, schedule, days)
  {
    hide Acceptable, Bookable;
    if days.Some? {
      forall d
        ensures Acceptable(app.target, schedule, d) <==> Bookable(app.target, schedule, d)
      {
        AcceptableExactly(app.target, schedule, d);
      }
    }
  }

  lemma ReadRereads(d: Desk, app: Application, schedule: Option<Schedule>, calendars: Calendars, fid: FacilityId,
                    k: Key)
    requires k in calendars
    ensures k in ReadAt(d, app, schedule, calendars, fid).1.borrowed <==>
            k in d.borrowed && !Tempting(app, schedule, calendars, k, [fid])
  {
    var own := Key(app.scheduleId, fid);
    if own in calendars {
      HitExactly(app, schedule, calendars[own]);
    }
    hide Hit, HasBookable, Tidy;
  }

  /** After the consulates visited, what is still borrowed is what was borrowed before, without the application's
      calendars there that hold a day it could be moved to: exactly these are read again. */
  lemma {:induction false} VisitRereadsExactly(d: Desk, app: Application, schedule: Option<Schedule>,
                                               calendars: Calendars, n: nat, k: Key)
    requires n <= |app.target.consulates| && k in calendars
    requires VisitTo(d, app, schedule, calendars, n).status.Going?
    ensures k in VisitTo(d, app, schedule, calendars, n).desk.borrowed <==>
            k in d.borrowed && !Tempting(app, schedule, calendars, k, app.target.consulates[..n])
  {
    hide ReadAt, HasBookable;
    if n > 0 {
      VisitRereadsExactly(d, app, schedule, calendars, n - 1, k);
      var v := VisitTo(d, app, schedule, calendars, n - 1);
      ReadRereads(StopCheck(v.desk).1, app, schedule, calendars, app.target.consulates[n - 1], k);
      assert app.target.consulates[..n] == app.target.consulates[..n - 1] + [app.target.consulates[n - 1]];
    }
  }

  /** So it is after an application's whole turn. */
  lemma AppRereadsExactly(d: Desk, app: Application, schedule: Option<Schedule>, calendars: Calendars, k: Key)
    requires k in calendars && AppSwept(d, app, schedule, calendars).1.Going?
    ensures k in AppSwept(d, app, schedule, calendars).0.borrowed <==>
            k in d.borrowed && !Tempting(app, schedule, calendars, k, app.target.consulates)
  {
    hide VisitTo, Candidates, Pick, UnderCeiling, HasBookable;
    VisitRereadsExactly(d, app, schedule, calendars, |app.target.consulates|, k);
    assert app.target.consulates[..|app.target.consulates|] == app.target.consulates;
  }

  // ---------------------------------------------------------------- groups

  /** The members' entries, when none is missing. */
  ghost predicate AllThere(fid: FacilityId, members: seq<ScheduleId>, calendars: Calendars) {
    forall m :: m in members ==> Key(m, fid) in calendars && calendars[Key(m, fid)].Some?
  }

  ghost function Entries(fid: FacilityId, members: seq<ScheduleId>, calendars: Calendars): (days: seq<seq<Day>>)
    requires AllThere(fid, members, calendars)
    ensures |days| == |members|
  {
    seq(|members|, i requires 0 <= i < |members| => assert members[i] in members; calendars[Key(members[i], fid)].value)
  }

  lemma {:induction false} ConfirmedAreNotBorrowed(d: Desk, fid: FacilityId, members: seq<ScheduleId>,
                                                   shared: seq<seq<Day>>, n: nat)
    requires n <= |members| == |shared|
    ensures var r := ConfirmAll(d, fid, members, shared, n);
            && r.desk.borrowed.Keys <= d.borrowed.Keys
            && (r.status.Going? ==> forall i :: 0 <= i < n ==> Key(members[i], fid) !in r.desk.borrowed)
  {
    hide Tidy;
    if n > 0 {
      ConfirmedAreNotBorrowed(d, fid, members, shared, n - 1);
    }
  }

  /** A group check that has every member's calendar reads the borrowed ones again exactly when the calendars have a
      joint day; afterwards none is borrowed. */
  lemma GroupRereadsExactly(d: Desk, group: Group, byId: ById, fid: FacilityId, members: seq<ScheduleId>,
                            calendars: Calendars)
    requires members != [] && forall m :: m in members ==> Key(m, fid) in calendars
    ensures var r := GroupRead(d, group, byId, fid, members, calendars);
            && (r.status.Going? ==> AllThere(fid, members, calendars))
            && (!AllThere(fid, members, calendars) ==> r.desk.borrowed == d.borrowed)
            && (AllThere(fid, members, calendars) && r.status.Going? ==>
                  var entries := Entries(fid, members, calendars);
                  if exists day :: JointDay(group, byId, members, entries, day) then
                    forall m :: m in members ==> Key(m, fid) !in r.desk.borrowed
                  else r.desk.borrowed == d.borrowed && r.days == entries)
  {
    var shared := SharedDays(d, fid, members, calendars, |members|);
    SharedKeeps(d, fid, members, calendars, |members|);
    hide SharedDays, Joint, JointDay, ConfirmAll;
    var r := GroupRead(d, group, byId, fid, members, calendars);
    assert r == if !shared.status.Going? then shared else Decide(group, byId, fid, members, shared);
    hide GroupRead;
    if shared.status.Going? {
      forall m | m in members
        ensures Key(m, fid) in calendars && calendars[Key(m, fid)].Some?
      {
        var i :| 0 <= i < |members| && members[i] == m;
        assert calendars[Key(members[i], fid)] == Some(shared.days[i]);
      }
      assert shared.days == Entries(fid, members, calendars);
      JointExactly(group, byId, members, shared.days);
      assert Joint(group, byId, members, shared.days) != [] <==>
             exists day :: JointDay(group, byId, members, shared.days, day) by {
        var common := Joint(group, byId, members, shared.days);
        assert common != [] ==> common[0] in common;
      }
      ConfirmedAreNotBorrowed(shared.desk, fid, members, shared.days, |members|);
      assert r == if Joint(group, byId, members, shared.days) != []
                     && exists m :: m in members && Key(m, fid) in shared.desk.borrowed
                  then ConfirmAll(shared.desk, fid, members, shared.days, |members|) else shared;
    }
  }

  /** Calendars fetched for the check are the members' own: whichever were used, none is borrowed afterwards. */
  lemma FetchedAreNotBorrowed(d: Desk, group: Group, byId: ById, fid: FacilityId, members: seq<ScheduleId>,
                              calendars: Calendars)
    requires (exists m :: m in members && Key(m, fid) !in calendars)
    requires GroupRead(d, group, byId, fid, members, calendars).status.Going?
    ensures forall m :: m in members ==>
              && Key(m, fid) !in GroupRead(d, group, byId, fid, members, calendars).desk.borrowed
              && d.site.fetches != [] && d.site.fetches[0].Fetched?
              && Key(m, fid) in d.site.fetches[0].answers && d.site.fetches[0].answers[Key(m, fid)].Some?
  {
    var (fetched, d0) := GroupCalendars(d, fid, members, calendars);
    var shared := SharedDays(d0, fid, members, fetched.value, |members|);
    SharedKeeps(d0, fid, members, fetched.value, |members|);
    hide SharedDays, Joint, ConfirmAll;
    ConfirmedAreNotBorrowed(shared.desk, fid, members, shared.days, |members|);
    forall m | m in members
      ensures Key(m, fid) in fetched.value && fetched.value[Key(m, fid)].Some?
    {
      var i :| 0 <= i < |members| && members[i] == m;
      assert fetched.value[Key(members[i], fid)] == Some(shared.days[i]);
    }
  }
}
