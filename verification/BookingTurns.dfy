/** Everyone's turn in a booking phase at a site with nothing to give: which desk each group and each application finds,
    and that the phase goes on after it. */
module BookingTurns {
  import opened Basics
  import opened Calendar
  import opened FanOut
  import opened BookingSpec
  import opened BookingBarren

  // ---------------------------------------------------------------- the consulates of a group

  lemma {:induction false} GroupCostGrows(g: Group, n: nat, m: nat)
    requires n <= m
    ensures GroupCost(g, n) <= GroupCost(g, m)
  {
    if n < m {
      GroupCostGrows(g, n, m - 1);
    }
  }

  /** The check at the n-th consulate, from the desk the earlier ones left. */
  lemma GroupToStepFollows(d: Desk, group: Group, byId: ById, members: seq<ScheduleId>, calendars: Calendars, n: nat,
                           w: World)
    requires n < |group.consulates| && members != [] && |members| <= |group.members| && OnlyKnown(calendars, byId)
    requires Barren(d, w, GroupCost(group, n + 1))
    ensures var before := GroupTo(d, group, byId, members, calendars, n);
            var d1 := StopCheck(before.0).1;
            && before.1.Going? && Follows(d, before.0) && Follows(before.0, d1) && Barren(d1, w, 1 + 2 * |members|)
            && Follows(d1, GroupTo(d, group, byId, members, calendars, n + 1).0)
            && Follows(before.0, GroupTo(d, group, byId, members, calendars, n + 1).0)
            && GroupTo(d, group, byId, members, calendars, n + 1).0
               == GroupSwept(d1, group, byId, group.consulates[n], members, calendars).0
  {
    hide GroupSwept, OnlyKnown;
    GroupToBarren(d, group, byId, members, calendars, n, w, 2 + 2 * |group.members|);
    var d1 := StopCheck(GroupTo(d, group, byId, members, calendars, n).0).1;
    Fewer(d1, w, 1 + 2 * |group.members|, 1 + 2 * |members|);
    GroupBarren(d1, group, byId, group.consulates[n], members, calendars, w, 0);
    hide Barren;
  }

  lemma {:induction false} GroupToLater(d: Desk, group: Group, byId: ById, members: seq<ScheduleId>,
                                        calendars: Calendars, n: nat, m: nat, w: World)
    requires n <= m <= |group.consulates| && members != [] && |members| <= |group.members| && OnlyKnown(calendars, byId)
    requires Barren(d, w, GroupCost(group, m))
    ensures Follows(GroupTo(d, group, byId, members, calendars, n).0, GroupTo(d, group, byId, members, calendars, m).0)
    decreases m
  {
    if n < m {
      Fewer(d, w, GroupCost(group, m), GroupCost(group, m - 1));
      GroupToLater(d, group, byId, members, calendars, n, m - 1, w);
      GroupToStepFollows(d, group, byId, members, calendars, m - 1, w);
      FollowsTwice(GroupTo(d, group, byId, members, calendars, n).0,
                   GroupTo(d, group, byId, members, calendars, m - 1).0,
                   GroupTo(d, group, byId, members, calendars, m).0);
    }
  }

  /** The desk at the moment the group turns to its c-th consulate, for these members. */
  lemma AtTheConsulate(d: Desk, g: Group, byId: ById, members: seq<ScheduleId>, calendars: Calendars, c: nat, w: World)
    returns (d1: Desk)
    requires c < |g.consulates| && members != [] && |members| <= |g.members|
    requires OnlyKnown(calendars, byId) && Barren(d, w, GroupCost(g, |g.consulates|))
    ensures Follows(d, d1) && Barren(d1, w, 1 + 2 * |members|)
    ensures Follows(GroupSwept(d1, g, byId, g.consulates[c], members, calendars).0,
                    GroupTo(d, g, byId, members, calendars, |g.consulates|).0)
  {
    var n := |g.consulates|;
    hide GroupTo, GroupSwept, Barren, Follows, OnlyKnown, StopCheck, GroupCost;
    GroupCostGrows(g, c + 1, n);
    Fewer(d, w, GroupCost(g, n), GroupCost(g, c + 1));
    GroupToStepFollows(d, g, byId, members, calendars, c, w);
    d1 := StopCheck(GroupTo(d, g, byId, members, calendars, c).0).1;
    FollowsTwice(d, GroupTo(d, g, byId, members, calendars, c).0, d1);
    GroupToLater(d, g, byId, members, calendars, c + 1, n, w);
  }

  /** The desk at the moment the group turns to this consulate, for its unbooked members. */
  lemma AtTheCheck(d: Desk, g: Group, byId: ById, calendars: Calendars, fid: FacilityId, w: World) returns (d1: Desk)
    requires fid in g.consulates && |Unbooked(d.booked, g.members)| >= 2
    requires OnlyKnown(calendars, byId) && Barren(d, w, GroupCost(g, |g.consulates|))
    ensures var members := Unbooked(d.booked, g.members);
            && Follows(d, d1) && Barren(d1, w, 1 + 2 * |members|)
            && Follows(GroupSwept(d1, g, byId, fid, members, calendars).0, GroupDone(d, g, byId, calendars).0)
  {
    var members := Unbooked(d.booked, g.members);
    FewUnbooked(d.booked, g.members);
    var c :| 0 <= c < |g.consulates| && g.consulates[c] == fid;
    hide GroupTo, GroupSwept, Barren, Follows, OnlyKnown, StopCheck, GroupCost, Unbooked;
    d1 := AtTheConsulate(d, g, byId, members, calendars, c, w);
  }

  // ---------------------------------------------------------------- the groups

  lemma {:induction false} GroupsCostGrows(groups: seq<Group>, n: nat, m: nat)
    requires n <= m <= |groups|
    ensures GroupsCost(groups, n) <= GroupsCost(groups, m)
  {
    if n < m {
      GroupsCostGrows(groups, n, m - 1);
    }
  }

  lemma GroupsToStepFollows(d: Desk, account: Account, calendars: Calendars, n: nat, w: World)
    requires n < |account.groups| && OnlyKnown(calendars, ByIdOf(account.applications))
    requires Barren(d, w, GroupsCost(account.groups, n + 1))
    ensures var before := GroupsTo(d, account, calendars, n);
            var d1 := StopCheck(before.0).1;
            var g := account.groups[n];
            && Follows(d, d1) && Follows(before.0, d1) && Barren(d1, w, GroupCost(g, |g.consulates|))
            && Follows(before.0, GroupsTo(d, account, calendars, n + 1).0)
            && GroupsTo(d, account, calendars, n + 1).0 == GroupDone(d1, g, ByIdOf(account.applications), calendars).0
  {
    hide GroupDone, OnlyKnown, GroupCost;
    var g := account.groups[n];
    var cost := GroupCost(g, |g.consulates|);
    GroupsToBarren(d, account, calendars, n, w, 1 + cost);
    var mid := GroupsTo(d, account, calendars, n).0;
    var d1 := StopCheck(mid).1;
    GroupDoneBarren(d1, g, ByIdOf(account.applications), calendars, w, 0);
    hide Barren;
  }

  lemma {:induction false} GroupsToLater(d: Desk, account: Account, calendars: Calendars, n: nat, m: nat, w: World)
    requires n <= m <= |account.groups| && OnlyKnown(calendars, ByIdOf(account.applications))
    requires Barren(d, w, GroupsCost(account.groups, m))
    ensures Follows(GroupsTo(d, account, calendars, n).0, GroupsTo(d, account, calendars, m).0)
    decreases m
  {
    if n < m {
      Fewer(d, w, GroupsCost(account.groups, m), GroupsCost(account.groups, m - 1));
      GroupsToLater(d, account, calendars, n, m - 1, w);
      GroupsToStepFollows(d, account, calendars, m - 1, w);
      FollowsTwice(GroupsTo(d, account, calendars, n).0, GroupsTo(d, account, calendars, m - 1).0,
                   GroupsTo(d, account, calendars, m).0);
    }
  }

  /** The desk at the moment the phase turns to a group. */
  lemma AtTheGroup(d: Desk, account: Account, calendars: Calendars, i: nat, n: nat, w: World) returns (d1: Desk)
    requires i < n <= |account.groups| && OnlyKnown(calendars, ByIdOf(account.applications))
    requires Barren(d, w, GroupsCost(account.groups, n))
    ensures Follows(d, d1) && Follows(GroupsTo(d, account, calendars, i).0, d1)
    ensures Barren(d1, w, GroupCost(account.groups[i], |account.groups[i].consulates|))
    ensures Follows(GroupDone(d1, account.groups[i], ByIdOf(account.applications), calendars).0,
                    GroupsTo(d, account, calendars, n).0)
  {
    hide GroupsTo, GroupDone, ByIdOf, Barren, GroupsCost, GroupCost, OnlyKnown, Follows, StopCheck;
    GroupsCostGrows(account.groups, i + 1, n);
    Fewer(d, w, GroupsCost(account.groups, n), GroupsCost(account.groups, i + 1));
    GroupsToStepFollows(d, account, calendars, i, w);
    d1 := StopCheck(GroupsTo(d, account, calendars, i).0).1;
    GroupsToLater(d, account, calendars, i + 1, n, w);
  }

  // ---------------------------------------------------------------- the applications

  lemma {:induction false} AppsCostGrows(apps: seq<(Application, Schedule)>, n: nat, m: nat)
    requires n <= m <= |apps|
    ensures AppsCost(apps, n) <= AppsCost(apps, m)
  {
    if n < m {
      AppsCostGrows(apps, n, m - 1);
    }
  }

  lemma AppsToStepFollows(d: Desk, apps: seq<(Application, Schedule)>, calendars: Calendars, n: nat, w: World)
    requires n < |apps| && Barren(d, w, AppsCost(apps, n + 1))
    ensures var before := AppsTo(d, apps, calendars, n);
            var d1 := StopCheck(before.0).1;
            && Follows(d, d1) && Follows(before.0, d1) && Barren(d1, w, 2 * |apps[n].0.target.consulates|)
            && Follows(before.0, AppsTo(d, apps, calendars, n + 1).0)
            && AppsTo(d, apps, calendars, n + 1).0 == AppSwept(d1, apps[n].0, Some(apps[n].1), calendars).0
  {
    hide AppSwept;
    var cost := 2 * |apps[n].0.target.consulates|;
    AppsToBarren(d, apps, calendars, n, w, 1 + cost);
    var mid := AppsTo(d, apps, calendars, n).0;
    AppBarren(StopCheck(mid).1, apps[n].0, Some(apps[n].1), calendars, w, 0);
    hide Barren;
  }

  lemma {:induction false} AppsToLater(d: Desk, apps: seq<(Application, Schedule)>, calendars: Calendars, n: nat,
                                       m: nat, w: World)
    requires n <= m <= |apps| && Barren(d, w, AppsCost(apps, m))
    ensures Follows(AppsTo(d, apps, calendars, n).0, AppsTo(d, apps, calendars, m).0)
    decreases m
  {
    if n < m {
      Fewer(d, w, AppsCost(apps, m), AppsCost(apps, m - 1));
      AppsToLater(d, apps, calendars, n, m - 1, w);
      AppsToStepFollows(d, apps, calendars, m - 1, w);
      FollowsTwice(AppsTo(d, apps, calendars, n).0, AppsTo(d, apps, calendars, m - 1).0,
                   AppsTo(d, apps, calendars, m).0);
    }
  }

  lemma AppsToStart(d: Desk, apps: seq<(Application, Schedule)>, calendars: Calendars, n: nat, w: World)
    requires n <= |apps| && Barren(d, w, AppsCost(apps, |apps|))
    ensures Follows(d, AppsTo(d, apps, calendars, n).0)
  {
    hide AppsTo, Barren, AppsCost;
    AppsCostGrows(apps, n, |apps|);
    Fewer(d, w, AppsCost(apps, |apps|), AppsCost(apps, n));
    AppsToBarren(d, apps, calendars, n, w, 0);
  }

  /** And to an application. */
  lemma AtTheApp(d: Desk, apps: seq<(Application, Schedule)>, calendars: Calendars, i: nat, n: nat, w: World)
    returns (d1: Desk)
    requires i < n <= |apps| && Barren(d, w, AppsCost(apps, n))
    ensures Follows(d, d1) && Follows(AppsTo(d, apps, calendars, i).0, d1)
    ensures Barren(d1, w, 2 * |apps[i].0.target.consulates|)
    ensures Follows(AppSwept(d1, apps[i].0, Some(apps[i].1), calendars).0, AppsTo(d, apps, calendars, n).0)
  {
    hide AppsTo, AppSwept, Barren, AppsCost, Follows, StopCheck;
    AppsCostGrows(apps, i + 1, n);
    Fewer(d, w, AppsCost(apps, n), AppsCost(apps, i + 1));
    AppsToStepFollows(d, apps, calendars, i, w);
    d1 := StopCheck(AppsTo(d, apps, calendars, i).0).1;
    AppsToLater(d, apps, calendars, i + 1, n, w);
  }

  // ---------------------------------------------------------------- the whole phase

  /** With these booked before the phase. */
  function PhaseCost(booked: set<ScheduleId>, account: Account): nat {
    var pending := Pending(booked, account.applications);
    GroupsCost(account.groups, |account.groups|) + AppsCost(pending, |pending|)
  }

  /** The phase goes through all groups and then all applications not booked before it. */
  lemma PhaseBarren(d: Desk, account: Account, calendars: Calendars, w: World)
    requires OnlyKnown(calendars, ByIdOf(account.applications)) && Barren(d, w, PhaseCost(d.booked, account))
    ensures var pending := Pending(d.booked, account.applications);
            var d0 := GroupsTo(d, account, calendars, |account.groups|).0;
            var after := Processed(d, account, calendars).0;
            && Follows(d, d0) && Follows(d0, after) && Barren(d0, w, AppsCost(pending, |pending|))
            && after == AppsTo(d0, pending, calendars, |pending|).0
  {
    hide GroupsTo, AppsTo, OnlyKnown, GroupsCost, AppsCost, Pending;
    var pending := Pending(d.booked, account.applications);
    GroupsToBarren(d, account, calendars, |account.groups|, w, AppsCost(pending, |pending|));
    AppsToBarren(GroupsTo(d, account, calendars, |account.groups|).0, pending, calendars, |pending|, w, 0);
  }
}
