/** What the configuration rules out, and whether that is enough for every calendar to be read once. */
module BookingConfig {
  import opened Basics
  import opened Calendar
  import opened Days
  import opened BookingSpec
  import opened BookingSources
  import opened BookingPhase
  import opened BookingClash

  /** The entry that counts for an id: the last one listed under it. */
  function EntryOf(configured: seq<Application>, m: ScheduleId): Option<Application> {
    if configured == [] then None
    else
      var last := configured[|configured| - 1];
      if last.scheduleId == m then Some(last) else EntryOf(configured[..|configured| - 1], m)
  }

  /** What the configuration insists on.  Nothing keeps an id from being listed twice among the applications, and the
      check of members against their groups looks at the last entry only. */
  ghost predicate ConfigAccepts(configured: seq<Application>, groups: seq<Group>) {
    && (forall a :: a in configured ==> a.target.consulates != [] && NoDup(a.target.consulates))
    && forall g :: g in groups ==>
                     && g.consulates != [] && NoDup(g.consulates) && |g.members| >= 2 && NoDup(g.members)
                     && g.minSlots >= 1
                     && forall m :: m in g.members ==>
                                      EntryOf(configured, m).Some?
                                      && forall fid ::
                                        fid in EntryOf(configured, m).value.target.consulates ==> fid !in g.consulates
  }

  /** The configured applications the site reports as actionable, with what it says about them. */
  function Actionable(configured: seq<Application>, found: ById): seq<(Application, Schedule)> {
    if configured == [] then []
    else
      var before := Actionable(configured[..|configured| - 1], found);
      var last := configured[|configured| - 1];
      if last.scheduleId in found then before + [(last, found[last.scheduleId])] else before
  }

  /** No two groups share both a member and a consulate. */
  ghost predicate GroupsApart(groups: seq<Group>) {
    forall i, j | 0 <= i < j < |groups| ::
      (forall m :: m in groups[i].members ==> m !in groups[j].members)
      || forall fid :: fid in groups[i].consulates ==> fid !in groups[j].consulates
  }

  /** No entry listed for a member, not only the last one, watches a consulate of its group. */
  ghost predicate MembersApart(applications: seq<(Application, Schedule)>, groups: seq<Group>) {
    forall g, a, fid :: g in groups && a in applications && a.0.scheduleId in g.members && fid in g.consulates ==>
                          fid !in a.0.target.consulates
  }

  /** No id is listed twice. */
  ghost predicate DistinctIds(configured: seq<Application>) {
    forall i, j | 0 <= i < j < |configured| :: configured[i].scheduleId != configured[j].scheduleId
  }

  lemma {:induction false} ActionableAre(configured: seq<Application>, found: ById)
    ensures forall a :: a in Actionable(configured, found) <==>
                          a.0 in configured && a.0.scheduleId in found && a.1 == found[a.0.scheduleId]
    ensures DistinctIds(configured) ==>
              forall i, j | 0 <= i < j < |Actionable(configured, found)| ::
                Actionable(configured, found)[i].0.scheduleId != Actionable(configured, found)[j].0.scheduleId
  {
    if configured != [] {
      var front, last := configured[..|configured| - 1], configured[|configured| - 1];
      ActionableAre(front, found);
      assert configured == front + [last];
      assert DistinctIds(configured) ==> DistinctIds(front);
      var before := Actionable(front, found);
      if DistinctIds(configured) {
        forall i | 0 <= i < |before|
          ensures before[i].0.scheduleId != last.scheduleId
        {
          assert before[i] in before;
          var j :| 0 <= j < |front| && front[j] == before[i].0;
          assert configured[j] == front[j];
        }
      }
    }
  }

  lemma {:induction false} EntryIsListed(configured: seq<Application>, m: ScheduleId)
    ensures EntryOf(configured, m).Some? <==> exists a :: a in configured && a.scheduleId == m
    ensures EntryOf(configured, m).Some? ==>
              EntryOf(configured, m).value in configured && EntryOf(configured, m).value.scheduleId == m
    ensures DistinctIds(configured) ==>
              forall a :: a in configured && a.scheduleId == m ==> EntryOf(configured, m) == Some(a)
  {
    if configured != [] {
      var front, last := configured[..|configured| - 1], configured[|configured| - 1];
      EntryIsListed(front, m);
      assert configured == front + [last];
      assert DistinctIds(configured) ==> DistinctIds(front);
      if DistinctIds(configured) && last.scheduleId == m {
        forall a | a in front
          ensures a.scheduleId != m
        {
          var j :| 0 <= j < |front| && front[j] == a;
          assert configured[j] == a;
        }
      }
    }
  }

  /** The account as the booking phase sees it. */
  function AccountOf(id: AccountId, configured: seq<Application>, found: ById, groups: seq<Group>): Account {
    Account(id, Actionable(configured, found), groups)
  }

  lemma AcceptedHasNoRepeats(id: AccountId, configured: seq<Application>, found: ById, groups: seq<Group>)
    requires ConfigAccepts(configured, groups)
    ensures NoRepeats(AccountOf(id, configured, found, groups))
  {
    ActionableAre(configured, found);
    hide Actionable;
  }

  lemma ApartIsDisjoint(g: Group, h: Group)
    ensures GroupKeys(g.members, g.consulates) !! GroupKeys(h.members, h.consulates) <==>
            (forall m :: m in g.members ==> m !in h.members)
            || forall fid :: fid in g.consulates ==> fid !in h.consulates
  {
    if m, fid :| m in g.members && m in h.members && fid in g.consulates && fid in h.consulates {
      assert Key(m, fid) in GroupKeys(g.members, g.consulates) && Key(m, fid) in GroupKeys(h.members, h.consulates);
    }
  }

  lemma MemberIsDisjoint(g: Group, a: Application)
    ensures GroupKeys(g.members, g.consulates) !! AppKeys(a.scheduleId, a.target.consulates) <==>
            (a.scheduleId in g.members ==> forall fid :: fid in g.consulates ==> fid !in a.target.consulates)
  {
    if a.scheduleId in g.members {
      forall fid | fid in g.consulates && fid in a.target.consulates
        ensures Key(a.scheduleId, fid) in GroupKeys(g.members, g.consulates)
                && Key(a.scheduleId, fid) in AppKeys(a.scheduleId, a.target.consulates)
      {
      }
    }
  }

  /** What accepting a configuration leaves open: groups that overlap, an id listed twice for one consulate, and an
      earlier entry of a member that watches a consulate of its group. */
  lemma AcceptedReadsOnceExactly(id: AccountId, configured: seq<Application>, found: ById, groups: seq<Group>)
    requires ConfigAccepts(configured, groups)
    ensures var account := AccountOf(id, configured, found, groups);
            ReadOnce(account) <==>
            GroupsApart(groups) && EntriesApart(account.applications) && MembersApart(account.applications, groups)
  {
    var account := AccountOf(id, configured, found, groups);
    AcceptedHasNoRepeats(id, configured, found, groups);
    forall i, j | 0 <= i < j < |groups|
      ensures GroupKeys(groups[i].members, groups[i].consulates)
              !! GroupKeys(groups[j].members, groups[j].consulates) <==>
              (forall m :: m in groups[i].members ==> m !in groups[j].members)
              || forall fid :: fid in groups[i].consulates ==> fid !in groups[j].consulates
    {
      ApartIsDisjoint(groups[i], groups[j]);
    }
    forall g, a | g in groups && a in account.applications
      ensures GroupKeys(g.members, g.consulates) !! AppKeys(a.0.scheduleId, a.0.target.consulates) <==>
              (a.0.scheduleId in g.members ==> forall fid :: fid in g.consulates ==> fid !in a.0.target.consulates)
    {
      MemberIsDisjoint(g, a.0);
    }
    hide GroupKeys, AppKeys, Actionable, EntriesApart, NoDup;
  }

  /** With no id listed twice only the groups matter. */
  lemma DistinctIdsLeaveTheGroups(id: AccountId, configured: seq<Application>, found: ById, groups: seq<Group>)
    requires ConfigAccepts(configured, groups) && DistinctIds(configured)
    ensures ReadOnce(AccountOf(id, configured, found, groups)) <==> GroupsApart(groups)
  {
    AcceptedReadsOnceExactly(id, configured, found, groups);
    ActionableAre(configured, found);
    var applications := Actionable(configured, found);
    forall m
      ensures forall a :: a in configured && a.scheduleId == m ==> EntryOf(configured, m) == Some(a)
    {
      EntryIsListed(configured, m);
    }
    assert EntriesApart(applications);
    assert MembersApart(applications, groups);
    hide ReadOnce, Actionable, GroupsApart;
  }

  /** So for an accepted configuration in which everyone has some day to book on, "no slot on a canary's word" holds,
      of all sweeps and sites, if and only if none of the three is the case. */
  lemma AcceptedTrustsNoCanaryExactly(id: AccountId, configured: seq<Application>, found: ById, groups: seq<Group>)
    requires ConfigAccepts(configured, groups) && EveryoneCanBook(AccountOf(id, configured, found, groups))
    ensures var account := AccountOf(id, configured, found, groups);
            NeverOnACanarysWord(account) <==>
            GroupsApart(groups) && EntriesApart(account.applications) && MembersApart(account.applications, groups)
  {
    hide NeverOnACanarysWord, EveryoneCanBook, ReadOnce, EntriesApart, GroupsApart, MembersApart, ConfigAccepts;
    var account := AccountOf(id, configured, found, groups);
    AcceptedHasNoRepeats(id, configured, found, groups);
    AcceptedReadsOnceExactly(id, configured, found, groups);
    TrustsNoCanaryExactly(account);
  }
}
