/** Sorted lists of days. */
module Days {
  import opened Basics
  import opened Calendar

  function InsertDay(days: seq<Day>, day: Day): seq<Day> {
    if days == [] || day < days[0] then [day] + days else [days[0]] + InsertDay(days[1..], day)
  }

  function SortDays(days: seq<Day>): seq<Day> {
    if days == [] then [] else InsertDay(SortDays(days[..|days| - 1]), days[|days| - 1])
  }

  ghost predicate Sorted(days: seq<Day>) {
    forall i, j :: 0 <= i < j < |days| ==> days[i] <= days[j]
  }

  lemma {:induction false} InsertDayKeeps(days: seq<Day>, day: Day)
    ensures multiset(InsertDay(days, day)) == multiset(days) + multiset{day}
    ensures forall d :: d in InsertDay(days, day) <==> d in days || d == day
  {
    if !(days == [] || day < days[0]) {
      InsertDayKeeps(days[1..], day);
      assert days == [days[0]] + days[1..];
    }
  }

  lemma SortedCons(day: Day, rest: seq<Day>)
    requires Sorted(rest) && (rest == [] || day <= rest[0])
    ensures Sorted([day] + rest)
  {
    var all := [day] + rest;
    forall i, j | 0 <= i < j < |all|
      ensures all[i] <= all[j]
    {
      assert all[j] == rest[j - 1];
      assert i > 0 ==> all[i] == rest[i - 1];
    }
  }

  lemma {:induction false} InsertDaySorts(days: seq<Day>, day: Day)
    requires Sorted(days)
    ensures Sorted(InsertDay(days, day))
  {
    if days == [] || day < days[0] {
      SortedCons(day, days);
    } else {
      var rest := InsertDay(days[1..], day);
      InsertDaySorts(days[1..], day);
      InsertDayKeeps(days[1..], day);
      assert rest[0] in rest;
      SortedCons(days[0], rest);
    }
  }

  /** Sorting keeps every day as often as it came. */
  lemma {:induction false} SortDaysSorts(days: seq<Day>)
    ensures Sorted(SortDays(days))
    ensures multiset(SortDays(days)) == multiset(days)
    ensures forall d :: d in SortDays(days) <==> d in days
  {
    if days != [] {
      SortDaysSorts(days[..|days| - 1]);
      InsertDaySorts(SortDays(days[..|days| - 1]), days[|days| - 1]);
      InsertDayKeeps(SortDays(days[..|days| - 1]), days[|days| - 1]);
      assert days == days[..|days| - 1] + [days[|days| - 1]];
    }
  }

  /** Sorted, each day once. */
  function Ascending(days: set<Day>): (r: seq<Day>)
    ensures forall d :: d in r <==> d in days
    ensures forall i, j :: 0 <= i < j < |r| ==> r[i] < r[j]
  {
    if days == {} then []
    else
      EarliestExists(days);
      var d :| d in days && forall x :: x in days ==> d <= x;
      [d] + Ascending(days - {d})
  }

  lemma {:induction false} EarliestExists(days: set<Day>)
    requires days != {}
    ensures exists d :: d in days && forall x :: x in days ==> d <= x
  {
    assert (forall d :: d !in days) ==> days == {};
    var d :| d in days;
    var rest := days - {d};
    if rest != {} {
      EarliestExists(rest);
      var e :| e in rest && forall x :: x in rest ==> e <= x;
      var m := if d <= e then d else e;
      assert forall x :: x in days ==> x in rest || x == d;
      assert m in days && forall x :: x in days ==> m <= x;
    } else {
      assert forall x :: x in days ==> x in rest || x == d;
    }
  }
}
