/** Turning one days.json payload into a calendar. */
module AvailableDays {
  import opened Basics
  import opened Calendar
  import opened Days

  /** An entry of the payload: without a date, with one that does not parse, or with a day. */
  datatype Item = Undated | Unparseable | Dated(day: Day)

  function DaysOf(items: seq<Item>): seq<Day> {
    if items == [] then []
    else
      var last := items[|items| - 1];
      DaysOf(items[..|items| - 1]) + if last.Dated? then [last.day] else []
  }

  /** Every readable date, as often as it is listed, in order; an unreadable entry is skipped, not an error. */
  method AvailableDaysOf(items: seq<Item>) returns (days: seq<Day>)
    ensures Sorted(days) && multiset(days) == multiset(DaysOf(items))
    ensures forall d :: d in days <==> Dated(d) in items
  {
    days := [];
    for n := 0 to |items|
      invariant days == DaysOf(items[..n])
      invariant forall d :: d in days <==> Dated(d) in items[..n]
    {
      assert items[..n + 1][..n] == items[..n] && items[..n + 1] == items[..n] + [items[n]];
      if items[n].Dated? {
        days := days + [items[n].day];
      }
    }
    assert items[..|items|] == items;
    SortDaysSorts(days);
    days := SortDays(days);
  }
}
