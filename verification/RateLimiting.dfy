/** Spacing requests out: reservations one interval apart, shared by every account.  Time is a real number. */
module RateLimiting {

  /** One call of `acquire`: the clock it reads, and whether the calling thread is inside an urgent block. */
  datatype Turn = Turn(now: real, urgent: bool)

  /** The next free slot, and every slot reserved so far. */
  datatype Queue = Queue(next: real, starts: seq<real>)

  function Later(a: real, b: real): real {
    if a < b then b else a
  }

  function Acquired(q: Queue, rate: real, t: Turn): Queue {
    if rate <= 0.0 || t.urgent then q
    else
      var start := Later(t.now, q.next);
      Queue(start + 1.0 / rate, q.starts + [start])
  }

  /** Nothing may be reserved before `first`: zero for a fresh limiter. */
  function AfterTurns(first: real, rate: real, turns: seq<Turn>): Queue {
    if turns == [] then Queue(first, [])
    else Acquired(AfterTurns(first, rate, turns[..|turns| - 1]), rate, turns[|turns| - 1])
  }

  /** The clock readings of the calls that have to queue. */
  function Clocks(turns: seq<Turn>): seq<real> {
    if turns == [] then []
    else
      var last := turns[|turns| - 1];
      Clocks(turns[..|turns| - 1]) + if last.urgent then [] else [last.now]
  }

  /** `x` is the greatest of the clock readings up to the i-th, each pushed back by the slots between. */
  ghost predicate GreatestArrival(clocks: seq<real>, interval: real, i: nat, x: real)
    requires i < |clocks|
  {
    && (forall j :: 0 <= j <= i ==> clocks[j] + (i - j) as real * interval <= x)
    && exists j :: 0 <= j <= i && x == clocks[j] + (i - j) as real * interval
  }

  lemma OneIntervalMore(clocks: seq<real>, interval: real, i: nat, x: real, now: real)
    requires i + 1 < |clocks| && GreatestArrival(clocks, interval, i, x) && now == clocks[i + 1]
    ensures GreatestArrival(clocks, interval, i + 1, Later(now, x + interval))
  {
    var y := Later(now, x + interval);
    forall j | 0 <= j <= i + 1
      ensures clocks[j] + (i + 1 - j) as real * interval <= y
    {
      if j <= i {
        assert (i + 1 - j) as real * interval == (i - j) as real * interval + interval;
      }
    }
    var j :| 0 <= j <= i && x == clocks[j] + (i - j) as real * interval;
    assert (i + 1 - j) as real * interval == (i - j) as real * interval + interval;
    assert (i + 1 - (i + 1)) as real * interval == 0.0;
    if now < x + interval {
      assert y == clocks[j] + (i + 1 - j) as real * interval;
    } else {
      assert y == clocks[i + 1] + (i + 1 - (i + 1)) as real * interval;
    }
  }

  /** Closed form: with a constant rate and a clock that never reads less than `first`, the i-th slot reserved is the
      greatest of now_j + (i - j) / rate over the queueing calls j up to i. */
  lemma {:induction false} ReservationsAreArrivals(first: real, rate: real, turns: seq<Turn>)
    requires rate > 0.0 && forall t :: t in turns ==> t.now >= first
    ensures var q := AfterTurns(first, rate, turns);
            |q.starts| == |Clocks(turns)|
            && (forall i :: 0 <= i < |q.starts| ==> GreatestArrival(Clocks(turns), 1.0 / rate, i, q.starts[i]))
            && q.next == if q.starts == [] then first else q.starts[|q.starts| - 1] + 1.0 / rate
  {
    hide GreatestArrival;
    if turns != [] {
      var front, last := turns[..|turns| - 1], turns[|turns| - 1];
      assert last in turns;
      ReservationsAreArrivals(first, rate, front);
      var before, after := AfterTurns(first, rate, front), AfterTurns(first, rate, turns);
      var clocks, all := Clocks(front), Clocks(turns);
      if !last.urgent {
        var n := |clocks|;
        forall i | 0 <= i < n
          ensures GreatestArrival(all, 1.0 / rate, i, after.starts[i])
        {
          EarlierArrivals(clocks, last.now, 1.0 / rate, i, before.starts[i]);
        }
        if n > 0 {
          OneIntervalMore(all, 1.0 / rate, n - 1, after.starts[n - 1], last.now);
        } else {
          FirstArrival(all, 1.0 / rate);
        }
      } else {
        assert all == clocks;
      }
    }
  }

  lemma EarlierArrivals(clocks: seq<real>, now: real, interval: real, i: nat, x: real)
    requires i < |clocks| && GreatestArrival(clocks, interval, i, x)
    ensures GreatestArrival(clocks + [now], interval, i, x)
  {
    var j :| 0 <= j <= i && x == clocks[j] + (i - j) as real * interval;
    assert (clocks + [now])[j] == clocks[j];
  }

  lemma FirstArrival(clocks: seq<real>, interval: real)
    requires |clocks| > 0
    ensures GreatestArrival(clocks, interval, 0, clocks[0])
  {
    assert (0 - 0) as real * interval == 0.0;
    assert clocks[0] == clocks[0] + (0 - 0) as real * interval;
  }

  // ---------------------------------------------------------------- the rate

  /** Slots are at least one interval apart. */
  ghost predicate Spaced(q: Queue, interval: real) {
    && (forall i :: 0 <= i < |q.starts| - 1 ==> q.starts[i] + interval <= q.starts[i + 1])
    && (q.starts != [] ==> q.starts[|q.starts| - 1] + interval <= q.next)
  }

  lemma {:induction false} SlotsAreSpaced(first: real, rate: real, turns: seq<Turn>)
    requires rate > 0.0
    ensures Spaced(AfterTurns(first, rate, turns), 1.0 / rate)
  {
    if turns != [] {
      SlotsAreSpaced(first, rate, turns[..|turns| - 1]);
    }
  }

  lemma {:induction false} FarApart(q: Queue, interval: real, i: nat, j: nat)
    requires Spaced(q, interval) && i <= j < |q.starts|
    ensures q.starts[i] + (j - i) as real * interval <= q.starts[j]
  {
    if i < j {
      FarApart(q, interval, i, j - 1);
      assert q.starts[j - 1] + interval <= q.starts[j];
      assert (j - i) as real * interval == (j - 1 - i) as real * interval + interval;
    }
  }

  /** Two slots i <= j lie in one window of length `t` only if they and those between are at most
      floor(t * rate) + 1. */
  lemma WindowSpans(first: real, rate: real, turns: seq<Turn>, from: real, t: real, i: nat, j: nat)
    requires rate > 0.0
    requires i <= j < |AfterTurns(first, rate, turns).starts|
    requires from <= AfterTurns(first, rate, turns).starts[i] && AfterTurns(first, rate, turns).starts[j] <= from + t
    ensures j - i + 1 <= (t * rate).Floor + 1
  {
    hide AfterTurns;
    var q := AfterTurns(first, rate, turns);
    SlotsAreSpaced(first, rate, turns);
    FarApart(q, 1.0 / rate, i, j);
    SlotArithmetic((j - i) as real, 1.0 / rate, rate, t);
  }

  /** k intervals fit in `t` only if k <= t * rate. */
  lemma SlotArithmetic(k: real, interval: real, rate: real, t: real)
    requires rate > 0.0 && interval == 1.0 / rate && k * interval <= t
    ensures k <= t * rate
  {
    assert interval * rate == 1.0;
    Regroup(k, interval, rate);
    MonotoneTimes(k * interval, t, rate);
  }

  lemma Regroup(a: real, b: real, c: real)
    ensures a * b * c == a * (b * c)
  {
  }

  lemma MonotoneTimes(a: real, b: real, rate: real)
    requires a <= b && rate > 0.0
    ensures a * rate <= b * rate
  {
  }

  function SlotsWithin(starts: seq<real>, from: real, t: real): set<nat> {
    set k: nat | k < |starts| && from <= starts[k] <= from + t
  }

  /** Both ends of the window count. */
  lemma SlotsWithinAre(starts: seq<real>, from: real, t: real, k: nat)
    ensures k in SlotsWithin(starts, from, t) <==> k < |starts| && starts[k] >= from && starts[k] - from <= t
  {
  }

  /** Any window of length `t` holds at most floor(t * rate) + 1 slots, whatever the clock does, however many threads
      queue, and however many urgent calls pass them by. */
  lemma WindowIsBounded(first: real, rate: real, turns: seq<Turn>, from: real, t: real)
    requires rate > 0.0 && t >= 0.0
    ensures |SlotsWithin(AfterTurns(first, rate, turns).starts, from, t)| <= (t * rate).Floor + 1
  {
    var slots := SlotsWithin(AfterTurns(first, rate, turns).starts, from, t);
    if slots != {} {
      var i, j := Ends(slots);
      WindowSpans(first, rate, turns, from, t, i, j);
      FewBetween(slots, i, j);
    } else {
      MonotoneTimes(0.0, t, rate);
    }
  }

  lemma {:induction false} Ends(slots: set<nat>) returns (i: nat, j: nat)
    requires slots != {}
    ensures i in slots && j in slots && forall k :: k in slots ==> i <= k <= j
  {
    assert (forall n :: n !in slots) ==> slots == {};
    var k :| k in slots;
    var rest := slots - {k};
    if rest == {} {
      assert forall n :: n in slots ==> n in rest || n == k;
      i, j := k, k;
    } else {
      i, j := Ends(rest);
      assert forall n :: n in slots ==> n in rest || n == k;
      i, j := if k < i then k else i, if k > j then k else j;
    }
  }

  lemma {:induction false} FewBetween(slots: set<nat>, i: nat, j: nat)
    requires forall k :: k in slots ==> i <= k <= j
    requires i <= j
    ensures |slots| <= j - i + 1
    decreases j
  {
    var rest := slots - {j};
    if i == j {
      assert rest == {};
    } else {
      FewBetween(rest, i, j - 1);
    }
    assert slots <= rest + {j};
    assert |slots| <= |rest| + 1;
  }
}
