/** The shared rate limiter and the request loop of a session. */
module HttpClient {
  import opened RateLimiting

  class RateLimiter {
    var rate: real
    var next: real
    /** Since the rate was last configured: what `next` was then, who came, and which slots they got. */
    ghost var first: real
    ghost var turns: seq<Turn>
    ghost var starts: seq<real>

    ghost predicate Valid()
      reads this
    {
      rate >= 0.0 && Queue(next, starts) == AfterTurns(first, rate, turns)
    }

    constructor (rate: real)
      ensures Valid() && this.rate == Later(0.0, rate) && next == first == 0.0 && turns == []
    {
      this.rate := Later(0.0, rate);
      next, first, turns, starts := 0.0, 0.0, [], [];
    }

    method Configure(rate: real)
      requires Valid()
      modifies this
      ensures Valid() && this.rate == Later(0.0, rate) && next == first == old(next) && turns == []
    {
      this.rate := Later(0.0, rate);
      first, turns, starts := next, [], [];
    }

    /** Reserve the next slot; how long to wait for it. */
    method Acquire(now: real, urgent: bool) returns (wait: real)
      requires Valid()
      modifies this`next, this`turns, this`starts
      ensures Valid() && turns == old(turns) + [Turn(now, urgent)]
      ensures wait >= 0.0
      ensures if rate > 0.0 && !urgent then starts == old(starts) + [now + wait]
              else starts == old(starts) && wait == 0.0
    {
      assert (turns + [Turn(now, urgent)])[..|turns|] == turns;
      turns := turns + [Turn(now, urgent)];
      if rate <= 0.0 || urgent {
        return 0.0;
      }
      var start := Later(now, next);
      next := start + 1.0 / rate;
      starts := starts + [start];
      wait := start - now;
    }

    /** However the limiter has been used since it was configured, no window of length `t` holds more than
        floor(t * rate) + 1 of its slots. */
    lemma NeverTooManyAtOnce(from: real, t: real)
      requires Valid() && rate > 0.0 && t >= 0.0
      ensures |SlotsWithin(starts, from, t)| <= (t * rate).Floor + 1
    {
      WindowIsBounded(first, rate, turns, from, t);
    }
  }

  datatype Reply = Raised | Status(code: int)

  /** The application itself answered: not a ban, not the proxy, not an outage. */
  predicate SiteReplied(status: int) {
    status < 500 && status != 403 && status != 407 && status != 429
  }

  predicate Answered(r: Reply) {
    r.Status? && SiteReplied(r.code)
  }

  function UpperChar(c: char): char {
    if 'a' <= c <= 'z' then (c as int - 'a' as int + 'A' as int) as char else c
  }

  function Upper(s: string): string {
    seq(|s|, i requires 0 <= i < |s| => UpperChar(s[i]))
  }

  /** Only these are retried: replaying a POST could book twice. */
  predicate Retryable(verb: string) {
    Upper(verb) == "GET" || Upper(verb) == "HEAD"
  }

  /** Any application answer counts, errors of the request included; a ban, a rate limit, the proxy and an outage do
      not. */
  lemma AnswersAre()
    ensures forall code :: code in {200, 204, 302, 304, 400, 401, 404, 422, 499} ==> Answered(Status(code))
    ensures forall code :: code in {403, 407, 429, 500, 502, 503, 599} ==> !Answered(Status(code))
    ensures forall code :: 100 <= code < 600 ==>
              (!Answered(Status(code)) <==> code in {403, 407, 429} || 500 <= code)
    ensures !Answered(Raised)
  {
  }

  /** In whatever case they are written, GET and HEAD are retried, and POST, PUT and DELETE are not. */
  lemma RetriedVerbsAre(verb: string)
    ensures Retryable("GET") && Retryable("get") && Retryable("Head") && !Retryable("POST") && !Retryable("post")
    ensures !Retryable("PUT") && !Retryable("DELETE") && !Retryable("")
    ensures Retryable(verb) <==> Retryable(Upper(verb))
    ensures Upper("abcxyz @[`{09") == "ABCXYZ @[`{09"
  {
    assert Upper("GET") == "GET" && Upper("get") == "GET" && Upper("Head") == "HEAD";
    assert Upper("POST") == "POST" && Upper("post") == "POST" && Upper("PUT")[0] == 'P' && Upper("DELETE")[0] == 'D';
    assert Upper(Upper(verb)) == Upper(verb);
  }

  function TurnsAt(clocks: seq<real>, urgent: bool): seq<Turn> {
    seq(|clocks|, i requires 0 <= i < |clocks| => Turn(clocks[i], urgent))
  }

  class Session {
    const attempts: nat
    var siteReplies: nat
    var retries: nat

    constructor (attempts: int)
      ensures this.attempts >= 1 && siteReplies == retries == 0
    {
      this.attempts := if attempts < 1 then 1 else attempts;
      siteReplies, retries := 0, 0;
    }

    /** Ask up to `attempts` times (a POST once).  `replies` and `clocks` are what the network and the clock would
        give at each attempt.  The result is the first answer of the application, or else the outcome of the last
        attempt; and every attempt, the retries included, took its turn at the limiter. */
    method Request(limiter: RateLimiter, verb: string, urgent: bool, replies: seq<Reply>, clocks: seq<real>)
      returns (reply: Reply, made: nat)
      requires limiter.Valid() && attempts >= 1 && |replies| >= attempts && |clocks| >= attempts
      modifies this`siteReplies, this`retries, limiter`next, limiter`turns, limiter`starts
      ensures 1 <= made <= if Retryable(verb) then attempts else 1
      ensures Upper(verb) == "POST" ==> made == 1
      ensures reply == replies[made - 1] && forall i :: 0 <= i < made - 1 ==> !Answered(replies[i])
      ensures Answered(reply) || made == if Retryable(verb) then attempts else 1
      ensures retries == old(retries) + made - 1
      ensures siteReplies == old(siteReplies) + if Answered(reply) then 1 else 0
      ensures limiter.Valid() && limiter.turns == old(limiter.turns) + TurnsAt(clocks[..made], urgent)
      ensures limiter.rate > 0.0 && !urgent ==> |limiter.starts| == |old(limiter.starts)| + made
    {
      var tries := if Retryable(verb) then attempts else 1;
      made := 0;
      reply := Raised;
      while made < tries && !Answered(reply)
        invariant made <= tries && (made == 0 ==> reply == Raised)
        invariant made > 0 ==> reply == replies[made - 1] && retries == old(retries) + made - 1
        invariant made == 0 ==> retries == old(retries)
        invariant forall i :: 0 <= i < made - 1 ==> !Answered(replies[i])
        invariant siteReplies == old(siteReplies) + if Answered(reply) then 1 else 0
        invariant limiter.Valid() && limiter.turns == old(limiter.turns) + TurnsAt(clocks[..made], urgent)
        invariant limiter.rate > 0.0 && !urgent ==> |limiter.starts| == |old(limiter.starts)| + made
        decreases tries - made
      {
        if made > 0 {
          retries := retries + 1;
        }
        var _ := limiter.Acquire(clocks[made], urgent);
        assert TurnsAt(clocks[..made + 1], urgent) == TurnsAt(clocks[..made], urgent) + [Turn(clocks[made], urgent)];
        reply := replies[made];
        if Answered(reply) {
          siteReplies := siteReplies + 1;
        }
        made := made + 1;
      }
    }
  }
}
