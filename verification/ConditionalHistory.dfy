/** What the state of the ETag cache's run stands for: what was published, which calls are under way and with which
    snapshot, and what is remembered. */
module ConditionalHistory {
  import opened Basics
  import opened ConditionalGet

  // ---------------------------------------------------------------- the site

  /** What was last published at the URL. */
  function LastPublished(events: seq<Event>, url: Url): Option<Resource> {
    if events == [] then None
    else
      match events[|events| - 1]
      case Publish(u, r) => if u == url then Some(r) else LastPublished(events[..|events| - 1], url)
      case _ => LastPublished(events[..|events| - 1], url)
  }

  lemma {:induction false} SiteIsAsPublished(events: seq<Event>, url: Url)
    ensures (if url in After(events).site then Some(After(events).site[url]) else None) == LastPublished(events, url)
  {
    if events != [] {
      SiteIsAsPublished(events[..|events| - 1], url);
    }
  }

  // ---------------------------------------------------------------- the calls

  /** Where a call began, and where it was last served, if it is under way. */
  datatype Way = Way(begun: nat, served: Option<nat>)

  function WayOf(events: seq<Event>, id: nat): Option<Way> {
    if events == [] then None
    else
      var n := |events| - 1;
      var before := WayOf(events[..n], id);
      match events[n]
      case Begin(i, _) => if i == id then Some(Way(n, None)) else before
      case Serve(i, _) => if i == id && before.Some? then Some(before.value.(served := Some(n))) else before
      case Finish(i) => if i == id then None else before
      case _ => before
  }

  /** The call is for the URL it began with and holds what was remembered then; the reply is the one it was served,
      with what the site had at that moment. */
  ghost predicate CallFits(events: seq<Event>, c: Pending, way: Way) {
    && way.begun < |events| && events[way.begun].Begin? && c.url == events[way.begun].url
    && c.snapshot == Cached(After(events[..way.begun]).cache, c.url)
    && (c.served.Some? <==> way.served.Some?)
    && (c.served.Some? ==>
          && way.served.value < |events| && events[way.served.value].Serve?
          && c.served.value.0 == events[way.served.value].reply
          && Some(c.served.value.1) == LastPublished(events[..way.served.value], c.url))
  }

  lemma CallFitsLater(front: seq<Event>, e: Event, c: Pending, way: Way)
    requires CallFits(front, c, way)
    ensures CallFits(front + [e], c, way)
  {
    var events := front + [e];
    assert events[..way.begun] == front[..way.begun];
    assert way.served.Some? ==> events[..way.served.value] == front[..way.served.value];
    hide After, LastPublished;
  }

  lemma {:induction false} CallsAreUnderWay(content: map<(Url, Etag), Body>, events: seq<Event>, id: nat)
    requires Run(content, events)
    ensures id in After(events).calls <==> WayOf(events, id).Some?
    ensures id in After(events).calls ==> CallFits(events, After(events).calls[id], WayOf(events, id).value)
  {
    if events != [] {
      var n := |events| - 1;
      var front, e := events[..n], events[n];
      assert events == front + [e];
      CallsAreUnderWay(content, front, id);
      if id in After(front).calls {
        CallFitsLater(front, e, After(front).calls[id], WayOf(front, id).value);
      }
      OneMore(content, front, e, id);
    }
  }

  lemma OneMore(content: map<(Url, Etag), Body>, front: seq<Event>, e: Event, id: nat)
    requires Run(content, front) && Enabled(content, After(front), e)
    requires id in After(front).calls <==> WayOf(front, id).Some?
    requires id in After(front).calls ==> CallFits(front + [e], After(front).calls[id], WayOf(front, id).value)
    ensures id in After(front + [e]).calls <==> WayOf(front + [e], id).Some?
    ensures id in After(front + [e]).calls ==>
              CallFits(front + [e], After(front + [e]).calls[id], WayOf(front + [e], id).value)
  {
    var events, n := front + [e], |front|;
    assert events[..n] == front && events[n] == e;
    if e.Serve? && e.id == id {
      SiteIsAsPublished(front, After(front).calls[id].url);
    }
    hide Run, LastPublished;
  }

  // ---------------------------------------------------------------- the cache and the log

  /** What the last call to end with a parsed body and an ETag for this URL was given. */
  ghost function LastRemembered(events: seq<Event>, url: Url): Option<(Etag, Body)> {
    if events == [] then None
    else
      var n := |events| - 1;
      var before, e := LastRemembered(events[..n], url), events[n];
      if !e.Finish? then before
      else
        var way := WayOf(events[..n], e.id);
        if way.None? || way.value.served.None? || way.value.begun >= n || way.value.served.value >= n
           || !events[way.value.begun].Begin? || !events[way.value.served.value].Serve? then before
        else
          match events[way.value.served.value].reply
          case Found(Some(etag), Some(body)) =>
            if events[way.value.begun].url == url && etag != "" then Some((etag, body)) else before
          case _ => before
  }

  lemma {:induction false} CacheIsAsRemembered(content: map<(Url, Etag), Body>, events: seq<Event>, url: Url)
    requires Run(content, events)
    ensures Cached(After(events).cache, url) == LastRemembered(events, url)
  {
    if events != [] {
      var n := |events| - 1;
      var front, e := events[..n], events[n];
      CacheIsAsRemembered(content, front, url);
      if e.Finish? {
        CallsAreUnderWay(content, front, e.id);
        var c, way := After(front).calls[e.id], WayOf(front, e.id).value;
        assert events[way.begun] == front[way.begun] && events[way.served.value] == front[way.served.value];
        WhatIsRemembered(After(front).cache, c.url, c.served.value.0, url);
        hide Run, WayOf, Cached, Remembered;
      } else {
        hide WayOf;
      }
    }
  }

  /** One answer for each call that ended. */
  lemma {:induction false} OneAnswerEach(content: map<(Url, Etag), Body>, events: seq<Event>)
    requires Run(content, events)
    ensures |After(events).answers| == Ended(events)
  {
    if events != [] {
      OneAnswerEach(content, events[..|events| - 1]);
    }
  }

  function Ended(events: seq<Event>): nat {
    if events == [] then 0 else Ended(events[..|events| - 1]) + if events[|events| - 1].Finish? then 1 else 0
  }

  // ---------------------------------------------------------------- what the site may say

  /** The site may always answer with the current representation, say that the session lapsed, refuse or not be
      reached; it may answer 304 when the current ETag was sent, and, to be on the safe side, when none was. */
  lemma SiteMayReply(r: Resource, ifNoneMatch: Option<Etag>)
    ensures MayReply(r, ifNoneMatch, Found(r.etag, Some(r.body))) && MayReply(r, ifNoneMatch, Found(None, Some(r.body)))
    ensures MayReply(r, ifNoneMatch, Unauthorized) && MayReply(r, ifNoneMatch, OtherStatus)
    ensures MayReply(r, ifNoneMatch, NoConnection) && MayReply(r, None, NotModified) && MayReply(r, r.etag, NotModified)
  {
  }
}
