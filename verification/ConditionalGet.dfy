/** The ETag cache of a session: conditional requests, also from several threads at once, that give the same answers as
    plain ones. */
module ConditionalGet {
  import opened Basics

  type Url = string
  type Etag = string
  type Body = string

  /** What the site would serve at a URL right now. */
  datatype Resource = Resource(etag: Option<Etag>, body: Body)

  type Cache = map<Url, (Etag, Body)>

  /** A body of None is one that does not parse. */
  datatype Reply =
    | NotModified
    | Found(etag: Option<Etag>, body: Option<Body>)
    | Unauthorized
    | OtherStatus
    | NoConnection

  datatype Outcome = Got(body: Body, etag: Option<Etag>, fromCache: bool) | Nothing | SessionExpired

  function Cached(cache: Cache, url: Url): Option<(Etag, Body)> {
    if url in cache then Some(cache[url]) else None
  }

  function Result(snapshot: Option<(Etag, Body)>, reply: Reply): Outcome {
    match reply
    case NoConnection => Nothing
    case NotModified => if snapshot.Some? then Got(snapshot.value.1, Some(snapshot.value.0), true) else Nothing
    case Unauthorized => SessionExpired
    case OtherStatus => Nothing
    case Found(etag, body) => if body.None? then Nothing else Got(body.value, etag, false)
  }

  function Remembered(cache: Cache, url: Url, reply: Reply): Cache {
    if reply.Found? && reply.body.Some? && reply.etag.Some? && reply.etag.value != "" then
      cache[url := (reply.etag.value, reply.body.value)]
    else cache
  }

  // ---------------------------------------------------------------- the server

  /** For a URL, the ETag determines the body: `content` says which body each ETag stands for. */
  ghost predicate Published(content: map<(Url, Etag), Body>, url: Url, r: Resource) {
    r.etag.Some? && r.etag.value != "" ==> (url, r.etag.value) in content && content[(url, r.etag.value)] == r.body
  }

  /** A reply the site may give for `r` to a request carrying this If-None-Match (sections 13.1.2 and 15.4.5 of RFC
      9110): 304 only when the current ETag is the one sent, 200 only with the current representation. */
  predicate MayReply(r: Resource, ifNoneMatch: Option<Etag>, reply: Reply) {
    match reply
    case NotModified => ifNoneMatch.None? || r.etag == ifNoneMatch
    case Found(etag, body) => (body.Some? ==> body.value == r.body) && (etag.Some? ==> etag == r.etag)
    case _ => true
  }

  // ---------------------------------------------------------------- concurrent callers

  /** A call under way: the snapshot it took of the cache, and, once served, the reply and what the site was serving. */
  datatype Pending = Pending(url: Url, snapshot: Option<(Etag, Body)>, served: Option<(Reply, Resource)>)

  /** `answers` logs every result returned, with what the site was serving when it replied to that request. */
  datatype State = State(site: map<Url, Resource>, cache: Cache, calls: map<nat, Pending>,
                         answers: seq<(Outcome, Resource)>)

  const START := State(map[], map[], map[], [])

  datatype Event =
    | Publish(url: Url, resource: Resource)
    | Begin(id: nat, url: Url)
    | Serve(id: nat, reply: Reply)
    | Finish(id: nat)

  ghost predicate Enabled(content: map<(Url, Etag), Body>, s: State, e: Event) {
    match e
    case Publish(url, r) => Published(content, url, r)
    case Begin(id, url) => id !in s.calls
    case Serve(id, reply) =>
      id in s.calls && s.calls[id].served.None? && s.calls[id].url in s.site
      && var c := s.calls[id];
         MayReply(s.site[c.url], if c.snapshot.Some? then Some(c.snapshot.value.0) else None, reply)
    case Finish(id) => id in s.calls && s.calls[id].served.Some?
  }

  function Step(s: State, e: Event): State {
    match e
    case Publish(url, r) => s.(site := s.site[url := r])
    case Begin(id, url) => s.(calls := s.calls[id := Pending(url, Cached(s.cache, url), None)])
    case Serve(id, reply) =>
      if id in s.calls && s.calls[id].url in s.site then
        s.(calls := s.calls[id := s.calls[id].(served := Some((reply, s.site[s.calls[id].url])))])
      else s
    case Finish(id) =>
      if id in s.calls && s.calls[id].served.Some? then
        var c := s.calls[id];
        var (reply, resource) := c.served.value;
        s.(calls := s.calls - {id}, cache := Remembered(s.cache, c.url, reply),
           answers := s.answers + [(Result(c.snapshot, reply), resource)])
      else s
  }

  ghost predicate Run(content: map<(Url, Etag), Body>, events: seq<Event>)
    decreases |events|, 0
  {
    events == [] || (Run(content, events[..|events| - 1])
                     && Enabled(content, After(events[..|events| - 1]), events[|events| - 1]))
  }

  function After(events: seq<Event>): State {
    if events == [] then START else Step(After(events[..|events| - 1]), events[|events| - 1])
  }

  // ---------------------------------------------------------------- what holds in every run

  /** A remembered body is the one its ETag stands for. */
  ghost predicate Genuine(content: map<(Url, Etag), Body>, url: Url, entry: Option<(Etag, Body)>) {
    entry.Some? ==>
      && entry.value.0 != "" && (url, entry.value.0) in content
      && content[(url, entry.value.0)] == entry.value.1
  }

  ghost predicate ServedWell(content: map<(Url, Etag), Body>, c: Pending) {
    Genuine(content, c.url, c.snapshot)
    && (c.served.Some? ==>
          Published(content, c.url, c.served.value.1)
          && MayReply(c.served.value.1, if c.snapshot.Some? then Some(c.snapshot.value.0) else None, c.served.value.0))
  }

  /** A successful answer is what a plain GET would have been given by the site at the moment it replied. */
  ghost predicate AsPlainGet(answer: (Outcome, Resource)) {
    answer.0.Got? ==> answer.0.body == answer.1.body && (answer.0.etag.Some? ==> answer.0.etag == answer.1.etag)
  }

  ghost predicate Inv(content: map<(Url, Etag), Body>, s: State) {
    && (forall url :: url in s.site ==> Published(content, url, s.site[url]))
    && (forall url :: Genuine(content, url, Cached(s.cache, url)))
    && (forall id :: id in s.calls ==> ServedWell(content, s.calls[id]))
    && (forall n :: 0 <= n < |s.answers| ==> AsPlainGet(s.answers[n]))
  }

  lemma StepKeepsInv(content: map<(Url, Etag), Body>, s: State, e: Event)
    requires Inv(content, s) && Enabled(content, s, e)
    ensures Inv(content, Step(s, e))
  {
    if e.Finish? {
      var c := s.calls[e.id];
      assert ServedWell(content, c);
      RememberingStaysGenuine(content, s.cache, c.url, c.served.value.1, c.served.value.0,
                              if c.snapshot.Some? then Some(c.snapshot.value.0) else None);
      assert AsPlainGet((Result(c.snapshot, c.served.value.0), c.served.value.1));
    }
  }

  /** In every run, however the callers interleave and however often the site changes, every successful answer is the
      body, and the ETag, that an unconditional request would have been given. */
  lemma {:induction false} EveryAnswerIsAsPlainGet(content: map<(Url, Etag), Body>, events: seq<Event>)
    requires Run(content, events)
    ensures Inv(content, After(events))
  {
    if events != [] {
      EveryAnswerIsAsPlainGet(content, events[..|events| - 1]);
      StepKeepsInv(content, After(events[..|events| - 1]), events[|events| - 1]);
    }
  }

  /** What the caller is told: a new body with the ETag it came with, the remembered one when nothing changed, that the
      session lapsed, or else nothing. */
  ghost predicate Tells(snapshot: Option<(Etag, Body)>, reply: Reply, outcome: Outcome) {
    && (forall etag, body :: reply == Found(etag, Some(body)) ==> outcome == Got(body, etag, false))
    && (forall etag, body ::
          reply == NotModified && snapshot == Some((etag, body)) ==> outcome == Got(body, Some(etag), true))
    && (outcome == SessionExpired <==> reply == Unauthorized)
    && (outcome.Got? <==> (reply.Found? && reply.body.Some?) || (reply.NotModified? && snapshot.Some?))
  }

  /** In every run a call that ends is told just that, about the reply it was given. */
  lemma EveryCallIsTold(content: map<(Url, Etag), Body>, events: seq<Event>, id: nat)
    requires Run(content, events) && Enabled(content, After(events), Finish(id))
    ensures var s := After(events);
            var answers := After(events + [Finish(id)]).answers;
            && |answers| == |s.answers| + 1 && answers[..|s.answers|] == s.answers
            && Tells(s.calls[id].snapshot, s.calls[id].served.value.0, answers[|s.answers|].0)
            && answers[|s.answers|].1 == s.calls[id].served.value.1
  {
    assert (events + [Finish(id)])[..|events|] == events;
  }

  /** A later caller is given what an answered one left: the body and ETag of the last 200 that carried an ETag. */
  lemma WhatIsRemembered(cache: Cache, url: Url, reply: Reply, u: Url)
    ensures Cached(Remembered(cache, url, reply), u)
            == if u == url && reply.Found? && reply.body.Some? && reply.etag.Some? && reply.etag.value != "" then
                 Some((reply.etag.value, reply.body.value))
               else Cached(cache, u)
  {
  }

  // ---------------------------------------------------------------- one client

  /** The ETag cache of one session, read and written in two short locked sections around the request. */
  class JsonCache {
    var entries: Cache

    constructor ()
      ensures entries == map[]
    {
      entries := map[];
    }

    method Lookup(url: Url) returns (snapshot: Option<(Etag, Body)>)
      ensures snapshot == Cached(entries, url)
    {
      snapshot := if url in entries then Some(entries[url]) else None;
    }

    /** One conditional request.  `reply` is whatever the site may say to it while serving `resource`: a success is
        exactly what a plain request would have returned, and the cache stays genuine. */
    method GetJsonMeta(ghost content: map<(Url, Etag), Body>, url: Url, ghost resource: Resource, reply: Reply)
      returns (outcome: Outcome)
      requires forall u :: Genuine(content, u, Cached(entries, u))
      requires Published(content, url, resource)
      requires var entry := Cached(entries, url);
               MayReply(resource, if entry.Some? then Some(entry.value.0) else None, reply)
      modifies this
      ensures outcome == Result(Cached(old(entries), url), reply) && entries == Remembered(old(entries), url, reply)
      ensures AsPlainGet((outcome, resource)) && Tells(Cached(old(entries), url), reply, outcome)
      ensures outcome.Got? <==> (reply.Found? && reply.body.Some?) || (reply.NotModified? && url in old(entries))
      ensures forall u :: Genuine(content, u, Cached(entries, u))
    {
      var snapshot := Lookup(url);
      if reply.NoConnection? {
        return Nothing;
      }
      if reply.NotModified? {
        return if snapshot.Some? then Got(snapshot.value.1, Some(snapshot.value.0), true) else Nothing;
      }
      if reply.Unauthorized? {
        return SessionExpired;
      }
      if !reply.Found? || reply.body.None? {
        return Nothing;
      }
      RememberingStaysGenuine(content, entries, url, resource, reply,
                              if snapshot.Some? then Some(snapshot.value.0) else None);
      if reply.etag.Some? && reply.etag.value != "" {
        entries := entries[url := (reply.etag.value, reply.body.value)];
      }
      outcome := Got(reply.body.value, reply.etag, false);
    }
  }

  lemma RememberingStaysGenuine(content: map<(Url, Etag), Body>, cache: Cache, url: Url, r: Resource, reply: Reply,
                                ifNoneMatch: Option<Etag>)
    requires forall u :: Genuine(content, u, Cached(cache, u))
    requires Published(content, url, r) && MayReply(r, ifNoneMatch, reply)
    ensures forall u :: Genuine(content, u, Cached(Remembered(cache, url, reply), u))
  {
    forall u
      ensures Genuine(content, u, Cached(Remembered(cache, url, reply), u))
    {
      assert Genuine(content, u, Cached(cache, u));
    }
  }
}
