/**
 * What the server promises across many requests handled one after the
 * other: exact counter arithmetic, the bound on the recent-links list once
 * a link has been shortened, and which links the window keeps.
 */
module StatsProperties {
  import opened JsValues
  import opened StatsRecord

  /** The record after handling `reqs` in order, starting from `s`. */
  function Run(s: Stats, reqs: seq<Request>): Stats
    decreases |reqs|
  {
    if reqs == [] then s else Run(Handle(s, reqs[0]).0, reqs[1..])
  }

  predicate IsValidShorten(req: Request)
  {
    req.PostShorten? && ValidateShorten(req.body).Some?
  }

  /** How many of `reqs` are shorten requests that pass validation. */
  function ShortenCount(reqs: seq<Request>): nat
  {
    if reqs == [] then 0
    else (if IsValidShorten(reqs[0]) then 1 else 0) + ShortenCount(reqs[1..])
  }

  /** How many of `reqs` are QR requests. */
  function QrCount(reqs: seq<Request>): nat
  {
    if reqs == [] then 0
    else (if reqs[0].PostQr? then 1 else 0) + QrCount(reqs[1..])
  }

  /**
   * Each valid shorten adds exactly one to `totalShortened`, each QR request
   * exactly one to `qrGenerated`, and nothing else moves either counter; so
   * both counters only grow.
   */
  lemma {:induction false} RunCounters(s: Stats, reqs: seq<Request>)
    ensures Run(s, reqs).totalShortened == s.totalShortened + ShortenCount(reqs)
    ensures Run(s, reqs).qrGenerated == s.qrGenerated + QrCount(reqs)
    decreases |reqs|
  {
    if reqs != [] {
      RunCounters(Handle(s, reqs[0]).0, reqs[1..]);
    }
  }

  /**
   * The recent-links list changes only through a valid shorten, and once
   * one has happened it holds at most `MAX_ITEMS` entries, whatever length
   * the loaded list had.
   */
  lemma {:induction false} RunLinks(s: Stats, reqs: seq<Request>)
    ensures ShortenCount(reqs) == 0 ==> Run(s, reqs).lastLinks == s.lastLinks
    ensures ShortenCount(reqs) > 0 ==> |Run(s, reqs).lastLinks| <= MAX_ITEMS
    decreases |reqs|
  {
    if reqs != [] {
      RunLinks(Handle(s, reqs[0]).0, reqs[1..]);
    }
  }

  /** Any number of QR requests change `qrGenerated` by their number and nothing else. */
  lemma {:induction false} QrRepeated(s: Stats, reqs: seq<Request>)
    requires forall r :: r in reqs ==> r == PostQr
    ensures Run(s, reqs) == s.(qrGenerated := s.qrGenerated + |reqs|)
    decreases |reqs|
  {
    if reqs != [] {
      assert reqs[0] in reqs;
      assert forall r :: r in reqs[1..] ==> r in reqs;
      QrRepeated(QrRecorded(s), reqs[1..]);
    }
  }

  /** A shorten request whose body carries the event's two URLs. */
  function ShortenRequest(e: LinkEvent): Request
  {
    PostShorten(Some(JObj(map["longUrl" := JStr(e.original), "shortUrl" := JStr(e.short)])), e.time)
  }

  function ShortenRequests(es: seq<LinkEvent>): (reqs: seq<Request>)
  {
    if es == [] then [] else [ShortenRequest(es[0])] + ShortenRequests(es[1..])
  }

  /** The stored entries of `es`, newest (last) first. */
  function NewestFirst(es: seq<LinkEvent>): seq<Json>
  {
    if es == [] then [] else NewestFirst(es[1..]) + [EventJson(es[0])]
  }

  lemma {:induction false} NewestFirstAt(es: seq<LinkEvent>, i: nat)
    requires i < |es|
    ensures |NewestFirst(es)| == |es| && NewestFirst(es)[i] == EventJson(es[|es| - 1 - i])
    decreases |es|
  {
    if i < |es| - 1 {
      NewestFirstAt(es[1..], i);
    } else {
      NewestFirstLength(es[1..]);
    }
  }

  lemma {:induction false} NewestFirstLength(es: seq<LinkEvent>)
    ensures |NewestFirst(es)| == |es|
    decreases |es|
  {
    if es != [] {
      NewestFirstLength(es[1..]);
    }
  }

  /** Taking a prefix of the tail first does not change the prefix of the whole. */
  lemma TakeOfTake<T>(a: seq<T>, b: seq<T>, n: nat)
    ensures Take(a + Take(b, n), n) == Take(a + b, n)
  {
  }

  /** A valid shorten request for the event's URLs, handled first, is the event's `Shortened`. */
  lemma ShortenRequestStep(s: Stats, es: seq<LinkEvent>)
    requires es != []
    ensures Run(s, ShortenRequests(es))
         == Run(Shortened(s, es[0].original, es[0].short, es[0].time), ShortenRequests(es[1..]))
  {
  }

  /**
   * After a non-empty series of shortens the list holds the first
   * `MAX_ITEMS` entries of (new events newest first, then the old list),
   * and `totalShortened` has grown by the number of events. (With no
   * shorten at all a loaded list longer than `MAX_ITEMS` stays as it is.)
   */
  lemma {:induction false} ShortenWindow(s: Stats, es: seq<LinkEvent>)
    requires es != []
    ensures Run(s, ShortenRequests(es)).lastLinks == Take(NewestFirst(es) + s.lastLinks, MAX_ITEMS)
    ensures Run(s, ShortenRequests(es)).totalShortened == s.totalShortened + |es|
    decreases |es|
  {
    var e := es[0];
    var s1 := Shortened(s, e.original, e.short, e.time);
    ShortenRequestStep(s, es);
    ShortenedLinks(s, e);
    if |es| == 1 {
      assert es[1..] == [];
      assert NewestFirst(es) == [EventJson(e)];
    } else {
      ShortenWindow(s1, es[1..]);
      TakeOfTake(NewestFirst(es[1..]), [EventJson(e)] + s.lastLinks, MAX_ITEMS);
      NewestFirstAppend(es, s.lastLinks);
    }
  }

  /** The list after one shorten, as `Take` of the prepended list. */
  lemma ShortenedLinks(s: Stats, e: LinkEvent)
    ensures Shortened(s, e.original, e.short, e.time).lastLinks
         == Take([EventJson(e)] + s.lastLinks, MAX_ITEMS)
  {
  }

  lemma NewestFirstAppend(es: seq<LinkEvent>, rest: seq<Json>)
    requires es != []
    ensures NewestFirst(es[1..]) + ([EventJson(es[0])] + rest) == NewestFirst(es) + rest
  {
  }

  /**
   * After at least `MAX_ITEMS` shortens only the newest `MAX_ITEMS` events
   * remain, the most recent first.
   */
  lemma LatestFiveKept(s: Stats, es: seq<LinkEvent>)
    requires |es| >= MAX_ITEMS
    ensures |Run(s, ShortenRequests(es)).lastLinks| == MAX_ITEMS
    ensures forall i :: 0 <= i < MAX_ITEMS ==>
              Run(s, ShortenRequests(es)).lastLinks[i] == EventJson(es[|es| - 1 - i])
  {
    ShortenWindow(s, es);
    NewestFirstLength(es);
    forall i | 0 <= i < MAX_ITEMS
      ensures Run(s, ShortenRequests(es)).lastLinks[i] == EventJson(es[|es| - 1 - i])
    {
      NewestFirstAt(es, i);
    }
  }
}
