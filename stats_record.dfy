/**
 * The statistics record held by the server and the pure record
 * transformations behind its three API routes.
 */
module StatsRecord {
  import opened JsValues

  /** `MAX_ITEMS`: how many recent links a shorten keeps. */
  const MAX_ITEMS: nat := 5

  /** One recorded shortening. */
  datatype LinkEvent = LinkEvent(original: string, short: string, time: string)

  /**
   * The record. Counters are natural numbers; `lastLinks` holds whatever
   * JSON the backing file had there, with the newest entries first.
   */
  datatype Stats = Stats(totalShortened: nat, qrGenerated: nat, lastLinks: seq<Json>)

  /** The body of the validated shorten request. */
  datatype ShortenInput = ShortenInput(longUrl: string, shortUrl: string)

  datatype Request =
    | GetStats                                        // GET /api/stats
    | PostShorten(body: Option<Json>, time: string)   // POST /api/stats/shorten; `time` is the clock reading
    | PostQr                                          // POST /api/stats/qr

  /** `Ok` is a 200 reply carrying the record; `BadRequest` a 400 reply. */
  datatype Response = Ok(record: Stats) | BadRequest(error: string)

  const INVALID_INPUT_ERROR: string := "Неверные данные. Требуются longUrl и shortUrl."

  function Min(a: int, b: int): int { if a < b then a else b }

  /** `DEFAULT_STATS`: both counters zero and no recent links. */
  function DefaultStats(): (r: Stats)
    ensures r.totalShortened == 0 && r.qrGenerated == 0 && r.lastLinks == []
  {
    Stats(0, 0, [])
  }

  /** The JSON object `{original, short, time}` stored for an event; distinct events give distinct objects. */
  function EventJson(e: LinkEvent): (j: Json)
    ensures j.JObj? && j.fields.Keys == {"original", "short", "time"}
    ensures Prop(j, "original") == Some(JStr(e.original))
    ensures Prop(j, "short") == Some(JStr(e.short))
    ensures Prop(j, "time") == Some(JStr(e.time))
  {
    JObj(map["original" := JStr(e.original), "short" := JStr(e.short), "time" := JStr(e.time)])
  }

  /** `xs.slice(0, end)`: the prefix of length `end`, or all of `xs` if it is shorter. */
  function Take<T>(xs: seq<T>, end: nat): (r: seq<T>)
    ensures |r| == Min(end, |xs|)
    ensures r <= xs
  {
    if end < |xs| then xs[..end] else xs
  }

  /** `[x].concat(xs).slice(0, cap)` */
  function PrependBounded<T>(x: T, xs: seq<T>, cap: nat): (r: seq<T>)
    ensures |r| == Min(|xs| + 1, cap)
    ensures cap > 0 ==> r[0] == x && r[1..] == xs[..Min(|xs|, cap - 1)]
  {
    Take([x] + xs, cap)
  }

  /** The record after a valid shorten: one more link, the event prepended, at most `MAX_ITEMS` kept. */
  function Shortened(s: Stats, longUrl: string, shortUrl: string, time: string): (r: Stats)
    ensures r.totalShortened == s.totalShortened + 1
    ensures r.qrGenerated == s.qrGenerated
    ensures |r.lastLinks| == Min(|s.lastLinks| + 1, MAX_ITEMS) && |r.lastLinks| <= MAX_ITEMS
    ensures r.lastLinks[0] == EventJson(LinkEvent(longUrl, shortUrl, time))
    ensures r.lastLinks[1..] == s.lastLinks[..Min(|s.lastLinks|, MAX_ITEMS - 1)]
  {
    var newItem := EventJson(LinkEvent(longUrl, shortUrl, time));
    s.(totalShortened := s.totalShortened + 1,
       lastLinks := PrependBounded(newItem, s.lastLinks, MAX_ITEMS))
  }

  /** The record after a QR generation. */
  function QrRecorded(s: Stats): (r: Stats)
    ensures r.qrGenerated == s.qrGenerated + 1
    ensures r.totalShortened == s.totalShortened && r.lastLinks == s.lastLinks
  {
    s.(qrGenerated := s.qrGenerated + 1)
  }

  /** `req.body || {}`: a truthy body as it is, otherwise an empty object. */
  function BodyOrEmpty(body: Option<Json>): (b: Json)
    ensures Truthy(body) ==> Some(b) == body
    ensures !Truthy(body) ==> b == JObj(map[])
  {
    if Truthy(body) then body.value else JObj(map[])
  }

  /** The property `key` of the request body, after `req.body || {}`. */
  function Field(body: Option<Json>, key: string): Option<Json>
  {
    Prop(BodyOrEmpty(body), key)
  }

  /** `typeof v === "string"` */
  predicate IsString(v: Option<Json>)
  {
    v.Some? && v.value.JStr?
  }

  /**
   * The shorten handler's guard: both `longUrl` and `shortUrl` must be
   * strings. Empty strings pass.
   */
  function ValidateShorten(body: Option<Json>): (r: Option<ShortenInput>)
    ensures r.Some? <==> IsString(Field(body, "longUrl")) && IsString(Field(body, "shortUrl"))
    ensures r.Some? ==>
              && Field(body, "longUrl") == Some(JStr(r.value.longUrl))
              && Field(body, "shortUrl") == Some(JStr(r.value.shortUrl))
  {
    match (Field(body, "longUrl"), Field(body, "shortUrl"))
    case (Some(JStr(longUrl)), Some(JStr(shortUrl))) => Some(ShortenInput(longUrl, shortUrl))
    case _ => None
  }

  /** One request against the in-memory record: the new record and the reply. */
  function Handle(s: Stats, req: Request): (out: (Stats, Response))
    ensures out.1.Ok? ==> out.1.record == out.0
    ensures out.1.BadRequest? ==> req.PostShorten? && out.0 == s && out.1.error == INVALID_INPUT_ERROR
    ensures req.GetStats? ==> out == (s, Ok(s))
    ensures req.PostQr? ==> out.0 == QrRecorded(s)
    ensures req.PostShorten? ==> (out.1.Ok? <==> ValidateShorten(req.body).Some?)
    ensures req.PostShorten? && out.1.Ok? ==>
              var input := ValidateShorten(req.body).value;
              out.0 == Shortened(s, input.longUrl, input.shortUrl, req.time)
  {
    match req
    case GetStats => (s, Ok(s))
    case PostQr => var updated := QrRecorded(s); (updated, Ok(updated))
    case PostShorten(body, time) =>
      match ValidateShorten(body)
      case None => (s, BadRequest(INVALID_INPUT_ERROR))
      case Some(input) =>
        var updated := Shortened(s, input.longUrl, input.shortUrl, time);
        (updated, Ok(updated))
  }
}
