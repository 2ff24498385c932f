/**
 * The server's mutable state: the module-level `stats` record and the
 * backing file it is saved to. Each route handler is a method; the clock
 * reading and how the file write ended are parameters.
 */
module StatsServer {
  import opened JsValues
  import opened StatsRecord
  import opened Persistence

  class StatsStore {
    /** The in-memory record every route reads and replaces. */
    var stats: Stats
    /** What `stats.json` currently holds. */
    var file: BackingFile

    /** The backing file loads back as the in-memory record. */
    predicate Synced()
      reads this
    {
      Load(file) == stats
    }

    /** Startup: `let stats = loadStatsFromFile()`. */
    constructor (file: BackingFile)
      ensures this.file == file && stats == Load(file)
      ensures Synced()
    {
      this.file := file;
      stats := Load(file);
    }

    /**
     * `saveStatsToFile(stats)`; `outcome` says how the write ended. A
     * failure is swallowed: the in-memory record is untouched either way.
     */
    method SaveToFile(outcome: WriteOutcome)
      modifies this`file
      ensures file == FileAfterSave(old(file), stats, outcome)
      ensures outcome.Written? ==> Synced()
    {
      match outcome
      case Written => file := Parsed(ToJson(stats)); SaveLoadRoundTrip(stats);
      case OpenFailed =>
      case WriteFailed => file := Unreadable;
    }

    /** GET /api/stats: the current record, nothing changed. */
    method Get() returns (resp: Response)
      ensures resp == Ok(stats)
      ensures (stats, resp) == Handle(stats, GetStats)
    {
      resp := Ok(stats);
    }

    /** POST /api/stats/shorten */
    method Shorten(body: Option<Json>, time: string, outcome: WriteOutcome) returns (resp: Response)
      modifies this
      ensures (stats, resp) == Handle(old(stats), PostShorten(body, time))
      ensures resp.BadRequest? ==> file == old(file)
      ensures resp.Ok? ==> file == FileAfterSave(old(file), stats, outcome)
      ensures resp.Ok? && outcome.Written? ==> Synced()
      ensures resp.BadRequest? ==> Synced() == old(Synced())
    {
      var input := ValidateShorten(body);
      if input.None? {
        return BadRequest(INVALID_INPUT_ERROR);
      }
      var updated := stats;
      updated := updated.(totalShortened := updated.totalShortened + 1);
      var newItem := EventJson(LinkEvent(input.value.longUrl, input.value.shortUrl, time));
      updated := updated.(lastLinks := PrependBounded(newItem, updated.lastLinks, MAX_ITEMS));
      stats := updated;
      SaveToFile(outcome);
      resp := Ok(stats);
    }

    /** POST /api/stats/qr */
    method Qr(outcome: WriteOutcome) returns (resp: Response)
      modifies this
      ensures (stats, resp) == Handle(old(stats), PostQr)
      ensures file == FileAfterSave(old(file), stats, outcome)
      ensures outcome.Written? ==> Synced()
    {
      var updated := stats;
      updated := updated.(qrGenerated := updated.qrGenerated + 1);
      stats := updated;
      SaveToFile(outcome);
      resp := Ok(stats);
    }
  }
}
