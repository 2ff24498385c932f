/**
 * The backing file `stats.json`: what startup reads from it and what a
 * save writes to it. The file system calls and the text format are not
 * modelled; a file is either missing, unreadable (reading or parsing
 * threw), or holds a parsed JSON value.
 */
module Persistence {
  import opened JsValues
  import opened StatsRecord

  datatype BackingFile = Missing | Unreadable | Parsed(json: Json)

  /** `value || 0`, read as a counter. */
  function NormalizeCounter(v: Option<Json>): (c: nat)
    ensures !Truthy(v) ==> c == 0
    ensures v.Some? && v.value.JNum? && v.value.n >= 0 ==> c == v.value.n
  {
    if v.Some? && v.value.JNum? && v.value.n > 0 then v.value.n else 0
  }

  /** `Array.isArray(value) ? value : []` */
  function NormalizeLinks(v: Option<Json>): (links: seq<Json>)
    ensures v.Some? && v.value.JArr? ==> links == v.value.items
    ensures !(v.Some? && v.value.JArr?) ==> links == []
  {
    match v
    case Some(JArr(items)) => items
    case _ => []
  }

  /**
   * `loadStatsFromFile`: a missing or unreadable file gives the default
   * record; so does a file holding `null` (reading a property of it throws
   * and the exception is caught). Otherwise each field is normalised on its
   * own; the recent-links list is not shortened.
   */
  function Load(file: BackingFile): (r: Stats)
    ensures !(file.Parsed? && file.json.JObj?) ==> r == DefaultStats()
    ensures file.Parsed? && file.json.JObj? ==>
              && r.totalShortened == NormalizeCounter(Prop(file.json, "totalShortened"))
              && r.qrGenerated == NormalizeCounter(Prop(file.json, "qrGenerated"))
              && r.lastLinks == NormalizeLinks(Prop(file.json, "lastLinks"))
  {
    match file
    case Missing => DefaultStats()
    case Unreadable => DefaultStats()
    case Parsed(JNull) => DefaultStats()
    case Parsed(parsed) =>
      Stats(NormalizeCounter(Prop(parsed, "totalShortened")),
            NormalizeCounter(Prop(parsed, "qrGenerated")),
            NormalizeLinks(Prop(parsed, "lastLinks")))
  }

  /** The JSON value that `saveStatsToFile` writes for a record: an object with exactly its three fields. */
  function ToJson(s: Stats): (j: Json)
    ensures j.JObj? && j.fields.Keys == {"totalShortened", "qrGenerated", "lastLinks"}
    ensures Prop(j, "lastLinks") == Some(JArr(s.lastLinks))
  {
    JObj(map["totalShortened" := JNum(s.totalShortened),
             "qrGenerated" := JNum(s.qrGenerated),
             "lastLinks" := JArr(s.lastLinks)])
  }

  /** A record that was saved is loaded back exactly. */
  lemma SaveLoadRoundTrip(s: Stats)
    ensures Load(Parsed(ToJson(s))) == s
  {
  }

  /**
   * How `writeFileSync` can end. It opens the file for writing, which
   * truncates it, and then writes the text. `OpenFailed`: the open threw and
   * the file is untouched. `WriteFailed`: the open succeeded and the write
   * threw, leaving an empty or partial text; no proper prefix of the text
   * of a JSON object parses, so the file is then unreadable.
   */
  datatype WriteOutcome = Written | OpenFailed | WriteFailed

  /** The backing file after a save of `s` that ended with `outcome`. */
  function FileAfterSave(before: BackingFile, s: Stats, outcome: WriteOutcome): (after: BackingFile)
    ensures outcome.Written? ==> Load(after) == s
    ensures outcome.OpenFailed? ==> after == before
    ensures outcome.WriteFailed? ==> Load(after) == DefaultStats()
  {
    match outcome
    case Written => SaveLoadRoundTrip(s); Parsed(ToJson(s))
    case OpenFailed => before
    case WriteFailed => Unreadable
  }

  /** Loading does not enforce the `MAX_ITEMS` bound: a longer list is kept whole. */
  lemma LoadKeepsLongLists(links: seq<Json>)
    ensures Load(Parsed(JObj(map["lastLinks" := JArr(links)]))) == Stats(0, 0, links)
  {
  }
}
