# Stats store of the URL-shortener server

The server keeps one statistics record in memory: `totalShortened` (how
many links were shortened), `qrGenerated` (how many QR codes were made) and
`lastLinks` (the most recent shortenings, newest first, as
`{original, short, time}` objects). At startup it loads the record from
`stats.json`. `GET /api/stats` returns it. `POST /api/stats/shorten` checks
that `longUrl` and `shortUrl` are strings, adds one to `totalShortened` and
puts the new link at the front of `lastLinks`, keeping at most five.
`POST /api/stats/qr` adds one to `qrGenerated`. After each change the
whole record is written back to the file, and a failed write is only
logged. The write opens the file, which empties it, and then writes the
text. A failure after the open leaves a file that no longer parses, and the
next start then loads the default record.

The project has five modules:

- `JsValues` (`js_values.dfy`): parsed JSON values, `undefined` as `None`,
  property reads and JavaScript truthiness.
- `StatsRecord` (`stats_record.dfy`): the record and the pure transitions
  behind the three routes. It holds the bounded prepend
  (`[newItem].concat(old).slice(0, 5)`), the request guard and `Handle`,
  which turns one request into a new record and a reply.
- `Persistence` (`persistence.dfy`): the backing file, either missing,
  unreadable (the read or the parse threw) or a parsed value. It holds the
  normalisation done by `loadStatsFromFile`, the value a save writes, and
  the proof that a saved record loads back unchanged.
- `StatsServer` (`stats_store.dfy`): class `StatsStore`. Its `stats` field
  is the module-level `let stats` and its `file` field is what `stats.json`
  holds. How a write ends is a parameter: written, failed at the open (file
  untouched) or failed after it (file unreadable). `Shorten`, `Qr` and
  `Get` are the route handlers, written the way the source writes them (copy, increment, prepend, reassign, save). Each is
  proved equal to `Handle`.
- `StatsProperties` (`stats_properties.dfy`): what holds over any sequence
  of requests. Counters move exactly by the number of valid shortens and QR
  requests. The links list is bounded once a shorten has happened. After
  five or more shortens the list holds exactly the five newest events,
  newest first.

Two facts of the code shape the model:

- The guard accepts empty strings. It only tests `typeof ... === "string"`.
- Loading does not cap `lastLinks`, so the bound of five entries does not
  hold from startup. `StatsProperties.RunLinks` states what does hold: the
  list is unchanged until the first valid shorten, and has at most five
  entries from then on.

## Model

| member | source | states |
|---|---|---|
| StatsRecord.DefaultStats | server.js:21-25 | `DEFAULT_STATS`: both counters are 0 and there are no recent links |
| StatsRecord.EventJson | server.js:81-85 | the stored event is an object with exactly the keys `original`, `short` and `time`, holding the two URLs and the time as strings |
| StatsRecord.BodyOrEmpty | server.js:71 | `req.body \|\| {}`: a truthy body is used as it is, and a missing or falsy one becomes an empty object |
| StatsRecord.Take | server.js:87 | `slice(0, end)` gives the prefix of `xs` of length min(end, \|xs\|) |
| StatsRecord.PrependBounded | server.js:87 | `[x].concat(xs).slice(0, cap)` has length min(\|xs\|+1, cap), starts with `x`, and continues with the first min(\|xs\|, cap-1) elements of `xs` in order, so the tail entries are the ones dropped |
| StatsRecord.Shortened | server.js:77-87 | a valid shorten adds 1 to `totalShortened` and leaves `qrGenerated` alone. The new event `{original, short, time}` is at index 0, the list length is min(old+1, 5) and never above 5, and entries 1.. are the first min(old, 4) old entries in order |
| StatsRecord.QrRecorded | server.js:97-98 | a QR adds exactly 1 to `qrGenerated` and leaves `totalShortened` and `lastLinks` unchanged |
| StatsRecord.ValidateShorten | server.js:71-75 | accepts the body if and only if both `longUrl` and `shortUrl` of `req.body \|\| {}` are strings (empty ones included), and then yields exactly those strings |
| StatsRecord.Handle | server.js:65-104 | GET replies with the record and changes nothing. QR gives `QrRecorded`. A shorten succeeds if and only if validation passes, and then gives `Shortened` of the validated URLs and the clock reading. A 400 reply happens only for a shorten, carries the fixed error message and leaves the record unchanged. Every 200 reply carries the new record |
| Persistence.NormalizeCounter | server.js:37-38 | `value \|\| 0`: a falsy or missing counter becomes 0, and a non-negative integer is kept |
| Persistence.NormalizeLinks | server.js:39 | an array is kept as it is, with no length cap. Anything else, including a missing field, becomes `[]` |
| Persistence.Load | server.js:27-45 | a missing file, an unreadable file, or one whose JSON is not an object (such as `null`, whose property read throws and is caught) gives `{0, 0, []}`. For an object each field is normalised on its own |
| Persistence.ToJson | server.js:49 | a save writes an object with exactly the keys `totalShortened`, `qrGenerated` and `lastLinks`, with the list stored as an array; `SaveLoadRoundTrip` shows it loads back as the record |
| Persistence.FileAfterSave | server.js:47-53 | after a save, the file loads back as the saved record if the write succeeded. It is untouched if the open failed. If the write failed after the truncating open, it loads as `{0, 0, []}` |
| Persistence.SaveLoadRoundTrip | server.js:27-53 | a record written by a save is loaded back at restart exactly as it was: counters and link list |
| Persistence.LoadKeepsLongLists | server.js:39 | a file whose `lastLinks` array has any length loads that array whole, with missing counters as 0 |
| StatsServer.StatsStore.constructor | server.js:56 | the in-memory record starts as `Load` of the file, and the file loads back as the record |
| StatsServer.StatsStore.SaveToFile | server.js:47-53 | the file becomes `FileAfterSave` of its old content, the record and the outcome: a good write leaves it loading back as the record, a failed open leaves it as it was, and a failed write after the truncating open leaves it unreadable. The in-memory record is untouched either way |
| StatsServer.StatsStore.Get | server.js:65-67 | replies with the current record, agreeing with `Handle`, and modifies nothing |
| StatsServer.StatsStore.Shorten | server.js:70-93 | the new record and the reply are `Handle` of the old record. On a 400 reply neither the record nor the file changes. On success the in-memory record advances however the write ends, and the file becomes `FileAfterSave` of the new record: synced after a good write, unchanged after a failed open, unreadable after a failed write |
| StatsServer.StatsStore.Qr | server.js:96-104 | the new record and the reply are `Handle` of the old record. The record advances however the write ends, and the file becomes `FileAfterSave` of the new record, synced only after a good write |
| StatsProperties.RunCounters | server.js:70-104 | over any request sequence, `totalShortened` grows by exactly the number of valid shortens and `qrGenerated` by exactly the number of QR requests, so both counters only grow |
| StatsProperties.RunLinks | server.js:73-87 | with no valid shorten in a request sequence, `lastLinks` is unchanged. With at least one, it ends with at most 5 entries, whatever length was loaded |
| StatsProperties.QrRepeated | server.js:96-104 | N QR requests add exactly N to `qrGenerated` and change nothing else |
| StatsProperties.ShortenWindow | server.js:77-87 | after a non-empty series of shortens, `lastLinks` is the first 5 of (the new events newest first, then the old list), and `totalShortened` grew by the number of events |
| StatsProperties.LatestFiveKept | server.js:80-87 | after five or more shortens, `lastLinks` holds exactly the five most recent events, most recent first |

## Left out

- Express setup, JSON body parsing middleware, static file serving, `app.listen` and the `PORT` lookup (server.js:14-15, 59-62, 106-108). This is framework and network plumbing. A request body reaches the model as the parsed value, or `None` when there is none.
- File system calls, `JSON.parse`/`JSON.stringify` text formatting and `console` logging (server.js:29-34, 42, 49-51). These are I/O. The file is a value (missing, unreadable, or a parsed value), and how a write ended is a parameter: `Written`, `OpenFailed` or `WriteFailed`.
- The clock read `new Date().toISOString()` (server.js:84) is the `time` string carried by the shorten request.
- Persistence.NormalizeCounter: the model reads a truthy counter that is not a non-negative integer (a negative number, a string, `true`, an array or an object) as 0. The source keeps such a value, and its later `+= 1` would do JavaScript arithmetic or string concatenation on it. Counters are natural numbers here.
- Persistence.Load: it inherits that reading of ill-typed truthy counters.
- JSON numbers are integers in the model. Fractional and non-finite numbers are not represented.
- StatsRecord.Shortened: counters are unbounded here. The source's counters are double-precision numbers, and at or above 2^53 `+= 1` (server.js:78) no longer changes them; an edited file can hold such a value (for example `1e20`). The exact +1 holds for counters below 2^53.
- StatsRecord.QrRecorded: the same bound applies to `qrGenerated` (server.js:98). The exact +1 holds for counters below 2^53.
- StatsProperties.RunCounters: the exact counts assume both counters stay below 2^53 throughout the run.
- StatsProperties.QrRepeated: adding exactly N assumes `qrGenerated + N` stays below 2^53.
- `updated.lastLinks || []` (server.js:87): the fallback never fires, because the loaded record always holds an array. The model takes the list as it is.
- Races between concurrent requests on the shared `stats` variable. Requests are handled one at a time.
