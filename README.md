# edge-ml node client: the dataset collector, in Dafny

This project models the in-memory collector of the edge-ml Node.js client
(`src/index.js`). `datasetCollector(url, key, name, useDeviceTime, timeSeries,
metaData, datasetLabel)` creates a dataset on the server and returns an object
whose `addDataPoint` buffers timestamped values per named time series. Each
call checks whether more than 5000 ms have passed since the last flush. If so,
it sends the buffer as one append request and empties the buffer.
`onComplete` sends one final batch and marks the dataset as uploaded. Every
request goes through a response interceptor. The interceptor turns a failed
request into a single message string.

Layout, one module per file:

- `wrappers.dfy` (`Wrappers`): Option, Result and Outcome.
- `rounding.dfy` (`Rounding`): `Math.round(value * 100) / 100` over reals.
- `labels.dfy` (`Labels`): `String.prototype.split` on one character, and
  the labeling derived from `datasetLabel`.
- `interceptor.dfy` (`Interceptor`): the response interceptor and its
  error-message format.
- `endpoints.dfy` (`Endpoints`): the init and append URLs.
- `store.dfy` (`Store`): the buffer `dataStore.data` and what appending a
  point does to it. It includes `findIndex` as a loop.
- `session.dfy` (`Session`): the collector's state and its settings as
  values. `AddStep` and `CompleteStep` say what one `addDataPoint` and one
  `onComplete` do. The lemmas about the collector are stated over them.
- `collector.dfy` (`DatasetCollector`): the class `Collector`. Its fields are
  the closure variables, with the declared series copied at creation. Its
  methods update them in place.
  - `AddDataPoint`, `AddDeviceTimePoint` and `AddCallerTimePoint` are proved
    to take exactly the step `AddStep` describes.
  - `OnComplete` is proved to take exactly the step `CompleteStep` describes.
  - `Push` is proved to leave the buffer equal to `Append` of the old buffer.
  - `Upload` is proved to add exactly one batch, the buffer with the
    labeling, to the log `sent`.

What is a parameter instead of an effect:

- The clock (`Date.now()`, `new Date().getTime()`) is the parameter `now`.
  One reading per call stands for the three readings in `addDataPoint`.
- The init exchange is a parameter of the constructor.
- The outcome of the final append request is a parameter of `OnComplete`.
- Append requests are not performed. Each one is recorded, with its URL and
  its deep-copied body, in the ghost log `sent`.

What the code does that a reader of its comments and names might not
expect, and that the model keeps:

- `labelName` is only the text between the first and the second `_`, not
  everything after the first `_`. A label with no `_` is accepted and gives
  no `labelName`.
- New entries get no `start`/`end`, and JavaScript's `>`/`<` with `undefined`
  are false, so the bounds are never set (`BoundsNeverSet`). `start`/`end`
  are meant as the earliest and latest time of a series, but in the code
  they are always absent.
- A periodic flush carries the point that triggered it. The snapshot is taken
  before the buffer is reset (`AddFlushExactly`, `FlushScenario`).
- `Math.round` rounds ties toward positive infinity (`-0.005` becomes `0`),
  not away from zero (`Round2NegativeTie`).
- `upload` ignores its argument. The final batch and the periodic batches
  carry the same labeling, computed once at creation.
- The completion flag only guards `onComplete`. `addDataPoint` keeps buffering
  and flushing after completion (`AddAfterComplete`).
- `onComplete` does not clear the buffer, so the next periodic flush sends
  those points a second time (`CompleteResendsBuffer`).
- The `error` slot is declared and checked but never assigned. It is modelled
  as a field that starts empty and that no method changes. The checks at lines
  95 and 150 are kept.

## Model

| member | source | states |
|---|---|---|
| `Rounding.MathRound` | src/index.js:109 | `Math.round` gives the integer within half a unit of x, with ties going up |
| `Rounding.Round2` | src/index.js:109 | the stored value is a whole number of hundredths within 0.005 of the input, with ties going up |
| `Rounding.Round2Unique` | src/index.js:109 | no other whole number of hundredths lies in that window, so `Round2` is the rounding to hundredths |
| `Rounding.Round2Idempotent` | src/index.js:109 | rounding an already rounded value changes nothing |
| `Rounding.Round2TieUp` | src/index.js:109 | a value exactly halfway between two hundredths rounds up |
| `Rounding.Round2Monotone` | src/index.js:109 | rounding preserves order |
| `Rounding.Round2NegativeTie` | src/index.js:109 | negative ties also round toward +infinity, not away from zero |
| `Rounding.Round2Example` | src/index.js:109 | 21.255 is stored as 21.26 |
| `Labels.Split` | src/index.js:62 | `split("_")` gives at least one piece, and no piece contains the separator |
| `Labels.SplitJoin` | src/index.js:62 | joining the pieces with the separator gives back the label |
| `Labels.JoinSplit` | src/index.js:62 | splitting joined separator-free pieces gives back the pieces |
| `Labels.ParseLabel` | src/index.js:60-63 | there is no labeling exactly when `datasetLabel` is missing or empty |
| `Labels.LabelingMeaning` | src/index.js:60-63 | `labelingName` is the text before the first `_`; `labelName` is absent exactly when there is no `_`, and otherwise runs to the next `_` or the end |
| `Labels.LabelExample` | src/index.js:60-63 | "sensorset_roomA" gives ("sensorset", "roomA") |
| `Labels.LabelSecondSegmentOnly` | src/index.js:60-63 | "a_b_c" gives ("a", "b"): the label name is the second segment only |
| `Labels.LabelWithoutSeparator` | src/index.js:60-63 | "room" gives ("room", no label name) |
| `Interceptor.NatToString` | src/index.js:14 | the status is written as decimal digits, without leading zeros, that read back as the status |
| `Interceptor.ErrorDetail` | src/index.js:16-18 | the detail of a rejection: the body's truthy `error` member, otherwise the body as a string; its use is stated by `Interceptor.ErrorMessageRoundTrip` and the three examples |
| `Interceptor.ErrorMessage` | src/index.js:13-19 | the rejection text `status + ": " + detail`; `Interceptor.ErrorMessageRoundTrip` states that status and detail can be read back from it |
| `Interceptor.Intercept` | src/index.js:5-20 | a success becomes `{status, text: data}`; no response rejects with "Server error"; an error response rejects with `status + ": " + detail` |
| `Interceptor.ErrorMessageRoundTrip` | src/index.js:13-19 | the rejection message determines the status and the detail it was built from |
| `Interceptor.ServerErrorDistinct` | src/index.js:10-19 | a network failure's message differs from every error response's message |
| `Interceptor.StructuredErrorExample` | src/index.js:16-17 | status 500 with body `{error: "disk full"}` gives "500: disk full" |
| `Interceptor.TextErrorExample` | src/index.js:16-18 | status 500 with text body "oops" gives "500: oops" |
| `Interceptor.ObjectWithoutErrorExample` | src/index.js:16-18 | an object body without a truthy `error` is written as "[object Object]" |
| `Endpoints.InitUrl` | src/index.js:65 | the init URL `url + "/ds/api/dataset/init/" + key`; `Endpoints.InitAppendDistinct` states it never equals a batch URL |
| `Endpoints.AppendUrl` | src/index.js:139 | the batch URL `url + "/ds/api/dataset/append/" + key + "/" + datasetKey`; `Endpoints.AppendUrlInjective` states it names one key and one dataset |
| `Endpoints.AppendUrlInjective` | src/index.js:139 | for keys without '/', a batch URL names exactly one key and one dataset |
| `Endpoints.InitAppendDistinct` | src/index.js:23-27 | the init URL never equals a batch URL |
| `Store.Names` | src/index.js:111 | the series names of the buffer, one per entry, in entry order |
| `Store.NewEntry` | src/index.js:112-115 | a new entry holds the one point and has no `start` or `end`; `Store.AppendAbsent` and `Store.AppendBounds` state where it goes and that it has no bounds |
| `Store.Extend` | src/index.js:120-127 | pushing onto an entry keeps its name and adds the point after its points; a present `start` becomes the minimum of itself and the time, a present `end` the maximum, and an absent bound stays absent |
| `Store.Append` | src/index.js:111-128 | the buffer after one point; `Store.AppendFirst`, `Store.AppendNames`, `Store.AppendContents`, `Store.AppendBounds` and `Store.AppendCount` state what it does |
| `Store.IndexOf` | src/index.js:117-119 | `findIndex`: -1 exactly when no entry has the name, and otherwise the first entry with it |
| `Store.AppendAbsent` | src/index.js:111-115 | with no entry for the series, a new one-point entry goes last |
| `Store.AppendPresent` | src/index.js:116-128 | with an entry for the series, only its first entry changes: the point is pushed onto it |
| `Store.AppendFirst` | src/index.js:111-128 | the first entry of the series is extended, or, when there is none, a new entry is added last |
| `Store.AppendNames` | src/index.js:111-121 | entries stay in order of first use; a name is added at the end only on first use |
| `Store.AppendWellFormed` | src/index.js:111-128 | appending to a declared series keeps every entry declared, the names unique and every entry non-empty |
| `Store.AppendContents` | src/index.js:111-121 | the point is appended at the end of its own series' points; every other entry is unchanged |
| `Store.AppendBounds` | src/index.js:112-127 | `start` never increases and `end` never decreases; an absent bound stays absent; a new entry has neither |
| `Store.AppendUnbounded` | src/index.js:112-127 | a buffer without bounds stays without bounds after an append |
| `Store.AppendCount` | src/index.js:111-121 | an append adds exactly one point to the buffer |
| `Session.InitId` | src/index.js:65-74 | creation gets the dataset id exactly when the init reply is an object with a truthy `id`; a rejected request fails with the interceptor's message; any other reply fails with "Could not generate datasetCollector" |
| `Session.CheckPoint` | src/index.js:89-103 | the checks come in order: undeclared series, stored error, non-number value, then (caller-time mode only) non-number time; a call passes exactly when all of them hold |
| `Session.StoredPoint` | src/index.js:105-109 | the point an accepted call stores; `Session.DeviceTimeIgnoresTime`, `Session.CallerTimeKept` and `Session.StoredValueRounded` state its time and value |
| `Session.FlushDue` | src/index.js:130 | a flush is due when strictly more than 5000 ms have passed since the last one; `Session.AddFlushExactly` states what a due flush does |
| `Session.AddStep` | src/index.js:89-135 | one `addDataPoint` on the state as a value; the `Session.Add*` lemmas and `Session.BoundsNeverSet` state its properties, and `DatasetCollector.Collector.AddDataPoint` is proved to take this step |
| `Session.CompleteStep` | src/index.js:145-154 | one `onComplete` awaited to its end, on the state as a value; `Session.CompleteMeaning` and the other `Session.Complete*` lemmas state its properties, and `DatasetCollector.Collector.OnComplete` is proved to take this step |
| `Session.AddRejectedUnchanged` | src/index.js:89-103 | a rejected call leaves the buffer, `lastChecked` and the sent log unchanged; no call changes the completion flag or the error slot |
| `Session.AddFlushExactly` | src/index.js:130-134 | an accepted call sends a batch exactly when `now - lastChecked > 5000`. The batch is the buffer with the new point appended, and afterwards the buffer is empty and `lastChecked = now`. With no flush, nothing is sent |
| `Session.AddPointPlacement` | src/index.js:111-134 | the accepted point ends up last in its own series' points, in the buffer or in the batch just flushed; other entries are unchanged |
| `Session.AddPreservesValid` | src/index.js:89-135 | the buffer stays well formed, and every sent batch carries the collector's URL and labeling |
| `Session.DeviceTimeIgnoresTime` | src/index.js:101-107 | in device-time mode the time argument never matters, and the stored time is the clock reading |
| `Session.CallerTimeKept` | src/index.js:101-107 | in caller-time mode the stored time is the given time |
| `Session.StoredValueRounded` | src/index.js:109 | the stored value is a whole number of hundredths within 0.005 of the given value |
| `Session.BoundsNeverSet` | src/index.js:112-127 | no call of either kind introduces a `start` or `end`, so no buffer or batch ever has one |
| `Session.AddConservesPoints` | src/index.js:111-139 | an accepted call adds exactly one point to the points buffered plus sent: a flush neither loses nor duplicates a point |
| `Session.CompleteMeaning` | src/index.js:145-154 | a repeated call fails with "Dataset is already uploaded" and sends nothing. Otherwise one batch with the whole buffer and the labeling is sent. The call succeeds, and sets the flag, exactly when the request succeeds and no error is stored. The buffer is never cleared |
| `Session.CompletePreservesValid` | src/index.js:137-154 | the final batch also carries the collector's URL and its one labeling |
| `Session.CompleteTwice` | src/index.js:145-154 | after a successful completion, a second one started after the first has finished fails and sends nothing |
| `Session.CompleteResendsBuffer` | src/index.js:145-154 | the final flush leaves its points buffered, so they count twice |
| `Session.AddAfterComplete` | src/index.js:89-135 | after completion, `addDataPoint` still accepts points and flushes |
| `Session.FlushScenario` | src/index.js:89-139 | device time, series "temp": 21.255 at 1000 ms stays buffered as 21.26; a point at 5001 ms flushes one batch with both points and empties the buffer |
| `DatasetCollector.Collector.constructor` | src/index.js:60-80 | the labeling is computed once from the label; the dataset id comes from the init reply; the state starts empty, not uploaded, with no error and `lastChecked = now` |
| `DatasetCollector.Collector.Upload` | src/index.js:137-140 | posts a copy of the buffer with the collector's labeling to its batch URL and ignores its argument |
| `DatasetCollector.Collector.Push` | src/index.js:111-128 | pushes the point onto the first entry of its series in place, or adds a new entry; the buffer becomes `Append` of the old one |
| `DatasetCollector.Collector.AddDataPoint` | src/index.js:89-135 | the in-place update takes exactly the step `AddStep` describes and keeps the collector valid |
| `DatasetCollector.Collector.AddDeviceTimePoint` | src/index.js:156-161 | the device-time entry point passes `undefined` as the time |
| `DatasetCollector.Collector.AddCallerTimePoint` | src/index.js:162-167 | the caller-time entry point passes the time through |
| `DatasetCollector.Collector.OnComplete` | src/index.js:145-154 | the in-place update takes exactly the step `CompleteStep` describes and keeps the collector valid |
| `DatasetCollector.CompleteTwiceScenario` | src/index.js:145-154 | on a fresh collector, a successful completion followed, once it has finished, by another one gives Pass and then "Dataset is already uploaded" |

## Left out

- The HTTP requests themselves and the global interceptor registration:
  the network is outside the model. The init reply and the final request's
  outcome are parameters, and append requests go into a ghost log.
- `sendDataset` and its upload URL: a pass-through wrapper around one request.
- The outcome of periodic flushes: `upload()` at line 131 is neither awaited
  nor given a rejection handler, so a failed periodic flush becomes an
  unhandled promise rejection (which can end the process, depending on the
  Node.js version and settings). The model records the batch in `sent` and
  does not model that rejection.
- Promise and async scheduling: the snapshot is taken synchronously, so a
  sequential model gives the same buffer contents. `OnComplete` is one atomic
  step, but `onComplete` sets `uploadComplete` only after `await upload` at
  lines 149-153. Two calls that overlap both pass the check at line 146, both
  send a final batch, and both can succeed. Overlapping calls are not
  modelled: `CompleteTwice` and `CompleteTwiceScenario` hold for calls where
  the second starts after the first has finished.
- `metaData` and the collector's `name` go only into the init request.
  `InitRequest` records the init URL, `name`, `timeSeries` and the labeling;
  `metaData` is not modelled.
- IEEE-754 floating point: values and times are reals, so
  `Math.round(value * 100) / 100` is exact here. `typeof` is reduced to
  `JsVal`, so NaN and Infinity are not distinguished from other numbers.
- Interceptor.Intercept: a response body is either text or an object whose
  members are strings. These cases are not modelled:
  - a non-string `error` member, where the message would be `"500: 42"`,
    `"500: true"` or `"500: [object Object]"`;
  - an array body, which JavaScript writes as its elements joined by commas;
  - a `null` body, where reading `.error` at line 16 throws a TypeError
    instead of rejecting with the message.

  Which statuses reach the error handler is decided by axios's default
  `validateStatus` (2xx succeeds), which is not part of this model. The
  choice between `OkResponse` and `ErrorResponse` stands for that decision.
- The id check in `datasetCollector` is a precondition of the constructor.
  Its failure path is `InitId`.
- The declared series are fixed at creation. The source keeps a reference to
  the caller's `timeSeries` array (lines 56 and 80) and reads it again on
  every call (line 91). So a caller who changes that array after creation
  changes which names are accepted. A name removed after points for it were
  buffered leaves an entry that is no longer declared. The model copies the
  list and does not capture this aliasing.
- The series name is a string: `timeSeries.includes(name)` with a non-string
  name is not modelled.
- `every` and `findIndex` run the same search; `IndexOf == -1` stands for the
  `every` test.
