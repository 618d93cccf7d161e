/** What one collector session keeps and what each of its calls does to it,
    as functions on values: `addDataPoint` (validation, time stamping,
    rounding, buffering, the periodic flush) and `onComplete` (the final
    flush and the completion flag). The class in DatasetCollector is proved
    to follow these functions step by step. */
module Session {
  import opened Wrappers
  import opened Rounding
  import opened Labels
  import opened Interceptor
  import opened Store
  import opened Endpoints

  /** `UPLOAD_INTERVAL`: the flush window, in milliseconds. */
  const UploadInterval: int := 5 * 1000

  const InvalidSeriesName: string := "invalid time-series name"
  const NotANumber: string := "Datapoint is not a number"
  const InvalidTimestamp: string := "Provide a valid timestamp"
  const AlreadyUploaded: string := "Dataset is already uploaded"
  const InitFailed: string := "Could not generate datasetCollector"

  /** An argument as JavaScript passes it. The collector only asks whether
      `typeof x === "number"`. */
  datatype JsVal = Undefined | Num(n: real) | Str(s: string) | Obj

  /** One append request: its URL and its body `{data, labeling}`. */
  datatype Batch = Batch(url: string, data: seq<Entry>, labeling: Option<Labeling>)

  /** What a collector fixes at creation: its time mode, its declared series,
      the URL its batches go to and the labeling computed from its label. */
  datatype Settings = Settings(
    useDeviceTime: bool, timeSeries: seq<string>, appendUrl: string, labeling: Option<Labeling>)

  /** The closure variables `dataStore.data`, `lastChecked`, `uploadComplete`
      and `error`, and the append requests sent so far. */
  datatype State = State(
    data: seq<Entry>, lastChecked: int, uploadComplete: bool, error: Option<string>, sent: seq<Batch>)

  /** `if (error)`: a present, non-empty message. */
  predicate Truthy(e: Option<string>) {
    e.Some? && e.value != ""
  }

  /** The dataset id out of the init exchange: a rejected request fails with
      the interceptor's message; a reply whose body is not an object with a
      truthy `id` fails with "Could not generate datasetCollector". */
  function InitId(x: Exchange): (r: Result<string, string>)
    ensures r.Success? <==>
      x.OkResponse? && x.body.Object? && "id" in x.body.fields && x.body.fields["id"] != ""
    ensures r.Success? ==> r.value == x.body.fields["id"]
    ensures x.OkResponse? && r.Failure? ==> r.error == InitFailed
    ensures !x.OkResponse? ==> r.Failure? && r.error == Intercept(x).error
  {
    match Intercept(x)
    case Failure(e) => Failure(e)
    case Success(reply) =>
      match reply.text
      case Object(f) => if "id" in f && f["id"] != "" then Success(f["id"]) else Failure(InitFailed)
      case Text(_) => Failure(InitFailed)
  }

  /** The state right after creation, `now` being the clock reading then. */
  function Initial(now: int): State {
    State([], now, false, None, [])
  }

  /** What every reachable state satisfies: the buffer is well formed, and
      every request sent went to the collector's batch URL with its labeling
      and a well-formed snapshot. */
  predicate Valid(cfg: Settings, st: State) {
    && WellFormed(st.data, cfg.timeSeries)
    && forall i :: 0 <= i < |st.sent| ==>
         && st.sent[i].url == cfg.appendUrl
         && st.sent[i].labeling == cfg.labeling
         && WellFormed(st.sent[i].data, cfg.timeSeries)
  }

  /** The argument checks of `addDataPoint`, first failure wins: undeclared
      series, then a stored error, then a value that is not a number, then,
      in caller-time mode only, a time that is not a number. */
  function CheckPoint(cfg: Settings, st: State, time: JsVal, name: string, value: JsVal): (r: Outcome<string>)
    ensures r.Pass? <==>
      name in cfg.timeSeries && !Truthy(st.error) && value.Num? && (cfg.useDeviceTime || time.Num?)
    ensures name !in cfg.timeSeries ==> r == Fail(InvalidSeriesName)
    ensures name in cfg.timeSeries && Truthy(st.error) ==> r == Fail(st.error.value)
    ensures name in cfg.timeSeries && !Truthy(st.error) && !value.Num? ==> r == Fail(NotANumber)
    ensures name in cfg.timeSeries && !Truthy(st.error) && value.Num? && !cfg.useDeviceTime && !time.Num? ==>
      r == Fail(InvalidTimestamp)
  {
    if name !in cfg.timeSeries then Fail(InvalidSeriesName)
    else if Truthy(st.error) then Fail(st.error.value)
    else if !value.Num? then Fail(NotANumber)
    else if !cfg.useDeviceTime && !time.Num? then Fail(InvalidTimestamp)
    else Pass
  }

  /** The point stored for an accepted call: the clock reading in device-time
      mode, the given time otherwise, and the value rounded to hundredths. */
  function StoredPoint(cfg: Settings, now: int, time: JsVal, value: JsVal): Point
    requires value.Num? && (cfg.useDeviceTime || time.Num?)
  {
    var t := if cfg.useDeviceTime then Num(now as real) else time;
    Point(t.n, Round2(value.n))
  }

  /** Whether a call at clock reading `now` flushes: strictly more than the
      interval has passed since the last flush. */
  predicate FlushDue(st: State, now: int) {
    now - st.lastChecked > UploadInterval
  }

  /** One `addDataPoint(time, name, value)` at clock reading `now`. */
  function AddStep(cfg: Settings, st: State, now: int, time: JsVal, name: string, value: JsVal): (Outcome<string>, State)
  {
    var c := CheckPoint(cfg, st, time, name, value);
    if c.Fail? then (c, st)
    else
      var grown := Append(st.data, name, StoredPoint(cfg, now, time, value));
      if FlushDue(st, now) then
        (Pass, st.(data := [], lastChecked := now, sent := st.sent + [Batch(cfg.appendUrl, grown, cfg.labeling)]))
      else
        (Pass, st.(data := grown))
  }

  /** One `onComplete()` whose final append request ends in exchange `x`. */
  function CompleteStep(cfg: Settings, st: State, x: Exchange): (Outcome<string>, State)
  {
    if st.uploadComplete then (Fail(AlreadyUploaded), st)
    else
      var st1 := st.(sent := st.sent + [Batch(cfg.appendUrl, st.data, cfg.labeling)]);
      var reply := Intercept(x);
      if reply.Failure? then (Fail(reply.error), st1)
      else if Truthy(st.error) then (Fail(st.error.value), st1)
      else (Pass, st1.(uploadComplete := true))
  }

  /** A rejected call changes nothing, and no call touches the completion
      flag or the error slot. */
  lemma AddRejectedUnchanged(cfg: Settings, st: State, now: int, time: JsVal, name: string, value: JsVal)
    ensures var (r, st') := AddStep(cfg, st, now, time, name, value);
      && r == CheckPoint(cfg, st, time, name, value)
      && (r.Fail? ==> st' == st)
      && st'.uploadComplete == st.uploadComplete && st'.error == st.error
  {
  }

  /** An accepted call either flushes, exactly when the interval has strictly
      passed, sending one batch that holds the buffer with the new point
      appended and leaving the buffer empty and `lastChecked` at `now`; or
      it sends nothing and only the buffer changes, by that append. */
  lemma AddFlushExactly(cfg: Settings, st: State, now: int, time: JsVal, name: string, value: JsVal)
    requires CheckPoint(cfg, st, time, name, value).Pass?
    ensures var st' := AddStep(cfg, st, now, time, name, value).1;
      var grown := Append(st.data, name, StoredPoint(cfg, now, time, value));
      && (|st'.sent| == |st.sent| + 1 <==> now - st.lastChecked > UploadInterval)
      && (now - st.lastChecked > UploadInterval ==>
            && st'.sent == st.sent + [Batch(cfg.appendUrl, grown, cfg.labeling)]
            && st'.data == [] && st'.lastChecked == now)
      && (now - st.lastChecked <= UploadInterval ==>
            && st'.sent == st.sent && st'.data == grown && st'.lastChecked == st.lastChecked)
  {
  }

  /** Where an accepted point ends up: at the end of its own series' points,
      in the buffer or, when the call flushes, in the batch just sent, with
      every other series' entry as it was before the call. */
  lemma AddPointPlacement(cfg: Settings, st: State, now: int, time: JsVal, name: string, value: JsVal)
    requires Valid(cfg, st)
    requires CheckPoint(cfg, st, time, name, value).Pass?
    ensures var st' := AddStep(cfg, st, now, time, name, value).1;
      var p := StoredPoint(cfg, now, time, value);
      var after := if FlushDue(st, now) then st'.sent[|st.sent|].data else st'.data;
      && |st.data| <= |after|
      && (forall i :: 0 <= i < |st.data| && st.data[i].name != name ==> after[i] == st.data[i])
      && (forall i :: 0 <= i < |st.data| && st.data[i].name == name ==> after[i].data == st.data[i].data + [p])
      && (name !in Names(st.data) ==> |after| == |st.data| + 1 && after[|st.data|] == NewEntry(name, p))
  {
    AppendContents(st.data, name, StoredPoint(cfg, now, time, value));
  }

  /** Every call keeps the state valid. */
  lemma AddPreservesValid(cfg: Settings, st: State, now: int, time: JsVal, name: string, value: JsVal)
    requires Valid(cfg, st)
    ensures Valid(cfg, AddStep(cfg, st, now, time, name, value).1)
  {
    if CheckPoint(cfg, st, time, name, value).Pass? {
      var st' := AddStep(cfg, st, now, time, name, value).1;
      var grown := Append(st.data, name, StoredPoint(cfg, now, time, value));
      AppendWellFormed(st.data, cfg.timeSeries, name, StoredPoint(cfg, now, time, value));
      if FlushDue(st, now) {
        assert WellFormed(st'.data, cfg.timeSeries);
        assert forall i :: 0 <= i < |st'.sent| ==> st'.sent[i] == if i < |st.sent| then st.sent[i] else Batch(cfg.appendUrl, grown, cfg.labeling);
      }
    }
  }

  /** In device-time mode the time argument plays no part: the checks, the
      stored point and the new state are the same whatever it is, and the
      stored time is the clock reading. */
  lemma DeviceTimeIgnoresTime(cfg: Settings, st: State, now: int, t1: JsVal, t2: JsVal, name: string, value: JsVal)
    requires cfg.useDeviceTime
    ensures AddStep(cfg, st, now, t1, name, value) == AddStep(cfg, st, now, t2, name, value)
    ensures value.Num? ==> StoredPoint(cfg, now, t1, value).time == now as real
  {
  }

  /** In caller-time mode an accepted point carries the given time verbatim. */
  lemma CallerTimeKept(cfg: Settings, now: int, time: JsVal, value: JsVal)
    requires !cfg.useDeviceTime && time.Num? && value.Num?
    ensures StoredPoint(cfg, now, time, value).time == time.n
  {
  }

  /** The stored value is the input rounded to hundredths. */
  lemma StoredValueRounded(cfg: Settings, now: int, time: JsVal, value: JsVal)
    requires value.Num? && (cfg.useDeviceTime || time.Num?)
    ensures var v := StoredPoint(cfg, now, time, value).value;
      IsCents(v) && value.n - 0.005 < v <= value.n + 0.005
  {
  }

  /** No entry of the buffer or of a sent batch has a `start` or `end`. */
  predicate NoBounds(st: State) {
    && Unbounded(st.data)
    && forall i :: 0 <= i < |st.sent| ==> Unbounded(st.sent[i].data)
  }

  /** `start` and `end` are never set: a fresh collector has no bounds, and
      no call of either kind introduces one, so none is ever sent. */
  lemma BoundsNeverSet(cfg: Settings, st: State, now: int, time: JsVal, name: string, value: JsVal, x: Exchange)
    requires NoBounds(st)
    ensures NoBounds(Initial(now))
    ensures NoBounds(AddStep(cfg, st, now, time, name, value).1)
    ensures NoBounds(CompleteStep(cfg, st, x).1)
  {
    if CheckPoint(cfg, st, time, name, value).Pass? {
      var grown := Append(st.data, name, StoredPoint(cfg, now, time, value));
      AppendUnbounded(st.data, name, StoredPoint(cfg, now, time, value));
      if FlushDue(st, now) {
        var st' := AddStep(cfg, st, now, time, name, value).1;
        assert forall i :: 0 <= i < |st'.sent| ==> st'.sent[i] == if i < |st.sent| then st.sent[i] else Batch(cfg.appendUrl, grown, cfg.labeling);
      }
    }
    if !st.uploadComplete {
      var st' := CompleteStep(cfg, st, x).1;
      assert forall i :: 0 <= i < |st'.sent| ==> st'.sent[i] == if i < |st.sent| then st.sent[i] else Batch(cfg.appendUrl, st.data, cfg.labeling);
    }
  }

  /** The points carried by a sequence of batches. */
  function SentCount(sent: seq<Batch>): nat {
    if sent == [] then 0 else SentCount(sent[..|sent| - 1]) + PointCount(sent[|sent| - 1].data)
  }

  /** Points buffered plus points sent. */
  function Total(st: State): nat {
    PointCount(st.data) + SentCount(st.sent)
  }

  /** An accepted call adds exactly one point to what is buffered or sent: a
      flush neither loses nor duplicates a point. A rejected call adds none. */
  lemma AddConservesPoints(cfg: Settings, st: State, now: int, time: JsVal, name: string, value: JsVal)
    ensures var (r, st') := AddStep(cfg, st, now, time, name, value);
      Total(st') == Total(st) + (if r.Pass? then 1 else 0)
  {
    if CheckPoint(cfg, st, time, name, value).Pass? {
      var grown := Append(st.data, name, StoredPoint(cfg, now, time, value));
      AppendCount(st.data, name, StoredPoint(cfg, now, time, value));
      if FlushDue(st, now) {
        var sent' := st.sent + [Batch(cfg.appendUrl, grown, cfg.labeling)];
        assert sent'[..|sent'| - 1] == st.sent;
      }
    }
  }

  /** `onComplete`: a second completion fails with "Dataset is already
      uploaded" and sends nothing. Otherwise exactly one batch is sent,
      holding the whole buffer and the labeling; the call succeeds, and sets
      the flag, exactly when the request succeeds and no error is stored; the
      buffer is never cleared. */
  lemma CompleteMeaning(cfg: Settings, st: State, x: Exchange)
    ensures var (r, st') := CompleteStep(cfg, st, x);
      && st'.data == st.data && st'.lastChecked == st.lastChecked && st'.error == st.error
      && (st.uploadComplete ==> r == Fail(AlreadyUploaded) && st' == st)
      && (!st.uploadComplete ==>
            && st'.sent == st.sent + [Batch(cfg.appendUrl, st.data, cfg.labeling)]
            && (r.Pass? <==> Intercept(x).Success? && !Truthy(st.error))
            && (st'.uploadComplete <==> r.Pass?)
            && (Intercept(x).Failure? ==> r == Fail(Intercept(x).error)))
  {
  }

  /** Completion keeps the state valid. */
  lemma CompletePreservesValid(cfg: Settings, st: State, x: Exchange)
    requires Valid(cfg, st)
    ensures Valid(cfg, CompleteStep(cfg, st, x).1)
  {
    if !st.uploadComplete {
      var st' := CompleteStep(cfg, st, x).1;
      assert forall i :: 0 <= i < |st'.sent| ==> st'.sent[i] == if i < |st.sent| then st.sent[i] else Batch(cfg.appendUrl, st.data, cfg.labeling);
    }
  }

  /** Completing twice: whatever the second request would do, the second
      call fails with "Dataset is already uploaded" and only one final batch
      is sent. */
  lemma CompleteTwice(cfg: Settings, st: State, x: Exchange, y: Exchange)
    requires CompleteStep(cfg, st, x).0.Pass?
    ensures var st1 := CompleteStep(cfg, st, x).1;
      && CompleteStep(cfg, st1, y) == (Fail(AlreadyUploaded), st1)
      && |st1.sent| == |st.sent| + 1
  {
  }

  /** The final flush does not clear the buffer: its points are counted
      once more, so a later flush sends them again. */
  lemma CompleteResendsBuffer(cfg: Settings, st: State, x: Exchange)
    requires !st.uploadComplete
    ensures Total(CompleteStep(cfg, st, x).1) == Total(st) + PointCount(st.data)
  {
    var sent' := st.sent + [Batch(cfg.appendUrl, st.data, cfg.labeling)];
    assert sent'[..|sent'| - 1] == st.sent;
  }

  /** A collector keeps accepting and flushing points after it completed:
      the flag guards only `onComplete`. */
  lemma AddAfterComplete(cfg: Settings, st: State, now: int, time: JsVal, name: string, value: JsVal)
    requires st.uploadComplete && CheckPoint(cfg, st, time, name, value).Pass? && FlushDue(st, now)
    ensures var st' := AddStep(cfg, st, now, time, name, value).1;
      st'.uploadComplete && |st'.sent| == |st.sent| + 1
  {
  }

  /** Device time, series "temp", created at clock 0: a point at clock 1000
      stays buffered, rounded; a point at clock 5001 flushes one batch that
      carries both points, and the buffer is empty afterwards. */
  lemma FlushScenario(url: string, lab: Option<Labeling>)
    ensures AddStep(Settings(true, ["temp"], url, lab), Initial(0), 1000, Undefined, "temp", Num(21.255))
      == (Pass, State([Entry("temp", [Point(1000.0, 21.26)], None, None)], 0, false, None, []))
    ensures AddStep(Settings(true, ["temp"], url, lab),
                    State([Entry("temp", [Point(1000.0, 21.26)], None, None)], 0, false, None, []),
                    5001, Undefined, "temp", Num(20.0))
      == (Pass, State([], 5001, false, None,
                      [Batch(url, [Entry("temp", [Point(1000.0, 21.26), Point(5001.0, 20.0)], None, None)], lab)]))
  {
    Round2Example();
    assert Round2(20.0) == 20.0 by {
      Round2Unique(20.0, 20.0);
    }
    var e, p := Entry("temp", [Point(1000.0, 21.26)], None, None), Point(5001.0, 20.0);
    var both := Entry("temp", [Point(1000.0, 21.26), p], None, None);
    assert Extend(e, p) == both;
    assert Append([e], "temp", p) == [Extend(e, p)] + [e][1..] == [both];
    assert [] + [Batch(url, [both], lab)] == [Batch(url, [both], lab)];
  }
}
