/** The collector object `datasetCollector` returns: the closure variables
    become fields, `addDataPoint`, `upload` and `onComplete` become methods
    that update them in place, and each method is proved to make exactly the
    step the Session functions describe. Requests are not performed: the
    clock reading and the outcome of a request are parameters, and every
    append request is recorded in the ghost log `sent`. */
module DatasetCollector {
  import opened Wrappers
  import opened Rounding
  import opened Labels
  import opened Interceptor
  import opened Store
  import opened Endpoints
  import opened Session

  /** The body of the init request `{name, metaData, timeSeries, labeling}`
      and its URL; the opaque `metaData` is left out. */
  datatype InitRequest = InitRequest(url: string, name: string, timeSeries: seq<string>, labeling: Option<Labeling>)

  class Collector {
    const url: string
    const key: string
    const useDeviceTime: bool
    /** A copy of the declared series, taken at creation. */
    const timeSeries: seq<string>
    const datasetLabel: Option<string>
    /** Computed once from `datasetLabel`, before the init request. */
    const labeling: Option<Labeling>
    /** `data.text.id` of the init reply. */
    const datasetKey: string
    ghost const init: InitRequest

    /** `dataStore.data`. */
    var data: seq<Entry>
    var lastChecked: int
    var uploadComplete: bool
    /** Declared and checked by the source, never assigned by it. */
    var error: Option<string>
    /** The append requests issued so far, each with its deep-copied body. */
    ghost var sent: seq<Batch>

    /** The settings of this collector: its time mode, its declared series,
        its batch URL and its labeling. */
    function Config(): Settings {
      Settings(useDeviceTime, timeSeries, AppendUrl(url, key, datasetKey), labeling)
    }

    ghost function Snapshot(): State
      reads this
    {
      State(data, lastChecked, uploadComplete, error, sent)
    }

    ghost predicate Valid()
      reads this
    {
      Session.Valid(Config(), Snapshot())
    }

    /** Creation after the init exchange `reply`, which must have produced a
        dataset id (otherwise creation fails as InitId says), at clock `now`. */
    constructor (url: string, key: string, name: string, useDeviceTime: bool,
                 timeSeries: seq<string>, datasetLabel: Option<string>, reply: Exchange, now: int)
      requires InitId(reply).Success?
      ensures this.url == url && this.key == key && this.useDeviceTime == useDeviceTime
      ensures this.timeSeries == timeSeries && this.datasetLabel == datasetLabel
      ensures labeling == ParseLabel(datasetLabel)
      ensures datasetKey == InitId(reply).value
      ensures init == InitRequest(InitUrl(url, key), name, timeSeries, labeling)
      ensures Config() == Settings(useDeviceTime, timeSeries, AppendUrl(url, key, datasetKey), ParseLabel(datasetLabel))
      ensures Snapshot() == Initial(now)
      ensures Valid()
    {
      this.url, this.key, this.useDeviceTime := url, key, useDeviceTime;
      this.timeSeries, this.datasetLabel := timeSeries, datasetLabel;
      var lab := ParseLabel(datasetLabel);
      labeling := lab;
      init := InitRequest(InitUrl(url, key), name, timeSeries, lab);
      datasetKey := InitId(reply).value;
      data, lastChecked, uploadComplete, error := [], now, false, None;
      sent := [];
    }

    /** `upload(datasetLabel)`: posts a deep copy of the buffer with the
        labeling. The argument is ignored. */
    method Upload(datasetLabel: Option<string>)
      modifies this`sent
      ensures sent == old(sent) + [Batch(Config().appendUrl, data, labeling)]
    {
      var snapshot := data;
      sent := sent + [Batch(AppendUrl(url, key, datasetKey), snapshot, labeling)];
    }

    /** `addDataPoint(time, name, value)` at clock reading `now`. */
    method AddDataPoint(now: int, time: JsVal, name: string, value: JsVal) returns (r: Outcome<string>)
      requires Valid()
      modifies this
      ensures (r, Snapshot()) == AddStep(Config(), old(Snapshot()), now, time, name, value)
      ensures Valid()
    {
      ghost var before := Snapshot();
      AddPreservesValid(Config(), before, now, time, name, value);
      if name !in timeSeries {
        return Fail(InvalidSeriesName);
      }
      if error.Some? && error.value != "" {
        return Fail(error.value);
      }
      if !value.Num? {
        return Fail(NotANumber);
      }
      if !useDeviceTime && !time.Num? {
        return Fail(InvalidTimestamp);
      }
      var t := time;
      if useDeviceTime {
        t := Num(now as real);
      }
      var p := Point(t.n, Round2(value.n));
      Push(name, p);
      if now - lastChecked > UploadInterval {
        Upload(None);
        lastChecked := now;
        data := [];
      }
      r := Pass;
    }

    /** Lines 111-128 of `addDataPoint`: push the point onto the entry of its
        series, creating the entry on first use, and move the entry's bounds. */
    method Push(name: string, p: Point)
      modifies this`data
      ensures data == Append(old(data), name, p)
    {
      var idx := IndexOf(data, name);
      if idx == -1 {
        AppendAbsent(data, name, p);
        data := data + [NewEntry(name, p)];
      } else {
        AppendPresent(data, name, p, idx);
        var e := data[idx];
        var start, end := e.start, e.end;
        if start.Some? && start.value > p.time {
          start := Some(p.time);
        }
        if end.Some? && end.value < p.time {
          end := Some(p.time);
        }
        data := data[idx := Entry(e.name, e.data + [p], start, end)];
      }
    }

    /** The device-time entry point `addDataPoint(sensorName, value)`. */
    method AddDeviceTimePoint(now: int, sensorName: string, value: JsVal) returns (r: Outcome<string>)
      requires Valid() && useDeviceTime
      modifies this
      ensures (r, Snapshot()) == AddStep(Config(), old(Snapshot()), now, Undefined, sensorName, value)
      ensures Valid()
    {
      r := AddDataPoint(now, Undefined, sensorName, value);
    }

    /** The caller-time entry point `addDataPoint(time, sensorName, value)`. */
    method AddCallerTimePoint(now: int, time: JsVal, sensorName: string, value: JsVal) returns (r: Outcome<string>)
      requires Valid() && !useDeviceTime
      modifies this
      ensures (r, Snapshot()) == AddStep(Config(), old(Snapshot()), now, time, sensorName, value)
      ensures Valid()
    {
      r := AddDataPoint(now, time, sensorName, value);
    }

    /** `onComplete()`, the final append request ending in exchange `reply`. */
    method OnComplete(reply: Exchange) returns (r: Outcome<string>)
      requires Valid()
      modifies this
      ensures (r, Snapshot()) == CompleteStep(Config(), old(Snapshot()), reply)
      ensures Valid()
    {
      CompletePreservesValid(Config(), Snapshot(), reply);
      if uploadComplete {
        return Fail(AlreadyUploaded);
      }
      Upload(datasetLabel);
      var outcome := Intercept(reply);
      if outcome.Failure? {
        return Fail(outcome.error);
      }
      if error.Some? && error.value != "" {
        return Fail(error.value);
      }
      uploadComplete := true;
      r := Pass;
    }
  }

  /** Completing a fresh collector twice: the first call succeeds when its
      request does, the second fails with "Dataset is already uploaded", and
      only one final batch is sent. */
  method CompleteTwiceScenario(init: Exchange, x: Exchange, y: Exchange) returns (first: Outcome<string>, second: Outcome<string>)
    requires InitId(init).Success? && Intercept(x).Success?
    ensures first == Pass && second == Fail(AlreadyUploaded)
  {
    var c := new Collector("http://localhost", "key", "run", true, ["temp"], None, init, 0);
    first := c.OnComplete(x);
    second := c.OnComplete(y);
    assert |c.sent| == 1 && c.uploadComplete;
  }
}
