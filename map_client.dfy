/**
 * The non-UI logic of the network map page: polling a background task's
 * status, telling a cached map payload from a queued task, and assembling
 * the map's datasets and layer configuration from the buses and lines
 * payloads.
 *
 * Network traffic is replaced by inputs: a `MapResponse` is what fetching a
 * map endpoint gave, and `replies(i)` is the reply to the i-th request for
 * a task's status URL.
 */
module MapClient {
  import opened Wrappers

  const DefaultMaxAttempts: int := 60

  const TaskFailed := "Task failed"
  const TaskTimeout := "Task timeout - data took too long to load"
  const NoRowsFound := "No buses or lines found in this network"
  const NoNetworkId := "No network ID provided"

  type Row = seq<string>

  /**
   * A JSON object from a map endpoint: either a cached layer (`fields`,
   * `rows`) or a task handle (`status`, `task_id`, `status_url`). A string
   * field that is absent is "" here (both are falsy).
   */
  datatype Payload = Payload(
    status: string,
    taskId: string,
    statusUrl: string,
    fields: seq<string>,
    rows: Option<seq<Row>>)

  datatype JsValue = Undefined | Obj(payload: Payload)

  /** `Error(message)` is an error this code throws; `TypeError` is a property read on `undefined` or a failed `fetch`. */
  datatype JsError = Error(message: string) | TypeError

  datatype TaskResult = TaskResult(data: JsValue)

  /** The JSON body of a status reply. */
  datatype TaskStatus = TaskStatus(state: string, result: Option<TaskResult>, error: Option<string>)

  /** One reply to a status request: an HTTP response, or a `fetch` that rejected. */
  datatype StatusResponse = StatusReply(httpStatus: int, body: TaskStatus) | StatusUnreachable

  /** The reply to fetching a map endpoint. */
  datatype MapResponse = MapResponse(httpStatus: int, statusText: string, body: Payload) | MapUnreachable

  /** How an async helper ends: it returns a value, it sends the browser to the login page (and returns `undefined`), or it throws. */
  datatype Outcome = Returned(value: JsValue) | LoginRedirect | Thrown(error: JsError)

  // ---------------------------------------------------------------------------
  // pollTaskStatus
  // ---------------------------------------------------------------------------

  /** A reply that ends polling: unreachable, 401, or a terminal task state. */
  predicate Decisive(reply: StatusResponse) {
    reply.StatusUnreachable? || reply.httpStatus == 401
    || reply.body.state == "SUCCESS" || reply.body.state == "FAILURE"
  }

  /** What polling ends with at a decisive reply. */
  function Settle(reply: StatusResponse): Outcome
    requires Decisive(reply)
  {
    if reply.StatusUnreachable? then Thrown(TypeError)
    else if reply.httpStatus == 401 then LoginRedirect
    else if reply.body.state == "SUCCESS" then
      (if reply.body.result.Some? then Returned(reply.body.result.value.data) else Thrown(TypeError))
    else
      var e := reply.body.error;
      Thrown(Error(if e.Some? && e.value != "" then e.value else TaskFailed))
  }

  /** Polling from attempt `i` on: the outcome, and how many status requests were made in all. */
  function PollFrom(replies: nat -> StatusResponse, maxAttempts: int, i: nat): (Outcome, nat)
    decreases maxAttempts - i
  {
    if i >= maxAttempts then (Thrown(Error(TaskTimeout)), i)
    else if Decisive(replies(i)) then (Settle(replies(i)), i + 1)
    else PollFrom(replies, maxAttempts, i + 1)
  }

  function Poll(replies: nat -> StatusResponse, maxAttempts: int): (Outcome, nat) {
    PollFrom(replies, maxAttempts, 0)
  }

  function MaxZero(n: int): nat { if n < 0 then 0 else n }

  lemma {:induction false} PollFromSettles(replies: nat -> StatusResponse, maxAttempts: int, i: nat, j: nat)
    requires i <= j < maxAttempts && Decisive(replies(j))
    requires forall k :: i <= k < j ==> !Decisive(replies(k))
    ensures PollFrom(replies, maxAttempts, i) == (Settle(replies(j)), j + 1)
    decreases j - i
  {
    if i < j {
      PollFromSettles(replies, maxAttempts, i + 1, j);
    }
  }

  lemma {:induction false} PollFromTimesOut(replies: nat -> StatusResponse, maxAttempts: int, i: nat)
    requires forall k :: i <= k < maxAttempts ==> !Decisive(replies(k))
    ensures PollFrom(replies, maxAttempts, i) == (Thrown(Error(TaskTimeout)), if i < maxAttempts then maxAttempts as nat else i)
    decreases maxAttempts - i
  {
    if i < maxAttempts {
      PollFromTimesOut(replies, maxAttempts, i + 1);
    }
  }

  /**
   * Polling stops at the first decisive reply, after exactly that many
   * requests, with that reply's outcome: the task's data on SUCCESS, the
   * task's error (or "Task failed") on FAILURE, a login redirect on 401.
   */
  lemma PollSettlesAtFirstDecisive(replies: nat -> StatusResponse, maxAttempts: int, j: nat)
    requires j < maxAttempts && Decisive(replies(j))
    requires forall k :: 0 <= k < j ==> !Decisive(replies(k))
    ensures Poll(replies, maxAttempts) == (Settle(replies(j)), j + 1)
    ensures replies(j).StatusReply? && replies(j).httpStatus == 401 ==> Poll(replies, maxAttempts).0 == LoginRedirect
    ensures (replies(j).StatusReply? && replies(j).httpStatus != 401 && replies(j).body.state == "SUCCESS"
      && replies(j).body.result.Some?) ==> Poll(replies, maxAttempts).0 == Returned(replies(j).body.result.value.data)
    ensures replies(j).StatusReply? && replies(j).httpStatus != 401 && replies(j).body.state == "FAILURE" ==>
      Poll(replies, maxAttempts).0 == Thrown(Error(
        if replies(j).body.error.Some? && replies(j).body.error.value != "" then replies(j).body.error.value else TaskFailed))
  {
    PollFromSettles(replies, maxAttempts, 0, j);
  }

  /** With no decisive reply among the first `maxAttempts`, polling makes all of them and ends with the timeout error. */
  lemma PollTimesOut(replies: nat -> StatusResponse, maxAttempts: int)
    requires forall k :: 0 <= k < maxAttempts ==> !Decisive(replies(k))
    ensures Poll(replies, maxAttempts) == (Thrown(Error(TaskTimeout)), MaxZero(maxAttempts))
  {
    PollFromTimesOut(replies, maxAttempts, 0);
  }

  /** Polling never makes more than `maxAttempts` requests, and returns data only at a SUCCESS reply. */
  lemma {:induction false} PollBounded(replies: nat -> StatusResponse, maxAttempts: int, i: nat)
    requires i <= MaxZero(maxAttempts)
    ensures PollFrom(replies, maxAttempts, i).1 <= MaxZero(maxAttempts)
    ensures PollFrom(replies, maxAttempts, i).0.Returned? ==>
      var k := PollFrom(replies, maxAttempts, i).1;
      1 <= k && replies(k - 1).StatusReply? && replies(k - 1).httpStatus != 401
      && replies(k - 1).body.state == "SUCCESS"
    decreases maxAttempts - i
  {
    if i < maxAttempts && !Decisive(replies(i)) {
      PollBounded(replies, maxAttempts, i + 1);
    }
  }

  /** `pollTaskStatus(statusUrl, maxAttempts)`: the counted loop with its early exits. */
  method PollTaskStatus(replies: nat -> StatusResponse, maxAttempts: int) returns (o: Outcome, attempts: nat)
    ensures (o, attempts) == Poll(replies, maxAttempts)
    ensures attempts <= MaxZero(maxAttempts)
  {
    PollBounded(replies, maxAttempts, 0);
    var i: nat := 0;
    while i < maxAttempts
      invariant i <= MaxZero(maxAttempts)
      invariant PollFrom(replies, maxAttempts, i) == Poll(replies, maxAttempts)
      decreases maxAttempts - i
    {
      var reply := replies(i);
      if reply.StatusReply? && reply.httpStatus == 401 {
        return LoginRedirect, i + 1;
      }
      if reply.StatusUnreachable? {
        return Thrown(TypeError), i + 1;
      }
      if reply.body.state == "SUCCESS" {
        if reply.body.result.None? {
          return Thrown(TypeError), i + 1;
        }
        return Returned(reply.body.result.value.data), i + 1;
      } else if reply.body.state == "FAILURE" {
        var e := reply.body.error;
        return Thrown(Error(if e.Some? && e.value != "" then e.value else TaskFailed)), i + 1;
      }
      i := i + 1;
    }
    return Thrown(Error(TaskTimeout)), i;
  }

  // ---------------------------------------------------------------------------
  // fetchData
  // ---------------------------------------------------------------------------

  /** A body that is a task handle: status "processing" and a task id. */
  predicate IsTask(p: Payload) {
    p.status == "processing" && p.taskId != ""
  }

  predicate IsOk(httpStatus: int) { 200 <= httpStatus <= 299 }

  /** `fetchData(endpoint, dataType)` for network `id`; `replies` answer the body's status URL. */
  function Fetched(id: string, dataType: string, resp: MapResponse, replies: nat -> StatusResponse): Outcome {
    if resp.MapUnreachable? then Thrown(TypeError)
    else if !IsOk(resp.httpStatus) then
      if resp.httpStatus == 401 then LoginRedirect
      else if resp.httpStatus == 404 then Thrown(Error("Network \"" + id + "\" not found"))
      else Thrown(Error("Failed to fetch " + dataType + ": " + resp.statusText))
    else if IsTask(resp.body) then Poll(replies, DefaultMaxAttempts).0
    else Returned(Obj(resp.body))
  }

  method FetchData(id: string, dataType: string, resp: MapResponse, replies: nat -> StatusResponse)
    returns (o: Outcome)
    ensures o == Fetched(id, dataType, resp, replies)
    ensures resp.MapResponse? && IsOk(resp.httpStatus) && !IsTask(resp.body) ==> o == Returned(Obj(resp.body))
    ensures resp.MapResponse? && IsOk(resp.httpStatus) && IsTask(resp.body) ==> o == Poll(replies, DefaultMaxAttempts).0
    ensures resp.MapResponse? && resp.httpStatus == 401 ==> o == LoginRedirect
    ensures resp.MapResponse? && resp.httpStatus == 404 ==> o == Thrown(Error("Network \"" + id + "\" not found"))
    ensures resp.MapResponse? && !IsOk(resp.httpStatus) && resp.httpStatus != 401 && resp.httpStatus != 404 ==>
      o == Thrown(Error("Failed to fetch " + dataType + ": " + resp.statusText))
    ensures resp.MapUnreachable? ==> o == Thrown(TypeError)
  {
    if resp.MapUnreachable? {
      return Thrown(TypeError);
    }
    if !IsOk(resp.httpStatus) {
      if resp.httpStatus == 401 {
        return LoginRedirect;
      }
      if resp.httpStatus == 404 {
        return Thrown(Error("Network \"" + id + "\" not found"));
      }
      return Thrown(Error("Failed to fetch " + dataType + ": " + resp.statusText));
    }
    if IsTask(resp.body) {
      var attempts;
      o, attempts := PollTaskStatus(replies, DefaultMaxAttempts);
    } else {
      o := Returned(Obj(resp.body));
    }
  }

  // ---------------------------------------------------------------------------
  // Datasets and layers
  // ---------------------------------------------------------------------------

  datatype DatasetInfo = DatasetInfo(id: string, labelText: string)
  datatype DatasetData = DatasetData(fields: seq<string>, rows: seq<Row>)
  datatype Dataset = Dataset(info: DatasetInfo, data: DatasetData)

  datatype Columns =
    | PointColumns(lat: string, lng: string)
    | LineColumns(lat0: string, lng0: string, lat1: string, lng1: string)

  /** Opacity is in tenths (0.8 is 8). */
  datatype VisConfig = PointVis(radius: int, opacityTenths: int) | LineVis(opacityTenths: int, thickness: int)

  datatype LayerConfig = LayerConfig(
    dataId: string, labelText: string, color: seq<int>, columns: Columns, isVisible: bool, visConfig: VisConfig)

  datatype Layer = Layer(id: string, layerType: string, config: LayerConfig)

  datatype KeplerConfig = KeplerConfig(version: string, layers: seq<Layer>)

  const BusesLayer := Layer("buses-layer", "point",
    LayerConfig("buses", "Buses", [30, 150, 190], PointColumns("lat", "lng"), true, PointVis(5, 8)))

  const LinesLayer := Layer("lines-layer", "line",
    LayerConfig("lines", "Lines", [255, 140, 0], LineColumns("lat0", "lng0", "lat1", "lng1"), true, LineVis(6, 2)))

  /** `data.rows && data.rows.length > 0`. */
  predicate HasRows(p: Payload) {
    p.rows.Some? && |p.rows.value| > 0
  }

  function BusesDataset(p: Payload): Dataset requires p.rows.Some? {
    Dataset(DatasetInfo("buses", "Network Buses"), DatasetData(p.fields, p.rows.value))
  }

  function LinesDataset(p: Payload): Dataset requires p.rows.Some? {
    Dataset(DatasetInfo("lines", "Network Lines"), DatasetData(p.fields, p.rows.value))
  }

  /** The datasets the page shows: buses (if it has rows), then lines (if it has rows). */
  function Datasets(buses: Payload, lines: Payload): (ds: seq<Dataset>)
    ensures |ds| == (if HasRows(buses) then 1 else 0) + (if HasRows(lines) then 1 else 0)
    ensures (exists i :: 0 <= i < |ds| && ds[i].info.id == "buses") <==> HasRows(buses)
    ensures (exists i :: 0 <= i < |ds| && ds[i].info.id == "lines") <==> HasRows(lines)
    ensures HasRows(buses) ==> ds[0] == BusesDataset(buses)
    ensures HasRows(lines) ==> ds[|ds| - 1] == LinesDataset(lines)
    ensures forall d :: d in ds ==> d.info.id == "buses" || d.info.id == "lines"
  {
    var ds := (if HasRows(buses) then [BusesDataset(buses)] else []) + (if HasRows(lines) then [LinesDataset(lines)] else []);
    assert HasRows(buses) ==> ds[0].info.id == "buses";
    assert HasRows(lines) ==> ds[|ds| - 1].info.id == "lines";
    ds
  }

  /** Builds the dataset list by pushing onto an empty list, as the page does. */
  method BuildDatasets(buses: Payload, lines: Payload) returns (ds: seq<Dataset>)
    ensures ds == Datasets(buses, lines)
  {
    ds := [];
    if buses.rows.Some? && |buses.rows.value| > 0 {
      ds := ds + [BusesDataset(buses)];
    }
    if lines.rows.Some? && |lines.rows.value| > 0 {
      ds := ds + [LinesDataset(lines)];
    }
  }

  /** The layer for one dataset: a point layer for buses, a line layer for lines, none otherwise. */
  function LayerFor(d: Dataset): seq<Layer> {
    if d.info.id == "buses" then [BusesLayer]
    else if d.info.id == "lines" then [LinesLayer]
    else []
  }

  /** The layers for a dataset list, in dataset order. */
  function LayersFor(ds: seq<Dataset>): seq<Layer> {
    if ds == [] then [] else LayersFor(ds[..|ds| - 1]) + LayerFor(ds[|ds| - 1])
  }

  /** When every dataset is buses or lines, there is exactly one layer per dataset, in order, pointing at it. */
  lemma {:induction false} LayersMatchDatasets(ds: seq<Dataset>)
    requires forall d :: d in ds ==> d.info.id == "buses" || d.info.id == "lines"
    ensures |LayersFor(ds)| == |ds|
    ensures forall i :: 0 <= i < |ds| ==>
      && LayersFor(ds)[i].config.dataId == ds[i].info.id
      && LayersFor(ds)[i].layerType == (if ds[i].info.id == "buses" then "point" else "line")
  {
    if ds != [] {
      var init, last := ds[..|ds| - 1], ds[|ds| - 1];
      assert forall d :: d in init ==> d in ds;
      LayersMatchDatasets(init);
      assert last in ds;
      var layers, initLayers := LayersFor(ds), LayersFor(init);
      assert layers == initLayers + LayerFor(last);
      assert |LayerFor(last)| == 1;
      forall i | 0 <= i < |ds|
        ensures layers[i].config.dataId == ds[i].info.id
        ensures layers[i].layerType == (if ds[i].info.id == "buses" then "point" else "line")
      {
        if i < |ds| - 1 {
          assert layers[i] == initLayers[i] && ds[i] == init[i];
        } else {
          assert layers[i] == LayerFor(last)[0];
        }
      }
    }
  }

  /** The `forEach` over the datasets that pushes each dataset's layer. */
  method BuildLayers(ds: seq<Dataset>) returns (layers: seq<Layer>)
    ensures layers == LayersFor(ds)
  {
    layers := [];
    var i := 0;
    while i < |ds|
      invariant 0 <= i <= |ds|
      invariant layers == LayersFor(ds[..i])
    {
      var d := ds[i];
      if d.info.id == "buses" {
        layers := layers + [BusesLayer];
      } else if d.info.id == "lines" {
        layers := layers + [LinesLayer];
      }
      assert ds[..i + 1][..i] == ds[..i];
      i := i + 1;
    }
    assert ds[..|ds|] == ds;
  }

  // ---------------------------------------------------------------------------
  // fetchNetworkData and the missing-id branch
  // ---------------------------------------------------------------------------

  /** What the page holds once loading has finished (loading is then always cleared). */
  datatype ViewState = ViewState(
    error: Option<JsError>,
    datasets: seq<Dataset>,
    config: Option<KeplerConfig>,
    redirected: bool)

  /** The error `Promise.all` rejects with: whichever failing fetch settled first. */
  function Rejection(b: Outcome, l: Outcome, busesSettlesFirst: bool): JsError
    requires b.Thrown? || l.Thrown?
  {
    if b.Thrown? && (!l.Thrown? || busesSettlesFirst) then b.error else l.error
  }

  /** The value a fetch resolved to; a redirect resolves to `undefined`. */
  function ResolvedValue(o: Outcome): JsValue requires !o.Thrown? {
    if o.Returned? then o.value else Undefined
  }

  /** The state the page ends in for network `id`. */
  function Loaded(id: Option<string>,
                  busesResp: MapResponse, busesReplies: nat -> StatusResponse,
                  linesResp: MapResponse, linesReplies: nat -> StatusResponse,
                  busesSettlesFirst: bool): ViewState
  {
    if id.None? || id.value == "" then ViewState(Some(Error(NoNetworkId)), [], None, false)
    else
      var b := Fetched(id.value, "buses", busesResp, busesReplies);
      var l := Fetched(id.value, "lines", linesResp, linesReplies);
      var redirected := b.LoginRedirect? || l.LoginRedirect?;
      if b.Thrown? || l.Thrown? then ViewState(Some(Rejection(b, l, busesSettlesFirst)), [], None, redirected)
      else
        var bv, lv := ResolvedValue(b), ResolvedValue(l);
        if bv.Undefined? || lv.Undefined? then ViewState(Some(TypeError), [], None, redirected)
        else
          var ds := Datasets(bv.payload, lv.payload);
          if ds == [] then ViewState(Some(Error(NoRowsFound)), [], None, redirected)
          else ViewState(None, ds, Some(KeplerConfig("v1", LayersFor(ds))), redirected)
  }

  /** The page's effect for `id`: fetch both layers, then build datasets and layers, or record an error. */
  method LoadNetworkMap(id: Option<string>,
                        busesResp: MapResponse, busesReplies: nat -> StatusResponse,
                        linesResp: MapResponse, linesReplies: nat -> StatusResponse,
                        busesSettlesFirst: bool) returns (v: ViewState)
    ensures v == Loaded(id, busesResp, busesReplies, linesResp, linesReplies, busesSettlesFirst)
  {
    if id.None? || id.value == "" {
      return ViewState(Some(Error(NoNetworkId)), [], None, false);
    }
    var b := FetchData(id.value, "buses", busesResp, busesReplies);
    var l := FetchData(id.value, "lines", linesResp, linesReplies);
    var redirected := b.LoginRedirect? || l.LoginRedirect?;
    if b.Thrown? || l.Thrown? {
      return ViewState(Some(Rejection(b, l, busesSettlesFirst)), [], None, redirected);
    }
    var busesData := ResolvedValue(b);
    var linesData := ResolvedValue(l);
    if busesData.Undefined? || linesData.Undefined? {
      return ViewState(Some(TypeError), [], None, redirected);
    }
    var ds := BuildDatasets(busesData.payload, linesData.payload);
    if |ds| == 0 {
      return ViewState(Some(Error(NoRowsFound)), [], None, redirected);
    }
    var layers := BuildLayers(ds);
    v := ViewState(None, ds, Some(KeplerConfig("v1", layers)), redirected);
  }

  /** Without a network id nothing is fetched and the page shows "No network ID provided". */
  lemma LoadWithoutId(id: Option<string>,
                      busesResp: MapResponse, busesReplies: nat -> StatusResponse,
                      linesResp: MapResponse, linesReplies: nat -> StatusResponse, busesSettlesFirst: bool)
    requires id.None? || id == Some("")
    ensures var v := Loaded(id, busesResp, busesReplies, linesResp, linesReplies, busesSettlesFirst);
      v.error == Some(Error(NoNetworkId)) && v.config == None && v.datasets == [] && !v.redirected
  {
  }

  /**
   * Two payloads without rows, whether served from the cache or obtained by
   * polling a task, give "No buses or lines found in this network" and no
   * map configuration.
   */
  lemma LoadWithoutRows(id: string, buses: Payload, lines: Payload,
                        busesResp: MapResponse, busesReplies: nat -> StatusResponse,
                        linesResp: MapResponse, linesReplies: nat -> StatusResponse, busesSettlesFirst: bool)
    requires id != ""
    requires Fetched(id, "buses", busesResp, busesReplies) == Returned(Obj(buses))
    requires Fetched(id, "lines", linesResp, linesReplies) == Returned(Obj(lines))
    requires !HasRows(buses) && !HasRows(lines)
    ensures var v := Loaded(Some(id), busesResp, busesReplies, linesResp, linesReplies, busesSettlesFirst);
      v.error == Some(Error(NoRowsFound)) && v.config == None && v.datasets == []
  {
  }

  /**
   * When the map is shown, it has one layer per dataset in dataset order,
   * each pointing at its dataset, buses as points and lines as lines, and
   * the buses dataset (if any) comes first.
   */
  lemma LoadedMapLayers(id: Option<string>,
                        busesResp: MapResponse, busesReplies: nat -> StatusResponse,
                        linesResp: MapResponse, linesReplies: nat -> StatusResponse, busesSettlesFirst: bool)
    requires Loaded(id, busesResp, busesReplies, linesResp, linesReplies, busesSettlesFirst).config.Some?
    ensures var v := Loaded(id, busesResp, busesReplies, linesResp, linesReplies, busesSettlesFirst);
      && v.error == None
      && !v.redirected
      && 1 <= |v.datasets| <= 2
      && v.config.value.version == "v1"
      && |v.config.value.layers| == |v.datasets|
      && (forall i :: 0 <= i < |v.datasets| ==>
            && v.config.value.layers[i].config.dataId == v.datasets[i].info.id
            && v.config.value.layers[i].layerType == (if v.datasets[i].info.id == "buses" then "point" else "line"))
      && (|v.datasets| == 2 ==> v.datasets[0].info.id == "buses" && v.datasets[1].info.id == "lines")
  {
    var v := Loaded(id, busesResp, busesReplies, linesResp, linesReplies, busesSettlesFirst);
    var b := Fetched(id.value, "buses", busesResp, busesReplies);
    var l := Fetched(id.value, "lines", linesResp, linesReplies);
    assert !b.Thrown? && !l.Thrown?;
    var bv, lv := ResolvedValue(b), ResolvedValue(l);
    assert bv.Obj? && lv.Obj?;
    var ds := Datasets(bv.payload, lv.payload);
    assert v == ViewState(None, ds, Some(KeplerConfig("v1", LayersFor(ds))), false);
    LayersMatchDatasets(ds);
  }

  /** A login redirect during either fetch never leads to a shown map. */
  lemma RedirectShowsNoMap(id: Option<string>,
                           busesResp: MapResponse, busesReplies: nat -> StatusResponse,
                           linesResp: MapResponse, linesReplies: nat -> StatusResponse, busesSettlesFirst: bool)
    requires Loaded(id, busesResp, busesReplies, linesResp, linesReplies, busesSettlesFirst).redirected
    ensures Loaded(id, busesResp, busesReplies, linesResp, linesReplies, busesSettlesFirst).config == None
    ensures Loaded(id, busesResp, busesReplies, linesResp, linesReplies, busesSettlesFirst).error.Some?
  {
  }
}
