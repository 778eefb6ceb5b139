/** The WMS tile-layer adapter: the layer's z-index, the reload schedule of a
    tile that failed to load, the choice of the layer a map click queries, the
    GetFeatureInfo request parameters (section 7.4 of the OGC WMS 1.3.0
    standard names the pixel parameters `I` and `J`; WMS 1.1.1 names them `X`
    and `Y`), and the popup built from the answer. The adapter's map-side
    bookkeeping (the active-layer counter and the one-shot click handler) is
    `MapSurface.LeafletMap.AddWmsTileLayer` and `RemoveStamp`. */
module WmsAdapter {
  import opened Js
  import opened Strings
  import opened Numbers
  import opened MapSurface

  // ---------------------------------------------------------------------------
  // z-index

  /** The z-index the tile layer ends up with, as written: the conditional
      yields `options.zIndex` when it is a number and 400 otherwise, but the
      `...options` spread that follows puts back whatever `options.zIndex` holds
      whenever the key is present. `None` is an absent key. */
  function ZIndexAsWritten(zIndex: Option<JsValue>): (z: JsValue)
    ensures zIndex.None? ==> z == JNum(400)
    ensures zIndex.Some? ==> z == zIndex.value
  {
    var conditional := if zIndex.Some? && zIndex.value.JNum? then zIndex.value else JNum(400);
    if zIndex.Some? then zIndex.value else conditional
  }

  /** The z-index the conditional expresses: the number passed, otherwise 400. */
  function ZIndex(zIndex: Option<JsValue>): (z: JsValue)
    ensures z.JNum?
    ensures zIndex.Some? && zIndex.value.JNum? ==> z == zIndex.value
    ensures !(zIndex.Some? && zIndex.value.JNum?) ==> z == JNum(400)
  {
    if zIndex.Some? && zIndex.value.JNum? then zIndex.value else JNum(400)
  }

  /** Both agree when the key is absent or holds a number, which is every call
      the client makes. */
  lemma ZIndexAgrees(zIndex: Option<JsValue>)
    requires zIndex.None? || zIndex.value.JNum?
    ensures ZIndexAsWritten(zIndex) == ZIndex(zIndex)
  {
  }

  /** A present non-number z-index survives the spread: a string `"500"`, or an
      explicit `undefined`, is passed to the layer instead of 400. */
  lemma ZIndexSpreadOverrides()
    ensures ZIndexAsWritten(Some(JStr("500"))) == JStr("500") && ZIndex(Some(JStr("500"))) == JNum(400)
    ensures ZIndexAsWritten(Some(JUndefined)) == JUndefined && ZIndex(Some(JUndefined)) == JNum(400)
  {
  }

  // ---------------------------------------------------------------------------
  // Reloading a broken tile

  /** Reloads per tile-error event. */
  const RetryLimit: nat := 3
  /** Milliseconds between two reloads. */
  const RetryDelay: nat := 3000

  /** The HEAD probe's verdict: the tile exists when the status is a 2xx code. */
  predicate TileExists(status: int) {
    200 <= status < 300
  }

  /** The times at which `retryTile(tile, src, attempt)` started at `now` reloads the tile. */
  function ReloadTimes(attempt: int, now: int): (ts: seq<int>)
    ensures |ts| == if attempt <= RetryLimit then RetryLimit - attempt + 1 else 0
    decreases if attempt <= RetryLimit then RetryLimit - attempt + 1 else 0
  {
    if attempt <= RetryLimit then [now + RetryDelay] + ReloadTimes(attempt + 1, now + RetryDelay) else []
  }

  /** The reloads are `RetryDelay` apart, the first one `RetryDelay` after the start. */
  lemma {:induction false} ReloadTimesSpaced(attempt: int, now: int, k: nat)
    requires k < |ReloadTimes(attempt, now)|
    ensures ReloadTimes(attempt, now)[k] == now + (k + 1) * RetryDelay
    decreases k
  {
    if k > 0 {
      ReloadTimesSpaced(attempt + 1, now + RetryDelay, k - 1);
    }
  }

  /** A fresh retry chain reloads exactly three times, 3000 ms apart. */
  lemma ReloadTimesFromFirst(now: int)
    ensures ReloadTimes(1, now) == [now + 3000, now + 6000, now + 9000]
  {
    ReloadTimesSpaced(1, now, 0);
    ReloadTimesSpaced(1, now, 1);
    ReloadTimesSpaced(1, now, 2);
  }

  /** The `src` assignments of `n` reloads: each clears it, then restores it. */
  function ReloadWrites(src: string, n: nat): (ws: seq<string>)
    ensures |ws| == 2 * n
  {
    if n == 0 then [] else ReloadWrites(src, n - 1) + ["", src]
  }

  /** Every reload clears `src` and then restores it. */
  lemma {:induction false} ReloadWritesPairs(src: string, n: nat, k: nat)
    requires k < n
    ensures ReloadWrites(src, n)[2 * k] == "" && ReloadWrites(src, n)[2 * k + 1] == src
  {
    if k < n - 1 {
      ReloadWritesPairs(src, n - 1, k);
    }
  }

  lemma {:induction false} ReloadWritesCons(src: string, n: nat)
    ensures ReloadWrites(src, n + 1) == ["", src] + ReloadWrites(src, n)
  {
    if n > 0 {
      ReloadWritesCons(src, n - 1);
    }
  }

  lemma RetryStep(w0: seq<string>, src: string, n: nat)
    ensures (w0 + ["", src]) + ReloadWrites(src, n) == w0 + ReloadWrites(src, n + 1)
  {
    ReloadWritesCons(src, n);
  }

  /** An image element of the tile layer; `writes` records every assignment to `src`. */
  class Tile {
    var src: string
    var writes: seq<string>

    constructor (s: string)
      ensures src == s && writes == []
    {
      src := s;
      writes := [];
    }

    /** `retryTile(tile, src, attempt)`, with the timer delays unfolded into
        the returned reload times. */
    method RetryTile(reloadSrc: string, attempt: int, now: int) returns (times: seq<int>)
      modifies this
      ensures times == ReloadTimes(attempt, now)
      ensures writes == old(writes) + ReloadWrites(reloadSrc, |times|)
      ensures src == if attempt <= RetryLimit then reloadSrc else old(src)
      decreases if attempt <= RetryLimit then RetryLimit - attempt + 1 else 0
    {
      if attempt <= RetryLimit {
        ghost var w0 := writes;
        src := "";
        src := reloadSrc;
        writes := writes + ["", reloadSrc];
        var rest := RetryTile(reloadSrc, attempt + 1, now + RetryDelay);
        times := [now + RetryDelay] + rest;
        RetryStep(w0, reloadSrc, |rest|);
      } else {
        times := [];
      }
    }

    /** `handleTileError`: a reachable tile is reloaded exactly three times,
        3000 ms apart, with its own `src`; an unreachable one is left alone.
        The probe's status is an input. */
    method HandleTileError(status: int, now: int) returns (times: seq<int>)
      modifies this
      ensures TileExists(status) ==> times == [now + 3000, now + 6000, now + 9000]
      ensures !TileExists(status) ==> times == []
      ensures writes == old(writes) + ReloadWrites(old(src), |times|)
      ensures src == old(src)
    {
      if TileExists(status) {
        ReloadTimesFromFirst(now);
        times := RetryTile(src, 1, now);
      } else {
        times := [];
      }
    }
  }

  // ---------------------------------------------------------------------------
  // The layer a click queries

  /** `(options.layers || '').toLowerCase().includes('dir')`: a direction layer. */
  predicate IsDirLayer(o: MapObject)
    requires o.r.kind.WmsTile?
  {
    Contains(Lower(o.r.kind.opts.layers.GetOr("")), "dir")
  }

  /** The WMS tile layers among the map's objects, in enumeration order. */
  function WmsLayers(objs: seq<MapObject>): (ws: seq<MapObject>)
    ensures forall k :: 0 <= k < |ws| ==> ws[k].r.kind.WmsTile? && ws[k] in objs
    decreases |objs|
  {
    if |objs| == 0 then []
    else
      var init := WmsLayers(objs[..|objs| - 1]);
      var last := objs[|objs| - 1];
      assert forall o :: o in objs[..|objs| - 1] ==> o in objs;
      init + (if last.r.kind.WmsTile? then [last] else [])
  }

  /** Every WMS layer of the map is among the visible ones. */
  lemma {:induction false} WmsLayersComplete(objs: seq<MapObject>, i: nat)
    requires i < |objs| && objs[i].r.kind.WmsTile?
    ensures objs[i] in WmsLayers(objs)
    decreases |objs|
  {
    if i < |objs| - 1 {
      assert objs[..|objs| - 1][i] == objs[i];
      WmsLayersComplete(objs[..|objs| - 1], i);
    }
  }

  /** The click handler's choice: scan the visible WMS layers from the last
      one back and take the first whose name does not contain "dir". */
  method QueryTarget(m: LeafletMap) returns (target: Option<MapObject>)
    ensures var ws := WmsLayers(m.objects);
      (target.None? <==> forall k :: 0 <= k < |ws| ==> IsDirLayer(ws[k]))
      && (target.Some? ==> exists i :: 0 <= i < |ws| && ws[i] == target.value && !IsDirLayer(ws[i])
                             && forall k :: i < k < |ws| ==> IsDirLayer(ws[k]))
  {
    var objs := m.objects;
    var visible: seq<MapObject> := [];
    var n := 0;
    while n < |objs|
      invariant 0 <= n <= |objs|
      invariant visible == WmsLayers(objs[..n])
    {
      assert objs[..n + 1][..n] == objs[..n];
      if objs[n].r.kind.WmsTile? {
        visible := visible + [objs[n]];
      }
      n := n + 1;
    }
    assert objs[..n] == objs;
    target := None;
    if |visible| == 0 {
      return;
    }
    var i := |visible| - 1;
    while i >= 0
      invariant -1 <= i < |visible|
      invariant forall k :: i < k < |visible| ==> IsDirLayer(visible[k])
    {
      if !IsDirLayer(visible[i]) {
        target := Some(visible[i]);
        return;
      }
      i := i - 1;
    }
  }

  /** `topNonDirLayer._url || url`: the url the query goes to, where `url` is
      the one the click handler closed over (`LeafletMap.handlerUrl`, the url
      of the WMS layer whose addition attached the handler). */
  function QueryUrl(target: MapObject, handlerUrl: Option<string>): (u: Option<string>)
    requires target.r.kind.WmsTile?
    ensures target.r.kind.url.Some? && target.r.kind.url.value != "" ==> u == target.r.kind.url
    ensures !(target.r.kind.url.Some? && target.r.kind.url.value != "") ==> u == handlerUrl
  {
    var own := target.r.kind.url;
    if own.Some? && own.value != "" then own else handlerUrl
  }

  // ---------------------------------------------------------------------------
  // GetFeatureInfo parameters

  /** One query parameter, in the object's key order. */
  datatype Param = Param(key: string, value: JsValue)

  /** `Math.round`: halves round up. */
  function Round(x: real): (n: int)
    ensures x - 0.5 < n as real <= x + 0.5
  {
    (x + 0.5).Floor
  }

  function KeyIndex(ps: seq<Param>, key: string): (i: int)
    ensures -1 <= i < |ps|
    ensures i >= 0 ==> ps[i].key == key
    ensures i < 0 ==> forall k :: 0 <= k < |ps| ==> ps[k].key != key
    decreases |ps|
  {
    if |ps| == 0 then -1
    else if ps[|ps| - 1].key == key then |ps| - 1
    else KeyIndex(ps[..|ps| - 1], key)
  }

  /** `params[key] = value`: an existing key keeps its place, a new key goes last. */
  function SetParam(ps: seq<Param>, key: string, value: JsValue): (r: seq<Param>)
    ensures (forall k :: 0 <= k < |ps| ==> ps[k].key != key) ==> r == ps + [Param(key, value)]
  {
    var i := KeyIndex(ps, key);
    if i < 0 then ps + [Param(key, value)] else ps[i := Param(key, value)]
  }

  /** `wmsLayer.options.version || '1.1.1'`. */
  function QueryVersion(opts: WmsOptions): (v: string)
    ensures v != ""
    ensures opts.version.None? ==> v == "1.1.1"
  {
    if opts.version.Some? && opts.version.value != "" then opts.version.value else "1.1.1"
  }

  function OptStr(s: Option<string>): JsValue {
    if s.Some? then JStr(s.value) else JUndefined
  }

  /** The fixed parameters, in the order the client lists them. */
  function BaseParams(opts: WmsOptions, bbox: string, sizeX: real, sizeY: real): (ps: seq<Param>)
    ensures |ps| == 13
  {
    [Param("request", JStr("GetFeatureInfo")), Param("service", JStr("WMS")), Param("srs", JStr("EPSG:4326")),
     Param("styles", OptStr(opts.styles)), Param("transparent", JBool(opts.transparent)),
     Param("version", JStr(QueryVersion(opts))), Param("format", JStr(opts.format)),
     Param("bbox", JStr(bbox)), Param("height", JNum(Round(sizeY))), Param("width", JNum(Round(sizeX))),
     Param("layers", OptStr(opts.layers)), Param("query_layers", OptStr(opts.layers)),
     Param("info_format", JStr("text/html"))]
  }

  /** The GetFeatureInfo parameters for a click at container point
      `(pointX, pointY)` on a map of the given size and bounding box. */
  function FeatureInfoParams(opts: WmsOptions, bbox: string, sizeX: real, sizeY: real, pointX: real, pointY: real): seq<Param> {
    var base := BaseParams(opts, bbox, sizeX, sizeY);
    var v13 := QueryVersion(opts) == "1.3.0";
    var withX := SetParam(base, if v13 then "i" else "x", JNum(Round(pointX)));
    SetParam(withX, if v13 then "j" else "y", JNum(Round(pointY)))
  }

  /** The pixel position is sent as `i`/`j` for version 1.3.0 and as `x`/`y`
      otherwise, appended after the fixed parameters, which it never replaces. */
  lemma FeatureInfoPixelNames(opts: WmsOptions, bbox: string, sizeX: real, sizeY: real, pointX: real, pointY: real)
    ensures var ps := FeatureInfoParams(opts, bbox, sizeX, sizeY, pointX, pointY);
      var v13 := QueryVersion(opts) == "1.3.0";
      |ps| == 15 && ps[..13] == BaseParams(opts, bbox, sizeX, sizeY)
      && ps[13] == Param(if v13 then "i" else "x", JNum(Round(pointX)))
      && ps[14] == Param(if v13 then "j" else "y", JNum(Round(pointY)))
  {
    var base := BaseParams(opts, bbox, sizeX, sizeY);
    var v13 := QueryVersion(opts) == "1.3.0";
    var kx := if v13 then "i" else "x";
    var ky := if v13 then "j" else "y";
    assert forall k :: 0 <= k < |base| ==> base[k].key != kx && base[k].key != ky;
    var withX := SetParam(base, kx, JNum(Round(pointX)));
    assert withX == base + [Param(kx, JNum(Round(pointX)))];
    assert forall k :: 0 <= k < |withX| ==> withX[k].key != ky;
  }

  /** Without a version on the layer the request is WMS 1.1.1 with `x`/`y`. */
  lemma FeatureInfoDefaultVersion(opts: WmsOptions, bbox: string, sizeX: real, sizeY: real, pointX: real, pointY: real)
    requires opts.version.None?
    ensures var ps := FeatureInfoParams(opts, bbox, sizeX, sizeY, pointX, pointY);
      |ps| == 15 && ps[5] == Param("version", JStr("1.1.1")) && ps[13].key == "x" && ps[14].key == "y"
  {
    FeatureInfoPixelNames(opts, bbox, sizeX, sizeY, pointX, pointY);
    var ps := FeatureInfoParams(opts, bbox, sizeX, sizeY, pointX, pointY);
    assert ps[5] == ps[..13][5];
  }

  // ---------------------------------------------------------------------------
  // The answer

  datatype InfoOutcome = ShowPopup(content: string) | Toast(message: string)

  const NoFeatureInfo := "No feature information available for this location."
  const InfoUnavailable := "Feature info is not available for this layer."

  /** The AJAX outcome: a failed request (`None`) and an empty parsed body give
      a toast, any other body is shown in a popup. The body is the parsed
      document's `body.innerHTML`. */
  function FeatureInfoOutcome(response: Option<string>): (o: InfoOutcome)
    ensures response.None? ==> o == Toast(InfoUnavailable)
    ensures response.Some? && Trim(response.value) == "" ==> o == Toast(NoFeatureInfo)
    ensures response.Some? && Trim(response.value) != "" ==> o == ShowPopup(response.value)
  {
    match response
    case None => Toast(InfoUnavailable)
    case Some(body) => if |Trim(body)| > 0 then ShowPopup(body) else Toast(NoFeatureInfo)
  }

  /** The popup's one line, `name: value`; `numeric` when the value reads as a
      number (the client then shows it with two decimals). */
  datatype PopupLine = PopupLine(name: string, value: string, numeric: bool)

  /** The popup for the `td` cells of the answer (their text contents): cell 0
      names the variable and cell 5 holds its value when there are more than
      five cells. */
  function PopupFor(cells: seq<string>): (p: PopupLine)
    ensures |cells| <= 5 ==> p == PopupLine("Value", "No Data", false)
    ensures |cells| > 5 ==> p.name == Trim(cells[0]) && p.value == Trim(cells[5])
    ensures p.numeric ==> |cells| > 5 && ToNumber(p.value).Some?
    ensures |cells| > 5 ==> (p.numeric <==> ToNumber(Trim(cells[5])).Some?)
  {
    if |cells| > 5 then
      var v := Trim(cells[5]);
      PopupLine(Trim(cells[0]), v, ToNumber(v).Some?)
    else PopupLine("Value", "No Data", false)
  }

  /** `` `${variableName}: ${featureInfo}` ``. */
  function PopupText(p: PopupLine): string {
    p.name + ": " + p.value
  }
}
