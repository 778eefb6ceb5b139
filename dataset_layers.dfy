/** The dataset-layer reconciler of the map component: on every change of the
    workbench it empties the persistent dataset group and re-adds one renderer
    per enabled layer (several for composite layers), tagged with the dataset
    id; it then purges tagged renderers whose dataset is no longer enabled and,
    when the workbench is empty, every dataset-like layer except the basemap
    and the static overlays. */
module DatasetLayers {
  import opened Js
  import opened Strings
  import opened Numbers
  import opened Layers
  import opened MapSurface

  // ---------------------------------------------------------------------------
  // Time parameter and hindcast file names

  /** The UTC calendar month `new Date(s)` falls in, or an invalid date. Date
      parsing itself is a parameter of the model (`monthOf`). */
  datatype CalendarMonth = InvalidDate | Month(year: int, month: nat)

  /** The time a layer is rendered at: the start of its interval for time
      series and for forecast and UGRID layers, otherwise the end. */
  function DateToDisplay(info: LayerInfo): (t: string)
    ensures info.is_timeseries ==> t == info.timeIntervalStart
    ensures info.layer_type == "WMS_FORECAST" || info.layer_type == "WMS_UGRID" ==> t == info.timeIntervalStart
    ensures (!info.is_timeseries && info.layer_type != "WMS_FORECAST" && info.layer_type != "WMS_UGRID")
              ==> t == info.timeIntervalEnd
  {
    if !info.is_timeseries && !(info.layer_type == "WMS_FORECAST" || info.layer_type == "WMS_UGRID")
    then info.timeIntervalEnd
    else info.timeIntervalStart
  }

  /** `layer_type.replace('_FORECAST', '')`: the first `_FORECAST` is cut out. */
  function BaseType(layerType: string): (t: string)
    ensures |t| <= |layerType|
    ensures !Contains(layerType, "_FORECAST") ==> t == layerType
  {
    ReplaceFirstErase(layerType, "_FORECAST");
    ReplaceFirst(layerType, "_FORECAST", "")
  }

  /** The base type is the layer type with its first `_FORECAST` cut out. */
  lemma BaseTypeCutsForecast(layerType: string)
    ensures BaseType(layerType) == EraseFirst(layerType, "_FORECAST")
  {
    ReplaceFirstErases(layerType, "_FORECAST");
  }

  /** A forecast layer is drawn as a plain WMS layer. */
  lemma ForecastIsWms()
    ensures BaseType("WMS") == "WMS" && BaseType("WMS_FORECAST") == "WMS"
  {
    NotContainsShorter("WMS", "_FORECAST");
    ReplaceFirstAbsent("WMS", "_FORECAST", "");
    var pat := "_FORECAST";
    assert StartsWith(pat, pat) && pat[|pat|..] == "";
    assert ReplaceFirst(pat, pat, "") == "";
    assert "S_FORECAST"[1..] == pat;
    assert ReplaceFirst("S_FORECAST", pat, "") == "S";
    assert "MS_FORECAST"[1..] == "S_FORECAST";
    assert ReplaceFirst("MS_FORECAST", pat, "") == "MS";
    assert "WMS_FORECAST"[1..] == "MS_FORECAST";
  }

  /** UGRID and hindcast layers are not plain WMS layers. */
  lemma UgridHindcastNotWms()
    ensures BaseType("WMS_UGRID") == "WMS_UGRID" && BaseType("WMS_HINDCAST") == "WMS_HINDCAST"
  {
    SkipReplace("WMS_UGRID", "_FORECAST", 1);
    SkipReplace("WMS_HINDCAST", "_FORECAST", 4);
  }

  /** When the pattern does not start at any of the first `k` positions and
      does not fit after them, replacing leaves the string alone. */
  lemma {:induction false} SkipReplace(s: string, pat: string, k: nat)
    requires k < |s| && |s| - k < |pat| && |pat| >= 2
    requires forall i :: 0 <= i < k ==> s[i] != pat[0] || s[i + 1] != pat[1]
    ensures ReplaceFirst(s, pat, "") == s
    decreases k
  {
    if k == 0 {
      NotContainsShorter(s, pat);
      ReplaceFirstAbsent(s, pat, "");
    } else {
      SkipReplace(s[1..], pat, k - 1);
    }
  }

  /** `` `${yyyy}${mm}` `` with the month zero-padded; an invalid date gives `NaNNaN`. */
  function FormatYearMonth(m: CalendarMonth): (s: string)
    ensures m.InvalidDate? ==> s == "NaNNaN"
    ensures |s| >= 2 && '/' !in s
  {
    match m
    case InvalidDate => "NaNNaN"
    case Month(y, mo) =>
      var ys, ms := IntToString(y), Pad2(mo);
      assert forall k :: 0 <= k < |ys| ==> ys[k] == '-' || IsDigit(ys[k]);
      ys + ms
  }

  /** The year-month stamp reads back: the last two characters are the month and
      the rest parses as the year. */
  lemma FormatYearMonthReadsBack(y: int, mo: nat)
    requires 1 <= mo <= 12
    ensures var s := FormatYearMonth(Month(y, mo));
      |s| >= 3 && DigitsValue(s[|s| - 2..]) == mo && ParseInt(s[..|s| - 2]) == Some(y)
  {
    var s := FormatYearMonth(Month(y, mo));
    var ys := IntToString(y);
    Pad2Value(mo);
    assert s == ys + Pad2(mo);
    assert s[|s| - 2..] == Pad2(mo);
    assert s[..|s| - 2] == ys;
    ParseIntOfIntToString(y);
  }

  /** `composite_layer_id?.split('/') || []`. */
  function TemplateParts(cid: Option<string>): (parts: seq<string>)
    ensures forall k :: 0 <= k < |parts| ==> '/' !in parts[k]
    ensures cid.None? ==> parts == []
    ensures cid.Some? ==> Join("/", parts) == cid.value
  {
    if cid.Some? then SplitPiecesFree(cid.value, '/'); JoinSplit(cid.value, '/'); Split(cid.value, '/') else []
  }

  /** `parts[0]` and `parts[parts.length - 1]`, which read as `undefined` when missing. */
  function FirstPart(parts: seq<string>): string {
    if |parts| == 0 then "undefined" else parts[0]
  }

  function LastPart(parts: seq<string>): string {
    if |parts| == 0 then "undefined" else parts[|parts| - 1]
  }

  /** The hindcast file name: the template's first part, the year-month stamp of
      the end date, then the template's last part. */
  function HindcastFilename(cid: Option<string>, m: CalendarMonth): (f: string)
    ensures |f| >= 2 && '/' !in f
  {
    var parts := TemplateParts(cid);
    FirstPart(parts) + FormatYearMonth(m) + LastPart(parts)
  }

  /** The url with its last `/`-segment replaced by `filename`. */
  function HindcastUrl(url: string, filename: string): (u: string)
    ensures EndsWith(u, filename)
  {
    var segs := Split(url, '/');
    JoinEndsWithLast("/", segs[|segs| - 1 := filename]);
    Join("/", segs[|segs| - 1 := filename])
  }

  /** Rewriting touches only the last segment: the result has as many segments as
      the url, its last is the file name and every other one is the url's own. */
  lemma HindcastUrlSegments(url: string, filename: string)
    requires '/' !in filename
    ensures var segs := Split(url, '/');
      Split(HindcastUrl(url, filename), '/') == segs[|segs| - 1 := filename]
  {
    var segs := Split(url, '/');
    SplitPiecesFree(url, '/');
    var out := segs[|segs| - 1 := filename];
    assert forall k :: 0 <= k < |out| ==> '/' !in out[k];
    assert "/" == ['/'];
    SplitJoin(out, '/');
  }

  /** The hindcast url of a layer, from its url, template and end date. */
  function HindcastLayerUrl(info: LayerInfo, monthOf: string -> CalendarMonth): string {
    HindcastUrl(info.url, HindcastFilename(info.composite_layer_id, monthOf(info.timeIntervalEnd)))
  }

  /** A template without `/` appears on both sides of the stamp. */
  lemma HindcastFilenameSinglePart(t: string, m: CalendarMonth)
    requires '/' !in t
    ensures HindcastFilename(Some(t), m) == t + FormatYearMonth(m) + t
  {
    SplitNoSeparator(t, '/');
  }

  /** A string without the separator splits into itself. */
  lemma {:induction false} SplitNoSeparator(s: string, c: char)
    requires c !in s
    ensures Split(s, c) == [s]
    decreases |s|
  {
    if |s| > 0 {
      assert s[0] != c;
      assert c !in s[1..] by {
        forall x | x in s[1..] ensures x != c { assert x in s; }
      }
      SplitNoSeparator(s[1..], c);
      assert [s[0]] + s[1..] == s;
    }
  }

  // ---------------------------------------------------------------------------
  // The renderers one layer contributes

  /** `xs[i]`, or `undefined` past the end. */
  function Nth(xs: seq<string>, i: nat): (r: Option<string>)
    ensures r.Some? <==> i < |xs|
    ensures i < |xs| ==> r == Some(xs[i])
  {
    if i < |xs| then Some(xs[i]) else None
  }

  /** The styling every dataset WMS layer is requested with: PNG, transparent,
      the layer's opacity, its colour range as `"min, max"`, its band count and
      log-scale flag; the out-of-range colours only when `capped`, and the
      given background mode. */
  predicate StyledAs(o: WmsOptions, info: LayerInfo, capped: bool, bgcolor: Option<string>) {
    o.format == "image/png" && o.transparent && o.version.None?
    && o.opacity == info.opacity && o.colorscalerange == info.colormin + ", " + info.colormax
    && o.numcolorbands == info.numcolorbands && o.logscale == info.logscale
    && o.abovemaxcolor == (if capped then Some(info.abovemaxcolor) else None)
    && o.belowmincolor == (if capped then Some(info.belowmincolor) else None)
    && o.bgcolor == bgcolor
  }

  /** One WMS renderer of a dataset layer, tagged with its dataset id. The
      adapter's option spread keeps `format` and `transparent` as passed, and a
      missing `transparent` defaults to true. Composite and UGRID layers also
      pass the out-of-range colours (`capped`); UGRID layers pass a background
      mode. */
  function WmsRenderer(info: LayerInfo, url: Option<string>, name: Option<string>, style: Option<string>, time: string,
                       capped: bool, bgcolor: Option<string>): (r: Renderer)
    ensures r.kind.WmsTile? && r.kind.url == url
    ensures r.kind.opts.layers == name && r.kind.opts.styles == style && r.kind.opts.time == time
    ensures StyledAs(r.kind.opts, info, capped, bgcolor)
    ensures r.datasetId == info.id && !r.isBasemap && r.optionsId == JNum(info.id) && r.optionsLayerId.JUndefined?
  {
    var colours := info.colormin + ", " + info.colormax;
    var above := if capped then Some(info.abovemaxcolor) else None;
    var below := if capped then Some(info.belowmincolor) else None;
    Renderer(WmsTile(url, WmsOptions(name, style, "image/png", true, None, time, info.opacity, colours,
                                     info.numcolorbands, info.logscale, above, below, bgcolor)),
             info.id, false, JNum(info.id), JUndefined)
  }

  /** The sub-layer for the composite's `i`-th name, with the style at the same index. */
  function SubLayer(info: LayerInfo, url: Option<string>, names: seq<string>, styles: seq<string>, time: string, i: nat): Renderer
    requires i < |names|
  {
    WmsRenderer(info, url, Some(names[i]), Nth(styles, i), time, true, None)
  }

  /** The sub-layers of a comma-separated composite: one renderer per non-empty
      name among the first `n`. */
  function CompositeRenderers(info: LayerInfo, url: Option<string>, names: seq<string>, styles: seq<string>, time: string, n: nat): (rs: seq<Renderer>)
    requires n <= |names|
    ensures |rs| <= n
    ensures forall k :: 0 <= k < |rs| ==>
      rs[k].datasetId == info.id && !rs[k].isBasemap && rs[k].kind.WmsTile? && rs[k].kind.opts.time == time
      && StyledAs(rs[k].kind.opts, info, true, None)
    decreases n
  {
    if n == 0 then []
    else
      CompositeRenderers(info, url, names, styles, time, n - 1)
      + (if names[n - 1] == "" then [] else [SubLayer(info, url, names, styles, time, n - 1)])
  }

  /** Every composite renderer is the sub-layer of a non-empty name, and every
      non-empty name has its sub-layer. */
  lemma CompositeSubLayers(info: LayerInfo, url: Option<string>, names: seq<string>, styles: seq<string>, time: string, n: nat)
    requires n <= |names|
    ensures var rs := CompositeRenderers(info, url, names, styles, time, n);
      (forall k :: 0 <= k < |rs| ==>
         exists i :: 0 <= i < n && names[i] != "" && rs[k] == SubLayer(info, url, names, styles, time, i))
      && (forall i :: 0 <= i < n && names[i] != "" ==> SubLayer(info, url, names, styles, time, i) in rs)
  {
    CompositeSubLayersSound(info, url, names, styles, time, n);
    CompositeSubLayersComplete(info, url, names, styles, time, n);
    var rs := CompositeRenderers(info, url, names, styles, time, n);
    forall k | 0 <= k < |rs|
      ensures exists i :: 0 <= i < n && names[i] != "" && rs[k] == SubLayer(info, url, names, styles, time, i)
    {
      assert IsSubLayer(rs[k], info, url, names, styles, time, n);
    }
  }

  /** `r` is the sub-layer of one of the first `n` non-empty names. */
  predicate IsSubLayer(r: Renderer, info: LayerInfo, url: Option<string>, names: seq<string>, styles: seq<string>, time: string, n: nat)
    requires n <= |names|
  {
    exists i :: 0 <= i < n && names[i] != "" && r == SubLayer(info, url, names, styles, time, i)
  }

  lemma {:induction false} CompositeSubLayersSound(info: LayerInfo, url: Option<string>, names: seq<string>, styles: seq<string>, time: string, n: nat)
    requires n <= |names|
    ensures forall r :: r in CompositeRenderers(info, url, names, styles, time, n) ==>
      IsSubLayer(r, info, url, names, styles, time, n)
    decreases n
  {
    if n > 0 {
      CompositeSubLayersSound(info, url, names, styles, time, n - 1);
      var rs0 := CompositeRenderers(info, url, names, styles, time, n - 1);
      forall r | r in CompositeRenderers(info, url, names, styles, time, n)
        ensures IsSubLayer(r, info, url, names, styles, time, n)
      {
        if r in rs0 {
          var i :| 0 <= i < n - 1 && names[i] != "" && r == SubLayer(info, url, names, styles, time, i);
          assert 0 <= i < n;
        } else {
          assert names[n - 1] != "" && r == SubLayer(info, url, names, styles, time, n - 1);
        }
      }
    }
  }

  lemma {:induction false} CompositeSubLayersComplete(info: LayerInfo, url: Option<string>, names: seq<string>, styles: seq<string>, time: string, n: nat)
    requires n <= |names|
    ensures var rs := CompositeRenderers(info, url, names, styles, time, n);
      forall i :: 0 <= i < n && names[i] != "" ==> SubLayer(info, url, names, styles, time, i) in rs
    decreases n
  {
    if n > 0 {
      CompositeSubLayersComplete(info, url, names, styles, time, n - 1);
      var rs0 := CompositeRenderers(info, url, names, styles, time, n - 1);
      var rs := CompositeRenderers(info, url, names, styles, time, n);
      forall i | 0 <= i < n && names[i] != ""
        ensures SubLayer(info, url, names, styles, time, i) in rs
      {
        if i == n - 1 {
          assert rs[|rs| - 1] == SubLayer(info, url, names, styles, time, n - 1);
        } else {
          assert SubLayer(info, url, names, styles, time, i) in rs0;
        }
      }
    }
  }

  /** `addStandardOrComposite(urlOverride)`: the url is the override when it is
      a non-empty string, otherwise the layer's; a composite layer splits its
      layer and style names on `,`. */
  function StandardOrComposite(info: LayerInfo, time: string, urlOverride: Option<string>): (rs: seq<Renderer>)
    ensures !info.is_composite ==> |rs| == 1
    ensures forall k :: 0 <= k < |rs| ==>
      rs[k].datasetId == info.id && !rs[k].isBasemap && rs[k].kind.WmsTile? && rs[k].kind.opts.time == time
      && StyledAs(rs[k].kind.opts, info, info.is_composite, None)
  {
    var url := if urlOverride.Some? && urlOverride.value != "" then urlOverride.value else info.url;
    if info.is_composite then
      var names := Split(info.layer_name, ',');
      CompositeRenderers(info, Some(url), names, Split(info.style, ','), time, |names|)
    else [WmsRenderer(info, Some(url), Some(info.layer_name), Some(info.style), time, false, None)]
  }

  /** A UGRID layer: a composite one draws exactly two layers, from the first two
      `%`-separated urls, names and styles (missing ones are `undefined`); every
      one carries the out-of-range colours and the `extend` background. */
  function UgridRenderers(info: LayerInfo, time: string): (rs: seq<Renderer>)
    ensures |rs| == (if info.is_composite then 2 else 1)
    ensures forall k :: 0 <= k < |rs| ==>
      rs[k].datasetId == info.id && rs[k].kind.WmsTile? && rs[k].kind.opts.time == time
      && StyledAs(rs[k].kind.opts, info, true, Some("extend"))
  {
    var bg := Some("extend");
    if info.is_composite then
      var names, styles, urls := Split(info.layer_name, '%'), Split(info.style, '%'), Split(info.url, '%');
      [WmsRenderer(info, Nth(urls, 0), Nth(names, 0), Nth(styles, 0), time, true, bg),
       WmsRenderer(info, Nth(urls, 1), Nth(names, 1), Nth(styles, 1), time, true, bg)]
    else [WmsRenderer(info, Some(info.url), Some(info.layer_name), Some(info.style), time, true, bg)]
  }

  /** A layer is drawn from a cloud-optimised GeoTIFF when it is enabled, asks
      for it, and has COG parameters. */
  predicate UsesCog(info: LayerInfo) {
    info.enabled && info.enable_cog && info.cog_params != ""
  }

  /** What one layer's information makes the reconciler draw. */
  function LayerRenderers(info: LayerInfo, monthOf: string -> CalendarMonth): (rs: seq<Renderer>)
    ensures !info.enabled ==> rs == []
    ensures UsesCog(info) ==> |rs| == 1 && rs[0].kind.CogTile?
    ensures forall k :: 0 <= k < |rs| ==>
      rs[k].datasetId == info.id && !rs[k].isBasemap && IsTileLayer(rs[k].kind)
      && (rs[k].kind.WmsTile? ==>
            rs[k].kind.opts.time == DateToDisplay(info)
            && StyledAs(rs[k].kind.opts, info, info.is_composite || info.layer_type == "WMS_UGRID",
                        if info.layer_type == "WMS_UGRID" then Some("extend") else None))
  {
    var time := DateToDisplay(info);
    if UsesCog(info) then
      [Renderer(CogTile(info.cog_params, info.url, info.layer_name, time), info.id, false, JUndefined, JUndefined)]
    else if !info.enabled then []
    else if BaseType(info.layer_type) == "WMS" then UgridHindcastNotWms(); StandardOrComposite(info, time, None)
    else if info.layer_type == "WMS_UGRID" then UgridRenderers(info, time)
    else if info.layer_type == "WMS_HINDCAST" then StandardOrComposite(info, time, Some(HindcastLayerUrl(info, monthOf)))
    else []
  }

  /** A hindcast layer draws at its rewritten url, whose segments are the layer
      url's with only the last one replaced. */
  lemma HindcastRendererUrl(info: LayerInfo, monthOf: string -> CalendarMonth)
    requires info.enabled && !UsesCog(info) && info.layer_type == "WMS_HINDCAST" && !info.is_composite
    ensures var rs := LayerRenderers(info, monthOf);
      var f := HindcastFilename(info.composite_layer_id, monthOf(info.timeIntervalEnd));
      var segs := Split(info.url, '/');
      |rs| == 1 && rs[0].kind.WmsTile? && rs[0].kind.url.Some?
      && Split(rs[0].kind.url.value, '/') == segs[|segs| - 1 := f]
  {
    var f := HindcastFilename(info.composite_layer_id, monthOf(info.timeIntervalEnd));
    HindcastUrlSegments(info.url, f);
    HindcastRenderers(info, monthOf);
  }

  /** A non-composite hindcast layer draws one WMS layer at its hindcast url. */
  lemma HindcastRenderers(info: LayerInfo, monthOf: string -> CalendarMonth)
    requires info.enabled && !UsesCog(info) && info.layer_type == "WMS_HINDCAST" && !info.is_composite
    ensures LayerRenderers(info, monthOf) ==
      [WmsRenderer(info, Some(HindcastLayerUrl(info, monthOf)), Some(info.layer_name), Some(info.style), DateToDisplay(info), false, None)]
  {
    UgridHindcastNotWms();
    HindcastLayerUrlNotEmpty(info, monthOf);
  }

  /** The hindcast url is never empty. */
  lemma HindcastLayerUrlNotEmpty(info: LayerInfo, monthOf: string -> CalendarMonth)
    ensures HindcastLayerUrl(info, monthOf) != ""
  {
    var f := HindcastFilename(info.composite_layer_id, monthOf(info.timeIntervalEnd));
    HindcastUrlSegments(info.url, f);
    var segs := Split(info.url, '/');
    var out := segs[|segs| - 1 := f];
    JoinAround("/", out, |out| - 1);
  }

  // ---------------------------------------------------------------------------
  // The effects one layer triggers besides drawing

  datatype Effect =
    | FetchGeoJson(url: string, id: int)
    | FetchWaveBuoys(url: string, id: int, types: seq<JsValue>)
    | FetchTide(url: string, id: int)
    | WarnCogParamsMissing(id: int)
    | FitBounds(south: real, east: real, north: real, west: real)
    | HideTime

  /** The fetch or warning an enabled, non-COG layer triggers by its type. */
  function TypeEffects(info: LayerInfo): (es: seq<Effect>)
    ensures |es| <= 1
    ensures forall e :: e in es ==> !e.FitBounds? && !e.HideTime?
    ensures forall e :: e in es ==> e.id == info.id
  {
    if BaseType(info.layer_type) == "WMS" || info.layer_type == "WMS_UGRID" || info.layer_type == "WMS_HINDCAST" then []
    else if info.layer_type == "WFS" then [FetchGeoJson(info.url, info.id)]
    else if info.layer_type == "SOFAR" then
      [FetchWaveBuoys(info.url, info.id, info.selectedSofarTypes.GetOr([]))]
    else if info.layer_type == "TIDE" then [FetchTide(info.url, info.id)]
    else if info.enable_cog && info.cog_params == "" then [WarnCogParamsMissing(info.id)]
    else []
  }

  /** Fitting the map to a layer's box (`[[south, east], [north, west]]`). */
  function BoxFit(layer: Layer): Effect {
    FitBounds(layer.south_bound_latitude, layer.east_bound_longitude,
              layer.north_bound_latitude, layer.west_bound_longitude)
  }

  /** The effects of one workbench entry other than its renderers. */
  function LayerEffects(layer: Layer, boundsNull: bool): (es: seq<Effect>)
    ensures |es| <= 2
    ensures BoxFit(layer) in es <==> IsEnabled(layer) && layer.info.value.zoomToLayer && boundsNull
    ensures forall e :: e in es && e.FitBounds? ==> e == BoxFit(layer)
    ensures forall e :: e in es && !e.FitBounds? ==>
              !e.HideTime? && layer.info.Some? && e.id == layer.info.value.id
  {
    if layer.info.None? || !layer.info.value.enabled then []
    else
      var info := layer.info.value;
      var fit := if info.zoomToLayer && boundsNull then [BoxFit(layer)] else [];
      if UsesCog(info) then fit else TypeEffects(info) + fit
  }

  // ---------------------------------------------------------------------------
  // The whole workbench

  /** The renderers of one workbench entry; an entry without information draws nothing. */
  function EntryRenderers(layer: Layer, monthOf: string -> CalendarMonth): seq<Renderer> {
    if layer.info.Some? then LayerRenderers(layer.info.value, monthOf) else []
  }

  /** The renderers of the workbench, layer by layer in workbench order. */
  function DatasetPlan(layers: seq<Layer>, monthOf: string -> CalendarMonth): seq<Renderer>
    decreases |layers|
  {
    if |layers| == 0 then []
    else DatasetPlan(layers[..|layers| - 1], monthOf) + EntryRenderers(layers[|layers| - 1], monthOf)
  }

  function EffectsOfLayers(layers: seq<Layer>, boundsNull: bool): seq<Effect>
    decreases |layers|
  {
    if |layers| == 0 then []
    else EffectsOfLayers(layers[..|layers| - 1], boundsNull) + LayerEffects(layers[|layers| - 1], boundsNull)
  }

  /** One more layer adds its own renderers and effects after those of the layers before it. */
  lemma PrefixStep(layers: seq<Layer>, i: nat, boundsNull: bool, monthOf: string -> CalendarMonth)
    requires i < |layers|
    ensures DatasetPlan(layers[..i + 1], monthOf) == DatasetPlan(layers[..i], monthOf) + EntryRenderers(layers[i], monthOf)
    ensures EffectsOfLayers(layers[..i + 1], boundsNull) == EffectsOfLayers(layers[..i], boundsNull) + LayerEffects(layers[i], boundsNull)
  {
    assert layers[..i + 1][..i] == layers[..i] && layers[..i + 1][i] == layers[i];
  }

  /** The effects of one run: an empty workbench only hides the time control. */
  function DatasetEffects(layers: seq<Layer>, boundsNull: bool): (es: seq<Effect>)
    ensures |layers| == 0 <==> HideTime in es
  {
    if |layers| == 0 then [HideTime] else NoHideTime(layers, boundsNull); EffectsOfLayers(layers, boundsNull)
  }

  lemma {:induction false} NoHideTime(layers: seq<Layer>, boundsNull: bool)
    ensures HideTime !in EffectsOfLayers(layers, boundsNull)
    decreases |layers|
  {
    if |layers| > 0 {
      NoHideTime(layers[..|layers| - 1], boundsNull);
    }
  }

  /** Every renderer the reconciler draws is a tile layer tagged with the id of
      an enabled workbench layer, so the disabled-layer purge never removes it. */
  lemma {:induction false} PlanTagged(layers: seq<Layer>, monthOf: string -> CalendarMonth)
    ensures forall r :: r in DatasetPlan(layers, monthOf) ==> r.datasetId in EnabledIds(layers) && IsTileLayer(r.kind)
    decreases |layers|
  {
    if |layers| > 0 {
      var init := layers[..|layers| - 1];
      var last := layers[|layers| - 1];
      PlanTagged(init, monthOf);
      assert EnabledIds(init) <= EnabledIds(layers) by {
        forall x | x in EnabledIds(init) ensures x in EnabledIds(layers) {
          var i :| 0 <= i < |init| && IsEnabled(init[i]) && init[i].info.value.id == x;
          assert layers[i] == init[i];
        }
      }
      var rs := EntryRenderers(last, monthOf);
      forall r | r in rs ensures r.datasetId in EnabledIds(layers) && IsTileLayer(r.kind) {
        assert IsEnabled(layers[|layers| - 1]);
      }
    }
  }

  /** Nothing is drawn for a workbench without enabled layers. */
  lemma {:induction false} PlanEmptyWhenNoneEnabled(layers: seq<Layer>, monthOf: string -> CalendarMonth)
    requires forall i :: 0 <= i < |layers| ==> !IsEnabled(layers[i])
    ensures DatasetPlan(layers, monthOf) == []
    decreases |layers|
  {
    if |layers| > 0 {
      var init := layers[..|layers| - 1];
      assert forall i :: 0 <= i < |init| ==> init[i] == layers[i];
      PlanEmptyWhenNoneEnabled(init, monthOf);
    }
  }

  // ---------------------------------------------------------------------------
  // Objects on the map

  /** The persistent dataset group `L.layerGroup()`. */
  const GroupRenderer := Renderer(DatasetGroup, 0, false, JUndefined, JUndefined)

  /** The map before clearing: the dataset group is created and added on the first run. */
  function WithGroup(objs: seq<MapObject>, created: bool, stamp: int): seq<MapObject> {
    if created then objs else objs + [MapObject(stamp, GroupRenderer, false)]
  }

  /** Renderers added one after the other from stamp `s`, each in the dataset group. */
  function Placed(rs: seq<Renderer>, s: int): (os: seq<MapObject>)
    ensures |os| == |rs|
    ensures forall k :: 0 <= k < |rs| ==> os[k] == MapObject(s + k, rs[k], true)
  {
    seq(|rs|, k requires 0 <= k < |rs| => MapObject(s + k, rs[k], true))
  }

  lemma PlacedSnoc(base: seq<MapObject>, rs: seq<Renderer>, r: Renderer, s: int)
    ensures base + Placed(rs, s) + [MapObject(s + |rs|, r, true)] == base + Placed(rs + [r], s)
  {
    assert Placed(rs, s) + [MapObject(s + |rs|, r, true)] == Placed(rs + [r], s);
  }

  /** Drawing more renderers after those already placed continues the placement. */
  lemma PlacedStep(objs: seq<MapObject>, before: seq<MapObject>, base: seq<MapObject>,
                   done: seq<Renderer>, rs: seq<Renderer>, s0: int, ns: int)
    requires objs == before + Placed(rs, ns)
    requires before == base + Placed(done, s0) && ns == s0 + |done|
    ensures objs == base + Placed(done + rs, s0)
  {
    assert Placed(done, s0) + Placed(rs, ns) == Placed(done + rs, s0);
  }

  /** The objects the disabled-layer purge removes: tagged with a dataset id that is not enabled. */
  predicate DisabledTagged(enabled: set<int>, o: MapObject) {
    Tagged(o) && o.r.datasetId !in enabled
  }

  /** The disabled-layer purge removes exactly the tagged objects whose dataset
      is not enabled and keeps everything else, in order. */
  lemma PurgeDisabledMembers(objs: seq<MapObject>, layers: seq<Layer>)
    requires StampsIncreasing(objs)
    ensures var after := Without(objs, Elements(StampsWhere(objs, o => DisabledTagged(EnabledIds(layers), o))));
      forall o :: o in after <==> o in objs && !DisabledTagged(EnabledIds(layers), o)
  {
    RemoveWhereMembers(objs, o => DisabledTagged(EnabledIds(layers), o));
  }

  /** `options.id || options.layerId || ''` is one of the static overlay ids. */
  predicate StaticOverlay(o: MapObject) {
    var lid := OrElse(OrElse(o.r.optionsId, o.r.optionsLayerId), JStr(""));
    lid == JStr("eez") || lid == JStr("coastline") || lid == JStr("pacnames")
  }

  /** The global purge's test as written: not the basemap, not a static overlay,
      and tagged or a tile, cluster or group layer. The dataset group itself is a
      layer group, so it matches. */
  predicate GlobalRemovable(o: MapObject) {
    !o.r.isBasemap && !StaticOverlay(o)
    && (Tagged(o) || IsTileLayer(o.r.kind) || o.r.kind.ClusterGroup? || IsLayerGroup(o.r.kind))
  }

  /** The global purge's test with the persistent dataset group spared, so that
      later runs still clear the group's members off the map. */
  predicate GlobalRemovableKeepingGroup(o: MapObject) {
    GlobalRemovable(o) && !o.r.kind.DatasetGroup?
  }

  /** The corrected global purge keeps the basemap, the static overlays and the
      dataset group, and removes every other tagged, tile, cluster or group layer. */
  lemma GlobalPurgeMembers(objs: seq<MapObject>)
    requires StampsIncreasing(objs)
    ensures var after := Without(objs, Elements(StampsWhere(objs, GlobalRemovableKeepingGroup)));
      forall o :: o in after <==> o in objs && !GlobalRemovableKeepingGroup(o)
  {
    RemoveWhereMembers(objs, GlobalRemovableKeepingGroup);
  }

  /** As written, the global purge takes the dataset group off the map. */
  lemma GlobalPurgeRemovesGroup(objs: seq<MapObject>)
    requires StampsIncreasing(objs)
    ensures forall o :: o in Without(objs, Elements(StampsWhere(objs, GlobalRemovable))) ==> o.r != GroupRenderer
  {
    assert GlobalRemovable(MapObject(0, GroupRenderer, false));
    RemoveWhereMembers(objs, GlobalRemovable);
  }

  /** The corrected global purge leaves an existing dataset group on the map. */
  lemma GlobalPurgeKeepsGroup(objs: seq<MapObject>)
    requires StampsIncreasing(objs) && GroupOnMap(objs)
    ensures GroupOnMap(Without(objs, Elements(StampsWhere(objs, GlobalRemovableKeepingGroup))))
  {
    var after := Without(objs, Elements(StampsWhere(objs, GlobalRemovableKeepingGroup)));
    GlobalPurgeMembers(objs);
    var i :| 0 <= i < |objs| && objs[i].r.kind.DatasetGroup?;
    assert objs[i] in after;
    var k :| 0 <= k < |after| && after[k] == objs[i];
  }

  /** With the group on the map, clearing it takes every member off the map: no
      object that was in the group keeps its stamp on the map. */
  lemma ClearedGroupDropsMembers(objs: seq<MapObject>)
    requires StampsIncreasing(objs) && GroupOnMap(objs)
    ensures forall i, k :: 0 <= i < |objs| && objs[i].inGroup && 0 <= k < |ClearedGroup(objs)| ==>
              ClearedGroup(objs)[k].stamp != objs[i].stamp
  {
    var kept := Without(objs, Elements(StampsWhere(objs, InGroup)));
    var cleared := ClearedGroup(objs);
    RemoveWhereMembers(objs, InGroup);
    forall i, k | 0 <= i < |objs| && objs[i].inGroup && 0 <= k < |cleared|
      ensures cleared[k].stamp != objs[i].stamp
    {
      assert cleared[k].stamp == kept[k].stamp;
      assert kept[k] in kept;
      var j :| 0 <= j < |objs| && objs[j] == kept[k];
      assert !objs[j].inGroup;
      assert i != j;
    }
  }

  /** As written, the global purge leaves no dataset group on the map, when
      every dataset group object on it is the client's own group. */
  lemma AsWrittenPurgeUngroups(objs: seq<MapObject>)
    requires StampsIncreasing(objs)
    requires forall i :: 0 <= i < |objs| && objs[i].r.kind.DatasetGroup? ==> objs[i].r == GroupRenderer
    ensures !GroupOnMap(Without(objs, Elements(StampsWhere(objs, GlobalRemovable))))
  {
    var after := Without(objs, Elements(StampsWhere(objs, GlobalRemovable)));
    RemoveWhereMembers(objs, GlobalRemovable);
    GroupObjectsRemovable(objs);
    forall i | 0 <= i < |after| ensures !after[i].r.kind.DatasetGroup? {
      assert after[i] in after;
    }
  }

  /** The global purge's test as written matches the client's group object. */
  lemma GroupObjectsRemovable(objs: seq<MapObject>)
    requires forall i :: 0 <= i < |objs| && objs[i].r.kind.DatasetGroup? ==> objs[i].r == GroupRenderer
    ensures forall o :: o in objs && o.r.kind.DatasetGroup? ==> GlobalRemovable(o)
  {
    forall o | o in objs && o.r.kind.DatasetGroup? ensures GlobalRemovable(o) {
      var j :| 0 <= j < |objs| && objs[j] == o;
      assert o.r == GroupRenderer;
    }
  }

  /** Once no dataset group is on the map, clearing the created group takes
      nothing off the map: every later run leaves the objects already there,
      and the previous run's tiles, on the map, under its own new tiles. */
  lemma {:induction false} AsWrittenPurgeKeepsStaleTiles(objs: seq<MapObject>, plan1: seq<Renderer>, s1: int,
                                                         plan2: seq<Renderer>, s2: int)
    requires !GroupOnMap(objs)
    requires forall r :: r in plan1 ==> !r.kind.DatasetGroup?
    ensures var c := ClearedGroup(WithGroup(objs, true, s1)) + Placed(plan1, s1);
      var d := ClearedGroup(WithGroup(c, true, s2)) + Placed(plan2, s2);
      (forall o :: o in objs ==> o.(inGroup := false) in d)
      && (forall k :: 0 <= k < |plan1| ==> MapObject(s1 + k, plan1[k], false) in d)
  {
    var c := Ungrouped(objs) + Placed(plan1, s1);
    assert ClearedGroup(WithGroup(objs, true, s1)) == Ungrouped(objs);
    forall i | 0 <= i < |c| ensures !c[i].r.kind.DatasetGroup? {
      if i < |objs| {
        assert c[i].r == objs[i].r;
      } else {
        assert c[i].r == plan1[i - |objs|];
      }
    }
    assert !GroupOnMap(c);
    var d := Ungrouped(c) + Placed(plan2, s2);
    forall o | o in objs ensures o.(inGroup := false) in d {
      var i :| 0 <= i < |objs| && objs[i] == o;
      assert d[i] == o.(inGroup := false);
    }
    forall k | 0 <= k < |plan1| ensures MapObject(s1 + k, plan1[k], false) in d {
      assert d[|objs| + k] == MapObject(s1 + k, plan1[k], false);
    }
  }

  /** The reported behaviour: a group object taken off the map by the global
      purge as written is never re-added, so later clearing no longer removes
      the previous run's tiles, and each re-render stacks another copy. Here a
      map holding only the group is emptied, and one WMS layer is then drawn
      twice: both copies stay on the map. */
  lemma GlobalPurgeStacksTiles(r: Renderer, r2: Renderer)
    requires r.kind.WmsTile? && r2.kind.WmsTile?
    ensures var a := [MapObject(1, GroupRenderer, false)];
      var b := Without(a, Elements(StampsWhere(a, GlobalRemovable)));
      var c := ClearedGroup(b) + Placed([r], 2);
      var d := ClearedGroup(c) + Placed([r2], 3);
      b == [] && d == [MapObject(2, r, false), MapObject(3, r2, true)]
  {
    var a := [MapObject(1, GroupRenderer, false)];
    assert GlobalRemovable(a[0]);
    assert StampsWhere(a, GlobalRemovable) == [1] by {
      assert a[..0] == [];
    }
    assert Elements([1]) == {1};
    var b := Without(a, {1});
    assert b == [];
    assert !GroupOnMap(b);
    var c := ClearedGroup(b) + Placed([r], 2);
    assert c == [MapObject(2, r, true)];
    assert !GroupOnMap(c);
  }

  /** With the corrected purge the same steps leave a single copy: the group
      stays on the map and the second run's clearing removes the first copy. */
  lemma CorrectedPurgeKeepsOneTile(r: Renderer, r2: Renderer)
    requires r.kind.WmsTile? && r2.kind.WmsTile?
    ensures var a := [MapObject(1, GroupRenderer, false)];
      var b := Without(a, Elements(StampsWhere(a, GlobalRemovableKeepingGroup)));
      var c := ClearedGroup(b) + Placed([r], 2);
      var d := ClearedGroup(c) + Placed([r2], 3);
      b == a && d == [MapObject(1, GroupRenderer, false), MapObject(3, r2, true)]
  {
    var a := [MapObject(1, GroupRenderer, false)];
    LoneGroupSurvivesPurge();
    var b := Without(a, Elements(StampsWhere(a, GlobalRemovableKeepingGroup)));
    assert b == a;
    LoneGroupCleared();
    PlacedOne(r, 2);
    var c := ClearedGroup(b) + Placed([r], 2);
    assert c == [MapObject(1, GroupRenderer, false), MapObject(2, r, true)];
    GroupWithTileCleared(r);
    PlacedOne(r2, 3);
  }

  /** One renderer placed at stamp `s`. */
  lemma PlacedOne(r: Renderer, s: int)
    ensures Placed([r], s) == [MapObject(s, r, true)]
  {
  }

  /** The corrected purge leaves a map holding only the group as it is. */
  lemma LoneGroupSurvivesPurge()
    ensures var a := [MapObject(1, GroupRenderer, false)];
      Without(a, Elements(StampsWhere(a, GlobalRemovableKeepingGroup))) == a
  {
    var a := [MapObject(1, GroupRenderer, false)];
    assert !GlobalRemovableKeepingGroup(a[0]);
    assert StampsWhere(a, GlobalRemovableKeepingGroup) == [] by {
      assert a[..0] == [];
    }
    WithoutNone(a, {});
  }

  /** Clearing an empty group on the map changes nothing. */
  lemma LoneGroupCleared()
    ensures ClearedGroup([MapObject(1, GroupRenderer, false)]) == [MapObject(1, GroupRenderer, false)]
  {
    var a := [MapObject(1, GroupRenderer, false)];
    assert a[0].r.kind.DatasetGroup?;
    assert GroupOnMap(a);
    LoneGroupHasNoMembers();
    WithoutNone(a, {});
    LoneGroupUngrouped();
  }

  lemma LoneGroupHasNoMembers()
    ensures StampsWhere([MapObject(1, GroupRenderer, false)], InGroup) == []
  {
    var a := [MapObject(1, GroupRenderer, false)];
    assert a[..0] == [];
  }

  lemma LoneGroupUngrouped()
    ensures Ungrouped([MapObject(1, GroupRenderer, false)]) == [MapObject(1, GroupRenderer, false)]
  {
    var a := [MapObject(1, GroupRenderer, false)];
    var u := Ungrouped(a);
    assert |u| == 1 && u[0] == a[0];
  }

  /** Clearing the group on the map takes its one tile off the map. */
  lemma GroupWithTileCleared(r: Renderer)
    ensures ClearedGroup([MapObject(1, GroupRenderer, false), MapObject(2, r, true)]) ==
      [MapObject(1, GroupRenderer, false)]
  {
    var c := [MapObject(1, GroupRenderer, false), MapObject(2, r, true)];
    assert c[0].r.kind.DatasetGroup?;
    assert GroupOnMap(c);
    GroupAndTileMembers(r);
    assert Elements([2]) == {2};
    WithoutTile(r);
    LoneGroupUngrouped();
  }

  lemma GroupAndTileMembers(r: Renderer)
    ensures StampsWhere([MapObject(1, GroupRenderer, false), MapObject(2, r, true)], InGroup) == [2]
  {
    var a := [MapObject(1, GroupRenderer, false)];
    var c := [MapObject(1, GroupRenderer, false), MapObject(2, r, true)];
    LoneGroupHasNoMembers();
    assert c[..1] == a;
    assert InGroup(c[1]);
  }

  lemma WithoutTile(r: Renderer)
    ensures Without([MapObject(1, GroupRenderer, false), MapObject(2, r, true)], {2}) ==
      [MapObject(1, GroupRenderer, false)]
  {
    var c := [MapObject(1, GroupRenderer, false), MapObject(2, r, true)];
    assert c[1..] == [c[1]];
    assert Without([c[1]], {2}) == [] by {
      assert [c[1]][1..] == [];
    }
  }

  /** The map component's dataset-layer state: the map and the group ref. */
  class DatasetView {
    const leaflet: LeafletMap
    /** `datasetLayerGroupRef.current` is set. */
    var groupCreated: bool

    ghost predicate Valid()
      reads this, leaflet
    {
      leaflet.Valid()
    }

    constructor (m: LeafletMap)
      requires m.Valid()
      ensures Valid() && leaflet == m && !groupCreated
    {
      leaflet := m;
      groupCreated := false;
    }

    /** Creating the group on the first run, then `group.clearLayers()`. */
    method PrepareGroup()
      requires Valid()
      modifies this, leaflet
      ensures Valid() && groupCreated
      ensures leaflet.objects ==
        ClearedGroup(WithGroup(old(leaflet.objects), old(groupCreated), old(leaflet.nextStamp)))
      ensures leaflet.nextStamp == if old(groupCreated) then old(leaflet.nextStamp) else old(leaflet.nextStamp) + 1
    {
      if !groupCreated {
        var _ := leaflet.AddLayer(GroupRenderer, false);
        groupCreated := true;
      }
      leaflet.ClearGroup();
    }

    /** Drawing renderers into the group, one after the other. A WMS renderer
        goes through the adapter, which adds it to the map itself; any other
        renderer reaches the map through the group or, when the group is off
        the map, through the direct fallback. Either way it ends up on the map
        and in the group. */
    method DrawRenderers(rs: seq<Renderer>)
      requires Valid()
      modifies leaflet
      ensures Valid()
      ensures leaflet.objects == old(leaflet.objects) + Placed(rs, old(leaflet.nextStamp))
      ensures leaflet.nextStamp == old(leaflet.nextStamp) + |rs|
    {
      ghost var base, s0 := leaflet.objects, leaflet.nextStamp;
      assert Placed(rs[..0], s0) == [];
      var j := 0;
      while j < |rs|
        invariant 0 <= j <= |rs|
        invariant leaflet.Valid()
        invariant leaflet.objects == base + Placed(rs[..j], s0)
        invariant leaflet.nextStamp == s0 + j
      {
        PlacedSnoc(base, rs[..j], rs[j], s0);
        if rs[j].kind.WmsTile? {
          var _ := leaflet.AddWmsTileLayer(rs[j], true);
        } else {
          var _ := leaflet.AddLayer(rs[j], true);
        }
        assert rs[..j + 1] == rs[..j] + [rs[j]];
        j := j + 1;
      }
      assert rs[..j] == rs;
    }

    /** The dataset effect: create the group once, clear it, then draw every
        enabled layer into it and collect the other effects. */
    method Reconcile(layers: seq<Layer>, boundsNull: bool, monthOf: string -> CalendarMonth) returns (effects: seq<Effect>)
      requires Valid()
      modifies this, leaflet
      ensures Valid() && groupCreated
      ensures var pre := WithGroup(old(leaflet.objects), old(groupCreated), old(leaflet.nextStamp));
              var s0 := if old(groupCreated) then old(leaflet.nextStamp) else old(leaflet.nextStamp) + 1;
              leaflet.objects == ClearedGroup(pre) + Placed(DatasetPlan(layers, monthOf), s0)
      ensures effects == DatasetEffects(layers, boundsNull)
    {
      PrepareGroup();
      if |layers| == 0 {
        effects := [HideTime];
        assert Placed([], leaflet.nextStamp) == [];
        return;
      }
      effects := DrawLayers(layers, boundsNull, monthOf);
    }

    /** Drawing every layer's renderers into the group, in workbench order, and
        collecting each layer's other effects. */
    method DrawLayers(layers: seq<Layer>, boundsNull: bool, monthOf: string -> CalendarMonth) returns (effects: seq<Effect>)
      requires Valid()
      modifies leaflet
      ensures Valid()
      ensures leaflet.objects == old(leaflet.objects) + Placed(DatasetPlan(layers, monthOf), old(leaflet.nextStamp))
      ensures leaflet.nextStamp == old(leaflet.nextStamp) + |DatasetPlan(layers, monthOf)|
      ensures effects == EffectsOfLayers(layers, boundsNull)
    {
      ghost var base, s0 := leaflet.objects, leaflet.nextStamp;
      assert base + Placed([], s0) == base;
      effects := [];
      var i := 0;
      while i < |layers|
        invariant 0 <= i <= |layers|
        invariant leaflet.Valid()
        invariant leaflet.objects == base + Placed(DatasetPlan(layers[..i], monthOf), s0)
        invariant leaflet.nextStamp == s0 + |DatasetPlan(layers[..i], monthOf)|
        invariant effects == EffectsOfLayers(layers[..i], boundsNull)
      {
        PrefixStep(layers, i, boundsNull, monthOf);
        ghost var done := DatasetPlan(layers[..i], monthOf);
        var rs := EntryRenderers(layers[i], monthOf);
        ghost var before, ns := leaflet.objects, leaflet.nextStamp;
        DrawRenderers(rs);
        PlacedStep(leaflet.objects, before, base, done, rs, s0, ns);
        effects := effects + LayerEffects(layers[i], boundsNull);
        i := i + 1;
      }
      assert layers[..i] == layers;
    }

    /** The purge effect: remove every tagged renderer whose dataset id is not
        enabled (`PurgeDisabledMembers` states what survives). */
    method PurgeDisabled(layers: seq<Layer>)
      requires Valid()
      modifies leaflet
      ensures Valid()
      ensures leaflet.objects ==
        Without(old(leaflet.objects),
                Elements(StampsWhere(old(leaflet.objects), o => DisabledTagged(EnabledIds(layers), o))))
    {
      var enabled := EnabledIds(layers);
      var _ := leaflet.RemoveWhere(o => DisabledTagged(enabled, o));
    }

    /** The global purge as written: with an empty workbench, every object the
        test collects leaves the map, the dataset group included
        (`AsWrittenPurgeUngroups`), while the group ref stays set. */
    method PurgeAllAsWritten(layers: seq<Layer>)
      requires Valid()
      modifies leaflet
      ensures Valid() && groupCreated == old(groupCreated)
      ensures |layers| == 0 ==>
                leaflet.objects == Without(old(leaflet.objects),
                                           Elements(StampsWhere(old(leaflet.objects), GlobalRemovable)))
      ensures |layers| > 0 ==> leaflet.objects == old(leaflet.objects)
    {
      if |layers| == 0 {
        var _ := leaflet.RemoveWhere(GlobalRemovable);
      }
    }

    /** The global purge when the workbench is empty, sparing the dataset group
        (`GlobalPurgeMembers` states what survives). */
    method PurgeAll(layers: seq<Layer>)
      requires Valid()
      modifies leaflet
      ensures Valid()
      ensures |layers| == 0 ==>
                leaflet.objects == Without(old(leaflet.objects),
                                           Elements(StampsWhere(old(leaflet.objects), GlobalRemovableKeepingGroup)))
      ensures |layers| > 0 ==> leaflet.objects == old(leaflet.objects)
    {
      if |layers| == 0 {
        var _ := leaflet.RemoveWhere(GlobalRemovableKeepingGroup);
      }
    }
  }
}
