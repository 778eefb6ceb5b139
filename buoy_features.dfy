/** The vector feeds the map draws as marker clusters: the SOFAR buoy feed is
    turned into GeoJSON point features, and GeoJSON collections have their
    point longitudes normalised and points near the antimeridian drawn twice,
    once on each side. */
module BuoyFeatures {
  import opened Js
  import opened Strings
  import opened Numbers

  /** One buoy record of the SOFAR feed. Fields that may be missing or of any
      JSON type are loosely typed scalars. */
  datatype BuoyEntry = BuoyEntry(
    longitude: real,
    latitude: real,
    station_id: JsValue,
    display_name: JsValue,
    is_active: JsValue,
    owner: JsValue,
    type_value: JsValue,
    type_id: JsValue,
    data_limit: JsValue
  )

  /** The feed body: an array of records, or a single record. */
  datatype Feed = Many(entries: seq<BuoyEntry>) | One(entry: BuoyEntry)

  /** The properties attached to each buoy feature. */
  datatype BuoyProperties = BuoyProperties(
    spotter_id: JsValue,
    display_name: JsValue,
    is_active: string,
    owner: JsValue,
    sensor: JsValue,
    type_id: JsValue,
    data_limit: JsValue
  )

  /** A GeoJSON geometry: a point, or any other geometry (kept opaque). */
  datatype Geometry = Point(lon: real, lat: real) | OtherGeometry(kind: string)

  /** A GeoJSON feature with properties of type `P`. */
  datatype Feature<P> = Feature(geometry: Geometry, properties: P)

  /** The entries of the feed: `Array.isArray(raw) ? raw : [raw]`. */
  function Entries(feed: Feed): (es: seq<BuoyEntry>)
    ensures feed.One? ==> es == [feed.entry]
    ensures feed.Many? ==> es == feed.entries
  {
    match feed
    case Many(es) => es
    case One(e) => [e]
  }

  /** The type filter: the entries whose `type_id` is in `types` (`includes`
      compares scalars by value), in their original order. */
  function KeepTypes(es: seq<BuoyEntry>, types: seq<JsValue>): (r: seq<BuoyEntry>)
    ensures |r| <= |es|
    ensures forall i :: 0 <= i < |r| ==> r[i] in es && r[i].type_id in types
    decreases |es|
  {
    if |es| == 0 then []
    else (if es[0].type_id in types then [es[0]] else []) + KeepTypes(es[1..], types)
  }

  /** Every entry whose type is selected survives the filter. */
  lemma {:induction false} KeepTypesKeepsSelected(es: seq<BuoyEntry>, types: seq<JsValue>, i: nat)
    requires i < |es| && es[i].type_id in types
    ensures es[i] in KeepTypes(es, types)
    decreases |es|
  {
    if i > 0 {
      KeepTypesKeepsSelected(es[1..], types, i - 1);
    }
  }

  /** The filter works entry by entry, so it preserves the order of the feed:
      filtering a concatenation concatenates the filtered parts. */
  lemma {:induction false} KeepTypesAppend(a: seq<BuoyEntry>, b: seq<BuoyEntry>, types: seq<JsValue>)
    ensures KeepTypes(a + b, types) == KeepTypes(a, types) + KeepTypes(b, types)
    decreases |a|
  {
    if |a| == 0 {
      assert a + b == b;
    } else {
      assert (a + b)[0] == a[0];
      assert (a + b)[1..] == a[1..] + b;
      KeepTypesAppend(a[1..], b, types);
    }
  }

  /** The entries drawn: with a non-empty selection only the selected types, otherwise all. */
  function SelectedEntries(feed: Feed, types: seq<JsValue>): seq<BuoyEntry> {
    if |types| > 0 then KeepTypes(Entries(feed), types) else Entries(feed)
  }

  /** Negative longitudes are shifted by a full turn into [0, 360). */
  function ShiftLongitude(lon: real): (r: real)
    ensures -360.0 <= lon < 360.0 ==> 0.0 <= r < 360.0
    ensures r == lon || r == lon + 360.0
    ensures r >= 0.0 ==> (r == lon) == (lon >= 0.0)
  {
    if lon < 0.0 then lon + 360.0 else lon
  }

  /** The properties of a buoy feature, with the feed's defaults for missing values. */
  function BuoyProps(e: BuoyEntry): (p: BuoyProperties)
    ensures !Truthy(e.station_id) ==> p.spotter_id == JStr("Unknown")
    ensures !Truthy(e.owner) ==> p.owner == JStr("Unknown")
    ensures !Truthy(e.data_limit) ==> p.data_limit == JNum(100)
    ensures !Truthy(e.is_active) ==> p.is_active == "FALSE"
    ensures Truthy(e.is_active) ==> p.is_active == Upper(ToJsString(e.is_active))
    ensures !Truthy(e.display_name) ==> p.display_name == JNull
    ensures !Truthy(e.type_id) ==> p.type_id == JNull
    ensures !Truthy(e.type_value) ==> p.sensor == JStr("")
    ensures Truthy(e.station_id) ==> p.spotter_id == e.station_id
    ensures Truthy(e.owner) ==> p.owner == e.owner
    ensures Truthy(e.data_limit) ==> p.data_limit == e.data_limit
    ensures Truthy(e.display_name) ==> p.display_name == e.display_name
    ensures Truthy(e.type_id) ==> p.type_id == e.type_id
    ensures Truthy(e.type_value) ==> p.sensor == e.type_value
  {
    BuoyProperties(
      OrElse(e.station_id, JStr("Unknown")),
      OrElse(e.display_name, JNull),
      if Truthy(e.is_active) then Upper(ToJsString(e.is_active)) else "FALSE",
      OrElse(e.owner, JStr("Unknown")),
      OrElse(e.type_value, JStr("")),
      OrElse(e.type_id, JNull),
      OrElse(e.data_limit, JNum(100)))
  }

  /** One buoy as a point feature. */
  function BuoyFeature(e: BuoyEntry): Feature<BuoyProperties> {
    Feature(Point(ShiftLongitude(e.longitude), e.latitude), BuoyProps(e))
  }

  /** `transformToGeoJSON(raw, selectedTypes)`: one point feature per selected entry, in order. */
  function TransformToGeoJSON(feed: Feed, types: seq<JsValue>): (fs: seq<Feature<BuoyProperties>>)
    ensures |fs| == |SelectedEntries(feed, types)| <= |Entries(feed)|
    ensures forall i :: 0 <= i < |fs| ==> fs[i] == BuoyFeature(SelectedEntries(feed, types)[i])
  {
    var es := SelectedEntries(feed, types);
    seq(|es|, i requires 0 <= i < |es| => BuoyFeature(es[i]))
  }

  /** The transform yields exactly one point per kept entry: no entry is
      duplicated, an empty selection keeps every entry, and each point's
      longitude is the entry's shifted longitude. */
  lemma TransformKeepsAllWithoutSelection(feed: Feed)
    ensures var fs := TransformToGeoJSON(feed, []);
            |fs| == |Entries(feed)|
            && forall i :: 0 <= i < |fs| ==>
                 fs[i].geometry == Point(ShiftLongitude(Entries(feed)[i].longitude), Entries(feed)[i].latitude)
  {
  }

  // ---------------------------------------------------------------------
  // Longitude normalisation

  /** How far the first normalisation loop still has to run on `x`. */
  function DownMeasure(x: real): nat {
    if x > 180.0 then (x - 180.0).Floor + 1 else 0
  }

  /** How far the second normalisation loop still has to run on `x`. */
  function UpMeasure(x: real): nat {
    if x < -180.0 then (-180.0 - x).Floor + 1 else 0
  }

  /** The number of turns the first loop subtracts. */
  function DownTurns(x: real): (k: nat)
    decreases DownMeasure(x)
  {
    if x > 180.0 then 1 + DownTurns(x - 360.0) else 0
  }

  /** The number of turns the second loop adds. */
  function UpTurns(x: real): (k: nat)
    decreases UpMeasure(x)
  {
    if x < -180.0 then 1 + UpTurns(x + 360.0) else 0
  }

  /** The value the first loop leaves: at most 180, a whole number of turns below `x`. */
  function AfterDown(x: real): (y: real)
    ensures y <= 180.0
    ensures y == x - 360.0 * DownTurns(x) as real
    ensures x > -180.0 ==> y > -180.0
    decreases DownMeasure(x)
  {
    if x > 180.0 then AfterDown(x - 360.0) else x
  }

  /** The value the second loop leaves: at least -180, a whole number of turns above `x`. */
  function AfterUp(x: real): (y: real)
    ensures y >= -180.0
    ensures y == x + 360.0 * UpTurns(x) as real
    ensures x <= 180.0 ==> y <= 180.0
    decreases UpMeasure(x)
  {
    if x < -180.0 then AfterUp(x + 360.0) else x
  }

  /** The whole number of turns normalisation adds to `x` (negative when it subtracts). */
  function NormalizingTurns(x: real): int {
    UpTurns(AfterDown(x)) - DownTurns(x)
  }

  /** `normalizeLongitude(lon)` as a value: a longitude in [-180, 180] that
      differs from `x` by a whole number of turns. */
  function NormalizedLon(x: real): (y: real)
    ensures -180.0 <= y <= 180.0
    ensures y == x + 360.0 * NormalizingTurns(x) as real
  {
    AfterUp(AfterDown(x))
  }

  /** A longitude already in [-180, 180] is left unchanged. */
  lemma NormalizedLonInRange(x: real)
    requires -180.0 <= x <= 180.0
    ensures NormalizedLon(x) == x
  {
  }

  /** Normalising twice is normalising once. */
  lemma NormalizedLonIdempotent(x: real)
    ensures NormalizedLon(NormalizedLon(x)) == NormalizedLon(x)
  {
    NormalizedLonInRange(NormalizedLon(x));
  }

  /** `normalizeLongitude`: subtract turns while above 180, then add turns while
      below -180. */
  method NormalizeLongitude(x: real) returns (lon: real)
    ensures lon == NormalizedLon(x)
    ensures -180.0 <= lon <= 180.0
    ensures lon == x + 360.0 * NormalizingTurns(x) as real
  {
    lon := x;
    while lon > 180.0
      invariant AfterDown(lon) == AfterDown(x)
      decreases DownMeasure(lon)
    {
      lon := lon - 360.0;
    }
    ghost var down := lon;
    while lon < -180.0
      invariant AfterUp(lon) == AfterUp(down)
      decreases UpMeasure(lon)
    {
      lon := lon + 360.0;
    }
  }

  // ---------------------------------------------------------------------
  // Antimeridian duplication

  function Abs(x: real): real {
    if x < 0.0 then -x else x
  }

  /** A point whose normalised longitude is more than 150 degrees from Greenwich. */
  predicate NearDateline<P>(f: Feature<P>) {
    f.geometry.Point? && Abs(NormalizedLon(f.geometry.lon)) > 150.0
  }

  /** What `processGeoJSON` makes of one feature. */
  function ProcessFeature<P>(f: Feature<P>): (out: seq<Feature<P>>)
    ensures |out| == if NearDateline(f) then 2 else 1
    ensures forall k :: 0 <= k < |out| ==> out[k].properties == f.properties
    ensures f.geometry.OtherGeometry? ==> out == [f]
    ensures f.geometry.Point? ==>
              out[0].geometry == Point(NormalizedLon(f.geometry.lon), f.geometry.lat)
    ensures NearDateline(f) ==>
              out[1].geometry == Point(NormalizedLon(f.geometry.lon) + 360.0, f.geometry.lat)
  {
    match f.geometry
    case OtherGeometry(_) => [f]
    case Point(lon, lat) =>
      var n := NormalizedLon(lon);
      if Abs(n) > 150.0 then
        [Feature(Point(n, lat), f.properties), Feature(Point(n + 360.0, lat), f.properties)]
      else
        [Feature(Point(n, lat), f.properties)]
  }

  /** `processGeoJSON`: each feature's images, flattened in order. */
  function ProcessFeatures<P>(fs: seq<Feature<P>>): (out: seq<Feature<P>>)
    ensures |fs| <= |out| <= 2 * |fs|
    decreases |fs|
  {
    if |fs| == 0 then [] else ProcessFeature(fs[0]) + ProcessFeatures(fs[1..])
  }

  /** The number of near-dateline points in a collection. */
  function NearDatelineCount<P>(fs: seq<Feature<P>>): nat
    decreases |fs|
  {
    if |fs| == 0 then 0 else (if NearDateline(fs[0]) then 1 else 0) + NearDatelineCount(fs[1..])
  }

  /** The processed collection has one feature per input feature plus one per
      near-dateline point. */
  lemma {:induction false} ProcessFeaturesLength<P>(fs: seq<Feature<P>>)
    ensures |ProcessFeatures(fs)| == |fs| + NearDatelineCount(fs)
    decreases |fs|
  {
    if |fs| > 0 {
      ProcessFeaturesLength(fs[1..]);
    }
  }

  /** Processing works feature by feature: it distributes over concatenation. */
  lemma {:induction false} ProcessFeaturesAppend<P>(a: seq<Feature<P>>, b: seq<Feature<P>>)
    ensures ProcessFeatures(a + b) == ProcessFeatures(a) + ProcessFeatures(b)
    decreases |a|
  {
    if |a| == 0 {
      assert a + b == b;
    } else {
      assert (a + b)[0] == a[0];
      assert (a + b)[1..] == a[1..] + b;
      ProcessFeaturesAppend(a[1..], b);
    }
  }

  /** Every processed feature lies in [-180, 540) when it is a point, and carries
      properties of some input feature. */
  lemma {:induction false} ProcessFeaturesShape<P>(fs: seq<Feature<P>>)
    ensures forall k :: 0 <= k < |ProcessFeatures(fs)| ==>
              var g := ProcessFeatures(fs)[k];
              (g.geometry.Point? ==> -180.0 <= g.geometry.lon <= 540.0)
              && exists j :: 0 <= j < |fs| && fs[j].properties == g.properties
    decreases |fs|
  {
    if |fs| > 0 {
      ProcessFeaturesShape(fs[1..]);
      var head := ProcessFeature(fs[0]);
      var tail := ProcessFeatures(fs[1..]);
      forall k | 0 <= k < |head + tail|
        ensures var g: Feature<P> := (head + tail)[k];
                (g.geometry.Point? ==> -180.0 <= g.geometry.lon <= 540.0)
                && exists j :: 0 <= j < |fs| && fs[j].properties == g.properties
      {
        if k < |head| {
          assert (head + tail)[k] == head[k];
          assert fs[0].properties == head[k].properties;
        } else {
          assert (head + tail)[k] == tail[k - |head|];
          var j :| 0 <= j < |fs[1..]| && fs[1..][j].properties == tail[k - |head|].properties;
          assert fs[j + 1] == fs[1..][j];
        }
      }
    }
  }

  /** A buoy just west of the antimeridian is drawn at its longitude and a turn further east. */
  lemma NearDatelineExample<P>(p: P)
    ensures ProcessFeatures([Feature(Point(179.9, -17.0), p)])
            == [Feature(Point(179.9, -17.0), p), Feature(Point(539.9, -17.0), p)]
  {
    NormalizedLonInRange(179.9);
  }

  /** A longitude given in [0, 360) east of the antimeridian is first brought back into range. */
  lemma ShiftedLongitudeExample<P>(p: P)
    ensures ProcessFeatures([Feature(Point(200.0, -14.0), p)])
            == [Feature(Point(-160.0, -14.0), p), Feature(Point(200.0, -14.0), p)]
  {
    assert AfterDown(200.0) == -160.0;
    assert AfterUp(-160.0) == -160.0;
  }

  /** A point far from the antimeridian is drawn once. */
  lemma FarFromDatelineExample<P>(p: P)
    ensures ProcessFeatures([Feature(Point(120.5, 5.0), p)]) == [Feature(Point(120.5, 5.0), p)]
  {
    NormalizedLonInRange(120.5);
  }
}
