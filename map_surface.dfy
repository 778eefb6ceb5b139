/** The Leaflet map as the client drives it, reduced to the collection of layer
    objects currently on it. Each object carries the stamp Leaflet gives it
    when it is first added (`_leaflet_id`); the map enumerates its layers in
    ascending stamp order, which is the order of the sequence here. Objects
    carry the client's own tags: the dataset id (`_datasetId`, 0 when
    untagged), the basemap flag (`_isBasemap`) and the `options.id` /
    `options.layerId` values. The map also holds the two fields the WMS adapter
    keeps on it: the active-layer counter and the "click handler attached"
    flag. */
module MapSurface {
  import opened Js

  /** The options a WMS tile layer is created with: those the client reads
      back, and the styling ones it passes on to the server (the opacity, the
      colour range as text, the band count, the log-scale flag and, where
      given, the out-of-range colours and the background mode). */
  datatype WmsOptions = WmsOptions(
    layers: Option<string>,
    styles: Option<string>,
    format: string,
    transparent: bool,
    version: Option<string>,
    time: string,
    opacity: string,
    colorscalerange: string,
    numcolorbands: string,
    logscale: bool,
    abovemaxcolor: Option<string>,
    belowmincolor: Option<string>,
    bgcolor: Option<string>
  )

  /** What kind of Leaflet layer an object is. `DatasetGroup` is the persistent
      layer group the dataset effect fills; `ClusterGroup` a marker cluster
      group; `VectorGroup` any other feature group (GeoJSON). */
  datatype Kind =
    | WmsTile(url: Option<string>, opts: WmsOptions)
    | CogTile(cogParams: string, sourceUrl: string, variable: string, time: string)
    | PlainTile(tileUrl: string)
    | ClusterGroup
    | DatasetGroup
    | VectorGroup
    | OtherLayer

  /** A layer object, apart from its stamp and group membership. */
  datatype Renderer = Renderer(
    kind: Kind,
    datasetId: int,
    isBasemap: bool,
    optionsId: JsValue,
    optionsLayerId: JsValue
  )

  /** A layer on the map: its stamp, what it is, and whether it belongs to the dataset group. */
  datatype MapObject = MapObject(stamp: int, r: Renderer, inGroup: bool)

  /** `instanceof L.TileLayer` (WMS and COG layers are tile layers). */
  predicate IsTileLayer(k: Kind) {
    k.WmsTile? || k.CogTile? || k.PlainTile?
  }

  /** `instanceof L.LayerGroup` (cluster and feature groups are layer groups). */
  predicate IsLayerGroup(k: Kind) {
    k.ClusterGroup? || k.DatasetGroup? || k.VectorGroup?
  }

  /** `_datasetId` is truthy. */
  predicate Tagged(o: MapObject) {
    TruthyId(o.r.datasetId)
  }

  predicate StampsIncreasing(objs: seq<MapObject>) {
    forall i, j :: 0 <= i < j < |objs| ==> objs[i].stamp < objs[j].stamp
  }

  /** The renderers of a sequence of objects, in order. */
  function Renderers(objs: seq<MapObject>): (rs: seq<Renderer>)
    ensures |rs| == |objs|
    ensures forall i :: 0 <= i < |objs| ==> rs[i] == objs[i].r
  {
    seq(|objs|, i requires 0 <= i < |objs| => objs[i].r)
  }

  /** The objects whose stamp is not in `ss`, in order. */
  function Without(objs: seq<MapObject>, ss: set<int>): (r: seq<MapObject>)
    ensures |r| <= |objs|
    decreases |objs|
  {
    if |objs| == 0 then []
    else (if objs[0].stamp in ss then [] else [objs[0]]) + Without(objs[1..], ss)
  }

  /** An object survives the removal exactly when its stamp is not removed. */
  lemma {:induction false} WithoutMembers(objs: seq<MapObject>, ss: set<int>)
    ensures forall o :: o in Without(objs, ss) <==> o in objs && o.stamp !in ss
    decreases |objs|
  {
    if |objs| > 0 {
      WithoutMembers(objs[1..], ss);
      assert forall o :: o in objs <==> o == objs[0] || o in objs[1..];
    }
  }

  /** Removing by stamps keeps the stamps in order. */
  lemma {:induction false} WithoutIncreasing(objs: seq<MapObject>, ss: set<int>)
    requires StampsIncreasing(objs)
    ensures StampsIncreasing(Without(objs, ss))
    decreases |objs|
  {
    if |objs| > 0 {
      var tail := objs[1..];
      WithoutIncreasing(tail, ss);
      WithoutMembers(tail, ss);
      var rest := Without(tail, ss);
      forall o | o in rest ensures objs[0].stamp < o.stamp {
        var k :| 0 <= k < |tail| && tail[k] == o;
        assert objs[k + 1] == o;
      }
    }
  }

  /** Removing objects keeps every remaining stamp below a bound all stamps were below. */
  lemma WithoutBounded(objs: seq<MapObject>, ss: set<int>, bound: int)
    requires forall i :: 0 <= i < |objs| ==> objs[i].stamp < bound
    ensures forall i :: 0 <= i < |Without(objs, ss)| ==> Without(objs, ss)[i].stamp < bound
  {
    WithoutMembers(objs, ss);
    var r := Without(objs, ss);
    forall i | 0 <= i < |r| ensures r[i].stamp < bound {
      assert r[i] in objs;
    }
  }

  /** Removing two stamp sets one after the other removes their union. */
  lemma {:induction false} WithoutWithout(objs: seq<MapObject>, a: set<int>, b: set<int>)
    ensures Without(Without(objs, a), b) == Without(objs, a + b)
    decreases |objs|
  {
    if |objs| > 0 {
      WithoutWithout(objs[1..], a, b);
      var head := if objs[0].stamp in a then [] else [objs[0]];
      var rest := Without(objs[1..], a);
      assert Without(objs, a) == head + rest;
      WithoutAppend(head, rest, b);
      if head != [] {
        assert Without(head, b) == (if objs[0].stamp in b then [] else [objs[0]]);
      }
    }
  }

  lemma {:induction false} WithoutAppend(x: seq<MapObject>, y: seq<MapObject>, ss: set<int>)
    ensures Without(x + y, ss) == Without(x, ss) + Without(y, ss)
    decreases |x|
  {
    if |x| == 0 {
      assert x + y == y;
    } else {
      assert (x + y)[0] == x[0];
      assert (x + y)[1..] == x[1..] + y;
      WithoutAppend(x[1..], y, ss);
    }
  }

  /** Removing stamps no object has leaves the sequence unchanged. */
  lemma {:induction false} WithoutNone(objs: seq<MapObject>, ss: set<int>)
    requires forall i :: 0 <= i < |objs| ==> objs[i].stamp !in ss
    ensures Without(objs, ss) == objs
    decreases |objs|
  {
    if |objs| > 0 {
      WithoutNone(objs[1..], ss);
    }
  }

  /** The number of WMS tile layers among some objects. */
  function WmsCount(objs: seq<MapObject>): nat
    decreases |objs|
  {
    if |objs| == 0 then 0 else (if objs[0].r.kind.WmsTile? then 1 else 0) + WmsCount(objs[1..])
  }

  /** Removing one stamp from objects with distinct stamps removes at most one WMS layer. */
  lemma {:induction false} WithoutOneWms(objs: seq<MapObject>, s: int)
    requires StampsIncreasing(objs)
    ensures WmsCount(Without(objs, {s})) <= WmsCount(objs) <= WmsCount(Without(objs, {s})) + 1
    decreases |objs|
  {
    if |objs| > 0 {
      var tail := objs[1..];
      WithoutOneWms(tail, s);
      var rest := Without(tail, {s});
      if objs[0].stamp == s {
        assert forall i :: 0 <= i < |tail| ==> tail[i].stamp != s by {
          forall i | 0 <= i < |tail| ensures tail[i].stamp != s {
            assert tail[i] == objs[i + 1];
          }
        }
        WithoutNone(tail, {s});
        assert Without(objs, {s}) == rest;
      } else {
        assert Without(objs, {s}) == [objs[0]] + rest;
        assert ([objs[0]] + rest)[1..] == rest;
      }
    }
  }

  /** The objects and the WMS counter after `map.removeLayer` of the object
      with stamp `s`: the object leaves, and when it is a WMS layer its `remove`
      handler decrements the counter, floored at 0. */
  function Removal(objs: seq<MapObject>, count: nat, s: int): (r: (seq<MapObject>, nat))
    requires StampsIncreasing(objs)
    ensures r.0 == Without(objs, {s})
    ensures WmsCount(r.0) <= WmsCount(objs) <= WmsCount(r.0) + 1
    ensures r.1 == FlooredMinus(count, WmsCount(objs) - WmsCount(r.0))
  {
    WithoutOneWms(objs, s);
    var rest := Without(objs, {s});
    (rest, if WmsCount(rest) < WmsCount(objs) then Decrement(count) else count)
  }

  /** Removing the objects with the given stamps one after the other, each
      removal going through `Removal`. */
  method RemoveEach(objs0: seq<MapObject>, count0: nat, toRemove: seq<int>) returns (objs: seq<MapObject>, count: nat)
    requires StampsIncreasing(objs0)
    ensures objs == Without(objs0, Elements(toRemove))
    ensures WmsCount(objs) <= WmsCount(objs0)
    ensures count == FlooredMinus(count0, WmsCount(objs0) - WmsCount(objs))
  {
    objs, count := objs0, count0;
    WithoutNone(objs, {});
    ghost var total, w := WmsCount(objs0), WmsCount(objs0);
    var i := 0;
    while i < |toRemove|
      invariant 0 <= i <= |toRemove|
      invariant objs == Without(objs0, Elements(toRemove[..i]))
      invariant w == WmsCount(objs) && w <= total
      invariant count == FlooredMinus(count0, total - w)
    {
      WithoutIncreasing(objs0, Elements(toRemove[..i]));
      var r := Removal(objs, count, toRemove[i]);
      ghost var w' := WmsCount(r.0);
      CountStep(count0, total, w, w', count, r.1);
      WithoutPrefixStep(objs0, toRemove, i);
      objs, count, w := r.0, r.1, w';
      i := i + 1;
    }
    assert toRemove[..i] == toRemove;
  }

  /** `max(0, (n || 1) - 1)`: the adapter's decrement on layer removal. */
  function Decrement(n: nat): (r: nat)
    ensures r == if n == 0 then 0 else n - 1
  {
    var m: int := if n == 0 then 1 else n;
    FlooredMinus(m, 1)
  }

  /** `n - k`, floored at 0. */
  function FlooredMinus(n: int, k: int): nat {
    if n - k < 0 then 0 else n - k
  }

  /** The stamps listed in a sequence. */
  function Elements(s: seq<int>): (r: set<int>)
    ensures forall x :: x in r <==> x in s
    decreases |s|
  {
    if |s| == 0 then {} else Elements(s[..|s| - 1]) + {s[|s| - 1]}
  }

  /** Every object with its group membership dropped. */
  function Ungrouped(objs: seq<MapObject>): (r: seq<MapObject>)
    ensures |r| == |objs|
    ensures forall i :: 0 <= i < |objs| ==> r[i] == objs[i].(inGroup := false)
  {
    seq(|objs|, i requires 0 <= i < |objs| => objs[i].(inGroup := false))
  }

  /** The stamps of the objects satisfying `P`, in enumeration order: what an
      `eachLayer` pass pushes onto `toRemove`. */
  function StampsWhere(objs: seq<MapObject>, P: MapObject -> bool): (ss: seq<int>)
    ensures forall x :: x in ss ==> exists i :: 0 <= i < |objs| && objs[i].stamp == x && P(objs[i])
    decreases |objs|
  {
    if |objs| == 0 then []
    else
      var init := objs[..|objs| - 1];
      var last := objs[|objs| - 1];
      var r := StampsWhere(init, P);
      assert forall i :: 0 <= i < |init| ==> init[i] == objs[i];
      r + (if P(last) then [last.stamp] else [])
  }

  /** With distinct stamps, an object's stamp is collected exactly when it satisfies `P`. */
  lemma {:induction false} StampsWhereExact(objs: seq<MapObject>, P: MapObject -> bool, i: nat)
    requires StampsIncreasing(objs) && i < |objs|
    ensures objs[i].stamp in StampsWhere(objs, P) <==> P(objs[i])
    decreases |objs|
  {
    var init := objs[..|objs| - 1];
    var last := objs[|objs| - 1];
    assert StampsWhere(objs, P) == StampsWhere(init, P) + (if P(last) then [last.stamp] else []);
    if i < |objs| - 1 {
      assert init[i] == objs[i];
      StampsWhereExact(init, P, i);
      assert objs[i].stamp != last.stamp;
    } else {
      forall x | x in StampsWhere(init, P) ensures x != last.stamp {
        var k :| 0 <= k < |init| && init[k].stamp == x && P(init[k]);
        assert init[k] == objs[k];
      }
    }
  }

  /** Removing the collected stamps removes exactly the objects satisfying `P`. */
  lemma RemoveWhereMembers(objs: seq<MapObject>, P: MapObject -> bool)
    requires StampsIncreasing(objs)
    ensures forall o :: o in Without(objs, Elements(StampsWhere(objs, P))) <==> o in objs && !P(o)
  {
    var ss := Elements(StampsWhere(objs, P));
    WithoutMembers(objs, ss);
    forall o | o in objs ensures o.stamp in ss <==> P(o) {
      var i :| 0 <= i < |objs| && objs[i] == o;
      StampsWhereExact(objs, P, i);
    }
  }

  predicate InGroup(o: MapObject) {
    o.inGroup
  }

  /** The dataset group object is on the map. */
  predicate GroupOnMap(objs: seq<MapObject>) {
    exists i :: 0 <= i < |objs| && objs[i].r.kind.DatasetGroup?
  }

  /** The map after `group.clearLayers()`: when the group is on the map its
      members leave the map; in every case the group is emptied. */
  function ClearedGroup(objs: seq<MapObject>): seq<MapObject> {
    if GroupOnMap(objs) then Ungrouped(Without(objs, Elements(StampsWhere(objs, InGroup))))
    else Ungrouped(objs)
  }

  /** An `eachLayer` pass over the map's objects pushing the stamps of those
      that satisfy `P` onto a list. */
  method CollectWhere(objs: seq<MapObject>, P: MapObject -> bool) returns (toRemove: seq<int>)
    ensures toRemove == StampsWhere(objs, P)
  {
    toRemove := [];
    var i := 0;
    while i < |objs|
      invariant 0 <= i <= |objs|
      invariant toRemove == StampsWhere(objs[..i], P)
    {
      assert objs[..i + 1][..i] == objs[..i];
      if P(objs[i]) {
        toRemove := toRemove + [objs[i].stamp];
      }
      i := i + 1;
    }
    assert objs[..i] == objs;
  }

  class LeafletMap {
    var objects: seq<MapObject>
    var nextStamp: int
    /** `_activeWMSLayerCount` (undefined counts as 0). */
    var activeWmsCount: nat
    /** `_wmsFeatureInfoHandlerAttached`. */
    var handlerAttached: bool
    /** How many GetFeatureInfo click handlers are registered on the map. */
    var clickHandlers: nat
    /** The `url` argument the registered click handler closed over: that of
        the WMS layer whose addition attached it. */
    var handlerUrl: Option<string>

    ghost predicate Valid()
      reads this
    {
      StampsIncreasing(objects)
      && (forall i :: 0 <= i < |objects| ==> objects[i].stamp < nextStamp)
      && clickHandlers == (if handlerAttached then 1 else 0)
    }

    constructor ()
      ensures Valid()
      ensures objects == [] && activeWmsCount == 0 && !handlerAttached && clickHandlers == 0
      ensures handlerUrl.None?
    {
      objects := [];
      nextStamp := 1;
      activeWmsCount := 0;
      handlerAttached := false;
      clickHandlers := 0;
      handlerUrl := None;
    }

    /** `map.addLayer(layer)` for a new layer: it gets the next stamp and is enumerated last. */
    method AddLayer(r: Renderer, inGroup: bool) returns (stamp: int)
      requires Valid()
      modifies this
      ensures Valid()
      ensures stamp == old(nextStamp) && nextStamp == old(nextStamp) + 1
      ensures objects == old(objects) + [MapObject(stamp, r, inGroup)]
      ensures activeWmsCount == old(activeWmsCount) && handlerAttached == old(handlerAttached)
      ensures clickHandlers == old(clickHandlers) && handlerUrl == old(handlerUrl)
    {
      stamp := nextStamp;
      objects := objects + [MapObject(stamp, r, inGroup)];
      nextStamp := nextStamp + 1;
    }

    /** The map-side effects of `addWMSTileLayer`: the layer is added, the
        active-layer counter goes up by one, and the GetFeatureInfo click handler
        is registered only if the flag says none is yet. */
    method AddWmsTileLayer(r: Renderer, inGroup: bool) returns (stamp: int)
      requires Valid() && r.kind.WmsTile?
      modifies this
      ensures Valid()
      ensures stamp == old(nextStamp) && nextStamp == old(nextStamp) + 1
      ensures objects == old(objects) + [MapObject(stamp, r, inGroup)]
      ensures activeWmsCount == old(activeWmsCount) + 1
      ensures handlerAttached
      ensures clickHandlers == 1
      ensures handlerUrl == if old(handlerAttached) then old(handlerUrl) else r.kind.url
    {
      stamp := AddLayer(r, inGroup);
      activeWmsCount := activeWmsCount + 1;
      if !handlerAttached {
        handlerAttached := true;
        clickHandlers := clickHandlers + 1;
        handlerUrl := r.kind.url;
      }
    }

    /** `map.removeLayer(layer)` for the layer with stamp `s` (nothing when it is
        not on the map). Removing a WMS layer fires its `remove` handler, which
        decrements the counter without going below 0. The handler is never
        detached: the flag and the registration stay as they are. */
    method RemoveStamp(s: int)
      requires Valid()
      modifies this
      ensures Valid()
      ensures objects == Without(old(objects), {s})
      ensures WmsCount(objects) <= WmsCount(old(objects)) <= WmsCount(objects) + 1
      ensures activeWmsCount ==
                FlooredMinus(old(activeWmsCount), WmsCount(old(objects)) - WmsCount(objects))
      ensures nextStamp == old(nextStamp)
      ensures handlerAttached == old(handlerAttached) && clickHandlers == old(clickHandlers)
        && handlerUrl == old(handlerUrl)
    {
      WithoutIncreasing(objects, {s});
      WithoutBounded(objects, {s}, nextStamp);
      objects, activeWmsCount := Removal(objects, activeWmsCount, s).0, Removal(objects, activeWmsCount, s).1;
    }

    /** `toRemove.forEach(l => map.removeLayer(l))`. */
    method RemoveAll(toRemove: seq<int>)
      requires Valid()
      modifies this
      ensures Valid()
      ensures objects == Without(old(objects), Elements(toRemove))
      ensures activeWmsCount ==
                FlooredMinus(old(activeWmsCount), WmsCount(old(objects)) - WmsCount(objects))
      ensures WmsCount(objects) <= WmsCount(old(objects))
      ensures nextStamp == old(nextStamp)
      ensures handlerAttached == old(handlerAttached) && clickHandlers == old(clickHandlers)
        && handlerUrl == old(handlerUrl)
    {
      WithoutIncreasing(objects, Elements(toRemove));
      WithoutBounded(objects, Elements(toRemove), nextStamp);
      objects, activeWmsCount := RemoveEach(objects, activeWmsCount, toRemove);
    }

    /** Collecting the objects satisfying `P`, then removing each of them from the map. */
    method RemoveWhere(P: MapObject -> bool) returns (removed: seq<int>)
      requires Valid()
      modifies this
      ensures Valid()
      ensures removed == StampsWhere(old(objects), P)
      ensures objects == Without(old(objects), Elements(removed))
      ensures activeWmsCount ==
                FlooredMinus(old(activeWmsCount), WmsCount(old(objects)) - WmsCount(objects))
      ensures nextStamp == old(nextStamp)
      ensures handlerAttached == old(handlerAttached) && clickHandlers == old(clickHandlers)
        && handlerUrl == old(handlerUrl)
    {
      removed := StampsWhere(objects, P);
      RemoveAll(removed);
    }

    /** `group.clearLayers()` on the dataset group. */
    method ClearGroup()
      requires Valid()
      modifies this
      ensures Valid()
      ensures objects == ClearedGroup(old(objects))
      ensures activeWmsCount ==
                FlooredMinus(old(activeWmsCount), WmsCount(old(objects)) - WmsCount(objects))
      ensures nextStamp == old(nextStamp)
      ensures handlerAttached == old(handlerAttached) && clickHandlers == old(clickHandlers)
        && handlerUrl == old(handlerUrl)
    {
      ghost var o, c := objects, activeWmsCount;
      if GroupOnMap(objects) {
        var removed := RemoveWhere(InGroup);
      } else {
        assert FlooredMinus(c, WmsCount(o) - WmsCount(o)) == c;
      }
      Ungroup();
    }

    /** The group is emptied: every object on the map stops being a member. */
    method Ungroup()
      requires Valid()
      modifies this
      ensures Valid()
      ensures objects == Ungrouped(old(objects))
      ensures WmsCount(objects) == WmsCount(old(objects))
      ensures activeWmsCount == old(activeWmsCount) && nextStamp == old(nextStamp)
      ensures handlerAttached == old(handlerAttached) && clickHandlers == old(clickHandlers)
        && handlerUrl == old(handlerUrl)
    {
      UngroupedKeeps(objects, nextStamp);
      objects := Ungrouped(objects);
    }
  }

  /** Dropping group membership keeps stamps in order, below the same bound,
      and keeps the WMS count. */
  lemma UngroupedKeeps(objs: seq<MapObject>, bound: int)
    requires StampsIncreasing(objs)
    requires forall i :: 0 <= i < |objs| ==> objs[i].stamp < bound
    ensures StampsIncreasing(Ungrouped(objs))
    ensures forall i :: 0 <= i < |Ungrouped(objs)| ==> Ungrouped(objs)[i].stamp < bound
    ensures WmsCount(Ungrouped(objs)) == WmsCount(objs)
  {
    UngroupedCount(objs);
    var r := Ungrouped(objs);
    assert forall i :: 0 <= i < |r| ==> r[i].stamp == objs[i].stamp;
  }

  /** Dropping group membership changes neither stamps nor kinds. */
  lemma {:induction false} UngroupedCount(objs: seq<MapObject>)
    ensures WmsCount(Ungrouped(objs)) == WmsCount(objs)
    ensures StampsIncreasing(objs) ==> StampsIncreasing(Ungrouped(objs))
    decreases |objs|
  {
    if |objs| > 0 {
      UngroupedCount(objs[1..]);
      assert Ungrouped(objs)[1..] == Ungrouped(objs[1..]);
    }
  }

  /** Removing the stamps of a prefix and then the next stamp removes the stamps of the longer prefix. */
  lemma WithoutPrefixStep(objs: seq<MapObject>, ss: seq<int>, i: nat)
    requires i < |ss|
    ensures Without(Without(objs, Elements(ss[..i])), {ss[i]}) == Without(objs, Elements(ss[..i + 1]))
  {
    WithoutWithout(objs, Elements(ss[..i]), {ss[i]});
    assert ss[..i + 1][..i] == ss[..i];
    assert Elements(ss[..i + 1]) == Elements(ss[..i]) + {ss[i]};
  }

  /** One more removal continues the floored count of the removals so far. */
  lemma CountStep(count0: int, total: int, before: int, after: int, prev: int, now: int)
    requires after <= before <= total
    requires prev == FlooredMinus(count0, total - before) && now == FlooredMinus(prev, before - after)
    ensures now == FlooredMinus(count0, total - after)
  {
    FlooredMinusTwice(count0, total - before, before - after);
  }

  /** Flooring twice is flooring once, for non-negative decrements. */
  lemma FlooredMinusTwice(n: int, a: int, b: int)
    requires 0 <= a && 0 <= b
    ensures FlooredMinus(FlooredMinus(n, a), b) == FlooredMinus(n, a + b)
  {
  }
}
