/** The bottom panel that shows a dataset's details: which workbench entry it
    shows, the layer type it dispatches on, the WMS tabs it offers, the tab it
    falls back to, and the drag-to-resize rule. */
module BottomPanel {
  import opened Js
  import opened Strings
  import opened Layers
  import opened DatasetLayers

  /** `layer.id === currentId || layer.layer_information?.id === currentId`. */
  predicate Selected(l: Layer, currentId: int) {
    l.id == currentId || (l.info.Some? && l.info.value.id == currentId)
  }

  /** `mapLayer.find(...)`: the first selected entry. */
  function FindSelected(layers: seq<Layer>, currentId: int): (r: Option<Layer>)
    ensures r.None? <==> forall i :: 0 <= i < |layers| ==> !Selected(layers[i], currentId)
    ensures r.Some? ==> exists i :: 0 <= i < |layers| && layers[i] == r.value && Selected(r.value, currentId)
                          && forall j :: 0 <= j < i ==> !Selected(layers[j], currentId)
    decreases |layers|
  {
    if |layers| == 0 then None
    else if Selected(layers[0], currentId) then Some(layers[0])
    else
      var r := FindSelected(layers[1..], currentId);
      assert forall i :: 1 <= i < |layers| ==> layers[i] == layers[1..][i - 1];
      r
  }

  /** The panel's layer type: the raw type with the first `_FORECAST`, then
      the first `_UGRID`, then the first `_HINDCAST` removed. */
  function PanelLayerType(layerType: string): (t: string)
    ensures |t| <= |layerType|
    ensures !Contains(layerType, "_FORECAST") && !Contains(layerType, "_UGRID") && !Contains(layerType, "_HINDCAST") ==>
      t == layerType
  {
    var a := ReplaceFirst(layerType, "_FORECAST", "");
    var b := ReplaceFirst(a, "_UGRID", "");
    ReplaceFirstErase(layerType, "_FORECAST");
    ReplaceFirstErase(a, "_UGRID");
    ReplaceFirstErase(b, "_HINDCAST");
    ReplaceFirst(b, "_HINDCAST", "")
  }

  /** The panel type is the raw type with the first `_FORECAST`, then the first
      `_UGRID` of what is left, then the first `_HINDCAST` of that cut out. */
  lemma PanelLayerTypeCutsMarkers(layerType: string)
    ensures PanelLayerType(layerType) ==
      EraseFirst(EraseFirst(EraseFirst(layerType, "_FORECAST"), "_UGRID"), "_HINDCAST")
  {
    var a := ReplaceFirst(layerType, "_FORECAST", "");
    var b := ReplaceFirst(a, "_UGRID", "");
    ReplaceFirstErases(layerType, "_FORECAST");
    ReplaceFirstErases(a, "_UGRID");
    ReplaceFirstErases(b, "_HINDCAST");
  }

  lemma WmsUnchanged()
    ensures ReplaceFirst("WMS", "_FORECAST", "") == "WMS"
    ensures ReplaceFirst("WMS", "_UGRID", "") == "WMS"
    ensures ReplaceFirst("WMS", "_HINDCAST", "") == "WMS"
  {
    NotContainsShorter("WMS", "_FORECAST");
    ReplaceFirstAbsent("WMS", "_FORECAST", "");
    NotContainsShorter("WMS", "_UGRID");
    ReplaceFirstAbsent("WMS", "_UGRID", "");
    NotContainsShorter("WMS", "_HINDCAST");
    ReplaceFirstAbsent("WMS", "_HINDCAST", "");
  }

  /** Plain, forecast, UGRID and hindcast WMS datasets all get the WMS panel. */
  lemma WmsVariantsShareThePanel()
    ensures PanelLayerType("WMS") == "WMS"
    ensures PanelLayerType("WMS_FORECAST") == "WMS"
    ensures PanelLayerType("WMS_UGRID") == "WMS"
    ensures PanelLayerType("WMS_HINDCAST") == "WMS"
  {
    WmsUnchanged();
    ForecastIsWms();
    UgridPanel();
    HindcastPanel();
  }

  lemma UgridPanel()
    ensures PanelLayerType("WMS_UGRID") == "WMS"
  {
    WmsUnchanged();
    UgridHindcastNotWms();
    StripUgrid();
  }

  lemma StripUgrid()
    ensures ReplaceFirst("WMS_UGRID", "_UGRID", "") == "WMS"
  {
    var p := "WMS";
    var pat := "_UGRID";
    assert forall i :: 0 <= i < |p| ==> p[i] != pat[0];
    ReplaceFirstAfter(p, pat);
    assert p + pat == "WMS_UGRID";
  }

  lemma HindcastPanel()
    ensures PanelLayerType("WMS_HINDCAST") == "WMS"
  {
    UgridHindcastNotWms();
    HindcastKeepsUgrid();
    StripHindcast();
  }

  lemma HindcastKeepsUgrid()
    ensures ReplaceFirst("WMS_HINDCAST", "_UGRID", "") == "WMS_HINDCAST"
  {
    SkipReplace("WMS_HINDCAST", "_UGRID", 7);
  }

  lemma StripHindcast()
    ensures ReplaceFirst("WMS_HINDCAST", "_HINDCAST", "") == "WMS"
  {
    var p := "WMS";
    var pat := "_HINDCAST";
    assert forall i :: 0 <= i < |p| ==> p[i] != pat[0];
    ReplaceFirstAfter(p, pat);
    assert p + pat == "WMS_HINDCAST";
  }

  /** The WMS tabs the flags allow, in display order; Download (`tab3`) is always there. */
  function WmsTabKeys(info: Option<LayerInfo>): (keys: seq<string>)
    ensures |keys| >= 1 && keys[|keys| - 1] == "tab3"
    ensures "tab4" in keys <==> info.Some? && info.value.enable_get_map
    ensures "tab2" in keys <==> info.Some? && info.value.enable_chart_timeseries
    ensures "tab5" in keys <==> info.Some? && info.value.enable_chart_timeseries
    ensures "tab1" in keys <==> info.Some? && info.value.enable_chart_table
    ensures info.Some? && info.value.enable_get_map ==> keys[0] == "tab4"
  {
    var getMap := if info.Some? && info.value.enable_get_map then ["tab4"] else [];
    var charts := if info.Some? && info.value.enable_chart_timeseries then ["tab2", "tab5"] else [];
    var table := if info.Some? && info.value.enable_chart_table then ["tab1"] else [];
    getMap + charts + table + ["tab3"]
  }

  /** `getAvailableWMSTabKeys`, pushing key by key. */
  method AvailableWmsTabKeys(info: Option<LayerInfo>) returns (keys: seq<string>)
    ensures keys == WmsTabKeys(info)
  {
    keys := [];
    if info.Some? && info.value.enable_get_map {
      keys := keys + ["tab4"];
    }
    if info.Some? && info.value.enable_chart_timeseries {
      keys := keys + ["tab2"];
      keys := keys + ["tab5"];
    }
    if info.Some? && info.value.enable_chart_table {
      keys := keys + ["tab1"];
    }
    keys := keys + ["tab3"];
  }

  /** What the fallback effect leaves behind: the panel's own selected tab,
      and the tab it dispatches to the shared store with `setSelectedTab`, if any. */
  datatype TabChoice = TabChoice(tab: string, dispatched: Option<string>)

  /** The fallback effect: on the WMS panel an unavailable tab becomes the
      first available one, both locally and in the shared store. */
  function TabAfterFallback(layerType: string, info: Option<LayerInfo>, selected: string): (c: TabChoice)
    ensures layerType == "WMS" ==> c.tab in WmsTabKeys(info)
    ensures selected in WmsTabKeys(info) || layerType != "WMS" ==> c.tab == selected
    ensures c.tab != selected ==> c.tab == WmsTabKeys(info)[0]
    ensures c.dispatched.Some? <==> c.tab != selected
    ensures c.dispatched.Some? ==> c.dispatched.value == c.tab
  {
    var available := WmsTabKeys(info);
    if layerType == "WMS" && |available| > 0 && selected !in available then
      TabChoice(available[0], Some(available[0]))
    else
      TabChoice(selected, None)
  }

  /** The first tab: the one restored from a shared link, otherwise Get Map. */
  function InitialTab(globalSelected: string): (t: string)
    ensures globalSelected != "" ==> t == globalSelected
    ensures globalSelected == "" ==> t == "tab4"
  {
    if globalSelected != "" then globalSelected else "tab4"
  }

  /** The panel's height and its drag gesture. */
  class Panel {
    var height: int
    var dragging: bool
    var startY: int
    var startHeight: int

    constructor ()
      ensures height == 470 && !dragging
    {
      height := 470;
      dragging := false;
      startY := 0;
      startHeight := 0;
    }

    method MouseDown(clientY: int)
      modifies this
      ensures dragging && startY == clientY && startHeight == old(height) && height == old(height)
    {
      dragging := true;
      startY := clientY;
      startHeight := height;
    }

    /** While dragging, the panel follows the cursor but never shrinks to 100 or less. */
    method MouseMove(clientY: int)
      modifies this
      ensures dragging && startHeight - (clientY - startY) > 100 ==> height == startHeight - (clientY - startY)
      ensures !(dragging && startHeight - (clientY - startY) > 100) ==> height == old(height)
      ensures old(height) > 100 ==> height > 100
      ensures dragging == old(dragging) && startY == old(startY) && startHeight == old(startHeight)
    {
      if dragging {
        var deltaY := clientY - startY;
        var newHeight := startHeight - deltaY;
        if newHeight > 100 {
          height := newHeight;
        }
      }
    }

    method MouseUp()
      modifies this
      ensures !dragging && height == old(height) && startY == old(startY) && startHeight == old(startHeight)
    {
      dragging := false;
    }
  }
}
