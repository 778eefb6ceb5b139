/** The explorer's side bar: the mobile drawer with its swipe gesture, the
    region selector that persists the choice and moves the map, and the
    width of the bar. */
module Sidebar {
  import opened Js
  import opened Numbers
  import opened Layers
  import opened Storage
  import Navbar

  // ---------------------------------------------------------------------------
  // The mobile drawer

  const MinSwipeDistance: real := 50.0

  /** A touch coordinate as the component keeps it: `null` before any touch.
      Like every JavaScript number, `0` is falsy. */
  predicate TouchSet(y: Option<real>) {
    y.Some? && y.value != 0.0
  }

  /** `onTouchEnd`: the drawer's new expanded flag. A swipe counts only when
      both coordinates are set; it expands a collapsed drawer when the finger
      went up by more than 50 pixels and collapses an expanded one when it went
      down by more than 50. */
  function SwipeResult(touchStart: Option<real>, touchEnd: Option<real>, expanded: bool): (r: bool)
    ensures r != expanded <==>
      TouchSet(touchStart) && TouchSet(touchEnd) &&
      (if expanded then touchStart.value - touchEnd.value < -MinSwipeDistance
       else touchStart.value - touchEnd.value > MinSwipeDistance)
  {
    if !TouchSet(touchStart) || !TouchSet(touchEnd) then expanded
    else
      var distance := touchStart.value - touchEnd.value;
      if distance > MinSwipeDistance && !expanded then true
      else if distance < -MinSwipeDistance && expanded then false
      else expanded
  }

  /** A tap (a touch without a move), a touch at coordinate 0 and a short
      swipe leave the drawer as it is; an upward swipe never collapses it and a
      downward one never expands it. */
  lemma SwipeRules(touchStart: Option<real>, touchEnd: Option<real>, expanded: bool)
    ensures SwipeResult(touchStart, None, expanded) == expanded
    ensures SwipeResult(Some(0.0), touchEnd, expanded) == expanded
    ensures TouchSet(touchStart) && TouchSet(touchEnd) &&
            -MinSwipeDistance <= touchStart.value - touchEnd.value <= MinSwipeDistance ==>
            SwipeResult(touchStart, touchEnd, expanded) == expanded
    ensures TouchSet(touchStart) && TouchSet(touchEnd) && touchStart.value > touchEnd.value ==>
            (expanded ==> SwipeResult(touchStart, touchEnd, expanded))
    ensures TouchSet(touchStart) && TouchSet(touchEnd) && touchStart.value < touchEnd.value ==>
            (!expanded ==> !SwipeResult(touchStart, touchEnd, expanded))
  {
  }

  /** Repeating the same swipe changes nothing more. */
  lemma SwipeIdempotent(touchStart: Option<real>, touchEnd: Option<real>, expanded: bool)
    ensures var once := SwipeResult(touchStart, touchEnd, expanded);
      SwipeResult(touchStart, touchEnd, once) == once
  {
  }

  // ---------------------------------------------------------------------------
  // Regions

  /** A region as the country endpoint returns it. */
  datatype Region = Region(
    id: int,
    west_bound_longitude: real,
    east_bound_longitude: real,
    south_bound_latitude: real,
    north_bound_latitude: real)

  /** The bounds a region moves the map to. */
  function RegionBounds(r: Region): (b: Bounds)
    ensures b.west == r.west_bound_longitude && b.east == r.east_bound_longitude
    ensures b.south == r.south_bound_latitude && b.north == r.north_bound_latitude
  {
    Bounds(r.west_bound_longitude, r.east_bound_longitude, r.south_bound_latitude, r.north_bound_latitude)
  }

  /** `regions.find(r => r.id === n)`: the first region with that id. */
  function FindRegion(regions: seq<Region>, n: int): (r: Option<Region>)
    ensures r.None? <==> forall i :: 0 <= i < |regions| ==> regions[i].id != n
    ensures r.Some? ==> exists i :: 0 <= i < |regions| && regions[i] == r.value && r.value.id == n &&
                                    forall j :: 0 <= j < i ==> regions[j].id != n
    decreases |regions|
  {
    if |regions| == 0 then None
    else if regions[0].id == n then Some(regions[0])
    else
      var r := FindRegion(regions[1..], n);
      assert forall i :: 1 <= i < |regions| ==> regions[1..][i - 1] == regions[i];
      r
  }

  /** `data.find(r => r.id.toString() === s)`: the first region whose id
      prints as `s`. */
  function FindRegionText(regions: seq<Region>, s: string): (r: Option<Region>)
    ensures r.None? <==> forall i :: 0 <= i < |regions| ==> IntToString(regions[i].id) != s
    ensures r.Some? ==> exists i :: 0 <= i < |regions| && regions[i] == r.value && IntToString(r.value.id) == s &&
                                    forall j :: 0 <= j < i ==> IntToString(regions[j].id) != s
    decreases |regions|
  {
    if |regions| == 0 then None
    else if IntToString(regions[0].id) == s then Some(regions[0])
    else
      var r := FindRegionText(regions[1..], s);
      assert forall i :: 1 <= i < |regions| ==> regions[1..][i - 1] == regions[i];
      r
  }

  /** The bounds a region change dispatches: the region's box, or `null` when
      `parseInt(regionId)` names no region (including `NaN`). */
  function ChangeBounds(regions: seq<Region>, regionId: string): (b: Option<Bounds>)
    ensures b.None? <==> ParseInt(regionId).None? || FindRegion(regions, ParseInt(regionId).value).None?
    ensures b.Some? ==> b == Some(RegionBounds(FindRegion(regions, ParseInt(regionId).value).value))
  {
    var n := ParseInt(regionId);
    if n.None? then None
    else
      var r := FindRegion(regions, n.value);
      if r.None? then None else Some(RegionBounds(r.value))
  }

  /** What `handleRegionChange` dispatches, in order. */
  datatype SidebarAction = HideOffCanvas | SetShortName(name: string) | SetBounds(bounds: Option<Bounds>)

  /** The selection restored by the region list's load effect: a non-empty
      saved choice naming a region by its printed id wins; with no saved
      choice, a signed-in user's country. The result is the selected id and
      the bounds to move to. */
  function Restored(data: seq<Region>, saved: Option<string>, loggedIn: bool, countryIdx: JsValue): (r: Option<(string, Bounds)>)
    ensures saved.Some? && saved.value != "" ==>
      (r.Some? <==> FindRegionText(data, saved.value).Some?) &&
      (r.Some? ==> r.value == (saved.value, RegionBounds(FindRegionText(data, saved.value).value)))
    ensures (saved.None? || saved.value == "") && !loggedIn ==> r.None?
    ensures (saved.None? || saved.value == "") && loggedIn ==>
      (r.Some? <==> FindRegionText(data, ToJsString(countryIdx)).Some?) &&
      (r.Some? ==> r.value.0 == IntToString(FindRegionText(data, ToJsString(countryIdx)).value.id)
                   && r.value.1 == RegionBounds(FindRegionText(data, ToJsString(countryIdx)).value))
  {
    if saved.Some? && saved.value != "" then
      var e := FindRegionText(data, saved.value);
      if e.Some? then Some((saved.value, RegionBounds(e.value))) else None
    else if loggedIn then
      var e := FindRegionText(data, ToJsString(countryIdx));
      if e.Some? then Some((IntToString(e.value.id), RegionBounds(e.value))) else None
    else None
  }

  /** What the selector shows once the load effect has run: it first selects
      the store's `short_name` (`country_idx`), before the fetch, and only a
      restored selection replaces it. */
  function SelectionAfterLoad(data: seq<Region>, saved: Option<string>, loggedIn: bool, countryIdx: JsValue): (sel: JsValue)
    ensures saved.Some? && saved.value != "" ==>
      sel == (if FindRegionText(data, saved.value).Some? then JStr(saved.value) else countryIdx)
    ensures (saved.None? || saved.value == "") && !loggedIn ==> sel == countryIdx
    ensures (saved.None? || saved.value == "") && loggedIn ==>
      sel == (if FindRegionText(data, ToJsString(countryIdx)).Some?
              then JStr(IntToString(FindRegionText(data, ToJsString(countryIdx)).value.id))
              else countryIdx)
  {
    var r := Restored(data, saved, loggedIn, countryIdx);
    if r.Some? then JStr(r.value.0) else countryIdx
  }

  /** Without a saved choice the selector shows the user's own country
      whether or not they are signed in: the restore, when it happens, selects
      the region whose printed id is that country's text. */
  lemma WithoutSavedChoiceShowsCountry(data: seq<Region>, saved: Option<string>, loggedIn: bool, countryIdx: JsValue)
    requires saved.None? || saved.value == ""
    ensures ToJsString(SelectionAfterLoad(data, saved, loggedIn, countryIdx)) == ToJsString(countryIdx)
  {
    if loggedIn {
      var e := FindRegionText(data, ToJsString(countryIdx));
      if e.Some? {
        assert IntToString(e.value.id) == ToJsString(countryIdx);
      }
    }
  }

  /** Looking a region up by its printed id finds the same region as looking
      it up by the number. */
  lemma {:induction false} FindByTextIsFindById(regions: seq<Region>, n: int)
    ensures FindRegionText(regions, IntToString(n)) == FindRegion(regions, n)
    decreases |regions|
  {
    if |regions| > 0 {
      ParseIntOfIntToString(n);
      ParseIntOfIntToString(regions[0].id);
      assert IntToString(regions[0].id) == IntToString(n) <==> regions[0].id == n;
      FindByTextIsFindById(regions[1..], n);
    }
  }

  /** A region chosen in the selector is the one restored, with the same
      bounds, when the page is loaded again with the same region list. */
  lemma ChoiceSurvivesReload(regions: seq<Region>, n: int, loggedIn: bool, countryIdx: JsValue)
    requires FindRegion(regions, n).Some?
    ensures var regionId := IntToString(n);
      ChangeBounds(regions, regionId).Some? &&
      Restored(regions, Some(regionId), loggedIn, countryIdx) == Some((regionId, ChangeBounds(regions, regionId).value))
  {
    ParseIntOfIntToString(n);
    FindByTextIsFindById(regions, n);
  }

  /** The side bar's own state: the selected region, the drawer and the
      coordinates of the touch in progress. */
  class SidebarState {
    var selectedRegion: JsValue
    var expanded: bool
    var touchStart: Option<real>
    var touchEnd: Option<real>

    constructor ()
      ensures selectedRegion == JStr("1") && !expanded && touchStart.None? && touchEnd.None?
    {
      selectedRegion := JStr("1");
      expanded := false;
      touchStart := None;
      touchEnd := None;
    }

    /** `toggleMobileDrawer`. */
    method ToggleDrawer()
      modifies this
      ensures expanded == !old(expanded)
      ensures selectedRegion == old(selectedRegion) && touchStart == old(touchStart) && touchEnd == old(touchEnd)
    {
      expanded := !expanded;
    }

    /** `onTouchStart`: a new touch forgets where the last one ended. */
    method TouchStart(y: real)
      modifies this
      ensures touchStart == Some(y) && touchEnd.None?
      ensures selectedRegion == old(selectedRegion) && expanded == old(expanded)
    {
      touchEnd := None;
      touchStart := Some(y);
    }

    /** `onTouchMove`. */
    method TouchMove(y: real)
      modifies this
      ensures touchEnd == Some(y)
      ensures selectedRegion == old(selectedRegion) && expanded == old(expanded) && touchStart == old(touchStart)
    {
      touchEnd := Some(y);
    }

    /** `onTouchEnd`. */
    method TouchEnd()
      modifies this
      ensures expanded == SwipeResult(touchStart, touchEnd, old(expanded))
      ensures selectedRegion == old(selectedRegion) && touchStart == old(touchStart) && touchEnd == old(touchEnd)
    {
      if !TouchSet(touchStart) || !TouchSet(touchEnd) {
        return;
      }
      var distance := touchStart.value - touchEnd.value;
      var isUpSwipe := distance > MinSwipeDistance;
      var isDownSwipe := distance < -MinSwipeDistance;
      if isUpSwipe && !expanded {
        expanded := true;
      } else if isDownSwipe && expanded {
        expanded := false;
      }
    }

    /** The load effect: selects `country_idx`, then, once the region list
      has arrived, selects, names and moves to the restored region. */
    method LoadRegions(data: seq<Region>, saved: Option<string>, loggedIn: bool, countryIdx: JsValue)
      returns (actions: seq<SidebarAction>)
      modifies this
      ensures selectedRegion == SelectionAfterLoad(data, saved, loggedIn, countryIdx)
      ensures var r := Restored(data, saved, loggedIn, countryIdx);
        actions == if r.Some? then [SetShortName(r.value.0), SetBounds(Some(r.value.1))] else []
      ensures expanded == old(expanded) && touchStart == old(touchStart) && touchEnd == old(touchEnd)
    {
      selectedRegion := countryIdx;
      actions := [];
      var r := Restored(data, saved, loggedIn, countryIdx);
      if r.Some? {
        selectedRegion := JStr(r.value.0);
        actions := [SetShortName(r.value.0), SetBounds(Some(r.value.1))];
      }
    }

    /** `handleRegionChange`: hides the data panel, persists the choice for
      every user, names the region, announces it to a signed-in user's
      listeners and moves the map to the region or clears the bounds. */
    method RegionChange(store: Store, regions: seq<Region>, regionId: string, loggedIn: bool)
      returns (actions: seq<SidebarAction>, announced: Option<string>)
      modifies this, store
      ensures selectedRegion == JStr(regionId)
      ensures store.entries == old(store.entries)[Navbar.RegionKey := regionId]
      ensures actions == [HideOffCanvas, SetShortName(regionId), SetBounds(ChangeBounds(regions, regionId))]
      ensures announced == if loggedIn then Some(regionId) else None
      ensures expanded == old(expanded) && touchStart == old(touchStart) && touchEnd == old(touchEnd)
    {
      actions := [HideOffCanvas];
      selectedRegion := JStr(regionId);
      store.SetItem(Navbar.RegionKey, regionId);
      actions := actions + [SetShortName(regionId)];
      announced := if loggedIn then Some(regionId) else None;
      var n := ParseInt(regionId);
      var region := if n.None? then None else FindRegion(regions, n.value);
      if region.Some? {
        actions := actions + [SetBounds(Some(RegionBounds(region.value)))];
      } else {
        actions := actions + [SetBounds(None)];
      }
    }
  }

  // ---------------------------------------------------------------------------
  // Width

  const ExpandedWidth: int := 350
  const CollapsedWidth: int := 72

  /** The bar's width in pixels: narrow exactly when collapsed. */
  function Width(collapsed: bool): (w: int)
    ensures w == CollapsedWidth || w == ExpandedWidth
    ensures collapsed <==> w < ExpandedWidth
  {
    if collapsed then CollapsedWidth else ExpandedWidth
  }
}
