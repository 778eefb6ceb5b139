/** The welcome dialog: it is shown at start-up until it has been closed 500
    times or the user opts out, with the count kept in browser storage; it
    also offers the base map, whose choice is kept in storage too. */
module WelcomeModal {
  import opened Js
  import opened Numbers
  import opened Storage

  const CountKey := "modalShownCount"
  const BasemapKey := "basemap"
  const ShowLimit: int := 500
  const DefaultBasemap := "bing"

  // ---------------------------------------------------------------------------
  // The start-up count

  /** The count read at start-up: `parseInt` of the stored text, `None` for
      `NaN`; no stored count (or an empty one) counts as 0. */
  function CountAtStart(stored: Option<string>): (c: Option<int>)
    ensures stored.None? || stored.value == "" ==> c == Some(0)
    ensures stored.Some? && stored.value != "" ==> c == ParseInt(stored.value)
  {
    if stored.None? || stored.value == "" then Some(0) else ParseInt(stored.value)
  }

  /** Whether the dialog opens at start-up: always without a stored count,
      otherwise exactly when the count parses to a number below 500. */
  function ShowsAtStart(stored: Option<string>): (show: bool)
    ensures stored.None? || stored.value == "" ==> show
    ensures stored.Some? && stored.value != "" ==>
      (show <==> ParseInt(stored.value).Some? && ParseInt(stored.value).value < ShowLimit)
  {
    if stored.None? || stored.value == "" then true
    else
      var count := ParseInt(stored.value);
      count.Some? && count.value < ShowLimit
  }

  /** `String(n)` for the count, where `NaN + 1` stays `NaN`. */
  function CountText(count: Option<int>): (s: string)
    ensures count.None? ==> s == "NaN"
    ensures count.Some? ==> ParseInt(s) == count
  {
    if count.None? then "NaN"
    else
      ParseIntOfIntToString(count.value);
      IntToString(count.value)
  }

  /** A count the dialog wrote reads back as itself, and opens the dialog
      again exactly while it is below 500. */
  lemma CountReadsBack(n: int)
    ensures CountAtStart(Some(CountText(Some(n)))) == Some(n)
    ensures ShowsAtStart(Some(CountText(Some(n)))) <==> n < ShowLimit
  {
    assert CountText(Some(n)) != "" by {
      assert ParseInt(CountText(Some(n))) == Some(n);
    }
  }

  /** A count that does not parse keeps the dialog closed, and closing it
      then writes `NaN` again. */
  lemma UnparsableCountStaysClosed()
    ensures !ShowsAtStart(Some("NaN"))
    ensures CountText(None) == "NaN"
  {
    assert TrimStart("NaN") == "NaN";
    assert AfterSign("NaN") == "NaN";
  }

  // ---------------------------------------------------------------------------
  // Base maps

  datatype BasemapOption = BasemapOption(key: string, url: string, attribution: string, option: string)

  /** The base map as it is stored and dispatched: `{url, attribution, option}`. */
  datatype Basemap = Basemap(url: string, attribution: string, option: string)

  const SpcAttribution := "© Pacific Community SPC"

  const TileSuffix := "/{z}/{x}/{y}.png"
  const OpenTopoUrl := "https://{s}.tile.opentopomap.org" + TileSuffix
  const SatelliteUrl := "https://ocean-plotter.spc.int" + "/plotter/cache/basemap" + TileSuffix
  const SpcOsmUrl := "https://spc-osm.spc.int/tile" + TileSuffix

  const BasemapOptions: seq<BasemapOption> := [
    BasemapOption("osm", OpenTopoUrl, SpcAttribution, "osm"),
    BasemapOption("bing", SatelliteUrl,
      SpcAttribution + " | Tiles &copy; Esri &mdash; Source: Esri, i-cubed, USDA, USGS, AEX, GeoEye, Getmapping, Aerogrid, IGN, IGP, UPR-EGP, and the GIS User Community",
      "bing"),
    BasemapOption("spc", SpcOsmUrl, SpcAttribution, "opentopo")]

  /** `basemapOptions.find(o => o.key === key)`. */
  function FindByKey(opts: seq<BasemapOption>, key: string): (r: Option<BasemapOption>)
    ensures r.None? <==> forall i :: 0 <= i < |opts| ==> opts[i].key != key
    ensures r.Some? ==> exists i :: 0 <= i < |opts| && opts[i] == r.value && r.value.key == key &&
                                    forall j :: 0 <= j < i ==> opts[j].key != key
    decreases |opts|
  {
    if |opts| == 0 then None
    else if opts[0].key == key then Some(opts[0])
    else
      var r := FindByKey(opts[1..], key);
      assert forall i :: 1 <= i < |opts| ==> opts[1..][i - 1] == opts[i];
      r
  }

  /** `basemapOptions.find(o => o.url === url)`. */
  function FindByUrl(opts: seq<BasemapOption>, url: string): (r: Option<BasemapOption>)
    ensures r.None? <==> forall i :: 0 <= i < |opts| ==> opts[i].url != url
    ensures r.Some? ==> exists i :: 0 <= i < |opts| && opts[i] == r.value && r.value.url == url &&
                                    forall j :: 0 <= j < i ==> opts[j].url != url
    decreases |opts|
  {
    if |opts| == 0 then None
    else if opts[0].url == url then Some(opts[0])
    else
      var r := FindByUrl(opts[1..], url);
      assert forall i :: 1 <= i < |opts| ==> opts[1..][i - 1] == opts[i];
      r
  }

  function Stored(o: BasemapOption): (b: Basemap)
    ensures b.url == o.url && b.attribution == o.attribution && b.option == o.option
  {
    Basemap(o.url, o.attribution, o.option)
  }

  /** The initial base map key. `urlOf` stands for `JSON.parse(text).url`:
      `None` when the text is not JSON, is not an object or has no string
      `url`, all of which fall back to `bing` like an unknown url does. */
  function InitialBasemap(opts: seq<BasemapOption>, stored: Option<string>, urlOf: string -> Option<string>): (key: string)
    ensures key == DefaultBasemap ||
      (stored.Some? && urlOf(stored.value).Some? && FindByUrl(opts, urlOf(stored.value).value).Some? &&
       key == FindByUrl(opts, urlOf(stored.value).value).value.key)
    ensures stored.None? || stored.value == "" || urlOf(stored.value).None? ==> key == DefaultBasemap
  {
    if stored.None? || stored.value == "" then DefaultBasemap
    else
      var url := urlOf(stored.value);
      if url.None? then DefaultBasemap
      else
        var o := FindByUrl(opts, url.value);
        if o.Some? && o.value.key != "" then o.value.key else DefaultBasemap
  }

  /** The three options have distinct urls, so each is found by its own url. */
  lemma {:induction false} OptionFoundByUrl(i: int)
    requires 0 <= i < |BasemapOptions|
    ensures FindByUrl(BasemapOptions, BasemapOptions[i].url) == Some(BasemapOptions[i])
  {
    var o := BasemapOptions;
    assert o[0].url[8] == '{' && o[1].url[8] == 'o' && o[2].url[8] == 's';
  }

  /** A base map chosen in the dialog is the one it starts with next time,
      provided `urlOf` reads back the url that `serialize` wrote. */
  lemma SelectionSurvivesReload(key: string, serialize: Basemap -> string, urlOf: string -> Option<string>)
    requires FindByKey(BasemapOptions, key).Some?
    requires serialize(Stored(FindByKey(BasemapOptions, key).value)) != ""
    requires urlOf(serialize(Stored(FindByKey(BasemapOptions, key).value))) == Some(FindByKey(BasemapOptions, key).value.url)
    ensures InitialBasemap(BasemapOptions, Some(serialize(Stored(FindByKey(BasemapOptions, key).value))), urlOf) == key
  {
    var o := FindByKey(BasemapOptions, key).value;
    var i :| 0 <= i < |BasemapOptions| && BasemapOptions[i] == o;
    OptionFoundByUrl(i);
  }

  // ---------------------------------------------------------------------------
  // The dialog

  /** The dialog's state: whether it is open, the count it keeps (`None` is
      `NaN`), the check box, the selected base map and the base maps
      dispatched to the map so far. */
  class Dialog {
    var show: bool
    var timesShown: Option<int>
    var isChecked: bool
    var selectedBasemap: string
    var dispatched: seq<Basemap>

    /** Mounting: the initial base map comes from storage. */
    constructor (store: Store, urlOf: string -> Option<string>)
      ensures !show && timesShown == Some(0) && isChecked && dispatched == []
      ensures selectedBasemap == InitialBasemap(BasemapOptions, store.GetItem(BasemapKey), urlOf)
    {
      show := false;
      timesShown := Some(0);
      isChecked := true;
      selectedBasemap := InitialBasemap(BasemapOptions, store.GetItem(BasemapKey), urlOf);
      dispatched := [];
    }

    /** The start-up effect: reads the count, or stores `'0'` when there is none. */
    method CheckCount(store: Store)
      modifies this, store
      ensures var stored := old(store.GetItem(CountKey));
        timesShown == CountAtStart(stored) &&
        show == (ShowsAtStart(stored) || old(show)) &&
        store.entries == if stored.None? || stored.value == "" then old(store.entries)[CountKey := "0"] else old(store.entries)
      ensures isChecked == old(isChecked) && selectedBasemap == old(selectedBasemap) && dispatched == old(dispatched)
    {
      var stored := store.GetItem(CountKey);
      if stored.Some? && stored.value != "" {
        var count := ParseInt(stored.value);
        timesShown := count;
        if count.Some? && count.value < ShowLimit {
          show := true;
        }
      } else {
        store.SetItem(CountKey, "0");
        timesShown := Some(0);
        show := true;
      }
    }

    /** The base map effect: the selected option is stored and dispatched. */
    method ApplyBasemap(store: Store, serialize: Basemap -> string)
      modifies this, store
      ensures var o := FindByKey(BasemapOptions, selectedBasemap);
        (o.Some? ==> store.entries == old(store.entries)[BasemapKey := serialize(Stored(o.value))] &&
                     dispatched == old(dispatched) + [Stored(o.value)]) &&
        (o.None? ==> store.entries == old(store.entries) && dispatched == old(dispatched))
      ensures show == old(show) && timesShown == old(timesShown) && isChecked == old(isChecked)
      ensures selectedBasemap == old(selectedBasemap)
    {
      var o := FindByKey(BasemapOptions, selectedBasemap);
      if o.Some? {
        var b := Stored(o.value);
        store.SetItem(BasemapKey, serialize(b));
        dispatched := dispatched + [b];
      }
    }

    /** `handleBasemapChange`. */
    method SelectBasemap(key: string)
      modifies this
      ensures selectedBasemap == key
      ensures show == old(show) && timesShown == old(timesShown) && isChecked == old(isChecked)
      ensures dispatched == old(dispatched)
    {
      selectedBasemap := key;
    }

    /** `handleClose`: one more showing is counted and stored, and the dialog closes. */
    method Close(store: Store)
      modifies this, store
      ensures timesShown == if old(timesShown).Some? then Some(old(timesShown).value + 1) else None
      ensures store.entries == old(store.entries)[CountKey := CountText(timesShown)]
      ensures !show
      ensures isChecked == old(isChecked) && selectedBasemap == old(selectedBasemap) && dispatched == old(dispatched)
    {
      var newCount := if timesShown.Some? then Some(timesShown.value + 1) else None;
      timesShown := newCount;
      store.SetItem(CountKey, CountText(newCount));
      show := false;
    }

    /** `handleCheckboxChange`: unticking "show at start-up" stores 500 and
      closes the dialog; the check box takes the opposite of the box's state. */
    method CheckboxChange(store: Store, checked: bool)
      modifies this, store
      ensures isChecked == !checked
      ensures !checked ==> store.entries == old(store.entries)[CountKey := CountText(Some(ShowLimit))] &&
                           timesShown == Some(ShowLimit) && !show
      ensures checked ==> store.entries == old(store.entries) && timesShown == old(timesShown) && show == old(show)
      ensures selectedBasemap == old(selectedBasemap) && dispatched == old(dispatched)
    {
      isChecked := !checked;
      if !checked {
        store.SetItem(CountKey, CountText(Some(ShowLimit)));
        timesShown := Some(ShowLimit);
        show := false;
      }
    }
  }

  /** After opting out the dialog never opens at start-up again, and neither
      does it once the 500th close has been counted. */
  lemma OptOutIsFinal(n: int)
    requires n >= ShowLimit
    ensures !ShowsAtStart(Some(CountText(Some(ShowLimit))))
    ensures !ShowsAtStart(Some(CountText(Some(n))))
  {
    CountReadsBack(ShowLimit);
    CountReadsBack(n);
  }
}
