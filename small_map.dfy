/** The dataset preview map's "Add to Map" action: the checks before the
    layer information is fetched, the workbench record built from the answer,
    and whether the main map moves to the dataset's box. */
module SmallMap {
  import opened Js
  import opened Strings
  import opened Numbers
  import opened Layers
  import Navbar

  const NoDatasetError := "No dataset selected"
  const ExistsWarning := "*Warning: Layer exists in the workbench"

  /** A catalogue dataset as the preview knows it. */
  datatype Dataset = Dataset(
    id: int,
    south_bound_latitude: real,
    east_bound_longitude: real,
    north_bound_latitude: real,
    west_bound_longitude: real)

  /** What `handleAddToMap` does: show an error, warn that the layer is
      already there, or fetch the dataset's layer information. */
  datatype AddDecision = ShowError(message: string) | Warn(message: string) | Fetch(dataset: Dataset)

  /** `layer_workbench.some(l => String(l.id) === String(currentDataset.id))`. */
  predicate InWorkbench(workbench: seq<Layer>, d: Dataset) {
    exists i :: 0 <= i < |workbench| && IntToString(workbench[i].id) == IntToString(d.id)
  }

  /** Comparing printed ids is comparing ids. */
  lemma InWorkbenchById(workbench: seq<Layer>, d: Dataset)
    ensures InWorkbench(workbench, d) <==> exists i :: 0 <= i < |workbench| && workbench[i].id == d.id
  {
    ParseIntOfIntToString(d.id);
    forall i | 0 <= i < |workbench|
      ensures IntToString(workbench[i].id) == IntToString(d.id) <==> workbench[i].id == d.id
    {
      ParseIntOfIntToString(workbench[i].id);
    }
  }

  /** `handleAddToMap`: no dataset or a falsy id is an error, a dataset
      already in the workbench only warns, anything else is fetched. */
  function AddToMap(current: Option<Dataset>, workbench: seq<Layer>): (r: AddDecision)
    ensures r == ShowError(NoDatasetError) <==> current.None? || !TruthyId(current.value.id)
    ensures r == Warn(ExistsWarning) <==> current.Some? && TruthyId(current.value.id) && InWorkbench(workbench, current.value)
    ensures r.Fetch? <==> current.Some? && TruthyId(current.value.id) && !InWorkbench(workbench, current.value)
    ensures r.Fetch? ==> r.dataset == current.value
  {
    if current.None? || !TruthyId(current.value.id) then ShowError(NoDatasetError)
    else if InWorkbench(workbench, current.value) then Warn(ExistsWarning)
    else Fetch(current.value)
  }

  /** The answer of the layer-information request. */
  datatype Response = Response(ok: bool, data: LayerInfo)

  /** What a successful fetch dispatches, in order. */
  datatype MapAction = AddMapLayer(layer: Layer) | SetBounds(bounds: Bounds) | HideModal

  /** The layer information with the start and end times kept as the originals. */
  function WithOriginals(data: LayerInfo): (info: LayerInfo)
    ensures info.timeIntervalStartOriginal == Some(data.timeIntervalStart)
    ensures info.timeIntervalEndOriginal == Some(data.timeIntervalEnd)
    ensures info.(timeIntervalStartOriginal := data.timeIntervalStartOriginal,
                  timeIntervalEndOriginal := data.timeIntervalEndOriginal) == data
  {
    data.(timeIntervalStartOriginal := Some(data.timeIntervalStart),
          timeIntervalEndOriginal := Some(data.timeIntervalEnd))
  }

  /** The workbench record: the dataset's id and box with the fetched information. */
  function Record(d: Dataset, data: LayerInfo): (l: Layer)
    ensures l.id == d.id && l.info == Some(WithOriginals(data))
    ensures l.south_bound_latitude == d.south_bound_latitude && l.north_bound_latitude == d.north_bound_latitude
    ensures l.east_bound_longitude == d.east_bound_longitude && l.west_bound_longitude == d.west_bound_longitude
  {
    Layer(d.id, d.south_bound_latitude, d.east_bound_longitude, d.north_bound_latitude, d.west_bound_longitude,
          Some(WithOriginals(data)))
  }

  function DatasetBox(d: Dataset): (b: Bounds)
    ensures b.west == d.west_bound_longitude && b.east == d.east_bound_longitude
    ensures b.south == d.south_bound_latitude && b.north == d.north_bound_latitude
  {
    Bounds(d.west_bound_longitude, d.east_bound_longitude, d.south_bound_latitude, d.north_bound_latitude)
  }

  /** `inside`: the map has bounds and the dataset's box lies within them,
      edge by edge. */
  predicate Inside(bounds: Option<Bounds>, box: Bounds) {
    bounds.Some? && box.west >= bounds.value.west && box.east <= bounds.value.east &&
    box.south >= bounds.value.south && box.north <= bounds.value.north
  }

  /** A point, as latitude and longitude, inside a box. */
  predicate PointIn(b: Bounds, lat: real, lon: real) {
    b.south <= lat <= b.north && b.west <= lon <= b.east
  }

  /** For a box that is not empty, the edge-wise test is containment: every
      point of the box is inside the map's bounds, and no box with a point
      outside them passes. */
  lemma InsideIsContainment(bounds: Bounds, box: Bounds)
    requires box.south <= box.north && box.west <= box.east
    ensures Inside(Some(bounds), box) <==>
      forall lat, lon :: PointIn(box, lat, lon) ==> PointIn(bounds, lat, lon)
  {
    if forall lat, lon :: PointIn(box, lat, lon) ==> PointIn(bounds, lat, lon) {
      assert PointIn(box, box.south, box.west) && PointIn(box, box.north, box.east);
      assert PointIn(bounds, box.south, box.west);
      assert PointIn(bounds, box.north, box.east);
    }
  }

  /** `short_name == 1` with JavaScript's loose equality; the country's short
      name is a region id as text or a number. */
  predicate IsRegional(shortName: JsValue) {
    Navbar.NumberOf(shortName) == Some(1)
  }

  /** The loose comparison accepts the number 1, its text with white space, a
      leading zero or a `+` sign, and `true`; it rejects `null` and other text. */
  lemma LooseRegionalIds()
    ensures IsRegional(JNum(1)) && IsRegional(JStr("1")) && IsRegional(JStr(" 01 "))
    ensures IsRegional(JStr("+1")) && IsRegional(JBool(true))
    ensures !IsRegional(JNull) && !IsRegional(JUndefined) && !IsRegional(JStr("1a"))
  {
    assert Trim("1") == "1";
    assert Trim(" 01 ") == "01";
    assert DigitsValue("01") == 1;
    assert Trim("+1") == "+1" && "+1"[1..] == "1";
    var t := "1a";
    assert Trim(t) == t;
    assert !AllDigits(t) && t[0] != '+' && t[0] != '-';
  }

  /** What `fetchData` dispatches: nothing for a failed response; otherwise
      the record, the dataset's box when the whole region is selected or the
      box lies inside the current bounds, and the dialog's dismissal. */
  function FetchActions(d: Dataset, response: Response, bounds: Option<Bounds>, shortName: JsValue): (acts: seq<MapAction>)
    ensures !response.ok ==> acts == []
    ensures response.ok ==> 2 <= |acts| <= 3
    ensures response.ok ==> acts[0] == AddMapLayer(Record(d, response.data)) && acts[|acts| - 1] == HideModal
    ensures response.ok ==> (|acts| == 3 <==> IsRegional(shortName) || Inside(bounds, DatasetBox(d)))
    ensures response.ok && |acts| == 3 ==> acts[1] == SetBounds(DatasetBox(d))
  {
    if !response.ok then []
    else
      var inside := Inside(bounds, DatasetBox(d));
      [AddMapLayer(Record(d, response.data))] +
      (if IsRegional(shortName) || inside then [SetBounds(DatasetBox(d))] else []) +
      [HideModal]
  }

  /** Once its record is in the workbench, adding the same dataset again only warns. */
  lemma AddTwiceWarns(workbench: seq<Layer>, d: Dataset, data: LayerInfo)
    requires TruthyId(d.id)
    ensures AddToMap(Some(d), workbench + [Record(d, data)]) == Warn(ExistsWarning)
  {
    var w := workbench + [Record(d, data)];
    assert IntToString(w[|workbench|].id) == IntToString(d.id);
  }

  /** With the whole region selected the map always moves to the new dataset. */
  lemma RegionalAlwaysMoves(d: Dataset, data: LayerInfo, bounds: Option<Bounds>)
    ensures FetchActions(d, Response(true, data), bounds, JStr("1")) ==
      [AddMapLayer(Record(d, data)), SetBounds(DatasetBox(d)), HideModal]
    ensures FetchActions(d, Response(true, data), bounds, JNum(1)) ==
      [AddMapLayer(Record(d, data)), SetBounds(DatasetBox(d)), HideModal]
  {
    assert Trim("1") == "1";
    assert DigitsValue("1") == 1;
  }
}
