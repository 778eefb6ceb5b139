/** The workbench: the list of dataset layers the user has added, each a record
    with a dataset id, the dataset's bounding box and the `layer_information`
    the catalogue returned for it. */
module Layers {
  import opened Js

  /** The `layer_information` fields the client reads or writes. Optional
      fields that may be `null`/`undefined` are `Option`s; JSON numbers that are
      only ever rendered into strings (colour range, opacity, band count) are kept
      as their text. */
  datatype LayerInfo = LayerInfo(
    id: int,
    enabled: bool,
    enable_cog: bool,
    layer_type: string,
    url: string,
    layer_name: string,
    timeIntervalStart: string,
    timeIntervalEnd: string,
    colormin: string,
    colormax: string,
    opacity: string,
    style: string,
    is_composite: bool,
    numcolorbands: string,
    logscale: bool,
    cog_params: string,
    is_timeseries: bool,
    composite_layer_id: Option<string>,
    abovemaxcolor: string,
    belowmincolor: string,
    selectedSofarTypes: Option<seq<JsValue>>,
    zoomToLayer: bool,
    legend_url: Option<string>,
    timeIntervalStartOriginal: Option<string>,
    timeIntervalEndOriginal: Option<string>,
    interval_step: int,
    enable_get_map: bool,
    enable_chart_timeseries: bool,
    enable_chart_table: bool
  )

  /** One workbench entry: the dataset id, its bounding box and, once fetched,
      its layer information. */
  datatype Layer = Layer(
    id: int,
    south_bound_latitude: real,
    east_bound_longitude: real,
    north_bound_latitude: real,
    west_bound_longitude: real,
    info: Option<LayerInfo>
  )

  /** A geographic box as the map stores it (`{west, east, south, north}`). */
  datatype Bounds = Bounds(west: real, east: real, south: real, north: real)

  /** `l?.layer_information?.enabled`. */
  predicate IsEnabled(l: Layer) {
    l.info.Some? && l.info.value.enabled
  }

  /** The ids of the workbench layers whose information says they are enabled. */
  function EnabledIds(layers: seq<Layer>): set<int> {
    set i | 0 <= i < |layers| && IsEnabled(layers[i]) :: layers[i].info.value.id
  }
}
