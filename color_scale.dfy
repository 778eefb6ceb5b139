/** The colour range editor of one workbench layer: the min and max inputs
    send record updates for the layer, and display the layer's own values
    until the user has typed something; the legend image is shown when the
    layer has one. */
module ColorScale {
  import opened Js
  import opened Layers

  /** The value the local input state starts with and the display treats as "not edited". */
  const Unedited := "-100"

  /** `updateMapLayer({id, updates: {layer_information}})`: the layer's whole
      information is replaced. */
  datatype LayerUpdate = LayerUpdate(id: int, info: LayerInfo)

  /** `handleChangemin`: the new minimum, and no zoom to the layer. */
  function MinUpdate(id: int, info: LayerInfo, value: string): (u: LayerUpdate)
    ensures u.id == id && u.info.colormin == value && !u.info.zoomToLayer
    ensures u.info.(colormin := info.colormin, zoomToLayer := info.zoomToLayer) == info
  {
    LayerUpdate(id, info.(colormin := value, zoomToLayer := false))
  }

  /** `handleChangemax`: only the new maximum. */
  function MaxUpdate(id: int, info: LayerInfo, value: string): (u: LayerUpdate)
    ensures u.id == id && u.info.colormax == value && u.info.zoomToLayer == info.zoomToLayer
    ensures u.info.(colormax := info.colormax) == info
  {
    LayerUpdate(id, info.(colormax := value))
  }

  /** What an input shows: the layer's own value while the local state is
      the unedited marker, the typed text otherwise. */
  function Displayed(local: string, own: string): (shown: string)
    ensures local == Unedited ==> shown == own
    ensures local != Unedited ==> shown == local
  {
    if local == Unedited then own else local
  }

  /** Once an edit has reached the layer, each input shows what was typed,
      whether or not that text happens to be the unedited marker. */
  lemma InputsShowTheEdit(id: int, info: LayerInfo, value: string)
    ensures Displayed(value, MinUpdate(id, info, value).info.colormin) == value
    ensures Displayed(value, MaxUpdate(id, info, value).info.colormax) == value
  {
  }

  /** Editing min and then max keeps both edits: the max update, made from
      the information the min update produced, keeps the new minimum and
      the cleared zoom flag. */
  lemma EditsCompose(id: int, info: LayerInfo, lo: string, hi: string)
    ensures var both := MaxUpdate(id, MinUpdate(id, info, lo).info, hi).info;
      both.colormin == lo && both.colormax == hi && !both.zoomToLayer &&
      both.(colormin := info.colormin, colormax := info.colormax, zoomToLayer := info.zoomToLayer) == info
  {
  }

  /** The legend image is shown when the layer's legend url is set, not
      empty and not the text `null`. */
  function ShowsLegend(info: LayerInfo): (shown: bool)
    ensures shown <==> info.legend_url.Some? && Truthy(JStr(info.legend_url.value)) && info.legend_url.value != "null"
  {
    info.legend_url.Some? && info.legend_url.value != "" && info.legend_url.value != "null"
  }

  /** A legend url stored as the text of a JSON `null` hides the legend like
      a missing one does. */
  lemma NullTextHidesLegend(info: LayerInfo)
    requires info.legend_url == Some("null") || info.legend_url == Some("") || info.legend_url.None?
    ensures !ShowsLegend(info)
  {
  }
}
