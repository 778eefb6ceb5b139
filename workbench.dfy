/** Saving and clearing the workbench from the side panel. */
module Workbench {
  import opened Js
  import opened Layers
  import opened Coordinates
  import opened Storage

  const SavedKey := "savedWorkbench"

  /** The store actions the side panel dispatches. */
  datatype Action = HideSidePanel | RemoveAllMapLayers

  /** One saved entry: a layer with information is saved disabled, with its
      current time range as the original one; any other entry as it is. */
  function SavedLayer(l: Layer): (s: Layer)
    ensures l.info.None? ==> s == l
    ensures l.info.Some? ==> s.info.Some? && !s.info.value.enabled
    ensures l.info.Some? ==> s.info.value.timeIntervalStartOriginal == Some(l.info.value.timeIntervalStart)
    ensures l.info.Some? ==> s.info.value.timeIntervalEndOriginal == Some(l.info.value.timeIntervalEnd)
    ensures l.info.Some? ==> s.info.value.(enabled := l.info.value.enabled,
                                         timeIntervalStartOriginal := l.info.value.timeIntervalStartOriginal,
                                         timeIntervalEndOriginal := l.info.value.timeIntervalEndOriginal) == l.info.value
    ensures s.(info := l.info) == l
  {
    match l.info
    case None => l
    case Some(i) =>
      l.(info := Some(i.(enabled := false,
                         timeIntervalStartOriginal := Some(i.timeIntervalStart),
                         timeIntervalEndOriginal := Some(i.timeIntervalEnd))))
  }

  /** The saved layer list: entry by entry, in the same order. */
  function Snapshot(layers: seq<Layer>): (s: seq<Layer>)
    ensures |s| == |layers|
    ensures forall i :: 0 <= i < |s| ==> s[i] == SavedLayer(layers[i])
  {
    seq(|layers|, i requires 0 <= i < |layers| => SavedLayer(layers[i]))
  }

  /** Nothing in a snapshot is enabled, so restoring one draws nothing until
      the user enables a layer. */
  lemma SnapshotDisablesAll(layers: seq<Layer>)
    ensures EnabledIds(Snapshot(layers)) == {}
  {
    var s := Snapshot(layers);
    assert forall i :: 0 <= i < |s| ==> !IsEnabled(s[i]);
  }

  /** Saving twice is saving once, up to the original times, which follow the
      current ones either way. */
  lemma SnapshotIdempotent(layers: seq<Layer>)
    ensures Snapshot(Snapshot(layers)) == Snapshot(layers)
  {
  }

  /** `handleSaveWorkbench`: the snapshot and the coordinate selection are
      stored under `savedWorkbench`; `serialize` is `JSON.stringify`. */
  method SaveWorkbench(store: Store, layers: seq<Layer>, coordinates: map<string, Record>,
                       serialize: (seq<Layer>, map<string, Record>) -> string) returns (actions: seq<Action>)
    modifies store
    ensures store.entries == old(store.entries)[SavedKey := serialize(Snapshot(layers), coordinates)]
    ensures actions == [HideSidePanel]
  {
    var updated := Snapshot(layers);
    store.SetItem(SavedKey, serialize(updated, coordinates));
    actions := [HideSidePanel];
  }

  /** `handleClearWorkbench`: the saved workbench is dropped and every map
      layer removed. */
  method ClearWorkbench(store: Store) returns (actions: seq<Action>)
    modifies store
    ensures store.entries == old(store.entries) - {SavedKey}
    ensures SavedKey !in store.entries
    ensures actions == [RemoveAllMapLayers, HideSidePanel]
  {
    store.RemoveItem(SavedKey);
    actions := [RemoveAllMapLayers, HideSidePanel];
  }
}
