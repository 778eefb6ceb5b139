# Pacific Ocean Portal web client — a verified model of its core

The Pacific Ocean Portal is a browser client that shows ocean datasets on a
Leaflet map. Its main pieces are:

- The explorer page. It has a workbench of dataset layers, a side bar for
  choosing a region, a data panel at the bottom, a time slider and a colour
  range editor per layer, and a dataset preview dialog.
- The document library page and the dashboard collections page.
- A navigation bar that shows the selected country's flag and keeps the
  sign-in state and theme in browser storage.

This project models the logic behind these pieces in Dafny and proves what the
code promises about it:

- **Map reconciler.** The map component keeps the Leaflet map in step with the
  workbench. It keeps one persistent dataset layer group, clears it and redraws
  one renderer per enabled layer on every change of the layer signature. It
  then purges renderers of disabled layers and, when the workbench is empty,
  everything that looks like a dataset layer. The map itself is the class
  `MapSurface.LeafletMap`, a sequence of layer objects in Leaflet's enumeration
  order, identified by stamp. The reconciler is the class
  `DatasetLayers.DatasetView`.
- **WMS adapter.** This covers the z-index, the tile retry schedule, the
  active-layer counter and the one-shot click handler. It also covers the
  choice of the queried layer, the GetFeatureInfo parameters (section 7.4 of
  the OGC WMS 1.3.0 standard calls the pixel parameters `I` and `J`; WMS 1.1.1
  calls them `X` and `Y`) and the popup.
- **Map helpers.** These are the retry schedule of guarded map operations, the
  tile-loading counter, the bounds test and the SOFAR buoy and GeoJSON feature
  transforms.
- **Component state.** The side bar, welcome dialog, slider, colour editor,
  preview dialog, bottom panel and save-workbench panel each keep their own
  state and storage effects. Components whose handlers update state in place
  are classes with `modifies` clauses. Pure computations are functions, and
  loops in the code are `while` loops with invariants.
- **Pages and the coordinate reducer.** These are the library query builder
  and search, the collections merge by id, search and restricted links, and
  the coordinate reducer.

JavaScript semantics the code relies on are spelled out in small modules:

- `Js`: truthiness, `||` and loose values.
- `Numbers`: `parseInt`, `Number`, `String` of integers.
- `Strings`: `split`, `join`, `indexOf`, `replace` of the first match, ASCII case, `trim` over the full ECMAScript white-space and line-terminator set.
- `Uri`: `encodeURIComponent`.
- `Storage`: `localStorage` as a class over a map.

The slider's `<input type="range">` is the one DOM element modelled: it holds
only step points between its minimum and maximum (`RangeSlider.Snap`), and the
slider's buttons and play timer read their next step from it.

An object with integer keys enumerates them in ascending order; the model uses
this for `dashboardsById`. `a ?? b` and `a || b` are kept apart, and loose
`==` against a number goes through `Number`.

Network requests, timers, the rest of the DOM and React rendering are not modelled. Their
results are parameters or inputs of the operations: response bodies, HTTP
statuses, the map's readiness at each retry, date parsing, JSON parsing and
serialisation, and the timestamp formatter.

## Model

| member | source | states |
|---|---|---|
| LayerSignature.SignatureFields | src/app/components/get_map.jsx:38-55 | every layer contributes the sixteen listed fields in order; a layer without information contributes empty fields and `0` flags |
| LayerSignature.LayerPartDistinguishes | src/app/components/get_map.jsx:36-57 | two layers whose signature fields differ in one position have different layer signatures |
| LayerSignature.SignatureDistinguishes | src/app/components/get_map.jsx:36-57 | replacing a layer by one with a different layer signature changes the workbench signature, so the dataset effect runs again |
| LayerSignature.Signature | src/app/components/get_map.jsx:36-57 | every layer's signature occurs in the workbench signature; that a change of one is a change of the whole is `SignatureDistinguishes` |
| LayerSignature.ColorminChangesSignature | src/app/components/get_map.jsx:49 | changing only a layer's colormin changes the signature |
| LayerSignature.StartTimeChangesSignature | src/app/components/get_map.jsx:47 | changing only a layer's start time changes the signature |
| LayerSignature.EnabledChangesSignature | src/app/components/get_map.jsx:42 | enabling or disabling a layer changes the signature |
| LayerSignature.UnlistedFieldsKeepSignature | src/app/components/get_map.jsx:38-55 | fields outside the list (zoom flag, legend, panel flags, box, ...) never change the signature |
| MapOps.ScheduleMapOp | src/app/components/get_map.jsx:91-106 | at most 15 readiness retries and 10 `_leaflet_pos` retries, with a bound on how often the operation runs; a completed run happened |
| MapOps.ReadyRunsOnce | src/app/components/get_map.jsx:100 | a usable map runs the operation once, with no timer |
| MapOps.NeverReadyDelays | src/app/components/get_map.jsx:93-95 | a map that never becomes usable re-arms exactly the timers 100+40·a for the remaining attempts and never runs the operation |
| MapOps.AlwaysPosErrorDelays | src/app/components/get_map.jsx:101-104 | an operation that always fails on `_leaflet_pos` runs 11 times from a fresh start, with timers 120·(a+1) between runs |
| MapOps.LoadingTracker.OnStart | src/app/components/get_map.jsx:245 | the count goes up; the first pending tile switches the loader on; the loader is on exactly while tiles are pending |
| MapOps.LoadingTracker.OnEnd | src/app/components/get_map.jsx:246 | the count drops but never below 0; the loader goes off at 0 |
| MapOps.LoadingTracker.OnLoadAll | src/app/components/get_map.jsx:247 | the count resets and the loader goes off |
| MapOps.BoundsDifferentTolerance | src/app/components/get_map.jsx:2114-2118 | the bounds test is symmetric, equal bounds never differ, and bounds differ exactly when some edge moved by more than 0.01 |
| MapOps.BoundsEffect | src/app/components/get_map.jsx:2105-2127 | the map is fitted exactly when it is ready, bounds are set and they differ, and then to `[[south, west], [north, east]]` |
| BuoyFeatures.Entries | src/app/components/get_map.jsx:486 | the feed's array, or the single record wrapped in one |
| BuoyFeatures.KeepTypes | src/app/components/get_map.jsx:500-503 | only entries of a selected type survive, each taken from the feed |
| BuoyFeatures.KeepTypesKeepsSelected | src/app/components/get_map.jsx:500-503 | every entry of a selected type survives the filter |
| BuoyFeatures.KeepTypesAppend | src/app/components/get_map.jsx:500-503 | the filter keeps feed order: it distributes over concatenation |
| BuoyFeatures.ShiftLongitude | src/app/components/get_map.jsx:514-517 | negative longitudes move by one turn into [0, 360); others are unchanged |
| BuoyFeatures.BuoyProps | src/app/components/get_map.jsx:526-534 | each property is the entry's own value when that is truthy, and its default (`Unknown`, `null`, `FALSE`, `""`, 100) when it is falsy; `is_active` is upper-cased text |
| BuoyFeatures.TransformToGeoJSON | src/app/components/get_map.jsx:485-538 | one point feature per selected entry, in order, never more than the feed has |
| BuoyFeatures.TransformKeepsAllWithoutSelection | src/app/components/get_map.jsx:505-508 | with no type selected every entry gives a point at its shifted longitude |
| BuoyFeatures.NormalizedLon | src/app/components/get_map.jsx:599-603 | the result lies in [-180, 180] and differs from the input by whole turns |
| BuoyFeatures.NormalizedLonIdempotent | src/app/components/get_map.jsx:599-603 | normalising twice is normalising once |
| BuoyFeatures.NormalizeLongitude | src/app/components/get_map.jsx:599-603 | the two loops return the normalised longitude, in [-180, 180], a whole number of turns from the input |
| BuoyFeatures.ProcessFeature | src/app/components/get_map.jsx:609-643 | non-points are kept as they are; a point gets its normalised longitude and, when more than 150 degrees from Greenwich, a second copy one turn east, with the same properties |
| BuoyFeatures.ProcessFeaturesLength | src/app/components/get_map.jsx:606-646 | the collection grows by exactly one feature per near-dateline point |
| BuoyFeatures.ProcessFeatures | src/app/components/get_map.jsx:606-646 | the output has at least one and at most two features per input feature; the exact count and order are `ProcessFeaturesLength` and `ProcessFeaturesShape` |
| BuoyFeatures.ProcessFeaturesAppend | src/app/components/get_map.jsx:606-646 | processing works feature by feature and keeps order |
| BuoyFeatures.ProcessFeaturesShape | src/app/components/get_map.jsx:606-646 | every output feature is the image of an input feature, in order |
| BuoyFeatures.NearDatelineExample | src/app/components/get_map.jsx:609-643 | a point at 179.9 degrees is kept and copied at 539.9 |
| BuoyFeatures.ShiftedLongitudeExample | src/app/components/get_map.jsx:609-643 | a point at 200 degrees is moved to -160 and copied one turn east, back at 200 |
| BuoyFeatures.FarFromDatelineExample | src/app/components/get_map.jsx:609-643 | a point at 120.5 degrees is kept alone |
| DatasetLayers.DateToDisplay | src/app/components/get_map.jsx:2228-2231 | time series, forecast and UGRID layers render at the start of their interval, all others at the end |
| DatasetLayers.ForecastIsWms | src/app/components/get_map.jsx:2232 | a forecast layer's base type is `WMS` |
| DatasetLayers.BaseType | src/app/components/get_map.jsx:2232 | removing `_FORECAST` never lengthens the type, and a type without it is kept; which text goes is stated by BaseTypeCutsForecast |
| DatasetLayers.BaseTypeCutsForecast | src/app/components/get_map.jsx:2232 | the base type is the type with its first `_FORECAST` cut out (`EraseFirst`, located by `indexOf`) |
| DatasetLayers.UgridHindcastNotWms | src/app/components/get_map.jsx:2232 | UGRID and hindcast types are not turned into `WMS` |
| DatasetLayers.FormatYearMonth | src/app/components/get_map.jsx:2392-2395 | an invalid date gives `NaNNaN`; the stamp has no `/` |
| DatasetLayers.FormatYearMonthReadsBack | src/app/components/get_map.jsx:2392-2395 | the stamp's last two digits read back as the month and the rest as the year |
| DatasetLayers.HindcastFilename | src/app/components/get_map.jsx:2391-2396 | the file name is first template part, stamp, last template part, and contains no `/` |
| DatasetLayers.TemplateParts | src/app/components/get_map.jsx:2391 | no parts without a template; otherwise slash-free parts that join back to the template |
| DatasetLayers.HindcastFilenameSinglePart | src/app/components/get_map.jsx:2391-2396 | a template without `/` appears on both sides of the stamp |
| DatasetLayers.HindcastUrlSegments | src/app/components/get_map.jsx:2397-2399 | the rewritten url has the same segments as the layer url except the last, which is the file name |
| DatasetLayers.HindcastUrl | src/app/components/get_map.jsx:2397-2399 | the rewritten url ends with the file name; its segments are `HindcastUrlSegments` |
| DatasetLayers.HindcastRendererUrl | src/app/components/get_map.jsx:2388-2400 | a single hindcast layer draws one WMS renderer at the rewritten url |
| DatasetLayers.HindcastRenderers | src/app/components/get_map.jsx:2388-2400 | a single enabled hindcast layer draws exactly one WMS renderer, with its name and style, at its hindcast url |
| DatasetLayers.CompositeRenderers | src/app/components/get_map.jsx:2236-2260 | at most one renderer per sub-layer name, all tagged with the dataset id, drawn at the layer's time, with the layer's opacity, `"min, max"` colour range, band count, log scale and out-of-range colours |
| DatasetLayers.WmsRenderer | src/app/components/get_map.jsx:2242-2275 | a WMS tile at the given url with the given name, style and time, the layer's styling, and tagged with the dataset id |
| DatasetLayers.CompositeSubLayers | src/app/components/get_map.jsx:2236-2260 | each renderer is the sub-layer of a non-empty name, with the style at the same index, and each non-empty name has its renderer |
| DatasetLayers.StandardOrComposite | src/app/components/get_map.jsx:2235-2278 | a non-composite layer draws exactly one renderer; all are tagged WMS renderers at the layer's time with the layer's opacity, colour range, band count and log scale, and the out-of-range colours exactly when composite |
| DatasetLayers.UgridRenderers | src/app/components/get_map.jsx:2328-2387 | a composite UGRID layer draws exactly two renderers, others one; all carry the layer's styling, out-of-range colours and the `extend` background |
| DatasetLayers.LayerRenderers | src/app/components/get_map.jsx:2225-2400 | a disabled layer draws nothing; a COG layer draws one COG tile; every renderer is a tagged tile layer and WMS ones use the display time and the layer's styling, with out-of-range colours on composite and UGRID layers and the `extend` background on UGRID ones |
| DatasetLayers.TypeEffects | src/app/components/get_map.jsx:2401-2410 | WFS, SOFAR and TIDE layers trigger their fetch, a COG layer without parameters a warning, WMS kinds nothing; at most one, for the layer's id |
| DatasetLayers.LayerEffects | src/app/components/get_map.jsx:2412-2417 | the map fits the layer's box exactly when the layer is enabled, asks to zoom and no bounds are set; other effects carry the layer's id |
| DatasetLayers.DatasetEffects | src/app/components/get_map.jsx:2217-2220 | the time control is hidden exactly when the workbench is empty |
| DatasetLayers.PlanTagged | src/app/components/get_map.jsx:2222-2422 | every drawn renderer is a tile layer tagged with the id of an enabled workbench layer, so the disabled purge never removes it |
| DatasetLayers.PlanEmptyWhenNoneEnabled | src/app/components/get_map.jsx:2222-2422 | a workbench without enabled layers draws nothing |
| DatasetLayers.PurgeDisabledMembers | src/app/components/get_map.jsx:2426-2438 | the purge removes exactly the tagged objects whose dataset is not enabled and keeps all others |
| DatasetLayers.GlobalPurgeRemovesGroup | src/app/components/get_map.jsx:2441-2457 | as written, the global purge takes the persistent dataset group off the map |
| DatasetLayers.GlobalPurgeStacksTiles | src/app/components/get_map.jsx:2206-2216 | as written, after the group is purged two later runs leave both tile copies on the map |
| DatasetLayers.GlobalPurgeMembers | src/app/components/get_map.jsx:2441-2457 | the corrected purge keeps the basemap, the static overlays and the dataset group, and removes every other tagged, tile, cluster or group layer |
| DatasetLayers.GlobalPurgeKeepsGroup | src/app/components/get_map.jsx:2441-2457 | the corrected purge leaves the dataset group on the map |
| DatasetLayers.CorrectedPurgeKeepsOneTile | src/app/components/get_map.jsx:2206-2216 | with the corrected purge the same runs leave one tile copy |
| DatasetLayers.AsWrittenPurgeUngroups | src/app/components/get_map.jsx:2441-2457 | as written, the global purge leaves no dataset group on the map |
| DatasetLayers.AsWrittenPurgeKeepsStaleTiles | src/app/components/get_map.jsx:2206-2216 | with no group on the map, two later runs leave every earlier object and the first run's tiles on the map |
| DatasetLayers.DatasetView.PurgeAllAsWritten | src/app/components/get_map.jsx:2441-2457 | as written, with an empty workbench the map loses exactly the objects the test collects, and the group ref stays set; otherwise nothing changes |
| DatasetLayers.ClearedGroupDropsMembers | src/app/components/get_map.jsx:2215 | clearing a group that is on the map takes every member off the map |
| DatasetLayers.DatasetView.PrepareGroup | src/app/components/get_map.jsx:2209-2215 | the group is created and added once, then cleared |
| DatasetLayers.DatasetView.DrawRenderers | src/app/components/get_map.jsx:2235-2278 | the renderers are added in order, each with the next stamp, all in the group |
| DatasetLayers.DatasetView.Reconcile | src/app/components/get_map.jsx:2207-2423 | the map ends as the cleared map plus the workbench plan in order, and the effects are the workbench's effects |
| DatasetLayers.DatasetView.DrawLayers | src/app/components/get_map.jsx:2222-2422 | the plan's renderers are appended in workbench order with consecutive stamps, and the effects are each layer's effects in order |
| DatasetLayers.DatasetView.PurgeDisabled | src/app/components/get_map.jsx:2426-2438 | the map loses exactly the objects the disabled test collects |
| DatasetLayers.DatasetView.PurgeAll | src/app/components/get_map.jsx:2441-2457 | with an empty workbench the map loses exactly the objects the corrected test collects; otherwise nothing changes |
| MapSurface.WithoutMembers | src/app/components/get_map.jsx:2437 | an object survives removal exactly when its stamp is not removed |
| MapSurface.RemoveWhereMembers | src/app/components/get_map.jsx:2431-2437 | removing the collected stamps removes exactly the objects the test selects |
| MapSurface.StampsWhereExact | src/app/components/get_map.jsx:2432-2436 | an object's stamp is collected exactly when it passes the test |
| MapSurface.CollectWhere | src/app/components/get_map.jsx:2431-2436 | the `eachLayer` loop collects the stamps of the objects passing the test, in order |
| MapSurface.LeafletMap.RemoveAll | src/app/components/get_map.jsx:2437 | removing a list of layers removes exactly their stamps; the WMS counter drops by the WMS layers removed, floored at 0 |
| MapSurface.LeafletMap.RemoveWhere | src/app/components/get_map.jsx:2431-2437 | the map loses exactly the collected objects |
| MapSurface.LeafletMap.ClearGroup | src/app/components/get_map.jsx:2215 | the map becomes the cleared map; counter and handler follow the WMS layers removed |
| MapSurface.LeafletMap.Ungroup | src/app/components/get_map.jsx:2215 | the group is emptied: objects, stamps, WMS count, counter and handler are otherwise unchanged |
| MapSurface.LeafletMap.AddLayer | src/app/components/addWMSTileLayer.jsx:39 | the layer is appended with the next stamp and nothing else changes |
| MapSurface.LeafletMap.AddWmsTileLayer | src/app/components/addWMSTileLayer.jsx:85-91 | the layer is added, the active-layer counter goes up by one, and exactly one click handler is registered however many layers are added; the handler keeps the url of the layer that attached it |
| MapSurface.LeafletMap.RemoveStamp | src/app/components/addWMSTileLayer.jsx:118-124 | removing a WMS layer decrements the counter, floored at 0; the click handler is never detached |
| MapSurface.Removal | src/app/components/addWMSTileLayer.jsx:118-124 | one removal drops the stamp and lowers the counter by the WMS layers it removed, floored at 0 |
| MapSurface.RemoveEach | src/app/components/get_map.jsx:2437 | removing layer after layer removes exactly their stamps, and the counter drops by the WMS layers removed, floored at 0 |
| MapSurface.Decrement | src/app/components/addWMSTileLayer.jsx:119 | `max(0, (n or 1) - 1)` is n - 1, floored at 0 |
| WmsAdapter.ZIndexAsWritten | src/app/components/addWMSTileLayer.jsx:32-34 | as written, any present `zIndex` (even a string or `undefined`) wins over the 400 default |
| WmsAdapter.ZIndexSpreadOverrides | src/app/components/addWMSTileLayer.jsx:32-34 | `"500"` and `undefined` survive the spread while the intended z-index is 400 |
| WmsAdapter.ZIndex | src/app/components/addWMSTileLayer.jsx:32 | the z-index is the number passed, otherwise 400, and always a number |
| WmsAdapter.ZIndexAgrees | src/app/components/addWMSTileLayer.jsx:32-34 | both agree whenever the key is absent or a number |
| WmsAdapter.ReloadTimes | src/app/components/addWMSTileLayer.jsx:71-79 | a retry chain from attempt a reloads 3 − a + 1 times |
| WmsAdapter.ReloadTimesSpaced | src/app/components/addWMSTileLayer.jsx:42-43 | reloads are 3000 ms apart, the first 3000 ms after the start |
| WmsAdapter.ReloadTimesFromFirst | src/app/components/addWMSTileLayer.jsx:71-79 | a fresh chain reloads at +3000, +6000 and +9000 ms |
| WmsAdapter.ReloadWritesPairs | src/app/components/addWMSTileLayer.jsx:74-75 | every reload clears `src` and then restores it |
| WmsAdapter.Tile.RetryTile | src/app/components/addWMSTileLayer.jsx:71-79 | the reload times and the `src` writes of the chain; `src` ends as the reloaded url |
| WmsAdapter.Tile.HandleTileError | src/app/components/addWMSTileLayer.jsx:45-64 | a tile whose HEAD probe returns 2xx is reloaded three times with its own `src`, 3000 ms apart; any other status leaves it alone |
| WmsAdapter.WmsLayers | src/app/components/addWMSTileLayer.jsx:93-98 | the collected layers are WMS layers of the map, in order |
| WmsAdapter.WmsLayersComplete | src/app/components/addWMSTileLayer.jsx:93-98 | every WMS layer of the map is collected |
| WmsAdapter.QueryTarget | src/app/components/addWMSTileLayer.jsx:93-110 | no target exactly when every visible WMS layer is a direction layer; otherwise the last one that is not |
| WmsAdapter.QueryUrl | src/app/components/addWMSTileLayer.jsx:112 | the target's own url when set, otherwise the url the registered click handler closed over |
| WmsAdapter.Round | src/app/components/addWMSTileLayer.jsx:141-142 | `Math.round` is within half a unit, halves rounding up |
| WmsAdapter.SetParam | src/app/components/addWMSTileLayer.jsx:148-149 | a new key goes after all existing parameters |
| WmsAdapter.QueryVersion | src/app/components/addWMSTileLayer.jsx:138 | the layer's version, otherwise `1.1.1` |
| WmsAdapter.BaseParams | src/app/components/addWMSTileLayer.jsx:132-146 | the thirteen fixed parameters, in order |
| WmsAdapter.FeatureInfoPixelNames | src/app/components/addWMSTileLayer.jsx:132-149 | the pixel goes as `i`/`j` for 1.3.0 and `x`/`y` otherwise, after the fixed parameters, which are never replaced |
| WmsAdapter.FeatureInfoDefaultVersion | src/app/components/addWMSTileLayer.jsx:138-149 | a layer without a version queries WMS 1.1.1 with `x`/`y` |
| WmsAdapter.FeatureInfoOutcome | src/app/components/addWMSTileLayer.jsx:160-179 | a failed request gives one toast, an empty body another, any other body the popup |
| WmsAdapter.PopupFor | src/app/components/addWMSTileLayer.jsx:189-201 | five cells or fewer give `Value: No Data`; otherwise cells 0 and 5, trimmed; numeric exactly when cell 5 reads as a number |
| RangeSlider.Period | src/app/components/range_slider.jsx:24 | the step is the interval in hours times 3600000 ms |
| RangeSlider.NextValue | src/app/components/range_slider.jsx:85-86 | one step on, back to the start past the end |
| RangeSlider.PreviousValue | src/app/components/range_slider.jsx:96-97 | one step back, on to the end before the start |
| RangeSlider.PlayTick | src/app/components/range_slider.jsx:55-62 | the timer stops exactly when a step would pass the end, and then holds the end |
| RangeSlider.StepsStayInRange | src/app/components/range_slider.jsx:83-102 | from inside the range both buttons stay inside it |
| RangeSlider.PlayNeverWraps | src/app/components/range_slider.jsx:55-62 | play never goes back and never passes the end |
| RangeSlider.NextUndoesPrevious | src/app/components/range_slider.jsx:83-102 | away from the start, next undoes previous |
| RangeSlider.PlayRunBounded | src/app/components/range_slider.jsx:53-68 | a run of ticks is non-decreasing, bounded by the end, and a run that stops early stops at the end |
| RangeSlider.SliderUpdate | src/app/components/range_slider.jsx:122-127 | the update sets the new start time and clears the zoom flag, and nothing else |
| RangeSlider.Snap | src/app/components/range_slider.jsx:204-215 | the value the range input keeps lies within its minimum and maximum and on a step point counted from the minimum |
| RangeSlider.SnapIsNearest | src/app/components/range_slider.jsx:204-215 | no step point in range is nearer to the written value than the one the input keeps, and on a tie it keeps the upper one |
| RangeSlider.SnapKeepsStepPoints | src/app/components/range_slider.jsx:204-215 | a step point in range is kept unchanged |
| RangeSlider.WrapLandsOnLastStep | src/app/components/range_slider.jsx:94-102 | over a range that is not a whole number of steps, the wrap to the end leaves the input on the last step point, and the next step back starts there |
| RangeSlider.Slider.constructor | src/app/components/range_slider.jsx:20-32 | mounting starts at the layer's start and dispatches it once |
| RangeSlider.Slider.Drag | src/app/components/range_slider.jsx:40-45 | the date state takes the dragged value and dispatches it, spread over the layer information of the latest render; the input holds that value snapped to its steps |
| RangeSlider.Slider.Next | src/app/components/range_slider.jsx:83-91 | the next value of what the input holds becomes the date state and is dispatched over the current layer information; the input then holds it snapped to its steps |
| RangeSlider.Slider.Previous | src/app/components/range_slider.jsx:94-102 | the previous value of what the input holds becomes the date state and is dispatched over the current layer information; the input then holds it snapped, so the wrap to the end lands on the last step point |
| RangeSlider.Slider.TogglePlay | src/app/components/range_slider.jsx:48-79 | paused starts a stored timer; playing stops and clears it; the component plays exactly while its timer fires |
| RangeSlider.Slider.Tick | src/app/components/range_slider.jsx:53-68 | one firing applies the play tick to what the input holds, dispatches it over the current layer information, stops the timer at the end, and leaves the input at the snapped value |
| RangeSlider.Slider.SetSliderValue | src/app/components/range_slider.jsx:40-45 | the date state takes the value and the effect dispatches it over the current layer information; play state is unchanged |
| RangeSlider.Slider.Rerender | src/app/components/range_slider.jsx:120-134 | a render with new layer information keeps the date state, dispatches nothing, and makes later updates spread the new information |
| ColorScale.MinUpdate | src/app/components/color_scale.jsx:32-38 | the update sets colormin and clears the zoom flag, and nothing else |
| ColorScale.MaxUpdate | src/app/components/color_scale.jsx:48-53 | the update sets only colormax |
| ColorScale.Displayed | src/app/components/color_scale.jsx:148 | an input shows the layer's value until edited, then the typed text |
| ColorScale.InputsShowTheEdit | src/app/components/color_scale.jsx:148-170 | after an edit reaches the layer, each input shows what was typed |
| ColorScale.EditsCompose | src/app/components/color_scale.jsx:22-53 | editing min then max keeps both edits and the cleared zoom flag, and nothing else changes |
| ColorScale.NullTextHidesLegend | src/app/components/color_scale.jsx:177 | a legend url that is missing, empty or the text `null` shows no legend |
| ColorScale.ShowsLegend | src/app/components/color_scale.jsx:177 | the legend shows exactly when the url is present, truthy and not the text `null` |
| SmallMap.InWorkbenchById | src/app/components/small_map.jsx:42 | comparing printed ids is comparing ids |
| SmallMap.AddToMap | src/app/components/small_map.jsx:36-50 | error exactly without a dataset or with a falsy id; warning exactly when the dataset is already in the workbench; fetch otherwise |
| SmallMap.Record | src/app/components/small_map.jsx:116-125 | the record carries the dataset's id and box and the fetched information with the original times kept |
| SmallMap.InsideIsContainment | src/app/components/small_map.jsx:132 | for a non-empty box, the edge test holds exactly when every point of the box lies within the map's bounds |
| SmallMap.FetchActions | src/app/components/small_map.jsx:111-144 | a failed response dispatches nothing; otherwise add the record, move to the box exactly when the whole region is selected or the box is inside, then close |
| SmallMap.AddTwiceWarns | src/app/components/small_map.jsx:42-46 | once its record is in the workbench, adding a dataset again only warns |
| SmallMap.RegionalAlwaysMoves | src/app/components/small_map.jsx:135 | with short name `"1"` or `1` the map always moves to the dataset |
| SmallMap.LooseRegionalIds | src/app/components/small_map.jsx:135 | `short_name == 1` holds for 1, `"1"`, `" 01 "`, `"+1"` and `true`, not for `null`, `undefined` or `"1a"` |
| Sidebar.SwipeResult | src/app/components/sidebar.jsx:72-86 | the drawer changes exactly when both coordinates are set and the finger moved more than 50 px the right way |
| Sidebar.SwipeRules | src/app/components/sidebar.jsx:72-86 | a tap, a touch at 0 and a short swipe change nothing; an up swipe never collapses and a down swipe never expands |
| Sidebar.SwipeIdempotent | src/app/components/sidebar.jsx:72-86 | repeating a swipe changes nothing more |
| Sidebar.FindRegion | src/app/components/sidebar.jsx:140 | the first region with the id, or none exactly when no region has it |
| Sidebar.FindRegionText | src/app/components/sidebar.jsx:98 | the first region whose printed id is the text, or none exactly when none matches |
| Sidebar.ChangeBounds | src/app/components/sidebar.jsx:140-150 | the region's bounds, or `null` exactly when the text does not parse or names no region |
| Sidebar.Restored | src/app/components/sidebar.jsx:95-123 | a saved non-empty choice wins when it names a region; without one, a signed-in user's country; either gives the region's id and bounds; otherwise nothing |
| Sidebar.SelectionAfterLoad | src/app/components/sidebar.jsx:88-123 | the selector first shows the store's `short_name`; a saved choice naming a region, or else a signed-in user's found country, replaces it; otherwise the user's country stays selected |
| Sidebar.WithoutSavedChoiceShowsCountry | src/app/components/sidebar.jsx:88-123 | without a saved choice the selector shows the user's country, signed in or not |
| Sidebar.FindByTextIsFindById | src/app/components/sidebar.jsx:98-140 | looking up by printed id finds the same region as looking up by number |
| Sidebar.ChoiceSurvivesReload | src/app/components/sidebar.jsx:95-152 | a region chosen in the selector is restored, with the same bounds, on the next load |
| Sidebar.SidebarState.ToggleDrawer | src/app/components/sidebar.jsx:56-58 | the drawer flips and nothing else changes |
| Sidebar.SidebarState.TouchStart | src/app/components/sidebar.jsx:63-66 | a new touch records its start and forgets the last end |
| Sidebar.SidebarState.TouchMove | src/app/components/sidebar.jsx:68-70 | the move records the end |
| Sidebar.SidebarState.TouchEnd | src/app/components/sidebar.jsx:72-86 | the drawer becomes the swipe result |
| Sidebar.SidebarState.LoadRegions | src/app/components/sidebar.jsx:88-126 | the selection becomes the load-time selection, and the restored region's name and bounds are dispatched, or nothing |
| Sidebar.SidebarState.RegionChange | src/app/components/sidebar.jsx:128-152 | stores the choice, hides the panel, names the region, announces it to signed-in users only, and dispatches the region's bounds |
| Sidebar.Width | src/app/components/sidebar.jsx:155-157 | 72 or 350 pixels, narrow exactly when collapsed |
| WelcomeModal.CountAtStart | src/app/components/welcomeModal.jsx:90-105 | no stored count is 0, otherwise `parseInt` of the text |
| WelcomeModal.ShowsAtStart | src/app/components/welcomeModal.jsx:90-105 | the dialog opens without a stored count, otherwise exactly when the count parses below 500 |
| WelcomeModal.CountText | src/app/components/welcomeModal.jsx:118-125 | a number's text parses back to it; `NaN` stays `NaN` |
| WelcomeModal.CountReadsBack | src/app/components/welcomeModal.jsx:90-125 | a written count reads back as itself and reopens the dialog exactly while below 500 |
| WelcomeModal.UnparsableCountStaysClosed | src/app/components/welcomeModal.jsx:94-124 | a `NaN` count keeps the dialog closed and is written back as `NaN` |
| WelcomeModal.OptOutIsFinal | src/app/components/welcomeModal.jsx:127-138 | after opting out the dialog no longer opens at start-up |
| WelcomeModal.FindByKey | src/app/components/welcomeModal.jsx:108-116 | the first option with the key, or none exactly when no option has it |
| WelcomeModal.FindByUrl | src/app/components/welcomeModal.jsx:75-88 | the first option with the url, or none exactly when no option has it |
| WelcomeModal.InitialBasemap | src/app/components/welcomeModal.jsx:75-88 | the stored base map's key when its url is known, otherwise `bing` |
| WelcomeModal.OptionFoundByUrl | src/app/components/welcomeModal.jsx:7-32 | the three options have distinct urls |
| WelcomeModal.SelectionSurvivesReload | src/app/components/welcomeModal.jsx:75-116 | a chosen base map is the one the dialog starts with next time |
| WelcomeModal.Dialog.constructor | src/app/components/welcomeModal.jsx:75-88 | mounting selects the stored base map, checked, closed, count 0 |
| WelcomeModal.Dialog.CheckCount | src/app/components/welcomeModal.jsx:90-105 | reads the count, stores `0` when there is none, and opens as the start-up rule says |
| WelcomeModal.Dialog.ApplyBasemap | src/app/components/welcomeModal.jsx:108-116 | the selected option is stored and dispatched |
| WelcomeModal.Dialog.SelectBasemap | src/app/components/welcomeModal.jsx:140-142 | the selection becomes the chosen key |
| WelcomeModal.Dialog.Close | src/app/components/welcomeModal.jsx:118-125 | the count goes up by one and is stored; the dialog closes |
| WelcomeModal.Dialog.CheckboxChange | src/app/components/welcomeModal.jsx:127-138 | the box flips; unchecking stores 500 and closes the dialog |
| BottomPanel.FindSelected | src/app/components/bottom_offcanvas.jsx:129-132 | the first entry selected by its own id or its information's id |
| BottomPanel.WmsVariantsShareThePanel | src/app/components/bottom_offcanvas.jsx:135-138 | plain, forecast, UGRID and hindcast WMS datasets all get the WMS panel |
| BottomPanel.PanelLayerType | src/app/components/bottom_offcanvas.jsx:135-138 | removing the markers never lengthens the type, and a type without any of the three markers is kept; which text goes is stated by PanelLayerTypeCutsMarkers |
| BottomPanel.PanelLayerTypeCutsMarkers | src/app/components/bottom_offcanvas.jsx:135-138 | the first `_FORECAST`, then the first `_UGRID` of what is left, then the first `_HINDCAST` of that are cut out (`EraseFirst`, located by `indexOf`) |
| Strings.ReplaceFirstAtIndex | src/app/components/bottom_offcanvas.jsx:135-138 | `replace` with a string pattern puts the replacement where `indexOf` first finds the pattern and keeps the text around it; an absent pattern changes nothing |
| BottomPanel.WmsTabKeys | src/app/components/bottom_offcanvas.jsx:215-225 | each tab is offered exactly when its flag is set; Download is always last; Get Map comes first when offered |
| BottomPanel.AvailableWmsTabKeys | src/app/components/bottom_offcanvas.jsx:215-225 | pushing key by key yields the tab list |
| BottomPanel.TabAfterFallback | src/app/components/bottom_offcanvas.jsx:228-237 | on the WMS panel the selected tab is always available; an available tab is kept; otherwise the first available one, which is then also dispatched to the shared store, and nothing is dispatched exactly when the tab is kept |
| BottomPanel.InitialTab | src/app/components/bottom_offcanvas.jsx:160 | the tab from a shared link, otherwise Get Map |
| BottomPanel.Panel.MouseDown | src/app/components/bottom_offcanvas.jsx:201-207 | dragging starts from the cursor and the current height |
| BottomPanel.Panel.MouseMove | src/app/components/bottom_offcanvas.jsx:185-193 | while dragging the panel follows the cursor, but never to 100 px or less |
| BottomPanel.Panel.MouseUp | src/app/components/bottom_offcanvas.jsx:195-199 | dragging stops and the height stays |
| Workbench.SavedLayer | src/app/components/side_offcanvas.jsx:22-35 | a saved layer is disabled with its times kept as originals; a layer without information is unchanged |
| Workbench.Snapshot | src/app/components/side_offcanvas.jsx:22-35 | every layer is saved, in order |
| Workbench.SnapshotDisablesAll | src/app/components/side_offcanvas.jsx:22-35 | no layer of a saved workbench is enabled |
| Workbench.SnapshotIdempotent | src/app/components/side_offcanvas.jsx:22-35 | saving a saved workbench changes nothing |
| Workbench.SaveWorkbench | src/app/components/side_offcanvas.jsx:18-44 | storage gets the serialised snapshot; the panel hides |
| Workbench.ClearWorkbench | src/app/components/side_offcanvas.jsx:46-52 | the saved workbench is removed, all layers removed, and the panel hides |
| Coordinates.Coords | src/app/GlobalRedux/Features/coordinate/mapSlice.jsx:15 | the payload without its `id`, every other field kept |
| Coordinates.SetCoordinatesState | src/app/GlobalRedux/Features/coordinate/mapSlice.jsx:14-19 | a falsy id changes nothing; otherwise the id's entry becomes the payload's other fields |
| Coordinates.Key | src/app/GlobalRedux/Features/coordinate/mapSlice.jsx:17 | the property key of an id: text as is, a number as its decimal text |
| Coordinates.LastFor | src/app/GlobalRedux/Features/coordinate/mapSlice.jsx:14-19 | the last payload with a truthy id of that key |
| Coordinates.ReplayLast | src/app/GlobalRedux/Features/coordinate/mapSlice.jsx:14-19 | after a run of updates each id holds what its last update wrote, or its old entry |
| Coordinates.CoordinateState.SetCoordinates | src/app/GlobalRedux/Features/coordinate/mapSlice.jsx:14-19 | the reducer's new state is the function above |
| Coordinates.FalsyIdsIgnored | src/app/GlobalRedux/Features/coordinate/mapSlice.jsx:16 | a payload with id 0, `null`, `undefined` or `""` changes nothing |
| Navbar.PrefixIsNotEnough | src/app/components/AppNavbar.jsx:37-40 | a link is active on its page and below it, not on a page sharing only its prefix; the root activates the explorer |
| Navbar.IsActive | src/app/components/AppNavbar.jsx:37-40 | away from the root redirect, a link is active exactly when the path starts with it at a segment boundary; a link is always active on its own page |
| Navbar.NumberOf | src/app/components/AppNavbar.jsx:148 | `Number` of a scalar: `undefined` is `NaN`, `null` 0, a boolean 0 or 1, a number itself, text as `Number` reads it |
| Navbar.CountryFlag | src/app/components/AppNavbar.jsx:147-151 | a flag only for a known country other than the region, at `/flags/<code>.png` |
| Navbar.KnownCountryHasFlag | src/app/components/AppNavbar.jsx:147-151 | every known country other than the region gets `/flags/<code>.png`, so with `CountryFlag` a flag appears exactly for those |
| Navbar.FindsEntry | src/app/components/AppNavbar.jsx:148 | the table's ids are distinct, so `find` by an entry's id returns that entry |
| Navbar.FijiFlag | src/app/components/AppNavbar.jsx:121-151 | Fiji has its flag |
| Navbar.RegionalEntryHasNoFlag | src/app/components/AppNavbar.jsx:149 | the regional entry has no flag |
| Navbar.UnknownIdHasNoFlag | src/app/components/AppNavbar.jsx:148-149 | an unknown or non-numeric id has no flag |
| Navbar.FlagSource | src/app/components/AppNavbar.jsx:154-168 | the sidebar's selection wins when present, even if falsy; else the signed-in user's country when present; else the region stored in the browser; the flag is the chosen value's flag when it is truthy, and none otherwise or when nothing is chosen |
| Navbar.EmptySelectionHidesFlag | src/app/components/AppNavbar.jsx:159-164 | an empty selection hides the flag whatever the user's country |
| Navbar.LoginEntries | src/app/components/AppNavbar.jsx:106-116 | sign-in stores `1`, and the country (twice) and token only when truthy; other keys are unchanged |
| Navbar.OnLoginSuccess | src/app/components/AppNavbar.jsx:92-118 | the storage writes above and the dispatches in order |
| Navbar.LogoutEntries | src/app/components/AppNavbar.jsx:170-180 | sign-out removes the four keys and keeps every other |
| Navbar.Logout | src/app/components/AppNavbar.jsx:170-180 | storage loses the four keys, the store signs out and the flag is cleared |
| Navbar.HydrateActions | src/app/components/AppNavbar.jsx:49-58 | the stored sign-in is restored exactly when the flag is the text `1` |
| Navbar.LoginSurvivesReload | src/app/components/AppNavbar.jsx:49-116 | a reload after signing in restores the sign-in, country and token |
| Navbar.LogoutSurvivesReload | src/app/components/AppNavbar.jsx:49-58 | a reload after signing out restores nothing |
| Navbar.InitialDark | src/app/components/AppNavbar.jsx:60-64 | light exactly when `light` is stored |
| Navbar.ApplyTheme | src/app/components/AppNavbar.jsx:79-87 | the theme is stored |
| Navbar.ThemeSurvivesReload | src/app/components/AppNavbar.jsx:60-87 | the stored theme is the one the next visit starts with |
| Library.FilteredDocumentsUrl | src/app/library/page.jsx:113-125 | no request while the type is `null`; otherwise the appended-and-trimmed url equals the active filters joined by `&` |
| Library.CutLast | src/app/library/page.jsx:125 | one trailing `&` is cut |
| Library.UnfilteredQuery | src/app/library/page.jsx:119-125 | with every filter at `All` the url ends in `?` |
| Library.QueryAfterStrip | src/app/library/page.jsx:119-125 | the appended url with its trailing `&` cut is the base, `?` and the active filters joined by `&` |
| Library.InitialDocumentsUrl | src/app/library/page.jsx:94-97 | the first type's id when there is one, otherwise no query |
| Library.FilterDocuments | src/app/library/page.jsx:140-143 | exactly the documents whose title or country contains the search, ignoring case |
| Library.FilterDocumentsAppend | src/app/library/page.jsx:140-143 | the filter distributes over concatenation, so it keeps the documents' order and repeats |
| Library.EmptyQueryKeepsAll | src/app/library/page.jsx:140-143 | an empty search shows every document |
| Library.MediaUrl | src/app/library/page.jsx:145-147 | absolute links are kept, paths go under the library host; the result is absolute |
| Library.MediaUrlIdempotent | src/app/library/page.jsx:145-147 | resolving a link twice is resolving it once |
| Collections.Assign | src/app/collections/page.jsx:88 | assigning by id keeps ids increasing; the dashboard replaces any with its id |
| Collections.MergedExact | src/app/collections/page.jsx:87-89 | the merged list holds exactly the last dashboard of each id |
| Collections.Merged | src/app/collections/page.jsx:87-89 | the merged ids are strictly increasing, as `Object.values` lists integer keys; which dashboard each id keeps is `MergedExact` |
| Collections.OnePerId | src/app/collections/page.jsx:87-89 | no two merged dashboards share an id |
| Collections.LaterListWins | src/app/collections/page.jsx:88 | on an id both lists have, the later list wins |
| Collections.MergeDashboards | src/app/collections/page.jsx:77-89 | the public list, then the country list for a signed-in user with a country, merged by id |
| Collections.CountryVersionWins | src/app/collections/page.jsx:77-89 | a country dashboard replaces the public one with its id |
| Collections.AuthHeader | src/app/collections/page.jsx:81 | a bearer header exactly when there is a token |
| Collections.FilterProjects | src/app/collections/page.jsx:100-102 | exactly the cards with a title containing the search, ignoring case |
| Collections.FilterProjectsAppend | src/app/collections/page.jsx:100-102 | the filter distributes over concatenation, so it keeps the cards' order and repeats |
| Collections.UntitledNeverFound | src/app/collections/page.jsx:101 | an untitled card is never found |
| Collections.RefCodes | src/app/collections/page.jsx:137 | only truthy codes, each one some country's code, and every truthy country code is kept |
| Collections.RefCode | src/app/collections/page.jsx:137 | the first truthy of `code`, `country_code`, else `short_code` |
| Collections.RefCodesCons | src/app/collections/page.jsx:137 | codes are kept in the countries' order: a leading country contributes its code first, when truthy |
| Collections.CountryCodes | src/app/collections/page.jsx:135-138 | the card's codes, else its countries' codes, else the user's country when a non-empty string, else none |
| Collections.RestrictedBase | src/app/collections/page.jsx:141-143 | an absolute name up to its first `?`, otherwise under the plugin host with a leading `/` dropped |
| Collections.DashboardClick | src/app/collections/page.jsx:131-149 | nothing for an empty name; a public card opens its name; a restricted one opens the base with the encoded token and codes |
| Collections.RestrictedQueryIsOurs | src/app/collections/page.jsx:139-144 | the opened url starts with the base and `?token=`, and the encoded token contains no `&` |
| Numbers.ParseInt | src/app/components/sidebar.jsx:140 | `NaN` exactly when no digit follows the optional sign after leading ECMAScript white space |
| Numbers.ParseIntOfIntToString | src/app/components/welcomeModal.jsx:94-122 | `parseInt(String(n))` is n |
| Numbers.ToNumber | src/app/components/AppNavbar.jsx:148 | `Number` of blank text is 0, of digits their value, of digits after `+` their value and after `-` its negation; `NaN` exactly for every other text |
| Uri.Encode | src/app/library/page.jsx:121-123 | `encodeURIComponent` writes only unreserved characters and `%` |
| Uri.EncodeHasNoDelimiters | src/app/collections/page.jsx:139-140 | an encoded value contains no URL delimiter |
| Strings.SplitJoin | src/app/components/get_map.jsx:2397-2399 | joining pieces without the separator and splitting gives the pieces back |
| Strings.JoinSplit | src/app/components/get_map.jsx:2397-2399 | splitting and joining gives the text back |

## Left out

- Network requests (`fetch`, jQuery AJAX, the HEAD probe, the sign-in and sign-out server actions) are left out. Their results are inputs of the operations that use them.
- Timers (`setTimeout`, `setInterval`) are unfolded. The retry schedules return their delays, and the play timer is the method `Tick`, called once per firing.
- React rendering, the DOM, styles and the presentation-only parts are left out. This covers tab contents, images, labels, the theme classes on `html`/`body`, the MutationObserver and toasts apart from their texts.
- `JSON.parse` and `JSON.stringify` are parameters (`urlOf`, `serialize`), as are date parsing (`monthOf`) and the slider's date formatter (`format`).
- GetFeatureInfo url assembly is left out: `L.Util.getParamString` and the three regular-expression rewrites at src/app/components/addWMSTileLayer.jsx:151-157 are string surgery on an opaque url.
- WmsAdapter.PopupFor: `Number(...).toFixed(2)` is modelled as a `numeric` flag, because floating-point formatting is not modelled.
- Numbers.ToNumber: only unsigned, `+`-signed or `-`-signed decimal digits (after trimming white space) are read as a number. A fraction such as `"1.5"`, an exponent such as `"1e3"`, a `0x`/`0o`/`0b` literal and `"Infinity"` are `NaN` here, so `short_name == 1` and the popup's numeric test are exact only for such integer text.
- Numbers.ParseInt: a `0x` prefix, which `parseInt` without a radix reads as hexadecimal, is not modelled. The selector's option values are printed decimal region ids, so that input never reaches `handleRegionChange`.
- RangeSlider.Period: `interval_step` is an integer; `parseInt` of other text is not covered.
- Timestamps and coordinates are unbounded integers and reals. IEEE double rounding is not modelled.
- BuoyFeatures.NormalizeLongitude: on reals both loops always end. On doubles they do not end for an infinite longitude, or for one so large (at least 2^62 in magnitude) that subtracting 360 rounds back to the same value; such inputs are not modelled.
- Strings.Lower and Strings.Upper: case folding is ASCII only.
- Uri.Encode: Dafny characters are Unicode scalar values, so the `URIError` that JavaScript raises for a lone surrogate does not arise.
- The map component's initialisation-time duplicate of the dataset loop (src/app/components/get_map.jsx:1519-2019) and its `eachLayer` pass that changes nothing (1484-1501) are left out. The model covers the dataset effect that replaced them (2205-2423).
- The COG tile layer (`addCogTileLayer.js`) is not part of this model. A COG renderer is an opaque tile layer.
- The GeoJSON, SOFAR and TIDE fetch handlers are effects named by the model. Their cluster drawing is left out.
- The `updateMapLayer`, `addMapLayer` and other reducers of the map slice are not part of this model. The components' updates are returned as values (`ColorScale.LayerUpdate`, `RangeSlider.SliderUpdate`, `SmallMap.MapAction`).
- The preview map's bounding-box rectangle (src/app/components/small_map.jsx:82-104) only draws and is left out.
- The side bar's region list is compared as the same list on reload. Its `localeCompare` sorting is left out.
- `session.ts`, the login action and the image proxy route are context files and are not modelled.
- The bottom panel syncing its local tab from the global tab (src/app/components/bottom_offcanvas.jsx:163-167) is left out. Only the initial tab and the fallback, with the tab it dispatches to the shared store, are modelled.

## Findings

| source | as written | input that shows it | evidently intended | confidence | as-written member | corrected member |
|---|---|---|---|---|---|---|
| src/app/components/get_map.jsx:2441-2457 | with an empty workbench, the purge removes every `L.LayerGroup`, including the persistent dataset group; the group ref stays set, so the group is never added back, and later `clearLayers` calls no longer take its tiles off the map (WMS tiles are added to the map directly, src/app/components/addWMSTileLayer.jsx:39) | empty the workbench; add one WMS layer; change its colour range: the first copy of the layer stays under the redrawn one | the purge spares the dataset group, so each redraw replaces the previous tiles | not executed | DatasetLayers.DatasetView.PurgeAllAsWritten, DatasetLayers.AsWrittenPurgeKeepsStaleTiles | DatasetLayers.DatasetView.PurgeAll, DatasetLayers.CorrectedPurgeKeepsOneTile |
| src/app/components/addWMSTileLayer.jsx:32-34 | the `typeof zIndex === 'number' ? zIndex : 400` default is followed by `...options`, which puts back any `zIndex` key the caller passed | `options.zIndex` = `"500"` or `undefined` | a z-index that is not a number falls back to 400 | not executed | WmsAdapter.ZIndexAsWritten | WmsAdapter.ZIndex |
