# Cut gizmo connector bookkeeping

This project models the connector-editing core of the slicer's cut gizmo
(`GLGizmoCut3D`). A user places cylindrical or prism pegs ("connectors") on
the cut plane so the two cut halves can be reassembled. The model covers:

- the connector list;
- the selection mask parallel to it, and the selection counter kept beside it;
- the "current connector settings": depth ratio, size, the two tolerances, type, style and shape.

It also covers the operations that change this state:

- adding a connector, and deleting the selected ones;
- selecting all, none, one, by click with Shift/Alt, or by selection rectangle;
- writing a changed setting into the selected connectors;
- normalising undefined settings to their defaults;
- folding the selected connectors' values into one "common or undefined" value per setting;
- the connector part of the gizmo's event handler.

Three small pure pieces are included too:

- whether a cut can be performed;
- how many contour points each connector shape is sampled with;
- the test that refuses to open the gizmo on an object that is itself a single dowel.

Files and modules:

- `connectors.dfy` (`Connectors`): the connector and settings records, their validation, new-connector construction, the per-connector updates the setting widgets perform, and the shape-to-sector-count mapping.
- `masks.dfy` (`SelectionMask`): the mask as a sequence of flags. `Kept` gives the unflagged entries and `Picked` the flagged ones. It also holds lemmas about removal order, length and partition.
- `merge.dfy` (`SettingsMerge`): `MergedSettings`, the declarative meaning of the settings window's merge loop. It also holds the round-trip lemmas: what a slider writes is what the window shows back.
- `gizmo.dfy` (`CutGizmo`): the class `GizmoCut3D`, whose fields the methods update in place. The deletion, rectangle, apply and merge loops are written as loops with invariants.
- `activation.dfy` (`Activation`): the dowel-object count and the activation test.

Inputs the gizmo gets from its host become parameters:

- the hovered grabber or connector id;
- where the mouse ray hits the cut plane (`Option<Vec3>`, `None` when unprojection fails);
- which connectors the selection rectangle contains;
- whether a drawn cut line is long enough, and the rotation it yields;
- whether the object clipper has a valid contour.

Floats are modelled as reals. The source's approximate comparison `is_approx`
is modelled as `Approx`: a difference below 1e-4 in absolute value. That
helper and its default precision come from libslic3r, which is not part of
this model. `UndefFloat` is the source's -999.

## Model

| member | source | states |
|---|---|---|
| `Connectors.Validated` | src/slic3r/GUI/Gizmos/GLGizmoCut.cpp:1730-1747 | After validation no numeric setting is negative and no attribute is Undef. A negative field becomes its default (3, 0.1, 2.5, 0) and an Undef attribute becomes Plug, Prizm or Circle. A valid field is kept, and already-valid settings are returned unchanged. |
| `Connectors.ValidatedIdempotent` | src/slic3r/GUI/Gizmos/GLGizmoCut.cpp:1730-1747 | Validating twice is validating once. |
| `Connectors.NewConnectorFromValidated` | src/slic3r/GUI/Gizmos/GLGizmoCut.cpp:2243-2250 | A connector built from validated settings has no negative dimension and no Undef attribute. Reading its settings back (size = 2 * radius) gives the settings it was built from. |
| `Connectors.WithDepth` | src/slic3r/GUI/Gizmos/GLGizmoCut.cpp:1579-1584 | The depth slider writes the height only when the ratio is > 0 and the height tolerance only when the tolerance is >= 0. Every other field is kept. |
| `Connectors.WithSize` | src/slic3r/GUI/Gizmos/GLGizmoCut.cpp:1587-1592 | The size slider writes the radius (half the size) only when the size is > 0 and the radius tolerance only when the tolerance is >= 0. Every other field is kept. |
| `Connectors.SectorCount` | src/slic3r/GUI/Gizmos/GLGizmoCut.cpp:1897-1900 | The contour is sampled with 3, 4, 6 or 60 points for a triangle, square, hexagon or circle. An Undef shape gets 1 point, the only count below 3. |
| `SelectionMask.CountTrue` | src/slic3r/GUI/Gizmos/GLGizmoCut.cpp:2284-2291 | The number of selected flags never exceeds the mask length. |
| `SelectionMask.CountTrueUpdate` | src/slic3r/GUI/Gizmos/GLGizmoCut.cpp:2284-2291 | Setting one flag changes the number of set flags by new minus old. So the counter's unconditional +1/-1 matches only when the flag actually flips. |
| `SelectionMask.KeptLength` | src/slic3r/GUI/Gizmos/GLGizmoCut.cpp:2262-2282 | Deletion removes exactly as many connectors as there are set flags, and keeps the rest. |
| `SelectionMask.KeptPickedPartition` | src/slic3r/GUI/Gizmos/GLGizmoCut.cpp:2262-2282 | Every connector is either kept or removed, never both and never lost (as multisets). |
| `SelectionMask.KeptIndex` | src/slic3r/GUI/Gizmos/GLGizmoCut.cpp:2266-2272 | An unselected connector at index i survives at index i minus the number of selected connectors before it. So relative order is preserved. |
| `SelectionMask.KeptBackwardStep` | src/slic3r/GUI/Gizmos/GLGizmoCut.cpp:2269-2272 | One iteration of the backward erase loop extends the filtered suffix by one index. |
| `SelectionMask.RemoveSetAligned` | src/slic3r/GUI/Gizmos/GLGizmoCut.cpp:2273-2278 | After `remove_if` on the flags, the mask is all false and as long as the surviving connector list. |
| `SelectionMask.KeptOneHot` | src/slic3r/GUI/Gizmos/GLGizmoCut.cpp:2396-2403 | With only connector h selected, deletion removes exactly connector h. |
| `SelectionMask.PickedOneHot` | src/slic3r/GUI/Gizmos/GLGizmoCut.cpp:1765-1779 | With only connector h selected, the merge loop sees exactly connector h. |
| `SelectionMask.KeptNone` | src/slic3r/GUI/Gizmos/GLGizmoCut.cpp:2262-2282 | With nothing selected, deletion keeps every connector. |
| `SelectionMask.PickedSnoc` | src/slic3r/GUI/Gizmos/GLGizmoCut.cpp:1765-1766 | Scanning one more index adds that connector to the selected ones exactly when its flag is set. |
| `SelectionMask.PickedFirst` | src/slic3r/GUI/Gizmos/GLGizmoCut.cpp:1765-1779 | The first selected connector the merge loop meets is the first one picked, which is the one the counter-equals-1 early exit keeps. |
| `SelectionMask.PickedApplyAt` | src/slic3r/GUI/Gizmos/GLGizmoCut.cpp:1528-1535 | Reading the selected connectors after applying an update to them gives the update of each previously selected connector. |
| `SettingsMerge.CommonSnoc` | src/slic3r/GUI/Gizmos/GLGizmoCut.cpp:1781-1797 | One step of the merge: a running value becomes undefined when the next selected connector disagrees with it, and stays undefined afterwards. |
| `SettingsMerge.MergedOfOne` | src/slic3r/GUI/Gizmos/GLGizmoCut.cpp:1755-1807 | With exactly one connector selected, the settings are that connector's values, with size = 2 * radius, whatever the counter says. |
| `SettingsMerge.MergedOfEqual` | src/slic3r/GUI/Gizmos/GLGizmoCut.cpp:1755-1807 | When all selected connectors carry the same values, the settings are those values. |
| `SettingsMerge.DepthRoundTrip` | src/slic3r/GUI/Gizmos/GLGizmoCut.cpp:1578-1584 | After the depth slider writes a positive ratio and a non-negative tolerance into the selection, the merged settings show exactly those values. |
| `SettingsMerge.SizeRoundTrip` | src/slic3r/GUI/Gizmos/GLGizmoCut.cpp:1586-1592 | After the size slider writes a positive size and a non-negative tolerance into the selection, the merged settings show exactly that size and tolerance. |
| `SettingsMerge.AddedConnectorShown` | src/slic3r/GUI/Gizmos/GLGizmoCut.cpp:2234-2253 | Right after an add, the merged settings equal the validated settings the new connector was made from. |
| `CutGizmo.GizmoCut3D.constructor` | src/slic3r/GUI/Gizmos/GLGizmoCut.cpp:197-231 | A new gizmo has no connectors and an empty selection, the connector group id is 3, and the attributes are Plug, Prizm and Circle. |
| `CutGizmo.GizmoCut3D.CanPerformCut` | src/slic3r/GUI/Gizmos/GLGizmoCut.cpp:2027-2034 | A cut is possible iff all of these hold: no connector is invalid, at least one part is kept, connectors are not being edited, and the contour is valid. |
| `CutGizmo.GizmoCut3D.ValidateConnectorSettings` | src/slic3r/GUI/Gizmos/GLGizmoCut.cpp:1730-1747 | The settings become `Validated` of the old settings, so they end up defined. |
| `CutGizmo.GizmoCut3D.UnselectAllConnectors` | src/slic3r/GUI/Gizmos/GLGizmoCut.cpp:1493-1498 | Every flag is false, the counter is 0, and the settings are validated. |
| `CutGizmo.GizmoCut3D.SelectAllConnectors` | src/slic3r/GUI/Gizmos/GLGizmoCut.cpp:1500-1504 | Every flag is true, and the counter equals the mask length, which is the number of set flags. |
| `CutGizmo.GizmoCut3D.SelectConnector` | src/slic3r/GUI/Gizmos/GLGizmoCut.cpp:2284-2291 | Only flag idx changes, and the counter moves by +1 or -1 unconditionally. The counter stays equal to the number of set flags only if the flag actually flipped. |
| `CutGizmo.GizmoCut3D.ClearSelection` | src/slic3r/GUI/Gizmos/GLGizmoCut.cpp:2146-2150 | The mask is empty and the counter is 0. |
| `CutGizmo.GizmoCut3D.ResetConnectors` | src/slic3r/GUI/Gizmos/GLGizmoCut.cpp:2152-2157 | No connectors remain, the mask is empty and the counter is 0. |
| `CutGizmo.GizmoCut3D.SyncSelection` | src/slic3r/GUI/Gizmos/GLGizmoCut.cpp:1968-1973 | A mask whose length differs from the list is replaced by an all-false mask of the right length with counter 0. A matching mask is kept. |
| `CutGizmo.GizmoCut3D.SetConnectorsEditing` | src/slic3r/GUI/Gizmos/GLGizmoCut.cpp:1644-1652 | The editing flag takes the given value. |
| `CutGizmo.GizmoCut3D.AddConnector` | src/slic3r/GUI/Gizmos/GLGizmoCut.cpp:2234-2260 | It fails, changing nothing, unless editing and the ray hits the plane. On success: the settings are validated first and the old connectors are kept. One well-formed connector is appended: radius = size/2, height = depth ratio, tolerances and attributes from the settings. The mask is all false except a final true, and the counter is 1. |
| `CutGizmo.GizmoCut3D.DeleteSelectedConnectors` | src/slic3r/GUI/Gizmos/GLGizmoCut.cpp:2262-2282 | On an empty list it returns false and changes nothing. Otherwise exactly the unselected connectors remain, in order. The mask is all false with the list's length, and the counter is 0. |
| `CutGizmo.GizmoCut3D.IsSelectionChanged` | src/slic3r/GUI/Gizmos/GLGizmoCut.cpp:2293-2306 | A hover id below the connector group changes nothing and returns false. Alt clears the hovered flag. Shift sets it and leaves the others. No modifier makes the hovered connector the only selected one, with counter 1 and validated settings. |
| `CutGizmo.GizmoCut3D.ProcessSelectionRectangle` | src/slic3r/GUI/Gizmos/GLGizmoCut.cpp:2308-2329 | Every connector inside the rectangle is selected (or deselected for a deselect rectangle), and the others are unchanged. The counter moves by one per listed connector, and the rectangle stops. |
| `CutGizmo.GizmoCut3D.ApplySelectedConnectors` | src/slic3r/GUI/Gizmos/GLGizmoCut.cpp:1528-1535 | The update is applied to every selected connector, and unselected connectors are unchanged. |
| `CutGizmo.GizmoCut3D.ChooseType` | src/slic3r/GUI/Gizmos/GLGizmoCut.cpp:1560-1570 | The type goes to the settings and to the selected connectors. Choosing Dowel also forces the Prizm style on both. No other setting changes. |
| `CutGizmo.GizmoCut3D.ChooseStyle` | src/slic3r/GUI/Gizmos/GLGizmoCut.cpp:1566-1573 | A different style (the combo is disabled for dowels) goes to the settings and the selected connectors. Otherwise nothing changes. |
| `CutGizmo.GizmoCut3D.ChooseShape` | src/slic3r/GUI/Gizmos/GLGizmoCut.cpp:1575-1576 | A different shape goes to the settings and the selected connectors. Otherwise nothing changes. |
| `CutGizmo.GizmoCut3D.EditDepthRatio` | src/slic3r/GUI/Gizmos/GLGizmoCut.cpp:1578-1584 | The settings take the slider values. The selected connectors are updated (with the positive / non-negative guards) only when a value moved by at least the comparison precision. |
| `CutGizmo.GizmoCut3D.EditSize` | src/slic3r/GUI/Gizmos/GLGizmoCut.cpp:1586-1592 | The settings take the slider values. The selected connectors are updated (with the positive / non-negative guards) only when a value moved by at least the comparison precision. |
| `CutGizmo.GizmoCut3D.ConfirmConnectors` | src/slic3r/GUI/Gizmos/GLGizmoCut.cpp:1596-1600 | The selection is cleared, the settings are validated, and editing ends. |
| `CutGizmo.GizmoCut3D.CancelConnectors` | src/slic3r/GUI/Gizmos/GLGizmoCut.cpp:1603-1606 | All connectors are removed and editing ends. |
| `CutGizmo.GizmoCut3D.InitInputWindowData` | src/slic3r/GUI/Gizmos/GLGizmoCut.cpp:1749-1808 | Only when editing with a positive counter, the settings become `MergedSettings`. Each field is the first selected connector's value, or Undef/`UndefFloat` when a selected connector differs from the first selected one (for the numbers: by 1e-4 or more). Since that comparison is not transitive, two later connectors may differ from each other by more than 1e-4 and still show a common value. A counter of 1 takes the first selected connector alone, and size = 2 * radius. |
| `CutGizmo.GizmoCut3D.ProcessCutLine` | src/slic3r/GUI/Gizmos/GLGizmoCut.cpp:2180-2232 | A left press starts a cut line. While a line is active, every event is consumed. A press or release on a long-enough line ends it and sets the plane rotation. |
| `CutGizmo.GizmoCut3D.PressLeft` | src/slic3r/GUI/Gizmos/GLGizmoCut.cpp:2360-2372 | A left press is always consumed. With Shift or Alt on empty space it starts a select or deselect rectangle at the mouse. Without them on empty space it adds a connector, or, when the ray misses the plane, records the press position. On a grabber or a connector it changes nothing. |
| `CutGizmo.GizmoCut3D.ReleaseLeft` | src/slic3r/GUI/Gizmos/GLGizmoCut.cpp:2374-2378 | A release closer than 5 to the last press that added nothing first unselects everything and validates the settings. Then the hovered connector is clicked as in `IsSelectionChanged`, and the result says whether a connector was hovered. |
| `CutGizmo.GizmoCut3D.DeleteHovered` | src/slic3r/GUI/Gizmos/GLGizmoCut.cpp:2396-2402 | Exactly the hovered connector is removed, and the others stay in order. The mask ends all false, the counter is 0, and the settings are validated. |
| `CutGizmo.GizmoCut3D.HandleEvent` | src/slic3r/GUI/Gizmos/GLGizmoCut.cpp:2331-2414 | No event changes the editing flag, the keep flags, the mode or the dragging flag, and only the Shift cut-line path changes the plane rotation or the cut-line state. Dragging, Auto mode, a keep flag off, or not editing return false with no change. The exception is the Shift cut-line path, which is consumed exactly when it starts or continues a line and leaves the connectors, selection, settings, rectangle and press position untouched. While editing, each event's outcome is given on the whole modelled state: the left press as in `PressLeft`, where an added connector carries the plane rotation held before the event; the release outside a rectangle as in `ReleaseLeft`; a release ending a rectangle; dragging, which moves the rectangle's far corner and is consumed only while a rectangle exists; a right press deleting the hovered connector; Delete; and SelectAll, which leaves the settings alone. Every other event (RightUp, Moving, Shift+RightDown, ShiftUp/AltUp with no rectangle) returns false with no change. The list changes only by an add, a right-press delete or Delete. |
| `CutGizmo.CountAllFalseThenTrue` | src/slic3r/GUI/Gizmos/GLGizmoCut.cpp:2251-2252 | After an add, the counter of 1 equals the number of set flags. |
| `CutGizmo.RunningStep` | src/slic3r/GUI/Gizmos/GLGizmoCut.cpp:1781-1797 | The seven running values of the merge loop stay equal to the common values over the connectors picked so far. |
| `Activation.IsDowelObject` | src/slic3r/GUI/Gizmos/GLGizmoCut.cpp:1041-1055 | The counting loop, which stops after a second connector volume, answers exactly whether there is one connector volume and it is solid. |
| `Activation.DowelObjectWitness` | src/slic3r/GUI/Gizmos/GLGizmoCut.cpp:1041-1055 | An object is a dowel object iff one of its volumes is a solid connector and no other volume is a connector. |
| `Activation.IsActivable` | src/slic3r/GUI/Gizmos/GLGizmoCut.cpp:1034-1060 | The gizmo can be opened iff all of these hold: an object is selected, it is not the wipe tower, the selection is a single full instance, the object is not a cut-off dowel, and layer editing is off. |

## Left out

- Rendering (OpenGL models, shaders, colours) and the ImGui widgets themselves are left out: they belong to the host's GPU and UI toolkits. Each widget's reaction is modelled instead (`ChooseType`, `ChooseStyle`, `ChooseShape`, `EditDepthRatio`, `EditSize`, the confirm and cancel buttons), with the new widget value as a parameter.
- Slider clamping and the imperial-unit conversion in `render_slider_double_input` are left out: the model assumes millimetres and takes the value the slider returns.
- Camera, ray, clipper and bounding-box geometry are left out: unprojection, plane rotation and snapping, connector conflict and outside-contour tests, connector dragging. The model receives their results as parameters. `hasInvalidConnector` stands for the result of the left-out conflict and outside-contour tests, which the source recomputes every frame while rendering the connectors. In the model only the caller sets it.
- The geometry of the cut-line gesture is left out: the line's length test and the rotation derived from it are parameters of `ProcessCutLine`, and the plane-centre move is not modelled.
- Undo/redo snapshots, raycaster registration, `apply_cut_connectors` and `perform_cut` are left out: they are calls into the host.
- `on_load`/`on_save` serialisation is left out (a library archive).
- `on_set_state` is left out. When the gizmo opens it sets the editing flag to whether the mask is non-empty, and when it closes it clears the mask; `SyncSelection` models how the mask is brought back to the list's length.
- The connector list belongs to the edited model object in the source. Here it is a field of the gizmo, so aliasing between the two is not captured.
- The seven `m_connector_*` setting fields are grouped into one `settings` record field. The style and shape indices (`size_t` in the source) are modelled by their enum values.
- The initial numeric settings and flags are declared in GLGizmoCut.hpp, which is not part of this model. The constructor takes the numeric settings and keep flags as parameters, and starts with editing off and mode Manual.
- Float rounding is not modelled: reals are exact, so, for example, `0.5f * size` is exactly half.
- `CutGizmo.GizmoCut3D.HandleEvent`: the `control_down` argument is not a parameter because the source never reads it. The disabled contour-toggle branch guarded by `0 &&` is omitted.
- The selection counter is not tied to the mask by an invariant, because the source does not keep it in step. `SelectConnector` moves it unconditionally, so re-selecting a selected connector, or deselecting an unselected one (Alt-click, deselect rectangle), lets it drift. The model reproduces that drift exactly.
