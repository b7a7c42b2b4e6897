# Room CAM-I/O render configuration, modelled in Dafny

The app turns a LiDAR room scan into two aligned images: a monochrome
tactile template and a colour map. A per-category render configuration
decides what goes on each image. This project models the logic that
builds and edits that configuration. That logic lives in two files, and
each file has its own version of the row type and the view model, so each
becomes its own module.

- `Views` (`views.swift`) covers the post-scan selection screen.
  - It collects the category keys a captured room shows: Wall always,
    Window and Door when present, and one key per furniture object.
    `CategoryName` maps each scanner category to its key, keeping the
    spellings "Refrigetator", "Washmachine" and "TV".
  - It keeps, in table order, the rows of the fixed 18-row table whose key
    was detected. If none are kept, it falls back to the table's Wall rows.
  - It models the two switches of a row. Flipping the template switch
    gives the colour-map flag the template flag's new value. The colour-map
    checkbox flips its flag, and only exists while the template switch is
    off.
  - Row equality (`==`) compares ids only.
- `RenderOptions` (`renderOptions.swift`) covers the pre-scan screen.
  - It holds the 20-row default table with every flag on.
  - `getConfig` is the first-match lookup by key.
  - It models this file's own switch rules. Turning the template off
    forces the colour map on. Turning it on leaves the colour map alone.

Each view model is a class whose `objects` field the methods reassign. A
row is a value (`datatype`), as the Swift struct is. What a user edit does
to a row is given by a pure function (`TemplateToggled`,
`ColorMapPressed`). The class methods are proved to replace exactly the
edited row by that function's result.

The model proves two consequences of the code as written:
- `Views.FallbackNeverApplies`: "Wall" is always detected. So if the first
  filter keeps nothing, the table has no Wall row either, and the Wall
  fallback never changes the result, whatever the table. With the real
  table, `objects` is empty exactly when the room has no window and no
  furniture object (`Views.EmptyExactlyWithoutWindowsAndObjects`).
- `RenderOptions.TemplateOnlyRowReachable`: the pre-scan switches can
  reach a row drawn on the template but not on the colour map. The
  post-scan switches keep "template implies colour map"
  (`Views.EditsKeepColorMapFollowsTemplate`).

## Model

| member | source | states |
|---|---|---|
| Views.AllObjectConfigs | RoomPlanExampleApp/views.swift:90-109 | the post-scan table has 18 rows, row i carrying the i-th caller-supplied id |
| Views.TableKeysDistinct | RoomPlanExampleApp/views.swift:90-109 | the 18 category keys of the table are pairwise distinct |
| Views.TableHasNoWallOrDoor | RoomPlanExampleApp/views.swift:90-109 | no row of the table has key "Wall" or "Door" |
| Views.TableRowsColorMapFollowsTemplate | RoomPlanExampleApp/views.swift:91-108 | every table row drawn on the template is also drawn on the colour map |
| Views.CategoryName | RoomPlanExampleApp/views.swift:144-163 | the key is never Wall, Window or Door, and it is "Object" exactly for a category the switch does not name |
| Views.CategoryNameInTable | RoomPlanExampleApp/views.swift:144-163 | every key the mapping returns is the key of exactly one row of the 18-row table |
| Views.CategoryNameInjective | RoomPlanExampleApp/views.swift:144-163 | distinct scanner categories get distinct keys |
| Views.DetectedCategories | RoomPlanExampleApp/views.swift:112-131 | Wall is always detected; Window iff the room has a window; Door iff it has a door; every object's key is detected; any other detected key is some object's key |
| Views.CollectDetectedCategories | RoomPlanExampleApp/views.swift:112-131 | the set built by the inserts and the loop over the room's objects is exactly the detected-key set above |
| Views.KeepCategories | RoomPlanExampleApp/views.swift:134-136 | the kept rows are an order-preserving sublist of the table; a row is kept iff its key is in the set; the result is empty iff no row's key is in it |
| Views.KeepCategoriesCounts | RoomPlanExampleApp/views.swift:134-136 | each row with a key in the set is kept as many times as it occurs; every other row occurs zero times |
| Views.FilteredObjects | RoomPlanExampleApp/views.swift:133-141 | the filtered list, fallback included, is an order-preserving sublist of the table whose every row has a detected key |
| Views.FallbackNeverApplies | RoomPlanExampleApp/views.swift:138-141 | for any table, the Wall fallback leaves the result equal to the rows of detected keys |
| Views.FilteredObjectsSpec | RoomPlanExampleApp/views.swift:133-141 | after filtering, `objects` is an order-preserving sublist of the table, holds a table row iff its key was detected, and holds it as often as the table does |
| Views.EmptyExactlyWithoutWindowsAndObjects | RoomPlanExampleApp/views.swift:133-141 | with the real table, `objects` ends empty iff the room has no window and no furniture object, the fallback included |
| Views.ObjectSelectionViewModel.constructor | RoomPlanExampleApp/views.swift:87-109 | a new view model has no rows and holds the 18-row table |
| Views.ObjectSelectionViewModel.FilterDetectedObjects | RoomPlanExampleApp/views.swift:111-142 | `objects` becomes the filtered table rows, a value independent of the old `objects`, so a second call changes nothing; the row invariant holds afterwards |
| Views.ObjectSelectionViewModel.ToggleTemplate | RoomPlanExampleApp/views.swift:251-261 | only row `index` changes, to the template-toggled row; the row invariant is kept |
| Views.ObjectSelectionViewModel.PressColorMap | RoomPlanExampleApp/views.swift:263-266 | only row `index` changes, to the pressed row; the row invariant is kept |
| Views.TemplateToggled | RoomPlanExampleApp/views.swift:255-261 | after the template switch the row always satisfies "template implies colour map", whatever it was before; id, name and key are kept |
| Views.ColorMapPressed | RoomPlanExampleApp/views.swift:263-266 | a press changes at most the colour-map flag, and changes nothing while the template flag is on |
| Views.TemplateToggledEffect | RoomPlanExampleApp/views.swift:255-261 | the template flag flips and the colour-map flag takes its new value; id, name and key are unchanged |
| Views.ColorMapPressedEffect | RoomPlanExampleApp/views.swift:263-266 | the colour-map flag changes iff the template flag is off, pressing twice restores the row, nothing else changes |
| Views.EditsKeepColorMapFollowsTemplate | RoomPlanExampleApp/views.swift:255-266 | both row edits preserve "drawn on the template implies drawn on the colour map" |
| Views.SameConfig | RoomPlanExampleApp/views.swift:81-83 | rows that are identical field by field are equal under the id-only `==` |
| Views.SameConfigIgnoresContent | RoomPlanExampleApp/views.swift:81-83 | rows with one id are equal whatever their name, key and flags; an edited row equals the original |
| Views.SameConfigIsEquivalence | RoomPlanExampleApp/views.swift:81-83 | row equality is reflexive, symmetric and transitive |
| RenderOptions.DefaultObjects | RoomPlanExampleApp/renderOptions.swift:18-39 | the default table has 20 rows, row i carrying the i-th caller-supplied id |
| RenderOptions.DefaultKeysDistinct | RoomPlanExampleApp/renderOptions.swift:19-38 | the 20 default keys are pairwise distinct |
| RenderOptions.DefaultFlagsOn | RoomPlanExampleApp/renderOptions.swift:19-38 | every default row has both flags on |
| RenderOptions.FirstWithCategory | RoomPlanExampleApp/renderOptions.swift:41-43 | none iff no row has the key; otherwise the row returned has the key and no earlier row does |
| RenderOptions.ObjectSelectionViewModel.GetConfig | RoomPlanExampleApp/renderOptions.swift:41-43 | a found row is one of `objects` and has the key; none iff no row of `objects` has it; nothing is modified |
| RenderOptions.DefaultLookup | RoomPlanExampleApp/renderOptions.swift:41-43 | over the default table a lookup succeeds iff the key is one of the 20, and the row found has that key |
| RenderOptions.LookupIsByKey | RoomPlanExampleApp/renderOptions.swift:23 | "Refrigerator" finds nothing; "Refrigetator" finds the row displayed as "Refrigerator" |
| RenderOptions.ObjectSelectionViewModel.constructor | RoomPlanExampleApp/renderOptions.swift:17-39 | a new view model holds the default table |
| RenderOptions.ObjectSelectionViewModel.ToggleTemplate | RoomPlanExampleApp/renderOptions.swift:110-118 | only row `index` changes, to the template-toggled row |
| RenderOptions.ObjectSelectionViewModel.PressColorMap | RoomPlanExampleApp/renderOptions.swift:121-124 | only row `index` changes, to the pressed row |
| RenderOptions.TemplateToggled | RoomPlanExampleApp/renderOptions.swift:113-118 | a row whose template flag ends off has its colour-map flag on; id, name and key are kept |
| RenderOptions.ColorMapPressed | RoomPlanExampleApp/renderOptions.swift:120-124 | a press changes at most the colour-map flag, and changes nothing while the template flag is on |
| RenderOptions.TemplateToggledEffect | RoomPlanExampleApp/renderOptions.swift:113-118 | the template flag flips; turning it off forces the colour map on; turning it on keeps the colour map; id, name and key are unchanged |
| RenderOptions.ColorMapPressedEffect | RoomPlanExampleApp/renderOptions.swift:120-124 | the colour-map flag changes iff the template flag is off, pressing twice restores the row, nothing else changes |
| RenderOptions.TemplateOnlyRowReachable | RoomPlanExampleApp/renderOptions.swift:110-124 | from a row with both flags on, template off, colour map off, template on gives a template-only row |
| RenderOptions.EditsKeepLookup | RoomPlanExampleApp/renderOptions.swift:56-58 | editing any row's flags never changes whether a key is found |

## Left out

- The projection, colour, compositing and archive engine (`RoomPlanToCamIOConverter`) is not part of this model. That includes its use of the configuration.
- The preview and export actions (`generatePreview`, `exportToCamIO`) are left out. They dispatch to background and main queues and call into that engine.
- SwiftUI layouts, navigation, sheets and the share sheet are left out. So are the capture view controller and the application delegate. They are user interface and device plumbing.
- The UUID of each row is not generated. Callers supply the ids, and nothing requires them to be distinct.
- A captured room is reduced to its window count, its door count and the categories of its furniture objects. Geometry and the rest of the scanner's data are left out.
- The `@unknown default` of the category switch becomes the single category `Unrecognized`.
- SwiftUI bindings are left out. An edit through `$viewModel.objects[index]` is modelled as replacing row `index` of `objects`.
- SwiftUI runs a change handler only when the value changes. The model has the template switch always flip its flag before the handler runs.
- A hidden checkbox cannot be pressed. The model treats a press while the template switch is on as leaving the row unchanged.
- `SameConfig` models the id-only `==` of the post-scan row, which none of the app's code calls; only its properties are proved. The engine finds rows by comparing category keys, not rows.
- Keys are compared character by character, while Swift's `String ==` compares by Unicode canonical equivalence. Every key here is an ASCII literal with no canonically equivalent other spelling, so the two agree on every key the app uses.
