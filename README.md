# Laser A/B-position calibration and run-boundary program

This project models the part of a laser workspace that calibrates a job
against a workpiece and then checks the job area on the machine. It has four parts:

- **Point capture.** The "Set A position" and "Set B position" buttons store the current
  machine point, rounded to a thousandth, in a provisional slot. "Clear AB" empties
  every slot.
- **The calibration slice of the laser store.** This covers the committed points A and B, the
  provisional points, the `useABPosition` flag and the preview overlay. The overlay
  is a mask over the bounding box of the two points plus one crosshair marker per point.
  The model also covers the laser reducer and the list logic of the tool-definition actions:
  duplicating, removing and renaming categories and definitions.
- **The run-boundary program.** From a work range, a job-offset mode (crosshair or
  laser spot), a rotary flag and a coordinate-setup method, `getRunBoundaryCode`
  emits a G-code program. The program turns the crosshair or the laser spot on, runs the
  five corners of the rectangle, parks the head, and ends with `;End`.
- **The coordinate-method selector** of the set-origin view. Choosing the control-panel method
  needs a homed machine. Any other method releases the motor hold.

A numeric property of a position is a `Coordinates.Value`: one of a finite number, NaN,
`undefined` or `null`. The four cases are kept apart because the source treats them
differently:

- completeness checks reject all three non-numbers;
- the provisional-preview check tests only `undefined`;
- `Math.min` treats `null` as 0;
- a G-code line prints `NaN` or `undefined` verbatim.

JavaScript's number-to-text conversion (`numStr`) and `parseFloat` (`parse`) are
parameters of the operations that use them.

Objects the source updates in place are classes, each with a `View()` of its fields:

- the calibration slice is `LaserCalibration.LaserStore`;
- the selector is `SetOriginPanel.CoordinateSelector`.

Each state-changing method ensures `View() == F(old(View()))` for a pure transition
`F`. The lemmas about `F` state what the source promises.

`getRunBoundaryCode` is a method that pushes lines onto a sequence. It is proved equal
to `Join(BoundaryLines(...))`, a specification built from a sequence of `Line`
values, each a fixed command or a move.

`getRunBoundaryCode` performs no validation of the work range:
- an absent, `null`, NaN or zero horizontal bound is printed as `0`, because of `x || 0`;
- the `y` values are printed as they are.

The model does the same, and `RunBoundary.FalsyHorizontalIsZero` states it.

Likewise, on a rotary setup `updateABpositionBackground` checks a point's `b`
coordinate for completeness. The bounding box and the markers it then draws still use `x`, and
the model keeps that.

## Model

| member | source | states |
|---|---|---|
| `Coordinates.MinMaxSymmetric` | src/app/flux/laser/index.ts:194-197 | `Math.min` and `Math.max` of two coordinate values do not depend on the order of the arguments |
| `LaserCalibration.CalculateBoundingBox` | src/app/flux/laser/index.ts:193-208 | per axis, when both coordinates convert to numbers (a `null` counts as 0, as in `Math.min`/`Math.max`): the origin is the minimum, the extent is the absolute difference (never negative), and origin plus extent is the maximum; when either coordinate is undefined or NaN, that axis's origin and extent are NaN |
| `LaserCalibration.BoundingBoxNullIsZero` | src/app/flux/laser/index.ts:194-199 | a `null` horizontal coordinate is read as 0: with the other point at `x >= 0`, the box starts at 0 and is `x` wide |
| `LaserCalibration.BoundingBoxSymmetric` | src/app/flux/laser/index.ts:193-208 | swapping the two points gives the same box |
| `LaserCalibration.NotSetUsesActiveAxis` | src/app/flux/laser/index.ts:434-436 | a point is unset exactly when `y`, or its active horizontal coordinate (`b` on a rotary setup, `x` otherwise), is undefined, NaN or null |
| `LaserCalibration.LaserStore.constructor` | src/app/flux/laser/index.ts:181-188 | the initial A/B slice: four empty point slots, A/B positioning and background off, no overlay |
| `LaserCalibration.LaserStore.UpdatePosition` | src/app/flux/laser/index.ts:468-475 | `updateAPosition`/`updateBPosition` set only the addressed committed slot |
| `LaserCalibration.LaserStore.RemoveBackgroundImage` | src/app/flux/laser/index.ts:610-623 | the overlay is torn down and `backgroundEnabled` and `useBackground` become false; nothing else changes |
| `LaserCalibration.LaserStore.UpdateABPositionBackground` | src/app/flux/laser/index.ts:432-451 | if A or B is unset, the background is removed and no overlay remains; otherwise the overlay is stock-sized, has an outlined mask over the y-flipped bounding box, and has one marker per point at `(p.x, height - p.y)`; the points themselves are not stored |
| `LaserCalibration.LaserStore.UpdateTmpPosition` | src/app/flux/laser/index.ts:476-505 | the new state is `WithTmpPosition` of the old one: the point goes into its own provisional slot, and the overlay is created if absent and updated |
| `LaserCalibration.LaserStore.ClearAB` | src/app/flux/laser/index.ts:508-517 | the six dispatches of `clearAB` in order give `Cleared` of the old state |
| `LaserCalibration.LaserStore.Dispatch` | src/app/flux/laser/index.ts:506-517 | dispatching one of the button thunks gives `Step` of the old state |
| `LaserCalibration.ABBackgroundNeedsBothPoints` | src/app/flux/laser/index.ts:434-440 | the overlay exists after `updateABpositionBackground` exactly when both points are set; when it does not, both background flags are off |
| `LaserCalibration.ABBackgroundKeepsPoints` | src/app/flux/laser/index.ts:432-451 | `updateABpositionBackground` leaves the four point slots, `useABPosition`, the stock and the machine size unchanged |
| `LaserCalibration.ABMaskSymmetric` | src/app/flux/laser/index.ts:441-445 | swapping A and B gives the same mask |
| `LaserCalibration.ABMaskSpansMarkers` | src/app/flux/laser/index.ts:441-450 | for numeric points, the mask is exactly the rectangle spanned by the two markers in overlay space |
| `LaserCalibration.ABExample` | src/app/flux/laser/index.ts:441-445 | with stock 100 x 60, A = (10, 5) and B = (40, 25), the box is (10, 5, 30, 20) and the mask is (10, 35, 30, 20) |
| `LaserCalibration.TmpUpdateKeepsOtherSlots` | src/app/flux/laser/index.ts:476-505 | `_updateTmpPosition` stores the position in its own slot only; the other provisional slot, the committed slots, the flags, the stock and the machine size are unchanged, and an overlay exists afterwards |
| `LaserCalibration.TmpMaskRule` | src/app/flux/laser/index.ts:488-499 | the mask is recomputed exactly when the other provisional point has both `x` and `y` defined; the new mask is the bounding box flipped against the machine height and is not outlined; otherwise the mask and outline are kept |
| `LaserCalibration.TmpMaskOrderIndependent` | src/app/flux/laser/index.ts:488-499 | capturing A then B draws the same provisional mask as capturing B then A |
| `LaserCalibration.ClearEmptiesEverything` | src/app/flux/laser/index.ts:508-517 | `clearAB` leaves A, B, tmpA and tmpB empty, sets `useABPosition` to false and removes the background; the stock and machine size are kept |
| `LaserCalibration.ClearIdempotent` | src/app/flux/laser/index.ts:508-517 | clearing twice gives the same state as clearing once |
| `LaserCalibration.ClearForgetsCaptures` | src/app/flux/laser/index.ts:508-517 | a clear forgets any provisional capture made before it |
| `LaserReducer.Reduce` | src/app/flux/laser/index.ts:759-782 | `ACTION_UPDATE_STATE` overwrites exactly the supplied keys and keeps every other key; `ACTION_UPDATE_CONFIG` changes only `config`, which becomes the old config merged with the new entries; `ACTION_SET_BACKGROUND_ENABLED` returns the state unchanged when `headType` is `'laser'`, and otherwise changes only `background`, setting its `enabled` entry; any other action returns the state unchanged |
| `LaserReducer.UpdateConfigMerges` | src/app/flux/laser/index.ts:766-770 | an update-config action keeps every configuration entry it does not name |
| `LaserReducer.UpdateStateIdempotent` | src/app/flux/laser/index.ts:763-765 | applying the same update-state action twice gives the same state as applying it once |
| `LaserReducer.SetBackgroundEnabledCreatorApplies` | src/app/flux/laser/index.ts:298-303 | the action built by `setBackgroundEnabled` carries no head type, so the reducer always applies it: `background.enabled` takes the value and the other background entries are kept |
| `ToolDefinitions.Filter` | src/app/flux/laser/index.ts:721 | `filter` keeps only definitions that pass the test, each as often as it occurs in the array, and nothing else |
| `ToolDefinitions.FilterSingle` | src/app/flux/laser/index.ts:721 | a one-element array keeps its element exactly when it passes the test |
| `ToolDefinitions.FilterAppend` | src/app/flux/laser/index.ts:721 | `filter` keeps the original order: filtering a concatenation gives the concatenation of the filtered parts |
| `ToolDefinitions.FindIndex` | src/app/flux/laser/index.ts:629-630 | `findIndex` is the first index holding the id, or -1 when no definition does |
| `ToolDefinitions.SpliceMultiset` | src/app/flux/laser/index.ts:631 | `splice` only removes elements and inserts the given items |
| `ToolDefinitions.SpliceReplaces` | src/app/flux/laser/index.ts:631 | `splice(i, 1, x)` at an index inside the array replaces element `i` |
| `ToolDefinitions.SpliceAtMinusOne` | src/app/flux/laser/index.ts:733 | `splice(-1, 1, ...)`, reached when the id is missing, acts on the last element |
| `ToolDefinitions.FreeCategoryNameSpec` | src/app/flux/laser/index.ts:686-689 | the chosen category name is `'#' * k + original` for the least `k` such that no existing definition uses it |
| `ToolDefinitions.UniqueCategoryName` | src/app/flux/laser/index.ts:686-689 | the `while` loop ends, and the name it ends with is `'#' * k + original`, is used by no definition, and every shorter candidate is taken |
| `ToolDefinitions.DuplicateInto` | src/app/flux/laser/index.ts:696-706 | the `for` loop makes one copy per source, in order; each copy is moved to the new category, has its `i18nCategory` cleared, and has its id suffixed with that iteration's timestamp |
| `ToolDefinitions.DuplicateToolCategoryDefinition` | src/app/flux/laser/index.ts:681-711 | the old list is kept as a prefix and the copies follow it in order; every copy is in a category no old definition uses; the result is the first copy, or nothing when there is none; with `isCreate`, the single source is the active definition renamed to the default material, with the first definition's settings |
| `ToolDefinitions.RemoveToolCategoryDefinition` | src/app/flux/laser/index.ts:713-725 | no definition of the category remains, and every definition of any other category is kept |
| `ToolDefinitions.RemoveCategoryPartitions` | src/app/flux/laser/index.ts:716-721 | the kept definitions and the removed ones together are the old list, as a multiset |
| `ToolDefinitions.RemoveCategoryKeepsOrder` | src/app/flux/laser/index.ts:721 | the kept definitions stay in their original order: removing from a concatenation removes from each part, and a single definition is kept exactly when it is of another category |
| `ToolDefinitions.UpdateToolListDefinition` | src/app/flux/laser/index.ts:625-637 | `updateToolListDefinition` keeps the length of a non-empty list, and makes an empty one the single updated definition; the updated definition is in the result, and no other definition appears more often than before (the position it lands on is given by `UpdateToolListDefinitionCases`) |
| `ToolDefinitions.RemoveToolListDefinition` | src/app/flux/laser/index.ts:727-738 | `removeToolListDefinition` removes exactly one definition from a non-empty list and adds none (the one removed is given by `RemoveToolListDefinitionCases`) |
| `ToolDefinitions.UpdateToolListDefinitionCases` | src/app/flux/laser/index.ts:625-637 | a present id is replaced in place; a missing id overwrites the last definition; in an empty list the definition becomes the only element |
| `ToolDefinitions.RemoveToolListDefinitionCases` | src/app/flux/laser/index.ts:727-738 | a present id is removed; a missing id removes the last definition |
| `ToolDefinitions.SameCategoryNameTaken` | src/app/flux/laser/index.ts:661-662 | looking the new name up among the filtered definitions of the category gives the same answer as looking it up in that category of the whole list |
| `ToolDefinitions.FindIndexOfUniqueId` | src/app/flux/laser/index.ts:656-657 | when ids are unique, `findIndex` of a definition's id is that definition's own position |
| `ToolDefinitions.SpliceBackRenamed` | src/app/flux/laser/index.ts:652-658 | a renamed definition is written over its own entry, because it is changed in place, and spliced back at the first index that holds its id, which is at or before its own |
| `ToolDefinitions.RenameCategoryDefinitions` | src/app/flux/laser/index.ts:650-659 | the category rename keeps the length and every id; no definition of the old category is left; with unique ids, exactly the definitions of the old category move to the new one, in place |
| `ToolDefinitions.UpdateToolDefinitionName` | src/app/flux/laser/index.ts:638-680 | a blank name is rejected first; a category rename to a name already in use is rejected, otherwise the category is renamed; a definition rename is rejected if a definition of its category already has the name, otherwise only that definition's name changes, in place; a definition id that is not in the list, where the source fails on `activeDefinition.category`, is an error |
| `RunBoundary.Goto` | src/app/ui/widgets/RaySetOriginWidget/SetOriginView.tsx:31-44 | the line that `goto` builds by concatenation is `MoveLine`: the mode's `G1 S0`/`G1 S10`, ` B` or ` X` with `x \|\| 0`, ` Y` with `y` verbatim, then ` F6000` |
| `RunBoundary.Render` | src/app/ui/widgets/RaySetOriginWidget/SetOriginView.tsx:46-124 | produces one text line per program line |
| `RunBoundary.PushPreamble` | src/app/ui/widgets/RaySetOriginWidget/SetOriginView.tsx:48-72 | the pushes before the corner moves add exactly the rendered preamble |
| `RunBoundary.PushMoves` | src/app/ui/widgets/RaySetOriginWidget/SetOriginView.tsx:74-116 | the pushes of the corner and return moves add exactly the rendered moves |
| `RunBoundary.PushShutdown` | src/app/ui/widgets/RaySetOriginWidget/SetOriginView.tsx:118-124 | the last pushes add `M5 S0` with the laser spot, then `;End` |
| `RunBoundary.GetRunBoundaryCode` | src/app/ui/widgets/RaySetOriginWidget/SetOriginView.tsx:22-129 | the program text is the lines of `BoundaryProgram` joined with newlines, in emission order |
| `RunBoundary.PreambleCases` | src/app/ui/widgets/RaySetOriginWidget/SetOriginView.tsx:48-72 | the preamble commands, for each combination of setup method and job-offset mode |
| `RunBoundary.ProgramLayout` | src/app/ui/widgets/RaySetOriginWidget/SetOriginView.tsx:46-124 | the program has 10 lines with the crosshair and 12 with the laser spot; the preamble is followed by exactly five corner moves in the order (min,min), (max,min), (max,max), (min,max), (min,min), taken on `b` when rotary and on `x` otherwise; the return move follows; only those six lines are moves; the last line is `;End`, preceded by `M5 S0` with the laser spot |
| `RunBoundary.MoveLineStart` | src/app/ui/widgets/RaySetOriginWidget/SetOriginView.tsx:29-44 | every move line starts with `G1 S` |
| `RunBoundary.MoveLineReveals` | src/app/ui/widgets/RaySetOriginWidget/SetOriginView.tsx:29-38 | a move line's power digit is `0` exactly with the crosshair, and its axis letter is `B` exactly on a rotary setup and `X` otherwise |
| `RunBoundary.FalsyHorizontalIsZero` | src/app/ui/widgets/RaySetOriginWidget/SetOriginView.tsx:34-40 | a falsy horizontal value (absent, null, NaN or 0) is printed as 0; `y` gets no such substitution, so an absent `y` prints as `Yundefined` |
| `RunBoundary.CommandTextDistinct` | src/app/ui/widgets/RaySetOriginWidget/SetOriginView.tsx:48-124 | the fixed command texts are pairwise different, and only the laser-spot move mode starts like a move |
| `RunBoundary.MoveLineIsNotCommand` | src/app/ui/widgets/RaySetOriginWidget/SetOriginView.tsx:29-44 | no `goto` line equals a fixed command's text, including the move-mode line `G1 S10 F6000` |
| `RunBoundary.RenderedCommand` | src/app/ui/widgets/RaySetOriginWidget/SetOriginView.tsx:46-124 | every fixed command's text, the move-mode line included, is among the rendered lines exactly when the program holds that command |
| `RunBoundary.CommandPresence` | src/app/ui/widgets/RaySetOriginWidget/SetOriginView.tsx:48-124 | the program holds each fixed command exactly under its condition: `;motor_mode: 3` with control-panel setup, `M2000 L13 P1` with the crosshair, `M3 S0` / `G1 S10 F6000` / `M5 S0` with the laser spot, `G92 X0 Y0 B0` unless set up from the control panel, and `G90` and `;End` always |
| `RunBoundary.CommandLines` | src/app/ui/widgets/RaySetOriginWidget/SetOriginView.tsx:48-124 | the same condition for every fixed command, the move-mode line included, stated on the program's text lines |
| `RunBoundary.PreambleText` | src/app/ui/widgets/RaySetOriginWidget/SetOriginView.tsx:48-72 | the text before the first move, for each case: `;motor_mode: 3` comes first exactly under control-panel setup, then the illumination lines of the mode, then `G90`, then `G92 X0 Y0 B0` unless set up from the control panel |
| `RunBoundary.ShutdownText` | src/app/ui/widgets/RaySetOriginWidget/SetOriginView.tsx:118-124 | the last line is `;End`, and with the laser spot the line before it is `M5 S0` |
| `RunBoundary.MoveLinesOfProgram` | src/app/ui/widgets/RaySetOriginWidget/SetOriginView.tsx:74-116 | the six move lines are the `goto` texts of the five corners and of the return point |
| `RunBoundary.CentreIsMidpoint` | src/app/ui/widgets/RaySetOriginWidget/SetOriginView.tsx:95-111 | `min + (max - min) / 2` is the midpoint, and lies between the bounds |
| `RunBoundary.SplitJoin` | src/app/ui/widgets/RaySetOriginWidget/SetOriginView.tsx:126 | joining lines that contain no newline with `'\n'` and splitting the result gives the lines back |
| `RunBoundary.ProgramLines` | src/app/ui/widgets/RaySetOriginWidget/SetOriginView.tsx:126 | splitting the program text at newlines gives back exactly the emitted lines, provided number texts contain no newline |
| `RunBoundary.ManualExample` | src/app/ui/widgets/RaySetOriginWidget/SetOriginView.tsx:22-129 | the whole crosshair program for the range (0,0)-(100,50) with manual setup, line by line |
| `RunBoundary.ControlPanelExample` | src/app/ui/widgets/RaySetOriginWidget/SetOriginView.tsx:95-111 | the same range set up from the control panel: 10 lines, beginning `;motor_mode: 3`, `M2000 L13 P1`, `G90` with no origin line, the head parked at the centre with `G1 S0 X50 Y25 F6000`, and `;End` last |
| `RunBoundary.ExampleLayout` | src/app/ui/widgets/RaySetOriginWidget/SetOriginView.tsx:46-124 | for any range on a linear machine with the crosshair: 10 lines, the three preamble lines of the setup method, the `goto` texts of the five corners on `x`, the `goto(0, 0)` line under manual setup, and `;End` |
| `RunBoundary.ExampleCentre` | src/app/ui/widgets/RaySetOriginWidget/SetOriginView.tsx:105-110 | the return point of the (0,0)-(100,50) range set up from the control panel is (50,25) |
| `SetOriginPanel.ModeFromHoldMode` | src/app/ui/widgets/RaySetOriginWidget/SetOriginView.tsx:225 | the adopted method is the control-panel method exactly when the controller reports `STAYPOWER`, and manual for every other reply |
| `SetOriginPanel.CoordinateSelector.constructor` | src/app/ui/widgets/RaySetOriginWidget/SetOriginView.tsx:151-170 | a freshly mounted panel takes the workspace's connected, rotary and homed flags and its setup method, hides the home tip and has sent no motor request |
| `SetOriginPanel.CoordinateSelector.OnChangeCoordinateMode` | src/app/ui/widgets/RaySetOriginWidget/SetOriginView.tsx:205-220 | the new panel state is `ChangeCoordinateMode` of the old one |
| `SetOriginPanel.CoordinateSelector.TurnOffHoldMotorPower` | src/app/ui/widgets/RaySetOriginWidget/SetOriginView.tsx:187-195 | one `SHUTAll` request is sent and nothing else changes |
| `SetOriginPanel.CoordinateSelector.SyncHoldMode` | src/app/ui/widgets/RaySetOriginWidget/SetOriginView.tsx:222-229 | a connected linear machine is queried, and the method derived from its reply is passed through the change handler; otherwise nothing happens |
| `SetOriginPanel.CoordinateSelector.OnRotaryChanged` | src/app/ui/widgets/RaySetOriginWidget/SetOriginView.tsx:230-234 | a rotary setup releases the motor hold |
| `SetOriginPanel.DisconnectedIgnoresChanges` | src/app/ui/widgets/RaySetOriginWidget/SetOriginView.tsx:206-208 | when not connected, nothing changes |
| `SetOriginPanel.ControlPanelNeedsHoming` | src/app/ui/widgets/RaySetOriginWidget/SetOriginView.tsx:209-213 | asking for the control-panel method on an unhomed machine leaves the method unchanged, sends nothing and shows the home tip |
| `SetOriginPanel.ControlPanelWhenHomed` | src/app/ui/widgets/RaySetOriginWidget/SetOriginView.tsx:214-215 | on a homed machine the control-panel method is set, the tip is hidden and nothing is sent |
| `SetOriginPanel.OtherMethodReleasesMotors` | src/app/ui/widgets/RaySetOriginWidget/SetOriginView.tsx:216-219 | any other value is set as given, after exactly one `SHUTAll` request; the tip is left alone |
| `SetOriginPanel.RequestTakenUnlessBlocked` | src/app/ui/widgets/RaySetOriginWidget/SetOriginView.tsx:205-220 | the method afterwards equals the one asked for exactly when it already was that method, or the panel is connected and either the request is not the control-panel method or the machine is homed |
| `SetOriginPanel.ChangeKeepsMachineFlags` | src/app/ui/widgets/RaySetOriginWidget/SetOriginView.tsx:205-220 | a request never changes the connected, homed or rotary flags |
| `SetOriginPanel.ChangeSettles` | src/app/ui/widgets/RaySetOriginWidget/SetOriginView.tsx:205-220 | repeating a request does not change the method or the tip again |
| `SetOriginPanel.SyncAdoptsControllerMode` | src/app/ui/widgets/RaySetOriginWidget/SetOriginView.tsx:222-229 | a connected, homed, linear machine ends up with the control-panel method exactly when its motors are held, and manual otherwise; the query is sent first |
| `SetOriginPanel.SyncSkipsRotaryOrDisconnected` | src/app/ui/widgets/RaySetOriginWidget/SetOriginView.tsx:223 | a rotary or disconnected machine is not queried, and nothing changes |
| `SetOriginPanel.RotaryReleasesMotors` | src/app/ui/widgets/RaySetOriginWidget/SetOriginView.tsx:230-234 | a rotary setup sends one `SHUTAll` request; a linear one changes nothing; the method is kept either way |
| `ABPositionButtons.StoreAPosition` | src/app/ui/widgets/ConnectionControl/ABPositionButtonGroup.tsx:18-24 | "Set A" dispatches `updateTmpAPosition`, computing each axis independently from that axis's work value and offset |
| `ABPositionButtons.StoreBPosition` | src/app/ui/widgets/ConnectionControl/ABPositionButtonGroup.tsx:25-31 | "Set B" dispatches `updateTmpBPosition`, computing each axis in the same way |
| `ABPositionButtons.OnClickClearAB` | src/app/ui/widgets/ConnectionControl/ABPositionButtonGroup.tsx:66-68 | clicking "Clear AB" dispatches exactly `clearAB` |
| `ABPositionButtons.CaptureOfNumbers` | src/app/ui/widgets/ConnectionControl/ABPositionButtonGroup.tsx:19-22 | for numbers, a captured coordinate is `Floor((work - offset) * 1000 + 0.5) / 1000` |
| `ABPositionButtons.CaptureAxisValue` | src/app/ui/widgets/ConnectionControl/ABPositionButtonGroup.tsx:19-22 | the same for any values that convert to numbers, with a `null` offset counting as 0 |
| `ABPositionButtons.CaptureAxisMissing` | src/app/ui/widgets/ConnectionControl/ABPositionButtonGroup.tsx:19-22 | an unparsable work value or a missing offset gives NaN |
| `ABPositionButtons.RoundingError` | src/app/ui/widgets/ConnectionControl/ABPositionButtonGroup.tsx:19-22 | rounding to a thousandth moves a number by at most 0.0005 |
| `ABPositionButtons.RoundingExact` | src/app/ui/widgets/ConnectionControl/ABPositionButtonGroup.tsx:19-22 | a whole number of thousandths is kept exactly |
| `ABPositionButtons.RoundingIdempotent` | src/app/ui/widgets/ConnectionControl/ABPositionButtonGroup.tsx:19-22 | rounding twice gives the same result as rounding once |
| `ABPositionButtons.CaptureIsClose` | src/app/ui/widgets/ConnectionControl/ABPositionButtonGroup.tsx:19-22 | each captured coordinate differs from `work - offset` by at most 0.0005 |
| `ABPositionButtons.RecaptureKeepsPoint` | src/app/ui/widgets/ConnectionControl/ABPositionButtonGroup.tsx:19-22 | capturing an already captured coordinate with a zero offset gives it back |
| `ABPositionButtons.CaptureExample` | src/app/ui/widgets/ConnectionControl/ABPositionButtonGroup.tsx:19 | 12.34567 with offset 2 is captured as 10.346 |
| `ABPositionButtons.StoreAAndBAgree` | src/app/ui/widgets/ConnectionControl/ABPositionButtonGroup.tsx:18-31 | both set buttons capture the same point from the same inputs |
| `ABPositionButtons.StoreAWritesSlotA` | src/app/ui/widgets/ConnectionControl/ABPositionButtonGroup.tsx:23 | "Set A" writes the captured point to `tmpAPosition` and leaves `tmpBPosition` alone |
| `ABPositionButtons.StoreBWritesSlotB` | src/app/ui/widgets/ConnectionControl/ABPositionButtonGroup.tsx:30 | "Set B" writes the captured point to `tmpBPosition` and leaves `tmpAPosition` alone |
| `ABPositionButtons.ClearClickEmptiesSlots` | src/app/ui/widgets/ConnectionControl/ABPositionButtonGroup.tsx:66-68 | after "Clear AB", all four slots are empty, A/B positioning is off and no overlay remains |
| `ABPositionButtons.ButtonEnablement` | src/app/ui/widgets/ConnectionControl/ABPositionButtonGroup.tsx:43-69 | "Set A" and "Set B" are enabled exactly when `canClick && canABPosition`; "Clear AB" is enabled exactly when `canClick`, so it is enabled whenever the set buttons are |

## Left out

- Socket and controller I/O. Motor-power requests are recorded as a list of modes, and the reply to a mode query is a parameter. The program upload and run (the Blob/File, the transport callbacks and the `!gcodeFile` guard) are not modelled.
- React state timing. `setShowHomeTip` and `setSetupCoordinateMethod` are applied immediately and in order. The asynchronous hook scheduling and the effect dependencies are not modelled. `setControlPanelCoordinateMethod` (turn the hold on, home, select the method) is not modelled.
- The definition manager. Creating, updating and removing persisted definitions are taken to succeed, and `createDefinition` is taken to return the definition it was given. A falsy result, which the source skips, is not modelled.
- DuplicateToolCategoryDefinition: the loop mutates the filtered objects of `state.toolDefinitions` themselves. The model copies them instead, so that side effect on the previous store array is not captured. The returned list is unaffected.
- In-place `splice` on the store's array. `updateToolListDefinition`, `updateToolDefinitionName` and `removeToolListDefinition` edit `state.toolDefinitions` in place. The model returns the new list as a value, so the aliasing of the old store array is not captured.
- RenameCategoryDefinitions: its result is characterised completely only when ids are unique. With duplicate ids, only the kept length and ids and the absence of the old category are stated.
- UpdateToolDefinitionName: `newName` is a string. The `!newName` test for `null`/`undefined` is covered only as the empty string.
- SVG and DOM construction. This covers the mask element trees, path strings, colours and marker tags. It also covers the stale outline that `updateABPositionMask` leaves behind when redrawing without it: the model keeps one `highlighted` flag. The overlay's position in the scene (the multiply factors) is not modelled either.
- Raster and texture work: converting the overlay to a canvas, the background texture, and the scene render call.
- Editor side effects of `removeBackgroundImage`: the scene group being emptied, the operation log and the render call are not modelled. `editorActions.clearBackgroundImage` is not part of this model. It is assumed to remove the A/B position overlay element, which is why `RemoveBackgroundImage`, `clearAB` and the removal branch of `updateABpositionBackground` leave no overlay. That in turn makes the next `_updateTmpPosition` create a fresh one.
- i18n. Rejections are error values (`EmptyName`, `NameAlreadyExists`). The default material name is a parameter.
- IEEE-754 detail. Numbers are reals. Infinities and negative zero are not represented, and number-to-text conversion is the parameter `numStr`.
- Timestamps. `timestamp()` is the parameter `stamp(i)`.
- ControlPanelExample: states the length, the preamble, the return line and the last line of that program rather than the whole line list. The corner lines are the same as in ManualExample and are stated by ExampleLayout.
- The work range `axisWorkRange` is taken to be present. An absent range makes the source throw a TypeError at the first corner move, before a program is returned.
- Reduce: the default parameter `state = INITIAL_STATE` (the reducer's first call with an `undefined` state) is not modelled; `Reduce` always receives a state.
- The static machine catalogue and the WebGL renderer wrapper are not part of this model.
