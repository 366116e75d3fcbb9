# LibrePCB footprint pads, the pad edit command and the Excellon generator, in Dafny

This project models three parts of LibrePCB and proves properties of the model.

- **`FootprintPad`** is the pad of a library package. It has nine value attributes:
  - the package pad UUID;
  - position and rotation;
  - shape, width and height;
  - drill width and drill height;
  - board side.

  It also holds an optional, non-owning pointer to a registered graphics item. Each setter assigns its field. If an item is registered, the setter then tells the item what changed. The pad also answers queries for its layer name, its outline for a given expansion and its painter path. It writes itself as an S-expression, compares with `==` and assigns with `=`.
- **`CmdFootprintPadEdit`** is the undo command that edits one pad.
  - It snapshots the nine attributes as the old values. Its setters stage new values and may apply each one to the pad at once for live feedback.
  - `performExecute`, `performUndo` and `performRedo` replay the new or the old snapshot onto the pad through the pad's setters.
  - Destroying a command that was never executed rolls the pad back.
- **`ExcellonGenerator`** writes an Excellon NC drill file.
  - It collects drills and slots in multimaps keyed by diameter, and keeps a tool list without duplicates.
  - `generate` sorts the tool list and writes the file:
    - an `M48` header with `FMAT,2` and `METRIC,TZ`;
    - one `T<n>C<diameter>` line per tool;
    - `%`, `G90`, `G05` and `M71`;
    - for every tool, `T<n>` followed by its drills `X..Y..` and its slots `X..Y..G85X..Y..`;
    - finally `T0` and `M30`.

## Files

- `geometry.dfy` (module `Geometry`) holds the shared value types:
  - lengths as integer nanometres, and positive lengths;
  - points, angles and UUIDs;
  - `Path` as the factory that built it (`Empty`, `Obround`, `CenteredRect`, `Octagon`) with its size.
- `footprint_pad.dfy` (module `FootprintPads`) holds:
  - `PadData`, the nine attributes as one value, with the pad's queries;
  - `Edit`, one setter call as a value;
  - `Apply`, `Emitted`, `ApplyAll` and `EmittedAll`: what setter calls do to the attributes and which notifications they send;
  - `View`, what a graphics item shows;
  - the `FootprintPad` class. Its fields are the source's fields. Its graphics item keeps the sequence of calls it received as a ghost trace.
- `pad_edit_command.dfy` (module `PadEditCommand`) holds the `CmdFootprintPadEdit` class. Its fields are a reference to the pad, the old and new snapshots, and the `wasEverExecuted` flag of the undo command base. `Replay(values)` is the list of nine setter calls that undo and redo make, in the source's order.
- `excellon.dfy` (module `Excellon`) holds:
  - `Line`, one appended line of the file;
  - `Render`, the text of a list of lines;
  - multimaps as insertion-ordered sequences of pairs;
  - the file as a function `Document`;
  - `Machine`, a reader of the file that declares tools, selects them and makes holes;
  - the `ExcellonGenerator` class. Its `output`, `drills`, `slots` and `tools` fields are `mOutput`, `mDrillList`, `mSlotList` and `mToolList`.

The main results:
- Any sequence of setter calls keeps a registered graphics item showing the pad: `EditsKeepViewInSync`.
- Undo and redo leave the pad holding exactly the old or the new snapshot, whatever it held before, and they notify the item of all nine setter calls: `PerformUndo`, `PerformRedo` and `ReplayRestores`.
- A machine that reads a generated file declares tool `i + 1` with the `i`-th sorted diameter. It makes every recorded drill and every recorded slot exactly once, with the tool of its own diameter: `GeneratedFileMakesEveryHole` and `ExcellonGenerator.Generate`.

The command's destructor (`cmdfootprintpadedit.cpp:62-70`) calls `performUndo` whenever the command was never executed. It then writes all nine old values back, and with an item registered it sends the notifications of all nine setters, even if nothing was applied immediately. `CmdFootprintPadEdit.Destroy` states this behaviour.

## Model

| member | source | states |
|---|---|---|
| FootprintPads.PadData.Outline | libs/librepcb/library/pkg/footprintpad.cpp:116-135 | The outline is empty exactly when the expanded width or height is not positive. Otherwise it has the expanded size (size plus twice the expansion), and its kind (obround, centered rectangle, octagon) is the one the shape selects. |
| FootprintPads.OutlineWithoutExpansion | libs/librepcb/library/pkg/footprintpad.cpp:116-135 | With no expansion the outline is never empty and has the pad's own width and height. |
| FootprintPads.OutlineGrowsWithExpansion | libs/librepcb/library/pkg/footprintpad.cpp:116-135 | A larger expansion never empties a non-empty outline. It keeps its kind, and both dimensions grow by twice the difference. |
| FootprintPads.PadData.LayerName | libs/librepcb/library/pkg/footprintpad.cpp:94-106 | A top pad is drawn on the top copper layer, a bottom pad on the bottom copper layer and a through-hole pad on the THT pads layer. The layer is a copper layer exactly when the pad is single-sided. |
| FootprintPads.PadData.IsOnLayer | libs/librepcb/library/pkg/footprintpad.cpp:108-114 | A pad is only ever on copper layers. The top copper layer holds top and through-hole pads, the bottom copper layer holds bottom and through-hole pads, and an inner copper layer holds exactly the through-hole pads. |
| FootprintPads.PadData.PainterPathPx | libs/librepcb/library/pkg/footprintpad.cpp:137-145 | The painter path is the outline for the given expansion. A hole is cut out exactly when the pad is through-hole, and that hole is the obround of the drill width and drill height. |
| FootprintPads.LayerNameDeterminesSide | libs/librepcb/library/pkg/footprintpad.cpp:94-106 | The layer name is one-to-one on board sides: top copper, bottom copper and the THT pads layer. |
| FootprintPads.SingleSidedPadIsOnItsLayerOnly | libs/librepcb/library/pkg/footprintpad.cpp:94-114 | A top or bottom pad lies on a copper layer, its own. It is on a layer if and only if that layer is its layer name. |
| FootprintPads.ThroughHolePadIsOnEveryCopperLayer | libs/librepcb/library/pkg/footprintpad.cpp:108-114 | A through-hole pad is on a layer if and only if the layer is a copper layer, including both outer ones. |
| FootprintPads.HoleIgnoresExpansion | libs/librepcb/library/pkg/footprintpad.cpp:137-145 | A through-hole pad's painter path always subtracts the obround of the drill size, whatever the expansion of the outline. |
| FootprintPads.PadData.Serialize | libs/librepcb/library/pkg/footprintpad.cpp:218-229 | There are exactly seven children, keyed in the file format's order: the UUID token, side, shape, position, rotation, size, drill_size. Each key carries exactly one value, and it is that attribute's value: size is (width, height) and drill_size is (drill width, drill height). Only the position child starts a new line. |
| FootprintPads.SerializeIsInjective | libs/librepcb/library/pkg/footprintpad.cpp:218-229 | Serialization loses no attribute: two pads with the same children are equal. |
| FootprintPads.EditKeepsViewInSync | libs/librepcb/library/pkg/footprintpad.cpp:150-200 | The notification mapping is complete. An item that showed the pad's position, rotation, painter path and layer before a setter call shows them again after that call's notifications. |
| FootprintPads.EditsKeepViewInSync | libs/librepcb/library/pkg/footprintpad.cpp:150-200 | The same holds for any sequence of setter calls. |
| FootprintPads.FootprintPad.constructor | libs/librepcb/library/pkg/footprintpad.cpp:54-71 | The pad holds the nine given attributes and no graphics item. |
| FootprintPads.FootprintPad.Copy | libs/librepcb/library/pkg/footprintpad.cpp:41-52 | The copy has the other pad's nine attributes and no graphics item. |
| FootprintPads.CopyIsEqual | libs/librepcb/library/pkg/footprintpad.cpp:41-52 | A fresh copy compares equal to its original in both directions and has no registered item. |
| FootprintPads.FootprintPad.Destroy | libs/librepcb/library/pkg/footprintpad.cpp:86-88 | A pad may be destroyed only when no graphics item is registered. |
| FootprintPads.FootprintPad.SetPosition | libs/librepcb/library/pkg/footprintpad.cpp:150-153 | Only the position changes and the registration is kept. A registered item receives exactly one position notification carrying the new position. |
| FootprintPads.FootprintPad.SetPackagePadUuid | libs/librepcb/library/pkg/footprintpad.cpp:155-157 | Only the package pad UUID changes. No item is notified, because nothing else is in the frame. |
| FootprintPads.FootprintPad.SetRotation | libs/librepcb/library/pkg/footprintpad.cpp:159-162 | Only the rotation changes. A registered item receives exactly one rotation notification carrying the new rotation. |
| FootprintPads.FootprintPad.SetShape | libs/librepcb/library/pkg/footprintpad.cpp:164-168 | Only the shape changes. A registered item receives exactly one painter path, computed after the change. |
| FootprintPads.FootprintPad.SetWidth | libs/librepcb/library/pkg/footprintpad.cpp:170-174 | Only the width changes. A registered item receives exactly one painter path, computed after the change. |
| FootprintPads.FootprintPad.SetHeight | libs/librepcb/library/pkg/footprintpad.cpp:176-180 | Only the height changes. A registered item receives exactly one painter path, computed after the change. |
| FootprintPads.FootprintPad.SetDrillWidth | libs/librepcb/library/pkg/footprintpad.cpp:182-186 | Only the drill width changes. A registered item receives exactly one painter path, computed after the change. |
| FootprintPads.FootprintPad.SetDrillHeight | libs/librepcb/library/pkg/footprintpad.cpp:188-192 | Only the drill height changes. A registered item receives exactly one painter path, computed after the change. |
| FootprintPads.FootprintPad.SetBoardSide | libs/librepcb/library/pkg/footprintpad.cpp:194-200 | Only the board side changes. A registered item receives the new layer name and then the new painter path. |
| FootprintPads.FootprintPad.RegisterGraphicsItem | libs/librepcb/library/pkg/footprintpad.cpp:206-210 | Only a pad without an item accepts one. Afterwards that item is registered and the attributes are unchanged. |
| FootprintPads.FootprintPad.UnregisterGraphicsItem | libs/librepcb/library/pkg/footprintpad.cpp:212-216 | Only the registered item can be unregistered. Afterwards none is registered and the attributes are unchanged. |
| FootprintPads.FootprintPad.Equals | libs/librepcb/library/pkg/footprintpad.cpp:235-246 | Pads compare equal if and only if all nine attributes are equal. The registration takes no part. |
| FootprintPads.FootprintPad.Assign | libs/librepcb/library/pkg/footprintpad.cpp:248-259 | The pad takes the other pad's nine attributes and keeps its own registration. |
| PadEditCommand.CmdFootprintPadEdit.constructor | libs/librepcb/library/pkg/cmd/cmdfootprintpadedit.cpp:39-60 | Both snapshots equal the pad's current attributes, and the command has not been executed. |
| PadEditCommand.CmdFootprintPadEdit.Destroy | libs/librepcb/library/pkg/cmd/cmdfootprintpadedit.cpp:62-70 | A never-executed command replays all nine old values onto the pad and leaves it holding the old snapshot. An executed command leaves the pad and its item untouched. |
| PadEditCommand.AbandonedEditIsRolledBack | libs/librepcb/library/pkg/cmd/cmdfootprintpadedit.cpp:62-70 | Edits applied at once and then abandoned by destroying the command leave the pad as it was. |
| PadEditCommand.CmdFootprintPadEdit.SetPackagePadUuid | libs/librepcb/library/pkg/cmd/cmdfootprintpadedit.cpp:76-81 | Allowed only before execution. It stages the new UUID, keeps the old snapshot, and makes the pad's setter call if and only if `immediate`. Otherwise the pad and its item are unchanged. |
| PadEditCommand.CmdFootprintPadEdit.SetBoardSide | libs/librepcb/library/pkg/cmd/cmdfootprintpadedit.cpp:83-88 | The same, for the board side. |
| PadEditCommand.CmdFootprintPadEdit.SetShape | libs/librepcb/library/pkg/cmd/cmdfootprintpadedit.cpp:90-95 | The same, for the shape. |
| PadEditCommand.CmdFootprintPadEdit.SetWidth | libs/librepcb/library/pkg/cmd/cmdfootprintpadedit.cpp:97-102 | The same, for the width. |
| PadEditCommand.CmdFootprintPadEdit.SetHeight | libs/librepcb/library/pkg/cmd/cmdfootprintpadedit.cpp:104-109 | The same, for the height. |
| PadEditCommand.CmdFootprintPadEdit.SetDrillWidth | libs/librepcb/library/pkg/cmd/cmdfootprintpadedit.cpp:111-116 | The same, for the drill width. |
| PadEditCommand.CmdFootprintPadEdit.SetDrillHeight | libs/librepcb/library/pkg/cmd/cmdfootprintpadedit.cpp:118-123 | The same, for the drill height. |
| PadEditCommand.CmdFootprintPadEdit.SetPosition | libs/librepcb/library/pkg/cmd/cmdfootprintpadedit.cpp:125-130 | The same, for the position. |
| PadEditCommand.CmdFootprintPadEdit.SetDeltaToStartPos | libs/librepcb/library/pkg/cmd/cmdfootprintpadedit.cpp:132-137 | The staged position becomes the old position plus the delta, discarding any earlier staged position. With `immediate`, exactly that position is applied to the pad. |
| PadEditCommand.CmdFootprintPadEdit.SetRotation | libs/librepcb/library/pkg/cmd/cmdfootprintpadedit.cpp:139-144 | The same as the other staged setters, for the rotation. |
| PadEditCommand.CmdFootprintPadEdit.Rotate | libs/librepcb/library/pkg/cmd/cmdfootprintpadedit.cpp:146-155 | The staged position is rotated about the centre and the angle is added to the staged rotation. With `immediate`, the pad's position setter and then its rotation setter are called with those values. |
| PadEditCommand.CmdFootprintPadEdit.PerformExecute | libs/librepcb/library/pkg/cmd/cmdfootprintpadedit.cpp:161-174 | The pad ends up holding all nine new values. The result is false if and only if the new snapshot equals the old one. The snapshots are unchanged. |
| PadEditCommand.CmdFootprintPadEdit.PerformUndo | libs/librepcb/library/pkg/cmd/cmdfootprintpadedit.cpp:176-186 | The pad ends up holding exactly the old snapshot, through the nine setter calls in the source's order. The snapshots are unchanged. |
| PadEditCommand.CmdFootprintPadEdit.PerformRedo | libs/librepcb/library/pkg/cmd/cmdfootprintpadedit.cpp:188-198 | The pad ends up holding exactly the new snapshot, through the nine setter calls in the source's order. The snapshots are unchanged. |
| PadEditCommand.CmdFootprintPadEdit.ReplayOnPad | libs/librepcb/library/pkg/cmd/cmdfootprintpadedit.cpp:176-198 | The nine setter calls shared by undo and redo leave the pad holding the replayed values, and send a registered item the notifications of those nine calls. |
| PadEditCommand.ReplayRestores | libs/librepcb/library/pkg/cmd/cmdfootprintpadedit.cpp:176-198 | Replaying a snapshot yields that snapshot, from any starting attributes. |
| PadEditCommand.ReplayIsIdempotent | libs/librepcb/library/pkg/cmd/cmdfootprintpadedit.cpp:176-198 | Undoing or redoing twice ends where doing it once does. |
| PadEditCommand.ReplayShowsValues | libs/librepcb/library/pkg/cmd/cmdfootprintpadedit.cpp:176-198 | After a replay, an item that showed the pad shows the replayed values. |
| PadEditCommand.CmdFootprintPadEdit.Execute | libs/librepcb/library/pkg/cmd/cmdfootprintpadedit.cpp:161-174 | The first execution marks the command executed and runs `performExecute`. The snapshots stay as they were. |
| PadEditCommand.HeightEditRoundTrip | libs/librepcb/library/pkg/cmd/cmdfootprintpadedit.cpp:161-198 | A height staged from 1.0 mm to 1.2 mm reports a change. Undo, redo, undo and undo again leave the pad with its original attributes. |
| Excellon.ExcellonGenerator.constructor | libs/librepcb/common/cam/excellongenerator.cpp:38-39 | A new generator has an empty output, no drills, no slots and no tools, and satisfies the tool-list invariant. |
| Excellon.ExcellonGenerator.Drill | libs/librepcb/common/cam/excellongenerator.cpp:48-52 | The drill is appended to the drill multimap. The diameter is appended to the tool list if and only if it was absent. The tool list stays duplicate-free, and its set equals the keys used by drills and slots. |
| Excellon.ExcellonGenerator.Slot | libs/librepcb/common/cam/excellongenerator.cpp:54-58 | The same for a slot, keyed by its width. |
| Excellon.InsertionSort | libs/librepcb/common/cam/excellongenerator.cpp:60-66 | The sort of the tool list returns a sorted permutation of its input. |
| Excellon.SortedPermutationsAreEqual | libs/librepcb/common/cam/excellongenerator.cpp:60-66 | A sorted order is unique: two sorted permutations of each other are equal. |
| Excellon.SortingIsIdempotent | libs/librepcb/common/cam/excellongenerator.cpp:60-66 | Sorting an already sorted tool list leaves it unchanged. |
| Excellon.SortedDistinctIsIncreasing | libs/librepcb/common/cam/excellongenerator.cpp:60-66 | A sorted duplicate-free tool list is strictly increasing. |
| Excellon.SortedToolList | libs/librepcb/common/cam/excellongenerator.cpp:60-66 | Sorting the tool list keeps it duplicate-free with the same diameters. The sorted list is strictly increasing, and an already sorted list is unchanged. |
| Excellon.ExcellonGenerator.Generate | libs/librepcb/common/cam/excellongenerator.cpp:60-66 | Drills and slots are unchanged, and the invariant holds. The tool list becomes a sorted, strictly increasing permutation of itself, unchanged if it was sorted. The output is exactly the file `Document` of the sorted tools. A machine that reads it makes exactly the recorded drills and slots. |
| Excellon.GenerateTwice | libs/librepcb/common/cam/excellongenerator.cpp:60-66 | Generating twice in a row, with the clock read afresh each time, keeps the tool order. The two outputs are the same file apart from the creation-date line, which carries each call's own date. |
| Excellon.DocumentDiffersOnlyInDate | libs/librepcb/common/cam/excellongenerator.cpp:83-101 | Files for the same tools, holes and version have the same length and agree on every line except the fourth, the creation-date line. |
| Excellon.ExcellonGenerator.Rewrite | libs/librepcb/common/cam/excellongenerator.cpp:62-65 | After clearing, the header, the holes and the footer make up exactly the file for the current tool list, whatever the output held before. |
| Excellon.ExcellonGenerator.Reset | libs/librepcb/common/cam/excellongenerator.cpp:72-77 | The output, drills, slots and tool list are all empty. |
| Excellon.ExcellonGenerator.PrintHeader | libs/librepcb/common/cam/excellongenerator.cpp:83-101 | It appends the six header lines, the tool table, and `%`, `G90`, `G05`, `M71`, in that order, to the existing output. |
| Excellon.ExcellonGenerator.PrintToolList | libs/librepcb/common/cam/excellongenerator.cpp:103-108 | It appends one tool definition per tool, number `i + 1` with the `i`-th diameter, in list order. |
| Excellon.Decimal | libs/librepcb/common/cam/excellongenerator.cpp:103-108 | A tool number is written as a non-empty string of decimal digits. |
| Excellon.DecimalRoundTrip | libs/librepcb/common/cam/excellongenerator.cpp:103-108 | Reading the written digits back gives the tool number, so distinct tools get distinct labels. |
| Excellon.ToolNumbersDeclare | libs/librepcb/common/cam/excellongenerator.cpp:103-108 | The tool table declares exactly the numbers 1 to n, number `k` with the `k`-th diameter. |
| Excellon.RunToolTable | libs/librepcb/common/cam/excellongenerator.cpp:103-108 | Reading the tool table leaves a machine with exactly that numbering and nothing else changed. |
| Excellon.ExcellonGenerator.PrintDrills | libs/librepcb/common/cam/excellongenerator.cpp:110-131 | For each tool in order it appends a tool select with the tool's number, then its drills, then its slots, each in the multimap's `values` order (newest first). |
| Excellon.RunDrillSection | libs/librepcb/common/cam/excellongenerator.cpp:110-131 | Reading the tool blocks after the table makes, tool by tool, every hole recorded under that tool's diameter, with that diameter. |
| Excellon.GroupedIsPermutation | libs/librepcb/common/cam/excellongenerator.cpp:110-131 | When every key is a tool, the holes grouped under a duplicate-free tool list are a permutation of all the recorded holes: each one appears exactly once. |
| Excellon.ExcellonGenerator.PrintFooter | libs/librepcb/common/cam/excellongenerator.cpp:133-136 | It appends `T0` and then `M30`. |
| Excellon.RunFooter | libs/librepcb/common/cam/excellongenerator.cpp:133-136 | Reading the footer only deselects the tool. |
| Excellon.DocumentFraming | libs/librepcb/common/cam/excellongenerator.cpp:83-136 | The text of every generated file starts with `M48` and a line feed, and ends with `T0`, a line feed, `M30` and a line feed. |
| Excellon.DeclareTools | libs/librepcb/common/cam/excellongenerator.cpp:83-108 | Reading the header, the tool table and the pattern start declares the numbered tools and does nothing else. |
| Excellon.GeneratedFileMakesEveryHole | libs/librepcb/common/cam/excellongenerator.cpp:60-136 | Read with a duplicate-free tool list that covers every key, the generated file declares tool `i + 1` with the `i`-th diameter. It drills every recorded drill and mills every recorded slot exactly once (as multisets), each with the tool of its diameter. |

## Left out

- The S-expression constructor (`footprintpad.cpp:73-84`) is not modelled. Parsing S-expressions and `Point::fromDrillSExpression` are not part of this model, so no parse/serialize round trip is claimed. `serialize` is modelled as its sequence of children.
- The geometry of `toQPainterPathPx` is kept symbolic, as the outline paired with the obround drill hole. The subtraction of the hole is floating-point geometry. The default expansion argument of `toQPainterPathPx` is taken to be 0, since the header that declares it is not part of this model.
- Layer names are a datatype rather than strings. `OtherLayer` stands only for names that are neither a copper layer nor the THT pads layer, because each of those names has its own constructor. The model does not check this for names given as strings. `GraphicsLayer::isCopperLayer` (`graphicslayer.cpp` is not part of this model) is taken to hold for the top, bottom and inner copper layers.
- `Point::rotate` and the addition of `Angle`s have no visible implementation. They are parameters of `CmdFootprintPadEdit.Rotate`.
- The graphics item class is reduced to the ghost sequence of calls it receives. What it draws is not modelled.
- The `UndoCommand` and `UndoStack` base classes are not part of this model. Their `wasEverExecuted()` flag is a field, and `execute` is reduced to `Execute`. The command's text is not modelled.
- The destructor's `try`/`catch` and its log message are not modelled. The pad setters it reaches cannot fail.
- `Q_ASSERT` checks (registration, destruction, staging only before execution) are preconditions.
- `saveToFile` and the Latin-1 encoding of the output are file I/O and are not modelled.
- `Length::toMmString` is the parameter `mm` of `Render`. How it formats millimetres is not modelled.
- The application version (`qApp->applicationVersion()`) and the creation date (`QDateTime::currentDateTime()`) are the parameters `version` and `creationDate`.
- Lengths and tool numbers are unbounded integers. The 64-bit range of `Length` and the `int` loop counters are not modelled.
- `std::sort` is modelled by the function `InsertionSort`. What is proved is its result, a sorted permutation, not how the library sorts in place.
- Angles are not normalised, because their arithmetic is not part of this model.
