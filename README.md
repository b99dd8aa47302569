# Energy2D core in Dafny

This is a Dafny model of five pieces of Energy2D, a two-dimensional heat-transfer simulator, with proofs of what each piece does.

- **Thermostat** (`org.concord.energy2d.model.Thermostat`): a bang-bang controller. It reads one thermometer and throws the power switch of one part. It asks the model to rebuild its power array after every switch it writes.
- **Tree** (`org.concord.energy2d.model.Tree`): a tree that can be placed in the scene. The model covers its bounding box, location, kind and colour, and its `toXml`, which leaves attributes out.
- **Part properties dialog** (`org.concord.energy2d.view.PartModelDialog`): the OK action. It parses and checks every field, then writes the properties into the part and reshapes the part's outline.
- **System2D** (`org.concord.energy2d.system.System2D`): the controller.
  - It answers manipulation events: delete, run, stop, reset, sun on/off, sun angle up/down.
  - It loads and saves a state in a fixed order of calls.
  - Its calls on its collaborators are recorded in a log. What a call does to the model data the controller sees (parts, thermometers, sun, photons) is either written out or handed in as a parameter.
- **XmlEncoder** (`org.concord.energy2d.system.XmlEncoder`): the save-file writer.

Modules:

| module | contents |
|---|---|
| `Common` | an optional value standing for a nullable reference; `Math.PI`; `String.trim` |
| `Xml` | the written XML as tokens; the tag numbering; `Render` to characters; the lookup, ordering, outline and embed projections |
| `Elements` | parts, thermometers, and the model's power-array refresh counter |
| `Thermostats`, `Trees`, `PartDialog`, `System`, `Encoder` | one module per core class |

How each piece is modelled:

- **Classes whose Java fields change in place are Dafny classes.** Their methods are proved against specification functions:
  - `Thermostat.Control` against `Decide`;
  - `System2D.ManipulationOccured` against `Dispatch`;
  - `Submit` against `Validate`, `Applied` and `Edits`.
- **The encoder has two forms.** `Encode` appends to a buffer step by step, as the source does. It is proved equal to the specification `Encoding`, which is built block by block.
- **The encoder's omission rules become tables.** Each setting has a row: its tag, its value, and when it is written.
  - Which settings appear, with what value and in what order is proved from these tables.
  - That saving then reading back loses nothing is proved from them too (`ModelRoundTrip`, `ViewRoundTrip`).
- **System2D's collaborators are a log plus their effects on the model data.** The model, the view, the worker thread and the streams are outside this model. Each call System2D makes on them is appended to `log`, and the order lemmas are about that log. The model data System2D reads and changes is a `ModelData` record:
  - removing a part or thermometer is written out, as `List.remove`;
  - `clear()` empties the parts, thermometers and photons;
  - the configuration `model.reset()` restores (`initial`) is a parameter;
  - the model data the parse of a document leaves (`loaded`) is a parameter.

Where the description of the system and its code differ, the model follows the code:

- **Thermostat refreshes.** The description asks for a power-array refresh only when the switch actually changes. For a heater of power 5 that starts on and reads 22, 22 and 18, with set point 20 and band 1, that is two refreshes, on the first and third readings. The code asks for a refresh on every reading outside the band, even when the switch already had that setting. `RefreshWithoutChange` shows three refreshes for that series.
- **Sun angle.** The description says the sun angle never leaves [0, pi], whatever it starts at. The code clamps an increase only at pi and a decrease only at 0. An angle below zero therefore stays below zero after an increase (`NegativeAngleStaysNegative`). The range is kept only for an angle that starts in it (`ReplayKeepsAngle`).
- **Redraws.** The description says each event ends with one redraw request. A reset event repaints twice: once inside `reset()` and once at the end of `manipulationOccured` (`DispatchRepaints`).

## Model

| member | source | states |
|---|---|---|
| `Common.TrimEmptyIffBlank` | src/org/concord/energy2d/model/Tree.java:152-156 | `s.trim().equals("")` holds exactly when every character of `s` is at most U+0020 |
| `Common.TrimIsTrimmed` | src/org/concord/energy2d/view/PartModelDialog.java:170-173 | a trimmed uid has no character at most U+0020 at either end |
| `Thermostats.Decide` | src/org/concord/energy2d/model/Thermostat.java:32-57 | one control step writes a switch setting exactly when the part has power and the reading is outside the band. A heater goes off above the band and on below it; a cooler the reverse |
| `Thermostats.DecideWorksAgainstDeviation` | src/org/concord/energy2d/model/Thermostat.java:38-54 | with a non-negative dead band, the switch is set on exactly when the part works against the deviation (heating when cold, cooling when warm), and off exactly when it would work with it |
| `Thermostats.TraceRefreshes` | src/org/concord/energy2d/model/Thermostat.java:33-56 | over any series of readings, the refresh requests equal the readings outside the band for a powered part, and zero for an unpowered one, whose switch is never touched |
| `Thermostats.TraceFollowsLastExcursion` | src/org/concord/energy2d/model/Thermostat.java:38-54 | after a series of readings, a powered part's switch is what its last out-of-band reading decided, whatever came before |
| `Thermostats.RefreshWithoutChange` | src/org/concord/energy2d/model/Thermostat.java:39-56 | a heater of power 5 that starts on and reads 22, 22 and 18, against set point 20 and band 1, is switched off, off and on, with a refresh on each of the three readings |
| `Thermostats.Thermostat.constructor` | src/org/concord/energy2d/model/Thermostat.java:17-28 | the thermostat holds its model, thermometer and power source, with set point 20 and dead band 1 |
| `Thermostats.Thermostat.Create` | src/org/concord/energy2d/model/Thermostat.java:23-29 | refused (null) exactly when the thermometer or the power source is missing; otherwise a new thermostat on them with the defaults |
| `Thermostats.Thermostat.Control` | src/org/concord/energy2d/model/Thermostat.java:32-57 | the switch becomes the setting `Decide` gives for the current power and reading, and is unchanged when it gives none. The power array is refreshed once exactly when a setting is written. The part's other properties are untouched |
| `Thermostats.Thermostat.SetDeadband` | src/org/concord/energy2d/model/Thermostat.java:67-69 | the dead band is the new value; the set point is unchanged |
| `Thermostats.Thermostat.SetSetPoint` | src/org/concord/energy2d/model/Thermostat.java:75-77 | the set point is the new value; the dead band is unchanged |
| `Thermostats.Thermostat.ToXml` | src/org/concord/energy2d/model/Thermostat.java:83-90 | a `thermostat` element with the attributes set_point, deadband, thermometer and power_source, in that order. Each holds its value; a missing uid is written as `null` |
| `Trees.Darker` | src/org/concord/energy2d/model/Tree.java:31 | `darker()` keeps the alpha and never raises a colour channel |
| `Trees.Scaled` | src/org/concord/energy2d/model/Tree.java:31 | a channel scaled by 0.7 and truncated is at most the channel |
| `Trees.Rgb24` | src/org/concord/energy2d/model/Tree.java:158 | `0x00ffffff & getRGB()` is a 24-bit number |
| `Trees.ChannelsOfRgb24` | src/org/concord/energy2d/model/Tree.java:158 | the written hex colour gives back red, green and blue; only the alpha is lost |
| `Trees.DefaultColorIsNotGreen` | src/org/concord/energy2d/model/Tree.java:31 | the initial colour is (0, 178, 0, 255), which is not `Color.green` |
| `Trees.DefaultColorWritten` | src/org/concord/energy2d/model/Tree.java:157-158 | a tree keeping its initial colour writes a color attribute, as the last of its optional attributes, whatever its uid and label |
| `Trees.OptionalNames` | src/org/concord/energy2d/model/Tree.java:150-158 | one optional attribute for each of: a uid shown, a label shown, a colour other than green |
| `Trees.Shown` | src/org/concord/energy2d/model/Tree.java:152 | `s != null && !s.trim().equals("")` holds exactly when the string is present and not blank |
| `Trees.OptionalAttrs` | src/org/concord/energy2d/model/Tree.java:150-158 | uid, then label, then colour, each only under its condition: uid and label only when present and not blank, colour only when not green. The uid and label are written as they are; the colour as its 24-bit hex value |
| `Trees.PlacementNames` | src/org/concord/energy2d/model/Tree.java:159-163 | the always-written attributes are x, y, width, height and type, in that order |
| `Trees.Tree.constructor` | src/org/concord/energy2d/model/Tree.java:28-31 | a new tree is a pine at (0, 0) in the darker green, with no uid or label |
| `Trees.Tree.Create` | src/org/concord/energy2d/model/Tree.java:35-41 | refused exactly when the shape is not a `Rectangle2D.Float`; otherwise a new tree takes the rectangle's width and height, with the defaults |
| `Trees.Tree.SetColor` | src/org/concord/energy2d/model/Tree.java:74-76 | the colour is the new one; nothing else changes |
| `Trees.Tree.TranslateBy` | src/org/concord/energy2d/model/Tree.java:82-85 | the location moves by (dx, dy); nothing else changes |
| `Trees.Tree.SetLocation` | src/org/concord/energy2d/model/Tree.java:87-90 | the location is (x, y); nothing else changes |
| `Trees.Tree.SetX` | src/org/concord/energy2d/model/Tree.java:103-105 | only x changes |
| `Trees.Tree.SetY` | src/org/concord/energy2d/model/Tree.java:111-113 | only y changes |
| `Trees.Tree.SetType` | src/org/concord/energy2d/model/Tree.java:119-121 | only the kind changes |
| `Trees.Tree.SetDimension` | src/org/concord/energy2d/model/Tree.java:127-138 | the box becomes w by h, as `getWidth`/`getHeight` read back; location, kind, colour, uid and label are unchanged |
| `Trees.Tree.Duplicate` | src/org/concord/energy2d/model/Tree.java:141-147 | a new tree of the same size and label, centred on the given point, with a new tree's uid, kind and colour |
| `Trees.Tree.ToXml` | src/org/concord/energy2d/model/Tree.java:149-165 | a `tree` element: its optional attributes in order, then x, y, width, height and type with the tree's values. The count of attributes is five plus the optional ones shown |
| `PartDialog.Parse` | src/org/concord/energy2d/view/PartModelDialog.java:483-491 | NaN (rejected) exactly when `parseFloat` gives NaN or throws; otherwise the parsed number |
| `PartDialog.InitialMode` | src/org/concord/energy2d/view/PartModelDialog.java:385-391 | the dialog opens on constant power iff the part has power; otherwise on constant temperature iff the part's temperature is constant; otherwise on not a heat source |
| `PartDialog.ReadOpticsOk` | src/org/concord/energy2d/view/PartModelDialog.java:86-119 | the optical stage passes exactly when the four numbers parse, each lies in [0, 1], and absorption + reflection + transmission is within 0.01 of one. It then yields the four numbers |
| `PartDialog.ReadShownOk` | src/org/concord/energy2d/view/PartModelDialog.java:142-164 | a field that only some outlines show passes when it is absent or parses, and yields its number when present |
| `PartDialog.ReadPhysicsOk` | src/org/concord/energy2d/view/PartModelDialog.java:121-169 | the thermal, wind and geometry stage passes exactly when each field parses (optional ones when shown) and a shown scale is positive; it yields the parsed values |
| `PartDialog.CheckUidOk` | src/org/concord/energy2d/view/PartModelDialog.java:170-179 | the uid passes exactly when its trimmed text is empty, is the part's own uid, or is not in use; it yields the trimmed text |
| `PartDialog.ReadHeatOk` | src/org/concord/energy2d/view/PartModelDialog.java:181-192 | a constant power source needs its power field to parse, any other mode its temperature field; that number is used |
| `PartDialog.ValidateOkIff` | src/org/concord/energy2d/view/PartModelDialog.java:86-192 | the checks in source order accept exactly the edits that satisfy the order-free acceptance rule |
| `PartDialog.NotANumberRejects` | src/org/concord/energy2d/view/PartModelDialog.java:86-164 | if any field the OK action reads as a number does not parse, the edit is rejected and the dialog stays open. The fields are the four optical ones, the thermal, wind and position ones, each shown geometry field, and the temperature or power field the heating mode selects |
| `PartDialog.TakenUidRejected` | src/org/concord/energy2d/view/PartModelDialog.java:170-179 | once the numeric fields pass, a non-empty uid that differs from the part's own and is in use is refused with that uid |
| `PartDialog.AcceptedProperties` | src/org/concord/energy2d/view/PartModelDialog.java:181-219 | an accepted edit leaves optical coefficients in [0, 1] summing to one within 0.01, and a conductivity of max(value, 1e-9). It also leaves: the constant-temperature flag exactly for that mode; zero power and the new temperature unless the part is a power source; the wind angle in radians; the trimmed uid; the label text; the outline kind |
| `PartDialog.ModeReopens` | src/org/concord/energy2d/view/PartModelDialog.java:181-193 | reopening the dialog after an accepted edit shows the mode chosen, except that a power source given zero power reopens as not a heat source |
| `PartDialog.EditsRules` | src/org/concord/energy2d/view/PartModelDialog.java:195-207 | a rectangle is resized only when width and height are both given; a polygon is rotated only by a non-zero angle and scaled only by a factor other than one; any other outline is left alone |
| `PartDialog.Submit` | src/org/concord/energy2d/view/PartModelDialog.java:86-219 | the result is the validator's verdict on the old properties. A rejection changes nothing and makes no geometry call. An acceptance writes `Applied` and reports `Edits`. The power switch is untouched |
| `System.RemoveFirst` | src/org/concord/energy2d/system/System2D.java:241-246 | `List.remove` shortens the list by one exactly when the element is in it |
| `System.RemoveFirstCounts` | src/org/concord/energy2d/system/System2D.java:241-246 | removal drops one occurrence of the element, if there is one, and keeps every other element's count |
| `System.RemoveFirstSplices` | src/org/concord/energy2d/system/System2D.java:241-246 | removal cuts out the first occurrence and keeps the rest in order |
| `System.RemoveFirstAbsent` | src/org/concord/energy2d/system/System2D.java:241-246 | removing an absent element leaves the list as it was |
| `System.HandleLog` | src/org/concord/energy2d/system/System2D.java:240-270 | the calls the switch makes for each event kind: run, stop, the three of reset, or one power refresh for the sun events; a part removal for deleting a part; none for other deletes or other kinds |
| `System.KindCallsRepaint` | src/org/concord/energy2d/system/System2D.java:240-270 | among the event kinds, only a reset repaints inside the switch |
| `System.DispatchLog` | src/org/concord/energy2d/system/System2D.java:238-280 | an event's calls are the switch's own, then the three array refreshes for a part target, then one repaint |
| `System.DispatchLists` | src/org/concord/energy2d/system/System2D.java:241-246 | a delete removes the first occurrence of a part or thermometer target from its own list, and only there. A reset brings back the lists of the restored configuration. No other event touches either list |
| `System.DispatchKeepsModel` | src/org/concord/energy2d/system/System2D.java:240-271 | running, stopping or an unknown event on a target that is not a part leaves the parts, thermometers, sun and photons as they were |
| `System.DispatchRemovesPart` | src/org/concord/energy2d/system/System2D.java:241-243 | an event asks the model to remove a part exactly when it deletes a part target |
| `System.DispatchRepaints` | src/org/concord/energy2d/system/System2D.java:253-279 | every event keeps the earlier calls and ends with a repaint; except for a reset, that is its only repaint |
| `System.DispatchPhotons` | src/org/concord/energy2d/system/System2D.java:271-278 | the photons are cleared exactly when the target is a part with positive emissivity. Otherwise a reset brings back the restored configuration's photons, and any other event keeps them |
| `System.DispatchPartRefreshes` | src/org/concord/energy2d/system/System2D.java:271-279 | a part target, whatever the event, ends with the material, power and temperature-boundary refreshes, in that order, then the repaint |
| `System.SunShineTwice` | src/org/concord/energy2d/system/System2D.java:256-259 | a sun-shine event flips the sun setting and a second one restores it, whatever the target |
| `System.DispatchKeepsAngle` | src/org/concord/energy2d/system/System2D.java:260-269 | one event keeps a sun angle in [0, pi] within it, provided a reset restores an angle in that range |
| `System.ReplayKeepsAngle` | src/org/concord/energy2d/system/System2D.java:260-269 | any series of events keeps a sun angle that starts in [0, pi] within it, provided each reset restores an angle in that range |
| `System.NegativeAngleStaysNegative` | src/org/concord/energy2d/system/System2D.java:260-263 | an increase clamps only from above: from -1 the angle becomes -1 + pi/18, still negative |
| `System.System2D.Run` | src/org/concord/energy2d/system/System2D.java:114-120 | run hands the model's run loop over, as one call; nothing else changes |
| `System.System2D.Stop` | src/org/concord/energy2d/system/System2D.java:129-131 | one stop call on the model; nothing else changes |
| `System.System2D.Reset` | src/org/concord/energy2d/system/System2D.java:133-137 | the model data becomes `initial`, the configuration `model.reset()` restores; the calls are model reset, view reset, repaint, in that order |
| `System.System2D.Clear` | src/org/concord/energy2d/system/System2D.java:144-148 | the parts, thermometers and photons are emptied and the sun is kept; the calls are model clear, view clear, repaint, in that order |
| `System.System2D.HandleKind` | src/org/concord/energy2d/system/System2D.java:240-270 | the controller's state after the switch is `Handle` of the state before |
| `System.System2D.RefreshForPart` | src/org/concord/energy2d/system/System2D.java:271-278 | the state after the part follow-up is `FollowUp` of the state before, with the target part's emissivity |
| `System.System2D.ManipulationOccured` | src/org/concord/energy2d/system/System2D.java:238-280 | the state after an event is `Dispatch` of the state before, the emissivity being the target part's own |
| `System.System2D.LoadState` | src/org/concord/energy2d/system/System2D.java:175-192 | stop first. A missing stream does nothing more. Otherwise parse and close the stream whatever the parse did. An I/O failure is passed on and skips the stop click; a SAX failure is swallowed. With a stream, the model data becomes `loaded`, what the parse leaves, whatever its outcome. Without one, the model data is unchanged |
| `System.System2D.SaveState` | src/org/concord/energy2d/system/System2D.java:194-203 | stop first. A missing stream does nothing more. Otherwise the stream receives the rendered `Encoding` unless the write fails, and is closed either way. A write failure is passed on. The saved state must have the system's sun setting and sun angle, and as many parts and thermometers as the system. The model data is unchanged |
| `System.System2D.LoadStateApp` | src/org/concord/energy2d/system/System2D.java:168-173 | stop, reset, clear, then `loadState`, with its outcome and close. With a stream, the model data ends as the parse leaves it. Without one, it ends as the reset configuration with its parts, thermometers and photons cleared |
| `System.LoadDiscipline` | src/org/concord/energy2d/system/System2D.java:175-192 | loading stops first. It parses exactly when there is a stream, closes right after the parse, and schedules the stop click exactly when there was no I/O failure |
| `System.SaveDiscipline` | src/org/concord/energy2d/system/System2D.java:194-203 | saving stops first and writes exactly when there is a stream, closing it right after |
| `System.AppLoadOrder` | src/org/concord/energy2d/system/System2D.java:168-173 | stop, then reset (model, view, repaint), then clear (model, view, repaint), then the stop of `loadState`, then the parse when there is a stream |
| `Encoder.Encode` | src/org/concord/energy2d/system/XmlEncoder.java:22-166 | the buffer built step by step is the specified document `Encoding` |
| `Encoder.EncodeModel` | src/org/concord/energy2d/system/XmlEncoder.java:28-101 | the model block: scalar settings, the boundary's output between its tags, then the parts in list order inside `<structure>` when there are any |
| `Encoder.EncodeSensors` | src/org/concord/energy2d/system/XmlEncoder.java:103-111 | every thermometer's output followed by a newline, in list order, between the sensor tags |
| `Encoder.EncodeView` | src/org/concord/energy2d/system/XmlEncoder.java:113-160 | the display settings, then each text box's output in index order, between the view tags |
| `Encoder.EncodeModelScalars` | src/org/concord/energy2d/system/XmlEncoder.java:32-86 | the scalar model settings, each conditional one only under its condition, in source order |
| `Encoder.EncodeViewFields` | src/org/concord/energy2d/system/XmlEncoder.java:116-153 | the display settings, each conditional one only under its condition, in source order |
| `Encoder.EmbedAll` | src/org/concord/energy2d/system/XmlEncoder.java:95-97 | one embedded output per element, the i-th being the i-th output followed by the suffix |
| `Encoder.SizeAndTimingTable` | src/org/concord/energy2d/system/XmlEncoder.java:32-48 | size and timing are written only when they differ from 10, 10, 1, 500 and 100 |
| `Encoder.SolarFieldsTable` | src/org/concord/energy2d/system/XmlEncoder.java:50-59 | `sunny` is written only when the sun shines, with no line break; the five solar settings that follow are always written |
| `Encoder.ConvectionFieldsTable` | src/org/concord/energy2d/system/XmlEncoder.java:61-83 | `convective` is written only when off; each background property only when it differs from air's constant (the temperature: from zero) |
| `Encoder.BuoyancyFieldsTable` | src/org/concord/energy2d/system/XmlEncoder.java:84-86 | both buoyancy settings are always written |
| `Encoder.LayerFlagsTable` | src/org/concord/energy2d/system/XmlEncoder.java:116-127 | grid, ruler, isotherm and rainbow are written only when shown |
| `Encoder.RainbowBoundsTable` | src/org/concord/energy2d/system/XmlEncoder.java:128-134 | the rainbow position is always written; its width and height only when positive; no line breaks |
| `Encoder.TemperatureScaleTable` | src/org/concord/energy2d/system/XmlEncoder.java:135-138 | both ends of the temperature scale are always written |
| `Encoder.DisplayFlagsTable` | src/org/concord/energy2d/system/XmlEncoder.java:139-153 | velocity, streamline and graph are written only when shown; clock and smoothing only when off |
| `Encoder.ModelScalarsTable` | src/org/concord/energy2d/system/XmlEncoder.java:32-86 | the scalar model settings are exactly the written rows of the model table |
| `Encoder.ModelRowsShape` | src/org/concord/energy2d/system/XmlEncoder.java:32-86 | the model table has one row for each of the tags 0 to 18, in the order written |
| `Encoder.ViewFieldsTable` | src/org/concord/energy2d/system/XmlEncoder.java:116-153 | the display settings are exactly the written rows of the view table |
| `Encoder.ViewRowsShape` | src/org/concord/energy2d/system/XmlEncoder.java:116-153 | the view table has one row for each of the tags 19 to 33, in the order written |
| `Encoder.StructureProjections` | src/org/concord/energy2d/system/XmlEncoder.java:92-99 | the structure block holds no setting, has its tags exactly when there are parts, and embeds every part's output in order |
| `Encoder.BoundaryProjections` | src/org/concord/energy2d/system/XmlEncoder.java:88-90 | the boundary block holds no setting and embeds only the boundary's output |
| `Encoder.SensorBlockProjections` | src/org/concord/energy2d/system/XmlEncoder.java:104-111 | the sensor block holds no setting, and embeds each thermometer's output with its newline |
| `Encoder.ModelBlockEmbeds` | src/org/concord/energy2d/system/XmlEncoder.java:88-101 | the model block embeds the boundary's output, then every part's, in list order |
| `Encoder.ViewBlockMarkup` | src/org/concord/energy2d/system/XmlEncoder.java:115-160 | the view block's markup is its two tags, and it embeds the text boxes in index order |
| `Encoder.EncodingLookup` | src/org/concord/energy2d/system/XmlEncoder.java:32-153 | every tag of the save file holds what its table row says: the value when the row's condition holds, nothing otherwise. Model tags never appear in the view |
| `Encoder.EncodingInTagOrder` | src/org/concord/energy2d/system/XmlEncoder.java:32-153 | the settings come in strictly increasing tag order, so each tag is written at most once and every model setting precedes every view setting |
| `Encoder.EncodingOutline` | src/org/concord/energy2d/system/XmlEncoder.java:25-162 | the skeleton: the declaration, then one `state` element holding model, boundary, sensor and view in order, with a structure element exactly when there are parts |
| `Encoder.EncodingEmbeds` | src/org/concord/energy2d/system/XmlEncoder.java:88-159 | the save file embeds the boundary's output, every part's, every thermometer's (each with a newline) and every text box's, each list in its own order |
| `Encoder.DocumentRender` | src/org/concord/energy2d/system/XmlEncoder.java:25-164 | the characters are the declaration, `<state>`, the three blocks in order, then `</state>` |
| `Encoder.ReadModelRows` | src/org/concord/energy2d/system/XmlEncoder.java:32-86 | a reader with the source's defaults recovers every model setting from tokens that hold the model table |
| `Encoder.ReadViewRows` | src/org/concord/energy2d/system/XmlEncoder.java:116-153 | a reader with the source's defaults recovers every display setting from tokens that hold the view table. The exceptions: a rainbow width or height that is not positive, and the text boxes |
| `Encoder.ModelRoundTrip` | src/org/concord/energy2d/system/XmlEncoder.java:32-86 | leaving out a setting at its default loses nothing: reading the save file back gives the saved model settings |
| `Encoder.ViewRoundTrip` | src/org/concord/energy2d/system/XmlEncoder.java:116-153 | reading the save file back gives the saved display settings. The exceptions: a rainbow width or height that is not positive, which the reader keeps from before, and the text boxes, which are not settings |

## Left out

**Not modelled, with the reason:**

- Threads and the event queue. `run()` hands the model's loop to a worker thread, and `loadState` schedules the stop-button click with `EventQueue.invokeLater`. Both are recorded as one call each in the log; their execution is not modelled.
- The SAX parser and its handler. The parse is one logged call, and its outcome (parsed, SAX failure, I/O failure) is a parameter.
- Streams. `close()` cannot fail in this model. The bytes of `getBytes()` are modelled as the characters of the rendered document, so no charset encoding is modelled.
- Java floats. They are modelled as reals, with no NaN, infinity or rounding. Number formatting (`Float.toString`, `Integer.toString`) is a parameter `num` of `Render`.
- `Float.parseFloat` is a parameter of the dialog model, so its grammar is not modelled.
- Air's physical constants (`Constants.AIR_*`) are a parameter `Air` of the encoder, whose values are not fixed here.
- The sub-serialisers: `toXml` of the heat boundary, parts, thermometers and text boxes. The encoder embeds their output as given strings. Only the thermostat's and the tree's `toXml` are modelled.
- XmlEncoder's `thermometers != null` guard. The model's thermometer list always exists, so the null branch is not modelled.
- Tree geometry: `getShape` (the Area outline for each kind), `getCenter` and `contains`.
- The array refreshes and `repaint`. Only their calling order is modelled. Their effects on the material, power and boundary arrays and on the screen are not.
- `DispatchLists`: `removePart` is taken to drop the first occurrence of the part from the part list, as `List.remove` does. Whatever else it updates in the model is not modelled.
- `System.System2D.Reset`: the configuration `model.reset()` restores is a parameter `initial`. How the model computes it, and `view.reset()`, are not modelled.
- `System.System2D.Clear`: `model.clear()` is taken to empty the parts, thermometers and photons and to keep the sun. Its effect on the rest of the model (grid, time, boundaries) and `view.clear()` are not modelled.
- `System.System2D.LoadState`: the model data the parse leaves is a parameter `loaded`. The decoding that produces it is not modelled, nor how much of a document an I/O failure part-way leaves applied.
- `System.System2D.SaveState`: the saved state is tied to the system only by its sun setting, its sun angle and its numbers of parts and thermometers. Its other settings belong to parts of the model and view this model does not hold.
- A SAX parser that fails to build. The constructor swallows the exceptions of building it (System2D.java:84-90), so the parser can stay null, and `loadState` then throws a NullPointerException. The model always has a parser.
- The dialog's message boxes (`JOptionPane`) are not modelled. The rejection reason stands in for them.
- The dialog's `notifyManipulationListeners`, `setSelectedManipulable`, `repaint` and `dispose`, and the construction of its Swing widgets.
- The Polygon2D rotation and scaling, and `resizeManipulableTo`. Each is one reported `GeometryEdit`; its effect on the outline is not modelled.
- Getters that only read a field (`getDeadband`, `getX`, `getType`, `getColor` and the like) have no member of their own.
- `Trees.Tree.constructor`: it takes the uid and label to be null, as the superclass constructor leaves them, because the superclass is not part of this model.
- `Darker`: it scales each channel by the exact 7/10 and truncates. The double arithmetic of `Color.darker()`, with its factor 0.7, is not modelled.
- `PartDialog.Submit`: a heating mode is always selected. With no radio button selected the source writes no heat setting, and the model has no case for that.
- `Thermostats.Thermostat.Create`: the model may be any `Model2D`. The source does not check it for null, and this model has no null model.
- System2D's remaining methods: `init`, `initialize`, `destroy`, the script runner, the button panel and the file bookkeeping (`setCurrentFile` and the like). They are outside the controller's event and load/save logic.
