# Bridge additional-inputs: deck geometry, dependent fields and the input dock

A Dafny model of the logic inside the bridge design input panels. The panels are built with
PySide6, but three pieces of real logic sit inside them, and this model covers those three.

- **Deck-geometry reconciliation.** This is modelled twice, as the source has it:
  - `BridgeGeometryTab` in `src/osbridge/additional_inputs.py`, with the railing width in
    metres;
  - `TypicalSectionDetailsTab` in `src/osbridge/ui/additional_inputs.py`, with the railing
    width in millimetres and a read-only display of the overall width.

  Both tabs work the same way:
  - they derive the overall bridge width from the carriageway, footpath, crash-barrier and
    railing widths;
  - they compute the number of girders from the girder spacing and the deck overhang, and the
    spacing back from the number of girders;
  - they keep the two computations from triggering each other through an `updating_fields`
    flag.
- **Dependent-field rules.** These are the optimisable field's mode switch, the footpath
  thickness pre-fill, the IRC 5 minimum checks and the barrier-type check, the railing-load
  mode, the lane-details table, the section navigation and the end-diaphragm type switch.
- **The input dock's field list.** This covers label equalising, the choice of validator, and
  the grouping of entries under their titles in `build_left_panel`.

## Modules

| Module | File | Contents |
|---|---|---|
| `Fields` | `fields.dfy` | What a handler sees in a field. A line edit holds `Empty`, `Number(r)`, or text that `float` rejects; the count field is the same under `int`. Also Python's `round` (half to even) and `str` of a non-negative integer, with its inverse. |
| `Girders` | `girders.dfy` | The rules both tabs share: the girder count from the spacing and the overhang, the spacing from the count, the footpath count, the minimum checks, and the dialogs, recorded as `Alert` values. |
| `AdditionalInputs` | `additional_inputs.dfy` | The older widgets: `BridgeGeometryTab`, `OptimizableField` and `EndDiaphragmDetailsTab`. |
| `UiTypicalSection` | `ui_typical_section.dfy` | The newer `TypicalSectionDetailsTab`. |
| `UiSections` | `ui_sections.dfy` | The newer `OptimizableField`, `SectionPropertiesTab` and `EndDiaphragmDetailsTab`. |
| `InputDock` | `input_dock.dfy` | `equalize_label_length`, `get_validator` and the grouping loop of `build_left_panel`. |

How the tab classes are modelled:
- Each tab class keeps its field values as fields of the class.
- `View()` reads them as a datatype.
- Every handler is a method whose `ensures` ties the new view to a pure transition function of
  the old view. The properties are lemmas about those functions.
- A handler that writes the count or the spacing field calls that field's change handler
  directly, because the toolkit's text-changed signal is delivered synchronously.
- The `updatingFields` flag is what ends that chain. The methods' `decreases` clauses (the flag
  first, then a rank per handler) prove that the chain ends.
- `UiTypicalSection` repeats the older tab's transition functions (`AfterGirderSpacingChanged`,
  `AfterDeckOverhangChanged`, `AfterNoOfGirdersChanged`) over its own state, because the newer
  source file repeats those handlers rather than sharing them.

Quantities are exact `real`s. The defaults and the IRC 5 minimums (`DEFAULT_GIRDER_SPACING`,
`MIN_FOOTPATH_WIDTH` and so on) are not fixed in the source shown, so they are parameters of
each tab (`Defaults`, `Minimums`).

## Model

| member | source | states |
|---|---|---|
| Fields.ReadOr | src/osbridge/additional_inputs.py:442-443 | An empty field reads as its default, a number reads as itself, and text `float` rejects is the only failure. |
| Fields.RoundHalfEven | src/osbridge/additional_inputs.py:452 | Python `round`: the result is within one half of its argument, and a tie goes to the even neighbour. |
| Fields.RoundHalfEvenOfInteger | src/osbridge/ui/additional_inputs.py:718 | `round` leaves a whole number unchanged. |
| Fields.NatToString | src/osbridge/ui/additional_inputs.py:829 | `str(n)` is a non-empty string of decimal digits without a leading zero, and `"0"` for 0. |
| Fields.DigitsValueOfNatToString | src/osbridge/ui/additional_inputs.py:829 | Reading the digits of `str(n)` back gives `n`. |
| Fields.NatToStringInjective | src/osbridge/ui/additional_inputs.py:828-831 | Distinct rows get distinct lane numbers. |
| Girders.FootpathCount | src/osbridge/additional_inputs.py:417 | At most 2 footpaths, and none when the footpath setting is "None". |
| Girders.GirderCount | src/osbridge/additional_inputs.py:446-456 | The count is cleared exactly when the spacing or the overhang reaches the overall width. A count that is set is at least 2, and it is one more than the nearest whole number of spacings in the clear width, a tie going to the even one as `round` does. The count is left alone exactly when neither guard applies and the spacing is not positive or the clear width is at most half a spacing. |
| Girders.CountUpdateFor | src/osbridge/additional_inputs.py:440-458 | Text that does not parse leaves the count alone (the swallowed exception). Otherwise each field is read on its own: a number is used as given and an empty field takes its default. |
| Girders.ApplyCount | src/osbridge/additional_inputs.py:446-456 | A clear empties the field, a set writes the count, and a keep leaves the old text. |
| Girders.SpacingFor | src/osbridge/additional_inputs.py:509 | `n - 1` bays of the new spacing exactly fill the clear width. |
| Girders.SpacingUpdateFor | src/osbridge/additional_inputs.py:496-509 | A count below 2 is rejected exactly when one is typed. The spacing is rewritten exactly when the count is at least 2 and the overhang parses, and it is then the spacing for that count. |
| Girders.AlertsAfterCheck | src/osbridge/additional_inputs.py:521-552 | A minimum check adds its own dialog exactly when the field holds a number below the minimum. An empty field or text that does not parse adds nothing, and earlier dialogs stay. |
| Girders.FilledThickness | src/osbridge/additional_inputs.py:554-557 | An empty footpath thickness takes the deck thickness. A non-empty one is never overwritten. |
| Girders.FilledThicknessIdempotent | src/osbridge/ui/additional_inputs.py:800-802 | A second pre-fill is a no-op. |
| Girders.CountSpacingCount | src/osbridge/additional_inputs.py:507-512 | Count to spacing to count: the spacing written for `n` girders recalculates to `n` again, whenever the recalculation's guards let it through. |
| Girders.SpacingCountSpacing | src/osbridge/additional_inputs.py:450-456 | Spacing to count to spacing is exact when the spacing divides the clear width into whole bays. |
| Girders.SpacingNotRecoveredInGeneral | src/osbridge/additional_inputs.py:450-456 | Otherwise the spacing is not recovered: 2.5 m over 6.5 m gives 4 girders, and 4 girders give 6.5/3 m. |
| Girders.HalfBayRoundsToEven | src/osbridge/additional_inputs.py:452 | A clear width of exactly 2.5 spacings gives 3 girders, not 4, because the tie rounds to even. |
| AdditionalInputs.OverallWidth | src/osbridge/additional_inputs.py:408-433 | The overall width is the carriageway, plus k footpath widths, plus two barriers, plus two railings when there is a footpath. An empty footpath width counts as 0, and empty barrier and railing widths take their defaults. Any text that does not parse gives exactly the carriageway width. |
| AdditionalInputs.NoFootpathIgnoresFootpathAndRailing | src/osbridge/additional_inputs.py:414-429 | With no footpath, the width does not depend on the footpath or railing fields. |
| AdditionalInputs.EmptyFieldsReadAsDefaults | src/osbridge/additional_inputs.py:415-427 | An empty footpath width acts as 0, and empty barrier and railing widths act as their defaults. |
| AdditionalInputs.Recalculated | src/osbridge/additional_inputs.py:435-458 | With the flag up, nothing changes. Otherwise only the count field changes, as the girder-count rules decide, and the flag is unchanged on exit. |
| AdditionalInputs.AfterGirderSpacingChanged | src/osbridge/additional_inputs.py:460-474 | Editing the spacing never rewrites the spacing. Only the count and the dialogs can change, and dialogs are only added. |
| AdditionalInputs.SpacingAtWidthOnlyWarns | src/osbridge/additional_inputs.py:464-472 | A spacing typed at or above the overall width adds one warning and changes nothing else, so a stale count stays; only a recalculation over the same fields clears it. |
| AdditionalInputs.AfterDeckOverhangChanged | src/osbridge/additional_inputs.py:476-490 | The same for the overhang. |
| AdditionalInputs.AfterNoOfGirdersChanged | src/osbridge/additional_inputs.py:492-514 | Editing the count never rewrites the count, because the spacing handler it triggers is blocked by the flag. Only the spacing and the dialogs change. |
| AdditionalInputs.RecalculateIdempotent | src/osbridge/additional_inputs.py:435-458 | A second recalculation changes nothing. |
| AdditionalInputs.CountEditSurvivesRecalculation | src/osbridge/additional_inputs.py:492-512 | A count typed by the user survives any later recalculation over the same fields. Writing the spacing does not itself recalculate, because the flag is up while it is written. |
| AdditionalInputs.WorkedExample | src/osbridge/additional_inputs.py:408-456 | Carriageway 7.5 m with no footpath and 0.5 m barriers gives a width of 8.5 m; a 2.5 m spacing and a 1.0 m overhang then give 4 girders. |
| AdditionalInputs.BridgeGeometryTab.constructor | src/osbridge/additional_inputs.py:58-63 | Built with the defaults and then recalculated once. |
| AdditionalInputs.BridgeGeometryTab.UpdateFootpathValue | src/osbridge/additional_inputs.py:400-405 | The footpath group is shown exactly when there is a footpath, and the safety-kerb group exactly when there is none; then the tab recalculates. |
| AdditionalInputs.BridgeGeometryTab.RecalculateGirders | src/osbridge/additional_inputs.py:435-458 | The new state is `Recalculated` of the old one, including the nested count handler. |
| AdditionalInputs.BridgeGeometryTab.OnGirderSpacingChanged | src/osbridge/additional_inputs.py:460-474 | A spacing at or above the overall width only warns. Text that does not parse does nothing, and anything else recalculates. |
| AdditionalInputs.BridgeGeometryTab.OnDeckOverhangChanged | src/osbridge/additional_inputs.py:476-490 | The same for the overhang. |
| AdditionalInputs.BridgeGeometryTab.OnNoOfGirdersChanged | src/osbridge/additional_inputs.py:492-514 | A count below 2 only warns. A count of 2 or more rewrites the spacing with the flag raised. |
| AdditionalInputs.BridgeGeometryTab.OnFootpathWidthChanged | src/osbridge/additional_inputs.py:516-519 | Recalculates unless the flag is up. |
| AdditionalInputs.BridgeGeometryTab.ValidateFootpathWidth | src/osbridge/additional_inputs.py:521-530 | IRC 5 Clause 104.3.6: a footpath narrower than the minimum raises one error. |
| AdditionalInputs.BridgeGeometryTab.ValidateRailingHeight | src/osbridge/additional_inputs.py:532-541 | IRC 5 Clauses 109.7.2.3 and 109.7.2.4: a railing lower than the minimum raises one error. |
| AdditionalInputs.BridgeGeometryTab.ValidateSafetyKerbWidth | src/osbridge/additional_inputs.py:543-552 | IRC 5 Clause 101.41: a safety kerb narrower than the minimum raises one error. |
| AdditionalInputs.BridgeGeometryTab.UpdateFootpathThickness | src/osbridge/additional_inputs.py:554-557 | Only the footpath thickness changes, to `FilledThickness` of the deck and footpath thicknesses. |
| AdditionalInputs.BridgeGeometryTab.OnCrashBarrierTypeChanged | src/osbridge/additional_inputs.py:559-563 | IRC 5 Clause 109.6.4: a flexible or semi-rigid barrier without a footpath raises one error, and nothing else changes. |
| AdditionalInputs.OptimizableField.constructor | src/osbridge/additional_inputs.py:20-38 | The input starts disabled and empty. |
| AdditionalInputs.OptimizableField.OnModeChanged | src/osbridge/additional_inputs.py:40-46 | "Optimized" disables and clears the input. Any other mode enables it and keeps its text. |
| AdditionalInputs.EndDiaphragmDetailsTab.constructor | src/osbridge/additional_inputs.py:1472 | Visibility follows the initial type. |
| AdditionalInputs.EndDiaphragmDetailsTab.OnTypeChanged | src/osbridge/additional_inputs.py:1474-1484 | The rolled-beam group is shown exactly for "Rolled Beam Section". The plate-girder group is shown for any other type except "Same as cross-bracing". The two are never shown together. |
| UiTypicalSection.OverallWidth | src/osbridge/ui/additional_inputs.py:675-696 | The same formula and fallbacks as the older tab, except that a railing text in millimetres is divided by 1000. An empty railing text takes the default unscaled. |
| UiTypicalSection.RailingWidthInMillimetres | src/osbridge/ui/additional_inputs.py:686-692 | With `m` millimetres entered, the width equals the older tab's width with `m/1000` metres. With the railing field empty, both tabs give the same width. |
| UiTypicalSection.Recalculated | src/osbridge/ui/additional_inputs.py:698-724 | With the flag up, nothing changes. Otherwise the display shows the overall width, and the count follows the shared rules. Nothing else changes. |
| UiTypicalSection.AfterGirderSpacingChanged | src/osbridge/ui/additional_inputs.py:726-739 | Editing the spacing never rewrites it. Only the count, the display and the dialogs change, and dialogs are only added. |
| UiTypicalSection.SpacingAtWidthOnlyWarns | src/osbridge/ui/additional_inputs.py:729-737 | The same for the newer tab: one warning, and the stale count stays. |
| UiTypicalSection.AfterDeckOverhangChanged | src/osbridge/ui/additional_inputs.py:741-754 | The same for the overhang. |
| UiTypicalSection.AfterNoOfGirdersChanged | src/osbridge/ui/additional_inputs.py:756-774 | Editing the count never rewrites the count. Only the spacing and the dialogs change. |
| UiTypicalSection.RecalculateIdempotent | src/osbridge/ui/additional_inputs.py:706-724 | A second recalculation changes nothing, including the display. |
| UiTypicalSection.CountEditSurvivesRecalculation | src/osbridge/ui/additional_inputs.py:756-772 | A count typed by the user survives any later recalculation over the same fields, and that recalculation shows the overall width. Writing the spacing does not itself recalculate. |
| UiTypicalSection.TypicalSectionDetailsTab.constructor | src/osbridge/ui/additional_inputs.py:172-177 | Built with the defaults, the railing default in millimetres, the minimum footpath width and one lane row; then recalculated once. |
| UiTypicalSection.TypicalSectionDetailsTab.UpdateFootpathValue | src/osbridge/ui/additional_inputs.py:667-672 | The footpath width and thickness are editable exactly when there is a footpath; then the tab recalculates. |
| UiTypicalSection.TypicalSectionDetailsTab.UpdateOverallBridgeWidthDisplay | src/osbridge/ui/additional_inputs.py:698-704 | The display shows the overall width, and nothing else changes. |
| UiTypicalSection.TypicalSectionDetailsTab.RecalculateGirders | src/osbridge/ui/additional_inputs.py:706-724 | The new state is `Recalculated` of the old one. |
| UiTypicalSection.TypicalSectionDetailsTab.OnGirderSpacingChanged | src/osbridge/ui/additional_inputs.py:726-739 | The new state is `AfterGirderSpacingChanged` of the old one. |
| UiTypicalSection.TypicalSectionDetailsTab.OnDeckOverhangChanged | src/osbridge/ui/additional_inputs.py:741-754 | The new state is `AfterDeckOverhangChanged` of the old one. |
| UiTypicalSection.TypicalSectionDetailsTab.OnNoOfGirdersChanged | src/osbridge/ui/additional_inputs.py:756-774 | The new state is `AfterNoOfGirdersChanged` of the old one. |
| UiTypicalSection.TypicalSectionDetailsTab.OnFootpathWidthChanged | src/osbridge/ui/additional_inputs.py:776-778 | Recalculates unless the flag is up. |
| UiTypicalSection.TypicalSectionDetailsTab.ValidateFootpathWidth | src/osbridge/ui/additional_inputs.py:780-788 | IRC 5 Clause 104.3.6 minimum footpath width. This tab never connects the method to a signal, so it is modelled but never called. |
| UiTypicalSection.TypicalSectionDetailsTab.ValidateRailingHeight | src/osbridge/ui/additional_inputs.py:790-798 | IRC 5 Clauses 109.7.2.3 and 109.7.2.4 minimum railing height. |
| UiTypicalSection.TypicalSectionDetailsTab.UpdateFootpathThickness | src/osbridge/ui/additional_inputs.py:800-802 | Only the footpath thickness changes, to `FilledThickness` of the deck and footpath thicknesses. |
| UiTypicalSection.TypicalSectionDetailsTab.OnCrashBarrierTypeChanged | src/osbridge/ui/additional_inputs.py:804-807 | IRC 5 Clause 109.6.4: a flexible or semi-rigid barrier without a footpath raises one error. |
| UiTypicalSection.TypicalSectionDetailsTab.OnRailingLoadModeChanged | src/osbridge/ui/additional_inputs.py:809-815 | A mode starting with "Automatic" locks and clears the load value. Any other mode unlocks it and keeps its text. Nothing else changes. |
| UiTypicalSection.LaneCellsAfter | src/osbridge/ui/additional_inputs.py:820-835 | The table gets `int(count)` rows, or 1 when that fails; a negative count leaves the table as it was. Column 0 of row r holds `str(r + 1)`. Every other existing cell keeps its item, and missing cells are created empty. |
| UiTypicalSection.LaneCellsAfterIdempotent | src/osbridge/ui/additional_inputs.py:820-835 | Updating the table twice for the same count is the same as updating it once. |
| UiTypicalSection.TypicalSectionDetailsTab.UpdateLaneDetailsRows | src/osbridge/ui/additional_inputs.py:820-835 | The loops leave the table as `LaneCellsAfter` of the old table, and nothing else changes. |
| UiTypicalSection.TypicalSectionDetailsTab.OnLaneCountChanged | src/osbridge/ui/additional_inputs.py:817-818 | The table becomes `LaneCellsAfter` of the old table, and nothing else changes. |
| UiSections.OptimizableField.constructor | src/osbridge/ui/additional_inputs.py:130-150 | Starts disabled and hidden, then follows the selector's initial mode. |
| UiSections.OptimizableField.OnModeChanged | src/osbridge/ui/additional_inputs.py:152-160 | "Optimized" and "All" disable, clear and hide the input. Any other mode enables and shows it and keeps its text. |
| UiSections.CountTrue | src/osbridge/ui/additional_inputs.py:937-941 | The number of checked buttons is at most the number of buttons. |
| UiSections.OnlySelectedButtonChecked | src/osbridge/ui/additional_inputs.py:937-941 | When exactly the button at `index` is checked, one button is checked for an index in range and none otherwise. |
| UiSections.SectionPropertiesTab.constructor | src/osbridge/ui/additional_inputs.py:926-935 | The first page is shown, and exactly one button, the first, is checked. |
| UiSections.SectionPropertiesTab.SwitchSection | src/osbridge/ui/additional_inputs.py:937-941 | For an index in range, the stack shows that page and exactly that button is checked. For an index out of range, the page stays and every button is unchecked. |
| UiSections.EndDiaphragmDetailsTab.constructor | src/osbridge/ui/additional_inputs.py:1372 | Visibility and the spacing lock follow the initial type, over 6 plate rows. |
| UiSections.EndDiaphragmDetailsTab.OnTypeChanged | src/osbridge/ui/additional_inputs.py:1392-1411 | The rolled-section selector is shown exactly for "Rolled Beam Section", and every plate row exactly for "Plate Girder Section". "Same as cross-bracing" locks and clears the spacing; any other type unlocks it and keeps its text. |
| InputDock.MaxLabelLength | src/osbridge/input_dock.py:147-151 | An upper bound on every padded label's length that is reached by one of them, or 0 when there are none. |
| InputDock.PadRight | src/osbridge/input_dock.py:156 | `ljust` keeps the text as a prefix, appends only spaces, and never shortens. |
| InputDock.Equalized | src/osbridge/input_dock.py:146-161 | The list keeps its length and order, and titles and images are unchanged. Every other label becomes exactly as long as the longest such label, keeping its text as a prefix followed by spaces. Nothing but labels changes. |
| InputDock.EqualizeLabelLength | src/osbridge/input_dock.py:146-161 | The two loops compute `Equalized`. |
| InputDock.EqualizedIdempotent | src/osbridge/input_dock.py:146-161 | Equalising twice is the same as equalising once. |
| InputDock.GetValidator | src/osbridge/input_dock.py:163-169 | Only "Int Validator" and "Double Validator" give a validator. |
| InputDock.IntValidatorAcceptsEveryCount | src/osbridge/input_dock.py:163-164 | The validator `get_validator` returns for "Int Validator" accepts `str(n)` for every non-negative `n`. |
| InputDock.IntValidatorExamples | src/osbridge/input_dock.py:163-166 | That validator accepts "2.50" and refuses "-1", "01" and "1."; the double validator accepts "-1". |
| InputDock.IntAcceptedByDouble | src/osbridge/input_dock.py:163-166 | Text the "Int Validator" accepts, the double validator accepts too. |
| InputDock.RowOf | src/osbridge/input_dock.py:270-309 | Combo boxes of either kind become combo rows. A text box's validator is the one its name selects. |
| InputDock.ScanAll | src/osbridge/input_dock.py:231-309 | Before any title no group is open and none is closed. A failure points into the list. |
| InputDock.BuildLeftPanel | src/osbridge/input_dock.py:229-313 | The loop, as written, computes `PanelAsWritten`. |
| InputDock.FailureSticks | src/osbridge/input_dock.py:270-309 | Once a row finds no open group, the rest of the list cannot change the outcome. |
| InputDock.ScanKeepsEverything | src/osbridge/input_dock.py:231-309 | Every row and every title read so far is in the groups built, in order. A group is open exactly when a title has been read. |
| InputDock.GroupedKeepsEveryRow | src/osbridge/input_dock.py:231-313 | The intended grouping fails exactly when a row comes before every title. Otherwise its groups hold every row in order, and one group per title. |
| InputDock.AsWrittenAgreesUnlessModuleLast | src/osbridge/input_dock.py:311-313 | When the list ends in a title or a row, the loop as written builds the intended groups. |
| InputDock.ModuleLastDropsLastGroup | src/osbridge/input_dock.py:236-237 | When the list ends in a module entry, the loop as written loses the last intended group. |
| InputDock.ModuleLastExample | src/osbridge/input_dock.py:236-237 | A title, a text box and then a module entry: the panel as written is empty, while the intended panel has the text box's group. |

## Left out

- Number formatting is not modelled. The tabs write the new spacing with `f"{x:.3f}"` and the
  overall-width display the same way; the model writes the exact value. So the model says
  nothing about the rounding that three decimals add to the count-to-spacing-to-count round
  trip.
- Floating point is not modelled. Quantities are exact reals, and `float(text)` is abstracted
  to `Empty`, `Number` or a parse failure.
- Dialogs (`QMessageBox`) are recorded as `Alert` values appended to the tab, and are not
  shown.
- The `footpath_changed` signal that `update_footpath_value` emits is not modelled. Its
  receiver belongs to another widget.
- Qt signal dispatch in general is not modelled. Only the synchronous re-entry through the
  count and spacing fields is, because it is what `updating_fields` guards. A `setText` that
  does not change the text may or may not signal in the toolkit; either way, the handlers it
  could reach do nothing in that state.
- UiTypicalSection.TypicalSectionDetailsTab.constructor: the model starts from the
  finished layout. It does not model the recalculations fired while the layout is still
  being built, before the barrier and railing fields exist. Those can leave a count that the
  final recalculation keeps only when that recalculation neither sets nor clears the count.
- UiTypicalSection.TypicalSectionDetailsTab.UpdateLaneDetailsRows: lane-number cells are
  made read-only in the source. The model keeps the cell text, not item flags.
- `on_railing_load_mode_changed` and `_update_lane_details_rows` return early when their
  widgets do not exist yet. The model starts after construction, when they always exist.
- UiSections.EndDiaphragmDetailsTab.constructor: the model starts from the 6 plate rows the
  layout creates, not from the widget construction.
- Widget construction, style sheets, size policies, scroll areas, placeholder tabs and
  `template_page.py` are presentation only and are not modelled.
- Image loading for image rows (`QPixmap`) is a library call. The model keeps only the path.
- `src/osbridge/backend.py` and the lookup table in `src/osbridge/common.py` are not part of
  this model. They hold canned data and constants only.
- The other tabs' handlers (`on_girder_type_changed`, `on_long_req_changed`,
  `on_bracing_type_changed`) are not part of this model.
- InputDock.IntValidatorExamples: only the acceptance of finished text is modelled, not how
  the toolkit treats text that is still being typed.
- InputDock.Accepts: for the double validator only plain decimal notation with an optional
  minus sign is modelled. The scientific notation, plus sign and locale separators that
  `QDoubleValidator` may also take are the toolkit's rules and are not modelled.
- InputDock.Field: a field-list entry is a record with every component. Malformed tuples
  (too short, wrong types) are not modelled.

## Findings

| source | as written | input that shows it | evidently intended | confidence | as-written member | corrected member |
|---|---|---|---|---|---|---|
| src/osbridge/input_dock.py:236-237, 311-313 | A module entry `continue`s past the last-entry check, so a field list whose last entry is a module entry never adds its last group to the panel. | A title, a text box, then a module entry: the panel shows no group. | Every group is added whatever kind the last entry is, so every row is shown under its title. | not executed; the lists in the repository put the module entry first, where this does not show | InputDock.ModuleLastExample | InputDock.GroupedKeepsEveryRow |
