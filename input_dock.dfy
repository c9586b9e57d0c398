/** The input dock's field list: padding labels to a common width, choosing a line-edit
    validator, and grouping the entries under their titles for the left panel. */
module InputDock {
  import opened Fields

  // Entry kinds of a field list.
  const TypeModule: string := "module"
  const TypeTitle: string := "title"
  const TypeCombobox: string := "combobox"
  const TypeComboboxCustomized: string := "combobox_customized"
  const TypeTextbox: string := "textbox"
  const TypeImage: string := "image"

  /** One entry of a field list: key, label, kind, the option list (or, for an image, its
      path), whether a text box starts enabled, and the name of its validator. */
  datatype Field = Field(
    key: string,
    labelText: string,
    kind: string,
    options: seq<string>,
    imagePath: string,
    enabled: bool,
    validator: string)

  // ---------------------------------------------------------------------------------
  // Label equalising.

  /** Titles and images keep their labels; every other entry, module entries included, is
      padded. */
  predicate IsPadded(f: Field) {
    f.kind != TypeTitle && f.kind != TypeImage
  }

  /** The longest label among the padded entries (0 when there are none). */
  function MaxLabelLength(fields: seq<Field>): (m: nat)
    ensures forall i :: 0 <= i < |fields| && IsPadded(fields[i]) ==> |fields[i].labelText| <= m
    ensures m == 0 || exists i :: 0 <= i < |fields| && IsPadded(fields[i]) && |fields[i].labelText| == m
  {
    if fields == [] then 0
    else
      var m := MaxLabelLength(fields[..|fields| - 1]);
      var last := fields[|fields| - 1];
      if IsPadded(last) && |last.labelText| > m then |last.labelText| else m
  }

  /** `s.ljust(width)`: `s` followed by spaces up to `width` characters, never shortened. */
  function PadRight(s: string, width: nat): (r: string)
    ensures |r| == if |s| >= width then |s| else width
    ensures r[..|s|] == s
    ensures forall k :: |s| <= k < |r| ==> r[k] == ' '
  {
    if |s| >= width then s else s + seq(width - |s|, _ => ' ')
  }

  /** The field list with every padded label brought to the longest padded label's length:
      the label keeps its text and gains trailing spaces, and nothing else of any entry
      changes. */
  function Equalized(fields: seq<Field>): (r: seq<Field>)
    ensures |r| == |fields|
    ensures forall i :: 0 <= i < |r| ==> r[i] == fields[i].(labelText := r[i].labelText)
    ensures forall i :: 0 <= i < |r| && !IsPadded(fields[i]) ==> r[i] == fields[i]
    ensures forall i :: 0 <= i < |r| && IsPadded(fields[i]) ==>
      && |r[i].labelText| == MaxLabelLength(fields)
      && r[i].labelText[..|fields[i].labelText|] == fields[i].labelText
      && forall k :: |fields[i].labelText| <= k < |r[i].labelText| ==> r[i].labelText[k] == ' '
  {
    var m := MaxLabelLength(fields);
    seq(|fields|, i requires 0 <= i < |fields| =>
      if IsPadded(fields[i]) then fields[i].(labelText := PadRight(fields[i].labelText, m)) else fields[i])
  }

  /** equalize_label_length: find the longest padded label, then pad each padded label. */
  method EqualizeLabelLength(fields: seq<Field>) returns (r: seq<Field>)
    ensures r == Equalized(fields)
  {
    var maxLen := 0;
    var i := 0;
    while i < |fields|
      invariant 0 <= i <= |fields|
      invariant maxLen == MaxLabelLength(fields[..i])
    {
      assert fields[..i + 1][..i] == fields[..i];
      if IsPadded(fields[i]) && |fields[i].labelText| > maxLen {
        maxLen := |fields[i].labelText|;
      }
      i := i + 1;
    }
    assert fields[..|fields|] == fields;
    r := [];
    i := 0;
    while i < |fields|
      invariant 0 <= i <= |fields| && |r| == i
      invariant forall k :: 0 <= k < i ==> r[k] == Equalized(fields)[k]
    {
      var entry := if IsPadded(fields[i]) then fields[i].(labelText := PadRight(fields[i].labelText, maxLen))
                   else fields[i];
      r := r + [entry];
      i := i + 1;
    }
  }

  /** Equalising an equalised list changes nothing: its padded labels already share the
      longest length. */
  lemma EqualizedIdempotent(fields: seq<Field>)
    ensures Equalized(Equalized(fields)) == Equalized(fields)
  {
    var r := Equalized(fields);
    var m := MaxLabelLength(fields);
    var m' := MaxLabelLength(r);
    assert forall i :: 0 <= i < |r| ==> (IsPadded(r[i]) <==> IsPadded(fields[i]));
    if m > 0 {
      var i :| 0 <= i < |fields| && IsPadded(fields[i]) && |fields[i].labelText| == m;
      assert |r[i].labelText| == m <= m';
    }
    if m' > 0 {
      var i :| 0 <= i < |r| && IsPadded(r[i]) && |r[i].labelText| == m';
      assert m' == m;
    }
    var rr := Equalized(r);
    assert forall i :: 0 <= i < |r| ==> rr[i] == r[i] by {
      forall i | 0 <= i < |r|
        ensures rr[i] == r[i]
      {
        if IsPadded(r[i]) {
          assert rr[i].labelText == r[i].labelText[..|r[i].labelText|];
        }
      }
    }
  }

  // ---------------------------------------------------------------------------------
  // Validators.

  /** The two validators a text box can get: whole or decimal numbers without sign or
      leading zero, and any floating-point number. */
  datatype Validator = NonNegativeDecimal | AnyDouble

  /** get_validator: by name; any other name gives no validator. */
  function GetValidator(name: string): (v: Option<Validator>)
    ensures v.None? <==> name != "Int Validator" && name != "Double Validator"
  {
    if name == "Int Validator" then Some(NonNegativeDecimal)
    else if name == "Double Validator" then Some(AnyDouble)
    else None
  }

  /** `0` or a digit string not starting with `0`. */
  predicate WholeNumberText(s: string) {
    s == "0" || (|s| >= 1 && '1' <= s[0] <= '9' && AllDigits(s))
  }

  /** The text the "Int Validator" pattern `^(0|[1-9]\d*)(\.\d+)?$` accepts. */
  predicate NonNegativeDecimalText(s: string) {
    || WholeNumberText(s)
    || exists k :: 0 < k < |s| - 1 && s[k] == '.' && WholeNumberText(s[..k]) && AllDigits(s[k + 1..])
  }

  /** Digits, optionally with a decimal point that has digits on both sides. */
  predicate DecimalText(s: string) {
    || (|s| >= 1 && AllDigits(s))
    || exists k :: 0 < k < |s| - 1 && s[k] == '.' && AllDigits(s[..k]) && AllDigits(s[k + 1..])
  }

  /** Plain decimal notation with an optional minus sign. */
  predicate SignedDecimalText(s: string) {
    DecimalText(s) || (|s| >= 2 && s[0] == '-' && DecimalText(s[1..]))
  }

  /** Finished text a validator accepts: the "Int Validator" pattern, or a plain signed
      decimal for the double validator. */
  predicate Accepts(v: Validator, s: string) {
    match v
    case NonNegativeDecimal => NonNegativeDecimalText(s)
    case AnyDouble => SignedDecimalText(s)
  }

  /** Every non-negative integer, written as Python writes it, passes the "Int Validator". */
  lemma IntValidatorAcceptsEveryCount(n: nat)
    ensures Accepts(GetValidator("Int Validator").value, NatToString(n))
  {
    var s := NatToString(n);
    if n > 0 {
      assert IsDigit(s[0]) && s[0] != '0';
    }
  }

  /** The "Int Validator" takes a decimal point with digits after it, and refuses a sign,
      a leading zero and a bare trailing point; the double validator takes the sign. */
  lemma IntValidatorExamples()
    ensures Accepts(GetValidator("Int Validator").value, "2.50")
    ensures !Accepts(GetValidator("Int Validator").value, "-1")
    ensures !Accepts(GetValidator("Int Validator").value, "01")
    ensures !Accepts(GetValidator("Int Validator").value, "1.")
    ensures Accepts(GetValidator("Double Validator").value, "-1")
  {
    assert "-1"[1..] == "1";
    assert "2.50"[..1] == "2" && "2.50"[2..] == "50";
    assert !IsDigit("1."[1]);
  }

  /** Whatever the "Int Validator" accepts, the double validator accepts too. */
  lemma IntAcceptedByDouble(s: string)
    requires Accepts(GetValidator("Int Validator").value, s)
    ensures Accepts(GetValidator("Double Validator").value, s)
  {
    if !WholeNumberText(s) {
      var k :| 0 < k < |s| - 1 && s[k] == '.' && WholeNumberText(s[..k]) && AllDigits(s[k + 1..]);
      assert DecimalText(s);
    }
  }

  // ---------------------------------------------------------------------------------
  // Grouping the entries of the left panel.

  /** A form row the panel builds for one entry. */
  datatype Row =
    | ComboRow(key: string, labelText: string, options: seq<string>)
    | ImageRow(key: string, path: string)
    | TextRow(key: string, labelText: string, enabled: bool, validator: Option<Validator>)

  /** A titled group box and its rows. */
  datatype Group = Group(title: string, rows: seq<Row>)

  /** Kinds that add a row to the open group. */
  predicate IsRowKind(kind: string) {
    kind == TypeCombobox || kind == TypeComboboxCustomized || kind == TypeImage || kind == TypeTextbox
  }

  /** The row an entry of a row kind adds. A text box gets a validator unless it names
      "No Validator". */
  function RowOf(f: Field): (r: Row)
    requires IsRowKind(f.kind)
    ensures r.ComboRow? <==> f.kind == TypeCombobox || f.kind == TypeComboboxCustomized
    ensures r.TextRow? ==> r.validator == GetValidator(f.validator)
  {
    if f.kind == TypeCombobox || f.kind == TypeComboboxCustomized then ComboRow(f.key, f.labelText, f.options)
    else if f.kind == TypeImage then ImageRow(f.key, f.imagePath)
    else TextRow(f.key, f.labelText, f.enabled,
                 if f.validator != "No Validator" then GetValidator(f.validator) else None)
  }

  /** What the panel has built: the groups already closed and the group open now, or the
      position of an entry that found no group open. */
  datatype Scan = Scan(closed: seq<Group>, open: Option<Group>) | Failed(at: nat)

  function OptionSeq(o: Option<Group>): seq<Group> {
    if o.Some? then [o.value] else []
  }

  /** One entry at position `at`: a module entry or an unknown kind changes nothing, a title
      closes the open group and opens its own, and a row goes into the open group (there
      must be one). */
  function Step(s: Scan, f: Field, at: nat): Scan {
    match s
    case Failed(_) => s
    case Scan(closed, open) =>
      if f.kind == TypeModule then s
      else if f.kind == TypeTitle then Scan(closed + OptionSeq(open), Some(Group(f.labelText, [])))
      else if IsRowKind(f.kind) then
        if open.None? then Failed(at)
        else Scan(closed, Some(open.value.(rows := open.value.rows + [RowOf(f)])))
      else s
  }

  /** The entries taken in order. Before any title no group is open, and none is closed. */
  function ScanAll(fields: seq<Field>): (s: Scan)
    ensures s.Scan? && s.open.None? ==> s.closed == []
    ensures s.Failed? ==> s.at < |fields|
  {
    if fields == [] then Scan([], None)
    else Step(ScanAll(fields[..|fields| - 1]), fields[|fields| - 1], |fields| - 1)
  }

  /** The outcome of building the panel. */
  datatype Panel = Groups(groups: seq<Group>) | UnboundGroup(at: nat)

  /** build_left_panel as written: the open group is closed when the loop reaches the last
      entry, but a module entry skips that step, so a list that ends in a module entry never
      closes its last group; and ending on an unknown kind before any title has no group
      to close. */
  function PanelAsWritten(fields: seq<Field>): Panel {
    if fields == [] then Groups([])
    else match ScanAll(fields)
      case Failed(at) => UnboundGroup(at)
      case Scan(closed, open) =>
        if fields[|fields| - 1].kind == TypeModule then Groups(closed)
        else if open.None? then UnboundGroup(|fields| - 1)
        else Groups(closed + [open.value])
  }

  /** The loop of build_left_panel, keeping the closed groups and the open one. */
  method BuildLeftPanel(fields: seq<Field>) returns (r: Panel)
    ensures r == PanelAsWritten(fields)
  {
    var groups: seq<Group> := [];
    var current: Option<Group> := None;
    var index := 0;
    while index < |fields|
      invariant 0 <= index <= |fields|
      invariant ScanAll(fields[..index]) == Scan(groups, current)
      invariant index == |fields| > 0 ==> fields[index - 1].kind == TypeModule
    {
      var field := fields[index];
      assert fields[..index + 1][..index] == fields[..index];
      index := index + 1;
      if field.kind == TypeModule {
        // Module entries add nothing, and skip the last-entry check below.
      } else {
        if field.kind == TypeTitle {
          if current.Some? {
            groups := groups + [current.value];
          }
          current := Some(Group(field.labelText, []));
        } else if IsRowKind(field.kind) {
          if current.None? {
            assert ScanAll(fields[..index]) == Failed(index - 1);
            if index == |fields| {
              assert fields[..index] == fields;
            } else {
              FailureSticks(fields, index);
            }
            return UnboundGroup(index - 1);
          }
          current := Some(current.value.(rows := current.value.rows + [RowOf(field)]));
        }
        if index == |fields| {
          assert fields[..index] == fields;
          if current.None? {
            return UnboundGroup(index - 1);
          }
          return Groups(groups + [current.value]);
        }
      }
    }
    assert fields[..index] == fields;
    r := Groups(groups);
  }

  /** Once an entry finds no group open, the scan of any longer list fails there too. */
  lemma {:induction false} FailureSticks(fields: seq<Field>, n: nat)
    requires n <= |fields|
    requires ScanAll(fields[..n]).Failed?
    ensures ScanAll(fields) == ScanAll(fields[..n])
    decreases |fields| - n
  {
    if n < |fields| {
      assert fields[..n + 1][..n] == fields[..n];
      FailureSticks(fields, n + 1);
    } else {
      assert fields[..n] == fields;
    }
  }

  /** The grouping the panel is meant to build: every group, the last one included. */
  function Grouped(fields: seq<Field>): Panel {
    match ScanAll(fields)
    case Failed(at) => UnboundGroup(at)
    case Scan(closed, open) => Groups(closed + OptionSeq(open))
  }

  /** The rows the entries of a list ask for, in order. */
  function RowsOf(fields: seq<Field>): seq<Row> {
    if fields == [] then []
    else
      var last := fields[|fields| - 1];
      RowsOf(fields[..|fields| - 1]) + (if IsRowKind(last.kind) then [RowOf(last)] else [])
  }

  /** The titles of a list, in order. */
  function TitlesOf(fields: seq<Field>): seq<string> {
    if fields == [] then []
    else
      var last := fields[|fields| - 1];
      TitlesOf(fields[..|fields| - 1]) + (if last.kind == TypeTitle then [last.labelText] else [])
  }

  /** Some entry of a row kind comes before every title. */
  predicate RowBeforeTitle(fields: seq<Field>) {
    if fields == [] then false
    else
      var front := fields[..|fields| - 1];
      RowBeforeTitle(front) || (IsRowKind(fields[|fields| - 1].kind) && TitlesOf(front) == [])
  }

  function AllRows(gs: seq<Group>): seq<Row> {
    if gs == [] then [] else AllRows(gs[..|gs| - 1]) + gs[|gs| - 1].rows
  }

  function TitlesOfGroups(gs: seq<Group>): seq<string> {
    if gs == [] then [] else TitlesOfGroups(gs[..|gs| - 1]) + [gs[|gs| - 1].title]
  }

  lemma AppendGroup(gs: seq<Group>, g: Group)
    ensures AllRows(gs + [g]) == AllRows(gs) + g.rows
    ensures TitlesOfGroups(gs + [g]) == TitlesOfGroups(gs) + [g.title]
  {
    assert (gs + [g])[..|gs|] == gs;
  }

  /** What the scan has built so far accounts for every row and every title of the entries
      read, and a group is open exactly when a title has been read. */
  lemma {:induction false} ScanKeepsEverything(fields: seq<Field>)
    ensures ScanAll(fields).Failed? <==> RowBeforeTitle(fields)
    ensures ScanAll(fields).Scan? ==>
      var s := ScanAll(fields);
      && (s.open.None? <==> TitlesOf(fields) == [])
      && AllRows(s.closed + OptionSeq(s.open)) == RowsOf(fields)
      && TitlesOfGroups(s.closed + OptionSeq(s.open)) == TitlesOf(fields)
  {
    if fields != [] {
      var front := fields[..|fields| - 1];
      var f := fields[|fields| - 1];
      ScanKeepsEverything(front);
      var p := ScanAll(front);
      if p.Scan? {
        var before := p.closed + OptionSeq(p.open);
        if f.kind == TypeTitle {
          AppendGroup(before, Group(f.labelText, []));
        } else if IsRowKind(f.kind) && p.open.Some? {
          var g := p.open.value;
          AppendGroup(p.closed, g);
          AppendGroup(p.closed, g.(rows := g.rows + [RowOf(f)]));
        }
      }
    }
  }

  /** The intended grouping fails exactly when a row comes before every title; otherwise its
      groups hold every row in the order of the list, and one group per title, in order. */
  lemma {:induction false} GroupedKeepsEveryRow(fields: seq<Field>)
    ensures Grouped(fields).UnboundGroup? <==> RowBeforeTitle(fields)
    ensures Grouped(fields).Groups? ==>
      && AllRows(Grouped(fields).groups) == RowsOf(fields)
      && TitlesOfGroups(Grouped(fields).groups) == TitlesOf(fields)
  {
    ScanKeepsEverything(fields);
  }

  /** The panel as written builds the intended groups whenever the list ends in a title or a
      row. */
  lemma AsWrittenAgreesUnlessModuleLast(fields: seq<Field>)
    requires fields != []
    requires fields[|fields| - 1].kind == TypeTitle || IsRowKind(fields[|fields| - 1].kind)
    ensures PanelAsWritten(fields) == Grouped(fields)
  {
    var front := fields[..|fields| - 1];
    var s := ScanAll(fields);
    if s.Scan? && s.open.None? {
      assert ScanAll(front).Scan?;
    }
  }

  /** When the list ends in a module entry, the panel as written loses the last group the
      intended grouping has. */
  lemma ModuleLastDropsLastGroup(fields: seq<Field>)
    requires fields != [] && fields[|fields| - 1].kind == TypeModule
    requires Grouped(fields).Groups? && Grouped(fields).groups != []
    ensures PanelAsWritten(fields) == Groups(Grouped(fields).groups[..|Grouped(fields).groups| - 1])
  {
    var s := ScanAll(fields);
    assert s.open.Some?;
    assert (s.closed + [s.open.value])[..|s.closed|] == s.closed;
  }

  /** A list with a title, a text box and then the module entry: the text box's group never
      reaches the panel. */
  lemma ModuleLastExample()
    ensures var fields := [Field("Inputs", "Inputs", TypeTitle, [], "", true, ""),
                           Field("Span", "Span (m)", TypeTextbox, [], "", true, "Double Validator"),
                           Field("Module", "Module", TypeModule, [], "", true, "")];
      && PanelAsWritten(fields) == Groups([])
      && Grouped(fields) == Groups([Group("Inputs", [TextRow("Span", "Span (m)", true, Some(AnyDouble))])])
  {
    var fields := [Field("Inputs", "Inputs", TypeTitle, [], "", true, ""),
                   Field("Span", "Span (m)", TypeTextbox, [], "", true, "Double Validator"),
                   Field("Module", "Module", TypeModule, [], "", true, "")];
    var row := TextRow("Span", "Span (m)", true, Some(AnyDouble));
    assert fields[..1][..0] == [];
    assert ScanAll(fields[..1]) == Scan([], Some(Group("Inputs", [])));
    assert fields[..2][..1] == fields[..1];
    assert fields[1].kind != TypeModule && fields[1].kind != TypeTitle && IsRowKind(fields[1].kind);
    assert "Double Validator" != "No Validator";
    assert RowOf(fields[1]) == row;
    assert fields[..2][1] == fields[1];
    assert ScanAll(fields[..2]) == Step(ScanAll(fields[..1]), fields[1], 1);
    assert Step(Scan([], Some(Group("Inputs", []))), fields[1], 1)
        == Scan([], Some(Group("Inputs", [] + [row])));
    assert [] + [row] == [row];
    assert ScanAll(fields[..2]) == Scan([], Some(Group("Inputs", [row])));
    assert fields[..|fields| - 1] == fields[..2];
    assert ScanAll(fields) == Scan([], Some(Group("Inputs", [row])));
  }
}
