/** The deck-geometry reconciliation that both geometry tabs share: the number of girders
    from the girder spacing and the deck overhang, the spacing from the number of girders,
    the footpath count, the IRC 5 minimum checks, and the warnings the tabs raise. */
module Girders {
  import opened Fields

  /** Module-level defaults the tabs fall back on when a field is empty. */
  datatype Defaults = Defaults(
    girderSpacing: real,
    deckOverhang: real,
    crashBarrierWidth: real,
    railingWidth: real)

  /** IRC 5 minimums: footpath width (Clause 104.3.6), railing height
      (Clauses 109.7.2.3 and 109.7.2.4), safety-kerb width (Clause 101.41). */
  datatype Minimums = Minimums(
    footpathWidth: real,
    railingHeight: real,
    safetyKerbWidth: real)

  /** The message boxes the tabs raise, recorded instead of shown. */
  datatype Alert =
    | InvalidGirderSpacing(spacing: real, width: real)
    | InvalidDeckOverhang(overhang: real, width: real)
    | InvalidGirderCount
    | FootpathWidthError
    | RailingHeightError
    | SafetyKerbWidthError
    | BarrierNotPermitted(barrierType: string)

  /** What a tab is built with: the carriageway width handed down by the parent widget,
      the module defaults and the IRC 5 minimums. */
  datatype Config = Config(carriageway: real, defaults: Defaults, minimums: Minimums)

  const NoFootpath: string := "None"

  /** Number of footpaths the overall width counts: 2 for "Both", 1 for "Single Sided",
      0 for anything else. */
  function FootpathCount(footpath: string): (k: nat)
    ensures k <= 2
    ensures k > 0 ==> footpath != NoFootpath
  {
    if footpath == "Both" then 2 else if footpath == "Single Sided" then 1 else 0
  }

  /** What a recalculation does to the girder-count field. */
  datatype CountUpdate = ClearCount | SetCount(n: int) | KeepCount

  /** The clear width the girders span: the overall width less an overhang on each side. */
  function ClearWidth(width: real, overhang: real): real {
    width - 2.0 * overhang
  }

  /** The count a recalculation derives from numeric spacing and overhang: cleared when
      either reaches the overall width; otherwise, for a positive spacing, one more than the
      nearest whole number of spacings in the clear width, written only when at least 2. */
  function GirderCount(width: real, spacing: real, overhang: real): (u: CountUpdate)
    ensures u == ClearCount <==> spacing >= width || overhang >= width
    ensures u.SetCount? ==>
      && spacing > 0.0 && u.n >= 2
      && (u.n - 1) as real - 0.5 <= ClearWidth(width, overhang) / spacing <= (u.n - 1) as real + 0.5
    ensures u.SetCount? ==> u.n - 1 == RoundHalfEven(ClearWidth(width, overhang) / spacing)
    ensures u == KeepCount <==>
      spacing < width && overhang < width &&
      (spacing <= 0.0 || ClearWidth(width, overhang) / spacing <= 0.5)
  {
    if spacing >= width || overhang >= width then ClearCount
    else if spacing > 0.0 then
      var q := ClearWidth(width, overhang) / spacing;
      var n := RoundHalfEven(q) + 1;
      if n >= 2 then SetCount(n) else KeepCount
    else KeepCount
  }

  /** The same decision read from the fields' text: empty spacing or overhang take their
      defaults, and a parse failure leaves the count alone (the swallowed exception). */
  function CountUpdateFor(width: real, spacing: Text, overhang: Text, d: Defaults): (u: CountUpdate)
    ensures spacing.Unparsable? || overhang.Unparsable? ==> u == KeepCount
    ensures !spacing.Unparsable? && !overhang.Unparsable? ==>
      u == GirderCount(width, (if spacing.Number? then spacing.value else d.girderSpacing),
                              (if overhang.Number? then overhang.value else d.deckOverhang))
  {
    match (ReadOr(spacing, d.girderSpacing), ReadOr(overhang, d.deckOverhang))
    case (Some(s), Some(o)) => GirderCount(width, s, o)
    case _ => KeepCount
  }

  /** The count field after a recalculation has applied `u`. */
  function ApplyCount(c: CountText, u: CountUpdate): (r: CountText)
    ensures u == ClearCount ==> r == NoCount
    ensures u.SetCount? ==> r == Count(u.n)
    ensures u == KeepCount ==> r == c
  {
    match u
    case ClearCount => NoCount
    case SetCount(n) => Count(n)
    case KeepCount => c
  }

  /** Spacing for `n` girders: the clear width divided into n - 1 equal bays. */
  function SpacingFor(width: real, overhang: real, n: int): (s: real)
    requires n >= 2
    ensures s * (n - 1) as real == ClearWidth(width, overhang)
  {
    ClearWidth(width, overhang) / (n - 1) as real
  }

  /** What editing the girder count does to the spacing field. */
  datatype SpacingUpdate = SpacingUnchanged | TooFewGirders | NewSpacing(spacing: real)

  /** The inverse computation read from the fields' text: an empty or non-integer count
      changes nothing, a count below 2 only warns, otherwise the spacing is recomputed
      (unless the overhang text does not parse). */
  function SpacingUpdateFor(count: CountText, width: real, overhang: Text, d: Defaults): (u: SpacingUpdate)
    ensures u == TooFewGirders <==> count.Count? && count.n < 2
    ensures u.NewSpacing? <==> count.Count? && count.n >= 2 && !overhang.Unparsable?
    ensures u.NewSpacing? ==>
      u.spacing == SpacingFor(width, ReadOr(overhang, d.deckOverhang).value, count.n)
  {
    match count
    case Count(n) =>
      if n < 2 then TooFewGirders
      else (
        match ReadOr(overhang, d.deckOverhang)
        case Some(o) => NewSpacing(SpacingFor(width, o, n))
        case None => SpacingUnchanged)
    case _ => SpacingUnchanged
  }

  /** A minimum-value check: only a parsed number below the minimum fails; an empty field or
      text that does not parse raises nothing. */
  predicate BelowMinimum(t: Text, minimum: real) {
    t.Number? && t.value < minimum
  }

  /** The dialogs after a minimum check: the check's own dialog is added exactly when the
      field holds a number below the minimum, and nothing else changes. */
  function AlertsAfterCheck(alerts: seq<Alert>, field: Text, minimum: real, alert: Alert): (r: seq<Alert>)
    ensures alerts <= r
    ensures |r| == |alerts| + 1 <==> BelowMinimum(field, minimum)
    ensures |r| != |alerts| + 1 ==> r == alerts
    ensures |r| > |alerts| ==> r[|alerts|] == alert
  {
    if BelowMinimum(field, minimum) then alerts + [alert] else alerts
  }

  /** The footpath thickness after the pre-fill: the deck thickness goes into an empty
      footpath thickness, and a value already there is never overwritten. */
  function FilledThickness(deckThickness: string, footpathThickness: string): (r: string)
    ensures footpathThickness != "" ==> r == footpathThickness
    ensures footpathThickness == "" ==> r == deckThickness
  {
    if deckThickness != "" && footpathThickness == "" then deckThickness else footpathThickness
  }

  /** A second pre-fill changes nothing. */
  lemma FilledThicknessIdempotent(deckThickness: string, footpathThickness: string)
    ensures FilledThickness(deckThickness, FilledThickness(deckThickness, footpathThickness))
         == FilledThickness(deckThickness, footpathThickness)
  {
  }

  /** IRC 5 Clause 109.6.4: flexible and semi-rigid barriers need an outer footpath. */
  predicate BarrierNeedsFootpath(barrierType: string, footpath: string) {
    (barrierType == "Flexible" || barrierType == "Semi-Rigid") && footpath == NoFootpath
  }

  // ---------------------------------------------------------------------------------
  // The forward and inverse computations against each other.

  /** Count to spacing to count: writing the spacing for `n` girders and recalculating
      gives back `n`, whenever the recalculation's guards let it through. */
  lemma CountSpacingCount(width: real, overhang: real, n: int)
    requires n >= 2
    requires ClearWidth(width, overhang) > 0.0
    requires SpacingFor(width, overhang, n) < width && overhang < width
    ensures GirderCount(width, SpacingFor(width, overhang, n), overhang) == SetCount(n)
  {
    var s := SpacingFor(width, overhang, n);
    var c := ClearWidth(width, overhang);
    assert s > 0.0;
    assert c / s == (n - 1) as real;
    RoundHalfEvenOfInteger(n - 1);
  }

  /** Spacing to count to spacing: exact when the spacing divides the clear width into a
      whole number `k` of bays. */
  lemma SpacingCountSpacing(width: real, overhang: real, spacing: real, k: int)
    requires k >= 1 && spacing > 0.0
    requires ClearWidth(width, overhang) == k as real * spacing
    requires spacing < width && overhang < width
    ensures GirderCount(width, spacing, overhang) == SetCount(k + 1)
    ensures SpacingFor(width, overhang, k + 1) == spacing
  {
    assert ClearWidth(width, overhang) / spacing == k as real;
    RoundHalfEvenOfInteger(k);
  }

  /** Otherwise the spacing is not recovered: 6.5 m of clear width at 2.5 m spacing gives
      4 girders, and 4 girders give a spacing of 6.5 / 3 m. */
  lemma SpacingNotRecoveredInGeneral()
    ensures GirderCount(8.5, 2.5, 1.0) == SetCount(4)
    ensures SpacingFor(8.5, 1.0, 4) != 2.5
  {
    assert ClearWidth(8.5, 1.0) / 2.5 == 2.6;
    assert RoundHalfEven(2.6) == 3;
  }

  /** A clear width of exactly two and a half spacings rounds down to 2 bays (half to even),
      giving 3 girders rather than 4. */
  lemma HalfBayRoundsToEven()
    ensures GirderCount(7.0, 2.0, 1.0) == SetCount(3)
  {
    assert ClearWidth(7.0, 1.0) / 2.0 == 2.5;
    assert RoundHalfEven(2.5) == 2;
  }
}
