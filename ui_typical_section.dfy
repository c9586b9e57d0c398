/** The newer typical-section tab: the same overall-width and girder reconciliation as the
    older bridge-geometry tab, but with the railing width entered in millimetres, a read-only
    display of the overall width, a railing-load mode switch, and a lane-details table. */
module UiTypicalSection {
  import opened Fields
  import opened Girders
  import AdditionalInputs

  /** Number of columns of the lane-details table: lane number, distance from the barrier,
      lane width. */
  const LaneColumns: nat := 3

  /** Overall bridge width, with the railing width read in millimetres: a non-empty railing
      text is divided by 1000, an empty one takes the default (in metres) as it is. */
  function OverallWidth(carriageway: real, footpath: string, footpathWidth: Text,
                        crashBarrierWidth: Text, railingWidth: Text, d: Defaults): (w: real)
    ensures crashBarrierWidth.Unparsable? ==> w == carriageway
    ensures footpath != NoFootpath && (footpathWidth.Unparsable? || railingWidth.Unparsable?) ==>
      w == carriageway
    ensures footpath == NoFootpath && !crashBarrierWidth.Unparsable? ==>
      w == carriageway + 2.0 * ReadOr(crashBarrierWidth, d.crashBarrierWidth).value
    ensures footpath != NoFootpath && railingWidth.Number? ==>
      w == AdditionalInputs.OverallWidth(carriageway, footpath, footpathWidth, crashBarrierWidth,
                                         Number(railingWidth.value / 1000.0), d)
    ensures !railingWidth.Number? ==>
      w == AdditionalInputs.OverallWidth(carriageway, footpath, footpathWidth, crashBarrierWidth,
                                         railingWidth, d)
  {
    var present := footpath != NoFootpath;
    var fp := if present then ReadOr(footpathWidth, 0.0) else Some(0.0);
    var cb := ReadOr(crashBarrierWidth, d.crashBarrierWidth);
    var rail :=
      if !present then Some(0.0)
      else match railingWidth
        case Number(mm) => Some(mm / 1000.0)
        case Empty => Some(d.railingWidth)
        case Unparsable => None;
    if fp.None? || cb.None? || rail.None? then carriageway
    else
      var w := carriageway + FootpathCount(footpath) as real * fp.value + cb.value * 2.0;
      if present then w + rail.value * 2.0 else w
  }

  /** A lane row: one optional item per column (None: no item in that cell). */
  type LaneRow = seq<Option<string>>

  predicate LanesWellFormed(cells: seq<LaneRow>) {
    forall r :: 0 <= r < |cells| ==> |cells[r]| == LaneColumns
  }

  /** The row count the lane selector asks for: what `int` made of its text, or 1 when that
      raised. */
  function LaneTotal(count: Option<int>): int {
    if count.Some? then count.value else 1
  }

  /** The lane table after `_update_lane_details_rows`: it takes the requested number of
      rows (a negative count leaves it as it was), column 0 of row r holds r + 1, every
      other cell keeps its item, and a cell with no item gets an empty one. */
  function LaneCellsAfter(cells: seq<LaneRow>, count: Option<int>): (r: seq<LaneRow>)
    requires LanesWellFormed(cells)
    ensures LanesWellFormed(r)
    ensures |r| == if LaneTotal(count) < 0 then |cells| else LaneTotal(count)
    ensures LaneTotal(count) < 0 ==> r == cells
    ensures LaneTotal(count) >= 0 ==>
      forall i :: 0 <= i < |r| ==> r[i][0] == Some(NatToString(i + 1))
    ensures LaneTotal(count) >= 0 ==>
      forall i, c :: 0 <= i < |r| && 1 <= c < LaneColumns ==>
        r[i][c] == if i < |cells| && cells[i][c].Some? then cells[i][c] else Some("")
  {
    var total := LaneTotal(count);
    if total < 0 then cells
    else
      seq(total, i requires 0 <= i < total =>
        seq(LaneColumns, c requires 0 <= c < LaneColumns =>
          if c == 0 then Some(NatToString(i + 1))
          else if i < |cells| && cells[i][c].Some? then cells[i][c]
          else Some("")))
  }

  /** Updating the table twice for the same count is the same as updating it once. */
  lemma LaneCellsAfterIdempotent(cells: seq<LaneRow>, count: Option<int>)
    requires LanesWellFormed(cells)
    ensures LaneCellsAfter(LaneCellsAfter(cells, count), count) == LaneCellsAfter(cells, count)
  {
    var once := LaneCellsAfter(cells, count);
    var twice := LaneCellsAfter(once, count);
    if LaneTotal(count) >= 0 {
      forall i | 0 <= i < |once|
        ensures twice[i] == once[i]
      {
        assert forall c :: 0 <= c < LaneColumns ==> twice[i][c] == once[i][c];
      }
    }
  }

  /** What the typical-section tab holds. */
  datatype SectionTab = SectionTab(
    footpath: string,
    girderSpacing: Text,
    noOfGirders: CountText,
    deckOverhang: Text,
    overallWidthDisplay: Text,
    deckThickness: string,
    footpathThickness: string,
    footpathWidth: Text,
    footpathWidthEnabled: bool,
    footpathThicknessEnabled: bool,
    crashBarrierWidth: Text,
    railingWidth: Text,
    railingHeight: Text,
    railingLoadEnabled: bool,
    railingLoadValue: string,
    laneCells: seq<LaneRow>,
    updatingFields: bool,
    alerts: seq<Alert>)

  /** The tab as built, before its closing recalculation: defaults in spacing, overhang and
      barrier width, the default railing width in millimetres, the minimum footpath width,
      the railing load locked, and one lane row. */
  function Built(footpath: string, d: Defaults, m: Minimums): (t: SectionTab)
    ensures !t.updatingFields && t.alerts == [] && LanesWellFormed(t.laneCells)
  {
    SectionTab(footpath, Number(d.girderSpacing), NoCount, Number(d.deckOverhang), Empty,
               "", "", Number(m.footpathWidth), true, true,
               Number(d.crashBarrierWidth), Number(d.railingWidth * 1000.0), Empty,
               false, "", [[Some("1"), Some(""), Some("")]], false, [])
  }

  function Width(t: SectionTab, cfg: Config): real {
    OverallWidth(cfg.carriageway, t.footpath, t.footpathWidth, t.crashBarrierWidth,
                 t.railingWidth, cfg.defaults)
  }

  /** recalculate_girders: nothing while the flag is up; otherwise the display shows the
      overall width and the count follows the girder-count rules; nothing else changes. */
  function Recalculated(t: SectionTab, cfg: Config): (r: SectionTab)
    ensures t.updatingFields ==> r == t
    ensures r == t.(overallWidthDisplay := r.overallWidthDisplay, noOfGirders := r.noOfGirders)
    ensures !t.updatingFields ==>
      && r.overallWidthDisplay == Number(Width(t, cfg))
      && r.noOfGirders == ApplyCount(t.noOfGirders,
           CountUpdateFor(Width(t, cfg), t.girderSpacing, t.deckOverhang, cfg.defaults))
  {
    if t.updatingFields then t
    else
      var w := Width(t, cfg);
      var u := CountUpdateFor(w, t.girderSpacing, t.deckOverhang, cfg.defaults);
      t.(overallWidthDisplay := Number(w), noOfGirders := ApplyCount(t.noOfGirders, u))
  }

  function AfterGirderSpacingChanged(t: SectionTab, cfg: Config): (r: SectionTab)
    ensures r == t.(noOfGirders := r.noOfGirders, overallWidthDisplay := r.overallWidthDisplay,
                    alerts := r.alerts)
    ensures t.alerts <= r.alerts
  {
    if t.updatingFields then t
    else
      var w := Width(t, cfg);
      match t.girderSpacing
      case Unparsable => t
      case Number(s) =>
        if s >= w then t.(alerts := t.alerts + [InvalidGirderSpacing(s, w)])
        else Recalculated(t, cfg)
      case Empty => Recalculated(t, cfg)
  }

  /** A spacing typed at or above the overall width only warns: the count it made stale
      stays in its field, although a recalculation over the same fields (with an overhang
      that parses) would clear it. */
  lemma SpacingAtWidthOnlyWarns(t: SectionTab, cfg: Config)
    requires !t.updatingFields && t.girderSpacing.Number? && t.girderSpacing.value >= Width(t, cfg)
    ensures AfterGirderSpacingChanged(t, cfg)
         == t.(alerts := t.alerts + [InvalidGirderSpacing(t.girderSpacing.value, Width(t, cfg))])
    ensures !t.deckOverhang.Unparsable? ==> Recalculated(t, cfg).noOfGirders == NoCount
  {
  }

  function AfterDeckOverhangChanged(t: SectionTab, cfg: Config): (r: SectionTab)
    ensures r == t.(noOfGirders := r.noOfGirders, overallWidthDisplay := r.overallWidthDisplay,
                    alerts := r.alerts)
    ensures t.alerts <= r.alerts
  {
    if t.updatingFields then t
    else
      var w := Width(t, cfg);
      match t.deckOverhang
      case Unparsable => t
      case Number(o) =>
        if o >= w then t.(alerts := t.alerts + [InvalidDeckOverhang(o, w)])
        else Recalculated(t, cfg)
      case Empty => Recalculated(t, cfg)
  }

  function AfterNoOfGirdersChanged(t: SectionTab, cfg: Config): (r: SectionTab)
    ensures r.noOfGirders == t.noOfGirders
    ensures r == t.(girderSpacing := r.girderSpacing, alerts := r.alerts)
  {
    if t.updatingFields then t
    else
      match SpacingUpdateFor(t.noOfGirders, Width(t, cfg), t.deckOverhang, cfg.defaults)
      case SpacingUnchanged => t
      case TooFewGirders => t.(alerts := t.alerts + [InvalidGirderCount])
      case NewSpacing(s) => t.(girderSpacing := Number(s))
  }

  /** update_footpath_value: footpath width and thickness are editable exactly when there is
      a footpath; then recalculate. */
  function FootpathValueUpdated(t: SectionTab, footpath: string, cfg: Config): SectionTab {
    Recalculated(t.(footpath := footpath,
                    footpathWidthEnabled := footpath != NoFootpath,
                    footpathThicknessEnabled := footpath != NoFootpath), cfg)
  }

  /** Modes whose name starts with "Automatic" compute the railing load themselves. */
  predicate IsAutomaticLoad(mode: string) {
    "Automatic" <= mode
  }

  // ---------------------------------------------------------------------------------
  // Properties.

  /** The railing text is the only difference from the older tab: millimetres there are
      metres here, and an empty text takes the same unscaled default. */
  lemma RailingWidthInMillimetres(carriageway: real, footpath: string, footpathWidth: Text,
                                  barrier: Text, millimetres: real, d: Defaults)
    ensures OverallWidth(carriageway, footpath, footpathWidth, barrier, Number(millimetres), d)
         == AdditionalInputs.OverallWidth(carriageway, footpath, footpathWidth, barrier,
                                          Number(millimetres / 1000.0), d)
    ensures OverallWidth(carriageway, footpath, footpathWidth, barrier, Empty, d)
         == AdditionalInputs.OverallWidth(carriageway, footpath, footpathWidth, barrier, Empty, d)
  {
  }

  /** After a recalculation that ran, the display shows the overall width, and a second
      recalculation changes nothing. */
  lemma RecalculateIdempotent(t: SectionTab, cfg: Config)
    ensures Recalculated(Recalculated(t, cfg), cfg) == Recalculated(t, cfg)
  {
    var r := Recalculated(t, cfg);
    if !t.updatingFields {
      assert Width(r, cfg) == Width(t, cfg);
    }
  }

  /** The edited count survives any later recalculation over the same fields, and that
      recalculation shows the overall width. Writing the spacing does not itself recalculate,
      because the flag is up while it is written. */
  lemma CountEditSurvivesRecalculation(t: SectionTab, cfg: Config, n: int)
    requires !t.updatingFields && t.noOfGirders == Count(n) && n >= 2
    requires !t.deckOverhang.Unparsable?
    requires
      var o := ReadOr(t.deckOverhang, cfg.defaults.deckOverhang).value;
      var w := Width(t, cfg);
      ClearWidth(w, o) > 0.0 && SpacingFor(w, o, n) < w && o < w
    ensures Recalculated(AfterNoOfGirdersChanged(t, cfg), cfg).noOfGirders == Count(n)
    ensures Recalculated(AfterNoOfGirdersChanged(t, cfg), cfg).overallWidthDisplay == Number(Width(t, cfg))
  {
    var o := ReadOr(t.deckOverhang, cfg.defaults.deckOverhang).value;
    var w := Width(t, cfg);
    var e := AfterNoOfGirdersChanged(t, cfg);
    assert e.girderSpacing == Number(SpacingFor(w, o, n));
    assert Width(e, cfg) == w;
    CountSpacingCount(w, o, n);
  }

  /** The typical-section tab. As in the older tab, writing the count or the spacing from a
      handler fires that field's change handler at once, and `updatingFields` stops it. */
  class TypicalSectionDetailsTab {
    const cfg: Config
    var footpath: string
    var girderSpacing: Text
    var noOfGirders: CountText
    var deckOverhang: Text
    var overallWidthDisplay: Text
    var deckThickness: string
    var footpathThickness: string
    var footpathWidth: Text
    var footpathWidthEnabled: bool
    var footpathThicknessEnabled: bool
    var crashBarrierWidth: Text
    var railingWidth: Text
    var railingHeight: Text
    var railingLoadEnabled: bool
    var railingLoadValue: string
    var laneCells: seq<LaneRow>
    var updatingFields: bool
    var alerts: seq<Alert>

    function View(): SectionTab
      reads this
    {
      SectionTab(footpath, girderSpacing, noOfGirders, deckOverhang, overallWidthDisplay,
                 deckThickness, footpathThickness, footpathWidth, footpathWidthEnabled,
                 footpathThicknessEnabled, crashBarrierWidth, railingWidth, railingHeight,
                 railingLoadEnabled, railingLoadValue, laneCells, updatingFields, alerts)
    }

    ghost predicate Valid()
      reads this
    {
      LanesWellFormed(laneCells)
    }

    function OverallBridgeWidth(): real
      reads this
    {
      Width(View(), cfg)
    }

    constructor (footpathValue: string, carriagewayWidth: real, defaults: Defaults, minimums: Minimums)
      ensures Valid()
      ensures cfg == Config(carriagewayWidth, defaults, minimums)
      ensures View() == Recalculated(Built(footpathValue, defaults, minimums), cfg)
    {
      cfg := Config(carriagewayWidth, defaults, minimums);
      footpath := footpathValue;
      girderSpacing := Number(defaults.girderSpacing);
      noOfGirders := NoCount;
      deckOverhang := Number(defaults.deckOverhang);
      overallWidthDisplay := Empty;
      deckThickness := "";
      footpathThickness := "";
      footpathWidth := Number(minimums.footpathWidth);
      footpathWidthEnabled := true;
      footpathThicknessEnabled := true;
      crashBarrierWidth := Number(defaults.crashBarrierWidth);
      railingWidth := Number(defaults.railingWidth * 1000.0);
      railingHeight := Empty;
      railingLoadEnabled := false;
      railingLoadValue := "";
      laneCells := [[Some("1"), Some(""), Some("")]];
      updatingFields := false;
      alerts := [];
      new;
      RecalculateGirders();
    }

    method UpdateFootpathValue(footpathValue: string)
      modifies this
      ensures View() == FootpathValueUpdated(old(View()), footpathValue, cfg)
    {
      footpath := footpathValue;
      footpathWidthEnabled := footpathValue != NoFootpath;
      footpathThicknessEnabled := footpathValue != NoFootpath;
      RecalculateGirders();
    }

    method UpdateOverallBridgeWidthDisplay()
      modifies this
      ensures View() == old(View()).(overallWidthDisplay := Number(Width(old(View()), cfg)))
    {
      overallWidthDisplay := Number(OverallBridgeWidth());
    }

    method RecalculateGirders()
      modifies this
      decreases if updatingFields then 0 else 1, 1
      ensures View() == Recalculated(old(View()), cfg)
    {
      if updatingFields {
        return;
      }
      UpdateOverallBridgeWidthDisplay();
      var width := OverallBridgeWidth();
      var spacing := ReadOr(girderSpacing, cfg.defaults.girderSpacing);
      var overhang := ReadOr(deckOverhang, cfg.defaults.deckOverhang);
      if spacing.None? || overhang.None? {
        return;
      }
      if spacing.value >= width || overhang.value >= width {
        noOfGirders := NoCount;
        OnNoOfGirdersChanged();
        return;
      }
      if spacing.value > 0.0 {
        var n := RoundHalfEven(ClearWidth(width, overhang.value) / spacing.value) + 1;
        if n >= 2 {
          updatingFields := true;
          noOfGirders := Count(n);
          OnNoOfGirdersChanged();
          updatingFields := false;
        }
      }
    }

    method OnGirderSpacingChanged()
      modifies this
      decreases if updatingFields then 0 else 1, 2
      ensures View() == AfterGirderSpacingChanged(old(View()), cfg)
    {
      if !updatingFields {
        var width := OverallBridgeWidth();
        match girderSpacing
        case Unparsable =>
        case Number(s) =>
          if s >= width {
            alerts := alerts + [InvalidGirderSpacing(s, width)];
            return;
          }
          RecalculateGirders();
        case Empty =>
          RecalculateGirders();
      }
    }

    method OnDeckOverhangChanged()
      modifies this
      decreases if updatingFields then 0 else 1, 2
      ensures View() == AfterDeckOverhangChanged(old(View()), cfg)
    {
      if !updatingFields {
        var width := OverallBridgeWidth();
        match deckOverhang
        case Unparsable =>
        case Number(o) =>
          if o >= width {
            alerts := alerts + [InvalidDeckOverhang(o, width)];
            return;
          }
          RecalculateGirders();
        case Empty =>
          RecalculateGirders();
      }
    }

    method OnNoOfGirdersChanged()
      modifies this
      decreases if updatingFields then 0 else 1, 0
      ensures View() == AfterNoOfGirdersChanged(old(View()), cfg)
    {
      if !updatingFields {
        match noOfGirders
        case Count(n) =>
          if n < 2 {
            alerts := alerts + [InvalidGirderCount];
            return;
          }
          var width := OverallBridgeWidth();
          var overhang := ReadOr(deckOverhang, cfg.defaults.deckOverhang);
          if overhang.Some? && n > 1 {
            updatingFields := true;
            girderSpacing := Number(SpacingFor(width, overhang.value, n));
            OnGirderSpacingChanged();
            updatingFields := false;
          }
        case NoCount =>
        case NotACount =>
      }
    }

    method OnFootpathWidthChanged()
      modifies this
      decreases if updatingFields then 0 else 1, 2
      ensures View() == Recalculated(old(View()), cfg)
    {
      if !updatingFields {
        RecalculateGirders();
      }
    }

    /** validate_footpath_width. Unlike the older tab, this tab connects it to no signal, so
        nothing calls it. */
    method ValidateFootpathWidth()
      modifies this
      ensures View() ==
        old(View()).(alerts := AlertsAfterCheck(old(alerts), footpathWidth, cfg.minimums.footpathWidth, FootpathWidthError))
    {
      if footpathWidth.Number? && footpathWidth.value < cfg.minimums.footpathWidth {
        alerts := alerts + [FootpathWidthError];
      }
    }

    method ValidateRailingHeight()
      modifies this
      ensures View() ==
        old(View()).(alerts := AlertsAfterCheck(old(alerts), railingHeight, cfg.minimums.railingHeight, RailingHeightError))
    {
      if railingHeight.Number? && railingHeight.value < cfg.minimums.railingHeight {
        alerts := alerts + [RailingHeightError];
      }
    }

    method UpdateFootpathThickness()
      modifies this
      ensures View() ==
        old(View()).(footpathThickness := FilledThickness(deckThickness, old(footpathThickness)))
    {
      if deckThickness != "" && footpathThickness == "" {
        footpathThickness := deckThickness;
      }
    }

    method OnCrashBarrierTypeChanged(barrierType: string)
      modifies this
      ensures View() == old(View()).(alerts := old(alerts) +
        (if BarrierNeedsFootpath(barrierType, footpath) then [BarrierNotPermitted(barrierType)] else []))
    {
      if (barrierType == "Flexible" || barrierType == "Semi-Rigid") && footpath == NoFootpath {
        alerts := alerts + [BarrierNotPermitted(barrierType)];
      }
    }

    /** An automatic mode locks and clears the load value; any other mode unlocks it and
        keeps what was typed. */
    method OnRailingLoadModeChanged(mode: string)
      modifies this
      ensures railingLoadEnabled <==> !IsAutomaticLoad(mode)
      ensures railingLoadValue == if IsAutomaticLoad(mode) then "" else old(railingLoadValue)
      ensures View() == old(View()).(railingLoadEnabled := railingLoadEnabled,
                                     railingLoadValue := railingLoadValue)
    {
      var isAuto := "Automatic" <= mode;
      railingLoadEnabled := !isAuto;
      if isAuto {
        railingLoadValue := "";
      }
    }

    /** _update_lane_details_rows, given what `int(count)` made of the selector's text
        (None when it raised). The table takes that many rows (a negative count leaves it as
        it was), column 0 of row r holds r + 1, every other cell keeps its item, and a
        missing item becomes an empty one. */
    method UpdateLaneDetailsRows(count: Option<int>)
      requires Valid()
      modifies this
      ensures Valid()
      ensures View() == old(View()).(laneCells := laneCells)
      ensures laneCells == LaneCellsAfter(old(laneCells), count)
    {
      var total := if count.Some? then count.value else 1;
      if total < 0 {
        return;
      }
      var before := laneCells;
      // setRowCount: keep the first rows, add rows with no items.
      laneCells := seq(total, r requires 0 <= r => if r < |before| then before[r] else [None, None, None]);
      ghost var resized := laneCells;
      var row := 0;
      while row < total
        invariant 0 <= row <= total && |laneCells| == total
        invariant View() == old(View()).(laneCells := laneCells)
        invariant LanesWellFormed(laneCells)
        invariant forall r :: row <= r < total ==> laneCells[r] == resized[r]
        invariant forall r :: 0 <= r < row ==> laneCells[r][0] == Some(NatToString(r + 1))
        invariant forall r, c :: 0 <= r < row && 1 <= c < LaneColumns ==>
          laneCells[r][c] == if resized[r][c].Some? then resized[r][c] else Some("")
      {
        var cells := laneCells[row][0 := Some(NatToString(row + 1))];
        var col := 1;
        while col < LaneColumns
          invariant 1 <= col <= LaneColumns && |cells| == LaneColumns
          invariant cells[0] == Some(NatToString(row + 1))
          invariant forall c :: 1 <= c < col ==>
            cells[c] == if resized[row][c].Some? then resized[row][c] else Some("")
          invariant forall c :: col <= c < LaneColumns ==> cells[c] == resized[row][c]
        {
          if cells[col].None? {
            cells := cells[col := Some("")];
          }
          col := col + 1;
        }
        laneCells := laneCells[row := cells];
        row := row + 1;
      }
      ghost var expected := LaneCellsAfter(old(laneCells), count);
      forall r | 0 <= r < total
        ensures laneCells[r] == expected[r]
      {
        assert forall c :: 0 <= c < LaneColumns ==> laneCells[r][c] == expected[r][c];
      }
    }

    /** The lane selector's change handler: the table follows the new count. */
    method OnLaneCountChanged(count: Option<int>)
      requires Valid()
      modifies this
      ensures Valid()
      ensures View() == old(View()).(laneCells := laneCells)
      ensures laneCells == LaneCellsAfter(old(laneCells), count)
    {
      UpdateLaneDetailsRows(count);
    }
  }
}
