/** The older additional-inputs widgets: the bridge-geometry tab that reconciles overall
    width, girder spacing and number of girders (railing width in metres), the
    optimizable field, and the end-diaphragm tab's type switch. */
module AdditionalInputs {
  import opened Fields
  import opened Girders

  /** Overall bridge width: carriageway, plus the footpaths ("Both" counts two, "Single
      Sided" one), plus a crash barrier on each edge, plus a railing on each side when there
      is a footpath. Railing width is read in metres. An empty footpath width counts as 0,
      empty barrier and railing widths take their defaults, and any text that does not
      parse gives back the bare carriageway width. */
  function OverallWidth(carriageway: real, footpath: string, footpathWidth: Text,
                        crashBarrierWidth: Text, railingWidth: Text, d: Defaults): (w: real)
    ensures crashBarrierWidth.Unparsable? ==> w == carriageway
    ensures footpath != NoFootpath && (footpathWidth.Unparsable? || railingWidth.Unparsable?) ==>
      w == carriageway
    ensures footpath == NoFootpath && !crashBarrierWidth.Unparsable? ==>
      w == carriageway + 2.0 * ReadOr(crashBarrierWidth, d.crashBarrierWidth).value
    ensures footpath != NoFootpath && !footpathWidth.Unparsable? && !crashBarrierWidth.Unparsable?
            && !railingWidth.Unparsable? ==>
      w == carriageway
           + FootpathCount(footpath) as real * ReadOr(footpathWidth, 0.0).value
           + 2.0 * ReadOr(crashBarrierWidth, d.crashBarrierWidth).value
           + 2.0 * ReadOr(railingWidth, d.railingWidth).value
  {
    var present := footpath != NoFootpath;
    var fp := if present then ReadOr(footpathWidth, 0.0) else Some(0.0);
    var cb := ReadOr(crashBarrierWidth, d.crashBarrierWidth);
    var rail := if present then ReadOr(railingWidth, d.railingWidth) else Some(0.0);
    if fp.None? || cb.None? || rail.None? then carriageway
    else
      var w := carriageway + FootpathCount(footpath) as real * fp.value + cb.value * 2.0;
      if present then w + rail.value * 2.0 else w
  }

  /** Without a footpath, neither the footpath width nor the railing width matters. */
  lemma NoFootpathIgnoresFootpathAndRailing(carriageway: real, barrier: Text,
                                            footpath1: Text, footpath2: Text,
                                            railing1: Text, railing2: Text, d: Defaults)
    ensures OverallWidth(carriageway, NoFootpath, footpath1, barrier, railing1, d)
         == OverallWidth(carriageway, NoFootpath, footpath2, barrier, railing2, d)
  {
  }

  /** An empty field reads as 0 (footpath) or as its default (barrier, railing). */
  lemma EmptyFieldsReadAsDefaults(carriageway: real, footpath: string, footpathWidth: Text,
                                  barrier: Text, railing: Text, d: Defaults)
    ensures OverallWidth(carriageway, footpath, Empty, barrier, railing, d)
         == OverallWidth(carriageway, footpath, Number(0.0), barrier, railing, d)
    ensures OverallWidth(carriageway, footpath, footpathWidth, Empty, railing, d)
         == OverallWidth(carriageway, footpath, footpathWidth, Number(d.crashBarrierWidth), railing, d)
    ensures OverallWidth(carriageway, footpath, footpathWidth, barrier, Empty, d)
         == OverallWidth(carriageway, footpath, footpathWidth, barrier, Number(d.railingWidth), d)
  {
  }

  /** What the bridge-geometry tab holds: the text of its line edits, the visibility of the
      footpath and safety-kerb groups, the re-entrancy flag and the dialogs raised so far. */
  datatype Tab = Tab(
    footpath: string,
    girderSpacing: Text,
    noOfGirders: CountText,
    deckOverhang: Text,
    deckThickness: string,
    footpathWidth: Text,
    footpathThickness: string,
    crashBarrierWidth: Text,
    railingWidth: Text,
    railingHeight: Text,
    safetyKerbWidth: Text,
    footpathGroupVisible: bool,
    safetyKerbVisible: bool,
    updatingFields: bool,
    alerts: seq<Alert>)

  /** The tab as built: defaults in the spacing, overhang, barrier and railing fields, every
      other field empty, groups shown according to the footpath, no recalculation yet. */
  function Built(footpath: string, d: Defaults): (t: Tab)
    ensures !t.updatingFields && t.alerts == [] && t.noOfGirders == NoCount
  {
    Tab(footpath, Number(d.girderSpacing), NoCount, Number(d.deckOverhang), "", Empty, "",
        Number(d.crashBarrierWidth), Number(d.railingWidth), Empty, Empty,
        footpath != NoFootpath, footpath == NoFootpath, false, [])
  }

  function Width(t: Tab, cfg: Config): real {
    OverallWidth(cfg.carriageway, t.footpath, t.footpathWidth, t.crashBarrierWidth,
                 t.railingWidth, cfg.defaults)
  }

  /** recalculate_girders: nothing while the flag is up; otherwise only the count field
      changes, to what the girder-count rules decide. */
  function Recalculated(t: Tab, cfg: Config): (r: Tab)
    ensures t.updatingFields ==> r == t
    ensures r == t.(noOfGirders := r.noOfGirders)
    ensures !t.updatingFields ==>
      r.noOfGirders == ApplyCount(t.noOfGirders,
        CountUpdateFor(Width(t, cfg), t.girderSpacing, t.deckOverhang, cfg.defaults))
  {
    if t.updatingFields then t
    else
      var u := CountUpdateFor(Width(t, cfg), t.girderSpacing, t.deckOverhang, cfg.defaults);
      t.(noOfGirders := ApplyCount(t.noOfGirders, u))
  }

  /** on_girder_spacing_changed: a parsed spacing at or above the overall width only warns;
      text that does not parse does nothing; anything else recalculates. */
  function AfterGirderSpacingChanged(t: Tab, cfg: Config): (r: Tab)
    ensures r == t.(noOfGirders := r.noOfGirders, alerts := r.alerts)
    ensures t.alerts <= r.alerts
  {
    if t.updatingFields then t
    else
      var w := Width(t, cfg);
      match t.girderSpacing
      case Unparsable => t
      case Number(s) =>
        if s >= w then t.(alerts := t.alerts + [InvalidGirderSpacing(s, w)])
        else Recalculated(t, cfg)
      case Empty => Recalculated(t, cfg)
  }

  /** A spacing typed at or above the overall width only warns: the count it made stale
      stays in its field, although a recalculation over the same fields (with an overhang
      that parses) would clear it. */
  lemma SpacingAtWidthOnlyWarns(t: Tab, cfg: Config)
    requires !t.updatingFields && t.girderSpacing.Number? && t.girderSpacing.value >= Width(t, cfg)
    ensures AfterGirderSpacingChanged(t, cfg)
         == t.(alerts := t.alerts + [InvalidGirderSpacing(t.girderSpacing.value, Width(t, cfg))])
    ensures !t.deckOverhang.Unparsable? ==> Recalculated(t, cfg).noOfGirders == NoCount
  {
  }

  /** on_deck_overhang_changed: the same shape for the overhang. */
  function AfterDeckOverhangChanged(t: Tab, cfg: Config): (r: Tab)
    ensures r == t.(noOfGirders := r.noOfGirders, alerts := r.alerts)
    ensures t.alerts <= r.alerts
  {
    if t.updatingFields then t
    else
      var w := Width(t, cfg);
      match t.deckOverhang
      case Unparsable => t
      case Number(o) =>
        if o >= w then t.(alerts := t.alerts + [InvalidDeckOverhang(o, w)])
        else Recalculated(t, cfg)
      case Empty => Recalculated(t, cfg)
  }

  /** on_no_of_girders_changed: a count below 2 warns, a count of 2 or more rewrites the
      spacing, and the count field itself is never touched. */
  function AfterNoOfGirdersChanged(t: Tab, cfg: Config): (r: Tab)
    ensures r.noOfGirders == t.noOfGirders
    ensures r == t.(girderSpacing := r.girderSpacing, alerts := r.alerts)
  {
    if t.updatingFields then t
    else
      match SpacingUpdateFor(t.noOfGirders, Width(t, cfg), t.deckOverhang, cfg.defaults)
      case SpacingUnchanged => t
      case TooFewGirders => t.(alerts := t.alerts + [InvalidGirderCount])
      case NewSpacing(s) => t.(girderSpacing := Number(s))
  }

  /** update_footpath_value: show the footpath group exactly when there is a footpath and
      the safety-kerb group exactly when there is none, then recalculate. */
  function FootpathValueUpdated(t: Tab, footpath: string, cfg: Config): Tab {
    Recalculated(t.(footpath := footpath,
                    footpathGroupVisible := footpath != NoFootpath,
                    safetyKerbVisible := footpath == NoFootpath), cfg)
  }

  // ---------------------------------------------------------------------------------
  // Properties of the reconciliation.

  /** A recalculation right after another changes nothing. */
  lemma RecalculateIdempotent(t: Tab, cfg: Config)
    ensures Recalculated(Recalculated(t, cfg), cfg) == Recalculated(t, cfg)
  {
    var r := Recalculated(t, cfg);
    if !t.updatingFields {
      assert Width(r, cfg) == Width(t, cfg);
    }
  }

  /** Editing the count and then recalculating (from any later trigger) keeps the edited
      count: the spacing written back for `n` girders yields `n` again. Writing that spacing
      does not itself recalculate, because the flag is up while it is written. */
  lemma CountEditSurvivesRecalculation(t: Tab, cfg: Config, n: int)
    requires !t.updatingFields && t.noOfGirders == Count(n) && n >= 2
    requires !t.deckOverhang.Unparsable?
    requires
      var o := ReadOr(t.deckOverhang, cfg.defaults.deckOverhang).value;
      var w := Width(t, cfg);
      ClearWidth(w, o) > 0.0 && SpacingFor(w, o, n) < w && o < w
    ensures Recalculated(AfterNoOfGirdersChanged(t, cfg), cfg).noOfGirders == Count(n)
  {
    var o := ReadOr(t.deckOverhang, cfg.defaults.deckOverhang).value;
    var w := Width(t, cfg);
    var e := AfterNoOfGirdersChanged(t, cfg);
    assert e.girderSpacing == Number(SpacingFor(w, o, n));
    assert Width(e, cfg) == w;
    CountSpacingCount(w, o, n);
  }

  /** The worked example: carriageway 7.5 m, no footpath, 0.5 m barriers give an overall
      width of 8.5 m; 2.5 m spacing and 1.0 m overhang give round(2.6) + 1 = 4 girders. */
  lemma WorkedExample(railingWidth: real)
    ensures
      var cfg := Config(7.5, Defaults(2.5, 1.0, 0.5, railingWidth), Minimums(1.5, 1.1, 0.75));
      var t := Built(NoFootpath, cfg.defaults);
      Width(t, cfg) == 8.5 && Recalculated(t, cfg).noOfGirders == Count(4)
  {
    var cfg := Config(7.5, Defaults(2.5, 1.0, 0.5, railingWidth), Minimums(1.5, 1.1, 0.75));
    var t := Built(NoFootpath, cfg.defaults);
    assert Width(t, cfg) == 8.5;
    SpacingNotRecoveredInGeneral();
  }

  /** The bridge-geometry tab. Writing the count or the spacing from inside a handler fires
      that field's change handler at once, as the toolkit's text-changed signal does; the
      `updatingFields` flag is what stops the chain. */
  class BridgeGeometryTab {
    const cfg: Config
    var footpath: string
    var girderSpacing: Text
    var noOfGirders: CountText
    var deckOverhang: Text
    var deckThickness: string
    var footpathWidth: Text
    var footpathThickness: string
    var crashBarrierWidth: Text
    var railingWidth: Text
    var railingHeight: Text
    var safetyKerbWidth: Text
    var footpathGroupVisible: bool
    var safetyKerbVisible: bool
    var updatingFields: bool
    var alerts: seq<Alert>

    function View(): Tab
      reads this
    {
      Tab(footpath, girderSpacing, noOfGirders, deckOverhang, deckThickness, footpathWidth,
          footpathThickness, crashBarrierWidth, railingWidth, railingHeight, safetyKerbWidth,
          footpathGroupVisible, safetyKerbVisible, updatingFields, alerts)
    }

    function OverallBridgeWidth(): real
      reads this
    {
      Width(View(), cfg)
    }

    constructor (footpathValue: string, carriagewayWidth: real, defaults: Defaults, minimums: Minimums)
      ensures cfg == Config(carriagewayWidth, defaults, minimums)
      ensures View() == Recalculated(Built(footpathValue, defaults), cfg)
    {
      cfg := Config(carriagewayWidth, defaults, minimums);
      footpath := footpathValue;
      girderSpacing := Number(defaults.girderSpacing);
      noOfGirders := NoCount;
      deckOverhang := Number(defaults.deckOverhang);
      deckThickness := "";
      footpathWidth := Empty;
      footpathThickness := "";
      crashBarrierWidth := Number(defaults.crashBarrierWidth);
      railingWidth := Number(defaults.railingWidth);
      railingHeight := Empty;
      safetyKerbWidth := Empty;
      footpathGroupVisible := footpathValue != NoFootpath;
      safetyKerbVisible := footpathValue == NoFootpath;
      updatingFields := false;
      alerts := [];
      new;
      RecalculateGirders();
    }

    method UpdateFootpathValue(footpathValue: string)
      modifies this
      ensures View() == FootpathValueUpdated(old(View()), footpathValue, cfg)
    {
      footpath := footpathValue;
      footpathGroupVisible := footpathValue != NoFootpath;
      safetyKerbVisible := footpathValue == NoFootpath;
      RecalculateGirders();
    }

    method RecalculateGirders()
      modifies this
      decreases if updatingFields then 0 else 1, 1
      ensures View() == Recalculated(old(View()), cfg)
    {
      if updatingFields {
        return;
      }
      var width := OverallBridgeWidth();
      var spacing := ReadOr(girderSpacing, cfg.defaults.girderSpacing);
      var overhang := ReadOr(deckOverhang, cfg.defaults.deckOverhang);
      if spacing.None? || overhang.None? {
        return;
      }
      if spacing.value >= width || overhang.value >= width {
        noOfGirders := NoCount;
        OnNoOfGirdersChanged();
        return;
      }
      if spacing.value > 0.0 {
        var n := RoundHalfEven(ClearWidth(width, overhang.value) / spacing.value) + 1;
        if n >= 2 {
          updatingFields := true;
          noOfGirders := Count(n);
          OnNoOfGirdersChanged();
          updatingFields := false;
        }
      }
    }

    method OnGirderSpacingChanged()
      modifies this
      decreases if updatingFields then 0 else 1, 2
      ensures View() == AfterGirderSpacingChanged(old(View()), cfg)
    {
      if !updatingFields {
        var width := OverallBridgeWidth();
        match girderSpacing
        case Unparsable =>
        case Number(s) =>
          if s >= width {
            alerts := alerts + [InvalidGirderSpacing(s, width)];
            return;
          }
          RecalculateGirders();
        case Empty =>
          RecalculateGirders();
      }
    }

    method OnDeckOverhangChanged()
      modifies this
      decreases if updatingFields then 0 else 1, 2
      ensures View() == AfterDeckOverhangChanged(old(View()), cfg)
    {
      if !updatingFields {
        var width := OverallBridgeWidth();
        match deckOverhang
        case Unparsable =>
        case Number(o) =>
          if o >= width {
            alerts := alerts + [InvalidDeckOverhang(o, width)];
            return;
          }
          RecalculateGirders();
        case Empty =>
          RecalculateGirders();
      }
    }

    method OnNoOfGirdersChanged()
      modifies this
      decreases if updatingFields then 0 else 1, 0
      ensures View() == AfterNoOfGirdersChanged(old(View()), cfg)
    {
      if !updatingFields {
        match noOfGirders
        case Count(n) =>
          if n < 2 {
            alerts := alerts + [InvalidGirderCount];
            return;
          }
          var width := OverallBridgeWidth();
          var overhang := ReadOr(deckOverhang, cfg.defaults.deckOverhang);
          if overhang.Some? && n > 1 {
            updatingFields := true;
            girderSpacing := Number(SpacingFor(width, overhang.value, n));
            OnGirderSpacingChanged();
            updatingFields := false;
          }
        case NoCount =>
        case NotACount =>
      }
    }

    method OnFootpathWidthChanged()
      modifies this
      decreases if updatingFields then 0 else 1, 2
      ensures View() == Recalculated(old(View()), cfg)
    {
      if !updatingFields {
        RecalculateGirders();
      }
    }

    method ValidateFootpathWidth()
      modifies this
      ensures View() ==
        old(View()).(alerts := AlertsAfterCheck(old(alerts), footpathWidth, cfg.minimums.footpathWidth, FootpathWidthError))
    {
      if footpathWidth.Number? && footpathWidth.value < cfg.minimums.footpathWidth {
        alerts := alerts + [FootpathWidthError];
      }
    }

    method ValidateRailingHeight()
      modifies this
      ensures View() ==
        old(View()).(alerts := AlertsAfterCheck(old(alerts), railingHeight, cfg.minimums.railingHeight, RailingHeightError))
    {
      if railingHeight.Number? && railingHeight.value < cfg.minimums.railingHeight {
        alerts := alerts + [RailingHeightError];
      }
    }

    method ValidateSafetyKerbWidth()
      modifies this
      ensures View() ==
        old(View()).(alerts := AlertsAfterCheck(old(alerts), safetyKerbWidth, cfg.minimums.safetyKerbWidth, SafetyKerbWidthError))
    {
      if safetyKerbWidth.Number? && safetyKerbWidth.value < cfg.minimums.safetyKerbWidth {
        alerts := alerts + [SafetyKerbWidthError];
      }
    }

    method UpdateFootpathThickness()
      modifies this
      ensures View() ==
        old(View()).(footpathThickness := FilledThickness(deckThickness, old(footpathThickness)))
    {
      if deckThickness != "" && footpathThickness == "" {
        footpathThickness := deckThickness;
      }
    }

    method OnCrashBarrierTypeChanged(barrierType: string)
      modifies this
      ensures View() == old(View()).(alerts := old(alerts) +
        (if BarrierNeedsFootpath(barrierType, footpath) then [BarrierNotPermitted(barrierType)] else []))
    {
      if (barrierType == "Flexible" || barrierType == "Semi-Rigid") && footpath == NoFootpath {
        alerts := alerts + [BarrierNotPermitted(barrierType)];
      }
    }
  }

  /** A mode selector ("Optimized", "Customized", ...) beside a line edit. */
  class OptimizableField {
    var inputEnabled: bool
    var inputText: string

    /** A disabled input is always empty. */
    ghost predicate Valid()
      reads this
    {
      !inputEnabled ==> inputText == ""
    }

    constructor ()
      ensures Valid() && !inputEnabled && inputText == ""
    {
      inputEnabled := false;
      inputText := "";
    }

    method OnModeChanged(text: string)
      modifies this
      ensures Valid()
      ensures inputEnabled <==> text != "Optimized"
      ensures text == "Optimized" ==> inputText == ""
      ensures text != "Optimized" ==> inputText == old(inputText)
    {
      if text == "Optimized" {
        inputEnabled := false;
        inputText := "";
      } else {
        inputEnabled := true;
      }
    }
  }

  /** The end-diaphragm tab of the older widget: two groups, shown by section type. */
  class EndDiaphragmDetailsTab {
    var isBeamGroupVisible: bool
    var plateGirderGroupVisible: bool

    constructor (initialType: string)
      ensures isBeamGroupVisible <==> initialType == "Rolled Beam Section"
      ensures plateGirderGroupVisible <==>
        initialType != "Same as cross-bracing" && initialType != "Rolled Beam Section"
    {
      new;
      OnTypeChanged(initialType);
    }

    /** "Same as cross-bracing" hides both groups, "Rolled Beam Section" shows the rolled
        beam group, and any other type shows the plate girder group: never both. */
    method OnTypeChanged(text: string)
      modifies this
      ensures isBeamGroupVisible <==> text == "Rolled Beam Section"
      ensures plateGirderGroupVisible <==>
        text != "Same as cross-bracing" && text != "Rolled Beam Section"
      ensures !(isBeamGroupVisible && plateGirderGroupVisible)
    {
      if text == "Same as cross-bracing" {
        isBeamGroupVisible := false;
        plateGirderGroupVisible := false;
      } else if text == "Rolled Beam Section" {
        isBeamGroupVisible := true;
        plateGirderGroupVisible := false;
      } else {
        isBeamGroupVisible := false;
        plateGirderGroupVisible := true;
      }
    }
  }
}
