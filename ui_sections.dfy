/** The small dependent-field rules of the newer additional-inputs widgets: the optimisable
    field, the section-properties navigation and the end-diaphragm tab. */
module UiSections {

  /** Modes in which the optimiser picks the value, so there is nothing to type. */
  predicate OptimizerChooses(mode: string) {
    mode == "Optimized" || mode == "All"
  }

  /** A mode selector with a value field beside it. */
  class OptimizableField {
    var inputEnabled: bool
    var inputVisible: bool
    var inputText: string

    /** The value field is shown exactly when it is editable, and is empty when it is not. */
    ghost predicate Valid()
      reads this
    {
      inputEnabled == inputVisible && (!inputEnabled ==> inputText == "")
    }

    /** Built with the field disabled and hidden, then brought in line with the mode the
        selector starts on. */
    constructor (initialMode: string)
      ensures Valid()
      ensures inputEnabled <==> !OptimizerChooses(initialMode)
      ensures inputText == ""
    {
      inputEnabled := false;
      inputVisible := false;
      inputText := "";
      new;
      OnModeChanged(initialMode);
    }

    method OnModeChanged(mode: string)
      modifies this
      ensures Valid()
      ensures inputEnabled <==> !OptimizerChooses(mode)
      ensures inputText == if OptimizerChooses(mode) then "" else old(inputText)
    {
      if mode == "Optimized" || mode == "All" {
        inputEnabled := false;
        inputText := "";
        inputVisible := false;
      } else {
        inputEnabled := true;
        inputVisible := true;
      }
    }
  }

  /** Pages of the section-properties tab: girder, stiffener, cross-bracing, end diaphragm. */
  const SectionCount: nat := 4

  function CountTrue(bs: seq<bool>): (k: nat)
    ensures k <= |bs|
  {
    if bs == [] then 0 else CountTrue(bs[..|bs| - 1]) + (if bs[|bs| - 1] then 1 else 0)
  }

  /** Buttons checked exactly at `index` leave one button checked when `index` names a
      button, and none otherwise. */
  lemma {:induction false} OnlySelectedButtonChecked(bs: seq<bool>, index: int)
    requires forall i :: 0 <= i < |bs| ==> (bs[i] <==> i == index)
    ensures CountTrue(bs) == if 0 <= index < |bs| then 1 else 0
  {
    if bs != [] {
      var front := bs[..|bs| - 1];
      assert forall i :: 0 <= i < |front| ==> front[i] == bs[i];
      OnlySelectedButtonChecked(front, index);
    }
  }

  /** The section-properties tab: a row of checkable navigation buttons over a stack of
      pages. */
  class SectionPropertiesTab {
    var stackIndex: int
    var buttonsChecked: seq<bool>

    /** The page shown and the one checked button agree. */
    ghost predicate Valid()
      reads this
    {
      && |buttonsChecked| == SectionCount
      && 0 <= stackIndex < SectionCount
      && forall i :: 0 <= i < |buttonsChecked| ==> (buttonsChecked[i] <==> i == stackIndex)
    }

    /** Built on the first page with the first button checked. */
    constructor ()
      ensures Valid()
      ensures stackIndex == 0
      ensures CountTrue(buttonsChecked) == 1
    {
      stackIndex := 0;
      buttonsChecked := [true, false, false, false];
      new;
      OnlySelectedButtonChecked(buttonsChecked, 0);
    }

    /** Show page `index` (the stack ignores an index with no page) and check the button at
        `index` alone. */
    method SwitchSection(index: int)
      requires |buttonsChecked| == SectionCount
      modifies this
      ensures stackIndex == if 0 <= index < SectionCount then index else old(stackIndex)
      ensures |buttonsChecked| == SectionCount
      ensures forall i :: 0 <= i < SectionCount ==> (buttonsChecked[i] <==> i == index)
      ensures CountTrue(buttonsChecked) == if 0 <= index < SectionCount then 1 else 0
      ensures 0 <= index < SectionCount ==> Valid()
    {
      if 0 <= index < SectionCount {
        stackIndex := index;
      }
      var b := 0;
      while b < |buttonsChecked|
        invariant 0 <= b <= |buttonsChecked| == SectionCount
        invariant stackIndex == if 0 <= index < SectionCount then index else old(stackIndex)
        invariant forall i :: 0 <= i < b ==> (buttonsChecked[i] <==> i == index)
      {
        buttonsChecked := buttonsChecked[b := b == index];
        b := b + 1;
      }
      OnlySelectedButtonChecked(buttonsChecked, index);
    }
  }

  /** Plate-girder rows of the end-diaphragm tab: flange widths and thicknesses, depth, web
      thickness. */
  const PlateRowCount: nat := 6

  /** The end-diaphragm tab. The label and the field of a plate row are always shown
      together, and so are the section label and its selector, and the spacing label and
      its field are enabled together; each pair is one flag here. */
  class EndDiaphragmDetailsTab {
    var sectionVisible: bool
    var plateRowsVisible: seq<bool>
    var spacingEnabled: bool
    var spacingText: string

    constructor (initialType: string)
      ensures sectionVisible <==> initialType == "Rolled Beam Section"
      ensures |plateRowsVisible| == PlateRowCount
      ensures forall i :: 0 <= i < PlateRowCount ==>
        (plateRowsVisible[i] <==> initialType == "Plate Girder Section")
      ensures spacingEnabled <==> initialType != "Same as cross-bracing"
      ensures spacingText == ""
    {
      sectionVisible := true;
      plateRowsVisible := [true, true, true, true, true, true];
      spacingEnabled := true;
      spacingText := "";
      new;
      OnTypeChanged(initialType);
    }

    /** The rolled-section selector shows only for a rolled beam, the plate rows only for a
        plate girder, and reusing the cross-bracing locks and clears the spacing. */
    method OnTypeChanged(diaphragmType: string)
      modifies this
      ensures sectionVisible <==> diaphragmType == "Rolled Beam Section"
      ensures |plateRowsVisible| == old(|plateRowsVisible|)
      ensures forall i :: 0 <= i < |plateRowsVisible| ==>
        (plateRowsVisible[i] <==> diaphragmType == "Plate Girder Section")
      ensures spacingEnabled <==> diaphragmType != "Same as cross-bracing"
      ensures spacingText == if diaphragmType == "Same as cross-bracing" then "" else old(spacingText)
    {
      var isSame := diaphragmType == "Same as cross-bracing";
      var isRolled := diaphragmType == "Rolled Beam Section";
      sectionVisible := isRolled;
      var showPlate := diaphragmType == "Plate Girder Section";
      var r := 0;
      while r < |plateRowsVisible|
        invariant 0 <= r <= |plateRowsVisible| == old(|plateRowsVisible|)
        invariant sectionVisible == isRolled && spacingText == old(spacingText)
        invariant forall i :: 0 <= i < r ==> plateRowsVisible[i] == showPlate
      {
        plateRowsVisible := plateRowsVisible[r := showPlate];
        r := r + 1;
      }
      if isSame {
        spacingEnabled := false;
        spacingText := "";
      } else {
        spacingEnabled := true;
      }
    }
  }
}
