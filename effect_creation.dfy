/**
 * The effect-creation form (CreationUI/EffectManager.cs). A main dropdown
 * picks a main panel and a sub dropdown one of its sub-panels; a sub-panel
 * turns its widgets into a list of strings (`GetValues`), and `SaveEffect`
 * files the form under (main, sub) in a two-level table.
 *
 * Widgets are values: a dropdown is its option texts with the selected
 * index, which the widget keeps within its options; an input field is its
 * text with a handle standing for its object identity.
 */
module EffectCreation {
  import opened Wrappers
  import opened Seqs
  import opened Strings

  datatype DropdownData = DropdownData(options: seq<string>, value: int)

  /** A dropdown always has its selected option. */
  type Dropdown = d: DropdownData | 0 <= d.value < |d.options| witness DropdownData([""], 0)

  datatype InputField = InputField(handle: nat, text: string)

  /**
   * A sub-panel: its dropdowns, the optional toggle and number-input arrays
   * of its conditional inputs (`None` for an unset array), and all its input
   * fields, the conditional ones included.
   */
  datatype SubPanel = SubPanel(
    dropdowns: seq<Dropdown>,
    inputToggles: Option<seq<bool>>,
    conditionalInputs: Option<seq<InputField>>,
    inputFields: seq<InputField>)
  {
    /**
     * `GetValues`: the selected dropdown texts first, in dropdown order, then
     * the conditional values, then the plain inputs.
     */
    method GetValues() returns (values: seq<string>)
      ensures values == PanelValues(this)
      ensures |values| >= |dropdowns|
      ensures forall i :: 0 <= i < |dropdowns| ==> values[i] == dropdowns[i].options[dropdowns[i].value]
    {
      values := [];
      var i := 0;
      while i < |dropdowns|
        invariant 0 <= i <= |dropdowns|
        invariant values == DropdownTexts(dropdowns[..i])
      {
        assert dropdowns[..i + 1][..i] == dropdowns[..i];
        values := values + [dropdowns[i].options[dropdowns[i].value]];
        i := i + 1;
      }
      assert dropdowns[..i] == dropdowns;
      if inputToggles.Some? && conditionalInputs.Some? {
        var conditional := CollectConditional(inputToggles.value, conditionalInputs.value);
        values := values + conditional;
      }
      var plain := CollectPlain(inputFields, conditionalInputs);
      values := values + plain;
    }
  }

  /**
   * The middle loop of `GetValues`: one pass over the toggle / number-input
   * pairs, as far as both arrays reach.
   */
  method CollectConditional(toggles: seq<bool>, inputs: seq<InputField>) returns (values: seq<string>)
    ensures |toggles| <= |inputs| ==> values == ConditionalValues(toggles, inputs, |toggles|)
    ensures |inputs| <= |toggles| ==> values == ConditionalValues(toggles, inputs, |inputs|)
  {
    values := [];
    var k := 0;
    while k < |toggles| && k < |inputs|
      invariant 0 <= k <= |toggles| && k <= |inputs|
      invariant values == ConditionalValues(toggles, inputs, k)
    {
      if toggles[k] {
        var number := inputs[k].text;
        if !IsBlank(number) {
          if k == 0 {
            values := values + ["Total number of times " + number];
          } else if k == 1 {
            values := values + ["Every " + number + " turns"];
          }
        }
      }
      k := k + 1;
    }
  }

  /** The last loop of `GetValues`: the texts of the inputs that are neither conditional nor blank. */
  method CollectPlain(fields: seq<InputField>, conditional: Option<seq<InputField>>) returns (values: seq<string>)
    ensures values == PlainValues(fields, conditional)
  {
    values := [];
    var j := 0;
    while j < |fields|
      invariant 0 <= j <= |fields|
      invariant values == PlainValues(fields[..j], conditional)
    {
      assert fields[..j + 1][..j] == fields[..j];
      var input := fields[j];
      if !IsConditional(conditional, input) && !IsBlank(input.text) {
        values := values + [input.text];
      }
      j := j + 1;
    }
    assert fields[..j] == fields;
  }

  /** The selected option texts of `ds`, in order. */
  function DropdownTexts(ds: seq<Dropdown>): (r: seq<string>)
    ensures |r| == |ds|
    ensures forall i :: 0 <= i < |ds| ==> r[i] == ds[i].options[ds[i].value]
  {
    if |ds| == 0 then []
    else DropdownTexts(ds[..|ds| - 1]) + [ds[|ds| - 1].options[ds[|ds| - 1].value]]
  }

  /** What conditional pair `i` adds: a value only when its toggle is on and its number is not blank. */
  function Contribution(i: int, isOn: bool, number: string): (r: seq<string>)
    ensures |r| <= 1
  {
    if !isOn || IsBlank(number) then []
    else if i == 0 then ["Total number of times " + number]
    else if i == 1 then ["Every " + number + " turns"]
    else []
  }

  /** The values of the first `n` toggle / number-input pairs. */
  function ConditionalValues(toggles: seq<bool>, inputs: seq<InputField>, n: nat): seq<string>
    requires n <= |toggles| && n <= |inputs|
  {
    if n == 0 then []
    else ConditionalValues(toggles, inputs, n - 1) + Contribution(n - 1, toggles[n - 1], inputs[n - 1].text)
  }

  /** The input is one of the conditional inputs (compared by identity). */
  predicate IsConditional(conditional: Option<seq<InputField>>, f: InputField)
  {
    conditional.Some? && exists j :: 0 <= j < |conditional.value| && conditional.value[j].handle == f.handle
  }

  /** A plain input: not conditional, and not blank. */
  predicate IsPlain(conditional: Option<seq<InputField>>, f: InputField)
  {
    !IsConditional(conditional, f) && !IsBlank(f.text)
  }

  /** The texts of the plain inputs among `fields`, in order. */
  function PlainValues(fields: seq<InputField>, conditional: Option<seq<InputField>>): seq<string>
  {
    if |fields| == 0 then []
    else
      var n := |fields| - 1;
      PlainValues(fields[..n], conditional) + (if IsPlain(conditional, fields[n]) then [fields[n].text] else [])
  }

  /**
   * Every plain value is the text of a plain input, and every plain input's
   * text is among them: conditional and blank inputs are skipped.
   */
  lemma {:induction false} PlainValuesMeaning(fields: seq<InputField>, conditional: Option<seq<InputField>>)
    ensures forall x :: x in PlainValues(fields, conditional) ==>
      exists j :: 0 <= j < |fields| && IsPlain(conditional, fields[j]) && x == fields[j].text
    ensures forall j :: 0 <= j < |fields| && IsPlain(conditional, fields[j]) ==> fields[j].text in PlainValues(fields, conditional)
  {
    if |fields| > 0 {
      var n := |fields| - 1;
      var init := fields[..n];
      PlainValuesMeaning(init, conditional);
      forall x | x in PlainValues(fields, conditional)
        ensures exists j :: 0 <= j < |fields| && IsPlain(conditional, fields[j]) && x == fields[j].text
      {
        if x in PlainValues(init, conditional) {
          var j :| 0 <= j < |init| && IsPlain(conditional, init[j]) && x == init[j].text;
          assert init[j] == fields[j];
        } else {
          assert x == fields[n].text;
        }
      }
      forall j | 0 <= j < |fields| && IsPlain(conditional, fields[j])
        ensures fields[j].text in PlainValues(fields, conditional)
      {
        if j < n {
          assert init[j] == fields[j];
        }
      }
    }
  }

  /** The number of toggle / number-input pairs the loop visits. */
  function PairCount(p: SubPanel): nat
    requires p.inputToggles.Some? && p.conditionalInputs.Some?
  {
    if |p.inputToggles.value| <= |p.conditionalInputs.value| then |p.inputToggles.value|
    else |p.conditionalInputs.value|
  }

  /** The conditional part of a sub-panel's values; nothing when either array is unset. */
  function PanelConditional(p: SubPanel): seq<string>
  {
    if p.inputToggles.Some? && p.conditionalInputs.Some? then
      ConditionalValues(p.inputToggles.value, p.conditionalInputs.value, PairCount(p))
    else []
  }

  /** What `GetValues` returns for a sub-panel. */
  function PanelValues(p: SubPanel): seq<string>
  {
    DropdownTexts(p.dropdowns) + PanelConditional(p) + PlainValues(p.inputFields, p.conditionalInputs)
  }

  /**
   * Only the first two pairs can contribute: the first as "Total number of
   * times N", the second as "Every N turns", each when its toggle is on and
   * its number is not blank.
   */
  lemma {:induction false} ConditionalClosedForm(toggles: seq<bool>, inputs: seq<InputField>, n: nat)
    requires n <= |toggles| && n <= |inputs|
    ensures ConditionalValues(toggles, inputs, n) ==
      (if n >= 1 && toggles[0] && !IsBlank(inputs[0].text) then ["Total number of times " + inputs[0].text] else [])
      + (if n >= 2 && toggles[1] && !IsBlank(inputs[1].text) then ["Every " + inputs[1].text + " turns"] else [])
  {
    if n > 0 {
      ConditionalClosedForm(toggles, inputs, n - 1);
    }
  }

  /** The pairs that contribute a value. */
  function ContributingPairs(toggles: seq<bool>, inputs: seq<InputField>, n: nat): set<nat>
    requires n <= |toggles| && n <= |inputs|
  {
    set i: nat | i < n && Contribution(i, toggles[i], inputs[i].text) != []
  }

  /** One value per contributing pair. */
  lemma {:induction false} ConditionalCount(toggles: seq<bool>, inputs: seq<InputField>, n: nat)
    requires n <= |toggles| && n <= |inputs|
    ensures |ConditionalValues(toggles, inputs, n)| == |ContributingPairs(toggles, inputs, n)|
  {
    if n > 0 {
      ConditionalCount(toggles, inputs, n - 1);
      ContributingPairsStep(toggles, inputs, n);
      CountStep(ConditionalValues(toggles, inputs, n - 1), Contribution(n - 1, toggles[n - 1], inputs[n - 1].text),
        ContributingPairs(toggles, inputs, n - 1), n - 1);
    }
  }

  /** Appending at most one value while adding its position exactly when a value is appended keeps count. */
  lemma CountStep(prev: seq<string>, c: seq<string>, positions: set<nat>, x: nat)
    requires |prev| == |positions| && |c| <= 1 && x !in positions
    ensures |prev + c| == |positions + (if c != [] then {x} else {})|
  {
  }

  /** The positions of the plain inputs among `fields`. */
  function PlainPositions(fields: seq<InputField>, conditional: Option<seq<InputField>>): set<nat>
  {
    set j: nat | j < |fields| && IsPlain(conditional, fields[j])
  }

  /** One value per plain input. */
  lemma {:induction false} PlainCount(fields: seq<InputField>, conditional: Option<seq<InputField>>)
    ensures |PlainValues(fields, conditional)| == |PlainPositions(fields, conditional)|
  {
    if |fields| > 0 {
      var n := |fields| - 1;
      PlainCount(fields[..n], conditional);
      PlainPositionsStep(fields, conditional);
    }
  }

  /** The plain positions of a list are those of all but its last input, plus the last one when it is plain. */
  lemma PlainPositionsStep(fields: seq<InputField>, conditional: Option<seq<InputField>>)
    requires |fields| > 0
    ensures var n := |fields| - 1;
      PlainPositions(fields, conditional) ==
        PlainPositions(fields[..n], conditional) + (if IsPlain(conditional, fields[n]) then {n} else {})
      && n !in PlainPositions(fields[..n], conditional)
  {
    var n := |fields| - 1;
    var init := fields[..n];
    forall j: nat | j < n
      ensures (j in PlainPositions(fields, conditional)) == (j in PlainPositions(init, conditional))
    {
      assert init[j] == fields[j];
    }
  }

  /** The contributing pairs among the first n are those among the first n - 1, plus pair n - 1 when it contributes. */
  lemma ContributingPairsStep(toggles: seq<bool>, inputs: seq<InputField>, n: nat)
    requires 0 < n <= |toggles| && n <= |inputs|
    ensures ContributingPairs(toggles, inputs, n) ==
      ContributingPairs(toggles, inputs, n - 1)
        + (if Contribution(n - 1, toggles[n - 1], inputs[n - 1].text) != [] then {n - 1} else {})
    ensures n - 1 !in ContributingPairs(toggles, inputs, n - 1)
  {
  }

  /**
   * The number of values: one per dropdown, one per contributing pair and
   * one per plain input.
   */
  lemma ValuesCount(p: SubPanel)
    ensures |PanelValues(p)| == |p.dropdowns|
      + (if p.inputToggles.Some? && p.conditionalInputs.Some? then
           |ContributingPairs(p.inputToggles.value, p.conditionalInputs.value, PairCount(p))| else 0)
      + |PlainPositions(p.inputFields, p.conditionalInputs)|
  {
    if p.inputToggles.Some? && p.conditionalInputs.Some? {
      ConditionalCount(p.inputToggles.value, p.conditionalInputs.value, PairCount(p));
    }
    PlainCount(p.inputFields, p.conditionalInputs);
  }

  /** The saved record of one effect. */
  datatype EffectData = EffectData(
    effectName: string,
    effectDescription: string,
    mainDropdownValue: int,
    subDropdownValue: int,
    panelInputs: seq<string>)

  datatype MainPanel = MainPanel(subPanels: seq<SubPanel>)

  /** The effect kind named by the sub dropdown index. */
  function SubType(subIndex: int): string
  {
    if subIndex == 0 then "Continuous"
    else if subIndex == 1 then "Limited"
    else if subIndex == 2 then "SingleUse"
    else "Unknown"
  }

  /** The three kinds get three distinct names, and every other index is "Unknown". */
  lemma SubTypeNames()
    ensures forall i, j :: 0 <= i < 3 && 0 <= j < 3 && i != j ==> SubType(i) != SubType(j)
    ensures forall i :: SubType(i) == "Unknown" <==> !(0 <= i < 3)
  {
  }

  /** An input kept in the log: not blank and not a raw toggle value. */
  predicate KeepInput(s: string)
  {
    !IsBlank(s) && s != "True" && s != "False"
  }

  /** The bucket of a main index; empty when it has none yet. */
  function Bucket(saved: map<int, map<int, EffectData>>, main: int): map<int, EffectData>
  {
    if main in saved then saved[main] else map[]
  }

  /** The record saved at (main, sub), if any. */
  function Lookup(saved: map<int, map<int, EffectData>>, main: int, sub: int): Option<EffectData>
  {
    if main in saved && sub in saved[main] then Some(saved[main][sub]) else None
  }

  /** The table with `data` stored at (main, sub). */
  function Store(saved: map<int, map<int, EffectData>>, main: int, sub: int, data: EffectData): map<int, map<int, EffectData>>
  {
    saved[main := Bucket(saved, main)[sub := data]]
  }

  /** Storing fills (main, sub) and leaves every other slot as it was. */
  lemma StoreOnlyThatSlot(saved: map<int, map<int, EffectData>>, main: int, sub: int, data: EffectData)
    ensures Store(saved, main, sub, data).Keys == saved.Keys + {main}
    ensures forall m, s :: (Lookup(Store(saved, main, sub, data), m, s)
      == if m == main && s == sub then Some(data) else Lookup(saved, m, s))
  {
  }

  /** The input filter of `SaveEffect`: the kept inputs, in their order. */
  method FilterInputs(inputs: seq<string>) returns (filtered: seq<string>)
    ensures filtered == Filter(inputs, KeepInput)
    ensures IsSubseq(filtered, inputs)
  {
    filtered := [];
    var i := 0;
    while i < |inputs|
      invariant 0 <= i <= |inputs|
      invariant filtered == Filter(inputs[..i], KeepInput)
    {
      assert inputs[..i + 1][..i] == inputs[..i];
      if !IsBlank(inputs[i]) && inputs[i] != "True" && inputs[i] != "False" {
        filtered := filtered + [inputs[i]];
      }
      i := i + 1;
    }
    assert inputs[..i] == inputs;
    FilterIsSubseq(inputs, KeepInput);
  }

  datatype SaveOutcome =
    | Saved(subType: string, filteredInputs: seq<string>)
    /** The main or sub index has no panel: the source fails at the lookup. */
    | NoSuchPanel

  class EffectManager {
    const mainPanels: seq<MainPanel>
    const hasOverlay: bool
    var nameText: string
    var descriptionText: string
    var mainDropdownValue: int
    var subDropdownValue: int
    var savedEffects: map<int, map<int, EffectData>>
    var panelOpen: bool
    var overlayActive: bool

    /** The form as `Awake` leaves it: open, with empty texts, both dropdowns at 0 and nothing saved. */
    constructor (panels: seq<MainPanel>, overlay: bool)
      ensures mainPanels == panels && hasOverlay == overlay
      ensures nameText == "" && descriptionText == ""
      ensures mainDropdownValue == 0 && subDropdownValue == 0
      ensures savedEffects == map[] && panelOpen && overlayActive == overlay
    {
      mainPanels := panels;
      hasOverlay := overlay;
      nameText := "";
      descriptionText := "";
      mainDropdownValue := 0;
      subDropdownValue := 0;
      savedEffects := map[];
      panelOpen := true;
      overlayActive := overlay;
    }

    /** `CloseEffectPanel`: the panel, and the overlay when there is one, are hidden. */
    method CloseEffectPanel()
      modifies this
      ensures !panelOpen && (hasOverlay ==> !overlayActive) && (!hasOverlay ==> overlayActive == old(overlayActive))
      ensures savedEffects == old(savedEffects)
      ensures nameText == old(nameText) && descriptionText == old(descriptionText)
      ensures mainDropdownValue == old(mainDropdownValue) && subDropdownValue == old(subDropdownValue)
    {
      panelOpen := false;
      if hasOverlay {
        overlayActive := false;
      }
    }

    /**
     * `SaveEffect`: the bucket of the main index is created first; when the
     * (main, sub) panel exists, its values are filed at (main, sub), the
     * kind name and the kept inputs (in order) are reported, and the panel
     * closes. When it does not exist, only the new empty bucket remains.
     */
    method SaveEffect() returns (outcome: SaveOutcome)
      modifies this
      ensures nameText == old(nameText) && descriptionText == old(descriptionText)
      ensures mainDropdownValue == old(mainDropdownValue) && subDropdownValue == old(subDropdownValue)
      ensures outcome.Saved? <==> (0 <= mainDropdownValue < |mainPanels|
        && 0 <= subDropdownValue < |mainPanels[mainDropdownValue].subPanels|)
      ensures outcome.NoSuchPanel? ==>
        savedEffects == old(savedEffects)[mainDropdownValue := Bucket(old(savedEffects), mainDropdownValue)]
        && panelOpen == old(panelOpen) && overlayActive == old(overlayActive)
      ensures outcome.Saved? ==>
        var values := PanelValues(mainPanels[mainDropdownValue].subPanels[subDropdownValue]);
        savedEffects == Store(old(savedEffects), mainDropdownValue, subDropdownValue,
          EffectData(nameText, descriptionText, mainDropdownValue, subDropdownValue, values))
        && outcome.subType == SubType(subDropdownValue)
        && outcome.filteredInputs == Filter(values, KeepInput)
        && IsSubseq(outcome.filteredInputs, values)
        && !panelOpen && (hasOverlay ==> !overlayActive)
    {
      var mainIndex := mainDropdownValue;
      var subIndex := subDropdownValue;
      ghost var saved0 := savedEffects;
      if mainIndex !in savedEffects {
        savedEffects := savedEffects[mainIndex := map[]];
      }
      assert savedEffects == saved0[mainIndex := Bucket(saved0, mainIndex)];
      if !(0 <= mainIndex < |mainPanels|) || !(0 <= subIndex < |mainPanels[mainIndex].subPanels|) {
        return NoSuchPanel;
      }
      var inputs := mainPanels[mainIndex].subPanels[subIndex].GetValues();
      var data := EffectData(nameText, descriptionText, mainIndex, subIndex, inputs);
      savedEffects := savedEffects[mainIndex := savedEffects[mainIndex][subIndex := data]];
      assert savedEffects == Store(saved0, mainIndex, subIndex, data);
      var subType := SubType(subIndex);
      var filtered := FilterInputs(inputs);
      CloseEffectPanel();
      return Saved(subType, filtered);
    }
  }
}
