/**
 * The risk creation panel (RiskCreationManager.cs): four player toggles of
 * which at most two can be selected, text inputs for name, description and
 * comma-separated disaster tags, and `SaveRisk`, which builds a risk asset,
 * registers it in the risk library and lists it. Debug logging, the default
 * icon, probabilities and colours are not part of this model. The library
 * singleton and the presence of the list-item prefab are parameters.
 */
module RiskCreation {
  import opened Wrappers
  import opened Risks
  import opened Seqs
  import opened Strings
  import opened RiskRegistry

  /** The number of `true` entries. */
  function CountOn(s: seq<bool>): (n: nat)
    ensures n <= |s|
  {
    if |s| == 0 then 0 else CountOn(s[..|s| - 1]) + (if s[|s| - 1] then 1 else 0)
  }

  /** The count of a four-entry sequence, written out. */
  lemma CountFour(s: seq<bool>)
    requires |s| == 4
    ensures CountOn(s) == (if s[0] then 1 else 0) + (if s[1] then 1 else 0)
      + (if s[2] then 1 else 0) + (if s[3] then 1 else 0)
  {
    assert s[..1][..0] == [];
    assert CountOn(s[..1]) == (if s[0] then 1 else 0);
    assert s[..2][..1] == s[..1];
    assert CountOn(s[..2]) == CountOn(s[..1]) + (if s[1] then 1 else 0);
    assert s[..3][..2] == s[..2];
    assert CountOn(s[..3]) == CountOn(s[..2]) + (if s[2] then 1 else 0);
  }

  /** The player numbers 1..4 whose toggle is on, in the order the source adds them. */
  function SelectedPlayers(on: seq<bool>): (r: seq<int>)
    requires |on| == 4
    ensures forall i, j :: 0 <= i < j < |r| ==> r[i] < r[j]
    ensures forall i :: 0 <= i < |r| ==> 1 <= r[i] <= 4 && on[r[i] - 1]
    ensures forall p :: 1 <= p <= 4 && on[p - 1] ==> p in r
    ensures |r| == CountOn(on)
  {
    CountFour(on);
    (if on[0] then [1] else []) + (if on[1] then [2] else [])
      + (if on[2] then [3] else []) + (if on[3] then [4] else [])
  }

  /** The decimal texts of single-digit numbers. */
  function Digits(players: seq<int>): (r: seq<string>)
    requires forall i :: 0 <= i < |players| ==> 0 <= players[i] < 10
    ensures |r| == |players|
  {
    seq(|players|, i requires 0 <= i < |players| => DigitString(players[i]))
  }

  /** The risk's category text: the player numbers joined with ", ". */
  function Category(players: seq<int>): string
    requires forall i :: 0 <= i < |players| ==> 0 <= players[i] < 10
  {
    Join(Digits(players), ", ")
  }

  /** Reads the player numbers back from a category text: every third character is a digit. */
  function CategoryPlayers(c: string): seq<int>
  {
    if |c| == 0 then []
    else [c[0] as int - '0' as int] + (if |c| >= 3 then CategoryPlayers(c[3..]) else [])
  }

  /** The category text determines the selected players: reading it back gives them. */
  lemma {:induction false} CategoryRoundTrip(players: seq<int>)
    requires forall i :: 0 <= i < |players| ==> 0 <= players[i] < 10
    ensures CategoryPlayers(Category(players)) == players
    ensures |players| > 0 ==> |Category(players)| == 3 * |players| - 2
  {
    if |players| >= 2 {
      var rest := players[1..];
      CategoryRoundTrip(rest);
      assert Digits(players)[1..] == Digits(rest);
      var c := Category(players);
      assert c == DigitString(players[0]) + ", " + Category(rest);
      assert c[3..] == Category(rest);
    }
  }

  /** Four selected players give "1, 2, 3, 4". */
  lemma AllPlayersCategory()
    ensures Category(SelectedPlayers([true, true, true, true])) == "1, 2, 3, 4"
  {
    var d := Digits([1, 2, 3, 4]);
    assert d == ["1", "2", "3", "4"];
    assert d[1..][1..][1..] == ["4"];
  }

  /** Each piece trimmed. */
  function TrimAll(parts: seq<string>): (r: seq<string>)
    ensures |r| == |parts|
  {
    seq(|parts|, i requires 0 <= i < |parts| => Trim(parts[i]))
  }

  /** The tags the source stores for the tag input; empty input leaves them unset. */
  function ParsedTags(text: string): seq<string>
  {
    if text == "" then [] else TrimAll(Split(text, ','))
  }

  /**
   * A non-empty tag input gives one tag per comma plus one; every tag is a
   * piece of the input between commas with surrounding white space removed,
   * so it contains no comma and neither starts nor ends with white space.
   */
  lemma TagsShape(text: string)
    ensures text == "" ==> ParsedTags(text) == []
    ensures text != "" ==> |ParsedTags(text)| == Occurrences(text, ',') + 1
    ensures forall i :: 0 <= i < |ParsedTags(text)| ==>
      var t := ParsedTags(text)[i];
      ',' !in t && (|t| > 0 ==> !IsWhiteSpace(t[0]) && !IsWhiteSpace(t[|t| - 1]))
  {
    if text != "" {
      var pieces := Split(text, ',');
      forall i | 0 <= i < |pieces| ensures ',' !in Trim(pieces[i]) {
        TrimKeepsOut(pieces[i], ',');
      }
    }
  }

  /** The asset `SaveRisk` creates: severity 1, category and tags from the inputs. */
  function NewRisk(handle: nat, name: string, description: string, on: seq<bool>, tagsText: string): Risk
    requires |on| == 4
  {
    Risk(handle, name, description, Category(SelectedPlayers(on)), 1, ParsedTags(tagsText))
  }

  /** How `SaveRisk` ends; the checks are made in this order. */
  datatype SaveOutcome = NameEmpty | NoPlayerSelected | LibraryMissing | PrefabMissing | Saved

  function SaveResult(name: string, on: seq<bool>, hasLibrary: bool, hasPrefab: bool): (r: SaveOutcome)
    requires |on| == 4
    ensures r == NameEmpty <==> name == ""
    ensures r == NoPlayerSelected <==> name != "" && SelectedPlayers(on) == []
    ensures (r == PrefabMissing || r == Saved) <==> name != "" && SelectedPlayers(on) != [] && hasLibrary
    ensures r == Saved <==> name != "" && SelectedPlayers(on) != [] && hasLibrary && hasPrefab
  {
    if name == "" then NameEmpty
    else if SelectedPlayers(on) == [] then NoPlayerSelected
    else if !hasLibrary then LibraryMissing
    else if !hasPrefab then PrefabMissing
    else Saved
  }

  /** The player numbers of the selected toggles, collected toggle by toggle. */
  method CollectSelected(on: seq<bool>) returns (selectedPlayers: seq<int>)
    requires |on| == 4
    ensures selectedPlayers == SelectedPlayers(on)
  {
    selectedPlayers := [];
    if on[0] { selectedPlayers := selectedPlayers + [1]; }
    if on[1] { selectedPlayers := selectedPlayers + [2]; }
    if on[2] { selectedPlayers := selectedPlayers + [3]; }
    if on[3] { selectedPlayers := selectedPlayers + [4]; }
  }

  /** The tags of the tag input: split at commas and trimmed in place, none for an empty input. */
  method ParseTags(tagsText: string) returns (tags: seq<string>)
    ensures tags == ParsedTags(tagsText)
  {
    tags := [];
    if tagsText != "" {
      tags := Split(tagsText, ',');
      var i := 0;
      while i < |tags|
        invariant 0 <= i <= |tags| == |Split(tagsText, ',')|
        invariant forall j :: 0 <= j < i ==> tags[j] == Trim(Split(tagsText, ',')[j])
        invariant forall j :: i <= j < |tags| ==> tags[j] == Split(tagsText, ',')[j]
      {
        tags := tags[i := Trim(tags[i])];
        i := i + 1;
      }
    }
  }

  /** No risk in `risks` is the asset named by `handle`. */
  predicate HandleUnused(risks: seq<Risk>, handle: nat)
  {
    forall r :: r in risks ==> r.handle != handle
  }

  /** A risk whose handle is unused is not yet in the sequence. */
  lemma HandleUnusedNotIn(risks: seq<Risk>, risk: Risk)
    requires HandleUnused(risks, risk.handle)
    ensures risk !in risks
  {
  }

  class RiskCreationManager {
    const hasOverlay: bool
    /** `isOn` of the four player toggles. */
    const isOn: array<bool>
    /** `interactable` of the four player toggles. */
    const interactable: array<bool>
    var panelOpen: bool
    var overlayActive: bool
    var nameText: string
    var descriptionText: string
    var tagsText: string
    /** The name shown by the list item of the last saved risk, if any. */
    var listedItem: Option<string>

    predicate Shape()
    {
      isOn.Length == 4 && interactable.Length == 4 && isOn != interactable
    }

    /**
     * The selection rule: at most two players are selected; with two, the
     * unselected toggles are locked; with fewer, all toggles are usable.
     */
    predicate SelectionRule()
      requires Shape()
      reads isOn, interactable
    {
      var n := CountOn(isOn[..]);
      n <= 2
      && (n >= 2 ==> forall i :: 0 <= i < 4 && !isOn[i] ==> !interactable[i])
      && (n < 2 ==> forall i :: 0 <= i < 4 ==> interactable[i])
    }

    constructor (overlay: bool)
      ensures Shape() && SelectionRule() && hasOverlay == overlay
      ensures fresh(isOn) && fresh(interactable)
      ensures listedItem == None
    {
      hasOverlay := overlay;
      isOn := new bool[4](_ => false);
      interactable := new bool[4](_ => true);
      panelOpen := false;
      overlayActive := false;
      nameText, descriptionText, tagsText := "", "", "";
      listedItem := None;
      new;
      CountFour(isOn[..]);
    }

    /** `Start`: the panel starts hidden. */
    method Start()
      modifies this
      ensures !panelOpen
      ensures overlayActive == old(overlayActive) && listedItem == old(listedItem)
      ensures nameText == old(nameText) && descriptionText == old(descriptionText) && tagsText == old(tagsText)
    {
      panelOpen := false;
    }

    /**
     * `EnforceMaxSelection`: with two or more selected players every
     * unselected toggle is locked and the selected ones keep their state;
     * otherwise every toggle is usable.
     */
    method EnforceMaxSelection()
      requires Shape()
      modifies interactable
      ensures CountOn(isOn[..]) >= 2 ==>
        forall i :: 0 <= i < 4 ==> interactable[i] == (isOn[i] && old(interactable[i]))
      ensures CountOn(isOn[..]) < 2 ==> forall i :: 0 <= i < 4 ==> interactable[i]
      ensures CountOn(isOn[..]) <= 2 ==> SelectionRule()
    {
      var selectedCount := 0;
      var i := 0;
      while i < 4
        invariant 0 <= i <= 4
        invariant selectedCount == CountOn(isOn[..i])
      {
        assert isOn[..i + 1][..i] == isOn[..i];
        if isOn[i] {
          selectedCount := selectedCount + 1;
        }
        i := i + 1;
      }
      assert isOn[..4] == isOn[..];
      i := 0;
      if selectedCount >= 2 {
        while i < 4
          invariant 0 <= i <= 4
          invariant forall j :: 0 <= j < i ==> interactable[j] == (isOn[j] && old(interactable[j]))
          invariant forall j :: i <= j < 4 ==> interactable[j] == old(interactable[j])
        {
          if !isOn[i] {
            interactable[i] := false;
          }
          i := i + 1;
        }
      } else {
        while i < 4
          invariant 0 <= i <= 4
          invariant forall j :: 0 <= j < i ==> interactable[j]
        {
          interactable[i] := true;
          i := i + 1;
        }
      }
    }

    /**
     * A click on player toggle `k`: a locked toggle ignores it; otherwise the
     * toggle flips and its value-changed listener enforces the selection rule.
     * The rule holds after every click if it held before.
     */
    method ClickToggle(k: nat)
      requires Shape() && k < 4
      modifies isOn, interactable
      ensures old(interactable[k]) ==> isOn[..] == old(isOn[..])[k := !old(isOn[k])]
      ensures !old(interactable[k]) ==> isOn[..] == old(isOn[..]) && interactable[..] == old(interactable[..])
      ensures old(SelectionRule()) ==> SelectionRule()
    {
      if !interactable[k] {
        return;
      }
      CountAfterFlip(isOn[..], k);
      isOn[k] := !isOn[k];
      EnforceMaxSelection();
    }

    /**
     * `ResetInputs`: the texts are cleared and every toggle is switched off;
     * each toggle that actually changes fires the selection listener, so if
     * any did, every toggle ends up usable.
     */
    method ResetInputs()
      requires Shape()
      modifies this, isOn, interactable
      ensures nameText == "" && descriptionText == "" && tagsText == ""
      ensures forall i :: 0 <= i < 4 ==> !isOn[i]
      ensures (exists i :: 0 <= i < 4 && old(isOn[i])) ==> forall i :: 0 <= i < 4 ==> interactable[i]
      ensures (forall i :: 0 <= i < 4 ==> !old(isOn[i])) ==> interactable[..] == old(interactable[..])
      ensures old(SelectionRule()) ==> SelectionRule()
      ensures panelOpen == old(panelOpen) && overlayActive == old(overlayActive) && listedItem == old(listedItem)
    {
      nameText, descriptionText, tagsText := "", "", "";
      var changed := false;
      var k := 0;
      while k < 4
        invariant 0 <= k <= 4
        invariant forall j :: 0 <= j < k ==> !isOn[j]
        invariant forall j :: k <= j < 4 ==> isOn[j] == old(isOn[j])
        invariant changed <==> exists j :: 0 <= j < k && old(isOn[j])
        invariant changed ==> (CountOn(isOn[..]) < 2 ==> forall j :: 0 <= j < 4 ==> interactable[j])
        invariant !changed ==> interactable[..] == old(interactable[..])
        invariant nameText == "" && descriptionText == "" && tagsText == ""
        invariant panelOpen == old(panelOpen) && overlayActive == old(overlayActive) && listedItem == old(listedItem)
      {
        if isOn[k] {
          isOn[k] := false;
          changed := true;
          EnforceMaxSelection();
        }
        k := k + 1;
      }
      CountFour(isOn[..]);
      if !changed {
        assert isOn[..] == old(isOn[..]);
      }
    }

    /** `OpenRiskPanel`: shows the panel (and the overlay, if there is one) with cleared inputs. */
    method OpenRiskPanel()
      requires Shape()
      modifies this, isOn, interactable
      ensures panelOpen && (hasOverlay ==> overlayActive) && (!hasOverlay ==> overlayActive == old(overlayActive))
      ensures nameText == "" && descriptionText == "" && tagsText == ""
      ensures forall i :: 0 <= i < 4 ==> !isOn[i]
      ensures old(SelectionRule()) ==> SelectionRule()
      ensures listedItem == old(listedItem)
    {
      panelOpen := true;
      if hasOverlay {
        overlayActive := true;
      }
      ResetInputs();
    }

    /** `CloseRiskPanel`: hides the panel and the overlay; inputs are kept. */
    method CloseRiskPanel()
      modifies this
      ensures !panelOpen && (hasOverlay ==> !overlayActive) && (!hasOverlay ==> overlayActive == old(overlayActive))
      ensures nameText == old(nameText) && descriptionText == old(descriptionText) && tagsText == old(tagsText)
      ensures listedItem == old(listedItem)
    {
      panelOpen := false;
      if hasOverlay {
        overlayActive := false;
      }
    }

    /**
     * `SaveRisk`: an empty name or no selected player ends it with nothing
     * changed; otherwise the new risk (severity 1, category from the players,
     * tags from the input) is registered in the library if there is one. With
     * no library nothing else happens; with no list-item prefab the risk stays
     * registered but is not listed; otherwise it replaces the listed item and
     * the panel closes. Inputs and toggles are never changed.
     */
    method SaveRisk(library: RiskLibrary?, hasItemPrefab: bool, handle: nat) returns (outcome: SaveOutcome)
      requires Shape()
      // `handle` names the asset created by this call, so no registered risk has it yet
      requires library != null ==> HandleUnused(library.allRisks, handle)
      modifies this, library
      ensures outcome == SaveResult(nameText, isOn[..], library != null, hasItemPrefab)
      ensures nameText == old(nameText) && descriptionText == old(descriptionText) && tagsText == old(tagsText)
      ensures (outcome == PrefabMissing || outcome == Saved) ==>
        (library != null
         && library.allRisks == AddIfAbsent(old(library.allRisks),
              NewRisk(handle, nameText, descriptionText, isOn[..], tagsText)))
      ensures (outcome == PrefabMissing || outcome == Saved) ==>
        (library != null
         && library.allRisks == old(library.allRisks) + [NewRisk(handle, nameText, descriptionText, isOn[..], tagsText)])
      ensures library != null && outcome != PrefabMissing && outcome != Saved ==>
        library.allRisks == old(library.allRisks)
      ensures outcome == Saved ==>
        (listedItem == Some(nameText) && !panelOpen
         && (hasOverlay ==> !overlayActive) && (!hasOverlay ==> overlayActive == old(overlayActive)))
      ensures outcome != Saved ==>
        (listedItem == old(listedItem) && panelOpen == old(panelOpen) && overlayActive == old(overlayActive))
    {
      ghost var on := isOn[..];
      if nameText == "" {
        return NameEmpty;
      }
      var selectedPlayers := CollectSelected(isOn[..]);
      if |selectedPlayers| == 0 {
        return NoPlayerSelected;
      }
      var tags := ParseTags(tagsText);
      var newRisk := Risk(handle, nameText, descriptionText, Category(selectedPlayers), 1, tags);
      assert newRisk == NewRisk(handle, nameText, descriptionText, on, tagsText);
      if library == null {
        return LibraryMissing;
      }
      HandleUnusedNotIn(library.allRisks, newRisk);
      library.RegisterRisk(newRisk);
      assert isOn[..] == on;
      if !hasItemPrefab {
        return PrefabMissing;
      }
      listedItem := Some(nameText);
      CloseRiskPanel();
      assert isOn[..] == on;
      return Saved;
    }
  }

  /** Flipping one toggle changes the count by one. */
  lemma {:induction false} CountAfterFlip(s: seq<bool>, k: nat)
    requires k < |s|
    ensures CountOn(s[k := !s[k]]) == if s[k] then CountOn(s) - 1 else CountOn(s) + 1
  {
    var t := s[k := !s[k]];
    if k < |s| - 1 {
      assert t[..|t| - 1] == s[..|s| - 1][k := !s[k]];
      CountAfterFlip(s[..|s| - 1], k);
    } else {
      assert t[..|t| - 1] == s[..|s| - 1];
    }
  }
}
