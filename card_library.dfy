/**
 * The card library screen (CardLibrary/CardLibraryUI.cs): the cards on
 * offer, filtered by a category tab, shown in a grid on the left; the chosen
 * cards, kept as a list together with the set of their ids, shown on the
 * right with per-category counters. Layout sizes and positions (floating
 * point) are not part of this model; a grid slot is its column and row.
 */
module CardLibrary {
  import opened Wrappers
  import opened Seqs
  import opened Cards

  datatype FilterMode = AllCards | PolicyOnly | ProjectOnly | ShortTermOnly

  /** The card passes the category tab. */
  predicate PassesFilter(mode: FilterMode, c: CardData)
  {
    match mode
    case AllCards => true
    case PolicyOnly => c.category == Policy
    case ProjectOnly => c.category == Project
    case ShortTermOnly => c.category == ShortTerm
  }

  /** The cards offered on the left: those passing the tab whose id is not chosen, in library order. */
  function Available(allCards: seq<CardData>, mode: FilterMode, chosenIds: set<string>): seq<CardData>
  {
    Filter(allCards, c => PassesFilter(mode, c) && c.id !in chosenIds)
  }

  /** A card is offered exactly when it is in the library, passes the tab and is not chosen; order is kept. */
  lemma AvailableMeaning(allCards: seq<CardData>, mode: FilterMode, chosenIds: set<string>)
    ensures forall c :: c in Available(allCards, mode, chosenIds) <==>
      (c in allCards && PassesFilter(mode, c) && c.id !in chosenIds)
    ensures IsSubseq(Available(allCards, mode, chosenIds), allCards)
  {
    FilterIsSubseq(allCards, c => PassesFilter(mode, c) && c.id !in chosenIds);
  }

  /** The column count of the grid: at least one. */
  function Columns(gridColumns: int): int
  {
    if gridColumns < 1 then 1 else gridColumns
  }

  /** The grid slot (column, row) of the card at `index`. */
  function GridCell(index: nat, gridColumns: int): (int, int)
  {
    (index % Columns(gridColumns), index / Columns(gridColumns))
  }

  /**
   * The slot is a column of the grid and a row from the top, from which the
   * index is recovered; so no two cards share a slot.
   */
  lemma GridCellInverse(index: nat, other: nat, gridColumns: int)
    ensures var (col, row) := GridCell(index, gridColumns);
      0 <= col < Columns(gridColumns) && 0 <= row
      && row * Columns(gridColumns) + col == index
    ensures index != other ==> GridCell(index, gridColumns) != GridCell(other, gridColumns)
  {
    var cols := Columns(gridColumns);
    assert (index / cols) * cols + index % cols == index;
    assert (other / cols) * cols + other % cols == other;
  }

  datatype GridItem = GridItem(card: CardData, col: int, row: int)

  /** The left grid for the given cards: each card at the slot of its position. */
  function Grid(cards: seq<CardData>, gridColumns: int): (r: seq<GridItem>)
    ensures |r| == |cards|
  {
    seq(|cards|, k requires 0 <= k < |cards| =>
      GridItem(cards[k], GridCell(k, gridColumns).0, GridCell(k, gridColumns).1))
  }

  /** The number of cards of a category (the LINQ `Count` of `UpdateCounters`). */
  function CountOf(cards: seq<CardData>, cat: CardCategory): nat
  {
    if |cards| == 0 then 0
    else CountOf(cards[..|cards| - 1], cat) + (if cards[|cards| - 1].category == cat then 1 else 0)
  }

  /** The cards whose category is none of the three named ones. */
  function OtherCount(cards: seq<CardData>): nat
  {
    if |cards| == 0 then 0
    else OtherCount(cards[..|cards| - 1]) + (if cards[|cards| - 1].category.Other? then 1 else 0)
  }

  /**
   * The three counters and the cards of no named category add up to the
   * chosen cards; with only named categories the counters alone do.
   */
  lemma {:induction false} CountersSum(cards: seq<CardData>)
    ensures CountOf(cards, Project) + CountOf(cards, Policy) + CountOf(cards, ShortTerm) + OtherCount(cards) == |cards|
    ensures OtherCount(cards) == 0 <==> forall i :: 0 <= i < |cards| ==> !cards[i].category.Other?
  {
    if |cards| > 0 {
      var init := cards[..|cards| - 1];
      CountersSum(init);
      assert forall i :: 0 <= i < |init| ==> init[i] == cards[i];
    }
  }

  /** The set of the ids of `cards`. */
  function IdSet(cards: seq<CardData>): set<string>
  {
    set i | 0 <= i < |cards| :: cards[i].id
  }

  /** No two cards share an id. */
  predicate DistinctIds(cards: seq<CardData>)
  {
    forall i, j :: 0 <= i < j < |cards| ==> cards[i].id != cards[j].id
  }

  /** `List.RemoveAll` by id: the cards with another id, in order. */
  function WithoutId(cards: seq<CardData>, id: string): seq<CardData>
  {
    Filter(cards, (c: CardData) => c.id != id)
  }

  /** Removing by id drops exactly the cards with that id and keeps the others in order. */
  lemma WithoutIdMeaning(cards: seq<CardData>, id: string)
    ensures IdSet(WithoutId(cards, id)) == IdSet(cards) - {id}
    ensures DistinctIds(cards) ==> DistinctIds(WithoutId(cards, id))
    ensures DistinctIds(cards) && id in IdSet(cards) ==> |WithoutId(cards, id)| == |cards| - 1
    ensures id !in IdSet(cards) ==> WithoutId(cards, id) == cards
  {
    WithoutIdSet(cards, id);
    WithoutIdDistinct(cards, id);
    WithoutIdCount(cards, id);
  }

  /** The last card decides whether removing by id keeps it. */
  lemma WithoutIdLast(cards: seq<CardData>, id: string)
    requires |cards| > 0
    ensures cards == cards[..|cards| - 1] + [cards[|cards| - 1]]
    ensures WithoutId(cards, id) == WithoutId(cards[..|cards| - 1], id)
      + (if cards[|cards| - 1].id != id then [cards[|cards| - 1]] else [])
  {
  }

  /** Removing by id removes that id from the id set and no other. */
  lemma {:induction false} WithoutIdSet(cards: seq<CardData>, id: string)
    ensures IdSet(WithoutId(cards, id)) == IdSet(cards) - {id}
  {
    if |cards| > 0 {
      var init, last := cards[..|cards| - 1], cards[|cards| - 1];
      WithoutIdLast(cards, id);
      WithoutIdSet(init, id);
      IdSetAppend(init, last);
      IdSetAppend(WithoutId(init, id), last);
    }
  }

  /** Removing by id keeps the ids distinct. */
  lemma {:induction false} WithoutIdDistinct(cards: seq<CardData>, id: string)
    ensures DistinctIds(cards) ==> DistinctIds(WithoutId(cards, id))
  {
    if |cards| > 0 && DistinctIds(cards) {
      var init, last := cards[..|cards| - 1], cards[|cards| - 1];
      WithoutIdLast(cards, id);
      IdSetAppend(init, last);
      WithoutIdDistinct(init, id);
      WithoutIdSet(init, id);
      IdSetAppend(WithoutId(init, id), last);
    }
  }

  /** Removing a present id from distinct ids removes one card; removing an absent id removes none. */
  lemma {:induction false} WithoutIdCount(cards: seq<CardData>, id: string)
    ensures DistinctIds(cards) && id in IdSet(cards) ==> |WithoutId(cards, id)| == |cards| - 1
    ensures id !in IdSet(cards) ==> WithoutId(cards, id) == cards
  {
    if |cards| > 0 {
      var init, last := cards[..|cards| - 1], cards[|cards| - 1];
      WithoutIdLast(cards, id);
      IdSetAppend(init, last);
      WithoutIdCount(init, id);
    }
  }

  /** Choosing a new card and then unchoosing it gives back the chosen list. */
  lemma ChooseThenUnchoose(chosen: seq<CardData>, card: CardData)
    requires card.id !in IdSet(chosen)
    ensures WithoutId(chosen + [card], card.id) == chosen
    ensures IdSet(chosen + [card]) - {card.id} == IdSet(chosen)
  {
    var s := chosen + [card];
    assert s[..|s| - 1] == chosen;
    WithoutIdLast(s, card.id);
    WithoutIdCount(chosen, card.id);
    IdSetAppend(chosen, card);
  }

  /** The starting catalogue used when the library is given no cards: projects, policies, short-term actions. */
  function DummyCards(): seq<CardData>
  {
    DummyProjects() + DummyPolicies() + DummyShortTerms()
  }

  function DummyProjects(): seq<CardData>
  {
    [ CardData("P1", "Train station", Project),
      CardData("P2", "River dam upgrade", Project),
      CardData("P3", "New water reservoir", Project),
      CardData("P4", "Underground parking", Project),
      CardData("P5", "Harbor expansion", Project),
      CardData("P6", "City park redesign", Project),
      CardData("P7", "New tram line", Project),
      CardData("P8", "Flood barrier bridge", Project) ]
  }

  function DummyPolicies(): seq<CardData>
  {
    [ CardData("L1", "Trails", Policy),
      CardData("L2", "Water use tax", Policy),
      CardData("L3", "Green roof subsidy", Policy),
      CardData("L4", "Floodplain zoning", Policy),
      CardData("L5", "Public transport pass", Policy),
      CardData("L6", "Car-free city center", Policy),
      CardData("L7", "Industrial emission cap", Policy),
      CardData("L8", "Water quality regulation", Policy) ]
  }

  function DummyShortTerms(): seq<CardData>
  {
    [ CardData("S1", "Wooden platform", ShortTerm),
      CardData("S2", "Temporary pumps", ShortTerm),
      CardData("S3", "Sandbag barrier", ShortTerm),
      CardData("S4", "Evacuation drill", ShortTerm),
      CardData("S5", "Water saving campaign", ShortTerm),
      CardData("S6", "Parking restriction", ShortTerm),
      CardData("S7", "River access closure", ShortTerm),
      CardData("S8", "Emergency alert test", ShortTerm) ]
  }

  /** Counting a category over two lists adds up. */
  lemma {:induction false} CountOfAppend(a: seq<CardData>, b: seq<CardData>, cat: CardCategory)
    ensures CountOf(a + b, cat) == CountOf(a, cat) + CountOf(b, cat)
    decreases |b|
  {
    if |b| > 0 {
      var n := |b| - 1;
      assert (a + b)[..|a + b| - 1] == a + b[..n];
      CountOfAppend(a, b[..n], cat);
    } else {
      assert a + b == a;
    }
  }

  /** A list of one category counts all its cards for it and none for another. */
  lemma {:induction false} CountOfUniform(cards: seq<CardData>, c: CardCategory, cat: CardCategory)
    requires forall i :: 0 <= i < |cards| ==> cards[i].category == c
    ensures CountOf(cards, cat) == if c == cat then |cards| else 0
  {
    if |cards| > 0 {
      CountOfUniform(cards[..|cards| - 1], c, cat);
    }
  }

  /** Appending a card adds its id; the ids stay distinct exactly when the new id is new. */
  lemma IdSetAppend(cards: seq<CardData>, card: CardData)
    ensures IdSet(cards + [card]) == IdSet(cards) + {card.id}
    ensures DistinctIds(cards + [card]) <==> DistinctIds(cards) && card.id !in IdSet(cards)
  {
    var s := cards + [card];
    assert forall i :: 0 <= i < |cards| ==> s[i] == cards[i];
    assert s[|cards|] == card;
  }

  class CardLibraryUI {
    var allCards: seq<CardData>
    var chosenCards: seq<CardData>
    var chosenIds: set<string>
    var currentFilter: FilterMode
    const gridColumns: int
    /** The left content and the card prefab are assigned. */
    const availableReady: bool
    /** The right content and the card prefab are assigned. */
    const chosenReady: bool
    /** The cards shown on the left, with their grid slots. */
    var availableGrid: seq<GridItem>
    /** The cards shown on the right, in order. */
    var chosenShown: seq<CardData>
    var projectsCount: nat
    var policiesCount: nat
    var shortTermCount: nat

    /** The chosen-id set is the set of ids of the chosen list, which has no repeated id. */
    predicate Valid()
      reads this
    {
      chosenIds == IdSet(chosenCards) && DistinctIds(chosenCards)
    }

    /** The left grid shows what is available now. */
    predicate AvailableShown()
      reads this
    {
      availableGrid == Grid(Available(allCards, currentFilter, chosenIds), gridColumns)
    }

    /** The right list and the counters show the chosen cards now. */
    predicate ChosenShown()
      reads this
    {
      chosenShown == chosenCards
      && projectsCount == CountOf(chosenCards, Project)
      && policiesCount == CountOf(chosenCards, Policy)
      && shortTermCount == CountOf(chosenCards, ShortTerm)
    }

    /**
     * A library as `Start` leaves it: the given cards, or the catalogue of
     * dummy cards when none are given; nothing chosen, the "all" tab, and
     * both sides drawn where their widgets are assigned.
     */
    constructor (cards: seq<CardData>, columns: int, availableOk: bool, chosenOk: bool)
      ensures Valid()
      ensures allCards == (if cards == [] then DummyCards() else cards)
      ensures chosenCards == [] && currentFilter == AllCards && gridColumns == columns
      ensures availableReady == availableOk && chosenReady == chosenOk
      ensures availableOk ==> AvailableShown()
      ensures chosenOk ==> ChosenShown()
    {
      allCards := if cards == [] then DummyCards() else cards;
      chosenCards := [];
      chosenIds := {};
      currentFilter := AllCards;
      gridColumns := columns;
      availableReady := availableOk;
      chosenReady := chosenOk;
      new;
      availableGrid := [];
      chosenShown := [];
      projectsCount, policiesCount, shortTermCount := 0, 0, 0;
      RefreshAvailableList();
      RefreshChosenList();
    }

    /**
     * `RefreshAvailableList`: with its widgets assigned, the grid is rebuilt
     * from the available cards, slot by slot; otherwise nothing changes.
     */
    method RefreshAvailableList()
      modifies this
      ensures availableReady ==> AvailableShown()
      ensures !availableReady ==> availableGrid == old(availableGrid)
      ensures allCards == old(allCards) && chosenCards == old(chosenCards) && chosenIds == old(chosenIds)
      ensures currentFilter == old(currentFilter) && chosenShown == old(chosenShown)
      ensures projectsCount == old(projectsCount) && policiesCount == old(policiesCount)
      ensures shortTermCount == old(shortTermCount)
    {
      if !availableReady {
        return;
      }
      var cards := Available(allCards, currentFilter, chosenIds);
      var grid: seq<GridItem> := [];
      var index := 0;
      while index < |cards|
        invariant 0 <= index <= |cards|
        invariant grid == Grid(cards[..index], gridColumns)
      {
        var (col, row) := GridCell(index, gridColumns);
        grid := grid + [GridItem(cards[index], col, row)];
        index := index + 1;
      }
      assert cards[..index] == cards;
      availableGrid := grid;
    }

    /** `UpdateCounters`: the number of chosen cards of each category. */
    method UpdateCounters()
      modifies this
      ensures projectsCount == CountOf(chosenCards, Project)
      ensures policiesCount == CountOf(chosenCards, Policy)
      ensures shortTermCount == CountOf(chosenCards, ShortTerm)
      ensures allCards == old(allCards) && chosenCards == old(chosenCards) && chosenIds == old(chosenIds)
      ensures currentFilter == old(currentFilter) && chosenShown == old(chosenShown)
      ensures availableGrid == old(availableGrid)
    {
      projectsCount := CountOf(chosenCards, Project);
      policiesCount := CountOf(chosenCards, Policy);
      shortTermCount := CountOf(chosenCards, ShortTerm);
    }

    /**
     * `RefreshChosenList`: with its widgets assigned, the right list is
     * rebuilt from the chosen cards and the counters are updated; otherwise
     * nothing changes, the counters included.
     */
    method RefreshChosenList()
      modifies this
      ensures chosenReady ==> ChosenShown()
      ensures !chosenReady ==> (chosenShown == old(chosenShown) && projectsCount == old(projectsCount)
        && policiesCount == old(policiesCount) && shortTermCount == old(shortTermCount))
      ensures allCards == old(allCards) && chosenCards == old(chosenCards) && chosenIds == old(chosenIds)
      ensures currentFilter == old(currentFilter) && availableGrid == old(availableGrid)
    {
      if !chosenReady {
        return;
      }
      var shown: seq<CardData> := [];
      var index := 0;
      while index < |chosenCards|
        invariant 0 <= index <= |chosenCards|
        invariant shown == chosenCards[..index]
      {
        shown := shown + [chosenCards[index]];
        index := index + 1;
      }
      chosenShown := shown;
      UpdateCounters();
    }

    /**
     * `OnCardClickedFromAvailable`: a card whose id is not yet chosen is
     * appended to the chosen list and its id added, and both sides are
     * redrawn; a null card or an already chosen id changes nothing.
     */
    method OnCardClickedFromAvailable(data: Option<CardData>)
      requires Valid()
      modifies this
      ensures Valid()
      ensures allCards == old(allCards) && currentFilter == old(currentFilter)
      ensures data.None? || data.value.id in old(chosenIds) ==>
        chosenCards == old(chosenCards) && chosenIds == old(chosenIds)
        && availableGrid == old(availableGrid) && chosenShown == old(chosenShown)
      ensures data.Some? && data.value.id !in old(chosenIds) ==>
        chosenCards == old(chosenCards) + [data.value] && chosenIds == old(chosenIds) + {data.value.id}
        && (availableReady ==> AvailableShown()) && (chosenReady ==> ChosenShown())
    {
      if data.None? {
        return;
      }
      var card := data.value;
      if card.id !in chosenIds {
        chosenIds := chosenIds + {card.id};
        IdSetAppend(chosenCards, card);
        chosenCards := chosenCards + [card];
        RefreshChosenList();
        RefreshAvailableList();
      }
    }

    /**
     * `OnCardClickedFromChosen`: a chosen id is removed from the set and
     * every chosen card with that id leaves the list, and both sides are
     * redrawn; a null card or an unchosen id changes nothing.
     */
    method OnCardClickedFromChosen(data: Option<CardData>)
      requires Valid()
      modifies this
      ensures Valid()
      ensures allCards == old(allCards) && currentFilter == old(currentFilter)
      ensures data.None? || data.value.id !in old(chosenIds) ==>
        chosenCards == old(chosenCards) && chosenIds == old(chosenIds)
        && availableGrid == old(availableGrid) && chosenShown == old(chosenShown)
      ensures data.Some? && data.value.id in old(chosenIds) ==>
        chosenCards == WithoutId(old(chosenCards), data.value.id)
        && |chosenCards| == |old(chosenCards)| - 1
        && chosenIds == old(chosenIds) - {data.value.id}
        && (availableReady ==> AvailableShown()) && (chosenReady ==> ChosenShown())
    {
      if data.None? {
        return;
      }
      var card := data.value;
      if card.id in chosenIds {
        chosenIds := chosenIds - {card.id};
        WithoutIdMeaning(chosenCards, card.id);
        chosenCards := WithoutId(chosenCards, card.id);
        RefreshChosenList();
        RefreshAvailableList();
      }
    }

    /** The tab buttons (`ShowAll`, `ShowPolicies`, `ShowProjects`, `ShowShortTerm`): the tab changes and the grid is redrawn. */
    method ShowFilter(mode: FilterMode)
      requires Valid()
      modifies this
      ensures Valid()
      ensures currentFilter == mode
      ensures availableReady ==> AvailableShown()
      ensures !availableReady ==> availableGrid == old(availableGrid)
      ensures allCards == old(allCards) && chosenCards == old(chosenCards) && chosenIds == old(chosenIds)
      ensures chosenShown == old(chosenShown) && projectsCount == old(projectsCount)
      ensures policiesCount == old(policiesCount) && shortTermCount == old(shortTermCount)
    {
      currentFilter := mode;
      RefreshAvailableList();
    }

    /**
     * `SetCards`: the library becomes the given cards (a null list becomes
     * an empty one), nothing is chosen any more, and both sides are redrawn.
     */
    method SetCards(cards: Option<seq<CardData>>)
      modifies this
      ensures Valid()
      ensures allCards == (if cards.Some? then cards.value else [])
      ensures chosenCards == [] && chosenIds == {}
      ensures currentFilter == old(currentFilter)
      ensures availableReady ==> AvailableShown()
      ensures chosenReady ==> ChosenShown()
    {
      allCards := if cards.Some? then cards.value else [];
      chosenCards := [];
      chosenIds := {};
      RefreshChosenList();
      RefreshAvailableList();
    }
  }

  /** The dummy catalogue's ids are distinct. */
  lemma DummyIdsDistinct()
    ensures DistinctIds(DummyCards())
  {
    var p, l, t := DummyProjects(), DummyPolicies(), DummyShortTerms();
    BlockIds(p, 'P');
    BlockIds(l, 'L');
    BlockIds(t, 'S');
    DistinctConcat(p, l);
    assert forall i :: 0 <= i < |p + l| ==> (p + l)[i].id[0] != 'S';
    DistinctConcat(p + l, t);
  }

  /** A block whose ids are a letter followed by the digits 1, 2, ... in order has distinct ids, all with that letter first. */
  lemma BlockIds(block: seq<CardData>, letter: char)
    requires |block| <= 9
    requires forall i :: 0 <= i < |block| ==> block[i].id == [letter, ('1' as int + i) as char]
    ensures DistinctIds(block)
    ensures forall i :: 0 <= i < |block| ==> |block[i].id| > 0 && block[i].id[0] == letter
  {
    forall i, j | 0 <= i < j < |block| ensures block[i].id != block[j].id {
      assert block[i].id[1] != block[j].id[1];
    }
  }

  /** Two lists with distinct ids and no id in common make one list with distinct ids. */
  lemma DistinctConcat(a: seq<CardData>, b: seq<CardData>)
    requires DistinctIds(a) && DistinctIds(b)
    requires forall i, j :: 0 <= i < |a| && 0 <= j < |b| ==> a[i].id != b[j].id
    ensures DistinctIds(a + b)
  {
    var s := a + b;
    forall i, j | 0 <= i < j < |s|
      ensures s[i].id != s[j].id
    {
      if j < |a| {
        assert s[i] == a[i] && s[j] == a[j];
      } else if i < |a| {
        assert s[i] == a[i] && s[j] == b[j - |a|];
      } else {
        assert s[i] == b[i - |a|] && s[j] == b[j - |a|];
      }
    }
  }

  /** The dummy catalogue has 24 cards, eight of each category. */
  lemma DummyCardsShape()
    ensures |DummyCards()| == 24
    ensures CountOf(DummyCards(), Project) == 8
    ensures CountOf(DummyCards(), Policy) == 8
    ensures CountOf(DummyCards(), ShortTerm) == 8
  {
    var p, l, t := DummyProjects(), DummyPolicies(), DummyShortTerms();
    CountOfAppend(p + l, t, Project);
    CountOfAppend(p, l, Project);
    CountOfAppend(p + l, t, Policy);
    CountOfAppend(p, l, Policy);
    CountOfAppend(p + l, t, ShortTerm);
    CountOfAppend(p, l, ShortTerm);
    CountOfUniform(p, Project, Project);
    CountOfUniform(p, Project, Policy);
    CountOfUniform(p, Project, ShortTerm);
    CountOfUniform(l, Policy, Project);
    CountOfUniform(l, Policy, Policy);
    CountOfUniform(l, Policy, ShortTerm);
    CountOfUniform(t, ShortTerm, Project);
    CountOfUniform(t, ShortTerm, Policy);
    CountOfUniform(t, ShortTerm, ShortTerm);
  }
}
