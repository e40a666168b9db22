/**
 * The board's cell-to-risk table (Game/BoardRiskManager.cs): every registered
 * cell id maps to at most one risk, and every change is mirrored on the
 * cell's tile. Cell ids are kept in registration order, which is the order
 * the table enumerates them in.
 */
module BoardRisks {
  import opened Wrappers
  import opened Risks
  import opened Seqs
  import opened HexTiles

  type CellMap = map<int, Option<Risk>>

  /** `GetEmptyCells`: the registered cells with no risk, in registration order. */
  function EmptyCells(order: seq<int>, cells: CellMap): (r: seq<int>)
    ensures forall i :: 0 <= i < |r| ==> r[i] in cells && cells[r[i]].None?
    ensures forall i :: 0 <= i < |order| && order[i] in cells && cells[order[i]].None? ==> order[i] in r
    ensures IsSubseq(r, order)
    ensures NoDup(order) ==> NoDup(r)
  {
    var empty := k => k in cells && cells[k].None?;
    FilterIsSubseq(order, empty);
    FilterNoDup(order, empty);
    Filter(order, empty)
  }

  /** `GetCellsWithAnyRisk`: the registered cells holding a risk, in registration order. */
  function CellsWithAnyRisk(order: seq<int>, cells: CellMap): (r: seq<int>)
    ensures forall i :: 0 <= i < |r| ==> r[i] in cells && cells[r[i]].Some?
    ensures forall i :: 0 <= i < |order| && order[i] in cells && cells[order[i]].Some? ==> order[i] in r
    ensures IsSubseq(r, order)
    ensures NoDup(order) ==> NoDup(r)
  {
    var risky := k => k in cells && cells[k].Some?;
    FilterIsSubseq(order, risky);
    FilterNoDup(order, risky);
    Filter(order, risky)
  }

  /**
   * The empty cells and the cells with a risk partition the registered
   * cells: each registered id is in exactly one of the two lists, neither
   * list repeats an id, and their lengths add up to the number of cells.
   */
  lemma CellsPartition(order: seq<int>, cells: CellMap)
    requires NoDup(order)
    requires forall i :: 0 <= i < |order| ==> order[i] in cells
    ensures |EmptyCells(order, cells)| + |CellsWithAnyRisk(order, cells)| == |order|
    ensures NoDup(EmptyCells(order, cells)) && NoDup(CellsWithAnyRisk(order, cells))
    ensures forall i :: 0 <= i < |order| ==>
      (order[i] in EmptyCells(order, cells) <==> order[i] !in CellsWithAnyRisk(order, cells))
  {
    var empty := k => k in cells && cells[k].None?;
    var risky := k => k in cells && cells[k].Some?;
    FilterComplement(order, risky, empty);
  }

  /** `Math.Min` over the requested count, where a count below one selects nothing. */
  function SelectionSize(count: int, available: nat): nat
  {
    if count <= 0 then 0 else if count < available then count else available
  }

  /**
   * The loop shared by `GetRandomEmptyCells` and `GetRandomCells`: up to
   * `count` times, a random remaining id is moved from the candidates to the
   * selection.
   */
  method PickDistinct(candidates: seq<int>, count: int) returns (selected: seq<int>)
    requires NoDup(candidates)
    ensures |selected| == SelectionSize(count, |candidates|)
    ensures NoDup(selected)
    ensures forall i :: 0 <= i < |selected| ==> selected[i] in candidates
  {
    var pool := candidates;
    selected := [];
    var i := 0;
    while i < count && |pool| > 0
      invariant 0 <= i && |selected| == i && (i <= count || i == 0)
      invariant |selected| + |pool| == |candidates|
      invariant NoDup(pool) && NoDup(selected)
      invariant forall j :: 0 <= j < |pool| ==> pool[j] in candidates
      invariant forall j :: 0 <= j < |selected| ==> selected[j] in candidates && selected[j] !in pool
      decreases |pool|
    {
      var k :| 0 <= k < |pool|;
      var picked := pool[k];
      RemoveAtNoDup(pool, k);
      selected := selected + [picked];
      pool := RemoveAt(pool, k);
      i := i + 1;
    }
  }

  /** Some registered cell holds `risk`. */
  predicate HeldSomewhere(order: seq<int>, cells: CellMap, risk: Option<Risk>)
  {
    exists i :: 0 <= i < |order| && order[i] in cells && cells[order[i]] == risk
  }

  /** The table after `risk` went onto cell `c`. */
  predicate PlacedOn(before: CellMap, after: CellMap, c: int, risk: Risk)
  {
    c in before && after == before[c := Some(risk)]
  }

  /**
   * Among the tiles found, one with id `a` comes before every tile with id
   * `b`: `a` is enumerated before `b`.
   */
  predicate FoundBefore(allTiles: seq<HexTile>, a: int, b: int)
    reads set i | 0 <= i < |allTiles| :: allTiles[i]
  {
    exists i :: 0 <= i < |allTiles| && allTiles[i].id == a
      && forall j :: 0 <= j <= i ==> allTiles[j].id != b
  }

  /** The ids are listed in the order their first tiles were found. */
  predicate FirstFoundOrder(allTiles: seq<HexTile>, ids: seq<int>)
    reads set i | 0 <= i < |allTiles| :: allTiles[i]
  {
    forall p, q :: 0 <= p < q < |ids| ==> FoundBefore(allTiles, ids[p], ids[q])
  }

  /**
   * Each id is registered with the last of the first `n` tiles that carries
   * it: a later tile with the same id replaces an earlier one.
   */
  predicate LastFound(allTiles: seq<HexTile>, n: nat, tiles: map<int, HexTile>)
    requires n <= |allTiles|
    reads set i | 0 <= i < |allTiles| :: allTiles[i]
  {
    forall k :: k in tiles ==>
      exists i :: 0 <= i < n && tiles[k] == allTiles[i] && allTiles[i].id == k
        && forall j :: i < j < n ==> allTiles[j].id != k
  }

  /** Registering tile `n` keeps each id with its last tile so far. */
  lemma LastFoundStep(allTiles: seq<HexTile>, n: nat, tiles: map<int, HexTile>)
    requires n < |allTiles| && LastFound(allTiles, n, tiles)
    ensures LastFound(allTiles, n + 1, tiles[allTiles[n].id := allTiles[n]])
  {
    var x := allTiles[n].id;
    var t := tiles[x := allTiles[n]];
    forall k | k in t
      ensures exists i :: (0 <= i < n + 1 && t[k] == allTiles[i] && allTiles[i].id == k
        && forall j :: i < j < n + 1 ==> allTiles[j].id != k)
    {
      if k == x {
        assert t[k] == allTiles[n];
      } else {
        var i :| 0 <= i < n && tiles[k] == allTiles[i] && allTiles[i].id == k
          && forall j :: i < j < n ==> allTiles[j].id != k;
        assert t[k] == allTiles[i];
      }
    }
  }

  /**
   * Registering tile `n` keeps the enumeration order: a newly seen id comes
   * after every id already listed, whose first tiles all precede it.
   */
  lemma FirstFoundStep(allTiles: seq<HexTile>, n: nat, ids: seq<int>)
    requires n < |allTiles|
    requires forall i :: 0 <= i < n ==> allTiles[i].id in ids
    requires forall p :: 0 <= p < |ids| ==> exists i :: 0 <= i < n && allTiles[i].id == ids[p]
    requires FirstFoundOrder(allTiles, ids)
    ensures FirstFoundOrder(allTiles, AddIfAbsent(ids, allTiles[n].id))
  {
    var x := allTiles[n].id;
    var r := AddIfAbsent(ids, x);
    if x !in ids {
      forall p, q | 0 <= p < q < |r| ensures FoundBefore(allTiles, r[p], r[q]) {
        if q < |ids| {
          assert r[p] == ids[p] && r[q] == ids[q];
        } else {
          assert r[p] == ids[p] && r[q] == x;
          var i :| 0 <= i < n && allTiles[i].id == ids[p];
          assert forall j :: 0 <= j <= i ==> allTiles[j].id != x;
        }
      }
    }
  }

  /**
   * The registration loop of `Start`: each tile found is filed under its id,
   * and each id is listed once, when its first tile is found.
   */
  method RegisterTiles(allTiles: seq<HexTile>) returns (ids: seq<int>, tiles: map<int, HexTile>)
    ensures NoDup(ids)
    ensures (forall i :: 0 <= i < |ids| ==> ids[i] in tiles) && (forall k :: k in tiles ==> k in ids)
    ensures forall i :: 0 <= i < |allTiles| ==> allTiles[i].id in tiles
    ensures forall k :: k in tiles ==> tiles[k].id == k
    ensures LastFound(allTiles, |allTiles|, tiles)
    ensures FirstFoundOrder(allTiles, ids)
  {
    ids, tiles := [], map[];
    for n := 0 to |allTiles|
      invariant NoDup(ids)
      invariant (forall i :: 0 <= i < |ids| ==> ids[i] in tiles) && (forall k :: k in tiles ==> k in ids)
      invariant forall i :: 0 <= i < n ==> allTiles[i].id in tiles && allTiles[i].id in ids
      invariant forall k :: k in tiles ==> tiles[k].id == k
      invariant forall p :: 0 <= p < |ids| ==> exists i :: 0 <= i < n && allTiles[i].id == ids[p]
      invariant LastFound(allTiles, n, tiles)
      invariant FirstFoundOrder(allTiles, ids)
    {
      var tile := allTiles[n];
      LastFoundStep(allTiles, n, tiles);
      FirstFoundStep(allTiles, n, ids);
      ids := AddIfAbsent(ids, tile.id);
      tiles := tiles[tile.id := tile];
    }
  }

  class BoardRiskManager {
    /** Registered cell ids, in the order they were first registered. */
    var order: seq<int>
    var cellRisks: CellMap
    var hexTilesById: map<int, HexTile>

    /**
     * Both tables have exactly the registered ids as keys, the order lists
     * each of them once, and no tile is registered under two ids.
     */
    predicate Valid()
      reads this
    {
      NoDup(order)
      && (forall i :: 0 <= i < |order| ==> order[i] in cellRisks)
      && (forall k :: k in cellRisks ==> k in order)
      && cellRisks.Keys == hexTilesById.Keys
      && (forall a, b :: a in hexTilesById && b in hexTilesById && a != b ==> hexTilesById[a] != hexTilesById[b])
    }

    /** The registered tile objects. */
    function Tiles(): set<HexTile>
      reads this
    {
      set k | k in hexTilesById :: hexTilesById[k]
    }

    /**
     * `Awake` and `Start`: every tile found is registered under its id, and
     * of several tiles with the same id the last one found wins; every
     * registered cell starts empty. The ids are enumerated in the order their
     * first tile was found.
     */
    constructor (allTiles: seq<HexTile>)
      ensures Valid()
      ensures forall k :: k in cellRisks ==> cellRisks[k] == None
      ensures forall i :: 0 <= i < |allTiles| ==> allTiles[i].id in hexTilesById
      ensures LastFound(allTiles, |allTiles|, hexTilesById)
      ensures FirstFoundOrder(allTiles, order)
    {
      var ids, tiles := RegisterTiles(allTiles);
      order := ids;
      hexTilesById := tiles;
      cellRisks := map k | k in tiles :: None;
    }

    /**
     * `AddRiskToCell`: a present risk on a registered cell replaces whatever
     * the cell held, on the table and on the tile; anything else changes
     * nothing.
     */
    method AddRiskToCell(hexId: int, risk: Option<Risk>)
      requires Valid()
      modifies this, Tiles()
      ensures Valid()
      ensures order == old(order) && hexTilesById == old(hexTilesById)
      ensures risk.None? || hexId !in hexTilesById ==> cellRisks == old(cellRisks)
      ensures risk.Some? && hexId in hexTilesById ==>
        cellRisks == old(cellRisks)[hexId := risk] && hexTilesById[hexId].activeRisk == risk
      ensures forall k :: k in hexTilesById && (k != hexId || risk.None?) ==>
        hexTilesById[k].activeRisk == old(hexTilesById[k].activeRisk)
      ensures forall k :: k in hexTilesById ==> hexTilesById[k].id == old(hexTilesById[k].id)
    {
      if risk.None? {
        return;
      }
      if hexId !in hexTilesById {
        return;
      }
      cellRisks := cellRisks[hexId := risk];
      hexTilesById[hexId].SetRisk(risk);
    }

    /** `RemoveRiskFromCell`: a registered cell becomes empty; an unknown id is ignored. */
    method RemoveRiskFromCell(hexId: int)
      requires Valid()
      modifies this, Tiles()
      ensures Valid()
      ensures order == old(order) && hexTilesById == old(hexTilesById)
      ensures hexId !in hexTilesById ==> cellRisks == old(cellRisks)
      ensures hexId in hexTilesById ==>
        cellRisks == old(cellRisks)[hexId := None] && hexTilesById[hexId].activeRisk == None
      ensures forall k :: k in hexTilesById && k != hexId ==>
        hexTilesById[k].activeRisk == old(hexTilesById[k].activeRisk)
      ensures forall k :: k in hexTilesById ==> hexTilesById[k].id == old(hexTilesById[k].id)
    {
      if hexId !in hexTilesById {
        return;
      }
      cellRisks := cellRisks[hexId := None];
      hexTilesById[hexId].ClearRisk();
    }

    /** `GetRiskOnCell`: the cell's risk; null for an empty or unknown cell. */
    function GetRiskOnCell(hexId: int): (r: Option<Risk>)
      reads this
      ensures hexId in cellRisks ==> r == cellRisks[hexId]
      ensures hexId !in cellRisks ==> r.None?
    {
      if hexId !in cellRisks then None else cellRisks[hexId]
    }

    /**
     * `GetCellWithRisk`: the first cell, in enumeration order, whose value
     * equals `risk`, or -1 when there is none. Asking for null finds the
     * first empty cell.
     */
    method GetCellWithRisk(risk: Option<Risk>) returns (cellId: int)
      requires Valid()
      ensures !HeldSomewhere(order, cellRisks, risk) ==> cellId == -1
      ensures HeldSomewhere(order, cellRisks, risk) ==>
        exists i :: 0 <= i < |order| && order[i] == cellId && cellRisks[cellId] == risk
          && forall j :: 0 <= j < i ==> cellRisks[order[j]] != risk
    {
      for i := 0 to |order|
        invariant forall j :: 0 <= j < i ==> cellRisks[order[j]] != risk
      {
        if cellRisks[order[i]] == risk {
          return order[i];
        }
      }
      return -1;
    }

    /** `GetEmptyCells`. */
    function GetEmptyCells(): (r: seq<int>)
      reads this
      requires Valid()
      ensures r == EmptyCells(order, cellRisks) && NoDup(r)
    {
      EmptyCells(order, cellRisks)
    }

    /** `GetCellsWithAnyRisk`. */
    function GetCellsWithAnyRisk(): (r: seq<int>)
      reads this
      requires Valid()
      ensures r == CellsWithAnyRisk(order, cellRisks) && NoDup(r)
    {
      CellsWithAnyRisk(order, cellRisks)
    }

    /** `GetRandomEmptyCellId`: -1 when no cell is empty, otherwise some empty cell. */
    method GetRandomEmptyCellId() returns (cellId: int)
      requires Valid()
      ensures |EmptyCells(order, cellRisks)| == 0 ==> cellId == -1
      ensures |EmptyCells(order, cellRisks)| > 0 ==> cellId in cellRisks && cellRisks[cellId].None?
    {
      var emptyCells := GetEmptyCells();
      if |emptyCells| == 0 {
        return -1;
      }
      var k :| 0 <= k < |emptyCells|;
      return emptyCells[k];
    }

    /** `GetRandomEmptyCells`: `count` distinct empty cells, or all of them if there are fewer. */
    method GetRandomEmptyCells(count: int) returns (cells: seq<int>)
      requires Valid()
      ensures |cells| == SelectionSize(count, |EmptyCells(order, cellRisks)|)
      ensures NoDup(cells)
      ensures forall i :: 0 <= i < |cells| ==> cells[i] in cellRisks && cellRisks[cells[i]].None?
    {
      var emptyCells := GetEmptyCells();
      cells := PickDistinct(emptyCells, count);
    }

    /** `GetHexTile`: the tile registered under the id, or null. */
    function GetHexTile(hexId: int): (r: Option<HexTile>)
      reads this
      ensures r.Some? <==> hexId in hexTilesById
      ensures r.Some? ==> r.value == hexTilesById[hexId]
    {
      if hexId in hexTilesById then Some(hexTilesById[hexId]) else None
    }

    /** `GetRandomCellId`: -1 when no cell is registered, otherwise some registered cell. */
    method GetRandomCellId() returns (cellId: int)
      requires Valid()
      ensures |order| == 0 ==> cellId == -1
      ensures |order| > 0 ==> cellId in hexTilesById
    {
      var allIds := order;
      if |allIds| == 0 {
        return -1;
      }
      var k :| 0 <= k < |allIds|;
      return allIds[k];
    }

    /** `GetRandomCells`: `count` distinct registered cells, or all of them if there are fewer. */
    method GetRandomCells(count: int) returns (cells: seq<int>)
      requires Valid()
      ensures |cells| == SelectionSize(count, |hexTilesById|)
      ensures NoDup(cells)
      ensures forall i :: 0 <= i < |cells| ==> cells[i] in hexTilesById
    {
      RegisteredCount();
      cells := PickDistinct(order, count);
    }

    /** Under the invariant the order lists every registered id once. */
    lemma RegisteredCount()
      requires Valid()
      ensures |order| == |hexTilesById|
    {
      var keys := hexTilesById.Keys;
      var listed := set i | 0 <= i < |order| :: order[i];
      forall k | k in keys ensures k in listed {
        assert k in order;
        var i :| 0 <= i < |order| && order[i] == k;
      }
      assert keys == listed;
      DistinctCount(order);
    }

    /** `ClearAllCells`: afterwards every registered cell, and its tile, is empty. */
    method ClearAllCells()
      requires Valid()
      modifies this, Tiles()
      ensures Valid()
      ensures order == old(order) && hexTilesById == old(hexTilesById)
      ensures cellRisks.Keys == old(cellRisks).Keys
      ensures forall k :: k in cellRisks ==> cellRisks[k].None?
      ensures forall k :: k in hexTilesById ==> hexTilesById[k].activeRisk.None?
      ensures forall k :: k in hexTilesById ==> hexTilesById[k].id == old(hexTilesById[k].id)
    {
      for i := 0 to |order|
        invariant Valid()
        invariant order == old(order) && hexTilesById == old(hexTilesById)
        invariant cellRisks.Keys == old(cellRisks).Keys
        invariant forall j :: 0 <= j < i ==> cellRisks[order[j]].None?
        invariant forall j :: 0 <= j < i ==> hexTilesById[order[j]].activeRisk.None?
        invariant forall k :: k in hexTilesById ==> hexTilesById[k].id == old(hexTilesById[k].id)
      {
        RemoveRiskFromCell(order[i]);
      }
    }

    /**
     * A library risk `r` went onto cell `c`, which was empty: the table
     * changed at `c` alone and the cell's tile now shows `r`.
     */
    twostate predicate RandomPlacement(library: Option<seq<Risk>>, c: int, r: Risk)
      reads this, hexTilesById.Values
    {
      PlacedOn(old(cellRisks), cellRisks, c, r) && old(cellRisks)[c].None?
      && library.Some? && r in library.value
      && c in hexTilesById && hexTilesById[c].activeRisk == Some(r)
    }

    /**
     * `AddRandomRiskToRandomCell`: with a non-empty library and an empty
     * cell, a random library risk goes onto a random empty cell. The random
     * cell id -1 doubles as "none", so an empty cell whose id is -1 is
     * treated as no cell at all.
     */
    method AddRandomRiskToRandomCell(library: Option<seq<Risk>>)
      requires Valid()
      modifies this, Tiles()
      ensures Valid()
      ensures order == old(order) && hexTilesById == old(hexTilesById)
      ensures library.None? || |library.value| == 0 || |old(EmptyCells(order, cellRisks))| == 0 ==>
        cellRisks == old(cellRisks)
      ensures cellRisks == old(cellRisks) || exists c, r :: RandomPlacement(library, c, r)
      ensures library.Some? && |library.value| > 0 && |old(EmptyCells(order, cellRisks))| > 0 && -1 !in cellRisks ==>
        exists c, r :: RandomPlacement(library, c, r)
      ensures forall k :: k in hexTilesById && cellRisks[k] == old(cellRisks)[k] ==>
        hexTilesById[k].activeRisk == old(hexTilesById[k].activeRisk)
      ensures forall k :: k in hexTilesById ==> hexTilesById[k].id == old(hexTilesById[k].id)
    {
      if library.None? || |library.value| == 0 {
        return;
      }
      var randomCellId := GetRandomEmptyCellId();
      if randomCellId == -1 {
        return;
      }
      var j :| 0 <= j < |library.value|;
      var randomRisk := library.value[j];
      AddRiskToCell(randomCellId, Some(randomRisk));
      assert RandomPlacement(library, randomCellId, randomRisk);
    }
  }

  /** A duplicate-free sequence has as many elements as its set of elements. */
  lemma {:induction false} DistinctCount(s: seq<int>)
    requires NoDup(s)
    ensures |set i | 0 <= i < |s| :: s[i]| == |s|
  {
    if |s| > 0 {
      var init := s[..|s| - 1];
      DistinctCount(init);
      var a := set i | 0 <= i < |init| :: init[i];
      var b := set i | 0 <= i < |s| :: s[i];
      assert b == a + {s[|s| - 1]};
      assert s[|s| - 1] !in a;
    }
  }
}
