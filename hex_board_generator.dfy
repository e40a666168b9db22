/**
 * The hexagonal board (Game/HexBoardGenerator.cs). Cells are enumerated in
 * axial coordinates (q, r): q runs over [-R, R] and, for each q, r runs over
 * [max(-R, -q-R), min(R, -q+R)]. Each cell gets a new tile whose id is its
 * position in the enumeration. World positions (floating point) and prefab
 * instantiation are not part of this model; the axial coordinates of every
 * tile are kept instead.
 */
module HexBoard {
  import opened HexTiles
  import opened Seqs

  type Axial = (int, int)

  function Max(a: int, b: int): int { if a < b then b else a }
  function Min(a: int, b: int): int { if a < b then a else b }

  /** First and last r of column q. */
  function RowStart(radius: int, q: int): int { Max(-radius, -q - radius) }
  function RowEnd(radius: int, q: int): int { Min(radius, -q + radius) }

  /** The cells of column q, in increasing r. */
  function Column(radius: int, q: int): (r: seq<Axial>)
    ensures |r| == if RowStart(radius, q) <= RowEnd(radius, q)
                   then RowEnd(radius, q) - RowStart(radius, q) + 1 else 0
    ensures forall i :: 0 <= i < |r| ==> r[i] == (q, RowStart(radius, q) + i)
  {
    if RowStart(radius, q) <= RowEnd(radius, q) then
      seq(RowEnd(radius, q) - RowStart(radius, q) + 1, i => (q, RowStart(radius, q) + i))
    else []
  }

  /** The columns -R .. q-1, in the order the generator visits them. */
  function ColumnsBefore(radius: int, q: int): seq<Axial>
    decreases q + radius
  {
    if q <= -radius then [] else ColumnsBefore(radius, q - 1) + Column(radius, q - 1)
  }

  /** The whole board of the given radius, in generation order. */
  function Board(radius: int): seq<Axial>
  {
    ColumnsBefore(radius, radius + 1)
  }

  /** Hexagonal distance from the centre is at most the radius. */
  predicate InDisc(radius: int, c: Axial)
  {
    -radius <= c.0 <= radius && -radius <= c.1 <= radius && -radius <= c.0 + c.1 <= radius
  }

  /** Strict lexicographic order on (q, r). */
  predicate Before(a: Axial, b: Axial)
  {
    a.0 < b.0 || (a.0 == b.0 && a.1 < b.1)
  }

  predicate Increasing(s: seq<Axial>)
  {
    forall i, j :: 0 <= i < j < |s| ==> Before(s[i], s[j])
  }

  /** The columns before q hold exactly the disc cells with a smaller q. */
  lemma {:induction false} ColumnsBeforeCells(radius: int, q: int)
    requires q <= radius + 1
    ensures forall i :: 0 <= i < |ColumnsBefore(radius, q)| ==>
      InDisc(radius, ColumnsBefore(radius, q)[i]) && ColumnsBefore(radius, q)[i].0 < q
    ensures forall c: Axial :: InDisc(radius, c) && c.0 < q ==> c in ColumnsBefore(radius, q)
    ensures Increasing(ColumnsBefore(radius, q))
    decreases q + radius
  {
    if q > -radius {
      ColumnsBeforeCells(radius, q - 1);
      var pre, col := ColumnsBefore(radius, q - 1), Column(radius, q - 1);
      assert ColumnsBefore(radius, q) == pre + col;
      forall c: Axial | InDisc(radius, c) && c.0 < q
        ensures c in ColumnsBefore(radius, q)
      {
        if c.0 == q - 1 {
          var i := c.1 - RowStart(radius, q - 1);
          assert col[i] == c;
        } else {
          assert c in pre;
        }
      }
    }
  }

  /** Every cell of the board lies in the disc, and every disc cell is on the board. */
  lemma BoardIsDisc(radius: int)
    ensures forall i :: 0 <= i < |Board(radius)| ==> InDisc(radius, Board(radius)[i])
    ensures forall c: Axial :: InDisc(radius, c) ==> c in Board(radius)
  {
    ColumnsBeforeCells(radius, radius + 1);
  }

  /** No cell is generated twice. */
  lemma BoardNoDup(radius: int)
    ensures NoDup(Board(radius))
  {
    ColumnsBeforeCells(radius, radius + 1);
    var b := Board(radius);
    forall i, j | 0 <= i < j < |b| ensures b[i] != b[j] {
      assert Before(b[i], b[j]);
    }
  }

  /** Twice the number of cells in the columns -R .. q-1. */
  function TwiceCountBefore(radius: int, q: int): int
  {
    if q <= 0 then (q + radius) * (3 * radius + 1 + q)
    else radius * (3 * radius + 1) + 2 * q * (2 * radius + 1) - q * (q - 1)
  }

  /** One more column adds its length to the running count. */
  lemma CountStep(radius: int, p: int)
    requires 0 <= radius && -radius <= p <= radius
    ensures TwiceCountBefore(radius, p + 1)
         == TwiceCountBefore(radius, p) + 2 * (2 * radius + 1 - (if p < 0 then -p else p))
  {
    if p < 0 {
      var a := p + radius;
      assert TwiceCountBefore(radius, p) == a * (a + 2 * radius + 1);
      assert TwiceCountBefore(radius, p + 1) == (a + 1) * (a + 2 * radius + 2);
      assert (a + 1) * (a + 2 * radius + 2) == a * (a + 2 * radius + 2) + (a + 2 * radius + 2);
      assert a * (a + 2 * radius + 2) == a * (a + 2 * radius + 1) + a;
    } else if p == 0 {
      assert TwiceCountBefore(radius, 1) == radius * (3 * radius + 1) + 2 * (2 * radius + 1);
    } else {
      assert (p + 1) * (2 * radius + 1) == p * (2 * radius + 1) + (2 * radius + 1);
      assert (p + 1) * p == p * p + p;
      assert p * (p - 1) == p * p - p;
    }
  }

  lemma {:induction false} ColumnsBeforeCount(radius: int, q: int)
    requires 0 <= radius && -radius <= q <= radius + 1
    ensures 2 * |ColumnsBefore(radius, q)| == TwiceCountBefore(radius, q)
    decreases q + radius
  {
    if q > -radius {
      ColumnsBeforeCount(radius, q - 1);
      CountStep(radius, q - 1);
      assert |Column(radius, q - 1)| == 2 * radius + 1 - (if q - 1 < 0 then 1 - q else q - 1);
    }
  }

  lemma TwiceBoardCount(radius: int)
    requires 0 <= radius
    ensures TwiceCountBefore(radius, radius + 1) == 2 * (3 * radius * (radius + 1) + 1)
  {
    var q := radius + 1;
    var sq := radius * radius;
    assert 2 * q * (2 * radius + 1) == 4 * sq + 6 * radius + 2;
    assert q * (q - 1) == sq + radius;
    assert radius * (3 * radius + 1) == 3 * sq + radius;
    assert 3 * radius * (radius + 1) == 3 * sq + 3 * radius;
  }

  /** A board of radius R has 3R(R+1)+1 cells; a negative radius gives none. */
  lemma BoardSize(radius: int)
    ensures radius >= 0 ==> |Board(radius)| == 3 * radius * (radius + 1) + 1
    ensures radius < 0 ==> |Board(radius)| == 0
  {
    if radius >= 0 {
      ColumnsBeforeCount(radius, radius + 1);
      TwiceBoardCount(radius);
    }
  }

  /** The default radius of 3 gives the 37-cell board. */
  lemma DefaultBoardSize()
    ensures |Board(3)| == 37
  {
    BoardSize(3);
  }

  /**
   * The inner loop of `GenerateHexCircle`: one new tile per cell of column
   * q, in increasing r, numbered on from `firstId`.
   */
  method GenerateColumn(radius: int, q: int, firstId: int) returns (tiles: seq<HexTile>, places: seq<Axial>)
    ensures places == Column(radius, q) && |tiles| == |places|
    ensures forall j :: 0 <= j < |tiles| ==>
      fresh(tiles[j]) && tiles[j].id == firstId + j && tiles[j].activeRisk.None?
  {
    var r1, r2 := Max(-radius, -q - radius), Min(radius, -q + radius);
    tiles, places := [], [];
    var r := r1;
    while r <= r2
      invariant r1 <= r <= r2 + 1 || (r == r1 && r2 < r1)
      invariant places == Column(radius, q)[..r - r1] && |tiles| == r - r1
      invariant forall j :: 0 <= j < |tiles| ==>
        fresh(tiles[j]) && tiles[j].id == firstId + j && tiles[j].activeRisk.None?
    {
      var tile := new HexTile(firstId + (r - r1));
      tiles := tiles + [tile];
      places := places + [(q, r)];
      r := r + 1;
    }
  }

  class HexBoardGenerator {
    const radiusInHexes: int
    /** The generated tiles, in generation order. */
    var hexTiles: seq<HexTile>
    /** The axial coordinates each tile was placed at, parallel to `hexTiles`. */
    var placements: seq<Axial>

    constructor (radius: int)
      ensures radiusInHexes == radius && hexTiles == [] && placements == []
    {
      radiusInHexes := radius;
      hexTiles := [];
      placements := [];
    }

    /**
     * `GenerateHexCircle`: appends one new tile per board cell, in board order,
     * numbering the new tiles 0, 1, 2, ...
     */
    method GenerateHexCircle()
      modifies this
      ensures placements == old(placements) + Board(radiusInHexes)
      ensures |hexTiles| == |old(hexTiles)| + |Board(radiusInHexes)|
      ensures hexTiles[..|old(hexTiles)|] == old(hexTiles)
      ensures forall j :: |old(hexTiles)| <= j < |hexTiles| ==>
        fresh(hexTiles[j]) && hexTiles[j].id == j - |old(hexTiles)| && hexTiles[j].activeRisk.None?
    {
      var radius := radiusInHexes;
      var tiles0 := hexTiles;
      var added: seq<HexTile>, places: seq<Axial> := [], [];
      var q := -radius;
      while q <= radius
        invariant q == -radius || -radius <= q <= radius + 1
        invariant places == ColumnsBefore(radius, q) && |added| == |places|
        invariant hexTiles == tiles0 && placements == old(placements)
        invariant forall j :: 0 <= j < |added| ==>
          fresh(added[j]) && added[j].id == j && added[j].activeRisk.None?
      {
        var tiles, column := GenerateColumn(radius, q, |added|);
        added, places := added + tiles, places + column;
        q := q + 1;
      }
      if radius < 0 {
        assert places == [] == Board(radius);
      } else {
        assert q == radius + 1;
      }
      hexTiles := hexTiles + added;
      placements := placements + places;
      forall j | |tiles0| <= j < |hexTiles|
        ensures fresh(hexTiles[j]) && hexTiles[j].id == j - |tiles0| && hexTiles[j].activeRisk.None?
      {
        assert hexTiles[j] == added[j - |tiles0|];
      }
    }
  }
}
