/**
 * Value-level model of one 10x10 battleship board: the cell states, the
 * row-major layout of the cells, the four placement directions and the
 * specification of the placement checks that Board and DirectionBoard run
 * as loops.
 */
module Grids {

  datatype Option<T> = None | Some(value: T)

  // Cell states, as stored in the board's int cells.
  const Empty: int := 0
  const Ship: int := 1
  const Hit: int := 2
  const Miss: int := 3
  const ValidPosition: int := 4
  const InvalidPosition: int := 5

  predicate IsState(v: int) { Empty <= v <= InvalidPosition }

  /** The 100 cells of a board, row i and column j stored at 10 * i + j. */
  type Grid = g: seq<int> | |g| == 100 witness seq(100, _ => 0)

  /** A coordinate pair {i, j}: i is the row (number), j the column (letter). */
  datatype Pos = Pos(i: int, j: int)

  predicate InBounds(i: int, j: int) { 0 <= i < 10 && 0 <= j < 10 }

  predicate InBoundsPos(p: Pos) { InBounds(p.i, p.j) }

  /** The value of a cell, or -1 outside the board. */
  function CellAt(g: Grid, i: int, j: int): int {
    if InBounds(i, j) then g[10 * i + j] else -1
  }

  /** A write that is a no-op outside the board. */
  function SetCell(g: Grid, i: int, j: int, v: int): Grid {
    if InBounds(i, j) then g[10 * i + j := v] else g
  }

  predicate ShipAt(g: Grid, i: int, j: int) { CellAt(g, i, j) == Ship }

  predicate ShipAtPos(g: Grid, p: Pos) { ShipAt(g, p.i, p.j) }

  function EmptyGrid(): Grid { seq(100, _ => Empty) }

  lemma IndexInjective(a: int, b: int, c: int, d: int)
    requires InBounds(a, b) && InBounds(c, d)
    ensures 10 * a + b == 10 * c + d <==> a == c && b == d
  {
  }

  /** Reading a cell after a write: only the written in-bounds cell changes. */
  lemma CellAtSetCell(g: Grid, i: int, j: int, v: int, a: int, b: int)
    ensures CellAt(SetCell(g, i, j, v), a, b)
         == if InBounds(i, j) && a == i && b == j then v else CellAt(g, a, b)
  {
    if InBounds(i, j) && InBounds(a, b) {
      IndexInjective(i, j, a, b);
    }
  }

  // ---------------------------------------------------------------------------
  // Directions and runs of cells

  /** D increases i, U decreases i, R increases j, L decreases j. */
  datatype Dir = Down | Up | Right | Left

  /** The one-letter name of a direction: "D", "U", "R" or "L". */
  function Letter(d: Dir): string {
    match d
    case Down => "D"
    case Up => "U"
    case Right => "R"
    case Left => "L"
  }

  /** The cell k steps away from (i, j) in direction d. */
  function Step(i: int, j: int, d: Dir, k: int): Pos {
    match d
    case Down => Pos(i + k, j)
    case Up => Pos(i - k, j)
    case Right => Pos(i, j + k)
    case Left => Pos(i, j - k)
  }

  /** The edge test of one direction: the run of len cells from (i, j) stays on the board's far side. */
  predicate Fits(i: int, j: int, d: Dir, len: int) {
    match d
    case Down => i + len <= 10
    case Up => i - len >= -1
    case Right => j + len <= 10
    case Left => j - len >= -1
  }

  /** No cell at offsets from .. len-1 of the run is a Ship. */
  predicate ClearRun(g: Grid, i: int, j: int, d: Dir, from: int, len: int) {
    forall k :: from <= k < len ==> !ShipAtPos(g, Step(i, j, d, k))
  }

  /** One direction of Board.checkPositionValidity: origin included. */
  predicate DirectionWorks(g: Grid, i: int, j: int, d: Dir, len: int) {
    Fits(i, j, d, len) && 1 <= len && ClearRun(g, i, j, d, 0, len)
  }

  /** What Board.checkPositionValidity computes. */
  predicate PositionValid(g: Grid, i: int, j: int, len: int) {
    DirectionWorks(g, i, j, Down, len) || DirectionWorks(g, i, j, Up, len)
    || DirectionWorks(g, i, j, Right, len) || DirectionWorks(g, i, j, Left, len)
  }

  /** One direction of DirectionBoard.updateValidPositionDirections: origin excluded. */
  predicate DirectionAccepted(g: Grid, i: int, j: int, d: Dir, len: int) {
    Fits(i, j, d, len) && 2 <= len && ClearRun(g, i, j, d, 1, len)
  }

  function IfAccepted(g: Grid, i: int, j: int, d: Dir, len: int): seq<Dir> {
    if DirectionAccepted(g, i, j, d, len) then [d] else []
  }

  /** The directions updateValidPositionDirections appends, in its order D, U, R, L. */
  function AcceptedDirections(g: Grid, i: int, j: int, len: int): seq<Dir> {
    IfAccepted(g, i, j, Down, len) + IfAccepted(g, i, j, Up, len)
    + IfAccepted(g, i, j, Right, len) + IfAccepted(g, i, j, Left, len)
  }

  /** The cells at offsets from .. to-1 of a run, in order. */
  function RunCells(i: int, j: int, d: Dir, from: int, to: int): (r: seq<Pos>)
    ensures |r| == if from <= to then to - from else 0
  {
    seq(if from <= to then to - from else 0, k => Step(i, j, d, from + k))
  }

  // ---------------------------------------------------------------------------
  // Writing many cells

  /** Writes v to every position of ps in order; out-of-bounds positions are skipped. */
  function SetCells(g: Grid, ps: seq<Pos>, v: int): Grid {
    if ps == [] then g
    else SetCell(SetCells(g, ps[..|ps| - 1], v), ps[|ps| - 1].i, ps[|ps| - 1].j, v)
  }

  lemma {:induction false} CellAtSetCells(g: Grid, ps: seq<Pos>, v: int, a: int, b: int)
    ensures CellAt(SetCells(g, ps, v), a, b)
         == if InBounds(a, b) && Pos(a, b) in ps then v else CellAt(g, a, b)
  {
    if ps != [] {
      var last := ps[|ps| - 1];
      CellAtSetCells(g, ps[..|ps| - 1], v, a, b);
      CellAtSetCell(SetCells(g, ps[..|ps| - 1], v), last.i, last.j, v, a, b);
      assert ps == ps[..|ps| - 1] + [last];
    }
  }

  lemma RunCellsExtend(i: int, j: int, d: Dir, from: int, k: int)
    requires from <= k
    ensures RunCells(i, j, d, from, k + 1) == RunCells(i, j, d, from, k) + [Step(i, j, d, k)]
  {
  }

  lemma SetCellsSnoc(g: Grid, ps: seq<Pos>, p: Pos, v: int)
    ensures SetCells(g, ps + [p], v) == SetCell(SetCells(g, ps, v), p.i, p.j, v)
  {
    assert (ps + [p])[..|ps|] == ps;
  }

  /** Writing ps then qs is writing ps + qs. */
  lemma {:induction false} SetCellsAppend(g: Grid, ps: seq<Pos>, qs: seq<Pos>, v: int)
    ensures SetCells(SetCells(g, ps, v), qs, v) == SetCells(g, ps + qs, v)
  {
    if qs == [] {
      assert ps + qs == ps;
    } else {
      var init, last := qs[..|qs| - 1], qs[|qs| - 1];
      SetCellsAppend(g, ps, init, v);
      assert qs == init + [last];
      assert ps + qs == (ps + init) + [last];
      SetCellsSnoc(g, ps + init, last, v);
    }
  }

  /** Two grids with the same Ship cells. */
  predicate SameShips(g: Grid, h: Grid) {
    forall x :: 0 <= x < 100 ==> (g[x] == Ship <==> h[x] == Ship)
  }

  lemma SameShipsAt(g: Grid, h: Grid, a: int, b: int)
    requires SameShips(g, h)
    ensures ShipAt(g, a, b) <==> ShipAt(h, a, b)
  {
    if InBounds(a, b) {
      assert g[10 * a + b] == Ship <==> h[10 * a + b] == Ship;
    }
  }

  /** Only Ship (1) counts as occupied: grids with the same Ship cells agree on every placement check. */
  lemma {:induction false} ChecksSeeOnlyShips(g: Grid, h: Grid, i: int, j: int, len: int)
    requires SameShips(g, h)
    ensures PositionValid(g, i, j, len) == PositionValid(h, i, j, len)
    ensures AcceptedDirections(g, i, j, len) == AcceptedDirections(h, i, j, len)
  {
    forall d: Dir, from: int
      ensures ClearRun(g, i, j, d, from, len) == ClearRun(h, i, j, d, from, len)
    {
      ClearRunSeesOnlyShips(g, h, i, j, d, from, len);
    }
  }

  lemma {:induction false} ClearRunSeesOnlyShips(g: Grid, h: Grid, i: int, j: int, d: Dir, from: int, len: int)
    requires SameShips(g, h)
    ensures ClearRun(g, i, j, d, from, len) == ClearRun(h, i, j, d, from, len)
  {
    forall k | from <= k < len
      ensures ShipAtPos(g, Step(i, j, d, k)) == ShipAtPos(h, Step(i, j, d, k))
    {
      SameShipsAt(g, h, Step(i, j, d, k).i, Step(i, j, d, k).j);
    }
  }

  /** Writing a mark other than Ship onto cells that are not Ship keeps the Ship cells. */
  lemma MarkKeepsShips(g: Grid, ps: seq<Pos>, v: int)
    requires v != Ship
    requires forall k :: 0 <= k < |ps| ==> !ShipAtPos(g, ps[k])
    ensures SameShips(g, SetCells(g, ps, v))
  {
    var h := SetCells(g, ps, v);
    forall x | 0 <= x < 100
      ensures g[x] == Ship <==> h[x] == Ship
    {
      var a, b := x / 10, x % 10;
      assert 10 * a + b == x;
      CellAtSetCells(g, ps, v, a, b);
      if Pos(a, b) in ps {
        var k :| 0 <= k < |ps| && ps[k] == Pos(a, b);
        assert !ShipAtPos(g, ps[k]);
      }
    }
  }

  // ---------------------------------------------------------------------------
  // Counting Ship cells

  function ShipCount(g: Grid): nat { multiset(g)[Ship] }

  lemma ShipCountSetShip(g: Grid, i: int, j: int)
    requires InBounds(i, j) && !ShipAt(g, i, j)
    ensures ShipCount(SetCell(g, i, j, Ship)) == ShipCount(g) + 1
  {
  }

  predicate Distinct<T(==)>(s: seq<T>) {
    forall a, b :: 0 <= a < b < |s| ==> s[a] != s[b]
  }

  /** Marking |ps| distinct, in-bounds, non-Ship cells as Ship adds exactly |ps| Ship cells. */
  lemma {:induction false} ShipCountSetShips(g: Grid, ps: seq<Pos>)
    requires Distinct(ps)
    requires forall k :: 0 <= k < |ps| ==> InBoundsPos(ps[k]) && !ShipAtPos(g, ps[k])
    ensures ShipCount(SetCells(g, ps, Ship)) == ShipCount(g) + |ps|
  {
    if ps != [] {
      var init, last := ps[..|ps| - 1], ps[|ps| - 1];
      ShipCountSetShips(g, init);
      CellAtSetCells(g, init, Ship, last.i, last.j);
      assert forall k :: 0 <= k < |init| ==> init[k] == ps[k];
      assert last !in init;
      ShipCountSetShip(SetCells(g, init, Ship), last.i, last.j);
    }
  }

  // ---------------------------------------------------------------------------
  // Properties of the placement checks

  /** The whole run of len cells from (i, j) lies on the board and holds no Ship. */
  predicate FreeRunOnBoard(g: Grid, i: int, j: int, d: Dir, len: int) {
    1 <= len && forall k :: 0 <= k < len ==> InBoundsPos(Step(i, j, d, k)) && !ShipAtPos(g, Step(i, j, d, k))
  }

  /** For an origin on the board, the edge test of one direction is exactly "the run stays on the board". */
  lemma WorksIffFreeRun(g: Grid, i: int, j: int, d: Dir, len: int)
    requires InBounds(i, j)
    ensures DirectionWorks(g, i, j, d, len) <==> FreeRunOnBoard(g, i, j, d, len)
  {
    if 1 <= len {
      var last := Step(i, j, d, len - 1);
      if FreeRunOnBoard(g, i, j, d, len) {
        assert InBoundsPos(last);
      }
      if Fits(i, j, d, len) {
        forall k | 0 <= k < len
          ensures InBoundsPos(Step(i, j, d, k))
        {
        }
      }
    }
  }

  /** For an origin on the board, checkPositionValidity holds iff some direction's whole run is on the board and free of ships. */
  lemma PositionValidMeaning(g: Grid, i: int, j: int, len: int)
    requires InBounds(i, j)
    ensures PositionValid(g, i, j, len) <==> exists d: Dir :: FreeRunOnBoard(g, i, j, d, len)
  {
    WorksIffFreeRun(g, i, j, Down, len);
    WorksIffFreeRun(g, i, j, Up, len);
    WorksIffFreeRun(g, i, j, Right, len);
    WorksIffFreeRun(g, i, j, Left, len);
    if exists d: Dir :: FreeRunOnBoard(g, i, j, d, len) {
      var d: Dir :| FreeRunOnBoard(g, i, j, d, len);
      assert d == Down || d == Up || d == Right || d == Left;
    }
  }

  /** An origin that already holds a Ship is never valid. */
  lemma ShipOriginInvalid(g: Grid, i: int, j: int, len: int)
    ensures ShipAt(g, i, j) ==> !PositionValid(g, i, j, len)
  {
    if ShipAt(g, i, j) && 1 <= len {
      forall d: Dir
        ensures !ClearRun(g, i, j, d, 0, len)
      {
        assert ShipAtPos(g, Step(i, j, d, 0));
      }
    }
  }

  /** At most one entry per direction, in the order D, U, R, L; a ship of length 1 gets none. */
  lemma AcceptedDirectionsShape(g: Grid, i: int, j: int, len: int)
    ensures |AcceptedDirections(g, i, j, len)| <= 4
    ensures Distinct(AcceptedDirections(g, i, j, len))
    ensures len <= 1 ==> AcceptedDirections(g, i, j, len) == []
    ensures forall d: Dir :: d in AcceptedDirections(g, i, j, len) <==> DirectionAccepted(g, i, j, d, len)
  {
  }

  /** Empty cells become InvalidPosition; every other cell is kept (DirectionBoard's constructor). */
  function DirectionGrid(g: Grid): Grid {
    seq(100, x requires 0 <= x < 100 => if g[x] == Empty then InvalidPosition else g[x])
  }

  /** An accepted direction, seen from a board whose origin is free, is a direction checkPositionValidity accepts. */
  lemma AcceptedWorks(g: Grid, i: int, j: int, d: Dir, len: int)
    requires DirectionAccepted(g, i, j, d, len) && !ShipAt(g, i, j)
    ensures DirectionWorks(g, i, j, d, len)
  {
    assert Step(i, j, d, 0) == Pos(i, j);
  }

  /**
   * For a ship of length >= 2 and an origin that is not a Ship on the main
   * board g, the direction board built from g with the origin marked Ship
   * offers some direction exactly when checkPositionValidity holds on g.
   */
  lemma {:induction false} DirectionsIffValid(g: Grid, i: int, j: int, len: int)
    requires 2 <= len && !ShipAt(g, i, j)
    ensures var h := SetCell(DirectionGrid(g), i, j, Ship);
      (AcceptedDirections(h, i, j, len) != []) <==> PositionValid(g, i, j, len)
  {
    var h := SetCell(DirectionGrid(g), i, j, Ship);
    forall d: Dir
      ensures DirectionAccepted(h, i, j, d, len) <==> DirectionWorks(g, i, j, d, len)
    {
      forall k | 1 <= k < len
        ensures ShipAtPos(h, Step(i, j, d, k)) <==> ShipAtPos(g, Step(i, j, d, k))
      {
        var q := Step(i, j, d, k);
        CellAtSetCell(DirectionGrid(g), i, j, Ship, q.i, q.j);
      }
      assert Step(i, j, d, 0) == Pos(i, j);
    }
    AcceptedDirectionsShape(h, i, j, len);
  }

  /** The Ship cells of a direction board are those of the board it was built from. */
  lemma DirectionGridShips(g: Grid)
    ensures SameShips(g, DirectionGrid(g))
  {
  }

  /** A direction accepted on the direction board (origin marked Ship) gives a run of in-bounds cells that are all free on the main board. */
  lemma {:induction false} AcceptedRunIsFree(g: Grid, i: int, j: int, d: Dir, len: int)
    requires InBounds(i, j) && !ShipAt(g, i, j)
    requires DirectionAccepted(SetCell(DirectionGrid(g), i, j, Ship), i, j, d, len)
    ensures forall k :: 0 <= k < len ==> InBoundsPos(Step(i, j, d, k)) && !ShipAtPos(g, Step(i, j, d, k))
    ensures Distinct(RunCells(i, j, d, 0, len))
  {
    var h := SetCell(DirectionGrid(g), i, j, Ship);
    forall k | 1 <= k < len
      ensures !ShipAtPos(g, Step(i, j, d, k))
    {
      var q := Step(i, j, d, k);
      CellAtSetCell(DirectionGrid(g), i, j, Ship, q.i, q.j);
    }
    assert Step(i, j, d, 0) == Pos(i, j);
  }

  // ---------------------------------------------------------------------------
  // The cells updateValidPositionDirections paints

  /** The run at offsets 1 .. len-1 of an accepted direction, or nothing. */
  function AcceptedRun(g: Grid, i: int, j: int, d: Dir, len: int): seq<Pos> {
    if DirectionAccepted(g, i, j, d, len) then RunCells(i, j, d, 1, len) else []
  }

  /** The cells painted ValidPosition, direction by direction in the order D, U, R, L. */
  function PaintedCells(g: Grid, i: int, j: int, len: int): seq<Pos> {
    AcceptedRun(g, i, j, Down, len) + AcceptedRun(g, i, j, Up, len)
    + AcceptedRun(g, i, j, Right, len) + AcceptedRun(g, i, j, Left, len)
  }

  /** Every painted cell is on the board, is not the origin, and is not a Ship. */
  lemma PaintedCellsFree(g: Grid, i: int, j: int, len: int)
    requires InBounds(i, j)
    ensures forall p :: p in PaintedCells(g, i, j, len) ==> InBoundsPos(p) && p != Pos(i, j) && !ShipAtPos(g, p)
  {
    forall d: Dir, p | p in AcceptedRun(g, i, j, d, len)
      ensures InBoundsPos(p) && p != Pos(i, j) && !ShipAtPos(g, p)
    {
      var k :| 0 <= k < |AcceptedRun(g, i, j, d, len)| && AcceptedRun(g, i, j, d, len)[k] == p;
      assert p == Step(i, j, d, k + 1);
    }
  }

  /** Painting one accepted run keeps the Ship cells, so later directions are judged as on the unpainted grid. */
  lemma AcceptedRunKeepsShips(g: Grid, i: int, j: int, d: Dir, len: int)
    ensures SameShips(g, SetCells(g, AcceptedRun(g, i, j, d, len), ValidPosition))
  {
    var ps := AcceptedRun(g, i, j, d, len);
    forall k | 0 <= k < |ps|
      ensures !ShipAtPos(g, ps[k])
    {
      assert ps[k] == Step(i, j, d, k + 1);
    }
    MarkKeepsShips(g, ps, ValidPosition);
  }

  /** A grid with the same Ship cells accepts the same directions, and painting its run keeps the Ship cells. */
  lemma PaintStep(g0: Grid, g: Grid, i: int, j: int, d: Dir, len: int)
    requires SameShips(g0, g)
    ensures IfAccepted(g, i, j, d, len) == IfAccepted(g0, i, j, d, len)
    ensures AcceptedRun(g, i, j, d, len) == AcceptedRun(g0, i, j, d, len)
    ensures SameShips(g0, SetCells(g, AcceptedRun(g, i, j, d, len), ValidPosition))
  {
    ClearRunSeesOnlyShips(g0, g, i, j, d, 1, len);
    AcceptedRunKeepsShips(g, i, j, d, len);
  }

  /** Painting the four runs one after another paints PaintedCells. */
  lemma PaintInOrder(g0: Grid, i: int, j: int, len: int)
    ensures var rd, ru := AcceptedRun(g0, i, j, Down, len), AcceptedRun(g0, i, j, Up, len);
      var rr, rl := AcceptedRun(g0, i, j, Right, len), AcceptedRun(g0, i, j, Left, len);
      SetCells(SetCells(SetCells(SetCells(g0, rd, ValidPosition), ru, ValidPosition), rr, ValidPosition), rl, ValidPosition)
      == SetCells(g0, PaintedCells(g0, i, j, len), ValidPosition)
  {
    var rd, ru := AcceptedRun(g0, i, j, Down, len), AcceptedRun(g0, i, j, Up, len);
    var rr, rl := AcceptedRun(g0, i, j, Right, len), AcceptedRun(g0, i, j, Left, len);
    SetCellsAppend(g0, rd, ru, ValidPosition);
    SetCellsAppend(g0, rd + ru, rr, ValidPosition);
    SetCellsAppend(g0, rd + ru + rr, rl, ValidPosition);
  }

  /** Painting D, U, R, L one after another, each judged on the grid the previous one left, paints what the unpainted grid accepts and keeps its Ship cells. */
  lemma PaintSequence(g0: Grid, g1: Grid, g2: Grid, g3: Grid, g4: Grid, i: int, j: int, len: int)
    requires g1 == SetCells(g0, AcceptedRun(g0, i, j, Down, len), ValidPosition)
    requires g2 == SetCells(g1, AcceptedRun(g1, i, j, Up, len), ValidPosition)
    requires g3 == SetCells(g2, AcceptedRun(g2, i, j, Right, len), ValidPosition)
    requires g4 == SetCells(g3, AcceptedRun(g3, i, j, Left, len), ValidPosition)
    ensures SameShips(g0, g1) && SameShips(g0, g2) && SameShips(g0, g3)
    ensures g4 == SetCells(g0, PaintedCells(g0, i, j, len), ValidPosition)
  {
    PaintStep(g0, g0, i, j, Down, len);
    PaintStep(g0, g1, i, j, Up, len);
    PaintStep(g0, g2, i, j, Right, len);
    PaintStep(g0, g3, i, j, Left, len);
    PaintInOrder(g0, i, j, len);
  }

  /** Grids with the same Ship cells accept the same directions. */
  lemma IfAcceptedSameShips(g: Grid, h: Grid, i: int, j: int, d: Dir, len: int)
    requires SameShips(g, h)
    ensures IfAccepted(g, i, j, d, len) == IfAccepted(h, i, j, d, len)
  {
    ClearRunSeesOnlyShips(g, h, i, j, d, 1, len);
  }

  /** Appending the directions accepted on grids with the same Ship cells appends AcceptedDirections of the first. */
  lemma ListSequence(g0: Grid, g1: Grid, g2: Grid, g3: Grid, i: int, j: int, len: int,
                     l0: seq<Dir>, l1: seq<Dir>, l2: seq<Dir>, l3: seq<Dir>, l4: seq<Dir>)
    requires SameShips(g0, g1) && SameShips(g0, g2) && SameShips(g0, g3)
    requires l1 == l0 + IfAccepted(g0, i, j, Down, len)
    requires l2 == l1 + IfAccepted(g1, i, j, Up, len)
    requires l3 == l2 + IfAccepted(g2, i, j, Right, len)
    requires l4 == l3 + IfAccepted(g3, i, j, Left, len)
    ensures l4 == l0 + AcceptedDirections(g0, i, j, len)
  {
    IfAcceptedSameShips(g0, g1, i, j, Up, len);
    IfAcceptedSameShips(g0, g2, i, j, Right, len);
    IfAcceptedSameShips(g0, g3, i, j, Left, len);
    var a, b := IfAccepted(g0, i, j, Down, len), IfAccepted(g0, i, j, Up, len);
    var c, e := IfAccepted(g0, i, j, Right, len), IfAccepted(g0, i, j, Left, len);
    assert l4 == l0 + a + b + c + e;
    assert l0 + a + b + c + e == l0 + (a + b + c + e);
  }
}
