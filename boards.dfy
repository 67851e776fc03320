/**
 * The Board class: a 10x10 grid of int cell states with bounds-guarded
 * reads and writes, a deep copy, the placement validity check and ship
 * placement. The Java program's int[10][10] is held row-major in one array of
 * 100 cells.
 */
module Boards {
  import opened Grids

  /** The direction named by one of the strings "D", "U", "R", "L" (exact, case-sensitive match). */
  function DirOfLetter(direction: string): (r: Option<Dir>)
    ensures r.Some? ==> Letter(r.value) == direction
    ensures forall d: Dir :: Letter(d) == direction ==> r == Some(d)
  {
    if direction == "D" then Some(Down)
    else if direction == "U" then Some(Up)
    else if direction == "R" then Some(Right)
    else if direction == "L" then Some(Left)
    else None
  }

  /** The positions placeShipOnBoard returns: the run from the origin, or the origin followed by {0,0} entries for an unknown direction. */
  function PlacedPositions(i: int, j: int, direction: string, shipLength: nat): seq<Pos> {
    match DirOfLetter(direction)
    case Some(d) => RunCells(i, j, d, 0, shipLength)
    case None => if shipLength == 0 then [] else [Pos(i, j)] + seq(shipLength - 1, _ => Pos(0, 0))
  }

  /** The cells placeShipOnBoard marks as Ship. */
  function Footprint(i: int, j: int, direction: string, shipLength: nat): seq<Pos> {
    match DirOfLetter(direction)
    case Some(d) => RunCells(i, j, d, 0, shipLength)
    case None => [Pos(i, j)]
  }

  class Board {
    const cells: array<int>

    ghost predicate Valid()
      reads cells
    {
      cells.Length == 100 && forall x :: 0 <= x < 100 ==> IsState(cells[x])
    }

    /** The cells as a value. */
    ghost function Contents(): Grid
      reads cells
      requires Valid()
    {
      cells[..]
    }

    /** A new board with every cell Empty. */
    constructor ()
      ensures Valid() && fresh(cells)
      ensures Contents() == EmptyGrid()
    {
      cells := new int[100];
      new;
      var i := 0;
      while i < 10
        invariant 0 <= i <= 10
        invariant forall x :: 0 <= x < 10 * i ==> cells[x] == Empty
      {
        var j := 0;
        while j < 10
          invariant 0 <= j <= 10
          invariant forall x :: 0 <= x < 10 * i + j ==> cells[x] == Empty
        {
          cells[10 * i + j] := Empty;
          j := j + 1;
        }
        i := i + 1;
      }
    }

    /** A deep copy of oldBoard: a fresh array holding the same cells. */
    constructor Copy(oldBoard: Board)
      requires oldBoard.Valid()
      ensures Valid() && fresh(cells)
      ensures Contents() == oldBoard.Contents()
    {
      cells := new int[100];
      new;
      var i := 0;
      while i < 10
        invariant 0 <= i <= 10
        invariant forall x :: 0 <= x < 10 * i ==> cells[x] == oldBoard.cells[x]
      {
        var j := 0;
        while j < 10
          invariant 0 <= j <= 10
          invariant forall x :: 0 <= x < 10 * i + j ==> cells[x] == oldBoard.cells[x]
        {
          cells[10 * i + j] := oldBoard.GetPosition(i, j);
          j := j + 1;
        }
        i := i + 1;
      }
    }

    function ContainsPosition(i: int, j: int): (r: bool)
      ensures r <==> 0 <= i <= 9 && 0 <= j <= 9
      ensures r ==> 0 <= 10 * i + j < 100
    {
      0 <= i < 10 && 0 <= j < 10
    }

    /** Writes symbol at (i, j); a no-op outside the board. */
    method UpdatePosition(i: int, j: int, symbol: int)
      requires Valid() && IsState(symbol)
      modifies cells
      ensures Valid()
      ensures Contents() == SetCell(old(Contents()), i, j, symbol)
    {
      if !ContainsPosition(i, j) {
        return;
      }
      cells[10 * i + j] := symbol;
    }

    method AddEmpty(i: int, j: int)
      requires Valid()
      modifies cells
      ensures Valid() && Contents() == SetCell(old(Contents()), i, j, Empty)
    {
      UpdatePosition(i, j, Empty);
    }

    method AddShip(i: int, j: int)
      requires Valid()
      modifies cells
      ensures Valid() && Contents() == SetCell(old(Contents()), i, j, Ship)
    {
      UpdatePosition(i, j, Ship);
    }

    method AddHit(i: int, j: int)
      requires Valid()
      modifies cells
      ensures Valid() && Contents() == SetCell(old(Contents()), i, j, Hit)
    {
      UpdatePosition(i, j, Hit);
    }

    method AddMiss(i: int, j: int)
      requires Valid()
      modifies cells
      ensures Valid() && Contents() == SetCell(old(Contents()), i, j, Miss)
    {
      UpdatePosition(i, j, Miss);
    }

    method AddValidPosition(i: int, j: int)
      requires Valid()
      modifies cells
      ensures Valid() && Contents() == SetCell(old(Contents()), i, j, ValidPosition)
    {
      UpdatePosition(i, j, ValidPosition);
    }

    method AddInvalidPosition(i: int, j: int)
      requires Valid()
      modifies cells
      ensures Valid() && Contents() == SetCell(old(Contents()), i, j, InvalidPosition)
    {
      UpdatePosition(i, j, InvalidPosition);
    }

    /** The state at (i, j), or -1 outside the board. */
    function GetPosition(i: int, j: int): (r: int)
      reads cells
      requires Valid()
      ensures r == CellAt(Contents(), i, j)
      ensures r == -1 <==> !ContainsPosition(i, j)
      ensures r != -1 ==> IsState(r)
    {
      if !ContainsPosition(i, j) then -1 else cells[10 * i + j]
    }

    function IsEmpty(i: int, j: int): (r: bool)
      reads cells
      requires Valid()
      ensures r <==> ContainsPosition(i, j) && cells[10 * i + j] == Empty
      ensures r <==> CellAt(Contents(), i, j) == Empty
    {
      GetPosition(i, j) == Empty
    }

    function IsShip(i: int, j: int): (r: bool)
      reads cells
      requires Valid()
      ensures r <==> ContainsPosition(i, j) && cells[10 * i + j] == Ship
      ensures r <==> ShipAt(Contents(), i, j)
    {
      GetPosition(i, j) == Ship
    }

    function IsHit(i: int, j: int): (r: bool)
      reads cells
      requires Valid()
      ensures r <==> ContainsPosition(i, j) && cells[10 * i + j] == Hit
      ensures r <==> CellAt(Contents(), i, j) == Hit
    {
      GetPosition(i, j) == Hit
    }

    function IsMiss(i: int, j: int): (r: bool)
      reads cells
      requires Valid()
      ensures r <==> ContainsPosition(i, j) && cells[10 * i + j] == Miss
      ensures r <==> CellAt(Contents(), i, j) == Miss
    {
      GetPosition(i, j) == Miss
    }

    function IsValidPosition(i: int, j: int): (r: bool)
      reads cells
      requires Valid()
      ensures r <==> ContainsPosition(i, j) && cells[10 * i + j] == ValidPosition
      ensures r <==> CellAt(Contents(), i, j) == ValidPosition
    {
      GetPosition(i, j) == ValidPosition
    }

    function IsInvalidPosition(i: int, j: int): (r: bool)
      reads cells
      requires Valid()
      ensures r <==> ContainsPosition(i, j) && cells[10 * i + j] == InvalidPosition
      ensures r <==> CellAt(Contents(), i, j) == InvalidPosition
    {
      GetPosition(i, j) == InvalidPosition
    }

    /** A fresh board equal cell for cell to this one; writes to it cannot reach this board's array. */
    method GetBoardCopy() returns (copy: Board)
      requires Valid()
      ensures fresh(copy) && fresh(copy.cells) && copy.cells != cells
      ensures copy.Valid() && copy.Contents() == Contents()
    {
      copy := new Board.Copy(this);
    }

    /** One direction of checkPositionValidity: scans offsets 0 .. shipLength-1, stopping at the first Ship. */
    method CheckRun(i: int, j: int, d: Dir, shipLength: int) returns (free: bool)
      requires Valid()
      ensures free <==> 1 <= shipLength && ClearRun(Contents(), i, j, d, 0, shipLength)
    {
      var k := 0;
      while k < shipLength
        invariant 0 <= k && (shipLength <= 0 || k < shipLength)
        invariant ClearRun(Contents(), i, j, d, 0, k)
      {
        var p := Step(i, j, d, k);
        if k == shipLength - 1 && !IsShip(p.i, p.j) {
          return true;
        } else if IsShip(p.i, p.j) {
          return false;
        }
        k := k + 1;
      }
      return false;
    }

    /** True iff some direction D, U, R, L passes its edge test and its shipLength cells from (i, j), origin included, hold no Ship. */
    method CheckPositionValidity(i: int, j: int, shipLength: int) returns (r: bool)
      requires Valid()
      ensures r == PositionValid(Contents(), i, j, shipLength)
    {
      if i + shipLength <= 10 {
        r := CheckRun(i, j, Down, shipLength);
        if r {
          return;
        }
      }
      if i - shipLength >= -1 {
        r := CheckRun(i, j, Up, shipLength);
        if r {
          return;
        }
      }
      if j + shipLength <= 10 {
        r := CheckRun(i, j, Right, shipLength);
        if r {
          return;
        }
      }
      if j - shipLength >= -1 {
        r := CheckRun(i, j, Left, shipLength);
        if r {
          return;
        }
      }
      return false;
    }

    /** The switch arm of placeShipOnBoard for direction d: the cells after the origin are marked Ship and recorded in turn. */
    method MarkRun(i: int, j: int, d: Dir, shipPositions: array<Pos>, ghost g: Grid)
      requires Valid() && 1 <= shipPositions.Length
      requires shipPositions[..1] == RunCells(i, j, d, 0, 1) && Contents() == SetCells(g, RunCells(i, j, d, 0, 1), Ship)
      modifies cells, shipPositions
      ensures Valid()
      ensures shipPositions[..] == RunCells(i, j, d, 0, shipPositions.Length)
      ensures Contents() == SetCells(g, RunCells(i, j, d, 0, shipPositions.Length), Ship)
    {
      for k := 1 to shipPositions.Length
        invariant Valid()
        invariant shipPositions[..k] == RunCells(i, j, d, 0, k)
        invariant Contents() == SetCells(g, RunCells(i, j, d, 0, k), Ship)
      {
        var p := Step(i, j, d, k);
        AddShip(p.i, p.j);
        shipPositions[k] := p;
        RunCellsExtend(i, j, d, 0, k);
        SetCellsSnoc(g, RunCells(i, j, d, 0, k), p, Ship);
        assert shipPositions[..k + 1] == shipPositions[..k] + [p];
      }
      assert shipPositions[..] == shipPositions[..shipPositions.Length];
    }

    /**
     * Marks the ship's cells from (i, j) in the given direction as Ship and
     * returns its positions. Cells off the board are recorded but not
     * written; an unknown direction places the origin only.
     */
    method PlaceShipOnBoard(i: int, j: int, direction: string, shipLength: int) returns (shipPositions: array<Pos>)
      requires Valid() && shipLength >= 1
      modifies cells
      ensures Valid() && fresh(shipPositions)
      ensures shipPositions[..] == PlacedPositions(i, j, direction, shipLength)
      ensures Contents() == SetCells(old(Contents()), Footprint(i, j, direction, shipLength), Ship)
    {
      AddShip(i, j);
      assert Contents() == SetCells(old(Contents()), [Pos(i, j)], Ship);
      shipPositions := new Pos[shipLength](_ => Pos(0, 0));
      shipPositions[0] := Pos(i, j);
      var dir := DirOfLetter(direction);
      if dir.Some? {
        var d := dir.value;
        assert RunCells(i, j, d, 0, 1) == [Pos(i, j)];
        MarkRun(i, j, d, shipPositions, old(Contents()));
      } else {
        assert shipPositions[..] == [Pos(i, j)] + seq(shipLength - 1, _ => Pos(0, 0));
      }
    }
  }
}
