/**
 * The DirectionBoard: a copy of a board on which every Empty cell reads
 * InvalidPosition, with the list of directions a ship may take from a
 * chosen origin. Each accepted direction's cells are painted
 * ValidPosition.
 */
module DirectionBoards {
  import opened Grids
  import opened Boards
  import opened Coordinates

  /** The direction letters, in the order D, U, R, L. */
  const DirectionLetters: seq<string> := ["D", "U", "R", "L"]

  /** "[" + the letters joined by ", " + "]" for 1 .. 4 entries, and "[None]" otherwise. */
  function DirectionsString(ds: seq<Dir>): string {
    if 1 <= |ds| <= 4 then "[" + Joined(ds) + "]" else "[None]"
  }

  /** The letters of ds separated by ", ". */
  function Joined(ds: seq<Dir>): string {
    if |ds| <= 1 then (if ds == [] then "" else Letter(ds[0]))
    else Joined(ds[..|ds| - 1]) + ", " + Letter(ds[|ds| - 1])
  }

  lemma {:induction false} JoinedLayout(ds: seq<Dir>)
    requires ds != []
    ensures |Joined(ds)| == 3 * |ds| - 2
    ensures forall k :: 0 <= k < |ds| ==> Joined(ds)[3 * k] == Letter(ds[k])[0]
    ensures forall k :: 0 <= k < |ds| - 1 ==> Joined(ds)[3 * k + 1] == ',' && Joined(ds)[3 * k + 2] == ' '
  {
    if |ds| > 1 {
      var init, last := ds[..|ds| - 1], ds[|ds| - 1];
      JoinedLayout(init);
      var a := Joined(init);
      assert Joined(ds) == a + ", " + Letter(last);
      forall k | 0 <= k < |ds|
        ensures Joined(ds)[3 * k] == Letter(ds[k])[0]
      {
        if k < |init| {
          assert init[k] == ds[k];
        }
      }
    }
  }

  /** The printed list has length 3n and names the k-th direction at index 3k + 1, between "[" and "]". */
  lemma DirectionsStringLayout(ds: seq<Dir>)
    requires 1 <= |ds| <= 4
    ensures var s := DirectionsString(ds);
      |s| == 3 * |ds| && s[0] == '[' && s[|s| - 1] == ']'
      && (forall k :: 0 <= k < |ds| ==> s[3 * k + 1] == Letter(ds[k])[0])
      && (forall k :: 0 <= k < |ds| - 1 ==> s[3 * k + 2] == ',' && s[3 * k + 3] == ' ')
  {
    JoinedLayout(ds);
    var s := DirectionsString(ds);
    assert s == "[" + Joined(ds) + "]";
    assert forall x :: 0 <= x < |Joined(ds)| ==> s[x + 1] == Joined(ds)[x];
  }

  /** ArrayList.contains on the letters of ds. */
  predicate ListContains(ds: seq<Dir>, s: string) {
    exists k :: 0 <= k < |ds| && Letter(ds[k]) == s
  }

  /** A string is in the list exactly when it names, as "D", "U", "R" or "L", a direction in the list. */
  lemma ListContainsMeaning(ds: seq<Dir>, s: string)
    ensures ListContains(ds, s) <==> DirOfLetter(s).Some? && DirOfLetter(s).value in ds
    ensures ListContains(ds, s) ==> s in DirectionLetters
  {
    if ListContains(ds, s) {
      var k :| 0 <= k < |ds| && Letter(ds[k]) == s;
      assert DirOfLetter(s) == Some(ds[k]);
    }
    if DirOfLetter(s).Some? && DirOfLetter(s).value in ds {
      var k :| 0 <= k < |ds| && ds[k] == DirOfLetter(s).value;
      assert Letter(ds[k]) == s;
    }
  }

  class DirectionBoard {
    const board: Board
    var possibleDirections: seq<Dir>

    ghost predicate Valid()
      reads this, board, board.cells
    {
      board.Valid()
    }

    /** A copy of oldBoard with Empty cells turned InvalidPosition, and no directions yet. */
    constructor (oldBoard: Board)
      requires oldBoard.Valid()
      ensures Valid() && fresh(board) && fresh(board.cells)
      ensures board.Contents() == DirectionGrid(oldBoard.Contents())
      ensures possibleDirections == []
    {
      board := new Board.Copy(oldBoard);
      possibleDirections := [];
      new;
      GenerateDirectionBoard();
    }

    /** Every Empty cell becomes InvalidPosition; every other cell is kept. */
    method GenerateDirectionBoard()
      requires Valid()
      modifies board.cells
      ensures Valid()
      ensures board.Contents() == DirectionGrid(old(board.Contents()))
    {
      ghost var g := board.Contents();
      var i := 0;
      while i < 10
        invariant 0 <= i <= 10
        invariant board.Valid()
        invariant forall x :: 0 <= x < 10 * i ==> board.cells[x] == DirectionGrid(g)[x]
        invariant forall x :: 10 * i <= x < 100 ==> board.cells[x] == g[x]
      {
        var j := 0;
        while j < 10
          invariant 0 <= j <= 10
          invariant board.Valid()
          invariant forall x :: 0 <= x < 10 * i + j ==> board.cells[x] == DirectionGrid(g)[x]
          invariant forall x :: 10 * i + j <= x < 100 ==> board.cells[x] == g[x]
        {
          if board.IsEmpty(i, j) {
            board.AddInvalidPosition(i, j);
          }
          j := j + 1;
        }
        i := i + 1;
      }
      assert board.cells[..] == DirectionGrid(g);
    }

    /** One direction of updateValidPositionDirections: its edge test, then the scan of offsets 1 .. shipLength-1. */
    method CheckDirection(i: int, j: int, d: Dir, shipLength: int)
      requires Valid()
      modifies this, board.cells
      ensures Valid()
      ensures possibleDirections == old(possibleDirections) + IfAccepted(old(board.Contents()), i, j, d, shipLength)
      ensures board.Contents() == SetCells(old(board.Contents()), AcceptedRun(old(board.Contents()), i, j, d, shipLength), ValidPosition)
    {
      ghost var g := board.Contents();
      if !Fits(i, j, d, shipLength) {
        return;
      }
      var k := 1;
      while k < shipLength
        invariant 1 <= k && (shipLength <= 1 || k < shipLength)
        invariant ClearRun(g, i, j, d, 1, k)
        invariant board.Valid() && board.Contents() == g
        invariant possibleDirections == old(possibleDirections)
      {
        var p := Step(i, j, d, k);
        if k == shipLength - 1 && !board.IsShip(p.i, p.j) {
          assert DirectionAccepted(g, i, j, d, shipLength);
          possibleDirections := possibleDirections + [d];
          for l := 1 to shipLength
            invariant board.Valid()
            invariant possibleDirections == old(possibleDirections) + [d]
            invariant board.Contents() == SetCells(g, RunCells(i, j, d, 1, l), ValidPosition)
          {
            var q := Step(i, j, d, l);
            board.AddValidPosition(q.i, q.j);
            RunCellsExtend(i, j, d, 1, l);
            SetCellsSnoc(g, RunCells(i, j, d, 1, l), q, ValidPosition);
          }
          return;
        } else if board.IsShip(p.i, p.j) {
          return;
        }
        k := k + 1;
      }
    }

    /**
     * Appends, in the order D, U, R, L, each direction whose run fits the
     * board and has no Ship at offsets 1 .. shipLength-1, and paints those
     * cells ValidPosition. The list is not cleared first.
     */
    method UpdateValidPositionDirections(i: int, j: int, shipLength: int)
      requires Valid()
      modifies this, board.cells
      ensures Valid()
      ensures possibleDirections == old(possibleDirections) + AcceptedDirections(old(board.Contents()), i, j, shipLength)
      ensures board.Contents() == SetCells(old(board.Contents()), PaintedCells(old(board.Contents()), i, j, shipLength), ValidPosition)
    {
      ghost var g0, p0 := board.Contents(), possibleDirections;
      CheckDirection(i, j, Down, shipLength);
      ghost var g1, p1 := board.Contents(), possibleDirections;
      CheckDirection(i, j, Up, shipLength);
      ghost var g2, p2 := board.Contents(), possibleDirections;
      CheckDirection(i, j, Right, shipLength);
      ghost var g3, p3 := board.Contents(), possibleDirections;
      CheckDirection(i, j, Left, shipLength);
      PaintSequence(g0, g1, g2, g3, board.Contents(), i, j, shipLength);
      ListSequence(g0, g1, g2, g3, i, j, shipLength, p0, p1, p2, p3, possibleDirections);
    }

    /** Case-insensitive membership of the string in {"D", "U", "R", "L"}. */
    method ValidDirection(direction: string) returns (r: bool)
      ensures r <==> UpperString(direction) in DirectionLetters
      ensures r <==> exists d: Dir :: Letter(d) == UpperString(direction)
    {
      var u := UpperString(direction);
      assert forall d: Dir :: Letter(d) in DirectionLetters;
      for k := 0 to |DirectionLetters|
        invariant forall t :: 0 <= t < k ==> DirectionLetters[t] != u
      {
        if DirectionLetters[k] == u {
          assert Letter([Down, Up, Right, Left][k]) == u;
          return true;
        }
      }
      return false;
    }

    /** Case-insensitive membership of the string in the list of possible directions. */
    function PossibleDirectionsContains(direction: string): (r: bool)
      reads this
      ensures r <==> ListContains(possibleDirections, UpperString(direction))
      ensures r ==> UpperString(direction) in DirectionLetters
    {
      ListContainsMeaning(possibleDirections, UpperString(direction));
      ListContains(possibleDirections, UpperString(direction))
    }

    /** The list as "[D, U]", or "[None]" unless it holds 1 .. 4 entries. */
    method GetPossibleDirectionsString() returns (r: string)
      ensures r == DirectionsString(possibleDirections)
    {
      r := "[None]";
      var n := |possibleDirections|;
      if 1 <= n && n <= 4 {
        r := "[";
        for i := 0 to n
          invariant i < n ==> r == if i == 0 then "[" else "[" + Joined(possibleDirections[..i]) + ", "
          invariant i == n ==> r == "[" + Joined(possibleDirections) + "]"
        {
          r := r + Letter(possibleDirections[i]);
          assert possibleDirections[..i + 1][..i] == possibleDirections[..i];
          if i < n - 1 {
            r := r + ", ";
          } else {
            r := r + "]";
            assert possibleDirections[..i + 1] == possibleDirections;
          }
        }
      }
    }

    /** The entry at index, or None outside 0 .. size-1. */
    function GetPossibleDirectionsElement(index: int): (r: Option<string>)
      reads this
      ensures r.None? <==> !(0 <= index < |possibleDirections|)
      ensures r.Some? ==> r.value in DirectionLetters && DirOfLetter(r.value) == Some(possibleDirections[index])
    {
      if 0 <= index < |possibleDirections| then Some(Letter(possibleDirections[index])) else None
    }
  }
}
