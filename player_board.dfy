/**
 * The player's own board: the main board, a position board marking every
 * cell ValidPosition or InvalidPosition for the ship being placed, a
 * direction board, and the five ships. The player's typed lines are
 * parameters: each is accepted or rejected, and the next one is taken
 * after a rejection.
 */
module PlayerBoards {
  import opened Grids
  import opened Boards
  import opened Coordinates
  import opened DirectionBoards
  import opened Fleets
  import Ships

  /** The position board after the sweep: Ship cells stay Ship, every other cell is ValidPosition iff checkPositionValidity holds there. */
  function SweepGrid(g: Grid, shipLength: int): Grid {
    seq(100, x requires 0 <= x < 100 =>
      if g[x] == Grids.Ship then Grids.Ship
      else if PositionValid(g, x / 10, x % 10, shipLength) then ValidPosition
      else InvalidPosition)
  }

  /** A cell of the swept board reads ValidPosition exactly when a ship of that length can start there. */
  lemma SweepMeaning(g: Grid, shipLength: int, i: int, j: int)
    requires InBounds(i, j)
    ensures CellAt(SweepGrid(g, shipLength), i, j) == ValidPosition <==> PositionValid(g, i, j, shipLength)
    ensures ShipAt(SweepGrid(g, shipLength), i, j) <==> ShipAt(g, i, j)
    ensures !ShipAt(g, i, j) && !PositionValid(g, i, j, shipLength) ==> CellAt(SweepGrid(g, shipLength), i, j) == InvalidPosition
  {
    var x := 10 * i + j;
    assert x / 10 == i && x % 10 == j;
    ShipOriginInvalid(g, i, j, shipLength);
  }

  /** getPlayerPosition's rule for one typed line: it parses, and its cell on the position board g is ValidPosition. */
  predicate PositionAccepted(g: Grid, s: string) {
    ParsePosition(s) != Pos(-1, -1) && CellAt(g, ParsePosition(s).i, ParsePosition(s).j) == ValidPosition
  }

  /** getPlayerDirection's rule for one typed line: in either case, it is the letter of a direction in the list ds. */
  predicate DirectionChosen(ds: seq<Dir>, s: string) {
    DirOfLetter(UpperString(s)).Some? && DirOfLetter(UpperString(s)).value in ds
  }

  /**
   * Ship k starts at the position typed on line posAt[k] and heads in the
   * direction typed on line dirAt[k]; the lines are taken in increasing order.
   */
  predicate TypedLayout(origins: seq<Pos>, headings: seq<Dir>, posAt: seq<nat>, dirAt: seq<nat>,
                        positionInputs: seq<string>, directionInputs: seq<string>) {
    |origins| == |posAt| && |headings| == |dirAt| && |posAt| == |dirAt|
    && (forall k :: 0 <= k < |posAt| ==> posAt[k] < |positionInputs| && origins[k] == ParsePosition(positionInputs[posAt[k]]))
    && (forall k :: 0 <= k < |dirAt| ==> dirAt[k] < |directionInputs| && Letter(headings[k]) == UpperString(directionInputs[dirAt[k]]))
    && (forall k, l :: 0 <= k < l < |posAt| ==> posAt[k] < posAt[l])
    && (forall k, l :: 0 <= k < l < |dirAt| ==> dirAt[k] < dirAt[l])
  }

  /** A ship placed from lines past every line used so far extends the typed layout. */
  lemma {:induction false} TypedLayoutStep(origins: seq<Pos>, headings: seq<Dir>, posAt: seq<nat>, dirAt: seq<nat>,
                                           positionInputs: seq<string>, directionInputs: seq<string>,
                                           o: Pos, h: Dir, p: nat, q: nat)
    requires TypedLayout(origins, headings, posAt, dirAt, positionInputs, directionInputs)
    requires Start(posAt, |posAt|) <= p && Start(dirAt, |dirAt|) <= q
    requires p < |positionInputs| && o == ParsePosition(positionInputs[p])
    requires q < |directionInputs| && Letter(h) == UpperString(directionInputs[q])
    ensures TypedLayout(origins + [o], headings + [h], posAt + [p], dirAt + [q], positionInputs, directionInputs)
  {
    var ps, qs := posAt + [p], dirAt + [q];
    forall k, l | 0 <= k < l < |ps|
      ensures ps[k] < ps[l]
    {
      if l < |posAt| { assert ps[k] == posAt[k] && ps[l] == posAt[l]; } else { assert ps[k] == posAt[k] <= posAt[|posAt| - 1] < p; }
    }
    forall k, l | 0 <= k < l < |qs|
      ensures qs[k] < qs[l]
    {
      if l < |dirAt| { assert qs[k] == dirAt[k] && qs[l] == dirAt[l]; } else { assert qs[k] == dirAt[k] <= dirAt[|dirAt| - 1] < q; }
    }
    forall k | 0 <= k < |ps|
      ensures ps[k] < |positionInputs| && (origins + [o])[k] == ParsePosition(positionInputs[ps[k]])
    {
      if k < |posAt| { assert ps[k] == posAt[k]; }
    }
    forall k | 0 <= k < |qs|
      ensures qs[k] < |directionInputs| && Letter((headings + [h])[k]) == UpperString(directionInputs[qs[k]])
    {
      if k < |dirAt| { assert qs[k] == dirAt[k]; }
    }
  }

  /** The directions offered for a ship of the given length from origin o on the main board g: o marked Ship on g's direction board, then the accepted ones. */
  function OfferedDirections(g: Grid, o: Pos, shipLength: int): seq<Dir> {
    AcceptedDirections(SetCell(DirectionGrid(g), o.i, o.j, Grids.Ship), o.i, o.j, shipLength)
  }

  /** No typed line from index from up to upto is an accepted position on main board g swept for a ship of the given length. */
  ghost predicate PositionLinesRejected(g: Grid, shipLength: int, inputs: seq<string>, from: nat, upto: int) {
    upto <= |inputs| && forall t :: from <= t < upto ==> !PositionAccepted(SweepGrid(g, shipLength), inputs[t])
  }

  /** No typed line from index from up to upto names a direction offered from origin o on main board g. */
  ghost predicate DirectionLinesRejected(g: Grid, o: Pos, shipLength: int, inputs: seq<string>, from: nat, upto: int) {
    upto <= |inputs| && forall t :: from <= t < upto ==> !DirectionChosen(OfferedDirections(g, o, shipLength), inputs[t])
  }

  /**
   * Choosing a ship on main board g from lines pc and dc on fails only
   * when the lines run out: no position line from pc on is accepted, or
   * the first accepted one is followed by no direction line, from dc on,
   * naming a direction offered from it.
   */
  ghost predicate ChoiceFails(g: Grid, shipLength: int, positionInputs: seq<string>, pc: nat, directionInputs: seq<string>, dc: nat) {
    PositionLinesRejected(g, shipLength, positionInputs, pc, |positionInputs|)
    || exists q :: pc <= q < |positionInputs| && PositionLinesRejected(g, shipLength, positionInputs, pc, q)
         && PositionAccepted(SweepGrid(g, shipLength), positionInputs[q])
         && DirectionLinesRejected(g, ParsePosition(positionInputs[q]), shipLength, directionInputs, dc, |directionInputs|)
  }

  /** An accepted position line q followed by no acceptable direction line makes the choice fail. */
  lemma DirectionsRunOut(g: Grid, shipLength: int, positionInputs: seq<string>, pc: nat, q: nat, directionInputs: seq<string>, dc: nat)
    requires pc <= q < |positionInputs| && PositionLinesRejected(g, shipLength, positionInputs, pc, q)
    requires PositionAccepted(SweepGrid(g, shipLength), positionInputs[q])
    requires DirectionLinesRejected(g, ParsePosition(positionInputs[q]), shipLength, directionInputs, dc, |directionInputs|)
    ensures ChoiceFails(g, shipLength, positionInputs, pc, directionInputs, dc)
  {
  }

  /**
   * Ship k's lines posAt[k] and dirAt[k] are the first accepted ones after
   * ship k - 1's, judged on the board as ship k found it.
   */
  ghost predicate FirstAcceptedLines(g0: Grid, placed: seq<seq<Pos>>, origins: seq<Pos>, posAt: seq<nat>, dirAt: seq<nat>,
                                     positionInputs: seq<string>, directionInputs: seq<string>) {
    |placed| == 5 && |origins| == |posAt| == |dirAt| <= 5
    && forall k :: 0 <= k < |posAt| ==>
         Start(posAt, k) <= posAt[k] && Start(dirAt, k) <= dirAt[k]
         && PositionLinesRejected(BoardBefore(g0, placed, k), FleetLengths[k], positionInputs, Start(posAt, k), posAt[k])
         && DirectionLinesRejected(BoardBefore(g0, placed, k), origins[k], FleetLengths[k], directionInputs, Start(dirAt, k), dirAt[k])
  }

  /** Ship n placed from the first accepted lines after the last ones taken extends the first-accepted record. */
  lemma {:induction false} FirstAcceptedLinesStep(g0: Grid, before: seq<seq<Pos>>, after: seq<seq<Pos>>, origins: seq<Pos>,
                                                  posAt: seq<nat>, dirAt: seq<nat>, positionInputs: seq<string>, directionInputs: seq<string>,
                                                  o: Pos, p: nat, q: nat)
    requires FirstAcceptedLines(g0, before, origins, posAt, dirAt, positionInputs, directionInputs) && |posAt| < 5
    requires |after| == 5 && after == before[|posAt| := after[|posAt|]]
    requires Start(posAt, |posAt|) <= p && Start(dirAt, |dirAt|) <= q
    requires PositionLinesRejected(BoardBefore(g0, before, |posAt|), FleetLengths[|posAt|], positionInputs, Start(posAt, |posAt|), p)
    requires DirectionLinesRejected(BoardBefore(g0, before, |posAt|), o, FleetLengths[|posAt|], directionInputs, Start(dirAt, |dirAt|), q)
    ensures FirstAcceptedLines(g0, after, origins + [o], posAt + [p], dirAt + [q], positionInputs, directionInputs)
  {
    var n := |posAt|;
    BoardBeforeStep(g0, before, after, n);
    var ps, qs, os := posAt + [p], dirAt + [q], origins + [o];
    forall k | 0 <= k < |ps|
      ensures Start(ps, k) <= ps[k] && Start(qs, k) <= qs[k]
      ensures PositionLinesRejected(BoardBefore(g0, after, k), FleetLengths[k], positionInputs, Start(ps, k), ps[k])
      ensures DirectionLinesRejected(BoardBefore(g0, after, k), os[k], FleetLengths[k], directionInputs, Start(qs, k), qs[k])
    {
      assert Start(ps, k) == Start(posAt, k) && Start(qs, k) == Start(dirAt, k);
      if k < n {
        assert ps[k] == posAt[k] && qs[k] == dirAt[k] && os[k] == origins[k];
      }
    }
  }

  /**
   * The first n ships are laid out from the typed lines: on runs from
   * their origins in their headings, typed on lines posAt and dirAt, the
   * first accepted ones, and covering the cells flat, which were distinct,
   * on the board and free on g0.
   */
  ghost predicate TypedSoFar(g0: Grid, flat: seq<Pos>, placed: seq<seq<Pos>>, origins: seq<Pos>, headings: seq<Dir>,
                             posAt: seq<nat>, dirAt: seq<nat>, positionInputs: seq<string>, directionInputs: seq<string>, n: nat) {
    Runs(placed, origins, headings, n) && |posAt| == n
    && TypedLayout(origins, headings, posAt, dirAt, positionInputs, directionInputs)
    && FirstAcceptedLines(g0, placed, origins, posAt, dirAt, positionInputs, directionInputs)
    && flat == Flatten(placed[..n]) && |flat| == CellsBefore[n] && FreshCells(g0, flat)
  }

  /** One more ship, placed on a free run from the first accepted lines after the last ones taken, extends the layout. */
  lemma TypedShipStep(g0: Grid, flat: seq<Pos>, before: seq<seq<Pos>>, after: seq<seq<Pos>>, origins: seq<Pos>, headings: seq<Dir>,
                      posAt: seq<nat>, dirAt: seq<nat>, positionInputs: seq<string>, directionInputs: seq<string>,
                      o: Pos, d: Dir, p: nat, q: nat)
    requires TypedSoFar(g0, flat, before, origins, headings, posAt, dirAt, positionInputs, directionInputs, |posAt|) && |posAt| < 5
    requires |after| == 5 && after == before[|posAt| := after[|posAt|]]
    requires RunOf(after[|posAt|], o, d, FleetLengths[|posAt|]) && FreshCells(SetCells(g0, flat, Grids.Ship), after[|posAt|])
    requires Start(posAt, |posAt|) <= p < |positionInputs| && o == ParsePosition(positionInputs[p])
    requires Start(dirAt, |dirAt|) <= q < |directionInputs| && Letter(d) == UpperString(directionInputs[q])
    requires PositionLinesRejected(SetCells(g0, flat, Grids.Ship), FleetLengths[|posAt|], positionInputs, Start(posAt, |posAt|), p)
    requires DirectionLinesRejected(SetCells(g0, flat, Grids.Ship), o, FleetLengths[|posAt|], directionInputs, Start(dirAt, |dirAt|), q)
    ensures TypedSoFar(g0, flat + after[|posAt|], after, origins + [o], headings + [d], posAt + [p], dirAt + [q],
                       positionInputs, directionInputs, |posAt| + 1)
    ensures SetCells(SetCells(g0, flat, Grids.Ship), after[|posAt|], Grids.Ship) == SetCells(g0, flat + after[|posAt|], Grids.Ship)
  {
    var n := |posAt|;
    assert |after[n]| == FleetLengths[n];
    TypedLayoutStep(origins, headings, posAt, dirAt, positionInputs, directionInputs, o, d, p, q);
    FirstAcceptedLinesStep(g0, before, after, origins, posAt, dirAt, positionInputs, directionInputs, o, p, q);
    FleetStep(g0, flat, before, after, n);
    RunsStep(before, after, origins, headings, n, o, d);
  }

  /** One cell of the sweep, judged on the board as it stands, which has the same Ship cells as g. */
  method SweepCell(positionBoard: Board, ghost g: Grid, i: int, j: int, shipLength: int)
    requires positionBoard.Valid() && InBounds(i, j) && SameShips(g, positionBoard.Contents())
    modifies positionBoard.cells
    ensures positionBoard.Valid()
    ensures positionBoard.Contents() == old(positionBoard.Contents())[10 * i + j := SweepGrid(g, shipLength)[10 * i + j]]
  {
    ChecksSeeOnlyShips(g, positionBoard.Contents(), i, j, shipLength);
    SweepMeaning(g, shipLength, i, j);
    var valid := positionBoard.CheckPositionValidity(i, j, shipLength);
    if valid {
      positionBoard.AddValidPosition(i, j);
    } else {
      if !positionBoard.IsShip(i, j) {
        positionBoard.AddInvalidPosition(i, j);
      }
    }
  }

  /**
   * The nested loop of generatePlayerBoard over the position board: a cell
   * where checkPositionValidity holds becomes ValidPosition, any other cell
   * that is not a Ship becomes InvalidPosition. The marks written along
   * the way never change a later verdict.
   */
  method SweepPositionBoard(positionBoard: Board, shipLength: int)
    requires positionBoard.Valid()
    modifies positionBoard.cells
    ensures positionBoard.Valid()
    ensures positionBoard.Contents() == SweepGrid(old(positionBoard.Contents()), shipLength)
  {
    ghost var g := positionBoard.Contents();
    ghost var s := SweepGrid(g, shipLength);
    var i := 0;
    while i < 10
      invariant 0 <= i <= 10
      invariant positionBoard.Valid()
      invariant forall x :: 0 <= x < 10 * i ==> positionBoard.cells[x] == s[x]
      invariant forall x :: 10 * i <= x < 100 ==> positionBoard.cells[x] == g[x]
    {
      var j := 0;
      while j < 10
        invariant 0 <= j <= 10
        invariant positionBoard.Valid()
        invariant forall x :: 0 <= x < 10 * i + j ==> positionBoard.cells[x] == s[x]
        invariant forall x :: 10 * i + j <= x < 100 ==> positionBoard.cells[x] == g[x]
      {
        SweepCell(positionBoard, g, i, j, shipLength);
        j := j + 1;
      }
      i := i + 1;
    }
    assert positionBoard.cells[..] == s;
  }

  class PlayerBoard {
    const board: Board
    var positionBoard: Board
    var directionBoard: DirectionBoard
    const ships: seq<Ships.Ship>
    /** The positions each ship was given, and the moves forwarded since. */
    ghost var placed: seq<seq<Pos>>
    ghost var moves: seq<Pos>

    ghost predicate Valid()
      reads this, board, board.cells, positionBoard, positionBoard.cells
      reads directionBoard, directionBoard.board, directionBoard.board.cells, ships, Footprints(ships)
    {
      board.Valid() && positionBoard.Valid() && directionBoard.Valid()
      && positionBoard.cells != board.cells
      && directionBoard.board.cells != board.cells
      && directionBoard.board.cells != positionBoard.cells
      && FleetValid(ships)
      && |placed| == 5
      && (forall k :: 0 <= k < 5 ==> ships[k].positions[..] == Ships.HitAll(placed[k], moves))
    }

    /** An empty board, its position and direction boards, and the standard fleet with every position (0, 0). */
    constructor ()
      ensures Valid() && fresh(board) && fresh(board.cells)
      ensures board.Contents() == EmptyGrid() && positionBoard.Contents() == EmptyGrid()
      ensures directionBoard.board.Contents() == DirectionGrid(EmptyGrid()) && directionBoard.possibleDirections == []
      ensures forall k :: 0 <= k < 5 ==> fresh(ships[k]) && fresh(ships[k].positions)
      ensures forall k :: 0 <= k < 5 ==> ships[k].positions[..] == seq(FleetLengths[k], _ => Pos(0, 0))
    {
      var b := new Board();
      board := b;
      positionBoard := new Board.Copy(b);
      directionBoard := new DirectionBoard(b);
      var fleet := NewFleet();
      ships := fleet;
      placed := seq(5, k requires 0 <= k < 5 => seq(FleetLengths[k], _ => Pos(0, 0)));
      moves := [];
    }

    /** A new position board copied from the current main board. */
    method ResetPositionBoard()
      requires Valid()
      modifies this
      ensures Valid() && fresh(positionBoard) && fresh(positionBoard.cells)
      ensures positionBoard.Contents() == board.Contents()
      ensures directionBoard == old(directionBoard) && placed == old(placed) && moves == old(moves)
    {
      positionBoard := new Board.Copy(board);
    }

    /** A new direction board built from the current main board. */
    method ResetDirectionBoard()
      requires Valid()
      modifies this
      ensures Valid() && fresh(directionBoard) && fresh(directionBoard.board.cells)
      ensures directionBoard.board.Contents() == DirectionGrid(board.Contents())
      ensures directionBoard.possibleDirections == []
      ensures positionBoard == old(positionBoard) && placed == old(placed) && moves == old(moves)
    {
      directionBoard := new DirectionBoard(board);
    }

    /**
     * The acceptance rule of getPlayerPosition for one typed line: it must
     * parse, and its position board cell must be ValidPosition (Ship and
     * InvalidPosition cells are rejected).
     */
    method AcceptPosition(input: string) returns (r: Option<Pos>)
      requires Valid()
      ensures r.Some? <==> PositionAccepted(positionBoard.Contents(), input)
      ensures r.Some? ==> r.value == ParsePosition(input) && InBoundsPos(r.value)
    {
      var p := PositionStringToIndices(input);
      if p.i != -1 && p.j != -1 {
        if positionBoard.IsShip(p.i, p.j) {
          return None;
        } else if positionBoard.IsInvalidPosition(p.i, p.j) {
          return None;
        } else if positionBoard.IsValidPosition(p.i, p.j) {
          return Some(p);
        }
      }
      return None;
    }

    /** The acceptance rule of getPlayerDirection for one typed line: it must be in the list, case-insensitively; it is returned upper-cased. */
    function AcceptDirection(input: string): (r: Option<string>)
      reads this, directionBoard
      ensures r.Some? <==> DirectionChosen(directionBoard.possibleDirections, input)
      ensures r.Some? ==> r.value == UpperString(input) && r.value in DirectionLetters
    {
      ListContainsMeaning(directionBoard.possibleDirections, UpperString(input));
      if directionBoard.PossibleDirectionsContains(input) then Some(UpperString(input)) else None
    }

    /** Takes typed lines from cursor on until one is an accepted position: the first accepted line, parsed. */
    method ReadPosition(inputs: seq<string>, cursor: nat) returns (found: bool, p: Pos, next: nat, ghost line: nat)
      requires Valid() && cursor <= |inputs|
      ensures cursor <= next <= |inputs|
      ensures found ==> cursor <= line && next == line + 1 && p == ParsePosition(inputs[line]) && PositionAccepted(positionBoard.Contents(), inputs[line])
      ensures found ==> InBoundsPos(p) && CellAt(positionBoard.Contents(), p.i, p.j) == ValidPosition
      ensures forall k :: cursor <= k < (if found then line else next) ==> !PositionAccepted(positionBoard.Contents(), inputs[k])
      ensures !found ==> next == |inputs|
    {
      next := cursor;
      while next < |inputs|
        invariant cursor <= next <= |inputs|
        invariant forall k :: cursor <= k < next ==> !PositionAccepted(positionBoard.Contents(), inputs[k])
      {
        var r := AcceptPosition(inputs[next]);
        next := next + 1;
        if r.Some? {
          return true, r.value, next, next - 1;
        }
      }
      return false, Pos(0, 0), next, 0;
    }

    /** Takes typed lines from cursor on until one is an accepted direction: the first accepted line, upper-cased. */
    method ReadDirection(inputs: seq<string>, cursor: nat) returns (found: bool, direction: string, next: nat, ghost line: nat)
      requires Valid() && cursor <= |inputs|
      ensures cursor <= next <= |inputs|
      ensures found ==> cursor <= line && next == line + 1 && direction == UpperString(inputs[line]) && DirectionChosen(directionBoard.possibleDirections, inputs[line])
      ensures found ==> DirOfLetter(direction).Some? && DirOfLetter(direction).value in directionBoard.possibleDirections
      ensures forall k :: cursor <= k < (if found then line else next) ==> !DirectionChosen(directionBoard.possibleDirections, inputs[k])
      ensures !found ==> next == |inputs|
    {
      next := cursor;
      while next < |inputs|
        invariant cursor <= next <= |inputs|
        invariant forall k :: cursor <= k < next ==> !DirectionChosen(directionBoard.possibleDirections, inputs[k])
      {
        var r := AcceptDirection(inputs[next]);
        next := next + 1;
        if r.Some? {
          return true, r.value, next, next - 1;
        }
      }
      return false, "", next, 0;
    }

    /**
     * The position half of one iteration of generatePlayerBoard: the sweep
     * of the freshly reset position board, the first accepted typed
     * position, marked Ship on the position board.
     */
    method SelectOrigin(shipLength: int, inputs: seq<string>, cursor: nat) returns (found: bool, p: Pos, next: nat, ghost line: nat)
      requires Valid() && cursor <= |inputs| && positionBoard.Contents() == board.Contents()
      modifies positionBoard.cells
      ensures Valid()
      ensures cursor <= next <= |inputs|
      ensures !found ==> next == |inputs|
      ensures found ==> InBoundsPos(p) && PositionValid(board.Contents(), p.i, p.j, shipLength)
      ensures found ==> positionBoard.Contents() == SetCell(SweepGrid(board.Contents(), shipLength), p.i, p.j, Grids.Ship)
      ensures found ==> cursor <= line && next == line + 1 && p == ParsePosition(inputs[line]) && PositionAccepted(SweepGrid(board.Contents(), shipLength), inputs[line])
      ensures PositionLinesRejected(board.Contents(), shipLength, inputs, cursor, if found then line else next)
    {
      SweepPositionBoard(positionBoard, shipLength);
      found, p, next, line := ReadPosition(inputs, cursor);
      if found {
        SweepMeaning(board.Contents(), shipLength, p.i, p.j);
        positionBoard.AddShip(p.i, p.j);
      }
    }

    /**
     * The direction half of one iteration of generatePlayerBoard: the
     * origin marked Ship on the freshly reset direction board, its list of
     * directions, and the first accepted typed direction.
     */
    method SelectDirection(p: Pos, shipLength: int, inputs: seq<string>, cursor: nat)
      returns (found: bool, direction: string, next: nat, ghost d: Dir, ghost line: nat)
      requires Valid() && cursor <= |inputs|
      requires directionBoard.board.Contents() == DirectionGrid(board.Contents()) && directionBoard.possibleDirections == []
      modifies directionBoard, directionBoard.board.cells
      ensures Valid()
      ensures cursor <= next <= |inputs|
      ensures !found ==> next == |inputs|
      ensures directionBoard.possibleDirections == OfferedDirections(board.Contents(), p, shipLength)
      ensures found ==> DirOfLetter(direction) == Some(d)
      ensures found ==> DirectionAccepted(SetCell(DirectionGrid(board.Contents()), p.i, p.j, Grids.Ship), p.i, p.j, d, shipLength)
      ensures found ==> cursor <= line && next == line + 1 && direction == UpperString(inputs[line])
      ensures DirectionLinesRejected(board.Contents(), p, shipLength, inputs, cursor, if found then line else next)
    {
      directionBoard.board.AddShip(p.i, p.j);
      ghost var h := directionBoard.board.Contents();
      directionBoard.UpdateValidPositionDirections(p.i, p.j, shipLength);
      AcceptedDirectionsShape(h, p.i, p.j, shipLength);
      found, direction, next, line := ReadDirection(inputs, cursor);
      d := if found then DirOfLetter(direction).value else Down;
    }

    /**
     * placeShipOnBoard on the main board for an origin and direction whose
     * run is free, then addPositions on ship n.
     */
    method PlaceAndRecord(n: nat, i: int, j: int, direction: string, ghost d: Dir)
      requires Valid() && moves == [] && n < 5 && DirOfLetter(direction) == Some(d)
      requires forall k :: 0 <= k < FleetLengths[n] ==> InBoundsPos(Step(i, j, d, k)) && !ShipAtPos(board.Contents(), Step(i, j, d, k))
      requires Distinct(RunCells(i, j, d, 0, FleetLengths[n]))
      modifies this, board.cells, ships[n].positions
      ensures Valid() && moves == []
      ensures placed == old(placed)[n := RunCells(i, j, d, 0, FleetLengths[n])]
      ensures FreshCells(old(board.Contents()), placed[n])
      ensures board.Contents() == SetCells(old(board.Contents()), placed[n], Grids.Ship)
    {
      var shipPositions := board.PlaceShipOnBoard(i, j, direction, ships[n].length);
      ships[n].AddPositions(shipPositions);
      placed := placed[n := RunCells(i, j, d, 0, FleetLengths[n])];
    }

    /**
     * The choosing half of one iteration of generatePlayerBoard for ship
     * n: both helper boards reset, then the first accepted typed position
     * and the first accepted typed direction. The main board is untouched.
     */
    method ChooseShip(n: nat, positionInputs: seq<string>, pc: nat, directionInputs: seq<string>, dc: nat)
      returns (ok: bool, nextPc: nat, nextDc: nat, p: Pos, direction: string, ghost d: Dir, ghost posLine: nat, ghost dirLine: nat)
      requires Valid() && n < 5 && pc <= |positionInputs| && dc <= |directionInputs|
      modifies this
      ensures Valid() && placed == old(placed) && moves == old(moves) && board.Contents() == old(board.Contents())
      ensures pc <= nextPc <= |positionInputs| && dc <= nextDc <= |directionInputs|
      ensures ok ==> InBoundsPos(p) && PositionValid(board.Contents(), p.i, p.j, FleetLengths[n])
      ensures ok ==> DirOfLetter(direction) == Some(d)
      ensures ok ==> DirectionAccepted(SetCell(DirectionGrid(board.Contents()), p.i, p.j, Grids.Ship), p.i, p.j, d, FleetLengths[n])
      ensures ok ==> pc <= posLine && nextPc == posLine + 1 && p == ParsePosition(positionInputs[posLine])
      ensures ok ==> dc <= dirLine && nextDc == dirLine + 1 && direction == UpperString(directionInputs[dirLine])
      ensures ok ==> PositionLinesRejected(board.Contents(), FleetLengths[n], positionInputs, pc, posLine)
      ensures ok ==> DirectionLinesRejected(board.Contents(), p, FleetLengths[n], directionInputs, dc, dirLine)
      ensures !ok ==> nextPc == |positionInputs| || nextDc == |directionInputs|
      ensures !ok ==> ChoiceFails(board.Contents(), FleetLengths[n], positionInputs, pc, directionInputs, dc)
    {
      nextDc, direction, d, dirLine := dc, "", Down, 0;
      ResetPositionBoard();
      ResetDirectionBoard();
      var found;
      found, p, nextPc, posLine := SelectOrigin(ships[n].length, positionInputs, pc);
      if !found {
        return false, nextPc, nextDc, p, direction, d, posLine, dirLine;
      }
      ok, direction, nextDc, d, dirLine := SelectDirection(p, ships[n].length, directionInputs, dc);
      if !ok {
        DirectionsRunOut(board.Contents(), FleetLengths[n], positionInputs, pc, posLine, directionInputs, dc);
      }
    }

    /**
     * One iteration of generatePlayerBoard for ship n: an accepted position,
     * an accepted direction, then placement on the main board and in the
     * ship. The origin and heading are those typed on lines posLine and
     * dirLine, the first lines accepted from the cursors on.
     */
    method PlacePlayerShip(n: nat, positionInputs: seq<string>, pc: nat, directionInputs: seq<string>, dc: nat)
      returns (ok: bool, nextPc: nat, nextDc: nat, ghost origin: Pos, ghost heading: Dir, ghost posLine: nat, ghost dirLine: nat)
      requires Valid() && moves == [] && n < 5 && pc <= |positionInputs| && dc <= |directionInputs|
      modifies this, board.cells, ships[n].positions
      ensures Valid() && moves == [] && pc <= nextPc <= |positionInputs| && dc <= nextDc <= |directionInputs|
      ensures !ok ==> placed == old(placed) && board.Contents() == old(board.Contents())
      ensures ok ==> placed == old(placed)[n := placed[n]]
      ensures ok ==> InBoundsPos(origin) && PositionValid(old(board.Contents()), origin.i, origin.j, FleetLengths[n])
      ensures ok ==> RunOf(placed[n], origin, heading, FleetLengths[n])
      ensures ok ==> FreshCells(old(board.Contents()), placed[n])
      ensures ok ==> board.Contents() == SetCells(old(board.Contents()), placed[n], Grids.Ship)
      ensures ok ==> pc <= posLine && nextPc == posLine + 1 && origin == ParsePosition(positionInputs[posLine])
      ensures ok ==> dc <= dirLine && nextDc == dirLine + 1 && Letter(heading) == UpperString(directionInputs[dirLine])
      ensures ok ==> PositionLinesRejected(old(board.Contents()), FleetLengths[n], positionInputs, pc, posLine)
      ensures ok ==> DirectionLinesRejected(old(board.Contents()), origin, FleetLengths[n], directionInputs, dc, dirLine)
      ensures !ok ==> nextPc == |positionInputs| || nextDc == |directionInputs|
      ensures !ok ==> ChoiceFails(old(board.Contents()), FleetLengths[n], positionInputs, pc, directionInputs, dc)
    {
      ghost var g := board.Contents();
      var p, direction;
      ghost var d;
      ok, nextPc, nextDc, p, direction, d, posLine, dirLine := ChooseShip(n, positionInputs, pc, directionInputs, dc);
      if !ok {
        return false, nextPc, nextDc, p, Down, posLine, dirLine;
      }
      ShipOriginInvalid(g, p.i, p.j, FleetLengths[n]);
      AcceptedRunIsFree(g, p.i, p.j, d, FleetLengths[n]);
      PlaceAndRecord(n, p.i, p.j, direction, d);
      return true, nextPc, nextDc, p, d, posLine, dirLine;
    }

    /**
     * One iteration of generatePlayerBoard's loop, seen from the loop: ship
     * n is placed from the next accepted lines, and the layout so far grows
     * by its run, its origin and heading, and the lines they were typed on.
     */
    method PlaceTypedShip(n: nat, positionInputs: seq<string>, pc: nat, directionInputs: seq<string>, dc: nat,
                          ghost g0: Grid, ghost flat: seq<Pos>, ghost origins: seq<Pos>, ghost headings: seq<Dir>,
                          ghost posAt: seq<nat>, ghost dirAt: seq<nat>)
      returns (ok: bool, nextPc: nat, nextDc: nat, ghost o: Pos, ghost d: Dir, ghost posLine: nat, ghost dirLine: nat)
      requires Valid() && moves == [] && n < 5 && pc <= |positionInputs| && dc <= |directionInputs|
      requires TypedSoFar(g0, flat, placed, origins, headings, posAt, dirAt, positionInputs, directionInputs, n)
      requires pc == Start(posAt, n) && dc == Start(dirAt, n)
      requires board.Contents() == SetCells(g0, flat, Grids.Ship)
      modifies this, board.cells, ships[n].positions
      ensures Valid() && moves == [] && nextPc <= |positionInputs| && nextDc <= |directionInputs|
      ensures !ok ==> placed == old(placed) && board.Contents() == old(board.Contents())
      ensures !ok ==> ChoiceFails(board.Contents(), FleetLengths[n], positionInputs, pc, directionInputs, dc)
      ensures ok ==> TypedSoFar(g0, flat + placed[n], placed, origins + [o], headings + [d], posAt + [posLine], dirAt + [dirLine],
                                positionInputs, directionInputs, n + 1)
      ensures ok ==> nextPc == Start(posAt + [posLine], n + 1) && nextDc == Start(dirAt + [dirLine], n + 1)
      ensures ok ==> board.Contents() == SetCells(g0, flat + placed[n], Grids.Ship)
    {
      ghost var before := placed;
      ok, nextPc, nextDc, o, d, posLine, dirLine := PlacePlayerShip(n, positionInputs, pc, directionInputs, dc);
      if ok {
        TypedShipStep(g0, flat, before, placed, origins, headings, posAt, dirAt, positionInputs, directionInputs, o, d, posLine, dirLine);
      }
    }

    /**
     * Lays out the fleet, ship after ship, from the player's typed
     * positions and directions: ship k starts at the position typed on
     * line posAt[k] and heads in the direction typed on line dirAt[k],
     * the first lines accepted after ship k - 1's. Returns false, with the
     * ships placed so far, only if the lines run out before the next ship
     * is chosen.
     */
    method GeneratePlayerBoard(positionInputs: seq<string>, directionInputs: seq<string>)
      returns (ok: bool, ghost origins: seq<Pos>, ghost headings: seq<Dir>, ghost posAt: seq<nat>, ghost dirAt: seq<nat>)
      requires Valid()
      modifies this, board.cells, Footprints(ships)
      ensures Valid() && moves == []
      ensures TypedLayout(origins, headings, posAt, dirAt, positionInputs, directionInputs)
      ensures FirstAcceptedLines(old(board.Contents()), placed, origins, posAt, dirAt, positionInputs, directionInputs)
      ensures Runs(placed, origins, headings, |origins|)
      ensures !ok ==> |origins| < 5 && board.Contents() == BoardBefore(old(board.Contents()), placed, |origins|)
      ensures !ok ==> ChoiceFails(BoardBefore(old(board.Contents()), placed, |origins|), FleetLengths[|origins|],
                                  positionInputs, Start(posAt, |origins|), directionInputs, Start(dirAt, |origins|))
      ensures ok ==> Runs(placed, origins, headings, 5)
      ensures ok ==> forall k :: 0 <= k < 5 ==> ships[k].positions[..] == placed[k]
      ensures ok ==> FreshCells(old(board.Contents()), Flatten(placed))
      ensures ok ==> board.Contents() == SetCells(old(board.Contents()), Flatten(placed), Grids.Ship)
      ensures ok ==> ShipCount(board.Contents()) == ShipCount(old(board.Contents())) + 17
      ensures ok ==> forall k, l, t, u :: 0 <= k < l < 5 && 0 <= t < |placed[k]| && 0 <= u < |placed[l]| ==> placed[k][t] != placed[l][u]
    {
      ghost var g0 := board.Contents();
      placed := FleetPositions(ships);
      moves := [];
      origins, headings, posAt, dirAt := [], [], [], [];
      var pc: nat, dc: nat := 0, 0;
      ghost var flat: seq<Pos> := [];
      for n := 0 to 5
        invariant Valid() && moves == [] && pc <= |positionInputs| && dc <= |directionInputs|
        invariant TypedSoFar(g0, flat, placed, origins, headings, posAt, dirAt, positionInputs, directionInputs, n)
        invariant pc == Start(posAt, n) && dc == Start(dirAt, n)
        invariant board.Contents() == SetCells(g0, flat, Grids.Ship)
      {
        var placedOne, pc', dc';
        ghost var o, d, p, q;
        placedOne, pc', dc', o, d, p, q := PlaceTypedShip(n, positionInputs, pc, directionInputs, dc, g0, flat, origins, headings, posAt, dirAt);
        if !placedOne {
          assert board.Contents() == BoardBefore(g0, placed, n);
          return false, origins, headings, posAt, dirAt;
        }
        flat := flat + placed[n];
        origins, headings, posAt, dirAt := origins + [o], headings + [d], posAt + [p], dirAt + [q];
        pc, dc := pc', dc';
      }
      FleetComplete(g0, placed, flat);
      assert forall k :: 0 <= k < 5 ==> Ships.HitAll(placed[k], []) == placed[k];
      ok := true;
    }

    /** Forwards the move to every ship. */
    method UpdateHitShipPositions(move: Pos)
      requires Valid()
      modifies this, Footprints(ships)
      ensures Valid() && placed == old(placed) && moves == old(moves) + [move]
      ensures forall k :: 0 <= k < 5 ==> ships[k].positions[..] == Ships.Tombstoned(old(ships[k].positions[..]), move)
    {
      UpdateHitAll(ships, move);
      TrackOneMore(placed, old(FleetPositions(ships)), FleetPositions(ships), moves, move);
      moves := moves + [move];
    }

    /** True iff every ship is sunk; for a fleet placed on the board, iff every ship cell has been played. */
    method CheckWin() returns (r: bool)
      requires Valid()
      ensures r <==> forall k :: 0 <= k < 5 ==> Ships.Sunk(ships[k].positions[..])
      ensures OnBoard(placed) ==>
        (r <==> forall k, t :: 0 <= k < 5 && 0 <= t < |placed[k]| ==> placed[k][t] in moves)
    {
      r := AllSunk(ships);
      if OnBoard(placed) {
        FleetSunkIffAllPlayed(placed, moves);
      }
    }
  }
}
