/**
 * The computer's own board: the main board, a direction board rebuilt for
 * every ship, and the five ships. The fleet is laid out from random
 * draws: the origins come from a stream of drawn cells, each redrawn until
 * checkPositionValidity holds; the direction is any entry of the direction
 * board's list.
 */
module ComputerBoards {
  import opened Grids
  import opened Boards
  import opened DirectionBoards
  import opened Fleets
  import Ships

  /** No draw from index from up to upto is a valid origin on g for a ship of the given length. */
  ghost predicate DrawsRejected(g: Grid, shipLength: int, draws: seq<Pos>, from: nat, upto: int) {
    upto <= |draws| && forall t :: from <= t < upto ==> !PositionValid(g, draws[t].i, draws[t].j, shipLength)
  }

  /**
   * Ship k starts at draw drawAt[k], the first valid one after the draw
   * ship k - 1 took, judged on the board as ship k found it.
   */
  ghost predicate DrawnLayout(g0: Grid, placed: seq<seq<Pos>>, origins: seq<Pos>, drawAt: seq<nat>, draws: seq<Pos>) {
    |placed| == 5 && |origins| == |drawAt| <= 5
    && forall k :: 0 <= k < |drawAt| ==>
         Start(drawAt, k) <= drawAt[k] < |draws| && origins[k] == draws[drawAt[k]]
         && DrawsRejected(BoardBefore(g0, placed, k), FleetLengths[k], draws, Start(drawAt, k), drawAt[k])
  }

  /** Ship n placed from the first valid draw after the last one taken extends the drawn layout. */
  lemma {:induction false} DrawnLayoutStep(g0: Grid, before: seq<seq<Pos>>, after: seq<seq<Pos>>, origins: seq<Pos>, drawAt: seq<nat>,
                                           draws: seq<Pos>, o: Pos, p: nat)
    requires DrawnLayout(g0, before, origins, drawAt, draws) && |drawAt| < 5
    requires |after| == 5 && after == before[|drawAt| := after[|drawAt|]]
    requires Start(drawAt, |drawAt|) <= p < |draws| && o == draws[p]
    requires DrawsRejected(BoardBefore(g0, before, |drawAt|), FleetLengths[|drawAt|], draws, Start(drawAt, |drawAt|), p)
    ensures DrawnLayout(g0, after, origins + [o], drawAt + [p], draws)
  {
    var n := |drawAt|;
    BoardBeforeStep(g0, before, after, n);
    var at := drawAt + [p];
    forall k | 0 <= k < |at|
      ensures Start(at, k) <= at[k] < |draws| && (origins + [o])[k] == draws[at[k]]
      ensures DrawsRejected(BoardBefore(g0, after, k), FleetLengths[k], draws, Start(at, k), at[k])
    {
      assert Start(at, k) == Start(drawAt, k);
      if k < n {
        assert at[k] == drawAt[k];
      }
    }
  }

  /**
   * The first n ships are laid out: on runs from their origins in their
   * headings, from the drawn layout, and covering the cells flat, which
   * were distinct, on the board and free on g0.
   */
  ghost predicate LaidOut(g0: Grid, flat: seq<Pos>, placed: seq<seq<Pos>>, origins: seq<Pos>, headings: seq<Dir>,
                          drawAt: seq<nat>, draws: seq<Pos>, n: nat) {
    Runs(placed, origins, headings, n) && DrawnLayout(g0, placed, origins, drawAt, draws) && |drawAt| == n
    && flat == Flatten(placed[..n]) && |flat| == CellsBefore[n] && FreshCells(g0, flat)
  }

  /** One more ship, placed on a free run from the first valid draw after the last one taken, extends the layout. */
  lemma DrawnShipStep(g0: Grid, flat: seq<Pos>, before: seq<seq<Pos>>, after: seq<seq<Pos>>, origins: seq<Pos>, headings: seq<Dir>,
                      drawAt: seq<nat>, draws: seq<Pos>, o: Pos, d: Dir, p: nat)
    requires LaidOut(g0, flat, before, origins, headings, drawAt, draws, |drawAt|) && |drawAt| < 5
    requires |after| == 5 && after == before[|drawAt| := after[|drawAt|]]
    requires RunOf(after[|drawAt|], o, d, FleetLengths[|drawAt|]) && FreshCells(SetCells(g0, flat, Grids.Ship), after[|drawAt|])
    requires Start(drawAt, |drawAt|) <= p < |draws| && o == draws[p]
    requires DrawsRejected(SetCells(g0, flat, Grids.Ship), FleetLengths[|drawAt|], draws, Start(drawAt, |drawAt|), p)
    ensures LaidOut(g0, flat + after[|drawAt|], after, origins + [o], headings + [d], drawAt + [p], draws, |drawAt| + 1)
    ensures SetCells(SetCells(g0, flat, Grids.Ship), after[|drawAt|], Grids.Ship) == SetCells(g0, flat + after[|drawAt|], Grids.Ship)
  {
    var n := |drawAt|;
    assert |after[n]| == FleetLengths[n];
    DrawnLayoutStep(g0, before, after, origins, drawAt, draws, o, p);
    FleetStep(g0, flat, before, after, n);
    RunsStep(before, after, origins, headings, n, o, d);
  }

  class ComputerBoard {
    const board: Board
    var directionBoard: DirectionBoard
    const ships: seq<Ships.Ship>
    /** The positions each ship was given, and the moves forwarded since. */
    ghost var placed: seq<seq<Pos>>
    ghost var moves: seq<Pos>

    ghost predicate Valid()
      reads this, board, board.cells, directionBoard, directionBoard.board, directionBoard.board.cells, ships, Footprints(ships)
    {
      board.Valid() && directionBoard.Valid()
      && directionBoard.board.cells != board.cells
      && FleetValid(ships)
      && |placed| == 5
      && (forall k :: 0 <= k < 5 ==> ships[k].positions[..] == Ships.HitAll(placed[k], moves))
    }

    /** An empty board, its direction board, and the standard fleet with every position (0, 0). */
    constructor ()
      ensures Valid() && fresh(board) && fresh(board.cells)
      ensures board.Contents() == EmptyGrid()
      ensures directionBoard.board.Contents() == DirectionGrid(EmptyGrid()) && directionBoard.possibleDirections == []
      ensures forall k :: 0 <= k < 5 ==> fresh(ships[k]) && fresh(ships[k].positions)
      ensures forall k :: 0 <= k < 5 ==> ships[k].positions[..] == seq(FleetLengths[k], _ => Pos(0, 0))
    {
      var b := new Board();
      board := b;
      directionBoard := new DirectionBoard(b);
      var fleet := NewFleet();
      ships := fleet;
      placed := seq(5, k requires 0 <= k < 5 => seq(FleetLengths[k], _ => Pos(0, 0)));
      moves := [];
    }

    /** A new direction board built from the current main board. */
    method ResetDirectionBoard()
      requires Valid()
      modifies this
      ensures Valid() && fresh(directionBoard) && fresh(directionBoard.board.cells)
      ensures directionBoard.board.Contents() == DirectionGrid(board.Contents())
      ensures directionBoard.possibleDirections == []
      ensures placed == old(placed) && moves == old(moves)
    {
      directionBoard := new DirectionBoard(board);
    }

    /**
     * The do-while of generateComputerBoard: takes drawn cells from
     * originDraws, starting at cursor, until one passes
     * checkPositionValidity. found is false when the draws run out first.
     */
    method DrawOrigin(originDraws: seq<Pos>, cursor: nat, shipLength: int) returns (found: bool, origin: Pos, next: nat, ghost drawLine: nat)
      requires Valid() && cursor <= |originDraws|
      requires forall k :: 0 <= k < |originDraws| ==> InBoundsPos(originDraws[k])
      ensures cursor <= next <= |originDraws|
      ensures found ==> cursor <= drawLine && next == drawLine + 1 && origin == originDraws[drawLine]
      ensures found ==> InBoundsPos(origin) && PositionValid(board.Contents(), origin.i, origin.j, shipLength)
      ensures DrawsRejected(board.Contents(), shipLength, originDraws, cursor, if found then drawLine else next)
      ensures !found ==> next == |originDraws|
    {
      next := cursor;
      while next < |originDraws|
        invariant cursor <= next <= |originDraws|
        invariant DrawsRejected(board.Contents(), shipLength, originDraws, cursor, next)
      {
        origin := originDraws[next];
        found := board.CheckPositionValidity(origin.i, origin.j, shipLength);
        next := next + 1;
        if found {
          return found, origin, next, next - 1;
        }
      }
      return false, Pos(0, 0), next, 0;
    }

    /**
     * The direction half of one iteration of generateComputerBoard: the
     * origin marked Ship on the freshly reset direction board, its list of
     * directions, and the entry at a drawn index. For a valid origin the list is never
     * empty, so the draw always has an entry to land on.
     */
    method ChooseDirection(o: Pos, shipLength: int) returns (direction: string, ghost d: Dir)
      requires Valid() && InBoundsPos(o) && 2 <= shipLength && PositionValid(board.Contents(), o.i, o.j, shipLength)
      requires directionBoard.board.Contents() == DirectionGrid(board.Contents()) && directionBoard.possibleDirections == []
      modifies directionBoard, directionBoard.board.cells
      ensures Valid()
      ensures directionBoard.possibleDirections == AcceptedDirections(SetCell(DirectionGrid(board.Contents()), o.i, o.j, Grids.Ship), o.i, o.j, shipLength)
      ensures DirOfLetter(direction) == Some(d) && d in directionBoard.possibleDirections
      ensures DirectionAccepted(SetCell(DirectionGrid(board.Contents()), o.i, o.j, Grids.Ship), o.i, o.j, d, shipLength)
    {
      ShipOriginInvalid(board.Contents(), o.i, o.j, shipLength);
      directionBoard.board.AddShip(o.i, o.j);
      ghost var h := directionBoard.board.Contents();
      directionBoard.UpdateValidPositionDirections(o.i, o.j, shipLength);
      DirectionsIffValid(board.Contents(), o.i, o.j, shipLength);
      AcceptedDirectionsShape(h, o.i, o.j, shipLength);
      var pick :| 0 <= pick < |directionBoard.possibleDirections|;
      direction := directionBoard.GetPossibleDirectionsElement(pick).value;
      d := directionBoard.possibleDirections[pick];
    }

    /**
     * placeShipOnBoard on the main board for an origin and direction whose
     * run is free, then addPositions on ship n.
     */
    method PlaceAndRecord(n: nat, i: int, j: int, direction: string, ghost d: Dir)
      requires Valid() && moves == [] && n < 5 && DirOfLetter(direction) == Some(d)
      requires forall k :: 0 <= k < FleetLengths[n] ==> InBoundsPos(Step(i, j, d, k)) && !ShipAtPos(board.Contents(), Step(i, j, d, k))
      requires Distinct(RunCells(i, j, d, 0, FleetLengths[n]))
      modifies this, board.cells, ships[n].positions
      ensures Valid() && moves == []
      ensures placed == old(placed)[n := RunCells(i, j, d, 0, FleetLengths[n])]
      ensures FreshCells(old(board.Contents()), placed[n])
      ensures board.Contents() == SetCells(old(board.Contents()), placed[n], Grids.Ship)
    {
      var shipPositions := board.PlaceShipOnBoard(i, j, direction, ships[n].length);
      ships[n].AddPositions(shipPositions);
      placed := placed[n := RunCells(i, j, d, 0, FleetLengths[n])];
    }

    /**
     * One iteration of generateComputerBoard for ship n: a drawn origin, a
     * drawn direction, then placement on the main board and in the ship.
     */
    method PlaceNextShip(n: nat, originDraws: seq<Pos>, cursor: nat) returns (ok: bool, next: nat, ghost origin: Pos, ghost heading: Dir, ghost drawLine: nat)
      requires Valid() && moves == [] && n < 5 && cursor <= |originDraws|
      requires forall k :: 0 <= k < |originDraws| ==> InBoundsPos(originDraws[k])
      modifies this, board.cells, ships[n].positions
      ensures Valid() && moves == [] && next <= |originDraws|
      ensures !ok ==> placed == old(placed) && board.Contents() == old(board.Contents())
      ensures !ok ==> next == |originDraws| && DrawsRejected(old(board.Contents()), FleetLengths[n], originDraws, cursor, |originDraws|)
      ensures ok ==> cursor <= drawLine && next == drawLine + 1 && origin == originDraws[drawLine]
      ensures ok ==> DrawsRejected(old(board.Contents()), FleetLengths[n], originDraws, cursor, drawLine)
      ensures ok ==> placed == old(placed)[n := placed[n]]
      ensures ok ==> InBoundsPos(origin) && PositionValid(old(board.Contents()), origin.i, origin.j, FleetLengths[n])
      ensures ok ==> RunOf(placed[n], origin, heading, FleetLengths[n])
      ensures ok ==> FreshCells(old(board.Contents()), placed[n])
      ensures ok ==> board.Contents() == SetCells(old(board.Contents()), placed[n], Grids.Ship)
    {
      ResetDirectionBoard();
      var shipLength := ships[n].length;
      ghost var g := board.Contents();
      var found, o;
      found, o, next, drawLine := DrawOrigin(originDraws, cursor, shipLength);
      if !found {
        return false, next, o, Down, drawLine;
      }
      var i, j := o.i, o.j;
      ShipOriginInvalid(g, i, j, shipLength);
      var direction;
      ghost var d;
      direction, d := ChooseDirection(o, shipLength);
      AcceptedRunIsFree(g, i, j, d, shipLength);
      PlaceAndRecord(n, i, j, direction, d);
      return true, next, o, d, drawLine;
    }

    /**
     * One iteration of generateComputerBoard's loop, seen from the loop:
     * ship n is placed from the next valid draw, and the layout so far
     * grows by its run, its origin and heading, and the index of its draw.
     * When the draws run out, each one left was invalid for ship n.
     */
    method PlaceDrawnShip(n: nat, originDraws: seq<Pos>, cursor: nat, ghost g0: Grid, ghost flat: seq<Pos>,
                          ghost origins: seq<Pos>, ghost headings: seq<Dir>, ghost drawAt: seq<nat>)
      returns (ok: bool, next: nat, ghost o: Pos, ghost d: Dir, ghost p: nat)
      requires Valid() && moves == [] && n < 5 && cursor <= |originDraws|
      requires forall k :: 0 <= k < |originDraws| ==> InBoundsPos(originDraws[k])
      requires LaidOut(g0, flat, placed, origins, headings, drawAt, originDraws, n) && cursor == Start(drawAt, n)
      requires board.Contents() == SetCells(g0, flat, Grids.Ship)
      modifies this, board.cells, ships[n].positions
      ensures Valid() && moves == [] && next <= |originDraws|
      ensures !ok ==> placed == old(placed) && board.Contents() == old(board.Contents())
      ensures !ok ==> DrawsRejected(board.Contents(), FleetLengths[n], originDraws, cursor, |originDraws|)
      ensures ok ==> LaidOut(g0, flat + placed[n], placed, origins + [o], headings + [d], drawAt + [p], originDraws, n + 1)
      ensures ok ==> next == Start(drawAt + [p], n + 1)
      ensures ok ==> board.Contents() == SetCells(g0, flat + placed[n], Grids.Ship)
    {
      ghost var before := placed;
      ok, next, o, d, p := PlaceNextShip(n, originDraws, cursor);
      if ok {
        DrawnShipStep(g0, flat, before, placed, origins, headings, drawAt, originDraws, o, d, p);
      }
    }

    /**
     * Lays out the fleet, ship after ship, each from the next valid drawn
     * origin: ship k starts at draw drawAt[k]. Returns false, with the
     * ships placed so far, only if the draws run out, every draw after the
     * last one taken being invalid for the next ship.
     */
    method GenerateComputerBoard(originDraws: seq<Pos>) returns (ok: bool, ghost origins: seq<Pos>, ghost headings: seq<Dir>, ghost drawAt: seq<nat>)
      requires Valid()
      requires forall k :: 0 <= k < |originDraws| ==> InBoundsPos(originDraws[k])
      modifies this, board.cells, Footprints(ships)
      ensures Valid() && moves == []
      ensures DrawnLayout(old(board.Contents()), placed, origins, drawAt, originDraws)
      ensures Runs(placed, origins, headings, |origins|)
      ensures !ok ==> |origins| < 5 && board.Contents() == BoardBefore(old(board.Contents()), placed, |origins|)
      ensures !ok ==> DrawsRejected(BoardBefore(old(board.Contents()), placed, |origins|), FleetLengths[|origins|], originDraws, Start(drawAt, |origins|), |originDraws|)
      ensures ok ==> Runs(placed, origins, headings, 5)
      ensures ok ==> forall k :: 0 <= k < 5 ==> ships[k].positions[..] == placed[k]
      ensures ok ==> FreshCells(old(board.Contents()), Flatten(placed))
      ensures ok ==> board.Contents() == SetCells(old(board.Contents()), Flatten(placed), Grids.Ship)
      ensures ok ==> ShipCount(board.Contents()) == ShipCount(old(board.Contents())) + 17
      ensures ok ==> forall k, l, t, u :: 0 <= k < l < 5 && 0 <= t < |placed[k]| && 0 <= u < |placed[l]| ==> placed[k][t] != placed[l][u]
    {
      ghost var g0 := board.Contents();
      placed := FleetPositions(ships);
      moves := [];
      origins, headings, drawAt := [], [], [];
      var cursor: nat := 0;
      ghost var flat: seq<Pos> := [];
      for n := 0 to 5
        invariant Valid() && moves == [] && cursor <= |originDraws|
        invariant LaidOut(g0, flat, placed, origins, headings, drawAt, originDraws, n) && cursor == Start(drawAt, n)
        invariant board.Contents() == SetCells(g0, flat, Grids.Ship)
      {
        var placedOne, next;
        ghost var o, d, p;
        placedOne, next, o, d, p := PlaceDrawnShip(n, originDraws, cursor, g0, flat, origins, headings, drawAt);
        if !placedOne {
          assert board.Contents() == BoardBefore(g0, placed, n);
          return false, origins, headings, drawAt;
        }
        flat := flat + placed[n];
        origins, headings, drawAt := origins + [o], headings + [d], drawAt + [p];
        cursor := next;
      }
      FleetComplete(g0, placed, flat);
      assert forall k :: 0 <= k < 5 ==> Ships.HitAll(placed[k], []) == placed[k];
      ok := true;
    }

    /** Forwards the move to every ship. */
    method UpdateHitShipPositions(move: Pos)
      requires Valid()
      modifies this, Footprints(ships)
      ensures Valid() && placed == old(placed) && moves == old(moves) + [move]
      ensures forall k :: 0 <= k < 5 ==> ships[k].positions[..] == Ships.Tombstoned(old(ships[k].positions[..]), move)
    {
      UpdateHitAll(ships, move);
      TrackOneMore(placed, old(FleetPositions(ships)), FleetPositions(ships), moves, move);
      moves := moves + [move];
    }

    /** True iff every ship is sunk; for a fleet placed on the board, iff every ship cell has been played. */
    method CheckWin() returns (r: bool)
      requires Valid()
      ensures r <==> forall k :: 0 <= k < 5 ==> Ships.Sunk(ships[k].positions[..])
      ensures OnBoard(placed) ==>
        (r <==> forall k, t :: 0 <= k < 5 && 0 <= t < |placed[k]| ==> placed[k][t] in moves)
    {
      r := AllSunk(ships);
      if OnBoard(placed) {
        FleetSunkIffAllPlayed(placed, moves);
      }
    }
  }
}
