/**
 * The computer's hunt/target strategy. The computer keeps an enemy board
 * of its own hits and misses and a frontier of possible moves. With an
 * empty frontier it draws random cells until one has not been played;
 * otherwise it takes a random frontier entry out. Every hit replaces the
 * frontier with the hit's Empty orthogonal neighbours. The random draws
 * are parameters.
 */
module Computers {
  import opened Grids
  import opened Boards

  /** The enemy board holds only Empty, Hit and Miss. */
  predicate HitMissOnly(g: Grid) {
    forall x :: 0 <= x < 100 ==> g[x] == Empty || g[x] == Hit || g[x] == Miss
  }

  /** Every frontier entry is on the board, not yet played, and listed once. */
  predicate FrontierOk(g: Grid, moves: seq<Pos>) {
    Distinct(moves) && forall k :: 0 <= k < |moves| ==> InBoundsPos(moves[k]) && CellAt(g, moves[k].i, moves[k].j) == Empty
  }

  /** The played cells are exactly the cells of the enemy board that are no longer Empty. */
  ghost predicate PlayedRecord(g: Grid, played: seq<Pos>) {
    forall p :: p in played <==> InBoundsPos(p) && CellAt(g, p.i, p.j) != Empty
  }

  /** The do-while test of makeMove: the cell is neither Hit nor Miss. */
  predicate Open(g: Grid, p: Pos) {
    CellAt(g, p.i, p.j) != Hit && CellAt(g, p.i, p.j) != Miss
  }

  predicate Adjacent(p: Pos, i: int, j: int) {
    (p.j == j && (p.i == i + 1 || p.i == i - 1)) || (p.i == i && (p.j == j + 1 || p.j == j - 1))
  }

  /** One check of updatePossibleMoves: p, if the edge test passes and p is Empty. */
  function IfEmpty(g: Grid, edge: bool, p: Pos): seq<Pos> {
    if edge && CellAt(g, p.i, p.j) == Empty then [p] else []
  }

  /** The list updatePossibleMoves builds: the Empty neighbours in the order Down, Up, Right, Left. */
  function NeighbourMoves(g: Grid, i: int, j: int): seq<Pos> {
    IfEmpty(g, i < 9, Pos(i + 1, j)) + IfEmpty(g, i > 0, Pos(i - 1, j))
    + IfEmpty(g, j < 9, Pos(i, j + 1)) + IfEmpty(g, j > 0, Pos(i, j - 1))
  }

  lemma DistinctAppend(a: seq<Pos>, b: seq<Pos>)
    requires Distinct(a) && Distinct(b) && forall x :: x in a ==> x !in b
    ensures Distinct(a + b)
  {
    forall x, y | 0 <= x < y < |a + b|
      ensures (a + b)[x] != (a + b)[y]
    {
      if x < |a| && |a| <= y {
        assert (a + b)[x] in a && (a + b)[y] in b;
      }
    }
  }

  /** The new frontier holds exactly the on-board, orthogonally adjacent, Empty cells, each once, at most four. */
  lemma NeighbourMovesMeaning(g: Grid, i: int, j: int)
    ensures |NeighbourMoves(g, i, j)| <= 4
    ensures forall p :: p in NeighbourMoves(g, i, j) <==> InBoundsPos(p) && Adjacent(p, i, j) && CellAt(g, p.i, p.j) == Empty
    ensures FrontierOk(g, NeighbourMoves(g, i, j))
  {
    var down, up := IfEmpty(g, i < 9, Pos(i + 1, j)), IfEmpty(g, i > 0, Pos(i - 1, j));
    var right, left := IfEmpty(g, j < 9, Pos(i, j + 1)), IfEmpty(g, j > 0, Pos(i, j - 1));
    assert NeighbourMoves(g, i, j) == down + up + right + left;
    forall p
      ensures p in NeighbourMoves(g, i, j) <==> InBoundsPos(p) && Adjacent(p, i, j) && CellAt(g, p.i, p.j) == Empty
    {
      assert p in NeighbourMoves(g, i, j) <==> p in down || p in up || p in right || p in left;
    }
    DistinctAppend(down, up);
    DistinctAppend(down + up, right);
    DistinctAppend(down + up + right, left);
  }

  /** Playing a cell that is not in the frontier keeps the frontier valid. */
  lemma FrontierAfterMove(g: Grid, moves: seq<Pos>, move: Pos, v: int)
    requires FrontierOk(g, moves) && move !in moves
    ensures FrontierOk(SetCell(g, move.i, move.j, v), moves)
  {
    forall k | 0 <= k < |moves|
      ensures CellAt(SetCell(g, move.i, move.j, v), moves[k].i, moves[k].j) == Empty
    {
      CellAtSetCell(g, move.i, move.j, v, moves[k].i, moves[k].j);
    }
  }

  /** Playing an unplayed cell extends the record by exactly that cell. */
  lemma RecordMove(g: Grid, played: seq<Pos>, move: Pos, v: int)
    requires PlayedRecord(g, played) && Distinct(played)
    requires InBoundsPos(move) && CellAt(g, move.i, move.j) == Empty && v != Empty
    ensures move !in played
    ensures PlayedRecord(SetCell(g, move.i, move.j, v), played + [move])
    ensures Distinct(played + [move])
  {
    var h := SetCell(g, move.i, move.j, v);
    forall p
      ensures p in played + [move] <==> InBoundsPos(p) && CellAt(h, p.i, p.j) != Empty
    {
      CellAtSetCell(g, move.i, move.j, v, p.i, p.j);
    }
  }

  /** Removing one entry keeps the frontier valid, and the removed entry is no longer in it. */
  lemma FrontierRemove(g: Grid, moves: seq<Pos>, k: int)
    requires FrontierOk(g, moves) && 0 <= k < |moves|
    ensures FrontierOk(g, moves[..k] + moves[k + 1..])
    ensures moves[k] !in moves[..k] + moves[k + 1..]
  {
    var rest := moves[..k] + moves[k + 1..];
    assert forall t :: 0 <= t < |rest| ==> rest[t] == if t < k then moves[t] else moves[t + 1];
  }

  class Computer {
    const enemyBoard: Board
    var possibleMoves: seq<Pos>
    /** The cells played so far, in order. */
    ghost var played: seq<Pos>

    ghost predicate Valid()
      reads this, enemyBoard, enemyBoard.cells
    {
      enemyBoard.Valid()
      && HitMissOnly(enemyBoard.Contents())
      && FrontierOk(enemyBoard.Contents(), possibleMoves)
      && Distinct(played)
      && PlayedRecord(enemyBoard.Contents(), played)
    }

    /** An empty enemy board and an empty frontier. */
    constructor ()
      ensures Valid() && fresh(enemyBoard) && fresh(enemyBoard.cells)
      ensures enemyBoard.Contents() == EmptyGrid() && possibleMoves == [] && played == []
    {
      enemyBoard := new Board();
      possibleMoves := [];
      played := [];
    }

    /** The frontier becomes empty. */
    method ResetPossibleMoves()
      modifies this
      ensures possibleMoves == [] && played == old(played)
      ensures old(Valid()) ==> Valid()
    {
      possibleMoves := [];
    }

    /** Removes the entry at index, keeping the order of the others; a no-op outside 0 .. size-1. */
    method RemovePossibleMovesElement(index: int)
      requires Valid()
      modifies this
      ensures Valid() && played == old(played)
      ensures 0 <= index < |old(possibleMoves)| ==> possibleMoves == old(possibleMoves)[..index] + old(possibleMoves)[index + 1..]
      ensures 0 <= index < |old(possibleMoves)| ==> old(possibleMoves)[index] !in possibleMoves
      ensures !(0 <= index < |old(possibleMoves)|) ==> possibleMoves == old(possibleMoves)
    {
      if 0 <= index < |possibleMoves| {
        FrontierRemove(enemyBoard.Contents(), possibleMoves, index);
        possibleMoves := possibleMoves[..index] + possibleMoves[index + 1..];
      }
    }

    /** The entry at index, or None (null) outside 0 .. size-1; under the invariant, an entry is an unplayed cell. */
    function GetPossibleMovesElement(index: int): (r: Option<Pos>)
      reads this, enemyBoard, enemyBoard.cells
      ensures r.None? <==> !(0 <= index < |possibleMoves|)
      ensures r.Some? ==> r.value in possibleMoves
      ensures r.Some? && Valid() ==> InBoundsPos(r.value) && CellAt(enemyBoard.Contents(), r.value.i, r.value.j) == Empty
    {
      if 0 <= index < |possibleMoves| then Some(possibleMoves[index]) else None
    }

    /** One check of updatePossibleMoves: appends p when the edge test passes and p is Empty. */
    method CheckNeighbour(edge: bool, p: Pos)
      requires enemyBoard.Valid()
      modifies this
      ensures possibleMoves == old(possibleMoves) + IfEmpty(enemyBoard.Contents(), edge, p) && played == old(played)
    {
      if edge {
        if enemyBoard.IsEmpty(p.i, p.j) {
          possibleMoves := possibleMoves + [p];
        }
      }
    }

    /** Replaces the frontier by the Empty neighbours of (i, j), checked Down, Up, Right, Left. */
    method UpdatePossibleMoves(i: int, j: int)
      requires enemyBoard.Valid()
      modifies this
      ensures possibleMoves == NeighbourMoves(enemyBoard.Contents(), i, j) && played == old(played)
    {
      ResetPossibleMoves();
      CheckNeighbour(i < 9, Pos(i + 1, j));
      CheckNeighbour(i > 0, Pos(i - 1, j));
      CheckNeighbour(j < 9, Pos(i, j + 1));
      CheckNeighbour(j > 0, Pos(i, j - 1));
    }

    /**
     * Marks the move Hit on the enemy board when the player's board has a
     * Ship there, and Miss otherwise; a hit replaces the frontier. makeMove
     * calls it with an unplayed cell that is no longer in the frontier.
     */
    method CheckComputerMove(move: Pos, playerBoard: Board)
      requires Valid() && playerBoard.Valid()
      requires InBoundsPos(move) && CellAt(enemyBoard.Contents(), move.i, move.j) == Empty && move !in possibleMoves
      modifies this, enemyBoard.cells
      ensures Valid() && played == old(played) + [move] && move !in old(played)
      ensures enemyBoard.Contents()
           == SetCell(old(enemyBoard.Contents()), move.i, move.j, if ShipAt(old(playerBoard.Contents()), move.i, move.j) then Hit else Miss)
      ensures ShipAt(old(playerBoard.Contents()), move.i, move.j) ==> possibleMoves == NeighbourMoves(enemyBoard.Contents(), move.i, move.j)
      ensures !ShipAt(old(playerBoard.Contents()), move.i, move.j) ==> possibleMoves == old(possibleMoves)
    {
      ghost var g := enemyBoard.Contents();
      if playerBoard.IsShip(move.i, move.j) {
        enemyBoard.AddHit(move.i, move.j);
        RecordMove(g, played, move, Hit);
        played := played + [move];
        UpdatePossibleMoves(move.i, move.j);
        NeighbourMovesMeaning(enemyBoard.Contents(), move.i, move.j);
      } else {
        enemyBoard.AddMiss(move.i, move.j);
        RecordMove(g, played, move, Miss);
        FrontierAfterMove(g, possibleMoves, move, Miss);
        played := played + [move];
      }
    }

    /** The do-while of makeMove: the first draw that is neither Hit nor Miss on the enemy board. */
    method DrawMove(draws: seq<Pos>) returns (move: Pos)
      requires Valid()
      requires forall k :: 0 <= k < |draws| ==> InBoundsPos(draws[k])
      requires exists k :: 0 <= k < |draws| && Open(enemyBoard.Contents(), draws[k])
      ensures InBoundsPos(move) && CellAt(enemyBoard.Contents(), move.i, move.j) == Empty
      ensures exists k :: 0 <= k < |draws| && draws[k] == move && forall t :: 0 <= t < k ==> !Open(enemyBoard.Contents(), draws[t])
    {
      var k := 0;
      move := draws[0];
      while enemyBoard.IsHit(move.i, move.j) || enemyBoard.IsMiss(move.i, move.j)
        invariant 0 <= k < |draws| && move == draws[k]
        invariant forall t :: 0 <= t < k ==> !Open(enemyBoard.Contents(), draws[t])
        invariant exists t :: k <= t < |draws| && Open(enemyBoard.Contents(), draws[t])
        decreases |draws| - k
      {
        k := k + 1;
        move := draws[k];
      }
      assert enemyBoard.Contents()[10 * move.i + move.j] == CellAt(enemyBoard.Contents(), move.i, move.j);
    }

    /**
     * One computer move: a random unplayed cell when the frontier is
     * empty, otherwise the frontier entry at the drawn index, taken out of
     * the frontier; then the hit or miss is recorded. The move is never a
     * cell played before.
     */
    method MakeMove(playerBoard: Board, draws: seq<Pos>, pick: int) returns (move: Pos)
      requires Valid() && playerBoard.Valid()
      requires forall k :: 0 <= k < |draws| ==> InBoundsPos(draws[k])
      requires possibleMoves == [] ==> exists k :: 0 <= k < |draws| && Open(enemyBoard.Contents(), draws[k])
      requires possibleMoves != [] ==> 0 <= pick < |possibleMoves|
      modifies this, enemyBoard.cells
      ensures Valid()
      ensures InBoundsPos(move) && CellAt(old(enemyBoard.Contents()), move.i, move.j) == Empty
      ensures move !in old(played) && played == old(played) + [move]
      ensures old(possibleMoves) == [] ==>
        exists k :: 0 <= k < |draws| && draws[k] == move && forall t :: 0 <= t < k ==> !Open(old(enemyBoard.Contents()), draws[t])
      ensures old(possibleMoves) != [] ==> move == old(possibleMoves)[pick]
      ensures enemyBoard.Contents()
           == SetCell(old(enemyBoard.Contents()), move.i, move.j, if ShipAt(old(playerBoard.Contents()), move.i, move.j) then Hit else Miss)
      ensures ShipAt(old(playerBoard.Contents()), move.i, move.j) ==> possibleMoves == NeighbourMoves(enemyBoard.Contents(), move.i, move.j)
      ensures !ShipAt(old(playerBoard.Contents()), move.i, move.j) ==>
        possibleMoves == if old(possibleMoves) == [] then [] else old(possibleMoves)[..pick] + old(possibleMoves)[pick + 1..]
    {
      if |possibleMoves| == 0 {
        move := DrawMove(draws);
      } else {
        move := GetPossibleMovesElement(pick).value;
        RemovePossibleMovesElement(pick);
      }
      CheckComputerMove(move, playerBoard);
    }
  }
}
