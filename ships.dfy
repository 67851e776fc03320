/**
 * A ship: a name, a length and the board positions it occupies. A hit
 * overwrites the matching position with the tombstone (-1, -1); the ship
 * is sunk once no position is left with both components different from -1.
 */
module Ships {
  import opened Grids

  const Tombstone: Pos := Pos(-1, -1)

  /** ps after one move: every position equal to the move becomes the tombstone. */
  function Tombstoned(ps: seq<Pos>, move: Pos): seq<Pos> {
    seq(|ps|, k requires 0 <= k < |ps| => if ps[k] == move then Tombstone else ps[k])
  }

  /** ps after the moves, applied in order. */
  function HitAll(ps: seq<Pos>, moves: seq<Pos>): seq<Pos>
    decreases |moves|
  {
    if moves == [] then ps else HitAll(Tombstoned(ps, moves[0]), moves[1..])
  }

  /** isSunk: no position has both components different from -1. */
  predicate Sunk(ps: seq<Pos>) {
    forall k :: 0 <= k < |ps| ==> !(ps[k].i != -1 && ps[k].j != -1)
  }

  /** Only the positions equal to the move change, and they become the tombstone; the length is kept. */
  lemma TombstonedAt(ps: seq<Pos>, move: Pos)
    ensures |Tombstoned(ps, move)| == |ps|
    ensures forall k :: 0 <= k < |ps| && ps[k] != move ==> Tombstoned(ps, move)[k] == ps[k]
    ensures forall k :: 0 <= k < |ps| && ps[k] == move ==> Tombstoned(ps, move)[k] == Tombstone
  {
  }

  /** Recording the same move twice is recording it once. */
  lemma TombstonedIdempotent(ps: seq<Pos>, move: Pos)
    ensures Tombstoned(Tombstoned(ps, move), move) == Tombstoned(ps, move)
  {
  }

  /** A move changes the positions exactly when it is one of them (the tombstone itself aside). */
  lemma TombstonedChangesIff(ps: seq<Pos>, move: Pos)
    requires move != Tombstone
    ensures Tombstoned(ps, move) != ps <==> move in ps
  {
    if move in ps {
      var k :| 0 <= k < |ps| && ps[k] == move;
      assert Tombstoned(ps, move)[k] != ps[k];
    } else {
      assert Tombstoned(ps, move) == ps;
    }
  }

  /** One more move tombstones the positions reached so far. */
  lemma {:induction false} HitAllSnoc(ps: seq<Pos>, moves: seq<Pos>, move: Pos)
    ensures HitAll(ps, moves + [move]) == Tombstoned(HitAll(ps, moves), move)
    decreases |moves|
  {
    if moves == [] {
      assert HitAll(Tombstoned(ps, move), []) == Tombstoned(ps, move);
      assert ([] + [move])[1..] == [];
    } else {
      assert (moves + [move])[0] == moves[0];
      assert (moves + [move])[1..] == moves[1..] + [move];
      HitAllSnoc(Tombstoned(ps, moves[0]), moves[1..], move);
    }
  }

  /** After a sequence of moves, a position is the tombstone if it was among the moves, and untouched otherwise. */
  lemma {:induction false} HitAllAt(ps: seq<Pos>, moves: seq<Pos>)
    ensures |HitAll(ps, moves)| == |ps|
    ensures forall k :: 0 <= k < |ps| ==>
      HitAll(ps, moves)[k] == if ps[k] in moves then Tombstone else ps[k]
    decreases |moves|
  {
    if moves != [] {
      var qs := Tombstoned(ps, moves[0]);
      HitAllAt(qs, moves[1..]);
      forall k | 0 <= k < |ps|
        ensures HitAll(ps, moves)[k] == if ps[k] in moves then Tombstone else ps[k]
      {
        assert ps[k] in moves <==> ps[k] == moves[0] || ps[k] in moves[1..] by {
          assert moves == [moves[0]] + moves[1..];
        }
        if ps[k] == moves[0] {
          assert qs[k] == Tombstone;
        }
      }
    }
  }

  /** The order of the moves does not matter, nor does repeating one: only which cells were played. */
  lemma HitAllOrderIrrelevant(ps: seq<Pos>, m1: seq<Pos>, m2: seq<Pos>)
    requires forall p :: p in m1 <==> p in m2
    ensures HitAll(ps, m1) == HitAll(ps, m2)
  {
    HitAllAt(ps, m1);
    HitAllAt(ps, m2);
    assert forall k :: 0 <= k < |ps| ==> HitAll(ps, m1)[k] == HitAll(ps, m2)[k];
  }

  /** A ship whose positions are all on the board is sunk exactly when every position has been played. */
  lemma {:induction false} SunkIffAllHit(ps: seq<Pos>, moves: seq<Pos>)
    requires forall k :: 0 <= k < |ps| ==> InBoundsPos(ps[k])
    ensures Sunk(HitAll(ps, moves)) <==> forall k :: 0 <= k < |ps| ==> ps[k] in moves
  {
    HitAllAt(ps, moves);
    if !Sunk(HitAll(ps, moves)) {
      var k :| 0 <= k < |ps| && HitAll(ps, moves)[k].i != -1 && HitAll(ps, moves)[k].j != -1;
      assert ps[k] !in moves;
    }
  }

  class Ship {
    const name: string
    const length: nat
    const positions: array<Pos>

    ghost predicate Valid()
      reads this
    {
      positions.Length == length
    }

    /** A ship with length positions, each (0, 0). */
    constructor (name: string, length: nat)
      ensures Valid() && fresh(positions)
      ensures this.name == name && this.length == length
      ensures positions[..] == seq(length, _ => Pos(0, 0))
    {
      this.name := name;
      this.length := length;
      positions := new Pos[length](_ => Pos(0, 0));
    }

    /** Records a move: every position equal to it becomes the tombstone. */
    method UpdateHitPositions(move: Pos)
      requires Valid()
      modifies positions
      ensures Valid()
      ensures positions[..] == Tombstoned(old(positions[..]), move)
    {
      for i := 0 to positions.Length
        invariant forall k :: 0 <= k < i ==> positions[k] == if old(positions[k]) == move then Tombstone else old(positions[k])
        invariant forall k :: i <= k < positions.Length ==> positions[k] == old(positions[k])
      {
        if positions[i].i == move.i && positions[i].j == move.j {
          positions[i] := Tombstone;
        }
      }
    }

    /** True iff no position has both components different from -1. */
    method IsSunk() returns (r: bool)
      ensures r == Sunk(positions[..])
    {
      for k := 0 to positions.Length
        invariant Sunk(positions[..k])
      {
        if positions[k].i != -1 && positions[k].j != -1 {
          return false;
        }
        assert positions[..k + 1] == positions[..k] + [positions[k]];
      }
      assert positions[..] == positions[..positions.Length];
      return true;
    }

    /** Copies the given positions when there are exactly length of them; otherwise nothing changes. */
    method AddPositions(shipPositions: array<Pos>)
      requires Valid()
      modifies positions
      ensures Valid()
      ensures shipPositions.Length == length ==> positions[..] == old(shipPositions[..])
      ensures shipPositions.Length != length ==> positions[..] == old(positions[..])
    {
      if shipPositions.Length == length {
        for i := 0 to shipPositions.Length
          invariant forall k :: 0 <= k < i ==> positions[k] == old(shipPositions[k])
          invariant forall k :: i <= k < shipPositions.Length ==> shipPositions[k] == old(shipPositions[k])
        {
          positions[i] := shipPositions[i];
        }
      }
    }
  }
}
