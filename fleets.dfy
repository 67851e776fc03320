/**
 * The five-ship fleet both boards own, built in their constructors: the
 * standard names and lengths, and the two loops over it (forwarding a
 * move to every ship, and the win check).
 */
module Fleets {
  import opened Grids
  import opened Ships

  const FleetNames: seq<string> := ["Carrier", "Battleship", "Destroyer", "Submarine", "Patrol Boat"]
  const FleetLengths: seq<nat> := [5, 4, 3, 3, 2]

  function Sum(xs: seq<nat>): nat {
    if xs == [] then 0 else xs[0] + Sum(xs[1..])
  }

  /** The fleet covers 17 cells. */
  lemma FleetCells()
    ensures |FleetLengths| == 5 && Sum(FleetLengths) == 17
  {
    assert FleetLengths[1..] == [4, 3, 3, 2];
    assert FleetLengths[1..][1..] == [3, 3, 2];
    assert FleetLengths[1..][1..][1..] == [3, 2];
    assert FleetLengths[1..][1..][1..][1..] == [2];
  }

  /** The arrays the fleet's positions live in. */
  ghost function Footprints(ships: seq<Ship>): set<object> {
    set k | 0 <= k < |ships| :: ships[k].positions
  }

  /** Five ships with the standard names and lengths, each with its own positions array. */
  ghost predicate FleetValid(ships: seq<Ship>)
    reads ships
  {
    |ships| == 5
    && (forall k :: 0 <= k < 5 ==> ships[k].Valid() && ships[k].name == FleetNames[k] && ships[k].length == FleetLengths[k])
    && (forall k, l :: 0 <= k < l < 5 ==> ships[k].positions != ships[l].positions)
  }

  /** The ships' positions as values. */
  ghost function FleetPositions(ships: seq<Ship>): seq<seq<Pos>>
    reads ships, Footprints(ships)
  {
    seq(|ships|, k reads ships, Footprints(ships) requires 0 <= k < |ships| => ships[k].positions[..])
  }

  /** Carrier 5, Battleship 4, Destroyer 3, Submarine 3, Patrol Boat 2, every position (0, 0). */
  method NewFleet() returns (ships: seq<Ship>)
    ensures FleetValid(ships)
    ensures forall k :: 0 <= k < 5 ==> fresh(ships[k]) && fresh(ships[k].positions)
    ensures forall k :: 0 <= k < 5 ==> ships[k].positions[..] == seq(FleetLengths[k], _ => Pos(0, 0))
  {
    var carrier := new Ship("Carrier", 5);
    var battleship := new Ship("Battleship", 4);
    var destroyer := new Ship("Destroyer", 3);
    var submarine := new Ship("Submarine", 3);
    var patrolBoat := new Ship("Patrol Boat", 2);
    ships := [carrier, battleship, destroyer, submarine, patrolBoat];
  }

  /** Forwards the move to every ship; each ship tombstones the positions equal to it. */
  method UpdateHitAll(ships: seq<Ship>, move: Pos)
    requires FleetValid(ships)
    modifies Footprints(ships)
    ensures forall k :: 0 <= k < 5 ==> ships[k].positions[..] == Tombstoned(old(ships[k].positions[..]), move)
  {
    for n := 0 to 5
      invariant forall k :: 0 <= k < n ==> ships[k].positions[..] == Tombstoned(old(ships[k].positions[..]), move)
      invariant forall k :: n <= k < 5 ==> ships[k].positions[..] == old(ships[k].positions[..])
    {
      ships[n].UpdateHitPositions(move);
    }
  }

  /** True iff every ship is sunk; stops at the first ship that is not. */
  method AllSunk(ships: seq<Ship>) returns (r: bool)
    requires FleetValid(ships)
    ensures r <==> forall k :: 0 <= k < 5 ==> Sunk(ships[k].positions[..])
  {
    for n := 0 to 5
      invariant forall k :: 0 <= k < n ==> Sunk(ships[k].positions[..])
    {
      var sunk := ships[n].IsSunk();
      if !sunk {
        return false;
      }
    }
    return true;
  }

  /** Every recorded position lies on the board. */
  ghost predicate OnBoard(placed: seq<seq<Pos>>) {
    forall k, t :: 0 <= k < |placed| && 0 <= t < |placed[k]| ==> InBoundsPos(placed[k][t])
  }

  /** The fleet is all sunk exactly when every cell of every placed ship has been played. */
  lemma {:induction false} FleetSunkIffAllPlayed(placed: seq<seq<Pos>>, moves: seq<Pos>)
    requires OnBoard(placed)
    ensures (forall k :: 0 <= k < |placed| ==> Sunk(HitAll(placed[k], moves)))
        <==> (forall k, t :: 0 <= k < |placed| && 0 <= t < |placed[k]| ==> placed[k][t] in moves)
  {
    forall k | 0 <= k < |placed|
      ensures Sunk(HitAll(placed[k], moves)) <==> forall t :: 0 <= t < |placed[k]| ==> placed[k][t] in moves
    {
      SunkIffAllHit(placed[k], moves);
    }
  }

  /** Positions that track the placed ships under the moves so far still do after one more move. */
  lemma TrackOneMore(placed: seq<seq<Pos>>, before: seq<seq<Pos>>, after: seq<seq<Pos>>, moves: seq<Pos>, move: Pos)
    requires |placed| == |before| == |after|
    requires forall k :: 0 <= k < |placed| ==> before[k] == HitAll(placed[k], moves)
    requires forall k :: 0 <= k < |placed| ==> after[k] == Tombstoned(before[k], move)
    ensures forall k :: 0 <= k < |placed| ==> after[k] == HitAll(placed[k], moves + [move])
  {
    forall k | 0 <= k < |placed|
      ensures after[k] == HitAll(placed[k], moves + [move])
    {
      HitAllSnoc(placed[k], moves, move);
    }
  }

  // ---------------------------------------------------------------------------
  // Laying the fleet out on a board

  /** Cells covered by the first n ships of the fleet. */
  const CellsBefore: seq<nat> := [0, 5, 9, 12, 15, 17]

  /** All positions of the placed ships, ship after ship. */
  function Flatten(pss: seq<seq<Pos>>): seq<Pos> {
    if pss == [] then [] else Flatten(pss[..|pss| - 1]) + pss[|pss| - 1]
  }

  lemma FlattenPrefix(pss: seq<seq<Pos>>, n: int)
    requires 0 <= n < |pss|
    ensures Flatten(pss[..n + 1]) == Flatten(pss[..n]) + pss[n]
  {
    assert pss[..n + 1][..n] == pss[..n];
  }

  lemma CellsBeforeStep(n: int)
    requires 0 <= n < 5
    ensures CellsBefore[n + 1] == CellsBefore[n] + FleetLengths[n]
  {
  }

  lemma {:induction false} InFlatten(pss: seq<seq<Pos>>, k: int, t: int)
    requires 0 <= k < |pss| && 0 <= t < |pss[k]|
    ensures pss[k][t] in Flatten(pss)
  {
    var init := pss[..|pss| - 1];
    if k < |pss| - 1 {
      InFlatten(init, k, t);
    }
  }

  /** A ship laid out as a run: n cells from an origin in one direction. */
  ghost predicate RunOf(ps: seq<Pos>, origin: Pos, d: Dir, n: int) {
    ps == RunCells(origin.i, origin.j, d, 0, n)
  }

  /** Cells that are distinct, on the board and free on g0. */
  ghost predicate FreshCells(g0: Grid, ps: seq<Pos>) {
    Distinct(ps) && forall k :: 0 <= k < |ps| ==> InBoundsPos(ps[k]) && !ShipAtPos(g0, ps[k])
  }

  /**
   * Placing one more run whose cells are distinct, on the board and free
   * on the board as it now stands keeps all placed cells distinct, on the
   * board and free on the starting board.
   */
  lemma AddRun(g0: Grid, flat: seq<Pos>, r: seq<Pos>)
    requires FreshCells(g0, flat)
    requires FreshCells(SetCells(g0, flat, Grids.Ship), r)
    ensures FreshCells(g0, flat + r)
    ensures SetCells(SetCells(g0, flat, Grids.Ship), r, Grids.Ship) == SetCells(g0, flat + r, Grids.Ship)
  {
    var g := SetCells(g0, flat, Grids.Ship);
    forall t | 0 <= t < |r|
      ensures r[t] !in flat && !ShipAtPos(g0, r[t])
    {
      CellAtSetCells(g0, flat, Grids.Ship, r[t].i, r[t].j);
    }
    SetCellsAppend(g0, flat, r, Grids.Ship);
  }

  /** Distinct cells overall means no two ships share a cell. */
  lemma {:induction false} DisjointShips(pss: seq<seq<Pos>>)
    requires Distinct(Flatten(pss))
    ensures forall k, l, t, u :: 0 <= k < l < |pss| && 0 <= t < |pss[k]| && 0 <= u < |pss[l]| ==> pss[k][t] != pss[l][u]
  {
    if pss != [] {
      var init, last := pss[..|pss| - 1], pss[|pss| - 1];
      var a := Flatten(init);
      assert Flatten(pss) == a + last;
      assert Distinct(a) by {
        assert forall x :: 0 <= x < |a| ==> a[x] == Flatten(pss)[x];
      }
      DisjointShips(init);
      forall k, l, t, u | 0 <= k < l < |pss| && 0 <= t < |pss[k]| && 0 <= u < |pss[l]|
        ensures pss[k][t] != pss[l][u]
      {
        if l == |pss| - 1 {
          InFlatten(init, k, t);
          var x :| 0 <= x < |a| && a[x] == pss[k][t];
          assert Flatten(pss)[|a| + u] == pss[l][u];
          assert Flatten(pss)[x] == pss[k][t];
        } else {
          assert pss[k] == init[k] && pss[l] == init[l];
        }
      }
    }
  }

  /** Every placed cell is on the board. */
  lemma FlatOnBoard(g0: Grid, pss: seq<seq<Pos>>)
    requires FreshCells(g0, Flatten(pss))
    ensures OnBoard(pss)
  {
    forall k, t | 0 <= k < |pss| && 0 <= t < |pss[k]|
      ensures InBoundsPos(pss[k][t])
    {
      InFlatten(pss, k, t);
    }
  }

  /**
   * One step of laying out the fleet: ship n, placed on fresh cells of the
   * board as it stands, extends the placed cells by its run.
   */
  lemma FleetStep(g0: Grid, flat: seq<Pos>, before: seq<seq<Pos>>, after: seq<seq<Pos>>, n: int)
    requires 0 <= n < 5 && |before| == 5 && |after| == 5 && after == before[n := after[n]] && |after[n]| == FleetLengths[n]
    requires flat == Flatten(before[..n]) && |flat| == CellsBefore[n] && FreshCells(g0, flat)
    requires FreshCells(SetCells(g0, flat, Grids.Ship), after[n])
    ensures flat + after[n] == Flatten(after[..n + 1]) && |flat + after[n]| == CellsBefore[n + 1]
    ensures FreshCells(g0, flat + after[n])
    ensures SetCells(SetCells(g0, flat, Grids.Ship), after[n], Grids.Ship) == SetCells(g0, flat + after[n], Grids.Ship)
  {
    AddRun(g0, flat, after[n]);
    assert after[..n] == before[..n];
    FlattenPrefix(after, n);
  }

  /** A fully laid-out fleet: 17 more Ship cells, and no two ships share a cell. */
  lemma FleetComplete(g0: Grid, placed: seq<seq<Pos>>, flat: seq<Pos>)
    requires |placed| == 5 && flat == Flatten(placed[..5]) && |flat| == 17 && FreshCells(g0, flat)
    ensures Flatten(placed) == flat
    ensures ShipCount(SetCells(g0, flat, Grids.Ship)) == ShipCount(g0) + 17
    ensures forall k, l, t, u :: 0 <= k < l < 5 && 0 <= t < |placed[k]| && 0 <= u < |placed[l]| ==> placed[k][t] != placed[l][u]
  {
    assert placed[..5] == placed;
    DisjointShips(placed);
    ShipCountSetShips(g0, flat);
  }

  /** The board ship k was placed on: g0 with the runs of the ships before it marked Ship. */
  ghost function BoardBefore(g0: Grid, placed: seq<seq<Pos>>, k: nat): Grid
    requires k <= |placed|
  {
    SetCells(g0, Flatten(placed[..k]), Grids.Ship)
  }

  /** Placing ship n leaves the boards the ships up to n were placed on as they were. */
  lemma BoardBeforeStep(g0: Grid, before: seq<seq<Pos>>, after: seq<seq<Pos>>, n: nat)
    requires n < |before| == |after| && after == before[n := after[n]]
    ensures forall k :: 0 <= k <= n ==> BoardBefore(g0, after, k) == BoardBefore(g0, before, k)
  {
    forall k | 0 <= k <= n
      ensures BoardBefore(g0, after, k) == BoardBefore(g0, before, k)
    {
      assert after[..k] == before[..k];
    }
  }

  /** Where the search for ship k's choice starts: just past the one ship k - 1 took, given the indices at of the choices taken. */
  function Start(at: seq<nat>, k: nat): nat
    requires k <= |at|
  {
    if k == 0 then 0 else at[k - 1] + 1
  }

  /** The first n ships lie on runs from the recorded origins in the recorded directions. */
  ghost predicate Runs(placed: seq<seq<Pos>>, origins: seq<Pos>, headings: seq<Dir>, n: nat) {
    n <= 5 && |placed| == 5 && |origins| == n && |headings| == n
    && forall k :: 0 <= k < n ==> RunOf(placed[k], origins[k], headings[k], FleetLengths[k])
  }

  /** Placing ship n on a run keeps the runs of the ships before it. */
  lemma RunsStep(before: seq<seq<Pos>>, after: seq<seq<Pos>>, origins: seq<Pos>, headings: seq<Dir>, n: nat, o: Pos, d: Dir)
    requires Runs(before, origins, headings, n) && n < 5
    requires |after| == 5 && after == before[n := after[n]] && RunOf(after[n], o, d, FleetLengths[n])
    ensures Runs(after, origins + [o], headings + [d], n + 1)
  {
  }
}
