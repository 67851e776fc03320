# Battleship boards, ships and the computer opponent

This project models the core of a console Battleship game for one player against the computer. It is written in Dafny and carries proofs.

- **Board.** The 10×10 grid of cell codes:
  - 0 Empty, 1 Ship, 2 Hit, 3 Miss, 4 ValidPosition, 5 InvalidPosition.
  - It holds the placement check `checkPositionValidity` and the placement itself `placeShipOnBoard`.
  - It converts between a position string such as `"B7"` and row/column indices.
- **DirectionBoard.** A copy of a board on which, for one ship origin, the runs in the directions D, U, R and L that are free are painted ValidPosition. Those directions are collected in a list.
- **Ship.** A name, a length and the ship's positions. A hit overwrites the matching position with the tombstone (-1, -1). A ship is sunk once no position has both components different from -1.
- **ComputerBoard** and **PlayerBoard.** Each lays out the five ships: Carrier 5, Battleship 4, Destroyer 3, Submarine 3 and Patrol Boat 2.
  - The computer draws random origins and directions.
  - The player types them. Each ship's placement is guided by a position board, where every cell is marked as a valid origin or not, and by a direction board.
  - Both boards record hits on their ships and report a win.
- **Computer.** The computer's hunt-and-target strategy on its view of the enemy board:
  - With no pending targets, it plays a random cell that is neither Hit nor Miss.
  - Otherwise it plays a random pending target.
  - After a hit, the empty neighbours of the hit become the new pending targets.

## How the model is built

- **Boards are arrays.** A Java `int[10][10]` board is a `Board` object whose `cells` is a 100-cell `array<int>`, row-major, with cell (i, j) at index 10·i + j. Its ghost `Contents()` is the value `Grid` (`seq<int>`) that every contract speaks about. `Grids` gives the meaning of the checks on such values (`PositionValid`, `AcceptedDirections`, `DirectionGrid`, `SetCells`, …).
- **Composition replaces subclassing.** `DirectionBoard`, `ComputerBoard` and `PlayerBoard` each own a `Board` instead of extending one.
- **Ships are objects.** Each ship's positions are an `array<Pos>` that `UpdateHitPositions` and `AddPositions` change in place. The ghost field `placed` records where each ship was laid. The ghost field `moves` records which moves were recorded against the fleet. The board invariant states that every ship's positions are `HitAll(placed[k], moves)`.
- **Random numbers are parameters.**
  - The computer's origin draws are a finite sequence.
  - The computer's direction pick is a nondeterministic choice among the listed directions.
  - The frontier index picked by `Computer.makeMove` is an argument.
  - The random cells it tries when it has no targets are a sequence of draws.
- **Console input is two sequences of lines.** The program reads one console stream, alternating a position prompt and a direction prompt for each ship. Because that order of reads is fixed, the model splits the stream into two sequences, `positionInputs` and `directionInputs`, each read from its own cursor. If the lines run out before an acceptable answer, the layout reports failure (`ok == false`).

## Model

| member | source | states |
|---|---|---|
| Grids.CellAtSetCell | code/Board.java:244-249 | a write changes only the addressed cell when it is on the board; a write outside the board changes nothing |
| Grids.PositionValidMeaning | code/Board.java:129-167 | for an origin on the board, checkPositionValidity holds iff for some direction the whole run of shipLength cells, origin included, lies on the board and holds no Ship |
| Grids.ShipOriginInvalid | code/Board.java:129-167 | an origin that already holds a Ship is never a valid position |
| Grids.WorksIffFreeRun | code/Board.java:130-138 | for an origin on the board, each direction's edge test plus its loop succeeds exactly when that direction's run is on the board and free of Ship |
| Grids.ChecksSeeOnlyShips | code/Board.java:348-350 | two boards with the same Ship cells agree on checkPositionValidity and on the accepted directions: marks 2 to 5 never block a ship |
| Grids.MarkKeepsShips | code/Board.java:297-309 | writing a mark other than Ship onto non-Ship cells keeps exactly the same Ship cells |
| Grids.ShipCountSetShips | code/Board.java:267-269 | marking n distinct, in-bounds, non-Ship cells as Ship adds exactly n Ship cells |
| Grids.SetCellsAppend | code/Board.java:180-218 | writing one list of cells and then another is writing their concatenation |
| Grids.DirectionGridShips | code/DirectionBoard.java:54-63 | the direction board built from a board has exactly that board's Ship cells |
| Grids.AcceptedDirectionsShape | code/DirectionBoard.java:78-127 | the listed directions are distinct, at most four, empty for ship length 1, and contain a direction iff that direction is accepted |
| Grids.AcceptedWorks | code/DirectionBoard.java:78-127 | a direction accepted from an origin that is free on the main board passes that direction's checkPositionValidity test |
| Grids.DirectionsIffValid | code/DirectionBoard.java:78-127 | on the direction board of g with the origin marked Ship, a direction is accepted iff checkPositionValidity's test for it succeeds on g, so some direction is offered iff the origin was valid (ship length at least 2) |
| Grids.AcceptedRunIsFree | code/DirectionBoard.java:78-127 | every cell of the run of an accepted direction lies on the board and is free on the main board, and the run's cells are distinct |
| Grids.PaintedCellsFree | code/DirectionBoard.java:78-127 | every cell painted ValidPosition is on the board, is not the origin and is not a Ship |
| Grids.AcceptedRunKeepsShips | code/DirectionBoard.java:79-90 | painting one accepted run keeps the Ship cells |
| Grids.PaintStep | code/DirectionBoard.java:78-127 | a board with the same Ship cells accepts the same direction and paints the same run |
| Grids.PaintSequence | code/DirectionBoard.java:78-127 | painting D, U, R, L one after another, each judged on the board the previous one left, paints exactly the runs the unpainted board accepts |
| Grids.ListSequence | code/DirectionBoard.java:78-127 | the directions appended one after another are exactly the accepted directions of the unpainted board, in the order D, U, R, L |
| Boards.DirOfLetter | code/Board.java:187-215 | exactly the strings "D", "U", "R", "L" name a direction, and the direction named has that letter |
| Boards.Board.constructor | code/Board.java:54-61 | a new board has all 100 cells Empty |
| Boards.Board.Copy | code/Board.java:70-77 | the copy has its own cells holding the old board's contents |
| Boards.Board.ContainsPosition | code/Board.java:228-230 | true exactly for rows and columns 0 to 9 |
| Boards.Board.UpdatePosition | code/Board.java:244-249 | writes the symbol at (i, j) when the position is on the board; otherwise the board is unchanged |
| Boards.Board.AddEmpty | code/Board.java:257-259 | the cell becomes Empty; nothing else changes |
| Boards.Board.AddShip | code/Board.java:267-269 | the cell becomes Ship; nothing else changes |
| Boards.Board.AddHit | code/Board.java:277-279 | the cell becomes Hit; nothing else changes |
| Boards.Board.AddMiss | code/Board.java:287-289 | the cell becomes Miss; nothing else changes |
| Boards.Board.AddValidPosition | code/Board.java:297-299 | the cell becomes ValidPosition; nothing else changes |
| Boards.Board.AddInvalidPosition | code/Board.java:307-309 | the cell becomes InvalidPosition; nothing else changes |
| Boards.Board.GetPosition | code/Board.java:323-328 | the cell's value, which is one of the six states, or -1 exactly when the position is off the board |
| Boards.Board.IsEmpty | code/Board.java:337-339 | true iff the position is on the board and its cell is Empty |
| Boards.Board.IsShip | code/Board.java:348-350 | true iff the position is on the board and its cell is Ship |
| Boards.Board.IsHit | code/Board.java:359-361 | true iff the position is on the board and its cell is Hit |
| Boards.Board.IsMiss | code/Board.java:370-372 | true iff the position is on the board and its cell is Miss |
| Boards.Board.IsValidPosition | code/Board.java:381-383 | true iff the position is on the board and its cell is ValidPosition |
| Boards.Board.IsInvalidPosition | code/Board.java:392-394 | true iff the position is on the board and its cell is InvalidPosition |
| Boards.Board.GetBoardCopy | code/Board.java:401-403 | a fresh board, not sharing cells with this one, with equal contents |
| Boards.Board.CheckRun | code/Board.java:130-138 | one direction's loop answers true iff no cell of the run, origin included, is a Ship |
| Boards.Board.CheckPositionValidity | code/Board.java:129-167 | the answer is PositionValid of the board, whose meaning PositionValidMeaning states |
| Boards.Board.PlaceShipOnBoard | code/Board.java:180-218 | returns the run's positions for the direction letter and marks them Ship; for an unknown letter it marks only the origin and returns the origin followed by (0, 0) entries; nothing else changes |
| Boards.Board.MarkRun | code/Board.java:188-215 | one switch arm: the cells after the origin in the direction are marked Ship and recorded in order, so the positions are the whole run and the board is the old one with the run marked |
| Coordinates.UpperString | code/Board.java:431 | upper-cases the ASCII letters of the string and keeps every other character |
| Coordinates.ColumnOf | code/Board.java:429-436 | -1 iff the upper-cased letter is not a column header, otherwise the index of its header |
| Coordinates.LetterIndexOf | code/Board.java:429-436 | the loop returns the header index of the upper-cased letter, or -1 when no header matches |
| Coordinates.ParsePosition | code/Board.java:448-479 | either (-1, -1) or a position on the board whose column header is the string's first letter, upper-cased |
| Coordinates.PositionStringToIndices | code/Board.java:448-479 | the method computes ParsePosition of the string |
| Coordinates.IndicesToPositionString | code/Board.java:491-500 | none exactly off the board; otherwise a 2- or 3-character string that starts with the column header |
| Coordinates.PrintThenParse | code/Board.java:448-500 | parsing the printed form of a position on the board gives the position back |
| Coordinates.ParseThenPrint | code/Board.java:448-500 | printing an accepted string's position gives back the string upper-cased, so the accepted strings are the canonical forms up to letter case |
| Coordinates.ParseIgnoresCase | code/Board.java:429-479 | parsing ignores letter case: a string and its upper-casing name the same position |
| Coordinates.AcceptedIffPrinted | code/Board.java:448-500 | a string is accepted iff its upper-casing is the printed form of some position on the board |
| DirectionBoards.JoinedLayout | code/DirectionBoard.java:168-183 | the joined list has length 3·n−2 and holds each direction's letter with ", " between letters |
| DirectionBoards.DirectionsStringLayout | code/DirectionBoard.java:168-183 | the list text is "[", then the letters separated by ", ", then "]" |
| DirectionBoards.ListContainsMeaning | code/DirectionBoard.java:154-156 | the list contains a string iff the string is the letter of a direction in the list |
| DirectionBoards.DirectionBoard.constructor | code/DirectionBoard.java:40-44 | a fresh board equal to the given board with every Empty cell made InvalidPosition, and an empty direction list |
| DirectionBoards.DirectionBoard.GenerateDirectionBoard | code/DirectionBoard.java:54-63 | every Empty cell becomes InvalidPosition; every other cell is kept |
| DirectionBoards.DirectionBoard.CheckDirection | code/DirectionBoard.java:79-90 | one direction: the list gains that direction iff the run beyond the origin fits and is Ship-free, and exactly that run is painted ValidPosition |
| DirectionBoards.DirectionBoard.UpdateValidPositionDirections | code/DirectionBoard.java:78-127 | the list gains exactly the accepted directions of the board as it was, in the order D, U, R, L, and exactly their runs are painted |
| DirectionBoards.DirectionBoard.ValidDirection | code/DirectionBoard.java:137-144 | true iff the upper-cased string is one of "D", "U", "R", "L" |
| DirectionBoards.DirectionBoard.PossibleDirectionsContains | code/DirectionBoard.java:154-156 | true iff the upper-cased string is the letter of a listed direction |
| DirectionBoards.DirectionBoard.GetPossibleDirectionsString | code/DirectionBoard.java:168-183 | the loop builds the bracketed, comma-separated list text whose layout DirectionsStringLayout states |
| DirectionBoards.DirectionBoard.GetPossibleDirectionsElement | code/DirectionBoard.java:192-198 | none iff the index is out of range; otherwise the letter of the listed direction at that index |
| Ships.TombstonedAt | Ship.java:39-46 | one move turns exactly the positions equal to it into the tombstone and keeps the length |
| Ships.TombstonedIdempotent | Ship.java:39-46 | recording the same move twice is recording it once |
| Ships.TombstonedChangesIff | Ship.java:39-46 | a move other than the tombstone changes the positions iff it is one of them |
| Ships.HitAllSnoc | Ship.java:39-46 | recording one more move tombstones the positions left so far |
| Ships.HitAllAt | Ship.java:39-46 | after a sequence of moves, a position is the tombstone iff it was among the moves, and is unchanged otherwise |
| Ships.HitAllOrderIrrelevant | Ship.java:39-46 | only which cells were played matters, not their order or repetition |
| Ships.SunkIffAllHit | Ship.java:55-71 | a ship on the board is sunk exactly when every one of its positions has been played |
| Ships.Ship.constructor | Ship.java:23-27 | a ship with the name, the length and length positions, each (0, 0) |
| Ships.Ship.UpdateHitPositions | Ship.java:39-46 | the positions become Tombstoned(old positions, move) |
| Ships.Ship.IsSunk | Ship.java:55-71 | true iff no position has both components different from -1 |
| Ships.Ship.AddPositions | Ship.java:82-90 | copies the given positions when there are exactly length of them; otherwise nothing changes |
| Fleets.FleetCells | code/ComputerBoard.java:36-41 | five ships of lengths 5, 4, 3, 3, 2: 17 cells in all |
| Fleets.NewFleet | code/ComputerBoard.java:36-41 | five fresh, distinct ships with the fleet's lengths and all positions (0, 0) |
| Fleets.UpdateHitAll | code/ComputerBoard.java:95-102 | every ship's positions are tombstoned by the move |
| Fleets.AllSunk | code/ComputerBoard.java:110-117 | true iff every ship is sunk |
| Fleets.FleetSunkIffAllPlayed | code/ComputerBoard.java:110-117 | a fleet on the board is all sunk exactly when every cell of every ship has been played |
| Fleets.TrackOneMore | code/ComputerBoard.java:95-102 | tombstoning positions that are HitAll of the moves gives HitAll of the moves plus the new move |
| Fleets.AddRun | code/ComputerBoard.java:73-74 | placing one more run of fresh cells keeps all placed cells fresh and distinct, and marking it Ship extends the earlier marking |
| Fleets.DisjointShips | code/ComputerBoard.java:59-75 | when all placed cells are distinct, no two ships share a cell |
| Fleets.FlatOnBoard | code/ComputerBoard.java:59-75 | every placed cell is on the board |
| Fleets.FleetStep | code/ComputerBoard.java:59-75 | placing ship n extends the cells placed so far by exactly its run, keeps them fresh, and marks them Ship |
| Fleets.FleetComplete | code/ComputerBoard.java:59-75 | after all five ships, the board has 17 more Ship cells and no two ships overlap |
| ComputerBoards.ComputerBoard.constructor | code/ComputerBoard.java:33-43 | an empty board, an empty direction board and the five new ships |
| ComputerBoards.ComputerBoard.ResetDirectionBoard | code/ComputerBoard.java:82-84 | a fresh direction board built from the current board, with an empty list |
| ComputerBoards.ComputerBoard.DrawOrigin | code/ComputerBoard.java:63-67 | returns the first drawn origin from the cursor that passes checkPositionValidity, every earlier draw failing it; when the draws run out, every draw from the cursor failed |
| ComputerBoards.ComputerBoard.ChooseDirection | code/ComputerBoard.java:68-71 | the list is the accepted directions on the direction board, and the chosen letter names one of them |
| ComputerBoards.ComputerBoard.PlaceAndRecord | code/ComputerBoard.java:73-74 | the ship's run is marked Ship on the board and copied into the ship's positions |
| ComputerBoards.ComputerBoard.PlaceNextShip | code/ComputerBoard.java:59-75 | the next ship is laid on a run of fresh cells from the first valid draw after the cursor, in an accepted direction; it fails only when the draws run out, every draw from the cursor being invalid, and then nothing changes |
| ComputerBoards.ComputerBoard.PlaceDrawnShip | code/ComputerBoard.java:59-75 | one loop iteration extends the layout so far by ship n's run, origin, heading and draw; on failure every draw left was invalid for ship n on the board as it stands |
| ComputerBoards.ComputerBoard.GenerateComputerBoard | code/ComputerBoard.java:51-76 | ship k starts at draw drawAt[k], the first valid draw after ship k - 1's on the board as ship k found it; failure happens only when every draw left is invalid for the next ship, with the ships so far placed; on success each ship lies on a straight in-bounds run of its length, the runs are pairwise disjoint, exactly those 17 cells become Ship, and each ship's positions are its run |
| ComputerBoards.ComputerBoard.UpdateHitShipPositions | code/ComputerBoard.java:95-102 | the move is recorded: every ship's positions become HitAll of its run and the moves so far |
| ComputerBoards.ComputerBoard.CheckWin | code/ComputerBoard.java:110-117 | true iff every cell of every ship has been played |
| ComputerBoards.DrawnLayoutStep | code/ComputerBoard.java:59-75 | a ship placed from the first valid draw after the last one taken extends the record of first valid draws |
| ComputerBoards.DrawnShipStep | code/ComputerBoard.java:59-75 | one more ship, placed on a free run from the first valid draw, extends the runs, the drawn layout and the marked cells |
| PlayerBoards.SweepMeaning | code/PlayerBoard.java:73-83 | after the sweep, a cell is ValidPosition iff it is a valid origin, Ship cells stay Ship, and every other cell is InvalidPosition |
| PlayerBoards.SweepCell | code/PlayerBoard.java:75-81 | the cell gets its swept value; nothing else changes |
| PlayerBoards.SweepPositionBoard | code/PlayerBoard.java:73-83 | the nested loop turns the position board into the sweep of its old contents |
| PlayerBoards.TypedLayoutStep | code/PlayerBoard.java:64-99 | a ship chosen from lines past every line used so far extends the typed layout, keeping the lines in increasing order |
| PlayerBoards.FirstAcceptedLinesStep | code/PlayerBoard.java:64-99 | a ship placed from the first accepted lines after the last ones taken extends the record of first accepted lines |
| PlayerBoards.TypedShipStep | code/PlayerBoard.java:64-99 | one more ship, placed on a free run from the first accepted lines, extends the runs, the typed layout, the first-accepted record and the marked cells |
| PlayerBoards.PlayerBoard.constructor | code/PlayerBoard.java:35-45 | an empty board, position board and direction board, and the five new ships |
| PlayerBoards.PlayerBoard.ResetPositionBoard | code/PlayerBoard.java:180-182 | a fresh position board equal to the board |
| PlayerBoards.PlayerBoard.ResetDirectionBoard | code/PlayerBoard.java:188-190 | a fresh direction board built from the board, with an empty list |
| PlayerBoards.PlayerBoard.AcceptPosition | code/PlayerBoard.java:121-131 | an input is accepted iff it parses and its cell is ValidPosition on the position board, and the position accepted is the parsed one |
| PlayerBoards.PlayerBoard.AcceptDirection | code/PlayerBoard.java:158-159 | an input is accepted iff its upper-cased form is the letter of a listed direction, and the answer is that letter |
| PlayerBoards.PlayerBoard.ReadPosition | code/PlayerBoard.java:110-139 | returns the parse of the first line from the cursor that getPlayerPosition accepts, with the cursor just past it; every line skipped was rejected; when none is accepted the cursor is at the end |
| PlayerBoards.PlayerBoard.ReadDirection | code/PlayerBoard.java:147-174 | returns the upper-cased form of the first line from the cursor that names a listed direction, with the cursor just past it; every line skipped was rejected; when none is accepted the cursor is at the end |
| PlayerBoards.PlayerBoard.SelectOrigin | code/PlayerBoard.java:73-90 | the origin is the parse of the first typed line whose cell is ValidPosition on the swept position board (every earlier line was rejected); it passes checkPositionValidity on the board and is marked Ship on the swept position board |
| PlayerBoards.PlayerBoard.SelectDirection | code/PlayerBoard.java:91-96 | the list is the accepted directions on the direction board; the direction is the upper-casing of the first typed line naming one of them (every earlier line was rejected) |
| PlayerBoards.PlayerBoard.ChooseShip | code/PlayerBoard.java:60-96 | both helper boards are reset and the main board is untouched; the origin and direction are the first accepted typed lines, the origin is valid and the direction accepted for it; it fails only when a line sequence runs out: no position line is accepted, or no direction line is accepted after the first accepted position |
| PlayerBoards.PlayerBoard.PlaceAndRecord | code/PlayerBoard.java:97-98 | the ship's run is marked Ship on the board and copied into the ship's positions |
| PlayerBoards.PlayerBoard.PlacePlayerShip | code/PlayerBoard.java:60-98 | the ship is laid on a run of fresh cells from the position typed on the first accepted position line, heading in the direction typed on the first accepted direction line; the lines before them were rejected; it fails only when a line sequence runs out, and then nothing changes |
| PlayerBoards.PlayerBoard.PlaceTypedShip | code/PlayerBoard.java:64-99 | one loop iteration extends the layout so far by ship n's run and by the lines its origin and direction were typed on, the first accepted ones; on failure the lines ran out as ChooseShip states |
| PlayerBoards.PlayerBoard.GeneratePlayerBoard | code/PlayerBoard.java:55-100 | ship k starts at the position typed on line posAt[k] and heads in the direction typed on line dirAt[k], the first lines accepted after ship k - 1's on the board as ship k found it; failure happens only when the lines run out for the next ship, with the ships so far placed; on success each ship lies on a straight in-bounds run of its length, the runs are pairwise disjoint, exactly those 17 cells become Ship, and each ship's positions are its run |
| PlayerBoards.PlayerBoard.UpdateHitShipPositions | code/PlayerBoard.java:201-208 | the move is recorded: every ship's positions become HitAll of its run and the moves so far |
| PlayerBoards.PlayerBoard.CheckWin | code/PlayerBoard.java:216-223 | true iff every cell of every ship has been played |
| Computers.NeighbourMovesMeaning | code/Computer.java:156-179 | the new targets are at most four, distinct, and are exactly the Empty on-board cells adjacent to the hit |
| Computers.FrontierAfterMove | code/Computer.java:132-144 | marking a cell that is not a pending target keeps the targets distinct, on the board and Empty |
| Computers.RecordMove | code/Computer.java:132-144 | a move onto an Empty cell was not played before, and after it is marked, the played record is the old one plus that move |
| Computers.FrontierRemove | code/Computer.java:187-191 | removing one pending target keeps the targets distinct, on the board and Empty, and the removed one is gone |
| Computers.Computer.constructor | code/Computer.java:33-38 | an empty enemy view, no pending targets and nothing played |
| Computers.Computer.ResetPossibleMoves | code/Computer.java:196-198 | the pending targets become empty, nothing played changes, and the computer's invariant is kept |
| Computers.Computer.RemovePossibleMovesElement | code/Computer.java:187-191 | an in-range index removes exactly that target and keeps the rest in order; otherwise nothing changes |
| Computers.Computer.GetPossibleMovesElement | code/Computer.java:233-239 | none iff the index is out of range; otherwise a pending target, which is on the board and Empty |
| Computers.Computer.CheckNeighbour | code/Computer.java:159-163 | a neighbour on the board that is Empty is appended to the targets |
| Computers.Computer.UpdatePossibleMoves | code/Computer.java:156-179 | the targets become exactly the Empty neighbours of the hit, in the order down, up, right, left |
| Computers.Computer.CheckComputerMove | code/Computer.java:132-144 | the cell becomes Hit if the player has a Ship there and Miss otherwise; after a hit the targets are the hit's Empty neighbours |
| Computers.Computer.DrawMove | code/Computer.java:105-110 | returns the first drawn cell that is neither Hit nor Miss |
| Computers.Computer.MakeMove | code/Computer.java:99-121 | plays an unplayed cell: the first open draw when there are no targets, otherwise the picked target, which is removed; records the cell as Hit or Miss and updates the targets |

## Left out

- **Console output.** Printing boards and messages (`printBoard`, `Colours`, the prompts) is console output only and is not modelled.
- **Other classes.** `GameManager`, `BattleshipMain`, `Player` and the `PlayerPosition` interface are not part of this model. They hold the game loop, the player's moves against the computer, and the turn order.
- **Random numbers.** `java.util.Random` is replaced by parameters: a finite stream of origin draws, a nondeterministic choice of direction, an index into the pending targets, and a stream of cell draws.
- **Rejection loops.** The loops that retry until a random draw or a typed answer is acceptable are modelled on finite streams. The model reports running out (`ok == false`) where the program would keep waiting, so it does not speak about non-termination. The contracts say that `ok == false` happens only then: every draw or line left after the last one taken was rejected.
- **Scanner errors.** The `Scanner` input and its `try`/`catch` recovery become lines of text. A line that is not acceptable is skipped, as the program re-prompts.
- **Letter case and digits.** Only ASCII letters are upper-cased and only ASCII digits are digits. The non-ASCII behaviour of `Character.toUpperCase` and `Character.isDigit` is not modelled.
- **Board layout.** The `int[][]` board is a flat 100-cell array. Out-of-range reads give -1 and out-of-range writes do nothing, as the program's own guards make them. Java's array exceptions are not modelled.
- **Trivial getters.** `getBoard` (which hands out the raw array, so callers alias it) and the getters `getLength`, `getShips`, `getName`, `getPositions`, `getPossibleDirections`, `getPossibleDirectionsLength` and `getPossibleMovesLength` are not modelled as members; the fields are read directly.
- **The computer's own board.** `Computer`'s own `ComputerBoard` field and the methods that only forward to it (`generateBoard`, `printBoard`, `updateHitShipPositions`, `checkWin`, `addHit`, `addMiss`, `getBoard`, `getBoardCopy`, `getShips`) are not modelled. The forwarded operations are modelled on `ComputerBoard` itself.
- **Unused constructor.** `DirectionBoard`'s no-argument constructor is not modelled. The core never calls it.
- **Ship lengths.** A ship's length is a `nat`. A negative length, which would make Java throw when allocating the positions, cannot be written.
- Computers.Computer.CheckComputerMove: requires a cell on the board that is Empty in the computer's view and not among the pending targets. The method is private and is called only from `makeMove`, which always gives it such a cell.
- Computers.Computer.MakeMove: requires that, when there are no pending targets, some draw in the stream is neither Hit nor Miss. The program would keep drawing forever if none were.
- Boards.Board.PlaceShipOnBoard: requires a ship length of at least 1. With length 0 the Java method fails with an array index exception, which is not modelled; the program never places such a ship.
