# Janggi rules engine, modelled in Dafny

This project models the rules engine of a Janggi (Korean chess) game: the 10 x 9 board
and its opening position, the move generator of each piece kind, the legality filter that
drops moves exposing the mover's own general, the check and checkmate arbiter, the move
transition `make_move`, and the parser for cell names such as `"e9"`. Everything is stated
over immutable values. A board is a `map<Pos, Piece>`, and a missing key is an empty cell.
The game is a record of board, turn, state and check flags. Each operation of the game
object is a pure function, or a method where the original loops and mutates in place.

Modules, in dependency order:

- `Wrappers` (`wrappers.dfy`): `Option`.
- `Pieces` (`pieces.dfy`): sides, piece kinds, pieces.
- `Board` (`board.dfy`): cells, the palace list, directions and rays, the opening position.
- `Layout` (`layout.dfy`): where each piece starts, and how many of each there are.
- `Moves` (`moves.dfy`): the move record with its snapshots of the source and destination
  cells, and the filter's simulate and undo steps.
- `Generators` (`generators.dfy`): the per-kind move generators and the board scan that
  collects the possible moves of one side.
- `Rules` (`rules.dfy`): each generator's rule stated declaratively. Each rule has a
  proof that the generator offers exactly the moves the rule allows.
- `Legality` (`legality.dfy`): locating a general, the exposure test, the valid-move
  filter (as a function, and as the in-place loop), and its characterisation.
- `Coordinates` (`coordinates.dfy`): cell names.
- `Janggi` (`game.dfy`): turn changes, the check and checkmate arbiter, `make_move`.
- `Scenarios` (`scenarios.dfy`): concrete positions from the opening and from small boards.
- `CannonLeak` (`cannon_leak.dfy`): the cannon scan as written, beside the corrected one
  (see Findings).

Places where the model follows the code rather than the usual Janggi rules:

- The elephant never captures. Its destination test compares the occupant with a side
  name, which a piece never equals, so only empty cells qualify.
  `Rules.ElephantReach` states this directly.
- The soldier steps diagonally forward from any palace cell to any palace cell. The
  chariot slides one or two diagonal steps from any palace cell. Guard and general step
  in all eight directions inside the palace. None of these is restricted to the palace's
  marked diagonals.
- The arbiter scans the mover's *valid* moves, which have already been filtered for
  self-check, when it looks for a hit on the opposing general.
- The filter plays a pass by writing the piece onto its own cell and then clearing that
  cell. While the opponent's replies are generated, the piece is therefore missing from
  the board. A piece that alone shields its general is refused its pass, although the
  pass changes nothing (`Scenarios.ScreenCannotPass`). A piece that is the only screen of
  an enemy cannon aimed at its general is granted its pass, although the general stays
  attacked (`Scenarios.PassLeavesGeneralAttacked`).
- The general is looked up only on the palace cells, in the order of the palace list.

## Model

| member | source | states |
|---|---|---|
| Board.FortressShape | JanggiGame.py:277-279 | a cell is in the palace list exactly when it lies in one of the two 3 x 3 palace blocks, and every palace cell is on the board |
| Board.Put | JanggiGame.py:42-44 | writing a cell changes that cell and no other |
| Layout.InitialAt | JanggiGame.py:90-124 | every cell of the opening board holds the piece the starting layout prescribes for it: RED on rows 0-4 and BLUE mirrored on rows 5-9, with back rank, general, cannons and soldiers |
| Layout.InitialSquares | JanggiGame.py:90-124 | the cells holding a given piece at the opening are exactly its prescribed starting cells, and their number is that kind's complement |
| Layout.InitialLayout | JanggiGame.py:90-124 | the opening board lies on the 10 x 9 grid and holds 1 general, 2 guards, horses, elephants, chariots and cannons, and 5 soldiers per side: 32 pieces |
| Layout.TallyIsCardinality | JanggiGame.py:90-124 | counting the cells of distinct pieces one piece at a time gives the number of cells holding any of them |
| Moves.Simulate | JanggiGame.py:213-216 | the filter's trial move clears the source and puts the source piece on the destination; every other cell is kept |
| Moves.Restore | JanggiGame.py:230-231 | undoing writes the snapshot pieces back to source and destination and keeps every other cell |
| Moves.RoundTrip | JanggiGame.py:213-230 | when the move's snapshots match the board, trying the move and undoing it restores the board exactly |
| Moves.SimulatedPassRemoves | JanggiGame.py:213-216 | trying a pass removes the passing piece from the board |
| Generators.Pass | JanggiGame.py:251-252 | the pass is offered exactly when the side to move is not flagged in check |
| Generators.Steps | JanggiGame.py:463-468 | a step list offers exactly the moves to a neighbour along one of the listed directions, inside the region, onto an empty or enemy cell |
| Generators.CellMoves | JanggiGame.py:239-242 | a cell yields moves only when it holds a piece of the side to move, and each move starts there |
| Generators.ScannedMoves | JanggiGame.py:235-243 | every move of the row-by-row board scan starts on a board cell holding a piece of the side to move, with snapshots of that board |
| Generators.AllPossibleMoves | JanggiGame.py:235-243 | every possible move starts on a board cell holding a piece of the side to move |
| Generators.SoldierMoves | JanggiGame.py:245-275 | every soldier move starts on the soldier with the board's snapshots, and out of check the list opens with the pass; which moves are offered is `Rules.SoldierRule` |
| Generators.ChariotMoves | JanggiGame.py:285-321 | every chariot move starts on the chariot with the board's snapshots, and out of check the list opens with the pass; which moves are offered is `Rules.ChariotRule` |
| Generators.HorseMoves | JanggiGame.py:323-344 | every horse move starts on the horse with the board's snapshots, and out of check the list opens with the pass; which moves are offered is `Rules.HorseRule` |
| Generators.ElephantMoves | JanggiGame.py:346-371 | every elephant move starts on the elephant with the board's snapshots, and out of check the list opens with the pass; which moves are offered is `Rules.ElephantRule` |
| Generators.CannonMoves | JanggiGame.py:375-383 | every cannon move starts on the cannon with the board's snapshots, and out of check the list opens with the pass; which moves are offered is `Rules.CannonRule` |
| Generators.PalaceMoves | JanggiGame.py:454-484 | every guard or general move starts on the piece with the board's snapshots, and out of check the list opens with the pass; which moves are offered is `Rules.PalaceRule` |
| Generators.PieceMoves | JanggiGame.py:16-18 | the generator chosen by the piece's kind issues every move from the piece's cell, and out of check it opens with the pass |
| Rules.SoldierRule | JanggiGame.py:245-275 | the soldier is offered exactly the pass out of check, the step forward, left or right onto an empty or enemy board cell, and inside a palace the forward diagonal step onto an empty or enemy palace cell |
| Rules.SoldierNeverRetreats | JanggiGame.py:250-275 | no soldier move goes backward: it stays on its row or advances one row towards the enemy |
| Rules.PalaceRule | JanggiGame.py:454-484 | guard and general are offered exactly the pass out of check and the one-cell steps in any of eight directions onto an empty or enemy palace cell |
| Rules.HorseRule | JanggiGame.py:323-344 | the horse is offered exactly the pass out of check and the 2-by-1 jumps onto an empty or enemy board cell, whose orthogonal first cell is on the board and empty |
| Rules.ElephantRule | JanggiGame.py:346-371 | the elephant is offered exactly the pass out of check and the 3-by-2 jumps whose orthogonal first cell, diagonal middle cell and destination are all on the board and empty |
| Rules.ChariotRule | JanggiGame.py:285-321 | the chariot is offered exactly the pass out of check, every cell along its row or column over empty cells that is empty or enemy, and the one- or two-step palace diagonals over an empty middle cell |
| Rules.CannonRule | JanggiGame.py:420-451 | the cannon is offered exactly the pass out of check and the cells along its row or column beyond exactly one screen, which is not a cannon, that are empty or hold an enemy other than a cannon |
| Rules.LineSlideSound | JanggiGame.py:309-321 | a slide along a line from a board cell ends on a board cell in line with it, over empty cells, on an empty or takeable cell |
| Rules.LineSlideComplete | JanggiGame.py:309-321 | every board cell in line with the piece, over empty cells, and empty or takeable, is reached by the slide towards it |
| Rules.PieceRule | JanggiGame.py:16-18 | dispatching on the piece kind, the generator for a board cell offers exactly the moves that kind's rule allows |
| Rules.NoRuleStandsStill | JanggiGame.py:245-484 | no piece rule allows a move onto the piece's own cell, so standing still is only ever the pass |
| Rules.PassRule | JanggiGame.py:251-252 | every piece kind's generator offers the pass exactly when its side is not in check |
| Rules.DestinationRules | JanggiGame.py:245-484 | every generated move other than the pass starts on the piece and ends on a board cell that is empty or enemy; guards and generals stay in the palace; elephants only land on empty cells |
| Rules.AllPossibleSound | JanggiGame.py:235-243 | every possible move is a move its source piece's generator offers |
| Rules.AllPossibleComplete | JanggiGame.py:235-243 | every move the generator offers a piece of the side to move is a possible move |
| Rules.AllPossibleRule | JanggiGame.py:235-243 | a move is possible exactly when it starts on a board cell holding a piece of the side to move and that piece's rule allows it, or it is the pass out of check |
| Legality.Checks.Set | JanggiGame.py:78-80 | setting one side's check flag leaves the other side's flag as it was |
| Legality.FindGeneral | JanggiGame.py:195-202 | the search fails exactly when no listed cell holds the side's general; a cell it finds holds that general and is the first listed cell that does |
| Legality.GeneralLocation | JanggiGame.py:195-202 | the general is not found exactly when no palace cell holds it; otherwise it is found on the first cell of the palace list that holds it |
| Legality.GeneralLocationRule | JanggiGame.py:195-202 | the general is located exactly when some palace cell holds it, and it is located on such a cell |
| Legality.UniqueGeneral | JanggiGame.py:195-202 | when one palace cell alone holds the side's general, that is the cell located |
| Legality.FindGeneralFrame | JanggiGame.py:195-202 | boards that differ only at a cell where neither holds the general locate it alike |
| Legality.Filter | JanggiGame.py:228-229 | the filter keeps exactly the moves the test accepts, and never more moves than it was given |
| Legality.FilterNone | JanggiGame.py:212-229 | when the test rejects every move, the filter leaves no move at all |
| Legality.ValidMoves | JanggiGame.py:204-233 | a move is valid exactly when it is possible and playing it leaves no opponent move onto the mover's general |
| Legality.HitsGeneral | JanggiGame.py:217-227 | the attack test answers whether the general was located and some enemy move ends on its cell |
| Legality.ProbeMove | JanggiGame.py:212-232 | one probe reports whether the move exposes the general and hands back the board and turn it was given |
| Legality.KeepIfSafe | JanggiGame.py:212-232 | one probe appends the move to the valid list exactly when it does not expose the general, and restores board and turn |
| Legality.KeepSafeMoves | JanggiGame.py:210-233 | the filter loop returns exactly the safe moves of its input, in order, and restores board and turn |
| Legality.GetAllValidMoves | JanggiGame.py:204-233 | the in-place filter computes the valid moves of the side to move and leaves board and turn unchanged |
| Legality.ValidMovesRule | JanggiGame.py:204-233 | a move is valid exactly when its source holds a piece of the side to move, the piece's rule (or the pass out of check) allows it, and it does not expose the general |
| Legality.NoPassInCheck | JanggiGame.py:251-252 | a side flagged in check is offered no pass among its valid moves |
| Coordinates.RowIndex | JanggiGame.py:176 | a row name parses only to a row index of the board |
| Coordinates.ColIndex | JanggiGame.py:177 | a column letter parses only to a column index of the board |
| Coordinates.ConvertLocation | JanggiGame.py:174-186 | a parsed name always denotes a board cell, and the empty name fails |
| Coordinates.ConvertNotation | JanggiGame.py:174-186 | the name of every board cell parses back to that cell |
| Coordinates.NotationConvert | JanggiGame.py:174-186 | every name that parses is the name of the cell it parses to |
| Coordinates.ConvertLocationRule | JanggiGame.py:174-186 | a name parses exactly when it is a letter a to i followed by a number 1 to 10 |
| Janggi.ChangeTurns | JanggiGame.py:188-193 | changing turns gives the turn to the other side and keeps board, state and flags |
| Janggi.TurnsAlternate | JanggiGame.py:188-193 | two turn changes restore the game |
| Janggi.CheckScan | JanggiGame.py:141-152 | the arbiter's loop keeps the board, the turn and the mover's flag; it raises the opponent's flag exactly when some scanned move ends on the target; the state either stays or becomes the mover's win |
| Janggi.Verdict | JanggiGame.py:145-150 | a hit flags the opponent in check and keeps board, turn and the mover's flag; the state changes only to the mover's win, and only when the flagged opponent has no valid move |
| Janggi.CheckScanVerdict | JanggiGame.py:141-152 | the arbiter's loop flags the opponent and decides the game as soon as one move hits the opposing general, and changes nothing when none does |
| Janggi.CheckInCheck | JanggiGame.py:134-152 | the arbiter keeps board, turn and the mover's flag; the opponent's flag is raised exactly when a valid move of the mover hits its general; the mover has won exactly when that happens and the flagged opponent has no valid move |
| Janggi.Apply | JanggiGame.py:160-165 | a pass leaves the board as is; otherwise the destination gets the source piece, the source is emptied, and nothing else changes |
| Janggi.Play | JanggiGame.py:154-172 | a request is accepted exactly when the game is unfinished and the move is valid; a refused request changes nothing; an accepted one plays the move, clears the mover's flag, judges check and checkmate, and flips the turn, leaving the game unfinished or won by the mover |
| Janggi.MakeMove | JanggiGame.py:154-172 | a finished game refuses every request unchanged; otherwise the two names are parsed and the move is played |
| Janggi.OfferedIsValid | JanggiGame.py:502-506 | a request matches a valid move by coordinates exactly when the requested move, with the board's snapshots, is itself valid |
| Janggi.AcceptedMoveFollowsRules | JanggiGame.py:154-172 | an accepted move starts on a board cell holding a piece of the side to move and obeys that piece's rule, or is the pass out of check |
| Janggi.AcceptedMoveStaysOnBoard | JanggiGame.py:160-165 | an accepted move ends on the board, so a board on the grid stays on the grid |
| Janggi.AcceptedMoveIsSafe | JanggiGame.py:204-233 | after an accepted move other than the pass, no possible move of the opponent ends on the mover's general (the pass is excluded, see `Scenarios.PassLeavesGeneralAttacked`) |
| Janggi.FinishedGameIsFrozen | JanggiGame.py:156-172 | once the game is won, every request is refused and the game stays as it is |
| Scenarios.NewGame | JanggiGame.py:10-22 | a new game has BLUE to move, is unfinished, flags nobody, has 32 pieces on the grid and the generals on e9 and e2 |
| Scenarios.OpeningGeneral | JanggiGame.py:102-104 | at the opening the general search finds BLUE's general on (8, 4) and RED's on (1, 4) |
| Scenarios.NoScreenOnB | JanggiGame.py:420-451 | at the opening BLUE's cannon on b8 has no screen towards b5 |
| Scenarios.NoCannonMoveB8B5 | JanggiGame.py:420-451 | at the opening no possible move takes BLUE's cannon from b8 to b5 |
| Scenarios.CannonWithoutScreenRefused | JanggiGame.py:154-172 | the opening request b8 to b5 is refused and the game is unchanged |
| Scenarios.GeneralStep | JanggiGame.py:470-484 | every possible move of a general goes at most one cell in each direction |
| Scenarios.LoneGeneralStepValid | JanggiGame.py:204-233 | with only the two generals on the board, BLUE's general may step from e9 to e8 |
| Scenarios.LoneGeneralStepNoCheck | JanggiGame.py:134-152 | after that step BLUE threatens nothing |
| Scenarios.LoneGeneralStep | JanggiGame.py:154-172 | the request e9 to e8 is accepted, moves the general, hands the turn to RED and leaves the game unfinished with nobody in check |
| Scenarios.PassIsPossible | JanggiGame.py:251-252 | out of check, every piece of the side to move may pass |
| Scenarios.ChariotHits | JanggiGame.py:309-321 | a chariot reaches every empty or enemy board cell along its row or column over empty cells |
| Scenarios.ChariotBlocked | JanggiGame.py:309-321 | a chariot never jumps over a piece |
| Scenarios.PassExposes | JanggiGame.py:213-226 | the pass of the only piece between an enemy chariot and its general exposes the general, as the filter plays it |
| Scenarios.ScreenCannotPass | JanggiGame.py:204-233 | that piece's pass is possible but not valid, although the pass leaves the board unchanged and the chariot cannot reach the general |
| Scenarios.SafePassValid | JanggiGame.py:204-233 | out of check, a piece's pass is valid when, tried with the piece lifted, it exposes nothing |
| Scenarios.PassLeavesGeneralAttacked | JanggiGame.py:154-172 | BLUE's soldier on e6, the only screen between RED's cannon on e4 and BLUE's general on e9, is accepted its pass, and the board it leaves has BLUE's general attacked by the cannon |
| Scenarios.FleeCaught | JanggiGame.py:204-233 | a general stepping onto a cell in line with an enemy chariot, with nothing but its old cell in between, is exposed there |
| Scenarios.NetIsMate | JanggiGame.py:204-233 | RED's lone general on d1, flagged in check, with BLUE's chariots on a1 and i2 and the cells between empty, has no valid move |
| Scenarios.Checkmate | JanggiGame.py:134-172 | BLUE's chariot going from a10 to a1 against that general is accepted, flags RED in check, and wins the game for BLUE |
| CannonLeak.CannonLinesAsWritten | JanggiGame.py:420-451 | the cannon scan as written, with the screen flag carried from one direction to the next; every move starts on the cannon |
| CannonLeak.LeakFromEdge | JanggiGame.py:420-451 | a direction leaves the screen flag set exactly when its screen stands nine cells away with empty cells before it |
| CannonLeak.AsWrittenAgrees | JanggiGame.py:420-451 | without a piece nine cells north, south or west of the cannon, the written scan and the per-direction scan offer the same moves |
| CannonLeak.CannonLeakExample | JanggiGame.py:420-451 | a cannon on c1 with a soldier on c10 is offered the unscreened step to b1 by the written scan but not by the corrected one |

## Left out

- `main.py` and `show_janggi_board`: a graphical front end and a console board printer. They are
  input and output only.
- The getters and setters, `is_in_check`, `check_in_board`, `get_tile_occupant` and the
  `_call_move` table are folded into the record fields, `InBoard`, `Get` and `PieceMoves`.
  `Move`'s getters and `Piece`'s class hierarchy become the `Move` and `Piece` datatypes.
- The cannon's palace-diagonal branch (JanggiGame.py:384-419) is not modelled: the model
  offers no diagonal cannon moves. As written, the branch builds each of its moves with the
  destination cell's occupant in place of the destination column (lines 397 and 402), and
  building the move indexes the board with it (line 499), which raises. So whenever the
  branch would offer a move, generating the possible moves fails, for either side; on
  every other board it offers nothing. The screen flag it sets is always cleared again
  before the orthogonal scan begins.
- Janggi.MakeMove: a name that does not parse makes the original fail while building the
  move, not refuse it. The model therefore requires both names to parse while the game is
  unfinished, and covers the refusal of finished games for any names.
- Janggi.AcceptedMoveIsSafe: covers only moves other than the pass. The filter tries a
  pass with the piece lifted off the board, so a piece that is the only screen of an enemy
  cannon aimed at its general is granted the pass, and the board it leaves has the general
  attacked (`Scenarios.PassLeavesGeneralAttacked`). For the pass, the original's promise
  that valid moves do not expose the general does not hold.
- Legality.HitsGeneral: the original stops at the first enemy move that hits the general.
  The model scans on, which gives the same answer.
- The cannon's orthogonal scan starts every direction unscreened (`Generators.CannonLines`).
  The original keeps one flag across directions, which the model keeps separately as
  `CannonLeak.CannonLinesAsWritten` (see Findings).
- Coordinates.ConvertLocation: the original answers `False` on failure. The model
  answers `None`.

## Findings

| source | as written | input that shows it | evidently intended | confidence | as-written member | corrected member |
|---|---|---|---|---|---|---|
| JanggiGame.py:381-451 | the cannon's screen flag is set once per scan and cleared only when the cells beyond a screen are scanned; a screen on the last cell in reach (nine cells away) leaves it set, and the next direction is then scanned as if already screened | a RED cannon on c1, `(0, 2)`, and a RED soldier on c10, `(9, 2)`, RED to move: the south scan ends on the soldier with the flag set, and the west scan offers c1 to b1 and c1 to a1 with nothing to jump over | each direction starts unscreened, so every cannon move jumps exactly one non-cannon piece | high, not executed | CannonLeak.CannonLeakExample | Rules.CannonRule |
