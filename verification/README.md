# Powerup chess: a verified model of the board and the move service

This project models the rules engine of a two-player chess variant with
powerups, and the move request of the web service that drives it.

Pieces may carry a powerup:
- A powered knight also steps one or two squares orthogonally.
- A powered queen passes through pieces in its way.
- A powered bishop converts the piece it targets to its own colour.
- A powered rook's capture blasts the four orthogonal neighbours of the captured square.

Kings have three lives. A capture of a king costs it a life, and a king that
picks up a powerup gains one. A pawn that picks up a powerup is promoted to a
random kind. After the first two moves, a green powerup token may appear on a
random empty square after every move.

The Dafny modules follow the source files:

- `Options` holds the `Option` and `Result` datatypes.
- `Pieces` models `Pieces.py`.
  - Each piece is a datatype value; a fresh one is given by `NewPiece`.
  - Every kind's move generator is a pure specification function (`KnightMoves`, `KingMoves`, `SlideMoves`, `PawnMoves`, dispatched by `PieceMoves`).
  - Every kind also has a loop method that walks the board as the source does and is proved equal to that function.
  - Generators read the board through `Cells`. A `Cells` value shows, for each square, its owner or, when empty, its attacked flag. That is everything a generator can observe.
- `Grids` holds the 8x8 grid of squares (`Square` from `Board.py`), the start position and the invariants the board keeps.
- `Rules` holds the specification functions of the board's operations:
  - the danger pass (`Danger`);
  - the powered rook's blast (`Blasted`);
  - the three branches of `move` (`Advanced`, `Struck`, `Converted`, combined in `Moved`);
  - promotion (`PromotionKind`);
  - powerup spawning (`Spawned`).

  It also holds the lemmas that say what those operations mean.
- `Boards` models `Board.py`. `Board` is a class whose fields the methods update. Each method's `ensures` ties the new state to the matching `Rules` function of the old state.
- `Games` models the service functions of `main.py`: square names, the current player and `make_move`.
  - `MakeMove` works on a `Board`.
  - Its postcondition equates the response and the new board state with `Requested`, a function of the old state.
  - The lemmas about `Requested` state what a move request promises.

The random draws of the source are parameters:
- `draw` is the promotion draw;
- `spawnDraw` is the draw deciding whether a powerup appears;
- `tries` is the sequence of squares tried for it.

## Model

| member | source | states |
|---|---|---|
| Pieces.KnightMovesExact | Pieces.py:198-217 | a knight's moves are exactly the in-bounds L-shaped squares that are empty or held by another colour; a powered knight's moves also include the one- and two-square orthogonal ones |
| Pieces.KingMovesExact | Pieces.py:106-133 | a king's moves are exactly the in-bounds squares at most one step away (its own square included) that hold another colour, or are empty and not attacked |
| Pieces.KingValidMoves | Pieces.py:106-133 | the king's loop lists exactly `KingMoves`; the king records check when its own square is attacked, and checkmate when it is also left with no move |
| Pieces.KnightValidMoves | Pieces.py:198-217 | the knight's offset loop lists exactly `KnightMoves`, in the source's offset order |
| Pieces.StepScan | Pieces.py:201-217 | the shared offset loop of knight and king collects exactly the landing squares of the offsets, in order |
| Pieces.StepTargetsInside | Pieces.py:75-86 | a stepping piece only lists squares that are on the board and not held by its own colour |
| Pieces.BishopValidMoves | Pieces.py:232-253 | the bishop's four diagonal scans list exactly `SlideMoves` |
| Pieces.RookValidMoves | Pieces.py:269-291 | the rook's four orthogonal scans list exactly `SlideMoves` |
| Pieces.QueenValidMoves | Pieces.py:148-183 | the queen's eight scans list exactly `SlideMoves`, and a powered queen passes through pieces |
| Pieces.SlideWalk | Pieces.py:238-251 | one slide from the piece outward lists exactly the ray: empty squares, then an enemy piece that stops it; a green token is listed twice and passed over; its own colour stops it unlisted |
| Pieces.QueenWalk | Pieces.py:152-181 | one queen scan lists exactly the ray: a green token is listed once and passed over; a powered queen also lists and passes enemies, and passes its own pieces unlisted |
| Pieces.RayMembers | Pieces.py:238-251 | a square is on a ray exactly when it is the first square and is listed, or the first square is passed over and the square is on the rest of the ray |
| Pieces.RayInside | Pieces.py:75-86 | a ray never leaves the board and never lists a square of the piece's own colour |
| Pieces.RayNotBehind | Pieces.py:238-251 | a ray never lists the square behind its start |
| Pieces.RayCount | Pieces.py:238-251 | the k-th square of a ray is listed as often as that square is hit (1, or 2 for a green token in a slider's way) when every square before it is passed over, and never otherwise |
| Pieces.SliderCount | Pieces.py:151 | a sliding piece lists the k-th square in each of its directions exactly as often as that direction's ray does, since its directions are distinct |
| Pieces.DirectionsDistinct | Pieces.py:151 | the direction lists of bishop, rook and queen are unit steps and each direction occurs once |
| Pieces.SweepsInside | Pieces.py:232-291 | no scan of a sliding piece lists an off-board square or a square of its own colour |
| Pieces.SlideLines | Pieces.py:148-291 | a sliding piece never lists its own square; a rook lists only squares on its rank or file, a bishop only squares on its diagonals, a queen only squares on one of them |
| Pieces.SweepsLines | Pieces.py:152-181 | every square a scan lists lies beyond the piece on its rank, its file or one of its diagonals |
| Pieces.PawnMoves | Pieces.py:308-342 | a pawn lists at most four squares, all on the board and none of its own colour; a green pawn lists none |
| Pieces.PawnMovesExact | Pieces.py:308-342 | a white or black pawn lists exactly: the square ahead if it is empty or holds a token; the square two ahead if the pawn has not moved and both squares are empty or hold a token; and each square diagonally ahead that holds a piece of the other side; a green pawn lists nothing |
| Pieces.PawnAdvancesExact | Pieces.py:308-342 | a pawn advances exactly onto the open square ahead, and onto the open square two ahead when it has not moved and the square between is open (open: empty or holding a token) |
| Pieces.PawnCapturesExact | Pieces.py:308-342 | a pawn captures exactly onto the squares one step diagonally forward that hold a piece of the other side, never a token |
| Pieces.PieceMoves | Pieces.py:75-86 | whatever the kind, no generated move leaves the board or lands on a square of the mover's colour |
| Pieces.ValidMoves | Pieces.py:94-356 | `valid_moves` of every kind returns `PieceMoves`; only a king changes, and only in its check and checkmate flags |
| Grids.SetPieceKeeps | Board.py:26-29 | writing a piece that knows an on-board square keeps all coordinates on the board; writing it on its own square keeps every piece on its square; writing a live king or a non-king keeps every king alive |
| Grids.SameOccupantsKeep | Board.py:26-29 | grids that differ only in check and checkmate flags agree on all three board invariants |
| Grids.KindNamesRoundTrip | Board.py:155-194 | every kind's name as accepted by `add_piece` reads back as that kind |
| Grids.StartPositioned | Board.py:66-111 | in the start position every piece stands on the square its coordinates name |
| Grids.BackRanksStart | Board.py:88-111 | the back-rank additions, made after the pawns, produce the start position |
| Rules.ClearedSquares | Board.py:114-117 | clearing keeps every occupant and lowers every attacked flag |
| Rules.DangerFlags | Board.py:120-130 | after `king_danger_spaces(c)`, a square is flagged exactly when it holds a piece of another colour with at least one move; empty squares are never flagged |
| Rules.DangerKeepsPieces | Board.py:120-130 | the danger pass changes no piece but for the check and checkmate flags of kings |
| Rules.DangerSameOccupants | Board.py:120-130 | the danger pass moves no piece and takes no life |
| Rules.DangerSameCells | Board.py:120-130 | the danger pass leaves the move generators the same view as the cleared board |
| Rules.DangerNeverChecks | Board.py:120-130 | when every piece stands on its square, the pass against c leaves every king it visits, that is every king not of colour c, out of check and checkmate |
| Rules.AskedSameOccupants | Board.py:196-223 | asking a piece for its moves changes no more than its own flags |
| Rules.BlastHitsNeighbours | Board.py:288-309 | the blast loop hits exactly the four orthogonal neighbours of the captured square |
| Rules.BlastedFrame | Board.py:288-309 | the blast costs a king on a neighbour a life, removes any other piece there, and leaves every other square and every flag alone |
| Rules.MovedFails | Board.py:241-356 | `move` fails exactly when the selected square is empty, or a powered bishop aims at a king of another colour |
| Rules.MovedFrame | Board.py:241-356 | a move changes only the source, the target and the target's neighbours, and no attacked flag |
| Rules.AdvancedLands | Board.py:275-330 | an ordinary move empties the source; the target then holds a piece of the mover's colour that knows its square, with the kind, powerup, lives and moved flag the pickup rules give |
| Rules.StruckOutcome | Board.py:332-339 | striking a king with lives to spare costs it a life and leaves the mover in place; a king on its last life is replaced by the mover, which keeps its old coordinates |
| Rules.ConvertedOutcome | Board.py:254-272 | a conversion recolours the target piece, keeps the rest of it, and leaves the bishop in place without its powerup |
| Rules.MovedKeeps | Board.py:241-356 | a move keeps every piece's coordinates on the board, and keeps every piece on its square unless a king on its last life is captured |
| Rules.CaptureLeavesStale | Board.py:332-339 | capturing a king on its last life succeeds but leaves the capturer with the coordinates of the square it left |
| Rules.ConvertedAlive | Board.py:254-272 | converting a piece that is not a king keeps every king alive |
| Rules.StruckAlive | Board.py:332-339 | a strike on a king never takes its last life |
| Rules.AdvancedAlive | Board.py:275-330 | an ordinary move that is not a powered rook's capture keeps every king alive |
| Rules.OnlyBlastsEliminate | Board.py:241-356 | from a board where every king has a life, only a powered rook capturing a piece other than a king can leave a king without lives |
| Rules.PromotionKind | Board.py:225-239 | a promotion yields a queen exactly for draws above 0.9, a rook for draws in (0.6, 0.9], a bishop for (0.3, 0.6] and a knight for draws up to 0.3 |
| Rules.PromotionMonotone | Board.py:225-239 | a higher draw never yields a weaker piece, and a queen comes exactly from draws above 0.9 |
| Rules.FirstVacant | Board.py:349-356 | the square chosen for a powerup is the first vacant one tried; if none is vacant, every tried square was occupied |
| Rules.SpawnedOnVacant | Board.py:345-356 | spawning changes nothing before the delay has passed or when the draw exceeds the chance; otherwise it changes at most one vacant square, putting a green powerup there |
| Rules.SpawnedKeeps | Board.py:349-356 | spawning keeps every coordinate on the board and every king alive |
| Boards.Board.constructor | Board.py:54-63 | a new board holds the start position, white to move, nothing selected and no turn taken |
| Boards.Board.Initialize | Board.py:66-111 | the setup fills an empty grid with the start position |
| Boards.Board.PlacePawns | Board.py:81-85 | the pawn loop places eight white pawns on rank index 6 and eight black pawns on rank index 1 |
| Boards.Board.AddPiece | Board.py:155-194 | a fresh piece of the named kind is placed on an empty square; an occupied square or an unknown name raises and changes nothing |
| Boards.Board.ResetAtkBy | Board.py:114-117 | every attacked flag is lowered and nothing else changes |
| Boards.Board.KingDangerSpaces | Board.py:120-130 | the loop leaves the grid `Danger` specifies, so it keeps the board's invariant |
| Boards.Board.TransformPawn | Board.py:225-239 | the pawn is replaced on its square by a fresh piece of the drawn kind and its colour |
| Boards.Board.Blast | Board.py:288-309 | the blast loop leaves the grid `Blasted` specifies |
| Boards.Board.Advance | Board.py:275-330 | the ordinary branch leaves the grid `Advanced` specifies |
| Boards.Board.Convert | Board.py:254-272 | the conversion leaves the grid `Converted` specifies |
| Boards.Board.Strike | Board.py:332-339 | the king-target branch leaves the grid `Struck` specifies |
| Boards.Board.SpawnPowerup | Board.py:349-356 | the spawn loop puts a powerup on the first vacant square tried, or changes nothing |
| Boards.Board.Move | Board.py:241-356 | with nothing selected, the move raises and changes nothing; otherwise it fails or succeeds as `Moved` says, and a success counts the turn and runs the powerup step |
| Boards.Board.Select | Board.py:196-223 | the first click selects a piece and asks it for its moves; clicking the selected square deselects it; a click on a listed move plays it; any other click changes nothing |
| Games.DigitValue | main.py:58 | a character reads as a digit exactly when it is an ASCII digit, and then as its value |
| Games.PositionToIndices | main.py:55-59 | a name reads as indices exactly when its second character is a digit; the rank index is 8 minus that digit and the file index is the letter's offset from 'a' |
| Games.IndicesToPosition | main.py:61-63 | every board square's name is a file letter a to h followed by a rank digit 1 to 8 |
| Games.IndicesRoundTrip | main.py:55-63 | reading the name of a square gives back that square |
| Games.PositionRoundTrip | main.py:55-63 | every two-character name of a square is the name of the square it reads as |
| Games.PositionOnBoard | main.py:55-59 | a name reads as on-board indices exactly when it is a letter a to h followed by a digit 1 to 8 |
| Games.NineIsOne | main.py:146-150 | "a9" reads as rank index -1, which Python's indexing takes to be the square of "a1" |
| Games.CurrentPlayerColor | main.py:88-90 | white is to move exactly when the turn field is 1; green is never to move |
| Games.NextTurn | main.py:237 | the turn always passes to the other player |
| Games.EliminatedKing | main.py:212-234 | the scan reports an eliminated king exactly when some king has no lives left |
| Games.CheckmateScan | main.py:254-282 | the scan searches each rank up to its first king of the given colour and reports checkmate exactly when one of those kings is flagged checkmated |
| Games.MatedAlone | main.py:254-282 | with at most one king of the colour per rank, the scan reports checkmate exactly when some king of that colour is flagged checkmated |
| Games.MatedSkipsSecond | main.py:276 | because the scan of a rank stops at its first king of the colour, a checkmated second king on the same rank is never seen |
| Games.Request | main.py:146-150 | both names must read as indices that Python can index the board with, or the request fails |
| Games.OfferedMoves | main.py:174-179 | after the danger pass for the mover, the moves offered for the mover's piece are its moves on the cleared board |
| Games.Concluded | main.py:212-282 | after a move, a king without lives ends the game with the turn kept; otherwise the turn passes, the grid becomes the danger pass for the new player, and the game is over exactly when it already was or the scan finds that player's king checkmated |
| Games.Played | main.py:207-209 | a move is accepted exactly when `move` succeeds, and is then counted; a failure changes nothing |
| Games.MakeMove | main.py:128-292 | the response and the new board state are exactly those `Requested` gives for the old state, and the board stays valid |
| Games.Attempt | main.py:174-209 | the move's validation and play against the board give the state `Attempted` specifies |
| Games.Prepare | main.py:174-176 | the mover's danger pass and the piece's move generation give `Prepared` and `Offered` |
| Games.PlayMove | main.py:207-209 | selecting the source and playing the move give the state `Played` specifies |
| Games.Conclude | main.py:212-282 | the elimination scan, turn switch, danger pass and checkmate scan give the state `Concluded` specifies |
| Games.RefusedMovesNothing | main.py:136-186 | a refused or failed request moves no piece, takes no life, and keeps the turn, the count and the game's end; once the game is over every request is refused and changes nothing |
| Games.AcceptedIsLegal | main.py:136-209 | an accepted move was requested while the game was on, from a square holding a piece of the player to move, to a square among that piece's moves; the move is counted and its source is left selected |
| Games.TurnPassesUnlessEliminated | main.py:212-282 | an accepted move reports the game's end as the board records it; the turn passes exactly when every king still has a life, and otherwise the game is over; with every king alive, the game is over exactly when the scan finds the new player's king checkmated |
| Games.EliminationNeedsBlast | main.py:209-234 | starting with every king alive, a request that ends the game on lives was a powered rook capturing a piece that is not a king |

## Left out

- The HTTP layer is not part of this model. That covers the game registry (the 404 for an unknown game), the response fields other than success, game over and the refusal text, `serialize_board`, `captured_piece` and the messages about checks and lost lives. None of these changes the board.
- `Failed` stands for the HTTP 400 answer. It does not carry the exception text, which depends on Python's error messages.
- Players, the game loop and the front end (`Player.py`, `GameLoop.py`, `frontend/`) are not part of this model.
- `Square.powerup` is set to False when a square is built (Board.py:28) and is never read or changed afterwards, so it is not modelled.
- Randomness is not modelled as a generator. It enters as the parameters `draw`, `spawnDraw` and `tries`.
- Rules.FirstVacant: the spawn's `while True` loop over random squares is modelled as a finite sequence of tries. If every try is occupied, no powerup is placed, whereas the source would keep drawing.
- Pieces.KingValidMoves: the king's nested offset loops are modelled as one loop over the nine offsets in the same order.
- Pieces.ValidMoves: the source sets an attacked flag on a square once for each listed move. The model sets it once when the list is non-empty, which gives the same flag.
- Games.PositionToIndices: the model accepts only ASCII digits as rank characters. Python's `int()` also accepts other Unicode digits, so a name such as "a٣" reads as a rank there and is refused here.
- Names whose rank digit is 9 or 0, or whose file character is outside a to h, read as indices off the board. Negative indices down to -8 alias squares through Python's negative indexing (`Reached`, `NineIsOne`); anything else ends in the HTTP 400 answer.
- Boards.Board.Select and Boards.Board.Move require an on-board target, as `select`'s documentation states ("0 to 7"); the service only calls `move` with such targets.
- Aliasing: the source mutates the moving piece object and then stores that object on its new square. The model writes the updated piece value to the square instead.
- `powerup_delay_turns` and `powerup_chance` are fixed at the values `Board.__init__` gives them (`PowerupDelayTurns`, `PowerupChance`).
- Where the code and its documentation disagree, the model follows the code:
  - the danger pass flags the attacker's own square, not the squares it attacks (`DangerFlags`); a king it visits reads its own square's flag before the pass raises it, so while pieces stand on their squares the pass sets no check or checkmate (`DangerNeverChecks`);
  - capturing a king on its last life removes it without ending the game, and leaves the capturer's coordinates stale (`CaptureLeavesStale`, `EliminationNeedsBlast`);
  - bishops and rooks pass over a green token, listing its square twice;
  - a powered bishop aimed at a king of another colour raises an error instead of converting (`MovedFails`), and a powered bishop converts even a green token;
  - the knight's powerup check in the ordinary branch has no effect: the mover's own powerup is cleared unconditionally at Board.py:310, before any pickup from the target, so the knight check's clearing changes nothing.
