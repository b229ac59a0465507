/**
 * The game service around the board (main.py): square names, whose turn it
 * is, and the move request that validates a move, plays it and decides
 * whether the game is over.
 */
module Games {
  import opened Options
  import opened Pieces
  import opened Grids
  import opened Rules
  import opened Boards

  // ---------------------------------------------------------------------------
  // Square names

  /** Python's int() of a one-character string, when it is an ASCII digit. */
  function DigitValue(ch: char): (d: Option<int>)
    ensures d.Some? <==> '0' <= ch <= '9'
    ensures d.Some? ==> 0 <= d.value < 10 && Digit(d.value) == ch
  {
    if '0' <= ch <= '9' then Some(ch as int - '0' as int) else None
  }

  /**
   * position_to_indices: the file from the first character, counted from 'a',
   * and the rank from the digit that follows, counted down from 8. A name
   * shorter than two characters or without a digit second raises, which is
   * None here; nothing else is checked, so the indices may be off the board.
   */
  function PositionToIndices(position: string): (ix: Option<Coord>)
    ensures ix.Some? <==> |position| >= 2 && '0' <= position[1] <= '9'
  {
    if |position| < 2 then None
    else
      match DigitValue(position[1])
      case None => None
      case Some(d) => Some((8 - d, position[0] as int - 'a' as int))
  }

  /** indices_to_position, for indices on the board: the file letter and then the rank digit. */
  function IndicesToPosition(rank: int, file: int): (name: string)
    requires InBounds(rank, file)
    ensures |name| == 2 && 'a' <= name[0] <= 'h' && '1' <= name[1] <= '8'
  {
    [('a' as int + file) as char, Digit(8 - rank)]
  }

  /** Every square's name reads back as the square. */
  lemma IndicesRoundTrip(rank: int, file: int)
    requires InBounds(rank, file)
    ensures PositionToIndices(IndicesToPosition(rank, file)) == Some((rank, file))
  {
  }

  /** A name reads as a square of the board exactly when it starts with a file letter and a rank digit. */
  lemma PositionOnBoard(position: string)
    ensures (PositionToIndices(position).Some? && InBounds(PositionToIndices(position).value.0, PositionToIndices(position).value.1))
      <==> |position| >= 2 && 'a' <= position[0] <= 'h' && '1' <= position[1] <= '8'
  {
  }

  /** Every two-character square name is the name of the square it reads as. */
  lemma PositionRoundTrip(position: string)
    requires |position| == 2 && 'a' <= position[0] <= 'h' && '1' <= position[1] <= '8'
    ensures PositionToIndices(position).Some?
    ensures var ix := PositionToIndices(position).value;
      InBounds(ix.0, ix.1) && IndicesToPosition(ix.0, ix.1) == position
  {
    var ix := PositionToIndices(position).value;
    assert IndicesToPosition(ix.0, ix.1)[0] == position[0];
    assert IndicesToPosition(ix.0, ix.1)[1] == position[1];
  }

  /** White's king pawn starts on e2, which is rank index 6, file index 4. */
  lemma KingPawnSquare()
    ensures PositionToIndices("e2") == Some((6, 4)) && IndicesToPosition(6, 4) == "e2"
  {
  }

  /**
   * Rank digit 9 reads as rank index -1, which Python's negative indexing
   * takes to the last rank: "a9" names the same square as "a1".
   */
  lemma NineIsOne()
    ensures PositionToIndices("a9") == Some((-1, 0)) && PositionToIndices("a1") == Some((7, 0))
    ensures Wrap(-1) == 7
  {
  }

  // ---------------------------------------------------------------------------
  // Turns

  /** get_current_player_color: white on turn 1, black otherwise. */
  function CurrentPlayerColor(playersTurn: int): (c: Color)
    ensures c == White <==> playersTurn == 1
    ensures c != Green
  {
    if playersTurn == 1 then White else Black
  }

  function ColorName(c: Color): string
  {
    match c
    case White => "white"
    case Black => "black"
    case Green => "green"
  }

  // ---------------------------------------------------------------------------
  // make_move

  /** The answer to a move request. */
  datatype Response =
    | Rejected(message: string)   // success is false; the request was refused
    | Accepted(gameOver: bool)    // success is true; the move was played
    | Failed                      // an exception was raised: HTTP status 400

  /** The square a pair of Python indices reaches, when it reaches one. */
  function Reached(ix: Coord): Coord
    requires Indexable(ix.0, ix.1)
  {
    (Wrap(ix.0), Wrap(ix.1))
  }

  /** A king of colour c stands on (r, f). */
  predicate KingOf(g: Grid, c: Color, r: int, f: int)
    requires IsGrid(g) && 0 <= r < 8 && 0 <= f < 8
  {
    g[r][f].piece.Some? && g[r][f].piece.value.kind == King && g[r][f].piece.value.color == c
  }

  /** (r, f) holds the first king of colour c on rank r: the one the scan of that rank stops at. */
  predicate FirstOnRank(g: Grid, c: Color, r: int, f: int)
    requires IsGrid(g) && 0 <= r < 8 && 0 <= f < 8
  {
    KingOf(g, c, r, f) && forall f' :: 0 <= f' < f ==> !KingOf(g, c, r, f')
  }

  /** The checkmate scan finds, on some rank, a checkmated king of colour c first among that rank's kings of colour c. */
  predicate Mated(g: Grid, c: Color)
    requires IsGrid(g)
  {
    exists r, f :: (0 <= r < 8 && 0 <= f < 8 && FirstOnRank(g, c, r, f) && g[r][f].piece.value.checkmate)
  }

  /** With at most one king of colour c on each rank, the scan finds checkmate exactly when such a king is checkmated. */
  lemma MatedAlone(g: Grid, c: Color)
    requires IsGrid(g)
    requires forall r, f, f' :: (0 <= r < 8 && 0 <= f < 8 && 0 <= f' < 8 && KingOf(g, c, r, f) && KingOf(g, c, r, f')) ==> f == f'
    ensures Mated(g, c) <==> exists r, f :: (0 <= r < 8 && 0 <= f < 8 && KingOf(g, c, r, f) && g[r][f].piece.value.checkmate)
  {
    if r, f :| 0 <= r < 8 && 0 <= f < 8 && KingOf(g, c, r, f) && g[r][f].piece.value.checkmate {
      assert FirstOnRank(g, c, r, f);
    }
  }

  /**
   * The scan of a rank stops at its first king of colour c, so the checkmate
   * of a second such king on the same rank is never seen.
   */
  lemma MatedSkipsSecond()
    ensures var k := Piece(King, White, 7, 5, false, false, true, true, 3);
      var g := SetPiece(SetPiece(EmptyGrid(), 7, 4, Some(NewPiece(King, White, 7, 4))), 7, 5, Some(k));
      IsGrid(g) && KingOf(g, White, 7, 5) && g[7][5].piece.value.checkmate && !Mated(g, White)
  {
    var k := Piece(King, White, 7, 5, false, false, true, true, 3);
    var g := SetPiece(SetPiece(EmptyGrid(), 7, 4, Some(NewPiece(King, White, 7, 4))), 7, 5, Some(k));
    assert KingOf(g, White, 7, 4);
    forall r, f | 0 <= r < 8 && 0 <= f < 8 && FirstOnRank(g, White, r, f)
      ensures !g[r][f].piece.value.checkmate
    {
      assert r == 7 && f == 4;
    }
  }

  /** The scan after a move for a king without lives: the colour of the last one found, in row-major order. */
  method EliminatedKing(g: Grid) returns (eliminated: Option<Color>)
    requires IsGrid(g)
    ensures eliminated.None? <==> KingsAlive(g)
  {
    eliminated := None;
    for rank := 0 to 8
      invariant eliminated.None? <==> forall r, f :: (0 <= r < rank && 0 <= f < 8 && g[r][f].piece.Some?
                                                      && g[r][f].piece.value.kind == King) ==> g[r][f].piece.value.livesRemaining > 0
    {
      for file := 0 to 8
        invariant eliminated.None? <==> forall r, f :: (0 <= r < 8 && 0 <= f < 8 && Index(r, f) < Index(rank, file)
                                                        && g[r][f].piece.Some? && g[r][f].piece.value.kind == King)
                                                       ==> g[r][f].piece.value.livesRemaining > 0
      {
        var piece := g[rank][file].piece;
        if piece.Some? && piece.value.kind == King && piece.value.livesRemaining <= 0 {
          eliminated := Some(piece.value.color);
        }
      }
    }
  }

  /**
   * The scan after the turn has passed for a king of colour c in checkmate:
   * each rank is searched up to its first king of colour c, whose checkmate
   * ends the game.
   */
  method CheckmateScan(g: Grid, c: Color) returns (mate: bool)
    requires IsGrid(g)
    ensures mate <==> Mated(g, c)
  {
    mate := false;
    for rank := 0 to 8
      invariant mate <==> exists r, f :: (0 <= r < rank && 0 <= f < 8 && FirstOnRank(g, c, r, f) && g[r][f].piece.value.checkmate)
    {
      ghost var before := mate;
      for file := 0 to 8
        invariant mate == before
        invariant forall f :: 0 <= f < file ==> !KingOf(g, c, rank, f)
      {
        var piece := g[rank][file].piece;
        if piece.Some? && piece.value.kind == King && piece.value.color == c {
          assert FirstOnRank(g, c, rank, file);
          assert forall f :: 0 <= f < 8 && FirstOnRank(g, c, rank, f) ==> f == file;
          if piece.value.checkmate {
            mate := true;
          }
          break;
        }
      }
    }
  }

  // ---------------------------------------------------------------------------
  // The request as a function of the board it starts from

  /** What make_move reads and changes of a board. */
  datatype Snapshot = Snapshot(grid: Grid, gameOver: bool, playersTurn: int, selected: Option<Coord>, totalTurns: int)

  /** The board's invariant, on a snapshot. */
  predicate Sound(st: Snapshot)
  {
    IsGrid(st.grid) && Positioned(st.grid) && (st.selected.Some? ==> Indexable(st.selected.value.0, st.selected.value.1))
  }

  function SnapshotOf(b: Board): (st: Snapshot)
    reads b
    ensures b.Valid() <==> Sound(st)
  {
    Snapshot(b.grid, b.gameOver, b.playersTurn, b.selected, b.totalTurns)
  }

  /** Both square names of a request, when both read as indices Python can index the board with. */
  function Request(from: string, to: string): (req: Option<(Coord, Coord)>)
    ensures req.Some? <==> (PositionToIndices(from).Some? && PositionToIndices(to).Some?
                            && Indexable(PositionToIndices(from).value.0, PositionToIndices(from).value.1)
                            && Indexable(PositionToIndices(to).value.0, PositionToIndices(to).value.1))
    ensures req.Some? ==> req.value == (PositionToIndices(from).value, PositionToIndices(to).value)
  {
    match (PositionToIndices(from), PositionToIndices(to))
    case (Some(a), Some(b)) =>
      if Indexable(a.0, a.1) && Indexable(b.0, b.1) then Some((a, b)) else None
    case _ => None
  }

  /** The turn after turn: black after white, and white otherwise. */
  function NextTurn(turn: int): (next: int)
    ensures next != turn && CurrentPlayerColor(next) != CurrentPlayerColor(turn)
  {
    if turn == 1 then 2 else 1
  }

  /**
   * The board once the danger pass for c has run and the piece on s has
   * been asked for its moves, as make_move prepares it before checking the
   * destination.
   */
  function Prepared(g: Grid, c: Color, s: Coord): (h: Grid)
    requires IsGrid(g) && Positioned(g) && InBounds(s.0, s.1) && g[s.0][s.1].piece.Some?
    ensures IsGrid(h) && Positioned(h) && SameOccupants(g, h)
  {
    DangerSameCells(g, c);
    DangerKeepsPieces(g, c, s.0, s.1);
    DangerSameOccupants(g, c);
    var d := Danger(g, c);
    AskedSameOccupants(d, s.0, s.1);
    SetPieceKeeps(d, s.0, s.1, Some(Asked(d, d[s.0][s.1].piece.value)));
    var h := SetPiece(d, s.0, s.1, Some(Asked(d, d[s.0][s.1].piece.value)));
    SameOccupantsTrans(g, d, h);
    h
  }

  /**
   * The destinations make_move accepts for the piece on s: the ones
   * valid_moves lists once the danger pass for c has run.
   */
  function Offered(g: Grid, c: Color, s: Coord): (moves: seq<Coord>)
    requires IsGrid(g) && Positioned(g) && InBounds(s.0, s.1) && g[s.0][s.1].piece.Some?
    ensures forall t :: t in moves ==> InBounds(t.0, t.1)
  {
    DangerSameCells(g, c);
    DangerKeepsPieces(g, c, s.0, s.1);
    PieceMoves(CellsOf(Danger(g, c)), Danger(g, c)[s.0][s.1].piece.value)
  }

  /**
   * For a piece of the colour the pass is run for, the destinations offered
   * are its moves on the board with every flag lowered: the pass neither
   * changes the piece nor anything its moves depend on.
   */
  lemma OfferedMoves(g: Grid, c: Color, s: Coord)
    requires IsGrid(g) && Positioned(g) && InBounds(s.0, s.1) && g[s.0][s.1].piece.Some?
    requires g[s.0][s.1].piece.value.color == c
    ensures Offered(g, c, s) == PieceMoves(CellsOf(Cleared(g)), g[s.0][s.1].piece.value)
  {
    DangerSameCells(g, c);
    DangerKeepsPieces(g, c, s.0, s.1);
  }

  /**
   * The end of a played move, on the board g that move left: a king without
   * lives ends the game with the turn kept; otherwise the turn passes, the
   * danger pass for the new player runs and a checkmated king of theirs
   * ends the game.
   */
  function Concluded(st: Snapshot): (out: (Response, Snapshot))
    requires Sound(st)
    ensures Sound(out.1) && out.0.Accepted? && out.0.gameOver == out.1.gameOver
    ensures out.1.selected == st.selected && out.1.totalTurns == st.totalTurns
    ensures KingsAlive(out.1.grid) <==> KingsAlive(st.grid)
    ensures out.1.playersTurn == NextTurn(st.playersTurn) <==> KingsAlive(st.grid)
    ensures !KingsAlive(st.grid) ==> out == (Accepted(true), st.(gameOver := true))
    ensures KingsAlive(st.grid) ==>
              out.1.grid == Danger(st.grid, CurrentPlayerColor(out.1.playersTurn))
              && out.1.gameOver == (st.gameOver || Mated(out.1.grid, CurrentPlayerColor(out.1.playersTurn)))
  {
    if !KingsAlive(st.grid) then (Accepted(true), st.(gameOver := true))
    else
      var turn := NextTurn(st.playersTurn);
      var opponent := CurrentPlayerColor(turn);
      DangerSameCells(st.grid, opponent);
      DangerSameOccupants(st.grid, opponent);
      SameOccupantsKeep(st.grid, Danger(st.grid, opponent));
      var k := Danger(st.grid, opponent);
      var over := st.gameOver || Mated(k, opponent);
      (Accepted(over), st.(grid := k, gameOver := over, playersTurn := turn))
  }

  /**
   * The second half of make_move, once the destination t is among the
   * piece's moves: board.move takes the selected piece from s to t, counts
   * the move and may spawn a powerup, and the move is concluded; a move
   * that raises fails the request.
   */
  function Played(st: Snapshot, s: Coord, t: Coord, draw: real, spawnDraw: real, tries: seq<Coord>): (out: (Response, Snapshot))
    requires Sound(st) && InBounds(s.0, s.1) && InBounds(t.0, t.1) && OnBoard(tries)
    ensures Sound(out.1) && out.1.selected == st.selected
    ensures out.0.Accepted? <==> Moved(st.grid, s, t, draw).Ok?
    ensures out.0.Accepted? ==> out.1.totalTurns == st.totalTurns + 1
    ensures !out.0.Accepted? ==> out == (Failed, st)
  {
    match Moved(st.grid, s, t, draw)
    case Err(_) => (Failed, st)
    case Ok(h) =>
      MovedKeeps(st.grid, s, t, draw);
      var turns := st.totalTurns + 1;
      SpawnedKeeps(h, turns, spawnDraw, tries);
      Concluded(st.(grid := Spawned(h, turns, spawnDraw, tries), totalTurns := turns))
  }

  /** When board.move succeeds, the played request is the concluded one, on the grid the move left and with the move counted. */
  lemma PlayedMoves(st: Snapshot, s: Coord, t: Coord, draw: real, spawnDraw: real, tries: seq<Coord>)
    requires Sound(st) && InBounds(s.0, s.1) && InBounds(t.0, t.1) && OnBoard(tries)
    requires Moved(st.grid, s, t, draw).Ok?
    ensures IsGrid(Moved(st.grid, s, t, draw).value)
    ensures var g := Spawned(Moved(st.grid, s, t, draw).value, st.totalTurns + 1, spawnDraw, tries);
      Positioned(g) && Played(st, s, t, draw, spawnDraw, tries) == Concluded(st.(grid := g, totalTurns := st.totalTurns + 1))
  {
    MovedKeeps(st.grid, s, t, draw);
    SpawnedKeeps(Moved(st.grid, s, t, draw).value, st.totalTurns + 1, spawnDraw, tries);
  }

  /**
   * make_move on a board in state st: the request is refused when the game
   * is over, when a square name does not parse (HTTP 400), when the source
   * square is empty or holds a piece of the other side, and when the
   * destination is not among the piece's moves once the danger pass for the
   * player to move has run; otherwise the move is played.
   */
  function Requested(st: Snapshot, from: string, to: string, draw: real, spawnDraw: real, tries: seq<Coord>): (out: (Response, Snapshot))
    requires Sound(st) && OnBoard(tries)
    ensures Sound(out.1)
  {
    if st.gameOver then (Rejected("Game is already over"), st)
    else
      var req := Request(from, to);
      if req.None? then (Failed, st)
      else
        var s := Reached(req.value.0);
        var c := CurrentPlayerColor(st.playersTurn);
        var x := st.grid[s.0][s.1].piece;
        if x.None? then (Rejected("No piece at source square"), st)
        else if x.value.color != c then (Rejected("Not your turn. It's " + ColorName(c) + "'s turn"), st)
        else Attempted(st, req.value, draw, spawnDraw, tries)
  }

  /**
   * make_move once the source square holds a piece of the player to move:
   * the move is refused unless the destination is among the piece's moves,
   * and played otherwise.
   */
  function Attempted(st: Snapshot, req: (Coord, Coord), draw: real, spawnDraw: real, tries: seq<Coord>): (out: (Response, Snapshot))
    requires Sound(st) && OnBoard(tries) && Indexable(req.0.0, req.0.1) && Indexable(req.1.0, req.1.1)
    requires st.grid[Reached(req.0).0][Reached(req.0).1].piece.Some?
  {
    var s := Reached(req.0);
    var c := CurrentPlayerColor(st.playersTurn);
    var h := Prepared(st.grid, c, s);
    if req.1 !in Offered(st.grid, c, s) then (Rejected("Invalid move for this piece"), st.(grid := h))
    else Played(st.(grid := h, selected := Some(req.0)), s, req.1, draw, spawnDraw, tries)
  }

  // ---------------------------------------------------------------------------
  // What make_move promises

  /**
   * A request that is refused, or that fails, moves no piece and takes no
   * life, and leaves the turn, the move count and the game's end alone; once
   * the game is over every request is refused and changes nothing at all.
   */
  lemma RefusedMovesNothing(st: Snapshot, from: string, to: string, draw: real, spawnDraw: real, tries: seq<Coord>)
    requires Sound(st) && OnBoard(tries)
    ensures var out := Requested(st, from, to, draw, spawnDraw, tries);
      !out.0.Accepted? ==>
        SameOccupants(st.grid, out.1.grid) && out.1.playersTurn == st.playersTurn
        && out.1.gameOver == st.gameOver && out.1.totalTurns == st.totalTurns
    ensures st.gameOver ==> Requested(st, from, to, draw, spawnDraw, tries) == (Rejected("Game is already over"), st)
  {
  }

  /**
   * A move is played only if the game is not over, both names read as
   * squares, the source square holds a piece of the player to move, and the
   * destination is one of that piece's moves on the board as it stands; the
   * move is then counted and the source is left selected.
   */
  lemma AcceptedIsLegal(st: Snapshot, from: string, to: string, draw: real, spawnDraw: real, tries: seq<Coord>)
    requires Sound(st) && OnBoard(tries)
    requires Requested(st, from, to, draw, spawnDraw, tries).0.Accepted?
    ensures !st.gameOver && Request(from, to).Some?
      && var req := Request(from, to).value;
      var s := Reached(req.0);
      st.grid[s.0][s.1].piece.Some?
      && st.grid[s.0][s.1].piece.value.color == CurrentPlayerColor(st.playersTurn)
      && req.1 in PieceMoves(CellsOf(Cleared(st.grid)), st.grid[s.0][s.1].piece.value)
      && Requested(st, from, to, draw, spawnDraw, tries).1.totalTurns == st.totalTurns + 1
      && Requested(st, from, to, draw, spawnDraw, tries).1.selected == Some(req.0)
  {
    var req := Request(from, to).value;
    OfferedMoves(st.grid, CurrentPlayerColor(st.playersTurn), Reached(req.0));
  }

  /**
   * After a move is played the answer reports the game's end as the board
   * records it, and the turn passes exactly when every king still has a
   * life; a king without lives ends the game.
   */
  lemma TurnPassesUnlessEliminated(st: Snapshot, from: string, to: string, draw: real, spawnDraw: real, tries: seq<Coord>)
    requires Sound(st) && OnBoard(tries)
    requires Requested(st, from, to, draw, spawnDraw, tries).0.Accepted?
    ensures var out := Requested(st, from, to, draw, spawnDraw, tries);
      out.0.gameOver == out.1.gameOver
      && (out.1.playersTurn == NextTurn(st.playersTurn) <==> KingsAlive(out.1.grid))
      && (!KingsAlive(out.1.grid) ==> out.1.gameOver && out.1.playersTurn == st.playersTurn)
      && (KingsAlive(out.1.grid) ==> (out.1.gameOver <==> Mated(out.1.grid, CurrentPlayerColor(out.1.playersTurn))))
  {
  }

  /**
   * Starting from a board where every king has a life, the only move that
   * can leave a king without one, and so end the game on lives, is a
   * powered rook capturing a piece that is not a king: its blast.
   */
  lemma EliminationNeedsBlast(st: Snapshot, from: string, to: string, draw: real, spawnDraw: real, tries: seq<Coord>)
    requires Sound(st) && OnBoard(tries) && KingsAlive(st.grid)
    requires Requested(st, from, to, draw, spawnDraw, tries).0.Accepted?
    requires !KingsAlive(Requested(st, from, to, draw, spawnDraw, tries).1.grid)
    ensures Request(from, to).Some?
      && var req := Request(from, to).value;
      var s, t := Reached(req.0), req.1;
      st.grid[s.0][s.1].piece.Some? && st.grid[s.0][s.1].piece.value.kind == Rook && st.grid[s.0][s.1].piece.value.hasPowerup
      && st.grid[t.0][t.1].piece.Some? && st.grid[t.0][t.1].piece.value.kind != King
  {
    var req := Request(from, to).value;
    var s, t := Reached(req.0), req.1;
    var c := CurrentPlayerColor(st.playersTurn);
    var h: Grid := Prepared(st.grid, c, s);
    SameOccupantsKeep(st.grid, h);
    assert Unflagged(h[s.0][s.1].piece) == Unflagged(st.grid[s.0][s.1].piece);
    assert Unflagged(h[t.0][t.1].piece) == Unflagged(st.grid[t.0][t.1].piece);
    PlayedNeedsBlast(st.(grid := h, selected := Some(req.0)), s, t, draw, spawnDraw, tries);
  }

  /** EliminationNeedsBlast for the played half of the request. */
  lemma PlayedNeedsBlast(st: Snapshot, s: Coord, t: Coord, draw: real, spawnDraw: real, tries: seq<Coord>)
    requires Sound(st) && InBounds(s.0, s.1) && InBounds(t.0, t.1) && OnBoard(tries) && KingsAlive(st.grid)
    requires Played(st, s, t, draw, spawnDraw, tries).0.Accepted?
    requires !KingsAlive(Played(st, s, t, draw, spawnDraw, tries).1.grid)
    ensures st.grid[s.0][s.1].piece.Some? && st.grid[s.0][s.1].piece.value.kind == Rook && st.grid[s.0][s.1].piece.value.hasPowerup
    ensures st.grid[t.0][t.1].piece.Some? && st.grid[t.0][t.1].piece.value.kind != King
  {
    OnlyBlastsEliminate(st.grid, s, t, draw);
    var m: Grid := Moved(st.grid, s, t, draw).value;
    MovedKeeps(st.grid, s, t, draw);
    SpawnedKeeps(m, st.totalTurns + 1, spawnDraw, tries);
  }

  // ---------------------------------------------------------------------------
  // make_move on the board

  /** make_move(move): answers the request and leaves the board as Requested says. */
  method MakeMove(board: Board, from: string, to: string, draw: real, spawnDraw: real, tries: seq<Coord>)
      returns (response: Response)
    requires board.Valid() && OnBoard(tries)
    modifies board`grid, board`gameOver, board`playersTurn, board`selected, board`totalTurns
    ensures board.Valid()
    ensures (response, SnapshotOf(board)) == Requested(old(SnapshotOf(board)), from, to, draw, spawnDraw, tries)
  {
    if board.gameOver {
      return Rejected("Game is already over");
    }
    var req := Request(from, to);
    if req.None? {
      return Failed;
    }
    var s := Reached(req.value.0);
    var c := CurrentPlayerColor(board.playersTurn);
    var x := board.grid[s.0][s.1].piece;
    if x.None? {
      return Rejected("No piece at source square");
    }
    if x.value.color != c {
      return Rejected("Not your turn. It's " + ColorName(c) + "'s turn");
    }
    response := Attempt(board, req.value, draw, spawnDraw, tries);
  }

  /** make_move from the danger pass on: the destination check, then the move. */
  method Attempt(board: Board, req: (Coord, Coord), draw: real, spawnDraw: real, tries: seq<Coord>) returns (response: Response)
    requires board.Valid() && OnBoard(tries) && Indexable(req.0.0, req.0.1) && Indexable(req.1.0, req.1.1)
    requires board.grid[Reached(req.0).0][Reached(req.0).1].piece.Some?
    modifies board`grid, board`gameOver, board`playersTurn, board`selected, board`totalTurns
    ensures board.Valid()
    ensures (response, SnapshotOf(board)) == Attempted(old(SnapshotOf(board)), req, draw, spawnDraw, tries)
  {
    ghost var st := SnapshotOf(board);
    var s := Reached(req.0);
    var moves := Prepare(board, CurrentPlayerColor(board.playersTurn), s);
    assert SnapshotOf(board) == st.(grid := board.grid);
    if req.1 !in moves {
      return Rejected("Invalid move for this piece");
    }
    response := PlayMove(board, req.0, req.1, draw, spawnDraw, tries);
  }

  /** The danger pass for c, then valid_moves on the piece on s, whose flags it may update. */
  method Prepare(board: Board, c: Color, s: Coord) returns (moves: seq<Coord>)
    requires board.Valid() && InBounds(s.0, s.1) && board.grid[s.0][s.1].piece.Some?
    modifies board`grid
    ensures board.Valid()
    ensures board.grid == Prepared(old(board.grid), c, s) && moves == Offered(old(board.grid), c, s)
  {
    DangerKeepsPieces(board.grid, c, s.0, s.1);
    board.KingDangerSpaces(c);
    moves := Ask(board, s);
  }

  /** valid_moves on the piece standing on s: its moves, with a king's flags updated in place. */
  method Ask(board: Board, s: Coord) returns (moves: seq<Coord>)
    requires board.Valid() && InBounds(s.0, s.1) && board.grid[s.0][s.1].piece.Some?
    modifies board`grid
    ensures board.Valid()
    ensures var p := old(board.grid)[s.0][s.1].piece.value;
      moves == PieceMoves(CellsOf(old(board.grid)), p)
      && board.grid == SetPiece(old(board.grid), s.0, s.1, Some(Asked(old(board.grid), p)))
  {
    var p := board.grid[s.0][s.1].piece.value;
    var q;
    moves, q := ValidMoves(CellsOf(board.grid), p, board.grid[p.rank][p.file].atkBy);
    SetPieceKeeps(board.grid, s.0, s.1, Some(q));
    board.grid := SetPiece(board.grid, s.0, s.1, Some(q));
  }

  /** The second half of make_move: the source is selected, board.move runs, and the move is concluded. */
  method PlayMove(board: Board, from: Coord, t: Coord, draw: real, spawnDraw: real, tries: seq<Coord>) returns (response: Response)
    requires board.Valid() && Indexable(from.0, from.1) && InBounds(t.0, t.1) && OnBoard(tries)
    modifies board`grid, board`gameOver, board`playersTurn, board`selected, board`totalTurns
    ensures board.Valid()
    ensures (response, SnapshotOf(board)) == Played(old(SnapshotOf(board)).(selected := Some(from)), Reached(from), t, draw, spawnDraw, tries)
  {
    board.selected := Some(from);
    ghost var st := SnapshotOf(board);
    ghost var s := Reached(from);
    var outcome := board.Move(t.0, t.1, draw, spawnDraw, tries);
    assert SnapshotOf(board) == st.(grid := board.grid, totalTurns := board.totalTurns);
    if outcome.Err? {
      return Failed;
    }
    PlayedMoves(st, s, t, draw, spawnDraw, tries);
    response := Conclude(board);
  }

  /** The scan for a king without lives, then the passing of the turn and the scan for checkmate. */
  method Conclude(board: Board) returns (response: Response)
    requires board.Valid()
    modifies board`grid, board`gameOver, board`playersTurn
    ensures board.Valid()
    ensures (response, SnapshotOf(board)) == Concluded(old(SnapshotOf(board)))
  {
    var eliminated := EliminatedKing(board.grid);
    if eliminated.Some? {
      board.gameOver := true;
      return Accepted(true);
    }
    board.playersTurn := NextTurn(board.playersTurn);
    var opponent := CurrentPlayerColor(board.playersTurn);
    board.KingDangerSpaces(opponent);
    var mate := CheckmateScan(board.grid, opponent);
    if mate {
      board.gameOver := true;
    }
    response := Accepted(board.gameOver);
  }
}
