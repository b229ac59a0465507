/**
 * The board of the powerup chess variant (Board.py): the grid together with
 * the game counters, and the operations that change them.
 */
module Boards {
  import opened Options
  import opened Pieces
  import opened Grids
  import opened Rules

  class Board {
    var grid: Grid
    var gameOver: bool
    /** 1 while white is to move, 2 while black is. */
    var playersTurn: int
    /** The square whose piece is about to move, as given (Python indices may be negative). */
    var selected: Option<Coord>
    var selectedMoves: Option<seq<Coord>>
    var totalTurns: int

    predicate Valid()
      reads this
    {
      IsGrid(grid) && Positioned(grid) && (selected.Some? ==> Indexable(selected.value.0, selected.value.1))
    }

    /** Board.__init__: the start position, white to move, nothing selected, no turn taken. */
    constructor()
      ensures Valid() && grid == StartGrid()
      ensures !gameOver && playersTurn == 1 && selected == None && selectedMoves == None && totalTurns == 0
    {
      grid := EmptyGrid();
      gameOver := false;
      playersTurn := 1;
      selected := None;
      selectedMoves := None;
      totalTurns := 0;
      new;
      Initialize();
    }

    /** Board._initialize: the pawn loop, then rooks, knights, bishops, queens and kings. */
    method Initialize()
      requires Valid() && grid == EmptyGrid()
      modifies this`grid
      ensures Valid() && grid == StartGrid()
    {
      PlacePawns();
      PlaceBackRanks();
      BackRanksStart();
      StartPositioned();
    }

    /** The pawn loop of _initialize: eight white pawns on rank 6, then eight black pawns on rank 1. */
    method PlacePawns()
      requires IsGrid(grid) && grid == EmptyGrid()
      modifies this`grid
      ensures IsGrid(grid) && grid == PawnsPlaced(16)
    {
      PawnsNone();
      NamesKnown();
      for i := 0 to 16
        invariant IsGrid(grid) && grid == PawnsPlaced(i)
      {
        PawnsNext(i);
        var added;
        if i < 8 {
          added := AddPiece(White, "pawn", 6, i);
        } else {
          added := AddPiece(Black, "pawn", 1, i - 8);
        }
      }
    }

    /** The sixteen back-rank add_piece calls of _initialize, group by group. */
    method PlaceBackRanks()
      requires IsGrid(grid) && grid == PawnsPlaced(16)
      modifies this`grid
      ensures IsGrid(grid) && grid == BackRanksOn(PawnsPlaced(16))
    {
      PlaceRooks();
      PlaceKnights();
      PlaceBishops();
      PlaceRoyals();
    }

    /** The add_piece calls of _initialize for the rooks. */
    method PlaceRooks()
      requires IsGrid(grid)
      requires grid[7][0].piece.None? && grid[7][7].piece.None? && grid[0][0].piece.None? && grid[0][7].piece.None?
      modifies this`grid
      ensures IsGrid(grid) && grid == RooksOn(old(grid))
    {
      NamesKnown();
      var added;
      added := AddPiece(White, "rook", 7, 0);
      added := AddPiece(White, "rook", 7, 7);
      added := AddPiece(Black, "rook", 0, 0);
      added := AddPiece(Black, "rook", 0, 7);
    }

    /** The add_piece calls of _initialize for the knights. */
    method PlaceKnights()
      requires IsGrid(grid)
      requires grid[7][1].piece.None? && grid[7][6].piece.None? && grid[0][1].piece.None? && grid[0][6].piece.None?
      modifies this`grid
      ensures IsGrid(grid) && grid == KnightsOn(old(grid))
    {
      NamesKnown();
      var added;
      added := AddPiece(White, "knight", 7, 1);
      added := AddPiece(White, "knight", 7, 6);
      added := AddPiece(Black, "knight", 0, 1);
      added := AddPiece(Black, "knight", 0, 6);
    }

    /** The add_piece calls of _initialize for the bishops. */
    method PlaceBishops()
      requires IsGrid(grid)
      requires grid[7][2].piece.None? && grid[7][5].piece.None? && grid[0][2].piece.None? && grid[0][5].piece.None?
      modifies this`grid
      ensures IsGrid(grid) && grid == BishopsOn(old(grid))
    {
      NamesKnown();
      var added;
      added := AddPiece(White, "bishop", 7, 2);
      added := AddPiece(White, "bishop", 7, 5);
      added := AddPiece(Black, "bishop", 0, 2);
      added := AddPiece(Black, "bishop", 0, 5);
    }

    /** The add_piece calls of _initialize for the queens and kings. */
    method PlaceRoyals()
      requires IsGrid(grid)
      requires grid[7][3].piece.None? && grid[0][3].piece.None? && grid[7][4].piece.None? && grid[0][4].piece.None?
      modifies this`grid
      ensures IsGrid(grid) && grid == RoyalsOn(old(grid))
    {
      NamesKnown();
      var added;
      added := AddPiece(White, "queen", 7, 3);
      added := AddPiece(Black, "queen", 0, 3);
      added := AddPiece(White, "king", 7, 4);
      added := AddPiece(Black, "king", 0, 4);
    }

    /**
     * Board.add_piece: a new piece of the named kind and the given colour on
     * (rank, file), if that square is empty; an occupied square or an unknown
     * name raises, and then nothing changes.
     */
    method AddPiece(color: Color, pieceType: string, rank: int, file: int) returns (added: Result<Piece>)
      requires IsGrid(grid) && InBounds(rank, file)
      modifies this`grid
      ensures IsGrid(grid)
      ensures Positioned(old(grid)) ==> Positioned(grid)
      ensures old(grid[rank][file].piece).Some? ==> added.Err? && grid == old(grid)
      ensures old(grid[rank][file].piece).None? && KindNamed(pieceType).None? ==> added.Err? && grid == old(grid)
      ensures old(grid[rank][file].piece).None? && KindNamed(pieceType).Some? ==>
        added == Ok(NewPiece(KindNamed(pieceType).value, color, rank, file))
        && grid == SetPiece(old(grid), rank, file, Some(added.value))
    {
      if grid[rank][file].piece.Some? {
        return Err("Square (" + [Digit(rank)] + ", " + [Digit(file)] + ") already has a piece");
      }
      var kind := KindNamed(pieceType);
      if kind.None? {
        return Err("Invalid Piece Type: " + pieceType);
      }
      var newPiece := NewPiece(kind.value, color, rank, file);
      grid := SetPiece(grid, rank, file, Some(newPiece));
      added := Ok(newPiece);
    }

    /** Board._reset_atk_by: lowers the flag of every square, rank by rank. */
    method ResetAtkBy()
      requires Valid()
      modifies this`grid
      ensures Valid() && grid == Cleared(old(grid))
    {
      ghost var g0 := grid;
      ClearedNone(g0);
      for rank := 0 to 8
        invariant IsGrid(grid) && grid == ClearedBefore(g0, Index(rank, 0))
      {
        for file := 0 to 8
          invariant IsGrid(grid) && grid == ClearedBefore(g0, Index(rank, file))
        {
          ClearedNext(g0, rank, file);
          grid := SetFlag(grid, rank, file, false);
        }
      }
      ClearedSquares(g0);
    }

    /**
     * Board.king_danger_spaces(c): lowers every flag, then visits the squares
     * in row-major order and raises the flag of each square whose piece, of a
     * colour other than c, has somewhere to go. Asking a king for its moves
     * also updates its check and checkmate fields.
     */
    method KingDangerSpaces(c: Color)
      requires Valid()
      modifies this`grid
      ensures Valid() && grid == Danger(old(grid), c)
    {
      ghost var g0 := grid;
      ResetAtkBy();
      DangerNone(g0, c);
      for rank := 0 to 8
        invariant IsGrid(grid) && grid == DangerBefore(g0, c, Index(rank, 0))
      {
        VisitRank(c, rank, g0);
      }
      DangerSameCells(g0, c);
    }

    /** The inner loop of king_danger_spaces: the squares of one rank, file by file. */
    method VisitRank(c: Color, rank: int, ghost g0: Grid)
      requires IsGrid(g0) && Positioned(g0) && 0 <= rank < 8
      requires IsGrid(grid) && grid == DangerBefore(g0, c, Index(rank, 0))
      modifies this`grid
      ensures IsGrid(grid) && grid == DangerBefore(g0, c, Index(rank + 1, 0))
    {
      for file := 0 to 8
        invariant IsGrid(grid) && grid == DangerBefore(g0, c, Index(rank, file))
      {
        DangerNext(g0, c, rank, file);
        VisitSquare(c, rank, file);
      }
    }

    /** One iteration of king_danger_spaces' loop. */
    method VisitSquare(c: Color, r: int, f: int)
      requires IsGrid(grid) && Positioned(grid) && InBounds(r, f)
      modifies this`grid
      ensures grid == Visit(old(grid), c, r, f)
    {
      var s := grid[r][f];
      if s.piece.Some? && s.piece.value.color != c {
        var p := s.piece.value;
        var moves, q := ValidMoves(CellsOf(grid), p, grid[p.rank][p.file].atkBy);
        grid := grid[r := grid[r][f := Square(Some(q), s.atkBy || |moves| > 0)]];
      }
    }

    /**
     * Board.transform_pawn: empties the pawn's square and adds there the
     * kind the draw picks, in the pawn's colour.
     */
    method TransformPawn(pawn: Piece, draw: real) returns (promoted: Result<Piece>)
      requires IsGrid(grid) && InBounds(pawn.rank, pawn.file)
      modifies this`grid
      ensures promoted == Ok(NewPiece(PromotionKind(draw), pawn.color, pawn.rank, pawn.file))
      ensures grid == SetPiece(old(grid), pawn.rank, pawn.file, Some(promoted.value))
    {
      var newType := if draw > 0.9 then "queen" else if draw > 0.6 then "rook" else if draw > 0.3 then "bishop" else "knight";
      ghost var g0 := grid;
      grid := SetPiece(grid, pawn.rank, pawn.file, None);
      NamesKnown();
      promoted := AddPiece(pawn.color, newType, pawn.rank, pawn.file);
      SetPieceTwice(g0, pawn.rank, pawn.file, None, Some(promoted.value));
    }

    /** The blast loop of move: each orthogonal neighbour of t, in turn. */
    method Blast(t: Coord)
      requires IsGrid(grid) && InBounds(t.0, t.1)
      modifies this`grid
      ensures grid == Blasted(old(grid), t)
    {
      ghost var g0 := grid;
      BlastedNone(g0, t);
      for i := 0 to 4
        invariant IsGrid(grid) && grid == BlastedBefore(g0, t, i)
      {
        BlastedNext(g0, t, i);
        var tr, tf := t.0 + BlastOffsets[i].0, t.1 + BlastOffsets[i].1;
        if 0 <= tr < 8 && 0 <= tf < 8 && grid[tr][tf].piece.Some? {
          var hit := grid[tr][tf].piece.value;
          if hit.kind != King {
            grid := SetPiece(grid, tr, tf, None);
          } else {
            grid := SetPiece(grid, tr, tf, Some(hit.(livesRemaining := hit.livesRemaining - 1)));
          }
        } else if 0 <= tr < 8 && 0 <= tf < 8 {
          SetPieceSame(grid, tr, tf);
        }
      }
    }

    /** The ordinary branch of move, for a target square that is vacant or holds no king. */
    method Advance(s: Coord, t: Coord, p: Piece, draw: real)
      requires IsGrid(grid) && InBounds(s.0, s.1) && InBounds(t.0, t.1)
      modifies this`grid
      ensures grid == Advanced(old(grid), s, t, p, draw)
    {
      if p.kind == Rook && p.hasPowerup && grid[t.0][t.1].piece.Some? {
        Blast(t);
      }
      grid := SetPiece(grid, s.0, s.1, None);
      Arrive(t, p, draw);
    }

    /**
     * The rest of the ordinary branch, once the mover has left its square:
     * the mover, now on t and without its powerup, collects what t holds
     * and is put there; kings and pawns are marked as having moved.
     */
    method Arrive(t: Coord, p: Piece, draw: real)
      requires IsGrid(grid) && InBounds(t.0, t.1)
      modifies this`grid
      ensures grid == SetPiece(old(grid), t.0, t.1, Some(Arrival(p, t, old(grid)[t.0][t.1].piece, draw)))
    {
      var current := p.(rank := t.0, file := t.1, hasPowerup := false);
      ghost var g0 := grid;
      var found := grid[t.0][t.1].piece;
      if found.Some? && found.value.hasPowerup {
        if current.kind == Pawn {
          var promoted := TransformPawn(current, draw);
          current := promoted.value;
        } else if current.kind == King {
          current := current.(livesRemaining := current.livesRemaining + 1);
        } else {
          current := current.(hasPowerup := true);
        }
      }
      SetPieceTwice(g0, t.0, t.1, grid[t.0][t.1].piece, Some(current));
      grid := SetPiece(grid, t.0, t.1, Some(current));
      if current.kind == King || current.kind == Pawn {
        SetPieceTwice(g0, t.0, t.1, Some(current), Some(current.(hasMoved := true)));
        current := current.(hasMoved := true);
        grid := SetPiece(grid, t.0, t.1, Some(current));
      }
    }

    /** A powered bishop's conversion of the piece on t to its colour. */
    method Convert(s: Coord, t: Coord, p: Piece)
      requires IsGrid(grid) && InBounds(s.0, s.1) && InBounds(t.0, t.1) && grid[t.0][t.1].piece.Some?
      modifies this`grid
      ensures grid == Converted(old(grid), s, t, p)
    {
      var target := grid[t.0][t.1].piece.value;
      grid := SetPiece(grid, t.0, t.1, Some(target.(color := p.color)));
      grid := SetPiece(grid, s.0, s.1, Some(p.(hasPowerup := false)));
    }

    /** The branch of move for a target square holding a king. */
    method Strike(s: Coord, t: Coord, p: Piece)
      requires IsGrid(grid) && InBounds(s.0, s.1) && InBounds(t.0, t.1)
      requires grid[s.0][s.1].piece == Some(p) && grid[t.0][t.1].piece.Some?
      modifies this`grid
      ensures grid == Struck(old(grid), s, t, p)
    {
      var king := grid[t.0][t.1].piece.value;
      if king.livesRemaining > 1 {
        grid := SetPiece(grid, t.0, t.1, Some(king.(livesRemaining := king.livesRemaining - 1)));
        grid := SetPiece(grid, s.0, s.1, Some(grid[s.0][s.1].piece.value.(hasPowerup := false)));
      } else {
        grid := SetPiece(grid, t.0, t.1, Some(p.(hasPowerup := false)));
        grid := SetPiece(grid, s.0, s.1, None);
      }
    }

    /** The powerup loop of move: the squares tried in turn until a vacant one gets a powerup. */
    method SpawnPowerup(tries: seq<Coord>)
      requires IsGrid(grid) && OnBoard(tries)
      modifies this`grid
      ensures IsGrid(grid)
      ensures FirstVacant(old(grid), tries).None? ==> grid == old(grid)
      ensures FirstVacant(old(grid), tries).Some? ==>
        var x := FirstVacant(old(grid), tries).value;
        grid == SetPiece(old(grid), x.0, x.1, Some(NewPiece(PowerUp, White, x.0, x.1)))
    {
      NamesKnown();
      var i := 0;
      while i < |tries|
        invariant 0 <= i <= |tries| && grid == old(grid)
        invariant FirstVacant(grid, tries[i..]) == FirstVacant(grid, tries)
      {
        var (r, f) := tries[i];
        assert tries[i..][0] == tries[i] && tries[i..][1..] == tries[i + 1..];
        if grid[r][f].piece.None? {
          var added := AddPiece(White, "powerup", r, f);
          return;
        }
        i := i + 1;
      }
    }

    /**
     * Board.move: moves the selected piece to (rank, file), then counts the
     * move and, once the delay has passed and the draw allows, spawns a
     * powerup. draw is the number a promotion would use, spawnDraw the one
     * the powerup step uses, and tries the random squares it would try.
     */
    method Move(rank: int, file: int, draw: real, spawnDraw: real, tries: seq<Coord>) returns (outcome: Result<()>)
      requires Valid() && InBounds(rank, file) && OnBoard(tries)
      modifies this`grid, this`totalTurns
      ensures Valid()
      ensures selected.None? ==> outcome.Err? && grid == old(grid) && totalTurns == old(totalTurns)
      ensures selected.Some? ==>
        var m := Moved(old(grid), (Wrap(selected.value.0), Wrap(selected.value.1)), (rank, file), draw);
        (m.Err? ==> outcome == Err(m.message) && grid == old(grid) && totalTurns == old(totalTurns))
        && (m.Ok? ==> outcome == Ok(()) && totalTurns == old(totalTurns) + 1 && grid == Spawned(m.value, totalTurns, spawnDraw, tries))
    {
      if selected.None? {
        return Err("'NoneType' object is not subscriptable");
      }
      var s := (Wrap(selected.value.0), Wrap(selected.value.1));
      var t := (rank, file);
      ghost var m := Moved(grid, s, t, draw);
      if grid[s.0][s.1].piece.None? {
        return Err("'NoneType' object has no attribute 'character'");
      }
      var current := grid[s.0][s.1].piece.value;
      var target := grid[rank][file].piece;
      var converted := false;
      if current.kind == Bishop && current.hasPowerup && target.Some? && target.value.color != current.color {
        if target.value.kind == King {
          return Err("'King' object has no attribute 'lives_left'");
        }
        if current.color == White || current.color == Black {
          Convert(s, t, current);
          converted := true;
        }
      }
      if !converted {
        if target.None? || target.value.kind != King {
          Advance(s, t, current, draw);
        } else {
          Strike(s, t, current);
        }
      }
      assert m.Ok? && grid == m.value;
      MovedKeeps(old(grid), s, t, draw);
      FinishTurn(spawnDraw, tries);
      outcome := Ok(());
    }

    /** The end of move: the move is counted, then the powerup step runs. */
    method FinishTurn(spawnDraw: real, tries: seq<Coord>)
      requires IsGrid(grid) && Positioned(grid) && OnBoard(tries)
      modifies this`grid, this`totalTurns
      ensures IsGrid(grid) && Positioned(grid)
      ensures totalTurns == old(totalTurns) + 1 && grid == Spawned(old(grid), totalTurns, spawnDraw, tries)
    {
      totalTurns := totalTurns + 1;
      if totalTurns > PowerupDelayTurns && spawnDraw <= PowerupChance {
        SpawnPowerup(tries);
      }
      if FirstVacant(old(grid), tries).Some? {
        var x := FirstVacant(old(grid), tries).value;
        SetPieceKeeps(old(grid), x.0, x.1, Some(NewPiece(PowerUp, White, x.0, x.1)));
      }
    }

    /**
     * Board.select(rank, file): with nothing selected, selects the square and
     * lists its piece's moves (failing on an empty square after selecting it);
     * on the selected square again, clears the selection; on a listed square,
     * moves there and clears the selection. Any other square is ignored.
     */
    method Select(rank: int, file: int, draw: real, spawnDraw: real, tries: seq<Coord>) returns (outcome: Result<()>)
      requires Valid() && InBounds(rank, file) && OnBoard(tries)
      modifies this`grid, this`selected, this`selectedMoves, this`totalTurns
      ensures Valid()
      ensures old(selected).None? ==>
        var x := old(grid)[rank][file].piece;
        selected == Some((rank, file)) && totalTurns == old(totalTurns)
        && (x.None? ==> outcome.Err? && grid == old(grid) && selectedMoves == old(selectedMoves))
        && (x.Some? ==>
              outcome == Ok(()) && selectedMoves == Some(PieceMoves(CellsOf(old(grid)), x.value))
              && grid == SetPiece(old(grid), rank, file, Some(Asked(old(grid), x.value))))
      ensures old(selected) == Some((rank, file)) ==>
        outcome == Ok(()) && selected == None && selectedMoves == None && grid == old(grid) && totalTurns == old(totalTurns)
      ensures old(selected).Some? && old(selected) != Some((rank, file)) && old(selectedMoves).None? ==>
        outcome.Err? && grid == old(grid) && selected == old(selected) && selectedMoves == None && totalTurns == old(totalTurns)
      ensures (old(selected).Some? && old(selected) != Some((rank, file)) && old(selectedMoves).Some?
               && (rank, file) !in old(selectedMoves).value) ==>
        outcome == Ok(()) && grid == old(grid) && selected == old(selected) && selectedMoves == old(selectedMoves)
        && totalTurns == old(totalTurns)
      ensures (old(selected).Some? && old(selected) != Some((rank, file)) && old(selectedMoves).Some?
               && (rank, file) in old(selectedMoves).value) ==>
        var m := Moved(old(grid), (Wrap(old(selected).value.0), Wrap(old(selected).value.1)), (rank, file), draw);
        (m.Err? ==>
           outcome == Err(m.message) && grid == old(grid) && selected == old(selected)
           && selectedMoves == old(selectedMoves) && totalTurns == old(totalTurns))
        && (m.Ok? ==>
              outcome == Ok(()) && grid == Spawned(m.value, totalTurns, spawnDraw, tries)
              && totalTurns == old(totalTurns) + 1 && selected == None && selectedMoves == None)
    {
      if selected.None? {
        selected := Some((rank, file));
        if grid[rank][file].piece.None? {
          return Err("'NoneType' object has no attribute 'valid_moves'");
        }
        var p := grid[rank][file].piece.value;
        var moves, q := ValidMoves(CellsOf(grid), p, grid[p.rank][p.file].atkBy);
        SetPieceKeeps(grid, rank, file, Some(q));
        grid := SetPiece(grid, rank, file, Some(q));
        selectedMoves := Some(moves);
        return Ok(());
      }
      if selected == Some((rank, file)) {
        selected := None;
        selectedMoves := None;
        return Ok(());
      }
      if selectedMoves.None? {
        return Err("argument of type 'NoneType' is not iterable");
      }
      if (rank, file) in selectedMoves.value {
        outcome := Move(rank, file, draw, spawnDraw, tries);
        if outcome.Err? {
          return;
        }
        selected := None;
        selectedMoves := None;
      }
      outcome := Ok(());
    }
  }
}
