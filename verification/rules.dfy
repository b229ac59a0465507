/**
 * What the board's operations do to the grid, as functions of the grid they
 * start from, and the properties those functions have.
 */
module Rules {
  import opened Options
  import opened Pieces
  import opened Grids

  /** Position of (r, f) in the row-major order the board's nested loops visit squares in. */
  function Index(r: int, f: int): int
  {
    8 * r + f
  }

  /** Two grids that agree on (r, f) and on every other square are equal. */
  lemma SameBut(g: Grid, h: Grid, r: int, f: int)
    requires IsGrid(g) && IsGrid(h) && InBounds(r, f) && g[r][f] == h[r][f]
    requires forall r', f' :: InBounds(r', f') && Index(r', f') != Index(r, f) ==> g[r'][f'] == h[r'][f']
    ensures g == h
  {
    SameGrid(g, h);
  }

  // ---------------------------------------------------------------------------
  // Clearing the attacked flags (_reset_atk_by)

  /** g after the squares before position k, in row-major order, have had their flag lowered. */
  function ClearedBefore(g: Grid, k: int): (h: Grid)
    requires IsGrid(g)
    ensures IsGrid(h)
  {
    seq(8, r requires 0 <= r < 8 => seq(8, f requires 0 <= f < 8 =>
      if Index(r, f) < k then g[r][f].(atkBy := false) else g[r][f]))
  }

  /** g with every flag lowered. */
  function Cleared(g: Grid): (h: Grid)
    requires IsGrid(g)
    ensures IsGrid(h)
  {
    ClearedBefore(g, 64)
  }

  /** Clearing keeps every occupant and lowers every flag. */
  lemma ClearedSquares(g: Grid)
    requires IsGrid(g)
    ensures Positioned(g) ==> Positioned(Cleared(g))
    ensures forall r, f :: InBounds(r, f) ==> Cleared(g)[r][f] == Square(g[r][f].piece, false)
  {
  }

  lemma ClearedNone(g: Grid)
    requires IsGrid(g)
    ensures ClearedBefore(g, 0) == g
  {
    SameGrid(ClearedBefore(g, 0), g);
  }

  lemma ClearedNext(g: Grid, r: int, f: int)
    requires IsGrid(g) && InBounds(r, f)
    ensures SetFlag(ClearedBefore(g, Index(r, f)), r, f, false) == ClearedBefore(g, Index(r, f) + 1)
  {
    SameGrid(SetFlag(ClearedBefore(g, Index(r, f)), r, f, false), ClearedBefore(g, Index(r, f) + 1));
  }

  // ---------------------------------------------------------------------------
  // The danger pass (king_danger_spaces)

  /**
   * Whether the piece on (r, f) counts as an attacker against colour c: it
   * belongs to another colour and valid_moves lists at least one square for it.
   */
  predicate Attacks(g: Grid, c: Color, r: int, f: int)
    requires IsGrid(g) && Positioned(g) && InBounds(r, f)
  {
    ClearedSquares(g);
    g[r][f].piece.Some? && g[r][f].piece.value.color != c
    && |PieceMoves(CellsOf(Cleared(g)), g[r][f].piece.value)| > 0
  }

  /**
   * Square (r, f) of g once the pass against colour c has visited every square
   * before position k. A visited attacker has its flag raised; a visited king
   * of another colour records as `check` the flag of the square it believes it
   * stands on, as that flag was when the king was visited.
   */
  function Marked(g: Grid, c: Color, k: int, r: int, f: int): Square
    requires IsGrid(g) && Positioned(g) && InBounds(r, f)
  {
    var s := g[r][f];
    if k <= Index(r, f) || s.piece.None? || s.piece.value.color == c then s.(atkBy := false)
    else
      var p := s.piece.value;
      ClearedSquares(g);
      var moves := PieceMoves(CellsOf(Cleared(g)), p);
      var own := Index(p.rank, p.file) < Index(r, f) && Attacks(g, c, p.rank, p.file);
      Square(Some(if p.kind == King then p.(check := own, checkmate := |moves| == 0 && own) else p), |moves| > 0)
  }

  /**
   * The piece p once valid_moves has been asked for its moves on g: a king
   * records as `check` the flag of the square it believes it stands on, and
   * `checkmate` when it is in check with nowhere to go; other pieces do not change.
   */
  function Asked(g: Grid, p: Piece): (q: Piece)
    requires IsGrid(g) && InBounds(p.rank, p.file)
    ensures q.(check := p.check, checkmate := p.checkmate) == p
    ensures q.kind == King ==> (q.checkmate <==> q.check && |PieceMoves(CellsOf(g), p)| == 0)
  {
    if p.kind == King then
      var own := g[p.rank][p.file].atkBy;
      p.(check := own, checkmate := |PieceMoves(CellsOf(g), p)| == 0 && own)
    else p
  }

  /** The grid once the pass against c has visited the squares before position k. */
  function DangerBefore(g: Grid, c: Color, k: int): (h: Grid)
    requires IsGrid(g) && Positioned(g)
    ensures IsGrid(h)
  {
    seq(8, r requires 0 <= r < 8 => seq(8, f requires 0 <= f < 8 => Marked(g, c, k, r, f)))
  }

  /** The grid king_danger_spaces(c) leaves behind. */
  function Danger(g: Grid, c: Color): (h: Grid)
    requires IsGrid(g) && Positioned(g)
    ensures IsGrid(h)
  {
    DangerBefore(g, c, 64)
  }

  /** One visit of the pass: what the body of king_danger_spaces' loop does to square (r, f). */
  function Visit(g: Grid, c: Color, r: int, f: int): (h: Grid)
    requires IsGrid(g) && Positioned(g) && InBounds(r, f)
    ensures IsGrid(h)
  {
    var s := g[r][f];
    if s.piece.None? || s.piece.value.color == c then g
    else
      var p := s.piece.value;
      var moves := PieceMoves(CellsOf(g), p);
      var own := g[p.rank][p.file].atkBy;
      var q := if p.kind == King then p.(check := own, checkmate := |moves| == 0 && own) else p;
      g[r := g[r][f := Square(Some(q), s.atkBy || |moves| > 0)]]
  }

  /** Every visited or unvisited square shows the move generators what the cleared grid shows. */
  lemma DangerCells(g: Grid, c: Color, k: int)
    requires IsGrid(g) && Positioned(g)
    ensures Positioned(DangerBefore(g, c, k))
    ensures CellsOf(DangerBefore(g, c, k)) == CellsOf(Cleared(g))
  {
    ClearedSquares(g);
    var h := DangerBefore(g, c, k);
    SameCells(h, Cleared(g));
  }

  lemma DangerNone(g: Grid, c: Color)
    requires IsGrid(g) && Positioned(g)
    ensures DangerBefore(g, c, 0) == Cleared(g)
  {
    ClearedSquares(g);
    SameGrid(DangerBefore(g, c, 0), Cleared(g));
  }

  /** Visiting the square at position k settles that square as the pass leaves it. */
  lemma DangerVisited(g: Grid, c: Color, r: int, f: int)
    requires IsGrid(g) && Positioned(g) && InBounds(r, f)
    ensures Positioned(DangerBefore(g, c, Index(r, f)))
    ensures Visit(DangerBefore(g, c, Index(r, f)), c, r, f)[r][f] == DangerBefore(g, c, Index(r, f) + 1)[r][f]
  {
    var k := Index(r, f);
    var h: Grid := DangerBefore(g, c, k);
    DangerCells(g, c, k);
    var s: Square := g[r][f];
    if s.piece.Some? && s.piece.value.color != c {
      var p: Piece := s.piece.value;
      assert h[p.rank][p.file].atkBy == (Index(p.rank, p.file) < k && Attacks(g, c, p.rank, p.file));
    }
  }

  /** Visiting the square at position k leaves every other square as it was. */
  lemma DangerElsewhere(g: Grid, c: Color, r: int, f: int)
    requires IsGrid(g) && Positioned(g) && InBounds(r, f)
    ensures Positioned(DangerBefore(g, c, Index(r, f)))
    ensures forall r', f' :: InBounds(r', f') && Index(r', f') != Index(r, f) ==>
      Visit(DangerBefore(g, c, Index(r, f)), c, r, f)[r'][f'] == DangerBefore(g, c, Index(r, f) + 1)[r'][f']
  {
    var k := Index(r, f);
    DangerCells(g, c, k);
    var v := Visit(DangerBefore(g, c, k), c, r, f);
    forall r', f' | InBounds(r', f') && Index(r', f') != k
      ensures v[r'][f'] == DangerBefore(g, c, k + 1)[r'][f']
    {
      assert v[r'][f'] == DangerBefore(g, c, k)[r'][f'];
      MarkedStable(g, c, k, r', f');
    }
  }

  lemma MarkedStable(g: Grid, c: Color, k: int, r: int, f: int)
    requires IsGrid(g) && Positioned(g) && InBounds(r, f) && Index(r, f) != k
    ensures Marked(g, c, k, r, f) == Marked(g, c, k + 1, r, f)
  {
  }

  /** Visiting the square at position k takes the pass from k to k + 1. */
  lemma DangerNext(g: Grid, c: Color, r: int, f: int)
    requires IsGrid(g) && Positioned(g) && InBounds(r, f)
    ensures Positioned(DangerBefore(g, c, Index(r, f)))
    ensures Visit(DangerBefore(g, c, Index(r, f)), c, r, f) == DangerBefore(g, c, Index(r, f) + 1)
  {
    DangerVisited(g, c, r, f);
    DangerElsewhere(g, c, r, f);
    SameBut(Visit(DangerBefore(g, c, Index(r, f)), c, r, f), DangerBefore(g, c, Index(r, f) + 1), r, f);
  }

  /** After the pass a square is flagged exactly when it holds an attacker against c. */
  lemma DangerFlags(g: Grid, c: Color, r: int, f: int)
    requires IsGrid(g) && Positioned(g) && InBounds(r, f)
    ensures Danger(g, c)[r][f].atkBy <==> Attacks(g, c, r, f)
    ensures g[r][f].piece.None? ==> !Danger(g, c)[r][f].atkBy
  {
  }

  /**
   * The pass moves no piece: every square keeps its occupant, and only a king
   * of another colour than c changes, in its check and checkmate fields.
   */
  lemma DangerKeepsPieces(g: Grid, c: Color, r: int, f: int)
    requires IsGrid(g) && Positioned(g) && InBounds(r, f)
    ensures Danger(g, c)[r][f].piece.Some? == g[r][f].piece.Some?
    ensures g[r][f].piece.Some? ==>
      var p, q := g[r][f].piece.value, Danger(g, c)[r][f].piece.value;
      q.(check := p.check, checkmate := p.checkmate) == p && (p.color == c || p.kind != King ==> q == p)
  {
  }

  /** The pass moves no piece and takes no life. */
  lemma DangerSameOccupants(g: Grid, c: Color)
    requires IsGrid(g) && Positioned(g)
    ensures SameOccupants(g, Danger(g, c))
  {
    forall r, f | 0 <= r < 8 && 0 <= f < 8
      ensures Unflagged(Danger(g, c)[r][f].piece) == Unflagged(g[r][f].piece)
    {
      DangerKeepsPieces(g, c, r, f);
    }
  }

  /** Asking a piece for its moves changes no more than its own flags. */
  lemma AskedSameOccupants(g: Grid, r: int, f: int)
    requires IsGrid(g) && InBounds(r, f) && g[r][f].piece.Some?
    requires InBounds(g[r][f].piece.value.rank, g[r][f].piece.value.file)
    ensures SameOccupants(g, SetPiece(g, r, f, Some(Asked(g, g[r][f].piece.value))))
  {
    var h: Grid := SetPiece(g, r, f, Some(Asked(g, g[r][f].piece.value)));
    assert Unflagged(h[r][f].piece) == Unflagged(g[r][f].piece);
  }

  /** The pass changes nothing the move generators look at once the flags are lowered. */
  lemma DangerSameCells(g: Grid, c: Color)
    requires IsGrid(g) && Positioned(g)
    ensures Positioned(Danger(g, c)) && CellsOf(Danger(g, c)) == CellsOf(Cleared(g))
  {
    DangerCells(g, c, 64);
  }

  /**
   * On a grid where every piece knows its square, the pass leaves every king
   * of another colour out of check: a king reads its own flag before the pass
   * has raised it. So make_move's checkmate test can only fire for a king
   * whose coordinates are stale.
   */
  lemma DangerNeverChecks(g: Grid, c: Color, r: int, f: int)
    requires IsGrid(g) && Positioned(g) && Placed(g) && InBounds(r, f)
    requires g[r][f].piece.Some? && g[r][f].piece.value.kind == King && g[r][f].piece.value.color != c
    ensures !Danger(g, c)[r][f].piece.value.check && !Danger(g, c)[r][f].piece.value.checkmate
  {
  }

  // ---------------------------------------------------------------------------
  // The powered rook's blast

  /** The squares a powered rook's capture hits, relative to the captured square, in the order it hits them. */
  const BlastOffsets: seq<Coord> := [(1, 0), (0, 1), (-1, 0), (0, -1)]

  /** What a blast does to one square: a king loses a life, any other piece is removed. */
  function BlastSquare(s: Square): Square
  {
    if s.piece.None? then s
    else if s.piece.value.kind == King then s.(piece := Some(s.piece.value.(livesRemaining := s.piece.value.livesRemaining - 1)))
    else s.(piece := None)
  }

  /** Whether (r, f) is hit by one of the first i blast offsets around t. */
  predicate HitBy(t: Coord, i: int, r: int, f: int)
  {
    exists j :: 0 <= j < i && j < 4 && (r, f) == (t.0 + BlastOffsets[j].0, t.1 + BlastOffsets[j].1)
  }

  /** g after the blast around t has hit its first i squares. */
  function BlastedBefore(g: Grid, t: Coord, i: int): (h: Grid)
    requires IsGrid(g)
    ensures IsGrid(h)
  {
    seq(8, r requires 0 <= r < 8 => seq(8, f requires 0 <= f < 8 =>
      if HitBy(t, i, r, f) then BlastSquare(g[r][f]) else g[r][f]))
  }

  /** g after the whole blast around t. */
  function Blasted(g: Grid, t: Coord): (h: Grid)
    requires IsGrid(g)
    ensures IsGrid(h)
  {
    BlastedBefore(g, t, 4)
  }

  /** Whether (r, f) and t are orthogonal neighbours. */
  predicate Adjacent(t: Coord, r: int, f: int)
  {
    Abs(r - t.0) + Abs(f - t.1) == 1
  }

  /** The blast hits exactly the orthogonal neighbours of the captured square. */
  lemma BlastHitsNeighbours(t: Coord, r: int, f: int)
    ensures HitBy(t, 4, r, f) <==> Adjacent(t, r, f)
  {
    if Adjacent(t, r, f) {
      if r == t.0 + 1 {
        assert (r, f) == (t.0 + BlastOffsets[0].0, t.1 + BlastOffsets[0].1);
      } else if f == t.1 + 1 {
        assert (r, f) == (t.0 + BlastOffsets[1].0, t.1 + BlastOffsets[1].1);
      } else if r == t.0 - 1 {
        assert (r, f) == (t.0 + BlastOffsets[2].0, t.1 + BlastOffsets[2].1);
      } else {
        assert (r, f) == (t.0 + BlastOffsets[3].0, t.1 + BlastOffsets[3].1);
      }
    }
  }

  lemma BlastedNone(g: Grid, t: Coord)
    requires IsGrid(g)
    ensures BlastedBefore(g, t, 0) == g
  {
    SameGrid(BlastedBefore(g, t, 0), g);
  }

  /** One iteration of the blast loop hits the next offset's square, when it is on the board. */
  lemma BlastedNext(g: Grid, t: Coord, i: int)
    requires IsGrid(g) && 0 <= i < 4
    ensures var n := (t.0 + BlastOffsets[i].0, t.1 + BlastOffsets[i].1);
      var h := BlastedBefore(g, t, i);
      (InBounds(n.0, n.1) ==> SetPiece(h, n.0, n.1, BlastSquare(h[n.0][n.1]).piece) == BlastedBefore(g, t, i + 1))
      && (!InBounds(n.0, n.1) ==> h == BlastedBefore(g, t, i + 1))
  {
    var n := (t.0 + BlastOffsets[i].0, t.1 + BlastOffsets[i].1);
    var h := BlastedBefore(g, t, i);
    var h' := BlastedBefore(g, t, i + 1);
    forall r, f | InBounds(r, f)
      ensures HitBy(t, i + 1, r, f) <==> HitBy(t, i, r, f) || (r, f) == n
    {
      if HitBy(t, i + 1, r, f) && !HitBy(t, i, r, f) {
        var j :| 0 <= j < i + 1 && j < 4 && (r, f) == (t.0 + BlastOffsets[j].0, t.1 + BlastOffsets[j].1);
        assert j == i;
      }
      if (r, f) == n {
        assert 0 <= i < i + 1 && i < 4 && (r, f) == (t.0 + BlastOffsets[i].0, t.1 + BlastOffsets[i].1);
      }
    }
    if InBounds(n.0, n.1) {
      assert !HitBy(t, i, n.0, n.1);
      SameGrid(SetPiece(h, n.0, n.1, BlastSquare(h[n.0][n.1]).piece), h');
    } else {
      SameGrid(h, h');
    }
  }

  // ---------------------------------------------------------------------------
  // Board.move

  /** The kind transform_pawn turns a pawn into, for a uniform draw in [0, 1). */
  function PromotionKind(draw: real): (k: Kind)
    ensures k == Queen || k == Rook || k == Bishop || k == Knight
    ensures k == Queen <==> draw > 0.9
    ensures k == Rook <==> 0.6 < draw <= 0.9
    ensures k == Bishop <==> 0.3 < draw <= 0.6
    ensures k == Knight <==> draw <= 0.3
  {
    if draw > 0.9 then Queen else if draw > 0.6 then Rook else if draw > 0.3 then Bishop else Knight
  }

  /** Kings and pawns remember that they have moved once they land. */
  function Landed(q: Piece): Piece
  {
    if q.kind == King || q.kind == Pawn then q.(hasMoved := true) else q
  }

  /**
   * The piece that ends up on t after an ordinary move of p, where found is
   * what t held once the mover left its square. The mover gives up its
   * powerup; then, if found carries one, a pawn is promoted, a king gains a
   * life and any other piece takes the powerup over.
   */
  function Arrival(p: Piece, t: Coord, found: Option<Piece>, draw: real): (q: Piece)
    ensures q.color == p.color && q.rank == t.0 && q.file == t.1
    ensures q.kind == King ==> p.kind == King && q.livesRemaining >= p.livesRemaining
  {
    var cur := p.(rank := t.0, file := t.1, hasPowerup := false);
    var next :=
      if found.None? || !found.value.hasPowerup then cur
      else if p.kind == Pawn then NewPiece(PromotionKind(draw), p.color, t.0, t.1)
      else if p.kind == King then cur.(livesRemaining := cur.livesRemaining + 1)
      else cur.(hasPowerup := true);
    Landed(next)
  }

  /**
   * The ordinary branch of move: p, standing on s, lands on t, which is vacant
   * or holds a piece other than a king. A powered rook that captures blasts
   * first; then s is emptied and the arriving piece is put on t.
   */
  function Advanced(g: Grid, s: Coord, t: Coord, p: Piece, draw: real): (h: Grid)
    requires IsGrid(g) && InBounds(s.0, s.1) && InBounds(t.0, t.1)
    ensures IsGrid(h)
  {
    var g1 := if p.kind == Rook && p.hasPowerup && g[t.0][t.1].piece.Some? then Blasted(g, t) else g;
    var g2 := SetPiece(g1, s.0, s.1, None);
    SetPiece(g2, t.0, t.1, Some(Arrival(p, t, g2[t.0][t.1].piece, draw)))
  }

  /**
   * The branch of move for a target square holding a king: a king with lives
   * to spare loses one and the mover stays put; a king on its last life is
   * replaced by the mover, which keeps the coordinates it had. Either way the
   * mover gives up its powerup.
   */
  function Struck(g: Grid, s: Coord, t: Coord, p: Piece): (h: Grid)
    requires IsGrid(g) && InBounds(s.0, s.1) && InBounds(t.0, t.1)
    requires g[s.0][s.1].piece == Some(p) && g[t.0][t.1].piece.Some?
    ensures IsGrid(h)
  {
    var k := g[t.0][t.1].piece.value;
    if k.livesRemaining > 1 then
      var g1: Grid := SetPiece(g, t.0, t.1, Some(k.(livesRemaining := k.livesRemaining - 1)));
      SetPiece(g1, s.0, s.1, Some(g1[s.0][s.1].piece.value.(hasPowerup := false)))
    else
      SetPiece(SetPiece(g, t.0, t.1, Some(p.(hasPowerup := false))), s.0, s.1, None)
  }

  /** A powered bishop converts the piece on t to its own colour, stays on s and gives up its powerup. */
  function Converted(g: Grid, s: Coord, t: Coord, p: Piece): (h: Grid)
    requires IsGrid(g) && InBounds(s.0, s.1) && InBounds(t.0, t.1) && g[t.0][t.1].piece.Some?
    ensures IsGrid(h)
  {
    var q := g[t.0][t.1].piece.value;
    SetPiece(SetPiece(g, t.0, t.1, Some(q.(color := p.color))), s.0, s.1, Some(p.(hasPowerup := false)))
  }

  /** Whether the piece p on s would convert the piece on t (a powered bishop against another colour). */
  predicate Converts(g: Grid, t: Coord, p: Piece)
    requires IsGrid(g) && InBounds(t.0, t.1)
  {
    p.kind == Bishop && p.hasPowerup && g[t.0][t.1].piece.Some? && g[t.0][t.1].piece.value.color != p.color
  }

  /**
   * What Board.move does to the grid when the piece on s moves to t, with draw
   * the number a pawn's promotion would use; or the error it raises. An empty
   * s fails on the missing piece; a powered bishop aimed at a king of another
   * colour fails on an attribute kings do not have.
   */
  function Moved(g: Grid, s: Coord, t: Coord, draw: real): Result<Grid>
    requires IsGrid(g) && InBounds(s.0, s.1) && InBounds(t.0, t.1)
  {
    match g[s.0][s.1].piece
    case None => Err("'NoneType' object has no attribute 'character'")
    case Some(p) =>
      var target: Option<Piece> := g[t.0][t.1].piece;
      if Converts(g, t, p) && target.value.kind == King then Err("'King' object has no attribute 'lives_left'")
      else if Converts(g, t, p) && p.color != Green then Ok(Converted(g, s, t, p))
      else if target.Some? && target.value.kind == King then Ok(Struck(g, s, t, p))
      else Ok(Advanced(g, s, t, p, draw))
  }

  /** move fails exactly on an empty source square and on a powered bishop aimed at a king of another colour. */
  lemma MovedFails(g: Grid, s: Coord, t: Coord, draw: real)
    requires IsGrid(g) && InBounds(s.0, s.1) && InBounds(t.0, t.1)
    ensures Moved(g, s, t, draw).Err? <==>
      g[s.0][s.1].piece.None? || (Converts(g, t, g[s.0][s.1].piece.value) && g[t.0][t.1].piece.value.kind == King)
  {
  }

  /** The blast, the only part of a move that reaches past s and t, changes only t's neighbours and no flag. */
  lemma BlastedFrame(g: Grid, t: Coord, r: int, f: int)
    requires IsGrid(g) && InBounds(r, f)
    ensures Blasted(g, t)[r][f].atkBy == g[r][f].atkBy
    ensures !Adjacent(t, r, f) ==> Blasted(g, t)[r][f] == g[r][f]
    ensures Adjacent(t, r, f) ==> Blasted(g, t)[r][f] == BlastSquare(g[r][f])
  {
    BlastHitsNeighbours(t, r, f);
  }

  lemma AdvancedFrame(g: Grid, s: Coord, t: Coord, p: Piece, draw: real, r: int, f: int)
    requires IsGrid(g) && InBounds(s.0, s.1) && InBounds(t.0, t.1) && InBounds(r, f)
    ensures Advanced(g, s, t, p, draw)[r][f].atkBy == g[r][f].atkBy
    ensures (r, f) != s && (r, f) != t && !Adjacent(t, r, f) ==> Advanced(g, s, t, p, draw)[r][f] == g[r][f]
  {
    BlastedFrame(g, t, r, f);
  }

  /**
   * A move changes no flag, and no square other than s, t and, when a powered
   * rook captures, the orthogonal neighbours of t.
   */
  lemma MovedFrame(g: Grid, s: Coord, t: Coord, draw: real, r: int, f: int)
    requires IsGrid(g) && InBounds(s.0, s.1) && InBounds(t.0, t.1) && InBounds(r, f)
    requires Moved(g, s, t, draw).Ok?
    ensures Moved(g, s, t, draw).value[r][f].atkBy == g[r][f].atkBy
    ensures (r, f) != s && (r, f) != t && !Adjacent(t, r, f) ==> Moved(g, s, t, draw).value[r][f] == g[r][f]
  {
    var p: Piece := g[s.0][s.1].piece.value;
    var target: Option<Piece> := g[t.0][t.1].piece;
    if Converts(g, t, p) && p.color != Green {
      assert Moved(g, s, t, draw) == Ok(Converted(g, s, t, p));
    } else if target.Some? && target.value.kind == King {
      assert Moved(g, s, t, draw) == Ok(Struck(g, s, t, p));
    } else {
      assert Moved(g, s, t, draw) == Ok(Advanced(g, s, t, p, draw));
      AdvancedFrame(g, s, t, p, draw, r, f);
    }
  }

  /**
   * An ordinary move empties s and puts on t a piece of the mover's colour
   * that knows it stands on t. It is the mover, unless a pawn picked up a
   * powerup and was promoted; it carries a powerup exactly when it picked
   * one up and is neither a pawn nor a king; a king that picks one up gains
   * a life; kings and pawns are marked as having moved.
   */
  lemma AdvancedLands(g: Grid, s: Coord, t: Coord, p: Piece, draw: real)
    requires IsGrid(g) && InBounds(s.0, s.1) && InBounds(t.0, t.1) && s != t
    ensures var h := Advanced(g, s, t, p, draw);
      var picked := g[t.0][t.1].piece.Some? && g[t.0][t.1].piece.value.hasPowerup;
      h[s.0][s.1].piece.None? && h[t.0][t.1].piece.Some?
      && var q := h[t.0][t.1].piece.value;
      q.color == p.color && q.rank == t.0 && q.file == t.1
      && q.kind == (if picked && p.kind == Pawn then PromotionKind(draw) else p.kind)
      && q.hasPowerup == (picked && p.kind != Pawn && p.kind != King)
      && (p.kind == King ==> q.livesRemaining == p.livesRemaining + (if picked then 1 else 0) && q.hasMoved)
      && (p.kind == Pawn && !picked ==> q.hasMoved)
  {
    BlastedFrame(g, t, t.0, t.1);
  }

  /**
   * A strike on a king with lives to spare costs it a life and leaves the
   * mover on s; a strike on a king on its last life puts the mover on t with
   * its old coordinates and empties s.
   */
  lemma StruckOutcome(g: Grid, s: Coord, t: Coord, p: Piece)
    requires IsGrid(g) && InBounds(s.0, s.1) && InBounds(t.0, t.1) && s != t
    requires g[s.0][s.1].piece == Some(p) && g[t.0][t.1].piece.Some?
    ensures var h, k := Struck(g, s, t, p), g[t.0][t.1].piece.value;
      if k.livesRemaining > 1 then
        h[t.0][t.1].piece == Some(k.(livesRemaining := k.livesRemaining - 1)) && h[s.0][s.1].piece == Some(p.(hasPowerup := false))
      else
        h[t.0][t.1].piece == Some(p.(hasPowerup := false)) && h[s.0][s.1].piece.None?
  {
  }

  /** A conversion recolours the piece on t, keeping all else about it, and leaves the bishop on s without its powerup. */
  lemma ConvertedOutcome(g: Grid, s: Coord, t: Coord, p: Piece)
    requires IsGrid(g) && InBounds(s.0, s.1) && InBounds(t.0, t.1) && s != t && g[t.0][t.1].piece.Some?
    ensures var h, q := Converted(g, s, t, p), g[t.0][t.1].piece.value;
      h[t.0][t.1].piece == Some(q.(color := p.color)) && h[s.0][s.1].piece == Some(p.(hasPowerup := false))
  {
  }

  /** The blast moves no piece, so it keeps every piece's coordinates as they were. */
  lemma BlastedKeeps(g: Grid, t: Coord)
    requires IsGrid(g)
    ensures Positioned(g) ==> Positioned(Blasted(g, t))
    ensures Placed(g) ==> Placed(Blasted(g, t))
  {
    forall r, f | InBounds(r, f)
      ensures Blasted(g, t)[r][f] == g[r][f] || Blasted(g, t)[r][f] == BlastSquare(g[r][f])
    {
      BlastedFrame(g, t, r, f);
    }
  }

  lemma AdvancedKeeps(g: Grid, s: Coord, t: Coord, p: Piece, draw: real)
    requires IsGrid(g) && InBounds(s.0, s.1) && InBounds(t.0, t.1)
    ensures Positioned(g) ==> Positioned(Advanced(g, s, t, p, draw))
    ensures Placed(g) ==> Placed(Advanced(g, s, t, p, draw))
  {
    var g1: Grid := if p.kind == Rook && p.hasPowerup && g[t.0][t.1].piece.Some? then Blasted(g, t) else g;
    BlastedKeeps(g, t);
    SetPieceKeeps(g1, s.0, s.1, None);
    var g2: Grid := SetPiece(g1, s.0, s.1, None);
    SetPieceKeeps(g2, t.0, t.1, Some(Arrival(p, t, g2[t.0][t.1].piece, draw)));
  }

  /**
   * A move keeps every piece on the board in bounds, and keeps every piece on
   * its own square except when a king on its last life is captured: the
   * capturer then keeps the coordinates of the square it left.
   */
  lemma MovedKeeps(g: Grid, s: Coord, t: Coord, draw: real)
    requires IsGrid(g) && InBounds(s.0, s.1) && InBounds(t.0, t.1)
    requires Positioned(g) && Moved(g, s, t, draw).Ok?
    ensures Positioned(Moved(g, s, t, draw).value)
    ensures Placed(g) && !(g[t.0][t.1].piece.Some? && g[t.0][t.1].piece.value.kind == King && g[t.0][t.1].piece.value.livesRemaining <= 1)
      ==> Placed(Moved(g, s, t, draw).value)
  {
    var p: Piece := g[s.0][s.1].piece.value;
    var target: Option<Piece> := g[t.0][t.1].piece;
    if Converts(g, t, p) && p.color != Green {
      var q: Piece := target.value;
      SetPieceKeeps(g, t.0, t.1, Some(q.(color := p.color)));
      SetPieceKeeps(SetPiece(g, t.0, t.1, Some(q.(color := p.color))), s.0, s.1, Some(p.(hasPowerup := false)));
      assert Moved(g, s, t, draw) == Ok(Converted(g, s, t, p));
    } else if target.Some? && target.value.kind == King {
      var k: Piece := target.value;
      if k.livesRemaining > 1 {
        var g1: Grid := SetPiece(g, t.0, t.1, Some(k.(livesRemaining := k.livesRemaining - 1)));
        SetPieceKeeps(g, t.0, t.1, Some(k.(livesRemaining := k.livesRemaining - 1)));
        SetPieceKeeps(g1, s.0, s.1, Some(g1[s.0][s.1].piece.value.(hasPowerup := false)));
      } else {
        SetPieceKeeps(g, t.0, t.1, Some(p.(hasPowerup := false)));
        SetPieceKeeps(SetPiece(g, t.0, t.1, Some(p.(hasPowerup := false))), s.0, s.1, None);
      }
      assert Moved(g, s, t, draw) == Ok(Struck(g, s, t, p));
    } else {
      AdvancedKeeps(g, s, t, p, draw);
      assert Moved(g, s, t, draw) == Ok(Advanced(g, s, t, p, draw));
    }
  }

  /** Capturing a king on its last life leaves the capturer believing it still stands where it came from. */
  lemma CaptureLeavesStale(g: Grid, s: Coord, t: Coord, draw: real)
    requires IsGrid(g) && InBounds(s.0, s.1) && InBounds(t.0, t.1) && s != t && Placed(g)
    requires g[s.0][s.1].piece.Some? && !Converts(g, t, g[s.0][s.1].piece.value)
    requires g[t.0][t.1].piece.Some? && g[t.0][t.1].piece.value.kind == King && g[t.0][t.1].piece.value.livesRemaining <= 1
    ensures Moved(g, s, t, draw).Ok? && !Placed(Moved(g, s, t, draw).value)
  {
    var p: Piece := g[s.0][s.1].piece.value;
    StruckOutcome(g, s, t, p);
    var h: Grid := Moved(g, s, t, draw).value;
    assert h[t.0][t.1].piece.value.rank == s.0 && h[t.0][t.1].piece.value.file == s.1;
  }

  lemma ConvertedAlive(g: Grid, s: Coord, t: Coord, p: Piece)
    requires IsGrid(g) && InBounds(s.0, s.1) && InBounds(t.0, t.1) && g[t.0][t.1].piece.Some?
    requires KingsAlive(g) && g[t.0][t.1].piece.value.kind != King && p.kind == Bishop
    ensures KingsAlive(Converted(g, s, t, p))
  {
    var q: Piece := g[t.0][t.1].piece.value;
    SetPieceKeeps(g, t.0, t.1, Some(q.(color := p.color)));
    SetPieceKeeps(SetPiece(g, t.0, t.1, Some(q.(color := p.color))), s.0, s.1, Some(p.(hasPowerup := false)));
  }

  /** A strike never takes a king's last life. */
  lemma StruckAlive(g: Grid, s: Coord, t: Coord, p: Piece)
    requires IsGrid(g) && InBounds(s.0, s.1) && InBounds(t.0, t.1)
    requires g[s.0][s.1].piece == Some(p) && g[t.0][t.1].piece.Some? && KingsAlive(g)
    ensures KingsAlive(Struck(g, s, t, p))
  {
    var k: Piece := g[t.0][t.1].piece.value;
    if k.livesRemaining > 1 {
      var g1: Grid := SetPiece(g, t.0, t.1, Some(k.(livesRemaining := k.livesRemaining - 1)));
      SetPieceKeeps(g, t.0, t.1, Some(k.(livesRemaining := k.livesRemaining - 1)));
      SetPieceKeeps(g1, s.0, s.1, Some(g1[s.0][s.1].piece.value.(hasPowerup := false)));
    } else {
      SetPieceKeeps(g, t.0, t.1, Some(p.(hasPowerup := false)));
      SetPieceKeeps(SetPiece(g, t.0, t.1, Some(p.(hasPowerup := false))), s.0, s.1, None);
    }
  }

  lemma AdvancedAlive(g: Grid, s: Coord, t: Coord, p: Piece, draw: real)
    requires IsGrid(g) && InBounds(s.0, s.1) && InBounds(t.0, t.1) && KingsAlive(g)
    requires g[s.0][s.1].piece == Some(p) && !(p.kind == Rook && p.hasPowerup && g[t.0][t.1].piece.Some?)
    ensures KingsAlive(Advanced(g, s, t, p, draw))
  {
    SetPieceKeeps(g, s.0, s.1, None);
    var g2: Grid := SetPiece(g, s.0, s.1, None);
    SetPieceKeeps(g2, t.0, t.1, Some(Arrival(p, t, g2[t.0][t.1].piece, draw)));
  }

  /**
   * Only a powered rook's blast can leave a king without lives: a strike on a
   * king stops at its last life, and capturing a king on its last life
   * removes it from the board instead.
   */
  lemma OnlyBlastsEliminate(g: Grid, s: Coord, t: Coord, draw: real)
    requires IsGrid(g) && InBounds(s.0, s.1) && InBounds(t.0, t.1)
    requires KingsAlive(g) && Moved(g, s, t, draw).Ok?
    ensures KingsAlive(Moved(g, s, t, draw).value) ||
      var p := g[s.0][s.1].piece.value;
      p.kind == Rook && p.hasPowerup && g[t.0][t.1].piece.Some? && g[t.0][t.1].piece.value.kind != King
  {
    var p: Piece := g[s.0][s.1].piece.value;
    var target: Option<Piece> := g[t.0][t.1].piece;
    if Converts(g, t, p) && p.color != Green {
      ConvertedAlive(g, s, t, p);
      assert Moved(g, s, t, draw) == Ok(Converted(g, s, t, p));
    } else if target.Some? && target.value.kind == King {
      StruckAlive(g, s, t, p);
      assert Moved(g, s, t, draw) == Ok(Struck(g, s, t, p));
    } else if !(p.kind == Rook && p.hasPowerup && target.Some?) {
      AdvancedAlive(g, s, t, p, draw);
      assert Moved(g, s, t, draw) == Ok(Advanced(g, s, t, p, draw));
    }
  }

  /** Strength order of the kinds a pawn can be promoted to. */
  function PromotionRank(k: Kind): int
  {
    match k
    case Knight => 0
    case Bishop => 1
    case Rook => 2
    case Queen => 3
    case _ => -1
  }

  /** A higher draw never yields a weaker promotion, and the top tenth of draws yields a queen. */
  lemma PromotionMonotone(d1: real, d2: real)
    requires d1 <= d2
    ensures 0 <= PromotionRank(PromotionKind(d1)) <= PromotionRank(PromotionKind(d2))
    ensures PromotionKind(d2) == Queen <==> d2 > 0.9
  {
  }

  // ---------------------------------------------------------------------------
  // Spawning powerups after a move

  /** The number of moves that pass before powerups may appear. */
  const PowerupDelayTurns: int := 2

  /** The chance that a powerup appears after a move, once the delay has passed. */
  const PowerupChance: real := 0.75

  predicate OnBoard(tries: seq<Coord>)
  {
    forall i :: 0 <= i < |tries| ==> InBounds(tries[i].0, tries[i].1)
  }

  /** The first of the random squares tried that is vacant, if any is. */
  function FirstVacant(g: Grid, tries: seq<Coord>): (o: Option<Coord>)
    requires IsGrid(g) && OnBoard(tries)
    ensures o.Some? ==> InBounds(o.value.0, o.value.1) && g[o.value.0][o.value.1].piece.None?
    ensures o.Some? ==> exists i :: (0 <= i < |tries| && tries[i] == o.value
                                    && forall j :: 0 <= j < i ==> g[tries[j].0][tries[j].1].piece.Some?)
    ensures o.None? ==> forall i :: 0 <= i < |tries| ==> g[tries[i].0][tries[i].1].piece.Some?
  {
    if |tries| == 0 then None
    else if g[tries[0].0][tries[0].1].piece.None? then Some(tries[0])
    else
      var o := FirstVacant(g, tries[1..]);
      if o.Some? then
        ghost var i :| 0 <= i < |tries| - 1 && tries[1..][i] == o.value
          && forall j :: 0 <= j < i ==> g[tries[1..][j].0][tries[1..][j].1].piece.Some?;
        assert tries[i + 1] == o.value;
        assert forall j :: 0 <= j < i + 1 ==> g[tries[j].0][tries[j].1].piece.Some? by {
          forall j | 0 <= j < i + 1
            ensures g[tries[j].0][tries[j].1].piece.Some?
          {
            if j > 0 {
              assert tries[j] == tries[1..][j - 1];
            }
          }
        }
        o
      else
        assert forall i :: 1 <= i < |tries| ==> tries[i] == tries[1..][i - 1];
        o
  }

  /**
   * The grid after move's powerup step: once more than PowerupDelayTurns moves
   * have been made and the draw falls within PowerupChance, a green powerup is
   * added on the first vacant square tried.
   */
  function Spawned(g: Grid, turns: int, draw: real, tries: seq<Coord>): (h: Grid)
    requires IsGrid(g) && OnBoard(tries)
    ensures IsGrid(h)
  {
    if turns > PowerupDelayTurns && draw <= PowerupChance && FirstVacant(g, tries).Some? then
      var x := FirstVacant(g, tries).value;
      SetPiece(g, x.0, x.1, Some(NewPiece(PowerUp, White, x.0, x.1)))
    else g
  }

  /**
   * The powerup step changes at most one square, which was vacant and now
   * holds a green powerup that knows its square; before the delay has
   * passed, or when the draw exceeds the chance, it changes nothing.
   */
  lemma SpawnedOnVacant(g: Grid, turns: int, draw: real, tries: seq<Coord>)
    requires IsGrid(g) && OnBoard(tries)
    ensures var h := Spawned(g, turns, draw, tries);
      (turns <= PowerupDelayTurns || draw > PowerupChance ==> h == g)
      && (h == g || exists r, f :: (InBounds(r, f) && g[r][f].piece.None?
                                    && h[r][f] == Square(Some(Piece(PowerUp, Green, r, f, true, false, false, false, 0)), g[r][f].atkBy)
                                    && forall r', f' :: InBounds(r', f') && (r', f') != (r, f) ==> h[r'][f'] == g[r'][f']))
  {
    var h := Spawned(g, turns, draw, tries);
    if h != g {
      var x := FirstVacant(g, tries).value;
      assert h[x.0][x.1] == Square(Some(Piece(PowerUp, Green, x.0, x.1, true, false, false, false, 0)), g[x.0][x.1].atkBy);
    }
  }
  /** The powerup step keeps every piece's coordinates on the board and every king alive. */
  lemma SpawnedKeeps(g: Grid, turns: int, draw: real, tries: seq<Coord>)
    requires IsGrid(g) && OnBoard(tries)
    ensures Positioned(g) ==> Positioned(Spawned(g, turns, draw, tries))
    ensures KingsAlive(g) ==> KingsAlive(Spawned(g, turns, draw, tries))
  {
    if turns > PowerupDelayTurns && draw <= PowerupChance && FirstVacant(g, tries).Some? {
      var x := FirstVacant(g, tries).value;
      SetPieceKeeps(g, x.0, x.1, Some(NewPiece(PowerUp, White, x.0, x.1)));
    }
  }
}
