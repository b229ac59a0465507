/**
 * The squares of the board (Board.py): an 8x8 grid, each square holding at
 * most one piece and an "attacked" flag, and the grids the board starts from.
 */
module Grids {
  import opened Options
  import opened Pieces

  /** A square of the grid: its occupant, and the flag the danger pass sets. */
  datatype Square = Square(piece: Option<Piece>, atkBy: bool)

  type Grid = seq<seq<Square>>

  /** An index pair Python can subscript the grid with: negative indices count from the end. */
  predicate Indexable(r: int, f: int)
  {
    -8 <= r < 8 && -8 <= f < 8
  }

  /** The grid index Python uses for a subscript in -8 .. 7. */
  function Wrap(i: int): (j: int)
    requires -8 <= i < 8
    ensures 0 <= j < 8 && (j == i || j == i + 8)
  {
    if i < 0 then i + 8 else i
  }

  predicate IsGrid(g: Grid)
  {
    |g| == 8 && forall r :: 0 <= r < 8 ==> |g[r]| == 8
  }

  /** Every piece on the grid believes itself to be on the board. */
  predicate Positioned(g: Grid)
    requires IsGrid(g)
  {
    forall r, f :: 0 <= r < 8 && 0 <= f < 8 && g[r][f].piece.Some? ==> InBounds(g[r][f].piece.value.rank, g[r][f].piece.value.file)
  }

  /** Every piece on the grid knows the square it stands on. */
  predicate Placed(g: Grid)
    requires IsGrid(g)
  {
    forall r, f :: 0 <= r < 8 && 0 <= f < 8 && g[r][f].piece.Some? ==> g[r][f].piece.value.rank == r && g[r][f].piece.value.file == f
  }

  /** g with the occupant of (r, f) replaced by x; the square's flag is kept. */
  function SetPiece(g: Grid, r: int, f: int, x: Option<Piece>): (h: Grid)
    requires IsGrid(g) && InBounds(r, f)
    ensures IsGrid(h)
  {
    g[r := g[r][f := g[r][f].(piece := x)]]
  }

  /** Every king on the grid has a life left. */
  predicate KingsAlive(g: Grid)
    requires IsGrid(g)
  {
    forall r, f :: 0 <= r < 8 && 0 <= f < 8 && g[r][f].piece.Some? && g[r][f].piece.value.kind == King ==> g[r][f].piece.value.livesRemaining > 0
  }

  /** Putting x on (r, f) keeps the grid's invariants when x itself satisfies them. */
  lemma SetPieceKeeps(g: Grid, r: int, f: int, x: Option<Piece>)
    requires IsGrid(g) && InBounds(r, f)
    ensures Positioned(g) && (x.Some? ==> InBounds(x.value.rank, x.value.file)) ==> Positioned(SetPiece(g, r, f, x))
    ensures Placed(g) && (x.Some? ==> x.value.rank == r && x.value.file == f) ==> Placed(SetPiece(g, r, f, x))
    ensures KingsAlive(g) && (x.Some? && x.value.kind == King ==> x.value.livesRemaining > 0) ==> KingsAlive(SetPiece(g, r, f, x))
  {
  }

  /** Setting a square twice leaves only the second occupant. */
  lemma SetPieceTwice(g: Grid, r: int, f: int, x: Option<Piece>, y: Option<Piece>)
    requires IsGrid(g) && InBounds(r, f)
    ensures SetPiece(SetPiece(g, r, f, x), r, f, y) == SetPiece(g, r, f, y)
  {
    SameGrid(SetPiece(SetPiece(g, r, f, x), r, f, y), SetPiece(g, r, f, y));
  }

  /** Setting a square to its own occupant changes nothing. */
  lemma SetPieceSame(g: Grid, r: int, f: int)
    requires IsGrid(g) && InBounds(r, f)
    ensures SetPiece(g, r, f, g[r][f].piece) == g
  {
    SameGrid(SetPiece(g, r, f, g[r][f].piece), g);
  }

  /** An occupant with the flags a king raises about itself lowered. */
  function Unflagged(x: Option<Piece>): (y: Option<Piece>)
    ensures y.Some? == x.Some?
    ensures x.Some? ==> y.value.(check := x.value.check, checkmate := x.value.checkmate) == x.value
  {
    if x.None? then None else Some(x.value.(check := false, checkmate := false))
  }

  /** g and h hold the same pieces on the same squares, up to the kings' check and checkmate flags. */
  predicate SameOccupants(g: Grid, h: Grid)
    requires IsGrid(g) && IsGrid(h)
  {
    forall r, f :: 0 <= r < 8 && 0 <= f < 8 ==> Unflagged(h[r][f].piece) == Unflagged(g[r][f].piece)
  }

  /** Grids with the same occupants agree on every invariant about where pieces stand and how many lives kings have. */
  lemma SameOccupantsKeep(g: Grid, h: Grid)
    requires IsGrid(g) && IsGrid(h) && SameOccupants(g, h)
    ensures Positioned(g) <==> Positioned(h)
    ensures Placed(g) <==> Placed(h)
    ensures KingsAlive(g) <==> KingsAlive(h)
  {
    forall r, f | 0 <= r < 8 && 0 <= f < 8 && g[r][f].piece.Some?
      ensures h[r][f].piece.value.(check := false, checkmate := false) == g[r][f].piece.value.(check := false, checkmate := false)
    {
      assert Unflagged(h[r][f].piece) == Unflagged(g[r][f].piece);
    }
  }

  lemma SameOccupantsTrans(g: Grid, h: Grid, k: Grid)
    requires IsGrid(g) && IsGrid(h) && IsGrid(k) && SameOccupants(g, h) && SameOccupants(h, k)
    ensures SameOccupants(g, k)
  {
  }

  /** The decimal digit for n. */
  function Digit(n: int): (d: char)
    requires 0 <= n < 10
    ensures '0' <= d <= '9' && d as int - '0' as int == n
  {
    ('0' as int + n) as char
  }

  /** g with the attacked flag of (r, f) replaced by b; the occupant is kept. */
  function SetFlag(g: Grid, r: int, f: int, b: bool): (h: Grid)
    requires IsGrid(g) && InBounds(r, f)
    ensures IsGrid(h)
  {
    g[r := g[r][f := g[r][f].(atkBy := b)]]
  }

  /** What a move generator sees of a square. */
  function CellOf(s: Square): Cell
  {
    if s.piece.None? then Vacant(s.atkBy) else Held(s.piece.value.color)
  }

  /** The grid as move generators see it. */
  function CellsOf(g: Grid): (v: Cells)
    requires IsGrid(g)
    ensures Fits(v) && forall r, f :: InBounds(r, f) ==> v[r][f] == CellOf(g[r][f])
  {
    seq(8, r requires 0 <= r < 8 => seq(8, f requires 0 <= f < 8 => CellOf(g[r][f])))
  }

  /** The piece a type name given to add_piece stands for. */
  function KindNamed(name: string): (k: Option<Kind>)
    ensures k.Some? ==> name == KindName(k.value)
  {
    if name == "pawn" then Some(Pawn)
    else if name == "knight" then Some(Knight)
    else if name == "bishop" then Some(Bishop)
    else if name == "rook" then Some(Rook)
    else if name == "queen" then Some(Queen)
    else if name == "king" then Some(King)
    else if name == "powerup" then Some(PowerUp)
    else None
  }

  function KindName(k: Kind): string
  {
    match k
    case Pawn => "pawn"
    case Knight => "knight"
    case Bishop => "bishop"
    case Rook => "rook"
    case Queen => "queen"
    case King => "king"
    case PowerUp => "powerup"
  }

  lemma KindNamesRoundTrip(k: Kind)
    ensures KindNamed(KindName(k)) == Some(k)
  {
  }

  /** The back rank, by file: rook, knight, bishop, queen, king, bishop, knight, rook. */
  const BackRank: seq<Kind> := [Rook, Knight, Bishop, Queen, King, Bishop, Knight, Rook]

  /** The occupant of (r, f) at the start of a game: black on ranks 0 and 1, white on ranks 6 and 7. */
  function StartPiece(r: int, f: int): Option<Piece>
    requires InBounds(r, f)
  {
    if r == 0 then Some(NewPiece(BackRank[f], Black, 0, f))
    else if r == 1 then Some(NewPiece(Pawn, Black, 1, f))
    else if r == 6 then Some(NewPiece(Pawn, White, 6, f))
    else if r == 7 then Some(NewPiece(BackRank[f], White, 7, f))
    else None
  }

  function StartGrid(): (g: Grid)
    ensures IsGrid(g)
  {
    seq(8, r requires 0 <= r < 8 => seq(8, f requires 0 <= f < 8 => Square(StartPiece(r, f), false)))
  }

  function EmptyGrid(): (g: Grid)
    ensures IsGrid(g)
  {
    seq(8, r => seq(8, f => Square(None, false)))
  }

  /** The grid after the first n iterations of the pawn loop: white's pawns first, then black's. */
  function PawnsPlaced(n: int): (g: Grid)
    ensures IsGrid(g)
  {
    seq(8, r requires 0 <= r < 8 => seq(8, f requires 0 <= f < 8 =>
      Square(if r == 6 && f < n then Some(NewPiece(Pawn, White, 6, f))
             else if r == 1 && f + 8 < n then Some(NewPiece(Pawn, Black, 1, f))
             else None, false)))
  }

  /** Two grids that agree on every square are equal. */
  lemma SameGrid(g: Grid, h: Grid)
    requires IsGrid(g) && IsGrid(h)
    requires forall r, f :: InBounds(r, f) ==> g[r][f] == h[r][f]
    ensures g == h
  {
    forall r | 0 <= r < 8
      ensures g[r] == h[r]
    {
      assert forall f :: 0 <= f < 8 ==> g[r][f] == h[r][f];
    }
  }

  /** Two grids whose squares look alike to the move generators give the same cells. */
  lemma SameCells(g: Grid, h: Grid)
    requires IsGrid(g) && IsGrid(h)
    requires forall r, f :: InBounds(r, f) ==> CellOf(g[r][f]) == CellOf(h[r][f])
    ensures CellsOf(g) == CellsOf(h)
  {
    var v, w := CellsOf(g), CellsOf(h);
    forall r | 0 <= r < 8
      ensures v[r] == w[r]
    {
      assert forall f :: 0 <= f < 8 ==> v[r][f] == w[r][f];
    }
  }

  lemma PawnsNone()
    ensures PawnsPlaced(0) == EmptyGrid()
  {
    SameGrid(PawnsPlaced(0), EmptyGrid());
  }

  /** One more iteration of the pawn loop places one more pawn. */
  lemma PawnsNext(n: int)
    requires 0 <= n < 16
    ensures n < 8 ==> SetPiece(PawnsPlaced(n), 6, n, Some(NewPiece(Pawn, White, 6, n))) == PawnsPlaced(n + 1)
    ensures n >= 8 ==> SetPiece(PawnsPlaced(n), 1, n - 8, Some(NewPiece(Pawn, Black, 1, n - 8))) == PawnsPlaced(n + 1)
  {
    if n < 8 {
      SameGrid(SetPiece(PawnsPlaced(n), 6, n, Some(NewPiece(Pawn, White, 6, n))), PawnsPlaced(n + 1));
    } else {
      SameGrid(SetPiece(PawnsPlaced(n), 1, n - 8, Some(NewPiece(Pawn, Black, 1, n - 8))), PawnsPlaced(n + 1));
    }
  }

  /** The type names add_piece knows. */
  lemma NamesKnown()
    ensures KindNamed("pawn") == Some(Pawn) && KindNamed("knight") == Some(Knight)
    ensures KindNamed("bishop") == Some(Bishop) && KindNamed("rook") == Some(Rook)
    ensures KindNamed("queen") == Some(Queen) && KindNamed("king") == Some(King)
    ensures KindNamed("powerup") == Some(PowerUp)
  {
  }

  /** The grid g after the add_piece calls for the rooks, in order. */
  function RooksOn(g: Grid): (h: Grid)
    requires IsGrid(g)
    ensures IsGrid(h)
  {
    SetPiece(SetPiece(SetPiece(SetPiece(g, 7, 0, Some(NewPiece(Rook, White, 7, 0))), 7, 7, Some(NewPiece(Rook, White, 7, 7))), 0, 0, Some(NewPiece(Rook, Black, 0, 0))), 0, 7, Some(NewPiece(Rook, Black, 0, 7)))
  }

  /** The grid g after the add_piece calls for the knights, in order. */
  function KnightsOn(g: Grid): (h: Grid)
    requires IsGrid(g)
    ensures IsGrid(h)
  {
    SetPiece(SetPiece(SetPiece(SetPiece(g, 7, 1, Some(NewPiece(Knight, White, 7, 1))), 7, 6, Some(NewPiece(Knight, White, 7, 6))), 0, 1, Some(NewPiece(Knight, Black, 0, 1))), 0, 6, Some(NewPiece(Knight, Black, 0, 6)))
  }

  /** The grid g after the add_piece calls for the bishops, in order. */
  function BishopsOn(g: Grid): (h: Grid)
    requires IsGrid(g)
    ensures IsGrid(h)
  {
    SetPiece(SetPiece(SetPiece(SetPiece(g, 7, 2, Some(NewPiece(Bishop, White, 7, 2))), 7, 5, Some(NewPiece(Bishop, White, 7, 5))), 0, 2, Some(NewPiece(Bishop, Black, 0, 2))), 0, 5, Some(NewPiece(Bishop, Black, 0, 5)))
  }

  /** The grid g after the add_piece calls for the queens and kings, in order. */
  function RoyalsOn(g: Grid): (h: Grid)
    requires IsGrid(g)
    ensures IsGrid(h)
  {
    SetPiece(SetPiece(SetPiece(SetPiece(g, 7, 3, Some(NewPiece(Queen, White, 7, 3))), 0, 3, Some(NewPiece(Queen, Black, 0, 3))), 7, 4, Some(NewPiece(King, White, 7, 4))), 0, 4, Some(NewPiece(King, Black, 0, 4)))
  }

  /** The grid g after the sixteen back-rank calls of _initialize. */
  function BackRanksOn(g: Grid): (h: Grid)
    requires IsGrid(g)
    ensures IsGrid(h)
  {
    RoyalsOn(BishopsOn(KnightsOn(RooksOn(g))))
  }

  /** Every piece of the starting position stands on its own square. */
  lemma StartPositioned()
    ensures Positioned(StartGrid()) && Placed(StartGrid())
  {
  }

  lemma BackRanksStart()
    ensures BackRanksOn(PawnsPlaced(16)) == StartGrid()
  {
    SameGrid(BackRanksOn(PawnsPlaced(16)), StartGrid());
  }
}
