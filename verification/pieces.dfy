/**
 * The piece catalogue of the powerup chess variant (Pieces.py): piece values
 * with their constructor defaults, and the move generator of every kind.
 *
 * A generator only looks at what a square shows it: whether it is empty (and
 * then whether it is flagged as attacked) or which colour holds it. That view
 * is a `Cell`; the board projects its squares onto cells (board.dfy). Each
 * generator is given twice: as a recursive function that serves as its
 * specification, and as the loop the source runs, proved equal to it.
 */
module Pieces {

  /** Owners a piece can have: the two sides and the neutral pickup token ('green'). */
  datatype Color = White | Black | Green

  datatype Kind = Pawn | Knight | Bishop | Rook | Queen | King | PowerUp

  /** A (rank, file) pair; rank 0 is black's back rank, file 0 is the a-file. */
  type Coord = (int, int)

  /**
   * A piece with every attribute any kind carries. `hasMoved` matters for
   * pawns and kings only; `check`, `checkmate` and `livesRemaining` for kings
   * only. `rank` and `file` are the coordinates the piece believes it has.
   */
  datatype Piece = Piece(
    kind: Kind,
    color: Color,
    rank: int,
    file: int,
    hasPowerup: bool,
    hasMoved: bool,
    check: bool,
    checkmate: bool,
    livesRemaining: int)

  /** A freshly constructed piece: a token is always green and powered, a king has three lives. */
  function NewPiece(kind: Kind, color: Color, rank: int, file: int): Piece
  {
    if kind == PowerUp then Piece(PowerUp, Green, rank, file, true, false, false, false, 0)
    else Piece(kind, color, rank, file, false, false, false, false, if kind == King then 3 else 0)
  }

  predicate InBounds(x: int, y: int)
  {
    0 <= x < 8 && 0 <= y < 8
  }

  /** What a move generator can observe of one square. */
  datatype Cell = Vacant(attacked: bool) | Held(owner: Color)

  type Cells = seq<seq<Cell>>

  predicate Fits(v: Cells)
  {
    |v| == 8 && forall i :: 0 <= i < 8 ==> |v[i]| == 8
  }

  function At(v: Cells, t: Coord): Cell
    requires Fits(v) && InBounds(t.0, t.1)
  {
    v[t.0][t.1]
  }

  function Abs(x: int): int
  {
    if x < 0 then -x else x
  }

  // ---------------------------------------------------------------------------
  // Offset pieces: Knight and King

  /** The eight L-shaped knight offsets, in the source's order. */
  const KnightLeaps: seq<Coord> := [(-1, 2), (1, 2), (2, 1), (2, -1), (1, -2), (-1, -2), (-2, -1), (-2, 1)]

  /** The eight orthogonal one- and two-square offsets a powered knight adds. */
  const KnightStrides: seq<Coord> := [(0, 1), (1, 0), (0, -1), (-1, 0), (0, 2), (2, 0), (-2, 0), (0, -2)]

  /** The nine king offsets, rank offset outermost, including (0, 0). */
  const KingOffsets: seq<Coord> := [(-1, -1), (-1, 0), (-1, 1), (0, -1), (0, 0), (0, 1), (1, -1), (1, 0), (1, 1)]

  /**
   * Whether a stepping piece of colour c may land on t: a square held by another
   * colour always; an empty square unless `wary` (the king) and it is attacked.
   */
  predicate Lands(v: Cells, c: Color, t: Coord, wary: bool)
    requires Fits(v) && InBounds(t.0, t.1)
  {
    match At(v, t)
    case Vacant(attacked) => !(wary && attacked)
    case Held(owner) => owner != c
  }

  /** The squares reached from (r, f) by offsets[i], offsets[i + 1], ..., in order, that the piece lands on. */
  function StepTargets(v: Cells, c: Color, r: int, f: int, offsets: seq<Coord>, wary: bool, i: nat): seq<Coord>
    requires Fits(v)
    decreases |offsets| - i
  {
    if i >= |offsets| then []
    else
      var t := (r + offsets[i].0, f + offsets[i].1);
      (if InBounds(t.0, t.1) && Lands(v, c, t, wary) then [t] else [])
      + StepTargets(v, c, r, f, offsets, wary, i + 1)
  }

  function KnightMoves(v: Cells, p: Piece): seq<Coord>
    requires Fits(v)
  {
    StepTargets(v, p.color, p.rank, p.file, if p.hasPowerup then KnightLeaps + KnightStrides else KnightLeaps, false, 0)
  }

  function KingMoves(v: Cells, p: Piece): seq<Coord>
    requires Fits(v)
  {
    StepTargets(v, p.color, p.rank, p.file, KingOffsets, true, 0)
  }

  /** o is one of offsets[i], offsets[i + 1], .... */
  predicate Among(o: Coord, offsets: seq<Coord>, i: nat)
    decreases |offsets| - i
  {
    i < |offsets| && (offsets[i] == o || Among(o, offsets, i + 1))
  }

  lemma {:induction false} AmongFrom(o: Coord, offsets: seq<Coord>, i: nat)
    requires i <= |offsets|
    ensures Among(o, offsets, i) <==> o in offsets[i..]
    decreases |offsets| - i
  {
    if i < |offsets| {
      AmongFrom(o, offsets, i + 1);
      assert offsets[i..] == [offsets[i]] + offsets[i + 1..];
    }
  }

  lemma AmongAll(o: Coord, offsets: seq<Coord>)
    ensures Among(o, offsets, 0) <==> o in offsets
  {
    AmongFrom(o, offsets, 0);
    assert offsets[0..] == offsets;
  }

  /** One step of an offset walk. */
  lemma StepTargetsNext(v: Cells, c: Color, r: int, f: int, offsets: seq<Coord>, wary: bool, i: nat, tr: int, tf: int)
    requires Fits(v) && i < |offsets| && (tr, tf) == (r + offsets[i].0, f + offsets[i].1)
    ensures StepTargets(v, c, r, f, offsets, wary, i) ==
              (if InBounds(tr, tf) && Lands(v, c, (tr, tf), wary) then [(tr, tf)] else []) + StepTargets(v, c, r, f, offsets, wary, i + 1)
  {
  }

  lemma AppendAssoc<T>(a: seq<T>, b: seq<T>, c: seq<T>)
    ensures (a + b) + c == a + (b + c)
  {
  }

  /** A loop that has listed `before` for the offsets below i and then handles offsets[i] as the walk does stays on course. */
  lemma StepTargetsAdvance(v: Cells, c: Color, r: int, f: int, offsets: seq<Coord>, wary: bool, i: nat, tr: int, tf: int,
                           before: seq<Coord>, moves: seq<Coord>, whole: seq<Coord>)
    requires Fits(v) && i < |offsets| && (tr, tf) == (r + offsets[i].0, f + offsets[i].1)
    requires before + StepTargets(v, c, r, f, offsets, wary, i) == whole
    requires moves == before + (if InBounds(tr, tf) && Lands(v, c, (tr, tf), wary) then [(tr, tf)] else [])
    ensures moves + StepTargets(v, c, r, f, offsets, wary, i + 1) == whole
  {
    StepTargetsNext(v, c, r, f, offsets, wary, i, tr, tf);
    AppendAssoc(before, if InBounds(tr, tf) && Lands(v, c, (tr, tf), wary) then [(tr, tf)] else [],
                StepTargets(v, c, r, f, offsets, wary, i + 1));
  }

  /** A target is listed iff the piece lands there by one of the offsets from the i-th on. */
  lemma {:induction false} StepTargetsExact(v: Cells, c: Color, r: int, f: int, offsets: seq<Coord>, wary: bool, i: nat, t: Coord)
    requires Fits(v)
    ensures t in StepTargets(v, c, r, f, offsets, wary, i) <==>
              InBounds(t.0, t.1) && Lands(v, c, t, wary) && Among((t.0 - r, t.1 - f), offsets, i)
    decreases |offsets| - i
  {
    if i < |offsets| {
      StepTargetsExact(v, c, r, f, offsets, wary, i + 1, t);
    }
  }

  /** A stepping piece never lists a square off the board or one of its own colour. */
  lemma StepTargetsInside(v: Cells, c: Color, r: int, f: int, offsets: seq<Coord>, wary: bool)
    requires Fits(v)
    ensures forall t :: t in StepTargets(v, c, r, f, offsets, wary, 0) ==> InBounds(t.0, t.1) && At(v, t) != Held(c)
  {
    forall t | t in StepTargets(v, c, r, f, offsets, wary, 0)
      ensures InBounds(t.0, t.1) && At(v, t) != Held(c)
    {
      StepTargetsExact(v, c, r, f, offsets, wary, 0, t);
    }
  }

  predicate IsLeap(a: int, b: int)
  {
    (Abs(a) == 1 && Abs(b) == 2) || (Abs(a) == 2 && Abs(b) == 1)
  }

  predicate IsStride(a: int, b: int)
  {
    (a == 0 && (Abs(b) == 1 || Abs(b) == 2)) || (b == 0 && (Abs(a) == 1 || Abs(a) == 2))
  }

  /**
   * A knight lists exactly the in-bounds L-squares that are empty or held by
   * another colour (a green token included); a powered knight also the one- and
   * two-square orthogonal ones.
   */
  lemma KnightMovesExact(v: Cells, p: Piece, t: Coord)
    requires Fits(v)
    ensures t in KnightMoves(v, p) <==>
              InBounds(t.0, t.1) && (At(v, t).Vacant? || At(v, t).owner != p.color) &&
              (IsLeap(t.0 - p.rank, t.1 - p.file) || (p.hasPowerup && IsStride(t.0 - p.rank, t.1 - p.file)))
  {
    var offsets := if p.hasPowerup then KnightLeaps + KnightStrides else KnightLeaps;
    StepTargetsExact(v, p.color, p.rank, p.file, offsets, false, 0, t);
    KnightOffsetsAre(p.hasPowerup, t.0 - p.rank, t.1 - p.file);
  }

  lemma KnightOffsetsAre(powered: bool, a: int, b: int)
    ensures Among((a, b), if powered then KnightLeaps + KnightStrides else KnightLeaps, 0) <==>
              IsLeap(a, b) || (powered && IsStride(a, b))
  {
    AmongAll((a, b), if powered then KnightLeaps + KnightStrides else KnightLeaps);
    LeapsAre(a, b);
    StridesAre(a, b);
  }

  lemma LeapsAre(a: int, b: int)
    ensures (a, b) in KnightLeaps <==> IsLeap(a, b)
  {
  }

  lemma StridesAre(a: int, b: int)
    ensures (a, b) in KnightStrides <==> IsStride(a, b)
  {
  }

  /**
   * A king lists exactly the in-bounds squares at most one step away (its own
   * recorded square included) that hold another colour, whatever their attacked
   * flag, or are empty and not attacked.
   */
  lemma KingMovesExact(v: Cells, p: Piece, t: Coord)
    requires Fits(v)
    ensures t in KingMoves(v, p) <==>
              InBounds(t.0, t.1) && Abs(t.0 - p.rank) <= 1 && Abs(t.1 - p.file) <= 1 &&
              match At(v, t)
              case Vacant(attacked) => !attacked
              case Held(owner) => owner != p.color
  {
    StepTargetsExact(v, p.color, p.rank, p.file, KingOffsets, true, 0, t);
    KingOffsetsAre(t.0 - p.rank, t.1 - p.file);
  }

  lemma KingOffsetsAre(a: int, b: int)
    ensures Among((a, b), KingOffsets, 0) <==> Abs(a) <= 1 && Abs(b) <= 1
  {
    AmongAll((a, b), KingOffsets);
    if Abs(a) <= 1 && Abs(b) <= 1 {
      assert KingOffsets[3 * (a + 1) + (b + 1)] == (a, b);
    }
  }

  // ---------------------------------------------------------------------------
  // Sliding pieces: Bishop, Rook and Queen

  /** How a slide treats occupied squares: bishop and rook, or the queen with or without powerup. */
  datatype Gait = Slide | Sweep(powered: bool)

  const Diagonals: seq<Coord> := [(-1, -1), (-1, 1), (1, 1), (1, -1)]
  const Orthogonals: seq<Coord> := [(-1, 0), (1, 0), (0, -1), (0, 1)]
  const AllDirections: seq<Coord> := Diagonals + Orthogonals

  predicate IsDirection(dr: int, df: int)
  {
    -1 <= dr <= 1 && -1 <= df <= 1 && (dr != 0 || df != 0)
  }

  predicate AreDirections(dirs: seq<Coord>)
  {
    forall i :: 0 <= i < |dirs| ==> IsDirection(dirs[i].0, dirs[i].1)
  }

  /** The coordinate k steps along direction d from x. */
  function Step(x: int, d: int, k: int): int
  {
    if d > 0 then x + k else if d < 0 then x - k else x
  }

  /** A bound on the steps left before leaving the board (termination measure of a slide). */
  function Room(x: int, d: int): int
  {
    if d > 0 then 8 - x else if d < 0 then x + 1 else 0
  }

  /** The number of steps from (r, f) to t along (dr, df), if t lies on that line. */
  function RayIndex(r: int, f: int, dr: int, df: int, t: Coord): int
  {
    if dr > 0 then t.0 - r else if dr < 0 then r - t.0 else if df > 0 then t.1 - f else f - t.1
  }

  /** t lies on the ray that starts at (r, f) and heads in direction (dr, df). */
  predicate OnRay(r: int, f: int, dr: int, df: int, t: Coord)
  {
    var k := RayIndex(r, f, dr, df, t);
    k >= 0 && t == (Step(r, dr, k), Step(f, df, k))
  }

  /**
   * A square the walk passes over and goes on beyond: an empty one; for a
   * powered queen any square; for every other slider a green token.
   */
  predicate Passes(v: Cells, c: Color, gait: Gait, t: Coord)
    requires Fits(v)
  {
    InBounds(t.0, t.1) &&
    (At(v, t).Vacant? || (gait.Sweep? && gait.powered) || (At(v, t) == Held(Green) && c != Green))
  }

  /**
   * How many times a walk that reaches t lists it: an empty square once; a
   * square of the slider's own colour never; a green token twice for a bishop
   * or rook and once for the queen; a square of the other side once.
   */
  function Hits(v: Cells, c: Color, gait: Gait, t: Coord): nat
    requires Fits(v)
  {
    if !InBounds(t.0, t.1) then 0
    else match At(v, t)
      case Vacant(_) => 1
      case Held(owner) => if owner == c then 0 else if owner == Green && gait.Slide? then 2 else 1
  }

  /** n copies of t, for the at most two times a walk lists one square. */
  function Copies(t: Coord, n: nat): seq<Coord>
  {
    if n == 0 then [] else if n == 1 then [t] else [t, t]
  }

  /**
   * The walk along one ray from (r, f) (the first square beyond the piece).
   * Bishop and rook: an empty square is listed; a square of their own colour
   * stops the walk unlisted; another colour is listed and stops the walk,
   * except a green token, which is listed twice and walked past. Queen: a
   * square of another colour is listed once and stops the walk unless she is
   * powered or it is green; her own colour is never listed and stops the walk
   * unless she is powered.
   */
  function Ray(v: Cells, c: Color, gait: Gait, r: int, f: int, dr: int, df: int): seq<Coord>
    requires Fits(v) && IsDirection(dr, df)
    decreases Room(r, dr) + Room(f, df)
  {
    if !InBounds(r, f) then []
    else
      match v[r][f]
      case Vacant(_) => [(r, f)] + Ray(v, c, gait, r + dr, f + df, dr, df)
      case Held(owner) =>
        if owner == c then
          (if gait.Sweep? && gait.powered then Ray(v, c, gait, r + dr, f + df, dr, df) else [])
        else if owner == Green then
          (if gait.Slide? then [(r, f), (r, f)] else [(r, f)]) + Ray(v, c, gait, r + dr, f + df, dr, df)
        else
          [(r, f)] + (if gait.Sweep? && gait.powered then Ray(v, c, gait, r + dr, f + df, dr, df) else [])
  }

  /** One step of a ray, in terms of Hits and Passes. */
  lemma RayUnfold(v: Cells, c: Color, gait: Gait, r: int, f: int, dr: int, df: int)
    requires Fits(v) && IsDirection(dr, df) && InBounds(r, f)
    ensures Hits(v, c, gait, (r, f)) <= 2
    ensures Ray(v, c, gait, r, f, dr, df) ==
              Copies((r, f), Hits(v, c, gait, (r, f))) +
              (if Passes(v, c, gait, (r, f)) then Ray(v, c, gait, r + dr, f + df, dr, df) else [])
  {
  }

  lemma CopiesCount(t: Coord, n: nat, u: Coord)
    requires n <= 2
    ensures multiset(Copies(t, n))[u] == if u == t then n else 0
    ensures u in Copies(t, n) <==> u == t && n > 0
  {
  }

  /** A ray lists a square iff it is its first square, listed at least once, or the rest of the ray lists it past a first square it passes over. */
  lemma RayMembers(v: Cells, c: Color, gait: Gait, r: int, f: int, dr: int, df: int, t: Coord)
    requires Fits(v) && IsDirection(dr, df)
    ensures t in Ray(v, c, gait, r, f, dr, df) <==>
              InBounds(r, f) &&
              ((t == (r, f) && Hits(v, c, gait, (r, f)) > 0) ||
               (Passes(v, c, gait, (r, f)) && t in Ray(v, c, gait, r + dr, f + df, dr, df)))
  {
    if InBounds(r, f) {
      RayUnfold(v, c, gait, r, f, dr, df);
      CopiesCount((r, f), Hits(v, c, gait, (r, f)), t);
    }
  }

  /** How often a ray lists a square: Hits times if it is the first square, plus what the rest of the ray lists if the first square is passed over. */
  lemma RayCounts(v: Cells, c: Color, gait: Gait, r: int, f: int, dr: int, df: int, t: Coord)
    requires Fits(v) && IsDirection(dr, df) && InBounds(r, f)
    ensures multiset(Ray(v, c, gait, r, f, dr, df))[t] ==
              (if t == (r, f) then Hits(v, c, gait, (r, f)) else 0) +
              (if Passes(v, c, gait, (r, f)) then multiset(Ray(v, c, gait, r + dr, f + df, dr, df))[t] else 0)
  {
    RayUnfold(v, c, gait, r, f, dr, df);
    CopiesCount((r, f), Hits(v, c, gait, (r, f)), t);
  }

  lemma OnRayStart(r: int, f: int, dr: int, df: int)
    requires IsDirection(dr, df)
    ensures OnRay(r, f, dr, df, (r, f))
  {
  }

  /** A square on the ray from the next square is on the ray from this one. */
  lemma OnRayShift(r: int, f: int, dr: int, df: int, t: Coord)
    requires IsDirection(dr, df) && OnRay(r + dr, f + df, dr, df, t)
    ensures OnRay(r, f, dr, df, t)
  {
    var k := RayIndex(r + dr, f + df, dr, df, t);
    assert RayIndex(r, f, dr, df, t) == k + 1;
    assert (Step(r, dr, k + 1), Step(f, df, k + 1)) == (Step(r + dr, dr, k), Step(f + df, df, k));
  }

  /** The square k > 0 steps out is the square k - 1 steps out from the next one, and not the start. */
  lemma StepShift(r: int, f: int, dr: int, df: int, k: int)
    requires IsDirection(dr, df) && k > 0
    ensures (Step(r, dr, k), Step(f, df, k)) == (Step(r + dr, dr, k - 1), Step(f + df, df, k - 1))
    ensures (Step(r, dr, k), Step(f, df, k)) != (r, f)
    ensures (Step(r, dr, 0), Step(f, df, 0)) == (r, f)
  {
  }

  /** The walk from (r, f) moves strictly closer to the edge of the board. */
  lemma RoomShrinks(r: int, f: int, dr: int, df: int)
    requires IsDirection(dr, df) && InBounds(r, f)
    ensures 0 <= Room(r + dr, dr) + Room(f + df, df) < Room(r, dr) + Room(f, df)
  {
  }

  /** Every square a ray lists lies on the line it walks. */
  lemma {:induction false} RayStaysOnLine(v: Cells, c: Color, gait: Gait, r: int, f: int, dr: int, df: int, t: Coord)
    requires Fits(v) && IsDirection(dr, df) && t in Ray(v, c, gait, r, f, dr, df)
    ensures OnRay(r, f, dr, df, t)
    decreases Room(r, dr) + Room(f, df)
  {
    if t == (r, f) {
      OnRayStart(r, f, dr, df);
    } else {
      RayRest(v, c, gait, r, f, dr, df, t);
      RoomShrinks(r, f, dr, df);
      RayStaysOnLine(v, c, gait, r + dr, f + df, dr, df, t);
      OnRayShift(r, f, dr, df, t);
    }
  }

  /** A square a ray lists other than its first is listed by the rest of the ray, which starts on the board. */
  lemma RayRest(v: Cells, c: Color, gait: Gait, r: int, f: int, dr: int, df: int, t: Coord)
    requires Fits(v) && IsDirection(dr, df) && t in Ray(v, c, gait, r, f, dr, df) && t != (r, f)
    ensures InBounds(r, f) && t in Ray(v, c, gait, r + dr, f + df, dr, df)
  {
    RayMembers(v, c, gait, r, f, dr, df, t);
  }

  /** A ray never lists a square off the board or one of its own colour. */
  lemma {:induction false} RayInside(v: Cells, c: Color, gait: Gait, r: int, f: int, dr: int, df: int)
    requires Fits(v) && IsDirection(dr, df)
    ensures forall t :: t in Ray(v, c, gait, r, f, dr, df) ==> InBounds(t.0, t.1) && At(v, t) != Held(c)
    decreases Room(r, dr) + Room(f, df)
  {
    if InBounds(r, f) {
      RoomShrinks(r, f, dr, df);
      RayInside(v, c, gait, r + dr, f + df, dr, df);
      forall t | t in Ray(v, c, gait, r, f, dr, df)
        ensures InBounds(t.0, t.1) && At(v, t) != Held(c)
      {
        RayMembers(v, c, gait, r, f, dr, df, t);
      }
    }
  }

  /** A ray never comes back to a square before its start. */
  lemma RayNotBehind(v: Cells, c: Color, gait: Gait, r: int, f: int, dr: int, df: int)
    requires Fits(v) && IsDirection(dr, df)
    ensures (r - dr, f - df) !in Ray(v, c, gait, r, f, dr, df)
  {
    if (r - dr, f - df) in Ray(v, c, gait, r, f, dr, df) {
      RayStaysOnLine(v, c, gait, r, f, dr, df, (r - dr, f - df));
    }
  }

  /** The walk passes over the square j steps out along the ray. */
  predicate PassesAt(v: Cells, c: Color, gait: Gait, r: int, f: int, dr: int, df: int, j: int)
    requires Fits(v)
  {
    Passes(v, c, gait, (Step(r, dr, j), Step(f, df, j)))
  }

  /** The walk from (r, f) passes over each of its first k squares. */
  predicate ClearTo(v: Cells, c: Color, gait: Gait, r: int, f: int, dr: int, df: int, k: int)
    requires Fits(v)
    decreases k
  {
    k <= 0 || (Passes(v, c, gait, (r, f)) && ClearTo(v, c, gait, r + dr, f + df, dr, df, k - 1))
  }

  /** ClearTo says that the square j steps out is passed over, for every j below k. */
  lemma ClearToMeans(v: Cells, c: Color, gait: Gait, r: int, f: int, dr: int, df: int, k: int)
    requires Fits(v) && IsDirection(dr, df)
    ensures ClearTo(v, c, gait, r, f, dr, df, k) <==> forall j :: 0 <= j < k ==> PassesAt(v, c, gait, r, f, dr, df, j)
  {
    if ClearTo(v, c, gait, r, f, dr, df, k) {
      forall j | 0 <= j < k
        ensures PassesAt(v, c, gait, r, f, dr, df, j)
      {
        ClearToPasses(v, c, gait, r, f, dr, df, k, j);
      }
    }
    if forall j :: 0 <= j < k ==> PassesAt(v, c, gait, r, f, dr, df, j) {
      PassesClearTo(v, c, gait, r, f, dr, df, k);
    }
  }

  lemma {:induction false} ClearToPasses(v: Cells, c: Color, gait: Gait, r: int, f: int, dr: int, df: int, k: int, j: int)
    requires Fits(v) && IsDirection(dr, df) && 0 <= j < k && ClearTo(v, c, gait, r, f, dr, df, k)
    ensures PassesAt(v, c, gait, r, f, dr, df, j)
    decreases j
  {
    if j > 0 {
      StepShift(r, f, dr, df, j);
      ClearToPasses(v, c, gait, r + dr, f + df, dr, df, k - 1, j - 1);
    } else {
      StepShift(r, f, dr, df, 1);
    }
  }

  lemma {:induction false} PassesClearTo(v: Cells, c: Color, gait: Gait, r: int, f: int, dr: int, df: int, k: int)
    requires Fits(v) && IsDirection(dr, df)
    requires forall j :: 0 <= j < k ==> PassesAt(v, c, gait, r, f, dr, df, j)
    ensures ClearTo(v, c, gait, r, f, dr, df, k)
    decreases k
  {
    if k > 0 {
      var nr, nf := r + dr, f + df;
      forall j | 0 <= j < k - 1
        ensures PassesAt(v, c, gait, nr, nf, dr, df, j)
      {
        StepShift(r, f, dr, df, j + 1);
        assert PassesAt(v, c, gait, r, f, dr, df, j + 1);
      }
      PassesClearTo(v, c, gait, nr, nf, dr, df, k - 1);
      StepShift(r, f, dr, df, 1);
      assert PassesAt(v, c, gait, r, f, dr, df, 0);
    }
  }

  /** How many times the walk from (r, f) lists t, counted square by square. */
  function RayTally(v: Cells, c: Color, gait: Gait, r: int, f: int, dr: int, df: int, t: Coord): nat
    requires Fits(v) && IsDirection(dr, df)
    decreases Room(r, dr) + Room(f, df)
  {
    if !InBounds(r, f) then 0
    else (if t == (r, f) then Hits(v, c, gait, t) else 0) +
         (if Passes(v, c, gait, (r, f)) then RayTally(v, c, gait, r + dr, f + df, dr, df, t) else 0)
  }

  /** The square-by-square tally is the number of times the ray lists t. */
  lemma {:induction false} RayTallies(v: Cells, c: Color, gait: Gait, r: int, f: int, dr: int, df: int, t: Coord)
    requires Fits(v) && IsDirection(dr, df)
    ensures multiset(Ray(v, c, gait, r, f, dr, df))[t] == RayTally(v, c, gait, r, f, dr, df, t)
    decreases Room(r, dr) + Room(f, df)
  {
    if InBounds(r, f) {
      RoomShrinks(r, f, dr, df);
      RayTallies(v, c, gait, r + dr, f + df, dr, df, t);
      RayTallyStep(v, c, gait, r, f, dr, df, t);
    }
  }

  /** If the rest of the ray is tallied right, so is the whole ray. */
  lemma RayTallyStep(v: Cells, c: Color, gait: Gait, r: int, f: int, dr: int, df: int, t: Coord)
    requires Fits(v) && IsDirection(dr, df) && InBounds(r, f)
    requires multiset(Ray(v, c, gait, r + dr, f + df, dr, df))[t] == RayTally(v, c, gait, r + dr, f + df, dr, df, t)
    ensures multiset(Ray(v, c, gait, r, f, dr, df))[t] == RayTally(v, c, gait, r, f, dr, df, t)
  {
    RayCounts(v, c, gait, r, f, dr, df, t);
  }

  /** A ray in bounds tallies its first square exactly Hits times. */
  lemma RayTallyFirst(v: Cells, c: Color, gait: Gait, r: int, f: int, dr: int, df: int)
    requires Fits(v) && IsDirection(dr, df) && InBounds(r, f)
    ensures RayTally(v, c, gait, r, f, dr, df, (r, f)) == Hits(v, c, gait, (r, f))
  {
    RayNotBehind(v, c, gait, r + dr, f + df, dr, df);
    RayTallies(v, c, gait, r + dr, f + df, dr, df, (r, f));
  }

  /** The tally of the square k steps out: Hits if every square before it is passed over, else none. */
  lemma {:induction false} RayTallyAt(v: Cells, c: Color, gait: Gait, r: int, f: int, dr: int, df: int, k: nat, t: Coord)
    requires Fits(v) && IsDirection(dr, df) && t == (Step(r, dr, k), Step(f, df, k))
    ensures RayTally(v, c, gait, r, f, dr, df, t) == if ClearTo(v, c, gait, r, f, dr, df, k) then Hits(v, c, gait, t) else 0
    decreases k
  {
    if !InBounds(r, f) {
      assert k == 0 ==> t == (r, f);
    } else if k == 0 {
      assert t == (r, f);
      RayTallyFirst(v, c, gait, r, f, dr, df);
    } else {
      StepShift(r, f, dr, df, k);
      RayTallyAt(v, c, gait, r + dr, f + df, dr, df, k - 1, t);
      RayTallyAtStep(v, c, gait, r, f, dr, df, k, t);
    }
  }

  /** Past a first square other than t, the tally of t is what the rest of the ray tallies, if the walk passes on. */
  lemma RayTallyAtStep(v: Cells, c: Color, gait: Gait, r: int, f: int, dr: int, df: int, k: nat, t: Coord)
    requires Fits(v) && IsDirection(dr, df) && InBounds(r, f) && k > 0 && t != (r, f)
    requires RayTally(v, c, gait, r + dr, f + df, dr, df, t) ==
               if ClearTo(v, c, gait, r + dr, f + df, dr, df, k - 1) then Hits(v, c, gait, t) else 0
    ensures RayTally(v, c, gait, r, f, dr, df, t) == if ClearTo(v, c, gait, r, f, dr, df, k) then Hits(v, c, gait, t) else 0
  {
  }

  /**
   * The whole behaviour of one ray: the square k steps out is listed exactly
   * Hits times when every square before it is passed over, and never otherwise.
   * So nothing at or beyond a blocking square is listed, the first square of
   * another colour that is not a token is listed once, and a bishop or rook
   * lists a reachable token twice and carries on past it.
   */
  lemma RayCount(v: Cells, c: Color, gait: Gait, r: int, f: int, dr: int, df: int, k: nat, t: Coord)
    requires Fits(v) && IsDirection(dr, df) && t == (Step(r, dr, k), Step(f, df, k))
    ensures multiset(Ray(v, c, gait, r, f, dr, df))[t] ==
              if ClearTo(v, c, gait, r, f, dr, df, k) then Hits(v, c, gait, t) else 0
  {
    RayTallies(v, c, gait, r, f, dr, df, t);
    RayTallyAt(v, c, gait, r, f, dr, df, k, t);
  }

  /** The concatenated rays of a sliding piece at (r, f) in directions dirs[i], dirs[i + 1], ..., in order. */
  function Sweeps(v: Cells, c: Color, gait: Gait, r: int, f: int, dirs: seq<Coord>, i: nat): seq<Coord>
    requires Fits(v) && AreDirections(dirs)
    decreases |dirs| - i
  {
    if i >= |dirs| then []
    else Ray(v, c, gait, r + dirs[i].0, f + dirs[i].1, dirs[i].0, dirs[i].1) + Sweeps(v, c, gait, r, f, dirs, i + 1)
  }

  /** How often, and whether, the sweep from dirs[i] on lists t: the ray in direction dirs[i], then the rest. */
  lemma SweepsUnfold(v: Cells, c: Color, gait: Gait, r: int, f: int, dirs: seq<Coord>, i: nat, t: Coord)
    requires Fits(v) && AreDirections(dirs) && i < |dirs|
    ensures IsDirection(dirs[i].0, dirs[i].1)
    ensures multiset(Sweeps(v, c, gait, r, f, dirs, i))[t] ==
              multiset(Ray(v, c, gait, r + dirs[i].0, f + dirs[i].1, dirs[i].0, dirs[i].1))[t] +
              multiset(Sweeps(v, c, gait, r, f, dirs, i + 1))[t]
    ensures t in Sweeps(v, c, gait, r, f, dirs, i) <==>
              t in Ray(v, c, gait, r + dirs[i].0, f + dirs[i].1, dirs[i].0, dirs[i].1) ||
              t in Sweeps(v, c, gait, r, f, dirs, i + 1)
  {
  }

  /** A sliding piece never lists a square off the board or one of its own colour. */
  lemma {:induction false} SweepsInside(v: Cells, c: Color, gait: Gait, r: int, f: int, dirs: seq<Coord>, i: nat)
    requires Fits(v) && AreDirections(dirs)
    ensures forall t :: t in Sweeps(v, c, gait, r, f, dirs, i) ==> InBounds(t.0, t.1) && At(v, t) != Held(c)
    decreases |dirs| - i
  {
    if i < |dirs| {
      RayInside(v, c, gait, r + dirs[i].0, f + dirs[i].1, dirs[i].0, dirs[i].1);
      SweepsInside(v, c, gait, r, f, dirs, i + 1);
      forall t | t in Sweeps(v, c, gait, r, f, dirs, i)
        ensures InBounds(t.0, t.1) && At(v, t) != Held(c)
      {
        SweepsUnfold(v, c, gait, r, f, dirs, i, t);
      }
    }
  }

  /** Two rays leaving the same square in different directions never meet. */
  lemma RaysApart(r: int, f: int, d: Coord, e: Coord, k: nat)
    requires IsDirection(d.0, d.1) && IsDirection(e.0, e.1)
    requires OnRay(r + e.0, f + e.1, e.0, e.1, (Step(r + d.0, d.0, k), Step(f + d.1, d.1, k)))
    ensures d == e
  {
  }

  /** A ray never lists a square of the ray in another direction. */
  lemma RayMisses(v: Cells, c: Color, gait: Gait, r: int, f: int, d: Coord, e: Coord, k: nat)
    requires Fits(v) && IsDirection(d.0, d.1) && IsDirection(e.0, e.1) && d != e
    ensures multiset(Ray(v, c, gait, r + e.0, f + e.1, e.0, e.1))[(Step(r + d.0, d.0, k), Step(f + d.1, d.1, k))] == 0
  {
    var t := (Step(r + d.0, d.0, k), Step(f + d.1, d.1, k));
    if t in Ray(v, c, gait, r + e.0, f + e.1, e.0, e.1) {
      RayStaysOnLine(v, c, gait, r + e.0, f + e.1, e.0, e.1, t);
      RaysApart(r, f, d, e, k);
    }
  }

  /** The rays from dirs[i] on, none of them in direction d, never list a square of the ray in direction d. */
  lemma {:induction false} SweepsMiss(v: Cells, c: Color, gait: Gait, r: int, f: int, dirs: seq<Coord>, i: nat, d: Coord, k: nat)
    requires Fits(v) && AreDirections(dirs) && IsDirection(d.0, d.1)
    requires forall j :: i <= j < |dirs| ==> dirs[j] != d
    ensures multiset(Sweeps(v, c, gait, r, f, dirs, i))[(Step(r + d.0, d.0, k), Step(f + d.1, d.1, k))] == 0
    decreases |dirs| - i
  {
    if i < |dirs| {
      var t := (Step(r + d.0, d.0, k), Step(f + d.1, d.1, k));
      SweepsUnfold(v, c, gait, r, f, dirs, i, t);
      RayMisses(v, c, gait, r, f, d, dirs[i], k);
      SweepsMiss(v, c, gait, r, f, dirs, i + 1, d, k);
    }
  }

  /** One step of SweepsCount: the ray in direction dirs[i] adds its own count, or nothing when its direction is not d. */
  lemma SweepsCountStep(v: Cells, c: Color, gait: Gait, r: int, f: int, dirs: seq<Coord>, i: nat, d: Coord, k: nat)
    requires Fits(v) && AreDirections(dirs) && i < |dirs| && IsDirection(d.0, d.1)
    ensures var t := (Step(r + d.0, d.0, k), Step(f + d.1, d.1, k));
            multiset(Sweeps(v, c, gait, r, f, dirs, i))[t] ==
              (if dirs[i] == d then multiset(Ray(v, c, gait, r + d.0, f + d.1, d.0, d.1))[t] else 0) +
              multiset(Sweeps(v, c, gait, r, f, dirs, i + 1))[t]
  {
    var t := (Step(r + d.0, d.0, k), Step(f + d.1, d.1, k));
    SweepsUnfold(v, c, gait, r, f, dirs, i, t);
    if dirs[i] != d {
      RayMisses(v, c, gait, r, f, d, dirs[i], k);
    }
  }

  /**
   * A sliding piece lists the square k + 1 steps out in direction d, which is
   * dirs[n] and no other of its directions, as often as the ray in that
   * direction does: the other rays never reach it.
   */
  lemma {:induction false} SweepsCount(v: Cells, c: Color, gait: Gait, r: int, f: int, dirs: seq<Coord>, i: nat, n: nat, d: Coord, k: nat)
    requires Fits(v) && AreDirections(dirs) && i <= n < |dirs| && dirs[n] == d
    requires forall j :: i <= j < |dirs| && j != n ==> dirs[j] != d
    ensures IsDirection(d.0, d.1)
    ensures multiset(Sweeps(v, c, gait, r, f, dirs, i))[(Step(r + d.0, d.0, k), Step(f + d.1, d.1, k))] ==
              multiset(Ray(v, c, gait, r + d.0, f + d.1, d.0, d.1))[(Step(r + d.0, d.0, k), Step(f + d.1, d.1, k))]
    decreases n - i
  {
    var t := (Step(r + d.0, d.0, k), Step(f + d.1, d.1, k));
    assert multiset(Sweeps(v, c, gait, r, f, dirs, i))[t] ==
             (if dirs[i] == d then multiset(Ray(v, c, gait, r + d.0, f + d.1, d.0, d.1))[t] else 0) +
             multiset(Sweeps(v, c, gait, r, f, dirs, i + 1))[t] by {
      SweepsCountStep(v, c, gait, r, f, dirs, i, d, k);
    }
    if i == n {
      assert multiset(Sweeps(v, c, gait, r, f, dirs, i + 1))[t] == 0 by {
        SweepsMiss(v, c, gait, r, f, dirs, i + 1, d, k);
      }
    } else {
      assert multiset(Sweeps(v, c, gait, r, f, dirs, i + 1))[t] == multiset(Ray(v, c, gait, r + d.0, f + d.1, d.0, d.1))[t] by {
        SweepsCount(v, c, gait, r, f, dirs, i + 1, n, d, k);
      }
    }
  }

  /** Entering direction dirs[i]: what is left of the sweep is that ray, then the later directions. */
  lemma SweepsEnter(v: Cells, c: Color, gait: Gait, r: int, f: int, dirs: seq<Coord>, i: nat, moves: seq<Coord>, whole: seq<Coord>)
    requires Fits(v) && AreDirections(dirs) && i < |dirs|
    requires moves + Sweeps(v, c, gait, r, f, dirs, i) == whole
    ensures IsDirection(dirs[i].0, dirs[i].1)
    ensures moves + Ray(v, c, gait, r + dirs[i].0, f + dirs[i].1, dirs[i].0, dirs[i].1) + Sweeps(v, c, gait, r, f, dirs, i + 1) == whole
  {
    AppendAssoc(moves, Ray(v, c, gait, r + dirs[i].0, f + dirs[i].1, dirs[i].0, dirs[i].1), Sweeps(v, c, gait, r, f, dirs, i + 1));
  }

  /**
   * One square of a bishop's or rook's walk, case by case as its loop tests
   * them: given what the ray from (tr, tf) still lists, what is left after the
   * square. An empty square is listed and walked past; a square of another
   * colour is listed and ends the walk, except a token, which is listed twice
   * and walked past; a square of the walker's own colour ends the walk unlisted.
   */
  lemma SlideSquare(v: Cells, c: Color, tr: int, tf: int, dr: int, df: int, before: seq<Coord>, whole: seq<Coord>)
    requires Fits(v) && IsDirection(dr, df) && InBounds(tr, tf)
    requires before + Ray(v, c, Slide, tr, tf, dr, df) == whole
    ensures v[tr][tf].Vacant? ==> before + [(tr, tf)] + Ray(v, c, Slide, tr + dr, tf + df, dr, df) == whole
    ensures v[tr][tf].Held? && v[tr][tf].owner != c && v[tr][tf].owner != Green ==> before + [(tr, tf)] == whole
    ensures v[tr][tf].Held? && v[tr][tf].owner != c && v[tr][tf].owner == Green ==>
              before + [(tr, tf)] + [(tr, tf)] + Ray(v, c, Slide, tr + dr, tf + df, dr, df) == whole
    ensures v[tr][tf] == Held(c) ==> before == whole
  {
    var next := Ray(v, c, Slide, tr + dr, tf + df, dr, df);
    AppendAssoc(before, [(tr, tf)], next);
    AppendAssoc(before + [(tr, tf)], [(tr, tf)], next);
    AppendAssoc(before, [(tr, tf), (tr, tf)], next);
    assert before + [(tr, tf)] + [(tr, tf)] == before + [(tr, tf), (tr, tf)];
  }

  /**
   * One square of the queen's walk, case by case as her loop tests them. An
   * empty square is listed and walked past; a square of another colour is
   * listed, and walked past only if she is powered or it is a token; a square
   * of her own colour is walked past, unlisted, only if she is powered.
   */
  lemma QueenSquare(v: Cells, c: Color, powered: bool, tr: int, tf: int, dr: int, df: int, before: seq<Coord>, whole: seq<Coord>)
    requires Fits(v) && IsDirection(dr, df) && InBounds(tr, tf)
    requires before + Ray(v, c, Sweep(powered), tr, tf, dr, df) == whole
    ensures v[tr][tf].Vacant? ==> before + [(tr, tf)] + Ray(v, c, Sweep(powered), tr + dr, tf + df, dr, df) == whole
    ensures v[tr][tf].Held? && v[tr][tf].owner != c && (powered || v[tr][tf].owner == Green) ==>
              before + [(tr, tf)] + Ray(v, c, Sweep(powered), tr + dr, tf + df, dr, df) == whole
    ensures v[tr][tf].Held? && v[tr][tf].owner != c && !(powered || v[tr][tf].owner == Green) ==> before + [(tr, tf)] == whole
    ensures v[tr][tf] == Held(c) && powered ==> before + Ray(v, c, Sweep(powered), tr + dr, tf + df, dr, df) == whole
    ensures v[tr][tf] == Held(c) && !powered ==> before == whole
  {
    AppendAssoc(before, [(tr, tf)], Ray(v, c, Sweep(powered), tr + dr, tf + df, dr, df));
  }

  /** A walk that has left the board has nothing left of its ray. */
  lemma RayOff(v: Cells, c: Color, gait: Gait, tr: int, tf: int, dr: int, df: int, listed: seq<Coord>, whole: seq<Coord>)
    requires Fits(v) && IsDirection(dr, df) && !InBounds(tr, tf)
    requires listed + Ray(v, c, gait, tr, tf, dr, df) == whole
    ensures listed == whole
  {
    assert Ray(v, c, gait, tr, tf, dr, df) == [];
  }

  // ---------------------------------------------------------------------------
  // Pawn

  /** A square a pawn may advance onto: empty or holding a token. */
  predicate Open(v: Cells, t: Coord)
    requires Fits(v) && InBounds(t.0, t.1)
  {
    At(v, t).Vacant? || At(v, t) == Held(Green)
  }

  /** A square a pawn of colour c may capture onto: held by the other side, never a token. */
  predicate Takeable(v: Cells, c: Color, t: Coord)
    requires Fits(v) && InBounds(t.0, t.1)
  {
    At(v, t).Held? && At(v, t).owner != Green && At(v, t).owner != c
  }

  /** Rank direction of a pawn's advance: white toward rank 0, black toward rank 7. */
  function Forward(c: Color): int
  {
    if c == White then -1 else 1
  }

  /**
   * The pawn's advances: one square ahead onto an open square, then two ahead
   * when it has not moved and both squares are open.
   */
  function PawnAdvances(v: Cells, p: Piece): (moves: seq<Coord>)
    requires Fits(v) && InBounds(p.rank, p.file)
    ensures |moves| <= 2
    ensures forall t :: t in moves ==>
      InBounds(t.0, t.1) && t.1 == p.file && Open(v, t)
      && (t.0 == p.rank + Forward(p.color)
          || (t.0 == p.rank + 2 * Forward(p.color) && !p.hasMoved
              && InBounds(p.rank + Forward(p.color), p.file) && Open(v, (p.rank + Forward(p.color), p.file))))
  {
    var r, f, d := p.rank, p.file, Forward(p.color);
    (if InBounds(r + d, f) && Open(v, (r + d, f)) then [(r + d, f)] else [])
    + (if InBounds(r + 2 * d, f) && Open(v, (r + d, f)) && Open(v, (r + 2 * d, f)) && !p.hasMoved
       then [(r + 2 * d, f)] else [])
  }

  /** The pawn's captures: one square diagonally ahead, right file first, onto the other side. */
  function PawnCaptures(v: Cells, p: Piece): (moves: seq<Coord>)
    requires Fits(v) && InBounds(p.rank, p.file)
    ensures |moves| <= 2
    ensures forall t :: t in moves ==>
      InBounds(t.0, t.1) && Abs(t.1 - p.file) == 1 && t.0 == p.rank + Forward(p.color) && Takeable(v, p.color, t)
  {
    var r, f, d := p.rank, p.file, Forward(p.color);
    (if InBounds(r + d, f + 1) && Takeable(v, p.color, (r + d, f + 1)) then [(r + d, f + 1)] else [])
    + (if InBounds(r + d, f - 1) && Takeable(v, p.color, (r + d, f - 1)) then [(r + d, f - 1)] else [])
  }

  /**
   * Pawn.valid_moves: white advances toward rank 0, black toward rank 7, and a
   * pawn of any other colour has no move. No move lands on the pawn's own side.
   */
  function PawnMoves(v: Cells, p: Piece): (moves: seq<Coord>)
    requires Fits(v) && InBounds(p.rank, p.file)
    ensures forall t :: t in moves ==> InBounds(t.0, t.1) && At(v, t) != Held(p.color)
    ensures |moves| <= 4 && (p.color == Green ==> moves == [])
  {
    if p.color == Green then [] else PawnAdvances(v, p) + PawnCaptures(v, p)
  }

  /**
   * A pawn advances exactly onto the open square ahead, and onto the open
   * square two ahead when it has not moved and the square between is open.
   */
  lemma PawnAdvancesExact(v: Cells, p: Piece, t: Coord)
    requires Fits(v) && InBounds(p.rank, p.file)
    ensures var r, f, d := p.rank, p.file, Forward(p.color);
      t in PawnAdvances(v, p) <==>
        InBounds(t.0, t.1) && t.1 == f &&
        ((t.0 == r + d && Open(v, t)) ||
         (t.0 == r + 2 * d && !p.hasMoved && InBounds(r + d, f) && Open(v, (r + d, f)) && Open(v, t)))
  {
  }

  /** A pawn captures exactly onto the squares diagonally ahead that hold a piece of the other side. */
  lemma PawnCapturesExact(v: Cells, p: Piece, t: Coord)
    requires Fits(v) && InBounds(p.rank, p.file)
    ensures t in PawnCaptures(v, p) <==>
              InBounds(t.0, t.1) && t.0 == p.rank + Forward(p.color) && Abs(t.1 - p.file) == 1 && Takeable(v, p.color, t)
  {
  }

  /**
   * A white or black pawn lists exactly its advances and its captures: the
   * open square ahead, the open square two ahead from an unmoved pawn with
   * the square between open, and the other side's pieces diagonally ahead.
   * A green pawn lists nothing.
   */
  lemma PawnMovesExact(v: Cells, p: Piece, t: Coord)
    requires Fits(v) && InBounds(p.rank, p.file)
    ensures var r, f, d := p.rank, p.file, Forward(p.color);
      t in PawnMoves(v, p) <==>
        p.color != Green && InBounds(t.0, t.1) &&
        ((t == (r + d, f) && Open(v, t)) ||
         (t == (r + 2 * d, f) && !p.hasMoved && InBounds(r + d, f) && Open(v, (r + d, f)) && Open(v, t)) ||
         (t.0 == r + d && Abs(t.1 - f) == 1 && Takeable(v, p.color, t)))
  {
    PawnAdvancesExact(v, p, t);
    PawnCapturesExact(v, p, t);
  }

  // ---------------------------------------------------------------------------
  // Dispatch over kinds

  predicate IsSlider(k: Kind)
  {
    k == Bishop || k == Rook || k == Queen
  }

  /** The directions a sliding kind walks, in the order its loop visits them. */
  function Directions(k: Kind): seq<Coord>
  {
    if k == Bishop then Diagonals else if k == Rook then Orthogonals else AllDirections
  }

  /** How a sliding piece treats occupied squares. */
  function GaitOf(p: Piece): Gait
  {
    if p.kind == Queen then Sweep(p.hasPowerup) else Slide
  }

  lemma DirectionsAre(k: Kind)
    ensures AreDirections(Directions(k))
  {
  }

  /** The squares a bishop, rook or queen lists: its rays, one per direction, in order. */
  function SlideMoves(v: Cells, p: Piece): (moves: seq<Coord>)
    requires Fits(v) && IsSlider(p.kind)
    ensures forall t :: t in moves ==> InBounds(t.0, t.1) && At(v, t) != Held(p.color)
  {
    DirectionsAre(p.kind);
    SweepsInside(v, p.color, GaitOf(p), p.rank, p.file, Directions(p.kind), 0);
    Sweeps(v, p.color, GaitOf(p), p.rank, p.file, Directions(p.kind), 0)
  }

  /** The destinations `valid_moves` returns for p (a token has none). */
  function PieceMoves(v: Cells, p: Piece): (moves: seq<Coord>)
    requires Fits(v) && InBounds(p.rank, p.file)
    ensures forall t :: t in moves ==> InBounds(t.0, t.1) && At(v, t) != Held(p.color)
  {
    match p.kind
    case King =>
      StepTargetsInside(v, p.color, p.rank, p.file, KingOffsets, true);
      KingMoves(v, p)
    case Queen => SlideMoves(v, p)
    case Knight =>
      StepTargetsInside(v, p.color, p.rank, p.file, if p.hasPowerup then KnightLeaps + KnightStrides else KnightLeaps, false);
      KnightMoves(v, p)
    case Bishop => SlideMoves(v, p)
    case Rook => SlideMoves(v, p)
    case Pawn => PawnMoves(v, p)
    case PowerUp => []
  }

  /** A square on the ray that starts one step from (r, f) in direction d lies on that line, beyond (r, f). */
  lemma RayLine(r: int, f: int, d: Coord, t: Coord)
    requires IsDirection(d.0, d.1) && OnRay(r + d.0, f + d.1, d.0, d.1, t)
    ensures t != (r, f)
    ensures d.0 == 0 ==> t.0 == r
    ensures d.1 == 0 ==> t.1 == f
    ensures d.0 != 0 && d.1 != 0 ==> Abs(t.0 - r) == Abs(t.1 - f)
  {
  }

  /** Every square listed by the ray that starts one step from (r, f) in direction d lies on that line, beyond (r, f). */
  lemma RayFromLine(v: Cells, c: Color, gait: Gait, r: int, f: int, d: Coord, t: Coord)
    requires Fits(v) && IsDirection(d.0, d.1) && t in Ray(v, c, gait, r + d.0, f + d.1, d.0, d.1)
    ensures t != (r, f)
    ensures d.0 == 0 ==> t.0 == r
    ensures d.1 == 0 ==> t.1 == f
    ensures d.0 != 0 && d.1 != 0 ==> Abs(t.0 - r) == Abs(t.1 - f)
  {
    RayStaysOnLine(v, c, gait, r + d.0, f + d.1, d.0, d.1, t);
    RayLine(r, f, d, t);
  }

  /** Every square a sweep lists lies beyond (r, f) on its rank, its file or one of its diagonals. */
  lemma {:induction false} SweepsLines(v: Cells, c: Color, gait: Gait, r: int, f: int, dirs: seq<Coord>, i: nat, t: Coord)
    requires Fits(v) && AreDirections(dirs) && t in Sweeps(v, c, gait, r, f, dirs, i)
    ensures t != (r, f) && (t.0 == r || t.1 == f || Abs(t.0 - r) == Abs(t.1 - f))
    decreases |dirs| - i
  {
    SweepsUnfold(v, c, gait, r, f, dirs, i, t);
    if t in Ray(v, c, gait, r + dirs[i].0, f + dirs[i].1, dirs[i].0, dirs[i].1) {
      RayFromLine(v, c, gait, r, f, dirs[i], t);
    } else {
      SweepsLines(v, c, gait, r, f, dirs, i + 1, t);
    }
  }

  /** A sweep whose directions are all orthogonal lists only squares on the rank or file of (r, f). */
  lemma {:induction false} SweepsOrthogonal(v: Cells, c: Color, gait: Gait, r: int, f: int, dirs: seq<Coord>, i: nat, t: Coord)
    requires Fits(v) && AreDirections(dirs) && t in Sweeps(v, c, gait, r, f, dirs, i)
    requires forall n :: i <= n < |dirs| ==> dirs[n].0 == 0 || dirs[n].1 == 0
    ensures t.0 == r || t.1 == f
    decreases |dirs| - i
  {
    SweepsUnfold(v, c, gait, r, f, dirs, i, t);
    if t in Ray(v, c, gait, r + dirs[i].0, f + dirs[i].1, dirs[i].0, dirs[i].1) {
      RayFromLine(v, c, gait, r, f, dirs[i], t);
    } else {
      SweepsOrthogonal(v, c, gait, r, f, dirs, i + 1, t);
    }
  }

  /** A sweep whose directions are all diagonal lists only squares on the diagonals of (r, f). */
  lemma {:induction false} SweepsDiagonal(v: Cells, c: Color, gait: Gait, r: int, f: int, dirs: seq<Coord>, i: nat, t: Coord)
    requires Fits(v) && AreDirections(dirs) && t in Sweeps(v, c, gait, r, f, dirs, i)
    requires forall n :: i <= n < |dirs| ==> dirs[n].0 != 0 && dirs[n].1 != 0
    ensures Abs(t.0 - r) == Abs(t.1 - f)
    decreases |dirs| - i
  {
    SweepsUnfold(v, c, gait, r, f, dirs, i, t);
    if t in Ray(v, c, gait, r + dirs[i].0, f + dirs[i].1, dirs[i].0, dirs[i].1) {
      RayFromLine(v, c, gait, r, f, dirs[i], t);
    } else {
      SweepsDiagonal(v, c, gait, r, f, dirs, i + 1, t);
    }
  }

  /** A rook's directions are orthogonal and a bishop's diagonal. */
  lemma DirectionShape(k: Kind, n: nat)
    requires IsSlider(k) && n < |Directions(k)|
    ensures k == Rook ==> Directions(k)[n].0 == 0 || Directions(k)[n].1 == 0
    ensures k == Bishop ==> Directions(k)[n].0 != 0 && Directions(k)[n].1 != 0
  {
  }

  /**
   * A sliding piece lists only squares on its lines, never its own square: a
   * rook its rank and file, a bishop its diagonals, a queen either.
   */
  lemma SlideLines(v: Cells, p: Piece, t: Coord)
    requires Fits(v) && IsSlider(p.kind) && t in SlideMoves(v, p)
    ensures t != (p.rank, p.file)
    ensures p.kind == Rook ==> t.0 == p.rank || t.1 == p.file
    ensures p.kind == Bishop ==> Abs(t.0 - p.rank) == Abs(t.1 - p.file)
    ensures p.kind == Queen ==> t.0 == p.rank || t.1 == p.file || Abs(t.0 - p.rank) == Abs(t.1 - p.file)
  {
    var dirs := Directions(p.kind);
    DirectionsAre(p.kind);
    forall n | 0 <= n < |dirs|
      ensures p.kind == Rook ==> dirs[n].0 == 0 || dirs[n].1 == 0
      ensures p.kind == Bishop ==> dirs[n].0 != 0 && dirs[n].1 != 0
    {
      DirectionShape(p.kind, n);
    }
    SweepsLines(v, p.color, GaitOf(p), p.rank, p.file, dirs, 0, t);
    if p.kind == Rook {
      SweepsOrthogonal(v, p.color, GaitOf(p), p.rank, p.file, dirs, 0, t);
    } else if p.kind == Bishop {
      SweepsDiagonal(v, p.color, GaitOf(p), p.rank, p.file, dirs, 0, t);
    }
  }

  /** dirs[n] occurs in dirs at index n only. */
  predicate OnlyAt(dirs: seq<Coord>, n: nat)
    requires n < |dirs|
  {
    forall j :: 0 <= j < |dirs| && j != n ==> dirs[j] != dirs[n]
  }

  lemma DirectionsDistinct(k: Kind, n: nat)
    requires n < |Directions(k)|
    ensures AreDirections(Directions(k)) && OnlyAt(Directions(k), n)
  {
  }

  /**
   * The whole behaviour of a bishop, rook or queen in one of its directions d:
   * the square k + 1 steps out along d is listed exactly Hits times when the
   * walk passes over every square before it, and never otherwise. Hits is 1
   * for an empty square or another side's piece, 0 for the piece's own colour,
   * and 2 for a token in a bishop's or rook's way.
   */
  lemma SliderCount(v: Cells, p: Piece, n: nat, d: Coord, k: nat)
    requires Fits(v) && IsSlider(p.kind) && n < |Directions(p.kind)| && d == Directions(p.kind)[n]
    ensures multiset(SlideMoves(v, p))[(Step(p.rank + d.0, d.0, k), Step(p.file + d.1, d.1, k))] ==
              if ClearTo(v, p.color, GaitOf(p), p.rank + d.0, p.file + d.1, d.0, d.1, k)
              then Hits(v, p.color, GaitOf(p), (Step(p.rank + d.0, d.0, k), Step(p.file + d.1, d.1, k))) else 0
  {
    DirectionsDistinct(p.kind, n);
    SliderCountOnce(v, p, n, d, k);
  }

  /** SliderCount, given that the piece's directions are directions and d occurs among them once. */
  lemma SliderCountOnce(v: Cells, p: Piece, n: nat, d: Coord, k: nat)
    requires Fits(v) && IsSlider(p.kind) && n < |Directions(p.kind)| && d == Directions(p.kind)[n]
    requires AreDirections(Directions(p.kind)) && OnlyAt(Directions(p.kind), n)
    ensures multiset(SlideMoves(v, p))[(Step(p.rank + d.0, d.0, k), Step(p.file + d.1, d.1, k))] ==
              if ClearTo(v, p.color, GaitOf(p), p.rank + d.0, p.file + d.1, d.0, d.1, k)
              then Hits(v, p.color, GaitOf(p), (Step(p.rank + d.0, d.0, k), Step(p.file + d.1, d.1, k))) else 0
  {
    SweepsDirectionCount(v, p.color, GaitOf(p), p.rank, p.file, Directions(p.kind), n, d, k);
  }

  /** SweepsCount and RayCount together, for a direction that occurs once in dirs. */
  lemma SweepsDirectionCount(v: Cells, c: Color, gait: Gait, r: int, f: int, dirs: seq<Coord>, n: nat, d: Coord, k: nat)
    requires Fits(v) && AreDirections(dirs) && n < |dirs| && d == dirs[n] && OnlyAt(dirs, n)
    ensures multiset(Sweeps(v, c, gait, r, f, dirs, 0))[(Step(r + d.0, d.0, k), Step(f + d.1, d.1, k))] ==
              if ClearTo(v, c, gait, r + d.0, f + d.1, d.0, d.1, k) then Hits(v, c, gait, (Step(r + d.0, d.0, k), Step(f + d.1, d.1, k))) else 0
  {
    SweepsCount(v, c, gait, r, f, dirs, 0, n, d, k);
    RayCount(v, c, gait, r + d.0, f + d.1, d.0, d.1, k, (Step(r + d.0, d.0, k), Step(f + d.1, d.1, k)));
  }


  // ---------------------------------------------------------------------------
  // The generators as the source runs them

  /** Knight.valid_moves: picks its offset list, then keeps the squares it may land on. */
  method KnightValidMoves(v: Cells, p: Piece) returns (moves: seq<Coord>)
    requires Fits(v)
    ensures moves == KnightMoves(v, p)
  {
    var offsets := if p.hasPowerup then KnightLeaps + KnightStrides else KnightLeaps;
    moves := StepScan(v, p.color, p.rank, p.file, offsets, false);
  }

  /** Bishop.valid_moves: the bishop's walks along the four diagonals. */
  method BishopValidMoves(v: Cells, p: Piece) returns (moves: seq<Coord>)
    requires Fits(v) && p.kind == Bishop
    ensures moves == SlideMoves(v, p)
  {
    moves := SlideScan(v, p.color, p.rank, p.file, Diagonals);
  }

  /** Rook.valid_moves: the rook's walks along the four orthogonals. */
  method RookValidMoves(v: Cells, p: Piece) returns (moves: seq<Coord>)
    requires Fits(v) && p.kind == Rook
    ensures moves == SlideMoves(v, p)
  {
    moves := SlideScan(v, p.color, p.rank, p.file, Orthogonals);
  }

  /** The outer loop shared by the bishop and the rook: one walk per direction, in order. */
  method SlideScan(v: Cells, c: Color, r: int, f: int, dirs: seq<Coord>) returns (moves: seq<Coord>)
    requires Fits(v) && AreDirections(dirs)
    ensures moves == Sweeps(v, c, Slide, r, f, dirs, 0)
  {
    moves := [];
    for i := 0 to |dirs|
      invariant moves + Sweeps(v, c, Slide, r, f, dirs, i) == Sweeps(v, c, Slide, r, f, dirs, 0)
    {
      SweepsEnter(v, c, Slide, r, f, dirs, i, moves, Sweeps(v, c, Slide, r, f, dirs, 0));
      var listed := SlideWalk(v, c, r + dirs[i].0, f + dirs[i].1, dirs[i].0, dirs[i].1);
      moves := moves + listed;
    }
  }

  /**
   * The inner loop of the bishop and the rook, from (tr, tf) along (dr, df)
   * until leaving the board: a square of another colour is listed and ends the
   * walk unless it is a token, which falls through and is listed a second time;
   * a square of the walker's own colour ends the walk; an empty square is listed.
   */
  method SlideWalk(v: Cells, c: Color, tr0: int, tf0: int, dr: int, df: int) returns (listed: seq<Coord>)
    requires Fits(v) && IsDirection(dr, df)
    ensures listed == Ray(v, c, Slide, tr0, tf0, dr, df)
  {
    ghost var whole := Ray(v, c, Slide, tr0, tf0, dr, df);
    listed := [];
    var tr, tf := tr0, tf0;
    while InBounds(tr, tf)
      invariant listed + Ray(v, c, Slide, tr, tf, dr, df) == whole
      decreases Room(tr, dr) + Room(tf, df)
    {
      var goOn;
      listed, goOn := SlideStep(v, c, tr, tf, dr, df, listed, whole);
      if !goOn {
        return;
      }
      tr, tf := tr + dr, tf + df;
    }
    RayOff(v, c, Slide, tr, tf, dr, df, listed, whole);
  }

  /**
   * One iteration of the bishop's and rook's inner loop at (tr, tf). goOn is
   * false where the source breaks out of the loop.
   */
  method SlideStep(v: Cells, c: Color, tr: int, tf: int, dr: int, df: int, listed0: seq<Coord>, ghost whole: seq<Coord>)
    returns (listed: seq<Coord>, goOn: bool)
    requires Fits(v) && IsDirection(dr, df) && InBounds(tr, tf)
    requires listed0 + Ray(v, c, Slide, tr, tf, dr, df) == whole
    ensures goOn ==> listed + Ray(v, c, Slide, tr + dr, tf + df, dr, df) == whole
    ensures !goOn ==> listed == whole
  {
    SlideSquare(v, c, tr, tf, dr, df, listed0, whole);
    listed := listed0;
    goOn := true;
    if v[tr][tf].Held? && v[tr][tf].owner != c {
      listed := listed + [(tr, tf)];
      if v[tr][tf].owner != Green {
        goOn := false;
        return;
      }
    } else if v[tr][tf].Held? {
      goOn := false;
      return;
    }
    listed := listed + [(tr, tf)];
  }

  /** Queen.valid_moves: her walks along all eight directions, diagonals first. */
  method QueenValidMoves(v: Cells, p: Piece) returns (moves: seq<Coord>)
    requires Fits(v) && p.kind == Queen
    ensures moves == SlideMoves(v, p)
  {
    moves := QueenScan(v, p.color, p.rank, p.file, AllDirections, p.hasPowerup);
  }

  /** The queen's outer loop: one walk per direction, in order. */
  method QueenScan(v: Cells, c: Color, r: int, f: int, dirs: seq<Coord>, powerup: bool) returns (moves: seq<Coord>)
    requires Fits(v) && AreDirections(dirs)
    ensures moves == Sweeps(v, c, Sweep(powerup), r, f, dirs, 0)
  {
    moves := [];
    for i := 0 to |dirs|
      invariant moves + Sweeps(v, c, Sweep(powerup), r, f, dirs, i) == Sweeps(v, c, Sweep(powerup), r, f, dirs, 0)
    {
      SweepsEnter(v, c, Sweep(powerup), r, f, dirs, i, moves, Sweeps(v, c, Sweep(powerup), r, f, dirs, 0));
      var listed := QueenWalk(v, c, r + dirs[i].0, f + dirs[i].1, dirs[i].0, dirs[i].1, powerup);
      moves := moves + listed;
    }
  }

  /**
   * The queen's inner loop, from (tr, tf) along (dr, df) until leaving the
   * board, one square per iteration (QueenStep).
   */
  method QueenWalk(v: Cells, c: Color, tr0: int, tf0: int, dr: int, df: int, powerup: bool) returns (listed: seq<Coord>)
    requires Fits(v) && IsDirection(dr, df)
    ensures listed == Ray(v, c, Sweep(powerup), tr0, tf0, dr, df)
  {
    ghost var whole := Ray(v, c, Sweep(powerup), tr0, tf0, dr, df);
    listed := [];
    var tr, tf := tr0, tf0;
    while InBounds(tr, tf)
      invariant listed + Ray(v, c, Sweep(powerup), tr, tf, dr, df) == whole
      decreases Room(tr, dr) + Room(tf, df)
    {
      var goOn;
      listed, goOn := QueenStep(v, c, tr, tf, dr, df, powerup, listed, whole);
      if !goOn {
        return;
      }
      tr, tf := tr + dr, tf + df;
    }
    RayOff(v, c, Sweep(powerup), tr, tf, dr, df, listed, whole);
  }

  /**
   * One iteration of the queen's inner loop at (tr, tf): a square of another
   * colour is listed, and the walk goes on past it only if she is powered or
   * it is a token; a square of her own colour is walked past, unlisted, only
   * if she is powered; an empty square is listed and walked past. goOn is
   * false where the source breaks out of the loop.
   */
  method QueenStep(v: Cells, c: Color, tr: int, tf: int, dr: int, df: int, powerup: bool, listed0: seq<Coord>, ghost whole: seq<Coord>)
    returns (listed: seq<Coord>, goOn: bool)
    requires Fits(v) && IsDirection(dr, df) && InBounds(tr, tf)
    requires listed0 + Ray(v, c, Sweep(powerup), tr, tf, dr, df) == whole
    ensures goOn ==> listed + Ray(v, c, Sweep(powerup), tr + dr, tf + df, dr, df) == whole
    ensures !goOn ==> listed == whole
  {
    QueenSquare(v, c, powerup, tr, tf, dr, df, listed0, whole);
    listed := listed0;
    if v[tr][tf].Held? && v[tr][tf].owner != c {
      listed := listed + [(tr, tf)];
      goOn := powerup || v[tr][tf].owner == Green;
    } else if v[tr][tf].Held? {
      goOn := powerup;
    } else {
      listed := listed + [(tr, tf)];
      goOn := true;
    }
  }

  /**
   * King.valid_moves: the nine squares around the king, rank offset outermost
   * (the source's two nested loops over -1, 0, 1 visit KingOffsets in this
   * order). The king also records `check`, read from its own square's attacked
   * flag (ownAttacked), and `checkmate`, set iff it has no move and is in check.
   */
  method KingValidMoves(v: Cells, p: Piece, ownAttacked: bool) returns (moves: seq<Coord>, king: Piece)
    requires Fits(v)
    ensures moves == KingMoves(v, p)
    ensures king == p.(check := ownAttacked, checkmate := |moves| == 0 && ownAttacked)
  {
    king := p.(check := ownAttacked);
    moves := StepScan(v, p.color, p.rank, p.file, KingOffsets, true);
    if |moves| == 0 && king.check {
      king := king.(checkmate := true);
    } else {
      king := king.(checkmate := false);
    }
  }

  /**
   * The loop of a stepping piece over its offset list: an in-bounds square is
   * kept if it is held by another colour, or if it is empty and, for the king
   * (wary), not attacked.
   */
  method StepScan(v: Cells, c: Color, r: int, f: int, offsets: seq<Coord>, wary: bool) returns (moves: seq<Coord>)
    requires Fits(v)
    ensures moves == StepTargets(v, c, r, f, offsets, wary, 0)
  {
    moves := [];
    for i := 0 to |offsets|
      invariant moves + StepTargets(v, c, r, f, offsets, wary, i) == StepTargets(v, c, r, f, offsets, wary, 0)
    {
      var tr, tf := r + offsets[i].0, f + offsets[i].1;
      var before := moves;
      if InBounds(tr, tf) {
        if v[tr][tf].Held? && v[tr][tf].owner != c {
          moves := moves + [(tr, tf)];
        } else if v[tr][tf].Vacant? && !(wary && v[tr][tf].attacked) {
          moves := moves + [(tr, tf)];
        }
      }
      StepTargetsAdvance(v, c, r, f, offsets, wary, i, tr, tf, before, moves, StepTargets(v, c, r, f, offsets, wary, 0));
    }
  }

  /**
   * Piece.valid_moves dispatched on the kind. Only the king changes: it records
   * whether its own square is attacked as `check`, and `checkmate` when it is
   * in check with nowhere to go.
   */
  method ValidMoves(v: Cells, p: Piece, ownAttacked: bool) returns (moves: seq<Coord>, q: Piece)
    requires Fits(v) && InBounds(p.rank, p.file)
    ensures moves == PieceMoves(v, p)
    ensures q == if p.kind == King then p.(check := ownAttacked, checkmate := |moves| == 0 && ownAttacked) else p
  {
    q := p;
    match p.kind
    case King => moves, q := KingValidMoves(v, p, ownAttacked);
    case Queen => moves := QueenValidMoves(v, p);
    case Knight => moves := KnightValidMoves(v, p);
    case Bishop => moves := BishopValidMoves(v, p);
    case Rook => moves := RookValidMoves(v, p);
    case Pawn => moves := PawnMoves(v, p);
    case PowerUp => moves := [];
  }
}
