/** Pseudo-legal move generation: every piece of the side to move walks each
    of its rays until the padding, one of its own pieces, a capture, or (for
    pawns, knights and kings) the first step ends it. No check detection. */
module MoveGen {
  import opened Text
  import opened Constants
  import opened Board

  /** A cell a ray may pass over: on the board, not a piece of either side. */
  predicate Passable(c: char) {
    !IsSpace(c) && !IsUpper(c) && !IsLower(c)
  }

  /** The pieces a pawn may become, in the order they are generated. */
  const Promotions := "NBRQ"

  /** The four moves of a pawn reaching the last rank, one per promotion piece. */
  function PromotionMoves(i: int, j: int): seq<Move> {
    [Move(i, j, [Promotions[0]]), Move(i, j, [Promotions[1]]),
     Move(i, j, [Promotions[2]]), Move(i, j, [Promotions[3]])]
  }

  /** The castling moves found when the ray of the piece on i reaches cell j:
      the piece on a rook corner has reached the king's neighbour cell and the
      matching castling right is still held. */
  function Castles(pos: Position, i: int, j: int): seq<Move>
    requires |pos.board| == 120 && 1 <= j < 119
  {
    (if i == A1 && pos.board[j + E] == 'K' && pos.wc.0 then [Move(j + E, j + W, "")] else [])
    + (if i == H1 && pos.board[j + W] == 'K' && pos.wc.1 then [Move(j + W, j + E, "")] else [])
  }

  /** The distance still to go before a ray in direction d leaves the buffer. */
  function RayRoom(j: int, d: int): nat
    requires 0 <= j < 120
  {
    if d > 0 then 120 - j else j
  }

  /** The moves of the piece on i along direction d, starting at cell j. */
  function Ray(pos: Position, i: int, d: int, j: int): seq<Move>
    requires Wellformed(pos) && 0 <= i < 120 && IsUpper(pos.board[i])
    requires d in Directions(pos.board[i]) && 0 <= j < 120
    decreases RayRoom(j, d)
  {
    var p, q := pos.board[i], pos.board[j];
    if IsSpace(q) || IsUpper(q) then []
    else if p == 'P' && (d == N || d == N + N) && q != '.' then []
    else if p == 'P' && d == N + N && (i < A1 + N || pos.board[i + N] != '.') then []
    else if p == 'P' && (d == N + W || d == N + E) && q == '.'
         && j !in {pos.ep, pos.kp, pos.kp - 1, pos.kp + 1} then []
    else if p == 'P' && A8 <= j <= H8 then PromotionMoves(i, j)
    else if IsCrawler(p) || IsLower(q) then [Move(i, j, "")]
    else
      DirectionBounds(p, d);
      OnSquare(pos, j);
      [Move(i, j, "")] + Castles(pos, i, j) + Ray(pos, i, d, j + d)
  }

  /** The moves of the piece on i along its first k directions. */
  function DirMoves(pos: Position, i: int, k: nat): seq<Move>
    requires Wellformed(pos) && 0 <= i < 120 && IsUpper(pos.board[i])
    requires k <= |Directions(pos.board[i])|
  {
    if k == 0 then []
    else
      var d := Directions(pos.board[i])[k - 1];
      DirectionBounds(pos.board[i], d);
      OnSquare(pos, i);
      DirMoves(pos, i, k - 1) + Ray(pos, i, d, i + d)
  }

  /** The moves of the pieces on cells 0 .. n-1. */
  function BoardMoves(pos: Position, n: nat): seq<Move>
    requires Wellformed(pos) && n <= 120
  {
    if n == 0 then []
    else if IsUpper(pos.board[n - 1]) then
      BoardMoves(pos, n - 1) + DirMoves(pos, n - 1, |Directions(pos.board[n - 1])|)
    else BoardMoves(pos, n - 1)
  }

  /** All pseudo-legal moves, in generation order. */
  function Moves(pos: Position): seq<Move>
    requires Wellformed(pos)
  {
    BoardMoves(pos, 120)
  }

  /** The cell t steps along direction d from a. */
  function Step(a: int, d: int, t: nat): int {
    if t == 0 then a else Step(a, d, t - 1) + d
  }

  /** The first t cells along direction d from a are on the board and passable. */
  predicate Clear(b: string, a: int, d: int, t: nat) {
    t == 0 || (0 <= Step(a, d, t) < |b| && Passable(b[Step(a, d, t)]) && Clear(b, a, d, t - 1))
  }

  /** j lies on a ray of the piece on a, past passable cells only; a pawn,
      knight or king takes exactly one step. */
  ghost predicate OnRay(b: string, a: int, j: int)
    requires 0 <= a < |b| && IsPiece(b[a])
  {
    exists d, t: nat :: d in Directions(b[a]) && j == Step(a, d, t + 1) && Clear(b, a, d, t)
                        && (IsCrawler(b[a]) ==> t == 0)
  }

  /** The pawn rules: a push only onto an empty cell, a double push only from
      row 8 or below with the cell in between empty, and a diagonal step onto
      an empty cell only onto ep or next to kp. */
  predicate PawnRules(pos: Position, m: Move)
    requires 0 <= m.i < |pos.board| && 0 <= m.j < |pos.board|
  {
    pos.board[m.i] == 'P' ==>
      && (m.j == m.i + N ==> pos.board[m.j] == '.')
      && (m.j == m.i + N + N ==>
            pos.board[m.j] == '.' && m.i >= A1 + N && pos.board[m.i + N] == '.')
      && ((m.j == m.i + N + W || m.j == m.i + N + E) && pos.board[m.j] == '.' ==>
            m.j in {pos.ep, pos.kp - 1, pos.kp, pos.kp + 1})
  }

  /** Every move but castling: a piece of the mover walks one of its rays onto a
      cell that is neither padding nor its own piece; a pawn obeys the pawn
      rules, and carries a promotion piece exactly when it reaches the last rank. */
  ghost predicate Ordinary(pos: Position, m: Move) {
    && 0 <= m.i < |pos.board| && 0 <= m.j < |pos.board|
    && IsUpper(pos.board[m.i]) && IsPiece(pos.board[m.i])
    && !IsSpace(pos.board[m.j]) && !IsUpper(pos.board[m.j])
    && OnRay(pos.board, m.i, m.j)
    && PawnRules(pos, m)
    && if pos.board[m.i] == 'P' && A8 <= m.j <= H8
       then |m.prom| == 1 && m.prom[0] in Promotions
       else m.prom == ""
  }

  /** The cell c is reached from the sliding piece on corner a along one of its
      rays, over passable cells, c itself passable. */
  ghost predicate CornerRayReaches(b: string, a: int, c: int)
    requires 0 <= a < |b|
  {
    && IsSlider(b[a]) && IsPiece(b[a])
    && 0 <= c < |b| && Passable(b[c])
    && exists d, t: nat :: d in Directions(b[a]) && c == Step(a, d, t + 1) && Clear(b, a, d, t)
  }

  /** A castling move: the king steps two cells towards a rook corner whose ray
      reached the cell next to it, and the matching castling right is held. */
  ghost predicate Castling(pos: Position, m: Move) {
    && |pos.board| == 120 && m.prom == "" && 0 <= m.i < 120 && pos.board[m.i] == 'K'
    && ((m.j == m.i - 2 && pos.wc.0 && CornerRayReaches(pos.board, A1, m.i - 1))
     || (m.j == m.i + 2 && pos.wc.1 && CornerRayReaches(pos.board, H1, m.i + 1)))
  }

  ghost predicate SoundMoves(pos: Position, ms: seq<Move>) {
    forall m :: m in ms ==> Ordinary(pos, m) || Castling(pos, m)
  }

  /** The conditions under which the ray of the piece on i, having reached
      cell j, yields a move there: j is not padding and not the mover's own
      piece, and no pawn rule stops the pawn. */
  predicate Yields(pos: Position, i: int, d: int, j: int)
    requires |pos.board| == 120 && 0 <= i < 120 && 0 <= j < 120
  {
    var p, q := pos.board[i], pos.board[j];
    && !IsSpace(q) && !IsUpper(q)
    && !(p == 'P' && (d == N || d == N + N) && q != '.')
    && !(p == 'P' && d == N + N && (i < A1 + N || (0 <= i + N && pos.board[i + N] != '.')))
    && !(p == 'P' && (d == N + W || d == N + E) && q == '.'
         && j !in {pos.ep, pos.kp, pos.kp - 1, pos.kp + 1})
  }

  /** A move yielded at cell j of a ray is ordinary. */
  lemma YieldOrdinary(pos: Position, i: int, d: int, j: int, t: nat, m: Move)
    requires Wellformed(pos) && 0 <= i < 120 && IsUpper(pos.board[i])
    requires d in Directions(pos.board[i]) && 0 <= j < 120
    requires j == Step(i, d, t + 1) && Clear(pos.board, i, d, t)
    requires IsCrawler(pos.board[i]) ==> t == 0
    requires Yields(pos, i, d, j) && m.i == i && m.j == j
    requires if pos.board[i] == 'P' && A8 <= j <= H8
             then |m.prom| == 1 && m.prom[0] in Promotions
             else m.prom == ""
    ensures Ordinary(pos, m)
  {
    DirectionBounds(pos.board[i], d);
    OnSquare(pos, i);
    if !IsSpace(pos.board[j]) { OnSquare(pos, j); }
    assert OnRay(pos.board, i, j);
  }

  /** A castling move found at cell j of a corner piece's ray is castling. */
  lemma CastlesSound(pos: Position, i: int, d: int, j: int, t: nat)
    requires Wellformed(pos) && 0 <= i < 120 && IsSlider(pos.board[i])
    requires d in Directions(pos.board[i]) && 0 <= j < 120
    requires j == Step(i, d, t + 1) && Clear(pos.board, i, d, t) && Passable(pos.board[j])
    ensures Interior(j)
    ensures SoundMoves(pos, Castles(pos, i, j))
  {
    var b := pos.board;
    OnSquare(pos, j);
    forall m | m in Castles(pos, i, j) ensures Castling(pos, m) {
      if i == A1 && m == Move(j + E, j + W, "") {
        assert CornerRayReaches(b, A1, m.i - 1);
      } else {
        assert CornerRayReaches(b, H1, m.i + 1);
      }
    }
  }

  /** Joining two sound lists gives a sound list. */
  lemma SoundAppend(pos: Position, a: seq<Move>, b: seq<Move>)
    ensures SoundMoves(pos, a) && SoundMoves(pos, b) ==> SoundMoves(pos, a + b)
  {
  }

  /** A sliding ray that yields a move on an empty cell goes on: the next cell
      is on the buffer, closer to its edge, and reached over clear cells. */
  lemma RayStep(pos: Position, i: int, d: int, j: int, t: nat)
    requires Wellformed(pos) && 0 <= i < 120 && IsUpper(pos.board[i])
    requires d in Directions(pos.board[i]) && 0 <= j < 120
    requires j == Step(i, d, t + 1) && Clear(pos.board, i, d, t)
    requires Yields(pos, i, d, j) && !IsCrawler(pos.board[i]) && !IsLower(pos.board[j])
    ensures 0 <= j + d < 120 && RayRoom(j + d, d) < RayRoom(j, d)
    ensures j + d == Step(i, d, t + 2) && Clear(pos.board, i, d, t + 1)
  {
    RayUnfold(pos, i, d, j);
    DirectionBounds(pos.board[i], d);
  }

  /** The moves a ray yields at cell j are ordinary or castling, and so is the
      whole ray from j on when the rest of it from j + d is. */
  lemma RayCellSound(pos: Position, i: int, d: int, j: int, t: nat)
    requires Wellformed(pos) && 0 <= i < 120 && IsUpper(pos.board[i])
    requires d in Directions(pos.board[i]) && 0 <= j < 120
    requires j == Step(i, d, t + 1) && Clear(pos.board, i, d, t)
    requires IsCrawler(pos.board[i]) ==> t == 0
    requires Yields(pos, i, d, j) && !IsCrawler(pos.board[i]) && !IsLower(pos.board[j]) ==>
               0 <= j + d < 120 && SoundMoves(pos, Ray(pos, i, d, j + d))
    ensures SoundMoves(pos, Ray(pos, i, d, j))
  {
    var p, q := pos.board[i], pos.board[j];
    RayUnfold(pos, i, d, j);
    if !Yields(pos, i, d, j) {
    } else if p == 'P' && A8 <= j <= H8 {
      forall m | m in PromotionMoves(i, j) ensures Ordinary(pos, m) {
        YieldOrdinary(pos, i, d, j, t, m);
      }
    } else {
      var here := Move(i, j, "");
      YieldOrdinary(pos, i, d, j, t, here);
      if !IsCrawler(p) && !IsLower(q) {
        CastlesSound(pos, i, d, j, t);
        SoundAppend(pos, [here], Castles(pos, i, j));
        SoundAppend(pos, [here] + Castles(pos, i, j), Ray(pos, i, d, j + d));
      }
    }
  }

  /** Every move of a ray is ordinary or castling. */
  lemma {:induction false} RaySound(pos: Position, i: int, d: int, j: int, t: nat)
    requires Wellformed(pos) && 0 <= i < 120 && IsUpper(pos.board[i])
    requires d in Directions(pos.board[i]) && 0 <= j < 120
    requires j == Step(i, d, t + 1) && Clear(pos.board, i, d, t)
    requires IsCrawler(pos.board[i]) ==> t == 0
    ensures SoundMoves(pos, Ray(pos, i, d, j))
    decreases RayRoom(j, d)
  {
    if Yields(pos, i, d, j) && !IsCrawler(pos.board[i]) && !IsLower(pos.board[j]) {
      RayStep(pos, i, d, j, t);
      RaySound(pos, i, d, j + d, t + 1);
    }
    RayCellSound(pos, i, d, j, t);
  }

  lemma {:induction false} DirMovesSound(pos: Position, i: int, k: nat)
    requires Wellformed(pos) && 0 <= i < 120 && IsUpper(pos.board[i])
    requires k <= |Directions(pos.board[i])|
    ensures SoundMoves(pos, DirMoves(pos, i, k))
  {
    if k > 0 {
      var p := pos.board[i];
      var d := Directions(p)[k - 1];
      DirectionBounds(p, d);
      OnSquare(pos, i);
      var prev, ray := DirMoves(pos, i, k - 1), Ray(pos, i, d, i + d);
      assert DirMoves(pos, i, k) == prev + ray;
      DirMovesSound(pos, i, k - 1);
      RaySound(pos, i, d, i + d, 0);
      SoundAppend(pos, prev, ray);
    }
  }

  lemma {:induction false} BoardMovesSound(pos: Position, n: nat)
    requires Wellformed(pos) && n <= 120
    ensures SoundMoves(pos, BoardMoves(pos, n))
  {
    if n > 0 {
      BoardMovesSound(pos, n - 1);
      if IsUpper(pos.board[n - 1]) {
        var prev, piece := BoardMoves(pos, n - 1), DirMoves(pos, n - 1, |Directions(pos.board[n - 1])|);
        DirMovesSound(pos, n - 1, |Directions(pos.board[n - 1])|);
        SoundAppend(pos, prev, piece);
      }
    }
  }

  /** Every generated move is ordinary or castling: it starts on a piece of the
      mover, ends neither on the padding nor on the mover's own piece, follows
      the pawn rules, promotes exactly on the last rank; a castling move needs
      the castling right and a clear rook ray up to the king. */
  lemma MovesSound(pos: Position)
    requires Wellformed(pos)
    ensures SoundMoves(pos, Moves(pos))
  {
    BoardMovesSound(pos, 120);
  }

  /** Every generated move can be played. */
  lemma MovesPlayable(pos: Position)
    requires Wellformed(pos)
    ensures forall m :: m in Moves(pos) ==> Playable(pos, m)
  {
    MovesSound(pos);
    forall m | m in Moves(pos) ensures Playable(pos, m) {
      if Ordinary(pos, m) {
        OnSquare(pos, m.j);
      } else {
        OnSquare(pos, m.i);
      }
    }
  }

  /** A ray that passes clear cells goes on: everything it yields from the
      cell t + 1 steps out, it yields from its first cell on. */
  lemma {:induction false} RayReaches(pos: Position, i: int, d: int, t: nat, j: int)
    requires Wellformed(pos) && 0 <= i < 120 && IsUpper(pos.board[i])
    requires d in Directions(pos.board[i]) && 0 <= i + d < 120
    requires Clear(pos.board, i, d, t) && j == Step(i, d, t + 1) && 0 <= j < 120
    requires IsCrawler(pos.board[i]) ==> t == 0
    ensures forall m :: m in Ray(pos, i, d, j) ==> m in Ray(pos, i, d, i + d)
  {
    if t == 0 {
      assert Step(i, d, 1) == Step(i, d, 0) + d == i + d;
    } else {
      var c := Step(i, d, t);
      RayReaches(pos, i, d, t - 1, c);
      assert j == c + d;
      RayUnfold(pos, i, d, c);
      assert Yields(pos, i, d, c);
      var rest := Ray(pos, i, d, c + d);
      assert Ray(pos, i, d, c) == [Move(i, c, "")] + Castles(pos, i, c) + rest;
      forall m | m in Ray(pos, i, d, j) ensures m in Ray(pos, i, d, c) {
        assert m in rest;
      }
    }
  }

  /** An ordinary move is yielded by its own ray at its destination. */
  lemma OrdinaryInRay(pos: Position, m: Move, d: int, t: nat)
    requires Wellformed(pos) && Ordinary(pos, m)
    requires d in Directions(pos.board[m.i]) && m.j == Step(m.i, d, t + 1)
    requires Clear(pos.board, m.i, d, t) && (IsCrawler(pos.board[m.i]) ==> t == 0)
    ensures m in Ray(pos, m.i, d, m.j)
  {
    var i, j, p := m.i, m.j, pos.board[m.i];
    if p == 'P' {
      assert Step(i, d, 1) == Step(i, d, 0) + d == i + d;
    }
    assert Yields(pos, i, d, j);
    RayUnfold(pos, i, d, j);
    if p == 'P' && A8 <= j <= H8 {
      assert m.prom == [m.prom[0]];
      assert m.prom[0] == Promotions[0] || m.prom[0] == Promotions[1]
          || m.prom[0] == Promotions[2] || m.prom[0] == Promotions[3];
    } else {
      assert m == Move(i, j, "");
    }
  }

  /** A castling move is yielded by the ray of its rook corner at the cell
      next to the king. */
  lemma CastlingInRay(pos: Position, m: Move, d: int, t: nat)
    requires Wellformed(pos) && Castling(pos, m)
    requires d in Directions(pos.board[Corner(m)])
    requires m.i + (if m.j < m.i then W else E) == Step(Corner(m), d, t + 1)
    ensures IsUpper(pos.board[Corner(m)]) && 0 <= m.i + (if m.j < m.i then W else E) < 120
    ensures m in Ray(pos, Corner(m), d, m.i + (if m.j < m.i then W else E))
  {
    var a, c := Corner(m), m.i + (if m.j < m.i then W else E);
    assert IsSlider(pos.board[a]) && Passable(pos.board[c]);
    RayUnfold(pos, a, d, c);
    assert Yields(pos, a, d, c);
    assert Castles(pos, a, c) == [m];
  }

  /** A piece's moves along its first k directions contain each of those rays. */
  lemma {:induction false} DirMovesHas(pos: Position, i: int, k: nat, d: int)
    requires Wellformed(pos) && 0 <= i < 120 && IsUpper(pos.board[i])
    requires k <= |Directions(pos.board[i])| && d in Directions(pos.board[i])[..k]
    ensures 0 <= i + d < 120
    ensures forall m :: m in Ray(pos, i, d, i + d) ==> m in DirMoves(pos, i, k)
  {
    var ds := Directions(pos.board[i]);
    OnSquare(pos, i);
    StepStaysOnBuffer(i, pos.board[i], d);
    if ds[k - 1] != d {
      assert d in ds[..k - 1] by {
        var l :| 0 <= l < k && ds[..k][l] == d;
        assert ds[..k - 1][l] == d;
      }
      DirMovesHas(pos, i, k - 1, d);
    }
  }

  /** The moves of the pieces on the first n cells contain every move of each
      of those pieces. */
  lemma {:induction false} BoardMovesHas(pos: Position, n: nat, i: int)
    requires Wellformed(pos) && 0 <= i < n <= 120 && IsUpper(pos.board[i])
    ensures forall m :: m in DirMoves(pos, i, |Directions(pos.board[i])|) ==> m in BoardMoves(pos, n)
  {
    if i < n - 1 {
      BoardMovesHas(pos, n - 1, i);
    }
  }

  /** Whatever a piece's ray yields from any cell it reaches over clear
      cells is generated. */
  lemma RayGenerated(pos: Position, i: int, d: int, t: nat, j: int)
    requires Wellformed(pos) && 0 <= i < 120 && IsUpper(pos.board[i])
    requires d in Directions(pos.board[i])
    requires Clear(pos.board, i, d, t) && j == Step(i, d, t + 1) && 0 <= j < 120
    requires IsCrawler(pos.board[i]) ==> t == 0
    ensures forall m :: m in Ray(pos, i, d, j) ==> m in Moves(pos)
  {
    var ds := Directions(pos.board[i]);
    assert ds[..|ds|] == ds;
    DirMovesHas(pos, i, |ds|, d);
    RayReaches(pos, i, d, t, j);
    BoardMovesHas(pos, 120, i);
  }

  /** Every ordinary or castling move is generated. */
  lemma MovesComplete(pos: Position, m: Move)
    requires Wellformed(pos) && (Ordinary(pos, m) || Castling(pos, m))
    ensures m in Moves(pos)
  {
    var b := pos.board;
    if Ordinary(pos, m) {
      var d, t: nat :| d in Directions(b[m.i]) && m.j == Step(m.i, d, t + 1)
                       && Clear(b, m.i, d, t) && (IsCrawler(b[m.i]) ==> t == 0);
      OrdinaryInRay(pos, m, d, t);
      RayGenerated(pos, m.i, d, t, m.j);
    } else {
      var a, c := Corner(m), m.i + (if m.j < m.i then W else E);
      assert CornerRayReaches(b, a, c);
      var d, t: nat :| d in Directions(b[a]) && c == Step(a, d, t + 1) && Clear(b, a, d, t);
      CastlingInRay(pos, m, d, t);
      RayGenerated(pos, a, d, t, c);
    }
  }

  /** The generated moves are exactly the ordinary and the castling moves. */
  lemma MovesExactly(pos: Position)
    requires Wellformed(pos)
    ensures forall m :: m in Moves(pos) <==> Ordinary(pos, m) || Castling(pos, m)
  {
    MovesSound(pos);
    forall m | Ordinary(pos, m) || Castling(pos, m) ensures m in Moves(pos) {
      MovesComplete(pos, m);
    }
  }

  /** The cell behind a pawn's destination is a square: the pawn's origin,
      the cell its double step skipped, or the cell beside its origin. */
  lemma PawnBehind(i: int, d: int)
    requires Interior(i) && Interior(i + d) && d in Directions('P')
    ensures Interior(i + d + S)
  {
    var r, c := i / 10, i % 10;
    assert i == 10 * r + c;
    if d == N + N {
      assert (i + d) / 10 == r - 2 && (i + d + S) / 10 == r - 1 && (i + d + S) % 10 == c;
    } else if d == N + W {
      assert (i + d) % 10 == c - 1 && (i + d + S) / 10 == r && (i + d + S) % 10 == c - 1;
    } else if d == N + E {
      assert (i + d) % 10 == c + 1 && (i + d + S) / 10 == r && (i + d + S) % 10 == c + 1;
    }
  }

  /** While the mover holds a castling right, every king of the mover stands
      on its first rank between the rook corners: what a game starting from
      the initial position keeps, since moving the king loses both rights. */
  predicate KingHome(pos: Position)
    requires |pos.board| == 120
  {
    (pos.wc.0 || pos.wc.1) ==> forall k :: 0 <= k < 120 && pos.board[k] == 'K' ==> A1 < k < H1
  }

  /** An ordinary move runs between squares, promotes to a piece, and takes
      en passant only from a square behind its destination. */
  lemma OrdinaryOnBoard(pos: Position, m: Move)
    requires Wellformed(pos) && Ordinary(pos, m)
    ensures Interior(m.i) && Interior(m.j)
    ensures pos.board[m.i] == 'P' && A8 <= m.j <= H8 ==> IsPiece(m.prom[0])
    ensures pos.board[m.i] == 'P' && m.j == pos.ep ==> Interior(m.j + S)
  {
    OnSquare(pos, m.i);
    OnSquare(pos, m.j);
    if pos.board[m.i] == 'P' {
      var d, t: nat :| d in Directions('P') && m.j == Step(m.i, d, t + 1)
                       && Clear(pos.board, m.i, d, t) && t == 0;
      assert Step(m.i, d, 1) == Step(m.i, d, 0) + d == m.i + d;
      PawnBehind(m.i, d);
    }
  }

  /** A castling move by a king at home runs between squares of the first rank. */
  lemma CastlingOnBoard(pos: Position, m: Move)
    requires Wellformed(pos) && KingHome(pos) && Castling(pos, m)
    ensures Interior(m.i) && Interior(m.j)
  {
    var c := if m.j < m.i then m.i - 1 else m.i + 1;
    assert A1 < m.i < H1 && Passable(pos.board[c]);
    assert A1 < c < H1;
  }

  /** Every generated move can be played, and playing it keeps a valid
      position valid, as long as the castling rights are held only with the
      king at home. */
  lemma GeneratedMoveValid(pst: (char, int) -> int, pos: Position, m: Move)
    requires Valid(pos) && KingHome(pos) && m in Moves(pos)
    ensures Playable(pos, m) && Valid(MakeMove(pst, pos, m))
  {
    MovesSound(pos);
    MovesPlayable(pos);
    if Ordinary(pos, m) {
      OrdinaryOnBoard(pos, m);
    } else {
      CastlingOnBoard(pos, m);
    }
    MakeMoveValid(pst, pos, m);
  }

  /** A promotion found anywhere is found with all four promotion pieces. */
  predicate PromotionsClosed(ms: seq<Move>) {
    forall m :: m in ms && m.prom != "" ==>
      forall c :: c in Promotions ==> Move(m.i, m.j, [c]) in ms
  }

  /** Joining two lists closed under promotion gives a closed list. */
  lemma ClosedAppend(a: seq<Move>, b: seq<Move>)
    ensures PromotionsClosed(a) && PromotionsClosed(b) ==> PromotionsClosed(a + b)
  {
    if PromotionsClosed(a) && PromotionsClosed(b) {
      forall m, c | m in a + b && m.prom != "" && c in Promotions
        ensures Move(m.i, m.j, [c]) in a + b
      {
        if m in a {
          assert Move(m.i, m.j, [c]) in a;
        } else {
          assert Move(m.i, m.j, [c]) in b;
        }
      }
    }
  }

  lemma {:induction false} RayPromotions(pos: Position, i: int, d: int, j: int)
    requires Wellformed(pos) && 0 <= i < 120 && IsUpper(pos.board[i])
    requires d in Directions(pos.board[i]) && 0 <= j < 120
    ensures PromotionsClosed(Ray(pos, i, d, j))
    decreases RayRoom(j, d)
  {
    var p, q := pos.board[i], pos.board[j];
    RayUnfold(pos, i, d, j);
    if !Yields(pos, i, d, j) {
    } else if p == 'P' && A8 <= j <= H8 {
      var ms := PromotionMoves(i, j);
      forall m, c | m in ms && c in Promotions ensures Move(m.i, m.j, [c]) in ms {
        var k :| 0 <= k < 4 && c == Promotions[k];
        assert Move(m.i, m.j, [c]) == ms[k];
      }
    } else if !IsCrawler(p) && !IsLower(q) {
      RayPromotions(pos, i, d, j + d);
      ClosedAppend([Move(i, j, "")] + Castles(pos, i, j), Ray(pos, i, d, j + d));
    }
  }

  lemma {:induction false} DirPromotions(pos: Position, i: int, k: nat)
    requires Wellformed(pos) && 0 <= i < 120 && IsUpper(pos.board[i])
    requires k <= |Directions(pos.board[i])|
    ensures PromotionsClosed(DirMoves(pos, i, k))
  {
    if k > 0 {
      var p := pos.board[i];
      var d := Directions(p)[k - 1];
      DirectionBounds(p, d);
      OnSquare(pos, i);
      var prev, ray := DirMoves(pos, i, k - 1), Ray(pos, i, d, i + d);
      assert DirMoves(pos, i, k) == prev + ray;
      DirPromotions(pos, i, k - 1);
      RayPromotions(pos, i, d, i + d);
      ClosedAppend(prev, ray);
    }
  }

  lemma {:induction false} BoardPromotions(pos: Position, n: nat)
    requires Wellformed(pos) && n <= 120
    ensures PromotionsClosed(BoardMoves(pos, n))
  {
    if n > 0 {
      BoardPromotions(pos, n - 1);
      if IsUpper(pos.board[n - 1]) {
        DirPromotions(pos, n - 1, |Directions(pos.board[n - 1])|);
        ClosedAppend(BoardMoves(pos, n - 1), DirMoves(pos, n - 1, |Directions(pos.board[n - 1])|));
      }
    }
  }

  /** A pawn reaching the last rank is generated with each of N, B, R and Q. */
  lemma PromotionsComplete(pos: Position)
    requires Wellformed(pos)
    ensures PromotionsClosed(Moves(pos))
  {
    BoardPromotions(pos, 120);
  }

  method Promote(i: int, j: int) returns (ms: seq<Move>)
    ensures ms == PromotionMoves(i, j)
  {
    ms := [];
    var c := 0;
    while c < |Promotions|
      invariant 0 <= c <= |Promotions|
      invariant ms == PromotionMoves(i, j)[..c]
    {
      ms := ms + [Move(i, j, [Promotions[c]])];
      c := c + 1;
    }
  }

  lemma AppendAssoc(a: seq<Move>, b: seq<Move>, c: seq<Move>)
    ensures a + (b + c) == a + b + c
  {
  }

  /** One step of a ray, stated through Yields. */
  lemma RayUnfold(pos: Position, i: int, d: int, j: int)
    requires Wellformed(pos) && 0 <= i < 120 && IsUpper(pos.board[i])
    requires d in Directions(pos.board[i]) && 0 <= j < 120
    ensures !Yields(pos, i, d, j) ==> Ray(pos, i, d, j) == []
    ensures Yields(pos, i, d, j) && pos.board[i] == 'P' && A8 <= j <= H8 ==>
              Ray(pos, i, d, j) == PromotionMoves(i, j)
    ensures Yields(pos, i, d, j) && !(pos.board[i] == 'P' && A8 <= j <= H8)
            && (IsCrawler(pos.board[i]) || IsLower(pos.board[j])) ==>
              Ray(pos, i, d, j) == [Move(i, j, "")]
    ensures Yields(pos, i, d, j) && !IsCrawler(pos.board[i]) && !IsLower(pos.board[j]) ==>
              IsSlider(pos.board[i]) && 1 <= j < 119 && 0 <= j + d < 120 &&
              Ray(pos, i, d, j) == [Move(i, j, "")] + Castles(pos, i, j) + Ray(pos, i, d, j + d)
  {
    DirectionBounds(pos.board[i], d);
    OnSquare(pos, i);
    if !IsSpace(pos.board[j]) { OnSquare(pos, j); }
  }

  /** What the ray of the piece on i finds at cell j: the moves it yields
      there, and whether the walk goes on to j + d. */
  method ScanCell(pos: Position, i: int, d: int, j: int) returns (found: seq<Move>, go: bool)
    requires Wellformed(pos) && 0 <= i < 120 && IsUpper(pos.board[i])
    requires d in Directions(pos.board[i]) && 0 <= j < 120
    ensures go ==> 0 <= j + d < 120 && Ray(pos, i, d, j) == found + Ray(pos, i, d, j + d)
    ensures !go ==> Ray(pos, i, d, j) == found
  {
    var p, q := pos.board[i], pos.board[j];
    RayUnfold(pos, i, d, j);
    found, go := [], false;
    if IsSpace(q) || IsUpper(q) {
      return;
    }
    if p == 'P' {
      if (d == N || d == N + N) && q != '.' {
        return;
      }
      if d == N + N && (i < A1 + N || pos.board[i + N] != '.') {
        return;
      }
      if (d == N + W || d == N + E) && q == '.'
         && j !in {pos.ep, pos.kp, pos.kp - 1, pos.kp + 1} {
        return;
      }
      if A8 <= j <= H8 {
        found := Promote(i, j);
        return;
      }
    }
    found := [Move(i, j, "")];
    if p == 'P' || p == 'N' || p == 'K' || IsLower(q) {
      return;
    }
    ghost var west: seq<Move>, east: seq<Move> := [], [];
    if i == A1 && pos.board[j + E] == 'K' && pos.wc.0 {
      found := found + [Move(j + E, j + W, "")];
      west := [Move(j + E, j + W, "")];
    }
    assert found == [Move(i, j, "")] + west;
    if i == H1 && pos.board[j + W] == 'K' && pos.wc.1 {
      found := found + [Move(j + W, j + E, "")];
      east := [Move(j + W, j + E, "")];
    }
    assert found == [Move(i, j, "")] + west + east;
    AppendAssoc([Move(i, j, "")], west, east);
    assert Castles(pos, i, j) == west + east;
    go := true;
  }

  /** The walk along one ray: cell after cell until a cell ends it. */
  method WalkRay(pos: Position, i: int, d: int) returns (ray: seq<Move>)
    requires Wellformed(pos) && 0 <= i < 120 && IsUpper(pos.board[i])
    requires d in Directions(pos.board[i])
    ensures 0 <= i + d < 120 && ray == Ray(pos, i, d, i + d)
  {
    DirectionBounds(pos.board[i], d);
    OnSquare(pos, i);
    ray := [];
    var j := i + d;
    while true
      invariant 0 <= j < 120
      invariant ray + Ray(pos, i, d, j) == Ray(pos, i, d, i + d)
      decreases RayRoom(j, d)
    {
      var found, go := ScanCell(pos, i, d, j);
      if !go {
        ray := ray + found;
        break;
      }
      AppendAssoc(ray, found, Ray(pos, i, d, j + d));
      ray := ray + found;
      j := j + d;
    }
  }

  /** Move generation: every piece of the mover, every one of its rays, in
      board order. The result is Moves, and so every move in it is ordinary or
      castling. */
  method GenMoves(pos: Position) returns (moves: seq<Move>)
    requires Wellformed(pos)
    ensures moves == Moves(pos)
    ensures forall m :: m in moves <==> Ordinary(pos, m) || Castling(pos, m)
  {
    moves := [];
    var i := 0;
    while i < |pos.board|
      invariant 0 <= i <= |pos.board|
      invariant moves == BoardMoves(pos, i)
    {
      var p := pos.board[i];
      if IsUpper(p) {
        var dirs := Directions(p);
        var k := 0;
        while k < |dirs|
          invariant 0 <= k <= |dirs|
          invariant moves == BoardMoves(pos, i) + DirMoves(pos, i, k)
        {
          var ray := WalkRay(pos, i, dirs[k]);
          AppendAssoc(BoardMoves(pos, i), DirMoves(pos, i, k), ray);
          moves := moves + ray;
          k := k + 1;
        }
      }
      i := i + 1;
    }
    MovesExactly(pos);
  }
}
