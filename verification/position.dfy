/** A chess position always seen from the side to move: its pieces are upper
    case, the opponent's lower case. Rotating the board hands the move to the
    other side; playing a move returns the already rotated successor. */
module Board {
  import opened Text
  import opened Constants

  /** A move from square i to square j; prom is "" or the letter of the piece
      a pawn becomes on the last rank. */
  datatype Move = Move(i: int, j: int, prom: string)

  /** board: the 120-cell padded board; score: the evaluation for the side to
      move; wc, bc: the castling rights (west rook, east rook) of the mover and
      of the opponent; ep: the square a pawn skipped with its double step;
      kp: the square the rook crossed with the king when castling. 0 stands for
      "no square" in ep and kp. */
  datatype Position = Position(board: string, score: int, wc: (bool, bool), bc: (bool, bool), ep: int, kp: int)

  function Abs(x: int): nat {
    if x < 0 then -x else x
  }

  /** What move generation relies on: 120 cells, whitespace padding around the
      64 squares, and a ray table for every upper-case letter. */
  predicate Wellformed(pos: Position) {
    && |pos.board| == 120
    && (forall k {:trigger Interior(k)} :: 0 <= k < 120 && !Interior(k) ==> IsSpace(pos.board[k]))
    && (forall k {:trigger IsUpper(pos.board[k])} :: 0 <= k < 120 && IsUpper(pos.board[k]) ==> IsPiece(pos.board[k]))
  }

  /** A cell of a well-formed board that is not whitespace is one of the 64 squares. */
  lemma OnSquare(pos: Position, k: int)
    requires Wellformed(pos) && 0 <= k < 120 && !IsSpace(pos.board[k])
    ensures Interior(k)
  {
  }

  /** A well-formed position in which the opponent's letters are pieces too. */
  predicate Valid(pos: Position) {
    && Wellformed(pos)
    && (forall k :: 0 <= k < 120 && IsLower(pos.board[k]) ==> IsPiece(ToUpper(pos.board[k])))
  }

  /** The starting position: White to move, score 0, all castling rights. */
  const InitialPosition := Position(Initial, 0, (true, true), (true, true), 0, 0)

  lemma InitialValid()
    ensures Valid(InitialPosition)
  {
    InitialLayout();
  }

  /** The same position from the opponent's side: the board read backwards with
      every letter changing case, the score negated, the castling rights
      exchanged, ep and kp mirrored through 119 - x, or dropped when the
      rotation is a null move (a passed turn). */
  function Rotate(pos: Position, nullmove: bool): (r: Position)
    ensures |r.board| == |pos.board|
    ensures forall k :: 0 <= k < |pos.board| ==> r.board[k] == SwapCase(pos.board[|pos.board| - 1 - k])
    ensures r.score == -pos.score && r.wc == pos.bc && r.bc == pos.wc
    ensures r.ep == (if pos.ep == 0 || nullmove then 0 else 119 - pos.ep)
    ensures r.kp == (if pos.kp == 0 || nullmove then 0 else 119 - pos.kp)
  {
    Position(SwapCaseAll(Reverse(pos.board)), -pos.score, pos.bc, pos.wc,
      if pos.ep != 0 && !nullmove then 119 - pos.ep else 0,
      if pos.kp != 0 && !nullmove then 119 - pos.kp else 0)
  }

  /** Rotating twice is the identity, as long as neither ep nor kp is 119
      (whose mirror, 0, would read as "no square"). */
  lemma RotateTwice(pos: Position)
    requires pos.ep != 119 && pos.kp != 119
    ensures Rotate(Rotate(pos, false), false) == pos
  {
    var r := Rotate(Rotate(pos, false), false);
    forall k | 0 <= k < |pos.board|
      ensures r.board[k] == pos.board[k]
    {
      SwapCaseTwice(pos.board[k]);
    }
  }

  /** After a null move and a rotation back, only ep and kp are lost. */
  lemma NullRotateTwice(pos: Position, nullmove: bool)
    ensures Rotate(Rotate(pos, true), nullmove) == pos.(ep := 0, kp := 0)
  {
    var r := Rotate(Rotate(pos, true), nullmove);
    forall k | 0 <= k < |pos.board|
      ensures r.board[k] == pos.board[k]
    {
      SwapCaseTwice(pos.board[k]);
    }
  }

  /** Rotation keeps the padding and the piece letters. */
  lemma RotateValid(pos: Position, nullmove: bool)
    requires Valid(pos)
    ensures Valid(Rotate(pos, nullmove))
  {
    var r := Rotate(pos, nullmove);
    forall k | 0 <= k < 120
      ensures !Interior(k) ==> IsSpace(r.board[k])
      ensures IsUpper(r.board[k]) ==> IsPiece(r.board[k])
      ensures IsLower(r.board[k]) ==> IsPiece(ToUpper(r.board[k]))
    {
      InteriorMirror(k);
      SwapCaseTwice(pos.board[119 - k]);
    }
  }

  /** What playing a move demands of it: indices on the 120-cell board, a
      one-letter promotion piece when a pawn reaches the last rank (the score
      table has no entry for anything else), and for a pawn landing on the
      en-passant square, a square behind it that is still on the board. */
  predicate Playable(pos: Position, m: Move) {
    && |pos.board| == 120 && 0 <= m.i < 120 && 0 <= m.j < 120
    && (pos.board[m.i] == 'P' && A8 <= m.j <= H8 ==> |m.prom| == 1)
    && (pos.board[m.i] == 'P' && m.j == pos.ep ==> m.j + S < 120)
  }

  /** The score change of a move, from the piece-square table pst (the value of
      a piece on a square, from its owner's side). Opponent pieces are looked
      up at the mirrored square 119 - x. */
  function Value(pst: (char, int) -> int, pos: Position, m: Move): int
    requires Playable(pos, m)
  {
    var i, j := m.i, m.j;
    var p, q := pos.board[i], pos.board[j];
    var moved := pst(p, j) - pst(p, i);
    var capture := if IsLower(q) then pst(ToUpper(q), 119 - j) else 0;
    var check := if Abs(j - pos.kp) < 2 then pst('K', 119 - j) else 0;
    var castle := if p == 'K' && Abs(i - j) == 2
                  then pst('R', (i + j) / 2) - pst('R', if j < i then A1 else H1) else 0;
    var promotion := if p == 'P' && A8 <= j <= H8 then pst(m.prom[0], j) - pst('P', j) else 0;
    var passant := if p == 'P' && j == pos.ep then pst('P', 119 - (j + S)) else 0;
    moved + capture + check + castle + promotion + passant
  }

  /** A plain move: not a pawn or king move, no capture, not next to kp. */
  lemma ValueOfQuietMove(pst: (char, int) -> int, pos: Position, m: Move)
    requires Playable(pos, m)
    requires pos.board[m.i] != 'P' && pos.board[m.i] != 'K'
    requires !IsLower(pos.board[m.j]) && Abs(m.j - pos.kp) >= 2
    ensures Value(pst, pos, m) == pst(pos.board[m.i], m.j) - pst(pos.board[m.i], m.i)
  {
  }

  /** Capturing adds the captured piece's table value at its mirrored square,
      compared with the same move onto an empty square. */
  lemma ValueOfCapture(pst: (char, int) -> int, pos: Position, m: Move)
    requires Playable(pos, m) && m.i != m.j && IsLower(pos.board[m.j])
    ensures Playable(pos.(board := pos.board[m.j := '.']), m)
    ensures Value(pst, pos, m)
         == Value(pst, pos.(board := pos.board[m.j := '.']), m) + pst(ToUpper(pos.board[m.j]), 119 - m.j)
  {
  }

  /** Landing on or next to kp (capturing the king that castled through it)
      adds the king's table value at the mirrored square. */
  lemma ValueOfCheckBonus(pst: (char, int) -> int, pos: Position, m: Move)
    requires Playable(pos, m) && m.j >= 2 && Abs(m.j - pos.kp) < 2
    ensures Value(pst, pos, m) == Value(pst, pos.(kp := 0), m) + pst('K', 119 - m.j)
  {
  }

  /** Castling also moves the rook from its corner to the square the king crosses. */
  lemma ValueOfCastle(pst: (char, int) -> int, pos: Position, m: Move)
    requires Playable(pos, m) && pos.board[m.i] == 'K' && Abs(m.i - m.j) == 2
    requires !IsLower(pos.board[m.j]) && Abs(m.j - pos.kp) >= 2
    ensures Value(pst, pos, m)
         == pst('K', m.j) - pst('K', m.i) + pst('R', (m.i + m.j) / 2) - pst('R', if m.j < m.i then A1 else H1)
  {
  }

  /** Promotion replaces the pawn's value on the last rank by the new piece's. */
  lemma ValueOfPromotion(pst: (char, int) -> int, pos: Position, m: Move)
    requires Playable(pos, m) && pos.board[m.i] == 'P' && A8 <= m.j <= H8
    requires !IsLower(pos.board[m.j]) && Abs(m.j - pos.kp) >= 2 && m.j != pos.ep
    ensures Value(pst, pos, m)
         == (pst('P', m.j) - pst('P', m.i)) + (pst(m.prom[0], m.j) - pst('P', m.j))
  {
  }

  /** Taking en passant adds the value of the pawn behind the target square. */
  lemma ValueOfEnPassant(pst: (char, int) -> int, pos: Position, m: Move)
    requires Playable(pos, m) && pos.board[m.i] == 'P' && m.j == pos.ep && !(A8 <= m.j <= H8)
    requires !IsLower(pos.board[m.j]) && Abs(m.j - pos.kp) >= 2
    ensures Value(pst, pos, m) == pst('P', m.j) - pst('P', m.i) + pst('P', 119 - (m.j + S))
  {
  }

  /** A king move of two squares: castling. */
  predicate IsCastle(pos: Position, m: Move)
    requires 0 <= m.i < |pos.board|
  {
    pos.board[m.i] == 'K' && Abs(m.j - m.i) == 2
  }

  /** The rook's home square on the side the king castles towards. */
  function Corner(m: Move): int {
    if m.j < m.i then A1 else H1
  }

  /** The cells a move may write to. */
  function Touched(pos: Position, m: Move): set<int>
    requires 0 <= m.i < |pos.board|
  {
    {m.i, m.j}
    + (if IsCastle(pos, m) then {Corner(m), (m.i + m.j) / 2} else {})
    + (if pos.board[m.i] == 'P' && m.j == pos.ep then {m.j + S} else {})
  }

  /** The position right after the move, still from the mover's side: the
      score grows by the move's value, castling rights are lost by moving a
      rook or the king away from home or by capturing on the opponent's rook
      corner, ep is set only by a double step and kp only by castling. */
  function Played(pst: (char, int) -> int, pos: Position, m: Move): (r: Position)
    requires Playable(pos, m)
    ensures |r.board| == 120
    ensures r.score == pos.score + Value(pst, pos, m)
    ensures r.wc == if pos.board[m.i] == 'K' then (false, false)
                    else (pos.wc.0 && m.i != A1, pos.wc.1 && m.i != H1)
    ensures r.bc == (pos.bc.0 && m.j != H8, pos.bc.1 && m.j != A8)
    ensures r.ep == if pos.board[m.i] == 'P' && m.j - m.i == 2 * N then m.i + N else 0
    ensures r.kp == if IsCastle(pos, m) then (m.i + m.j) / 2 else 0
  {
    var i, j := m.i, m.j;
    var p := pos.board[i];
    var score := pos.score + Value(pst, pos, m);
    // moving a rook, or capturing the opponent's, loses that castling right
    var wc1 := if i == A1 then (false, pos.wc.1) else pos.wc;
    var wc2 := if i == H1 then (wc1.0, false) else wc1;
    var bc1 := if j == A8 then (pos.bc.0, false) else pos.bc;
    var bc2 := if j == H8 then (false, bc1.1) else bc1;
    // a king move loses both rights; two squares is castling
    var wc3 := if p == 'K' then (false, false) else wc2;
    var kp := if p == 'K' && Abs(j - i) == 2 then (i + j) / 2 else 0;
    // only a double step sets ep
    var ep := if p == 'P' && j - i == 2 * N then i + N else 0;
    Position(PlayedCells(pos, m), score, wc3, bc2, ep, kp)
  }

  /** The board writes of a move, in order: the piece moves, castling moves
      the rook from its corner to the square the king crosses, a pawn on the
      last rank becomes the promotion piece, and an en-passant capture empties
      the square behind the destination. */
  function PlayedCells(pos: Position, m: Move): (b: string)
    requires Playable(pos, m)
    ensures |b| == 120
  {
    var i, j := m.i, m.j;
    var p := pos.board[i];
    var b1 := pos.board[j := p][i := '.'];
    var b2 := if IsCastle(pos, m) then b1[Corner(m) := '.'][(i + j) / 2 := 'R'] else b1;
    var b3 := if p == 'P' && A8 <= j <= H8 then b2[j := m.prom[0]] else b2;
    if p == 'P' && j == pos.ep then b3[j + S := '.'] else b3
  }

  /** The board right after the move: the origin is empty, the destination
      holds the moving piece (or the promotion piece on the last rank),
      castling takes the rook from its corner to the square the king crosses,
      an en-passant capture empties the square behind the destination, and no
      other cell changes. */
  lemma PlayedBoard(pst: (char, int) -> int, pos: Position, m: Move)
    requires Playable(pos, m)
    ensures var r := Played(pst, pos, m);
      && (m.i != m.j ==> r.board[m.i] == '.')
      && (m.i != m.j && !(IsCastle(pos, m) && Corner(m) == m.j) ==>
            r.board[m.j] == if pos.board[m.i] == 'P' && A8 <= m.j <= H8 then m.prom[0] else pos.board[m.i])
      && (IsCastle(pos, m) ==>
            r.board[(m.i + m.j) / 2] == 'R' && (Corner(m) != (m.i + m.j) / 2 ==> r.board[Corner(m)] == '.'))
      && (pos.board[m.i] == 'P' && m.j == pos.ep ==> r.board[m.j + S] == '.')
      && (forall k :: 0 <= k < 120 && k !in Touched(pos, m) ==> r.board[k] == pos.board[k])
  {
  }

  /** The successor position, rotated so that the opponent is now to move.
      Castling rights only ever go from true to false, a king move takes both
      of the mover's, and rotating the result back gives the position right
      after the move. */
  function MakeMove(pst: (char, int) -> int, pos: Position, m: Move): (r: Position)
    requires Playable(pos, m)
    ensures |r.board| == 120
    ensures r.score == -(pos.score + Value(pst, pos, m))
    ensures (r.bc.0 ==> pos.wc.0) && (r.bc.1 ==> pos.wc.1)
    ensures (r.wc.0 ==> pos.bc.0) && (r.wc.1 ==> pos.bc.1)
    ensures pos.board[m.i] == 'K' ==> r.bc == (false, false)
    ensures Rotate(r, false) == Played(pst, pos, m)
  {
    var played := Played(pst, pos, m);
    RotateTwice(played);
    Rotate(played, false)
  }

  /** The middle of a two-square step between squares is a square. */
  lemma CastleMiddleInterior(i: int, j: int)
    requires Interior(i) && Interior(j) && Abs(j - i) == 2
    ensures Interior((i + j) / 2) && (i + j) / 2 != i && (i + j) / 2 != j
  {
    var r, c := i / 10, i % 10;
    assert i == 10 * r + c;
    if j == i + 2 {
      assert j / 10 == r && j % 10 == c + 2;
      assert (i + j) / 2 == 10 * r + c + 1;
    } else {
      assert j / 10 == r && j % 10 == c - 2;
      assert (i + j) / 2 == 10 * r + c - 1;
    }
  }

  /** Writing on a square a character that is not a letter, or is the letter
      of a piece of either side, keeps a position valid. */
  lemma WriteValid(pos: Position, k: int, c: char)
    requires Valid(pos) && Interior(k)
    requires (IsUpper(c) ==> IsPiece(c)) && (IsLower(c) ==> IsPiece(ToUpper(c)))
    ensures Valid(pos.(board := pos.board[k := c]))
  {
    var b := pos.board[k := c];
    forall x | 0 <= x < 120
      ensures !Interior(x) ==> IsSpace(b[x])
      ensures IsUpper(b[x]) ==> IsPiece(b[x])
      ensures IsLower(b[x]) ==> IsPiece(ToUpper(b[x]))
    {
      if x != k {
        assert b[x] == pos.board[x];
      }
    }
  }

  /** A move between squares that writes only piece letters keeps the position
      valid: padding, length and the case convention survive. */
  lemma MakeMoveValid(pst: (char, int) -> int, pos: Position, m: Move)
    requires Valid(pos) && Playable(pos, m)
    requires Interior(m.i) && Interior(m.j)
    requires pos.board[m.i] == 'P' && A8 <= m.j <= H8 ==> IsPiece(m.prom[0])
    requires pos.board[m.i] == 'P' && m.j == pos.ep ==> Interior(m.j + S)
    ensures Valid(MakeMove(pst, pos, m))
  {
    var i, j, p := m.i, m.j, pos.board[m.i];
    var r := Played(pst, pos, m);
    var s0 := r.(board := pos.board);
    var s1 := s0.(board := s0.board[j := p]);
    WriteValid(s0, j, p);
    var s := s1.(board := s1.board[i := '.']);
    WriteValid(s1, i, '.');
    if IsCastle(pos, m) {
      var c, k := Corner(m), (i + j) / 2;
      CastleMiddleInterior(i, j);
      var s2 := s.(board := s.board[c := '.']);
      WriteValid(s, c, '.');
      s := s2.(board := s2.board[k := 'R']);
      WriteValid(s2, k, 'R');
    }
    if p == 'P' && A8 <= j <= H8 {
      WriteValid(s, j, m.prom[0]);
      s := s.(board := s.board[j := m.prom[0]]);
    }
    if p == 'P' && j == pos.ep {
      WriteValid(s, j + S, '.');
      s := s.(board := s.board[j + S := '.']);
    }
    assert r.board == s.board;
    assert r == s;
    RotateValid(r, false);
  }
}
