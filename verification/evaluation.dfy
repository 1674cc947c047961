/** The evaluation the incremental score stands for: every piece of the mover
    counts its table value on its square, every piece of the opponent counts
    minus its table value on the mirrored square. Playing a move changes this
    sum by exactly the move's value, and rotating negates it, so a score that
    starts equal to the evaluation stays equal to it. */
module Evaluation {
  import opened Text
  import opened Constants
  import opened Board

  /** What the letter c on cell k adds to the evaluation. */
  function Contrib(pst: (char, int) -> int, c: char, k: int): int {
    if IsUpper(c) then pst(c, k)
    else if IsLower(c) then -pst(ToUpper(c), 119 - k)
    else 0
  }

  /** The contributions of the cells 0 .. n-1. */
  function EvalUpTo(pst: (char, int) -> int, b: string, n: nat): int
    requires n <= |b|
  {
    if n == 0 then 0 else EvalUpTo(pst, b, n - 1) + Contrib(pst, b[n - 1], n - 1)
  }

  /** The evaluation of a whole board. */
  function Eval(pst: (char, int) -> int, b: string): int {
    EvalUpTo(pst, b, |b|)
  }

  /** Writing one cell changes a partial sum that covers it by the difference
      of the two contributions, and leaves one that does not cover it alone. */
  lemma {:induction false} EvalUpToUpdate(pst: (char, int) -> int, b: string, k: int, c: char, n: nat)
    requires 0 <= k < |b| && n <= |b|
    ensures EvalUpTo(pst, b[k := c], n)
         == EvalUpTo(pst, b, n) + (if k < n then Contrib(pst, c, k) - Contrib(pst, b[k], k) else 0)
  {
    if n > 0 {
      EvalUpToUpdate(pst, b, k, c, n - 1);
    }
  }

  /** Writing the letter c on cell k changes the evaluation by what c adds
      there minus what the old letter added. */
  lemma EvalUpdate(pst: (char, int) -> int, b: string, k: int, c: char)
    requires 0 <= k < |b|
    ensures Eval(pst, b[k := c]) == Eval(pst, b) + Contrib(pst, c, k) - Contrib(pst, b[k], k)
  {
    EvalUpToUpdate(pst, b, k, c, |b|);
  }

  /** A letter seen from the other side, on the mirrored cell, adds the
      opposite amount. */
  lemma ContribMirror(pst: (char, int) -> int, c: char, k: int)
    ensures Contrib(pst, SwapCase(c), k) == -Contrib(pst, c, 119 - k)
  {
    SwapCaseTwice(c);
  }

  /** The first n cells of the rotated board add the opposite of the last n
      cells of the original. */
  lemma {:induction false} EvalUpToRotate(pst: (char, int) -> int, b: string, r: string, n: nat)
    requires |b| == 120 && |r| == 120 && n <= 120
    requires forall k :: 0 <= k < 120 ==> r[k] == SwapCase(b[119 - k])
    ensures EvalUpTo(pst, r, n) == -(Eval(pst, b) - EvalUpTo(pst, b, 120 - n))
  {
    if n > 0 {
      EvalUpToRotate(pst, b, r, n - 1);
      ContribMirror(pst, b[120 - n], n - 1);
    }
  }

  /** Rotating a position negates the evaluation of its board. */
  lemma EvalRotate(pst: (char, int) -> int, pos: Position, nullmove: bool)
    requires |pos.board| == 120
    ensures Eval(pst, Rotate(pos, nullmove).board) == -Eval(pst, pos.board)
  {
    EvalUpToRotate(pst, pos.board, Rotate(pos, nullmove).board, 120);
  }

  /** Rotation negates both the score and the evaluation, so it negates the
      difference between them: whatever offset the score carries from the
      evaluation, it carries it with the sign of the side to move, a null move
      included. */
  lemma RotateTracksEval(pst: (char, int) -> int, pos: Position, nullmove: bool)
    requires |pos.board| == 120
    ensures Rotate(pos, nullmove).score - Eval(pst, Rotate(pos, nullmove).board)
         == -(pos.score - Eval(pst, pos.board))
  {
    EvalRotate(pst, pos, nullmove);
  }

  /** Boards whose cells contribute alike have the same partial sums. */
  lemma {:induction false} EvalUpToSame(pst: (char, int) -> int, a: string, b: string, n: nat)
    requires n <= |a| && n <= |b|
    requires forall k :: 0 <= k < n ==> Contrib(pst, a[k], k) == Contrib(pst, b[k], k)
    ensures EvalUpTo(pst, a, n) == EvalUpTo(pst, b, n)
  {
    if n > 0 {
      EvalUpToSame(pst, a, b, n - 1);
    }
  }

  /** The evaluation of the starting board: every piece is matched by the
      opponent's on the mirrored square except the queens and kings, which the
      half-turn puts on each other's files. */
  lemma InitialEval(pst: (char, int) -> int)
    ensures Eval(pst, Initial) == pst('Q', 94) + pst('K', 95) - pst('Q', 95) - pst('K', 94)
  {
    InitialIndex(0);
    var init := InitialPosition;
    var r := Rotate(init, false).board;
    EvalRotate(pst, init, false);
    BackRanks();
    var x1 := Initial[24 := 'k'];
    var x2 := x1[25 := 'q'];
    var x3 := x2[94 := 'K'];
    var x := x3[95 := 'Q'];
    EvalUpdate(pst, Initial, 24, 'k');
    EvalUpdate(pst, x1, 25, 'q');
    EvalUpdate(pst, x2, 94, 'K');
    EvalUpdate(pst, x3, 95, 'Q');
    forall k | 0 <= k < 120 ensures Contrib(pst, r[k], k) == Contrib(pst, x[k], k) {
      if k != 24 && k != 25 && k != 94 && k != 95 {
        InitialMirror(k);
        assert x[k] == Initial[k];
      }
    }
    EvalUpToSame(pst, r, x, 120);
  }

  /** Moving the mover's piece from i to j, onto an empty cell or an
      opponent's piece, changes the evaluation by the piece's table
      difference plus the value of what it captures. */
  lemma EvalMovePiece(pst: (char, int) -> int, b: string, i: int, j: int)
    requires 0 <= i < |b| && 0 <= j < |b| && i != j
    requires IsUpper(b[i]) && !IsUpper(b[j])
    ensures Eval(pst, b[j := b[i]][i := '.'])
         == Eval(pst, b) + pst(b[i], j) - pst(b[i], i)
            + (if IsLower(b[j]) then pst(ToUpper(b[j]), 119 - j) else 0)
  {
    EvalUpdate(pst, b, j, b[i]);
    EvalUpdate(pst, b[j := b[i]], i, '.');
  }

  /** Taking the rook from cell c to the empty cell k changes the evaluation
      by the rook's table difference. */
  lemma EvalMoveRook(pst: (char, int) -> int, b: string, c: int, k: int)
    requires 0 <= c < |b| && 0 <= k < |b| && c != k
    requires b[c] == 'R' && b[k] == '.'
    ensures Eval(pst, b[c := '.'][k := 'R']) == Eval(pst, b) + pst('R', k) - pst('R', c)
  {
    EvalUpdate(pst, b, c, '.');
    EvalUpdate(pst, b[c := '.'], k, 'R');
  }

  /** Turning the mover's pawn on j into the piece x changes the evaluation
      by the difference of their table values. */
  lemma EvalPromote(pst: (char, int) -> int, b: string, j: int, x: char)
    requires 0 <= j < |b| && b[j] == 'P' && IsUpper(x)
    ensures Eval(pst, b[j := x]) == Eval(pst, b) + pst(x, j) - pst('P', j)
  {
    EvalUpdate(pst, b, j, x);
  }

  /** Removing the opponent's pawn from k adds its table value at the
      mirrored square. */
  lemma EvalRemovePawn(pst: (char, int) -> int, b: string, k: int)
    requires 0 <= k < |b| && b[k] == 'p'
    ensures Eval(pst, b[k := '.']) == Eval(pst, b) + pst('P', 119 - k)
  {
    EvalUpdate(pst, b, k, '.');
  }

  /** The moves for which the incremental score is exact: a piece of the mover
      moves between two squares onto a cell that is not its own piece; the
      destination is not on or next to kp (that bonus scores the capture of a
      king that has just castled, which is no longer on the board); a castling
      king finds its rook in the corner and an empty square to put it on; a
      promotion piece is a piece of the mover; and an en-passant capture
      finds the opponent's pawn behind the destination. */
  predicate Regular(pos: Position, m: Move) {
    && Playable(pos, m)
    && Interior(m.i) && Interior(m.j) && m.i != m.j
    && IsUpper(pos.board[m.i]) && !IsUpper(pos.board[m.j])
    && Abs(m.j - pos.kp) >= 2
    && (IsCastle(pos, m) ==> pos.board[Corner(m)] == 'R' && pos.board[(m.i + m.j) / 2] == '.')
    && (pos.board[m.i] == 'P' && A8 <= m.j <= H8 ==> IsUpper(m.prom[0]))
    && (pos.board[m.i] == 'P' && m.j == pos.ep ==> pos.board[m.j + S] == 'p')
  }

  /** Away from kp, a move's value is the sum of the table changes of its
      board writes: the piece moving, the piece it captures, the rook of a
      castling, the promotion and the pawn taken en passant. */
  lemma ValueParts(pst: (char, int) -> int, pos: Position, m: Move)
    requires Playable(pos, m) && Abs(m.j - pos.kp) >= 2
    ensures Value(pst, pos, m)
         == pst(pos.board[m.i], m.j) - pst(pos.board[m.i], m.i)
            + (if IsLower(pos.board[m.j]) then pst(ToUpper(pos.board[m.j]), 119 - m.j) else 0)
            + (if IsCastle(pos, m) then pst('R', (m.i + m.j) / 2) - pst('R', Corner(m)) else 0)
            + (if pos.board[m.i] == 'P' && A8 <= m.j <= H8 then pst(m.prom[0], m.j) - pst('P', m.j) else 0)
            + (if pos.board[m.i] == 'P' && m.j == pos.ep then pst('P', 119 - (m.j + S)) else 0)
  {
    assert Abs(m.i - m.j) == Abs(m.j - m.i);
  }

  /** A regular move of a piece other than a pawn: the piece moves and, for a
      castling king, the rook moves too. */
  lemma PlayedEvalPiece(pst: (char, int) -> int, pos: Position, m: Move)
    requires Regular(pos, m) && pos.board[m.i] != 'P'
    ensures Eval(pst, Played(pst, pos, m).board) == Eval(pst, pos.board) + Value(pst, pos, m)
  {
    var i, j := m.i, m.j;
    ValueParts(pst, pos, m);
    var b1 := pos.board[j := pos.board[i]][i := '.'];
    EvalMovePiece(pst, pos.board, i, j);
    if IsCastle(pos, m) {
      var c, k := Corner(m), (i + j) / 2;
      CastleMiddleInterior(i, j);
      assert c != i && c != j && b1[c] == 'R';
      assert b1[c := '.'][k] == '.';
      EvalMoveRook(pst, b1, c, k);
      assert Played(pst, pos, m).board == b1[c := '.'][k := 'R'];
    } else {
      assert Played(pst, pos, m).board == b1;
    }
  }

  /** A regular pawn move: the pawn moves, becomes the promotion piece on the
      last rank, and an en-passant capture removes the pawn behind it. */
  lemma PlayedEvalPawn(pst: (char, int) -> int, pos: Position, m: Move)
    requires Regular(pos, m) && pos.board[m.i] == 'P'
    ensures Eval(pst, Played(pst, pos, m).board) == Eval(pst, pos.board) + Value(pst, pos, m)
  {
    var i, j := m.i, m.j;
    ValueParts(pst, pos, m);
    var b1 := pos.board[j := 'P'][i := '.'];
    EvalMovePiece(pst, pos.board, i, j);
    var b3 := b1;
    if A8 <= j <= H8 {
      EvalPromote(pst, b1, j, m.prom[0]);
      b3 := b1[j := m.prom[0]];
    }
    if j == pos.ep {
      assert b3[j + S] == 'p';
      EvalRemovePawn(pst, b3, j + S);
      assert Played(pst, pos, m).board == b3[j + S := '.'];
    } else {
      assert Played(pst, pos, m).board == b3;
    }
  }

  /** Playing a regular move changes the evaluation of the board by exactly the
      move's value. */
  lemma PlayedEval(pst: (char, int) -> int, pos: Position, m: Move)
    requires Regular(pos, m)
    ensures Eval(pst, Played(pst, pos, m).board) == Eval(pst, pos.board) + Value(pst, pos, m)
  {
    if pos.board[m.i] == 'P' {
      PlayedEvalPawn(pst, pos, m);
    } else {
      PlayedEvalPiece(pst, pos, m);
    }
  }

  /** The score the engine carries along differs from the evaluation of the
      board by an offset that a regular move keeps, up to the sign of the side
      to move: the score and the evaluation change by the same amount, and
      the rotation negates both. */
  lemma ScoreTracksEval(pst: (char, int) -> int, pos: Position, m: Move)
    requires Regular(pos, m)
    ensures MakeMove(pst, pos, m).score - Eval(pst, MakeMove(pst, pos, m).board)
         == -(pos.score - Eval(pst, pos.board))
  {
    var played := Played(pst, pos, m);
    PlayedEval(pst, pos, m);
    EvalRotate(pst, played, false);
  }
}
