/** The padded 10 x 12 board geometry: corner squares, the initial setup,
    the ray directions of each piece kind, and the conversion between
    long-algebraic coordinates ("e2") and board indices. */
module Constants {
  import opened Text

  datatype Option<T> = None | Some(value: T)

  /** Index = 10 * row + column; rows 2..9 and columns 1..8 are the 64 squares,
      the other cells are padding. Row 9 is the mover's first rank. */
  const A1 := 91
  const H1 := 98
  const A8 := 21
  const H8 := 28

  const N := -10
  const E := 1
  const S := 10
  const W := -1

  /** A cell of the 120-cell buffer that is one of the 64 squares. */
  predicate Interior(k: int) {
    0 <= k < 120 && 2 <= k / 10 <= 9 && 1 <= k % 10 <= 8
  }

  /** The starting position, from White's point of view, as its twelve rows of ten cells. */
  const Padding := "         \n"
  const Ranks: seq<string> := [
    Padding,
    Padding,
    " rnbqkbnr\n",
    " pppppppp\n",
    " ........\n",
    " ........\n",
    " ........\n",
    " ........\n",
    " PPPPPPPP\n",
    " RNBQKBNR\n",
    Padding,
    Padding
  ]
  const Initial: string := Join(Ranks)

  /** The rows written one after the other. */
  function Join(rows: seq<string>): string {
    if rows == [] then [] else rows[0] + Join(rows[1..])
  }

  /** The letters of the six piece kinds: the keys of the ray table. */
  predicate IsPiece(p: char) {
    p == 'P' || p == 'N' || p == 'B' || p == 'R' || p == 'Q' || p == 'K'
  }

  /** The ray table: the offsets of one step for P, N and K, of repeated
      steps for B, R and Q. */
  function Directions(p: char): (ds: seq<int>)
    requires IsPiece(p)
    ensures |ds| == if p == 'P' || p == 'B' || p == 'R' then 4 else 8
  {
    match p
    case 'P' => [N, N + N, N + W, N + E]
    case 'N' => [N + N + E, E + N + E, E + S + E, S + S + E, S + S + W, W + S + W, W + N + W, N + N + W]
    case 'B' => [N + E, S + E, S + W, N + W]
    case 'R' => [N, E, S, W]
    case 'Q' => [N, E, S, W, N + E, S + E, S + W, N + W]
    case 'K' => [N, E, S, W, N + E, S + E, S + W, N + W]
  }

  predicate IsCrawler(p: char) {
    p == 'P' || p == 'N' || p == 'K'
  }

  predicate IsSlider(p: char) {
    p == 'B' || p == 'R' || p == 'Q'
  }

  /** A coordinate the engine accepts as a real square: file a..h, rank 1..8. */
  predicate IsCoordinate(c: string) {
    |c| == 2 && 'a' <= c[0] <= 'h' && '1' <= c[1] <= '8'
  }

  /** The index of a coordinate such as "e2". The file letter is not checked;
      the rank must be a digit, and a string shorter than two characters has
      no index. */
  function Parse(c: string): (r: Option<int>)
    ensures r.Some? <==> |c| >= 2 && IsDigit(c[1])
    ensures IsCoordinate(c) ==> r.Some? && Interior(r.value)
  {
    if |c| < 2 || !IsDigit(c[1]) then None
    else
      var fil := c[0] as int - 'a' as int;
      var rank := c[1] as int - '0' as int - 1;
      Some(A1 + fil - 10 * rank)
  }

  /** The coordinate of an index: file letter, then the rank number. Every
      square renders as a coordinate a1..h8. */
  function Render(i: int): (c: string)
    ensures |c| >= 2
    ensures Interior(i) ==> IsCoordinate(c)
  {
    var rank, fil := (i - A1) / 10, (i - A1) % 10;
    [(fil + 'a' as int) as char] + IntToString(-rank + 1)
  }

  /** Every square renders as a two-character coordinate that parses back to it. */
  lemma ParseRender(k: int)
    requires Interior(k)
    ensures IsCoordinate(Render(k))
    ensures Parse(Render(k)) == Some(k)
  {
    var row, col := k / 10, k % 10;
    assert k - A1 == 10 * (row - 9) + (col - 1);
    assert (k - A1) / 10 == row - 9 && (k - A1) % 10 == col - 1;
    assert Render(k) == [(col - 1 + 'a' as int) as char, DigitChar(10 - row)];
  }

  /** Every coordinate parses to a square that renders back to it. */
  lemma RenderParse(c: string)
    requires IsCoordinate(c)
    ensures Parse(c).Some? && Render(Parse(c).value) == c
  {
    var fil, rank := c[0] as int - 'a' as int, c[1] as int - '0' as int - 1;
    var k := Parse(c).value;
    assert k - A1 == 10 * (-rank) + fil;
    assert (k - A1) / 10 == -rank && (k - A1) % 10 == fil;
    assert Render(k) == [c[0], DigitChar(rank + 1)];
  }

  /** The four corners are where the constants say they are. */
  lemma CornerCoordinates()
    ensures Parse("a1") == Some(A1) && Parse("h1") == Some(H1)
    ensures Parse("a8") == Some(A8) && Parse("h8") == Some(H8)
  {
  }

  /** Reflecting both the file (a..h) and the rank (1..8) of a coordinate gives
      the square 119 - index: the view of the same square from the other side. */
  lemma MirrorCoordinate(c: string)
    requires IsCoordinate(c)
    ensures Parse(c).Some?
    ensures Parse([('a' as int + 'h' as int - c[0] as int) as char,
                   ('1' as int + '8' as int - c[1] as int) as char]) == Some(119 - Parse(c).value)
  {
  }

  /** The mirror of a square is a square. */
  lemma InteriorMirror(k: int)
    requires 0 <= k < 120
    ensures Interior(k) <==> Interior(119 - k)
  {
    var row, col := k / 10, k % 10;
    assert 119 - k == 10 * (11 - row) + (9 - col);
    assert (119 - k) / 10 == 11 - row && (119 - k) % 10 == 9 - col;
  }

  /** Crawlers step at most 21 cells, sliders at most 11, no ray stands still,
      and every pawn ray points north. */
  lemma DirectionBounds(p: char, d: int)
    requires IsPiece(p) && d in Directions(p)
    ensures d != 0 && -21 <= d <= 21
    ensures IsSlider(p) ==> -11 <= d <= 11
    ensures p == 'P' ==> d < 0
  {
  }

  /** No piece has the same ray twice. */
  lemma DirectionsDistinct(p: char)
    requires IsPiece(p)
    ensures forall k, l :: 0 <= k < l < |Directions(p)| ==> Directions(p)[k] != Directions(p)[l]
  {
  }

  /** One step of any ray from a square stays inside the 120-cell buffer; one
      step of a sliding ray lands on a square or on the padding next to it. */
  lemma StepStaysOnBuffer(k: int, p: char, d: int)
    requires Interior(k) && IsPiece(p) && d in Directions(p)
    ensures 0 <= k + d < 120
    ensures IsSlider(p) ==> 10 <= k + d < 110
  {
    DirectionBounds(p, d);
  }

  /** What the starting board holds in row r, column c. */
  predicate InitialCell(ch: char, r: int, c: int) {
    && (!(2 <= r <= 9 && 1 <= c <= 8) ==> IsSpace(ch))
    && (2 <= r <= 9 && 1 <= c <= 8 ==>
          && (ch == '.' || IsPiece(ToUpper(ch)))
          && (IsUpper(ch) <==> 8 <= r <= 9)
          && (IsLower(ch) <==> 2 <= r <= 3))
  }

  lemma RankLayout(r: int, c: int)
    requires 0 <= r < 12 && 0 <= c < 10
    ensures |Ranks[r]| == 10 && InitialCell(Ranks[r][c], r, c)
  {
    if r in {0, 1, 10, 11} {
      assert Ranks[r] == Padding;
    } else if r in {4, 5, 6, 7} {
      assert Ranks[r] == " ........\n";
    }
  }

  /** Rows of ten cells joined: cell k is column k % 10 of row k / 10. */
  lemma {:induction false} JoinIndex(rows: seq<string>, k: int)
    requires forall r :: 0 <= r < |rows| ==> |rows[r]| == 10
    requires 0 <= k < 10 * |rows|
    ensures |Join(rows)| == 10 * |rows| && Join(rows)[k] == rows[k / 10][k % 10]
  {
    if k < 10 {
      if |rows| > 1 {
        JoinIndex(rows[1..], 0);
      }
    } else {
      JoinIndex(rows[1..], k - 10);
    }
  }

  lemma InitialIndex(k: int)
    requires 0 <= k < 120
    ensures |Initial| == 120 && Initial[k] == Ranks[k / 10][k % 10]
  {
    forall r | 0 <= r < |Ranks| ensures |Ranks[r]| == 10 {
      RankLayout(r, 0);
    }
    JoinIndex(Ranks, k);
  }

  /** Row r read from the other side (row 11 - r backwards, case swapped)
      has the same letters, except for the queen and king of the back rows. */
  lemma RankMirror(r: int, c: int)
    requires 0 <= r < 12 && 0 <= c < 10 && !((r == 2 || r == 9) && (c == 4 || c == 5))
    ensures |Ranks[r]| == 10 && |Ranks[11 - r]| == 10
    ensures var x, y := Ranks[r][c], SwapCase(Ranks[11 - r][9 - c]);
      x == y || (!IsUpper(x) && !IsLower(x) && !IsUpper(y) && !IsLower(y))
  {
    RankLayout(r, c);
    RankLayout(11 - r, 9 - c);
    if r == 2 || r == 9 {
      assert Ranks[2] == " rnbqkbnr\n" && Ranks[9] == " RNBQKBNR\n";
    } else if r == 3 || r == 8 {
      assert Ranks[3] == " pppppppp\n" && Ranks[8] == " PPPPPPPP\n";
    }
  }

  /** Seen from the other side, the starting board has the same pieces on the
      same cells, except that the queens and kings trade files. */
  lemma InitialMirror(k: int)
    requires 0 <= k < 120 && k != 24 && k != 25 && k != 94 && k != 95
    ensures |Initial| == 120
    ensures var x, y := Initial[k], SwapCase(Initial[119 - k]);
      x == y || (!IsUpper(x) && !IsLower(x) && !IsUpper(y) && !IsLower(y))
  {
    InitialIndex(k);
    InitialIndex(119 - k);
    var r, c := k / 10, k % 10;
    assert (119 - k) / 10 == 11 - r && (119 - k) % 10 == 9 - c;
    RankMirror(r, c);
  }

  /** The queens and kings of the starting board. */
  lemma BackRanks()
    ensures |Initial| == 120
    ensures Initial[24] == 'q' && Initial[25] == 'k' && Initial[94] == 'Q' && Initial[95] == 'K'
  {
    InitialIndex(24);
    InitialIndex(25);
    InitialIndex(94);
    InitialIndex(95);
  }

  /** The starting board: 120 cells, padding all whitespace, the 64 squares
      holding '.' or a piece letter, the mover's pieces on rows 8 and 9 and the
      opponent's on rows 2 and 3. */
  lemma InitialLayout()
    ensures |Initial| == 120
    ensures forall k :: 0 <= k < 120 && !Interior(k) ==> IsSpace(Initial[k])
    ensures forall k :: Interior(k) ==> Initial[k] == '.' || IsPiece(ToUpper(Initial[k]))
    ensures forall k :: Interior(k) ==> (IsUpper(Initial[k]) <==> 8 <= k / 10 <= 9)
    ensures forall k :: Interior(k) ==> (IsLower(Initial[k]) <==> 2 <= k / 10 <= 3)
  {
    InitialIndex(0);
    forall k | 0 <= k < 120
      ensures InitialCell(Initial[k], k / 10, k % 10)
    {
      InitialIndex(k);
      RankLayout(k / 10, k % 10);
    }
  }
}
