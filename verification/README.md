# Sunfish board model in Dafny

A model of the board of the Sunfish chess engine: the `Position` record and
its four operations (`gen_moves`, `rotate`, `move`, `value`) from
`classes/position.py`, and the board geometry of `constants.py` (corner
squares, the initial setup, the ray directions, and the `parse`/`render`
conversion between coordinates such as "e2" and board indices).

The board is a string of 120 cells: a 10 x 12 grid whose rows 2..9 and
columns 1..8 are the 64 squares, the rest whitespace padding. The side to move
always plays the upper-case pieces; `rotate` reads the board backwards and
swaps case to hand the move to the other side, and `move` returns the rotated
successor.

Modules, one per concern:

- `Text` (text.dfy): the few `str` operations the code relies on (`isupper`,
  `islower`, `isspace`, `swapcase`, `upper`, `[::-1]`, `str(int)`), on ASCII.
- `Constants` (constants.dfy): `constants.py`. `Parse` returns `None` where
  Python raises.
- `Board` (position.dfy): `Move`, `Position`, `rotate` (`Rotate`), `value`
  (`Value`), and `move`, split into `Played` (the position right after the
  move, still from the mover's side) and `MakeMove` (its rotation).
- `MoveGen` (movegen.dfy): `gen_moves`. The method `GenMoves` keeps the
  source's loops (cells, then directions, then the ray walk `WalkRay`, whose
  per-cell body is `ScanCell`). It is proved equal to the recursive
  specification `Moves`, and `Moves` is proved to hold exactly the ordinary
  moves along a ray and the castling moves: every generated move is one of
  them, and every one of them is generated.
- `Evaluation` (evaluation.dfy): the full-board evaluation that the
  incremental `score` stands for. For every regular move (`Regular`: no
  king-passant bonus, and castling and en passant find the rook and the pawn
  they expect) the move's `value` is exactly the change of that evaluation,
  and rotation negates both the score and the evaluation. So the difference
  between the score and the evaluation keeps its size along a game of regular
  moves and changes sign with the side to move. The starting position has
  score 0, so that difference starts at minus the evaluation of the initial
  board, pst['Q'][94] + pst['K'][95] - pst['Q'][95] - pst['K'][94]
  (`InitialEval`): the half-turn puts the opponent's queen and king on each
  other's files. The score is exactly the evaluation only for tables where
  this is 0.

The piece-square table `pst` lives in a module that is not part of this
model. It is a parameter `pst: (char, int) -> int` of every operation that
reads it, and nothing is assumed about its values.

## Model

| member | source | states |
|---|---|---|
| Text.SwapCase | classes/position.py:61 | swapping case maps upper case to lower case and back, and keeps whitespace |
| Text.SwapCaseTwice | classes/position.py:61 | swapping case twice gives the character back |
| Text.ToUpper | classes/position.py:107 | `upper` turns a lower-case letter into its case-swapped upper-case letter and keeps everything else |
| Text.Reverse | classes/position.py:61 | `[::-1]` keeps the length and puts cell k at position length-1-k |
| Text.SwapCaseAll | classes/position.py:61 | `swapcase` on a string keeps the length and swaps case cell by cell |
| Text.DigitChar | constants.py:43 | a digit character has the given numeric value |
| Text.NatToString | constants.py:43 | `str` of a natural number is a non-empty string of digits ending in the last digit, one character long exactly below 10 |
| Constants.Parse | constants.py:35-38 | there is an index exactly when the string has a digit in second place; every coordinate a1..h8 gives one of the 64 squares |
| Constants.Render | constants.py:40-43 | a rendered index has at least two characters, and every one of the 64 squares renders as a coordinate a1..h8 |
| Constants.ParseRender | constants.py:35-43 | every square renders as a coordinate a1..h8 that parses back to the same index |
| Constants.RenderParse | constants.py:35-43 | every coordinate a1..h8 parses to an index that renders back to the same string |
| Constants.CornerCoordinates | constants.py:5 | "a1", "h1", "a8", "h8" parse to A1 = 91, H1 = 98, A8 = 21, H8 = 28 |
| Constants.MirrorCoordinate | constants.py:35-38 | reflecting both file and rank of a coordinate gives index 119 - parse(c) |
| Constants.InteriorMirror | classes/position.py:60-63 | a cell is a square exactly when its mirror 119 - k is |
| Constants.Directions | constants.py:24-32 | the ray table has four rays for P, B and R and eight for N, Q and K |
| Constants.DirectionsDistinct | constants.py:24-32 | no piece's ray table lists the same offset twice |
| Constants.DirectionBounds | constants.py:24-32 | every offset is non-zero and at most 21 in size, slider offsets at most 11, and pawn offsets point north |
| Constants.StepStaysOnBuffer | classes/position.py:25-27 | one step from a square stays in 0..119; one slider step stays in 10..109 |
| Constants.RankLayout | constants.py:8-21 | each of the twelve rows has ten cells laid out as the starting setup requires |
| Constants.Join | constants.py:8-21 | the initial board is its twelve rows written one after the other (no contract of its own; `JoinIndex` states what it gives) |
| Constants.JoinIndex | constants.py:8-21 | the twelve ten-cell rows joined have 120 cells, and cell k is column k % 10 of row k / 10 |
| Constants.InitialIndex | constants.py:8-21 | the initial board has 120 cells and cell k is column k % 10 of row k / 10 |
| Constants.InitialLayout | constants.py:8-21 | the initial board has 120 cells, whitespace padding, '.' or a piece on every square, upper case exactly on rows 8 and 9 and lower case exactly on rows 2 and 3 |
| Constants.RankMirror | constants.py:8-21 | row r read from the other side (row 11 - r backwards, case swapped) has the same letters in each cell, except the queen and king of the back rows |
| Constants.InitialMirror | constants.py:8-21 | the starting board seen from the other side has the same letter on every cell except 24, 25, 94 and 95, where queen and king trade files |
| Constants.BackRanks | constants.py:11-18 | the starting board has the opponent's queen and king on 24 and 25 and the mover's on 94 and 95 |
| Board.InitialValid | sunfish.py:17 | the starting position is well formed and every letter on it is a piece |
| Board.OnSquare | classes/position.py:27-30 | on a well-formed board, a cell that is not whitespace is one of the 64 squares, so a ray that has not stopped is still on the board |
| Board.Rotate | classes/position.py:58-64 | the board is reversed with case swapped, the score negated, wc and bc exchanged, and non-zero ep and kp mirrored to 119 - x unless the rotation is a null move |
| Board.RotateTwice | classes/position.py:58-64 | rotating twice without a null move gives the position back, when ep and kp are not 119 |
| Board.NullRotateTwice | classes/position.py:58-64 | a null-move rotation followed by any rotation gives the position back with ep and kp cleared |
| Board.RotateValid | classes/position.py:58-64 | rotation keeps the padding, the length and the piece letters |
| Board.Value | classes/position.py:100-121 | the score change of a move, from the table pst (no contract of its own; `ValueOfQuietMove` .. `ValueOfEnPassant` state each term, `Evaluation.ValueParts` their sum, `Evaluation.PlayedEval` that it is the change of the evaluation) |
| Board.ValueOfQuietMove | classes/position.py:100-104 | a non-pawn, non-king, non-capturing move away from kp is worth pst[p][j] - pst[p][i] |
| Board.ValueOfCapture | classes/position.py:105-107 | a capture is worth pst[q.upper()][119 - j] more than the same move onto an empty square |
| Board.ValueOfCheckBonus | classes/position.py:108-110 | landing on or next to kp is worth pst['K'][119 - j] more than with kp cleared |
| Board.ValueOfCastle | classes/position.py:111-114 | castling adds pst['R'][(i+j)//2] - pst['R'][corner] to the king's own move |
| Board.ValueOfPromotion | classes/position.py:115-118 | a promotion adds pst[prom][j] - pst['P'][j] to the pawn's own move |
| Board.ValueOfEnPassant | classes/position.py:119-120 | an en-passant capture adds pst['P'][119 - (j + S)] to the pawn's own move |
| Board.Played | classes/position.py:66-96 | the board keeps 120 cells; the score grows by the move's value; a king move loses both castling rights and a move from a rook corner loses that one; a move onto A8 or H8 takes the opponent's right; ep is set only by a double step and kp only by castling |
| Board.PlayedCells | classes/position.py:74-96 | the board writes of a move keep the board at 120 cells |
| Board.PlayedBoard | classes/position.py:74-96 | the origin empties, the destination holds the piece or the promotion piece, castling moves the rook from its corner to kp, en passant empties j + S, and no other cell changes |
| Board.MakeMove | classes/position.py:66-98 | the successor keeps 120 cells with score -(score + value); castling rights only go from true to false; after a king move the (rotated) bc is (false, false); rotating it back gives the position right after the move |
| Board.CastleMiddleInterior | classes/position.py:85-88 | the square a castling king crosses is a square distinct from both ends |
| Board.WriteValid | classes/position.py:69 | writing a non-letter or a piece letter of either side on a square keeps a position valid |
| Board.MakeMoveValid | classes/position.py:66-98 | a move between squares that writes only piece letters keeps the position well formed |
| MoveGen.Ray | classes/position.py:26-56 | the moves of one ray, cell by cell, as the inner loop yields them (no contract of its own; `RayUnfold` states one step of it, `RaySound` and `RayReaches` what it holds) |
| MoveGen.DirMoves | classes/position.py:25-56 | the rays of one piece in table order (no contract of its own; stated by `DirMovesSound` and `DirMovesHas`) |
| MoveGen.BoardMoves | classes/position.py:22-56 | the moves of the pieces on the first n cells in board order (no contract of its own; stated by `BoardMovesSound` and `BoardMovesHas`) |
| MoveGen.Moves | classes/position.py:18-56 | all pseudo-legal moves in generation order (no contract of its own; `MovesExactly` states what it holds) |
| MoveGen.YieldOrdinary | classes/position.py:27-48 | a move yielded at a cell of a ray is an ordinary move |
| MoveGen.CastlesSound | classes/position.py:52-56 | a castling move found on a corner piece's ray has the king next to a reachable empty cell and the matching right held |
| MoveGen.RayStep | classes/position.py:26-51 | a sliding ray that yields a move on an empty cell goes on to a cell still on the buffer, closer to its edge, over clear cells only |
| MoveGen.RayCellSound | classes/position.py:27-56 | the moves yielded at one cell of a ray are ordinary or castling, and so is the rest of the ray if the part from the next cell is |
| MoveGen.RaySound | classes/position.py:26-56 | every move of a ray is ordinary or castling |
| MoveGen.DirMovesSound | classes/position.py:25-56 | every move along the first k directions of a piece is ordinary or castling |
| MoveGen.BoardMovesSound | classes/position.py:22-56 | every move of the pieces on the first n cells is ordinary or castling |
| MoveGen.MovesSound | classes/position.py:18-56 | every generated move starts on the mover's piece, ends on a square that is not its own piece, passes only empty squares, steps once for P, N and K, obeys the pawn push, double-step and diagonal rules, carries a promotion piece exactly on the last rank; or it is castling with the right held and the rook's ray reaching the king |
| MoveGen.MovesPlayable | classes/position.py:18-56 | every generated move meets what `move` needs to be played |
| MoveGen.RayReaches | classes/position.py:26-51 | a ray that passes clear cells yields, from its first cell, everything it yields from a cell further out |
| MoveGen.OrdinaryInRay | classes/position.py:27-51 | an ordinary move is yielded by its own ray at its destination, each promotion piece included |
| MoveGen.CastlingInRay | classes/position.py:52-56 | a castling move is yielded by the ray of its rook corner at the cell next to the king |
| MoveGen.DirMovesHas | classes/position.py:25-26 | a piece's moves along its first k directions contain each of those rays |
| MoveGen.BoardMovesHas | classes/position.py:22-25 | the moves of the pieces on the first n cells contain every move of each of those pieces |
| MoveGen.RayGenerated | classes/position.py:18-56 | whatever a ray yields from any cell it reaches over clear cells is generated |
| MoveGen.MovesComplete | classes/position.py:18-56 | every ordinary or castling move is generated |
| MoveGen.MovesExactly | classes/position.py:18-56 | a move is generated exactly when it is ordinary or castling |
| MoveGen.PawnBehind | classes/position.py:93-96 | the cell behind a pawn's destination is a square |
| MoveGen.OrdinaryOnBoard | classes/position.py:27-46 | an ordinary move runs between squares, promotes only to a piece, and takes en passant from a square |
| MoveGen.CastlingOnBoard | classes/position.py:52-56 | a castling move by a king on its first rank runs between squares |
| MoveGen.GeneratedMoveValid | classes/position.py:18-98 | every generated move can be played, and playing it keeps a valid position valid while castling rights are held only with the king on its first rank |
| MoveGen.RayPromotions | classes/position.py:43-46 | a promotion in a ray comes with all four promotion pieces |
| MoveGen.DirPromotions | classes/position.py:43-46 | a promotion along a piece's directions comes with all four promotion pieces |
| MoveGen.BoardPromotions | classes/position.py:43-46 | a promotion among the first n cells' moves comes with all four promotion pieces |
| MoveGen.PromotionsComplete | classes/position.py:43-46 | every generated promotion is generated with each of N, B, R and Q |
| MoveGen.Promote | classes/position.py:44-45 | the loop yields one move per promotion piece, in the order N, B, R, Q |
| MoveGen.RayUnfold | classes/position.py:26-56 | a ray stops with nothing at a cell that yields nothing, gives the four promotions on the last rank, gives one move where a crawler or a capture stops it, and otherwise gives the move, the castling moves and the rest of the ray |
| MoveGen.ScanCell | classes/position.py:27-56 | one cell of the walk yields what the ray specification yields there, and the walk goes on exactly when the ray does |
| MoveGen.WalkRay | classes/position.py:26-56 | the unbounded walk stays inside the buffer, ends, and yields exactly the ray's moves |
| MoveGen.GenMoves | classes/position.py:18-56 | the generator yields exactly `Moves`, in order, and a move is among them exactly when it is ordinary or castling |
| Evaluation.EvalUpToUpdate | classes/position.py:69 | writing one cell changes every partial sum that covers it by the difference of the two contributions |
| Evaluation.EvalUpdate | classes/position.py:69 | writing one cell changes the evaluation by the difference of the two contributions |
| Evaluation.ContribMirror | classes/position.py:61 | a case-swapped letter on the mirrored cell adds the opposite amount |
| Evaluation.EvalUpToRotate | classes/position.py:61 | the first n cells of the rotated board add the opposite of the last n cells of the original |
| Evaluation.EvalRotate | classes/position.py:58-64 | rotation negates the evaluation |
| Evaluation.RotateTracksEval | classes/position.py:58-64 | rotation, a null move included, negates the difference between the score and the evaluation |
| Evaluation.EvalUpToSame | classes/position.py:61 | boards whose cells contribute alike have the same partial sums |
| Evaluation.InitialEval | sunfish.py:17 | the evaluation of the starting board is pst['Q'][94] + pst['K'][95] - pst['Q'][95] - pst['K'][94] |
| Evaluation.EvalMovePiece | classes/position.py:75-76 | moving the mover's piece from i to j changes the evaluation by its table difference plus the table value of the opponent's piece captured on j |
| Evaluation.EvalMoveRook | classes/position.py:87-88 | moving the rook from its corner to an empty cell changes the evaluation by the rook's table difference |
| Evaluation.EvalPromote | classes/position.py:91-92 | turning the pawn on j into a piece of the mover changes the evaluation by the difference of their table values |
| Evaluation.EvalRemovePawn | classes/position.py:95-96 | removing the opponent's pawn adds its table value at the mirrored square |
| Evaluation.ValueParts | classes/position.py:100-121 | away from kp, the value of a move is the sum of the table changes of its board writes: piece, capture, castling rook, promotion and en-passant pawn |
| Evaluation.PlayedEvalPiece | classes/position.py:66-121 | for a regular non-pawn move, castling included, the board change changes the evaluation by exactly the move's value |
| Evaluation.PlayedEvalPawn | classes/position.py:66-121 | for a regular pawn move, promotion and en passant included, the board change changes the evaluation by exactly the move's value |
| Evaluation.PlayedEval | classes/position.py:66-121 | the board change of a regular move changes the evaluation by exactly its value |
| Evaluation.ScoreTracksEval | classes/position.py:66-98 | after a regular move, the difference between the score and the evaluation is the negation of what it was before |

## Left out

- `uci.py`, `sunfish.py` and `__init__.py`: the text protocol loop, clocks and start-up code are I/O; only their construction of the starting position is modelled (`Board.InitialPosition`).
- The searcher (`classes/searcher.py`) and the tunings module (`globals/tunings.py`) are not part of this model. `pst` is a parameter with no assumed values, and the mate bounds and search constants are left out.
- Perft counts: they depend on a king-capture legality filter in the searcher and on large enumerations.
- Characters are ASCII only. Python's `isupper`, `islower`, `isspace` and `swapcase` on other Unicode letters and spaces are not modelled.
- `Board.Value`, `Board.Played` and `Board.MakeMove` require `Playable`: indices in 0..119 (Python wraps negative indices and raises on larger ones), a one-letter promotion piece when a pawn reaches the last rank (Python raises `KeyError` on `pst[""]` first), and an en-passant capture whose square behind stays on the board.
- `pst` is total here. Python raises `KeyError` for a letter the table does not have.
- `Constants.Parse` returns `None` where Python raises (`IndexError` on a short string, `ValueError` on a non-digit rank). Characters after the second are ignored, as in Python.
- `MoveGen.GenMoves` returns the whole list, in the generator's order. Python's lazy, one-move-at-a-time generation is not modelled.
- `MoveGen.GenMoves` precondition `Wellformed`: every upper-case letter must have a ray table (Python raises `KeyError` on `directions[p]` otherwise), and the squares must be surrounded by whitespace padding. Without the padding a ray could leave the 120 cells: past index 119 Python raises `IndexError`, and below 0 a negative index wraps around and reads a cell from the other end of the board. Neither is modelled.
- The castling test runs on every ray of whatever sliding piece stands on A1 or H1, not only on the rook's horizontal ray. This is modelled as written.
- MoveGen.PromotionsComplete states that all four promotion pieces are generated for each promoting pawn move. It does not count how often each appears. Per ray, `MoveGen.RayUnfold` does give exactly the four moves.
- Evaluation.ScoreTracksEval covers only regular moves (`Evaluation.Regular`). It excludes the king-passant bonus, which scores a king that is no longer on the board, and a castling or en-passant move that finds something other than the rook or the pawn it expects.
- MoveGen.GeneratedMoveValid requires `KingHome`: while a castling right is held, every king of the mover stands on its first rank. The castling test runs on every ray of the corner piece, so without this a king elsewhere next to such a ray (a position no game reaches, since moving the king loses both rights) could be sent into the padding, and the successor would not be valid.
