# Atomic Chess rule engine in Dafny

A model of the rule engine of `AtomicChess.py`, a two-player Atomic Chess game. In Atomic
Chess every capture is an explosion. The capturing piece, the captured piece and every
non-pawn on the eight surrounding squares leave the board. In this engine, when a capture
blows up any king, the capturing side wins, even if the king is its own. The model keeps
the source's conventions:

- a square is the integer code `10 * file + rank` (a1 = 11, h8 = 88);
- the turn counter starts at 1, and an odd counter means White is to move;
- each piece class checks its own move against a table of accepted code displacements.

The model is purely functional. A board is a map from the 64 square codes to cells, and
`make_move` is a function from a game state and two square codes to the next game state
and an outcome.

Modules, in dependency order:

- `Squares` (squares.dfy): square codes, the on-board filter of the blast loops, the
  eight neighbour offsets, and walks along files, ranks and diagonals.
- `Verdicts` (verdicts.dfy): the reasons a request is refused. The source prints a
  message for each one; the model returns the reason.
- `Pieces` (pieces.dfy): pieces as values (kind, colour, pawn first-move flag), the
  displacement tables of the six `validate_piece_move` methods, and a file-and-rank
  reference geometry to compare the tables with.
- `ChessBoard` (chessboard.dfy): the starting layout, `move_processor` and
  `things_go_boom`.
- `RuleBook` (rulebook.dfy): `validate_selection`, `survey_path` and `check_blast_radius`.
- `ChessVar` (chessvar.dfy): `get_game_state` as a read of the state field, and
  `make_move` as a state machine over (board, turn counter, game state), plus its global
  properties. An accepted move is exactly a move allowed by the engine's rules restated
  in files and ranks (`LegalMove`). A refused move changes at most one pawn's first-move
  flag. No accepted move removes both kings.
- `Traces` (traces.dfy): single requests on concrete positions, one for each behaviour
  worth seeing.

Behaviours of the code that the model keeps as written:

- **Pawn flag on refused moves.** A pawn's check clears its first-move flag as soon as
  the displacement is accepted. The path survey and the blast check run afterwards, so a
  double step refused there still uses up the pawn's first move. The model's piece check
  returns the updated piece, and `MakeMove` writes it back to the origin before the later
  checks (`Traces.BlockedDoubleStepSpendsFirstMove`).
- **Wrapped slides.** The rook, bishop and queen tables accept some displacements that
  wrap around the board edge, such as bishop a1 to c8 (delta 27). The survey walks the
  codes of that displacement with the inferred stride. If it meets an occupied square
  first, the request is refused as blocked: bishop a3 to f7 (delta 54, stride 9) stops
  at a piece on b2 before it reaches code 40 (`Traces.WrappedBishopBlocked`). Otherwise
  it looks up a code that is not a square, and Python raises an exception. The model
  returns the outcome `Crashed` with the game unchanged (`Traces.WrappedBishopCrashes`).
  For requests given as square codes, `ChessVar.CrashOnlyForWrappedSlides` shows that
  this is the only way `make_move` raises. Malformed square names such as `b02` can raise
  during decoding, which is outside the model (see "Left out").
- **Knights are not surveyed.** `survey_path` returns `None` for a knight, which the
  caller treats as a pass.
- **Moving onto the origin.** A request whose destination is its origin is always
  refused by `validate_selection`: an empty origin or an opponent's piece fails first,
  and the mover's own piece fails the friendly-fire test. This is why the survey's
  division by the move distance never sees zero.
- **The mover wins when any king dies.** A capture that kills any king, the mover's own
  included, wins the game for the mover (`Traces.OwnKingBlastWins`).

## Model

| member | source | states |
|---|---|---|
| Squares.OnBoardIsFileAndRank | AtomicChess.py:142 | the blast loops' filter (code in 11..88, last digit in 1..8) accepts exactly the codes of the 64 squares, and each is 10 * file + rank |
| Squares.NeighboursAreAdjacentSquares | AtomicChess.py:135-143 | the eight offsets plus the filter yield exactly the on-board squares at king-move distance 1 from an on-board square |
| Squares.NeighboursFromStep | AtomicChess.py:219-223 | each loop iteration adds the square of its offset, when on board, and no later offset reaches that square again |
| Pieces.ValidatePieceMove | AtomicChess.py:270-404 | a passing check returns the piece with a pawn's first-move flag cleared; a king aimed at an occupied square is refused as a king capture; every other refusal is an illegal move; a zero displacement is always refused |
| Pieces.ShortTablesMatchGeometry | AtomicChess.py:270-404 | for pawns, knights and kings, the table accepts a move between two squares exactly when the file-and-rank geometry allows it, so these deltas never wrap |
| Pieces.PawnTableMatchesGeometry | AtomicChess.py:270-305 | pawn deltas: one rank forward (two while the first move is unused) onto an empty square, one diagonal step forward onto an occupied square, with Black mirrored |
| Pieces.KnightTableMatchesGeometry | AtomicChess.py:335-343 | the knight table accepts exactly the L-shaped moves |
| Pieces.KingTableMatchesGeometry | AtomicChess.py:392-404 | the king accepts exactly the one-square moves onto empty squares |
| Pieces.SlidingTablesCoverLines | AtomicChess.py:316-381 | every rook, bishop and queen move along a genuine line is in that piece's table |
| Pieces.BishopTableAcceptsWrappedMove | AtomicChess.py:354-362 | the bishop table accepts a1 to c8 (delta 27), which is not a diagonal |
| ChessBoard.InitialBoard | AtomicChess.py:168-177 | the starting board has exactly the 64 squares as keys |
| ChessBoard.InitialBoardLayout | AtomicChess.py:168-177 | the starting position: White on ranks 1-2, Black on ranks 7-8, pawns on ranks 2 and 7 with their first move unused, and one king per side, on e1 and e8 |
| ChessBoard.InitialBackRanks | AtomicChess.py:169-176 | rank 1 holds White's rook, knight, bishop, queen, king, bishop, knight and rook on files a to h, and rank 8 holds Black's in the same order |
| ChessBoard.MoveProcessor | AtomicChess.py:207-211 | relocation puts the origin's cell on the destination and empties the origin; nothing else changes |
| ChessBoard.MoveProcessorUndo | AtomicChess.py:207-211 | relocating onto an empty square and back restores the board |
| ChessBoard.Sweep | AtomicChess.py:221-231 | from any loop position on, the remaining on-board neighbours holding a non-pawn are emptied and the rest keep their cells; the flag reports a king among those emptied |
| ChessBoard.ThingsGoBoom | AtomicChess.py:213-233 | the explosion empties destination and origin and every neighbour holding a non-pawn, keeps neighbouring pawns and all other squares, and reports whether a king stood on a neighbour other than the origin |
| ChessBoard.BoomExplodes | AtomicChess.py:213-233 | after the moved piece is written back, the explosion is the blast pattern relative to the board before the move |
| RuleBook.ValidateSelection | AtomicChess.py:97-109 | passes exactly when the origin holds the mover's piece and the destination holds none of the mover's; refuses an empty origin and an opponent's piece by name, and otherwise refuses as friendly fire |
| RuleBook.SelfTargetRejected | AtomicChess.py:97-109 | a request whose destination is its origin fails selection, and when the origin holds the mover's piece it fails as friendly fire |
| RuleBook.Step | AtomicChess.py:117-125 | the inferred stride is one of the eight unit offsets, has the sign of the distance, divides it, and no stride tried before it divides it |
| RuleBook.SurveyPath | AtomicChess.py:111-131 | the survey is skipped exactly for knights |
| RuleBook.ScanVisits | AtomicChess.py:126-129 | scanning m strides clears exactly when every visited code is an empty square, and cannot raise when every visited code is a square |
| RuleBook.ScanReadsOccupancy | AtomicChess.py:126-129 | the scan reads only which squares are occupied |
| RuleBook.SurveyOnLine | AtomicChess.py:111-131 | on a genuine line the stride is the line's unit step, and the survey clears when the squares strictly between are empty and blocks otherwise |
| RuleBook.SurveyClearMeansLine | AtomicChess.py:111-131 | a slide that its table accepts and whose survey clears lies on a genuine file, rank or diagonal |
| RuleBook.KingsAround | AtomicChess.py:140-149 | the loop's king count is the number of kings on the neighbours of the destination |
| RuleBook.CheckBlastRadius | AtomicChess.py:133-154 | passes exactly when the victim (if a king) and the kings on the neighbours number at most one; fails only for a double king loss |
| RuleBook.BlastRadiusCountsBlastSquares | AtomicChess.py:133-154 | with the victim on the destination, the check passes exactly when the destination and its neighbours hold at most one king |
| ChessVar.NewGame | AtomicChess.py:9-14 | a new game has the 64-square board, no winner, and White to move |
| ChessVar.MoverAlternates | AtomicChess.py:56-59 | consecutive turn counts belong to different players |
| ChessVar.MakeMove | AtomicChess.py:40-84 | a finished game refuses every request and keeps everything; refusals keep turn and state and change at most the origin piece's first-move flag; an accepted move passes the turn unless it ends the game, which it does exactly when a king dies in the blast, and then the mover wins; a move onto an empty square relocates the piece |
| ChessVar.Conclude | AtomicChess.py:63-84 | after the piece check, a refusal leaves the written-back piece on the board; an accepted relocation moves it; an accepted capture explodes the blast squares |
| ChessVar.Capture | AtomicChess.py:68-81 | a capture is accepted exactly when the blast squares hold at most one king; it then explodes the board, and the mover wins exactly when a king dies |
| ChessVar.MakeMoveReachesConclude | AtomicChess.py:61-65 | once selection and the piece check pass, the origin and destination differ and the rest of the request is the survey and its follow-up |
| ChessVar.PassedPieceCheck | AtomicChess.py:40-65 | a request that was accepted, crashed, or refused by the survey or the blast check passed every earlier check |
| ChessVar.ConcludeOutcome | AtomicChess.py:65-84 | the request crashes exactly when the survey raises, is blocked exactly when the survey blocks, and is accepted exactly when the survey passes and a capture blows up at most one king |
| ChessVar.RefusalKeepsOccupancy | AtomicChess.py:61-70 | a refused or crashed request keeps every piece's kind, colour and square; any change is a pawn's lost first-move flag on the origin |
| ChessVar.TurnPassesExactly | AtomicChess.py:73-84 | the player to move changes exactly on an accepted move that does not end the game |
| ChessVar.SurveyMatchesGeometry | AtomicChess.py:111-131 | for a move the piece check accepted, a passing survey means the move shape is genuine; on a genuine non-knight shape the survey blocks exactly when a square in between is occupied; a raising survey means a wrapped slide |
| ChessVar.AcceptedMoveIsLegal | AtomicChess.py:40-84 | every accepted request is a move the engine's geometric rules allow (`LegalMove`) |
| ChessVar.LegalMoveIsAccepted | AtomicChess.py:40-84 | every move the engine's geometric rules allow (`LegalMove`) is accepted |
| ChessVar.CrashOnlyForWrappedSlides | AtomicChess.py:126-127 | an exception arises only for a rook, bishop or queen whose move is not a genuine line, and the game is then unchanged |
| ChessVar.CaptureExplodes | AtomicChess.py:68-72 | an accepted capture leaves the board as the explosion pattern of the destination |
| ChessVar.WriteBackKeepsOccupancy | AtomicChess.py:283-285 | writing the checked piece back changes no square's occupancy |
| ChessVar.AcceptedMoveSparesAKing | AtomicChess.py:133-154 | when both kings are on the board, an accepted move leaves at least one of them |
| ChessVar.CaptureSparesAKing | AtomicChess.py:150-154 | an explosion whose blast squares hold at most one king leaves a king on the board |
| ChessVar.RelocationKeepsKings | AtomicChess.py:207-210 | relocating onto an empty square keeps every king on the board |
| Traces.OpeningDoubleStep | AtomicChess.py:408 | b2-b4 on the starting position is accepted, the pawn loses its first move, and Black is to move |
| Traces.OpeningKnightJump | AtomicChess.py:114-115 | b1-c3 is accepted although the same survey for any other piece would be blocked by the pawn on b2 |
| Traces.EmptyOriginRejected | AtomicChess.py:99-101 | e3-e4 on the starting position is refused as no piece selected |
| Traces.BlockedDoubleStepSpendsFirstMove | AtomicChess.py:283-285 | a double step blocked on the way is refused, yet the pawn's first-move flag is cleared |
| Traces.SpentFirstMoveRefusesDoubleStep | AtomicChess.py:289-305 | with the way cleared afterwards, that pawn's double step is refused as illegal |
| Traces.WrappedBishopCrashes | AtomicChess.py:126-127 | bishop a1-c8 raises at the survey and leaves the game unchanged |
| Traces.WrappedBishopBlocked | AtomicChess.py:126-129 | bishop a3-f7 (delta 54, not a diagonal) passes the bishop's table, and its stride-9 survey is refused as blocked by a piece on b2 before it reaches an off-board code |
| Traces.OwnKingBlastWins | AtomicChess.py:73-79 | White's capture on e2 blows up White's own king on e1, and White is declared the winner |
| Traces.FinishedGameRefusesMoves | AtomicChess.py:40-42 | after that win every request is refused and the game stays as it is |

## Left out

- Square names: `make_move` decodes names such as `b2` into codes (AtomicChess.py:44-52).
  The model takes the codes directly and keeps only the on-board test of each one.
- Console output: `print_board`, `get_icon`, the icon sets, the turn and winner messages,
  and every `print`. Each refusal message is represented by a `Reason` value.
- The demo script at the end of the file (AtomicChess.py:407-453). Its first move, b2-b4,
  is `Traces.OpeningDoubleStep`.
- Object identity: pieces are values, not shared objects. The flag change that the source
  makes through the shared pawn object is modelled by writing the updated piece back to
  the origin.
- Square-name errors: a name that passes the test at AtomicChess.py:44-49 but decodes to
  a code that is not a square (such as `b02`, code 20) raises at AtomicChess.py:54. The
  model starts from codes and refuses off-board ones, so it has no such crash.
- Exceptions: an exception raised inside `make_move` is the outcome `Crashed`. The caller
  would see the exception; the model returns the game unchanged.
- `get_type` and `get_color`: these are the `kind` and `color` fields of `Piece`.
- The zero-distance survey: `survey_path` divides by zero when the origin is the
  destination. `RuleBook.SurveyPath` returns `Crash` there. `make_move` never gets that
  far, because selection refuses such a request first.
