/** Concrete games: single requests played on the starting position or on small
    hand-made positions, each with its outcome. */
module Traces {
  import opened Squares
  import opened Verdicts
  import opened Pieces
  import opened ChessBoard
  import opened RuleBook
  import opened ChessVar

  /** The board with no pieces on it. */
  function EmptyBoard(): (b: Board)
    ensures WellFormed(b)
    ensures forall sq :: sq in b ==> b[sq] == Empty
  {
    map sq | 11 <= sq < 89 && OnBoard(sq) :: Empty
  }

  /** Only the two kings, on e1 (51) and e8 (58). */
  function KingsOnly(): (b: Board)
    ensures WellFormed(b)
  {
    EmptyBoard()[51 := Occupied(NewPiece(King, White))][58 := Occupied(NewPiece(King, Black))]
  }

  /** The opening b2-b4: the pawn double-steps, loses its first-move flag and Black is
      to move. */
  lemma OpeningDoubleStep()
    ensures var (g, r) := MakeMove(NewGame(), 22, 24);
      && r == Accepted && g.turn == 2 && Mover(g.turn) == Black && g.state == Unfinished
      && g.board[24] == Occupied(Piece(Pawn, White, false)) && g.board[22] == Empty
  {
    InitialBoardLayout();
    var b := InitialBoard();
    assert b[22] == Occupied(NewPiece(Pawn, White));
    assert b[23] == Empty && b[24] == Empty;
  }

  /** b1-c3 on the starting position: the knight is accepted although the survey of any
      other piece over the same distance (12, stride 1) would stop at the pawn on b2. */
  lemma OpeningKnightJump()
    ensures var (g, r) := MakeMove(NewGame(), 21, 33);
      && r == Accepted && Mover(g.turn) == Black
      && g.board[33] == Occupied(NewPiece(Knight, White)) && g.board[21] == Empty
    ensures forall k :: k != Knight ==> SurveyPath(NewPiece(k, White), 21, 33, InitialBoard()) == Blocked
  {
    InitialBoardLayout();
    var b := InitialBoard();
    assert b[21] == Occupied(NewPiece(Knight, White));
    assert b[33] == Empty && b[22].Occupied?;
    assert Step(12) == 1;
  }

  /** e3-e4 on the starting position: nothing stands on e3. */
  lemma EmptyOriginRejected()
    ensures MakeMove(NewGame(), 53, 54) == (NewGame(), Rejected(NoPieceSelected))
  {
    var b := InitialBoard();
    assert b[53] == Empty;
  }

  /** The kings, a white pawn on c2 with its first move still available, and a white
      knight on c3. */
  function BlockedPawnGame(): Game
  {
    Game(KingsOnly()[32 := Occupied(NewPiece(Pawn, White))][33 := Occupied(NewPiece(Knight, White))],
         1, Unfinished)
  }

  /** c2-c4 blocked by the knight on c3: the request is refused, yet the pawn has lost its
      first-move flag. */
  lemma BlockedDoubleStepSpendsFirstMove()
    ensures var (g, r) := MakeMove(BlockedPawnGame(), 32, 34);
      && r == Rejected(PathBlocked) && g.turn == 1
      && g.board == BlockedPawnGame().board[32 := Occupied(Piece(Pawn, White, false))]
  {
    var g := BlockedPawnGame();
    var pawn := NewPiece(Pawn, White);
    assert g.board[32] == Occupied(pawn) && g.board[34] == Empty;
    assert ValidatePieceMove(pawn, Empty, 32, 34) == Valid(Moved(pawn));
    MakeMoveReachesConclude(g, 32, 34);
    DoubleStepBlocked(g.board[32 := Occupied(Moved(pawn))]);
  }

  lemma DoubleStepBlocked(b: Board)
    requires WellFormed(b) && b[33].Occupied?
    ensures SurveyPath(Piece(Pawn, White, false), 32, 34, b) == Blocked
  {
    assert Step(2) == 1;
  }

  /** Even with c3 cleared, c2-c4 is now refused: the pawn has no first move left. */
  lemma SpentFirstMoveRefusesDoubleStep()
    ensures var g := BlockedPawnGame();
      var g' := g.(board := g.board[32 := Occupied(Piece(Pawn, White, false))][33 := Empty]);
      MakeMove(g', 32, 34) == (g', Rejected(IllegalMove))
  {
  }

  /** The kings and a white bishop on a1. */
  function WrappedBishopGame(): Game
  {
    Game(KingsOnly()[11 := Occupied(NewPiece(Bishop, White))], 1, Unfinished)
  }

  /** a1-c8 by the bishop: the displacement 27 is in its table, so the survey strides by 9
      and looks up code 20, which is not a square; the source raises an exception. */
  lemma WrappedBishopCrashes()
    ensures MakeMove(WrappedBishopGame(), 11, 38) == (WrappedBishopGame(), Crashed)
  {
    var g := WrappedBishopGame();
    WrappedBishopReachesSurvey();
    assert g.board[11 := Occupied(NewPiece(Bishop, White))] == g.board;
    WrappedSurveyCrashes(g.board);
  }

  lemma WrappedBishopReachesSurvey()
    ensures var g, bishop := WrappedBishopGame(), NewPiece(Bishop, White);
      MakeMove(g, 11, 38) == Conclude(g, 11, 38, bishop)
  {
    var g := WrappedBishopGame();
    var bishop := NewPiece(Bishop, White);
    assert g.board[11] == Occupied(bishop) && g.board[38] == Empty;
    assert ValidatePieceMove(bishop, Empty, 11, 38) == Valid(bishop);
    MakeMoveReachesConclude(g, 11, 38);
  }

  /** The bishop's survey from a1 to c8 strides by 9 and first looks up code 20. */
  lemma WrappedSurveyCrashes(b: Board)
    requires WellFormed(b)
    ensures SurveyPath(NewPiece(Bishop, White), 11, 38, b) == Crash
  {
    assert Step(27) == 9;
    assert 20 !in b;
  }

  /** The kings, a white bishop on a3 and a white pawn on b2. */
  function WrappedBlockedGame(): Game
  {
    Game(KingsOnly()[13 := Occupied(NewPiece(Bishop, White))][22 := Occupied(NewPiece(Pawn, White))],
         1, Unfinished)
  }

  /** a3-f7 by the bishop: the displacement 54 is in its table although f7 is not on a
      diagonal through a3. The survey strides by 9 and meets the pawn on b2 before the
      off-board code 40, so the request is refused as blocked instead of raising. */
  lemma WrappedBishopBlocked()
    ensures MakeMove(WrappedBlockedGame(), 13, 67) == (WrappedBlockedGame(), Rejected(PathBlocked))
    ensures !Geometry(NewPiece(Bishop, White), false, 13, 67)
  {
    var g := WrappedBlockedGame();
    var bishop := NewPiece(Bishop, White);
    WrappedBlockedReachesSurvey();
    assert g.board[13 := Occupied(bishop)] == g.board;
    WrappedSurveyBlocked(g.board);
  }

  lemma WrappedBlockedReachesSurvey()
    ensures var g, bishop := WrappedBlockedGame(), NewPiece(Bishop, White);
      MakeMove(g, 13, 67) == Conclude(g, 13, 67, bishop)
  {
    var g := WrappedBlockedGame();
    assert g.board[13] == Occupied(NewPiece(Bishop, White));
    assert g.board[67] == Empty;
    BishopA3Selected(g.board);
  }

  /** With White's bishop on a3 and f7 empty, a3-f7 passes selection and the bishop's
      table, whatever else is on the board. */
  lemma BishopA3Selected(b: Board)
    requires WellFormed(b) && b[13] == Occupied(NewPiece(Bishop, White)) && b[67] == Empty
    ensures MakeMove(Game(b, 1, Unfinished), 13, 67)
         == Conclude(Game(b, 1, Unfinished), 13, 67, NewPiece(Bishop, White))
  {
    var bishop := NewPiece(Bishop, White);
    assert ValidatePieceMove(bishop, Empty, 13, 67) == Valid(bishop);
    MakeMoveReachesConclude(Game(b, 1, Unfinished), 13, 67);
  }

  /** The bishop's survey from a3 to f7 strides by 9 and first looks at b2. */
  lemma WrappedSurveyBlocked(b: Board)
    requires WellFormed(b) && b[22].Occupied?
    ensures SurveyPath(NewPiece(Bishop, White), 13, 67, b) == Blocked
  {
    assert Step(54) == 9;
  }

  /** The kings, a white rook on b2 and a black knight on e2. */
  function SuicideGame(): Game
  {
    Game(KingsOnly()[22 := Occupied(NewPiece(Rook, White))][52 := Occupied(NewPiece(Knight, Black))],
         1, Unfinished)
  }

  /** The rook captures the knight on e2. The blast takes the white king on e1 with it,
      the black king survives, and still White is declared the winner: the source awards
      the game to the mover whenever any king dies in the blast. */
  lemma OwnKingBlastWins()
    ensures var (g, r) := MakeMove(SuicideGame(), 22, 52);
      && r == Accepted && g.state == WhiteWon
      && g.board[51] == Empty && g.board[58] == Occupied(NewPiece(King, Black))
  {
    var g := SuicideGame();
    var rook := NewPiece(Rook, White);
    SuicideCaptureIsSurveyed();
    SuicideBlastPasses();
    SuicideCaptureWins();
    CaptureExplodes(g, 22, 52);
  }

  lemma SuicideCaptureWins()
    ensures Conclude(SuicideGame(), 22, 52, NewPiece(Rook, White)).1 == Accepted
    ensures Conclude(SuicideGame(), 22, 52, NewPiece(Rook, White)).0.state == WhiteWon
  {
    var g := SuicideGame();
    var rook := NewPiece(Rook, White);
    SuicideCaptureIsSurveyed();
    SuicideBlastPasses();
    var b1 := g.board[22 := Occupied(rook)];
    assert 51 in Neighbours(52) - {22} && IsKing(b1[51]);
    assert 51 in KingSquares(b1, Neighbours(52) - {22});
    var (b2, kingDead) := ThingsGoBoom(b1, 22, 52);
    assert kingDead;
  }

  lemma SuicideCaptureIsSurveyed()
    ensures var g, rook := SuicideGame(), NewPiece(Rook, White);
      && MakeMove(g, 22, 52) == Conclude(g, 22, 52, rook)
      && g.board[22 := Occupied(rook)] == g.board
      && SurveyPath(rook, 22, 52, g.board) == Clear
  {
    SuicideSelectionPasses();
    SuicideSurveyClear();
  }

  lemma SuicideSelectionPasses()
    ensures var g, rook := SuicideGame(), NewPiece(Rook, White);
      MakeMove(g, 22, 52) == Conclude(g, 22, 52, rook)
  {
    var g := SuicideGame();
    var b := g.board;
    var rook := NewPiece(Rook, White);
    assert b[22] == Occupied(rook) && b[52] == Occupied(NewPiece(Knight, Black));
    assert ValidatePieceMove(rook, b[52], 22, 52) == Valid(rook);
    MakeMoveReachesConclude(g, 22, 52);
  }

  lemma SuicideSurveyClear()
    ensures var b, rook := SuicideGame().board, NewPiece(Rook, White);
      b[22 := Occupied(rook)] == b && SurveyPath(rook, 22, 52, b) == Clear
  {
    RankTwoClear(SuicideGame().board);
  }

  /** The rook's survey from b2 to e2 inspects c2 and d2 only. */
  lemma RankTwoClear(b: Board)
    requires WellFormed(b) && Vacant(b, 32) && Vacant(b, 42)
    ensures SurveyPath(NewPiece(Rook, White), 22, 52, b) == Clear
  {
    assert Step(30) == 10;
  }

  lemma SuicideBlastPasses()
    ensures var b := SuicideGame().board;
      && CheckBlastRadius(52, b, NewPiece(Knight, Black)) == Pass
      && 51 in Neighbours(52) && IsKing(b[51])
      && 58 !in Neighbours(52) && b[58] == Occupied(NewPiece(King, Black))
  {
    var b := SuicideGame().board;
    KingsNextToE2();
    SuicideKings();
    assert KingSquares(b, Neighbours(52)) == {51};
  }

  /** e1 is next to e2, e8 is not. */
  lemma KingsNextToE2()
    ensures 51 in Neighbours(52) && 58 !in Neighbours(52)
  {
    NeighboursAreAdjacentSquares(52);
    assert Chebyshev(52, 51) == 1 && Chebyshev(52, 58) == 6;
  }

  lemma SuicideKings()
    ensures var b := SuicideGame().board;
      && IsKing(b[51]) && b[58] == Occupied(NewPiece(King, Black))
      && forall sq :: sq in b && IsKing(b[sq]) ==> sq == 51 || sq == 58
  {
  }

  /** Once a side has won, every request is refused and the game stays as it is. */
  lemma FinishedGameRefusesMoves(o: int, d: int)
    ensures var g := SuicideGame();
      var (g', _) := MakeMove(g, 22, 52);
      MakeMove(g', o, d) == (g', Rejected(GameOver))
  {
    OwnKingBlastWins();
  }
}
