/** The game controller (`ChessVar`): turn counter, game state and the checks of
    `make_move`, run in the source's order. */
module ChessVar {
  import opened Squares
  import opened Verdicts
  import opened Pieces
  import opened ChessBoard
  import opened RuleBook

  datatype GameState = Unfinished | WhiteWon | BlackWon

  /** The controller's state: the board, the turn counter (odd means White to move) and
      the game state. */
  datatype Game = Game(board: Board, turn: int, state: GameState)

  /** What `make_move` does with a request: accept it (True), reject it (False, with the
      reason the source prints), or raise an exception. */
  datatype MoveResult = Accepted | Rejected(reason: Reason) | Crashed

  /** A new game: the starting position, White to move, no winner. */
  function NewGame(): (g: Game)
    ensures WellFormed(g.board) && g.state == Unfinished && Mover(g.turn) == White
  {
    Game(InitialBoard(), 1, Unfinished)
  }

  function GetGameState(g: Game): GameState { g.state }

  function Mover(turn: int): Color { if turn % 2 != 0 then White else Black }

  /** Consecutive turns belong to different players. */
  lemma MoverAlternates(t: int)
    ensures Mover(t + 1) != Mover(t)
  {
  }

  function WinFor(c: Color): GameState { if c == White then WhiteWon else BlackWon }

  /** The board differs from b only in that the pawn on o lost its first-move flag. */
  predicate FlagCleared(b: Board, b': Board, o: int)
  {
    && o in b && b'.Keys == b.Keys
    && b[o].Occupied? && b[o].piece.kind == Pawn && b[o].piece.firstMove
    && b' == b[o := Occupied(b[o].piece.(firstMove := false))]
  }

  /** `make_move` from square o to square d. The square-name decoding of the source is
      left out: o and d are already square codes, and only their on-board test remains. */
  function MakeMove(g: Game, o: int, d: int): (r: (Game, MoveResult))
    requires WellFormed(g.board)
    ensures WellFormed(r.0.board)
    // once the game has a winner nothing is accepted and nothing changes
    ensures g.state != Unfinished ==> r == (g, Rejected(GameOver))
    // a refused or crashed request keeps turn and state; the board is unchanged unless a
    // check after the piece's own check refused the move, which leaves the piece on o
    // as that check returned it
    ensures r.1 != Accepted ==> r.0.turn == g.turn && r.0.state == g.state
    ensures r.1 != Accepted && r.0.board != g.board ==>
      && o in g.board && g.board[o].Occupied?
      && r.0.board == g.board[o := Occupied(Moved(g.board[o].piece))]
      && r.1 in {Rejected(PathBlocked), Rejected(DoubleKingLoss), Crashed}
    ensures r.1 == Accepted ==> r.0.turn == (if r.0.state == Unfinished then g.turn + 1 else g.turn)
    ensures r.1 == Accepted && r.0.state != Unfinished ==> r.0.state == WinFor(Mover(g.turn))
    // a game ends exactly when the victim or a piece blown off a neighbour is a king
    ensures r.1 == Accepted ==>
      (r.0.state != Unfinished <==> d in g.board && g.board[d].Occupied? && KingInBlast(g.board, o, d))
    // a move onto an empty square relocates the piece, which loses a pawn's first move
    ensures r.1 == Accepted && d in g.board && g.board[d].Empty? ==>
      && o in g.board && g.board[o].Occupied?
      && r.0.board == g.board[d := Occupied(Moved(g.board[o].piece))][o := Empty]
  {
    if g.state != Unfinished then (g, Rejected(GameOver))
    else if !OnBoard(o) then (g, Rejected(OriginOffBoard))
    else if !OnBoard(d) then (g, Rejected(DestinationOffBoard))
    else
      var b := g.board;
      match ValidateSelection(Mover(g.turn), b[o], b[d])
      case Fail(why) => (g, Rejected(why))
      case Pass =>
        match ValidatePieceMove(b[o].piece, b[d], o, d)
        case Invalid(why) => (g, Rejected(why))
        case Valid(moved) => Conclude(g, o, d, moved)
  }

  /** The rest of `make_move` once selection and the piece's own check have passed: the
      moved piece (a pawn without its first-move flag) is written back to the origin, then
      the path survey runs and the piece relocates onto an empty square or captures. */
  function Conclude(g: Game, o: int, d: int, moved: Piece): (r: (Game, MoveResult))
    requires WellFormed(g.board) && g.state == Unfinished && OnBoard(o) && OnBoard(d) && o != d
    requires g.board[o].Occupied? && moved == Moved(g.board[o].piece)
    ensures WellFormed(r.0.board)
    ensures r.1 != Accepted ==> r.0 == g.(board := g.board[o := Occupied(moved)])
    ensures r.1 != Accepted ==> r.1 in {Rejected(PathBlocked), Rejected(DoubleKingLoss), Crashed}
    ensures r.1 == Accepted ==> r.0.turn == (if r.0.state == Unfinished then g.turn + 1 else g.turn)
    ensures r.1 == Accepted && r.0.state != Unfinished ==> r.0.state == WinFor(Mover(g.turn))
    ensures r.1 == Accepted && g.board[d].Empty? ==>
      r.0.state == Unfinished && r.0.board == g.board[d := Occupied(moved)][o := Empty]
    ensures r.1 == Accepted && g.board[d].Occupied? ==>
      && Exploded(g.board, r.0.board, o, d)
      && (r.0.state != Unfinished <==> KingInBlast(g.board, o, d))
  {
    var b1 := g.board[o := Occupied(moved)];
    match SurveyPath(moved, o, d, b1)
    case Blocked => (g.(board := b1), Rejected(PathBlocked))
    case Crash => (g.(board := b1), Crashed)
    case _ =>
      if g.board[d].Empty? then
        (Game(MoveProcessor(b1, o, d), g.turn + 1, Unfinished), Accepted)
      else
        Capture(g, o, d, moved)
  }

  /** A king dies in a capture from o on d: the victim is a king, or a king stands on a
      neighbour of d other than the origin. */
  predicate KingInBlast(b: Board, o: int, d: int)
  {
    (d in b && IsKing(b[d])) || KingAmong(b, Neighbours(d) - {o})
  }

  /** The capture branch of `make_move`: the double-king check, then the explosion, then
      the winner (the mover, if any king died) or the next turn. */
  function Capture(g: Game, o: int, d: int, moved: Piece): (r: (Game, MoveResult))
    requires WellFormed(g.board) && g.state == Unfinished && OnBoard(o) && OnBoard(d) && o != d
    requires g.board[o].Occupied? && moved == Moved(g.board[o].piece) && g.board[d].Occupied?
    ensures WellFormed(r.0.board)
    ensures r.1 != Accepted ==> r == (g.(board := g.board[o := Occupied(moved)]), Rejected(DoubleKingLoss))
    // refused exactly when the victim's square and its neighbours hold two kings or more
    ensures r.1 == Accepted <==> |KingSquares(g.board, BlastSquares(d))| <= 1
    ensures r.1 == Accepted ==> Exploded(g.board, r.0.board, o, d)
    ensures r.1 == Accepted ==>
      && (r.0.state != Unfinished <==> KingInBlast(g.board, o, d))
      && r.0.turn == (if r.0.state == Unfinished then g.turn + 1 else g.turn)
      && (r.0.state != Unfinished ==> r.0.state == WinFor(Mover(g.turn)))
  {
    var b1 := g.board[o := Occupied(moved)];
    var victim := g.board[d].piece;
    WriteBackKeepsOccupancy(g.board, o, moved);
    BlastRadiusCountsBlastSquares(d, b1);
    KingSquaresReadOccupancy(g.board, b1, BlastSquares(d));
    if CheckBlastRadius(d, b1, victim).Fail? then
      (g.(board := b1), Rejected(DoubleKingLoss))
    else
      var (b2, kingDead) := ThingsGoBoom(b1, o, d);
      BoomExplodes(g.board, o, d, moved);
      KingAmongFrame(g.board, o, Occupied(moved), Neighbours(d) - {o});
      if kingDead || victim.kind == King then (Game(b2, g.turn, WinFor(Mover(g.turn))), Accepted)
      else (Game(b2, g.turn + 1, Unfinished), Accepted)
  }

  /** Once selection and the piece's own check pass, the rest of the request is `Conclude`. */
  lemma MakeMoveReachesConclude(g: Game, o: int, d: int)
    requires WellFormed(g.board) && g.state == Unfinished && OnBoard(o) && OnBoard(d)
    requires ValidateSelection(Mover(g.turn), g.board[o], g.board[d]) == Pass
    requires ValidatePieceMove(g.board[o].piece, g.board[d], o, d).Valid?
    ensures o != d && g.board[o].Occupied?
    ensures MakeMove(g, o, d) == Conclude(g, o, d, Moved(g.board[o].piece))
  {
  }

  /** A refused or crashed request keeps every piece where it was, with its kind and colour;
      if the board changed at all, the only change is a pawn's lost first-move flag. */
  lemma RefusalKeepsOccupancy(g: Game, o: int, d: int)
    requires WellFormed(g.board)
    ensures var r := MakeMove(g, o, d);
      r.1 != Accepted ==>
        && SameOccupancy(g.board, r.0.board)
        && (r.0.board != g.board ==> FlagCleared(g.board, r.0.board, o))
  {
    var r := MakeMove(g, o, d);
    if r.1 != Accepted && r.0.board != g.board {
      var p := g.board[o].piece;
      assert Moved(p) != p;
    }
  }

  /** The player to move changes exactly on an accepted move that does not end the game. */
  lemma TurnPassesExactly(g: Game, o: int, d: int)
    requires WellFormed(g.board)
    ensures var r := MakeMove(g, o, d);
      Mover(r.0.turn) != Mover(g.turn) <==> r.1 == Accepted && r.0.state == Unfinished
  {
    var r := MakeMove(g, o, d);
    TurnCounting(g.turn, r.0.turn, r.1 == Accepted && r.0.state == Unfinished);
  }

  lemma TurnCounting(t: int, t': int, passes: bool)
    requires t' == if passes then t + 1 else t
    ensures Mover(t') != Mover(t) <==> passes
  {
    MoverAlternates(t);
  }

  /** A move the engine's rules allow, restated by board geometry rather than by the
      displacement tables. This is not the full rule set of Atomic Chess: like the
      engine, it allows a capture that blows up the mover's own king. The game is
      running, the mover's own piece stands on o, d holds nothing of the mover's, the
      piece's move shape fits (a king never captures), nothing stands in between unless
      the piece is a knight, and a capture blows up at most one king. */
  ghost predicate LegalMove(g: Game, o: int, d: int)
  {
    var b := g.board;
    && g.state == Unfinished && OnBoard(o) && OnBoard(d) && o in b && d in b
    && b[o].Occupied? && b[o].piece.color == Mover(g.turn)
    && (b[d].Empty? || b[d].piece.color != Mover(g.turn))
    && Geometry(b[o].piece, b[d].Occupied?, o, d)
    && (b[o].piece.kind != Knight ==> PathEmpty(b, o, d))
    && (b[d].Occupied? ==> |KingSquares(b, BlastSquares(d))| <= 1)
  }

  /** A shape that fits a non-knight is a move along a file, rank or diagonal. */
  lemma GeometryIsLine(p: Piece, capture: bool, o: int, d: int)
    requires OnBoard(o) && OnBoard(d) && p.kind != Knight
    requires Geometry(p, capture, o, d)
    ensures Orthogonal(o, d) || Diagonal(o, d)
  {
    OnBoardIsFileAndRank(o);
    OnBoardIsFileAndRank(d);
  }

  /** Writing the moved piece back to the origin changes no square's occupancy. */
  lemma WriteBackKeepsOccupancy(b: Board, o: int, moved: Piece)
    requires o in b && b[o].Occupied?
    requires moved.kind == b[o].piece.kind && moved.color == b[o].piece.color
    ensures SameOccupancy(b, b[o := Occupied(moved)])
    ensures forall sq :: Vacant(b, sq) == Vacant(b[o := Occupied(moved)], sq)
  {
  }

  /** A request that reached the path survey passed every earlier check. */
  lemma PassedPieceCheck(g: Game, o: int, d: int)
    requires WellFormed(g.board)
    requires MakeMove(g, o, d).1 in {Accepted, Crashed, Rejected(PathBlocked), Rejected(DoubleKingLoss)}
    ensures g.state == Unfinished && OnBoard(o) && OnBoard(d) && o != d && g.board[o].Occupied?
    ensures ValidateSelection(Mover(g.turn), g.board[o], g.board[d]) == Pass
    ensures ValidatePieceMove(g.board[o].piece, g.board[d], o, d).Valid?
    ensures MakeMove(g, o, d) == Conclude(g, o, d, Moved(g.board[o].piece))
  {
  }

  /** The outcome of the second half of `make_move` in terms of the survey and the
      double-king check. */
  lemma ConcludeOutcome(g: Game, o: int, d: int, moved: Piece)
    requires WellFormed(g.board) && g.state == Unfinished && OnBoard(o) && OnBoard(d) && o != d
    requires g.board[o].Occupied? && moved == Moved(g.board[o].piece)
    ensures var r, b1 := Conclude(g, o, d, moved), g.board[o := Occupied(moved)];
      var survey := SurveyPath(moved, o, d, b1);
      && (r.1 == Crashed <==> survey == Crash)
      && (r.1 == Rejected(PathBlocked) <==> survey == Blocked)
      && (r.1 == Accepted <==>
            && (survey == Clear || survey == NotSurveyed)
            && (g.board[d].Occupied? ==> |KingSquares(g.board, BlastSquares(d))| <= 1))
  {
  }

  /** What the survey of a move that passed the piece's own check finds, in terms of
      the board geometry: a clear survey means a genuine move shape with nothing in the
      way, and an exception means a sliding delta that wraps around the board edge. */
  lemma SurveyMatchesGeometry(p: Piece, victim: Cell, o: int, d: int, b: Board)
    requires WellFormed(b) && OnBoard(o) && OnBoard(d)
    requires ValidatePieceMove(p, victim, o, d).Valid?
    ensures var survey := SurveyPath(p, o, d, b);
      && (survey == Clear || survey == NotSurveyed ==> Geometry(p, victim.Occupied?, o, d))
      && (Geometry(p, victim.Occupied?, o, d) && p.kind != Knight ==>
            survey == if PathEmpty(b, o, d) then Clear else Blocked)
      && (survey == Crash ==> Sliding(p.kind) && !Geometry(p, victim.Occupied?, o, d))
  {
    var survey := SurveyPath(p, o, d, b);
    if !Sliding(p.kind) {
      ShortTablesMatchGeometry(p, victim, o, d);
    } else if survey == Clear {
      SurveyClearMeansLine(p, victim, o, d, b);
    }
    if Geometry(p, victim.Occupied?, o, d) && p.kind != Knight {
      GeometryIsLine(p, victim.Occupied?, o, d);
      SurveyOnLine(p, o, d, b);
    }
  }

  /** The survey looks at the piece's kind only. */
  lemma SurveyReadsKind(p: Piece, q: Piece, o: int, d: int, b: Board)
    requires p.kind == q.kind
    ensures SurveyPath(p, o, d, b) == SurveyPath(q, o, d, b)
  {
  }

  /** Every accepted move is legal. */
  lemma AcceptedMoveIsLegal(g: Game, o: int, d: int)
    requires WellFormed(g.board)
    requires MakeMove(g, o, d).1 == Accepted
    ensures LegalMove(g, o, d)
  {
    PassedPieceCheck(g, o, d);
    var b := g.board;
    var p := b[o].piece;
    var moved := Moved(p);
    var b1 := b[o := Occupied(moved)];
    ConcludeOutcome(g, o, d, moved);
    SurveyReadsKind(p, moved, o, d, b1);
    SurveyMatchesGeometry(p, b[d], o, d, b1);
    WriteBackKeepsOccupancy(b, o, moved);
  }

  /** Every legal move is accepted. */
  lemma LegalMoveIsAccepted(g: Game, o: int, d: int)
    requires WellFormed(g.board)
    requires LegalMove(g, o, d)
    ensures MakeMove(g, o, d).1 == Accepted
  {
    var b := g.board;
    var p := b[o].piece;
    assert o != d;
    if Sliding(p.kind) {
      SlidingTablesCoverLines(p, b[d], o, d);
    } else {
      ShortTablesMatchGeometry(p, b[d], o, d);
    }
    MakeMoveReachesConclude(g, o, d);
    var moved := Moved(p);
    var b1 := b[o := Occupied(moved)];
    ConcludeOutcome(g, o, d, moved);
    SurveyReadsKind(p, moved, o, d, b1);
    SurveyMatchesGeometry(p, b[d], o, d, b1);
    WriteBackKeepsOccupancy(b, o, moved);
  }

  /** The source raises an exception only for a rook, bishop or queen whose displacement is
      in its table but wraps around the edge of the board; the game is then left as it was. */
  lemma CrashOnlyForWrappedSlides(g: Game, o: int, d: int)
    requires WellFormed(g.board)
    requires MakeMove(g, o, d).1 == Crashed
    ensures MakeMove(g, o, d).0 == g
    ensures OnBoard(o) && OnBoard(d) && g.board[o].Occupied? && Sliding(g.board[o].piece.kind)
    ensures !Geometry(g.board[o].piece, g.board[d].Occupied?, o, d)
  {
    PassedPieceCheck(g, o, d);
    var b := g.board;
    var p := b[o].piece;
    var moved := Moved(p);
    var b1 := b[o := Occupied(moved)];
    ConcludeOutcome(g, o, d, moved);
    SurveyReadsKind(p, moved, o, d, b1);
    SurveyMatchesGeometry(p, b[d], o, d, b1);
    assert b1 == b;
  }

  /** An accepted capture empties the destination and the origin and every neighbouring
      square that held a piece other than a pawn; every other square keeps its contents. */
  lemma CaptureExplodes(g: Game, o: int, d: int)
    requires WellFormed(g.board)
    requires MakeMove(g, o, d).1 == Accepted && d in g.board && g.board[d].Occupied?
    ensures Exploded(g.board, MakeMove(g, o, d).0.board, o, d)
  {
    PassedPieceCheck(g, o, d);
  }

  /** A king of colour c is on the board. Unlike `KingAmong`, this asks about one side
      and about the whole board rather than a set of squares. */
  predicate HasKing(b: Board, c: Color)
  {
    exists sq :: sq in b && IsKing(b[sq]) && b[sq].piece.color == c
  }

  /** No accepted move removes both kings from the board. */
  lemma AcceptedMoveSparesAKing(g: Game, o: int, d: int)
    requires WellFormed(g.board)
    requires MakeMove(g, o, d).1 == Accepted
    requires HasKing(g.board, White) && HasKing(g.board, Black)
    ensures var b' := MakeMove(g, o, d).0.board; HasKing(b', White) || HasKing(b', Black)
  {
    var b := g.board;
    var b' := MakeMove(g, o, d).0.board;
    AcceptedMoveIsLegal(g, o, d);
    if b[d].Empty? {
      RelocationKeepsKings(b, b', o, d);
    } else {
      CaptureExplodes(g, o, d);
      assert b[o].piece.kind != King;
      CaptureSparesAKing(b, b', o, d);
    }
  }

  lemma RelocationKeepsKings(b: Board, b': Board, o: int, d: int)
    requires o in b && d in b && o != d && b[o].Occupied? && b[d].Empty?
    requires b' == b[d := Occupied(Moved(b[o].piece))][o := Empty]
    ensures forall c :: HasKing(b, c) ==> HasKing(b', c)
  {
    forall c | HasKing(b, c) ensures HasKing(b', c) {
      var w :| w in b && IsKing(b[w]) && b[w].piece.color == c;
      if w == o {
        assert b'[d] == b[w];
      } else {
        assert b'[w] == b[w];
      }
    }
  }

  /** A capture whose blast squares hold at most one king leaves a king on the board. */
  lemma CaptureSparesAKing(b: Board, b': Board, o: int, d: int)
    requires o in b && d in b && o != d && b[o].Occupied? && b[o].piece.kind != King
    requires |KingSquares(b, BlastSquares(d))| <= 1
    requires Exploded(b, b', o, d)
    requires HasKing(b, White) && HasKing(b, Black)
    ensures HasKing(b', White) || HasKing(b', Black)
  {
    var w :| w in b && IsKing(b[w]) && b[w].piece.color == White;
    var k :| k in b && IsKing(b[k]) && b[k].piece.color == Black;
    if w !in BlastSquares(d) {
      assert b'[w] == b[w];
    } else if k !in BlastSquares(d) {
      assert b'[k] == b[k];
    } else {
      TwoKings(b, BlastSquares(d), w, k);
      assert false;
    }
  }

  lemma TwoKings(b: Board, S: set<int>, w: int, k: int)
    requires w in S && k in S && w != k && w in b && k in b && IsKing(b[w]) && IsKing(b[k])
    ensures |KingSquares(b, S)| >= 2
  {
    var kings := KingSquares(b, S);
    assert w in kings;
    var rest := kings - {w};
    assert k in rest;
    assert |rest| >= 1;
    assert kings == rest + {w};
  }
}
