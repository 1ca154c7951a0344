/** The six piece kinds and their displacement tables (the `validate_piece_move` methods
    of the source's Pawn, Rook, Knight, Bishop, Queen and King classes). */
module Pieces {
  import opened Squares
  import opened Verdicts

  datatype Color = White | Black

  datatype Kind = Pawn | Rook | Knight | Bishop | Queen | King

  /** A piece as a value. `firstMove` is the pawn's first-move flag; the other kinds never
      read it. */
  datatype Piece = Piece(kind: Kind, color: Color, firstMove: bool)

  /** The contents of a square. */
  datatype Cell = Empty | Occupied(piece: Piece)

  /** A piece as the source constructs it: only pawns start with the first-move flag set. */
  function NewPiece(kind: Kind, color: Color): Piece
  {
    Piece(kind, color, kind == Pawn)
  }

  predicate IsKing(c: Cell) { c.Occupied? && c.piece.kind == King }

  /** A delta is accepted by a table when it or its negation is listed. */
  predicate Signed(table: set<int>, m: int) { m in table || -m in table }

  /** range(1, 8, 1) and range(10, 71, 10). */
  const RookTable: set<int> := {1, 2, 3, 4, 5, 6, 7, 10, 20, 30, 40, 50, 60, 70}

  const KnightTable: set<int> := {8, 12, 19, 21}

  /** range(11, 78, 11) and range(9, 64, 9). */
  const BishopTable: set<int> := {11, 22, 33, 44, 55, 66, 77, 9, 18, 27, 36, 45, 54, 63}

  const QueenTable: set<int> := BishopTable + RookTable

  const KingTable: set<int> := {1, 9, 10, 11}

  /** The pawn's deltas by colour, by whether the destination is occupied and by the
      first-move flag. */
  function PawnTable(color: Color, capture: bool, firstMove: bool): set<int>
  {
    if color == White then
      if capture then {11, -9} else if firstMove then {1, 2} else {1}
    else
      if capture then {-11, 9} else if firstMove then {-1, -2} else {-1}
  }

  /** Outcome of a piece's own move check: the piece as it is after the check (a pawn
      loses its first-move flag on success), or the reason for refusing. */
  datatype Validation = Valid(moved: Piece) | Invalid(reason: Reason)

  /** The piece after a successful check: a pawn has used up its first move. */
  function Moved(p: Piece): Piece
  {
    if p.kind == Pawn then p.(firstMove := false) else p
  }

  /** `validate_piece_move` of the piece p moving from o to d onto the cell `victim`. */
  function ValidatePieceMove(p: Piece, victim: Cell, o: int, d: int): (r: Validation)
    ensures r.Valid? ==> r.moved == Moved(p)
    ensures r.Invalid? ==> r.reason == (if p.kind == King && victim.Occupied? then KingCannotCapture else IllegalMove)
    ensures p.kind == King && victim.Occupied? ==> r.Invalid?
    ensures o == d ==> r.Invalid?
  {
    var m := d - o;
    match p.kind
    case Pawn =>
      if m in PawnTable(p.color, victim.Occupied?, p.firstMove) then Valid(p.(firstMove := false))
      else Invalid(IllegalMove)
    case Rook => if Signed(RookTable, m) then Valid(p) else Invalid(IllegalMove)
    case Knight => if Signed(KnightTable, m) then Valid(p) else Invalid(IllegalMove)
    case Bishop => if Signed(BishopTable, m) then Valid(p) else Invalid(IllegalMove)
    case Queen => if Signed(QueenTable, m) then Valid(p) else Invalid(IllegalMove)
    case King =>
      if victim.Occupied? then Invalid(KingCannotCapture)
      else if Signed(KingTable, m) then Valid(p)
      else Invalid(IllegalMove)
  }

  /** The rank direction a pawn of colour c advances in. */
  function Forward(c: Color): int { if c == White then 1 else -1 }

  /** The board geometry of a move of p from o to d, in files and ranks: the reference
      the displacement tables are compared with. */
  predicate Geometry(p: Piece, capture: bool, o: int, d: int)
  {
    var df, dr := File(d) - File(o), Rank(d) - Rank(o);
    match p.kind
    case Pawn =>
      if capture then Abs(df) == 1 && dr == Forward(p.color)
      else df == 0 && (dr == Forward(p.color) || (p.firstMove && dr == 2 * Forward(p.color)))
    case Knight => (Abs(df) == 1 && Abs(dr) == 2) || (Abs(df) == 2 && Abs(dr) == 1)
    case Bishop => Diagonal(o, d)
    case Rook => Orthogonal(o, d)
    case Queen => Diagonal(o, d) || Orthogonal(o, d)
    case King => !capture && Chebyshev(o, d) == 1
  }

  predicate Sliding(k: Kind) { k == Rook || k == Bishop || k == Queen }

  /** Pawn, knight and king deltas never wrap around the board edge: between on-board
      squares the table accepts a move exactly when the board geometry allows it. */
  lemma ShortTablesMatchGeometry(p: Piece, victim: Cell, o: int, d: int)
    requires OnBoard(o) && OnBoard(d)
    requires p.kind == Pawn || p.kind == Knight || p.kind == King
    ensures ValidatePieceMove(p, victim, o, d).Valid? <==> Geometry(p, victim.Occupied?, o, d)
  {
    if p.kind == Pawn {
      PawnTableMatchesGeometry(p, victim, o, d);
    } else if p.kind == Knight {
      KnightTableMatchesGeometry(p, victim, o, d);
    } else {
      KingTableMatchesGeometry(p, victim, o, d);
    }
  }

  lemma PawnTableMatchesGeometry(p: Piece, victim: Cell, o: int, d: int)
    requires OnBoard(o) && OnBoard(d) && p.kind == Pawn
    ensures ValidatePieceMove(p, victim, o, d).Valid? <==> Geometry(p, victim.Occupied?, o, d)
  {
    var df, dr := DisplacementOfSquares(o, d);
    PawnDeltas(p.color, victim.Occupied?, p.firstMove, df, dr);
  }

  lemma KnightTableMatchesGeometry(p: Piece, victim: Cell, o: int, d: int)
    requires OnBoard(o) && OnBoard(d) && p.kind == Knight
    ensures ValidatePieceMove(p, victim, o, d).Valid? <==> Geometry(p, victim.Occupied?, o, d)
  {
    var df, dr := DisplacementOfSquares(o, d);
    KnightDeltas(df, dr);
  }

  lemma KingTableMatchesGeometry(p: Piece, victim: Cell, o: int, d: int)
    requires OnBoard(o) && OnBoard(d) && p.kind == King
    ensures ValidatePieceMove(p, victim, o, d).Valid? <==> Geometry(p, victim.Occupied?, o, d)
  {
    var df, dr := DisplacementOfSquares(o, d);
    KingDeltas(df, dr);
    assert Chebyshev(o, d) == Max(Abs(df), Abs(dr));
  }

  /** The tables as facts about a displacement of df files and dr ranks. */
  lemma PawnDeltas(c: Color, capture: bool, firstMove: bool, df: int, dr: int)
    requires -7 <= df <= 7 && -7 <= dr <= 7
    ensures 10 * df + dr in PawnTable(c, capture, firstMove)
        <==> if capture then Abs(df) == 1 && dr == Forward(c)
             else df == 0 && (dr == Forward(c) || (firstMove && dr == 2 * Forward(c)))
  {
  }

  lemma KnightDeltas(df: int, dr: int)
    requires -7 <= df <= 7 && -7 <= dr <= 7
    ensures Signed(KnightTable, 10 * df + dr)
        <==> (Abs(df) == 1 && Abs(dr) == 2) || (Abs(df) == 2 && Abs(dr) == 1)
  {
  }

  lemma KingDeltas(df: int, dr: int)
    requires -7 <= df <= 7 && -7 <= dr <= 7
    ensures Signed(KingTable, 10 * df + dr) <==> Max(Abs(df), Abs(dr)) == 1
  {
  }

  /** Every genuine rook, bishop or queen line is in that piece's table. */
  lemma SlidingTablesCoverLines(p: Piece, victim: Cell, o: int, d: int)
    requires OnBoard(o) && OnBoard(d)
    requires Sliding(p.kind)
    requires Geometry(p, victim.Occupied?, o, d)
    ensures ValidatePieceMove(p, victim, o, d).Valid?
  {
    var df, dr := DisplacementOfSquares(o, d);
    LineDeltas(df, dr);
  }

  lemma LineDeltas(df: int, dr: int)
    requires -7 <= df <= 7 && -7 <= dr <= 7
    ensures (df == 0) != (dr == 0) ==> Signed(RookTable, 10 * df + dr)
    ensures df != 0 && Abs(df) == Abs(dr) ==> Signed(BishopTable, 10 * df + dr)
  {
  }

  /** The sliding tables also accept displacements that wrap around the board edge: a
      bishop from a1 (11) to c8 (38) is not on a diagonal, yet 27 is in range(9, 64, 9). */
  lemma BishopTableAcceptsWrappedMove(p: Piece)
    requires p.kind == Bishop
    ensures ValidatePieceMove(p, Empty, 11, 38).Valid?
    ensures !Geometry(p, false, 11, 38)
  {
  }
}
