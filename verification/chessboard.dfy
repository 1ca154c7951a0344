/** The board: the starting layout, plain relocation (`move_processor`) and the explosion
    of a capture (`things_go_boom`). */
module ChessBoard {
  import opened Squares
  import opened Pieces

  /** The board maps each of the 64 square codes to its contents. The source keeps one
      dictionary per rank and finds a code's dictionary from the code's last digit; that
      lookup succeeds exactly on the 64 codes, which is `sq in b` here. */
  type Board = map<int, Cell>

  ghost predicate WellFormed(b: Board)
  {
    forall sq :: sq in b <==> OnBoard(sq)
  }

  predicate Vacant(b: Board, sq: int) { sq in b && b[sq] == Empty }

  /** Two boards with the same pieces of the same kinds and colours on the same squares;
      only pawn first-move flags may differ. */
  predicate SameOccupancy(b: Board, b': Board)
  {
    && b.Keys == b'.Keys
    && forall sq :: sq in b ==>
         && b[sq].Occupied? == b'[sq].Occupied?
         && (b[sq].Occupied? ==>
              b[sq].piece.kind == b'[sq].piece.kind && b[sq].piece.color == b'[sq].piece.color)
  }

  /** The squares of S that hold a king. */
  function KingSquares(b: Board, S: set<int>): set<int>
  {
    set sq | sq in S && sq in b && IsKing(b[sq])
  }

  /** The back rank from file a to file h. */
  const BackRank: seq<Kind> := [Rook, Knight, Bishop, Queen, King, Bishop, Knight, Rook]

  function InitialCell(sq: int): Cell
    requires OnBoard(sq)
  {
    var f, r := File(sq), Rank(sq);
    if r == 1 then Occupied(NewPiece(BackRank[f - 1], White))
    else if r == 2 then Occupied(NewPiece(Pawn, White))
    else if r == 7 then Occupied(NewPiece(Pawn, Black))
    else if r == 8 then Occupied(NewPiece(BackRank[f - 1], Black))
    else Empty
  }

  /** The starting position. */
  function InitialBoard(): (b: Board)
    ensures WellFormed(b)
  {
    map sq | 11 <= sq < 89 && OnBoard(sq) :: InitialCell(sq)
  }

  /** The starting position holds White on ranks 1-2 and Black on ranks 7-8, pawns on
      ranks 2 and 7 with their first-move flag set, and exactly one king per side, on e1
      (51) and e8 (58). */
  lemma InitialBoardLayout()
    ensures var b := InitialBoard();
      && (forall sq :: sq in b ==> (b[sq].Occupied? <==> Rank(sq) in {1, 2, 7, 8}))
      && (forall sq :: sq in b && b[sq].Occupied? ==> (b[sq].piece.color == White <==> Rank(sq) <= 2))
      && (forall sq :: sq in b && b[sq].Occupied? ==>
            (b[sq].piece.kind == Pawn <==> Rank(sq) == 2 || Rank(sq) == 7))
      && (forall sq :: sq in b && b[sq].Occupied? ==>
            (b[sq].piece.firstMove <==> b[sq].piece.kind == Pawn))
      && KingSquares(b, b.Keys) == {51, 58}
      && b[51] == Occupied(NewPiece(King, White))
      && b[58] == Occupied(NewPiece(King, Black))
  {
    var b := InitialBoard();
    forall sq | sq in b && IsKing(b[sq])
      ensures sq == 51 || sq == 58
    {
      OnBoardIsFileAndRank(sq);
    }
    assert 51 in b && 58 in b;
  }

  /** Rooks on files a and h, knights on b and g, bishops on c and f, the queen on d and
      the king on e of the given rank, all of colour c. */
  predicate BackRankLayout(b: Board, rank: int, c: Color)
  {
    && Code(1, rank) in b && b[Code(1, rank)] == Occupied(NewPiece(Rook, c))
    && Code(2, rank) in b && b[Code(2, rank)] == Occupied(NewPiece(Knight, c))
    && Code(3, rank) in b && b[Code(3, rank)] == Occupied(NewPiece(Bishop, c))
    && Code(4, rank) in b && b[Code(4, rank)] == Occupied(NewPiece(Queen, c))
    && Code(5, rank) in b && b[Code(5, rank)] == Occupied(NewPiece(King, c))
    && Code(6, rank) in b && b[Code(6, rank)] == Occupied(NewPiece(Bishop, c))
    && Code(7, rank) in b && b[Code(7, rank)] == Occupied(NewPiece(Knight, c))
    && Code(8, rank) in b && b[Code(8, rank)] == Occupied(NewPiece(Rook, c))
  }

  /** The back ranks of the starting position, square by square. */
  lemma InitialBackRanks()
    ensures BackRankLayout(InitialBoard(), 1, White) && BackRankLayout(InitialBoard(), 8, Black)
  {
    InitialWhiteBackRank();
    InitialBlackBackRank();
  }

  lemma InitialWhiteBackRank()
    ensures BackRankLayout(InitialBoard(), 1, White)
  {
    InitialCellAt(11); InitialCellAt(21); InitialCellAt(31); InitialCellAt(41);
    InitialCellAt(51); InitialCellAt(61); InitialCellAt(71); InitialCellAt(81);
  }

  lemma InitialBlackBackRank()
    ensures BackRankLayout(InitialBoard(), 8, Black)
  {
    InitialCellAt(18); InitialCellAt(28); InitialCellAt(38); InitialCellAt(48);
    InitialCellAt(58); InitialCellAt(68); InitialCellAt(78); InitialCellAt(88);
  }

  lemma InitialCellAt(sq: int)
    requires OnBoard(sq)
    ensures sq in InitialBoard() && InitialBoard()[sq] == InitialCell(sq)
  {
  }

  /** `move_processor`: the origin's occupant moves to the destination and the origin is
      emptied; nothing else changes. */
  function MoveProcessor(b: Board, o: int, d: int): (r: Board)
    requires o in b && d in b
    ensures r.Keys == b.Keys
    ensures r[o] == Empty
    ensures o != d ==> r[d] == b[o]
    ensures forall sq :: sq in b && sq != o && sq != d ==> r[sq] == b[sq]
  {
    b[d := b[o]][o := Empty]
  }

  /** Relocating onto an empty square and back restores the board. */
  lemma MoveProcessorUndo(b: Board, o: int, d: int)
    requires o in b && d in b && o != d
    requires b[d] == Empty
    ensures MoveProcessor(MoveProcessor(b, o, d), d, o) == b
  {
    var r := MoveProcessor(MoveProcessor(b, o, d), d, o);
    assert forall sq :: sq in b ==> r[sq] == b[sq];
  }

  /** A cell the blast clears: anything but an empty square or a pawn. */
  predicate Explodes(c: Cell) { c.Occupied? && c.piece.kind != Pawn }

  /** The blast loop of `things_go_boom` from offset position i on: each on-board
      neighbour that holds a non-pawn is emptied, and the flag records a king among them. */
  function Sweep(b: Board, d: int, i: nat, kingDead: bool): (r: (Board, bool))
    requires WellFormed(b) && i <= |Offsets|
    decreases |Offsets| - i
    ensures WellFormed(r.0)
    ensures forall sq :: sq in b ==>
      r.0[sq] == (if sq in NeighboursFrom(d, i) && Explodes(b[sq]) then Empty else b[sq])
    ensures r.1 <==> kingDead || KingAmong(b, NeighboursFrom(d, i))
  {
    if i == |Offsets| then (b, kingDead)
    else
      NeighboursFromStep(d, i);
      var v := d + Offsets[i];
      KingAmongAdd(b, v, NeighboursFrom(d, i + 1));
      if !OnBoard(v) then Sweep(b, d, i + 1, kingDead)
      else if b[v] == Empty || b[v].piece.kind == Pawn then
        Sweep(b, d, i + 1, kingDead)
      else
        var b' := b[v := Empty];
        KingAmongFrame(b, v, Empty, NeighboursFrom(d, i + 1));
        Sweep(b', d, i + 1, kingDead || b[v].piece.kind == King)
  }

  /** Some square of S holds a king. */
  predicate KingAmong(b: Board, S: set<int>)
  {
    KingSquares(b, S) != {}
  }

  /** Adding one square to S adds a king exactly when that square holds one. */
  lemma KingAmongAdd(b: Board, v: int, S: set<int>)
    ensures KingAmong(b, {v} + S) <==> (v in b && IsKing(b[v])) || KingAmong(b, S)
    ensures KingAmong(b, {} + S) <==> KingAmong(b, S)
  {
    assert KingSquares(b, {v} + S)
        == (if v in b && IsKing(b[v]) then {v} else {}) + KingSquares(b, S);
    assert {} + S == S;
  }

  lemma KingAmongFrame(b: Board, v: int, c: Cell, S: set<int>)
    requires v !in S
    ensures KingAmong(b[v := c], S) == KingAmong(b, S)
  {
    assert KingSquares(b[v := c], S) == KingSquares(b, S);
  }

  /** `things_go_boom`: the capture empties the destination and the origin, then every
      neighbour of the destination that holds a non-pawn. The flag says whether a king
      was among the pieces blown off the neighbouring squares. */
  function ThingsGoBoom(b: Board, o: int, d: int): (r: (Board, bool))
    requires WellFormed(b) && OnBoard(o) && OnBoard(d)
    ensures WellFormed(r.0)
    ensures r.0[d] == Empty && r.0[o] == Empty
    ensures forall sq :: sq in Neighbours(d) && sq != o ==>
      r.0[sq] == (if Explodes(b[sq]) then Empty else b[sq])
    ensures forall sq :: sq in b && sq != o && sq != d && sq !in Neighbours(d) ==> r.0[sq] == b[sq]
    ensures r.1 <==> KingAmong(b, Neighbours(d) - {o})
  {
    var cleared := b[d := Empty][o := Empty];
    assert d !in Neighbours(d);
    Sweep(cleared, d, 0, false)
  }

  /** The squares a capture on d blows up: d itself and its neighbours. */
  function BlastSquares(d: int): set<int> { {d} + Neighbours(d) }

  /** b' is b after a capture from o on d: the origin, the destination and every
      neighbouring non-pawn are emptied, everything else stays. */
  ghost predicate Exploded(b: Board, b': Board, o: int, d: int)
    requires o in b && d in b
  {
    && b'.Keys == b.Keys && b'[o] == Empty && b'[d] == Empty
    && forall sq :: sq in b && sq != o && sq != d ==>
         b'[sq] == if sq in Neighbours(d) && Explodes(b[sq]) then Empty else b[sq]
  }

  /** The explosion after the moved piece was written back to the origin. */
  lemma BoomExplodes(b: Board, o: int, d: int, moved: Piece)
    requires WellFormed(b) && OnBoard(o) && OnBoard(d) && o != d
    ensures Exploded(b, ThingsGoBoom(b[o := Occupied(moved)], o, d).0, o, d)
  {
  }
}
