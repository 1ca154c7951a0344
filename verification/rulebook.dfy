/** The general rules: whose piece may move where (`validate_selection`), whether the way
    is clear (`survey_path`) and whether a capture would blow up both kings
    (`check_blast_radius`). */
module RuleBook {
  import opened Squares
  import opened Verdicts
  import opened Pieces
  import opened ChessBoard

  /** `validate_selection`: the origin must hold one of the mover's pieces and the
      destination must not. */
  function ValidateSelection(player: Color, piece: Cell, victim: Cell): (r: Verdict)
    ensures r == Pass <==>
      piece.Occupied? && piece.piece.color == player && (victim.Empty? || victim.piece.color != player)
    ensures r.Fail? ==> r.reason in {NoPieceSelected, WrongOwner, FriendlyFire}
    ensures r == Fail(NoPieceSelected) <==> piece.Empty?
    ensures r == Fail(WrongOwner) <==> piece.Occupied? && piece.piece.color != player
  {
    if piece.Empty? then Fail(NoPieceSelected)
    else if player != piece.piece.color then Fail(WrongOwner)
    else if victim.Occupied? && piece.piece.color == victim.piece.color then Fail(FriendlyFire)
    else Pass
  }

  /** A move whose destination is its origin always fails selection. An empty origin or an
      opponent's piece fails the earlier tests; the mover's own piece fails the
      friendly-fire test, which then sees that piece on the destination. */
  lemma SelfTargetRejected(player: Color, c: Cell)
    ensures ValidateSelection(player, c, c).Fail?
    ensures c.Occupied? && c.piece.color == player ==> ValidateSelection(player, c, c) == Fail(FriendlyFire)
  {
  }

  /** What `survey_path` finds. Knights are not surveyed (the source returns None, which
      its caller treats as a pass); `Crash` is an exception raised in the source. */
  datatype PathResult = NotSurveyed | Clear | Blocked | Crash

  /** The stride of the survey, inferred from the nonzero move distance m: the first of 9,
      10, 11 that divides m, otherwise 1, with the sign of m (m // abs(m)). */
  function Step(m: int): (s: int)
    requires m != 0
    ensures s in {-11, -10, -9, -1, 1, 9, 10, 11}
    ensures s > 0 <==> m > 0
    // the stride divides the distance, and no candidate tried before it does
    ensures m % Abs(s) == 0
    ensures Abs(s) != 9 ==> m % 9 != 0
    ensures Abs(s) == 11 || Abs(s) == 1 ==> m % 10 != 0
    ensures Abs(s) == 1 ==> m % 11 != 0
  {
    var sign := if m > 0 then 1 else -1;
    if m % 9 == 0 then 9 * sign
    else if m % 10 == 0 then 10 * sign
    else if m % 11 == 0 then 11 * sign
    else sign
  }

  /** The loop over range(sq, stop, step): an off-board code raises, an occupied square
      blocks, running past the stop clears. */
  function Scan(b: Board, sq: int, stop: int, step: int): (r: PathResult)
    requires step != 0
    decreases if step > 0 then stop - sq else sq - stop
    ensures r != NotSurveyed
  {
    if (step > 0 && sq >= stop) || (step < 0 && sq <= stop) then Clear
    else if sq !in b then Crash
    else if b[sq].Occupied? then Blocked
    else Scan(b, sq + step, stop, step)
  }

  /** The scan reads occupancy only. */
  lemma ScanReadsOccupancy(b: Board, b': Board, sq: int, stop: int, step: int)
    requires SameOccupancy(b, b') && step != 0
    decreases if step > 0 then stop - sq else sq - stop
    ensures Scan(b, sq, stop, step) == Scan(b', sq, stop, step)
  {
    if (step > 0 && sq >= stop) || (step < 0 && sq <= stop) {
    } else if sq in b {
      ScanReadsOccupancy(b, b', sq + step, stop, step);
    }
  }

  /** `survey_path`: knights are not surveyed; every other piece scans the codes strictly
      between origin and destination with the inferred stride. A zero distance divides by
      zero in the source. */
  function SurveyPath(p: Piece, o: int, d: int, b: Board): (r: PathResult)
    ensures r == NotSurveyed <==> p.kind == Knight
  {
    if p.kind == Knight then NotSurveyed
    else if d == o then Crash
    else
      var s := Step(d - o);
      Scan(b, o + s, d, s)
  }

  /** Scanning m strides from sq inspects exactly Advance(sq, step, k) for k < m: it
      clears iff all of them are empty board squares, and cannot raise when all of them
      are on the board. */
  lemma {:induction false} ScanVisits(b: Board, sq: int, step: int, m: nat)
    requires step != 0
    decreases m
    ensures var r := Scan(b, sq, Advance(sq, step, m), step);
      && (r == Clear <==> forall k :: 0 <= k < m ==> Vacant(b, Advance(sq, step, k)))
      && ((forall k :: 0 <= k < m ==> Advance(sq, step, k) in b) ==> r != Crash)
  {
    var stop := Advance(sq, step, m);
    var next := sq + step;
    if m > 0 {
      forall k | 0 <= k < m - 1
        ensures Advance(next, step, k) == Advance(sq, step, k + 1)
      {
      }
      forall k | 0 < k < m
        ensures Advance(sq, step, k) == Advance(next, step, k - 1)
      {
      }
      assert stop == Advance(next, step, m - 1);
      if step > 0 {
        assert (m - 1) * step >= 0;
        assert sq < stop;
      } else {
        assert (m - 1) * step <= 0;
        assert sq > stop;
      }
      assert Advance(sq, step, 0) == sq;
      ScanVisits(b, next, step, m - 1);
      var r := Scan(b, sq, stop, step);
      var rest := Scan(b, next, stop, step);
      if forall k :: 0 <= k < m ==> Vacant(b, Advance(sq, step, k)) {
        assert Vacant(b, sq);
        forall k | 0 <= k < m - 1 ensures Vacant(b, Advance(next, step, k)) {
          assert Vacant(b, Advance(sq, step, k + 1));
        }
        assert r == rest;
      }
      if r == Clear {
        forall k | 0 <= k < m ensures Vacant(b, Advance(sq, step, k)) {
          if k > 0 {
            assert Vacant(b, Advance(next, step, k - 1));
          }
        }
      }
      if forall k :: 0 <= k < m ==> Advance(sq, step, k) in b {
        assert sq in b;
        forall k | 0 <= k < m - 1 ensures Advance(next, step, k) in b {
          assert Advance(sq, step, k + 1) in b;
        }
      }
    }
  }

  /** The squares strictly between o and d along their line are empty. */
  predicate PathEmpty(b: Board, o: int, d: int)
  {
    forall k :: 0 < k < Chebyshev(o, d) ==> Vacant(b, Along(o, d, k))
  }

  /** The stride inferred for a genuine line is its unit step. */
  lemma LineStep(df: int, dr: int)
    requires -7 <= df <= 7 && -7 <= dr <= 7 && (df != 0 || dr != 0)
    requires df == 0 || dr == 0 || Abs(df) == Abs(dr)
    ensures Step(Code(df, dr)) == Code(Sgn(df), Sgn(dr))
  {
    if df == 0 {
    } else if dr == 0 {
    } else if df == dr {
      assert Code(df, dr) == 11 * df;
    } else {
      assert Code(df, dr) == 9 * df;
    }
  }

  /** Every sliding-table delta is the displacement of some line of at most 7 squares:
      along a file or rank for rook deltas, along a diagonal for bishop deltas. */
  lemma TableLine(m: int) returns (df: int, dr: int)
    requires Signed(QueenTable, m)
    ensures m == Code(df, dr)
    ensures -7 <= df <= 7 && -7 <= dr <= 7 && (df != 0 || dr != 0)
    ensures Signed(RookTable, m) ==> df == 0 || dr == 0
    ensures Signed(BishopTable, m) ==> df != 0 && Abs(df) == Abs(dr)
  {
    var a := Abs(m);
    TableSign(m);
    if a in RookTable {
      df, dr := RookLine(a);
    } else {
      df, dr := BishopLine(a);
    }
    if m < 0 {
      df, dr := -df, -dr;
    }
  }

  /** The sliding tables list positive deltas only, and no delta is in both. */
  lemma TableSign(m: int)
    requires Signed(QueenTable, m)
    ensures Abs(m) in QueenTable
    ensures Signed(RookTable, m) <==> Abs(m) in RookTable
    ensures Signed(BishopTable, m) <==> Abs(m) in BishopTable
    ensures !(Abs(m) in RookTable && Abs(m) in BishopTable)
  {
  }

  lemma RookLine(a: int) returns (df: int, dr: int)
    requires a in RookTable
    ensures a == Code(df, dr) && 0 <= df <= 7 && 0 <= dr <= 7 && (df == 0) != (dr == 0)
  {
    if a <= 7 {
      df, dr := 0, a;
    } else {
      df, dr := a / 10, 0;
    }
  }

  lemma BishopLine(a: int) returns (df: int, dr: int)
    requires a in BishopTable
    ensures a == Code(df, dr) && 1 <= df <= 7 && -7 <= dr <= 7 && Abs(df) == Abs(dr)
  {
    if a % 11 == 0 {
      df, dr := a / 11, a / 11;
    } else {
      df, dr := a / 9, -(a / 9);
    }
  }

  /** Every sliding-table delta is 1 to 7 strides of the inferred step; rook deltas
      stride along files or ranks, bishop deltas along diagonals. */
  lemma SlideStrides(m: int) returns (n: int)
    requires Signed(QueenTable, m)
    ensures m != 0 && 1 <= n <= 7 && m == n * Step(m)
    ensures Signed(RookTable, m) ==> Step(m) in {-10, -1, 1, 10}
    ensures Signed(BishopTable, m) ==> Step(m) in {-11, -9, 9, 11}
  {
    var df, dr := TableLine(m);
    LineStep(df, dr);
    n := Max(Abs(df), Abs(dr));
    UnitStrides(Sgn(df), Sgn(dr), n);
  }

  /** A walk of unit steps that stays on the board moves the same number of files and
      ranks at every step: it cannot wrap around an edge. */
  lemma {:induction false} WalkStaysOnLine(o: int, s: int, n: nat)
    requires s in {-11, -10, -9, -1, 1, 9, 10, 11}
    requires forall k :: 0 <= k <= n ==> OnBoard(Advance(o, s, k))
    ensures File(Advance(o, s, n)) == File(o) + n * FileStep(s)
    ensures Rank(Advance(o, s, n)) == Rank(o) + n * RankStep(s)
  {
    if n > 0 {
      WalkStaysOnLine(o, s, n - 1);
      var a, c := Advance(o, s, n - 1), Advance(o, s, n);
      assert OnBoard(a) && OnBoard(c);
      AdvanceStep(o, s, n - 1);
      assert -1 <= RankStep(c - a) <= 1;
      ShortDisplacementDoesNotWrap(a, c);
      assert n * FileStep(s) == (n - 1) * FileStep(s) + FileStep(s);
      assert n * RankStep(s) == (n - 1) * RankStep(s) + RankStep(s);
    }
  }

  /** A clear survey of a sliding-table delta walks on board squares all the way. */
  lemma SurveyClearWalk(p: Piece, o: int, d: int, b: Board) returns (n: nat, s: int)
    requires WellFormed(b) && OnBoard(o) && OnBoard(d) && p.kind != Knight
    requires Signed(QueenTable, d - o)
    requires SurveyPath(p, o, d, b) == Clear
    ensures s == Step(d - o)
    ensures 1 <= n <= 7 && d == Advance(o, s, n)
    ensures forall k :: 0 <= k <= n ==> OnBoard(Advance(o, s, k))
  {
    var strides := SlideStrides(d - o);
    n := strides;
    s := SurveyStride(p, o, d, b);
    ClearScanStaysOnBoard(b, o, d, s, n);
  }

  /** The survey of a non-knight between distinct squares is the scan by the inferred
      stride from the first square after the origin. */
  lemma SurveyStride(p: Piece, o: int, d: int, b: Board) returns (s: int)
    requires p.kind != Knight && o != d
    ensures s == Step(d - o) && SurveyPath(p, o, d, b) == Scan(b, o + s, d, s)
  {
    s := Step(d - o);
  }

  /** A scan of n - 1 strides that comes back clear has looked up on-board codes only. */
  lemma ClearScanStaysOnBoard(b: Board, o: int, d: int, s: int, n: nat)
    requires WellFormed(b) && OnBoard(o) && OnBoard(d) && s != 0 && 1 <= n
    requires d - o == n * s && Scan(b, o + s, d, s) == Clear
    ensures d == Advance(o, s, n)
    ensures forall k :: 0 <= k <= n ==> OnBoard(Advance(o, s, k))
  {
    var next := o + s;
    assert d == Advance(o, s, n);
    AdvanceShift(o, s, n - 1);
    assert Advance(next, s, n - 1) == d;
    ScanVisits(b, next, s, n - 1);
    VacantWalkOnBoard(b, o, next, s, n);
  }

  lemma VacantWalkOnBoard(b: Board, o: int, next: int, s: int, n: nat)
    requires WellFormed(b) && OnBoard(o) && 1 <= n && OnBoard(Advance(o, s, n)) && next == o + s
    requires forall k :: 0 <= k < n - 1 ==> Vacant(b, Advance(next, s, k))
    ensures forall k :: 0 <= k <= n ==> OnBoard(Advance(o, s, k))
  {
    forall k | 0 <= k <= n
      ensures OnBoard(Advance(o, s, k))
    {
      if k == 0 {
        assert Advance(o, s, k) == o;
      } else if k < n {
        AdvanceShift(o, s, k - 1);
        assert Vacant(b, Advance(next, s, k - 1));
      }
    }
  }

  /** n strides of a unit step: along a file or rank for the rook steps, along a
      diagonal for the bishop steps. */
  lemma StridesShape(s: int, n: int)
    requires s in {-11, -10, -9, -1, 1, 9, 10, 11} && 1 <= n
    ensures s in {-10, -1, 1, 10} ==> (n * FileStep(s) == 0) != (n * RankStep(s) == 0)
    ensures s in {-11, -9, 9, 11} ==> n * FileStep(s) != 0 && Abs(n * FileStep(s)) == Abs(n * RankStep(s))
  {
    UnitStrides(FileStep(s), RankStep(s), n);
  }

  /** A rook, bishop or queen move that its table accepts and whose survey comes back
      clear is a genuine line of the board: the survey's off-board codes are what stops
      the wrapped deltas the tables let through. */
  lemma SurveyClearMeansLine(p: Piece, victim: Cell, o: int, d: int, b: Board)
    requires WellFormed(b) && OnBoard(o) && OnBoard(d) && Sliding(p.kind)
    requires ValidatePieceMove(p, victim, o, d).Valid?
    requires SurveyPath(p, o, d, b) == Clear
    ensures Geometry(p, victim.Occupied?, o, d)
  {
    var m := d - o;
    assert Signed(QueenTable, m);
    var _ := SlideStrides(m);
    var n, s := SurveyClearWalk(p, o, d, b);
    WalkStaysOnLine(o, s, n);
    StridesShape(s, n);
  }

  /** On a genuine line the survey strides by the line's unit step, inspects exactly the
      squares strictly between origin and destination, never raises, and blocks iff one
      of those squares is occupied. */
  lemma SurveyOnLine(p: Piece, o: int, d: int, b: Board)
    requires WellFormed(b) && OnBoard(o) && OnBoard(d) && p.kind != Knight
    requires Orthogonal(o, d) || Diagonal(o, d)
    ensures Step(d - o) == UnitStep(o, d)
    ensures SurveyPath(p, o, d, b) == if PathEmpty(b, o, d) then Clear else Blocked
  {
    LineHasUnitStep(o, d);
    var r := LineScan(o, d, b);
    assert SurveyPath(p, o, d, b) == r;
  }

  lemma LineHasUnitStep(o: int, d: int)
    requires OnBoard(o) && OnBoard(d)
    requires Orthogonal(o, d) || Diagonal(o, d)
    ensures d != o && Step(d - o) == UnitStep(o, d)
  {
    var df, dr := DisplacementOfSquares(o, d);
    assert df == 0 || dr == 0 || Abs(df) == Abs(dr);
    assert df != 0 || dr != 0;
    LineStep(df, dr);
    assert UnitStep(o, d) == Code(Sgn(df), Sgn(dr));
  }

  /** The scan from the first square after o towards d, with the line's unit step. */
  lemma LineScan(o: int, d: int, b: Board) returns (r: PathResult)
    requires WellFormed(b) && OnBoard(o) && OnBoard(d)
    requires Orthogonal(o, d) || Diagonal(o, d)
    ensures r == Scan(b, o + UnitStep(o, d), d, UnitStep(o, d))
    ensures r == if PathEmpty(b, o, d) then Clear else Blocked
  {
    var n, u, next := LineScanSquares(o, d);
    ScanVisits(b, next, u, n - 1);
    r := Scan(b, next, d, u);
    assert forall k :: 0 <= k < n - 1 ==> Advance(next, u, k) in b;
    if r == Clear {
      forall k | 0 < k < n ensures Vacant(b, Along(o, d, k)) {
        assert Vacant(b, Advance(next, u, k - 1));
      }
    }
    if PathEmpty(b, o, d) {
      forall k | 0 <= k < n - 1 ensures Vacant(b, Advance(next, u, k)) {
        assert Vacant(b, Along(o, d, k + 1));
      }
    }
  }

  /** The codes the line scan visits are the squares strictly between o and d. */
  lemma LineScanSquares(o: int, d: int) returns (n: nat, u: int, next: int)
    requires OnBoard(o) && OnBoard(d)
    requires Orthogonal(o, d) || Diagonal(o, d)
    ensures n == Chebyshev(o, d) && 1 <= n && u == UnitStep(o, d) && u != 0 && next == o + u
    ensures d == Advance(next, u, n - 1)
    ensures forall k :: 0 <= k < n - 1 ==> Advance(next, u, k) == Along(o, d, k + 1)
    ensures forall k :: 0 <= k < n - 1 ==> OnBoard(Advance(next, u, k))
    ensures forall k :: 0 < k < n ==> Along(o, d, k) == Advance(next, u, k - 1)
  {
    LineWalk(o, d);
    n := Chebyshev(o, d);
    u := UnitStep(o, d);
    next := o + u;
    assert u != 0;
    AdvanceShift(o, u, n - 1);
    forall k | 0 <= k < n - 1
      ensures Advance(next, u, k) == Along(o, d, k + 1) && OnBoard(Advance(next, u, k))
    {
      AdvanceShift(o, u, k);
    }
    forall k | 0 < k < n
      ensures Along(o, d, k) == Advance(next, u, k - 1)
    {
      AdvanceShift(o, u, k - 1);
    }
  }

  /** The king count of `check_blast_radius` over the offsets at positions i.. of the
      list: the number of on-board neighbours of d holding a king. */
  function KingsAround(b: Board, d: int, i: nat): (n: nat)
    requires WellFormed(b) && i <= |Offsets|
    decreases |Offsets| - i
    ensures n == |KingSquares(b, NeighboursFrom(d, i))|
  {
    if i == |Offsets| then 0
    else
      NeighboursFromStep(d, i);
      var v := d + Offsets[i];
      var here := if OnBoard(v) && IsKing(b[v]) then 1 else 0;
      var rest := KingSquares(b, NeighboursFrom(d, i + 1));
      KingSquaresOfUnion(b, if OnBoard(v) then {v} else {}, NeighboursFrom(d, i + 1));
      assert KingSquares(b, if OnBoard(v) then {v} else {}) == if here == 1 then {v} else {};
      assert v !in rest;
      here + KingsAround(b, d, i + 1)
  }

  lemma KingSquaresOfUnion(b: Board, A: set<int>, B: set<int>)
    ensures KingSquares(b, A + B) == KingSquares(b, A) + KingSquares(b, B)
  {
  }

  lemma KingSquaresReadOccupancy(b: Board, b': Board, S: set<int>)
    requires SameOccupancy(b, b')
    ensures KingSquares(b, S) == KingSquares(b', S)
  {
    forall sq | sq in S && sq in b
      ensures IsKing(b[sq]) == IsKing(b'[sq])
    {
    }
  }

  /** `check_blast_radius`: a capture on d fails when the victim and the neighbours of d
      hold more than one king between them. */
  function CheckBlastRadius(d: int, b: Board, victim: Piece): (r: Verdict)
    requires WellFormed(b)
    ensures r.Fail? ==> r.reason == DoubleKingLoss
    ensures r == Pass <==> (if victim.kind == King then 1 else 0) + |KingSquares(b, Neighbours(d))| <= 1
  {
    var kingCount := (if victim.kind == King then 1 else 0) + KingsAround(b, d, 0);
    if kingCount > 1 then Fail(DoubleKingLoss) else Pass
  }

  /** With the victim standing on d, the check fails exactly when the blast squares (d and
      its neighbours) hold more than one king. */
  lemma BlastRadiusCountsBlastSquares(d: int, b: Board)
    requires WellFormed(b) && OnBoard(d) && b[d].Occupied?
    ensures CheckBlastRadius(d, b, b[d].piece) == Pass
        <==> |KingSquares(b, BlastSquares(d))| <= 1
  {
    BlastKingCount(b, d);
  }

  /** The kings on the blast squares: the one on d, if any, and those around it. */
  lemma BlastKingCount(b: Board, d: int)
    requires d in b
    ensures |KingSquares(b, BlastSquares(d))|
         == (if IsKing(b[d]) then 1 else 0) + |KingSquares(b, Neighbours(d))|
  {
    assert d !in Neighbours(d);
    KingCountAdd(b, d, Neighbours(d));
  }

  lemma KingCountAdd(b: Board, d: int, S: set<int>)
    requires d in b && d !in S
    ensures |KingSquares(b, {d} + S)| == (if IsKing(b[d]) then 1 else 0) + |KingSquares(b, S)|
  {
    var all, rest := KingSquares(b, {d} + S), KingSquares(b, S);
    if IsKing(b[d]) {
      assert all == rest + {d};
    } else {
      assert all == rest;
    }
  }
}
