/** Square codes of the Atomic Chess board.

    A square is the integer 10 * file + rank with file and rank in 1..8, so a1 is 11,
    b2 is 22 and h8 is 88. The source extracts the rank as the last decimal digit of the
    code; for the two-digit codes it ever looks at that digit is `code % 10`. */
module Squares {

  function Abs(x: int): nat { if x < 0 then -x else x }

  function Sgn(x: int): int { if x > 0 then 1 else if x < 0 then -1 else 0 }

  function Max(a: int, b: int): int { if a < b then b else a }

  function File(sq: int): int { sq / 10 }

  function Rank(sq: int): int { sq % 10 }

  function Code(file: int, rank: int): int { 10 * file + rank }

  /** The on-board filter of the blast loops: the code lies in range(11, 89) and its last
      digit lies in range(1, 9). */
  predicate OnBoard(sq: int) { 11 <= sq < 89 && 1 <= sq % 10 < 9 }

  /** The filter accepts exactly the codes of the 64 squares (file, rank) in 1..8 x 1..8. */
  lemma OnBoardIsFileAndRank(sq: int)
    ensures OnBoard(sq) <==> 1 <= File(sq) <= 8 && 1 <= Rank(sq) <= 8
    ensures OnBoard(sq) ==> sq == Code(File(sq), Rank(sq))
  {
  }

  lemma CodeRoundTrip(file: int, rank: int)
    requires 1 <= rank <= 8
    ensures File(Code(file, rank)) == file && Rank(Code(file, rank)) == rank
    ensures OnBoard(Code(file, rank)) <==> 1 <= file <= 8
  {
  }

  /** Chebyshev (king-move) distance between two squares. */
  function Chebyshev(a: int, b: int): nat
  {
    Max(Abs(File(b) - File(a)), Abs(Rank(b) - Rank(a)))
  }

  /** Two distinct squares on a common file or rank. */
  predicate Orthogonal(o: int, d: int)
  {
    o != d && (File(o) == File(d) || Rank(o) == Rank(d))
  }

  /** Two distinct squares on a common diagonal. */
  predicate Diagonal(o: int, d: int)
  {
    o != d && Abs(File(d) - File(o)) == Abs(Rank(d) - Rank(o))
  }

  /** The file-and-rank split of a short displacement x = 10 * FileStep(x) + RankStep(x),
      with RankStep(x) in -5..4. */
  function FileStep(x: int): int { (x + 5) / 10 }

  function RankStep(x: int): int { x - 10 * FileStep(x) }

  /** A displacement between two on-board squares whose rank part is at most 2 in size
      cannot wrap around the edge of the board: it moves by exactly that many files and
      ranks. */
  lemma ShortDisplacementDoesNotWrap(o: int, d: int)
    requires OnBoard(o) && OnBoard(d)
    requires -2 <= RankStep(d - o) <= 2
    ensures File(d) - File(o) == FileStep(d - o)
    ensures Rank(d) - Rank(o) == RankStep(d - o)
  {
    OnBoardIsFileAndRank(o);
    OnBoardIsFileAndRank(d);
  }

  /** The displacement between two on-board squares, read back in files and ranks. */
  lemma DisplacementOfSquares(o: int, d: int) returns (df: int, dr: int)
    requires OnBoard(o) && OnBoard(d)
    ensures df == File(d) - File(o) && dr == Rank(d) - Rank(o)
    ensures d - o == Code(df, dr)
    ensures -7 <= df <= 7 && -7 <= dr <= 7
  {
    df, dr := File(d) - File(o), Rank(d) - Rank(o);
    OnBoardIsFileAndRank(o);
    OnBoardIsFileAndRank(d);
  }

  /** The eight offsets the blast loops add to a square. */
  const Offsets: seq<int> := [-11, -10, -9, -1, 1, 9, 10, 11]

  /** The on-board squares reached from d by the offsets at positions i.. of the list. */
  function NeighboursFrom(d: int, i: nat): set<int>
  {
    set j | i <= j < |Offsets| && OnBoard(d + Offsets[j]) :: d + Offsets[j]
  }

  /** The squares the blast loops visit around d. */
  function Neighbours(d: int): set<int>
  {
    NeighboursFrom(d, 0)
  }

  /** One loop iteration: the offset at position i contributes its square, if on board,
      and no later offset reaches that square again. */
  lemma NeighboursFromStep(d: int, i: nat)
    requires i < |Offsets|
    ensures NeighboursFrom(d, i)
         == (if OnBoard(d + Offsets[i]) then {d + Offsets[i]} else {}) + NeighboursFrom(d, i + 1)
    ensures d + Offsets[i] !in NeighboursFrom(d, i + 1)
  {
  }

  /** The offset filter yields exactly the on-board squares at Chebyshev distance 1. */
  lemma NeighboursAreAdjacentSquares(d: int)
    requires OnBoard(d)
    ensures forall s :: s in Neighbours(d) <==> OnBoard(s) && Chebyshev(d, s) == 1
  {
    forall s | s in Neighbours(d)
      ensures OnBoard(s) && Chebyshev(d, s) == 1
    {
      NeighbourIsAdjacent(d, s);
    }
    forall s | OnBoard(s) && Chebyshev(d, s) == 1
      ensures s in Neighbours(d)
    {
      AdjacentIsNeighbour(d, s);
    }
  }

  lemma NeighbourIsAdjacent(d: int, s: int)
    requires OnBoard(d) && s in Neighbours(d)
    ensures OnBoard(s) && Chebyshev(d, s) == 1
  {
    var j :| 0 <= j < |Offsets| && OnBoard(d + Offsets[j]) && s == d + Offsets[j];
    ShortDisplacementDoesNotWrap(d, s);
  }

  lemma AdjacentIsNeighbour(d: int, s: int)
    requires OnBoard(d) && OnBoard(s) && Chebyshev(d, s) == 1
    ensures s in Neighbours(d)
  {
    var df, dr := DisplacementOfSquares(d, s);
    var x := s - d;
    assert x in Offsets;
    var j :| 0 <= j < |Offsets| && Offsets[j] == x;
    assert s == d + Offsets[j];
  }

  /** The square k steps from o towards d, moving one file and/or one rank per step. */
  function Towards(from: int, to: int, k: int): int
  {
    if from < to then from + k else if to < from then from - k else from
  }

  function Along(o: int, d: int, k: int): int
  {
    Code(Towards(File(o), File(d), k), Towards(Rank(o), Rank(d), k))
  }

  /** The unit displacement from o towards d. */
  function UnitStep(o: int, d: int): int
  {
    Code(Sgn(File(d) - File(o)), Sgn(Rank(d) - Rank(o)))
  }

  /** k strides of a fixed displacement from sq. */
  function Advance(sq: int, step: int, k: int): int { sq + k * step }

  lemma AdvanceShift(sq: int, step: int, k: int)
    ensures Advance(sq + step, step, k) == Advance(sq, step, k + 1)
  {
    assert (k + 1) * step == k * step + step;
  }

  lemma AdvanceStep(sq: int, step: int, k: int)
    ensures Advance(sq, step, k + 1) == Advance(sq, step, k) + step
  {
    assert (k + 1) * step == k * step + step;
  }

  /** k strides of the unit vector (sf, sr) in square codes. */
  lemma UnitStrides(sf: int, sr: int, k: int)
    requires -1 <= sf <= 1 && -1 <= sr <= 1
    ensures k * Code(sf, sr) == Code(k * sf, k * sr)
    ensures k * sf == (if sf == 1 then k else if sf == -1 then -k else 0)
    ensures k * sr == (if sr == 1 then k else if sr == -1 then -k else 0)
  {
  }

  /** The file-and-rank form of a walk along a line of the board. */
  lemma TowardsOnLine(f0: int, r0: int, f1: int, r1: int, k: int)
    requires 1 <= f0 <= 8 && 1 <= r0 <= 8 && 1 <= f1 <= 8 && 1 <= r1 <= 8
    requires f0 == f1 || r0 == r1 || Abs(f1 - f0) == Abs(r1 - r0)
    requires 0 <= k <= Max(Abs(f1 - f0), Abs(r1 - r0))
    ensures 1 <= Towards(f0, f1, k) <= 8 && 1 <= Towards(r0, r1, k) <= 8
    ensures Towards(f0, f1, k) == f0 + k * Sgn(f1 - f0)
    ensures Towards(r0, r1, k) == r0 + k * Sgn(r1 - r0)
    ensures k == Max(Abs(f1 - f0), Abs(r1 - r0)) ==> Towards(f0, f1, k) == f1 && Towards(r0, r1, k) == r1
  {
    UnitStrides(Sgn(f1 - f0), Sgn(r1 - r0), k);
  }

  /** Walking from o towards d, a square on the same line or diagonal, visits on-board
      squares only, each one unit step further, and arrives after Chebyshev(o, d) steps. */
  lemma LineWalk(o: int, d: int)
    requires OnBoard(o) && OnBoard(d)
    requires Orthogonal(o, d) || Diagonal(o, d)
    ensures 1 <= Chebyshev(o, d) <= 7
    ensures d == Advance(o, UnitStep(o, d), Chebyshev(o, d))
    ensures forall k :: 0 <= k <= Chebyshev(o, d) ==>
      OnBoard(Along(o, d, k)) && Along(o, d, k) == Advance(o, UnitStep(o, d), k)
  {
    OnBoardIsFileAndRank(o);
    OnBoardIsFileAndRank(d);
    var f0, r0, f1, r1 := File(o), Rank(o), File(d), Rank(d);
    var n := Chebyshev(o, d);
    var sf, sr := Sgn(f1 - f0), Sgn(r1 - r0);
    forall k | 0 <= k <= n
      ensures OnBoard(Along(o, d, k)) && Along(o, d, k) == Advance(o, UnitStep(o, d), k)
    {
      TowardsOnLine(f0, r0, f1, r1, k);
      UnitStrides(sf, sr, k);
      CodeRoundTrip(Towards(f0, f1, k), Towards(r0, r1, k));
    }
    TowardsOnLine(f0, r0, f1, r1, n);
    assert Along(o, d, n) == d;
  }
}
