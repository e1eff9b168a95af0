/** Model of `Zeni::Matrix4f` (src/Zeni/Matrix4f.cpp): a 4x4 matrix stored
    row-major, with entries taken as `real` rather than `float`. */
module Matrix {
  import opened Results

  /** `m[r][c]` is the entry in row `r`, column `c` (`m_matrix[r][c]`). */
  type Matrix4 = m: seq<seq<real>> | |m| == 4 && forall i :: 0 <= i < 4 ==> |m[i]| == 4
    witness [[0.0, 0.0, 0.0, 0.0], [0.0, 0.0, 0.0, 0.0], [0.0, 0.0, 0.0, 0.0], [0.0, 0.0, 0.0, 0.0]]

  datatype MatrixError = NotImplemented

  /** Builds a matrix from 16 values listed row by row. */
  function FromRowMajor(a: seq<real>): (m: Matrix4)
    requires |a| == 16
    ensures forall r, c :: 0 <= r < 4 && 0 <= c < 4 ==> m[r][c] == a[4 * r + c]
  {
    seq(4, r requires 0 <= r < 4 => a[4 * r .. 4 * r + 4])
  }

  /** Lists the 16 entries row by row. */
  function ToRowMajor(m: Matrix4): (a: seq<real>)
    ensures |a| == 16
    ensures forall r, c :: 0 <= r < 4 && 0 <= c < 4 ==> a[4 * r + c] == m[r][c]
  {
    var a := m[0] + m[1] + m[2] + m[3];
    assert forall c :: 0 <= c < 4 ==> a[c] == m[0][c] && a[4 + c] == m[1][c] && a[8 + c] == m[2][c] && a[12 + c] == m[3][c];
    a
  }

  lemma {:induction false} RowMajorRoundTrip(m: Matrix4, a: seq<real>)
    requires |a| == 16
    ensures FromRowMajor(ToRowMajor(m)) == m
    ensures ToRowMajor(FromRowMajor(a)) == a
  {
    var m' := FromRowMajor(ToRowMajor(m));
    forall r | 0 <= r < 4
      ensures m'[r] == m[r]
    {
      assert forall c :: 0 <= c < 4 ==> m'[r][c] == m[r][c];
    }
    var a' := ToRowMajor(FromRowMajor(a));
    forall k | 0 <= k < 16
      ensures a'[k] == a[k]
    {
      assert a'[4 * (k / 4) + k % 4] == a[4 * (k / 4) + k % 4];
    }
  }

  /** The 16-argument constructor: arguments `a0 .. a3` (the source's `aw .. az`) fill row 0,
      `b0 .. b3` row 1, `c0 .. c3` row 2 and `d0 .. d3` row 3. */
  function Make(a0: real, a1: real, a2: real, a3: real,
                b0: real, b1: real, b2: real, b3: real,
                c0: real, c1: real, c2: real, c3: real,
                d0: real, d1: real, d2: real, d3: real): (m: Matrix4)
    ensures m[0] == [a0, a1, a2, a3]
    ensures m[1] == [b0, b1, b2, b3]
    ensures m[2] == [c0, c1, c2, c3]
    ensures m[3] == [d0, d1, d2, d3]
  {
    FromRowMajor([a0, a1, a2, a3, b0, b1, b2, b3, c0, c1, c2, c3, d0, d1, d2, d3])
  }

  function Identity(): (m: Matrix4)
    ensures forall r, c :: 0 <= r < 4 && 0 <= c < 4 ==> m[r][c] == if r == c then 1.0 else 0.0
  {
    [[1.0, 0.0, 0.0, 0.0], [0.0, 1.0, 0.0, 0.0], [0.0, 0.0, 1.0, 0.0], [0.0, 0.0, 0.0, 1.0]]
  }

  /** `transposed()`: a fresh matrix; the receiver is a value and stays as it was. */
  function Transposed(m: Matrix4): (t: Matrix4)
    ensures forall r, c :: 0 <= r < 4 && 0 <= c < 4 ==> t[r][c] == m[c][r]
  {
    seq(4, r requires 0 <= r < 4 => seq(4, c requires 0 <= c < 4 => m[c][r]))
  }

  lemma {:induction false} TransposedInvolution(m: Matrix4)
    ensures Transposed(Transposed(m)) == m
  {
    var t := Transposed(Transposed(m));
    forall r | 0 <= r < 4
      ensures t[r] == m[r]
    {
      assert forall c :: 0 <= c < 4 ==> t[r][c] == m[r][c];
    }
  }

  /** `transpose()`: the receiver's storage is the array `a`; the loop
      swaps each entry below the diagonal with its mirror image, exactly
      as the triangular loop of the source does, and the final contents
      are read back as the receiver's new value. */
  method Transpose(m: Matrix4) returns (r: Matrix4)
    ensures r == Transposed(m)
    ensures forall i :: 0 <= i < 4 ==> r[i][i] == m[i][i]
  {
    var a := new real[4, 4]((i, j) => if 0 <= i < 4 && 0 <= j < 4 then m[i][j] else 0.0);
    var i := 1;
    while i < 4
      invariant 1 <= i <= 4
      invariant forall p, q :: 0 <= p < 4 && 0 <= q < 4 ==>
        a[p, q] == (if (p < i && q < p) || (q < i && p < q) then m[q][p] else m[p][q])
    {
      var j := 0;
      while j < i
        invariant 0 <= j <= i
        invariant forall p, q :: 0 <= p < 4 && 0 <= q < 4 ==>
          a[p, q] == (if (p < i && q < p) || (q < i && p < q) || (p == i && q < j) || (q == i && p < j)
                      then m[q][p] else m[p][q])
      {
        var temp := a[i, j];
        a[i, j] := a[j, i];
        a[j, i] := temp;
        j := j + 1;
      }
      i := i + 1;
    }
    r := seq(4, p requires 0 <= p < 4 reads a => seq(4, q requires 0 <= q < 4 reads a => a[p, q]));
    forall p | 0 <= p < 4
      ensures r[p] == Transposed(m)[p]
    {
      assert forall q :: 0 <= q < 4 ==> r[p][q] == m[q][p];
    }
  }

  /** One product of the Leibniz expansion: the entries in column `a` of
      row 0, `b` of row 1, `c` of row 2 and `d` of row 3 (`term(a,b,c,d)`). */
  function Term(m: Matrix4, a: nat, b: nat, c: nat, d: nat): real
    requires a < 4 && b < 4 && c < 4 && d < 4
  {
    m[0][a] * m[1][b] * m[2][c] * m[3][d]
  }

  /** `determinant()` exactly as the source writes it, including the `+`
      in front of `term(0,3,2,1)`: it differs from the Leibniz determinant
      by twice that product, whose sign it gets wrong. */
  function DeterminantAsWritten(m: Matrix4): (r: real)
    ensures r == Leibniz(m) + 2.0 * Term(m, 0, 3, 2, 1)
  {
    LeibnizExpanded(m);
    Term(m, 0, 1, 2, 3) - Term(m, 0, 1, 3, 2)
    - Term(m, 0, 2, 1, 3) + Term(m, 0, 2, 3, 1)
    + Term(m, 0, 3, 1, 2) + Term(m, 0, 3, 2, 1)

    - Term(m, 1, 0, 2, 3) + Term(m, 1, 0, 3, 2)
    + Term(m, 1, 2, 0, 3) - Term(m, 1, 2, 3, 0)
    - Term(m, 1, 3, 0, 2) + Term(m, 1, 3, 2, 0)

    + Term(m, 2, 0, 1, 3) - Term(m, 2, 0, 3, 1)
    - Term(m, 2, 1, 0, 3) + Term(m, 2, 1, 3, 0)
    + Term(m, 2, 3, 0, 1) - Term(m, 2, 3, 1, 0)

    - Term(m, 3, 0, 1, 2) + Term(m, 3, 0, 2, 1)
    + Term(m, 3, 1, 0, 2) - Term(m, 3, 1, 2, 0)
    - Term(m, 3, 2, 0, 1) + Term(m, 3, 2, 1, 0)
  }

  /** The determinant with the sign of `term(0,3,2,1)` corrected to `-`:
      the Leibniz determinant. */
  function Determinant(m: Matrix4): (r: real)
    ensures r == Leibniz(m)
  {
    LeibnizExpanded(m);
    Term(m, 0, 1, 2, 3) - Term(m, 0, 1, 3, 2)
    - Term(m, 0, 2, 1, 3) + Term(m, 0, 2, 3, 1)
    + Term(m, 0, 3, 1, 2) - Term(m, 0, 3, 2, 1)

    - Term(m, 1, 0, 2, 3) + Term(m, 1, 0, 3, 2)
    + Term(m, 1, 2, 0, 3) - Term(m, 1, 2, 3, 0)
    - Term(m, 1, 3, 0, 2) + Term(m, 1, 3, 2, 0)

    + Term(m, 2, 0, 1, 3) - Term(m, 2, 0, 3, 1)
    - Term(m, 2, 1, 0, 3) + Term(m, 2, 1, 3, 0)
    + Term(m, 2, 3, 0, 1) - Term(m, 2, 3, 1, 0)

    - Term(m, 3, 0, 1, 2) + Term(m, 3, 0, 2, 1)
    + Term(m, 3, 1, 0, 2) - Term(m, 3, 1, 2, 0)
    - Term(m, 3, 2, 0, 1) + Term(m, 3, 2, 1, 0)
  }

  // ---------------------------------------------------------------------
  // Reference definition: the Leibniz formula, with each sign computed
  // from the parity of the permutation rather than written by hand.

  /** The columns a product picks in rows 0, 1, 2 and 3. */
  datatype Perm = Perm(a: nat, b: nat, c: nat, d: nat)

  predicate IsPermutation(p: Perm) {
    && p.a < 4 && p.b < 4 && p.c < 4 && p.d < 4
    && p.a != p.b && p.a != p.c && p.a != p.d
    && p.b != p.c && p.b != p.d && p.c != p.d
  }

  /** Number of pairs of rows that `p` puts out of order. */
  function Inversions(p: Perm): nat {
    (if p.a > p.b then 1 else 0) + (if p.a > p.c then 1 else 0) + (if p.a > p.d then 1 else 0)
    + (if p.b > p.c then 1 else 0) + (if p.b > p.d then 1 else 0) + (if p.c > p.d then 1 else 0)
  }

  predicate IsEven(p: Perm) {
    Inversions(p) % 2 == 0
  }

  /** The `k`-th of the 24 permutations of 0..3, in lexicographic order. */
  function PermutationAt(k: nat): (p: Perm)
    requires k < 24
    ensures IsPermutation(p)
  {
    if k == 0 then Perm(0, 1, 2, 3)
    else if k == 1 then Perm(0, 1, 3, 2)
    else if k == 2 then Perm(0, 2, 1, 3)
    else if k == 3 then Perm(0, 2, 3, 1)
    else if k == 4 then Perm(0, 3, 1, 2)
    else if k == 5 then Perm(0, 3, 2, 1)
    else if k == 6 then Perm(1, 0, 2, 3)
    else if k == 7 then Perm(1, 0, 3, 2)
    else if k == 8 then Perm(1, 2, 0, 3)
    else if k == 9 then Perm(1, 2, 3, 0)
    else if k == 10 then Perm(1, 3, 0, 2)
    else if k == 11 then Perm(1, 3, 2, 0)
    else if k == 12 then Perm(2, 0, 1, 3)
    else if k == 13 then Perm(2, 0, 3, 1)
    else if k == 14 then Perm(2, 1, 0, 3)
    else if k == 15 then Perm(2, 1, 3, 0)
    else if k == 16 then Perm(2, 3, 0, 1)
    else if k == 17 then Perm(2, 3, 1, 0)
    else if k == 18 then Perm(3, 0, 1, 2)
    else if k == 19 then Perm(3, 0, 2, 1)
    else if k == 20 then Perm(3, 1, 0, 2)
    else if k == 21 then Perm(3, 1, 2, 0)
    else if k == 22 then Perm(3, 2, 0, 1)
    else Perm(3, 2, 1, 0)
  }

  /** Position of a permutation in the enumeration: six per choice of
      row 0's column, two per choice of row 1's among the remaining three. */
  function Rank(p: Perm): nat
    requires IsPermutation(p)
  {
    6 * p.a + 2 * (p.b - (if p.b > p.a then 1 else 0)) + (if p.c > p.d then 1 else 0)
  }

  /** The enumeration is a bijection between 0..23 and the permutations:
      every permutation occurs, and at exactly one position. */
  lemma {:induction false} EnumerationIsBijective(p: Perm, k: nat)
    requires IsPermutation(p) && k < 24
    ensures Rank(p) < 24 && PermutationAt(Rank(p)) == p
    ensures Rank(PermutationAt(k)) == k
  {
    assert p.a == 0 || p.a == 1 || p.a == 2 || p.a == 3;
  }

  function SignedTerm(m: Matrix4, p: Perm): real
    requires IsPermutation(p)
  {
    if IsEven(p) then Term(m, p.a, p.b, p.c, p.d) else -Term(m, p.a, p.b, p.c, p.d)
  }

  /** The signed products of the six permutations `6 * a .. 6 * a + 5`,
      those that pick column `a` in row 0. */
  function LeibnizGroup(m: Matrix4, a: nat): real
    requires a < 4
  {
    SignedTerm(m, PermutationAt(6 * a)) + SignedTerm(m, PermutationAt(6 * a + 1))
    + SignedTerm(m, PermutationAt(6 * a + 2)) + SignedTerm(m, PermutationAt(6 * a + 3))
    + SignedTerm(m, PermutationAt(6 * a + 4)) + SignedTerm(m, PermutationAt(6 * a + 5))
  }

  /** The Leibniz determinant: over every permutation of 0..3 (each once,
      by `EnumerationIsBijective`), its product, negated when the
      permutation is odd. */
  function Leibniz(m: Matrix4): real {
    LeibnizGroup(m, 0) + LeibnizGroup(m, 1) + LeibnizGroup(m, 2) + LeibnizGroup(m, 3)
  }

  lemma LeibnizGroupZero(m: Matrix4)
    ensures LeibnizGroup(m, 0) ==
      Term(m, 0, 1, 2, 3) - Term(m, 0, 1, 3, 2) - Term(m, 0, 2, 1, 3)
      + Term(m, 0, 2, 3, 1) + Term(m, 0, 3, 1, 2) - Term(m, 0, 3, 2, 1)
  {
  }

  lemma LeibnizGroupOne(m: Matrix4)
    ensures LeibnizGroup(m, 1) ==
      - Term(m, 1, 0, 2, 3) + Term(m, 1, 0, 3, 2) + Term(m, 1, 2, 0, 3)
      - Term(m, 1, 2, 3, 0) - Term(m, 1, 3, 0, 2) + Term(m, 1, 3, 2, 0)
  {
  }

  lemma LeibnizGroupTwo(m: Matrix4)
    ensures LeibnizGroup(m, 2) ==
      Term(m, 2, 0, 1, 3) - Term(m, 2, 0, 3, 1) - Term(m, 2, 1, 0, 3)
      + Term(m, 2, 1, 3, 0) + Term(m, 2, 3, 0, 1) - Term(m, 2, 3, 1, 0)
  {
  }

  lemma LeibnizGroupThree(m: Matrix4)
    ensures LeibnizGroup(m, 3) ==
      - Term(m, 3, 0, 1, 2) + Term(m, 3, 0, 2, 1) + Term(m, 3, 1, 0, 2)
      - Term(m, 3, 1, 2, 0) - Term(m, 3, 2, 0, 1) + Term(m, 3, 2, 1, 0)
  {
  }

  /** Evaluates the reference sum into its 24 signed products. */
  lemma LeibnizExpanded(m: Matrix4)
    ensures Leibniz(m) ==
      Term(m, 0, 1, 2, 3) - Term(m, 0, 1, 3, 2) - Term(m, 0, 2, 1, 3) + Term(m, 0, 2, 3, 1)
      + Term(m, 0, 3, 1, 2) - Term(m, 0, 3, 2, 1) - Term(m, 1, 0, 2, 3) + Term(m, 1, 0, 3, 2)
      + Term(m, 1, 2, 0, 3) - Term(m, 1, 2, 3, 0) - Term(m, 1, 3, 0, 2) + Term(m, 1, 3, 2, 0)
      + Term(m, 2, 0, 1, 3) - Term(m, 2, 0, 3, 1) - Term(m, 2, 1, 0, 3) + Term(m, 2, 1, 3, 0)
      + Term(m, 2, 3, 0, 1) - Term(m, 2, 3, 1, 0) - Term(m, 3, 0, 1, 2) + Term(m, 3, 0, 2, 1)
      + Term(m, 3, 1, 0, 2) - Term(m, 3, 1, 2, 0) - Term(m, 3, 2, 0, 1) + Term(m, 3, 2, 1, 0)
  {
    LeibnizGroupZero(m);
    LeibnizGroupOne(m);
    LeibnizGroupTwo(m);
    LeibnizGroupThree(m);
  }

  /** The matrix with a 1 in row `r` at column `p`'s choice for `r`. */
  function PermutationMatrix(p: Perm): (m: Matrix4)
    requires IsPermutation(p)
  {
    Make(if p.a == 0 then 1.0 else 0.0, if p.a == 1 then 1.0 else 0.0, if p.a == 2 then 1.0 else 0.0, if p.a == 3 then 1.0 else 0.0,
         if p.b == 0 then 1.0 else 0.0, if p.b == 1 then 1.0 else 0.0, if p.b == 2 then 1.0 else 0.0, if p.b == 3 then 1.0 else 0.0,
         if p.c == 0 then 1.0 else 0.0, if p.c == 1 then 1.0 else 0.0, if p.c == 2 then 1.0 else 0.0, if p.c == 3 then 1.0 else 0.0,
         if p.d == 0 then 1.0 else 0.0, if p.d == 1 then 1.0 else 0.0, if p.d == 2 then 1.0 else 0.0, if p.d == 3 then 1.0 else 0.0)
  }

  /** On the permutation matrix of (0,3,2,1), a single transposition, the
      formula as written yields +1 where the Leibniz determinant is -1. */
  lemma SignDefectWitness()
    ensures DeterminantAsWritten(PermutationMatrix(Perm(0, 3, 2, 1))) == 1.0
    ensures Leibniz(PermutationMatrix(Perm(0, 3, 2, 1))) == -1.0
    ensures Determinant(PermutationMatrix(Perm(0, 3, 2, 1))) == -1.0
  {
    var m := PermutationMatrix(Perm(0, 3, 2, 1));
    assert m == [[1.0, 0.0, 0.0, 0.0], [0.0, 0.0, 0.0, 1.0], [0.0, 0.0, 1.0, 0.0], [0.0, 1.0, 0.0, 0.0]];
  }

  /** Both formulas give the identity matrix determinant 1. */
  lemma DeterminantOfIdentity()
    ensures Determinant(Identity()) == 1.0
    ensures DeterminantAsWritten(Identity()) == 1.0
    ensures Leibniz(Identity()) == 1.0
  {
    var m := Identity();
    IdentityTerms();
  }

  /** The only product of the identity that is not zero is the diagonal. */
  lemma IdentityTerms()
    ensures var m := Identity();
      && Term(m, 0, 1, 2, 3) == 1.0
      && Term(m, 0, 1, 3, 2) == 0.0 && Term(m, 0, 2, 1, 3) == 0.0 && Term(m, 0, 2, 3, 1) == 0.0
      && Term(m, 0, 3, 1, 2) == 0.0 && Term(m, 0, 3, 2, 1) == 0.0
      && Term(m, 1, 0, 2, 3) == 0.0 && Term(m, 1, 0, 3, 2) == 0.0 && Term(m, 1, 2, 0, 3) == 0.0
      && Term(m, 1, 2, 3, 0) == 0.0 && Term(m, 1, 3, 0, 2) == 0.0 && Term(m, 1, 3, 2, 0) == 0.0
      && Term(m, 2, 0, 1, 3) == 0.0 && Term(m, 2, 0, 3, 1) == 0.0 && Term(m, 2, 1, 0, 3) == 0.0
      && Term(m, 2, 1, 3, 0) == 0.0 && Term(m, 2, 3, 0, 1) == 0.0 && Term(m, 2, 3, 1, 0) == 0.0
      && Term(m, 3, 0, 1, 2) == 0.0 && Term(m, 3, 0, 2, 1) == 0.0 && Term(m, 3, 1, 0, 2) == 0.0
      && Term(m, 3, 1, 2, 0) == 0.0 && Term(m, 3, 2, 0, 1) == 0.0 && Term(m, 3, 2, 1, 0) == 0.0
  {
  }

  /** `inverted()` is not implemented: it always throws. */
  function Inverted(m: Matrix4): (r: Result<Matrix4, MatrixError>)
    ensures r.Failure? && r.error == NotImplemented
  {
    Failure(NotImplemented)
  }

  /** `invert()` assigns `inverted()` to the receiver; the throw comes first,
      so the receiver keeps its value and the error reaches the caller. */
  function Invert(m: Matrix4): (r: (Matrix4, Result<Matrix4, MatrixError>))
    ensures r.0 == m
    ensures r.1.Failure?
  {
    // The assignment to the receiver is never reached.
    (m, Inverted(m))
  }
}
