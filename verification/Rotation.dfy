/**
 Rotation matrices, over the reals: modified Gram-Schmidt, the sign fix, and the algebra the
 quantized attention relies on.  A matrix is the sequence of its columns; the square root is
 any function that is one on the numbers met.
 */
module Rotation {

  type Vector = seq<real>

  // ----- numbers -----

  function Times(x: real, y: real): real { x * y }

  lemma {:induction false} TimesLaws(x: real, y: real, z: real)
    ensures Times(x, y) == Times(y, x)
    ensures Times(x, y + z) == Times(x, y) + Times(x, z)
    ensures Times(x, Times(y, z)) == Times(Times(x, y), z) == Times(y, Times(x, z))
    ensures Times(x, 0.0) == 0.0 && Times(x, 1.0) == x && Times(-x, y) == -Times(x, y)
  {
  }

  lemma {:induction false} SquareLaw(x: real)
    ensures Times(x, x) >= 0.0
  {
  }

  // ----- vectors -----

  function Dot(a: Vector, b: Vector): real
    requires |a| == |b|
  {
    if a == [] then 0.0 else Dot(a[..|a| - 1], b[..|b| - 1]) + Times(a[|a| - 1], b[|b| - 1])
  }

  function Scale(s: real, a: Vector): (r: Vector)
    ensures |r| == |a|
  {
    seq(|a|, i requires 0 <= i < |a| => Times(s, a[i]))
  }

  function Add(a: Vector, b: Vector): (r: Vector)
    requires |a| == |b|
    ensures |r| == |a|
  {
    seq(|a|, i requires 0 <= i < |a| => a[i] + b[i])
  }

  function Zero(d: nat): (r: Vector)
    ensures |r| == d
  {
    seq(d, _ => 0.0)
  }

  lemma {:induction false} DotCommutes(a: Vector, b: Vector)
    requires |a| == |b|
    ensures Dot(a, b) == Dot(b, a)
  {
    hide Times;
    if a != [] {
      var n := |a| - 1;
      DotCommutes(a[..n], b[..n]);
      TimesLaws(a[n], b[n], 0.0);
    }
  }

  lemma {:induction false} DotScale(s: real, a: Vector, b: Vector)
    requires |a| == |b|
    ensures Dot(a, Scale(s, b)) == Times(s, Dot(a, b))
  {
    hide Times;
    if a == [] {
      TimesLaws(s, 0.0, 0.0);
    } else {
      var n := |a| - 1;
      DotScale(s, a[..n], b[..n]);
      assert Scale(s, b)[..n] == Scale(s, b[..n]);
      TimesLaws(s, Dot(a[..n], b[..n]), Times(a[n], b[n]));
      TimesLaws(a[n], s, b[n]);
    }
  }

  lemma {:induction false} DotAdd(a: Vector, b: Vector, c: Vector)
    requires |a| == |b| == |c|
    ensures Dot(a, Add(b, c)) == Dot(a, b) + Dot(a, c)
  {
    hide Times;
    if a != [] {
      var n := |a| - 1;
      DotAdd(a[..n], b[..n], c[..n]);
      assert Add(b, c)[..n] == Add(b[..n], c[..n]);
      TimesLaws(a[n], b[n], c[n]);
    }
  }

  lemma {:induction false} DotZero(a: Vector)
    ensures Dot(a, Zero(|a|)) == 0.0
  {
    hide Times;
    if a != [] {
      var n := |a| - 1;
      DotZero(a[..n]);
      assert Zero(|a|)[..n] == Zero(n);
      TimesLaws(a[n], 0.0, 0.0);
    }
  }

  lemma {:induction false} DotSelf(a: Vector)
    ensures Dot(a, a) >= 0.0
  {
    hide Times;
    if a != [] {
      DotSelf(a[..|a| - 1]);
      SquareLaw(a[|a| - 1]);
    }
  }

  // ----- modified Gram-Schmidt -----

  const NORM_GUARD: real := 0.000000000001

  /** A square root on the numbers that are not negative. */
  ghost predicate IsRoot(sqrt: real -> real) {
    forall x :: RootAt(sqrt, x)
  }

  predicate RootAt(sqrt: real -> real, x: real) {
    x >= 0.0 ==> sqrt(x) >= 0.0 && sqrt(x) * sqrt(x) == x
  }

  ghost predicate Columns(cols: seq<Vector>, d: nat) {
    forall i :: 0 <= i < |cols| ==> |cols[i]| == d
  }

  function Delta(i: nat, j: nat): real {
    if i == j then 1.0 else 0.0
  }

  /** Q^T Q = I. */
  ghost predicate Orthonormal(cols: seq<Vector>, d: nat) {
    Columns(cols, d) && forall i, j :: 0 <= i < |cols| && 0 <= j < |cols| ==> Dot(cols[i], cols[j]) == Delta(i, j)
  }

  /** The first n columns are orthonormal, and all columns from n on are orthogonal to them. */
  ghost predicate DoneUpTo(cols: seq<Vector>, d: nat, n: nat) {
    n <= |cols| && Columns(cols, d) &&
    forall i, j :: 0 <= i < n && 0 <= j < |cols| ==> Dot(cols[i], cols[j]) == if j < n then Delta(i, j) else 0.0
  }

  /** Column j without its component along column i. */
  function Deflected(ci: Vector, cj: Vector): (r: Vector)
    requires |ci| == |cj|
    ensures |r| == |cj|
  {
    Add(cj, Scale(-Dot(ci, cj), ci))
  }

  lemma {:induction false} DeflectedDot(a: Vector, ci: Vector, cj: Vector)
    requires |a| == |ci| == |cj|
    ensures Dot(a, Deflected(ci, cj)) == Dot(a, cj) - Times(Dot(ci, cj), Dot(a, ci))
  {
    hide Times, Dot, Add, Scale;
    var s := Dot(ci, cj);
    DotAdd(a, cj, Scale(-s, ci));
    DotScale(-s, a, ci);
    TimesLaws(s, Dot(a, ci), 0.0);
  }

  /** Column i divided by its norm. */
  function Normalized(c: Vector, norm: real): (r: Vector)
    requires norm > 0.0
    ensures |r| == |c|
  {
    Scale(1.0 / norm, c)
  }

  lemma {:induction false} UnitLength(c: Vector, norm: real)
    requires norm > 0.0 && Times(norm, norm) == Dot(c, c)
    ensures Dot(Normalized(c, norm), Normalized(c, norm)) == 1.0
  {
    hide Times, Dot, Scale;
    var k := 1.0 / norm;
    var u := Scale(k, c);
    DotScale(k, u, c);
    DotCommutes(u, c);
    DotScale(k, c, c);
    ReciprocalLaw(norm);
  }

  lemma {:induction false} ReciprocalLaw(x: real)
    requires x > 0.0
    ensures Times(1.0 / x, Times(1.0 / x, Times(x, x))) == 1.0
  {
    assert 1.0 / x * x == 1.0;
    assert 1.0 / x * (x * x) == x;
  }

  lemma {:induction false} NormalizedDot(a: Vector, c: Vector, norm: real)
    requires |a| == |c| && norm > 0.0 && Dot(a, c) == 0.0
    ensures Dot(a, Normalized(c, norm)) == 0.0
  {
    hide Times, Dot, Scale;
    DotScale(1.0 / norm, a, c);
    TimesLaws(1.0 / norm, 0.0, 0.0);
  }

  // ----- one column at a time -----

  /** Column i of unit length joins those done. */
  lemma {:induction false} NormalizeStep(cols: seq<Vector>, d: nat, i: nat, norm: real)
    requires DoneUpTo(cols, d, i) && i < |cols| && norm > 0.0 && Times(norm, norm) == Dot(cols[i], cols[i])
    ensures var cols' := cols[i := Normalized(cols[i], norm)];
            DoneUpTo(cols', d, i) && Dot(cols'[i], cols'[i]) == 1.0
  {
    hide Times, Dot, Normalized;
    var u := Normalized(cols[i], norm);
    var cols' := cols[i := u];
    UnitLength(cols[i], norm);
    forall a, b | 0 <= a < i && 0 <= b < |cols|
      ensures Dot(cols'[a], cols'[b]) == if b < i then Delta(a, b) else 0.0
    {
      if b == i { NormalizedDot(cols[a], cols[i], norm); }
    }
  }

  /** Columns from i + 1 to m have lost their component along column i. */
  ghost predicate Deflecting(cols: seq<Vector>, d: nat, i: nat, m: nat) {
    i < m <= |cols| && DoneUpTo(cols, d, i) && Dot(cols[i], cols[i]) == 1.0 &&
    forall j :: i < j < m ==> Dot(cols[i], cols[j]) == 0.0
  }

  lemma {:induction false} DeflectStep(cols: seq<Vector>, d: nat, i: nat, m: nat)
    requires Deflecting(cols, d, i, m) && m < |cols|
    ensures Deflecting(cols[m := Deflected(cols[i], cols[m])], d, i, m + 1)
  {
    hide Times, Dot, Deflected;
    var c := Deflected(cols[i], cols[m]);
    var cols' := cols[m := c];
    var s := Dot(cols[i], cols[m]);
    DeflectedDot(cols[i], cols[i], cols[m]);
    TimesLaws(s, 0.0, 0.0);
    forall a, b | 0 <= a < i && 0 <= b < |cols|
      ensures Dot(cols'[a], cols'[b]) == if b < i then Delta(a, b) else 0.0
    {
      if b == m {
        DeflectedDot(cols[a], cols[i], cols[m]);
        assert Dot(cols[a], cols[i]) == 0.0 && Dot(cols[a], cols[m]) == 0.0;
      }
    }
  }

  lemma {:induction false} DeflectEnd(cols: seq<Vector>, d: nat, i: nat)
    requires Deflecting(cols, d, i, |cols|)
    ensures DoneUpTo(cols, d, i + 1)
  {
    hide Dot;
    forall a, b | 0 <= a < i + 1 && 0 <= b < |cols|
      ensures Dot(cols[a], cols[b]) == if b < i + 1 then Delta(a, b) else 0.0
    {
      if a == i && b < i { DotCommutes(cols[i], cols[b]); }
    }
  }

  // ----- the whole algorithm -----

  function NormOf(sqrt: real -> real, c: Vector): real {
    sqrt(Dot(c, c))
  }

  /** Column i divided by its norm, unless that is too small. */
  function NormalizeAt(sqrt: real -> real, cols: seq<Vector>, i: nat): (r: seq<Vector>)
    requires i < |cols|
    ensures |r| == |cols| && forall k :: 0 <= k < |cols| ==> |r[k]| == |cols[k]| && (k != i ==> r[k] == cols[k])
  {
    if NormOf(sqrt, cols[i]) > NORM_GUARD then cols[i := Normalized(cols[i], NormOf(sqrt, cols[i]))] else cols
  }

  /** Columns from m on lose their component along column i. */
  function DeflectFrom(cols: seq<Vector>, d: nat, i: nat, m: nat): (r: seq<Vector>)
    requires Columns(cols, d) && i < m <= |cols|
    ensures |r| == |cols| && Columns(r, d) && forall k :: 0 <= k < m ==> r[k] == cols[k]
    decreases |cols| - m
  {
    if m == |cols| then cols else DeflectFrom(cols[m := Deflected(cols[i], cols[m])], d, i, m + 1)
  }

  function StepAt(sqrt: real -> real, cols: seq<Vector>, d: nat, i: nat): (r: seq<Vector>)
    requires Columns(cols, d) && i < |cols|
    ensures |r| == |cols| && Columns(r, d) && forall k :: 0 <= k < i ==> r[k] == cols[k]
  {
    DeflectFrom(NormalizeAt(sqrt, cols, i), d, i, i + 1)
  }

  /** The columns once the steps from i on have been made. */
  function RunFrom(sqrt: real -> real, cols: seq<Vector>, d: nat, i: nat): (r: seq<Vector>)
    requires Columns(cols, d) && i <= |cols|
    ensures |r| == |cols| && Columns(r, d) && forall k :: 0 <= k < i ==> r[k] == cols[k]
    decreases |cols| - i
  {
    if i == |cols| then cols else RunFrom(sqrt, StepAt(sqrt, cols, d, i), d, i + 1)
  }

  /** Every norm met from step i on exceeds the guard. */
  predicate NormsExceedGuard(sqrt: real -> real, cols: seq<Vector>, d: nat, i: nat)
    requires Columns(cols, d) && i <= |cols|
    decreases |cols| - i
  {
    i == |cols| || (NormOf(sqrt, cols[i]) > NORM_GUARD && NormsExceedGuard(sqrt, StepAt(sqrt, cols, d, i), d, i + 1))
  }

  /** A column of one number is divided by its size, unless that is at most 1e-12. */
  lemma {:induction false} OneNumber(sqrt: real -> real, x: real)
    requires IsRoot(sqrt)
    ensures NormsExceedGuard(sqrt, [[x]], 1, 0) <==> x > 0.000000000001 || x < -0.000000000001
    ensures RunFrom(sqrt, [[x]], 1, 0) ==
      [[if x > 0.000000000001 then 1.0 else if x < -0.000000000001 then -1.0 else x]]
  {
    hide Times, Normalized;
    var cols := [[x]];
    NormOfOne(sqrt, x);
    var n := NormOf(sqrt, cols[0]);
    var step := StepAt(sqrt, cols, 1, 0);
    assert step == NormalizeAt(sqrt, cols, 0);
    assert RunFrom(sqrt, cols, 1, 0) == RunFrom(sqrt, step, 1, 1) == step;
    if n > NORM_GUARD {
      SignOf(x, n);
      assert step == [Normalized([x], n)];
    }
  }

  lemma {:induction false} NormOfOne(sqrt: real -> real, x: real)
    requires IsRoot(sqrt)
    ensures NormOf(sqrt, [x]) == if x < 0.0 then -x else x
  {
    var square := Dot([x], [x]);
    assert Dot([x][..0], [x][..0]) == 0.0 && square == Times(x, x);
    SquareLaw(x);
    assert RootAt(sqrt, square);
    OneRoot(sqrt(square), if x < 0.0 then -x else x);
  }

  lemma {:induction false} SignOf(x: real, n: real)
    requires n > 0.0 && n == if x < 0.0 then -x else x
    ensures Normalized([x], n) == [if x > 0.0 then 1.0 else -1.0]
  {
    assert Times(1.0 / n, x) == if x > 0.0 then 1.0 else -1.0;
  }

  lemma {:induction false} OneRoot(a: real, b: real)
    requires a >= 0.0 && b >= 0.0 && a * a == b * b
    ensures a == b
  {
    if a < b { Larger(a, b); }
    if b < a { Larger(b, a); }
  }

  lemma {:induction false} Larger(a: real, b: real)
    requires 0.0 <= a < b
    ensures a * a < b * b
  {
    var d := b - a;
    assert b * b == a * a + 2.0 * (a * d) + d * d;
    assert d * d > 0.0 && a * d >= 0.0;
  }

  lemma {:induction false} DeflectAll(cols: seq<Vector>, d: nat, i: nat, m: nat)
    requires Deflecting(cols, d, i, m) && Columns(cols, d)
    ensures DoneUpTo(DeflectFrom(cols, d, i, m), d, i + 1)
    decreases |cols| - m
  {
    hide Deflecting, DoneUpTo, Deflected;
    DeflectingFits(cols, d, i, m);
    if m == |cols| {
      DeflectEnd(cols, d, i);
    } else {
      DeflectStep(cols, d, i, m);
      DeflectAll(cols[m := Deflected(cols[i], cols[m])], d, i, m + 1);
    }
  }

  lemma {:induction false} DeflectingFits(cols: seq<Vector>, d: nat, i: nat, m: nat)
    requires Deflecting(cols, d, i, m)
    ensures i < m <= |cols|
  {
  }

  lemma {:induction false} StepDone(sqrt: real -> real, cols: seq<Vector>, d: nat, i: nat)
    requires IsRoot(sqrt) && DoneUpTo(cols, d, i) && Columns(cols, d) && i < |cols| &&
             NormOf(sqrt, cols[i]) > NORM_GUARD
    ensures DoneUpTo(StepAt(sqrt, cols, d, i), d, i + 1)
  {
    hide Dot, Times, Normalized, DoneUpTo, DeflectFrom, Deflected;
    var norm := NormOf(sqrt, cols[i]);
    DotSelf(cols[i]);
    RootSquares(sqrt, Dot(cols[i], cols[i]));
    NormalizeStep(cols, d, i, norm);
    DeflectingStart(NormalizeAt(sqrt, cols, i), d, i);
    DeflectAll(NormalizeAt(sqrt, cols, i), d, i, i + 1);
  }

  lemma {:induction false} DeflectingStart(cols: seq<Vector>, d: nat, i: nat)
    requires DoneUpTo(cols, d, i) && i < |cols| && Columns(cols, d) && Dot(cols[i], cols[i]) == 1.0
    ensures Deflecting(cols, d, i, i + 1)
  {
  }

  lemma {:induction false} RootSquares(sqrt: real -> real, x: real)
    requires IsRoot(sqrt) && x >= 0.0
    ensures sqrt(x) >= 0.0 && Times(sqrt(x), sqrt(x)) == x
  {
    assert RootAt(sqrt, x);
  }

  lemma {:induction false} ShortColumn(sqrt: real -> real, c: Vector)
    requires IsRoot(sqrt) && NormOf(sqrt, c) <= NORM_GUARD
    ensures Dot(c, c) < 1.0
  {
    hide Dot, Times;
    DotSelf(c);
    RootSquares(sqrt, Dot(c, c));
    SmallSquare(NormOf(sqrt, c));
  }

  lemma {:induction false} SmallSquare(n: real)
    requires 0.0 <= n <= NORM_GUARD
    ensures Times(n, n) < 1.0
  {
    NotNegative(n, 1.0 - n);
  }

  lemma {:induction false} NotNegative(x: real, y: real)
    requires x >= 0.0 && y >= 0.0
    ensures x * y >= 0.0
  {
  }

  /** From columns done up to i the run ends orthonormal iff every norm it meets exceeds the guard. */
  lemma {:induction false} RunOrthonormal(sqrt: real -> real, cols: seq<Vector>, d: nat, i: nat)
    requires IsRoot(sqrt) && DoneUpTo(cols, d, i) && Columns(cols, d) && i <= |cols|
    ensures Orthonormal(RunFrom(sqrt, cols, d, i), d) <==> NormsExceedGuard(sqrt, cols, d, i)
    decreases |cols| - i
  {
    hide Dot, DoneUpTo, Orthonormal, StepAt, NormOf, IsRoot;
    if i == |cols| {
      AllDone(cols, d);
    } else if NormOf(sqrt, cols[i]) > NORM_GUARD {
      StepDone(sqrt, cols, d, i);
      RunOrthonormal(sqrt, StepAt(sqrt, cols, d, i), d, i + 1);
    } else {
      ShortColumn(sqrt, cols[i]);
      ShortStays(sqrt, cols, d, i);
      NotUnit(RunFrom(sqrt, cols, d, i), d, i);
    }
  }

  lemma {:induction false} AllDone(cols: seq<Vector>, d: nat)
    requires DoneUpTo(cols, d, |cols|)
    ensures Orthonormal(cols, d)
  {
  }

  lemma {:induction false} ShortStays(sqrt: real -> real, cols: seq<Vector>, d: nat, i: nat)
    requires Columns(cols, d) && i < |cols| && NormOf(sqrt, cols[i]) <= NORM_GUARD
    ensures RunFrom(sqrt, cols, d, i)[i] == cols[i]
  {
    hide Dot, Deflected;
  }

  lemma {:induction false} NotUnit(cols: seq<Vector>, d: nat, i: nat)
    requires Columns(cols, d) && i < |cols| && Dot(cols[i], cols[i]) < 1.0
    ensures !Orthonormal(cols, d)
  {
    hide Dot;
    assert Dot(cols[i], cols[i]) != Delta(i, i);
  }

  // ----- the columns come from the matrix -----

  /** The vector is orthogonal to the first n columns. */
  ghost predicate Against(a: Vector, cols: seq<Vector>, n: nat) {
    n <= |cols| && forall i :: 0 <= i < n ==> |cols[i]| == |a| && Dot(cols[i], a) == 0.0
  }

  /** Column j differs from that of the matrix only in the directions of the first n columns. */
  ghost predicate SameBeyond(cols: seq<Vector>, matrix: seq<Vector>, d: nat, n: nat, j: nat) {
    j < |cols| == |matrix| && |cols[j]| == |matrix[j]| == d &&
    forall a: Vector :: |a| == d && Against(a, cols, n) ==> Dot(a, cols[j]) == Dot(a, matrix[j])
  }

  /** Column j of the matrix lies in the directions of the columns up to j. */
  ghost predicate Within(cols: seq<Vector>, matrix: seq<Vector>, d: nat, j: nat) {
    j < |cols| == |matrix| && |cols[j]| == |matrix[j]| == d && Dot(cols[j], matrix[j]) > 0.0 &&
    forall a: Vector :: |a| == d && Against(a, cols, j + 1) ==> Dot(a, matrix[j]) == 0.0
  }

  /** What holds of the columns when the first n are done. */
  ghost predicate Derived(cols: seq<Vector>, matrix: seq<Vector>, d: nat, n: nat) {
    n <= |cols| == |matrix| && (forall j :: n <= j < |cols| ==> SameBeyond(cols, matrix, d, n, j)) &&
    forall j :: 0 <= j < n ==> Within(cols, matrix, d, j)
  }

  /** matrix = Q R with R = Q^T matrix upper triangular and positive on the diagonal. */
  ghost predicate Factors(cols: seq<Vector>, matrix: seq<Vector>, d: nat) {
    |cols| == |matrix| && Columns(cols, d) && Columns(matrix, d) &&
    (forall j :: 0 <= j < |cols| ==> Dot(cols[j], matrix[j]) > 0.0) &&
    forall i, j :: 0 <= j < i < |cols| ==> Dot(cols[i], matrix[j]) == 0.0
  }

  lemma {:induction false} DeflectedAt(cols: seq<Vector>, d: nat, i: nat, m: nat, j: nat)
    requires Columns(cols, d) && i < m <= j < |cols|
    ensures DeflectFrom(cols, d, i, m)[j] == Deflected(cols[i], cols[j])
    decreases |cols| - m
  {
    hide Deflected;
    if m < j { DeflectedAt(cols[m := Deflected(cols[i], cols[m])], d, i, m + 1, j); }
  }

  /** A step normalizes column i and deflects the columns behind it. */
  lemma {:induction false} StepColumns(sqrt: real -> real, cols: seq<Vector>, d: nat, i: nat)
    requires Columns(cols, d) && i < |cols| && NormOf(sqrt, cols[i]) > NORM_GUARD
    ensures var u, r := Normalized(cols[i], NormOf(sqrt, cols[i])), StepAt(sqrt, cols, d, i);
            r[i] == u && forall j :: i < j < |cols| ==> r[j] == Deflected(u, cols[j])
  {
    hide Dot, Deflected, Normalized;
    var mid := NormalizeAt(sqrt, cols, i);
    forall j | i < j < |cols|
      ensures StepAt(sqrt, cols, d, i)[j] == Deflected(mid[i], cols[j])
    {
      DeflectedAt(mid, d, i, i + 1, j);
    }
  }

  lemma {:induction false} SameColumns(a: Vector, cols: seq<Vector>, cols': seq<Vector>, n: nat)
    requires n <= |cols| == |cols'| && forall k :: 0 <= k < n ==> cols'[k] == cols[k]
    ensures Against(a, cols', n) <==> Against(a, cols, n)
  {
    hide Dot;
  }

  /** The columns behind i go on differing from the matrix only in the directions done. */
  lemma {:induction false} DeflectedBeyond(cols: seq<Vector>, cols': seq<Vector>, matrix: seq<Vector>, d: nat, i: nat,
                                           j: nat)
    requires SameBeyond(cols, matrix, d, i, j) && i < j < |cols| == |cols'| && |cols'[i]| == d
    requires forall k :: 0 <= k < i ==> cols'[k] == cols[k]
    requires cols'[j] == Deflected(cols'[i], cols[j])
    ensures SameBeyond(cols', matrix, d, i + 1, j)
  {
    hide Dot, Times, Deflected;
    forall a: Vector | |a| == d && Against(a, cols', i + 1)
      ensures Dot(a, cols'[j]) == Dot(a, matrix[j])
    {
      SameColumns(a, cols, cols', i);
      DeflectedDot(a, cols'[i], cols[j]);
      DotCommutes(a, cols'[i]);
      TimesLaws(Dot(cols'[i], cols[j]), 0.0, 0.0);
    }
  }

  /** Column i of the matrix lies in the directions of the columns up to i. */
  lemma {:induction false} NormalizedWithin(cols: seq<Vector>, cols': seq<Vector>, matrix: seq<Vector>, d: nat, i: nat,
                                            norm: real)
    requires SameBeyond(cols, matrix, d, i, i) && i < |cols| == |cols'| && norm > 0.0
    requires Times(norm, norm) == Dot(cols[i], cols[i]) && Against(cols'[i], cols, i)
    requires forall k :: 0 <= k < i ==> cols'[k] == cols[k]
    requires cols'[i] == Normalized(cols[i], norm)
    ensures Within(cols', matrix, d, i)
  {
    hide Dot, Times, Scale;
    var u, c := cols'[i], cols[i];
    DotCommutes(u, c);
    DotScale(1.0 / norm, c, c);
    ReciprocalOf(norm);
    forall a: Vector | |a| == d && Against(a, cols', i + 1)
      ensures Dot(a, matrix[i]) == 0.0
    {
      SameColumns(a, cols, cols', i);
      DotCommutes(a, u);
      DotScale(1.0 / norm, a, c);
      NoFactor(1.0 / norm, Dot(a, c));
    }
  }

  lemma {:induction false} ReciprocalOf(x: real)
    requires x > 0.0
    ensures Times(1.0 / x, Times(x, x)) == x && 1.0 / x > 0.0
  {
    assert 1.0 / x * x == 1.0;
  }

  lemma {:induction false} NoFactor(x: real, y: real)
    requires x != 0.0 && Times(x, y) == 0.0
    ensures y == 0.0
  {
  }

  lemma {:induction false} StillWithin(cols: seq<Vector>, cols': seq<Vector>, matrix: seq<Vector>, d: nat, i: nat,
                                       j: nat)
    requires Within(cols, matrix, d, j) && j < i <= |cols| == |cols'|
    requires forall k :: 0 <= k < i ==> cols'[k] == cols[k]
    ensures Within(cols', matrix, d, j)
  {
    hide Dot;
    forall a: Vector | |a| == d && Against(a, cols', j + 1)
      ensures Dot(a, matrix[j]) == 0.0
    {
      SameColumns(a, cols, cols', j + 1);
    }
  }

  lemma {:induction false} StepDerived(sqrt: real -> real, cols: seq<Vector>, matrix: seq<Vector>, d: nat, i: nat)
    requires IsRoot(sqrt) && DoneUpTo(cols, d, i) && Columns(cols, d) && i < |cols| &&
             NormOf(sqrt, cols[i]) > NORM_GUARD
    requires Derived(cols, matrix, d, i)
    ensures Derived(StepAt(sqrt, cols, d, i), matrix, d, i + 1)
  {
    hide Dot, Times, SameBeyond, Within, StepAt, Deflected, Normalized, IsRoot;
    var cols' := StepAt(sqrt, cols, d, i);
    var norm := NormOf(sqrt, cols[i]);
    DotSelf(cols[i]);
    RootSquares(sqrt, Dot(cols[i], cols[i]));
    StepColumns(sqrt, cols, d, i);
    forall k | 0 <= k < i
      ensures Dot(cols[k], cols'[i]) == 0.0
    {
      NormalizedDot(cols[k], cols[i], norm);
    }
    NormalizedWithin(cols, cols', matrix, d, i, norm);
    var next := i + 1;
    forall j | next <= j < |cols|
      ensures SameBeyond(cols', matrix, d, next, j)
    {
      DeflectedBeyond(cols, cols', matrix, d, i, j);
    }
    forall j | 0 <= j < i
      ensures Within(cols', matrix, d, j)
    {
      StillWithin(cols, cols', matrix, d, i, j);
    }
  }

  lemma {:induction false} DerivedFactors(cols: seq<Vector>, matrix: seq<Vector>, d: nat)
    requires Derived(cols, matrix, d, |cols|) && DoneUpTo(cols, d, |cols|)
    ensures Factors(cols, matrix, d)
  {
    hide Dot, Against, Within;
    forall j | 0 <= j < |cols|
      ensures |matrix[j]| == d && Dot(cols[j], matrix[j]) > 0.0
    {
      assert Within(cols, matrix, d, j);
      WithinAt(cols, matrix, d, j, cols[j]);
    }
    forall i, j | 0 <= j < i < |cols|
      ensures Dot(cols[i], matrix[j]) == 0.0
    {
      assert Within(cols, matrix, d, j);
      WithinAt(cols, matrix, d, j, cols[i]);
      LaterAgainst(cols, d, i, j + 1);
    }
  }

  lemma {:induction false} WithinAt(cols: seq<Vector>, matrix: seq<Vector>, d: nat, j: nat, a: Vector)
    requires Within(cols, matrix, d, j) && |a| == d
    ensures |cols[j]| == |matrix[j]| == d && Dot(cols[j], matrix[j]) > 0.0
    ensures Against(a, cols, j + 1) ==> Dot(a, matrix[j]) == 0.0
  {
    hide Dot;
  }

  lemma {:induction false} LaterAgainst(cols: seq<Vector>, d: nat, i: nat, n: nat)
    requires DoneUpTo(cols, d, |cols|) && n <= i < |cols|
    ensures Against(cols[i], cols, n)
  {
    hide Dot;
  }

  /** As long as the norms exceed the guard, the run factors the matrix. */
  lemma {:induction false} RunFactors(sqrt: real -> real, cols: seq<Vector>, matrix: seq<Vector>, d: nat, i: nat)
    requires IsRoot(sqrt) && DoneUpTo(cols, d, i) && Columns(cols, d) && i <= |cols|
    requires Derived(cols, matrix, d, i) && NormsExceedGuard(sqrt, cols, d, i)
    ensures Factors(RunFrom(sqrt, cols, d, i), matrix, d)
    decreases |cols| - i
  {
    hide Dot, DoneUpTo, Derived, Factors, StepAt, NormOf, IsRoot;
    if i == |cols| {
      DerivedFactors(cols, matrix, d);
    } else {
      StepDone(sqrt, cols, d, i);
      StepDerived(sqrt, cols, matrix, d, i);
      RunFactors(sqrt, StepAt(sqrt, cols, d, i), matrix, d, i + 1);
    }
  }

  lemma {:induction false} DerivedAtFirst(matrix: seq<Vector>, d: nat)
    requires Columns(matrix, d)
    ensures Derived(matrix, matrix, d, 0)
  {
    hide Dot;
  }

  /**
   `qr_orthogonalize` on the columns of a square matrix.  Its result is orthonormal iff every
   column norm that it meets exceeds the guard, and then it is the Q of the matrix' factors QR with R
   upper triangular and positive on the diagonal.
   */
  method Orthogonalize(sqrt: real -> real, matrix: seq<Vector>, d: nat) returns (cols: seq<Vector>)
    requires IsRoot(sqrt) && |matrix| == d && Columns(matrix, d)
    ensures |cols| == d && Columns(cols, d)
    ensures Orthonormal(cols, d) <==> NormsExceedGuard(sqrt, matrix, d, 0)
    ensures NormsExceedGuard(sqrt, matrix, d, 0) ==> Factors(cols, matrix, d)
  {
    hide Dot, Normalized, Deflected, NormsExceedGuard, Orthonormal, IsRoot, Factors, Derived, DoneUpTo;
    NothingDone(matrix, d);
    RunOrthonormal(sqrt, matrix, d, 0);
    DerivedAtFirst(matrix, d);
    if NormsExceedGuard(sqrt, matrix, d, 0) { RunFactors(sqrt, matrix, matrix, d, 0); }
    cols := matrix;
    for i := 0 to d
      invariant |cols| == d && Columns(cols, d)
      invariant RunFrom(sqrt, cols, d, i) == RunFrom(sqrt, matrix, d, 0)
    {
      ghost var step := StepAt(sqrt, cols, d, i);
      var norm := sqrt(Dot(cols[i], cols[i]));
      if norm > NORM_GUARD { cols := cols[i := Normalized(cols[i], norm)]; }
      for j := i + 1 to d
        invariant |cols| == d && Columns(cols, d) && DeflectFrom(cols, d, i, j) == step
      {
        cols := cols[j := Deflected(cols[i], cols[j])];
      }
    }
  }

  lemma {:induction false} NothingDone(cols: seq<Vector>, d: nat)
    requires Columns(cols, d)
    ensures DoneUpTo(cols, d, 0)
  {
  }

  // ----- the sign fix -----

  function Negated(c: Vector): (r: Vector)
    ensures |r| == |c|
  {
    Scale(-1.0, c)
  }

  lemma {:induction false} NegatedDot(a: Vector, b: Vector)
    requires |a| == |b|
    ensures Dot(a, Negated(b)) == -Dot(a, b)
    ensures Dot(Negated(a), b) == -Dot(a, b) && Dot(Negated(a), Negated(b)) == Dot(a, b)
  {
    hide Times, Dot, Scale;
    DotScale(-1.0, a, b);
    DotCommutes(Negated(a), b);
    DotScale(-1.0, b, a);
    DotCommutes(a, b);
    DotScale(-1.0, Negated(a), b);
    TimesLaws(1.0, Dot(a, b), 0.0);
    TimesLaws(Dot(a, b), 1.0, 0.0);
    TimesLaws(1.0, -Dot(a, b), 0.0);
    TimesLaws(-Dot(a, b), 1.0, 0.0);
  }

  /** Changing the sign of a column changes nothing about orthonormality. */
  lemma {:induction false} FlipKeeps(cols: seq<Vector>, d: nat, k: nat)
    requires Columns(cols, d) && k < |cols|
    ensures Columns(cols[k := Negated(cols[k])], d)
    ensures Orthonormal(cols[k := Negated(cols[k])], d) <==> Orthonormal(cols, d)
  {
    hide Dot, Negated;
    var flipped := cols[k := Negated(cols[k])];
    forall i, j | 0 <= i < |cols| && 0 <= j < |cols|
      ensures Dot(flipped[i], flipped[j]) == Delta(i, j) <==> Dot(cols[i], cols[j]) == Delta(i, j)
    {
      NegatedDot(cols[i], cols[j]);
    }
  }

  /** The loop over the diagonal: afterwards no diagonal entry is negative. */
  method FixSigns(matrix: seq<Vector>, d: nat) returns (cols: seq<Vector>)
    requires |matrix| == d && Columns(matrix, d)
    ensures |cols| == d && Columns(cols, d)
    ensures Orthonormal(cols, d) <==> Orthonormal(matrix, d)
    ensures forall i :: 0 <= i < d ==> cols[i][i] >= 0.0
    ensures forall i :: 0 <= i < d ==> cols[i] == if matrix[i][i] < 0.0 then Scale(-1.0, matrix[i]) else matrix[i]
  {
    hide Dot, Orthonormal, Scale;
    cols := matrix;
    for k := 0 to d
      invariant |cols| == d && Columns(cols, d) && (Orthonormal(cols, d) <==> Orthonormal(matrix, d))
      invariant forall i :: 0 <= i < k ==> cols[i][i] >= 0.0
      invariant forall i :: 0 <= i < k ==> cols[i] == if matrix[i][i] < 0.0 then Scale(-1.0, matrix[i]) else matrix[i]
      invariant forall i :: k <= i < d ==> cols[i] == matrix[i]
    {
      if cols[k][k] < 0.0 {
        FlipKeeps(cols, d, k);
        NegatedAt(cols[k], k);
        cols := cols[k := Negated(cols[k])];
      }
    }
  }

  lemma {:induction false} NegatedAt(c: Vector, k: nat)
    requires k < |c|
    ensures Negated(c)[k] == -c[k]
  {
  }

  /**
   The factors up to signs: a column against that of the matrix it came from may be negative, but
   only where the sign fix has made the diagonal entry positive.
   */
  ghost predicate FactorsUpToSigns(cols: seq<Vector>, matrix: seq<Vector>, d: nat) {
    |cols| == |matrix| == d && Columns(cols, d) && Columns(matrix, d) &&
    (forall j :: 0 <= j < d ==>
       Dot(cols[j], matrix[j]) > 0.0 || (Dot(cols[j], matrix[j]) < 0.0 && cols[j][j] > 0.0)) &&
    forall i, j :: 0 <= j < i < d ==> Dot(cols[i], matrix[j]) == 0.0
  }

  lemma {:induction false} SignsFixed(q: seq<Vector>, cols: seq<Vector>, matrix: seq<Vector>, d: nat)
    requires Factors(q, matrix, d) && |q| == |cols| == d && Columns(cols, d)
    requires forall i :: 0 <= i < d ==> cols[i] == if q[i][i] < 0.0 then Scale(-1.0, q[i]) else q[i]
    ensures FactorsUpToSigns(cols, matrix, d)
  {
    hide Dot;
    forall i, j | 0 <= i < d && 0 <= j < d
      ensures Dot(cols[i], matrix[j]) == if q[i][i] < 0.0 then -Dot(q[i], matrix[j]) else Dot(q[i], matrix[j])
    {
      NegatedDot(q[i], matrix[j]);
    }
    forall j | 0 <= j < d && q[j][j] < 0.0
      ensures cols[j][j] > 0.0
    {
      NegatedAt(q[j], j);
    }
  }

  /** `generate_rotation_matrix` from any square matrix. */
  method RotationMatrix(sqrt: real -> real, matrix: seq<Vector>, d: nat) returns (cols: seq<Vector>)
    requires IsRoot(sqrt) && |matrix| == d && Columns(matrix, d)
    ensures |cols| == d && Columns(cols, d) && forall i :: 0 <= i < d ==> cols[i][i] >= 0.0
    ensures Orthonormal(cols, d) <==> NormsExceedGuard(sqrt, matrix, d, 0)
    ensures NormsExceedGuard(sqrt, matrix, d, 0) ==> FactorsUpToSigns(cols, matrix, d)
  {
    hide NormsExceedGuard, Orthonormal, Factors, FactorsUpToSigns, IsRoot, Scale;
    var q := Orthogonalize(sqrt, matrix, d);
    cols := FixSigns(q, d);
    if NormsExceedGuard(sqrt, matrix, d, 0) { SignsFixed(q, cols, matrix, d); }
  }

  // ----- what a rotation is used for -----

  /** The matrix times x: the columns, weighted by x and added up. */
  function Rotate(cols: seq<Vector>, d: nat, x: Vector): (r: Vector)
    requires Columns(cols, d) && |x| == |cols|
    ensures |r| == d
    decreases |cols|
  {
    if cols == [] then Zero(d)
    else
      var n := |cols| - 1;
      Add(Rotate(cols[..n], d, x[..n]), Scale(x[n], cols[n]))
  }

  /** The transposed matrix times y: every column against y. */
  function Unrotate(cols: seq<Vector>, d: nat, y: Vector): (r: Vector)
    requires Columns(cols, d) && |y| == d
    ensures |r| == |cols|
  {
    seq(|cols|, k requires 0 <= k < |cols| => Dot(cols[k], y))
  }

  function RowAt(cols: seq<Vector>, d: nat, i: nat): (row: Vector)
    requires Columns(cols, d) && i < d
    ensures |row| == |cols|
  {
    seq(|cols|, k requires 0 <= k < |cols| => cols[k][i])
  }

  /** The same product row by row, as the kernels compute it. */
  lemma {:induction false} RotateByRows(cols: seq<Vector>, d: nat, x: Vector, i: nat)
    requires Columns(cols, d) && |x| == |cols| && i < d
    ensures Rotate(cols, d, x)[i] == Dot(RowAt(cols, d, i), x)
    decreases |cols|
  {
    hide Times;
    if cols != [] {
      var n := |cols| - 1;
      RotateByRows(cols[..n], d, x[..n], i);
      assert RowAt(cols, d, i)[..n] == RowAt(cols[..n], d, i);
      TimesLaws(x[n], cols[n][i], 0.0);
    }
  }

  /** dot(q, Pi^T y) = dot(Pi q, y), for any matrix: rotating the query once replaces unrotating every key. */
  lemma {:induction false} Adjoint(cols: seq<Vector>, d: nat, q: Vector, y: Vector)
    requires Columns(cols, d) && |q| == |cols| && |y| == d
    ensures Dot(q, Unrotate(cols, d, y)) == Dot(Rotate(cols, d, q), y)
    decreases |cols|
  {
    hide Times, Scale, Add, Zero;
    if cols == [] {
      DotCommutes(Zero(d), y);
      DotZero(y);
    } else {
      var n := |cols| - 1;
      Adjoint(cols[..n], d, q[..n], y);
      assert Unrotate(cols, d, y)[..n] == Unrotate(cols[..n], d, y);
      AdjointStep(Rotate(cols[..n], d, q[..n]), q[n], cols[n], y);
    }
  }

  lemma {:induction false} AdjointStep(a: Vector, s: real, c: Vector, y: Vector)
    requires |a| == |c| == |y|
    ensures Dot(Add(a, Scale(s, c)), y) == Dot(a, y) + Times(s, Dot(c, y))
  {
    hide Dot, Times, Add, Scale;
    DotCommutes(Add(a, Scale(s, c)), y);
    DotAdd(y, a, Scale(s, c));
    DotScale(s, y, c);
    DotCommutes(y, a);
    DotCommutes(y, c);
  }

  /** A column against a rotated vector: the entry it belongs to. */
  lemma {:induction false} ColumnOfRotated(cols: seq<Vector>, d: nat, x: Vector, n: nat, k: nat)
    requires Orthonormal(cols, d) && |x| == |cols| && n <= |cols| && k < |cols|
    ensures Dot(cols[k], Rotate(cols[..n], d, x[..n])) == if k < n then x[k] else 0.0
    decreases n
  {
    hide Times, Scale, Add, Zero, Dot;
    if n == 0 {
      DotZero(cols[k]);
    } else {
      var m := n - 1;
      ColumnOfRotated(cols, d, x, m, k);
      assert cols[..n][..m] == cols[..m] && x[..n][..m] == x[..m];
      DotAdd(cols[k], Rotate(cols[..m], d, x[..m]), Scale(x[m], cols[m]));
      DotScale(x[m], cols[k], cols[m]);
      TimesLaws(x[m], 0.0, 0.0);
      assert Dot(cols[k], cols[m]) == Delta(k, m);
    }
  }

  /** Pi^T (Pi x) = x. */
  lemma {:induction false} RoundTrip(cols: seq<Vector>, d: nat, x: Vector)
    requires Orthonormal(cols, d) && |x| == |cols|
    ensures Unrotate(cols, d, Rotate(cols, d, x)) == x
  {
    hide Dot, Rotate, Orthonormal;
    OrthonormalColumns(cols, d);
    assert cols[..|cols|] == cols && x[..|x|] == x;
    forall k | 0 <= k < |cols|
      ensures Unrotate(cols, d, Rotate(cols, d, x))[k] == x[k]
    {
      ColumnOfRotated(cols, d, x, |cols|, k);
    }
  }

  /** A rotation keeps every length. */
  lemma {:induction false} LengthKept(cols: seq<Vector>, d: nat, x: Vector)
    requires Orthonormal(cols, d) && |x| == |cols|
    ensures Dot(Rotate(cols, d, x), Rotate(cols, d, x)) == Dot(x, x)
  {
    hide Dot, Rotate, Unrotate, Orthonormal;
    OrthonormalColumns(cols, d);
    RoundTrip(cols, d, x);
    Adjoint(cols, d, x, Rotate(cols, d, x));
  }

  lemma {:induction false} OrthonormalColumns(cols: seq<Vector>, d: nat)
    requires Orthonormal(cols, d)
    ensures Columns(cols, d)
  {
  }

  // ----- a square rotation is undone from the other side as well -----

  function Unit(d: nat, i: nat): (r: Vector)
    ensures |r| == d
  {
    seq(d, k requires 0 <= k < d => Delta(i, k))
  }

  lemma {:induction false} DotUnit(a: Vector, i: nat)
    requires i <= |a|
    ensures Dot(a, Unit(|a|, i)) == if i < |a| then a[i] else 0.0
  {
    hide Times;
    if a != [] {
      var n := |a| - 1;
      assert Unit(|a|, i)[..n] == Unit(n, i);
      TimesLaws(a[n], 0.0, 0.0);
      if i < |a| { DotUnit(a[..n], i); } else { DotBeyond(a[..n], i); }
    }
  }

  lemma {:induction false} DotBeyond(a: Vector, i: nat)
    requires |a| <= i
    ensures Dot(a, Unit(|a|, i)) == 0.0
  {
    assert Unit(|a|, i) == Zero(|a|);
    DotZero(a);
  }

  lemma {:induction false} OnlyZero(a: Vector)
    requires Dot(a, a) == 0.0
    ensures a == Zero(|a|)
  {
    if a != [] {
      var n := |a| - 1;
      DotSelf(a[..n]);
      SquareLaw(a[n]);
      OnlyZero(a[..n]);
      ZeroSquare(a[n]);
      assert a == a[..n] + [a[n]];
    }
  }

  lemma {:induction false} ZeroSquare(x: real)
    requires Times(x, x) == 0.0
    ensures x == 0.0
  {
    hide Times;
    if x != 0.0 {
      var a := if x > 0.0 then x else -x;
      TimesLaws(x, -x, 0.0);
      TimesLaws(-x, x, 0.0);
      TimesLaws(x, x, 0.0);
      assert Times(a, a) == Times(x, x);
      ReciprocalLaw(a);
      TimesLaws(1.0 / a, 0.0, 0.0);
    }
  }

  /** What is missing of y after the way there and back has the length that the image lacks. */
  lemma {:induction false} Missing(cols: seq<Vector>, d: nat, y: Vector)
    requires Orthonormal(cols, d) && |y| == d
    ensures Columns(cols, d)
    ensures var x := Unrotate(cols, d, y);
            var r := Add(y, Scale(-1.0, Rotate(cols, d, x)));
            Dot(r, r) == Dot(y, y) - Dot(x, x)
  {
    hide Dot, Times, Scale, Add, Rotate, Unrotate, Orthonormal;
    OrthonormalColumns(cols, d);
    var x := Unrotate(cols, d, y);
    var z := Rotate(cols, d, x);
    Adjoint(cols, d, x, y);
    LengthKept(cols, d, x);
    SquareOfDifference(y, z);
    DotCommutes(y, z);
  }

  lemma {:induction false} SquareOfDifference(y: Vector, z: Vector)
    requires |y| == |z|
    ensures var r := Add(y, Scale(-1.0, z));
            Dot(r, r) == Dot(y, y) - Dot(y, z) - Dot(z, y) + Dot(z, z)
  {
    hide Dot, Times, Add, Scale;
    var r := Add(y, Scale(-1.0, z));
    AdjointStep(y, -1.0, z, r);
    DotAdd(y, y, Scale(-1.0, z));
    DotScale(-1.0, y, z);
    DotAdd(z, y, Scale(-1.0, z));
    DotScale(-1.0, z, z);
    MinusOne(Dot(y, z));
    MinusOne(Dot(z, z));
    MinusOne(Dot(z, r));
  }

  lemma {:induction false} MinusOne(x: real)
    ensures Times(-1.0, x) == -x
  {
  }

  /** The squares of the first n rows. */
  ghost function RowSquares(cols: seq<Vector>, d: nat, n: nat): real
    requires Columns(cols, d) && n <= d
  {
    if n == 0 then 0.0 else RowSquares(cols, d, n - 1) + Dot(RowAt(cols, d, n - 1), RowAt(cols, d, n - 1))
  }

  lemma {:induction false} RowSquaresSnoc(cols: seq<Vector>, d: nat, n: nat)
    requires Columns(cols, d) && cols != [] && n <= d
    ensures var k := |cols| - 1;
            RowSquares(cols, d, n) == RowSquares(cols[..k], d, n) + Dot(cols[k][..n], cols[k][..n])
  {
    var k := |cols| - 1;
    if n > 0 {
      RowSquaresSnoc(cols, d, n - 1);
      assert RowAt(cols, d, n - 1)[..k] == RowAt(cols[..k], d, n - 1);
      assert cols[k][..n][..n - 1] == cols[k][..n - 1];
    }
  }

  lemma {:induction false} NoColumns(d: nat, n: nat)
    requires n <= d
    ensures RowSquares([], d, n) == 0.0
  {
    if n > 0 { NoColumns(d, n - 1); }
  }

  /** All squares together: one for each column. */
  lemma {:induction false} SquaresByColumn(cols: seq<Vector>, d: nat)
    requires Orthonormal(cols, d)
    ensures RowSquares(cols, d, d) == |cols| as real
    decreases |cols|
  {
    if cols == [] {
      NoColumns(d, d);
    } else {
      var k := |cols| - 1;
      SquaresByColumn(cols[..k], d);
      RowSquaresSnoc(cols, d, d);
      assert cols[k][..d] == cols[k] && Dot(cols[k], cols[k]) == Delta(k, k);
    }
  }

  /** Row i is what unrotating the i-th unit vector gives; its length is at most one. */
  lemma {:induction false} RowShort(cols: seq<Vector>, d: nat, i: nat)
    requires Orthonormal(cols, d) && i < d
    ensures Columns(cols, d)
    ensures var row := RowAt(cols, d, i);
            row == Unrotate(cols, d, Unit(d, i)) && Dot(row, row) <= 1.0 &&
            (Dot(row, row) == 1.0 ==> Rotate(cols, d, row) == Unit(d, i))
  {
    hide Dot, Times, Rotate, Orthonormal;
    OrthonormalColumns(cols, d);
    var e, row := Unit(d, i), RowAt(cols, d, i);
    forall k | 0 <= k < |cols|
      ensures Dot(cols[k], e) == row[k]
    {
      DotUnit(cols[k], i);
    }
    assert row == Unrotate(cols, d, e);
    Missing(cols, d, e);
    DotUnit(e, i);
    var z := Rotate(cols, d, row);
    var r := Add(e, Scale(-1.0, z));
    DotSelf(r);
    if Dot(row, row) == 1.0 {
      OnlyZero(r);
      forall k | 0 <= k < d
        ensures z[k] == e[k]
      {
        assert r[k] == 0.0;
        MinusOne(z[k]);
      }
    }
  }

  /** None of the first n rows is longer than one; if one is shorter, so is their sum. */
  lemma {:induction false} ShortRows(cols: seq<Vector>, d: nat, n: nat, i: nat)
    requires Orthonormal(cols, d) && n <= d && i < d
    ensures Columns(cols, d) && RowSquares(cols, d, n) <= n as real
    ensures i < n && Dot(RowAt(cols, d, i), RowAt(cols, d, i)) < 1.0 ==> RowSquares(cols, d, n) < n as real
  {
    hide Dot, Orthonormal, RowAt;
    OrthonormalColumns(cols, d);
    if n > 0 {
      ShortRows(cols, d, n - 1, i);
      RowShort(cols, d, n - 1);
    }
  }

  /** Pi (Pi^T y) = y for a square matrix: its rows are as orthonormal as its columns. */
  lemma {:induction false} RoundTripBack(cols: seq<Vector>, d: nat, y: Vector)
    requires Orthonormal(cols, d) && |cols| == d && |y| == d
    ensures Columns(cols, d) && Rotate(cols, d, Unrotate(cols, d, y)) == y
  {
    hide Dot, Rotate, Unrotate, Orthonormal, RowSquares;
    OrthonormalColumns(cols, d);
    SquaresByColumn(cols, d);
    var x := Unrotate(cols, d, y);
    forall i | 0 <= i < d
      ensures Rotate(cols, d, x)[i] == y[i]
    {
      var row := RowAt(cols, d, i);
      ShortRows(cols, d, d, i);
      RowShort(cols, d, i);
      RotateByRows(cols, d, x, i);
      Adjoint(cols, d, row, y);
      DotCommutes(Unit(d, i), y);
      DotUnit(y, i);
    }
  }

  /** Pi Pi^T = I. */
  lemma {:induction false} RowsOrthonormal(cols: seq<Vector>, d: nat, i: nat, j: nat)
    requires Orthonormal(cols, d) && |cols| == d && i < d && j < d
    ensures Columns(cols, d) && Dot(RowAt(cols, d, i), RowAt(cols, d, j)) == Delta(i, j)
  {
    hide Dot, Rotate, Unrotate, Orthonormal, RowAt;
    OrthonormalColumns(cols, d);
    RowShort(cols, d, j);
    RoundTripBack(cols, d, Unit(d, j));
    RotateByRows(cols, d, RowAt(cols, d, j), i);
  }

  // ----- the factors determine the rotation -----

  /** Where one vector ends and the other begins there is one product. */
  lemma {:induction false} OneProduct(x: Vector, y: Vector, j: nat)
    requires |x| == |y| && j < |x|
    requires forall k :: j < k < |x| ==> x[k] == 0.0
    requires forall k :: 0 <= k < j ==> y[k] == 0.0
    ensures Dot(x, y) == Times(x[j], y[j])
  {
    hide Times;
    var n := |x| - 1;
    if j == n {
      assert y[..n] == Zero(n);
      DotZero(x[..n]);
    } else {
      OneProduct(x[..n], y[..n], j);
      TimesLaws(y[n], 0.0, 0.0);
      TimesLaws(0.0, y[n], 0.0);
    }
  }

  /** A vector orthogonal to the columns before j, against column j of the matrix. */
  lemma {:induction false} FactorAt(cols: seq<Vector>, matrix: seq<Vector>, d: nat, j: nat, a: Vector)
    requires Orthonormal(cols, d) && |cols| == d && Factors(cols, matrix, d) && j < d && |a| == d
    requires Against(a, cols, j)
    ensures |cols[j]| == |matrix[j]| == d && Dot(a, matrix[j]) == Times(Dot(cols[j], matrix[j]), Dot(cols[j], a))
  {
    hide Dot, Times, Rotate, Orthonormal;
    OrthonormalColumns(cols, d);
    var x, y := Unrotate(cols, d, matrix[j]), Unrotate(cols, d, a);
    RoundTripBack(cols, d, matrix[j]);
    Adjoint(cols, d, x, a);
    DotCommutes(a, matrix[j]);
    OneProduct(x, y, j);
  }

  lemma {:induction false} SameUnrotated(cols: seq<Vector>, d: nat, a: Vector, b: Vector)
    requires Orthonormal(cols, d) && |cols| == d && |a| == |b| == d
    requires Columns(cols, d) && Unrotate(cols, d, a) == Unrotate(cols, d, b)
    ensures a == b
  {
    hide Rotate, Unrotate, Orthonormal;
    RoundTripBack(cols, d, a);
    RoundTripBack(cols, d, b);
  }

  lemma {:induction false} UnitSquare(c: real)
    requires c > 0.0 && Times(c, c) == 1.0
    ensures c == 1.0
  {
  }

  lemma {:induction false} PositiveFactor(x: real, y: real)
    requires x > 0.0
    ensures Times(x, y) > 0.0 ==> y > 0.0
    ensures Times(x, y) == 0.0 ==> y == 0.0
  {
  }

  /** Column j is the same in both once those before it are. */
  lemma {:induction false} FactorsAgreeAt(p: seq<Vector>, q: seq<Vector>, matrix: seq<Vector>, d: nat, j: nat)
    requires Orthonormal(p, d) && Orthonormal(q, d) && |p| == |q| == d && j < d
    requires Factors(p, matrix, d) && Factors(q, matrix, d) && forall k :: 0 <= k < j ==> p[k] == q[k]
    ensures p[j] == q[j]
  {
    hide Dot, Times, Unrotate;
    forall k | 0 <= k < d
      ensures Dot(p[k], q[j]) == if k == j then Dot(p[j], q[j]) else 0.0
      ensures k == j ==> Dot(p[j], q[j]) > 0.0
    {
      DotCommutes(p[k], q[j]);
      if k >= j {
        forall l | 0 <= l < j
          ensures Dot(q[l], p[k]) == 0.0
        {
          assert Dot(p[l], p[k]) == Delta(l, k);
        }
        FactorAt(q, matrix, d, j, p[k]);
        PositiveFactor(Dot(q[j], matrix[j]), Dot(q[j], p[k]));
      } else {
        assert Dot(q[k], q[j]) == Delta(k, j);
      }
    }
    OnlyAt(p, q[j], d, j);
  }

  /** A unit vector that is orthogonal to all columns but one, and not opposite to that one, is that one. */
  lemma {:induction false} OnlyAt(p: seq<Vector>, a: Vector, d: nat, j: nat)
    requires Orthonormal(p, d) && |p| == d && |a| == d && j < d && Dot(a, a) == 1.0 && Dot(p[j], a) > 0.0
    requires forall k :: 0 <= k < d && k != j ==> Dot(p[k], a) == 0.0
    ensures p[j] == a
  {
    hide Dot, Times, Rotate, Orthonormal;
    OrthonormalColumns(p, d);
    var x := Unrotate(p, d, a);
    RoundTripBack(p, d, a);
    LengthKept(p, d, x);
    OneProduct(x, x, j);
    UnitSquare(x[j]);
    UnrotatedColumn(p, d, j);
    assert x == Unrotate(p, d, p[j]);
    SameUnrotated(p, d, a, p[j]);
  }

  lemma {:induction false} UnrotatedColumn(p: seq<Vector>, d: nat, j: nat)
    requires Orthonormal(p, d) && Columns(p, d) && j < |p|
    ensures forall k :: 0 <= k < |p| ==> Unrotate(p, d, p[j])[k] == Delta(k, j)
  {
    hide Dot;
  }

  /** There is at most one such Q: the factors determine what `Orthogonalize` returns. */
  lemma {:induction false} FactorsUnique(p: seq<Vector>, q: seq<Vector>, matrix: seq<Vector>, d: nat, n: nat)
    requires Orthonormal(p, d) && Orthonormal(q, d) && |p| == |q| == d && n <= d
    requires Factors(p, matrix, d) && Factors(q, matrix, d)
    ensures p[..n] == q[..n] && (n == d ==> p == q)
    decreases n
  {
    hide Orthonormal, Factors;
    if n > 0 {
      var m := n - 1;
      FactorsUnique(p, q, matrix, d, m);
      forall k | 0 <= k < m
        ensures p[k] == q[k]
      {
        assert p[..m][k] == q[..m][k];
      }
      FactorsAgreeAt(p, q, matrix, d, m);
    }
  }

  // ----- values accumulated in rotated space -----

  /** The weighted sum of vectors of length d. */
  function Accumulated(weights: seq<real>, ys: seq<Vector>, d: nat): (r: Vector)
    requires |weights| == |ys| && Columns(ys, d)
    ensures |r| == d
    decreases |ys|
  {
    if ys == [] then Zero(d)
    else
      var n := |ys| - 1;
      Add(Accumulated(weights[..n], ys[..n], d), Scale(weights[n], ys[n]))
  }

  function UnrotateEach(cols: seq<Vector>, d: nat, ys: seq<Vector>): (r: seq<Vector>)
    requires Columns(cols, d) && Columns(ys, d)
    ensures |r| == |ys| && Columns(r, |cols|)
  {
    seq(|ys|, i requires 0 <= i < |ys| => Unrotate(cols, d, ys[i]))
  }

  lemma {:induction false} UnrotateLinear(cols: seq<Vector>, d: nat, a: Vector, s: real, b: Vector)
    requires Columns(cols, d) && |a| == |b| == d
    ensures Unrotate(cols, d, Add(a, Scale(s, b))) == Add(Unrotate(cols, d, a), Scale(s, Unrotate(cols, d, b)))
  {
    hide Dot, Times;
    forall k | 0 <= k < |cols|
      ensures Dot(cols[k], Add(a, Scale(s, b))) == Dot(cols[k], a) + Times(s, Dot(cols[k], b))
    {
      DotAdd(cols[k], a, Scale(s, b));
      DotScale(s, cols[k], b);
    }
  }

  lemma {:induction false} UnrotateZero(cols: seq<Vector>, d: nat)
    requires Columns(cols, d)
    ensures Unrotate(cols, d, Zero(d)) == Zero(|cols|)
  {
    hide Dot;
    forall k | 0 <= k < |cols|
      ensures Dot(cols[k], Zero(d)) == 0.0
    {
      DotZero(cols[k]);
    }
  }

  /** Unrotating the weighted sum once is unrotating every term. */
  lemma {:induction false} UnrotateOnce(cols: seq<Vector>, d: nat, weights: seq<real>, ys: seq<Vector>)
    requires Columns(cols, d) && |weights| == |ys| && Columns(ys, d)
    ensures Unrotate(cols, d, Accumulated(weights, ys, d)) == Accumulated(weights, UnrotateEach(cols, d, ys), |cols|)
    decreases |ys|
  {
    hide Unrotate, Add, Scale, Zero;
    if ys == [] {
      UnrotateZero(cols, d);
    } else {
      var n := |ys| - 1;
      UnrotateOnce(cols, d, weights[..n], ys[..n]);
      UnrotateLinear(cols, d, Accumulated(weights[..n], ys[..n], d), weights[n], ys[n]);
      assert UnrotateEach(cols, d, ys)[..n] == UnrotateEach(cols, d, ys[..n]);
    }
  }
}
