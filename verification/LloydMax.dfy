/**
 The Lloyd-Max codebook, over the reals.  The density is any positive even function, the
 standard deviation any positive number.
 */
module LloydMax {

  /** All that is used of the Gaussian density: positive, and the same on both sides of 0. */
  ghost predicate Density(pdf: real -> real) {
    forall x :: EvenAt(pdf, x)
  }

  predicate EvenAt(pdf: real -> real, x: real) {
    pdf(x) > 0.0 && pdf(-x) == pdf(x)
  }

  // ----- Simpson's rule -----

  function WeightAt(i: nat, n: nat): (w: real)
    ensures w > 0.0
  {
    if i == 0 || i == n then 1.0 else if i % 2 == 0 then 2.0 else 4.0
  }

  function PointAt(a: real, h: real, i: nat): real {
    a + i as real * h
  }

  function TermAt(f: real -> real, a: real, h: real, n: nat, i: nat): real {
    WeightAt(i, n) * f(PointAt(a, h, i))
  }

  /** Weighted values at the points lo, lo + 1, ..., hi - 1. */
  function Terms(f: real -> real, a: real, h: real, n: nat, lo: nat, hi: nat): real
    requires lo <= hi
    decreases hi
  {
    if lo == hi then 0.0 else Terms(f, a, h, n, lo, hi - 1) + TermAt(f, a, h, n, hi - 1)
  }

  function EvenUp(n: nat): nat {
    if n % 2 == 1 then n + 1 else n
  }

  function StepSize(a: real, b: real, n: nat): real
    requires n > 0
  {
    (b - a) / n as real
  }

  /** Composite Simpson over [a, b]. */
  function Simpson(f: real -> real, a: real, b: real, n: nat): real
    requires n > 0
  {
    var m := EvenUp(n);
    var h := StepSize(a, b, m);
    Terms(f, a, h, m, 0, m + 1) * h / 3.0
  }

  lemma {:induction false} FirstTerm(f: real -> real, a: real, h: real, n: nat, lo: nat, hi: nat)
    requires lo < hi
    ensures Terms(f, a, h, n, lo, hi) == TermAt(f, a, h, n, lo) + Terms(f, a, h, n, lo + 1, hi)
    decreases hi
  {
    hide TermAt;
    if lo + 1 < hi { FirstTerm(f, a, h, n, lo, hi - 1); }
  }

  lemma {:induction false} LastPoint(a: real, b: real, n: nat)
    requires n > 0
    ensures PointAt(a, StepSize(a, b, n), n) == b
  {
  }

  /** `integrate_simpson`: the end points first, then the inner ones with weights 4 and 2. */
  method IntegrateSimpson(f: real -> real, a: real, b: real, n0: nat) returns (r: real)
    requires n0 > 0
    ensures r == Simpson(f, a, b, n0)
  {
    hide Terms;
    var n := EvenUp(n0);
    var h := StepSize(a, b, n);
    var sum := f(a) + f(b);
    NoTerms(f, a, h, n);
    for i := 1 to n
      invariant sum == f(a) + f(b) + Terms(f, a, h, n, 1, i)
    {
      var x := PointAt(a, h, i);
      NextTerm(f, a, h, n, i);
      sum := sum + if i % 2 == 0 then 2.0 * f(x) else 4.0 * f(x);
    }
    FirstTerm(f, a, h, n, 0, n + 1);
    NextTerm(f, a, h, n, n);
    LastPoint(a, b, n);
    r := sum * h / 3.0;
  }

  lemma {:induction false} NoTerms(f: real -> real, a: real, h: real, n: nat)
    ensures Terms(f, a, h, n, 1, 1) == 0.0
  {
  }

  lemma {:induction false} NextTerm(f: real -> real, a: real, h: real, n: nat, i: nat)
    requires i >= 1
    ensures Terms(f, a, h, n, 1, i + 1) == Terms(f, a, h, n, 1, i) + TermAt(f, a, h, n, i)
  {
  }

  // ----- the rule is exact on cubic polynomials -----

  /** On the panel from x to x + 2h the rule gives the difference of F. */
  predicate ExactAt(f: real -> real, F: real -> real, h: real, x: real) {
    (f(x) + 4.0 * f(x + h) + f(x + h + h)) * h / 3.0 == F(x + h + h) - F(x)
  }

  ghost predicate Exact(f: real -> real, F: real -> real, h: real) {
    forall x :: ExactAt(f, F, h, x)
  }

  lemma {:induction false} NextPoint(a: real, h: real, i: nat)
    ensures PointAt(a, h, i + 1) == PointAt(a, h, i) + h && PointAt(a, h, 0) == a
  {
    SplitFactor(i as real, 1.0, h);
  }

  /** The first k panels, the last point with half its weight. */
  lemma {:induction false} PanelsAddUp(f: real -> real, F: real -> real, a: real, h: real, n: nat, k: nat)
    requires Exact(f, F, h) && k > 0 && 2 * k <= n && n % 2 == 0
    ensures (Terms(f, a, h, n, 0, 2 * k) + f(PointAt(a, h, 2 * k))) * h / 3.0 == F(PointAt(a, h, 2 * k)) - F(a)
    decreases k
  {
    hide PointAt, Exact, Terms;
    var j := 2 * k - 2;
    var x, y, z := PointAt(a, h, j), PointAt(a, h, j + 1), PointAt(a, h, j + 2);
    NextPoint(a, h, j);
    NextPoint(a, h, j + 1);
    NextPoint(a, h, 0);
    TermsSnoc(f, a, h, n, j + 1);
    TermsSnoc(f, a, h, n, j + 2);
    assert WeightAt(j + 1, n) == 4.0;
    ExactPanel(f, F, h, x);
    if k == 1 {
      TermsNone(f, a, h, n);
      assert WeightAt(j, n) == 1.0;
    } else {
      PanelsAddUp(f, F, a, h, n, k - 1);
      assert WeightAt(j, n) == 2.0;
      Thirds(Terms(f, a, h, n, 0, j) + f(x), f(x) + 4.0 * f(y) + f(z), h);
    }
  }

  lemma {:induction false} ExactPanel(f: real -> real, F: real -> real, h: real, x: real)
    requires Exact(f, F, h)
    ensures (f(x) + 4.0 * f(x + h) + f(x + h + h)) * h / 3.0 == F(x + h + h) - F(x)
  {
    assert ExactAt(f, F, h, x);
  }

  lemma {:induction false} Thirds(x: real, y: real, h: real)
    ensures (x + y) * h / 3.0 == x * h / 3.0 + y * h / 3.0
  {
  }

  /** If the rule is exact on every panel, it is on the whole interval. */
  lemma {:induction false} SimpsonExact(f: real -> real, F: real -> real, a: real, b: real, n: nat)
    requires n > 0 && Exact(f, F, StepSize(a, b, EvenUp(n)))
    ensures Simpson(f, a, b, n) == F(b) - F(a)
  {
    hide Terms, StepSize, PointAt, Exact;
    var m := EvenUp(n);
    var h := StepSize(a, b, m);
    PanelsAddUp(f, F, a, h, m, m / 2);
    TermsSnoc(f, a, h, m, m + 1);
    LastPoint(a, b, m);
    assert 2 * (m / 2) == m;
  }

  function Power(x: real, k: nat): real {
    if k == 0 then 1.0 else x * Power(x, k - 1)
  }

  function Cubic(c0: real, c1: real, c2: real, c3: real): real -> real {
    x => c0 + c1 * x + c2 * Power(x, 2) + c3 * Power(x, 3)
  }

  /** Its integral from 0. */
  function Quartic(c0: real, c1: real, c2: real, c3: real): real -> real {
    x => c0 * x + c1 * (Power(x, 2) / 2.0) + c2 * (Power(x, 3) / 3.0) + c3 * (Power(x, 4) / 4.0)
  }

  /** The rule on a panel sees the integral of every power up to the third. */
  lemma {:induction false} PowersExact(x: real, h: real)
    ensures var y, z := x + h, x + h + h;
            6.0 * h / 3.0 == z - x &&
            (x + 4.0 * y + z) * h / 3.0 == Power(z, 2) / 2.0 - Power(x, 2) / 2.0 &&
            (Power(x, 2) + 4.0 * Power(y, 2) + Power(z, 2)) * h / 3.0 == Power(z, 3) / 3.0 - Power(x, 3) / 3.0 &&
            (Power(x, 3) + 4.0 * Power(y, 3) + Power(z, 3)) * h / 3.0 == Power(z, 4) / 4.0 - Power(x, 4) / 4.0
  {
    hide Power;
    FirstPowers(x);
    FirstPowers(x + h);
    FirstPowers(x + h + h);
    ProductsExact(x, h);
  }

  lemma {:induction false} FirstPowers(x: real)
    ensures Power(x, 2) == x * x && Power(x, 3) == x * x * x && Power(x, 4) == x * x * (x * x)
  {
    assert Power(x, 0) == 1.0 && Power(x, 1) == x * Power(x, 0);
    assert Power(x, 2) == x * Power(x, 1) && Power(x, 3) == x * Power(x, 2) && Power(x, 4) == x * Power(x, 3);
  }

  lemma {:induction false} ProductsExact(x: real, h: real)
    ensures var y, z := x + h, x + h + h;
            (x + 4.0 * y + z) * h / 3.0 == z * z / 2.0 - x * x / 2.0 &&
            (x * x + 4.0 * (y * y) + z * z) * h / 3.0 == z * z * z / 3.0 - x * x * x / 3.0 &&
            (x * x * x + 4.0 * (y * y * y) + z * z * z) * h / 3.0 == z * z * (z * z) / 4.0 - x * x * (x * x) / 4.0
  {
  }

  /** Simpson's rule integrates every cubic polynomial exactly, whatever the number of points. */
  lemma {:induction false} CubicExact(c0: real, c1: real, c2: real, c3: real, a: real, b: real, n: nat)
    requires n > 0
    ensures var F := Quartic(c0, c1, c2, c3);
            Simpson(Cubic(c0, c1, c2, c3), a, b, n) == F(b) - F(a)
  {
    hide Simpson, StepSize;
    var h := StepSize(a, b, EvenUp(n));
    forall x
      ensures ExactAt(Cubic(c0, c1, c2, c3), Quartic(c0, c1, c2, c3), h, x)
    {
      CubicPanel(c0, c1, c2, c3, h, x);
    }
    SimpsonExact(Cubic(c0, c1, c2, c3), Quartic(c0, c1, c2, c3), a, b, n);
  }

  lemma {:induction false} CubicPanel(c0: real, c1: real, c2: real, c3: real, h: real, x: real)
    ensures ExactAt(Cubic(c0, c1, c2, c3), Quartic(c0, c1, c2, c3), h, x)
  {
    hide Power;
    var y, z := x + h, x + h + h;
    PowersExact(x, h);
    Weighted(c0, c1, c2, c3, 6.0, x + 4.0 * y + z, Power(x, 2) + 4.0 * Power(y, 2) + Power(z, 2),
             Power(x, 3) + 4.0 * Power(y, 3) + Power(z, 3), h);
  }

  lemma {:induction false} Weighted(c0: real, c1: real, c2: real, c3: real, s0: real, s1: real, s2: real, s3: real,
                                    h: real)
    ensures (c0 * s0 + c1 * s1 + c2 * s2 + c3 * s3) * h / 3.0
         == c0 * (s0 * h / 3.0) + c1 * (s1 * h / 3.0) + c2 * (s2 * h / 3.0) + c3 * (s3 * h / 3.0)
  {
  }

  // ----- the quotient is a strict mean -----

  function Moment(pdf: real -> real): real -> real {
    x => x * pdf(x)
  }

  lemma {:induction false} TermBetween(w: real, p: real, x: real, a: real)
    requires w > 0.0 && p > 0.0
    ensures x >= a ==> w * (x * p) >= a * (w * p)
    ensures x > a ==> w * (x * p) > a * (w * p)
    ensures x <= a ==> w * (x * p) <= a * (w * p)
    ensures x < a ==> w * (x * p) < a * (w * p)
  {
    var q := w * p;
    assert q > 0.0;
    assert w * (x * p) == x * q;
    Scaled(x, a, q);
  }

  lemma {:induction false} Scaled(x: real, a: real, q: real)
    requires q > 0.0
    ensures x >= a ==> x * q >= a * q
    ensures x > a ==> x * q > a * q
    ensures x <= a ==> x * q <= a * q
    ensures x < a ==> x * q < a * q
  {
  }

  lemma {:induction false} PointBetween(a: real, b: real, n: nat, i: nat)
    requires n > 0 && a < b && i <= n
    ensures var x := PointAt(a, StepSize(a, b, n), i);
            a <= x <= b && (i > 0 ==> a < x) && (i < n ==> x < b)
  {
    var h := StepSize(a, b, n);
    LastPoint(a, b, n);
    assert h > 0.0 by { Quotient(b - a, n as real); }
    Scaled(n as real, i as real, h);
    if i > 0 { Scaled(i as real, 0.0, h); }
  }

  lemma {:induction false} Quotient(x: real, y: real)
    requires x > 0.0 && y > 0.0
    ensures x / y > 0.0
  {
  }

  /** `num` is `den` times something between a and b, strictly once there are two points. */
  ghost predicate Mean(a: real, b: real, den: real, num: real, k: nat) {
    den >= 0.0 && a * den <= num <= b * den && (k > 0 ==> den > 0.0 && num < b * den) && (k > 1 ==> a * den < num)
  }

  /** The same of the terms at point k. */
  ghost predicate TermMean(a: real, b: real, t: real, u: real, k: nat) {
    t > 0.0 && a * t <= u <= b * t && (k == 0 ==> u < b * t) && (k > 0 ==> a * t < u)
  }

  lemma {:induction false} PointMean(pdf: real -> real, a: real, b: real, n: nat, k: nat)
    requires Density(pdf) && n > 0 && a < b && k <= n
    ensures var h := StepSize(a, b, n);
            TermMean(a, b, TermAt(pdf, a, h, n, k), TermAt(Moment(pdf), a, h, n, k), k)
  {
    hide WeightAt, PointAt, StepSize, Density;
    var x, w := PointAt(a, StepSize(a, b, n), k), WeightAt(k, n);
    PointBetween(a, b, n, k);
    DensityAt(pdf, x);
    TermBetween(w, pdf(x), x, a);
    TermBetween(w, pdf(x), x, b);
    Product(w, pdf(x));
  }

  /** The weighted sum of x * pdf(x) lies between a and b times the weighted sum of pdf(x). */
  lemma {:induction false} MeanBetween(pdf: real -> real, a: real, b: real, n: nat, k: nat)
    requires Density(pdf) && n > 0 && a < b && k <= n + 1
    ensures var h := StepSize(a, b, n);
            Mean(a, b, Terms(pdf, a, h, n, 0, k), Terms(Moment(pdf), a, h, n, 0, k), k)
    decreases k
  {
    hide TermAt, StepSize, Density, Terms, Mean, TermMean, Moment;
    var h := StepSize(a, b, n);
    if k == 0 {
      TermsNone(pdf, a, h, n);
      TermsNone(Moment(pdf), a, h, n);
      MeanNone(a, b);
    } else {
      MeanBetween(pdf, a, b, n, k - 1);
      PointMean(pdf, a, b, n, k - 1);
      TermsSnoc(pdf, a, h, n, k);
      TermsSnoc(Moment(pdf), a, h, n, k);
      MeanStep(a, b, Terms(pdf, a, h, n, 0, k - 1), Terms(Moment(pdf), a, h, n, 0, k - 1),
               TermAt(pdf, a, h, n, k - 1), TermAt(Moment(pdf), a, h, n, k - 1), k - 1);
    }
  }

  lemma {:induction false} TermsNone(f: real -> real, a: real, h: real, n: nat)
    ensures Terms(f, a, h, n, 0, 0) == 0.0
  {
  }

  lemma {:induction false} TermsSnoc(f: real -> real, a: real, h: real, n: nat, k: nat)
    requires k > 0
    ensures Terms(f, a, h, n, 0, k) == Terms(f, a, h, n, 0, k - 1) + TermAt(f, a, h, n, k - 1)
  {
  }

  lemma {:induction false} MeanNone(a: real, b: real)
    ensures Mean(a, b, 0.0, 0.0, 0)
  {
  }

  lemma {:induction false} DensityAt(pdf: real -> real, x: real)
    requires Density(pdf)
    ensures pdf(x) > 0.0 && pdf(-x) == pdf(x)
  {
    assert EvenAt(pdf, x);
  }

  /** One more point: the bounds of the sums and of the new terms add up. */
  lemma {:induction false} MeanStep(a: real, b: real, den: real, num: real, t: real, u: real, k: nat)
    requires Mean(a, b, den, num, k) && TermMean(a, b, t, u, k)
    ensures Mean(a, b, den + t, num + u, k + 1)
  {
    assert a * (den + t) == a * den + a * t && b * (den + t) == b * den + b * t;
  }

  lemma {:induction false} Product(x: real, y: real)
    requires x > 0.0 && y > 0.0
    ensures x * y > 0.0
  {
  }

  lemma {:induction false} Ratio(num: real, den: real, a: real, b: real)
    requires den > 0.0 && a * den < num < b * den
    ensures a < num / den < b
  {
    var q := num / den;
    assert q * den == num;
    Scaled(q, a, den);
    Scaled(q, b, den);
  }

  const DENOMINATOR_GUARD: real := 0.000000000000001

  function Abs(x: real): real {
    if x < 0.0 then -x else x
  }

  /** The conditional mean of the cell (a, b), or the old centroid when the cell has next to no mass. */
  function NewCentroid(pdf: real -> real, a: real, b: real, c: real, quad: nat): real
    requires quad > 0
  {
    var num, den := Simpson(Moment(pdf), a, b, quad), Simpson(pdf, a, b, quad);
    if Abs(den) > DENOMINATOR_GUARD then num / den else c
  }

  /** The new centroid balances the cell: times its mass it is its first moment; with next to no mass it stays. */
  lemma {:induction false} CentroidBalances(pdf: real -> real, a: real, b: real, c: real, quad: nat)
    requires quad > 0
    ensures var mass, moment := Simpson(pdf, a, b, quad), Simpson(x => x * pdf(x), a, b, quad);
            if -0.000000000000001 <= mass <= 0.000000000000001 then NewCentroid(pdf, a, b, c, quad) == c
            else NewCentroid(pdf, a, b, c, quad) * mass == moment
  {
    hide Simpson;
    assert Moment(pdf) == (x => x * pdf(x));
  }

  /** The new centroid is strictly inside its cell. */
  lemma {:induction false} CentroidInCell(pdf: real -> real, a: real, b: real, c: real, quad: nat)
    requires Density(pdf) && quad > 0 && a < c < b
    ensures a < NewCentroid(pdf, a, b, c, quad) < b
  {
    hide Terms, StepSize, Density, Moment;
    var m := EvenUp(quad);
    var h := StepSize(a, b, m);
    StepPositive(a, b, m);
    MeanBetween(pdf, a, b, m, m + 1);
    var d, n := Terms(pdf, a, h, m, 0, m + 1), Terms(Moment(pdf), a, h, m, 0, m + 1);
    CommonFactor(n, d, h, a, b);
  }

  lemma {:induction false} StepPositive(a: real, b: real, n: nat)
    requires a < b && n > 0
    ensures StepSize(a, b, n) > 0.0
  {
    Quotient(b - a, n as real);
  }

  lemma {:induction false} CommonFactor(n: real, d: real, h: real, a: real, b: real)
    requires h > 0.0 && d > 0.0 && a * d < n < b * d
    ensures d * h / 3.0 > 0.0 && a < (n * h / 3.0) / (d * h / 3.0) < b
  {
    Product(d, h);
    Scaled(n, a * d, h);
    Scaled(b * d, n, h);
    assert a * (d * h / 3.0) == a * d * h / 3.0 && b * (d * h / 3.0) == b * d * h / 3.0;
    Ratio(n * h / 3.0, d * h / 3.0, a, b);
  }

  // ----- the other side of 0 -----

  /** g is f mirrored at 0, with its sign changed if `odd`. */
  ghost predicate Mirrors(f: real -> real, g: real -> real, odd: bool) {
    forall x :: MirrorAt(f, g, odd, x)
  }

  predicate MirrorAt(f: real -> real, g: real -> real, odd: bool, x: real) {
    g(-x) == if odd then -f(x) else f(x)
  }

  function Signed(odd: bool, x: real): real {
    if odd then -x else x
  }

  lemma {:induction false} MirrorPoint(a: real, b: real, n: nat, i: nat)
    requires n > 0 && i <= n
    ensures StepSize(-b, -a, n) == StepSize(a, b, n)
    ensures PointAt(-b, StepSize(a, b, n), i) == -PointAt(a, StepSize(a, b, n), n - i)
  {
    var h := StepSize(a, b, n);
    assert (-a - -b) == b - a;
    LastPoint(a, b, n);
    assert n as real * h == i as real * h + (n - i) as real * h by { SplitFactor(i as real, (n - i) as real, h); }
  }

  lemma {:induction false} SplitFactor(x: real, y: real, h: real)
    ensures (x + y) * h == x * h + y * h
  {
  }

  lemma {:induction false} MirrorTerm(f: real -> real, g: real -> real, odd: bool, a: real, b: real, n: nat, i: nat)
    requires Mirrors(f, g, odd) && n > 0 && n % 2 == 0 && i <= n
    ensures TermAt(g, -b, StepSize(a, b, n), n, i) == Signed(odd, TermAt(f, a, StepSize(a, b, n), n, n - i))
  {
    hide PointAt, StepSize;
    var h := StepSize(a, b, n);
    MirrorPoint(a, b, n, i);
    var x := PointAt(a, h, n - i);
    assert WeightAt(i, n) == WeightAt(n - i, n);
    assert MirrorAt(f, g, odd, x);
  }

  lemma {:induction false} MirrorTerms(f: real -> real, g: real -> real, odd: bool, a: real, b: real, n: nat, k: nat)
    requires Mirrors(f, g, odd) && n > 0 && n % 2 == 0 && k <= n + 1
    ensures var h := StepSize(a, b, n);
            Terms(g, -b, h, n, 0, k) == Signed(odd, Terms(f, a, h, n, n + 1 - k, n + 1))
    decreases k
  {
    hide TermAt, StepSize, Mirrors;
    if k > 0 {
      MirrorTerms(f, g, odd, a, b, n, k - 1);
      MirrorTerm(f, g, odd, a, b, n, k - 1);
      FirstTerm(f, a, StepSize(a, b, n), n, n + 1 - k, n + 1);
    }
  }

  lemma {:induction false} MirrorSimpson(f: real -> real, g: real -> real, odd: bool, a: real, b: real, n: nat)
    requires Mirrors(f, g, odd) && n > 0
    ensures Simpson(g, -b, -a, n) == Signed(odd, Simpson(f, a, b, n))
  {
    hide Terms, StepSize, Mirrors;
    var m := EvenUp(n);
    MirrorPoint(a, b, m, 0);
    MirrorTerms(f, g, odd, a, b, m, m + 1);
  }

  /** The mirrored cell has the mirrored centroid. */
  lemma {:induction false} MirrorCentroid(pdf: real -> real, a: real, b: real, c: real, quad: nat)
    requires Density(pdf) && quad > 0
    ensures NewCentroid(pdf, -b, -a, -c, quad) == -NewCentroid(pdf, a, b, c, quad)
  {
    hide Simpson, Density, Mirrors, Moment;
    DensityMirrors(pdf);
    MirrorSimpson(pdf, pdf, false, a, b, quad);
    MirrorSimpson(Moment(pdf), Moment(pdf), true, a, b, quad);
    var num, den := Simpson(Moment(pdf), a, b, quad), Simpson(pdf, a, b, quad);
    if Abs(den) > DENOMINATOR_GUARD { NegativeRatio(num, den); }
  }

  lemma {:induction false} DensityMirrors(pdf: real -> real)
    requires Density(pdf)
    ensures Mirrors(pdf, pdf, false) && Mirrors(Moment(pdf), Moment(pdf), true)
  {
    forall x
      ensures MirrorAt(pdf, pdf, false, x) && MirrorAt(Moment(pdf), Moment(pdf), true, x)
    {
      DensityAt(pdf, x);
    }
  }

  lemma {:induction false} NegativeRatio(num: real, den: real)
    requires den != 0.0
    ensures (-num) / den == -(num / den)
  {
  }

  // ----- codebooks -----

  /** Centroids in strictly ascending order inside (lo, hi). */
  ghost predicate Ascending(cs: seq<real>, lo: real, hi: real) {
    cs != [] && lo < cs[0] && cs[|cs| - 1] < hi &&
    forall i, j :: 0 <= i && j == i + 1 && j < |cs| ==> cs[i] < cs[j]
  }

  ghost predicate Symmetric(cs: seq<real>) {
    forall i, j :: 0 <= i < |cs| && j == |cs| - 1 - i ==> cs[j] == -cs[i]
  }

  function Mid(x: real, y: real): real {
    (x + y) / 2.0
  }

  lemma {:induction false} MidBetween(x: real, y: real)
    ensures x < y ==> x < Mid(x, y) < y
    ensures Mid(-y, -x) == -Mid(x, y)
  {
  }

  function Midpoints(cs: seq<real>): (bs: seq<real>)
    requires cs != []
    ensures |bs| == |cs| - 1
  {
    seq(|cs| - 1, i requires 0 <= i < |cs| - 1 => Mid(cs[i], cs[i + 1]))
  }

  /** The cell of centroid i: between its midpoints, or up to an edge. */
  function CellLow(cs: seq<real>, lo: real, i: nat): real
    requires i < |cs|
  {
    if i == 0 then lo else Mid(cs[i - 1], cs[i])
  }

  function CellHigh(cs: seq<real>, hi: real, i: nat): real
    requires i < |cs|
  {
    if i == |cs| - 1 then hi else Mid(cs[i], cs[i + 1])
  }

  /** The centroids after one iteration. */
  function Improved(pdf: real -> real, cs: seq<real>, lo: real, hi: real, quad: nat): (cs': seq<real>)
    requires quad > 0
    ensures |cs'| == |cs|
  {
    seq(|cs|, i requires 0 <= i < |cs| => NewCentroid(pdf, CellLow(cs, lo, i), CellHigh(cs, hi, i), cs[i], quad))
  }

  lemma {:induction false} InCell(cs: seq<real>, lo: real, hi: real, i: nat)
    requires Ascending(cs, lo, hi) && i < |cs|
    ensures CellLow(cs, lo, i) < cs[i] < CellHigh(cs, hi, i)
  {
    hide Mid;
    if i > 0 { assert cs[i - 1] < cs[i]; MidBetween(cs[i - 1], cs[i]); }
    if i < |cs| - 1 { assert cs[i] < cs[i + 1]; MidBetween(cs[i], cs[i + 1]); }
  }

  /** An iteration keeps the centroids ascending inside the edges, each in its old cell. */
  lemma {:induction false} ImprovedAscends(pdf: real -> real, cs: seq<real>, lo: real, hi: real, quad: nat)
    requires Density(pdf) && quad > 0 && Ascending(cs, lo, hi)
    ensures Ascending(Improved(pdf, cs, lo, hi, quad), lo, hi)
    ensures forall i :: 0 <= i < |cs| ==> CellLow(cs, lo, i) < Improved(pdf, cs, lo, hi, quad)[i] < CellHigh(cs, hi, i)
  {
    hide NewCentroid, Density, Ascending, CellLow, CellHigh;
    var cs' := Improved(pdf, cs, lo, hi, quad);
    forall i | 0 <= i < |cs|
      ensures CellLow(cs, lo, i) < cs'[i] < CellHigh(cs, hi, i)
    {
      InCell(cs, lo, hi, i);
      CentroidInCell(pdf, CellLow(cs, lo, i), CellHigh(cs, hi, i), cs[i], quad);
    }
    CellsAscend(cs, cs', lo, hi);
  }

  /** One number strictly inside each cell: ascending inside the edges. */
  lemma {:induction false} CellsAscend(cs: seq<real>, cs': seq<real>, lo: real, hi: real)
    requires Ascending(cs, lo, hi) && |cs'| == |cs|
    requires forall i :: 0 <= i < |cs| ==> CellLow(cs, lo, i) < cs'[i] < CellHigh(cs, hi, i)
    ensures Ascending(cs', lo, hi)
  {
    hide Mid;
    assert CellLow(cs, lo, 0) < cs'[0] && cs'[|cs| - 1] < CellHigh(cs, hi, |cs| - 1);
    forall i, j | 0 <= i && j == i + 1 && j < |cs'|
      ensures cs'[i] < cs'[j]
    {
      assert CellHigh(cs, hi, i) == CellLow(cs, lo, j);
      assert cs'[i] < CellHigh(cs, hi, i) && CellLow(cs, lo, j) < cs'[j];
    }
  }

  lemma {:induction false} MirrorCell(cs: seq<real>, lo: real, hi: real, i: nat)
    requires Symmetric(cs) && lo == -hi && i < |cs|
    ensures var j := |cs| - 1 - i;
            cs[j] == -cs[i] && CellLow(cs, lo, j) == -CellHigh(cs, hi, i) && CellHigh(cs, hi, j) == -CellLow(cs, lo, i)
  {
    hide Mid;
    var j := |cs| - 1 - i;
    assert cs[j] == -cs[i];
    if i > 0 {
      assert cs[j + 1] == -cs[i - 1];
      MidBetween(cs[i - 1], cs[i]);
    }
    if j > 0 {
      assert cs[j - 1] == -cs[i + 1];
      MidBetween(cs[i], cs[i + 1]);
    }
  }

  lemma {:induction false} SymmetricIf(cs: seq<real>)
    requires forall i, j :: 0 <= i < |cs| && j == |cs| - 1 - i ==> cs[j] == -cs[i]
    ensures Symmetric(cs)
  {
  }

  /** An iteration keeps the codebook symmetric about 0. */
  lemma {:induction false} ImprovedMirrors(pdf: real -> real, cs: seq<real>, lo: real, hi: real, quad: nat)
    requires Density(pdf) && quad > 0 && Symmetric(cs) && lo == -hi
    ensures Symmetric(Improved(pdf, cs, lo, hi, quad))
  {
    hide NewCentroid, Density, Mid, Symmetric, CellLow, CellHigh;
    forall i, j | 0 <= i < |cs| && j == |cs| - 1 - i
      ensures Improved(pdf, cs, lo, hi, quad)[j] == -Improved(pdf, cs, lo, hi, quad)[i]
    {
      MirrorCell(cs, lo, hi, i);
      MirrorCentroid(pdf, CellLow(cs, lo, i), CellHigh(cs, hi, i), cs[i], quad);
    }
    SymmetricIf(Improved(pdf, cs, lo, hi, quad));
  }

  /** k iterations of the solver from `cs`. */
  function Iterated(pdf: real -> real, cs: seq<real>, lo: real, hi: real, quad: nat, k: nat): (r: seq<real>)
    requires quad > 0
    ensures |r| == |cs|
    decreases k
  {
    if k == 0 then cs else Improved(pdf, Iterated(pdf, cs, lo, hi, quad, k - 1), lo, hi, quad)
  }

  /** The centroids `b` are where the centroids `a` were, up to less than `tolerance` each. */
  ghost predicate Settled(a: seq<real>, b: seq<real>, tolerance: real) {
    |a| == |b| && forall i :: 0 <= i < |a| ==> -tolerance < b[i] - a[i] < tolerance
  }

  /** The k-th iteration moves no centroid by as much as `tolerance`. */
  ghost predicate SettlesAt(pdf: real -> real, cs: seq<real>, lo: real, hi: real, quad: nat, tolerance: real, k: nat)
    requires quad > 0
  {
    k > 0 && Settled(Iterated(pdf, cs, lo, hi, quad, k - 1), Iterated(pdf, cs, lo, hi, quad, k), tolerance)
  }

  lemma {:induction false} OneMore(pdf: real -> real, cs: seq<real>, lo: real, hi: real, quad: nat, tolerance: real,
                                   k: nat, now: seq<real>, next: seq<real>)
    requires quad > 0 && now == Iterated(pdf, cs, lo, hi, quad, k) && next == Improved(pdf, now, lo, hi, quad)
    ensures next == Iterated(pdf, cs, lo, hi, quad, k + 1)
    ensures SettlesAt(pdf, cs, lo, hi, quad, tolerance, k + 1) <==> Settled(now, next, tolerance)
  {
    hide Improved, Settled;
  }

  const QUADRATURE_POINTS: nat := 500
  const MAX_ITERATIONS: nat := 200
  const TOLERANCE: real := 0.0000000001

  method ComputeCentroid(pdf: real -> real, a: real, b: real, current: real) returns (c: real)
    ensures c == NewCentroid(pdf, a, b, current, QUADRATURE_POINTS)
  {
    hide Simpson;
    var num := IntegrateSimpson(Moment(pdf), a, b, QUADRATURE_POINTS);
    var den := IntegrateSimpson(pdf, a, b, QUADRATURE_POINTS);
    c := if Abs(den) > DENOMINATOR_GUARD then num / den else current;
  }

  /** One pass of the solver: midpoints, then every centroid anew; also the largest move. */
  method Iterate(pdf: real -> real, cs: seq<real>, lo: real, hi: real) returns (cs': seq<real>, shift: real)
    requires cs != []
    ensures cs' == Improved(pdf, cs, lo, hi, QUADRATURE_POINTS)
    ensures shift < TOLERANCE <==> Settled(cs, cs', TOLERANCE)
  {
    hide NewCentroid, Midpoints, CellLow, CellHigh, Abs, Settled;
    var boundaries := Midpoints(cs);
    cs', shift := [], 0.0;
    for i := 0 to |cs|
      invariant |cs'| == i && shift >= 0.0
      invariant forall j :: 0 <= j < i ==>
        cs'[j] == NewCentroid(pdf, CellLow(cs, lo, j), CellHigh(cs, hi, j), cs[j], QUADRATURE_POINTS)
      invariant forall j :: 0 <= j < i ==> Abs(cs'[j] - cs[j]) <= shift
      invariant shift == 0.0 || exists j :: 0 <= j < i && Abs(cs'[j] - cs[j]) == shift
    {
      CellsFromMidpoints(cs, lo, hi, i);
      var a := if i == 0 then lo else boundaries[i - 1];
      var b := if i == |cs| - 1 then hi else boundaries[i];
      var c := ComputeCentroid(pdf, a, b, cs[i]);
      var move := Abs(c - cs[i]);
      ghost var before, most := cs', shift;
      if shift < move { shift := move; }
      cs' := cs' + [c];
      if shift == move {
        assert Abs(cs'[i] - cs[i]) == shift;
      } else if most != 0.0 {
        var j :| 0 <= j < i && Abs(before[j] - cs[j]) == most;
        assert Abs(cs'[j] - cs[j]) == shift;
      }
    }
    SettledIff(cs, cs', shift, TOLERANCE);
  }

  lemma {:induction false} CellsFromMidpoints(cs: seq<real>, lo: real, hi: real, i: nat)
    requires i < |cs|
    ensures CellLow(cs, lo, i) == if i == 0 then lo else Midpoints(cs)[i - 1]
    ensures CellHigh(cs, hi, i) == if i == |cs| - 1 then hi else Midpoints(cs)[i]
  {
    hide Mid;
  }

  lemma {:induction false} NoneYet(pdf: real -> real, cs: seq<real>, lo: real, hi: real)
    ensures Iterated(pdf, cs, lo, hi, 500, 0) == cs && !SettlesAt(pdf, cs, lo, hi, 500, TOLERANCE, 0)
  {
  }

  /** The largest move is below the tolerance iff every move is. */
  lemma {:induction false} SettledIff(a: seq<real>, b: seq<real>, shift: real, tolerance: real)
    requires |a| == |b| && shift >= 0.0 && tolerance > 0.0
    requires forall i :: 0 <= i < |a| ==> Abs(b[i] - a[i]) <= shift
    requires shift == 0.0 || exists i :: 0 <= i < |a| && Abs(b[i] - a[i]) == shift
    ensures Settled(a, b, tolerance) <==> shift < tolerance
  {
  }

  function Levels(bits: nat): (n: nat)
    ensures n > 0
  {
    if bits == 0 then 1 else 2 * Levels(bits - 1)
  }

  /** Centroid i of n at the start: the middle of the i-th of n equal parts of [lo, hi]. */
  function StartAt(lo: real, hi: real, n: nat, i: nat): real
    requires n > 0
  {
    lo + (hi - lo) * (i as real + 0.5) / n as real
  }

  function StartCentroids(lo: real, hi: real, n: nat): (cs: seq<real>)
    requires n > 0
    ensures |cs| == n
  {
    seq(n, i requires 0 <= i < n => StartAt(lo, hi, n, i))
  }

  /** The start centroids are as far apart as the parts are wide, the first half as far from the edge. */
  lemma {:induction false} StartSpacing(lo: real, hi: real, n: nat, i: nat)
    requires n > 0 && i + 1 < n
    ensures n as real * (StartAt(lo, hi, n, i + 1) - StartAt(lo, hi, n, i)) == hi - lo
    ensures 2.0 * (n as real * (StartAt(lo, hi, n, 0) - lo)) == hi - lo
  {
    hide StartAt;
    var unit := (hi - lo) / n as real;
    StartIs(lo, hi, n, i);
    StartIs(lo, hi, n, i + 1);
    StartIs(lo, hi, n, 0);
    SplitFactor(i as real + 0.5, 1.0, unit);
    WholeUnits(hi - lo, n as real);
  }

  lemma {:induction false} StartOrder(lo: real, hi: real, n: nat, i: nat, j: nat)
    requires lo < hi && n > 0 && i < n && j < n
    ensures lo < StartAt(lo, hi, n, i) < hi
    ensures i < j ==> StartAt(lo, hi, n, i) < StartAt(lo, hi, n, j)
    ensures j == n - 1 - i ==> StartAt(lo, hi, n, j) - lo == hi - StartAt(lo, hi, n, i)
  {
    hide StartAt;
    var unit, x, y := (hi - lo) / n as real, i as real + 0.5, j as real + 0.5;
    Quotient(hi - lo, n as real);
    WholeUnits(hi - lo, n as real);
    StartIs(lo, hi, n, i);
    StartIs(lo, hi, n, j);
    Scaled(x, 0.0, unit);
    Scaled(n as real, x, unit);
    Scaled(y, x, unit);
    if j == n - 1 - i {
      assert x + y == n as real;
      SplitFactor(x, y, unit);
    }
  }

  lemma {:induction false} WholeUnits(x: real, y: real)
    requires y != 0.0
    ensures y * (x / y) == x
  {
  }

  lemma {:induction false} StartIs(lo: real, hi: real, n: nat, i: nat)
    requires n > 0
    ensures StartAt(lo, hi, n, i) == lo + (i as real + 0.5) * ((hi - lo) / n as real)
  {
    Reorder(hi - lo, i as real + 0.5, n as real);
  }

  lemma {:induction false} Reorder(x: real, k: real, y: real)
    requires y != 0.0
    ensures x * k / y == k * (x / y)
  {
  }

  lemma {:induction false} StartIsWellFormed(lo: real, hi: real, n: nat)
    requires lo == -hi && hi > 0.0 && n > 0
    ensures Ascending(StartCentroids(lo, hi, n), 3.0 * lo, 3.0 * hi) && Symmetric(StartCentroids(lo, hi, n))
  {
    hide StartAt;
    StartOrder(lo, hi, n, 0, n - 1);
    StartOrder(lo, hi, n, n - 1, 0);
    forall i, j | 0 <= i < n && 0 <= j < n
      ensures i < j ==> StartAt(lo, hi, n, i) < StartAt(lo, hi, n, j)
      ensures j == n - 1 - i ==> StartAt(lo, hi, n, j) == -StartAt(lo, hi, n, i)
    {
      StartOrder(lo, hi, n, i, j);
    }
  }

  ghost predicate SeparateAt(cs: seq<real>, bs: seq<real>, i: nat) {
    i < |bs| && i + 1 < |cs| && cs[i] < bs[i] < cs[i + 1]
  }

  /** Each boundary lies strictly between its two centroids. */
  ghost predicate Separate(cs: seq<real>, bs: seq<real>) {
    |bs| + 1 == |cs| && forall i :: 0 <= i < |bs| ==> SeparateAt(cs, bs, i)
  }

  lemma {:induction false} MidpointsHalve(cs: seq<real>)
    requires cs != []
    ensures forall i :: 0 <= i < |cs| - 1 ==> 2.0 * Midpoints(cs)[i] == cs[i] + cs[i + 1]
  {
  }

  /** The boundaries separate neighbouring centroids and are symmetric too. */
  lemma {:induction false} BoundariesSeparate(cs: seq<real>, lo: real, hi: real)
    requires cs != [] && Ascending(cs, lo, hi) && Symmetric(cs)
    ensures Separate(cs, Midpoints(cs)) && Symmetric(Midpoints(cs))
  {
    hide Mid, Ascending, Symmetric, Midpoints;
    var bs := Midpoints(cs);
    forall i | 0 <= i < |bs|
      ensures SeparateAt(cs, bs, i)
    {
      NeighboursAscend(cs, lo, hi, i);
      MidpointAt(cs, i);
      MidBetween(cs[i], cs[i + 1]);
    }
    forall i, j | 0 <= i < |bs| && j == |bs| - 1 - i
      ensures bs[j] == -bs[i]
    {
      MirrorEntry(cs, i);
      MirrorEntry(cs, i + 1);
      MidpointAt(cs, i);
      MidpointAt(cs, j);
      MidBetween(cs[i], cs[i + 1]);
    }
    SymmetricIf(bs);
  }

  lemma {:induction false} NeighboursAscend(cs: seq<real>, lo: real, hi: real, i: nat)
    requires Ascending(cs, lo, hi) && i + 1 < |cs|
    ensures cs[i] < cs[i + 1]
  {
  }

  lemma {:induction false} MidpointAt(cs: seq<real>, i: nat)
    requires i + 1 < |cs|
    ensures Midpoints(cs)[i] == Mid(cs[i], cs[i + 1])
  {
  }

  lemma {:induction false} MirrorEntry(cs: seq<real>, i: nat)
    requires Symmetric(cs) && i < |cs|
    ensures cs[|cs| - 1 - i] == -cs[i]
  {
  }

  /**
   `LloydMaxCodebook::compute`.  For every positive standard deviation and every number of bits
   the centroids are strictly ascending inside three times the start range, the boundaries lie
   strictly between them, and both are symmetric about 0.  They are what the solver makes of equal
   parts of the start range in `rounds` iterations: the first in which no centroid moves by as much
   as 1e-10, or 200.
   */
  method ComputeCodebook(pdf: real -> real, sigma: real, bits: nat)
    returns (centroids: seq<real>, boundaries: seq<real>, ghost rounds: nat)
    requires Density(pdf) && sigma > 0.0
    ensures |centroids| == Levels(bits) && |boundaries| == Levels(bits) - 1
    ensures Ascending(centroids, -10.5 * sigma, 10.5 * sigma) && Symmetric(centroids) && Symmetric(boundaries)
    ensures Separate(centroids, boundaries)
    ensures forall i :: 0 <= i < |boundaries| ==> 2.0 * boundaries[i] == centroids[i] + centroids[i + 1]
    ensures var start := StartCentroids(-3.5 * sigma, 3.5 * sigma, Levels(bits));
            var lo, hi := -10.5 * sigma, 10.5 * sigma;
            0 < rounds <= 200 && centroids == Iterated(pdf, start, lo, hi, 500, rounds) &&
            (rounds < 200 ==> SettlesAt(pdf, start, lo, hi, 500, 0.0000000001, rounds)) &&
            forall k :: 0 <= k < rounds ==> !SettlesAt(pdf, start, lo, hi, 500, 0.0000000001, k)
  {
    hide Density, Ascending, Symmetric, Improved, StartAt, StartCentroids, Mid, Iterated, SettlesAt, Settled, Abs,
      Midpoints, Separate, Levels;
    var n := Levels(bits);
    var lo, hi := -3.5 * sigma, 3.5 * sigma;
    var edgeLo, edgeHi := lo * 3.0, hi * 3.0;
    assert edgeLo == -10.5 * sigma && edgeHi == 10.5 * sigma;
    centroids := StartCentroids(lo, hi, n);
    StartIsWellFormed(lo, hi, n);
    ghost var start := centroids;
    NoneYet(pdf, start, edgeLo, edgeHi);
    rounds := 0;
    for k := 0 to MAX_ITERATIONS
      invariant |centroids| == n && Ascending(centroids, edgeLo, edgeHi) && Symmetric(centroids)
      invariant rounds == k && centroids == Iterated(pdf, start, edgeLo, edgeHi, 500, k)
      invariant forall j :: 0 <= j <= k ==> !SettlesAt(pdf, start, edgeLo, edgeHi, 500, TOLERANCE, j)
    {
      ImprovedAscends(pdf, centroids, edgeLo, edgeHi, QUADRATURE_POINTS);
      ImprovedMirrors(pdf, centroids, edgeLo, edgeHi, QUADRATURE_POINTS);
      var next, shift := Iterate(pdf, centroids, edgeLo, edgeHi);
      OneMore(pdf, start, edgeLo, edgeHi, 500, TOLERANCE, k, centroids, next);
      centroids := next;
      rounds := k + 1;
      if shift < TOLERANCE { break; }
    }
    boundaries := Midpoints(centroids);
    MidpointsHalve(centroids);
    BoundariesSeparate(centroids, edgeLo, edgeHi);
  }
}
