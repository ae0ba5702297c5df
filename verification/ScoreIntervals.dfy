/**
 Wilson and Newcombe score intervals and the non-inferiority verdict of the agent-quality
 study, over reals. The square root is a parameter with its defining property.
 */
module ScoreIntervals {
  import opened Reals
  import opened Results

  ghost predicate IsSqrt(sqrt: real -> real) {
    forall x: real :: x >= 0.0 ==> sqrt(x) >= 0.0 && sqrt(x) * sqrt(x) == x
  }

  datatype Interval = Interval(point: real, lo: real, hi: real)

  function Max(x: real, y: real): real { if x >= y then x else y }

  function Min(x: real, y: real): real { if x <= y then x else y }

  // ---- the Wilson interval ----

  /** The quantity under the root: p(1 - p)/n + z^2/(4n^2). */
  function Radicand(p: real, n: real, z: real): real
    requires n > 0.0
  {
    p * (1.0 - p) / n + z * z / FourSquares(n)
  }

  function FourSquares(n: real): (f: real)
    requires n > 0.0
    ensures f > 0.0
  {
    ProductSign(4.0 * n, n);
    4.0 * n * n
  }

  function Centre(p: real, m: real, z: real): real
    requires m > 0.0
  {
    Squares(z, m);
    (p + z * z / (2.0 * m)) / (1.0 + z * z / m)
  }

  function Half(p: real, m: real, z: real, sqrt: real -> real): real
    requires m > 0.0
  {
    Squares(z, m);
    z * sqrt(Radicand(p, m, z)) / (1.0 + z * z / m)
  }

  function Wilson(k: int, n: int, z: real, sqrt: real -> real): Option<Interval>
    requires n >= 0
  {
    if n == 0 then None
    else
      var m := n as real;
      var p := k as real / m;
      var centre, half := Centre(p, m, z), Half(p, m, z, sqrt);
      Some(Interval(p, Max(0.0, centre - half), Min(1.0, centre + half)))
  }

  lemma Squares(z: real, m: real)
    requires m > 0.0
    ensures z * z >= 0.0 && z * z / m >= 0.0 && z * z / (2.0 * m) >= 0.0 && z * z / FourSquares(m) >= 0.0
  {
    SquareSign(z);
    SquareSign(m);
    Quotient(z * z, m);
    Quotient(z * z, 2.0 * m);
    Quotient(z * z, FourSquares(m));
  }

  /** (p - q)^2 - (z^2/n) q(1 - q), with w = z^2/n: zero exactly at the score bounds. */
  function Gap(p: real, q: real, w: real): real {
    (p - q) * (p - q) - w * (q * (1.0 - q))
  }

  /** The unclamped bounds are the roots of the gap, which is negative exactly between them. */
  ghost predicate AreRoots(p: real, w: real, lo: real, hi: real) {
    lo <= hi && forall q: real :: Gap(p, q, w) == (1.0 + w) * ((q - lo) * (q - hi))
  }

  lemma RootsOf(p: real, w: real, c: real, h: real)
    requires w >= 0.0 && h >= 0.0
    requires (1.0 + w) * c == p + w / 2.0
    requires (1.0 + w) * (1.0 + w) * (h * h) == w * (p * (1.0 - p)) + w * w / 4.0
    ensures AreRoots(p, w, c - h, c + h)
  {
    var d := 1.0 + w;
    assert d * (c * c - h * h) == p * p by {
      assert d * (d * (c * c - h * h)) == (p + w / 2.0) * (p + w / 2.0) - w * (p * (1.0 - p)) - w * w / 4.0;
      assert d * (d * (c * c - h * h)) == d * (p * p);
    }
    forall q: real ensures Gap(p, q, w) == d * ((q - (c - h)) * (q - (c + h))) {
      assert (q - (c - h)) * (q - (c + h)) == q * q - 2.0 * c * q + (c * c - h * h);
      assert d * ((q - (c - h)) * (q - (c + h))) == d * (q * q) - 2.0 * (d * c) * q + d * (c * c - h * h);
    }
  }

  /** What `wilson` promises about its bounds: roots of the gap, inside [0, 1], around the point. */
  ghost predicate AreBounds(p: real, w: real, lo: real, hi: real) {
    AreRoots(p, w, lo, hi) && 0.0 <= lo <= p <= hi <= 1.0
  }

  lemma RootsInRange(p: real, w: real, lo: real, hi: real)
    requires 0.0 <= p <= 1.0 && w >= 0.0 && AreRoots(p, w, lo, hi)
    requires (1.0 + w) * (lo + hi) == 2.0 * p + w
    ensures 0.0 <= lo <= p <= hi <= 1.0
  {
    GapSigns(p, w);
    GapSignAt(p, w, lo, hi, p);
    GapSignAt(p, w, lo, hi, 0.0);
    GapSignAt(p, w, lo, hi, 1.0);
    hide *;
    assert (0.0 - lo) * (0.0 - hi) == lo * hi;
    SignsPlaceRoots(p, w, lo, hi);
  }

  lemma SignsPlaceRoots(p: real, w: real, lo: real, hi: real)
    requires 0.0 <= p <= 1.0 && w >= 0.0 && lo <= hi && (1.0 + w) * (lo + hi) == 2.0 * p + w
    requires (p - lo) * (p - hi) <= 0.0 && lo * hi >= 0.0 && (1.0 - lo) * (1.0 - hi) >= 0.0
    ensures 0.0 <= lo <= p <= hi <= 1.0
  {
    OppositeSigns(p - lo, p - hi);
    SameSign(1.0 + w, lo + hi);
    assert (1.0 + w) * (2.0 - (lo + hi)) == 2.0 * (1.0 - p) + w;
    SameSign(1.0 + w, 2.0 - (lo + hi));
    BothNonNegative(lo, hi);
    BothNonNegative(1.0 - hi, 1.0 - lo);
  }

  lemma GapSignAt(p: real, w: real, lo: real, hi: real, q: real)
    requires w >= 0.0 && AreRoots(p, w, lo, hi)
    ensures Gap(p, q, w) > 0.0 <==> (q - lo) * (q - hi) > 0.0
    ensures Gap(p, q, w) == 0.0 <==> (q - lo) * (q - hi) == 0.0
  {
    var x := (q - lo) * (q - hi);
    assert Gap(p, q, w) == (1.0 + w) * x;
    ProductSign(1.0 + w, x);
  }

  lemma GapSigns(p: real, w: real)
    requires 0.0 <= p <= 1.0 && w >= 0.0
    ensures Gap(p, p, w) <= 0.0 && Gap(p, 0.0, w) >= 0.0 && Gap(p, 1.0, w) >= 0.0
  {
    ProductSign(p, 1.0 - p);
    ProductSign(w, p * (1.0 - p));
    SquareSign(p);
    SquareSign(1.0 - p);
  }

  lemma SameSign(d: real, x: real)
    requires d >= 1.0
    ensures d * x >= 0.0 <==> x >= 0.0
    ensures d * x > 0.0 <==> x > 0.0
  {
    ProductSign(d, x);
  }

  lemma OppositeSigns(u: real, v: real)
    requires u >= v && u * v <= 0.0
    ensures v <= 0.0 <= u
  {
    ProductSign(u, v);
  }

  lemma BothNonNegative(x: real, y: real)
    requires x <= y && x * y >= 0.0 && x + y >= 0.0
    ensures 0.0 <= x
  {
    ProductSign(y, x);
  }

  /**
   The Wilson bounds are the two roots of the gap, lie in [0, 1] around the point, and the
   max/min clamps of the code never bind.
   */
  lemma WilsonBounds(k: int, n: int, z: real, sqrt: real -> real)
    requires 0 <= k <= n && n > 0 && z >= 0.0 && IsSqrt(sqrt)
    ensures var m := n as real; var i := Wilson(k, n, z, sqrt).value;
            && i.point == k as real / m && 0.0 <= i.point <= 1.0
            && AreBounds(i.point, z * z / m, i.lo, i.hi)
  {
    var m := n as real;
    var p, w := k as real / m, z * z / m;
    Quotient(k as real, m);
    var centre, half := Centre(p, m, z), Half(p, m, z, sqrt);
    HalfSquared(p, m, z, sqrt);
    hide Centre, Half, Gap, AreRoots, IsSqrt;
    RootsOf(p, w, centre, half);
    assert (1.0 + w) * ((centre - half) + (centre + half)) == 2.0 * ((1.0 + w) * centre);
    RootsInRange(p, w, centre - half, centre + half);
  }

  lemma HalfSquared(p: real, m: real, z: real, sqrt: real -> real)
    requires m > 0.0 && 0.0 <= p <= 1.0 && z >= 0.0 && IsSqrt(sqrt)
    ensures var w, c, h := z * z / m, Centre(p, m, z), Half(p, m, z, sqrt);
            && w >= 0.0 && h >= 0.0
            && (1.0 + w) * c == p + w / 2.0
            && (1.0 + w) * (1.0 + w) * (h * h) == w * (p * (1.0 - p)) + w * w / 4.0
  {
    RadicandScaled(p, m, z);
    hide Radicand;
    CentreScaled(p, m, z);
    HalfScaled(p, m, z, sqrt);
    hide *;
  }

  lemma CentreScaled(p: real, m: real, z: real)
    requires m > 0.0 && z * z / (2.0 * m) == (z * z / m) / 2.0
    ensures z * z / m >= 0.0 && (1.0 + z * z / m) * Centre(p, m, z) == p + (z * z / m) / 2.0
  {
    Squares(z, m);
    Quotient(p + z * z / (2.0 * m), 1.0 + z * z / m);
  }

  lemma HalfScaled(p: real, m: real, z: real, sqrt: real -> real)
    requires m > 0.0 && z >= 0.0 && IsSqrt(sqrt) && Radicand(p, m, z) >= 0.0
    ensures var w, h := z * z / m, Half(p, m, z, sqrt);
            w >= 0.0 && h >= 0.0 && (1.0 + w) * (1.0 + w) * (h * h) == (z * z) * Radicand(p, m, z)
  {
    hide Radicand;
    var w, h, root := z * z / m, Half(p, m, z, sqrt), sqrt(Radicand(p, m, z));
    Squares(z, m);
    ProductSign(z, root);
    Quotient(z * root, 1.0 + w);
    SquareOfProduct(z, root, 1.0 + w, h);
  }

  lemma SquareOfProduct(z: real, r: real, d: real, x: real)
    requires d * x == z * r
    ensures d * d * (x * x) == (z * z) * (r * r)
  {
    assert d * d * (x * x) == (d * x) * (d * x);
  }

  lemma RadicandScaled(p: real, m: real, z: real)
    requires m > 0.0 && 0.0 <= p <= 1.0
    ensures Radicand(p, m, z) >= 0.0
    ensures var w := z * z / m; (z * z) * Radicand(p, m, z) == w * (p * (1.0 - p)) + w * w / 4.0
    ensures z * z / (2.0 * m) == (z * z / m) / 2.0
  {
    var w, v := z * z / m, p * (1.0 - p);
    Squares(z, m);
    ProductSign(p, 1.0 - p);
    Quotient(v, m);
    assert (z * z) * (v / m) == w * v;
    QuarterSquare(z, m);
  }

  lemma QuarterSquare(z: real, m: real)
    requires m > 0.0
    ensures (z * z) * (z * z / FourSquares(m)) == (z * z / m) * (z * z / m) / 4.0
    ensures z * z / (2.0 * m) == (z * z / m) / 2.0
  {
    var x, f := z * z, FourSquares(m);
    var q, y := x / f, x / m;
    Quotient(x, f);
    Quotient(x, m);
    assert (x * q) * f == x * x;
    assert (y * y / 4.0) * f == (m * y) * (m * y);
    Cancel(x * q, y * y / 4.0, f);
  }

  lemma Cancel(x: real, y: real, c: real)
    requires c > 0.0 && x * c == y * c
    ensures x == y
  {
    assert x * c / c == x && y * c / c == y;
  }

  // ---- consequences for the Wilson interval ----

  /** Two pairs of bounds for the same point coincide. */
  lemma BoundsUnique(p: real, w: real, lo: real, hi: real, lo': real, hi': real)
    requires w >= 0.0 && AreRoots(p, w, lo, hi) && AreRoots(p, w, lo', hi')
    ensures lo == lo' && hi == hi'
  {
    RootIsRoot(p, w, lo, hi, lo', hi');
    RootIsRoot(p, w, lo', hi', lo, hi);
  }

  lemma RootIsRoot(p: real, w: real, lo: real, hi: real, lo': real, hi': real)
    requires w >= 0.0 && AreRoots(p, w, lo, hi) && AreRoots(p, w, lo', hi')
    ensures lo' == lo || lo' == hi
    ensures hi' == lo || hi' == hi
  {
    GapSignAt(p, w, lo', hi', lo');
    GapSignAt(p, w, lo', hi', hi');
    GapSignAt(p, w, lo, hi, lo');
    GapSignAt(p, w, lo, hi, hi');
    ZeroProduct(lo' - lo, lo' - hi);
    ZeroProduct(hi' - lo, hi' - hi);
  }

  lemma ZeroProduct(x: real, y: real)
    ensures x * y == 0.0 <==> x == 0.0 || y == 0.0
  {
    if x != 0.0 {
      assert x * y / x == y;
    }
  }

  /** Both bounds strictly increase with the observed rate, at a fixed sample size. */
  lemma BoundsIncrease(p: real, p': real, w: real, lo: real, hi: real, lo': real, hi': real)
    requires w >= 0.0 && p < p' && AreBounds(p, w, lo, hi) && AreBounds(p', w, lo', hi')
    ensures lo < lo' && hi < hi'
  {
    hide Gap, AreRoots;
    GapAtRoots(p, w, lo, hi);
    GapAtRoots(p', w, lo', hi');
    GapGrows(p, p', w, lo);
    GapGrows(p, p', w, hi');
    OutsideRoots(p', w, lo', hi', lo);
    OutsideRoots(p, w, lo, hi, hi');
  }

  lemma GapAtRoots(p: real, w: real, lo: real, hi: real)
    requires w >= 0.0 && AreRoots(p, w, lo, hi)
    ensures Gap(p, lo, w) == 0.0 && Gap(p, hi, w) == 0.0
  {
    GapSignAt(p, w, lo, hi, lo);
    GapSignAt(p, w, lo, hi, hi);
    ZeroProduct(lo - lo, lo - hi);
    ZeroProduct(hi - lo, hi - hi);
  }

  lemma OutsideRoots(p: real, w: real, lo: real, hi: real, q: real)
    requires w >= 0.0 && AreRoots(p, w, lo, hi) && Gap(p, q, w) > 0.0
    ensures q < lo || hi < q
  {
    GapSignAt(p, w, lo, hi, q);
    ProductSign(q - lo, q - hi);
    ProductSign(q - lo, hi - q);
  }

  lemma GapGrows(p: real, p': real, w: real, q: real)
    requires p < p'
    ensures q <= p ==> Gap(p, q, w) < Gap(p', q, w)
    ensures q >= p' ==> Gap(p', q, w) < Gap(p, q, w)
  {
    var x, y := p' - p, p + p' - 2.0 * q;
    assert Gap(p', q, w) - Gap(p, q, w) == x * y;
    ProductSign(x, y);
  }

  /** Wilson's bounds strictly increase with the number of successes. */
  lemma WilsonIncreases(k: int, k': int, n: int, z: real, sqrt: real -> real)
    requires 0 <= k < k' <= n && z >= 0.0 && IsSqrt(sqrt)
    ensures var i, i' := Wilson(k, n, z, sqrt).value, Wilson(k', n, z, sqrt).value;
            i.point < i'.point && i.lo < i'.lo && i.hi < i'.hi
  {
    var m := n as real;
    WilsonBounds(k, n, z, sqrt);
    WilsonBounds(k', n, z, sqrt);
    hide Wilson;
    var i, i' := Wilson(k, n, z, sqrt).value, Wilson(k', n, z, sqrt).value;
    Squares(z, m);
    RatesIncrease(k, k', n);
    BoundsIncrease(i.point, i'.point, z * z / m, i.lo, i.hi, i'.lo, i'.hi);
  }

  lemma RatesIncrease(k: int, k': int, n: int)
    requires k < k' && n > 0
    ensures k as real / n as real < k' as real / n as real
  {
  }

  /** Counting failures instead of successes mirrors the interval. */
  lemma WilsonMirrors(k: int, n: int, z: real, sqrt: real -> real)
    requires 0 <= k <= n && n > 0 && z >= 0.0 && IsSqrt(sqrt)
    ensures var i := Wilson(k, n, z, sqrt).value;
            Wilson(n - k, n, z, sqrt) == Some(Interval(1.0 - i.point, 1.0 - i.hi, 1.0 - i.lo))
  {
    WilsonBounds(k, n, z, sqrt);
    WilsonBounds(n - k, n, z, sqrt);
    hide Wilson, Gap, AreRoots;
    var w := z * z / n as real;
    var i, i' := Wilson(k, n, z, sqrt).value, Wilson(n - k, n, z, sqrt).value;
    Squares(z, n as real);
    RatesComplement(k, n);
    MirroredRoots(i.point, w, i.lo, i.hi);
    BoundsUnique(i'.point, w, i'.lo, i'.hi, 1.0 - i.hi, 1.0 - i.lo);
  }

  lemma RatesComplement(k: int, n: int)
    requires n > 0
    ensures (n - k) as real / n as real == 1.0 - k as real / n as real
  {
    var m := n as real;
    Quotient(k as real, m);
    Quotient((n - k) as real, m);
    Cancel((n - k) as real / m + k as real / m, 1.0, m);
  }

  lemma MirroredRoots(p: real, w: real, lo: real, hi: real)
    requires AreRoots(p, w, lo, hi)
    ensures AreRoots(1.0 - p, w, 1.0 - hi, 1.0 - lo)
  {
    var p' := 1.0 - p;
    forall q: real ensures Gap(p', q, w) == (1.0 + w) * ((q - (1.0 - hi)) * (q - (1.0 - lo))) {
      MirroredGap(p, q, w);
      assert Gap(p, 1.0 - q, w) == (1.0 + w) * (((1.0 - q) - lo) * ((1.0 - q) - hi));
      assert (q - (1.0 - hi)) * (q - (1.0 - lo)) == ((1.0 - q) - lo) * ((1.0 - q) - hi);
    }
  }

  lemma MirroredGap(p: real, q: real, w: real)
    ensures Gap(1.0 - p, q, w) == Gap(p, 1.0 - q, w)
  {
  }

  // ---- the Newcombe interval for a difference of two rates ----

  function Hypotenuse(x: real, y: real, sqrt: real -> real): real {
    sqrt(x * x + y * y)
  }

  function Newcombe(k1: int, n1: int, k0: int, n0: int, z: real, sqrt: real -> real): Option<Interval>
    requires n1 >= 0 && n0 >= 0
  {
    if n1 == 0 || n0 == 0 then None
    else
      var i1, i0 := Wilson(k1, n1, z, sqrt).value, Wilson(k0, n0, z, sqrt).value;
      var d := i1.point - i0.point;
      Some(Interval(d, d - Hypotenuse(i1.point - i1.lo, i0.hi - i0.point, sqrt),
                       d + Hypotenuse(i1.hi - i1.point, i0.point - i0.lo, sqrt)))
  }

  lemma HypotenuseFacts(x: real, y: real, sqrt: real -> real) returns (h: real)
    requires x >= 0.0 && y >= 0.0 && IsSqrt(sqrt)
    ensures h == Hypotenuse(x, y, sqrt) && h * h == x * x + y * y
    ensures x <= h && y <= h && h <= x + y
  {
    h := Hypotenuse(x, y, sqrt);
    SquareSign(x);
    SquareSign(y);
    ProductSign(x, y);
    assert (x + y) * (x + y) == x * x + y * y + 2.0 * (x * y);
    SquareOrder(x, h);
    SquareOrder(y, h);
    SquareOrder(h, x + y);
  }

  lemma SquareOrder(x: real, y: real)
    requires y >= 0.0 && x * x <= y * y
    ensures x <= y
  {
    assert (x - y) * (x + y) == x * x - y * y;
    ProductSign(x - y, x + y);
  }

  /** Lengthening one leg by `e` lengthens the hypotenuse by at most `e`. */
  lemma HypotenuseLipschitz(x: real, x': real, y: real, e: real, sqrt: real -> real)
    requires 0.0 <= x && 0.0 <= x' <= x + e && y >= 0.0 && e >= 0.0 && IsSqrt(sqrt)
    ensures Hypotenuse(x', y, sqrt) <= Hypotenuse(x, y, sqrt) + e
    ensures Hypotenuse(y, x', sqrt) <= Hypotenuse(y, x, sqrt) + e
  {
    var h := HypotenuseFacts(x, y, sqrt);
    var h' := HypotenuseFacts(x', y, sqrt);
    SumCommutes(x, y, sqrt);
    SumCommutes(x', y, sqrt);
    hide *;
    LongerLeg(x, x', y * y, e, h, h');
  }

  lemma LongerLeg(x: real, x': real, yy: real, e: real, h: real, h': real)
    requires 0.0 <= x <= h && 0.0 <= x' <= x + e && e >= 0.0
    requires h * h == x * x + yy && h' * h' == x' * x' + yy
    ensures h' <= h + e
  {
    ProductOrder(x, h, e);
    SquareIncreases(x', x + e);
    assert (h + e) * (h + e) == h * h + 2.0 * (h * e) + e * e;
    assert (x + e) * (x + e) == x * x + 2.0 * (x * e) + e * e;
    SquareOrder(h', h + e);
  }

  lemma ProductOrder(x: real, y: real, e: real)
    requires x <= y && e >= 0.0
    ensures x * e <= y * e
  {
    ProductSign(y - x, e);
  }

  lemma SquareIncreases(x: real, y: real)
    requires 0.0 <= x <= y
    ensures x * x <= y * y
  {
    ProductOrder(x, y, x);
    ProductOrder(x, y, y);
  }

  /** The interval contains the difference and stays within [-1, 1]. */
  lemma NewcombeRange(k1: int, n1: int, k0: int, n0: int, z: real, sqrt: real -> real)
    requires 0 <= k1 <= n1 && 0 <= k0 <= n0 && n1 > 0 && n0 > 0 && z >= 0.0 && IsSqrt(sqrt)
    ensures var i := Newcombe(k1, n1, k0, n0, z, sqrt).value;
            -1.0 <= i.lo <= i.point <= i.hi <= 1.0
  {
    WilsonBounds(k1, n1, z, sqrt);
    WilsonBounds(k0, n0, z, sqrt);
    hide Wilson, Hypotenuse, AreRoots;
    var i1, i0 := Wilson(k1, n1, z, sqrt).value, Wilson(k0, n0, z, sqrt).value;
    var h := HypotenuseFacts(i1.point - i1.lo, i0.hi - i0.point, sqrt);
    var h' := HypotenuseFacts(i1.hi - i1.point, i0.point - i0.lo, sqrt);
  }

  function Square(x: real): real { x * x }

  /** The difference lies inside the interval, and each side is the hypotenuse of the two arms' own distances. */
  ghost predicate FromArms(d: Interval, i1: Interval, i0: Interval) {
    && d.point == i1.point - i0.point && d.lo <= d.point <= d.hi
    && Square(d.point - d.lo) == Square(i1.point - i1.lo) + Square(i0.hi - i0.point)
    && Square(d.hi - d.point) == Square(i1.hi - i1.point) + Square(i0.point - i0.lo)
  }

  /** What `newcombe_diff` promises, from any two intervals that solve the score equations of the two arms. */
  lemma NewcombeSides(k1: int, n1: int, k0: int, n0: int, z: real, sqrt: real -> real, i1: Interval, i0: Interval)
    requires 0 <= k1 <= n1 && 0 <= k0 <= n0 && n1 > 0 && n0 > 0 && z >= 0.0 && IsSqrt(sqrt)
    requires i1.point == k1 as real / n1 as real && AreRoots(i1.point, z * z / n1 as real, i1.lo, i1.hi)
    requires i0.point == k0 as real / n0 as real && AreRoots(i0.point, z * z / n0 as real, i0.lo, i0.hi)
    ensures FromArms(Newcombe(k1, n1, k0, n0, z, sqrt).value, i1, i0)
  {
    hide AreRoots, IsSqrt, Wilson, Hypotenuse, FromArms;
    WilsonIs(k1, n1, z, sqrt, i1);
    WilsonIs(k0, n0, z, sqrt, i0);
    var d := i1.point - i0.point;
    var low, high := Hypotenuse(i1.point - i1.lo, i0.hi - i0.point, sqrt), Hypotenuse(i1.hi - i1.point, i0.point - i0.lo, sqrt);
    assert Newcombe(k1, n1, k0, n0, z, sqrt).value == Interval(d, d - low, d + high);
    hide *;
    Sides(i1, i0, sqrt);
  }

  lemma Sides(i1: Interval, i0: Interval, sqrt: real -> real)
    requires i1.lo <= i1.point <= i1.hi && i0.lo <= i0.point <= i0.hi && IsSqrt(sqrt)
    ensures var d := i1.point - i0.point;
            FromArms(Interval(d, d - Hypotenuse(i1.point - i1.lo, i0.hi - i0.point, sqrt),
                                 d + Hypotenuse(i1.hi - i1.point, i0.point - i0.lo, sqrt)), i1, i0)
  {
    var low := HypotenuseFacts(i1.point - i1.lo, i0.hi - i0.point, sqrt);
    var high := HypotenuseFacts(i1.hi - i1.point, i0.point - i0.lo, sqrt);
    hide Hypotenuse, IsSqrt;
    var d := i1.point - i0.point;
    assert d - (d - low) == low && (d + high) - d == high;
  }

  lemma WilsonIs(k: int, n: int, z: real, sqrt: real -> real, i: Interval)
    requires 0 <= k <= n && n > 0 && z >= 0.0 && IsSqrt(sqrt)
    requires i.point == k as real / n as real && AreRoots(i.point, z * z / n as real, i.lo, i.hi)
    ensures Wilson(k, n, z, sqrt) == Some(i) && 0.0 <= i.lo <= i.point <= i.hi <= 1.0
  {
    WilsonBounds(k, n, z, sqrt);
    Squares(z, n as real);
    hide Gap, AreRoots, Centre, Half;
    var j := Wilson(k, n, z, sqrt).value;
    BoundsUnique(i.point, z * z / n as real, i.lo, i.hi, j.lo, j.hi);
  }

  /** Swapping the two arms negates the difference and swaps the negated bounds. */
  lemma NewcombeSwaps(k1: int, n1: int, k0: int, n0: int, z: real, sqrt: real -> real)
    requires n1 > 0 && n0 > 0
    ensures var i := Newcombe(k1, n1, k0, n0, z, sqrt).value;
            Newcombe(k0, n0, k1, n1, z, sqrt) == Some(Interval(-i.point, -i.hi, -i.lo))
  {
    var i1, i0 := Wilson(k1, n1, z, sqrt).value, Wilson(k0, n0, z, sqrt).value;
    SumCommutes(i1.hi - i1.point, i0.point - i0.lo, sqrt);
    SumCommutes(i1.point - i1.lo, i0.hi - i0.point, sqrt);
  }

  lemma SumCommutes(x: real, y: real, sqrt: real -> real)
    ensures Hypotenuse(x, y, sqrt) == Hypotenuse(y, x, sqrt)
  {
    assert x * x + y * y == y * y + x * x;
  }

  /** More tier successes and fewer control successes never lower the lower bound. */
  lemma NewcombeMonotone(k1: int, k1': int, n1: int, k0: int, k0': int, n0: int, z: real, sqrt: real -> real)
    requires 0 <= k1 <= k1' <= n1 && 0 <= k0' <= k0 <= n0 && n1 > 0 && n0 > 0 && z >= 0.0 && IsSqrt(sqrt)
    ensures Newcombe(k1, n1, k0, n0, z, sqrt).value.lo <= Newcombe(k1', n1, k0', n0, z, sqrt).value.lo
  {
    var i1, i1' := Wilson(k1, n1, z, sqrt).value, Wilson(k1', n1, z, sqrt).value;
    var i0, i0' := Wilson(k0, n0, z, sqrt).value, Wilson(k0', n0, z, sqrt).value;
    hide Wilson, Hypotenuse, IsSqrt;
    WilsonOrdered(k1, k1', n1, z, sqrt);
    WilsonOrdered(k0', k0, n0, z, sqrt);
    HypotenuseLipschitz(i1.point - i1.lo, i1'.point - i1'.lo, i0.hi - i0.point, i1'.point - i1.point, sqrt);
    HypotenuseLipschitz(i0.hi - i0.point, i0'.hi - i0'.point, i1'.point - i1'.lo, i0.point - i0'.point, sqrt);
  }

  /** No fewer successes: an interval no lower, around its point. */
  lemma WilsonOrdered(k: int, k': int, n: int, z: real, sqrt: real -> real)
    requires 0 <= k <= k' <= n && n > 0 && z >= 0.0 && IsSqrt(sqrt)
    ensures var i, i' := Wilson(k, n, z, sqrt).value, Wilson(k', n, z, sqrt).value;
            && 0.0 <= i.lo <= i.point <= i.hi <= 1.0 && 0.0 <= i'.lo <= i'.point <= i'.hi <= 1.0
            && i.lo <= i'.lo && i.point <= i'.point && i.hi <= i'.hi
  {
    WilsonBounds(k, n, z, sqrt);
    WilsonBounds(k', n, z, sqrt);
    hide AreRoots, Wilson, Gap;
    if k < k' {
      WilsonIncreases(k, k', n, z, sqrt);
    }
  }

  // ---- the verdict over recorded episodes ----

  const MARGIN := 0.05
  const Z := 1.96

  datatype Episode = Episode(tier: string, kind: string, success: bool)

  /** The episode ended in a verdict rather than an error. */
  predicate HasVerdict(e: Episode) { e.kind == "pass" || e.kind == "fail" }

  /** Episodes of one tier that carry a verdict. */
  predicate Counts(e: Episode, arm: string) {
    e.tier == arm && HasVerdict(e)
  }

  function Rows(episodes: seq<Episode>, arm: string): (n: int)
    ensures 0 <= n <= |episodes|
  {
    if episodes == [] then 0
    else Rows(episodes[1..], arm) + if Counts(episodes[0], arm) then 1 else 0
  }

  function Wins(episodes: seq<Episode>, arm: string): (k: int)
    ensures 0 <= k <= Rows(episodes, arm)
  {
    if episodes == [] then 0
    else Wins(episodes[1..], arm) + if Counts(episodes[0], arm) && episodes[0].success then 1 else 0
  }

  /** `non_inferior_5pp` of a non-control tier: None when either arm has no verdicts. */
  function NonInferior(episodes: seq<Episode>, arm: string, control: string, sqrt: real -> real): Option<bool> {
    match Newcombe(Wins(episodes, arm), Rows(episodes, arm), Wins(episodes, control), Rows(episodes, control), Z, sqrt)
    case None => None
    case Some(i) => Some(i.lo >= -MARGIN)
  }

  /** A tier's verdicts and successes are counted one by one. */
  lemma {:induction false} CountsAppend(episodes: seq<Episode>, e: Episode, arm: string)
    ensures Rows([], arm) == Wins([], arm) == 0
    ensures Rows(episodes + [e], arm) == Rows(episodes, arm) + if e.tier == arm && e.kind in ["pass", "fail"] then 1 else 0
    ensures Wins(episodes + [e], arm) ==
            Wins(episodes, arm) + if e.tier == arm && e.kind in ["pass", "fail"] && e.success then 1 else 0
    decreases |episodes|
  {
    if episodes == [] {
      assert [] + [e] == [e] && [e][1..] == [];
    } else {
      CountsAppend(episodes[1..], e, arm);
      assert (episodes + [e])[1..] == episodes[1..] + [e];
    }
  }

  /**
   The published verdict, with no square root in it: the difference, raised by five points, is at least
   the hypotenuse of the tier's distance down to its lower bound and the control's up to its upper one.
   */
  lemma VerdictIs(episodes: seq<Episode>, arm: string, control: string, sqrt: real -> real, i1: Interval, i0: Interval)
    requires IsSqrt(sqrt) && Rows(episodes, arm) > 0 && Rows(episodes, control) > 0
    requires i1.point == Wins(episodes, arm) as real / Rows(episodes, arm) as real
    requires i0.point == Wins(episodes, control) as real / Rows(episodes, control) as real
    requires AreRoots(i1.point, 1.96 * 1.96 / Rows(episodes, arm) as real, i1.lo, i1.hi)
    requires AreRoots(i0.point, 1.96 * 1.96 / Rows(episodes, control) as real, i0.lo, i0.hi)
    ensures var raised := i1.point - i0.point + 0.05;
            NonInferior(episodes, arm, control, sqrt) ==
            Some(raised >= 0.0 && Square(i1.point - i1.lo) + Square(i0.hi - i0.point) <= Square(raised))
  {
    var k1, n1, k0, n0 := Wins(episodes, arm), Rows(episodes, arm), Wins(episodes, control), Rows(episodes, control);
    hide Wins, Rows, AreRoots, IsSqrt;
    NewcombeSides(k1, n1, k0, n0, Z, sqrt, i1, i0);
    var d := Newcombe(k1, n1, k0, n0, Z, sqrt).value;
    hide Newcombe;
    var side, raised := d.point - d.lo, d.point + 0.05;
    SquaresCompare(side, raised);
  }

  lemma SquaresCompare(x: real, y: real)
    requires x >= 0.0
    ensures x <= y <==> y >= 0.0 && Square(x) <= Square(y)
  {
    if y >= 0.0 {
      if Square(x) <= Square(y) {
        SquareOrder(x, y);
      } else if x <= y {
        SquareIncreases(x, y);
      }
    }
  }

  /** There is no verdict exactly when an arm has no episode that ended in one. */
  lemma NoVerdictIff(episodes: seq<Episode>, arm: string, control: string, sqrt: real -> real)
    ensures NonInferior(episodes, arm, control, sqrt).None? <==>
              (forall i :: 0 <= i < |episodes| && HasVerdict(episodes[i]) ==> episodes[i].tier != arm)
              || (forall i :: 0 <= i < |episodes| && HasVerdict(episodes[i]) ==> episodes[i].tier != control)
  {
    NoRowsIff(episodes, arm);
    NoRowsIff(episodes, control);
    hide HasVerdict, Wilson, Hypotenuse;
  }

  lemma {:induction false} NoRowsIff(episodes: seq<Episode>, arm: string)
    ensures Rows(episodes, arm) == 0 <==> forall i :: 0 <= i < |episodes| && HasVerdict(episodes[i]) ==> episodes[i].tier != arm
  {
    if episodes != [] {
      NoRowsIff(episodes[1..], arm);
      assert forall i :: 1 <= i < |episodes| ==> episodes[i] == episodes[1..][i - 1];
    }
  }

  /** The same episodes, with some tier failures turned into passes and some control passes into failures. */
  ghost predicate Improves(before: seq<Episode>, after: seq<Episode>, arm: string, control: string) {
    |before| == |after| &&
    forall i :: 0 <= i < |before| ==>
      && before[i].tier == after[i].tier && (HasVerdict(before[i]) <==> HasVerdict(after[i]))
      && (before[i].tier == arm && before[i].success ==> after[i].success)
      && (before[i].tier == control && after[i].success ==> before[i].success)
  }

  /** How an episode is written: a verdict is a success exactly when its kind is `pass`. */
  ghost predicate Recorded(episodes: seq<Episode>) {
    forall i :: 0 <= i < |episodes| && HasVerdict(episodes[i]) ==> (episodes[i].success <==> episodes[i].kind == "pass")
  }

  /** The episodes with the verdict of one of them decided the other way. */
  function Decided(episodes: seq<Episode>, i: nat, pass: bool): seq<Episode>
    requires i < |episodes|
  {
    episodes[i := Episode(episodes[i].tier, if pass then "pass" else "fail", pass)]
  }

  /** One more success in a tier, or one fewer, when one of its verdicts is turned. */
  lemma {:induction false} TurnedCounts(episodes: seq<Episode>, i: nat, pass: bool, arm: string)
    requires i < |episodes| && HasVerdict(episodes[i]) && episodes[i].success != pass
    ensures Rows(Decided(episodes, i, pass), arm) == Rows(episodes, arm)
    ensures Wins(Decided(episodes, i, pass), arm) ==
            Wins(episodes, arm) + if episodes[i].tier != arm then 0 else if pass then 1 else -1
    decreases i
  {
    var after := Decided(episodes, i, pass);
    if i == 0 {
      assert after[1..] == episodes[1..];
    } else {
      TurnedCounts(episodes[1..], i - 1, pass, arm);
      assert after[1..] == Decided(episodes[1..], i - 1, pass);
    }
  }

  /**
   Turning a recorded tier failure into a pass, or a control pass into a failure, gives recorded episodes
   that improve on the first ones by exactly that success; so the verdict is not withdrawn.
   */
  lemma TurningImproves(episodes: seq<Episode>, i: nat, arm: string, control: string, sqrt: real -> real)
    requires IsSqrt(sqrt) && Recorded(episodes) && arm != control && i < |episodes|
    requires episodes[i].tier == arm || episodes[i].tier == control
    requires episodes[i].kind == if episodes[i].tier == arm then "fail" else "pass"
    ensures var after := Decided(episodes, i, episodes[i].tier == arm);
            && Recorded(after) && Improves(episodes, after, arm, control)
            && Wins(after, arm) - Wins(after, control) == Wins(episodes, arm) - Wins(episodes, control) + 1
            && (NonInferior(episodes, arm, control, sqrt) == Some(true) ==> NonInferior(after, arm, control, sqrt) == Some(true))
  {
    var pass := episodes[i].tier == arm;
    TurnedCounts(episodes, i, pass, arm);
    TurnedCounts(episodes, i, pass, control);
    hide NonInferior, Wins, Rows, IsSqrt;
    VerdictMonotone(episodes, Decided(episodes, i, pass), arm, control, sqrt);
  }

  lemma {:induction false} ImprovedCounts(before: seq<Episode>, after: seq<Episode>, arm: string, control: string)
    requires Improves(before, after, arm, control)
    ensures Rows(before, arm) == Rows(after, arm) && Wins(before, arm) <= Wins(after, arm)
    ensures Rows(before, control) == Rows(after, control) && Wins(after, control) <= Wins(before, control)
  {
    if before != [] {
      ImprovedCounts(before[1..], after[1..], arm, control);
    }
  }

  /** Better tier outcomes and worse control outcomes never withdraw a non-inferiority verdict. */
  lemma VerdictMonotone(before: seq<Episode>, after: seq<Episode>, arm: string, control: string, sqrt: real -> real)
    requires IsSqrt(sqrt) && Improves(before, after, arm, control)
    ensures NonInferior(before, arm, control, sqrt) == Some(true) ==> NonInferior(after, arm, control, sqrt) == Some(true)
    ensures NonInferior(before, arm, control, sqrt) == None <==> NonInferior(after, arm, control, sqrt) == None
  {
    ImprovedCounts(before, after, arm, control);
    if Rows(before, arm) > 0 && Rows(before, control) > 0 {
      NewcombeMonotone(Wins(before, arm), Wins(after, arm), Rows(before, arm),
                       Wins(before, control), Wins(after, control), Rows(before, control), Z, sqrt);
    }
  }
}
