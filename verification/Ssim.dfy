/**
 The uniform-window SSIM fallback of the observation-quality benchmark, over reals:
 summed-area tables against direct window sums, and the bounds of the score.
 */
module Ssim {
  import opened Reals

  /** A grayscale array: rows of equal width, both dimensions at least one. */
  datatype Image = Image(rows: seq<seq<real>>, width: nat)
  {
    function Height(): nat { |rows| }

    ghost predicate Valid() {
      |rows| > 0 && width > 0 && forall i :: 0 <= i < |rows| ==> |rows[i]| == width
    }
  }

  // ---- sequences of reals ----

  function Sum(s: seq<real>): real {
    if s == [] then 0.0 else Sum(s[..|s| - 1]) + s[|s| - 1]
  }

  lemma {:induction false} SumConcat(s: seq<real>, t: seq<real>)
    ensures Sum(s + t) == Sum(s) + Sum(t)
  {
    if t == [] {
      assert s + t == s;
    } else {
      assert (s + t)[..|s + t| - 1] == s + t[..|t| - 1];
      SumConcat(s, t[..|t| - 1]);
    }
  }

  function Times(s: seq<real>, t: seq<real>): (p: seq<real>)
    requires |s| == |t|
    ensures |p| == |s|
    ensures forall i :: 0 <= i < |s| ==> p[i] == s[i] * t[i]
  {
    seq(|s|, i requires 0 <= i < |s| => s[i] * t[i])
  }

  function Plus(s: seq<real>, t: seq<real>): (p: seq<real>)
    requires |s| == |t|
    ensures |p| == |s|
    ensures forall i :: 0 <= i < |s| ==> p[i] == s[i] + t[i]
  {
    seq(|s|, i requires 0 <= i < |s| => s[i] + t[i])
  }

  function Product(a: Image, b: Image): (p: Image)
    requires a.Valid() && b.Valid() && a.width == b.width && a.Height() == b.Height()
    ensures p.Valid() && p.width == a.width && p.Height() == a.Height()
    ensures forall i :: 0 <= i < p.Height() ==> p.rows[i] == Times(a.rows[i], b.rows[i])
  {
    Image(seq(a.Height(), i requires 0 <= i < a.Height() => Times(a.rows[i], b.rows[i])), a.width)
  }

  // ---- the summed-area table (numpy cumsum, cumsum, pad) ----

  /** Running sums down the rows (axis 0). */
  function CumulateRows(rows: seq<seq<real>>, w: nat): (c: seq<seq<real>>)
    requires forall i :: 0 <= i < |rows| ==> |rows[i]| == w
    ensures |c| == |rows|
    ensures forall i :: 0 <= i < |c| ==> |c[i]| == w
  {
    if rows == [] then []
    else
      var front := CumulateRows(rows[..|rows| - 1], w);
      var last := rows[|rows| - 1];
      front + [if front == [] then last else Plus(front[|front| - 1], last)]
  }

  /** Running sums along one row (axis 1). */
  function Cumulate(s: seq<real>): (c: seq<real>)
    ensures |c| == |s|
  {
    if s == [] then []
    else
      var front := Cumulate(s[..|s| - 1]);
      var last := s[|s| - 1];
      front + [if front == [] then last else front[|front| - 1] + last]
  }

  function Zeros(n: nat): (z: seq<real>)
    ensures |z| == n && forall j :: 0 <= j < n ==> z[j] == 0.0
  {
    seq(n, _ => 0.0)
  }

  function CumulateEach(rows: seq<seq<real>>): (c: seq<seq<real>>)
    ensures |c| == |rows|
    ensures forall i :: 0 <= i < |c| ==> c[i] == [0.0] + Cumulate(rows[i])
  {
    if rows == [] then [] else [[0.0] + Cumulate(rows[0])] + CumulateEach(rows[1..])
  }

  /** Both running sums, padded with a zero row on top and a zero column on the left. */
  function Table(x: Image): (c: seq<seq<real>>)
    requires x.Valid()
    ensures |c| == x.Height() + 1 && forall i :: 0 <= i < |c| ==> |c[i]| == x.width + 1
  {
    [Zeros(x.width + 1)] + CumulateEach(CumulateRows(x.rows, x.width))
  }

  function Cell(x: Image, i: nat, j: nat): real
    requires x.Valid() && i <= x.Height() && j <= x.width
  {
    Table(x)[i][j]
  }

  function Area(k: nat): (n: nat)
    requires 1 <= k
    ensures 1 <= n
  {
    k * k
  }

  /** `win_mean`: the mean of the k x k window whose top-left corner is (i, j), from four table cells. */
  function WinMean(x: Image, k: nat, i: nat, j: nat): real
    requires x.Valid() && 1 <= k && i + k <= x.Height() && j + k <= x.width
  {
    (Cell(x, i + k, j + k) - Cell(x, i, j + k) - Cell(x, i + k, j) + Cell(x, i, j)) / Area(k) as real
  }

  // ---- direct window sums ----

  /** The pixels of rows [i, i + n) and columns [j, j + m), row by row. */
  function Window(x: Image, i: nat, n: nat, j: nat, m: nat): (s: seq<real>)
    requires x.Valid() && i + n <= x.Height() && j + m <= x.width
  {
    if n == 0 then [] else Window(x, i, n - 1, j, m) + x.rows[i + n - 1][j..j + m]
  }

  /** The sum of the same pixels, one row at a time. */
  function BoxSum(x: Image, i: nat, n: nat, j: nat, m: nat): (s: real)
    requires x.Valid() && i + n <= x.Height() && j + m <= x.width
  {
    if n == 0 then 0.0 else BoxSum(x, i, n - 1, j, m) + Sum(x.rows[i + n - 1][j..j + m])
  }

  lemma {:induction false} WindowSum(x: Image, i: nat, n: nat, j: nat, m: nat)
    requires x.Valid() && i + n <= x.Height() && j + m <= x.width
    ensures Sum(Window(x, i, n, j, m)) == BoxSum(x, i, n, j, m)
  {
    if n > 0 {
      WindowSum(x, i, n - 1, j, m);
      SumConcat(Window(x, i, n - 1, j, m), x.rows[i + n - 1][j..j + m]);
    }
  }

  lemma {:induction false} WindowLength(x: Image, i: nat, n: nat, j: nat, m: nat)
    requires x.Valid() && i + n <= x.Height() && j + m <= x.width
    ensures |Window(x, i, n, j, m)| == n * m
  {
    if n > 0 {
      WindowLength(x, i, n - 1, j, m);
      assert n * m == (n - 1) * m + m;
    }
  }

  lemma {:induction false} CumulateIsSum(s: seq<real>, j: nat)
    requires j < |s|
    ensures Cumulate(s)[j] == Sum(s[..j + 1])
  {
    var front := s[..|s| - 1];
    if j == |s| - 1 {
      assert s[..j + 1] == s;
      if front != [] {
        CumulateIsSum(front, j - 1);
        assert front[..j] == front;
      }
    } else {
      CumulateIsSum(front, j);
      assert front[..j + 1] == s[..j + 1];
    }
  }

  lemma {:induction false} SumPlus(s: seq<real>, t: seq<real>)
    requires |s| == |t|
    ensures Sum(Plus(s, t)) == Sum(s) + Sum(t)
  {
    if s != [] {
      var n := |s| - 1;
      assert Plus(s, t)[..n] == Plus(s[..n], t[..n]);
      SumPlus(s[..n], t[..n]);
    }
  }

  lemma {:induction false} CumulatedRowIsBox(x: Image, n: nat, j: nat)
    requires x.Valid() && 1 <= n <= x.Height() && j <= x.width
    ensures Sum(CumulateRows(x.rows, x.width)[n - 1][..j]) == BoxSum(x, 0, n, 0, j)
  {
    CumulateRowsStep(x.rows, x.width, n);
    hide CumulateRows;
    var last := x.rows[n - 1];
    assert last[0..j] == last[..j];
    if n > 1 {
      CumulatedRowIsBox(x, n - 1, j);
      var above := CumulateRows(x.rows, x.width)[n - 2];
      hide Sum, Plus;
      SumPlusPrefix(above, last, j);
    }
  }

  lemma SumPlusPrefix(s: seq<real>, t: seq<real>, j: nat)
    requires |s| == |t| && j <= |s|
    ensures Sum(Plus(s, t)[..j]) == Sum(s[..j]) + Sum(t[..j])
  {
    assert Plus(s, t)[..j] == Plus(s[..j], t[..j]);
    SumPlus(s[..j], t[..j]);
  }

  lemma {:induction false} CumulateRowsStep(rows: seq<seq<real>>, w: nat, n: nat)
    requires forall i :: 0 <= i < |rows| ==> |rows[i]| == w
    requires 1 <= n <= |rows|
    ensures CumulateRows(rows, w)[n - 1] ==
            if n == 1 then rows[0] else Plus(CumulateRows(rows, w)[n - 2], rows[n - 1])
  {
    if n < |rows| {
      CumulateRowsStep(rows[..|rows| - 1], w, n);
    }
  }

  /** A table cell holds the sum of everything above and to the left of it. */
  lemma TableIsBox(x: Image, i: nat, j: nat)
    requires x.Valid() && i <= x.Height() && j <= x.width
    ensures Cell(x, i, j) == BoxSum(x, 0, i, 0, j)
  {
    if i > 0 {
      CumulatedRowIsBox(x, i, j);
      var row := CumulateRows(x.rows, x.width)[i - 1];
      assert Table(x)[i] == [0.0] + Cumulate(row);
      if j > 0 {
        CumulateIsSum(row, j - 1);
      }
    }
  }

  lemma {:induction false} SplitRows(x: Image, i: nat, n: nat, j: nat, m: nat)
    requires x.Valid() && i + n <= x.Height() && j + m <= x.width
    ensures BoxSum(x, 0, i + n, j, m) == BoxSum(x, 0, i, j, m) + BoxSum(x, i, n, j, m)
  {
    if n > 0 {
      SplitRows(x, i, n - 1, j, m);
    }
  }

  lemma {:induction false} SplitColumns(x: Image, i: nat, n: nat, j: nat, m: nat)
    requires x.Valid() && i + n <= x.Height() && j + m <= x.width
    ensures BoxSum(x, i, n, 0, j + m) == BoxSum(x, i, n, 0, j) + BoxSum(x, i, n, j, m)
  {
    if n > 0 {
      SplitColumns(x, i, n - 1, j, m);
      var row := x.rows[i + n - 1];
      SumConcat(row[0..j], row[j..j + m]);
      assert row[0..j + m] == row[0..j] + row[j..j + m];
    }
  }

  lemma FourCells(x: Image, k: nat, i: nat, j: nat)
    requires x.Valid() && i + k <= x.Height() && j + k <= x.width
    ensures Cell(x, i + k, j + k) - Cell(x, i, j + k) - Cell(x, i + k, j) + Cell(x, i, j) == BoxSum(x, i, k, j, k)
  {
    hide *;
    TableIsBox(x, i + k, j + k);
    TableIsBox(x, i, j + k);
    TableIsBox(x, i + k, j);
    TableIsBox(x, i, j);
    SplitRows(x, i, k, 0, j + k);
    SplitRows(x, i, k, 0, j);
    SplitColumns(x, i, k, j, k);
  }

  /** The four-cell formula is the direct mean of the window, at every position of every image. */
  lemma WinMeanIsMean(x: Image, k: nat, i: nat, j: nat)
    requires x.Valid() && 1 <= k && i + k <= x.Height() && j + k <= x.width
    ensures |Window(x, i, k, j, k)| == Area(k)
    ensures WinMean(x, k, i, j) == Mean(Window(x, i, k, j, k))
  {
    WindowLength(x, i, k, j, k);
    hide Cell, BoxSum, Sum, Window;
    FourCells(x, k, i, j);
    WindowSum(x, i, k, j, k);
  }

  // ---- statistics of one window ----

  function Mean(u: seq<real>): real
    requires |u| > 0
  {
    Sum(u) / |u| as real
  }

  function Covariance(u: seq<real>, v: seq<real>): real
    requires |u| == |v| > 0
  {
    Mean(Times(u, v)) - Mean(u) * Mean(v)
  }

  function Square(e: real): (q: real)
    ensures q >= 0.0
    ensures q == 0.0 <==> e == 0.0
  {
    SquareSign(e);
    e * e
  }

  lemma SumOfTimes(u: seq<real>, v: seq<real>)
    requires |u| == |v| > 0
    ensures var n := |u| - 1; Sum(Times(u, v)) == Sum(Times(u[..n], v[..n])) + u[n] * v[n]
  {
    var n := |u| - 1;
    var whole, front := Times(u, v), Times(u[..n], v[..n]);
    forall i | 0 <= i < n ensures whole[..n][i] == front[i] {
      assert u[..n][i] == u[i] && v[..n][i] == v[i];
    }
    assert whole[..n] == front;
  }

  /** The six sums of a pair of sequences. */
  datatype Sums = Sums(uu: real, uv: real, vv: real, u: real, v: real, n: real)

  function SumsOf(u: seq<real>, v: seq<real>): Sums
    requires |u| == |v|
  {
    Sums(Sum(Times(u, u)), Sum(Times(u, v)), Sum(Times(v, v)), Sum(u), Sum(v), |u| as real)
  }

  function AddPixel(z: Sums, x: real, y: real): Sums {
    Sums(z.uu + x * x, z.uv + x * y, z.vv + y * y, z.u + x, z.v + y, z.n + 1.0)
  }

  lemma SumsOfLast(u: seq<real>, v: seq<real>)
    requires |u| == |v| > 0
    ensures var n := |u| - 1; SumsOf(u, v) == AddPixel(SumsOf(u[..n], v[..n]), u[n], v[n])
  {
    SumOfTimes(u, u);
    SumOfTimes(u, v);
    SumOfTimes(v, v);
  }

  /** s^2 * uu + 2st * uv + t^2 * vv - 2c * (s * u + t * v) + c^2 * n */
  function Quadratic(s: real, t: real, c: real, z: Sums): real {
    (s * s) * z.uu + (2.0 * s * t) * z.uv + (t * t) * z.vv
    - (2.0 * c * s) * z.u - (2.0 * c * t) * z.v + (c * c) * z.n
  }

  lemma QuadraticAddPixel(s: real, t: real, c: real, z: Sums, x: real, y: real)
    ensures Quadratic(s, t, c, AddPixel(z, x, y)) == Quadratic(s, t, c, z) + Residual(x, y, s, t, c)
  {
  }

  function Residual(x: real, y: real, s: real, t: real, c: real): real {
    Square(s * x + t * y - c)
  }

  /** The squared deviations of s*u + t*v from the constant c. */
  function Deviations(u: seq<real>, v: seq<real>, s: real, t: real, c: real): (d: seq<real>)
    requires |u| == |v|
    ensures |d| == |u|
    ensures forall i :: 0 <= i < |d| ==> d[i] == Residual(u[i], v[i], s, t, c)
  {
    seq(|u|, i requires 0 <= i < |u| => Residual(u[i], v[i], s, t, c))
  }

  lemma SumOfDeviations(u: seq<real>, v: seq<real>, s: real, t: real, c: real)
    requires |u| == |v| > 0
    ensures var n := |u| - 1;
            Sum(Deviations(u, v, s, t, c)) == Sum(Deviations(u[..n], v[..n], s, t, c)) + Residual(u[n], v[n], s, t, c)
  {
    var n := |u| - 1;
    var whole, front := Deviations(u, v, s, t, c), Deviations(u[..n], v[..n], s, t, c);
    forall i | 0 <= i < n ensures whole[..n][i] == front[i] {
      assert u[..n][i] == u[i] && v[..n][i] == v[i];
    }
    assert whole[..n] == front;
  }

  /** The summed squared deviations, expanded into the sums the SSIM formula uses. */
  lemma {:induction false} DeviationsExpanded(u: seq<real>, v: seq<real>, s: real, t: real, c: real) returns (d: real, q: real)
    requires |u| == |v|
    ensures d == Sum(Deviations(u, v, s, t, c)) && q == Quadratic(s, t, c, SumsOf(u, v)) && d == q
  {
    if u == [] {
      d, q := 0.0, 0.0;
    } else {
      hide Quadratic, SumsOf, AddPixel;
      var n := |u| - 1;
      d, q := DeviationsExpanded(u[..n], v[..n], s, t, c);
      QuadraticAddPixel(s, t, c, SumsOf(u[..n], v[..n]), u[n], v[n]);
      SumsOfLast(u, v);
      SumOfDeviations(u, v, s, t, c);
      d, q := d + Residual(u[n], v[n], s, t, c), q + Residual(u[n], v[n], s, t, c);
    }
  }

  lemma CentredAlgebra(s: real, t: real, n: real, z: Sums, mu: real, mv: real, uu: real, uv: real, vv: real)
    requires z.n == n && z.u == n * mu && z.v == n * mv && z.uu == n * uu && z.uv == n * uv && z.vv == n * vv
    ensures Quadratic(s, t, s * mu + t * mv, z) ==
            n * ((s * s) * (uu - mu * mu) + (2.0 * s * t) * (uv - mu * mv) + (t * t) * (vv - mv * mv))
  {
    var c := s * mu + t * mv;
    assert c * c == (s * s) * (mu * mu) + (2.0 * s * t) * (mu * mv) + (t * t) * (mv * mv);
    calc {
      Quadratic(s, t, c, z);
      (s * s) * (n * uu) + (2.0 * s * t) * (n * uv) + (t * t) * (n * vv)
      - (2.0 * c * s) * (n * mu) - (2.0 * c * t) * (n * mv) + (c * c) * n;
      n * ((s * s) * uu + (2.0 * s * t) * uv + (t * t) * vv - 2.0 * c * (s * mu + t * mv) + c * c);
      n * ((s * s) * uu + (2.0 * s * t) * uv + (t * t) * vv - c * c);
    }
  }

  /** s^2 Var(u) + 2st Cov(u, v) + t^2 Var(v) */
  function Form(u: seq<real>, v: seq<real>, s: real, t: real): real
    requires |u| == |v| > 0
  {
    (s * s) * Covariance(u, u) + (2.0 * s * t) * Covariance(u, v) + (t * t) * Covariance(v, v)
  }

  lemma CentredForm(u: seq<real>, v: seq<real>, s: real, t: real)
    requires |u| == |v| > 0
    ensures Quadratic(s, t, s * Mean(u) + t * Mean(v), SumsOf(u, v)) == |u| as real * Form(u, v, s, t)
  {
    CentredAlgebra(s, t, |u| as real, SumsOf(u, v), Mean(u), Mean(v),
                   Mean(Times(u, u)), Mean(Times(u, v)), Mean(Times(v, v)));
  }

  lemma NonNegativeFactor(p: real, x: real)
    requires p > 0.0 && p * x >= 0.0
    ensures x >= 0.0
  {
    assert p * x / p == x;
  }

  /** The covariance form is a mean of squares, zero only if s*u + t*v is constant. */
  lemma FormIsMeanSquare(u: seq<real>, v: seq<real>, s: real, t: real)
    requires |u| == |v| > 0
    ensures Form(u, v, s, t) >= 0.0
    ensures Form(u, v, s, t) == 0.0 ==> forall i :: 0 <= i < |u| ==> s * u[i] + t * v[i] == s * Mean(u) + t * Mean(v)
  {
    hide Quadratic, Form, Mean;
    var n, c, q := |u| as real, s * Mean(u) + t * Mean(v), Form(u, v, s, t);
    var d, _ := DeviationsExpanded(u, v, s, t, c);
    CentredForm(u, v, s, t);
    SumOfNonNegative(Deviations(u, v, s, t, c));
    assert d == n * q >= 0.0;
    NonNegativeFactor(n, q);
    if q == 0.0 {
      forall i | 0 <= i < |u| ensures s * u[i] + t * v[i] == c {
        assert Deviations(u, v, s, t, c)[i] == 0.0;
      }
    }
  }

  lemma {:induction false} SumOfNonNegative(s: seq<real>)
    requires forall i :: 0 <= i < |s| ==> s[i] >= 0.0
    ensures Sum(s) >= 0.0
    ensures Sum(s) == 0.0 ==> forall i :: 0 <= i < |s| ==> s[i] == 0.0
  {
    if s != [] {
      SumOfNonNegative(s[..|s| - 1]);
      assert forall i :: 0 <= i < |s| - 1 ==> s[..|s| - 1][i] == s[i];
    }
  }

  /** A window's variance is never negative, and its covariance obeys Cauchy-Schwarz. */
  lemma CauchySchwarz(u: seq<real>, v: seq<real>)
    requires |u| == |v| > 0
    ensures Covariance(u, u) >= 0.0 && Covariance(v, v) >= 0.0
    ensures Covariance(u, v) * Covariance(u, v) <= Covariance(u, u) * Covariance(v, v)
  {
    hide Covariance, Mean;
    var p, c, q := Covariance(u, u), Covariance(u, v), Covariance(v, v);
    FormIsMeanSquare(u, v, 1.0, 0.0);
    FormIsMeanSquare(u, v, 0.0, 1.0);
    if p > 0.0 {
      FormIsMeanSquare(u, v, c, -p);
      assert Form(u, v, c, -p) == p * (p * q - c * c);
      NonNegativeFactor(p, p * q - c * c);
    } else if q > 0.0 {
      FormIsMeanSquare(u, v, q, -c);
      assert Form(u, v, q, -c) == q * (p * q - c * c);
      NonNegativeFactor(q, p * q - c * c);
    } else {
      FormIsMeanSquare(u, v, 1.0, 1.0);
      FormIsMeanSquare(u, v, 1.0, -1.0);
      assert c == 0.0;
    }
  }

  // ---- the score ----

  const C1 := 6.5025    // (0.01 * 255)^2
  const C2 := 58.5225   // (0.03 * 255)^2

  function Score(ma: real, mb: real, va: real, vb: real, cov: real): real
  {
    Fraction(Overlap(ma, mb), Energy(ma, mb), 2.0 * cov + C2, va + vb + C2)
  }

  /** (p * q) / (b * d); the denominators that occur are positive (see DenominatorPositive). */
  function Fraction(p: real, b: real, q: real, d: real): real {
    if b * d == 0.0 then 0.0 else (p * q) / (b * d)
  }

  function Overlap(ma: real, mb: real): real { 2.0 * ma * mb + C1 }

  function Energy(ma: real, mb: real): real { ma * ma + mb * mb + C1 }

  lemma OverlapBounded(ma: real, mb: real)
    ensures -Energy(ma, mb) < Overlap(ma, mb) <= Energy(ma, mb)
    ensures Overlap(ma, mb) == Energy(ma, mb) <==> ma == mb
  {
    SquareSign(ma - mb);
    SquareSign(ma + mb);
    assert (ma - mb) * (ma - mb) == ma * ma + mb * mb - 2.0 * ma * mb;
    assert (ma + mb) * (ma + mb) == ma * ma + mb * mb + 2.0 * ma * mb;
  }

  lemma ProductIdentity(p: real, b: real, q: real, d: real)
    ensures (b - p) * (d + q) + (d - q) * (b + p) == 2.0 * (b * d) - 2.0 * (p * q)
    ensures (b - p) * (d - q) + (b + p) * (d + q) == 2.0 * (b * d) + 2.0 * (p * q)
  {
  }

  lemma ProductsBounded(p: real, b: real, q: real, d: real)
    requires -b < p <= b && -d < q <= d
    ensures b * d > 0.0 && -(b * d) <= p * q <= b * d
    ensures p * q == b * d <==> p == b && q == d
  {
    ProductSign(b, d);
    ProductIdentity(p, b, q, d);
    ProductSign(b - p, d + q);
    ProductSign(d - q, b + p);
    ProductSign(b + p, d + q);
    if d - q == 0.0 { assert (b - p) * (d - q) == 0.0; } else { ProductSign(b - p, d - q); }
  }

  lemma FractionOfProducts(p: real, b: real, q: real, d: real)
    requires -b < p <= b && -d < q <= d
    ensures b * d > 0.0 && -1.0 <= Fraction(p, b, q, d) <= 1.0
    ensures Fraction(p, b, q, d) == 1.0 <==> p == b && q == d
  {
    ProductsBounded(p, b, q, d);
    DividedBounds(p * q, b * d);
  }

  lemma DividedBounds(x: real, y: real)
    requires y > 0.0 && -y <= x <= y
    ensures -1.0 <= x / y <= 1.0 && (x / y == 1.0 <==> x == y)
  {
  }

  lemma ScoreBounds(ma: real, mb: real, va: real, vb: real, cov: real)
    requires va >= 0.0 && vb >= 0.0 && -(va + vb) <= 2.0 * cov <= va + vb
    ensures Energy(ma, mb) * (va + vb + C2) > 0.0
    ensures -1.0 <= Score(ma, mb, va, vb, cov) <= 1.0
    ensures Score(ma, mb, va, vb, cov) == 1.0 <==> ma == mb && 2.0 * cov == va + vb
  {
    hide Overlap, Energy, Fraction;
    OverlapBounded(ma, mb);
    FractionOfProducts(Overlap(ma, mb), Energy(ma, mb), 2.0 * cov + C2, va + vb + C2);
  }

  predicate SameShape(a: Image, b: Image) {
    a.width == b.width && a.Height() == b.Height()
  }

  /** `k = min(8, *a.shape)` */
  function Side(a: Image): (k: nat)
    requires a.Valid()
    ensures 1 <= k <= a.Height() && k <= a.width && k <= 8
  {
    if a.Height() <= a.width && a.Height() <= 8 then a.Height() else if a.width <= 8 then a.width else 8
  }

  ghost predicate Fits(a: Image, b: Image, k: nat, i: nat, j: nat) {
    a.Valid() && b.Valid() && SameShape(a, b) && 1 <= k && i + k <= a.Height() && j + k <= a.width
  }

  function Patch(a: Image, k: nat, i: nat, j: nat): (u: seq<real>)
    requires Fits(a, a, k, i, j)
    ensures |u| == Area(k)
  {
    WindowLength(a, i, k, j, k);
    Window(a, i, k, j, k)
  }

  lemma {:induction false} WindowOfProduct(a: Image, b: Image, i: nat, n: nat, j: nat, m: nat)
    requires a.Valid() && b.Valid() && SameShape(a, b) && i + n <= a.Height() && j + m <= a.width
    ensures |Window(a, i, n, j, m)| == |Window(b, i, n, j, m)|
    ensures Window(Product(a, b), i, n, j, m) == Times(Window(a, i, n, j, m), Window(b, i, n, j, m))
  {
    if n > 0 {
      WindowOfProduct(a, b, i, n - 1, j, m);
      var p, q := a.rows[i + n - 1], b.rows[i + n - 1];
      assert Product(a, b).rows[i + n - 1] == Times(p, q);
      hide Product, Times;
      TimesConcat(Window(a, i, n - 1, j, m), Window(b, i, n - 1, j, m), p[j..j + m], q[j..j + m]);
      TimesSlice(p, q, j, j + m);
    }
  }

  lemma TimesConcat(s: seq<real>, t: seq<real>, s': seq<real>, t': seq<real>)
    requires |s| == |t| && |s'| == |t'|
    ensures Times(s + s', t + t') == Times(s, t) + Times(s', t')
  {
    var whole, parts := Times(s + s', t + t'), Times(s, t) + Times(s', t');
    forall i | 0 <= i < |whole| ensures whole[i] == parts[i] {
      if i < |s| {
        assert (s + s')[i] == s[i] && (t + t')[i] == t[i];
      } else {
        assert (s + s')[i] == s'[i - |s|] && (t + t')[i] == t'[i - |s|];
      }
    }
  }

  lemma TimesSlice(s: seq<real>, t: seq<real>, lo: nat, hi: nat)
    requires |s| == |t| && lo <= hi <= |s|
    ensures Times(s, t)[lo..hi] == Times(s[lo..hi], t[lo..hi])
  {
    var whole, part := Times(s, t), Times(s[lo..hi], t[lo..hi]);
    forall i | 0 <= i < hi - lo ensures whole[lo..hi][i] == part[i] {
      assert s[lo..hi][i] == s[lo + i] && t[lo..hi][i] == t[lo + i];
    }
  }

  /** The covariance of one window, from the tables of the two images and of their product. */
  function TableCovariance(a: Image, b: Image, k: nat, i: nat, j: nat): real
    requires Fits(a, b, k, i, j)
  {
    WinMean(Product(a, b), k, i, j) - WinMean(a, k, i, j) * WinMean(b, k, i, j)
  }

  /** The table-based means and covariances are those of the window's own pixels. */
  lemma WindowStatistics(a: Image, b: Image, k: nat, i: nat, j: nat)
    requires Fits(a, b, k, i, j)
    ensures WinMean(a, k, i, j) == Mean(Patch(a, k, i, j))
    ensures WinMean(b, k, i, j) == Mean(Patch(b, k, i, j))
    ensures TableCovariance(a, b, k, i, j) == Covariance(Patch(a, k, i, j), Patch(b, k, i, j))
  {
    hide Mean, WinMean, Window, Times, Product;
    WinMeanIsMean(a, k, i, j);
    WinMeanIsMean(b, k, i, j);
    WinMeanIsMean(Product(a, b), k, i, j);
    WindowOfProduct(a, b, i, k, j, k);
  }

  /** The score of the window at (i, j), computed from the summed-area tables. */
  function ScoreAt(a: Image, b: Image, k: nat, i: nat, j: nat): real
    requires Fits(a, b, k, i, j)
  {
    Score(WinMean(a, k, i, j), WinMean(b, k, i, j),
          TableCovariance(a, a, k, i, j), TableCovariance(b, b, k, i, j), TableCovariance(a, b, k, i, j))
  }

  lemma CovarianceBounded(u: seq<real>, v: seq<real>)
    requires |u| == |v| > 0
    ensures -(Covariance(u, u) + Covariance(v, v)) <= 2.0 * Covariance(u, v) <= Covariance(u, u) + Covariance(v, v)
    ensures 2.0 * Covariance(u, v) == Covariance(u, u) + Covariance(v, v) && Mean(u) == Mean(v) ==> u == v
  {
    hide Covariance, Mean;
    FormIsMeanSquare(u, v, 1.0, 1.0);
    FormIsMeanSquare(u, v, 1.0, -1.0);
  }

  /** One window: the score is in [-1, 1], symmetric, and 1 exactly when the windows agree. */
  lemma ScoreAtFacts(a: Image, b: Image, k: nat, i: nat, j: nat)
    requires Fits(a, b, k, i, j) && Fits(b, a, k, i, j) && Fits(a, a, k, i, j) && Fits(b, b, k, i, j)
    ensures var s := ScoreAt(a, b, k, i, j);
            && -1.0 <= s <= 1.0 && s == ScoreAt(b, a, k, i, j)
            && (s == 1.0 <==> Patch(a, k, i, j) == Patch(b, k, i, j))
  {
    hide Covariance, TableCovariance, Mean, WinMean, Patch, Score, Energy;
    var u, v := Patch(a, k, i, j), Patch(b, k, i, j);
    WindowStatistics(a, a, k, i, j);
    WindowStatistics(b, b, k, i, j);
    WindowStatistics(a, b, k, i, j);
    WindowStatistics(b, a, k, i, j);
    CauchySchwarz(u, v);
    CovarianceBounded(u, v);
    ScoreBounds(Mean(u), Mean(v), Covariance(u, u), Covariance(v, v), Covariance(u, v));
    CovarianceSymmetric(u, v);
    ScoreSymmetric(Mean(u), Mean(v), Covariance(u, u), Covariance(v, v), Covariance(u, v));
  }

  /** The divisor of every window's score is positive. */
  lemma DenominatorPositive(a: Image, b: Image, k: nat, i: nat, j: nat)
    requires Fits(a, b, k, i, j)
    ensures Energy(WinMean(a, k, i, j), WinMean(b, k, i, j))
            * (TableCovariance(a, a, k, i, j) + TableCovariance(b, b, k, i, j) + C2) > 0.0
  {
    hide Covariance, TableCovariance, Mean, WinMean, Patch, Score, Energy;
    WindowStatistics(a, a, k, i, j);
    WindowStatistics(b, b, k, i, j);
    CauchySchwarz(Patch(a, k, i, j), Patch(b, k, i, j));
    ScoreBounds(Mean(Patch(a, k, i, j)), Mean(Patch(b, k, i, j)),
                TableCovariance(a, a, k, i, j), TableCovariance(b, b, k, i, j), 0.0);
  }

  lemma CovarianceSymmetric(u: seq<real>, v: seq<real>)
    requires |u| == |v| > 0
    ensures Covariance(u, v) == Covariance(v, u)
  {
    assert Times(u, v) == Times(v, u);
  }

  lemma ScoreSymmetric(ma: real, mb: real, va: real, vb: real, cov: real)
    ensures Score(ma, mb, va, vb, cov) == Score(mb, ma, vb, va, cov)
  {
    assert Energy(ma, mb) == Energy(mb, ma) && Overlap(ma, mb) == Overlap(mb, ma);
  }

  /** The scores of the first `n` rows of window positions. */
  function Scores(a: Image, b: Image, k: nat, n: nat): (scores: seq<real>)
    requires Fits(a, b, k, 0, 0) && n + k <= a.Height() + 1
  {
    if n == 0 then [] else Scores(a, b, k, n - 1) + RowScores(a, b, k, n - 1, a.width - k + 1)
  }

  function RowScores(a: Image, b: Image, k: nat, i: nat, m: nat): (scores: seq<real>)
    requires Fits(a, b, k, i, 0) && m + k <= a.width + 1
    ensures |scores| == m
  {
    if m == 0 then [] else RowScores(a, b, k, i, m - 1) + [ScoreAt(a, b, k, i, m - 1)]
  }

  /** `_ssim`, the fallback: the mean score over all window positions. */
  function MeanSsim(a: Image, b: Image): real
    requires a.Valid() && b.Valid() && SameShape(a, b)
  {
    ScoresNonEmpty(a, b);
    Mean(Scores(a, b, Side(a), a.Height() - Side(a) + 1))
  }

  lemma ScoresNonEmpty(a: Image, b: Image)
    requires a.Valid() && b.Valid() && SameShape(a, b)
    ensures |Scores(a, b, Side(a), a.Height() - Side(a) + 1)| > 0
  {
  }

  ghost predicate Bounded(s: seq<real>) { forall k :: 0 <= k < |s| ==> -1.0 <= s[k] <= 1.0 }

  ghost predicate Perfect(s: seq<real>) { forall k :: 0 <= k < |s| ==> s[k] == 1.0 }

  lemma BoundedConcat(s: seq<real>, t: seq<real>)
    requires Bounded(s) && Bounded(t)
    ensures Bounded(s + t) && (Perfect(s + t) <==> Perfect(s) && Perfect(t))
  {
    if Perfect(s + t) {
      assert forall k :: 0 <= k < |s| ==> s[k] == (s + t)[k];
      assert forall k :: 0 <= k < |t| ==> t[k] == (s + t)[|s| + k];
    }
  }

  /** The two images agree on the windows (i, 0), .., (i, m - 1). */
  ghost predicate RowAgrees(a: Image, b: Image, k: nat, i: nat, m: nat)
    requires Fits(a, b, k, i, 0) && m + k <= a.width + 1
  {
    forall j :: 0 <= j < m ==> Patch(a, k, i, j) == Patch(b, k, i, j)
  }

  ghost predicate RowsAgree(a: Image, b: Image, k: nat, n: nat, m: nat)
    requires Fits(a, b, k, 0, 0) && n + k <= a.Height() + 1 && m + k <= a.width + 1
  {
    forall i :: 0 <= i < n ==> RowAgrees(a, b, k, i, m)
  }

  lemma {:induction false} RowScoresFacts(a: Image, b: Image, k: nat, i: nat, m: nat)
    requires Fits(a, b, k, i, 0) && m + k <= a.width + 1
    ensures RowScores(a, b, k, i, m) == RowScores(b, a, k, i, m) && Bounded(RowScores(a, b, k, i, m))
    ensures Perfect(RowScores(a, b, k, i, m)) <==> RowAgrees(a, b, k, i, m)
  {
    hide ScoreAt, Patch;
    if m > 0 {
      RowScoresFacts(a, b, k, i, m - 1);
      ScoreAtFacts(a, b, k, i, m - 1);
      var front, last := RowScores(a, b, k, i, m - 1), ScoreAt(a, b, k, i, m - 1);
      BoundedConcat(front, [last]);
      assert Perfect([last]) <==> last == 1.0 by { assert [last][0] == last; }
    }
  }

  lemma {:induction false} ScoresFacts(a: Image, b: Image, k: nat, n: nat)
    requires Fits(a, b, k, 0, 0) && n + k <= a.Height() + 1
    ensures Scores(a, b, k, n) == Scores(b, a, k, n) && Bounded(Scores(a, b, k, n))
    ensures Perfect(Scores(a, b, k, n)) <==> RowsAgree(a, b, k, n, a.width - k + 1)
  {
    hide RowScores, RowAgrees;
    if n > 0 {
      ScoresFacts(a, b, k, n - 1);
      RowScoresFacts(a, b, k, n - 1, a.width - k + 1);
      BoundedConcat(Scores(a, b, k, n - 1), RowScores(a, b, k, n - 1, a.width - k + 1));
    }
  }

  lemma MeanOfBounded(s: seq<real>)
    requires |s| > 0 && Bounded(s)
    ensures -1.0 <= Mean(s) <= 1.0
    ensures Mean(s) == 1.0 <==> Perfect(s)
  {
    SumOfBounded(s);
    DividedBounds(Sum(s), |s| as real);
  }

  lemma {:induction false} SumOfBounded(s: seq<real>)
    requires Bounded(s)
    ensures -(|s| as real) <= Sum(s) <= |s| as real
    ensures Sum(s) == |s| as real <==> Perfect(s)
  {
    if s != [] {
      var front := s[..|s| - 1];
      assert s == front + [s[|s| - 1]];
      SumOfBounded(front);
      BoundedConcat(front, [s[|s| - 1]]);
    }
  }

  /** Equal patches at every position are equal images: the windows cover every pixel. */
  lemma PatchesCover(a: Image, b: Image, k: nat)
    requires Fits(a, b, k, 0, 0)
    requires RowsAgree(a, b, k, a.Height() - k + 1, a.width - k + 1)
    ensures a == b
  {
    forall r | 0 <= r < a.Height() ensures a.rows[r] == b.rows[r] {
      forall c | 0 <= c < a.width ensures a.rows[r][c] == b.rows[r][c] {
        PixelCovered(a, b, k, r, c);
      }
    }
  }

  lemma SliceIndex(s: seq<real>, lo: nat, hi: nat, c: nat)
    requires lo <= c < hi <= |s|
    ensures s[lo..hi][c - lo] == s[c]
  {
  }

  lemma PixelCovered(a: Image, b: Image, k: nat, r: nat, c: nat)
    requires Fits(a, b, k, 0, 0) && r < a.Height() && c < a.width
    requires RowsAgree(a, b, k, a.Height() - k + 1, a.width - k + 1)
    ensures a.rows[r][c] == b.rows[r][c]
  {
    hide Patch;
    var n, m := a.Height() - k + 1, a.width - k + 1;
    var i, j := if r < n then r else n - 1, if c < m then c else m - 1;
    assert RowAgrees(a, b, k, i, m);
    PatchPixel(a, b, k, i, j, r, c);
  }

  lemma PatchPixel(a: Image, b: Image, k: nat, i: nat, j: nat, r: nat, c: nat)
    requires Fits(a, b, k, i, j) && i <= r < i + k && j <= c < j + k
    requires Patch(a, k, i, j) == Patch(b, k, i, j)
    ensures a.rows[r][c] == b.rows[r][c]
  {
    EqualWindows(a, b, i, k, j, k, r - i);
    SliceIndex(a.rows[r], j, j + k, c);
    SliceIndex(b.rows[r], j, j + k, c);
  }

  lemma {:induction false} EqualWindows(a: Image, b: Image, i: nat, n: nat, j: nat, m: nat, r: nat)
    requires a.Valid() && b.Valid() && SameShape(a, b) && i + n <= a.Height() && j + m <= a.width && r < n
    requires Window(a, i, n, j, m) == Window(b, i, n, j, m)
    ensures a.rows[i + r][j..j + m] == b.rows[i + r][j..j + m]
  {
    var fa, fb := Window(a, i, n - 1, j, m), Window(b, i, n - 1, j, m);
    var la, lb := a.rows[i + n - 1][j..j + m], b.rows[i + n - 1][j..j + m];
    WindowOfProduct(a, b, i, n - 1, j, m);
    assert fa == (fa + la)[..|fa|] == (fb + lb)[..|fb|] == fb;
    assert la == (fa + la)[|fa|..] == (fb + lb)[|fb|..] == lb;
    if r < n - 1 {
      EqualWindows(a, b, i, n - 1, j, m, r);
    }
  }

  lemma SelfAgrees(a: Image, k: nat, n: nat)
    requires Fits(a, a, k, 0, 0) && n + k <= a.Height() + 1
    ensures RowsAgree(a, a, k, n, a.width - k + 1)
  {
  }

  /** The fallback SSIM lies in [-1, 1], is symmetric, and is 1 exactly on identical images. */
  lemma SsimFacts(a: Image, b: Image)
    requires a.Valid() && b.Valid() && SameShape(a, b)
    ensures -1.0 <= MeanSsim(a, b) <= 1.0
    ensures MeanSsim(a, b) == MeanSsim(b, a)
    ensures MeanSsim(a, b) == 1.0 <==> a == b
  {
    hide Mean, Patch, Scores, RowAgrees;
    var k, n := Side(a), a.Height() - Side(a) + 1;
    ScoresNonEmpty(a, b);
    ScoresFacts(a, b, k, n);
    MeanOfBounded(Scores(a, b, k, n));
    if RowsAgree(a, b, k, n, a.width - k + 1) {
      PatchesCover(a, b, k);
    }
    SelfAgrees(a, k, n);
  }

  // ---- the score in the window's own statistics ----

  /** The deviations from a value. */
  function From(u: seq<real>, c: real): (d: seq<real>)
    ensures |d| == |u| && forall i :: 0 <= i < |u| ==> d[i] == u[i] - c
  {
    seq(|u|, i requires 0 <= i < |u| => u[i] - c)
  }

  /** The mean product of the deviations from the two means: the variance when u is v. */
  function Spread(u: seq<real>, v: seq<real>): real
    requires |u| == |v| > 0
  {
    Mean(Times(From(u, Mean(u)), From(v, Mean(v))))
  }

  lemma SumLast(s: seq<real>)
    requires s != []
    ensures Sum(s) == Sum(s[..|s| - 1]) + s[|s| - 1]
  {
  }

  lemma FromPrefix(u: seq<real>, c: real, n: nat)
    requires n <= |u|
    ensures From(u, c)[..n] == From(u[..n], c)
  {
  }

  function Mul(x: real, y: real): real { x * y }

  function Over(x: real, n: real): real
    requires n > 0.0
  {
    x / n
  }

  lemma SumTimesLast(s: seq<real>, t: seq<real>)
    requires |s| == |t| > 0
    ensures var n := |s| - 1; Sum(Times(s, t)) == Sum(Times(s[..n], t[..n])) + Mul(s[n], t[n])
  {
    var n := |s| - 1;
    TimesSlice(s, t, 0, n);
    SumLast(Times(s, t));
    assert Times(s, t)[n] == Mul(s[n], t[n]);
    hide Times, Sum, Mul;
    assert Times(s, t)[..n] == Times(s, t)[0..n] && s[0..n] == s[..n] && t[0..n] == t[..n];
  }

  lemma Distribute(x: real, y: real, c: real, s: real)
    ensures Mul(x - c, y) == Mul(x, y) - Mul(c, y) && Mul(c, s + y) == Mul(c, s) + Mul(c, y)
    ensures Mul(s + 1.0, c) == Mul(s, c) + c && Mul(x, 0.0) == 0.0
  {
  }

  lemma ShiftLast(u: seq<real>, v: seq<real>, c: real)
    requires |u| == |v| > 0
    ensures var n := |u| - 1;
            && Sum(Times(From(u, c), v)) == Sum(Times(From(u[..n], c), v[..n])) + Mul(u[n] - c, v[n])
            && Sum(Times(u, v)) == Sum(Times(u[..n], v[..n])) + Mul(u[n], v[n])
            && Sum(v) == Sum(v[..n]) + v[n]
  {
    var n := |u| - 1;
    assert From(u, c)[n] == u[n] - c;
    hide *;
    SumTimesLast(From(u, c), v);
    SumTimesLast(u, v);
    SumLast(v);
    FromPrefix(u, c, n);
  }

  /** Shifting one factor takes away its shift times the sum of the other. */
  lemma {:induction false} ShiftOne(u: seq<real>, v: seq<real>, c: real)
    requires |u| == |v|
    ensures Sum(Times(From(u, c), v)) == Sum(Times(u, v)) - Mul(c, Sum(v))
  {
    if u == [] {
      assert v == [] && Times(From(u, c), v) == [] && Times(u, v) == [];
    } else {
      var n := |u| - 1;
      hide Sum, Times, From, Mul;
      ShiftOne(u[..n], v[..n], c);
      ShiftLast(u, v, c);
      Distribute(u[n], v[n], c, Sum(v[..n]));
    }
  }

  lemma {:induction false} SumOfFrom(u: seq<real>, c: real)
    ensures Sum(From(u, c)) == Sum(u) - Mul(|u| as real, c)
  {
    if u != [] {
      var n := |u| - 1;
      SumOfFrom(u[..n], c);
      FromPrefix(u, c, n);
      SumLast(From(u, c));
      SumLast(u);
      hide Sum, Mul;
      Distribute(0.0, 0.0, c, n as real);
    }
  }

  /** The mean of products less the product of means is the mean product of deviations. */
  lemma CovarianceIsSpread(u: seq<real>, v: seq<real>)
    requires |u| == |v| > 0
    ensures Covariance(u, v) == Spread(u, v)
  {
    var n, mu, mv := |u| as real, Mean(u), Mean(v);
    var dv := From(v, mv);
    DeviationsCancel(v);
    SpreadIs(u, v);
    hide *;
    ShiftOne(u, dv, mu);
    ShiftOne(v, u, mv);
    TimesCommutes(u, v);
    TimesCommutes(u, dv);
    Distribute(mu, 0.0, 0.0, 0.0);
    DividedDifference(Sum(Times(u, v)), mv, Sum(u), n);
  }

  lemma DeviationsCancel(v: seq<real>)
    requires |v| > 0
    ensures Sum(From(v, Mean(v))) == 0.0
  {
    SumOfFrom(v, Mean(v));
    hide From, Sum;
    Quotient(Sum(v), |v| as real);
  }

  lemma SpreadIs(u: seq<real>, v: seq<real>)
    requires |u| == |v| > 0
    ensures var n, mu, mv := |u| as real, Mean(u), Mean(v);
            && Spread(u, v) == Over(Sum(Times(From(u, mu), From(v, mv))), n)
            && Covariance(u, v) == Over(Sum(Times(u, v)), n) - Mul(Over(Sum(u), n), mv)
  {
    hide From, Sum, Times, Mean, Over;
    var mu, mv := Mean(u), Mean(v);
    MeanIs(Times(From(u, mu), From(v, mv)));
    MeanIs(Times(u, v));
    MeanIs(u);
  }

  lemma MeanIs(u: seq<real>)
    requires |u| > 0
    ensures Mean(u) == Over(Sum(u), |u| as real)
  {
  }

  lemma TimesCommutes(u: seq<real>, v: seq<real>)
    requires |u| == |v|
    ensures Times(u, v) == Times(v, u)
  {
  }

  lemma DividedDifference(x: real, m: real, s: real, n: real)
    requires n > 0.0
    ensures Over(x - Mul(m, s), n) == Over(x, n) - Mul(Over(s, n), m)
  {
  }

  /** The score of two patches, as an equation between their means, variances and covariance. */
  ghost predicate Scored(score: real, u: seq<real>, v: seq<real>)
    requires |u| == |v| > 0
  {
    var below := (Mean(u) * Mean(u) + Mean(v) * Mean(v) + 6.5025) * (Spread(u, u) + Spread(v, v) + 58.5225);
    below > 0.0 && score * below == (2.0 * Mean(u) * Mean(v) + 6.5025) * (2.0 * Spread(u, v) + 58.5225)
  }

  lemma ScoreIs(ma: real, mb: real, va: real, vb: real, cov: real)
    requires Energy(ma, mb) * (va + vb + C2) > 0.0
    ensures var below := (ma * ma + mb * mb + 6.5025) * (va + vb + 58.5225);
            && below > 0.0
            && Score(ma, mb, va, vb, cov) * below == (2.0 * ma * mb + 6.5025) * (2.0 * cov + 58.5225)
  {
    var over, energy := 2.0 * ma * mb + 6.5025, ma * ma + mb * mb + 6.5025;
    assert Overlap(ma, mb) == over && Energy(ma, mb) == energy;
    hide Overlap, Energy;
    Divides(over, energy, 2.0 * cov + C2, va + vb + C2);
  }

  lemma Divides(p: real, b: real, q: real, d: real)
    requires b * d > 0.0
    ensures Fraction(p, b, q, d) * (b * d) == p * q
  {
    Quotient(p * q, b * d);
  }

  lemma ScoreAtIs(a: Image, b: Image, k: nat, i: nat, j: nat)
    requires Fits(a, b, k, i, j) && Fits(a, a, k, i, j) && Fits(b, b, k, i, j)
    ensures Scored(ScoreAt(a, b, k, i, j), Patch(a, k, i, j), Patch(b, k, i, j))
  {
    hide Covariance, TableCovariance, Mean, WinMean, Patch, Spread, Score, Energy;
    var u, v := Patch(a, k, i, j), Patch(b, k, i, j);
    DenominatorPositive(a, b, k, i, j);
    WindowStatistics(a, a, k, i, j);
    WindowStatistics(b, b, k, i, j);
    WindowStatistics(a, b, k, i, j);
    CovarianceIsSpread(u, u);
    CovarianceIsSpread(v, v);
    CovarianceIsSpread(u, v);
    ScoreIs(Mean(u), Mean(v), Spread(u, u), Spread(v, v), Spread(u, v));
  }

  // ---- the mean over all positions ----

  lemma {:induction false} RowScoresAt(a: Image, b: Image, k: nat, i: nat, m: nat, j: nat)
    requires Fits(a, b, k, i, 0) && m + k <= a.width + 1 && j < m
    ensures RowScores(a, b, k, i, m)[j] == ScoreAt(a, b, k, i, j)
  {
    hide ScoreAt;
    if j < m - 1 {
      RowScoresAt(a, b, k, i, m - 1, j);
    }
  }

  function Position(i: nat, j: nat, m: nat): nat { i * m + j }

  lemma PositionFacts(i: nat, j: nat, m: nat)
    ensures Position(0, 0, m) == 0 && Position(i + 1, 0, m) == Position(i, 0, m) + m && Position(i, j, m) == Position(i, 0, m) + j
  {
  }

  predicate Holds(s: seq<real>, p: nat, x: real) { p < |s| && s[p] == x }

  lemma ScoresGrow(a: Image, b: Image, k: nat, n: nat)
    requires Fits(a, b, k, 0, 0) && 0 < n <= a.Height() - k + 1
    ensures |Scores(a, b, k, n)| == |Scores(a, b, k, n - 1)| + (a.width - k + 1)
  {
    hide ScoreAt, RowScores;
  }

  lemma {:induction false} ScoresLength(a: Image, b: Image, k: nat, n: nat)
    requires Fits(a, b, k, 0, 0) && n + k <= a.Height() + 1
    ensures |Scores(a, b, k, n)| == Position(n, 0, a.width - k + 1)
  {
    hide Position, ScoreAt, RowScores;
    if n > 0 {
      ScoresLength(a, b, k, n - 1);
      PositionFacts(n - 1, 0, a.width - k + 1);
      hide Scores;
      ScoresGrow(a, b, k, n);
    } else {
      PositionFacts(0, 0, a.width - k + 1);
    }
  }

  /** Row by row: the score at (i, j) comes after those of i whole rows. */
  lemma {:induction false} ScoresAt(a: Image, b: Image, k: nat, n: nat, i: nat, j: nat)
    requires Fits(a, b, k, 0, 0) && i < n && n + k <= a.Height() + 1 && j + k <= a.width
    ensures Holds(Scores(a, b, k, n), Position(i, j, a.width - k + 1), ScoreAt(a, b, k, i, j))
    decreases n
  {
    var m := a.width - k + 1;
    hide ScoreAt, RowScores, Position;
    if i == n - 1 {
      ScoresLength(a, b, k, n - 1);
      PositionFacts(i, j, m);
      RowScoresAt(a, b, k, i, m, j);
    } else {
      ScoresAt(a, b, k, n - 1, i, j);
    }
  }

  /** The score listed, row by row, for the window at (i, j) is that window's own. */
  ghost predicate ListedScore(a: Image, b: Image, k: nat, scores: seq<real>, i: nat, j: nat) {
    && Fits(a, b, k, i, j) && Fits(a, a, k, i, j) && Fits(b, b, k, i, j)
    && Position(i, j, a.width - k + 1) < |scores|
    && Scored(scores[Position(i, j, a.width - k + 1)], Patch(a, k, i, j), Patch(b, k, i, j))
  }

  /**
   The fallback SSIM is the average of one score for each position of a square window, whose side is 8
   or the image's shorter side; each is the score of the two windows' means, variances and covariance.
   */
  lemma SsimIs(a: Image, b: Image) returns (k: nat, scores: seq<real>)
    requires a.Valid() && b.Valid() && SameShape(a, b)
    ensures 1 <= k <= 8 && k <= a.Height() && k <= a.width && (k == 8 || k == a.Height() || k == a.width)
    ensures scores != [] && |scores| == Position(a.Height() - k + 1, 0, a.width - k + 1)
    ensures MeanSsim(a, b) == Mean(scores)
    ensures forall i, j :: 0 <= i <= a.Height() - k && 0 <= j <= a.width - k ==>
              ListedScore(a, b, k, scores, i, j)
  {
    hide Scores, Scored, ScoreAt, Patch, Sum, Mean, Position, ListedScore;
    k := Side(a);
    var n := a.Height() - k + 1;
    scores := Scores(a, b, k, n);
    ScoresNonEmpty(a, b);
    ScoresLength(a, b, k, n);
    forall i, j | 0 <= i <= a.Height() - k && 0 <= j <= a.width - k ensures ListedScore(a, b, k, scores, i, j) {
      ScoreIsListed(a, b, k, i, j);
    }
  }

  lemma ScoreIsListed(a: Image, b: Image, k: nat, i: nat, j: nat)
    requires Fits(a, b, k, i, j)
    ensures ListedScore(a, b, k, Scores(a, b, k, a.Height() - k + 1), i, j)
  {
    hide Scores, Scored, ScoreAt, Patch, Position;
    ScoresAt(a, b, k, a.Height() - k + 1, i, j);
    ScoreAtIs(a, b, k, i, j);
  }
}
