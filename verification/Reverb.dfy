/** The all-pass stages of the reverb (src/audio_effect/reverb.cpp) over real samples, by unbounded history. */
module Reverb {

  const RING: int := 8192               // MAX_D; the source masks with MASK = 8191

  /** A history read before its start is silence. */
  function At(s: seq<real>, i: int): real {
    if 0 <= i < |s| then s[i] else 0.0
  }

  /** The line entry for input x, when wd is read back. */
  function Entry(x: real, wd: real, c: real): real {
    x + wd * c
  }

  /** The output for line entry w0, when wd is read back. */
  function Tapped(w0: real, wd: real, c: real): real {
    -c * w0 + wd
  }

  /** The delay line's contents after input x: each entry is the input plus c times the entry d earlier. */
  function Line(x: seq<real>, c: real, d: nat): (w: seq<real>)
    ensures |w| == |x|
  {
    if |x| == 0 then []
    else
      var w := Line(x[..|x| - 1], c, d);
      w + [Entry(x[|x| - 1], At(w, |x| - 1 - d), c)]
  }

  /** The output sample the newest line entry gives. */
  function Tap(w: seq<real>, c: real, d: nat, n: int): real {
    Tapped(At(w, n), At(w, n - d), c)
  }

  /** The ideal filter: the outputs for the whole input. */
  function Filter(x: seq<real>, c: real, d: nat): (y: seq<real>)
    ensures |y| == |x|
  {
    seq(|x|, n requires 0 <= n < |x| => Tap(Line(x, c, d), c, d, n))
  }

  // ---------------------------------------------------------------------------------------
  // Laws of the ideal filter
  // ---------------------------------------------------------------------------------------

  lemma {:induction false} LinePrefix(x: seq<real>, c: real, d: nat, k: nat)
    requires k <= |x|
    ensures Line(x, c, d)[..k] == Line(x[..k], c, d)
    decreases |x|
  {
    if k < |x| {
      var x1 := x[..|x| - 1];
      LinePrefix(x1, c, d, k);
      assert x1[..k] == x[..k];
      assert Line(x, c, d)[..k] == Line(x1, c, d)[..k];
    } else {
      assert x[..k] == x;
    }
  }

  /** The line obeys its recurrence everywhere up to the newest sample. */
  lemma LineAt(x: seq<real>, c: real, d: nat, n: int)
    requires d >= 1 && n < |x|
    ensures At(Line(x, c, d), n) == Entry(At(x, n), At(Line(x, c, d), n - d), c)
  {
    if 0 <= n {
      var w := Line(x, c, d);
      LinePrefix(x, c, d, n + 1);
      LinePrefix(x, c, d, n);
      assert x[..n + 1][..n] == x[..n];
      assert w[n] == w[..n + 1][n];
      if d <= n {
        assert w[n - d] == w[..n][n - d];
      }
    }
  }

  lemma TapLaw(c: real, x0: real, xd: real, w0: real, wd: real, w2d: real)
    requires w0 == Entry(x0, wd, c) && wd == Entry(xd, w2d, c)
    ensures Tapped(w0, wd, c) == -c * x0 + xd + c * Tapped(wd, w2d, c)
  {
    calc {
      -c * w0 + wd;
      -c * (x0 + wd * c) + wd;
      -c * x0 + c * (-c * wd) + wd;
      -c * x0 + c * (-c * wd) + xd + w2d * c;
      -c * x0 + xd + c * (-c * wd + w2d);
    }
  }

  /** The difference equation of the all-pass filter, in terms of input and output alone. */
  ghost predicate Law(x: seq<real>, y: seq<real>, c: real, d: nat) {
    |y| == |x| && forall n | 0 <= n < |x| :: y[n] == Echo(x, y, c, d, n)
  }

  function Echo(x: seq<real>, y: seq<real>, c: real, d: nat, n: int): real {
    -c * At(x, n) + At(x, n - d) + c * At(y, n - d)
  }

  lemma FilterAt(x: seq<real>, c: real, d: nat, n: int)
    requires d >= 1 && n < |x|
    ensures At(Filter(x, c, d), n) == Echo(x, Filter(x, c, d), c, d, n)
  {
    var w := Line(x, c, d);
    LineAt(x, c, d, n);
    LineAt(x, c, d, n - d);
    TapLaw(c, At(x, n), At(x, n - d), At(w, n), At(w, n - d), At(w, n - d - d));
    FilterTap(x, c, d, n);
    FilterTap(x, c, d, n - d);
  }

  lemma FilterTap(x: seq<real>, c: real, d: nat, n: int)
    requires n < |x|
    ensures At(Filter(x, c, d), n) == Tap(Line(x, c, d), c, d, n)
  {
    if n < 0 {
      assert At(Line(x, c, d), n) == 0.0;
    }
  }

  lemma EchoAgrees(x: seq<real>, y: seq<real>, z: seq<real>, c: real, d: nat, n: int)
    requires At(y, n - d) == At(z, n - d)
    ensures Echo(x, y, c, d, n) == Echo(x, z, c, d, n)
  {
  }

  lemma {:induction false} LawDetermines(x: seq<real>, y: seq<real>, z: seq<real>, c: real, d: nat, n: nat)
    requires d >= 1 && Law(x, y, c, d) && Law(x, z, c, d) && n <= |x|
    ensures y[..n] == z[..n]
    decreases n
  {
    if n > 0 {
      LawDetermines(x, y, z, c, d, n - 1);
      var m := n - 1;
      if d <= m {
        assert y[m - d] == y[..m][m - d] && z[m - d] == z[..m][m - d];
      }
      assert At(y, m - d) == At(z, m - d);
      EchoAgrees(x, y, z, c, d, m);
      assert y[m] == Echo(x, y, c, d, m) && z[m] == Echo(x, z, c, d, m);
      assert y[..n] == y[..m] + [y[m]] && z[..n] == z[..m] + [z[m]];
    }
  }

  /** The filter's output is the one signal that obeys the difference equation. */
  lemma FilterIsTheLaw(x: seq<real>, y: seq<real>, c: real, d: nat)
    requires d >= 1
    ensures Law(x, y, c, d) <==> y == Filter(x, c, d)
  {
    var f := Filter(x, c, d);
    forall n | 0 <= n < |x| ensures f[n] == Echo(x, f, c, d, n) {
      FilterAt(x, c, d, n);
    }
    if Law(x, y, c, d) {
      LawDetermines(x, y, f, c, d, |x|);
      assert y[..|x|] == y && f[..|x|] == f;
    }
  }

  /** What comes out does not depend on what goes in later. */
  lemma FilterPrefix(x: seq<real>, c: real, d: nat, k: nat)
    requires k <= |x|
    ensures Filter(x, c, d)[..k] == Filter(x[..k], c, d)
  {
    LinePrefix(x, c, d, k);
    var w := Line(x, c, d);
    forall n | 0 <= n < k ensures Filter(x, c, d)[n] == Filter(x[..k], c, d)[n] {
      assert w[n] == w[..k][n];
      if d <= n {
        assert w[n - d] == w[..k][n - d];
      }
    }
  }

  // ---------------------------------------------------------------------------------------
  // Energy
  // ---------------------------------------------------------------------------------------

  /** The squares of the samples. */
  function Powers(s: seq<real>): (p: seq<real>)
    ensures |p| == |s|
  {
    seq(|s|, i requires 0 <= i < |s| => s[i] * s[i])
  }

  /** The sum of the samples before sample n. */
  function Sum(s: seq<real>, n: int): real
    decreases n
  {
    if n <= 0 then 0.0 else Sum(s, n - 1) + At(s, n - 1)
  }

  function Energy(s: seq<real>): real {
    Sum(Powers(s), |s|)
  }

  /** The energy held in the last d entries of the line. */
  function Held(w: seq<real>, d: nat): real {
    Sum(Powers(w), |w|) - Sum(Powers(w), |w| - d)
  }

  lemma PowersAt(s: seq<real>, n: int)
    ensures At(Powers(s), n) == At(s, n) * At(s, n)
  {
  }

  lemma StepEnergy(c: real, k: real, x: real, y: real, w: real, v: real)
    requires w == x + v * c && y == -c * w + v && k == 1.0 - c * c
    ensures x * x - y * y == k * (w * w - v * v)
  {
    assert x == w - v * c;
    calc {
      x * x - y * y;
      (w - v * c) * (w - v * c) - (v - c * w) * (v - c * w);
      w * w - 2.0 * (w * v * c) + v * v * (c * c) - (v * v - 2.0 * (w * v * c) + w * w * (c * c));
      w * w - v * v - (c * c) * (w * w - v * v);
      (1.0 - c * c) * (w * w - v * v);
    }
  }

  lemma StepPowers(k: real, xx: real, yy: real, ww: real, vv: real, loss: real, gain: real)
    requires xx - yy == k * (ww - vv) && loss == xx - yy && gain == ww - vv
    ensures loss == k * gain
  {
  }

  lemma Congruent(k: real, a: real, b: real)
    requires a == b
    ensures k * a == k * b
  {
  }

  /** What entry n adds to the last d entries: itself, less the one it pushes out. */
  function Gain(p: seq<real>, d: nat): seq<real> {
    seq(|p|, n requires 0 <= n < |p| => p[n] - At(p, n - d))
  }

  function Loss(p: seq<real>, q: seq<real>): seq<real>
    requires |p| == |q|
  {
    seq(|p|, n requires 0 <= n < |p| => p[n] - q[n])
  }

  lemma {:induction false} GainsTelescope(p: seq<real>, d: nat, n: int)
    requires n <= |p|
    ensures Sum(Gain(p, d), n) == Sum(p, n) - Sum(p, n - d)
    decreases n
  {
    if n > 0 {
      GainsTelescope(p, d, n - 1);
      assert Sum(p, n - d) == Sum(p, n - d - 1) + At(p, n - d - 1);
    }
  }

  lemma {:induction false} LossesAddUp(p: seq<real>, q: seq<real>, n: int)
    requires |p| == |q| && n <= |p|
    ensures Sum(Loss(p, q), n) == Sum(p, n) - Sum(q, n)
    decreases n
  {
    if n > 0 {
      LossesAddUp(p, q, n - 1);
    }
  }

  ghost predicate ScaledAt(p: seq<real>, q: seq<real>, k: real, n: int) {
    At(p, n) == k * At(q, n)
  }

  lemma {:induction false} SumScales(p: seq<real>, q: seq<real>, k: real, n: int)
    requires forall m | 0 <= m < n :: ScaledAt(p, q, k, m)
    ensures Sum(p, n) == k * Sum(q, n)
    decreases n
  {
    if n > 0 {
      assert ScaledAt(p, q, k, n - 1);
      SumScales(p, q, k, n - 1);
    }
  }

  /** Input, output and line are related at n as a stage relates them. */
  ghost predicate RelatedAt(x: seq<real>, y: seq<real>, w: seq<real>, c: real, d: nat, n: int) {
    At(w, n) == Entry(At(x, n), At(w, n - d), c) && At(y, n) == Tap(w, c, d, n)
  }

  lemma SampleBalance(x: seq<real>, y: seq<real>, w: seq<real>, c: real, k: real, d: nat, n: int)
    requires |x| == |y| == |w| && 0 <= n < |x| && k == 1.0 - c * c
    requires RelatedAt(x, y, w, c, d, n)
    ensures ScaledAt(Loss(Powers(x), Powers(y)), Gain(Powers(w), d), k, n)
  {
    StepEnergy(c, k, At(x, n), At(y, n), At(w, n), At(w, n - d));
    StepBalance(x, y, w, k, d, n);
  }

  lemma StepBalance(x: seq<real>, y: seq<real>, w: seq<real>, k: real, d: nat, n: int)
    requires |x| == |y| == |w| && 0 <= n < |x|
    requires At(x, n) * At(x, n) - At(y, n) * At(y, n) == k * (At(w, n) * At(w, n) - At(w, n - d) * At(w, n - d))
    ensures ScaledAt(Loss(Powers(x), Powers(y)), Gain(Powers(w), d), k, n)
  {
    PowersAt(w, n - d);
    StepPowers(k, At(x, n) * At(x, n), At(y, n) * At(y, n), At(w, n) * At(w, n), At(w, n - d) * At(w, n - d),
               At(Loss(Powers(x), Powers(y)), n), At(Gain(Powers(w), d), n));
  }

  lemma BalanceAddsUp(x: seq<real>, y: seq<real>, w: seq<real>, k: real, d: nat)
    requires |x| == |y| == |w|
    requires forall n | 0 <= n < |x| :: ScaledAt(Loss(Powers(x), Powers(y)), Gain(Powers(w), d), k, n)
    ensures Energy(x) - Energy(y) == k * Held(w, d)
  {
    SumScales(Loss(Powers(x), Powers(y)), Gain(Powers(w), d), k, |x|);
    LossesAddUp(Powers(x), Powers(y), |x|);
    GainsTelescope(Powers(w), d, |x|);
    Congruent(k, Sum(Gain(Powers(w), d), |x|), Held(w, d));
  }

  ghost predicate Related(x: seq<real>, y: seq<real>, w: seq<real>, c: real, d: nat) {
    |x| == |y| == |w| && forall n | 0 <= n < |x| :: RelatedAt(x, y, w, c, d, n)
  }

  lemma RelatedEnergy(x: seq<real>, y: seq<real>, w: seq<real>, c: real, k: real, d: nat)
    requires Related(x, y, w, c, d) && k == 1.0 - c * c
    ensures Energy(x) - Energy(y) == k * Held(w, d)
  {
    forall n | 0 <= n < |x| ensures ScaledAt(Loss(Powers(x), Powers(y)), Gain(Powers(w), d), k, n) {
      assert RelatedAt(x, y, w, c, d, n);
      SampleBalance(x, y, w, c, k, d, n);
    }
    BalanceAddsUp(x, y, w, k, d);
  }

  lemma FilterIsRelated(x: seq<real>, c: real, d: nat)
    requires d >= 1
    ensures Related(x, Filter(x, c, d), Line(x, c, d), c, d)
  {
    forall n | 0 <= n < |x| ensures RelatedAt(x, Filter(x, c, d), Line(x, c, d), c, d, n) {
      LineAt(x, c, d, n);
      FilterTap(x, c, d, n);
    }
  }

  /** All-pass: the energy put in and not yet out is the energy held in the last d line entries, times k = 1 - c*c. */
  lemma AllPassKeepsEnergy(x: seq<real>, y: seq<real>, w: seq<real>, c: real, k: real, d: nat)
    requires d >= 1 && y == Filter(x, c, d) && w == Line(x, c, d) && k == 1.0 - c * c
    ensures Energy(x) - Energy(y) == k * Held(w, d)
  {
    FilterIsRelated(x, c, d);
    RelatedEnergy(x, y, w, c, k, d);
  }

  lemma {:induction false} SumGrows(p: seq<real>, m: int, n: int)
    requires m <= n && forall i | 0 <= i < |p| :: p[i] >= 0.0
    ensures Sum(p, m) <= Sum(p, n)
    decreases n - m
  {
    if m < n {
      SumGrows(p, m, n - 1);
    }
  }

  lemma Scaled(k: real, a: real)
    requires k >= 0.0 && a >= 0.0
    ensures k * a >= 0.0
  {
  }

  lemma LossIsPositive(c: real, k: real)
    requires k == 1.0 - c * c && -1.0 <= c <= 1.0
    ensures k >= 0.0
  {
    Scaled(1.0 - c, 1.0 + c);
    assert (1.0 - c) * (1.0 + c) == k;
  }

  lemma HeldIsPositive(w: seq<real>, d: nat)
    ensures Held(w, d) >= 0.0
  {
    forall i | 0 <= i < |w| ensures Powers(w)[i] >= 0.0 {
      if w[i] >= 0.0 {
        Scaled(w[i], w[i]);
      } else {
        Scaled(-w[i], -w[i]);
      }
    }
    SumGrows(Powers(w), |w| - d, |w|);
  }

  /** With a coefficient of at most one, as every preset has, a stage never puts out more energy than it took in. */
  lemma AllPassIsStable(x: seq<real>, c: real, d: nat)
    requires d >= 1 && -1.0 <= c <= 1.0
    ensures Energy(Filter(x, c, d)) <= Energy(x)
  {
    var k := 1.0 - c * c;
    AllPassKeepsEnergy(x, Filter(x, c, d), Line(x, c, d), c, k, d);
    LossIsPositive(c, k);
    HeldIsPositive(Line(x, c, d), d);
    Scaled(k, Held(Line(x, c, d), d));
  }
}
