/** The per-timestep pieces of the two sublayers: the time-mix interpolation
    between the current and the shifted hidden vector, learned projections
    (`nn.Dense`, given as functions on vectors), and element-wise maps and
    products. Each is applied independently at every timestep, so each
    distributes over concatenation of sequences. */
module Mixing {
  import opened Base
  import opened Wkv

  /** The library numerics the layer calls: `jnp.exp` and
      `jax.nn.sigmoid`. */
  datatype Library = Library(exp: real -> real, sigmoid: real -> real)

  /** What the model assumes of the library: `exp` is an exponential in the
      sense of `Wkv.IsExp`. */
  ghost predicate Lawful(lib: Library)
  {
    IsExp(lib.exp)
  }

  /** `f` maps every vector of width `n` to one of width `m`. */
  ghost predicate MapsWidth(f: Vec -> Vec, n: nat, m: nat)
  {
    forall x :: |x| == n ==> |f(x)| == m
  }

  /** The time-mix `h * mix + shifted * (1 - mix)`: for a coefficient in
      [0, 1] each entry lies between the current and the shifted value, and
      coefficients 1 and 0 select the current and the shifted value. */
  function Mix(h: Vec, sh: Vec, mix: Vec): (r: Vec)
    requires |sh| == |h| && |mix| == |h|
    ensures |r| == |h|
    ensures forall c :: 0 <= c < |h| && 0.0 <= mix[c] <= 1.0 ==>
              Min(h[c], sh[c]) <= r[c] <= Base.Max(h[c], sh[c])
    ensures forall c :: 0 <= c < |h| && mix[c] == 1.0 ==> r[c] == h[c]
    ensures forall c :: 0 <= c < |h| && mix[c] == 0.0 ==> r[c] == sh[c]
  {
    seq(|h|, c requires 0 <= c < |h| => MixEntry(h[c], sh[c], mix[c]))
  }

  function Min(a: real, b: real): real
  {
    if a <= b then a else b
  }

  /** One entry of the time-mix, a convex combination for `m` in [0, 1]. */
  function MixEntry(x: real, y: real, m: real): (r: real)
    ensures 0.0 <= m <= 1.0 ==> Min(x, y) <= r <= Base.Max(x, y)
    ensures m == 1.0 ==> r == x
    ensures m == 0.0 ==> r == y
  {
    ConvexBetween(x, y, m);
    x * m + y * (1.0 - m)
  }

  lemma ConvexBetween(x: real, y: real, m: real)
    ensures 0.0 <= m <= 1.0 ==> Min(x, y) <= x * m + y * (1.0 - m) <= Base.Max(x, y)
  {
    if 0.0 <= m <= 1.0 {
      if x <= y {
        // `y` less a share of `y - x`
        NonNegScale(y - x, m);
        assert x * m + y * (1.0 - m) == y - Share(y - x, m);
      } else {
        // `x` less a share of `x - y`
        NonNegScale(x - y, 1.0 - m);
        assert x * m + y * (1.0 - m) == x - Share(x - y, 1.0 - m);
      }
    }
  }

  /** The share `m` of an amount `d`. */
  function Share(d: real, m: real): real
  {
    d * m
  }

  /** A non-negative amount scaled by a coefficient in [0, 1] stays between
      zero and itself. */
  lemma NonNegScale(d: real, m: real)
    requires 0.0 <= d && 0.0 <= m <= 1.0
    ensures 0.0 <= Share(d, m) <= d
  {
    assert d * m <= d * 1.0;
  }

  /** Time-mix with coefficients `mix`, then projection `f`, at every
      timestep (`self.key(hidden * mix + shifted * (1 - mix))`). */
  function Project(f: Vec -> Vec, mix: Vec, hidden: seq<Vec>, shifted: seq<Vec>, m: nat): (r: seq<Vec>)
    requires |shifted| == |hidden| && Rows(hidden, |mix|) && Rows(shifted, |mix|)
    requires MapsWidth(f, |mix|, m)
    ensures |r| == |hidden| && Rows(r, m)
    ensures forall t {:trigger r[t]} :: 0 <= t < |hidden| ==> r[t] == f(Mix(hidden[t], shifted[t], mix))
  {
    assert forall t :: 0 <= t < |hidden| ==> |f(Mix(hidden[t], shifted[t], mix))| == m;
    seq(|hidden|, t requires 0 <= t < |hidden| => f(Mix(hidden[t], shifted[t], mix)))
  }

  /** A scalar function applied to every entry (`sigmoid`, `square(relu(.))`,
      halving). */
  function Elementwise(f: real -> real, xs: seq<Vec>): (r: seq<Vec>)
    ensures |r| == |xs|
    ensures forall t :: 0 <= t < |xs| ==> |r[t]| == |xs[t]|
    ensures forall t, c :: 0 <= t < |xs| && 0 <= c < |xs[t]| ==> r[t][c] == f(xs[t][c])
  {
    seq(|xs|, t requires 0 <= t < |xs| => seq(|xs[t]|, c requires 0 <= c < |xs[t]| => f(xs[t][c])))
  }

  /** Two sequences of equal shape combined entry by entry with `op`
      (residual addition, gating product). */
  function Combine(op: (real, real) -> real, xs: seq<Vec>, ys: seq<Vec>): (r: seq<Vec>)
    requires |ys| == |xs|
    requires forall t :: 0 <= t < |xs| ==> |ys[t]| == |xs[t]|
    ensures |r| == |xs|
    ensures forall t :: 0 <= t < |xs| ==> |r[t]| == |xs[t]|
    ensures forall t, c :: 0 <= t < |xs| && 0 <= c < |xs[t]| ==> r[t][c] == op(xs[t][c], ys[t][c])
  {
    seq(|xs|, t requires 0 <= t < |xs| => seq(|xs[t]|, c requires 0 <= c < |xs[t]| => op(xs[t][c], ys[t][c])))
  }

  function Add(a: real, b: real): real { a + b }

  /** A residual connection `xs + ys` of two sequences of width `n`. */
  function Residual(xs: seq<Vec>, ys: seq<Vec>, n: nat): (r: seq<Vec>)
    requires |ys| == |xs| && Rows(xs, n) && Rows(ys, n)
    ensures |r| == |xs| && Rows(r, n)
    ensures forall t, c :: 0 <= t < |xs| && 0 <= c < n ==> r[t][c] == xs[t][c] + ys[t][c]
  {
    Combine(Add, xs, ys)
  }

  /** A width-preserving per-timestep map (a layer norm). */
  function Norm(f: Vec -> Vec, xs: seq<Vec>, n: nat): (r: seq<Vec>)
    requires MapsWidth(f, n, n) && Rows(xs, n)
    ensures |r| == |xs| && Rows(r, n)
    ensures forall t :: 0 <= t < |xs| ==> r[t] == f(xs[t])
  {
    MapRows(f, xs)
  }

  lemma ResidualConcat(x1: seq<Vec>, y1: seq<Vec>, x2: seq<Vec>, y2: seq<Vec>, n: nat)
    requires |y1| == |x1| && Rows(x1, n) && Rows(y1, n)
    requires |y2| == |x2| && Rows(x2, n) && Rows(y2, n)
    ensures Rows(x1 + x2, n) && Rows(y1 + y2, n)
    ensures Residual(x1 + x2, y1 + y2, n) == Residual(x1, y1, n) + Residual(x2, y2, n)
  {
    RowsConcat(x1, x2, n);
    RowsConcat(y1, y2, n);
    CombineConcat(Add, x1, y1, x2, y2);
  }

  lemma NormConcat(f: Vec -> Vec, x1: seq<Vec>, x2: seq<Vec>, n: nat)
    requires MapsWidth(f, n, n) && Rows(x1, n) && Rows(x2, n)
    ensures Rows(x1 + x2, n)
    ensures Norm(f, x1 + x2, n) == Norm(f, x1, n) + Norm(f, x2, n)
  {
    RowsConcat(x1, x2, n);
    MapRowsConcat(f, x1, x2);
  }

  function Mul(a: real, b: real): real { a * b }

  /** `jnp.square(jax.nn.relu(x))`: zero for non-positive inputs, the square
      otherwise, so never negative. */
  function SquaredRelu(x: real): (r: real)
    ensures 0.0 <= r
    ensures x <= 0.0 ==> r == 0.0
    ensures 0.0 < x ==> r == x * x
  {
    var y := Base.Max(x, 0.0);
    y * y
  }

  /** Halving, the rescale of the block stack. */
  function Half(x: real): real { x / 2.0 }

  // ---------------------------------------------------------------------
  // Every per-timestep operation distributes over concatenation

  lemma ProjectConcat(f: Vec -> Vec, mix: Vec, h1: seq<Vec>, s1: seq<Vec>, h2: seq<Vec>, s2: seq<Vec>, m: nat)
    requires |s1| == |h1| && Rows(h1, |mix|) && Rows(s1, |mix|)
    requires |s2| == |h2| && Rows(h2, |mix|) && Rows(s2, |mix|)
    requires MapsWidth(f, |mix|, m)
    ensures Rows(h1 + h2, |mix|) && Rows(s1 + s2, |mix|)
    ensures Project(f, mix, h1 + h2, s1 + s2, m) == Project(f, mix, h1, s1, m) + Project(f, mix, h2, s2, m)
  {
    RowsConcat(h1, h2, |mix|);
    RowsConcat(s1, s2, |mix|);
    var l, r := Project(f, mix, h1 + h2, s1 + s2, m), Project(f, mix, h1, s1, m) + Project(f, mix, h2, s2, m);
    forall t | 0 <= t < |l| ensures l[t] == r[t] {
      if t < |h1| {
        assert (h1 + h2)[t] == h1[t] && (s1 + s2)[t] == s1[t];
      } else {
        assert (h1 + h2)[t] == h2[t - |h1|] && (s1 + s2)[t] == s2[t - |h1|];
      }
    }
  }

  lemma ElementwiseConcat(f: real -> real, xs: seq<Vec>, ys: seq<Vec>)
    ensures Elementwise(f, xs + ys) == Elementwise(f, xs) + Elementwise(f, ys)
  {
    var l, r := Elementwise(f, xs + ys), Elementwise(f, xs) + Elementwise(f, ys);
    forall t | 0 <= t < |l| ensures l[t] == r[t] {
      if t < |xs| {
        assert (xs + ys)[t] == xs[t];
      } else {
        assert (xs + ys)[t] == ys[t - |xs|];
      }
    }
  }

  lemma CombineConcat(op: (real, real) -> real, x1: seq<Vec>, y1: seq<Vec>, x2: seq<Vec>, y2: seq<Vec>)
    requires |y1| == |x1| && forall t :: 0 <= t < |x1| ==> |y1[t]| == |x1[t]|
    requires |y2| == |x2| && forall t :: 0 <= t < |x2| ==> |y2[t]| == |x2[t]|
    ensures forall t :: 0 <= t < |x1 + x2| ==> |(y1 + y2)[t]| == |(x1 + x2)[t]|
    ensures Combine(op, x1 + x2, y1 + y2) == Combine(op, x1, y1) + Combine(op, x2, y2)
  {
    forall t | 0 <= t < |x1 + x2| ensures |(y1 + y2)[t]| == |(x1 + x2)[t]| {
      if t < |x1| {
        assert (x1 + x2)[t] == x1[t] && (y1 + y2)[t] == y1[t];
      } else {
        assert (x1 + x2)[t] == x2[t - |x1|] && (y1 + y2)[t] == y2[t - |x1|];
      }
    }
    var l, r := Combine(op, x1 + x2, y1 + y2), Combine(op, x1, y1) + Combine(op, x2, y2);
    forall t | 0 <= t < |l| ensures l[t] == r[t] {
      if t < |x1| {
        assert (x1 + x2)[t] == x1[t] && (y1 + y2)[t] == y1[t];
      } else {
        assert (x1 + x2)[t] == x2[t - |x1|] && (y1 + y2)[t] == y2[t - |x1|];
      }
    }
  }
}
