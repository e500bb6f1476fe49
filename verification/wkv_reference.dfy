/** What the max-shifted WKV scan computes, stated without the shift: the
    plain recurrence over un-normalised sums

      out[t] = (N + exp(k[t] + u) * v[t]) / (D + exp(k[t] + u))
      N'     = exp(w) * N + exp(k[t]) * v[t]
      D'     = exp(w) * D + exp(k[t])

    The kernel keeps (num, den, max) with N = exp(max) * num and
    D = exp(max) * den, so that it never exponentiates an unbounded quantity.
    Relating the two needs one more fact about `exp`: it turns sums into
    products. The channels of the kernel do not interact, so the comparison is
    made one channel at a time. */
module WkvReference {
  import opened Base
  import opened Wkv

  /** `exp(x + y)`, named so that the additivity law below fires only where a
      proof asks for it. */
  ghost function ExpOfSum(exp: real -> real, x: real, y: real): real
  {
    exp(x + y)
  }

  /** `exp(x + y) == exp(x) * exp(y)`. */
  ghost predicate ExpAdditive(exp: real -> real)
  {
    forall x, y {:trigger ExpOfSum(exp, x, y)} :: ExpOfSum(exp, x, y) == exp(x) * exp(y)
  }

  /** Shifting by `m`: `exp(a) == exp(a - m) * exp(m)`. */
  lemma ExpShift(exp: real -> real, a: real, m: real)
    requires ExpAdditive(exp)
    ensures exp(a) == exp(a - m) * exp(m)
  {
    assert ExpOfSum(exp, a - m, m) == exp(a - m) * exp(m);
    assert a - m + m == a;
  }

  lemma ExpAdd(exp: real -> real, x: real, y: real)
    requires ExpAdditive(exp)
    ensures exp(x + y) == exp(x) * exp(y)
  {
    assert ExpOfSum(exp, x, y) == exp(x) * exp(y);
  }

  // ---------------------------------------------------------------------
  // One channel of the kernel

  /** The outputs of one channel and its final accumulator. */
  datatype ChannelResult = ChannelResult(outputs: seq<real>, acc: Acc)

  /** The kernel's scan restricted to a single channel. */
  function ChannelScan(exp: real -> real, w: real, u: real, ks: seq<real>, vs: seq<real>, s: Acc): (r: ChannelResult)
    requires IsExp(exp)
    requires |ks| == |vs| && 0.0 <= s.den
    ensures |r.outputs| == |ks| && 0.0 <= r.acc.den
    decreases |ks|
  {
    if |ks| == 0 then ChannelResult([], s)
    else
      var st := Step(exp, w, u, ks[0], vs[0], s);
      var rest := ChannelScan(exp, w, u, ks[1..], vs[1..], st.acc);
      ChannelResult([st.out] + rest.outputs, rest.acc)
  }

  /** Channel `c` of every vector of `xs`. */
  function Column(xs: seq<Vec>, n: nat, c: nat): (col: seq<real>)
    requires Rows(xs, n) && c < n
    ensures |col| == |xs|
    ensures forall t :: 0 <= t < |xs| ==> col[t] == xs[t][c]
  {
    seq(|xs|, t requires 0 <= t < |xs| => xs[t][c])
  }

  /** Channels do not interact: channel `c` of the kernel's scan is the
      single-channel scan of channel `c` of the keys and values. */
  lemma {:induction false} ScanByChannel(exp: real -> real, w: Vec, u: Vec, ks: seq<Vec>, vs: seq<Vec>, s: seq<Acc>, c: nat)
    requires IsExp(exp)
    requires Shaped(w, u, ks, vs, |s|) && DenNonNeg(s)
    requires c < |s|
    ensures var r := Scan(exp, w, u, ks, vs, s);
            var q := ChannelScan(exp, w[c], u[c], Column(ks, |s|, c), Column(vs, |s|, c), s[c]);
            Column(r.outputs, |s|, c) == q.outputs && r.state[c] == q.acc
    decreases |ks|
  {
    var n := |s|;
    if |ks| > 0 {
      var st := ChannelStep(exp, w, u, ks[0], vs[0], s);
      assert Column(ks[1..], n, c) == Column(ks, n, c)[1..];
      assert Column(vs[1..], n, c) == Column(vs, n, c)[1..];
      ScanByChannel(exp, w, u, ks[1..], vs[1..], st.1, c);
      var rest := Scan(exp, w, u, ks[1..], vs[1..], st.1);
      assert Column([st.0] + rest.outputs, n, c) == [st.0[c]] + Column(rest.outputs, n, c);
    }
  }

  // ---------------------------------------------------------------------
  // The reference recurrence

  /** Un-normalised running sums: weighted values and total weight. */
  datatype Sums = Sums(num: real, den: real)

  /** The sums an accumulator stands for. */
  function Unshift(exp: real -> real, a: Acc): (p: Sums)
    requires IsExp(exp) && 0.0 <= a.den
    ensures 0.0 <= p.den
  {
    NonNegProduct(exp(a.max), a.den);
    Sums(exp(a.max) * a.num, exp(a.max) * a.den)
  }

  /** The reference recurrence's outputs and final sums. */
  datatype RefResult = RefResult(outputs: seq<real>, sums: Sums)

  /** The reference output for sums `p`, key `k`, value `v`, bonus `u`. */
  function RefOutput(exp: real -> real, u: real, k: real, v: real, p: Sums): real
    requires IsExp(exp) && 0.0 <= p.den
  {
    var b := exp(k + u);
    Ratio(p.num + b * v, p.den + b)
  }

  /** The reference sums after folding in key `k` and value `v` with decay `w`. */
  function RefNext(exp: real -> real, w: real, k: real, v: real, p: Sums): (r: Sums)
    requires IsExp(exp) && 0.0 <= p.den
    ensures 0.0 <= r.den
  {
    NonNegProduct(exp(w), p.den);
    Sums(exp(w) * p.num + exp(k) * v, exp(w) * p.den + exp(k))
  }

  /** The plain recurrence of the module comment, for one channel. */
  function RefScan(exp: real -> real, w: real, u: real, ks: seq<real>, vs: seq<real>, p: Sums): (r: RefResult)
    requires IsExp(exp)
    requires |ks| == |vs| && 0.0 <= p.den
    ensures |r.outputs| == |ks| && 0.0 <= r.sums.den
    decreases |ks|
  {
    if |ks| == 0 then RefResult([], p)
    else
      var rest := RefScan(exp, w, u, ks[1..], vs[1..], RefNext(exp, w, ks[0], vs[0], p));
      RefResult([RefOutput(exp, u, ks[0], vs[0], p)] + rest.outputs, rest.sums)
  }

  /** Scaling both weights by `e > 0` does not change a weighted average:
      with `x == e1 * e` and `y == e2 * e`, the average with weights x, y is
      the average with weights e1, e2. */
  lemma RescaledAverage(e1: real, e2: real, e: real, x: real, y: real, n: real, d: real, v: real)
    requires 0.0 < e1 && 0.0 < e2 && 0.0 < e && 0.0 <= d
    requires x == e1 * e && y == e2 * e
    ensures 0.0 < x * d + y
    ensures Ratio(x * n + y * v, x * d + y) == Average(e1, e2, n, d, v)
  {
    NonNegProduct(e1, d);
    var num, den := e1 * n + e2 * v, e1 * d + e2;
    assert x * n + y * v == e * num;
    assert x * d + y == e * den;
    assert (e * num) / (e * den) == num / den;
  }

  lemma RescaledBlend(f1: real, f2: real, e: real, n: real, d: real, v: real)
    ensures e * (f1 * n + f2 * v) == (f1 * e) * n + (f2 * e) * v
    ensures e * (f1 * d + f2) == (f1 * e) * d + f2 * e
  {
  }

  lemma Reassociate(a: real, b: real, n: real)
    ensures (a * b) * n == b * (a * n)
  {
  }

  /** The output of one step is the reference output of the sums the
      accumulator stands for. */
  lemma StepOutputMatches(exp: real -> real, u: real, k: real, v: real, s: Acc)
    requires IsExp(exp) && ExpAdditive(exp) && 0.0 <= s.den
    ensures StepOutput(exp, u, k, v, s) == RefOutput(exp, u, k, v, Unshift(exp, s))
  {
    var o := Mixture(exp, s.max, k + u);
    var p := Unshift(exp, s);
    MixtureScales(exp, s.max, k + u);
    ScaledOutput(o.e1, o.e2, exp(o.m), exp(s.max), exp(k + u), s.num, s.den, v, p.num, p.den);
  }

  /** The two weights of a mixture are the two exponentials divided by the
      exponential of the maximum. */
  lemma MixtureScales(exp: real -> real, a: real, b: real)
    requires IsExp(exp) && ExpAdditive(exp)
    ensures var o := Mixture(exp, a, b);
            exp(a) == o.e1 * exp(o.m) && exp(b) == o.e2 * exp(o.m)
  {
    var o := Mixture(exp, a, b);
    ExpShift(exp, a, o.m);
    ExpShift(exp, b, o.m);
  }

  /** `RescaledAverage` for sums already multiplied out. */
  lemma ScaledOutput(e1: real, e2: real, e: real, x: real, b: real, n: real, d: real, v: real, pn: real, pd: real)
    requires 0.0 < e1 && 0.0 < e2 && 0.0 < e && 0.0 <= d
    requires x == e1 * e && b == e2 * e && pn == x * n && pd == x * d
    ensures 0.0 < pd + b
    ensures Ratio(pn + b * v, pd + b) == Average(e1, e2, n, d, v)
  {
    RescaledAverage(e1, e2, e, x, b, n, d, v);
  }

  /** The accumulator after one step stands for the reference's next sums. */
  lemma StepSumsMatch(exp: real -> real, w: real, k: real, v: real, s: Acc)
    requires IsExp(exp) && ExpAdditive(exp) && 0.0 <= s.den
    ensures Unshift(exp, StepState(exp, w, k, v, s)) == RefNext(exp, w, k, v, Unshift(exp, s))
  {
    var n := Mixture(exp, s.max + w, k);
    var e := exp(n.m);
    ExpShift(exp, s.max + w, n.m);
    ExpShift(exp, k, n.m);
    ExpAdd(exp, s.max, w);
    var a := Blend(n.e1, n.e2, s, v, n.m);
    RescaledBlend(n.e1, n.e2, e, s.num, s.den, v);
    Reassociate(exp(s.max), exp(w), s.num);
    Reassociate(exp(s.max), exp(w), s.den);
  }

  /** One channel of the kernel computes the reference recurrence: same
      outputs, and a final accumulator standing for the reference's sums. */
  lemma {:induction false} ChannelScanMatchesReference(exp: real -> real, w: real, u: real, ks: seq<real>, vs: seq<real>, s: Acc)
    requires IsExp(exp) && ExpAdditive(exp)
    requires |ks| == |vs| && 0.0 <= s.den
    ensures var q := ChannelScan(exp, w, u, ks, vs, s);
            var r := RefScan(exp, w, u, ks, vs, Unshift(exp, s));
            q.outputs == r.outputs && Unshift(exp, q.acc) == r.sums
    decreases |ks|
  {
    if |ks| > 0 {
      var st := Step(exp, w, u, ks[0], vs[0], s);
      StepOutputMatches(exp, u, ks[0], vs[0], s);
      StepSumsMatch(exp, w, ks[0], vs[0], s);
      ChannelScanMatchesReference(exp, w, u, ks[1..], vs[1..], st.acc);
    }
  }

  /** The kernel's scan computes, channel by channel, the reference
      recurrence started from the sums its initial state stands for. */
  lemma ScanMatchesReference(exp: real -> real, w: Vec, u: Vec, ks: seq<Vec>, vs: seq<Vec>, s: seq<Acc>, c: nat)
    requires IsExp(exp) && ExpAdditive(exp)
    requires Shaped(w, u, ks, vs, |s|) && DenNonNeg(s)
    requires c < |s|
    ensures var r := Scan(exp, w, u, ks, vs, s);
            var q := RefScan(exp, w[c], u[c], Column(ks, |s|, c), Column(vs, |s|, c), Unshift(exp, s[c]));
            Column(r.outputs, |s|, c) == q.outputs && Unshift(exp, r.state[c]) == q.sums
  {
    ScanByChannel(exp, w, u, ks, vs, s, c);
    ChannelScanMatchesReference(exp, w[c], u[c], Column(ks, |s|, c), Column(vs, |s|, c), s[c]);
  }
}
