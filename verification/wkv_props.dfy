/** Properties of the WKV kernel: chunked scans compose (what makes
    incremental decoding agree with a full-sequence pass), the outputs are
    weighted averages of the values, the channels do not interact, and the
    first output of a fresh scan is the first value itself. */
module WkvProps {
  import opened Base
  import opened Wkv

  /** Scanning `k1 + k2` from `s` is scanning `k1` from `s` and then `k2`
      from the state the first scan returned. */
  lemma {:induction false} ScanConcat(exp: real -> real, w: Vec, u: Vec,
                                      k1: seq<Vec>, v1: seq<Vec>, k2: seq<Vec>, v2: seq<Vec>, s: seq<Acc>)
    requires IsExp(exp)
    requires Shaped(w, u, k1, v1, |s|) && Shaped(w, u, k2, v2, |s|)
    requires DenNonNeg(s)
    ensures Shaped(w, u, k1 + k2, v1 + v2, |s|)
    ensures var r1 := Scan(exp, w, u, k1, v1, s);
            var r2 := Scan(exp, w, u, k2, v2, r1.state);
            Scan(exp, w, u, k1 + k2, v1 + v2, s) == ScanResult(r1.outputs + r2.outputs, r2.state)
    decreases |k1|
  {
    RowsConcat(k1, k2, |s|);
    RowsConcat(v1, v2, |s|);
    if |k1| == 0 {
      assert k1 + k2 == k2 && v1 + v2 == v2;
    } else {
      var st := ChannelStep(exp, w, u, k1[0], v1[0], s);
      assert (k1 + k2)[0] == k1[0] && (v1 + v2)[0] == v1[0];
      assert (k1 + k2)[1..] == k1[1..] + k2 && (v1 + v2)[1..] == v1[1..] + v2;
      ScanConcat(exp, w, u, k1[1..], v1[1..], k2, v2, st.1);
    }
  }

  /** Incremental decoding with a carried state: one kernel call over
      `k1 + k2` gives the outputs and final state of a call over `k1`
      followed by a call over `k2` fed the returned state. */
  lemma LinearAttentionConcat(exp: real -> real, timeDecay: Vec, timeFirst: Vec,
                              k1: seq<Vec>, v1: seq<Vec>, k2: seq<Vec>, v2: seq<Vec>,
                              s: seq<Acc>, returnState: bool)
    requires IsExp(exp)
    requires KernelArgs(timeDecay, timeFirst, k1, v1, Some(s))
    requires KernelArgs(timeDecay, timeFirst, k2, v2, Some(s))
    ensures KernelArgs(timeDecay, timeFirst, k1 + k2, v1 + v2, Some(s))
    ensures var r1 := LinearAttention(exp, timeDecay, timeFirst, k1, v1, Some(s), returnState);
            r1.1.Some? &&
            var r2 := LinearAttention(exp, timeDecay, timeFirst, k2, v2, r1.1, returnState);
            LinearAttention(exp, timeDecay, timeFirst, k1 + k2, v1 + v2, Some(s), returnState)
              == (r1.0 + r2.0, r2.1)
  {
    ScanConcat(exp, Decays(exp, timeDecay), timeFirst, k1, v1, k2, v2, s);
  }

  /** Prefill then decode: a stateless call over `k1 + k2` that returns its
      state produces the outputs of a call over `k1` that returns its state,
      followed by those of a call over `k2` fed that state, and ends in the
      state the second call returns. */
  lemma PrefillThenDecode(exp: real -> real, timeDecay: Vec, timeFirst: Vec,
                          k1: seq<Vec>, v1: seq<Vec>, k2: seq<Vec>, v2: seq<Vec>)
    requires IsExp(exp)
    requires KernelArgs(timeDecay, timeFirst, k1, v1, None)
    requires KernelArgs(timeDecay, timeFirst, k2, v2, Some(NoState(|timeDecay|)))
    ensures KernelArgs(timeDecay, timeFirst, k1 + k2, v1 + v2, None)
    ensures var r1 := LinearAttention(exp, timeDecay, timeFirst, k1, v1, None, true);
            r1.1.Some? &&
            var r2 := LinearAttention(exp, timeDecay, timeFirst, k2, v2, r1.1, true);
            LinearAttention(exp, timeDecay, timeFirst, k1 + k2, v1 + v2, None, true) == (r1.0 + r2.0, r2.1)
  {
    ScanConcat(exp, Decays(exp, timeDecay), timeFirst, k1, v1, k2, v2, NoState(|timeDecay|));
  }

  // ---------------------------------------------------------------------
  // Outputs are weighted averages of the values

  /** The accumulator holds an average within [lo, hi]: num lies between
      lo * den and hi * den. */
  ghost predicate Bracketed(a: Acc, lo: real, hi: real)
  {
    lo * a.den <= a.num <= hi * a.den
  }

  ghost predicate AllBracketed(s: seq<Acc>, lo: real, hi: real)
  {
    forall c :: 0 <= c < |s| ==> Bracketed(s[c], lo, hi)
  }

  /** Every entry of every vector lies in [lo, hi]. */
  ghost predicate Within(xs: seq<Vec>, lo: real, hi: real)
  {
    forall t, c :: 0 <= t < |xs| && 0 <= c < |xs[t]| ==> lo <= xs[t][c] <= hi
  }

  lemma ScaleLe(a: real, x: real, y: real)
    requires 0.0 <= a && x <= y
    ensures a * x <= a * y
  {
  }

  lemma RatioBounds(n: real, d: real, lo: real, hi: real)
    requires 0.0 < d
    requires lo * d <= n <= hi * d
    ensures lo <= n / d <= hi
  {
    var q := n / d;
    assert q * d == n;
    CancelLe(lo, q, d);
    CancelLe(q, hi, d);
  }

  /** A positive factor can be cancelled from both sides of `<=`. */
  lemma CancelLe(a: real, b: real, d: real)
    requires 0.0 < d && a * d <= b * d
    ensures a <= b
  {
    if b < a {
      StrictScale(d, b, a);
    }
  }

  lemma StrictScale(d: real, x: real, y: real)
    requires 0.0 < d && x < y
    ensures x * d < y * d
  {
  }

  /** With positive weights, `e1 * n + e2 * v` lies between `lo` and `hi`
      times the total weight `e1 * dd + e2` when `n` lies between `lo * dd`
      and `hi * dd` and `v` in [lo, hi]. */
  lemma WeightedBounds(e1: real, e2: real, n: real, dd: real, v: real, lo: real, hi: real)
    requires 0.0 < e1 && 0.0 < e2
    requires lo * dd <= n <= hi * dd && lo <= v <= hi
    ensures lo * (e1 * dd + e2) <= e1 * n + e2 * v <= hi * (e1 * dd + e2)
  {
    ScaleLe(e1, lo * dd, n);
    ScaleLe(e1, n, hi * dd);
    ScaleLe(e2, lo, v);
    ScaleLe(e2, v, hi);
    assert e1 * (lo * dd) == lo * (e1 * dd);
    assert e1 * (hi * dd) == hi * (e1 * dd);
    assert e2 * lo == lo * e2 && e2 * hi == hi * e2;
    assert lo * (e1 * dd) + lo * e2 == lo * (e1 * dd + e2);
    assert hi * (e1 * dd) + hi * e2 == hi * (e1 * dd + e2);
  }

  /** Folding a value in [lo, hi] into a bracketed history with positive
      weights gives a bracketed accumulator. */
  lemma BlendBracketed(e1: real, e2: real, a: Acc, v: real, m: real, lo: real, hi: real)
    requires 0.0 < e1 && 0.0 < e2 && 0.0 <= a.den
    requires Bracketed(a, lo, hi) && lo <= v <= hi
    ensures Bracketed(Blend(e1, e2, a, v, m), lo, hi)
  {
    WeightedBounds(e1, e2, a.num, a.den, v, lo, hi);
  }

  /** A positively weighted average of a bracketed history and a value in
      [lo, hi] lies in [lo, hi]. */
  lemma AverageWithin(e1: real, e2: real, a: Acc, v: real, lo: real, hi: real)
    requires 0.0 < e1 && 0.0 < e2 && 0.0 <= a.den
    requires Bracketed(a, lo, hi) && lo <= v <= hi
    ensures lo <= Average(e1, e2, a.num, a.den, v) <= hi
  {
    NonNegProduct(e1, a.den);
    WeightedBounds(e1, e2, a.num, a.den, v, lo, hi);
    RatioBounds(e1 * a.num + e2 * v, e1 * a.den + e2, lo, hi);
  }

  /** One step keeps the average within [lo, hi]: the output lies in the
      range and so does the new accumulator's average. */
  lemma StepAverage(exp: real -> real, w: real, u: real, k: real, v: real, s: Acc, lo: real, hi: real)
    requires IsExp(exp) && 0.0 <= s.den
    requires Bracketed(s, lo, hi) && lo <= v <= hi
    ensures lo <= Step(exp, w, u, k, v, s).out <= hi
    ensures Bracketed(Step(exp, w, u, k, v, s).acc, lo, hi)
  {
    var o := Mixture(exp, s.max, k + u);
    AverageWithin(o.e1, o.e2, s, v, lo, hi);
    var n := Mixture(exp, s.max + w, k);
    BlendBracketed(n.e1, n.e2, s, v, n.m, lo, hi);
  }

  /** Every output of a scan whose values lie in [lo, hi], started from a
      state whose averages lie in [lo, hi], lies in [lo, hi]. */
  lemma {:induction false} ScanAverage(exp: real -> real, w: Vec, u: Vec, ks: seq<Vec>, vs: seq<Vec>, s: seq<Acc>, lo: real, hi: real)
    requires IsExp(exp)
    requires Shaped(w, u, ks, vs, |s|)
    requires DenNonNeg(s)
    requires AllBracketed(s, lo, hi) && Within(vs, lo, hi)
    ensures Within(Scan(exp, w, u, ks, vs, s).outputs, lo, hi)
    ensures AllBracketed(Scan(exp, w, u, ks, vs, s).state, lo, hi)
    decreases |ks|
  {
    if |ks| > 0 {
      var st := ChannelStep(exp, w, u, ks[0], vs[0], s);
      forall c | 0 <= c < |s|
        ensures lo <= st.0[c] <= hi && Bracketed(st.1[c], lo, hi)
      {
        StepAverage(exp, w[c], u[c], ks[0][c], vs[0][c], s[c], lo, hi);
      }
      assert Within(vs[1..], lo, hi) by {
        forall t, c | 0 <= t < |vs[1..]| && 0 <= c < |vs[1..][t]| ensures lo <= vs[1..][t][c] <= hi {
          assert vs[1..][t] == vs[t + 1];
        }
      }
      ScanAverage(exp, w, u, ks[1..], vs[1..], st.1, lo, hi);
      var rest := Scan(exp, w, u, ks[1..], vs[1..], st.1);
      var outs := [st.0] + rest.outputs;
      forall t, c | 0 <= t < |outs| && 0 <= c < |outs[t]| ensures lo <= outs[t][c] <= hi {
        if t > 0 { assert outs[t] == rest.outputs[t - 1]; }
      }
    }
  }

  /** A stateless kernel call emits weighted averages of its values: when
      every value lies in [lo, hi], so does every output. */
  lemma OutputsAreAverages(exp: real -> real, timeDecay: Vec, timeFirst: Vec, ks: seq<Vec>, vs: seq<Vec>,
                           returnState: bool, lo: real, hi: real)
    requires IsExp(exp)
    requires KernelArgs(timeDecay, timeFirst, ks, vs, None)
    requires Within(vs, lo, hi)
    ensures Within(LinearAttention(exp, timeDecay, timeFirst, ks, vs, None, returnState).0, lo, hi)
  {
    var s0 := NoState(|timeDecay|);
    assert AllBracketed(s0, lo, hi);
    ScanAverage(exp, Decays(exp, timeDecay), timeFirst, ks, vs, s0, lo, hi);
  }

  lemma EmptyHistoryAverage(e1: real, e2: real, v: real)
    requires 0.0 < e1 && 0.0 < e2
    ensures Average(e1, e2, 0.0, 0.0, v) == v
  {
    assert e1 * 0.0 + e2 * v == e2 * v;
    assert e1 * 0.0 + e2 == e2;
  }

  /** With an empty history (zero numerator and denominator) the output is
      the value itself, whatever the maximum. */
  lemma StepFromEmpty(exp: real -> real, w: real, u: real, k: real, v: real, m: real)
    requires IsExp(exp)
    ensures Step(exp, w, u, k, v, Acc(0.0, 0.0, m)).out == v
  {
    var o := Mixture(exp, m, k + u);
    EmptyHistoryAverage(o.e1, o.e2, v);
  }

  /** The first output of a stateless kernel call is the first value vector:
      the sentinel state contributes nothing. */
  lemma FirstOutputIsValue(exp: real -> real, timeDecay: Vec, timeFirst: Vec, ks: seq<Vec>, vs: seq<Vec>, returnState: bool)
    requires IsExp(exp)
    requires KernelArgs(timeDecay, timeFirst, ks, vs, None)
    ensures LinearAttention(exp, timeDecay, timeFirst, ks, vs, None, returnState).0[0] == vs[0]
  {
    var n := |timeDecay|;
    var w := Decays(exp, timeDecay);
    var st := ChannelStep(exp, w, timeFirst, ks[0], vs[0], NoState(n));
    forall c | 0 <= c < n ensures st.0[c] == vs[0][c] {
      StepFromEmpty(exp, w[c], timeFirst[c], ks[0][c], vs[0][c], NoStateMax);
    }
  }
}
