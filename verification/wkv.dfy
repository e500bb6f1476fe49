/** The WKV kernel `rwkv_linear_attention`: a left-to-right scan over the
    timesteps that carries, per channel, a numerator, a denominator and a
    running log-domain maximum, and emits one log-space weighted average per
    step.

    Values are reals. `exp` is not computed: it is a parameter constrained by
    `IsExp` (positive, monotone, `exp(0) == 1`), which is all the stated
    properties need. The source's `.float()` on each key (a PyTorch idiom
    with no JAX counterpart) is a no-op on reals, and its in-place write of
    each output timestep becomes the scan's list of outputs. */
module Wkv {
  import opened Base

  /** The maximum the kernel starts from when it is given no state (`- 1e38`);
      it stands for minus infinity. */
  const NoStateMax: real := -100000000000000000000000000000000000000.0

  /** What the kernel assumes of the exponential function. */
  ghost predicate IsExp(exp: real -> real)
  {
    && (forall x :: 0.0 < exp(x))
    && (forall x, y {:trigger ExpLe(exp, x, y)} :: x <= y ==> ExpLe(exp, x, y))
    && exp(0.0) == 1.0
  }

  /** `exp(x) <= exp(y)`, named so that monotonicity is used only where a
      proof asks for it. */
  ghost predicate ExpLe(exp: real -> real, x: real, y: real)
  {
    exp(x) <= exp(y)
  }

  /** A non-positive exponent gives a weight in (0, 1]. */
  lemma UnitWeight(exp: real -> real, x: real)
    requires IsExp(exp) && x <= 0.0
    ensures 0.0 < exp(x) <= 1.0
  {
    assert ExpLe(exp, x, 0.0);
  }

  /** One channel's accumulator triple (num, den, max). */
  datatype Acc = Acc(num: real, den: real, max: real)

  /** One channel's output at one timestep and the accumulator after it. */
  datatype StepResult = StepResult(out: real, acc: Acc)

  /** The two weights of a max-shifted log-space mixture of a history with
      log-scale `a` and a new entry with log-scale `b`, and the shift `m`. */
  datatype Weights = Weights(e1: real, e2: real, m: real)

  /** The per-channel decay `-exp(time_decay)`: strictly negative, so the
      history is always forgotten, never amplified. */
  function Decay(exp: real -> real, timeDecay: real): (w: real)
    requires IsExp(exp)
    ensures w < 0.0
  {
    -exp(timeDecay)
  }

  /** Both log-scales are shifted by their maximum before exponentiation:
      both exponent arguments are at most 0, so both weights lie in (0, 1],
      and the larger of the two is exactly 1. */
  function Mixture(exp: real -> real, a: real, b: real): (r: Weights)
    requires IsExp(exp)
    ensures a <= r.m && b <= r.m && (r.m == a || r.m == b)
    ensures a - r.m <= 0.0 && b - r.m <= 0.0
    ensures 0.0 < r.e1 <= 1.0 && 0.0 < r.e2 <= 1.0
    ensures r.e1 == 1.0 || r.e2 == 1.0
  {
    var m := Max(a, b);
    UnitWeight(exp, a - m);
    UnitWeight(exp, b - m);
    Weights(exp(a - m), exp(b - m), m)
  }

  lemma NonNegProduct(x: real, y: real)
    requires 0.0 <= x && 0.0 <= y
    ensures 0.0 <= x * y
  {
  }

  /** Division of a weighted sum by its total weight. */
  function Ratio(n: real, d: real): real
    requires d != 0.0
  {
    n / d
  }

  /** The weighted average of a history (sum `num` over total weight `den`)
      and a new value `v`, with weights `e1` and `e2`. */
  function Average(e1: real, e2: real, num: real, den: real, v: real): real
    requires 0.0 < e1 && 0.0 < e2 && 0.0 <= den
  {
    NonNegProduct(e1, den);
    Ratio(e1 * num + e2 * v, e1 * den + e2)
  }

  /** The accumulator after folding value `v` into history `a` with weights
      `e1` (history) and `e2` (new value), under the new maximum `m`. */
  function Blend(e1: real, e2: real, a: Acc, v: real, m: real): (r: Acc)
    requires 0.0 < e1 && 0.0 < e2 && 0.0 <= a.den
    ensures 0.0 < r.den
  {
    NonNegProduct(e1, a.den);
    Acc(e1 * a.num + e2 * v, e1 * a.den + e2, m)
  }

  /** The output of one timestep for one channel, with bonus `u`
      (`time_first`), key `k` and value `v`: the history and the value mixed
      at log-scales `max` and `k + u`. With a non-negative incoming
      denominator its denominator is positive, so there is no division by
      zero. */
  function StepOutput(exp: real -> real, u: real, k: real, v: real, s: Acc): real
    requires IsExp(exp)
    requires 0.0 <= s.den
  {
    var o := Mixture(exp, s.max, k + u);
    Average(o.e1, o.e2, s.num, s.den, v)
  }

  /** The output's denominator `e1 * den + e2` is positive whenever the
      incoming denominator is non-negative. */
  lemma OutputDenominatorPositive(exp: real -> real, u: real, k: real, s: Acc)
    requires IsExp(exp) && 0.0 <= s.den
    ensures var o := Mixture(exp, s.max, k + u);
            0.0 < o.e1 * s.den + o.e2
  {
    var o := Mixture(exp, s.max, k + u);
    NonNegProduct(o.e1, s.den);
  }

  /** The accumulator after one timestep for one channel, with decay `w`:
      the decayed history and the value mixed at log-scales `max + w` and
      `k`. Its denominator is positive, and its maximum dominates both the
      key and the decayed old maximum and is one of the two. */
  function StepState(exp: real -> real, w: real, k: real, v: real, s: Acc): (r: Acc)
    requires IsExp(exp)
    requires 0.0 <= s.den
    ensures 0.0 < r.den
    ensures k <= r.max && s.max + w <= r.max
    ensures r.max == k || r.max == s.max + w
  {
    var n := Mixture(exp, s.max + w, k);
    Blend(n.e1, n.e2, s, v, n.m)
  }

  /** One timestep of the scan for one channel. */
  function Step(exp: real -> real, w: real, u: real, k: real, v: real, s: Acc): (r: StepResult)
    requires IsExp(exp)
    requires 0.0 <= s.den
    ensures 0.0 < r.acc.den
  {
    StepResult(StepOutput(exp, u, k, v, s), StepState(exp, w, k, v, s))
  }

  /** Every channel's denominator is non-negative (resp. positive). */
  ghost predicate DenNonNeg(s: seq<Acc>)
  {
    forall c :: 0 <= c < |s| ==> 0.0 <= s[c].den
  }

  ghost predicate DenPositive(s: seq<Acc>)
  {
    forall c :: 0 <= c < |s| ==> 0.0 < s[c].den
  }

  /** One timestep for all channels at once: the channels do not interact. */
  function ChannelStep(exp: real -> real, w: Vec, u: Vec, k: Vec, v: Vec, s: seq<Acc>): (r: (Vec, seq<Acc>))
    requires IsExp(exp)
    requires |w| == |s| && |u| == |s| && |k| == |s| && |v| == |s|
    requires DenNonNeg(s)
    ensures |r.0| == |s| && |r.1| == |s|
    ensures DenPositive(r.1)
    ensures forall c :: 0 <= c < |s| ==>
              r.0[c] == Step(exp, w[c], u[c], k[c], v[c], s[c]).out &&
              r.1[c] == Step(exp, w[c], u[c], k[c], v[c], s[c]).acc
  {
    var steps := seq(|s|, c requires 0 <= c < |s| => Step(exp, w[c], u[c], k[c], v[c], s[c]));
    (seq(|s|, c requires 0 <= c < |s| => steps[c].out),
     seq(|s|, c requires 0 <= c < |s| => steps[c].acc))
  }

  /** The scan's outputs (one vector per timestep) and its final state. */
  datatype ScanResult = ScanResult(outputs: seq<Vec>, state: seq<Acc>)

  /** The shapes the scan needs: `w`, `u` and the state have one entry per
      channel, and every key and value vector has that width. */
  ghost predicate Shaped(w: Vec, u: Vec, ks: seq<Vec>, vs: seq<Vec>, n: nat)
  {
    |w| == n && |u| == n && |ks| == |vs| && Rows(ks, n) && Rows(vs, n)
  }

  /** The left-to-right scan over the timesteps. It emits one vector per
      timestep of the channel width, and its final denominators stay
      non-negative, and positive once at least one step was taken. */
  function Scan(exp: real -> real, w: Vec, u: Vec, ks: seq<Vec>, vs: seq<Vec>, s: seq<Acc>): (r: ScanResult)
    requires IsExp(exp)
    requires Shaped(w, u, ks, vs, |s|)
    requires DenNonNeg(s)
    ensures |r.outputs| == |ks| && Rows(r.outputs, |s|)
    ensures |r.state| == |s| && DenNonNeg(r.state)
    ensures |ks| > 0 ==> DenPositive(r.state)
    decreases |ks|
  {
    if |ks| == 0 then ScanResult([], s)
    else
      var st := ChannelStep(exp, w, u, ks[0], vs[0], s);
      var rest := Scan(exp, w, u, ks[1..], vs[1..], st.1);
      ScanResult([st.0] + rest.outputs, rest.state)
  }

  /** The per-channel decays `-exp(time_decay)`, all strictly negative. */
  function Decays(exp: real -> real, timeDecay: Vec): (w: Vec)
    requires IsExp(exp)
    ensures |w| == |timeDecay|
    ensures forall c :: 0 <= c < |w| ==> w[c] < 0.0 && w[c] == Decay(exp, timeDecay[c])
  {
    seq(|timeDecay|, c requires 0 <= c < |timeDecay| => Decay(exp, timeDecay[c]))
  }

  /** The state the kernel starts from when it is given none: zero numerator
      and denominator, and the sentinel maximum. */
  function NoState(n: nat): (s: seq<Acc>)
    ensures |s| == n && DenNonNeg(s)
    ensures forall c :: 0 <= c < n ==> s[c] == Acc(0.0, 0.0, NoStateMax)
  {
    seq(n, c => Acc(0.0, 0.0, NoStateMax))
  }

  /** What the kernel demands of its arguments: matching shapes, a
      non-negative incoming denominator, and at least one timestep when no
      state is given (the source reads `key[:, 0]` to size the fresh state). */
  ghost predicate KernelArgs(timeDecay: Vec, timeFirst: Vec, ks: seq<Vec>, vs: seq<Vec>, state: Option<seq<Acc>>)
  {
    && Shaped(timeDecay, timeFirst, ks, vs, |timeDecay|)
    && (state.Some? ==> |state.value| == |timeDecay| && DenNonNeg(state.value))
    && (state.None? ==> |ks| > 0)
  }

  /** `rwkv_linear_attention(time_decay, time_first, key, value, state,
      return_state)`: outputs one vector per timestep, and returns a state
      exactly when one was passed in or `return_state` is set; that state has
      positive denominators whenever a step was taken. */
  function LinearAttention(exp: real -> real, timeDecay: Vec, timeFirst: Vec, ks: seq<Vec>, vs: seq<Vec>,
                           state: Option<seq<Acc>>, returnState: bool): (r: (seq<Vec>, Option<seq<Acc>>))
    requires IsExp(exp)
    requires KernelArgs(timeDecay, timeFirst, ks, vs, state)
    ensures |r.0| == |ks| && Rows(r.0, |timeDecay|)
    ensures r.1.Some? <==> (returnState || state.Some?)
    ensures r.1.Some? ==> |r.1.value| == |timeDecay| && DenNonNeg(r.1.value)
    ensures r.1.Some? && |ks| > 0 ==> DenPositive(r.1.value)
  {
    var s0 := if state.Some? then state.value else NoState(|timeDecay|);
    var res := Scan(exp, Decays(exp, timeDecay), timeFirst, ks, vs, s0);
    (res.outputs, if returnState || state.Some? then Some(res.state) else None)
  }
}
