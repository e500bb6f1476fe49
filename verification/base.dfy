/** Shared vocabulary of the RWKV model: optional values, per-channel vectors
    and the shape predicates used by every other module.

    A tensor of shape [B, T, C] is modelled for one batch row as a sequence of
    T vectors, each a sequence of C reals. The layer's operations are meant to
    be independent per batch row; the single-timestep fast paths as written
    are not, and are modelled on a whole batch in the Findings module. */
module Base {

  /** Python's `None` / a present value. */
  datatype Option<+T> = None | Some(value: T)

  /** One timestep's values, one real per channel. */
  type Vec = seq<real>

  /** The zero vector of width `n` (`jnp.zeros`). */
  function Zeros(n: nat): (r: Vec)
    ensures |r| == n
    ensures forall c :: 0 <= c < n ==> r[c] == 0.0
  {
    seq(n, c => 0.0)
  }

  /** The constant vector of width `n`. */
  function Fill(n: nat, x: real): (r: Vec)
    ensures |r| == n
    ensures forall c :: 0 <= c < n ==> r[c] == x
  {
    seq(n, c => x)
  }

  /** Every vector of `xs` has width `n`. */
  ghost predicate Rows(xs: seq<Vec>, n: nat)
  {
    forall t :: 0 <= t < |xs| ==> |xs[t]| == n
  }

  /** Rows of a concatenation are the rows of its two parts. */
  lemma RowsConcat(xs: seq<Vec>, ys: seq<Vec>, n: nat)
    ensures Rows(xs + ys, n) <==> Rows(xs, n) && Rows(ys, n)
  {
    if Rows(xs, n) && Rows(ys, n) {
      forall t | 0 <= t < |xs + ys| ensures |(xs + ys)[t]| == n {
        if t < |xs| { assert (xs + ys)[t] == xs[t]; } else { assert (xs + ys)[t] == ys[t - |xs|]; }
      }
    }
    if Rows(xs + ys, n) {
      forall t | 0 <= t < |xs| ensures |xs[t]| == n { assert (xs + ys)[t] == xs[t]; }
      forall t | 0 <= t < |ys| ensures |ys[t]| == n { assert (xs + ys)[|xs| + t] == ys[t]; }
    }
  }

  /** `jnp.maximum` on one element. */
  function Max(a: real, b: real): (m: real)
    ensures a <= m && b <= m
    ensures m == a || m == b
  {
    if a >= b then a else b
  }

  /** Applies a per-vector map to every timestep of a sequence. */
  function MapRows(f: Vec -> Vec, xs: seq<Vec>): (r: seq<Vec>)
    ensures |r| == |xs|
    ensures forall t :: 0 <= t < |xs| ==> r[t] == f(xs[t])
  {
    seq(|xs|, t requires 0 <= t < |xs| => f(xs[t]))
  }

  /** A per-timestep map distributes over concatenation of sequences. */
  lemma MapRowsConcat(f: Vec -> Vec, xs: seq<Vec>, ys: seq<Vec>)
    ensures MapRows(f, xs + ys) == MapRows(f, xs) + MapRows(f, ys)
  {
    var l, r := MapRows(f, xs + ys), MapRows(f, xs) + MapRows(f, ys);
    assert |l| == |r|;
    forall t | 0 <= t < |l| ensures l[t] == r[t] {
      if t < |xs| {
        assert (xs + ys)[t] == xs[t];
      } else {
        assert (xs + ys)[t] == ys[t - |xs|];
      }
    }
  }
}
