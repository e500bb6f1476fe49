/** The time-shift of `extract_key_value` and of the feed-forward call:
    for each timestep, the hidden vector of the previous timestep, taken from
    the layer's shift cache at the first position of a call.

    The source builds the shifted sequence with `jnp.pad` and then writes the
    cache into position 0 in place. As written, the pad widths pad the channel
    axis (attention) or do not match the array's rank (feed-forward), and JAX
    arrays do not support in-place writes; the model encodes the evident
    intent, a shift by one timestep with zero fill followed by a functional
    update of position 0 (see the Findings module for the pad as written). */
module TokenShift {
  import opened Base

  /** The padded path: `zero` prepended, the last timestep dropped, and
      position 0 replaced by the cache when there is one. */
  function PaddedShift<V>(hidden: seq<V>, cache: Option<V>, zero: V): (r: seq<V>)
    ensures |r| == |hidden|
  {
    if |hidden| == 0 then []
    else
      var padded := [zero] + hidden[..|hidden| - 1];
      if cache.Some? then padded[0 := cache.value] else padded
  }

  /** The shifted sequence: position 0 is the cache when there is one and
      `zero` otherwise, and position t >= 1 is `hidden[t - 1]`. A single
      timestep with a cache takes the cache directly (the incremental-decode
      fast path). */
  function Shifted<V>(hidden: seq<V>, cache: Option<V>, zero: V): (r: seq<V>)
    ensures |r| == |hidden|
    ensures |hidden| > 0 ==> r[0] == (if cache.Some? then cache.value else zero)
    ensures forall t :: 1 <= t < |hidden| ==> r[t] == hidden[t - 1]
  {
    if |hidden| == 1 && cache.Some? then [cache.value]
    else PaddedShift(hidden, cache, zero)
  }

  /** The value the cache slot holds after a call: the call's last timestep. */
  function Last<V>(hidden: seq<V>): (v: V)
    requires |hidden| > 0
  {
    hidden[|hidden| - 1]
  }

  /** The fast path and the padded path agree on a single timestep with a
      cache. */
  lemma FastPathAgrees<V>(hidden: seq<V>, cache: Option<V>, zero: V)
    requires |hidden| == 1 && cache.Some?
    ensures Shifted(hidden, cache, zero) == PaddedShift(hidden, cache, zero)
  {
  }

  /** Shifting `h1 + h2` from a cache (or from zero) is shifting `h1` from it
      and then `h2` from the cache the first call leaves behind, its last
      timestep. */
  lemma ShiftConcat<V>(h1: seq<V>, h2: seq<V>, cache: Option<V>, zero: V)
    requires |h1| > 0
    ensures Shifted(h1 + h2, cache, zero) == Shifted(h1, cache, zero) + Shifted(h2, Some(Last(h1)), zero)
  {
    var l := Shifted(h1 + h2, cache, zero);
    var r := Shifted(h1, cache, zero) + Shifted(h2, Some(Last(h1)), zero);
    assert |l| == |r|;
    forall t | 0 <= t < |l| ensures l[t] == r[t] {
      if t == 0 {
      } else if t < |h1| {
        assert (h1 + h2)[t - 1] == h1[t - 1];
      } else if t == |h1| {
        assert (h1 + h2)[t - 1] == Last(h1);
      } else {
        assert (h1 + h2)[t - 1] == h2[t - |h1| - 1];
      }
    }
  }
}
