/** `FlaxRwkvSelfAttention`: token shift, time-mix and projections
    (`extract_key_value`), the WKV kernel, and the gated output projection.
    The sublayer reads and writes one layer's entries of the state; the
    whole-state view, which writes back at the layer's index, is
    `Block.AttentionAt`. */
module SelfAttention {
  import opened Base
  import opened Wkv
  import opened TokenShift
  import opened LayerState
  import opened Mixing
  import WkvProps

  /** The sublayer's learned parameters. The four projections (`nn.Dense`)
      are functions on vectors. */
  datatype Weights = Weights(timeDecay: Vec, timeFirst: Vec,
                             mixKey: Vec, mixValue: Vec, mixReceptance: Vec,
                             key: Vec -> Vec, value: Vec -> Vec, receptance: Vec -> Vec,
                             output: Vec -> Vec)

  /** Parameter shapes: time-mix coefficients over the hidden width, decay
      and bonus over the attention width, projections hidden -> attention and
      back. */
  ghost predicate Shaped(w: Weights, d: Dims)
  {
    && |w.timeDecay| == d.attention && |w.timeFirst| == d.attention
    && |w.mixKey| == d.hidden && |w.mixValue| == d.hidden && |w.mixReceptance| == d.hidden
    && MapsWidth(w.key, d.hidden, d.attention) && MapsWidth(w.value, d.hidden, d.attention)
    && MapsWidth(w.receptance, d.hidden, d.attention) && MapsWidth(w.output, d.attention, d.hidden)
  }

  /** The result of `extract_key_value`: gate, keys, values, and the layer's
      entries with the attention shift cache overwritten. */
  datatype KeyValue = KeyValue(receptance: seq<Vec>, key: seq<Vec>, value: seq<Vec>, slots: Option<LayerSlots>)

  /** The attention shift cache of a layer, if there is a state. */
  function ShiftCache(slots: Option<LayerSlots>): Option<Vec>
  {
    if slots.Some? then Some(slots.value.attnShift) else None
  }

  /** Gate, keys and values of a sequence whose first timestep follows
      `cache` (zero when there is none). */
  function Features(lib: Library, w: Weights, d: Dims, hidden: seq<Vec>, cache: Option<Vec>): (r: KeyValue)
    requires Shaped(w, d) && Rows(hidden, d.hidden)
    requires cache.Some? ==> |cache.value| == d.hidden
    ensures |r.receptance| == |hidden| && Rows(r.receptance, d.attention)
    ensures |r.key| == |hidden| && Rows(r.key, d.attention)
    ensures |r.value| == |hidden| && Rows(r.value, d.attention)
  {
    var shifted := Shifted(hidden, cache, Zeros(d.hidden));
    var rcp := Project(w.receptance, w.mixReceptance, hidden, shifted, d.attention);
    KeyValue(Elementwise(lib.sigmoid, rcp),
             Project(w.key, w.mixKey, hidden, shifted, d.attention),
             Project(w.value, w.mixValue, hidden, shifted, d.attention),
             None)
  }

  /** `extract_key_value`: gate, keys and values (see `ExtractUsesPrevious`),
      and the layer's entries with the attention shift cache set to the last
      timestep; nothing else in the layer's entries changes. */
  function ExtractKeyValue(lib: Library, w: Weights, d: Dims, hidden: seq<Vec>, slots: Option<LayerSlots>): (r: KeyValue)
    requires Shaped(w, d) && Rows(hidden, d.hidden) && |hidden| > 0
    requires slots.Some? ==> SlotsValid(slots.value, d)
    ensures |r.receptance| == |hidden| && Rows(r.receptance, d.attention)
    ensures |r.key| == |hidden| && Rows(r.key, d.attention)
    ensures |r.value| == |hidden| && Rows(r.value, d.attention)
    ensures r.slots.Some? <==> slots.Some?
    ensures r.slots.Some? ==> r.slots.value == slots.value.(attnShift := Last(hidden))
  {
    var f := Features(lib, w, d, hidden, ShiftCache(slots));
    var written := if slots.Some? then Some(slots.value.(attnShift := Last(hidden))) else None;
    f.(slots := written)
  }

  /** Keys and values at each timestep mix it with the previous timestep;
      at the first timestep, with the layer's attention shift cache when
      there is a state and with zero otherwise. */
  lemma ExtractUsesPrevious(lib: Library, w: Weights, d: Dims, hidden: seq<Vec>, slots: Option<LayerSlots>)
    requires Shaped(w, d) && Rows(hidden, d.hidden) && |hidden| > 0
    requires slots.Some? ==> SlotsValid(slots.value, d)
    ensures var r := ExtractKeyValue(lib, w, d, hidden, slots);
            && (forall t :: 1 <= t < |hidden| ==>
                  r.key[t] == w.key(Mix(hidden[t], hidden[t - 1], w.mixKey)) &&
                  r.value[t] == w.value(Mix(hidden[t], hidden[t - 1], w.mixValue)))
            && r.key[0] == w.key(Mix(hidden[0], if slots.Some? then slots.value.attnShift else Zeros(d.hidden), w.mixKey))
            && r.value[0] == w.value(Mix(hidden[0], if slots.Some? then slots.value.attnShift else Zeros(d.hidden), w.mixValue))
  {
  }

  /** The sublayer's output and the layer's entries after the call. */
  datatype Result = Result(out: seq<Vec>, slots: Option<LayerSlots>)

  /** The kernel's view of the layer's entries. */
  function KernelState(slots: Option<LayerSlots>, d: Dims): (r: Option<seq<Acc>>)
    requires slots.Some? ==> SlotsValid(slots.value, d)
    ensures r.Some? <==> slots.Some?
    ensures r.Some? ==> |r.value| == d.attention && DenNonNeg(r.value)
  {
    if slots.Some? then Some(Accumulators(slots.value)) else None
  }

  /** `FlaxRwkvSelfAttention.__call__` on one layer's entries. The output has
      the hidden width. With a state, the call writes the last timestep into
      the attention shift cache and the kernel's final accumulators into
      slots 2-4, whose denominators are then positive; the feed-forward cache
      is untouched. Without a state nothing is written; the source requires
      `use_cache` to be off then, as it would write into a missing state. */
  function Call(lib: Library, w: Weights, d: Dims, hidden: seq<Vec>, slots: Option<LayerSlots>, useCache: bool): (r: Result)
    requires Lawful(lib) && Shaped(w, d) && Rows(hidden, d.hidden) && |hidden| > 0
    requires slots.Some? ==> SlotsValid(slots.value, d)
    requires slots.None? ==> !useCache
    ensures |r.out| == |hidden| && Rows(r.out, d.hidden)
    ensures r.slots.Some? <==> slots.Some?
    ensures r.slots.Some? ==> SlotsValid(r.slots.value, d)
    ensures r.slots.Some? ==> r.slots.value.ffShift == slots.value.ffShift && r.slots.value.attnShift == Last(hidden)
    ensures r.slots.Some? ==> DenPositive(Accumulators(r.slots.value))
    ensures r.slots.Some? ==>
              var kv := ExtractKeyValue(lib, w, d, hidden, slots);
              var att := LinearAttention(lib.exp, w.timeDecay, w.timeFirst, kv.key, kv.value,
                                         Some(Accumulators(slots.value)), useCache);
              att.1.Some? && r.slots.value == WithAccumulators(slots.value.(attnShift := Last(hidden)), att.1.value)
  {
    var kv := ExtractKeyValue(lib, w, d, hidden, slots);
    var att := LinearAttention(lib.exp, w.timeDecay, w.timeFirst, kv.key, kv.value, KernelState(kv.slots, d), useCache);
    var written := if att.1.Some? then Some(WithAccumulators(kv.slots.value, att.1.value)) else kv.slots;
    WithAccumulatorsValidOpt(kv.slots, att.1, d);
    Result(MapRows(w.output, Combine(Mul, kv.receptance, att.0)), written)
  }

  lemma WithAccumulatorsValidOpt(slots: Option<LayerSlots>, acc: Option<seq<Acc>>, d: Dims)
    requires slots.Some? ==> SlotsValid(slots.value, d)
    requires acc.Some? ==> slots.Some? && |acc.value| == d.attention && DenNonNeg(acc.value)
    ensures acc.Some? ==> SlotsValid(WithAccumulators(slots.value, acc.value), d)
  {
    if acc.Some? {
      WithAccumulatorsValid(slots.value, acc.value, d);
    }
  }

  /** Gate, keys and values of a concatenation are those of its chunks,
      the second chunk following the first chunk's last timestep. */
  lemma FeaturesConcat(lib: Library, w: Weights, d: Dims, h1: seq<Vec>, h2: seq<Vec>, cache: Option<Vec>)
    requires Shaped(w, d)
    requires Rows(h1, d.hidden) && |h1| > 0 && Rows(h2, d.hidden)
    requires cache.Some? ==> |cache.value| == d.hidden
    ensures Rows(h1 + h2, d.hidden)
    ensures var f1 := Features(lib, w, d, h1, cache);
            var f2 := Features(lib, w, d, h2, Some(Last(h1)));
            Features(lib, w, d, h1 + h2, cache) ==
              KeyValue(f1.receptance + f2.receptance, f1.key + f2.key, f1.value + f2.value, None)
  {
    RowsConcat(h1, h2, d.hidden);
    var z := Zeros(d.hidden);
    var sh1 := Shifted(h1, cache, z);
    var sh2 := Shifted(h2, Some(Last(h1)), z);
    ShiftConcat(h1, h2, cache, z);
    ProjectConcat(w.receptance, w.mixReceptance, h1, sh1, h2, sh2, d.attention);
    ProjectConcat(w.key, w.mixKey, h1, sh1, h2, sh2, d.attention);
    ProjectConcat(w.value, w.mixValue, h1, sh1, h2, sh2, d.attention);
    ElementwiseConcat(lib.sigmoid, Project(w.receptance, w.mixReceptance, h1, sh1, d.attention),
                      Project(w.receptance, w.mixReceptance, h2, sh2, d.attention));
  }

  /** `extract_key_value` over a concatenation: gate, keys and values are
      those of the chunks, provided the second chunk starts from entries whose
      attention shift cache holds the first chunk's last timestep. */
  lemma ExtractConcat(lib: Library, w: Weights, d: Dims, h1: seq<Vec>, h2: seq<Vec>, slots: LayerSlots, next: LayerSlots)
    requires Shaped(w, d)
    requires Rows(h1, d.hidden) && |h1| > 0 && Rows(h2, d.hidden) && |h2| > 0
    requires SlotsValid(slots, d) && SlotsValid(next, d) && next.attnShift == Last(h1)
    ensures Rows(h1 + h2, d.hidden)
    ensures var kv1 := ExtractKeyValue(lib, w, d, h1, Some(slots));
            var kv2 := ExtractKeyValue(lib, w, d, h2, Some(next));
            var kv := ExtractKeyValue(lib, w, d, h1 + h2, Some(slots));
            kv.receptance == kv1.receptance + kv2.receptance && kv.key == kv1.key + kv2.key &&
            kv.value == kv1.value + kv2.value && kv.slots == Some(slots.(attnShift := Last(h2)))
  {
    FeaturesConcat(lib, w, d, h1, h2, Some(slots.attnShift));
    assert ShiftCache(Some(next)) == Some(Last(h1));
    assert ShiftCache(Some(slots)) == Some(slots.attnShift);
    assert Last(h1 + h2) == Last(h2);
  }

  /** Chunked calls compose: with a state, running the sublayer over `h1 + h2`
      gives the outputs of running it over `h1` and then over `h2` from the
      entries the first call leaves, and the same final entries. */
  lemma CallConcat(lib: Library, w: Weights, d: Dims, h1: seq<Vec>, h2: seq<Vec>, slots: LayerSlots, useCache: bool)
    requires Lawful(lib) && Shaped(w, d)
    requires Rows(h1, d.hidden) && |h1| > 0 && Rows(h2, d.hidden) && |h2| > 0
    requires SlotsValid(slots, d)
    ensures Rows(h1 + h2, d.hidden)
    ensures var r1 := Call(lib, w, d, h1, Some(slots), useCache);
            var r2 := Call(lib, w, d, h2, r1.slots, useCache);
            Call(lib, w, d, h1 + h2, Some(slots), useCache) == Result(r1.out + r2.out, r2.slots)
  {
    RowsConcat(h1, h2, d.hidden);
    var kv1 := ExtractKeyValue(lib, w, d, h1, Some(slots));
    var kv := ExtractKeyValue(lib, w, d, h1 + h2, Some(slots));
    // the kernel's state passes unchanged through the shift-cache writes
    var acc := Accumulators(slots);
    AccumulatorsIgnoreShifts(slots, slots.ffShift, Last(h1));
    AccumulatorsIgnoreShifts(slots, slots.ffShift, Last(h1 + h2));
    assert KernelState(kv1.slots, d) == Some(acc);
    assert KernelState(kv.slots, d) == Some(acc);
    var att1 := LinearAttention(lib.exp, w.timeDecay, w.timeFirst, kv1.key, kv1.value, Some(acc), useCache);
    var s1 := WithAccumulators(kv1.slots.value, att1.1.value);
    assert Call(lib, w, d, h1, Some(slots), useCache).slots == Some(s1);
    var kv2 := ExtractKeyValue(lib, w, d, h2, Some(s1));
    ExtractConcat(lib, w, d, h1, h2, slots, s1);
    AccumulatorsIgnoreShifts(s1, s1.ffShift, Last(h2));
    assert KernelState(kv2.slots, d) == att1.1;
    WkvProps.LinearAttentionConcat(lib.exp, w.timeDecay, w.timeFirst, kv1.key, kv1.value, kv2.key, kv2.value, acc, useCache);
    var att2 := LinearAttention(lib.exp, w.timeDecay, w.timeFirst, kv2.key, kv2.value, att1.1, useCache);
    CombineConcat(Mul, kv1.receptance, att1.0, kv2.receptance, att2.0);
    MapRowsConcat(w.output, Combine(Mul, kv1.receptance, att1.0), Combine(Mul, kv2.receptance, att2.0));
    assert kv2.slots == Some(s1.(attnShift := Last(h2)));
    assert WithAccumulators(kv2.slots.value, att2.1.value) == WithAccumulators(kv.slots.value, att2.1.value);
  }

  /** The sublayer neither reads nor writes the feed-forward shift cache:
      changing it before the call changes nothing else, and it is still the
      same after the call. */
  lemma CallFrame(lib: Library, w: Weights, d: Dims, hidden: seq<Vec>, slots: LayerSlots, ff: Vec, useCache: bool)
    requires Lawful(lib) && Shaped(w, d) && Rows(hidden, d.hidden) && |hidden| > 0
    requires SlotsValid(slots, d) && |ff| == d.hidden
    ensures SlotsValid(slots.(ffShift := ff), d)
    ensures var c := Call(lib, w, d, hidden, Some(slots), useCache);
            Call(lib, w, d, hidden, Some(slots.(ffShift := ff)), useCache)
              == Result(c.out, Some(c.slots.value.(ffShift := ff)))
  {
    var moved := slots.(ffShift := ff);
    assert ShiftCache(Some(moved)) == ShiftCache(Some(slots));
    var kv := ExtractKeyValue(lib, w, d, hidden, Some(slots));
    var kvm := ExtractKeyValue(lib, w, d, hidden, Some(moved));
    assert kvm == kv.(slots := Some(kv.slots.value.(ffShift := ff)));
    AccumulatorsIgnoreShifts(kv.slots.value, ff, kv.slots.value.attnShift);
    assert KernelState(kvm.slots, d) == KernelState(kv.slots, d);
  }
}
