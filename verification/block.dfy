/** `FlaxRwkvBlock`: an optional pre-norm (layer 0 only), then the attention
    and the feed-forward sublayers, each on a layer-normed input and each
    added back to the hidden sequence. The sublayers of block `layer` read and
    write the state at index `layer` only. */
module Block {
  import opened Base
  import opened TokenShift
  import opened LayerState
  import opened Mixing
  import SelfAttention
  import FeedForward

  /** The block's parameters: its layer norms (`nn.LayerNorm`, functions on
      vectors) and its two sublayers. `preLn` is used by block 0 only. */
  datatype Weights = Weights(preLn: Vec -> Vec, ln1: Vec -> Vec, ln2: Vec -> Vec,
                             attention: SelfAttention.Weights, feedForward: FeedForward.Weights)

  ghost predicate Shaped(w: Weights, d: Dims)
  {
    && MapsWidth(w.preLn, d.hidden, d.hidden) && MapsWidth(w.ln1, d.hidden, d.hidden)
    && MapsWidth(w.ln2, d.hidden, d.hidden)
    && SelfAttention.Shaped(w.attention, d) && FeedForward.Shaped(w.feedForward, d)
  }

  /** The pre-norm rule: block 0 normalises its input, every other block
      takes it as it is. */
  function PreNorm(layer: nat, w: Weights, hidden: seq<Vec>, n: nat): (r: seq<Vec>)
    requires MapsWidth(w.preLn, n, n) && Rows(hidden, n)
    ensures |r| == |hidden| && Rows(r, n)
    ensures layer == 0 ==> forall t :: 0 <= t < |hidden| ==> r[t] == w.preLn(hidden[t])
    ensures layer != 0 ==> r == hidden
  {
    if layer == 0 then Norm(w.preLn, hidden, n) else hidden
  }

  /** The attention sublayer of block `layer` on the whole state: it writes
      the state at index `layer` only, and there only the attention shift
      cache (set to the last timestep) and the WKV accumulators. */
  function AttentionAt(lib: Library, w: SelfAttention.Weights, d: Dims, layer: nat, hidden: seq<Vec>,
                       state: Option<State>, useCache: bool): (r: (seq<Vec>, Option<State>))
    requires Lawful(lib) && SelfAttention.Shaped(w, d) && Rows(hidden, d.hidden) && |hidden| > 0
    requires layer < d.layers
    requires state.Some? ==> Valid(state.value, d)
    requires state.None? ==> !useCache
    ensures |r.0| == |hidden| && Rows(r.0, d.hidden)
    ensures r.1.Some? <==> state.Some?
    ensures r.1.Some? ==> Valid(r.1.value, d)
    ensures r.1.Some? ==> r.1.value == state.value[layer := r.1.value[layer]]
    ensures r.1.Some? ==> r.1.value[layer].ffShift == state.value[layer].ffShift
    ensures r.1.Some? ==> r.1.value[layer].attnShift == Last(hidden)
  {
    var c := SelfAttention.Call(lib, w, d, hidden, if state.Some? then Some(state.value[layer]) else None, useCache);
    (c.out, if state.Some? then Some(WriteLayer(state.value, layer, c.slots.value)) else None)
  }

  /** The feed-forward sublayer of block `layer` on the whole state: the
      state after the call is the state before with exactly one entry
      changed, the feed-forward shift cache of layer `layer`, which becomes
      the last timestep. */
  function FeedForwardAt(lib: Library, w: FeedForward.Weights, d: Dims, layer: nat, hidden: seq<Vec>,
                         state: Option<State>): (r: (seq<Vec>, Option<State>))
    requires FeedForward.Shaped(w, d) && Rows(hidden, d.hidden) && |hidden| > 0
    requires layer < d.layers
    requires state.Some? ==> Valid(state.value, d)
    ensures |r.0| == |hidden| && Rows(r.0, d.hidden)
    ensures r.1.Some? <==> state.Some?
    ensures r.1.Some? ==> Valid(r.1.value, d)
    ensures r.1.Some? ==> r.1.value == state.value[layer := state.value[layer].(ffShift := Last(hidden))]
  {
    var c := FeedForward.Call(lib, w, d, hidden, if state.Some? then Some(state.value[layer]) else None);
    (c.out, if state.Some? then Some(WriteLayer(state.value, layer, c.slots.value)) else None)
  }

  /** The block's output, the state after it, and the attention output when
      it is asked for. */
  datatype Result = Result(out: seq<Vec>, state: Option<State>, attention: Option<seq<Vec>>)

  /** `FlaxRwkvBlock.__call__`: the output has the input's shape; with a
      state, the block changes the state at index `layer` only, and there it
      leaves both shift caches holding its sublayers' last inputs; the
      attention output is returned exactly when it is asked for. */
  function Call(lib: Library, w: Weights, d: Dims, layer: nat, hidden: seq<Vec>, state: Option<State>,
                useCache: bool, outputAttentions: bool): (r: Result)
    requires Lawful(lib) && Shaped(w, d) && Rows(hidden, d.hidden) && |hidden| > 0
    requires layer < d.layers
    requires state.Some? ==> Valid(state.value, d)
    requires state.None? ==> !useCache
    ensures |r.out| == |hidden| && Rows(r.out, d.hidden)
    ensures r.state.Some? <==> state.Some?
    ensures r.state.Some? ==> Valid(r.state.value, d)
    ensures r.state.Some? ==> r.state.value == state.value[layer := r.state.value[layer]]
    ensures r.attention.Some? <==> outputAttentions
    ensures r.attention.Some? ==> |r.attention.value| == |hidden| && Rows(r.attention.value, d.hidden)
  {
    var h0 := PreNorm(layer, w, hidden, d.hidden);
    var a := AttentionAt(lib, w.attention, d, layer, Norm(w.ln1, h0, d.hidden), state, useCache);
    var h1 := Residual(h0, a.0, d.hidden);
    var f := FeedForwardAt(lib, w.feedForward, d, layer, Norm(w.ln2, h1, d.hidden), a.1);
    assert f.1.Some? ==> f.1.value == state.value[layer := f.1.value[layer]] by {
      if state.Some? {
        WriteOverwrite(state.value, layer, a.1.value[layer], f.1.value[layer]);
      }
    }
    Result(Residual(h1, f.0, d.hidden), f.1, if outputAttentions then Some(a.0) else None)
  }

  // ---------------------------------------------------------------------
  // The block on its own layer

  /** A block's output, its layer's entries after it, and the attention
      output when it is asked for. */
  datatype LayerResult = LayerResult(out: seq<Vec>, slots: Option<LayerSlots>, attention: Option<seq<Vec>>)

  /** The block on the entries of its own layer only: the two sublayers
      chained on `slots`, the attention sublayer's entries passed to the
      feed-forward sublayer. */
  function Layer(lib: Library, w: Weights, d: Dims, layer: nat, hidden: seq<Vec>, slots: Option<LayerSlots>,
                 useCache: bool, outputAttentions: bool): (r: LayerResult)
    requires Lawful(lib) && Shaped(w, d) && Rows(hidden, d.hidden) && |hidden| > 0
    requires slots.Some? ==> SlotsValid(slots.value, d)
    requires slots.None? ==> !useCache
    ensures |r.out| == |hidden| && Rows(r.out, d.hidden)
    ensures r.slots.Some? <==> slots.Some?
    ensures r.slots.Some? ==> SlotsValid(r.slots.value, d)
    ensures r.attention.Some? <==> outputAttentions
    ensures r.attention.Some? ==> |r.attention.value| == |hidden| && Rows(r.attention.value, d.hidden)
  {
    var h0 := PreNorm(layer, w, hidden, d.hidden);
    var a := SelfAttention.Call(lib, w.attention, d, Norm(w.ln1, h0, d.hidden), slots, useCache);
    var h1 := Residual(h0, a.out, d.hidden);
    var f := FeedForward.Call(lib, w.feedForward, d, Norm(w.ln2, h1, d.hidden), a.slots);
    LayerResult(Residual(h1, f.out, d.hidden), f.slots, if outputAttentions then Some(a.out) else None)
  }

  /** The entries of layer `layer`, if there is a state. */
  function SlotsAt(state: Option<State>, layer: nat): (r: Option<LayerSlots>)
    requires state.Some? ==> layer < |state.value|
    ensures r.Some? <==> state.Some?
    ensures r.Some? ==> r.value == state.value[layer]
  {
    if state.Some? then Some(state.value[layer]) else None
  }

  /** A block reads and writes nothing of the state but its own layer: the
      block on the whole state is the block on that layer's entries, written
      back at that layer, every other layer as it was. */
  lemma CallIsLayer(lib: Library, w: Weights, d: Dims, layer: nat, hidden: seq<Vec>, state: Option<State>,
                    useCache: bool, outputAttentions: bool)
    requires Lawful(lib) && Shaped(w, d) && Rows(hidden, d.hidden) && |hidden| > 0
    requires layer < d.layers
    requires state.Some? ==> Valid(state.value, d)
    requires state.None? ==> !useCache
    ensures var l := Layer(lib, w, d, layer, hidden, SlotsAt(state, layer), useCache, outputAttentions);
            Call(lib, w, d, layer, hidden, state, useCache, outputAttentions)
              == Result(l.out, if state.Some? then Some(state.value[layer := l.slots.value]) else None, l.attention)
  {
    var h0 := PreNorm(layer, w, hidden, d.hidden);
    var c := SelfAttention.Call(lib, w.attention, d, Norm(w.ln1, h0, d.hidden), SlotsAt(state, layer), useCache);
    var m := Norm(w.ln2, Residual(h0, c.out, d.hidden), d.hidden);
    var fc := FeedForward.Call(lib, w.feedForward, d, m, c.slots);
    if state.Some? {
      WriteOverwrite(state.value, layer, c.slots.value, fc.slots.value);
    }
  }

  // ---------------------------------------------------------------------
  // Chunked calls compose

  lemma PreNormConcat(layer: nat, w: Weights, h1: seq<Vec>, h2: seq<Vec>, n: nat)
    requires MapsWidth(w.preLn, n, n) && Rows(h1, n) && Rows(h2, n)
    ensures Rows(h1 + h2, n)
    ensures PreNorm(layer, w, h1 + h2, n) == PreNorm(layer, w, h1, n) + PreNorm(layer, w, h2, n)
  {
    NormConcat(w.preLn, h1, h2, n);
  }

  /** Chunked blocks compose: with a state, the block over `h1 + h2` gives
      the outputs (and attention outputs) of the block over `h1` followed by
      the block over `h2` from the entries the first call leaves, and the
      same final entries. */
  lemma LayerConcat(lib: Library, w: Weights, d: Dims, layer: nat, h1: seq<Vec>, h2: seq<Vec>, slots: LayerSlots,
                    useCache: bool, outputAttentions: bool)
    requires Lawful(lib) && Shaped(w, d)
    requires Rows(h1, d.hidden) && |h1| > 0 && Rows(h2, d.hidden) && |h2| > 0
    requires SlotsValid(slots, d)
    ensures Rows(h1 + h2, d.hidden)
    ensures var r1 := Layer(lib, w, d, layer, h1, Some(slots), useCache, outputAttentions);
            var r2 := Layer(lib, w, d, layer, h2, r1.slots, useCache, outputAttentions);
            var r := Layer(lib, w, d, layer, h1 + h2, Some(slots), useCache, outputAttentions);
            && r.out == r1.out + r2.out && r.slots == r2.slots
            && (outputAttentions ==> r.attention == Some(r1.attention.value + r2.attention.value))
  {
    var n := d.hidden;
    var p1, p2 := PreNorm(layer, w, h1, n), PreNorm(layer, w, h2, n);
    PreNormConcat(layer, w, h1, h2, n);
    var n1, n2 := Norm(w.ln1, p1, n), Norm(w.ln1, p2, n);
    NormConcat(w.ln1, p1, p2, n);
    // attention: the whole run is the chained chunks
    SelfAttention.CallConcat(lib, w.attention, d, n1, n2, slots, useCache);
    var a1 := SelfAttention.Call(lib, w.attention, d, n1, Some(slots), useCache);
    var a2 := SelfAttention.Call(lib, w.attention, d, n2, a1.slots, useCache);
    var t := a2.slots.value;
    ResidualConcat(p1, a1.out, p2, a2.out, n);
    var g1, g2 := Residual(p1, a1.out, n), Residual(p2, a2.out, n);
    NormConcat(w.ln2, g1, g2, n);
    var m1, m2 := Norm(w.ln2, g1, n), Norm(w.ln2, g2, n);
    // the first chunk's feed-forward write does not disturb the second
    // chunk's attention
    var f1 := FeedForward.Call(lib, w.feedForward, d, m1, a1.slots);
    SelfAttention.CallFrame(lib, w.attention, d, n2, a1.slots.value, Last(m1), useCache);
    // feed-forward: the whole run is the chained chunks, started from the
    // entries after the whole attention run, which hold the same cache
    FeedForward.CallConcat(lib, w.feedForward, d, m1, m2, t);
    assert FeedForward.ShiftCache(Some(t)) == FeedForward.ShiftCache(a1.slots);
    var f2 := FeedForward.Call(lib, w.feedForward, d, m2, Some(t.(ffShift := Last(m1))));
    ResidualConcat(g1, f1.out, g2, f2.out, n);
  }
}
