# RWKV layer core of EasyDeL, in Dafny

This project models the state-carrying sequence logic of EasyDeL's Flax RWKV
model (`lib/python/EasyDel/modules/rwkv/modelling_rwkv_flax.py`) and proves
properties of it. The model covers these parts:

- **WKV kernel.** `rwkv_linear_attention` is a left-to-right scan.
  - Per channel, it carries a (numerator, denominator, running maximum)
    triple.
  - It emits a max-shifted, log-space weighted average at every timestep.
  - It is modelled over exact reals.
  - `exp` is a parameter constrained by `Wkv.IsExp`: positive, monotone and
    `exp(0) == 1`.
  - Relating the kernel to the plain, unshifted recurrence also needs
    additivity, `WkvReference.ExpAdditive`.
- **Token shift and shift caches.** These are the shifted sequences that
  `extract_key_value` and the feed-forward call build:
  - position 0 is the layer's cache, or zero;
  - position `t` is `hidden[t-1]`;
  - with a single timestep and a state, the fast path reads the cache
    directly;
  - afterwards, the cache is overwritten with the last timestep.
- **The state container.** The five per-layer slots are stored layer by
  layer:
  - slot 0: the feed-forward shift;
  - slot 1: the attention shift;
  - slots 2-4: the WKV numerators, denominators and maxima.
  
  The module also defines the factory, and writes that touch exactly one
  layer.
- **The sublayers, the block and the collection.**
  - The attention and feed-forward sublayers are modelled on one layer's
    entries.
  - The block adds the pre-norm on layer 0 and the residual connections.
  - `FlaxRwkvBlockCollection` chains the blocks, with the rescale schedule
    and the collected hidden sequences and attention outputs.
- **The module call.** `FlaxRwkvModule.__call__` covers:
  - flag defaulting;
  - the input validation;
  - the embedding;
  - the state created on first use;
  - the final layer norm.
  
  `prepare_inputs_for_generation` is modelled as well.

A tensor of shape [B, T, C] is modelled for one batch row as `seq<Vec>`, a
sequence of T vectors of C reals. All learned maps are parameters:

- `nn.Dense`, `nn.LayerNorm` and `nn.Embed` are functions on vectors;
- `sigmoid` and `exp` are functions on reals.

**Main results.** Chunked calls compose. With a state, a call over `x1 + x2`
equals a call over `x1` followed by a call over `x2` from the state the first
call returns. This is proved at every level:

| level | lemma |
|---|---|
| kernel | `WkvProps.ScanConcat` |
| token shift | `TokenShift.ShiftConcat` |
| sublayers | `SelfAttention.CallConcat`, `FeedForward.CallConcat` |
| block | `Block.LayerConcat` |
| collection | `BlockStack.StackChunks` |
| module | `RwkvModel.RunChunks`, `RwkvModel.ForwardChunks` |

It follows that one generation step on the inputs `prepare_inputs_for_generation`
builds continues the prefill call (`RwkvModel.DecodeStep`). The kernel's
max-shifted scan is proved to compute the plain recurrence
`out = (N + e^(k+u) v) / (D + e^(k+u))` channel by channel
(`WkvReference.ScanMatchesReference`).

Where the code does not do what it evidently intends, the model follows the
intent, and says so in the module comments:

- In-place index assignment on JAX arrays becomes functional updates. This
  applies to :62, :168, :181, :202-204, :277 and :286.
- The PyTorch idiom `.float()` at :54 is a no-op on reals.
- `.unsqueeze(-1)` at :703 stands for keeping a length-1 token axis.
- `jnp.zeros(*shape, ...)` at :480 unpacks the shape into positional
  arguments. The model creates arrays of that shape.
- The pad widths at :161-166 and :270-275 become a shift by one timestep with
  zero fill (see Findings).
- The single-timestep fast paths at :158-159 and :267-268 take each batch
  row's own cache (see Findings).
- The state factory at :477-485 sizes the WKV slots by the attention width
  (see Findings).
- The module returns the state the blocks leave behind. The source returns
  its own list object, whose arrays the blocks write in place.

The attention shift cache (slot 1) has the hidden width: it holds the last
`ln1` output (:181) and is mixed with the hidden-width input (:169-171).

Two sentinels are kept as the source has them:

- the kernel's fresh maximum is -1e38 (:47, `Wkv.NoStateMax`);
- the factory's is -1e30 (:485, `LayerState.StateSentinel`).

No stated property depends on either value.

A call on a sequence of no timesteps with at least one layer is reported as
`RwkvModel.Error.EmptySequence`. The source fails there because every block
reads `key[:, 0]` and `hidden[:, -1]`, so the sublayers require at least one
timestep. With no layers the collection's loop (:403) runs no block, and an
empty sequence passes through to `ln_out` (:500); the model returns that
result (`RwkvModel.RunNoLayers`).

`prepare_inputs_for_generation` with a state and no token fails at
`input_ids[:, -1]` (:702); the model reports `RwkvModel.Error.NoLastToken`.

## Model

| member | source | states |
|---|---|---|
| Wkv.Decay | lib/python/EasyDel/modules/rwkv/modelling_rwkv_flax.py:51 | the decay `-exp(time_decay)` is strictly negative, so history is only ever forgotten |
| Wkv.Decays | lib/python/EasyDel/modules/rwkv/modelling_rwkv_flax.py:51 | every channel's decay is negative and is that channel's `-exp(time_decay)` |
| Wkv.UnitWeight | lib/python/EasyDel/modules/rwkv/modelling_rwkv_flax.py:57-59 | a non-positive exponent gives a weight in (0, 1] |
| Wkv.Mixture | lib/python/EasyDel/modules/rwkv/modelling_rwkv_flax.py:57-66 | the shift is the larger of the two log-scales; both exponent arguments are <= 0; both weights are in (0, 1]; one of them is exactly 1 |
| Wkv.OutputDenominatorPositive | lib/python/EasyDel/modules/rwkv/modelling_rwkv_flax.py:60-62 | with a non-negative incoming denominator, the output's denominator `e1*den + e2` is positive, so the division at :62 is defined |
| Wkv.Blend | lib/python/EasyDel/modules/rwkv/modelling_rwkv_flax.py:67-68 | folding a value into a history with positive weights gives a positive denominator |
| Wkv.StepState | lib/python/EasyDel/modules/rwkv/modelling_rwkv_flax.py:64-69 | after a step, the denominator is positive; the new max is >= the key and >= the old max plus the decay, and equals one of them |
| Wkv.Step | lib/python/EasyDel/modules/rwkv/modelling_rwkv_flax.py:57-69 | one timestep of one channel leaves a positive denominator |
| Wkv.ChannelStep | lib/python/EasyDel/modules/rwkv/modelling_rwkv_flax.py:53-69 | one timestep on all channels is the per-channel step at every channel (channels do not interact); all new denominators are positive |
| Wkv.Scan | lib/python/EasyDel/modules/rwkv/modelling_rwkv_flax.py:53-69 | the scan emits one vector per timestep, of the channel width; its denominators stay non-negative, and are positive after at least one step |
| Wkv.NoState | lib/python/EasyDel/modules/rwkv/modelling_rwkv_flax.py:44-47 | without a state, every channel starts from numerator 0, denominator 0 and the -1e38 maximum |
| Wkv.LinearAttention | lib/python/EasyDel/modules/rwkv/modelling_rwkv_flax.py:40-74 | one output per timestep; a state is returned exactly when `return_state` is set or a state was passed in; a returned state has one entry per channel and positive denominators after any step |
| WkvProps.ScanConcat | lib/python/EasyDel/modules/rwkv/modelling_rwkv_flax.py:53-69 | scanning `k1 + k2` from `s` gives the outputs of scanning `k1` from `s` followed by those of scanning `k2` from the returned state, and the same final state |
| WkvProps.LinearAttentionConcat | lib/python/EasyDel/modules/rwkv/modelling_rwkv_flax.py:40-74 | with a carried state, one kernel call over a concatenation equals two chained calls: the same outputs and the same final state |
| WkvProps.PrefillThenDecode | lib/python/EasyDel/modules/rwkv/modelling_rwkv_flax.py:44-74 | a stateless call with `return_state` over `k1 + k2` returns the outputs of a stateless call over `k1` with `return_state`, followed by those of a call over `k2` fed the state it returned, and that second call's final state |
| WkvProps.BlendBracketed | lib/python/EasyDel/modules/rwkv/modelling_rwkv_flax.py:67-68 | folding a value in [lo, hi] into a history whose average is in [lo, hi] keeps the average in [lo, hi] |
| WkvProps.AverageWithin | lib/python/EasyDel/modules/rwkv/modelling_rwkv_flax.py:60-62 | the output of a step is a weighted average: it lies between the history's bounds and the value |
| WkvProps.StepAverage | lib/python/EasyDel/modules/rwkv/modelling_rwkv_flax.py:57-69 | one step keeps both the output and the new accumulator's average within [lo, hi] |
| WkvProps.ScanAverage | lib/python/EasyDel/modules/rwkv/modelling_rwkv_flax.py:53-69 | when all values lie in [lo, hi] and the initial averages do, every output and every final average lies in [lo, hi] |
| WkvProps.OutputsAreAverages | lib/python/EasyDel/modules/rwkv/modelling_rwkv_flax.py:40-74 | a stateless kernel call never leaves the range of its values |
| WkvProps.EmptyHistoryAverage | lib/python/EasyDel/modules/rwkv/modelling_rwkv_flax.py:60-62 | with an empty history (num = den = 0), the weighted average is the value itself |
| WkvProps.StepFromEmpty | lib/python/EasyDel/modules/rwkv/modelling_rwkv_flax.py:57-62 | from zero numerator and denominator, a step outputs the value, whatever the maximum |
| WkvProps.FirstOutputIsValue | lib/python/EasyDel/modules/rwkv/modelling_rwkv_flax.py:44-62 | the first output of a stateless call is the first value vector: the sentinel state contributes nothing |
| WkvReference.ChannelScan | lib/python/EasyDel/modules/rwkv/modelling_rwkv_flax.py:53-69 | one channel of the scan emits one output per timestep and keeps a non-negative denominator |
| WkvReference.ScanByChannel | lib/python/EasyDel/modules/rwkv/modelling_rwkv_flax.py:53-69 | channel `c` of the multi-channel scan is the single-channel scan of channel `c` of the keys and values |
| WkvReference.StepOutputMatches | lib/python/EasyDel/modules/rwkv/modelling_rwkv_flax.py:57-62 | a step's max-shifted output equals the plain output `(N + e^(k+u) v) / (D + e^(k+u))` for the sums the accumulator stands for (`N = e^max * num`, `D = e^max * den`) |
| WkvReference.StepSumsMatch | lib/python/EasyDel/modules/rwkv/modelling_rwkv_flax.py:64-69 | the accumulator after a step stands for the plain next sums `N' = e^w N + e^k v`, `D' = e^w D + e^k` |
| WkvReference.ChannelScanMatchesReference | lib/python/EasyDel/modules/rwkv/modelling_rwkv_flax.py:53-69 | one channel of the kernel has the same outputs as the plain recurrence, and a final accumulator standing for its final sums |
| WkvReference.ScanMatchesReference | lib/python/EasyDel/modules/rwkv/modelling_rwkv_flax.py:53-69 | the whole scan computes, channel by channel, the plain recurrence started from the sums the initial state stands for |
| Mixing.MixEntry | lib/python/EasyDel/modules/rwkv/modelling_rwkv_flax.py:169 | for a coefficient in [0, 1], the time-mix of two entries lies between them; coefficient 1 selects the current entry and 0 the shifted one |
| Mixing.Mix | lib/python/EasyDel/modules/rwkv/modelling_rwkv_flax.py:169-171 | entry by entry, the time-mix lies between the current and the shifted vector; coefficients 1 and 0 select one of them |
| Mixing.Project | lib/python/EasyDel/modules/rwkv/modelling_rwkv_flax.py:169-174 | at every timestep, the projection is applied to that timestep's time-mix of the current and shifted vectors |
| Mixing.Elementwise | lib/python/EasyDel/modules/rwkv/modelling_rwkv_flax.py:175-179 | a scalar function is applied to every entry, keeping the shape |
| Mixing.Combine | lib/python/EasyDel/modules/rwkv/modelling_rwkv_flax.py:206 | two sequences of equal shape are combined entry by entry |
| Mixing.Residual | lib/python/EasyDel/modules/rwkv/modelling_rwkv_flax.py:351 | the residual connection adds the two sequences entry by entry |
| Mixing.Norm | lib/python/EasyDel/modules/rwkv/modelling_rwkv_flax.py:500 | the layer norm maps every timestep and keeps the width |
| Mixing.SquaredRelu | lib/python/EasyDel/modules/rwkv/modelling_rwkv_flax.py:281 | `square(relu(x))` is never negative: 0 for `x <= 0`, `x*x` otherwise |
| Mixing.ProjectConcat | lib/python/EasyDel/modules/rwkv/modelling_rwkv_flax.py:169-174 | time-mix and projection act per timestep, so they distribute over concatenation |
| TokenShift.PaddedShift | lib/python/EasyDel/modules/rwkv/modelling_rwkv_flax.py:161-168 | the padded path keeps the sequence length |
| TokenShift.Shifted | lib/python/EasyDel/modules/rwkv/modelling_rwkv_flax.py:158-168 | position 0 is the cache when there is a state and zero otherwise; position `t >= 1` is `hidden[t-1]`; the length is kept |
| TokenShift.FastPathAgrees | lib/python/EasyDel/modules/rwkv/modelling_rwkv_flax.py:158-168 | the single-timestep fast path gives what the padded path gives |
| TokenShift.ShiftConcat | lib/python/EasyDel/modules/rwkv/modelling_rwkv_flax.py:157-181 | shifting `h1 + h2` from a cache equals shifting `h1` from it followed by shifting `h2` from the cache the first call writes (its last timestep) |
| LayerState.NewState | lib/python/EasyDel/modules/rwkv/modelling_rwkv_flax.py:477-485 | the factory's state is valid for the configuration; every entry of slots 0-3 is zero; every entry of slot 4 is the -1e30 sentinel |
| LayerState.Accumulators | lib/python/EasyDel/modules/rwkv/modelling_rwkv_flax.py:191 | the kernel's view of a layer: channel `c` is the triple (slot 2, slot 3, slot 4) at `c` |
| LayerState.WithAccumulators | lib/python/EasyDel/modules/rwkv/modelling_rwkv_flax.py:201-204 | writing the kernel's triple keeps both shift caches, and reading it back gives what was written |
| LayerState.AccumulatorsRoundTrip | lib/python/EasyDel/modules/rwkv/modelling_rwkv_flax.py:201-204 | writing back the triple just read changes nothing |
| LayerState.AccumulatorsIgnoreShifts | lib/python/EasyDel/modules/rwkv/modelling_rwkv_flax.py:181 | overwriting either shift cache leaves the kernel's triple as it was |
| LayerState.WithAccumulatorsValid | lib/python/EasyDel/modules/rwkv/modelling_rwkv_flax.py:201-204 | writing a triple keeps a layer valid if and only if it has the attention width and non-negative denominators |
| LayerState.NewStateAccumulators | lib/python/EasyDel/modules/rwkv/modelling_rwkv_flax.py:477-485 | a fresh layer's triple is (0, 0, sentinel) on every channel |
| LayerState.WriteLayer | lib/python/EasyDel/modules/rwkv/modelling_rwkv_flax.py:201-204 | a write at layer `l` replaces that layer's entries; every other layer is unchanged; validity is kept |
| LayerState.WriteReadBack | lib/python/EasyDel/modules/rwkv/modelling_rwkv_flax.py:201-204 | writing back a layer's own entries leaves the state as it was |
| LayerState.WriteOverwrite | lib/python/EasyDel/modules/rwkv/modelling_rwkv_flax.py:201-204 | a second write to the same layer supersedes the first |
| LayerState.WritesCommute | lib/python/EasyDel/modules/rwkv/modelling_rwkv_flax.py:201-204 | writes to different layers commute |
| SelfAttention.Features | lib/python/EasyDel/modules/rwkv/modelling_rwkv_flax.py:169-179 | gate, keys and values have one vector per timestep, of the attention width |
| SelfAttention.ExtractKeyValue | lib/python/EasyDel/modules/rwkv/modelling_rwkv_flax.py:157-182 | the attention-width features; with a state, the layer's entries come back with the attention shift cache set to the last timestep and nothing else changed; without a state, nothing comes back |
| SelfAttention.ExtractUsesPrevious | lib/python/EasyDel/modules/rwkv/modelling_rwkv_flax.py:158-174 | the key and value at `t >= 1` mix `hidden[t]` with `hidden[t-1]`; at `t = 0` they mix it with the layer's attention shift cache, or with zero when there is no state |
| SelfAttention.KernelState | lib/python/EasyDel/modules/rwkv/modelling_rwkv_flax.py:191 | the kernel gets a state exactly when there is one; it has the attention width and non-negative denominators |
| SelfAttention.Call | lib/python/EasyDel/modules/rwkv/modelling_rwkv_flax.py:184-206 | the output has the hidden width; with a state, the attention shift cache holds the last timestep, slots 2-4 hold the state the kernel returns when fed the layer's slots 2-4, the feed-forward cache is untouched, and the new denominators are positive |
| SelfAttention.FeaturesConcat | lib/python/EasyDel/modules/rwkv/modelling_rwkv_flax.py:157-179 | the features of `h1 + h2` are those of `h1` followed by those of `h2` taken after `h1`'s last timestep |
| SelfAttention.ExtractConcat | lib/python/EasyDel/modules/rwkv/modelling_rwkv_flax.py:157-182 | `extract_key_value` over a concatenation equals the two chunks chained through the attention shift cache |
| SelfAttention.CallConcat | lib/python/EasyDel/modules/rwkv/modelling_rwkv_flax.py:184-206 | with a state, the sublayer over `h1 + h2` gives the outputs of the two chained calls and the same final entries |
| SelfAttention.CallFrame | lib/python/EasyDel/modules/rwkv/modelling_rwkv_flax.py:184-206 | the sublayer neither reads nor writes the feed-forward shift cache |
| FeedForward.Values | lib/python/EasyDel/modules/rwkv/modelling_rwkv_flax.py:278-282 | the values `value(square(relu(key(mix))))` have the hidden width |
| FeedForward.Gate | lib/python/EasyDel/modules/rwkv/modelling_rwkv_flax.py:279-283 | the gate has the hidden width |
| FeedForward.Output | lib/python/EasyDel/modules/rwkv/modelling_rwkv_flax.py:267-288 | the gated output has one vector per timestep, of the hidden width |
| FeedForward.Call | lib/python/EasyDel/modules/rwkv/modelling_rwkv_flax.py:262-288 | with a state, the layer's entries come back with exactly the feed-forward cache changed, to the last timestep; without a state, nothing is written |
| FeedForward.OutputConcat | lib/python/EasyDel/modules/rwkv/modelling_rwkv_flax.py:267-288 | the output over `h1 + h2` is the output over `h1` followed by the output over `h2` shifted from `h1`'s last timestep |
| FeedForward.CallConcat | lib/python/EasyDel/modules/rwkv/modelling_rwkv_flax.py:262-288 | with a state, the sublayer over `h1 + h2` gives the outputs of the two chained calls and the same final entries |
| Block.PreNorm | lib/python/EasyDel/modules/rwkv/modelling_rwkv_flax.py:343-344 | block 0 applies the pre-norm to every timestep; every other block passes its input on unchanged |
| Block.AttentionAt | lib/python/EasyDel/modules/rwkv/modelling_rwkv_flax.py:346-350 | on the whole state, the attention sublayer of block `l` changes layer `l` only; there the attention cache holds the last timestep and the feed-forward cache is kept |
| Block.FeedForwardAt | lib/python/EasyDel/modules/rwkv/modelling_rwkv_flax.py:353-356 | on the whole state, the feed-forward sublayer of block `l` changes exactly one entry: layer `l`'s feed-forward cache, to the last timestep |
| Block.Call | lib/python/EasyDel/modules/rwkv/modelling_rwkv_flax.py:336-365 | the block keeps the input's shape and changes the state at its own layer only; the attention output is returned exactly when asked for |
| Block.Layer | lib/python/EasyDel/modules/rwkv/modelling_rwkv_flax.py:336-365 | the block on its own layer's entries keeps them valid and returns the attention output exactly when asked for |
| Block.CallIsLayer | lib/python/EasyDel/modules/rwkv/modelling_rwkv_flax.py:336-365 | the block on the whole state is the block on its own layer's entries, written back at that layer, every other layer as it was |
| Block.PreNormConcat | lib/python/EasyDel/modules/rwkv/modelling_rwkv_flax.py:343-344 | the pre-norm distributes over concatenation |
| Block.LayerConcat | lib/python/EasyDel/modules/rwkv/modelling_rwkv_flax.py:336-365 | with a state, the block over `h1 + h2` gives the outputs and attention outputs of the two chained calls, and the same final entries |
| BlockStack.HalvingCount | lib/python/EasyDel/modules/rwkv/modelling_rwkv_flax.py:409-414 | over `n` blocks the hidden sequence is halved `n / rescale_every` times when the flag is set and `rescale_every > 0`, otherwise never; with the flag as initialised (:387), never |
| BlockStack.Rescaled | lib/python/EasyDel/modules/rwkv/modelling_rwkv_flax.py:409-414 | the rescale keeps the sequence's shape |
| BlockStack.RescaledHalves | lib/python/EasyDel/modules/rwkv/modelling_rwkv_flax.py:409-414 | after block `idx`, every entry is halved if `layers_are_rescaled`, `rescale_every > 0` and `(idx+1) % rescale_every == 0`; otherwise the sequence passes unchanged |
| BlockStack.RescaledConcat | lib/python/EasyDel/modules/rwkv/modelling_rwkv_flax.py:409-414 | the rescale distributes over concatenation |
| BlockStack.Halving | lib/python/EasyDel/modules/rwkv/modelling_rwkv_flax.py:409-414 | the rescale between blocks applies to any output of the hidden width and keeps its shape |
| BlockStack.HalvingChains | lib/python/EasyDel/modules/rwkv/modelling_rwkv_flax.py:409-414 | at every block index, the rescale of a concatenation is the concatenation of the rescales |
| BlockStack.Blocks | lib/python/EasyDel/modules/rwkv/modelling_rwkv_flax.py:375-385 | the blocks, block `i` owning layer `i`, keep the block contract wherever the collection calls them |
| BlockStack.BlocksChain | lib/python/EasyDel/modules/rwkv/modelling_rwkv_flax.py:403-407 | every block of the collection composes over chunks |
| BlockStack.BlockChains | lib/python/EasyDel/modules/rwkv/modelling_rwkv_flax.py:405-407 | a call that is block `w` at layer `i` composes over chunks there |
| BlockStack.WriteBack | lib/python/EasyDel/modules/rwkv/modelling_rwkv_flax.py:405 | the state after block `idx` is the state before it with layer `idx` replaced, still valid |
| BlockStack.LoopFrom | lib/python/EasyDel/modules/rwkv/modelling_rwkv_flax.py:403-420 | the loop from block `idx` keeps the input's shape and a state valid, and collects one sequence per remaining block for each output asked for |
| BlockStack.LoopStep | lib/python/EasyDel/modules/rwkv/modelling_rwkv_flax.py:403-420 | one pass of the loop followed by the rest keeps the same guarantees as the loop |
| BlockStack.Stack | lib/python/EasyDel/modules/rwkv/modelling_rwkv_flax.py:389-421 | the collection keeps the input's shape and a state valid, and collects one hidden sequence and one attention output per block when asked for; with no blocks it returns its input and state unchanged, even an empty sequence, and collects nothing |
| BlockStack.TailFrom | lib/python/EasyDel/modules/rwkv/modelling_rwkv_flax.py:403-420 | the loop over the layers still to run keeps the shapes and returns valid entries for exactly those layers |
| BlockStack.LoopIsTail | lib/python/EasyDel/modules/rwkv/modelling_rwkv_flax.py:403-420 | the loop from block `idx` never touches the layers below `idx`: it computes what the loop on the remaining layers computes, with those layers kept in front |
| BlockStack.ConcatEach | lib/python/EasyDel/modules/rwkv/modelling_rwkv_flax.py:416-420 | concatenating two runs' collected sequences block by block keeps one entry per block |
| BlockStack.TailConcat | lib/python/EasyDel/modules/rwkv/modelling_rwkv_flax.py:403-420 | the blocks from `idx` on over `h1 + h2` equal the run over `h1` followed by the run over `h2` from the entries it leaves: concatenated outputs, per-block concatenated collected sequences, the same final entries |
| BlockStack.StackChunks | lib/python/EasyDel/modules/rwkv/modelling_rwkv_flax.py:389-421 | with a state, the collection over `h1 + h2` equals the collection over `h1` followed by the collection over `h2` from the state it leaves |
| RwkvModel.ResolveUseCache | lib/python/EasyDel/modules/rwkv/modelling_rwkv_flax.py:466 | caching is on if and only if it is asked for explicitly, or it is left out, configured on, and the call is not deterministic |
| RwkvModel.ResolveUseCacheStable | lib/python/EasyDel/modules/rwkv/modelling_rwkv_flax.py:402 | the collection's second resolution of `use_cache` returns the module's value; in deterministic mode, caching is on only when asked for |
| RwkvModel.Validate | lib/python/EasyDel/modules/rwkv/modelling_rwkv_flax.py:469-472 | the call fails if and only if both or neither of `input_ids`/`inputs_embeds` are given, with the "both" error exactly when both are given; otherwise the given input is passed on |
| RwkvModel.ValidateArguments | lib/python/EasyDel/modules/rwkv/modelling_rwkv_flax.py:469-472 | validation accepts a pair exactly when it stands for one input, and returns that input |
| RwkvModel.Embed | lib/python/EasyDel/modules/rwkv/modelling_rwkv_flax.py:474-475 | ids are embedded one by one; given embeddings are used as they are |
| RwkvModel.EmbedConcat | lib/python/EasyDel/modules/rwkv/modelling_rwkv_flax.py:474-475 | embedding distributes over concatenation of id sequences |
| RwkvModel.StartState | lib/python/EasyDel/modules/rwkv/modelling_rwkv_flax.py:477-485 | a given state is used as is; a fresh factory state exactly when caching is on and none was given; otherwise none |
| RwkvModel.Assemble | lib/python/EasyDel/modules/rwkv/modelling_rwkv_flax.py:500-503 | the normed last hidden sequence is appended to the collected hidden sequences exactly when they are asked for; state and attentions are passed through |
| RwkvModel.Run | lib/python/EasyDel/modules/rwkv/modelling_rwkv_flax.py:487-513 | an empty sequence is an error exactly when there is at least one layer; otherwise the output keeps the input's shape, a state is returned exactly when caching is on or one was given (and is valid), and `L + 1` hidden sequences and `L` attention outputs are returned when asked for |
| RwkvModel.RunNoLayers | lib/python/EasyDel/modules/rwkv/modelling_rwkv_flax.py:487-503 | with no layers the run succeeds on any input, the empty sequence included: the output is `ln_out` of the input, the start state is returned, and the collected hidden sequences are the normed one alone when asked for |
| RwkvModel.RunTokens | lib/python/EasyDel/modules/rwkv/modelling_rwkv_flax.py:474-513 | a validated input is embedded and run; the run fails exactly on an input of no tokens with at least one layer, and otherwise returns the state and collected outputs the flags ask for |
| RwkvModel.Forward | lib/python/EasyDel/modules/rwkv/modelling_rwkv_flax.py:450-513 | both or neither input is the corresponding error; otherwise the call fails exactly on an empty sequence with at least one layer, and on success the state and collected outputs follow the resolved flags |
| RwkvModel.FreshStateIsFactory | lib/python/EasyDel/modules/rwkv/modelling_rwkv_flax.py:477-485 | without a state and with caching on, the call equals the call on the factory's state |
| RwkvModel.RunIsStack | lib/python/EasyDel/modules/rwkv/modelling_rwkv_flax.py:487-503 | a run on a non-empty sequence is the collection on it from the start state, assembled |
| RwkvModel.AssembleJoined | lib/python/EasyDel/modules/rwkv/modelling_rwkv_flax.py:500-503 | assembling two joined collection runs gives two calls that continue each other |
| RwkvModel.RunChunks | lib/python/EasyDel/modules/rwkv/modelling_rwkv_flax.py:487-513 | with a state, the call on `e1 + e2` equals the call on `e1` followed by the call on `e2` from the returned state: concatenated outputs, per-block concatenated collections, the same final state |
| RwkvModel.ForwardIds | lib/python/EasyDel/modules/rwkv/modelling_rwkv_flax.py:474-498 | a call with token ids is the run on their embeddings with the resolved flags |
| RwkvModel.ForwardChunks | lib/python/EasyDel/modules/rwkv/modelling_rwkv_flax.py:450-513 | a call with ids `ids + next` from state `s` equals the call on `ids` from `s` followed by the call on `next` from the state it returned |
| RwkvModel.PrepareInputsForGeneration | lib/python/EasyDel/modules/rwkv/modelling_rwkv_flax.py:701-710 | with a state and no token the call fails, as `input_ids[:, -1]` does; otherwise the state is passed on, embeddings are fed exactly when given and there is no state, and otherwise ids are fed, only the last token when there is a state |
| RwkvModel.PreparedInputsValidate | lib/python/EasyDel/modules/rwkv/modelling_rwkv_flax.py:701-710 | inputs that were prepared always pass the module's validation |
| RwkvModel.PreparedStep | lib/python/EasyDel/modules/rwkv/modelling_rwkv_flax.py:701-710 | after a call that returned a state, the prepared inputs are the newest token alone, with that state |
| RwkvModel.DecodeStep | lib/python/EasyDel/modules/rwkv/modelling_rwkv_flax.py:701-710 | one generation step on the prepared inputs continues the prefill: together they give the call on the whole sequence |
| Findings.PadAsWritten | lib/python/EasyDel/modules/rwkv/modelling_rwkv_flax.py:161-166 | the pad as written has one timestep more than its input, and one zero channel appended to every timestep |
| Findings.PadAsWrittenMisshapen | lib/python/EasyDel/modules/rwkv/modelling_rwkv_flax.py:161-166 | the pad as written never has the input's length or width, while the corrected shift always has its shape |
| Findings.PadAsWrittenExample | lib/python/EasyDel/modules/rwkv/modelling_rwkv_flax.py:161-166 | on `[[1], [2]]` the pad gives `[[0, 0], [1, 0], [2, 0]]`, while the shift is `[[0], [1]]` |
| Findings.Pad3 | lib/python/EasyDel/modules/rwkv/modelling_rwkv_flax.py:270-275 | `jnp.pad` with zeros on an array of shape [B, T, C] accepts a list of (before, after) pairs exactly when it holds one pair per axis or a single pair, which is broadcast to every axis; every axis then grows by its pair's widths |
| Findings.PadOnePairExample | lib/python/EasyDel/modules/rwkv/modelling_rwkv_flax.py:270-275 | a single pair `(1, 1)` pads all three axes of a [1, 1, 1] array, giving [3, 3, 3] |
| Findings.AttentionPadRows | lib/python/EasyDel/modules/rwkv/modelling_rwkv_flax.py:161-166 | the attention's pad widths pad every batch row as `Findings.PadAsWritten` does |
| Findings.FeedForwardPadAsWritten | lib/python/EasyDel/modules/rwkv/modelling_rwkv_flax.py:270-275 | with four pairs for the three axes of `hidden`, the feed-forward pad is rejected on every input |
| Findings.FeedForwardPadExample | lib/python/EasyDel/modules/rwkv/modelling_rwkv_flax.py:270-275 | on one row `[[1], [2]]` the pad as written is rejected, while the shift is `[[0], [1]]` |
| Findings.FastMixAsWritten | lib/python/EasyDel/modules/rwkv/modelling_rwkv_flax.py:158-169 | on a batch of B rows, the fast-path mix as written has shape [B, B, H]: every row gets B timesteps |
| Findings.FastMixOneRow | lib/python/EasyDel/modules/rwkv/modelling_rwkv_flax.py:158-169 | at batch size 1, the fast path as written is the row's timestep mixed with the corrected shift, which is the row's cache |
| Findings.FastMixCrossesRows | lib/python/EasyDel/modules/rwkv/modelling_rwkv_flax.py:158-169 | with more than one row, no row keeps its single timestep, and row 0's second timestep mixes with row 1's cache |
| Findings.FastMixExample | lib/python/EasyDel/modules/rwkv/modelling_rwkv_flax.py:158-169 | hidden 1 and 2 with caches 10 and 20 and mix 1/2 give `[[5.5], [10.5]]` and `[[6], [11]]` as written, while each row mixed with its own cache gives 5.5 and 11 |
| Findings.KernelWidthAsWritten | lib/python/EasyDel/modules/rwkv/modelling_rwkv_flax.py:55-64 | with the attention-wide key and the hidden-wide `time_first`, `time_decay` and factory maximum, a kernel step is defined exactly when the widths are equal or one of them is 1 |
| Findings.KernelWidthsFit | lib/python/EasyDel/modules/rwkv/modelling_rwkv_flax.py:55-69 | a kernel step fits both the attention-wide output row (:62) and the hidden-wide state slots (:202-204) exactly when the attention width equals the hidden width |
| Findings.KernelWidthExample | lib/python/EasyDel/modules/rwkv/modelling_rwkv_flax.py:55-64 | hidden width 3 with attention width 2 does not broadcast; with attention width 1 the step is 3 wide and does not fit the 1-wide output row |
| Findings.NewStateAsWritten | lib/python/EasyDel/modules/rwkv/modelling_rwkv_flax.py:477-485 | the factory as written makes every slot `hidden_size` wide |
| Findings.NewStateAsWrittenValid | lib/python/EasyDel/modules/rwkv/modelling_rwkv_flax.py:477-485 | the state as written fits the configuration if and only if there are no layers or the attention width equals the hidden width |
| Findings.NewStateAgrees | lib/python/EasyDel/modules/rwkv/modelling_rwkv_flax.py:477-485 | where the two widths agree, the corrected factory is the factory as written |
| Findings.NewStateExample | lib/python/EasyDel/modules/rwkv/modelling_rwkv_flax.py:477-485 | for hidden width 2 and attention width 1, the state as written does not fit the model's configuration, where slots 2-4 are attention-wide; the corrected state does |

## Left out

- Parameter initialisation in the `setup` methods (:84-155, :216-260, :298-334, :374-385, :430-448) is left out: the float formulas for initial values are not modelled, and the model takes the parameters as given. The parameters' widths do matter, and are stated by the shape predicates; the next line says where they depart from setup.
- SelfAttention.Shaped: takes `time_decay` and `time_first` attention-wide, while setup (:98-100) builds them `hidden_size` wide. The two agree when the attention width equals the hidden width, and that is the only configuration in which the source as written runs a kernel step that fits its output and its state (`Findings.KernelWidthsFit`).
- The `Rows`, `Cube`, `Shaped` and `MapsWidth` preconditions exclude mis-shaped arrays and parameters. JAX rejects those when it broadcasts or in `nn.Dense`, so the model does not model that error path.
- `nn.Dense`, `nn.LayerNorm`, `nn.Embed`, `jax.nn.sigmoid` and `jnp.exp` are parameters: functions on vectors or reals. The stated properties need only their widths, and for `exp` the `IsExp` laws.
- Floating point, dtypes and casts are not modelled. Values are exact reals, so overflow and underflow, which the max shift exists to avoid, do not arise. The sentinel magnitudes are kept as constants.
- The batch axis is not modelled: one batch row is modelled. The source is independent per batch row except on the single-timestep fast paths (:158-159, :267-268), where broadcasting mixes every row with every row's cache (see Findings). There the model is the source only at batch size 1, and the per-row intent otherwise.
- `attention_mask` is accepted and never used by the source, so it is left out.
- `deterministic` is used only to resolve `use_cache`, and only there.
- `return_dict` is not modelled. Choosing between a tuple and `RwkvOutput` only repackages the same four outputs. `RwkvOutput` and `RwkvCausalLMOutput` are modelled only as the `Output` datatype.
- `jax.jit`, `module.apply`, `init_weights`, parameter handling and sharding are framework glue.
- The pretrained wrapper's `__call__` (:632-684) and `generate` (:686-699) are framework glue. The causal-LM head module is outside the modelled core.
- Token ids are naturals. `nn.Embed`'s behaviour for ids beyond the vocabulary is a library matter: the embedding is a total function.
- SelfAttention.Call: requires a state whenever caching is on, because the source writes the kernel's returned state into the missing state list (:201-204); `RwkvModel.StartState` always supplies one in that case.
- Block.Call: requires a state whenever caching is on, for the same reason as `SelfAttention.Call`.
- BlockStack.Stack: requires a state whenever caching is on, for the same reason as `SelfAttention.Call`.
- RwkvModel.Run: requires a given state to have non-negative denominators (`LayerState.SlotsValid`). The source accepts any state and divides by `e1*den + e2` at :62 whatever its sign, giving an infinite or NaN output when that is zero. The exact-real model cannot divide by zero, and every state the module creates or returns meets the requirement (`LayerState.NewState`, `SelfAttention.Call`). The same requirement reaches `Block.Call`, `BlockStack.Stack` and `FeedForward.Call`, although the feed-forward reads only slot 0.
- RwkvModel.Forward: requires a given state to have non-negative denominators, for the same reason as `RwkvModel.Run`.
- Findings.Pad3: takes `pad_width` as a list of (before, after) pairs. It does not model the flat forms `jnp.pad` also accepts (one pair written `(before, after)`, a one-element list, or a single number), because neither padding call in the source uses them.
- RwkvModel.Forward: does not state the output values. They are stated by `RwkvModel.RunChunks`, `RwkvModel.ForwardChunks` and the lemmas below them.

## Findings

| source | as written | input that shows it | evidently intended | confidence | as-written member | corrected member |
|---|---|---|---|---|---|---|
| lib/python/EasyDel/modules/rwkv/modelling_rwkv_flax.py:161-166 | `jnp.pad(hidden, ((0, 0), (1, 0), (0, 1)))` prepends a zero timestep and appends a zero channel, keeping every timestep | one row `[[1], [2]]` padded gives `[[0, 0], [1, 0], [2, 0]]`, which cannot be mixed with the `[2, 1]` input | shift by one timestep with zero fill: `[[0], [1]]` | not executed | Findings.PadAsWritten | TokenShift.Shifted |
| lib/python/EasyDel/modules/rwkv/modelling_rwkv_flax.py:477-485 | the factory sizes all five slots by `hidden_size`, as setup (:98-100) sizes `time_first` and `time_decay`, while keys and values are `attention_hidden_size` wide (:128-141); the kernel step then fits its output row and the state slots only when the two widths are equal (`Findings.KernelWidthsFit`) | `hidden_size = 3`, `attention_hidden_size = 2`: `current_key + time_first` at :57 adds a 2-wide and a 3-wide vector, which do not broadcast; with `attention_hidden_size = 1` the step broadcasts to 3 wide and does not fit the 1-wide output row at :62 | `time_first`, `time_decay` and slots 2-4 sized by the attention width | not executed | Findings.NewStateAsWritten | LayerState.NewState |
| lib/python/EasyDel/modules/rwkv/modelling_rwkv_flax.py:158-159 | with a state and one timestep, `shifted = state[1][:, :, layer_id]` has shape [B, H] against `hidden` [B, 1, H], so `hidden * mix + shifted * (1 - mix)` broadcasts to [B, B, H]; the feed-forward does the same at :267-268 | two batch rows of one channel, hidden 1 and 2, caches 10 and 20, mix 1/2: row 0 gets two timesteps, 5.5 and 10.5, the second mixed with row 1's cache | each row mixed with its own cache: 5.5 for row 0 and 11 for row 1 | not executed | Findings.FastMixAsWritten | TokenShift.Shifted |
| lib/python/EasyDel/modules/rwkv/modelling_rwkv_flax.py:270-275 | `jnp.pad(hidden, pad_width=((0, 0), (0, 0), (1, 0), (0, 1)))` gives four (before, after) pairs for the three axes of `hidden`, which `jnp.pad` rejects | one row `[[1], [2]]`, or any call with more than one timestep or without a state | shift by one timestep with zero fill: `[[0], [1]]` | not executed | Findings.FeedForwardPadAsWritten | TokenShift.Shifted |
