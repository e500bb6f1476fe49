/** `FlaxRwkvBlockCollection`: the blocks applied in order, block `idx`
    owning layer `idx` of the state, with an optional halving of the hidden
    sequence after every `rescale_every`-th block. */
module BlockStack {
  import opened Base
  import opened LayerState
  import opened Mixing
  import Block

  /** The rescale configuration: the collection's `layers_are_rescaled` flag
      and the configuration's `rescale_every`. */
  datatype Rescale = Rescale(layersAreRescaled: bool, every: int)

  /** The value `layers_are_rescaled` is set to when the collection is
      built; nothing in the collection sets it to true afterwards. */
  const InitiallyRescaled: bool := false

  /** Whether the hidden sequence is halved after block `idx`. */
  function RescaleAfter(r: Rescale, idx: nat): bool
  {
    r.layersAreRescaled && r.every > 0 && (idx + 1) % r.every == 0
  }

  /** The number of halvings among the first `n` blocks. */
  function Halvings(r: Rescale, n: nat): nat
  {
    if n == 0 then 0 else Halvings(r, n - 1) + (if RescaleAfter(r, n - 1) then 1 else 0)
  }

  /** Division by a positive divisor steps up by one exactly at multiples. */
  lemma DivStep(n: nat, e: int)
    requires e > 0
    ensures (n + 1) / e == n / e + (if (n + 1) % e == 0 then 1 else 0)
  {
    var q, m := n / e, n % e;
    assert n == q * e + m && 0 <= m < e;
    if m + 1 == e {
      assert n + 1 == (q + 1) * e;
      DivUnique(n + 1, e, q + 1, 0);
    } else {
      assert n + 1 == q * e + (m + 1);
      DivUnique(n + 1, e, q, m + 1);
    }
  }

  /** Quotient and remainder are determined by `a == q * e + m`,
      `0 <= m < e`. */
  lemma DivUnique(a: int, e: int, q: int, m: int)
    requires e > 0 && a == q * e + m && 0 <= m < e
    ensures a / e == q && a % e == m
  {
    var q', m' := a / e, a % e;
    assert (q - q') * e == m' - m;
    if q - q' >= 1 {
      MulAtLeast(q - q', e);
    } else if q' - q >= 1 {
      MulAtLeast(q' - q, e);
    }
  }

  lemma MulAtLeast(k: int, e: int)
    requires k >= 1 && e > 0
    ensures k * e >= e
  {
    assert k * e == (k - 1) * e + e;
    assert (k - 1) * e >= 0;
  }

  /** Over `n` blocks the hidden sequence is halved `n / rescale_every` times
      when rescaling is on and `rescale_every` is positive, and never
      otherwise; in particular never with the flag as the collection
      initialises it. */
  lemma {:induction false} HalvingCount(r: Rescale, n: nat)
    ensures Halvings(r, n) == if r.layersAreRescaled && r.every > 0 then n / r.every else 0
    ensures r.layersAreRescaled == InitiallyRescaled ==> Halvings(r, n) == 0
  {
    if n > 0 {
      HalvingCount(r, n - 1);
      if r.layersAreRescaled && r.every > 0 {
        DivStep(n - 1, r.every);
      }
    }
  }

  /** The blocks' parameters fit the configuration. */
  ghost predicate Shaped(blocks: seq<Block.Weights>, d: Dims)
  {
    |blocks| == d.layers && forall i :: 0 <= i < |blocks| ==> Block.Shaped(blocks[i], d)
  }

  // ---------------------------------------------------------------------
  // A block as the collection sees it

  /** One block applied by the collection, on its own layer's entries: the
      block owning layer `i`, on a hidden sequence and that layer's entries
      (`Block.CallIsLayer` shows the block on the whole state is this,
      written back at layer `i`). */
  type LayerFn = (nat, seq<Vec>, Option<LayerSlots>) --> Block.LayerResult

  /** What a block call may assume: a layer of the configuration, a
      non-empty hidden sequence of the hidden width, valid entries, and no
      cache write without a state. */
  ghost predicate Pre(d: Dims, useCache: bool, i: nat, h: seq<Vec>, s: Option<LayerSlots>)
  {
    i < d.layers && Rows(h, d.hidden) && |h| > 0
    && (s.Some? ==> SlotsValid(s.value, d)) && (s.None? ==> !useCache)
  }

  /** What a block call promises (the contract of `Block.Layer`). */
  ghost predicate Post(d: Dims, outputAttentions: bool, h: seq<Vec>, s: Option<LayerSlots>, b: Block.LayerResult)
  {
    && |b.out| == |h| && Rows(b.out, d.hidden)
    && (b.slots.Some? <==> s.Some?)
    && (b.slots.Some? ==> SlotsValid(b.slots.value, d))
    && (b.attention.Some? <==> outputAttentions)
  }

  /** `f` can be called wherever a block can, and keeps a block's contract. */
  ghost predicate Fits(f: LayerFn, d: Dims, useCache: bool, outputAttentions: bool)
  {
    forall i: nat, h: seq<Vec>, s: Option<LayerSlots> {:trigger f(i, h, s)} {:trigger f.requires(i, h, s)} ::
      Pre(d, useCache, i, h, s) ==> f.requires(i, h, s) && Post(d, outputAttentions, h, s, f(i, h, s))
  }

  /** A block's attention output, when it returned one. */
  function AttentionOf(b: Block.LayerResult): seq<Vec>
  {
    if b.attention.Some? then b.attention.value else []
  }

  /** The block at layer `i` over `h1 + h2` is the block over `h1` followed
      by the block over `h2` from the entries the first call leaves. */
  ghost predicate ChainsAt(f: LayerFn, d: Dims, useCache: bool, outputAttentions: bool,
                           i: nat, h1: seq<Vec>, h2: seq<Vec>, s: LayerSlots)
    requires Fits(f, d, useCache, outputAttentions)
    requires Pre(d, useCache, i, h1, Some(s)) && Pre(d, useCache, i, h2, Some(s)) && Pre(d, useCache, i, h1 + h2, Some(s))
  {
    var b1 := f(i, h1, Some(s));
    var b2 := f(i, h2, b1.slots);
    var b := f(i, h1 + h2, Some(s));
    && b.out == b1.out + b2.out && b.slots == b2.slots
    && AttentionOf(b) == AttentionOf(b1) + AttentionOf(b2)
  }

  /** Every block of `f` composes over chunks. */
  ghost predicate Chains(f: LayerFn, d: Dims, useCache: bool, outputAttentions: bool)
  {
    Fits(f, d, useCache, outputAttentions) &&
    forall i: nat, h1: seq<Vec>, h2: seq<Vec>, s: LayerSlots {:trigger ChainsAt(f, d, useCache, outputAttentions, i, h1, h2, s)} ::
      Pre(d, useCache, i, h1, Some(s)) && Pre(d, useCache, i, h2, Some(s)) && Pre(d, useCache, i, h1 + h2, Some(s)) ==>
        ChainsAt(f, d, useCache, outputAttentions, i, h1, h2, s)
  }

  /** The RWKV blocks, the block at layer `i` being `blocks[i]`; they keep
      the block contract. */
  function Blocks(lib: Library, blocks: seq<Block.Weights>, d: Dims, useCache: bool, outputAttentions: bool): (f: LayerFn)
    requires Lawful(lib) && Shaped(blocks, d)
    ensures Fits(f, d, useCache, outputAttentions)
  {
    (i: nat, h: seq<Vec>, s: Option<LayerSlots>) requires Pre(d, useCache, i, h, s) =>
      Block.Layer(lib, blocks[i], d, i, h, s, useCache, outputAttentions)
  }

  /** Each RWKV block composes over chunks. */
  lemma BlocksChain(lib: Library, blocks: seq<Block.Weights>, d: Dims, useCache: bool, outputAttentions: bool)
    requires Lawful(lib) && Shaped(blocks, d)
    ensures Chains(Blocks(lib, blocks, d, useCache, outputAttentions), d, useCache, outputAttentions)
  {
    var f := Blocks(lib, blocks, d, useCache, outputAttentions);
    forall i: nat, h1: seq<Vec>, h2: seq<Vec>, s: LayerSlots
      | Pre(d, useCache, i, h1, Some(s)) && Pre(d, useCache, i, h2, Some(s)) && Pre(d, useCache, i, h1 + h2, Some(s))
      ensures ChainsAt(f, d, useCache, outputAttentions, i, h1, h2, s)
    {
      BlocksChainAt(lib, blocks, d, useCache, outputAttentions, i, h1, h2, s);
    }
  }

  lemma BlocksChainAt(lib: Library, blocks: seq<Block.Weights>, d: Dims, useCache: bool, outputAttentions: bool,
                      i: nat, h1: seq<Vec>, h2: seq<Vec>, s: LayerSlots)
    requires Lawful(lib) && Shaped(blocks, d)
    requires Pre(d, useCache, i, h1, Some(s)) && Pre(d, useCache, i, h2, Some(s)) && Pre(d, useCache, i, h1 + h2, Some(s))
    ensures ChainsAt(Blocks(lib, blocks, d, useCache, outputAttentions), d, useCache, outputAttentions, i, h1, h2, s)
  {
    var f := Blocks(lib, blocks, d, useCache, outputAttentions);
    var w := blocks[i];
    var b1 := f(i, h1, Some(s));
    BlocksAgree(lib, blocks, d, useCache, outputAttentions, i, h1, Some(s));
    BlocksAgree(lib, blocks, d, useCache, outputAttentions, i, h2, b1.slots);
    BlocksAgree(lib, blocks, d, useCache, outputAttentions, i, h1 + h2, Some(s));
    BlockChains(f, lib, w, d, useCache, outputAttentions, i, h1, h2, s);
  }

  /** At each call, the RWKV blocks are the block of the call's layer. */
  lemma BlocksAgree(lib: Library, blocks: seq<Block.Weights>, d: Dims, useCache: bool, outputAttentions: bool,
                    i: nat, h: seq<Vec>, t: Option<LayerSlots>)
    requires Lawful(lib) && Shaped(blocks, d)
    requires Pre(d, useCache, i, h, t)
    ensures Block.Shaped(blocks[i], d) && AgreeAt(Blocks(lib, blocks, d, useCache, outputAttentions), lib, blocks[i], d, useCache, outputAttentions, i, h, t)
  {
  }

  /** `f` is block `w` at layer `i` on `h` and `t`. */
  ghost predicate AgreeAt(f: LayerFn, lib: Library, w: Block.Weights, d: Dims, useCache: bool, outputAttentions: bool,
                          i: nat, h: seq<Vec>, t: Option<LayerSlots>)
    requires Lawful(lib) && Block.Shaped(w, d)
  {
    Pre(d, useCache, i, h, t) && f.requires(i, h, t) && f(i, h, t) == Block.Layer(lib, w, d, i, h, t, useCache, outputAttentions)
  }

  /** A function that is block `w` at layer `i` chains there. */
  lemma BlockChains(f: LayerFn, lib: Library, w: Block.Weights, d: Dims, useCache: bool, outputAttentions: bool,
                    i: nat, h1: seq<Vec>, h2: seq<Vec>, s: LayerSlots)
    requires Lawful(lib) && Block.Shaped(w, d) && Fits(f, d, useCache, outputAttentions)
    requires Pre(d, useCache, i, h1, Some(s)) && Pre(d, useCache, i, h2, Some(s)) && Pre(d, useCache, i, h1 + h2, Some(s))
    requires AgreeAt(f, lib, w, d, useCache, outputAttentions, i, h1, Some(s))
    requires AgreeAt(f, lib, w, d, useCache, outputAttentions, i, h1 + h2, Some(s))
    requires AgreeAt(f, lib, w, d, useCache, outputAttentions, i, h2, f(i, h1, Some(s)).slots)
    ensures ChainsAt(f, d, useCache, outputAttentions, i, h1, h2, s)
  {
    Block.LayerConcat(lib, w, d, i, h1, h2, s, useCache, outputAttentions);
  }

  // ---------------------------------------------------------------------
  // The loop over the blocks

  /** The final hidden sequence, the state after the last block, the hidden
      sequence after each block (when asked for) and each block's attention
      output (when asked for). */
  datatype Result = Result(out: seq<Vec>, state: Option<State>, hiddenStates: seq<seq<Vec>>, attentions: seq<seq<Vec>>)

  /** One block's collected sequence, when it is asked for. */
  function Front(keep: bool, x: seq<Vec>): (r: seq<seq<Vec>>)
    ensures |r| == if keep then 1 else 0
  {
    if keep then [x] else []
  }

  /** The hidden sequence passed on after block `idx`: its output, halved
      when the schedule says so. */
  function Rescaled(r: Rescale, idx: nat, out: seq<Vec>, n: nat): (h: seq<Vec>)
    requires Rows(out, n)
    ensures |h| == |out| && Rows(h, n)
  {
    if RescaleAfter(r, idx) then Elementwise(Half, out) else out
  }

  /** After a block the schedule selects, every entry of the hidden
      sequence is halved; after any other block it passes on unchanged. */
  lemma RescaledHalves(r: Rescale, idx: nat, out: seq<Vec>, n: nat)
    requires Rows(out, n)
    ensures var h := Rescaled(r, idx, out, n);
            && (RescaleAfter(r, idx) ==> forall t, c :: 0 <= t < |out| && 0 <= c < n ==> h[t][c] == out[t][c] / 2.0)
            && (!RescaleAfter(r, idx) ==> h == out)
  {
  }

  /** What the loop does to a block's output before passing it on, given
      the block's index. */
  type Between = (nat, seq<Vec>) --> seq<Vec>

  /** `g` can be applied to any output of the hidden width and keeps its
      shape. */
  ghost predicate BetweenFits(g: Between, d: Dims)
  {
    forall i: nat, o: seq<Vec> {:trigger g(i, o)} {:trigger g.requires(i, o)} ::
      Rows(o, d.hidden) ==> g.requires(i, o) && |g(i, o)| == |o| && Rows(g(i, o), d.hidden)
  }

  /** `g` acts on each timestep alone, so it distributes over concatenation. */
  ghost predicate BetweenChains(g: Between, d: Dims)
  {
    BetweenFits(g, d) &&
    forall i: nat, o1: seq<Vec>, o2: seq<Vec> {:trigger Joins(g, d, i, o1, o2)} ::
      Rows(o1, d.hidden) && Rows(o2, d.hidden) ==> Joins(g, d, i, o1, o2)
  }

  /** `g` at step `i` maps the concatenation of two outputs to the
      concatenation of its images. */
  ghost predicate Joins(g: Between, d: Dims, i: nat, o1: seq<Vec>, o2: seq<Vec>)
    requires BetweenFits(g, d) && Rows(o1, d.hidden) && Rows(o2, d.hidden)
  {
    Rows(o1 + o2, d.hidden) && g(i, o1 + o2) == g(i, o1) + g(i, o2)
  }

  /** The collection's rescale between blocks. */
  function Halving(rescale: Rescale, d: Dims): (g: Between)
    ensures BetweenFits(g, d)
  {
    (i: nat, o: seq<Vec>) requires Rows(o, d.hidden) => Rescaled(rescale, i, o, d.hidden)
  }

  /** The rescale distributes over concatenation. */
  lemma HalvingChains(rescale: Rescale, d: Dims)
    ensures BetweenChains(Halving(rescale, d), d)
  {
    var g := Halving(rescale, d);
    forall i: nat, o1: seq<Vec>, o2: seq<Vec> | Rows(o1, d.hidden) && Rows(o2, d.hidden)
      ensures Joins(g, d, i, o1, o2)
    {
      HalvingAt(rescale, d, i, o1, o2);
    }
  }

  lemma HalvingAt(rescale: Rescale, d: Dims, i: nat, o1: seq<Vec>, o2: seq<Vec>)
    requires Rows(o1, d.hidden) && Rows(o2, d.hidden)
    ensures Rows(o1 + o2, d.hidden) 
    ensures Halving(rescale, d)(i, o1 + o2) == Halving(rescale, d)(i, o1) + Halving(rescale, d)(i, o2)
  {
      RescaledConcat(rescale, i, o1, o2, d.hidden);
  }

  /** The state with layer `idx` replaced by a block's entries. */
  function WriteBack(state: Option<State>, idx: nat, slots: Option<LayerSlots>, d: Dims): (r: Option<State>)
    requires state.Some? ==> Valid(state.value, d) && idx < |state.value| && slots.Some? && SlotsValid(slots.value, d)
    ensures r.Some? <==> state.Some?
    ensures r.Some? ==> Valid(r.value, d) && r.value == state.value[idx := slots.value]
  {
    if state.Some? then Some(WriteLayer(state.value, idx, slots.value)) else None
  }

  /** The loop of `FlaxRwkvBlockCollection.__call__` from block `idx` on:
      block `idx` runs on layer `idx` of the state and its entries are
      written back there, its output (halved when the schedule says so) is
      the next block's input, and its hidden sequence and attention output
      are collected when asked for. The output keeps the input's shape, a
      state stays valid, and one sequence per remaining block is collected. */
  function LoopFrom(f: LayerFn, g: Between, d: Dims, useCache: bool, outputAttentions: bool, outputHidden: bool,
                    idx: nat, hidden: seq<Vec>, state: Option<State>): (r: Result)
    requires Fits(f, d, useCache, outputAttentions) && BetweenFits(g, d) && idx <= d.layers
    requires Rows(hidden, d.hidden) && |hidden| > 0
    requires state.Some? ==> Valid(state.value, d)
    requires state.None? ==> !useCache
    ensures |r.out| == |hidden| && Rows(r.out, d.hidden)
    ensures r.state.Some? <==> state.Some?
    ensures r.state.Some? ==> Valid(r.state.value, d)
    ensures |r.hiddenStates| == (if outputHidden then d.layers - idx else 0)
    ensures |r.attentions| == (if outputAttentions then d.layers - idx else 0)
    decreases d.layers - idx, 1
  {
    if idx == d.layers then Result(hidden, state, [], [])
    else LoopStep(f, g, d, useCache, outputAttentions, outputHidden, idx, hidden, state)
  }

  /** One pass of the loop at block `idx`, then the loop from the next
      block. */
  function LoopStep(f: LayerFn, g: Between, d: Dims, useCache: bool, outputAttentions: bool, outputHidden: bool,
                    idx: nat, hidden: seq<Vec>, state: Option<State>): (r: Result)
    requires Fits(f, d, useCache, outputAttentions) && BetweenFits(g, d) && idx < d.layers
    requires Rows(hidden, d.hidden) && |hidden| > 0
    requires state.Some? ==> Valid(state.value, d)
    requires state.None? ==> !useCache
    ensures |r.out| == |hidden| && Rows(r.out, d.hidden)
    ensures r.state.Some? <==> state.Some?
    ensures r.state.Some? ==> Valid(r.state.value, d)
    ensures |r.hiddenStates| == (if outputHidden then d.layers - idx else 0)
    ensures |r.attentions| == (if outputAttentions then d.layers - idx else 0)
    decreases d.layers - idx, 0
  {
    var slots := Block.SlotsAt(state, idx);
    assert Pre(d, useCache, idx, hidden, slots);
    var b := f(idx, hidden, slots);
    var h := g(idx, b.out);
    var rest := LoopFrom(f, g, d, useCache, outputAttentions, outputHidden, idx + 1, h, WriteBack(state, idx, b.slots, d));
    Result(rest.out, rest.state,
           Front(outputHidden, h) + rest.hiddenStates,
           Front(outputAttentions, AttentionOf(b)) + rest.attentions)
  }

  /** `FlaxRwkvBlockCollection.__call__`: all blocks from the first. With
      no blocks the loop does not run and the input passes through
      unchanged, even a sequence of no timesteps, which any block would
      reject. */
  function Stack(lib: Library, blocks: seq<Block.Weights>, d: Dims, rescale: Rescale,
                 hidden: seq<Vec>, state: Option<State>,
                 useCache: bool, outputAttentions: bool, outputHidden: bool): (r: Result)
    requires Lawful(lib) && Shaped(blocks, d)
    requires Rows(hidden, d.hidden) && (|hidden| > 0 || d.layers == 0)
    requires state.Some? ==> Valid(state.value, d)
    requires state.None? ==> !useCache
    ensures |r.out| == |hidden| && Rows(r.out, d.hidden)
    ensures r.state.Some? <==> state.Some?
    ensures r.state.Some? ==> Valid(r.state.value, d)
    ensures |r.hiddenStates| == (if outputHidden then d.layers else 0)
    ensures |r.attentions| == (if outputAttentions then d.layers else 0)
    ensures d.layers == 0 ==> r == Result(hidden, state, [], [])
  {
    if |hidden| == 0 then Result(hidden, state, [], [])
    else
      var f := Blocks(lib, blocks, d, useCache, outputAttentions);
      var g := Halving(rescale, d);
      LoopFrom(f, g, d, useCache, outputAttentions, outputHidden, 0, hidden, state)
  }

  // ---------------------------------------------------------------------
  // The same loop on the layers still to run

  /** Every entry of `t` is a valid layer's entries. */
  ghost predicate LayersValid(t: seq<LayerSlots>, d: Dims)
  {
    forall l :: 0 <= l < |t| ==> SlotsValid(t[l], d)
  }

  /** The loop from block `idx` on, with a state, given only the entries of
      the layers `idx` to the last: block `idx` takes the first of them and
      the entries it returns lead the final entries. */
  function TailFrom(f: LayerFn, g: Between, d: Dims, useCache: bool, outputAttentions: bool, outputHidden: bool,
                    idx: nat, hidden: seq<Vec>, t: seq<LayerSlots>): (r: Result)
    requires Fits(f, d, useCache, outputAttentions) && BetweenFits(g, d) && idx <= d.layers
    requires Rows(hidden, d.hidden) && |hidden| > 0
    requires |t| + idx == d.layers && LayersValid(t, d)
    ensures |r.out| == |hidden| && Rows(r.out, d.hidden)
    ensures r.state.Some? && |r.state.value| == |t| && LayersValid(r.state.value, d)
    ensures |r.hiddenStates| == (if outputHidden then d.layers - idx else 0)
    ensures |r.attentions| == (if outputAttentions then d.layers - idx else 0)
    decreases d.layers - idx
  {
    if idx == d.layers then Result(hidden, Some(t), [], [])
    else
      assert Pre(d, useCache, idx, hidden, Some(t[0]));
      var b := f(idx, hidden, Some(t[0]));
      var h := g(idx, b.out);
      var rest := TailFrom(f, g, d, useCache, outputAttentions, outputHidden, idx + 1, h, t[1..]);
      Result(rest.out, Some([b.slots.value] + rest.state.value),
             Front(outputHidden, h) + rest.hiddenStates,
             Front(outputAttentions, AttentionOf(b)) + rest.attentions)
  }

  /** A valid state split at layer `idx` into `below` and `t`: the entries
      of `t` are valid, `t` starts with layer `idx`, and writing layer `idx`
      replaces the head of `t` and leaves `below` as it was. */
  lemma SplitAt(d: Dims, below: State, t: seq<LayerSlots>, v: LayerSlots)
    requires Valid(below + t, d) && |t| > 0 && SlotsValid(v, d)
    ensures LayersValid(t, d) && (below + t)[|below|] == t[0]
    ensures WriteBack(Some(below + t), |below|, Some(v), d) == Some((below + [v]) + t[1..])
  {
    var s := below + t;
    forall l | 0 <= l < |t| ensures SlotsValid(t[l], d) {
      assert s[|below| + l] == t[l];
    }
    assert s[|below| := v] == (below + [v]) + t[1..];
  }

  /** The entries of the layers from `idx` on in a valid state are valid. */
  lemma BelowValid(d: Dims, below: State, t: seq<LayerSlots>)
    requires Valid(below + t, d)
    ensures LayersValid(t, d)
  {
    forall l | 0 <= l < |t| ensures SlotsValid(t[l], d) {
      assert (below + t)[|below| + l] == t[l];
    }
  }

  /** The blocks from `idx` on neither read nor write a layer below `idx`:
      on a state whose layers below `idx` are `below` and whose other layers
      are `t`, the loop computes what the loop on `t` alone computes, and its
      final state is `below` followed by the final entries of the others. */
  lemma {:induction false} LoopIsTail(f: LayerFn, g: Between, d: Dims, useCache: bool, oa: bool, oh: bool,
                                      idx: nat, hidden: seq<Vec>, below: State, t: seq<LayerSlots>)
    requires Fits(f, d, useCache, oa) && BetweenFits(g, d) && idx <= d.layers
    requires Rows(hidden, d.hidden) && |hidden| > 0
    requires |below| == idx && Valid(below + t, d) && LayersValid(t, d)
    ensures var r := TailFrom(f, g, d, useCache, oa, oh, idx, hidden, t);
            LoopFrom(f, g, d, useCache, oa, oh, idx, hidden, Some(below + t))
              == r.(state := Some(below + r.state.value))
    decreases d.layers - idx
  {
    if idx < d.layers {
      var b := f(idx, hidden, Some(t[0]));
      var v := b.slots.value;
      SplitAt(d, below, t, v);
      var h := g(idx, b.out);
      LoopIsTail(f, g, d, useCache, oa, oh, idx + 1, h, below + [v], t[1..]);
      var r := TailFrom(f, g, d, useCache, oa, oh, idx + 1, h, t[1..]);
      var l := LoopFrom(f, g, d, useCache, oa, oh, idx + 1, h, Some((below + [v]) + t[1..]));
      assert (below + [v]) + r.state.value == below + ([v] + r.state.value);
      assert l == r.(state := Some(below + ([v] + r.state.value)));
    } else {
      assert below + t == below;
    }
  }

  // ---------------------------------------------------------------------
  // Chunked composition

  /** Per-block concatenation of the collected sequences of two runs. */
  function ConcatEach(xs: seq<seq<Vec>>, ys: seq<seq<Vec>>): (r: seq<seq<Vec>>)
    requires |ys| == |xs|
    ensures |r| == |xs|
  {
    if |xs| == 0 then [] else [xs[0] + ys[0]] + ConcatEach(xs[1..], ys[1..])
  }

  /** Entry `i` of `ConcatEach` is the two runs' entries `i` concatenated. */
  lemma {:induction false} ConcatEachAt(xs: seq<seq<Vec>>, ys: seq<seq<Vec>>, i: nat)
    requires |ys| == |xs| && i < |xs|
    ensures ConcatEach(xs, ys)[i] == xs[i] + ys[i]
    decreases i
  {
    if i > 0 {
      ConcatEachAt(xs[1..], ys[1..], i - 1);
    }
  }

  /** Collecting one more block's sequences in front of both runs. */
  lemma ConcatEachFront(keep: bool, x: seq<Vec>, y: seq<Vec>, xs: seq<seq<Vec>>, ys: seq<seq<Vec>>)
    requires |ys| == |xs|
    ensures ConcatEach(Front(keep, x) + xs, Front(keep, y) + ys) == Front(keep, x + y) + ConcatEach(xs, ys)
  {
    if keep {
      assert ([x] + xs)[1..] == xs;
      assert ([y] + ys)[1..] == ys;
    } else {
      assert [] + xs == xs;
      assert [] + ys == ys;
    }
  }

  lemma RescaledConcat(r: Rescale, idx: nat, o1: seq<Vec>, o2: seq<Vec>, n: nat)
    requires Rows(o1, n) && Rows(o2, n)
    ensures Rows(o1 + o2, n)
    ensures Rescaled(r, idx, o1 + o2, n) == Rescaled(r, idx, o1, n) + Rescaled(r, idx, o2, n)
  {
    RowsConcat(o1, o2, n);
    ElementwiseConcat(Half, o1, o2);
  }

  /** `r` is the run `r1` followed by the run `r2`: concatenated outputs,
      the second run's final state, and per block the concatenated
      collected sequences. */
  ghost predicate Joined(r: Result, r1: Result, r2: Result)
  {
    && r.out == r1.out + r2.out && r.state == r2.state
    && |r2.hiddenStates| == |r1.hiddenStates| && r.hiddenStates == ConcatEach(r1.hiddenStates, r2.hiddenStates)
    && |r2.attentions| == |r1.attentions| && r.attentions == ConcatEach(r1.attentions, r2.attentions)
  }

  /** Chunked runs compose: with a state, the blocks from `idx` on over
      `h1 + h2` give the outputs of running them over `h1` and then over
      `h2` from the entries the first run leaves, the same final entries,
      and per block the concatenated hidden sequences and attention
      outputs. */
  lemma {:induction false} TailConcat(f: LayerFn, g: Between, d: Dims, useCache: bool, oa: bool, oh: bool,
                                      idx: nat, h1: seq<Vec>, h2: seq<Vec>, t: seq<LayerSlots>)
    requires Chains(f, d, useCache, oa) && BetweenChains(g, d) && idx <= d.layers
    requires Rows(h1, d.hidden) && |h1| > 0 && Rows(h2, d.hidden) && |h2| > 0
    requires |t| + idx == d.layers && LayersValid(t, d)
    ensures Rows(h1 + h2, d.hidden)
    ensures var r1 := TailFrom(f, g, d, useCache, oa, oh, idx, h1, t);
            Joined(TailFrom(f, g, d, useCache, oa, oh, idx, h1 + h2, t),
                   r1, TailFrom(f, g, d, useCache, oa, oh, idx, h2, r1.state.value))
    decreases d.layers - idx
  {
    RowsConcat(h1, h2, d.hidden);
    if idx < d.layers {
      var n := d.hidden;
      // the block at idx over the whole sequence is its chunks chained
      assert Pre(d, useCache, idx, h1, Some(t[0])) && Pre(d, useCache, idx, h2, Some(t[0]));
      assert Pre(d, useCache, idx, h1 + h2, Some(t[0]));
      assert ChainsAt(f, d, useCache, oa, idx, h1, h2, t[0]);
      var b1 := f(idx, h1, Some(t[0]));
      var b2 := f(idx, h2, b1.slots);
      var hh1 := g(idx, b1.out);
      var hh2 := g(idx, b2.out);
      assert Joins(g, d, idx, b1.out, b2.out);
      // and so are the blocks after it
      TailConcat(f, g, d, useCache, oa, oh, idx + 1, hh1, hh2, t[1..]);
      var q1 := TailFrom(f, g, d, useCache, oa, oh, idx + 1, hh1, t[1..]);
      var q2 := TailFrom(f, g, d, useCache, oa, oh, idx + 1, hh2, q1.state.value);
      assert ([b1.slots.value] + q1.state.value)[1..] == q1.state.value;
      ConcatEachFront(oh, hh1, hh2, q1.hiddenStates, q2.hiddenStates);
      ConcatEachFront(oa, AttentionOf(b1), AttentionOf(b2), q1.attentions, q2.attentions);
    }
  }

  /** The collection over a sequence given in two chunks: with a state,
      running it over `h1 + h2` is running it over `h1` and then over `h2`
      from the state the first run leaves. */
  lemma StackChunks(lib: Library, blocks: seq<Block.Weights>, d: Dims, rescale: Rescale,
                    h1: seq<Vec>, h2: seq<Vec>, s: State,
                    useCache: bool, outputAttentions: bool, outputHidden: bool)
    requires Lawful(lib) && Shaped(blocks, d) && Valid(s, d)
    requires Rows(h1, d.hidden) && |h1| > 0 && Rows(h2, d.hidden) && |h2| > 0
    ensures Rows(h1 + h2, d.hidden)
    ensures var r1 := Stack(lib, blocks, d, rescale, h1, Some(s), useCache, outputAttentions, outputHidden);
            r1.state.Some? &&
            Joined(Stack(lib, blocks, d, rescale, h1 + h2, Some(s), useCache, outputAttentions, outputHidden),
                   r1, Stack(lib, blocks, d, rescale, h2, r1.state, useCache, outputAttentions, outputHidden))
  {
    var f := Blocks(lib, blocks, d, useCache, outputAttentions);
    var g := Halving(rescale, d);
    BlocksChain(lib, blocks, d, useCache, outputAttentions);
    HalvingChains(rescale, d);
    assert [] + s == s;
    BelowValid(d, [], s);
    TailConcat(f, g, d, useCache, outputAttentions, outputHidden, 0, h1, h2, s);
    LoopIsTail(f, g, d, useCache, outputAttentions, outputHidden, 0, h1, [], s);
    LoopIsTail(f, g, d, useCache, outputAttentions, outputHidden, 0, h1 + h2, [], s);
    var t1 := TailFrom(f, g, d, useCache, outputAttentions, outputHidden, 0, h1, s).state.value;
    assert [] + t1 == t1;
    LoopIsTail(f, g, d, useCache, outputAttentions, outputHidden, 0, h2, [], t1);
  }
}
