/** `FlaxRwkvModule` and the generation helper of the pretrained wrapper:
    argument defaulting, the input validation, the embedding, the state
    factory on first use, the block collection and the final layer norm;
    and the inputs prepared for each generation step. */
module RwkvModel {
  import opened Base
  import opened LayerState
  import opened Mixing
  import Block
  import BlockStack

  /** The configuration values the module falls back on when an argument
      is left out. */
  datatype Config = Config(useCache: bool, outputAttentions: bool, outputHiddenStates: bool, rescaleEvery: int)

  /** The module's parameters: the token embedding (`nn.Embed`, a function
      from token ids to vectors), the blocks and the final layer norm. */
  datatype Weights = Weights(embed: nat -> Vec, blocks: seq<Block.Weights>, lnOut: Vec -> Vec)

  ghost predicate Shaped(w: Weights, d: Dims)
  {
    && (forall id: nat :: |w.embed(id)| == d.hidden)
    && BlockStack.Shaped(w.blocks, d) && MapsWidth(w.lnOut, d.hidden, d.hidden)
  }

  // ---------------------------------------------------------------------
  // Argument defaulting

  /** `x if x is not None else default`. */
  function OrDefault(x: Option<bool>, default: bool): bool
  {
    if x.Some? then x.value else default
  }

  /** The `use_cache` rule of the module and of the collection: an explicit
      value wins; otherwise the configured value, and only outside
      deterministic mode. */
  function ResolveUseCache(useCache: Option<bool>, config: bool, deterministic: bool): (r: bool)
    ensures r <==> useCache == Some(true) || (useCache.None? && config && !deterministic)
  {
    if useCache.Some? then useCache.value else config && !deterministic
  }

  /** The collection resolves `use_cache` again from the value the module
      passes it, and gets that value back; with `deterministic` left at its
      default, caching is off unless asked for. */
  lemma ResolveUseCacheStable(useCache: Option<bool>, config: bool, deterministic: bool)
    ensures var r := ResolveUseCache(useCache, config, deterministic);
            ResolveUseCache(Some(r), config, deterministic) == r
    ensures !ResolveUseCache(useCache, config, true) <==> useCache != Some(true)
  {
  }

  // ---------------------------------------------------------------------
  // Input validation

  datatype Error =
    | BothInputs     // both `input_ids` and `inputs_embeds` given
    | NoInputs       // neither given
    | EmptySequence  // a sequence of no timesteps fed to a block (which indexes its last timestep)
    | NoLastToken    // `input_ids[:, -1]` on an empty token axis, when preparing a generation step

  datatype Outcome<T> = Success(value: T) | Failure(error: Error)

  /** The model's input: token ids or ready-made embeddings. */
  datatype Tokens = Ids(ids: seq<nat>) | Embeds(embeds: seq<Vec>)

  /** The number of timesteps of an input. */
  function Length(t: Tokens): nat
  {
    match t
    case Ids(ids) => |ids|
    case Embeds(e) => |e|
  }

  /** The two optional arguments a `Tokens` value is passed as. */
  function Arguments(t: Tokens): (Option<seq<nat>>, Option<seq<Vec>>)
  {
    match t
    case Ids(ids) => (Some(ids), None)
    case Embeds(e) => (None, Some(e))
  }

  /** The module's check that exactly one of the two inputs is given. */
  function Validate(inputIds: Option<seq<nat>>, inputsEmbeds: Option<seq<Vec>>): (r: Outcome<Tokens>)
    ensures r.Failure? <==> (inputIds.Some? <==> inputsEmbeds.Some?)
    ensures r.Failure? ==> (r.error == BothInputs <==> inputIds.Some?) && r.error != EmptySequence
    ensures r.Success? ==> Arguments(r.value) == (inputIds, inputsEmbeds)
  {
    if inputIds.Some? && inputsEmbeds.Some? then Failure(BothInputs)
    else if inputIds.None? && inputsEmbeds.None? then Failure(NoInputs)
    else if inputIds.Some? then Success(Ids(inputIds.value))
    else Success(Embeds(inputsEmbeds.value))
  }

  /** Validation accepts exactly the argument pairs that stand for an
      input, and gives that input back. */
  lemma ValidateArguments(t: Tokens, inputIds: Option<seq<nat>>, inputsEmbeds: Option<seq<Vec>>)
    ensures Validate(Arguments(t).0, Arguments(t).1) == Success(t)
    ensures Validate(inputIds, inputsEmbeds) == Success(t) <==> (inputIds, inputsEmbeds) == Arguments(t)
  {
  }

  // ---------------------------------------------------------------------
  // Embedding and the starting state

  /** The hidden sequence the blocks start from: the embedded ids, or the
      embeddings as given. */
  function Embed(w: Weights, t: Tokens): (e: seq<Vec>)
    ensures t.Ids? ==> |e| == |t.ids| && forall i :: 0 <= i < |e| ==> e[i] == w.embed(t.ids[i])
    ensures t.Embeds? ==> e == t.embeds
  {
    match t
    case Ids(ids) => Lookup(w.embed, ids)
    case Embeds(e) => e
  }

  /** Every embedded vector has the hidden width, and there is one per
      token. */
  lemma EmbedRows(w: Weights, d: Dims, t: Tokens)
    requires Shaped(w, d) && (t.Embeds? ==> Rows(t.embeds, d.hidden))
    ensures Rows(Embed(w, t), d.hidden)
    ensures |Embed(w, t)| == Length(t)
  {
  }

  /** The table's vectors for a sequence of ids. */
  function Lookup(table: nat -> Vec, ids: seq<nat>): (e: seq<Vec>)
    ensures |e| == |ids| && forall i :: 0 <= i < |e| ==> e[i] == table(ids[i])
  {
    if |ids| == 0 then [] else [table(ids[0])] + Lookup(table, ids[1..])
  }

  /** Embedding is per token, so it distributes over concatenation. */
  lemma EmbedConcat(w: Weights, ids1: seq<nat>, ids2: seq<nat>)
    ensures Embed(w, Ids(ids1 + ids2)) == Embed(w, Ids(ids1)) + Embed(w, Ids(ids2))
  {
    var l, r := Embed(w, Ids(ids1 + ids2)), Embed(w, Ids(ids1)) + Embed(w, Ids(ids2));
    forall i | 0 <= i < |l| ensures l[i] == r[i] {
      if i < |ids1| {
        assert (ids1 + ids2)[i] == ids1[i];
      } else {
        assert (ids1 + ids2)[i] == ids2[i - |ids1|];
      }
    }
  }

  /** The state the blocks run with: the given one, a fresh one from the
      factory when caching is on and none was given, and none otherwise.
      The source passes its shape to `jnp.zeros` unpacked (`*shape`); the
      model creates the arrays of that shape it evidently means. */
  function StartState(useCache: bool, state: Option<State>, d: Dims): (r: Option<State>)
    ensures r.Some? <==> useCache || state.Some?
    ensures state.Some? ==> r == state
    ensures state.None? && r.Some? ==> r.value == NewState(d)
    ensures r.None? ==> !useCache
  {
    if useCache && state.None? then Some(NewState(d)) else state
  }

  // ---------------------------------------------------------------------
  // The forward call

  /** The module's outputs: the normed last hidden sequence, the state, the
      hidden sequence after each block followed by the normed one (when
      asked for), and each block's attention output (when asked for). */
  datatype Output = Output(lastHiddenState: seq<Vec>, state: Option<State>,
                           hiddenStates: seq<seq<Vec>>, attentions: seq<seq<Vec>>)

  /** The input width fits the blocks. */
  ghost predicate Fits(d: Dims, inputsEmbeds: Option<seq<Vec>>)
  {
    inputsEmbeds.Some? ==> Rows(inputsEmbeds.value, d.hidden)
  }

  /** The outputs of a run from the collection's result. */
  function Assemble(w: Weights, d: Dims, ran: BlockStack.Result, outputHiddenStates: bool): (o: Output)
    requires MapsWidth(w.lnOut, d.hidden, d.hidden) && Rows(ran.out, d.hidden)
    ensures |o.lastHiddenState| == |ran.out| && Rows(o.lastHiddenState, d.hidden)
    ensures o.state == ran.state && o.attentions == ran.attentions
    ensures |o.hiddenStates| == |ran.hiddenStates| + (if outputHiddenStates then 1 else 0)
    ensures outputHiddenStates ==> o.hiddenStates[|ran.hiddenStates|] == o.lastHiddenState
  {
    var last := Norm(w.lnOut, ran.out, d.hidden);
    Output(last, ran.state, ran.hiddenStates + (if outputHiddenStates then [last] else []), ran.attentions)
  }

  /** The run on the embedded input. The returned state is the one the
      blocks leave: the source writes each layer's entries into the arrays
      of the list it returns. */
  function Run(lib: Library, w: Weights, d: Dims, config: Config, hidden: seq<Vec>, state: Option<State>,
               useCache: bool, outputAttentions: bool, outputHiddenStates: bool): (r: Outcome<Output>)
    requires Lawful(lib) && Shaped(w, d) && Rows(hidden, d.hidden)
    requires state.Some? ==> Valid(state.value, d)
    ensures r.Failure? <==> |hidden| == 0 && d.layers > 0
    ensures r.Failure? ==> r.error == EmptySequence
    ensures r.Success? ==>
              && |r.value.lastHiddenState| == |hidden| && Rows(r.value.lastHiddenState, d.hidden)
              && (r.value.state.Some? <==> useCache || state.Some?)
              && (r.value.state.Some? ==> Valid(r.value.state.value, d))
              && |r.value.hiddenStates| == (if outputHiddenStates then d.layers + 1 else 0)
              && (outputHiddenStates ==> r.value.hiddenStates[d.layers] == r.value.lastHiddenState)
              && |r.value.attentions| == (if outputAttentions then d.layers else 0)
  {
    if |hidden| == 0 && d.layers > 0 then Failure(EmptySequence)
    else
      var rescale := BlockStack.Rescale(BlockStack.InitiallyRescaled, config.rescaleEvery);
      var ran := BlockStack.Stack(lib, w.blocks, d, rescale, hidden, StartState(useCache, state, d),
                                  useCache, outputAttentions, outputHiddenStates);
      Success(Assemble(w, d, ran, outputHiddenStates))
  }

  /** The run on a validated input: embed it, and run the blocks and
      `ln_out` on the embeddings. */
  function RunTokens(lib: Library, w: Weights, d: Dims, config: Config, t: Tokens, state: Option<State>,
                     useCache: bool, outputAttentions: bool, outputHiddenStates: bool): (r: Outcome<Output>)
    requires Lawful(lib) && Shaped(w, d) && (t.Embeds? ==> Rows(t.embeds, d.hidden))
    requires state.Some? ==> Valid(state.value, d)
    ensures r.Failure? <==> Length(t) == 0 && d.layers > 0
    ensures r.Failure? ==> r.error == EmptySequence
    ensures r.Success? ==>
              && (r.value.state.Some? <==> useCache || state.Some?)
              && (r.value.state.Some? ==> Valid(r.value.state.value, d))
              && |r.value.hiddenStates| == (if outputHiddenStates then d.layers + 1 else 0)
              && |r.value.attentions| == (if outputAttentions then d.layers else 0)
  {
    EmbedRows(w, d, t);
    Run(lib, w, d, config, Embed(w, t), state, useCache, outputAttentions, outputHiddenStates)
  }

  /** `FlaxRwkvModule.__call__`: resolve the optional flags, reject a call
      with both or neither input, embed, and run. */
  function Forward(lib: Library, w: Weights, d: Dims, config: Config,
                   inputIds: Option<seq<nat>>, inputsEmbeds: Option<seq<Vec>>, state: Option<State>,
                   deterministic: bool, useCache: Option<bool>,
                   outputAttentions: Option<bool>, outputHiddenStates: Option<bool>): (r: Outcome<Output>)
    requires Lawful(lib) && Shaped(w, d) && Fits(d, inputsEmbeds)
    requires state.Some? ==> Valid(state.value, d)
    ensures (inputIds.Some? <==> inputsEmbeds.Some?) ==> r.Failure? && r.error != EmptySequence
    ensures inputIds.Some? && inputsEmbeds.Some? ==> r == Failure(BothInputs)
    ensures inputIds.None? && inputsEmbeds.None? ==> r == Failure(NoInputs)
    ensures inputIds.Some? && inputsEmbeds.None? ==> (r.Failure? <==> |inputIds.value| == 0 && d.layers > 0)
    ensures inputIds.None? && inputsEmbeds.Some? ==> (r.Failure? <==> |inputsEmbeds.value| == 0 && d.layers > 0)
    ensures r.Success? ==>
              var uc := ResolveUseCache(useCache, config.useCache, deterministic);
              && (r.value.state.Some? <==> uc || state.Some?)
              && (r.value.state.Some? ==> Valid(r.value.state.value, d))
              && |r.value.hiddenStates| == (if OrDefault(outputHiddenStates, config.outputHiddenStates) then d.layers + 1 else 0)
              && |r.value.attentions| == (if OrDefault(outputAttentions, config.outputAttentions) then d.layers else 0)
  {
    var oa := OrDefault(outputAttentions, config.outputAttentions);
    var oh := OrDefault(outputHiddenStates, config.outputHiddenStates);
    var uc := ResolveUseCache(useCache, config.useCache, deterministic);
    match Validate(inputIds, inputsEmbeds)
    case Failure(e) => Failure(e)
    case Success(t) => RunTokens(lib, w, d, config, t, state, uc, oa, oh)
  }

  // ---------------------------------------------------------------------
  // Properties of the forward call

  /** With no layers, the run is `ln_out` of the input, which may be empty:
      the state it starts with is returned, the hidden sequences are the
      normed one alone when asked for, and there are no attention outputs. */
  lemma RunNoLayers(lib: Library, w: Weights, d: Dims, config: Config, hidden: seq<Vec>, state: Option<State>,
                    useCache: bool, outputAttentions: bool, outputHiddenStates: bool)
    requires Lawful(lib) && Shaped(w, d) && Rows(hidden, d.hidden) && d.layers == 0
    requires state.Some? ==> Valid(state.value, d)
    ensures var r := Run(lib, w, d, config, hidden, state, useCache, outputAttentions, outputHiddenStates);
            var last := Norm(w.lnOut, hidden, d.hidden);
            r == Success(Output(last, StartState(useCache, state, d), if outputHiddenStates then [last] else [], []))
  {
    var rescale := BlockStack.Rescale(BlockStack.InitiallyRescaled, config.rescaleEvery);
    var ran := BlockStack.Stack(lib, w.blocks, d, rescale, hidden, StartState(useCache, state, d),
                                useCache, outputAttentions, outputHiddenStates);
    assert ran == BlockStack.Result(hidden, StartState(useCache, state, d), [], []);
    assert Run(lib, w, d, config, hidden, state, useCache, outputAttentions, outputHiddenStates)
        == Success(Assemble(w, d, ran, outputHiddenStates));
    var last := Norm(w.lnOut, hidden, d.hidden);
    assert Assemble(w, d, ran, outputHiddenStates).hiddenStates == (if outputHiddenStates then [last] else []);
  }

  /** Without a state and with caching on, the call is the call on a fresh
      state from the factory. */
  lemma FreshStateIsFactory(lib: Library, w: Weights, d: Dims, config: Config, hidden: seq<Vec>,
                            outputAttentions: bool, outputHiddenStates: bool)
    requires Lawful(lib) && Shaped(w, d) && Rows(hidden, d.hidden)
    ensures Run(lib, w, d, config, hidden, None, true, outputAttentions, outputHiddenStates)
         == Run(lib, w, d, config, hidden, Some(NewState(d)), true, outputAttentions, outputHiddenStates)
  {
  }

  /** Per-block concatenation with one more collected sequence at the end
      of both runs. */
  lemma ConcatEachSnoc(xs: seq<seq<Vec>>, ys: seq<seq<Vec>>, x: seq<Vec>, y: seq<Vec>)
    requires |ys| == |xs|
    ensures BlockStack.ConcatEach(xs + [x], ys + [y]) == BlockStack.ConcatEach(xs, ys) + [x + y]
  {
    var l, r := BlockStack.ConcatEach(xs + [x], ys + [y]), BlockStack.ConcatEach(xs, ys) + [x + y];
    forall i | 0 <= i < |l| ensures l[i] == r[i] {
      BlockStack.ConcatEachAt(xs + [x], ys + [y], i);
      if i < |xs| {
        BlockStack.ConcatEachAt(xs, ys, i);
      }
    }
  }

  /** `r` is the call `r1` followed by the call `r2` on the rest of the
      sequence: concatenated outputs, the second call's state, and per
      block the concatenated collected sequences. */
  ghost predicate Continues(r: Output, r1: Output, r2: Output)
  {
    && r.lastHiddenState == r1.lastHiddenState + r2.lastHiddenState && r.state == r2.state
    && |r2.hiddenStates| == |r1.hiddenStates| && r.hiddenStates == BlockStack.ConcatEach(r1.hiddenStates, r2.hiddenStates)
    && |r2.attentions| == |r1.attentions| && r.attentions == BlockStack.ConcatEach(r1.attentions, r2.attentions)
  }

  /** A run on a non-empty sequence of embeddings is the collection on it,
      assembled. */
  lemma RunIsStack(lib: Library, w: Weights, d: Dims, config: Config, e: seq<Vec>, state: Option<State>,
                   useCache: bool, outputAttentions: bool, outputHiddenStates: bool)
    requires Lawful(lib) && Shaped(w, d) && Rows(e, d.hidden) && |e| > 0
    requires state.Some? ==> Valid(state.value, d)
    ensures var st := StartState(useCache, state, d);
            var ran := BlockStack.Stack(lib, w.blocks, d, BlockStack.Rescale(BlockStack.InitiallyRescaled, config.rescaleEvery),
                                        e, st, useCache, outputAttentions, outputHiddenStates);
            Run(lib, w, d, config, e, state, useCache, outputAttentions, outputHiddenStates)
              == Success(Assemble(w, d, ran, outputHiddenStates))
  {
  }

  /** Assembling two joined runs of the collection gives two calls that
      continue each other. */
  lemma AssembleJoined(w: Weights, d: Dims, r: BlockStack.Result, r1: BlockStack.Result, r2: BlockStack.Result,
                       outputHiddenStates: bool)
    requires MapsWidth(w.lnOut, d.hidden, d.hidden)
    requires Rows(r1.out, d.hidden) && Rows(r2.out, d.hidden) && BlockStack.Joined(r, r1, r2)
    ensures Rows(r.out, d.hidden)
    ensures Continues(Assemble(w, d, r, outputHiddenStates), Assemble(w, d, r1, outputHiddenStates),
                      Assemble(w, d, r2, outputHiddenStates))
  {
    RowsConcat(r1.out, r2.out, d.hidden);
    MapRowsConcat(w.lnOut, r1.out, r2.out);
    if outputHiddenStates {
      ConcatEachSnoc(r1.hiddenStates, r2.hiddenStates,
                     Norm(w.lnOut, r1.out, d.hidden), Norm(w.lnOut, r2.out, d.hidden));
    } else {
      assert r.hiddenStates + [] == r.hiddenStates;
      assert r1.hiddenStates + [] == r1.hiddenStates && r2.hiddenStates + [] == r2.hiddenStates;
    }
  }

  /** Incremental decoding is correct: with a state, the call on `e1 + e2`
      is the call on `e1` followed by the call on `e2` from the state the
      first call returns. */
  lemma RunChunks(lib: Library, w: Weights, d: Dims, config: Config, e1: seq<Vec>, e2: seq<Vec>, s: State,
                  useCache: bool, outputAttentions: bool, outputHiddenStates: bool)
    requires Lawful(lib) && Shaped(w, d) && Valid(s, d)
    requires Rows(e1, d.hidden) && |e1| > 0 && Rows(e2, d.hidden) && |e2| > 0
    ensures Rows(e1 + e2, d.hidden)
    ensures var r1 := Run(lib, w, d, config, e1, Some(s), useCache, outputAttentions, outputHiddenStates);
            var r := Run(lib, w, d, config, e1 + e2, Some(s), useCache, outputAttentions, outputHiddenStates);
            && r1.Success? && r1.value.state.Some? && r.Success?
            && var r2 := Run(lib, w, d, config, e2, r1.value.state, useCache, outputAttentions, outputHiddenStates);
               r2.Success? && Continues(r.value, r1.value, r2.value)
  {
    var rescale := BlockStack.Rescale(BlockStack.InitiallyRescaled, config.rescaleEvery);
    BlockStack.StackChunks(lib, w.blocks, d, rescale, e1, e2, s, useCache, outputAttentions, outputHiddenStates);
    var s1 := BlockStack.Stack(lib, w.blocks, d, rescale, e1, Some(s), useCache, outputAttentions, outputHiddenStates);
    var s2 := BlockStack.Stack(lib, w.blocks, d, rescale, e2, s1.state, useCache, outputAttentions, outputHiddenStates);
    var st := BlockStack.Stack(lib, w.blocks, d, rescale, e1 + e2, Some(s), useCache, outputAttentions, outputHiddenStates);
    RunIsStack(lib, w, d, config, e1, Some(s), useCache, outputAttentions, outputHiddenStates);
    RunIsStack(lib, w, d, config, e2, s1.state, useCache, outputAttentions, outputHiddenStates);
    RunIsStack(lib, w, d, config, e1 + e2, Some(s), useCache, outputAttentions, outputHiddenStates);
    AssembleJoined(w, d, st, s1, s2, outputHiddenStates);
  }

  // ---------------------------------------------------------------------
  // Generation

  /** The arguments of one generation step's model call. */
  datatype ModelInputs = ModelInputs(inputIds: Option<seq<nat>>, inputsEmbeds: Option<seq<Vec>>, state: Option<State>)

  /** `prepare_inputs_for_generation`: with a state, only the last token is
      fed (the state holds the rest), as a sequence of one token (the
      source's `.unsqueeze(-1)`, a PyTorch idiom, keeps that axis);
      embeddings are fed only on a call without a state. With a state and
      no token there is no last token to take, and the call fails. */
  function PrepareInputsForGeneration(inputIds: seq<nat>, state: Option<State>, inputsEmbeds: Option<seq<Vec>>): (r: Outcome<ModelInputs>)
    ensures r.Failure? <==> state.Some? && |inputIds| == 0
    ensures r.Failure? ==> r.error == NoLastToken
    ensures r.Success? ==>
              var p := r.value;
              && p.state == state
              && (p.inputsEmbeds.Some? <==> inputsEmbeds.Some? && state.None?)
              && (p.inputsEmbeds.Some? ==> p.inputsEmbeds == inputsEmbeds)
              && (p.inputIds.Some? <==> p.inputsEmbeds.None?)
              && (p.inputIds.Some? && state.Some? ==> p.inputIds.value == [inputIds[|inputIds| - 1]])
              && (p.inputIds.Some? && state.None? ==> p.inputIds.value == inputIds)
  {
    if state.Some? && |inputIds| == 0 then Failure(NoLastToken)
    else
      var ids := if state.Some? then inputIds[|inputIds| - 1..] else inputIds;
      if inputsEmbeds.Some? && state.None? then Success(ModelInputs(None, inputsEmbeds, state))
      else Success(ModelInputs(Some(ids), None, state))
  }

  /** Prepared inputs always pass the module's validation. */
  lemma PreparedInputsValidate(inputIds: seq<nat>, state: Option<State>, inputsEmbeds: Option<seq<Vec>>)
    ensures var p := PrepareInputsForGeneration(inputIds, state, inputsEmbeds);
            p.Success? ==> Validate(p.value.inputIds, p.value.inputsEmbeds).Success?
  {
  }

  /** A call with token ids is the run on their embeddings with the
      resolved flags. */
  lemma ForwardIds(lib: Library, w: Weights, d: Dims, config: Config, ids: seq<nat>, state: Option<State>,
                   deterministic: bool, useCache: Option<bool>,
                   outputAttentions: Option<bool>, outputHiddenStates: Option<bool>)
    requires Lawful(lib) && Shaped(w, d) && (state.Some? ==> Valid(state.value, d))
    ensures Rows(Embed(w, Ids(ids)), d.hidden)
    ensures Forward(lib, w, d, config, Some(ids), None, state, deterministic, useCache, outputAttentions, outputHiddenStates)
         == Run(lib, w, d, config, Embed(w, Ids(ids)), state, ResolveUseCache(useCache, config.useCache, deterministic),
                OrDefault(outputAttentions, config.outputAttentions), OrDefault(outputHiddenStates, config.outputHiddenStates))
  {
  }

  /** The inputs prepared for a step after a call that returned a state
      are the newest token alone, with that state. */
  lemma PreparedStep(ids: seq<nat>, next: nat, state: State)
    ensures PrepareInputsForGeneration(ids + [next], Some(state), None) == Success(ModelInputs(Some([next]), None, Some(state)))
  {
    assert (ids + [next])[|ids + [next]| - 1..] == [next];
  }

  /** Feeding one more token to a call that returned a state continues the
      call on the whole sequence: after the call on `ids` from state `s`,
      the call on `[next]` from the returned state gives the last timestep
      of the call on `ids + [next]` from `s`, and the same state. */
  lemma ForwardChunks(lib: Library, w: Weights, d: Dims, config: Config, ids: seq<nat>, next: seq<nat>, s: State,
                      deterministic: bool, useCache: Option<bool>,
                      outputAttentions: Option<bool>, outputHiddenStates: Option<bool>)
    requires Lawful(lib) && Shaped(w, d) && Valid(s, d) && |ids| > 0 && |next| > 0
    ensures var r1 := Forward(lib, w, d, config, Some(ids), None, Some(s), deterministic, useCache, outputAttentions, outputHiddenStates);
            && r1.Success? && r1.value.state.Some?
            && var r2 := Forward(lib, w, d, config, Some(next), None, r1.value.state,
                                 deterministic, useCache, outputAttentions, outputHiddenStates);
               var r := Forward(lib, w, d, config, Some(ids + next), None, Some(s),
                                deterministic, useCache, outputAttentions, outputHiddenStates);
               r.Success? && r2.Success? && Continues(r.value, r1.value, r2.value)
  {
    var oa := OrDefault(outputAttentions, config.outputAttentions);
    var oh := OrDefault(outputHiddenStates, config.outputHiddenStates);
    var uc := ResolveUseCache(useCache, config.useCache, deterministic);
    var e1, e2 := Embed(w, Ids(ids)), Embed(w, Ids(next));
    EmbedConcat(w, ids, next);
    ForwardIds(lib, w, d, config, ids, Some(s), deterministic, useCache, outputAttentions, outputHiddenStates);
    ForwardIds(lib, w, d, config, ids + next, Some(s), deterministic, useCache, outputAttentions, outputHiddenStates);
    RunChunks(lib, w, d, config, e1, e2, s, uc, oa, oh);
    var r1 := Run(lib, w, d, config, e1, Some(s), uc, oa, oh);
    ForwardIds(lib, w, d, config, next, r1.value.state, deterministic, useCache, outputAttentions, outputHiddenStates);
    assert Forward(lib, w, d, config, Some(ids), None, Some(s), deterministic, useCache, outputAttentions, outputHiddenStates) == r1;
    assert Forward(lib, w, d, config, Some(ids + next), None, Some(s), deterministic, useCache, outputAttentions, outputHiddenStates)
        == Run(lib, w, d, config, e1 + e2, Some(s), uc, oa, oh);
    assert Forward(lib, w, d, config, Some(next), None, r1.value.state, deterministic, useCache, outputAttentions, outputHiddenStates)
        == Run(lib, w, d, config, e2, r1.value.state, uc, oa, oh);
  }

  /** One generation step continues the prefill: after the call on `ids`
      from state `s`, the call on the inputs prepared for `ids + [next]`
      from the returned state gives the last timestep of the call on
      `ids + [next]` from `s`, and the same state. */
  lemma DecodeStep(lib: Library, w: Weights, d: Dims, config: Config, ids: seq<nat>, next: nat, s: State,
                   deterministic: bool, useCache: Option<bool>,
                   outputAttentions: Option<bool>, outputHiddenStates: Option<bool>)
    requires Lawful(lib) && Shaped(w, d) && Valid(s, d) && |ids| > 0
    ensures var r1 := Forward(lib, w, d, config, Some(ids), None, Some(s), deterministic, useCache, outputAttentions, outputHiddenStates);
            && r1.Success? && r1.value.state.Some?
            && var p := PrepareInputsForGeneration(ids + [next], r1.value.state, None);
               && p.Success?
               && var r2 := Forward(lib, w, d, config, p.value.inputIds, p.value.inputsEmbeds, p.value.state,
                                    deterministic, useCache, outputAttentions, outputHiddenStates);
                  var r := Forward(lib, w, d, config, Some(ids + [next]), None, Some(s),
                                   deterministic, useCache, outputAttentions, outputHiddenStates);
                  r.Success? && r2.Success? && Continues(r.value, r1.value, r2.value)
  {
    ForwardChunks(lib, w, d, config, ids, [next], s, deterministic, useCache, outputAttentions, outputHiddenStates);
    var r1 := Forward(lib, w, d, config, Some(ids), None, Some(s), deterministic, useCache, outputAttentions, outputHiddenStates);
    PreparedStep(ids, next, r1.value.state.value);
  }
}
