/** `FlaxRwkvFeedForward`: token shift from the layer's feed-forward cache,
    time-mix, a squared-ReLU key projection, and a sigmoid gate. The sublayer
    reads and writes only slot 0 of one layer's entries. */
module FeedForward {
  import opened Base
  import opened TokenShift
  import opened LayerState
  import opened Mixing

  /** The sublayer's learned parameters; the projections (`nn.Dense`) are
      functions on vectors. */
  datatype Weights = Weights(mixKey: Vec, mixReceptance: Vec,
                             key: Vec -> Vec, receptance: Vec -> Vec, value: Vec -> Vec)

  /** Parameter shapes: the key projection widens to the intermediate size,
      the value projection narrows back, the gate keeps the hidden width. */
  ghost predicate Shaped(w: Weights, d: Dims)
  {
    && |w.mixKey| == d.hidden && |w.mixReceptance| == d.hidden
    && MapsWidth(w.key, d.hidden, d.intermediate)
    && MapsWidth(w.receptance, d.hidden, d.hidden)
    && MapsWidth(w.value, d.intermediate, d.hidden)
  }

  /** The sublayer's output and the layer's entries after the call. */
  datatype Result = Result(out: seq<Vec>, slots: Option<LayerSlots>)

  /** The feed-forward shift cache of a layer, if there is a state. */
  function ShiftCache(slots: Option<LayerSlots>): Option<Vec>
  {
    if slots.Some? then Some(slots.value.ffShift) else None
  }

  /** The values `value(square(relu(key(mix))))` at every timestep. */
  function Values(w: Weights, d: Dims, hidden: seq<Vec>, shifted: seq<Vec>): (r: seq<Vec>)
    requires Shaped(w, d) && Rows(hidden, d.hidden) && Rows(shifted, d.hidden) && |shifted| == |hidden|
    ensures |r| == |hidden| && Rows(r, d.hidden)
  {
    var k := Elementwise(SquaredRelu, Project(w.key, w.mixKey, hidden, shifted, d.intermediate));
    assert Rows(k, d.intermediate);
    MapRows(w.value, k)
  }

  /** The gate `sigmoid(receptance(mix))` at every timestep. */
  function Gate(lib: Library, w: Weights, d: Dims, hidden: seq<Vec>, shifted: seq<Vec>): (r: seq<Vec>)
    requires Shaped(w, d) && Rows(hidden, d.hidden) && Rows(shifted, d.hidden) && |shifted| == |hidden|
    ensures |r| == |hidden| && Rows(r, d.hidden)
  {
    Elementwise(lib.sigmoid, Project(w.receptance, w.mixReceptance, hidden, shifted, d.hidden))
  }

  /** The gated output for a sequence whose first timestep follows `cache`
      (zero when there is none). */
  function Output(lib: Library, w: Weights, d: Dims, hidden: seq<Vec>, cache: Option<Vec>): (r: seq<Vec>)
    requires Shaped(w, d) && Rows(hidden, d.hidden)
    requires cache.Some? ==> |cache.value| == d.hidden
    ensures |r| == |hidden| && Rows(r, d.hidden)
  {
    var shifted := Shifted(hidden, cache, Zeros(d.hidden));
    Combine(Mul, Gate(lib, w, d, hidden, shifted), Values(w, d, hidden, shifted))
  }

  /** `FlaxRwkvFeedForward.__call__` on one layer's entries: an output of the
      hidden width; with a state, the feed-forward shift cache becomes the
      last timestep and every other slot of the layer is unchanged; without
      one, nothing is written. */
  function Call(lib: Library, w: Weights, d: Dims, hidden: seq<Vec>, slots: Option<LayerSlots>): (r: Result)
    requires Shaped(w, d) && Rows(hidden, d.hidden) && |hidden| > 0
    requires slots.Some? ==> SlotsValid(slots.value, d)
    ensures |r.out| == |hidden| && Rows(r.out, d.hidden)
    ensures r.slots.Some? <==> slots.Some?
    ensures r.slots.Some? ==> r.slots.value == slots.value.(ffShift := Last(hidden))
    ensures r.slots.Some? ==> SlotsValid(r.slots.value, d)
  {
    var written := if slots.Some? then Some(slots.value.(ffShift := Last(hidden))) else None;
    Result(Output(lib, w, d, hidden, ShiftCache(slots)), written)
  }

  /** Chunked calls compose: with a state, running the sublayer over
      `h1 + h2` gives the outputs of running it over `h1` and then over `h2`
      from the entries the first call leaves, and the same final entries. */
  lemma CallConcat(lib: Library, w: Weights, d: Dims, h1: seq<Vec>, h2: seq<Vec>, slots: LayerSlots)
    requires Shaped(w, d)
    requires Rows(h1, d.hidden) && |h1| > 0 && Rows(h2, d.hidden) && |h2| > 0
    requires SlotsValid(slots, d)
    ensures Rows(h1 + h2, d.hidden)
    ensures var r1 := Call(lib, w, d, h1, Some(slots));
            var r2 := Call(lib, w, d, h2, r1.slots);
            Call(lib, w, d, h1 + h2, Some(slots)) == Result(r1.out + r2.out, r2.slots)
  {
    RowsConcat(h1, h2, d.hidden);
    OutputConcat(lib, w, d, h1, h2, Some(slots.ffShift));
    var s1 := slots.(ffShift := Last(h1));
    assert ShiftCache(Some(s1)) == Some(Last(h1));
    assert Last(h1 + h2) == Last(h2);
  }

  lemma ValuesConcat(w: Weights, d: Dims, h1: seq<Vec>, s1: seq<Vec>, h2: seq<Vec>, s2: seq<Vec>)
    requires Shaped(w, d)
    requires Rows(h1, d.hidden) && Rows(s1, d.hidden) && |s1| == |h1|
    requires Rows(h2, d.hidden) && Rows(s2, d.hidden) && |s2| == |h2|
    ensures Rows(h1 + h2, d.hidden) && Rows(s1 + s2, d.hidden)
    ensures Values(w, d, h1 + h2, s1 + s2) == Values(w, d, h1, s1) + Values(w, d, h2, s2)
  {
    RowsConcat(h1, h2, d.hidden);
    RowsConcat(s1, s2, d.hidden);
    var k1 := Project(w.key, w.mixKey, h1, s1, d.intermediate);
    var k2 := Project(w.key, w.mixKey, h2, s2, d.intermediate);
    ProjectConcat(w.key, w.mixKey, h1, s1, h2, s2, d.intermediate);
    ElementwiseConcat(SquaredRelu, k1, k2);
    MapRowsConcat(w.value, Elementwise(SquaredRelu, k1), Elementwise(SquaredRelu, k2));
  }

  lemma GateConcat(lib: Library, w: Weights, d: Dims, h1: seq<Vec>, s1: seq<Vec>, h2: seq<Vec>, s2: seq<Vec>)
    requires Shaped(w, d)
    requires Rows(h1, d.hidden) && Rows(s1, d.hidden) && |s1| == |h1|
    requires Rows(h2, d.hidden) && Rows(s2, d.hidden) && |s2| == |h2|
    ensures Rows(h1 + h2, d.hidden) && Rows(s1 + s2, d.hidden)
    ensures Gate(lib, w, d, h1 + h2, s1 + s2) == Gate(lib, w, d, h1, s1) + Gate(lib, w, d, h2, s2)
  {
    RowsConcat(h1, h2, d.hidden);
    RowsConcat(s1, s2, d.hidden);
    ProjectConcat(w.receptance, w.mixReceptance, h1, s1, h2, s2, d.hidden);
    ElementwiseConcat(lib.sigmoid, Project(w.receptance, w.mixReceptance, h1, s1, d.hidden),
                      Project(w.receptance, w.mixReceptance, h2, s2, d.hidden));
  }

  /** The output over a concatenation is the outputs of the chunks, the
      second chunk following the first chunk's last timestep. */
  lemma OutputConcat(lib: Library, w: Weights, d: Dims, h1: seq<Vec>, h2: seq<Vec>, cache: Option<Vec>)
    requires Shaped(w, d)
    requires Rows(h1, d.hidden) && |h1| > 0 && Rows(h2, d.hidden)
    requires cache.Some? ==> |cache.value| == d.hidden
    ensures Rows(h1 + h2, d.hidden)
    ensures Output(lib, w, d, h1 + h2, cache) == Output(lib, w, d, h1, cache) + Output(lib, w, d, h2, Some(Last(h1)))
  {
    RowsConcat(h1, h2, d.hidden);
    var z := Zeros(d.hidden);
    var sh1 := Shifted(h1, cache, z);
    var sh2 := Shifted(h2, Some(Last(h1)), z);
    ShiftConcat(h1, h2, cache, z);
    ValuesConcat(w, d, h1, sh1, h2, sh2);
    GateConcat(lib, w, d, h1, sh1, h2, sh2);
    CombineConcat(Mul, Gate(lib, w, d, h1, sh1), Values(w, d, h1, sh1), Gate(lib, w, d, h2, sh2), Values(w, d, h2, sh2));
  }
}
