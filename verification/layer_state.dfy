/** The recurrent state carried between calls: five slots per layer.

      slot 0  feed-forward shift cache   (width hidden)
      slot 1  attention shift cache      (width hidden)
      slot 2  WKV numerators             (width attention)
      slot 3  WKV denominators           (width attention)
      slot 4  WKV running maxima         (width attention)

    The source keeps five arrays with the layer as the trailing axis and
    writes one layer's column in place. The model stores the same data layer
    by layer, so a write to one layer is a sequence update at that index and
    "nothing else changes" is a statement about the other indices. */
module LayerState {
  import opened Base
  import opened Wkv

  /** The initial running maximum of a freshly created state, -1e30 (the
      kernel's own no-state value is `Wkv.NoStateMax`, -1e38). */
  const StateSentinel: real := -1000000000000000000000000000000.0

  /** The widths a configuration fixes. */
  datatype Dims = Dims(hidden: nat, attention: nat, intermediate: nat, layers: nat)

  /** One layer's entries of the five slots. */
  datatype LayerSlots = LayerSlots(ffShift: Vec, attnShift: Vec, num: Vec, den: Vec, max: Vec)

  /** The whole state, indexed by layer. */
  type State = seq<LayerSlots>

  /** Slot `i` of one layer, numbered as in the source's list. */
  function SlotOf(l: LayerSlots, i: nat): Vec
    requires i < 5
  {
    match i
    case 0 => l.ffShift
    case 1 => l.attnShift
    case 2 => l.num
    case 3 => l.den
    case _ => l.max
  }

  /** One layer's entries have the configured widths, and its denominators,
      being sums of positive weights, are not negative. */
  ghost predicate SlotsValid(l: LayerSlots, d: Dims)
  {
    && |l.ffShift| == d.hidden && |l.attnShift| == d.hidden
    && |l.num| == d.attention && |l.den| == d.attention && |l.max| == d.attention
    && forall c :: 0 <= c < d.attention ==> 0.0 <= l.den[c]
  }

  /** A state for every layer of the configuration. */
  ghost predicate Valid(s: State, d: Dims)
  {
    |s| == d.layers && forall l :: 0 <= l < |s| ==> SlotsValid(s[l], d)
  }

  /** The factory: zeros everywhere except the running maxima, which start
      at the sentinel. */
  function NewState(d: Dims): (s: State)
    ensures Valid(s, d)
    ensures forall l, i, c :: 0 <= l < |s| && 0 <= i < 4 && 0 <= c < |SlotOf(s[l], i)| ==> SlotOf(s[l], i)[c] == 0.0
    ensures forall l, c :: 0 <= l < |s| && 0 <= c < d.attention ==> s[l].max[c] == StateSentinel
  {
    var layer0 := LayerSlots(Zeros(d.hidden), Zeros(d.hidden), Zeros(d.attention), Zeros(d.attention),
                            Fill(d.attention, StateSentinel));
    seq(d.layers, l => layer0)
  }

  // ---------------------------------------------------------------------
  // The WKV part of a layer's entries, as the kernel sees it

  /** Slots 2-4 of one layer, as the kernel's per-channel accumulators. */
  function Accumulators(l: LayerSlots): (r: seq<Acc>)
    requires |l.den| == |l.num| && |l.max| == |l.num|
    ensures |r| == |l.num|
    ensures forall c :: 0 <= c < |r| ==> r[c] == Acc(l.num[c], l.den[c], l.max[c])
  {
    seq(|l.num|, c requires 0 <= c < |l.num| => Acc(l.num[c], l.den[c], l.max[c]))
  }

  /** Slots 2-4 of one layer overwritten with the kernel's accumulators; the
      shift caches are kept, and reading the accumulators back gives what was
      written. */
  function WithAccumulators(l: LayerSlots, acc: seq<Acc>): (r: LayerSlots)
    ensures r.ffShift == l.ffShift && r.attnShift == l.attnShift
    ensures |r.num| == |acc| && |r.den| == |acc| && |r.max| == |acc|
    ensures Accumulators(r) == acc
  {
    var r := LayerSlots(l.ffShift, l.attnShift,
                        seq(|acc|, c requires 0 <= c < |acc| => acc[c].num),
                        seq(|acc|, c requires 0 <= c < |acc| => acc[c].den),
                        seq(|acc|, c requires 0 <= c < |acc| => acc[c].max));
    assert Accumulators(r) == acc;
    r
  }

  /** Writing back the accumulators just read changes nothing. */
  lemma AccumulatorsRoundTrip(l: LayerSlots)
    requires |l.den| == |l.num| && |l.max| == |l.num|
    ensures WithAccumulators(l, Accumulators(l)) == l
  {
    var r := WithAccumulators(l, Accumulators(l));
    assert r.num == l.num && r.den == l.den && r.max == l.max;
  }

  /** Overwriting a shift cache does not change the accumulators. */
  lemma AccumulatorsIgnoreShifts(l: LayerSlots, ff: Vec, attn: Vec)
    requires |l.den| == |l.num| && |l.max| == |l.num|
    ensures Accumulators(l.(ffShift := ff)) == Accumulators(l)
    ensures Accumulators(l.(attnShift := attn)) == Accumulators(l)
  {
  }

  /** Writing accumulators keeps a layer valid exactly when they have the
      attention width and non-negative denominators. */
  lemma WithAccumulatorsValid(l: LayerSlots, acc: seq<Acc>, d: Dims)
    requires SlotsValid(l, d)
    ensures SlotsValid(WithAccumulators(l, acc), d) <==> |acc| == d.attention && DenNonNeg(acc)
  {
    var r := WithAccumulators(l, acc);
    if SlotsValid(r, d) {
      forall c | 0 <= c < |acc| ensures 0.0 <= acc[c].den {
        assert Accumulators(r)[c] == acc[c];
      }
    }
    if |acc| == d.attention && DenNonNeg(acc) {
      forall c | 0 <= c < d.attention ensures 0.0 <= r.den[c] {
        assert Accumulators(r)[c] == acc[c];
      }
    }
  }

  /** The accumulators of a fresh layer: no history, and the sentinel as the
      running maximum. */
  lemma NewStateAccumulators(d: Dims, l: nat)
    requires l < d.layers
    ensures Accumulators(NewState(d)[l]) == seq(d.attention, c => Acc(0.0, 0.0, StateSentinel))
  {
  }

  // ---------------------------------------------------------------------
  // Writing one layer

  /** Layer `layer`'s entries replaced by `slots`; every other layer's
      entries are unchanged, and validity is kept. */
  function WriteLayer(s: State, layer: nat, slots: LayerSlots): (r: State)
    requires layer < |s|
    ensures |r| == |s| && r[layer] == slots
    ensures forall l :: 0 <= l < |s| && l != layer ==> r[l] == s[l]
    ensures forall d: Dims :: Valid(s, d) && SlotsValid(slots, d) ==> Valid(r, d)
  {
    s[layer := slots]
  }

  /** Writing back what was read leaves the state as it was. */
  lemma WriteReadBack(s: State, layer: nat)
    requires layer < |s|
    ensures WriteLayer(s, layer, s[layer]) == s
  {
  }

  /** A second write to the same layer supersedes the first. */
  lemma WriteOverwrite(s: State, layer: nat, a: LayerSlots, b: LayerSlots)
    requires layer < |s|
    ensures WriteLayer(WriteLayer(s, layer, a), layer, b) == WriteLayer(s, layer, b)
  {
  }

  /** Writes to different layers commute. */
  lemma WritesCommute(s: State, i: nat, j: nat, a: LayerSlots, b: LayerSlots)
    requires i < |s| && j < |s| && i != j
    ensures WriteLayer(WriteLayer(s, i, a), j, b) == WriteLayer(WriteLayer(s, j, b), i, a)
  {
  }
}
