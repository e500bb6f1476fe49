/** Places where the source, as written, does not do what the rest of it
    relies on, each modelled as written next to the corrected definition the
    rest of the model uses. */
module Findings {
  import opened Base
  import opened TokenShift
  import opened LayerState
  import opened Mixing

  // ---------------------------------------------------------------------
  // The attention's shifted sequence

  /** `jnp.pad(hidden, ((0, 0), (1, 0), (0, 1)))` on one batch row, as
      written in `extract_key_value`: a zero timestep in front and a zero
      channel after the last one of every timestep, with every timestep
      kept. */
  function PadAsWritten(hidden: seq<Vec>, n: nat): (r: seq<Vec>)
    requires Rows(hidden, n)
    ensures |r| == |hidden| + 1 && Rows(r, n + 1)
    ensures r[0] == Zeros(n + 1)
    ensures forall t :: 0 <= t < |hidden| ==> r[t + 1] == hidden[t] + [0.0]
  {
    [Zeros(n + 1)] + seq(|hidden|, t requires 0 <= t < |hidden| => hidden[t] + [0.0])
  }

  /** The padded sequence as written never has the hidden sequence's shape
      (one timestep more, one channel more), so the mixes
      `hidden * mix + shifted * (1 - mix)` cannot be formed from it; the
      corrected shift has that shape for every input. */
  lemma PadAsWrittenMisshapen(hidden: seq<Vec>, n: nat)
    requires Rows(hidden, n)
    ensures |PadAsWritten(hidden, n)| != |hidden|
    ensures |hidden| > 0 ==> |PadAsWritten(hidden, n)[1]| != |hidden[0]|
    ensures |Shifted(hidden, None, Zeros(n))| == |hidden|
    ensures forall t :: 0 <= t < |hidden| ==> |Shifted(hidden, None, Zeros(n))[t]| == n
  {
    var s := Shifted(hidden, None, Zeros(n));
    forall t | 0 <= t < |hidden| ensures |s[t]| == n {
      if t > 0 {
        assert s[t] == hidden[t - 1];
      }
    }
  }

  /** Two timesteps of one channel: the pad as written gives three
      timesteps of two channels, the intended shift `[0], [1]`. */
  lemma PadAsWrittenExample()
    ensures Rows([[1.0], [2.0]], 1)
    ensures PadAsWritten([[1.0], [2.0]], 1) == [[0.0, 0.0], [1.0, 0.0], [2.0, 0.0]]
    ensures Shifted([[1.0], [2.0]], None, Zeros(1)) == [[0.0], [1.0]]
  {
    var h: seq<Vec> := [[1.0], [2.0]];
    var p := PadAsWritten(h, 1);
    assert Zeros(2) == [0.0, 0.0];
    assert h[0] + [0.0] == [1.0, 0.0] && h[1] + [0.0] == [2.0, 0.0];
    assert p[0] == [0.0, 0.0] && p[1] == [1.0, 0.0] && p[2] == [2.0, 0.0];
    assert Shifted(h, None, Zeros(1))[0] == [0.0];
  }

  // ---------------------------------------------------------------------
  // The feed-forward's shifted sequence

  /** An array of shape [B, T, C] as nested sequences. */
  ghost predicate Cube(x: seq<seq<Vec>>, t: nat, c: nat)
  {
    forall b :: 0 <= b < |x| ==> |x[b]| == t && Rows(x[b], c)
  }

  /** A vector with `w.0` zeros in front and `w.1` zeros after it. */
  function PadVec(v: Vec, w: (nat, nat)): (r: Vec)
    ensures |r| == w.0 + |v| + w.1
  {
    Zeros(w.0) + v + Zeros(w.1)
  }

  /** The (before, after) pair for each of the three axes: the pairs as
      given when there are three, and a single pair broadcast to every axis,
      as `jnp.pad` broadcasts a `pad_width` of shape (1, 2). */
  function AxisPairs(widths: seq<(nat, nat)>): (r: seq<(nat, nat)>)
    requires |widths| == 1 || |widths| == 3
    ensures |r| == 3
    ensures forall i :: 0 <= i < 3 ==> r[i] == widths[if |widths| == 1 then 0 else i]
  {
    if |widths| == 1 then [widths[0], widths[0], widths[0]] else widths
  }

  /** One batch row [T, C] padded by `wt` on the timestep axis and `wc` on
      the channel axis. */
  function PadRows(rows: seq<Vec>, c: nat, wt: (nat, nat), wc: (nat, nat)): (r: seq<Vec>)
    requires Rows(rows, c)
    ensures |r| == wt.0 + |rows| + wt.1 && Rows(r, wc.0 + c + wc.1)
  {
    var cw := wc.0 + c + wc.1;
    seq(wt.0, _ => Zeros(cw))
    + seq(|rows|, i requires 0 <= i < |rows| => PadVec(rows[i], wc))
    + seq(wt.1, _ => Zeros(cw))
  }

  /** `jnp.pad(x, pad_width=widths, mode="constant", constant_values=0)` on
      an array of shape [B, T, C], for a `pad_width` given as a list of
      (before, after) pairs: one pair per axis, or one pair for every axis;
      any other number of pairs is rejected. Every axis is then extended by
      zero entries on both sides. */
  function Pad3(x: seq<seq<Vec>>, t: nat, c: nat, widths: seq<(nat, nat)>): (r: Option<seq<seq<Vec>>>)
    requires Cube(x, t, c)
    ensures r.Some? <==> |widths| == 3 || |widths| == 1
    ensures r.Some? ==> var w := AxisPairs(widths);
                        |r.value| == w[0].0 + |x| + w[0].1 &&
                        Cube(r.value, w[1].0 + t + w[1].1, w[2].0 + c + w[2].1)
  {
    if |widths| != 3 && |widths| != 1 then None
    else
      var w := AxisPairs(widths);
      var zeroRow := PadRows(seq(t, _ => Zeros(c)), c, w[1], w[2]);
      var rows := seq(|x|, b requires 0 <= b < |x| => PadRows(x[b], c, w[1], w[2]));
      Some(seq(w[0].0, _ => zeroRow) + rows + seq(w[0].1, _ => zeroRow))
  }

  /** A single pair pads every axis: `[(1, 1)]` on a [1, 1, 1] array gives
      a [3, 3, 3] array whose middle row of the middle block is `[0, 5, 0]`. */
  lemma PadOnePairExample()
    ensures Cube([[[5.0]]], 1, 1)
    ensures var r := Pad3([[[5.0]]], 1, 1, [(1, 1)]);
            r.Some? && |r.value| == 3 && Cube(r.value, 3, 3) && r.value[1][1] == [0.0, 5.0, 0.0]
  {
    var r := Pad3([[[5.0]]], 1, 1, [(1, 1)]).value;
    assert r[1][1] == PadVec([5.0], (1, 1));
  }

  /** The attention's pad widths `((0, 0), (1, 0), (0, 1))` pad every batch
      row as `PadAsWritten` does. */
  lemma AttentionPadRows(x: seq<seq<Vec>>, t: nat, c: nat)
    requires Cube(x, t, c)
    ensures var r := Pad3(x, t, c, [(0, 0), (1, 0), (0, 1)]);
            r.Some? && |r.value| == |x| &&
            forall b :: 0 <= b < |x| ==> r.value[b] == PadAsWritten(x[b], c)
  {
    var r := Pad3(x, t, c, [(0, 0), (1, 0), (0, 1)]).value;
    forall b | 0 <= b < |x| ensures r[b] == PadAsWritten(x[b], c) {
      assert r[b] == PadRows(x[b], c, (1, 0), (0, 1));
      PadRow(x[b], c);
    }
  }

  /** One row of the attention's pad: a zero timestep, then every timestep
      with a zero channel appended. */
  lemma PadRow(row: seq<Vec>, c: nat)
    requires Rows(row, c)
    ensures PadRows(row, c, (1, 0), (0, 1)) == PadAsWritten(row, c)
  {
    var l := PadRows(row, c, (1, 0), (0, 1));
    var p := PadAsWritten(row, c);
    assert Zeros(0) == [];
    forall i | 0 <= i < |p| ensures l[i] == p[i] {
      if i > 0 {
        assert l[i] == PadVec(row[i - 1], (0, 1)) == row[i - 1] + [0.0];
      }
    }
  }

  /** The feed-forward shift as written at :270-275: four (before, after)
      pairs for the three axes of `hidden`, so the pad is rejected on every
      input, and the slow path (more than one timestep, or no state) never
      produces a shifted sequence. */
  function FeedForwardPadAsWritten(hidden: seq<seq<Vec>>, t: nat, c: nat): (r: Option<seq<seq<Vec>>>)
    requires Cube(hidden, t, c)
    ensures r.None?
  {
    Pad3(hidden, t, c, [(0, 0), (0, 0), (1, 0), (0, 1)])
  }

  /** One row of two one-channel timesteps: the feed-forward pad as written
      is rejected, the intended shift is `[0], [1]`. */
  lemma FeedForwardPadExample()
    ensures Cube([[[1.0], [2.0]]], 2, 1)
    ensures FeedForwardPadAsWritten([[[1.0], [2.0]]], 2, 1) == None
    ensures Shifted([[1.0], [2.0]], None, Zeros(1)) == [[0.0], [1.0]]
  {
    assert Shifted([[1.0], [2.0]], None, Zeros(1))[0] == [0.0];
  }

  // ---------------------------------------------------------------------
  // The single-timestep fast path on a batch

  /** The fast-path mix `hidden * mix + shifted * (1 - mix)` of
      `extract_key_value` (:158-159) and of the feed-forward call (:267-268)
      as written, on a batch of B rows: `hidden` has shape [B, 1, H] and the
      cache slice `state[i][:, :, layer_id]` has shape [B, H]. Broadcasting
      aligns the trailing axes, so the cache's batch axis lands on the
      timestep axis: the result has shape [B, B, H], and row b's timestep t
      mixes row b's hidden vector with row t's cache. */
  function FastMixAsWritten(hidden: seq<seq<Vec>>, cache: seq<Vec>, mix: Vec): (r: seq<seq<Vec>>)
    requires Cube(hidden, 1, |mix|) && |cache| == |hidden| && Rows(cache, |mix|)
    ensures |r| == |hidden| && Cube(r, |cache|, |mix|)
  {
    seq(|hidden|, b requires 0 <= b < |hidden| =>
      seq(|cache|, t requires 0 <= t < |cache| => Mix(hidden[b][0], cache[t], mix)))
  }

  /** At batch size 1 the fast path as written is the intended one: the
      row's timestep mixed with the row's shifted sequence. */
  lemma FastMixOneRow(hidden: seq<seq<Vec>>, cache: seq<Vec>, mix: Vec)
    requires Cube(hidden, 1, |mix|) && |cache| == |hidden| == 1 && Rows(cache, |mix|)
    ensures FastMixAsWritten(hidden, cache, mix)
            == [[Mix(hidden[0][0], Shifted(hidden[0], Some(cache[0]), Zeros(|mix|))[0], mix)]]
  {
    var r := FastMixAsWritten(hidden, cache, mix);
    assert Shifted(hidden[0], Some(cache[0]), Zeros(|mix|))[0] == cache[0];
    assert r[0] == [Mix(hidden[0][0], cache[0], mix)];
  }

  /** With more than one row, every row of the fast path as written has B
      timesteps instead of one, and the second of them mixes row 0 with row
      1's cache. */
  lemma FastMixCrossesRows(hidden: seq<seq<Vec>>, cache: seq<Vec>, mix: Vec)
    requires Cube(hidden, 1, |mix|) && |cache| == |hidden| > 1 && Rows(cache, |mix|)
    ensures var r := FastMixAsWritten(hidden, cache, mix);
            && (forall b :: 0 <= b < |r| ==> |r[b]| != |hidden[b]|)
            && r[0][1] == Mix(hidden[0][0], cache[1], mix)
  {
  }

  /** Two rows of one channel, hidden 1 and 2, caches 10 and 20, mixing
      coefficient 1/2: as written each row gets two timesteps, 5.5 and 10.5
      for row 0; the intended per-row shift gives 5.5 for row 0 and 11 for
      row 1. */
  lemma FastMixExample()
    ensures Cube([[[1.0]], [[2.0]]], 1, 1) && Rows([[10.0], [20.0]], 1)
    ensures FastMixAsWritten([[[1.0]], [[2.0]]], [[10.0], [20.0]], [0.5])
            == [[[5.5], [10.5]], [[6.0], [11.0]]]
    ensures Mix([1.0], Shifted([[1.0]], Some([10.0]), Zeros(1))[0], [0.5]) == [5.5]
    ensures Mix([2.0], Shifted([[2.0]], Some([20.0]), Zeros(1))[0], [0.5]) == [11.0]
  {
    var r := FastMixAsWritten([[[1.0]], [[2.0]]], [[10.0], [20.0]], [0.5]);
    assert r[0][0] == Mix([1.0], [10.0], [0.5]) == [5.5];
    assert r[0][1] == Mix([1.0], [20.0], [0.5]) == [10.5];
    assert r[1][0] == Mix([2.0], [10.0], [0.5]) == [6.0];
    assert r[1][1] == Mix([2.0], [20.0], [0.5]) == [11.0];
    assert r[0] == [[5.5], [10.5]] && r[1] == [[6.0], [11.0]];
  }

  // ---------------------------------------------------------------------
  // The kernel's widths

  /** NumPy broadcasting of two axis lengths: equal lengths, or one of them
      1, give the other one; any other pair is rejected. */
  function Broadcast(a: nat, b: nat): (r: Option<nat>)
    ensures r.Some? <==> a == b || a == 1 || b == 1
    ensures r.Some? ==> (r.value == a || r.value == b) && (r.value == 1 ==> a == 1 && b == 1)
  {
    if a == b || b == 1 then Some(a) else if a == 1 then Some(b) else None
  }

  /** A value of length `w` can be stored into a slice of length `target`. */
  predicate Assignable(w: nat, target: nat)
  {
    w == target || w == 1
  }

  /** The channel width of the kernel's per-step arrays as written: the key
      is `attention_hidden_size` wide (the `nn.Dense` of :128-134), while
      `time_first` and `time_decay` (:98-100) and the factory's maximum
      (:478) are `hidden_size` wide; `current_key + time_first` (:57) and
      then `max_state + time_decay` (:64) are broadcast. */
  function KernelWidthAsWritten(d: Dims): (r: Option<nat>)
    ensures r.Some? <==> d.attention == d.hidden || d.attention == 1 || d.hidden == 1
  {
    var sum := Broadcast(d.attention, d.hidden);
    if sum.None? then None else Broadcast(d.hidden, sum.value)
  }

  /** As written, a kernel step fits both the attention-wide output row it
      writes at :62 and the hidden-wide state slots it is written back into
      at :202-204 exactly when the two widths are equal. */
  lemma KernelWidthsFit(d: Dims)
    ensures var w := KernelWidthAsWritten(d);
            (w.Some? && Assignable(w.value, d.attention) && Assignable(w.value, d.hidden))
            <==> d.attention == d.hidden
  {
  }

  /** Hidden width 3: an attention width of 2 does not broadcast against the
      bonus at :57, and one of 1 broadcasts to a 3-wide step that does not
      fit the 1-wide output row. */
  lemma KernelWidthExample()
    ensures KernelWidthAsWritten(Dims(3, 2, 4, 1)).None?
    ensures KernelWidthAsWritten(Dims(3, 1, 4, 1)) == Some(3) && !Assignable(3, 1)
  {
  }

  // ---------------------------------------------------------------------
  // The state factory

  /** The factory as written in `FlaxRwkvModule.__call__`: all five slots
      `hidden_size` wide, zeros except the running maxima. */
  function NewStateAsWritten(d: Dims): (s: State)
    ensures |s| == d.layers
    ensures forall l :: 0 <= l < |s| ==> |s[l].num| == d.hidden && |s[l].max| == d.hidden
  {
    var layer0 := LayerSlots(Zeros(d.hidden), Zeros(d.hidden), Zeros(d.hidden), Zeros(d.hidden),
                             Fill(d.hidden, StateSentinel));
    seq(d.layers, l => layer0)
  }

  /** As written, the factory's state fits the configuration exactly when
      there are no layers or the attention width is the hidden width. */
  lemma NewStateAsWrittenValid(d: Dims)
    ensures Valid(NewStateAsWritten(d), d) <==> d.layers == 0 || d.attention == d.hidden
  {
    var s := NewStateAsWritten(d);
    if d.layers > 0 && d.attention != d.hidden {
      assert |s[0].num| != d.attention;
      assert !SlotsValid(s[0], d);
    }
  }

  /** Where the two widths agree, the corrected factory is the factory as
      written. */
  lemma NewStateAgrees(d: Dims)
    requires d.attention == d.hidden
    ensures NewState(d) == NewStateAsWritten(d)
  {
    var a, b := NewState(d), NewStateAsWritten(d);
    forall l | 0 <= l < d.layers ensures a[l] == b[l] {
      assert a[l].max == Fill(d.attention, StateSentinel);
    }
  }

  /** A configuration with a narrower attention: the state as written does
      not fit it, the corrected one does. */
  lemma NewStateExample()
    ensures var d := Dims(2, 1, 4, 1);
            !Valid(NewStateAsWritten(d), d) && Valid(NewState(d), d)
  {
    NewStateAsWrittenValid(Dims(2, 1, 4, 1));
  }
}
