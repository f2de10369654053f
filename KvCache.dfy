/**
 * Key/value cache bookkeeping of a decoder state (src/models/kv_cache.cpp).
 *
 * A cache owns one past and one present tensor per key and per value of every layer. `Add` reserves
 * a contiguous window of slots for them at the end of the state's input and output lists and
 * records where the window starts; `Update` moves the presents into the pasts after a step and
 * rewrites only that window. With beam search the new past of each layer is gathered from the
 * present block by block, following the beam indices (`PickPastState`).
 */
module KvCache {
  import opened Wrappers
  import opened Tensors
  import Config

  // ---------------------------------------------------------------------------------------------
  // Block arithmetic

  /**
   * `n` blocks of `size` elements laid end to end, counted block by block: `n * size` elements
   * (`BlocksIsProduct`). Block `j` of a buffer starts at `Blocks(j, size)`.
   */
  function Blocks(n: nat, size: nat): nat
  {
    if n == 0 then 0 else Blocks(n - 1, size) + size
  }

  lemma {:induction false} BlocksIsProduct(n: nat, size: nat)
    ensures Blocks(n, size) == n * size
  {
    if n > 0 {
      BlocksIsProduct(n - 1, size);
    }
  }

  /** In a buffer of `count` blocks, block `j` fits. */
  lemma {:induction false} BlockFits(j: nat, count: nat, size: nat)
    requires j < count
    ensures Blocks(j, size) + size <= Blocks(count, size)
    decreases count
  {
    if j < count - 1 {
      BlockFits(j, count - 1, size);
    }
  }

  /**
   * The buffer gathered by a beam reorder: block `j` of the result is block `beams[j]` of `s`, a
   * buffer of `count` blocks of `size` elements each.
   */
  function Gather(s: seq<Scalar>, beams: seq<int>, size: nat, count: nat): (r: seq<Scalar>)
    requires |s| == Blocks(count, size)
    requires forall j :: 0 <= j < |beams| ==> 0 <= beams[j] < count
    ensures |r| == Blocks(|beams|, size)
    decreases |beams|
  {
    if beams == [] then []
    else
      var last := beams[|beams| - 1];
      BlockFits(last, count, size);
      Gather(s, beams[..|beams| - 1], size, count) + s[Blocks(last, size)..Blocks(last, size) + size]
  }

  /** Element `k` of block `j` of a gathered buffer is element `k` of block `beams[j]` of the source. */
  lemma {:induction false} GatherAt(s: seq<Scalar>, beams: seq<int>, size: nat, count: nat, j: nat, k: nat)
    requires |s| == Blocks(count, size)
    requires forall i :: 0 <= i < |beams| ==> 0 <= beams[i] < count
    requires j < |beams| && k < size
    ensures Blocks(j, size) + k < Blocks(|beams|, size)
    ensures Blocks(beams[j], size) + k < |s|
    ensures Gather(s, beams, size, count)[Blocks(j, size) + k] == s[Blocks(beams[j], size) + k]
    decreases |beams|
  {
    BlockFits(j, |beams|, size);
    BlockFits(beams[j], count, size);
    var init := beams[..|beams| - 1];
    if j < |beams| - 1 {
      GatherAt(s, init, size, count, j, k);
    }
  }

  /** Extending the beam list by one beam appends that beam's block. */
  lemma GatherSnoc(s: seq<Scalar>, beams: seq<int>, size: nat, count: nat, n: nat)
    requires |s| == Blocks(count, size)
    requires forall i :: 0 <= i < |beams| ==> 0 <= beams[i] < count
    requires n < |beams|
    ensures Blocks(beams[n], size) + size <= |s|
    ensures Gather(s, beams[..n + 1], size, count) ==
            Gather(s, beams[..n], size, count) + s[Blocks(beams[n], size)..Blocks(beams[n], size) + size]
  {
    BlockFits(beams[n], count, size);
    assert beams[..n + 1][..n] == beams[..n];
  }

  /**
   * `copy(source, destination)` on two spans of `len` elements: the destination window becomes the
   * source window and the rest of the destination buffer is kept.
   */
  method CopyBlock(src: array<Scalar>, srcStart: nat, dst: array<Scalar>, dstStart: nat, len: nat)
    requires src != dst
    requires srcStart + len <= src.Length && dstStart + len <= dst.Length
    modifies dst
    ensures dst[..] == Splice(old(dst[..]), dstStart, src[srcStart..srcStart + len])
  {
    var k := 0;
    while k < len
      invariant 0 <= k <= len
      invariant dst[..] == Splice(old(dst[..]), dstStart, src[srcStart..srcStart + k])
    {
      ghost var before := dst[..];
      dst[dstStart + k] := src[srcStart + k];
      SpliceStep(old(dst[..]), dstStart, src[srcStart..srcStart + k], src[srcStart + k]);
      assert dst[..] == before[dstStart + k := src[srcStart + k]];
      assert src[srcStart..srcStart + k] + [src[srcStart + k]] == src[srcStart..srcStart + k + 1];
      k := k + 1;
    }
  }

  /** Copying a block just after a gathered prefix (that starts at `base`) extends the prefix by the block. */
  lemma CopiedBlockExtends(before: seq<Scalar>, after: seq<Scalar>, block: seq<Scalar>, base: nat, at: nat, gathered: seq<Scalar>)
    requires base + at + |block| <= |before| && |gathered| == at
    requires before[base..base + at] == gathered
    requires after == Splice(before, base + at, block)
    ensures after[base..base + at + |block|] == gathered + block
  {
    SpliceElements(before, base + at, block);
    assert forall i :: 0 <= i < at + |block| ==> after[base..base + at + |block|][i] == (gathered + block)[i];
  }

  /** A window of a window is a window of the whole. */
  lemma SliceOfSlice(s: seq<Scalar>, from: nat, to: nat, lo: nat, hi: nat)
    requires from <= to <= |s| && lo <= hi <= to - from
    ensures s[from..to][lo..hi] == s[from + lo..from + hi]
  {
    assert forall i :: 0 <= i < hi - lo ==> s[from..to][lo..hi][i] == s[from + lo..from + hi][i];
  }

  /** A window of a prefix is the same window of the whole. */
  lemma SliceOfPrefix(s: seq<Scalar>, n: nat, lo: nat, hi: nat)
    requires lo <= hi <= n <= |s|
    ensures s[..n][lo..hi] == s[lo..hi]
  {
    assert forall i :: 0 <= i < hi - lo ==> s[..n][lo..hi][i] == s[lo..hi][i];
  }

  /** A copy into a window that starts at or after `n` keeps the first `n` elements. */
  lemma SplicePrefixKept(s: seq<Scalar>, at: nat, w: seq<Scalar>, n: nat)
    requires at + |w| <= |s| && n <= at
    ensures Splice(s, at, w)[..n] == s[..n]
  {
    SpliceElements(s, at, w);
    assert forall i :: 0 <= i < n ==> Splice(s, at, w)[..n][i] == s[..n][i];
  }

  /** A copy into one window leaves every range outside that window as it was. */
  lemma SpliceOutside(s: seq<Scalar>, at: nat, w: seq<Scalar>, lo: nat, hi: nat)
    requires at + |w| <= |s| && lo <= hi <= |s|
    requires hi <= at || at + |w| <= lo
    ensures Splice(s, at, w)[lo..hi] == s[lo..hi]
  {
    SpliceElements(s, at, w);
    assert forall i :: 0 <= i < hi - lo ==> Splice(s, at, w)[lo..hi][i] == s[lo..hi][i];
  }

  /** A rank-4 shape `[n, a, b, c]` holds `n` blocks of `a * b * c` elements. */
  lemma Count4(shape: seq<nat>)
    requires |shape| == 4
    ensures ElementCount(shape) == Blocks(shape[0], shape[1] * shape[2] * shape[3])
  {
    assert shape[1..][1..][1..][1..] == [];
    assert ElementCount(shape[1..][1..][1..]) == shape[3];
    assert ElementCount(shape[1..][1..]) == shape[2] * shape[3];
    assert ElementCount(shape[1..]) == shape[1] * (shape[2] * shape[3]);
    BlocksIsProduct(shape[0], shape[1] * shape[2] * shape[3]);
  }

  /** A rank-5 shape `[2, n, a, b, c]` holds a key half and a value half of `n` blocks of `a * b * c` elements. */
  lemma Count5(shape: seq<nat>)
    requires |shape| == 5 && shape[0] == 2
    ensures ElementCount(shape) == 2 * Blocks(shape[1], shape[2] * shape[3] * shape[4])
  {
    Count4(shape[1..]);
  }

  /** The beam indices of a reorder name existing beams, and there are no more of them than beams. */
  predicate BeamsFit(beams: seq<int>, count: nat)
  {
    |beams| <= count && forall j :: 0 <= j < |beams| ==> 0 <= beams[j] < count
  }

  /**
   * `past` is the reorder of `present` (both `count` blocks of `size` elements) by `beams`: its first
   * `|beams|` blocks are the gathered blocks; the blocks after them are left as allocated.
   */
  predicate Picked(past: seq<Scalar>, present: seq<Scalar>, beams: seq<int>, size: nat, count: nat)
  {
    && |present| == Blocks(count, size) && |past| == Blocks(count, size) && BeamsFit(beams, count)
    && Blocks(|beams|, size) <= |past|
    && past[..Blocks(|beams|, size)] == Gather(present, beams, size, count)
  }

  /** The element-wise reading of `Picked`: element `k` of past block `j` is element `k` of present block `beams[j]`. */
  lemma PickedAt(past: seq<Scalar>, present: seq<Scalar>, beams: seq<int>, size: nat, count: nat, j: nat, k: nat)
    requires Picked(past, present, beams, size, count)
    requires j < |beams| && k < size
    ensures j * size + k < |past| && beams[j] * size + k < |present|
    ensures past[j * size + k] == present[beams[j] * size + k]
  {
    GatherAt(present, beams, size, count, j, k);
    assert past[Blocks(j, size) + k] == past[..Blocks(|beams|, size)][Blocks(j, size) + k];
    BlocksIsProduct(j, size);
    BlocksIsProduct(beams[j], size);
  }

  // ---------------------------------------------------------------------------------------------
  // Layer names

  /** `a[0], b[0], a[1], b[1], ...`: the order in which key and value slots of each layer follow each other. */
  function Interleave<T>(a: seq<T>, b: seq<T>): (r: seq<T>)
    requires |a| == |b|
    ensures |r| == 2 * |a|
    decreases |a|
  {
    if a == [] then []
    else Interleave(a[..|a| - 1], b[..|b| - 1]) + [a[|a| - 1], b[|b| - 1]]
  }

  /** Slot `2 * i` holds `a[i]` and slot `2 * i + 1` holds `b[i]`. */
  lemma {:induction false} InterleaveAt<T>(a: seq<T>, b: seq<T>)
    requires |a| == |b|
    ensures forall i :: 0 <= i < |a| ==> Interleave(a, b)[2 * i] == a[i] && Interleave(a, b)[2 * i + 1] == b[i]
    decreases |a|
  {
    if a != [] {
      InterleaveAt(a[..|a| - 1], b[..|b| - 1]);
    }
  }

  /** Interleaving one more pair appends that pair. */
  lemma InterleaveSnoc<T>(a: seq<T>, b: seq<T>, i: nat)
    requires |a| == |b| && i < |a|
    ensures Interleave(a[..i + 1], b[..i + 1]) == Interleave(a[..i], b[..i]) + [a[i], b[i]]
  {
    assert a[..i + 1][..i] == a[..i] && b[..i + 1][..i] == b[..i];
  }

  /** Appending `a[i]` and then `b[i]` after the interleaving of the first `i` pairs interleaves `i + 1` pairs. */
  lemma AppendPair<T>(base: seq<T>, a: seq<T>, b: seq<T>, i: nat)
    requires |a| == |b| && i < |a|
    ensures base + Interleave(a[..i], b[..i]) + [a[i]] + [b[i]] == base + Interleave(a[..i + 1], b[..i + 1])
  {
    InterleaveSnoc(a, b, i);
    var w := Interleave(a[..i], b[..i]);
    assert base + w + [a[i]] + [b[i]] == base + (w + [a[i], b[i]]);
  }

  /** One name per layer: the pattern formatted with the layer number. */
  function PatternNames(layerName: (string, int) -> string, pattern: string, n: nat): (r: seq<string>)
    ensures |r| == n && forall i :: 0 <= i < n ==> r[i] == layerName(pattern, i)
  {
    seq(n, i => layerName(pattern, i))
  }

  /**
   * The names of a cache's per-layer slots: for every layer `i`, the key name and then the value name,
   * each the layer's pattern formatted with `i` (`snprintf` with the configured pattern).
   */
  function LayerNames(layerName: (string, int) -> string, keyPattern: string, valuePattern: string, n: nat): (r: seq<string>)
    ensures |r| == 2 * n
    ensures forall i :: 0 <= i < n ==> r[2 * i] == layerName(keyPattern, i) && r[2 * i + 1] == layerName(valuePattern, i)
  {
    InterleaveAt(PatternNames(layerName, keyPattern, n), PatternNames(layerName, valuePattern, n));
    Interleave(PatternNames(layerName, keyPattern, n), PatternNames(layerName, valuePattern, n))
  }

  /**
   * The copy loop of `PickPastState` on flat buffers of `count` blocks of `size` elements: block `j`
   * of `past` receives block `beams[j]` of `present`.
   */
  method GatherBlocks(present: array<Scalar>, past: array<Scalar>, beams: seq<int>, size: nat, count: nat)
    requires present != past
    requires present.Length == Blocks(count, size) && past.Length == Blocks(count, size)
    requires BeamsFit(beams, count)
    modifies past
    ensures Picked(past[..], present[..], beams, size, count)
  {
    var j: nat := 0;
    while j < |beams|
      invariant GatheredUpTo(past[..], present[..], beams, size, count, j)
    {
      GatherBlocksPass(present, past, beams, size, count, j);
      j := j + 1;
    }
    assert beams[..j] == beams;
  }

  /** The copy loop of `KV_Cache::PickPastState` after `j` passes: the first `j` blocks of `past` are gathered. */
  predicate GatheredUpTo(past: seq<Scalar>, present: seq<Scalar>, beams: seq<int>, size: nat, count: nat, j: nat)
  {
    && |present| == Blocks(count, size) && |past| == Blocks(count, size)
    && BeamsFit(beams, count) && j <= |beams| && Blocks(j, size) <= |past|
    && past[..Blocks(j, size)] == Gather(present, beams[..j], size, count)
  }

  /** One pass of the copy loop of `KV_Cache::PickPastState`: block `beams[j]` of `present` moves to block `j` of `past`. */
  method GatherBlocksPass(present: array<Scalar>, past: array<Scalar>, beams: seq<int>, size: nat, count: nat, j: nat)
    requires present != past
    requires GatheredUpTo(past[..], present[..], beams, size, count, j) && j < |beams|
    modifies past
    ensures GatheredUpTo(past[..], present[..], beams, size, count, j + 1)
  {
    BlockFits(beams[j], count, size);
    BlockFits(j, count, size);
    var lo, at := Blocks(beams[j], size), Blocks(j, size);
    ghost var before := past[..];
    CopyBlock(present, lo, past, at, size);
    BlockStep(before, past[..], present[..], beams, size, count, j, lo, at);
  }

  /** The sequence reasoning behind one pass of the copy loop of `KV_Cache::PickPastState`. */
  lemma BlockStep(before: seq<Scalar>, after: seq<Scalar>, present: seq<Scalar>, beams: seq<int>, size: nat, count: nat,
                  j: nat, lo: nat, at: nat)
    requires GatheredUpTo(before, present, beams, size, count, j) && j < |beams|
    requires lo == Blocks(beams[j], size) && lo + size <= |present|
    requires at == Blocks(j, size) && at + size <= |before|
    requires after == Splice(before, at, present[lo..lo + size])
    ensures GatheredUpTo(after, present, beams, size, count, j + 1)
  {
    assert Blocks(j + 1, size) == at + size;
    var block := present[lo..lo + size];
    var gathered := Gather(present, beams[..j], size, count);
    CopiedBlockExtendsPrefix(before, after, block, at, gathered);
    GatherSnoc(present, beams, size, count, j);
    assert after[..at + size] == gathered + block;
  }

  /** `CopiedBlockExtends` for a prefix: copying a block just after a gathered prefix extends the prefix by the block. */
  lemma CopiedBlockExtendsPrefix(before: seq<Scalar>, after: seq<Scalar>, block: seq<Scalar>, at: nat, gathered: seq<Scalar>)
    requires at + |block| <= |before| && |gathered| == at
    requires before[..at] == gathered
    requires after == Splice(before, at, block)
    ensures after[..at + |block|] == gathered + block
  {
    SpliceElements(before, at, block);
    assert forall i :: 0 <= i < at + |block| ==> after[..at + |block|][i] == (gathered + block)[i];
  }

  // ---------------------------------------------------------------------------------------------
  // KV_Cache: one past and one present per key and per value of every layer

  /** Elements per beam of a rank-4 cache shape `[batch_beam, heads, length, head_size]`. */
  function BlockSize(shape: seq<nat>): nat
    requires |shape| == 4
  {
    shape[1] * shape[2] * shape[3]
  }

  class KvCache {
    const state: Io
    const layerCount: nat
    /** `past_present_share_buffer_`: past and present share one buffer, so updates are not needed. */
    const shareBuffer: bool
    const emptyPast: Tensor
    const inputNameStrings: seq<string>
    const outputNameStrings: seq<string>
    var shape: seq<nat>
    var pasts: seq<Tensor?>
    var presents: seq<Tensor>
    var inputIndex: nat
    var outputIndex: nat

    ghost predicate Valid()
      reads this
    {
      && |shape| == 4
      && |pasts| == 2 * layerCount && |presents| == 2 * layerCount
      && |inputNameStrings| == 2 * layerCount && |outputNameStrings| == 2 * layerCount
      && forall i :: 0 <= i < |presents| ==> presents[i].shape == shape && presents[i].data.Length == ElementCount(shape)
    }

    /**
     * `KV_Cache::KV_Cache`: the empty past has length 0; the working length is then `max_length` when
     * past and present share a buffer and the prompt's sequence length otherwise. Names alternate
     * key and value, layer by layer.
     */
    constructor (state: Io, decoder: Config.Decoder, search: Config.Search, batchBeamSize: nat, sequenceLength: nat,
                 layerName: (string, int) -> string)
      requires decoder.numHiddenLayers >= 0 && decoder.numKeyValueHeads >= 0 && decoder.headSize >= 0
      requires search.maxLength >= 0
      ensures Valid() && this.state == state
      ensures layerCount == decoder.numHiddenLayers
      ensures shareBuffer <==> search.pastPresentShareBuffer && search.numBeams == 1
      ensures fresh(emptyPast) && emptyPast.shape == [batchBeamSize, decoder.numKeyValueHeads, 0, decoder.headSize]
      ensures shape == emptyPast.shape[2 := if shareBuffer then search.maxLength else sequenceLength]
      ensures inputNameStrings == LayerNames(layerName, decoder.inputs.pastKeyNames, decoder.inputs.pastValueNames, layerCount)
      ensures outputNameStrings == LayerNames(layerName, decoder.outputs.presentKeyNames, decoder.outputs.presentValueNames, layerCount)
      ensures pasts == Repeat(null, 2 * layerCount)
      ensures forall i :: 0 <= i < |presents| ==> fresh(presents[i])
    {
      var count: nat := decoder.numHiddenLayers;
      var share := search.pastPresentShareBuffer && search.numBeams == 1;
      var empty := new Tensor([batchBeamSize, decoder.numKeyValueHeads, 0, decoder.headSize]);
      var working := empty.shape[2 := if share then search.maxLength else sequenceLength];
      var made: seq<Tensor> := [];
      var i := 0;
      while i < 2 * count
        invariant 0 <= i <= 2 * count && |made| == i
        invariant forall k :: 0 <= k < i ==> fresh(made[k]) && made[k].shape == working && made[k].data.Length == ElementCount(working)
      {
        var t := new Tensor(working);
        made := made + [t];
        i := i + 1;
      }
      this.state := state;
      layerCount := count;
      shareBuffer := share;
      emptyPast := empty;
      inputNameStrings := LayerNames(layerName, decoder.inputs.pastKeyNames, decoder.inputs.pastValueNames, count);
      outputNameStrings := LayerNames(layerName, decoder.outputs.presentKeyNames, decoder.outputs.presentValueNames, count);
      shape := working;
      pasts := Repeat(null, 2 * count);
      presents := made;
    }

    /**
     * `KV_Cache::Add`: records where the window starts and appends one slot per name to all four
     * lists. The inputs get the empty past, or the presents themselves when the buffer is shared.
     */
    method Add()
      requires Valid() && state.Valid()
      modifies this`inputIndex, this`outputIndex, state
      ensures Valid() && state.Valid()
      ensures inputIndex == |old(state.inputs)| && outputIndex == |old(state.outputs)|
      ensures state.inputNames == old(state.inputNames) + inputNameStrings
      ensures state.outputNames == old(state.outputNames) + outputNameStrings
      ensures state.outputs == old(state.outputs) + presents
      ensures !shareBuffer ==> state.inputs == old(state.inputs) + Repeat(emptyPast, 2 * layerCount)
      ensures shareBuffer ==> state.inputs == old(state.inputs) + presents
      ensures shareBuffer ==> state.inputs[inputIndex..] == state.outputs[outputIndex..]
    {
      inputIndex := |state.inputs|;
      outputIndex := |state.outputs|;
      var i := 0;
      while i < 2 * layerCount
        invariant 0 <= i <= 2 * layerCount
        invariant inputIndex == |old(state.inputs)| && outputIndex == |old(state.outputs)|
        invariant state.inputs == old(state.inputs) + Repeat(emptyPast, i)
        invariant state.inputNames == old(state.inputNames) + inputNameStrings[..i]
        invariant state.outputs == old(state.outputs) + presents[..i]
        invariant state.outputNames == old(state.outputNames) + outputNameStrings[..i]
      {
        state.AddInput(inputNameStrings[i], emptyPast);
        state.AddOutput(outputNameStrings[i], presents[i]);
        assert inputNameStrings[..i + 1] == inputNameStrings[..i] + [inputNameStrings[i]];
        assert outputNameStrings[..i + 1] == outputNameStrings[..i] + [outputNameStrings[i]];
        assert presents[..i + 1] == presents[..i] + [presents[i]];
        i := i + 1;
      }
      assert inputNameStrings[..i] == inputNameStrings && outputNameStrings[..i] == outputNameStrings;
      assert presents[..i] == presents;
      if shareBuffer {
        ghost var added := state.inputs;
        i := 0;
        SpliceEmpty(added, inputIndex);
        while i < 2 * layerCount
          invariant 0 <= i <= 2 * layerCount
          invariant inputIndex == |old(state.inputs)| && |added| == inputIndex + 2 * layerCount
          invariant outputIndex == |old(state.outputs)| && state.outputs == old(state.outputs) + presents
          invariant state.inputNames == old(state.inputNames) + inputNameStrings
          invariant state.outputNames == old(state.outputNames) + outputNameStrings
          invariant state.inputs == Splice(added, inputIndex, presents[..i])
        {
          SpliceSnoc(added, inputIndex, presents, i);
          state.BindInput(inputIndex + i, presents[i]);
          i := i + 1;
        }
        assert presents[..i] == presents;
        assert state.inputs == old(state.inputs) + presents;
        assert state.inputs[inputIndex..] == presents;
      }
    }

    /** `KV_Cache::AddEncoder`: only the presents are bound, as outputs; no window is recorded. */
    method AddEncoder()
      requires Valid() && state.Valid()
      modifies state
      ensures state.Valid()
      ensures state.outputs == old(state.outputs) + presents
      ensures state.outputNames == old(state.outputNames) + outputNameStrings
      ensures state.inputs == old(state.inputs) && state.inputNames == old(state.inputNames)
    {
      var i := 0;
      while i < 2 * layerCount
        invariant 0 <= i <= 2 * layerCount
        invariant state.inputs == old(state.inputs) && state.inputNames == old(state.inputNames)
        invariant state.outputs == old(state.outputs) + presents[..i]
        invariant state.outputNames == old(state.outputNames) + outputNameStrings[..i]
      {
        state.AddOutput(outputNameStrings[i], presents[i]);
        assert outputNameStrings[..i + 1] == outputNameStrings[..i] + [outputNameStrings[i]];
        assert presents[..i + 1] == presents[..i] + [presents[i]];
        i := i + 1;
      }
      assert outputNameStrings[..i] == outputNameStrings && presents[..i] == presents;
    }

    /**
     * `KV_Cache::PickPastState`: a new past of the working shape whose leading blocks are the
     * present's blocks in beam order.
     */
    method PickPastState(beamIndices: seq<int>, index: nat)
      requires Valid() && index < |presents|
      requires BeamsFit(beamIndices, shape[0])
      modifies this`pasts
      ensures Valid()
      ensures pasts == old(pasts)[index := pasts[index]]
      ensures pasts[index] != null && fresh(pasts[index]) && pasts[index].shape == shape
      ensures Picked(pasts[index].data[..], presents[index].data[..], beamIndices, BlockSize(shape), shape[0])
    {
      Count4(shape);
      var past := new Tensor(shape);
      GatherBlocks(presents[index].data, past.data, beamIndices, BlockSize(shape), shape[0]);
      pasts := pasts[index := past];
    }

    /**
     * `KV_Cache::Update`: nothing to do when the buffer is shared. Otherwise every past becomes the
     * previous present (or its beam reorder), the working length becomes `currentLength`, fresh
     * presents are made, and only the cache's window of the input and output lists is rewritten.
     */
    method Update(beamIndices: seq<int>, currentLength: nat)
      requires Valid() && state.Valid()
      requires !shareBuffer ==> inputIndex + 2 * layerCount <= |state.inputs| && outputIndex + 2 * layerCount <= |state.outputs|
      requires !shareBuffer && beamIndices != [] ==> BeamsFit(beamIndices, shape[0])
      modifies this`shape, this`pasts, this`presents, state
      ensures Valid() && state.Valid()
      ensures state.inputNames == old(state.inputNames) && state.outputNames == old(state.outputNames)
      ensures shareBuffer ==> shape == old(shape) && pasts == old(pasts) && presents == old(presents)
      ensures shareBuffer ==> state.inputs == old(state.inputs) && state.outputs == old(state.outputs)
      ensures !shareBuffer ==> shape == old(shape)[2 := currentLength]
      ensures !shareBuffer && beamIndices == [] ==> pasts == old(presents)
      ensures !shareBuffer && beamIndices != [] ==>
        forall k :: 0 <= k < |pasts| ==>
          && pasts[k] != null && fresh(pasts[k]) && pasts[k].shape == old(shape)
          && Picked(pasts[k].data[..], old(presents)[k].data[..], beamIndices, BlockSize(old(shape)), old(shape)[0])
      ensures !shareBuffer ==> forall k :: 0 <= k < |presents| ==> fresh(presents[k])
      ensures !shareBuffer ==> state.inputs == Splice(old(state.inputs), inputIndex, pasts)
      ensures !shareBuffer ==> state.outputs == Splice(old(state.outputs), outputIndex, presents)
    {
      if shareBuffer {
        return;
      }
      MovePresentsToPasts(beamIndices);
      RenewPresents(currentLength);
    }

    /** The first loop of `KV_Cache::Update`: pasts from presents, and the input window rebound to them. */
    method MovePresentsToPasts(beamIndices: seq<int>)
      requires Valid() && state.Valid()
      requires inputIndex + 2 * layerCount <= |state.inputs|
      requires beamIndices != [] ==> BeamsFit(beamIndices, shape[0])
      modifies this`pasts, state
      ensures Valid() && state.Valid()
      ensures state.inputs == Splice(old(state.inputs), inputIndex, pasts)
      ensures state.outputs == old(state.outputs)
      ensures state.inputNames == old(state.inputNames) && state.outputNames == old(state.outputNames)
      ensures beamIndices == [] ==> pasts == presents
      ensures beamIndices != [] ==>
        forall k :: 0 <= k < |pasts| ==>
          && pasts[k] != null && fresh(pasts[k]) && pasts[k].shape == shape
          && Picked(pasts[k].data[..], presents[k].data[..], beamIndices, BlockSize(shape), shape[0])
    {
      var n := 2 * layerCount;
      SpliceEmpty(state.inputs, inputIndex);
      var i := 0;
      while i < n
        invariant 0 <= i <= n
        invariant Valid()
        invariant state.inputs == Splice(old(state.inputs), inputIndex, pasts[..i])
        invariant state.outputs == old(state.outputs)
        invariant state.inputNames == old(state.inputNames) && state.outputNames == old(state.outputNames)
        invariant beamIndices == [] ==> pasts[..i] == presents[..i]
        invariant beamIndices != [] ==>
          forall k :: 0 <= k < i ==>
            && pasts[k] != null && fresh(pasts[k]) && pasts[k].shape == shape
            && Picked(pasts[k].data[..], presents[k].data[..], beamIndices, BlockSize(shape), shape[0])
      {
        if beamIndices == [] {
          pasts := pasts[i := presents[i]];
        } else {
          PickPastState(beamIndices, i);
        }
        SpliceSnoc(old(state.inputs), inputIndex, pasts, i);
        state.BindInput(inputIndex + i, pasts[i]);
        i := i + 1;
      }
      assert pasts[..i] == pasts;
      assert presents[..i] == presents;
    }

    /** The second loop of `KV_Cache::Update`: fresh presents of the new length, bound to the output window. */
    method RenewPresents(currentLength: nat)
      requires |shape| == 4 && |presents| == 2 * layerCount && |pasts| == 2 * layerCount
      requires |inputNameStrings| == 2 * layerCount && |outputNameStrings| == 2 * layerCount
      requires state.Valid() && outputIndex + 2 * layerCount <= |state.outputs|
      modifies this`shape, this`presents, state
      ensures Valid() && state.Valid()
      ensures shape == old(shape)[2 := currentLength]
      ensures forall k :: 0 <= k < |presents| ==> fresh(presents[k])
      ensures state.outputs == Splice(old(state.outputs), outputIndex, presents)
      ensures state.inputs == old(state.inputs)
      ensures state.inputNames == old(state.inputNames) && state.outputNames == old(state.outputNames)
    {
      var n := 2 * layerCount;
      shape := shape[2 := currentLength];
      SpliceEmpty(state.outputs, outputIndex);
      var i := 0;
      while i < n
        invariant 0 <= i <= n && |presents| == n && |shape| == 4
        invariant shape == old(shape)[2 := currentLength]
        invariant forall k :: 0 <= k < i ==> fresh(presents[k]) && presents[k].shape == shape && presents[k].data.Length == ElementCount(shape)
        invariant state.inputs == old(state.inputs)
        invariant state.outputs == Splice(old(state.outputs), outputIndex, presents[..i])
        invariant state.inputNames == old(state.inputNames) && state.outputNames == old(state.outputNames)
      {
        var t := new Tensor(shape);
        assert presents[i := t][..i] == presents[..i];
        presents := presents[i := t];
        SpliceSnoc(old(state.outputs), outputIndex, presents, i);
        state.BindOutput(outputIndex + i, t);
        i := i + 1;
      }
      assert presents[..i] == presents;
    }
  }

  // ---------------------------------------------------------------------------------------------
  // KV_Cache_Combined: one past and one present per layer, keys and values in two halves

  /** Elements per beam of a combined shape `[2, batch_beam, heads, length, head_size]`. */
  function CombinedBlockSize(shape: seq<nat>): nat
    requires |shape| == 5
  {
    shape[2] * shape[3] * shape[4]
  }

  /** `Picked` for both halves of a combined buffer, each of `count` blocks of `size` elements. */
  predicate PickedHalves(past: seq<Scalar>, present: seq<Scalar>, beams: seq<int>, size: nat, count: nat)
  {
    && |past| == 2 * Blocks(count, size) && |present| == 2 * Blocks(count, size)
    && Picked(past[..Blocks(count, size)], present[..Blocks(count, size)], beams, size, count)
    && Picked(past[Blocks(count, size)..], present[Blocks(count, size)..], beams, size, count)
  }

  /**
   * Within the region of `count` blocks that starts at `base`: once block `beams[j]` of `present` is
   * copied right after a gathered prefix of `j` blocks, the prefix covers `j + 1` blocks.
   */
  lemma GatheredExtends(before: seq<Scalar>, after: seq<Scalar>, present: seq<Scalar>, base: nat,
                        beams: seq<int>, size: nat, count: nat, j: nat, lo: nat, at: nat)
    requires base + Blocks(count, size) <= |present| && base + Blocks(count, size) <= |before|
    requires BeamsFit(beams, count) && j < |beams|
    requires lo == Blocks(beams[j], size) && lo + size <= Blocks(count, size)
    requires at == Blocks(j, size) && at + size <= Blocks(count, size)
    requires before[base..base + at] == Gather(present[base..base + Blocks(count, size)], beams[..j], size, count)
    requires after == Splice(before, base + at, present[base + lo..base + lo + size])
    ensures after[base..base + at + size] == Gather(present[base..base + Blocks(count, size)], beams[..j + 1], size, count)
  {
    var gathered := Gather(present[base..base + Blocks(count, size)], beams[..j], size, count);
    CopiedBlockExtends(before, after, present[base + lo..base + lo + size], base, at, gathered);
    GatherRegionSnoc(present, base, beams, size, count, j, lo);
  }

  /** `GatherSnoc` for the region of `count` blocks that starts at `base`, with the block read from the whole buffer. */
  lemma GatherRegionSnoc(present: seq<Scalar>, base: nat, beams: seq<int>, size: nat, count: nat, j: nat, lo: nat)
    requires base + Blocks(count, size) <= |present|
    requires BeamsFit(beams, count) && j < |beams|
    requires lo == Blocks(beams[j], size) && lo + size <= Blocks(count, size)
    ensures Gather(present[base..base + Blocks(count, size)], beams[..j + 1], size, count) ==
            Gather(present[base..base + Blocks(count, size)], beams[..j], size, count) + present[base + lo..base + lo + size]
  {
    var region := present[base..base + Blocks(count, size)];
    SliceOfSlice(present, base, base + Blocks(count, size), lo, lo + size);
    GatherSnoc(region, beams, size, count, j);
  }

  /**
   * One pass of the combined copy loop: the block of `size` elements at `lo` of each half of `present`
   * lands at `at` of the same half of `past`; `mid` is `past` between the two copies.
   */
  method CopyBeamHalves(present: array<Scalar>, past: array<Scalar>, half: nat, size: nat, lo: nat, at: nat)
    returns (ghost mid: seq<Scalar>)
    requires present != past
    requires present.Length == 2 * half && past.Length == 2 * half
    requires lo + size <= half && at + size <= half
    modifies past
    ensures mid == Splice(old(past[..]), at, present[lo..lo + size])
    ensures past[..] == Splice(mid, half + at, present[half + lo..half + lo + size])
  {
    CopyBlock(present, lo, past, at, size);
    mid := past[..];
    CopyBlock(present, half + lo, past, half + at, size);
  }

  /** The sequence reasoning behind one pass of the combined copy loop; `half` is the size of each half. */
  lemma HalvesStep(before: seq<Scalar>, mid: seq<Scalar>, after: seq<Scalar>, present: seq<Scalar>,
                   beams: seq<int>, size: nat, count: nat, half: nat, j: nat, lo: nat, at: nat)
    requires half == Blocks(count, size)
    requires |present| == 2 * half && |before| == 2 * half
    requires BeamsFit(beams, count) && j < |beams|
    requires lo == Blocks(beams[j], size) && lo + size <= half
    requires at == Blocks(j, size) && at + size <= half
    requires before[..at] == Gather(present[..half], beams[..j], size, count)
    requires before[half..half + at] == Gather(present[half..2 * half], beams[..j], size, count)
    requires mid == Splice(before, at, present[lo..lo + size])
    requires after == Splice(mid, half + at, present[half + lo..half + lo + size])
    ensures after[..at + size] == Gather(present[..half], beams[..j + 1], size, count)
    ensures after[half..half + at + size] == Gather(present[half..2 * half], beams[..j + 1], size, count)
  {
    KeyHalfStep(before, mid, after, present, beams, size, count, half, j, lo, at);
    ValueHalfStep(before, mid, after, present, beams, size, count, half, j, lo, at);
  }

  lemma KeyHalfStep(before: seq<Scalar>, mid: seq<Scalar>, after: seq<Scalar>, present: seq<Scalar>,
                    beams: seq<int>, size: nat, count: nat, half: nat, j: nat, lo: nat, at: nat)
    requires half == Blocks(count, size)
    requires |present| == 2 * half && |before| == 2 * half
    requires BeamsFit(beams, count) && j < |beams|
    requires lo == Blocks(beams[j], size) && lo + size <= half
    requires at == Blocks(j, size) && at + size <= half
    requires before[..at] == Gather(present[..half], beams[..j], size, count)
    requires mid == Splice(before, at, present[lo..lo + size])
    requires after == Splice(mid, half + at, present[half + lo..half + lo + size])
    ensures after[..at + size] == Gather(present[..half], beams[..j + 1], size, count)
  {
    var block := present[lo..lo + size];
    var gathered := Gather(present[..half], beams[..j], size, count);
    CopiedBlockExtendsPrefix(before, mid, block, at, gathered);
    GatherPrefixSnoc(present, half, beams, size, count, j, lo);
    SplicePrefixKept(mid, half + at, present[half + lo..half + lo + size], at + size);
  }

  /** `GatherSnoc` for the first half of a buffer, with the block read from the whole buffer. */
  lemma GatherPrefixSnoc(present: seq<Scalar>, half: nat, beams: seq<int>, size: nat, count: nat, j: nat, lo: nat)
    requires half == Blocks(count, size) && half <= |present|
    requires BeamsFit(beams, count) && j < |beams|
    requires lo == Blocks(beams[j], size) && lo + size <= half
    ensures Gather(present[..half], beams[..j + 1], size, count) ==
            Gather(present[..half], beams[..j], size, count) + present[lo..lo + size]
  {
    GatherSnoc(present[..half], beams, size, count, j);
    SliceOfPrefix(present, half, lo, lo + size);
  }

  lemma ValueHalfStep(before: seq<Scalar>, mid: seq<Scalar>, after: seq<Scalar>, present: seq<Scalar>,
                      beams: seq<int>, size: nat, count: nat, half: nat, j: nat, lo: nat, at: nat)
    requires half == Blocks(count, size)
    requires |present| == 2 * half && |before| == 2 * half
    requires BeamsFit(beams, count) && j < |beams|
    requires lo == Blocks(beams[j], size) && lo + size <= half
    requires at == Blocks(j, size) && at + size <= half
    requires before[half..half + at] == Gather(present[half..2 * half], beams[..j], size, count)
    requires mid == Splice(before, at, present[lo..lo + size])
    requires after == Splice(mid, half + at, present[half + lo..half + lo + size])
    ensures after[half..half + at + size] == Gather(present[half..2 * half], beams[..j + 1], size, count)
  {
    SpliceOutside(before, at, present[lo..lo + size], half, half + at);
    GatheredExtends(mid, after, present, half, beams, size, count, j, lo, at);
  }

  /**
   * The copy loop of `KV_Cache_Combined::PickPastState` after `j` passes: the first `j` blocks of
   * each half of `past`, `at` elements, are the blocks `beams[..j]` of the same half of `present`.
   */
  predicate HalvesUpTo(past: seq<Scalar>, present: seq<Scalar>, beams: seq<int>, size: nat, count: nat, half: nat,
                       j: nat, at: nat)
  {
    && half == Blocks(count, size) && |past| == 2 * half && |present| == 2 * half
    && BeamsFit(beams, count) && j <= |beams| && at == Blocks(j, size) && at <= half
    && past[..at] == Gather(present[..half], beams[..j], size, count)
    && past[half..half + at] == Gather(present[half..2 * half], beams[..j], size, count)
  }

  /** After the last pass both halves are reordered. */
  lemma HalvesDone(past: seq<Scalar>, present: seq<Scalar>, beams: seq<int>, size: nat, count: nat, half: nat, at: nat)
    requires HalvesUpTo(past, present, beams, size, count, half, |beams|, at)
    ensures PickedHalves(past, present, beams, size, count)
  {
    assert beams[..|beams|] == beams;
    assert present[half..2 * half] == present[half..];
    assert past[..half][..at] == past[..at];
    assert past[half..][..at] == past[half..half + at];
  }

  /** One pass of the combined copy loop: block `beams[j]` of each half moves to block `j` of `past`. */
  method GatherHalvesPass(present: array<Scalar>, past: array<Scalar>, beams: seq<int>, size: nat, count: nat,
                          half: nat, j: nat, at: nat)
    requires present != past
    requires HalvesUpTo(past[..], present[..], beams, size, count, half, j, at) && j < |beams|
    modifies past
    ensures HalvesUpTo(past[..], present[..], beams, size, count, half, j + 1, at + size)
  {
    BlockFits(j, count, size);
    BlockFits(beams[j], count, size);
    ghost var before := past[..];
    var lo: nat := Blocks(beams[j], size);
    ghost var mid := CopyBeamHalves(present, past, half, size, lo, at);
    HalvesStep(before, mid, past[..], present[..], beams, size, count, half, j, lo, at);
  }

  /**
   * The copy loop of `KV_Cache_Combined::PickPastState`: buffers of a key half and a value half of
   * `count` blocks each; both halves are reordered by the same beams, independently.
   */
  method GatherHalves(present: array<Scalar>, past: array<Scalar>, beams: seq<int>, size: nat, count: nat)
    requires present != past
    requires present.Length == 2 * Blocks(count, size) && past.Length == 2 * Blocks(count, size)
    requires BeamsFit(beams, count)
    modifies past
    ensures PickedHalves(past[..], present[..], beams, size, count)
  {
    var half := Blocks(count, size);
    var j: nat, at: nat := 0, 0;
    while j < |beams|
      invariant HalvesUpTo(past[..], present[..], beams, size, count, half, j, at)
    {
      GatherHalvesPass(present, past, beams, size, count, half, j, at);
      j, at := j + 1, at + size;
    }
    HalvesDone(past[..], present[..], beams, size, count, half, at);
  }

  class KvCacheCombined {
    const state: Io
    const layerCount: nat
    /** The configured beam count, which decides whether `Update` may go without beam indices. */
    const numBeams: int
    const emptyPast: Tensor
    const inputNameStrings: seq<string>
    const outputNameStrings: seq<string>
    var shape: seq<nat>
    var pasts: seq<Tensor?>
    var presents: seq<Tensor>
    var inputIndex: nat
    var outputIndex: nat

    ghost predicate Valid()
      reads this
    {
      && |shape| == 5 && shape[0] == 2
      && |pasts| == layerCount && |presents| == layerCount
      && |inputNameStrings| == layerCount && |outputNameStrings| == layerCount
      && forall i :: 0 <= i < |presents| ==> presents[i].shape == shape && presents[i].data.Length == ElementCount(shape)
    }

    /**
     * `KV_Cache_Combined::KV_Cache_Combined`: the empty past has length 0 and the working length is
     * the prompt's sequence length; one name per layer from the combined patterns.
     */
    constructor (state: Io, decoder: Config.Decoder, search: Config.Search, batchBeamSize: nat, sequenceLength: nat,
                 layerName: (string, int) -> string)
      requires decoder.numHiddenLayers >= 0 && decoder.numKeyValueHeads >= 0 && decoder.headSize >= 0
      ensures Valid() && this.state == state
      ensures layerCount == decoder.numHiddenLayers && numBeams == search.numBeams
      ensures fresh(emptyPast) && emptyPast.shape == [2, batchBeamSize, decoder.numKeyValueHeads, 0, decoder.headSize]
      ensures shape == emptyPast.shape[3 := sequenceLength]
      ensures inputNameStrings == PatternNames(layerName, decoder.inputs.pastNames, layerCount)
      ensures outputNameStrings == PatternNames(layerName, decoder.outputs.presentNames, layerCount)
      ensures pasts == Repeat(null, layerCount)
      ensures forall i :: 0 <= i < |presents| ==> fresh(presents[i])
    {
      var count: nat := decoder.numHiddenLayers;
      var empty := new Tensor([2, batchBeamSize, decoder.numKeyValueHeads, 0, decoder.headSize]);
      var working := empty.shape[3 := sequenceLength];
      var made: seq<Tensor> := [];
      var i := 0;
      while i < count
        invariant 0 <= i <= count && |made| == i
        invariant forall k :: 0 <= k < i ==> fresh(made[k]) && made[k].shape == working && made[k].data.Length == ElementCount(working)
      {
        var t := new Tensor(working);
        made := made + [t];
        i := i + 1;
      }
      this.state := state;
      layerCount := count;
      numBeams := search.numBeams;
      emptyPast := empty;
      inputNameStrings := PatternNames(layerName, decoder.inputs.pastNames, count);
      outputNameStrings := PatternNames(layerName, decoder.outputs.presentNames, count);
      shape := working;
      pasts := Repeat(null, count);
      presents := made;
    }

    /** `KV_Cache_Combined::Add`: the window of one slot per layer, inputs bound to the empty past. */
    method Add()
      requires Valid() && state.Valid()
      modifies this`inputIndex, this`outputIndex, state
      ensures Valid() && state.Valid()
      ensures inputIndex == |old(state.inputs)| && outputIndex == |old(state.outputs)|
      ensures state.inputs == old(state.inputs) + Repeat(emptyPast, layerCount)
      ensures state.inputNames == old(state.inputNames) + inputNameStrings
      ensures state.outputs == old(state.outputs) + presents
      ensures state.outputNames == old(state.outputNames) + outputNameStrings
    {
      inputIndex := |state.inputs|;
      outputIndex := |state.outputs|;
      var i := 0;
      while i < layerCount
        invariant 0 <= i <= layerCount
        invariant inputIndex == |old(state.inputs)| && outputIndex == |old(state.outputs)|
        invariant state.inputs == old(state.inputs) + Repeat(emptyPast, i)
        invariant state.inputNames == old(state.inputNames) + inputNameStrings[..i]
        invariant state.outputs == old(state.outputs) + presents[..i]
        invariant state.outputNames == old(state.outputNames) + outputNameStrings[..i]
      {
        state.AddInput(inputNameStrings[i], emptyPast);
        state.AddOutput(outputNameStrings[i], presents[i]);
        assert inputNameStrings[..i + 1] == inputNameStrings[..i] + [inputNameStrings[i]];
        assert outputNameStrings[..i + 1] == outputNameStrings[..i] + [outputNameStrings[i]];
        assert presents[..i + 1] == presents[..i] + [presents[i]];
        i := i + 1;
      }
      assert inputNameStrings[..i] == inputNameStrings && outputNameStrings[..i] == outputNameStrings;
      assert presents[..i] == presents;
    }

    /**
     * `KV_Cache_Combined::PickPastState`: a new past of the working shape whose key half and value
     * half each hold the present's blocks of that half in beam order.
     */
    method PickPastState(beamIndices: seq<int>, index: nat)
      requires Valid() && index < |presents|
      requires BeamsFit(beamIndices, shape[1])
      modifies this`pasts
      ensures Valid()
      ensures pasts == old(pasts)[index := pasts[index]]
      ensures pasts[index] != null && fresh(pasts[index]) && pasts[index].shape == shape
      ensures PickedHalves(pasts[index].data[..], presents[index].data[..], beamIndices, CombinedBlockSize(shape), shape[1])
    {
      Count5(shape);
      var past := new Tensor(shape);
      GatherHalves(presents[index].data, past.data, beamIndices, CombinedBlockSize(shape), shape[1]);
      pasts := pasts[index := past];
    }

    /**
     * `KV_Cache_Combined::Update`: beam indices are required unless there is a single beam. Every
     * past becomes the previous present (or its beam reorder); the working length becomes
     * `currentLength`; fresh presents are made; only the cache's window is rebound.
     */
    method Update(beamIndices: seq<int>, currentLength: nat)
      requires Valid() && state.Valid()
      requires numBeams == 1 || beamIndices != []
      requires inputIndex + layerCount <= |state.inputs| && outputIndex + layerCount <= |state.outputs|
      requires beamIndices != [] ==> BeamsFit(beamIndices, shape[1])
      modifies this`shape, this`pasts, this`presents, state
      ensures Valid() && state.Valid()
      ensures state.inputNames == old(state.inputNames) && state.outputNames == old(state.outputNames)
      ensures shape == old(shape)[3 := currentLength]
      ensures beamIndices == [] ==> pasts == old(presents)
      ensures beamIndices != [] ==>
        forall k :: 0 <= k < |pasts| ==>
          && pasts[k] != null && fresh(pasts[k]) && pasts[k].shape == old(shape)
          && PickedHalves(pasts[k].data[..], old(presents)[k].data[..], beamIndices, CombinedBlockSize(old(shape)), old(shape)[1])
      ensures forall k :: 0 <= k < |presents| ==> fresh(presents[k])
      ensures state.inputs == Splice(old(state.inputs), inputIndex, pasts)
      ensures state.outputs == Splice(old(state.outputs), outputIndex, presents)
    {
      PickPasts(beamIndices);
      Rebind(currentLength);
    }

    /** The first loop of `KV_Cache_Combined::Update`: every past becomes the present or its beam reorder. */
    method PickPasts(beamIndices: seq<int>)
      requires Valid()
      requires beamIndices != [] ==> BeamsFit(beamIndices, shape[1])
      modifies this`pasts
      ensures Valid()
      ensures beamIndices == [] ==> pasts == presents
      ensures beamIndices != [] ==>
        forall k :: 0 <= k < |pasts| ==>
          && pasts[k] != null && fresh(pasts[k]) && pasts[k].shape == shape
          && PickedHalves(pasts[k].data[..], presents[k].data[..], beamIndices, CombinedBlockSize(shape), shape[1])
    {
      var i := 0;
      while i < layerCount
        invariant 0 <= i <= layerCount
        invariant Valid()
        invariant beamIndices == [] ==> pasts[..i] == presents[..i]
        invariant beamIndices != [] ==>
          forall k :: 0 <= k < i ==>
            && pasts[k] != null && fresh(pasts[k]) && pasts[k].shape == shape
            && PickedHalves(pasts[k].data[..], presents[k].data[..], beamIndices, CombinedBlockSize(shape), shape[1])
      {
        if beamIndices == [] {
          pasts := pasts[i := presents[i]];
        } else {
          PickPastState(beamIndices, i);
        }
        i := i + 1;
      }
      assert pasts[..i] == pasts && presents[..i] == presents;
    }

    /** The second loop of `KV_Cache_Combined::Update`: new presents of the new length, and the window rebound. */
    method Rebind(currentLength: nat)
      requires |shape| == 5 && shape[0] == 2 && |presents| == layerCount && |pasts| == layerCount
      requires |inputNameStrings| == layerCount && |outputNameStrings| == layerCount
      requires state.Valid()
      requires inputIndex + layerCount <= |state.inputs| && outputIndex + layerCount <= |state.outputs|
      modifies this`shape, this`presents, state
      ensures Valid() && state.Valid()
      ensures shape == old(shape)[3 := currentLength]
      ensures forall k :: 0 <= k < |presents| ==> fresh(presents[k])
      ensures state.inputs == Splice(old(state.inputs), inputIndex, pasts)
      ensures state.outputs == Splice(old(state.outputs), outputIndex, presents)
      ensures state.inputNames == old(state.inputNames) && state.outputNames == old(state.outputNames)
    {
      shape := shape[3 := currentLength];
      SpliceEmpty(state.inputs, inputIndex);
      SpliceEmpty(state.outputs, outputIndex);
      var i := 0;
      while i < layerCount
        invariant 0 <= i <= layerCount && |presents| == layerCount && |shape| == 5
        invariant shape == old(shape)[3 := currentLength]
        invariant forall k :: 0 <= k < i ==> fresh(presents[k]) && presents[k].shape == shape && presents[k].data.Length == ElementCount(shape)
        invariant state.inputs == Splice(old(state.inputs), inputIndex, pasts[..i])
        invariant state.outputs == Splice(old(state.outputs), outputIndex, presents[..i])
        invariant state.inputNames == old(state.inputNames) && state.outputNames == old(state.outputNames)
      {
        RebindSlot(i, old(state.inputs), old(state.outputs));
        i := i + 1;
      }
      assert pasts[..i] == pasts && presents[..i] == presents;
    }

    /** One pass of the second loop of `KV_Cache_Combined::Update`: slot `i` gets a fresh present and is rebound. */
    method RebindSlot(i: nat, ghost inputs0: seq<Tensor?>, ghost outputs0: seq<Tensor?>)
      requires i < |presents| == |pasts| && |shape| == 5
      requires inputIndex + |pasts| <= |inputs0| && outputIndex + |presents| <= |outputs0|
      requires state.inputs == Splice(inputs0, inputIndex, pasts[..i])
      requires state.outputs == Splice(outputs0, outputIndex, presents[..i])
      modifies this`presents, state
      ensures |presents| == |old(presents)| && presents == old(presents)[i := presents[i]]
      ensures fresh(presents[i]) && presents[i].shape == shape && presents[i].data.Length == ElementCount(shape)
      ensures state.inputs == Splice(inputs0, inputIndex, pasts[..i + 1])
      ensures state.outputs == Splice(outputs0, outputIndex, presents[..i + 1])
      ensures state.inputNames == old(state.inputNames) && state.outputNames == old(state.outputNames)
    {
      var t := new Tensor(shape);
      assert presents[i := t][..i] == presents[..i];
      presents := presents[i := t];
      SpliceSnoc(inputs0, inputIndex, pasts, i);
      state.BindInput(inputIndex + i, pasts[i]);
      SpliceSnoc(outputs0, outputIndex, presents, i);
      state.BindOutput(outputIndex + i, t);
    }
  }

  // ---------------------------------------------------------------------------------------------
  // Cross_Cache: encoder keys and values of fixed length 1500, shared by every decoder step

  /** The encoder sequence length the cross cache is sized for. */
  const CrossSequenceLength: nat := 1500

  class CrossCache {
    const state: Io
    const layerCount: nat
    const shape: seq<nat>
    const values: seq<Tensor>
    const inputNameStrings: seq<string>
    const outputNameStrings: seq<string>

    ghost predicate Valid()
    {
      |values| == 2 * layerCount && |inputNameStrings| == 2 * layerCount && |outputNameStrings| == 2 * layerCount
    }

    /** `Cross_Cache::Cross_Cache`: a key and a value tensor per layer, names alternating key and value. */
    constructor (state: Io, decoder: Config.Decoder, batchBeamSize: nat, layerName: (string, int) -> string)
      requires decoder.numHiddenLayers >= 0 && decoder.numKeyValueHeads >= 0 && decoder.headSize >= 0
      ensures Valid() && this.state == state && layerCount == decoder.numHiddenLayers
      ensures shape == [batchBeamSize, decoder.numKeyValueHeads, CrossSequenceLength, decoder.headSize]
      ensures forall i :: 0 <= i < |values| ==> fresh(values[i]) && values[i].shape == shape
      ensures inputNameStrings == LayerNames(layerName, decoder.inputs.crossPastKeyNames, decoder.inputs.crossPastValueNames, layerCount)
      ensures outputNameStrings == LayerNames(layerName, decoder.outputs.crossPresentKeyNames, decoder.outputs.crossPresentValueNames, layerCount)
    {
      var count: nat := decoder.numHiddenLayers;
      var dims: seq<nat> := [batchBeamSize, decoder.numKeyValueHeads, CrossSequenceLength, decoder.headSize];
      var made: seq<Tensor> := [];
      var i := 0;
      while i < count
        invariant 0 <= i <= count && |made| == 2 * i
        invariant forall k :: 0 <= k < 2 * i ==> fresh(made[k]) && made[k].shape == dims
      {
        var key := new Tensor(dims);
        var value := new Tensor(dims);
        made := made + [key, value];
        i := i + 1;
      }
      this.state := state;
      layerCount := count;
      shape := dims;
      values := made;
      inputNameStrings := LayerNames(layerName, decoder.inputs.crossPastKeyNames, decoder.inputs.crossPastValueNames, count);
      outputNameStrings := LayerNames(layerName, decoder.outputs.crossPresentKeyNames, decoder.outputs.crossPresentValueNames, count);
    }

    /** `Cross_Cache::AddOutputs`: the encoder step writes the cross keys and values. */
    method AddOutputs()
      requires Valid() && state.Valid()
      modifies state
      ensures state.Valid()
      ensures state.outputs == old(state.outputs) + values
      ensures state.outputNames == old(state.outputNames) + outputNameStrings
      ensures state.inputs == old(state.inputs) && state.inputNames == old(state.inputNames)
    {
      var i := 0;
      while i < 2 * layerCount
        invariant 0 <= i <= 2 * layerCount
        invariant state.inputs == old(state.inputs) && state.inputNames == old(state.inputNames)
        invariant state.outputs == old(state.outputs) + values[..i]
        invariant state.outputNames == old(state.outputNames) + outputNameStrings[..i]
      {
        state.AddOutput(outputNameStrings[i], values[i]);
        assert values[..i + 1] == values[..i] + [values[i]];
        assert outputNameStrings[..i + 1] == outputNameStrings[..i] + [outputNameStrings[i]];
        i := i + 1;
      }
      assert values[..i] == values && outputNameStrings[..i] == outputNameStrings;
    }

    /** `Cross_Cache::AddInputs`: every decoder step reads the same cross keys and values. */
    method AddInputs()
      requires Valid() && state.Valid()
      modifies state
      ensures state.Valid()
      ensures state.inputs == old(state.inputs) + values
      ensures state.inputNames == old(state.inputNames) + inputNameStrings
      ensures state.outputs == old(state.outputs) && state.outputNames == old(state.outputNames)
    {
      var i := 0;
      while i < 2 * layerCount
        invariant 0 <= i <= 2 * layerCount
        invariant state.outputs == old(state.outputs) && state.outputNames == old(state.outputNames)
        invariant state.inputs == old(state.inputs) + values[..i]
        invariant state.inputNames == old(state.inputNames) + inputNameStrings[..i]
      {
        state.AddInput(inputNameStrings[i], values[i]);
        assert values[..i + 1] == values[..i] + [values[i]];
        assert inputNameStrings[..i + 1] == inputNameStrings[..i] + [inputNameStrings[i]];
        i := i + 1;
      }
      assert values[..i] == values && inputNameStrings[..i] == inputNameStrings;
    }
  }

  // ---------------------------------------------------------------------------------------------
  // PagedCacheOrchestrator

  datatype CacheError = PagedCacheRequiresCuda

  const PagedKeyCacheNamePrefix := "key_cache."
  const PagedValueCacheNamePrefix := "value_cache."

  /** `std::to_string` of a layer number. */
  function DecimalString(n: nat): (r: string)
    ensures |r| >= 1
  {
    if n < 10 then ["0123456789"[n]] else DecimalString(n / 10) + ["0123456789"[n % 10]]
  }

  /** The paged cache's names: the prefix followed by the layer number. */
  function PagedNames(prefix: string, n: nat): (r: seq<string>)
    ensures |r| == n && forall i :: 0 <= i < n ==> r[i] == prefix + DecimalString(i)
  {
    seq(n, i requires 0 <= i => prefix + DecimalString(i))
  }

  /**
   * The fields of the `CacheOptions` that `MakeCacheOptions` builds and the orchestrator reads. The
   * `CacheOptions` constructor, which also receives the GPU utilisation factor, is not part of this
   * model, so the resolved options are a parameter.
   */
  datatype CacheOptions = CacheOptions(numBlocks: nat, blockSize: nat, headSize: nat, numKvHeads: nat)

  class PagedCacheOrchestrator {
    const state: Io
    const layerCount: nat
    const shape: seq<nat>
    const keyCaches: seq<Tensor>
    const valueCaches: seq<Tensor>
    const keyCacheNames: seq<string>
    const valueCacheNames: seq<string>
    var inputOffset: nat

    ghost predicate Valid()
    {
      && |keyCaches| == layerCount && |valueCaches| == layerCount
      && |keyCacheNames| == layerCount && |valueCacheNames| == layerCount
    }

    constructor Make(state: Io, decoder: Config.Decoder, options: CacheOptions)
      requires decoder.numHiddenLayers >= 0
      ensures Valid() && this.state == state && layerCount == decoder.numHiddenLayers
      ensures shape == [options.numBlocks, options.blockSize * options.headSize * options.numKvHeads]
      ensures forall i :: 0 <= i < layerCount ==> fresh(keyCaches[i]) && fresh(valueCaches[i])
      ensures forall i :: 0 <= i < layerCount ==> keyCaches[i].shape == shape && valueCaches[i].shape == shape
      ensures keyCacheNames == PagedNames(PagedKeyCacheNamePrefix, layerCount)
      ensures valueCacheNames == PagedNames(PagedValueCacheNamePrefix, layerCount)
    {
      var count: nat := decoder.numHiddenLayers;
      var dims: seq<nat> := [options.numBlocks, options.blockSize * options.headSize * options.numKvHeads];
      var keys: seq<Tensor> := [];
      var vals: seq<Tensor> := [];
      var i := 0;
      while i < count
        invariant 0 <= i <= count && |keys| == i && |vals| == i
        invariant forall k :: 0 <= k < i ==> fresh(keys[k]) && fresh(vals[k]) && keys[k].shape == dims && vals[k].shape == dims
      {
        var key := new Tensor(dims);
        var value := new Tensor(dims);
        keys := keys + [key];
        vals := vals + [value];
        i := i + 1;
      }
      this.state := state;
      layerCount := count;
      shape := dims;
      keyCaches := keys;
      valueCaches := vals;
      keyCacheNames := PagedNames(PagedKeyCacheNamePrefix, count);
      valueCacheNames := PagedNames(PagedValueCacheNamePrefix, count);
    }

    /** `PagedCacheOrchestrator::PagedCacheOrchestrator`: paged caches exist only on CUDA devices. */
    static method Create(device: DeviceType, state: Io, decoder: Config.Decoder, options: CacheOptions)
      returns (r: Result<PagedCacheOrchestrator, CacheError>)
      requires decoder.numHiddenLayers >= 0
      ensures r.Failure? <==> device != CUDA
      ensures r.Failure? ==> r.error == PagedCacheRequiresCuda
      ensures r.Success? ==> fresh(r.value) && r.value.Valid() && r.value.state == state
      ensures r.Success? ==> r.value.layerCount == decoder.numHiddenLayers
      ensures r.Success? ==> r.value.shape == [options.numBlocks, options.blockSize * options.headSize * options.numKvHeads]
    {
      if device != CUDA {
        return Failure(PagedCacheRequiresCuda);
      }
      var p := new PagedCacheOrchestrator.Make(state, decoder, options);
      return Success(p);
    }

    /**
     * `PagedCacheOrchestrator::Add`: records the first input slot and appends, layer by layer, the
     * key cache and then the value cache. Outputs are untouched.
     */
    method Add()
      requires Valid() && state.Valid()
      modifies this`inputOffset, state
      ensures state.Valid()
      ensures inputOffset == |old(state.inputs)|
      ensures state.inputs == old(state.inputs) + Interleave(keyCaches, valueCaches)
      ensures state.inputNames == old(state.inputNames) + Interleave(keyCacheNames, valueCacheNames)
      ensures state.outputs == old(state.outputs) && state.outputNames == old(state.outputNames)
    {
      inputOffset := |state.inputs|;
      var i := 0;
      while i < layerCount
        invariant 0 <= i <= layerCount
        invariant inputOffset == |old(state.inputs)|
        invariant state.inputs == old(state.inputs) + Interleave(keyCaches[..i], valueCaches[..i])
        invariant state.inputNames == old(state.inputNames) + Interleave(keyCacheNames[..i], valueCacheNames[..i])
        invariant state.outputs == old(state.outputs) && state.outputNames == old(state.outputNames)
      {
        AddLayer(i, old(state.inputs), old(state.inputNames));
        i := i + 1;
      }
      assert keyCaches[..i] == keyCaches && valueCaches[..i] == valueCaches;
      assert keyCacheNames[..i] == keyCacheNames && valueCacheNames[..i] == valueCacheNames;
    }

    /** One pass of the loop of `PagedCacheOrchestrator::Add`: layer `i`'s key cache, then its value cache. */
    method AddLayer(i: nat, ghost inputs0: seq<Tensor?>, ghost names0: seq<string>)
      requires Valid() && i < layerCount
      requires state.inputs == inputs0 + Interleave(keyCaches[..i], valueCaches[..i])
      requires state.inputNames == names0 + Interleave(keyCacheNames[..i], valueCacheNames[..i])
      modifies state
      ensures state.inputs == inputs0 + Interleave(keyCaches[..i + 1], valueCaches[..i + 1])
      ensures state.inputNames == names0 + Interleave(keyCacheNames[..i + 1], valueCacheNames[..i + 1])
      ensures state.outputs == old(state.outputs) && state.outputNames == old(state.outputNames)
    {
      state.AddInput(keyCacheNames[i], keyCaches[i]);
      state.AddInput(valueCacheNames[i], valueCaches[i]);
      InterleaveSnoc(keyCaches, valueCaches, i);
      var w := Interleave(keyCaches[..i], valueCaches[..i]);
      assert state.inputs == inputs0 + (w + [keyCaches[i], valueCaches[i]]);
      AppendPair(names0, keyCacheNames, valueCacheNames, i);
    }

    /** `PagedCacheOrchestrator::Update`: returns at once; block tables are not maintained in this version. */
    method Update(beamIndices: seq<int>, currentLength: int)
      ensures unchanged(this) && unchanged(state)
    {
    }
  }

  // ---------------------------------------------------------------------------------------------
  // CreateCacheManager

  datatype CacheManager = Paged(paged: PagedCacheOrchestrator) | Dense(cache: KvCache)

  /** `CreateCacheManager`: the paged orchestrator when the model asks for a paged cache, else a `KV_Cache`. */
  method CreateCacheManager(device: DeviceType, state: Io, model: Config.Model, search: Config.Search,
                            options: CacheOptions, batchBeamSize: nat, sequenceLength: nat,
                            layerName: (string, int) -> string)
    returns (r: Result<CacheManager, CacheError>)
    requires model.decoder.numHiddenLayers >= 0 && model.decoder.numKeyValueHeads >= 0 && model.decoder.headSize >= 0
    requires !model.kvCache.pagedCache ==> search.maxLength >= 0
    ensures r.Failure? <==> model.kvCache.pagedCache && device != CUDA
    ensures r.Success? ==> (r.value.Paged? <==> model.kvCache.pagedCache)
    ensures r.Success? && r.value.Paged? ==> fresh(r.value.paged) && r.value.paged.state == state
    ensures r.Success? && r.value.Dense? ==> fresh(r.value.cache) && r.value.cache.state == state
  {
    if model.kvCache.pagedCache {
      var p := PagedCacheOrchestrator.Create(device, state, model.decoder, options);
      if p.Failure? {
        return Failure(p.error);
      }
      return Success(Paged(p.value));
    }
    var k := new KvCache(state, model.decoder, search, batchBeamSize, sequenceLength, layerName);
    return Success(Dense(k));
  }
}
