/**
 * The tensor runtime as this model sees it: opaque tensor objects whose only visible parts are a
 * shape and a flat element buffer, and the named input/output lists every model state keeps.
 */
module Tensors {

  /** The raw bits of one tensor element (a float32 or a float16); elements are only ever copied. */
  type Scalar = bv32

  /** The device a model runs on. Devices other than the CPU and CUDA are told apart by name. */
  datatype DeviceType = CPU | CUDA | Other(name: string)

  /** Number of elements of a tensor of the given shape (the product of its dimensions). */
  function ElementCount(shape: seq<nat>): nat
  {
    if shape == [] then 1 else shape[0] * ElementCount(shape[1..])
  }

  /**
   * A tensor allocated by the runtime (an `OrtValue`). Object identity plays the part of the
   * `OrtValue*` pointer that the input/output lists hold; `null` is `nullptr`.
   */
  class Tensor {
    const shape: seq<nat>
    const data: array<Scalar>

    /** `OrtValue::CreateTensor(allocator, shape, type)`: a fresh buffer of the given shape. */
    constructor (shape: seq<nat>)
      ensures this.shape == shape
      ensures data.Length == ElementCount(shape) && fresh(data)
    {
      this.shape := shape;
      data := new Scalar[ElementCount(shape)];
    }
  }

  /**
   * The four parallel lists of a model `State`: `input_names_`/`inputs_` and
   * `output_names_`/`outputs_`, which the runtime binds by position when a session runs.
   */
  class Io {
    var inputNames: seq<string>
    var inputs: seq<Tensor?>
    var outputNames: seq<string>
    var outputs: seq<Tensor?>

    /** Every name has its tensor slot. */
    ghost predicate Valid()
      reads this
    {
      |inputNames| == |inputs| && |outputNames| == |outputs|
    }

    constructor ()
      ensures Valid()
      ensures inputNames == [] && inputs == [] && outputNames == [] && outputs == []
    {
      inputNames, inputs, outputNames, outputs := [], [], [], [];
    }

    /** Appends one input: its name to the input names and its tensor to the inputs. */
    method AddInput(name: string, t: Tensor?)
      modifies this
      ensures inputNames == old(inputNames) + [name] && inputs == old(inputs) + [t]
      ensures outputNames == old(outputNames) && outputs == old(outputs)
    {
      inputNames, inputs := inputNames + [name], inputs + [t];
    }

    /** Appends one output: its name to the output names and its tensor to the outputs. */
    method AddOutput(name: string, t: Tensor?)
      modifies this
      ensures outputNames == old(outputNames) + [name] && outputs == old(outputs) + [t]
      ensures inputNames == old(inputNames) && inputs == old(inputs)
    {
      outputNames, outputs := outputNames + [name], outputs + [t];
    }

    /** Rebinds input slot `at` to `t`; the names and every other slot are kept. */
    method BindInput(at: nat, t: Tensor?)
      requires at < |inputs|
      modifies this
      ensures inputs == old(inputs)[at := t]
      ensures inputNames == old(inputNames) && outputNames == old(outputNames) && outputs == old(outputs)
    {
      inputs := inputs[at := t];
    }

    /** Rebinds output slot `at` to `t`; the names and every other slot are kept. */
    method BindOutput(at: nat, t: Tensor?)
      requires at < |outputs|
      modifies this
      ensures outputs == old(outputs)[at := t]
      ensures inputNames == old(inputNames) && inputs == old(inputs) && outputNames == old(outputNames)
    {
      outputs := outputs[at := t];
    }

    /** Replaces the output names and the output slots; the inputs are kept. */
    method SetOutputs(names: seq<string>, ts: seq<Tensor?>)
      modifies this
      ensures outputNames == names && outputs == ts
      ensures inputNames == old(inputNames) && inputs == old(inputs)
    {
      outputNames, outputs := names, ts;
    }

    /** `State::ClearIO`: forget every bound input and output. */
    method ClearIO()
      modifies this
      ensures Valid()
      ensures inputNames == [] && inputs == [] && outputNames == [] && outputs == []
    {
      inputNames, inputs, outputNames, outputs := [], [], [], [];
    }
  }

  // ---------------------------------------------------------------------------------------------
  // Slot windows in the input/output lists

  /** `n` copies of `x`. */
  function Repeat<T>(x: T, n: nat): (r: seq<T>)
    ensures |r| == n && forall i :: 0 <= i < n ==> r[i] == x
  {
    seq(n, _ => x)
  }

  /** `s` with the window of `|w|` slots starting at `at` overwritten by `w`; every other slot is kept. */
  function Splice<T>(s: seq<T>, at: nat, w: seq<T>): (r: seq<T>)
    requires at + |w| <= |s|
    ensures |r| == |s|
  {
    seq(|s|, i requires 0 <= i < |s| => if at <= i < at + |w| then w[i - at] else s[i])
  }

  /** A splice holds `w` at `at .. at + |w| - 1` and `s` everywhere else. */
  lemma SpliceElements<T>(s: seq<T>, at: nat, w: seq<T>)
    requires at + |w| <= |s|
    ensures forall i :: 0 <= i < |s| ==> Splice(s, at, w)[i] == if at <= i < at + |w| then w[i - at] else s[i]
  {
  }

  /** Writing the slot just after a spliced window extends the window by that slot. */
  lemma SpliceStep<T>(s: seq<T>, at: nat, w: seq<T>, x: T)
    requires at + |w| < |s|
    ensures Splice(s, at, w)[at + |w| := x] == Splice(s, at, w + [x])
  {
    SpliceElements(s, at, w);
    SpliceElements(s, at, w + [x]);
    var a := Splice(s, at, w)[at + |w| := x];
    var b := Splice(s, at, w + [x]);
    assert forall i :: 0 <= i < |s| ==> a[i] == b[i];
  }

  /** Writing element `i` of `w` just after the window of its first `i` elements grows the window by one. */
  lemma SpliceSnoc<T>(s: seq<T>, at: nat, w: seq<T>, i: nat)
    requires i < |w| && at + |w| <= |s|
    ensures Splice(s, at, w[..i])[at + i := w[i]] == Splice(s, at, w[..i + 1])
  {
    SpliceStep(s, at, w[..i], w[i]);
    assert w[..i] + [w[i]] == w[..i + 1];
  }

  /** An empty window changes nothing. */
  lemma SpliceEmpty<T>(s: seq<T>, at: nat)
    requires at <= |s|
    ensures Splice(s, at, []) == s
  {
    SpliceElements(s, at, []);
    assert forall i :: 0 <= i < |s| ==> Splice(s, at, [])[i] == s[i];
  }
}
