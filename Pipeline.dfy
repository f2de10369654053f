/**
 * A decoder split into a pipeline of sessions (`DecoderOnlyPipelineModel` and
 * `DecoderOnlyPipelineState`): which session provides the device allocator, what each stage is bound
 * to in one decoding step, and how tensors flow from stage to stage through a step-local pool.
 *
 * The pipeline state's own input/output lists hold the "managed" tensors: the ones the model creates
 * and updates from one step to the next (input ids, positions, logits, the KV cache). Every other
 * tensor a stage needs comes from an earlier stage of the same step.
 */
module Pipeline {
  import opened Wrappers
  import opened Tensors
  import Config

  datatype PipelineError =
    | UnsupportedDevice(device: DeviceType)
    | ManagedInputElsewhere(name: string, modelId: string)
    | ManagedOutputElsewhere(name: string, modelId: string)

  // ---------------------------------------------------------------------------------------------
  // Searches

  /** `x` occurs in `xs`: the linear scans of `HasInput`/`HasOutput` and the `none_of` tests of `Run`. */
  function Occurs(xs: seq<string>, x: string): (b: bool)
    ensures b <==> exists i :: 0 <= i < |xs| && xs[i] == x
  {
    if xs == [] then false else xs[0] == x || Occurs(xs[1..], x)
  }

  /** Some provider in `providers` is called `name`. */
  function ProviderNamed(providers: seq<Config.ProviderOptions>, name: string): (b: bool)
    ensures b <==> exists i :: 0 <= i < |providers| && providers[i].name == name
  {
    if providers == [] then false else providers[0].name == name || ProviderNamed(providers[1..], name)
  }

  /** Some provider in `providers` has a non-empty name. */
  function SomeProviderNamed(providers: seq<Config.ProviderOptions>): (b: bool)
    ensures b <==> exists i :: 0 <= i < |providers| && providers[i].name != ""
  {
    if providers == [] then false else providers[0].name != "" || SomeProviderNamed(providers[1..])
  }

  // ---------------------------------------------------------------------------------------------
  // Device support

  /**
   * `IntermediatePipelineState::SupportsPrimaryDevice`: whether a stage can take tensors that live on
   * the model's device. On the CPU every stage can; on CUDA a stage can when it keeps the default
   * session options or lists a "cuda" provider; any other device is an error.
   */
  function SupportsPrimaryDevice(device: DeviceType, entry: Config.PipelineModel): (r: Result<bool, PipelineError>)
    ensures device == CPU ==> r == Success(true)
    ensures device == CUDA ==>
              && r.Success?
              && (r.value <==> entry.sessionOptions.None? ||
                               exists i :: 0 <= i < |entry.sessionOptions.value.providerOptions| &&
                                           entry.sessionOptions.value.providerOptions[i].name == "cuda")
    ensures device.Other? ==> r == Failure(UnsupportedDevice(device))
  {
    match device
    case CPU => Success(true)
    case CUDA =>
      if entry.sessionOptions.None? then Success(true)
      else Success(ProviderNamed(entry.sessionOptions.value.providerOptions, "cuda"))
    case Other(_) => Failure(UnsupportedDevice(device))
  }

  /**
   * The verdict on a stage that declares the managed names `attached` (all inputs, or all outputs):
   * nothing to check when it declares none; otherwise the stage must support the primary device, and
   * the error names the first managed name it declares.
   */
  function DeviceCheck(device: DeviceType, entry: Config.PipelineModel, attached: seq<string>, input: bool)
    : (r: Outcome<PipelineError>)
    ensures r.Pass? <==> attached == [] || SupportsPrimaryDevice(device, entry) == Success(true)
    ensures device.Other? && attached != [] ==> r == Fail(UnsupportedDevice(device))
    ensures !device.Other? && r.Fail? ==>
              r.error == if input then ManagedInputElsewhere(attached[0], entry.modelId)
                         else ManagedOutputElsewhere(attached[0], entry.modelId)
  {
    if attached == [] then Pass
    else match SupportsPrimaryDevice(device, entry)
      case Failure(e) => Fail(e)
      case Success(ok) =>
        if ok then Pass
        else if input then Fail(ManagedInputElsewhere(attached[0], entry.modelId))
        else Fail(ManagedOutputElsewhere(attached[0], entry.modelId))
  }

  // ---------------------------------------------------------------------------------------------
  // Device allocator

  /** A stage whose session options name at least one provider. */
  predicate NamesProvider(entry: Config.PipelineModel)
  {
    entry.sessionOptions.Some? && SomeProviderNamed(entry.sessionOptions.value.providerOptions)
  }

  /**
   * The session that provides the device allocator in the `DecoderOnlyPipelineModel` constructor: the
   * first stage whose session options name a provider; when there is none, every session runs on the
   * CPU and the first one is taken.
   */
  method AllocatorSession(pipeline: seq<Config.PipelineModel>) returns (k: nat)
    requires |pipeline| > 0
    ensures k < |pipeline|
    ensures forall i :: 0 <= i < k ==> !NamesProvider(pipeline[i])
    ensures NamesProvider(pipeline[k]) || (k == 0 && forall i :: 0 <= i < |pipeline| ==> !NamesProvider(pipeline[i]))
  {
    var created := false;
    k := 0;
    var i := 0;
    while i < |pipeline|
      invariant 0 <= i <= |pipeline|
      invariant created ==> k < i && NamesProvider(pipeline[k])
      invariant !created ==> k == 0
      invariant forall j :: 0 <= j < (if created then k else i) ==> !NamesProvider(pipeline[j])
    {
      if !created && pipeline[i].sessionOptions.Some? {
        if SomeProviderNamed(pipeline[i].sessionOptions.value.providerOptions) {
          k := i;
          created := true;
        }
      }
      i := i + 1;
    }
  }

  // ---------------------------------------------------------------------------------------------
  // What a stage is bound to

  /** No name occurs twice. */
  predicate Distinct(xs: seq<string>)
  {
    forall a, b :: 0 <= a < b < |xs| ==> xs[a] != xs[b]
  }

  /** The names of `names` that the stage declares in `declared`, in the order of `names`. */
  function Declared(names: seq<string>, declared: seq<string>): (r: seq<string>)
    ensures |r| <= |names|
    decreases |names|
  {
    if names == [] then []
    else
      var last := names[|names| - 1];
      Declared(names[..|names| - 1], declared) + (if last in declared then [last] else [])
  }

  /** A name is picked exactly when it is listed and declared. */
  lemma {:induction false} DeclaredMembers(names: seq<string>, declared: seq<string>, x: string)
    ensures x in Declared(names, declared) <==> x in names && x in declared
    decreases |names|
  {
    if names != [] {
      var init := names[..|names| - 1];
      DeclaredMembers(init, declared, x);
      assert names == init + [names[|names| - 1]];
    }
  }

  /** Filtering a concatenation filters each part. */
  lemma {:induction false} DeclaredAppend(a: seq<string>, b: seq<string>, declared: seq<string>)
    ensures Declared(a + b, declared) == Declared(a, declared) + Declared(b, declared)
    decreases |b|
  {
    if b == [] {
      assert a + b == a;
    } else {
      var b' := b[..|b| - 1];
      assert (a + b)[..|a + b| - 1] == a + b';
      DeclaredAppend(a, b', declared);
    }
  }

  /** The filtered prefix grows by the next name exactly when that name is declared. */
  lemma DeclaredSnoc(names: seq<string>, i: nat, declared: seq<string>)
    requires i < |names|
    ensures Declared(names[..i + 1], declared) ==
            Declared(names[..i], declared) + (if names[i] in declared then [names[i]] else [])
  {
    assert names[..i + 1][..i] == names[..i];
  }

  /** When nothing before position `i` is declared and `names[i]` is, `names[i]` is the first name picked. */
  lemma DeclaredFirst(names: seq<string>, i: nat, declared: seq<string>)
    requires i < |names| && Declared(names[..i], declared) == [] && names[i] in declared
    ensures Declared(names, declared) != [] && Declared(names, declared)[0] == names[i]
  {
    DeclaredSnoc(names, i, declared);
    DeclaredAppend(names[..i + 1], names[i + 1..], declared);
    assert names[..i + 1] + names[i + 1..] == names;
  }

  /** Filtering keeps the names distinct. */
  lemma {:induction false} DeclaredDistinct(names: seq<string>, declared: seq<string>)
    requires Distinct(names)
    ensures Distinct(Declared(names, declared))
    decreases |names|
  {
    if names != [] {
      var init := names[..|names| - 1];
      assert Distinct(init);
      DeclaredDistinct(init, declared);
      DeclaredMembers(init, declared, names[|names| - 1]);
    }
  }

  /**
   * `State::GetInput`/`GetOutput`: the tensor in the first slot bound to `name`, or null when no slot
   * is.
   */
  function Lookup(names: seq<string>, values: seq<Tensor?>, name: string): (t: Tensor?)
    requires |names| == |values|
    ensures name !in names ==> t == null
    ensures name in names ==> exists i :: 0 <= i < |names| && names[i] == name && t == values[i] &&
                                         forall k :: 0 <= k < i ==> names[k] != name
  {
    if names == [] then null
    else if names[0] == name then values[0]
    else
      var t := Lookup(names[1..], values[1..], name);
      assert name in names[1..] ==> exists i :: 0 < i < |names| && names[i] == name && t == values[i] &&
                                              forall k :: 0 <= k < i ==> names[k] != name by {
        if name in names[1..] {
          var i :| 0 <= i < |names[1..]| && names[1..][i] == name && t == values[1..][i] &&
                   forall k :: 0 <= k < i ==> names[1..][k] != name;
          assert names[i + 1] == name && t == values[i + 1];
          assert forall k :: 1 <= k < i + 1 ==> names[k] == names[1..][k - 1];
        }
      }
      t
  }

  /** The tensors that `picked` names in the lists `names`/`values`. */
  function Bound(names: seq<string>, values: seq<Tensor?>, picked: seq<string>): (r: seq<Tensor?>)
    requires |names| == |values|
    ensures |r| == |picked|
  {
    seq(|picked|, k requires 0 <= k < |picked| => Lookup(names, values, picked[k]))
  }

  /**
   * Pool tensors attached to a stage: each name once, exactly the pool names the stage declares as
   * inputs, each with the tensor the pool holds under it.
   */
  ghost predicate PoolAttached(names: seq<string>, values: seq<Tensor?>, pool: map<string, Tensor?>,
                               declared: seq<string>)
  {
    && |names| == |values|
    && Distinct(names)
    && (forall x :: x in names <==> x in pool && x in declared)
    && (forall k :: 0 <= k < |names| ==> names[k] in pool && values[k] == pool[names[k]])
  }

  /**
   * The output names of a stage after the remaining declared outputs are added to `have`: each one
   * not already listed is appended, in declaration order.
   */
  function Fill(have: seq<string>, declared: seq<string>): (r: seq<string>)
    ensures |have| <= |r| && r[..|have|] == have
    decreases |declared|
  {
    if declared == [] then have
    else
      var h := Fill(have, declared[..|declared| - 1]);
      var x := declared[|declared| - 1];
      if x in h then h else h + [x]
  }

  /** After filling, a name is listed exactly when it was listed before or is declared. */
  lemma {:induction false} FillMembers(have: seq<string>, declared: seq<string>, x: string)
    ensures x in Fill(have, declared) <==> x in have || x in declared
    decreases |declared|
  {
    if declared != [] {
      var init := declared[..|declared| - 1];
      FillMembers(have, init, x);
      assert declared == init + [declared[|declared| - 1]];
    }
  }

  /** Filling adds no name twice, and lists no name twice when `have` did not. */
  lemma {:induction false} FillDistinct(have: seq<string>, declared: seq<string>)
    requires Distinct(have)
    ensures Distinct(Fill(have, declared))
    decreases |declared|
  {
    if declared != [] {
      FillDistinct(have, declared[..|declared| - 1]);
    }
  }

  /** Filling leaves nothing to fill: a second pass over the same declarations adds nothing. */
  lemma FillIdempotent(have: seq<string>, declared: seq<string>)
    ensures Fill(Fill(have, declared), declared) == Fill(have, declared)
  {
    forall x | x in declared
      ensures x in Fill(have, declared)
    {
      FillMembers(have, declared, x);
    }
    FillCovered(Fill(have, declared), declared);
  }

  /** Filling changes nothing when every declared name is already listed. */
  lemma {:induction false} FillCovered(have: seq<string>, declared: seq<string>)
    requires forall x :: x in declared ==> x in have
    ensures Fill(have, declared) == have
    decreases |declared|
  {
    if declared != [] {
      var init := declared[..|declared| - 1];
      assert forall x :: x in init ==> x in declared;
      FillCovered(have, init);
    }
  }

  /**
   * The pool after a stage publishes its outputs: each output whose name is not a managed output is
   * stored under its name, a later one overwriting an earlier one.
   */
  function Publish(pool: map<string, Tensor?>, names: seq<string>, values: seq<Tensor?>, managed: seq<string>)
    : map<string, Tensor?>
    requires |names| == |values|
    decreases |names|
  {
    if names == [] then pool
    else
      var n := |names| - 1;
      var p := Publish(pool, names[..n], values[..n], managed);
      if names[n] in managed then p else p[names[n] := values[n]]
  }

  /** A name is in the pool after publishing exactly when it was before or some unmanaged output has it. */
  lemma {:induction false} PublishKeys(pool: map<string, Tensor?>, names: seq<string>, values: seq<Tensor?>,
                                       managed: seq<string>, x: string)
    requires |names| == |values|
    ensures x in Publish(pool, names, values, managed) <==> x in pool || (x in names && x !in managed)
    decreases |names|
  {
    if names != [] {
      var n := |names| - 1;
      PublishKeys(pool, names[..n], values[..n], managed, x);
      assert names == names[..n] + [names[n]];
    }
  }

  /** The pool holds the last unmanaged output published under a name. */
  lemma {:induction false} PublishLastWins(pool: map<string, Tensor?>, names: seq<string>, values: seq<Tensor?>,
                                           managed: seq<string>, i: nat)
    requires |names| == |values| && i < |names| && names[i] !in managed
    requires forall j :: i < j < |names| ==> names[j] != names[i]
    ensures names[i] in Publish(pool, names, values, managed)
    ensures Publish(pool, names, values, managed)[names[i]] == values[i]
    decreases |names|
  {
    PublishKeys(pool, names, values, managed, names[i]);
    var n := |names| - 1;
    if i < n {
      PublishLastWins(pool, names[..n], values[..n], managed, i);
    }
  }

  /** Managed names never enter the pool: what the pool held under them stays. */
  lemma {:induction false} PublishKeepsManaged(pool: map<string, Tensor?>, names: seq<string>, values: seq<Tensor?>,
                                               managed: seq<string>, x: string)
    requires |names| == |values| && x in managed && x in pool
    ensures x in Publish(pool, names, values, managed)
    ensures Publish(pool, names, values, managed)[x] == pool[x]
    decreases |names|
  {
    PublishKeys(pool, names, values, managed, x);
    if names != [] {
      var n := |names| - 1;
      PublishKeepsManaged(pool, names[..n], values[..n], managed, x);
    }
  }

  /** What happened during the decoding steps, in order. */
  datatype Event =
    | Updated(nextTokens: seq<int>, beamIndices: seq<int>, currentLength: int)
    | Executed(stage: nat)

  /** Stages `0 .. n - 1` executing in order. */
  function Executions(n: nat): (r: seq<Event>)
    ensures |r| == n && forall i :: 0 <= i < n ==> r[i] == Executed(i)
  {
    seq(n, (i: int) requires 0 <= i < n => Executed(i))
  }

  /** One more stage executing extends the executions by it. */
  lemma ExecutionsSnoc(n: nat)
    ensures Executions(n + 1) == Executions(n) + [Executed(n)]
  {
    assert forall i :: 0 <= i <= n ==> Executions(n + 1)[i] == (Executions(n) + [Executed(n)])[i];
  }

  /**
   * A stage's session: given the stage index and the bound input names, inputs, output names and
   * output slots, the tensor it leaves in output slot `k` (a null slot is allocated by the runtime).
   */
  type Session = (nat, seq<string>, seq<Tensor?>, seq<string>, seq<Tensor?>, nat) -> Tensor?

  /** The output slots after stage `id` ran its session: every slot it was given, filled. */
  function Execute(session: Session, id: nat, inNames: seq<string>, ins: seq<Tensor?>, outNames: seq<string>,
                   outs: seq<Tensor?>): (r: seq<Tensor?>)
    ensures |r| == |outs|
  {
    seq(|outs|, k requires 0 <= k < |outs| => session(id, inNames, ins, outNames, outs, k))
  }

  /** The four lists of an `Io` at one moment. */
  datatype Lists = Lists(inputNames: seq<string>, inputs: seq<Tensor?>, outputNames: seq<string>, outputs: seq<Tensor?>)

  function ListsOf(io: Io): Lists
    reads io
  {
    Lists(io.inputNames, io.inputs, io.outputNames, io.outputs)
  }

  /**
   * The lists `b` of stage `id` after it ran with `pool` as the pool, when `m` are the managed lists:
   * first the managed inputs it declares, in managed order, then the pool tensors it declares; first
   * the managed outputs it declares, then null slots for its other declared outputs, every output slot
   * as its session left it.
   */
  ghost predicate StageRan(b: Lists, id: nat, entry: Config.PipelineModel, m: Lists, pool: map<string, Tensor?>,
                           session: Session)
  {
    var ins := Declared(m.inputNames, entry.inputs);
    var outs := Declared(m.outputNames, entry.outputs);
    && |m.inputNames| == |m.inputs| && |m.outputNames| == |m.outputs|
    && |b.inputNames| == |b.inputs| && |b.outputNames| == |b.outputs|
    && |ins| <= |b.inputNames|
    && b.inputNames[..|ins|] == ins
    && b.inputs[..|ins|] == Bound(m.inputNames, m.inputs, ins)
    && PoolAttached(b.inputNames[|ins|..], b.inputs[|ins|..], pool, entry.inputs)
    && b.outputNames == Fill(outs, entry.outputs)
    && b.outputs == Execute(session, id, b.inputNames, b.inputs, b.outputNames,
                            Bound(m.outputNames, m.outputs, outs) + Repeat<Tensor?>(null, |b.outputNames| - |outs|))
  }

  /**
   * Stages `0 .. |bindings| - 1`, configured by `entries`, each ran as `StageRan` says: stage `k` was
   * left with `bindings[k]` after it started with the pool `pools[k]`.
   */
  ghost predicate AllRan(entries: seq<Config.PipelineModel>, bindings: seq<Lists>, pools: seq<map<string, Tensor?>>,
                         m: Lists, session: Session)
    requires |bindings| == |pools| <= |entries|
  {
    forall k {:trigger StageRan(bindings[k], k, entries[k], m, pools[k], session)} :: 0 <= k < |bindings| ==>
      StageRan(bindings[k], k, entries[k], m, pools[k], session)
  }

  /** One more stage that ran extends the record. */
  lemma AllRanSnoc(entries: seq<Config.PipelineModel>, bindings: seq<Lists>, pools: seq<map<string, Tensor?>>,
                   m: Lists, session: Session, b: Lists, pool: map<string, Tensor?>)
    requires |bindings| == |pools| < |entries|
    requires AllRan(entries, bindings, pools, m, session)
    requires StageRan(b, |bindings|, entries[|bindings|], m, pool, session)
    ensures AllRan(entries, bindings + [b], pools + [pool], m, session)
  {
    forall k | 0 <= k < |bindings| + 1
      ensures StageRan((bindings + [b])[k], k, entries[k], m, (pools + [pool])[k], session)
    {
      if k < |bindings| {
        assert (bindings + [b])[k] == bindings[k] && (pools + [pool])[k] == pools[k];
        assert StageRan(bindings[k], k, entries[k], m, pools[k], session);
      }
    }
  }

  /**
   * The pools of one step: the first is empty and each next one is the one before after stage
   * `bindings[k]` published its outputs (managed names excepted).
   */
  ghost predicate Chained(pools: seq<map<string, Tensor?>>, bindings: seq<Lists>, managed: seq<string>)
    requires |pools| == |bindings| + 1
    decreases |bindings|
  {
    if bindings == [] then pools[0] == map[]
    else
      var n := |bindings| - 1;
      && Chained(pools[..n + 1], bindings[..n], managed)
      && |bindings[n].outputNames| == |bindings[n].outputs|
      && pools[n + 1] == Publish(pools[n], bindings[n].outputNames, bindings[n].outputs, managed)
  }

  /** A stage publishing into the last pool extends the chain. */
  lemma ChainedSnoc(pools: seq<map<string, Tensor?>>, bindings: seq<Lists>, managed: seq<string>, b: Lists,
                    next: map<string, Tensor?>)
    requires |pools| == |bindings| + 1 && Chained(pools, bindings, managed)
    requires |b.outputNames| == |b.outputs| && next == Publish(pools[|bindings|], b.outputNames, b.outputs, managed)
    ensures Chained(pools + [next], bindings + [b], managed)
  {
    assert (pools + [next])[..|bindings| + 1] == pools;
    assert (bindings + [b])[..|bindings|] == bindings;
  }

  /** Dropping the last link keeps a chain. */
  lemma ChainedPrefix(pools: seq<map<string, Tensor?>>, bindings: seq<Lists>, managed: seq<string>)
    requires |pools| == |bindings| + 1 && |bindings| > 0 && Chained(pools, bindings, managed)
    ensures Chained(pools[..|bindings|], bindings[..|bindings| - 1], managed)
  {
  }

  /** A step stopped before stage `|bindings|` ran: the chain of the pools so far, as `StagesRan` states it. */
  lemma StoppedAt(pools: seq<map<string, Tensor?>>, bindings: seq<Lists>, pool: map<string, Tensor?>,
                  managed: seq<string>)
    requires |pools| == |bindings| && Chained(pools + [pool], bindings, managed)
    ensures (pools + [pool])[..|bindings|] == pools
    ensures Chained(pools + [pool], bindings[..|pools + [pool]| - 1], managed)
  {
    assert bindings[..|pools + [pool]| - 1] == bindings;
  }

  /** A step where every stage ran: the chain without the pool nobody starts with. */
  lemma Finished(pools: seq<map<string, Tensor?>>, bindings: seq<Lists>, pool: map<string, Tensor?>,
                 managed: seq<string>)
    requires |pools| == |bindings| && Chained(pools + [pool], bindings, managed)
    ensures pools[..|bindings|] == pools
    ensures |pools| > 0 ==> Chained(pools, bindings[..|pools| - 1], managed)
  {
    if pools != [] {
      assert (pools + [pool])[..|pools|] == pools;
      ChainedPrefix(pools + [pool], bindings, managed);
    }
  }

  /** What the chain says about one link. */
  lemma {:induction false} ChainedAt(pools: seq<map<string, Tensor?>>, bindings: seq<Lists>, managed: seq<string>,
                                     k: nat)
    requires |pools| == |bindings| + 1 && Chained(pools, bindings, managed)
    requires k < |bindings|
    ensures pools[0] == map[]
    ensures |bindings[k].outputNames| == |bindings[k].outputs|
    ensures pools[k + 1] == Publish(pools[k], bindings[k].outputNames, bindings[k].outputs, managed)
    decreases |bindings|
  {
    var n := |bindings| - 1;
    if n > 0 {
      ChainedAt(pools[..n + 1], bindings[..n], managed, if k < n then k else 0);
    }
  }

  /**
   * Pool scope: along a chain of pools, every name in the pool of stage `k` is an unmanaged output of
   * a stage before `k`.
   */
  lemma {:induction false} PoolScope(pools: seq<map<string, Tensor?>>, bindings: seq<Lists>, managed: seq<string>,
                                     k: nat, x: string)
    requires |pools| == |bindings| + 1 && Chained(pools, bindings, managed)
    requires k < |pools| && x in pools[k]
    ensures exists j :: 0 <= j < k && x in bindings[j].outputNames && x !in managed
    decreases k
  {
    if k == 0 {
      if bindings != [] {
        ChainedAt(pools, bindings, managed, 0);
      }
    } else {
      ChainedAt(pools, bindings, managed, k - 1);
      PublishKeys(pools[k - 1], bindings[k - 1].outputNames, bindings[k - 1].outputs, managed, x);
      if x in pools[k - 1] {
        PoolScope(pools, bindings, managed, k - 1, x);
      }
    }
  }

  /** Bound tensors of a list that grows by one name grow by that name's tensor. */
  lemma BoundSnoc(names: seq<string>, values: seq<Tensor?>, picked: seq<string>, x: string)
    requires |names| == |values|
    ensures Bound(names, values, picked + [x]) == Bound(names, values, picked) + [Lookup(names, values, x)]
  {
    var a := Bound(names, values, picked + [x]);
    var b := Bound(names, values, picked) + [Lookup(names, values, x)];
    assert forall k :: 0 <= k < |a| ==> a[k] == b[k];
  }

  /**
   * The managed-name loops of `Run`: walk the managed list and pick every name stage `s` declares
   * (as an input when `input`, as an output otherwise) with its managed tensor, failing at the first
   * picked name when the stage cannot take tensors on `device`.
   */
  method PickManaged(s: Stage, names: seq<string>, values: seq<Tensor?>, device: DeviceType, input: bool)
    returns (r: Outcome<PipelineError>, picked: seq<string>, tensors: seq<Tensor?>)
    requires |names| == |values|
    ensures r == DeviceCheck(device, s.entry, Declared(names, if input then s.entry.inputs else s.entry.outputs), input)
    ensures r.Pass? ==> picked == Declared(names, if input then s.entry.inputs else s.entry.outputs)
    ensures r.Pass? ==> tensors == Bound(names, values, picked)
  {
    ghost var declared := if input then s.entry.inputs else s.entry.outputs;
    picked, tensors := [], [];
    var i := 0;
    while i < |names|
      invariant 0 <= i <= |names|
      invariant picked == Declared(names[..i], declared)
      invariant tensors == Bound(names, values, picked)
      invariant picked != [] ==> SupportsPrimaryDevice(device, s.entry) == Success(true)
    {
      var name := names[i];
      DeclaredSnoc(names, i, declared);
      if (if input then s.HasInput(name) else s.HasOutput(name)) {
        var supported := SupportsPrimaryDevice(device, s.entry);
        if supported != Success(true) {
          DeclaredFirst(names, i, declared);
          r := if supported.Failure? then Fail(supported.error)
               else if input then Fail(ManagedInputElsewhere(name, s.entry.modelId))
               else Fail(ManagedOutputElsewhere(name, s.entry.modelId));
          return;
        }
        BoundSnoc(names, values, picked, name);
        picked := picked + [name];
        tensors := tensors + [Lookup(names, values, name)];
      }
      i := i + 1;
    }
    assert names[..i] == names;
    r := Pass;
  }

  /** The pool loop of `Run`: every pool entry whose name stage `s` declares as an input. */
  method PickPool(s: Stage, pool: map<string, Tensor?>) returns (picked: seq<string>, tensors: seq<Tensor?>)
    ensures PoolAttached(picked, tensors, pool, s.entry.inputs)
  {
    picked, tensors := [], [];
    var rest := pool.Keys;
    while rest != {}
      invariant rest <= pool.Keys && |picked| == |tensors|
      invariant Distinct(picked)
      invariant forall x :: x in picked <==> x in pool && x !in rest && x in s.entry.inputs
      invariant forall k :: 0 <= k < |picked| ==> picked[k] in pool && tensors[k] == pool[picked[k]]
      decreases rest
    {
      var name :| name in rest;
      if s.HasInput(name) {
        picked := picked + [name];
        tensors := tensors + [pool[name]];
      }
      rest := rest - {name};
    }
  }

  /** The fill-in loop of `Run`: the output names once every declared output is listed. */
  method FillNames(have: seq<string>, declared: seq<string>) returns (names: seq<string>)
    ensures names == Fill(have, declared)
  {
    names := have;
    var i := 0;
    while i < |declared|
      invariant 0 <= i <= |declared|
      invariant names == Fill(have, declared[..i])
    {
      assert declared[..i + 1][..i] == declared[..i];
      if !Occurs(names, declared[i]) {
        names := names + [declared[i]];
      }
      i := i + 1;
    }
    assert declared[..i] == declared;
  }

  // ---------------------------------------------------------------------------------------------
  // Stages

  /** `IntermediatePipelineState`: one stage, its configuration entry and its own bound lists. */
  class Stage {
    const id: nat
    const entry: Config.PipelineModel
    const io: Io

    constructor (id: nat, entry: Config.PipelineModel)
      ensures this.id == id && this.entry == entry
      ensures fresh(io) && io.Valid()
      ensures io.inputNames == [] && io.inputs == [] && io.outputNames == [] && io.outputs == []
    {
      this.id := id;
      this.entry := entry;
      io := new Io();
    }

    /** `HasInput`: the stage's configuration declares `name` as an input. */
    function HasInput(name: string): (b: bool)
      ensures b <==> name in entry.inputs
    {
      Occurs(entry.inputs, name)
    }

    /** `HasOutput`: the stage's configuration declares `name` as an output. */
    function HasOutput(name: string): (b: bool)
      ensures b <==> name in entry.outputs
    {
      Occurs(entry.outputs, name)
    }
  }

  // ---------------------------------------------------------------------------------------------
  // The pipeline state

  /** `DecoderOnlyPipelineState`: the managed lists, one stage per pipeline entry and the first-run flag. */
  class PipelineState {
    const device: DeviceType
    /** The pipeline state's own lists: the managed inputs and outputs. */
    const managed: Io
    const stages: seq<Stage>
    var firstRun: bool
    ghost var trace: seq<Event>
    /** The lists of every stage. */
    ghost const ios: set<Io>

    ghost predicate Valid()
      reads this, managed
    {
      && managed.Valid()
      && managed !in ios
      && (forall i :: 0 <= i < |stages| ==> stages[i].id == i && stages[i].io in ios)
      && (forall i, j :: 0 <= i < j < |stages| ==> stages[i].io != stages[j].io)
    }

    /** The configuration entry of every stage, in order. */
    function Entries(): (r: seq<Config.PipelineModel>)
      ensures |r| == |stages| && forall i :: 0 <= i < |stages| ==> r[i] == stages[i].entry
    {
      seq(|stages|, i requires 0 <= i < |stages| => stages[i].entry)
    }

    /**
     * The constructor: one stage per pipeline entry, in configuration order, each with its own empty
     * lists. The managed lists are the ones the input ids, positions, logits, KV cache and extra
     * inputs have already added.
     */
    constructor (device: DeviceType, managed: Io, pipeline: seq<Config.PipelineModel>)
      requires managed.Valid()
      ensures Valid() && this.device == device && this.managed == managed
      ensures |stages| == |pipeline| && forall i :: 0 <= i < |pipeline| ==> stages[i].entry == pipeline[i]
      ensures forall i :: 0 <= i < |stages| ==> fresh(stages[i].io)
      ensures forall i :: 0 <= i < |stages| ==> stages[i].io.inputNames == [] && stages[i].io.inputs == []
      ensures forall i :: 0 <= i < |stages| ==> stages[i].io.outputNames == [] && stages[i].io.outputs == []
      ensures firstRun && trace == []
    {
      var built: seq<Stage> := [];
      ghost var lists: set<Io> := {};
      while |built| < |pipeline|
        invariant |built| <= |pipeline|
        invariant forall i :: 0 <= i < |built| ==> built[i].id == i && built[i].entry == pipeline[i] && fresh(built[i].io)
        invariant forall i, j :: 0 <= i < j < |built| ==> built[i].io != built[j].io
        invariant forall i :: 0 <= i < |built| ==> built[i].io in lists
        invariant forall o :: o in lists ==> fresh(o)
        invariant forall i :: 0 <= i < |built| ==> built[i].io.inputNames == [] && built[i].io.inputs == []
        invariant forall i :: 0 <= i < |built| ==> built[i].io.outputNames == [] && built[i].io.outputs == []
      {
        var s := new Stage(|built|, pipeline[|built|]);
        built := built + [s];
        lists := lists + {s.io};
      }
      this.device := device;
      this.managed := managed;
      stages := built;
      ios := lists;
      firstRun := true;
      trace := [];
    }

    /** A stage refuses managed inputs first, then managed outputs. */
    function StageCheck(s: Stage): (r: Outcome<PipelineError>)
      reads managed
      ensures r.Pass? <==> (Declared(managed.inputNames, s.entry.inputs) == [] &&
                            Declared(managed.outputNames, s.entry.outputs) == []) ||
                           SupportsPrimaryDevice(device, s.entry) == Success(true)
    {
      var inputs := DeviceCheck(device, s.entry, Declared(managed.inputNames, s.entry.inputs), true);
      if inputs.Fail? then inputs
      else DeviceCheck(device, s.entry, Declared(managed.outputNames, s.entry.outputs), false)
    }

    /**
     * `UpdateInputsOutputs`: the managed tensors move on to the next step (the input ids, positions, KV
     * cache and logits update themselves; only the call is recorded here).
     */
    method UpdateInputsOutputs(nextTokens: seq<int>, beamIndices: seq<int>, currentLength: int)
      modifies this`trace
      ensures trace == old(trace) + [Updated(nextTokens, beamIndices, currentLength)]
    {
      trace := trace + [Updated(nextTokens, beamIndices, currentLength)];
    }

    /**
     * `Run`: one decoding step. Every step but the first starts by updating the managed tensors; then
     * every stage runs in configuration order with the pool of tensors the stages before it published
     * in this step. A stage that declares a managed name but cannot take tensors on the model's device
     * stops the step before it runs. `pools[i]` is the pool stage `i` started with and `bindings[i]` the
     * lists it was left with.
     */
    method Run(nextTokens: seq<int>, beamIndices: seq<int>, currentLength: int, session: Session)
      returns (r: Outcome<PipelineError>, ghost pools: seq<map<string, Tensor?>>, ghost bindings: seq<Lists>)
      requires Valid()
      modifies this`firstRun, this`trace, ios
      ensures Valid() && !firstRun
      ensures trace == old(trace) + (if old(firstRun) then [] else [Updated(nextTokens, beamIndices, currentLength)])
                                  + Executions(|bindings|)
      ensures StagesRan(r, pools, bindings, session)
      ensures forall i :: |pools| <= i < |stages| ==> unchanged(stages[i].io)
    {
      if !firstRun {
        UpdateInputsOutputs(nextTokens, beamIndices, currentLength);
      }
      firstRun := false;
      r, pools, bindings := RunStages(session);
    }

    /**
     * The stages of one step ran in order: all of them, or up to the one that failed its device check
     * (which did not run). The pools start empty and pass on what each stage published; `bindings[i]`
     * is what stage `i` ran with and is left with.
     */
    ghost predicate StagesRan(r: Outcome<PipelineError>, pools: seq<map<string, Tensor?>>, bindings: seq<Lists>,
                              session: Session)
      requires Valid()
      reads this, managed, ios
    {
      && (r.Pass? ==> |pools| == |stages| && |bindings| == |stages|)
      && (r.Fail? ==> 0 < |pools| <= |stages| && |bindings| == |pools| - 1 && StageCheck(stages[|pools| - 1]) == r)
      && |bindings| <= |pools| && (forall i :: 0 <= i < |bindings| ==> ListsOf(stages[i].io) == bindings[i])
      && AllRan(Entries(), bindings, pools[..|bindings|], ListsOf(managed), session)
      && (|pools| > 0 ==> Chained(pools, bindings[..|pools| - 1], managed.outputNames))
    }

    /** The stage loop of `Run`. */
    method RunStages(session: Session)
      returns (r: Outcome<PipelineError>, ghost pools: seq<map<string, Tensor?>>, ghost bindings: seq<Lists>)
      requires Valid()
      modifies this`trace, ios
      ensures Valid()
      ensures trace == old(trace) + Executions(|bindings|)
      ensures StagesRan(r, pools, bindings, session)
      ensures forall i :: |pools| <= i < |stages| ==> unchanged(stages[i].io)
    {
      ghost var start := trace;
      ghost var m := ListsOf(managed);
      var pool: map<string, Tensor?> := map[];
      pools, bindings := [], [];
      var i := 0;
      while i < |stages|
        invariant Progress(i, pools, bindings, pool, m, start, session)
        invariant forall k :: i <= k < |stages| ==> unchanged(stages[k].io)
      {
        var next, b := Advance(i, pool, session, pools, bindings, m, start);
        if next.Failure? {
          return Fail(next.error), pools + [pool], bindings;
        }
        pools, bindings, pool, i := pools + [pool], bindings + [b], next.value, i + 1;
      }
      Completed(pools, bindings, pool, m, start, session);
      r := Pass;
    }

    /**
     * Stages `0 .. i - 1` of a step ran and published, starting from the trace `start`: `pools` are the
     * pools they started with, `bindings` the lists they were left with and `pool` the one stage `i`
     * starts with.
     */
    ghost predicate Progress(i: nat, pools: seq<map<string, Tensor?>>, bindings: seq<Lists>, pool: map<string, Tensor?>,
                             m: Lists, start: seq<Event>, session: Session)
      reads this, managed, ios
    {
      && Valid() && ListsOf(managed) == m
      && i <= |stages| && |pools| == i && |bindings| == i
      && trace == start + Executions(i)
      && Chained(pools + [pool], bindings, m.outputNames)
      && AllRan(Entries(), bindings, pools, m, session)
      && (forall k :: 0 <= k < i ==> ListsOf(stages[k].io) == bindings[k])
    }

    /** A step where every stage ran passes. */
    lemma Completed(pools: seq<map<string, Tensor?>>, bindings: seq<Lists>, pool: map<string, Tensor?>, m: Lists,
                    start: seq<Event>, session: Session)
      requires Progress(|stages|, pools, bindings, pool, m, start, session)
      ensures Valid() && trace == start + Executions(|bindings|)
      ensures StagesRan(Pass, pools, bindings, session)
    {
      Finished(pools, bindings, pool, m.outputNames);
    }

    /** A step stopped by stage `i`'s check fails with that check's error; stage `i` did not run. */
    lemma Stopped(i: nat, pools: seq<map<string, Tensor?>>, bindings: seq<Lists>, pool: map<string, Tensor?>, m: Lists,
                  start: seq<Event>, session: Session)
      requires Progress(i, pools, bindings, pool, m, start, session)
      requires i < |stages| && StageCheck(stages[i]).Fail?
      ensures Valid() && trace == start + Executions(|bindings|)
      ensures StagesRan(StageCheck(stages[i]), pools + [pool], bindings, session)
    {
      StoppedAt(pools, bindings, pool, m.outputNames);
    }

    /** Stage `i` runs after stages `0 .. i - 1`, extending the record, or stops the step. */
    method Advance(i: nat, pool: map<string, Tensor?>, session: Session, ghost pools: seq<map<string, Tensor?>>,
                   ghost bindings: seq<Lists>, ghost m: Lists, ghost start: seq<Event>)
      returns (r: Result<map<string, Tensor?>, PipelineError>, ghost b: Lists)
      requires Progress(i, pools, bindings, pool, m, start, session) && i < |stages|
      modifies stages[i].io, this`trace
      ensures r.Failure? ==> && Valid() && trace == start + Executions(|bindings|)
                             && StagesRan(Fail(r.error), pools + [pool], bindings, session)
      ensures r.Success? ==> Progress(i + 1, pools + [pool], bindings + [b], r.value, m, start, session)
      ensures forall k :: i < k < |stages| ==> unchanged(stages[k].io)
    {
      r, b := Step(stages[i], pool, session);
      assert forall k :: 0 <= k < i ==> ListsOf(stages[k].io) == bindings[k];
      if r.Failure? {
        assert Progress(i, pools, bindings, pool, m, start, session);
        Stopped(i, pools, bindings, pool, m, start, session);
      } else {
        AllRanSnoc(Entries(), bindings, pools, m, session, b, pool);
        ChainedSnoc(pools + [pool], bindings, m.outputNames, b, r.value);
        ExecutionsSnoc(i);
      }
    }

    /** One stage of `Run`: bind it, run its session and publish its unmanaged outputs. */
    method Step(s: Stage, pool: map<string, Tensor?>, session: Session)
      returns (r: Result<map<string, Tensor?>, PipelineError>, ghost b: Lists)
      requires managed.Valid() && s.io != managed
      modifies s.io, this`trace
      ensures r.Failure? <==> StageCheck(s).Fail?
      ensures r.Failure? ==> StageCheck(s) == Fail(r.error) && trace == old(trace)
      ensures r.Success? ==> && b == ListsOf(s.io)
                             && StageRan(b, s.id, s.entry, ListsOf(managed), pool, session)
                             && r.value == Publish(pool, b.outputNames, b.outputs, managed.outputNames)
                             && trace == old(trace) + [Executed(s.id)]
    {
      b := ListsOf(s.io);
      var check := BindInputs(s, pool);
      if check.Fail? {
        return Failure(check.error), b;
      }
      check := BindOutputs(s);
      if check.Fail? {
        return Failure(check.error), b;
      }
      s.io.outputs := Execute(session, s.id, s.io.inputNames, s.io.inputs, s.io.outputNames, s.io.outputs);
      trace := trace + [Executed(s.id)];
      b := ListsOf(s.io);
      var next := PublishOutputs(s, pool);
      r := Success(next);
    }

    /**
     * The input half of one stage of `Run`: the stage's lists are cleared, then it gets the managed
     * inputs it declares, in managed order, then the pool tensors it declares.
     */
    method BindInputs(s: Stage, pool: map<string, Tensor?>) returns (r: Outcome<PipelineError>)
      requires managed.Valid() && s.io != managed
      modifies s.io
      ensures r == DeviceCheck(device, s.entry, Declared(managed.inputNames, s.entry.inputs), true)
      ensures r.Pass? ==> InputsBound(s, pool)
    {
      s.io.ClearIO();
      var inNames, ins;
      r, inNames, ins := PickManaged(s, managed.inputNames, managed.inputs, device, true);
      if r.Fail? {
        return;
      }
      var poolNames, poolTensors := PickPool(s, pool);
      s.io.inputNames, s.io.inputs := inNames + poolNames, ins + poolTensors;
      assert s.io.inputNames[..|inNames|] == inNames && s.io.inputs[..|inNames|] == ins;
      assert s.io.inputNames[|inNames|..] == poolNames && s.io.inputs[|inNames|..] == poolTensors;
    }

    /** The input lists of stage `s` as `StageRan` requires them, with `pool` as the pool. */
    ghost predicate InputsBound(s: Stage, pool: map<string, Tensor?>)
      reads managed, s.io
    {
      var ins := Declared(managed.inputNames, s.entry.inputs);
      && managed.Valid()
      && |s.io.inputNames| == |s.io.inputs| && |ins| <= |s.io.inputNames|
      && s.io.inputNames[..|ins|] == ins
      && s.io.inputs[..|ins|] == Bound(managed.inputNames, managed.inputs, ins)
      && PoolAttached(s.io.inputNames[|ins|..], s.io.inputs[|ins|..], pool, s.entry.inputs)
    }

    /**
     * The output half of one stage of `Run`: the stage gets the managed outputs it declares, in
     * managed order, then a null slot for every other output it declares. Its inputs are kept.
     */
    method BindOutputs(s: Stage) returns (r: Outcome<PipelineError>)
      requires managed.Valid() && s.io != managed
      modifies s.io
      ensures r == DeviceCheck(device, s.entry, Declared(managed.outputNames, s.entry.outputs), false)
      ensures s.io.inputNames == old(s.io.inputNames) && s.io.inputs == old(s.io.inputs)
      ensures r.Pass? ==> OutputsBound(s)
    {
      var outNames, outs;
      r, outNames, outs := PickManaged(s, managed.outputNames, managed.outputs, device, false);
      if r.Fail? {
        return;
      }
      var names := FillNames(outNames, s.entry.outputs);
      s.io.SetOutputs(names, outs + Repeat<Tensor?>(null, |names| - |outNames|));
    }

    /** The output lists of stage `s`, before its session runs, as `StageRan` requires them. */
    ghost predicate OutputsBound(s: Stage)
      reads managed, s.io
    {
      var outs := Declared(managed.outputNames, s.entry.outputs);
      && managed.Valid()
      && s.io.outputNames == Fill(outs, s.entry.outputs) && |outs| <= |s.io.outputNames|
      && s.io.outputs == Bound(managed.outputNames, managed.outputs, outs) + Repeat<Tensor?>(null, |s.io.outputNames| - |outs|)
    }

    /** The pool after stage `s` publishes every output that is not a managed output. */
    method PublishOutputs(s: Stage, pool: map<string, Tensor?>) returns (next: map<string, Tensor?>)
      requires s.io.Valid()
      ensures next == Publish(pool, s.io.outputNames, s.io.outputs, managed.outputNames)
    {
      var names := s.io.outputNames;
      var values := s.io.outputs;
      next := pool;
      var i := 0;
      while i < |names|
        invariant 0 <= i <= |names|
        invariant next == Publish(pool, names[..i], values[..i], managed.outputNames)
      {
        assert names[..i + 1][..i] == names[..i] && values[..i + 1][..i] == values[..i];
        if !Occurs(managed.outputNames, names[i]) {
          next := next[names[i] := values[i]];
        }
        i := i + 1;
      }
      assert names[..i] == names && values[..i] == values;
    }
  }
}
