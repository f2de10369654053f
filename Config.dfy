/**
 * Interpretation of `genai_config.json` (src/config.cpp).
 *
 * The JSON tokenizer walks the document and hands each `*_Element` handler already-parsed events:
 * a string, number or boolean member (`OnString`/`OnNumber`/`OnBool`), the start of a nested object
 * or array (`OnObject`/`OnArray`, which answer with the element that takes the nested events) and
 * the end of an array (`OnComplete`). Each element refers to one configuration record. Here every
 * record is a datatype and every handler a function from the record and the event to the updated
 * record, or to the error the handler throws. JSON numbers arrive as integers.
 */
module Config {
  import opened Wrappers

  datatype ConfigError =
    | UnknownValue                 // JSON::unknown_value_error: a member name the element does not handle
    | InvalidTensorType(value: string)
    | ProviderObjectHasMember      // a provider_options object with more than one member
    | ContextLengthZero
    | DuplicateNominalName(nominal: string, graph: string, existing: string)

  /** The value a member name reads back from a record; `Unset` for an absent optional field or an unknown name. */
  datatype Setting = Text(text: string) | Number(number: int) | Flag(flag: bool) | Unset

  function OptText(o: Option<string>): Setting { if o.Some? then Text(o.value) else Unset }
  function OptNumber(o: Option<int>): Setting { if o.Some? then Number(o.value) else Unset }
  function OptFlag(o: Option<bool>): Setting { if o.Some? then Flag(o.value) else Unset }

  // ---------------------------------------------------------------------------------------------
  // Tensor element types

  datatype TensorType = Float | Float16

  /** The configuration spelling of each element type. */
  function TensorTypeName(t: TensorType): string
  {
    match t
    case Float => "float32"
    case Float16 => "float16"
  }

  function TranslateTensorType(value: string): (r: Result<TensorType, ConfigError>)
    ensures r.Success? <==> value == "float32" || value == "float16"
    ensures r.Success? ==> TensorTypeName(r.value) == value
    ensures r.Failure? ==> r.error == InvalidTensorType(value)
  {
    if value == "float32" then Success(Float)
    else if value == "float16" then Success(Float16)
    else Failure(InvalidTensorType(value))
  }

  /** Translating the spelling of a type gives back that type. */
  lemma TranslateTensorTypeRoundTrip(t: TensorType)
    ensures TranslateTensorType(TensorTypeName(t)) == Success(t)
  {
    match t
    case Float =>
    case Float16 =>
  }

  // ---------------------------------------------------------------------------------------------
  // Provider options: an array of one-member objects `{ "<provider>": { "<option>": "<value>", ... } }`

  datatype ProviderOptions = ProviderOptions(name: string, options: seq<(string, string)>)

  /** `ProviderOptions_Element::OnString`: every member of the provider's object is kept, in order. */
  function ProviderOptionsOnString(p: ProviderOptions, name: string, value: string): (r: ProviderOptions)
    ensures r.name == p.name && |r.options| == |p.options| + 1
    ensures r.options[..|p.options|] == p.options && r.options[|p.options|] == (name, value)
  {
    p.(options := p.options + [(name, value)])
  }

  /** The value of the first option named `key`, if any. */
  function FindOption(options: seq<(string, string)>, key: string): (r: Option<string>)
    ensures r.None? <==> forall i :: 0 <= i < |options| ==> options[i].0 != key
    ensures r.Some? ==> exists i :: 0 <= i < |options| && options[i] == (key, r.value) &&
                                    forall j :: 0 <= j < i ==> options[j].0 != key
  {
    if options == [] then None
    else if options[0].0 == key then Some(options[0].1)
    else
      var r := FindOption(options[1..], key);
      assert r.Some? ==> exists i :: 1 <= i < |options| && options[i] == (key, r.value) &&
                                     forall j :: 0 <= j < i ==> options[j].0 != key by {
        if r.Some? {
          var i :| 0 <= i < |options[1..]| && options[1..][i] == (key, r.value) &&
                   forall j :: 0 <= j < i ==> options[1..][j].0 != key;
          assert options[i + 1] == (key, r.value);
          assert forall j :: 1 <= j < i + 1 ==> options[j].0 != key by {
            forall j | 1 <= j < i + 1 ensures options[j].0 != key {
              assert options[j] == options[1..][j - 1];
            }
          }
        }
      }
      r
  }

  /** Appending an option never changes what an earlier option of the same name says. */
  lemma {:induction false} FindOptionAfterOnString(p: ProviderOptions, name: string, value: string, key: string)
    ensures FindOption(ProviderOptionsOnString(p, name, value).options, key) ==
            if FindOption(p.options, key).Some? then FindOption(p.options, key)
            else if key == name then Some(value) else None
    decreases |p.options|
  {
    var opts := p.options;
    var r := ProviderOptionsOnString(p, name, value).options;
    if opts == [] {
      assert r == [(name, value)];
    } else {
      var q := ProviderOptions(p.name, opts[1..]);
      FindOptionAfterOnString(q, name, value, key);
      assert ProviderOptionsOnString(q, name, value).options == r[1..];
    }
  }

  /**
   * `ProviderOptionsObject_Element::OnObject`: the element accepts one named member, which appends a
   * provider of that name; a member arriving after one was accepted throws. `used` is whether the
   * element has already created its `ProviderOptions_Element`.
   */
  function ProviderObjectOnObject(used: bool, list: seq<ProviderOptions>, name: string): (r: Result<seq<ProviderOptions>, ConfigError>)
    ensures r.Failure? <==> used
    ensures r.Failure? ==> r.error == ProviderObjectHasMember
    ensures r.Success? ==> |r.value| == |list| + 1 && r.value[..|list|] == list
    ensures r.Success? ==> r.value[|list|] == ProviderOptions(name, [])
  {
    if used then Failure(ProviderObjectHasMember)
    else Success(list + [ProviderOptions(name, [])])
  }

  /** The option events of one provider, applied to the provider the object member created. */
  function FeedOptions(p: ProviderOptions, options: seq<(string, string)>): (r: ProviderOptions)
    ensures r.name == p.name && r.options == p.options + options
    decreases |options|
  {
    if options == [] then p
    else
      var q := ProviderOptionsOnString(p, options[0].0, options[0].1);
      assert p.options + options == q.options + options[1..];
      FeedOptions(q, options[1..])
  }

  /**
   * The members of one object of a provider_options array, fed to a `ProviderOptionsObject_Element`
   * whose state is `used`: each member is `OnObject(member.name)` followed by its options.
   * Yields the new list and the element's state afterwards.
   */
  function ProviderObjectMembers(used: bool, list: seq<ProviderOptions>, members: seq<ProviderOptions>): Result<(seq<ProviderOptions>, bool), ConfigError>
    decreases |members|
  {
    if members == [] then Success((list, used))
    else match ProviderObjectOnObject(used, list, members[0].name)
      case Failure(e) => Failure(e)
      case Success(l) =>
        ProviderObjectMembers(true, l[|l| - 1 := FeedOptions(l[|l| - 1], members[0].options)], members[1..])
  }

  /**
   * A whole provider_options array as the source parses it: `ProviderOptionsArray_Element::OnObject`
   * answers every array entry with its single `object_` member, so the object element's state is
   * shared by all entries of the array. `entries[i]` lists the members of the i-th object.
   */
  function ProviderArrayAsWritten(used: bool, list: seq<ProviderOptions>, entries: seq<seq<ProviderOptions>>): Result<seq<ProviderOptions>, ConfigError>
    decreases |entries|
  {
    if entries == [] then Success(list)
    else match ProviderObjectMembers(used, list, entries[0])
      case Failure(e) => Failure(e)
      case Success((l, u)) => ProviderArrayAsWritten(u, l, entries[1..])
  }

  /** As written, an array holding two or more provider objects is rejected, whatever they hold. */
  lemma {:induction false} ProviderArrayAsWrittenRejectsSecondProvider(list: seq<ProviderOptions>, entries: seq<seq<ProviderOptions>>)
    requires |entries| >= 2 && forall i :: 0 <= i < |entries| ==> |entries[i]| >= 1
    ensures ProviderArrayAsWritten(false, list, entries) == Failure(ProviderObjectHasMember)
  {
    var first := entries[0];
    match ProviderObjectMembers(false, list, first)
    case Failure(e) =>
      ProviderMembersRejectSecond(false, list, first);
    case Success((l, u)) =>
      ProviderMembersMarkUsed(false, list, first);
      SharedElementRejects(l, entries[1..]);
  }

  /** Once the shared object element holds a member, any further non-empty entry throws. */
  lemma {:induction false} SharedElementRejects(list: seq<ProviderOptions>, entries: seq<seq<ProviderOptions>>)
    requires |entries| >= 1 && |entries[0]| >= 1
    ensures ProviderArrayAsWritten(true, list, entries) == Failure(ProviderObjectHasMember)
  {
    assert ProviderObjectMembers(true, list, entries[0]) == Failure(ProviderObjectHasMember);
  }

  /** A non-empty member list leaves the object element marked as used. */
  lemma {:induction false} ProviderMembersMarkUsed(used: bool, list: seq<ProviderOptions>, members: seq<ProviderOptions>)
    requires |members| >= 1
    ensures ProviderObjectMembers(used, list, members).Success? ==> ProviderObjectMembers(used, list, members).value.1
    decreases |members|
  {
    if !used {
      var l := list + [ProviderOptions(members[0].name, [])];
      var l' := l[|l| - 1 := FeedOptions(l[|l| - 1], members[0].options)];
      if |members| > 1 {
        ProviderMembersMarkUsed(true, l', members[1..]);
      }
    }
  }

  /** A second member in one object fails; so does any member once the element is used. */
  lemma {:induction false} ProviderMembersRejectSecond(used: bool, list: seq<ProviderOptions>, members: seq<ProviderOptions>)
    requires |members| >= 1
    ensures ProviderObjectMembers(used, list, members).Failure? ==>
              ProviderObjectMembers(used, list, members).error == ProviderObjectHasMember
    ensures ProviderObjectMembers(used, list, members).Failure? <==> used || |members| >= 2
    decreases |members|
  {
    if !used {
      var l := list + [ProviderOptions(members[0].name, [])];
      var l' := l[|l| - 1 := FeedOptions(l[|l| - 1], members[0].options)];
      if |members| > 1 {
        ProviderMembersRejectSecond(true, l', members[1..]);
      }
    }
  }

  /**
   * The evidently intended parse: a fresh object element for every array entry, so each entry may
   * name one provider and the providers are appended in array order.
   */
  function ProviderArray(list: seq<ProviderOptions>, entries: seq<seq<ProviderOptions>>): Result<seq<ProviderOptions>, ConfigError>
    decreases |entries|
  {
    if entries == [] then Success(list)
    else match ProviderObjectMembers(false, list, entries[0])
      case Failure(e) => Failure(e)
      case Success((l, _)) => ProviderArray(l, entries[1..])
  }

  /** The providers named by one-member entries, each with its options in order. */
  function EntryProviders(entries: seq<seq<ProviderOptions>>): seq<ProviderOptions>
    requires forall i :: 0 <= i < |entries| ==> |entries[i]| == 1
  {
    if entries == [] then [] else [ProviderOptions(entries[0][0].name, entries[0][0].options)] + EntryProviders(entries[1..])
  }

  /** With one element per entry, every one-member object is accepted and appended in order. */
  lemma {:induction false} ProviderArrayAppendsInOrder(list: seq<ProviderOptions>, entries: seq<seq<ProviderOptions>>)
    requires forall i :: 0 <= i < |entries| ==> |entries[i]| == 1
    ensures ProviderArray(list, entries) == Success(list + EntryProviders(entries))
    decreases |entries|
  {
    if entries != [] {
      var m := entries[0][0];
      var l := list + [ProviderOptions(m.name, [])];
      var l' := l[|l| - 1 := FeedOptions(l[|l| - 1], m.options)];
      assert ProviderObjectMembers(false, list, entries[0]) == ProviderObjectMembers(true, l', []);
      assert [] + m.options == m.options;
      assert l' == list + [ProviderOptions(m.name, m.options)];
      assert ProviderObjectMembers(true, l', []) == Success((l', true));
      assert ProviderArray(list, entries) == ProviderArray(l', entries[1..]);
      ProviderArrayAppendsInOrder(l', entries[1..]);
      assert EntryProviders(entries) == [ProviderOptions(m.name, m.options)] + EntryProviders(entries[1..]);
      assert list + EntryProviders(entries) == l' + EntryProviders(entries[1..]);
    } else {
      assert list + [] == list;
    }
  }

  /** With one element per entry, an object with two members is still rejected. */
  lemma {:induction false} ProviderArrayRejectsTwoMembers(list: seq<ProviderOptions>, entries: seq<seq<ProviderOptions>>, k: nat)
    requires k < |entries| && |entries[k]| >= 2
    requires forall i :: 0 <= i < k ==> |entries[i]| == 1
    ensures ProviderArray(list, entries) == Failure(ProviderObjectHasMember)
    decreases k
  {
    if k == 0 {
      ProviderMembersRejectSecond(false, list, entries[0]);
    } else {
      var m := entries[0][0];
      var l := list + [ProviderOptions(m.name, [])];
      var l' := l[|l| - 1 := FeedOptions(l[|l| - 1], m.options)];
      assert ProviderObjectMembers(false, list, entries[0]) == ProviderObjectMembers(true, l', []);
      ProviderArrayRejectsTwoMembers(l', entries[1..], k - 1);
    }
  }

  // ---------------------------------------------------------------------------------------------
  // Nested objects and arrays

  /** The member elements a handler answers `OnObject`/`OnArray` with, named by their member name. */
  datatype Member =
    | SessionOptionsMember | InputsMember | OutputsMember | PipelineMember | ProviderOptionsMember
    | OutputNamesForwarderMember | EosTokenIdsMember
    | ModelMember | SearchMember | EncoderMember | DecoderMember | VisionMember | EmbeddingMember

  /** The JSON member name under which each member element is reached. */
  function MemberName(m: Member): string
  {
    match m
    case SessionOptionsMember => "session_options"
    case InputsMember => "inputs"
    case OutputsMember => "outputs"
    case PipelineMember => "pipeline"
    case ProviderOptionsMember => "provider_options"
    case OutputNamesForwarderMember => "output_names_forwarder"
    case EosTokenIdsMember => "eos_token_id"
    case ModelMember => "model"
    case SearchMember => "search"
    case EncoderMember => "encoder"
    case DecoderMember => "decoder"
    case VisionMember => "vision"
    case EmbeddingMember => "embedding"
  }

  // ---------------------------------------------------------------------------------------------
  // Session options

  datatype SessionOptions = SessionOptions(
    logId: Option<string>, enableProfiling: Option<string>,
    epContextEmbedMode: Option<string>, epContextFilePath: Option<string>,
    intraOpNumThreads: Option<int>, interOpNumThreads: Option<int>, logSeverityLevel: Option<int>,
    enableCpuMemArena: Option<bool>, enableMemPattern: Option<bool>, disableCpuEpFallback: Option<bool>,
    disableQuantQdq: Option<bool>, enableQuantQdqCleanup: Option<bool>, epContextEnable: Option<bool>,
    useEnvAllocators: Option<bool>,
    providerOptions: seq<ProviderOptions>)

  /** `Config::SessionOptions{}`: nothing set, no providers. */
  const EmptySessionOptions := SessionOptions(None, None, None, None, None, None, None,
                                              None, None, None, None, None, None, None, [])

  const SessionStringKeys := {"log_id", "enable_profiling", "ep_context_embed_mode", "ep_context_file_path"}
  const SessionNumberKeys := {"intra_op_num_threads", "inter_op_num_threads", "log_severity_level"}
  const SessionBoolKeys := {"enable_cpu_mem_arena", "enable_mem_pattern", "disable_cpu_ep_fallback",
                            "disable_quant_qdq", "enable_quant_qdq_cleanup", "ep_context_enable",
                            "use_env_allocators"}

  /** The session-options settings. */
  datatype SessionKey =
    | LogId | EnableProfiling | EpContextEmbedMode | EpContextFilePath | IntraOpNumThreads
    | InterOpNumThreads | LogSeverityLevel | EnableCpuMemArena | EnableMemPattern | DisableCpuEpFallback
    | DisableQuantQdq | EnableQuantQdqCleanup | EpContextEnable | UseEnvAllocators

  /** The JSON member name of each key. */
  function SessionKeyName(k: SessionKey): string
  {
    match k
    case LogId => "log_id"
    case EnableProfiling => "enable_profiling"
    case EpContextEmbedMode => "ep_context_embed_mode"
    case EpContextFilePath => "ep_context_file_path"
    case IntraOpNumThreads => "intra_op_num_threads"
    case InterOpNumThreads => "inter_op_num_threads"
    case LogSeverityLevel => "log_severity_level"
    case EnableCpuMemArena => "enable_cpu_mem_arena"
    case EnableMemPattern => "enable_mem_pattern"
    case DisableCpuEpFallback => "disable_cpu_ep_fallback"
    case DisableQuantQdq => "disable_quant_qdq"
    case EnableQuantQdqCleanup => "enable_quant_qdq_cleanup"
    case EpContextEnable => "ep_context_enable"
    case UseEnvAllocators => "use_env_allocators"
  }

  /** The key a string member name names, if any, tested in the order `SessionOptions_Element::OnString` tests them. */
  function SessionTextKeyNamed(name: string): (r: Option<SessionKey>)
    ensures r.Some? ==> SessionKeyName(r.value) == name
  {
    if name == "log_id" then Some(LogId)
    else if name == "enable_profiling" then Some(EnableProfiling)
    else if name == "ep_context_embed_mode" then Some(EpContextEmbedMode)
    else if name == "ep_context_file_path" then Some(EpContextFilePath)
    else None
  }

  /** The key a number member name names, if any, tested in the order `SessionOptions_Element::OnNumber` tests them. */
  function SessionNumberKeyNamed(name: string): (r: Option<SessionKey>)
    ensures r.Some? ==> SessionKeyName(r.value) == name
  {
    if name == "intra_op_num_threads" then Some(IntraOpNumThreads)
    else if name == "inter_op_num_threads" then Some(InterOpNumThreads)
    else if name == "log_severity_level" then Some(LogSeverityLevel)
    else None
  }

  /** The key a boolean member name names, if any, tested in the order `SessionOptions_Element::OnBool` tests them. */
  function SessionFlagKeyNamed(name: string): (r: Option<SessionKey>)
    ensures r.Some? ==> SessionKeyName(r.value) == name
  {
    if name == "enable_cpu_mem_arena" then Some(EnableCpuMemArena)
    else if name == "enable_mem_pattern" then Some(EnableMemPattern)
    else if name == "disable_cpu_ep_fallback" then Some(DisableCpuEpFallback)
    else if name == "disable_quant_qdq" then Some(DisableQuantQdq)
    else if name == "enable_quant_qdq_cleanup" then Some(EnableQuantQdqCleanup)
    else if name == "ep_context_enable" then Some(EpContextEnable)
    else if name == "use_env_allocators" then Some(UseEnvAllocators)
    else None
  }

  /** What each session-options setting reads back. */
  function SessionGet(v: SessionOptions, k: SessionKey): Setting
  {
    match k
    case LogId => OptText(v.logId)
    case EnableProfiling => OptText(v.enableProfiling)
    case EpContextEmbedMode => OptText(v.epContextEmbedMode)
    case EpContextFilePath => OptText(v.epContextFilePath)
    case IntraOpNumThreads => OptNumber(v.intraOpNumThreads)
    case InterOpNumThreads => OptNumber(v.interOpNumThreads)
    case LogSeverityLevel => OptNumber(v.logSeverityLevel)
    case EnableCpuMemArena => OptFlag(v.enableCpuMemArena)
    case EnableMemPattern => OptFlag(v.enableMemPattern)
    case DisableCpuEpFallback => OptFlag(v.disableCpuEpFallback)
    case DisableQuantQdq => OptFlag(v.disableQuantQdq)
    case EnableQuantQdqCleanup => OptFlag(v.enableQuantQdqCleanup)
    case EpContextEnable => OptFlag(v.epContextEnable)
    case UseEnvAllocators => OptFlag(v.useEnvAllocators)
  }

  /** `b` agrees with `a` on every member except `key`. */
  ghost predicate SessionSameExcept(a: SessionOptions, b: SessionOptions, key: SessionKey)
  {
    (forall k :: k != key ==> SessionGet(a, k) == SessionGet(b, k)) && a.providerOptions == b.providerOptions
  }

  function SessionOptionsOnString(v: SessionOptions, name: string, value: string): (r: Result<SessionOptions, ConfigError>)
    ensures r.Success? <==> name in SessionStringKeys
    ensures r.Failure? ==> r.error == UnknownValue
    ensures r.Success? ==> SessionTextKeyNamed(name).Some? && SessionGet(r.value, SessionTextKeyNamed(name).value) == Text(value)
    ensures r.Success? ==> SessionSameExcept(v, r.value, SessionTextKeyNamed(name).value)
  {
    if name == "log_id" then Success(v.(logId := Some(value)))
    else if name == "enable_profiling" then Success(v.(enableProfiling := Some(value)))
    else if name == "ep_context_embed_mode" then Success(v.(epContextEmbedMode := Some(value)))
    else if name == "ep_context_file_path" then Success(v.(epContextFilePath := Some(value)))
    else Failure(UnknownValue)
  }

  function SessionOptionsOnNumber(v: SessionOptions, name: string, value: int): (r: Result<SessionOptions, ConfigError>)
    ensures r.Success? <==> name in SessionNumberKeys
    ensures r.Failure? ==> r.error == UnknownValue
    ensures r.Success? ==> SessionNumberKeyNamed(name).Some? && SessionGet(r.value, SessionNumberKeyNamed(name).value) == Number(value)
    ensures r.Success? ==> SessionSameExcept(v, r.value, SessionNumberKeyNamed(name).value)
  {
    if name == "intra_op_num_threads" then Success(v.(intraOpNumThreads := Some(value)))
    else if name == "inter_op_num_threads" then Success(v.(interOpNumThreads := Some(value)))
    else if name == "log_severity_level" then Success(v.(logSeverityLevel := Some(value)))
    else Failure(UnknownValue)
  }

  function SessionOptionsOnBool(v: SessionOptions, name: string, value: bool): (r: Result<SessionOptions, ConfigError>)
    ensures r.Success? <==> name in SessionBoolKeys
    ensures r.Failure? ==> r.error == UnknownValue
    ensures r.Success? ==> SessionFlagKeyNamed(name).Some? && SessionGet(r.value, SessionFlagKeyNamed(name).value) == Flag(value)
    ensures r.Success? ==> SessionSameExcept(v, r.value, SessionFlagKeyNamed(name).value)
  {
    if name == "enable_cpu_mem_arena" then Success(v.(enableCpuMemArena := Some(value)))
    else if name == "enable_mem_pattern" then Success(v.(enableMemPattern := Some(value)))
    else if name == "disable_cpu_ep_fallback" then Success(v.(disableCpuEpFallback := Some(value)))
    else if name == "disable_quant_qdq" then Success(v.(disableQuantQdq := Some(value)))
    else if name == "enable_quant_qdq_cleanup" then Success(v.(enableQuantQdqCleanup := Some(value)))
    else if name == "ep_context_enable" then Success(v.(epContextEnable := Some(value)))
    else if name == "use_env_allocators" then Success(v.(useEnvAllocators := Some(value)))
    else Failure(UnknownValue)
  }

  /** `SessionOptions_Element::OnArray`: only "provider_options" opens an array. */
  function SessionOptionsOnArray(name: string): (r: Result<Member, ConfigError>)
    ensures r.Success? <==> name == "provider_options"
    ensures r.Success? ==> MemberName(r.value) == name
    ensures r.Failure? ==> r.error == UnknownValue
  {
    if name == "provider_options" then Success(ProviderOptionsMember) else Failure(UnknownValue)
  }

  // ---------------------------------------------------------------------------------------------
  // Input and output name sections (every member is a string)

  datatype EncoderInputs = EncoderInputs(inputIds: string, embeddings: string, attentionMask: string, positionIds: string)

  /** The member names `EncoderInputs_Element::OnString` accepts. */
  const EncoderInputKeys := {"input_ids", "inputs_embeds", "attention_mask", "position_ids", "audio_features"}

  /** The fields of the encoder inputs, by the member name that reads each of them. */
  function EncoderInputsGet(v: EncoderInputs, key: string): Setting
  {
    if key == "input_ids" then Text(v.inputIds)
    else if key == "inputs_embeds" then Text(v.embeddings)
    else if key == "attention_mask" then Text(v.attentionMask)
    else if key == "position_ids" then Text(v.positionIds)
    else Unset
  }

  /** The field a member name writes: "audio_features" writes the position_ids field, as the source does. */
  function EncoderInputTarget(name: string): string
  {
    if name == "audio_features" then "position_ids" else name
  }

  function EncoderInputsOnString(v: EncoderInputs, name: string, value: string): (r: Result<EncoderInputs, ConfigError>)
    ensures r.Success? <==> name in EncoderInputKeys
    ensures r.Failure? ==> r.error == UnknownValue
    ensures r.Success? ==> EncoderInputsGet(r.value, EncoderInputTarget(name)) == Text(value)
    ensures r.Success? ==> forall k :: k != EncoderInputTarget(name) ==> EncoderInputsGet(r.value, k) == EncoderInputsGet(v, k)
  {
    if name == "input_ids" then Success(v.(inputIds := value))
    else if name == "inputs_embeds" then Success(v.(embeddings := value))
    else if name == "attention_mask" then Success(v.(attentionMask := value))
    else if name == "position_ids" then Success(v.(positionIds := value))
    else if name == "audio_features" then Success(v.(positionIds := value))
    else Failure(UnknownValue)
  }

  datatype DecoderInputs = DecoderInputs(
    inputIds: string, embeddings: string, attentionMask: string, positionIds: string,
    pastKeyNames: string, pastValueNames: string, pastNames: string,
    crossPastKeyNames: string, crossPastValueNames: string,
    currentSequenceLength: string, pastSequenceLength: string, cacheIndirection: string)

  const DecoderInputKeys := {"input_ids", "inputs_embeds", "attention_mask", "position_ids",
                             "past_key_names", "past_value_names", "past_names",
                             "cross_past_key_names", "cross_past_value_names",
                             "current_sequence_length", "past_sequence_length", "cache_indirection"}

  /** The tensor names of the decoder inputs section. */
  datatype DecoderInputKey =
    | InputIds | InputsEmbeds | AttentionMask | PositionIds | PastKeyNames | PastValueNames | PastNames
    | CrossPastKeyNames | CrossPastValueNames | CurrentSequenceLength | PastSequenceLength
    | CacheIndirection

  /** The JSON member name of each key. */
  function DecoderInputKeyName(k: DecoderInputKey): string
  {
    match k
    case InputIds => "input_ids"
    case InputsEmbeds => "inputs_embeds"
    case AttentionMask => "attention_mask"
    case PositionIds => "position_ids"
    case PastKeyNames => "past_key_names"
    case PastValueNames => "past_value_names"
    case PastNames => "past_names"
    case CrossPastKeyNames => "cross_past_key_names"
    case CrossPastValueNames => "cross_past_value_names"
    case CurrentSequenceLength => "current_sequence_length"
    case PastSequenceLength => "past_sequence_length"
    case CacheIndirection => "cache_indirection"
  }

  /** The key a member name names, if any. */
  function DecoderInputKeyNamed(name: string): (r: Option<DecoderInputKey>)
    ensures r.Some? ==> DecoderInputKeyName(r.value) == name
  {
    if name == "input_ids" then Some(InputIds)
    else if name == "inputs_embeds" then Some(InputsEmbeds)
    else if name == "attention_mask" then Some(AttentionMask)
    else if name == "position_ids" then Some(PositionIds)
    else if name == "past_key_names" then Some(PastKeyNames)
    else if name == "past_value_names" then Some(PastValueNames)
    else if name == "past_names" then Some(PastNames)
    else if name == "cross_past_key_names" then Some(CrossPastKeyNames)
    else if name == "cross_past_value_names" then Some(CrossPastValueNames)
    else if name == "current_sequence_length" then Some(CurrentSequenceLength)
    else if name == "past_sequence_length" then Some(PastSequenceLength)
    else if name == "cache_indirection" then Some(CacheIndirection)
    else None
  }

  /** What each decoder input name reads back. */
  function DecoderInputGet(v: DecoderInputs, k: DecoderInputKey): Setting
  {
    match k
    case InputIds => Text(v.inputIds)
    case InputsEmbeds => Text(v.embeddings)
    case AttentionMask => Text(v.attentionMask)
    case PositionIds => Text(v.positionIds)
    case PastKeyNames => Text(v.pastKeyNames)
    case PastValueNames => Text(v.pastValueNames)
    case PastNames => Text(v.pastNames)
    case CrossPastKeyNames => Text(v.crossPastKeyNames)
    case CrossPastValueNames => Text(v.crossPastValueNames)
    case CurrentSequenceLength => Text(v.currentSequenceLength)
    case PastSequenceLength => Text(v.pastSequenceLength)
    case CacheIndirection => Text(v.cacheIndirection)
  }

  /** `b` agrees with `a` on every decoder input name except `key`. */
  ghost predicate DecoderInputsSameExcept(a: DecoderInputs, b: DecoderInputs, key: DecoderInputKey)
  {
    forall k :: k != key ==> DecoderInputGet(a, k) == DecoderInputGet(b, k)
  }

  function DecoderInputsOnString(v: DecoderInputs, name: string, value: string): (r: Result<DecoderInputs, ConfigError>)
    ensures r.Success? <==> name in DecoderInputKeys
    ensures r.Failure? ==> r.error == UnknownValue
    ensures r.Success? ==> DecoderInputKeyNamed(name).Some? && DecoderInputGet(r.value, DecoderInputKeyNamed(name).value) == Text(value)
    ensures r.Success? ==> DecoderInputsSameExcept(v, r.value, DecoderInputKeyNamed(name).value)
  {
    if name == "input_ids" then Success(v.(inputIds := value))
    else if name == "inputs_embeds" then Success(v.(embeddings := value))
    else if name == "attention_mask" then Success(v.(attentionMask := value))
    else if name == "position_ids" then Success(v.(positionIds := value))
    else if name == "past_key_names" then Success(v.(pastKeyNames := value))
    else if name == "past_value_names" then Success(v.(pastValueNames := value))
    else if name == "past_names" then Success(v.(pastNames := value))
    else if name == "cross_past_key_names" then Success(v.(crossPastKeyNames := value))
    else if name == "cross_past_value_names" then Success(v.(crossPastValueNames := value))
    else if name == "current_sequence_length" then Success(v.(currentSequenceLength := value))
    else if name == "past_sequence_length" then Success(v.(pastSequenceLength := value))
    else if name == "cache_indirection" then Success(v.(cacheIndirection := value))
    else Failure(UnknownValue)
  }

  datatype EncoderOutputs = EncoderOutputs(hiddenStates: string, crossPresentKeyNames: string, crossPresentValueNames: string)

  const EncoderOutputKeys := {"encoder_hidden_states", "cross_present_key_names", "cross_present_value_names"}

  function EncoderOutputsGet(v: EncoderOutputs, key: string): Setting
  {
    if key == "encoder_hidden_states" then Text(v.hiddenStates)
    else if key == "cross_present_key_names" then Text(v.crossPresentKeyNames)
    else if key == "cross_present_value_names" then Text(v.crossPresentValueNames)
    else Unset
  }

  function EncoderOutputsOnString(v: EncoderOutputs, name: string, value: string): (r: Result<EncoderOutputs, ConfigError>)
    ensures r.Success? <==> name in EncoderOutputKeys
    ensures r.Failure? ==> r.error == UnknownValue
    ensures r.Success? ==> EncoderOutputsGet(r.value, name) == Text(value)
    ensures r.Success? ==> forall k :: k != name ==> EncoderOutputsGet(r.value, k) == EncoderOutputsGet(v, k)
  {
    if name == "encoder_hidden_states" then Success(v.(hiddenStates := value))
    else if name == "cross_present_key_names" then Success(v.(crossPresentKeyNames := value))
    else if name == "cross_present_value_names" then Success(v.(crossPresentValueNames := value))
    else Failure(UnknownValue)
  }

  /**
   * The decoder's output names. The two cross-attention patterns are read by the cross cache but
   * have no key in this section, so they always keep their defaults.
   */
  datatype DecoderOutputs = DecoderOutputs(
    logits: string, presentKeyNames: string, presentValueNames: string, presentNames: string,
    outputCrossQkNames: string, crossPresentKeyNames: string, crossPresentValueNames: string)

  const DecoderOutputKeys := {"logits", "present_key_names", "present_value_names", "present_names", "output_cross_qk_names"}

  function DecoderOutputsGet(v: DecoderOutputs, key: string): Setting
  {
    if key == "logits" then Text(v.logits)
    else if key == "present_key_names" then Text(v.presentKeyNames)
    else if key == "present_value_names" then Text(v.presentValueNames)
    else if key == "present_names" then Text(v.presentNames)
    else if key == "output_cross_qk_names" then Text(v.outputCrossQkNames)
    else if key == "cross_present_key_names" then Text(v.crossPresentKeyNames)
    else if key == "cross_present_value_names" then Text(v.crossPresentValueNames)
    else Unset
  }

  function DecoderOutputsOnString(v: DecoderOutputs, name: string, value: string): (r: Result<DecoderOutputs, ConfigError>)
    ensures r.Success? <==> name in DecoderOutputKeys
    ensures r.Failure? ==> r.error == UnknownValue
    ensures r.Success? ==> DecoderOutputsGet(r.value, name) == Text(value)
    ensures r.Success? ==> forall k :: k != name ==> DecoderOutputsGet(r.value, k) == DecoderOutputsGet(v, k)
  {
    if name == "logits" then Success(v.(logits := value))
    else if name == "present_key_names" then Success(v.(presentKeyNames := value))
    else if name == "present_value_names" then Success(v.(presentValueNames := value))
    else if name == "present_names" then Success(v.(presentNames := value))
    else if name == "output_cross_qk_names" then Success(v.(outputCrossQkNames := value))
    else Failure(UnknownValue)
  }

  datatype VisionInputs = VisionInputs(pixelValues: string, imageSizes: string)

  const VisionInputKeys := {"pixel_values", "image_sizes"}

  function VisionInputsGet(v: VisionInputs, key: string): Setting
  {
    if key == "pixel_values" then Text(v.pixelValues)
    else if key == "image_sizes" then Text(v.imageSizes)
    else Unset
  }

  function VisionInputsOnString(v: VisionInputs, name: string, value: string): (r: Result<VisionInputs, ConfigError>)
    ensures r.Success? <==> name in VisionInputKeys
    ensures r.Failure? ==> r.error == UnknownValue
    ensures r.Success? ==> VisionInputsGet(r.value, name) == Text(value)
    ensures r.Success? ==> forall k :: k != name ==> VisionInputsGet(r.value, k) == VisionInputsGet(v, k)
  {
    if name == "pixel_values" then Success(v.(pixelValues := value))
    else if name == "image_sizes" then Success(v.(imageSizes := value))
    else Failure(UnknownValue)
  }

  datatype VisionOutputs = VisionOutputs(imageFeatures: string)

  function VisionOutputsOnString(v: VisionOutputs, name: string, value: string): (r: Result<VisionOutputs, ConfigError>)
    ensures r.Success? <==> name == "image_features"
    ensures r.Failure? ==> r.error == UnknownValue
    ensures r.Success? ==> r.value.imageFeatures == value
  {
    if name == "image_features" then Success(v.(imageFeatures := value)) else Failure(UnknownValue)
  }

  datatype EmbeddingInputs = EmbeddingInputs(inputIds: string, imageFeatures: string)

  const EmbeddingInputKeys := {"input_ids", "image_features"}

  function EmbeddingInputsGet(v: EmbeddingInputs, key: string): Setting
  {
    if key == "input_ids" then Text(v.inputIds)
    else if key == "image_features" then Text(v.imageFeatures)
    else Unset
  }

  function EmbeddingInputsOnString(v: EmbeddingInputs, name: string, value: string): (r: Result<EmbeddingInputs, ConfigError>)
    ensures r.Success? <==> name in EmbeddingInputKeys
    ensures r.Failure? ==> r.error == UnknownValue
    ensures r.Success? ==> EmbeddingInputsGet(r.value, name) == Text(value)
    ensures r.Success? ==> forall k :: k != name ==> EmbeddingInputsGet(r.value, k) == EmbeddingInputsGet(v, k)
  {
    if name == "input_ids" then Success(v.(inputIds := value))
    else if name == "image_features" then Success(v.(imageFeatures := value))
    else Failure(UnknownValue)
  }

  datatype EmbeddingOutputs = EmbeddingOutputs(embeddings: string)

  function EmbeddingOutputsOnString(v: EmbeddingOutputs, name: string, value: string): (r: Result<EmbeddingOutputs, ConfigError>)
    ensures r.Success? <==> name == "inputs_embeds"
    ensures r.Failure? ==> r.error == UnknownValue
    ensures r.Success? ==> r.value.embeddings == value
  {
    if name == "inputs_embeds" then Success(v.(embeddings := value)) else Failure(UnknownValue)
  }

  // ---------------------------------------------------------------------------------------------
  // String arrays and string maps

  /** `StringArray_Element::OnString`: the member name is ignored and the value appended. */
  function StringArrayOnString(list: seq<string>, name: string, value: string): (r: seq<string>)
    ensures |r| == |list| + 1 && r[..|list|] == list && r[|list|] == value
  {
    list + [value]
  }

  /** The values of a run of string events. */
  function EventValues(events: seq<(string, string)>): seq<string>
  {
    if events == [] then [] else [events[0].1] + EventValues(events[1..])
  }

  /** A string array fed its events one by one. */
  function StringArrayEvents(list: seq<string>, events: seq<(string, string)>): seq<string>
    decreases |events|
  {
    if events == [] then list
    else StringArrayEvents(StringArrayOnString(list, events[0].0, events[0].1), events[1..])
  }

  /** A string array keeps every value, in document order, after what it held before. */
  lemma {:induction false} StringArrayKeepsOrder(list: seq<string>, events: seq<(string, string)>)
    ensures StringArrayEvents(list, events) == list + EventValues(events)
    decreases |events|
  {
    if events == [] {
      assert list + EventValues(events) == list;
    } else {
      var next := StringArrayOnString(list, events[0].0, events[0].1);
      var rest := EventValues(events[1..]);
      StringArrayKeepsOrder(next, events[1..]);
      assert next == list + [events[0].1];
      assert EventValues(events) == [events[0].1] + rest;
      assert list + ([events[0].1] + rest) == (list + [events[0].1]) + rest;
    }
  }

  /** `StringStringMap_Element::OnString`: the member's name is the key; a repeated key is overwritten. */
  function StringMapOnString(m: map<string, string>, name: string, value: string): (r: map<string, string>)
    ensures r.Keys == m.Keys + {name} && r[name] == value
    ensures forall k :: k in m && k != name ==> r[k] == m[k]
  {
    m[name := value]
  }

  /** A string map fed its events one by one. */
  function StringMapEvents(m: map<string, string>, events: seq<(string, string)>): map<string, string>
    decreases |events|
  {
    if events == [] then m
    else StringMapEvents(StringMapOnString(m, events[0].0, events[0].1), events[1..])
  }

  /** The value of the last event with member name `key`, if any. */
  function LastValue(events: seq<(string, string)>, key: string): (r: Option<string>)
    ensures r.None? <==> forall i :: 0 <= i < |events| ==> events[i].0 != key
    decreases |events|
  {
    if events == [] then None
    else if events[|events| - 1].0 == key then Some(events[|events| - 1].1)
    else
      var r := LastValue(events[..|events| - 1], key);
      assert r.None? <==> forall i :: 0 <= i < |events| ==> events[i].0 != key by {
        assert forall i :: 0 <= i < |events| - 1 ==> events[..|events| - 1][i] == events[i];
      }
      r
  }

  /** A string map ends with, for each key, the value of the last event naming it, or its old value. */
  lemma {:induction false} StringMapLastValueWins(m: map<string, string>, events: seq<(string, string)>, key: string)
    ensures key in StringMapEvents(m, events) <==> key in m || LastValue(events, key).Some?
    ensures LastValue(events, key).Some? ==> StringMapEvents(m, events)[key] == LastValue(events, key).value
    ensures LastValue(events, key).None? && key in m ==> StringMapEvents(m, events)[key] == m[key]
    decreases |events|
  {
    if events != [] {
      var init := events[..|events| - 1];
      var last := events[|events| - 1];
      assert events == init + [last];
      StringMapEventsSnoc(m, init, last);
      StringMapLastValueWins(m, init, key);
      assert LastValue(events, key) == if last.0 == key then Some(last.1) else LastValue(init, key);
    }
  }

  /** Feeding one more event at the end is one more `OnString`. */
  lemma {:induction false} StringMapEventsSnoc(m: map<string, string>, events: seq<(string, string)>, e: (string, string))
    ensures StringMapEvents(m, events + [e]) == StringMapOnString(StringMapEvents(m, events), e.0, e.1)
    decreases |events|
  {
    if events == [] {
      assert [] + [e] == [e];
    } else {
      var next := StringMapOnString(m, events[0].0, events[0].1);
      assert (events + [e])[1..] == events[1..] + [e];
      StringMapEventsSnoc(next, events[1..], e);
    }
  }

  // ---------------------------------------------------------------------------------------------
  // Pipeline entries of the decoder

  /** One stage of a pipelined decoder (`Config::Model::Decoder::PipelineModel`). */
  datatype PipelineModel = PipelineModel(
    modelId: string, filename: string, sessionOptions: Option<SessionOptions>,
    inputs: seq<string>, outputs: seq<string>, outputNamesForwarder: map<string, string>,
    runOnPrompt: bool, runOnTokenGen: bool)

  function PipelineModelGet(v: PipelineModel, key: string): Setting
  {
    if key == "filename" then Text(v.filename)
    else if key == "run_on_prompt" then Flag(v.runOnPrompt)
    else if key == "run_on_token_gen" then Flag(v.runOnTokenGen)
    else Unset
  }

  /** `b` agrees with `a` on everything but the scalar member `key`. */
  ghost predicate PipelineModelSameExcept(a: PipelineModel, b: PipelineModel, key: string)
  {
    && (forall k :: k != key ==> PipelineModelGet(a, k) == PipelineModelGet(b, k))
    && a.modelId == b.modelId && a.sessionOptions == b.sessionOptions
    && a.inputs == b.inputs && a.outputs == b.outputs && a.outputNamesForwarder == b.outputNamesForwarder
  }

  function PipelineModelOnString(v: PipelineModel, name: string, value: string): (r: Result<PipelineModel, ConfigError>)
    ensures r.Success? <==> name == "filename"
    ensures r.Failure? ==> r.error == UnknownValue
    ensures r.Success? ==> PipelineModelGet(r.value, name) == Text(value) && PipelineModelSameExcept(v, r.value, name)
  {
    if name == "filename" then Success(v.(filename := value)) else Failure(UnknownValue)
  }

  function PipelineModelOnBool(v: PipelineModel, name: string, value: bool): (r: Result<PipelineModel, ConfigError>)
    ensures r.Success? <==> name in {"run_on_prompt", "run_on_token_gen"}
    ensures r.Failure? ==> r.error == UnknownValue
    ensures r.Success? ==> PipelineModelGet(r.value, name) == Flag(value) && PipelineModelSameExcept(v, r.value, name)
  {
    if name == "run_on_prompt" then Success(v.(runOnPrompt := value))
    else if name == "run_on_token_gen" then Success(v.(runOnTokenGen := value))
    else Failure(UnknownValue)
  }

  /**
   * `PipelineModel_Element::OnObject`: "session_options" (re)sets the stage's session options to an
   * empty record and answers with a new session-options element; "output_names_forwarder" answers
   * with the string-map element; any other name throws.
   */
  function PipelineModelOnObject(v: PipelineModel, name: string): (r: Result<(PipelineModel, Member), ConfigError>)
    ensures r.Success? <==> name in {"session_options", "output_names_forwarder"}
    ensures r.Failure? ==> r.error == UnknownValue
    ensures r.Success? ==> MemberName(r.value.1) == name
    ensures r.Success? ==> r.value.0 == if name == "session_options" then v.(sessionOptions := Some(EmptySessionOptions)) else v
  {
    if name == "session_options" then Success((v.(sessionOptions := Some(EmptySessionOptions)), SessionOptionsMember))
    else if name == "output_names_forwarder" then Success((v, OutputNamesForwarderMember))
    else Failure(UnknownValue)
  }

  /** `PipelineModel_Element::OnArray`: "inputs" and "outputs" are string arrays; any other name throws. */
  function PipelineModelOnArray(name: string): (r: Result<Member, ConfigError>)
    ensures r.Success? <==> name in {"inputs", "outputs"}
    ensures r.Success? ==> MemberName(r.value) == name
    ensures r.Failure? ==> r.error == UnknownValue
  {
    if name == "inputs" then Success(InputsMember)
    else if name == "outputs" then Success(OutputsMember)
    else Failure(UnknownValue)
  }

  /**
   * `PipelineModelObject_Element::OnObject`: each member of a pipeline array entry appends a new
   * stage, a default-constructed `PipelineModel` (`blank`, whose defaults live in a header that is not
   * part of this model) carrying the member name as its id.
   */
  function PipelineObjectOnObject(list: seq<PipelineModel>, name: string, blank: PipelineModel): (r: seq<PipelineModel>)
    ensures |r| == |list| + 1 && r[..|list|] == list
    ensures r[|list|] == blank.(modelId := name)
  {
    list + [blank.(modelId := name)]
  }

  /** The ids of a list of stages. */
  function ModelIds(list: seq<PipelineModel>): seq<string>
  {
    if list == [] then [] else [list[0].modelId] + ModelIds(list[1..])
  }

  /** The pipeline array's objects, one member each, appended in turn. */
  function PipelineObjects(list: seq<PipelineModel>, names: seq<string>, blank: PipelineModel): seq<PipelineModel>
    decreases |names|
  {
    if names == [] then list else PipelineObjects(PipelineObjectOnObject(list, names[0], blank), names[1..], blank)
  }

  lemma {:induction false} ModelIdsAppend(a: seq<PipelineModel>, b: seq<PipelineModel>)
    ensures ModelIds(a + b) == ModelIds(a) + ModelIds(b)
    decreases |a|
  {
    if a == [] {
      assert a + b == b;
    } else {
      assert (a + b)[1..] == a[1..] + b;
      ModelIdsAppend(a[1..], b);
    }
  }

  /** Pipeline stages keep document order, each identified by the name of its object member. */
  lemma {:induction false} PipelineObjectsKeepOrder(list: seq<PipelineModel>, names: seq<string>, blank: PipelineModel)
    ensures |PipelineObjects(list, names, blank)| == |list| + |names|
    ensures ModelIds(PipelineObjects(list, names, blank)) == ModelIds(list) + names
    ensures PipelineObjects(list, names, blank)[..|list|] == list
    decreases |names|
  {
    if names == [] {
      assert ModelIds(list) + names == ModelIds(list);
    } else {
      var next := PipelineObjectOnObject(list, names[0], blank);
      PipelineObjectsKeepOrder(next, names[1..], blank);
      ModelIdsAppend(list, [blank.(modelId := names[0])]);
      assert ModelIds([blank.(modelId := names[0])]) == [names[0]];
      assert ModelIds(list) + names == ModelIds(next) + names[1..];
      var r := PipelineObjects(list, names, blank);
      assert r == PipelineObjects(next, names[1..], blank);
      assert r[..|list|] == r[..|next|][..|list|];
    }
  }

  // ---------------------------------------------------------------------------------------------
  // Encoder, decoder, vision and embedding sections

  datatype Encoder = Encoder(
    filename: string, hiddenSize: int, numAttentionHeads: int, numHiddenLayers: int, headSize: int,
    sessionOptions: SessionOptions, inputs: EncoderInputs, outputs: EncoderOutputs)

  const EncoderNumberKeys := {"hidden_size", "num_attention_heads", "num_hidden_layers", "head_size"}

  function EncoderGet(v: Encoder, key: string): Setting
  {
    if key == "filename" then Text(v.filename)
    else if key == "hidden_size" then Number(v.hiddenSize)
    else if key == "num_attention_heads" then Number(v.numAttentionHeads)
    else if key == "num_hidden_layers" then Number(v.numHiddenLayers)
    else if key == "head_size" then Number(v.headSize)
    else Unset
  }

  ghost predicate EncoderSameExcept(a: Encoder, b: Encoder, key: string)
  {
    && (forall k :: k != key ==> EncoderGet(a, k) == EncoderGet(b, k))
    && a.sessionOptions == b.sessionOptions && a.inputs == b.inputs && a.outputs == b.outputs
  }

  function EncoderOnString(v: Encoder, name: string, value: string): (r: Result<Encoder, ConfigError>)
    ensures r.Success? <==> name == "filename"
    ensures r.Failure? ==> r.error == UnknownValue
    ensures r.Success? ==> EncoderGet(r.value, name) == Text(value) && EncoderSameExcept(v, r.value, name)
  {
    if name == "filename" then Success(v.(filename := value)) else Failure(UnknownValue)
  }

  function EncoderOnNumber(v: Encoder, name: string, value: int): (r: Result<Encoder, ConfigError>)
    ensures r.Success? <==> name in EncoderNumberKeys
    ensures r.Failure? ==> r.error == UnknownValue
    ensures r.Success? ==> EncoderGet(r.value, name) == Number(value) && EncoderSameExcept(v, r.value, name)
  {
    if name == "hidden_size" then Success(v.(hiddenSize := value))
    else if name == "num_attention_heads" then Success(v.(numAttentionHeads := value))
    else if name == "num_hidden_layers" then Success(v.(numHiddenLayers := value))
    else if name == "head_size" then Success(v.(headSize := value))
    else Failure(UnknownValue)
  }

  /** `Encoder_Element::OnObject` (and the same routing in `Decoder_Element::OnObject`). */
  function EncoderOnObject(name: string): (r: Result<Member, ConfigError>)
    ensures r.Success? <==> name in {"session_options", "inputs", "outputs"}
    ensures r.Success? ==> MemberName(r.value) == name
    ensures r.Failure? ==> r.error == UnknownValue
  {
    if name == "session_options" then Success(SessionOptionsMember)
    else if name == "inputs" then Success(InputsMember)
    else if name == "outputs" then Success(OutputsMember)
    else Failure(UnknownValue)
  }

  datatype Decoder = Decoder(
    filename: string, hiddenSize: int, numAttentionHeads: int, numKeyValueHeads: int,
    numHiddenLayers: int, headSize: int,
    sessionOptions: SessionOptions, inputs: DecoderInputs, outputs: DecoderOutputs,
    pipeline: seq<PipelineModel>)

  const DecoderNumberKeys := {"hidden_size", "num_attention_heads", "num_key_value_heads", "num_hidden_layers", "head_size"}

  function DecoderGet(v: Decoder, key: string): Setting
  {
    if key == "filename" then Text(v.filename)
    else if key == "hidden_size" then Number(v.hiddenSize)
    else if key == "num_attention_heads" then Number(v.numAttentionHeads)
    else if key == "num_key_value_heads" then Number(v.numKeyValueHeads)
    else if key == "num_hidden_layers" then Number(v.numHiddenLayers)
    else if key == "head_size" then Number(v.headSize)
    else Unset
  }

  ghost predicate DecoderSameExcept(a: Decoder, b: Decoder, key: string)
  {
    && (forall k :: k != key ==> DecoderGet(a, k) == DecoderGet(b, k))
    && a.sessionOptions == b.sessionOptions && a.inputs == b.inputs && a.outputs == b.outputs
    && a.pipeline == b.pipeline
  }

  function DecoderOnString(v: Decoder, name: string, value: string): (r: Result<Decoder, ConfigError>)
    ensures r.Success? <==> name == "filename"
    ensures r.Failure? ==> r.error == UnknownValue
    ensures r.Success? ==> DecoderGet(r.value, name) == Text(value) && DecoderSameExcept(v, r.value, name)
  {
    if name == "filename" then Success(v.(filename := value)) else Failure(UnknownValue)
  }

  function DecoderOnNumber(v: Decoder, name: string, value: int): (r: Result<Decoder, ConfigError>)
    ensures r.Success? <==> name in DecoderNumberKeys
    ensures r.Failure? ==> r.error == UnknownValue
    ensures r.Success? ==> DecoderGet(r.value, name) == Number(value) && DecoderSameExcept(v, r.value, name)
  {
    if name == "hidden_size" then Success(v.(hiddenSize := value))
    else if name == "num_attention_heads" then Success(v.(numAttentionHeads := value))
    else if name == "num_key_value_heads" then Success(v.(numKeyValueHeads := value))
    else if name == "num_hidden_layers" then Success(v.(numHiddenLayers := value))
    else if name == "head_size" then Success(v.(headSize := value))
    else Failure(UnknownValue)
  }

  /** `Decoder_Element::OnArray`: only "pipeline" opens an array. */
  function DecoderOnArray(name: string): (r: Result<Member, ConfigError>)
    ensures r.Success? <==> name == "pipeline"
    ensures r.Success? ==> MemberName(r.value) == name
    ensures r.Failure? ==> r.error == UnknownValue
  {
    if name == "pipeline" then Success(PipelineMember) else Failure(UnknownValue)
  }

  datatype Vision = Vision(filename: string, inputs: VisionInputs, outputs: VisionOutputs)
  datatype Embedding = Embedding(filename: string, inputs: EmbeddingInputs, outputs: EmbeddingOutputs)

  /** `Vision_Element::OnString`: only "filename"; the nested records are untouched. */
  function VisionOnString(v: Vision, name: string, value: string): (r: Result<Vision, ConfigError>)
    ensures r.Success? <==> name == "filename"
    ensures r.Failure? ==> r.error == UnknownValue
    ensures r.Success? ==> r.value.filename == value && r.value.inputs == v.inputs && r.value.outputs == v.outputs
  {
    if name == "filename" then Success(v.(filename := value)) else Failure(UnknownValue)
  }

  /** `Embedding_Element::OnString`: only "filename"; the nested records are untouched. */
  function EmbeddingOnString(v: Embedding, name: string, value: string): (r: Result<Embedding, ConfigError>)
    ensures r.Success? <==> name == "filename"
    ensures r.Failure? ==> r.error == UnknownValue
    ensures r.Success? ==> r.value.filename == value && r.value.inputs == v.inputs && r.value.outputs == v.outputs
  {
    if name == "filename" then Success(v.(filename := value)) else Failure(UnknownValue)
  }

  /** `Vision_Element::OnObject` and `Embedding_Element::OnObject`: "inputs" and "outputs" only. */
  function InputsOutputsOnObject(name: string): (r: Result<Member, ConfigError>)
    ensures r.Success? <==> name in {"inputs", "outputs"}
    ensures r.Success? ==> MemberName(r.value) == name
    ensures r.Failure? ==> r.error == UnknownValue
  {
    if name == "inputs" then Success(InputsMember)
    else if name == "outputs" then Success(OutputsMember)
    else Failure(UnknownValue)
  }

  // ---------------------------------------------------------------------------------------------
  // The model section

  /** The paged-cache settings; config.cpp has no element for them, so they keep their defaults. */
  datatype KvCacheSettings = KvCacheSettings(pagedCache: bool, blockSize: int, numBlocks: int)

  datatype Model = Model(
    modelType: string, vocabSize: int, contextLength: int, padTokenId: int, eosTokenId: int,
    bosTokenId: int, decoderStartTokenId: int, sepTokenId: int, eosTokenIds: seq<int>,
    encoder: Encoder, decoder: Decoder, vision: Vision, embedding: Embedding, kvCache: KvCacheSettings)

  const ModelNumberKeys := {"vocab_size", "context_length", "pad_token_id", "eos_token_id",
                            "bos_token_id", "decoder_start_token_id", "sep_token_id"}

  /** The scalar settings of the model section. */
  datatype ModelKey =
    | ModelType | VocabSize | ContextLength | PadTokenId | EosTokenId | BosTokenId | DecoderStartTokenId
    | SepTokenId

  /** The JSON member name of each key. */
  function ModelKeyName(k: ModelKey): string
  {
    match k
    case ModelType => "type"
    case VocabSize => "vocab_size"
    case ContextLength => "context_length"
    case PadTokenId => "pad_token_id"
    case EosTokenId => "eos_token_id"
    case BosTokenId => "bos_token_id"
    case DecoderStartTokenId => "decoder_start_token_id"
    case SepTokenId => "sep_token_id"
  }

  /** The key a member name names, if any. */
  function ModelKeyNamed(name: string): (r: Option<ModelKey>)
    ensures r.Some? ==> ModelKeyName(r.value) == name
  {
    if name == "type" then Some(ModelType)
    else if name == "vocab_size" then Some(VocabSize)
    else if name == "context_length" then Some(ContextLength)
    else if name == "pad_token_id" then Some(PadTokenId)
    else if name == "eos_token_id" then Some(EosTokenId)
    else if name == "bos_token_id" then Some(BosTokenId)
    else if name == "decoder_start_token_id" then Some(DecoderStartTokenId)
    else if name == "sep_token_id" then Some(SepTokenId)
    else None
  }

  /** What each scalar model setting reads back. */
  function ModelGet(v: Model, k: ModelKey): Setting
  {
    match k
    case ModelType => Text(v.modelType)
    case VocabSize => Number(v.vocabSize)
    case ContextLength => Number(v.contextLength)
    case PadTokenId => Number(v.padTokenId)
    case EosTokenId => Number(v.eosTokenId)
    case BosTokenId => Number(v.bosTokenId)
    case DecoderStartTokenId => Number(v.decoderStartTokenId)
    case SepTokenId => Number(v.sepTokenId)
  }

  ghost predicate ModelSameExcept(a: Model, b: Model, key: ModelKey)
  {
    && (forall k :: k != key ==> ModelGet(a, k) == ModelGet(b, k))
    && a.eosTokenIds == b.eosTokenIds && a.encoder == b.encoder && a.decoder == b.decoder
    && a.vision == b.vision && a.embedding == b.embedding && a.kvCache == b.kvCache
  }

  function ModelOnString(v: Model, name: string, value: string): (r: Result<Model, ConfigError>)
    ensures r.Success? <==> name == "type"
    ensures r.Failure? ==> r.error == UnknownValue
    ensures r.Success? ==> ModelKeyNamed(name).Some? && ModelGet(r.value, ModelKeyNamed(name).value) == Text(value)
    ensures r.Success? ==> ModelSameExcept(v, r.value, ModelKeyNamed(name).value)
  {
    if name == "type" then Success(v.(modelType := value)) else Failure(UnknownValue)
  }

  function ModelOnNumber(v: Model, name: string, value: int): (r: Result<Model, ConfigError>)
    ensures r.Success? <==> name in ModelNumberKeys
    ensures r.Failure? ==> r.error == UnknownValue
    ensures r.Success? ==> ModelKeyNamed(name).Some? && ModelGet(r.value, ModelKeyNamed(name).value) == Number(value)
    ensures r.Success? ==> ModelSameExcept(v, r.value, ModelKeyNamed(name).value)
  {
    if name == "vocab_size" then Success(v.(vocabSize := value))
    else if name == "context_length" then Success(v.(contextLength := value))
    else if name == "pad_token_id" then Success(v.(padTokenId := value))
    else if name == "eos_token_id" then Success(v.(eosTokenId := value))
    else if name == "bos_token_id" then Success(v.(bosTokenId := value))
    else if name == "decoder_start_token_id" then Success(v.(decoderStartTokenId := value))
    else if name == "sep_token_id" then Success(v.(sepTokenId := value))
    else Failure(UnknownValue)
  }

  /** `Model_Element::OnArray`: only "eos_token_id" may be an array. */
  function ModelOnArray(name: string): (r: Result<Member, ConfigError>)
    ensures r.Success? <==> name == "eos_token_id"
    ensures r.Success? ==> MemberName(r.value) == name
    ensures r.Failure? ==> r.error == UnknownValue
  {
    if name == "eos_token_id" then Success(EosTokenIdsMember) else Failure(UnknownValue)
  }

  /** `Model_Element::OnObject`: the four model sections. */
  function ModelOnObject(name: string): (r: Result<Member, ConfigError>)
    ensures r.Success? <==> name in {"encoder", "decoder", "vision", "embedding"}
    ensures r.Success? ==> MemberName(r.value) == name
    ensures r.Failure? ==> r.error == UnknownValue
  {
    if name == "encoder" then Success(EncoderMember)
    else if name == "decoder" then Success(DecoderMember)
    else if name == "vision" then Success(VisionMember)
    else if name == "embedding" then Success(EmbeddingMember)
    else Failure(UnknownValue)
  }

  /** `Root_Element::OnObject`: "model" and "search"; top-level strings and numbers are ignored. */
  function RootOnObject(name: string): (r: Result<Member, ConfigError>)
    ensures r.Success? <==> name in {"model", "search"}
    ensures r.Success? ==> MemberName(r.value) == name
    ensures r.Failure? ==> r.error == UnknownValue
  {
    if name == "model" then Success(ModelMember)
    else if name == "search" then Success(SearchMember)
    else Failure(UnknownValue)
  }

  // ---------------------------------------------------------------------------------------------
  // The "eos_token_id" array

  /** `Eos_Array_Element::OnNumber`: every number is appended, whatever its member name. */
  function EosOnNumber(v: Model, value: int): (r: Model)
    ensures r.eosTokenIds == v.eosTokenIds + [value]
    ensures r.(eosTokenIds := v.eosTokenIds) == v
  {
    v.(eosTokenIds := v.eosTokenIds + [value])
  }

  /**
   * `Eos_Array_Element::OnComplete`: an empty list changes nothing; otherwise the first id becomes the
   * primary `eos_token_id`, and a one-element list is then emptied as if a single number had been given.
   */
  function EosOnComplete(v: Model): (r: Model)
    ensures v.eosTokenIds == [] ==> r == v
    ensures v.eosTokenIds != [] ==> r.eosTokenId == v.eosTokenIds[0]
    ensures |v.eosTokenIds| == 1 ==> r.eosTokenIds == []
    ensures |v.eosTokenIds| != 1 ==> r.eosTokenIds == v.eosTokenIds
    ensures r.(eosTokenId := v.eosTokenId, eosTokenIds := v.eosTokenIds) == v
  {
    if v.eosTokenIds == [] then v
    else
      var primary := v.(eosTokenId := v.eosTokenIds[0]);
      if |v.eosTokenIds| == 1 then primary.(eosTokenIds := []) else primary
  }

  /** The numbers of an array, fed to `EosOnNumber` in order. */
  function EosNumbers(v: Model, values: seq<int>): Model
    decreases |values|
  {
    if values == [] then v else EosNumbers(EosOnNumber(v, values[0]), values[1..])
  }

  lemma {:induction false} EosNumbersAppend(v: Model, values: seq<int>)
    ensures EosNumbers(v, values) == v.(eosTokenIds := v.eosTokenIds + values)
    decreases |values|
  {
    if values == [] {
      assert v.eosTokenIds + values == v.eosTokenIds;
    } else {
      EosNumbersAppend(EosOnNumber(v, values[0]), values[1..]);
      assert v.eosTokenIds + [values[0]] + values[1..] == v.eosTokenIds + values;
    }
  }

  /**
   * A whole `"eos_token_id": [...]` array on a model with no ids yet: `[]` leaves the model as it was;
   * `[t]` sets only the primary id; a longer list sets the primary id to its first element and keeps
   * the list.
   */
  lemma EosArrayNormalises(v: Model, values: seq<int>)
    requires v.eosTokenIds == []
    ensures var r := EosOnComplete(EosNumbers(v, values));
      && (values == [] ==> r == v)
      && (|values| == 1 ==> r == v.(eosTokenId := values[0]))
      && (|values| > 1 ==> r == v.(eosTokenId := values[0], eosTokenIds := values))
  {
    EosNumbersAppend(v, values);
    assert v.eosTokenIds + values == values;
  }

  // ---------------------------------------------------------------------------------------------
  // The search section

  /**
   * The search settings. JSON numbers arrive as integers here, so the floating-point settings
   * (`top_p`, `temperature` and the penalties) hold that integer as given.
   */
  datatype Search = Search(
    minLength: int, maxLength: int, numBeams: int, numReturnSequences: int, topK: int,
    topP: int, temperature: int, repetitionPenalty: int, lengthPenalty: int,
    noRepeatNgramSize: int, diversityPenalty: int, randomSeed: int,
    doSample: bool, pastPresentShareBuffer: bool, earlyStopping: bool)

  const SearchNumberKeys := {"min_length", "max_length", "num_beams", "num_return_sequences", "top_k",
                             "top_p", "temperature", "repetition_penalty", "length_penalty",
                             "no_repeat_ngram_size", "diversity_penalty", "random_seed"}
  const SearchBoolKeys := {"do_sample", "past_present_share_buffer", "early_stopping"}

  /** The settings of the search section. */
  datatype SearchKey =
    | MinLength | MaxLength | NumBeams | NumReturnSequences | TopK | TopP | Temperature | RepetitionPenalty
    | LengthPenalty | NoRepeatNgramSize | DiversityPenalty | RandomSeed | DoSample | PastPresentShareBuffer
    | EarlyStopping

  /** The JSON member name of each key. */
  function SearchKeyName(k: SearchKey): string
  {
    match k
    case MinLength => "min_length"
    case MaxLength => "max_length"
    case NumBeams => "num_beams"
    case NumReturnSequences => "num_return_sequences"
    case TopK => "top_k"
    case TopP => "top_p"
    case Temperature => "temperature"
    case RepetitionPenalty => "repetition_penalty"
    case LengthPenalty => "length_penalty"
    case NoRepeatNgramSize => "no_repeat_ngram_size"
    case DiversityPenalty => "diversity_penalty"
    case RandomSeed => "random_seed"
    case DoSample => "do_sample"
    case PastPresentShareBuffer => "past_present_share_buffer"
    case EarlyStopping => "early_stopping"
  }

  /** The key a number member name names, if any, tested in the order `Search_Element::OnNumber` tests them. */
  function SearchNumberKeyNamed(name: string): (r: Option<SearchKey>)
    ensures r.Some? ==> SearchKeyName(r.value) == name
  {
    if name == "min_length" then Some(MinLength)
    else if name == "max_length" then Some(MaxLength)
    else if name == "num_beams" then Some(NumBeams)
    else if name == "num_return_sequences" then Some(NumReturnSequences)
    else if name == "top_k" then Some(TopK)
    else if name == "top_p" then Some(TopP)
    else if name == "temperature" then Some(Temperature)
    else if name == "repetition_penalty" then Some(RepetitionPenalty)
    else if name == "length_penalty" then Some(LengthPenalty)
    else if name == "no_repeat_ngram_size" then Some(NoRepeatNgramSize)
    else if name == "diversity_penalty" then Some(DiversityPenalty)
    else if name == "random_seed" then Some(RandomSeed)
    else None
  }

  /** The key a boolean member name names, if any, tested in the order `Search_Element::OnBool` tests them. */
  function SearchFlagKeyNamed(name: string): (r: Option<SearchKey>)
    ensures r.Some? ==> SearchKeyName(r.value) == name
  {
    if name == "do_sample" then Some(DoSample)
    else if name == "past_present_share_buffer" then Some(PastPresentShareBuffer)
    else if name == "early_stopping" then Some(EarlyStopping)
    else None
  }

  /** What each search setting reads back. */
  function SearchGet(v: Search, k: SearchKey): Setting
  {
    match k
    case MinLength => Number(v.minLength)
    case MaxLength => Number(v.maxLength)
    case NumBeams => Number(v.numBeams)
    case NumReturnSequences => Number(v.numReturnSequences)
    case TopK => Number(v.topK)
    case TopP => Number(v.topP)
    case Temperature => Number(v.temperature)
    case RepetitionPenalty => Number(v.repetitionPenalty)
    case LengthPenalty => Number(v.lengthPenalty)
    case NoRepeatNgramSize => Number(v.noRepeatNgramSize)
    case DiversityPenalty => Number(v.diversityPenalty)
    case RandomSeed => Number(v.randomSeed)
    case DoSample => Flag(v.doSample)
    case PastPresentShareBuffer => Flag(v.pastPresentShareBuffer)
    case EarlyStopping => Flag(v.earlyStopping)
  }

  /** `b` agrees with `a` on every search setting except `key`. */
  ghost predicate SearchSameExcept(a: Search, b: Search, key: SearchKey)
  {
    forall k :: k != key ==> SearchGet(a, k) == SearchGet(b, k)
  }

  /** `Search_Element::OnString`: the search section has no string settings. */
  function SearchOnString(v: Search, name: string, value: string): (r: Result<Search, ConfigError>)
    ensures r == Failure(UnknownValue)
  {
    Failure(UnknownValue)
  }

  /**
   * `Search_Element::OnNumber`, also reached through `SetSearchNumber`. The source tests
   * "length_penalty" twice; the second test can never be reached and is not repeated here.
   */
  function SearchOnNumber(v: Search, name: string, value: int): (r: Result<Search, ConfigError>)
    ensures r.Success? <==> name in SearchNumberKeys
    ensures r.Failure? ==> r.error == UnknownValue
    ensures r.Success? ==> SearchNumberKeyNamed(name).Some? && SearchGet(r.value, SearchNumberKeyNamed(name).value) == Number(value)
    ensures r.Success? ==> SearchSameExcept(v, r.value, SearchNumberKeyNamed(name).value)
  {
    if name == "min_length" then Success(v.(minLength := value))
    else if name == "max_length" then Success(v.(maxLength := value))
    else if name == "num_beams" then Success(v.(numBeams := value))
    else if name == "num_return_sequences" then Success(v.(numReturnSequences := value))
    else if name == "top_k" then Success(v.(topK := value))
    else if name == "top_p" then Success(v.(topP := value))
    else if name == "temperature" then Success(v.(temperature := value))
    else if name == "repetition_penalty" then Success(v.(repetitionPenalty := value))
    else if name == "length_penalty" then Success(v.(lengthPenalty := value))
    else if name == "no_repeat_ngram_size" then Success(v.(noRepeatNgramSize := value))
    else if name == "diversity_penalty" then Success(v.(diversityPenalty := value))
    else if name == "random_seed" then Success(v.(randomSeed := value))
    else Failure(UnknownValue)
  }

  /** `Search_Element::OnBool`, also reached through `SetSearchBool`. */
  function SearchOnBool(v: Search, name: string, value: bool): (r: Result<Search, ConfigError>)
    ensures r.Success? <==> name in SearchBoolKeys
    ensures r.Failure? ==> r.error == UnknownValue
    ensures r.Success? ==> SearchFlagKeyNamed(name).Some? && SearchGet(r.value, SearchFlagKeyNamed(name).value) == Flag(value)
    ensures r.Success? ==> SearchSameExcept(v, r.value, SearchFlagKeyNamed(name).value)
  {
    if name == "do_sample" then Success(v.(doSample := value))
    else if name == "past_present_share_buffer" then Success(v.(pastPresentShareBuffer := value))
    else if name == "early_stopping" then Success(v.(earlyStopping := value))
    else Failure(UnknownValue)
  }

  // ---------------------------------------------------------------------------------------------
  // CUDA graph capture

  /** A provider that settles `IsCudaGraphEnabled`: "dml", or "cuda" with an `enable_cuda_graph` option. */
  predicate Decisive(p: ProviderOptions)
  {
    p.name == "dml" || (p.name == "cuda" && FindOption(p.options, "enable_cuda_graph").Some?)
  }

  /** What a decisive provider answers. */
  predicate Verdict(p: ProviderOptions)
  {
    p.name == "dml" || FindOption(p.options, "enable_cuda_graph") == Some("1")
  }

  /**
   * `IsCudaGraphEnabled` on a list of providers, as a reference definition: a "dml" provider answers
   * true, a "cuda" provider with an `enable_cuda_graph` option answers whether it is "1", any other
   * provider passes the question on; with none left the answer is false.
   */
  function CudaGraphScan(providers: seq<ProviderOptions>): bool
  {
    if providers == [] then false
    else
      var p := providers[0];
      if p.name == "cuda" then
        match FindOption(p.options, "enable_cuda_graph")
        case Some(v) => v == "1"
        case None => CudaGraphScan(providers[1..])
      else if p.name == "dml" then true
      else CudaGraphScan(providers[1..])
  }

  /**
   * The first decisive provider answers: CUDA graphs are enabled exactly when some provider is
   * decisive with a true verdict and no provider before it is decisive.
   */
  lemma {:induction false} CudaGraphScanFirstDecisive(providers: seq<ProviderOptions>)
    ensures CudaGraphScan(providers) <==>
            exists i :: 0 <= i < |providers| && Decisive(providers[i]) && Verdict(providers[i]) &&
                        forall j :: 0 <= j < i ==> !Decisive(providers[j])
  {
    if providers != [] {
      var p := providers[0];
      var rest := CudaGraphScan(providers[1..]);
      CudaGraphScanFirstDecisive(providers[1..]);
      assert Decisive(p) ==> (CudaGraphScan(providers) <==> Verdict(p));
      assert !Decisive(p) ==> (CudaGraphScan(providers) <==> rest);
      if !Decisive(p) && rest {
        var i :| 0 <= i < |providers[1..]| && Decisive(providers[1..][i]) && Verdict(providers[1..][i]) &&
                 forall j :: 0 <= j < i ==> !Decisive(providers[1..][j]);
        assert forall j :: 0 <= j < i + 1 ==> !Decisive(providers[j]) by {
          forall j | 0 <= j < i + 1 ensures !Decisive(providers[j]) {
            if j > 0 { assert providers[j] == providers[1..][j - 1]; }
          }
        }
        assert providers[i + 1] == providers[1..][i];
      }
      if exists i :: 1 <= i < |providers| && Decisive(providers[i]) && Verdict(providers[i]) &&
                     forall j :: 0 <= j < i ==> !Decisive(providers[j]) {
        var i :| 1 <= i < |providers| && Decisive(providers[i]) && Verdict(providers[i]) &&
                 forall j :: 0 <= j < i ==> !Decisive(providers[j]);
        assert providers[1..][i - 1] == providers[i];
        assert forall j :: 0 <= j < i - 1 ==> !Decisive(providers[1..][j]) by {
          forall j | 0 <= j < i - 1 ensures !Decisive(providers[1..][j]) {
            assert providers[1..][j] == providers[j + 1];
          }
        }
      }
    }
  }

  /**
   * `IsCudaGraphEnabled`: the scan over the providers in order, and over a "cuda" provider's options
   * in order, that returns at the first answer.
   */
  method IsCudaGraphEnabled(options: SessionOptions) returns (r: bool)
    ensures r == CudaGraphScan(options.providerOptions)
  {
    var providers := options.providerOptions;
    var i := 0;
    while i < |providers|
      invariant 0 <= i <= |providers|
      invariant CudaGraphScan(providers[i..]) == CudaGraphScan(providers)
    {
      var p := providers[i];
      if p.name == "cuda" {
        var j := 0;
        while j < |p.options|
          invariant 0 <= j <= |p.options|
          invariant FindOption(p.options[j..], "enable_cuda_graph") == FindOption(p.options, "enable_cuda_graph")
        {
          if p.options[j].0 == "enable_cuda_graph" {
            return p.options[j].1 == "1";
          }
          assert p.options[j..][1..] == p.options[j + 1..];
          j := j + 1;
        }
        assert p.options[j..] == [];
      } else if p.name == "dml" {
        return true;
      }
      assert providers[i..][1..] == providers[i + 1..];
      i := i + 1;
    }
    assert providers[i..] == [];
    return false;
  }

  // ---------------------------------------------------------------------------------------------
  // Post-parse defaults and the nominal-name table

  /**
   * The checks and defaults `Config::Config` applies once the file is parsed: a zero context length
   * is an error; a zero `max_length` becomes the context length, any other is kept.
   */
  function ApplyDefaults(model: Model, search: Search): (r: Result<Search, ConfigError>)
    ensures r.Failure? <==> model.contextLength == 0
    ensures r.Failure? ==> r.error == ContextLengthZero
    ensures r.Success? && search.maxLength == 0 ==> r.value.maxLength == model.contextLength
    ensures r.Success? && search.maxLength != 0 ==> r.value.maxLength == search.maxLength
    ensures r.Success? ==> SearchSameExcept(search, r.value, MaxLength)
  {
    if model.contextLength == 0 then Failure(ContextLengthZero)
    else if search.maxLength == 0 then Success(search.(maxLength := model.contextLength))
    else Success(search)
  }

  /** Applying the defaults a second time changes nothing. */
  lemma ApplyDefaultsIdempotent(model: Model, search: Search)
    requires ApplyDefaults(model, search).Success?
    ensures ApplyDefaults(model, ApplyDefaults(model, search).value) == ApplyDefaults(model, search)
  {
  }

  /**
   * `AddMapping` on the table: `emplace` inserts only a new name; a name already mapped to another
   * graph name is reported and the table is left as it was.
   */
  function AddMappingTo(table: map<string, string>, nominal: string, graph: string): (r: Result<map<string, string>, ConfigError>)
    ensures r.Success? <==> nominal !in table || table[nominal] == graph
    ensures r.Success? ==> r.value == table[nominal := graph]
    ensures r.Failure? ==> r.error == DuplicateNominalName(nominal, graph, table[nominal])
  {
    if nominal in table && table[nominal] != graph then Failure(DuplicateNominalName(nominal, graph, table[nominal]))
    else Success(table[nominal := graph])
  }

  /** `GetGraphName` on the table: the mapped name and true, or the nominal name itself and false. */
  function LookupGraphName(table: map<string, string>, nominal: string): (r: (string, bool))
    ensures r.1 <==> nominal in table
    ensures r.1 ==> r.0 == table[nominal]
    ensures !r.1 ==> r.0 == nominal
  {
    if nominal in table then (table[nominal], true) else (nominal, false)
  }

  /** After a successful `AddMapping(n, g)`, `n` resolves to `g` and every other name as before. */
  lemma AddMappingThenLookup(table: map<string, string>, nominal: string, graph: string, other: string)
    requires AddMappingTo(table, nominal, graph).Success?
    ensures LookupGraphName(AddMappingTo(table, nominal, graph).value, nominal) == (graph, true)
    ensures other != nominal ==>
      LookupGraphName(AddMappingTo(table, nominal, graph).value, other) == LookupGraphName(table, other)
  {
  }

  /** Adding the same pair again is accepted and leaves the table as it was. */
  lemma AddMappingIdempotent(table: map<string, string>, nominal: string, graph: string)
    requires AddMappingTo(table, nominal, graph).Success?
    ensures var t := AddMappingTo(table, nominal, graph).value;
      AddMappingTo(t, nominal, graph) == Success(t)
  {
    var t := AddMappingTo(table, nominal, graph).value;
    assert t[nominal := graph] == t;
  }

  /** The parsed configuration and its nominal-to-graph name table (`Generators::Config`). */
  class Config {
    var model: Model
    var search: Search
    var nominalNamesToGraphNames: map<string, string>

    constructor Parsed(model: Model, search: Search)
      ensures this.model == model && this.search == search && nominalNamesToGraphNames == map[]
    {
      this.model := model;
      this.search := search;
      nominalNamesToGraphNames := map[];
    }

    /**
     * `Config::Config` after `ParseConfig` has filled `model` and `search`: fails on a zero context
     * length, otherwise defaults `max_length` to the context length.
     */
    static method Create(model: Model, search: Search) returns (r: Result<Config, ConfigError>)
      ensures r.Failure? <==> model.contextLength == 0
      ensures r.Failure? ==> r.error == ContextLengthZero
      ensures r.Success? ==> fresh(r.value) && r.value.model == model &&
                             r.value.search == ApplyDefaults(model, search).value &&
                             r.value.nominalNamesToGraphNames == map[]
    {
      var c := new Config.Parsed(model, search);
      if c.model.contextLength == 0 {
        return Failure(ContextLengthZero);
      }
      if c.search.maxLength == 0 {
        c.search := c.search.(maxLength := c.model.contextLength);
      }
      return Success(c);
    }

    method AddMapping(nominal: string, graph: string) returns (o: Outcome<ConfigError>)
      modifies this
      ensures model == old(model) && search == old(search)
      ensures var expected := AddMappingTo(old(nominalNamesToGraphNames), nominal, graph);
        && (o.Pass? <==> expected.Success?)
        && (expected.Success? ==> nominalNamesToGraphNames == expected.value)
        && (expected.Failure? ==> o == Fail(expected.error) && nominalNamesToGraphNames == old(nominalNamesToGraphNames))
      ensures o.Pass? ==> GetGraphName(nominal) == (graph, true)
    {
      if nominal !in nominalNamesToGraphNames {
        nominalNamesToGraphNames := nominalNamesToGraphNames[nominal := graph];
      }
      var existing := nominalNamesToGraphNames[nominal];
      if existing != graph {
        return Fail(DuplicateNominalName(nominal, graph, existing));
      }
      return Pass;
    }

    function GetGraphName(nominal: string): (r: (string, bool))
      reads this
      ensures r == LookupGraphName(nominalNamesToGraphNames, nominal)
    {
      if nominal in nominalNamesToGraphNames then (nominalNamesToGraphNames[nominal], true) else (nominal, false)
    }
  }
}
