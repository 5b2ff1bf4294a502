/** The pooling factory of txtai (`PoolingFactory` in models/pooling/factory.py):
    from a pooling configuration and what the host can tell about the model
    path, decide which pooling strategy to build and with which maximum
    sequence length. The filesystem and the Hugging Face Hub are the `Host`;
    every hub download the factory makes is recorded in the result. */
module PoolingFactory {
  import opened Values

  // Keys of the pooling configuration dictionary, in the order `create` unpacks them
  const MethodKey := "method"
  const PathKey := "path"
  const DeviceKey := "device"
  const TokenizerKey := "tokenizer"
  const MaxLengthKey := "maxlength"
  const ModelArgsKey := "modelargs"
  const ConfigKeys: seq<string> := [MethodKey, PathKey, DeviceKey, TokenizerKey, MaxLengthKey, ModelArgsKey]

  // Method names understood by `create`
  const RawMethod := "pooling"
  const ClsMethod := "clspooling"
  const MeanMethod := "meanpooling"

  // Files read from the hub and the entries read from them
  const PoolingConfigFile := "1_Pooling/config.json"
  const TokenizerConfigFile := "sentence_bert_config.json"
  const ClsFlag := "pooling_mode_cls_token"
  const MeanFlag := "pooling_mode_mean_tokens"
  const MaxSeqLength := "max_seq_length"

  /** What the factory asks of its surroundings: `os.path.isfile`,
      `os.path.exists`, and `load(path, name)`, the download and JSON parse of
      file `name` of model `path`, where None means EntryNotFoundError. */
  datatype Host = Host(
    isFile: string -> bool,
    pathExists: string -> bool,
    load: (Value, string) -> Option<Value>)

  /** One call of `load` */
  datatype Lookup = Lookup(path: Value, name: string)

  /** The Python exceptions the factory can raise out of a loaded config */
  datatype PyError = KeyError(key: string) | TypeError | AttributeError

  datatype Result<+T> = Ok(value: T) | Err(error: PyError)

  /** An outcome together with the hub lookups made to reach it, in order */
  datatype Run<+T> = Run(result: Result<T>, lookups: seq<Lookup>)

  /** The three strategies: `Pooling` (raw hidden states), `ClsPooling`, `MeanPooling` */
  datatype Kind = Raw | Cls | Mean

  /** The constructor arguments every strategy receives */
  datatype Args = Args(path: Value, device: Value, tokenizer: Value, maxlength: Value, modelargs: Value)

  datatype Strategy = Strategy(kind: Kind, args: Args)

  /** `[config.get(x) for x in keys]` */
  function Unpack(config: map<string, Value>, keys: seq<string>): (r: seq<Value>)
    ensures |r| == |keys|
    ensures forall i :: 0 <= i < |keys| ==> r[i] == Get(config, keys[i])
  {
    if keys == [] then [] else [Get(config, keys[0])] + Unpack(config, keys[1..])
  }

  /** A request that is answered with the raw hidden state: bytes, an existing
      local file, or the method "pooling". */
  predicate IsRawRequest(path: Value, requested: Value, host: Host) {
    path.Bytes? || (path.Str? && host.isFile(path.s)) || requested == Str(RawMethod)
  }

  /** A method that the configuration pins and that no lookup may override */
  predicate IsExplicitMethod(requested: Value) {
    requested == Str(ClsMethod) || requested == Str(MeanMethod)
  }

  /** A path that names a model on the hub rather than something on local storage */
  predicate IsRemoteId(path: Value, host: Host) {
    path.Str? && !host.pathExists(path.s)
  }

  /** The sentence-transformers pooling config declares CLS pooling */
  predicate DeclaresCls(config: Option<Value>) {
    config.Some? && config.value.Dict? &&
    var flags := config.value.entries;
    ClsFlag in flags && Truthy(flags[ClsFlag]) && MeanFlag in flags && !Truthy(flags[MeanFlag])
  }

  /** The exception `method` raises on a loaded pooling config, if any: every
      config but a dictionary fails the subscript, and the mean flag is read
      only when the CLS flag is true. */
  function PoolingConfigError(config: Option<Value>): Option<PyError> {
    if config.None? then None
    else if !config.value.Dict? then Some(TypeError)
    else if ClsFlag !in config.value.entries then Some(KeyError(ClsFlag))
    else if Truthy(config.value.entries[ClsFlag]) && MeanFlag !in config.value.entries then Some(KeyError(MeanFlag))
    else None
  }

  /** `PoolingFactory.method(path)`: "clspooling" when the model's pooling
      config enables CLS pooling and disables mean pooling, "meanpooling" otherwise
      and when there is no such config. */
  function Method(path: Value, host: Host): (r: Run<string>)
    ensures r.lookups == [Lookup(path, PoolingConfigFile)]
    ensures r.result.Ok? ==> r.result.value == ClsMethod || r.result.value == MeanMethod
    ensures r.result == Ok(ClsMethod) <==> DeclaresCls(host.load(path, PoolingConfigFile))
    ensures host.load(path, PoolingConfigFile).None? ==> r.result == Ok(MeanMethod)
    ensures r.result.Err? <==> PoolingConfigError(host.load(path, PoolingConfigFile)).Some?
    ensures r.result.Err? ==> Some(r.result.error) == PoolingConfigError(host.load(path, PoolingConfigFile))
  {
    var lookups := [Lookup(path, PoolingConfigFile)];
    match host.load(path, PoolingConfigFile)
    case None => Run(Ok(MeanMethod), lookups)
    case Some(config) =>
      if !config.Dict? then Run(Err(TypeError), lookups)
      else if ClsFlag !in config.entries then Run(Err(KeyError(ClsFlag)), lookups)
      else if !Truthy(config.entries[ClsFlag]) then Run(Ok(MeanMethod), lookups)
      else if MeanFlag !in config.entries then Run(Err(KeyError(MeanFlag)), lookups)
      else if !Truthy(config.entries[MeanFlag]) then Run(Ok(ClsMethod), lookups)
      else Run(Ok(MeanMethod), lookups)
  }

  /** `PoolingFactory.maxlength(path)`: the `max_seq_length` entry of the
      model's sentence-transformers config; None when the file or the entry is
      absent. A loaded document that is not a dictionary has no `get`. */
  function MaxLength(path: Value, host: Host): (r: Run<Value>)
    ensures r.lookups == [Lookup(path, TokenizerConfigFile)]
    ensures host.load(path, TokenizerConfigFile).None? ==> r.result == Ok(Null)
    ensures host.load(path, TokenizerConfigFile).Some? && host.load(path, TokenizerConfigFile).value.Dict? ==>
      var entries := host.load(path, TokenizerConfigFile).value.entries;
      r.result == Ok(if MaxSeqLength in entries then entries[MaxSeqLength] else Null)
    ensures r.result.Err? <==> host.load(path, TokenizerConfigFile).Some? && !host.load(path, TokenizerConfigFile).value.Dict?
    ensures r.result.Err? ==> r.result.error == AttributeError
  {
    var lookups := [Lookup(path, TokenizerConfigFile)];
    match host.load(path, TokenizerConfigFile)
    case None => Run(Ok(Null), lookups)
    case Some(config) =>
      if config.Dict? then Run(Ok(Get(config.entries, MaxSeqLength)), lookups)
      else Run(Err(AttributeError), lookups)
  }

  /** The strategy a non-raw request gets for its final method */
  function KindOf(requested: Value): Kind {
    if requested == Str(ClsMethod) then Cls else Mean
  }

  /** The maximum length lookup of `create` fails, which aborts `create` */
  predicate MaxLengthFails(config: map<string, Value>, host: Host) {
    Get(config, MaxLengthKey) == Bool(true) && MaxLength(Get(config, PathKey), host).result.Err?
  }

  /** `create` consults the pooling config of the model */
  predicate LooksUpMethod(config: map<string, Value>, host: Host) {
    var requested, path := Get(config, MethodKey), Get(config, PathKey);
    !MaxLengthFails(config, host) && !IsRawRequest(path, requested, host) &&
    !IsExplicitMethod(requested) && IsRemoteId(path, host)
  }

  /** `PoolingFactory.create(config)` */
  function Create(config: map<string, Value>, host: Host): (r: Run<Strategy>)
    // Every strategy is built from the configured path, device, tokenizer and model arguments
    ensures r.result.Ok? ==>
      var a := r.result.value.args;
      a.path == Get(config, PathKey) && a.device == Get(config, DeviceKey) &&
      a.tokenizer == Get(config, TokenizerKey) && a.modelargs == Get(config, ModelArgsKey)
    // maxlength: derived from the model only when it is exactly True, otherwise kept as given
    ensures r.result.Ok? && Get(config, MaxLengthKey) != Bool(true) ==>
      r.result.value.args.maxlength == Get(config, MaxLengthKey)
    ensures r.result.Ok? && Get(config, MaxLengthKey) == Bool(true) ==>
      MaxLength(Get(config, PathKey), host).result == Ok(r.result.value.args.maxlength)
    // The lookups made, exactly: the tokenizer config iff maxlength is True, whatever the path,
    // then the pooling config iff the method is neither pinned nor raw and the path is a hub id
    ensures r.lookups ==
      (if Get(config, MaxLengthKey) == Bool(true) then [Lookup(Get(config, PathKey), TokenizerConfigFile)] else []) +
      (if LooksUpMethod(config, host) then [Lookup(Get(config, PathKey), PoolingConfigFile)] else [])
    ensures |r.lookups| <= 2 && forall l :: l in r.lookups ==> l.path == Get(config, PathKey)
    ensures Lookup(Get(config, PathKey), TokenizerConfigFile) in r.lookups <==> Get(config, MaxLengthKey) == Bool(true)
    ensures Get(config, MaxLengthKey) == Bool(true) ==> r.lookups[0] == Lookup(Get(config, PathKey), TokenizerConfigFile)
    ensures Lookup(Get(config, PathKey), PoolingConfigFile) in r.lookups <==> LooksUpMethod(config, host)
    // Raw is chosen exactly for a raw request
    ensures r.result.Ok? ==>
      (r.result.value.kind == Raw <==> IsRawRequest(Get(config, PathKey), Get(config, MethodKey), host))
    // Otherwise CLS exactly when the final method is "clspooling"
    ensures r.result.Ok? && !LooksUpMethod(config, host) && r.result.value.kind != Raw ==>
      r.result.value.kind == KindOf(Get(config, MethodKey))
    ensures r.result.Ok? && LooksUpMethod(config, host) ==>
      (r.result.value.kind == Cls <==> Method(Get(config, PathKey), host).result == Ok(ClsMethod))
    // create fails only when one of its lookups raises
    ensures r.result.Err? <==>
      MaxLengthFails(config, host) || (LooksUpMethod(config, host) && Method(Get(config, PathKey), host).result.Err?)
    // and then raises that lookup's exception unchanged
    ensures r.result.Err? ==>
      r.result.error == if MaxLengthFails(config, host) then MaxLength(Get(config, PathKey), host).result.error
                        else Method(Get(config, PathKey), host).result.error
  {
    var fields := Unpack(config, ConfigKeys);
    var requested, path, device, tokenizer, maxlength, modelargs :=
      fields[0], fields[1], fields[2], fields[3], fields[4], fields[5];
    // maxlength True asks the model's tokenizer config
    var derived := if maxlength.Bool? && Truthy(maxlength) then MaxLength(path, host) else Run(Ok(maxlength), []);
    if derived.result.Err? then Run(Err(derived.result.error), derived.lookups)
    else
      var args := Args(path, device, tokenizer, derived.result.value, modelargs);
      if path.Bytes? || (path.Str? && host.isFile(path.s)) || requested == Str(RawMethod) then
        Run(Ok(Strategy(Raw, args)), derived.lookups)
      else if (!Truthy(requested) || (requested != Str(ClsMethod) && requested != Str(MeanMethod))) && (path.Str? && !host.pathExists(path.s)) then
        var resolved := Method(path, host);
        var lookups := derived.lookups + resolved.lookups;
        match resolved.result
        case Err(e) => Run(Err(e), lookups)
        case Ok(name) => Run(Ok(Strategy(KindOf(Str(name)), args)), lookups)
      else
        Run(Ok(Strategy(KindOf(requested), args)), derived.lookups)
  }
}
