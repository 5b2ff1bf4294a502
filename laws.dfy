/** Laws that relate several runs of the pooling factory. */
module PoolingFactoryLaws {
  import opened Values
  import opened PoolingFactory

  /** The lookup record is complete: `create` reads the hub only through the
      lookups it records, so two hosts that agree on the filesystem and on
      those lookups give the same run. In particular a run that records no
      lookup of a file does not depend on that file at all. */
  lemma TraceIsComplete(config: map<string, Value>, h1: Host, h2: Host)
    requires forall s :: h1.isFile(s) == h2.isFile(s)
    requires forall s :: h1.pathExists(s) == h2.pathExists(s)
    requires forall l :: l in Create(config, h1).lookups ==> h1.load(l.path, l.name) == h2.load(l.path, l.name)
    ensures Create(config, h2) == Create(config, h1)
  {
  }

  /** The method name that requests a strategy kind */
  function MethodName(kind: Kind): string
  {
    match kind
    case Raw => RawMethod
    case Cls => ClsMethod
    case Mean => MeanMethod
  }

  /** Resolution is a fixed point: configuring the strategy `create` chose,
      with the method named after it and the maximum length it derived, gives
      the same strategy again and needs no lookup at all. The derived maximum
      length must not itself be True, which would start a new lookup. */
  lemma ResolvedStrategyIsFixedPoint(config: map<string, Value>, host: Host)
    requires Create(config, host).result.Ok?
    requires Create(config, host).result.value.args.maxlength != Bool(true)
    ensures
      var chosen := Create(config, host).result.value;
      var pinned := config[MethodKey := Str(MethodName(chosen.kind))][MaxLengthKey := chosen.args.maxlength];
      Create(pinned, host) == Run(Ok(chosen), [])
  {
  }

  /** The flag convention of sentence-transformers pooling configs: CLS pooling
      only when the CLS flag is set and the mean flag is not; set together,
      the mean flag wins; neither set gives the mean default. */
  lemma MethodFlagTable(path: Value, host: Host, cls: bool, mean: bool)
    requires host.load(path, PoolingConfigFile) == Some(Dict(map[ClsFlag := Bool(cls), MeanFlag := Bool(mean)]))
    ensures Method(path, host).result == Ok(if cls && !mean then ClsMethod else MeanMethod)
  {
  }
}
