# txtai pooling factory, modelled in Dafny

This project models `PoolingFactory` of txtai's `models/pooling` package. The
factory turns a pooling configuration into one of three pooling strategies:

- `Pooling`: the raw hidden state, no reduction;
- `ClsPooling`: the first token's vector;
- `MeanPooling`: the mask-weighted mean of the token vectors.

It also settles the maximum sequence length. Both decisions can draw on two
sentence-transformers files that a model may publish on the Hugging Face Hub:

- `1_Pooling/config.json` holds the pooling flags;
- `sentence_bert_config.json` holds `max_seq_length`.

Files:

- `values.dfy` (module `Values`): the Python values the factory handles
  (`None`, booleans, numbers, strings, bytes, lists, dictionaries, other
  objects), Python truth testing, and `dict.get`.
- `factory.dfy` (module `PoolingFactory`): `create`, `method` and
  `maxlength` as total functions.
  - The filesystem and the hub form a `Host`: `isFile` and `pathExists` are
    the two `os.path` queries. `load` returns `None` exactly where the hub
    raises `EntryNotFoundError`.
  - Every function returns a `Run`: the outcome (a strategy or a Python
    exception) together with the hub lookups made, in order.
- `laws.dfy` (module `PoolingFactoryLaws`): properties that relate several
  runs.

The strategy kind is a closed datatype `Raw | Cls | Mean`, so every result is
one of the three strategies by construction. The factory is a function of the
configuration and the host, so two calls with the same configuration and the
same host (the same filesystem answers and the same hub contents) resolve the
same strategy.

The model follows the code in three places where one might expect otherwise:

- A pooling config that exists but lacks its flags does not fall back to mean
  pooling. The subscript `config[...]` raises `KeyError` out of `create`. The
  mean flag is read only when the CLS flag is true, so `{"pooling_mode_cls_token": false}`
  alone still gives mean pooling.
- A derived maximum length is whatever `max_seq_length` holds. Nothing checks
  that it is a positive integer.
- The guard `not method or method not in (...)` equals "method is neither
  `clspooling` nor `meanpooling`". The `Create` contract states it in that form.

## Model

| member | source | states |
|---|---|---|
| PoolingFactory.Unpack | src/python/txtai/models/pooling/factory.py:34-36 | the unpacked list has one entry per key, and each entry is `config.get` of that key (None for a missing key) |
| PoolingFactory.Method | src/python/txtai/models/pooling/factory.py:57-83 | exactly one lookup, of `1_Pooling/config.json`; the result is always "clspooling" or "meanpooling"; "clspooling" iff the config is present with the CLS flag truthy and the mean flag falsy; "meanpooling" when the file is absent; it raises iff the config is not a dictionary (TypeError), lacks the CLS flag, or has a truthy CLS flag and no mean flag (KeyError naming the key) |
| PoolingFactory.MaxLength | src/python/txtai/models/pooling/factory.py:86-109 | exactly one lookup, of `sentence_bert_config.json`; None when the file is absent; the `max_seq_length` entry, or None when it is missing, for a dictionary; AttributeError iff the loaded document is not a dictionary |
| PoolingFactory.Create | src/python/txtai/models/pooling/factory.py:22-54 | every strategy gets the configured path, device, tokenizer and model arguments; maxlength is replaced by the derived value only when it is exactly True, and otherwise passes through unchanged, for Raw too; the tokenizer config is looked up iff maxlength is True, first, whatever the path; the pooling config is looked up iff the maxlength lookup did not raise, the request is not raw, the method is not pinned and the path is a string that does not exist locally; the lookups are exactly these, in this order, and nothing else is read; Raw iff the path is bytes, an existing local file or the method is "pooling"; otherwise Cls iff the final method is "clspooling"; it raises iff a lookup it made raised, and then with that lookup's exception unchanged |
| PoolingFactoryLaws.TraceIsComplete | src/python/txtai/models/pooling/factory.py:38-54 | two hosts that agree on the filesystem and on every recorded lookup give the same run, so the lookup record names every hub read `create` depends on |
| PoolingFactoryLaws.ResolvedStrategyIsFixedPoint | src/python/txtai/models/pooling/factory.py:39-54 | pinning the chosen strategy's method name and the derived maxlength in the configuration gives the same strategy again with no lookup (provided the derived maxlength is not itself True) |
| PoolingFactoryLaws.MethodFlagTable | src/python/txtai/models/pooling/factory.py:75-77 | for boolean flags: CLS pooling only for cls=true and mean=false; both true or both false give mean pooling |

## Left out

- The body of `load` (factory.py:111-127): the hub download, the file read and
  the JSON parse. `load` is an oracle of the `Host`, and `None` stands for
  `EntryNotFoundError`.
- Hub errors other than `EntryNotFoundError` (network, authentication, an
  invalid repository id such as a bytes path): these propagate in the source
  and are outside the decision logic. The oracle cannot raise them.
- `os.path.isfile` and `os.path.exists`: filesystem queries, taken as
  uninterpreted predicates. Nothing assumes that a file exists.
- The `Pooling`, `ClsPooling` and `MeanPooling` classes: their constructors and
  pooling computations. These modules are not part of this model; they wrap a
  transformer encoder and compute with floating-point tensors. A strategy is
  modelled as its kind plus its constructor arguments.
- Python objects that override `__bool__` or `__eq__`: every object is truthy
  and equals no string. Floating-point NaN is not modelled.
- `create` on a configuration that is not a dictionary: the configuration is a
  map from strings to values.
