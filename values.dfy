/** The Python values that flow through the pooling factory: the entries of the
    configuration dictionary and the parsed JSON documents returned by the
    hub lookup. Only the parts of Python's semantics that the factory relies on
    are modelled: truth testing, `==` against string literals and `dict.get`. */
module Values {

  datatype Option<+T> = None | Some(value: T)

  /** A Python value. `Null` is `None`; `Object` stands for any other object
      (a torch device, a tokenizer instance, ...), told apart by an identity. */
  datatype Value =
    | Null
    | Bool(b: bool)
    | Int(i: int)
    | Float(f: real)
    | Str(s: string)
    | Bytes(data: seq<bv8>)
    | List(items: seq<Value>)
    | Dict(entries: map<string, Value>)
    | Object(id: nat)

  /** Python truth testing (`bool(v)`): None, False, zero and empty containers
      are false; every other value, including a plain object, is true. */
  predicate Truthy(v: Value) {
    match v
    case Null => false
    case Bool(b) => b
    case Int(i) => i != 0
    case Float(f) => f != 0.0
    case Str(s) => |s| > 0
    case Bytes(data) => |data| > 0
    case List(items) => |items| > 0
    case Dict(entries) => |entries| > 0
    case Object(_) => true
  }

  /** `d.get(key)`: the entry under `key`, or None when the key is absent. */
  function Get(d: map<string, Value>, key: string): Value {
    if key in d then d[key] else Null
  }
}
