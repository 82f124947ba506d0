/// Shared vocabulary for the model: optional values, results with Python
/// exceptions as the error side, the JSON-like values that flow through the
/// collector's dictionaries, and a mutable dictionary object for the places
/// where the source mutates a caller's dict in place.
module Common {

  datatype Option<T> = None | Some(value: T)

  datatype Result<T, E> = Ok(value: T) | Err(error: E)

  /// The Python exceptions that the modelled code raises or lets escape.
  datatype Exception =
    | KeyError(key: string)
    | IndexError
    | ValueError
    | TypeError
    | AttributeError
    | ZeroDivisionError
    | FileNotFoundError
    | RuntimeError

  /// A value stored in one of the collector's dictionaries. `Blob` stands for
  /// anything that is not a plain Python scalar or container (numpy arrays,
  /// PIL images, simulator handles); `id` only tells two blobs apart.
  datatype Value =
    | Null
    | Bool(b: bool)
    | Int(i: int)
    | Real(r: real)
    | Str(s: string)
    | List(items: seq<Value>)
    | Dict(entries: map<string, Value>)
    | Blob(id: nat)

  /// Python truthiness of a value (`if v:`). A blob is taken to be truthy,
  /// as any object without `__bool__` or `__len__` is.
  predicate Truthy(v: Value)
  {
    match v
    case Null => false
    case Bool(b) => b
    case Int(i) => i != 0
    case Real(r) => r != 0.0
    case Str(s) => s != []
    case List(items) => items != []
    case Dict(entries) => entries != map[]
    case Blob(_) => true
  }

  /// Equal strings with the same text around two middles have equal middles.
  lemma CancelAround(p: string, a: string, b: string, q: string)
    requires p + a + q == p + b + q
    ensures a == b
  {
    assert |a| == |b|;
    assert a == (p + a + q)[|p|..|p| + |a|];
    assert b == (p + b + q)[|p|..|p| + |b|];
  }

  /// A Python dict object that a callee mutates in place and whose caller
  /// sees the mutation (aliasing).
  class Dict {
    var entries: map<string, Value>

    constructor (m: map<string, Value>)
      ensures entries == m
    {
      entries := m;
    }
  }
}
