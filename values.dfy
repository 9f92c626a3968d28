/**
 * The Python values that flow through the account API: request and response
 * dictionaries, their entries, and the bytes a signed token may come as.
 */
module Values {

  newtype byte = x: int | 0 <= x < 256

  /** A Python value as it appears in a response dictionary. */
  datatype Value =
    | Null
    | Bool(b: bool)
    | Int(i: int)
    | Str(s: string)
    | Bytes(bytes: seq<byte>)
    | List(elems: seq<Value>)
    | Dict(entries: map<string, Value>)

  /** Python's truth value of an object (`if v:`). */
  predicate Truthy(v: Value)
  {
    match v
    case Null => false
    case Bool(b) => b
    case Int(i) => i != 0
    case Str(s) => s != []
    case Bytes(bs) => bs != []
    case List(es) => es != []
    case Dict(m) => m != map[]
  }

  /** `d.get(key, None)`. */
  function Get(entries: map<string, Value>, key: string): Value
  {
    if key in entries then entries[key] else Null
  }

  /**
   * Whether `json.dumps` can encode the value: bytes anywhere inside it make
   * the standard encoder raise `TypeError`.
   */
  predicate Serializable(v: Value)
  {
    match v
    case Bytes(_) => false
    case List(es) => forall i :: 0 <= i < |es| ==> Serializable(es[i])
    case Dict(m) => forall k :: k in m ==> Serializable(m[k])
    case _ => true
  }

  /** A dictionary object that callers share by reference. */
  class PyDict {
    var items: map<string, Value>

    constructor (items: map<string, Value>)
      ensures this.items == items
    {
      this.items := items;
    }
  }
}
