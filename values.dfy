/** Python-level values, as the callbacks, the message handlers and the
    chat tool exchange them: JSON-like scalars, lists and dictionaries, plus
    the exceptions the code can raise. */
module Values {

  datatype Option<+T> = None | Some(value: T) {
    function GetOr(default: T): T {
      match this
      case Some(v) => v
      case None => default
    }
  }

  /** The exceptions the modelled code can raise; `Message` is `str(e)`. */
  datatype Failure =
    | KeyError(key: string)
    | ValueError(message: string)
    | TypeError(message: string)
    | AttributeError(message: string)
    | ServiceError(message: string)

  /** A computation that returns a value or raises. */
  datatype Result<+T> = Ok(value: T) | Raised(failure: Failure)

  /** `str(e)`: a KeyError shows the quoted key, every other exception its message. */
  function Message(f: Failure): string {
    match f
    case KeyError(k) => "'" + k + "'"
    case ValueError(m) => m
    case TypeError(m) => m
    case AttributeError(m) => m
    case ServiceError(m) => m
  }

  /** A dictionary key: a string, or an integer (the row index of a pandas column). */
  datatype Key = Name(name: string) | Index(index: int)

  /** A Python value. Floats are exact reals: no arithmetic is done on them. */
  datatype Value =
    | Null
    | Bool(b: bool)
    | Int(i: int)
    | Float(x: real)
    | Str(s: string)
    | List(items: seq<Value>)
    | Dict(fields: map<Key, Value>)

  /** Python truthiness. */
  predicate Truthy(v: Value) {
    match v
    case Null => false
    case Bool(b) => b
    case Int(i) => i != 0
    case Float(x) => x != 0.0
    case Str(s) => s != ""
    case List(xs) => xs != []
    case Dict(m) => m != map[]
  }

  /** `len(v)` is defined (str, list, dict). */
  predicate Sized(v: Value) {
    v.Str? || v.List? || v.Dict?
  }

  /** `type(v).__name__`, as it appears in Python's error messages. */
  function TypeName(v: Value): string {
    match v
    case Null => "NoneType"
    case Bool(_) => "bool"
    case Int(_) => "int"
    case Float(_) => "float"
    case Str(_) => "str"
    case List(_) => "list"
    case Dict(_) => "dict"
  }

  /** `Str(s)` for a present optional string, `None` (Null) otherwise. */
  function OptStr(s: Option<string>): Value {
    match s
    case Some(t) => Str(t)
    case None => Null
  }

  /** `Int(i)` for a present optional integer, `None` (Null) otherwise. */
  function OptInt(i: Option<int>): Value {
    match i
    case Some(n) => Int(n)
    case None => Null
  }
}
