/** The values that travel between the sorting game, the gaze control station
    and the logging server: parsed JSON scalars, objects of them, and the
    datetime values the server stores in its card records. */
module Values {

  datatype Option<T> = None | Some(value: T)

  /** A JSON scalar as `JSON.parse` and `json.loads` produce it, or a server-side
      datetime (`Time`, in milliseconds). A missing property is read as `Null`:
      every place in the core that reads one treats `undefined`, `null` and
      `None` alike. */
  datatype Value = Null | Bool(b: bool) | Num(n: real) | Str(s: string) | Time(ms: int)

  /** A parsed JSON object, or a Python dict keyed by strings. */
  type Object = map<string, Value>

  /** `data.key` in JavaScript and `data.get(key)` in Python. */
  function Get(o: Object, key: string): (v: Value)
    ensures key in o ==> v == o[key]
    ensures key !in o ==> v == Null
  {
    if key in o then o[key] else Null
  }

  /** `data.get(key, default)` in Python: the stored value, even when it is `None`. */
  function GetOr(o: Object, key: string, default: Value): (v: Value)
    ensures key in o ==> v == o[key]
    ensures key !in o ==> v == default
  {
    if key in o then o[key] else default
  }

  /** The truthiness test `if (x)` / `if x`, on which JavaScript and Python agree
      for these scalars: null, false, zero and the empty string are false. */
  function Truthy(v: Value): (b: bool)
    ensures !b <==> v in {Null, Bool(false), Num(0.0), Str("")}
  {
    match v
    case Null => false
    case Bool(b) => b
    case Num(n) => n != 0.0
    case Str(s) => s != ""
    case Time(_) => true
  }
}
