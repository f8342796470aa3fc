/**
 * JSON values as Python holds them after `response.json()`, and the few Python
 * operations main.py applies to them: `dict.get` with a default, `== 0`,
 * truthiness, `len`, and the `in` operator. An operation Python refuses raises
 * one of the exceptions below; every such exception is caught by one of the
 * `except Exception` blocks of main.py.
 */
module PyJson {

  /** JSON numbers are modelled as integers (floating point is not modelled). */
  datatype Value =
    | Null
    | Bool(b: bool)
    | Num(n: int)
    | Str(s: string)
    | Arr(items: seq<Value>)
    | Obj(fields: map<string, Value>)

  /** The exceptions main.py can meet; all of them derive from `Exception`. */
  datatype Exception =
    | RequestError    // `requests.get` failed: connection error or the 5-second timeout
    | DecodeError     // `response.json()` could not parse the body
    | AttributeError  // `.get` or `.capitalize` on a value that lacks it
    | TypeError       // `in`, `len` or `[...]` on a value that does not support it
    | KeyError        // `data[0]` on a dict

  datatype Result<+T> = Ok(value: T) | Raise(error: Exception)

  /** `v` is what `fields.get(key, default)` gives: the stored value when the key is present, the default otherwise. */
  predicate Defaulted(fields: map<string, Value>, key: string, default: Value, v: Value) {
    (key in fields ==> v == fields[key]) && (key !in fields ==> v == default)
  }

  /** `d.get(key, default)` on a dict. */
  function Get(fields: map<string, Value>, key: string, default: Value): (v: Value)
    ensures Defaulted(fields, key, default, v)
  {
    if key in fields then fields[key] else default
  }

  /** Python's `v == 0`: true of the integer 0 and of `False` (a bool is an int in Python). */
  predicate EqualsZero(v: Value) {
    v == Num(0) || v == Bool(false)
  }

  /** Python truthiness: `None`, `False`, `0` and empty containers are false. */
  predicate Truthy(v: Value) {
    match v
    case Null => false
    case Bool(b) => b
    case Num(n) => n != 0
    case Str(s) => s != []
    case Arr(items) => items != []
    case Obj(fields) => fields != map[]
  }

  /** `needle in haystack` on two strings: a substring test. */
  predicate IsInfix(needle: string, haystack: string) {
    exists i :: 0 <= i <= |haystack| && OccursAt(needle, haystack, i)
  }

  predicate OccursAt(needle: string, haystack: string, i: int)
    requires 0 <= i <= |haystack|
  {
    needle <= haystack[i..]
  }
}
