/**
 * The values `request.get_json()` hands to Python, the exceptions the request
 * handler can meet, and the three Python operations it applies to the body:
 * truthiness (`not data`), membership (`'review' in data`) and subscription
 * (`data['review']`), each with the behaviour Python gives it per type.
 */
module PythonValues {
  /** A decoded JSON document: `None`, `bool`, `int`, `float`, `str`, `list` or `dict`. */
  datatype Json =
    | Null
    | Bool(b: bool)
    | Int(i: int)
    | Float(f: real)
    | Str(s: string)
    | Array(items: seq<Json>)
    | Object(fields: map<string, Json>)

  /** The exceptions the handler can meet, each carrying what its message is made from. */
  datatype PyException =
    | BadRequest(detail: string)                 // get_json() on a body that is not valid JSON
    | NotIterable(typeName: string)              // `x in v` where v has no membership test
    | NotSubscriptable(typeName: string)         // `v[k]` where v has no subscription
    | BadIndexType(typeName: string)             // `v['review']` on a list or a str
    | MissingKey(key: string)                    // `d[k]` with k not in d
    | NoAttribute(typeName: string, attr: string) // `v.lower()` on a non-string
    | IndexOutOfRange                            // `a[0]` on an empty array
    | EmptyReduction                             // `a.max()` on an empty array
    | Library(message: string)                   // anything raised inside a library call

  /** A Python computation: a value, or the exception it raised. */
  datatype Outcome<+T> = Ok(value: T) | Raised(exc: PyException)
  {
    predicate IsFailure() {
      Raised?
    }

    function PropagateFailure<U>(): Outcome<U>
      requires Raised?
    {
      Raised(exc)
    }

    function Extract(): T
      requires Ok?
    {
      value
    }
  }

  /** Python's `bool(v)`: None, False, zero and the empty str, list and dict are falsy. */
  predicate Truthy(v: Json) {
    match v
    case Null => false
    case Bool(b) => b
    case Int(i) => i != 0
    case Float(f) => f != 0.0
    case Str(s) => s != []
    case Array(items) => items != []
    case Object(fields) => fields != map[]
  }

  /** `type(v).__name__` */
  function TypeName(v: Json): string {
    match v
    case Null => "NoneType"
    case Bool(_) => "bool"
    case Int(_) => "int"
    case Float(_) => "float"
    case Str(_) => "str"
    case Array(_) => "list"
    case Object(_) => "dict"
  }

  /** Python's `part in s` on two strings: `part` occurs in `s` as a contiguous block. */
  predicate HasSubstring(s: string, part: string)
    decreases |s|
  {
    part <= s || (s != [] && HasSubstring(s[1..], part))
  }

  /** A substring occurs at some offset. */
  lemma {:induction false} HasSubstringAt(s: string, part: string)
    ensures HasSubstring(s, part) <==>
      exists i :: 0 <= i <= |s| - |part| && part == s[i..][..|part|]
    decreases |s|
  {
    if part <= s {
      assert part == s[0..][..|part|];
    } else if s == [] {
    } else {
      HasSubstringAt(s[1..], part);
      if HasSubstring(s[1..], part) {
        var i :| 0 <= i <= |s[1..]| - |part| && part == s[1..][i..][..|part|];
        assert s[1..][i..] == s[i + 1..];
      } else {
        forall i | 0 <= i <= |s| - |part|
          ensures part != s[i..][..|part|]
        {
          if i > 0 {
            assert s[1..][i - 1..] == s[i..];
          }
        }
      }
    }
  }

  /** Python's `key in v` for a string key: a dict tests its keys, a list its elements, a str its substrings. */
  function Contains(v: Json, key: string): (r: Outcome<bool>)
    ensures r.Raised? <==> !(v.Object? || v.Array? || v.Str?)
    ensures r.Raised? ==> r.exc == NotIterable(TypeName(v))
    ensures v.Object? ==> r == Ok(key in v.fields)
    ensures v.Array? ==> r == Ok(exists k :: 0 <= k < |v.items| && v.items[k] == Str(key))
    ensures v.Str? ==> r == Ok(HasSubstring(v.s, key))
  {
    match v
    case Object(fields) => Ok(key in fields)
    case Array(items) => Ok(Str(key) in items)
    case Str(s) => Ok(HasSubstring(s, key))
    case _ => Raised(NotIterable(TypeName(v)))
  }

  /** Python's `v[key]` for a string key: only a dict holding the key yields a value. */
  function Subscript(v: Json, key: string): (r: Outcome<Json>)
    ensures r.Ok? <==> v.Object? && key in v.fields
    ensures r.Ok? ==> r.value == v.fields[key]
    ensures v.Object? && key !in v.fields ==> r == Raised(MissingKey(key))
    ensures v.Array? || v.Str? ==> r == Raised(BadIndexType(TypeName(v)))
  {
    match v
    case Object(fields) => if key in fields then Ok(fields[key]) else Raised(MissingKey(key))
    case Array(_) => Raised(BadIndexType("list"))
    case Str(_) => Raised(BadIndexType("str"))
    case _ => Raised(NotSubscriptable(TypeName(v)))
  }
}
