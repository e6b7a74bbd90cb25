/**
 The Python values the generation SDK hands back, as far as the client looks
 at them: `None`, strings, other scalars (numbers, booleans, enum members),
 lists, string-keyed dicts, and objects with attributes. Each operation here
 is the Python built-in the client applies to such a value.
 */
module PyValue {
  import opened Wrappers

  datatype Value =
    | PyNone
    | PyStr(s: string)
      /**
       A non-container value other than a string (a number, a boolean, an enum
       member): `strText` is its `str()`, `reprText` its `repr()`.
       */
    | PyScalar(typeName: string, strText: string, reprText: string, truthy: bool)
    | PyList(items: seq<Value>)
    | PyDict(entries: seq<Entry>)
      /**
       An object: `strText` is its `str()`, `reprText` its `repr()`, and
       `truthy` its `bool()`, which a class can decide through `__bool__` or
       `__len__`.
       */
    | PyObject(typeName: string, attrs: seq<Entry>, strText: string, reprText: string, truthy: bool)

  datatype Entry = Entry(key: string, value: Value)

  /** `type(v).__name__`. */
  function TypeName(v: Value): string {
    match v
    case PyNone => "NoneType"
    case PyStr(_) => "str"
    case PyScalar(t, _, _, _) => t
    case PyList(_) => "list"
    case PyDict(_) => "dict"
    case PyObject(t, _, _, _, _) => t
  }

  /** `bool(v)`. */
  predicate Truthy(v: Value) {
    match v
    case PyNone => false
    case PyStr(s) => |s| > 0
    case PyScalar(_, _, _, b) => b
    case PyList(items) => |items| > 0
    case PyDict(entries) => |entries| > 0
    case PyObject(_, _, _, _, b) => b
  }

  /** `a or b`. */
  function Or(a: Value, b: Value): (r: Value)
    ensures Truthy(r) <==> Truthy(a) || Truthy(b)
  {
    if Truthy(a) then a else b
  }

  /** The value of the first entry named `key`. */
  function EntryValue(entries: seq<Entry>, key: string): Option<Value> {
    if |entries| == 0 then None
    else if entries[0].key == key then Some(entries[0].value)
    else EntryValue(entries[1..], key)
  }

  /** `key in d`. */
  predicate InDict(entries: seq<Entry>, key: string) {
    EntryValue(entries, key).Some?
  }

  /** `d.get(key)`. */
  function DictGet(entries: seq<Entry>, key: string): Value {
    EntryValue(entries, key).GetOr(PyNone)
  }

  /** `getattr(v, name, None)`; reading an attribute never raises here. */
  function GetAttr(v: Value, name: string): Value {
    match v
    case PyObject(_, attrs, _, _, _) => EntryValue(attrs, name).GetOr(PyNone)
    case _ => PyNone
  }

  /** The items a `for` loop over `v` visits, or `None` where Python raises a `TypeError`. */
  function Iterate(v: Value): Option<seq<Value>> {
    match v
    case PyList(items) => Some(items)
    case PyStr(s) => Some(seq(|s|, i requires 0 <= i < |s| => PyStr([s[i]])))
    case PyDict(entries) => Some(seq(|entries|, i requires 0 <= i < |entries| => PyStr(entries[i].key)))
    case _ => None
  }

  /** `v[0]`, or the text of the exception Python raises. */
  function Index0(v: Value): Result<Value, string> {
    match v
    case PyList(items) => if |items| > 0 then Ok(items[0]) else Err("list index out of range")
    case PyStr(s) => if |s| > 0 then Ok(PyStr([s[0]])) else Err("string index out of range")
    case PyDict(_) => Err("0")
    case _ => Err("'" + TypeName(v) + "' object is not subscriptable")
  }

  /** `sep.join(parts)`. */
  function Join(sep: string, parts: seq<string>): string {
    if |parts| == 0 then ""
    else if |parts| == 1 then parts[0]
    else parts[0] + sep + Join(sep, parts[1..])
  }

  /** `repr(v)`; string escapes are not modelled. */
  function Repr(v: Value): string {
    match v
    case PyNone => "None"
    case PyStr(s) => "'" + s + "'"
    case PyScalar(_, _, r, _) => r
    case PyList(items) =>
      "[" + Join(", ", seq(|items|, i requires 0 <= i < |items| => Repr(items[i]))) + "]"
    case PyDict(entries) =>
      "{" + Join(", ", seq(|entries|, i requires 0 <= i < |entries| =>
        assert entries[i] in entries;
        "'" + entries[i].key + "': " + Repr(entries[i].value))) + "}"
    case PyObject(_, _, _, r, _) => r
  }

  /** `str(v)`: lists, dicts and `None` have no `__str__` of their own and use `repr`. */
  function Str(v: Value): string {
    match v
    case PyStr(s) => s
    case PyScalar(_, s, _, _) => s
    case PyObject(_, _, s, _, _) => s
    case _ => Repr(v)
  }

  /** `object.__str__(v)`: it calls the type's `__repr__`, so it is `repr(v)` whatever `__str__` the type defines. */
  function ObjectStr(v: Value): string {
    Repr(v)
  }

  /**
   Where `str` and `object.__str__` agree: on `None`, lists and dicts always,
   on a scalar or an object exactly when its `str` and `repr` texts agree. A
   string's `object.__str__` is the quoted text, never the string itself.
   */
  lemma StrAgainstObjectStr(v: Value)
    ensures v.PyNone? || v.PyList? || v.PyDict? ==> Str(v) == ObjectStr(v)
    ensures v.PyScalar? || v.PyObject? ==> (Str(v) == ObjectStr(v) <==> v.strText == v.reprText)
    ensures v.PyStr? ==> Str(v) != ObjectStr(v)
  {
  }
}
