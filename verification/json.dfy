/**
 Parsed JSON documents as Python's `json.loads` returns them, with the dict
 operations and the `float()` / `int()` conversions the normalizer applies.

 A JSON object (a Python `dict`) is a sequence of fields in insertion order.
 Reading a key finds its first field; assigning a key that is present replaces
 that field's value in place and assigning a new key appends a field, which
 is what a Python dict does with its (distinct) keys.
 */
module Json {
  import opened Wrappers

  datatype Json =
    | JNull
    | JBool(b: bool)
    | JInt(i: int)
    | JFloat(f: real)
    | JStr(s: string)
    | JArray(items: seq<Json>)
    | JObject(fields: seq<Field>)

  datatype Field = Field(key: string, value: Json)

  /** The keys of an object, in order. */
  function Keys(fields: seq<Field>): (ks: seq<string>)
    ensures |ks| == |fields|
  {
    if |fields| == 0 then [] else [fields[0].key] + Keys(fields[1..])
  }

  lemma {:induction false} KeysIndex(fields: seq<Field>, i: nat)
    requires i < |fields|
    ensures Keys(fields)[i] == fields[i].key
    decreases i
  {
    if i > 0 {
      KeysIndex(fields[1..], i - 1);
    }
  }

  /** Two objects whose fields carry the same keys position by position have the same keys. */
  lemma KeysPointwise(a: seq<Field>, b: seq<Field>)
    requires |a| == |b|
    requires forall i :: 0 <= i < |a| ==> a[i].key == b[i].key
    ensures Keys(a) == Keys(b)
  {
    forall i | 0 <= i < |a| ensures Keys(a)[i] == Keys(b)[i] {
      KeysIndex(a, i);
      KeysIndex(b, i);
    }
  }

  /** `k in d`. */
  predicate HasKey(fields: seq<Field>, k: string) {
    k in Keys(fields)
  }

  /** `d.get(k)`: the value of the first field named `k`. */
  function Lookup(fields: seq<Field>, k: string): (r: Option<Json>)
    ensures r.Some? <==> HasKey(fields, k)
    ensures r.Some? ==> exists i :: 0 <= i < |fields| && fields[i] == Field(k, r.value)
  {
    if |fields| == 0 then None
    else if fields[0].key == k then Some(fields[0].value)
    else Lookup(fields[1..], k)
  }

  /** `d[k] = v`. */
  function Put(fields: seq<Field>, k: string, v: Json): (r: seq<Field>)
    ensures Lookup(r, k) == Some(v)
    ensures forall k' :: k' != k ==> Lookup(r, k') == Lookup(fields, k')
    ensures Keys(r) == if HasKey(fields, k) then Keys(fields) else Keys(fields) + [k]
  {
    if |fields| == 0 then [Field(k, v)]
    else
      var f, tail := fields[0], fields[1..];
      assert fields == [f] + tail;
      ConsFacts(f, tail);
      if f.key == k then
        ConsFacts(Field(k, v), tail);
        [Field(k, v)] + tail
      else
        var rest := Put(tail, k, v);
        ConsFacts(f, rest);
        assert HasKey(fields, k) == HasKey(tail, k);
        assert !HasKey(tail, k) ==> [f.key] + (Keys(tail) + [k]) == ([f.key] + Keys(tail)) + [k];
        [f] + rest
  }

  lemma ConsFacts(f: Field, rest: seq<Field>)
    ensures Keys([f] + rest) == [f.key] + Keys(rest)
    ensures forall k :: Lookup([f] + rest, k) == if f.key == k then Some(f.value) else Lookup(rest, k)
  {
    assert ([f] + rest)[1..] == rest;
  }

  /** Assigning a key the value it already has changes nothing. */
  lemma {:induction false} PutSame(fields: seq<Field>, k: string, v: Json)
    requires Lookup(fields, k) == Some(v)
    ensures Put(fields, k, v) == fields
    decreases |fields|
  {
    if fields[0].key != k {
      PutSame(fields[1..], k, v);
      assert fields == [fields[0]] + fields[1..];
    } else {
      assert fields == [fields[0]] + fields[1..];
    }
  }

  /** `int(x)` of a finite float: truncation toward zero. */
  function Trunc(x: real): (r: int)
    ensures x >= 0.0 ==> 0 <= r && r as real <= x < r as real + 1.0
    ensures x < 0.0 ==> r <= 0 && r as real - 1.0 < x <= r as real
  {
    if x >= 0.0 then x.Floor else -((-x).Floor)
  }

  /**
   Python's `float(s)` and `int(s)` on strings, taken as given: each either
   reads the string as a number or raises.
   */
  datatype Numerics = Numerics(parseFloat: string -> Option<real>, parseInt: string -> Option<int>)

  /** `float(v)`, or `None` where Python raises. */
  function FloatOf(v: Json, nums: Numerics): (r: Option<real>)
    ensures v.JInt? ==> r == Some(v.i as real)
    ensures v.JFloat? ==> r == Some(v.f)
    ensures v.JNull? || v.JArray? || v.JObject? ==> r == None
  {
    match v
    case JBool(b) => Some(if b then 1.0 else 0.0)
    case JInt(i) => Some(i as real)
    case JFloat(f) => Some(f)
    case JStr(s) => nums.parseFloat(s)
    case _ => None
  }

  /** `int(v)`, or `None` where Python raises. */
  function IntOf(v: Json, nums: Numerics): (r: Option<int>)
    ensures v.JInt? ==> r == Some(v.i)
    ensures v.JNull? || v.JArray? || v.JObject? ==> r == None
  {
    match v
    case JBool(b) => Some(if b then 1 else 0)
    case JInt(i) => Some(i)
    case JFloat(f) => Some(Trunc(f))
    case JStr(s) => nums.parseInt(s)
    case _ => None
  }
}
