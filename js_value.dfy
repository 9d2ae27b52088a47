/** JavaScript values as the modelled code sees them: parsed JSON, plus the
    `undefined` and `NaN` that property reads and `Number()` can produce.
    Numbers are integers. An object is its own enumerable properties, in
    insertion order, as a sequence of (key, value) pairs. */
module JsValue {

  datatype Option<+T> = None | Some(value: T)

  datatype Value =
    | Undefined
    | Null
    | Bool(b: bool)
    | Num(n: int)
    | NaN
    | Str(s: string)
    | Arr(items: seq<Value>)
    | Obj(fields: seq<(string, Value)>)

  /** ToBoolean: the falsy values are undefined, null, false, 0, NaN and "". */
  predicate Truthy(v: Value): (b: bool)
    ensures !b <==> v == Undefined || v == Null || v == Bool(false) || v == Num(0) || v == NaN || v == Str("")
  {
    match v
    case Undefined => false
    case Null => false
    case Bool(b) => b
    case Num(n) => n != 0
    case NaN => false
    case Str(s) => s != ""
    case Arr(_) => true
    case Obj(_) => true
  }

  /** An optional string (a header, an address) is truthy when present and non-empty. */
  predicate TruthyStr(o: Option<string>) {
    o.Some? && o.value != ""
  }

  /** `a || b` */
  function Or(a: Value, b: Value): (r: Value)
    ensures Truthy(r) <==> Truthy(a) || Truthy(b)
    ensures r == a || r == b
  {
    if Truthy(a) then a else b
  }

  /** A destructuring or parameter default, `{ k = d }` or `(k = d)`: it
      replaces only `undefined`. */
  function Default(v: Value, d: Value): (r: Value)
    ensures v.Undefined? ==> r == d
    ensures !v.Undefined? ==> r == v
  {
    if v.Undefined? then d else v
  }

  /** Reading a property of null or undefined throws a TypeError. */
  predicate Readable(v: Value): (b: bool)
    ensures Truthy(v) ==> b
    ensures !b ==> !Truthy(v) && (v == Undefined || v == Null)
  {
    !v.Undefined? && !v.Null?
  }

  // ---------------------------------------------------------------------
  // Objects as ordered property lists

  function Keys(fields: seq<(string, Value)>): (ks: seq<string>)
    ensures |ks| == |fields|
    ensures forall i :: 0 <= i < |fields| ==> ks[i] == fields[i].0
  {
    if |fields| == 0 then [] else [fields[0].0] + Keys(fields[1..])
  }

  /** The value of the first property named `k`. */
  function Lookup(fields: seq<(string, Value)>, k: string): (r: Option<Value>)
    ensures r.None? <==> k !in Keys(fields)
  {
    if |fields| == 0 then None
    else if fields[0].0 == k then Some(fields[0].1)
    else
      Lookup(fields[1..], k)
  }

  /** The first property named `k`, found at position `i`. */
  lemma {:induction false} LookupAt(fields: seq<(string, Value)>, i: nat, k: string)
    requires i < |fields| && fields[i].0 == k
    requires forall j :: 0 <= j < i ==> fields[j].0 != k
    ensures Lookup(fields, k) == Some(fields[i].1)
  {
    if i > 0 {
      LookupAt(fields[1..], i - 1, k);
    }
  }

  /** `obj[k] = v`: an existing property keeps its place and gets the new
      value; a new property is appended. */
  function Put(fields: seq<(string, Value)>, k: string, v: Value): (r: seq<(string, Value)>)
    ensures Keys(r) == if k in Keys(fields) then Keys(fields) else Keys(fields) + [k]
  {
    if |fields| == 0 then [(k, v)]
    else if fields[0].0 == k then
      var r := [(k, v)] + fields[1..];
      assert r[1..] == fields[1..];
      r
    else
      var rest := Put(fields[1..], k, v);
      var r := [fields[0]] + rest;
      assert r[1..] == rest;
      r
  }

  /** After `obj[k] = v`, reading `k` gives `v` and every other key reads as before. */
  lemma {:induction false} PutLookup(fields: seq<(string, Value)>, k: string, v: Value, k': string)
    ensures Lookup(Put(fields, k, v), k) == Some(v)
    ensures k' != k ==> Lookup(Put(fields, k, v), k') == Lookup(fields, k')
  {
    var r := Put(fields, k, v);
    if |fields| > 0 {
      if fields[0].0 == k {
        assert r[1..] == fields[1..];
      } else {
        PutLookup(fields[1..], k, v, k');
        assert r[1..] == Put(fields[1..], k, v);
      }
    }
  }

  /** No key occurs twice: what a JavaScript object always satisfies. */
  predicate DistinctKeys(fields: seq<(string, Value)>) {
    forall i, j :: 0 <= i < j < |fields| ==> fields[i].0 != fields[j].0
  }

  lemma {:induction false} PutKeepsDistinct(fields: seq<(string, Value)>, k: string, v: Value)
    requires DistinctKeys(fields)
    ensures DistinctKeys(Put(fields, k, v))
  {
    var r := Put(fields, k, v);
    var ks, kr := Keys(fields), Keys(r);
    forall i, j | 0 <= i < j < |r| ensures r[i].0 != r[j].0 {
      assert kr[i] == r[i].0 && kr[j] == r[j].0;
      if k in ks {
        assert ks[i] == fields[i].0 && ks[j] == fields[j].0;
      } else {
        if j < |fields| {
          assert kr[i] == ks[i] && kr[j] == ks[j];
          assert ks[i] == fields[i].0 && ks[j] == fields[j].0;
        } else {
          assert kr[j] == k && kr[i] == ks[i];
        }
      }
    }
  }

  /** An object literal `{ k0: v0, k1: v1, ... }`. */
  function Record(keys: seq<string>, values: seq<Value>): (fields: seq<(string, Value)>)
    requires |keys| == |values|
    ensures |fields| == |keys| && Keys(fields) == keys
    ensures forall i :: 0 <= i < |keys| ==> fields[i] == (keys[i], values[i])
  {
    var fields := seq(|keys|, i requires 0 <= i < |keys| => (keys[i], values[i]));
    assert Keys(fields) == keys;
    fields
  }

  predicate Distinct(keys: seq<string>) {
    forall i, j :: 0 <= i < j < |keys| ==> keys[i] != keys[j]
  }

  /** In an object literal with distinct keys, each key reads as its value. */
  lemma RecordLookup(keys: seq<string>, values: seq<Value>, i: nat)
    requires |keys| == |values| && Distinct(keys) && i < |keys|
    ensures Lookup(Record(keys, values), keys[i]) == Some(values[i])
  {
    LookupAt(Record(keys, values), i, keys[i]);
  }

  /** `obj.k` on a readable value: an object's own property, else undefined
      (the built-in properties of strings, arrays and prototypes are not
      modelled; the code reads none of them). */
  function Prop(v: Value, k: string): (r: Value)
    requires Readable(v)
    ensures !v.Obj? ==> r == Undefined
    ensures v.Obj? && Lookup(v.fields, k).None? ==> r == Undefined
    ensures v.Obj? && Lookup(v.fields, k).Some? ==> r == Lookup(v.fields, k).value
  {
    match v
    case Obj(fields) => (match Lookup(fields, k) case Some(x) => x case None => Undefined)
    case _ => Undefined
  }

  /** `Object.keys(v).length`, which throws on null and undefined. A string
      has one key per character, an array one per element, and numbers and
      booleans none. */
  function KeyCount(v: Value): (n: nat)
    requires Readable(v)
    ensures v.Obj? ==> n == |Keys(v.fields)|
    ensures v.Arr? ==> n == |v.items|
    ensures v.Str? ==> n == |v.s|
    ensures v.Bool? || v.Num? || v.NaN? ==> n == 0
  {
    if v.Obj? then |v.fields|
    else if v.Arr? then |v.items|
    else if v.Str? then |v.s|
    else 0
  }

  /** `v ? Object.keys(v).length : 0` */
  function CountIfTruthy(v: Value): (n: nat)
    ensures !Truthy(v) ==> n == 0
    ensures v.Obj? ==> n == |v.fields|
  {
    if Truthy(v) then KeyCount(v) else 0
  }

  /** `Object.keys(v || {}).length` */
  function CountOrEmpty(v: Value): nat {
    KeyCount(Or(v, Obj([])))
  }

  /** The two spellings of "key count, 0 when absent" found in the code agree. */
  lemma CountFormsAgree(v: Value)
    ensures CountOrEmpty(v) == CountIfTruthy(v)
  {
  }
}
