/** Values as the frontend sees them: the JavaScript values that reach the
    components, with objects kept as ordered lists of fields (the order
    Object.keys reports). */
module Js {

  datatype Value =
    | Undefined
    | Null
    | Bool(b: bool)
    | Num(n: int)
    | Str(s: string)
    | Arr(items: seq<Value>)
    | Obj(fields: seq<Field>)

  datatype Field = Field(key: string, value: Value)

  datatype Option<T> = None | Some(value: T)

  datatype Result<T> = Ok(value: T) | Err(message: string)

  /** JavaScript truthiness: undefined, null, false, 0 and '' are falsy;
      every array and object, even an empty one, is truthy. */
  predicate Truthy(v: Value)
  {
    match v
    case Undefined => false
    case Null => false
    case Bool(b) => b
    case Num(n) => n != 0
    case Str(s) => s != ""
    case Arr(_) => true
    case Obj(_) => true
  }

  /** `v === null || v === undefined` */
  predicate Nullish(v: Value)
  {
    v.Null? || v.Undefined?
  }

  /** The keys of an object, in order. */
  function Keys(fields: seq<Field>): (ks: seq<string>)
    ensures |ks| == |fields|
    ensures forall i :: 0 <= i < |fields| ==> ks[i] == fields[i].key
  {
    if fields == [] then [] else [fields[0].key] + Keys(fields[1..])
  }

  /** No key occurs twice, as in every JavaScript object. */
  predicate UniqueKeys(fields: seq<Field>)
  {
    forall i, j :: 0 <= i < j < |fields| ==> fields[i].key != fields[j].key
  }

  /** `o[k]` on an object: the value stored under `k`, or undefined. */
  function Lookup(fields: seq<Field>, k: string): (v: Value)
    ensures k !in Keys(fields) ==> v == Undefined
    ensures UniqueKeys(fields) ==> forall i :: 0 <= i < |fields| && fields[i].key == k ==> v == fields[i].value
  {
    if fields == [] then Undefined
    else if fields[0].key == k then fields[0].value
    else Lookup(fields[1..], k)
  }

  /** Property access `v?.k`: undefined on anything that is not an object. */
  function Get(v: Value, k: string): Value
  {
    if v.Obj? then Lookup(v.fields, k) else Undefined
  }

  /** `{ ...o, [k]: v }`: overwrite `k` where it stands, or append it. */
  function Put(fields: seq<Field>, k: string, v: Value): (r: seq<Field>)
    ensures Keys(r) == if k in Keys(fields) then Keys(fields) else Keys(fields) + [k]
  {
    if fields == [] then [Field(k, v)]
    else if fields[0].key == k then [Field(k, v)] + fields[1..]
    else [fields[0]] + Put(fields[1..], k, v)
  }

  /** After `{ ...o, [k]: v }`, reading `k` gives `v` and every other key reads as before. */
  lemma {:induction false} PutLookup(fields: seq<Field>, k: string, v: Value, k': string)
    ensures Lookup(Put(fields, k, v), k') == if k' == k then v else Lookup(fields, k')
  {
    if fields != [] && fields[0].key != k {
      PutLookup(fields[1..], k, v, k');
    }
  }

  /** The spread keeps an object's keys distinct. */
  lemma PutUnique(fields: seq<Field>, k: string, v: Value)
    requires UniqueKeys(fields)
    ensures UniqueKeys(Put(fields, k, v))
  {
    var r := Put(fields, k, v);
    forall i, j | 0 <= i < j < |r| ensures r[i].key != r[j].key {
      assert Keys(r)[i] == r[i].key && Keys(r)[j] == r[j].key;
      if j == |fields| {
        assert k !in Keys(fields);
        assert Keys(fields)[i] == fields[i].key;
      } else {
        assert Keys(fields)[i] == fields[i].key && Keys(fields)[j] == fields[j].key;
      }
    }
  }

  /** `keys.filter(keep)` */
  function FilterKeys(keys: seq<string>, keep: string -> bool): (r: seq<string>)
    ensures |r| <= |keys|
    ensures forall k :: k in r <==> k in keys && keep(k)
  {
    if keys == [] then []
    else
      assert keys == [keys[0]] + keys[1..];
      (if keep(keys[0]) then [keys[0]] else []) + FilterKeys(keys[1..], keep)
  }

  /** The filter keeps the order of the keys: it works piece by piece. */
  lemma {:induction false} FilterKeysAppend(a: seq<string>, b: seq<string>, keep: string -> bool)
    ensures FilterKeys(a + b, keep) == FilterKeys(a, keep) + FilterKeys(b, keep)
  {
    if a == [] {
      assert a + b == b;
    } else {
      assert (a + b)[0] == a[0] && (a + b)[1..] == a[1..] + b;
      FilterKeysAppend(a[1..], b, keep);
    }
  }
}
