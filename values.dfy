/**
 * The JavaScript values the builder handles, and the ordered key/value records
 * (plain objects) it builds and reads.  Only the values the builder tells apart
 * get their own case: `undefined`, `null`, `NaN` and strings (the empty string
 * is `Str("")`); every other value is carried along unread.
 */
module Values {

  datatype Value =
    | Undefined
    | Null
    | NaN
    | Str(s: string)
    | Num(n: int)
    | Bool(b: bool)
    | Arr(items: seq<Value>)
    | Obj(fields: Record)

  /** A plain object: its own properties in `Object.keys` order. */
  type Record = seq<(string, Value)>

  /** `v === undefined || v === null`: the test `_checkParams` applies to required fields. */
  predicate IsNullish(v: Value) {
    v.Undefined? || v.Null?
  }

  /** `[undefined, NaN, null, ""].includes(v)`: `includes` compares with SameValueZero,
      so NaN is found, while `0` and `false` are not. */
  predicate IsBlank(v: Value) {
    v.Undefined? || v.NaN? || v.Null? || v == Str("")
  }

  /** No property of the record holds a blank value. */
  predicate NoBlankValue(r: Record) {
    forall i :: 0 <= i < |r| ==> !IsBlank(r[i].1)
  }

  /** `obj[key]`: the value stored under `key`, or `undefined` when there is none. */
  function Get(r: Record, key: string): Value {
    if r == [] then Undefined
    else if r[0].0 == key then r[0].1
    else Get(r[1..], key)
  }

  /** `Object.keys(obj)`. */
  function Keys(r: Record): (ks: seq<string>)
    ensures |ks| == |r| && forall i :: 0 <= i < |r| ==> ks[i] == r[i].0
  {
    seq(|r|, i requires 0 <= i < |r| => r[i].0)
  }

  /** The property names of a JavaScript object are pairwise different. */
  predicate DistinctKeys(r: Record) {
    forall i, j :: 0 <= i < j < |r| ==> r[i].0 != r[j].0
  }

  /** The own properties that `{ ...v }` copies.  Primitives contribute none;
      strings and arrays are not distinguished here (see README). */
  function OwnProperties(v: Value): Record {
    if v.Obj? then v.fields else []
  }

  /** The object literal `{ f1: r.f1, ..., fn: r.fn }`, which is what destructuring
      an argument and rebuilding it with shorthand properties produces. */
  function Pick(r: Record, fields: seq<string>): (p: Record)
    ensures Keys(p) == fields
  {
    if fields == [] then []
    else [(fields[0], Get(r, fields[0]))] + Pick(r, fields[1..])
  }

  lemma {:induction false} GetAbsentKey(r: Record, key: string)
    requires key !in Keys(r)
    ensures Get(r, key) == Undefined
  {
    if r != [] {
      assert r[0].0 == Keys(r)[0];
      assert Keys(r[1..]) == Keys(r)[1..];
      GetAbsentKey(r[1..], key);
    }
  }

  /** Reading a picked field gives what the original object holds under it. */
  lemma {:induction false} GetPick(r: Record, fields: seq<string>, f: string)
    requires f in fields
    ensures Get(Pick(r, fields), f) == Get(r, f)
  {
    if fields[0] != f {
      GetPick(r, fields[1..], f);
    }
  }

  /** A record built from distinct field names has distinct keys. */
  lemma PickDistinct(r: Record, fields: seq<string>)
    requires forall i, j :: 0 <= i < j < |fields| ==> fields[i] != fields[j]
    ensures DistinctKeys(Pick(r, fields))
  {
    var p := Pick(r, fields);
    assert Keys(p) == fields;
    forall i, j | 0 <= i < j < |p| ensures p[i].0 != p[j].0 {
      assert p[i].0 == Keys(p)[i] && p[j].0 == Keys(p)[j];
    }
  }

  /** The entries of a picked record: one per field, holding the original value. */
  lemma {:induction false} PickEntries(r: Record, fields: seq<string>, e: (string, Value))
    ensures e in Pick(r, fields) <==> e.0 in fields && e.1 == Get(r, e.0)
  {
    if fields != [] {
      PickEntries(r, fields[1..], e);
      assert fields == [fields[0]] + fields[1..];
    }
  }

  /** A picked record, entry by entry. */
  lemma {:induction false} PickAt(r: Record, fields: seq<string>)
    ensures |Pick(r, fields)| == |fields|
    ensures forall i :: 0 <= i < |fields| ==> Pick(r, fields)[i] == (fields[i], Get(r, fields[i]))
  {
    if fields != [] {
      PickAt(r, fields[1..]);
    }
  }
}
