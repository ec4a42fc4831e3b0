/**
 * The two helpers every stage method goes through: the required-field check
 * (`_checkParams`) and the sanitiser that drops blank properties (`_omitNulls`).
 * Each is given as a specification function and as the loop the source runs,
 * proved to compute that function.
 */
module Params {
  import opened Wrappers
  import opened Values

  /** The errors a builder call throws; `Message` gives the text of each.
      `CannotDestructure` is the engine's `TypeError` when a destructuring stage
      method is called with `undefined` or `null`: `property` is the first name
      in its parameter pattern and `value` is `"undefined"` or `"null"`. */
  datatype Error =
    | NotAModel
    | MissingField(field: string, stage: string)
    | CannotDestructure(property: string, value: string)

  function Message(e: Error): string {
    match e
    case NotAModel => "Model is not a mongoose model"
    case MissingField(f, s) => "Field " + f + " is required in stage " + s
    case CannotDestructure(p, v) =>
      // The engine renders `null` as the object it is typed as.
      var shown := if v == "null" then "object null" else v;
      "Cannot destructure property '" + p + "' of '" + shown + "' as it is " + v + "."
  }

  /** What `_checkParams(params, required, stage)` throws, if anything: the first
      required field, in list order, whose value is `undefined` or `null`.
      `0`, `false`, `""` and `NaN` all pass. */
  function Validate(params: Record, required: seq<string>, stage: string): Option<Error> {
    if required == [] then None
    else if IsNullish(Get(params, required[0])) then Some(MissingField(required[0], stage))
    else Validate(params, required[1..], stage)
  }

  /** `Validate` passes exactly when no required field is `undefined` or `null`,
      and otherwise names a missing field all of whose predecessors are present. */
  lemma {:induction false} ValidateFindsFirstMissing(params: Record, required: seq<string>, stage: string)
    ensures Validate(params, required, stage).None? <==>
      forall i :: 0 <= i < |required| ==> !IsNullish(Get(params, required[i]))
    ensures Validate(params, required, stage).Some? ==>
      exists i :: 0 <= i < |required| && Validate(params, required, stage).value == MissingField(required[i], stage) &&
        IsNullish(Get(params, required[i])) &&
        forall j :: 0 <= j < i ==> !IsNullish(Get(params, required[j]))
  {
    if required != [] && !IsNullish(Get(params, required[0])) {
      ValidateFindsFirstMissing(params, required[1..], stage);
      assert forall i :: 1 <= i < |required| ==> required[1..][i - 1] == required[i];
      var r := Validate(params, required[1..], stage);
      if r.Some? {
        var i :| 0 <= i < |required[1..]| && r.value == MissingField(required[1..][i], stage) &&
          IsNullish(Get(params, required[1..][i])) &&
          forall j :: 0 <= j < i ==> !IsNullish(Get(params, required[1..][j]));
        assert 0 <= i + 1 < |required| && r.value == MissingField(required[i + 1], stage);
      }
    }
  }

  /** A single required parameter fails the check exactly when it is `undefined` or `null`. */
  lemma ValidateOne(f: string, v: Value, stage: string)
    ensures Validate([(f, v)], [f], stage) == if IsNullish(v) then Some(MissingField(f, stage)) else None
  {
    assert Get([(f, v)], f) == v;
    assert [f][1..] == [];
  }

  /** Checking the object literal `{ f1: r.f1, ..., fn: r.fn }` finds what checking
      `r` itself would, as long as every required field is among the picked ones. */
  lemma {:induction false} ValidatePicked(r: Record, fields: seq<string>, required: seq<string>, stage: string)
    requires forall i :: 0 <= i < |required| ==> required[i] in fields
    ensures Validate(Pick(r, fields), required, stage) == Validate(r, required, stage)
  {
    if required != [] {
      GetPick(r, fields, required[0]);
      ValidatePicked(r, fields, required[1..], stage);
    }
  }

  /** `_checkParams`: a loop over the required fields that stops at the first missing one. */
  method CheckParams(params: Record, requiredFields: seq<string>, stageName: string)
    returns (err: Option<Error>)
    ensures err == Validate(params, requiredFields, stageName)
  {
    for i := 0 to |requiredFields|
      invariant Validate(params, requiredFields, stageName) == Validate(params, requiredFields[i..], stageName)
    {
      var value := Get(params, requiredFields[i]);
      assert requiredFields[i..][1..] == requiredFields[i + 1..];
      if value == Undefined || value == Null {
        return Some(MissingField(requiredFields[i], stageName));
      }
    }
    assert requiredFields[|requiredFields|..] == [];
    return None;
  }

  /** What `_omitNulls(params)` returns: the properties whose value is not blank,
      in their original order and with their original values. */
  function Sanitized(params: Record): Record {
    if params == [] then []
    else
      var last := params[|params| - 1];
      Sanitized(params[..|params| - 1]) + (if IsBlank(last.1) then [] else [last])
  }

  /** `_omitNulls`: a loop over `Object.keys(params)` that copies the non-blank
      properties into a fresh object.  The keys of `params` are distinct, so
      each assignment adds a new property at the end. */
  method OmitNulls(params: Record) returns (sanitized: Record)
    ensures sanitized == Sanitized(params)
  {
    sanitized := [];
    for i := 0 to |params|
      invariant sanitized == Sanitized(params[..i])
    {
      assert params[..i + 1][..i] == params[..i];
      if !(params[i].1 in [Undefined, NaN, Null, Str("")]) {
        sanitized := sanitized + [params[i]];
      }
    }
    assert params[..|params|] == params;
  }

  /** Sanitising the concatenation of two records sanitises each in place:
      the kept properties stay in their original relative order. */
  lemma {:induction false} SanitizedConcat(a: Record, b: Record)
    ensures Sanitized(a + b) == Sanitized(a) + Sanitized(b)
  {
    if b == [] {
      assert a + b == a;
    } else {
      var last := b[|b| - 1];
      assert (a + b)[..|a + b| - 1] == a + b[..|b| - 1];
      SanitizedConcat(a, b[..|b| - 1]);
    }
  }

  /** Exactly the non-blank properties survive, with their values unchanged. */
  lemma {:induction false} SanitizedKeeps(params: Record, e: (string, Value))
    ensures e in Sanitized(params) <==> e in params && !IsBlank(e.1)
  {
    if params != [] {
      var init := params[..|params| - 1];
      assert params == init + [params[|params| - 1]];
      SanitizedKeeps(init, e);
    }
  }

  /** Sanitising twice is the same as sanitising once. */
  lemma {:induction false} SanitizedIdempotent(params: Record)
    ensures Sanitized(Sanitized(params)) == Sanitized(params)
  {
    if params != [] {
      var init := params[..|params| - 1];
      var last := params[|params| - 1];
      SanitizedIdempotent(init);
      if IsBlank(last.1) {
        assert Sanitized(params) == Sanitized(init) + [];
        assert Sanitized(init) + [] == Sanitized(init);
      } else {
        SanitizedConcat(Sanitized(init), [last]);
        assert Sanitized([last]) == Sanitized([]) + [last] by {
          assert [last][..0] == [];
        }
      }
    }
  }

  /** Sanitising never creates a property: a record with distinct keys stays so. */
  lemma {:induction false} SanitizedDistinct(params: Record)
    requires DistinctKeys(params)
    ensures DistinctKeys(Sanitized(params))
  {
    if params != [] {
      var init := params[..|params| - 1];
      var last := params[|params| - 1];
      assert DistinctKeys(init);
      SanitizedDistinct(init);
      var s := Sanitized(init);
      if !IsBlank(last.1) {
        forall i | 0 <= i < |s| ensures s[i].0 != last.0 {
          SanitizedKeeps(init, s[i]);
          var k :| 0 <= k < |init| && init[k] == s[i];
          assert params[k] == s[i];
        }
      }
    }
  }

  /** Reading a property of the sanitised record gives its original value,
      unless that value was blank, in which case the property is gone. */
  lemma {:induction false} SanitizedGet(params: Record, key: string)
    requires DistinctKeys(params)
    ensures Get(Sanitized(params), key) == if IsBlank(Get(params, key)) then Undefined else Get(params, key)
  {
    if params != [] {
      var head, tail := params[0], params[1..];
      assert params == [head] + tail;
      assert DistinctKeys(tail) by {
        forall a, b | 0 <= a < b < |tail| ensures tail[a].0 != tail[b].0 {
          assert tail[a] == params[a + 1] && tail[b] == params[b + 1];
        }
      }
      SanitizedConcat([head], tail);
      assert Sanitized([head]) == (if IsBlank(head.1) then [] else [head]) by {
        assert [head][..0] == [];
      }
      SanitizedGet(tail, key);
      if IsBlank(head.1) {
        assert Sanitized(params) == Sanitized(tail);
      } else {
        assert Sanitized(params) == [head] + Sanitized(tail);
      }
      if head.0 == key && IsBlank(head.1) {
        assert key !in Keys(tail) by {
          forall i | 0 <= i < |tail| ensures Keys(tail)[i] != key {
            assert tail[i] == params[i + 1];
          }
        }
        GetAbsentKey(tail, key);
      }
    }
  }

  /** Sanitising a record picked by distinct field names keeps exactly the named
      fields whose value is not blank, each with its value, under distinct keys. */
  lemma SanitizedPick(r: Record, fields: seq<string>, f: string)
    requires forall i, j :: 0 <= i < j < |fields| ==> fields[i] != fields[j]
    ensures DistinctKeys(Sanitized(Pick(r, fields)))
    ensures f in Keys(Sanitized(Pick(r, fields))) <==> f in fields && !IsBlank(Get(r, f))
    ensures Get(Sanitized(Pick(r, fields)), f) ==
      if f in fields && !IsBlank(Get(r, f)) then Get(r, f) else Undefined
  {
    PickDistinct(r, fields);
    SanitizedDistinct(Pick(r, fields));
    SanitizedPickKeys(r, fields, f);
    SanitizedPickGet(r, fields, f);
  }

  /** The sanitised pick holds a property named `f` exactly when `f` is picked
      and its value is not blank. */
  lemma SanitizedPickKeys(r: Record, fields: seq<string>, f: string)
    ensures f in Keys(Sanitized(Pick(r, fields))) <==> f in fields && !IsBlank(Get(r, f))
  {
    var picked := Pick(r, fields);
    var s := Sanitized(picked);
    var e := (f, Get(r, f));
    SanitizedKeeps(picked, e);
    PickEntries(r, fields, e);
    if f in Keys(s) {
      var i :| 0 <= i < |s| && s[i].0 == f;
      SanitizedKeeps(picked, s[i]);
      PickEntries(r, fields, s[i]);
    }
  }

  /** Reading `f` from the sanitised pick gives the value passed in, or
      `undefined` when `f` is not picked or its value is blank. */
  lemma SanitizedPickGet(r: Record, fields: seq<string>, f: string)
    requires DistinctKeys(Pick(r, fields))
    ensures Get(Sanitized(Pick(r, fields)), f) ==
      if f in fields && !IsBlank(Get(r, f)) then Get(r, f) else Undefined
  {
    var picked := Pick(r, fields);
    SanitizedGet(picked, f);
    if f in fields {
      GetPick(r, fields, f);
    } else {
      assert f !in Keys(picked);
      GetAbsentKey(picked, f);
    }
  }

  /** A record with no blank value is its own sanitised form. */
  lemma {:induction false} SanitizedUnchanged(params: Record)
    requires NoBlankValue(params)
    ensures Sanitized(params) == params
  {
    if params != [] {
      var init := params[..|params| - 1];
      SanitizedUnchanged(init);
      assert init + [params[|params| - 1]] == params;
    }
  }
}
