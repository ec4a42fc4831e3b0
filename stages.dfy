/**
 * Stage descriptors and what one call of a stage method produces.
 *
 * Every stage method of the builder checks an object literal of its own with
 * `_checkParams`, builds a payload, and appends the single-key record
 * `{ $<stage>: payload }`.  `StageCall` states, for each stage kind, the stage
 * that one call appends or the error it throws; `Run` states what a chain of
 * calls leaves in the pipeline.
 */
module Stages {
  import opened Wrappers
  import opened Values
  import opened Params

  datatype StageKind =
    | Match | Project | AddFields | Bucket | BucketAuto | CollStats | Count
    | Facet | GeoNear | GraphLookup | Group | IndexStats | Limit | Lookup | Out
    | Redact | ReplaceRoot | Sample | Skip | Sort | SortByCount | Unwind

  /** One pipeline entry: the record `{ $<stage>: payload }`. */
  datatype Stage = Stage(kind: StageKind, payload: Value)

  /** The stage name used in error messages, and after a `$` as the record's key. */
  function StageName(k: StageKind): string {
    match k
    case Match => "match"
    case Project => "project"
    case AddFields => "addFields"
    case Bucket => "bucket"
    case BucketAuto => "bucketAuto"
    case CollStats => "collStats"
    case Count => "count"
    case Facet => "facet"
    case GeoNear => "geoNear"
    case GraphLookup => "graphLookup"
    case Group => "group"
    case IndexStats => "indexStats"
    case Limit => "limit"
    case Lookup => "lookup"
    case Out => "out"
    case Redact => "redact"
    case ReplaceRoot => "replaceRoot"
    case Sample => "sample"
    case Skip => "skip"
    case Sort => "sort"
    case SortByCount => "sortByCount"
    case Unwind => "unwind"
  }

  /** The stage as the plain object that ends up in the pipeline array. */
  function Descriptor(s: Stage): Value {
    Obj([("$" + StageName(s.kind), s.payload)])
  }

  /** How a stage method turns its argument into the payload. */
  datatype Shape =
    | Spreads       // `{ ...arg }`, sanitised
    | Destructures  // `({ f1, ..., fn })`, rebuilt as `{ f1, ..., fn }` and sanitised
    | StoresRaw     // the argument itself
    | WrapsSize     // `{ size }`
    | TakesNothing  // `{}`

  function ShapeOf(k: StageKind): Shape {
    match k
    case Match | Project | AddFields | GeoNear | Group | Redact | ReplaceRoot | Sort => Spreads
    case Bucket | BucketAuto | CollStats | GraphLookup | Lookup | Unwind => Destructures
    case Count | Facet | Limit | Out | Skip | SortByCount => StoresRaw
    case Sample => WrapsSize
    case IndexStats => TakesNothing
  }

  /** The property names of the object literal each stage method hands to
      `_checkParams`, in the order the literal lists them. */
  function CheckedFields(k: StageKind): (fields: seq<string>)
    ensures forall i, j :: 0 <= i < j < |fields| ==> fields[i] != fields[j]
    ensures ShapeOf(k) != TakesNothing && ShapeOf(k) != Destructures ==> |fields| == 1
    ensures ShapeOf(k) == Destructures ==> fields != []
  {
    match k
    case Match => ["filter"]
    case Project => ["projection"]
    case AddFields => ["newFields"]
    case Bucket => ["groupBy", "boundaries", "default", "output"]
    case BucketAuto => ["groupBy", "buckets", "output", "granularity"]
    case CollStats => ["latency", "storageStats", "count"]
    case Count => ["count"]
    case Facet => ["facet"]
    case GeoNear => ["geoNear"]
    case GraphLookup => ["from", "startWith", "connectFromField", "as", "maxDepth", "depthField"]
    case Group => ["group"]
    case IndexStats => []
    case Limit => ["count"]
    case Lookup => ["from", "localField", "foreignField", "as"]
    case Out => ["out"]
    case Redact => ["redact"]
    case ReplaceRoot => ["replaceRoot"]
    case Sample => ["size"]
    case Skip => ["count"]
    case Sort => ["sort"]
    case SortByCount => ["pathToField"]
    case Unwind => ["path", "includeArrayIndex", "preserveNullAndEmptyArrays"]
  }

  /** The required-field table: the list each stage method passes to `_checkParams`. */
  function Required(k: StageKind): (required: seq<string>)
    ensures |required| <= |CheckedFields(k)| && required == CheckedFields(k)[..|required|]
    ensures ShapeOf(k) != Destructures ==> required == CheckedFields(k)
  {
    match k
    case Bucket => ["groupBy", "boundaries"]
    case BucketAuto => ["groupBy", "buckets"]
    case CollStats => []
    case GraphLookup => ["from", "startWith", "connectFromField", "as"]
    case IndexStats => []
    case Lookup => ["from", "localField", "foreignField", "as"]
    case Unwind => ["path"]
    case _ => CheckedFields(k)
  }

  /** The object literal checked by `_checkParams`: `{ filter }` for a one-argument
      stage, `{ groupBy, boundaries, default: def, output }` for `bucket`, and so on. */
  function CheckedParams(k: StageKind, arg: Value): Record {
    match ShapeOf(k)
    case TakesNothing => []
    case Destructures => Pick(OwnProperties(arg), CheckedFields(k))
    case _ => [(CheckedFields(k)[0], arg)]
  }

  /** The payload appended once the check has passed. */
  function Payload(k: StageKind, arg: Value): Value {
    match ShapeOf(k)
    case Spreads => Obj(Sanitized(OwnProperties(arg)))
    case Destructures => Obj(Sanitized(CheckedParams(k, arg)))
    case StoresRaw => arg
    case WrapsSize => Obj([("size", arg)])
    case TakesNothing => Obj([])
  }

  /** What one call of the stage method for `k` with argument `arg` does: the stage
      it appends, or the error it throws (and then it appends nothing).  A
      destructuring method called with `undefined` or `null` throws before its
      body runs; any other argument is destructured by property reads, so a
      primitive reads as an object without properties.  `indexStats` ignores
      its argument. */
  function StageCall(k: StageKind, arg: Value): (r: Result<Stage, Error>)
    ensures r.Success? ==> r.value.kind == k
    ensures k == IndexStats ==> r == Success(Stage(IndexStats, Obj([])))
  {
    if ShapeOf(k) == TakesNothing then Success(Stage(k, Obj([])))
    else if ShapeOf(k) == Destructures && IsNullish(arg) then
      Failure(CannotDestructure(CheckedFields(k)[0], if arg.Null? then "null" else "undefined"))
    else
      match Validate(CheckedParams(k, arg), Required(k), StageName(k))
      case Some(e) => Failure(e)
      case None => Success(Stage(k, Payload(k, arg)))
  }

  /** For a destructuring stage given a value it can destructure, the call is
      decided by the picked parameters alone: the first missing required one is
      thrown, or the sanitised parameters become the payload. */
  lemma DestructuredCall(k: StageKind, arg: Value, params: Record)
    requires ShapeOf(k) == Destructures && !IsNullish(arg)
    requires params == Pick(OwnProperties(arg), CheckedFields(k))
    ensures StageCall(k, arg) ==
      match Validate(params, Required(k), StageName(k))
      case Some(e) => Failure(e)
      case None => Success(Stage(k, Obj(Sanitized(params))))
  {
  }

  /** A destructuring stage called with `undefined` or `null` throws the
      engine's `TypeError`, never the required-field error, and appends nothing. */
  lemma NullishDestructuredArgument(k: StageKind, arg: Value)
    requires ShapeOf(k) == Destructures && IsNullish(arg)
    ensures StageCall(k, arg).Failure?
    ensures StageCall(k, arg).error.CannotDestructure?
    ensures StageCall(k, arg).error.property == CheckedFields(k)[0]
  {
  }

  /** A destructuring stage called with a primitive such as `unwind("$paws")`
      reads every named field as `undefined`: it behaves as if given `{}`. */
  lemma PrimitiveDestructuredArgument(k: StageKind, arg: Value)
    requires ShapeOf(k) == Destructures && !IsNullish(arg) && !arg.Obj?
    ensures StageCall(k, arg) == StageCall(k, Obj([]))
    ensures StageCall(k, arg).Failure? <==> Required(k) != []
  {
    var fields := CheckedFields(k);
    PickAt([], fields);
    ValidateFindsFirstMissing(Pick([], fields), Required(k), StageName(k));
    if Required(k) != [] {
      assert Get(Pick([], fields), Required(k)[0]) == Undefined by {
        GetPick([], fields, Required(k)[0]);
      }
    }
  }

  /** The stages after one call on a pipeline holding `before`: one more stage
      at the end when the call is accepted, the same stages when it throws. */
  function AfterCall(before: seq<Stage>, outcome: Result<Stage, Error>): seq<Stage> {
    if outcome.Success? then before + [outcome.value] else before
  }

  /** A one-argument stage fails exactly when its argument is `undefined` or
      `null`, and then names that parameter and the stage. */
  lemma SingleArgumentValidation(k: StageKind, arg: Value)
    requires ShapeOf(k) != TakesNothing && ShapeOf(k) != Destructures
    ensures StageCall(k, arg).Failure? <==> IsNullish(arg)
    ensures StageCall(k, arg).Failure? ==>
      StageCall(k, arg).error == MissingField(CheckedFields(k)[0], StageName(k))
  {
    var f := CheckedFields(k)[0];
    var v := Validate(CheckedParams(k, arg), Required(k), StageName(k));
    assert v == if IsNullish(arg) then Some(MissingField(f, StageName(k))) else None by {
      assert Required(k) == [f];
      assert CheckedParams(k, arg) == [(f, arg)];
      ValidateOne(f, arg, StageName(k));
    }
  }

  /** A destructuring stage fails exactly when some required field of its argument
      is `undefined` or `null`, and names the first such field in table order. */
  lemma DestructuredValidation(k: StageKind, args: Record)
    requires ShapeOf(k) == Destructures
    ensures StageCall(k, Obj(args)).Failure? <==>
      exists i :: 0 <= i < |Required(k)| && IsNullish(Get(args, Required(k)[i]))
    ensures StageCall(k, Obj(args)).Failure? ==>
      exists i :: 0 <= i < |Required(k)| &&
        StageCall(k, Obj(args)).error == MissingField(Required(k)[i], StageName(k)) &&
        IsNullish(Get(args, Required(k)[i])) &&
        forall j :: 0 <= j < i ==> !IsNullish(Get(args, Required(k)[j]))
  {
    ValidatePicked(args, CheckedFields(k), Required(k), StageName(k));
    ValidateFindsFirstMissing(args, Required(k), StageName(k));
  }

  /** `count`, `facet`, `limit`, `out`, `skip` and `sortByCount` store any accepted
      argument exactly as given, blank values such as `""` and `NaN` included. */
  lemma RawPayload(k: StageKind, arg: Value)
    requires ShapeOf(k) == StoresRaw && !IsNullish(arg)
    ensures StageCall(k, arg) == Success(Stage(k, arg))
  {
    SingleArgumentValidation(k, arg);
  }

  /** `sample` wraps its accepted argument as `{ size }`, unsanitised. */
  lemma SamplePayload(size: Value)
    requires !IsNullish(size)
    ensures StageCall(Sample, size) == Success(Stage(Sample, Obj([("size", size)])))
  {
    SingleArgumentValidation(Sample, size);
  }

  /** A spreading stage appends a copy of its argument's properties without the
      blank ones, keeping their values and their order. */
  lemma SpreadPayload(k: StageKind, arg: Value)
    requires ShapeOf(k) == Spreads && !IsNullish(arg)
    ensures StageCall(k, arg).Success?
    ensures StageCall(k, arg).value.payload.Obj?
    ensures forall e :: e in StageCall(k, arg).value.payload.fields <==>
      e in OwnProperties(arg) && !IsBlank(e.1)
  {
    SingleArgumentValidation(k, arg);
    forall e {
      SanitizedKeeps(OwnProperties(arg), e);
    }
  }

  /** A spreading stage given an object with no blank value appends that object's
      properties exactly as given. */
  lemma SpreadWithoutBlanks(k: StageKind, fields: Record)
    requires ShapeOf(k) == Spreads
    requires NoBlankValue(fields)
    ensures StageCall(k, Obj(fields)) == Success(Stage(k, Obj(fields)))
  {
    SingleArgumentValidation(k, Obj(fields));
    SanitizedUnchanged(fields);
  }

  /** A destructuring stage appends only the fields its method names, and of
      those only the ones whose value is not blank, each with the value passed in. */
  lemma DestructuredPayload(k: StageKind, args: Record, f: string)
    requires ShapeOf(k) == Destructures && StageCall(k, Obj(args)).Success?
    ensures StageCall(k, Obj(args)).value.payload.Obj?
    ensures DistinctKeys(StageCall(k, Obj(args)).value.payload.fields)
    ensures f in Keys(StageCall(k, Obj(args)).value.payload.fields) <==>
      f in CheckedFields(k) && !IsBlank(Get(args, f))
    ensures Get(StageCall(k, Obj(args)).value.payload.fields, f) ==
      if f in CheckedFields(k) && !IsBlank(Get(args, f)) then Get(args, f) else Undefined
  {
    assert StageCall(k, Obj(args)).value.payload == Obj(Sanitized(Pick(args, CheckedFields(k))));
    SanitizedPick(args, CheckedFields(k), f);
  }

  /** A required field given as `""` or `NaN` passes the check, and is then
      dropped by the sanitiser: the appended stage lacks that property. */
  lemma BlankRequiredFieldDropped(k: StageKind, args: Record, f: string)
    requires ShapeOf(k) == Destructures && f in Required(k)
    requires forall g :: g in Required(k) ==> !IsNullish(Get(args, g))
    requires Get(args, f) in {Str(""), NaN}
    ensures StageCall(k, Obj(args)).Success?
    ensures f !in Keys(StageCall(k, Obj(args)).value.payload.fields)
  {
    DestructuredValidation(k, args);
    assert f in CheckedFields(k);
    DestructuredPayload(k, args, f);
  }

  /** A destructuring stage whose required fields are all given appends the
      sanitised object literal of its named fields. */
  lemma DestructuredAccepted(k: StageKind, args: Record)
    requires ShapeOf(k) == Destructures
    requires forall i :: 0 <= i < |Required(k)| ==> !IsNullish(Get(args, Required(k)[i]))
    ensures StageCall(k, Obj(args)) == Success(Stage(k, Obj(Sanitized(Pick(args, CheckedFields(k))))))
  {
    var params := Pick(args, CheckedFields(k));
    DestructuredCall(k, Obj(args), params);
    assert Validate(params, Required(k), StageName(k)) == None by {
      ValidatePicked(args, CheckedFields(k), Required(k), StageName(k));
      ValidateFindsFirstMissing(args, Required(k), StageName(k));
    }
  }

  /** `lookup` with `from: ""` and its other required fields given: accepted,
      and the `$lookup` record has no `from`. */
  lemma LookupWithEmptyFrom(args: Record)
    requires Get(args, "from") == Str("")
    requires !IsNullish(Get(args, "localField")) && !IsNullish(Get(args, "foreignField")) &&
      !IsNullish(Get(args, "as"))
    ensures StageCall(Lookup, Obj(args)).Success?
    ensures "from" !in Keys(StageCall(Lookup, Obj(args)).value.payload.fields)
  {
    BlankRequiredFieldDropped(Lookup, args, "from");
  }

  /** One call of a stage method in a chain such as `b.match(x).limit(n)`. */
  datatype Call = Call(kind: StageKind, arg: Value)

  /** What each call of a chain does on its own. */
  function Outcomes(calls: seq<Call>): (outcomes: seq<Result<Stage, Error>>)
    ensures |outcomes| == |calls|
  {
    seq(|calls|, i requires 0 <= i < |calls| => StageCall(calls[i].kind, calls[i].arg))
  }

  predicate AllSucceed(outcomes: seq<Result<Stage, Error>>) {
    forall i :: 0 <= i < |outcomes| ==> outcomes[i].Success?
  }

  /** The stages appended by a run of accepted calls, one per call. */
  function Appended(outcomes: seq<Result<Stage, Error>>): seq<Stage>
    requires AllSucceed(outcomes)
  {
    seq(|outcomes|, i requires 0 <= i < |outcomes| => outcomes[i].value)
  }

  /** The pipeline after a chain of calls whose outcomes are `outcomes`, on a
      builder holding `stages`, and the error that ended the chain, if any.  A
      thrown error stops the chain; the stages the calls before it appended stay. */
  function Run(stages: seq<Stage>, outcomes: seq<Result<Stage, Error>>): (seq<Stage>, Option<Error>)
    decreases |outcomes|
  {
    if outcomes == [] then (stages, None)
    else
      match outcomes[0]
      case Failure(e) => (stages, Some(e))
      case Success(s) => Run(stages + [s], outcomes[1..])
  }

  /** A chain of accepted calls appends their stages at the end, in call order. */
  lemma {:induction false} RunAccepted(stages: seq<Stage>, outcomes: seq<Result<Stage, Error>>)
    requires AllSucceed(outcomes)
    decreases |outcomes|
    ensures Run(stages, outcomes) == (stages + Appended(outcomes), None)
  {
    if outcomes == [] {
      assert stages + Appended(outcomes) == stages;
    } else {
      var s := outcomes[0].value;
      var rest := outcomes[1..];
      assert AllSucceed(rest) by {
        forall i | 0 <= i < |rest| ensures rest[i].Success? {
          assert rest[i] == outcomes[i + 1];
        }
      }
      RunAccepted(stages + [s], rest);
      assert Appended(outcomes) == [s] + Appended(rest);
      assert stages + [s] + Appended(rest) == stages + Appended(outcomes);
    }
  }

  /** When call `i` is the first to fail, the chain ends with its error and the
      pipeline holds exactly the stages of the calls before it. */
  lemma {:induction false} RunStopsAtFirstFailure(stages: seq<Stage>, outcomes: seq<Result<Stage, Error>>, i: nat)
    requires i < |outcomes| && AllSucceed(outcomes[..i]) && outcomes[i].Failure?
    decreases i
    ensures Run(stages, outcomes) == (stages + Appended(outcomes[..i]), Some(outcomes[i].error))
  {
    if i == 0 {
      assert stages + Appended(outcomes[..0]) == stages;
    } else {
      assert outcomes[..i][0] == outcomes[0];
      var s := outcomes[0].value;
      var rest := outcomes[1..];
      var before := rest[..i - 1];
      assert AllSucceed(before) by {
        forall j | 0 <= j < |before| ensures before[j].Success? {
          assert before[j] == outcomes[..i][j + 1];
        }
      }
      RunStopsAtFirstFailure(stages + [s], rest, i - 1);
      assert Appended(outcomes[..i]) == [s] + Appended(rest[..i - 1]);
      assert stages + [s] + Appended(rest[..i - 1]) == stages + Appended(outcomes[..i]);
    }
  }

  /** N accepted stage calls in a chain give N more stages, in call order, each
      of its call's kind, with the earlier stages unchanged. */
  lemma ChainOfAcceptedCalls(stages: seq<Stage>, calls: seq<Call>)
    requires AllSucceed(Outcomes(calls))
    ensures Run(stages, Outcomes(calls)).1 == None
    ensures |Run(stages, Outcomes(calls)).0| == |stages| + |calls|
    ensures Run(stages, Outcomes(calls)).0[..|stages|] == stages
    ensures forall i :: 0 <= i < |calls| ==> Run(stages, Outcomes(calls)).0[|stages| + i].kind == calls[i].kind
  {
    RunAccepted(stages, Outcomes(calls));
    var after := Run(stages, Outcomes(calls)).0;
    forall i | 0 <= i < |calls| ensures after[|stages| + i].kind == calls[i].kind {
      assert after[|stages| + i] == Outcomes(calls)[i].value;
    }
  }

  /** A chain is its first call followed by the rest of the chain. */
  lemma OutcomesOfFirstCall(calls: seq<Call>)
    requires calls != []
    ensures Outcomes(calls) == [StageCall(calls[0].kind, calls[0].arg)] + Outcomes(calls[1..])
  {
  }

  /** The pipeline array itself: a JavaScript array the builder pushes onto and
      the executor holds by reference. */
  class Pipeline {
    var stages: seq<Stage>

    constructor ()
      ensures stages == []
    {
      stages := [];
    }

    method Push(s: Stage)
      modifies this
      ensures stages == old(stages) + [s]
    {
      stages := stages + [s];
    }
  }
}
