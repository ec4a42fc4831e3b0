/**
 * The aggregation-pipeline builder: a `Builder` object whose one piece of state
 * is its pipeline array.  Each stage method checks its required fields, then
 * pushes one stage and returns the builder, or throws and pushes nothing.
 */
module Builders {
  import opened Wrappers
  import opened Values
  import opened Params
  import opened Stages
  import opened Executors

  /** What `facet` writes with `console.warn` on every call. */
  const FacetWarning := "For now facet only gets a full pipeline array as an argument"

  class Builder {
    const model: Model
    const pipeline: Pipeline
    /** The advisories written to the console, oldest first. */
    var warnings: seq<string>

    /** The constructor once the model check has passed. */
    constructor (model: Model, skipModelCheck: bool)
      requires model.aggregateIsFunction || skipModelCheck
      ensures this.model == model && fresh(pipeline) && pipeline.stages == [] && warnings == []
    {
      this.model := model;
      pipeline := new Pipeline();
      warnings := [];
    }

    /** `new Builder(model, { skipModelCheck })`: throws unless the model's
        `aggregate` is a function or the check is skipped; starts empty. */
    static method Create(model: Model, skipModelCheck: bool) returns (r: Result<Builder, Error>)
      ensures r.Failure? <==> !model.aggregateIsFunction && !skipModelCheck
      ensures r.Failure? ==> r.error == NotAModel
      ensures r.Success? ==> fresh(r.value) && fresh(r.value.pipeline) && r.value.model == model
      ensures r.Success? ==> r.value.pipeline.stages == [] && r.value.warnings == []
    {
      if !model.aggregateIsFunction && !skipModelCheck {
        return Failure(NotAModel);
      }
      var b := new Builder(model, skipModelCheck);
      return Success(b);
    }

    /** What a stage method returns: the builder itself, for chaining, or the
        error it throws. */
    function Chained(outcome: Result<Stage, Error>): (r: Result<Builder, Error>)
      ensures r.Success? <==> outcome.Success?
    {
      if outcome.Success? then Success(this) else Failure(outcome.error)
    }

    method Match(filter: Value) returns (r: Result<Builder, Error>)
      modifies pipeline
      ensures pipeline.stages == AfterCall(old(pipeline.stages), StageCall(StageKind.Match, filter))
      ensures r == Chained(StageCall(StageKind.Match, filter))
    {
      SingleArgumentValidation(StageKind.Match, filter);
      var err := CheckParams([("filter", filter)], ["filter"], "match");
      if err.Some? {
        return Failure(err.value);
      }
      var sanitized := OmitNulls(OwnProperties(filter));
      pipeline.Push(Stage(StageKind.Match, Obj(sanitized)));
      return Success(this);
    }

    method Project(projection: Value) returns (r: Result<Builder, Error>)
      modifies pipeline
      ensures pipeline.stages == AfterCall(old(pipeline.stages), StageCall(StageKind.Project, projection))
      ensures r == Chained(StageCall(StageKind.Project, projection))
    {
      SingleArgumentValidation(StageKind.Project, projection);
      var err := CheckParams([("projection", projection)], ["projection"], "project");
      if err.Some? {
        return Failure(err.value);
      }
      var sanitized := OmitNulls(OwnProperties(projection));
      pipeline.Push(Stage(StageKind.Project, Obj(sanitized)));
      return Success(this);
    }

    method AddFields(newFields: Value) returns (r: Result<Builder, Error>)
      modifies pipeline
      ensures pipeline.stages == AfterCall(old(pipeline.stages), StageCall(StageKind.AddFields, newFields))
      ensures r == Chained(StageCall(StageKind.AddFields, newFields))
    {
      SingleArgumentValidation(StageKind.AddFields, newFields);
      var err := CheckParams([("newFields", newFields)], ["newFields"], "addFields");
      if err.Some? {
        return Failure(err.value);
      }
      var sanitized := OmitNulls(OwnProperties(newFields));
      pipeline.Push(Stage(StageKind.AddFields, Obj(sanitized)));
      return Success(this);
    }

    method Bucket(arg: Value) returns (r: Result<Builder, Error>)
      modifies pipeline
      ensures pipeline.stages == AfterCall(old(pipeline.stages), StageCall(StageKind.Bucket, arg))
      ensures r == Chained(StageCall(StageKind.Bucket, arg))
    {
      // Destructuring `undefined` or `null` in the parameter list throws first.
      if arg == Undefined || arg == Null {
        return Failure(CannotDestructure("groupBy", if arg == Null then "null" else "undefined"));
      }
      var args := OwnProperties(arg);
      var groupBy, boundaries, def, output :=
        Get(args, "groupBy"), Get(args, "boundaries"), Get(args, "default"), Get(args, "output");
      var params := [("groupBy", groupBy), ("boundaries", boundaries), ("default", def), ("output", output)];
      assert params == Pick(args, CheckedFields(StageKind.Bucket)) by {
        PickAt(args, CheckedFields(StageKind.Bucket));
      }
      DestructuredCall(StageKind.Bucket, arg, params);
      var err := CheckParams(params, ["groupBy", "boundaries"], "bucket");
      if err.Some? {
        return Failure(err.value);
      }
      var sanitized := OmitNulls(params);
      pipeline.Push(Stage(StageKind.Bucket, Obj(sanitized)));
      return Success(this);
    }

    method BucketAuto(arg: Value) returns (r: Result<Builder, Error>)
      modifies pipeline
      ensures pipeline.stages == AfterCall(old(pipeline.stages), StageCall(StageKind.BucketAuto, arg))
      ensures r == Chained(StageCall(StageKind.BucketAuto, arg))
    {
      // Destructuring `undefined` or `null` in the parameter list throws first.
      if arg == Undefined || arg == Null {
        return Failure(CannotDestructure("groupBy", if arg == Null then "null" else "undefined"));
      }
      var args := OwnProperties(arg);
      var groupBy, buckets, output, granularity :=
        Get(args, "groupBy"), Get(args, "buckets"), Get(args, "output"), Get(args, "granularity");
      var params := [("groupBy", groupBy), ("buckets", buckets), ("output", output), ("granularity", granularity)];
      assert params == Pick(args, CheckedFields(StageKind.BucketAuto)) by {
        PickAt(args, CheckedFields(StageKind.BucketAuto));
      }
      DestructuredCall(StageKind.BucketAuto, arg, params);
      var err := CheckParams(params, ["groupBy", "buckets"], "bucketAuto");
      if err.Some? {
        return Failure(err.value);
      }
      var sanitized := OmitNulls(params);
      pipeline.Push(Stage(StageKind.BucketAuto, Obj(sanitized)));
      return Success(this);
    }

    method CollStats(arg: Value) returns (r: Result<Builder, Error>)
      modifies pipeline
      ensures pipeline.stages == AfterCall(old(pipeline.stages), StageCall(StageKind.CollStats, arg))
      ensures r == Chained(StageCall(StageKind.CollStats, arg))
    {
      // Destructuring `undefined` or `null` in the parameter list throws first.
      if arg == Undefined || arg == Null {
        return Failure(CannotDestructure("latency", if arg == Null then "null" else "undefined"));
      }
      var args := OwnProperties(arg);
      var latency, storageStats, count :=
        Get(args, "latency"), Get(args, "storageStats"), Get(args, "count");
      var params := [("latency", latency), ("storageStats", storageStats), ("count", count)];
      assert params == Pick(args, CheckedFields(StageKind.CollStats)) by {
        PickAt(args, CheckedFields(StageKind.CollStats));
      }
      DestructuredCall(StageKind.CollStats, arg, params);
      var err := CheckParams(params, [], "collStats");
      assert err == None;
      var sanitized := OmitNulls(params);
      pipeline.Push(Stage(StageKind.CollStats, Obj(sanitized)));
      return Success(this);
    }

    method Count(count: Value) returns (r: Result<Builder, Error>)
      modifies pipeline
      ensures pipeline.stages == AfterCall(old(pipeline.stages), StageCall(StageKind.Count, count))
      ensures r == Chained(StageCall(StageKind.Count, count))
    {
      SingleArgumentValidation(StageKind.Count, count);
      var err := CheckParams([("count", count)], ["count"], "count");
      if err.Some? {
        return Failure(err.value);
      }
      pipeline.Push(Stage(StageKind.Count, count));
      return Success(this);
    }

    method Facet(facet: Value) returns (r: Result<Builder, Error>)
      modifies this, pipeline
      ensures warnings == old(warnings) + [FacetWarning]
      ensures pipeline.stages == AfterCall(old(pipeline.stages), StageCall(StageKind.Facet, facet))
      ensures r == Chained(StageCall(StageKind.Facet, facet))
    {
      warnings := warnings + [FacetWarning];
      SingleArgumentValidation(StageKind.Facet, facet);
      var err := CheckParams([("facet", facet)], ["facet"], "facet");
      if err.Some? {
        return Failure(err.value);
      }
      pipeline.Push(Stage(StageKind.Facet, facet));
      return Success(this);
    }

    method GeoNear(geoNear: Value) returns (r: Result<Builder, Error>)
      modifies pipeline
      ensures pipeline.stages == AfterCall(old(pipeline.stages), StageCall(StageKind.GeoNear, geoNear))
      ensures r == Chained(StageCall(StageKind.GeoNear, geoNear))
    {
      SingleArgumentValidation(StageKind.GeoNear, geoNear);
      var err := CheckParams([("geoNear", geoNear)], ["geoNear"], "geoNear");
      if err.Some? {
        return Failure(err.value);
      }
      var sanitized := OmitNulls(OwnProperties(geoNear));
      pipeline.Push(Stage(StageKind.GeoNear, Obj(sanitized)));
      return Success(this);
    }

    method GraphLookup(arg: Value) returns (r: Result<Builder, Error>)
      modifies pipeline
      ensures pipeline.stages == AfterCall(old(pipeline.stages), StageCall(StageKind.GraphLookup, arg))
      ensures r == Chained(StageCall(StageKind.GraphLookup, arg))
    {
      // Destructuring `undefined` or `null` in the parameter list throws first.
      if arg == Undefined || arg == Null {
        return Failure(CannotDestructure("from", if arg == Null then "null" else "undefined"));
      }
      var args := OwnProperties(arg);
      var from, startWith, connectFromField, as_, maxDepth, depthField :=
        Get(args, "from"), Get(args, "startWith"), Get(args, "connectFromField"), Get(args, "as"), Get(args, "maxDepth"), Get(args, "depthField");
      var params := [("from", from), ("startWith", startWith), ("connectFromField", connectFromField), ("as", as_), ("maxDepth", maxDepth), ("depthField", depthField)];
      assert params == Pick(args, CheckedFields(StageKind.GraphLookup)) by {
        PickAt(args, CheckedFields(StageKind.GraphLookup));
      }
      DestructuredCall(StageKind.GraphLookup, arg, params);
      var err := CheckParams(params, ["from", "startWith", "connectFromField", "as"], "graphLookup");
      if err.Some? {
        return Failure(err.value);
      }
      var sanitized := OmitNulls(params);
      pipeline.Push(Stage(StageKind.GraphLookup, Obj(sanitized)));
      return Success(this);
    }

    method Group(group: Value) returns (r: Result<Builder, Error>)
      modifies pipeline
      ensures pipeline.stages == AfterCall(old(pipeline.stages), StageCall(StageKind.Group, group))
      ensures r == Chained(StageCall(StageKind.Group, group))
    {
      SingleArgumentValidation(StageKind.Group, group);
      var err := CheckParams([("group", group)], ["group"], "group");
      if err.Some? {
        return Failure(err.value);
      }
      var sanitized := OmitNulls(OwnProperties(group));
      pipeline.Push(Stage(StageKind.Group, Obj(sanitized)));
      return Success(this);
    }

    method IndexStats() returns (r: Result<Builder, Error>)
      modifies pipeline
      ensures pipeline.stages == AfterCall(old(pipeline.stages), StageCall(StageKind.IndexStats, Undefined))
      ensures r == Chained(StageCall(StageKind.IndexStats, Undefined))
    {
      pipeline.Push(Stage(StageKind.IndexStats, Obj([])));
      return Success(this);
    }

    method Limit(count: Value) returns (r: Result<Builder, Error>)
      modifies pipeline
      ensures pipeline.stages == AfterCall(old(pipeline.stages), StageCall(StageKind.Limit, count))
      ensures r == Chained(StageCall(StageKind.Limit, count))
    {
      SingleArgumentValidation(StageKind.Limit, count);
      var err := CheckParams([("count", count)], ["count"], "limit");
      if err.Some? {
        return Failure(err.value);
      }
      pipeline.Push(Stage(StageKind.Limit, count));
      return Success(this);
    }

    method Lookup(arg: Value) returns (r: Result<Builder, Error>)
      modifies pipeline
      ensures pipeline.stages == AfterCall(old(pipeline.stages), StageCall(StageKind.Lookup, arg))
      ensures r == Chained(StageCall(StageKind.Lookup, arg))
    {
      // Destructuring `undefined` or `null` in the parameter list throws first.
      if arg == Undefined || arg == Null {
        return Failure(CannotDestructure("from", if arg == Null then "null" else "undefined"));
      }
      var args := OwnProperties(arg);
      var from, localField, foreignField, as_ :=
        Get(args, "from"), Get(args, "localField"), Get(args, "foreignField"), Get(args, "as");
      var params := [("from", from), ("localField", localField), ("foreignField", foreignField), ("as", as_)];
      assert params == Pick(args, CheckedFields(StageKind.Lookup)) by {
        PickAt(args, CheckedFields(StageKind.Lookup));
      }
      DestructuredCall(StageKind.Lookup, arg, params);
      var err := CheckParams(params, ["from", "localField", "foreignField", "as"], "lookup");
      if err.Some? {
        return Failure(err.value);
      }
      var sanitized := OmitNulls(params);
      pipeline.Push(Stage(StageKind.Lookup, Obj(sanitized)));
      return Success(this);
    }

    method Out(out: Value) returns (r: Result<Builder, Error>)
      modifies pipeline
      ensures pipeline.stages == AfterCall(old(pipeline.stages), StageCall(StageKind.Out, out))
      ensures r == Chained(StageCall(StageKind.Out, out))
    {
      SingleArgumentValidation(StageKind.Out, out);
      var err := CheckParams([("out", out)], ["out"], "out");
      if err.Some? {
        return Failure(err.value);
      }
      pipeline.Push(Stage(StageKind.Out, out));
      return Success(this);
    }

    method Redact(redact: Value) returns (r: Result<Builder, Error>)
      modifies pipeline
      ensures pipeline.stages == AfterCall(old(pipeline.stages), StageCall(StageKind.Redact, redact))
      ensures r == Chained(StageCall(StageKind.Redact, redact))
    {
      SingleArgumentValidation(StageKind.Redact, redact);
      var err := CheckParams([("redact", redact)], ["redact"], "redact");
      if err.Some? {
        return Failure(err.value);
      }
      var sanitized := OmitNulls(OwnProperties(redact));
      pipeline.Push(Stage(StageKind.Redact, Obj(sanitized)));
      return Success(this);
    }

    method ReplaceRoot(replaceRoot: Value) returns (r: Result<Builder, Error>)
      modifies pipeline
      ensures pipeline.stages == AfterCall(old(pipeline.stages), StageCall(StageKind.ReplaceRoot, replaceRoot))
      ensures r == Chained(StageCall(StageKind.ReplaceRoot, replaceRoot))
    {
      SingleArgumentValidation(StageKind.ReplaceRoot, replaceRoot);
      var err := CheckParams([("replaceRoot", replaceRoot)], ["replaceRoot"], "replaceRoot");
      if err.Some? {
        return Failure(err.value);
      }
      var sanitized := OmitNulls(OwnProperties(replaceRoot));
      pipeline.Push(Stage(StageKind.ReplaceRoot, Obj(sanitized)));
      return Success(this);
    }

    method Sample(size: Value) returns (r: Result<Builder, Error>)
      modifies pipeline
      ensures pipeline.stages == AfterCall(old(pipeline.stages), StageCall(StageKind.Sample, size))
      ensures r == Chained(StageCall(StageKind.Sample, size))
    {
      SingleArgumentValidation(StageKind.Sample, size);
      var err := CheckParams([("size", size)], ["size"], "sample");
      if err.Some? {
        return Failure(err.value);
      }
      pipeline.Push(Stage(StageKind.Sample, Obj([("size", size)])));
      return Success(this);
    }

    method Skip(count: Value) returns (r: Result<Builder, Error>)
      modifies pipeline
      ensures pipeline.stages == AfterCall(old(pipeline.stages), StageCall(StageKind.Skip, count))
      ensures r == Chained(StageCall(StageKind.Skip, count))
    {
      SingleArgumentValidation(StageKind.Skip, count);
      var err := CheckParams([("count", count)], ["count"], "skip");
      if err.Some? {
        return Failure(err.value);
      }
      pipeline.Push(Stage(StageKind.Skip, count));
      return Success(this);
    }

    method Sort(sort: Value) returns (r: Result<Builder, Error>)
      modifies pipeline
      ensures pipeline.stages == AfterCall(old(pipeline.stages), StageCall(StageKind.Sort, sort))
      ensures r == Chained(StageCall(StageKind.Sort, sort))
    {
      SingleArgumentValidation(StageKind.Sort, sort);
      var err := CheckParams([("sort", sort)], ["sort"], "sort");
      if err.Some? {
        return Failure(err.value);
      }
      var sanitized := OmitNulls(OwnProperties(sort));
      pipeline.Push(Stage(StageKind.Sort, Obj(sanitized)));
      return Success(this);
    }

    method SortByCount(pathToField: Value) returns (r: Result<Builder, Error>)
      modifies pipeline
      ensures pipeline.stages == AfterCall(old(pipeline.stages), StageCall(StageKind.SortByCount, pathToField))
      ensures r == Chained(StageCall(StageKind.SortByCount, pathToField))
    {
      SingleArgumentValidation(StageKind.SortByCount, pathToField);
      var err := CheckParams([("pathToField", pathToField)], ["pathToField"], "sortByCount");
      if err.Some? {
        return Failure(err.value);
      }
      pipeline.Push(Stage(StageKind.SortByCount, pathToField));
      return Success(this);
    }

    method Unwind(arg: Value) returns (r: Result<Builder, Error>)
      modifies pipeline
      ensures pipeline.stages == AfterCall(old(pipeline.stages), StageCall(StageKind.Unwind, arg))
      ensures r == Chained(StageCall(StageKind.Unwind, arg))
    {
      // Destructuring `undefined` or `null` in the parameter list throws first.
      if arg == Undefined || arg == Null {
        return Failure(CannotDestructure("path", if arg == Null then "null" else "undefined"));
      }
      var args := OwnProperties(arg);
      var path, includeArrayIndex, preserveNullAndEmptyArrays :=
        Get(args, "path"), Get(args, "includeArrayIndex"), Get(args, "preserveNullAndEmptyArrays");
      var params := [("path", path), ("includeArrayIndex", includeArrayIndex), ("preserveNullAndEmptyArrays", preserveNullAndEmptyArrays)];
      assert params == Pick(args, CheckedFields(StageKind.Unwind)) by {
        PickAt(args, CheckedFields(StageKind.Unwind));
      }
      DestructuredCall(StageKind.Unwind, arg, params);
      var err := CheckParams(params, ["path"], "unwind");
      if err.Some? {
        return Failure(err.value);
      }
      var sanitized := OmitNulls(params);
      pipeline.Push(Stage(StageKind.Unwind, Obj(sanitized)));
      return Success(this);
    }

    /** One call in a chain: the stage method named by `c.kind`, given `c.arg`
        (`indexStats` ignores its argument). */
    method Apply(c: Call) returns (r: Result<Builder, Error>)
      modifies this, pipeline
      ensures warnings == old(warnings) + Warned(c.kind)
      ensures pipeline.stages == AfterCall(old(pipeline.stages), StageCall(c.kind, c.arg))
      ensures r == Chained(StageCall(c.kind, c.arg))
    {
      match c.kind
      case Match => r := Match(c.arg);
      case Project => r := Project(c.arg);
      case AddFields => r := AddFields(c.arg);
      case Bucket => r := Bucket(c.arg);
      case BucketAuto => r := BucketAuto(c.arg);
      case CollStats => r := CollStats(c.arg);
      case Count => r := Count(c.arg);
      case Facet => r := Facet(c.arg);
      case GeoNear => r := GeoNear(c.arg);
      case GraphLookup => r := GraphLookup(c.arg);
      case Group => r := Group(c.arg);
      case IndexStats => r := IndexStats();
      case Limit => r := Limit(c.arg);
      case Lookup => r := Lookup(c.arg);
      case Out => r := Out(c.arg);
      case Redact => r := Redact(c.arg);
      case ReplaceRoot => r := ReplaceRoot(c.arg);
      case Sample => r := Sample(c.arg);
      case Skip => r := Skip(c.arg);
      case Sort => r := Sort(c.arg);
      case SortByCount => r := SortByCount(c.arg);
      case Unwind => r := Unwind(c.arg);
    }

    /** `build()`: an executor over this builder's own pipeline array, not a copy. */
    method Build() returns (e: Executor)
      ensures fresh(e) && e.model == model && e.pipeline == pipeline
    {
      e := new Executor(model, pipeline);
    }
  }

  /** The advisory one call writes to the console: only `facet` writes one. */
  function Warned(k: StageKind): (w: seq<string>)
    ensures |w| <= 1 && (w != [] <==> k == StageKind.Facet)
  {
    if k == StageKind.Facet then [FacetWarning] else []
  }

  /** The console log after a chain of calls whose outcomes are `outcomes`, on a
      builder whose log was `log`: each call's advisory, up to and including the
      first call that throws, since `facet` warns before its check. */
  function WarningsAfter(log: seq<string>, calls: seq<Call>, outcomes: seq<Result<Stage, Error>>): seq<string>
    requires |outcomes| == |calls|
    decreases |calls|
  {
    if calls == [] then log
    else if outcomes[0].Failure? then log + Warned(calls[0].kind)
    else WarningsAfter(log + Warned(calls[0].kind), calls[1..], outcomes[1..])
  }

  /** A chain only ever adds to the log, and only `facet` calls add to it: a
      chain without `facet` leaves the log as it was. */
  lemma {:induction false} OnlyFacetWarns(log: seq<string>, calls: seq<Call>, outcomes: seq<Result<Stage, Error>>)
    requires |outcomes| == |calls|
    decreases |calls|
    ensures |WarningsAfter(log, calls, outcomes)| >= |log|
    ensures WarningsAfter(log, calls, outcomes)[..|log|] == log
    ensures forall i :: |log| <= i < |WarningsAfter(log, calls, outcomes)| ==>
      WarningsAfter(log, calls, outcomes)[i] == FacetWarning
    ensures (forall i :: 0 <= i < |calls| ==> calls[i].kind != StageKind.Facet) ==>
      WarningsAfter(log, calls, outcomes) == log
  {
    if calls != [] && outcomes[0].Success? {
      var next := log + Warned(calls[0].kind);
      OnlyFacetWarns(next, calls[1..], outcomes[1..]);
      var after := WarningsAfter(next, calls[1..], outcomes[1..]);
      assert after[..|log|] == next[..|log|];
      forall i | |log| <= i < |after| ensures after[i] == FacetWarning {
        if i < |next| {
          assert after[i] == next[i];
        }
      }
      if forall i :: 0 <= i < |calls| ==> calls[i].kind != StageKind.Facet {
        forall i | 0 <= i < |calls[1..]| ensures calls[1..][i].kind != StageKind.Facet {
          assert calls[1..][i] == calls[i + 1];
        }
        assert next == log;
      }
    }
  }

  /** A chain of stage calls `b.<k1>(a1).<k2>(a2)...`: the calls run in order
      and the first one that throws ends the chain with its error. */
  method Chain(b: Builder, calls: seq<Call>) returns (r: Result<Builder, Error>)
    modifies b, b.pipeline
    decreases |calls|
    ensures b.pipeline.stages == Run(old(b.pipeline.stages), Outcomes(calls)).0
    ensures r.Success? <==> Run(old(b.pipeline.stages), Outcomes(calls)).1 == None
    ensures r.Success? ==> r.value == b
    ensures r.Failure? ==> Run(old(b.pipeline.stages), Outcomes(calls)).1 == Some(r.error)
    ensures b.warnings == WarningsAfter(old(b.warnings), calls, Outcomes(calls))
  {
    if calls == [] {
      return Success(b);
    }
    OutcomesOfFirstCall(calls);
    r := b.Apply(calls[0]);
    if r.Failure? {
      return;
    }
    r := Chain(b, calls[1..]);
  }

  /** Stage calls made after `build()` show up in the executor built before them,
      because both hold the same array. */
  method StagesAddedAfterBuild(b: Builder, count: Value) returns (e: Executor)
    modifies b.pipeline
    ensures e.pipeline == b.pipeline
    ensures !IsNullish(count) ==> e.pipeline.stages == old(b.pipeline.stages) + [Stage(StageKind.Limit, count)]
    ensures IsNullish(count) ==> e.pipeline.stages == old(b.pipeline.stages)
  {
    SingleArgumentValidation(StageKind.Limit, count);
    if !IsNullish(count) {
      RawPayload(StageKind.Limit, count);
    }
    e := b.Build();
    var r := b.Limit(count);
  }

  /** The chain of the usage example: black cats, projected, one document per paw,
      the first one only. */
  method BlackCatsNames(cat: Model) returns (e: Executor)
    requires cat.aggregateIsFunction
    ensures e.model == cat
    ensures e.pipeline.stages == [
      Stage(StageKind.Match, Obj([("color", Str("black"))])),
      Stage(StageKind.Project, Obj([("_id", Bool(false)), ("name", Bool(true)), ("paws", Bool(true))])),
      Stage(StageKind.Unwind, Obj([("path", Str("$paws"))])),
      Stage(StageKind.Limit, Num(1))]
  {
    var b := new Builder(cat, false);
    MatchProjectUnwindLimit(b, [("color", Str("black"))],
      [("_id", Bool(false)), ("name", Bool(true)), ("paws", Bool(true))], Str("$paws"), Num(1));
    e := b.Build();
  }

  /** `b.match(filter).project(projection).unwind({ path }).limit(n)` with
      arguments that pass every check and hold no blank value: four stages, in
      call order, each holding its argument as given. */
  method MatchProjectUnwindLimit(b: Builder, filter: Record, projection: Record, path: Value, n: Value)
    requires NoBlankValue(filter)
    requires NoBlankValue(projection)
    requires !IsBlank(path) && !IsNullish(n)
    modifies b.pipeline
    ensures b.pipeline.stages == old(b.pipeline.stages) + [Stage(StageKind.Match, Obj(filter)),
      Stage(StageKind.Project, Obj(projection)), Stage(StageKind.Unwind, Obj([("path", path)])),
      Stage(StageKind.Limit, n)]
  {
    MatchThenProject(b, filter, projection);
    UnwindThenLimit(b, path, n);
  }

  /** `b.match(filter).project(projection)` with blank-free arguments. */
  method MatchThenProject(b: Builder, filter: Record, projection: Record)
    requires NoBlankValue(filter)
    requires NoBlankValue(projection)
    modifies b.pipeline
    ensures b.pipeline.stages == old(b.pipeline.stages) + [Stage(StageKind.Match, Obj(filter)),
      Stage(StageKind.Project, Obj(projection))]
  {
    SpreadWithoutBlanks(StageKind.Match, filter);
    SpreadWithoutBlanks(StageKind.Project, projection);
    var r := b.Match(Obj(filter));
    r := b.Project(Obj(projection));
  }

  /** `b.unwind({ path }).limit(n)` with a non-blank path and a given count. */
  method UnwindThenLimit(b: Builder, path: Value, n: Value)
    requires !IsBlank(path) && !IsNullish(n)
    modifies b.pipeline
    ensures b.pipeline.stages == old(b.pipeline.stages) + [Stage(StageKind.Unwind, Obj([("path", path)])),
      Stage(StageKind.Limit, n)]
  {
    UnwindPath(path);
    RawPayload(StageKind.Limit, n);
    var r := b.Unwind(Obj([("path", path)]));
    r := b.Limit(n);
  }

  /** `unwind({ path })` with a non-blank path appends `{ $unwind: { path } }`:
      the two optional fields, absent, are dropped. */
  lemma UnwindPath(path: Value)
    requires !IsBlank(path)
    ensures StageCall(StageKind.Unwind, Obj([("path", path)])) ==
      Success(Stage(StageKind.Unwind, Obj([("path", path)])))
  {
    var args := [("path", path)];
    var fields := CheckedFields(StageKind.Unwind);
    PickAt(args, fields);
    var picked := Pick(args, fields);
    assert args[1..] == [];
    assert Get(args, "includeArrayIndex") == Undefined;
    assert Get(args, "preserveNullAndEmptyArrays") == Undefined;
    assert picked == [("path", path), ("includeArrayIndex", Undefined), ("preserveNullAndEmptyArrays", Undefined)];
    DestructuredAccepted(StageKind.Unwind, args);
    SanitizedConcat([picked[0]], picked[1..]);
    assert Sanitized(picked[1..]) == [] by {
      assert picked[1..][..1] == [picked[1]];
      assert picked[1..][..1][..0] == [];
    }
    assert Sanitized([picked[0]]) == [picked[0]] by {
      assert [picked[0]][..0] == [];
    }
    assert Sanitized(picked) == args;
  }
}
