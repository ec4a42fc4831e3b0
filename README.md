# mongoose-aggregation-builder, modelled in Dafny

This project models the aggregation-pipeline builder of `mongoose-aggregation-builder`.
A `Builder` is created over a mongoose model. Its one piece of state is an ordered
`pipeline` array. It has one method per MongoDB aggregation stage (`match`, `project`,
`addFields`, `bucket`, `bucketAuto`, `collStats`, `count`, `facet`, `geoNear`,
`graphLookup`, `group`, `indexStats`, `limit`, `lookup`, `out`, `redact`, `replaceRoot`,
`sample`, `skip`, `sort`, `sortByCount`, `unwind`). Each method does three things:

1. It checks the required fields of an object literal with `_checkParams`.
2. It builds the stage's payload, usually through the sanitiser `_omitNulls`.
3. It pushes `{ $<stage>: payload }` and returns the builder, so calls can be chained.

If the check throws, nothing is pushed. `build()` hands the model and the pipeline
array to an `Executor`.

Modules:

- `Wrappers`: `Option` and `Result`.
- `Values`: the JavaScript values the builder tells apart.
  - `undefined`, `null`, `NaN` and strings are cases of their own.
  - Other values are carried along unread.
  - Plain objects are ordered key/value records (`Record`).
  - `Get` reads a property, and a missing key reads as `undefined`.
  - `Pick` is the object literal `{ f1, ..., fn }` that a destructuring method rebuilds.
- `Params`: `_checkParams` and `_omitNulls`.
  - Each is a specification function (`Validate`, `Sanitized`) plus the loop the
    source runs (`CheckParams`, `OmitNulls`), proved to compute that function.
- `Stages`: what each stage method does.
  - The 22 stage kinds, their names, and the fields each method checks and requires.
  - How each method shapes its payload: spread and sanitise, destructure and
    sanitise, store raw, wrap as `{ size }`, or store `{}`.
  - `StageCall`: the outcome of one call, meaning the stage appended or the error thrown.
    A destructuring method given `undefined` or `null` throws the engine's `TypeError`
    before its body runs.
  - `Run`: a chain of calls.
  - `Pipeline`: the JavaScript array itself, a heap object that stage methods push onto.
- `Executors`: the `Executor` as a holder of `(model, pipeline)`.
- `Builders`: the `Builder` class.
  - Its constructor, the 22 stage methods and `build`.
  - Each stage method checks, sanitises and pushes as the source does.
  - Each one's postcondition ties the new pipeline and the returned value to `StageCall`.
  - `Apply` calls the stage method of a given kind, and `Chain` runs a sequence of
    calls as a chained expression, proved to follow `Run` and to log what `WarningsAfter` gives.
  - Client methods show aliasing through `build` and the chain of the usage example.

`build()` gives the executor the builder's own array, not a copy; `StagesAddedAfterBuild`
shows that later stages are visible through it.

## Model

| member | source | states |
|---|---|---|
| Values.IsNullish | src/Builder.js:18-21 | the test `_checkParams` applies to a required field: `undefined` or `null`, so `0`, `false`, `""` and `NaN` count as present |
| Values.IsBlank | src/Builder.js:33 | the values `_omitNulls` drops: `undefined`, `NaN`, `null` and `""`, but not `0` or `false` |
| Values.Get | src/Builder.js:19-20 | `obj[key]`: the value stored under the key, or `undefined` when the object has no such property |
| Values.OwnProperties | src/Builder.js:45-47 | the properties `{ ...arg }` copies: an object's own properties in order, and none for any other value |
| Values.Pick | src/Builder.js:74-81 | the property names of the rebuilt literal are exactly the destructured field names, in the order written |
| Values.PickEntries | src/Builder.js:74-81 | a property is in the rebuilt literal iff its name is one of the named fields and its value is what the argument holds under that name (`undefined` when absent) |
| Params.Message | src/Builder.js:22-24 | the text of each error: "Field f is required in stage s", "Model is not a mongoose model" and the engine's destructuring `TypeError` |
| Params.Validate | src/Builder.js:17-26 | the error the check throws: the first required field, in list order, whose value is `undefined` or `null`, or none |
| Params.ValidateFindsFirstMissing | src/Builder.js:17-26 | the check passes iff no required field is `undefined` or `null`; otherwise the error names a required field that is `undefined` or `null` and every field before it in list order is present, so `0`, `false`, `""` and `NaN` pass |
| Params.ValidateOne | src/Builder.js:17-26 | with one required field, the check throws "Field f is required in stage s" exactly when that field is `undefined` or `null` |
| Params.ValidatePicked | src/Builder.js:74-81 | checking the rebuilt literal gives the same result as checking the argument, when the required fields are among the destructured ones |
| Params.CheckParams | src/Builder.js:12-27 | the loop with its early throw returns exactly the error `Validate` specifies, or none |
| Params.OmitNulls | src/Builder.js:29-39 | the key-by-key loop builds exactly `Sanitized(params)` |
| Params.Sanitized | src/Builder.js:29-39 | what `_omitNulls` returns: the properties whose value is not blank, in their order and with their values |
| Params.SanitizedKeeps | src/Builder.js:29-39 | an entry survives sanitising iff it is in the input and its value is not `undefined`, `NaN`, `null` or `""` (so `0` and `false` survive) |
| Params.SanitizedConcat | src/Builder.js:32-36 | sanitising works key by key: a concatenation sanitises to the concatenation, so the original key order is kept |
| Params.SanitizedIdempotent | src/Builder.js:29-39 | sanitising twice is the same as sanitising once |
| Params.SanitizedDistinct | src/Builder.js:29-39 | sanitising an object with distinct keys gives distinct keys |
| Params.SanitizedGet | src/Builder.js:29-39 | reading a key of the sanitised object gives the original value, or `undefined` when that value was blank |
| Params.SanitizedUnchanged | src/Builder.js:29-39 | an object with no blank value is sanitised to itself |
| Params.SanitizedPick | src/Builder.js:155-172 | the sanitised literal of a destructuring method has distinct keys, holds `f` iff `f` is named and its value is not blank, and then holds the value passed in |
| Params.SanitizedPickKeys | src/Builder.js:155-172 | the sanitised literal has a property `f` iff `f` is a named field whose value is not blank |
| Params.SanitizedPickGet | src/Builder.js:155-172 | reading `f` from the sanitised literal gives the value passed in, or `undefined` when `f` is not named or its value is blank |
| Stages.CheckedFields | src/Builder.js:74-81 | each method's literal names distinct fields, and every one-argument method checks a single field |
| Stages.Required | src/Builder.js:289-294 | each method's required fields are the leading fields of its literal; for every method that does not destructure, all of them |
| Stages.Descriptor | src/Builder.js:44-48 | the plain object a stage method pushes: the single-key record `{ $<stage>: payload }` |
| Stages.Payload | src/Builder.js:41-304 | the payload pushed once the check passes: the sanitised copy of the argument, the sanitised literal of the destructured fields, the argument itself, `{ size }` or `{}`, by method |
| Stages.StageCall | src/Builder.js:186-191 | an accepted call appends a stage of the called kind; `indexStats` is always accepted and appends `{}` |
| Stages.SingleArgumentValidation | src/Builder.js:41-50 | a one-argument stage method throws iff its argument is `undefined` or `null`, and the error names its parameter and its stage |
| Stages.DestructuredValidation | src/Builder.js:74-90 | a destructuring method given an object argument throws iff some required field of that object is `undefined` or `null`, and then names the first such field in the method's list |
| Stages.RawPayload | src/Builder.js:123-130 | `count`, `facet`, `limit`, `out`, `skip` and `sortByCount` store any accepted argument as given, blank values included |
| Stages.SamplePayload | src/Builder.js:251-258 | `sample` stores an accepted argument as `{ size }`, unsanitised |
| Stages.SpreadPayload | src/Builder.js:41-50 | a spreading method's stage holds exactly the argument's own properties whose value is not blank |
| Stages.SpreadWithoutBlanks | src/Builder.js:52-61 | a spreading method given an object with no blank value stores exactly that object |
| Stages.DestructuredPayload | src/Builder.js:155-173 | a destructuring method's stage holds distinct keys: exactly the named fields whose value is not blank, each with the value passed in |
| Stages.BlankRequiredFieldDropped | src/Builder.js:92-108 | a required field given as `""` or `NaN` passes the check and is then absent from the stage |
| Stages.NullishDestructuredArgument | src/Builder.js:289 | a destructuring method called with `undefined` or `null` throws the engine's `TypeError`, naming the first property of its parameter pattern, and never the required-field error |
| Stages.PrimitiveDestructuredArgument | src/Builder.js:289-294 | a destructuring method called with a primitive such as `"$paws"` behaves as if called with `{}`, so it throws iff it has a required field |
| Stages.DestructuredAccepted | src/Builder.js:289-304 | a destructuring method whose required fields are all present appends the sanitised literal of its named fields |
| Stages.LookupWithEmptyFrom | src/Builder.js:202-218 | `lookup` with `from: ""` and the other required fields present is accepted, and the `$lookup` record has no `from` |
| Stages.Run | src/Builder.js:41-50 | a chain's effect: the stages of the calls before the first one that throws, appended in call order, and that call's error, if any |
| Stages.OutcomesOfFirstCall | src/Builder.js:41-50 | the outcomes of a chain are its first call's outcome followed by the outcomes of the rest of the chain |
| Stages.RunAccepted | src/Builder.js:193-200 | a chain of accepted calls appends their stages after the earlier ones, one per call and in call order, and throws nothing |
| Stages.RunStopsAtFirstFailure | src/Builder.js:194-196 | when call `i` is the first to throw, the chain ends with its error and the pipeline holds exactly the stages of the calls before it |
| Stages.ChainOfAcceptedCalls | src/Builder.js:41-50 | N accepted chained calls give N more stages, each of its call's kind and in call order, with the earlier stages unchanged |
| Stages.Pipeline.constructor | src/Builder.js:9 | a new pipeline array is empty |
| Stages.Pipeline.Push | src/Builder.js:44-48 | `push` appends one stage at the end and changes nothing else |
| Executors.Executor.constructor | src/Executor.js:2-5 | the executor holds the model and the pipeline object it was given |
| Builders.Builder.constructor | src/Builder.js:4-10 | a builder that passed the model check holds its model, a fresh empty pipeline and no warnings |
| Builders.Builder.Create | src/Builder.js:4-10 | construction throws "Model is not a mongoose model" iff the model's `aggregate` is not a function and the check is not skipped; otherwise it gives a fresh builder with an empty pipeline |
| Builders.Builder.Chained | src/Builder.js:49 | a stage method returns the builder itself iff the call is accepted, and otherwise the error |
| Builders.Builder.Match | src/Builder.js:41-50 | `match` appends the `StageCall` stage or throws and leaves the pipeline as it was, returning the builder or the error |
| Builders.Builder.Project | src/Builder.js:52-61 | `project`: as `Match` |
| Builders.Builder.AddFields | src/Builder.js:63-72 | `addFields`: as `Match` |
| Builders.Builder.Bucket | src/Builder.js:74-90 | `bucket`: as `Match`, the stage being the sanitised `{ groupBy, boundaries, default, output }` |
| Builders.Builder.BucketAuto | src/Builder.js:92-108 | `bucketAuto`: as `Bucket`, over `{ groupBy, buckets, output, granularity }` |
| Builders.Builder.CollStats | src/Builder.js:110-121 | `collStats`: as `Bucket`, over `{ latency, storageStats, count }` with no required field, so it throws only the destructuring `TypeError` on `undefined` or `null` |
| Builders.Builder.Count | src/Builder.js:123-130 | `count`: as `Match`, the stage holding the argument raw |
| Builders.Builder.Facet | src/Builder.js:132-142 | `facet` adds its advisory to the warnings before the check, on every call, then behaves as `Count` |
| Builders.Builder.GeoNear | src/Builder.js:144-153 | `geoNear`: as `Match` |
| Builders.Builder.GraphLookup | src/Builder.js:155-173 | `graphLookup`: as `Bucket`, over its six named fields, four of them required |
| Builders.Builder.Group | src/Builder.js:175-184 | `group`: as `Match` |
| Builders.Builder.IndexStats | src/Builder.js:186-191 | `indexStats` always appends `{}` and returns the builder |
| Builders.Builder.Limit | src/Builder.js:193-200 | `limit`: as `Count` |
| Builders.Builder.Lookup | src/Builder.js:202-218 | `lookup`: as `Bucket`, over `{ from, localField, foreignField, as }`, all required |
| Builders.Builder.Out | src/Builder.js:220-227 | `out`: as `Count` |
| Builders.Builder.Redact | src/Builder.js:229-238 | `redact`: as `Match` |
| Builders.Builder.ReplaceRoot | src/Builder.js:240-249 | `replaceRoot`: as `Match` |
| Builders.Builder.Sample | src/Builder.js:251-258 | `sample`: as `Match`, the stage being `{ size }` |
| Builders.Builder.Skip | src/Builder.js:260-267 | `skip`: as `Count` |
| Builders.Builder.Sort | src/Builder.js:269-278 | `sort`: as `Match` |
| Builders.Builder.SortByCount | src/Builder.js:280-287 | `sortByCount`: as `Count` |
| Builders.Builder.Unwind | src/Builder.js:289-304 | `unwind`: as `Bucket`, over `{ path, includeArrayIndex, preserveNullAndEmptyArrays }`, `path` required |
| Builders.Builder.Apply | src/Builder.js:41-304 | calling the stage method of a given kind has that method's effect: the pipeline and the result follow `StageCall`, and only `facet` adds an advisory |
| Builders.Builder.Build | src/Builder.js:306-308 | `build` gives a new executor holding the builder's model and the builder's own pipeline object |
| Builders.Warned | src/Builder.js:132-142 | a call writes at most one advisory, and writes one iff it is a `facet` call |
| Builders.OnlyFacetWarns | src/Builder.js:132-142 | a chain only appends to the console log, every entry it appends is the `facet` advisory, and a chain without `facet` leaves the log as it was |
| Builders.Chain | src/Builder.js:41-50 | chained calls `b.k1(a1).k2(a2)...` leave exactly the pipeline `Run` gives for their outcomes, throw `Run`'s error if any and otherwise return the builder, and log what `WarningsAfter` gives |
| Builders.StagesAddedAfterBuild | src/Builder.js:306-308 | a `limit` call made after `build` shows up in the executor built before it |
| Builders.BlackCatsNames | examples/example.js:14-19 | the usage example's chain builds `[$match, $project, $unwind, $limit]` with exactly the arguments given, in call order |
| Builders.MatchProjectUnwindLimit | examples/example.js:15-18 | four accepted chained calls with blank-free arguments append their four stages, in call order, after the earlier ones |
| Builders.MatchThenProject | examples/example.js:15-16 | `match` then `project` with blank-free objects append both objects as given |
| Builders.UnwindThenLimit | examples/example.js:17-18 | `unwind({ path })` then `limit(n)` append `{ path }` and `n` as given |
| Builders.UnwindPath | src/Builder.js:289-304 | `unwind({ path })` stores `{ path }`: the two optional fields are absent, so the sanitiser drops them |

## Left out

- `Executor.print` and `Executor.exec` (src/Executor.js:7-14) are left out. One is JSON output to the console. The other is an asynchronous call into mongoose's `model.aggregate`. The executor is modelled as a holder of its model and pipeline.
- `Builder.buildAndExec` (src/Builder.js:310-312) is an asynchronous delegation to the database and is left out.
- The `console.warn` in `facet` is modelled as an append to the builder's `warnings` sequence, not as console output.
- Builders.Builder.Create does not model JavaScript truthiness. `typeof model.aggregate === "function"` is the flag `Model.aggregateIsFunction`, and `skipModelCheck` is a boolean.
- The "Parameter must be an object" branch of `_checkParams` (src/Builder.js:13-15) cannot be reached. Every stage method passes it an object literal, so `CheckParams` takes a `Record` and has no such case.
- The `TypeError` a destructuring method throws when called with `undefined` or `null` is `Params.CannotDestructure`. Its message follows the wording of the V8 engine, which renders `null` as `object null`; other engines word it differently.
- Values.OwnProperties treats every non-object argument as having no own properties. In JavaScript, spreading a string or an array copies its indexed characters or elements.
- Stage payloads are immutable values. In JavaScript, the raw arguments of `count`, `facet`, `limit`, `out`, `skip` and `sortByCount`, the argument `sample` wraps, and the nested objects inside the shallow copies of the other methods are held by reference. A caller's later mutation of such an argument therefore shows in the pipeline and in any executor built from it; the model does not capture this sharing.
- Stage payloads are opaque. Numbers are unbounded integers plus the distinguished `NaN`, with no floating point, and nothing interprets a payload or checks that stages come in a sensible order.
- A `Record` may in principle repeat a key, which a JavaScript object cannot. `Get` reads the first occurrence, and the lemmas that depend on distinct keys require `DistinctKeys`.
- The pipeline holds `Stage(kind, payload)` values rather than the plain objects `{ $<stage>: payload }`. `Stages.Descriptor` gives that plain object.
- The error message strings are given by `Params.Message`. Nothing is proved about the strings themselves.
