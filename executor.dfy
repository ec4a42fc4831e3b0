/**
 * The executor the builder hands its pipeline to.  It holds the model and the
 * pipeline array; running and printing the pipeline are not part of this model.
 */
module Executors {
  import opened Stages

  /** The collection handle passed to the builder.  Only whether its `aggregate`
      property is a function matters to the builder. */
  datatype Model = Model(name: string, aggregateIsFunction: bool)

  class Executor {
    const model: Model
    const pipeline: Pipeline

    /** Keeps the pipeline array it is given, not a copy. */
    constructor (model: Model, pipeline: Pipeline)
      ensures this.model == model && this.pipeline == pipeline
    {
      this.model := model;
      this.pipeline := pipeline;
    }
  }
}
