/**
 * The records that the action contract reads and produces. Only the fields the
 * contract touches are kept; the rest of each record is left out.
 */
module Metadata {
  import opened Wrappers

  /** Step-specific continuation data. Its contents belong to the running step. */
  datatype ActionProperties = ActionProperties(fields: map<string, string>)

  /**
   * Progress of one action on one managed index. `name` is the type of the
   * action that produced it, `index` its ordinal in the state's action list;
   * times are epoch milliseconds.
   */
  datatype ActionMetaData = ActionMetaData(
    name: string,
    startTime: Option<int>,
    index: int,
    failed: bool,
    consumedRetries: int,
    lastRetryTime: Option<int>,
    actionProperties: Option<ActionProperties>)

  /** The state the managed index last recorded itself in. */
  datatype StateMetaData = StateMetaData(name: string, startTime: int)

  /** The two parts of a managed index's lifecycle snapshot that the action reads. */
  datatype ManagedIndexMetaData = ManagedIndexMetaData(
    stateMetaData: Option<StateMetaData>,
    actionMetaData: Option<ActionMetaData>)

  /** Wall-clock deadline of an action; its own serialisation is opaque here. */
  datatype ActionTimeout = ActionTimeout(timeoutMillis: int)

  /** Retry configuration of an action; only the count is kept. */
  datatype ActionRetry = ActionRetry(count: int)

  /** A step is known to the contract only by its name. */
  datatype Step = Step(name: string)
}
