/**
 * The shared contract of a lifecycle action: its configuration and defaults,
 * metadata reconciliation, the structured and transfer envelopes, and the
 * first/last step queries.
 */
module Actions {
  import opened Wrappers
  import opened Metadata
  import opened XContent
  import opened Stream

  const DEFAULT_RETRIES: int := 3
  const CUSTOM_ACTION_FIELD: string := "custom"
  const EXCLUDE_CUSTOM_FIELD_PARAM: string := "exclude_custom"

  /** Kotlin's first()/last() on an empty list throw NoSuchElementException. */
  datatype StepError = NoSuchElement

  // ---------------------------------------------------------------------------
  // Structured envelope
  // ---------------------------------------------------------------------------

  /** The optional timeout entry, then the optional retry entry. */
  function ConfigTokens(timeout: Option<ActionTimeout>, retry: Option<ActionRetry>): (r: seq<Token>)
    ensures |r| == (if timeout.Some? then 1 else 0) + (if retry.Some? then 1 else 0)
    ensures forall i :: 0 <= i < |r| ==> r[i].TimeoutEntry? || r[i].RetryEntry?
    ensures timeout.Some? ==> r[0] == TimeoutEntry(timeout.value)
    ensures retry.Some? ==> r[|r| - 1] == RetryEntry(retry.value)
  {
    (match timeout case Some(t) => [TimeoutEntry(t)] case None => [])
    + (match retry case Some(rt) => [RetryEntry(rt)] case None => [])
  }

  /** Whether the action body is nested under the "custom" wrapper object. */
  function WrapsCustom(customAction: bool, params: Params): (wrap: bool)
    ensures wrap <==> customAction &&
                      !(EXCLUDE_CUSTOM_FIELD_PARAM in params && params[EXCLUDE_CUSTOM_FIELD_PARAM])
  {
    customAction && !ParamAsBoolean(params, EXCLUDE_CUSTOM_FIELD_PARAM, false)
  }

  /** What toXContent writes around a body of variant-specific tokens. */
  function StructuredForm(timeout: Option<ActionTimeout>, retry: Option<ActionRetry>,
                          wrap: bool, body: seq<Token>): seq<Token>
  {
    [ObjectStart] + ConfigTokens(timeout, retry)
    + (if wrap then [NamedObjectStart(CUSTOM_ACTION_FIELD)] + body + [ObjectEnd] else body)
    + [ObjectEnd]
  }

  /** What the default populateAction(builder, params) writes: an empty object under the type. */
  function DefaultBody(actionType: string): seq<Token> {
    [NamedObjectStart(actionType), ObjectEnd]
  }

  // ---------------------------------------------------------------------------
  // Transfer envelope
  // ---------------------------------------------------------------------------

  function TimeoutWriteable(timeout: Option<ActionTimeout>): Option<Writeable> {
    match timeout
    case Some(t) => Some(TimeoutConfig(t))
    case None => None
  }

  function RetryWriteable(retry: Option<ActionRetry>): Option<Writeable> {
    match retry
    case Some(r) => Some(RetryConfig(r))
    case None => None
  }

  /** What writeTo writes: the type, the optional timeout, the optional retry, then the payload. */
  function TransferForm(actionType: string, timeout: Option<ActionTimeout>,
                        retry: Option<ActionRetry>, payload: seq<WireItem>): seq<WireItem>
  {
    [WString(actionType)] + OptionalForm(TimeoutWriteable(timeout))
    + OptionalForm(RetryWriteable(retry)) + payload
  }

  /** What the default populateAction(out) writes: the action's ordinal. */
  function DefaultPayload(actionIndex: int): seq<WireItem> {
    [WInt(actionIndex)]
  }

  // ---------------------------------------------------------------------------
  // Reconciliation vocabulary
  // ---------------------------------------------------------------------------

  /** The index last recorded itself in the state now being processed. */
  predicate RecordedStateIs(m: ManagedIndexMetaData, stateName: string) {
    m.stateMetaData.Some? && m.stateMetaData.value.name == stateName
  }

  /** The index's recorded action metadata belongs to the action at this ordinal. */
  predicate RecordedActionIs(m: ManagedIndexMetaData, actionIndex: int) {
    m.actionMetaData.Some? && m.actionMetaData.value.index == actionIndex
  }

  /** r starts the action afresh at time now: no failure, no retries, no step data. */
  predicate IsFreshStart(r: ActionMetaData, actionType: string, actionIndex: int, now: int) {
    r.name == actionType && r.startTime == Some(now) && r.index == actionIndex &&
    !r.failed && r.consumedRetries == 0 && r.lastRetryTime == Some(0) &&
    r.actionProperties.None?
  }

  /**
   * r continues prev: every field is kept, except that a start time cleared by
   * the retry API is set to now.
   */
  predicate IsResumeOf(r: ActionMetaData, prev: ActionMetaData, now: int) {
    r.name == prev.name && r.index == prev.index && r.failed == prev.failed &&
    r.consumedRetries == prev.consumedRetries && r.lastRetryTime == prev.lastRetryTime &&
    r.actionProperties == prev.actionProperties &&
    r.startTime == (if prev.startTime.Some? then prev.startTime else Some(now))
  }

  // ---------------------------------------------------------------------------
  // The action
  // ---------------------------------------------------------------------------

  class Action {
    const actionType: string
    const actionIndex: int
    /** The variant's step list, fixed for the life of the action. */
    const steps: seq<Step>

    var configTimeout: Option<ActionTimeout>
    var configRetry: Option<ActionRetry>
    var customAction: bool

    /** A fresh action has no timeout, the default retry count and is not custom. */
    constructor (actionType: string, actionIndex: int, steps: seq<Step>)
      ensures this.actionType == actionType && this.actionIndex == actionIndex
      ensures this.steps == steps
      ensures configTimeout == None
      ensures configRetry == Some(ActionRetry(DEFAULT_RETRIES))
      ensures !customAction
    {
      this.actionType := actionType;
      this.actionIndex := actionIndex;
      this.steps := steps;
      configTimeout := None;
      configRetry := Some(ActionRetry(DEFAULT_RETRIES));
      customAction := false;
    }

    /**
     * The metadata to use for this execution cycle, given the index's last
     * recorded snapshot, the state being processed and the current time.
     */
    function GetUpdatedActionMetadata(managedIndexMetaData: ManagedIndexMetaData,
                                      stateName: string, now: int): (r: ActionMetaData)
      ensures r.startTime.Some? && r.index == actionIndex
      ensures !RecordedStateIs(managedIndexMetaData, stateName) ==>
                IsFreshStart(r, actionType, actionIndex, now)
      ensures !RecordedActionIs(managedIndexMetaData, actionIndex) ==>
                IsFreshStart(r, actionType, actionIndex, now)
      ensures RecordedStateIs(managedIndexMetaData, stateName) &&
              RecordedActionIs(managedIndexMetaData, actionIndex) ==>
                IsResumeOf(r, managedIndexMetaData.actionMetaData.value, now)
    {
      var stateMetaData := managedIndexMetaData.stateMetaData;
      var actionMetaData := managedIndexMetaData.actionMetaData;
      if stateMetaData.None? || stateMetaData.value.name != stateName then
        ActionMetaData(actionType, Some(now), actionIndex, false, 0, Some(0), None)
      else if actionMetaData.None? || actionMetaData.value.index != actionIndex then
        ActionMetaData(actionType, Some(now), actionIndex, false, 0, Some(0), None)
      else
        actionMetaData.value.(startTime := Some(actionMetaData.value.startTime.GetOr(now)))
    }

    /** Whether stepName names the last step; fails on an empty step list. */
    function IsLastStep(stepName: string): (r: Result<bool, StepError>)
      ensures r.Failure? <==> steps == []
      ensures r == Success(true) <==> steps != [] && steps[|steps| - 1].name == stepName
    {
      if steps == [] then Failure(NoSuchElement) else Success(steps[|steps| - 1].name == stepName)
    }

    /** Whether stepName names the first step; fails on an empty step list. */
    function IsFirstStep(stepName: string): (r: Result<bool, StepError>)
      ensures r.Failure? <==> steps == []
      ensures r == Success(true) <==> steps != [] && steps[0].name == stepName
    {
      if steps == [] then Failure(NoSuchElement) else Success(steps[0].name == stepName)
    }

    /** The default populateAction(builder, params). */
    method PopulateAction(builder: XContentBuilder, params: Params)
      modifies builder
      ensures builder.tokens == old(builder.tokens) + DefaultBody(actionType)
    {
      builder.StartObjectNamed(actionType);
      builder.EndObject();
    }

    /** The configuration part of toXContent: the timeout if set, then the retry if set. */
    method WriteConfig(builder: XContentBuilder, params: Params)
      modifies builder
      ensures builder.tokens == old(builder.tokens) + ConfigTokens(configTimeout, configRetry)
    {
      if configTimeout.Some? { builder.WriteTimeout(configTimeout.value); }
      if configRetry.Some? { builder.WriteRetry(configRetry.value); }
    }

    /** The body part of toXContent: populateAction, inside the "custom" wrapper when it applies. */
    method WriteBody(builder: XContentBuilder, params: Params)
      modifies builder
      ensures builder.tokens == old(builder.tokens) +
                if WrapsCustom(customAction, params)
                then [NamedObjectStart(CUSTOM_ACTION_FIELD)] + DefaultBody(actionType) + [ObjectEnd]
                else DefaultBody(actionType)
    {
      if customAction && !ParamAsBoolean(params, EXCLUDE_CUSTOM_FIELD_PARAM, false) {
        builder.StartObjectNamed(CUSTOM_ACTION_FIELD);
      }
      PopulateAction(builder, params);
      if customAction && !ParamAsBoolean(params, EXCLUDE_CUSTOM_FIELD_PARAM, false) {
        builder.EndObject();
      }
    }

    /** Writes the action as one structured object and returns the same builder. */
    method ToXContent(builder: XContentBuilder, params: Params) returns (b: XContentBuilder)
      modifies builder
      ensures b == builder
      ensures builder.tokens == old(builder.tokens) +
                StructuredForm(configTimeout, configRetry, WrapsCustom(customAction, params),
                               DefaultBody(actionType))
    {
      builder.StartObject();
      WriteConfig(builder, params);
      WriteBody(builder, params);
      builder.EndObject();
      b := builder;
    }

    /** The default populateAction(out). */
    method PopulateActionStream(out: StreamOutput)
      modifies out
      ensures out.items == old(out.items) + DefaultPayload(actionIndex)
    {
      out.WriteInt(actionIndex);
    }

    /** Writes the action for transfer to another node. */
    method WriteTo(out: StreamOutput)
      modifies out
      ensures out.items == old(out.items) +
                TransferForm(actionType, configTimeout, configRetry, DefaultPayload(actionIndex))
    {
      out.WriteString(actionType);
      out.WriteOptionalWriteable(TimeoutWriteable(configTimeout));
      out.WriteOptionalWriteable(RetryWriteable(configRetry));
      PopulateActionStream(out);
    }
  }
}
