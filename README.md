# Lifecycle action contract (index state management)

This project models the shared contract of a lifecycle `Action` in OpenSearch
index state management. A policy is made of named states. Each state runs
actions, and each action is an ordered list of steps. The abstract `Action`
class gives every action kind four things:

- configuration fields with defaults: no timeout, a retry count of 3, and not custom;
- **metadata reconciliation**, which decides whether this execution cycle starts
  the action afresh or resumes the recorded progress;
- two **envelopes**: a structured document (`toXContent`) and an inter-node
  transfer stream (`writeTo`);
- the **first/last step queries** that the engine uses to tell when an action has finished.

Layout:

- `wrappers.dfy`: `Option` (Kotlin nullables) and `Result` (thrown exceptions).
- `metadata.dfy`: the records the contract reads: `ActionMetaData`,
  `StateMetaData`, `ManagedIndexMetaData`, `ActionTimeout`, `ActionRetry`, `Step`.
- `xcontent.dfy`: the structured-document builder as an append-only token
  sequence, with nesting depth and balance. It also models `paramAsBoolean`.
- `stream.dfy`: the transfer stream as an append-only item sequence. An
  optional writeable is written as a presence flag followed by the object.
- `action.dfy`: the class `Action` with its companion constants, and the
  specification functions for the two envelopes and for reconciliation.
- `action_lemmas.dfy`: the properties of the contract.

The source changes state in two places, and the model does the same there.
`Action` is a class with mutable `configTimeout`, `configRetry` and
`customAction` fields. `ToXContent` and `WriteTo` append to a builder or a
stream object step by step. Each of these methods is proved to append exactly
`StructuredForm(...)` or `TransferForm(...)`. The lemmas then state what those
forms guarantee. Reconciliation and the step queries are pure functions of the class.

The current time is passed in as `now`; the source reads the wall clock instead.

Points where the source's behaviour is easy to misread:

- The default `populateAction(builder, params)` writes an empty object under the
  action's type. Variants replace it.
- A fresh record's `lastRetryTime` is the value 0, not null.
- `isFirstStep`/`isLastStep` on an empty step list throw, because Kotlin's
  `first()`/`last()` do. The model returns `Failure(NoSuchElement)` for that case
  and adds no precondition.
- No reader for the transfer form exists in the code. So the model proves that
  the envelope is injective, not that it round-trips.

## Model

| member | source | states |
|---|---|---|
| `Actions.Action.constructor` | spi/src/main/kotlin/org.opensearch.indexmanagement.spi/indexstatemanagement/Action.kt:20-27 | a new action has the given type and ordinal, no timeout, retry count `DEFAULT_RETRIES` (3), and is not custom |
| `Actions.Action.GetUpdatedActionMetadata` | spi/src/main/kotlin/org.opensearch.indexmanagement.spi/indexstatemanagement/Action.kt:56-69 | the result always has a start time and this action's ordinal; it is a fresh start (type, start = now, not failed, 0 retries, last retry 0, no step data) when the recorded state is absent or differs, or when the recorded action is absent or has another ordinal; otherwise it keeps every recorded field and sets only a null start time to now |
| `Actions.Action.IsLastStep` | spi/src/main/kotlin/org.opensearch.indexmanagement.spi/indexstatemanagement/Action.kt:89 | fails exactly when the step list is empty; is true exactly when the last step carries the name |
| `Actions.Action.IsFirstStep` | spi/src/main/kotlin/org.opensearch.indexmanagement.spi/indexstatemanagement/Action.kt:91 | fails exactly when the step list is empty; is true exactly when the first step carries the name |
| `Actions.ConfigTokens` | spi/src/main/kotlin/org.opensearch.indexmanagement.spi/indexstatemanagement/Action.kt:31-32 | one entry per configured value; the timeout comes first and the retry last; nothing opens or closes an object |
| `Actions.WrapsCustom` | spi/src/main/kotlin/org.opensearch.indexmanagement.spi/indexstatemanagement/Action.kt:35 | the wrapper applies exactly when the action is custom and `exclude_custom` is not given as true (an absent parameter counts as false) |
| `Actions.Action.PopulateAction` | spi/src/main/kotlin/org.opensearch.indexmanagement.spi/indexstatemanagement/Action.kt:45-47 | appends an empty object named after the action's type |
| `Actions.Action.WriteConfig` | spi/src/main/kotlin/org.opensearch.indexmanagement.spi/indexstatemanagement/Action.kt:31-32 | appends the configuration entries and nothing else |
| `Actions.Action.WriteBody` | spi/src/main/kotlin/org.opensearch.indexmanagement.spi/indexstatemanagement/Action.kt:35-37 | appends the body, inside a `"custom"` object exactly when the wrapper applies |
| `Actions.Action.ToXContent` | spi/src/main/kotlin/org.opensearch.indexmanagement.spi/indexstatemanagement/Action.kt:29-39 | appends exactly the structured form of the current configuration and returns the same builder |
| `Actions.Action.PopulateActionStream` | spi/src/main/kotlin/org.opensearch.indexmanagement.spi/indexstatemanagement/Action.kt:75-77 | appends the action's ordinal as one int |
| `Actions.Action.WriteTo` | spi/src/main/kotlin/org.opensearch.indexmanagement.spi/indexstatemanagement/Action.kt:49-54 | appends exactly the transfer form: type, optional timeout, optional retry, then the ordinal |
| `Stream.StreamOutput.WriteOptionalWriteable` | spi/src/main/kotlin/org.opensearch.indexmanagement.spi/indexstatemanagement/Action.kt:51-52 | appends a presence flag, then the object when there is one |
| `Stream.OptionalFormPrefixFree` | spi/src/main/kotlin/org.opensearch.indexmanagement.spi/indexstatemanagement/Action.kt:51-52 | an optional field can be split off whatever is written after it |
| `ActionLemmas.DefaultBodyBalanced` | spi/src/main/kotlin/org.opensearch.indexmanagement.spi/indexstatemanagement/Action.kt:45-47 | the default body opens exactly one object and closes it |
| `ActionLemmas.StructuredFormIsOneObject` | spi/src/main/kotlin/org.opensearch.indexmanagement.spi/indexstatemanagement/Action.kt:29-39 | for any balanced body the document is one object: it opens first, closes last, is balanced, and stays open in between, so the wrapper's opening and closing match |
| `ActionLemmas.StructuredFormLayout` | spi/src/main/kotlin/org.opensearch.indexmanagement.spi/indexstatemanagement/Action.kt:29-39 | the configuration entries come right after the opening, and the body follows them; under the wrapper the body sits at depth 2 between `"custom"` and its closing, and without it at depth 1 |
| `ActionLemmas.UnbalancedBodyBreaksEnvelope` | spi/src/main/kotlin/org.opensearch.indexmanagement.spi/indexstatemanagement/Action.kt:36-38 | an overriding body that closes two objects it never opened leaves the document unbalanced: the envelope does not guard against it |
| `ActionLemmas.CustomWrapperIff` | spi/src/main/kotlin/org.opensearch.indexmanagement.spi/indexstatemanagement/Action.kt:35-37 | the wrapped document equals the unwrapped one if and only if no wrapper is applied |
| `ActionLemmas.CustomActionLooksUniformIffExcluded` | spi/src/main/kotlin/org.opensearch.indexmanagement.spi/indexstatemanagement/Action.kt:33-37 | a custom action is written exactly like a non-custom one if and only if `exclude_custom` is true |
| `ActionLemmas.TransferFormLayout` | spi/src/main/kotlin/org.opensearch.indexmanagement.spi/indexstatemanagement/Action.kt:49-54 | the type comes first, then the timeout flag and timeout, then the retry flag and retry, and the payload is the suffix |
| `ActionLemmas.TransferFormInjective` | spi/src/main/kotlin/org.opensearch.indexmanagement.spi/indexstatemanagement/Action.kt:49-54 | equal streams come from equal type, timeout, retry and payload |
| `ActionLemmas.DefaultTransferEndsWithIndex` | spi/src/main/kotlin/org.opensearch.indexmanagement.spi/indexstatemanagement/Action.kt:75-77 | with the default payload the stream ends in the ordinal, and that is its only int |
| `ActionLemmas.NoRecordedStateStartsFresh` | spi/src/main/kotlin/org.opensearch.indexmanagement.spi/indexstatemanagement/Action.kt:57-63 | an index with no recorded state gets the fresh record |
| `ActionLemmas.FreshStartIgnoresPriorAction` | spi/src/main/kotlin/org.opensearch.indexmanagement.spi/indexstatemanagement/Action.kt:60-63 | when the state changed, the result does not depend on the recorded action metadata |
| `ActionLemmas.ShiftedActionStartsFresh` | spi/src/main/kotlin/org.opensearch.indexmanagement.spi/indexstatemanagement/Action.kt:64-65 | in the same state, recorded metadata for another ordinal gives the fresh record |
| `ActionLemmas.RetryResetSetsOnlyStartTime` | spi/src/main/kotlin/org.opensearch.indexmanagement.spi/indexstatemanagement/Action.kt:66-67 | after the retry API cleared the start time, the result is the recorded metadata with only the start time set to now |
| `ActionLemmas.RunningActionResumesUnchanged` | spi/src/main/kotlin/org.opensearch.indexmanagement.spi/indexstatemanagement/Action.kt:67 | with a recorded start time, the result is exactly the recorded metadata |
| `ActionLemmas.ReconcileIsStable` | spi/src/main/kotlin/org.opensearch.indexmanagement.spi/indexstatemanagement/Action.kt:60-68 | recording the result and reconciling again in the same state gives it back unchanged, at any later time |
| `ActionLemmas.ReconcileIsFreshOrResume` | spi/src/main/kotlin/org.opensearch.indexmanagement.spi/indexstatemanagement/Action.kt:60-68 | every result is a fresh start or a resumption of the recorded metadata |
| `ActionLemmas.RolloverFirstEntry` | spi/src/main/kotlin/org.opensearch.indexmanagement.spi/indexstatemanagement/Action.kt:62-63 | rollover at ordinal 0, with no lifecycle record, in state "hot", gets {rollover, now, 0, false, 0, 0, no step data} |
| `ActionLemmas.OwnEndStepsAreFirstAndLast` | spi/src/main/kotlin/org.opensearch.indexmanagement.spi/indexstatemanagement/Action.kt:89-91 | for a non-empty list the first step's name is first and the last step's name is last |
| `ActionLemmas.UnknownStepIsNeither` | spi/src/main/kotlin/org.opensearch.indexmanagement.spi/indexstatemanagement/Action.kt:89-91 | a name carried by no step is neither first nor last |
| `ActionLemmas.SingleStepFirstIsLast` | spi/src/main/kotlin/org.opensearch.indexmanagement.spi/indexstatemanagement/Action.kt:89-91 | with a single step, both queries agree on every name |
| `ActionLemmas.EmptyStepsFail` | spi/src/main/kotlin/org.opensearch.indexmanagement.spi/indexstatemanagement/Action.kt:89-91 | with no steps, both queries fail |

## Left out

- `getStepToExecute` (Action.kt:87) is abstract, so it has no behaviour in this file, and each variant decides it. It is not modelled.
- `getSteps` (Action.kt:82) is abstract. It becomes a constant step list fixed at construction, so it is deterministic and stable across calls.
- The variant overrides of `populateAction` are not modelled. Only the two defaults are. The one-object lemma holds for any balanced body, and the transfer lemmas for any payload, so they cover variants that write such bodies.
- The source does not protect the structured envelope from an unbalanced `populateAction` override: `toXContent` is `final` but `populateAction` is `open` (Action.kt:45), and a body that closes more objects than it opens breaks the document (`ActionLemmas.UnbalancedBodyBreaksEnvelope`).
- The serialisation of `ActionTimeout` and `ActionRetry` is opaque: one token or one stream object each. `ActionRetry`'s backoff and delay are left out.
- `ManagedIndexMetaData` and `StateMetaData` keep only the fields the contract reads. `ActionProperties` is an opaque map.
- `XContentBuilder` and `StreamOutput` are reduced to append-only sequences, and their byte encodings are left out.
- `ToXContent.Params` is reduced to a map from names to booleans. `paramAsBoolean`'s parsing of text values, and its error on malformed text, are left out.
- The wall clock `Instant.now()` is replaced by the `now` parameter.
- Reading a transfer stream back is left out, because the code has no reader. Injectivity of the envelope is proved instead.
- Kotlin `Int` and `Long` widths are not modelled, because the contract does no arithmetic on them.
- The variants' constructors and parsers assign the mutable configuration fields directly. There is no setter to model.
- Concurrency is left out. The engine must serialise reconciliation per index, and that is outside this core.
- The REST integration tests for getting and deleting policies send HTTP requests to a live cluster. They are not part of this model.
