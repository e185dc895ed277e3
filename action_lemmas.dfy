/** Properties of the action contract, stated over the envelopes and the class's functions. */
module ActionLemmas {
  import opened Wrappers
  import opened Metadata
  import opened XContent
  import opened Stream
  import opened Actions

  // ---------------------------------------------------------------------------
  // Structured envelope
  // ---------------------------------------------------------------------------

  /** The default body is one empty object, balanced on its own. */
  lemma DefaultBodyBalanced(actionType: string)
    ensures Balanced(DefaultBody(actionType))
  {
    Enclose(NamedObjectStart(actionType), []);
    assert [NamedObjectStart(actionType)] + [] + [ObjectEnd] == DefaultBody(actionType);
  }

  /**
   * For a balanced body the structured form is exactly one object: it opens
   * first, closes last, is balanced and stays open everywhere in between.
   */
  lemma StructuredFormIsOneObject(timeout: Option<ActionTimeout>, retry: Option<ActionRetry>,
                                  wrap: bool, body: seq<Token>)
    requires Balanced(body)
    ensures var s := StructuredForm(timeout, retry, wrap, body);
      s[0] == ObjectStart && s[|s| - 1] == ObjectEnd && Balanced(s) &&
      forall k :: 1 <= k < |s| ==> Depth(s[..k]) >= 1
  {
    var config := ConfigTokens(timeout, retry);
    var nested := Nested(wrap, body);
    StructuredFormShape(timeout, retry, wrap, body);
    EntriesBalanced(config);
    if wrap {
      Enclose(NamedObjectStart(CUSTOM_ACTION_FIELD), body);
    }
    BalancedAppend(config, nested);
    Enclose(ObjectStart, config + nested);
  }

  /** The body as it appears in the document: inside the wrapper or on its own. */
  function Nested(wrap: bool, body: seq<Token>): seq<Token> {
    if wrap then [NamedObjectStart(CUSTOM_ACTION_FIELD)] + body + [ObjectEnd] else body
  }

  /** The structured form is one object around the configuration entries and the nested body. */
  lemma StructuredFormShape(timeout: Option<ActionTimeout>, retry: Option<ActionRetry>,
                            wrap: bool, body: seq<Token>)
    ensures StructuredForm(timeout, retry, wrap, body)
            == [ObjectStart] + (ConfigTokens(timeout, retry) + Nested(wrap, body)) + [ObjectEnd]
  {
  }

  /**
   * Where each part sits in the structured form: the configuration entries
   * right after the opening, then the body, at nesting depth 2 under the
   * "custom" wrapper when wrap holds and at depth 1 otherwise.
   */
  lemma StructuredFormLayout(timeout: Option<ActionTimeout>, retry: Option<ActionRetry>,
                             wrap: bool, body: seq<Token>)
    ensures var s := StructuredForm(timeout, retry, wrap, body);
      var c := ConfigTokens(timeout, retry);
      var start := 1 + |c| + (if wrap then 1 else 0);
      |s| == start + |body| + (if wrap then 2 else 1) &&
      s[1..1 + |c|] == c &&
      s[start..start + |body|] == body &&
      Depth(s[..start]) == (if wrap then 2 else 1) &&
      (wrap ==> s[start - 1] == NamedObjectStart(CUSTOM_ACTION_FIELD) && s[start + |body|] == ObjectEnd)
  {
    var s := StructuredForm(timeout, retry, wrap, body);
    var c := ConfigTokens(timeout, retry);
    var head := [ObjectStart] + c + (if wrap then [NamedObjectStart(CUSTOM_ACTION_FIELD)] else []);
    var tail := if wrap then [ObjectEnd, ObjectEnd] else [ObjectEnd];
    assert s == head + body + tail;
    SplitThree(head, body, tail);
    SplitThree([ObjectStart], c, if wrap then [NamedObjectStart(CUSTOM_ACTION_FIELD)] else []);
    EntriesBalanced(c);
    SingleDepth(ObjectStart);
    DepthAppend([ObjectStart], c);
    if wrap {
      SingleDepth(NamedObjectStart(CUSTOM_ACTION_FIELD));
      DepthAppend([ObjectStart] + c, [NamedObjectStart(CUSTOM_ACTION_FIELD)]);
    } else {
      assert head == [ObjectStart] + c;
    }
  }

  /** The middle and the front of a three-part sequence can be cut back out. */
  lemma SplitThree(a: seq<Token>, b: seq<Token>, c: seq<Token>)
    ensures (a + b + c)[..|a|] == a
    ensures (a + b + c)[|a|..|a| + |b|] == b
  {
  }

  /** A single token changes the depth by its own delta. */
  lemma SingleDepth(t: Token)
    ensures Depth([t]) == Delta(t)
  {
    assert [t][..0] == [];
  }

  /**
   * The envelope does not repair its body: an override that closes two objects
   * it never opened leaves the whole document unbalanced.
   */
  lemma UnbalancedBodyBreaksEnvelope(timeout: Option<ActionTimeout>, retry: Option<ActionRetry>)
    ensures !Balanced(StructuredForm(timeout, retry, false, [ObjectEnd, ObjectEnd]))
  {
    var c := ConfigTokens(timeout, retry);
    var head := [ObjectStart] + c;
    var tail := [ObjectEnd, ObjectEnd, ObjectEnd];
    assert StructuredForm(timeout, retry, false, [ObjectEnd, ObjectEnd]) == head + tail;
    EntriesBalanced(c);
    DepthAppend([ObjectStart], c);
    DepthAppend(head, tail);
    SingleDepth(ObjectStart);
    ThreeClosesDepth();
  }

  /** Three closings lower the depth by three. */
  lemma ThreeClosesDepth()
    ensures Depth([ObjectEnd, ObjectEnd, ObjectEnd]) == -3
  {
    assert [ObjectEnd, ObjectEnd, ObjectEnd][..2] == [ObjectEnd, ObjectEnd];
    assert [ObjectEnd, ObjectEnd][..1] == [ObjectEnd];
    assert [ObjectEnd][..0] == [];
  }

  /** The wrapper changes the document, and only the wrapper does: forms agree iff there is none. */
  lemma CustomWrapperIff(timeout: Option<ActionTimeout>, retry: Option<ActionRetry>,
                         wrap: bool, body: seq<Token>)
    ensures StructuredForm(timeout, retry, wrap, body) == StructuredForm(timeout, retry, false, body)
            <==> !wrap
  {
    if wrap {
      assert |StructuredForm(timeout, retry, wrap, body)|
             == |StructuredForm(timeout, retry, false, body)| + 2;
    }
  }

  /**
   * A custom action is written exactly like a non-custom one precisely when
   * the request sets the exclude parameter to true.
   */
  lemma CustomActionLooksUniformIffExcluded(timeout: Option<ActionTimeout>, retry: Option<ActionRetry>,
                                            params: Params, body: seq<Token>)
    ensures StructuredForm(timeout, retry, WrapsCustom(true, params), body)
            == StructuredForm(timeout, retry, WrapsCustom(false, params), body)
            <==> ParamAsBoolean(params, EXCLUDE_CUSTOM_FIELD_PARAM, false)
  {
    CustomWrapperIff(timeout, retry, WrapsCustom(true, params), body);
  }

  // ---------------------------------------------------------------------------
  // Transfer envelope
  // ---------------------------------------------------------------------------

  /**
   * Where each part sits in the transfer form: the type first, then the
   * presence flag of the timeout (and the timeout), then that of the retry
   * (and the retry), then the payload as the suffix.
   */
  lemma TransferFormLayout(actionType: string, timeout: Option<ActionTimeout>,
                           retry: Option<ActionRetry>, payload: seq<WireItem>)
    ensures var s := TransferForm(actionType, timeout, retry, payload);
      var r := 2 + (if timeout.Some? then 1 else 0);
      |s| == r + 1 + (if retry.Some? then 1 else 0) + |payload| &&
      s[0] == WString(actionType) &&
      s[1] == WBool(timeout.Some?) &&
      (timeout.Some? ==> s[2] == WObject(TimeoutConfig(timeout.value))) &&
      s[r] == WBool(retry.Some?) &&
      (retry.Some? ==> s[r + 1] == WObject(RetryConfig(retry.value))) &&
      s[|s| - |payload|..] == payload
  {
  }

  /**
   * The transfer envelope loses nothing: equal streams come from equal type,
   * timeout, retry and payload.
   */
  lemma TransferFormInjective(type1: string, timeout1: Option<ActionTimeout>, retry1: Option<ActionRetry>,
                              payload1: seq<WireItem>,
                              type2: string, timeout2: Option<ActionTimeout>, retry2: Option<ActionRetry>,
                              payload2: seq<WireItem>)
    requires TransferForm(type1, timeout1, retry1, payload1) == TransferForm(type2, timeout2, retry2, payload2)
    ensures type1 == type2 && timeout1 == timeout2 && retry1 == retry2 && payload1 == payload2
  {
    var s := TransferForm(type1, timeout1, retry1, payload1);
    assert s[0] == WString(type1) && s[0] == WString(type2);
    var rest1 := OptionalForm(RetryWriteable(retry1)) + payload1;
    var rest2 := OptionalForm(RetryWriteable(retry2)) + payload2;
    assert s[1..] == OptionalForm(TimeoutWriteable(timeout1)) + rest1;
    assert s[1..] == OptionalForm(TimeoutWriteable(timeout2)) + rest2;
    OptionalFormPrefixFree(TimeoutWriteable(timeout1), rest1, TimeoutWriteable(timeout2), rest2);
    OptionalFormPrefixFree(RetryWriteable(retry1), payload1, RetryWriteable(retry2), payload2);
    assert timeout1 == timeout2 by {
      if timeout1.Some? { assert TimeoutWriteable(timeout2).value.timeout == timeout1.value; }
    }
    assert retry1 == retry2 by {
      if retry1.Some? { assert RetryWriteable(retry2).value.retry == retry1.value; }
    }
  }

  /** With the default payload the stream ends in the action's ordinal, and only there. */
  lemma DefaultTransferEndsWithIndex(actionType: string, timeout: Option<ActionTimeout>,
                                     retry: Option<ActionRetry>, actionIndex: int)
    ensures var s := TransferForm(actionType, timeout, retry, DefaultPayload(actionIndex));
      s[|s| - 1] == WInt(actionIndex) &&
      forall i :: 0 <= i < |s| - 1 ==> !s[i].WInt?
  {
  }

  // ---------------------------------------------------------------------------
  // Metadata reconciliation
  // ---------------------------------------------------------------------------

  /** An index with no recorded state always starts the action afresh. */
  lemma NoRecordedStateStartsFresh(a: Action, m: ManagedIndexMetaData, stateName: string, now: int)
    requires m.stateMetaData.None?
    ensures a.GetUpdatedActionMetadata(m, stateName, now)
            == ActionMetaData(a.actionType, Some(now), a.actionIndex, false, 0, Some(0), None)
  {
  }

  /** Entering a new state gives the same record whatever action metadata was recorded before. */
  lemma FreshStartIgnoresPriorAction(a: Action, m1: ManagedIndexMetaData, m2: ManagedIndexMetaData,
                                     stateName: string, now: int)
    requires !RecordedStateIs(m1, stateName) && !RecordedStateIs(m2, stateName)
    ensures a.GetUpdatedActionMetadata(m1, stateName, now) == a.GetUpdatedActionMetadata(m2, stateName, now)
  {
  }

  /** A policy edit that moved the action restarts it, even though the state is unchanged. */
  lemma ShiftedActionStartsFresh(a: Action, m: ManagedIndexMetaData, stateName: string, now: int)
    requires RecordedStateIs(m, stateName)
    requires m.actionMetaData.Some? && m.actionMetaData.value.index != a.actionIndex
    ensures a.GetUpdatedActionMetadata(m, stateName, now)
            == ActionMetaData(a.actionType, Some(now), a.actionIndex, false, 0, Some(0), None)
  {
  }

  /** After a retry-API reset only the start time changes: counters and failure flag survive. */
  lemma RetryResetSetsOnlyStartTime(a: Action, m: ManagedIndexMetaData, stateName: string, now: int)
    requires RecordedStateIs(m, stateName) && RecordedActionIs(m, a.actionIndex)
    requires m.actionMetaData.value.startTime.None?
    ensures a.GetUpdatedActionMetadata(m, stateName, now) == m.actionMetaData.value.(startTime := Some(now))
  {
  }

  /** A running action is resumed exactly as recorded. */
  lemma RunningActionResumesUnchanged(a: Action, m: ManagedIndexMetaData, stateName: string, now: int)
    requires RecordedStateIs(m, stateName) && RecordedActionIs(m, a.actionIndex)
    requires m.actionMetaData.value.startTime.Some?
    ensures a.GetUpdatedActionMetadata(m, stateName, now) == m.actionMetaData.value
  {
  }

  /**
   * Reconciling again, with the result recorded and the same state, returns
   * the result unchanged whatever the later time.
   */
  lemma ReconcileIsStable(a: Action, m: ManagedIndexMetaData, stateName: string, now: int, later: int)
    requires RecordedStateIs(m, stateName)
    ensures var r := a.GetUpdatedActionMetadata(m, stateName, now);
      a.GetUpdatedActionMetadata(m.(actionMetaData := Some(r)), stateName, later) == r
  {
  }

  /** Every result is either a fresh start or a resumption of the recorded metadata. */
  lemma ReconcileIsFreshOrResume(a: Action, m: ManagedIndexMetaData, stateName: string, now: int)
    ensures var r := a.GetUpdatedActionMetadata(m, stateName, now);
      IsFreshStart(r, a.actionType, a.actionIndex, now) ||
      (m.actionMetaData.Some? && IsResumeOf(r, m.actionMetaData.value, now))
  {
  }

  /** A rollover action at ordinal 0 on an index with no lifecycle record, processing "hot". */
  lemma RolloverFirstEntry(a: Action, now: int)
    requires a.actionType == "rollover" && a.actionIndex == 0
    ensures a.GetUpdatedActionMetadata(ManagedIndexMetaData(None, None), "hot", now)
            == ActionMetaData("rollover", Some(now), 0, false, 0, Some(0), None)
  {
  }

  // ---------------------------------------------------------------------------
  // Step position queries
  // ---------------------------------------------------------------------------

  /** The first step's name is first, the last step's name is last. */
  lemma OwnEndStepsAreFirstAndLast(a: Action)
    requires a.steps != []
    ensures a.IsFirstStep(a.steps[0].name) == Success(true)
    ensures a.IsLastStep(a.steps[|a.steps| - 1].name) == Success(true)
  {
  }

  /** A name that no step carries is neither first nor last. */
  lemma UnknownStepIsNeither(a: Action, stepName: string)
    requires a.steps != []
    requires forall i :: 0 <= i < |a.steps| ==> a.steps[i].name != stepName
    ensures a.IsFirstStep(stepName) == Success(false)
    ensures a.IsLastStep(stepName) == Success(false)
  {
  }

  /** With one step, first and last agree on every name. */
  lemma SingleStepFirstIsLast(a: Action, stepName: string)
    requires |a.steps| == 1
    ensures a.IsFirstStep(stepName) == a.IsLastStep(stepName)
  {
  }

  /** An empty step list makes both queries fail. */
  lemma EmptyStepsFail(a: Action, stepName: string)
    requires a.steps == []
    ensures a.IsFirstStep(stepName) == Failure(NoSuchElement)
    ensures a.IsLastStep(stepName) == Failure(NoSuchElement)
  {
  }
}
