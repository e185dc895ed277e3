/**
 * The inter-node transfer stream as an append-only item sequence. An optional
 * writeable is written as a presence flag followed, when present, by the object.
 */
module Stream {
  import opened Wrappers
  import opened Metadata

  /** The writeables the action envelope hands to the stream. */
  datatype Writeable = TimeoutConfig(timeout: ActionTimeout) | RetryConfig(retry: ActionRetry)

  datatype WireItem = WString(s: string) | WInt(i: int) | WBool(b: bool) | WObject(w: Writeable)

  /** What writeOptionalWriteable(w) appends. */
  function OptionalForm(w: Option<Writeable>): (r: seq<WireItem>)
    ensures |r| == if w.Some? then 2 else 1
  {
    match w
    case None => [WBool(false)]
    case Some(x) => [WBool(true), WObject(x)]
  }

  /** An optional field is self-delimiting: it can be split off whatever follows it. */
  lemma OptionalFormPrefixFree(w1: Option<Writeable>, rest1: seq<WireItem>,
                               w2: Option<Writeable>, rest2: seq<WireItem>)
    requires OptionalForm(w1) + rest1 == OptionalForm(w2) + rest2
    ensures w1 == w2 && rest1 == rest2
  {
    var s := OptionalForm(w1) + rest1;
    assert s[0] == WBool(w1.Some?) && s[0] == WBool(w2.Some?);
    if w1.Some? {
      assert s[1] == WObject(w1.value) && s[1] == WObject(w2.value);
    }
    assert rest1 == s[|OptionalForm(w1)|..];
    assert rest2 == s[|OptionalForm(w2)|..];
  }

  class StreamOutput {
    var items: seq<WireItem>

    constructor ()
      ensures items == []
    {
      items := [];
    }

    method WriteString(s: string)
      modifies this
      ensures items == old(items) + [WString(s)]
    {
      items := items + [WString(s)];
    }

    /** Kotlin Int values only; the model does no arithmetic on them. */
    method WriteInt(i: int)
      modifies this
      ensures items == old(items) + [WInt(i)]
    {
      items := items + [WInt(i)];
    }

    method WriteBoolean(b: bool)
      modifies this
      ensures items == old(items) + [WBool(b)]
    {
      items := items + [WBool(b)];
    }

    method WriteOptionalWriteable(w: Option<Writeable>)
      modifies this
      ensures items == old(items) + OptionalForm(w)
    {
      if w.Some? {
        WriteBoolean(true);
        items := items + [WObject(w.value)];
      } else {
        WriteBoolean(false);
      }
    }
  }
}
