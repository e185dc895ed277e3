/**
 * The structured-document builder as an append-only token sequence. Timeout and
 * retry configuration each write one opaque entry.
 */
module XContent {
  import opened Metadata

  datatype Token =
    | ObjectStart                       // startObject()
    | NamedObjectStart(name: string)    // startObject(name)
    | ObjectEnd                         // endObject()
    | TimeoutEntry(timeout: ActionTimeout)
    | RetryEntry(retry: ActionRetry)

  /** How a token changes the object nesting depth. */
  function Delta(t: Token): int {
    match t
    case ObjectStart => 1
    case NamedObjectStart(_) => 1
    case ObjectEnd => -1
    case TimeoutEntry(_) => 0
    case RetryEntry(_) => 0
  }

  /** Nesting depth after writing s, counted from the end so that prefixes unfold directly. */
  function Depth(s: seq<Token>): int {
    if s == [] then 0 else Depth(s[..|s| - 1]) + Delta(s[|s| - 1])
  }

  /** Every object opened in s is closed in s, and no object is closed before it is opened. */
  ghost predicate Balanced(s: seq<Token>) {
    Depth(s) == 0 && forall k :: 0 <= k <= |s| ==> Depth(s[..k]) >= 0
  }

  lemma {:induction false} DepthAppend(a: seq<Token>, b: seq<Token>)
    ensures Depth(a + b) == Depth(a) + Depth(b)
  {
    if b == [] {
      assert a + b == a;
    } else {
      assert (a + b)[..|a + b| - 1] == a + b[..|b| - 1];
      DepthAppend(a, b[..|b| - 1]);
    }
  }

  /** Writing two balanced sequences one after the other is balanced. */
  lemma BalancedAppend(a: seq<Token>, b: seq<Token>)
    requires Balanced(a) && Balanced(b)
    ensures Balanced(a + b)
  {
    DepthAppend(a, b);
    forall k | 0 <= k <= |a + b|
      ensures Depth((a + b)[..k]) >= 0
    {
      if k <= |a| {
        assert (a + b)[..k] == a[..k];
      } else {
        assert (a + b)[..k] == a + b[..k - |a|];
        DepthAppend(a, b[..k - |a|]);
      }
    }
  }

  /**
   * Opening an object, writing a balanced sequence and closing the object is
   * balanced, and the object stays open everywhere strictly inside.
   */
  lemma Enclose(open: Token, x: seq<Token>)
    requires Delta(open) == 1 && Balanced(x)
    ensures Balanced([open] + x + [ObjectEnd])
    ensures forall k :: 1 <= k <= |x| + 1 ==> Depth(([open] + x + [ObjectEnd])[..k]) >= 1
  {
    var s := [open] + x + [ObjectEnd];
    forall k | 1 <= k <= |x| + 1
      ensures Depth(s[..k]) >= 1
    {
      assert s[..k] == [open] + x[..k - 1];
      DepthAppend([open], x[..k - 1]);
      assert Depth([open]) == 1 by { assert [open][..0] == []; }
    }
    assert s[..|s|] == s;
    DepthAppend([open] + x, [ObjectEnd]);
    DepthAppend([open], x);
    assert Depth([open]) == 1 by { assert [open][..0] == []; }
    assert Depth([ObjectEnd]) == -1 by { assert [ObjectEnd][..0] == []; }
    assert s[..0] == [];
  }

  /** A sequence of entries alone opens and closes nothing. */
  lemma {:induction false} EntriesBalanced(s: seq<Token>)
    requires forall i :: 0 <= i < |s| ==> s[i].TimeoutEntry? || s[i].RetryEntry?
    ensures Balanced(s)
    ensures forall k :: 0 <= k <= |s| ==> Depth(s[..k]) == 0
  {
    if s != [] {
      var init := s[..|s| - 1];
      EntriesBalanced(init);
      forall k | 0 <= k <= |s|
        ensures Depth(s[..k]) == 0
      {
        if k < |s| {
          assert s[..k] == init[..k];
        } else {
          assert s[..k] == s;
          assert s[..|s| - 1] == init[..|init|];
        }
      }
    }
  }

  /** ToXContent.Params reduced to the one lookup the contract makes. */
  type Params = map<string, bool>

  /** paramAsBoolean(key, default): the value given for key, or the default when none is. */
  function ParamAsBoolean(params: Params, key: string, defaultValue: bool): bool {
    if key in params then params[key] else defaultValue
  }

  class XContentBuilder {
    var tokens: seq<Token>

    constructor ()
      ensures tokens == []
    {
      tokens := [];
    }

    method StartObject()
      modifies this
      ensures tokens == old(tokens) + [ObjectStart]
    {
      tokens := tokens + [ObjectStart];
    }

    method StartObjectNamed(name: string)
      modifies this
      ensures tokens == old(tokens) + [NamedObjectStart(name)]
    {
      tokens := tokens + [NamedObjectStart(name)];
    }

    method EndObject()
      modifies this
      ensures tokens == old(tokens) + [ObjectEnd]
    {
      tokens := tokens + [ObjectEnd];
    }

    /** ActionTimeout.toXContent, whose own layout is opaque here. */
    method WriteTimeout(t: ActionTimeout)
      modifies this
      ensures tokens == old(tokens) + [TimeoutEntry(t)]
    {
      tokens := tokens + [TimeoutEntry(t)];
    }

    /** ActionRetry.toXContent, whose own layout is opaque here. */
    method WriteRetry(r: ActionRetry)
      modifies this
      ensures tokens == old(tokens) + [RetryEntry(r)]
    {
      tokens := tokens + [RetryEntry(r)];
    }
  }
}
