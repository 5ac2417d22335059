/**
 * Views of a streamed response (a sequence of ChatResult chunks) that do not
 * depend on the dialect: the text the chunks carry and the role they announce.
 * A chunk whose first choice has no delta is skipped by every decoder.
 */
module Streams {
  import opened Wrappers
  import opened Text
  import opened ChatMessages

  function Prefix(ds: seq<ChatResult>): seq<ChatResult>
    requires ds != []
  {
    ds[..|ds| - 1]
  }

  function Last(ds: seq<ChatResult>): ChatResult
    requires ds != []
  {
    ds[|ds| - 1]
  }

  /** The content of a chunk's delta; None when the chunk has no delta. */
  function ContentOf(r: ChatResult): Option<string>
  {
    match FirstDelta(r)
    case None => None
    case Some(d) => d.content
  }

  /** A stored result (MostRecentApiResult) that the decoders edit has a first delta. */
  predicate SnapshotOk(s: Option<ChatResult>)
  {
    s.Some? ==> HasDelta(s.value)
  }

  /** The non-empty content fragments, in arrival order. */
  function NonEmptyContents(ds: seq<ChatResult>): seq<string>
  {
    if ds == [] then []
    else NonEmptyContents(Prefix(ds)) + (if IsNullOrEmpty(ContentOf(Last(ds))) then [] else [ContentOf(Last(ds)).value])
  }

  /** All content text of the stream, null fragments read as "". */
  function AllText(ds: seq<ChatResult>): string
  {
    if ds == [] then "" else AllText(Prefix(ds)) + Str(ContentOf(Last(ds)))
  }

  /** The first delta of the stream, if any chunk carries one. */
  function FirstPresent(ds: seq<ChatResult>): Option<ChatMessage>
  {
    if ds == [] then None
    else if FirstPresent(Prefix(ds)).Some? then FirstPresent(Prefix(ds))
    else FirstDelta(Last(ds))
  }

  /** `responseRole`: the role of the last delta that carried one. */
  function LastRole(ds: seq<ChatResult>): Option<Role>
  {
    if ds == [] then None
    else match FirstDelta(Last(ds))
      case Some(d) => if d.role.Some? then d.role else LastRole(Prefix(ds))
      case None => LastRole(Prefix(ds))
  }

  predicate AnnouncesRole(r: ChatResult)
  {
    FirstDelta(r).Some? && FirstDelta(r).value.role.Some?
  }

  /** A role is remembered exactly when some delta of the stream carried one. */
  lemma {:induction false} LastRoleSeen(ds: seq<ChatResult>)
    ensures LastRole(ds).Some? <==> exists k :: 0 <= k < |ds| && AnnouncesRole(ds[k])
    decreases |ds|
  {
    if ds != [] {
      LastRoleSeen(Prefix(ds));
      if LastRole(ds).Some? && !AnnouncesRole(Last(ds)) {
        var k :| 0 <= k < |Prefix(ds)| && AnnouncesRole(Prefix(ds)[k]);
        assert ds[k] == Prefix(ds)[k];
      }
      if exists k :: 0 <= k < |ds| && AnnouncesRole(ds[k]) {
        var k :| 0 <= k < |ds| && AnnouncesRole(ds[k]);
        if k < |ds| - 1 {
          assert Prefix(ds)[k] == ds[k];
        }
      }
    }
  }

  /** The whole text is exactly the concatenation of the non-empty fragments. */
  lemma {:induction false} AllTextIsJoin(ds: seq<ChatResult>)
    ensures AllText(ds) == Join(NonEmptyContents(ds))
    decreases |ds|
  {
    if ds != [] {
      AllTextIsJoin(Prefix(ds));
      var tail := if IsNullOrEmpty(ContentOf(Last(ds))) then [] else [ContentOf(Last(ds)).value];
      JoinAppend(NonEmptyContents(Prefix(ds)), tail);
      assert Join([ ]) == "";
    }
  }

  /** Splitting the stream splits its text. */
  lemma {:induction false} AllTextAppend(p: seq<ChatResult>, q: seq<ChatResult>)
    ensures AllText(p + q) == AllText(p) + AllText(q)
    decreases |q|
  {
    if q == [] {
      assert p + q == p;
    } else {
      assert Prefix(p + q) == p + Prefix(q);
      assert Last(p + q) == Last(q);
      AllTextAppend(p, Prefix(q));
      var a, b, c := AllText(p), AllText(Prefix(q)), Str(ContentOf(Last(q)));
      assert AllText(p + q) == (a + b) + c;
      assert AllText(q) == b + c;
      assert (a + b) + c == a + (b + c);
    }
  }

  /** The joined non-empty fragments are empty only when there are none. */
  lemma {:induction false} JoinNonEmptyContents(ds: seq<ChatResult>)
    ensures Join(NonEmptyContents(ds)) == "" <==> NonEmptyContents(ds) == []
    decreases |ds|
  {
    if ds != [] {
      JoinNonEmptyContents(Prefix(ds));
      var tail := if IsNullOrEmpty(ContentOf(Last(ds))) then [] else [ContentOf(Last(ds)).value];
      JoinAppend(NonEmptyContents(Prefix(ds)), tail);
      assert Join([ ]) == "";
    }
  }

  /** The first delta of a prefix that has one is the first delta of the whole stream. */
  lemma {:induction false} FirstPresentPrefix(ds: seq<ChatResult>, i: nat)
    requires i <= |ds| && FirstPresent(ds[..i]).Some?
    ensures FirstPresent(ds) == FirstPresent(ds[..i])
    decreases |ds|
  {
    if i < |ds| {
      assert Prefix(ds)[..i] == ds[..i];
      FirstPresentPrefix(Prefix(ds), i);
    } else {
      assert ds[..i] == ds;
    }
  }

  /** A stream none of whose deltas carries content. */
  predicate Silent(ds: seq<ChatResult>)
  {
    forall k :: 0 <= k < |ds| ==> IsNullOrEmpty(ContentOf(ds[k]))
  }

  lemma {:induction false} SilentHasNoContents(ds: seq<ChatResult>)
    requires Silent(ds)
    ensures NonEmptyContents(ds) == []
    decreases |ds|
  {
    if ds != [] {
      assert forall k :: 0 <= k < |Prefix(ds)| ==> Prefix(ds)[k] == ds[k];
      SilentHasNoContents(Prefix(ds));
      assert Last(ds) == ds[|ds| - 1];
    }
  }

  // The stored result of a stream whose text is already a tool call.

  /** `n` empty yields: the markers forwarded for parsed tool calls. */
  function Blanks(n: nat): (r: seq<string>)
    ensures |r| == n && forall i :: 0 <= i < n ==> r[i] == ""
  {
    if n == 0 then [] else Blanks(n - 1) + [""]
  }

  /** `MostRecentApiResult ??= res` for a chunk whose delta carries no content. */
  function StoreFirst(snap: Option<ChatResult>, r: ChatResult): Option<ChatResult>
  {
    if snap.None? && HasDelta(r) && IsNullOrEmpty(ContentOf(r)) then Some(r) else snap
  }

  /** The result stored after chunks `q`: the one stored before, else the first content-less delta. */
  function FirstStored(snap: Option<ChatResult>, q: seq<ChatResult>): (s: Option<ChatResult>)
    ensures snap.Some? ==> s == snap
    ensures SnapshotOk(snap) ==> SnapshotOk(s)
  {
    if q == [] then snap else StoreFirst(FirstStored(snap, Prefix(q)), Last(q))
  }

  /** The stored result `s` after the tool calls `calls` were recorded on it in turn. */
  function Recorded(s: Option<ChatResult>, calls: seq<FunctionCall>): (t: Option<ChatResult>)
    requires SnapshotOk(s)
    ensures t.Some? == s.Some? && SnapshotOk(t)
    ensures s.Some? && calls != [] ==> CallOf(t.value) == Some(calls[|calls| - 1]) && FinishOf(t.value) == Some("function_call")
  {
    if calls == [] || s.None? then s else Some(RecordToolCall(s.value, calls[|calls| - 1]))
  }

  /** One more chunk: it records the call `c` it parsed, or else may be stored. */
  lemma RecordedStep(s: Option<ChatResult>, calls: seq<FunctionCall>, r: ChatResult, c: Option<FunctionCall>)
    requires SnapshotOk(s) && (calls != [] ==> s.Some?) && (c.Some? ==> s.Some?)
    ensures var t := Recorded(s, calls);
      (if c.Some? then Some(RecordToolCall(t.value, c.value)) else StoreFirst(t, r)) ==
      Recorded(StoreFirst(s, r), calls + if c.Some? then [c.value] else [])
  {
    if c.Some? && calls != [] {
      RecordToolCallTwice(s.value, calls[|calls| - 1], c.value);
    }
  }
}
