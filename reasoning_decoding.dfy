/**
 * The decoders of reasoning models: DeepSeek R1, which receives its
 * reasoning on a separate delta field (Conversation.cs:394-445), and QwQ,
 * which receives it inline in the content, closed by a "</think>" fragment,
 * and may emit a <tool_call> block anywhere (Conversation.cs:554-623).
 * Neither ever appends to the history.
 */
module ReasoningDecoding {
  import opened Wrappers
  import opened Text
  import opened ChatMessages
  import opened Streams
  import opened ToolCallTags

  // ---------------------------------------------------------------- R1

  /** A delta carrying neither reasoning nor content. */
  predicate Quiet(d: ChatMessage)
  {
    IsNullOrEmpty(d.reasoningContent) && IsNullOrEmpty(d.content)
  }

  /**
   * The R1 decoder edits the stored result from the first fragment that
   * speaks, but stores a result only on a quiet delta: the first delta of
   * the stream must be quiet.
   */
  predicate R1Ready(ds: seq<ChatResult>)
  {
    FirstPresent(ds).None? || Quiet(FirstPresent(ds).value)
  }

  datatype R1State = R1State(out: seq<string>, snapshot: Option<ChatResult>)

  function R1Step(st: R1State, r: ChatResult): (st': R1State)
    requires SnapshotOk(st.snapshot)
    requires HasDelta(r) && !Quiet(Delta0(r)) ==> st.snapshot.Some?
    ensures SnapshotOk(st'.snapshot)
  {
    match FirstDelta(r)
    case None => st
    case Some(d) =>
      if !IsNullOrEmpty(d.reasoningContent) then
        R1State(st.out + [d.reasoningContent.value],
                Some(AddReasoning(SetThinking(st.snapshot.value, true), d.reasoningContent)))
      else if !IsNullOrEmpty(d.content) then
        var s := st.snapshot.value;
        var s1 := if Delta0(s).thinking && !IsNullOrEmpty(Delta0(s).reasoningContent) then SetThinking(s, false) else s;
        R1State(st.out + [d.content.value], Some(AddContent(s1, d.content)))
      else if st.snapshot.None? then st.(snapshot := Some(r))
      else st
  }

  /** The R1 decoder's state after `ds`: a result is stored as soon as a delta arrives. */
  function R1Run(ds: seq<ChatResult>): (st: R1State)
    requires R1Ready(ds)
    ensures SnapshotOk(st.snapshot)
    ensures st.snapshot.Some? <==> FirstPresent(ds).Some?
  {
    if ds == [] then R1State([], None)
    else R1Step(R1Run(Prefix(ds)), Last(ds))
  }

  /** The non-empty reasoning fragments, in arrival order. */
  function Reasonings(ds: seq<ChatResult>): seq<string>
  {
    if ds == [] then []
    else
      var r := Last(ds);
      var x := if HasDelta(r) && !IsNullOrEmpty(Delta0(r).reasoningContent) then [Delta0(r).reasoningContent.value] else [];
      Reasonings(Prefix(ds)) + x
  }

  /** The content fragments of deltas that carry no reasoning, in arrival order. */
  function Answers(ds: seq<ChatResult>): seq<string>
  {
    if ds == [] then []
    else
      var r := Last(ds);
      var x := if HasDelta(r) && IsNullOrEmpty(Delta0(r).reasoningContent) && !IsNullOrEmpty(ContentOf(r))
        then [ContentOf(r).value] else [];
      Answers(Prefix(ds)) + x
  }

  /** Whether the last delta that spoke spoke reasoning (Some(true)) or an answer (Some(false)). */
  function LastSpoke(ds: seq<ChatResult>): Option<bool>
  {
    if ds == [] then None
    else if HasDelta(Last(ds)) && !Quiet(Delta0(Last(ds))) then Some(!IsNullOrEmpty(Delta0(Last(ds)).reasoningContent))
    else LastSpoke(Prefix(ds))
  }

  /** The stored delta holds both channels and the thinking flag the reference gives. */
  predicate R1Collected(ds: seq<ChatResult>)
    requires R1Ready(ds) && FirstPresent(ds).Some?
  {
    var s := Delta0(R1Run(ds).snapshot.value);
    Str(s.reasoningContent) == Join(Reasonings(ds)) &&
    Str(s.content) == Join(Answers(ds)) &&
    s.thinking == if Reasonings(ds) == [] then FirstPresent(ds).value.thinking else LastSpoke(ds) == Some(true)
  }

  /**
   * The stored result collects the whole reasoning channel and the whole
   * answer channel, each in arrival order, and it is marked as thinking
   * exactly when the last fragment spoken was reasoning (before any
   * reasoning it keeps the first delta's flag).
   */
  lemma {:induction false} R1Accumulates(ds: seq<ChatResult>)
    requires R1Ready(ds) && FirstPresent(ds).Some?
    ensures Str(Delta0(R1Run(ds).snapshot.value).reasoningContent) == Join(Reasonings(ds))
    ensures Str(Delta0(R1Run(ds).snapshot.value).content) == Join(Answers(ds))
    ensures Delta0(R1Run(ds).snapshot.value).thinking ==
      if Reasonings(ds) == [] then FirstPresent(ds).value.thinking else LastSpoke(ds) == Some(true)
    decreases |ds|
  {
    var p := Prefix(ds);
    if FirstPresent(p).None? {
      R1FirstQuiet(ds);
    } else {
      R1Accumulates(p);
      R1CollectedStep(ds);
    }
  }

  /** The first delta is stored as it is: quiet, so both channels are empty. */
  lemma R1FirstQuiet(ds: seq<ChatResult>)
    requires ds != [] && R1Ready(ds) && FirstPresent(ds).Some? && FirstPresent(Prefix(ds)).None?
    ensures R1Collected(ds)
  {
    var p := Prefix(ds);
    NothingSpokenYet(p);
    assert R1Run(ds) == R1Step(R1Run(p), Last(ds));
  }

  /** One more chunk after the first delta keeps the stored result collected. */
  lemma R1CollectedStep(ds: seq<ChatResult>)
    requires ds != [] && R1Ready(ds) && FirstPresent(Prefix(ds)).Some?
    requires R1Ready(Prefix(ds)) && R1Collected(Prefix(ds))
    ensures FirstPresent(ds).Some? && R1Collected(ds)
  {
    var p := Prefix(ds);
    var r := Last(ds);
    assert FirstPresent(ds) == FirstPresent(p);
    var st := R1Run(p);
    assert R1Run(ds) == R1Step(st, r);
    R1StepEdits(st, r);
    var s := Delta0(st.snapshot.value);
    var s' := Delta0(R1Run(ds).snapshot.value);
    assert Str(s.reasoningContent) == Join(Reasonings(p));
    assert Str(s.content) == Join(Answers(p));
    if HasDelta(r) && !IsNullOrEmpty(Delta0(r).reasoningContent) {
      R1ReasoningStep(ds);
      assert Str(s'.reasoningContent) == Join(Reasonings(ds));
      assert Str(s'.content) == Join(Answers(ds));
    } else if HasDelta(r) && !IsNullOrEmpty(Delta0(r).content) {
      R1AnswerStep(ds);
      assert Str(s'.reasoningContent) == Join(Reasonings(ds));
      assert Str(s'.content) == Join(Answers(ds));
    } else {
      assert LastSpoke(ds) == LastSpoke(p);
      assert Reasonings(ds) == Reasonings(p) + [];
      assert Answers(ds) == Answers(p) + [];
      assert Reasonings(ds) == Reasonings(p) && Answers(ds) == Answers(p);
      assert s' == s;
    }
  }

  /** A reasoning fragment extends the reasoning channel only. */
  lemma R1ReasoningStep(ds: seq<ChatResult>)
    requires ds != [] && HasDelta(Last(ds)) && !IsNullOrEmpty(Delta0(Last(ds)).reasoningContent)
    ensures
      var x := Delta0(Last(ds)).reasoningContent.value;
      Join(Reasonings(ds)) == Join(Reasonings(Prefix(ds))) + x && Reasonings(ds) != [] &&
      Answers(ds) == Answers(Prefix(ds)) && LastSpoke(ds) == Some(true)
  {
    var p := Prefix(ds);
    var x := Delta0(Last(ds)).reasoningContent.value;
    assert Reasonings(ds) == Reasonings(p) + [x];
    assert Join(Reasonings(p) + [x]) == Join(Reasonings(p)) + x;
    assert Answers(ds) == Answers(p) + [];
  }

  /** An answer fragment extends the answer channel only and ends any reasoning. */
  lemma R1AnswerStep(ds: seq<ChatResult>)
    requires ds != [] && HasDelta(Last(ds))
    requires IsNullOrEmpty(Delta0(Last(ds)).reasoningContent) && !IsNullOrEmpty(Delta0(Last(ds)).content)
    ensures
      var x := Delta0(Last(ds)).content.value;
      Join(Answers(ds)) == Join(Answers(Prefix(ds))) + x &&
      Reasonings(ds) == Reasonings(Prefix(ds)) && LastSpoke(ds) == Some(false) &&
      (Reasonings(ds) != [] ==> Join(Reasonings(ds)) != "")
  {
    var p := Prefix(ds);
    var x := Delta0(Last(ds)).content.value;
    assert Answers(ds) == Answers(p) + [x];
    assert Join(Answers(p) + [x]) == Join(Answers(p)) + x;
    assert Reasonings(ds) == Reasonings(p) + [];
    if Reasonings(p) != [] {
      var rs := Reasonings(p);
      NonEmptyReasonings(p);
      assert Join(rs) == Join(rs[..|rs| - 1]) + rs[|rs| - 1];
    }
  }

  /** What one chunk does to the stored delta once a result is stored. */
  lemma R1StepEdits(st: R1State, r: ChatResult)
    requires SnapshotOk(st.snapshot) && st.snapshot.Some?
    ensures R1Step(st, r).snapshot.Some?
    ensures
      var s := Delta0(st.snapshot.value);
      var s' := Delta0(R1Step(st, r).snapshot.value);
      if HasDelta(r) && !IsNullOrEmpty(Delta0(r).reasoningContent) then
        Str(s'.reasoningContent) == Str(s.reasoningContent) + Delta0(r).reasoningContent.value &&
        s'.content == s.content && s'.thinking
      else if HasDelta(r) && !IsNullOrEmpty(Delta0(r).content) then
        Str(s'.content) == Str(s.content) + Delta0(r).content.value &&
        s'.reasoningContent == s.reasoningContent &&
        s'.thinking == (s.thinking && IsNullOrEmpty(s.reasoningContent))
      else s' == s
  {
  }

  lemma {:induction false} NothingSpokenYet(ds: seq<ChatResult>)
    requires FirstPresent(ds).None?
    ensures Reasonings(ds) == [] && Answers(ds) == []
    decreases |ds|
  {
    if ds != [] {
      NothingSpokenYet(Prefix(ds));
    }
  }

  lemma {:induction false} NonEmptyReasonings(ds: seq<ChatResult>)
    ensures forall k :: 0 <= k < |Reasonings(ds)| ==> Reasonings(ds)[k] != ""
    decreases |ds|
  {
    if ds != [] {
      NonEmptyReasonings(Prefix(ds));
    }
  }

  /** The fragments R1 forwards: each delta's reasoning, or else its content. */
  function Spoken(ds: seq<ChatResult>): seq<string>
  {
    if ds == [] then []
    else
      var r := Last(ds);
      var x :=
        if !HasDelta(r) || Quiet(Delta0(r)) then []
        else if !IsNullOrEmpty(Delta0(r).reasoningContent) then [Delta0(r).reasoningContent.value]
        else [Delta0(r).content.value];
      Spoken(Prefix(ds)) + x
  }

  /**
   * R1 forwards every spoken fragment in arrival order; on a stream without
   * reasoning it behaves like the plain decoder.
   */
  lemma {:induction false} R1Forwards(ds: seq<ChatResult>)
    requires R1Ready(ds)
    ensures R1Run(ds).out == Spoken(ds)
    ensures Reasonings(ds) == [] ==> R1Run(ds).out == NonEmptyContents(ds)
    decreases |ds|
  {
    if ds != [] {
      R1Forwards(Prefix(ds));
      if Reasonings(ds) == [] {
        assert Reasonings(Prefix(ds)) == [] by {
          assert Reasonings(Prefix(ds)) <= Reasonings(ds);
        }
      }
    }
  }

  // ---------------------------------------------------------------- QwQ

  const CloseThink := "</think>"

  /**
   * QwQ edits the stored result for the first content fragment unless a tool
   * tag is already buffered: the first delta's content must be empty or
   * contain an opening tag.
   */
  predicate QwQReady(ds: seq<ChatResult>)
  {
    FirstPresent(ds).None? || IsNullOrEmpty(FirstPresent(ds).value.content) ||
    Contains(FirstPresent(ds).value.content.value, OpenTag)
  }

  datatype QwQState = QwQState(out: seq<string>, snapshot: Option<ChatResult>, buffer: string)

  function QwQStep(st: QwQState, r: ChatResult, json: string -> JsonParse): (st': QwQState)
    requires SnapshotOk(st.snapshot)
    requires st.snapshot.None? && !IsNullOrEmpty(ContentOf(r)) ==> Contains(st.buffer + ContentOf(r).value, OpenTag)
    ensures SnapshotOk(st'.snapshot)
    ensures st'.buffer == st.buffer + Str(ContentOf(r))
  {
    match FirstDelta(r)
    case None => st
    case Some(d) =>
      var snap := if |st.buffer| == 0 && st.snapshot.Some? then Some(SetThinking(st.snapshot.value, true)) else st.snapshot;
      var buffer := st.buffer + Str(d.content);
      if IsNullOrEmpty(d.content) then
        QwQState(st.out, if snap.None? then Some(r) else snap, buffer)
      else match IndexOf(buffer, OpenTag)
        case Some(k) =>
          var call := ProcessStreamChunkQwen(buffer[k..], json);
          if call.Some? && snap.Some? then QwQState(st.out + [""], Some(RecordToolCall(snap.value, call.value)), buffer)
          else QwQState(st.out, snap, buffer)
        case None =>
          var s := snap.value;
          if d.content.value == CloseThink then QwQState(st.out + [""], Some(SetThinking(s, false)), buffer)
          else if Delta0(s).thinking then QwQState(st.out + [d.content.value], Some(AddReasoning(s, d.content)), buffer)
          else QwQState(st.out + [d.content.value], Some(AddContent(s, d.content)), buffer)
  }

  /**
   * The QwQ decoder's state after `ds`. The buffer holds all content text;
   * a result is stored once a delta arrives unless the stream opened with a
   * tool tag.
   */
  function QwQRun(ds: seq<ChatResult>, json: string -> JsonParse): (st: QwQState)
    requires QwQReady(ds)
    ensures SnapshotOk(st.snapshot)
    ensures st.buffer == AllText(ds)
    ensures st.snapshot.None? && FirstPresent(ds).Some? ==> Contains(st.buffer, OpenTag)
    ensures FirstPresent(ds).None? ==> st.snapshot.None?
  {
    if ds == [] then QwQState([], None, "")
    else
      var st := QwQRun(Prefix(ds), json);
      var c := ContentOf(Last(ds));
      if st.snapshot.None? && !IsNullOrEmpty(c) then
        TagBuffered(st.buffer, c.value, FirstPresent(Prefix(ds)).Some?);
        QwQStep(st, Last(ds), json)
      else QwQStep(st, Last(ds), json)
  }

  lemma TagBuffered(b: string, x: string, earlier: bool)
    requires earlier ==> Contains(b, OpenTag)
    requires !earlier ==> Contains(x, OpenTag)
    ensures Contains(b + x, OpenTag)
  {
    if earlier {
      ContainsExtend(b, OpenTag, x);
    } else {
      ContainsPrepend(b, x, OpenTag);
    }
  }

  /** What QwQ yields for the content fragments of a tag-free stream. */
  function ThinkYields(cs: seq<string>): seq<string>
  {
    if cs == [] then []
    else ThinkYields(cs[..|cs| - 1]) + [if cs[|cs| - 1] == CloseThink then "" else cs[|cs| - 1]]
  }

  /** The fragments before the first "</think>". */
  function BeforeThink(cs: seq<string>): seq<string>
  {
    if cs == [] then []
    else BeforeThink(cs[..|cs| - 1]) + (if CloseThink in cs then [] else [cs[|cs| - 1]])
  }

  /** The fragments after the first "</think>", other "</think>" fragments left out. */
  function AfterThink(cs: seq<string>): seq<string>
  {
    if cs == [] then []
    else
      var x := if CloseThink in cs[..|cs| - 1] && cs[|cs| - 1] != CloseThink then [cs[|cs| - 1]] else [];
      AfterThink(cs[..|cs| - 1]) + x
  }

  /** One chunk of a tag-free stream, once a result is stored or the chunk is quiet. */
  lemma QwQPlainStep(st: QwQState, r: ChatResult, json: string -> JsonParse)
    requires SnapshotOk(st.snapshot) && HasDelta(r)
    requires !Contains(st.buffer + Str(ContentOf(r)), OpenTag)
    requires !IsNullOrEmpty(ContentOf(r)) ==> st.snapshot.Some?
    ensures QwQStep(st, r, json).snapshot.Some?
    ensures IsNullOrEmpty(ContentOf(r)) ==>
      QwQStep(st, r, json).out == st.out &&
      (st.snapshot.None? ==> QwQStep(st, r, json).snapshot == Some(r)) &&
      (st.snapshot.Some? ==>
        Delta0(QwQStep(st, r, json).snapshot.value).reasoningContent == Delta0(st.snapshot.value).reasoningContent &&
        Delta0(QwQStep(st, r, json).snapshot.value).content == Delta0(st.snapshot.value).content)
    ensures !IsNullOrEmpty(ContentOf(r)) ==>
      var x := ContentOf(r).value;
      var s := Delta0(st.snapshot.value);
      var s' := Delta0(QwQStep(st, r, json).snapshot.value);
      var thinking := |st.buffer| == 0 || s.thinking;
      QwQStep(st, r, json).out == st.out + [if x == CloseThink then "" else x] &&
      Str(s'.reasoningContent) == Str(s.reasoningContent) + (if x != CloseThink && thinking then x else "") &&
      Str(s'.content) == Str(s.content) + (if x != CloseThink && !thinking then x else "") &&
      s'.thinking == (thinking && x != CloseThink)
  {
  }

  /**
   * The stored result of a tag-free stream whose first delta is `first` and
   * whose non-empty content fragments are `cs`.
   */
  predicate Splits(st: QwQState, first: ChatMessage, cs: seq<string>)
  {
    st.snapshot.Some? && HasDelta(st.snapshot.value) &&
    var s := Delta0(st.snapshot.value);
    Str(s.reasoningContent) == Str(first.reasoningContent) + Join(BeforeThink(cs)) &&
    Str(s.content) == Join(AfterThink(cs)) &&
    (cs != [] ==> (s.thinking <==> CloseThink !in cs))
  }

  lemma SplitsStep(st: QwQState, r: ChatResult, json: string -> JsonParse, first: ChatMessage, cs: seq<string>)
    requires Splits(st, first, cs) && HasDelta(r) && !IsNullOrEmpty(ContentOf(r))
    requires !Contains(st.buffer + Str(ContentOf(r)), OpenTag)
    requires |st.buffer| == 0 <==> cs == []
    ensures Splits(QwQStep(st, r, json), first, cs + [ContentOf(r).value])
    ensures QwQStep(st, r, json).out == st.out + [if ContentOf(r).value == CloseThink then "" else ContentOf(r).value]
  {
    var x := ContentOf(r).value;
    QwQPlainStep(st, r, json);
    var st' := QwQStep(st, r, json);
    SplitsExtend(Delta0(st.snapshot.value), Delta0(st'.snapshot.value), first, cs, x, |st.buffer| == 0);
  }

  /** The text bookkeeping behind `SplitsStep`, on the stored deltas alone. */
  lemma SplitsExtend(prev: ChatMessage, next: ChatMessage, first: ChatMessage, cs: seq<string>, x: string, opening: bool)
    requires opening <==> cs == []
    requires Str(prev.reasoningContent) == Str(first.reasoningContent) + Join(BeforeThink(cs))
    requires Str(prev.content) == Join(AfterThink(cs))
    requires cs != [] ==> (prev.thinking <==> CloseThink !in cs)
    requires
      var thinking := opening || prev.thinking;
      Str(next.reasoningContent) == Str(prev.reasoningContent) + (if x != CloseThink && thinking then x else "") &&
      Str(next.content) == Str(prev.content) + (if x != CloseThink && !thinking then x else "") &&
      next.thinking == (thinking && x != CloseThink)
    ensures Str(next.reasoningContent) == Str(first.reasoningContent) + Join(BeforeThink(cs + [x]))
    ensures Str(next.content) == Join(AfterThink(cs + [x]))
    ensures next.thinking <==> CloseThink !in cs + [x]
  {
    ThinkAppend(cs, x);
    var thinking := opening || prev.thinking;
    assert thinking <==> CloseThink !in cs;
    var take := x != CloseThink && thinking;
    assert Join(BeforeThink(cs + [x])) == Join(BeforeThink(cs)) + (if take then x else "");
    TextGrows(Str(first.reasoningContent), Join(BeforeThink(cs)), Str(next.reasoningContent), x, take);
    var give := x != CloseThink && !thinking;
    assert Join(AfterThink(cs + [x])) == Join(AfterThink(cs)) + (if give then x else "");
    TextGrows("", Join(AfterThink(cs)), Str(next.content), x, give);
  }

  /** Appending `x` (when `take`) to a text made of a head and a tail. */
  lemma TextGrows(head: string, tail: string, grown: string, x: string, take: bool)
    requires grown == head + tail + (if take then x else "")
    ensures grown == head + (tail + if take then x else "")
  {
  }

  /** How one more fragment extends the text before and after the first "</think>". */
  lemma ThinkAppend(cs: seq<string>, x: string)
    ensures CloseThink in cs + [x] <==> CloseThink in cs || x == CloseThink
    ensures Join(BeforeThink(cs + [x])) == Join(BeforeThink(cs)) + (if x != CloseThink && CloseThink !in cs then x else "")
    ensures Join(AfterThink(cs + [x])) == Join(AfterThink(cs)) + (if x != CloseThink && CloseThink in cs then x else "")
  {
    ThinkListsAppend(cs, x);
    var before := if x != CloseThink && CloseThink !in cs then [x] else [];
    var after := if x != CloseThink && CloseThink in cs then [x] else [];
    JoinAppend(BeforeThink(cs), before);
    JoinAppend(AfterThink(cs), after);
    assert Join([x]) == Join([]) + x;
    assert Join(before) == if x != CloseThink && CloseThink !in cs then x else "";
    assert Join(after) == if x != CloseThink && CloseThink in cs then x else "";
  }

  /** `ThinkAppend` on the fragment lists themselves. */
  lemma ThinkListsAppend(cs: seq<string>, x: string)
    ensures CloseThink in cs + [x] <==> CloseThink in cs || x == CloseThink
    ensures BeforeThink(cs + [x]) == BeforeThink(cs) + (if x != CloseThink && CloseThink !in cs then [x] else [])
    ensures AfterThink(cs + [x]) == AfterThink(cs) + (if x != CloseThink && CloseThink in cs then [x] else [])
  {
    var cs' := cs + [x];
    assert cs'[..|cs'| - 1] == cs;
    assert cs'[|cs'| - 1] == x;
    assert CloseThink in cs' <==> CloseThink in cs || x == CloseThink by {
      if CloseThink in cs' {
        var k :| 0 <= k < |cs'| && cs'[k] == CloseThink;
        if k < |cs| {
          assert cs[k] == CloseThink;
        }
      }
      if CloseThink in cs {
        var k :| 0 <= k < |cs| && cs[k] == CloseThink;
        assert cs'[k] == CloseThink;
      }
    }
  }

  /** A quiet chunk: the first one is stored, a later one changes no text. */
  lemma SplitsQuiet(st: QwQState, r: ChatResult, json: string -> JsonParse, first: ChatMessage, cs: seq<string>)
    requires SnapshotOk(st.snapshot) && HasDelta(r) && IsNullOrEmpty(ContentOf(r))
    requires !Contains(st.buffer, OpenTag)
    requires st.snapshot.None? ==> first == Delta0(r) && cs == []
    requires st.snapshot.Some? ==> Splits(st, first, cs)
    requires cs != [] ==> |st.buffer| > 0
    ensures Splits(QwQStep(st, r, json), first, cs)
    ensures QwQStep(st, r, json).out == st.out
  {
    assert st.buffer + Str(ContentOf(r)) == st.buffer;
    QwQPlainStep(st, r, json);
    if st.snapshot.None? {
      assert BeforeThink([]) == [] && AfterThink([]) == [] && Join([]) == "";
      assert Str(Delta0(r).reasoningContent) + "" == Str(Delta0(r).reasoningContent);
    }
  }

  /** The decoder's state after one more chunk. */
  lemma QwQRunStep(ds: seq<ChatResult>, json: string -> JsonParse)
    requires ds != [] && QwQReady(ds)
    ensures QwQReady(Prefix(ds))
    ensures SnapshotOk(QwQRun(Prefix(ds), json).snapshot)
    ensures QwQRun(Prefix(ds), json).snapshot.None? && !IsNullOrEmpty(ContentOf(Last(ds))) ==>
      Contains(QwQRun(Prefix(ds), json).buffer + ContentOf(Last(ds)).value, OpenTag)
    ensures QwQRun(ds, json) == QwQStep(QwQRun(Prefix(ds), json), Last(ds), json)
  {
    var st := QwQRun(Prefix(ds), json);
    var c := ContentOf(Last(ds));
    if st.snapshot.None? && !IsNullOrEmpty(c) {
      TagBuffered(st.buffer, c.value, FirstPresent(Prefix(ds)).Some?);
    }
  }

  /**
   * On a stream without tool tags, everything before the first "</think>"
   * is reasoning and everything after it is the answer; "</think>" itself
   * is yielded as "" and recorded nowhere, and the result stays marked as
   * thinking until it arrives.
   */
  lemma {:induction false} QwQSplitsThinking(ds: seq<ChatResult>, json: string -> JsonParse)
    requires QwQReady(ds) && !Contains(AllText(ds), OpenTag)
    ensures QwQRun(ds, json).out == ThinkYields(NonEmptyContents(ds))
    ensures FirstPresent(ds).Some? ==> Splits(QwQRun(ds, json), FirstPresent(ds).value, NonEmptyContents(ds))
    decreases |ds|
  {
    if ds != [] {
      var p := Prefix(ds);
      QwQRunStep(ds, json);
      assert AllText(ds) == AllText(p) + Str(ContentOf(Last(ds)));
      if Contains(AllText(p), OpenTag) {
        ContainsExtend(AllText(p), OpenTag, Str(ContentOf(Last(ds))));
      }
      QwQSplitsThinking(p, json);
      if !HasDelta(Last(ds)) {
        assert QwQRun(ds, json) == QwQRun(p, json);
        assert FirstPresent(ds) == FirstPresent(p);
        assert NonEmptyContents(ds) == NonEmptyContents(p) + [];
        assert NonEmptyContents(ds) == NonEmptyContents(p);
      } else if IsNullOrEmpty(ContentOf(Last(ds))) {
        QwQQuietSplits(ds, json);
      } else {
        QwQFragmentSplits(ds, json);
      }
    }
  }

  /** A chunk with a delta but no content keeps the split and yields nothing. */
  lemma QwQQuietSplits(ds: seq<ChatResult>, json: string -> JsonParse)
    requires ds != [] && QwQReady(ds) && QwQReady(Prefix(ds)) && !Contains(AllText(Prefix(ds)), OpenTag)
    requires HasDelta(Last(ds)) && IsNullOrEmpty(ContentOf(Last(ds)))
    requires QwQRun(Prefix(ds), json).out == ThinkYields(NonEmptyContents(Prefix(ds)))
    requires FirstPresent(Prefix(ds)).Some? ==>
      Splits(QwQRun(Prefix(ds), json), FirstPresent(Prefix(ds)).value, NonEmptyContents(Prefix(ds)))
    ensures QwQRun(ds, json).out == ThinkYields(NonEmptyContents(ds))
    ensures Splits(QwQRun(ds, json), FirstPresent(ds).value, NonEmptyContents(ds))
  {
    QwQRunStep(ds, json);
    var p := Prefix(ds);
    var st := QwQRun(p, json);
    var cs := NonEmptyContents(p);
    assert NonEmptyContents(ds) == cs + [];
    assert NonEmptyContents(ds) == cs;
    AllTextIsJoin(p);
    JoinNonEmptyContents(p);
    if FirstPresent(p).None? {
      NoContentYet(p);
    }
    SplitsQuiet(st, Last(ds), json, FirstPresent(ds).value, cs);
  }

  /** A content fragment without a tag extends the split by one fragment. */
  lemma QwQFragmentSplits(ds: seq<ChatResult>, json: string -> JsonParse)
    requires ds != [] && QwQReady(ds) && !Contains(AllText(ds), OpenTag)
    requires AllText(ds) == AllText(Prefix(ds)) + Str(ContentOf(Last(ds)))
    requires HasDelta(Last(ds)) && !IsNullOrEmpty(ContentOf(Last(ds)))
    requires QwQRun(Prefix(ds), json).out == ThinkYields(NonEmptyContents(Prefix(ds)))
    requires FirstPresent(Prefix(ds)).Some? ==>
      Splits(QwQRun(Prefix(ds), json), FirstPresent(Prefix(ds)).value, NonEmptyContents(Prefix(ds)))
    ensures QwQRun(ds, json).out == ThinkYields(NonEmptyContents(ds))
    ensures Splits(QwQRun(ds, json), FirstPresent(ds).value, NonEmptyContents(ds))
  {
    QwQRunStep(ds, json);
    var p := Prefix(ds);
    var st := QwQRun(p, json);
    var cs := NonEmptyContents(p);
    var x := ContentOf(Last(ds)).value;
    if FirstPresent(p).None? {
      // the first delta speaks, so it must carry the tag: impossible here
      ContainsPrepend(AllText(p), x, OpenTag);
      assert false;
    }
    assert FirstPresent(ds) == FirstPresent(p);
    AllTextIsJoin(p);
    JoinNonEmptyContents(p);
    SplitsStep(st, Last(ds), json, FirstPresent(ds).value, cs);
    assert NonEmptyContents(ds) == cs + [x];
    assert (cs + [x])[..|cs|] == cs;
  }

  lemma {:induction false} NoContentYet(ds: seq<ChatResult>)
    requires FirstPresent(ds).None?
    ensures NonEmptyContents(ds) == []
    decreases |ds|
  {
    if ds != [] {
      NoContentYet(Prefix(ds));
    }
  }

  /**
   * The call a chunk parses once a tool tag is buffered: one with content,
   * arriving when a result is stored, runs ProcessStreamChunkQwen on the
   * buffer from its first tag on.
   */
  function QwQParse(before: string, stored: bool, r: ChatResult, json: string -> JsonParse): (c: Option<FunctionCall>)
    ensures c.Some? ==> stored && HasDelta(r) && !IsNullOrEmpty(ContentOf(r))
  {
    if stored && HasDelta(r) && !IsNullOrEmpty(ContentOf(r)) then
      var buffer := before + ContentOf(r).value;
      match IndexOf(buffer, OpenTag)
      case Some(k) => ProcessStreamChunkQwen(buffer[k..], json)
      case None => None
    else None
  }

  /** The calls parsed by the chunks `q` that follow the text `text`, with `snap` stored before them. */
  function QwQSealedCalls(text: string, snap: Option<ChatResult>, q: seq<ChatResult>, json: string -> JsonParse): seq<FunctionCall>
  {
    if q == [] then []
    else
      var c := QwQParse(text + AllText(Prefix(q)), FirstStored(snap, Prefix(q)).Some?, Last(q), json);
      QwQSealedCalls(text, snap, Prefix(q), json) + if c.Some? then [c.value] else []
  }

  /**
   * One chunk after a tool tag has been buffered: it yields "" and records
   * its call exactly when it parses one; otherwise it yields nothing and at
   * most becomes the stored result. The thinking flag is not touched.
   */
  lemma QwQSealedStep(st: QwQState, r: ChatResult, json: string -> JsonParse)
    requires SnapshotOk(st.snapshot) && Contains(st.buffer, OpenTag)
    ensures Contains(st.buffer + Str(ContentOf(r)), OpenTag)
    ensures var c := QwQParse(st.buffer, st.snapshot.Some?, r, json);
      QwQStep(st, r, json).out == st.out + (if c.Some? then [""] else []) &&
      QwQStep(st, r, json).snapshot ==
        if c.Some? then Some(RecordToolCall(st.snapshot.value, c.value)) else StoreFirst(st.snapshot, r)
  {
    ContainsExtend(st.buffer, OpenTag, Str(ContentOf(r)));
  }

  /**
   * The chunk whose fragment first brings a tool tag into the buffer: like
   * any other delta it first marks a stored result as thinking when nothing
   * is buffered yet, and then yields "" exactly when the buffer from the tag
   * on parses as a call, which it records; otherwise it yields nothing.
   */
  lemma QwQTagArrives(st: QwQState, r: ChatResult, json: string -> JsonParse)
    requires SnapshotOk(st.snapshot) && !IsNullOrEmpty(ContentOf(r))
    requires Contains(st.buffer + ContentOf(r).value, OpenTag)
    ensures var primed := if st.buffer == [] && st.snapshot.Some? then Some(SetThinking(st.snapshot.value, true)) else st.snapshot;
      var c := QwQParse(st.buffer, st.snapshot.Some?, r, json);
      QwQStep(st, r, json).out == st.out + (if c.Some? then [""] else []) &&
      QwQStep(st, r, json).snapshot == if c.Some? then Some(RecordToolCall(primed.value, c.value)) else primed
  {
  }

  /**
   * A stream whose tool tag arrives with its last chunk: everything before
   * it was split at "</think>" as on a tag-free stream, and the last chunk
   * yields "" exactly when it completes a call.
   */
  lemma QwQTagOpens(ds: seq<ChatResult>, json: string -> JsonParse)
    requires ds != [] && QwQReady(ds)
    requires !Contains(AllText(Prefix(ds)), OpenTag) && Contains(AllText(ds), OpenTag)
    ensures var before := QwQRun(Prefix(ds), json);
      var primed := if AllText(Prefix(ds)) == [] && before.snapshot.Some? then Some(SetThinking(before.snapshot.value, true)) else before.snapshot;
      var c := QwQParse(AllText(Prefix(ds)), before.snapshot.Some?, Last(ds), json);
      QwQRun(ds, json).out == ThinkYields(NonEmptyContents(Prefix(ds))) + (if c.Some? then [""] else []) &&
      QwQRun(ds, json).snapshot == if c.Some? then Some(RecordToolCall(primed.value, c.value)) else primed
  {
    var p, r := Prefix(ds), Last(ds);
    QwQRunStep(ds, json);
    var st := QwQRun(p, json);
    assert st.buffer == AllText(p);
    assert AllText(ds) == st.buffer + Str(ContentOf(r));
    assert Str(ContentOf(r)) == "" ==> AllText(ds) == st.buffer;
    QwQSplitsThinking(p, json);
    QwQTagArrives(st, r, json);
  }

  /**
   * `b` is the state after the chunks `q` that follow the state `a` whose text
   * `text` holds a tool tag: one "" per parsed call and nothing else is
   * yielded, and the stored result is the one stored before (or the first
   * content-less delta), carrying the last parsed call.
   */
  predicate QwQSealedFrom(a: QwQState, text: string, q: seq<ChatResult>, b: QwQState, json: string -> JsonParse)
    requires SnapshotOk(a.snapshot)
  {
    var calls := QwQSealedCalls(text, a.snapshot, q, json);
    b.out == a.out + Blanks(|calls|) &&
    (calls != [] ==> FirstStored(a.snapshot, q).Some?) &&
    b.snapshot == Recorded(FirstStored(a.snapshot, q), calls)
  }

  lemma QwQSealedExtend(a: QwQState, text: string, q: seq<ChatResult>, st: QwQState, json: string -> JsonParse)
    requires q != [] && SnapshotOk(a.snapshot) && SnapshotOk(st.snapshot)
    requires st.buffer == text + AllText(Prefix(q)) && Contains(st.buffer, OpenTag)
    requires QwQSealedFrom(a, text, Prefix(q), st, json)
    ensures Contains(st.buffer + Str(ContentOf(Last(q))), OpenTag)
    ensures QwQSealedFrom(a, text, q, QwQStep(st, Last(q), json), json)
  {
    QwQSealedStep(st, Last(q), json);
    var calls' := QwQSealedCalls(text, a.snapshot, Prefix(q), json);
    var c := QwQParse(st.buffer, st.snapshot.Some?, Last(q), json);
    RecordedStep(FirstStored(a.snapshot, Prefix(q)), calls', Last(q), c);
    assert Blanks(|calls'|) + (if c.Some? then [""] else []) == Blanks(|calls'| + if c.Some? then 1 else 0);
  }

  /**
   * Once the content text holds a tool tag, QwQ yields one "" per parsed call
   * and nothing else, and the stored result only changes by recording calls.
   */
  lemma {:induction false} QwQTagSeals(p: seq<ChatResult>, q: seq<ChatResult>, json: string -> JsonParse)
    requires QwQReady(p) && QwQReady(p + q) && Contains(AllText(p), OpenTag)
    ensures QwQSealedFrom(QwQRun(p, json), AllText(p), q, QwQRun(p + q, json), json)
    decreases |q|
  {
    if q == [] {
      assert p + q == p;
    } else {
      var pq := p + q;
      var pq' := p + Prefix(q);
      assert Prefix(pq) == pq';
      assert Last(pq) == Last(q);
      QwQRunStep(pq, json);
      QwQTagSeals(p, Prefix(q), json);
      AllTextAppend(p, Prefix(q));
      ContainsExtend(AllText(p), OpenTag, AllText(Prefix(q)));
      QwQSealedExtend(QwQRun(p, json), AllText(p), q, QwQRun(pq', json), json);
    }
  }

  /**
   * A corollary: once a tag is buffered, the reasoning, answer and thinking
   * flag of a stored result are frozen.
   */
  lemma QwQTagFreezes(p: seq<ChatResult>, q: seq<ChatResult>, json: string -> JsonParse)
    requires QwQReady(p) && QwQReady(p + q) && Contains(AllText(p), OpenTag)
    requires QwQRun(p, json).snapshot.Some?
    ensures QwQRun(p + q, json).snapshot.Some?
    ensures var s := Delta0(QwQRun(p, json).snapshot.value);
      var s' := Delta0(QwQRun(p + q, json).snapshot.value);
      s'.reasoningContent == s.reasoningContent && s'.content == s.content && s'.thinking == s.thinking
  {
    QwQTagSeals(p, q, json);
  }
}
