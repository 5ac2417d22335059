/**
 * The two Qwen decoders: the vLLM one, which recognises a tool call by the
 * accumulated content starting with <tool_call> (Conversation.cs:447-496),
 * and the one for Alibaba's endpoint, which receives tool calls natively on
 * the delta (Conversation.cs:498-546).
 */
module QwenDecoding {
  import opened Wrappers
  import opened Text
  import opened ChatMessages
  import opened Streams
  import opened ToolCallTags

  // ---------------------------------------------------------------- vLLM Qwen

  datatype QwenState = QwenState(
    out: seq<string>,
    builder: string,
    role: Option<Role>,
    snapshot: Option<ChatResult>,
    buffer: string)

  function QwenStep(st: QwenState, r: ChatResult, json: string -> JsonParse): (st': QwenState)
    requires SnapshotOk(st.snapshot)
    ensures SnapshotOk(st'.snapshot)
  {
    match FirstDelta(r)
    case None => st
    case Some(d) =>
      var role := if d.role.Some? then d.role else st.role;
      var buffer := st.buffer + Str(d.content);
      if !IsNullOrEmpty(d.content) && StartsWith(buffer, OpenTag) then
        // a tool call is being streamed: nothing is forwarded and no result is stored
        var call := ProcessStreamChunkQwen(buffer, json);
        if call.Some? && st.snapshot.Some? then
          st.(out := st.out + [""], role := role, buffer := buffer, snapshot := Some(RecordToolCall(st.snapshot.value, call.value)))
        else st.(role := role, buffer := buffer)
      else
        var snapshot := if st.snapshot.None? then Some(r) else st.snapshot;
        if !IsNullOrEmpty(d.content) then
          QwenState(st.out + [d.content.value], st.builder + d.content.value, role, snapshot, buffer)
        else st.(role := role, snapshot := snapshot, buffer := buffer)
  }

  /** The vLLM Qwen decoder's state after `ds`; its buffer holds all content text. */
  function QwenRun(ds: seq<ChatResult>, json: string -> JsonParse): (st: QwenState)
    ensures SnapshotOk(st.snapshot)
    ensures st.builder == Join(st.out)
    ensures st.role == LastRole(ds)
    ensures st.buffer == AllText(ds)
  {
    if ds == [] then QwenState([], "", None, None, "")
    else
      var st := QwenRun(Prefix(ds), json);
      QwenStepKeeps(st, Last(ds), json);
      QwenStep(st, Last(ds), json)
  }

  /** One step keeps the builder equal to the joined yields and tracks role and buffer. */
  lemma QwenStepKeeps(st: QwenState, r: ChatResult, json: string -> JsonParse)
    requires SnapshotOk(st.snapshot) && st.builder == Join(st.out)
    ensures QwenStep(st, r, json).builder == Join(QwenStep(st, r, json).out)
    ensures QwenStep(st, r, json).buffer == st.buffer + Str(ContentOf(r))
    ensures QwenStep(st, r, json).role == if AnnouncesRole(r) then FirstDelta(r).value.role else st.role
  {
    assert (st.out + [""])[..|st.out|] == st.out;
  }

  /**
   * A response whose text does not start with <tool_call> is forwarded
   * fragment by fragment, like the plain decoder's.
   */
  lemma {:induction false} QwenPlainText(ds: seq<ChatResult>, json: string -> JsonParse)
    requires !StartsWith(AllText(ds), OpenTag)
    ensures QwenRun(ds, json).out == NonEmptyContents(ds)
    decreases |ds|
  {
    if ds != [] {
      var a := AllText(Prefix(ds));
      var c := Str(ContentOf(Last(ds)));
      assert AllText(ds) == a + c;
      if StartsWith(a, OpenTag) {
        StartsWithExtend(a, OpenTag, c);
      }
      QwenPlainText(Prefix(ds), json);
    }
  }

  /**
   * The call a chunk parses once the text `before` it starts with
   * <tool_call>: one with content, arriving when a result is stored, runs
   * ProcessStreamChunkQwen on the whole buffer.
   */
  function QwenParse(before: string, stored: bool, r: ChatResult, json: string -> JsonParse): (c: Option<FunctionCall>)
    ensures c.Some? ==> stored && HasDelta(r) && !IsNullOrEmpty(ContentOf(r))
  {
    if stored && HasDelta(r) && !IsNullOrEmpty(ContentOf(r)) then ProcessStreamChunkQwen(before + ContentOf(r).value, json)
    else None
  }

  /** The calls parsed by the chunks `q` that follow the text `text`, with `snap` stored before them. */
  function QwenSealedCalls(text: string, snap: Option<ChatResult>, q: seq<ChatResult>, json: string -> JsonParse): seq<FunctionCall>
  {
    if q == [] then []
    else
      var c := QwenParse(text + AllText(Prefix(q)), FirstStored(snap, Prefix(q)).Some?, Last(q), json);
      QwenSealedCalls(text, snap, Prefix(q), json) + if c.Some? then [c.value] else []
  }

  /**
   * `b` is the state after the chunks `q` that follow the state `a` whose text
   * `text` starts with <tool_call>: one "" per parsed call and nothing else is
   * forwarded, and the stored result is the one stored before (or the first
   * content-less delta), carrying the last parsed call.
   */
  predicate QwenSealedFrom(a: QwenState, text: string, q: seq<ChatResult>, b: QwenState, json: string -> JsonParse)
    requires SnapshotOk(a.snapshot)
  {
    var calls := QwenSealedCalls(text, a.snapshot, q, json);
    b.out == a.out + Blanks(|calls|) &&
    b.builder == a.builder &&
    (calls != [] ==> FirstStored(a.snapshot, q).Some?) &&
    b.snapshot == Recorded(FirstStored(a.snapshot, q), calls)
  }

  lemma {:induction false} QwenTagSeals(p: seq<ChatResult>, q: seq<ChatResult>, json: string -> JsonParse)
    requires StartsWith(AllText(p), OpenTag)
    ensures QwenSealedFrom(QwenRun(p, json), AllText(p), q, QwenRun(p + q, json), json)
    decreases |q|
  {
    if q == [] {
      assert p + q == p;
    } else {
      var pq := p + q;
      assert Prefix(pq) == p + Prefix(q);
      assert Last(pq) == Last(q);
      QwenTagSeals(p, Prefix(q), json);
      AllTextAppend(p, Prefix(q));
      StartsWithExtend(AllText(p), OpenTag, AllText(Prefix(q)));
      QwenSealedExtend(QwenRun(p, json), AllText(p), q, QwenRun(p + Prefix(q), json), json);
    }
  }

  lemma QwenSealedExtend(a: QwenState, text: string, q: seq<ChatResult>, st: QwenState, json: string -> JsonParse)
    requires q != [] && SnapshotOk(a.snapshot) && SnapshotOk(st.snapshot)
    requires st.buffer == text + AllText(Prefix(q)) && StartsWith(st.buffer, OpenTag)
    requires QwenSealedFrom(a, text, Prefix(q), st, json)
    ensures QwenSealedFrom(a, text, q, QwenStep(st, Last(q), json), json)
  {
    QwenSealedStep(st, Last(q), json);
    var calls' := QwenSealedCalls(text, a.snapshot, Prefix(q), json);
    var c := QwenParse(st.buffer, st.snapshot.Some?, Last(q), json);
    RecordedStep(FirstStored(a.snapshot, Prefix(q)), calls', Last(q), c);
    assert Blanks(|calls'|) + (if c.Some? then [""] else []) == Blanks(|calls'| + if c.Some? then 1 else 0);
  }

  /**
   * One chunk after the text has started with <tool_call>, or the fragment
   * that makes it start so: it yields "" and records its call exactly when
   * it parses one; otherwise it yields nothing and at most becomes the
   * stored result.
   */
  lemma QwenSealedStep(st: QwenState, r: ChatResult, json: string -> JsonParse)
    requires SnapshotOk(st.snapshot)
    requires StartsWith(st.buffer, OpenTag) ||
      (!IsNullOrEmpty(ContentOf(r)) && StartsWith(st.buffer + ContentOf(r).value, OpenTag))
    ensures var c := QwenParse(st.buffer, st.snapshot.Some?, r, json);
      QwenStep(st, r, json).out == st.out + (if c.Some? then [""] else []) &&
      QwenStep(st, r, json).builder == st.builder &&
      QwenStep(st, r, json).snapshot ==
        if c.Some? then Some(RecordToolCall(st.snapshot.value, c.value)) else StoreFirst(st.snapshot, r)
  {
    if StartsWith(st.buffer, OpenTag) {
      StartsWithExtend(st.buffer, OpenTag, Str(ContentOf(r)));
    }
  }

  /**
   * The chunk whose fragment first makes the text start with <tool_call>:
   * the text before it was forwarded fragment by fragment, and the chunk
   * itself yields "" exactly when its buffer already parses as a call, which
   * it then records on the stored result; otherwise it changes nothing
   * stored.
   */
  lemma QwenTagOpens(ds: seq<ChatResult>, json: string -> JsonParse)
    requires ds != [] && !StartsWith(AllText(Prefix(ds)), OpenTag) && StartsWith(AllText(ds), OpenTag)
    ensures var before := QwenRun(Prefix(ds), json);
      var c := QwenParse(AllText(Prefix(ds)), before.snapshot.Some?, Last(ds), json);
      QwenRun(ds, json).out == NonEmptyContents(Prefix(ds)) + (if c.Some? then [""] else []) &&
      QwenRun(ds, json).builder == Join(NonEmptyContents(Prefix(ds))) &&
      QwenRun(ds, json).snapshot == if c.Some? then Some(RecordToolCall(before.snapshot.value, c.value)) else before.snapshot
  {
    var p := Prefix(ds);
    assert AllText(ds) == AllText(p) + Str(ContentOf(Last(ds)));
    QwenPlainText(p, json);
    QwenSealedStep(QwenRun(p, json), Last(ds), json);
  }

  // ---------------------------------------------------------------- Alibaba Qwen

  /** The delta carries a tool-call fragment with arguments. */
  predicate HasToolArgs(r: ChatResult)
  {
    HasDelta(r) && Delta0(r).toolCall.Some? && Delta0(r).toolCall.value.arguments.Some?
  }

  predicate AnyToolArgs(ds: seq<ChatResult>)
  {
    ds != [] && (HasToolArgs(Last(ds)) || AnyToolArgs(Prefix(ds)))
  }

  /**
   * The first result of the stream is stored unconditionally and edited by
   * every tool-call fragment: it must have a delta if any fragment comes.
   */
  predicate AliReady(ds: seq<ChatResult>)
  {
    ds == [] || HasDelta(ds[0]) || !AnyToolArgs(ds)
  }

  datatype AliState = AliState(out: seq<string>, builder: string, role: Option<Role>, snapshot: Option<ChatResult>)

  function AliStep(st: AliState, r: ChatResult): (st': AliState)
    requires st.snapshot.None? ==> (HasToolArgs(r) ==> HasDelta(r))
    requires st.snapshot.Some? ==> (HasToolArgs(r) ==> HasDelta(st.snapshot.value))
    ensures st'.snapshot.Some?
  {
    var snapshot := if st.snapshot.None? then r else st.snapshot.value;
    match FirstDelta(r)
    case None => st.(snapshot := Some(snapshot))
    case Some(d) =>
      var role := if d.role.Some? then d.role else st.role;
      var snapshot' := if HasToolArgs(r) then AppendToolFragment(snapshot, d.toolCall.value) else snapshot;
      if !IsNullOrEmpty(d.content) then
        AliState(st.out + [d.content.value], st.builder + d.content.value, role, Some(snapshot'))
      else AliState(st.out, st.builder, role, Some(snapshot'))
  }

  /** The Alibaba decoder's state after `ds`: the stored result is the first one, edited. */
  function AliRun(ds: seq<ChatResult>): (st: AliState)
    requires AliReady(ds)
    ensures st.builder == Join(st.out)
    ensures st.role == LastRole(ds)
    ensures st.snapshot.Some? <==> ds != []
    ensures ds != [] && AnyToolArgs(ds) ==> HasDelta(st.snapshot.value)
    ensures ds != [] && HasDelta(ds[0]) ==> HasDelta(st.snapshot.value)
  {
    if ds == [] then AliState([], "", None, None)
    else
      var p := Prefix(ds);
      assert p != [] ==> p[0] == ds[0];
      var st := AliRun(p);
      assert (st.out + [""])[..|st.out|] == st.out;
      AliStep(st, Last(ds))
  }

  /** The argument fragments of the tool calls, in arrival order. */
  function ToolArgs(ds: seq<ChatResult>): seq<string>
  {
    if ds == [] then []
    else ToolArgs(Prefix(ds)) + (if HasToolArgs(Last(ds)) then [Str(Delta0(Last(ds)).toolCall.value.arguments)] else [])
  }

  /** The last tool-call name carried by a fragment with arguments. */
  function LastToolName(ds: seq<ChatResult>): Option<string>
  {
    if ds == [] then None
    else if HasToolArgs(Last(ds)) && Delta0(Last(ds)).toolCall.value.name.Some? then Delta0(Last(ds)).toolCall.value.name
    else LastToolName(Prefix(ds))
  }

  /** The Alibaba decoder forwards every non-empty content fragment. */
  lemma {:induction false} AliForwardsAll(ds: seq<ChatResult>)
    requires AliReady(ds)
    ensures AliRun(ds).out == NonEmptyContents(ds)
    decreases |ds|
  {
    if ds != [] {
      var p := Prefix(ds);
      AliRunStep(ds);
      AliForwardsAll(p);
      AliStepOut(AliRun(p), Last(ds));
    }
  }

  /** One more chunk is one AliStep on the state after the earlier chunks. */
  lemma AliRunStep(ds: seq<ChatResult>)
    requires ds != [] && AliReady(ds)
    ensures AliReady(Prefix(ds))
    ensures var st := AliRun(Prefix(ds));
      (st.snapshot.None? ==> (HasToolArgs(Last(ds)) ==> HasDelta(Last(ds)))) &&
      (st.snapshot.Some? ==> (HasToolArgs(Last(ds)) ==> HasDelta(st.snapshot.value))) &&
      AliRun(ds) == AliStep(st, Last(ds))
  {
    assert Prefix(ds) != [] ==> Prefix(ds)[0] == ds[0];
  }

  /** One chunk yields its content exactly when it is non-empty. */
  lemma AliStepOut(st: AliState, r: ChatResult)
    requires st.snapshot.None? ==> (HasToolArgs(r) ==> HasDelta(r))
    requires st.snapshot.Some? ==> (HasToolArgs(r) ==> HasDelta(st.snapshot.value))
    ensures AliStep(st, r).out == st.out + (if IsNullOrEmpty(ContentOf(r)) then [] else [ContentOf(r).value])
  {
  }

  /** The stored result `s` after the chunks `ds` (the first of which it began as). */
  predicate Collected(s: ChatResult, ds: seq<ChatResult>)
    requires ds != []
  {
    (AnyToolArgs(ds) ==>
      HasDelta(ds[0]) && CallOnlyEdited(ds[0], s) &&
      ArgsText(s) == ArgsText(ds[0]) + Join(ToolArgs(ds)) &&
      CallName(s) == (if LastToolName(ds).Some? then LastToolName(ds) else CallName(ds[0])) &&
      FinishOf(s) == Some("function_call")) &&
    (!AnyToolArgs(ds) ==> s == ds[0])
  }

  /** The stored result's edit for one more chunk. */
  lemma AliStepSnapshot(st: AliState, r: ChatResult)
    requires st.snapshot.None? ==> (HasToolArgs(r) ==> HasDelta(r))
    requires st.snapshot.Some? ==> (HasToolArgs(r) ==> HasDelta(st.snapshot.value))
    ensures
      var s := if st.snapshot.None? then r else st.snapshot.value;
      AliStep(st, r).snapshot == Some(if HasToolArgs(r) then AppendToolFragment(s, Delta0(r).toolCall.value) else s)
  {
  }

  lemma CollectedStep(s: ChatResult, ds: seq<ChatResult>)
    requires |ds| > 1 && Collected(s, Prefix(ds))
    requires HasToolArgs(Last(ds)) ==> HasDelta(s)
    ensures Prefix(ds)[0] == ds[0]
    ensures Collected(if HasToolArgs(Last(ds)) then AppendToolFragment(s, Delta0(Last(ds)).toolCall.value) else s, ds)
  {
    var p := Prefix(ds);
    var r := Last(ds);
    assert p[0] == ds[0];
    if HasToolArgs(r) {
      var x := Str(Delta0(r).toolCall.value.arguments);
      assert ToolArgs(ds) == ToolArgs(p) + [x];
      JoinAppend(ToolArgs(p), [x]);
      assert Join([x]) == Join([]) + x;
      if !AnyToolArgs(p) {
        NoToolArgs(p);
      }
    } else {
      assert ToolArgs(ds) == ToolArgs(p) + [];
      assert ToolArgs(ds) == ToolArgs(p);
      assert AnyToolArgs(ds) == AnyToolArgs(p) && LastToolName(ds) == LastToolName(p);
    }
  }

  lemma CollectedFirst(ds: seq<ChatResult>)
    requires |ds| == 1 && (HasToolArgs(ds[0]) ==> HasDelta(ds[0]))
    ensures Collected(if HasToolArgs(ds[0]) then AppendToolFragment(ds[0], Delta0(ds[0]).toolCall.value) else ds[0], ds)
  {
    assert Last(ds) == ds[0] && Prefix(ds) == [];
    assert !AnyToolArgs(Prefix(ds));
    assert AnyToolArgs(ds) == HasToolArgs(ds[0]);
    if HasToolArgs(ds[0]) {
      var x := Str(Delta0(ds[0]).toolCall.value.arguments);
      assert ToolArgs(ds) == [] + [x];
      assert Join([x]) == Join([]) + x;
    }
  }

  /**
   * Native tool calls (Conversation.cs:522-532): the stored first result
   * collects every argument fragment in arrival order, keeps the last name
   * given, and is marked "function_call" exactly when some fragment came;
   * without fragments it is the first result unchanged.
   */
  lemma {:induction false} AliAccumulates(ds: seq<ChatResult>)
    requires AliReady(ds) && ds != []
    ensures AnyToolArgs(ds) ==>
      var s := AliRun(ds).snapshot.value;
      CallOnlyEdited(ds[0], s) &&
      ArgsText(s) == ArgsText(ds[0]) + Join(ToolArgs(ds)) &&
      CallName(s) == (if LastToolName(ds).Some? then LastToolName(ds) else CallName(ds[0])) &&
      FinishOf(s) == Some("function_call")
    ensures !AnyToolArgs(ds) ==> AliRun(ds).snapshot == Some(ds[0])
    decreases |ds|
  {
    var p := Prefix(ds);
    assert p != [] ==> p[0] == ds[0];
    AliRunStep(ds);
    var st := AliRun(p);
    AliStepSnapshot(st, Last(ds));
    if p == [] {
      assert ds == [ds[0]] && Last(ds) == ds[0];
      CollectedFirst(ds);
    } else {
      AliAccumulates(p);
      assert Collected(st.snapshot.value, p);
      CollectedStep(st.snapshot.value, ds);
    }
  }

  lemma {:induction false} NoToolArgs(ds: seq<ChatResult>)
    requires !AnyToolArgs(ds)
    ensures ToolArgs(ds) == [] && LastToolName(ds).None?
    decreases |ds|
  {
    if ds != [] {
      NoToolArgs(Prefix(ds));
    }
  }
}
