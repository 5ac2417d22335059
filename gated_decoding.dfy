/**
 * The decoders that forward content fragments until a gate on the
 * accumulated text closes, and fold the held-back deltas into the stored
 * result: the plain decoder (Conversation.cs:280-337), Gemma's code-fence
 * gate (625-685) and the "Action" gate of Phi3 and GLM4 (970-1090).
 */
module GatedDecoding {
  import opened Wrappers
  import opened Text
  import opened ChatMessages
  import opened Streams

  /** Which text closes the gate. */
  datatype Gate =
    | Open                          // never closes: every non-empty fragment is forwarded
    | Fence(functionToken: string)  // Gemma: the text buffered up to the token's length begins a code fence or the token
    | ActionPrefix                  // Phi3, GLM4: the text begins with "Action" or " Action"

  /** Gemma's default `functionToken`. */
  const DefaultGemmaToken := "```\nAction:"

  /** `buffer_msg` once a delta's content is added (the plain decoder keeps none). */
  function GrowBuffer(g: Gate, buffer: string, content: Option<string>): string
  {
    match g
    case Open => buffer
    case Fence(token) => if Utf16Length(buffer) < Utf16Length(token) then buffer + Str(content) else buffer
    case ActionPrefix => buffer + Str(content)
  }

  /** The buffer shows a function call starting: fragments are held back. */
  predicate Closed(g: Gate, buffer: string)
  {
    match g
    case Open => false
    case Fence(token) =>
      StartsWith(buffer, "```") || StartsWith(buffer, "```\n") || StartsWith(buffer, "```\nAction") || StartsWith(buffer, token)
    case ActionPrefix => StartsWith(buffer, "Action") || StartsWith(buffer, " Action")
  }

  /** Closing depends only on a prefix of the text. */
  lemma ClosedExtends(g: Gate, b: string, a: string)
    requires Closed(g, b) && StartsWith(a, b)
    ensures Closed(g, a)
  {
    match g
    case Open =>
    case Fence(token) =>
      if StartsWith(b, "```") { StartsWithTrans(a, b, "```"); }
      else if StartsWith(b, "```\n") { StartsWithTrans(a, b, "```\n"); }
      else if StartsWith(b, "```\nAction") { StartsWithTrans(a, b, "```\nAction"); }
      else { StartsWithTrans(a, b, token); }
    case ActionPrefix =>
      if StartsWith(b, "Action") { StartsWithTrans(a, b, "Action"); }
      else { StartsWithTrans(a, b, " Action"); }
  }

  datatype GatedState = GatedState(
    out: seq<string>,             // the strings yielded so far
    builder: string,              // responseStringBuilder
    role: Option<Role>,           // responseRole
    snapshot: Option<ChatResult>, // MostRecentApiResult (setValue == snapshot.Some?)
    buffer: string)               // buffer_msg

  /**
   * A held-back delta: the first one becomes the stored result; a later one
   * appends its call fragments when it has arguments and overwrites the
   * stored finish reason when it carries one.
   */
  function Absorb(snapshot: Option<ChatResult>, r: ChatResult): (s: Option<ChatResult>)
    requires HasDelta(r) && SnapshotOk(snapshot)
    ensures SnapshotOk(s)
  {
    if snapshot.None? then Some(r)
    else
      var d := Delta0(r);
      var s1 := if d.functionCall.Some? && !IsNullOrEmpty(d.functionCall.value.arguments)
        then AppendCallFragment(snapshot.value, d.functionCall.value) else snapshot.value;
      Some(if FinishOf(r).Some? then WithFinish(s1, FinishOf(r)) else s1)
  }

  function GatedStep(g: Gate, st: GatedState, r: ChatResult): (st': GatedState)
    requires SnapshotOk(st.snapshot)
    ensures SnapshotOk(st'.snapshot)
  {
    match FirstDelta(r)
    case None => st
    case Some(d) =>
      var role := if d.role.Some? then d.role else st.role;
      var buffer := GrowBuffer(g, st.buffer, d.content);
      if !IsNullOrEmpty(d.content) && !Closed(g, buffer) then
        st.(out := st.out + [d.content.value], builder := st.builder + d.content.value, role := role, buffer := buffer)
      else
        st.(snapshot := Absorb(st.snapshot, r), role := role, buffer := buffer)
  }

  /**
   * The decoder's state after the chunks `ds`. Whatever is held back, the
   * builder always equals the concatenation of the yielded strings, and the
   * role is the last one announced.
   */
  function GatedRun(g: Gate, ds: seq<ChatResult>): (st: GatedState)
    ensures SnapshotOk(st.snapshot)
    ensures st.builder == Join(st.out)
    ensures st.role == LastRole(ds)
    decreases |ds|
  {
    if ds == [] then GatedState([], "", None, None, "")
    else
      var st := GatedRun(g, Prefix(ds));
      assert (st.out + [ ""])[..|st.out|] == st.out;
      GatedStep(g, st, Last(ds))
  }

  // Reference definitions, from the chunks alone.

  /** The text the gate inspects after `ds`. */
  function GateText(g: Gate, ds: seq<ChatResult>): string
  {
    if ds == [] then "" else GrowBuffer(g, GateText(g, Prefix(ds)), ContentOf(Last(ds)))
  }

  /** The last chunk of `ds` is forwarded. */
  predicate Passes(g: Gate, ds: seq<ChatResult>)
    requires ds != []
  {
    HasDelta(Last(ds)) && !IsNullOrEmpty(ContentOf(Last(ds))) && !Closed(g, GateText(g, ds))
  }

  /** The last chunk of `ds` carries a delta that is held back. */
  predicate HeldBack(g: Gate, ds: seq<ChatResult>)
    requires ds != []
  {
    HasDelta(Last(ds)) && !Passes(g, ds)
  }

  function PassedContents(g: Gate, ds: seq<ChatResult>): seq<string>
  {
    if ds == [] then []
    else PassedContents(g, Prefix(ds)) + if Passes(g, ds) then [ContentOf(Last(ds)).value] else []
  }

  predicate AnyHeldBack(g: Gate, ds: seq<ChatResult>)
  {
    ds != [] && (HeldBack(g, ds) || AnyHeldBack(g, Prefix(ds)))
  }

  /** The argument fragments of the held-back deltas, in arrival order. */
  function HeldBackArgs(g: Gate, ds: seq<ChatResult>): seq<string>
  {
    if ds == [] then []
    else HeldBackArgs(g, Prefix(ds)) + if HeldBack(g, ds) then [DeltaArgs(Delta0(Last(ds)))] else []
  }

  /** A delta whose function call carries argument text: its call fragment is accumulated. */
  predicate AppendsCall(d: ChatMessage)
  {
    d.functionCall.Some? && !IsNullOrEmpty(d.functionCall.value.arguments)
  }

  /** The name text a delta's own function call carries ("" when there is none). */
  function DeltaName(d: ChatMessage): string
  {
    match d.functionCall
    case None => ""
    case Some(fc) => Str(fc.name)
  }

  /**
   * The name fragments that make up the stored call's name: the first
   * held-back delta's own, then those of the later held-back deltas whose
   * call carries arguments, in arrival order.
   */
  function HeldBackNames(g: Gate, ds: seq<ChatResult>): seq<string>
  {
    if ds == [] then []
    else
      var taken := HeldBack(g, ds) && (!AnyHeldBack(g, Prefix(ds)) || AppendsCall(Delta0(Last(ds))));
      HeldBackNames(g, Prefix(ds)) + if taken then [DeltaName(Delta0(Last(ds)))] else []
  }

  /** The last finish reason carried by a held-back delta. */
  function HeldBackFinish(g: Gate, ds: seq<ChatResult>): Option<string>
  {
    if ds == [] then None
    else if HeldBack(g, ds) && FinishOf(Last(ds)).Some? then FinishOf(Last(ds))
    else HeldBackFinish(g, Prefix(ds))
  }

  /** The gate inspects the same text the decoder accumulates. */
  lemma {:induction false} GatedBufferIsGateText(g: Gate, ds: seq<ChatResult>)
    ensures GatedRun(g, ds).buffer == GateText(g, ds)
    decreases |ds|
  {
    if ds != [] {
      GatedBufferIsGateText(g, Prefix(ds));
      var b := GateText(g, Prefix(ds));
      if !HasDelta(Last(ds)) {
        assert GrowBuffer(g, b, None) == b;
      }
    }
  }

  /** The decoder forwards exactly the fragments that pass the gate, in order. */
  lemma {:induction false} GatedYieldsPassed(g: Gate, ds: seq<ChatResult>)
    ensures GatedRun(g, ds).out == PassedContents(g, ds)
    decreases |ds|
  {
    if ds != [] {
      GatedYieldsPassed(g, Prefix(ds));
      GatedBufferIsGateText(g, ds);
      GatedBufferIsGateText(g, Prefix(ds));
    }
  }

  /** The first held-back chunk: the one the decoder stores. */
  function FirstHeldBack(g: Gate, ds: seq<ChatResult>): (r: Option<ChatResult>)
    ensures r.Some? <==> AnyHeldBack(g, ds)
    ensures r.Some? ==> HasDelta(r.value)
  {
    if ds == [] then None
    else if AnyHeldBack(g, Prefix(ds)) then FirstHeldBack(g, Prefix(ds))
    else if HeldBack(g, ds) then Some(Last(ds))
    else None
  }

  /**
   * The stored result is the first held-back chunk, of which the later
   * held-back chunks only edit the call and the finish reason: its text,
   * reasoning and role, the first choice's message and the other choices
   * stay as they arrived.
   */
  lemma {:induction false} GatedStoresFirstHeldBack(g: Gate, ds: seq<ChatResult>)
    ensures GatedRun(g, ds).snapshot.Some? <==> FirstHeldBack(g, ds).Some?
    ensures GatedRun(g, ds).snapshot.Some? ==>
      CallOnlyEdited(FirstHeldBack(g, ds).value, GatedRun(g, ds).snapshot.value)
    decreases |ds|
  {
    if ds != [] {
      var p := Prefix(ds);
      GatedStoresFirstHeldBack(g, p);
      SnapshotStep(g, ds);
      var before := GatedRun(g, p).snapshot;
      if HeldBack(g, ds) && before.Some? {
        AbsorbEditsCall(before.value, Last(ds));
        CallOnlyEditedTwice(FirstHeldBack(g, p).value, before.value, GatedRun(g, ds).snapshot.value);
      }
    }
  }

  /** Absorbing a later held-back chunk only edits the call and the finish reason. */
  lemma AbsorbEditsCall(s: ChatResult, r: ChatResult)
    requires HasDelta(r) && HasDelta(s)
    ensures CallOnlyEdited(s, Absorb(Some(s), r).value)
  {
    var d := Delta0(r);
    var s1 := if d.functionCall.Some? && !IsNullOrEmpty(d.functionCall.value.arguments)
      then AppendCallFragment(s, d.functionCall.value) else s;
    if FinishOf(r).Some? {
      CallOnlyEditedTwice(s, s1, WithFinish(s1, FinishOf(r)));
    }
  }

  /** The stored result carries the given argument text, name text and finish reason. */
  predicate Accumulates(s: ChatResult, args: seq<string>, names: seq<string>, finish: Option<string>)
  {
    ArgsText(s) == Join(args) && Str(CallName(s)) == Join(names) && FinishOf(s) == finish
  }

  /**
   * Function-call accumulation (Conversation.cs:305-324, 653-673, 997-1016):
   * a result is stored exactly when some delta is held back; its call
   * arguments are the argument fragments of all held-back deltas (the
   * stored one's own first) concatenated in arrival order, its call name
   * the name fragments of `HeldBackNames` concatenated likewise (null read
   * as ""), and its finish reason is the last one they carried.
   */
  lemma {:induction false} GatedCallAccumulation(g: Gate, ds: seq<ChatResult>)
    ensures GatedRun(g, ds).snapshot.Some? <==> AnyHeldBack(g, ds)
    ensures GatedRun(g, ds).snapshot.Some? ==>
      Accumulates(GatedRun(g, ds).snapshot.value, HeldBackArgs(g, ds), HeldBackNames(g, ds), HeldBackFinish(g, ds))
    decreases |ds|
  {
    if ds != [] {
      GatedCallAccumulation(g, Prefix(ds));
      if HeldBack(g, ds) {
        AccumulationAbsorbs(g, ds);
      } else {
        AccumulationKeeps(g, ds);
      }
    }
  }

  /** The induction step of GatedCallAccumulation for a chunk that is not held back. */
  lemma AccumulationKeeps(g: Gate, ds: seq<ChatResult>)
    requires ds != [] && !HeldBack(g, ds)
    requires GatedRun(g, Prefix(ds)).snapshot.Some? <==> AnyHeldBack(g, Prefix(ds))
    requires GatedRun(g, Prefix(ds)).snapshot.Some? ==>
      Accumulates(GatedRun(g, Prefix(ds)).snapshot.value, HeldBackArgs(g, Prefix(ds)), HeldBackNames(g, Prefix(ds)), HeldBackFinish(g, Prefix(ds)))
    ensures GatedRun(g, ds).snapshot.Some? <==> AnyHeldBack(g, ds)
    ensures GatedRun(g, ds).snapshot.Some? ==>
      Accumulates(GatedRun(g, ds).snapshot.value, HeldBackArgs(g, ds), HeldBackNames(g, ds), HeldBackFinish(g, ds))
  {
    var p := Prefix(ds);
    SnapshotStep(g, ds);
    assert HeldBackArgs(g, ds) == HeldBackArgs(g, p) + [] == HeldBackArgs(g, p);
    assert HeldBackNames(g, ds) == HeldBackNames(g, p) + [] == HeldBackNames(g, p);
  }

  /** The induction step of GatedCallAccumulation for a held-back chunk. */
  lemma AccumulationAbsorbs(g: Gate, ds: seq<ChatResult>)
    requires ds != [] && HeldBack(g, ds)
    requires GatedRun(g, Prefix(ds)).snapshot.Some? <==> AnyHeldBack(g, Prefix(ds))
    requires GatedRun(g, Prefix(ds)).snapshot.Some? ==>
      Accumulates(GatedRun(g, Prefix(ds)).snapshot.value, HeldBackArgs(g, Prefix(ds)), HeldBackNames(g, Prefix(ds)), HeldBackFinish(g, Prefix(ds)))
    ensures GatedRun(g, ds).snapshot.Some? && AnyHeldBack(g, ds)
    ensures Accumulates(GatedRun(g, ds).snapshot.value, HeldBackArgs(g, ds), HeldBackNames(g, ds), HeldBackFinish(g, ds))
  {
    var p := Prefix(ds);
    var r := Last(ds);
    var snapshot := GatedRun(g, p).snapshot;
    SnapshotStep(g, ds);
    if !AnyHeldBack(g, p) {
      NothingHeldBack(g, p);
    }
    AbsorbStep(snapshot, r, HeldBackArgs(g, p), HeldBackNames(g, p), HeldBackFinish(g, p));
    assert HeldBackArgs(g, ds) == HeldBackArgs(g, p) + [DeltaArgs(Delta0(r))];
    assert HeldBackNames(g, ds) == HeldBackNames(g, p) +
      if snapshot.None? || AppendsCall(Delta0(r)) then [DeltaName(Delta0(r))] else [];
  }

  /** Absorbing one held-back delta extends the accumulated arguments, name and finish reason. */
  lemma AbsorbStep(snapshot: Option<ChatResult>, r: ChatResult, args: seq<string>, names: seq<string>, finish: Option<string>)
    requires HasDelta(r) && SnapshotOk(snapshot)
    requires snapshot.None? ==> args == [] && names == [] && finish.None?
    requires snapshot.Some? ==> Accumulates(snapshot.value, args, names, finish)
    ensures Absorb(snapshot, r).Some?
    ensures Accumulates(Absorb(snapshot, r).value,
      args + [DeltaArgs(Delta0(r))],
      names + (if snapshot.None? || AppendsCall(Delta0(r)) then [DeltaName(Delta0(r))] else []),
      if FinishOf(r).Some? then FinishOf(r) else finish)
  {
    AbsorbArgs(snapshot, r, args);
    AbsorbName(snapshot, r, names);
  }

  lemma AbsorbArgs(snapshot: Option<ChatResult>, r: ChatResult, args: seq<string>)
    requires HasDelta(r) && SnapshotOk(snapshot)
    requires snapshot.None? ==> args == []
    requires snapshot.Some? ==> ArgsText(snapshot.value) == Join(args)
    ensures ArgsText(Absorb(snapshot, r).value) == Join(args + [DeltaArgs(Delta0(r))])
  {
    var x := DeltaArgs(Delta0(r));
    JoinAppend(args, [x]);
    assert Join([x]) == Join([]) + x;
  }

  lemma AbsorbName(snapshot: Option<ChatResult>, r: ChatResult, names: seq<string>)
    requires HasDelta(r) && SnapshotOk(snapshot)
    requires snapshot.None? ==> names == []
    requires snapshot.Some? ==> Str(CallName(snapshot.value)) == Join(names)
    ensures Str(CallName(Absorb(snapshot, r).value)) ==
      Join(names + if snapshot.None? || AppendsCall(Delta0(r)) then [DeltaName(Delta0(r))] else [])
  {
    var y := DeltaName(Delta0(r));
    if snapshot.None? || AppendsCall(Delta0(r)) {
      JoinAppend(names, [y]);
      assert Join([y]) == Join([]) + y;
    } else {
      assert names + [] == names;
    }
  }

  /** One chunk's effect on the stored result. */
  lemma SnapshotStep(g: Gate, ds: seq<ChatResult>)
    requires ds != []
    ensures HeldBack(g, ds) ==> GatedRun(g, ds).snapshot == Absorb(GatedRun(g, Prefix(ds)).snapshot, Last(ds))
    ensures !HeldBack(g, ds) ==> GatedRun(g, ds).snapshot == GatedRun(g, Prefix(ds)).snapshot
  {
    GatedBufferIsGateText(g, ds);
    GatedBufferIsGateText(g, Prefix(ds));
  }

  lemma {:induction false} NothingHeldBack(g: Gate, ds: seq<ChatResult>)
    requires !AnyHeldBack(g, ds)
    ensures HeldBackArgs(g, ds) == [] && HeldBackNames(g, ds) == [] && HeldBackFinish(g, ds).None?
    decreases |ds|
  {
    if ds != [] {
      NothingHeldBack(g, Prefix(ds));
    }
  }

  /**
   * The gate only ever looks at a prefix of the stream's text, and at all of
   * it while the buffer is still growing.
   */
  lemma {:induction false} GateTextIsPrefix(g: Gate, ds: seq<ChatResult>)
    ensures StartsWith(AllText(ds), GateText(g, ds))
    ensures g.ActionPrefix? || (g.Fence? && Utf16Length(GateText(g, ds)) < Utf16Length(g.functionToken)) ==> GateText(g, ds) == AllText(ds)
    decreases |ds|
  {
    if ds != [] {
      GateTextIsPrefix(g, Prefix(ds));
      var b := GateText(g, Prefix(ds));
      var a := AllText(Prefix(ds));
      var c := Str(ContentOf(Last(ds)));
      assert AllText(ds) == a + c;
      StartsWithExtend(a, b, c);
      StartsWithExtend(a, a, c);
      if g.Open? || (g.Fence? && Utf16Length(b) >= Utf16Length(g.functionToken)) {
        StartsWithTrans(a + c, a, b);
      } else {
        assert b == a;
      }
    }
  }

  /**
   * While the stream's text does not close the gate, the decoder forwards
   * every non-empty content fragment, in order.
   */
  lemma {:induction false} OpenGateForwardsAll(g: Gate, ds: seq<ChatResult>)
    requires !Closed(g, AllText(ds))
    ensures GatedRun(g, ds).out == NonEmptyContents(ds)
    decreases |ds|
  {
    if ds != [] {
      var a := AllText(Prefix(ds));
      assert AllText(ds) == a + Str(ContentOf(Last(ds)));
      StartsWithExtend(a, a, Str(ContentOf(Last(ds))));
      if Closed(g, a) {
        ClosedExtends(g, a, AllText(ds));
      }
      OpenGateForwardsAll(g, Prefix(ds));
      GatedYieldsPassed(g, ds);
      GatedYieldsPassed(g, Prefix(ds));
      GatedBufferIsGateText(g, ds);
      GateTextIsPrefix(g, ds);
      if Closed(g, GateText(g, ds)) {
        ClosedExtends(g, GateText(g, ds), AllText(ds));
      }
    }
  }

  /**
   * Prefix gating is monotone: once the buffer closes the gate, no later
   * chunk is forwarded and the builder does not grow.
   */
  lemma {:induction false} ClosedGateStaysClosed(g: Gate, p: seq<ChatResult>, q: seq<ChatResult>)
    requires Closed(g, GatedRun(g, p).buffer)
    ensures Closed(g, GatedRun(g, p + q).buffer)
    ensures GatedRun(g, p + q).out == GatedRun(g, p).out
    ensures GatedRun(g, p + q).builder == GatedRun(g, p).builder
    decreases |q|
  {
    if q == [] {
      assert p + q == p;
    } else {
      assert Prefix(p + q) == p + Prefix(q);
      assert Last(p + q) == Last(q);
      ClosedGateStaysClosed(g, p, Prefix(q));
      var b := GatedRun(g, p + Prefix(q)).buffer;
      var c := ContentOf(Last(q));
      if g.ActionPrefix? || (g.Fence? && Utf16Length(b) < Utf16Length(g.functionToken)) {
        StartsWithExtend(b, b, Str(c));
        ClosedExtends(g, b, b + Str(c));
      }
    }
  }

  /**
   * The plain decoder forwards exactly the non-empty content fragments, and
   * a function-call-only stream yields nothing, so nothing is added to the
   * history (Conversation.cs:296-301, 333-336).
   */
  lemma PlainForwardsContent(ds: seq<ChatResult>)
    ensures GatedRun(Open, ds).out == NonEmptyContents(ds)
    ensures Silent(ds) ==> GatedRun(Open, ds).out == [] && GatedRun(Open, ds).builder == ""
  {
    OpenGateForwardsAll(Open, ds);
    if Silent(ds) {
      SilentHasNoContents(ds);
    }
  }
}
