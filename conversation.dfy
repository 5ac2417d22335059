/**
 * The Conversation class (Conversation.cs): a chat history and the most
 * recent result, the helpers that append to the history, the non-streaming
 * handlers and one streaming decoder per backend. The endpoint's response
 * is a parameter: `res` for a completion, `ds` for the chunks of a stream,
 * whose yielded strings are returned as `out`.
 */
module Conversations {
  import opened Wrappers
  import opened Text
  import opened ChatMessages
  import opened Streams
  import opened ToolCallTags
  import opened GatedDecoding
  import opened ReasoningDecoding
  import opened QwenDecoding
  import opened MarkerDecoding

  class Conversation {
    /** _Messages */
    var messages: seq<ChatMessage>
    /** MostRecentApiResult */
    var recent: Option<ChatResult>

    constructor()
      ensures messages == [] && recent == None
    {
      messages := [];
      recent := None;
    }

    // ------------------------------------------------------------ history

    method AppendMessage(message: ChatMessage)
      modifies this
      ensures messages == old(messages) + [message]
      ensures recent == old(recent)
    {
      messages := messages + [message];
    }

    method AppendRoleMessage(role: Role, content: string)
      modifies this
      ensures messages == old(messages) + [NewMessage(role, content)]
      ensures recent == old(recent)
    {
      AppendMessage(NewMessage(role, content));
    }

    method AppendUserInput(content: string)
      modifies this
      ensures messages == old(messages) + [NewMessage(User, content)]
      ensures recent == old(recent)
    {
      AppendMessage(NewMessage(User, content));
    }

    method AppendUserInputWithName(userName: string, content: string)
      modifies this
      ensures messages == old(messages) + [NewMessage(User, content).(name := Some(userName))]
      ensures recent == old(recent)
    {
      AppendMessage(NewMessage(User, content).(name := Some(userName)));
    }

    method AppendSystemMessage(content: string)
      modifies this
      ensures messages == old(messages) + [NewMessage(System, content)]
      ensures recent == old(recent)
    {
      AppendMessage(NewMessage(System, content));
    }

    method AppendExampleChatbotOutput(content: string)
      modifies this
      ensures messages == old(messages) + [NewMessage(Assistant, content)]
      ensures recent == old(recent)
    {
      AppendMessage(NewMessage(Assistant, content));
    }

    method AppendFunctionMessage(functionName: string, content: string)
      modifies this
      ensures messages == old(messages) + [NewMessage(Function, content).(name := Some(functionName))]
      ensures recent == old(recent)
    {
      AppendMessage(NewMessage(Function, content).(name := Some(functionName)));
    }

    method AppendToolMessage(functionName: string, content: string)
      modifies this
      ensures messages == old(messages) + [NewMessage(Tool, content).(name := Some(functionName))]
      ensures recent == old(recent)
    {
      AppendMessage(NewMessage(Tool, content).(name := Some(functionName)));
    }

    // ------------------------------------------------------------ non-streaming

    /**
     * The completion `res` becomes the most recent result; its first
     * message, if there is a choice, is appended and its content returned.
     * A choice without a message would fail on `newMsg.Content`.
     */
    method GetResponseFromChatbot(res: ChatResult) returns (content: Option<string>)
      requires |res.choices| > 0 ==> res.choices[0].message.Some?
      modifies this
      ensures recent == Some(res)
      ensures |res.choices| > 0 ==>
        messages == old(messages) + [res.choices[0].message.value] && content == res.choices[0].message.value.content
      ensures |res.choices| == 0 ==> messages == old(messages) && content.None?
    {
      recent := Some(res);
      if |res.choices| > 0 {
        var newMsg := res.choices[0].message.value;
        AppendMessage(newMsg);
        return newMsg.content;
      }
      return None;
    }

    method GetResponseFromLLamaChatbot(res: ChatResult) returns (content: Option<string>)
      requires |res.choices| > 0 ==> res.choices[0].message.Some?
      modifies this
      ensures recent == Some(res)
      ensures |res.choices| > 0 ==>
        messages == old(messages) + [res.choices[0].message.value] && content == res.choices[0].message.value.content
      ensures |res.choices| == 0 ==> messages == old(messages) && content.None?
    {
      content := GetResponseFromChatbot(res);
    }

    /** Gemma's handler returns the content but leaves the history alone. */
    method GetResponseFromGemmaChatbot(res: ChatResult) returns (content: Option<string>)
      requires |res.choices| > 0 ==> res.choices[0].message.Some?
      modifies this
      ensures recent == Some(res)
      ensures messages == old(messages)
      ensures content == if |res.choices| > 0 then res.choices[0].message.value.content else None
    {
      recent := Some(res);
      if |res.choices| > 0 {
        return res.choices[0].message.value.content;
      }
      return None;
    }

    // ------------------------------------------------------------ gated streams

    /**
     * The loop shared by the plain, Gemma, Phi3 and GLM4 decoders; only
     * the gate and whether the response is kept in the history differ.
     */
    method StreamGated(g: Gate, ds: seq<ChatResult>, keepHistory: bool) returns (out: seq<string>)
      modifies this
      ensures out == GatedRun(g, ds).out
      ensures recent == GatedRun(g, ds).snapshot
      ensures messages == old(messages) +
        if keepHistory && LastRole(ds).Some? && GatedRun(g, ds).builder != ""
        then [NewMessage(LastRole(ds).value, GatedRun(g, ds).builder)] else []
    {
      var builder, role, snapshot, buffer;
      out, builder, role, snapshot, buffer := DecodeGated(g, ds);
      recent := snapshot;
      if keepHistory && role.Some? && |builder| > 0 {
        AppendRoleMessage(role.value, builder);
      }
    }

    /** StreamResponseEnumerableFromChatbotAsync. */
    method StreamResponseFromChatbot(ds: seq<ChatResult>) returns (out: seq<string>)
      modifies this
      ensures out == NonEmptyContents(ds)
      ensures recent == GatedRun(Open, ds).snapshot
      ensures messages == old(messages) +
        if LastRole(ds).Some? && Join(out) != "" then [NewMessage(LastRole(ds).value, Join(out))] else []
    {
      PlainForwardsContent(ds);
      out := StreamGated(Open, ds, true);
    }

    /** StreamResponseEnumerableFromGemmaChatbotAsync: the history is not touched. */
    method StreamResponseFromGemmaChatbot(ds: seq<ChatResult>, functionToken: string) returns (out: seq<string>)
      modifies this
      ensures out == GatedRun(Fence(functionToken), ds).out
      ensures recent == GatedRun(Fence(functionToken), ds).snapshot
      ensures messages == old(messages)
    {
      out := StreamGated(Fence(functionToken), ds, false);
    }

    method StreamResponseFromPhi3Chatbot(ds: seq<ChatResult>) returns (out: seq<string>)
      modifies this
      ensures out == GatedRun(ActionPrefix, ds).out
      ensures recent == GatedRun(ActionPrefix, ds).snapshot
      ensures messages == old(messages) +
        if LastRole(ds).Some? && Join(out) != "" then [NewMessage(LastRole(ds).value, Join(out))] else []
    {
      out := StreamGated(ActionPrefix, ds, true);
    }

    method StreamResponseFromGLM4Chatbot(ds: seq<ChatResult>) returns (out: seq<string>)
      modifies this
      ensures out == GatedRun(ActionPrefix, ds).out
      ensures recent == GatedRun(ActionPrefix, ds).snapshot
      ensures messages == old(messages) +
        if LastRole(ds).Some? && Join(out) != "" then [NewMessage(LastRole(ds).value, Join(out))] else []
    {
      out := StreamGated(ActionPrefix, ds, true);
    }

    // ------------------------------------------------------------ reasoning streams

    /** StreamResponseEnumerableFromR1ChatbotAsync: the response builder is never written, so the history is not touched. */
    method StreamResponseFromR1Chatbot(ds: seq<ChatResult>) returns (out: seq<string>)
      requires R1Ready(ds)
      modifies this
      ensures out == R1Run(ds).out
      ensures recent == R1Run(ds).snapshot
      ensures messages == old(messages)
    {
      out := [];
      recent := None;
      var i := 0;
      while i < |ds|
        invariant 0 <= i <= |ds|
        invariant R1Ready(ds[..i])
        invariant R1Run(ds[..i]) == R1State(out, recent)
        invariant messages == old(messages)
      {
        var r := ds[i];
        var p := ds[..i + 1];
        assert Prefix(p) == ds[..i] && Last(p) == r;
        if FirstPresent(p).Some? {
          FirstPresentPrefix(ds, i + 1);
        }
        if |r.choices| > 0 && r.choices[0].delta.Some? {
          var d := r.choices[0].delta.value;
          if !IsNullOrEmpty(d.reasoningContent) {
            recent := Some(AddReasoning(SetThinking(recent.value, true), d.reasoningContent));
            out := out + [d.reasoningContent.value];
          } else if !IsNullOrEmpty(d.content) {
            var s := recent.value;
            if Delta0(s).thinking && !IsNullOrEmpty(Delta0(s).reasoningContent) {
              s := SetThinking(s, false);
            }
            recent := Some(AddContent(s, d.content));
            out := out + [d.content.value];
          } else if recent.None? {
            recent := Some(r);
          }
        }
        i := i + 1;
      }
      assert ds[..|ds|] == ds;
    }

    /** StreamResponseEnumerableFromQwQChatbotAsync: no history is kept. */
    method StreamResponseFromQwQChatbot(ds: seq<ChatResult>, json: string -> JsonParse) returns (out: seq<string>)
      requires QwQReady(ds)
      modifies this
      ensures out == QwQRun(ds, json).out
      ensures recent == QwQRun(ds, json).snapshot
      ensures messages == old(messages)
    {
      var snapshot, buffer;
      out, snapshot, buffer := DecodeQwQ(ds, json);
      recent := snapshot;
    }

    // ------------------------------------------------------------ Qwen streams

    /** StreamResponseEnumerableFromQwenChatbotAsync() for vLLM. */
    method StreamResponseFromQwenChatbot(ds: seq<ChatResult>, json: string -> JsonParse) returns (out: seq<string>)
      modifies this
      ensures out == QwenRun(ds, json).out
      ensures recent == QwenRun(ds, json).snapshot
      ensures messages == old(messages) +
        if LastRole(ds).Some? && Join(out) != "" then [NewMessage(LastRole(ds).value, Join(out))] else []
    {
      var builder, role, snapshot, buffer;
      out, builder, role, snapshot, buffer := DecodeQwen(ds, json);
      recent := snapshot;
      if role.Some? && |builder| > 0 {
        AppendRoleMessage(role.value, builder);
      }
    }

    /** StreamResponseEnumerableFromAliQwenChatbotAsync. */
    method StreamResponseFromAliQwenChatbot(ds: seq<ChatResult>) returns (out: seq<string>)
      requires AliReady(ds)
      modifies this
      ensures out == NonEmptyContents(ds)
      ensures recent == AliRun(ds).snapshot
      ensures messages == old(messages) +
        if LastRole(ds).Some? && Join(out) != "" then [NewMessage(LastRole(ds).value, Join(out))] else []
    {
      AliForwardsAll(ds);
      var builder, role, snapshot;
      out, builder, role, snapshot := DecodeAliQwen(ds);
      recent := snapshot;
      if role.Some? && |builder| > 0 {
        AppendRoleMessage(role.value, builder);
      }
    }

    // ------------------------------------------------------------ marker streams

    /**
     * StreamResponseEnumerableFromLLamaChatbotAsync: no history is kept. An
     * empty token array makes `Max` throw before the first chunk is read,
     * after the stored result was cleared: `failed` reports that exception.
     */
    method StreamResponseFromLLamaChatbot(ds: seq<ChatResult>, functionTokens: Option<seq<string>>) returns (out: seq<string>, failed: bool)
      modifies this
      ensures failed <==> TokensOrDefault(functionTokens) == []
      ensures failed ==> out == [] && recent == None
      ensures !failed ==> out == MarkerOutput(TokensOrDefault(functionTokens), ds)
      ensures !failed ==> recent == MarkerRun(TokensOrDefault(functionTokens), ds).snapshot
      ensures messages == old(messages)
    {
      recent := None;
      var tokens := TokensOrDefault(functionTokens);
      if |tokens| == 0 {
        return [], true;
      }
      failed := false;
      var snapshot, buffer, detected, cached;
      out, snapshot, buffer, detected, cached := DecodeMarkers(tokens, ds);
      recent := snapshot;
      if !detected && |buffer| > 0 {
        out := out + [buffer];
      }
    }

    /** StreamResponseEnumerableFromQwenChatbotAsync(string[]) is the same decoder. */
    method StreamResponseFromQwenChatbotWithTokens(ds: seq<ChatResult>, functionTokens: Option<seq<string>>) returns (out: seq<string>, failed: bool)
      modifies this
      ensures failed <==> TokensOrDefault(functionTokens) == []
      ensures failed ==> out == [] && recent == None
      ensures !failed ==> out == MarkerOutput(TokensOrDefault(functionTokens), ds)
      ensures !failed ==> recent == MarkerRun(TokensOrDefault(functionTokens), ds).snapshot
      ensures messages == old(messages)
    {
      out, failed := StreamResponseFromLLamaChatbot(ds, functionTokens);
    }
  }

  /** The loop of the gated decoders (Conversation.cs:289-331 and its copies). */
  method DecodeGated(g: Gate, ds: seq<ChatResult>)
    returns (out: seq<string>, builder: string, role: Option<Role>, snapshot: Option<ChatResult>, buffer: string)
    ensures GatedRun(g, ds) == GatedState(out, builder, role, snapshot, buffer)
  {
    out, builder, role, snapshot, buffer := [], "", None, None, "";
    var i := 0;
    while i < |ds|
      invariant 0 <= i <= |ds|
      invariant GatedRun(g, ds[..i]) == GatedState(out, builder, role, snapshot, buffer)
    {
      assert Prefix(ds[..i + 1]) == ds[..i] && Last(ds[..i + 1]) == ds[i];
      ghost var next := GatedRun(g, ds[..i + 1]);
      assert next == GatedStep(g, GatedRun(g, ds[..i]), ds[i]);
      out, builder, role, snapshot, buffer := GatedChunk(g, out, builder, role, snapshot, buffer, ds[i]);
      assert next == GatedState(out, builder, role, snapshot, buffer);
      i := i + 1;
    }
    assert ds[..|ds|] == ds;
  }

  /** One chunk of the gated loop. */
  method GatedChunk(g: Gate, out0: seq<string>, builder0: string, role0: Option<Role>,
                    snapshot0: Option<ChatResult>, buffer0: string, r: ChatResult)
    returns (out: seq<string>, builder: string, role: Option<Role>, snapshot: Option<ChatResult>, buffer: string)
    requires SnapshotOk(snapshot0)
    ensures GatedStep(g, GatedState(out0, builder0, role0, snapshot0, buffer0), r)
         == GatedState(out, builder, role, snapshot, buffer)
  {
    out, builder, role, snapshot, buffer := out0, builder0, role0, snapshot0, buffer0;
    if |r.choices| > 0 && r.choices[0].delta.Some? {
      var d := r.choices[0].delta.value;
      if d.role.Some? {
        role := d.role;
      }
      buffer := GrowBuffer(g, buffer, d.content);
      if !IsNullOrEmpty(d.content) && !Closed(g, buffer) {
        builder := builder + d.content.value;
        out := out + [d.content.value];
      } else if snapshot.None? {
        snapshot := Some(r);
      } else {
        var s := snapshot.value;
        if d.functionCall.Some? && !IsNullOrEmpty(d.functionCall.value.arguments) {
          s := AppendCallFragment(s, d.functionCall.value);
        }
        if FinishOf(r).Some? {
          s := WithFinish(s, FinishOf(r));
        }
        snapshot := Some(s);
      }
    }
  }

  /** The loop of the QwQ decoder (Conversation.cs:564-621). */
  method DecodeQwQ(ds: seq<ChatResult>, json: string -> JsonParse)
    returns (out: seq<string>, snapshot: Option<ChatResult>, buffer: string)
    requires QwQReady(ds)
    ensures QwQRun(ds, json) == QwQState(out, snapshot, buffer)
  {
    out, snapshot, buffer := [], None, "";
    var i := 0;
    while i < |ds|
      invariant 0 <= i <= |ds|
      invariant QwQReady(ds[..i])
      invariant QwQRun(ds[..i], json) == QwQState(out, snapshot, buffer)
    {
      var p := ds[..i + 1];
      assert Prefix(p) == ds[..i] && Last(p) == ds[i];
      if FirstPresent(p).Some? {
        FirstPresentPrefix(ds, i + 1);
      }
      QwQRunStep(p, json);
      out, snapshot, buffer := DecodeQwQChunk(out, snapshot, buffer, ds[i], json);
      i := i + 1;
    }
    assert ds[..|ds|] == ds;
  }

  /** The loop of the vLLM Qwen decoder (Conversation.cs:458-490). */
  method DecodeQwen(ds: seq<ChatResult>, json: string -> JsonParse)
    returns (out: seq<string>, builder: string, role: Option<Role>, snapshot: Option<ChatResult>, buffer: string)
    ensures QwenRun(ds, json) == QwenState(out, builder, role, snapshot, buffer)
  {
    out, builder, role, snapshot, buffer := [], "", None, None, "";
    var i := 0;
    while i < |ds|
      invariant 0 <= i <= |ds|
      invariant QwenRun(ds[..i], json) == QwenState(out, builder, role, snapshot, buffer)
    {
      assert Prefix(ds[..i + 1]) == ds[..i] && Last(ds[..i + 1]) == ds[i];
      out, builder, role, snapshot, buffer := DecodeQwenChunk(out, builder, role, snapshot, buffer, ds[i], json);
      i := i + 1;
    }
    assert ds[..|ds|] == ds;
  }

  /** One chunk of the vLLM Qwen loop. */
  method DecodeQwenChunk(out0: seq<string>, builder0: string, role0: Option<Role>,
                         snapshot0: Option<ChatResult>, buffer0: string, r: ChatResult, json: string -> JsonParse)
    returns (out: seq<string>, builder: string, role: Option<Role>, snapshot: Option<ChatResult>, buffer: string)
    requires SnapshotOk(snapshot0)
    ensures QwenStep(QwenState(out0, builder0, role0, snapshot0, buffer0), r, json)
         == QwenState(out, builder, role, snapshot, buffer)
  {
    out, builder, role, snapshot, buffer := out0, builder0, role0, snapshot0, buffer0;
    if |r.choices| > 0 && r.choices[0].delta.Some? {
      var d := r.choices[0].delta.value;
      if d.role.Some? {
        role := d.role;
      }
      buffer := buffer + Str(d.content);
      if !IsNullOrEmpty(d.content) && StartsWith(buffer, OpenTag) {
        var ret := ProcessStreamChunkQwen(buffer, json);
        if ret.Some? && snapshot.Some? {
          snapshot := Some(RecordToolCall(snapshot.value, ret.value));
          out := out + [""];
        }
      } else {
        if !IsNullOrEmpty(d.content) {
          builder := builder + d.content.value;
          out := out + [d.content.value];
        }
        if snapshot.None? {
          snapshot := Some(r);
        }
      }
    }
  }

  /**
   * The loop of the Alibaba decoder: the yields, the response text, the
   * last announced role and the stored result.
   */
  method DecodeAliQwen(ds: seq<ChatResult>) returns (out: seq<string>, builder: string, role: Option<Role>, snapshot: Option<ChatResult>)
    requires AliReady(ds)
    ensures AliRun(ds) == AliState(out, builder, role, snapshot)
  {
    out := [];
    builder := "";
    role := None;
    snapshot := None;
    var i := 0;
    while i < |ds|
      invariant 0 <= i <= |ds|
      invariant AliReady(ds[..i])
      invariant AliRun(ds[..i]) == AliState(out, builder, role, snapshot)
    {
      var r := ds[i];
      var p := ds[..i + 1];
      assert Prefix(p) == ds[..i] && Last(p) == r;
      assert AliReady(p) by {
        AliReadyPrefix(ds, i + 1);
      }
      ghost var next := AliStep(AliState(out, builder, role, snapshot), r);
      assert AliRun(p) == next;
      AliStepSnapshot(AliState(out, builder, role, snapshot), r);
      if snapshot.None? {
        snapshot := Some(r);
      }
      if |r.choices| > 0 && r.choices[0].delta.Some? {
        var d := r.choices[0].delta.value;
        if d.role.Some? {
          role := d.role;
        }
        if d.toolCall.Some? && d.toolCall.value.arguments.Some? {
          snapshot := Some(AppendToolFragment(snapshot.value, d.toolCall.value));
        }
        if !IsNullOrEmpty(d.content) {
          builder := builder + d.content.value;
          out := out + [d.content.value];
        }
      }
      assert AliState(out, builder, role, snapshot) == next;
      i := i + 1;
    }
    assert ds[..|ds|] == ds;
  }

  /**
   * The loop of the LLama decoder, before the end-of-stream flush: the
   * yields, the stored result, the cached text and the two flags.
   */
  method DecodeMarkers(tokens: seq<string>, ds: seq<ChatResult>)
    returns (out: seq<string>, snapshot: Option<ChatResult>, buffer: string, detected: bool, cached: bool)
    requires ValidTokens(tokens)
    ensures MarkerRun(tokens, ds) == MarkerState(out, snapshot, buffer, detected, cached)
  {
    var maxLen := MaxTokenLength(tokens);
    out := [];
    snapshot := None;
    buffer := "";
    detected := false;
    cached := false;
    var i := 0;
    while i < |ds|
      invariant 0 <= i <= |ds|
      invariant MarkerRun(tokens, ds[..i]) == MarkerState(out, snapshot, buffer, detected, cached)
    {
      var r := ds[i];
      assert Prefix(ds[..i + 1]) == ds[..i] && Last(ds[..i + 1]) == r;
      out, snapshot, buffer, detected, cached := DecodeChunk(tokens, maxLen, out, snapshot, buffer, detected, cached, r);
      i := i + 1;
    }
    assert ds[..|ds|] == ds;
  }

  /** One chunk `r` of the LLama decoder's stream. */
  method DecodeChunk(tokens: seq<string>, maxLen: nat,
                     out0: seq<string>, snapshot0: Option<ChatResult>, buffer0: string, detected0: bool, cached0: bool,
                     r: ChatResult)
    returns (out: seq<string>, snapshot: Option<ChatResult>, buffer: string, detected: bool, cached: bool)
    requires SnapshotOk(snapshot0)
    ensures MarkerStep(tokens, maxLen, MarkerState(out0, snapshot0, buffer0, detected0, cached0), r)
         == MarkerState(out, snapshot, buffer, detected, cached)
  {
    out, snapshot, buffer, detected, cached := out0, snapshot0, buffer0, detected0, cached0;
    if |r.choices| > 0 && r.choices[0].delta.Some? {
      var d := r.choices[0].delta.value;
      var s := if snapshot.None? then r else snapshot.value;
      if FinishOf(r) == Some("function_call") {
        detected := true;
      }
      if !IsNullOrEmpty(d.content) {
        var c := d.content.value;
        ghost var st1 := Advance(tokens, maxLen, MarkerState(out0, snapshot0, buffer0, detected0, cached0).(detected := detected), c);
        out, buffer, detected, cached := ScanText(tokens, maxLen, snapshot0, out, buffer, detected, cached, c);
        assert st1 == MarkerState(out, snapshot0, buffer, detected, cached);
        if detected && d.functionCall.Some? && !IsNullOrEmpty(d.functionCall.value.arguments) {
          s := AppendCallFragment(s, d.functionCall.value);
        }
        if detected && FinishOf(r).Some? {
          s := WithFinish(s, Some("function_call"));
        }
      }
      snapshot := Some(s);
    }
  }

  /** The text handling of one non-empty content fragment `c`. */
  method ScanText(tokens: seq<string>, maxLen: nat, ghost snapshot: Option<ChatResult>,
                  out0: seq<string>, buffer0: string, detected0: bool, cached0: bool, c: string)
    returns (out: seq<string>, buffer: string, detected: bool, cached: bool)
    ensures Advance(tokens, maxLen, MarkerState(out0, snapshot, buffer0, detected0, cached0), c)
         == MarkerState(out, snapshot, buffer, detected, cached)
  {
    out, buffer, detected, cached := out0, buffer0, detected0, cached0;
    if StartsCache(c) {
      cached := true;
    }
    buffer := buffer + c;
    if cached {
      if !detected {
        var k := FindToken(tokens, buffer);
        if k.Some? {
          var parts := SplitOnce(buffer, tokens[k.value]);
          out := out + Before(parts.0);
          detected := true;
          buffer := parts.1;
        }
      }
      if !detected && Utf16Length(buffer) > maxLen && Contains(c, "\n") {
        out := out + [buffer];
        buffer := "";
        cached := false;
      }
    } else {
      out := out + [buffer];
      buffer := "";
    }
  }

  /** One chunk of the QwQ stream. */
  method DecodeQwQChunk(out0: seq<string>, snapshot0: Option<ChatResult>, buffer0: string, r: ChatResult, json: string -> JsonParse)
    returns (out: seq<string>, snapshot: Option<ChatResult>, buffer: string)
    requires SnapshotOk(snapshot0)
    requires snapshot0.None? && !IsNullOrEmpty(ContentOf(r)) ==> Contains(buffer0 + ContentOf(r).value, OpenTag)
    ensures QwQStep(QwQState(out0, snapshot0, buffer0), r, json) == QwQState(out, snapshot, buffer)
  {
    out, snapshot, buffer := out0, snapshot0, buffer0;
    if |r.choices| > 0 && r.choices[0].delta.Some? {
      var d := r.choices[0].delta.value;
      if |buffer| == 0 && snapshot.Some? {
        snapshot := Some(SetThinking(snapshot.value, true));
      }
      buffer := buffer + Str(d.content);
      if !IsNullOrEmpty(d.content) {
        var index := IndexOf(buffer, OpenTag);
        if index.Some? {
          var ret := ProcessStreamChunkQwen(buffer[index.value..], json);
          if ret.Some? && snapshot.Some? {
            snapshot := Some(RecordToolCall(snapshot.value, ret.value));
            out := out + [""];
          }
        } else if d.content.value == CloseThink {
          snapshot := Some(SetThinking(snapshot.value, false));
          out := out + [""];
        } else {
          if Delta0(snapshot.value).thinking {
            snapshot := Some(AddReasoning(snapshot.value, d.content));
          } else {
            snapshot := Some(AddContent(snapshot.value, d.content));
          }
          out := out + [d.content.value];
        }
      } else if snapshot.None? {
        snapshot := Some(r);
      }
    }
  }

  /** The `foreach` over the function tokens: the first one the buffer contains. */
  method FindToken(tokens: seq<string>, buffer: string) returns (k: Option<nat>)
    ensures k == FirstToken(tokens, buffer)
  {
    var j := 0;
    while j < |tokens|
      invariant 0 <= j <= |tokens|
      invariant FirstTokenFrom(tokens, buffer, j) == FirstToken(tokens, buffer)
    {
      if Contains(buffer, tokens[j]) {
        return Some(j);
      }
      j := j + 1;
    }
    return None;
  }

  lemma AliReadyPrefix(ds: seq<ChatResult>, i: nat)
    requires AliReady(ds) && 0 < i <= |ds|
    ensures AliReady(ds[..i])
  {
    if AnyToolArgs(ds[..i]) {
      ToolArgsPrefix(ds, i);
    }
  }

  lemma {:induction false} ToolArgsPrefix(ds: seq<ChatResult>, i: nat)
    requires i <= |ds| && AnyToolArgs(ds[..i])
    ensures AnyToolArgs(ds)
    decreases |ds|
  {
    if i < |ds| {
      assert Prefix(ds)[..i] == ds[..i];
      ToolArgsPrefix(Prefix(ds), i);
    } else {
      assert ds[..i] == ds;
    }
  }
}
