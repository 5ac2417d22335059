/**
 * The chat records exchanged with the endpoint: ChatMessage with its
 * FunctionCall, the choices of a ChatResult, and the in-place edits the
 * decoders make to the first choice of the most recent result.
 */
module ChatMessages {
  import opened Wrappers

  /** ChatMessageRole; the conversion from the wire string is not part of this model. */
  datatype Role = System | User | Assistant | Function | Tool

  /** A (possibly partial) function call: either field may be null. */
  datatype FunctionCall = FunctionCall(name: Option<string>, arguments: Option<string>)

  /**
   * ChatMessage. `toolCall` is the Function of the first entry of ToolCalls,
   * `thinking` the flag the reasoning decoders keep on the stored delta.
   */
  datatype ChatMessage = ChatMessage(
    role: Option<Role>,
    content: Option<string>,
    name: Option<string>,
    functionCall: Option<FunctionCall>,
    reasoningContent: Option<string>,
    toolCall: Option<FunctionCall>,
    thinking: bool)

  /** `new ChatMessage(role, content)`: every other field null. */
  function NewMessage(role: Role, content: string): ChatMessage
  {
    ChatMessage(Some(role), Some(content), None, None, None, None, false)
  }

  /** A choice: the full message (non-streaming) or the delta (streaming), and why generation stopped. */
  datatype Choice = Choice(message: Option<ChatMessage>, delta: Option<ChatMessage>, finishReason: Option<string>)

  datatype ChatResult = ChatResult(choices: seq<Choice>)

  /** A null string reads as "" when concatenated. */
  function Str(s: Option<string>): string
  {
    s.GetOr("")
  }

  predicate IsNullOrEmpty(s: Option<string>)
  {
    s.None? || s.value == ""
  }

  /** C# `a + b` on strings: null operands count as "", the result is never null. */
  function Concat(a: Option<string>, b: Option<string>): Option<string>
  {
    Some(Str(a) + Str(b))
  }

  /** `res.Choices.FirstOrDefault()?.Delta`. */
  function FirstDelta(r: ChatResult): Option<ChatMessage>
  {
    if |r.choices| == 0 then None else r.choices[0].delta
  }

  /** `res.Choices.FirstOrDefault()?.FinishReason`. */
  function FinishOf(r: ChatResult): Option<string>
  {
    if |r.choices| == 0 then None else r.choices[0].finishReason
  }

  predicate HasDelta(r: ChatResult)
  {
    FirstDelta(r).Some?
  }

  function Delta0(r: ChatResult): ChatMessage
    requires HasDelta(r)
  {
    FirstDelta(r).value
  }

  /** The function call stored on the first delta, if any. */
  function CallOf(r: ChatResult): Option<FunctionCall>
  {
    if HasDelta(r) then Delta0(r).functionCall else None
  }

  /** The accumulated argument text of the stored call ("" when there is none). */
  function ArgsText(r: ChatResult): string
  {
    match CallOf(r)
    case None => ""
    case Some(fc) => Str(fc.arguments)
  }

  function CallName(r: ChatResult): Option<string>
  {
    match CallOf(r)
    case None => None
    case Some(fc) => fc.name
  }

  /** The argument text a delta's own function call carries. */
  function DeltaArgs(d: ChatMessage): string
  {
    match d.functionCall
    case None => ""
    case Some(fc) => Str(fc.arguments)
  }

  // In-place edits of Choices[0] of a stored result.

  /**
   * `r'` differs from `r` at most in the delta of its first choice: the same
   * number of choices, the other choices, and the first choice's message and
   * finish reason are all kept.
   */
  predicate OnlyDeltaChanged(r: ChatResult, r': ChatResult)
  {
    OtherChoicesKept(r, r') &&
    r'.choices[0].finishReason == r.choices[0].finishReason
  }

  /**
   * `r'` keeps the number of choices, the other choices and the first
   * choice's message of `r`: only its delta and finish reason may differ.
   */
  predicate OtherChoicesKept(r: ChatResult, r': ChatResult)
  {
    |r'.choices| == |r.choices| > 0 &&
    r'.choices[1..] == r.choices[1..] &&
    r'.choices[0].message == r.choices[0].message
  }

  /**
   * `r'` is `r` with at most the call on its first delta and the first
   * choice's finish reason changed: the text, reasoning, thinking flag and
   * role of the delta, the first choice's message and the other choices are
   * all kept.
   */
  predicate CallOnlyEdited(r: ChatResult, r': ChatResult)
  {
    HasDelta(r) && HasDelta(r') && OtherChoicesKept(r, r') &&
    Delta0(r') == Delta0(r).(functionCall := CallOf(r'))
  }

  /** Edits of the call and finish reason compose. */
  lemma CallOnlyEditedTwice(a: ChatResult, b: ChatResult, c: ChatResult)
    requires CallOnlyEdited(a, b) && CallOnlyEdited(b, c)
    ensures CallOnlyEdited(a, c)
  {
    assert a.choices[1..] == b.choices[1..] == c.choices[1..];
  }

  function WithDelta(r: ChatResult, m: ChatMessage): (r': ChatResult)
    requires |r.choices| > 0
    ensures HasDelta(r') && Delta0(r') == m && FinishOf(r') == FinishOf(r)
    ensures OnlyDeltaChanged(r, r')
  {
    r.(choices := r.choices[0 := r.choices[0].(delta := Some(m))])
  }

  function WithFinish(r: ChatResult, f: Option<string>): (r': ChatResult)
    requires |r.choices| > 0
    ensures FirstDelta(r') == FirstDelta(r) && FinishOf(r') == f
    ensures OtherChoicesKept(r, r')
  {
    r.(choices := r.choices[0 := r.choices[0].(finishReason := f)])
  }

  /**
   * `FunctionCall ??= new FunctionCall(); Arguments += fc.Arguments; Name += fc.Name;`
   * on the stored delta.
   */
  function AppendCallFragment(r: ChatResult, fc: FunctionCall): (r': ChatResult)
    requires HasDelta(r)
    ensures HasDelta(r') && FinishOf(r') == FinishOf(r) && OnlyDeltaChanged(r, r')
    ensures ArgsText(r') == ArgsText(r) + Str(fc.arguments)
    ensures CallName(r') == Some(Str(CallName(r)) + Str(fc.name))
    ensures Delta0(r') == Delta0(r).(functionCall := CallOf(r'))
  {
    var m := Delta0(r);
    var prior := m.functionCall.GetOr(FunctionCall(None, None));
    WithDelta(r, m.(functionCall := Some(FunctionCall(Concat(prior.name, fc.name), Concat(prior.arguments, fc.arguments)))))
  }

  /**
   * The AliQwen edit: `FunctionCall ??= new FunctionCall(); Arguments += tc.Arguments;`
   * the name is replaced when the fragment carries one; the finish reason becomes "function_call".
   */
  function AppendToolFragment(r: ChatResult, tc: FunctionCall): (r': ChatResult)
    requires HasDelta(r)
    ensures HasDelta(r') && FinishOf(r') == Some("function_call")
    ensures ArgsText(r') == ArgsText(r) + Str(tc.arguments)
    ensures CallName(r') == if tc.name.Some? then tc.name else CallName(r)
    ensures Delta0(r') == Delta0(r).(functionCall := CallOf(r'))
    ensures OtherChoicesKept(r, r')
  {
    var m := Delta0(r);
    var prior := m.functionCall.GetOr(FunctionCall(None, None));
    var call := FunctionCall(if tc.name.Some? then tc.name else prior.name, Concat(prior.arguments, tc.arguments));
    WithFinish(WithDelta(r, m.(functionCall := Some(call))), Some("function_call"))
  }

  /** A parsed tool call replaces the stored call; the finish reason becomes "function_call". */
  function RecordToolCall(r: ChatResult, fc: FunctionCall): (r': ChatResult)
    requires HasDelta(r)
    ensures HasDelta(r') && CallOf(r') == Some(fc) && FinishOf(r') == Some("function_call")
    ensures Delta0(r') == Delta0(r).(functionCall := Some(fc))
    ensures OtherChoicesKept(r, r')
  {
    WithFinish(WithDelta(r, Delta0(r).(functionCall := Some(fc))), Some("function_call"))
  }

  /** Recording a second tool call overwrites the first entirely. */
  lemma RecordToolCallTwice(r: ChatResult, a: FunctionCall, b: FunctionCall)
    requires HasDelta(r)
    ensures RecordToolCall(RecordToolCall(r, a), b) == RecordToolCall(r, b)
  {
    var r1 := RecordToolCall(r, a);
    assert r1.choices[0] == r.choices[0].(delta := Some(Delta0(r).(functionCall := Some(a))), finishReason := Some("function_call"));
    assert RecordToolCall(r1, b).choices == RecordToolCall(r, b).choices;
  }

  function SetThinking(r: ChatResult, b: bool): (r': ChatResult)
    requires HasDelta(r)
    ensures HasDelta(r') && Delta0(r') == Delta0(r).(thinking := b)
    ensures OnlyDeltaChanged(r, r') && FinishOf(r') == FinishOf(r)
  {
    WithDelta(r, Delta0(r).(thinking := b))
  }

  /** `ReasoningContent += x` on the stored delta. */
  function AddReasoning(r: ChatResult, x: Option<string>): (r': ChatResult)
    requires HasDelta(r)
    ensures HasDelta(r') && Delta0(r') == Delta0(r).(reasoningContent := Concat(Delta0(r).reasoningContent, x))
    ensures OnlyDeltaChanged(r, r') && FinishOf(r') == FinishOf(r)
  {
    WithDelta(r, Delta0(r).(reasoningContent := Concat(Delta0(r).reasoningContent, x)))
  }

  /** `Content += x` on the stored delta. */
  function AddContent(r: ChatResult, x: Option<string>): (r': ChatResult)
    requires HasDelta(r)
    ensures HasDelta(r') && Delta0(r') == Delta0(r).(content := Concat(Delta0(r).content, x))
    ensures OnlyDeltaChanged(r, r') && FinishOf(r') == FinishOf(r)
  {
    WithDelta(r, Delta0(r).(content := Concat(Delta0(r).content, x)))
  }
}
