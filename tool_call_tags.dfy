/**
 * ProcessStreamChunkQwen: pull a `<tool_call>…</tool_call>` block out of
 * accumulated model text and read the JSON object inside it.
 *
 * The .NET pattern `<tool_call>(.*?)</tool_call>` with RegexOptions.Singleline
 * is specified directly: the leftmost opening tag, then the nearest closing tag
 * after it, with anything (newlines included) in between. The JSON library is
 * a parameter of type `string -> JsonParse`.
 */
module ToolCallTags {
  import opened Wrappers
  import opened Text
  import opened ChatMessages

  const OpenTag := "<tool_call>"
  const CloseTag := "</tool_call>"

  /**
   * What JObject.Parse followed by reading "name" and "arguments" yields:
   * a JsonReaderException, or an object whose two tokens are present or
   * missing (a present token is given already rendered as text: the name by
   * ToString, the arguments serialised by JsonConvert).
   */
  datatype JsonParse = ReaderError | JsonObject(name: Option<string>, arguments: Option<string>)

  /** An opening tag is followed, later and without overlap, by a closing tag. */
  ghost predicate HasTagPair(s: string)
  {
    exists i: nat, j: nat :: OccursAt(s, OpenTag, i) && i + |OpenTag| <= j && OccursAt(s, CloseTag, j)
  }

  /** The text captured by group 1 of the lazy, single-line tag pattern. */
  function TagContent(s: string): (r: Option<string>)
    ensures r.Some? <==> HasTagPair(s)
    ensures r.Some? ==> var k := IndexOf(s, OpenTag).value + |OpenTag|;
      OccursAt(s, r.value + CloseTag, k) &&
      forall j :: k <= j < k + |r.value| ==> !OccursAt(s, CloseTag, j)
  {
    match IndexOf(s, OpenTag)
    case None => None
    case Some(i) =>
      match IndexFrom(s, CloseTag, i + |OpenTag|)
      case None =>
        NoCloseAfterFirstOpen(s, i);
        None
      case Some(j) =>
        assert OccursAt(s, OpenTag, i) && OccursAt(s, CloseTag, j);
        assert s[i + |OpenTag|..j] + CloseTag == s[i + |OpenTag|..j + |CloseTag|];
        Some(s[i + |OpenTag|..j])
  }

  /** No closing tag after the first opening tag means no tag pair at all. */
  lemma NoCloseAfterFirstOpen(s: string, i: nat)
    requires IndexOf(s, OpenTag) == Some(i)
    requires IndexFrom(s, CloseTag, i + |OpenTag|).None?
    ensures !HasTagPair(s)
  {
    forall i': nat, j: nat | OccursAt(s, OpenTag, i') && i' + |OpenTag| <= j
      ensures !OccursAt(s, CloseTag, j)
    {
      assert i <= i';
    }
  }

  /**
   * The call in a tag pair, or None: no tag pair, a JSON reader failure, or
   * a missing "name" or "arguments" field.
   */
  function ProcessStreamChunkQwen(input: string, json: string -> JsonParse): (r: Option<FunctionCall>)
    ensures r.Some? <==>
      HasTagPair(input) && json(TagContent(input).value).JsonObject? &&
      json(TagContent(input).value).name.Some? && json(TagContent(input).value).arguments.Some?
    ensures r.Some? ==> r.value.name.Some? && r.value.arguments.Some?
    ensures r.Some? ==> r.value == FunctionCall(json(TagContent(input).value).name, json(TagContent(input).value).arguments)
  {
    match TagContent(input)
    case None => None
    case Some(content) =>
      match json(content)
      case ReaderError => None
      case JsonObject(name, arguments) =>
        if name.Some? && arguments.Some? then Some(FunctionCall(name, arguments)) else None
  }

  /**
   * Only a closed tag is read: text that starts with an opening tag and has
   * no closing tag after it never produces a call, whatever the JSON reader does.
   */
  lemma {:induction false} UnclosedTagIsNotACall(body: string, json: string -> JsonParse)
    requires !Contains(body, CloseTag)
    ensures ProcessStreamChunkQwen(OpenTag + body, json).None?
  {
    var s := OpenTag + body;
    if HasTagPair(s) {
      var i: nat, j: nat :| OccursAt(s, OpenTag, i) && i + |OpenTag| <= j && OccursAt(s, CloseTag, j);
      var k := j - |OpenTag|;
      assert s[j..j + |CloseTag|] == body[k..k + |CloseTag|];
      assert OccursAt(body, CloseTag, k);
    }
  }
}
