/**
 * The marker-scanning decoder used for LLama and, in a verbatim copy, for
 * Qwen with explicit function tokens (Conversation.cs:687-798, 800-911).
 * Content is forwarded at once until a fragment opens a cache (a newline, a
 * code fence or "Action"); cached text is searched for the function tokens
 * and either split at the first one found or flushed at a later newline.
 */
module MarkerDecoding {
  import opened Wrappers
  import opened Text
  import opened ChatMessages
  import opened Streams

  const DefaultFunctionTokens: seq<string> :=
    ["Action:", "```\nAction:", "```tool_call\nAction:", "```tool_code\nAction:", "```python\nAction:"]

  /** `functionTokens ??= …`: the tokens the decoder uses. */
  function TokensOrDefault(tokens: Option<seq<string>>): seq<string>
  {
    tokens.GetOr(DefaultFunctionTokens)
  }

  /** Tokens the decoder runs with: `Max` needs at least one (an empty array throws). */
  predicate ValidTokens(tokens: seq<string>)
  {
    |tokens| > 0
  }

  /** `maxFunctionTokenLength`, counted in UTF-16 code units like C#'s `Length`. */
  function MaxTokenLength(tokens: seq<string>): (m: nat)
    requires |tokens| > 0
    ensures forall i :: 0 <= i < |tokens| ==> Utf16Length(tokens[i]) <= m
    ensures exists i :: 0 <= i < |tokens| && Utf16Length(tokens[i]) == m
  {
    if |tokens| == 1 then Utf16Length(tokens[0])
    else
      var m := MaxTokenLength(tokens[1..]);
      assert forall i :: 1 <= i < |tokens| ==> tokens[i] == tokens[1..][i - 1];
      if Utf16Length(tokens[0]) > m then Utf16Length(tokens[0]) else m
  }

  /** The index of the first token, in array order from `i`, that occurs in `b`. */
  function FirstTokenFrom(tokens: seq<string>, b: string, i: nat): (r: Option<nat>)
    requires i <= |tokens|
    ensures r.Some? ==> i <= r.value < |tokens| && Contains(b, tokens[r.value])
    ensures r.Some? ==> forall j :: i <= j < r.value ==> !Contains(b, tokens[j])
    ensures r.None? ==> forall j :: i <= j < |tokens| ==> !Contains(b, tokens[j])
    decreases |tokens| - i
  {
    if i == |tokens| then None
    else if Contains(b, tokens[i]) then Some(i)
    else FirstTokenFrom(tokens, b, i + 1)
  }

  /**
   * The token the `foreach` at Conversation.cs:734-753 splits at: the first
   * one in array order that the buffer contains, not the longest.
   */
  function FirstToken(tokens: seq<string>, b: string): (r: Option<nat>)
    ensures r.Some? ==> r.value < |tokens| && Contains(b, tokens[r.value])
    ensures r.Some? ==> forall j :: 0 <= j < r.value ==> !Contains(b, tokens[j])
    ensures r.None? ==> forall j :: 0 <= j < |tokens| ==> !Contains(b, tokens[j])
  {
    FirstTokenFrom(tokens, b, 0)
  }

  /** A fragment that makes the decoder start caching. */
  predicate StartsCache(c: string)
  {
    Contains(c, "\n") || c == "```" || c == "```\n" || c == "Action"
  }

  datatype MarkerState = MarkerState(
    out: seq<string>,
    snapshot: Option<ChatResult>,
    buffer: string,    // buffer_msg
    detected: bool,    // functionDetected
    cached: bool)      // cacheStarted

  /** The part before a token is yielded unless it is empty or a bare fence. */
  function Before(part: string): seq<string>
  {
    if part == "" || part == "```\n" then [] else [part]
  }

  /** A non-empty content fragment `c` that arrives while caching (Conversation.cs:732-766). */
  function CachedStep(tokens: seq<string>, maxLen: nat, st: MarkerState, c: string): (st': MarkerState)
  {
    var buffer := st.buffer + c;
    var scanned :=
      if st.detected then st.(buffer := buffer, cached := true)
      else match FirstToken(tokens, buffer)
        case None => st.(buffer := buffer, cached := true)
        case Some(i) =>
          var parts := SplitOnce(buffer, tokens[i]);
          st.(out := st.out + Before(parts.0), buffer := parts.1, detected := true, cached := true);
    if !scanned.detected && Utf16Length(scanned.buffer) > maxLen && Contains(c, "\n") then
      scanned.(out := scanned.out + [scanned.buffer], buffer := "", cached := false)
    else scanned
  }

  /** The text handling of a non-empty content fragment `c` (Conversation.cs:722-773). */
  function Advance(tokens: seq<string>, maxLen: nat, st: MarkerState, c: string): (st': MarkerState)
    ensures st'.snapshot == st.snapshot
    ensures st.detected ==> st'.detected
  {
    if st.cached || StartsCache(c) then CachedStep(tokens, maxLen, st, c)
    else st.(out := st.out + [st.buffer + c], buffer := "")
  }

  function MarkerStep(tokens: seq<string>, maxLen: nat, st: MarkerState, r: ChatResult): (st': MarkerState)
    requires SnapshotOk(st.snapshot)
    ensures SnapshotOk(st'.snapshot)
  {
    match FirstDelta(r)
    case None => st
    case Some(d) =>
      var snap := if st.snapshot.None? then r else st.snapshot.value;
      var detected := st.detected || FinishOf(r) == Some("function_call");
      if IsNullOrEmpty(d.content) then st.(snapshot := Some(snap), detected := detected)
      else
        var st1 := Advance(tokens, maxLen, st.(detected := detected), d.content.value);
        // function-call accumulation (Conversation.cs:777-789)
        var fc := d.functionCall;
        var s1 := if st1.detected && fc.Some? && !IsNullOrEmpty(fc.value.arguments) then AppendCallFragment(snap, fc.value) else snap;
        var s2 := if st1.detected && FinishOf(r).Some? then WithFinish(s1, Some("function_call")) else s1;
        st1.(snapshot := Some(s2))
  }

  /** Undetected, the yielded text and the buffer together are all of the content text. */
  predicate Lossless(st: MarkerState, text: string)
  {
    (!st.cached ==> st.buffer == "") && (!st.detected ==> Join(st.out) + st.buffer == text)
  }

  lemma AdvanceLossless(tokens: seq<string>, maxLen: nat, st: MarkerState, c: string, text: string)
    requires Lossless(st, text)
    ensures Lossless(Advance(tokens, maxLen, st, c), text + c)
  {
    var st' := Advance(tokens, maxLen, st, c);
    var b := st.buffer + c;
    if st.cached || StartsCache(c) {
      assert st' == CachedStep(tokens, maxLen, st, c);
      if !st.detected && FirstToken(tokens, b).None? {
        var grown := st.(buffer := b, cached := true);
        if Utf16Length(b) > maxLen && Contains(c, "\n") {
          assert st' == grown.(out := st.out + [b], buffer := "", cached := false);
          YieldLossless(st.out, st.buffer, c);
        } else {
          assert st' == grown;
          assert Join(st.out) + b == (Join(st.out) + st.buffer) + c;
        }
      }
    } else {
      assert st' == st.(out := st.out + [b], buffer := "");
      YieldLossless(st.out, st.buffer, c);
    }
  }

  /** Yielding the buffer together with the fragment loses no text. */
  lemma YieldLossless(out: seq<string>, buffer: string, c: string)
    ensures Join(out + [buffer + c]) + "" == (Join(out) + buffer) + c
  {
    JoinAppend(out, [buffer + c]);
    assert Join([buffer + c]) == Join([]) + (buffer + c);
  }

  lemma MarkerStepLossless(tokens: seq<string>, maxLen: nat, st: MarkerState, r: ChatResult, text: string)
    requires SnapshotOk(st.snapshot) && Lossless(st, text)
    ensures Lossless(MarkerStep(tokens, maxLen, st, r), text + Str(ContentOf(r)))
  {
    if HasDelta(r) && !IsNullOrEmpty(ContentOf(r)) {
      var detected := st.detected || FinishOf(r) == Some("function_call");
      AdvanceLossless(tokens, maxLen, st.(detected := detected), ContentOf(r).value, text);
    } else {
      assert Str(ContentOf(r)) == "";
      assert text + "" == text;
    }
  }

  /** Without a token in the buffer or a "function_call" finish, a step detects nothing. */
  lemma MarkerStepUndetected(tokens: seq<string>, maxLen: nat, st: MarkerState, r: ChatResult)
    requires SnapshotOk(st.snapshot) && !st.detected && FinishOf(r) != Some("function_call")
    requires forall i :: 0 <= i < |tokens| ==> !Contains(st.buffer + Str(ContentOf(r)), tokens[i])
    ensures !MarkerStep(tokens, maxLen, st, r).detected
  {
    if HasDelta(r) && !IsNullOrEmpty(ContentOf(r)) {
      var c := ContentOf(r).value;
      if st.cached || StartsCache(c) {
        assert FirstToken(tokens, st.buffer + c).None?;
      }
    }
  }

  /**
   * The decoder's state after `ds`. Without a cache the buffer is empty, so
   * uncached fragments are yielded verbatim; until a function call is
   * detected, the yielded strings and the buffer together are exactly the
   * content text, and a result is stored as soon as a delta arrives.
   */
  function MarkerRun(tokens: seq<string>, ds: seq<ChatResult>): (st: MarkerState)
    requires ValidTokens(tokens)
    ensures SnapshotOk(st.snapshot)
    ensures st.snapshot.Some? <==> FirstPresent(ds).Some?
    ensures !st.cached ==> st.buffer == ""
    ensures !st.detected ==> Join(st.out) + st.buffer == AllText(ds)
  {
    if ds == [] then MarkerState([], None, "", false, false)
    else
      var st := MarkerRun(tokens, Prefix(ds));
      MarkerStepLossless(tokens, MaxTokenLength(tokens), st, Last(ds), AllText(Prefix(ds)));
      MarkerStep(tokens, MaxTokenLength(tokens), st, Last(ds))
  }

  /** Everything the decoder yields, the end-of-stream flush included (Conversation.cs:794-797). */
  function MarkerOutput(tokens: seq<string>, ds: seq<ChatResult>): seq<string>
    requires ValidTokens(tokens)
  {
    var st := MarkerRun(tokens, ds);
    st.out + if !st.detected && |st.buffer| > 0 then [st.buffer] else []
  }

  /**
   * No loss: when no function call is detected, the concatenation of all
   * yields, the final flush included, is the concatenation of the non-empty
   * content fragments.
   */
  lemma MarkerLossless(tokens: seq<string>, ds: seq<ChatResult>)
    requires ValidTokens(tokens) && !MarkerRun(tokens, ds).detected
    ensures Join(MarkerOutput(tokens, ds)) == Join(NonEmptyContents(ds))
  {
    var st := MarkerRun(tokens, ds);
    AllTextIsJoin(ds);
    var tail := if |st.buffer| > 0 then [st.buffer] else [];
    JoinAppend(st.out, tail);
    assert Join([st.buffer]) == Join([]) + st.buffer;
  }

  /** No chunk's first choice finishes with "function_call". */
  predicate NoFunctionCallFinish(ds: seq<ChatResult>)
  {
    forall k :: 0 <= k < |ds| ==> FinishOf(ds[k]) != Some("function_call")
  }

  /** The start of a text that holds no token holds none either. */
  lemma NoTokenInPrefix(tokens: seq<string>, part: string, y: string)
    requires forall i :: 0 <= i < |tokens| ==> !Contains(part + y, tokens[i])
    ensures forall i :: 0 <= i < |tokens| ==> !Contains(part, tokens[i])
  {
    forall i | 0 <= i < |tokens|
      ensures !Contains(part, tokens[i])
    {
      if Contains(part, tokens[i]) {
        ContainsExtend(part, tokens[i], y);
      }
    }
  }

  /** The end of a text that holds no token holds none either. */
  lemma NoTokenInSuffix(tokens: seq<string>, x: string, part: string)
    requires forall i :: 0 <= i < |tokens| ==> !Contains(x + part, tokens[i])
    ensures forall i :: 0 <= i < |tokens| ==> !Contains(part, tokens[i])
  {
    forall i | 0 <= i < |tokens|
      ensures !Contains(part, tokens[i])
    {
      if Contains(part, tokens[i]) {
        ContainsPrepend(x, part, tokens[i]);
      }
    }
  }

  /** One chunk of a stream whose text holds no token and that does not finish with "function_call". */
  lemma UndetectedStep(tokens: seq<string>, st: MarkerState, r: ChatResult, text: string)
    requires ValidTokens(tokens) && SnapshotOk(st.snapshot) && !st.detected
    requires FinishOf(r) != Some("function_call") && Join(st.out) + st.buffer == text
    requires forall i :: 0 <= i < |tokens| ==> !Contains(text + Str(ContentOf(r)), tokens[i])
    ensures !MarkerStep(tokens, MaxTokenLength(tokens), st, r).detected
  {
    Regroup(Join(st.out), st.buffer, Str(ContentOf(r)));
    NoTokenInSuffix(tokens, Join(st.out), st.buffer + Str(ContentOf(r)));
    MarkerStepUndetected(tokens, MaxTokenLength(tokens), st, r);
  }

  /**
   * A stream whose text contains none of the tokens and that never
   * finishes with "function_call" is never taken for a function call.
   */
  lemma {:induction false} MarkerUndetected(tokens: seq<string>, ds: seq<ChatResult>)
    requires ValidTokens(tokens) && NoFunctionCallFinish(ds)
    requires forall i :: 0 <= i < |tokens| ==> !Contains(AllText(ds), tokens[i])
    ensures !MarkerRun(tokens, ds).detected
    decreases |ds|
  {
    if ds != [] {
      var p := Prefix(ds);
      var r := Last(ds);
      var c := Str(ContentOf(r));
      assert AllText(ds) == AllText(p) + c;
      NoTokenInPrefix(tokens, AllText(p), c);
      assert NoFunctionCallFinish(p) by {
        assert forall k :: 0 <= k < |p| ==> p[k] == ds[k];
      }
      assert FinishOf(r) != Some("function_call") by {
        assert r == ds[|ds| - 1];
      }
      MarkerUndetected(tokens, p);
      UndetectedStep(tokens, MarkerRun(tokens, p), r, AllText(p));
    }
  }

  /**
   * After a token has been found in the cache, nothing more is searched,
   * flushed or yielded, and there is no end-of-stream flush.
   */
  lemma {:induction false} MarkerSealed(tokens: seq<string>, p: seq<ChatResult>, q: seq<ChatResult>)
    requires ValidTokens(tokens) && MarkerRun(tokens, p).detected && MarkerRun(tokens, p).cached
    ensures MarkerRun(tokens, p + q).detected && MarkerRun(tokens, p + q).cached
    ensures MarkerRun(tokens, p + q).out == MarkerRun(tokens, p).out
    ensures MarkerOutput(tokens, p + q) == MarkerRun(tokens, p).out
    decreases |q|
  {
    if q == [] {
      assert p + q == p;
    } else {
      assert Prefix(p + q) == p + Prefix(q);
      assert Last(p + q) == Last(q);
      MarkerSealed(tokens, p, Prefix(q));
    }
  }

  /**
   * One cached fragment while nothing is detected: either a token is found,
   * the buffer is cut at the first one in array order and the text before
   * it is yielded unless empty or a bare fence; or nothing is found and the
   * buffer is yielded whole exactly when it is longer than the longest token
   * and the fragment holds a newline; otherwise it keeps growing.
   */
  lemma CachedAdvance(tokens: seq<string>, st: MarkerState, c: string)
    requires ValidTokens(tokens) && !st.detected && (st.cached || StartsCache(c))
    ensures
      var st' := Advance(tokens, MaxTokenLength(tokens), st, c);
      var b := st.buffer + c;
      match FirstToken(tokens, b)
      case Some(i) =>
        var parts := SplitOnce(b, tokens[i]);
        st'.detected && st'.cached && st'.out == st.out + Before(parts.0) && st'.buffer == parts.1 &&
        (parts.0 == "" || parts.0 == "```\n" ==> st'.out == st.out)
      case None =>
        !st'.detected &&
        if Utf16Length(b) > MaxTokenLength(tokens) && Contains(c, "\n")
        then st'.out == st.out + [b] && st'.buffer == "" && !st'.cached
        else st'.out == st.out && st'.buffer == b && st'.cached
  {
  }

  /**
   * An empty first token is found in any buffer, and `String.Split` ignores
   * it as a separator: the first cached fragment yields the whole buffer
   * (unless it is a bare fence), empties it and marks a call as detected.
   */
  lemma EmptyTokenTakesAll(tokens: seq<string>, st: MarkerState, c: string)
    requires |tokens| > 0 && tokens[0] == ""
    requires !st.detected && (st.cached || StartsCache(c))
    ensures var st' := Advance(tokens, MaxTokenLength(tokens), st, c);
      st'.detected && st'.buffer == "" && st'.out == st.out + Before(st.buffer + c)
  {
    assert OccursAt(st.buffer + c, tokens[0], 0);
    CachedAdvance(tokens, st, c);
  }

  /**
   * Tokens are tried in array order, not by length: whenever the buffer
   * holds the fenced marker "```\nAction:", the shorter bare "Action:" inside
   * it is the token chosen.
   */
  lemma FirstNotLongest(b: string)
    requires Contains(b, DefaultFunctionTokens[1])
    ensures |DefaultFunctionTokens[1]| > |DefaultFunctionTokens[0]|
    ensures FirstToken(DefaultFunctionTokens, b) == Some(0)
  {
    var t := DefaultFunctionTokens[1];
    var k := IndexOf(b, t).value;
    assert b[k + 4..k + 4 + 7] == t[4..];
    assert OccursAt(b, DefaultFunctionTokens[0], k + 4);
  }

  /** How the buffer "```\nAction:" + x is cut. */
  lemma FenceSplit(x: string)
    ensures StartsCache(DefaultFunctionTokens[1] + x)
    ensures FirstToken(DefaultFunctionTokens, DefaultFunctionTokens[1] + x) == Some(0)
    ensures SplitOnce(DefaultFunctionTokens[1] + x, DefaultFunctionTokens[0]) == ("```\n", x)
  {
    var t := DefaultFunctionTokens[0];
    var c := DefaultFunctionTokens[1] + x;
    assert c[..4] == "```\n" && c[4..11] == t && c[11..] == x;
    assert OccursAt(c, "\n", 3);
    assert OccursAt(c, DefaultFunctionTokens[1], 0);
    FirstNotLongest(c);
    forall j | 0 <= j < 4
      ensures !OccursAt(c, t, j)
    {
      assert c[j] != t[0];
    }
    SplitAt(c, t, 4);
  }

  /**
   * A fenced call split at the bare token: a single chunk "```\nAction:" + x
   * yields nothing (the "```\n" before the token is suppressed), keeps x
   * and marks the call as detected. A chunk that itself finishes with
   * "function_call" is detected before the scan, so it is not split and
   * the whole text stays buffered.
   */
  lemma FenceSuppressed(r: ChatResult, x: string)
    requires HasDelta(r) && ContentOf(r) == Some(DefaultFunctionTokens[1] + x)
    requires FinishOf(r) != Some("function_call")
    ensures MarkerRun(DefaultFunctionTokens, [r]).detected
    ensures MarkerOutput(DefaultFunctionTokens, [r]) == []
    ensures MarkerRun(DefaultFunctionTokens, [r]).buffer == x
  {
    var tokens := DefaultFunctionTokens;
    assert ValidTokens(tokens);
    MarkerFirstChunk(tokens, r);
    FenceAdvance(MaxTokenLength(tokens), MarkerState([], None, "", false, false), x);
  }

  /** The state after a single chunk with content and no "function_call" finish. */
  lemma MarkerFirstChunk(tokens: seq<string>, r: ChatResult)
    requires ValidTokens(tokens) && HasDelta(r) && !IsNullOrEmpty(ContentOf(r))
    requires FinishOf(r) != Some("function_call")
    ensures
      var st := MarkerRun(tokens, [r]);
      var st' := Advance(tokens, MaxTokenLength(tokens), MarkerState([], None, "", false, false), ContentOf(r).value);
      st.out == st'.out && st.buffer == st'.buffer && st.detected == st'.detected
  {
    assert Prefix([r]) == [] && Last([r]) == r;
  }

  lemma FenceAdvance(maxLen: nat, st: MarkerState, x: string)
    requires st.out == [] && st.buffer == "" && !st.cached && !st.detected
    ensures
      var st' := Advance(DefaultFunctionTokens, maxLen, st, DefaultFunctionTokens[1] + x);
      st'.detected && st'.out == [] && st'.buffer == x
  {
    FenceSplit(x);
    var c := DefaultFunctionTokens[1] + x;
    assert "" + c == c;
    assert Before("```\n") == [];
    assert CachedStep(DefaultFunctionTokens, maxLen, st, c).buffer == x;
  }

  /** A newline and ten characters outside the Basic Multilingual Plane. */
  const WideText: string := "\n\U{1F600}\U{1F600}\U{1F600}\U{1F600}\U{1F600}\U{1F600}\U{1F600}\U{1F600}\U{1F600}\U{1F600}"

  /** No default token occurs in a text without the letter 'A'. */
  lemma NoDefaultToken(b: string)
    requires forall j :: 0 <= j < |b| ==> b[j] != 'A'
    ensures FirstToken(DefaultFunctionTokens, b).None?
  {
    var t := DefaultFunctionTokens;
    MissingCharacter(b, t[0], 0);
    MissingCharacter(b, t[1], 4);
    MissingCharacter(b, t[2], 13);
    MissingCharacter(b, t[3], 13);
    MissingCharacter(b, t[4], 10);
  }

  /**
   * Lengths are counted in UTF-16 code units: WideText is 11 characters but
   * 21 code units, longer than the longest default token (20), so a first
   * chunk carrying it is yielded at once and caching stops.
   */
  lemma WideTextFlushed(r: ChatResult)
    requires HasDelta(r) && ContentOf(r) == Some(WideText) && FinishOf(r) != Some("function_call")
    ensures |WideText| < MaxTokenLength(DefaultFunctionTokens) < Utf16Length(WideText)
    ensures MarkerRun(DefaultFunctionTokens, [r]).out == [WideText]
    ensures MarkerRun(DefaultFunctionTokens, [r]).buffer == ""
  {
    var tokens := DefaultFunctionTokens;
    assert ValidTokens(tokens);
    DefaultMaxLength();
    WideTextLength();
    MarkerFirstChunk(tokens, r);
    WideTextAdvance(MarkerState([], None, "", false, false));
  }

  lemma WideTextAdvance(st: MarkerState)
    requires st.out == [] && st.buffer == "" && !st.cached && !st.detected
    ensures var st' := Advance(DefaultFunctionTokens, 20, st, WideText);
      st'.out == [WideText] && st'.buffer == ""
  {
    WideTextLength();
    assert "" + WideText == WideText;
    NoDefaultToken(WideText);
    assert OccursAt(WideText, "\n", 0);
  }

  lemma DefaultMaxLength()
    ensures MaxTokenLength(DefaultFunctionTokens) == 20
  {
    var t := DefaultFunctionTokens;
    DefaultTokensNarrow();
    assert |t[2]| == 20;
    MaxTokenLengthIs(t, 2, 20);
  }

  /** A token length no token exceeds is the maximum. */
  lemma MaxTokenLengthIs(tokens: seq<string>, k: nat, m: nat)
    requires k < |tokens| && Utf16Length(tokens[k]) == m
    requires forall i :: 0 <= i < |tokens| ==> Utf16Length(tokens[i]) <= m
    ensures MaxTokenLength(tokens) == m
  {
  }

  /** The default tokens are ASCII: one code unit per character, at most 20. */
  lemma DefaultTokensNarrow()
    ensures forall i :: 0 <= i < |DefaultFunctionTokens| ==> Utf16Length(DefaultFunctionTokens[i]) == |DefaultFunctionTokens[i]| <= 20
  {
    var t := DefaultFunctionTokens;
    assert |t[0]| == 7 && |t[1]| == 11 && |t[2]| == 20 && |t[3]| == 20 && |t[4]| == 17;
    AsciiLength(t[0]);
    AsciiLength(t[1]);
    AsciiLength(t[2]);
    AsciiLength(t[3]);
    AsciiLength(t[4]);
  }

  /** ASCII text is one code unit per character. */
  lemma AsciiLength(s: string)
    requires forall j :: 0 <= j < |s| ==> s[j] as int < 128
    ensures Utf16Length(s) == |s|
  {
    Utf16Narrow(s);
  }

  lemma WideTextLength()
    ensures |WideText| == 11 && Utf16Length(WideText) == 21
  {
    var w := WideText[1..];
    assert WideText == "\n" + w;
    Utf16Narrow("\n");
    Utf16Wide(w);
    Utf16Append("\n", w);
  }
}
