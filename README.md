# Conversation: chat history and streaming decoders

This project models the `Conversation` class of the OpenAI-API-dotnet fork
(`OpenAI_API/Chat/Conversation.cs`). A conversation keeps two pieces of
state: the chat history (`_Messages`) and the most recent API result
(`MostRecentApiResult`). Its methods are:

- helpers that append messages to the history;
- three non-streaming handlers that store a completion and read its first choice;
- one streaming decoder per backend: OpenAI, DeepSeek R1, vLLM Qwen,
  Alibaba Qwen, QwQ, Gemma, LLama (plus its copy, the `string[]` Qwen
  overload), Phi3 and GLM4.

Each streaming decoder reads a stream of `ChatResult` chunks. It yields
strings to the caller. It keeps one chunk as the stored result and edits it
in place as later chunks arrive: call arguments and name, finish reason,
reasoning and answer text, and the thinking flag. Some decoders also append
the reply to the history.

How the model is built:

- **Inputs and outputs.** The transport is replaced by values. A method
  takes the completion (`res`) or the whole sequence of chunks (`ds`) and
  returns the yielded strings (`out`).
- **Stored result.** `MostRecentApiResult` becomes the class field
  `recent: Option<ChatResult>`. An in-place edit of `Choices[0]` is a
  value update of that field.
- **Strings.** A C# string that may be null is an `Option<string>`.
  `Concat` concatenates the way `+=` does, reading null as `""`.
  A string is a sequence of Unicode characters. C#'s `Length` counts
  UTF-16 code units, so the length tests of Gemma and LLama use
  `Utf16Length`, which counts two units for a character outside the Basic
  Multilingual Plane.
- **Splitting at a token.** `Split(new[] { token }, 2, …)` follows .NET's
  rule for a separator array: empty separators are ignored, so an empty
  token returns the whole buffer as the only part (`SplitOnce`). Since
  every text contains `""`, an empty token is found in the first cached
  buffer.
- **Specifications.** Each decoder has a pure fold over the chunks:
  `GatedRun`, `R1Run`, `QwQRun`, `QwenRun`, `AliRun` or `MarkerRun`.
  The imperative method's loop invariant ties its local variables to that
  fold on the chunks read so far. The lemmas state what each fold means:
  which chunks are forwarded, how the call is accumulated, and when
  gating becomes permanent.
- **Shared code.** The plain, Gemma, Phi3 and GLM4 decoders differ only in
  their gate (`Gate`) and in whether they keep history, so they share the
  loop `StreamGated`. The GLM4 decoder and the `string[]` Qwen overload are
  verbatim copies of Phi3 and LLama, and they delegate to them.

Where the code and its documentation disagree, the model follows the code:

- **Marker choice.** The LLama decoder tries its function tokens in array
  order and splits at the first one the buffer contains, not the longest.
  With the default tokens, a buffer holding "```\nAction:" is split at the
  bare "Action:" inside it (`FirstNotLongest`, `FenceSuppressed`).
- **Decoders that never append to the history.** R1 never writes its
  response builder. Gemma's append is commented out. LLama and QwQ have none.

## Model

| member | source | states |
|---|---|---|
| Conversations.Conversation.constructor | OpenAI_API/Chat/Conversation.cs:71 | A new conversation has an empty history and no stored result. |
| Conversations.Conversation.AppendMessage | OpenAI_API/Chat/Conversation.cs:129-132 | The history grows by exactly the given message at its end; earlier messages and the stored result are unchanged. |
| Conversations.Conversation.AppendRoleMessage | OpenAI_API/Chat/Conversation.cs:139 | Appends one message with the given role and content and no name. |
| Conversations.Conversation.AppendUserInput | OpenAI_API/Chat/Conversation.cs:145 | Appends one User message with the content and no name. |
| Conversations.Conversation.AppendUserInputWithName | OpenAI_API/Chat/Conversation.cs:152 | Appends one User message whose name is the given user name. |
| Conversations.Conversation.AppendSystemMessage | OpenAI_API/Chat/Conversation.cs:159 | Appends one System message with the content. |
| Conversations.Conversation.AppendExampleChatbotOutput | OpenAI_API/Chat/Conversation.cs:164 | Appends one Assistant message with the content. |
| Conversations.Conversation.AppendFunctionMessage | OpenAI_API/Chat/Conversation.cs:171 | Appends one Function message named after the function. |
| Conversations.Conversation.AppendToolMessage | OpenAI_API/Chat/Conversation.cs:177 | Appends one Tool message named after the function. |
| Conversations.Conversation.GetResponseFromChatbot | OpenAI_API/Chat/Conversation.cs:187-202 | The completion becomes the stored result. With at least one choice, the first choice's message is appended and its content returned. Without a choice, nothing is appended and null is returned. |
| Conversations.Conversation.GetResponseFromLLamaChatbot | OpenAI_API/Chat/Conversation.cs:204-219 | Same behaviour as GetResponseFromChatbot. |
| Conversations.Conversation.GetResponseFromGemmaChatbot | OpenAI_API/Chat/Conversation.cs:221-234 | Stores the completion and returns the first choice's content (null without a choice), and never touches the history. |
| Conversations.Conversation.StreamGated | OpenAI_API/Chat/Conversation.cs:280-337 | The loop shared by the gated decoders. Its yields and stored result are those of GatedRun for the gate. When history is kept, exactly one message is appended: the last announced role with the forwarded text. This happens iff a role was announced and that text is non-empty. |
| Conversations.Conversation.StreamResponseFromChatbot | OpenAI_API/Chat/Conversation.cs:280-337 | Yields exactly the non-empty content fragments, in order. Appends one message (last announced role, their concatenation) iff a role was announced and some content arrived. |
| Conversations.Conversation.StreamResponseFromGemmaChatbot | OpenAI_API/Chat/Conversation.cs:625-685 | Yields and stores what GatedRun does behind the fence gate for the given function token. The history is unchanged. |
| Conversations.Conversation.StreamResponseFromPhi3Chatbot | OpenAI_API/Chat/Conversation.cs:970-1029 | Yields and stores what GatedRun does behind the "Action" gate. Appends the forwarded text under the last role iff both exist. |
| Conversations.Conversation.StreamResponseFromGLM4Chatbot | OpenAI_API/Chat/Conversation.cs:1031-1090 | Same behaviour as the Phi3 decoder. |
| Conversations.Conversation.StreamResponseFromR1Chatbot | OpenAI_API/Chat/Conversation.cs:394-441 | Yields and stores what R1Run does. The history is never changed. |
| Conversations.Conversation.StreamResponseFromQwQChatbot | OpenAI_API/Chat/Conversation.cs:554-623 | Yields and stores what QwQRun does. The history is never changed. |
| Conversations.Conversation.StreamResponseFromQwenChatbot | OpenAI_API/Chat/Conversation.cs:447-496 | Yields and stores what QwenRun does. Appends the forwarded text under the last role iff both exist. |
| Conversations.Conversation.StreamResponseFromAliQwenChatbot | OpenAI_API/Chat/Conversation.cs:498-548 | Yields exactly the non-empty content fragments. The stored result is AliRun's. Appends their concatenation under the last role iff both exist. |
| Conversations.Conversation.StreamResponseFromLLamaChatbot | OpenAI_API/Chat/Conversation.cs:687-798 | With an empty token array `Max` throws before any chunk is read: `failed` is set, nothing is yielded and the stored result stays cleared. Otherwise it yields MarkerOutput (the loop's yields plus the end-of-stream flush of undetected buffered text) and stores MarkerRun's result. The history is never changed. |
| Conversations.Conversation.StreamResponseFromQwenChatbotWithTokens | OpenAI_API/Chat/Conversation.cs:800-911 | The same decoder as LLama, with the same failure on an empty token array, the same yields and the same stored result. |
| Conversations.DecodeGated | OpenAI_API/Chat/Conversation.cs:289-331 | The gated loop ends in the state GatedRun gives for the whole stream. |
| Conversations.GatedChunk | OpenAI_API/Chat/Conversation.cs:291-330 | One chunk of the gated loop is one GatedStep: yielded while the gate is open, otherwise stored or absorbed. |
| Conversations.DecodeQwQ | OpenAI_API/Chat/Conversation.cs:564-621 | The QwQ loop ends in the state QwQRun gives for the whole stream. |
| Conversations.DecodeQwQChunk | OpenAI_API/Chat/Conversation.cs:566-620 | One chunk of the QwQ loop is one QwQStep. |
| Conversations.DecodeQwen | OpenAI_API/Chat/Conversation.cs:458-490 | The vLLM Qwen loop ends in the state QwenRun gives for the whole stream. |
| Conversations.DecodeQwenChunk | OpenAI_API/Chat/Conversation.cs:460-489 | One chunk of the vLLM Qwen loop is one QwenStep. |
| Conversations.DecodeAliQwen | OpenAI_API/Chat/Conversation.cs:508-542 | The Alibaba loop ends in the state AliRun gives for the whole stream. |
| Conversations.DecodeMarkers | OpenAI_API/Chat/Conversation.cs:703-791 | The LLama loop ends in the state MarkerRun gives for the whole stream. |
| Conversations.DecodeChunk | OpenAI_API/Chat/Conversation.cs:705-789 | One chunk of the LLama loop is one MarkerStep. |
| Conversations.ScanText | OpenAI_API/Chat/Conversation.cs:721-773 | The text handling of one content fragment is Advance. |
| Conversations.FindToken | OpenAI_API/Chat/Conversation.cs:734-753 | The foreach returns the first token in array order that the buffer contains, or none. |
| ChatMessages.AppendCallFragment | OpenAI_API/Chat/Conversation.cs:312-318 | The stored call's argument text grows by the fragment's arguments and its name by the fragment's name. A missing call starts empty. Everything else is kept: the delta's other fields (content, reasoning, thinking flag, role), the finish reason, the first choice's message and the other choices. |
| ChatMessages.AppendToolFragment | OpenAI_API/Chat/Conversation.cs:522-532 | The argument text grows by the tool fragment's arguments. The name is replaced only when the fragment carries one. The finish reason becomes "function_call". The delta's other fields, the first choice's message and the other choices are kept. |
| ChatMessages.RecordToolCall | OpenAI_API/Chat/Conversation.cs:474-475 | The parsed call replaces the stored call and the finish reason becomes "function_call". The delta's other fields (reasoning, content, thinking flag, role), the first choice's message and the other choices are kept. |
| ChatMessages.RecordToolCallTwice | OpenAI_API/Chat/Conversation.cs:474-475 | Recording a second parsed call leaves the same result as recording only the second. |
| ChatMessages.WithFinish | OpenAI_API/Chat/Conversation.cs:321-324 | Sets the first choice's finish reason. Its delta and message and the other choices are kept. |
| ChatMessages.SetThinking | OpenAI_API/Chat/Conversation.cs:412 | Only the thinking flag of the stored delta changes. The finish reason, the first choice's message and the other choices are kept. |
| ChatMessages.AddReasoning | OpenAI_API/Chat/Conversation.cs:413 | Only the reasoning text changes, growing by the fragment (null read as ""). The finish reason, the first choice's message and the other choices are kept. |
| ChatMessages.AddContent | OpenAI_API/Chat/Conversation.cs:424 | Only the content text changes, growing by the fragment (null read as ""). The finish reason, the first choice's message and the other choices are kept. |
| Text.IndexOf | OpenAI_API/Chat/Conversation.cs:580 | Returns the first position at which the text occurs, or none if it occurs nowhere. |
| Text.SplitFirst | OpenAI_API/Chat/Conversation.cs:739 | Splits at the first occurrence: the buffer is the part before, the token and the part after, and the token occurs nowhere earlier. |
| Text.SplitOnce | OpenAI_API/Chat/Conversation.cs:739-749 | The two-part `Split` with one separator: the buffer is the first part, the token and the rest. A non-empty token is cut at its first occurrence. An empty token is ignored as a separator, so the whole buffer is the first part and the rest is empty. |
| Streams.LastRoleSeen | OpenAI_API/Chat/Conversation.cs:293-294 | The remembered role exists iff some chunk announced a role. |
| Streams.AllTextIsJoin | OpenAI_API/Chat/Conversation.cs:466 | The buffered text is the concatenation of the non-empty content fragments. |
| Streams.FirstPresentPrefix | OpenAI_API/Chat/Conversation.cs:429-433 | The first chunk with a delta does not change as the stream grows. |
| Streams.SilentHasNoContents | OpenAI_API/Chat/Conversation.cs:298 | A stream whose contents are all null or empty has no content fragments. |
| ToolCallTags.TagContent | OpenAI_API/Chat/Conversation.cs:349-354 | Present iff an opening tag is later followed by a closing tag. It is the text between the first opening tag and the nearest closing tag after it. |
| ToolCallTags.ProcessStreamChunkQwen | OpenAI_API/Chat/Conversation.cs:347-392 | Returns a call iff there is a tag pair and its content parses as a JSON object with both "name" and "arguments". The call is exactly that name and those arguments. Otherwise (no pair, a missing field, a reader error) it returns null. |
| ToolCallTags.UnclosedTagIsNotACall | OpenAI_API/Chat/Conversation.cs:349-352 | An opening tag with no closing tag after it yields no call. |
| GatedDecoding.ClosedExtends | OpenAI_API/Chat/Conversation.cs:646 | A buffer that closes the gate still closes it when text is appended. |
| GatedDecoding.GatedRun | OpenAI_API/Chat/Conversation.cs:289-331 | The response text is the concatenation of the yields. The role is the last announced one. The stored result has a delta. |
| GatedDecoding.GatedBufferIsGateText | OpenAI_API/Chat/Conversation.cs:643-644 | The gate buffer is the content text, truncated as Gemma's length test truncates it. |
| GatedDecoding.GatedYieldsPassed | OpenAI_API/Chat/Conversation.cs:298-302 | The yields are exactly the non-empty fragments that arrive while the gate is open, in order. |
| GatedDecoding.GatedCallAccumulation | OpenAI_API/Chat/Conversation.cs:305-324 | A result is stored iff some chunk was held back. Its argument text is the concatenation of the arguments of all held-back chunks, the stored chunk's own first. Its name text is the stored chunk's own name followed by the names of the later held-back chunks whose call carries arguments. Its finish reason is the last non-null one among the held-back chunks. |
| GatedDecoding.SnapshotStep | OpenAI_API/Chat/Conversation.cs:303-326 | A held-back chunk is absorbed into the stored result (stored first, then accumulated). A forwarded chunk leaves the stored result alone. |
| GatedDecoding.GatedStoresFirstHeldBack | OpenAI_API/Chat/Conversation.cs:303-324 | A result is stored iff some chunk was held back, and it is the first held-back chunk with only its call and finish reason edited. Its delta's text, reasoning, thinking flag and role, its first choice's message and its other choices stay as they arrived. |
| GatedDecoding.AbsorbEditsCall | OpenAI_API/Chat/Conversation.cs:310-323 | Absorbing a later held-back chunk edits only the stored call and finish reason. |
| GatedDecoding.AbsorbStep | OpenAI_API/Chat/Conversation.cs:305-324 | Absorbing a held-back chunk stores a result and appends the chunk's arguments to the accumulated argument text. Its name is appended when it is the first chunk or its call carries arguments. The finish reason is replaced only when the chunk carries one. |
| GatedDecoding.NothingHeldBack | OpenAI_API/Chat/Conversation.cs:303-326 | With nothing held back there are no accumulated arguments, no accumulated names and no finish reason. |
| GatedDecoding.GateTextIsPrefix | OpenAI_API/Chat/Conversation.cs:643-644 | The gate buffer is a prefix of the content text. It is all of it for Phi3 and GLM4, and for Gemma while its UTF-16 length is below the token's. |
| GatedDecoding.OpenGateForwardsAll | OpenAI_API/Chat/Conversation.cs:646-650 | While the content text never closes the gate, every non-empty fragment is forwarded. |
| GatedDecoding.ClosedGateStaysClosed | OpenAI_API/Chat/Conversation.cs:988-994 | Once the buffer closes the gate, it stays closed. Nothing more is yielded or added to the response text. |
| GatedDecoding.PlainForwardsContent | OpenAI_API/Chat/Conversation.cs:296-301 | The plain decoder forwards every non-empty fragment. A function-call-only stream yields nothing and builds no text. |
| ReasoningDecoding.R1Run | OpenAI_API/Chat/Conversation.cs:403-436 | A result is stored iff some chunk has a delta, and the stored result has a delta. |
| ReasoningDecoding.R1Accumulates | OpenAI_API/Chat/Conversation.cs:410-426 | The stored reasoning is the concatenation of all reasoning fragments and the stored content of all answer fragments. The thinking flag is set iff the last fragment was reasoning, and is the first delta's own flag when no reasoning came. |
| ReasoningDecoding.R1FirstQuiet | OpenAI_API/Chat/Conversation.cs:427-434 | The first chunk with a delta is stored with its own (empty) reasoning and content, so the stored text matches the fragments so far. |
| ReasoningDecoding.R1CollectedStep | OpenAI_API/Chat/Conversation.cs:405-434 | Each later chunk keeps the stored reasoning, content and thinking flag equal to their reference definitions. |
| ReasoningDecoding.R1ReasoningStep | OpenAI_API/Chat/Conversation.cs:410-414 | A reasoning fragment extends the reasoning text by itself, leaves the answers alone and makes reasoning the last kind spoken. |
| ReasoningDecoding.R1AnswerStep | OpenAI_API/Chat/Conversation.cs:415-425 | An answer fragment (with no reasoning in the same delta) extends the answer text by itself and makes an answer the last kind spoken. |
| ReasoningDecoding.R1StepEdits | OpenAI_API/Chat/Conversation.cs:410-434 | A reasoning fragment adds to the stored reasoning and sets thinking. A content fragment adds to the stored content and clears thinking only when reasoning was stored. Any other chunk changes no text. |
| ReasoningDecoding.NothingSpokenYet | OpenAI_API/Chat/Conversation.cs:429-433 | Before any chunk with a delta there is neither reasoning nor answer. |
| ReasoningDecoding.NonEmptyReasonings | OpenAI_API/Chat/Conversation.cs:410 | Only non-empty reasoning fragments are taken. |
| ReasoningDecoding.R1Forwards | OpenAI_API/Chat/Conversation.cs:414-425 | The yields are the reasoning and answer fragments in arrival order. With no reasoning, they are exactly the non-empty contents. |
| ReasoningDecoding.QwQRun | OpenAI_API/Chat/Conversation.cs:563-621 | The buffer is all content text. A stream with no delta stores nothing. A stored result always has a delta. |
| ReasoningDecoding.TagBuffered | OpenAI_API/Chat/Conversation.cs:576-581 | A tag already buffered, or arriving now, is found in the grown buffer. |
| ReasoningDecoding.QwQPlainStep | OpenAI_API/Chat/Conversation.cs:572-609 | One fragment without a tag: "</think>" yields "" and clears thinking. Any other fragment is yielded and added to reasoning while thinking (set at the first fragment), otherwise to content. |
| ReasoningDecoding.SplitsStep | OpenAI_API/Chat/Conversation.cs:592-609 | Adding one fragment preserves the split of the text into reasoning (before "</think>") and content (after it). |
| ReasoningDecoding.SplitsQuiet | OpenAI_API/Chat/Conversation.cs:611-618 | A chunk without content keeps the split and yields nothing. |
| ReasoningDecoding.QwQRunStep | OpenAI_API/Chat/Conversation.cs:564-621 | One more chunk is one QwQStep on the state after the earlier chunks. |
| ReasoningDecoding.QwQSplitsThinking | OpenAI_API/Chat/Conversation.cs:592-609 | Without a tag, each content fragment is yielded except "</think>", which yields "". Reasoning holds the text before the first "</think>" and content the text after it. |
| ReasoningDecoding.QwQQuietSplits | OpenAI_API/Chat/Conversation.cs:611-618 | A chunk with a delta and no content keeps the reasoning/content split and yields nothing. |
| ReasoningDecoding.QwQFragmentSplits | OpenAI_API/Chat/Conversation.cs:592-609 | A content fragment in a stream without a tag extends the split and yields the fragment ("" for "</think>"). |
| ReasoningDecoding.NoContentYet | OpenAI_API/Chat/Conversation.cs:566 | Before any chunk with a delta there is no content. |
| ReasoningDecoding.QwQSealedStep | OpenAI_API/Chat/Conversation.cs:572-589 | Once a tag is buffered, a chunk yields "" exactly when it has content, a result is stored and ProcessStreamChunkQwen parses the buffer from its first tag (QwQParse). It then records that call on the stored result; otherwise it yields nothing and the stored result only changes if none was stored and the delta has no content. |
| ReasoningDecoding.QwQTagArrives | OpenAI_API/Chat/Conversation.cs:566-589 | The chunk whose fragment brings the first tag into the buffer: if nothing was buffered, a stored result is first marked as thinking. It then yields "" exactly when the buffer from the tag parses as a call (QwQParse), and records that call on the stored result. Otherwise it yields nothing and keeps the stored result. |
| ReasoningDecoding.QwQTagOpens | OpenAI_API/Chat/Conversation.cs:566-609 | When the last chunk brings the first tag, the earlier yields are those of a stream without a tag (ThinkYields). The last chunk yields "" exactly when it completes a call, and the stored result is as QwQTagArrives states. |
| ReasoningDecoding.QwQTagSeals | OpenAI_API/Chat/Conversation.cs:572-589 | Once the content text holds a tag, the later chunks yield one "" per parsed call (QwQSealedCalls) and nothing else. The stored result is the one stored before, or the first later delta without content, with the last parsed call recorded on it. |
| ReasoningDecoding.QwQTagFreezes | OpenAI_API/Chat/Conversation.cs:572-589 | Once the content text holds a tag, a stored result keeps its reasoning, content and thinking flag. |
| QwenDecoding.QwenRun | OpenAI_API/Chat/Conversation.cs:458-490 | The response text is the concatenation of the yields. The role is the last announced one. The buffer is all content text. |
| QwenDecoding.QwenStepKeeps | OpenAI_API/Chat/Conversation.cs:460-489 | One chunk keeps the response text equal to the concatenation of the yields, grows the buffer by its content and remembers an announced role. |
| QwenDecoding.QwenPlainText | OpenAI_API/Chat/Conversation.cs:480-481 | While the text does not start with the tag, every non-empty fragment is forwarded. |
| QwenDecoding.QwenTagOpens | OpenAI_API/Chat/Conversation.cs:465-487 | When the last chunk first makes the text start with the tag, the earlier non-empty fragments were forwarded and form the response text. The last chunk yields "" exactly when the whole buffer parses as a call (QwenParse), which is recorded on the stored result. Otherwise it yields nothing and the stored result is unchanged. |
| QwenDecoding.QwenTagSeals | OpenAI_API/Chat/Conversation.cs:465-487 | Once the text starts with the tag, the later chunks yield one "" per parsed call (QwenSealedCalls) and nothing else, and the response text is frozen. The stored result is the one stored before, or the first later delta without content, with the last parsed call recorded on it. |
| QwenDecoding.QwenSealedStep | OpenAI_API/Chat/Conversation.cs:465-487 | One chunk after the tag, or the chunk whose fragment makes the text start with it, yields "" exactly when it has content, a result is stored and ProcessStreamChunkQwen parses the whole buffer (QwenParse). It then records that call on the stored result; otherwise it yields nothing and the stored result only changes if none was stored and the delta has no content. It adds no response text. |
| QwenDecoding.AliRun | OpenAI_API/Chat/Conversation.cs:508-542 | A non-empty stream always stores its first result. The response text is the concatenation of the yields and the role is the last announced one. |
| QwenDecoding.AliRunStep | OpenAI_API/Chat/Conversation.cs:508-542 | One more chunk is one AliStep on the state after the earlier chunks. |
| QwenDecoding.AliStepOut | OpenAI_API/Chat/Conversation.cs:536-540 | One chunk yields its content exactly when that content is non-empty. |
| QwenDecoding.AliForwardsAll | OpenAI_API/Chat/Conversation.cs:536-540 | Every non-empty content fragment is yielded, in order. |
| QwenDecoding.AliStepSnapshot | OpenAI_API/Chat/Conversation.cs:510-534 | One chunk stores itself if nothing is stored yet, then appends its tool fragment when it has arguments. |
| QwenDecoding.CollectedStep | OpenAI_API/Chat/Conversation.cs:522-532 | Accumulating one more tool fragment keeps the stored call equal to the reference: the arguments joined, the last name, finish "function_call". |
| QwenDecoding.CollectedFirst | OpenAI_API/Chat/Conversation.cs:510-532 | The first chunk alone is collected correctly, including when it edits itself. |
| QwenDecoding.AliAccumulates | OpenAI_API/Chat/Conversation.cs:522-532 | With tool fragments, the stored call's arguments are the first result's own followed by every fragment's arguments, the name is the last one given, and the finish reason is "function_call". Everything else on the first chunk is kept: the delta's text, reasoning, thinking flag and role, the first choice's message and the other choices. Without fragments, the stored result is the first chunk unchanged. |
| QwenDecoding.NoToolArgs | OpenAI_API/Chat/Conversation.cs:522 | Without fragments there are no arguments and no name. |
| MarkerDecoding.MaxTokenLength | OpenAI_API/Chat/Conversation.cs:701 | The UTF-16 length of the longest function token. |
| MarkerDecoding.FirstTokenFrom | OpenAI_API/Chat/Conversation.cs:734-753 | The first token from position i in array order that the buffer contains; none if no later token is contained. |
| MarkerDecoding.FirstToken | OpenAI_API/Chat/Conversation.cs:734-753 | The first token in array order that the buffer contains; none if it contains no token. |
| MarkerDecoding.Advance | OpenAI_API/Chat/Conversation.cs:721-773 | Text handling never changes the stored result and never clears detection. |
| MarkerDecoding.AdvanceLossless | OpenAI_API/Chat/Conversation.cs:721-773 | While undetected, the yields and the buffer together hold all the text; an uncached buffer is empty. |
| MarkerDecoding.MarkerStepLossless | OpenAI_API/Chat/Conversation.cs:705-789 | The same invariant, across a whole chunk. |
| MarkerDecoding.MarkerStepUndetected | OpenAI_API/Chat/Conversation.cs:717-752 | A chunk whose buffer holds no token and that does not finish with "function_call" detects nothing. |
| MarkerDecoding.MarkerRun | OpenAI_API/Chat/Conversation.cs:703-791 | An uncached buffer is empty. Undetected, the yields followed by the buffer are all the content text. A result is stored iff some chunk has a delta. |
| MarkerDecoding.MarkerLossless | OpenAI_API/Chat/Conversation.cs:794-797 | No loss: undetected, all yields including the final flush concatenate to all non-empty content fragments. |
| MarkerDecoding.MarkerUndetected | OpenAI_API/Chat/Conversation.cs:717-752 | If no chunk finishes with "function_call" and the text holds no token, nothing is detected. |
| MarkerDecoding.MarkerSealed | OpenAI_API/Chat/Conversation.cs:731-736 | After a detection while caching, nothing more is yielded: no search, no flush, no end-of-stream flush. |
| MarkerDecoding.EmptyTokenTakesAll | OpenAI_API/Chat/Conversation.cs:734-749 | With an empty first token, a cached fragment detects a call, yields the whole buffer unless it is empty or "```\n", and empties it. |
| MarkerDecoding.CachedAdvance | OpenAI_API/Chat/Conversation.cs:734-766 | A cached fragment either cuts the buffer at the first token in array order, yielding the part before unless it is empty or "```\n"; or flushes the whole buffer exactly when its UTF-16 length exceeds the longest token's and the fragment holds a newline; or keeps it. |
| Text.Utf16Length | OpenAI_API/Chat/Conversation.cs:701 | C#'s `Length`: between one and two code units per character, two exactly for characters outside the Basic Multilingual Plane (Utf16Narrow, Utf16Wide, Utf16Append). |
| Text.Utf16Narrow | OpenAI_API/Chat/Conversation.cs:701 | Text of the Basic Multilingual Plane has one code unit per character. |
| Text.Utf16Wide | OpenAI_API/Chat/Conversation.cs:756 | Text of characters outside the Basic Multilingual Plane has two code units per character. |
| Text.Utf16Append | OpenAI_API/Chat/Conversation.cs:756 | The UTF-16 length of a concatenation is the sum of the lengths. |
| MarkerDecoding.DefaultMaxLength | OpenAI_API/Chat/Conversation.cs:700-701 | The longest default token is 20 code units long. |
| MarkerDecoding.NoDefaultToken | OpenAI_API/Chat/Conversation.cs:700 | Every default token contains 'A', so text without that letter holds none of them. |
| MarkerDecoding.WideTextFlushed | OpenAI_API/Chat/Conversation.cs:756-763 | A first chunk of a newline and ten characters outside the Basic Multilingual Plane (11 characters, 21 code units, more than the 20 of the longest default token) is yielded at once and the buffer emptied. |
| MarkerDecoding.FirstNotLongest | OpenAI_API/Chat/Conversation.cs:700-753 | With the default tokens, a buffer holding "```\nAction:" is cut at the shorter "Action:", not at the longest match. |
| MarkerDecoding.FenceSplit | OpenAI_API/Chat/Conversation.cs:739-749 | "```\nAction:" + x is cut into "```\n" and x. |
| MarkerDecoding.FenceSuppressed | OpenAI_API/Chat/Conversation.cs:742-749 | A single fenced call chunk yields nothing, keeps x and detects the call. |
| MarkerDecoding.MarkerFirstChunk | OpenAI_API/Chat/Conversation.cs:705-773 | A single chunk with content and no "function_call" finish yields, buffers and detects what the text handling of its content does from a fresh state. |
| MarkerDecoding.FenceAdvance | OpenAI_API/Chat/Conversation.cs:724-749 | The text step of that chunk from a fresh state. |

## Left out

- Transport: the request objects, `_endpoint.StreamChatEnumerableAsync`, `CreateChatCompletionAsync` and the async enumerator machinery. The completion and the chunk sequence are parameters, and the yields are returned as one sequence. The model therefore does not capture what a caller could observe between two yields, or a stream abandoned halfway.
- The request-parameter properties and the four constructors' parameter copying (Conversation.cs:30-117). The constructor keeps only "the history starts empty".
- The callback wrappers `StreamResponseFromChatbotAsync(Action<…>)` (Conversation.cs:253-273) and the obsolete alias `GetResponseFromChatbot` (Conversation.cs:241). They only forward to the enumerable and non-streaming methods.
- JSON parsing and serialisation in `ProcessStreamChunkQwen`. They are an uninterpreted parameter `json`: a reader error, or an object whose `name` and `arguments` may be absent. The serialised text of `arguments` is whatever that parameter returns.
- The regular-expression engine. The non-greedy single-line `<tool_call>(.*?)</tool_call>` match is specified directly as the first opening tag and the nearest closing tag after it.
- `string.StartsWith`, `Contains`, `IndexOf` and `Split` are modelled with ordinal comparison. Culture-sensitive comparison is not modelled.
- `ChatMessageRole.FromString` and role equality. Roles are a plain enumeration.
- The Moderations endpoint and the integration tests, which hold no logic of the class.
- `Thinking` and `ToolCalls` are used by Conversation.cs but are not declared in ChatMessage.cs. They are modelled as a flag on the message and as the function of its first tool call.
- Null strings passed to the append helpers. Message contents there are plain strings.
- Conversations.Conversation.StreamResponseFromR1Chatbot: requires that the first chunk with a delta has empty reasoning and content (`R1Ready`). Otherwise the C# dereferences a null `MostRecentApiResult` (Conversation.cs:412, 417).
- Conversations.Conversation.StreamResponseFromQwQChatbot: requires that the first chunk with a delta has empty content or content holding `<tool_call>` (`QwQReady`). Otherwise the C# dereferences a null `MostRecentApiResult` (Conversation.cs:594, 598).
- Conversations.Conversation.StreamResponseFromAliQwenChatbot: requires that the first chunk has a delta whenever any chunk carries tool-call arguments (`AliReady`). Otherwise the C# dereferences a null delta (Conversation.cs:524).
- Conversations.Conversation.GetResponseFromChatbot: requires a message on the first choice when there is one; a null message would fail on `.Content`. The same holds for GetResponseFromLLamaChatbot and GetResponseFromGemmaChatbot.
- MarkerDecoding.MarkerSealed: covers only a detection made while caching. A detection through a "function_call" finish reason while not caching leaves later uncached fragments flowing through, as the code does.
