# Verification of the protocol translator

A Dafny model of the parts of this repository that re-frame one streaming
protocol into others, and of the algorithms beside them, with proofs of what
they keep in every run. `dafny verify dfyconfig.toml` checks all of it.

Code that changes state step by step is modelled twice: as functions on values,
about which the laws are proved, and as a class or a method with the same
fields, branches and loops, proved equal to the functions. Every fact about the
functions therefore holds of the step-by-step form.

| file | models |
|---|---|
| `text.dfy`, `wrappers.dfy` | the operations of Go's `strings` and `strconv` packages that the rest uses; optional values |
| `output_limit.dfy`, `output_limit_laws.dfy`, `output_limit_ceiling.dfy`, `output_limiter.dfy` | the stop-sequence and token limiter |
| `connect_frames.dfy` | Connect envelopes, the read buffer compacted in place, the frame loop |
| `inference_stream.dfy`, `inference_content.dfy`, `inference_reader.dfy` | the direct-inference reader and what it sends |
| `anthropic.dfy`, `anthropic_grammar.dfy`, `anthropic_events.dfy`, `anthropic_content.dfy`, `anthropic_message.dfy`, `anthropic_server_tools.dfy`, `anthropic_writer.dfy` | the Anthropic stream writer, its grammar and all its content |
| `openai_responses.dfy`, `openai_responses_laws.dfy`, `openai_responses_output.dfy`, `openai_responses_order.dfy`, `openai_responses_list.dfy`, `responses_writer.dfy` | the Responses stream writer and the non-streaming accumulator |
| `proto_wire.dfy`, `trailer.dfy` | the protobuf wire codec; the trailer status |
| `tool_ring.dfy`, `closure.dfy`, `tool_alias.dfy`, `shell_quote.dfy`, `tool_ids.dfy`, `tool_id_repair.dfy`, `usage_jobs.dfy` | the ring buffer, schema closure, tool-name aliases, shell quoting, tool-id repair, the parallel usage jobs |

## Where the code does less than one might expect

Each of these is a theorem with its exact condition, not an assumption; where
the code fails, a lemma has an input at which it does.

- The split of a text into deltas can change the limiter's result. Without a
  ceiling it never does, for any text, if and only if no stop sequence ends
  inside one that can be reported (`ChunkInvariance`; a failing list in
  `NestedList`). Under a ceiling, with stop sequences that do not nest, it never
  does, for a given text, if and only if no delta can end where the text cleared
  so far meets the ceiling short of the one-call result, or exceeds it with a
  stop still to come (`CeilingInvariance`); without stop sequences that means
  that the text without its last character estimates below the ceiling
  (`CeilingChunkInvariance`). Two splits never differ by more than three
  characters (`SplitsStayClose`).
- `Truncate` under a ceiling reports `max_tokens` with a stop sequence still
  attached when the stop stands too late, and drops a held-back suffix when the
  text before it already meets the ceiling (`TruncatedReport`; a text for each in
  `StaleSequence` and `DroppedSuffix`).
- `splitConnectFrame` compares lengths as uint32. It never cuts a frame wrongly,
  but does not return a complete frame exactly when the buffered length wraps
  below it (`SplitStallsExactly`); the frame loops may then end with that frame
  still in the buffer. `addConnectEnvelope` writes a wrong length exactly from
  4 GiB on (`EnvelopeRoundTrip`).
- An Anthropic trace follows the grammar exactly when the events are clean
  (`TraceGrammarByEvents`, `TraceGrammar`). Not clean are, when something was
  written since the last start of a tool: a second start of a tool that is still
  running, a web result, and a turn end with an unanswered server tool; and a
  turn end before anything started the message. Each has a run with its frames
  (`SecondStartBreaks`, `ResultInTextBreaks`, `OrphanBehindTextBreaks`,
  `EmptyTurnBreaks`). The text and the thinking are right in every run
  (`TraceSays`). So are the tool calls (`ToolCallsAreFaithful`), with one
  exception: the name and the text of a second start of a running call are lost
  (`SecondStartIsLost`). A signature that arrives while text is written is
  dropped, the citations due at a second start of a running tool are lost, and a
  web search replaces the citations of one before it that were not sent yet
  (`MessageEnd`).
- In a Responses stream, argument text follows its own `arguments.done` exactly
  when a start or a delta brings text for a completed call
  (`ItemLifecycleByEvents`, `LateTextExists`). `response.completed` lists the
  items in index order, whatever order the map of calls is visited in, exactly
  when the calls completed before the turn end are the first items, in order, the
  message comes next and at most one call is left (`CompletedInOrderByEvents`,
  `SecondDoneFirst`); with two left open, two runs with the same events can
  differ (`MapOrderShows`). Otherwise the list has empty entries or overwritten
  ones, exactly where `CompletedListExactly` says (`GapBeforeMessage`). Streaming
  agrees with non-streaming exactly when no
  tool id is started twice (`StreamAgreesExactly`, `RepeatedStartDiffers`).
- A tool name resolved twice can differ from the name resolved once, in one
  way only: `web_fetch` falls back to `WebFetch`, which a second resolution maps
  to a declared `webfetch`, when another name of the family is declared too and
  `WebFetch` is not (`ResolvingTwice`, `SecondResolutionDiffers`).
- The tool-id repair serves waiting uses in order, also with the result of a use
  that has its own id (`StolenId`); it restores lost ids exactly when each use
  meets a result with its id (`RestoresExactly`).
- A snapshot of the tool ring misses retained entries exactly when an entry
  older than the cutoff was recorded after one that is not (`CutIsFilter`).
- The comment on `scanForCursorErrorDetails` calls it robust to unknown fields;
  a field with a fixed-width wire type ends the scan, so that a detail behind it
  is not found (`OtherWiresEndTheScan`).
- A trailer without a readable `grpc-status`, and a Connect error whose code is
  `ok` or empty, count as success (`OkExactly`).

## Model

| member | source | states |
|---|---|---|
| OutputLimit.EstimateGrows | translator/output_limit.go:17-26 | the estimate is monotone and moves by at most one per added character |
| OutputLimit.EstimatePlateau | translator/output_limit.go:17-26 | texts with the same estimate differ by at most three characters |
| OutputLimit.FirstStopIsFirst | translator/output_limit.go:157-168 | the search returns the leftmost match, and there the earliest-listed sequence; -1 exactly if there is none |
| OutputLimit.HoldIsLongest | translator/output_limit.go:172-190 | the held-back length is that of the longest suffix that is a proper prefix of a stop sequence |
| OutputLimit.SearchFromHeld | translator/output_limit.go:64-88 | searching the held-back suffix plus the new delta finds what searching everything received finds |
| OutputLimit.HoldFromHeld | translator/output_limit.go:82-87 | the suffix held back from the last buffer is the one everything received calls for |
| OutputLimit.ClipReaches | translator/output_limit.go:194-209 | the clipped addition is a prefix; if the whole does not fit, it meets the ceiling exactly and one more character would exceed it |
| OutputLimit.FeedKeepsInv | translator/output_limit.go:64-127 | every Feed keeps: emitted ++ pending is what was received while running, emitted holds no stop sequence and stays within the ceiling |
| OutputLimit.StreamIsSafe | translator/output_limit.go:64-127 | for every stop list, ceiling and split: the output is a prefix of the text, holds no stop sequence, never estimates above the ceiling, meets it when it is the reason, and is the whole text if nothing stopped |
| OutputLimit.RunningHoldsLongestSuffix | translator/output_limit.go:64-89 | while running, output ++ pending is the text received, and pending is its longest suffix that is a proper prefix of a stop sequence |
| OutputLimit.InactivePasses | translator/output_limit.go:53-66 | with neither control set, every delta passes unchanged |
| OutputLimit.TruncatedIsStreamed | translator/output_limit.go:131-137 | Truncate is the stream of one delta |
| OutputLimitLaws.IndependentIsUnnested | translator/output_limit.go:157-168 | it is enough that no non-empty sequence occurs inside a different one |
| OutputLimitLaws.FirstStopIsStable | translator/output_limit.go:157-168 | with unnested sequences, a stop found in a prefix is the stop of the whole text |
| OutputLimitLaws.StreamedIsCut | translator/output_limit.go:64-99 | without a ceiling and with unnested sequences, every split is cut at the first stop |
| OutputLimitLaws.TruncatedIsCut | translator/output_limit.go:131-137 | without a ceiling, one call cuts at the first stop, for every stop list |
| OutputLimitLaws.ChunkInvariance | translator/output_limit.go:64-99 | every split of every text gives the one-call result if and only if no stop sequence ends inside a reportable one |
| OutputLimitLaws.NestedBreaks | translator/output_limit.go:64-99 | if one does, a split of that very sequence reports another stop |
| OutputLimitLaws.NestedList | translator/output_limit.go:64-99 | witness: with abc and b, the text abc whole is reported as abc, but in two pieces as b |
| OutputLimitLaws.CeilingOnlyCuts | translator/output_limit.go:103-127 | for the same deltas the ceiling changes nothing, or leaves a shorter prefix that meets it exactly, reported as max_tokens |
| OutputLimitLaws.TruncatedReport | translator/output_limit.go:64-137 | Truncate under a ceiling in all cases, with the stale stop sequence and the dropped suffix |
| OutputLimitLaws.StaleSequence | translator/output_limit.go:75-80 | witness: a stop too late for the ceiling, reported as max_tokens with its sequence |
| OutputLimitLaws.DroppedSuffix | translator/output_limit.go:111-116 | witness: a text that fits the ceiling loses the suffix that was held back |
| OutputLimitLaws.SplitsStayClose | translator/output_limit.go:103-127 | under a ceiling, of two splits of a text one result is a prefix of the other, and they differ by at most three characters |
| OutputLimitLaws.CeilingOutOfReach | translator/output_limit.go:103-127 | a ceiling first met by the last character to be sent changes nothing |
| OutputLimitLaws.CeilingChunkInvariance | translator/output_limit.go:111-116 | under a ceiling and without stop sequences, every split of a text gives the one-call result if and only if the text without its last character estimates below the ceiling |
| OutputLimitLaws.EarlyStop | translator/output_limit.go:111-116 | otherwise one particular split stops early, with the length it stops at |
| OutputLimitCeiling.CeilingInvariance | translator/output_limit.go:64-127 | under a ceiling with unnested stop sequences, every split of a text gives the one-call text and report if and only if no possible end of a delta before the stop has cleared text that meets the ceiling short of the one-call result, or exceeds it with a stop to come |
| OutputLimitCeiling.ReachableCut | translator/output_limit.go:64-127 | it is enough that the text up to the stop, without its last character, estimates below the ceiling; every split is then cut at the stop |
| OutputLimiterObject.FirstStopSequence | translator/output_limit.go:157-168 | the loop returns the first match |
| OutputLimiterObject.PartialStopSuffix | translator/output_limit.go:172-190 | the nested loops return the longest held-back suffix |
| OutputLimiterObject.ClipToTokenBudget | translator/output_limit.go:194-209 | the loop returns the longest fitting prefix |
| OutputLimiterObject.OutputLimiter.Feed | translator/output_limit.go:64-88 | the new fields and the output are those of the function |
| OutputLimiterObject.OutputLimiter.Flush | translator/output_limit.go:92-99 | likewise |
| OutputLimiterObject.OutputLimiter.Admit | translator/output_limit.go:103-127 | likewise |
| OutputLimiterObject.OutputLimiter.Truncate | translator/output_limit.go:131-137 | on any limiter, also one already fed, the new fields and the text are those of one Feed and one Flush |
| OutputLimit.StopReport | translator/output_limit.go:141-147 | in every run a limit is reported exactly if text was cut off; the reason is one of two; a reported stop sequence is a listed one and stands in the text where the output ends |
| ConnectFrames.SplitStallsExactly | executor/client.go:235-249 | the code agrees with the unbounded split if and only if the uint32 length does not wrap; if it wraps, it waits on a complete frame |
| ConnectFrames.EnvelopeRoundTrip | executor/client.go:221-249 | an envelope followed by anything is read back if and only if its payload is shorter than 4 GiB |
| ConnectFrames.BigEndian | executor/client.go:221-229 | the flag, the length with its highest byte first, the payload |
| ConnectFrames.FlagBits | executor/client.go:235-249 | for every byte, bit by bit: bit 7 or bit 1 ends the stream, bit 0 means a compressed payload, no other bit matters |
| ConnectFrames.DeliverAppend | executor/chat.go:461-573 | reading on from the unread rest gives what reading everything gives |
| ConnectFrames.DeliverEncoded | executor/chat.go:461-573 | a stream of envelopes delivers them in order up to the first trailer, and nothing before it is left over |
| ConnectFrames.ReassemblyFromReads | executor/chat.go:461-573 | for every list of frames and every split of its bytes into reads, exactly those frames up to the first trailer are delivered |
| ConnectFrames.MessageFromReads | executor/chat.go:461-573 | frames with flags 0 or 1, then one with 0x02 or 0x80, then any bytes: exactly those frames are delivered, up to that one |
| ConnectFrames.AliasSurvivesExactly | executor/chat.go:475-489 | after the compaction, a payload still aliasing the array reads its own bytes if and only if what slid over it is equal |
| ConnectFrames.AliasClobbered | executor/chat.go:475-489 | two short frames where it reads the next frame's bytes |
| ConnectFrames.AddConnectEnvelope | executor/client.go:221-229 | the new array holds the envelope |
| ConnectFrames.FrameBuffer.Append | executor/chat.go:470 | contents grow by the chunk, in place or in a new array |
| ConnectFrames.FrameBuffer.Split | executor/client.go:235-249 | payload and rest are adjoining slices of the buffer's own array with the split's contents |
| ConnectFrames.FrameBuffer.Compact | executor/chat.go:488 | contents lose their head, and the array's tail keeps its old bytes |
| ConnectFrames.TakeFrame | executor/chat.go:472-490 | for every buffer, one frame is detached before the compaction and the buffer is exactly the unread rest; or nothing changes, because no frame is complete or the length wraps |
| ConnectFrames.ReadFrames | executor/chat.go:459-573 | over the aliased buffer and for all reads, the frame loop delivers what one parse of all bytes delivers: of a stream of envelopes the frames up to the first trailer, of data frames with flags 0 or 1 and a last frame with 0x02 or 0x80 exactly those; only if a buffered length wraps it may stop short, with everything undelivered still in the buffer |
| ConnectFrames.EndedStaysEnded | executor/chat.go:564-566 | reads after the trailer would change nothing |
| InferenceStream.StreamErrorStatus | executor/inference_stream.go:809-846 | a stream error never counts as success; a non-zero number is kept, anything else becomes one of six codes; the message is empty only if all three fields are |
| InferenceStream.StopIsFinal | executor/inference_stream.go:490-535 | frames after the one that ended the run change nothing |
| InferenceStream.FlagsAgreeWhileRunning | executor/inference_stream.go:458-556 | while running, the flags say exactly whether a turn end and whether a non-OK status was sent |
| InferenceStream.RunIsMainThenEnding | executor/inference_stream.go:458-556 | a run sends what its responses call for (see MainIsPieces), then at most one synthetic turn end (only if neither a turn end nor an error was sent and the stream ended well), then the final status, then nothing |
| InferenceStream.TerminalGuarantee | executor/inference_stream.go:458-556 | every run that is not cancelled sends a turn end or a non-OK status |
| InferenceStream.PartsTrack | executor/inference_stream.go:703-756 | for every sequence of parts and every id: at most one start before any fragment or completion, at most one completion, which carries all fragments so far; start plus fragments is the accumulated text |
| InferenceStream.RunNeverBreaksAToolCall | executor/inference_stream.go:569-756 | no run, whatever its frames, breaks that order for any id |
| InferenceContent.MainIsPieces | executor/inference_stream.go:569-756 | before its ending, a run sends one block of events for each piece of the decoded responses, in order and with its frame's decoded payload: text as text, thinking as thinking, the token counts as they are, errors with their status, and for a tool part only events with its trimmed id and name; the tool parts go in order through the calls |
| InferenceContent.RunTells | executor/inference_stream.go:569-701 | in every run the concatenated text deltas are the text parts and message contents, and the thinking deltas the thinking parts and reasoning texts |
| InferenceContent.RunTracksParts | executor/inference_stream.go:656-756 | in every run, what is sent of a tool call is what the parts and info calls with its id call for |
| InferenceContent.NamedCodes | executor/inference_stream.go:809-846 | every named error text has its own code, in any letter case and with hyphens, spaces or underscores; any other text has 13 |
| InferenceContent.ErrorMessages | executor/inference_stream.go:809-846 | the message is the first of message, code text and error type that says something |
| InferenceReader.InferenceStreamState.ToolCallPartEvents | executor/inference_stream.go:703-756 | the maps and the events are those of the function |
| InferenceReader.InferenceStreamState.ResponseInfoEvents | executor/inference_stream.go:656-701 | likewise for response info |
| InferenceReader.InferenceStreamState.ResponseEvents | executor/inference_stream.go:569-637 | likewise for every response |
| InferenceReader.HandleBuffered | executor/inference_stream.go:491-536 | for every buffer, the inner loop handles each frame the split returns, in order, or returns early |
| InferenceReader.ReadInferenceStream | executor/inference_stream.go:458-556 | the reader over the in-place buffer sends what a run over the whole body sends, whatever the reads; only if they do not fit under 4 GiB it may end stalled on a complete frame |
| AnthropicStream.CanonicalIsStable | translator/anthropic.go:130-156 | a canonical id has its kind's prefix and no line break, and is its own canonical form |
| AnthropicStream.CanonicalKeepsId | translator/anthropic.go:130-156 | only the prefix of an id changes, and line breaks become hyphens |
| AnthropicStream.CanonicalThroughServer | translator/anthropic.go:130-156 | the server form leads back to the same client form |
| AnthropicGrammar.TraceGrammar | translator/anthropic.go:174-614 | a run's frames are one message_start, blocks started once each at 0, 1, 2, …, deltas of the right type to open blocks only, one stop each, message_delta and message_stop, if and only if the run is clean |
| AnthropicEvents.TraceGrammarByEvents | translator/anthropic.go:174-614 | the same condition on the events alone: what was started, completed and answered before, and whether something was written since the last start of a tool |
| AnthropicGrammar.AllowedKeeps | translator/anthropic.go:233-614 | every allowed event keeps writer and grammar in step; in particular an open block implies message_start was sent |
| AnthropicGrammar.DisallowedNeverDone | translator/anthropic.go:233-614 | after an event that is not allowed no continuation completes the stream |
| AnthropicGrammar.SecondStartBreaks | translator/anthropic.go:340-363 | witness: a second start of an id in flight; its whole trace, where the text block 1 is never stopped |
| AnthropicGrammar.ResultInTextBreaks | translator/anthropic.go:466-535 | witness: any web result while a text block is open; two block starts carry index 0 |
| AnthropicGrammar.OrphanBehindTextBreaks | translator/anthropic.go:537-614 | witness: an unanswered server tool at the turn end; two block starts carry index 1 |
| AnthropicGrammar.EmptyTurnBreaks | translator/anthropic.go:537-583 | witness: a turn end as first event; the two frames sent hold no message_start |
| AnthropicContent.TraceSays | translator/anthropic.go:239-333 | in every run the text and the thinking in the deltas are those of the events |
| AnthropicContent.ToolCallsAreFaithful | translator/anthropic.go:340-420 | in every run the tool calls a client rebuilds have the ids, names and argument text that the events ask for, in their order; a second start of a running call asks for nothing |
| AnthropicContent.SecondStartIsLost | translator/anthropic.go:340-363 | its name and its text never reach the client |
| AnthropicMessage.MessageEnd | translator/anthropic.go:205-614 | every run through its first turn end: pings, signatures, server tools, results (id, content, failure) and citations are those the events call for, in their order; exactly the last two frames end the message; the stop reason is the forced one, else tool_use iff a client tool was started, else refusal iff the text is one, else end_turn; the stop sequence is the event's; the search count is the number of search results sent |
| AnthropicMessage.RunIsNoted | translator/anthropic.go:205-535 | the same for every run before its turn end |
| AnthropicServerTools.ServerToolsAreFaithful | translator/anthropic.go:421-464 | the server tools a client rebuilds are those started while not running, with their ids, names and argument text, in their order |
| AnthropicWriter.AnthropicStreamWriter.CloseCurrentBlock | translator/anthropic.go:205-228 | fields and frames are those of the function |
| AnthropicWriter.AnthropicStreamWriter.Encode | translator/anthropic.go:233-586 | likewise for every event |
| AnthropicWriter.Stream | translator/anthropic.go:174-614 | a whole run of the writer object sends the trace |
| ResponsesLaws.StreamIsNumbered | translator/openai_responses.go:88-134 | every run numbers its frames 0, 1, 2, … |
| ResponsesLaws.ItemLifecycle | translator/openai_responses.go:171-361 | through the first turn end, items are added at 0, 1, 2, …, each is done once, every done text is its deltas; argument text after its arguments.done if and only if an event continues a completed call |
| ResponsesOrder.ItemLifecycleByEvents | translator/openai_responses.go:171-361 | the same, the condition read off the events: a start or a delta brings text for a call completed before |
| ResponsesOrder.LateTextExists | translator/openai_responses.go:222-292 | witness: such a run |
| ResponsesLaws.StreamAgreesExactly | translator/openai_responses.go:171-303 | text and calls in index order equal those of the non-streaming accumulator if and only if no tool id is started twice |
| ResponsesLaws.RepeatedStartDiffers | translator/openai_responses.go:171-303 | witness: one id started twice |
| ResponsesOrder.CompletedInOrderByEvents | translator/openai_responses.go:308-373 | response.completed lists every item at its own index, whatever order the map of calls is visited in, if and only if the calls completed before the turn end are the first items in order, the message is next and at most one call is left |
| ResponsesOrder.CompletionOutOfTurn | translator/openai_responses.go:294-361 | a call completed out of its turn puts the list out of order for every order of visiting |
| ResponsesOrder.SecondDoneFirst | translator/openai_responses.go:294-361 | witness: of two calls the second is completed first |
| ResponsesOrder.MapOrderShows | translator/openai_responses.go:352-358 | witness: two calls left open; one order of visiting lists in order, another does not |
| ResponsesList.CompletedListExactly | translator/openai_responses.go:308-373 | the whole list of response.completed, entry by entry, for every run and every order of visiting: the completed calls as they stood at their completion, nothing between them and the message at its own index, the calls still open in the order visited; and the usage of the turn end |
| ResponsesList.GapBeforeMessage | translator/openai_responses.go:367-373 | witness: an open call before the message gives an empty entry, the message, the call |
| ResponsesWriter.OpenAIResponsesStreamWriter.InitialFrames | translator/openai_responses.go:88-104 | fields and frames are those of the function |
| ResponsesWriter.OpenAIResponsesStreamWriter.CloseToolCall | translator/openai_responses.go:545-579 | likewise |
| ResponsesWriter.OpenAIResponsesStreamWriter.Encode | translator/openai_responses.go:107-134 | likewise for every event |
| ResponsesWriter.ResponsesNonStreamingAccumulator.Consume | translator/openai_responses.go:460-488 | the accumulated text and calls are those of the function |
| ResponsesWriter.Stream | translator/openai_responses.go:88-361 | a whole run of the writer object sends the stream |
| ProtoWire.ReadVarintMeaning | executor/trailer.go:265-279 | accepted exactly if the first byte without a continuation bit is among the first ten; the value is the seven-bit groups modulo 2^64 |
| ProtoWire.VarintRoundTrip | executor/chat.go:725-731 | readVarint gives back every uint64, whatever follows it |
| ProtoWire.Int64RoundTrip | executor/chat.go:749-752 | the printed uint64 of an int64, read back as signed, is that int64 |
| ProtoWire.ReadersAgree | executor/sandbox.go:214-230 | readProtoVarint and readVarint accept the same buffers with the same value and length |
| ProtoWire.ReadHeadRoundTrip | executor/chat.go:733-763 | a printed field, followed by anything, is read back with its number and data |
| ProtoWire.UnpackEncoded | executor/trailer.go:229-261 | an encoded Any gives its last value if its last type url mentions the wanted type and all its fields are length-delimited |
| ProtoWire.ScanFindsFirstDetail | executor/trailer.go:188-225 | on every encoded status the scan returns the value of the first matching detail, past unknown varint and length-delimited fields |
| ProtoWire.OtherWiresEndTheScan | executor/trailer.go:197-222 | a field of any other wire type ends the scan: after any good fields the result is the first detail before it, whatever stands behind |
| ProtoWire.AppendVarint | executor/chat.go:725-731 | the loop appends the varint |
| ProtoWire.ReadVarintLoop | executor/trailer.go:265-279 | the loop with its shift is the function |
| ProtoWire.ReadProtoVarintLoop | executor/sandbox.go:214-230 | likewise |
| ProtoWire.UnpackAnyLoop | executor/trailer.go:229-261 | likewise |
| ProtoWire.ScanForCursorErrorDetails | executor/trailer.go:188-225 | likewise |
| Trailer.LineEndsDoNotMatter | executor/trailer.go:69-73 | CRLF, LF and mixed line ends give the same status |
| Trailer.CodeIsLastReadable | executor/trailer.go:72-96 | the code is that of the last grpc-status line that parses, 0 if there is none |
| Trailer.TextsAreLast | executor/trailer.go:72-96 | message and details are the values of the last lines with their own keys |
| Trailer.HeaderLine | executor/trailer.go:78-83 | a key is what stands before the first colon, in any letter case, a value what stands behind it, both trimmed |
| Trailer.LinesAreTheText | executor/trailer.go:72 | the lines hold no line feed and joined by line feeds are the text |
| Trailer.ConnectCodes | executor/trailer.go:132-151 | each Connect code by its name, in any letter case; any other is 13 |
| Trailer.ConnectMessages | executor/trailer.go:99-130 | text that is no JSON is the message; an error's own message counts unless it says nothing and the first detail does |
| Text.AtoiReads | executor/trailer.go:86 | decimal numbers with or without a sign, within 64 bits, are read |
| Text.AtoiRejects | executor/trailer.go:86 | nothing else is |
| Trailer.OkExactly | executor/trailer.go:32-151 | when a trailer counts as success, in both its forms |
| Trailer.ParseTrailerText | executor/trailer.go:61-97 | the loop over lines computes that status |
| ToolRingBuffer.CanonicalNameClassifies | cmd/cursor-proxy/introspect.go:60-85 | a canonical MCP name gives back its server if and only if the server is not empty and does not contain or run into the separator |
| ToolRingBuffer.CutIsFilter | cmd/cursor-proxy/introspect.go:165-175 | cutting at the first old entry keeps all recent ones if and only if no recent entry stands behind an old one |
| ToolRingBuffer.SnapshotIsExact | cmd/cursor-proxy/introspect.go:144-178 | with non-decreasing times a snapshot is exactly the retained entries at or after the cutoff |
| ToolRingBuffer.LateClockHidesEntries | cmd/cursor-proxy/introspect.go:144-178 | a clock that went back hides an entry that is still in the ring |
| ToolRingBuffer.ToolRing.constructor | cmd/cursor-proxy/introspect.go:104-109 | empty, with 4096 slots if the size is not positive |
| ToolRingBuffer.ToolRing.Record | cmd/cursor-proxy/introspect.go:115-139 | the log grows by the trimmed, non-blank names, classified, with the shared time |
| ToolRingBuffer.ToolRing.SnapshotSince | cmd/cursor-proxy/introspect.go:144-178 | newest first, the last min(capacity, total) entries up to the first older than the cutoff |
| ToolRingBuffer.Replay | cmd/cursor-proxy/introspect.go:104-178 | the same for every run of record calls on a new ring |
| SchemaClosure.ReachableIsLeast | scripts/gen_proto.py:84-106 | reachability is the least set with the roots that is closed under references; a message refers to the named message or enum type of a field and of its map value |
| SchemaClosure.PushTargets | scripts/gen_proto.py:94-103 | the loop over one message's fields pushes exactly the names it refers to |
| SchemaClosure.TransitiveClosure | scripts/gen_proto.py:84-106 | ends on every schema and returns exactly the reachable messages and enums |
| SchemaClosure.RootsAreASet | scripts/gen_proto.py:84-88 | order and multiplicity of the roots do not matter |
| ToolAlias.ResultIsKnown | translator/native_tool_adapter.go:191-283 | the result is a declared spelling, the name itself or, for an undeclared name, the fallback; an exact or only spelling always wins |
| ToolAlias.ResolvingTwice | translator/native_tool_adapter.go:176-283 | resolving twice equals resolving once, except exactly in the one unsettled case |
| ToolAlias.SecondResolutionDiffers | translator/native_tool_adapter.go:176-207 | a catalogue in that case |
| ToolAlias.OnlyTool | translator/native_tool_adapter.go:146-165 | with one declared tool exactly the names of its kind resolve to it, in any letter case, all eight kinds listed |
| ToolAlias.NoTool | translator/native_tool_adapter.go:176-207 | with none declared, eight names become the spellings of Claude Code, in that dialect only |
| ToolAlias.OrderDoesNotMatter | translator/native_tool_adapter.go:191-283 | the result depends only on the set of trimmed declared names |
| ToolAlias.AliasGroupOf | translator/native_tool_adapter.go:287-297 | the loops return the first group with the lower-case name |
| ToolAlias.IndexNames | translator/native_tool_adapter.go:236-249 | the index has one spelling of every declared name and marks exactly those with several |
| ToolAlias.OnlyOfFamily | translator/native_tool_adapter.go:266-278 | the loop finds the only declared name of the family, or none |
| ToolAlias.ApplyClientToolAlias | translator/native_tool_adapter.go:222-283 | resolves to exact name, only spelling, only family member, or leaves the name |
| ToolAlias.ApplyClientToolContract | translator/native_tool_adapter.go:191-207 | the same, then the fallback of the dialect for undeclared names only |
| ShellQuoting.ShellQuote | translator/native_tool_adapter.go:678-693 | the loop's result is read by a POSIX lexer as one word, equal to the input |
| ShellQuoting.QuotedIsLiteral | translator/native_tool_adapter.go:678-693 | wherever the lexer stands outside quotes, a quoted text adds exactly itself to the word |
| ShellQuoting.QuotedArgument | translator/native_tool_adapter.go:678-693 | appended to any command, it is that command's last word |
| ShellQuoting.DeleteCommand | translator/native_tool_adapter.go:396-406 | the delete command is read as rm, -rf and the path |
| ToolIds.RepairIsFifo | executor/claude_tool_ids.go:28-70 | position by position: the k-th waiting use gets the id of the k-th result that arrives while uses wait, left-over uses get the next generated ids, nothing else changes |
| ToolIds.NoBlankUse | executor/claude_tool_ids.go:28-70 | no assistant tool use is left without an id |
| ToolIds.IdsAreKept | executor/claude_tool_ids.go:43-63 | an id that was there is untouched |
| ToolIds.PairsAgree | executor/claude_tool_ids.go:48-63 | a served use stands before its result and carries that result's id |
| ToolIds.RepairIsIdempotent | executor/claude_tool_ids.go:16-79 | repairing again changes nothing |
| ToolIds.RestoresExactly | executor/claude_tool_ids.go:13-70 | ids lost on the way come back if and only if each use that lost one meets, in turn, a result with it |
| ToolIds.StolenId | executor/claude_tool_ids.go:48-63 | witness: the result of a use with an id serves the waiting one |
| ToolIdRepair.RepairClaudeMessages | executor/claude_tool_ids.go:16-79 | the nested loops with their queue give the repair of the flattened messages; `changed` exactly if something changed |
| ToolIdRepair.SetMessagePartID | executor/claude_tool_ids.go:81-99 | an object at the place gets the id, whatever its type, and only a tool use shows it; nothing changes if there is none |
| ToolIdRepair.FillEmptyHistoryToolIDs | executor/chat_build.go:293-326 | the loop over a history gives the same repair |
| ToolIdRepair.RepairBoth | executor/chat_build.go:293-326 | on the same flattened history and supply both give the same ids |
| UsageJobs.StepsCommute | usage/client.go:209-393 | two different jobs commute from every state, also on the period bounds |
| UsageJobs.OrderDoesNotMatter | usage/client.go:395-411 | every order of the same jobs gives the same snapshot and errors |
| UsageJobs.FetchedOrFailed | usage/client.go:395-411 | each job that ran has its flag or its error, never both |
| UsageJobs.PeriodBounds | usage/client.go:238-267 | the billing cycle's bounds win and the current-period usage fills in unset ones, in every order |
| UsageJobs.FieldsFromAnswers | usage/client.go:209-393 | in every order, each field of the snapshot is that of its own job's answer, the hard limit turned into cents, and unset without an answer |
| UsageJobs.SharedSnapshot.SetCurrentPeriod | usage/client.go:211-247 | one critical section is one step |
| UsageJobs.SharedSnapshot.SetBillingCycle | usage/client.go:248-267 | likewise |
| UsageJobs.SharedSnapshot.SetAggregated | usage/client.go:445-467 | likewise |
| UsageJobs.SharedSnapshot.SetErr | usage/client.go:203-207 | likewise for a failure |
| UsageJobs.Fetch | usage/client.go:184-411 | whatever the order of the ten jobs, one snapshot, with every field from its own answer; the error map is dropped exactly if no job failed |

## Left out

- Rounding: `EstimateTokens` divides by the float64 3.6; the model uses exact integer arithmetic, `(5n + 17) / 18`, which is the ceiling of `n / 3.6`.
- Bytes and runes: texts are sequences of characters; deltas and stop sequences are taken as valid UTF-8, so that cuts fall between characters, and lengths in bytes are lengths in characters.
- Letter case: `strings.ToLower` and `strings.EqualFold` fold A to Z only.
- JSON text, protobuf message decoding and gzip are parameters: `Codec` of the inference reader, `json` of the trailer. Frames and events are values, not text.
- Random ids, UUIDs, timestamps and item ids: a supply of ids, one given anonymous tool id, times as integers.
- Map iteration order: an arbitrary enumeration of the keys, each once (`Fair`, `VisitsAll`), the same for the same keys within a run; laws about it are for all enumerations.
- Usage objects in stream frames, error frames (`EncodeError`), message skeletons and model names.
- Timers, watchdogs and goroutine deadlines of `readSSEStream`, and what it does with a decoded message.
- InferenceStream.TerminalGuarantee: says nothing of cancelled runs, where the code sends what it can and stops.
- ConnectFrames.ReadFrames: beyond 4 GiB of buffered bytes, says that a frame may stay in the buffer, not for which reads it does.
- InferenceReader.ReadInferenceStream: likewise.
- OutputLimitCeiling.CeilingInvariance: for stop sequences that nest, under a ceiling, no exact condition on the text is stated; `ChunkInvariance` has it without a ceiling.
- ProtoWire.EncodeField: field numbers are below 2^29, as the wire format requires; strings and messages are byte sequences. `Or` and shifts are on naturals below 2^64.
- ProtoWire.ReadVarintLoop: sharing of the returned slices with the buffer is not modelled.
- Trailer.ParseTrailer: the base64 text of grpc-status-details-bin is kept, not decoded here.
- UsageJobs.Fetch: a job is one atomic step, since it touches shared state in one critical section only; the network calls are given outcomes. Team ids stay numbers, percentages are reals that are only copied.
- ToolIdRepair.RepairClaudeMessages: JSON maps and pointers into them are values and locations, so that sharing of one map by two messages is not modelled; parts that are no tool use or result are all alike.
- ToolRingBuffer.ToolRing: the mutex makes each method one step; memory reuse of returned copies is not modelled.
- ShellQuoting.QuotedArgument: the command before the argument is one that the lexer reads as words.
- ShellQuoting.Lex: words only; a special character outside quotes is outside this lexer, and the NUL character is treated like any other.
- The other mapping code of native_tool_adapter.go (argument schemas) and of events.go (message kinds): stateless tables.
- HTTP, SQLite, OAuth, the sidecar, the Node supervisor, the command line and the probe scripts.
