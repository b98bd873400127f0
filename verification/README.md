# essessey, modelled and proved

essessey carries one conversational turn from a model to a client. This project models its
four stateful parts and proves what they promise, alone and composed.

1. **The SSE format.** `LineScanner` cuts octets into lines as they arrive, `Codec` prints
   frames, `SseSource` parses them. `EventStream` is a reading of the stream with no parser
   state, after section 9.2.6 ("Interpreting an event stream") of the WHATWG HTML Living
   Standard; the parser is proved against it, and `PrintParse` proves what the printer
   writes against it.
2. **The block protocol.** `Protocol`, `Streamers` and `Adapter` turn deltas, tool calls and
   tool results into indexed content blocks through a sink that may refuse any emission.
   `AdapterRuns` shows that a whole run emits a list of complete blocks, `AdapterSafety`
   what follows for indices and brackets. `Reassembler` is the state machine that rebuilds
   the turn; `StreamReading` reads the same turn off the events without a machine and proves
   the two equal; `ReassemblyLaws`, `FlushOrder` and `Interleaving` hold further laws for arbitrary
   event streams, `RoundTrip` those for streams the adapter emits, and `CutRuns` those for
   first parts of such streams.
3. **The retention store.** `EventStore`: a ring buffer with an id index, against the list
   of everything ever appended.
4. **The queue sources.** `SourceQueue` covers the NATS and the WebSocket source, whose code
   is the same: goroutines and a consumer as interleaved atomic steps.

`Resume`, `Reconnects` and `EndToEnd` join the parts: a connection dropped once or many times and
resumed from the store, and an adapter run through a failing sink or a cut connection into a
reassembler.

Octets are characters below 256, so field names can be written as strings. Go objects that
change in place are classes here; each of their methods is proved against a function or an
invariant stated on the abstract value, and the laws are lemmas about those.

## What the code does that its documentation does not say

- An empty `id:` field *is* written, for an id made only of CR, LF and NUL, although
  sse/codec.go:73-75 wants to avoid it (`PrintParse.ResumePointLostIff`).
- The retry delay overflows silently above 9223372036854 ms (`EventStream.RetryIsExactIff`).
- elelemstream/README.md:102 says a round advances on the last tool result and writes it
  `i == toolCallCount-1`: last by index, as the code has it, where elelemstream/adapter.go:150-152
  says "once the last result of the round has landed". The two differ when a result comes in
  after the highest-index one (`AdapterSafety.AdvancesEarlyIff`). If that one never comes in,
  the next round's content can reuse indices of tool_use blocks
  (`AdapterSafety.NextRoundCollidesIff`). The vendored engine reports results in index order
  (vendor/github.com/psyb0t/elelem/engine.go:1005-1015), so both take a caller of the adapter's
  exported callbacks other than that engine.
- README.md:132 promises every reasoning delta. Reasoning that arrives after text in its
  round never reaches the wire (`RoundTrip.ReasoningKeptIff`), and a reader drops thinking
  deltas that name no open thinking block, except at index -1 (`ReassemblyLaws.ThinkingIsOwnIff`).
- README.md:137 says results are matched by content block index; they are matched by
  tool-use id (`Reassembler.Reassembler.FinalizeResult`). When a stream ends with a result in
  flight whose id no finished call has and two different calls in flight share, and only
  then, the order of map iteration decides which executions there are, as a multiset
  (`FlushOrder.OrderDecidesIff`). The order within the lists depends on it more often: as soon
  as two different tools, or two different executions, are left to the final flush
  (`FlushOrder.TurnIsUniqueIff`).
- CHANGELOG.md:14 speaks of completed tool executions. A stream cut between a tool_result
  start and its content yields an execution with an empty result, and one cut between a
  tool_use start and its input a call with `{}` for parameters (`CutRuns.CutRunsLose`).
- A tool is lost when its index is reused in flight (`FlushOrder.ToolNamesArePermutationIff`).
- Without a consumer a `Close` blocks if and only if the queue is full, the source open and a
  `Deliver` holds the lock (`SourceQueue.CloseGetsThroughIff`); 65 deliveries get there
  (`SourceQueue.JamIsReachable`).
- sse/source.go:64-71 calls `LastEventID` the value a client sends on reconnect. Each new source
  starts without one, so after a second cut the client must send the id it held before, unless
  an event of the new connection bore one (`Reconnects.OwnIdSufficesIff`).
- The event type of an SSE event without an `event` field is left empty, where the standard
  says "message".

## Model

| member | source | states |
|---|---|---|
| `LineScanner.ScanFrameLines` | sse/source.go:244-264 | The loop decides by the first CR or LF alone: token, or read more. |
| `LineScanner.TokenIsStable` | sse/source.go:244-290 | A token found before end of input never changes when more octets arrive. |
| `LineScanner.TokenIsFirstLine` | sse/source.go:244-290 | A token is the first line of the whole stream whatever arrives later; cutting it off leaves exactly the other lines and consumes at least one octet. |
| `LineScanner.NeedMoreExactly` | sse/source.go:266-290 | More input is asked for exactly when there is no terminator yet, or only a CR in last place. |
| `LineScanner.SplittingAtAFinalCarriageReturnForgesALine` | sse/source.go:269-273 | Splitting at a CR before its LF has arrived would yield a blank line the producer never sent. |
| `LineScanner.LineEndings` | sse/source.go:244-290 | LF, CRLF and a lone CR each end a line; what follows the last is a line if there is anything. |
| `LineScanner.Scanner.Scan` | sse/source.go:56-62 | Driven over any partition into reads, the scanner returns the lines of the whole input one by one. |
| `Codec.SanitizeFieldValue` | sse/codec.go:148-164 | The result has no CR, LF or NUL, equals the value exactly when that is clean, and is empty exactly when nothing else was in it. |
| `Codec.SanitizeFirst` | sse/codec.go:148-164 | CR, LF and NUL are dropped and every other octet is kept. |
| `Codec.SanitizeAppend` | sse/codec.go:148-164 | Each octet is judged alone and the kept ones keep their order. |
| `Codec.WriterAndReaderAgreeOnLines` | sse/codec.go:131-146 | The printer's replace-then-split and the parser's scanner see the same lines, plus one empty line exactly when the payload is empty or ends in a terminator. |
| `Codec.JoinInvertsSplit` | sse/codec.go:131-146 | Joining the payload lines with LF gives the normalised payload back. |
| `Codec.FrameLines` | sse/codec.go:59-95 | The frame is the id, event and data fields and one blank line, each ended by LF. |
| `Codec.EventFrameText` | sse/codec.go:59-95 | The same octet by octet: `id: `, `event: ` and `data: ` lines, the first two exactly when the event has them. |
| `Codec.PlainFrames` | sse/codec.go:97-120 | A comment and a retry octet by octet. |
| `Codec.ClampedMillis` | sse/codec.go:107-120 | Whole milliseconds, none for a negative delay. |
| `Codec.FieldLineShapes` | sse/codec.go:166-181 | No colon: all name. Otherwise name before the first colon and value after it; one leading space is dropped, and a value without one stands as it is. |
| `Codec.IsASCIIDigits` | sse/codec.go:183-198 | True exactly for non-empty runs of ASCII digits. |
| `Codec.ParseInvertsFormat` | sse/codec.go:115-120 | Reading the digits written for a delay gives the delay back. |
| `Codec.ParseByPlace` | sse/source.go:166-193 | Digits are read by decimal place, leading zeros included. |
| `Codec.FormatByPlace` | sse/codec.go:115-120 | Numbers are written in decimal, the highest place first. |
| `Codec.DigitIsRead` | sse/codec.go:115-120 | The ten digits, as written and as read. |
| `EventStream.RetryIsExactIff` | sse/source.go:166-193 | The kept delay is the one asked for if and only if it is at most 9223372036854 ms. |
| `EventStream.RetryCanTurnNegative` | sse/source.go:180-193 | One millisecond more and the kept delay is negative. |
| `EventStream.StripBOMFromFirstLine` | sse/source.go:115-124 | Stripping the mark from the first line is stripping it from the stream, but for a stream that is nothing else. |
| `EventStream.StripBOMOnce` | sse/source.go:115-124 | A leading mark goes, once; without one nothing does. |
| `EventStream.CutStreamReadsPrefix` | sse/source.go:79-113 | A stream cut at any octet reads as the first events of the whole stream: none invented, none truncated. |
| `EventStream.BareFieldsRead` | sse/codec.go:166-181 | A stream whose fields have no space after the colon gives the event with the values as they stand. |
| `SseSource.Source.StripMark` | sse/source.go:115-124 | The mark is stripped from the first line only. |
| `SseSource.Source.ConsumeField` | sse/source.go:126-147 | Which buffer each field name changes, and that all others stay. |
| `SseSource.Source.ConsumeID` | sse/source.go:149-164 | A value with NUL leaves the previous id intact. |
| `SseSource.Source.ConsumeRetry` | sse/source.go:166-193 | Only digits that fit an int64 are accepted; the product wraps. |
| `SseSource.Source.ConsumeLine` | sse/source.go:98-103 | After each line the buffers are what the standard reads in the unfinished group. |
| `SseSource.Source.Dispatch` | sse/source.go:195-220 | A blank line yields the group's event exactly when it has a data field; type and data reset, the id stays. |
| `SseSource.Source.DropIncomplete` | sse/source.go:222-236 | A group without its blank line is forgotten. |
| `SseSource.Source.ReadNext` | sse/source.go:79-113 | Each call returns the next event of the declarative reading, or the end exactly when there is none; the last-event-id is then the event's. |
| `SseSource.ReadAll` | sse/README.md:140-152 | Reading to the end gives exactly the standard's events and delay, however the octets were cut into reads. |
| `PrintParse.PrintParseRoundTrip` | sse/codec.go:59-120 | Any sequence of events, comments and retries reads back as exactly its events, with sanitised names, sticky ids and normalised data. |
| `PrintParse.RetryRoundTrip` | sse/codec.go:107-120 | The delay kept is the last one framed, clamped at zero and cut to milliseconds. |
| `PrintParse.ResumePointLostIff` | sse/codec.go:73-78 | A frame erases the receiver's id if and only if its id is non-empty and all CR, LF and NUL. |
| `PrintParse.WriterSink.Emit` | sse/sink.go:26-36 | Emitting appends the frame, or what the writer took of it; it fails exactly when the writer does. |
| `EventStore.StreamBuffer.Append` | store.go:199-218 | Ring, head, count and index stay exact for the history with the event added. |
| `EventStore.StreamBuffer.Evict` | store.go:220-234 | The id leaves the index only if the index still points at the outgoing event. |
| `EventStore.StreamBuffer.Since` | store.go:236-257 | The answer is the list suffix after the last retained event with that id, or unknown. |
| `EventStore.IndexStaysExact` | store.go:199-234 | After any append the index maps exactly the retained ids to their latest occurrence. |
| `EventStore.IndexSizeAtMostCount` | store.go:91-100 | The index has no more entries than the ring. |
| `EventStore.NamesLastPosition` | store.go:62-75 | An id resumes at its last occurrence. |
| `EventStore.KnownIff` | store.go:236-257 | An id is known if and only if it is not empty and one of the last `capacity` events bears it; the answer is then what came after the last of those. |
| `EventStore.StreamsAreIndependent` | store.go:117-168 | Over any run of calls, a stream's answers depend on the calls on that stream alone. |
| `EventStore.InMemoryEventStore.New` | store.go:102-115 | A store exists exactly for a positive capacity. |
| `EventStore.InMemoryEventStore.Append` | store.go:117-139 | One history grows by the event, all others stay. |
| `EventStore.InMemoryEventStore.Since` | store.go:141-158 | Answers from the stream's history; an unknown stream knows no id. |
| `EventStore.InMemoryEventStore.Clear` | store.go:160-168 | The stream's history is empty after it, and every other history as before. |
| `EventStore.ClearedKnowsNothing` | store.go:141-168 | After a clear no id of the stream is known; the other streams answer as before. |
| `Resume.EmitToBoth` | multisink.go:44-58 | One emission reaches the store whatever the wire does, and fails exactly when the wire does. |
| `Resume.GapFreeResume` | store.go:142-158 | Wherever the connection was cut, the id of the last decoded event makes the store answer with everything after the last decoded id-bearing event, or with unknown when that was evicted. |
| `Resume.DecodedIdIsHeld` | sse/source.go:64-71 | After any decoded events the client holds the id of the last one that carried an id. |
| `Resume.HeldIdResumes` | store.go:236-257 | For that id the store replays everything after its event, or says unknown when it was evicted. |
| `Resume.ReplayIsGapFree` | store.go:62-75 | The replay ends with every event not decoded; only events without id can come twice. |
| `Resume.ResumeSession` | README.md:240-268 | The same, through the objects: emit until a write fails, read what arrived, ask the store. |
| `Reconnects.ReplayBase` | store.go:236-257 | After any number of connections the store replays from the last id-bearing event decoded on any of them, or says unknown. |
| `Reconnects.ReconnectKeepsGapFree` | sse/source.go:56-71 | One more connection, cut anywhere, begins at or before the first event missing, repeats only events without id, and leaves no gap. |
| `Reconnects.SeveralConnections` | README.md:240-268 | Over any list of cut connections the events decoded are exactly the first events of the stream, while the store knows the ids. |
| `Reconnects.UncutConnectionCompletes` | README.md:240-268 | If the store knows the id, a connection that is not cut brings the rest of the stream. |
| `Reconnects.OwnIdSufficesIff` | sse/source.go:64-71 | The id of the newest source alone gets the same replay as the carried id if and only if an event decoded on that connection bore an id, or the carried id is evicted. |
| `Reconnects.Reconnect` | README.md:240-268 | One reconnect through store and source. |
| `Protocol.Sink.Emit` | memory.go:24-34 | A refused emission delivers nothing. |
| `Protocol.Publisher.SendStreamPreamble` | publisher.go:334-343 | Delivers the events in order up to the first refusal. |
| `Protocol.Publisher.SendStreamEpilogue` | publisher.go:345-358 | Likewise. |
| `Protocol.Publisher.SendToolUseBlock` | publisher.go:360-374 | Likewise: start, input, stop. |
| `Protocol.Publisher.SendToolResultBlock` | publisher.go:376-391 | Likewise: start, result, stop. |
| `Streamers.TextStreamer.Write` | streamer.go:88-118 | Opens lazily; whatever fails, the flag and index agree with what was delivered. |
| `Streamers.TextStreamer.Close` | streamer.go:120-139 | The index moves on exactly when a stop was delivered. |
| `Streamers.LineStreamer.EmitLine` | streamer.go:243-282 | The line's output, its events and the flag, also under failure. |
| `Streamers.LineStreamer.Write` | streamer.go:187-214 | Emits the complete lines of buffer and chunk, keeps the tail. |
| `Streamers.LineStreamer.Close` | streamer.go:216-241 | Flushes the tail and stops the block. |
| `Streamers.LinesResume` | streamer.go:187-214 | Reading on from a held tail finds the same lines as reading the whole text. |
| `Streamers.IdentityGivesInputBack` | streamer.go:158-170 | With no transform the text is the input. |
| `Streamers.LineTextByLine` | streamer.go:243-282 | Line by line, the text is the transform of each line, the newline put back, and the transform of an unterminated last line. |
| `Streamers.StreamLines` | streamer.go:145-241 | For every partition into chunks: the text is the whole input rendered line by line by the transform given, or the input itself without one; the deltas add up to it, the index advances by one exactly when there was input. |
| `Adapter.RoundStream.EnsureText` | elelemstream/roundstream.go:30-47 | Thinking is closed before text exists. |
| `Adapter.RoundStream.OnDelta` | elelemstream/roundstream.go:49-75 | Routes reasoning and text; a failure leaves a prefix delivered. |
| `Adapter.RoundStream.Complete` | elelemstream/roundstream.go:77-89 | Closes what is open. |
| `Adapter.RoundStream.NextIndex` | elelemstream/roundstream.go:91-99 | The next free index, whether or not text opened. |
| `Adapter.Adapter.OnRoundStart` | elelemstream/adapter.go:76-86 | A fresh round at the current index; nothing emitted. |
| `Adapter.Adapter.OnDelta` | elelemstream/adapter.go:88-95 | Refused before a round, else the round's answer. |
| `Adapter.Adapter.OnAssistantMessage` | elelemstream/adapter.go:97-119 | Closes the content and fixes the tool base; on failure no index or count moves. |
| `Adapter.Adapter.OnRoundEnd` | elelemstream/adapter.go:121-129 | Counts the round, nothing else. |
| `Adapter.Adapter.OnToolCallStart` | elelemstream/adapter.go:131-147 | Start, arguments and stop of one tool_use block at tool base plus call index; the state stays, also on failure. |
| `Adapter.Adapter.OnToolResult` | elelemstream/adapter.go:149-177 | Refused without a result; else start with its error flag, content and stop of one block after all tool_use slots, and the index moves on at the highest call index; on failure the state stays. |
| `Adapter.Adapter.ReturnAll` | vendor/github.com/psyb0t/elelem/engine.go:1005-1017 | Results reported one after the other, failures or not: each puts a first part of its own block on the wire, and the index moves on exactly when the highest-index one landed. |
| `Adapter.Adapter.Drive` | elelemstream/adapter.go:66-74 | A run stopped at its first error delivered a prefix of the failure-free run. |
| `AdapterRuns.ContentEmission` | elelemstream/roundstream.go:52-99 | A round's deltas and finish emit one thinking block, then one text block, each only if it has content. |
| `AdapterRuns.MessageEmission` | elelemstream/adapter.go:79-119 | Up to the assistant message exactly the content blocks, all complete. |
| `AdapterRuns.ToolEmission` | elelemstream/adapter.go:131-177 | The tool part emits its blocks and advances exactly on the highest-index result. |
| `AdapterRuns.TurnEmission` | elelemstream/adapter.go:79-177 | A round emits exactly its blocks and leaves the next free index. |
| `AdapterRuns.RunEmission` | elelemstream/adapter.go:79-177 | A request emits exactly the blocks of its rounds. |
| `AdapterSafety.IndexBijection` | elelemstream/adapter.go:79-177 | No two blocks share an index, and the indices used are exactly those below the final one, in whatever order calls start and return. |
| `AdapterSafety.IndexMovesIff` | elelemstream/adapter.go:149-177 | At every point of a round, the adapter's block index has passed the tool blocks if and only if the highest-index result is in. |
| `AdapterSafety.AdvancesEarlyIff` | elelemstream/adapter.go:149-177 | The index has moved on with results outstanding, at some point of a round, if and only if a result comes in after the highest-index one. |
| `AdapterSafety.SecondResultFirst` | elelemstream/adapter.go:149-177 | Such a round: two calls, the second result first. |
| `AdapterSafety.RoundAdvancesIff` | elelemstream/adapter.go:149-177 | The adapter leaves a round past the tool blocks if and only if the highest-index result came in, else at the tool base. |
| `AdapterSafety.NextRoundCollidesIff` | elelemstream/adapter.go:79-177 | A content block of the next round starts at an index already used if and only if the highest-index result is missing and the call of that slot was started. |
| `AdapterSafety.StartedCallCollides` | elelemstream/adapter.go:79-177 | Such a collision. |
| `AdapterSafety.BlockProtocolSafety` | elelemstream/roundstream.go:32-90 | At every point of the trace deltas and stops hit the one open block and no index reopens; no empty text or thinking block; nothing open after the assistant message. |
| `AdapterSafety.ThinkingStopsBeforeTextStarts` | elelemstream/roundstream.go:14-36 | Thinking stops before text starts. |
| `Reassembler.Reassembler.CloseTextBlock` | reassemble.go:408-435 | A non-empty segment moves to text and timeline. |
| `Reassembler.Reassembler.CloseThinkingBlock` | reassemble.go:413-454 | Likewise for thinking. |
| `Reassembler.Reassembler.FinalizeTool` | reassemble.go:456-467 | The call with its joined input, `{}` when empty. |
| `Reassembler.Reassembler.FinalizeResult` | reassemble.go:469-504 | The first call with the id gets the execution; none, no trace. |
| `Reassembler.Reassembler.OnContentBlockStart` | reassemble.go:147-240 | Routing by block type, and which segments close first. |
| `Reassembler.Reassembler.OnContentBlockDelta` | reassemble.go:242-335 | Routing by delta type and index. |
| `Reassembler.Reassembler.OnContentBlockStop` | reassemble.go:337-383 | Tool, result, text, thinking, in that order. |
| `Reassembler.Reassembler.FlushAll` | reassemble.go:385-400 | Finishes all tools, then all results, each in some order of its map. |
| `Reassembler.Reassembler.Finalize` | reassemble.go:402-406 | The result after the flush. |
| `Reassembler.Reassemble` | reassemble.go:80-108 | The outcome is the run over the events before message_stop, flushed in some order. |
| `StreamReading.RunReads` | reassemble.go:59-454 | At every point of every stream, what is in flight, finished, pending and in the timeline is what the events alone say: each call with all its input deltas in order, each result with all its output. |
| `StreamReading.ReassemblesIff` | reassemble.go:80-504 | What the reassembler may return is exactly what is read off the events, every field of the turn, for some order of what was left in flight. |
| `ReassemblyLaws.RunRoutes` | reassemble.go:59-78 | What is in flight or open is what the events say, index by index. |
| `ReassemblyLaws.Conservation` | reassemble.go:314-454 | Text, thinking and executions are exactly what the handled events carry and exactly what the timeline holds, with no empty segment; thinking is taken by the index written down for the open block. |
| `ReassemblyLaws.ThinkingIsOwnIff` | reassemble.go:320-335 | For every stream, the thinking is the deltas that name an open thinking block if and only if no text comes in a thinking delta at index -1 while none is open. |
| `ReassemblyLaws.HeaderIsKept` | reassemble.go:80-108 | The stream id is the last announced; a reader's error is kept if and only if no message_stop came first. |
| `ReassemblyLaws.TruncationGivesPrefix` | reassemble.go:80-108 | Cutting a stream shortens text, thinking and tool names to prefixes. |
| `ReassemblyLaws.ResultWithoutCallIsDropped` | reassemble.go:496-504 | A result leaves no trace if and only if no finished call has its id. |
| `ReassemblyLaws.SoundAsToolsGrow` | reassemble.go:475-494 | Executions stay backed as more tools finish. |
| `ReassemblyLaws.ExecutionsAreSound` | reassemble.go:469-504 | Every execution shows the name and parameters of the first finished call with its id. |
| `FlushOrder.FlushOrderIrrelevant` | reassemble.go:385-400 | As multisets, flush order does not change the tools, nor, unless two different calls in flight contest a result in flight, the executions. |
| `FlushOrder.ToolNamesArePermutationIff` | reassemble.go:170-182 | The tools are the announced ones if and only if no index was reused in flight. |
| `FlushOrder.DistinctStartsGiveDistinctIds` | reassemble.go:456-467 | Distinct ids on the wire give distinct ids in the result. |
| `FlushOrder.ReassemblyIsUniqueUpToOrder` | reassemble.go:385-406 | With distinct ids all possible results of a stream agree as multisets. |
| `FlushOrder.OrderDecidesIff` | reassemble.go:385-400 | A stream has results whose executions differ as multisets if and only if it ends with a result in flight whose id no finished call has and two different calls in flight share. |
| `FlushOrder.TurnIsUniqueIff` | reassemble.go:385-406 | A stream has two different results, in any field, if and only if two different tools or two different executions are left to the final flush. |
| `FlushOrder.SharedIdLetsOrderDecide` | reassemble.go:385-400 | Such a stream. |
| `Interleaving.InterleavedBlocks` | reassemble.go:147-383 | In any interleaving each tool has exactly its own parts joined in order, and each result its own call and all its own parts. |
| `Interleaving.InterleavingInvariance` | reassemble.go:68-72 | As multisets, tools and executions do not depend on the interleaving. |
| `RoundTrip.RunBlock` | reassemble.go:147-383 | A complete block has its own effect and leaves nothing open or in flight. |
| `RoundTrip.ReasoningKeptIff` | elelemstream/roundstream.go:52-75 | The thinking rebuilt from a request is all reasoning of all its rounds if and only if in no round reasoning follows text. |
| `RoundTrip.EmitReassembleRoundTrip` | elelemstream/adapter.go:19-177 | Rebuilding what a request emitted gives exactly the conversation, every field. |
| `CutRuns.CutRunsLose` | reassemble.go:385-406 | From a first part of a request, ended cleanly or by an error: the first tools of the turn unless cut between a tool_use start and an input other than the default, the first executions and timeline items unless cut between a tool_result start and its non-empty content; in those cases the last one alone is wrong, and how. |
| `EndToEnd.StreamAndRebuild` | README.md:120-141 | Through a sink that may fail: everything is delivered if and only if nothing failed, and then the turn is the intended one; else text, thinking and tool names are first parts, and tools, executions and timeline up to the exact loss at the cut. |
| `EndToEnd.WireKeepsEvents` | sse/sink.go:26-36 | Events come off any first part of the SSE wire as a first part of those sent. |
| `EndToEnd.RebuildFromConnection` | README.md:120-141 | The same for a client of a connection cut at any octet, in any chunks, seen as a clean end or as a reader's error; the error is the turn's unless the turn was complete. |
| `SourceQueue.QueueSafety` | nats/source.go:30-79 | In every interleaving: FIFO with nothing lost or twice, each goroutine's order kept, bounded buffer, no send on a closed channel, end only when closed and drained. |
| `SourceQueue.NothingLostWhileOpen` | nats/source.go:30-47 | While open, all delivered events are accepted but a pending one. |
| `SourceQueue.ClosedAcceptsNothing` | nats/source.go:49-62 | After the close the accepted events are fixed. |
| `SourceQueue.LockIsReleased` | nats/source.go:30-62 | The lock holder gets out with at most one receive. |
| `SourceQueue.HolderStaysReady` | nats/source.go:30-62 | In every schedule nobody disables the holder's next step, and one receive enables it until it is taken. |
| `SourceQueue.HolderUnlocks` | nats/source.go:30-62 | In every schedule the lock is unlocked once the holder has taken three steps of its own. |
| `SourceQueue.BlockedHolderMeansFullBuffer` | nats/source.go:46-46 | A holder that cannot move waits for room in a full buffer, and a receive lets it go on. |
| `SourceQueue.StuckWithoutConsumer` | ws/source.go:30-62 | Without a receive a jam stays: full queue, lock held, and everyone at the lock goes on waiting. |
| `SourceQueue.CloseGetsThroughIff` | ws/source.go:30-62 | A Close at the lock can return without a receive if and only if there is no jam: a full queue, open, with a Deliver holding the lock. |
| `SourceQueue.JamIsReachable` | nats/source.go:13-47 | 64 deliveries, a 65th under way and a Close: a jam reached from the start. |
| `SourceQueue.DrainReachesEnd` | ws/source.go:64-79 | After a close the buffered events come out in order, then the end. |

## Left out

- JSON: a payload is taken as already decoded; what does not decode is one kind of event. Over the wire any lossless encoding without a raw CR is admitted (`EndToEnd.FaithfulCodec`; `SampleEncoding` holds one).
- Logging, contexts and error wrapping; an operation here only says whether it succeeded.
- `HTTPSink` flushing, the NATS and WebSocket sinks, `Bind`, and elelem itself. The order of callbacks in a round is taken from the adapter's documentation.
- The 1 MiB line limit and the reader's limit on empty reads: the scanner's buffer is unbounded.
- The single-event senders of the publisher: each publishes one event; the composites and streamers publish the same events directly.
- Start indices below zero: -1 is the reader's sentinel, so streamers and adapter start at natural indices. The reassembler takes any index.
- The store's sequence number is unbounded, and its mutex is not modelled: each call is one step.
- Other sinks behind a `MultiSink`, and their errors: only the pair of wire and store.
- `MapStopReason`, `InMemorySink.Events` and `Rounds`, which only read or translate.
- `IsError` of a tool result is emitted but has no place in a rebuilt execution.
- SseSource.Source.ReadNext: claims the last-event-id at returned events only, because the code sets it at the id line, before the event is complete.
- Streamers.LineStreamer.Write: after a refused emission it claims the wire and the block state, not the text, because the rest of the chunk is gone.
- EndToEnd.StreamAndRebuild: the run stops at its first refused emission. The engine still reports the other results of a round after one is refused; `Adapter.Adapter.ReturnAll` gives that trace, but it is not followed into the reassembler.
