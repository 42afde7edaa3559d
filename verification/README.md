# Aperture router: a verified model

The router sits between clients that speak Anthropic's or OpenAI's API and upstream
providers that mostly speak OpenAI's. This project models the parts of it whose behaviour
depends on a whole run rather than on one call, and proves what holds on every run.

- **Upstream stream.** Network chunks are decoded incrementally (`Utf8`, `Utf8Stream`; RFC
  3629, sections 3 and 4), cut into lines (`Text`), and converted to Anthropic events by a
  state machine (`Converter`). `StreamConverter` is the mutable object of the source, every
  method of which is proved to be the transition of the same kind in `Converter`.
  `EventGrammar` is a monitor of the event stream that knows nothing of the converter: it
  demands numbered blocks, deltas and stops of open blocks, framing once, and no block
  beside an open text or thinking block. It lets tool blocks stay open while later blocks
  start, where Anthropic itself sends one block after the other. `Payloads`, `ToolSlots`,
  `SyntheticIds`, `SearchOrders` and `Endings` say what a client receives, `Limits` says
  exactly when the converter falls short, and `Pipeline` composes decoder and converter.
  `Wire` spells the text of a stream line by line, `Records` prints what a record says as
  JSON in every way a provider may write it, and `EndToEnd` goes from there to the client.
- **Translation.** `Request` turns an Anthropic conversation into OpenAI messages;
  `Readings` is a reader of OpenAI messages that knows nothing of the translation and finds
  in them what the conversation says; `Adjacency`, `Conversation`, `Thinking`, `Shorthand`
  and `RoundTrip` say what else the translation keeps. `Response` is the non-streaming
  answer, which `Replies` reads as a client does; `SpokenProse` and `StreamAgreement` compare
  it with the stream.
- **Line buffer and depth check** of the pass-through route: `SseLineBuffer`,
  `BufferedLines`, `DepthScan`.
- **Provider registry**: `Registry` (the object and its specification) and `RegistryRuns`
  (safety, convergence and idempotence over every sequence of refreshes).
- **Per-address limiters**: `SlidingWindow`, `RateLimiter`, `Auth` and `BanRuns`, where the
  middleware's steps of different requests interleave freely.
- **Arithmetic with bounds**: `KeyGen` (RFC 9562, section 5.4, fixes the UUID bits used) and
  `Retry`.

`Machine` has the notions the rest is stated with: `Run` (a state machine's final state and
its concatenated outputs), `Fold` (the final state alone) and `FlatMap` (`filter_map`,
`flat_map` and `extend`). A hash map's iteration order is an argument (`SearchOrder`,
`Order`), so theorems hold for every order. Reading and printing JSON text are arguments
(`read`, `show`); wire text is a sequence of bytes, a JSON string a sequence of characters.
Clocks are instants passed in, random UUIDs are byte sequences passed in.

The following are places where documentation or comments say something else than the code
does; the model follows the code.

- `docs/explanation/format-conversion.md:50-51` lets the user message precede the tool
  messages; the code emits the tool messages first, which is what adjacency needs.
- `docs/explanation/format-conversion.md:180-187` has a line overflow close the stream. Later
  chunks are still converted, and before the first record only the error is emitted
  (`Endings.ReportsItsEnding`, `Limits.SpeaksAfterStop`).
- `docs/explanation/multi-provider-routing.md:105-114` merges discovered models into existing
  lists, gives every added provider the direct style and overwrites routes. The code replaces
  the lists of auto-added providers, leaves configured ones alone, infers the style from the
  majority of model names, and never overwrites a route (`RegistryRuns.RouteIs`).
- The comment on `SseLineBuffer::push` says that an unterminated line cannot grow the buffer
  without bound. It can (`SseLineBuffer.UnterminatedLineGrows`, `SseLineBuffer.CapHolds`).
- The comment on `generate_api_key` promises 20 different characters. Only the length is
  guaranteed (`KeyGen.KeyLength`, `KeyGen.Variety`, `KeyGen.KeysCanBeMonotonous`).

## Model

The smaller methods of the classes, each proved to be the transition it is named after, and
the constructors have no row.

| member | source | states |
|---|---|---|
| Pipeline.ChunkingIsInvisible | src/types/conversion.rs:609-658 | of two cuts of one valid UTF-8 body within the size limit, the first within the line cap, the converter emits the same events and ends in the same state, line buffer included, if and only if the second is within the line cap as well |
| Pipeline.ConvertTwice | src/types/conversion.rs:609-658 | converting `x` and then `y` is converting `x + y`, from any state, while both fit the line buffer |
| Pipeline.CutsAreInvisible | src/types/conversion.rs:609-658 | the same for text chunks: the cut between chunks that fit never shows |
| Pipeline.CutsShow | src/types/conversion.rs:609-658 | against a cut that fits, another cut of the same text yields the same run if and only if it fits, too |
| Pipeline.ErrsWhenUnfit | src/types/conversion.rs:613-632 | the overflow error is among the events of a run if and only if some chunk with the line before it exceeds 1 MiB |
| Pipeline.FedAsOne | src/types/conversion.rs:634-655 | chunks that fit feed the converter the records of the whole text, and keep its unfinished last line |
| Pipeline.ConvertRuns | src/types/conversion.rs:609-658 | a run over text chunks is a run of the state machine over the records they contain |
| Pipeline.OverflowsWhenUnfit | src/types/conversion.rs:613-632 | the overflow branch is taken on a run if and only if some chunk plus the buffered line exceeds 1 MiB |
| Pipeline.CutsShowBeyondTheCap | src/types/conversion.rs:613-632 | complete lines count against the cap: two chunks that fit one by one and their concatenation that does not run differently |
| Pipeline.PipelineObeysTheProtocol | src/routes/messages.rs:417-448 | for any text in any pieces, overflow included, the monitor of `EventGrammar` accepts the emitted events |
| Pipeline.OverflowStartsAfresh | src/types/conversion.rs:613-632 | what comes after an overflow is read as if nothing had come before it |
| Wire.ConvertsTheLines | src/types/conversion.rs:609-658 | the wire text of a stream, given as record lines, end markers, event names and other lines with any carriage returns, in any pieces that fit, runs what the lines mean in order and keeps the unfinished line |
| Wire.EveryTextIsLines | src/types/conversion.rs:634-655 | every text whatever is such lines and an unfinished one |
| Wire.TrimsToMarker | src/types/conversion.rs:645 | a payload is the end marker if and only if it is `[DONE]` between any Unicode white space |
| Wire.MarkerCloses | src/types/conversion.rs:645-648 | once a record has been read, the marker ends the message, wherever it stands and however the text is cut; with "end_turn" unless a record before it gave another reason |
| Records.ReadsBack | src/types/conversion.rs:696-924 | every chunk comes back from every JSON record that says it, whatever other fields and choices the record has and however it leaves out, nulls or mistypes what the chunk has not |
| Records.ReadsWhatIsSaid | src/types/conversion.rs:696-924 | a JSON value is read as a chunk if and only if it is one of the records that say that chunk |
| EndToEnd.WireTextAgrees | src/types/conversion.rs:609-658 | the wire text of JSON records in any style and any cut reaches the client as one message would have, under the conditions of `StreamAgreement.StreamingAgrees` |
| Utf8Stream.ByteStream.Next | src/proxy/client.rs:31-96 | one chunk changes the size counter and the retained bytes, and yields text or an error, as specified; an upstream or size error touches nothing |
| Utf8Stream.EmitsLongestPrefix | src/proxy/client.rs:66-94 | while what has arrived can still become valid text, the text emitted is its longest valid prefix, at most 3 bytes are retained and nothing was decoded lossily |
| Utf8Stream.ReassemblesText | src/proxy/client.rs:24-99 | every chunking of a valid body within the limit comes out as exactly that body, without errors and with nothing retained |
| Utf8Stream.OnlyEmitsText | src/proxy/client.rs:68-94 | whatever bytes come in, everything handed on is valid UTF-8 |
| Utf8Stream.LimitIsEnforced | src/proxy/client.rs:36-56 | on every run a chunk is answered with the size error if and only if it and the chunks not refused before it exceed the limit, a broken one with the upstream's error, and what is accepted never exceeds the limit |
| Utf8Stream.FailuresLeaveNoTrace | src/proxy/client.rs:33-56 | on every run, leaving out the chunks that failed changes nothing but their errors |
| Utf8Stream.EveryByteIsAccountedFor | src/proxy/client.rs:66-94 | on every run the accepted bytes are, in order and once each, those the answers were decoded from and those retained |
| Utf8Stream.HeldBack | src/proxy/client.rs:76-84 | nothing is emitted exactly while the retained bytes are a character cut short, or at most four more than the error they start with |
| Utf8.EncodingsAreCharacters | src/proxy/client.rs:68 | every Unicode scalar value's encoding is read as one character |
| Utf8.CharactersAreEncodings | src/proxy/client.rs:68 | every character the decoder accepts is the encoding of a scalar value: no overlong form, no surrogate |
| Utf8.ValidMeansEncoded | src/proxy/client.rs:68 | bytes are valid if and only if they are the encoding of some sequence of scalar values |
| Utf8.LongestPrefix | src/proxy/client.rs:74 | no valid prefix is longer than `valid_up_to` |
| Utf8.ErrorAfterPrefix | src/proxy/client.rs:74 | what follows the valid prefix does not start with a character |
| Utf8.ViableMeansExtensible | src/proxy/client.rs:74-77 | the retained bytes are a mere unexpected end if and only if some continuation makes the whole valid |
| Utf8.LossyIsValid | src/proxy/client.rs:77-82 | the lossy fallback yields valid text |
| Utf8.LossyKeepsText | src/proxy/client.rs:79 | the fallback keeps the valid text around errors and puts one U+FFFD for each |
| Utf8.ErrorIsMaximal | src/proxy/client.rs:77 | an error spans exactly the octets that could still have begun a character, and at least one |
| StreamConverter.OpenAIToAnthropicStreamConverter.ConvertChunk | src/types/conversion.rs:609-658 | a chunk runs the records of its complete lines through the state machine and buffers the rest, or takes the overflow branch |
| StreamConverter.OpenAIToAnthropicStreamConverter.ProcessLine | src/types/conversion.rs:635-654 | what one line does: nothing, a record, or the end marker |
| StreamConverter.OpenAIToAnthropicStreamConverter.ProcessOpenAiChunk | src/types/conversion.rs:660-924 | a record runs the operations read from it: begin, reasoning, content, tool fragments, finish |
| StreamConverter.OpenAIToAnthropicStreamConverter.ProcessToolCalls | src/types/conversion.rs:782-911 | a present tool list, even an empty one, closes open prose and then handles each fragment in turn |
| StreamConverter.OpenAIToAnthropicStreamConverter.ProcessToolCall | src/types/conversion.rs:806-910 | a fragment is attributed to a slot, opens a block if it is a new call, and delivers its arguments to the slot's block |
| StreamConverter.OpenAIToAnthropicStreamConverter.CloseOpenBlocks | src/types/conversion.rs:926-966 | open prose is stopped, then one stop per recorded slot in order of first use |
| StreamConverter.OpenAIToAnthropicStreamConverter.CloseWithStopReason | src/types/conversion.rs:968-997 | the first ending stops blocks and emits the mapped reason and message_stop; later ones do nothing |
| EventGrammar.RunsObeyTheProtocol | src/types/conversion.rs:660-1006 | every run, for every input and search order, is accepted by the monitor: blocks are numbered, none starts while a text or thinking block is open, each delta and stop names an open block of its kind, framing occurs once; at the end the blocks without a stop are as many as the slots overwritten |
| EventGrammar.FramingOnce | src/types/conversion.rs:662-676 | an accepted sequence has at most one message_start and one message_stop |
| EventGrammar.StartsNumbered | src/types/conversion.rs:864-865 | up to message_stop the k-th block start carries index k |
| EventGrammar.StopsOnce | src/types/conversion.rs:926-966 | up to message_stop no block stops twice |
| Limits.BlocksLeftOpen | src/types/conversion.rs:844-887 | a finished message leaves a block without its stop if and only if, before, a fragment took an occupied slot with another id |
| Limits.OrderlyStreamsCloseAll | src/types/conversion.rs:820-887 | no block is left open when no fragment has an index, or all have one and no index changes its id |
| Limits.ReuseLosesStop | src/types/conversion.rs:844-887 | two calls at index 0: the events, in which the first block is never stopped |
| Limits.SpeaksAfterStop | src/types/conversion.rs:660-924 | a run after message_stop is silent if and only if none of its operations, in the state it finds, has anything to say: only a second ending is suppressed |
| Endings.ReportsItsEnding | src/types/conversion.rs:914-1006 | a run reports exactly one stop reason if it meets a finish reason, or [DONE] or an overflow after a first record, namely that of the earliest; otherwise none: the end of the input closes nothing |
| Endings.StopReasonIsMapped | src/types/conversion.rs:975-980 | length ends as max_tokens, tool_calls as tool_use, everything else as end_turn |
| Payloads.PayloadsAreConserved | src/types/conversion.rs:702-911 | from any state, the deltas emitted are the non-empty reasoning, content and argument fragments, each once, in order |
| ToolSlots.FragmentsReachTheirCall | src/types/conversion.rs:806-909 | the calls a client reassembles are those of an attribution of fragments to calls that knows no slots, for streams that send an index always, never or sometimes; slots are 0, 1, .., and the next slot number counts the calls that appeared without an index |
| ToolSlots.UnindexedIsRegular | src/types/conversion.rs:820-836 | every stream without indices is one of these, its ids are distinct and every call's number is its position |
| ToolSlots.NumbersCollide | src/types/conversion.rs:826-832 | a new id without an index takes no other call's slot if and only if all calls so far have appeared without one |
| SyntheticIds.SyntheticIdsDiffer | src/types/conversion.rs:851-856 | on every run no two calls that come without an id are given the same one |
| SyntheticIds.DecimalIsNumeral | src/types/conversion.rs:853 | the number in a made-up id is its decimal numeral |
| SearchOrders.SearchOrderIsIrrelevant | src/types/conversion.rs:823-827 | two runs that search the hash map in different orders are equal, events and state, if at each search at most one slot holds the id |
| SearchOrders.SearchOrderShows | src/types/conversion.rs:820-836 | a fragment with an id and no index has the same outcome under all search orders if and only if at most one occupied slot holds its id |
| SearchOrders.RegularIsUnambiguous | src/types/conversion.rs:820-836 | at most one slot holds an id searched for in all streams whose fragments are attributed as above |
| StreamAgreement.StreamingAgrees | src/types/conversion.rs:101-163 | for streams with reasoning, content and tools in this order, whatever follows the first finish reason: the reassembled blocks are those of the non-streaming translation if and only if the message is not empty, the first finish reason has no words of one kind on both sides, the first call has an id, and no call gets its first name after its first fragment; the stop reason always agrees |
| StreamAgreement.LateNameIsLost | src/types/conversion.rs:851-887 | a call named in its second fragment reaches the client without a name, which one message would have given it |
| SpokenProse.StreamSpeaks | src/types/conversion.rs:702-911 | in every prefix of such a stream the client has the reasoning, the content and the calls heard so far, in this order |
| SpokenProse.StreamLayers | src/types/conversion.rs:702-997 | the client is left with the prose up to the first finish reason, then the prose after it, then tool blocks only |
| Response.OpenAiResponseToAnthropic | src/types/conversion.rs:101-180 | the Anthropic message: content never empty, model, mapped stop reason, stop sequence and usage with their defaults |
| Response.PushBlocks | src/types/conversion.rs:109-147 | the blocks pushed: non-empty reasoning, non-empty text, one tool use per call with parsed or empty input |
| Replies.ReplyIsConveyed | src/types/conversion.rs:101-180 | what a client reads in the answer is what the upstream replied, in whatever style it wrote it: reasoning, text and calls in this order, id, model, mapped stop reason, stop sequence and token counts with their defaults |
| Replies.NothingReplied | src/types/conversion.rs:148-163 | a reply without a choice becomes one empty text and end_turn |
| Request.AnthropicRequestMessages | src/types/conversion.rs:21-49 | the messages: a system message if its text is not empty, then every turn expanded in order |
| Request.ConvertAnthropicMessageExpanded | src/types/conversion.rs:245-399 | what one turn becomes |
| Request.ConvertAssistantBlocks | src/types/conversion.rs:248-341 | an assistant turn becomes one message with all its tool calls, or its blocks without thinking, or nothing |
| Request.SplitResults | src/types/conversion.rs:347-378 | tool results become tool messages, everything else is kept for the follow-up |
| Readings.ReadsWhatIsSaid | src/types/conversion.rs:21-504 | for every conversation and every role, a reader of the OpenAI messages finds, message for message, who speaks, the words and pictures, the calls and the answers of the conversation: results first and then the rest, failed ones marked, thoughts left out, other blocks printed |
| Readings.NoTextIsLost | src/types/conversion.rs:245-504 | the text of every text block of a turn is in the words the upstream reads, whoever speaks and whatever stands beside it |
| Conversation.AnswersFollowTheirCalls | src/types/conversion.rs:34-41 | if each calling turn is followed by a turn answering exactly its ids, every tool_calls message is followed at once by the tool messages for exactly its ids and then by no further one; turns of any role |
| Conversation.PairingIsPreserved | src/types/conversion.rs:245-399 | the OpenAI messages answer their calls in place if and only if the turns do, for every conversation and every role |
| Conversation.OrphanAnswersBreak | src/types/conversion.rs:397-398 | a turn of role "tool" without a tool result, which `src/types/validation.rs:29-37` lets through, is sent as an answer without an id; when all calls have ids, the messages are then never as OpenAI demands |
| Conversation.IdsAreKept | src/types/conversion.rs:245-399 | the ids called and the ids answered, as sequences, are those of the conversation |
| Adjacency.PairedMeansAnswered | src/types/conversion.rs:379-381 | the running account of pending calls accepts a message list if and only if every call is answered in the positions right after it |
| Thinking.ThinkingIsInvisible | src/types/conversion.rs:319-341 | leaving the thinking blocks out changes no message, if and only if the turn is the assistant's, has none, or has another block that is not text |
| Thinking.ThinkingIsNotLeaked | src/types/conversion.rs:401-434 | turns that differ only in what is thought are translated alike |
| Thinking.UserThinksUnseen | src/types/conversion.rs:436-504 | in the remaining case the content is the list of parts of the other blocks |
| Shorthand.TurnShorthand | src/types/conversion.rs:436-488 | a string and a single text block are the same content of a turn, in every role |
| Shorthand.SystemShorthand | src/types/conversion.rs:182-200 | and of the system prompt |
| Shorthand.ResultShorthand | src/types/conversion.rs:202-243 | and of a tool result |
| Shorthand.FailureIsMarked | src/types/conversion.rs:351-371 | a failed tool result differs from a successful one upstream if and only if its content is not a list, or is one text or unknown block: a list of parts carries no mark |
| RoundTrip.ToolCallsRoundTrip | src/types/conversion.rs:248-317 | an assistant turn sent to OpenAI and read back is unchanged if and only if its text, if any, is one non-empty block before its tool uses (or an empty text alone), given that inputs survive printing and reading |
| RoundTrip.ComesBackNormal | src/types/conversion.rs:110-146 | any such turn comes back as its texts joined, then its tool uses with ids, names and inputs |
| SseLineBuffer.LineBuffer.Push | src/routes/streaming.rs:312-340 | the lines emitted and the buffer left, the overflow branch and its terminating self-call included |
| SseLineBuffer.NoLineIsLost | src/routes/streaming.rs:312-351 | on every run, lines emitted plus the non-empty lines of the remainder are the non-empty lines of the input, in order |
| SseLineBuffer.EmitsTheLines | src/routes/streaming.rs:312-340 | written lines come out, empty ones left out and without carriage returns, as soon as they are complete, in any cut that fits, and the unfinished line stays |
| SseLineBuffer.EveryLineOnce | src/routes/streaming.rs:312-351 | and in any cut at all, what has come out and what is left are those lines, once each and in order |
| SseLineBuffer.CutsBetweenCharacters | src/routes/streaming.rs:316-322 | in valid text the overflow cut falls between characters, at most 3 bytes below the cap |
| SseLineBuffer.CapHolds | src/routes/streaming.rs:308-330 | the buffer is within the cap after a chunk if and only if the text fits or has a newline late enough before the cut |
| SseLineBuffer.UnterminatedLineGrows | src/routes/streaming.rs:315-330 | without a newline the whole input stays in the buffer, however large |
| BufferedLines.Adapt | src/routes/streaming.rs:357-390 | the stream of items the adapter yields |
| BufferedLines.AdapterKeepsLines | src/routes/streaming.rs:357-390 | for every chunking, output and input have the same non-empty lines and the same failures, in order |
| BufferedLines.OnlyWholeLines | src/routes/streaming.rs:371-377 | every chunk before the final flush is non-empty and ends with a complete line |
| BufferedLines.PassesLinesAtOnce | src/routes/streaming.rs:369-383 | while the text fits, after any number of items the lines and failures they complete have been handed on, and only the unfinished line is held |
| DepthScan.ParseJsonWithDepthLimit | src/routes/streaming.rs:574-622 | the text is parsed only if the bracket scan reaches its end; else the matching error |
| DepthScan.DepthIsWhatIsScanned | src/routes/streaming.rs:583-618 | for every JSON value printed with any strings, escapes and white space, the scan passes if and only if the nesting is within the limit, and then ends at depth 0 outside strings |
| DepthScan.VerdictIs | src/routes/streaming.rs:583-618 | on any text, JSON or not, the verdict is that of the first bracket outside strings that takes the balance below zero or beyond the limit |
| DepthScan.EveryTextIsPieced | src/routes/streaming.rs:583-618 | every text is characters outside strings, strings, and perhaps a string that never ends |
| Registry.ProviderRegistry.UpdateFromDiscovery | src/provider/registry.rs:76-214 | the five phases of a refresh, for any iteration order of the snapshot and any of the providers |
| Registry.ProviderRegistry.AddDiscovered | src/provider/registry.rs:105-182 | one discovered group: skipped, added, its list replaced, or left alone; and its unrouted models routed |
| Registry.ProviderRegistry.RouteManualEntries | src/provider/registry.rs:187-201 | listed models without a route get one, collected before any is inserted |
| Registry.ProviderRegistry.GetProvidersForModel | src/provider/registry.rs:237-259 | the candidates in order |
| RegistryRuns.NewLoads | src/provider/registry.rs:32-63 | what loading a config with unique names leaves: its enabled providers unchanged, the disabled names, and exactly the listed models routed, each to a provider that lists it |
| RegistryRuns.LastListedWins | src/provider/registry.rs:39-58 | a model listed more than once is routed to the last enabled provider that lists it |
| RegistryRuns.RefreshIs | src/provider/registry.rs:76-214 | the outcome of a refresh independently of iteration order: which providers remain and with what models, which models are routed, which routes are kept |
| RegistryRuns.RefreshKeepsSafe | src/provider/registry.rs:76-214 | a refresh with any snapshot keeps configured providers and their routes, never admits a disabled name, and routes exactly the listed models, each to a present provider |
| RegistryRuns.AlwaysSafe | src/provider/registry.rs:76-214 | the same after any number of refreshes |
| RegistryRuns.RefreshConverges | src/provider/registry.rs:83-214 | providers, model lists and routable models after a refresh depend on config and snapshot only, not on the past or on iteration order |
| RegistryRuns.RefreshIsIdempotent | src/provider/registry.rs:83-214 | repeating a snapshot changes nothing in the whole state |
| RegistryRuns.RoutedFirst | src/provider/registry.rs:237-259 | candidates for a model: the routed provider first, then each other provider that lists it once; none without a route |
| RegistryRuns.RouteIs | src/provider/registry.rs:168-201 | where each route leads: a surviving one where it led, a fresh one to the first group that holds the model, else to a provider that lists it |
| RegistryRuns.RouteIsServed | src/provider/registry.rs:118-214 | any route leads to a provider that lists the model if and only if that target is left with the model by the refresh |
| RegistryRuns.FreshRouteMissesListing | src/provider/registry.rs:105-183 | a snapshot group named like a config provider gets the route of a model outside the curated list when another provider lists it |
| RegistryRuns.RouteOutlivesListing | src/provider/registry.rs:212-214 | a route m to p outlives p's listing m while another provider lists m |
| RegistryRuns.StyleIsRemembered | src/provider/registry.rs:118-161 | a provider added by discovery keeps its first style and address; only its models follow |
| RegistryRuns.FreshProviderIs | src/provider/registry.rs:118-141 | a provider that a snapshot brings has its group's models, the gateway's address, no key, and the standard paths if and only if more than half of its model names have a slash |
| RateLimiter.RequestLimiter.CheckRateLimit | src/middleware/rate_limit.rs:29-54 | the table and the decision after evicting, pruning and recording |
| RateLimiter.AgreesWhenItFits | src/middleware/rate_limit.rs:29-54 | on all runs, eviction, pruning and cleanup included, the table answers as the full log after every step if and only if after every step at most 10,000 addresses have an acceptance in the current window |
| RateLimiter.DecidesAsTheHistory | src/middleware/rate_limit.rs:29-54 | then a request is allowed if and only if the full log has fewer than the maximum accepted in its window |
| RateLimiter.LiveHaveAsked | src/middleware/rate_limit.rs:45-53 | only who has asked within the window has an acceptance in it |
| RateLimiter.RejectionsAreJustified | src/middleware/rate_limit.rs:29-54 | on all runs, a rejected request had the maximum accepted in its window |
| RateLimiter.RateIsBounded | src/server.rs:257-262 | then any k windows let at most k bursts through; less than twice the configured rate when the burst is at least a second's worth |
| RateLimiter.WindowIs | src/server.rs:257-262 | the configured window is as many whole seconds as the burst lasts at the configured rate, and at least one |
| RateLimiter.ManyWindows | src/middleware/rate_limit.rs:45-52 | k windows hold at most k times the maximum, wherever they start |
| RateLimiter.TableStaysSmall | src/middleware/rate_limit.rs:33-43 | with a positive maximum the table never exceeds 10,000 addresses and no stored list is empty, on all runs |
| RateLimiter.ListsStayShort | src/middleware/rate_limit.rs:45-52 | on all runs no stored list is longer than the maximum |
| RateLimiter.CleanupLeavesLive | src/middleware/rate_limit.rs:84-91 | while the live addresses fit, a cleanup leaves exactly those |
| RateLimiter.ZeroMaximumGrows | src/middleware/rate_limit.rs:45-50 | with a maximum of zero it grows with every new address |
| SlidingWindow.MakesRoom | src/middleware/rate_limit.rs:33-43 | eviction makes room in a full table and removes only an address inactive the longest |
| SlidingWindow.RoomIsFree | src/middleware/rate_limit.rs:33-43 | an eviction shows in no later window, unless everybody in a full table still has an instant in the window |
| Auth.AuthState.RecordFailure | src/middleware/auth.rs:106-152 | both tables and the answer after a failure: refused and ban renewed at the maximum, recorded otherwise, ban set when it makes the maximum |
| BanRuns.BansAreWarranted | src/middleware/auth.rs:106-152 | on all interleaved runs, ban checks reading the clock while a failure is under way included, a ban is set only when the maximum of failures since the last success lie in one window, and a failure is refused only then |
| BanRuns.AgreesWhenItFits | src/middleware/auth.rs:106-152 | on all interleaved runs, the attempts answer as the full log of failures after every step if and only if after every step at most 10,000 addresses have a recorded failure in the current window |
| BanRuns.BansAreExact | src/middleware/auth.rs:106-152 | then a failure bans, or is refused, exactly when the failures recorded since the last success say so |
| BanRuns.AttemptsStaySmall | src/middleware/auth.rs:111-128 | with a positive maximum the attempts never exceed 10,000 addresses and hold no empty list, on all interleaved runs |
| BanRuns.AttemptsStayShort | src/middleware/auth.rs:128-142 | on all interleaved runs no list of attempts is longer than the maximum |
| BanRuns.BanLasts | src/middleware/auth.rs:332-370 | a banned address is turned away until the ban expires, whatever other requests, evictions and cleanups happen, unless a request checked before the ban carries a valid key |
| BanRuns.TurnedAwayWhileBanned | src/middleware/auth.rs:98-152 | on all interleaved runs, a request that arrives is turned away if and only if its address has failed with a ban, has not succeeded since, and the ban, counted from the failure's second reading of the clock, has not expired |
| BanRuns.ExpiredIsAdmitted | src/middleware/auth.rs:98-104 | an address whose last ban has expired is let in, cleaned up or not |
| BanRuns.CleanupLeavesUnexpired | src/middleware/auth.rs:191-193 | right after a cleanup the bans on record are exactly the unexpired ones of the log |
| BanRuns.CleanupLeavesLive | src/middleware/auth.rs:179-189 | while the live addresses fit, a cleanup leaves the attempts of exactly those |
| BanRuns.BanEndsEarly | src/middleware/auth.rs:154-159 | a ban is gone before its expiry if and only if some request that was past its ban check when the ban was found turns out to carry a valid key |
| BanRuns.ChecksMayRace | src/middleware/auth.rs:98-104 | a ban check that reads the clock between the two readings of a failure lets its request through, which the ban then finds under way |
| BanRuns.BansAreBounded | src/middleware/auth.rs:135-149 | no ban on record ends later than the ban duration after the last step |
| BanRuns.RefusedFailureIsForgotten | src/middleware/auth.rs:133-139 | a refused failure is not recorded: four failures of which the last two are close do not ban under a maximum of two |
| KeyGen.GenerateApiKey | src/cli/commands.rs:485-528 | the key is the prefix, the first UUID's base-62 digits and the second's up to 36 characters |
| KeyGen.UuidDigits | src/cli/commands.rs:499-511 | the fixed bits of a version-4 UUID make it at least 14 and at most 22 base-62 digits |
| KeyGen.KeyLength | src/cli/commands.rs:485-528 | every key has 32 to 36 characters, so it meets the validator's minimum |
| KeyGen.KeyStandsFor | src/cli/commands.rs:499-528 | a key spells the first UUID's big-endian number in base 62 whole, and the second's as far as there is room, least significant digits first |
| KeyGen.KeysCanBeMonotonous | src/cli/commands.rs:483-528 | two equal version-4 UUIDs whose key has five different characters |
| KeyGen.Variety | src/cli/commands.rs:483-528 | a key has the 20 different characters the validator wants if and only if it uses 16 different digits besides those of the three prefix letters |
| Retry.SendWith429Retry | src/proxy/client.rs:197-263 | at most n + 1 sends; every answer but the last is a 429 with quota left, and a 429 with quota left is returned only by the last send; one specified wait between sends; the end of the loop is never reached |
| Retry.WaitIsBounded | src/proxy/client.rs:230-251 | wait k is at most the larger of 4 base delays and 1.3 times 2 to the k base delays; without a hint also at least 0.7 times the latter |
| Retry.HintIsKept | src/proxy/client.rs:226-243 | a Retry-After is kept to the millisecond, up to four base delays in saturating 64 bits |
| Retry.JitterSpreads | src/proxy/client.rs:696-702 | the clock's last three digits order the factors a wait is multiplied by |
| Retry.JitterIsCentred | src/proxy/client.rs:696-702 | the factors lie evenly around the one used without a clock, from 0.3 below it |
| Retry.TotalWait | src/proxy/client.rs:197-263 | the waits of any run sum to at most the closed form; 44.4 base delays for the configured maximum |
| Retry.ClosedForm | src/config.rs:601-609 | the sum of the longest waits of n at least 2 retries is 8 + 1.3 (2^n - 4) base delays |

## Left out

- HTTP sending, handlers, server-sent-event framing, keep-alive, tracing, timers and DNS:
  plumbing around the modelled steps. Poisoned-lock recovery is left out with them.
- JSON parsing and printing are the parameters `read` and `show`; a value keeps what the code
  observes of it (fields, items, strings, integers, booleans).
- The JSON an emitted event is printed as: an event is a value of its kind, index and payload.
- Token usage figures of the stream: message_start carries none, message_delta only its stop
  reason. The converter's model name is fixed and not part of its state.
- Request fields besides `messages` (`tools`, `tool_choice`, sampling parameters): one branch
  settles each of them.
- StreamAgreement.StreamingAgrees: is about streams whose reasoning precedes their content
  and tools, and whose fragments can be attributed: an index is the call's position and comes
  with the id when the call is new; a new id without an index comes only after calls without
  one; a known id is one call's.
- BanRuns.TurnedAwayWhileBanned: has a ban check read the clock no earlier than the cleanups
  whose effect it sees; the code reads it while it holds the lock on the bans.
- RateLimiter.DecidesAsTheHistory: needs the live addresses to fit the table, which
  `RateLimiter.AgreesWhenItFits` shows necessary for the table to answer as the log;
  `RateLimiter.RejectionsAreJustified` covers every run.
- Auth.AuthState.RecordFailure: is one step, taken when the ban is set. The attempts are
  locked meanwhile, so only ban checks can come in between, and those see the old bans
  whatever clock they read (`BanRuns.ChecksMayRace`).
- Retry.WaitIsBounded: delays are real numbers; rounding of f64 and of whole nanoseconds is
  not modelled.
- Other users of the limiters (admin middleware, health endpoint) and address extraction.
- `process_sse_chunk_lines` and its Anthropic sibling: the event type is local to a chunk, so
  nothing chunk-independent holds.
- Failover over providers, config loading and validation, exports, model discovery, wire
  format detection, host blocklists and constant-time comparison: easy members.
