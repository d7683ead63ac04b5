# sicha: a verified model

sicha is a chat-completion client: it sends one request down a chain of backends,
retries and falls back by a policy, and streams the answer through an incremental
event-stream parser to the caller's callbacks. This project models that core in Dafny
and proves what it promises, over every input, every run and every interleaving.

`dafny verify dfyconfig.toml` checks all of it. The adversaries (transport, allocator,
callbacks, validator, cancel token, JSON documents) are arbitrary function parameters,
so each theorem quantifies over their behaviour.

| modules | subject |
|---|---|
| `Bytes`, `Buf` | the sticky-error buffer: a value specification and the in-place buffer that refines it |
| `Sse`, `SseReference`, `SseCaps`, `SsePrint`, `SseParser` | the incremental parser as a function, a batch definition it refines, its cap on events, a printer it inverts, and the in-place parser |
| `StreamAssembly`, `StreamContext`, `EventFolds` | what one event does to the result and to the callbacks, as functions and in place, and what a list of events makes of them, as folds over their payloads |
| `Classify`, `Decimal`, `SplitMix` | error classes, Retry-After, backoff, the jitter mix |
| `Attempt`, `AttemptBatch`, `AttemptResults`, `AttemptMemory` | one round trip, a streamed one read off the batch meaning of its body, what each response returns, and what it asks of memory |
| `Engine`, `EngineCall` | the retry/fallback machine and its loop nest |
| `EngineLaws`, `EngineTrace`, `EngineMemory`, `EngineBudget`, `EngineTight`, `EngineCommit`, `EngineSticky`, `StickyOutcome`, `StickyWitness`, `EngineWire` | the laws of whole calls |
| `Script`, `ScriptClosedForm`, `ScriptLaws`, `ScriptCalls` | the scripted transport under virtual time |
| `Cancel`, `CancelAnswers` | the cancel token as a step system, and what its answers mean |
| `Utf8`, `JsonEscape`, `JsonString`, `JsonReader`, `IntegerText` | the UTF-8 validator and the JSON library's string and integer codecs |
| `PoolTiles`, `PoolRuns`, `FreeList`, `PoolAllocator` | the pool allocator: rows of chunks, whole runs, the threaded free list, and the in-place allocator |

Where the source changes fields or arrays in place the model is a class or an array
method, and each such method's `ensures` ties the new state to a specification
function; the laws are lemmas about those functions. Lemmas carry `{:induction false}`:
no proof relies on automatic induction.

## Properties that fail, and exactly when

- The parser does not always refine its batch meaning. `sicha_sse_finish` appends a
  held-back byte-order-mark prefix without promoting a buffer error
  (src/sse.c:180-185), so with a cap of 1 the stream EF BB is reported as a clean empty
  stream instead of an oversized one. `SseReference.StreamRefinesBatch` proves, for
  every allocator, that off this one pair of cap and stream the observation is the batch
  meaning or that of a stream cut short by a refused allocation, and gives both
  observations on it; `SseReference.CleanIsExact` proves that a stream reported as clean,
  or one with every append granted, is the batch meaning if and only if it is not that
  pair, and that NOMEM comes only from the refusal of an append the stream made. The unpromoted error has one more effect, on which the batch meaning is right:
  the streams EF and EF BB are reported clean even if memory for them is refused
  (`SseReference.HeldPrefixUnreported`).
- A later attempt of a call is not a fresh one. `sicha_buf_reset` keeps the sticky
  error, and `sicha_result_reset_content` relies on it (src/buf.c:100-106,
  src/response.c:120-135). A reset result is fresh if and only if neither buffer has
  failed (`StreamAssembly.ResetIsFresh`). `StickyWitness.SecondBackendIsNotFresh`
  shows it in a family of calls: for every cap, two payloads whose texts are over it and
  within it, and any callbacks that go on, the second of two backends succeeds alone,
  but behind a first one whose text hit the cap before anything was delivered the call
  is exhausted. `StickyWitness.JsonScene` is a member of the family with two chunks as
  services send them and a cap of one byte. `StickyOutcome` proves the general law: a
  later round trip that comes to fill the failed buffer ends TOOBIG, and any other one
  has the outcome it has on fresh content.
- The declaration of `sicha_buf_take` says the buffer is re-initialised either way
  (src/sicha_internal.h:48-50); the code keeps the buffer and its NOMEM error when the
  allocation inside take fails (src/buf.c:119-124). `Buf.ByteBuf.Take` proves that the
  buffer is re-initialised if and only if it had failed before, had storage, or memory
  was granted, and `Buf.RefusedTake` exhibits the input. The model follows the code.

## Model

| member | source | states |
|---|---|---|
| `Buf.RunIsIdealUntilFirstFailure` | src/buf.c:75-132 | over every sequence of append, reset and take, contents are those of a plain sequence up to the first failing call, which leaves the bytes alone and sets the error: TOOBIG for an append over the cap, whatever memory there is, else NOMEM |
| `Buf.ErrorIsSticky` | src/buf.c:31-106 | after a failure no append or reset clears the error or adds a byte |
| `Buf.CapHolds` | src/buf.c:43-46 | the length never exceeds a nonzero cap, whatever is called |
| `Buf.ByteBuf.constructor` | src/buf.c:10-17 | an empty buffer without storage |
| `Buf.ByteBuf.Reserve` | src/buf.c:31-73 | succeeds if and only if the buffer is sound, size arithmetic and cap allow it, and the room is there or is granted; otherwise the exact error; the doubling loop stays below SIZE_MAX and ends; contents kept |
| `Buf.ByteBuf.Append` | src/buf.c:75-88 | the buffer's view becomes the specification's append (cap first, then memory), or NOMEM when the sizes do not add up in a size_t; NUL termination and len <= cap kept |
| `Buf.ByteBuf.Reset` | src/buf.c:100-106 | length zero, capacity and sticky error kept |
| `Buf.ByteBuf.Take` | src/buf.c:108-132 | the detached NUL-terminated bytes, or none; re-initialises the buffer if and only if it had failed, had storage, or memory was granted |
| `Buf.RefusedTake` | src/buf.c:119-124 | the input on which it does not: a buffer without storage, memory refused, after which a granted append is still lost |
| `Buf.TakeDetachesContents` | src/buf.c:108-132 | after any calls without a failure, a take with memory detaches exactly the plain sequence of bytes and leaves an empty buffer; after a failure it detaches nothing |
| `Sse.PartitionIndependence` | src/sse.c:112-169 | for every stream and every partition, the events, return code, sticky status and final parser state equal those of one whole feed, for every callback and allocator |
| `SseReference.StreamRefinesBatch` | src/sse.c:60-205 | under every cap, partition, callback and allocator the caller observes the batch meaning (strip one BOM, split on CRLF/LF/CR, join with LF the values of the lines "data", "data:v" and "data: v", flush at the end), or a prefix of it ended by the refusal of an append the stream made; except for the one stream described above, where both observations are given |
| `SseReference.FieldValues` | src/sse.c:79-107 | for every name without a colon: behind the colon the value is the rest, less one leading space; a bare name has the empty value |
| `SseReference.FieldMatches` | src/sse.c:79-107 | the parser takes a line for data, and with which value, exactly as the batch definition, which has its own rule, says |
| `SseReference.CleanIsExact` | src/sse.c:60-205 | a stream reported clean, or one with every append granted, is the batch meaning if and only if it is not that stream; NOMEM only after the refusal of an append it made |
| `SseReference.HeldPrefixUnreported` | src/sse.c:180-185 | a proper prefix of the mark is reported clean under every cap and allocator |
| `SseReference.EventsFit` | src/sse.c:44-58 | no event of the batch meaning exceeds a nonzero cap |
| `SseCaps.HandedOutFits` | src/sse.c:44-169 | what a callback keeps on payloads within the cap, every whole stream keeps, for every allocator and partition: the parser hands out no other payload |
| `SseCaps.RecordedFits` | src/sse.c:44-169 | the same read off the record of a callback with arbitrary answers |
| `SseReference.TwoHeldBytesDropped` | src/sse.c:180-185 | the exceptional stream is observed as clean and empty |
| `SseReference.LineMatches` | src/sse.c:60-110 | one complete line does to parser and callback what the batch definition says of that line, or ends in the refusal of an append it made |
| `SseReference.FinishMatches` | src/sse.c:171-205 | once the mark is decided, the end of the stream flushes the held line and the pending event as two more lines of the batch definition, or ends in the refusal of an append it made |
| `SsePrint.RoundTrip` | src/sse.c:60-169 | payloads printed as data lines with a blank line after each, each line spelled "data: v", "data:v" (unless v begins with a space) or, if empty, "data", under any unambiguous mix of spellings, terminators, comments, ignored fields and an optional BOM, come back exactly under any partition; a refused allocation leaves a prefix of them |
| `SsePrint.PlainRoundTrip` | src/sse.c:60-169 | every list of CR-free payloads, printed with LF only, comes back exactly |
| `SseParser.SseParser.constructor` | src/sse.c:20-30 | the initial parser state |
| `SseParser.SseParser.CheckBufs` | src/sse.c:44-58 | the first buffer error is promoted to the parser |
| `SseParser.SseParser.OnLine` | src/sse.c:60-110 | the in-place line handler equals the line specification |
| `SseParser.SseParser.OnBytes` | src/sse.c:112-169 | the in-place feed (BOM loop, main loop) equals the byte-by-byte specification |
| `SseParser.SseParser.OnEnd` | src/sse.c:171-205 | the in-place finish equals the specification |
| `StreamAssembly.ResetContent` | src/response.c:120-135 | text and reasoning are empty afterwards |
| `StreamAssembly.ResetIsFresh` | src/response.c:120-135 | reset content is fresh if and only if neither buffer carried an error |
| `StreamAssembly.RawChunkFaithful` | src/response.c:475-490 | forwarding an unmodelled payload keeps log, text and delivered flag consistent |
| `StreamAssembly.DeliverFaithful` | src/response.c:492-517 | accumulation and callback stay in step, and `delivered` says whether a committing callback happened |
| `StreamAssembly.OnEventFaithful` | src/response.c:519-623 | after every event, with accumulation on, text and reasoning are exactly what on_delta and on_reasoning received, whatever callbacks and allocator answer |
| `StreamContext.StreamCtx.ResetResult` | src/response.c:120-135 | in place: everything reset but the sticky errors |
| `StreamContext.StreamCtx.RawChunk` | src/response.c:475-490 | in place: excerpt kept, callback told, code returned |
| `StreamContext.StreamCtx.Deliver` | src/response.c:492-517 | in place: append, error, callback, in that order |
| `StreamContext.StreamCtx.OnDeltaObject` | src/response.c:551-601 | in place: content, then reasoning, then tool calls, stopping at the first nonzero code |
| `StreamContext.StreamCtx.SetFinish` | src/response.c:167-179 | in place: finish reason and its raw text, or NOMEM with both kept |
| `StreamContext.StreamCtx.OnEvent` | src/response.c:519-623 | in place: the whole event handler |
| `StreamContext.StreamCtx.OnEvents` | src/response.c:519-623 | in place: the events of a stream until one stops it |
| `EventFolds.OnEventAbsorbs` | src/response.c:519-623 | an event answered with 0 does what its payload says: its content and reasoning, its finish reason, each nonnegative usage count, the first model name, the forwarded payload |
| `EventFolds.EventsFold` | src/response.c:475-623 | a list of events answered with 0 leaves what folds over the parsed payloads say: text and reasoning are the concatenated members, also without callbacks; the last finish reason with its class; each usage count the last nonnegative one; the first model; the last forwarded payload; and the callbacks are exactly those of the payloads, in order |
| `EventFolds.OnEventHeeds` | src/response.c:475-623 | an event is answered with the cancel code exactly if the last callback it made stops, and none is made behind one that does |
| `EventFolds.EventsGoOn` | src/response.c:475-623 | with willing callbacks, granted allocations and room within the caps every list of events without [DONE] is answered with 0 |
| `Classify.Resolve` | src/classify.c:16-34 | every zero field gets its documented default and every other field is kept; resolved policies are fixed points |
| `Classify.LookupOverride` | src/classify.c:62-73 | the first matching override wins; none exactly when no entry matches |
| `Classify.OverrideIsValidated` | src/classify.c:36-60 | an override found in a validated policy is ABORT, RETRY_SAME or ADVANCE |
| `Classify.ClassesAreDisjoint` | src/classify.c:75-157 | success if and only if a clean 2xx response the policy accepts; CANCELLED if and only if the transport was cancelled or aborted; never VALIDATION |
| `Classify.BuiltInClasses` | src/classify.c:75-157 | a response outside 2xx whose status no override names: ABORT exactly for 400 to 404, ADVANCE exactly for 429, RETRY_SAME otherwise |
| `Classify.OverriddenClasses` | src/classify.c:75-157 | one whose status an override names gets the class of the first such entry, whatever the built-in table says |
| `Classify.GoodClasses` | src/classify.c:75-157 | a 2xx response is a success, or ADVANCE exactly for a bad body or a finish reason the policy refuses |
| `Classify.TransportClasses` | src/classify.c:75-157 | transport failures: ADVANCE exactly for the four timeouts, PROTOCOL and NOMEM; RETRY_SAME exactly for CONNECT, TLS, CONN_RESET, OTHER and unknown codes; CANCELLED for the rest |
| `Classify.RetryAfterOfDelta` | src/classify.c:159-195 | a digit string of any length between blanks means min(1000 n, 10^15) (section 10.2.3 of RFC 9110) |
| `Classify.RetryAfterOfGarbage` | src/classify.c:159-195 | any other header means "none" |
| `Classify.ScanSeconds` | src/classify.c:161-195 | the saturating digit loop: no 64-bit overflow, and exact or past the saturation point together with the true value |
| `Classify.ParseRetryAfter` | src/classify.c:161-195 | the loop computes the specified milliseconds |
| `Classify.BackoffClosedForm` | src/classify.c:197-219 | the shift-guarded 64-bit computation is min(base 2^(k-1) + rand mod jitter, cap) over the unbounded integers |
| `Classify.BackoffMonotone` | src/classify.c:197-219 | without jitter the waits never shrink |
| `SplitMix.MixIsBijective` | src/client.c:50-57 | the output mix has a two-sided inverse on 64-bit words |
| `SplitMix.FirstDrawsAreDistinct` | src/client.c:640-646 | different request ordinals of one client never share their first raw draw |
| `SplitMix.StatesAdvance` | src/client.c:50-57 | the states behind successive draws are those of the advancing generator |
| `SplitMix.DrawsOfOneRequestAreDistinct` | src/client.c:50-57 | no two of the first 2^64 draws of one request are equal |
| `SplitMix.PublishedValues` | src/client.c:50-57 | the first draws from seed 0 are the published ones |
| `Attempt.RetryAfterHonoured` | src/client.c:287-303 | the last Retry-After header of a response, whatever headers stand around it, is honoured exactly if it fits 63 characters and judged by its first 63 otherwise; no such header asks for no wait |
| `Attempt.RetryAfterInAnyCase` | src/client.c:287-303 | the header is recognised exactly under the eleven letters of its name, each in either case |
| `Attempt.ReceiveHeaders` | src/client.c:287-303 | the header loop finds the last Retry-After value, cut to 63 characters |
| `Attempt.ReceiveStream` | src/client.c:305-318 | the body callback of a stream feeds chunks in order and stops at the first nonzero code |
| `Attempt.ReceiveBody` | src/client.c:319-321 | the body callback of a plain response accumulates until the first failed append |
| `Attempt.CloseStream` | src/client.c:461-492 | the lenient flush and the verdict on a stream that ended without [DONE] or a finish reason |
| `Attempt.RunAttempt` | src/client.c:386-548 | one round trip, streaming or not, computes the specified outcome: transport status after untangling, body state, Retry-After, delivered flag, content, callbacks |
| `Attempt.StreamFragmentationIndependence` | src/client.c:432-515 | a streamed round trip has the same outcome for every fragmentation of the body, whatever callbacks and allocator do |
| `Attempt.AccumulateIsConcat` | src/client.c:319-321 | the accumulated body is the concatenation of its chunks, or too big exactly when that exceeds the cap, or starved after the refusal of one of its own appends |
| `Attempt.PlainFragmentationIndependence` | src/client.c:432-515 | a plain round trip has the same outcome for two fragmentations if and only if memory for the body gives out under both at the same point or under neither |
| `Attempt.AmpleBody` | src/client.c:319-321 | with every append granted it gives out under none |
| `Attempt.StreamAttemptFaithful` | src/client.c:432-515 | a streamed round trip only adds callbacks of its own, `delivered` if and only if one of them commits, text and reasoning equal the bytes their callbacks got in it |
| `AttemptBatch.StreamAttemptIsBatch` | src/client.c:432-492 | over a clean wire a streamed round trip is what its body's batch of events, delivered one by one to the event handler, makes of it: neither chunks, nor sink aborts, nor the flush at the end make a difference |
| `AttemptResults.StreamResult` | src/client.c:432-515 | a streamed response that arrives whole and well, with willing callbacks, memory and room, returns what the folds over its payloads before [DONE] say, and is usable exactly if it had [DONE] or a finish reason, else malformed, or empty without any chunk |
| `AttemptResults.StoppedStream` | src/client.c:432-492 | a stream its sink stopped, whatever the status and the transport: [DONE] is a success, a stopping callback a cancellation, want of memory ends the call, anything else went over a cap |
| `AttemptResults.UnusableStream` | src/client.c:432-492 | a stream nothing stopped, behind a failed transport or a status outside 2xx: the transport status stands and no verdict is passed on the body |
| `AttemptResults.PlainResult` | src/response.c:349-452 | a plain response that arrives whole and well: empty, malformed, or a result filled with exactly the members of the reply; the verbatim body is kept in all three cases and no callback is made |
| `AttemptResults.UnusablePlain` | src/client.c:432-515 | any other plain response leaves the result alone: too big over the cap, else the transport status stands |
| `AttemptMemory.StreamMemory` | src/response.c:475-623 | a streamed response that arrives whole and well over sound content ends in NOMEM if and only if one of the allocations it asked for was refused and no cap was hit |
| `AttemptMemory.PlainMemory` | src/response.c:349-452 | a plain one with a usable reply and room for it ends in success if and only if every allocation the members of the reply ask for is granted, and in NOMEM otherwise |
| `Engine.RunKeeps` | src/client.c:648-836 | the induction principle for calls: what every turn keeps, a whole call keeps |
| `Engine.StepKeepsRunning` | src/client.c:648-836 | every turn moves to the next backend, spends exactly one unit of the current backend's budget, or ends the call |
| `EngineCall.ChatCall.BackOff` | src/client.c:800-826 | in place: the capped Retry-After or the formula with one draw, and the cancelled wait |
| `EngineCall.ChatCall.Route` | src/client.c:759-831 | in place: the switch over the class, with the commit rule |
| `EngineCall.ChatCall.Turn` | src/client.c:655-831 | in place: one turn of the inner loop is one step of the machine |
| `EngineCall.ChatCall.Chat` | src/client.c:597-836 | the loop nest ends and computes the run of the machine |
| `EngineLaws.CallIsRouted` | src/client.c:648-836 | every call yields a record list of the grammar, and its last turn decides the status: cancelled if the token is found set; else the failed request build; else NOMEM exactly if that turn's record or round trip ran out of memory; else what the record list prescribes; and a cancelled call has its cause (the token, a cancelled wait, a last record of class CANCELLED) |
| `EngineTrace.ClassIsPrescribed` | src/classify.c:75-157 | the class of every round trip, the validator included, is the one the documented tables prescribe for its transport status, HTTP status, body state, finish reason and overrides |
| `EngineTrace.CallIsTraced` | src/client.c:648-836 | every call is determined by its round trips: each starts from the reset content of the one before; every record carries its own round trip's statuses and the class prescribed for them; the waits, in order, are exactly those behind same-backend retries with tries left, min(Retry-After, cap) if the header gave a value and the cap is enabled, else the formula for the number of retries on that backend with the next draw; the result and the callbacks are the last round trip's; every turn found the token clear, and a wait the token cuts short is the last and ends the call CANCELLED |
| `EngineTrace.WaitsNeverShrink` | src/client.c:800-826 | without jitter the formula-based waits of a call on one backend never shrink |
| `EngineTrace.OutcomeOfWire` | src/client.c:386-548 | the HTTP status and the Retry-After of a round trip are those of its response |
| `EngineMemory.AmpleMemoryNeverNoMem` | src/client.c:648-836 | a call whose allocations are all granted, streamed or not, never ends with NOMEM |
| `EngineLaws.GrammarShape` | src/client.c:648-836 | ordinals 0..n-1, backend starts at 0 and steps by 0 or 1, try_of_backend restarts per backend, only the last record may be a success, an abort or a cancellation |
| `EngineLaws.GrammarBudgets` | src/client.c:772-831 | per backend at most max_tries retries and validation_retries + 1 rejections, and the next try number is their sum |
| `EngineLaws.ExhaustedMeansAllTried` | src/client.c:772-836 | EXHAUSTED implies that every backend has a block of records that ended in ADVANCE, the over-budget VALIDATION, or the max_tries-th RETRY_SAME |
| `EngineBudget.CallIsBudgeted` | src/client.c:648-836 | at most n (max_tries + validation_retries) round trips and n (max_tries - 1) waits, each within the larger enabled cap, one jitter draw per formula-based wait |
| `EngineTight.BudgetIsAttained` | src/client.c:648-836 | for every policy, chain and well-read reply a client over wires that answer with it and then fail to connect, with a rejecting validator, attains both bounds exactly |
| `EngineTight.JsonScene` | src/response.c:349-411 | such a reply, as a service sends it |
| `EngineCommit.CommitRule` | src/client.c:682-689 | without RETRY_AFTER_DELTAS every delta or reasoning callback of a whole call belongs to its last round trip; and with accumulation on the bytes on_delta and on_reasoning got in the whole call are the result's text and reasoning, however the call ends |
| `EngineSticky.FailedBufferStaysSilent` | src/response.c:120-123 | once the text (or the reasoning) has failed, its callback hears nothing for the rest of the call and the buffer stays failed and empty, whatever later backends answer, streamed or not |
| `StickyOutcome.StreamEndsTooBig` | src/response.c:492-517 | after a cap hit, every later streamed round trip over a clean wire whose events come to fill that buffer ends TOOBIG |
| `StickyOutcome.StreamUnaffected` | src/response.c:519-623 | any other one has the outcome it has on every other state of that buffer, a fresh one included |
| `StickyOutcome.PlainEndsTooBig` | src/response.c:349-425 | after a cap hit, every later plain round trip whose reply comes to fill that buffer ends TOOBIG |
| `StickyOutcome.PlainUnaffected` | src/response.c:349-425 | any other one, over any wire, has the outcome it has on every other state of that buffer |
| `StickyWitness.SecondBackendIsNotFresh` | src/response.c:120-123 | the two-backend calls described above: exhausted, though their second backend alone succeeds |
| `StickyWitness.JsonScene` | src/response.c:519-623 | such a call, with payloads as services send them |
| `EngineWire.CallFragmentationIndependence` | src/client.c:597-836 | two whole calls whose response bodies are cut differently end in the same state: status, records, waits, text, every callback (a plain call: provided memory gives out under both cuts of a body at the same point or under neither) |
| `Script.AbsDeadline` | src/transport_script.c:101-108 | start plus budget, unless that is unlimited or does not fit 64 bits, which both mean the end of time |
| `Script.DelayWithin` | src/transport_script.c:113-154 | the waiting loop ends at max(start, min(target, deadlines, token)), ties going to the token, deadline a, deadline b, then OK |
| `Script.ChunksConcat` | src/transport_script.c:254-291 | the chunk cuts lose and repeat nothing |
| `Script.ChunkSizes` | src/transport_script.c:254-291 | no chunk is empty, every chunk but the last has exactly the chunk size, the last no more, and chunk size 0 means one chunk |
| `Script.ScriptTransport.Push` | src/transport_script.c:338-399 | refuses headers over the limits, then for want of memory, with the queue unchanged; else appends to the queue |
| `Script.ScriptTransport.Serve` | src/transport_script.c:160-295 | NOMEM with nothing recorded; else pops the oldest response and performs its phases, or fails to connect on an empty queue |
| `ScriptClosedForm.TransferClosedForm` | src/transport_script.c:254-291 | for every pace, token and sink the chunks delivered are the longest run that is in time and taken; the end is complete, refused by the sink when due, or late with the class and instant of the deadline missed |
| `ScriptClosedForm.EarlierInTime` | src/transport_script.c:254-291 | when a chunk is in time, all before it are |
| `ScriptClosedForm.ReachClosedForm` | src/transport_script.c:223-253 | the connect and first-byte phases end at the sum of their delays, or where one is cut short, or with the scripted failure |
| `ScriptClosedForm.PerformClosedForm` | src/transport_script.c:160-295 | the whole scripted response ends where its first two phases do, or with the closed form of its body phase and the scripted status at a complete end |
| `ScriptClosedForm.EndIsFirst` | src/transport_script.c:113-154 | a delay ends at the first instant at which it is over, a deadline has come or the token fires, and names, in this order, the token, deadline a, deadline b |
| `ScriptClosedForm.TimeoutClasses` | src/transport_script.c:223-253 | a single enabled limit that is missed reports the timeout of its own phase, at the limit |
| `ScriptClosedForm.IdleTimeout` | src/transport_script.c:254-291 | so does a chunk that takes longer than the idle limit |
| `ScriptClosedForm.FailureCutsBody` | src/transport_script.c:254-291 | without limits a response delivers its whole body, or the prefix its scripted failure allows, and ends with its own status |
| `ScriptLaws.InstantAttemptIsWired` | src/transport_script.c:160-295 | a scripted response without delays is exactly its wire |
| `ScriptLaws.ChunkSizeIndependence` | src/transport_script.c:254-291 | end to end, a streamed attempt over an undelayed scripted response has the same outcome for every chunk_size |
| `ScriptLaws.PlainChunkSizeIndependence` | src/transport_script.c:254-291 | a plain attempt has the same outcome for two chunk sizes if and only if memory gives out under both at the same point or under neither |
| `ScriptCalls.CallChunkSizeIndependence` | src/transport_script.c:160-295 | a whole call over a queue of undelayed responses, each answering one round trip and a connect failure behind the last, ends in the same state under all chunk sizes |
| `Cancel.RunKeepsInv` | src/cancel.c:42-73 | mutual exclusion and the flag protocol hold in every reachable state, for any number of calls, spurious wakes and timeouts included |
| `Cancel.NoLostWakeup` | src/cancel.c:140-158 | after a trigger's store and without a reset: the flag stays set, once the trigger returned nobody is parked, and no later answer is "not cancelled" |
| `Cancel.WaiterAnswers` | src/cancel.c:140-158 | over every schedule after a trigger has returned and without a reset, a waiter given seven chances to move has returned, and returned "cancelled" |
| `Cancel.MutexIsReleased` | src/cancel.c:42-62 | whoever holds the mutex can step and releases it within a bounded number of steps |
| `CancelAnswers.FlagIsLastStore` | src/cancel.c:42-73 | over every run the flag is what the last store, a trigger's or a reset's, made it |
| `CancelAnswers.AnswersAreLastStores` | src/cancel.c:65-73 | the answer a wait or a test reads is the last store before its own turn; so "cancelled" needs a trigger's store before that turn |
| `CancelAnswers.NoStoreNoYes` | src/cancel.c:65-158 | in a run without a trigger's store nobody answers "cancelled" |
| `CancelAnswers.NoNeedsDeadline` | src/cancel.c:140-158 | a wait answers "not cancelled" only behind a clock test that found its deadline passed |
| `CancelAnswers.KeepsWaiting` | src/cancel.c:140-158 | without a trigger's store and before its deadline a wait stays in its loop over every run |
| `CancelAnswers.ThreeTurnsPark` | src/cancel.c:140-158 | with the flag clear and the deadline ahead a waiter that gets the mutex passes both tests, parks with the mutex released, and comes back to the test when woken |
| `CancelAnswers.FiveTurnsTimeOut` | src/cancel.c:140-158 | with the deadline passed it answers "not cancelled" in five turns of its own and releases the mutex |
| `Utf8.Validate` | src/request.c:22-89 | the index-advancing loop decides the validity predicate |
| `Utf8.ValidIffScalars` | src/request.c:22-89 | accepted if and only if a concatenation of encodings of Unicode scalar values (sections 3 and 4 of RFC 3629) |
| `Utf8.EncodeIsSequence` | demo/chat.c:146-168 | what the encoder emits for a scalar is one accepted sequence |
| `Utf8.MasksAgree` | src/yyjson.c:1115-1176 | the four mask tests agree with the validator about the sequence at the front |
| `JsonEscape.HexRoundTrip` | src/yyjson.c:1060-1070 | four hex digits read back as the 16-bit unit they print |
| `JsonEscape.HexLoadsInAnyCase` | src/yyjson.c:1060-1070 | four hex digits, each in either case, load as the 16-bit unit they spell |
| `JsonEscape.SurrogatesRoundTrip` | src/yyjson.c:4660-4711 | a supplementary code point survives its surrogate pair |
| `JsonString.WriteStr` | src/yyjson.c:8642-8850 | the writer loop prints the specified string or fails |
| `JsonString.WriteStrNoEsc` | src/yyjson.c:8609-8630 | the fast writer prints the bytes between quotes |
| `JsonString.UnitRoundTrip` | src/yyjson.c:8642-8850 | every accepted character is written, and reads back as itself, under every escaping option |
| `JsonString.RoundTrip` | src/yyjson.c:4724-5040 | for every valid UTF-8 string, NUL included, the writer needs at most 6 len + 2 bytes and reading its output gives the same bytes (section 7 of RFC 8259) |
| `JsonString.WritesIffValid` | src/yyjson.c:8642-8850 | the writer fails exactly on strings the validator rejects |
| `JsonString.NoEscIsVerbatim` | src/yyjson.c:8609-8630 | for a string the reader tagged no-escape the fast writer's output is the escaping writer's |
| `JsonString.TagIsExact` | src/yyjson.c:4724-5040 | a string is tagged no-escape if and only if its text holds no backslash |
| `JsonString.TwoCharacterEscapes` | src/yyjson.c:4724-5040 | each two-character escape reads as its character, and no other letter is one (section 7 of RFC 8259) |
| `JsonString.UnicodeEscapes` | src/yyjson.c:4660-4711 | a \u escape reads as its scalar value, a surrogate pair of them as one, and everything else, a lone surrogate included, is refused |
| `JsonString.PlainCharacters` | src/yyjson.c:4724-5040 | an unescaped character is one valid UTF-8 sequence other than quote, backslash and control characters |
| `JsonString.WrittenForms` | src/yyjson.c:8342-8437 | the writer uses the short escapes where there are any, \u00 escapes for the other control characters, and else the character itself unless all of Unicode is to be escaped |
| `JsonString.EscapedOutputIsAscii` | src/yyjson.c:8642-8850 | with all of Unicode escaped the output is printable ASCII |
| `JsonString.SolidusIsOptional` | src/yyjson.c:8342-8437 | a solidus is escaped exactly if that is asked for |
| `JsonReader.Decode` | src/yyjson.c:4724-5040 | the in-place two-phase reader, for any sane character reader: on success the decoded bytes stand at the start, NUL-terminated |
| `JsonReader.ReadStr` | src/yyjson.c:4724-5040 | in-place reading of a JSON string equals the specification: bytes, end, no-escape tag, and failure |
| `IntegerText.Exact100` | src/yyjson.c:7094-7107 | the multiply-and-shift division by 100 is exact on its range |
| `IntegerText.Exact10000` | src/yyjson.c:7094-7107 | the multiply-and-shift division by 10000 is exact on its range |
| `IntegerText.WriterPrintsValue` | src/yyjson.c:7094-7222 | for every 64-bit value the writer prints its decimal digits without a leading zero |
| `IntegerText.ReadNum` | src/yyjson.c:3884-4028 | the integer path returns the value of the whole digit run, over the unbounded integers, with the 19- and 20-digit overflow checks, or hands over to the floating-point path |
| `IntegerText.RoundTrip` | src/yyjson.c:3945-4028 | every printed 64-bit value reads back, whatever non-number character follows |
| `IntegerText.NegativeRoundTrip` | src/yyjson.c:3945-4028 | behind a minus sign it reads back negated up to 2^63, and is left to the floating-point path beyond |
| `IntegerText.LiteralMeaning` | src/yyjson.c:3884-4028 | every literal of digits without a leading zero, of any length and sign: its value if that fits 64 bits and no fraction or exponent follows, else the floating-point path |
| `IntegerText.MalformedIntegers` | src/yyjson.c:3884-4028 | no digit, or a leading zero, is refused |
| `PoolTiles.Need` | src/yyjson.c:2236-2239 | the chunk size is aligned, covers request and header, and wastes less than one more header |
| `PoolTiles.FirstFit` | src/yyjson.c:2249-2255 | the chosen chunk is free and large enough, and no earlier one is |
| `PoolTiles.TakeIsGood` | src/yyjson.c:2255-2267 | allocation keeps the pool exactly tiled and coalesced |
| `PoolTiles.TakeLive` | src/yyjson.c:2255-2267 | exactly one live chunk is added, the others stay where they are |
| `PoolTiles.TakeIsTight` | src/yyjson.c:2255-2267 | a chunk is cut exactly if two headers would be left over, so the chunk handed out wastes less than that and the rest can hold a request |
| `PoolTiles.ReleaseIsGood` | src/yyjson.c:2273-2297 | release keeps the pool exactly tiled and fully coalesced |
| `PoolTiles.ReleaseLive` | src/yyjson.c:2273-2297 | exactly the released chunk stops being live |
| `PoolRuns.Chosen` | src/yyjson.c:2241-2271 | malloc fails if and only if the request is not below the pool size or no free chunk is large enough |
| `PoolRuns.MallocLands` | src/yyjson.c:2241-2271 | a returned block lies in the pool, holds the request, and is aligned when the chunks are |
| `PoolRuns.MallocIsSafe` | src/yyjson.c:2241-2271 | it overlaps no live chunk, header included, and moves none |
| `PoolRuns.EveryRun` | src/yyjson.c:2237-2297 | every run of malloc and free keeps the pool tiled, coalesced and aligned, with the live chunks exactly those held; holding nothing means the single initial chunk is back |
| `FreeList.Splice` | src/yyjson.c:2263-2266 | redirecting the last free chunk before a new middle threads the whole row again |
| `FreeList.UpperNeighbour` | src/yyjson.c:2287-2291 | the address comparison holds exactly when the upper neighbour is free |
| `FreeList.LowerNeighbour` | src/yyjson.c:2292-2296 | the address comparison holds exactly when the lower neighbour is free |
| `PoolAllocator.Pool.constructor` | src/yyjson.c:2346-2369 | an accepted buffer becomes an aligned pool filled by one free chunk |
| `PoolAllocator.Pool.Malloc` | src/yyjson.c:2241-2271 | in place over headers: the free list stays address-ordered and complete, the row of chunks and the pointer are the specified ones |
| `PoolAllocator.Pool.Free` | src/yyjson.c:2273-2297 | in place over headers: insertion and both merges make the specified row |

## Left out

- src/transport_curl.c: sockets, libcurl and real deadlines.
- JSON documents: `yyjson_read` and object lookup are uninterpreted functions from a payload to an abstract event and from a body to an abstract reply; floating-point numbers, big numbers, pointers, patches, the incremental reader and the non-standard read flags of src/yyjson.c are not modelled.
- `pool_realloc` and the dynamic allocator of src/yyjson.c; addresses and sizes of the pool are unbounded integers.
- Attempt records carry ordinal, backend, try, class, HTTP status and transport status; message, excerpt, model name and latency are not modelled (on a size-cap trip of a plain response the excerpt does depend on the chunking).
- Attempt counters are unbounded, so the 32-bit wrap of a policy with max_tries + validation_retries beyond 2^32 is not modelled.
- Request validation, request and header building (one status per backend stands for it), client and backend creation, deep copies and free paths, debug logging, environment variables.
- The KoboldCpp abort assist: a fire-and-forget request that adds no attempt record.
- Clock and jitter of a call: the engine draws from an arbitrary stream, `SplitMix` numbers its elements by 64-bit words; wait lengths are modelled, the passage of time only in `Script`.
- Memory: an allocation is a boolean answer per append or copy; freeing is not modelled.
- Classify.Resolve: `sicha_policy_resolve` updates the policy in place, the model maps a policy to a policy, so aliasing of the policy struct is not captured.
- Buf.RunIsIdealUntilFirstFailure: the value specification leaves out appends whose sizes overflow a size_t together, which `Buf.ByteBuf.Append` covers.
- Attempt.RunAttempt: latency, message and excerpt of the outcome are not modelled; they feed attempt records only.
- AttemptBatch.StreamAttemptIsBatch: the parser's own appends are granted, and the exceptional stream of the parser is excluded.
- Script.ScriptTransport.Serve: the refusal of a null or wrong-sized request structure is not modelled; nor is it in Script.ScriptTransport.Push.
- JsonReader.Decode: the source also copies ahead of its cursors in blocks of four and sixteen bytes, onto input not yet read or output not yet final; the model stores exactly the bytes of each character.
- StreamContext.StreamCtx.OnEvent: the parser methods call the event handler as a function on context values; the in-place handler is tied to the same function, and `OnEvents` runs it over a whole batch.
- SseParser.SseParser.OnBytes: the parser's two buffers are values of the buffer specification, not `Buf.ByteBuf` objects; the same holds of the stream context.
- Cancel.NoLostWakeup: the token's NULL case and its creation and destruction are not steps of the model.
- JsonString.WriteStr: the writer builds its output as a sequence; its output buffer and pointer arithmetic are not modelled.
- IntegerText.ReadNum: text is a string of characters with a zero behind it; the digit-by-digit unrolling of the source is one loop.
- Demos (except the UTF-8 encoder), benchmarks, fuzzers, tests and the tables of src/status.c.
