# model-surge-agent: verified core

model-surge-agent is a data plane that translates between LLM protocols. A client request is
decoded into an intermediate representation, repaired, shaped for the upstream, sent, and the
upstream's stream is turned back into events and then into client frames. This project models
the parts in which that translation decides something, and proves what they guarantee.

| file | component |
|---|---|
| `Ir.dfy`, `Blocks.dfy`, `Seqs.dfy` | the intermediate representation; sequences of blocks and messages; facts about sequences |
| `Pairing.dfy`, `History.dfy`, `Sanitize.dfy`, `ToolDecl.dfy` | history repair: tool declarations, pairing of calls and results, pruning, merging |
| `Conservation.dfy`, `RepairNotes.dfy` | what history repair keeps of what was said, and what it reports |
| `Aggregate.dfy`, `Aggregator.dfy` | collecting events into a response, with builders and size gates |
| `Reported.dfy`, `Contents.dfy`, `Unfinished.dfy` | the collected response read off the events alone: what was reported, what each block holds, what was left open |
| `Replay.dfy`, `ReplayStream.dfy` | a response as events, and back |
| `AnthropicStream.dfy`, `AnthropicGrammar.dfy`, `AnthropicToolArgs.dfy` | the Anthropic stream encoder and the frames a client accepts |
| `AnthropicWords.dfy`, `AnthropicSignals.dfy`, `AnthropicBlocks.dfy` | what an Anthropic client reads: the words, the opening and the end, the blocks and their citations |
| `GeminiStream.dfy`, `GeminiGrammar.dfy` | the Gemini stream decoder |
| `GeminiVoices.dfy`, `GeminiMessage.dfy` | what it hands on, part by part, and how its message opens and ends |
| `ChatSlots.dfy`, `ChatCalls.dfy` | tool-call fragments of Chat Completions, and what each of them comes to |
| `Sse.dfy` | server-sent events, read and written (section 9.2.6 of the WHATWG HTML standard) |
| `Outbox.dfy`, `OutboxWorker.dfy`, `Leases.dfy` | the outbox of undelivered reports: leases, tokens, retry, burial, and who is kept off which row until when |
| `Bridge.dfy`, `Verdicts.dfy`, `Serve.dfy`, `Delivery.dfy` | one attempt, with which error it ends, the retry loop around it, and the frames an Anthropic client reads in the end |
| `Shape.dfy`, `ShapeLaws.dfy`, `ToolIds.dfy`, `ShapedHistory.dfy` | request shaping, what it gives read off the request alone, tool ids within a limit, and what shaping leaves of a repaired history |
| `Paramover.dfy`, `Usage.dfy` | parameter layers, usage and its losses |

Each component has the same build. Functions say what the code computes, on values. Methods
and classes have the code's own form (loops, in-place updates, fields) and are proved equal to
those functions. Lemmas say what the functions mean, over every input or every run; those that
pin a result do so on the inputs, without the functions that compute it.
A `char` stands for one byte, except in `ToolDecl.dfy`, where it stands for a code point; a nil
pointer is `None`.

## What the code does otherwise than its comments say

Each of these is a lemma, or the exact condition of one.

- `pairTools` gives up at once when it indexes nothing, so a history whose only calls have empty
  ids keeps them unanswered (`Pairing.NamelessCallStays`). Pairing holds exactly on
  `Pairing.Repairable` (`PairsExactlyWhenRepairable`).
- `Sanitize` is not idempotent: it trims one trailing block (`History.NotIdempotent`). Over every
  repairable history, two runs are one exactly when that block is all the white space at the end
  (`History.RepairedTwiceExactly`, told from the history as paired).
- A thinking delta writes to a block that was never opened when its block started without a
  payload, which is how the Chat decoder starts reasoning
  (`AnthropicGrammar.ReasoningWithoutPayload`). A `message_start` is lost when the first event is a
  block that cannot be encoded, though no decoder sends one first (`RefusedAtOnce`). Both are
  among what `AnthropicGrammar.Admissible` excludes, and for streams without an error event that
  is exactly what breaks the client's grammar (`CompletedExactlyWhenAdmissible`).
- The aggregator drops the free text a custom call starts with (`Aggregate.SeedIsAdopted`), and
  calls the stop reason of every response with a tool call `tool_use`
  (`Replay.RoundTripExactlyWhenFaithful`).
- The line limit of the frame scanner leaves no room for the `data: ` prefix of a one-line frame
  of the largest size (`Sse.LargestFrameIsRefused`).
- The first retry delay of the outbox is two seconds, not one (`Outbox.BackoffGrows`).
- The limit on tool calls of the Chat decoder counts indices: aliases and reused indices evade it
  (`ChatSlots.AliasesEvadeTheLimit`, `ChatSlots.ReuseEvadesTheLimit`). When it holds of indices and
  when of calls is exact over every run (`IndicesWithinLimit`, `CallsWithinLimit`).
- A refused delta takes back what its earlier fragments said, while the decoder counts it as said
  (`ChatSlots.RefusalLoses`). Nothing is lost before the first refusal, and the pipeline gives the
  stream up there.
- `thinkingSurvivesShaping` can say no wrongly on the request before its tools are settled
  (`Shape.MirrorIsWrong`; when exactly is `Shape.MirrorOnTheOriginal`).
- Parameter layering is not idempotent, though each layer is (`Paramover.ApplyIsNotIdempotent`;
  when exactly is `Paramover.TwiceIsOnceExactly`).
- An Anthropic upstream that breaks off inside a text is closed by its decoder with `message_stop`
  alone; the bridge then adds a `message_delta` behind it, so that the client has no complete
  message (`Delivery.SecondDelta`; for all streams closed so it is
  `Delivery.BrokenOff` that says when). A stream without terminators of its own gets one delta
  only (`Delivery.WhenOneDelta`).
- Folding a system prompt and then clearing its mark leaves the mark's lifetime behind; a second
  shaping would drop it. Schemas and ids aside, it is all that a second shaping can change
  (`Shape.ConformsExactlyWhenLeftAlone`).

## Model

| member | source | states |
|---|---|---|
| Pairing.IndexToolsRecords | backend/ir/sanitize.go:151-174 | the index names exactly the non-empty call ids and the answered ids of the history, every recorded site is a call with that id, and distinct ids give no duplicate note |
| Pairing.DemoteInPlace | backend/ir/sanitize.go:181-217 | the last copy of each answered result stays as it was, every other result gives its place to one text block, no other block is touched; what that text says is `Conservation.NoResultIsLost` |
| Pairing.DemoteIds | backend/ir/sanitize.go:181-207 | after demotion the result ids are distinct and are exactly those that answer a call; the calls are unchanged |
| Pairing.DropIds | backend/ir/sanitize.go:242-266 | exactly the calls some result answers remain, and no result is dropped with them |
| Pairing.ReorderConserves | backend/ir/sanitize.go:276-382 | blocks other than results keep their reading order, and the results come out once each, in call order |
| Pairing.CallOrderWhenDistinct | backend/ir/sanitize.go:276-324 | when ids are distinct, the order by recorded block index is the order in which the message makes its calls |
| Pairing.PairedMeans | backend/ir/sanitize.go:125-142 | the recursive notion of a paired history is the message-by-message one: message i leads with the results of message i-1 and holds no other |
| Pairing.PairedIds | backend/ir/sanitize.go:125-142 | in a paired history the results read in order are the calls read in order |
| Pairing.PairsExactlyWhenRepairable | backend/ir/sanitize.go:130-142 | for every history, pairTools leaves it paired if and only if answered ids are distinct and non-empty and nameless calls are not all there is |
| Pairing.NamelessCallStays | backend/ir/sanitize.go:130-142 | a history whose only call has no id keeps it, unanswered |
| Pairing.RepairedIsCanonical | backend/ir/sanitize.go:130-142 | the repaired history is paired with distinct non-empty call ids, and its calls are exactly the answered ones, in order |
| Pairing.CanonicalIsFixed | backend/ir/sanitize.go:130-142 | a history in that form is left alone, without a note |
| Pairing.PairToolsIdempotent | backend/ir/sanitize.go:130-142 | repairing twice is repairing once, and the second run reports nothing |
| Pairing.PairToolsConserves | backend/ir/sanitize.go:130-142 | only unanswered calls vanish, non-results keep their order, and the surviving results are all there unchanged and once each |
| Conservation.PairToolsTells | backend/ir/sanitize.go:130-266 | for every history in which anything is indexed, block by block: each result stands unchanged or its place is taken by a text that gives its id and then each text it held, in order, and the kind of whatever else it held; calls with an answer stay, other calls go, and nothing else changes |
| Conservation.NoResultIsLost | backend/ir/sanitize.go:176-234 | every tool result of the history is there afterwards unchanged, exactly if it is the last answer to a call, or else a text tells its id and all it held |
| Conservation.ToldInOneWay | backend/ir/sanitize.go:210-234 | there is only one text that tells a given result |
| RepairNotes.EveryChangeIsNoted | backend/ir/sanitize.go:151-382 | each spare call, each result told as text, each call and each message dropped is noted as often as it happened, and nothing else is |
| RepairNotes.MovesAreNoted | backend/ir/sanitize.go:305-322 | moved results are noted exactly when the layout changed, under the ids of all results there are |
| History.PruneKeeps | backend/ir/sanitize.go:388-452 | pruning keeps a history paired with the same calls, and leaves no empty message |
| History.MergeKeeps | backend/ir/sanitize.go:62-94 | merging keeps a history paired, and its calls with the assistant |
| History.MergeAlternates | backend/ir/sanitize.go:62-94 | after merging, adjacent messages share a role only if one carries an audio id |
| History.MergeSolid | backend/ir/sanitize.go:62-115 | merging makes no message empty |
| Conservation.PrunedAndMergedSayTheSame | backend/ir/sanitize.go:62-452 | pruning and merging take nothing away but white space: who said what, and which recordings are replayed, stays the same in the same order, and only the last text of all may end sooner |
| Conservation.MergeKeepsApart | backend/ir/sanitize.go:95-115 | merging never runs two texts together: between two texts that meet there is a separator or white space |
| Conservation.MergedByRuns | backend/ir/sanitize.go:62-122 | merging makes each run of messages by one side, up to a change of side or a recording, into one: the first of them with the contents of all, and a blank line exactly where two texts would touch without white space |
| RepairNotes.PruningIsNoted | backend/ir/sanitize.go:388-415 | a trimmed last text and every empty message, by role and place, are noted, and nothing else is |
| History.RepairedIsAcceptable | backend/ir/sanitize.go:17-43 | all repairs together: every repairable history whose answered calls come from the assistant ends up acceptable, with exactly the answered calls |
| History.AcceptableMeans | backend/ir/sanitize.go:17-43 | read off the messages: calls are answered at the head of the next message, a user message, in call order and nowhere else; every call once |
| History.RepairedAgain | backend/ir/sanitize.go:388-436 | an acceptable history is changed by repairing it if and only if it ends in an assistant text with white space behind it |
| History.RepairedTwiceExactly | backend/ir/sanitize.go:17-43 | for every repairable history whose answered calls come from the assistant, repairing twice is repairing once unless, after pairing, an empty message follows a loose assistant text or the last block is blank and the one before it loose |
| History.NotIdempotent | backend/ir/sanitize.go:419-436 | a history that two repairs change further than one |
| History.RenameKeepsRepairable | backend/ir/tooldecl.go:102-122 | renaming tools does not disturb what makes a history repairable |
| Sanitizer.BuildIndex | backend/ir/sanitize.go:151-174 | the loops build the index of the specification |
| Sanitizer.DemoteOrphans | backend/ir/sanitize.go:181-207 | the backward walk rewrites the request to the demoted history and reports its notes; every result demoted is told in full by the text in its place |
| Sanitizer.DropUnanswered | backend/ir/sanitize.go:242-266 | the history without unanswered calls, also when the code leaves it alone because nothing was noted |
| Sanitizer.InsertionSort | backend/ir/sanitize.go:455-469 | the hand-written insertion sort sorts the array in place and permutes it |
| Sanitizer.SortByBlockIndex | backend/ir/sanitize.go:455-461 | a permutation of the ids in the order of their calls |
| Sanitizer.SortedIsCallOrder | backend/ir/sanitize.go:276-324 | ids gathered from a map in any order, sorted, are the call order of the message |
| Sanitizer.PullResults | backend/ir/sanitize.go:276-324 | every answered result leaves its message and is on record under its id |
| Sanitizer.InsertGroups | backend/ir/sanitize.go:353-382 | inserting back to front, with positions shifting, gives the layout in which each group follows its own message |
| Sanitizer.ReorderResults | backend/ir/sanitize.go:276-382 | the reordered history, and a note exactly when the layout changed |
| Sanitizer.RepairPairing | backend/ir/sanitize.go:130-142 | the four stages in place are pairTools of the specification, messages and notes |
| Sanitizer.TrimTrailingWhitespace | backend/ir/sanitize.go:419-436 | trims or drops the last text block, and says whether anything changed |
| Sanitizer.RepairEmpty | backend/ir/sanitize.go:388-415 | the pruned history with its notes |
| Sanitizer.MergeAdjacentRoles | backend/ir/sanitize.go:62-94 | the merged history, and how many messages it lost |
| Sanitizer.Sanitize | backend/ir/sanitize.go:17-43 | the whole repair in place: decode notes are taken over, and from every repairable history whose answered calls come from the assistant an acceptable one results; whatever the history, each result survives unchanged or is told in full by a text, and nothing that was said is lost but white space |
| ToolDecl.SanitizeNameIsProjection | backend/ir/tooldecl.go:66-95 | a sanitized name is legal and at most 64 bytes, legal names are fixed points, the rewrite is idempotent |
| ToolDecl.GovernedDeclarations | backend/ir/tooldecl.go:25-63 | declared names end up legal and pairwise distinct, every non-blank declared name still resolves, and one rename pass is enough |
| ToolDecl.ReferencesFollow | backend/ir/tooldecl.go:102-122 | every recorded call and named choice that referred to a declared tool still does |
| ToolDecl.NoNotesNoChange | backend/ir/tooldecl.go:25-63 | nothing is rewritten without a note |
| ToolDecl.SilentExactlyWhenSound | backend/ir/tooldecl.go:25-63 | nothing is noted if and only if every name is legal, none blank and none declared twice |
| ToolDecl.FirstDeclarationsStay | backend/ir/tooldecl.go:25-63 | of each name the first declaration is kept, in order and whole but for its name, and no other |
| ToolDecl.SanitizedReads | backend/ir/tooldecl.go:66-95 | character by character: legal ones stand where they stood, any other becomes an underscore, up to the limit or the digest of an overlong name |
| ToolDecl.LongNamesStayApart | backend/ir/tooldecl.go:66-84 | two overlong names stay apart as long as their digests differ |
| ToolDecl.GovernToolDecls | backend/ir/tooldecl.go:25-63 | declarations, history and choice of the request follow the governed declarations |
| ToolDecl.ApplyToolRenames | backend/ir/tooldecl.go:102-122 | one pass over the choice and all recorded calls |
| Aggregate.DedupeKeepsFirst | backend/ir/citation.go:55-74 | each source once, none lost, and unchanged if and only if the citations already differ |
| Aggregate.SeedIsAdopted | backend/ir/aggregate.go:287-313 | what a block starts with survives seeding if and only if it is not the free text of a custom call |
| Aggregate.BuildersRefineSimple | backend/ir/aggregate.go:97-350 | over all event sequences, gates tripped or not and with looks in between, the builder-backed aggregator agrees with the one that appends each delta at once on receipts, order, accounting and every block but those whose last start brought arguments that seeding does not keep; without such a start, on the whole response |
| Aggregate.MaterializeIsIdempotent | backend/ir/aggregate.go:325-350 | materializing in between changes neither the state it leaves nor the response |
| Aggregate.BlocksAreIndependent | backend/ir/aggregate.go:97-264 | adjacent events of two started blocks commute when no gate trips |
| Aggregate.AddStaysBounded | backend/ir/aggregate.go:71-94 | no event breaks the accounting: builder bytes at most counted bytes at most the limit; order duplicate-free, matching the blocks, and bounded |
| Aggregate.RunsAreBounded | backend/ir/aggregate.go:71-350 | so it holds in every run |
| Reported.ResponseSaysWhatWasReported | backend/ir/response.go:97-150 | after any run: each counting dimension is the last positive value reported or 0, cache counts are the largest reported, the split by time to live is that of the last report that knew it, texts, times and optional parts are the last given, metadata keys their last value, and the stop reason is the last given unless calls were made |
| Contents.BlocksHoldWhatWasHeard | backend/ir/aggregate.go:97-350 | as long as no gate trips, each block is what its last start brought along, each of its slots followed by exactly the deltas for that slot, in order; anything else about it is as it started |
| Contents.GatesTripExactlyWhenFull | backend/ir/aggregate.go:71-94 | a gate trips if and only if the content heard exceeds the limit or the blocks their number; until then the count is the length of what was heard and the blocks stand in order of arrival |
| Contents.ContentIsWhatWasHeard | backend/ir/aggregate.go:443-472 | the content of the response: the blocks in order of arrival, each as it was heard |
| Unfinished.UnsafeExactlyWhenLeft | backend/ir/aggregate.go:376-441 | a stream is unsafe to close exactly for the calls whose arguments came in pieces and do not parse, and for reasoning with text, no signature and no stop, each under its own label |
| Unfinished.OpenExactlyWhenUnstopped | backend/ir/aggregate.go:423-430 | some block is open if and only if one was heard of and never stopped |
| Collector.Aggregator.Admit | backend/ir/aggregate.go:71-82 | bytes are counted or the gate trips for good |
| Collector.Aggregator.AddEvent | backend/ir/aggregate.go:97-281 | each event does to the object what the specification says; over a run that is `Reported.ResponseSaysWhatWasReported` and `Contents.BlocksHoldWhatWasHeard` |
| Collector.Aggregator.Seed | backend/ir/aggregate.go:287-313 | builders are seeded when the content is admitted |
| Collector.Aggregator.MaterializeBlocks | backend/ir/aggregate.go:325-350 | every builder is written back onto its block |
| Collector.Aggregator.IncompleteTools | backend/ir/aggregate.go:376-393 | the calls whose arguments came in pieces and do not parse, in order |
| Collector.Aggregator.UnsafeToClose | backend/ir/aggregate.go:401-420 | those calls, and reasoning under way without a signature |
| Collector.Aggregator.HasOpenBlocks | backend/ir/aggregate.go:423-430 | true if and only if a started block was not stopped |
| Collector.Aggregator.BuildResponse | backend/ir/aggregate.go:443-472 | the response collected so far, with every builder written back; what it says of the events is `Reported.ResponseSaysWhatWasReported` and `Contents.ContentIsWhatWasHeard` |
| Replay.Split | backend/ir/replay.go:50-121 | the block without its content, and the content as deltas |
| Replay.Project | backend/ir/replay.go:12-47 | the events of the whole response |
| Replay.BlockReplayed | backend/ir/replay.go:41-121 | a replayed block passes the gates if and only if it fits, and then the aggregator holds it whole |
| Replay.ReplayThenAggregate | backend/ir/aggregate.go:97-264 | replaying and aggregating any response overflows if and only if it exceeds the gates, and otherwise rebuilds it up to repeated citations, projected arguments, arguments outside the slot of their block's kind, normal usage and the stop reason |
| Replay.RoundTripExactlyWhenFaithful | backend/ir/replay.go:12-121 | for every response within the gates the round trip is the identity if and only if the response is faithful |
| Replay.TypedIsFaithful | backend/ir/replay.go:50-121 | a block with arguments in the slot of its kind only is faithful if and only if its citations differ and sit on prose, and a custom call's arguments are the projection of its text |
| Replay.ReplayIsUnsafeOnlyWhenMalformed | backend/ir/aggregate.go:401-420 | any response within the gates, replayed, is taken for a broken stream if and only if a call's arguments do not parse |
| ReplayStream.ReplayStreamsCompletely | backend/codec/anthropic/encode_stream.go:234-483 | a replayed response gives a complete client stream if and only if it holds no redacted reasoning that lost its ciphertext yet carries text or a usable signature |
| AnthropicStream.StreamEncoder.EncodeEvent | backend/codec/anthropic/encode_stream.go:234-483 | frames, failure and new state for each event; what the client reads over a whole stream is `AnthropicWords.TextsArrive`, `AnthropicSignals.EndIsTold` and `AnthropicBlocks.BlocksOpenAsStarted` |
| AnthropicStream.StreamEncoder.EncodeBlockStart | backend/codec/anthropic/encode_stream.go:234-359 | which blocks open, which are skipped, which are refused |
| AnthropicStream.StreamEncoder.EncodeDelta | backend/codec/anthropic/encode_stream.go:546-590 | a delta, opening message and block if need be |
| AnthropicStream.StreamEncoder.CloseFrames | backend/codec/anthropic/encode_stream.go:646-667 | the frames that close one block, padding absent arguments |
| AnthropicStream.StreamEncoder.CloseAllFrames | backend/codec/anthropic/encode_stream.go:632-641 | the frames that close whatever is open |
| AnthropicStream.StreamEncoder.FinishStream | backend/codec/anthropic/encode_stream.go:688-697 | the frames that end a stream wherever it stopped |
| AnthropicGrammar.StepFollows | backend/codec/anthropic/encode_stream.go:234-667 | an event leaves encoder and client in step if and only if it is admissible |
| AnthropicGrammar.EveryStreamIsCompleted | backend/codec/anthropic/encode_stream.go:688-697 | any admissible prefix plus Finish is a complete word: one message_start first, blocks started and stopped once, deltas inside, one message_delta, message_stop last; or an error last |
| AnthropicGrammar.CompletedExactlyWhenAdmissible | backend/codec/anthropic/encode_stream.go:234-697 | without error events, the stream is complete if and only if every event was admissible |
| AnthropicGrammar.ReasoningWithoutPayload | backend/codec/anthropic/encode_stream.go:559-592 | reasoning whose block started without a payload, as from the Chat decoder, makes every stream it begins incomplete |
| AnthropicGrammar.RefusedAtOnce | backend/codec/anthropic/encode_stream.go:545-555 | a stream that begins with a block the encoder refuses is incomplete |
| AnthropicGrammar.ErrorIsFinal | backend/codec/anthropic/encode_stream.go:455-483 | after an error only block closes and the error frame come out, and then nothing, not even from Finish |
| AnthropicToolArgs.ToolArgumentsArrive | backend/codec/anthropic/encode_stream.go:646-667 | the partial JSON of a tool block concatenates to the inputs that arrived, or to an empty object when none did, wherever the stream breaks off |
| AnthropicWords.WordsArrive | backend/codec/anthropic/encode_stream.go:361-400 | for every stream of events, well formed or not: up to an error, every text, every piece of reasoning and every signature that is not foreign reaches the client once, under its index, in order of arrival, and no other word does |
| AnthropicWords.TextsArrive | backend/codec/anthropic/encode_stream.go:361-400 | for each block the client assembles exactly the concatenation of the texts, of the reasoning and of the own signatures heard for it, each in its own slot |
| AnthropicSignals.MessageOpensOnce | backend/codec/anthropic/encode_stream.go:485-555 | the message opens once, with the upstream's id and model if its own opening comes first and under a stand-in otherwise; not at all if the first event that calls for it cannot be written |
| AnthropicSignals.EndIsTold | backend/codec/anthropic/encode_stream.go:420-483 | every stop reason, ping and error reaches the client once and in order, a stream without a reason gets one, and one that breaks off ends as if it had been stopped |
| AnthropicSignals.StopReasonsReadBack | backend/codec/anthropic/decode_stream.go:381-442 | a stop reason survives the wire if and only if the protocol has one for it; the others still read as an incomplete answer |
| AnthropicBlocks.BlocksReadBack | backend/codec/anthropic/encode_request.go:234-470 | a block opens under the type it is read back as; it is refused exactly when its payload is absent, passed over exactly when it says nothing |
| AnthropicBlocks.BlocksOpenAsStarted | backend/codec/anthropic/encode_stream.go:234-359 | the blocks that open for the client are the starts that can be written, under their index and type, and one block of text for a text that belongs to none that is open |
| AnthropicBlocks.BlocksStopInOrder | backend/codec/anthropic/encode_stream.go:627-667 | the end of the message stops every open block once, in the order of opening; a block's own stop stops just that block; nothing else stops any |
| AnthropicBlocks.CitationsArrive | backend/codec/anthropic/citation.go:110-137 | citations for an open block reach the client, one frame each and in order, resolved against all the text heard for that block; those that cannot be resolved do not, and no other event shows any |
| GeminiStream.StreamDecoder.AddPart | backend/codec/gemini/decode_stream.go:288-365 | the events of one part |
| GeminiStream.StreamDecoder.AddCall | backend/codec/gemini/decode_stream.go:573-611 | a function call as a block of its own |
| GeminiStream.StreamDecoder.Switch | backend/codec/gemini/decode_stream.go:545-570 | the block of the given kind is open, the previous one closed |
| GeminiStream.StreamDecoder.Classify | backend/codec/gemini/decode_stream.go:398-419 | the delta is what the text adds to the running text |
| GeminiStream.StreamDecoder.Feed | backend/codec/gemini/decode_stream.go:174-286 | the events of one frame |
| GeminiStream.StreamDecoder.FinishStream | backend/codec/gemini/decode_stream.go:615-629 | the terminators |
| GeminiGrammar.StreamsAreBracketed | backend/codec/gemini/decode_stream.go:174-365 | for all frames of which one is no error, the events are one message with blocks 0, 1, 2, ... one after the other, deltas inside blocks of their kind, terminators last |
| GeminiGrammar.RunningIsLongest | backend/codec/gemini/decode_stream.go:398-419 | for prefix-comparable texts the running text is the longest |
| GeminiGrammar.TextArrivesOnce | backend/codec/gemini/decode_stream.go:398-419 | the text deltas concatenate to the running text, hence to the longest version when the upstream resends |
| GeminiGrammar.GeminiReachesTheClient | backend/codec/anthropic/encode_stream.go:234-697 | any prefix of a decoded Gemini stream, encoded for Anthropic, is a complete client stream |
| GeminiVoices.EveryPartIsHandedOn | backend/codec/gemini/decode_stream.go:288-365 | reasoning, signatures, calls with their arguments and citations are handed on as the first candidates gave them: all, in order, once, and nothing besides |
| GeminiVoices.OnlyNulsGo | backend/codec/gemini/decode_stream.go:369-390 | stripping takes out the NUL characters and nothing else |
| GeminiVoices.PiecesAreJoined | backend/codec/gemini/decode_stream.go:398-419 | an upstream that sends its text in pieces has them joined, each once and whole |
| GeminiMessage.TextReachesTheClient | backend/codec/gemini/decode_stream.go:398-419 | from the upstream's frames to an Anthropic client: it reads the running text up to the first error, that is the longest version, once, of a text that is resent, and the pieces joined otherwise |
| GeminiMessage.MessageOpensAndEnds | backend/codec/gemini/decode_stream.go:174-286 | the message opens once, with id and model of the first response, and ends once, with the last reason and the last service tier told; `tool_use` when calls were made and the reason is a normal end |
| GeminiMessage.UsageIsWhatWasReported | backend/codec/gemini/decode_stream.go:174-286 | the usage of the end is absent exactly when none was reported, and otherwise adds up all reports as `Reported` says |
| ChatSlots.ToolDecoder.FindSlot | backend/codec/chatcompletions/decode_stream.go:323-404 | which slot a fragment belongs to, and when it is refused |
| ChatSlots.ToolDecoder.AnnounceSlot | backend/codec/chatcompletions/decode_stream.go:408-437 | the block start of a named slot, with what was held back |
| ChatSlots.ToolDecoder.TakeFragment | backend/codec/chatcompletions/decode_stream.go:323-404 | the events of one fragment |
| ChatSlots.ToolDecoder.DecodeToolCalls | backend/codec/chatcompletions/decode_stream.go:323-404 | the events of all fragments, or none when one of them is refused |
| ChatSlots.TakeKeeps | backend/codec/chatcompletions/decode_stream.go:323-431 | ids and slots stay one to one, and what is settled stays settled |
| ChatSlots.IdsDecideBlocks | backend/codec/chatcompletions/decode_stream.go:323-404 | over any run two fragments with ids reach the same block if and only if the ids are equal, and an id once set stays |
| ChatSlots.RunOfTheDecoder | backend/codec/chatcompletions/decode_stream.go:323-404 | what a run of deltas hands out, and the state it leaves, are those of one decoder call after the other |
| ChatSlots.NothingIsLostOrRepeated | backend/codec/chatcompletions/decode_stream.go:323-431 | over any run of deltas a named block was opened once and its deltas concatenate to exactly the fragments routed to it, if and only if no refused delta kept back any of it, and what is missing is what those kept back; an unnamed block holds all of its input back |
| ChatSlots.NothingIsLostUntilRefused | backend/codec/chatcompletions/decode_stream.go:323-431 | as long as every fragment finds its slot or fewer indices than the limit are in use, nothing is lost or repeated |
| ChatSlots.FewAreNeverRefused | backend/codec/chatcompletions/decode_stream.go:358-362 | that is so for every upstream that names fewer indices than the limit |
| ChatSlots.RefusedMore | backend/codec/chatcompletions/decode_stream.go:354-362 | a delta is refused if and only if one of its fragments needs a new slot while all indices are in use |
| ChatSlots.RefusalLoses | backend/codec/chatcompletions/decode_stream.go:358-362 | a run in which the opening of a call is lost with a refused delta |
| ChatSlots.InputFollowsOpening | backend/codec/chatcompletions/decode_stream.go:408-431 | over any run of deltas no input precedes the start of its block, if and only if no block whose start a refused delta kept back gets input later |
| ChatSlots.InputFollowsUntilRefused | backend/codec/chatcompletions/decode_stream.go:323-431 | up to the first refused delta, with which the stream is given up, no input precedes the start of its block, and that delta hands out nothing |
| ChatSlots.IndicesWithinLimit | backend/codec/chatcompletions/decode_stream.go:334-365 | over every run the indices in use stay within the limit if and only if no known id comes under an unused index once the limit is reached |
| ChatSlots.CallsWithinLimit | backend/codec/chatcompletions/decode_stream.go:334-365 | over every run the calls stay within the limit if and only if no new call comes while that many are known and fewer indices are in use |
| ChatSlots.SlotsWithinIndices | backend/codec/chatcompletions/decode_stream.go:349-365 | as long as no index is reused for another id, calls are at most as many as indices, and within the limit |
| ChatSlots.AliasesEvadeTheLimit | backend/codec/chatcompletions/decode_stream.go:334-346 | a run from the start that takes one index more than the limit |
| ChatSlots.ReuseEvadesTheLimit | backend/codec/chatcompletions/decode_stream.go:349-365 | a run in which any number of distinct calls share one index |
| ChatCalls.FragmentsFindTheirCall | backend/codec/chatcompletions/decode_stream.go:323-406 | over any run, told from the ids and numbers seen before: a fragment goes with its id wherever that was seen, else to the holder of its number unless that goes by another id; without either it opens the next block, or is refused exactly when 4096 numbers are in use |
| ChatCalls.CallsOpenAsTold | backend/codec/chatcompletions/decode_stream.go:366-431 | over any run, what each fragment makes the client hear: the opening with the first fragment at which its call has a name, under the id its fragments gave or one made up, the last name given, and as custom if any of them was, with all the input so far; input as it comes after that |
| Outbox.BackoffGrows | backend/outbox/outbox.go:154-164 | two seconds after the first failure, doubling, capped from the ninth on |
| Outbox.ApplyKeeps | backend/store/outbox.go:48-188 | every step of every actor keeps the invariant that ties rows, tokens, claims and history together |
| Outbox.DeadAfterExactlyMaxFailures | backend/store/outbox.go:127-188 | in every run a pending row has failed less than the maximum, a dead one exactly the maximum since it was enqueued or revived |
| Outbox.RunsAreSafe | backend/store/outbox.go:48-188 | in every run no claim is settled twice, no dead row is claimed, and an accepted report stays until a sending of it succeeded |
| Outbox.OnlyTheLatestClaimCounts | backend/store/outbox.go:115-167 | a verdict changes the table only if its claim is the latest of its row, then that row alone and by one failure |
| Outbox.HiddenOnlyForTheLease | backend/store/outbox.go:78-114 | after a crash a row that is not dead can be claimed again once lease and delay have passed; that it cannot before is `Leases.LeasesExclude` and `Leases.DelaysAreKept` |
| Leases.ClaimsAreOfFreeRows | backend/store/outbox.go:64-110 | in every run, whatever step hands out a claim at a given time finds the row due by then and under no lease that is still running |
| Leases.LeasesExclude | backend/store/outbox.go:64-110 | in every run, two claims of one row with no failure, removal or revival of it between them lie at least the first one's lease apart |
| Leases.DelaysAreKept | backend/store/outbox.go:78-151 | in every run a failed row is not claimed before the time its failure set, unless it failed again or was revived in between |
| Leases.FailuresAreRescheduled | backend/outbox/outbox.go:108-164 | the time a failure sets: the delay for that many failures counted from when it is written down, or the end of time at the maximum |
| OutboxWorker.Queue.Enqueue | backend/store/outbox.go:48-59 | a new row, or nothing for a report already there |
| OutboxWorker.Queue.Due | backend/store/outbox.go:78-114 | claims the earliest rows that are due and under no running lease (`Leases.ClaimsAreOfFreeRows`), under fresh tokens, until the lease is over, and returns them |
| OutboxWorker.Queue.Done | backend/store/outbox.go:120-124 | deletes the row if and only if the token still matches |
| OutboxWorker.Queue.Retry | backend/store/outbox.go:127-151 | one more failure and a later date, if the token still matches |
| OutboxWorker.Queue.Bury | backend/store/outbox.go:159-167 | one more failure and the dead date, if the token still matches |
| OutboxWorker.Queue.Revive | backend/store/outbox.go:175-188 | the row starts over, and its lease is void |
| OutboxWorker.SendOrQueue | backend/outbox/outbox.go:54-78 | a report is sent, or held by the queue, or lost, and lost exactly when both sending and enqueueing failed; when only the store's answer got lost, the report is held all the same |
| OutboxWorker.TryClaimBatch | backend/outbox/outbox.go:95-106 | a claim the store refuses changes nothing, and one whose answer is lost leaves its rows to their leases |
| OutboxWorker.WriteVerdict | backend/outbox/outbox.go:95-137 | success deletes, failure retries or buries at the limit, and a statement the store refuses leaves the row to its lease: one protocol step each |
| OutboxWorker.Drain | backend/outbox/outbox.go:95-137 | a round of a worker claims the earliest due rows, and then does to its own claims just this, one after the other until it is told to stop: send, and write down what came of it, unless the store refuses that. It is a sequence of protocol steps interleaved with those of others, whichever of its statements fail, keeps the invariant, and returns the number of sendings that worked |
| Sse.ByteSource.ReadSlice | backend/codec/sse.go:131-154 | what the buffered reader hands out: a line, a full buffer, or the rest |
| Sse.FrameScanner.ReadOneLine | backend/codec/sse.go:131-154 | the line read does not depend on how the buffer cuts the input |
| Sse.FrameScanner.ScanFrame | backend/codec/sse.go:43-102 | the next frame, or why there is none |
| Sse.EncodeFrame | backend/codec/sse.go:315-329 | the bytes of a frame |
| Sse.ScannedIsCanonical | backend/codec/sse.go:43-102 | every scanned frame is canonical |
| Sse.ReadBackExactly | backend/codec/sse.go:315-329 | a written frame is read back as it was, whatever follows, if and only if it is canonical and within the limits |
| Sse.StreamReadBack | backend/codec/sse.go:43-164 | any number of such frames with keep-alives between them is read back exactly, and the stream ends cleanly |
| Sse.RewriteIsStable | backend/codec/sse.go:43-102 | reading, writing and reading again finds the same frame |
| Sse.LargestFrameIsRefused | backend/codec/sse.go:122-154 | a one-line frame of the largest admitted size is refused |
| Sse.LinesReadOneWay | backend/codec/sse.go:158-174 | a line reads in one way: a comment, a name alone, or a name and a value of which one leading space, if there is one, does not count |
| Sse.LinesAreRead | backend/codec/sse.go:43-106 | whatever lines stand ahead of a blank one, with or without that space: the frame has the last event named and the data values one below the other; comments and unknown fields count for nothing |
| Sse.LineEndsAreDropped | backend/codec/sse.go:131-154 | a line is read without its end, be it a line feed or a carriage return and one |
| Bridging.AttemptIsFair | backend/pipeline/bridge.go:28-278 | for every script of an attempt: a retryable end left nothing with the client, a late failure a beginning of what was heard with no terminator and no closing frames, success everything in order with the terminators last; and success takes a stream that concluded, without error, within the limits, with nothing broken |
| Bridging.SucceedsExactlyWhenComplete | backend/pipeline/bridge.go:191-278 | with a client that stays, that is also all it takes, and the client gets it all |
| Bridging.PutEventsShow | backend/pipeline/bridge.go:280-311 | the tail gets through whole and in order, or a beginning of it and the client has left |
| Bridging.TakeEventsKeep | backend/pipeline/bridge.go:127-176 | while frames are read, the client has exactly the encodable non-terminators heard, the terminators are held back, and the collected state is that of the events heard |
| Verdicts.AttemptsEndByTheirScript | backend/pipeline/bridge.go:28-353 | for every script of an attempt the error, the commitment and the outcome it ends with: our own size limit first, then our budget, then the client, then what the upstream complained of, then how it broke off |
| Verdicts.CutExactlyWhenShort | backend/pipeline/bridge.go:236-262 | a stream is said to have run out of tokens if and only if some block never stopped, no call was made and no reason to stop was told |
| Verdicts.WrittenInTurn | backend/pipeline/bridge.go:280-462 | each piece of the body took a write of its own, in turn, and nothing is tried after the first write that fails |
| Serving.Session.WriteSuccess | backend/pipeline/bridge.go:280-311 | the response of a successful attempt, streamed or whole |
| Serving.Session.Finish | backend/pipeline/bridge.go:191-278 | what the client gets at the end, and how the attempt counts |
| Serving.Session.ReadEvent | backend/pipeline/bridge.go:127-176 | the first event commits and sends the header, the gate is checked after that, terminators are held back |
| Serving.Session.Bridge | backend/pipeline/bridge.go:28-187 | the loop does to the response what the specification says |
| Serving.Session.TearDown | backend/pipeline/budget.go:33-64 | one decision on who broke the stream off: budget, client, then upstream |
| Serving.Session.Run | backend/pipeline/pipeline.go:415-476 | one attempt, and the time it spent with the upstream |
| Serving.Session.Record | backend/pipeline/pipeline.go:516-638 | the attempt is entered in the books and its report queued without blocking, whatever the consumer has taken by then |
| Serving.Session.Consume | backend/pipeline/pipeline.go:600-619 | the consumer beside the request takes the oldest reports, in order; none is lost or repeated |
| Serving.Session.Settle | backend/pipeline/pipeline.go:339-405 | the request is over unless the failure was uncommitted, retryable and free of side-effect risk and the limit is not reached; a failure that ends it is answered with its error |
| Serving.Session.AttemptOnce | backend/pipeline/pipeline.go:253-405 | one turn of the loop: over if and only if the attempt may not be retried |
| Serving.Session.Serve | backend/pipeline/pipeline.go:253-405 | attempts made, response and books are the specified ones; reports are delivered before the end; dispatch and upstream time add up to at most the latency |
| Serving.Session.Close | backend/pipeline/pipeline.go:632-638 | what is still queued is delivered, in order, before the end |
| Serving.ServedMeans | backend/pipeline/pipeline.go:253-405 | for every request: every attempt but the last ended in an error that was uncommitted, retryable and without side-effect risk, and below the limit the last one did not; the header goes out once, unless the client left first; everything the client has comes from the last attempt |
| Serving.ServedDelivers | backend/pipeline/bridge.go:191-311 | if the last attempt succeeded, the client was given all it heard |
| Serving.BooksAddUp | backend/pipeline/pipeline.go:516-581 | each dispatch names exactly the models tried before, in order; times are the sums over the trail; one report per attempt with a target |
| Serving.TrailAt | backend/pipeline/pipeline.go:516-565 | one entry per attempt, numbered from 1 |
| Serving.TriedWhileSafeOnce | backend/pipeline/pipeline.go:339-405 | there is only one number of attempts of that kind |
| Serving.AnsweredAnyway | backend/pipeline/pipeline.go:339-405 | a request that ends before anything was committed is answered with its error, unless the client left; any other leaves the client what its last attempt wrote |
| Serving.TrailTells | backend/pipeline/pipeline.go:383-405 | the trail gives every attempt its model and what it came to, in order; only a last one that might have been tried again is called abnormal instead of retrying |
| Serving.TrailTimes | backend/pipeline/pipeline.go:744-750 | times are whole milliseconds, rounded down, around the calls, and none for what was never sent |
| Delivery.FailureNeverLooksComplete | backend/pipeline/bridge.go:191-353 | frame by frame: after an attempt that failed, in whatever way, an Anthropic client never has a complete message |
| Delivery.CompleteExactlyWhen | backend/pipeline/bridge.go:191-311 | a client that has not left reads a complete message if and only if the attempt succeeded, every event before the terminators was admissible, and no message_delta follows another terminator |
| Delivery.StayingReadsExactly | backend/pipeline/bridge.go:28-311 | for a client that stays to the end the script alone decides: no error on the way to the stream, a clean conclusion within the limits, nothing broken, admissible events, one message_delta in front |
| Delivery.ServedComplete | backend/pipeline/pipeline.go:253-405 | the same for the whole request with its retries: a complete message only from a request that succeeded |
| Delivery.ServedToStaying | backend/pipeline/pipeline.go:253-405 | for a client that stays, if and only if the last attempt got a target and its stream is such a one |
| Delivery.WhenOneDelta | backend/pipeline/bridge.go:249-256 | a second message_delta is written if and only if the upstream sent one, or a terminator of its own came with a block open and no stop reason |
| Delivery.SecondDelta | backend/codec/anthropic/decode_stream.go:236-244 | an Anthropic stream cut inside a text: the attempt succeeds and the client does not read a complete message |
| Delivery.BrokenOff | backend/pipeline/bridge.go:249-256 | whatever came before, a stream closed by message_stop alone that gets through the bridge is read as complete if and only if its events were admissible and no block was under way, or a tool call was |
| Delivery.GeminiServed | backend/pipeline/upstream.go:476-506 | with a Gemini upstream, a client that stays reads a complete message if and only if the last attempt got its stream, which concluded cleanly, within the limits, and left nothing broken |
| Delivery.ReplayServed | backend/pipeline/upstream.go:464-470 | with an upstream that answers with a whole response, if and only if the response is within the limits, every call's arguments parse, and no redacted reasoning lost its ciphertext with text or a usable signature left |
| UsageCodec.ChatReportsEveryLoss | backend/codec/lossy.go:2493-2533 | the round trip is the identity if and only if neither loss report says anything |
| UsageCodec.ChatInputIsFresh | backend/codec/chatcompletions/decode_stream.go:723-767 | input never negative; input and cache reads make up the prompt total exactly when the reads do not exceed it |
| UsageCodec.AnthropicReportsEveryLoss | backend/codec/lossy.go:2429-2533 | the round trip is the identity if and only if nothing is reported and a zero write total has zero parts |
| UsageCodec.WhatComesBack | backend/codec/chatcompletions/decode_stream.go:723-807 | what comes back of any usage without negative counts, rendered for either family and read again: only the dimensions the family lacks are lost |
| UsageCodec.ChatSources | backend/codec/chatcompletions/decode_stream.go:723-767 | which wire field each number comes from: cache reads from the details, then the hits, then the other family's name, cache writes likewise, all others from one place |
| UsageCodec.AnthropicSources | backend/codec/anthropic/decode_stream.go:308-346 | the same for Anthropic, where only the write total may have to be added up |
| UsageCodec.LossesAreNamed | backend/codec/lossy.go:2429-2533 | a dimension is reported lost if and only if it is in use and at home in another family |
| Paramover.ApplyDefaults | backend/paramover/paramover.go:125-139 | the recursive fill of gaps, in place |
| Paramover.ApplyOverrides | backend/paramover/paramover.go:142-157 | the recursive override, in place |
| Paramover.ApplyLayers | backend/paramover/paramover.go:28-102 | both layers, null read as an empty one, reserved keys taken out of the overrides first |
| Paramover.DefaultsAreOverridesReversed | backend/paramover/paramover.go:125-157 | filling gaps is overriding the other way round |
| Paramover.DefaultsIdempotent | backend/paramover/paramover.go:125-139 | filling twice is filling once |
| Paramover.OverridesIdempotent | backend/paramover/paramover.go:142-157 | overriding twice is overriding once |
| Paramover.TwiceIsOnceExactly | backend/paramover/paramover.go:28-61 | for every body and both layers, applying them twice is applying them once if and only if no unreserved override presses an object onto a plain value where a default adds to that object |
| Paramover.LayersAt | backend/paramover/paramover.go:28-61 | path by path: plain overrides at non-reserved keys win, untouched paths stay, reserved keys never depend on overrides |
| Paramover.LayersApply | backend/paramover/paramover.go:28-102 | either layer alone, both or none: the body pressed through the defaults, so that it keeps all it has, then pressed by the overrides without the four reserved keys; it fails exactly when a layer or, with a layer, the body is no object |
| Paramover.PressedOnce | backend/paramover/paramover.go:142-157 | path by path, pressing through has one result only |
| Paramover.IgnoredKeys | backend/paramover/paramover.go:87-102 | a key is reported ignored if and only if it is reserved and overridden, and then neither another override there nor none would have changed the body |
| Paramover.ApplyIsNotIdempotent | backend/paramover/paramover.go:28-61 | an input on which applying both layers twice differs |
| Shape.DropServerTools | backend/codec/shape.go:226-242 | server tools the protocol cannot run are gone |
| Shape.AllowlistNarrow | backend/ir/types.go:619-643 | the allowed tools, or all of them when none is allowed |
| ShapeLaws.ToolsOffered | backend/codec/shape.go:203-242 | the tools offered, in their order: server tools exactly when the protocol runs them, others unless the allow-list is in force and leaves them out; it is in force for the modes auto and any, if it names a tool that is there |
| Shape.ShapeToolChoice | backend/codec/shape.go:312-335 | the choice that fits the remaining tools |
| Shape.ShapeTools | backend/codec/shape.go:175-290 | tools after both filters with their schemas normalized, and the choice that fits them |
| Shape.MoveToolResultMedia | backend/codec/shape.go:83-116 | media leave the tool results, in place, for a user message behind their own |
| Shape.MediaMove | backend/codec/toolmedia.go:21-43 | after the move no tool result holds a medium, and every block is still there once |
| ShapeLaws.MediaFollow | backend/codec/shape.go:83-116 | every message stays in its turn, loses the media of its results and nothing else, and is followed by one user turn with just these, in order, if there are any |
| Shape.ShapeSystem | backend/codec/shape.go:487-538 | empty text blocks go, and where the protocol wants one text the rest is folded into it with the last mark |
| ShapeLaws.PromptSays | backend/codec/shape.go:487-538 | a prompt in blocks loses its blank ones; a prompt in one text says what its blocks say, in order with an empty line between, under the last of their marks, and is absent when they say nothing |
| Shape.ShapeParams | backend/codec/shape.go:386-480 | reasoning, sampling and stop sequences after their mutual constraints |
| ShapeLaws.SamplingIsNearest | backend/codec/shape.go:436-472 | unless reasoning in force excludes sampling, the temperature is the value in range nearest to the client's, and the other parameter the client's own |
| ShapeLaws.ReasoningStays | backend/codec/shape.go:386-434 | reasoning in force is dropped exactly when the limit has no room for the least budget or a tool is forced where that excludes it; otherwise its budget is the largest below the limit that does not exceed the client's, and nothing else of it changes |
| ShapeLaws.StopsAreTheFirst | backend/codec/shape.go:474-480 | the stop sequences are as many of the client's first ones as the protocol takes |
| ShapeLaws.BudgetIsTheShare | backend/codec/anthropic/encode_request.go:213-232 | the budget for an effort level is the largest whole one within two, five or eight tenths of the limit, but at least 1024, and below the limit all the same |
| Shape.BudgetCache | backend/codec/shape.go:544-591 | marks are cleared in place, from the front, and nothing else changes |
| Shape.ClearedKeepsLater | backend/codec/shape.go:544-559 | the marks that survive are exactly the later ones |
| ShapeLaws.MarksCounted | backend/codec/shape.go:564-591 | the marks counted are those of the tools, the system prompt and the messages, those inside tool results included, in the order of the body |
| Shape.BlankBlocksDoNotCount | backend/codec/shape.go:487-591 | an empty system block, marked or not, costs no other block its mark |
| Shape.LayOut | backend/codec/shape.go:29-45 | all stages ahead of the budget for marks, in the order of the code; the result fits the protocol |
| Shape.ShapeRequest | backend/codec/shape.go:29-72 | for every request and protocol: tools, choice and parameters as specified, messages with media moved and ids within the limit, the system prompt shaped, and of the marks in that layout the last N, in tools-system-messages order; the result conforms to the protocol, as long as attachments are described at all |
| Shape.ConformsExactlyWhenLeftAlone | backend/codec/shape.go:29-72 | a request conforms to its protocol if and only if every stage of shaping but those of schemas and ids leaves it alone, the lifetime of a cleared mark excepted; so those stages together are idempotent |
| ToolIds.ShapeToolIds | backend/codec/shape_toolid.go:16-90 | calls and results follow the renames of overlong ids |
| ToolIds.NeverMerged | backend/codec/shape_toolid.go:16-68 | whatever the shortener does, two different ids never become one |
| ToolIds.ShapedIdsStayCanonical | backend/codec/shape_toolid.go:16-90 | a repaired history stays paired, under distinct non-empty ids |
| ToolIds.ShapedIdsFit | backend/codec/shape_toolid.go:60-68 | only ids beyond the limit are touched, and then they come within it |
| ToolIds.LongIdsAreShortened | backend/codec/shape_toolid.go:16-68 | the id of a call beyond the limit gives way to the first of its sixteen candidates that is nobody's id, old or new, and stays only when there is none or the shortener has nothing new before |
| ToolIds.CallsAndResultsAlike | backend/codec/shape_toolid.go:74-90 | one renaming serves calls and results alike |
| ToolIds.OnlyIdsChange | backend/codec/shape_toolid.go:16-90 | but for those ids the history is the same, and without a limit altogether |
| ShapedHistory.ShapingKeepsOrder | backend/codec/shape.go:29-45 | whatever the protocol, shaping keeps the calls of a paired history answered in order at the head of the next message, under distinct ids, and made by the assistant |
| ShapedHistory.RepairedThenShaped | backend/ir/sanitize.go:17-43 | so does repair followed by shaping, for every repairable history whose answered calls come from the assistant |
| Shape.ToolsAreFixed | backend/codec/shape.go:175-242 | filtering the tools twice is filtering them once |
| Shape.MirrorOnTheOriginal | backend/codec/shape.go:365-383 | before that it never says yes wrongly, and says no wrongly exactly when reasoning is on with room for its budget and the forced choice held against it is about to be dropped: no tool remains, or the named one is not among the remaining |
| Shape.MirrorIsWrong | backend/codec/shape.go:365-383 | a request on which it says no wrongly |

## Left out

General

- The wording of notes: a note is a value, and sequences of notes keep their order. Counters that only feed notes (`finishToolArgs`, dropped citations and the like) are not modelled.
- Aliasing: events share payloads with the aggregator, and layers share sub-objects, through Go pointers. The model copies values.
- 64-bit overflow of token counts and sizes.
- JSON text, SHA-256, synthesized ids and MIME sniffing are parameters (functions) with the facts needed about them; a failing marshaller is not modelled.
- HTTP transport, PostgreSQL, Redis, routing, health checks, the capture ring, the frontend, and the codecs not named above.

History repair

- The layout snapshot is compared as a structure, not as a string.
- `ResolveRange` and the citation counters: small readers without state.

Streams

- GeminiStream.StreamDecoder.Feed: one decoded document per call; splitting a line into several documents, citations' source data, finish-reason and usage conversion, and parts of unknown kind are not part of this model.
- ChatSlots.ToolDecoder.DecodeToolCalls: announcing nameless slots when the stream ends, and slots abandoned by index reuse at that point, are not part of this model; other deltas only take block indices.
- AnthropicStream.StreamEncoder.EncodeEvent: the table of foreign signature prefixes is a parameter, and the usage inside frames is not carried.

Outbox

- OutboxWorker.Queue.Due: the protocol of `Outbox` lets a claim take any due rows, which covers rows another worker has locked; the object claims the earliest ones. The stored error text, listing and counting, and the ticker are left out. Clock readings stay below the year 9999 by which dead rows are marked.

Retry loop

- Serving.Session.Serve: usage estimation, response headers, `Retry-After` and the time of heartbeats are left out; heartbeats come as inputs at any point. What one event encodes to is one piece of the body, and whether an event can be encoded does not depend on earlier ones; `Delivery` opens the pieces up for the Anthropic encoder, which is handed every event.
- Serving.Session.Consume: the consumer takes reports between the steps of the request, at any number each time; that a delivery takes time and may fail is `OutboxWorker.SendOrQueue`.
- Serving.Session.Bridge: the aggregator is used through the value it holds (`Aggregate.Add`), which `Collector.Aggregator` is proved to maintain.

Shaping and usage

- Shape.ShapeRequest: the JSON library, the normalizer of schema dialects, the shortener of ids and the text that stands for an attachment in a folded system prompt are parameters.
- Shape.BudgetForEffort: the product of limit and fraction is exact; the rounding of the floating-point product is not modelled.
- The usage of streaming `message_delta` frames.
