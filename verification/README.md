# Verified models of the provider layer and the agent loop

This project models five parts of the repository and proves what they promise.

1. **Streaming JSON recovery.** The string-aware repairer, the bracket completer and the truncation
   search that turn any cut-off tool-argument text into a value.  The main results: cut any text that
   reads, even one that reads only after repair, anywhere, and what is recovered is exactly what the
   reader holds at the cut, every open container closed, the string being read as far as it goes, and
   what cannot be completed dropped; and of an object every complete member is kept.  They rest on the
   agreement of four accounts of a text (repairer, two-flag scanner, completer, reader) about where
   strings begin and end and which brackets are open, and on what repairing a cut text shares with
   repairing the whole.
2. **Transcript repair and payload conversion.** Image downgrade, call-id renaming, made-up tool
   results, grouping and tool references, up to the protocol guarantee on the message list sent to
   Anthropic and Bedrock: every tool use is answered by the message right after it, and every deferred
   tool is loaded exactly once, before it is used.  The converse, every result answers a use of the message
   right before it, holds exactly when it does once the failed messages are taken out of the transcript.
   What the lists say is what the transcript says: texts, thoughts, images, calls and results, in order.
3. **The agent loop and its replica.** A bounded turn machine that keeps four copies of the transcript
   in step whatever the provider, the hooks, the tools and the queues do, and whose queues balance: what
   waited and what arrived is what was injected, what was lost and what is left, in order.  What a turn's
   calls come to is read off what each tool and hook does, and a cut-off answer runs none of them.
4. **Incremental decoders and stream processors.** Two byte decoders that do not depend on how the
   bytes are cut and read back what was written, the Google processor and the faux stream, whose event logs are well formed, and the
   proxy client, which rebuilds the answer from the wire form of any well-formed log.
5. **Timed and concurrent protocols.** Device-code polling, when it polls and how it ends, and the
   single-flight model refresh.

Code that updates state is a method or a class here, proved against a function; the lemmas are about
that function.  What the code cannot decide for itself (a provider's answers, hooks, tools, clocks, the
scheduler, a number grammar, a hash) is a parameter, and every result holds for every choice of it.

| file | part of the repository |
|---|---|
| `JsonRepair`, `JsonCompletion`, `JsonStreaming` | `json_repair.rs` |
| `JsonParser`, `JsonRender` | the JSON reader behind `serde_json`, and a writer as its partner |
| `JsonScanners`, `JsonCuts`, `JsonRecovery` | how the scanners agree, what repair makes of cut text, and what a recovery keeps |
| `JsonInterrupted`, `JsonDropped` | the exact recovery: where the cut text can be completed, and where its end is dropped |
| `Messages`, `MessageTransform` | `types.rs` (as far as needed), `message_transform.rs` |
| `DeferredTools`, `AnthropicMessages`, `BedrockMessages` | `deferred_tools.rs`, `anthropic.rs`, `bedrock.rs` |
| `MessageItems` | what a transcript or a message list says, item by item |
| `AgentEvents`, `AgentQueue`, `AgentTools` | `agent.rs`, the events and the tool batches of `agent_loop.rs` |
| `AgentCourse`, `AgentLedger`, `AgentLoop` | `agent_loop.rs`: what a run amounts to, its queues' books, and the loop itself |
| `AssistantStream`, `GoogleStream`, `FauxStream`, `ProxyClient` | `event_stream.rs`, `google_shared.rs`, `faux.rs`, `proxy.rs` |
| `Bytes`, `AwsEventStream`, `SseParser`, `SseWriting` | the two parsers of `http_api_provider.rs`, the body reader of `anthropic.rs`, and a writer of events as their partner |
| `DevicePolling` | `device_code.rs`, the simulator of `github_copilot_oauth.rs` |
| `ImagesRefresh`, `MistralToolCallIds` | `images_models.rs`, the id normalizer of `mistral.rs` |

## Where the code does less than one might expect

- `repair_json` lets `\u` without four hexadecimal digits pass, so repaired text may still be refused:
  `JsonCuts.BrokenEscapeIsRefused` is such a text, `JsonRepair.Clean` tolerates exactly that, and
  `RepairGivesLenientMeaning` says for every string when it matters.
- A failed assistant message is dropped, but the tool results that follow it stay (message_transform.rs:186-206),
  so a result may go out without its call.  `MessageTransform.FailedTurnLeavesItsResult` is such a transcript;
  `TransformLeavesNoOrphansWhen` says that none does if and only if none stands without its call in the prepared
  transcript less its failed messages, and the two protocol theorems carry this through to the message lists.
- A failure between turns is closed with one surplus turn end.  The log of a run has one if and only if
  `AgentCourse.FailsBetween` holds of its course: a hook or a poll after a finished turn failed, or the turns
  were used up.  `AgentLedger.FailingHookEndsTheTurnTwice` is such a run.
- What the queues gave after the last allowed turn is lost when the turn limit hits, and what was drained before
  a failing provider is lost with it.  `AgentLedger.Balances`, which every run ensures, has a place for what is
  lost; with providers that add nothing and do not fail, something is lost if and only if the limit was hit and
  the last poll took something.  `LimitLosesTheLastBatch` is such a run.
- A slow-down may shorten the polling interval; `WhenSlowDownsDoNotShorten` says exactly when it does not.
- The streaming event reader drops one carriage return at the end of a text, and the whole-body reader keeps it.
  That is a difference between payload texts (`BareCarriageReturnIsReadDifferently`), not between parsed values:
  reading JSON ignores a carriage return at the end (`JsonCuts.TrailingSpaceIsIgnored`), and for every reading
  that does the two agree on every text (`WhenTheReadersAgree`).

## Model

| member | source | states |
|---|---|---|
| JsonRepair.ParseHexQuad | crates/ri-llm-provider/src/json_repair.rs:19-27 | four digits are there when a value is, and it fits 16 bits |
| JsonRepair.SameQuad | crates/ri-llm-provider/src/json_repair.rs:19-27 | the value depends on the four characters only, not on where they stand |
| JsonRepair.ScannerTracksRepairer | crates/ri-llm-provider/src/json_repair.rs:37-123 | over repaired text the two-flag scanner ends in exactly the repairer's string state and never inside an escape |
| JsonRepair.ScannerAgreesOnRawText | crates/ri-llm-provider/src/json_repair.rs:37-123 | over the original text the scanner and the repairer agree about being inside a string |
| JsonRepair.RepairIsClean | crates/ri-llm-provider/src/json_repair.rs:37-123 | no string of the output holds a raw control character, an unknown escape or a lone surrogate escape |
| JsonRepair.RepairFixesExactlyCleanText | crates/ri-llm-provider/src/json_repair.rs:37-123 | the repairer leaves a text alone if and only if its strings already satisfy section 7 of RFC 8259 without lone surrogate escapes |
| JsonRepair.RepairIsIdempotent | crates/ri-llm-provider/src/json_repair.rs:37-123 | repairing twice is repairing once |
| JsonRepair.RepairGivesLenientMeaning | crates/ri-llm-provider/src/json_repair.rs:37-123 | a repaired string body denotes the text the original was meant to denote, with U+FFFD for lone surrogates; it is illegal only where a unicode escape lacks its digits |
| JsonRepair.RepairKeepsLegalString | crates/ri-llm-provider/src/json_repair.rs:37-123 | a legal string body is copied whatever follows its closing quote |
| JsonRepair.RepairJson | crates/ri-llm-provider/src/json_repair.rs:37-123 | the loop computes the repair; its output is clean, unchanged exactly for clean input, and outside any escape |
| JsonRepair.RepairEscape | crates/ri-llm-provider/src/json_repair.rs:64-117 | what a backslash in a string is written as and how many characters it covers |
| JsonCompletion.CompleterKnowsItsText | crates/ri-llm-provider/src/json_repair.rs:165-201 | the completer's flags and stack are the true account of what it has written |
| JsonCompletion.CompletedTextIsBalanced | crates/ri-llm-provider/src/json_repair.rs:165-220 | a completed text has all strings closed and all brackets nested by kind |
| JsonCompletion.CompletionOnlyPrunesAndCloses | crates/ri-llm-provider/src/json_repair.rs:165-220 | it is the repaired text less some commas and white space outside strings, a closing quote where the repairer ended in a string, then exactly the owed closers, innermost first |
| JsonCompletion.CommaBeforeCloserIsForgiven | crates/ri-llm-provider/src/json_repair.rs:165-220 | a text with a comma right before a closer is completed like the text without it |
| JsonCompletion.CutsAreOrderedAndOutsideStrings | crates/ri-llm-provider/src/json_repair.rs:228-267 | truncation cuts strictly increase and never fall inside a string |
| JsonCompletion.CutsAreComplete | crates/ri-llm-provider/src/json_repair.rs:248-263 | every opening bracket and every comma outside strings is a cut |
| JsonCompletion.TrimTrailingJsonWhitespace | crates/ri-llm-provider/src/json_repair.rs:222-226 | the text without its trailing white space |
| JsonCompletion.CompletePartialJson | crates/ri-llm-provider/src/json_repair.rs:165-220 | the loops compute the completion, and what they return is balanced |
| JsonCompletion.TruncationCandidates | crates/ri-llm-provider/src/json_repair.rs:228-267 | the candidates are the repaired text cut at each cut, in order |
| JsonScanners.ReaderAgreesWithSurvey | crates/ri-llm-provider/src/json_repair.rs:125-137 | on any text the reader has not refused, its stack is the brackets still open, it is in a string exactly when the scanner is, and top-level commas and colons count the members |
| JsonScanners.RepairKeepsSurvey | crates/ri-llm-provider/src/json_repair.rs:37-123 | repairing moves no bracket, comma or colon |
| JsonScanners.ReadTextIsStable | crates/ri-llm-provider/src/json_repair.rs:37-123 | text the reader has accepted so far is never rewritten, whatever follows |
| JsonScanners.CompleterTracksReader | crates/ri-llm-provider/src/json_repair.rs:165-201 | as long as the reader accepts, the completer goes on, and what it has written brings the reader to the same state |
| JsonCuts.CutRepair | crates/ri-llm-provider/src/json_repair.rs:37-123 | a text and any cut of it repair alike up to a point after which the cut one goes on only with content of the string it was cut in |
| JsonCuts.RepairSplits | crates/ri-llm-provider/src/json_repair.rs:37-123 | a text that ends outside strings is repaired the same whatever follows it |
| JsonCuts.RecoveryReadsRepairedText | crates/ri-llm-provider/src/json_repair.rs:139-163 | a recovery depends on the repaired text only |
| JsonCuts.TrailingSpaceIsIgnored | crates/ri-llm-provider/src/json_repair.rs:125-137 | white space at the end never changes what a text reads as, repaired or not, in a string or out of it |
| JsonCuts.BrokenEscapeIsRefused | crates/ri-llm-provider/src/json_repair.rs:64-117 | a unicode escape without its digits is left by the repair and refused by the reader |
| JsonCuts.CutTextShares | crates/ri-llm-provider/src/json_repair.rs:37-123 | outside the string it was cut in, all the reader has read of the repaired cut text begins the repaired whole text |
| JsonStreaming.AnchorHolds | crates/ri-llm-provider/src/json_repair.rs:125-163 | once the text is committed to members, no later repair or completion that reads can lose them |
| JsonStreaming.ParseJsonWithRepair | crates/ri-llm-provider/src/json_repair.rs:125-137 | read as it is, else repaired when that changes it |
| JsonDropped.ParseStreamingJson | crates/ri-llm-provider/src/json_repair.rs:139-163 | the three attempts in order; on every text the reader has not refused once it is repaired, the value is exactly what the reader holds of it |
| JsonStreaming.LastReadable | crates/ri-llm-provider/src/json_repair.rs:153-162 | the last candidate that reads, searched from the end |
| JsonRecovery.TruncationReads | crates/ri-llm-provider/src/json_repair.rs:153-162 | the text cut before a top-level comma always reads, as the members before it |
| JsonRecovery.CutKeepsCompletedMembers | crates/ri-llm-provider/src/json_repair.rs:139-163 | for every text that reads as an object, as it is or after repair, and every cut, with k top-level commas before it, the result is an object whose first k members are unchanged; at most one more follows, under its own key |
| JsonRecovery.CompletedFieldsSurvive | crates/ri-llm-provider/src/json_repair.rs:139-163 | with distinct keys every completed field is found under its key, unchanged |
| JsonRecovery.BraceTextsYieldObjects | crates/ri-llm-provider/src/json_repair.rs:139-163 | any text whose first non-blank character is an opening brace yields an object |
| JsonInterrupted.InterruptedTextReads | crates/ri-llm-provider/src/json_repair.rs:139-163 | a text cut inside containers, not refused so far and not after a key, is recovered as what was read of it: the string or word being read in its place, every container closed, innermost first |
| JsonInterrupted.CutTextReads | crates/ri-llm-provider/src/json_repair.rs:139-163 | when the text is a cut of one that reads, every container that was open leads, at its own depth and under its own key, to the corresponding one of the whole value |
| JsonInterrupted.CutInStringValue | crates/ri-llm-provider/src/json_repair.rs:139-163 | an object text cut inside the string of member k is recovered as the members before it and member k with the text that the part of its string before the cut is meant to have |
| JsonInterrupted.CutInPlainString | crates/ri-llm-provider/src/json_repair.rs:139-163 | without a quote or a backslash before the cut that text is exactly the characters between the opening quote and the cut |
| JsonInterrupted.CutBetweenItems | crates/ri-llm-provider/src/json_repair.rs:139-163 | cut inside the array of member k, after its bracket, an item or a comma, member k is recovered with exactly the items before the cut, which begin the original ones |
| JsonInterrupted.CutInStringItem | crates/ri-llm-provider/src/json_repair.rs:139-163 | cut inside a string item, with the items before it and the part of the string before the cut |
| JsonDropped.RecoveryIsExact | crates/ri-llm-provider/src/json_repair.rs:139-163 | the recovery of every text the reader has not refused, wherever it ends: a key, a key without its value, a word that is no scalar and a string with a broken escape are dropped, everything else is kept |
| JsonDropped.EveryCutReads | crates/ri-llm-provider/src/json_repair.rs:139-163 | so for every text that reads, as it is or after repair, and every cut of it, with every open container leading to its original |
| JsonRender.RenderedValueReadsBack | crates/ri-llm-provider/src/json_repair.rs:125-137 | every value within the nesting limit, once written, reads back as itself |
| JsonRender.CutRenderedObject | crates/ri-llm-provider/src/json_repair.rs:139-163 | written arguments read whole as themselves and, cut anywhere, keep every completed member |
| MessageTransform.DowngradeKeepsTexts | crates/ri-llm-provider/src/message_transform.rs:249-293 | of the downgrade of one part list: no image is left, no text is lost or moved, an image leaves a placeholder, image-free content is unchanged |
| MessageTransform.EveryRunOfImagesLeavesOne | crates/ri-llm-provider/src/message_transform.rs:249-293 | every run of images leaves exactly one placeholder where it stood, none where the placeholder text stands before it |
| MessageTransform.TransformKeepsContents | crates/ri-llm-provider/src/message_transform.rs:19-41 | what goes out is every message that is not a failed answer, in order, and made-up results between them; for a model that accepts images each has the parts it came in with, for another none has an image, the texts are kept in order and each message that had an image holds the placeholder of its own kind; an answer keeps its texts, thoughts and calls in order, unsigned if it is another model's |
| MessageTransform.ReplaceImagesWithPlaceholder | crates/ri-llm-provider/src/message_transform.rs:249-293 | the loop computes the downgrade |
| MessageTransform.RewriteBlocksRenames | crates/ri-llm-provider/src/message_transform.rs:113-171 | each call is renamed in place and only its own message's ids may resolve differently |
| MessageTransform.CallsAreSentUnderTheRule | crates/ri-llm-provider/src/message_transform.rs:113-171 | every call keeps its id, unless its answer is another model's and there is a rule, which then gives the id |
| MessageTransform.RenamingKeepsAnswers | crates/ri-llm-provider/src/message_transform.rs:19-41 | with unique call ids, a result that answered a call answers the same call after renaming, otherwise unchanged |
| MessageTransform.OwnAnswerSuffices | crates/ri-llm-provider/src/message_transform.rs:155-247 | with unique call ids, the pass puts out a kept turn as its message, its results in order and made-up results among which there is none for a call that a result of the turn answered before renaming, between what precedes the turn and what follows it |
| MessageTransform.ErasingMadeUpResults | crates/ri-llm-provider/src/message_transform.rs:173-224 | without the made-up results the output is the input less failed assistant messages, in order |
| MessageTransform.FailedAnswersAreDropped | crates/ri-llm-provider/src/message_transform.rs:186-206 | the answers that go out are exactly those that neither failed nor were cancelled, in order |
| MessageTransform.RepairedAnswersEveryCall | crates/ri-llm-provider/src/message_transform.rs:173-247 | every tool call of the output is answered in the run of results right after its message |
| MessageTransform.ResultPassIsIdempotent | crates/ri-llm-provider/src/message_transform.rs:173-247 | the pass applied to its own output changes nothing |
| MessageTransform.MadeUpExactlyForUnanswered | crates/ri-llm-provider/src/message_transform.rs:226-247 | a result is made up for a call if and only if nothing answered it |
| MessageTransform.TurnShape | crates/ri-llm-provider/src/message_transform.rs:173-224 | a turn becomes its message, its own results, then the made-up ones, whatever stands around it |
| MessageTransform.PassResumes | crates/ri-llm-provider/src/message_transform.rs:173-224 | the pass may be interrupted anywhere and resumed from the calls it waits for |
| MessageTransform.TurnInPlace | crates/ri-llm-provider/src/message_transform.rs:173-224 | where a kept turn stands in the whole output, with what precedes it erasing to the kept messages before it |
| MessageTransform.OrphansAreThoseOfTheInput | crates/ri-llm-provider/src/message_transform.rs:173-247 | the pass puts out a result without its call if and only if there is one in its input less the failed messages |
| MessageTransform.TransformLeavesNoOrphansWhen | crates/ri-llm-provider/src/message_transform.rs:19-41 | the same of the whole transformation, images and ids included |
| MessageTransform.UniqueIdsKeepNoOrphans | crates/ri-llm-provider/src/message_transform.rs:19-41 | with unique call ids, a transcript whose results all answer kept calls stays one under every renaming |
| MessageTransform.FailedTurnLeavesItsResult | crates/ri-llm-provider/src/message_transform.rs:186-206 | a failed turn with an answered call, of which the result alone goes out, under every renaming |
| MessageTransform.InsertMissingToolResults | crates/ri-llm-provider/src/message_transform.rs:226-247 | the loop appends exactly the made-up results |
| MessageTransform.InsertSyntheticToolResults | crates/ri-llm-provider/src/message_transform.rs:173-224 | the loop computes the pass |
| DeferredTools.UniqueToolsLastWins | crates/ri-llm-provider/src/deferred_tools.rs:35-46 | names stand where they first occurred, each with its last definition |
| DeferredTools.UniqueIsDistinct | crates/ri-llm-provider/src/deferred_tools.rs:35-46 | no name is left twice |
| DeferredTools.ScanDefersFreshTools | crates/ri-llm-provider/src/deferred_tools.rs:47-73 | the scan defers exactly the tools announced before any call of them |
| DeferredTools.PlacementPartitions | crates/ri-llm-provider/src/deferred_tools.rs:74-85 | immediate and deferred tools partition the tools in order, by name |
| DeferredTools.SplitDeferredTools | crates/ri-llm-provider/src/deferred_tools.rs:30-85 | the loops compute the placement |
| AnthropicMessages.ConversionAnswersEveryUse | crates/ri-llm-provider/src/anthropic.rs:1093-1275 | converting an answered transcript gives an answered message list, results first in each message |
| AnthropicMessages.ConversionKeepsOrphans | crates/ri-llm-provider/src/anthropic.rs:1093-1275 | in the list an answered transcript converts to, every result answers a use of the message before it if and only if every result of the transcript answers its call |
| AnthropicMessages.FailedTurnSendsAnOrphan | crates/ri-llm-provider/src/anthropic.rs:780-830 | a transcript without orphans whose list holds a result that answers nothing |
| AnthropicMessages.AnthropicProtocolHolds | crates/ri-llm-provider/src/anthropic.rs:780-830 | for every transcript, model and id normalizer, each message with tool uses is followed at once by one message with a result for each of them; and every result answers a use of the message before it if and only if none stands without its call in the prepared transcript less its failed messages |
| AnthropicMessages.ConversionKeepsMarks | crates/ri-llm-provider/src/anthropic.rs:1213-1271 | the converted list uses every tool the transcript uses, in order, and refers to exactly the announcements that load a tool |
| AnthropicMessages.EveryDeferredToolIsLoadedOnce | crates/ri-llm-provider/src/anthropic.rs:800-823 | every deferred tool gets exactly one reference, at its first announcement and before every use; no other tool gets any |
| AnthropicMessages.ConversionSaysEverything | crates/ri-llm-provider/src/anthropic.rs:1093-1275 | the list says exactly what the transcript says, in order: texts, images, thoughts with their signature or as text where it may not be missing, redacted thoughts, calls, and results with their flag and content; only what is blank is left out, and content displaced by a reference is said at the end of its run of results |
| AnthropicMessages.PayloadSaysEverything | crates/ri-llm-provider/src/anthropic.rs:780-830 | the same of the whole payload, from the transcript as given; for a model that accepts no images no image is sent, in a result neither |
| AnthropicMessages.NoToolIsLost | crates/ri-llm-provider/src/anthropic.rs:800-823 | the payload's two tool lists hold all tools in order, and tools are deferred only beside immediate ones |
| AnthropicMessages.ConvertToolResults | crates/ri-llm-provider/src/anthropic.rs:1213-1271 | the inner loop consumes exactly the run of results and converts it |
| AnthropicMessages.ConvertFromIsConvert | crates/ri-llm-provider/src/anthropic.rs:1093-1275 | what the loops compute from an index on is the conversion of the rest of the transcript |
| AnthropicMessages.ConvertAnthropicMessages | crates/ri-llm-provider/src/anthropic.rs:1093-1275 | the outer loop computes the conversion |
| AnthropicMessages.BuildAnthropicPayload | crates/ri-llm-provider/src/anthropic.rs:780-830 | the payload's messages and tool lists, with the protocol both ways, the references, everything said and no tool lost as guarantees |
| BedrockMessages.BedrockProtocolHolds | crates/ri-llm-provider/src/bedrock.rs:1439-1472 | the same protocol for Bedrock, end to end, both ways |
| BedrockMessages.ConversionKeepsOrphans | crates/ri-llm-provider/src/bedrock.rs:1439-1472 | grouping makes no result lose its call and finds none for a result that had none |
| BedrockMessages.ConversionSaysEverything | crates/ri-llm-provider/src/bedrock.rs:1360-1479 | the list says exactly what the transcript says, in order, a content that would say nothing as the word for it |
| BedrockMessages.ListSaysEverything | crates/ri-llm-provider/src/bedrock.rs:1360-1479 | the same of the list made from the transcript as given; no image for a model that accepts none |
| BedrockMessages.GroupResults | crates/ri-llm-provider/src/bedrock.rs:1439-1472 | the inner loop groups exactly the run of results |
| BedrockMessages.ConvertBedrockMessages | crates/ri-llm-provider/src/bedrock.rs:1360-1479 | the loop computes the conversion, everything is said, every use is answered, and every result answers one exactly when the prepared transcript less its failed messages has no orphan |
| AgentEvents.ReducerFollowsTheLog | crates/ri-agent-core/src/agent.rs:136-164 | the listener's transcript grows by exactly the messages whose end the returned log reports |
| AgentEvents.ListenerShowsTheLast | crates/ri-agent-core/src/agent.rs:136-164 | the message the listener shows, whether a call is pending and the error it keeps are each decided by the last event that speaks of them |
| AgentEvents.TurnsAlternate | crates/ri-agent-core/src/agent_loop.rs:338-390 | in a log that follows the grammar turn starts and ends alternate, with at most one surplus end |
| AgentEvents.FinishedLogIsFramed | crates/ri-agent-core/src/agent_loop.rs:184-242 | in a log without progress AgentStart comes first and only once, AgentEnd last and only once; every run ensures both of its log |
| AgentEvents.PendingSetEmptyAtTurnEnds | crates/ri-agent-core/src/agent.rs:156-162 | the listener has no pending call whenever a turn ends |
| AgentEvents.AgentState.OnEvent | crates/ri-agent-core/src/agent.rs:136-164 | the update in place is the reducer |
| AgentQueue.PendingMessageQueue.Enqueue | crates/ri-agent-core/src/agent.rs:60-62 | what was received is what left, then what waits |
| AgentQueue.PendingMessageQueue.DrainNow | crates/ri-agent-core/src/agent.rs:72-78 | a drain takes from the front, everything or at most one by mode, and only an empty queue gives nothing |
| AgentTools.CallRunsExactlyWhenNothingStopsIt | crates/ri-agent-core/src/agent_loop.rs:740-869 | a call runs if and only if its tool exists, its arguments are accepted, no hook fails or blocks and nothing was aborted, and then with the arguments the last hook left |
| AgentTools.RunHooks | crates/ri-agent-core/src/agent_loop.rs:797-848 | the hook loop threads the arguments and stops at the first objection |
| AgentTools.ExecutePreparedToolCall | crates/ri-agent-core/src/agent_loop.rs:953-1050 | the tool's output as the result hooks leave it, a failing hook ending in an error |
| AgentTools.HookStopsExactlyWhen | crates/ri-agent-core/src/agent_loop.rs:797-848 | a hook stops a call if and only if it fails, blocks or finds the run aborted, and otherwise leaves the arguments it gives or the ones it got |
| AgentTools.StoppedSaysWhy | crates/ri-agent-core/src/agent_loop.rs:740-869 | a call that does not run fails with the first thing that stopped it: no such tool, arguments not accepted, the objection of the first hook that objects, or the run aborted |
| AgentTools.OutcomeFits | crates/ri-agent-core/src/agent_loop.rs:740-1050 | the outcome of a call is an error saying why when it is stopped, and else what the tool returned on its final arguments as each result hook in turn left it |
| AgentTools.PlainCallCarriesItsOutput | crates/ri-agent-core/src/agent_loop.rs:953-1050 | without hooks it is exactly what the tool returned, an error exactly when the tool failed |
| AgentTools.CoveringBatchesTerminateAlike | crates/ri-agent-core/src/agent_loop.rs:871-873 | the terminate flag does not depend on the order of outcomes |
| AgentTools.OrderBySource | crates/ri-agent-core/src/agent_loop.rs:1079-1096 | every outcome finds its slot, and a filled slot holds an outcome with its index |
| AgentTools.SlotsRestoreSourceOrder | crates/ri-agent-core/src/agent_loop.rs:1079-1096 | filling slots restores the batch in source order, whatever order it came in |
| AgentTools.ExecuteToolCalls | crates/ri-agent-core/src/agent_loop.rs:916-951 | every completion order yields the same outcomes as a collection |
| AgentLoop.Loop.Record | crates/ri-agent-core/src/agent_loop.rs:153-173 | the sink sees every event, the returned log all but progress |
| AgentLoop.Loop.RunTools | crates/ri-agent-core/src/agent_loop.rs:587-692 | after an answer cut off at its length there is one error per call and none is executed; after tool use there is one result per call, in source order, each what its tool and hooks make of it; otherwise there are none; the results do not depend on the mode or the completion order; calls run together only where the configuration says so and no called tool asks to run alone |
| AgentLoop.Loop.RunParallel | crates/ri-agent-core/src/agent_loop.rs:626-657 | parallel execution, for every completion order: no call that runs ends before every call has been started |
| AgentLoop.Loop.RunSequential | crates/ri-agent-core/src/agent_loop.rs:658-692 | sequential execution, with the same results: each call ends right after it starts |
| AgentLoop.Loop.StreamAssistant | crates/ri-agent-core/src/agent_loop.rs:525-582 | every stream event is passed on, a start is supplied where the stream had none, and the answer is the message of the last end event or else the late result |
| AgentCourse.StreamIsShown | crates/ri-agent-core/src/agent_loop.rs:525-582 | what is passed on of a stream shows every partial answer of it, in order, and nothing else |
| AgentCourse.FinalIsTheLastEnd | crates/ri-agent-core/src/agent_loop.rs:525-582 | the message a stream ends with is that of an end event after which there is no other |
| AgentLoop.Loop.RunOneTurn | crates/ri-agent-core/src/agent_loop.rs:506-713 | the turn's outcome as a function of what the provider and the tools do, its results as of `RunTools`; one provider call unless the context failed; a failed turn reports no finished message, a finished one its answer and then its results |
| AgentLoop.Loop.RecordInjectedMessages | crates/ri-agent-core/src/agent_loop.rs:479-504 | every queued message is reported and enters the context, in order |
| AgentLoop.Loop.Poll | crates/ri-agent-core/src/agent.rs:102-110 | what the queue gives by its mode, then what the extra provider gives; what was drained before a failing provider is gone |
| AgentLoop.Loop.AfterTurn | crates/ri-agent-core/src/agent_loop.rs:360-386 | the hooks, steering, then follow-ups, with what each leaves in the queues; follow-ups are polled only when neither tool results nor steering ask for another turn |
| AgentCourse.CourseGoesOn | crates/ri-agent-core/src/agent_loop.rs:355-387 | a round that asks for another one continues the course; the others end it |
| AgentCourse.TurnResultsFit | crates/ri-agent-core/src/agent_loop.rs:587-692 | what `RunTools` promises of the results, for every answer and every choice of tools |
| AgentCourse.RoundGoesOnExactlyWhen | crates/ri-agent-core/src/agent_loop.rs:338-390 | a turn is followed by another if and only if its answer did not fail, nothing between the turns failed or stopped the run, and its calls ask for one or a queue has messages; it is the last if and only if the answer failed, a hook stopped the run or nothing is left to do |
| AgentCourse.RoundFailsWith | crates/ri-agent-core/src/agent_loop.rs:338-390 | a failed turn fails with the first thing that failed, and the provider was asked unless the context could not be made |
| AgentLedger.RunBalances | crates/ri-agent-core/src/agent_loop.rs:338-390 | for every script the messages of a run are those of its rounds; for each queue what waited and what arrived is what was injected, then what was lost, then what is left; a run that goes well loses nothing, and with quiet providers something is lost exactly when the limit was hit and the last poll took something |
| AgentLedger.InjectedInOrder | crates/ri-agent-core/src/agent_loop.rs:479-504 | what was injected from a queue stands in the run's messages in order |
| AgentLedger.LedgerIsKept | crates/ri-agent-core/src/agent_loop.rs:355-387 | the balance from any round on, that each round injects what the one before handed on, and that follow-ups are handed on only when neither tool results nor steering ask for a turn |
| AgentLedger.LimitLosesTheLastBatch | crates/ri-agent-core/src/agent_loop.rs:383-390 | a run that takes a message from its queue and neither injects nor leaves it |
| AgentLedger.FailingHookEndsTheTurnTwice | crates/ri-agent-core/src/agent_loop.rs:276-336 | a run that fails between turns, and one that fails in its turn |
| AgentLoop.Loop.RunUntilDone | crates/ri-agent-core/src/agent_loop.rs:338-390 | the run is exactly the course its script determines: messages, ending, turns, provider calls and what is left in the queues; at most the allowed number of turns, the transcripts in step; it stops in a turn exactly when the turn itself failed |
| AgentLoop.Loop.FinishWithError | crates/ri-agent-core/src/agent_loop.rs:276-336 | one error answer with the error, marked as aborted when the run was, in the failed turn or in a surplus one |
| AgentLoop.Loop.PromptMessages | crates/ri-agent-core/src/agent_loop.rs:184-242 | in every run, successful or not, the returned messages are the prompts, the course's messages and after a failure one answer that says why; the reported ones, the context's growth and the listener's growth are the same; the log is what was delivered without progress, framed, with a surplus turn end if and only if the run failed between turns; the queues balance |
| AgentLoop.Loop.ContinueRun | crates/ri-agent-core/src/agent_loop.rs:244-274 | refuses, with nothing reported, exactly an empty transcript or one that ends with an answer; otherwise as for prompts |
| AssistantStream.EventSender.Push | crates/ri-llm-provider/src/event_stream.rs:23-44 | nothing is delivered after a terminal event, and the one-shot result is the first terminal message |
| AssistantStream.EventSender.End | crates/ri-llm-provider/src/event_stream.rs:70-83 | ends the stream without an event, once |
| AssistantStream.EndsCarryTheirPieces | crates/ri-llm-provider/src/google_shared.rs:533-573 | in a well-formed log every end event carries what its block's pieces join to |
| AssistantStream.StartsAreConsecutive | crates/ri-llm-provider/src/google_shared.rs:476-499 | in a well-formed log the blocks are numbered consecutively |
| AssistantStream.EndsFollowStarts | crates/ri-llm-provider/src/google_shared.rs:533-573 | in a well-formed log blocks end one at a time, in the order in which they start; a stream that is done has ended all of them |
| ProxyClient.EnsureContentSlot | crates/ri-agent-core/src/proxy.rs:484-496 | the slot holds the block, every other block is kept, gaps are empty texts |
| ProxyClient.Client.ProcessEvent | crates/ri-agent-core/src/proxy.rs:289-466 | one wire event, its errors included, which change nothing |
| ProxyClient.Client.ProcessAll | crates/ri-agent-core/src/proxy.rs:254-287 | events in turn up to the first error, and whether a terminal one was among them; an error leaves the client as the events before it left it |
| ProxyClient.EventIsSentOn | crates/ri-agent-core/src/proxy.rs:289-466 | in any state an event is an error if and only if it goes on with a block that is not there or of another kind, the end of a call excepted, which is passed over; any other event is sent on once as what it says, with the answer so far, which is dated when the stream ends |
| ProxyClient.ClientRebuildsTheAnswer | crates/ri-agent-core/src/proxy.rs:289-466 | replaying the wire form of any well-formed log never errors, rebuilds its answer up to tool thought signatures, and passes on events with the same wire form |
| GoogleStream.BuildKeepsEverything | crates/ri-llm-provider/src/google_shared.rs:461-639 | what the parts build holds every character and call of them, once, in order, with no two neighbouring texts of a kind |
| GoogleStream.CallGetsItsId | crates/ri-llm-provider/src/google_shared.rs:575-639 | a call keeps its own id if and only if that is given, not empty and not taken, and its signature unless empty |
| GoogleStream.LastSignatureCounts | crates/ri-llm-provider/src/google_shared.rs:461-531 | a text or thought carries the last signature given for it that is not empty |
| GoogleStream.StopReasonFits | crates/ri-llm-provider/src/google_shared.rs:370-429 | the stop reason is that of the last chunk that gives one, or tool use if a call came up to that chunk |
| GoogleStream.GoogleStreamProcessor.ProcessTextPart | crates/ri-llm-provider/src/google_shared.rs:461-531 | a text part goes to the active block if it has its kind, else to a new one; a later non-empty signature replaces an earlier one; the log stays well formed |
| GoogleStream.GoogleStreamProcessor.ProcessFunctionCall | crates/ri-llm-provider/src/google_shared.rs:575-639 | a call becomes one block with its own id unless that is missing, empty or taken; its three events are well formed |
| GoogleStream.GoogleStreamProcessor.ProcessChunk | crates/ri-llm-provider/src/google_shared.rs:370-429 | the log stays well formed and the answer is what all parts so far build; a finish reason yields to tool use when there is a call |
| GoogleStream.GoogleStreamProcessor.Finish | crates/ri-llm-provider/src/google_shared.rs:431-459 | every block is closed and the terminal event carries the whole answer |
| GoogleStream.FinishedLogIsRebuilt | crates/ri-agent-core/src/proxy.rs:289-466 | a client fed the wire form of a finished log ends with the same answer and stop reason |
| GoogleStream.ProcessStreamChunks | crates/ri-llm-provider/src/google_shared.rs:342-358 | however the parts fall into chunks, the answer is what they build and holds every character and call in order; its stop reason is the last one given, or tool use if a call came before it; the terminal event carries it, as a failure exactly when it stopped in error; the proxied answer is the same |
| FauxStream.ChunksForText | crates/ri-llm-provider/src/faux.rs:777-794 | the chunks join to the text, all but the last have the full size, none is empty unless the text is |
| FauxStream.FauxStreamer.PushAbortIfRequested | crates/ri-llm-provider/src/faux.rs:953-972 | a seen abort ends the stream with the answer so far |
| FauxStream.FauxStreamer.StreamWithDeltas | crates/ri-llm-provider/src/faux.rs:809-951 | exactly one terminal event, last, equal to the one-shot result, a failure exactly when the stream is aborted or the answer failed; aborted at the first check that sees the flag it carries a block-wise prefix of the answer, and if none does, the answer itself |
| Bytes.BigEndianRoundTrip | crates/ri-llm-provider/src/http_api_provider.rs:2945-2956 | lengths survive the four-byte layout |
| Bytes.FirstDifferenceDecides | crates/ri-llm-provider/src/http_api_provider.rs:2945-2956 | the first byte in which two lengths differ decides which is greater |
| AwsEventStream.DrainShape | crates/ri-llm-provider/src/http_api_provider.rs:2940-2974 | what is left is the end of the buffer, each value took at least 16 bytes, and only an unfinished frame is left without an error |
| AwsEventStream.DrainAppend | crates/ri-llm-provider/src/http_api_provider.rs:2926-2974 | draining may be interrupted anywhere, and an error stays |
| AwsEventStream.ChunkingDoesNotMatter | crates/ri-llm-provider/src/http_api_provider.rs:2926-2974 | values, residue and verdict after any pieces are those of one push |
| AwsEventStream.FramesRoundTrip | crates/ri-llm-provider/src/http_api_provider.rs:2940-2974 | reading written frames gives exactly their non-empty payloads, and fails exactly when one cannot be read |
| AwsEventStream.LengthsRefusedExactlyWhen | crates/ri-llm-provider/src/http_api_provider.rs:2940-2974 | two lengths are refused as soon as they are read, if and only if no frame has them |
| AwsEventStream.UnfinishedFrameIsKept | crates/ri-llm-provider/src/http_api_provider.rs:2940-2974 | any part of a frame is kept whole until the rest comes |
| AwsEventStream.KnownFrame | crates/ri-llm-provider/src/http_api_provider.rs:2940-2974 | a frame spelled out byte by byte gives its payload |
| AwsEventStream.AwsEventStreamJsonParser.DrainEvents | crates/ri-llm-provider/src/http_api_provider.rs:2940-2974 | the loop computes the drain, every slice in range |
| AwsEventStream.AwsEventStreamJsonParser.PushBytes | crates/ri-llm-provider/src/http_api_provider.rs:2926-2929 | append, then drain |
| AwsEventStream.AwsEventStreamJsonParser.Finish | crates/ri-llm-provider/src/http_api_provider.rs:2931-2938 | succeeds exactly when nothing is left and nothing failed |
| SseParser.SseJsonParser.PushBytes | crates/ri-llm-provider/src/http_api_provider.rs:2859-2868 | a piece of any length comes to its bytes one at a time |
| SseParser.SseJsonParser.StripLeadingBom | crates/ri-llm-provider/src/http_api_provider.rs:2873-2895 | one mark is consumed wherever it is cut; bytes that only began like one are put back |
| SseParser.SseJsonParser.Finish | crates/ri-llm-provider/src/http_api_provider.rs:2897-2902 | the last line and the last event |
| SseParser.ChunkingDoesNotMatter | crates/ri-llm-provider/src/http_api_provider.rs:2859-2918 | the values and the whole state depend on the bytes only, wherever pieces end |
| SseParser.ParseSseMessages | crates/ri-llm-provider/src/anthropic.rs:35-71 | the whole-body reader |
| SseParser.StreamingReadsWhatTheWholeBodyHolds | crates/ri-llm-provider/src/http_api_provider.rs:2846-2989 | for every text and any pieces, the values are those of exactly the events with a data line that the whole-body reader finds in the text without its byte-order mark and without one carriage return at its end |
| SseParser.WhenTheReadersAgree | crates/ri-llm-provider/src/http_api_provider.rs:2846-2989 | without a byte-order mark the two readers agree if and only if the whole-body reader does not tell the text from the text without that carriage return, and always for a reading that ignores it |
| SseParser.FinalCrIsIgnored | crates/ri-llm-provider/src/anthropic.rs:35-71 | with such a reading a carriage return at the end never changes what the whole-body reader finds |
| SseParser.BareCarriageReturnIsReadDifferently | crates/ri-llm-provider/src/http_api_provider.rs:2897-2918 | a text ending in a bare carriage return whose payload texts, taken as they are, differ between the two readers |
| SseParser.WordsAreSpelled | crates/ri-llm-provider/src/http_api_provider.rs:2846-2918 | the field names, the end word and the byte-order mark are the ASCII and UTF-8 they stand for |
| SseWriting.WrittenEventsReadBack | crates/ri-llm-provider/src/anthropic.rs:35-71 | whatever events are written, of any number of lines, the whole-body reader finds exactly these, with their names, texts and lines |
| SseWriting.WrittenEventsAreStreamed | crates/ri-llm-provider/src/http_api_provider.rs:2846-2989 | and however their bytes are cut, the streaming reader yields exactly the values sent, in order, without the end word |
| DevicePolling.DeviceCodePollState.ApplyResponse | crates/ri-llm-provider/src/device_code.rs:106-133 | the new interval, the slow-down count and what to do next, as the run has it |
| DevicePolling.WholeRunOutcomeFits | crates/ri-llm-provider/src/device_code.rs:106-238 | a run ends with a token if and only if the last response polled is a completion, with that token; it fails if and only if that is a refusal or an error, with its message; every earlier response asks to wait; a time-out says a slow-down was seen exactly when one was |
| DevicePolling.IntervalsFollowAnswers | crates/ri-llm-provider/src/device_code.rs:106-133 | each poll's interval is the one before it, or after a slow-down the slowed one |
| DevicePolling.IntervalsInSeconds | crates/ri-llm-provider/src/device_code.rs:73-127 | five seconds by default, at least one, saturating, and a slow-down of zero seconds counts as one without |
| DevicePolling.FirstPollIsDue | crates/ri-llm-provider/src/device_code.rs:189-238 | at once, or after one interval, or at the deadline if that comes first |
| DevicePolling.RunIsWellPaced | crates/ri-llm-provider/src/device_code.rs:101-142 | every poll strictly before the deadline, each exactly the interval then in force after the last, none under a second; a time-out only at the deadline |
| DevicePolling.EveryRunIsWellPaced | crates/ri-llm-provider/src/device_code.rs:189-238 | the same for whole runs, with or without a first wait |
| DevicePolling.AtMostOnePollPerSecond | crates/ri-llm-provider/src/device_code.rs:73-142 | a code that lives E seconds is polled at most E times |
| DevicePolling.SlowDownsAddUp | crates/ri-llm-provider/src/device_code.rs:112-127 | k slow-downs without an interval add 5000k milliseconds as long as 64 bits hold it |
| DevicePolling.WhenSlowDownsDoNotShorten | crates/ri-llm-provider/src/device_code.rs:112-127 | exactly when a slow-down does not shorten the interval |
| DevicePolling.PollDeviceCodeFlow | crates/ri-llm-provider/src/device_code.rs:189-238 | without an abort the driver is the run, polls, outcome and end, and the outcome is that of the last response polled; it is cancelled if and only if one of the checks the run makes sees the flag, by the first that does, with the run's first polls made, all answered with a request to wait |
| DevicePolling.SimulateGitHubPollTimes | crates/ri-llm-provider/src/github_copilot_oauth.rs:148-205 | the simulator is the same run, so it agrees with the driver; its outcome is that of the last of GitHub's responses polled |
| ImagesRefresh.EveryInterleavingIsSingleFlight | crates/ri-llm-provider/src/images_models.rs:126-158 | under every interleaving at most one fetch is unfinished, and the list is the initial one or the latest successful fetch's |
| ImagesRefresh.NoCallerLeavesTheSlotTaken | crates/ri-llm-provider/src/images_models.rs:147-157 | when no caller waits the slot is free and no fetch is unfinished |
| ImagesRefresh.LateWaiterLeavesTheSlot | crates/ri-llm-provider/src/images_models.rs:148-156 | a late waiter leaves a newer fetch in its slot |
| ImagesRefresh.PartsImagesProvider.BeginRefresh | crates/ri-llm-provider/src/images_models.rs:130-146 | join the fetch in flight or start one |
| ImagesRefresh.PartsImagesProvider.EndRefresh | crates/ri-llm-provider/src/images_models.rs:147-157 | clear the slot only for the fetch that was awaited |
| MistralToolCallIds.MistralToolCallIdNormalizer.Normalize | crates/ri-llm-provider/src/mistral.rs:670-692 | an id keeps its short form; a new one gets the first form no other id has; the two maps stay inverse |
| MistralToolCallIds.NeverMerged | crates/ri-llm-provider/src/mistral.rs:670-692 | two ids share a short form only if they are the same id |
| MistralToolCallIds.DeriveId | crates/ri-llm-provider/src/mistral.rs:694-714 | at most nine alphanumeric characters, and a nine-character alphanumeric id is kept on the first attempt |
| MistralToolCallIds.DerivedFromTheHash | crates/ri-llm-provider/src/mistral.rs:694-714 | any other form is the first nine alphanumeric characters of the hash of the id's own, numbered after the first attempt |
| MistralToolCallIds.AttemptsDiffer | crates/ri-llm-provider/src/mistral.rs:670-692 | no two attempts hash the same text |

## Left out

- JSON numbers and names: which words are scalars is a parameter, so values are compared by their text.
- The JSON library: its grammar and nesting limit are modelled from RFC 8259; the library itself is not part of this model.
- Surrogate sanitizing, cache-control markers, usage, cost, diagnostics and response ids: carried opaquely or dropped.
- Timestamps: opaque parameters.
- AgentLoop.Loop.PromptMessages: hooks that replace the context, the model or the options between turns, because a replaced context has no relation to the returned messages.
- AgentLoop.Loop.RunOneTurn: tool progress events are not generated; they reach the listener only and do not change its transcript.
- How tool arguments are written and read is a parameter of the streams, required to read back what it wrote; `JsonRender.CutRenderedObject` proves that of the modelled reader, on values.
- The busy and idle flags of the agent (agent.rs:514-612) and its listener registry.
- AgentLoop.Loop.RunUntilDone: the messages handed to the between-turn hooks, which are oracles here.
- AgentLoop.Loop.FinishWithError: whether the run was aborted is one answer for the whole run.
- GoogleStream.GoogleStreamProcessor.ProcessFunctionCall: generated ids are a parameter; that they differ from ids the provider gives later is not claimed.
- The Mistral stream processor, whose tool blocks end together at the end of the stream, and all other providers' processors.
- ProxyClient.Client.ProcessAll: decoding bytes into lines, which is done piece by piece and so depends on the pieces, and the abort checks between them.
- Cancelled callers and dropped futures, in the tool batch as in the refresh.
- ImagesRefresh.EveryInterleavingIsSingleFlight: a provider that cannot fetch returns at once and has no steps.
- DevicePolling.PollDeviceCodeFlow: the clock is unbounded, so a deadline beyond 64-bit milliseconds and a wait beyond 63 bits are not modelled; the slow-down counter is unbounded.
- MistralToolCallIds.MistralToolCallIdNormalizer.Normalize: that a free form is found in the end depends on the hash; the method is told an attempt that will do.
- SseParser.StreamingReadsWhatTheWholeBodyHolds: decoding and trimming are parameters; the lines are required to be well-formed UTF-8, as any text's are, and so is the empty line where the text ends in a carriage return.
- FauxStream.FauxStreamer.StreamWithDeltas: pacing is left out; when the flag is seen is a script.
- HTTP, OAuth endpoints, signatures, credentials, the model catalogue, error wording and the Codex transport.
