# Verified model of the Opslane pipeline's protocols

This project models the parts of the repository whose guarantees span several functions or whole
runs, and proves those guarantees for all inputs and all runs.

- `Transcriber.dfy`: the online transcript of an agent's message stream against an offline description of it.
- `TranscriptFacts.dfy`: every event of a transcript from the raw messages.
- `RunLogger.dfy`: the byte-capped run log, its drop accounting and its shrinking serialisation.
- `RunLoggerFacts.dfy`: what the log keeps, serializes and totals, from the events added.
- `ToolLoop.dfy`: the agent's tool loop with arbitrary model, tools, hooks and cancellation.
- `ToolLoopFacts.dfy`: what the model, the listener and the result are told of each reply, execution and refusal.
- `JsonGrammar.dfy`, `JsonScanner.dfy`: the strict JSON scanner against the grammar it accepts.
- `JsonFaults.dfy`: the cause of every rejection, and the character classes and meanings of the standard.
- `Rollup.dfy`: incremental environment rollups, what each writer stores, and their online backfill.
- `Digest.dfy`: the capped digest selection and its ledger.
- `DigestFacts.dfy`: what ranks, what is left out and why, by the fields of the candidates.
- `OAuthLease.dfy`: the lease on OAuth login states.
- `OAuthLeaseFacts.dfy`: the answers and changes of each call, by the calls before it.
- `PrWebhook.dfy`: pull-request webhooks, receipts and the recovery of reopened merges.
- `PrWebhookFacts.dfy`: what a delivery records, in receipts, jobs and the group.
- `Sessions.dfy`: sessions, chunks, scrubbing, tombstones, retention pins and analysis jobs.
- `SessionFacts.dfy`: exactly when a step changes each field of a session, chunk or job.
- `Inquiry.dfy`: factual decisions and the admission of inquiry jobs.
- `InquiryFacts.dfy`: the rule, staleness, candidacy and admission by the rows.
- `ProjectKey.dfy`: project keys, their payloads and the base32 and base64url encodings.
- `ProjectKeyFacts.dfy`: keys, endpoints and payloads by their characters and bits.
- `Wrappers.dfy`: an option type, bytes, and the first rows of an ordered query.

The modules share a shape.  A pure function says what one step does (a message, a token, a transaction, a call) and
a run is a sequence of steps.  A class holds the fields or table rows that the program updates in place; each of its
methods ensures that its new state is the step applied to the old one.  The theorems are lemmas about the functions,
over every run.  A module named for the facts of another states what its steps and runs do in terms of the inputs and
the rows alone, without the functions that say it step by step.

Modelling decisions:

- A transaction or single SQL statement is one atomic step.  Where a query may return any of several rows, or write
  rows in any order, the choice is part of the step and the theorems hold for every choice.  The unique indexes that
  the code relies on are those of `packages/ingestion/db/migrations/054_pipeline_quality.sql` (lines 190 to 207) and
  the primary keys of `packages/ingestion/db/migrations/002_sessions.sql`.
- Times are seconds.  `OAuthLease` and `Inquiry` assume a clock that does not go back; `Sessions` and `PrWebhook` do not.
- `OAuthLease` assumes that random tokens and state hashes are never issued twice.
- The environment of `ToolLoop` is a set of arbitrary functions that also see how many calls were made so far, so they
  may answer the same question differently each time.  The turn bounds assume hooks that leave the turn counter alone,
  the budget bounds that the hook
  calls the run made left the token usage alone.  The redactor is assumed to return on every text.  The events of a run
  are those given to the listener, the one on which it throws included.
- `RunLogger` takes the scrubbed and encoded line of each event, or its failure, as input, and a scrubber as a function
  of the drop count; the clock is fixed.
- `JsonScanner` is parameterised by the predicate that a number text is finite.  It assumes that encoding/json decodes a
  string literal as the scanner reads it: escape by escape, in RFC 8259, section 7.
- `ProjectKey` writes out the JSON encoder on the payload (its escapes and their lengths) and takes the decoder, the time
  and URL libraries and the hash as functions.  It relies on one assumption, `ReadsBack`: the body that minting writes
  is read back with its three members, and a formatted time has twenty characters and is accepted.
- `PrWebhook` assumes for its theorems about one PR that no other group owns the same repository and PR number, that a
  delivery id names one event, and that the PR has no receipt yet; the runs may contain deliveries for any other
  repository or PR, earlier PRs of the same group among them.
- The writes that run beside the rollup backfill are ingestion, the settlement of observations, folds of friction signals
  and promotions; repeats of a signal are counted from one.
- Rows of `issue_decisions` have serial ids and an episode's rows are written under its lock, so `Inquiry` takes the order
  in which they were written as the order of their ids.

Properties that the code does not have, with the exact condition under which it has them and an input at which it does not:

- Raising the byte cap of the run log can lose lines.  It never does exactly when a scrubber that throws on the stop line
  for some drop count throws for every larger one (`RunLogger.CapMonotoneExactly`); for every other scrubber there are
  adds and caps that lose lines (`RunLogger.FailureLosesLines`).
- A draft PR that is closed, reopened and merged is not recovered, although the comment on `ProcessPRWebhook` promises
  recovery for a group that left its PR-owning state; the group ends merged exactly when the PR was not a draft closed
  before it (`PrWebhook.FirstMergeWins`, `PrWebhook.ReopenedDraftStaysHuman`).
- A group does not always record the merge of its PR: it records that of an earlier PR instead exactly when that one comes
  after a close and before the merge (`PrWebhook.FirstMergeWins`, `PrWebhook.OldPrWins`).
- A tool loop can end without a result: exactly when a hook that it called, or the listener on an event that it was given,
  threw.  It then has no terminal event either, unless the listener threw on that event or on the end of its turn
  (`ToolLoop.RunLoop`, `ToolLoop.ThrowingHookLeavesNoResult`, `ToolLoop.ThrowingListenerLeavesNoResult`).
- A merge of two issues can lose occurrences: the comment in `ConfirmMerge` says that an issue with friction signals is
  refused, but the guard only looks at the kind of the group, and error groups take folded signals.  The winner stays
  exact exactly when no live signal is folded onto it (`Rollup.MergeIsExactExactly`, `Rollup.MergeLosesFolds`).
- `enqueueSessionAnalysisForBudgetRetry` in `packages/worker/src/db.ts`, which nothing calls, gives a session a second live
  analysis job exactly when one is claimed and none pending (`Sessions.LiveJobStaysUniqueExactly`, `Sessions.TwoLiveJobs`).
- Marking a session for deletion does not keep it so: the worker's status writes have no guard
  (`Sessions.OnlyTheWorkerUndeletes`, `Sessions.UndeletedSession`).
- A chunk that becomes readable while its session is being analyzed gets no analysis job of its own, although the comment
  in `MarkChunkScrubbed` says that a chunk is never readable without one; it does exactly in the other closed states, or
  when a live job is there already (`Sessions.ReadableIsCovered`, `Sessions.ReadableWithoutJob`).
- An evaluation does not always take its episode off the list of stale ones: it stays there exactly when its latest
  decision is already what the current rule decides (`Inquiry.EvaluationSettlesExactly`), and can be evaluated by every sweep (`Inquiry.EvaluatedForEver`).
- Minting does not refuse a source-map key that parsing will reject for its length: exactly the keys whose canonical
  endpoint takes more than 2965 bytes in JSON (`ProjectKey.MintedParsesExactly`,
  `ProjectKey.LongEndpointIsMintedAndNotParsed`).

## Model

| member | source | states |
|---|---|---|
| Transcriber.OnlineIsOffline | packages/agent-runs/src/adapters.ts:84-153 | On every message stream, the outputs of the online transducer followed by its flush are the offline transcript: each run of same-id frames is one response plus its tool calls at the place of its first frame, everything else follows in order. |
| Transcriber.OnlineIdle | packages/agent-runs/src/adapters.ts:84-153 | From any point of the stream where nothing is pending, the online and the offline readings of the rest agree. |
| Transcriber.OnlineRun | packages/agent-runs/src/adapters.ts:84-153 | Inside a run of frames, what the transducer will still output is the response of the whole run, its tool calls, the held events and the offline reading of what follows. |
| Transcriber.RunOpens | packages/agent-runs/src/adapters.ts:85-99 | A first frame opens a run and outputs nothing. |
| Transcriber.RunContinues | packages/agent-runs/src/adapters.ts:85-123 | A frame of the same id, a user message or a notice inside a run only changes what is pending and held. |
| Transcriber.RunCloses | packages/agent-runs/src/adapters.ts:100-105 | A result message or a frame of another id outputs the finished run, with the stop reason by the documented rule. |
| Transcriber.OtherEventsKeepOrder | packages/agent-runs/src/adapters.ts:106-122 | Every tool result and notice of the stream is in the transcript exactly once and in its original order. |
| Transcriber.ToolCallsKeepOrder | packages/agent-runs/src/adapters.ts:93-96 | Every tool use of every frame becomes exactly one tool call, in stream order. |
| Transcriber.NamedResultsFollowCalls | packages/agent-runs/src/adapters.ts:109-115 | A tool result whose name was resolved never precedes the tool call it answers. |
| Transcriber.UsageIsPointwiseMaximum | packages/agent-runs/src/adapters.ts:48-57 | The usage of a response is the least usage that covers the usage of each of its frames. |
| Transcriber.SdkStreamTranscriber.Push | packages/agent-runs/src/adapters.ts:84-123 | One push takes the state and the outputs of one step of the transducer. |
| Transcriber.SdkStreamTranscriber.PushFrame | packages/agent-runs/src/adapters.ts:86-98 | An assistant frame: flush another response if one is pending, then absorb content, names, stop reason, usage and request id. |
| Transcriber.SdkStreamTranscriber.ReadToolResults | packages/agent-runs/src/adapters.ts:107-116 | The tool results of a user message, named by the tool uses seen so far, in order. |
| Transcriber.SdkStreamTranscriber.Emit | packages/agent-runs/src/adapters.ts:130-153 | Emits the pending response, its tool calls and the held events, and leaves nothing pending. |
| Transcriber.SdkStreamTranscriber.Flush | packages/agent-runs/src/adapters.ts:125-128 | Ends the stream: like Emit with no response to follow. |
| Transcriber.TranscribeAll | packages/agent-runs/src/adapters.ts:84-153 | Pushing a whole stream through a fresh transcriber and flushing returns the offline transcript of the stream. |
| TranscriptFacts.ResultsAreTheBlocks | packages/agent-runs/src/adapters.ts:107-116 | The tool results of a transcript are the tool result blocks of the user messages: as many, in order, each with its id, output and error flag, and the name of the latest tool use of that id in an earlier frame, empty if there is none. |
| TranscriptFacts.CallsAreTheUses | packages/agent-runs/src/adapters.ts:91-96 | The tool calls of a transcript are the tool use blocks of the frames: as many, in order, each with its id, name and input. |
| TranscriptFacts.NoticesAreTheMessages | packages/agent-runs/src/adapters.ts:101-122 | The other events of a transcript are the result messages and notices, unchanged and in order. |
| TranscriptFacts.ResponsesAreTheRuns | packages/agent-runs/src/adapters.ts:15-153 | The responses of a transcript are, in order, one for each frame that opens one: the model and id of that frame, the blocks of all its frames one by one, for each count the greatest that a frame reports, the first request id, and the stop reason of the documented rule. |
| TranscriptFacts.ResponsesAreInPlace | packages/agent-runs/src/adapters.ts:85-153 | Every response stands where its first frame does among the tool results, notices and other responses. |
| TranscriptFacts.CallsFollowTheirResponse | packages/agent-runs/src/adapters.ts:130-153 | In every transcript each tool call stands behind its response, with the calls of that response only in between. |
| RunLogger.AddsAccountForAll | packages/agent-runs/src/run-logger.ts:53-79 | After any adds, kept lines plus dropped events are the number of adds, the byte counter is the size of the kept lines, and they leave the stop reserve free. |
| RunLogger.SerializeAccounts | packages/agent-runs/src/run-logger.ts:111-140 | Whatever the scrubber does, serialize reports the true size of its text, at most the cap; in a non-empty text the event lines plus the drop count of its stop line are the number of adds, an empty one reports all adds and the stop line as dropped. |
| RunLogger.ReserveSuffices | packages/agent-runs/src/run-logger.ts:69-73 | A stop line within the reserve costs no retained event. |
| RunLogger.UsageTotalsAreExact | packages/agent-runs/src/run-logger.ts:24-62 | Until usage is replaced, the totals are per model the sums of all valid response usages, dropped lines included; thinking is present exactly when some usage has it. |
| RunLogger.LargerCapKeepsLines | packages/agent-runs/src/run-logger.ts:63-75 | For the same adds the lines kept under a smaller cap are a prefix of those kept under a larger cap. |
| RunLogger.RaisingTheCapKeepsLines | packages/agent-runs/src/run-logger.ts:63-140 | The event lines serialized under a smaller cap are a prefix of those under a larger cap, if a scrubber that throws on a stop line also throws for every larger drop count. |
| RunLogger.FailureLosesLines | packages/agent-runs/src/run-logger.ts:111-140 | For a scrubber that throws on one drop count and not on a larger one there are adds and two caps where the larger cap loses lines. |
| RunLogger.CapMonotoneExactly | packages/agent-runs/src/run-logger.ts:63-140 | Raising the cap never loses lines exactly for the scrubbers whose stop-line failures are upward closed. |
| RunLogger.RunLogger.constructor | packages/agent-runs/src/run-logger.ts:45-51 | A fresh logger with the cap floored and raised to the minimum, or the default. |
| RunLogger.RunLogger.Add | packages/agent-runs/src/run-logger.ts:53-79 | One add counts, sums valid usage, and keeps or drops the line as the cap allows. |
| RunLogger.RunLogger.ReplaceUsage | packages/agent-runs/src/run-logger.ts:82-92 | All-valid totals replace the usage, any malformed one leaves it unchanged. |
| RunLogger.RunLogger.UsageTotals | packages/agent-runs/src/run-logger.ts:94-97 | Replaced totals if there are any, otherwise the sums. |
| RunLogger.RunLogger.Serialize | packages/agent-runs/src/run-logger.ts:111-140 | The popping loop ends with the result the accounting is proved for. |
| RunLogger.LogRun | packages/agent-runs/src/run-logger.ts:33-140 | A whole run of adds and a serialize on a fresh logger gives the transcript and totals the lemmas speak of. |
| RunLoggerFacts.KeptExactly | packages/agent-runs/src/run-logger.ts:53-79 | Every line that was encoded before the log first overflows is kept, each its own and in order, whatever kind of event it is of, and none after; the response count is that of the responses added. |
| RunLoggerFacts.CapIs | packages/agent-runs/src/run-logger.ts:45-51 | Without a request the cap is twenty million bytes, otherwise the request rounded down and at least 4096. |
| RunLoggerFacts.FitExactly | packages/agent-runs/src/run-logger.ts:111-140 | From all lines downwards, the first attempt that fits, or on whose stop line the scrubber throws, decides what is serialized. |
| RunLoggerFacts.TotalsAreTheReports | packages/agent-runs/src/run-logger.ts:24-62 | A model has totals exactly if one of its responses reports usable counts, and each total is the sum of that reported field over those responses. |
| ToolLoop.RunLoop | packages/agent-core/src/tool-loop.ts:94-242 | The loop makes exactly the run that the environment determines, and every run is as RunOk says: histories in order, calls at most the turns left, consecutive turn numbers with only the last possibly unclosed, a result if and only if no hook that was called and no event that was given to the listener made it throw, nothing asked of anyone after a throw, one terminal event if there is a result and otherwise none unless the listener threw on it or on the end of its turn, success exactly when it is completed, an explained ending, and the budget kept before every call after the first. |
| ToolLoop.Turn | packages/agent-core/src/tool-loop.ts:104-237 | One turn: announced, then cancellation, a failed call, the budget, announcements, completion or tools, each as the turn function says, up to the first callback that throws, and why it ends the run. |
| ToolLoop.RunTool | packages/agent-core/src/tool-loop.ts:173-234 | One tool call, unknown, blocked, failed, given up, answered or stopped by a callback that throws; the answer carries the id of its use and redacted output. |
| ToolLoop.Emit | packages/agent-core/src/tool-loop.ts:96 | Events go to the listener one by one, and the one on which it throws is the last. |
| ToolLoop.RunTools | packages/agent-core/src/tool-loop.ts:172-236 | All tool calls of a turn in order; if all are answered there is one result for each use, in order. |
| ToolLoop.ReadContent | packages/agent-core/src/tool-loop.ts:142-153 | Announces each part of a reply in order, up to one on which the listener throws, and collects its tool uses and last text. |
| ToolLoop.Complete | packages/agent-core/src/tool-loop.ts:155-170 | The completion branch ends the run or goes on with the injected message, unless the hook or the listener throws. |
| ToolLoop.UseTools | packages/agent-core/src/tool-loop.ts:172-237 | The tool branch goes on with the results, or completes when the agent gave up. |
| ToolLoop.BlockedToolsAreNotExecuted | packages/agent-core/src/tool-loop.ts:172-234 | In every run a tool is executed only if it is known and the hook asked just before allowed it, and whatever executing the others would have done the whole run, with its events, histories and result, is the same. |
| ToolLoop.ThrowingHookLeavesNoResult | packages/agent-core/src/tool-loop.ts:155-170 | A run in which it happens: a text reply whose completion hook throws leaves no result and no terminal event. |
| ToolLoop.ThrowingListenerLeavesNoResult | packages/agent-core/src/tool-loop.ts:96-104 | Another: a listener that throws on the first event leaves no call, no result and no terminal event, although no hook threw. |
| ToolLoop.EveryCallSeesAnAlternatingHistory | packages/agent-core/src/tool-loop.ts:99-170 | At every model call the history starts and ends with a user message and roles alternate. |
| ToolLoop.EveryToolUseIsAnswered | packages/agent-core/src/tool-loop.ts:142-236 | A reply that took the tool branch is followed in every later history by one user message whose results carry the ids of its tool uses, in order. |
| ToolLoop.OnlyRedactedTextReachesTheModel | packages/agent-core/src/tool-loop.ts:95-236 | Every text, id, name, input and output in every history was produced by the redactor. |
| ToolLoop.OverspendIsOneResponse | packages/agent-core/src/tool-loop.ts:129-140 | A run that starts within its budget, or makes a second call, ends over the budget by at most the cost of the response to its last call, nothing if that call failed. |
| ToolLoopFacts.EveryCallTells | packages/agent-core/src/tool-loop.ts:99-236 | In every run, at every call, the history is the redacted task and, for each earlier call, the redacted reply and what came of it: for every tool use, under its id, the redacted output of its own execution without an error flag, the redacted failure of its execution with one, or the refusal of an unknown or blocked tool with one; otherwise the message that the completion hook injected. |
| ToolLoopFacts.EveryTurnIsHeard | packages/agent-core/src/tool-loop.ts:105-237 | In every run, up to every call, the listener has heard each turn before it: its start, every part of the reply, the call and the answer of every tool use with output and error flag, or the injected message, and its end with the usage. |
| ToolLoopFacts.EveryExecutionIsTold | packages/agent-core/src/tool-loop.ts:200-234 | In every run, also in the turn that ends it, an execution is followed by the event with its redacted output or failure and by the hook that is told of it, unless the tool gave up or a callback threw. |
| ToolLoopFacts.EveryToolUseIsRecorded | packages/agent-core/src/tool-loop.ts:173-180 | In every run whose hooks leave the record alone the state counts and lists the tool uses in order with redacted names and inputs: all of the earlier replies, and of the last those that were reached. |
| ToolLoopFacts.EveryResultTells | packages/agent-core/src/tool-loop.ts:104-242 | In every run with a result it reports the final state; a success has its completion and the last text or the reason for giving up, and a failure the error code of its cause. |
| ToolLoopFacts.EveryContactHasItsNumber | packages/agent-core/src/tool-loop.ts:94-242 | In every run the contacts with hooks, tools and listener are numbered from zero on without gaps, except for the question of cancellation and the model call behind the start of a turn, so nobody is asked twice at one moment. |
| ToolLoopFacts.CostPerMillion | packages/agent-core/src/tool-loop.ts:244-251 | A million tokens of one kind cost exactly the price of that kind. |
| ToolLoopFacts.RedactedOnce | packages/agent-core/src/tool-loop.ts:343-352 | Redacting a value by one redactor and then by another is redacting it once by both, so every string in it is redacted exactly once. |
| JsonScanner.AcceptsExactlyJsonTexts | packages/ingestion/debugid/debugid.go:143-390 | The recogniser accepts exactly the texts of RFC 8259 (sections 2 to 7) nested at most 64 deep, with distinct decoded member names, paired surrogates and finite numbers. |
| JsonScanner.AcceptedIsJson | packages/ingestion/debugid/debugid.go:143-390 | Soundness: an accepted input is whitespace, the rendering of a well-formed tree, and whitespace. |
| JsonScanner.JsonIsAccepted | packages/ingestion/debugid/debugid.go:143-390 | Completeness: every rendering of every well-formed tree is accepted to its last byte. |
| JsonScanner.ValueSound | packages/ingestion/debugid/debugid.go:155-181 | What the value reader consumes is the rendering of some well-formed tree that fits the depth left. |
| JsonScanner.ValueComplete | packages/ingestion/debugid/debugid.go:155-181 | The rendering of a tree that fits, followed by anything that does not continue a number, is read up to its end. |
| JsonScanner.ElementsSound | packages/ingestion/debugid/debugid.go:218-237 | The same soundness for the elements of an array. |
| JsonScanner.ElementsComplete | packages/ingestion/debugid/debugid.go:218-237 | The same completeness for the elements of an array. |
| JsonScanner.MembersSound | packages/ingestion/debugid/debugid.go:183-216 | The same soundness for the members of an object, whose decoded names are distinct from each other and from those seen before. |
| JsonScanner.MembersComplete | packages/ingestion/debugid/debugid.go:183-216 | The same completeness for the members of an object. |
| JsonScanner.LexStringSound | packages/ingestion/debugid/debugid.go:239-298 | A string that is read is the rendering of well-formed characters up to its closing quote. |
| JsonScanner.NumberSound | packages/ingestion/debugid/debugid.go:317-363 | A number that is read is a sign, an integer, a fraction and an exponent of the grammar. |
| JsonScanner.NumberComplete | packages/ingestion/debugid/debugid.go:317-363 | Every number of the grammar is read in full when what follows does not continue it. |
| JsonScanner.LiteralUnmarshals | packages/ingestion/debugid/debugid.go:249-253 | A literal read to its closing quote always decodes, to the meaning of its characters. |
| JsonScanner.Scanner.ScanAll | packages/ingestion/debugid/debugid.go:143-153 | The scanner program ends with the outcome, and on rejection the reason, of the recogniser on the whole input. |
| JsonScanner.Scanner.ScanValueAt | packages/ingestion/debugid/debugid.go:155-181 | The value method leaves the input, or the reason, that the recogniser leaves. |
| JsonScanner.Scanner.ScanObject | packages/ingestion/debugid/debugid.go:183-216 | The same for objects, with the map of names as the set of decoded names seen. |
| JsonScanner.Scanner.ScanMember | packages/ingestion/debugid/debugid.go:189-210 | One member of an object: the first of its errors in reading order, or its name among the names and the rest after its value. |
| JsonScanner.Scanner.ScanArray | packages/ingestion/debugid/debugid.go:218-237 | The same for arrays. |
| JsonScanner.Scanner.StringLiteral | packages/ingestion/debugid/debugid.go:239-298 | The same for strings, and the decoded text is the meaning of the characters. |
| JsonScanner.Scanner.EscapeSequence | packages/ingestion/debugid/debugid.go:259-295 | One escape, with surrogate pairs and the reason of each failure. |
| JsonScanner.Scanner.NumberLiteral | packages/ingestion/debugid/debugid.go:317-363 | The same for numbers, rejecting the non-finite ones. |
| JsonFaults.RejectionHasItsFault | packages/ingestion/debugid/debugid.go:143-390 | Every rejection has its cause: trailing data only behind a whole text that fits the depth, excess depth only at a value one level too deep, a duplicate name only where it is repeated, and so on for each reason, with everything before it well formed. |
| JsonFaults.CharacterClasses | packages/ingestion/debugid/debugid.go:239-390 | Whitespace, digits, escapes and hexadecimal digits are those of RFC 8259, sections 2, 6 and 7. |
| JsonFaults.MeaningsAreStandard | packages/ingestion/debugid/debugid.go:259-295 | The characters of a literal stand for themselves, the named escapes for theirs, a code unit for its UTF-8, and a surrogate pair for the code point that it encodes. |
| JsonFaults.RunesAreStandard | packages/ingestion/debugid/debugid.go:239-298 | The width by which the scanner skips a rune is that of the code point, other than a surrogate, whose shortest UTF-8 form is next (RFC 3629, section 3), and one if there is none. |
| Rollup.RunRollupBackfill | packages/ingestion/db/rollup_backfill.go:28-97 | The status is complete after a run only when every environment rollup of every error group is what its source rows say, whatever events and groups other transactions add between its statements, whatever writers without rollups did during the first pass, and whichever statement fails; a failed run goes back to pending, makes no exact group inexact while all writers are current, and a skipped one changes nothing. |
| Rollup.RunPass | packages/ingestion/db/rollup_backfill.go:110-145 | One keyset pass, interleaved with ingestion, settlements, folds and promotions, ends with all rollups exact if no statement fails, and never makes an exact group inexact. |
| Rollup.RecomputeMakesExact | packages/ingestion/db/rollup_backfill.go:147-234 | Recomputing a batch makes its error groups exact and keeps every other exact group exact. |
| Rollup.IngestKeepsExact | packages/ingestion/db/queries.go:1264-1306 | Ingesting an event keeps every exact group exact, in every environment. |
| Rollup.SettleKeepsExact | packages/ingestion/identity/settle.go:188-232 | Settling an observation on its issue keeps every exact group exact. |
| Rollup.FoldKeepsExact | packages/worker/src/friction/promotion-db.ts:575-613 | Folding a friction signal, which counts all its repeats on an error group and nothing on a friction group, keeps every exact group exact. |
| Rollup.PromoteKeepsExact | packages/worker/src/friction/promotion-db.ts:896-958 | Attaching signals and rebuilding the incident from its source rows keeps every exact group exact. |
| Rollup.MissingGroupIsExact | packages/ingestion/db/queries.go:1264-1306 | A group that does not exist yet has neither rows nor rollups, so it is exact at birth. |
| Rollup.WritesKeepExact | packages/ingestion/db/queries.go:1264-1306 | Any sequence of ingestions, settlements, folds and promotions keeps exact and new groups exact. |
| Rollup.ExactStaysExact | packages/ingestion/db/queries.go:1264-1306 | After the backfill, ingestion keeps all rollups exact for ever. |
| Rollup.LegacyWriteBreaksExactness | packages/ingestion/db/rollup_backfill.go:84-86 | A write without its rollup always makes an exact group inexact, which is why there is a second pass. |
| Rollup.MergeIsExactExactly | packages/ingestion/identity/merge.go:57-76 | A confirmed merge keeps other groups exact, and leaves the winner, and the loser, exact if and only if no live signal is folded onto it. |
| Rollup.MergeLosesFolds | packages/ingestion/identity/merge.go:52-202 | A run of current writes that leaves two mergeable issues exact, and whose merge loses the repeats of a folded signal. |
| Rollup.AggregateMeaning | packages/ingestion/db/rollup_backfill.go:197-216 | The recomputed row has the earliest time, the latest time and the total number of occurrences of the source rows. |
| Rollup.SelectPage | packages/ingestion/db/rollup_backfill.go:113-136 | A page is the least ids beyond the keyset, in order, at most the batch size, and empty only when none is left. |
| Rollup.Tables.InsertErrorEventAndGroup | packages/ingestion/db/queries.go:1264-1306 | The upserts of group, event link and rollup answer true if and only if the key belongs to an error group, or is new and the new id is unused; the tables then hold the event in its group, environment and time, and otherwise are unchanged. |
| Rollup.IngestStores | packages/ingestion/db/queries.go:1264-1306 | An ingestion commits if and only if its key belongs to an error group, or is new and the new id is unused. It then adds one event row of its time and environment to the group recorded for its project and fingerprint, which is an error group, and the recorded count of that group and environment grows by one with its time in the bounds; every other row, key and rollup stays. Otherwise nothing changes. |
| Rollup.SettleStores | packages/ingestion/identity/settle.go:188-232 | A settlement stores its observation in an error group, whose rollup in its environment grows by one, and nowhere else. |
| Rollup.FoldStores | packages/worker/src/friction/promotion-db.ts:575-613 | A fold stores a live signal in its group, and only the rollup of an error group grows, by all repeats. |
| Rollup.PromoteStores | packages/worker/src/friction/promotion-db.ts:896-958 | A promotion stores its signals, makes its group exact and leaves other rollups alone. |
| Rollup.RecomputeStores | packages/ingestion/db/rollup_backfill.go:147-234 | A recomputed batch touches no source row and no rollup of a group that is not an error group of the batch. |
| Rollup.MergeMoves | packages/ingestion/identity/merge.go:61-202 | The events of the loser are the winner's after a merge, and no row is lost or changed otherwise. |
| Rollup.ExactMeans | packages/ingestion/db/rollup_backfill.go:197-216 | An exact error group has a rollup for each environment with source rows and for no other, with their earliest and latest time and their number, repeats included. |
| Rollup.Tables.AttachObservation | packages/ingestion/identity/settle.go:188-232 | Links the observation and bumps the rollup. |
| Rollup.Tables.AttachSignal | packages/worker/src/friction/promotion-db.ts:575-613 | Attaches the signal and bumps the rollup of an error group by its repeats. |
| Rollup.Tables.ConfirmMerge | packages/ingestion/identity/merge.go:61-202 | Merges unless the guard refuses, which it does exactly for equal or friction groups and for events without a settled identity. |
| Rollup.Tables.RecomputeRollupBatch | packages/ingestion/db/rollup_backfill.go:147-234 | Deleting and re-inserting the rollups of the locked error groups gives the recomputed tables, and the ledger has the batch of the pass. |
| Digest.ImpactIsStrictTotalOrder | packages/ingestion/digest/actionable.go:373-389 | The impact comparison is irreflexive, asymmetric, transitive and total on distinct ids. |
| Digest.RankingIsUnique | packages/ingestion/digest/actionable.go:362-368 | There is only one ranking of a collection of candidates. |
| Digest.SelectionIgnoresInputOrder | packages/ingestion/digest/actionable.go:362-421 | The selection, its order and the overflow count are the same however the candidates are listed. |
| Digest.SelectionShape | packages/ingestion/digest/actionable.go:362-421 | Exactly min(n, limit) distinct candidates are picked, the rest are counted as overflow, and the best limit minus one by impact are among the picked. |
| Digest.OldestIsAlwaysPicked | packages/ingestion/digest/actionable.go:394-421 | The candidate that has waited longest of all is always picked. |
| Digest.SomeoneIsOldest | packages/ingestion/digest/actionable.go:403-414 | There is such a candidate as soon as one has a waiting age. |
| Digest.SelectActionable | packages/ingestion/digest/actionable.go:362-368 | Sorting by impact and reserving a slot computes the selection the lemmas speak of. |
| Digest.SortByImpact | packages/ingestion/digest/actionable.go:363-366 | The sort gives the ranking. |
| Digest.TakeOldest | packages/ingestion/digest/actionable.go:394-421 | The loop finds the oldest waiter outside the top and puts it last. |
| Digest.EvaluateActionable | packages/ingestion/digest/actionable.go:288-320 | Every candidate is either selected or excluded with its one reason: its own, or capped_overflow if it competed. |
| Digest.SelectOnCardCandidates | packages/ingestion/digest/freeze_friction.go:23-70 | The same for the card lane, and every included candidate has a waiting age. |
| Digest.EvaluationReconciles | packages/ingestion/digest/actionable.go:523-545 | The reconciliation never reports a mismatch. |
| Digest.OverflowRowsAreCounted | packages/ingestion/digest/actionable.go:309-318 | The capped_overflow rows are as many as the overflow count. |
| Digest.KeptOrRow | packages/ingestion/digest/actionable.go:288-320 | An id is a candidate exactly if it is selected or has a row with a known reason, never both. |
| Digest.FreezeLedger | packages/ingestion/digest/freeze_friction.go:182-213 | The ledger has one row per candidate with its outcome and reason, in the order of the ids, and the empty-reason fallback is never reached. |
| DigestFacts.ImpactMeans | packages/ingestion/digest/actionable.go:373-389 | What ranks first: more affected users, then more occurrences, then the lexicographically smaller id. |
| DigestFacts.SelectionMeans | packages/ingestion/digest/actionable.go:362-421 | The selection takes the competitors by impact; if they are more than the limit, its last slot goes to the one among the rest that has waited longest. |
| DigestFacts.LanesEvaluate | packages/ingestion/digest/actionable.go:288-320 | The receipts lane has five places and the card lane nine, and every candidate is kept, excluded for its own reason, or counted as overflow. |
| DigestFacts.ReceiptReasons | packages/ingestion/digest/actionable.go:288-320 | Why the receipts lane leaves a candidate out before it ranks, first reason first. |
| DigestFacts.CardReasons | packages/ingestion/digest/freeze_friction.go:23-70 | Why the card lane does. |
| DigestFacts.RowsMean | packages/ingestion/digest/freeze_friction.go:182-213 | The ledger row of a candidate says included, or excluded with its reason, which for a competitor is the cap. |
| OAuthLease.ConsumedAtMostOnce | packages/ingestion/db/queries.go:3573-3623 | In every log of interleaved calls a state is used up at most once, by finalizing or by consuming. |
| OAuthLease.OnlyTheLeaseFinalizes | packages/ingestion/db/queries.go:3539-3589 | After any log, the tokens that can finalize a state are exactly the one of its last reservation, not released, less than two minutes old, not used and not expired, so there is at most one. |
| OAuthLease.StaleTokenDoesNothing | packages/ingestion/db/queries.go:3573-3605 | A token that was reserved over is refused by finalize and release and changes nothing. |
| OAuthLease.LeasesDoNotOverlap | packages/ingestion/db/queries.go:3539-3569 | Two reservations without a release in between are at least two minutes apart. |
| OAuthLease.RowFollowsHistory | packages/ingestion/db/queries.go:3497-3623 | The lease and the use of a row are what the log of calls says. |
| OAuthLease.LeaseIsLastReservation | packages/ingestion/db/queries.go:3539-3569 | The lease in a log is its last reservation, with no release after it. |
| OAuthLease.LoginStates.ReserveState | packages/ingestion/db/queries.go:3539-3569 | The reserve statement and its in-flight check change the row and answer as the log step does. |
| OAuthLease.LoginStates.FinalizeState | packages/ingestion/db/queries.go:3573-3589 | The same for finalize. |
| OAuthLease.LoginStates.ReleaseState | packages/ingestion/db/queries.go:3592-3605 | The same for release. |
| OAuthLease.LoginStates.ConsumeState | packages/ingestion/db/queries.go:3609-3623 | The same for consume. |
| OAuthLease.LoginStates.StoreState | packages/ingestion/db/queries.go:3497-3506 | The same for storing a state. |
| OAuthLease.LoginStates.CleanupStates | packages/ingestion/db/queries.go:3752-3757 | The same for the daily cleanup. |
| OAuthLeaseFacts.AnswersByHistory | packages/ingestion/db/queries.go:3539-3623 | In every log, by the calls before: a reservation succeeds exactly when the state is live and nobody holds it, is in flight exactly when it is live and held, and is refused otherwise; a finalize succeeds exactly when the state is live and held by that token, a consume exactly when it is live, and a release exactly when its row is unused and held by that token. |
| OAuthLeaseFacts.RowsChange | packages/ingestion/db/queries.go:3497-3623 | Storing adds a fresh row where there was none, the cleanup removes exactly the rows that expired or were used more than a day ago, and no other call adds, removes or touches another row or moves an expiry. |
| PrWebhook.MergedExactly | packages/ingestion/db/queries.go:2436-2718 | Over any run the group ends merged if and only if some delivery would merge it (its own merge, for a draft only before a close; for another PR also that of an earlier PR while it is closed), at the time of the first that would; otherwise it stays as the closes leave it. |
| PrWebhook.FirstMergeWins | packages/ingestion/db/queries.go:2436-2718 | For a group that owns a unique PR, every run of deliveries in any order and with repetitions that contains a merge of the PR ends merged if and only if the PR was not a draft closed before it, otherwise with a human; the time is that of the first merge of the PR, or, if the PR was no draft and an earlier PR of the group was merged after a close and before it, of the first of those. |
| PrWebhook.MergeBeforeCloseWins | packages/ingestion/db/queries.go:2565-2601 | Merges of earlier PRs of the group make no difference while the PR is not closed before its first merge. |
| PrWebhook.OldPrWins | packages/ingestion/db/queries.go:2652-2718 | A run in which one does: the PR is closed, an earlier PR of the group is merged, and the reopened PR is merged; the group keeps the time of the earlier merge. |
| PrWebhook.OnlyMergesMerge | packages/ingestion/db/queries.go:2565-2718 | Without a merge of its PR a run merges the group if and only if the PR is no draft and an earlier PR of the group is merged after a close, at the time of the first such merge. |
| PrWebhook.ReopenedDraftStaysHuman | packages/ingestion/db/queries.go:2576-2590 | A concrete draft that is closed, reopened and merged ends in needs_human with both receipts. |
| PrWebhook.RunTracks | packages/ingestion/db/queries.go:2436-2718 | Over a run the group, its PR fields, the other groups and the receipts stay in the phase that the deliveries about the PR, and merges of earlier PRs of the group while it is closed, determine. |
| PrWebhook.EveryReceiptHasItsJob | packages/ingestion/db/queries.go:2547-2563 | After every run each receipt with a fix job has exactly one score_sync job, and any other delivery id none. |
| PrWebhookFacts.DeliveryRecords | packages/ingestion/db/queries.go:2436-2718 | A delivery is recorded exactly when it reaches a group, and is a duplicate exactly when its id has a receipt. Recorded are one receipt with its id, PR, outcome and time and the fix job that the group had, one score_sync job of the same if there was one, and the change of that one group. |
| PrWebhookFacts.JobsReportTheirReceipts | packages/ingestion/db/queries.go:2547-2563 | After every run the score_sync job of a receipt has the group, fix job, outcome and time of the receipt. |
| PrWebhookFacts.ReceiptsTellDeliveries | packages/ingestion/db/queries.go:2530-2545 | Over a run earlier receipts stay, and every new one has the id, PR, outcome and time of a delivery of the run. |
| PrWebhookFacts.ParkedByKind | packages/ingestion/db/queries.go:2565-2601 | Over a run a group that a close of its PR parked has status awaiting_approval if and only if it is a friction group, and investigated otherwise. |
| PrWebhook.RunsKeepConsistent | packages/ingestion/db/queries.go:2530-2563 | No delivery id ever has two receipts, and the score_sync jobs are those of the receipts in order. |
| PrWebhook.RedeliveryChangesNothing | packages/ingestion/db/queries.go:2454-2473 | A delivery that arrives twice in a row changes nothing the second time. |
| PrWebhook.PullRequestTables.ProcessPRWebhook | packages/ingestion/db/queries.go:2436-2641 | The transaction takes the tables and answers as the step does, for right answers of its queries. |
| PrWebhook.PullRequestTables.RecoverReopenedMerge | packages/ingestion/db/queries.go:2652-2718 | The recovery of a merge through the latest receipt does the same. |
| PrWebhook.PullRequestTables.LatestReceipt | packages/ingestion/db/queries.go:2655-2668 | Finds a latest receipt about the PR if there is one. |
| Sessions.CountersAreExact | packages/ingestion/db/sessions.go:213-263 | After every run of all steps, each session counts exactly its committed chunks and their bytes, and its next sequence number exceeds all of theirs. |
| Sessions.ClaimedAtMostFiveTimes | packages/ingestion/db/sessions.go:305-352 | Over a whole run no chunk of a session is claimed for scrubbing more than five times, whatever is released, reserved again or deleted meanwhile. |
| Sessions.TombstonedIsNeverRegistered | packages/ingestion/db/sessions.go:59-87 | Once an id has a tombstone every later registration of it is refused and changes nothing. |
| Sessions.DeletingHasTombstone | packages/ingestion/db/sessions.go:458-491 | A session being deleted always has its tombstone. |
| Sessions.StepKeepsTombstones | packages/ingestion/db/sessions.go:458-565 | Tombstones are never removed, every session that leaves the table has one, and no tombstoned id comes back. |
| Sessions.OnlyTheWorkerUndeletes | packages/worker/src/db.ts:4355-4398 | A session stops being deleted, other than by disappearing, if and only if the worker writes its status. |
| Sessions.UndeletedSession | packages/worker/src/db.ts:4355-4398 | A run in which it happens: a session in deletion with its tombstone becomes analyzed and takes uploads again. |
| Sessions.PinHolds | packages/ingestion/db/capture.go:113-124 | After an event at time t pins a session, no later step starts its deletion before t plus 30 days, whatever the project retention, unless the 90-day cap has passed. |
| Sessions.RunsKeepPin | packages/ingestion/db/queries.go:1251-1262 | Over a run a pinned session keeps its start and a retain_until at least as late, or is gone and tombstoned. |
| Sessions.DeletionRechecks | packages/ingestion/db/sessions.go:465-480 | A deletion only starts in MarkSessionDeleting, for a session that is expired at that moment. |
| Sessions.OneLiveJobPerSession | packages/ingestion/db/sessions.go:356-396 | In every run each session has at most one pending or claimed analysis job across all producers, and none while it records. |
| Sessions.LiveJobStaysUniqueExactly | packages/worker/src/db.ts:3827-3843 | No step gives a session a second live job, except the budget retry of the worker, which does so if and only if the session has a claimed job and no pending one. |
| Sessions.TwoLiveJobs | packages/worker/src/db.ts:3827-3843 | A run that gives a session a claimed and a pending job. |
| Sessions.ReadableIsCovered | packages/ingestion/db/sessions.go:356-396 | A step that makes a chunk readable leaves the session with a live job if and only if the session is closed, analyzed or analysis_failed or had one before. |
| Sessions.ReadableWithoutJob | packages/ingestion/db/sessions.go:356-396 | A run that ends with a readable chunk and no live job: the job died while the scrubber had the chunk. |
| Sessions.CloseIsCovered | packages/ingestion/db/sessions.go:640-657 | A session is never closed without a live job. |
| Sessions.SessionTables.RegisterSession | packages/ingestion/db/sessions.go:59-155 | Registration refuses tombstoned ids and other projects, leaves a known session alone, and adds a new one. |
| Sessions.SessionTables.ReserveChunkSeq | packages/ingestion/db/sessions.go:191-208 | A reservation needs an accepting session and a free sequence number. |
| Sessions.SessionTables.CommitChunk | packages/ingestion/db/sessions.go:213-263 | A commit updates the chunk and the counters once; a retry changes nothing. |
| Sessions.SessionTables.ReleaseChunkReservation | packages/ingestion/db/sessions.go:623-632 | Only an uncommitted reservation is removed. |
| Sessions.SessionTables.ClaimUnscrubbedChunks | packages/ingestion/db/sessions.go:318-352 | Claims the chunks uploaded first among the claimable ones that no other claim has locked, up to the limit, and all of them if they are fewer. |
| Sessions.SessionTables.MarkChunkScrubbed | packages/ingestion/db/sessions.go:356-396 | Marks the chunk readable and adds a job if the session awaits analysis and has none live. |
| Sessions.SessionTables.MarkChunkScrubFailed | packages/ingestion/db/sessions.go:400-413 | Gives the claim back and leaves the chunk unreadable. |
| Sessions.SessionTables.MarkSessionDeleting | packages/ingestion/db/sessions.go:458-491 | Marks and tombstones an expired session, otherwise changes nothing. |
| Sessions.SessionTables.DeleteMarkedSession | packages/ingestion/db/sessions.go:516-565 | Deletes a marked session with its chunks and detaches its jobs. |
| Sessions.SessionTables.CloseIdleSessions | packages/ingestion/db/sessions.go:640-657 | Closes exactly the idle recording sessions and adds one job for each. |
| Sessions.SessionTables.EnqueueAnalysisBackfillBatch | packages/ingestion/db/sessions_read.go:205-223 | Adds one job each, newest start first, for a batch of the sessions that await analysis, have no current one, have no live job and are recent, and for all of them if they are fewer. |
| Sessions.SessionTables.PinSession | packages/ingestion/db/queries.go:1251-1262 | Raises retain_until to 30 days from now, never lowers it. |
| SessionFacts.DeletionStartsExactly | packages/ingestion/db/sessions.go:458-491 | A session that is not being deleted is so after a step, with a tombstone, exactly when the step marks it in its project and it started before the 90-day cap, or before the retention window with no retain_until later than now. |
| SessionFacts.RegistrationAnswers | packages/ingestion/db/sessions.go:59-155 | Registration refuses a tombstoned id; a known id is refused exactly when its project differs and is otherwise the existing session; any other id becomes a recording session without chunks. |
| SessionFacts.SessionsComeAndGo | packages/ingestion/db/sessions.go:59-565 | The only session that a step adds is the one registered, the only one it removes the one deleted after its mark, and no step changes a project or a start. |
| SessionFacts.StatusExactly | packages/ingestion/db/sessions.go:458-657 | When each step changes the status of a session, and to what. |
| SessionFacts.PinsExactly | packages/ingestion/db/queries.go:1251-1262 | A pin moves retain_until to the later of what it was and 30 days from now, or for an incident 90 days from the start; nothing else moves it. |
| SessionFacts.UploadAnswers | packages/ingestion/db/sessions.go:191-263 | Reservation and commit answer not found unless the session takes uploads; a number is taken exactly when it has a row; a commit needs the row and is a retry exactly when it is committed. |
| SessionFacts.ChunksComeAndGo | packages/ingestion/db/sessions.go:191-632 | A chunk appears exactly when it is reserved and disappears exactly when its uncommitted reservation is released or its session deleted. |
| SessionFacts.UploadsExactly | packages/ingestion/db/sessions.go:213-263 | A chunk is committed by the one commit that finds it uncommitted, with the time and size of that commit. |
| SessionFacts.LeasesExactly | packages/ingestion/db/sessions.go:305-413 | A claim counts an attempt and leases the chunk from now; marking it scrubbed or failed gives the lease back. |
| SessionFacts.ClaimsNeed | packages/ingestion/db/sessions.go:318-352 | What may be claimed: an uploaded, unreadable chunk of a session that is not being deleted, settled for 30 seconds, not leased in the last two minutes and tried fewer than five times. |
| SessionFacts.JobsExactly | packages/ingestion/db/sessions.go:356-657 | Jobs are only appended, as pending ones; earlier ones lose their session exactly when it is deleted and change status exactly when the worker claims, finishes or reaps them. |
| SessionFacts.ScrubAddsJobExactly | packages/ingestion/db/sessions.go:356-396 | A chunk that becomes readable adds one job exactly when its session is closed, analyzed or failed and has no live job. |
| SessionFacts.BackfillsNeed | packages/ingestion/db/sessions_read.go:205-223 | What the backfill may take: sessions started in the last thirty days that are closed, analyzed or failed and have no live job. |
| SessionFacts.BudgetRetryAddsJobExactly | packages/worker/src/db.ts:3827-3843 | A budget retry adds one job exactly when the session has no pending one. |
| SessionFacts.BatchesAddJobs | packages/ingestion/db/sessions.go:640-657 | Closing takes all idle sessions and appends one job for each; the backfill appends one for each session it picks. |
| Inquiry.AdmissionsArePaidFor | packages/ingestion/filter/dispatch.go:172-294 | In every run, however stale the candidates that a sweep admits, an episode never has more automatic inquiry jobs than factual decisions. |
| Inquiry.ConsecutiveDecisionsDiffer | packages/ingestion/filter/evaluate.go:142-167 | In every run consecutive factual decisions of an episode differ. |
| Inquiry.VersionsAreNotShared | packages/ingestion/db/inbox.go:135-170 | In every run the jobs of an episode, automatic and human, have increasing input versions, and only one of two is ever active. |
| Inquiry.RuleMeaning | packages/ingestion/filter/evaluate.go:73-140 | An episode is admitted if and only if two users or anonymous sessions were reached in the last seven days, and inactive if and only if its last event in scope is older. |
| Inquiry.StepKeepsOk | packages/ingestion/filter/dispatch.go:172-294 | Every step keeps decisions in order and different, jobs numbered without gaps, automatic jobs paid for, and listed candidates valid until a job takes their version. |
| Inquiry.CandidateRefOk | packages/ingestion/filter/dispatch.go:172-240 | A candidate is listed with the next version and has a decision newer than every job of its episode. |
| Inquiry.AdmitKeepsEpisode | packages/ingestion/filter/dispatch.go:242-294 | Admitting a listed candidate, stale or not, either changes nothing or adds the next version, and keeps the episode paid for. |
| Inquiry.ReviewKeepsEpisode | packages/ingestion/db/inbox.go:135-170 | A requested review keeps the episode paid for and numbered. |
| Inquiry.AppendKeepsEpisode | packages/ingestion/filter/evaluate.go:142-167 | Appending a changed decision keeps the decisions in order and different. |
| Inquiry.InquiryTables.Evaluate | packages/ingestion/filter/evaluate.go:41-71 | One evaluation takes the tables to the next state and returns the decision. |
| Inquiry.InquiryTables.InquiryCandidates | packages/ingestion/filter/dispatch.go:172-240 | Lists the candidates opened first, ties by id, with their next versions, up to the sweep limit, and all of them below it. |
| Inquiry.InquiryTables.AdmitOne | packages/ingestion/filter/dispatch.go:242-294 | One admission adds the job, adds nothing where the version or an active job is there already, or is refused because the episode is closed or its latest decision is no longer an inquiry, and answers which. |
| Inquiry.InquiryTables.RequestIssueReview | packages/ingestion/db/inbox.go:135-170 | One request takes the step and reports whether a job was added. |
| Inquiry.InquiryTables.Tick | packages/ingestion/filter/dispatch.go:49-108 | A sweep is a run that closes the episodes of resolved issues, evaluates the stale episodes opened first in order, lists once and tries to admit every candidate listed. |
| Inquiry.InquiryTables.ListStale | packages/ingestion/filter/dispatch.go:128-170 | Lists the stale episodes opened first, ties by id, up to the sweep limit, and all of them below it. |
| Inquiry.InquiryTables.CloseResolvedEpisodes | packages/ingestion/filter/dispatch.go:110-123 | Closes exactly the open episodes of resolved issues. |
| Inquiry.EvaluationSettlesExactly | packages/ingestion/filter/dispatch.go:128-154 | In every run an evaluation leaves its episode stale if and only if it was stale and its latest decision already is what the current rule decides on the events. |
| Inquiry.EvaluatedForEver | packages/ingestion/filter/dispatch.go:128-154 | A run in which it happens: an episode with out-of-scope events, one settled before and one after its first evaluation, stays stale after any number of evaluations. |
| InquiryFacts.DecisionMeans | packages/ingestion/filter/evaluate.go:73-140 | What the rule decides: watch before any event in scope; inactive, and silent since the last of them, when that is more than seven days ago; otherwise an inquiry for two users or anonymous sessions and watch for fewer, with their number. |
| InquiryFacts.StaleMeans | packages/ingestion/filter/dispatch.go:128-170 | An open episode is stale exactly when it has no decision, or its latest is of an older rule, or more than seven days old and not inactive, or older than evidence settled since. |
| InquiryFacts.CandidateMeans | packages/ingestion/filter/dispatch.go:172-240 | An episode is a candidate exactly when it is open, its latest factual decision asks for an inquiry, no job of it is active, and either it has neither verdict nor job, or its latest verdict waits, every job was last touched before the decision, and the verdict is of an older prompt or the reach has grown by half. |
| InquiryFacts.AdmissionMeans | packages/ingestion/filter/dispatch.go:242-294 | An admission is refused for a closed episode or one whose latest decision does not ask for an inquiry, conflicts where a job has that version or is active, and otherwise adds one pending automatic job of that version. |
| InquiryFacts.ReviewMeans | packages/ingestion/db/inbox.go:135-170 | A requested review adds one pending job that is not automatic, with the next version, exactly when the episode is open and no job is active. |
| InquiryFacts.EvaluationAppends | packages/ingestion/filter/evaluate.go:142-167 | An evaluation appends the decision of the rule at its time, unless the latest decision is the same by the current rule. |
| InquiryFacts.StepChanges | packages/ingestion/filter/dispatch.go:110-294 | Episodes never disappear, and each call changes only the episode it names, only what it is for, and at its own time. |
| ProjectKey.MintedParsesExactly | packages/ingestion/db/project_keys.go:121-215 | Every minted key parses back to its own id, secret and scope, except a source-map key whose canonical endpoint takes more than 2965 bytes as a JSON string, which minting does not refuse and the 4096-byte cap does. |
| ProjectKey.PlainEndpointsParse | packages/ingestion/db/project_keys.go:121-215 | A key for an endpoint of characters that JSON does not escape always parses back, at any length that minting allows. |
| ProjectKey.LongEndpointIsMintedAndNotParsed | packages/ingestion/db/project_keys.go:121-215 | An endpoint whose host is 500 ampersands is minted, and its key does not parse. |
| ProjectKey.ParseAcceptsExactly | packages/ingestion/db/project_keys.go:175-215 | A string is accepted as a key if and only if it is at most 4096 bytes and the rendering of that scope, id, secret and, for source maps only, a valid payload. |
| ProjectKey.DecomposesOneWay | packages/ingestion/db/project_keys.go:175-215 | A string is a key in at most one way, although secrets and payloads may contain the separator. |
| ProjectKey.MintedIsKey | packages/ingestion/db/project_keys.go:121-169 | A minted key is the rendering of its own parts, with 26 and 43 characters for id and secret. |
| ProjectKey.KeyIdTellsKeysApart | packages/ingestion/db/project_keys.go:136-146 | Different random ids give different key ids. |
| ProjectKey.PayloadRoundTrip | packages/ingestion/db/sk_payload.go:97-149 | Every payload that is encoded parses back to its version, time and endpoint. |
| ProjectKey.DecodeEncode | packages/ingestion/db/sk_payload.go:97-119 | Decoding unpadded base64url gives back every byte string that was encoded (RFC 4648, section 5). |
| ProjectKey.RegroupIsLossless | packages/ingestion/db/project_keys.go:145-146 | Regrouping bytes into groups of at most eight bits and back loses nothing. |
| ProjectKey.CanonicalNamesOneOrigin | packages/ingestion/db/sk_payload.go:44-93 | Two accepted endpoints have the same canonical form if and only if they have the same scheme, host and effective port. |
| ProjectKey.WalkAcceptsExactly | packages/ingestion/db/sk_payload.go:157-197 | The strict decoder accepts exactly one whole object with the members v, iat and url, each once, and returns their values. |
| ProjectKey.WalkStrictObject | packages/ingestion/db/sk_payload.go:157-197 | The loop over the members computes what the strict decoder is proved to accept, with the same errors. |
| ProjectKey.NewProjectKey | packages/ingestion/db/project_keys.go:121-169 | Minting builds the key of the random bytes, the endpoint and the clock, with the same errors. |
| ProjectKeyFacts.KeysRead | packages/ingestion/db/project_keys.go:175-215 | A text of at most 4096 bytes is read as exactly the key that it spells: its prefix, 26 base32 characters, 43 base64url characters and, for source maps only, possibly a valid payload. |
| ProjectKeyFacts.MintingAnswers | packages/ingestion/db/project_keys.go:121-169 | Minting refuses an unknown scope, a missing endpoint and a forbidden one, reports the endpoint's own refusal, and otherwise spells the key, whose stored hash is that of the secret alone. |
| ProjectKeyFacts.Base64ByBits | packages/ingestion/db/project_keys.go:146-146 | Every character of base64url is that of its alphabet at the number that the next six bits of the bytes spell (RFC 4648, section 5). |
| ProjectKeyFacts.Base32ByBits | packages/ingestion/db/project_keys.go:145-145 | Every character of base32 is that of its alphabet, in lower case, at the number that the next five bits spell (RFC 4648, section 6). |
| ProjectKeyFacts.EndpointAccepted | packages/ingestion/db/sk_payload.go:44-93 | An endpoint is accepted exactly if it is at most 2048 bytes and the origin alone of an absolute HTTPS URL, or of an HTTP URL of a loopback host, with an ASCII host and, if any, the decimal of a port from 1 to 65535. |
| ProjectKeyFacts.EndpointWritten | packages/ingestion/db/sk_payload.go:83-92 | The canonical form is scheme, host, with brackets for an IPv6 address, and the port unless it is the scheme's own. |
| ProjectKeyFacts.PayloadAccepted | packages/ingestion/db/sk_payload.go:112-149 | A payload is accepted exactly if it is base64url of a whole object whose three members are the version 1, a UTC time and a canonical endpoint, and then it says just these. |
| ProjectKeyFacts.EscapedReads | packages/ingestion/db/sk_payload.go:97-109 | The escaped text of an endpoint, read as a JSON string, stands for the endpoint, and has no control characters and none special to HTML. |

## Left out

- Transcriber.UsageIsPointwiseMaximum: token counts are natural numbers; fractional counts from a provider are not modelled.
- RunLogger.UsageTotalsAreExact: counts are unbounded integers; rounding of sums beyond 2^53 is not modelled.
- RunLogger.RaisingTheCapKeepsLines: is stated for scrubbers whose stop-line failures are upward closed, because it is false for the others (`FailureLosesLines`).
- ToolLoop.RunLoop: a redactor that throws, the wording of the budget and turn-limit messages, the mapping of API errors to codes, system prompts, tool schemas and the parts of the state that only hooks use (edit counts, stack trace files, the review flag) are not modelled; tracing is part of the environment; prices and costs are reals, not floating point.
- ToolLoop.OverspendIsOneResponse: needs the hook calls that the run made to leave the token usage alone.
- JsonScanner.Scanner.StringLiteral: member names are decoded byte for byte, which is exact for valid UTF-8; `Compute` rejects any other input before it scans.
- JsonScanner.Scanner.NumberLiteral: float parsing is the parameter that says whether a number text is finite.
- JsonScanner.LiteralUnmarshals: the library's decoder of string literals is modelled by the same lexer, so a disagreement between the two is not.
- Rollup.Tables.ConfirmMerge: receipts, aliases, episodes and affected users of a merge, and its refusal of issues that are merged already, investigated or published, are not modelled.
- `Compute` and `validateSourceMap` around the scanner: field checks, RFC 8785 canonicalisation and hashing are library calls and easy checks.
- Rollup.RunRollupBackfill: affected-user rollups, jobs, merges of issues during a pass and the deletion of groups, sessions and signals are not modelled; which failures still report that the run began is not told apart.
- Rollup.Tables.InsertErrorEventAndGroup: the group's totals, sample, affected users and fix job are not modelled.
- Rollup.Tables.RecomputeRollupBatch: times of completion are not modelled.
- Digest.EvaluateActionable: whether a candidate's prose is publishable is an input; the receipt items, alerts and texts are not modelled.
- Digest.FreezeLedger: rows carry no details, fingerprints, spells or cache hits.
- PrWebhook.PullRequestTables.ProcessPRWebhook: ticket-owned PRs, delivery reservations, draft CI watchers, branch cleanup and the second look for a concurrent duplicate, which atomic steps make unnecessary, are not modelled.
- Sessions.SessionTables.RegisterSession: environments and their divergence are not modelled.
- Sessions.SessionTables.EnqueueAnalysisBackfillBatch: which sessions have a current analysis is an input.
- Sessions.SessionTables.DeleteMarkedSession: the reconciliation of tickets that cite the session is not modelled.
- Sessions.OneLiveJobPerSession: the worker's claims, retries, completions, reaping and status writes are steps with free choices, without leases and attempt counts.
- Inquiry.InquiryTables.Tick: which issues are resolved and the occurrences of an episode are inputs; cancellation, failing queries and usage events are not modelled.
- Inquiry.InquiryTables.AdmitOne: freezing the anchors of the evidence is not modelled, and the two refusals are one answer.
- Inquiry.AdmissionsArePaidFor: the worker's verdicts and job updates are steps with free choices.
- ProjectKey.CanonicalNamesOneOrigin: URL parsing, trimming and lower-casing are library calls; the policy on the parsed record is modelled.
- ProjectKey.WalkStrictObject: which error a body has when it is both malformed and has a repeated name after the malformed part is not modelled.
- The leases of the tombstone storage sweep, session reads, billing, Slack formatting, HTTP handlers, the dashboard, cryptography and SQL isolation: outside the protocols above or easy members.
