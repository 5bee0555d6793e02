# Verified model of modeloff's planners, protocols and indexes

modeloff is a chat server in the manner of IRC whose members are instances of
language models. This project models the parts of it that are hard to get right
and proves what they promise, for every input and every interleaving. Whatever
lies outside - the model providers, the stores, the embedding endpoint, clocks
and other goroutines - is an arbitrary function, an arbitrary outcome or an
arbitrary order of steps.

| module | what it models |
|---|---|
| `IrcFmt`, `IrcControls`, `IrcBytes`, `IrcPlain` | the IRC formatting codec: a stateful byte parser and the printer of transitions |
| `Utf8`, `ContextCompaction`, `ContextSummary`, `ContextRetry` | bringing a turn inside its model's context window: bisections, a shared call budget, a message splitter |
| `PromptTokens`, `PromptEstimate` | the ratio ledger that turns a provider's refusal into a stronger estimate |
| `TurnLoop` | one attempt at a turn: requests, continuations, tool batches |
| `Redispatch`, `BurstLaws` | the dispatch loop: bursts filed by window, one retry behind a timer |
| `ManagerLifecycle`, `ManagerSteps`, `ManagerForgets` | attaching, draining, forgetting and shutting down model clients |
| `Catalogue` | the cached model catalogue and its single fetch in flight |
| `ReflectionScheduler` | the worker that decides when an instance reflects |
| `JsonSchema`, `ProviderSchema`, `ProviderPath`, `ProviderExact`, `StrictSchema`, `StrictAcceptance`, `StrictConverse`, `Names` | rewriting a tool's JSON Schema for strict endpoints, and what that does to what it accepts |
| `Episodes`, `ReflectionAliases`, `ReflectionValidation`, `ProposalLaws`, `Decimals` | what a reflection's proposal must satisfy, and the tokens it is written in |
| `MemoryIndex` | vector indexes repaired against the store behind them |
| `Members` (in `MemberList.dfy`) | a channel's members, sorted, with a map beside them |
| `History` | rolling transcripts and private replies |
| `CommandLine`, `CommandLaws` | the slash-command parser and completion's shadow of it |
| `Options` | a value that may be missing |

Concurrent parts are state machines whose steps are the regions the code runs
under one lock, and in `Catalogue` also each access to an atomic field; the classes beside them hold the same fields as the code and
their methods are proved equal to the steps. Object identity - of batches,
timers' tokens, clients, drains - is a number.

`IrcBytes`, `IrcPlain`, `PromptEstimate`, `BurstLaws`, `ManagerSteps`, `ProviderExact`,
`StrictConverse`, `ProposalLaws` and `CommandLaws` say of bytes, fields and steps alone,
without the functions the models are written with, what those functions have to do.

Some promises turned out not to hold of the code as it stands. For each, the condition
under which it does hold is proved, as an if and only if, and a concrete case shows
that it is needed:

* `IrcFmt`: a foreground-only colour directly before text that starts with a
  comma and a digit swallows that text (`RoundTripsExactlyWhenSafe`,
  `SwallowedTextIsLost`).
* `IrcFmt`: parsing strips C1 controls where it finds their two bytes together,
  and puts one together when what it strips stood between them
  (`C1ShownExactlyWhenSplit`, `StrippingMakesC1`); valid UTF-8 is safe
  (`ValidTextShowsNoC1`).
* `ManagerLifecycle`: attaching an id again while its last client drains can
  lose a deletion (`LostExactlyWhenOverwritten`, `ReattachingLosesADeletion`), or
  begin it under the new client (`ForgetsTheLivingExactlyAfterACollision`,
  `ReattachingForgetsTheLiving`).
* `Catalogue`: the comments say the next demand after a change of key or base URL
  loads afresh. A fetch already under way is cached all the same
  (`FreshExactlyUntilStale`, `AStaleCatalogueGetsIn`), its failure refuses the
  demand (`AnOldFailureRefuses`), and until it is back the demand joins it
  (`AnOldFetchIsJoined`). Exactly when the demand loads afresh, after any run, is
  `LoadsAfreshExactlyWhenNothingLeft`; exactly when it is sure to is
  `SureToLoadExactlyWhenIdle`.
* `Catalogue`: a failure refuses demands only once its time is stamped, after the
  list state has it (`BackoffCountsFromTheStamp`, `AnUnstampedFailureRefusesNobody`).
* `ProviderSchema`: removing `patternProperties` beside `additionalProperties:
  false` narrows (`StaysAcceptedExactlyWhenUnfenced`,
  `StaysAcceptedExactlyAlongThePath`, `PatternsCanNarrow`).
* `ProviderExact`: a constant outside the enumeration beside it, which nothing satisfies, is
  shown as one that can be given unless something else refuses it
  (`ExactUnlessTheConstantGetsIn`, `ConstantOutsideItsEnum`); schemas of ordinary
  keywords without such a constant are shown exactly (`OrdinaryIsShownExactly`).
* `StrictAcceptance`: an optional property cannot always be omitted by null. With
  alternatives, it takes null exactly if its own type and enum do and no
  alternative names null without one of them taking it (`MissingTakesNull`); a type beside
  the alternatives and an enum inside them each break that
  (`TypedUnionTakesNoNull`, `EnumUnionTakesNoNull`, `PaddedIsRefused`).
* `ReflectionScheduler`: a worker whose read failed, and no other, parks until the
  next wake-up whatever is pending (`FailedReadParksOnWork`, `WorkIsLeftParked`).
* `ReflectionScheduler`: a notification that arrives after its worker ended is
  lost, and no other (`NotificationIsLostExactlyAfterTheEnd`,
  `LateNotificationIsLost`).
* `ContextSummary`: a turn planned again is to recognise what was summarised.
  It does exactly if nothing its transcript holds was left out before something
  summarised and nothing misleads (`OverlapIsRightExactly`), which for a retry
  means that no batch was dropped before one that was committed
  (`RetryIsRightExactly`). Else what was summarised is sent again
  (`ADroppedMessageHidesASummarisedOne`, `ADroppedBatchHidesACommittedOne`) or
  what was not is dropped (`ADroppedMessageIsTakenForSummarised`); and the latter
  also where the conversation repeats itself across the start of the transcript
  or the gap before it (`OverlapIsExactWithoutRepetition`,
  `RepeatsOverlapTooMuch`, `RepeatsOverlapAcrossAGap`).
* `MemoryIndex`: memories and experiences are to be kept apart; the memories of an
  instance whose id begins with "experiences:" are not (`MemoryNamesExactly`).
* `CommandLine`: an option no node declares ends the parser's walk but not
  completion's, and parts them exactly if the arguments after it overrun the node
  (`CompletionFollowsExactly`, `StrayOptionsPartThem`, `StrayFirstOptionPartsThem`).

`dafny verify dfyconfig.toml` checks everything.

## Model

| member | source | states |
|---|---|---|
| `IrcFmt.Parse` | internal/ircfmt/ircfmt.go:76-186 | for any bytes, the lines parsed show exactly the characters and attributes the byte-by-byte reading of the format prescribes, and no line holds an empty span |
| `IrcFmt.ScanStep` | internal/ircfmt/ircfmt.go:88-180 | one turn of the scanning loop adds to what is stored or pending exactly what one step of that reading shows, whichever byte it meets |
| `IrcFmt.ReadIsDisplayable` | internal/ircfmt/ircfmt.go:188-209 | nothing a reading shows is a C0 control or DEL, and no colour of 99 or above is kept: the code for "default" is never a colour (C1 controls are `IrcControls.C1ShownExactlyWhenSplit`) |
| `IrcControls.C1ShownExactlyWhenSplit` | internal/ircfmt/ircfmt.go:70-74 | of any bytes, the reading shows the two bytes of a C1 control side by side if and only if a 0xc2 read as text is followed by a nonempty run of bytes it shows nothing for and then by a byte 0x80 to 0x9f |
| `IrcControls.LeadsExactlyAfterSilence` | internal/ircfmt/ircfmt.go:175-183 | what is shown next is such a second byte exactly if the reader gets to one showing nothing on the way |
| `IrcControls.ValidTextShowsNoC1` | internal/ircfmt/ircfmt.go:199-206 | text in which every 0xc2 begins a two-byte form, as in all valid UTF-8, shows no C1 control |
| `IrcControls.StrippingMakesC1` | internal/ircfmt/ircfmt.go:175-178 | a stray 0x01, or a real C1 control, between the two bytes: stripping it puts a C1 control together |
| `IrcFmt.NormaliseKeepsMeaning` | internal/richtext/document.go:692-728 | merging equal neighbours and dropping empty spans changes no character and no attribute |
| `IrcFmt.WriteTransition` | internal/ircfmt/ircfmt.go:243-282 | writes exactly the codes of the transition - a reset where a format is to be switched off, then every format and the colours that differ from there - and reports the attributes the line now has |
| `IrcFmt.Encode` | internal/ircfmt/ircfmt.go:218-241 | the bytes written are the encoding of the normalised document, line by line |
| `IrcFmt.ReadTransition` | internal/ircfmt/ircfmt.go:243-350 | simulation step: wherever a transition stands, reading it takes the reader from the encoder's old attributes to its new ones, unless a colour code without background swallows text after it |
| `IrcFmt.ReadLine` | internal/ircfmt/ircfmt.go:224-236 | a safe line reads back, cell for cell, in the attributes the encoder held at every span |
| `IrcFmt.CountLine` | internal/ircfmt/ircfmt.go:224-236 | an encoded line never reads back longer than it was, and reads back shorter if it is unsafe |
| `IrcFmt.RoundTripsExactlyWhenSafe` | internal/ircfmt/ircfmt.go:76-241 | parsing what was encoded gives every line back with the same characters and attributes, modulo colour 99, if and only if the document is safe: control-free text, colours in range, at least one line, and no text that a colour code before it would swallow |
| `IrcFmt.SwallowedTextIsLost` | internal/ircfmt/ircfmt.go:332-350 | a foreground-only span whose text starts with a comma and a digit loses those characters |
| `IrcPlain.OrdinaryTextRoundTrips` | internal/ircfmt/ircfmt.go:76-241 | tabs and text without controls, that begins with no comma and in which no 0xc2 is followed by a byte to 0x9f, in any styles and colours below 99, is read back byte for byte in the styles it was written in |
| `IrcBytes.Newline` | internal/ircfmt/ircfmt.go:108-113 | wherever the parser stands, a newline begins a line and the style goes on |
| `IrcBytes.Formats` | internal/ircfmt/ircfmt.go:114-154 | each of the five format bytes switches its format, and 0x0f switches all of them off and clears both colours |
| `IrcBytes.Controls` | internal/ircfmt/ircfmt.go:174-209 | any other control byte but the tab, and a C1 control in its two bytes, is dropped |
| `IrcBytes.Text` | internal/ircfmt/ircfmt.go:174-183 | any other byte is shown as it is, in the style in force |
| `IrcBytes.BareColour` | internal/ircfmt/ircfmt.go:156-165 | a colour byte at the end, or before a byte that is no digit, clears both colours, and what follows it is read next |
| `IrcBytes.ForegroundOnly` | internal/ircfmt/ircfmt.go:332-380 | one or two digits after it are the foreground in decimal, 99 being none, with no background where no comma and digit come next |
| `IrcBytes.BothColours` | internal/ircfmt/ircfmt.go:332-380 | and one or two digits after a comma are the background |
| `IrcBytes.ParsedIsShown` | internal/ircfmt/ircfmt.go:76-186 | what these rules show, byte by byte to the end, is what the parsed lines hold |
| `IrcBytes.ColourAndBack` | internal/ircfmt/ircfmt.go:156-165 | so the bytes 0x03 "02a" 0x03 "b" parse to a in colour 2 and b in none |
| `Utf8.Boundaries` | internal/modelclient/context_compaction.go:323-332 | the offsets found are exactly the code-point boundaries of the body, in order, ends included |
| `Utf8.BoundaryOfSuffix` | internal/modelclient/context_compaction.go:241-270 | a boundary of what is left after a cut at a boundary is a boundary of the whole body |
| `ContextCompaction.PromptLimit` | internal/modelclient/context_plan.go:147-158 | no window, no limit; up to 1000 tokens the limit is the window, up to 5000 it is 1000, and from there 4000 less than the window |
| `ContextCompaction.PrefixNeeded` | internal/modelclient/context_compaction.go:408-454 | the prefix found makes the request fit and, for a size that only shrinks, no shorter one does; it fails exactly when dropping everything would not help |
| `ContextCompaction.SummaryBatch` | internal/modelclient/context_compaction.go:456-496 | the batch is within what is wanted, fits the summary model unless it is a single message, and for a size that only grows no longer one fits |
| `ContextCompaction.FittingFragment` | internal/modelclient/context_compaction.go:272-321 | the fragment is not empty, ends at a code-point boundary, fits, and for a size that only grows is the longest such |
| `ContextCompaction.ContextSummaryBudget.Spend` | internal/modelclient/context_compaction.go:46-53 | one call is taken from the budget exactly when one is left |
| `ContextCompaction.SendSummaryRequest` | internal/modelclient/context_compaction.go:359-384 | one call is made and paid for, or none when the budget is spent |
| `ContextCompaction.SummarizeMessage` | internal/modelclient/context_compaction.go:241-270 | terminates; the fragments sent are a chain of non-empty pieces cut at code points, each merged with the answer before it, and on success together are the whole body |
| `ContextCompaction.SummarizeSources` | internal/modelclient/context_compaction.go:217-239 | on success the sources were condensed whole and the result is the last answer; every call fitted the summary model |
| `ContextCompaction.CompactRound` | internal/modelclient/context_compaction.go:118-215 | a round takes off the head of the request, as stored and as projected alike, as much of the shortest prefix that has to go as one summary request can hold, and commits a summary of it only if all of it was condensed; it fails with the provider only if the turn was cancelled, with the store or the window only as the commit did, and unrendered only if some request of it cannot be rendered: one summary that fails drops the batch and no more |
| `ContextCompaction.CompactContextPlan` | internal/modelclient/context_compaction.go:87-198 | whatever the provider answers: terminates, makes at most three summary calls, all of which fit, splits the transcript and burst into consecutive batches followed by exactly what survives, each batch chosen as a round chooses it from what was left while that did not fit, and succeeds only with a request that fits; each failure has its cause in the world, a spent budget is none, and in a world never cancelled, whose requests render and whose commits succeed, it ends in success or with the window exceeded whatever the answers |
| `ContextCompaction.CalmIsQuiet` | internal/modelclient/context_compaction.go:118-198 | such a world gives no cause for any other failure |
| `ContextCompaction.PartitionGrows` | internal/modelclient/context_compaction.go:118-198 | taking one more batch off the rest keeps batches and rest together equal to the original |
| `ContextSummary.SummarizedRecentPrefix` | internal/modelclient/context_summary.go:74-97 | the longest overlap between the end of the summarised sources and the start of the transcript, and no longer one exists |
| `ContextSummary.OverlapIsRightExactly` | internal/modelclient/context_summary.go:56-97 | whatever messages of the conversation were summarised: the overlap found is exactly what of the transcript was summarised if and only if the transcript holds nothing left out before something summarised, and no more messages than it holds of them were summarised last and are said again from its start on |
| `ContextSummary.TrimmingKeepsTheOverlap` | internal/store/context_summary.go:14-23 | keeping only the last sources, as many as the transcript is long, changes no overlap |
| `ContextSummary.GaplessOverlapIsRightExactly` | internal/modelclient/context_summary.go:56-97 | of sources without a gap, the overlap is right if and only if the transcript does not begin before them and no run of messages misleads, or there are no sources |
| `ContextSummary.OverlapIsExactWithoutRepetition` | internal/modelclient/context_summary.go:56-97 | where the transcript begins no earlier than the sources, the overlap covers the summarised part of it, which is nothing if it begins after they end, and is exactly that part if and only if no run of messages across its start, up to the last one summarised, or up to as far beyond the gap, is said again the same number of places later |
| `ContextSummary.ADroppedMessageHidesASummarisedOne` | internal/modelclient/context_summary.go:59-64 | although all messages differ, a summarised message behind one that was dropped is not recognised, and is sent again beside its summary |
| `ContextSummary.ADroppedMessageIsTakenForSummarised` | internal/modelclient/context_summary.go:87-94 | and where the dropped one is equal to it, that one is taken for summarised |
| `ContextSummary.LongerOverlapIsRepetition` | internal/modelclient/context_summary.go:87-94 | an overlap that reaches some places beyond where sources and transcript meet, or across the gap between them, or less far, exists exactly if the messages recur that many places later, or earlier |
| `ContextSummary.OverlapIsWhatWasSummarized` | internal/modelclient/context_summary.go:56-72 | among messages that all differ nothing overlaps but the part of the sources the transcript begins with, wherever it begins |
| `ContextSummary.RepeatsOverlapTooMuch` | internal/modelclient/context_summary.go:99-108 | two equal messages can overlap although the second was never summarised |
| `ContextSummary.RepeatsOverlapAcrossAGap` | internal/modelclient/context_summary.go:74-97 | so can they where the transcript begins after the sources end |
| `ContextRetry.RetryIsRightExactly` | internal/modelclient/context_compaction.go:143-188 | a turn planned again takes exactly the summarised messages for summarised if and only if the plan before it dropped no batch before one it committed, and no more messages than the transcript holds of the summarised ones are said again from its start on |
| `ContextRetry.UnbrokenExactlyWhenCommittedFirst` | internal/modelclient/context_compaction.go:143-188 | the batches of a plan leave nothing out before something summarised exactly if none was dropped before one that was committed |
| `ContextRetry.SaidOfBatches` | internal/modelclient/context_compaction.go:172-177 | what the store gains are the messages at the places of the committed batches |
| `ContextRetry.ADroppedBatchHidesACommittedOne` | internal/modelclient/context_compaction.go:147-164 | a plan whose first call fails and whose second succeeds: planned again, nothing is found summarised |
| `PromptTokens.PromptTokenRatios.Observe` | internal/api/prompt_tokens.go:46-58 | the ledger of one model accumulates, that of every other is untouched |
| `PromptTokens.PromptTokenRatios.Reject` | internal/api/prompt_tokens.go:63-79 | after a refusal the ledger is what the run of events says, for every model |
| `PromptTokens.PromptTokenRatios.EstimateFor` | internal/api/prompt_tokens.go:85-103 | the estimate is the one the run of observations and refusals prescribes |
| `PromptTokens.RefusalIsNeverForgotten` | internal/api/prompt_tokens.go:63-103 | after any run, each recorded refusal of b bytes at a limit makes every request of at least b bytes estimate above that limit |
| `PromptTokens.FloorIsARefusal` | internal/api/prompt_tokens.go:63-79 | the floor kept is one of the refusals recorded, never an invention |
| `PromptTokens.FloorOnlyRises` | internal/api/prompt_tokens.go:71-78 | an event never weakens what the floor rules out |
| `PromptTokens.EstimateMonotone` | internal/api/prompt_tokens.go:85-109 | more bytes never estimate to fewer tokens |
| `PromptTokens.TotalsAreSums` | internal/api/prompt_tokens.go:46-58 | the totals kept are the sums of the observations of that model |
| `PromptTokens.EstimateStaysInsideObservations` | internal/api/prompt_tokens.go:85-109 | if every observation is within a ratio and nothing was refused, every estimate is within it too, rounded up |
| `PromptTokens.CompletionAllowance` | internal/api/openrouter.go:255-261 | prompt and completion together stay inside the window |
| `PromptTokens.RefusedPlanNoLongerFits` | internal/modelclient/turn.go:323-330 | replanning an equal or larger request at the refused limit does not fit, whatever was recorded in between |
| `PromptEstimate.EstimateIsTheLeast` | internal/api/prompt_tokens.go:81-109 | after any run of observations and refusals the estimate is the least number of tokens that meets the observed ratio, or a token for every four bytes where nothing was observed, and every refusal recorded |
| `PromptEstimate.UnknownModelsTakeFourBytes` | internal/api/prompt_tokens.go:81-96 | before any event the estimate is the bytes over four, rounded up |
| `TurnLoop.RejectMixedPass` | internal/modelclient/api.go:456-485 | a batch is mixed exactly when it holds a pass and something else |
| `TurnLoop.ExecuteTools` | internal/modelclient/api.go:350-430 | a mixed pass runs nothing; else the calls are taken one by one in order until one ends the batch, and how the batch ends is what its last event says: a refusal, a crash, a pass or quit that succeeded, or the last call |
| `TurnLoop.ContinueTurn` | internal/modelclient/api.go:221-239 | ends with a reply to a continuation, or with the failure of one and its cause, which is never a transient failure of a first send: that is waited out and sent again |
| `TurnLoop.ToolTurn` | internal/modelclient/api.go:134-172 | one pass of the loop adds one batch and what it did to the log, or says that the window is closed or nothing was asked for, and stops exactly if one of these or the batch ends the attempt |
| `TurnLoop.RunTurn` | internal/modelclient/api.go:121-188 | whatever the world answers: what one attempt does is a chain of events each of which the world made so and each of which follows from the one before it as the loop has it, and its outcome is what the last of them makes it |
| `TurnLoop.DoneMeansQuit` | internal/modelclient/api.go:161-167 | an attempt that ends with no reason and no failure ended with a quit the tool confirmed |
| `TurnLoop.PassIsTheModels` | internal/modelclient/api.go:139-165 | one that ends as a pass ended with a pass the tool confirmed, or a reply that asks for nothing |
| `TurnLoop.SilenceIsTheProviders` | internal/modelclient/api.go:125-131 | a silence is the failure of that kind the provider gave last |
| `TurnLoop.ExhaustedMeansFive` | internal/modelclient/api.go:168-171 | the loop is exhausted exactly after a fifth batch the model would have gone on from |
| `TurnLoop.FailureHasItsCause` | internal/modelclient/api.go:121-271 | each failure has its cause in the world: the window was revoked, a request could not be rendered, the wait was cut short, a tool crashed or was not authorised, or the provider failed so |
| `TurnLoop.OpenBatchGoesOn` | internal/modelclient/api.go:168-173 | a batch that leaves the turn open is the fifth, or is followed by a continuation, unless the window is revoked or the continuation cannot be rendered |
| `TurnLoop.RepliesAreActedOn` | internal/modelclient/api.go:134-147 | a reply that asks for tools is followed by a batch of exactly these calls, unless the window is revoked |
| `TurnLoop.TransientIsRetriedOnce` | internal/modelclient/api.go:221-239 | a continuation that failed transiently is sent a second time unless the window is revoked, the wait cut short or the request not rendered, and no continuation is sent a third time |
| `TurnLoop.CallsAreTakenInOrder` | internal/modelclient/api.go:371-430 | after a call that does not end its batch comes the next one of it, to the last |
| `TurnLoop.AnswersMatch` | internal/modelclient/api.go:410-420 | the answers of a batch are those of its calls, in their order, and favourable exactly where the tool succeeded |
| `TurnLoop.TheModelIsToldAll` | internal/modelclient/api.go:171-173 | a continuation carries an answer to each call of its batch, and for a mixed pass the refusal of each |
| `TurnLoop.NothingAfterTerminal` | internal/modelclient/api.go:161-167 | nothing is done after a pass or quit that succeeded |
| `TurnLoop.RanIsNotReplayed` | internal/modelclient/api.go:173-185 | once a tool ran, no failure of the attempt is one that is dispatched again |
| `TurnLoop.AttemptIsBounded` | internal/modelclient/api.go:121-188 | one first request at most, five batches and eight continuation sends |
| `Redispatch.OpenBatches` | internal/modelclient/dispatch.go:571-598 | one empty batch for each window the burst raises, in the order it first does |
| `Redispatch.FileBatch` | internal/modelclient/dispatch.go:393-424 | each batch holds the triggers its window gathered since the burst last closed it |
| `BurstLaws.TriggersSinceClosed` | internal/modelclient/dispatch.go:393-424 | these are, one for one and in order, the deliveries of the burst that raise the window and after which the burst does not close it |
| `BurstLaws.LeftClosedExactly` | internal/modelclient/dispatch.go:116-126 | a window is left closed exactly if the burst closed it and did not open it after that |
| `BurstLaws.WindowsInOrder` | internal/modelclient/dispatch.go:571-598 | the windows are those the burst raises, each once, in the order of their first trigger |
| `Redispatch.EmptyMeansClosed` | internal/modelclient/dispatch.go:501-513 | a batch left without triggers belongs to a window the burst closed, so it never replaces one that waits |
| `Redispatch.OneTurn` | internal/modelclient/dispatch.go:237-242 | a turn ends in one of the ways the loop is proved for: no tool ran, or its failure is not replayable |
| `Redispatch.DispatchLoop.Merge` | internal/modelclient/dispatch.go:174-184 | newer traffic takes the place of a waiting batch behind the same timer and is marked retried |
| `Redispatch.DispatchLoop.Hold` | internal/modelclient/dispatch.go:160-162 | a failed batch waits under its own token |
| `Redispatch.DispatchLoop.Claim` | internal/modelclient/dispatch.go:188-197 | a fired token yields the newest batch waiting under it, marked retried, and forgets it; a stale token yields nothing |
| `Redispatch.DispatchLoop.Supersede` | internal/modelclient/dispatch.go:116-126 | exactly the windows the burst closes lose what waited, and those left closed are reported |
| `Redispatch.DispatchLoop.RunBatch` | internal/modelclient/dispatch.go:210-250 | one attempt; exactly if the batch was new, its failure can be dispatched again, and the retry was scheduled, it waits in its window marked retried behind one timer of its own, and in every other case what waits and the timers are as before |
| `Redispatch.DispatchLoop.Take` | internal/modelclient/dispatch.go:107-143 | what waits keeps its timer and waits for the newest traffic; every other window with something to answer gets one batch to run now, unless it was left closed holding more than invitations |
| `Redispatch.DispatchLoop.RunAll` | internal/modelclient/dispatch.go:91-103 | each kept batch is attempted once, in order, until one ends the connection, and of those attempted exactly the ones that earn another attempt come to wait |
| `Redispatch.DispatchLoop.ServeAll` | internal/modelclient/dispatch.go:64-105 | over a whole life of the loop no batch is attempted more than twice, and none again after a tool ran |
| `Redispatch.SupersedeKeeps` | internal/modelclient/dispatch.go:165-167 | cancelling keeps one waiting batch a window and one timer for each |
| `Redispatch.MergeKeeps` | internal/modelclient/dispatch.go:174-184 | merging keeps one timer for each waiting entry and distinct batches |
| `Redispatch.ClaimKeeps` | internal/modelclient/dispatch.go:188-197 | a fired timer, stale or not, leaves every other entry its own |
| `Redispatch.AttemptKeeps` | internal/modelclient/dispatch.go:210-250 | holding after an attempt never overwrites a live entry and never reuses a token that is still out |
| `Redispatch.BurstIsTaken` | internal/modelclient/dispatch.go:107-143 | settling any burst against any sound state of the loop |
| `Redispatch.AtMostTwice` | internal/modelclient/dispatch.go:206-209 | in a sound run no batch has more than two attempts, and only its last may have run a tool |
| `ManagerLifecycle.Manager.BeginAttach` | internal/modelmanager/manager.go:1094-1135 | the first locked region of an attach: refused, joined, existing or fresh |
| `ManagerLifecycle.Manager.EndAttach` | internal/modelmanager/manager.go:1139-1163 | the second region: success exactly if nothing overtook it, and a pending deletion becomes owed |
| `ManagerLifecycle.Manager.DeleteInstance` | internal/modelmanager/manager.go:1212-1231 | a deletion is left with the client, with its drain, or owed at once |
| `ManagerLifecycle.Manager.DetachClient` | internal/modelmanager/manager.go:1243-1278 | the client moves to the draining ones with whatever deletion was pending |
| `ManagerLifecycle.Manager.JoinDrain` | internal/modelmanager/manager.go:1283-1306 | the region after the join: abandoned, finished, or owing the deletion |
| `ManagerLifecycle.Manager.BeginAllDrains` | internal/modelmanager/manager.go:1442-1472 | every attached client drains, with its pending deletion, and shutdown is told whom to join |
| `ManagerLifecycle.Manager.AbandonDrains` | internal/modelmanager/manager.go:1474-1487 | exactly the drains still those shutdown waited for are abandoned |
| `ManagerLifecycle.StepKeeps` | internal/modelmanager/manager.go:1086-1487 | every step any thread may take, in any interleaving, keeps the lifecycle invariant |
| `ManagerLifecycle.DeletionsAreNeverLost` | internal/modelmanager/manager.go:1210-1314 | over any run in which no id is attached again while draining or after its deletion, each deletion asked for is recorded with its client or drain, owed, begun, or given up by shutdown |
| `ManagerLifecycle.ForgetsOnlyTheJoined` | internal/modelmanager/manager.go:1280-1310 | no client of an id whose deletion is owed or begun has a loop that runs or may still start, in any state reached while no id is attached again as it drains or after its deletion |
| `ManagerForgets.ForgetsTheLivingExactlyAfterACollision` | internal/modelmanager/manager.go:1086-1314 | from any state, a step brings a deletion upon a living client if and only if it attaches under one that is bound to begin, joins a wanted drain while a client of the id lives, or binds one to begin otherwise under a living client |
| `ManagerForgets.ReattachingForgetsTheLiving` | internal/modelmanager/manager.go:1280-1306 | a run in which an id is attached again while its deleted client drains, and the join of that drain owes the deletion under the new client |
| `ManagerLifecycle.ShutdownJoinsAll` | internal/modelmanager/manager.go:1395-1438 | after shutdown began and all drains ended, no loop runs or can start |
| `ManagerLifecycle.ShutdownFindsNoStrays` | internal/modelmanager/manager.go:1458-1469 | no pending deletion is ever left without a client, so all of them ride on a drain |
| `ManagerLifecycle.LostExactlyWhenOverwritten` | internal/modelmanager/manager.go:1251-1267 | from any state, a step loses a deletion exactly if it drains a client attached over one whose drain was its only record |
| `ManagerLifecycle.ReattachingLosesADeletion` | internal/modelmanager/manager.go:1086-1135 | an interleaving in which an id attached again while it drains loses its deletion |
| `ManagerSteps.AttachIsExclusive` | internal/modelmanager/manager.go:1094-1135 | a client is attached exactly where none is attached or being attached and shutdown has not begun, it is none there was before, and nothing else changes |
| `ManagerSteps.FailedAttachLeavesNoTrace` | internal/modelmanager/manager.go:1094-1163 | an attachment whose loop started, ended and failed leaves the manager as it was but for the number it used |
| `ManagerSteps.AttachEndsOnce` | internal/modelmanager/manager.go:1139-1163 | the end of an attachment takes its client back exactly if it failed and the client is still the attached one, and then the deletion that waited for it is due |
| `ManagerSteps.DetachStartsADrain` | internal/modelmanager/manager.go:1243-1278 | detaching moves the client to a drain of its own that carries the deletion asked for now or before, and touches nothing else |
| `ManagerSteps.DetachJoinsTheDrain` | internal/modelmanager/manager.go:1251-1267 | without a client the deletion joins the drain under way |
| `ManagerSteps.DetachFindsNothing` | internal/modelmanager/manager.go:1268-1278 | and without a drain it is due at once |
| `ManagerSteps.DeletionWaitsForTheClient` | internal/modelmanager/manager.go:1212-1231 | a deleted instance waits for its client, else for its drain, and is due at once only without either |
| `ManagerSteps.AbandonMarksThoseGivenUp` | internal/modelmanager/manager.go:1474-1487 | giving up marks the drains of those clients and no others |
| `ManagerSteps.DrainEndsAlone` | internal/modelmanager/manager.go:1280-1314 | once its loop is gone a drain can go on to its end: then it alone is gone, and the deletion it carried was begun, exactly if it was wanted and not given up on |
| `ManagerSteps.AnotherDrainIsLeft` | internal/modelmanager/manager.go:1283-1313 | the end of a drain leaves a newer drain of the id alone |
| `ManagerSteps.ShutdownDrainsAll` | internal/modelmanager/manager.go:1442-1472 | shutdown leaves no client attached: each drains with the deletion that waited for it, beside the drains there were |
| `ManagerSteps.NothingAttachesAfterShutdown` | internal/modelmanager/manager.go:1094-1100 | over any run from there no client is attached any more |
| `Catalogue.ModelCatalogue.LookAtList` | internal/modelmanager/catalogue.go:181-181 | a demand is through at once unless the list state says unavailable |
| `Catalogue.ModelCatalogue.RetryIsDue` | internal/modelmanager/catalogue.go:345-352 | a demand that found the list unavailable goes on exactly if the last stamped failure is thirty seconds old, or none was stamped |
| `Catalogue.ModelCatalogue.EnsureLoaded` | internal/modelmanager/catalogue.go:189-202 | a demand that is through finds the cache, joins the fetch in flight, or leads one with the key it brought |
| `Catalogue.ModelCatalogue.CacheModels` | internal/modelmanager/catalogue.go:328-337 | the models of a fetch are in the cache, under its lock, before the list state tells of them |
| `Catalogue.ModelCatalogue.SettleList` | internal/modelmanager/catalogue.go:360-361 | the list state tells of the models once they are cached, or of the failure |
| `Catalogue.ModelCatalogue.StampFailure` | internal/modelmanager/catalogue.go:363-365 | the time of a failure is kept after the list state told of it |
| `Catalogue.ModelCatalogue.ClearCache` | internal/modelmanager/catalogue.go:319-323 | the cache is emptied under its lock, before the list state is reset |
| `Catalogue.ModelCatalogue.ResetList` | internal/modelmanager/catalogue.go:325-325 | the list state is reset after that, whatever came in between |
| `Catalogue.StepKeeps` | internal/modelmanager/catalogue.go:180-365 | every step of any thread keeps: one fetch unfinished, nothing fetched while the cache is full, and a full cache called unavailable only between the two halves of a fetch |
| `Catalogue.RefusedOnlyBetween` | internal/modelmanager/catalogue.go:181-186 | over any interleaving, the list state calls a full cache unavailable, with no retry due, only between the cache write and the list transition of a fetch that succeeded |
| `Catalogue.OneFetchAtATime` | internal/modelmanager/catalogue.go:189-219 | over any interleaving of these regions at most one fetch is unfinished, and the cache belongs to the key in force as long as no fetch straddles a change of key |
| `Catalogue.FreshExactlyUntilStale` | internal/modelmanager/catalogue.go:317-340 | the cache stops belonging to the key in force exactly when a fetch begun for an older key succeeds after the clearing |
| `Catalogue.LoadsAfreshExactlyWhenNothingLeft` | internal/modelmanager/manager.go:453-457 | after the last clearing for a change of key, whatever else happened since, the next demand leads a fetch of its own if and only if no models came back, no fetch is unfinished, and no failure told since the reset was stamped within thirty seconds |
| `Catalogue.SureToLoadExactlyWhenIdle` | internal/modelmanager/manager.go:421-457 | the next demand is sure to load afresh, whatever is still to come of what is under way, if and only if no fetch is in flight and no demand on its way when the cache is cleared |
| `Catalogue.AnswerOfTheSteps` | internal/modelmanager/catalogue.go:180-202 | the steps of a demand that meets nobody else lead to the answer these results speak of, and a fetch it leads is made with the key it brings |
| `Catalogue.AnOldFailureRefuses` | internal/modelmanager/catalogue.go:181-187 | a run in which nothing stale is cached, and a demand with the new key is refused for thirty seconds because the fetch with the old one failed |
| `Catalogue.AnOldFetchIsJoined` | internal/modelmanager/catalogue.go:195-198 | a run after which a demand with the new key waits for the fetch made with the old one |
| `Catalogue.BackoffCountsFromTheStamp` | internal/modelmanager/catalogue.go:342-365 | over any interleaving, demands that find the list unavailable are refused for thirty seconds from the last stamp, which is that of the last failure exactly if the fetch that failed has got round to it |
| `Catalogue.AnUnstampedFailureRefusesNobody` | internal/modelmanager/catalogue.go:361-365 | a demand between the first failure and its stamp goes on |
| `Catalogue.AStaleCatalogueGetsIn` | internal/modelmanager/catalogue.go:317-340 | that interleaving exists |
| `Catalogue.WaitersHearTheOutcome` | internal/modelmanager/catalogue.go:205-249 | over any continuation a waiter can go on exactly once its fetch has closed, after one outcome, and then finds the cache ready exactly if models came back and nothing cleared it since |
| `Catalogue.ReadyIsFilledLast` | internal/modelmanager/catalogue.go:317-340 | the cache is ready exactly if it was filled last and cleared before that |
| `ReflectionScheduler.StepKeeps` | internal/modelmanager/reflection_scheduler.go:178-288 | every step of the worker, its notifiers and its timer keeps the invariant |
| `ReflectionScheduler.NoWakeUpIsLost` | internal/modelmanager/reflection_scheduler.go:178-252 | once every notification arrived, a worker parked without a token after a good read has fewer than twelve events pending |
| `ReflectionScheduler.WaitingEndsInARun` | internal/modelmanager/reflection_scheduler.go:254-277 | on every continuation of a wait for the cooldown with enough to do, in which reads succeed and no decision comes before its end, the worker runs exactly if it decides at all |
| `ReflectionScheduler.FailedReadParksOnWork` | internal/modelmanager/reflection_scheduler.go:229-246 | from any sound state in which a worker reads with twelve or more pending and nothing on its way to it, it ends up parked on them if and only if the read fails |
| `ReflectionScheduler.ParkedOnWorkFailedToRead` | internal/modelmanager/reflection_scheduler.go:223-246 | over any life, a worker parked on enough to do with nothing on its way failed at its last read |
| `ReflectionScheduler.WorkIsLeftParked` | internal/modelmanager/reflection_scheduler.go:229-239 | such a life exists |
| `ReflectionScheduler.NotificationIsLostExactlyAfterTheEnd` | internal/modelmanager/reflection_scheduler.go:200-222 | a worker can still come to read after a notification if and only if it has not ended when it arrives |
| `ReflectionScheduler.LateNotificationIsLost` | internal/modelmanager/reflection_scheduler.go:211-227 | events stored, the worker ends, their notification arrives: whatever comes after, that worker never runs |
| `ReflectionScheduler.RunsAreSpaced` | internal/modelmanager/reflection_schedule.go:32-63 | every run of a worker had twelve substantive events before it and an hour since the one before |
| `ReflectionScheduler.RunsExactlyWhenDue` | internal/modelmanager/reflection_schedule.go:32-63 | a decision runs exactly with twelve events and an hour gone by since the last run, the worker's own and the recorded one; it parks exactly with fewer; and else it waits for the later of the two hours to end, unless it has |
| `ReflectionScheduler.Worker.Notify` | internal/modelmanager/reflection_scheduler.go:200-203 | leaves at most one token |
| `ReflectionScheduler.Worker.Decide` | internal/modelmanager/reflection_scheduler.go:241-275 | runs, parks, waits or reads again as the schedule says |
| `ReflectionScheduler.Worker.Resume` | internal/modelmanager/reflection_scheduler.go:267-288 | a wait ends by the token, which is used up, or by the timer, which leaves a token for the next wait |
| `ProviderSchema.ProviderOnlyWidens` | internal/command/set.go:700-713 | every instance the tool's own schema accepts is accepted by the schema shown, at any depth and for every meaning of the keywords not modelled, if no node has both `patternProperties` and `additionalProperties` |
| `ProviderExact.OrdinaryIsShownExactly` | internal/command/set.go:700-935 | a schema whose nodes, at any depth, hold only type, enum, const, required, properties, items, anyOf, additionalProperties false and annotations is shown, and what is shown accepts exactly what it accepts, if no constant stands outside the enumeration beside it |
| `ProviderExact.OnlyTheDroppedIsLost` | internal/command/set.go:843-935 | of any schema, an instance that what is shown accepts, and that satisfies at every node it meets each of the keywords dropped there, the enumeration beside a constant, exactly one of a oneOf list and one of the anyOf list beside that, is accepted by the original |
| `ProviderExact.ExactUnlessTheConstantGetsIn` | internal/command/set.go:843-847 | a node with a constant outside the enumeration beside it, ordinary otherwise, is shown exactly if and only if something else it says refuses the constant |
| `ProviderExact.ConstantOutsideItsEnum` | internal/command/set.go:843-847 | a schema of such a constant and enumeration alone accepts nothing and is shown as one that takes the constant |
| `ProviderSchema.StaysAcceptedExactlyWhenUnfenced` | internal/command/set.go:888-935 | an accepted instance of such a node, alternatives or not, whose subschemas have no such nodes, stays accepted if and only if its properties name every member it uses |
| `ProviderPath.StaysAcceptedExactlyAlongThePath` | internal/command/set.go:700-935 | of a schema without alternatives, at any depth, an accepted instance stays accepted if and only if at every node it meets through properties and items its names are declared without the help of a pattern, or no fence stands there |
| `ProviderSchema.PatternsCanNarrow` | internal/command/set.go:926-935 | a schema whose members only a pattern declares is narrowed |
| `ProviderSchema.RefusedExactlyWhenUnsupported` | internal/command/set.go:715-750 | the rewriting is refused exactly if some node of the original holds a structural keyword or an open `additionalProperties`; translating neither hides nor invents one |
| `ProviderSchema.ShownIsStrict` | internal/command/set.go:843-935 | what is shown holds no rejected keyword, `const` or `oneOf` list at any depth |
| `ProviderSchema.MergedWidens` | internal/command/set.go:849-853 | whoever satisfied exactly one alternative satisfies the merged list |
| `StrictSchema.WalkCommutesWithNullable` | internal/command/set.go:1405-1420 | making a node nullable and then walking it is the same as walking it and then making it nullable by what it was |
| `StrictSchema.PropertyIsWalkedNullable` | internal/command/set.go:1415-1459 | an optional property comes out as the walk of its nullable form |
| `StrictSchema.StrictIsIdempotent` | internal/command/set.go:1376-1382 | walking a schema twice is walking it once |
| `StrictSchema.StrictEverywhere` | internal/command/set.go:1364-1424 | every node of a walked schema, those made while walking included, requires all it declares, admits nothing else and carries no `$id` or `$schema` |
| `StrictSchema.RequirementsInOrder` | internal/command/set.go:1405-1422 | a node requires what it required, in that order, then the rest by name, each once |
| `StrictAcceptance.FitsIsAccepted` | internal/command/set.go:1384-1392 | an instance that fits, without undeclared members, is accepted by the schema as it stands |
| `StrictAcceptance.FitsExactlyWhenClosed` | internal/command/set.go:1384-1392 | an instance fits if and only if the schema accepts it and no node along the way, through some accepted alternative, is given a member it does not declare |
| `StrictAcceptance.FencedIsClosed` | internal/command/set.go:1384-1392 | where every object node already forbids undeclared members, every accepted instance is closed |
| `StrictAcceptance.PadOnlyAddsNull` | internal/command/set.go:1364-1371 | padding an instance only adds members that are null |
| `StrictAcceptance.StrictAcceptsPadded` | internal/command/set.go:1364-1536 | every accepted closed instance, with null for the members it leaves out, is accepted by the strict form, and only null members were added, where each optional member takes null once optional |
| `StrictAcceptance.PaddedIsRefused` | internal/command/set.go:1405-1420 | an instance that leaves out an optional member that does not take null once optional is refused with null in its place |
| `StrictConverse.StrictAcceptsOnlyWhatFits` | internal/command/set.go:1364-1536 | conversely, what the strict form accepts is, with some members that are null left out, accepted by the tool's own schema and closed under it |
| `StrictConverse.NullableAddsNullOnly` | internal/command/set.go:1484-1536 | making a property nullable adds null to what it accepts and nothing else |
| `StrictConverse.RestOfTheNodeStays` | internal/command/set.go:1384-1424 | what a node says beside its subschemas and requirements stays word for word, and its `$id` and `$schema` go |
| `StrictConverse.DescriptionStays` | internal/command/set.go:1484-1536 | an optional property keeps its description, on itself or on the alternative beside null |
| `StrictAcceptance.MissingTakesNull` | internal/command/set.go:1484-1536 | an optional property, walked, accepts null if and only if it has no alternatives, or its own type and enum take null and no alternative names null without some alternative taking it |
| `StrictAcceptance.StrictTakesNull` | internal/command/set.go:1372-1382 | a walked node accepts null exactly if null passes its type, its enum and one of its alternatives, at any depth |
| `StrictAcceptance.NullableKeeps` | internal/command/set.go:1484-1536 | making a property nullable takes nothing away |
| `StrictAcceptance.TypedUnionTakesNoNull` | internal/command/set.go:1487-1499 | a node with a type beside alternatives one of which names null refuses null |
| `StrictAcceptance.EnumUnionTakesNoNull` | internal/command/set.go:1492-1496 | so does a node whose one alternative names null among its types and not in its enum |
| `Names.InOrder` | internal/command/set.go:1413-1413 | the names of a set, each once, in order |
| `Episodes.EpisodesBySequence` | internal/modelmanager/reflection_validation.go:863-883 | two events of the stream get the same number exactly if no silent hour of the whole stream lies between them, in whatever order the sort left ties |
| `Episodes.SameEpisodeExactlyWithoutSilence` | internal/modelmanager/reflection_validation.go:856-862 | the same, for any sorted order and any two places in it |
| `Episodes.BoundaryIsSilence` | internal/modelmanager/reflection_validation.go:874-877 | a boundary between neighbours is a silent hour of the stream, and every silent hour shows as one |
| `Episodes.SpansEpisodes` | internal/modelmanager/reflection_validation.go:829-854 | cited events span episodes exactly if two of them are apart |
| `ReflectionAliases.Aliases.Participant` | internal/modelmanager/reflection_aliases.go:58-82 | a participant keeps the token first given, a new one gets a token nobody has, and the instance itself has none |
| `ReflectionAliases.Aliases.Amendment` | internal/modelmanager/reflection_aliases.go:107-117 | tokens and amendments stay a bijection |
| `ReflectionAliases.Aliases.ListAmendments` | internal/modelmanager/reflection.go:416-430 | after listing, a token resolves exactly to an active amendment |
| `ReflectionAliases.NextIsNew` | internal/modelmanager/reflection_aliases.go:112-112 | the next token in order was never handed out |
| `ReflectionAliases.TokensAreABijection` | internal/modelmanager/reflection_aliases.go:104-106 | two tokens of one id are the same token, and every listed id has one |
| `Decimals.DecimalIsInjective` | internal/modelmanager/reflection_aliases.go:69-69 | numbers printed alike are equal |
| `ReflectionValidation.Resolve` | internal/modelmanager/reflection_validation.go:499-519 | a list of tokens resolves exactly if all are known and no amendment is named twice |
| `ReflectionValidation.ValidateExperience` | internal/modelmanager/reflection_validation.go:210-309 | accepted exactly if sound on its own and none of its events is used already |
| `ReflectionValidation.ValidateExperiences` | internal/modelmanager/reflection_validation.go:145-158 | accepted exactly if each is sound, keys differ and no event is cited twice |
| `ReflectionValidation.AmendmentValidator.Validate` | internal/modelmanager/reflection_validation.go:339-385 | accepted exactly if sound and neither its scope nor what it supersedes was taken before |
| `ReflectionValidation.ValidateAmendments` | internal/modelmanager/reflection_validation.go:311-337 | accepted exactly if each is sound, at most one is global, at most one is about any counterpart, and no two supersede the same |
| `ReflectionValidation.ValidateDescription` | internal/modelmanager/reflection_validation.go:581-651 | accepted exactly if it says nothing and absorbs nothing, or names nobody and rests on more than one occasion |
| `ReflectionValidation.RequireDistinctRemovals` | internal/modelmanager/reflection_validation.go:526-558 | holds exactly if no amendment is taken out twice over all three ways |
| `ReflectionValidation.ValidateProposal` | internal/modelmanager/reflection_validation.go:123-208 | a proposal is accepted if and only if it is acceptable as a whole |
| `ProposalLaws.AcceptedExactlyWhenItFits` | internal/modelmanager/reflection_validation.go:123-651 | that is, said of the fields of the proposal and the request alone: every experience, amendment and description fits, no two of them share what they may not, the evidence is of more than one occasion where it has to be, no amendment is removed twice by any tokens, and at most twelve stay |
| `ProposalLaws.AcceptedIsTakenOver` | internal/modelmanager/reflection_validation.go:159-208 | what is accepted is the proposal, item by item and in order, with each token replaced by what it stands for and each cited number by its event |
| `ProposalLaws.EvidenceExactly` | internal/modelmanager/reflection_validation.go:450-480 | evidence is accepted exactly if its keys differ and each is of a proposed experience all of whose events, and its subject, are about the counterpart |
| `ProposalLaws.OccasionsExactly` | internal/modelmanager/reflection_validation.go:829-854 | it spans occasions exactly if two of the events cited under its keys are apart |
| `ReflectionValidation.ActiveStaysBounded` | internal/modelmanager/reflection_validation.go:186-195 | the amendments an accepted proposal removes are distinct and active, so what stays plus what is added is exactly the number checked, at most twelve |
| `ReflectionValidation.NoEventCitedTwice` | internal/modelmanager/reflection_validation.go:276-293 | of an accepted proposal no event backs two experiences, and none backs one of them twice |
| `ReflectionValidation.OneAmendmentEach` | internal/modelmanager/reflection_validation.go:411-448 | of an accepted proposal at most one amendment is global, and no two others are about one instance, by whatever tokens they name it |
| `MemoryIndex.Index.IndexPrepared` | internal/memory/vector.go:478-508 | on success the document of the entry is its key, content, time, pin and the given vector, and nothing else changed; it succeeds exactly if nothing of it fails |
| `MemoryIndex.Index.EnsureEntry` | internal/memory/vector.go:685-708 | success, which comes exactly if what it needs works, leaves the entry's own document current: its text is the entry's, and its vector the old one only where the text was the same, else that of the new text |
| `MemoryIndex.Index.PruneOrphans` | internal/memory/vector.go:754-793 | exactly the documents no entry names and whose deletion works are gone, or nothing has changed; it succeeds on a collection that holds the anchor if it can be listed, and not on one that cannot |
| `MemoryIndex.Index.EnsureIndexed` | internal/memory/vector.go:660-726 | from any prior state, success leaves a current document for each entry and besides only documents that could not be deleted; and it succeeds exactly if the store can be read and nothing the repair needs fails |
| `MemoryIndex.IndexEqualsStore` | internal/memory/vector.go:627-646 | when no deletion failed, what is indexed is exactly what is stored |
| `MemoryIndex.ExperienceIndex.Reconcile` | internal/memory/experience_index.go:119-134 | success leaves exactly the retained experiences, each with its summary where the collection was rebuilt, and a collection already right is not touched |
| `MemoryIndex.DocumentsHoldSummaries` | internal/memory/experience_index.go:72-103 | the documents built hold one text for each experience, its own summary, and no other |
| `MemoryIndex.ExperienceIndex.HoldsAll` | internal/memory/experience_index.go:139-151 | true exactly if each retained experience has a document |
| `MemoryIndex.IdsCount` | internal/memory/experience_index.go:136-138 | distinct experiences have that many distinct document ids, which is what makes the count check sound |
| `MemoryIndex.NamespacesAreDisjoint` | internal/memory/experience_index.go:38-55 | no experience collection is taken for one of memories, and two instances never share one |
| `MemoryIndex.MemoryNamesExactly` | internal/memory/experience_index.go:38-55 | the memory collection of an instance, under its bare id, is known for one if and only if its id does not begin with the prefix; otherwise it is the experience collection of another |
| `Members.Find` | internal/set/sorted.go:32-46 | the place of an element in the sorted order, and whether it is taken |
| `Members.Insert` | internal/set/sorted.go:50-59 | the set gains the element, in place of an equal one, and stays in order |
| `Members.Remove` | internal/set/sorted.go:63-71 | the set loses exactly the equal element and stays in order |
| `Members.LessIsTransitive` | internal/domain/member.go:35-46 | the display order is transitive |
| `Members.LessIsTotal` | internal/domain/member.go:35-46 | of two members in different places exactly one comes first |
| `Members.MemberList.AddIdentity` | internal/domain/member.go:92-104 | list and map agree, and one added again keeps the privileges held |
| `Members.MemberList.RemoveID` | internal/domain/member.go:110-123 | exactly that member is gone from both |
| `Members.MemberList.SetModesID` | internal/domain/member.go:262-276 | exactly that member has the new privileges, in its new place |
| `Members.MemberList.ApplyModeID` | internal/domain/member.go:280-285 | one privilege of one member changes |
| `Members.MemberList.RenameID` | internal/domain/member.go:298-306 | exactly that member has the new nick, in its new place, with its privileges |
| `Members.MemberList.GetByNick` | internal/domain/member.go:320-332 | the first member in display order whose nick folds to the same |
| `Members.MemberList.Clone` | internal/domain/member.go:366-379 | an independent list with the same members in the same order |
| `Members.SortedIsUnique` | internal/domain/member.go:48-55 | the display order depends on who the members are and not on how they got there |
| `History.StableSortIsStable` | internal/modelclient/history.go:105-109 | sorting replies keeps all of them, orders them by time and leaves equal times as they came |
| `History.LastOfInserted` | internal/modelclient/history.go:116-135 | dropping the older replies before or after a late one arrives leaves the same latest ones |
| `History.DropOldest` | internal/modelclient/history.go:122-134 | at most one reply goes, the oldest of its own window, and only if that window has too many |
| `History.Memory.AppendReply` | internal/modelclient/history.go:116-135 | the replies of every window are the latest five hundred of those heard there, in stable time order |
| `History.Memory.SeedReplies` | internal/modelclient/history.go:92-103 | the loaded replies of a window take the place of those it had, and no other window changes |
| `History.Memory.SeedDM` | internal/modelclient/history.go:262-298 | a direct conversation is loaded with its replies or not at all, once |
| `History.Memory.Append` | internal/modelclient/history.go:198-214 | the buffer is the last five hundred of the load, what came before it, and the live events; the replies change only with a load, and then only those of its window |
| `History.Memory.AppendAfterSeedFailure` | internal/modelclient/history.go:219-232 | the same for an event kept after a failed load |
| `History.Memory.Forget` | internal/modelclient/history.go:71-81 | nothing of the window is left and nothing else changed |
| `CommandLine.ScanTokens` | internal/command/command.go:494-526 | the tokens are the longest runs without spaces, and every other character is a space |
| `CommandLine.ParseArgs` | internal/command/command.go:306-331 | on success every token is delivered once: it names a node of the path, is an argument of exactly one node, or lies in the one raw suffix |
| `CommandLine.ConsumeDelivers` | internal/command/command.go:333-412 | one step delivers the tokens it takes and only those |
| `CommandLine.BindingIsNearest` | internal/command/completion.go:719-770 | the flag a token names is the one its nearest node on the path declared last |
| `CommandLine.DedupeKeepsTheLast` | internal/command/completion.go:740-760 | deduplicating leaves the last declaration of each name |
| `CommandLaws.FlagTakesItsValue` | internal/command/command.go:333-483 | a declared flag, and its value unless it is boolean, attached or missing, go to the nearest node that declares it, whatever positional waits, and a variadic flag takes all that is left |
| `CommandLaws.StrayOptionEndsTheParse` | internal/command/command.go:375-383 | an option no node declares, or two dashes, give the current node all that is left |
| `CommandLaws.ArgumentFillsItsPlace` | internal/command/command.go:385-399 | an argument is the current node's while a positional waits for it, and fills it unless it is variadic |
| `CommandLaws.VariadicTakesTheRest` | internal/command/command.go:385-388 | each argument after a variadic positional began is one more of it |
| `CommandLaws.ArgumentNamesAChild` | internal/command/command.go:401-412 | past the positionals an argument names the child to go down to, is refused where no child has the name or alias, and stays an argument where there are no children |
| `CommandLaws.PassthroughTakesTheLine` | internal/command/command.go:350-371 | a full passthrough takes the line as it stands from any token that names no declared flag, a partial one from any that is no option either, or from two dashes |
| `CommandLaws.FlagIsTheNearest` | internal/command/completion.go:719-770 | the flag a name stands for is the last declaration of it at the deepest node that has one, and none exactly if no node has one |
| `CommandLaws.CompletionMeetsAFlag` | internal/command/completion.go:305-338 | completion expects a value exactly at the end of a line that ends with a flag that takes one; it skips a value that is there and stops at a variadic flag |
| `CommandLaws.CompletionFillsAPlace` | internal/command/completion.go:340-400 | any other token fills a positional, starts a passthrough, is invalid as an option before a partial one, or ends the walk in a variadic one |
| `CommandLaws.CompletionNamesAChild` | internal/command/completion.go:349-366 | past the positionals it names a child, is invalid where there are others, and else counts on |
| `CommandLine.ClassifyForCompletion` | internal/command/completion.go:295-407 | completion's walk over the preceding tokens |
| `CommandLine.CompletionFollowsTheParser` | internal/command/completion.go:292-360 | without stray options completion ends at the parser's node, and is invalid exactly when the parser meets an unknown subcommand |
| `CommandLine.VariadicStays` | internal/command/command.go:385-399 | once a variadic positional began, nothing moves or stops the parser |
| `CommandLine.StrayOptionsPartThem` | internal/command/completion.go:295-407 | from any place the two walks reached together, at an option no node declares, they end alike if and only if the arguments left, flags and their values taken out, do not overrun the node: the first that no ordinary positional takes meets neither children nor, as an option, a partial passthrough |
| `CommandLine.CompletionFollowsExactly` | internal/command/completion.go:292-407 | on any line, completion ends at the parser's node and is invalid exactly when the parser meets an unknown subcommand, if and only if the first stray option the parser meets leaves no arguments that overrun its node |
| `CommandLine.FollowStaysExactly` | internal/command/completion.go:295-407 | completion stays on its node exactly if the arguments left do not overrun it |
| `CommandLine.StrayFirstOptionPartsThem` | internal/command/command.go:380-383 | in particular a stray option at the front of a line for a node with children and no positionals makes completion give up where the parser goes on |
| `IrcFmt.WriteFormats` | internal/ircfmt/ircfmt.go:246-274 | the toggles written take the old attributes to the new ones, after a reset only where one is needed |
| `IrcFmt.WriteLine` | internal/ircfmt/ircfmt.go:224-236 | the bytes of one line, each span after the transition that reaches it |
| `TurnLoop.ExecuteCall` | internal/modelclient/api.go:371-420 | one call of a batch: refused exactly if its window is not authorised, skipped exactly if the tool is unknown or not for this window, and otherwise run once, with the answer the tool gave, which crashes the batch or stands as its result |
| `TurnLoop.SendTurnEvents` | internal/modelclient/api.go:190-219 | the first request is sent unless the window is closed, and what comes of it is the reply, the failure the provider gave, or the window closed meanwhile |
| `TurnLoop.ContinueOnce` | internal/modelclient/api.go:241-271 | one continuation: nothing sent if the window is closed or the request cannot be rendered, else one send with the answers of the batch, and what came of it |
| `Redispatch.DispatchLoop.Keep` | internal/modelclient/dispatch.go:128-142 | the batches merged and the batches kept to run, in the order they were filed |
| `Redispatch.DispatchLoop.Serve` | internal/modelclient/dispatch.go:72-104 | one turn of the select: a burst is taken and what it leaves to run is attempted in filing order; a timer has what still waits behind it attempted for the last time, and a stale one changes nothing |
| `Redispatch.DispatchLoop.AttemptedAgain` | internal/modelclient/dispatch.go:188-250 | a first attempt that fails transiently is made a second time once its timer fires, and then never again |
| `ManagerLifecycle.Manager.EndDrain` | internal/modelmanager/manager.go:1308-1313 | the entry is removed only if it is still the one that was drained |
| `ManagerLifecycle.StartIsSound` | internal/modelmanager/manager.go:300-312 | a new manager satisfies the invariant all runs keep |
| `ReflectionScheduler.Worker.ReadInbox` | internal/modelmanager/reflection_scheduler.go:223-239 | a snapshot is decided on; a failed read parks |
| `ReflectionScheduler.Worker.FinishRun` | internal/modelmanager/reflection_scheduler.go:249-250 | a run is dated by its end, whatever it recorded |
| `ReflectionValidation.TakeSources` | internal/modelmanager/reflection_validation.go:265-299 | accepted exactly if every cited event was listed, is about the subject, and was not used before |
| `ReflectionValidation.ValidateEvidence` | internal/modelmanager/reflection_validation.go:450-480 | accepted exactly if the keys differ, are known and match the counterpart; gives all the events they cite |
| `ReflectionValidation.AmendmentValidator.ValidateScope` | internal/modelmanager/reflection_validation.go:411-448 | accepted exactly if the scope is well formed and no earlier amendment has it |
| `ReflectionValidation.AmendmentValidator.ValidateSupersession` | internal/modelmanager/reflection_validation.go:390-409 | accepted exactly if it supersedes nothing, or an active amendment no earlier one does |
| `MemoryIndex.Index.ClearCollection` | internal/memory/vector.go:802-821 | on success, which comes exactly if the collection is empty or can be dropped, nothing of it is left |
| `MemoryIndex.ExperienceIndex.AddAll` | internal/memory/experience_index.go:72-103 | on success the collection is what it was, with a document holding its summary for each given experience |
| `History.Memory.SeedChannel` | internal/modelclient/history.go:64-69 | the load of a channel takes the place of what was remembered of it |

## Left out

- PromptTokens.RefusalIsNeverForgotten: does not model overflow of the 64-bit products, because the totals a process can reach stay far below it.
- ContextCompaction.PrefixNeeded: minimality is stated for a size that only shrinks as the prefix grows, which the bisection itself takes for granted; the estimate is taken as fixed within one bisection and may change after every summary call. The same holds, with growth, of SummaryBatch and FittingFragment.
- IrcFmt.ReadIsDisplayable: speaks of C0 controls; C1 controls, of which it is false, are the subject of IrcControls.
- ManagerLifecycle.DeletionsAreNeverLost: assumes an id is not attached again while it drains or after its deletion; without that it is false (ReattachingLosesADeletion).
- ManagerLifecycle.ForgetsOnlyTheJoined: speaks of the states reached under the same assumption; without it, it is false (ReattachingForgetsTheLiving).
- ProviderPath.StaysAcceptedExactlyAlongThePath: with alternatives no such condition is stated, since a rewritten alternative may come to accept what its original did not; that nothing is lost without fenced patterns is ProviderOnlyWidens.
- TurnLoop.ContinueTurn: a wait is cut short by the context, the clock or the source of jitter, whose errors are taken never to be a provider's refusal or filter.
- ReflectionScheduler.NoWakeUpIsLost: follows one worker from its start to its end; that the next event after its end starts another is not part of this model.
- Redispatch.DispatchLoop.ServeAll: a batch is its window, its triggers and its retry mark; transcripts, spans and the failure notice are not part of this model, and a released client stands for a cancelled loop context.
- StrictAcceptance.StrictAcceptsPadded: covers nodes that are typed, a union without a type of its own, or unconstrained, with the keywords type, properties, required, items, enum, anyOf, additionalProperties false and annotations. MissingTakesNull covers these keywords in any combination on one node.
- ProviderSchema.RefusedExactlyWhenUnsupported: which keyword is named first, and where, is not part of this model.
- History.Memory.SeedChannel: takes a load of at most five hundred events, as its caller asks for; channel names are taken as already folded.
- Catalogue.OneFetchAtATime: follows the demands that go through the cache; a listing asked for directly fetches on its own.
- Schemas are values: that the rewriting works on a clone and in place on shared maps, and `$ref`, are not modelled; a `$ref` keeps one meaning before and after.
- Texts a reflection proposes are judged by arbitrary predicates; the patterns, role prefixes and name checks behind them are not modelled.
- The vector database is a map from id to document; ranking, embeddings and persistence are left out.
- Time is an integer; jitter, pacing, deadlines and cancellation appear only as steps that may or may not happen.
- The request rendered for a provider is an arbitrary size of its parts; prompts, caching points and run coalescing are left out.
- The turn journal and its queue, the alignment of rendered history, the typed decoding of arguments and completion's suggestions are not part of this model.
