# ref0, modelled in Dafny

ref0 runs untrusted language-model output through bounded protocols and publishes
immutable artifacts. This project models five parts of it and proves what each
promises over every input, every run or every reachable state.

* **The trusted host of the Pi capsule** (`internal/capsule`): the concurrent slot
  pool (`Pool.dfy`, `PoolProtocol.dfy`, `PoolEffects.dfy`), the strict JSON decoder and
  the capsule's own traversal (`Json.dfy`, `JsonLimits.dfy`), the provider stream
  (`Sse.dfy`, `SseTheorems.dfy`, `SseFragments.dfy`, `SseFixedPoint.dfy`,
  `SseExamples.dfy`, `ChunkReading.dfy`, `StreamAcceptance.dfy`, `LawfulCodec.dfy`), one
  attempt (`Attempt.dfy`) and the message loop against an arbitrary capsule, provider
  and tool handlers (`Session.dfy`, `SessionProgress.dfy`).
* **Crash-safe artifact stores** (`internal/artifacts`): page snapshots of a run
  (`RunStore.dfy`, `RunProtocol.dfy`, `SaveProgress.dfy`) and wiki bundles (`Slug.dfy`,
  `SlugGrammar.dfy`, `BundlePaths.dfy`, `Wiki.dfy`, `WikiStore.dfy`, `WikiProgress.dfy`,
  `WikiExamples.dfy`).
* **The Agent execution engine and its receipts** (`internal/agents`): `Engine.dfy`,
  `Receipts.dfy` and `ReceiptProgress.dfy`.
* **Selection**: the prompt budget (`Budget.dfy`) and the fair merge (`FairMerge.dfy`).
* **Bytes and limits**: the line-separator unescaper (`LineSeparators.dfy`) and the
  protocol limits (`Limits.dfy`).

State that the source updates in place is a class whose methods are proved equal to
functions on values; loops stay loops. The theorems are then about those functions,
about runs of atomic steps, or about traces. Concurrency is a state machine over
lock-atomic steps of many clients; the outside world (capsule, provider, handlers,
repository, clock, crashes) is a parameter that may answer anything.

Safety is one half: the modules named after progress, effects, reading and acceptance
prove the other, that an honest caller is served. They state, on fields and messages
alone, exactly when a request gets through and what it leads to.

Check everything with `dafny verify dfyconfig.toml`.

## Findings

Where a promise does not hold of the code as it stands, the model keeps the code, and
a lemma gives the exact condition.

* The host refuses numbers no float64 holds, such as `1e999`, and the capsule's
  traversal does not look at them: on unique names the two agree exactly when numbers
  are finite or the limits are exceeded (`Json.BothCheckersAgree`,
  `Json.HugeNumberDivides`).
* Normalising a provider stream is a fixed point exactly when the provider named the
  tool call and the limits leave room for the normalised form
  (`SseFixedPoint.NormalizationIsFixedPoint`, `SseExamples.UnnamedCallIsRefused`).
* A saved page loads back exactly when title, description and type are not empty;
  `SavePage` does not check that (`RunStore.CompletePageLoads`,
  `RunStore.UntitledPageIsLost`).
* A wiki of more than 2000 files can be published once but not republished
  (`WikiStore.LaterPublication`, `WikiExamples.LargeWikiIsNotRepublished`, with the
  pages of `WikiExamples.ManyPagesAreNotRepublished`), and a discard that is cut short
  strands a partial version that refuses its own inputs
  (`WikiStore.TornVersionIsRefused`).
* A replayed receipt whose latency differs by a multiple of 2^32 milliseconds passes
  as the same (`Receipts.ConflictIsExact`, `Receipts.LatencyWraps`).
* A record with an empty scope needs no reservation
  (`Receipts.EmptyScopeNeedsNoReservation`, `Receipts.EmptyScopeIsRecorded`). This
  concerns `RecordRun` called directly: its caller `Execute` refuses an empty capture
  before it records anything (internal/agents/engine.go:291).
* A `model_result` always fits a frame, but not always the string limit: the default
  limits refuse bodies over 786 432 bytes (`Limits.DefaultsRefuseLargeBodies`).

## Model

| member | source | states |
|---|---|---|
| `Pool.SlotPool.StartPool` | internal/capsule/pool.go:97-111 | Only a new pool with a valid topology becomes ready, with every slot free. |
| `Pool.SlotPool.DispatchLocked` | internal/capsule/pool.go:199-209 | The loop hands the first free slot to the first waiter until either runs out, as `Dispatch` says. |
| `Pool.SlotPool.ReleaseUnderLock` | internal/capsule/pool.go:211-220 | A returned slot goes to the next waiter, back to `free`, or completes the shutdown. |
| `Pool.SlotPool.EnqueueWaiter` | internal/capsule/pool.go:113-122 | An arrival is queued and dispatched if the pool is ready and turned away otherwise. |
| `Pool.SlotPool.ConfirmSlot` | internal/capsule/pool.go:129-138 | A delivered slot is kept if the pool is still ready and given back otherwise. |
| `Pool.SlotPool.CancelWaiter` | internal/capsule/pool.go:139-153 | A cancelled waiter gives back the slot it was dispatched or leaves the queue. |
| `Pool.SlotPool.ReleaseSlot` | internal/capsule/pool.go:157-165 | Only a leased slot can be released. |
| `Pool.SlotPool.ClosePool` | internal/capsule/pool.go:167-188 | Closing refuses every waiter once and closes at once if nothing is leased. |
| `Pool.NewSlotPool` | internal/capsule/pool.go:61-83 | A pool is built exactly from a nonempty list of slots with distinct names and distinct paths. |
| `PoolProtocol.RunKeepsInv` | internal/capsule/pool.go:97-220 | Every state of every interleaving of arrivals, deliveries, cancellations, releases and closing satisfies the invariant. |
| `PoolProtocol.SlotsAreOwnedOnce` | internal/capsule/pool.go:113-165 | In every ready state `free` has no duplicates and with `leased` partitions the slots; every leased slot has exactly one owner. |
| `PoolProtocol.ServedInArrivalOrder` | internal/capsule/pool.go:113-155 | Nobody waits while a slot is free, uncancelled waiters are served in arrival order, and each channel gets at most one message. |
| `PoolProtocol.ShutdownIsOrderly` | internal/capsule/pool.go:167-220 | The state only moves forward; closed means nothing leased and one close; no slot is delivered once closing began. |
| `PoolEffects.EveryStepIsServed` | internal/capsule/pool.go:97-220 | In every state of every run exactly the possible steps can be taken, each with its effect on the fields: a start readies all slots, an arrival gets the first free slot or the last place, a slot given back goes to the oldest waiter, to the free ones or ends the shutdown, a cancelled call leaves the others in order, and closing refuses the queue. |
| `PoolEffects.CloseIsFinal` | internal/capsule/pool.go:167-188 | In every state after a close the pool is closing or closed, closed at once if nothing was leased; every call queued at the close has exactly one refusal; and no call without a slot at the close, or later, is ever granted one. |
| `Json.Decoder.DecodeValue` | internal/capsule/json.go:36-107 | The recursive decoder with its shared counter computes `Decode`. |
| `Json.ParseStrictIsTreeSpec` | internal/capsule/json.go:19-107 | On the tokens of any tree, decoding returns its value and key count exactly when names are unique, numbers finite and limits kept, and fails otherwise. |
| `Json.ParseStrictSound` | internal/capsule/json.go:19-107 | Whatever token stream is accepted is that of a strict tree within limits, and the result is that tree's value. |
| `Json.ValidateComplexity` | capsule/src/wire.ts:169-201 | The explicit-stack traversal with early exits accepts exactly the trees within limits. |
| `Json.BothCheckersAgree` | capsule/src/wire.ts:169-201 | The host accepts exactly trees with unique names, finite numbers and within limits, the capsule all within limits; on unique names they agree exactly when numbers are finite or the limits are exceeded. |
| `Json.HugeNumberDivides` | internal/capsule/json.go:93-106 | The text `1e999` is refused by the host and accepted by the capsule, under any limits with a depth of at least one and a nonnegative key limit. |
| `Json.TokensAreUnique` | internal/capsule/json.go:36-107 | The token stream determines the document and where it ends. |
| `JsonLimits.LimitsMean` | internal/capsule/json.go:36-107 | Within limits means: deepest nesting, every name and string, and the number of all names, each measured on its own, are within theirs. |
| `LineSeparators.UnescapeCapsule` | internal/capsule/json.go:120-143 | The first copy computes `Unescape`. |
| `LineSeparators.UnescapeArtifacts` | internal/artifacts/fs.go:287-312 | The second copy computes the same `Unescape`. |
| `LineSeparators.NoEscapeRemains` | internal/capsule/json.go:120-143 | For every byte string the output holds no escape of U+2028 or U+2029 behind an even run of backslashes. |
| `LineSeparators.UnescapeIdempotent` | internal/capsule/json.go:120-143 | Unescaping twice is unescaping once, for every byte string. |
| `LineSeparators.UnescapePreservesMeaning` | internal/capsule/json.go:109-143 | Every text that lexes as JSON lexes to the same marks and decoded strings afterwards. |
| `LineSeparators.MeaningNeedsJson` | internal/capsule/json.go:120-143 | Without well-formed strings the meaning can change: a witness. |
| `Decimals.DecimalRoundTrip` | internal/capsule/json.go:200-204 | The decimal text of a count within int64 reads back as that count. |
| `Decimals.NegativeRoundTrip` | internal/capsule/json.go:200-204 | A minus in front of a decimal text negates it, down to the least int64. |
| `Decimals.TooLargeIsRefused` | internal/capsule/json.go:200-204 | A count beyond int64 does not read as an integer. |
| `Sse.ParseOpenAISSE` | internal/capsule/sse.go:28-292 | The event loop over lists of fragments computes `Parse`: splitting, reading, absorbing and normalising. |
| `Sse.Collector.Take` | internal/capsule/sse.go:102-213 | One decoded chunk updates the collected fragments as `Absorb` does, and is refused exactly when `Absorb` refuses. |
| `ChunkReading.WrittenChunksAreRead` | internal/capsule/sse.go:87-213 | Round trip: a chunk with any usage, deltas, call fragments and finish reason, written as JSON in any of the ways a provider may, reads back as that chunk. |
| `ChunkReading.FreeMembersDoNotMatter` | internal/capsule/sse.go:87-90 | Identifier, creation time, fingerprint and service tier may have any value or be left out. |
| `ChunkReading.ReadChunksAreShown` | internal/capsule/sse.go:87-213 | Whatever reads as a chunk shows it: known names, the right model and object, one choice and one call at most, each text and count under its own name. |
| `StreamAcceptance.MessagesAreAccepted` | internal/capsule/sse.go:58-292 | Every framed stream of text and reasoning that ends with `stop` is accepted, if its normal form fits, as the message its fragments make, with the usage it reports. |
| `StreamAcceptance.CallsAreAccepted` | internal/capsule/sse.go:58-292 | Every framed stream of one call of a granted tool that ends with `tool_calls`, with arguments that decode to what the schema admits, is accepted, if its normal form fits, as that call. |
| `StreamAcceptance.AcceptedIsFramed` | internal/capsule/sse.go:70-132 | Only framed streams are accepted: choices up to one finish reason, the usage once, alone behind or in one of them. |
| `StreamAcceptance.AcceptedIsOneCall` | internal/capsule/sse.go:181-207 | In an accepted call no fragment gives another identifier or name, and no text occurs. |
| `StreamAcceptance.BodiesAreTheirChunks` | internal/capsule/sse.go:28-82 | A body of one-line events that decode to chunks, ended by the terminator and within the limits, is accepted or refused as its chunks are. |
| `StreamAcceptance.WrittenEventsDecode` | internal/capsule/sse.go:58-90 | The event that a provider writes for a chunk decodes to it. |
| `StreamAcceptance.AcceptedKeepsLimits` | internal/capsule/sse.go:28-86 | An accepted body keeps the limits on bytes, events, bytes a line and members in all. |
| `StreamAcceptance.LineEndsDoNotMatter` | internal/capsule/sse.go:35-35 | Lines may end in a carriage return, with or without a line feed. |
| `StreamAcceptance.BlankLinesDoNotMatter` | internal/capsule/sse.go:39-45 | More blank lines between events do not matter. |
| `StreamAcceptance.SpaceDoesNotMatter` | internal/capsule/sse.go:65-69 | One space after the colon is optional. |
| `SseTheorems.FragmentationIsInvisible` | internal/capsule/sse.go:58-256 | Cutting a content, reasoning or argument fragment anywhere in a chunk stream leaves the answer, or the refusal, unchanged. |
| `SseFragments.SplitEventParsesAlike` | internal/capsule/sse.go:58-256 | In an accepted body of one-line events, whoever wrote them, an event that decodes to a chunk with a fragment `x + y` may be replaced by any two events that decode to its halves; within the limits the body parses alike. |
| `SseFragments.PrintedHalvesParseAlike` | internal/capsule/sse.go:134-213 | Under the codec laws such halves exist: the event's JSON with `x` in place of the fragment, and the rest of it with `y`, as the canonical printer writes them. |
| `SseTheorems.AcceptedShape` | internal/capsule/sse.go:70-132 | An accepted stream has one finish reason, one usage, at most one event between finish and terminator, and never both text and a tool call. |
| `SseTheorems.AcceptedIsConcatenation` | internal/capsule/sse.go:148-256 | The accepted message is all content and reasoning fragments joined in order, and the pending arguments are what all argument fragments decode to. |
| `SseFixedPoint.AcceptedIsSelfContained` | internal/capsule/sse.go:219-328 | An accepted response has coherent usage, a granted call with valid arguments, and a normalised body within the size limit. |
| `SseFixedPoint.NormalizationIsFixedPoint` | internal/capsule/sse.go:28-292 | Re-parsing the normalised stream returns the same message, call, usage and bytes exactly when the call is named and the limits fit; otherwise it is refused. |
| `SseExamples.UnnamedCallIsRefused` | internal/capsule/sse.go:181-187 | A stream that is accepted with an unnamed call and whose normalised form fits the limits and is refused. |
| `Attempt.GrantTools` | internal/capsule/attempt.go:54-84 | Tools are granted exactly when schemas compile and names are valid, distinct and not the submission; each name gets its own validator. |
| `Attempt.TruncateResult` | internal/modelbudget/budget.go:25-53 | The binary search loop computes `Truncate`. |
| `Attempt.TruncationIsLongest` | internal/modelbudget/budget.go:23-53 | Truncation fails only if the empty prefix is refused; its result was accepted, one more character was not, and it is the longest where shortening helps. |
| `Attempt.OpenAIAttempt.Begin` | internal/capsule/attempt.go:96-110 | Begins the next turn within budget and returns the request if it fits. |
| `Attempt.OpenAIAttempt.TakeResponse` | internal/capsule/attempt.go:160-183 | Adds usage, then accepts exactly one call, which on the last turn must be the submission. |
| `Attempt.OpenAIAttempt.TakeToolResult` | internal/capsule/attempt.go:193-233 | Appends the result, truncated if needed, and becomes ready again. |
| `Attempt.OpenAIAttempt.TakeCompletion` | internal/capsule/attempt.go:241-250 | Ends with the arguments of the pending submission if the capsule repeats them and they are valid. |
| `Attempt.OpenAIAttempt.Abandon` | internal/capsule/attempt.go:252-258 | Fails or cancels the attempt. |
| `Attempt.ResponseKeeps` | internal/capsule/attempt.go:160-183 | Accepting a response keeps the attempt sound: a granted pending call, and a tool is awaited only before the last turn. |
| `Attempt.ToolResultKeeps` | internal/capsule/attempt.go:193-239 | Accepting a tool result keeps the attempt sound: the grown transcript fits the next request. |
| `Attempt.BoundIsTight` | internal/capsule/attempt.go:210-232 | A result that fits is kept whole; otherwise the kept envelope fits and one more character would not. |
| `Attempt.KeptIsLongest` | internal/modelbudget/budget.go:23-53 | A result that does not fit is replaced by the envelope with the longest prefix of its text whose request fits, for any printer that escapes strings character by character. |
| `Attempt.ToolResultLeavesRoom` | internal/capsule/attempt.go:193-239 | After every accepted tool result, truncated or not, the next turn is within budget and its request is built and fits. |
| `Session.ExchangeLoop` | internal/capsule/session.go:342-375 | At most one call more than the retry budget, every call but the last retryable, and the reply is the last call's. |
| `Session.Invocation.Request` | internal/capsule/session.go:203-220 | A model request is exchanged only with a new identifier, within both budgets, for the next turn. |
| `Session.Invocation.AnswerTool` | internal/capsule/session.go:238-261 | A tool call runs a handler only if it repeats the pending call under a new identifier. |
| `Session.Invocation.Complete` | internal/capsule/session.go:262-276 | Completion returns the accepted submission after the capsule closed its side. |
| `Session.Invoke` | internal/capsule/session.go:187-285 | The loop returns after at most `2 * maxModelRequests` messages, in the state `Run` describes. |
| `Session.RunKeepsInv` | internal/capsule/session.go:193-284 | The invariant holds after any number of arbitrary messages and provider replies. |
| `Session.HostIsSafe` | internal/capsule/session.go:193-284 | The log is exchange, accepted call, handler call over and over, each handler call for the call accepted just before it; a submission comes last; any output is that submission's arguments and satisfies the schema. |
| `Session.HandlersFollowProvider` | internal/capsule/session.go:238-261 | The handler calls are exactly the accepted provider calls, in order and once each, all but possibly the last, and all of granted tools. |
| `Session.TranscriptAndUsage` | internal/capsule/attempt.go:160-250 | The transcript is the prompts and matched call and answer pairs; usage totals add up; responses never exceed the budget. |
| `Session.HostTerminates` | internal/capsule/session.go:193-284 | A host still running has served fewer messages than twice its model requests. |
| `Session.NextTurnIsExchanged` | internal/capsule/session.go:203-221 | After a tool result, a well-formed request for the next turn is always exchanged. |
| `SessionProgress.MessagesAreServed` | internal/capsule/session.go:193-284 | In every reachable running host the next message is served by the protocol: a request for the due turn under a new identifier is exchanged as built from transcript and budget, a good reply is accepted, a repeated call is handled, a repeated submission with a clean end is the output, and anything else fails without effect. |
| `SessionProgress.ResultsAreKept` | internal/capsule/attempt.go:193-233 | The result a handler returns for a repeated call, if within limits and the next request fits, is the answer in the transcript, whole, and the session goes on. |
| `SessionProgress.LongResultsAreCut` | internal/capsule/attempt.go:210-232 | One for which the next request has no room is cut to a prefix that fits while one character more would not, and counted. |
| `SessionProgress.MessagesAreTakenAtTheirWord` | internal/capsule/session.go:238-276 | A handler runs, and a session is done, only with exactly the name and value that the message itself carried. |
| `SessionProgress.IdentifiersAreNeverReused` | internal/capsule/session.go:381-391 | The messages a running host has served had pairwise different identifiers, and it remembers exactly these. |
| `SessionProgress.FirstAnswerIsTaken` | internal/capsule/session.go:342-375 | After transient errors and statuses the first answer that is not transient is the reply, if the budget reaches it. |
| `SessionProgress.CloneIsFaithful` | internal/capsule/json.go:164-171 | Copying a value through its text gives the value within the limits and nothing beyond. |
| `SessionProgress.FitsInBytes` | internal/modelbudget/budget.go:11-21 | A request fits exactly when its bytes and four for each token of answer and margin are within four for each token of the context. |
| `Slug.NormalizePageSlug` | internal/artifacts/model.go:38-57 | A slug is returned unchanged exactly when shape and segments pass. |
| `Slug.AcceptedChars` | internal/artifacts/model.go:36-57 | Accepted slugs consist of lower-case letters, digits, hyphens and slashes and start with none of `.` and `/`. |
| `Slug.AcceptedIsNoIndex` | internal/artifacts/model.go:48-54 | No accepted slug is, or ends in a segment, `index` or `log`. |
| `SlugGrammar.WordsAreAccepted` | internal/artifacts/model.go:36-57 | Every slug of words joined by hyphens and slashes is accepted, unless it is over 255 bytes or ends in a reserved segment. |
| `SlugGrammar.AcceptedAreWords` | internal/artifacts/model.go:36-57 | Every accepted slug is such a slug. |
| `RunStore.PathTextInjective` | internal/artifacts/run.go:74-81 | Different accepted slugs and kinds never share a file name. |
| `RunStore.CompletePageLoads` | internal/artifacts/run.go:113-174 | A completely saved page with true digests loads back as itself exactly when its required fields are not empty. |
| `RunStore.UntitledPageIsLost` | internal/artifacts/run.go:26-111 | A page without a title that is saved and then does not load. |
| `RunStore.AssembledPageIsWhole` | internal/artifacts/run.go:130-174 | A page assembled from three files of any origin is the page whose metadata was read exactly when that page carries true digests. |
| `RunStore.Store.CleanupResidue` | internal/artifacts/run.go:253-277 | Removes exactly the temporary siblings of its target. |
| `RunStore.Store.AtomicCreate` | internal/artifacts/run.go:218-251 | Creates the file with the whole content or, cut short, leaves no other final file changed. |
| `RunStore.Store.SavePage` | internal/artifacts/run.go:26-111 | Refuses exactly what disagrees with present files, never changes a final file, completes the page unless cut short, and then leaves an agreeing part. |
| `RunStore.Store.LoadPage` | internal/artifacts/run.go:113-174 | Reads three files and returns `Load`. |
| `RunStore.Store.DiscardRun` | internal/artifacts/run.go:176-206 | Deletes file by file, everything unless cut short. |
| `RunProtocol.FilesHaveOneAuthor` | internal/artifacts/run.go:74-109 | Over every interleaving and crash the files of a slug agree with one single given page. |
| `RunProtocol.LoadedPagesWereGiven` | internal/artifacts/run.go:113-174 | Every page a lock-free load returns was given to a save in full. |
| `RunProtocol.CompletedPageStays` | internal/artifacts/run.go:90-109 | A completed page stays as it is until a discard deletes a file. |
| `RunProtocol.EndedSaveIsComplete` | internal/artifacts/run.go:101-110 | A save that reaches its end has all three files in place. |
| `RunProtocol.InterruptedSaveCanFinish` | internal/artifacts/run.go:82-109 | What an interrupted save left keeps agreeing with its page, through crashes and discards, until another page links a file. |
| `SaveProgress.SavesCanFinish` | internal/artifacts/run.go:82-111 | From every reachable state a save whose page agrees with the files present can be finished by its own steps, completing its page and leaving other saves and loads alone. |
| `SaveProgress.SavesEndForAReason` | internal/artifacts/run.go:90-110 | A save ends only when complete, by a crash, or because a file of its slug has other content. |
| `SaveProgress.SavesCanBegin` | internal/artifacts/run.go:26-81 | A save of an acceptable page begins wherever no save of its slug and no discard is under way. |
| `SaveProgress.CompletePagesCanBeLoaded` | internal/artifacts/run.go:113-174 | A load of a complete page with true digests and nonempty fields returns it, whatever saves are under way. |
| `BundlePaths.CollectDirectories` | internal/artifacts/wiki.go:560-568 | Walking up from each page path collects exactly the directories above some page. |
| `BundlePaths.ValidateSlugs` | internal/artifacts/wiki.go:350-385 | Accepts exactly nonempty page sets with accepted, unique slugs none of which is a directory of another. |
| `BundlePaths.PathsAreDistinct` | internal/artifacts/wiki.go:442-527 | Two files of a bundle with the same path are the same file. |
| `BundlePaths.FilesAreNotDirectories` | internal/artifacts/wiki.go:529-538 | No file of a bundle stands where another needs a directory. |
| `Wiki.Put` | internal/artifacts/wiki.go:529-538 | Exclusive creation of a bundle file not yet written always succeeds. |
| `Wiki.WriteBundle` | internal/artifacts/wiki.go:442-527 | Writing ends complete, cut short or with bad links, never in a collision; complete means exactly the bundle. |
| `WikiStore.AssertSameBundle` | internal/artifacts/wiki.go:698-755 | Accepts exactly bundles of at most 2000 files with the same paths and digests. |
| `WikiStore.WikiVersion.PublishVersion` | internal/artifacts/wiki.go:44-108 | Publication computes `Publish` and leaves no staging behind on success or refusal. |
| `WikiStore.WikiVersion.ValidateVersion` | internal/artifacts/wiki.go:110-171 | Validation computes `Validate` and does not touch the version. |
| `WikiStore.WikiVersion.Discard` | internal/artifacts/wiki.go:253-283 | Deletes file by file in any order; cut short it leaves an unchanged subset of the known size. |
| `WikiStore.BundleSize` | internal/artifacts/wiki.go:442-527 | A bundle holds two files a page, one a directory and four more. |
| `WikiStore.ManifestIsWritten` | internal/artifacts/wiki.go:76-83 | The receipt carries the digest of the manifest file that is in the bundle. |
| `WikiStore.PagesReadBack` | internal/artifacts/wiki.go:173-195 | Reading a page or its claims from a bundle gives what the page was published with. |
| `WikiStore.LaterPublication` | internal/artifacts/wiki.go:84-96 | A later publication changes nothing and is accepted exactly when the content is the same and has at most 2000 files. |
| `WikiExamples.LargeWikiIsNotRepublished` | internal/artifacts/wiki.go:722-755 | Any publishable inputs with 999 pages or more are published into an absent version and then refused as different from themselves. |
| `WikiExamples.ManyPagesAreNotRepublished` | internal/artifacts/wiki.go:722-755 | A set of 1024 pages with valid slugs, own titles and empty claim lists that meets this fate under every format whose claim and link checks it passes. |
| `WikiStore.VersionIsAtomic` | internal/artifacts/wiki.go:44-108 | In every reachable state a version is absent or part of one accepted bundle, and all of it exactly when no file was deleted since. |
| `WikiStore.UntouchedIsWhole` | internal/artifacts/wiki.go:44-108 | Without discards every version present is a complete bundle, whatever crashed. |
| `WikiStore.TornVersionIsRefused` | internal/artifacts/wiki.go:84-96 | After a discard cut short the same inputs are refused, and accepted again once the version is gone. |
| `WikiStore.CutShortDiscardTears` | internal/artifacts/wiki.go:279-282 | Deleting any one file of a fresh version leaves it present and incomplete. |
| `WikiProgress.GoodPagesMeans` | internal/artifacts/wiki.go:350-385 | Page sets are good exactly when nonempty, with accepted slugs, none twice and none a directory of another. |
| `WikiProgress.PublishExactly` | internal/artifacts/wiki.go:44-108 | Which publications install, which are accepted as the same, which differ, are invalid or are cut short, case by case over all inputs. |
| `WikiProgress.ValidateExactly` | internal/artifacts/wiki.go:110-171 | What an uncut validation answers, case by case in the order of its checks. |
| `WikiProgress.PublishedVersionsValidate` | internal/artifacts/wiki.go:110-171 | In every reachable state a version validates against its inputs and manifest exactly while no file was deleted, if it has at most 2000 files. |
| `WikiProgress.IndexListsChildren` | internal/artifacts/wiki.go:570-584 | A directory index lists exactly the pages that lie directly in the directory. |
| `WikiProgress.GeneratedFilesReadBack` | internal/artifacts/wiki.go:442-527 | Root index, manifest, last update and log hold the texts made for them. |
| `WikiProgress.IndexesReadBack` | internal/artifacts/wiki.go:442-527 | Every directory above a page has its index. |
| `Engine.Execute` | internal/agents/engine.go:50-214 | The trace follows the script `Due` to its end, each event with the answer the world gives at that point. Every capture ends in exactly one settlement or one release, in a release exactly when the capture or its digest was refused; a settlement records the verdict on a draft that was security-checked after the last model call, or else a failure, and that only after a denied answer, a call beyond the tool budget, a tool call in single-pass mode, or exactly the allowed turns. A run recorded under the captured identifier is returned with its status, or named in the error if it failed; nothing else is returned. Turns and audit stay within budget. |
| `Engine.AuthorizedFirst` | internal/agents/engine.go:75-111 | In every execution no search, model call or tool call happens before the capture was validated and authorised. |
| `Engine.FreshFirst` | internal/agents/engine.go:146-156 | In every execution each model call directly follows a successful freshness check. |
| `Engine.ExecutionIsDetermined` | internal/agents/engine.go:50-214 | What the outside answers determines the whole execution. |
| `Engine.SmoothExecution` | internal/agents/engine.go:50-214 | Where nothing is denied and the first turn is a draft, the recorded run is returned with that verdict after one search and one model call, in the twelve events listed. |
| `Engine.CooperativeExecution` | internal/agents/engine.go:50-214 | Where the outside cooperates, every execution ends in success with the verdict on the last turn, through any tool calls within the budget. |
| `Engine.Execution.Settle` | internal/agents/engine.go:66-69 | One settlement is appended with the audit of the trace; the identifier is returned exactly when it is the captured one. |
| `Engine.Execution.Fail` | internal/agents/engine.go:241-273 | A failure is recorded before it is reported. |
| `Engine.Execution.TakeTurns` | internal/agents/engine.go:146-213 | The turn loop settles exactly once and stays within the turn budget. |
| `Engine.Execution.Dispatch` | internal/agents/retrieval.go:335-340 | A tool call is audited and counted, or refused without effect once the budget is spent. |
| `Engine.Execution.DispatchAll` | internal/agents/engine.go:201-211 | The calls of a turn are dispatched one by one in order, and the next turn starts only when none is left. |
| `Receipts.CompareReservation` | internal/agents/execution_store.go:660-684 | The row loop accepts exactly reservations that are the captured scope, row by row, and unexpired. |
| `Receipts.CompareBases` | internal/agents/execution_store.go:743-770 | The row loop with its revision loop accepts exactly equal scopes. |
| `Receipts.ExecutionStore.CaptureScope` | internal/agents/execution_store.go:84-93 | One row is reserved for each knowledge base, all with the same expiry. |
| `Receipts.ExecutionStore.ReleaseCapture` | internal/agents/execution_store.go:103-109 | All rows of the run are deleted. |
| `Receipts.ExecutionStore.Record` | internal/agents/execution_store.go:526-628 | The transaction computes `RecordRun`. |
| `Receipts.ReplayAfterAnything` | internal/agents/execution_store.go:558-571 | An accepted record is answered again with the same identifier and without change after any transactions that do not retire the run. |
| `Receipts.ConflictIsExact` | internal/agents/execution_store.go:558-571 | After a record created a run and any transactions that do not retire it, a second valid record changes nothing; it is accepted exactly when both normalise to the same row but for latencies congruent modulo 2^32, and conflicts otherwise. |
| `Receipts.LatencyWraps` | internal/agents/execution_store.go:728-728 | A latency longer by 2^32 milliseconds passes for the stored one. |
| `Receipts.CreationIsBacked` | internal/agents/execution_store.go:572-628 | A run with a scope is created only from a live reservation that is the whole scope of its one capture, and never twice. |
| `Receipts.HistoryIsSound` | internal/agents/execution_store.go:76-109 | In every reachable state no identifier is both reserved and recorded, reservations are whole until they expire, and runs come from captures. |
| `ReceiptProgress.CapturedRunsAreRecorded` | internal/agents/execution_store.go:526-684 | In every history a captured run that was neither released nor recorded since is stored by a well-formed record of it that comes within 24 hours while its wikis exist, with its head, scope and details; a later one, or one without its wikis, is refused, and so is a latency beyond the column. |
| `ReceiptProgress.ReleasedRunsAreRefused` | internal/agents/execution_store.go:103-109 | A captured run that was released is never recorded any more. |
| `ReceiptProgress.InvalidExactly` | internal/agents/execution_store.go:526-558 | Records are invalid exactly when they are not well-formed, and then change nothing. |
| `ReceiptProgress.SweepIsExact` | internal/retention/database.go:30-45 | A sweep removes exactly the chosen rows that have expired. |
| `Receipts.EmptyScopeNeedsNoReservation` | internal/agents/execution_store.go:660-684 | Among creations the unreserved ones are exactly those with an empty scope. |
| `Receipts.EmptyScopeIsRecorded` | internal/agents/execution_store.go:660-684 | In every database a valid record with an empty scope and an unused identifier is answered with that identifier and stored. |
| `Budget.BudgetInitial` | internal/agents/guardrails.go:155-219 | Unavailable exactly where the system prompt leaves no room, a plan exactly where also the newest user message fits; the plan leaves room for answer and safety margin. |
| `Budget.SelectMessages` | internal/agents/guardrails.go:184-197 | The loop from newest to oldest sets the flags of `Choice`. |
| `Budget.PlanIsSafe` | internal/agents/guardrails.go:155-219 | The reported count is the exact sum of what is kept and available, and the newest user message is kept. |
| `Budget.PlanIsGreatest` | internal/agents/guardrails.go:184-203 | The kept messages are the lexicographically greatest feasible set from newest to oldest. |
| `Budget.PlanIsMaximal` | internal/agents/guardrails.go:187-212 | No dropped message or piece of evidence would still fit. |
| `Budget.TokensMeans` | internal/agents/guardrails.go:221-227 | Four bytes a token, rounded up, and at least one token. |
| `Budget.PlanFitsInBytes` | internal/agents/guardrails.go:155-219 | System prompt, kept messages and kept evidence take no more than four bytes for each token left beside answer and margin. |
| `Budget.KeptInOrder` | internal/agents/guardrails.go:198-216 | What is kept are exactly the flagged items, in their order. |
| `FairMerge.Merge` | internal/agents/retrieval.go:238-260 | The result is the first min(limit, total) items of the full round-robin interleaving. |
| `FairMerge.AllIsComplete` | internal/agents/retrieval.go:238-260 | The interleaving holds every item of every group. |
| `FairMerge.PrefixIsFair` | internal/agents/retrieval.go:238-260 | In any prefix each group contributes its first items in order, and two groups differ by at most one unless the smaller is exhausted. |
| `FairMerge.AllIsOrdered` | internal/agents/retrieval.go:238-260 | The interleaving goes by offset and, within one offset, in the order of the groups, over all items. |
| `Limits.LimitsAgree` | capsule/src/attempt-policy.ts:12-23 | The Go check accepts exactly the limits that the TypeScript schema and cross-field check accept. |
| `Limits.Base64Length` | internal/capsule/types.go:141-141 | Base64 takes four one-byte characters for every three bytes begun. |
| `Limits.Base64RoundTrip` | internal/capsule/session.go:230-234 | What is sent as base64 decodes to the body. |
| `Limits.ResultFitsFrame` | internal/capsule/types.go:133-146 | Under accepted limits a `model_result` with any body within the fetch limit and any valid identifier fits one frame. |
| `Limits.ResultFitsStringLimit` | internal/capsule/wire.go:28-50 | The sender's own decoding accepts the message exactly when the encoded body is within the string limit. |
| `Limits.DefaultsRefuseLargeBodies` | internal/capsule/types.go:124-131 | Under the default limits a body of 786 433 bytes is within the fetch limit and still refused. |

## Left out

Assumptions, each visible as a parameter or a precondition:

- JSON text: `encoding/json` is a codec that obeys `Sse.Lawful`: printing and lexing are inverse on values whose numbers are finite JSON number literals, a printed text has no line break and is not the terminator, only number literals lex as numbers, and int64 literals are finite. Only the fixed point, events printed from JSON, and copies and comparisons of values need it; `LawfulCodec.LawsAreConsistent` shows that the laws can be met.
- Attempt.KeptIsLongest assumes `Attempt.PrintsByCharacter`: the printer writes the envelope with its keys in order, escapes strings character by character, and writes the same text around a tool result whatever it holds; `Attempt.PrinterLawIsConsistent` shows that this can be met, and `Attempt.BoundIsTight` needs no such law.
- Schemas: a compiled schema is an arbitrary predicate on values; `compileSchemaObject` and `compiledSchema.valid` are not modelled.
- Digests are abstract: page snapshots identify a digest with its content, wiki bundles assume `WikiStore.CollisionFree` where equality of content is concluded.
- Pages given to a save carry true digests, as the callers compute them; `RunStore.AssembledPageIsWhole` shows what happens otherwise.
- Pool clients release only slots they hold, once, as `invoke` does; slot names and paths are compared after normalisation, which is not modelled.
- Locks appear only as what they serialise: pool steps, saves of one slug, a discard against saves, operations on one wiki version, database transactions.
- Clocks of retention and recording do not run backwards, run identifiers are fresh, and captured knowledge bases are numbered in order, as the capture query checks.
- Limits.LimitsAgree leaves out the attempt timeout, which only the Go side checks, and divides in real numbers; within the schema ranges the rounded quotient has the same ceiling.

Parts of the repository that are not modelled:

- Attempt.GrantTools: does not normalise sampling and reasoning options, which only add fixed fields to every request.
- Session.Invoke: the wire schema, frame sizes and aggregate budget are left out; a received message is any JSON object, which only adds behaviours, and a failed send is an input.
- Receipts.ExecutionStore.Record: encoded sizes of usage, tool calls and citations are not bounded, since their encoder is not modelled.
- Receipts: foreign keys and CHECK constraints of the tables (db/migrations/00001_baseline.sql) are not modelled; they refuse further records, which then have no effect.
- RunStore.Store.SavePage: the validity of UTF-8 in page fields is a property of the Dafny text type; file modes, symbolic links and fsync are left out.
- WikiStore.WikiVersion.PublishVersion: link checking, claim checking and the generated texts are deterministic parameters; `validateWikiLinks`, `wikiRootIndex` and `humanTitle` are not modelled.
- BundlePaths.CollectDirectories: `path.Dir` is modelled on clean relative paths, the only ones accepted slugs give.
- Engine.Execute: request normalisation, capture validation, evidence search and prompt building are yes-or-no answers, and `validateDraft` gives an arbitrary verdict; token usage other than the audit is not recorded.
- `validateDraft`, `ScopeLedger` and the argument decoding of single tools: local checks without a protocol of their own.
- AttemptBudget and `SubmissionPolicy` of the capsule: the host does not rely on them.
- HTTP handlers, SQL text, Unix sockets, process supervision, credentials and configuration.
