# Helix crawl bookkeeping, modelled in Dafny

Helix is a broken-link checker. It starts from one URL, renders pages, extracts their links, verifies every link
it finds and reports the result. This project models the bookkeeping at the core of a crawl and proves
properties about that model. The bookkeeping covers:

- the **coordinator block**, the single sequential step that receives each processing result. It admits
  never-seen URIs into the processed-URL register, keeps the remaining-workload counter, and posts
  `ResourceProcessed`, `NoMoreWorkToDo` and `RedirectHappenedAtStartUrl`. It also activates the workflow by
  posting a seed result to itself;
- the **bot's lifecycle** (`BrokenLinkCollector`): its eleven-entry state table, `TryStart` with its start-up
  steps and the abort path, `Shutdown` with its three sub-steps and the final mark, and the reaction to the
  workflow's two ending events;
- the **resource** record: URL classification (`MalformedUri`, `UriSchemeNotSupported`) and fragment stripping;
- the **status-code** enumeration with its numeric values and aliases;
- the **id generator**, a 32-bit counter with wrap-around;
- the **crawler memory**: the URL register, three bounded FIFO queues, cancellation and the crawler-state
  transitions;
- **link filtering**: `ResourceExtractor.ExtractResourcesFrom`, and the legacy collector's href predicate,
  attribute filter, network-traffic capture filter and once-only teardown;
- **configuration**: the start-URI scheme check, the flag defaults, `RemoteHost` normalisation, and host
  localisation as its theories describe it.

## How the model is organised

- `wrappers.dfy` gives `Option` (null) and `Result` (an exception that escapes to the caller).
- `text.dfy` gives the .NET string predicates used: white space, blank strings, ASCII case folding,
  case-insensitive prefixes, and cutting a string at its first `#`.
- `uris.dfy` gives `Uri` as a record `{scheme, host, path, fragment}`. The .NET parser (`Uri.TryCreate`) and
  resolver are the two given functions of a `UriLibrary`.
- `StateMachine` (Helix.Core) is not part of this model. `state_machine.dfy` models it from its call sites: a
  command with an entry in the table moves to the entry's target and returns true; any other command returns
  false and leaves the state unchanged.
- Where the source mutates an object, the model is a class:
  - `CoordinatorBlock`, `BrokenLinkCollector`, `Memory`, `Resource`, `IncrementalIdGenerator`,
    `ResourceExtractor`, and `LegacyResourceCollector`'s teardown.
  - Methods that change state are proved against pure specification functions (`Step`, `Discover`, `Finish`,
    `Check`, `StartBroadcasts`, `ShutdownBroadcasts`, `FinalCommand`, `Marked`, `ExtractedUrls`, `NonBlank`,
    `AllowedMoves`). The lemmas are stated about those functions.
- Inputs that the source receives from collaborators are parameters that say whether the step succeeds:
  - whether the block accepts a post;
  - how each start-up step ends;
  - what stopping the hardware monitor does;
  - whether the workflow's shutdown and the disposal of services throw.

Some behaviours of the code that the model keeps as they are:

- The seed resource posted by `TryActivateWorkflow` is built with `isExtractedFromHtmlDocument = true`
  (`Bot/Block/CoordinatorBlock.cs:82`).
- The seed step admits the start URL (+1) and then completes (-1), so the workload after it is 1
  (`SeedStepKeepsOneUnit`).
- `Stop()` before a successful start shuts down with no workflow object. The call on it throws, is caught and
  turns the mark into `MarkAsFaulted`, so the bot ends `Faulted` (`StopBeforeStartEndsFaulted`).
- If service set-up fails in `TryStart`, the workflow is still null when the catch block calls its `Shutdown`.
  The resulting exception escapes `TryStart`, which leaves the bot in `WaitingForStop` (a `Failure` result).

`ResourceScope` is not part of this model. `IsStartUri` is modelled as equality with the start URI once
fragments are stripped.

## Model

| member | source | states |
|---|---|---|
| Text.ToLower | Bot.Abstractions/Model/Configurations.cs:63 | the lower-cased string has the same length, no upper-case letter, and every other character kept |
| Text.ToLowerKeepsBlankness | Bot.Abstractions/Model/Configurations.cs:63-64 | a string is blank after lower-casing exactly when it was blank before |
| Text.StartsWithIgnoreCaseShorter | Crawler/Business/LegacyResourceCollector.cs:60-62 | a case-insensitive prefix test that holds for a longer prefix holds for every shorter prefix of it |
| Text.CutAtHash | Crawler/Business/Memory.cs:62 | the result is a prefix of the URL without `#`; it is the whole URL exactly when the URL has no `#`, and otherwise it stops right before the first `#` |
| Uris.StripFragment | Bot.Abstractions/Model/Resource.cs:63-66 | a blank fragment leaves the URI as it is; any other fragment is removed; scheme, host and path never change, and the result's fragment is blank |
| Uris.StripFragmentIdempotent | Bot.Abstractions/Model/Resource.cs:30-34 | stripping an already stripped URI changes nothing |
| Uris.StripFragmentIgnoresFragment | Bot.Abstractions/Model/Resource.cs:63-66 | two URIs that differ only in a non-blank fragment strip to the same URI |
| Uris.CutAtHashAgreesWithStripFragment | Crawler/Business/Memory.cs:62-63 | for a well-formed URI, cutting its `AbsoluteUri` at the first `#` gives the `AbsoluteUri` of the stripped URI, so the memory's keys and the coordinator's keys agree |
| StatusCodes.ParsingErrorValue | Crawler.Abstractions/Enum/StatusCode.cs:5-8 | the parsing-error values lie in -102..-100 |
| StatusCodes.InformationalValue | Crawler.Abstractions/Enum/StatusCode.cs:10-14 | the informational values lie in 100..103 |
| StatusCodes.SuccessfulValue | Crawler.Abstractions/Enum/StatusCode.cs:16-26 | the success values lie in 200..226 |
| StatusCodes.RedirectionValue | Crawler.Abstractions/Enum/StatusCode.cs:28-42 | the redirection values lie in 300..308 |
| StatusCodes.ClientErrorValue | Crawler.Abstractions/Enum/StatusCode.cs:44-71 | the client-error values lie in 400..451 |
| StatusCodes.ServerErrorValue | Crawler.Abstractions/Enum/StatusCode.cs:73-84 | the server-error values lie in 500..511 |
| StatusCodes.Canonical | Crawler.Abstractions/Enum/StatusCode.cs:29-41 | a redirection name is its own canonical name exactly when it is not an alias; an alias maps to the non-alias name with the same value |
| StatusCodes.FromValuePicksRfcNames | Crawler.Abstractions/Enum/StatusCode.cs:29-40 | the shared values 300, 301, 302, 303 and 307 decode to `MultipleChoices`, `MovedPermanently`, `Found`, `SeeOther` and `TemporaryRedirect`, whatever the enum's listing order |
| StatusCodes.Value | Crawler.Abstractions/Enum/StatusCode.cs:3-85 | no code has the value 0 (the enum's default); a value is negative exactly for parsing errors; each family's values lie in its hundred |
| StatusCodes.FromValue | Crawler.Abstractions/Enum/StatusCode.cs:3-85 | a value that decodes gives a name carrying exactly that value, and the name is its RFC 9110 spelling (never an alias) |
| StatusCodes.ParsingErrorFromValueInverts | Crawler.Abstractions/Enum/StatusCode.cs:5-8 | reading a parsing error's value back gives that parsing error |
| StatusCodes.InformationalFromValueInverts | Crawler.Abstractions/Enum/StatusCode.cs:10-14 | reading an informational code's value back gives that code |
| StatusCodes.SuccessfulFromValueInverts | Crawler.Abstractions/Enum/StatusCode.cs:16-26 | reading a success code's value back gives that code |
| StatusCodes.RedirectionFromValueInverts | Crawler.Abstractions/Enum/StatusCode.cs:28-42 | reading a redirection's value back gives its canonical name |
| StatusCodes.ClientErrorFromValueInverts | Crawler.Abstractions/Enum/StatusCode.cs:44-71 | reading a client-error code's value back gives that code |
| StatusCodes.ServerErrorFromValueInverts | Crawler.Abstractions/Enum/StatusCode.cs:73-84 | reading a server-error code's value back gives that code |
| StatusCodes.FromValueInvertsValue | Crawler.Abstractions/Enum/StatusCode.cs:3-85 | decoding any code's value gives back the code, up to the redirection aliases |
| StatusCodes.ValuesDistinctExceptAliases | Crawler.Abstractions/Enum/StatusCode.cs:3-85 | two different names share a value exactly when they are one of the five alias pairs |
| StatusCodes.AliasValues | Crawler.Abstractions/Enum/StatusCode.cs:29-41 | the five alias pairs have the values 300, 301, 302, 303 and 307 |
| IdGenerators.NextId | Bot/Business/IncrementalIdGenerator.cs:17 | one increment adds one, and wraps from `int.MaxValue` to `int.MinValue` |
| IdGenerators.Advance | Bot/Business/IncrementalIdGenerator.cs:17 | while no wrap-around happens, `n` increments add `n` |
| IdGenerators.IdsStrictlyIncrease | Bot/Business/IncrementalIdGenerator.cs:9-17 | below `int.MaxValue`, a later call returns a strictly larger id, so no id repeats |
| IdGenerators.IncrementalIdGenerator.constructor | Bot/Business/IncrementalIdGenerator.cs:9-15 | the counter starts at 0, the default of the field the constructor leaves untouched |
| IdGenerators.IncrementalIdGenerator.GetNext | Bot/Business/IncrementalIdGenerator.cs:17 | returns the incremented counter and stores it; nothing else changes |
| IdGenerators.FreshGeneratorCountsFromOne | Bot/Business/IncrementalIdGenerator.cs:9-17 | a fresh generator hands out 1, 2, 3, ...: the `k`-th id is `k` |
| Resources.Classify | Bot.Abstractions/Model/Resource.cs:43-58 | `MalformedUri` exactly when no absolute URI can be made; `UriSchemeNotSupported` exactly when one can be made but its scheme is not http or https; otherwise no status; the original URI is the resolved one, fragment stripped |
| Resources.Resource.constructor | Bot.Abstractions/Model/Resource.cs:36-61 | keeps id, parent, URL and the extracted-from-HTML flag as passed; original URI and status as `Classify` gives them; `Uri` starts equal to the original URI; not internal |
| Resources.Resource.SetUri | Bot.Abstractions/Model/Resource.cs:30-34 | the stored URI is always the assigned one with its fragment stripped |
| Events.CountNoMoreWorkToDo | Bot/Block/CoordinatorBlock.cs:134 | the count is at most the length of the stream, and zero exactly when no `NoMoreWorkToDo` is in it |
| Events.CountNoMoreWorkToDoConcat | Bot/Block/CoordinatorBlock.cs:131-134 | the count over two streams is the sum of the counts |
| StateMachines.StateMachine.constructor | Bot/Block/CoordinatorBlock.cs:37-44 | the table and the initial state are as given |
| StateMachines.StateMachine.TryTransitNext | Bot/Block/CoordinatorBlock.cs:73 | succeeds exactly when the table has an entry for the current state and the command; on success the state becomes the entry's target, otherwise it is unchanged |
| Coordinator.WorkflowTransitions | Bot/Block/CoordinatorBlock.cs:38-42 | exactly two moves: activation from `WaitingForActivation`, deactivation from `Activated`; each changes the state |
| Coordinator.IsStartUri | Bot/Block/CoordinatorBlock.cs:116-117 | the start URI is itself a start URI, and any URI taken as the start URI has the start URI's scheme, host and path |
| Coordinator.Check | Bot/Block/CoordinatorBlock.cs:112-125 | the seed result is never aborted, and an abort posts at most one event |
| Coordinator.Keys | Bot/Block/CoordinatorBlock.cs:142-144 | one key per new resource; what each key is, `KeysAt` states |
| Coordinator.KeysAt | Bot/Block/CoordinatorBlock.cs:142-147 | the key list has each resource's key at that resource's position |
| Coordinator.ViewOfProcessed | Bot/Block/CoordinatorBlock.cs:112-113 | the processed resource is absent exactly for the seed result |
| Coordinator.View | Bot/Block/CoordinatorBlock.cs:112-113 | the view has no processed resource exactly for the seed result, and is marked successful exactly for a successful result |
| Coordinator.Discover | Bot/Block/CoordinatorBlock.cs:142-147 | every admitted position is a position of the input |
| Coordinator.Select | Bot/Block/CoordinatorBlock.cs:142-147 | one element per chosen position; which element, `SelectAt` states |
| Coordinator.SelectAt | Bot/Block/CoordinatorBlock.cs:142-147 | the selected list holds, in order, the elements at the chosen positions |
| Coordinator.Finish | Bot/Block/CoordinatorBlock.cs:127-135 | the register is the scan's; the step completes exactly when the scan did not fault; the workload gains one unit per admitted URI and loses one on completion; `NoMoreWorkToDo` is posted exactly when a completing step leaves no positive workload |
| Coordinator.Step | Bot/Block/CoordinatorBlock.cs:105-162 | every returned position is the position of a new resource of the result |
| Coordinator.CoordinatorBlock.constructor | Bot/Block/CoordinatorBlock.cs:30-44 | starts waiting for activation, with an empty register, no workload and no events |
| Coordinator.CoordinatorBlock.TryActivateWorkflow | Bot/Block/CoordinatorBlock.cs:70-103 | only from `WaitingForActivation`. It posts a seed (next id, the start URL, no parent, extracted-from-HTML, internal) with one unit of workload. If the post is refused, the workload and the state roll back and the result is false. From `Activated` nothing changes and the result is false |
| Coordinator.CoordinatorBlock.CheckProcessedResource | Bot/Block/CoordinatorBlock.cs:112-125 | proceeds exactly when `Check` does; otherwise it returns the events `Check` emits |
| Coordinator.CoordinatorBlock.DiscoverNewResources | Bot/Block/CoordinatorBlock.cs:139-148 | registers and counts exactly what `Discover` admits, returns those resources in order, and faults at the first null URI |
| Coordinator.CoordinatorBlock.CompleteStep | Bot/Block/CoordinatorBlock.cs:128-135 | decrements the workload and posts `ResourceProcessed` with the new value. While work remains it returns the discovered resources; otherwise it posts `NoMoreWorkToDo` and returns nothing |
| Coordinator.CoordinatorBlock.DiscoverAndConclude | Bot/Block/CoordinatorBlock.cs:127-148 | register, workload, events and output are those of `Finish(Discover(...))`; the balance of workload, register and completed steps is kept |
| Coordinator.CoordinatorBlock.Transform | Bot/Block/CoordinatorBlock.cs:105-162 | null input: nothing changes and nothing is returned. Otherwise register, workload and events follow `Step`, and the output is the new resources at `Step`'s positions. The workload invariant is preserved |
| Coordinator.CoordinatorBlock.TransformResult | Bot/Block/CoordinatorBlock.cs:107-161 | one non-null result, following `Step` |
| Coordinator.DiscoverGrows | Bot/Block/CoordinatorBlock.cs:144-145 | discovery only adds to the register, exactly one URI per admitted resource |
| Coordinator.DiscoverKeepsOrder | Bot/Block/CoordinatorBlock.cs:142-147 | admitted positions come in input order, and every admitted key is registered afterwards |
| Coordinator.DiscoverNext | Bot/Block/CoordinatorBlock.cs:142-147 | scanning one more resource admits it exactly when its key is present and not yet registered, and faults when its key is missing |
| Coordinator.SelectNext | Bot/Block/CoordinatorBlock.cs:142-147 | selecting one more position appends that element |
| Coordinator.DiscoverStopsAtFault | Bot/Block/CoordinatorBlock.cs:142-147 | after the first null URI, later resources change nothing |
| Coordinator.DiscoverAdmitsExactlyFirstUnregistered | Bot/Block/CoordinatorBlock.cs:139-148 | the scan faults exactly when some URI is null; otherwise the register becomes the old one plus all the keys, and a position is admitted exactly when its URI was neither registered before nor carried by an earlier resource |
| Coordinator.RedirectAtStartAborts | Bot/Block/CoordinatorBlock.cs:116-121 | a redirect at the start URI posts `RedirectHappenedAtStartUrl` with the final URL, returns nothing, and leaves register and workload untouched |
| Coordinator.CheckProceedsExactly | Bot/Block/CoordinatorBlock.cs:112-125 | the checks pass exactly for the seed result, and for a processed resource with both URIs set and no redirect at the start URI; the only event an abort emits is the redirect event |
| Coordinator.FailedResultAdmitsNothing | Bot/Block/CoordinatorBlock.cs:141 | a failed result registers nothing and only decrements the workload |
| Coordinator.NormalStepCompletes | Bot/Block/CoordinatorBlock.cs:127-135 | a result that passes the checks and has no null URI completes: workload plus admitted minus one, `ResourceProcessed`, then `NoMoreWorkToDo` exactly when no work remains |
| Coordinator.StepKeepsWorkInFlight | Bot/Block/CoordinatorBlock.cs:127-135 | from a workload of at least 1, a normal result completes: the workload never goes negative, and it reaches 0 exactly on the step that posts `NoMoreWorkToDo`, which it posts at most once |
| Coordinator.NoMoreWorkToDoExactlyOnceAtZero | Bot/Block/CoordinatorBlock.cs:127-148 | start from the block's balance (workload = seeds + registered - completed) with work outstanding, and run normal results, each answering work already issued. Then the balance is kept, the workload never goes negative, and `NoMoreWorkToDo` is posted once if the workload ends at 0 and never otherwise |
| Coordinator.StepKeepsBalance | Bot/Block/CoordinatorBlock.cs:127-148 | one step only adds to the register, and the workload plus one per completion equals the old workload plus the number of newly registered URIs |
| Coordinator.RunKeepsBalance | Bot/Block/CoordinatorBlock.cs:127-148 | over any run of results the register only grows, and the workload plus the completions equals the old workload plus the newly registered URIs |
| Coordinator.CoordinatorBlock.OutstandingWorkIsPositive | Bot/Block/CoordinatorBlock.cs:127-135 | in a valid block, fewer completed steps than issued units of work (the seed plus the registered URIs) means a workload of at least 1 |
| Coordinator.SeedStepKeepsOneUnit | Bot/Block/CoordinatorBlock.cs:127-135 | the seed step registers the start URI, posts `ResourceProcessed(1)` and returns the seed |
| Coordinator.RepeatedUriAdmittedOnce | Bot/Block/CoordinatorBlock.cs:144 | of two new resources with the same URI, only the first is admitted |
| Bot.BotTransitionsHasElevenEntries | Bot/Bot/BrokenLinkCollector.cs:27-42 | the table has exactly eleven distinct mapped pairs |
| Bot.BotTransitions | Bot/Bot/BrokenLinkCollector.cs:27-42 | every entry of the table changes the state, and no entry leaves a terminal state |
| Bot.TerminalStatesAreFinal | Bot/Bot/BrokenLinkCollector.cs:38-40 | `RanToCompletion`, `Cancelled` and `Faulted` have no way out, and each is entered only from `Completed` by its own mark |
| Bot.StopReachesCompletedFrom | Bot/Bot/BrokenLinkCollector.cs:31-36 | `Stop` reaches `Completed`, and only from `WaitingForInitialization`, `WaitingForStop` and `Running` |
| Bot.ShutdownCommandFor | Bot/Bot/BrokenLinkCollector.cs:93-103 | `NoMoreWorkToDo` asks for `MarkAsRanToCompletion`, a redirect at the start URL asks for `MarkAsFaulted`, and no other event asks for a shutdown |
| Bot.ShutdownBroadcastsShape | Bot/Bot/BrokenLinkCollector.cs:164-205 | the monitor report appears exactly when a running monitor was found; the waiting and disposing reports always come last |
| Bot.StartBroadcastsShape | Bot/Bot/BrokenLinkCollector.cs:87-125 | `WorkflowActivated` is broadcast exactly when start-up completes, and the set-up report always comes first |
| Bot.Marked | Bot/Bot/BrokenLinkCollector.cs:38-40 | from `Completed`, each of the three marks reaches its terminal state, and any other command leaves the bot in `Completed` |
| Bot.BrokenLinkCollector.constructor | Bot/Bot/BrokenLinkCollector.cs:20-23 | starts in `WaitingForInitialization` with no workflow and nothing broadcast |
| Bot.BrokenLinkCollector.StopHardwareMonitorService | Bot/Bot/BrokenLinkCollector.cs:164-179 | reports only for a running monitor; a look-up or stop that throws turns the mark into `MarkAsFaulted` |
| Bot.BrokenLinkCollector.ShutdownWorkflow | Bot/Bot/BrokenLinkCollector.cs:180-192 | always reports waiting; a missing workflow or a throwing shutdown turns the mark into `MarkAsFaulted` |
| Bot.BrokenLinkCollector.ReleaseResources | Bot/Bot/BrokenLinkCollector.cs:193-205 | always reports disposing; a throwing disposal turns the mark into `MarkAsFaulted` |
| Bot.BrokenLinkCollector.RunShutdownSteps | Bot/Bot/BrokenLinkCollector.cs:147-149 | the three sub-steps in order: their broadcasts, and the requested mark unless some sub-step failed |
| Bot.BrokenLinkCollector.Mark | Bot/Bot/BrokenLinkCollector.cs:151-154 | applies the mark from `Completed`, then broadcasts `WorkflowCompleted` with the name of the state reached |
| Bot.BrokenLinkCollector.Shutdown | Bot/Bot/BrokenLinkCollector.cs:141-211 | without a `Stop` entry nothing happens. Otherwise: the sub-steps' broadcasts; then the final state `Marked(FinalCommand(...))`; then `WorkflowCompleted` naming that state |
| Bot.BrokenLinkCollector.Halt | Bot/Bot/BrokenLinkCollector.cs:55 | `Stop` is a shutdown that requests `MarkAsCancelled` |
| Bot.BrokenLinkCollector.StartUp | Bot/Bot/BrokenLinkCollector.cs:64-125 | succeeds exactly when no step throws; broadcasts the reports of the steps reached; the workflow exists unless set-up failed |
| Bot.BrokenLinkCollector.AbortStart | Bot/Bot/BrokenLinkCollector.cs:74-83 | aborts to `WaitingForStop`. With no workflow, or a throwing workflow shutdown, the exception escapes. Otherwise it shuts down as faulted and returns false |
| Bot.BrokenLinkCollector.TryStart | Bot/Bot/BrokenLinkCollector.cs:57-132 | nothing happens outside `WaitingForInitialization`. Success runs to `Running` and returns true with all four start broadcasts. A set-up failure escapes and leaves `WaitingForStop`. Any other failure either escapes, or ends in a faulted shutdown returning false |
| Bot.BrokenLinkCollector.HandleWorkflowEvent | Bot/Bot/BrokenLinkCollector.cs:93-103 | forwards every workflow event; the two ending events then trigger the shutdown with their mark |
| Bot.ShutdownEndsTerminal | Bot/Bot/BrokenLinkCollector.cs:141-205 | a shutdown requesting any of the three marks ends in a terminal state, and in `Faulted` when some sub-step failed |
| Bot.ShutdownMarkFollowsTrigger | Bot/Bot/BrokenLinkCollector.cs:96-103 | with every sub-step succeeding, `NoMoreWorkToDo` ends `RanToCompletion`, a start-URL redirect ends `Faulted` and `Stop` ends `Cancelled` |
| Bot.FailedStartEndsFaulted | Bot/Bot/BrokenLinkCollector.cs:82 | the shutdown after a failed start always ends `Faulted` |
| Bot.StopBeforeStartEndsFaulted | Bot/Bot/BrokenLinkCollector.cs:55 | `Stop` before any start ends `Faulted`, because there is no workflow to shut down |
| CrawlerMemory.UrlKey | Crawler/Business/Memory.cs:62-63 | the key has no `#` and is a prefix of the URL; it equals the URL exactly when the URL has no `#` |
| CrawlerMemory.UrlKeyIdempotent | Crawler/Business/Memory.cs:62-63 | a key is its own key |
| CrawlerMemory.SeedReadmittedAsWritten | Crawler/Business/Memory.cs:41 | as written, the register entry for `http://example.com/#top` is not the key `Memorize` looks up for the same URL |
| CrawlerMemory.SeedKey | Crawler/Business/Memory.cs:41 | the corrected seed entry has no `#` and is a prefix of the start URI's `AbsoluteUri` |
| CrawlerMemory.SeedKeyIsStrippedAbsoluteUri | Crawler/Business/Memory.cs:41-46 | for a well-formed start URI, the corrected entry is the `AbsoluteUri` of the fragment-stripped start URI |
| CrawlerMemory.StartUrlQueuedTwiceAsWritten | Crawler/Business/Memory.cs:41-67 | as written: with start URI `http://example.com/#top`, memorizing a link back to the start URL queues it a second time |
| CrawlerMemory.StartUrlQueuedOnceCorrected | Crawler/Business/Memory.cs:41-67 | corrected: the same link back to the start URL leaves it queued once |
| CrawlerMemory.Memory.constructor | Crawler/Business/Memory.cs:35-50 | as written: state `Ready`; the only registered entry is the start URI's full `AbsoluteUri`, fragment included; the start URL is queued alone with no parent; nothing to render or extract; the memory is valid |
| CrawlerMemory.Memory.WithStrippedSeed | Crawler/Business/Memory.cs:35-50 | corrected: the same initial state with the start URL registered under the key `Memorize` uses, so every queued URL's key is registered |
| CrawlerMemory.Memory.NothingLeftToDo | Crawler/Business/Memory.cs:31 | nothing is left to do exactly when the three queues together hold no element |
| CrawlerMemory.Memory.RemainingUrlCount | Crawler/Business/Memory.cs:31-33 | zero exactly when the to-verify queue is empty, and zero whenever nothing is left to do |
| CrawlerMemory.Memory.CancelEverything | Crawler/Business/Memory.cs:55 | cancellation is requested |
| CrawlerMemory.Memory.MemorizeToBeVerified | Crawler/Business/Memory.cs:57-71 | nothing once cancelled or already registered; otherwise the key is registered for good, and the raw resource is appended unless the queue is full; queued URLs stay registered |
| CrawlerMemory.Memory.MemorizeToBeRendered | Crawler/Business/Memory.cs:73-80 | appends the URI without de-duplication unless cancelled or the queue is full |
| CrawlerMemory.Memory.MemorizeToBeExtracted | Crawler/Business/Memory.cs:82-89 | appends the document without de-duplication unless cancelled or the queue is full |
| CrawlerMemory.Memory.TakeToBeVerifiedRawResource | Crawler/Business/Memory.cs:95 | returns and removes the front element: FIFO order; fails when cancelled or empty |
| CrawlerMemory.Memory.TakeToBeRenderedUri | Crawler/Business/Memory.cs:93 | returns and removes the front element: FIFO order; fails when cancelled or empty |
| CrawlerMemory.Memory.TakeToBeExtractedHtmlDocument | Crawler/Business/Memory.cs:91 | returns and removes the front element: FIFO order; fails when cancelled or empty |
| CrawlerMemory.Memory.TryTransitTo | Crawler/Business/Memory.cs:97-135 | from `Unknown` every request is refused; requesting `Unknown` is an error; otherwise the move happens and returns true exactly when it is one of the six allowed moves |
| CrawlerMemory.UnknownIsNeverEntered | Crawler/Business/Memory.cs:97-135 | starting from any state but `Unknown`, no sequence of requests reaches `Unknown` |
| CrawlerMemory.AllowedMovesChangeState | Crawler/Business/Memory.cs:101-129 | every allowed move changes the state, and none leaves or enters `Unknown` |
| CrawlerMemory.OnlyRequestedStatesAreReached | Crawler/Business/Memory.cs:101-129 | after any sequence of requests the crawler is in its initial state or in a state that was requested |
| LegacyCollection.HrefSchemeIsSupportedIffHttpOrSlash | Crawler/Business/LegacyResourceCollector.cs:60-62 | an href is accepted exactly when it starts with `http` or `/`, ignoring case; the `https` test adds nothing |
| LegacyCollection.HrefSchemeIsSupported | Crawler/Business/LegacyResourceCollector.cs:60-62 | an accepted href is non-empty and starts with `h`, `H` or `/` |
| LegacyCollection.NonBlank | Crawler/Business/LegacyResourceCollector.cs:156-162 | keeps at most as many values as there are elements |
| LegacyCollection.NonBlankIsExactly | Crawler/Business/LegacyResourceCollector.cs:159-160 | a value is collected exactly when some element has it and it is neither null nor white space |
| LegacyCollection.TryGetUrls | Crawler/Business/LegacyResourceCollector.cs:156-162 | the loop collects exactly `NonBlank` of the attribute values, in document order |
| LegacyCollection.CollectedRawResources | Crawler/Business/LegacyResourceCollector.cs:63-65 | at most one raw resource per href |
| LegacyCollection.CollectedRawResourcesAreExactly | Crawler/Business/LegacyResourceCollector.cs:63-65 | a raw resource is raised exactly for an accepted href, with the parent's URI as parent and that href as URL |
| LegacyCollection.CaptureIsExactly | Crawler/Business/LegacyResourceCollector.cs:92-111 | an exchange is captured exactly when its content type is set, the method is `GET`, and the content type starts with one of the seven listed types; it carries the original URI as parent, the request URL and the response status |
| LegacyCollection.Capture | Crawler/Business/LegacyResourceCollector.cs:92-111 | nothing is captured without a content type; a capture is of a `GET` exchange and carries the response's status |
| LegacyCollection.LegacyResourceCollector.constructor | Crawler/Business/LegacyResourceCollector.cs:23 | starts not disposed, with nothing torn down |
| LegacyCollection.LegacyResourceCollector.ReleaseUnmanagedResources | Crawler/Business/LegacyResourceCollector.cs:124-132 | the first call tears down; later calls do nothing; teardown happens exactly once |
| LegacyCollection.LegacyResourceCollector.Dispose | Crawler/Business/LegacyResourceCollector.cs:82-86 | after disposal, teardown has happened exactly once |
| Extraction.ExtractedUrls | Bot/Business/ResourceExtractor.cs:25-29 | keeps at most as many URLs as there are hrefs |
| Extraction.Extractable | Bot/Business/ResourceExtractor.cs:28-34 | an extractable href has a character that is not white space |
| Extraction.ExtractedUrlsAreExactly | Bot/Business/ResourceExtractor.cs:28 | an href yields a resource exactly when it is present and is neither white space nor `javascript:` code |
| Extraction.ExtractedUrlsKeepsExtractable | Bot/Business/ResourceExtractor.cs:25-29 | when every href is extractable, all of them are kept, in document order |
| Extraction.ResourceExtractor.constructor | Bot/Business/ResourceExtractor.cs:12 | keeps the injected id generator |
| Extraction.ResourceExtractor.ExtractResourcesFrom | Bot/Business/ResourceExtractor.cs:14-40 | a null document is an argument error. Otherwise there is one new resource per extractable href, in document order. The `k`-th resource draws the `k`-th next id, has the page's URI as parent, is marked extracted from HTML, has the original URI and status that `Classify` gives, `Uri` equal to the original URI, and is not internal. The generator advances once per resource |
| Extraction.ResourceExtractor.NewExtractedResource | Bot/Business/ResourceExtractor.cs:29 | draws the next id and builds a new resource for the href with the page as parent, classified by `Classify`, with `Uri` equal to the original URI and not internal |
| Extraction.ExtractedAsExpectedAppend | Bot/Business/ResourceExtractor.cs:25-29 | a resource built as expected for the next href and id extends an extraction built as expected |
| Extraction.ExtractedIdsIncrease | Bot/Business/ResourceExtractor.cs:29 | while the counter does not wrap, the ids increase strictly along the output |
| Configuration.CreateStartUri | Bot.Abstractions/Model/Configurations.cs:73-81 | succeeds exactly when the token parses as an absolute URI whose lower-cased scheme is http or https, and then gives that URI; any other input is an error |
| Configuration.FlagOrFalse | Bot.Abstractions/Model/Configurations.cs:60-61 | a missing flag is false; a present flag converts exactly when it reads `true` or `false` in any letter case, to that value |
| Configuration.RemoteHostOf | Bot.Abstractions/Model/Configurations.cs:63-64 | the host is never blank and has no upper-case letter; a missing or blank token gives `"_"`, any other token its lower-cased form |
| Configuration.FromTokensIsExactly | Bot.Abstractions/Model/Configurations.cs:55-64 | construction succeeds exactly when the start URI and both flags convert; the result then holds them, the normalised host and the three options switched on; a bad start URI is the error raised |
| Configuration.FromTokens | Bot.Abstractions/Model/Configurations.cs:55-64 | a built configuration has a supported start URI, a non-blank remote host and the three fixed options switched on |
| Configuration.DefaultsWhenOnlyStartUriIsGiven | Bot.Abstractions/Model/Configurations.cs:59-64 | with only a supported start URI given, both report flags are off and the remote host is `"_"` |
| Configuration.Localize | Bot.Specifications/Description/UriLocalizationDescription.cs:20-40 | a null URI is an error; scheme, path and fragment are kept; a URI on the remote host gets the start URI's host, and any other URI is unchanged |
| Configuration.LocalizeIsIdempotent | Bot.Specifications/Description/UriLocalizationDescription.cs:20-37 | localising twice is localising once; the remote host survives only when it is the start host |
| Configuration.LocalizeReplacesRemoteHost | Bot.Specifications/Description/UriLocalizationDescription.cs:30-38 | the theory case: `http://www.helix.com/anything` becomes `http://192.168.1.2/anything` |
| Configuration.LocalizeKeepsOtherHosts | Bot.Specifications/Description/UriLocalizationDescription.cs:20-28 | the theory case: `http://www.sanity.com/anything` is unchanged |

## Findings

| source | as written | input that shows it | evidently intended | confidence | as-written member | corrected member |
|---|---|---|---|---|---|---|
| Crawler/Business/Memory.cs:41 | the start URL is registered as its full `AbsoluteUri`, fragment included, while `Memorize` looks up URLs cut at their first `#` (line 62) | start URI `http://example.com/#top`, then `Memorize` of a raw resource with that same URL: the key `http://example.com/` is not registered, so the start URL is queued a second time | register the start URL under the same key `Memorize` uses | medium; not executed | CrawlerMemory.StartUrlQueuedTwiceAsWritten | CrawlerMemory.Memory.WithStrippedSeed |

The unnamed constructor `Memory` is the code as written: it registers the full `AbsoluteUri`, and
`SeedReadmittedAsWritten` shows that this entry is not the key `Memorize` looks up. So `Memory.Valid` admits the
start URL as the one queued URL whose key may be unregistered. The corrected constructor `WithStrippedSeed`
registers `SeedKey`, the start URL cut at its first `#`. It establishes `KeysRegistered`: every queued URL's key
is registered. `MemorizeToBeVerified` and `TakeToBeVerifiedRawResource` preserve `KeysRegistered`.

## Left out

- I/O, logging, the dataflow blocks' buffering and completion, `Task.Run` deferral and all concurrency. One call
  is one sequential step, and `lock` is not modelled.
- `CoordinatorBlock.Complete` and `Dispose`: they are dataflow and resource plumbing, with no bookkeeping.
- `SendOut` failing to post an event: every event is modelled as posted.
- The link between `TryActivateWorkflow`'s posted seed and a later `Transform` call: the dataflow queue carries
  it, and the scenario lemma `SeedStepKeepsOneUnit` states that step on its own.
- `Coordinator.IsStartUri` is equality with the start URI once fragments are stripped, because `ResourceScope` is not
  part of this model. `Uri.Equals` is modelled as record equality; .NET ignores the fragment in it.
- `Bot.BrokenLinkCollector.TryStart`: the start-up steps are a given outcome. The configuration object, the
  screenshot directory, the hardware monitor and the service locator are not modelled.
- `Bot.BrokenLinkCollector.Shutdown`: the outer `catch` is not modelled, because no step modelled inside it can
  throw. The `Dispose` of the state machine is left out.
- `Resources.Resource.SetUri`: assigning a null `Uri` makes `StripFragment` throw in the setter. The model's
  parameter is a non-null `Uri`, so that exception is not modelled.
- `Broadcast`'s logging of event messages is left out; only the events passed to `OnEventBroadcast` are kept.
- `Memory`: a `BlockingCollection` blocks. Here, an add to a full queue is refused, and a take from an empty
  queue fails, as a blocked call does when it is cancelled.
- `Memory`: the finalizer, `ErrorFilePath`, the working directory and the parameterless constructor are left out.
  The cancellation token is a flag.
- `CrawlerMemory.UrlKey`: the `StripFragment` string extension from Helix.Core is not part of this model. It is
  modelled as "cut at the first `#`".
- `LegacyResourceCollector`: Selenium and Chrome control, the proxy's set-up and `EnsureInternal`, and
  `Parallel.ForEach` are left out.
- `LegacyCollection.TryGetUrls`: the 30-second retry loop on stale elements is left out, because it depends on
  the clock. The method models one successful snapshot of the page.
- `LegacyCollection.Capture`: the request's original URL is taken as already parsed; `new Uri` throwing on it is
  not modelled. `ToUpperInvariant` is ASCII-only.
- `Extraction.ExtractResourcesFrom`: HTML parsing and the `//a[@href]` query are not modelled. The page is given
  as its anchors' `href` values in document order.
- `Configuration.FromTokens`: JSON parsing, the time-based `_id`, the output-directory check and its creation, and
  the paths based on the assembly location are left out.
- `Configuration.FlagOrFalse`: white space around `true`/`false`, and JSON boolean tokens, are not modelled. The
  tokens are strings, as the theories give them.
- `Configuration.Localize`: `ResourceScope.Localize` is not part of this model. It is modelled from its
  theories, comparing hosts exactly.
- Case folding everywhere is ASCII-only; .NET culture rules are not modelled.
