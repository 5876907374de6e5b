# A verified model of Model Proxy for OpenEvent

Model Proxy runs the protocol `llm.v1` over a shared, append-only OpenEvent log. Clients
publish requests and cancels; one Worker per deployment reads the log, calls a model provider
and publishes results, stream appends and ends; clients read those back. Nothing but the log
is shared, everything may be retried, and the Worker may crash at any moment. This project
models that protocol in Dafny and proves what it is meant to guarantee.

Check it with `dafny verify dfyconfig.toml`.

## How the model is laid out

| files | what they hold |
|---|---|
| `protocol.dfy`, `progress.dfy` | messages, the log, and what a log says about one request: chain, terminal, fault |
| `worker_view.dfy`, `delivery.dfy`, `worker.dfy` | the Worker's state as a value, Fetch pages and Subscribe streams, and the Worker's class proved against both |
| `provider_events.dfy` | the order in which a provider call yields events |
| `system*.dfy` | log, server, other members and successive Worker incarnations as one transition system, its invariant and the theorems over whole runs |
| `tasks.dfy` | the Worker's publishing loops: a provider task and recovery |
| `rpc.dfy`, `publishing.dfy` | the server as a publisher sees it, `call_rpc` and `_publish` |
| `consumption.dfy` | what a consumer makes of a request's outputs, and its agreement with the Worker |
| `subscription_view.dfy`, `subscription.dfy` | a subscription as a value with its invariant, and its classes |
| `client*.dfy` | a client over a growing log: creating threads, closers, reader and failures in any interleaving |
| `openai.dfy`, `end_to_end.dfy` | creating, iterating and closing a call; from the provider call to the caller |
| `sse_spec.dfy`, `sse_meaning.dfy`, `sse.dfy` | the meaning of an event stream as a whole, what it makes of what a server writes, and the incremental reader |
| `json_integers.dfy`, `json_graph.dfy`, `fallback.dfy` | decimal conversion in groups, the JSON check on object graphs, the size and shape of error outputs |

Two readings of a log are at the centre. `Progress.Track` folds the entries in order, as every
reader does; `Progress.Wins` says declaratively which entry is a request's terminal (the
earliest valid candidate), and `Progress.FirstFault` which entry no reader can fold.
`TrackExplained` ties them together for every log, so a statement about the one is a statement
about the other. The Worker (which forgets terminal requests) and the consumer are each proved
to agree with `Track`.

## Assumptions

- One Worker incarnation is alive at a time.
- The server hands out every UUID once, appends each event at most once under its UUID, and
  returns the log in order from Fetch and Subscribe. An attempt to publish may commit at once,
  later, or never, and its reply may be lost; UNAUTHENTICATED, PERMISSION_DENIED, NOT_FOUND,
  INVALID_ARGUMENT and RESOURCE_EXHAUSTED are not returned for an attempt that committed or
  will commit.
- Other members publish requests and cancels, and only the Worker publishes outputs.
- Messages parse. `Foreign` entries stand for system messages and for channels that are not
  subscribed.
- Each `with self.condition:` section is one atomic step.
- `stream_id`s are valid, seqs and times are below 2^64, and an error output measures what its
  compact encoding does.
- UTF-8 decoding, JSON decoding and the lookup of a response's type are arbitrary partial
  functions; where `SseMeaning` writes a stream, decoding undoes UTF-8 encoding.

## What the proofs found

- The Worker raises ProtocolError on an append addressed to an ordinary request; the SDK
  ignores it (`src/openevent/model_proxy_sdk/subscription.py:378-379`). The two part exactly on
  the logs on which such an append precedes every result to the request and the first result,
  if there is one, has a body (`Consumption.ReadersPartExactly`; a witness is
  `Consumption.AppendToOrdinaryRequestDivides`). The Worker never writes such a log.
- `_integer_text(_parse_int(s)) == s` fails for one JSON integer only, `-0`
  (`JsonIntegers.TextRoundTrip`).
- As an interrupted end, the error codes 60005 and 60009 would not pass validation
  (`Fallback.ErrorEndIsValid`); the Worker uses them only for rejections, which it publishes
  as results.
- A body of fewer than three bytes is never looked at by the SSE reader, because it waits for
  a byte order mark. It would mean nothing anyway, for every limit of at least two bytes
  (`SseSpec.ShortBodyMeansNothing`).

## Model

| member | source | states |
|---|---|---|
| Progress.TrackExplained | src/openevent/model_proxy/worker.py:181-212 | for every log, the state reached by folding a request's replies in order is what the declarative definitions of candidate, winner, chain and malformed entry say |
| Progress.TerminalIsEarliestCandidate | src/openevent/model_proxy/worker.py:186-212 | on every log without a fault, the terminal is the earliest candidate, and there is one exactly when a candidate exists |
| Progress.FaultIsFirstMalformed | src/openevent/model_proxy/worker.py:187-198 | folding faults exactly when a malformed entry precedes every candidate |
| Progress.TrackStable | src/openevent/model_proxy/worker.py:182-185 | terminals and faults are final as the log grows |
| Progress.BodiesGrow | src/openevent/model_proxy/worker.py:195-198 | accepted stream bodies only grow, and stop growing at the terminal |
| WorkerView.AcceptTracks | src/openevent/model_proxy/worker.py:150-212 | one accepted message keeps every remembered request's chain and terminal equal to what the log determines, every forgotten request terminal, and the duplicate index equal to the keys claimed in the log |
| WorkerView.AcceptFailsOnlyOnFault | src/openevent/model_proxy/worker.py:186-198 | ProtocolError is raised exactly when the log, so extended, faults that request for every reader |
| WorkerView.FoldTracks | src/openevent/model_proxy/worker.py:222-239 | after scanning any log the Worker's state agrees with the log, and only unfinished requests are left |
| WorkerView.FoldFailsOnlyOnFault | src/openevent/model_proxy/worker.py:144-148 | a Worker that forgets terminal requests fails on exactly the logs on which one that never forgets does |
| WorkerView.FoldForgetsExactlyTheTerminal | src/openevent/model_proxy/worker.py:241-245 | after a scan a request is remembered exactly when the log holds no candidate for it, with its duplicate flag as the log has it |
| Delivery.NextScanned | src/openevent/model_proxy/worker.py:228-235 | the next message of an honest page is scanned where it stands in the log, whatever the paging |
| Delivery.NewMessageRead | src/openevent/model_proxy/worker.py:443-455 | the next new message of an honest stream is read where it stands in the log |
| Delivery.LiveFoldJoins | src/openevent/model_proxy/worker.py:438-455 | reading in two sittings, broken off anywhere, is reading once |
| Delivery.HonestLater | src/openevent/model_proxy/worker.py:410-413 | a stream that was honest about the log of its time is honest about every later log |
| WorkerClass.Worker.RetireLocked | src/openevent/model_proxy/worker.py:144-148 | forgets the state exactly when it is terminal and not running |
| WorkerClass.Worker.AcceptRequest | src/openevent/model_proxy/worker.py:158-180 | a new request is classified and, when live, put in exactly one queue, with its provider and body; which queue is what `SystemAdmission.LiveRequestIsRouted` pins |
| WorkerClass.Worker.Accept | src/openevent/model_proxy/worker.py:150-214 | the new state, whether ProtocolError is raised, and exactly when a running operation is aborted |
| WorkerClass.AbortsWhatItEnds | src/openevent/model_proxy/worker.py:181-214 | an entry aborts a provider operation exactly when it is the cancel that ends its request and the operation is running |
| WorkerClass.Worker.AcceptPage | src/openevent/model_proxy/worker.py:228-235 | one page of the scan, with the ordering check and the cut at the target |
| WorkerClass.Worker.ScanHistory | src/openevent/model_proxy/worker.py:218-239 | terminates for any pages; for honest ones the result is the fold of exactly the entries up to the target, unless the pages end before it |
| WorkerClass.Worker.ReadStream | src/openevent/model_proxy/worker.py:443-455 | one subscription: after any number of replays, what was read is exactly the log after the cursor, once and in order |
| WorkerClass.Worker.ReadStreams | src/openevent/model_proxy/worker.py:438-472 | the reconnect loop: over any list of streams, each opened where the last broke off, and a log that grows between them, the log after the first cursor is read once and in order |
| WorkerClass.Worker.Unfinished | src/openevent/model_proxy/worker.py:241-242 | recovery visits exactly the unfinished requests, in seq order |
| WorkerClass.Worker.ScheduleNext | src/openevent/model_proxy/worker.py:365-373 | the first waiting request gets a slot unless it is gone, within the bound |
| WorkerClass.Worker.TakeControl | src/openevent/model_proxy/worker.py:384-392 | the first rejection is taken unless its request is gone |
| WorkerClass.Worker.FinishControl | src/openevent/model_proxy/worker.py:398-400 | the request is done, and forgotten if terminal |
| WorkerClass.Worker.BeginCall | src/openevent/model_proxy/worker.py:289-301 | the task takes the body and installs its operation |
| WorkerClass.Worker.FinishTask | src/openevent/model_proxy/worker.py:352-358 | slot, body and operation are released, and the request forgotten if terminal |
| WorkerClass.Worker.Stop | src/openevent/model_proxy/worker.py:89-98 | all bodies are dropped and exactly the running operations collected |
| Tasks.Emit | src/openevent/model_proxy/worker.py:250-274 | a returned seq is where the event stands as it was built; an event is held back only when it is too large, the request is terminal, the Worker stops, or publication was tried and lost |
| Tasks.AppendHasWriter | src/openevent/model_proxy/worker.py:318-320 | the grammar of a call never lets an append come before there is a predecessor to name |
| Tasks.ProviderTask | src/openevent/model_proxy/worker.py:307-348 | the published outputs are the call's events from the first on (`SystemOrigin.OutputCarries` says what each then holds), each naming its predecessor's seq; then comes an error output exactly when an event does not fit or an exception ended the call, with its code (`Tasks.CallIsReported`, `Tasks.JsonCallIsReported`); only a terminal, a stop or a lost publication cuts that short |
| Tasks.CallIsReported | src/openevent/model_proxy/worker.py:330-348 | whatever the Provider sends, an error is reported exactly when the call neither ended itself nor was cancelled, and an event that does not fit is reported as 60008 |
| Tasks.JsonCallIsReported | src/openevent/model_proxy/provider.py:241-248 | for a response read as one JSON value: over the limit is 60008 before anything else, a transport error keeps its code, all else that fails is 60007, a cancelled call reports nothing, and what can be read is the one result or end, with its status and body |
| Tasks.ErrorOutputFits | src/openevent/model_proxy/worker.py:260-285 | with the real encoding an error output always passes the size check |
| Tasks.TaskNeverOverflows | src/openevent/model_proxy/worker.py:332-348 | so an overflow never triggers a second one, nor a fatal exit |
| Tasks.PublishRecovery | src/openevent/model_proxy/worker.py:241-244 | the unfinished requests get one output each, in order, up to the first that was held back or lost, with the reason |
| Tasks.Recover | src/openevent/model_proxy/worker.py:216-245 | a complete recovery has read exactly the snapshot and published one output for exactly the requests it leaves unfinished; an incomplete one has a reason |
| Tasks.RecoveryNeverOverflows | src/openevent/model_proxy/worker.py:241-245 | which is never that an output does not fit |
| ProviderEvents.StagesAreTheGrammar | src/openevent/model_proxy/provider.py:345-358 | stepping through the stages of a call accepts exactly: one result, or headers, appends and at most one terminal |
| SystemTheorems.StepKeepsInv | src/openevent/model_proxy/worker.py:144-403 | every action of server, members and Worker keeps the invariant |
| SystemTheorems.NoRequestFaults | src/openevent/model_proxy/worker.py:181-211 | in every reachable state, crashes and late commits included, no reader has a fault to report for any request |
| SystemTheorems.WorkerNeverRaises | src/openevent/model_proxy/worker.py:186-198 | no incarnation's `_accept` raises ProtocolError in any run |
| SystemTheorems.OutputsAreWellChained | src/openevent/model_proxy/worker.py:307-329 | before a request's terminal, its outputs are one bodyless result and appends each naming the preceding node |
| SystemTheorems.OneCallPerStream | src/openevent/model_proxy/worker.py:158-180 | over all incarnations at most one provider call starts per channel and stream id |
| SystemTheorems.CallsAreForNewOriginals | src/openevent/model_proxy/worker.py:361-376 | a call starts only for the first request with its key, once, and never for a request recovery covered |
| SystemAdmission.LiveRequestIsRouted | src/openevent/model_proxy/worker.py:168-179 | a live request waits for a provider exactly when its key is new, its payload is within the limit and the provider it names, or else the default, is configured; otherwise it waits for rejection, with 60005, 60008 or 60009 in that order, and no other request's place changes |
| SystemAdmission.CallsAreAdmissible | src/openevent/model_proxy/worker.py:168-177 | in every reachable state every provider call was for a request within the size limit and for a configured provider |
| SystemAdmission.CallGetsItsRequest | src/openevent/model_proxy/worker.py:289-296 | a provider call gets the body of its own request as it stands in the log, at the provider the request names or else the default |
| SystemAdmission.RejectionsHaveTheirReason | src/openevent/model_proxy/worker.py:378-403 | in every run the code of a rejection is the reason the log gives for it |
| SystemAdmission.RequestsAreRouted | src/openevent/model_proxy/worker.py:158-180 | in every run a request read live is queued for a provider exactly when it is the first with its key and admissible, and for rejection with its reason otherwise |
| SystemOrigin.OutputCarries | src/openevent/model_proxy/worker.py:310-326 | an output has the kind, status, body and end status of the provider's event, and an append names its predecessor |
| SystemOrigin.OutputsHaveTheirOrigin | src/openevent/model_proxy/worker.py:276-348 | in every reachable state every output in the log says what its request's provider call yielded, or an error the Worker reported, with one of the codes there are |
| SystemOrigin.SuccessIsYielded | src/openevent/model_proxy/worker.py:310-326 | a result with a status below 60000, a bodyless result, and an end that is not interrupted were yielded by the call as such, with that status and body |
| SystemOrigin.YieldsFitTheRequest | src/openevent/model_proxy/provider.py:345-358 | an ordinary request's call yields only a result, a streaming one's everything else |
| SystemOrigin.RejectionSaysItsReason | src/openevent/model_proxy/worker.py:378-395 | what is published says the reason the log gives for the rejection, and 60007 in recovery |
| SystemTheorems.DuplicatesAreStable | src/openevent/model_proxy/worker.py:161-166 | every incarnation classifies a request as the log does |
| SystemTheorems.RecoveryDecidesSnapshot | src/openevent/model_proxy/worker.py:240-245 | once an incarnation serves, every request of its snapshot has its winning terminal |
| SystemTheorems.RecoveryOutputIsTerminal | src/openevent/model_proxy/worker.py:276-285 | the shape recovery chooses is taken for the terminal by every reader, except for a streaming duplicate with a chain |
| SystemTheorems.DuplicatesHaveNoChain | src/openevent/model_proxy/worker.py:166-177 | and a duplicate never has a chain |
| SystemTheorems.TerminalIsFinal | src/openevent/model_proxy/worker.py:182-185 | there is at most one winning terminal, and later crashes, recoveries and commits never change it |
| SystemTheorems.RunningCountsSlots | src/openevent/model_proxy/worker.py:365-373 | `running` counts the claimed provider slots and never exceeds the bound |
| SystemTheorems.QueuedOnce | src/openevent/model_proxy/worker.py:174-177 | a request waits once, in one queue, and not while something publishes for it |
| SystemTheorems.TasksStartInLogOrder | src/openevent/model_proxy/worker.py:361-376 | within one incarnation provider tasks start in log order |
| SystemTheorems.AtMostOneSendAfterTerminal | src/openevent/model_proxy/worker.py:247-258 | after an incarnation has read a terminal it starts to publish at most one more output for the request |
| SystemLate.AtMostOneOutputAfterTerminal | src/openevent/model_proxy/worker.py:247-274 | of what an incarnation sent from its boot to its end, at most one output for a request is committed after the incarnation has read the terminal, whenever the server commits: while it lasts, when it is gone, or when later incarnations have booted |
| SystemLate.StepKeepsOneOwed | src/openevent/model_proxy/worker.py:250-269 | an incarnation never has more than one attempt for a request that the server may still commit |
| SystemServer.StepsAreServerSteps | src/openevent/model_proxy_sdk/publishing.py:87-130 | for the publisher of a frozen event every step of the system is a step of the server that verdicts are proved against, and its first attempt is an attempt there |
| SystemBodies.StreamIsPrefixOfProduced | src/openevent/model_proxy/worker.py:307-329 | the accepted stream bodies are a prefix of what the provider call produced, and all of it when its own end wins |
| Rpc.Server.PublishAutoSeq | src/openevent/model_proxy_sdk/publishing.py:102-107 | one attempt against a server that may commit it now, later or never and lose the reply |
| Rpc.CallRpc | src/openevent/model_proxy_sdk/rpc.py:44-68 | at most `max_retries + 1` attempts, each after a look at the stop event; only retryable failures are retried, the first success is returned, RPCStopped means nothing was attempted, and an error that the attempts are used up, not retryable or stopped |
| Rpc.RetriesAreUncertain | src/openevent/model_proxy_sdk/rpc.py:8-9 | a status is retried exactly when it neither proves nor excludes a commit and is a named one |
| Publishing.Publish | src/openevent/model_proxy_sdk/publishing.py:52-130 | the verdict is sound against every server behaviour and stop point, and the replies the client had account for it |
| Publishing.PublishFrozen | src/openevent/model_proxy_sdk/publishing.py:87-130 | the retry loop keeps its account of what may still commit, never falls off its end, and ends only for a stated reason |
| Publishing.PublishOnce | src/openevent/model_proxy_sdk/publishing.py:101-130 | one attempt, and the verdict or the wait its reply calls for |
| Publishing.Reconcile | src/openevent/model_proxy_sdk/publishing.py:110-120 | after ALREADY_EXISTS the event is committed, and the looked-up seq is its place |
| Publishing.EveryVerdictHolds | src/openevent/model_proxy_sdk/publishing.py:70-130 | over any number of publications and whatever commits later, each event is in the log at most once, and is there, at the returned seq, or never, as its verdict said |
| Publishing.EveryUuidIsNew | src/openevent/model_proxy_sdk/publishing.py:72-82 | no two publications of a publisher share a UUID |
| Consumption.ConsumerAgrees | src/openevent/model_proxy_sdk/subscription.py:362-398 | on every log the consumer has the Worker's terminal, chain and bodies |
| Consumption.ConsumerTerminalWins | src/openevent/model_proxy_sdk/subscription.py:387-398 | on every log without a fault the last item of a terminal call is the winning message, and its chunks are the accepted bodies |
| Consumption.ReadersPartExactly | src/openevent/model_proxy_sdk/subscription.py:370-393 | Worker and consumer part exactly when the request is ordinary, an append to it precedes every result to it, and its first result, if any, has a body; then the Worker faults and the consumer does not, and on every other log they have the same fault or the same terminal |
| Consumption.OrdinaryTakesFirstResult | src/openevent/model_proxy_sdk/subscription.py:367-379 | an ordinary call holds exactly the first result of the log, as a fault when it has no body |
| Consumption.ResultIsTheFirst | src/openevent/model_proxy_sdk/subscription.py:366-377 | on every log the message kept as `result` is the first result of the request, and it was queued; a call that has not ended holds none only if there is none |
| Consumption.AppendToOrdinaryRequestDivides | src/openevent/model_proxy_sdk/subscription.py:378-379 | a log on which they part |
| Consumption.ItemsAreFromTheLog | src/openevent/model_proxy_sdk/subscription.py:351-355 | every item is an entry addressed to the request, in log order |
| Consumption.ConsumeGrows | src/openevent/model_proxy_sdk/subscription.py:391-398 | what was queued stays in place, and after a terminal nothing is queued |
| SubscriptionView.RegisterKeeps | src/openevent/model_proxy_sdk/subscription.py:137-145 | registering keeps the subscription's invariant |
| SubscriptionView.PublishedKeeps | src/openevent/model_proxy_sdk/subscription.py:147-156 | so does the publication result, whatever seq it brings |
| SubscriptionView.PublicationFailedKeeps | src/openevent/model_proxy_sdk/subscription.py:158-164 | so does giving up publication |
| SubscriptionView.StopKeeps | src/openevent/model_proxy_sdk/subscription.py:174-177 | so does a local close |
| SubscriptionView.InvalidateKeeps | src/openevent/model_proxy_sdk/subscription.py:179-207 | so does discarding a call and failing, in that order |
| SubscriptionView.FailAnyKeeps | src/openevent/model_proxy_sdk/subscription.py:193-207 | so does failing at any moment |
| SubscriptionView.AcceptMessageKeeps | src/openevent/model_proxy_sdk/subscription.py:324-360 | so does every message |
| SubscriptionView.PopKeeps | src/openevent/model_proxy_sdk/subscription.py:400-409 | so does handing out an item |
| Subscribing.Subscription.Anchor | src/openevent/model_proxy_sdk/subscription.py:105-114 | the reader is there, and the anchor becomes the place the first stream replays from and the cursor |
| Subscribing.Subscription.Begin | src/openevent/model_proxy_sdk/subscription.py:123-128 | a new call unless the subscription has failed |
| Subscribing.Subscription.BeginPublicationRpc | src/openevent/model_proxy_sdk/subscription.py:130-135 | an attempt is let through exactly as long as the subscription has not failed |
| Subscribing.Subscription.Register | src/openevent/model_proxy_sdk/subscription.py:137-145 | the new state and every way to be refused |
| Subscribing.Subscription.Published | src/openevent/model_proxy_sdk/subscription.py:147-156 | the new state, and whether the subscription failed over it |
| Subscribing.Subscription.PublicationFailed | src/openevent/model_proxy_sdk/subscription.py:158-164 | the call leaves the indexes and loses all it held |
| Subscribing.Subscription.DetachLocked | src/openevent/model_proxy_sdk/subscription.py:166-172 | the call leaves both indexes and keeps its receive state |
| Subscribing.Subscription.StopCallLocked | src/openevent/model_proxy_sdk/subscription.py:174-177 | the call is detached and closed |
| Subscribing.Subscription.InvalidateLocked | src/openevent/model_proxy_sdk/subscription.py:179-184 | the call is detached, closed and emptied, with its error |
| Subscribing.Subscription.FailLocked | src/openevent/model_proxy_sdk/subscription.py:193-207 | only the first error counts, and it reaches exactly the calls still waiting |
| Subscribing.Subscription.Screen | src/openevent/model_proxy_sdk/subscription.py:301-310 | replays and system messages |
| Subscribing.Subscription.AcceptParsed | src/openevent/model_proxy_sdk/subscription.py:324-360 | the new state after a parsed message, and whether the reader goes on |
| Subscribing.Subscription.AcceptOutputLocked | src/openevent/model_proxy_sdk/subscription.py:362-398 | the call takes the output as the consumer's fold does |
| Subscribing.Subscription.ReadStream | src/openevent/model_proxy_sdk/subscription.py:271-275 | a whole stream, up to the failure that ends it |
| Subscribing.Subscription.NextMessage | src/openevent/model_proxy_sdk/subscription.py:400-409 | the queue first, then the error, then the end |
| Subscribing.Subscription.CheckStreamReturn | src/openevent/model_proxy_sdk/subscription.py:411-416 | a stream is not returned exactly when its call has an error and nothing queued |
| Subscribing.Subscription.CloseBegin | src/openevent/model_proxy_sdk/openai.py:290-302 | who waits, who reports, and that the first closer cancels exactly a published call without a terminal in a subscription that has not failed, whether or not the reader has got to its request |
| Subscribing.Subscription.CloseEnd | src/openevent/model_proxy_sdk/openai.py:316-320 | the recorded outcome |
| ClientProof.StepKeepsInv | src/openevent/model_proxy_sdk/subscription.py:123-409 | every step of every thread keeps the client's invariant |
| ClientProof.PublishedSeqIsReadSeq | src/openevent/model_proxy_sdk/subscription.py:147-154 | the seq publication returns is the one at which the reader found the request |
| ClientTheorems.RequestIdentity | src/openevent/model_proxy_sdk/subscription.py:328-350 | whichever of publication and reader is first, they have one seq, and it holds the frozen request |
| ClientTheorems.NoIdentityFailure | src/openevent/model_proxy_sdk/subscription.py:341-344 | neither ever fails the subscription over a request |
| ClientTheorems.RequestIsNotSkipped | src/openevent/model_proxy_sdk/openai.py:230-239 | a registered call's request is never passed by the reader |
| ClientTheorems.GivenIsFromLog | src/openevent/model_proxy_sdk/subscription.py:351-409 | what a caller was given is, from the start and in order, what the log has for its request |
| ClientTheorems.NeverWaitsInVain | src/openevent/model_proxy_sdk/subscription.py:400-409 | `next_message` waits only for a call that can still get something; after failure or close it never waits before the terminal was given |
| ClientTheorems.SettledQueuesNothing | src/openevent/model_proxy_sdk/subscription.py:174-207 | after a terminal, a close or the failure nothing is queued for a call, and nothing queued is lost |
| ClientTheorems.FailureDeliversQueueThenError | src/openevent/model_proxy_sdk/subscription.py:193-207 | after the failure a call delivers exactly the rest of its queue, and then, unless its terminal was among it, the subscription's own error |
| ClientTheorems.MetadataIsWriteOnce | src/openevent/model_proxy_sdk/subscription.py:373-390 | `result` and `completed` are written at most once after the stream is returned |
| ClientTheorems.NothingIsAttemptedAfterFailure | src/openevent/model_proxy_sdk/subscription.py:130-135 | the first error is final and no publication attempt, registration or read follows it |
| ClientTheorems.EveryCloserSeesTheSame | src/openevent/model_proxy_sdk/openai.py:293-298 | all later closers report what the first close found |
| ClientTheorems.AtMostOneCancel | src/openevent/model_proxy_sdk/openai.py:299-310 | at most one cancel publication per stream in any run |
| ClientTheorems.CancelsOnlyLiveStreams | src/openevent/model_proxy_sdk/openai.py:301-302 | a cancel starts only after a close that found the stream open and the subscription not failed |
| ClientTheorems.OpenStreamsAreCancelled | src/openevent/model_proxy_sdk/openai.py:299-302 | and in every run the first close of a stream decides for a cancel exactly when it was published, has no terminal and the subscription has not failed |
| ClientTheorems.CallMatchesItsRequest | src/openevent/model_proxy_sdk/subscription.py:333-350 | a call is only ever admitted to a request of its kind, stream id and channel |
| ClientTheorems.EveryMessageIsAStep | src/openevent/model_proxy_sdk/subscription.py:232-240 | wherever streams break off and overlap, a message is a replay or the very next one of the log |
| OpenAI.OpenAIStream.Next | src/openevent/model_proxy_sdk/openai.py:137-165 | which items it takes and what it ends with; the bodies handed out are those of the appends taken, it waits and stays usable when there is nothing to take, and after raising anything it takes nothing |
| OpenAI.StepChunks | src/openevent/model_proxy_sdk/openai.py:145-149 | one `__next__` hands out the chunk it takes, or none |
| OpenAI.StopsOnlyAtAnEnd | src/openevent/model_proxy_sdk/openai.py:141-162 | a stream that is not closed stops iterating only with an item that ends it successfully; an empty queue never stops it |
| OpenAI.StepSaysWhatItemSays | src/openevent/model_proxy_sdk/errors.py:139-158 | the item taken decides the step: success exactly for a status of 200 to 299 that is no failed end, otherwise its own status, body, cancel or fault |
| OpenAI.Submit | src/openevent/model_proxy_sdk/openai.py:233-245 | undisturbed by other threads, the call ends up registered and published, or out of the indexes with the reason: a refused registration, or a sound verdict that the replies account for |
| OpenAI.Create | src/openevent/model_proxy_sdk/openai.py:230-245 | undisturbed by other threads, a call is created as `Submit` says, and nothing is begun once the subscription has failed |
| OpenAI.CloseCall | src/openevent/model_proxy_sdk/openai.py:290-322 | undisturbed by other threads, the cancel of its own request is published exactly for a published stream without a terminal; what is recorded, and reported by every closer, is the sound and accounted verdict on it when that is an error, and nothing otherwise |
| OpenAI.CancelEndsItsStream | src/openevent/model_proxy_sdk/openai.py:304-310 | once committed, that cancel is the terminal of its stream, unless there already is one |
| OpenAI.Await | src/openevent/model_proxy_sdk/openai.py:250-260 | an ordinary call answers with the first item it is given: its response, an error status, a protocol fault, or the error of the subscription |
| OpenAI.OrdinaryItems | src/openevent/model_proxy_sdk/openai.py:250-254 | whatever the log, an ordinary call is only ever given results, and a message among them has a body |
| EndToEnd.CallerGetsWhatWasProduced | src/openevent/model_proxy_sdk/openai.py:137-165 | for any Worker run and any client run over one log, a caller's chunks are a prefix of what the provider call produced, and it is never handed a fault |
| EndToEnd.CompleteAtProviderEnd | src/openevent/model_proxy_sdk/openai.py:150-162 | with the end the provider call yielded, they are all of it |
| EndToEnd.CallerGetsTheWinner | src/openevent/model_proxy_sdk/subscription.py:387-398 | the terminal a caller is handed is the one every Worker incarnation goes by |
| EndToEnd.IterationEndsWithTheWinner | src/openevent/model_proxy_sdk/openai.py:150-162 | `__next__` ends the iteration with an item exactly when that item is the winning terminal |
| EndToEnd.IterationStopsOnlyAtTheYieldedEnd | src/openevent/model_proxy_sdk/openai.py:150-162 | before a close, iteration stops only with the winning terminal, and only when that is the completed end that the provider call yielded, with its status and body |
| EndToEnd.StepsSayWhatWasYielded | src/openevent/model_proxy_sdk/openai.py:141-160 | a chunk is a body the provider call yielded as an append, a raised status is that of an output in the log that was yielded or reported, a cancellation is a cancel in the log |
| EndToEnd.SuccessWasYielded | src/openevent/model_proxy/worker.py:310-326 | a successful outcome of a request in the log is the result or completed end its own provider call yielded |
| EndToEnd.ResponseIsTheYieldedResult | src/openevent/model_proxy_sdk/openai.py:250-260 | an ordinary call's answer is its winning result: for 200 to 299 the response with the status and body the provider call yielded, otherwise that status as an error |
| EndToEnd.YieldedResultIsTheResponse | src/openevent/model_proxy/worker.py:313-317 | the output of a yielded result, once it is what the call gets, is answered with that very status and body |
| SseSpec.CallIsGrammatical | src/openevent/model_proxy/provider.py:345-358 | whatever the Provider sends, a call's events follow the grammar, and end with a terminal exactly when no error cut it short |
| SseSpec.ReadingIsWellFormed | src/openevent/model_proxy/provider.py:296-311 | an event stream yields appends and at most one terminal |
| SseSpec.ShortBodyMeansNothing | src/openevent/model_proxy/provider.py:257-266 | holding back the first three bytes is no loss: a shorter body means the same without it |
| SseSpec.CallsEndAsCallsDo | src/openevent/model_proxy/provider.py:345-376 | an error that ends a call has one of the six codes of ProviderError |
| SseMeaning.EventsSayTheirType | src/openevent/model_proxy/provider.py:301-310 | for every body on the Responses path, each completed event is of type `response.completed`, each failed one of type `response.failed` or `response.incomplete` and each append of another type; on the other path the end has no body; every body is JSON that was read and every status the response's |
| SseMeaning.StreamRoundTrip | src/openevent/model_proxy/provider.py:250-310 | reading undoes writing: any events in UTF-8, with data in one or many pieces, comments, other fields and blank lines among them, CRLF, CR or LF line ends, with or without the space and the byte order mark, closed by one that ends the stream, are read as exactly those bodies and that end, whatever follows |
| SseMeaning.BrokenEventEndsTheCall | src/openevent/model_proxy/provider.py:299-303 | data that is not JSON is 60007, and a missing type on the Responses path another error, after exactly the bodies before it |
| SseMeaning.OversizedEventEndsTheCall | src/openevent/model_proxy/provider.py:273-275 | an event over the limit, data or not, is 60008 after exactly the bodies before it |
| SseMeaning.UnfinishedStreamIsReported | src/openevent/model_proxy/provider.py:311 | a stream that stops between or within events ends as its transport does, or with 60007, after exactly the bodies before it |
| Sse.DispatchBlock | src/openevent/model_proxy/provider.py:285-310 | the loop over one block amounts to what the whole-body meaning makes of it; which event that is, is pinned by `SseMeaning.EventsSayTheirType` and `SseMeaning.StreamRoundTrip` |
| Sse.TakeByte | src/openevent/model_proxy/provider.py:267-310 | one byte keeps the reader on course to the meaning of the whole body |
| Sse.ReadSse | src/openevent/model_proxy/provider.py:250-311 | for every way the transport cuts the body, the events and the way it ends are those of the body as a whole |
| Sse.ReadJsonBody | src/openevent/model_proxy/provider.py:241-248 | the same for a JSON body |
| Sse.Iterate | src/openevent/model_proxy/provider.py:345-358 | the same for a whole call |
| JsonIntegers.ParseInt | src/openevent/model_proxy_sdk/_json.py:14-24 | the value of every JSON integer under every digit limit |
| JsonIntegers.IntegerText | src/openevent/model_proxy_sdk/_json.py:27-38 | the text of every integer under every digit limit |
| JsonIntegers.ParseGroups | src/openevent/model_proxy_sdk/_json.py:20-23 | grouping from the left computes the value |
| JsonIntegers.TextOfGroups | src/openevent/model_proxy_sdk/_json.py:33-37 | grouping from the right with zero filling computes the text |
| JsonIntegers.IntegerRoundTrip | src/openevent/model_proxy_sdk/_json.py:14-38 | reading what was written is the identity on all integers |
| JsonIntegers.TextRoundTrip | src/openevent/model_proxy_sdk/_json.py:14-38 | writing what was read is the identity exactly for every JSON integer but `-0` |
| JsonGraph.ValidJson | src/openevent/model_proxy_sdk/models.py:55-72 | true exactly when every path from the value is free of repetitions and reaches only JSON; the shared set is restored; terminates |
| JsonGraph.IsValidJson | src/openevent/model_proxy_sdk/models.py:108-114 | the same for the outermost call, from an empty set |
| JsonGraph.OneContainer | src/openevent/model_proxy_sdk/models.py:62-72 | a container is JSON exactly when it is off the path and all it holds is JSON with it on the path |
| JsonGraph.ScalarHasNoPath | src/openevent/model_proxy_sdk/models.py:56-61 | of the other values exactly None, strings, booleans, integers and finite floats are JSON |
| JsonGraph.SharingIsJson | src/openevent/model_proxy_sdk/models.py:65-72 | sharing is not a cycle |
| Fallback.ErrorOutputFits | src/openevent/model_proxy/config.py:144 | every error output fits the least payload limit, and so every configured one |
| Fallback.ErrorEndIsValid | src/openevent/model_proxy_sdk/models.py:133-146 | as an interrupted end an error output is valid exactly for the codes that are not rejections only |
| Fallback.ErrorResultIsValid | src/openevent/model_proxy_sdk/models.py:137-146 | as a result it is always valid |
| Fallback.ErrorOutputIsPublishable | src/openevent/model_proxy/worker.py:260-285 | whatever the Worker reports about whatever request, the output is valid and fits |

## Left out

- Sockets, DNS, TLS, HTTP parsing, decompression and deadlines: a response body is an arbitrary
  finite sequence of bytes, returned in arbitrary non-empty pieces, that may end in an error.
- Generators: the SSE reader returns all its events at once; that it yields each as soon as its
  block is complete is not modelled.
- Real threads, condition variables and their fairness; that a waiting thread wakes up.
- Garbage collection of calls: a subscription keeps every call it began.
- Recipients, object keys and timestamps of an event: an entry is compared by UUID, channel,
  principal and payload.
- The step between creating a provider operation and installing it: both are one step, and an
  abort in between is a task that quits.
- Messages that do not parse: the Worker fails on them and the client's `RejectUnparsed` fails
  the subscription; the transition systems do not produce them.
- Rejection codes of message validation beyond what error outputs need; header names; channel
  descriptions; the depth limit of Python's recursion.
- The fallback encoder for values that hold large integers somewhere inside: its conversion of
  each integer is modelled, its recursion is the one of the JSON check.
- Logging, configuration files, the command line, exception classes and read-only views.
- OpenAI.Submit: the method is the undisturbed case, in which no other thread touches the
  subscription between its sections; the interleavings are the subject of `Client`, where a
  request is registered before its first attempt and every section may be followed by any other.
- OpenAI.Create: the same.
- OpenAI.Await: one look at the call; the wait for its message to arrive is not modelled.
- OpenAI.CloseCall: the same; moreover the stop event of the server and the error of the
  subscription are two variables there, and one in `Client`.
- WorkerClass.Worker.ScanHistory: says nothing about the state after pages that are not an
  honest answer, because the Worker then ends with a fatal error.
