# A verified model of the bounded transport

The repository is a Rust service that performs HTTP requests on behalf of clients, and a TypeScript
SDK that talks to it over framed bytes. Both halves are bounded everywhere, and both are concurrent.
This project models the state machines of the two halves and the wire between them, and proves what
they keep over every input and every interleaving.

| part | files |
|---|---|
| service admission | `ServiceAdmission.dfy`, `AdmissionRuns.dfy` |
| contexts and the managed cookie jar | `ContextRegistry.dfy`, `ContextClose.dfy`, `Cookies.dfy`, `CookieJar.dfy`, `CookieWrites.dfy`, `Snapshots.dfy`, `ManagedJars.dfy`, `Revisions.dfy` |
| framing, both directions | `Framing.dfy`, `Upload.dfy`, `Response.dfy` |
| request life cycle in the service | `RequestRecords.dfy`, `RequestRegistry.dfy` |
| SDK admission, exchanges, buffering, sessions | `SdkAdmission.dfy`, `Exchanges.dfy`, `ExchangeOrder.dfy`, `BufferAssembly.dfy`, `Sessions.dfy` |
| the synchronous bridge | `SyncBridge.dfy` |
| shared facts | `Wrappers.dfy`, `Collections.dfy`, `Ordering.dfy` |

Code that changes fields step by step is a class whose methods are proved equal to a function on the
fields' values. Concurrent protocols are step functions over explicit program counters, with one
event per atomic section (a lock section, a shared-memory access, or a continuation between two
awaits); `Reaches` says which states a sequence of events leads to, and the theorems quantify over
all such sequences. `dafny verify dfyconfig.toml` checks everything.

## What the model assumes

- All configured limits are positive (src/config.rs:25-35), and ticket ids do not wrap while a
  ticket with the old id waits (src/admission.rs:74).
- The cookie library's store is a table keyed by domain, path and name, one per partitioned flag,
  with matching as sections 5.1.3 and 5.1.4 of RFC 6265 define it. Its parser, domain
  canonicalisation (idempotent) and host classes are parameters. A store has no order of its own.
- The calendar clock is read once per jar operation and does not run backwards. Where the code
  reads the lifetime clock before it takes the lifetime lock, the reading may be any instant since
  the context was created.
- The jar lock is the fair lock of the runtime: unlocking passes it to the oldest waiter, which
  owns it before it runs. Nothing is assumed about when that waiter is polled.
- The service never returns a context id twice. The SDK's continuations run without interruption
  between two awaits.
- Text is a sequence of bytes. JSON payloads are opaque bytes with a validity predicate.

## What was found

- **A close can leave cookies behind.** If the jar lock has just been handed to a waiter that was
  not polled yet, the close finds the lock taken, and the waiter then leaves through the
  cancellation branch without emptying the jar. `ContextClose.HandOffKeepsCookies` is such a run;
  `ContextClose.CloseClears` says exactly when it happens.
- **A revision can lose its contents.** The clock is read before the lifetime lock
  (src/contexts.rs:395-396), so an old reading can let someone back into a context that is over and
  whose jar was emptied. `Revisions.StaleTouchForgetsContents` is a run from creation with two
  observations of one revision, one holding the cookie and one empty. `Revisions.WhenARevisionLies`
  says exactly which event makes this possible; old readings that revive nothing, or revive a
  context whose jar is intact, are harmless (`Revisions.RevisionDeterminesContents`).
- **A 205 response with a body never completes.** The SDK counts status 205 as bodyless and the
  service does not: `Response.Body205Fails` is one such response, and `Response.ResponseAgrees` and
  `Response.RunExchange` say exactly which responses complete.
- **A snapshot may not import into the context that exported it**: a host ending in a dot, or a
  default path with a semicolon, is stored but refused on import
  (`Snapshots.SemicolonDoesNotComeBack`). `Snapshots.RoundTrip` is exact.
- **A session can be marked lost although nobody reported its context missing**: when the old
  context is reported missing while a rebind that will commit is under way, when the staged context
  is missing, or when opening one is answered with "not found". `Sessions.LostByCutover`,
  `Sessions.LostByMissingStage` and `Sessions.LostByMissingOpen` are runs from the opening of a
  session, and `Sessions.LostWithoutReport` says that there is no other way.

## Model

| member | source | states |
|---|---|---|
| ServiceAdmission.Scan | src/admission.rs:95-101 | the selected turn is the first queued partition below its limit, and every earlier one is at its limit |
| ServiceAdmission.ArriveValid | src/admission.rs:48-88 | entering keeps the counters equal to the sums, the turn list equal to the partitions with waiters, and all four limits |
| ServiceAdmission.StartValid | src/admission.rs:90-117 | starting the selected waiter keeps all of that |
| ServiceAdmission.ReleaseValid | src/admission.rs:143-168 | dropping any live ticket keeps all of that |
| ServiceAdmission.ArrivalFate | src/admission.rs:51-72 | an arrival starts exactly when a slot is free, its partition is below its limit and no waiter could use the slot; it is refused exactly when it cannot start and the waiters fill the queue or its partition's share |
| ServiceAdmission.ArrivalPlace | src/admission.rs:58-87 | it changes its own partition only: one more slot, or its new id at the end of the queue |
| ServiceAdmission.EnterStartsNobody | src/admission.rs:48-88 | after `enter` no ticket, old or new, is startable that was not startable before, so `enter` owes nobody a notification |
| ServiceAdmission.SpareCapacityIsStartable | src/admission.rs:90-104 | with a free slot and a queued partition below its limit, some waiting ticket can start |
| ServiceAdmission.OrderBounded | src/admission.rs:68-81 | the turn list is never longer than the queue limit |
| ServiceAdmission.Admission.Position | src/admission.rs:95-100 | the search loop finds the specified turn |
| ServiceAdmission.Admission.Enter | src/admission.rs:48-88 | the in-place update is the specified arrival: a slot, a queue place or a refusal that changes nothing |
| ServiceAdmission.Admission.Append | src/admission.rs:73-87 | the queueing half of `enter` |
| ServiceAdmission.Admission.TryStart | src/admission.rs:90-117 | starts exactly a startable ticket and otherwise changes nothing |
| ServiceAdmission.Admission.Commit | src/admission.rs:105-113 | the successful half of `try_start` |
| ServiceAdmission.Admission.DropTicket | src/admission.rs:143-168 | releases exactly what the ticket held |
| AdmissionRuns.StepInv | src/admission.rs:48-168 | no unwrap, index or subtraction fails at any event; conservation and the wake-up guarantee are kept |
| AdmissionRuns.EveryRun | src/admission.rs:48-168 | after every interleaving: counters are the numbers of live tickets, and an unsignalled sleeper is startable only while some actor still has to notify |
| AdmissionRuns.SettledMeansFull | src/admission.rs:126-142 | once all notifications are delivered and all waiters sleep, either every slot is taken or every queued partition is at its limit |
| AdmissionRuns.WaitingIsOwned | src/admission.rs:120-168 | every queue entry belongs to a live waiting ticket |
| AdmissionRuns.RefusedOnlyWhenFull | src/admission.rs:48-88 | in every run a refusal means that the live waiting tickets number the queue limit or their partition's limit, and an accepted ticket without a slot is last of its partition |
| AdmissionRuns.StepRank | src/admission.rs:51-57 | each slot given to another partition while a ticket's own is below its limit costs that ticket's rank one; direct starts never do |
| AdmissionRuns.RunRank | src/admission.rs:48-168 | over a run, such foreign starts are paid for by the rank |
| AdmissionRuns.BoundedBypass | src/admission.rs:95-113 | a ticket with k ahead of it sees at most (k+1)(queue limit - 1) such foreign starts while it waits |
| AdmissionRuns.TurnBound | src/admission.rs:95-113 | the partition at turn i is passed over at most i times while below its limit, before one of its own tickets starts |
| ContextRegistry.BeginInv | src/contexts.rs:139-162 | a reservation within the limits keeps the capacity invariant |
| ContextRegistry.InsertInv | src/contexts.rs:176-209 | publishing the context under its reservation keeps it |
| ContextRegistry.DropInv | src/contexts.rs:80-91 | dropping a reservation never takes a counter below zero and leaves no zero entry |
| ContextRegistry.ShrinkInv | src/contexts.rs:235-267 | closing, sweeping and shutting down keep it |
| ContextRegistry.EveryRun | src/contexts.rs:123-267 | it holds after every interleaving, and no next step underflows |
| ContextRegistry.CapacityHolds | src/contexts.rs:144-158 | live contexts never exceed the global or per-owner limit, and pending counts are exactly the creates in progress |
| ContextRegistry.RefusedOnlyWhenFull | src/contexts.rs:139-162 | in every run a create is refused exactly when the store is stopped or contexts and creates in progress fill a limit |
| ContextRegistry.TableChanges | src/contexts.rs:176-267 | a publish adds exactly its context under its owner; a close, sweep or shutdown removes exactly its own |
| ContextRegistry.ContextStays | src/contexts.rs:235-267 | a published context stays until its owner closes it, a sweep finds it expired or all is shut |
| ContextRegistry.ShutdownIsFinal | src/contexts.rs:261-267 | after a shutdown the table stays empty whatever creates were under way |
| ContextRegistry.ContextStore.CountOwned | src/contexts.rs:144-151 | counts an owner's contexts |
| ContextRegistry.ContextStore.TryReserve | src/contexts.rs:139-162 | reserves exactly when there is room, else changes nothing |
| ContextRegistry.ContextStore.Insert | src/contexts.rs:176-206 | publishes unless the store was stopped meanwhile |
| ContextRegistry.ContextStore.DropReservation | src/contexts.rs:80-91 | gives back one reservation and removes an entry at zero |
| ContextRegistry.ContextStore.Close | src/contexts.rs:235-249 | removes only the owner's context and is silent otherwise |
| ContextRegistry.ContextStore.StopAll | src/contexts.rs:261-267 | empties the table and refuses later inserts |
| ContextClose.StepInv | src/contexts.rs:406-492 | every step of waiters, guards and a close keeps one lock holder, no waiter behind a free lock, and a clean jar when a guard leaves a closed context |
| ContextClose.EveryRun | src/contexts.rs:406-492 | this holds in every reachable state |
| ContextClose.StrandedRun | src/contexts.rs:406-492 | after the try-lock of a close, cookies nobody will remove exist exactly if they existed then and no waiter entered since |
| ContextClose.CloseClears | src/contexts.rs:430-440 | once the lock is free after a close the jar is empty, unless a non-empty jar had been handed to a waiter that was not running and nobody entered since; both directions |
| ContextClose.NobodyEnters | src/contexts.rs:413-417 | if nobody was inside a poll at that moment nobody ever enters, so the leak is permanent |
| ContextClose.NothingSucceedsAfterClose | src/contexts.rs:325-329 | after the mark no cookie command succeeds and no new guard appears, in any continuation |
| ContextClose.CloseNeverWaits | src/contexts.rs:430-440 | a close can always take its next step, or a guard drop that holds the lifetime lock can end |
| ContextClose.LooksDecide | src/contexts.rs:418-428 | a look at a closed or expired lifetime refuses, fails or empties; any other look lets pass and keeps the cookies |
| ContextClose.HandOffKeepsCookies | src/contexts.rs:413-417 | a concrete run that ends closed, unlocked, without guards and with a cookie in the jar |
| Ordering.SortForgetsOrder | src/contexts/cookies.rs:123-135 | sorting by an order that decides every pair gives the same sequence from any arrangement |
| Ordering.OrderedUnique | src/contexts/cookies.rs:181-188 | two ordered sequences with the same elements are equal |
| Ordering.LessMeans | src/contexts/cookies.rs:128-129 | text order is dictionary order on bytes |
| Cookies.EqualLengthPathMatches | src/contexts/cookies.rs:123-127 | two paths of equal length that match one request are equal |
| Cookies.PrecedesDecides | src/contexts/cookies.rs:123-135 | between two different cookies of one jar that match one URL the comparator decides |
| Cookies.PrecedesChains | src/contexts/cookies.rs:123-135 | the comparator is transitive |
| Cookies.PrecedesOneWay | src/contexts/cookies.rs:123-135 | and asymmetric |
| Cookies.DomainMatchMeans | src/contexts/cookies.rs:335-338 | a domain matches its own host and, for a domain attribute, hosts with further labels in front |
| Cookies.PathMatchMeans | src/contexts/cookies.rs:120-121 | a path matches itself and paths that go on behind a slash |
| Cookies.SelectionDeterministic | src/contexts/cookies.rs:119-137 | a selection does not depend on the order in which the stores are walked |
| Cookies.SelectionIsExact | src/contexts/cookies.rs:119-137 | it holds exactly the cookies that are unexpired, under the request's domain and path, and secure only for a secure request; once each, longest paths first, ties by name, domain and store |
| Cookies.ExportDeterministic | src/contexts/cookies.rs:174-193 | an export depends only on the live cookies |
| Cookies.ExportIsSorted | src/contexts/cookies.rs:174-193 | an export holds exactly the unexpired cookies, sorted by domain, path, name and store |
| Cookies.Header | src/contexts/cookies.rs:139-172 | the header loop yields nothing without a match, else the rendered selection in order |
| CookieJar.CanonicalIsSame | src/contexts/cookies.rs:492-510 | canonicalising a cookie that was just read changes nothing |
| CookieJar.AdmitOk | src/contexts/cookies.rs:245-267 | an admitted Set-Cookie text satisfies syntax, origin and attribute policy |
| CookieJar.FromRawMeans | src/contexts/cookies.rs:258-259 | what a raw cookie becomes, and that it is refused exactly for a domain its host is not under |
| CookieJar.AdmittedExactly | src/contexts/cookies.rs:428-473 | exactly which texts are admitted: plain characters, a safe domain, `Secure` where it is needed and possible, the name prefixes, and no shadowed secure cookie |
| CookieJar.StoredObeys | src/contexts/cookies.rs:434-459 | what every stored cookie obeys, attribute by attribute |
| CookieJar.RestoreOk | src/contexts/cookies.rs:304-372 | so does a restored record, under the record's own key |
| CookieJar.Source | src/contexts/cookies.rs:335-340 | the origin search finds a serving origin exactly if there is one |
| CookieJar.DefaultPath | src/contexts/cookies.rs:258-259 | the default path is the request's directory: it matches the request and no slash is left behind it |
| CookieJar.ApplyKeepsInv | src/contexts/cookies.rs:225-280 | texts from an allowed URL keep count, byte and size bounds and every policy |
| CookieJar.ImportKeepsInv | src/contexts/cookies.rs:282-376 | so does any snapshot, whoever wrote it |
| CookieWrites.PutIsWritten | src/contexts/cookies.rs:389-404 | one admitted cookie is stored under its key if it is live and deletes what was there if it has expired |
| CookieWrites.ApplyMeans | src/contexts/cookies.rs:225-280 | the whole call by lookup: under every key the cookie admitted last, deleted if expired, else the old live one; exactly when it succeeds, and exactly when a refused text makes a strict call invalid |
| CookieWrites.SecureSurvivesHttp | src/contexts/cookies.rs:460-471 | nothing over plain HTTP replaces or deletes a live secure cookie |
| CookieWrites.ShapeMeans | src/contexts/cookies.rs:311-321 | the shape test of an import in words |
| CookieWrites.HeaderDetermines | src/contexts/cookies.rs:163-170 | the request header determines the pairs it was made of, in order |
| Snapshots.ListingTotal | src/contexts/cookies.rs:555-578 | the sizes along any walk add up to the jar's total |
| Snapshots.RestoreRecord | src/contexts/cookies.rs:304-372 | an exported record of a stored cookie is refused exactly for its shape and else gives the cookie back with its expiry rounded to milliseconds |
| Snapshots.ImportIs | src/contexts/cookies.rs:282-376 | importing an export succeeds exactly if all shapes pass, and what it yields |
| Snapshots.SameExport | src/contexts/cookies.rs:174-193 | if every expiry is still ahead, the restored jar exports the same records |
| Snapshots.SameExportNeedsAhead | src/contexts/cookies.rs:389-399 | and only then |
| Snapshots.RoundTrip | src/contexts/cookies.rs:174-376 | both together: import of an export succeeds, and re-exports identically, exactly under those conditions |
| Snapshots.ImportMeans | src/contexts/cookies.rs:282-376 | whoever wrote the snapshot, an accepted import is for this site, has no two records of one key, and the jar holds exactly its unexpired records unchanged |
| Snapshots.SemicolonDoesNotComeBack | src/contexts/cookies.rs:311-321 | a concrete cookie that is stored and exported, and whose export is refused |
| ManagedJars.CheckBounds | src/contexts/cookies.rs:555-578 | the running check accepts exactly the jars within all bounds, in any walking order |
| ManagedJars.Walk | src/contexts/cookies.rs:557-561 | a walk lists every cookie once |
| ManagedJars.ManagedJar.ApplyTexts | src/contexts/cookies.rs:225-280 | all or nothing: the specified new stores, or an error and the old ones |
| ManagedJars.ManagedJar.Build | src/contexts/cookies.rs:235-276 | the candidate loop computes the specified candidate or error |
| ManagedJars.ManagedJar.AbsorbHeaders | src/contexts/cookies.rs:199-223 | header bounds first, unreadable headers dropped, then applied leniently |
| ManagedJars.TextsFilter | src/contexts/cookies.rs:218-220 | exactly the textual headers are kept, in order |
| ManagedJars.HeaderBoundsAgree | src/contexts/cookies.rs:206-217 | headers are held to the limits of the texts of a command |
| ManagedJars.ManagedJar.ImportSnapshot | src/contexts/cookies.rs:282-376 | all or nothing |
| ManagedJars.ManagedJar.Rebuild | src/contexts/cookies.rs:301-372 | the restoring loop computes the specified candidate or error |
| ManagedJars.ManagedJar.ExportSnapshot | src/contexts/cookies.rs:174-193 | the snapshot equals the export of every possible walk |
| ManagedJars.ManagedJar.HeaderFor | src/contexts/cookies.rs:139-172 | the header equals the rendered selection of every possible walk |
| ManagedJars.ManagedJar.Clear | src/contexts/cookies.rs:113-117 | nothing is left |
| Revisions.StepInv | src/contexts.rs:269-331 | every step, with any clock reading that does not revive a wiped context, keeps: the jar is the replay of the committed mutations, unless the context is over |
| Revisions.EveryRun | src/contexts.rs:269-525 | this holds over every run without such a revival |
| Revisions.RevisionDeterminesContents | src/contexts.rs:269-331 | over those runs an observation shows the committed mutations up to its revision in order; two of one revision differ only by cookies expired between them |
| Revisions.EachRevisionCommittedOnce | src/contexts.rs:511-525 | in every run, whatever the clocks read, no two successful mutations get the same revision |
| Revisions.HistoryOnlyGrows | src/contexts.rs:511-525 | in every run committed history is never rewritten and the counter is its length |
| Revisions.WriteCommits | src/contexts.rs:290-324 | a write commits exactly when it expects the length of the history, a revision is left and the jar takes it; it is then the next entry and its reply names the new length; otherwise it changes no field |
| Revisions.CommittedWriteStays | src/contexts.rs:583-591 | over every run a committed write is entry number `expected` of the history from then on |
| Revisions.OneWriterWins | src/contexts.rs:583-591 | of two writes that expect the same revision the later one changes nothing |
| Revisions.ReceiveCommits | src/contexts.rs:511-525 | response headers commit exactly when the context was alive at both looks, a revision is left and the jar takes them |
| Revisions.OverMeans | src/contexts.rs:380-392 | a lifetime is over exactly when closed, idle for the idle time, or at its maximal age |
| Revisions.MaxAgeEndsEveryRun | src/contexts.rs:380-386 | however often it is touched, a context is over at its maximal age |
| Revisions.OverLosesCookies | src/contexts.rs:325-329 | whoever finds the context over empties the jar |
| Revisions.OverIsFinal | src/contexts.rs:388-404 | after a context is over, and unless an old reading revives it, nothing is observed or committed again |
| Revisions.EveryJarOk | src/contexts/cookies.rs:225-376 | every jar of every run keeps its bounds and policies |
| Revisions.EveryCookieObeys | src/contexts/cookies.rs:434-459 | in every run every stored cookie belongs to an allowed origin and obeys the attribute rules, each named |
| Revisions.ReachableRoundTrip | src/contexts/cookies.rs:174-376 | the exact snapshot round trip, for every jar a context can reach |
| Revisions.WhenARevisionLies | src/contexts.rs:394-429 | from any reachable wiped state whose history leaves a live cookie, one more event makes a wrong observation possible if and only if it revives the context |
| Revisions.FreshReadingsReviveNothing | src/contexts.rs:394-404 | with readings taken under the lock no run revives anything |
| Revisions.StaleTouchForgetsContents | src/contexts.rs:394-404 | a concrete run from creation with two observations of revision 1, one with the cookie and one empty |
| Revisions.OutcomesKeepInv | src/contexts.rs:269-331 | whatever a command answers, the jar is the old one, empty, or the whole mutation |
| Revisions.WriteThenFinish | src/contexts.rs:290-330 | the two steps of a write are the method's outcome |
| Revisions.WriteAnswers | src/contexts.rs:583-603 | a conflict is answered exactly for a stale write, and no refusal changes anything |
| Revisions.ReceiveThenFinish | src/contexts.rs:511-525 | the two steps of an absorb are the method's outcome |
| Revisions.ManagedContext.TouchAt | src/contexts.rs:394-404 | refused exactly when the lifetime is over, else the deadline moves |
| Revisions.ManagedContext.WriteCookies | src/contexts.rs:290-330 | conflict, revision limit, refusal, loss or success, each with its whole new state |
| Revisions.ManagedContext.AbsorbCookies | src/contexts.rs:511-525 | the same for response headers; a lost context keeps its revision |
| Revisions.ManagedContext.FinalLook | src/contexts.rs:325-329 | a context that is over loses its cookies before the reply |
| Framing.FramePrints | src/protocol.rs:114-120 | a printed frame parses at its position whatever surrounds it |
| Framing.FrameParses | packages/typescript/src/protocol.ts:137-143 | bytes that parse as a frame are the printed frame |
| Framing.BodyPrints | src/handlers.rs:498-500 | printed data frames and a last frame parse as such |
| Framing.BodyParses | src/protocol.rs:77-111 | and conversely |
| Upload.FrameReader.NextBytes | src/protocol.rs:30-39 | skips empty chunks and keeps the remaining bytes |
| Upload.FrameReader.Exact | src/protocol.rs:40-54 | takes exactly the next bytes, over any chunk boundaries, or fails exactly when too few remain |
| Upload.FrameReader.FrameHeader | src/protocol.rs:55-59 | kind and big-endian length |
| Upload.FrameReader.Metadata | src/protocol.rs:60-67 | the metadata payload as a function of the bytes alone |
| Upload.FrameReader.ReadFrame | src/protocol.rs:78-108 | one loop turn as a function of the bytes alone |
| Upload.FrameReader.ReadUpload | src/protocol.rs:68-111 | the whole decoder as a function of the bytes alone |
| Upload.UploadFrames.Refill | packages/typescript/src/protocol.ts:215-225 | reads on without losing bytes; fails only where the plan does |
| Upload.UploadFrames.Cut | packages/typescript/src/protocol.ts:226-232 | the next data frame is the next piece of the plan |
| Upload.UploadFrames.PullFrame | packages/typescript/src/protocol.ts:211-240 | one pull emits the next frame of the plan or fails exactly without one |
| Upload.UploadFrames.Drain | packages/typescript/src/protocol.ts:210-242 | pulling to the end emits exactly the plan |
| Upload.EncodeIs | packages/typescript/src/protocol.ts:211-240 | the producer finishes exactly when bytes, frames and empty runs stay in bounds, and then emits the cut body and an end frame |
| Upload.DecodeBody | src/protocol.rs:68-111 | a body within the other limits is accepted, byte for byte, exactly when its frames leave a turn for the end frame |
| Upload.DecodeMeans | src/protocol.rs:77-111 | for any bytes: the forwarded bytes are the payloads of the data frames read, within every limit, and why the decoder stopped |
| Upload.AcceptedMeansWellFormed | src/protocol.rs:77-111 | an accepted upload was data frames of an admissible body, one end frame and nothing behind it |
| Upload.NeverForwardsTooMuch | src/protocol.rs:84-96 | accepted or not, no more than the limit is forwarded |
| Upload.OverflowIsTooLarge | src/protocol.rs:84-87 | a frame that takes an otherwise admissible body over the limit is answered as too large |
| Upload.MetadataMeans | src/protocol.rs:60-67 | metadata is exactly a non-empty, bounded first frame |
| Upload.FrameBoundsCoincide | packages/typescript/src/protocol.ts:228 | the sender's and the receiver's frame bounds are the same bound |
| Upload.EndToEnd | src/protocol.rs:60-111 | for all metadata, bodies, source chunkings and wire chunkings, a finished upload is accepted and forwarded unchanged |
| Response.FrameReader.Exact | packages/typescript/src/protocol.ts:155-178 | takes exactly the next bytes over any chunk boundaries; end of stream only between frames |
| Response.FrameReader.NextFrame | packages/typescript/src/protocol.ts:179-188 | the next frame as a function of the bytes alone |
| Response.FrameReader.PullOnce | packages/typescript/src/client.ts:256-282 | one body pull as a function of the bytes alone |
| Response.FrameReader.Consume | packages/typescript/src/client.ts:242-282 | how the exchange settles as a function of the bytes alone |
| Response.Transfer | src/handlers.rs:488-502 | emits a metadata frame and whole data frames of a body prefix within the maximum, all of it exactly on success |
| Response.SendChunk | src/handlers.rs:498-500 | a chunk becomes its pieces in order |
| Response.ResponseAgrees | packages/typescript/src/client.ts:242-282 | a whole body with a completion frame reporting its length completes with the same bytes exactly unless the SDK classes a non-empty response bodyless by method and status; against the service's own classes that leaves exactly non-empty 205 responses |
| Response.ErrorNeverCompletes | src/handlers.rs:280-283 | a response that ends in an error frame, with or without a metadata frame before it, never completes and yields at most what was sent |
| Response.RunExchange | src/handlers.rs:479-502 | transfer, terminal frame, any re-chunking and the SDK's reader together: the service finishes exactly a whole body within the maximum, a finished run completes exactly as said, an unfinished one never does |
| Response.Body205Fails | packages/typescript/src/client.ts:242-282 | one byte under status 205: a finished service run that fails at the client |
| Response.CompletionMeansWellFormed | packages/typescript/src/client.ts:242-282 | for any bytes at all, completion implies one metadata frame, non-empty data frames with the reported total within the limit, one completion frame, end of stream |
| Response.NeverDeliversTooMuch | packages/typescript/src/client.ts:256-282 | whatever arrives, the consumer is never handed more than the maximum |
| RequestRecords.EveryRun | src/registry.rs:49-108 | over every run delivery and phase only move forward and a finished record never changes |
| RequestRecords.TerminalIsStable | src/handlers.rs:262-294 | the emitted terminal frame equals what every later status reports, error diagnostics included; a completion reports exactly the bytes uploaded and received and the last cookie revision |
| RequestRecords.DeliveryIsHonest | src/handlers.rs:447-458 | a final `not_started` means the upstream send was never polled and never will be |
| RequestRecords.CancelledNeverCompletes | src/handlers.rs:264-276 | a running request that is cancelled ends as cancelled, one out of time as cancelled or timed out, whatever its execution still does |
| RequestRecords.ErrorIsReported | src/handlers.rs:268-276 | a failed execution ends with its own error unless it was cancelled or late |
| RequestRecords.TooLargeNeverCompletes | src/handlers.rs:493-497 | a response past the limit never completes |
| RequestRecords.StepInv | src/handlers.rs:343-503 | each await of the worker, each cancellation, timeout and abort keeps this |
| RequestRecords.RequestRecord.StreamBody | src/handlers.rs:489-502 | the body loop fails exactly for a body over the limit, and the record then holds the bytes counted |
| RequestRecords.RequestRecord.Terminate | src/handlers.rs:270-283 | the last update, the finish and the terminal frame agree, and change nothing once finished |
| RequestRecords.RequestRecord.Conclude | src/registry.rs:67-82 | the first finish fixes diagnostics and error; later ones change nothing |
| RequestRegistry.NoReplay | src/registry.rs:124-168 | within capacity, unfinished work stays, an identifier is refused as a duplicate exactly while unfinished or recent, and busy means a full table |
| RequestRegistry.EveryRun | src/registry.rs:124-181 | the table invariant over every run |
| RequestRegistry.Registry.Keep | src/registry.rs:124-132 | keeps exactly unfinished and recent records |
| RequestRegistry.Registry.Enter | src/registry.rs:136-168 | duplicate, busy or accepted, with the whole new table |
| RequestRegistry.Registry.Get | src/registry.rs:169-181 | finds exactly a kept record of the full owner key |
| SdkAdmission.PassOk | packages/typescript/src/concurrency.ts:173-180 | after one dispatch pass no remaining waiter's partition is available |
| SdkAdmission.PassFifo | packages/typescript/src/concurrency.ts:173-180 | within a partition one pass serves in arrival order |
| ExchangeOrder.NobodyIsOvertaken | packages/typescript/src/concurrency.ts:132-180 | over every run: while an earlier waiter of a partition waits, a later one has never been granted a slot |
| ExchangeOrder.EveryRunKeeps | packages/typescript/src/concurrency.ts:132-180 | the line is kept across every acquire, release, abort and change of limits |
| ExchangeOrder.AbortedIsNeverGranted | packages/typescript/src/concurrency.ts:173-179 | an exchange aborted before it had a slot never gets one, however late its listener runs |
| SdkAdmission.PassWithin | packages/typescript/src/concurrency.ts:152-179 | no grant is made above the limits of the moment |
| SdkAdmission.PassMoves | packages/typescript/src/concurrency.ts:173-180 | the pass only moves waiters to slots or rejects aborted ones |
| SdkAdmission.AcquireInv | packages/typescript/src/concurrency.ts:132-151 | a request queues only for something unavailable, so no dispatch is owed |
| SdkAdmission.AcquireFate | packages/typescript/src/concurrency.ts:132-137 | granted exactly when held slots leave room under both limits, refused exactly when not and the waiters fill the queue or the partition's share |
| SdkAdmission.ConstrainTightens | packages/typescript/src/concurrency.ts:105-112 | each limit becomes the smaller of the two |
| SdkAdmission.ReleaseInv | packages/typescript/src/concurrency.ts:157-164 | a release counts once and leaves nobody waiting for a free slot |
| SdkAdmission.AbandonInv | packages/typescript/src/concurrency.ts:141-145 | neither does an abort of a waiter |
| SdkAdmission.SignalInv | packages/typescript/src/concurrency.ts:132-151 | an abort signal alone changes no counter |
| SdkAdmission.ConstrainInv | packages/typescript/src/concurrency.ts:105-112 | tightening the limits keeps the counters and the quiet queue |
| SdkAdmission.Admission.Dispatch | packages/typescript/src/concurrency.ts:173-180 | the loop computes the specified pass |
| SdkAdmission.Admission.DoAcquire | packages/typescript/src/concurrency.ts:132-151 | grants, queues or refuses as specified |
| SdkAdmission.Admission.DoRelease | packages/typescript/src/concurrency.ts:157-164 | releases and dispatches as specified |
| SdkAdmission.Admission.DoOccupy | packages/typescript/src/concurrency.ts:153-156 | takes one slot |
| SdkAdmission.Admission.DoRemove | packages/typescript/src/concurrency.ts:166-172 | removes one waiter and its count |
| Exchanges.EveryRun | packages/typescript/src/client.ts:164-216 | in every ordering each exchange owns exactly the slot, queue place and reservation its program counter says |
| Exchanges.ReleasedOnce | packages/typescript/src/client.ts:166-184 | a finished exchange has settled exactly once and gave back all it obtained, also when an abort lands between grant and continuation |
| Exchanges.NothingLeaks | packages/typescript/src/client.ts:166-184 | when all exchanges are done every counter is zero |
| Exchanges.NobodyWaitsForAFreeSlot | packages/typescript/src/concurrency.ts:173-180 | between any two events nobody waits for a free slot |
| Exchanges.RefusedOnlyWhenFull | packages/typescript/src/concurrency.ts:114-137 | an exchange is turned away only when reservations, or later the queue, are full |
| Exchanges.LimitsOnlyTighten | packages/typescript/src/concurrency.ts:105-112 | over every run limits never grow |
| Exchanges.ListenerLeaves | packages/typescript/src/concurrency.ts:141-145 | once its abort listener ran an exchange has left the queue |
| BufferAssembly.BufferBudget.Reserve | packages/typescript/src/concurrency.ts:187-190 | reserves exactly within the limit |
| BufferAssembly.BufferBudget.Release | packages/typescript/src/concurrency.ts:191 | gives back what was reserved |
| BufferAssembly.Assembler.Proportion | packages/typescript/src/client.ts:86-104 | the reservation is between two and four times the bytes held |
| BufferAssembly.Assembler.Adopt | packages/typescript/src/client.ts:87-95 | the first bytes of a block are kept, paid for twice |
| BufferAssembly.Assembler.Grow | packages/typescript/src/client.ts:96-104 | a full buffer at least doubles within a block, contents unchanged |
| BufferAssembly.Assembler.Copy | packages/typescript/src/client.ts:105-109 | appends what fits |
| BufferAssembly.Assembler.Absorb | packages/typescript/src/client.ts:84-110 | the loop ends with the whole chunk appended, or a refused reservation that four times the bytes would exceed |
| BufferAssembly.Assembler.Assemble | packages/typescript/src/client.ts:115-118 | the body is the contents |
| BufferAssembly.Assembler.Dispose | packages/typescript/src/client.ts:133 | the whole reservation goes back |
| BufferAssembly.BufferBody | packages/typescript/src/client.ts:72-134 | the body is the concatenation of the chunks, and on every exit the shared budget is restored |
| BufferAssembly.BudgetIsShared | packages/typescript/src/concurrency.ts:184-192 | however buffers interleave, the budget is the sum of what they hold |
| Sessions.StepInv | packages/typescript/src/sessions.ts:57-233 | each continuation of a stream, cookie command, rebind or close keeps ownership, exclusivity and the rebind transaction |
| Sessions.EveryContextIsOwned | packages/typescript/src/sessions.ts:57-87 | at every await `cleanup` holds exactly the returned contexts not confirmed deleted; after a successful close all are deleted; the current one is not deleted before |
| Sessions.RebindIsAtomic | packages/typescript/src/sessions.ts:205-233 | a rebind throws with context and connection unchanged or returns with both switched |
| Sessions.RevisionNeverDecreases | packages/typescript/src/sessions.ts:72-76 | a replaced context never comes back, and for one context the revision never decreases |
| Sessions.RevisionIsLastAccepted | packages/typescript/src/sessions.ts:72-76 | over every run the session's revision is the last one accepted for its context, told from the replies alone |
| Sessions.WritesExpectLastAccepted | packages/typescript/src/sessions.ts:190-204 | every write under way expects exactly that revision |
| Sessions.GrantedWriteExpects | packages/typescript/src/sessions.ts:192-201 | a granted write carries the session's revision, and a lost session sends nothing |
| Sessions.StreamsOnlyAccepted | packages/typescript/src/sessions.ts:139-148 | a response is streamed exactly when it names an acceptable revision, or none on a session without cookies |
| Sessions.LateRepliesChangeNothing | packages/typescript/src/sessions.ts:69-76 | in every run, commands and requests awaiting their reply are for the current context, and the end of a stream on a replaced one changes no variable |
| Sessions.ClosedForGood | packages/typescript/src/sessions.ts:152-170 | after a successful close nothing is opened and nothing is owed |
| Sessions.CloseEnds | packages/typescript/src/sessions.ts:161-167 | a close succeeds exactly when no deletion failed, and can be repeated otherwise |
| Sessions.LostStartsNothing | packages/typescript/src/sessions.ts:65-68 | a lost session starts nothing new |
| Sessions.LostWithoutReport | packages/typescript/src/sessions.ts:69-71 | over every run: lost with a current context nobody reported missing, if and only if a rebind committed while lost, or a staged or unopened context was missing and the current one was never reported |
| Sessions.LostByCutover | packages/typescript/src/sessions.ts:222-225 | a run from opening: lost under way, then committed |
| Sessions.LostByMissingStage | packages/typescript/src/sessions.ts:212-221 | a run from opening: the staged context is missing |
| Sessions.LostByMissingOpen | packages/typescript/src/sessions.ts:209-210 | a run from opening: the new context is not opened |
| Sessions.Session.CommandReplied | packages/typescript/src/sessions.ts:184-204 | takes an accepted revision, notes a missing context, and else changes nothing |
| Sessions.Session.SendReplied | packages/typescript/src/sessions.ts:138-149 | accepts a response exactly when its revision is acceptable, and else notes a missing context |
| Sessions.Session.ImportReplied | packages/typescript/src/sessions.ts:212-225 | switches id, revision and connection together and owes the old context a deletion, or owes the stage one |
| SyncBridge.StepInv | packages/typescript/src/sync/index.ts:88-123 | each shared-memory access of either thread keeps the protocol invariant |
| SyncBridge.EveryRun | packages/typescript/src/sync/worker.ts:31-48 | over every interleaving |
| SyncBridge.WaitInv | packages/typescript/src/sync/index.ts:91-121 | the wait blocks only on the generation that was loaded; a wrapped counter cannot fake equality |
| SyncBridge.NeverStuck | packages/typescript/src/sync/index.ts:88-123 | while the parent is blocked with a reply or the stop flag visible, the worker's notify is still to come |
| SyncBridge.WorkerWakesParent | packages/typescript/src/sync/worker.ts:31-43 | and running the worker on wakes the parent |

## Left out

- TLS and HTTP/2 emulation, the network client, DNS and proxies: tables and library calls.
- Address and URL validation, authentication and configuration parsing: each is settled by one branch.
- JSON and schema validation: payloads are opaque bytes with a validity predicate.
- URL parsing, the public suffix list and Set-Cookie text parsing: parameters of the model.
- `usize` overflow in the byte sums of src/contexts/cookies.rs: lengths are unbounded here, and the checked additions refuse long before.
- Timers and measured durations: deadlines and aborts are events, elapsed times arbitrary numbers.
- BufferAssembly.BufferBody: chunks longer than 65,536 bytes, which the frame limit rules out, are not covered; that the first chunk of a block is kept by reference is modelled as a copy.
- ContextClose.CloseClears: deadline tests answer arbitrarily, so it says nothing about when a context expires.
- Sessions.EveryContextIsOwned: a context the service created but whose reply never reached the client, or whose reply `openContext` refused (packages/typescript/src/sessions.ts:41), is unknown to the session and not covered.
- Sessions.LostWithoutReport: a "not found" answer to a deletion counts as a confirmed deletion and not as a report.
- Batches in the sync worker, fetch adapters, observers, error texts, the capability cache and the Python example: wrappers around the parts above.
- The interaction of several contexts' jars in one request: the source has none.
