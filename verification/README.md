# Device management, verified

A Dafny 4.11 model of the parts of this repository where being wrong is
costly, and proofs of what they promise. `dafny verify dfyconfig.toml` checks
all of it.

Code that updates things in place is a class or a method with loops here, as
it is in Go, and each such method is proved against a specification function
on values; the theorems are about those functions and hold for every input,
every run or every reachable state. Code made of expressions is functions.

- **Import cycles** (`Ordering`, `Reachability`, `Cycles`,
  `TransitiveImports`): Tarjan's algorithm and the transitive closure over the
  package graph.
- **Management sessions** (`Locators`, `ManagedCommands`, `CommandQueue`,
  `Sessions`, `MessageRules`, `Filing`, `Delivering`, `DeliveryKeys`,
  `DeliveryScope`, `Engine`, `EngineInvariant`, `EngineStep`, `EngineRuns`,
  `EngineTheorems`, `EngineHistory`, `EngineTraces`, `EngineTrust`,
  `EngineAnswers`, `EngineCollision`; the code's own form in `PackageOne`,
  `Turns`, `Service`): one request is one step over the stored sessions and the
  command queue. A run is any sequence of requests, enqueued commands and
  cancellations, for any number of devices and sessions. OMA DM Protocol 1.2.1
  sections 6 to 9 and MS-MDM section 3.2.5.1.5 are what the engine follows.
- **Reconciliation** (`Reconcile`): desired settings against what the
  acknowledged commands say a device holds.
- **Rate limiting** (`StateStore`, `Gcra`, `RateRuns`, `RateWindow`,
  `LeakyBucket`, `RateCapacity`, `RatePruning`, `Limiter`): the generic cell
  rate algorithm over a transactional key-value store, with the Retry-After
  header of section 10.2.3 of RFC 9110.
- **SyncML** (`SyncML`, `Xml`, `Decoder`, `Encoder`, `CodecRoundTrip`,
  `MessageRoundTrip`, `TokenMerging`, `DtdOrder`, `Parser`, `Writer`, `Codec`;
  large objects in `Utf8`, `LargeObject`, `Reassembly`): the parser, the
  printer, and chunking (section 7 of OMA DM Protocol 1.2.1).
- **Certificate subjects** (`Der`, `DerSubject`): re-tagging strings inside a
  DER encoding (sections 8.1.3 and 10.1 of X.690, section 41.4 of X.680).
- **CSP schemas** (`UriText`, `SchemaTree`, `UriExpr`, `SchemaRegistry`):
  resolving OMA-URIs, and the URI functions the generator emits.

Strings are sequences of bytes held as characters. Times are integers, in
microseconds where the code stores microseconds and nanoseconds where it
compares nanoseconds. What a credential check, a certificate check, the clock
or a cancelled context answers is an arbitrary value of each request.

Where documentation and code differ, the code is followed. Four results say
exactly when a property holds, because it does not always:

- A group member can get the CmdID of a delivery of the same reply. It happens
  if and only if the numbers given to the members of a shipped group meet the
  reply's CmdIDs (`LoadApart`, `ContinuedApart`), never with 1001 CmdIDs or
  fewer (`KeysApart`), and it does happen (`KeysCollide`).
- The complete items of a Results are collected unless its last item announces
  more (`ResultsExactly`, `TransferAfter`); then they are dropped
  (`CompleteItemLost`).
- Reconciliation converges unless two well-formed settings give one node
  different values (`Converges`).
- The registry folds the long s (U+017F) when it compares segments but not when
  it makes index keys, so a URI written with it is not found through the index
  (`CandidateIffVisible`, `LongSMissed`, `LongSNotFound`).

## Model

| member | source | states |
|---|---|---|
| `Cycles.FindCycles` | internal/layout/layout.go:245-298 | For every finite graph the returned lists are sorted, longer than one, disjoint and ordered by first element, and two different vertices share a list exactly when each reaches the other |
| `Cycles.Tarjan.Strong` | internal/layout/layout.go:255-285 | One call of the recursive closure keeps the search invariant, numbers its vertex, and either pops its whole component or leaves it on the stack with `low` a number that it reaches and that bounds all it reaches |
| `Cycles.Tarjan.Scan` | internal/layout/layout.go:260-267 | After the edge loop every successor is numbered and `low` is at most the number of each one on the stack below, with the search invariant kept |
| `Cycles.Tarjan.PopComponent` | internal/layout/layout.go:271-284 | The vertices above the saved stack leave it and are unmarked; when there are more than one they are listed, sorted |
| `Cycles.Keep` | internal/layout/layout.go:268-270 | A call that ends with `low` below its own number may leave its vertex stacked: the invariant holds without it being open |
| `Cycles.Pop` | internal/layout/layout.go:268-285 | When `low` equals the number, what lies above the saved stack is a whole component, and popping it keeps the invariant |
| `Cycles.Settled` | internal/layout/layout.go:286-295 | With no call open the stack is empty and every numbered vertex has been classified |
| `TransitiveImports.Reaches` | internal/layout/layout.go:175-193 | The result is strictly increasing and holds exactly the packages reached by a path of at least one import |
| `TransitiveImports.Walker.Walk` | internal/layout/layout.go:175-193 | The depth-first walk marks reached packages only, and everything it adds has all its own imports marked |
| `Service.Server.Handle` | mdmprotocol/mdm/service.go:101-145 | One exchange does to the stored sessions and the queue what the specification function of the engine says, gives its answer, and keeps the engine invariant |
| `Service.Server.Open` | mdmprotocol/mdm/service.go:149-192 | A stored session continues only under its enrollment and with the next MsgID; otherwise MsgID 1 and package 1 open a new one; everything else is refused |
| `Service.Server.FileAnswers` | mdmprotocol/mdm/service.go:269-277 | Statuses are filed after the commands are acknowledged, and the facts of package 1 are recorded once |
| `Service.Server.OfferFirst` | mdmprotocol/mdm/deliver.go:133-145 | The first reads are queued unless they are queued already; the queue never refuses them otherwise |
| `Service.Server.Continue` | mdmprotocol/mdm/service.go:133-144 | A closing session sends acknowledgements only, a lone "Next Message" gets the next chunk in flight, anything else gets waiting commands |
| `Service.Server.Finish` | mdmprotocol/mdm/finish.go:13-51 | Collected results are stored, the message number advances, and the session is stored or, when closed or final without work, removed |
| `Service.Server.Serve` | mdmprotocol/mdm/service.go:112-145 | A session that is open: challenge, acknowledge, file, deliver and finish, in that order |
| `Service.Server.Answer` | mdmprotocol/mdm/service.go:125-145 | A trusted message is acknowledged before it is filed and filed before anything is delivered |
| `MessageRules.Validate` | mdmprotocol/syncml/validate.go:25-30 | Accepts exactly the messages that meet every rule: namespace and versions, header fields, CmdIDs good and distinct at every depth, items, addresses, formats, alert and status codes, and what an Atomic may hold |
| `MessageRules.Validator.CheckCommand` | mdmprotocol/syncml/validate.go:180-283 | Fails exactly on a command, with all its members, that breaks a rule for where it stands or repeats a CmdID noted before; all its CmdIDs are noted |
| `MessageRules.Validator.CheckAll` | mdmprotocol/syncml/validate.go:132-139 | The same for a list of commands |
| `MessageRules.Validator.CheckAddReplace` | mdmprotocol/syncml/validate.go:285-303 | Fails exactly when a Replace names a node that an earlier Add of the list names |
| `MessageRules.Validator.CheckHeader` | mdmprotocol/syncml/validate.go:87-130 | Fails exactly on a header that breaks a rule |
| `MessageRules.Validator.CheckItems` | mdmprotocol/syncml/validate.go:156-178 | Fails exactly on too few or too many items or one that breaks a rule |
| `MessageRules.FreshConcat` | mdmprotocol/syncml/validate.go:141-154 | Noting CmdIDs one after the other finds a bad or repeated one exactly when there is one |
| `MessageRules.AlertCodeRead` | mdmprotocol/syncml/message.go:192-198 | A number of four digits is read as the code it is, any other as none |
| `Turns.Turn.AckAll` | mdmprotocol/mdm/service.go:251-268 | Every command but Status and Results is acknowledged in order, until a chunk is refused |
| `Turns.Turn.HandleAlert` | mdmprotocol/mdm/alerts.go:49-95 | The alert is acknowledged; 1223 closes the session, 1225 drops the object being uploaded, a generic unenroll request closes it too |
| `Turns.Turn.RecordPackageOne` | mdmprotocol/mdm/alerts.go:13-28 | DevInfo, the first login status and the last synchronisation type of package 1 become the facts of the session |
| `Turns.Turn.FileStatus` | mdmprotocol/mdm/results.go:11-31 | What one Status does to every command: a member's Status is added to its group, the Status of a delivery becomes that command's code and error, and any other changes no answer; the key it named is gone, unless the command's Results are being reassembled |
| `Turns.Turn.FileResults` | mdmprotocol/mdm/results.go:35-72 | Items of Results for a known key go through the assembler; complete ones are stashed once nothing is pending |
| `Turns.Turn.MapChildren` | mdmprotocol/mdm/build.go:31-48 | Group members are numbered past 1000 plus the number of entries and mapped to their parent |
| `Turns.Turn.Prepare` | mdmprotocol/mdm/deliver.go:113-129 | The body to send and, for a single item over the client's limit that can be split, the chunks after the first |
| `Turns.Turn.Send` | mdmprotocol/mdm/deliver.go:40-56 | One delivery: the next CmdID, the key it is remembered under, its members, its cost |
| `Turns.Turn.Deliver` | mdmprotocol/mdm/deliver.go:17-68 | The reply and the queue after delivering, also while the client is uploading an object |
| `Turns.Turn.ContinueOrNext` | mdmprotocol/mdm/deliver.go:72-88 | With an object in flight, the reply's last command carries its first waiting chunk, the others stay in flight in their order, and it is remembered under its own key; without one, waiting commands are delivered |
| `Turns.Turn.Flush` | mdmprotocol/mdm/collect.go:55-70 | Whatever the order of the map, every result with a Status is written to the queue, which has its command, and forgotten; the others stay |
| `Turns.AllKnown` | mdmprotocol/mdm/deliver.go:60-64 | Everything sent is in the queue, so marking it cannot fail |
| `Turns.Turn.FileStatuses` | mdmprotocol/mdm/service.go:269-271 | All Statuses of a message are filed in order |
| `Turns.Turn.Ack` | mdmprotocol/mdm/service.go:251-268 | Results are filed, an Alert is handled, a Status passed over, and any other command acknowledged with 200; only a refused chunk fails |
| `Turns.Turn.SendWaiting` | mdmprotocol/mdm/deliver.go:33-64 | The allowed waiting commands are sent until the budget is spent or an object is chunked, then marked |
| `Turns.Turn.StoreOne` | mdmprotocol/mdm/collect.go:57-68 | A result with a Status goes to the queue and is forgotten |
| `PackageOne.LoginStatus` | mdmprotocol/syncml/response.go:131-143 | The text of the first login-status item of the client events, command by command and item by item, or nothing if there is none |
| `PackageOne.DevInfo` | mdmprotocol/syncml/response.go:114-128 | The ./DevInfo leaves of the Replaces by name, the last value of each |
| `PackageOne.DevInfoExactly` | mdmprotocol/syncml/response.go:114-128 | Each leaf has the value of the last item for it, and nothing else is there |
| `EngineTraces.RunKeeps` | mdmprotocol/mdm/service.go:101-145 | The engine invariant holds before and after every request, enqueued command and cancellation of every run from empty stores |
| `EngineTraces.StoredSessions` | mdmprotocol/mdm/finish.go:13-38 | In every stored session of every run ServerMsgID equals ClientMsgID, the session is open, no result with a Status is left over, keys belong to messages up to ServerMsgID, and every command named is queued |
| `EngineTraces.OnlyNextMessage` | mdmprotocol/mdm/service.go:149-192 | In every run, an answered message is the next one of a stored session of its own enrollment seen within the time-to-live, or MsgID 1 and package 1 of a new session; the session is then seen now, with the limits the client stated last |
| `EngineTraces.UntrustedInRun` | mdmprotocol/mdm/service.go:228-246 | The same of every such exchange of every run |
| `EngineTraces.UserItemsNeedLogin` | mdmprotocol/mdm/deliver.go:72-109 | In every run, an item addressing ./User is in a reply only if the session's recorded login status is "user", later chunks included |
| `EngineTraces.KeysApart` | mdmprotocol/mdm/build.go:31-48 | In every run whose replies have at most 1001 top-level CmdIDs, deliveries and group members never share a key |
| `EngineTraces.DeliveriesOnRecord` | mdmprotocol/mdm/deliver.go:52 | Every delivery on record in a stored session stands in an earlier reply of that session, under the CmdID its key names, sent for the command it is recorded for |
| `EngineRuns.HandleKeeps` | mdmprotocol/mdm/service.go:101-145 | Every exchange, answered, challenged or refused halfway, keeps the invariant of all sessions |
| `EngineRuns.WriteThroughKeeps` | mdmprotocol/mdm/session.go:140-141 | A refused chunk leaves its mark on the stored session through the shared assembler and results, and the invariant survives it |
| `EngineTheorems.UntrustedChangesNothing` | mdmprotocol/mdm/service.go:118-124 | A message that is not trusted leaves the queue and all deliveries on record unchanged, moves the message number on, and is answered by one SyncHdr Status: 401 if it carries a credential of a kind that is taken, else 407, with a challenge of the enrollment's kind |
| `EngineTheorems.DeliverExact` | mdmprotocol/mdm/deliver.go:29-67 | With no upload pending, what is sent is an initial segment in queue order of the allowed commands among the first 256 waiting; something is sent if and only if a command among those is allowed; exactly those are marked sent, once each |
| `EngineTheorems.UserCommandsBlock` | mdmprotocol/mdm/deliver.go:29-47 | While no user is logged in, 256 waiting user commands keep everything behind them from being sent: the reply and the queue stay as they are |
| `EngineTheorems.UploadAsks` | mdmprotocol/mdm/deliver.go:17-28 | While an upload is under way nothing is delivered: the reply adds Status 213 and alert 1222, and is not final |
| `EngineTheorems.PackageOneFacts` | mdmprotocol/mdm/alerts.go:13-28 | The first login status, the last synchronisation types and the DevInfo of the first package 1 are the facts of the session; a later one changes none |
| `EngineTheorems.FirstReadsQueued` | mdmprotocol/mdm/deliver.go:133-145 | Package 1 of an open session queues one Get of all first reads, in order, unless the device has it; nothing else is queued |
| `EngineTrust.TrustEarned` | mdmprotocol/mdm/service.go:197-224 | In every run, an exchange is trusted only if it carries a trusted certificate chain or a verified credential itself, or continues a session in which an earlier exchange verified a credential that is not a certificate, with no new session in between |
| `EngineTrust.LoginOnRecord` | mdmprotocol/mdm/session.go:125-142 | A login remembered in a stored session was verified by an earlier exchange of that same session; a certificate is never remembered |
| `EngineTrust.AdmissionMeans` | mdmprotocol/mdm/service.go:197-224 | A request is trusted if and only if its session remembers a login or the request carries proof; a login is remembered if and only if it was before or the request's credential, not a certificate, verified |
| `DeliveryScope.LoadSafe` | mdmprotocol/mdm/deliver.go:35-57 | Whatever is put in a reply, and whatever chunks are kept for later, the login status allows |
| `EngineStep.NextChunkSafe` | mdmprotocol/mdm/deliver.go:72-84 | A later chunk needs no fresh scope check: the login that allowed the first still stands |
| `EngineStep.FactsRecorded` | mdmprotocol/mdm/service.go:272-276 | Recording package 1 late cannot leave chunks in flight that the new facts forbid |
| `Delivering.DeliverySegment` | mdmprotocol/mdm/deliver.go:33-59 | Bodies change in CmdIDs only; the sizes of all but the last sum to less than the budget; delivery stops early only at a spent budget or a chunked object, after which nothing follows |
| `Delivering.SomethingSent` | mdmprotocol/mdm/deliver.go:35-47 | At least one command is sent whenever one may be sent |
| `Delivering.PrepareExactly` | mdmprotocol/mdm/deliver.go:113-129 | A command is cut into chunks exactly when the client has a limit and its one item is over it and can be split; first chunk and rest are then a split of the item, and otherwise the command leaves as it is |
| `Delivering.LoadSends` | mdmprotocol/mdm/deliver.go:35-59 | Filling a reply leaves the object in flight, or puts one in its place whose first chunk ends the reply |
| `Delivering.AllowedExactly` | mdmprotocol/mdm/deliver.go:93-109 | What may be sent: nothing of the user while no user is signed in, and in a session of one kind nothing of the other |
| `DeliveryKeys.LoadEnters` | mdmprotocol/mdm/deliver.go:49-54 | Each delivery gets its own key of this reply and every older entry is kept |
| `DeliveryKeys.LoadDelivers` | mdmprotocol/mdm/deliver.go:49-54 | Every new key is the reply's MsgID with the CmdID of a command in the reply, and stands for the queued command whose body, or first chunk, that command carries |
| `DeliveryKeys.LoadApart` | mdmprotocol/mdm/build.go:31-48 | Filling a reply keeps deliveries and group members apart if and only if no number given to a member, when its group is shipped, is the CmdID of a delivery of the reply |
| `DeliveryKeys.AddChildrenNew` | mdmprotocol/mdm/build.go:42-47 | Group members get keys nothing stands under, one each |
| `DeliveryKeys.KeyOfInjective` | mdmprotocol/mdm/deliver.go:52 | A key belongs to one message and one command |
| `DeliveryKeys.MembersNamed` | mdmprotocol/mdm/build.go:31-48 | The members of a shipped group go out under CmdIDs that the ledger maps to the group |
| `EngineHistory.ContinuedDelivers` | mdmprotocol/mdm/deliver.go:72-88 | The same of the whole rest of an exchange, later chunks included; the object in flight is as it was, or its next chunk went out, or another took its place |
| `EngineHistory.ContinuedApart` | mdmprotocol/mdm/build.go:31-48 | The same of the whole rest of an exchange |
| `EngineHistory.ProcessSteps` | mdmprotocol/mdm/service.go:101-145 | An answered exchange forgets only entries that were answered and adds only keys of its own reply, each for a command that stands in it; other sessions, commands and stored results stay as they were |
| `EngineHistory.AckedExactly` | mdmprotocol/mdm/service.go:250-268 | Every command of a request but Status and Results gets one Status 200 with its CmdID and name, in order, after that of the SyncHdr; the ledger is that of `Filing.Gathered` |
| `EngineCollision.KeysCollide` | mdmprotocol/mdm/build.go:42-47 | Any accepted group and any accepted command for the device, enqueued in this order, come to share a key in a run of three events: both are enqueued, and the device opens a session with a package of 999 commands that meets every rule of Validate; the reply budget must have room for the group beside 1000 acknowledgements |
| `Sessions.FileResultsKeeps` | mdmprotocol/mdm/results.go:35-72 | Results forget no delivery and collect no Status |
| `Sessions.StatusCodeRead` | mdmprotocol/syncml/message.go:236-242 | A number of three digits is read as the code it is, any other as none |
| `Decimal.EngineItoa` | mdmprotocol/mdm/build.go:138-158 | Agrees with `strconv.Itoa` on every 64-bit integer except the smallest, for which it gives "-" |
| `CommandQueue.Queue.Enqueue` | storage/inmem/queue.go:31-57 | A valid command with a new identifier is appended as pending, with the next number; the error cases store nothing; numbers, identifiers and validity stay sound |
| `CommandQueue.Queue.Deliverable` | storage/inmem/queue.go:60-73 | The first commands that are pending or sent, up to the limit, in order; all of them without a limit |
| `CommandQueue.Queue.MarkSent` | storage/inmem/queue.go:76-94 | Fails exactly when a delivery names no queued command, having marked those before it |
| `CommandQueue.MarkedExactly` | storage/inmem/queue.go:76-94 | The delivered commands, each once, are sent with the message and time of the delivery and one more attempt; no other changes, and nothing else of them |
| `CommandQueue.Queue.StoreResult` | storage/inmem/queue.go:97-115 | The command gets exactly this answer and is acknowledged if and only if the status is 200 to 299, failed otherwise; no other command changes; fails exactly when the command is unknown |
| `CommandQueue.Queue.List` | storage/inmem/queue.go:131-163 | One page of the matching commands |
| `CommandQueue.Queue.Cancel` | storage/inmem/queue.go:166-182 | Exactly the named commands that are pending or sent become cancelled at that time, and are counted |
| `CommandQueue.StoredExactly` | storage/inmem/queue.go:97-115 | The same of every command of the device, one by one |
| `CommandQueue.MatchingExactly` | storage/inmem/queue.go:144-163 | A command is listed exactly when it has one of the states, the scope and the flag asked for; none asked for means any |
| `ManagedCommands.Validate` | mdmprotocol/mdm/command.go:300-339 | Accepts exactly the well-formed server commands all of whose leaf items address the command's scope |
| `ManagedCommands.NewAtomic` | mdmprotocol/mdm/command.go:178-222 | Succeeds exactly when all members are of one scope, none is an Atomic or a Get, directly or in a Sequence, and no Replace follows an Add of the same node unless something other than an Add of it lies between |
| `ManagedCommands.WellFormedInScope` | mdmprotocol/mdm/command.go:320-327 | Every item of an accepted command, however nested, is in its scope |
| `ManagedCommands.AtomicOfValid` | mdmprotocol/mdm/command.go:178-222 | An Atomic built from accepted commands is accepted |
| `Reconcile.Diff` | mdmprotocol/mdm/reconcile.go:33-53 | One Replace for each setting whose URI is well-formed and whose value is not the one held, and no other, in URI order |
| `Reconcile.DiffEmpty` | mdmprotocol/mdm/reconcile.go:38-51 | Nothing is sent exactly when every well-formed setting is held, however ties are sorted |
| `Reconcile.AcknowledgedValues` | mdmprotocol/mdm/reconcile.go:60-78 | Page by page, the last value each acknowledged command gives a node |
| `Reconcile.PageFollows` | storage/inmem/inmem.go:273-295 | The page at an offset holds what follows it, and its cursor leads to the next offset |
| `Reconcile.Converges` | mdmprotocol/mdm/reconcile.go:33-99 | Once the commands of a Diff are acknowledged without result items, the next Diff is empty if and only if no two well-formed settings give one node different values |
| `Reconcile.DistinctAgree` | mdmprotocol/mdm/reconcile.go:22-33 | Settings with distinct URIs are such a case |
| `Reconcile.BuiltAccepted` | mdmprotocol/mdm/command.go:120-127 | NewReplace builds a Replace of one item with the setting's node, value and, if given, format, and the queue accepts it |
| `Reconcile.AllApplied` | storage/inmem/queue.go:31-115 | Enqueueing any commands one after the other, then delivering and acknowledging them in any order and any number of times, applies them all and changes nothing older, as long as the last word on each is a success without result items |
| `Reconcile.SortSettings` | mdmprotocol/mdm/reconcile.go:34-36 | A permutation of the settings in URI order |
| `Reconcile.CollectValues` | mdmprotocol/mdm/reconcile.go:81-99 | The values a command gives, or the ones its results report, later ones winning |
| `Reconcile.HeldLast` | mdmprotocol/mdm/reconcile.go:60-99 | A device holds what its acknowledged commands say of a node last, item by item, results after what was written, and nothing they do not speak of |
| `Reconcile.RefusedAgain` | mdmprotocol/mdm/reconcile.go:22-53 | A setting of a Diff whose last word is not a success is in the next Diff, unless another acknowledged command gives its node that value |
| `Limiter.RateLimiter.Check` | ratelimit/ratelimit.go:64-156 | A check is invalid, or unavailable with the store unchanged, or has the outcome and leaves the map that the decision function gives for the stored map |
| `Limiter.RateLimiter.Prepare` | ratelimit/ratelimit.go:76-88 | Every bucket valid and every storage key new, or the reason it is not |
| `Limiter.ValidateInMicroseconds` | ratelimit/ratelimit.go:30-39 | Validation in nanoseconds is validity in the stored microseconds |
| `Limiter.Survey` | ratelimit/ratelimit.go:94-120 | The delay is the longest any bucket asks for; the pending records are those of an admitted check |
| `Limiter.Account` | ratelimit/ratelimit.go:91-150 | The outcome and the map the decision function gives: a denied check changes nothing, one that does not fit is refused, an admitted one is written |
| `Limiter.Reclaim` | ratelimit/ratelimit.go:128-136 | Exactly the expired among the listed records are deleted |
| `Limiter.WriteAll` | ratelimit/ratelimit.go:145-149 | Every pending record is in the map, and no other has changed |
| `Limiter.ReadTat` | ratelimit/ratelimit.go:98-107 | The stored arrival time, or now when there is none; a value that is not eight bytes is corrupt |
| `Gcra.TatRoundTrip` | ratelimit/ratelimit.go:106-118 | The stored eight bytes give back the arrival time |
| `Gcra.BurstWithinHorizon` | ratelimit/ratelimit.go:31-38 | A valid burst never saves up more than thirty days |
| `RateRuns.Consumes` | ratelimit/ratelimit.go:145-149 | An admitted check replaces the record of each of its buckets |
| `RateRuns.Spares` | ratelimit/ratelimit.go:121-150 | An outcome other than admission changes nothing; another record is kept or was expired and reclaimed |
| `RateWindow.WindowBound` | ratelimit/ratelimit.go:94-120 | With time that does not run back and a fixed quota, any window admits at most Burst + floor(T / Interval) checks of a bucket, T being its length between times truncated to microseconds |
| `RateWindow.ArrivalBounded` | ratelimit/ratelimit.go:94-120 | The stored arrival time never exceeds now + Burst * Interval, nor now + 30 days |
| `RateWindow.RetryExact` | ratelimit/ratelimit.go:108-112 | A denied check is admitted at exactly the times from now + RetryAfter on |
| `RateWindow.HeaderSuffices` | ratelimit/http.go:81 | Waiting the seconds of the header is enough, and one second less is not |
| `LeakyBucket.LeakyEquivalence` | ratelimit/ratelimit.go:94-140 | Every run decides every request, delays included, as leaky buckets of depth Burst * Interval that drain in real time |
| `LeakyBucket.FreshStoreIsLeaky` | ratelimit/ratelimit.go:94-140 | From an empty store, as initially empty buckets |
| `RatePruning.PruningInvisible` | state/state.go:127-147 | Two runs with the same checks, from stores with the same unexpired records within capacity, give every check the same outcome, capacity refusals included, whatever expired records each prunes or reclaims meanwhile |
| `RatePruning.CheckVerdict` | ratelimit/ratelimit.go:94-150 | The outcome of a check depends on the unexpired records of the namespace alone |
| `RateCapacity.CheckWithinCapacity` | ratelimit/ratelimit.go:124-144 | A check never takes the namespace over its limit, although the listing is truncated at it |
| `RateCapacity.Counted` | ratelimit/ratelimit.go:124-144 | Counting live and new records over the truncated listing gives the unexpired records of others plus the buckets of the request |
| `RateCapacity.CapacityBound` | ratelimit/ratelimit.go:124-144 | At every point of every run the records of the namespace are within the limit |
| `StateStore.MemoryTx.Get` | state/state.go:156-174 | Answers as the one map with the pending writes applied would |
| `StateStore.MemoryTx.List` | state/state.go:175-205 | Answers as that map would: the matching keys after a key, in order, up to the limit |
| `StateStore.MemoryTx.Put` | state/state.go:206-216 | The map with the record written, or an error and the map as it was |
| `StateStore.MemoryTx.Delete` | state/state.go:217-226 | The map without the record, or an error and the map as it was |
| `StateStore.Memory.Update` | state/state.go:95-124 | Success installs exactly the map the transaction saw; any failure leaves the old one |
| `StateStore.Memory.Prune` | state/state.go:127-147 | Up to the limit of expired records go, in any order, and nothing else changes |
| `StateStore.AllPagesComplete` | state/state.go:175-205 | Listing on from the last key, page after page, gives every matching key once, in order |
| `StateStore.Memory.Commit` | state/state.go:113-122 | The pending writes are applied to the map |
| `LargeObject.SplitItem` | mdmprotocol/syncml/largeobject.go:14-55 | Non-empty rune-aligned chunks within the size that carry the text; on valid UTF-8 it fails exactly when a rune is longer than a chunk |
| `LargeObject.CutPoint` | mdmprotocol/syncml/largeobject.go:31-40 | The last rune start within the size |
| `LargeObject.SplitText` | mdmprotocol/syncml/largeobject.go:28-52 | The chunks of a text, each cut at the last rune start within the size, or nothing if a cut is impossible |
| `LargeObject.SplitExactly` | mdmprotocol/syncml/largeobject.go:14-55 | An item over the size is split into such chunks, unless a rune is longer than a chunk |
| `Utf8.RunesWithinFour` | mdmprotocol/syncml/largeobject.go:14-55 | Chunks of four bytes hold every rune |
| `Reassembly.RoundTrip` | mdmprotocol/syncml/largeobject.go:90-144 | The chunks of a split item give "more" until the last, then the item with only its size filled in, and nothing stays pending |
| `Reassembly.Assembler.Add` | mdmprotocol/syncml/largeobject.go:90-144 | One item: complete, more to come, or refused, with the buffer within the limit |
| `Reassembly.AcceptKeepsReady` | mdmprotocol/syncml/largeobject.go:90-144 | Whatever arrives, the buffer stays within the limit and is empty between objects |
| `Reassembly.UploadExactly` | mdmprotocol/syncml/largeobject.go:90-144 | An upload is assembled if and only if its chunks are for one node, without markup, within the limit and of the declared size; otherwise a chunk is refused |
| `Codec.EncodeThenDecode` | mdmprotocol/syncml/encode.go:24-41 | Printing and then parsing gives back the message, for any blank indentation, with or without the declaration |
| `MessageRoundTrip.MessageTrip` | mdmprotocol/syncml/decode.go:199-267 | Parsing the printed tokens gives the message and nothing left over, for every message in one of the two namespaces whose identifiers carry no outer white space, whose sizes are not negative, whose groups hold no Status or Results, and whose markup is trimmed, well-formed and without a text value beside it |
| `MessageRoundTrip.CommandTrip` | mdmprotocol/syncml/decode.go:553-594 | Any command, with any nesting of Atomic and Sequence, parses back to itself |
| `MessageRoundTrip.HeaderTrip` | mdmprotocol/syncml/decode.go:269-308 | A printed header parses back to itself |
| `MessageRoundTrip.StatusTrip` | mdmprotocol/syncml/decode.go:736-784 | A printed Status parses back to itself |
| `MessageRoundTrip.ResultsTrip` | mdmprotocol/syncml/decode.go:786-822 | A printed Results parses back to itself |
| `CodecRoundTrip.ItemTrip` | mdmprotocol/syncml/decode.go:492-522 | A printed item parses back to itself, text and markup alike |
| `CodecRoundTrip.MetaTrip` | mdmprotocol/syncml/decode.go:394-436 | A printed Meta parses back to itself |
| `Writer.Encode` | mdmprotocol/syncml/encode.go:24-41 | Fails exactly on a Data with both a value and markup; otherwise prints the elements of the message, whose order `MessageOrder` states |
| `Writer.TokenWriter.WriteCommand` | mdmprotocol/syncml/encode.go:291-375 | Appends exactly the elements of the command, at the depth it was called at |
| `Writer.TokenWriter.WriteGroup` | mdmprotocol/syncml/encode.go:395-409 | Appends the group's head, its members in order and its end |
| `Writer.TokenWriter.WriteItem` | mdmprotocol/syncml/encode.go:241-262 | Appends addresses, meta, data and MoreData in order |
| `Writer.TokenWriter.WriteMeta` | mdmprotocol/syncml/encode.go:187-215 | Appends the metinf children that are set, in order |
| `Writer.TokenWriter.WriteHeader` | mdmprotocol/syncml/encode.go:142-157 | Appends the header's elements in order |
| `Writer.TokenWriter.Text` | mdmprotocol/syncml/encode.go:117-134 | Appends an element with escaped text |
| `Writer.TokenWriter.WriteLocation` | mdmprotocol/syncml/encode.go:159-164 | Appends a location |
| `Writer.TokenWriter.WriteCred` | mdmprotocol/syncml/encode.go:166-174 | Appends a Cred |
| `Writer.TokenWriter.WriteChal` | mdmprotocol/syncml/encode.go:176-183 | Appends a Chal |
| `Writer.TokenWriter.WriteData` | mdmprotocol/syncml/encode.go:217-239 | Appends text, or markup verbatim; fails exactly on both |
| `Writer.TokenWriter.WriteItems` | mdmprotocol/syncml/encode.go:264-271 | Appends the items in order, up to one that cannot be printed |
| `Writer.TokenWriter.WriteFields` | mdmprotocol/syncml/encode.go:379-393 | Appends an item command, an Exec or an Alert |
| `Writer.TokenWriter.WriteStatus` | mdmprotocol/syncml/encode.go:327-352 | Appends a Status |
| `Writer.TokenWriter.WriteResults` | mdmprotocol/syncml/encode.go:353-372 | Appends a Results |
| `Writer.TokenWriter.WriteBody` | mdmprotocol/syncml/encode.go:273-289 | Appends the commands and Final |
| `Parser.TokenParser.ReadMessage` | mdmprotocol/syncml/decode.go:199-267 | Consumes a document and gives its message, or the fault the grammar function gives |
| `Parser.TokenParser.ReadCommand` | mdmprotocol/syncml/decode.go:553-594 | Consumes one command of any kind |
| `Parser.TokenParser.ReadGroup` | mdmprotocol/syncml/decode.go:701-734 | Consumes a group; Status and Results in it are faults |
| `Parser.TokenParser.ReadData` | mdmprotocol/syncml/decode.go:449-490 | Consumes text or markup up to the end tag, with the error attribute; `ValueIsText` and `MergingInvisible` say what the text is |
| `Parser.TokenParser.ReadMeta` | mdmprotocol/syncml/decode.go:394-436 | Consumes the metinf children; `UnknownSkipped` says what happens to others |
| `Parser.TokenParser.SkipElement` | mdmprotocol/syncml/decode.go:429-430 | Consumes an element of any depth with everything in it |
| `Parser.TokenParser.NextTag` | mdmprotocol/syncml/decode.go:144-161 | The next start element, past white space, or the end of the enclosing element |
| `Parser.TokenParser.ReadText` | mdmprotocol/syncml/decode.go:165-181 | The text up to the closing tag; a child element is a fault |
| `Parser.TokenParser.ReadHeader` | mdmprotocol/syncml/decode.go:269-308 | Consumes a SyncHdr |
| `Parser.TokenParser.ReadLocation` | mdmprotocol/syncml/decode.go:310-332 | Consumes a LocURI and LocName |
| `Parser.TokenParser.ReadCred` | mdmprotocol/syncml/decode.go:340-366 | Consumes a Cred |
| `Parser.TokenParser.ReadChal` | mdmprotocol/syncml/decode.go:368-387 | Consumes a Chal |
| `Parser.TokenParser.ReadItem` | mdmprotocol/syncml/decode.go:492-522 | Consumes an Item |
| `Parser.TokenParser.ReadBody` | mdmprotocol/syncml/decode.go:524-549 | Consumes a SyncBody; Final once |
| `Parser.TokenParser.ReadFields` | mdmprotocol/syncml/decode.go:597-699 | Consumes the children of an item command, an Exec or an Alert |
| `Parser.TokenParser.ReadStatus` | mdmprotocol/syncml/decode.go:736-784 | Consumes a Status |
| `Parser.TokenParser.ReadResults` | mdmprotocol/syncml/decode.go:786-822 | Consumes a Results |
| `Der.WriteTlv` | pki/wstep/csr.go:175-190 | The identifier, the minimal definite length and the content |
| `Der.ReadLengthMeans` | pki/wstep/csr.go:124 | An accepted length is in its one minimal form |
| `Der.WriteRead` | pki/wstep/csr.go:175-190 | Writing an accepted element again under its own identifier octet gives its own bytes |
| `Der.ReadWrite` | pki/wstep/csr.go:121-130 | Reading what was written gives the identifier and the content back, up to the reader's limit of 2 GiB |
| `DerSubject.SplitChildren` | pki/wstep/csr.go:116-131 | The children of a constructed value of the expected tag, or an error |
| `DerSubject.ElementsMeans` | pki/wstep/csr.go:116-131 | The children make up all of the content |
| `DerSubject.RelaxSubject` | pki/wstep/csr.go:136-169 | The re-tagged subject, or the first error in document order |
| `DerSubject.OnlyTagsChange` | pki/wstep/csr.go:133-169 | The result has the subject's length and differs from it only at marked octets, each the tag of an offending PrintableString that becomes the tag of a UTF8String |
| `DerSubject.CleanUnchanged` | pki/wstep/csr.go:157-164 | A subject in which nothing offends comes back as it was |
| `DerSubject.RelaxSucceeds` | pki/wstep/csr.go:136-169 | Succeeds exactly on well-formed subjects whose offending strings are covered |
| `DerSubject.RejectMeans` | pki/wstep/csr.go:157-160 | ErrSubject means an offending string has a character that is not covered |
| `DerSubject.RelaxOneSet` | pki/wstep/csr.go:142-166 | One relative distinguished name, attribute by attribute |
| `SchemaTree.Resolve` | schema/csp/model.go:265-307 | Walks static children before dynamic ones from the root, collecting the values; `ResolvesAlong` and `ResolvedAlong` say where it leads |
| `SchemaTree.ConcreteResolves` | schema/csp/model.go:265-344 | A node's concrete URI resolves to that node with the values it was built from, for all non-empty values that name no static sibling, under a literal root of two or more segments |
| `SchemaTree.BuildConcrete` | schema/csp/model.go:334-344 | Segment by segment, a placeholder that has a value is replaced by the escaped value and everything else stays |
| `SchemaTree.FindStatic` | schema/csp/model.go:283-291 | The first static child that the segment names: exactly where case matters, folded where it does not; nothing if there is none |
| `SchemaTree.FindDynamic` | schema/csp/model.go:292-301 | The first dynamic child |
| `SchemaTree.ResolvesAlong` | schema/csp/model.go:265-307 | A URI whose segments fold to the root's and then lead, child by child, along a path resolves to the end of the path with the values given on the way; a static child is led to by a segment equal to its name where case matters and folding to it where not |
| `SchemaTree.ResolvedAlong` | schema/csp/model.go:265-307 | Every URI that resolves does so along such a path: a case-sensitive node is reached by its exact name only |
| `UriText.SplitSegments` | schema/csp/model.go:312-329 | The decoded segments before the query |
| `UriText.SegmentsExactly` | schema/csp/model.go:312-329 | A query and empty parts are dropped; the segments are the other parts, decoded |
| `UriText.EscapeRoundTrip` | schema/csp/model.go:323-339 | Unescaping an escaped value gives it back |
| `UriExpr.Emit` | internal/schemagen/emit.go:269-289 | The emitted expression evaluates to the template's concrete URI |
| `UriExpr.EmitFor` | internal/schemagen/emit.go:233-289 | What the function emitted for a node evaluates to resolves to that node with the arguments as values |
| `SchemaRegistry.NewRegistry` | schema/csp/registry.go:16-23 | Every tree is indexed under its lower-cased root, and nothing else is |
| `SchemaRegistry.Candidates` | schema/csp/registry.go:69-98 | The trees found by a prefix of the URI, or by the URI without ./Device for legacy trees, longest root first |
| `SchemaRegistry.LookupUri` | schema/csp/registry.go:44-60 | Found exactly when some tree resolves the URI, as written or with ./Device supplied, with no long s in its root part; then in the tree with the longest root |
| `SchemaRegistry.CandidateIffVisible` | schema/csp/registry.go:69-98 | Of the trees that resolve a URI, the index finds exactly those whose root part has no long s |
| `SchemaRegistry.AsciiVisible` | schema/csp/registry.go:69-98 | On ASCII segments it finds all of them |
| `SchemaRegistry.LongSMissed` | schema/csp/registry.go:73-81 | A tree rooted at ./s resolves the URI written with the long s, and is neither a candidate for it nor for it below ./Device |
| `SchemaRegistry.LongSNotFound` | schema/csp/registry.go:44-60 | A registry of just that tree does not find that URI |
| `SchemaRegistry.LegacyEither` | schema/csp/model.go:268-270 | A legacy tree resolves ./Device/X as it resolves ./X |
| `SchemaRegistry.PrefixCandidates` | schema/csp/registry.go:72-82 | The trees indexed under a prefix of the folded segments |
| `SchemaRegistry.LegacyCandidates` | schema/csp/registry.go:83-92 | The legacy trees found after ./Device is taken out |
| `SchemaRegistry.SortByRoot` | schema/csp/registry.go:93-97 | The candidates by decreasing root length |
| `Filing.FiledExactly` | mdmprotocol/mdm/results.go:11-31 | Filing the Statuses of a message leaves a command with the code and error of the last one that answers it, with its members' Statuses in order after those it had, and with its items: the first Status under a key counts, later ones only while the command's Results are reassembled, a group member under the key comes first, and CmdRef 0 names nothing |
| `Filing.KeysLeft` | mdmprotocol/mdm/results.go:16-30 | Which deliveries and members are still on record afterwards |
| `Filing.WordGiven` | mdmprotocol/mdm/results.go:20-25 | A Status that names a delivery, and no member, decides its command or an earlier one did |
| `Filing.WordIs` | mdmprotocol/mdm/results.go:20-25 | It is the last word if it is the first under its key and no later one names the command |
| `Filing.ResultsExactly` | mdmprotocol/mdm/results.go:35-72 | A Results for a command on record is refused exactly when one of its items is; otherwise its complete items follow those collected, unless something is in transfer after it, and then none is collected |
| `Filing.TransferAfter` | mdmprotocol/mdm/results.go:63-65 | Something is in transfer after a Results exactly when its last item announces more |
| `Filing.CompleteItemLost` | mdmprotocol/mdm/results.go:53-68 | So a complete item followed, in the same Results, by the first chunk of another is not collected |
| `Filing.ItemsGathered` | mdmprotocol/mdm/results.go:35-72 | Without uploads, a command collects every item of every Results for it, in order, and nothing else |
| `Filing.UploadGathered` | mdmprotocol/mdm/results.go:50-71 | An object uploaded one chunk per Results is collected once, whole |
| `EngineAnswers.AnswersStored` | mdmprotocol/mdm/finish.go:13-38 | In every run, after a trusted exchange every command of the device holds the answer its request gives: code and error of the last Status that answers it, acknowledged if and only if the code is 200 to 299, its members' Statuses and its Results' items; without such a Status it holds what it held |
| `EngineAnswers.StatusStored` | mdmprotocol/mdm/results.go:20-25 | In every run, a Status that names a delivery on record, under a key no group member has, gives its command a result in that exchange, with its own code and error if it is the last to name the command |
| `EngineAnswers.AnswersKept` | mdmprotocol/mdm/collect.go:55-70 | In every run, what came without a Status is kept for the next message of the session, and what was stored is forgotten |
| `EngineAnswers.ResultsAnswerDeliveries` | mdmprotocol/mdm/collect.go:55-70 | In every run, a result is stored for a command only if a Status of that request names the MsgID and CmdID of a command that an earlier reply of the session, of the same device, sent for it |
| `EngineAnswers.ChunksInOrder` | mdmprotocol/mdm/deliver.go:72-84 | In every run, what a session still has to send of a large object is the rest of a split of the queued item for the limit the client had stated, and the chunks before it went out in earlier replies of the session, in order |
| `EngineAnswers.ObjectComplete` | mdmprotocol/mdm/deliver.go:72-84 | In every run, an object that is no longer in flight has gone out whole: its chunks, in the order of the replies that carried them, make a fresh assembler answer "more" until the last and then give the queued item |
| `EngineAnswers.RefusedExactly` | mdmprotocol/mdm/service.go:101-135 | In every run, an exchange is refused if and only if its message breaks a rule, its device is not enrolled, it is not the next message of a session, or it is trusted and brings a chunk that is refused; the queue is then unchanged and the upload dropped |
| `EngineAnswers.SessionEnds` | mdmprotocol/mdm/finish.go:28-51 | In every run, a trusted exchange removes its session if and only if the client ends it (alert 1223 or a request to unenroll) or nothing is on record, in flight or in transfer; it is answered with nothing at all if and only if, besides, the reply holds the SyncHdr Status alone |
| `Engine.NextChunkSends` | mdmprotocol/mdm/deliver.go:72-84 | The item the reply carries, followed by what is still in flight, is what was in flight |
| `TokenMerging.MergingInvisible` | mdmprotocol/syncml/decode.go:144-181 | Merging neighbouring character tokens, or cutting one in two between characters, anywhere in a document, changes neither the message nor the fault |
| `TokenMerging.ValueIsText` | mdmprotocol/syncml/decode.go:449-490 | Without markup, the value of Data, and of any text element, is all its character data in order; comments do not count |
| `TokenMerging.UnknownSkipped` | mdmprotocol/syncml/decode.go:428-431 | An element that Meta does not know is passed over with all that is in it |
| `TokenMerging.UnknownRefused` | mdmprotocol/syncml/decode.go:199-822 | Anywhere else it is a fault |
| `TokenMerging.FinalEnds` | mdmprotocol/syncml/decode.go:524-549 | Nothing is read after Final |
| `DtdOrder.MessageOrder` | mdmprotocol/syncml/encode.go:20-41 | Whatever the layout, every element of a printed message has its children in the order of the DTD, none twice unless the DTD repeats it, and every child of Meta declares the metinf namespace |
| `Locators.ScopeBelow` | mdmprotocol/mdm/command.go:37-43 | What lies below ./User, in any case of letters, is the user's; anything else the device's |

## Left out

- HTTP handlers, TLS, push notifications, telemetry, the SQL backends and the enrollment SOAP services: plumbing over libraries.
- Certificate signing, password and digest verification, nonce generation and `crypto/x509`: a credential check is an arbitrary boolean of the request.
- The XML tokenizer, UTF-16 transcoding and character set detection: documents are token streams, and a style's `lex` stands for the tokenizer on embedded markup.
- The texts and paths of validation errors: the validator records that a rule failed, not which.
- Queue pruning during a session: runs do not prune. A command removed while a session still refers to it would make storing its result fail.
- Failing stores and failing hooks: hook calls are reduced to what they let the engine do (closing on an unenroll request).
- Service.Server.OfferFirst: does not queue the push channel reads of a configured provider, which are ordinary enqueued commands.
- The URIs of the first reads are configuration here, assumed to be ones the queue accepts; they are generated constants in the code.
- A reply's size is an arbitrary function of a command, and encoding a reply is not part of an exchange; `Writer.Encode` says when it fails.
- Locks: each store method is one step. Concurrent handling of two messages of one session is not modelled.
- Sharing of nested values: a command body is a value, so `cloneCommand` is the identity. The one place where sharing shows, a session copied shallowly out of its store, is modelled by `WriteThrough`.
- Event records passed to hooks, device facts other than those package 1 sets, and timestamps of the session store beyond the time-to-live.
- `strings.EqualFold` and `strings.ToLower` are modelled where one side is ASCII, which the command scopes and the schema roots are.
- StateStore.Memory.Update: runs an arbitrary list of operations, each with its own cancellation, instead of an arbitrary callback; `Limiter` drives the transaction itself for its own callback.
- Rate limiting assumes times whose microseconds fit 64 bits.
- Re-encoding a whole certificate request around the subject: trailing elements inside the request are dropped there, so only the subject keeps its length.
- Emission of everything but URI expressions: identifiers, literals, formatting.
- Codec.EncodeThenDecode: character escaping and characters XML does not allow belong to the tokenizer and are not modelled.
- Reconcile.AcknowledgedValues: reads one unchanging queue; commands completing between two pages are not modelled.
