# A model of the matrix-sip-bridge

The bridge connects a SIP server to Matrix. This project models the parts of it whose correctness does not show in any
one function: the life of a telephone call, over which a dozen threads race, the durable path of a text from SIP to
Matrix, and the spelling of the identifiers that decide which conversation a call or text belongs to.

**Texts** (`pkg/inbound`, `pkg/database/inbound.go`). `QueueProtocol` is a state machine whose steps are the SQL
statements, file operations and mutex-guarded blocks. A statement may fail, with or without effect, a delivery may
error although the text reached Matrix, and the process may crash after any step; a crash leaves any subset of the
directory changes since the last directory fsync, and anything in a file that was not fsynced (`SpoolDisk`).
`QueueRuns` proves what holds in every state of every run: no acknowledged text is lost, Matrix gets each text once
and in order per portal, listed spool files are whole, and a portal is busy exactly while one delivery for it is in
flight. `QueueFiles` follows the file of a Write from its rename to the fsync of the directory, with the drain beside
it.

**Calls** (`pkg/calls/subsystem.go`, `pkg/database/call.go`). `CallProtocol` is the same for the `sip_call` table,
`answerMu`, the teardowns and the dial threads. `Answer` reads the conference in one step and writes in another, as
Postgres does under read committed. `CallRuns` proves exclusive claims, forward-only rows, one teardown per call with
its conservation law, what becomes of every control leg, and that no participant counts as seen that was not reported
to be there. `CallMemory` is what the subsystem remembers beside the table: the channels, the ring notifications and
the marks.

**Code.** `Queue`, `Calls`, `Watcher`, `MatrixEvents`, `Leg` and `Trunk` are the methods of the source as imperative
code on fields. In the first four, between any two statements or requests of a thread comes a call of `Others`, whose
contract allows any sequence of steps that other threads could take; its body takes none, and nothing but the contract
is known to callers. Every write is proved to be a step of the state machine, and one that all other threads leave to
this one, so what is proved of runs is true of the code and what the others are assumed to leave alone they do:
`On(from)` says that the state is reached from `from` by steps of the machine and keeps its invariant. Choices of the
outside world (does a request fail, what does it answer, what id does the sequence yield) are arbitrary values. The clock
of the calls is part of the state, may show anything from one step to the next, and dates what a step writes.

**What a thread did.** Each thread keeps a log of its statements, requests and file operations with their answers. It
is part of the state machine: whatever writes to the tables or the files, makes, drops or signals on a channel, reads a
join off one, remembers a notification or marks a participant as seen is logged by the very step that does it. A thread
logs by itself only what leaves all of that as it is: a listing, a read or the time, which have to be what is there, an
operation that failed without effect, and the answer of a request to the outside. The contracts say which logs a method
may leave, so that they fix what it does, and not only what it must not do; then what is so of the rows, the files, the
leg and the fields if the logged statements succeeded. `Transcripts` holds the logs of answering, waiting, setting up and
dialling, and what follows from them.

**Identifiers** (`pkg/phonenum`, parts of `pkg/calls`). `E164`, `PortalId` and `Dialling`.

**Control leg and trunk.** `Leg` is the order inside `finish` of an inbound leg, for any number of threads that end it
at once. `Trunk` is the reconciliation of LiveKit's outbound trunk.

## Where the code differs from what is said of it

- A separator added to a number is harmless, except right behind a white-space tail that `TrimSpace` would have cut
  and that is not itself made of separators: `E164.SeparatorAdded` has the exact condition,
  `E164.SeparatorAfterNewline` the inputs.
- The comment on `CallQuery.Answer` says that one statement keeps two legs from both winning. Without the mutex they
  both win exactly when both ring in a free conference (`CallTable.TwoClaimsBothWin`); with it, they never do
  (`CallRuns.ClaimsAreExclusive`).
- A control leg is hung up once its call has ended, except in two cases (`CallRuns.LegHungOnce`): the statement that
  records the callee's answer returns an error after the teardown has looked for the leg (`CallRuns.LegMayLeak`), or the
  statement that ends a call takes effect but returns an error, and the dial thread does not find the call ended
  (`CallRuns.LegMayLeakUnheard`). Then nobody hangs it up.
- The comment on `Queue.DeliverPass` says that a portal whose message fails backs off exponentially. A pass that runs
  out of slots drops the failures and the back-off of every idle portal behind the head at which it stopped, and of
  those that the batch did not reach: `PassBackoff.PassStates` says exactly which states a pass keeps, and
  `PassBackoff.BackoffMayBeLost` has a portal that the next pass starts at once, as if it had never failed. As long as
  every pass before its retry visits the portal, it is not started (`BackoffRuns.BackoffHolds`).
- A drifted trunk password is repaired, except where the listing shows the wanted one all the same, or shows none after
  this process has pushed the wanted one (`Trunk.PasswordDrift`). `Trunk.DriftsUnrepaired` has an input for each way: a
  server that withholds passwords, after a push or with none wanted, and one that lists them and has lost it since.

## Model

| member | source | states |
|---|---|---|
| E164.SplitURI | pkg/phonenum/e164.go:87-109 | the loop that strips bracket and scheme and cuts at `;`, `>`, `@`, `:` and `?` yields the user and host parts |
| E164.Normalize | pkg/phonenum/e164.go:30-75 | the loop with its digit buffer and plus flag accepts, and refuses with the same error, what the specification function does |
| E164.NormalIsE164 | pkg/phonenum/e164.go:55-74 | every accepted number is a plus and 1 to 15 digits without a leading zero (ITU-T E.164 clause 6) |
| E164.NormalIdempotent | pkg/phonenum/e164.go:23-75 | normalising a normalised number changes nothing |
| E164.NormalExactly | pkg/phonenum/e164.go:30-75 | which inputs are accepted, and as what number: digits with neither `+` nor `00` never |
| E164.NormalEmptyExactly | pkg/phonenum/e164.go:32-67 | which inputs are refused as empty; the others that are refused are no E.164 |
| E164.E164IsNormal | pkg/phonenum/e164.go:23-75 | every E.164 number is accepted as it is |
| E164.DoubleZeroIsPlus | pkg/phonenum/e164.go:59-64 | a number behind `00` and behind `+` are the same, errors included, behind any white space, bracket and scheme |
| E164.SeparatorAdded | pkg/phonenum/e164.go:48-49 | for all strings, behind any white space, bracket and scheme: a separator after the sign leaves the result alone where it fits, and has the number refused where it does not (sections 4 and 5.1.1 of RFC 3966) |
| E164.SeparatorAfterNewline | pkg/phonenum/e164.go:31 | a `tel:` input for which an added separator does change the result |
| E164.URIParts | pkg/phonenum/e164.go:84-109 | the user and the host of a URI with a number for user, bracketed or not, of every scheme in any case |
| E164.NumberOfURI | pkg/phonenum/e164.go:77-82 | a number comes back from any such URI that it is the user of |
| E164.ToIDInjective | pkg/phonenum/e164.go:111-121 | two E.164 numbers never share a bare-digit ID |
| PortalId.MatchIsUnique | pkg/phonenum/portalid.go:19 | the composite pattern matches an ID in at most one place |
| PortalId.SplitJoined | pkg/phonenum/portalid.go:29-34 | a line and a number joined by a hyphen split into the same two |
| PortalId.JoinSplit | pkg/phonenum/portalid.go:29-34 | splitting and joining a composite ID gives it back |
| PortalId.MakeIDAccepts | pkg/phonenum/portalid.go:93-103 | for a number, MakeID refuses exactly what is no line name |
| PortalId.LinelessID | pkg/phonenum/portalid.go:48-63 | a line-less ID has no line and gives its number back with the plus |
| PortalId.IDForAccepts | pkg/phonenum/portalid.go:93-120 | IDFor refuses exactly bad numbers and bad lines: MakeID's read-back check never fires from it |
| PortalId.IDForRoundTrip | pkg/phonenum/portalid.go:48-63 | the line and the E.164 number come back from the ID, in both forms |
| PortalId.IDForInjective | pkg/phonenum/portalid.go:105-120 | two conversations share an ID only if they are one number on one line |
| PortalId.KindOfNumber | pkg/phonenum/portalid.go:208-219 | KindOf inverts IDFor |
| PortalId.KindOfLineRooms | pkg/phonenum/portalid.go:151-187 | KindOf inverts SpaceIDFor and DialIDFor |
| PortalId.KindsDisjoint | pkg/phonenum/portalid.go:141-187 | numbers, spaces and dial rooms never share an ID, whatever the line is called |
| PortalId.LineRoomIsNoNumber | pkg/phonenum/portalid.go:141-149 | the ID of a space or dial room is never read as a number on a line |
| PortalId.URIKeysItsLine | pkg/phonenum/portalid.go:122-139 | a URI, bracketed or not and of every scheme, whose host is a line keys that line, with any port, parameter or header tail |
| PortalId.TrunkKeysNoLine | pkg/phonenum/portalid.go:126-139 | a URI whose host has a dot, as a trunk's hostname has, names no line, and keys the number on no line |
| PortalId.LineFromURIIsUsable | pkg/phonenum/portalid.go:122-139 | a line that a URI names is always accepted by IDFor |
| Dialling.ConferenceRoundTrip | pkg/calls/subsystem.go:277-295 | a conference names the portal it was made for |
| Dialling.PortalRoundTrip | pkg/calls/subsystem.go:282-295 | every conference recognised as the bridge's own is the one of its portal |
| Dialling.PortalIDForNumber | pkg/calls/subsystem.go:1433-1457 | one room on a line is dialled, none falls back to the line-less ID, several are an error with their lines sorted |
| Dialling.CandidatesAreOnLines | pkg/calls/subsystem.go:1433-1444 | a candidate is an existing conversation with that very number on some line; neither the one on no line nor a line's own room is |
| Dialling.DialsTheNumber | pkg/calls/subsystem.go:1425-1444 | what is dialled is a room of that very number, never of one it ends or a line's own room |
| Dialling.DialsTheLinesRoom | pkg/calls/subsystem.go:1425-1450 | a number with a room on a line reaches the room IDFor names for that line, or is ambiguous |
| InboundTable.HeadsAreFirstMinima | pkg/database/inbound.go:51-63 | for tables of any size the query gives the first `limit` of the per-portal minima in (received_at, id) order |
| InboundTable.HeadsAreUnique | pkg/database/inbound.go:51-63 | those properties leave no other answer |
| InboundTable.OneHeadPerPortal | pkg/database/inbound.go:55-62 | every portal with a waiting row has exactly one head |
| InboundTable.HeadsOfDistinctPortals | pkg/database/inbound.go:51-63 | no portal is in a batch twice |
| InboundTable.BacklogIsInvisible | pkg/database/inbound.go:51-54 | rows behind an earlier one of their portal leave the batch unchanged, however many |
| InboundTable.MillisecondOf | pkg/database/inbound.go:79-82 | the receive time of a row is the millisecond that the receive time of its text falls into |
| SpoolNames.PadOrder | pkg/inbound/spool.go:48 | zero-padded decimals of one width sort as their numbers |
| SpoolNames.NameOrder | pkg/inbound/spool.go:46-48 | sorting names is sorting by (receive nanosecond, sequence modulo 1000000, UID with suffix) |
| SpoolNames.NameInjective | pkg/inbound/spool.go:46-48 | equal names have equal time, sequence number and UID |
| SpoolNames.TailOrder | pkg/inbound/spool.go:46-48 | the suffix keeps the order of two UIDs if and only if they are not one of the disturbed pairs |
| SpoolNames.SameLengthUndisturbed | pkg/connector/client.go:512 | UIDs as they are minted, all of one length, are no disturbed pair: their files sort as they do |
| SpoolNames.NamesListed | pkg/inbound/spool.go:98-102 | spool files are listed; set aside or temporary ones are not |
| SpoolNames.NamedForOne | pkg/inbound/spool.go:46-48 | a file belongs to one text, set aside or not |
| SpoolNames.ListedByTime | pkg/inbound/spool.go:46-48 | a listed file that sorts before another was received no later |
| SpoolDisk.DiskStepInv | pkg/inbound/spool.go:39-132 | every step of Write, Remove and Quarantine keeps directory and files in order, with any Writes beside it |
| SpoolDisk.DiskStepHeld | pkg/inbound/spool.go:39-132 | only the removal of its file takes a durable text out of the durable layer |
| SpoolDisk.RenameShows | pkg/inbound/spool.go:67-70 | the rename puts the complete message under its final name |
| SpoolDisk.SyncDirHeld | pkg/inbound/spool.go:74-89 | the directory fsync puts what the directory shows out of any crash's reach |
| SpoolDisk.ListedAreWhole | pkg/inbound/spool.go:91-105 | no listed name holds partial content, now or in any state a crash may leave |
| SpoolDisk.CrashKeeps | pkg/inbound/spool.go:39-40 | a crash keeps the invariant and every text that was durable |
| QueueFiles.StepFiled | pkg/inbound/spool.go:67-89 | between the rename of a Write and its fsync of the directory, whatever the other threads do, the directory shows the whole text under its name or set aside, or its row has been made |
| QueueFiles.FsyncStores | pkg/inbound/spool.go:72-89 | the fsync of the directory makes exactly that durable |
| DeliverPass.PassStarts | pkg/inbound/queue.go:189-225 | a pass marks busy exactly the portals it starts a delivery for, one each, and takes one slot each |
| DeliverPass.HeadsOnePerKey | pkg/inbound/queue.go:190 | no two rows of a batch of heads share a key, whatever the portals, for login IDs without a NUL |
| DeliverPass.IdlePortalsStart | pkg/inbound/queue.go:170-177 | for batches of any size: the pass starts the first of the idle portals that are not backing off, as many as there are free slots, and goes on to the end exactly if they all fit |
| PassBackoff.PassStates | pkg/inbound/queue.go:190-220 | what a pass leaves of every portal's state: failures and back-off unchanged where it visits, the whole state where a delivery is in flight or the pass broke off, and nothing otherwise |
| PassBackoff.NoneStarted | pkg/inbound/queue.go:203-208 | no pass starts a portal that is backing off |
| PassBackoff.BackoffMayBeLost | pkg/inbound/queue.go:209-220 | an input on which a back-off is dropped and the portal started before its time |
| PassBackoff.PassWaits | pkg/inbound/queue.go:203-225 | a pass returns the time to the soonest end of a back-off among the portals it visits, negative exactly if there is none or the pass broke off |
| BackoffRuns.BackoffHolds | pkg/inbound/queue.go:189-225 | in every run, a portal that backs off keeps failures and retry, and has no delivery in flight, as long as each pass before its retry visits it or breaks off, whatever other portals do |
| QueueProtocol.StepData | pkg/inbound/queue.go:99-261 | every step keeps the tables, files and whereabouts of texts consistent |
| QueueProtocol.DeleteReach | pkg/inbound/queue.go:237-245 | deleting by id removes no row but the delivered one, also for a stale head: ids are never reused |
| QueueProtocol.StepFlights | pkg/inbound/queue.go:187-256 | every step keeps busy portals, flights and semaphore slots in step |
| QueueProtocol.FailedPortalKnown | pkg/inbound/queue.go:248-250 | the state looked up when a delivery fails is there, and busy |
| QueueProtocol.RestartKeeps | pkg/inbound/queue.go:99-126 | a crash at any point loses nothing that was acknowledged |
| QueueRuns.StepOrder | pkg/inbound/queue.go:178-261 | every step keeps the order per portal, stale snapshots included |
| QueueRuns.NoTextIsLost | pkg/inbound/queue.go:99-126 | once Persist returned nil the text, as accepted, is in the table, in Matrix or in a whole durable file in every later state of every run |
| QueueRuns.ListedFilesAreWhole | pkg/inbound/spool.go:39-105 | in every state of every run, crashed or not, a listed file holds a whole accepted text |
| QueueRuns.OneCopyInMatrix | pkg/inbound/queue.go:124-126 | Matrix never holds two copies of a UID, and each as it was accepted |
| QueueRuns.OrderPerPortal | pkg/inbound/queue.go:173-177 | if the first rows of a portal's texts were inserted in delivery order, its texts in Matrix are the first of them in exactly that order, also when a file that could not be removed is drained again |
| QueueRuns.DeliveriesInFlight | pkg/inbound/queue.go:187-256 | busy means one delivery in flight for the portal, at most 8 are, and a failing one finds its portal's state |
| QueueThreads.Rely | pkg/inbound/queue.go:60-70 | whatever steps the other threads take, a thread's temporary file, snapshot and delivery stay, and nothing promised or delivered is undone |
| Queue.Bridge.Insert | pkg/database/inbound.go:79-89 | a new UID gets a row with a fresh id, a known one none, and an error may hide either |
| Queue.Bridge.Write | pkg/inbound/spool.go:39-72 | temp file, write, fsync, close, rename, directory fsync in that order up to the first error, each logged by the file operation itself; an unrenamed file is given up; when it succeeds the whole text is durable under the name minted for it, or the drain got there first, and survives any crash |
| Queue.Bridge.List | pkg/inbound/spool.go:91-105 | exactly the listed names, strictly sorted, or an error |
| Queue.Bridge.Read | pkg/inbound/spool.go:107-121 | a message only from a whole file |
| Queue.ListedInReceiveOrder | pkg/inbound/spool.go:91-105 | a later file of a sorted listing was received no earlier |
| Queue.Bridge.Persist | pkg/inbound/queue.go:102-122 | the insert, logged by its statement, then the spool exactly if the insert failed and there is one; success means that the text is kept, spooled that its file is durable |
| Queue.Bridge.DrainFile | pkg/inbound/queue.go:137-162 | one spool file: read, and set aside exactly if the read gives no text; otherwise inserted and, unless the table refuses, removed; the drain makes no other row, and this one is the text that was read, behind all others |
| Queue.Bridge.Drain | pkg/inbound/queue.go:127-165 | the exact listing of the spool is gone through in order up to the first refusal, success exactly if there is none; every row that the drain makes is that of a file of the listing, and all of them have their receive times in order |
| Queue.DrainedByTime | pkg/inbound/queue.go:124-146 | what a drain reads was received in the order in which it reads it, and the rows of its files have their receive times in order |
| Queue.DrainedInOrder | pkg/inbound/queue.go:124-126 | all rows that a drain puts into the table between its start and its end are in receive order, whatever others insert in between |
| Queue.Bridge.StartDeliveries | pkg/inbound/queue.go:189-229 | the loop under the mutex does what the specification of a pass says, and returns its wait; what that is for every portal, `DeliverPass` and `PassBackoff` prove |
| Queue.Bridge.DeliverPass | pkg/inbound/queue.go:178-230 | a failed query changes nothing; otherwise the heads of the table are read before the mutex is taken, and what the pass leaves is that of a pass over them from the state found then, a goroutine for each row started |
| Queue.Bridge.Backoff | pkg/inbound/queue.go:266-272 | the doubling loop is the minimum times a power of two, capped |
| Queue.BackoffBounds | pkg/inbound/queue.go:266-272 | waits grow with the failures and stay between the bounds |
| Queue.BackoffDoubles | pkg/inbound/queue.go:266-272 | the first wait is the minimum, each further failure doubles it up to the maximum |
| Queue.Bridge.FailuresAddUp | pkg/inbound/queue.go:248-255 | the failures of a portal add up, and its retry is the wait for as many after the last |
| Queue.Bridge.Fail | pkg/inbound/queue.go:248-256 | a failed delivery finds its portal's state, frees it and, unless stopping, backs it off by one more failure |
| Queue.Bridge.DeliverOne | pkg/inbound/queue.go:233-261 | handed over, deleted, settled, in that order up to the first failure, each logged by its step; on success the text is in Matrix and the row gone for good; otherwise its portal backs off for one more failure, unless the bridge stops; in any case the delivery leaves its slot |
| CallTable.UpdateForward | pkg/database/call.go:99-107 | a late Update leaves an ended row alone, and moves a row forward exactly if the record is not behind it |
| CallTable.RoomLookup | pkg/database/call.go:128-134 | the lookup by room finds the newest call in progress in that room, none exactly if there is none |
| CallTable.LegLookup | pkg/database/call.go:135-139 | the lookup of a leg finds the newest one in progress of that conference and receiver |
| CallTable.PickNewest | pkg/database/call.go:128-146 | the newest of the matching rows, none exactly if there is none |
| CallTable.TwoClaimsBothWin | pkg/database/call.go:120-127 | two Answers that both read before either writes both win exactly when both legs ring and the conference is free |
| CallTable.SecondClaimLoses | pkg/database/call.go:228-238 | one after the other, the second loses |
| CallMemory.OthersKeepChannels | pkg/calls/subsystem.go:717-774 | the channels of a call stay for its thread as they are, and a join that it has not read and a channel that is closed stay so, whatever the others do |
| CallProtocol.StepKeeps | pkg/calls/subsystem.go:505-636 | every step of every thread keeps claims exclusive, the books balanced, every control leg in one place, the ended channels closed only for ended calls, every mark reported, and the table holding what was logged as inserted and claimed |
| CallProtocol.CommitClaims | pkg/calls/subsystem.go:592-594 | under answerMu a claim that read the conference as free is the first inbound leg of it to be bridged |
| CallProtocol.UpdateKeeps | pkg/calls/subsystem.go:1192 | an owner's late update bridges nothing anew |
| CallProtocol.EndKeeps | pkg/calls/subsystem.go:912-921 | exactly one thread tears down what End ended |
| CallProtocol.TransitionKeeps | pkg/calls/subsystem.go:1306-1326 | the dial thread wins, loses or fails its transition without losing track of the leg, whatever ended meanwhile |
| CallProtocol.RestartKeeps | pkg/calls/subsystem.go:239-252 | EndAll after a crash at any point keeps the books balanced |
| CallProtocol.StepForward | pkg/database/call.go:99-127 | no step moves a row back or touches an ended one |
| CallProtocol.StepDates | pkg/database/call.go:179-226 | a row that a step writes bears the time of that step, and one that was there stays as old as it was |
| CallRuns.ClaimsAreExclusive | pkg/database/call.go:120-127 | between claim and end of an inbound leg no other inbound leg of its conference is bridged, in every interleaving |
| CallRuns.OneAnsweredElsewhere | pkg/database/call.go:140-146 | the lookup of who answered elsewhere never has two answers: it is the bridged inbound leg |
| CallRuns.OneLegOfConference | pkg/database/call.go:120-127 | of all legs that were inserted with one conference, no two are ever bridged |
| CallRuns.OtherLegLoses | pkg/database/call.go:228-238 | while one of them is bridged, the claim of any other is lost |
| CallRuns.WinnerIsRecorded | pkg/database/call.go:228-238 | the user whom a thread has claimed a call for, and won, is the user on it ever after |
| CallRuns.RowsMoveForward | pkg/database/call.go:99-107 | over whole runs rows only move ringing, bridged, ended, and ended rows never change |
| CallRuns.TeardownOnce | pkg/calls/subsystem.go:912-921 | no call is counted twice and no two threads tear one down |
| CallRuns.CallsAreConserved | pkg/calls/subsystem.go:927 | per direction, inserted rows are the active, the finished, the about-to-be-counted, the never-heard-of and the cleared |
| CallRuns.CallsAtRest | pkg/calls/subsystem.go:906-947 | with no teardown under way and no answer lost: inserted = active + finished + cleared |
| CallRuns.LegHungAtMostOnce | pkg/calls/subsystem.go:969-981 | no control leg is hung up twice |
| CallRuns.LegHungOnce | pkg/calls/subsystem.go:1297-1326 | once the dial thread and the ender are through, the leg was hung up once, except in exactly the two cases of LeftBehind |
| CallRuns.LegMayLeak | pkg/calls/subsystem.go:1311-1315 | a run that reaches the first: the answer's record fails after the teardown |
| CallRuns.LegMayLeakUnheard | pkg/calls/subsystem.go:912-918 | a run that reaches the second: the end took effect and returned an error |
| CallRuns.SeenWasReported | pkg/calls/subsystem.go:1180-1186 | whatever thread reads a participant as seen, some thread had been told that it is there, by LiveKit or by livekit-sip that it joined |
| CallThreads.Rely | pkg/calls/subsystem.go:906-921 | whatever the other threads do, to a thread's own call they can only end it, and to its channels only signal |
| Calls.Subsystem.constructor | pkg/calls/subsystem.go:191-252 | after New and Start nothing is in memory, every call of the last run has ended, and the books balance |
| Calls.Subsystem.Insert | pkg/database/call.go:179-187 | a new row is the record, written and, unless it says otherwise, created at the time of the insert; an id that is taken changes nothing |
| Calls.Subsystem.Answer | pkg/database/call.go:228-238 | winning makes the thread the owner with the user recorded; losing leaves the record and the row unbridged |
| Calls.Subsystem.End | pkg/database/call.go:204-226 | ends the row from any state and no other; mine exactly for the thread that moved it, and only then is the record changed; both bear the time |
| Calls.Subsystem.Update | pkg/database/call.go:189-195 | writes the media of a call in progress, and nothing to one that has ended |
| Calls.Subsystem.EndCallAs | pkg/calls/subsystem.go:906-947 | when it succeeds the call has ended; mine exactly for the thread that ended it, and then the call is counted, its mark forgotten, its waiters released, its notifications taken back and its teardown over |
| Calls.Subsystem.TakeLeg | pkg/calls/subsystem.go:975-981 | removes the leg and says whether there was one |
| Calls.Subsystem.TakeNotifications | pkg/calls/subsystem.go:826-837 | takes exactly the notifications of the call |
| Calls.Subsystem.BridgeMedia | pkg/calls/subsystem.go:1155-1193 | trunk, LiveKit room, participant, its mark, row, in that order up to the first error; on success the row, unless ended, names the participant that LiveKit named |
| Calls.Subsystem.AnswerInbound | pkg/calls/subsystem.go:586-636 | claim for the user who joined, media, 200: won, lost or over exactly as the source tells them apart, each failure ended with its own reason; over means ended if no statement failed; a won claim gets the leg its final response unless it is gone |
| Calls.Subsystem.GiveUp | pkg/calls/subsystem.go:532-575 | for every way out: the status the caller gets (480, 486, 503 or none), what the room is told, and that the row is ended; "the bridge restarted" is recorded only if the transport went away |
| Calls.Subsystem.WaitForMatrix | pkg/calls/subsystem.go:505-577 | at most one lost claim, then one answer or one way out, each claim for the user whose join was read off the channel; on return, no statement failed, the row has ended, or is bridged and the leg answered; a call that was won is that user's; one response at most |
| Calls.Subsystem.EndIfStale | pkg/calls/subsystem.go:685-715 | ends the row, quietly, exactly if by the clock read it was created more than the ring timeout and a minute ago and rings, or was written to longer ago than the membership lasts and is bridged |
| Calls.Subsystem.DiscardIfStale | pkg/calls/subsystem.go:658-677 | gives the newest call among those that match, or none if there is none or it is stale, and then it has been ended |
| Calls.Subsystem.BeginInboundCall | pkg/calls/subsystem.go:418-483 | lookup, room, ghost, row, membership, notification, in that order: a ringing row exactly if all but the last succeed, with the portal, the room found for it, the conference and the receiver it was asked for; a row that cannot ring is ended; none is left in progress if no statement failed |
| Calls.Subsystem.HandleInboundCall | pkg/calls/subsystem.go:322-392 | the whole life of a leg as one log; its row has the leg's conference, the portal that names, and the recipient, and on it is who joined and won; on return, no statement failed, the row is not in progress, or bridged and the leg answered; its channels are gone; one of Answer and Reject at most (section 13.3.1 of RFC 3261), and one at least unless the leg is gone or its claim came to nothing; a leg that never rang gets the status for why its recipient cannot be rung, or 500 |
| Calls.Subsystem.MediaNeedsClaim | pkg/calls/subsystem.go:505-521 | no media is asked for, and no 200 sent, for an inbound leg whose thread has not won the claim |
| Transcripts.AnswerNeedsMedia | pkg/calls/subsystem.go:579-585 | the 200 comes after the whole of the media |
| Calls.Subsystem.Transition | pkg/database/call.go:197-202 | ringing to bridged for one winner; losing means the row has ended |
| Calls.Subsystem.Dial | pkg/calls/subsystem.go:1229-1342 | ghost, row, membership, ring notification if asked from outside the call, INVITE, transition, media, in that order up to the first error or a lost transition, the notification aside; the row has the portal, room, owner, caller and conference, and is found by its room while it is in progress; a failure after the row ends the call with its reason; a call comes back exactly if all succeed; otherwise its row is not in progress if no statement failed |
| Calls.Subsystem.DialCommand | pkg/calls/subsystem.go:1211-1224 | dials, and rings, exactly if the lookup finds no call in progress in the room; otherwise gives the one it found |
| MatrixEvents.SignalAnswer | pkg/calls/subsystem.go:868-882 | the first unread join decides, later ones are dropped |
| MatrixEvents.SignalDecline | pkg/calls/subsystem.go:839-860 | closes the channel of the call the notification names, and no other |
| MatrixEvents.HandleRtcDecline | pkg/calls/subsystem.go:1038-1088 | an unknown notification changes nothing; a held call is signalled, and nothing else changes; any other is ended exactly if it is found ringing, and does not ring afterwards if no statement failed |
| MatrixEvents.OnMatrixLeftCall | pkg/calls/subsystem.go:1124-1142 | the newest call of the room that is not stale is ended exactly if the sender is the user on it or there is none, and has ended if no statement failed; nothing else is |
| MatrixEvents.OnMatrixJoinedCall | pkg/calls/subsystem.go:1096-1116 | dials exactly if the lookup finds no call in progress; to a ringing call, and to no other, the joiner is signalled, who is then the one to be read if no join was waiting; while one is up nothing is done |
| Watcher.CheckCall | pkg/calls/subsystem.go:1494-1529 | a row is ended quietly exactly by its own times, a bridged one by its last write and a ringing one by its creation; otherwise exactly if it is watched, absent by LiveKit's answer and marked as seen in the state read; it has then ended if no statement failed; one found present is marked; of one ended for its absence a thread was told that it had been there |
| Watcher.CheckParticipants | pkg/calls/subsystem.go:1480-1531 | the same for exactly the rows in progress at the listing, in its order, and at the end of the whole pass: no call is ended whose participant nobody was told of |
| Leg.StepKeeps | pkg/siptransport/call.go:109-124 | every step of every thread inside finish keeps the order of release |
| Leg.ReleasedInOrder | pkg/siptransport/call.go:54-64 | Done is closed at most once, after the context was cancelled, after Finished became true |
| Leg.WokenNotFinished | pkg/calls/subsystem.go:556-567 | a reader woken by the context that then finds the leg not finished knows that the transport went away |
| Leg.InboundCall.Finish | pkg/siptransport/call.go:109-124 | the leg is closed on return, and released by this thread if it was the first |
| Leg.InboundCall.Reject | pkg/siptransport/call.go:102-107 | at most one failure status, the one given, and the end of the leg |
| Leg.InboundCall.Answer | pkg/siptransport/call.go:78-92 | at most one final response; success only with an offer that can be answered, otherwise the leg ends |
| Trunk.TrunkDiff | pkg/calls/trunk.go:39-56 | names exactly the fields that differ |
| Trunk.FingerprintTells | pkg/calls/trunk.go:28-37 | two specifications without NULs are hashed from the same bytes only if they agree |
| Trunk.AtMostOneWrite | pkg/calls/trunk.go:58-124 | from any state, over any number of ticks, at most one write, and one exactly if there was something to do, for servers that list the password and that withhold it |
| Trunk.FirstTickRepairs | pkg/calls/trunk.go:65-68 | after the first tick of a process the remembered id is that of the trunk, and LiveKit holds what is wanted, password included, exactly unless the server withholds passwords, none is wanted and one was all that differed |
| Trunk.PasswordDrift | pkg/calls/trunk.go:89-96 | a tick leaves a drifted password exactly if the listing shows the wanted one all the same, or shows none and this process has pushed the wanted one |
| Trunk.DriftsUnrepaired | pkg/calls/trunk.go:89-96 | an input for each of the three ways in which a drift is left |
| Trunk.Reconciler.ReconcileTrunk | pkg/calls/trunk.go:69-124 | the loop over the listing does what the specification of a tick says; a failed request never counts as pushed |
| Trunk.Reconciler.CurrentTrunkId | pkg/calls/trunk.go:177-185 | the remembered id, none if there is none or it is empty |

## Left out

- Trunk.AtMostOneWrite: assumes that no request fails and that nobody else writes, and that a listing keeps its order.
- QueueRuns.OrderPerPortal: says nothing of a portal whose texts were first inserted out of order, as when the spool is drained late.
- Queue.Bridge.DeliverPass: reads the clock once per pass where the source reads it per head, and starts the goroutines at the end of the block that holds the mutex.
- Queue.Bridge.Insert: a statement that times out and lands later is one atomic step that fails although it took effect.
- Calls.Subsystem.Answer: the same, and a claim that lands after `answerMu` was released is excluded; it could bridge a second leg of a conference, as `CallTable.TwoClaimsBothWin` has it.
- Calls.Subsystem.EndCallAs: models what the timeline record is told of the end, and neither the record nor where it looks up who answered elsewhere.
- Calls.Subsystem.Dial: that the end of the call cancels the INVITE is the channel it makes for it; whether the INVITE then fails is an answer like any other.
- Calls.Subsystem.Insert: only ringing calls, which are all that the source inserts; the time that it writes is read in its own step, as in the other statements of `pkg/database/call.go`.
- Calls.Subsystem.BeginInboundCall: two handlers may both find no call and both insert one, as in the source; one active row per room is not claimed.
- The texts, tables, spool and queue fields share one object in `Queue`, and the `sip_call` table and the Subsystem's maps one in `Calls`, because the steps of one interleave with those of the others.
- That bridgev2 takes a message ID once is assumed (pkg/connector/client.go:562-565); so is that UIDs and call IDs are never minted twice.
- Receive times before 1970 or beyond an int64 of nanoseconds, and strings that are not valid UTF-8.
- Files that something other than the bridge puts into the spool directory, and the directory fsync on Windows, where its error is ignored.
- JSON, SHA-256 (any function of the bytes), SDP, sipgo's dialogs, LiveKit's and Matrix's own state, memberships and notifications: requests that may fail.
- Whether and when a loop wakes up: tickers, the wake channel and the clamping of waits in deliverLoop; depth gauges.
- The sweep of memberships that a previous run left behind, at startup.
- Configuration, health, metrics other than the count of finished calls, auditing, spaces and migration: one-branch members.
