# Mapepire client: a verified model of its concurrent core

The Mapepire client runs SQL on an IBM i daemon over WebSocket connections.
This project models the parts of it where concurrency, ownership and wire
formats meet, and proves what they keep over every run:

- **Dispatcher** (`Dispatch*.dfy`, `Correlation.dfy`, `Counter.dfy`). The loop
  that owns one connection: a queue of requests, a map from correlation id to
  waiting caller, and a 32-bit counter shared with the pool. `Dispatch` is the
  state machine over everything that can happen to it; `Dispatcher.Task` is the
  loop itself, method by method, proved against that machine. The machine is then
  refined to an automaton that sees a single request.
- **Wire formats** (`Json`, `Protocol`, `Decode*`, `Encode`, `NamedRows`,
  `ParameterSets`, `TaggedRoundTrip`, `Spellings`, `Positions`, `LiveDialect`). Frames as
  JSON values, the tagged dialect, the untagged dialect of live daemons with its other
  names and left-out fields, array-shaped rows and records, and the flattened parameter
  batches. `EndToEnd.dfy` joins them to the dispatcher.
- **Paging** (`Paging`, `Collecting`, `Query`). The cursor of a result set from the
  opening reply to the last drop: `Rows`, the stream that takes the cursor over, the
  three places that may close it, and collecting a whole result set.
- **Ids** (`Codec`, `Connection`). The id allocator, and everything one connection
  sends as one interleaving: job ids, stream ids and close ids.
- **Pool** (`Routing`, `Registry`, `Occupancy`, `PoolRegistry`, `Reserved`, `Reaper`). The
  registry of weak references and its scans, who holds which job, that the scans of the
  one are the events of the other, reservations for transactions, and the sweep for idle
  connections.

Objects that the client updates in place are classes here (`Task`, `Rows`,
`StreamState`, `IdAllocator`, `Registry`, `Reserved`, `Sweeper`); each of their methods
states its new state as a function of the old one, and the laws are proved about those
functions. Pure code is functions and lemmas. Tokio's scheduling appears as arbitrary
interleaving of events, a HashMap's order of iteration as a choice made by the event
(`first`, the entry a drain happens to yield first), and the replies of the daemon as
arbitrary values.

Where an event cannot happen in a state, the state machines leave the state alone;
`Dispatcher.StutterFree` shows that such events can be dropped from a run.

## Where the code and its documentation part

The model follows the code; these are the places where that matters.

- `src/pool/reserved.rs:366-369` calls the counting on top of the `u32::MAX` sentinel
  benign. One outstanding request wraps the counter to 0, and then the job looks idle
  (`HeldJobIsPicked`). `HeldJobVisibility` and `ReleasedJobVisibility` say exactly when a
  held or released job is visible to the routing scans.
- `src/pool/routing.rs:53-55` reads `strong_count == 2` as "nobody has the job checked
  out". The checked-out object holds the one owning reference that the pool's slot held
  before, so the count does not tell the two apart. A picked job is in use by somebody
  else if and only if its owning reference is not in the slot (`IdlePickLaw`): a call
  the fair queue served and that is not written yet, or a reservation, shares it
  (`QueuedCallIsJoined`), and so does a call that outlived the pool's interest in the
  connection (`ReapedJobIsShared`). What the scan does exclude, while the pool has the
  job, is another call routed by a scan (`IdleTierExclusive`).
- `src/pool/builder.rs:90` and `src/pool/runtime.rs:701-703` promise that an idle
  connection is removed between 1 and 1.25 times the idle timeout after its last use. As
  `src/pool/builder.rs:100-105` adds, what counts is the ping of the last checkout. A call
  routed by the registry does not ping, so it does not keep its connection: one can be
  dropped a nanosecond after such a call (`DroppedRightAfterUse`), and the lower bound holds
  for the last use exactly if no routed call and no return fell within the timeout
  (`UnusedWhenDropped`). For the last checkout `AgeBounds` gives both bounds with their
  exceptions; one that stays out of the slots across sweeps can be dropped arbitrarily
  late (`HeldAcrossSweeps`). The factor of 1.25 holds exactly from 4 s less 4 ns on
  (`QuarterBound`).
- `src/transport/dispatcher.rs:145-152` recognizes missing columns by the text of the
  error, so a frame whose `type` has that text is reported as missing columns
  (`UnknownTypeMisread`).
- `src/transport/dispatcher.rs:78-80` says a dropped `send` future removes its pending
  entry. The entry stays until a frame or a drain takes it; that this disturbs nobody
  else is `CancellationDoesNotInterfere`.
- `src/transport/dispatcher.rs:309-312` returns without draining when all handles are
  gone; the base of `CounterLaw` accounts for what the counter keeps then.
- `src/protocol/codec.rs:29-36` expects prefixes to be told apart by the time. Within a
  process they repeat for equal sub-second nanoseconds, whatever the second
  (`PrefixesCollide`). `ConnectionIdsDistinct` says exactly when that makes two ids on
  one connection equal: two allocators with one prefix matter once both have issued an
  id, and the job's always has (`SharedClockRepeatsId`). The first `sqlmore` then repeats
  the id of the handshake (`FirstMoreRepeatsId`), and a later one that of the request
  that opened its result set (`MoreRepeatsOpening`).

## Model

| member | source | states |
|---|---|---|
| DispatchInvariant.StepKeepsInv | src/transport/dispatcher.rs:275-365 | every event keeps the bookkeeping: queue and map agree with what was submitted, each request is queued, pending or spent and never two of these, a caller that is still there has a reply exactly when its channel is spent, and nothing is queued or pending once the loop has returned |
| DispatchLaws.RunConserves | src/transport/dispatcher.rs:275-397 | in every reachable state of every run a submitted request is in exactly one place; when the loop has ended every caller that did not leave has its answer |
| DispatchLaws.RunsUntilEnded | src/transport/dispatcher.rs:282-363 | over every run the loop runs until the first failed write, bad JSON, stream error, close by the peer, abort, or loss of the last handle, which comes after everything queued was written, and it never runs again |
| DispatchLaws.SubmittedIsKept | src/transport/dispatcher.rs:81-102 | in every reachable state a submitted request goes behind those queued, or is answered `Closed` at once when the loop has ended |
| DispatchLaws.RepliesAreFinal | src/transport/dispatcher.rs:99-101 | a caller is answered once: no later event changes its reply |
| DispatchLaws.DrainCounts | src/transport/dispatcher.rs:367-397 | a drain uses up exactly the channels of the pending requests and lowers the counter once for each, modulo 2^32 |
| DispatchLaws.DrainAnswers | src/transport/dispatcher.rs:383-397 | among drained callers only the one the map yields first gets the specific error, the others `Closed` |
| DispatchLaws.FrameIsLocal | src/transport/dispatcher.rs:319-350 | a valid frame, decodable or not, concerns at most the one pending request with its id, lowers the counter exactly if there is one, and changes nothing for anybody else |
| DispatchLaws.RunRepliesMatch | src/transport/dispatcher.rs:332-340 | over all runs, a successful reply carries the id of the request it answers, whatever the daemon sends |
| DispatchRefinement.StepAdvances | src/transport/dispatcher.rs:275-365 | with distinct ids, each event moves each request exactly as the one-request automaton says |
| DispatchRefinement.RunRefinesFate | src/transport/dispatcher.rs:275-365 | over whole runs with distinct ids, the outcome of each request is a function of its own position and the events alone, independent of all other requests |
| EndToEnd.SubmissionRefinesFate | src/transport/dispatcher.rs:81-102 | for every trace, what becomes of a submitted request is what the automaton makes of the later events, starting behind the queue it met; after the loop's end it is `Closed` |
| DispatchOutcomes.ReplyIsFirstDecision | src/transport/dispatcher.rs:319-360 | a request on the wire is decided by the first frame with its id or the first event that ends the loop |
| DispatchOutcomes.ReplyWhileQueued | src/transport/dispatcher.rs:287-299 | when the loop ends while a request is queued, its reply is the write error if the failed write was its own, and `Closed` otherwise |
| DispatchOutcomes.WrittenInTurn | src/transport/dispatcher.rs:285-308 | a queued request is on the wire after as many writes as were ahead of it and one more |
| DispatchOutcomes.CancellationDoesNotInterfere | src/transport/dispatcher.rs:304-338 | two traces that differ only in which callers cancelled reach the same queue, map and counter, and answer every other caller alike |
| DispatchCounter.StepCounts | src/transport/dispatcher.rs:303-336 | outside reservations each event keeps the counter equal to base plus pending modulo 2^32, up to the drift of a displaced entry or an undrained exit |
| DispatchCounter.NoDrift | src/transport/dispatcher.rs:303-307 | with distinct ids and draining exits there is no drift |
| DispatchCounter.CounterIsPendingCount | src/transport/dispatcher.rs:303-336 | on a connection never reserved the counter is the number of pending requests in every reachable state |
| DispatchCounter.CounterLaw | src/transport/dispatcher.rs:303-336 | in every reachable state of every run with distinct ids the counter is base plus pending modulo 2^32, where reservations set the base anew and an exit without a drain adds what it leaves counted |
| DispatchCounter.SentinelLaw | src/pool/reserved.rs:93-105 | during a reservation the counter is at the sentinel exactly when as many requests are pending as at its start, modulo 2^32 |
| DispatchCounter.ReleaseLaw | src/pool/reserved.rs:370 | after a reservation the counter is off by what was pending at its end, and exact again exactly if nothing was |
| Counter.DownByReads | src/transport/dispatcher.rs:370-381 | n wrapping decrements are one subtraction modulo 2^32 |
| Correlation.RouteIsFrameId | src/transport/dispatcher.rs:332-346 | a frame is routed by its own string id, decodable or not; without one only when its shape coerces the id to the empty string |
| Correlation.Remap | src/transport/dispatcher.rs:212-244 | remapping never changes the id |
| Correlation.RemapMeans | src/transport/dispatcher.rs:186-244 | for each of the fifteen requests: the caller of a `setconfig`, `sqlclose`, `exit`, `prepare_sql` or `gettracedata` reads a bare acknowledgement as its own, that of a `getdbjob` reads a connect-shaped frame as its own, and everything else stays |
| Correlation.MissingColumnsExactly | src/transport/dispatcher.rs:145-152 | exactly which decode errors are reported as missing columns; any other reaches its caller as it is |
| Correlation.UnknownTypeMisread | src/transport/dispatcher.rs:145-152 | a frame of unknown `type` is reported as missing columns exactly when its `type` contains the text of that error |
| Dispatcher.Task.constructor | src/transport/dispatcher.rs:127-133 | a fresh dispatcher is the initial state |
| Dispatcher.Task.Send | src/transport/dispatcher.rs:81-102 | enqueues, or answers `Closed` when the loop is gone |
| Dispatcher.Task.DrainPending | src/transport/dispatcher.rs:367-397 | the drain loop, entry by entry in any order of the map, does what the machine's single drain step does |
| Dispatcher.Task.OnFrame | src/transport/dispatcher.rs:332-350 | the frame branch does what the machine's receive step does |
| Dispatcher.Task.PollQueue | src/transport/dispatcher.rs:285-308 | the outbound branch is a write, or a failed write followed by drain and exit |
| Dispatcher.Task.PollFrame | src/transport/dispatcher.rs:317-351 | the inbound branch is a received frame, or bad JSON with drain and exit |
| Dispatcher.Task.PollError | src/transport/dispatcher.rs:352-355 | a stream error drains with that error and exits |
| Dispatcher.Task.PollEnd | src/transport/dispatcher.rs:356-360 | the peer's close drains with `Closed` and exits |
| Dispatcher.Task.PollExit | src/transport/dispatcher.rs:136-143 | losing all handles, and being aborted, end the loop without a drain |
| Dispatcher.Task.Live | src/transport/dispatcher.rs:275-365 | every run of the loop is a run of the state machine on the events its stimuli stand for |
| Dispatcher.StutterFree | src/transport/dispatcher.rs:282-283 | a run with events that could not happen is the feasible run of those that did |
| DecodeLaws.DecodeKeepsId | src/protocol/decode.rs:24-150 | a frame with a string id decodes, if at all, to that id; a frame without one decodes exactly when it has one of the coercing shapes, and then to the empty id |
| TaggedRoundTrip.TaggedRoundTrip | src/protocol/decode.rs:152-277 | for every response, decoding its tagged encoding gives it back up to present `null`s, and gives exactly it if and only if there is none |
| TaggedRoundTrip.QueryReadsBack | src/protocol/response.rs:216-275 | the same for the body of a page, all fourteen fields |
| Spellings.FrameRespelled | src/protocol/response.rs:193-198 | for every frame, tagged or not, decoding gives the same whether the SQL code and the SQL state go by `sqlcode` and `sqlstate` or by `sql_rc` and `sql_state` |
| Spellings.BothNamesFail | src/protocol/response.rs:583-588 | an error or a page that gives one of them under both names is not decoded |
| Spellings.PageDefaults | src/protocol/response.rs:217-244 | any page means what it would mean with each field it leaves out spelled as its default |
| Spellings.ErrorDefaults | src/protocol/response.rs:579-595 | the same for the text and the job of an error |
| Spellings.MetaDataDefaults | src/protocol/response.rs:342-357 | the same for what describes a result set |
| Spellings.ColumnDefaults | src/protocol/response.rs:361-380 | the same for a column |
| Spellings.ParameterDefaults | src/protocol/response.rs:398-456 | the same for parameters before and after a call |
| Spellings.AckDefaults | src/protocol/decode.rs:290-344 | the same for a version, a preparation time and a trace, which may also be `null` |
| Spellings.IntegralTime | src/protocol/response.rs:233-234 | a time spelled as an integer means the same number |
| Spellings.DoveSpellings | src/protocol/decode.rs:257-270 | an explain tree may go by `result`; one under `vedata` comes first |
| Spellings.UntaggedShapes | src/protocol/decode.rs:33-150 | which shape any untagged frame has, by its keys, whatever others it has |
| Positions.ColumnByPosition | src/protocol/response.rs:361-380 | a column spelled as an array is the record with the items as its fields in order, those left over missing |
| Positions.MetaDataByPosition | src/protocol/response.rs:342-357 | the same for what describes a result set |
| Positions.ParameterDetailByPosition | src/protocol/response.rs:398-414 | the same for a parameter before a call |
| Positions.ParameterResultByPosition | src/protocol/response.rs:434-456 | the same for a parameter after a call |
| Positions.ClMessageByPosition | src/protocol/response.rs:464-475 | the same for a message of the job log |
| Positions.TooManyFail | src/protocol/response.rs:342-475 | an array with more items than the record has fields is not decoded |
| LiveDialect.PageHeard | src/protocol/decode.rs:24-150 | an untagged page decodes to the page with its defaulted end flag, whatever harmless keys surround it and by whichever names it spells its code and state |
| LiveDialect.SpelledPageHeard | src/protocol/response.rs:216-275 | for a page whose rows are spelled in any JSON, by whichever names, decoding gives the page they name or the first of their defects |
| LiveDialect.RespelledFailureHeard | src/protocol/response.rs:579-595 | a live failure is heard with its code and its state, by whichever names |
| LiveDialect.TersePageReachesCaller | tests/common/mock_server.rs:281-297 | for every request that is answered by a page: one answered to `terse: true` reaches its caller as with object rows exactly when it has no rows, or has columns whose names are the keys of each row |
| LiveDialect.LiveFrameDecodes | src/protocol/decode.rs:24-150 | each live frame, by whichever names and with any harmless extra keys, decodes to the shape it shares with others before the request is known |
| LiveDialect.LiveAnswerReachesCaller | tests/common/mock_server.rs:326-397 | for each of the fifteen requests and every live answer to it, by whichever names and with any extra keys that neither discriminate nor belong to the body, decoding and remapping give the variant its caller matches on, under the same id |
| LiveDialect.HeardIsSent | src/protocol/response.rs:253-259 | the payload heard is the payload sent exactly when it has no present `null`, no empty `cont_id`, and is last, part of a result set, or has rows |
| LiveDialect.BareAckReachesCaller | src/transport/dispatcher.rs:224-241 | a bare acknowledgement reaches the caller of each of the fifteen requests as what it acknowledges; a preparing caller gets an empty handle and a trace reader an empty buffer |
| EndToEnd.LiveReplyReachesCaller | src/transport/dispatcher.rs:332-339 | when the first decision on a waiting request is the live daemon's answer to it, its caller holds exactly the variant that this request awaits, or the error with its code and state |
| EndToEnd.TaggedReplyReachesCaller | src/transport/dispatcher.rs:332-339 | the same for tagged frames: the response itself, unless it is a bare acknowledgement |
| EndToEnd.CollectionOverConnection | src/query.rs:866-949 | on a connection with arbitrary other traffic, if each `sqlmore` of a result set is first decided by its live page, with object rows, array rows or both, collecting their replies gives the rows of all pages in order and has sent just those requests |
| EndToEnd.LivePageOpensCursor | src/query.rs:582-594 | whatever statement opened it: a live opening page, terse or not, opens a cursor exactly when it is not the last page of a result set; an update never does |
| EndToEnd.LiveFailureOpensNothing | src/job.rs:493-501 | a live failure of an opening request is its caller's error, with the daemon's code and state |
| EndToEnd.LivePrepareGivesHandle | src/job.rs:637-652 | a live reply to a prepare gives the statement the daemon's handle, and its drop closes exactly that |
| EndToEnd.BareAckPreparesLocally | src/job.rs:653-661 | a bare acknowledgement gives a statement kept client-side, whose drop sends nothing |
| NamedRows.NamedRowsFromWire | src/protocol/response.rs:297-338 | the naming loop computes the named rows or the first defect |
| NamedRows.NamedReportsLeastDefect | src/protocol/response.rs:297-338 | naming fails exactly when some row is malformed and reports the least such row |
| NamedRows.TerseAgreesWithObjects | src/protocol/response.rs:306-331 | any mixture of array rows and object rows decodes to the same rows, except array rows without any columns |
| Protocol.QueryBody.CursorHandle | src/protocol/response.rs:284-290 | there is no handle exactly when id and `cont_id` are both empty or absent; a handle is never empty |
| ParameterSets.RoundTripBoundary | src/protocol/request.rs:374-411 | a batch survives the wire exactly unless it is one set that is empty or holds only arrays |
| ParameterSets.FlatSetOfArraysIsLost | src/protocol/request.rs:385-411 | what such a set turns into, which is never the set itself |
| ParameterSets.FlatAndNestedAgree | src/protocol/request.rs:385-411 | one set is always written flat, although the flat and the nested form of it mean the same exactly when the set holds something that is not an array |
| ParameterSets.SerializeInjectiveOnPlain | src/protocol/request.rs:374-383 | batches that survive have distinct wire forms |
| Codec.IdAllocator.constructor | src/protocol/codec.rs:21-47 | the prefix is the hexadecimal text of four little-endian clock bytes and two process-id bytes |
| Codec.IdAllocator.Next | src/protocol/codec.rs:50-53 | issues prefix, dash and the count, and counts on modulo 2^64 |
| Codec.PrefixShape | src/protocol/codec.rs:37-42 | a prefix is always twelve hexadecimal digits |
| Codec.PrefixReads | src/protocol/codec.rs:25-42 | its digits, read back, are the bytes of the sub-second nanoseconds and the low two of the process id, the least significant first |
| Codec.IssuedReads | src/protocol/codec.rs:50-53 | an issued id is its prefix, a dash, and its number modulo 2^64 in decimal without leading zeros |
| Codec.PrefixesCollide | src/protocol/codec.rs:25-42 | two allocators share a prefix exactly for equal sub-second nanoseconds and process ids equal modulo 2^16 |
| Codec.IssuedIdsCollide | src/protocol/codec.rs:50-53 | two ids are equal exactly when their prefixes are and they were issued a multiple of 2^64 apart |
| Paging.StepKept | src/query.rs:866-949 | every act on a cursor keeps: what was sent is the `sqlmore` requests in order and then at most the one close, and a held cursor has seen no last page |
| Paging.CloseLaw | src/query.rs:109-122 | for every daemon, number of polls, cancellation and drop point: after the last drop there is one close, which names the cursor, exactly if a cursor was opened and no page that arrived was the last |
| Paging.DroppedAnywhere | src/query.rs:1102-1116 | dropping the rows or the stream ends the cursor at any point, a poll that waits included, with one close exactly if it is owed |
| Paging.ClosedOnce | src/query.rs:1102-1116 | counted: never two closes, nothing after a close, a close names the opening cursor both in its id and as its cursor, and each `sqlmore` has its own stream id, the opening cursor and the opening page size |
| Paging.PollFails | src/query.rs:909-945 | a reply that is not the page asked for yields the error it stands for and leaves the cursor held |
| Collecting.NoSilentTruncation | src/query.rs:1096-1099 | a collection that completes returns the rows of every page that arrived, in order, having asked exactly for those; its last page was marked last exactly unless the opening reply gave no cursor to go on with |
| Collecting.ServedResultSet | src/query.rs:866-949 | from a daemon with pages p0 .. pn the collection gets all rows and sends exactly n `sqlmore` and nothing else |
| Query.ExecuteOptions.ResolvedRows | src/query.rs:66-72 | the page size asked for is sent, 100 if none is; only an explicit zero is refused |
| Query.RefusedExactly | src/job.rs:566-569 | an empty batch is refused before a zero page size, and nothing else is refused before sending |
| Query.StatementReachesDaemon | src/job.rs:476-491 | an opening request runs the statement by its handle or its text, and delivers the parameter sets exactly unless there is one set that is empty or holds only arrays |
| Query.OpenedExactly | src/job.rs:492-501 | a result set is opened exactly by a page under the id that was sent, and every other reply is the error it stands for |
| Query.PreparedExactly | src/job.rs:637-664 | a statement is prepared exactly by an acknowledgement under the id that was sent, and has exactly the handle that one gives |
| Query.TrafficFollowsOpening | src/job.rs:467-502 | everything sent for a result set names its opening request and uses the page size that request asked for |
| Query.ExecuteIsWhole | src/job.rs:493-501 | behind the id check of an execute, a completed collection always has its last page |
| Query.Rows.constructor | src/query.rs:582-594 | takes the cursor unless the first page is the last |
| Query.Rows.Drop | src/query.rs:1102-1116 | closes the cursor if it still owns one |
| Query.Rows.IntoStream | src/query.rs:866-888 | hands cursor and first page over and closes nothing |
| Query.StreamState.Next | src/query.rs:889-947 | one poll is one step of the cursor machine, with the item it yields |
| Query.StreamState.Drop | src/query.rs:109-122 | closes an open cursor unless a last page was seen |
| Query.StreamState.DropInFlight | src/query.rs:901-908 | dropping a poll that waits leaves its request sent and closes the cursor |
| Query.StreamState.TryCollect | src/query.rs:1096-1099 | the collecting loop computes the specified collection |
| Query.PreparedQuery.Drop | src/query.rs:488-496 | sends a close that names the handle the daemon gave, and nothing else |
| Connection.ConnectionIdsDistinct | src/query.rs:512-520 | over every interleaving of calls, pages, drops and prepared statements, ids on one connection are pairwise distinct if and only if no allocator issues more than 2^64, the allocators in use were made at different sub-second times, and closed handles differ from each other and from closed cursors' opening ids |
| Connection.TrafficNamesItsCursor | src/query.rs:512-520 | over every interleaving, each `sqlmore` and close of a result set names the request that opened it on this connection, and each close of a statement names its own handle |
| Connection.SharedClockRepeatsId | src/query.rs:878 | any two allocators in use that were made at one sub-second time repeat an id, the job's and a stream's or two streams' |
| Connection.MoreRepeatsOpening | src/query.rs:900-907 | over every interleaving, a `sqlmore` repeats the id of its result set's opening request exactly when their allocators were made at one sub-second time and it has the same number modulo 2^64 |
| Connection.FirstMoreRepeatsId | src/transport/handshake.rs:111-112 | request 0 is the handshake's, and with a shared clock the very first `sqlmore` repeats its id, not that of the opening request |
| Connection.ConnectionKeepsCount | src/transport/dispatcher.rs:303-307 | whichever of those requests reach the dispatcher, in any order and whatever else happens to it, it works on distinct ids and the counter law holds |
| Routing.TopKUnique | src/pool/routing.rs:84-85 | the list of the k best routable jobs is unique, so the scan's result is determined |
| Routing.PickIsGlobalBest | src/pool/runtime.rs:108-113 | the cut to eight candidates loses nothing: the earliest registered job of globally least count is found exactly when that count is below 32 |
| Routing.FirstIdle | src/pool/routing.rs:45-60 | the first job with one reference and nothing outstanding, or none |
| Registry.Registry.Track | src/pool/routing.rs:22-25 | appends to the registry, and keeps it free of repetition for a job not yet in it |
| Registry.Registry.PeekIdle | src/pool/routing.rs:41-61 | finds the first idle job, prunes exactly the dead entries in order, and keeps one reference to the job it returns and none to the others |
| Registry.Registry.LeastBusy | src/pool/routing.rs:71-86 | returns the stable ascending best jobs that are alive and not reserved, pruning likewise |
| Registry.Registry.PickUnsaturated | src/pool/runtime.rs:108-113 | the first of the candidates ranked by the scan that is below the threshold when the counters are reread, whatever traffic did in between; only its reference is kept |
| Routing.MovingScan | src/pool/runtime.rs:110-112 | however counters move between ranking and filtering, the choice was alive and not reserved, and is not saturated or reserved by then |
| Routing.MovingRoute | src/pool/runtime.rs:215-259 | whatever moves between the tiers: the idle tier is exact for what it saw, a scanned job has room, and a call queues past a job with room only if a whole list of candidates ranked before it has become saturated meanwhile |
| Routing.FrozenRoute | src/pool/runtime.rs:215-259 | when nothing moves, a routed call takes the first idle job, else the globally best unsaturated one, else it queues |
| Routing.FrozenScan | src/pool/runtime.rs:108-113 | when no counter moves, the choice is the globally best job or none |
| Registry.Registry.Choose | src/pool/runtime.rs:215-259 | the three tiers in order, while other callers change references and counters between them; it keeps one reference to the job it chose and none to the others |
| PoolRegistry.PeekIdle | src/pool/routing.rs:41-61 | in every reachable pool, scanning the registry for an idle job finds the pool's idle pick and leaves the two in step |
| PoolRegistry.PickUnsaturated | src/pool/runtime.rs:108-113 | likewise picking the least busy unsaturated job is a call that joins it |
| PoolRegistry.Track | src/pool/manager.rs:45-51 | likewise tracking a job just made |
| Occupancy.IdlePickLaw | src/pool/runtime.rs:215-260 | over every run of picks, queueing, reservations, returns and losses: a picked job is used by another running user if and only if its owning reference is not in the slot |
| Occupancy.IdleTierExclusive | src/pool/runtime.rs:215-226 | over all interleavings at most one running call has a job through the idle tier while the pool has the job, and never more than two have any |
| Occupancy.RunKeepsRoles | src/pool/runtime.rs:215-260 | over every run nobody rides, waits and holds an object at once, or holds two |
| Occupancy.RideUses | src/pool/runtime.rs:215-248 | in every reachable pool a routed call joins the users of one living job and leaves them when it has finished, and changes nothing about other jobs |
| Occupancy.ServedUses | src/pool/runtime.rs:259-260 | a call the fair queue serves takes the job's owning reference, and joins those who use it |
| Occupancy.ReturnedUses | src/pool/runtime.rs:259-260 | giving an object back ends its holder's use of the job and nobody else's |
| Occupancy.CreatedUses | src/pool/manager.rs:45-51 | a job that is made is registered and used by the one it was made for alone |
| Occupancy.WaitingLasts | src/pool/runtime.rs:259 | who wants an object waits until it has one or gives up |
| Occupancy.CountedOnly | src/transport/dispatcher.rs:303-336 | traffic changes a job's counter and nothing about who uses it |
| Occupancy.ImpossibleStutters | src/pool/routing.rs:41-61 | nobody who is on a job gets another, no dead job is joined, and only a job in its slot is served |
| Occupancy.LostUses | src/pool/runtime.rs:749 | when the pool lets go of a job its riders keep it, and a user that was just given it waits again |
| Occupancy.QueuedCallIsJoined | src/pool/runtime.rs:259-260 | in a cold pool a call served by the fair queue shares its job with the next call, which finds it idle |
| Occupancy.ReapedJobIsShared | src/pool/runtime.rs:749 | two do when the pool drops the connection between their picks |
| Reserved.FirstWordIs | src/pool/reserved.rs:304 | the first word is what stands between leading white space and the next white space |
| Reserved.MarksAre | src/pool/reserved.rs:303-313 | a statement begins a transaction exactly if its first word is BEGIN, and ends one exactly if it is COMMIT or ROLLBACK, letter by letter in either case, between any of the 25 white-space characters |
| Reserved.HistoryLaw | src/pool/reserved.rs:180-257 | after any tracked calls the state is Started exactly when the last successful statement whose first word is BEGIN, COMMIT or ROLLBACK in any case says BEGIN, NotStarted exactly when there is none |
| Reserved.FarewellLaw | src/pool/reserved.rs:337-354 | dropping sends one ROLLBACK exactly when opted in and that last statement is a BEGIN |
| Reserved.Reserved.constructor | src/pool/reserved.rs:93-105 | stores the sentinel and starts a history |
| Reserved.Reserved.Execute | src/pool/reserved.rs:180-187 | observes a statement only after it succeeded |
| Reserved.Reserved.Drop | src/pool/reserved.rs:323-372 | spawns the rollback owed and stores zero |
| Reserved.HeldJobVisibility | src/pool/routing.rs:79-81 | a held job is visible to the scans exactly when its pending count differs from that at reservation, and looks idle exactly with one more, modulo 2^32 |
| Reserved.ReleasedJobVisibility | src/pool/reserved.rs:366-370 | after release the count is exact if and only if nothing was pending; it reads as reserved exactly when one fewer is pending than at release |
| Reserved.HeldJobIsPicked | src/pool/reserved.rs:366-369 | wherever a connection with nothing outstanding is reserved, the idle scan takes the job while its first request waits |
| Reaper.Period | src/pool/runtime.rs:709-716 | no sweep for a zero timeout, otherwise a quarter of it, but one second below 4 s and one minute above 4 min |
| Reaper.Sweeper.Sweep | src/pool/runtime.rs:734-760 | the loop computes the specified sweeps, whatever is checked out, returned and used in between |
| Reaper.SweptAre | src/pool/runtime.rs:749 | after any number of sweeps the pool has exactly the connections that no sweep found in the slots with too old a ping |
| Reaper.DroppedAre | src/pool/runtime.rs:749 | and exactly the others were dropped, each at the first sweep that found it so |
| Reaper.SeenIs | src/pool/builder.rs:100-105 | what any checkouts, returns and routed calls leave: the last ping is the latest checkout, the last other use the latest return or routed call, and the connection is out exactly if a checkout has not been followed by a return |
| Reaper.AgeBounds | src/pool/runtime.rs:749 | over all checkouts, returns and routed calls, spanning sweeps or not: none is dropped with a checkout within the timeout before, and one is dropped before it is a period older exactly if it was not due when the sweeps began and was in the slots at the first sweep at which it was due |
| Reaper.DroppedOnSight | src/pool/runtime.rs:749 | a dropped connection had been out of the slots at every sweep since it was due |
| Reaper.HeldAcrossSweeps | src/pool/runtime.rs:749 | one that stays out is dropped at whichever sweep first finds it back, if it is due by then, with no bound on its age |
| Reaper.UnusedWhenDropped | src/pool/builder.rs:100-105 | a dropped connection had been unused in every way for the whole timeout exactly if no routed call and no return fell within it |
| Reaper.RoutedDropsThen | src/pool/builder.rs:100-105 | a connection that nobody checks out is dropped at its removal sweep, whatever calls are routed to it |
| Reaper.DroppedRightAfterUse | src/pool/runtime.rs:215-220 | so for every timeout and period a connection can be dropped a nanosecond after a routed call |
| Reaper.WorstCase | src/pool/runtime.rs:749 | the upper bound is reached to the nanosecond |
| Reaper.QuarterBound | src/pool/runtime.rs:701-716 | however connections are used, the documented 1.25 bound holds, for those in the slots when they come to be due and not due before the sweeps, exactly when the timeout is at least 4 s less 4 ns |

## Left out

- TLS, TCP, the WebSocket upgrade and framing, and the Connect handshake's error mapping: the connection is a source of events.
- Tokio's scheduler, wakers, and the capacities and back-pressure of its channels: interleaving is arbitrary and the queue unbounded.
- JSON text: lexing, UTF-8, number formatting and duplicate keys; frames start as JSON values. Floats are reals, so the rounding of integers read as floats is not modelled.
- Decode.DecodeValue: the field-level messages of failed decodes are one error, `Shape`, so the text match for missing columns (src/transport/dispatcher.rs:145-152) is modelled for an unknown `type` and for a row that is a string, not for a field-level message that quotes the text.
- Query.StreamState.Drop: the spawned close counts as issued; without a runtime, or with the job gone, the real one may not reach the daemon. A result set whose opening call was cancelled has no owner and is outside the close law, as it is in the code.
- Reserved.Reserved.Execute: only tracked calls are part of the history; calls through the underlying job bypass it (src/executor.rs:185-204). The rollback is returned as spawned, not ordered against the counter's reset.
- Registry.Registry.LeastBusy: the counters are frozen while one scan reads them. The library's stable sort is an insertion sort here.
- Registry.Registry.Choose: no job is made between its two scans, and the references other callers hold do not change within the second; the pool's state machine takes each scan as an event of its own, with anything in between.
- Query.StatementReachesDaemon: how a daemon reads the parameter sets is not in the repository; the client's own reader of that field stands in for it.
- Occupancy.IdlePickLaw: one owning reference per job, in the pool's slot or the checked-out object, is an assumption about deadpool. That the scan ranks what it joins is the registry's part; here it may join any job that is alive.
- Reaper.Sweeper.Sweep: ticks are ideal multiples of the period, and the order in which the slots hold connections is not kept.
- deadpool's queueing, recycling and acquire timeout, builders, passwords, metrics, tracing, error display, `FromRow`, and the one-request methods of `Job`: they add thin wrappers only.
