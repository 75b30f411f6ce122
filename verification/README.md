# GameTrace: a verified model of its protocols and transformations

GameTrace captures the traffic of a game, decodes it through plugin processes and stores and queries the
result. This project models the parts where that is hard to get right and proves what they keep, over every
input, every run or every reachable state. `dafny verify dfyconfig.toml` checks all of it.

| file | models |
|---|---|
| `PluginRegistry.dfy`, `Lanes.dfy`, `RegistryRuns.dfy`, `RegistryServer.dfy` | the plugin registry: `Register` and `Connect` arriving in any order, two FIFOs per owner that pair them, replacement, deregistration, reaping, disconnection, lookups |
| `Tunnel.dfy` | one reverse tunnel session multiplexing logical streams: receive loop, callers, watchers, consumers |
| `Dispatcher.dfy` | the decode dispatcher: requests in flight and their futures; the causation index |
| `PendingQueue.dfy`, `CapturePipeline.dfy` | the byte-bounded overflow queue, the capture loop, the decode worker and its window |
| `CaptureGate.dfy` | the agent's capture switch and the connections that report through it |
| `SegmentFile.dfy`, `Spool.dfy`, `Ingest.dfy` | the bytes of a segment file, the agent's disk queue over such files, the upload client over the queue |
| `PortRange.dfy`, `Leases.dfy` | the port allocator and the life cycle of proxy leases over three port pools |
| `FilterPaging.dfy` | pushing a filter down to SQL, batched filtering, paging |
| `Timeline.dfy`, `Pairing.dfy` | the causal forest of a session; pairing requests with responses |
| `Aggregation.dfy`, `EventIds.dfy`, `ValueCodec.dfy` | windowed aggregation, UUID version 7, the value codec |
| `Util.dfy` | lists, counting, decimal digits |

How it is modelled. Code that runs in several goroutines is a state machine: every section under a lock, every
channel operation and every branch of a select is one step, and a run is any sequence of steps that are enabled.
Histories (what was registered, captured, sent, offered) are kept next to the real fields, and work taken out of
a table but not finished is an explicit obligation of whoever holds it. Objects that are updated under one lock
are classes whose methods are proved against a function on their value, and the run lemmas speak about those
functions. Clocks, random bytes, network and disk outcomes are inputs of the steps and methods.

Where the code does not do what one would hope, there is a lemma with a concrete case and a lemma that says exactly
when it happens:

- a logical stream is lost when its 32-bit id comes round again (`Tunnel.WrapLosesStream`); after close a stream is
  unfinished exactly if it was displaced so and its caller never cancelled (`Tunnel.UnfinishedExactly`), and none is
  displaced within 2^32 streams (`Tunnel.NobodyLeftWaiting`);
- a stale snapshot declares a connection a second time (`CaptureGates.StaleSnapshotReopens`); how often is exact
  (`CaptureGates.OpensPerStretch`);
- `Append` reports an error for a record it has stored when the flush after it fails, against its own comment
  (`Ingest.FlushFailureCountsStoredPacket`); the counts are exact in `Ingest.Uploader.Run`;
- a segment can be deleted while `cursor.json` still points into it, and then the queue cannot be reopened
  (`Spools.CleanupOutrunsCursor`); which confirmations do that is `Spools.AckMakesUnopenable`;
- a record of length 0 is taken for a broken one when the queue is opened, and it and what follows are lost
  (`SegmentFiles.EmptyRecordHidesRest`): opening finds everything exactly if there is none (`SegmentFiles.ScanComplete`, `Spools.RecoveryFindsAll`);
- a write that fails part way leaves bytes behind, and the records after it are not where the index has them
  (`SegmentFiles.TornWriteMisplaces`); exactly then (`SegmentFiles.PlacedExactly`);
- overlapping captures on one lease lose a port for good (`Leases.OverlapLosesPort`, reached in
  `Leases.OrphanHappens`): a commit loses one exactly if its lease is done with or capturing already
  (`Leases.CommitOrphansExactly`), and runs whose starts are serial on each lease lose none
  (`Leases.SerialNeverMisses`);
- a port returned between the two allocations of a create hands out agent port 0 (`Leases.ReturnBetweenGivesZero`,
  reached in `Leases.ZeroHappens`): exactly if the agent ports were exhausted at the first allocation and a control
  port is free at the second (`Leases.ZeroExactly`);
- `protocol == ""` is taken for a complete SQL filter and matches everything
  (`FilterPaging.EmptyConstantReportsAll`); exactly the empty constant does (`FilterPaging.PureExact`);
- an answer behind one outside the window is never looked at (`Pairing.OutOfOrderStaysUnpaired`): in any order a
  request stays unpaired exactly if it has no candidate by name and the first answer after it is outside the window
  (`Pairing.UnpairedExactly`);
- a `|` in a group value merges groups (`Aggregation.BarMergesGroups`): a group can be mistaken for another exactly if
  it has two values or more and a bar in one (`Aggregation.KeyTellsApart`, `Aggregation.GroupTotalsExact`);
- a counter rollover puts ids ahead of a steady clock (`EventIds.RolloverOutrunsSteadyClock`); the ids of a run sort as
  strings exactly if the clock keeps up with the stored millisecond (`EventIds.IdsRiseIffClockKeepsUp`).

The registry's keys `owner/name` are told apart by the names alone, which manifest validation keeps to kebab-case: the
owner may hold any character, although the comment at pkg/plugin/manager.go:146-147 forbids it a slash
(`PluginRegistry.PluginKeyInjective`). With such names no dead id is ever left in a queue (`RegistryRuns.NoDeadIds`); what
a name with a slash would do is `RegistryRuns.SlashLeavesDeadId`, and exactly when is
`RegistryRuns.ReplacementLeavesDeadId`.

## Model

| member | source | states |
|---|---|---|
| `RegistryRuns.PairingSafe` | pkg/plugin/tunnel.go:541-629 | in every reachable state no owner has both queues non-empty, bindings are one-to-one and rise through both the registration and the connect order, every bound tunnel is its own binding's, no tunnel is shared |
| `RegistryRuns.TablesSound` | pkg/plugin/manager.go:275-303 | in every reachable state `byName` and `plugins` are inverse, each awaiting queue lists exactly its owner's unbound tunnel instances, each once |
| `RegistryRuns.OfflineForever` | pkg/plugin/manager.go:349-463 | a tunnel instance that went offline is never online again, whatever follows |
| `RegistryRuns.RegisterBindsItself` | pkg/plugin/manager.go:275-303 | if a registration binds a pending client, the instance bound is the one just registered |
| `RegistryRuns.LookupByName` | pkg/plugin/manager.go:534-616 | in every reachable state, for every owner and text: a full key finds the caller's own usable plugin of that key and nobody else's; a name finds the caller's own of that name, or the anonymous one when the caller has none |
| `RegistryRuns.LookupAmong` | pkg/plugin/manager.go:544-596 | for all owners, none included, and every text: lookup finds something exactly if one of them, or nobody, has a usable plugin the text asks for, and what it finds is such a one |
| `RegistryRuns.UsableIsFound` | pkg/plugin/manager.go:534-616 | in every reachable state a plugin that is online and has a client is found by its owner under its name |
| `RegistryRuns.RegistersExactly` | pkg/plugin/manager.go:271-303 | in every reachable state a registration removes just the owner's instance of that name and enters the new one, a dialled one online, a tunnel one online exactly if a pending client is alive and with the oldest such; all other plugins stay as they are |
| `RegistryRuns.ConnectsExactly` | pkg/plugin/tunnel.go:606-629 | in every reachable state a connect gives its client to the owner's oldest waiting instance, online from then on, or queues it behind the live ones; all other plugins stay as they are |
| `RegistryRuns.RunKeeps` | pkg/plugin/tunnel.go:541-663 | every run of registrations, connects, heartbeats, deregistrations, reaping, disconnections and close keeps the registry invariant |
| `RegistryRuns.ReplacementLeavesDeadId` | pkg/plugin/manager.go:278-289 | a registration leaves a dead id in a queue exactly if the key's present holder is a waiting tunnel instance of another owner |
| `RegistryRuns.NoDeadIds` | pkg/plugin/manager.go:218-289 | with the names validation lets through no reachable state has a dead id in a queue |
| `RegistryRuns.ClosedForGood` | pkg/plugin/manager.go:756-771 | once closed the registry stays empty in every run |
| `Lanes.AdmitKeeps` | pkg/plugin/tunnel.go:541-577 | one owner's lane stays ordered, one-to-one and half empty when an instance is queued and the next client bound |
| `Lanes.AttachKeeps` | pkg/plugin/tunnel.go:606-629 | the same when a client arrives and is bound or queued |
| `PluginRegistry.PluginKeyInjective` | pkg/plugin/manager.go:148-165 | keys with slash-free names determine owner and name, whatever is in the owners |
| `PluginRegistry.InstanceTextInjective` | pkg/plugin/manager.go:259 | the printed instance id determines name and number |
| `PluginRegistry.FirstBindable` | pkg/plugin/tunnel.go:559-577 | the position of the first waiting instance that still exists and has no client |
| `PluginRegistry.BindClientExactly` | pkg/plugin/tunnel.go:559-577 | field by field what binding a client does to the plugin bound, the queue and everything else |
| `PluginRegistry.CheckOfflineExactly` | pkg/plugin/manager.go:419-463 | a dialled plugin stays and is online exactly if it was and its last heartbeat is not older than the timeout; a bound tunnel stays and is online exactly if it was and its client is not closed; an unbound tunnel stays exactly within twice the timeout; nothing else changes |
| `PluginRegistry.DisconnectedExactly` | pkg/plugin/tunnel.go:637-663 | of a client's disconnection, plugin by plugin: those of the owner with a closed client go offline and keep all else, the rest is unchanged, closed clients leave the queue |
| `PluginRegistry.HeartbeatExactly` | pkg/plugin/manager.go:349-380 | only a known plugin that is no tunnel changes, and only its time and that it is online |
| `RegistryServers.RegistryServer.RemoveAwaitingLocked` | pkg/plugin/tunnel.go:592-600 | the loop removes exactly the first occurrence of the instance from its owner's queue |
| `RegistryServers.RegistryServer.BindClientToAwaitingLocked` | pkg/plugin/tunnel.go:559-577 | the pop loop binds the client to the first bindable instance and drops the dead ids before it |
| `RegistryServers.RegistryServer.PruneTunnelPending` | pkg/plugin/tunnel.go:580-588 | the clients not closed, in order |
| `RegistryServers.RegistryServer.BindNextTunnelLocked` | pkg/plugin/tunnel.go:541-555 | prune, then bind the oldest pending client |
| `RegistryServers.RegistryServer.Register` | pkg/plugin/manager.go:271-303 | refused after close; otherwise replaces the instance of the same key, enters the new one and tries to bind it |
| `RegistryServers.RegistryServer.BindTunnelClient` | pkg/plugin/tunnel.go:606-629 | binds the oldest waiting instance or queues the client |
| `RegistryServers.RegistryServer.TunnelDisconnected` | pkg/plugin/tunnel.go:637-663 | exactly the owner's tunnel instances with a closed client go offline, all else about them unchanged, and closed clients leave the queue |
| `RegistryServers.RegistryServer.Heartbeat` | pkg/plugin/manager.go:349-380 | an unknown instance is refused, a tunnel's heartbeat changes nothing, any other plugin is renewed and online and nothing else changes |
| `RegistryServers.RegistryServer.Deregister` | pkg/plugin/manager.go:383-411 | takes the instance out of both tables and the queue |
| `RegistryServers.RegistryServer.CheckOffline` | pkg/plugin/manager.go:419-463 | the one-by-one scan, in any order, ages and reaps all instances at once: each stays, and stays online, exactly by its own last heartbeat or client |
| `RegistryServers.RegistryServer.Close` | pkg/plugin/manager.go:756-771 | empties everything and refuses from then on |
| `RegistryServers.RegistryServer.FindByKey` | pkg/plugin/manager.go:598-616 | the first registered key decides; its plugin is returned only if usable and anonymous or the caller's |
| `RegistryServers.RegistryServer.FindByKeyAllowed` | pkg/plugin/manager.go:574-594 | the first key with a usable plugin decides; another owner's is refused |
| `RegistryServers.RegistryServer.FindFor` | pkg/plugin/manager.go:488-519 | returns a visible plugin answering to the hint, and none only if there is none |
| `RegistryServers.RegistryServer.AmongCandidates` | pkg/plugin/manager.go:554-570 | every candidate key of every owner, once, and the owners allowed |
| `RegistryServers.RegistryServer.FindByNameFor` | pkg/plugin/manager.go:534-542 | in every reachable registry the method returns the caller's own usable plugin the text asks for, the anonymous one of the name if the caller has none, and nothing otherwise |
| `RegistryServers.RegistryServer.FindByNameAmong` | pkg/plugin/manager.go:544-552 | the lookup among owners over their candidate keys, anonymous when there are none |
| `Tunnel.NobodyLeftWaiting` | pkg/plugin/tunnel.go:220-281 | in every interleaving an unfinished stream is in the table, owed a finish or displaced by an id reuse; after close the table is empty and every other stream finished; no displacement within 2^32 streams |
| `Tunnel.UnfinishedExactly` | pkg/plugin/tunnel.go:220-281 | after the session stopped a stream is unfinished exactly if it was displaced and its watcher has not finished it: displaced and never cancelled, once the watcher had its turn |
| `Tunnel.ClosedForever` | pkg/plugin/tunnel.go:351-401 | once closed the table stays empty and no stream is added |
| `Tunnel.FinishedOnce` | pkg/plugin/tunnel.go:323-334 | a finished stream keeps its first verdict whichever of end, abort, cancel and close come after |
| `Tunnel.EndsAsTold` | pkg/plugin/tunnel.go:193-334 | in every run, told from the operations alone: a stream ends with the verdict of whoever finished it first; one met by an end frame or a failure has that frame's error once the receive loop let go of it, unless its cancelled watcher was first; `Recv` reports a clean end only if the end frame carried no error, and after all responses |
| `Tunnel.RecvReturns` | pkg/plugin/tunnel.go:439-489 | wherever `Recv` looks, it returns the oldest response if there is one |
| `Tunnel.RecvReports` | pkg/plugin/tunnel.go:439-489 | on a finished stream without responses left it reports the end: EOF without an error, the error otherwise |
| `Tunnel.RecvCancelled` | pkg/plugin/tunnel.go:439-489 | when the caller cancels while waiting it reports the end if there is one by then, and otherwise fails |
| `Tunnel.WatcherCourse` | pkg/plugin/tunnel.go:375-401 | a watcher of a finished stream ends; one whose caller cancelled finishes the stream if nobody has, takes it out of the table and ends, and touches no other entry |
| `Tunnel.LoopReturns` | pkg/plugin/tunnel.go:174-259 | the receive loop is never stuck: it enqueues exactly when there is room, drops exactly when the stream is finished, can always time out, and then owes at most one finish |
| `Tunnel.CleanEndHappens` | pkg/plugin/tunnel.go:439-489 | a run in which a response and a clean end reach the caller |
| `Tunnel.CleanEndDeliversAll` | pkg/plugin/tunnel.go:439-489 | when `Recv` has returned EOF the responses it returned are exactly the frames routed to the stream, in order; without cancel or error it never fails; which verdict a stream has is `Tunnel.EndsAsTold` |
| `Tunnel.RunKeeps` | pkg/plugin/tunnel.go:439-489 | the session invariant holds in every run |
| `Tunnel.WrapLosesStream` | pkg/plugin/tunnel.go:351-401 | after 2^32 further ids a live stream's table entry is overwritten and close never finishes it |
| `Dispatcher.FuturesResolvedOnce` | pkg/decode/dispatcher.go:188-278 | in every run a future is resolved at most once, after close and hand-offs exactly once, and a success holds exactly the responses with its own id between submission and final response, in order; which outcome it is is `Dispatcher.OutcomeDue` |
| `Dispatcher.OutcomeDue` | pkg/decode/dispatcher.go:188-278 | in every run, told from the operations alone: with no hand-off in progress a request is resolved exactly if an outcome is due, and with that: its own responses up to the first final one if that came before Close, else a stream failure if the stream failed while it was pending, else Closed after Close |
| `Dispatcher.OneDue` | pkg/decode/dispatcher.go:188-278 | no request is due two outcomes |
| `Dispatcher.Drains` | pkg/decode/dispatcher.go:188-278 | from every state of a run it can be closed and its hand-offs finished, so that every future is resolved |
| `Dispatcher.OutcomesHappen` | pkg/decode/dispatcher.go:188-278 | each of the three outcomes happens in some run |
| `Dispatcher.RunKeeps` | pkg/decode/dispatcher.go:345-361 | every future is in exactly one place in every run |
| `Dispatcher.CausationIndex.Put` | pkg/decode/dispatcher.go:71-84 | the first id of an input stays, only the latest inputs are kept |
| `Dispatcher.CausationIndex.Get` | pkg/decode/dispatcher.go:87-92 | finds exactly the inputs kept |
| `PendingQueues.FitIsLongest` | cmd/gt-pipeline/pending_decode.go:73-80 | what stays fits the byte limit or is one packet, and keeping one more would not have fitted |
| `PendingQueues.PendingQueue.Push` | cmd/gt-pipeline/pending_decode.go:73-80 | appends, drops the oldest until it fits, counts the drops, keeps the byte count exact |
| `PendingQueues.PendingQueue.PopHead` | cmd/gt-pipeline/pending_decode.go:61-68 | removes the oldest and its bytes |
| `PendingQueues.PendingQueue.HeadOr` | cmd/gt-pipeline/pending_decode.go:53-58 | the oldest packet of queue and fallback together |
| `CapturePipeline.CaptureOrderKept` | cmd/gt-pipeline/capture_task.go:384-409 | in every run what was put into the decode channel, then the overflow queue, then the packet in hand are the captured packets in order minus the counted drops and the replays given up; at most 16 in flight |
| `CapturePipeline.BatchesInOrder` | cmd/gt-pipeline/capture_task.go:457-508 | under every swap of the decoder each stage has handled a prefix of what the one before passed on, and batches come out in capture order; what is passed on is `CapturePipeline.SkippedExactly` |
| `CapturePipeline.SkippedExactly` | cmd/gt-pipeline/capture_task.go:457-508 | in every run, with attachment read off the operations: a packet is skipped exactly if its submit was made without a decoder or failed, and settled without a batch exactly if no events came |
| `CapturePipeline.NothingSkipped` | cmd/gt-pipeline/capture_task.go:487-500 | a decoder attached before the first submit and never detached, whose submits all succeed, skips nothing |
| `CapturePipeline.NothingQueued` | cmd/gt-pipeline/capture_task.go:384-409 | as long as a decoder is attached and has room whenever a packet comes, nothing is queued and nothing dropped |
| `CapturePipeline.FeedDecides` | cmd/gt-pipeline/capture_task.go:384-409 | a live packet is sent exactly if a decoder is attached, the queue empty and the channel not full; otherwise it is queued, and just the oldest that do not fit are dropped |
| `CapturePipeline.DrainEmpties` | cmd/gt-pipeline/capture_task.go:379-409 | a drain sends as many as there is room for, oldest first, and comes back |
| `CapturePipeline.AttachAndTickDrain` | cmd/gt-pipeline/capture_task.go:384-409 | an attach, and a tick while attached, empties a queue there is room for before anything else arrives |
| `CapturePipeline.FinishDrains` | cmd/gt-pipeline/capture_task.go:665-689 | so does the last drain |
| `CapturePipeline.ReplayWaits` | cmd/gt-pipeline/capture_task.go:665-684 | a replayed packet waits until there is room and all queued before it are sent |
| `CapturePipeline.PacketProcessed` | cmd/gt-pipeline/capture_task.go:457-508 | a run in which a captured packet is decoded and processed |
| `CapturePipeline.EveryPacketAccounted` | cmd/gt-pipeline/capture_task.go:665-689 | the captured packets, each occurring once, are the disjoint union of those dropped, given up, queued, decoding, skipped, failed and processed |
| `CapturePipeline.ReplayDropsNothing` | cmd/gt-pipeline/capture_task.go:665-684 | a pcap replay never uses the overflow queue and drops nothing |
| `CapturePipeline.RunKeeps` | cmd/gt-pipeline/capture_task.go:379-508 | both halves of the invariant hold in every run |
| `CapturePipeline.RetainOnFailure` | cmd/gt-pipeline/capture_task.go:141-154 | in place: the newest `max` entries move to the front in order, the rest is cleared, dropped plus kept is the length |
| `CaptureGates.SinkLogsWellFormed` | pkg/agent/agent.go:458-561 | in every interleaving, stale snapshots included, a sink gets only events of its own epoch, and per connection they begin with an open and have at most one close, last |
| `CaptureGates.OpensPerStretch` | pkg/agent/agent.go:521-542 | a connection opens an epoch once per separate stretch in which it entered it, so exactly once if epochs do not go back |
| `CaptureGates.RunKeeps` | pkg/agent/control.go:109-165 | the invariant of gate and connections holds in every run |
| `CaptureGates.StaleSnapshotReopens` | pkg/agent/agent.go:521-542 | a reachable state in which one connection opened one epoch twice |
| `CaptureGates.SentExactly` | pkg/agent/agent.go:458-561 | in every run the captures made and all a connection sent are those told from the operations, without the epoch and flag a connection keeps |
| `CaptureGates.OnlyAdmittedSent` | pkg/agent/agent.go:165-201 | no sink ever hears of a connection its capture's filter does not let through |
| `CaptureGates.EndsOnce` | pkg/agent/agent.go:546-561 | after an end that sent a close no end sends another |
| `CaptureGates.StartsExactly` | pkg/agent/control.go:109-150 | a start changes nothing if the address is blank, the same capture runs or the dial fails, and otherwise opens the next epoch with what was asked for |
| `CaptureGates.CaptureGate.Start` | pkg/agent/control.go:109-150 | a blank address is refused, a replay changes nothing, otherwise a new epoch with its own sink; the result tells which |
| `CaptureGates.CaptureGate.Stop` | pkg/agent/control.go:154-165 | no capture, the epoch stays |
| `CaptureGates.RelayConn.Begin` | pkg/agent/agent.go:521-542 | declares the connection once per epoch entered and returns the capture's sink if the filter admits it |
| `CaptureGates.RelayConn.End` | pkg/agent/agent.go:546-561 | a close only in the epoch that was opened |
| `Spools.AppendKeeps` | pkg/spool/queue.go:294-341 | storing keeps accounts, layout, files and cursor consistent and adds exactly the record |
| `Spools.AckKeeps` | pkg/spool/queue.go:433-458 | confirming never passes what was handed out, keeps every unconfirmed record on disk, and keeps fewer than 512 confirmations unwritten while cursor writes succeed |
| `Spools.StoredExactly` | pkg/spool/queue.go:294-341 | what is queued never exceeds the limit; a record is stored exactly if it fits and marshalling, rolling and writing succeed, behind the others (`Spools.StoredBehind`); otherwise only a roll before a failed write stays |
| `Spools.AckExactly` | pkg/spool/queue.go:433-495 | the smaller of what is asked for and what is in flight is confirmed, from the front; the cursor is written exactly if that makes 512 and the disk lets it; just the segments before the first unconfirmed record go |
| `Spools.RecoveryFindsAll` | pkg/spool/queue.go:176-290 | reopening succeeds exactly if the cursor's segment still exists; then, whatever half-written record a crash left, it finds every unconfirmed record, preceded by the confirmations not yet written, and goes on writing behind them, exactly if none of them has length 0, and otherwise stops at the first that has |
| `Spools.AckMakesUnopenable` | pkg/spool/queue.go:433-495 | a confirmation makes the queue impossible to reopen exactly if it confirms something, is not due to write the cursor, and moves the read position to a later segment than the cursor's |
| `Spools.WritingRepairs` | pkg/spool/queue.go:433-458 | once a confirmation writes the cursor the queue can be reopened |
| `SegmentFiles.ScanFindsRecords` | pkg/spool/queue.go:267-290 | whole records followed by a part of one are read back from the bytes record by record, up to the first of length 0, and the part is cut off |
| `SegmentFiles.ScanComplete` | pkg/spool/queue.go:267-290 | the scan finds all records exactly if none is empty |
| `SegmentFiles.ScanSegment` | pkg/spool/queue.go:267-290 | the loop over headers, with the place where it stops |
| `SegmentFiles.BlocksReadBack` | pkg/spool/queue.go:383-429 | every block of records read at its indexed place is the records written, as long as failed writes left no bytes |
| `SegmentFiles.PlacedExactly` | pkg/spool/queue.go:327-341 | a record is written where the index has it exactly if no failed write in its segment left a byte, and otherwise behind it by as many bytes as they left |
| `SegmentFiles.TornWriteMisplaces` | pkg/spool/queue.go:327-341 | after a write that failed part way the next record cannot be read back |
| `Spools.CleanupOutrunsCursor` | pkg/spool/queue.go:433-495 | a confirmed record's segment is deleted before the cursor moves on, and an unsent record cannot be recovered |
| `Spools.Queue.Append` | pkg/spool/queue.go:294-322 | when a record is stored and when success is reported |
| `Spools.Queue.Next` | pkg/spool/queue.go:383-429 | the longest run of at most n records of one segment from the read pointer, none on a read error |
| `Spools.Queue.AckN` | pkg/spool/queue.go:433-458 | at most the records in flight are confirmed, bytes and files follow |
| `Spools.Queue.Requeue` | pkg/spool/queue.go:462-466 | the read pointer returns to the first unconfirmed record |
| `Ingest.Uploader.SendAndAck` | cmd/gt-agent/ingest.go:223-237 | confirms exactly what was sent, and nothing when sending fails |
| `Ingest.Uploader.Receive` | cmd/gt-agent/ingest.go:180-192 | each packet is stored or counted, with the one overlap made explicit |
| `Ingest.Uploader.OnPacket` | cmd/gt-agent/ingest.go:180-209 | a batch in flight is topped up behind the new packet and stays below the batch size |
| `Ingest.Uploader.Fetch` | cmd/gt-agent/ingest.go:140-167 | refills from the first unsent record, sends a full batch at once, waits only with less than a batch |
| `Ingest.Uploader.Pass` | cmd/gt-agent/ingest.go:140-218 | every pass of the loop leaves as pending exactly the records from the first unconfirmed one to the read pointer, and ends a healthy stream only on cancellation |
| `Ingest.Uploader.PushOnce` | cmd/gt-agent/ingest.go:79-219 | whatever the stream does, confirmed stays exactly what was sent and stored exactly what was kept, both only grow, and a healthy stream does not fail |
| `Ingest.Uploader.Run` | cmd/gt-agent/ingest.go:50-73 | across all reconnects the batches sent followed by the queue are exactly the records stored; stored plus dropped is received plus the misreported |
| `Ingest.StoredOrRefused` | cmd/gt-agent/ingest.go:184-192 | the exact sum of stored, refused and received packets |
| `Ingest.FlushFailureCountsStoredPacket` | pkg/spool/queue.go:292-322 | a failed flush makes a stored packet count as dropped |
| `PortRanges.AllocateComplete` | cmd/gt-pipeline/proxy_lease.go:165-178 | from any cursor allocation fails exactly if the whole range is in use, else returns a free port of it |
| `PortRanges.AllocatesExactly` | cmd/gt-pipeline/proxy_lease.go:165-178 | the port is the first free one counting up from the cursor and round, only it becomes used, and the next search starts behind it |
| `PortRanges.OperationsStayInRange` | cmd/gt-pipeline/proxy_lease.go:165-201 | any mix of the three operations keeps the used ports in range |
| `PortRanges.PortRange.Allocate` | cmd/gt-pipeline/proxy_lease.go:165-178 | the loop takes the first free port in round-robin order and moves the cursor behind it |
| `PortRanges.PortRange.Reserve` | cmd/gt-pipeline/proxy_lease.go:183-194 | takes the given port exactly if it is in range and free |
| `PortRanges.PortRange.Release` | cmd/gt-pipeline/proxy_lease.go:197-201 | returns the port, if it was in use |
| `Leases.PortsAccounted` | cmd/gt-pipeline/proxy_lease.go:256-384 | under every interleaving a port is in use exactly if one holder has it, a session is set exactly if a gRPC port is held, no owner has more than five leases, and lost ports are exactly as many as commits that missed |
| `Leases.NobodyShares` | cmd/gt-pipeline/proxy_lease.go:405-515 | no two leases or operations under way ever share a port |
| `Leases.DeviceKeepsPort` | cmd/gt-pipeline/proxy_lease.go:373-384 | in every run who comes back with a key gets the port of the last lease made with it exactly if that port is free and in range, and otherwise some free port, or none exactly if there is none |
| `Leases.AtRestPoolsAreLeases` | cmd/gt-pipeline/proxy_lease.go:666-774 | between operations of a run whose starts are serial on each lease the used sets are exactly the ports of the live leases |
| `Leases.AtRestExactly` | cmd/gt-pipeline/proxy_lease.go:666-774 | in every run the used sets between operations are the ports of the live leases and, for gRPC, the lost ones besides |
| `Leases.SerialNeverMisses` | cmd/gt-pipeline/proxy_lease.go:430-502 | no commit misses its lease in a run whose starts are serial, which is read off the operations alone |
| `Leases.CommitOrphansExactly` | cmd/gt-pipeline/proxy_lease.go:485-502 | a commit leaves a port in use for nobody exactly if its lease is done with or capturing already |
| `Leases.ServiceNeverHandsOutZero` | cmd/gt-pipeline/proxy_lease.go:53-61 | with the service's ranges no lease gets agent port 0 in any run that keeps the two allocations of a create together |
| `Leases.NoAgentPortZero` | cmd/gt-pipeline/proxy_lease.go:271-284 | the same for all ranges with at least as many agent as control ports |
| `Leases.ExhaustedTogether` | cmd/gt-pipeline/proxy_lease.go:373-384 | when no agent port is left no control port is either, which is what hides the swallowed error |
| `Leases.OverlapLosesPort` | cmd/gt-pipeline/proxy_lease.go:430-502 | the second of two overlapping starts on a lease loses the first one's port: in every run that follows it stays in use for nobody |
| `Leases.OrphanForGood` | cmd/gt-pipeline/proxy_lease.go:430-573 | whatever operations follow, a port in use that nobody has stays so |
| `Leases.OrphanHappens` | cmd/gt-pipeline/proxy_lease.go:430-502 | a run of the service that ends with nothing under way and a port in use that nobody has |
| `Leases.ReturnBetweenGivesZero` | cmd/gt-pipeline/proxy_lease.go:271-284 | ports returned between the two allocations give a create agent port 0 |
| `Leases.ZeroHappens` | cmd/gt-pipeline/proxy_lease.go:271-284 | a run of the service that ends with a live lease on agent port 0 |
| `Leases.ZeroExactly` | cmd/gt-pipeline/proxy_lease.go:271-284 | whatever happens in between, a create goes on with agent port 0 exactly if the agent ports were exhausted at its first allocation and a control port is free at its second; with the service's ranges, exactly if one came back in between |
| `Leases.RunKeeps` | cmd/gt-pipeline/proxy_lease.go:704-774 | the books of all three pools balance in every run |
| `FilterPaging.PushdownKeepsMatches` | cmd/gt-mcp/filter_pushdown.go:31-92 | every row the filter accepts satisfies the predicate pushed down |
| `FilterPaging.ComparisonMeans` | cmd/gt-mcp/filter_pushdown.go:70-100 | a comparison is recognised exactly if one side is protocol and the other a string, and its value, from the values of both sides, is that of the comparison it names |
| `FilterPaging.FirstIsPushed` | cmd/gt-mcp/filter_pushdown.go:31-59 | pushed down is the first comparison with a constant that is not empty, or nothing; pure exactly if all conjuncts are comparisons |
| `FilterPaging.WindowIsPage` | cmd/gt-mcp/main.go:1621-1627 | a page holds the hits from the offset on, as many as fit, and consecutive pages follow each other |
| `FilterPaging.PureIsComparison` | cmd/gt-mcp/filter_pushdown.go:57-59 | a filter is pure exactly if it is a single comparison of protocol with a constant |
| `FilterPaging.PureExact` | cmd/gt-mcp/filter_pushdown.go:70-100 | a pure filter and its predicate agree on all rows exactly if the constant is not empty |
| `FilterPaging.ParseFilterPushdown` | cmd/gt-mcp/filter_pushdown.go:31-59 | the loop takes the first comparison with a constant and notes anything else |
| `FilterPaging.QueryKeepsHits` | cmd/gt-mcp/main.go:1599-1624 | filtering what SQL lets through equals filtering all rows |
| `FilterPaging.LimitedIsWindow` | pkg/store/event_page.go:27-64 | SQL paging is the window [offset, offset+limit), for a negative offset exactly if the window holds all hits |
| `FilterPaging.StreamFiltered` | cmd/gt-mcp/main.go:1602-1627 | streamed in batches of 500: exact total and exact window of the filtered list |
| `FilterPaging.ListDecodedData` | cmd/gt-mcp/main.go:1568-1634 | on both paths total and page are those of filtering everything and slicing; on the SQL path a negative offset counts as 0, and when that is the right page; for an empty constant the wrong answer is stated |
| `FilterPaging.EmptyConstantReportsAll` | cmd/gt-mcp/filter_pushdown.go:94-100 | protocol == "" has no hit and is answered with every row |
| `Timelines.OccursOnceIffRooted` | cmd/gt-mcp/trace_timeline.go:187-207 | an event occurs in the returned trees once if its chain of causes ends, and not at all if it runs into a cycle |
| `Timelines.AllOnceIffAcyclic` | cmd/gt-mcp/trace_timeline.go:187-207 | all events occur exactly if causation is acyclic, self-causes included |
| `Timelines.DepthBounded` | cmd/gt-mcp/trace_timeline.go:238-256 | no chain from a root is longer than there are events, so the recursion ends on every input |
| `Timelines.ParentExactly` | cmd/gt-mcp/trace_timeline.go:162-197 | an event hangs from the last event whose id is its cause, and from none exactly if it has no cause or none in the window has that id |
| `Timelines.StableSorts` | cmd/gt-mcp/trace_timeline.go:240-244 | children come out in order of time, ties in input order |
| `Timelines.SortRoots` | cmd/gt-mcp/trace_timeline.go:238-247 | terminates on every input; sorts the lists at and below the given nodes and touches no other |
| `Timelines.BuildTimeline` | cmd/gt-mcp/trace_timeline.go:160-207 | every event hangs from at most one parent, roots are those without one, lists in the forest are sorted |
| `Timelines.CountDanglingCausation` | cmd/gt-mcp/trace_timeline.go:259-275 | counts the events whose cause is outside the window |
| `Timelines.RootCount` | cmd/gt-mcp/trace_timeline.go:222-230 | the number of roots is the events without a cause plus the dangling ones, always |
| `Pairing.EveryRequestOnce` | cmd/gt-mcp/trace_helpers.go:157-262 | every non-push client message is the request of exactly one pair, and nothing else is |
| `Pairing.ResponsesFit` | cmd/gt-mcp/trace_helpers.go:157-237 | every response is a later non-push server message within the window, by name with the same base |
| `Pairing.NameResponsesDistinct` | cmd/gt-mcp/trace_helpers.go:157-193 | pairs by name never share a response |
| `Pairing.UnpairedIffNoneEligible` | cmd/gt-mcp/trace_helpers.go:196-262 | with times in order a request is unpaired exactly if no eligible response follows |
| `Pairing.FirstAnswer` | cmd/gt-mcp/trace_helpers.go:210-227 | with times in order the choice by time is the first answer |
| `Pairing.OutOfOrderStaysUnpaired` | cmd/gt-mcp/trace_helpers.go:213-221 | out of order a request is left unpaired although an eligible answer follows |
| `Pairing.UnpairedExactly` | cmd/gt-mcp/trace_helpers.go:157-262 | in any order a request is unpaired exactly if it has no candidate by name and the first answer after it, if any, is outside the window |
| `Pairing.NearestAnswer` | cmd/gt-mcp/trace_helpers.go:210-227 | in any order the choice by time is the nearest answer before the first one outside the window, the earliest among equals, and none exactly if there is none |
| `Pairing.FirstCandidateByName` | cmd/gt-mcp/trace_helpers.go:157-193 | in any order the name stage pairs a request with exactly its first candidate: the answers of its name, not taken by an earlier request, before the first of its name outside the window |
| `Pairing.NoResponseIsPush` | cmd/gt-mcp/trace_helpers.go:266-296 | no paired response is reported as a push; what is reported follows the request within the window |
| `Pairing.PushesExactly` | cmd/gt-mcp/trace_helpers.go:266-296 | the pushes of a request are exactly the later messages to the client that answer nobody, up to the first message outside the window, each once and in order; other messages have none |
| `Pairing.BaseExactly` | pkg/decode/fields.go:112-119 | a name is its own base unless it ends in Req, Resp, Request or Response, and then its base is what is before that |
| `Pairing.HeartbeatExactly` | cmd/gt-mcp/trace_helpers.go:137-141 | a heartbeat has heartbeat, ping or pong in its name, in capitals or not |
| `Pairing.CleanedExactly` | cmd/gt-mcp/trace_helpers.go:125-153 | what is left are exactly the messages neither dropped by name nor as heartbeats, in order, changed in nothing but the index |
| `Pairing.CleanedIndexed` | cmd/gt-mcp/trace_helpers.go:125-153 | after the noise filter no noise is left and every index is the position |
| `Pairing.ApplyNoiseFilter` | cmd/gt-mcp/trace_helpers.go:125-153 | keeps exactly the messages that are no noise, in order, renumbered |
| `Pairing.PairByMsgName` | cmd/gt-mcp/trace_helpers.go:157-193 | the nested loops take for each request the first unused answer of its name before the window ends |
| `Pairing.PairByDirection` | cmd/gt-mcp/trace_helpers.go:196-237 | adds for each unpaired request the nearest answer before the window ends |
| `Pairing.FinalizePairs` | cmd/gt-mcp/trace_helpers.go:240-262 | adds the rest as unpaired, and warns of exactly these |
| `Pairing.IdentifyPushes` | cmd/gt-mcp/trace_helpers.go:266-296 | the map built pair by pair, each request with all its related pushes |
| `Aggregation.WindowContains` | pkg/analyze/aggregator.go:37-39 | the window is the only one of its width that contains the time, and follows time |
| `Aggregation.GroupKey` | pkg/analyze/aggregator.go:47-66 | fails exactly if an expression fails; otherwise the joined key and the labels |
| `Aggregation.LabelsCarry` | pkg/analyze/aggregator.go:47-66 | every expression has its label, by its name or `group_` and its number, with the value of the last expression of that name |
| `Aggregation.LabelsOnly` | pkg/analyze/aggregator.go:47-66 | there are no other labels |
| `Aggregation.KeyTellsApart` | pkg/analyze/aggregator.go:65 | no other group of as many values has a group's key exactly if it has one value only or no bar in any |
| `Aggregation.GroupTotalsExact` | pkg/analyze/aggregator.go:65 | the sum under a group's key is the group's own in every run exactly if it has one value only or no bar in any |
| `Aggregation.BarMergesGroups` | pkg/analyze/aggregator.go:65 | an aggregator given one event of each of two groups hands out 2 under their common key |
| `Aggregation.CloseConserves` | pkg/analyze/count.go:51-55 | emitting a window keeps emitted plus running equal to the batch |
| `Aggregation.NextWindowOnce` | pkg/analyze/sum.go:46-51 | moving to a later window keeps every window and key emitted or running exactly once |
| `Aggregation.WindowAgg.Add` | pkg/analyze/sum.go:36-55 | counts the event in its window and key, or changes nothing when an evaluation fails |
| `Aggregation.WindowAgg.Flush` | pkg/analyze/count.go:58-63 | hands out the closed windows and leaves the open one |
| `Aggregation.WindowAgg.FinalFlush` | pkg/analyze/count.go:66-76 | all metrics handed out sum per window and key to the batch result, so per group for groups without bars, each exactly once if time never goes back; a second call yields nothing |
| `EventIds.StoredRises` | pkg/event/identity.go:79-94 | whatever the clock reads, the pair of last millisecond and 12-bit counter strictly rises |
| `EventIds.CountsOn` | pkg/event/identity.go:79-94 | while the clock does not pass the stored millisecond, millisecond and counter as one number rise by one a call, over any number of calls |
| `EventIds.ShowsClock` | pkg/event/identity.go:79-94 | such an id shows the clock's millisecond, and the stored one only when the counter comes round to 0 |
| `EventIds.StartsAnew` | pkg/event/identity.go:79-94 | a clock ahead of the stored millisecond starts the counter at the top 12 of the 16 random bits |
| `EventIds.AboveAllIffClockKeepsUp` | pkg/event/identity.go:79-94 | an id is above all earlier ones exactly if the clock is not behind the stored millisecond or the counter rolls over |
| `EventIds.IdsRiseIffClockKeepsUp` | pkg/event/identity.go:73-130 | the ids of a run, as strings and whatever the random tails, strictly rise exactly if at every call the clock is not behind the stored millisecond or the counter rolls over |
| `EventIds.RolloverOutrunsSteadyClock` | pkg/event/identity.go:79-94 | with a clock that never goes back the id after a rollover is below the one before |
| `EventIds.FieldsReadBack` | pkg/event/identity.go:96-108 | 48-bit time, version 7, counter and variant can be read back from the bytes |
| `EventIds.IdsSortAsStrings` | pkg/event/identity.go:96-130 | printed ids sort as strings by millisecond and counter, whatever the random tails |
| `EventIds.TextOrder` | pkg/event/identity.go:114-130 | the hyphenated text sorts as the bytes |
| `EventIds.FormatUUID` | pkg/event/identity.go:114-130 | the loop fills the 36 characters with the hyphenated hex text |
| `EventIds.Generator.NewEventID` | pkg/event/identity.go:73-111 | the id printed is that of the run of all calls so far |
| `ValueCodec.DecodeUndoesEncode` | pkg/event/value_msgpack.go:39-135 | decoding an encoded value yields it back at every depth, unknown kinds as null |
| `ValueCodec.RoundTripExact` | pkg/event/value_msgpack.go:39-135 | the round trip is the identity exactly for values without unknown kinds |
| `ValueCodec.ValueToMsgpack` | pkg/event/value_msgpack.go:39-75 | the loops build exactly the tagged tree |
| `ValueCodec.MsgpackToValue` | pkg/event/value_msgpack.go:78-135 | fails exactly on unknown types and missing fields, at any depth, and then yields null |
| `ValueCodec.ThereAndBackIsNormal` | pkg/event/value_conv.go:12-110 | to native and back turns whole floats in range into ints, unknown kinds into null, and nothing else |
| `ValueCodec.ThereAndBackTwice` | pkg/event/value_conv.go:12-110 | a second round trip changes nothing, and the first is the identity exactly for normal values |
| `ValueCodec.WholeIsTested` | pkg/event/value_conv.go:42-47 | the comparison in the code holds exactly for whole numbers an int64 holds, minus zero included |
| `ValueCodec.ValueFromAny` | pkg/event/value_conv.go:12-67 | the loops convert every native value at every depth |
| `ValueCodec.ValueToAny` | pkg/event/value_conv.go:79-110 | the same in the other direction |

## Left out

- gRPC, HTTP, SQL engines, packet capture, subprocesses, files and logging: a send, a write or a query is an outcome the environment chooses.
- Liveness and timing: heartbeats, backoff, timeouts and tickers are steps that may happen; nothing says when.
- Tunnel, dispatcher, capture pipeline, connections and leases are modelled on values as step machines, because several goroutines share them; update in place and aliasing appear only through who holds what.
- Tunnel: request frames, `Send` and `CloseSend` are not modelled, only what is received.
- Dispatcher: input ids are taken to be unique, as packet ids are; how responses become events, and directions, are not modelled.
- CapturePipeline: post-processing, the write buffers' flush and `decoderAction` (a three-way comparison) are left out; a batch of events is named by its packet.
- CaptureGates: the epoch is unbounded where the code has a uint64; compiling filter lists is left out; that a replaced sink falls silent is not claimed, since the push client dials again after it was closed.
- Spools: the archive mode and index files are left out; a roll of the segment is atomic; after a crash all written bytes are taken to be there, and at most one record is half-written.
- Spools.RecoveryFindsAll: records of the archive mode are not covered, nor a directory in which an earlier failed write left bytes between records, whose misread headers are not modelled.
- Spools.Queue.Append: a failed write leaves nothing behind; what the bytes it may leave do to later records is in `SegmentFiles.PlacedExactly`.
- SegmentFiles: one file, on values; which records of the queue are in which file is in `Spools`, by place and length.
- Leases: lease and session ids are taken to be new whenever one is made; `Dying` leases return their gRPC port at any time after they leave the table.
- Leases.NoAgentPortZero: covers runs in which nothing happens between the two allocations of a create; what others do is in `Leases.ZeroExactly`.
- FilterPaging: nodes other than `&&` and comparisons are an arbitrary function of node and row; SQL order is the order of the given list.
- Timelines: message text, conversations and the roots' own order beyond the input order are left out.
- Pairing: lower case covers ASCII only; entity diffs and close analysis are left out; two pairs by direction may share a response, as in the code.
- Aggregation: values are real numbers, so rounding and int64 overflow are not modelled; `CountAgg` is the aggregator with value 1; the rate aggregator is left out.
- Aggregation.WindowAgg.Add: adds real numbers, where the code adds float64 for sums and int64 for counts.
- Aggregation.WindowAgg.FinalFlush: its totals are sums of real numbers for the same reason.
- EventIds: the order of strings is stated for milliseconds below 2^48, which is what the format holds.
- ValueCodec: the msgpack byte format is left out; a float out of the int64 range converts as on amd64; nil and empty slices are not told apart; JSON and printing are left out.
- Plugin manifests: parsing and `ValidateManifest` are in the SDK, which is not part of this model; that names hold no slash is taken from pkg/plugin/manifest.go:39-42.
- Configuration, the web interface, build tools, scaffolding, access control and the other query tools would only add easy members.
