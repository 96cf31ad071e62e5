# Verified models of moq5's transport adapters

A Dafny project that models the parts of moq5 that move bytes between the
MoQ session and QUIC, and proves what they promise over whole runs:

* **The pull-send queue** shared by the picoquic adapters
  (`adapters/common/moq_pq_send_queue.c`): an open-addressing index with
  backshift deletion, a slot table with a free list, chunk lists, the plan /
  commit pull protocol, the offset record, reliable-prefix truncation, the
  admission cap and lazy priority ranking. `ProbeTable`, `SlotTable`,
  `StreamTable`, `Ranking`, `SendQueue` do it in place; `SendQueueModel` says
  what it means on values; `SendQueueRuns`, `ByteStreams` and `FinOrder` prove
  what holds in every run.
* **Deferred reliable resets** of the WebTransport endpoint
  (`adapters/pico_wt/pico_wt_endpoint.c`), composed with the queue:
  `DeferredResets`, `ResetRuns`.
* **The MsQuic attach adapter** (`adapters/msquic/msquic_adapter.c`): batched
  sends with ownership, the in-flight budget, plain and reliable resets, the
  record of lost output and the flush barrier (`StreamItems`, `RecordList`,
  `AdapterSends`, `AdapterConnection`, `AdapterSafety`, `AdapterOps`,
  `AdapterRuns`, `AdapterWakes`, `AdapterFlush`); stream credit (`StreamCredit`,
  `CreditRuns`); receive hold and the service cycle (`AdapterReceive`,
  `ReceiveRuns`, `ReceiveStalls`, `AdapterService`).
* **The managed lane facade** (`adapters/msquic/msquic_managed.c`) as a
  transition system over all interleavings of doorbell threads, transport
  workers, wakers, accepts, reaping and stop (`LaneProtocol`, `LaneSafety`,
  `LaneRuns`), and the deadline policy of a doorbell (`LaneDeadlines`).
* **The recycling pool** of `benchmarks/bench_relay_fanout.c` (`BlockPool`).

`dafny verify dfyconfig.toml` checks everything.

## How it is built

Code that updates fields in place is a class, or a method on an array; each
method's postcondition equates the new abstract state with a function of the old
one. Those functions are then the steps of runs, and the main results are
statements about every state of every run, proved by invariants. Concurrency is a
sequence of atomic actions: one lock-protected region, or one atomic load or
store. The session, the bridge, the transport libraries, memory allocation and
clocks are environments: what they answer is a parameter of the step, and what is
assumed of them is written in the `Enabled`, `Legal` or `requires` clauses and
repeated here.

* The bucket of an id is an arbitrary function of it; a sort is any function that
  returns a sorted permutation.
* The transport completes the sends of a stream in order, each once, all before
  the stream's own shutdown event, which does not arrive while a batch for that
  stream is staged and comes once. Ids of new streams are new.
* The transport processes queued starts in order and computes a report of
  available streams from what it has counted at that moment.
* The receiving transport indicates everything that has arrived and was not
  consumed, and only while delivery is on; a bare end of the stream comes once
  everything has been indicated. The bridge always takes control input and
  refuses a bare end mark while it awaits a refused chunk that was not one itself.
* The clock never goes back.

Where the code and its comments differ the model follows the code:

* The comment on `settle_owed_fins` says an owed FIN is fed after every byte of
  the stream. The code tests `held_input` but not `recv_disabled`, and so does
  PEER_SEND_SHUTDOWN; the FIN can overtake bytes MsQuic still holds.
  `ReceiveRuns.SettleRun` and `ReceiveRuns.ShutdownRun` are such runs, and
  `ReceiveRuns.EndIff` says exactly when it happens: the end comes after every
  byte if and only if delivery was not off when it was fed.
* Settling is described as the one path by which an owed FIN is delivered, and
  PEER_SEND_SHUTDOWN clears `recv_disabled` because nothing is left to resume. But a
  refused bare FIN sets `held_input`, and settling skips the stream for that; and the
  flag can be cleared while MsQuic holds bytes with delivery off. In the run of
  `ReceiveStalls.MutedRun` a byte and the end, in that of `ReceiveStalls.HeldEndRun`
  the end alone, reach the bridge in no later pass. `ReceiveStalls.UndeliveredIff`
  says exactly when, over all runs: a pass that reaches a stream with nothing pending
  leaves something undelivered if and only if the bridge refused the end when no
  bytes were left that resuming would bring again (PEER_SEND_SHUTDOWN drops the flag
  for them unless input is held), and since then the peer did not abort, the stream
  did not die and the bridge took nothing the transport offered again.
* A plan's FIN flag is documented as true exactly when the send delivers the FIN.
  `FinOrder.DeniedFin` is a run in which it is not. For every run and any callers
  `FinOrder.PlansTruthfulIff` says when it is: if and only if no bytes pushed behind
  a FIN are still queued with it.
* A deferred reset is documented as waiting for the queued prefix of its stream to be
  handed over, and it announces its own size. Resets of one stream share one queue:
  a tighter reset shortens what an earlier one still waits for, and both are then
  issued with their own sizes. In the run of `ResetRuns.ShortReset` a reset for two
  bytes is issued with one provided. `ResetRuns.OwnPrefixIff` says exactly when the
  prefix of a reset's own size was provided: if and only if every reset or drop of
  the stream left that much, or came when that much had been handed over, bytes
  accepted since then counted in.
* The queue's comment calls an empty slot in use a leak, and a push of bytes that
  fails clears an empty slot. A bare FIN that creates its slot and cannot allocate
  its marker does not; `ByteStreams.VacantIff` says exactly when a slot with nothing
  queued remains.

## Model

| member | source | states |
|---|---|---|
| `ProbeTable.Find` | adapters/common/moq_pq_send_queue.c:241-248 | the lookup ends, and finds the slot stored for the id if and only if there is one |
| `ProbeTable.Insert` | adapters/common/moq_pq_send_queue.c:213-219 | with a spare cell the insertion ends and the array then represents the map with the new pair, every older id still reachable from its home |
| `ProbeTable.Backshift` | adapters/common/moq_pq_send_queue.c:221-239 | closing the hole by moving later entries back leaves every remaining id reachable and no id twice |
| `ProbeTable.Remove` | adapters/common/moq_pq_send_queue.c:221-239 | removal leaves exactly the map without the id |
| `ProbeTable.SpareCell` | adapters/common/moq_pq_send_queue.c:203-219 | at a load of at most one half there is always an empty cell, so every probe loop ends |
| `SlotTable.LoadBound` | adapters/common/moq_pq_send_queue.c:251-292 | slots in use are distinct, so the index of twice as many cells is never more than half full |
| `SlotTable.TakeSlot` | adapters/common/moq_pq_send_queue.c:278-292 | taking the head of the free list keeps the list exactly the unused slots |
| `SlotTable.ReleaseSlot` | adapters/common/moq_pq_send_queue.c:164-181 | putting a cleared slot back keeps the list exactly the unused slots |
| `SlotTable.GrowTable` | adapters/common/moq_pq_send_queue.c:251-276 | the slots added by growth, chained in order, are the whole new free list |
| `StreamTables.StreamTable.constructor` | adapters/common/moq_pq_send_queue.c:103-114 | an empty table holds no stream |
| `StreamTables.StreamTable.Find` | adapters/common/moq_pq_send_queue.c:241-248 | after any history the result is the unique slot in use holding the id, and negative if and only if there is none |
| `StreamTables.StreamTable.Reindex` | adapters/common/moq_pq_send_queue.c:251-276 | the rebuilt index represents exactly the slots in use |
| `StreamTables.StreamTable.Grow` | adapters/common/moq_pq_send_queue.c:251-276 | doubling keeps every stream and leaves room |
| `StreamTables.StreamTable.Take` | adapters/common/moq_pq_send_queue.c:278-292 | a new stream gets a free slot and a fresh record; no other stream changes |
| `StreamTables.StreamTable.FindOrCreate` | adapters/common/moq_pq_send_queue.c:278-292 | finds or creates; fails if and only if the stream is absent, no slot is free and the table cannot grow |
| `StreamTables.StreamTable.Put` | adapters/common/moq_pq_send_queue.c:64-84 | an update of one stream's record is seen as that and nothing else |
| `StreamTables.StreamTable.Release` | adapters/common/moq_pq_send_queue.c:164-181 | the stream is gone, every other is still found |
| `StreamTables.StreamTable.Rank` | adapters/common/moq_pq_send_queue.c:345-379 | a complete pass gives every started stream the level of its key, and a pass cut short leaves each at its old or its new level; every call to the transport is the deserved one |
| `Ranking.ApplyLevel` | adapters/common/moq_pq_send_queue.c:335-343 | a level is sent to the transport only if it differs from the one applied, and kept only if accepted |
| `Ranking.RankSlots` | adapters/common/moq_pq_send_queue.c:345-379 | the two passes compute, for each started stream, twice one more than the number of distinct smaller keys, capped, and 0 for no key, whatever sort is used |
| `Ranking.RankCount` | adapters/common/moq_pq_send_queue.c:359-377 | the running rank of a sorted list is the number of distinct smaller keys |
| `Ranking.LevelOrder` | adapters/common/moq_pq_send_queue.c:316-379 | smaller keys get strictly smaller levels, except that both may have the last one |
| `Ranking.RerankInOrder` | adapters/common/moq_pq_send_queue.c:345-379 | a complete ranking puts all levels in order, whatever they were |
| `SendQueues.DrainChunks` | adapters/common/moq_pq_send_queue.c:536-580 | the copy loop hands out the front of the chunk list and leaves the rest, with its FIN and marker counts |
| `SendQueues.KeepPrefix` | adapters/common/moq_pq_send_queue.c:590-648 | the keep loop leaves exactly the given number of bytes, without FIN |
| `SendQueues.TruncateChunks` | adapters/common/moq_pq_send_queue.c:590-648 | cutting the list also returns how many bytes and markers went |
| `SendQueues.SendQueue.constructor` | adapters/common/moq_pq_send_queue.c:103-114 | a new queue is the empty one with its cap |
| `SendQueues.SendQueue.ClearSlot` | adapters/common/moq_pq_send_queue.c:154-181 | clearing subtracts exactly the stream's bytes and markers and releases its slot |
| `SendQueues.SendQueue.OffsetForget` | adapters/common/moq_pq_send_queue.c:116-127 | the record of one stream goes, the others stay |
| `SendQueues.SendQueue.OffsetNote` | adapters/common/moq_pq_send_queue.c:129-152 | a stream gets a record at zero once; fails only for lack of memory |
| `SendQueues.SendQueue.OffsetAdd` | adapters/common/moq_pq_send_queue.c:573-580 | the record of the stream, if any, advances by the bytes provided |
| `SendQueues.SendQueue.Opened` | adapters/common/moq_pq_send_queue.c:294-301 | marks an empty stream unstarted |
| `SendQueues.SendQueue.SetKey` | adapters/common/moq_pq_send_queue.c:303-314 | a changed key is stored and marks the queue dirty |
| `SendQueues.SendQueue.PushBareFin` | adapters/common/moq_pq_send_queue.c:415-425 | the FIN goes on the last chunk, or is a marker of its own |
| `SendQueues.SendQueue.PushBytes` | adapters/common/moq_pq_send_queue.c:427-508 | bytes are appended with record and counters, or nothing changes but an empty slot is released |
| `SendQueues.SendQueue.NeedsBudget` | adapters/common/moq_pq_send_queue.c:434-436 | exactly which pushes the budget can refuse: bytes, and a FIN with no chunk to ride on |
| `SendQueues.SendQueue.Push` | adapters/common/moq_pq_send_queue.c:395-508 | a refused push changes only the refusal counter; an admitted one is the append |
| `SendQueues.SendQueue.HasData` | adapters/common/moq_pq_send_queue.c:510-515 | true exactly for a stream with chunks |
| `SendQueues.SendQueue.Plan` | adapters/common/moq_pq_send_queue.c:517-534 | the plan is the function of the queue that the commit lemmas speak of |
| `SendQueues.SendQueue.TakeOut` | adapters/common/moq_pq_send_queue.c:549-572 | slot and counters give up what was drained |
| `SendQueues.SendQueue.HandOver` | adapters/common/moq_pq_send_queue.c:549-580 | slot, counters and record move together |
| `SendQueues.SendQueue.Commit` | adapters/common/moq_pq_send_queue.c:536-580 | the bytes copied out and the new queue are those of the model |
| `SendQueues.SendQueue.Drop` | adapters/common/moq_pq_send_queue.c:582-588 | the stream and its record are gone |
| `SendQueues.SendQueue.KeepOnly` | adapters/common/moq_pq_send_queue.c:611-647 | the kept prefix and the counters it leaves |
| `SendQueues.SendQueue.Truncate` | adapters/common/moq_pq_send_queue.c:590-648 | queue and returned count are those of the model |
| `SendQueues.SendQueue.ApplyPriorities` | adapters/common/moq_pq_send_queue.c:323-379 | a successful pass is the complete ranking, a failed one a partial ranking that stays dirty, and a clean queue is left alone |
| `SendQueueModel.DrainBytes` | adapters/common/moq_pq_send_queue.c:549-572 | what is handed out followed by what stays is what was pending |
| `SendQueueModel.DrainFin` | adapters/common/moq_pq_send_queue.c:549-572 | with FIN on the tail it is handed over exactly with the last byte |
| `SendQueueModel.KeepBytes` | adapters/common/moq_pq_send_queue.c:611-647 | what is kept is the prefix of that length |
| `SendQueueModel.KeepShape` | adapters/common/moq_pq_send_queue.c:611-647 | what is kept carries no FIN |
| `SendQueueRuns.NextConserves` | adapters/common/moq_pq_send_queue.c:154-648 | every operation keeps the byte total, each stream's remainder and the marker count exact |
| `SendQueueRuns.RefusedPush` | adapters/common/moq_pq_send_queue.c:427-508 | a push is refused for the budget exactly when it would charge a full queue, and changes nothing but the refusal count |
| `SendQueueRuns.PushCharge` | adapters/common/moq_pq_send_queue.c:395-508 | a push charges only below the cap, and exactly its cost |
| `SendQueueRuns.NextRanked` | adapters/common/moq_pq_send_queue.c:164-181 | no operation puts levels out of order without raising the dirty flag |
| `SendQueueRuns.EveryState` | adapters/common/moq_pq_send_queue.c:154-648 | in every reachable state counters are the sums they stand for, the charge without the last charged push is below the cap, and with the dirty flag clear levels respect keys |
| `ByteStreams.PlanTellsCommit` | adapters/common/moq_pq_send_queue.c:517-580 | size, content, activity and FIN announced by a plan are those of the commit that follows |
| `ByteStreams.PlansTruthful` | adapters/common/moq_pq_send_queue.c:517-580 | every plan of a stream tells the truth about FIN if and only if FIN is on its last chunk at most |
| `ByteStreams.FinPoppedEarly` | adapters/common/moq_pq_send_queue.c:536-580 | with a FIN further forward some commit hands it over before the last byte |
| `ByteStreams.TruncateKeeps` | adapters/common/moq_pq_send_queue.c:590-648 | what is left is the part of the reliable prefix not yet provided, without FIN, and the result is its length |
| `ByteStreams.TruncateTwice` | adapters/common/moq_pq_send_queue.c:590-648 | two truncates are one at the smaller size |
| `ByteStreams.ByteOrder` | adapters/common/moq_pq_send_queue.c:401-580 | in every run, bytes committed then bytes queued are the accepted pushes, for streams neither dropped nor truncated |
| `ByteStreams.OwedPrefix` | adapters/common/moq_pq_send_queue.c:116-648 | in every run without pushes behind a FIN, provided plus queued is what the stream owed when its last bytes were accepted, cut to the tightest truncate or drop since or to what had been provided, whatever commits came between; that is the accepted bytes unless some were accepted after a cut; the offset record counts the bytes provided since it was last given up |
| `ByteStreams.VacantIff` | adapters/common/moq_pq_send_queue.c:413-508 | exactly when a stream holds a slot with nothing queued after an operation: it was opened or keyed, or a bare FIN created the slot and could not allocate its marker, or it held one before and the operation was no commit, drop, truncate or admitted push that queues or clears |
| `FinOrder.BehindIff` | adapters/common/moq_pq_send_queue.c:401-580 | in every run, for any callers, a FIN stands before the last chunk at a given distance if and only if a push was put behind a FIN that is that far ahead and both are still queued |
| `FinOrder.FinLastIff` | adapters/common/moq_pq_send_queue.c:401-580 | in every run a FIN is on the last chunk at most if and only if no bytes pushed behind a FIN are still queued with it |
| `FinOrder.PlansTruthfulIff` | adapters/common/moq_pq_send_queue.c:517-580 | in every run all plans of a stream tell the truth about FIN under exactly that condition |
| `FinOrder.DeniedFin` | adapters/common/moq_pq_send_queue.c:517-580 | a run of two pushes after which a plan denies the FIN its commit hands over |
| `FinOrder.DrainBehind` | adapters/common/moq_pq_send_queue.c:549-572 | a commit hands over the FINs it passes and brings the others closer by the bytes it copies |
| `DeferredResets.Endpoint.constructor` | adapters/pico_wt/pico_wt_endpoint.c:551-593 | an endpoint starts with no deferred reset |
| `DeferredResets.Endpoint.IssueReset` | adapters/pico_wt/pico_wt_endpoint.c:314-332 | the reset and its fallback, with the stream quiesced on success |
| `DeferredResets.Endpoint.Reserve` | adapters/pico_wt/pico_wt_endpoint.c:334-366 | the table has room for one more entry, or nothing changed |
| `DeferredResets.Endpoint.ResetAt` | adapters/pico_wt/pico_wt_endpoint.c:334-366 | truncates first, then issues at once or defers with preamble plus reliable size |
| `DeferredResets.Endpoint.FlushEntry` | adapters/pico_wt/pico_wt_endpoint.c:376-387 | an entry whose stream has data moves down in place, any other is issued |
| `DeferredResets.Endpoint.FlushResets` | adapters/pico_wt/pico_wt_endpoint.c:376-387 | the in-place compaction computes the value-level flush |
| `DeferredResets.Endpoint.SettleDeferred` | adapters/pico_wt/pico_wt_endpoint.c:416-421 | the table is empty, whatever waited in it |
| `DeferredResets.Endpoint.ProvideData` | adapters/pico_wt/pico_wt_endpoint.c:423-438 | the provide callback is the plan and then the commit of that plan |
| `DeferredResets.FlushSplits` | adapters/pico_wt/pico_wt_endpoint.c:376-387 | a flush issues exactly the entries whose stream has no data left, and keeps exactly the others, both in order |
| `DeferredResets.SelectPartition` | adapters/pico_wt/pico_wt_endpoint.c:376-387 | nothing is lost or duplicated by the compaction |
| `ResetRuns.ResetsHonoured` | adapters/pico_wt/pico_wt_endpoint.c:314-421 | in every run without pushes behind a FIN, each reset issued at once or given a deferred entry was issued once, still waits or was given up with the whole table; when issued, its stream had handed over, in order, exactly what the resets and drops had left of its bytes, which are its accepted bytes from the first unless some were accepted after a cut; the frames sent are, in order, at most one for each, of its own size or a plain reset |
| `ResetRuns.OwnPrefixIff` | adapters/pico_wt/pico_wt_endpoint.c:350-386 | a reset was issued after as many bytes as its own size keeps were provided if and only if every reset or drop of the stream left that many or came when that many had been handed over, bytes accepted since then counted in |
| `ResetRuns.TightestProvides` | adapters/pico_wt/pico_wt_endpoint.c:350-386 | with no tighter cut of the stream the prefix was provided |
| `ResetRuns.ShortReset` | adapters/pico_wt/pico_wt_endpoint.c:350-386 | a run in which a reset for two bytes is issued with one of three accepted bytes provided, whatever the transport answers |
| `ResetRuns.FlushAgrees` | adapters/pico_wt/pico_wt_endpoint.c:368-387 | the run's flush is the endpoint's flush: queue, kept and issued entries, and frames |
| `RecordList.Find` | adapters/msquic/msquic_adapter.c:87-95 | the scan finds the one record of the id, and nothing if and only if there is none |
| `RecordList.AddRecord` | adapters/msquic/msquic_adapter.c:97-114 | a record put in front adds its id to the map the list stands for |
| `RecordList.DropRecord` | adapters/msquic/msquic_adapter.c:116-125 | unlinking a record removes its id and no other |
| `AdapterConnection.Connection.constructor` | adapters/msquic/msquic_adapter.c:1535-1601 | a new connection has nothing staged, sent or latched |
| `AdapterConnection.Connection.Lookup` | adapters/msquic/msquic_adapter.c:87-95 | finds the record the model maps the id to |
| `AdapterConnection.Connection.NewRecord` | adapters/msquic/msquic_adapter.c:97-114 | the new record goes to the front of the list under an id no record has |
| `AdapterConnection.Connection.FreeRecord` | adapters/msquic/msquic_adapter.c:116-125 | the record leaves the list and stays only in the history |
| `AdapterConnection.Connection.ReleaseEntries` | adapters/msquic/msquic_adapter.c:160-173 | every entry of a batch is released once, in order |
| `AdapterConnection.Connection.HandOverBatch` | adapters/msquic/msquic_adapter.c:234-241 | the running byte count of the batch array goes into the stream's totals |
| `AdapterConnection.Connection.RefuseBatch` | adapters/msquic/msquic_adapter.c:223-233 | the entries of a refused batch are released, and either the failure or the close by the peer is latched |
| `AdapterConnection.Connection.OpenBatch` | adapters/msquic/msquic_adapter.c:271-279 | an empty batch is started only if none is staged |
| `AdapterConnection.Connection.WriteEntry` | adapters/msquic/msquic_adapter.c:280-295 | the entry is written at the end of the array, and the running count stays the sum of the entries' bytes |
| `AdapterConnection.Connection.BatchFlush` | adapters/msquic/msquic_adapter.c:205-242 | the staged batch is in flight, or its buffers are released and the refusal latched |
| `AdapterConnection.Connection.Place` | adapters/msquic/msquic_adapter.c:271-295 | the staged batch grows by the entry at its end |
| `AdapterConnection.Connection.Stage` | adapters/msquic/msquic_adapter.c:271-307 | a batch that is full or ends the stream goes out at once |
| `AdapterConnection.Connection.BatchAppend` | adapters/msquic/msquic_adapter.c:255-317 | a batch of another stream is flushed first; every way out disposes of the copy |
| `AdapterConnection.Connection.Write` | adapters/msquic/msquic_adapter.c:642-688 | all results of a copied write, empty and oversized ones included |
| `AdapterConnection.Connection.WritePayload` | adapters/msquic/msquic_adapter.c:690-707 | all results of a payload write |
| `AdapterConnection.Connection.EndStream` | adapters/msquic/msquic_adapter.c:650-668 | a bare end rides the staged batch or is a graceful shutdown |
| `AdapterConnection.Connection.Blocks` | adapters/msquic/msquic_adapter.c:323-337 | the throttle on the record and the running count is the throttle on the bytes in flight and staged |
| `AdapterConnection.Connection.ResetStream` | adapters/msquic/msquic_adapter.c:709-731 | flush first, then the abort, with the stream withdrawn unless it is session control |
| `AdapterConnection.Connection.ResetStreamAt` | adapters/msquic/msquic_adapter.c:766-795 | all results of a reliable reset |
| `AdapterConnection.Connection.OnSendComplete` | adapters/msquic/msquic_adapter.c:1133-1153 | totals, loss and ownership after the oldest batch of a stream completes |
| `AdapterConnection.Connection.OnSendShutdownComplete` | adapters/msquic/msquic_adapter.c:1156-1186 | on the record in the list: when the end counts as acknowledged, and when a loss is recorded |
| `AdapterConnection.Connection.OnPeerReceiveAborted` | adapters/msquic/msquic_adapter.c:1122-1131 | on the record in the list: a peer's stop withdraws a sending stream that is not session control |
| `AdapterConnection.Connection.OnShutdownComplete` | adapters/msquic/msquic_adapter.c:1203-1228 | the stream's loss is recorded before its record leaves the list or is kept |
| `AdapterConnection.Connection.PollFlush` | adapters/msquic/msquic_managed.c:3046-3096 | the scan over all records computes the barrier's answer |
| `AdapterOps.AppendKeeps` | adapters/msquic/msquic_adapter.c:255-317 | whatever the transport and the allocator answer, staging keeps totals, order and ownership |
| `AdapterOps.SendCompleteKeeps` | adapters/msquic/msquic_adapter.c:1133-1153 | a completion keeps them, and a canceled byte is recorded as lost or was withdrawn |
| `AdapterOps.SendShutdownKeeps` | adapters/msquic/msquic_adapter.c:1156-1186 | the end of the sending half keeps the connection invariant, whether graceful or not |
| `AdapterOps.PeerStopsKeeps` | adapters/msquic/msquic_adapter.c:1122-1131 | a peer's stop keeps it |
| `AdapterOps.ShutdownKeeps` | adapters/msquic/msquic_adapter.c:1203-1228 | the final event of a stream with no send in flight and none staged keeps it, whether the record is kept or freed |
| `AdapterRuns.EveryState` | adapters/msquic/msquic_adapter.c:142-317 | in every reachable state bytes in flight are the sum of the stream's outstanding batches, sent is acknowledged plus lost plus in flight, and the pending count is the number of batches |
| `AdapterRuns.WriteAdds` | adapters/msquic/msquic_adapter.c:642-707 | a write answered OK adds its bytes and end to its stream's accepted items, any other answer adds nothing |
| `AdapterRuns.BatchingFaithful` | adapters/msquic/msquic_adapter.c:205-317 | until a batch is refused or the peer closes, handed over plus staged is exactly what was accepted, in order, with the end last; a batch never exceeds 64 entries |
| `AdapterRuns.ReleasedOnce` | adapters/msquic/msquic_adapter.c:142-317 | every reference or copy is held in exactly one place or was released exactly once; with nothing staged or in flight all were released |
| `AdapterWakes.NoWaitWithoutWake` | adapters/msquic/msquic_adapter.c:323-337 | from a refusal until a completion on the stream, the connection is ending or bytes of the stream are on their way, after the pass's flush in a batch the transport holds |
| `AdapterWakes.BudgetExact` | adapters/msquic/msquic_adapter.c:319-337 | the subtraction form blocks exactly a nonempty write that would take bytes already pending past the ceiling |
| `AdapterWakes.WriteBounded` | adapters/msquic/msquic_adapter.c:319-337 | a write answered OK adds exactly its bytes to what is pending, which stays within the ceiling unless the stream was idle |
| `AdapterWakes.BlockedOwes` | adapters/msquic/msquic_adapter.c:677-703 | each single refusal leaves such bytes or an ending connection |
| `AdapterWakes.ResetAtWaits` | adapters/msquic/msquic_adapter.c:766-795 | a reliable reset is sent only with the prefix acknowledged, the acknowledged bytes being the prefix of what was handed over; it blocks only with sends in flight |
| `AdapterFlush.PollAccounts` | adapters/msquic/msquic_managed.c:3061-3095 | success accounts for every record, live or retired |
| `AdapterFlush.WithdrawnForCause` | adapters/msquic/msquic_adapter.c:709-731 | a stream is withdrawn only by a reset or the peer's stop, and only off a session control stream |
| `AdapterFlush.FlushSound` | adapters/msquic/msquic_managed.c:3046-3096 | in every run, if the barrier reports success, each stream ever opened was so withdrawn, or all it accepted is acknowledged, its end included |
| `StreamCredit.StreamOpener.constructor` | adapters/msquic/msquic_adapter.c:1535-1601 | credit is unknown, no record, nothing pending |
| `StreamCredit.StreamOpener.OpenStream` | adapters/msquic/msquic_adapter.c:559-630 | all results of an open; the computed id is one no record has, its record goes to the front of the list, and the counters stay the numbers of records with a start pending |
| `StreamCredit.StreamOpener.Started` | adapters/msquic/msquic_adapter.c:572-620 | a stream whose start was accepted: its computed id is one no record has, its record goes to the front, and counters and credit move as in the model |
| `StreamCredit.StreamOpener.OnStreamsAvailable` | adapters/msquic/msquic_adapter.c:1357-1365 | credit is the report less the records with a start pending, and none if the report does not exceed them |
| `StreamCredit.StreamOpener.SettleStart` | adapters/msquic/msquic_adapter.c:547-557 | a pending start is given back once, the counter staying the number of pending records and so not below zero |
| `StreamCredit.StreamOpener.OnShutdownComplete` | adapters/msquic/msquic_adapter.c:1203-1228 | the start the stream may still have pending is given back, and its record leaves the list or stays linked with its report owed, the counters staying exact |
| `StreamCredit.StreamOpener.FirstOwed` | adapters/msquic/msquic_adapter.c:377-384 | while any report is counted as owed the scan finds a record that owes it, so the count never drifts |
| `StreamCredit.StreamOpener.FeedTerminals` | adapters/msquic/msquic_adapter.c:375-390 | outside an operation every record that owed a report is dropped, no other is, and none is owed afterwards |
| `StreamCredit.OpenIsNew` | adapters/msquic/msquic_adapter.c:572-576 | the next computed id of either direction belongs to no record, local or of the peer |
| `CreditRuns.CreditSafe` | adapters/msquic/msquic_adapter.c:536-630 | once credit is known every permitted open keeps counted and queued starts within the peer's limit; with none before the first report they always are |
| `CreditRuns.PendingExact` | adapters/msquic/msquic_adapter.c:541-557 | the counters are the numbers of records marked pending, so no decrement underflows |
| `CreditRuns.IdsInOrder` | adapters/msquic/msquic_adapter.c:572-576 | ids handed out are distinct, of the right type, and increase by four without a gap (sections 2.1 and 4.6 of RFC 9000) |
| `CreditRuns.IdsAgree` | adapters/msquic/msquic_adapter.c:976-992 | as long as every start was counted, the transport numbers the next start as the adapter did |
| `CreditRuns.EveryState` | adapters/msquic/msquic_adapter.c:536-630 | the invariant behind these in every reachable state |
| `AdapterService.Receiver.FeedBuffers` | adapters/msquic/msquic_adapter.c:1038-1060 | the buffer loop stops at the first refusal or pending buffer and counts what was accepted |
| `AdapterService.Receiver.OnReceive` | adapters/msquic/msquic_adapter.c:994-1083 | all branches of a receive, paused or not |
| `AdapterService.Receiver.OnPeerSendShutdown` | adapters/msquic/msquic_adapter.c:1085-1104 | on the record in the list: the end of the peer's direction, held or not |
| `AdapterService.Receiver.OnPeerSendAborted` | adapters/msquic/msquic_adapter.c:1106-1120 | on the record in the list: an abort clears every hold |
| `AdapterService.Receiver.SettleAt` | adapters/msquic/msquic_adapter.c:443-450 | one record's owed end is fed if the bridge is free to take it |
| `AdapterService.Receiver.SettleOwedFins` | adapters/msquic/msquic_adapter.c:439-452 | the scan of the list feeds every owed end the bridge is free to take, and asks for another pass if there was one |
| `AdapterService.Receiver.ResumePaused` | adapters/msquic/msquic_adapter.c:404-423 | every paused stream the bridge has drained is resumed, unless a failure makes the bridge fatal |
| `AdapterService.Receiver.RunPass` | adapters/msquic/msquic_adapter.c:469-508 | after a pass, unless the bridge is fatal, a stream with nothing pending has delivery enabled as far as the adapter knows, and something undelivered if and only if it is stuck; stuck are exactly the streams that were and those whose end this pass offered and the bridge refused while no bytes waited behind the flag; a fatal bridge is torn down |
| `AdapterService.Receiver.Service` | adapters/msquic/msquic_adapter.c:462-510 | the cycle ends; unless fatal, a stream with nothing pending has something undelivered if and only if it is stuck; no pass frees a stuck stream, and none gets stuck whose end the bridge takes whenever offered; re-entry only asks for a pass |
| `AdapterService.SettleShrinks` | adapters/msquic/msquic_adapter.c:439-452 | each owed end is settled at most once, so settling cannot repeat passes forever |
| `ReceiveRuns.FeedAllLog` | adapters/msquic/msquic_adapter.c:1036-1060 | the bridge takes a prefix of an indication, the end only behind all of it |
| `ReceiveRuns.ExactlyOnce` | adapters/msquic/msquic_adapter.c:910-1120 | in every run, until the end is fed the bridge has exactly the bytes reported consumed; the end is fed at most once and nothing after it |
| `ReceiveRuns.EndIff` | adapters/msquic/msquic_adapter.c:439-452 | an end is fed after every byte if and only if delivery was not off at the transport, which on a stream that is not stuck is what the flag says |
| `ReceiveRuns.EndOvertakes` | adapters/msquic/msquic_adapter.c:1085-1104 | with a byte held both PEER_SEND_SHUTDOWN and the settling pass feed the end ahead of it |
| `ReceiveRuns.ShutdownRun` | adapters/msquic/msquic_adapter.c:1085-1104 | a run in which PEER_SEND_SHUTDOWN does so |
| `ReceiveRuns.SettleRun` | adapters/msquic/msquic_adapter.c:439-452 | a run in which settling an owed end does so |
| `ReceiveRuns.EveryState` | adapters/msquic/msquic_adapter.c:910-1120 | the invariant behind these in every reachable state |
| `ReceiveStalls.UndeliveredIff` | adapters/msquic/msquic_adapter.c:404-510 | in every run a pass that reaches a stream with nothing pending leaves delivery off, or an end held behind every byte, if and only if an end was stranded earlier or by this pass and nothing freed the stream since |
| `ReceiveStalls.StuckIff` | adapters/msquic/msquic_adapter.c:910-1120 | in every run, at every moment, a stream is stuck if and only if some event or pass stranded its end and nothing freed it since |
| `ReceiveStalls.StepStuck` | adapters/msquic/msquic_adapter.c:910-1120 | what each event and pass does to that: which get a stream stuck, which free it |
| `ReceiveStalls.PassDelivers` | adapters/msquic/msquic_adapter.c:404-452 | a pass that reaches a stream with nothing pending leaves something undelivered only if it is stuck |
| `ReceiveStalls.ShutdownStrands` | adapters/msquic/msquic_adapter.c:1085-1104 | every end refused at PEER_SEND_SHUTDOWN while no input is held gets its stream stuck |
| `ReceiveStalls.MutedRun` | adapters/msquic/msquic_adapter.c:1085-1104 | a run after which delivery stays off with a byte undelivered, and no pass changes anything |
| `ReceiveStalls.HeldEndRun` | adapters/msquic/msquic_adapter.c:439-452 | a run in which every byte was taken and no pass feeds the end |
| `LaneSafety.CheckKeeps` | adapters/msquic/msquic_managed.c:1259-1292 | reading the bell, testing for stop and work and clearing the flags keeps the lane invariant: no wake outstanding without a flag, no sleep on an unchanged bell with work flagged, no finished child unseen without a sweep owed |
| `LaneSafety.SweepKeeps` | adapters/msquic/msquic_managed.c:958-1076 | everything the application and the bridge do inside a sweep keeps the lane invariant, and a whole sweep has seen every finished child |
| `LaneSafety.ReapKeeps` | adapters/msquic/msquic_managed.c:896-953 | the reap loop keeps the lane invariant through the window in which it drops the mutex |
| `LaneSafety.PickKeeps` | adapters/msquic/msquic_managed.c:896-953 | a victim has been seen finished by a sweep, and a server child's terminal was polled and acknowledged |
| `LaneSafety.RestKeeps` | adapters/msquic/msquic_managed.c:1326-1465 | the stop test, the tick, and the wait on the bell keep the lane invariant |
| `LaneSafety.WakerKeeps` | adapters/msquic/msquic_managed.c:2727-2766 | the flag store and the ring of a wake from another lane or thread keep the lane invariant, whatever comes between them |
| `LaneSafety.BatchKeeps` | adapters/msquic/msquic_managed.c:415-451 | a transport batch, its arming and its ring, and wakes inside it keep the lane invariant |
| `LaneSafety.AcceptKeeps` | adapters/msquic/msquic_managed.c:613-721 | linking a child, unlinking it on failure, arming and ringing keep the lane invariant |
| `LaneSafety.WakesNotLost` | adapters/msquic/msquic_managed.c:1112-1164 | a doorbell asleep on an unchanged bell with the mutex free has no flag set and no returned wake outstanding |
| `LaneRuns.NoLostWakes` | adapters/msquic/msquic_managed.c:1259-1292 | in every run, after each returned wake a pump sweep has begun since its flag was stored, or the flag stands (or is being consumed) and the doorbell is not asleep on an unchanged bell unless the holder of the lane has still to ring |
| `LaneRuns.ReapOrder` | adapters/msquic/msquic_managed.c:896-953 | in every run, before a child is reclaimed came its SHUTDOWN_COMPLETE batch, then the beginning of a sweep whose snapshot holds it, then the end of that sweep; for a server child also a poll and then an acknowledgement |
| `LaneRuns.ReserveBound` | adapters/msquic/msquic_managed.c:551-584 | in every state of every run linked children, the child each lane is retiring and accepts in flight are exactly the counted connections, at most the limit, no child is on two lanes, and a sweep's snapshot is the whole lane |
| `LaneRuns.LoadStep` | adapters/msquic/msquic_managed.c:938-942 | unlinking a victim moves its reservation to the doorbell until the release |
| `LaneRuns.EveryState` | adapters/msquic/msquic_managed.c:631-720 | the invariant behind these in every reachable state |
| `LaneDeadlines.AppDeadline` | adapters/msquic/msquic_managed.c:1214-1234 | the earliest answer later than the last pump, from either query |
| `LaneDeadlines.LaneClock.constructor` | adapters/msquic/msquic_managed.c:1214-1234 | a lane starts with no pump behind it |
| `LaneDeadlines.LaneClock.PumpSweep` | adapters/msquic/msquic_managed.c:1009-1020 | a sweep serves every application deadline up to its instant |
| `LaneDeadlines.LaneClock.EarliestSession` | adapters/msquic/msquic_managed.c:1338-1360 | the scan finds the earliest session deadline |
| `LaneDeadlines.LaneClock.Step` | adapters/msquic/msquic_managed.c:1338-1388 | ticks if and only if an owed deadline is due; otherwise waits past now, within the idle cap and never past an owed deadline |
| `LaneDeadlines.TicksIncrease` | adapters/msquic/msquic_managed.c:1204-1234 | application deadlines that drive ticks strictly increase |
| `LaneDeadlines.ConstantDeadline` | adapters/msquic/msquic_managed.c:1204-1234 | queries that never move drive one tick each at most |
| `BlockPool.Allocator.constructor` | benchmarks/bench_relay_fanout.c:421-421 | a new pool is empty |
| `BlockPool.Allocator.BucketFor` | benchmarks/bench_relay_fanout.c:68-87 | finds or adds the one bucket of a size class |
| `BlockPool.Allocator.Allocate` | benchmarks/bench_relay_fanout.c:103-123 | takes a cached block of the class or a real one |
| `BlockPool.Allocator.Release` | benchmarks/bench_relay_fanout.c:125-142 | a freed block is cached in its class |
| `BlockPool.Allocator.Reallocate` | benchmarks/bench_relay_fanout.c:144-153 | without a block it allocates, to size zero it frees, and otherwise it is an allocation and then, if that succeeded, a free of the old size, whatever classes have buckets and whether or not the bucket array can grow for either |
| `BlockPool.Allocator.FreeList` | benchmarks/bench_relay_fanout.c:155-169 | one real free for each block of a list |
| `BlockPool.Allocator.Destroy` | benchmarks/bench_relay_fanout.c:155-169 | returns every cached block once |
| `PoolRuns.EveryState` | benchmarks/bench_relay_fanout.c:68-153 | in every run, per size class, real allocations are live plus cached blocks and equal the peak of live blocks |
| `PoolRuns.ZeroAfterWarmup` | benchmarks/bench_relay_fanout.c:475-489 | a phase within each class's warmup peak allocates and frees nothing for real |

## Left out

- The session core, the transport bridge, wire codecs and parsers: environments here, or not part of this model.
- MsQuic, picoquic and h3zero themselves, TLS, sockets, settings, ALPN and create-time error unwinding.
- Datagrams, and the reference counts and pointers behind buffers; a buffer is a token with its bytes.
- Wrap-around of 64-bit byte counters, ids and clocks; the sentinel for "no deadline" is kept.
- C11 memory ordering: atomic steps are sequentially consistent.
- Statistics, testing seams and the `struct_size` rules of the configuration structs.
- The final cleanup of a stopped facade, and the plain deferred resets of the WebTransport endpoint: they would only add easy members.
- The intrusive lists of lanes, connections and streams are sequences of records, so pointer aliasing is not modelled; a pointer to a record is its id.
- Liveness and scheduling fairness: the wake and resume results are safety statements.
- The pump callback once the application has left its lane: its sweep is still a sweep here.
- SendQueues.SendQueue.Push: the reference count of a shared payload is not modelled.
- AdapterService.Receiver.Service: terminates under the assumption that other threads ask for finitely many passes; closing and terminal reports inside a pass are part of what the bridge does.
- AdapterConnection.Connection.OnShutdownComplete: assumes no batch of that stream is staged, which the end of every pass ensures.
- LaneRuns.NoLostWakes: a wake made inside a batch of the same lane has its bell rung by the batch, so the exception for a holder that has still to ring is part of the statement.
- ResetRuns.ResetsHonoured: runs with pushes behind a FIN are not covered; FinOrder says what those do to the queue.
