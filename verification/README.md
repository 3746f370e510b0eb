# platform-relayer: a verified model of the IBC v2 packet relayer

The relayer takes packets sent on one chain and brings each to an end: received and acknowledged, or timed out.
A packet is a row of the transfers table. The dispatcher polls unfinished rows and pushes a copy of each into a
pipeline of seventeen stages. Every stage looks at the copy, asks a chain something or submits a tx, and writes the
answer to the copy and to the row. This project models that machinery at three levels and proves what it keeps.

**One transfer, one pass.** `Transfers` has the records, `Stages` the guard and the effect of every stage and the
middleware around it, `Pass` what every pass does for every sequence of answers and failures. A pass carries a
trace of the answers it got and of the batch requests it joined. `StageTable` gives every stage a second time, as one
line written down from the columns alone: when it takes up a transfer, what status it sets, what it asks, and what
then becomes of the transfer and of its row.

**Many passes over many rows.** `Dispatch` is a state machine in which inserts, snapshots, pushes, stage moves,
polls, deletions, clock ticks and restarts interleave freely. `Dedup` is about the dedupers' maps. `Runs` proves
that every copy in flight is, at every moment, a pass over its own row. `Lifecycle`, `Gates` and `FinalizedTime` draw
the consequences over whole runs; `Outcomes` says what a terminal status means, `Retries` what becomes of a tx that
must be retried, `Provenance` where what is recorded in a row comes from.

**Batching.** `BatchNetwork` is the concurrent network of splitter, collector, buffer, workers and merger.
`Requests` is what a batch processor asks the proof service for.

The code that works by changing things is also modelled as it is written, and proved to do what the functions above
say: `Processors` (a transfer object and a storage object, every processor, the middleware, the finisher), `Batches`
(the batch middleware and the batch processors on an array of transfers and the table), `Dispatcher` (dispatcher,
pipeline manager and deduper with its output loop). So `Stages`, and the snapshot, push, poll and delete steps of
`Dispatch`, are checked from both sides: the methods must compute them, and the theorems must follow from them.

Around these: `Evm` (finality on EVM chains, commitment paths), `Once` (the `OnceWithKey` cache under concurrent
calls), `Prices` (the price cache), `RelayApi` (the Relay and Status calls). `Witnesses`, `Twins` and
`TwoPasses` hold concrete runs, most of which show what the code does not guarantee.

## What is assumed

- A storage call takes full effect or fails with none, and `ExecTx` is all or nothing.
- The pipeline library emits one output per input of a processor and partitions its input into batches.
- There is no context cancellation.
- A pair of chain ids always gets the same configuration.
- A stage is one step of a run, which leaves the clock at the stage's last look. What other copies do between a
  stage's looks and its writes is not seen.
- Whoever reads the output of a batching network always does, so that a send on it can always be made.
- Everything a chain, the proof service or the database answers, and every reading of the clock, is an arbitrary
  input; within a run the clock does not go back.

Some results hold of **disciplined** runs: a push that enters a pipeline carries a row that was out of every pipeline
when the snapshot was taken (`Runs.Disciplined`). The dispatcher does not see to this. `Witnesses.StaleSnapshotReopens`
is a run without it in which a finished transfer is taken up again.

## What the code does that its comments do not say

- A status update that fails in the batch middleware does not take the transfer out of the batch. The transfer is
  submitted and then comes out twice (`Dedup.SingleExactlyIfOnce`, `BatchNetwork.OutputCounts`). The second to leave
  the pipeline deletes the key of a copy pushed after the first has left (`Dedup.TwinUnlocks`), and a run can end with
  two live copies of one row (`Twins.TwoLiveCopies`).
- Recv and timeout requests remember the source chain where they mean the tx hash, and so name a tx once per
  transfer (`Requests.SourceRequest`, `Requests.SourceTxTwice`). Ack requests do not.
- The finalized time of a write ack is written under an empty key. In no run does it ever reach a row, so every pass
  that passes that gate writes it again (`FinalizedTime.FinalizedTimeIsNeverStored`, `Witnesses.FinalizedTimeLost`).
- The timeout finality gate is skipped when the deadline passes after it (`Pass.TimeoutSubmission`,
  `Witnesses.UnaskedTimeout`).
- A row can be left with an ack and no recv; past its deadline it never completes (`Lifecycle.AckAloneForGood`,
  `Witnesses.AckAloneReachable`).
- The cleanup of `OnceWithKey` deletes by entry where the map has keys, and so deletes nothing (`Once.MapOnlyGrows`).
- The price cache key is ambiguous for ids that end in a slash or currencies that start with one
  (`Prices.KeysCoincideExactly`).

## Model

| member | source | states |
|---|---|---|
| `Transfers.UpdatesHitOwnRow` | relayer/ibcv2/processor_mw.go:79-84 | the unsigned in-memory sequence cast back to the column's type gives the key of the row the transfer was loaded from |
| `Transfers.SequenceRoundTrip` | relayer/ibcv2/ibcv2_transfer.go:127 | the casts uint64 to int32 to uint32 keep exactly the low 32 bits; they are the identity exactly below 2^32 |
| `Stages.StageAt` | relayer/ibcv2/pipeline.go:118-208 | the stage built at each place of the pipeline is the one that stands there |
| `Stages.Effect` | relayer/ibcv2/processor_mw.go:108-135 | a processor keeps the packet, loses or replaces no in-memory hash, adds hashes only where it looks for them, adds at most one event under its own name, and leaves a consistent transfer consistent with its row |
| `Stages.CheckRecvDeliveryEffect` | relayer/ibcv2/check_recv_packet_delivery.go:30-103 | the same of the receipt check, which may add a recv |
| `Stages.CommitmentEffect` | relayer/ibcv2/check_packet_commitment.go:45-183 | the same of the commitment check, which may add an ack or a timeout and never both |
| `Stages.SendFinalityEffect` | relayer/ibcv2/check_send_finality.go:42-72 | the same of the send finality gate: memory and row get the same finalized time or neither does |
| `Stages.TimeoutFinalityEffect` | relayer/ibcv2/check_timeout_finality.go:31-52 | the same of the timeout finality gate, which changes no column |
| `Stages.RetryEffect` | relayer/ibcv2/retry_recv_packet.go:44-84 | the same of the three retries, of which the row may forget a tx; when it does, `StageTable.RetryRecvLine` and its like and `Retries.RetryExactly` say |
| `Stages.GasEffect` | relayer/ibcv2/recv_tx_gas_calculator.go:40-72 | the same of the three gas calculators, which touch one column of the row |
| `Stages.WriteAckEffect` | relayer/ibcv2/wait_for_write_ack.go:41-123 | the same of the write ack search: a write ack enters with its status, its time and the hash of the recorded recv |
| `Stages.WriteAckFinalityEffect` | relayer/ibcv2/check_write_ack_finality.go:48-80 | the same of the write ack finality gate |
| `Stages.SingleStep` | relayer/ibcv2/processor_mw.go:57-144 | the middleware keeps row and transfer consistent whatever fails |
| `Stages.BatchStep` | relayer/ibcv2/processor_mw.go:186-277 | so does the batch middleware, seen from one transfer, failed status writes included |
| `Stages.Deliver` | relayer/ibcv2/batch_recv_packet.go:54-172 | so do the batch processors; at most one submission is added |
| `Stages.FinishStep` | relayer/ibcv2/state_finisher.go:32-102 | so does the finisher, which changes nothing but the status; to what, `StageTable.FinishLine` says |
| `Stages.StageStep` | relayer/ibcv2/processor_mw.go:62-76 | every stage does all of this, and leaves an errored or FAILED transfer exactly as it is |
| `StageTable.CheckRecvDeliveryLine` | relayer/ibcv2/check_recv_packet_delivery.go:30-126 | the receipt check, exactly: taken up with no recv, ack or timeout; goes on with a found recv in both places, or not received; else errs |
| `StageTable.CommitmentLine` | relayer/ibcv2/check_packet_commitment.go:45-208 | the commitment check, exactly: of a packet no longer committed, the one of ack and timeout that was found is recorded; both or neither is an error |
| `StageTable.SendFinalityLine` | relayer/ibcv2/check_send_finality.go:42-95 | the send finality gate, exactly: the time is recorded the first time only |
| `StageTable.TimeoutFinalityLine` | relayer/ibcv2/check_timeout_finality.go:31-83 | the timeout finality gate, exactly |
| `StageTable.RetryTimeoutLine` | relayer/ibcv2/retry_timeout_packet.go:44-124 | the timeout retry, exactly: the row forgets hash and time exactly on a yes that is saved; anything but a no errs |
| `StageTable.RetryRecvLine` | relayer/ibcv2/retry_recv_packet.go:44-124 | the recv retry, exactly, which asks only until there is a write ack |
| `StageTable.RetryAckLine` | relayer/ibcv2/retry_ack_packet.go:44-124 | the ack retry, exactly |
| `StageTable.GasLine` | relayer/ibcv2/recv_tx_gas_calculator.go:40-92 | the gas calculators, exactly: the cost goes to the row and to no copy |
| `StageTable.WriteAckLine` | relayer/ibcv2/wait_for_write_ack.go:41-150 | the write ack search, exactly: hash and time of the recv with the status decoded, or unknown; a recv without one is forgotten by the row |
| `StageTable.WriteAckFinalityLine` | relayer/ibcv2/check_write_ack_finality.go:48-130 | the write ack finality gate, exactly, for the kinds of ack that are relayed |
| `StageTable.DeliverTimeoutLine` | relayer/ibcv2/timeout_packet.go:56-187 | the timeout batch seen from one transfer, exactly: hash and time of the delivered tx, and in the row its relayer |
| `StageTable.DeliverRecvLine` | relayer/ibcv2/batch_recv_packet.go:54-188 | the recv batch, exactly |
| `StageTable.DeliverAckLine` | relayer/ibcv2/batch_ack_packet.go:62-229 | the ack batch, exactly |
| `StageTable.FinishLine` | relayer/ibcv2/state_finisher.go:32-102 | the finisher, exactly: COMPLETE_WITH_TIMEOUT with a timeout; else, of a recv with its write ack, COMPLETE_WITH_ACK with an ack, and without one the status for success or for error and unknown if such acks are not relayed; all others stay |
| `StageTable.OtherRowsLine` | relayer/ibcv2/check_write_ack_finality.go:67-77 | of the table a stage changes the transfer's own row, and the write ack finality gate, when it first passes, one under the empty key if there is one |
| `StageTable.Order` | relayer/ibcv2/pipeline.go:118-208 | the seventeen stages in their order |
| `Pass.Earlier` | relayer/ibcv2/processor_mw.go:57-144 | in a pass hashes only go from absent to present, the trace only grows, and an errored transfer is frozen with its row |
| `Pass.Settled` | relayer/ibcv2/pipeline.go:118-208 | after the recv, write ack and ack stages the columns they fill stay for the rest of the pass |
| `Pass.Origin` | relayer/ibcv2/pipeline.go:118-208 | every event of a pass was added by the stage it names, on top of exactly the events before it |
| `Pass.GatePassed` | relayer/ibcv2/check_packet_commitment.go:45-208 | a gate whose guard held, and after which the transfer is live without what the gate looks for, was asked and said go ahead |
| `Pass.SkippedGate` | relayer/ibcv2/check_timeout_finality.go:70-83 | a gate whose guard did not hold left no answer in the trace |
| `Pass.SubmittedAt` | relayer/ibcv2/processor_mw.go:195-246 | a submission happens at its own stage to a transfer that both looks at the guard let through |
| `Pass.TimeoutSubmission` | relayer/ibcv2/timeout_packet.go:174-187 | a timeout is submitted only after, in the same pass, not received, still committed and send final; and after the destination's finality of the deadline exactly if the deadline had passed at that gate |
| `Pass.RecvSubmission` | relayer/ibcv2/batch_recv_packet.go:183-188 | a recv is submitted only after send finality in the same pass, with the deadline ahead at both looks |
| `Pass.AckSubmission` | relayer/ibcv2/batch_ack_packet.go:198-229 | an ack is submitted only if the options relay acks of its kind, success or error and unknown, and after write ack finality and then the commitment check in the same pass |
| `Pass.AlwaysConsistent` | relayer/ibcv2/processor_mw.go:77-135 | at every point of every pass, whatever fails, the row is coherent and an unerrored transfer agrees with it |
| `Pass.UnfinishedUntilFinish` | relayer/ibcv2/state_finisher.go:32-102 | nothing but the finisher ends a transfer |
| `Pass.PassOutcome` | relayer/ibcv2/ibcv2_transfer.go:373-416 | an error-free pass ends terminal exactly if it ends with a recv or a timeout; with neither only if the deadline had passed when the recv stage looked |
| `Pass.PassPastDeadline` | relayer/ibcv2/ibcv2_transfer.go:373-420 | an error-free pass past the deadline ends terminal exactly if it does not leave an ack without a recv, a condition on the row and the first two answers |
| `Pass.AckAloneStays` | relayer/ibcv2/timeout_packet.go:174-187 | past the deadline an ack without a recv stays alone through the whole pass |
| `Pass.TimeoutEnters` | relayer/ibcv2/timeout_packet.go:174-187 | a timeout enters a row only past the deadline, or because one was found on chain |
| `Dispatch.KeysAgree` | relayer/ibcv2/pipeline.go:395-407 | the deduper's key tells transfers apart exactly as the unique index does; two transfers share a pipeline exactly if they share both chains and both clients |
| `Dispatch.UnroutableFails` | relayer/ibcv2/relay_dispatcher.go:98-133 | the push of a row that no pipeline takes sets its status to FAILED, if that is saved, and changes nothing else |
| `Dispatch.RoutableEnters` | relayer/ibcv2/pipeline.go:345-383 | the push of any other row enters its pipeline exactly if its key is not marked there, as one new copy that is the row as read; then its key is marked there and nothing else is marked that was not |
| `Dispatch.SnapshotExactly` | db/gen/db/ibcv2_transfers.sql.go:148-151 | a snapshot takes exactly the rows that are neither COMPLETE nor FAILED, each as it stands and each once |
| `Dispatch.RestartBeginsAnew` | relayer/ibcv2/relay_dispatcher.go:92-157 | after a restart the first snapshot finds every row out of every pipeline, and the first push enters exactly if its chains are configured |
| `Dispatch.PolledAndDeleted` | relayer/ibcv2/pipeline.go:356-381 | a poll and the deletion after it take away one copy and its key, and nothing else |
| `Dedup.DedupedStep` | relayer/ibcv2/pipeline.go:345-383 | every step in which stages emit once keeps every deduper's map exact and every row single in flight |
| `Dedup.DedupedRun` | relayer/ibcv2/pipeline.go:345-383 | over every run and interleaving of that kind: each map is exactly the keys pushed and not yet polled and deleted, and no row has two copies in flight in any pipelines |
| `Dedup.SingleExactlyIfOnce` | relayer/ibcv2/processor_mw.go:227-242 | a move keeps rows single exactly if it is not a failed status write in a batch |
| `Dedup.TwinUnlocks` | relayer/ibcv2/pipeline.go:356-381 | when one of two copies of a row is polled and its key deleted, the row can be pushed again while the other is in flight |
| `Twins.TwoLiveCopies` | relayer/ibcv2/processor_mw.go:227-242 | a run from the empty table in which exactly one step emits a transfer twice, to two unerrored copies of one row |
| `Runs.MovedIsPass` | relayer/ibcv2/pipeline.go:118-208 | a move takes a copy and its row from one point of a pass to the next |
| `Runs.SoundStep` | relayer/ibcv2/relay_dispatcher.go:92-157 | every disciplined step keeps: copies are passes over their rows, duplicates are errored, rows are coherent, idle snapshot entries are current |
| `Runs.SoundRun` | relayer/ibcv2/relay_dispatcher.go:92-157 | so every state of every disciplined run has all that |
| `Lifecycle.MemoryAgreesWithTable` | relayer/ibcv2/batch_recv_packet.go:131-172 | in every state of every disciplined run rows are coherent (never both ack and timeout, write ack complete and equal to the recv) and every unerrored copy agrees with its row, whatever storage calls failed |
| `Lifecycle.CompletedPass` | relayer/ibcv2/state_finisher.go:32-102 | a copy that left the pipeline unerrored has a terminal row exactly if a recv or timeout is recorded, and otherwise the deadline is past; if pushed past the deadline, exactly if the row has no ack alone, which the loaded row and the first two answers decide |
| `Lifecycle.SecondPass` | relayer/ibcv2/ibcv2_transfer.go:373-420 | over every disciplined run: after an error-free pass that left its row unfinished, any later error-free pass over that row leaves it terminal exactly if it does not leave an ack alone, which the loaded row and the first two answers decide |
| `TwoPasses.SecondPassHappens` | relayer/ibcv2/batch_recv_packet.go:183-188 | a disciplined run with two such passes, the second of which ends COMPLETE_WITH_TIMEOUT |
| `Lifecycle.PushedSinceRun` | relayer/ibcv2/pipeline.go:345-383 | unerrored copies numbered after a state of a run were pushed no earlier than its clock |
| `Lifecycle.TerminalForGood` | db/gen/db/ibcv2_transfers.sql.go:148-151 | over every disciplined run a COMPLETE or FAILED row is never rewritten, selected or pushed again |
| `Lifecycle.WriteAckForGood` | relayer/ibcv2/retry_recv_packet.go:116-124 | over every disciplined run a recorded write ack stays, and so does the equal recv hash |
| `Lifecycle.AckAloneForGood` | relayer/ibcv2/ibcv2_transfer.go:373-416 | a row past its deadline with an ack alone stays unfinished in every disciplined run until its ack tx is retried |
| `Outcomes.PassSaysHow` | relayer/ibcv2/state_finisher.go:55-83 | every pass that leaves a row terminal leaves it COMPLETE_WITH_TIMEOUT exactly with a timeout, else COMPLETE_WITH_ACK exactly with an ack, else with the status of its write ack, and that only if such acks are not relayed |
| `Outcomes.TerminalStatusSaysHow` | relayer/ibcv2/state_finisher.go:55-83 | so in every state of every disciplined run the status of every complete row says how its transfer ended |
| `Retries.RetryExactly` | relayer/ibcv2/retry_recv_packet.go:44-84 | of each retry on a transfer it takes up: the row loses hash and time of that tx and nothing else exactly on a yes that is saved; the transfer goes on unerrored exactly on a no |
| `Retries.SpentRun` | relayer/ibcv2/retry_ack_packet.go:44-84 | over every disciplined run a row all of whose copies are errored stays as it is until it is pushed again |
| `Retries.RetryReachesSnapshots` | relayer/ibcv2/retry_timeout_packet.go:44-84 | over every disciplined run: from a retry that forgets a tx until the row is pushed again, the row is without that tx, and every snapshot of it until then is too |
| `Provenance.TxsWereTold` | relayer/ibcv2/batch_recv_packet.go:131-172 | in every run, disciplined or not, hash, time and relayer of every recorded recv, ack or timeout are those of one tx of that kind that a stage working for that row found on chain or delivered |
| `Provenance.StatusWasTold` | relayer/ibcv2/wait_for_write_ack.go:41-123 | and the status of every recorded write ack is one decoded for that row, or unknown for one that could not be decoded |
| `Provenance.FailedWasUnroutable` | relayer/ibcv2/relay_dispatcher.go:98-133 | and a row is FAILED only because it was pushed when no pipeline took it and the mark was saved |
| `Gates.RowBlind` | relayer/ibcv2/processor_mw.go:57-144 | no stage decides anything by the row: equal copies over different rows stay equal |
| `Gates.RemembersRun` | relayer/ibcv2/pipeline.go:118-208 | in every run, disciplined or not, each copy's memory and trace are those of a pass over the row it was loaded from |
| `Gates.SubmissionsAreCleared` | relayer/ibcv2/pipeline.go:118-208 | in every run, disciplined or not, every submission a copy joined came after the answers that clear it, and every ack submission is of a kind that the options relay |
| `Gates.NoRecvOverTimeout` | relayer/ibcv2/batch_recv_packet.go:183-188 | if timeouts are found on chain only past the deadline, then over every run recorded timeouts are past it and no recv is submitted for a row with one |
| `Gates.RecvSubmittedExactly` | relayer/ibcv2/batch_recv_packet.go:54-188 | the recv stage submits exactly the live, listed transfers without a recv whose deadline is ahead at both looks |
| `FinalizedTime.RowTime` | relayer/ibcv2/check_write_ack_finality.go:67-77 | no stage writes the finalized time to a row with a key |
| `FinalizedTime.PassTime` | relayer/ibcv2/check_write_ack_finality.go:48-80 | over a pass memory has the time exactly once the gate said final and its update reported success |
| `FinalizedTime.FinalizedTimeIsNeverStored` | relayer/ibcv2/check_write_ack_finality.go:70-72 | in every run, disciplined or not, no row ever has the finalized time; a copy agrees with its row on it exactly if it has not passed the gate in this pass, and before the gate no copy has it |
| `Witnesses.StaleSnapshotReopens` | relayer/ibcv2/relay_dispatcher.go:92-136 | a run in which a transfer that is COMPLETE becomes unfinished again |
| `Witnesses.ReopenedExactly` | relayer/ibcv2/processor_mw.go:62-98 | a finished row is reopened exactly by a stage that takes the copy up and saves its status |
| `Witnesses.AckAloneReachable` | relayer/ibcv2/check_packet_commitment.go:142-163 | a disciplined run that leaves an ack alone past the deadline |
| `Witnesses.EndsTimedOut` | relayer/ibcv2/state_finisher.go:55-58 | an error-free pass past the deadline that ends COMPLETE_WITH_TIMEOUT, so the conditions of `PassOutcome` and `PassPastDeadline` can be met |
| `Witnesses.UnaskedTimeout` | relayer/ibcv2/check_timeout_finality.go:70-83 | a pass that submits a timeout without asking for the finality of the deadline |
| `Witnesses.FinalizedTimeLost` | relayer/ibcv2/check_write_ack_finality.go:67-77 | a disciplined run with an unerrored copy that holds the finalized time over a row that does not |
| `BatchNetwork.ResultCounts` | relayer/ibcv2/processor_mw.go:195-276 | the middleware returns its batch whole plus one more of each transfer whose status write failed |
| `BatchNetwork.ResultConserves` | relayer/ibcv2/processor_mw.go:195-276 | the same as multisets |
| `BatchNetwork.ConservesStep` | relayer/ibcv2/conditional_batch_processor.go:27-106 | no channel operation loses or adds a transfer, second copies aside |
| `BatchNetwork.NetworkRun` | relayer/ibcv2/conditional_batch_processor.go:27-106 | in every state of every interleaving nothing is lost, channels close in order, and nothing is sent on the closed output |
| `BatchNetwork.OutputIsInput` | relayer/ibcv2/conditional_batch_processor.go:27-106 | when the output closes it has carried the input plus the second copies |
| `BatchNetwork.OutputCounts` | relayer/ibcv2/conditional_batch_processor.go:27-106 | when the output closes each transfer came out as often as it went in, twice as often exactly if it was sent to the batch and its status write failed |
| `BatchNetwork.NoFailureNoExtra` | relayer/ibcv2/processor_mw.go:227-242 | there are no second copies if no status write fails |
| `BatchNetwork.BatchesFit` | relayer/ibcv2/conditional_batch_processor.go:52-76 | in every interleaving no batch is empty or larger than allowed, and no more are buffered than the channel holds |
| `BatchNetwork.BatchesKeepOrder` | relayer/ibcv2/conditional_batch_processor.go:27-106 | in every interleaving transfers are worked on in the order in which they were sent to the batch: those begun and then those waiting are exactly those sent |
| `BatchNetwork.NeverStuck` | relayer/ibcv2/conditional_batch_processor.go:27-106 | while the output is open some goroutine can go on |
| `BatchNetwork.RunsAreBounded` | relayer/ibcv2/conditional_batch_processor.go:27-106 | every run has at most as many operations as there was work at the start |
| `BatchNetwork.MaximalRunDelivers` | relayer/ibcv2/conditional_batch_processor.go:27-106 | a run that can go no further has closed the output with everything sent |
| `Processors.Storage.Exec` | db/gen/db/ibcv2_transfers.sql.go:258-503 | a statement updates its row or fails without effect |
| `Processors.Storage.ExecTx` | db/tx/tx.go:26-43 | a transaction has the effect of all its statements or of none |
| `Processors.IBCV2Transfer.constructor` | relayer/ibcv2/ibcv2_transfer.go:69-149 | the object holds the row as loaded |
| `Processors.CheckRecvPacketDelivery` | relayer/ibcv2/check_recv_packet_delivery.go:30-126 | object and table become what `Effect` says |
| `Processors.CheckPacketCommitment` | relayer/ibcv2/check_packet_commitment.go:45-208 | object and table become what `Effect` says |
| `Processors.CheckSendFinalityProcess` | relayer/ibcv2/check_send_finality.go:42-95 | object and table become what `Effect` says |
| `Processors.CheckTimeoutFinalityProcess` | relayer/ibcv2/check_timeout_finality.go:31-83 | object and table become what `Effect` says |
| `Processors.RetryPacket` | relayer/ibcv2/retry_ack_packet.go:44-124 | object and table become what `Effect` says, for the three retries, and so what their lines of `StageTable` say |
| `Processors.CalculateTxGas` | relayer/ibcv2/ack_tx_gas_calculator.go:40-92 | the table becomes what `Effect` says and the object stays, for the three calculators |
| `Processors.WaitForWriteAckProcess` | relayer/ibcv2/wait_for_write_ack.go:41-150 | object and table become what `Effect` says |
| `Processors.CheckWriteAckFinalityProcess` | relayer/ibcv2/check_write_ack_finality.go:48-130 | object and table become what `Effect` says, the update under the empty key included |
| `Processors.ProcessMW` | relayer/ibcv2/processor_mw.go:57-144 | object and table become what `SingleStep` says |
| `Processors.FinishProcess` | relayer/ibcv2/state_finisher.go:32-102 | object and table become what `FinishStep` says, and so what `StageTable.FinishLine` says |
| `Requests.HexDecodes` | relayer/ibcv2/batch_ack_packet.go:78-83 | exactly the strings of an even number of hex digits decode, each two digits to the byte they stand for |
| `Requests.SameTx` | relayer/ibcv2/batch_ack_packet.go:78-83 | two decodable hashes name the same tx exactly if, without a leading 0x, they are equal up to letter case |
| `Requests.SequencesAreListed` | relayer/ibcv2/batch_ack_packet.go:64-88 | the request lists, in order, exactly the sequences of the transfers not errored by the loop |
| `Requests.AckSeen` | relayer/ibcv2/batch_ack_packet.go:66-88 | the loop has seen exactly the hashes of the decodable items |
| `Requests.AckStep` | relayer/ibcv2/batch_ack_packet.go:67-88 | a round of the loop lists the transfer exactly if its hash decodes, and names the tx exactly if the hash comes up first |
| `Requests.AckRequest` | relayer/ibcv2/batch_ack_packet.go:62-101 | an ack request lists exactly the transfers with a decodable hash and names each hash's tx once, where it first comes up |
| `Requests.AckRequestCovers` | relayer/ibcv2/batch_ack_packet.go:62-101 | the tx of every listed transfer is among those named |
| `Requests.AckTxsOnce` | relayer/ibcv2/batch_ack_packet.go:62-101 | an ack request names no tx twice exactly if no two different hashes in it are equal without a leading 0x and up to letter case |
| `Requests.AckTxTwice` | relayer/ibcv2/batch_ack_packet.go:62-101 | two spellings of one tx: an ack request names it twice |
| `Requests.SourceRequest` | relayer/ibcv2/batch_recv_packet.go:56-75 | a recv or timeout request names a tx for every decodable transfer, a hash equal to the chain id aside |
| `Requests.SourceRequestCovers` | relayer/ibcv2/batch_recv_packet.go:56-75 | the tx of every listed transfer whose hash is not taken for the chain is among those named |
| `Requests.SourceTxsOnce` | relayer/ibcv2/timeout_packet.go:58-77 | so it names no tx twice exactly if no two of its decodable transfers, those with a hash taken for the chain aside, were sent in one tx |
| `Requests.SourceTxTwice` | relayer/ibcv2/batch_recv_packet.go:73-73 | two packets of one tx: the recv request names it twice, an ack request would once |
| `Batches.ToProcessIsAdmitted` | relayer/ibcv2/processor_mw.go:195-246 | the batch processor gets each admitted transfer once and no other |
| `Batches.Consider` | relayer/ibcv2/processor_mw.go:197-246 | one round of the middleware's loop: the transfer's new value, its verdict and its status update |
| `Batches.Select` | relayer/ibcv2/processor_mw.go:195-246 | the loop splits the batch by verdict, in order, marks exactly the admitted, and makes exactly their status updates |
| `Batches.Join` | relayer/ibcv2/batch_ack_packet.go:67-88 | one round of the request loop: the request of `Requests` with one more item, the packet's own sequence joined exactly if it is listed, and the transfer errored exactly if it is not |
| `Batches.BuildRequest` | relayer/ibcv2/batch_recv_packet.go:56-75 | the loop builds the request of `Requests`, lists in order the sequences of exactly the packets it does not error, and errors the others |
| `Batches.Statements` | relayer/ibcv2/batch_recv_packet.go:132-155 | the loop makes one update for each unerrored transfer, in order |
| `Batches.RecordRows` | relayer/ibcv2/batch_recv_packet.go:131-160 | in one transaction every unerrored transfer's row takes the tx, or the table stays as it is |
| `Batches.RecordInMemory` | relayer/ibcv2/batch_ack_packet.go:173-181 | every unerrored transfer takes the tx |
| `Batches.DeliverBatch` | relayer/ibcv2/batch_ack_packet.go:62-182 | what becomes of each transfer and of the table when the batch errs and when it does not |
| `Batches.ProcessBatchMW` | relayer/ibcv2/processor_mw.go:186-277 | the output is the processed before the skipped, every admitted transfer has its outcome and the others stay, and the table has had the status updates and then, unless the batch erred, the tx updates |
| `Batches.OutcomeIsBatch` | relayer/ibcv2/batch_ack_packet.go:62-182 | that outcome and those updates are what `Batch` says of a transfer and its row |
| `Batches.PutBatch` | relayer/ibcv2/processor_mw.go:186-277 | every row after the batch, whatever transfers share it: marked exactly if the status of one of its transfers was saved, given the tx exactly if one of them takes it |
| `Batches.BatchOnTable` | relayer/ibcv2/processor_mw.go:186-277 | an admitted transfer and its row in the table become what `Batch` says, if no other transfer of the batch writes more to that row |
| `Batches.MiddlewareIsStage` | relayer/ibcv2/processor_mw.go:186-277 | after the middleware a transfer that the splitter sent, and its row in the table, are what the batched stage makes of them, if no other admitted transfer shares the row |
| `Batches.BatchIsStage` | relayer/ibcv2/conditional_batch_processor.go:27-50 | from one transfer, splitter and middleware are the pipeline's batched stage, and the transfer is returned twice exactly if it is admitted and its status not saved |
| `Batches.NetworkIsStage` | relayer/ibcv2/conditional_batch_processor.go:27-106 | whatever the interleaving, a batched stage emits each input once, or twice exactly in that case, and leaves alone what the splitter does not send to the batch |
| `Batches.AckItemsRemember` | relayer/ibcv2/batch_ack_packet.go:67-88 | an admitted ack batch meets the condition of `AckRequest`, and no transfer in it lacks a hash |
| `Batches.SourceItemsRememberChain` | relayer/ibcv2/timeout_packet.go:61-77 | a batch of one source chain meets the condition of `SourceRequest` |
| `Batches.RequestListsSequences` | relayer/ibcv2/batch_recv_packet.go:56-75 | the request for a batch lists, in order, exactly the packet sequences, as uint32, of the transfers the loop does not error |
| `Batches.AckRequestNames` | relayer/ibcv2/batch_ack_packet.go:62-101 | the request for an ack batch lists exactly the transfers whose write ack hash decodes, and names the tx of each |
| `Batches.SourceRequestNames` | relayer/ibcv2/timeout_packet.go:58-77 | the request for a recv or timeout batch of one chain lists exactly the transfers whose source tx hash decodes or is taken for the chain, and names the tx of each of the former |
| `Dispatcher.PipelineDeduper.Push` | relayer/ibcv2/pipeline.go:345-383 | a transfer is pushed exactly if its key is not in the map, and then it is |
| `Dispatcher.RelayDispatcher.OutputRound` | relayer/ibcv2/pipeline.go:356-367 | a round of the output loop is a poll and a delete of `Dispatch`, on the map of the transfer's own deduper |
| `Dispatcher.RelayDispatcher.Pipeline` | relayer/ibcv2/pipeline.go:256-269 | the pipeline of the transfer's key, created if need be, none without configuration; no two keys share a deduper |
| `Dispatcher.RelayDispatcher.SubmitTransfer` | relayer/ibcv2/relay_dispatcher.go:145-157 | maps and result are what a push of `Dispatch` says, and the pipelines gain a copy of the row exactly if it was pushed |
| `Dispatcher.RelayDispatcher.SubmitOrFail` | relayer/ibcv2/relay_dispatcher.go:98-133 | a transfer without a pipeline is marked FAILED; otherwise as above |
| `Dispatcher.RelayDispatcher.SubmitWaitingUnfinishedTransfers` | relayer/ibcv2/relay_dispatcher.go:92-136 | the loop is a snapshot followed by one push for every unfinished row |
| `Evm.TimestampIsFinalBlock` | shared/bridges/ibcv2/evm_bridge_client.go:605-634 | a timestamp is judged finalized exactly if a block whose txs are judged finalized has reached it, in both modes |
| `Evm.FinalTimestampCoversEarlierTxs` | shared/bridges/ibcv2/evm_bridge_client.go:574-634 | then every tx of an earlier block is judged finalized at the same head |
| `Evm.FinalityIsForGood` | shared/bridges/ibcv2/evm_bridge_client.go:574-634 | both verdicts stay true at every later head |
| `Evm.FinalityIs` | shared/bridges/ibcv2/evm_bridge_client.go:574-634 | both verdicts from the chain itself: without an offset by the finalized block, with one by the newest block less the offset, and no to an offset beyond the chain |
| `Evm.EncodePacked` | shared/bridges/ibcv2/evm_bridge_client.go:640-657 | the loop writes the values one after the other, and fails exactly on an unsupported one |
| `Evm.BigEndianInjective` | shared/bridges/ibcv2/evm_bridge_client.go:114-118 | eight big-endian bytes determine the sequence |
| `Evm.BigEndianRoundTrip` | shared/bridges/ibcv2/evm_bridge_client.go:114-118 | read with the most significant byte first they are the sequence again |
| `Evm.PathsAreInjective` | shared/bridges/ibcv2/evm_bridge_client.go:113-152 | two commitment or receipt paths coincide exactly if client, kind and sequence do |
| `Evm.KindsNeverCoincide` | shared/bridges/ibcv2/evm_bridge_client.go:113-152 | a commitment path is client, 1 and sequence, a receipt path client, 2 and sequence, and none of one is one of the other |
| `Once.InvStep` | shared/bridges/ibcv2/once.go:30-85 | what every step of every concurrent call keeps of calls, entries and map |
| `Once.ActionsRunOnce` | shared/bridges/ibcv2/once.go:30-55 | in every interleaving an entry's action runs at most once, and is the one given by the call that created the entry, for its key |
| `Once.RepliesAreForTheKey` | shared/bridges/ibcv2/once.go:30-85 | a call returns the one reply of an action for its own key, from an entry it created or saw younger than the timeout that applied |
| `Once.ReplacedOnlyWhenExpired` | shared/bridges/ibcv2/once.go:32-37 | of two entries for one key at least one was replaced after a look that found it as old as the timeout for what it held, error or success |
| `Once.EntriesWereMade` | shared/bridges/ibcv2/once.go:30-37 | every entry was made by a lookup of its owner for its key, and its two timeouts run from the clock as that lookup read it |
| `Once.LooksWereTaken` | shared/bridges/ibcv2/once.go:30-37 | what a call saw of the entry it found is what was there when it looked |
| `Once.MapOnlyGrows` | shared/bridges/ibcv2/once.go:44-51 | no run ever removes a key from the map |
| `Once.CleanKeepsMap` | shared/bridges/ibcv2/once.go:48-50 | the cleanup leaves the map as it is |
| `Once.OnceWithKey.LookUpOrCreate` | shared/bridges/ibcv2/once.go:31-37 | the first critical section of `Do` is a lookup step |
| `Once.OnceWithKey.StartAction` | shared/bridges/ibcv2/once.go:39-39 | starting the action is a start step |
| `Once.OnceWithKey.FinishAction` | shared/bridges/ibcv2/once.go:39-39 | its return is a finish step |
| `Once.OnceWithKey.JoinAction` | shared/bridges/ibcv2/once.go:39-39 | waiting for it is a join step |
| `Once.OnceWithKey.SetError` | shared/bridges/ibcv2/once.go:40-42 | recording the error is a record step |
| `Once.OnceWithKey.Cleanup` | shared/bridges/ibcv2/once.go:44-51 | the last critical section of `Do` is a clean step |
| `Once.OnceWithKey.Do` | shared/bridges/ibcv2/once.go:30-54 | with nothing to wait for, it runs and returns the action given exactly if the key has no entry or an expired one, and else returns the reply of that entry; no other entry gets a reply |
| `Prices.KeysCoincideExactly` | shared/clients/coingecko/price_client.go:41-43 | two lookups share a key exactly if their ids agree up to trailing slashes, their currencies up to leading ones, and they have equally many of those |
| `Prices.PlainKeysAreInjective` | shared/clients/coingecko/price_client.go:41-43 | so the key is injective on ids without a trailing and currencies without a leading slash |
| `Prices.KeysCollide` | shared/clients/coingecko/price_client.go:41-43 | two different lookups with the same key |
| `Prices.EntryIsLastStored` | shared/clients/coingecko/price_client.go:56-62 | after any sections an entry is the last price stored under its key |
| `Prices.ServedUnderItsKey` | shared/clients/coingecko/price_client.go:45-65 | in every interleaving of calls a look that is served gets the last price stored under its key, no older than the interval |
| `Prices.ServedWhileFresh` | shared/clients/coingecko/price_client.go:45-65 | and the last price stored under the key is served exactly if it is no older than the interval |
| `Prices.ServedForItsPair` | shared/clients/coingecko/price_client.go:45-65 | in every interleaving of calls that all look for plain pairs, that price was fetched for the pair itself and is the last one fetched for it |
| `Prices.CachedPriceClient.Lookup` | shared/clients/coingecko/price_client.go:46-50 | the section under the read lock is a look, and is served what the history of sections says |
| `Prices.CachedPriceClient.Store` | shared/clients/coingecko/price_client.go:56-62 | the section under the write lock stores the price under the pair's key |
| `Prices.CachedPriceClient.GetSimplePrice` | shared/clients/coingecko/price_client.go:45-65 | a call looks; served, it returns that and stores nothing; else it returns the fetched price and stores it, or fails and stores nothing |
| `RelayApi.Relay` | relayerapi/services/relayerapi/service.go:99-195 | when the call succeeds and with which code it fails; in every case the table has had the inserts of `InsertTransfer` for the packets before the first failure, whose new rows `NewRowsAreForPackets` describes |
| `RelayApi.InsertTransfer` | db/gen/db/ibcv2_transfers.sql.go:204-240 | an insert adds the packet's row, field by field as `NewRowsAreForPackets` says, unless its key is taken |
| `RelayApi.PacketsHaveRows` | relayerapi/services/relayerapi/service.go:154-191 | the loop keeps every row and leaves a row for every handled packet with a known client |
| `RelayApi.NewRowsAreForPackets` | relayerapi/services/relayerapi/service.go:154-191 | every new row is of the first packet with its key: destination chain that of the client, source tx that of the call, clients and deadline those of the packet, nothing recorded yet |
| `RelayApi.NewRowsAreForCalls` | relayerapi/services/relayerapi/service.go:154-191 | the same over any sequence of calls: every row that was not there before is of a packet of one of them |
| `RelayApi.RelayedPacketsHaveRows` | relayerapi/services/relayerapi/service.go:154-191 | after any sequence of calls one of which succeeded, each packet of its tx with a known client has its one row, which gives back the sequence below 2^32 and is hit by updates; no earlier row changed; and if the row is new it is, field by field, that of a packet of one of the calls |
| `RelayApi.KeysCollideExactly` | relayerapi/services/relayerapi/service.go:169-173 | two packets of a chain share a row exactly if client and low 32 bits of the sequence agree |
| `RelayApi.PacketIsInsert` | relayerapi/services/relayerapi/service.go:164-178 | inserting a packet is an insert step of the state machine |
| `RelayApi.PendingIsUnfinished` | relayerapi/services/relayerapi/service.go:197-209 | Status says pending exactly of the rows the dispatcher would select |

## Left out

- RPC, gRPC, Postgres and Redis clients, signing, ABI bindings, generated code: only their answers appear, as inputs.
- Chain clients for Cosmos, search for txs on chain, tx building and broadcast, gas and fee arithmetic: they only supply answers.
- `ShouldRetryTx`: a retry decision is one of the answers.
- Keccak and SHA-256: paths are compared before hashing, and nothing is claimed of collisions.
- Metrics, logging, latency alerts and `updated_at`: no effect on the state machine.
- Context cancellation and shutdown: what is dropped then is up to the pipeline library.
- Errors are kept as their presence; the text of an error decides nothing here.
- Source tx time, bytes and addresses that no modelled decision reads.
- The two goroutines that search for an ack and a timeout tx are two answers; that finding one cancels the other only makes some pairs of answers impossible.
- The mutexes of `PipelineDeduper`, `OnceWithKey` and `CachedPriceClient` appear as the atomicity of the sections they guard; a push that blocks on the pipeline's channel while it holds the lock appears as one step.
- Once.OnceWithKey.Do: is about a call that no other call interrupts and that need not wait for a running action; all others are interleavings of the section methods, each of which is a step of `Once`.
- `BatchNetwork` has the goroutines of `ConditionallyBatchProcess` as steps on values, not as Dafny loops over channels; the worker pool of the pipeline library is `concurrency` workers.
- Lifecycle.AckAloneForGood: does not see a recv batch that looked before the deadline and is recorded after it, because a stage is one step.
- Gates.NoRecvOverTimeout: is about the moment of the recv stage's looks, for the same reason.
- A panic inside an action of `OnceWithKey`, and keys that are not comparable.
- RelayApi.Relay: the duplicate-key answer to the insert of a relay submission is not modelled, since that statement ignores conflicts and cannot give it; were it given, the call would succeed without looking at packets.
- Prices.CachedPriceClient.GetSimplePrice: is about a call that no other call interrupts; interrupted ones are interleavings of `Lookup` and `Store`, which `ServedForItsPair` covers.
- Batches.MiddlewareIsStage: leaves out two admitted transfers over one row, which only two live copies of the row in one batch can be; what the row is then, `PutBatch` says.
- Prices as decimals: a price is a real number that is stored and returned, never computed with.
