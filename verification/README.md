# A model of BlockEmulator-X

This project models the consensus, execution, account migration and broker logic of a sharded
blockchain emulator in Dafny and proves properties of that model. `dafny verify dfyconfig.toml` checks
all of it. Each module follows one source file or one system assembled from several.

## How the pieces fit

- **Values.** `Types` and `Sums` hold addresses, transactions, account states, the default location rule
  and finite sums. A hash is the thing it was taken of, so hashing is injective.
- **Replicated log.** `ViewSeqs`, `PriorityQueues` and `MessagePools` are the ordered message buffers.
  `PbftMetas` and `PbftReplicas` are one replica, as a value and as the imperative node proved against
  it. `PbftSystem` puts the replicas into a message soup with Byzantine members who can send anything
  under their own name. `PbftAgreement` proves agreement of digests, `PbftLeader` agreement of blocks
  and `PbftPrefix` agreement of chains under an honest leader, `PbftBuffering` independence of arrival
  order, `PbftPasses` what a pass of the run loop achieves, and `CatchUpAnswers` when a request is
  answered; `PbftWitness` builds runs in which a hypothesis fails.
- **Chain.** `Execution` is what transactions do to accounts, `ExecutionLaws` what that means; `Chains`
  generates and adds blocks.
- **Partitioning.** `Graphs`, `Clpa` and `ClpaStates` are the label propagation with its incremental
  weights. Weights are doubled, which makes them integers.
- **Shards.** `Migration` is a leader's epoch metadata, `MigrationOps`, `TxPools`, `TxBlockOps` and
  `DynamicShardOps` are what a leader does, `Routing` says where transactions go, `BrokerRouting` the
  same for broker mode, `ClpaRelay` is the supervisor. `ShardSystem` composes them into one state
  machine: a leader per shard, the supervisor, and all messages between them. `ShardInvariant`,
  `ShardSteps`, `ShardHandOver` and `ShardValue` carry the proofs; `ShardSafety` states what holds over
  every run, `ShardTxs` that no transaction is dropped or doubled, `ShardLeaks` and `ShardLeakRuns`
  where value changes. A shard counts there as one leader whose accounts change when a block commits;
  `PbftPrefix` (one log per shard), `ShardRefinement` and `MigrationOps.CommitRefinesStep` (what the
  leader's pool and chain do is what the steps say) justify that.
- **Brokers.** `Brokers` is the two-stage manager, `StaticBrokers`, `StaticBrokerSlack` and
  `StaticBrokerCommittees` the reservation ledger, `BrokerSystem` the ledger together with the shards it
  drives, `BrokerFallback` what becomes of transactions no broker takes, `BrokerSpending` what an
  ordinary transaction of a broker does to it.

Methods are proved against functions on values; the lemmas are about those functions.

## Hypotheses, and where the code needs them

Where a property fails of the code, the model keeps the code as it is and proves exactly when the
property holds.

- **Quorums.** `f = (NodeNum - 1) / 3` with threshold `2f + 1` forces an honest member into every two
  quorums exactly when `NodeNum` is of the form `3f + 1` (`PbftAgreement.QuorumsMeetExactlyWhen`);
  `PbftWitness.FiveMembersDisagree` is a run in which it is not.
- **Catching up.** A response is adopted without comparing it with the replica's own state. It keeps
  votes unique exactly when it does not go below the frontier of what the replica has voted
  (`PbftAgreement.CatchUpKeepsVotesExactlyWhen`), keeps the replica on the log exactly when its blocks
  fit the replica's chain (`PbftPrefix.CatchUpSafeExactlyWhen`, over runs
  `PbftPrefix.OnTrackExactlyWhen`), and loses no vote exactly when it goes
  forward or stays in a round without a preprepare (`PbftBuffering.CatchUpLosesNoVoteExactlyWhen`).
  `PbftWitness.BackwardCatchUpDisagrees`, `PbftWitness.StaleAnswerDoublesBlock` and
  `PbftWitness.TimelyAnswerFailsWithByzantine` are runs in which it goes wrong.
- **Digests** are taken as sent. Blocks agree with an honest leader (`PbftLeader.BlockAgreement`); with a
  Byzantine one only digests do (`PbftWitness.DigestAloneDoesNotFixBlock`).
- **Senders** are authenticated members of the shard. A preprepare carries no sender, so its node number
  is zero, which is the leader's.
- **Messages between shards** may be delayed and reordered but are neither lost nor duplicated. A second
  copy of an account-migration message that arrives after its epoch is over is kept for the next epoch
  (`Migration.LateDuplicateLeaks`). A leader's message to itself goes the way of the others here; in the
  source it goes straight into its own buffer (pkg/network/clientconnrpc/rpcconn.go:120), which is one of
  the orders covered.
- **Value.** The only hypothesis of `ShardSafety.ValueLaw` is that all value ever around fits a 256-bit
  balance. It counts two leaks of the code: an account drained to zero balance and nonce is deleted
  (EIP-161) and holds the initial balance at its next touch, and transactions packed into a block that
  fails to execute are gone from the pool. `ShardLeaks` says exactly which steps leak, and `ShardLeakRuns`
  has a run for each leak.
- **Self-loops.** The incremental weights disagree with the recompute exactly for moved vertices with a
  self-loop (`Clpa.DriftLaw`, `Clpa.KeptExactlyWhen`).
- **Brokers.** Confirmations are for emitted halves (`Brokers.ConfirmingKeepsExactlyWhen`); a transaction
  injected again while under way leaves reservations behind
  (`StaticBrokerSlack.PendingIsOutstandingExactlyWhen`); brokers do not send ordinary transactions
  (`BrokerSpending.OrdinarySpendingWrapsExactlyWhen`), and no credit overflows.

## Model

| member | source | states |
|---|---|---|
| ViewSeqs.CompareIsTotalOrder | consensus/pbft/basicstructs/viewseq.go:8-26 | the comparison is a total order, and the next sequence number is the least pair above |
| PriorityQueues.RootIsLeast | consensus/pbft/basicstructs/pq.go:27-54 | in a heap no item comes before the one at the root |
| PriorityQueues.RisesOne | consensus/pbft/basicstructs/pq.go:48-50 | one swap of sifting up leaves only the item swapped up out of order |
| PriorityQueues.SinksOne | consensus/pbft/basicstructs/pq.go:52-54 | one swap with the lesser child leaves only the item swapped down out of order |
| PriorityQueues.PriorityQueue.PushItem | consensus/pbft/basicstructs/pq.go:48-50 | a push adds the item and keeps the heap order |
| PriorityQueues.PriorityQueue.PopItem | consensus/pbft/basicstructs/pq.go:52-54 | a pop removes one occurrence of an item that no other comes before and keeps the heap order |
| MessagePools.ReadUpTo | consensus/pbft/basicstructs/pool.go:24-106 | a read returns, in (view, sequence) order, exactly the messages at or below the end and leaves exactly the rest |
| MessagePools.MsgPool.ReadPreprepareMsg | consensus/pbft/basicstructs/pool.go:24-50 | the same for preprepares |
| MessagePools.MsgPool.ReadPrepareMsg | consensus/pbft/basicstructs/pool.go:52-78 | the same for prepares |
| MessagePools.MsgPool.ReadCommitMsg | consensus/pbft/basicstructs/pool.go:80-106 | the same for commits |
| PbftMetas.ConsensusMeta.CurateMsg | consensus/pbft/pbftmeta.go:85-130 | settles on a proper buffered preprepare if there is one; with one, all buffered votes for the round and digest are counted and everything up to the round is gone; without one, votes wait |
| PbftMetas.ReadSenders | consensus/pbft/pbftmeta.go:108-129 | reading up to the round misses no vote of the round |
| PbftMetas.Count | consensus/pbft/pbftmeta.go:108-129 | counts exactly the senders for this round and digest |
| PbftMetas.FirstProper | consensus/pbft/pbftmeta.go:86-102 | the first message of this round from the leader, none only if there is none |
| PbftMetas.ConsensusMeta.Step2Next | consensus/pbft/pbftmeta.go:133-174 | one stage transition with the thresholds 2f + 1 and the reset of the next round |
| PbftMetas.ConsensusMeta.UpdateLatestViewSeq | consensus/pbft/pbftmeta.go:177-182 | keeps the greatest (view, sequence) heard of |
| PbftMetas.ConsensusMeta.CatchupIsReady | consensus/pbft/pbftmeta.go:185-192 | ready exactly when not started and five sequence numbers behind in the same view |
| PbftMetas.ConsensusMeta.CatchupOverAndReset | consensus/pbft/pbftmeta.go:194-206 | adopts the given round and resets everything of the old one, the buffers apart |
| PbftReplicas.Node.HandleMessage | consensus/pbft/node.go:204-373 | the effect and the answer of every message kind, out-of-date ones ignored |
| PbftReplicas.Node.Step2NextStage | consensus/pbft/node.go:376-423 | steps until no stage change happens or a round is over, sending a prepare and a commit vote on the way |
| PbftReplicas.Node.ProposeBlock | consensus/pbft/node.go:426-468 | proposes the next block at the current round, or nothing |
| PbftReplicas.Node.CatchUpStart | consensus/pbft/node.go:494-514 | asks for the blocks above the own height |
| PbftReplicas.Node.RunOnce | consensus/pbft/node.go:148-192 | one pass: all messages, then curating, then stages, then proposing or asking to catch up |
| PbftReplicas.AdvancedAllIsSteps | consensus/pbft/node.go:376-423 | the stage loop is a sequence of single transitions, with the same messages |
| PbftReplicas.RanIsActions | consensus/pbft/node.go:148-192 | a pass of the run loop is a sequence of actions that sends the same messages |
| PbftPasses.RoundEndsExactlyWhen | consensus/pbft/node.go:376-423 | the stage loop ends the round, adding its block, exactly when there are a preprepare and both quorums; otherwise it stops for lack of one of them |
| PbftPasses.VotesSentExactlyWhen | consensus/pbft/node.go:376-423 | which votes the stage loop sends, and when |
| PbftPasses.PassEndsExactlyWhen | consensus/pbft/node.go:148-192 | a pass sends a request exactly when the replica is no leader, has not asked and is five behind, and a preprepare exactly when the leader may propose and has something to offer |
| PbftPasses.RoundInOnePass | consensus/pbft/node.go:148-192 | a replica that hears the preprepare and both quorums in one pass, in any order, has the block on its chain after it |
| PbftSystem.RunOnceIsPath | consensus/pbft/node.go:148-192 | over messages that have arrived, a pass of the node is a path of the system, and the soup grows by exactly what the node sent |
| PbftAgreement.HonestInBoth | consensus/pbft/pbftmeta.go:64-64 | with 3f + 1 members, at most f Byzantine, two sets of 2f + 1 share an honest member |
| PbftAgreement.QuorumsMeetExactlyWhen | consensus/pbft/pbftmeta.go:64-64 | the threshold forces an honest member into every two quorums exactly when the number of members is 1 modulo 3 |
| PbftAgreement.AdvanceKeeps | consensus/pbft/node.go:376-416 | a transition casts at most one vote, for the preprepare of the round, at the frontier |
| PbftAgreement.ReceiveKeeps | consensus/pbft/node.go:229-373 | taking in a message adds nothing unsent and forgets no vote cast |
| PbftAgreement.StepKeepsInv | consensus/pbft/node.go:148-192 | every step, Byzantine ones included, keeps votes unique and commits and decisions backed by quorums |
| PbftAgreement.VotesBacked | consensus/pbft/pbftmeta.go:144-151 | in every run each honest commit vote is backed by 2f + 1 prepare votes for the same digest |
| PbftAgreement.CommitVotesAgree | consensus/pbft/pbftmeta.go:107-171 | two honest commit votes at one (view, sequence) are for the same digest |
| PbftAgreement.Agreement | consensus/pbft/pbftmeta.go:107-171 | in every run, with 3f + 1 members, at most f Byzantine and catching up only forward, no two honest replicas commit different digests at the same (view, sequence) |
| PbftLeader.BlockAgreement | consensus/pbft/node.go:387-405 | with an honest leader, in every run of the code, no two honest replicas ever commit different blocks or digests at the same (view, sequence), and each block has the digest committed |
| PbftLeader.StepKeepsInv | consensus/pbft/node.go:148-192 | every step, catching up anywhere included, keeps one proposal for each round behind all that honest replicas settle on and commit |
| PbftLeader.StepKeepsDigests | consensus/pbft/node.go:426-468 | an honest leader's preprepares carry the digest of their block, whatever the other members send |
| PbftWitness.DigestAloneDoesNotFixBlock | consensus/pbft/pbftmeta.go:85-102 | for any two blocks and any digest there is a run of four members with a Byzantine leader in which two honest replicas commit one block each under that digest |
| PbftAgreement.CatchUpKeepsVotesExactlyWhen | consensus/pbft/pbftmeta.go:194-206 | a catch-up leaves a replica unable to vote twice exactly when it does not go below its frontier |
| PbftWitness.FiveMembersDisagree | consensus/pbft/pbftmeta.go:64-64 | a run of five members with a Byzantine leader and no catching up in which two honest replicas commit different digests in one round |
| PbftWitness.BackwardCatchUpDisagrees | consensus/pbft/pbftmeta.go:194-206 | a run of four members with a Byzantine leader in which one answer that takes a replica back makes two honest replicas commit different digests in one round |
| PbftPrefix.PrefixAgreement | consensus/pbft/node.go:346-423 | with an honest leader, in every run whose adopted answers fit, honest chains are prefixes of one another and height is sequence plus one |
| PbftPrefix.PrefixAgreementWhenTimely | consensus/pbft/node.go:312-373 | without Byzantine members it is enough that answers are adopted at the height they were requested for |
| PbftPrefix.StepKeepsInv | consensus/pbft/node.go:148-192 | every step keeps one proposal per round, all chains on the log of proposals and heights in step |
| PbftPrefix.CatchUpSafeExactlyWhen | consensus/pbft/node.go:346-373 | adopting a leader's answer keeps the replica on the log at its height exactly when the answer starts right above its chain, or, from a leader below the height asked for, when both are at one height |
| PbftPrefix.AnswerFitsExactlyWhen | consensus/pbft/node.go:312-344 | when an answer fills exactly the gap between the replica's chain and the leader's height, in terms of the height requested |
| PbftPrefix.OnTrackExactlyWhen | consensus/pbft/node.go:346-423 | with an honest leader, honest chains are on the log at the height of their round in every state of a run exactly when every adopted answer fits |
| PbftWitness.StaleAnswerDoublesBlock | consensus/pbft/node.go:362-370 | a run with an honest leader in which an answer adopted after a commit in between puts a block on the chain twice |
| PbftWitness.TimelyAnswerFailsWithByzantine | consensus/pbft/node.go:229-258 | a run with an honest leader and one Byzantine preprepare in which an answer adopted at its requested height takes the round back below the chain |
| PbftPrefix.LeaderAnswers | consensus/pbft/node.go:312-344 | the leader's answer holds the logged blocks from the requested height to its own |
| CatchUpAnswers.AnsweredExactlyWhen | consensus/pbft/node.go:312-344 | a request is answered exactly when it starts at a positive height and wants at most 100 blocks, with the blocks from there on |
| CatchUpAnswers.LeaderAnswersExactlyWhen | consensus/pbft/node.go:312-344 | so does the leader in every run whose adopted answers fit |
| CatchUpAnswers.AskingCatchesUp | consensus/pbft/node.go:312-373 | an answer to a replica at most 100 blocks behind makes its chain and round the leader's |
| CatchUpAnswers.AnswerIsWalk | pkg/chain/chain.go:233-281 | the answer is what walking the parents of a linked chain yields, refused in the same cases |
| PbftPrefix.TimelyRunFits | consensus/pbft/pbftmeta.go:185-192 | whoever asks to catch up is at least the threshold behind the leader, so a timely answer fits |
| PbftBuffering.SetsAreAllVotesHeard | consensus/pbft/pbftmeta.go:85-130 | after curating with a preprepare, the vote sets are exactly the senders of all votes ever heard for the round and digest |
| PbftBuffering.OrderDoesNotMatter | consensus/pbft/node.go:260-310 | two replicas that heard the same votes in any orders hold the same sets |
| PbftBuffering.EarlyPreprepareFound | consensus/pbft/pbftmeta.go:85-102 | however early the leader's preprepare came, after curating in its round the replica has settled on one |
| PbftBuffering.LatestIsNewest | consensus/pbft/pbftmeta.go:177-182 | the latest round known is not before that of any preprepare taken in, and is that of one of them |
| PbftBuffering.CatchUpLosesNoVoteExactlyWhen | consensus/pbft/pbftmeta.go:194-206 | a catch-up loses no buffered vote exactly when it goes forward or stays in a round without a preprepare |
| Execution.NormalTxExecute | pkg/chain/txexecute.go:47-66 | the accounts after an ordinary transaction, and when it fails |
| Execution.RelayTxExecute | pkg/chain/txexecute.go:68-107 | the accounts after either half of a relay transaction, skipped in the wrong shard |
| Execution.BrokerTxExecute | pkg/chain/txexecute.go:109-154 | the accounts after either half of a broker transaction, the second debit unguarded |
| Execution.ExecuteTxs | pkg/chain/chain.go:585-591 | a block's transactions one after another; the first failure fails the block |
| Execution.FailurePersists | pkg/chain/chain.go:585-591 | what fails on a prefix of a block fails on the block |
| ExecutionLaws.ExecutesExactlyWhen | pkg/chain/txexecute.go:47-154 | a transaction executes exactly when its value is a word, its stage is one of its kind, and the sender can pay where it pays; second halves never fail |
| ExecutionLaws.BlockExecutesExactlyWhen | pkg/chain/chain.go:585-591 | a block executes exactly when each transaction does on the accounts the ones before it leave |
| ExecutionLaws.NormalBalances | pkg/chain/txexecute.go:47-66 | every balance after an ordinary transaction |
| ExecutionLaws.FirstRelayBalances | pkg/chain/txexecute.go:68-90 | every balance after a first relay half: the sender pays |
| ExecutionLaws.SecondRelayBalances | pkg/chain/txexecute.go:91-101 | every balance after a second relay half: the recipient receives |
| ExecutionLaws.FirstBrokerBalances | pkg/chain/txexecute.go:117-134 | every balance after a first broker half: the sender pays the broker |
| ExecutionLaws.SecondBrokerBalances | pkg/chain/txexecute.go:135-147 | every balance after a second broker half: the broker pays the recipient, modulo 2^256 |
| ExecutionLaws.ElsewhereUnchanged | pkg/chain/txexecute.go:68-154 | a relay or broker transaction in another shard than it acts in changes nothing |
| ExecutionLaws.NoncesKept | pkg/chain/txexecute.go:47-154 | no account disappears and no nonce changes |
| ExecutionLaws.DeletedExactlyWhen | pkg/chain/chain.go:327-376 | committing deletes exactly the accounts with neither balance nor nonce (EIP-161) |
| Execution.ExecTxValue | pkg/chain/txexecute.go:47-154 | a transaction changes the worth of the accounts by what it brings in less what it sends out |
| Execution.ExecTxsValue | pkg/chain/txexecute.go:47-107 | so does a block |
| Execution.ExecTxsFrame | pkg/chain/txexecute.go:47-107 | a block leaves accounts alone that it does not touch |
| Execution.ClearedWorth | pkg/chain/chain.go:339-339 | deleting empty accounts creates exactly one initial balance for each |
| Chains.LinkedExactlyWhen | pkg/chain/chain.go:137-175 | adding a block keeps the chain linked exactly when it extends the current header |
| Chains.HashFixesBlock | pkg/chain/chain.go:82-135 | the hash of a generated block fixes its transactions, migrated states, state, locations, height and parent |
| Chains.WalkIsTail | pkg/chain/chain.go:258-278 | following parents yields the newest blocks, oldest first |
| Chains.BlocksAreTail | pkg/chain/chain.go:233-281 | the answer is exactly the blocks from the requested to the current height, refused for a non-positive height or more than 100 blocks |
| Chains.GrownIsSound | pkg/chain/chain.go:310-325 | every chain grown from genesis by generating and adding is linked and its state can be opened |
| Chains.Chain.constructor | pkg/chain/chain.go:46-74 | a new chain holds the generated genesis block |
| Chains.Chain.CalcStateModification | pkg/chain/chain.go:579-619 | executes transactions, installs the migrated states meant for this shard and collects all location entries |
| Chains.Chain.GenerateBlock | pkg/chain/chain.go:82-132 | the block with the previewed roots, or none if it does not execute, the chain unchanged |
| Chains.Chain.AddBlock | pkg/chain/chain.go:137-175 | executes again, commits and takes over the header; on failure nothing changes |
| Chains.Chain.GetBlocksAfterHeight | pkg/chain/chain.go:233-281 | the parent walk with its limit and errors |
| Chains.Chain.GetAccountStates | pkg/chain/chain.go:516-539 | the stored or default state of each account with its location |
| Chains.Chain.GetAccountLocationsInTxs | pkg/chain/chain.go:378-401 | locations of all senders and recipients, entries over the default rule |
| Chains.InstalledAt | pkg/chain/stateio.go:46-58 | installing distinct accounts sets balance and nonce of those meant for this shard and no other |
| Types.DefaultAccountLoc | pkg/partition/accountloc.go:10-15 | the default shard is one of the shards |
| Types.DefaultLocOfBytes | pkg/partition/accountloc.go:9-15 | the default shard is the number spelt by the last four bytes, modulo the number of shards |
| Types.ReadStateExactly | pkg/chain/stateio.go:21-43 | what is read for hand-over is balance and nonce, those of an untouched account if there is none |
| Graphs.AddEdgeSymmetric | pkg/partition/graph.go:31-40 | adding an edge keeps the adjacency lists symmetric |
| Graphs.AddEdgeKeepsLoopFree | pkg/partition/graph.go:31-40 | and free of self-loops if its ends differ |
| Graphs.Graph.AddEdge | pkg/partition/graph.go:31-40 | lists each end at the other and adds both vertices |
| Clpa.NeighboursListBack | pkg/partition/graph.go:31-40 | what the other vertices of a shard list of a vertex is what it lists of them |
| Clpa.WeightMoves | pkg/partition/clpa.go:68-104 | how the recomputed weight of every shard changes when a vertex moves |
| Clpa.AdjustedTotals | pkg/partition/clpa.go:107-123 | what the incremental loop adds up to at the two shards |
| Clpa.DriftLaw | pkg/partition/clpa.go:107-123 | a move changes stored minus true weight by the self-loop entries of the vertex at the two shards, and nowhere else |
| Clpa.IncrementalExactlyWhen | pkg/partition/clpa.go:107-123 | from exact weights the incremental update gives the recompute exactly when the moved vertex has no self-loop |
| Clpa.KeptExactlyWhen | pkg/partition/clpa.go:68-123 | after any sequence of moves the incrementally kept weights equal the recompute exactly when no vertex moved is its own neighbour |
| Clpa.IncrementalRefinesRecompute | pkg/partition/clpa.go:68-123 | after any sequence of moves the kept weights are those of a recompute |
| Clpa.WeightsAddUp | pkg/partition/clpa.go:68-104 | all weights together are the edges plus the cross-shard edges |
| Clpa.EdgeAddsTwoEntries | pkg/partition/graph.go:31-40 | an edge adds two list entries |
| ClpaStates.CLPAState.AddEdge | pkg/partition/clpa.go:44-57 | new vertices get their default shard, counts stay right, nobody known moves |
| ClpaStates.CLPAState.ComputeEdges2Shard | pkg/partition/clpa.go:68-104 | weights, their minimum and the cross-shard count of the present partition |
| ClpaStates.CLPAState.ChangeShardRecompute | pkg/partition/clpa.go:107-123 | the incremental update and the new minimum |
| ClpaStates.CLPAState.CLPAPartition | pkg/partition/clpa.go:126-192 | the result is exactly the difference of the partitions, no vertex moves more than 50 times, inhabited shards stay inhabited, counts are right, and the weights the loop has kept equal a recompute exactly when no vertex moved is its own neighbour |
| ClpaStates.CLPAState.Consider | pkg/partition/clpa.go:139-175 | a vertex moves exactly when it has not moved too often, a different shard is chosen, and it is not alone in its own |
| ClpaStates.KeptRefined | pkg/partition/clpa.go:88-123 | at every step of the loop the weights kept are those of a recompute exactly when no vertex moved so far is its own neighbour |
| ClpaStates.CrossBelowIsAll | pkg/partition/clpa.go:68-86 | counted shard by shard or list by list, the cross-shard entries are the same |
| ClpaStates.Prune | pkg/partition/clpa.go:178-182 | dropping accounts that came back leaves the exact difference |
| ClpaStates.StillInhabited | pkg/partition/clpa.go:164-165 | a vertex that leaves a shard with at least two leaves one behind |
| ClpaStates.CountsMove | pkg/partition/clpa.go:169-171 | the counts follow a move |
| Migration.AccMigrateMetadata.MigrationStatusReset | consensus/pbft/migration/migration.go:39-44 | everything of the epoch is forgotten |
| Migration.AccMigrateMetadata.UpdateByRepartitionStartMsg | consensus/pbft/migration/migration.go:52-71 | takes the next epoch only, and the messages that waited for it |
| Migration.AccMigrateMetadata.CollectStatesByMsg | consensus/pbft/migration/migration.go:79-102 | rejects wrong destination, source or old epoch, buffers later epochs, records the rest |
| Migration.AccMigrateMetadata.GetMigratedAddrStates | consensus/pbft/migration/migration.go:105-144 | one state per moved account with its destination; for disjoint sources exactly what was sent, in whatever order the maps are merged |
| Migration.BufferKept | consensus/pbft/migration/migration.go:39-102 | buffered lists are non-empty only for later epochs and hold only their own epoch's messages |
| Migration.ResetForgets | consensus/pbft/migration/migration.go:39-44 | a reset leaves nothing of its epoch and touches no message of another |
| Migration.NotSentIsUntouched | consensus/pbft/migration/migration.go:105-144 | an account no source sent is handed over with the initial balance |
| Migration.InterleavingsAgree | consensus/pbft/migration/migration.go:52-102 | any interleaving of one start with one message per source gives the same metadata and leaves nothing waiting |
| Migration.LateDuplicateLeaks | consensus/pbft/migration/migration.go:88-99 | a copy that arrives after the reset is present in the next epoch exactly when it is of the epoch just finished |
| MigrationOps.MigrationBlockOp.MigrateAccounts | consensus/pbft/insideop/migrationblockop/migrationblockop.go:85-138 | one message for every shard, each with exactly the moved accounts living here that go there |
| MigrationOps.SentExactly | consensus/pbft/insideop/migrationblockop/migrationblockop.go:85-138 | which accounts each message carries, with their balance and nonce |
| MigrationOps.MigrationBlockOp.BuildMigrationProposal | consensus/pbft/insideop/migrationblockop/migrationblockop.go:45-82 | a block with the handed-over states once all shards' states are in, else nothing |
| MigrationOps.MigrationBlockOp.MigrationBlockCommit | consensus/pbft/insideop/migrationblockop/migrationblockop.go:141-152 | adds the block, takes over the epoch and resets; on failure nothing changes |
| MigrationOps.CommitRefinesStep | pkg/chain/chain.go:593-616 | on the chain a migration block has the effect of the commit step of the shard system |
| TxPools.TxPool.PackTxs | pkg/core/txpool/queue/queue.go:49-95 | first in, first out: at most the limit, less only if the pool is empty |
| TxPools.TxPool.AddTxs | pkg/core/txpool/queue/queue.go:40-47 | appends |
| TxBlockOps.RelayTxBlockOp.ModifyTxRelayOpt | consensus/pbft/insideop/txblockop/relaytxblockop.go:90-149 | cross-shard transactions become relay-1, misplaced ones are dropped |
| TxBlockOps.NoneDropped | consensus/pbft/insideop/txblockop/relaytxblockop.go:118-131 | what packing lets through is never dropped |
| TxBlockOps.DroppedExactlyWhen | consensus/pbft/insideop/txblockop/relaytxblockop.go:118-131 | a transaction is dropped exactly when undetermined with its sender elsewhere |
| TxBlockOps.RelayTxBlockOp.SplitTxs | consensus/pbft/insideop/txblockop/relaytxblockop.go:151-180 | three lists by stage |
| TxBlockOps.StagesConserve | consensus/pbft/insideop/txblockop/relaytxblockop.go:151-180 | which hold each transaction once |
| TxBlockOps.WithStageExactly | consensus/pbft/insideop/txblockop/relaytxblockop.go:151-180 | each list holds exactly the transactions of its stage, as often |
| TxBlockOps.RelayTxBlockOp.BlockCommitAndDeliver | consensus/pbft/insideop/txblockop/relaytxblockop.go:62-87 | adds the block; the leader reports it and sends every relay-1 transaction on as relay-2 to its recipient's shard |
| TxBlockOps.SortRelayed | consensus/pbft/insideop/txblockop/relaytxblockop.go:212-241 | the relay-2 lists by shard |
| TxBlockOps.ForShardCounts | pkg/message/senderfunc.go:14-43 | sending the lists sends each transaction to its destination once |
| TxBlockOps.BrokerTxBlockOp.SplitTxs | consensus/pbft/insideop/txblockop/brokertxblockop.go:92-149 | five lists by kind, relay fallbacks apart |
| TxBlockOps.KindsConserve | consensus/pbft/insideop/txblockop/brokertxblockop.go:92-149 | which with the invalid ones hold each transaction once |
| TxBlockOps.ReportExactly | consensus/pbft/insideop/txblockop/brokertxblockop.go:92-149 | which list of the report each transaction is in, and how often, by its type and stage |
| TxBlockOps.BrokerTxBlockOp.BlockCommitAndDeliver | consensus/pbft/insideop/txblockop/brokertxblockop.go:62-90 | adds the block; the leader reports it and relays the fallbacks |
| DynamicShardOps.DynamicShardOp.PackValidTxsInRelay | consensus/pbft/insideop/dynamicshardop.go:163-216 | packs at most the size, less only from an empty pool, of what belongs here, and sorts the rest by destination |
| DynamicShardOps.DynamicShardOp.PackValidTxsInBroker | consensus/pbft/insideop/dynamicshardop.go:218-283 | the same in broker mode, cross-shard transactions going back to the supervisor |
| DynamicShardOps.PackConserves | consensus/pbft/insideop/dynamicshardop.go:163-216 | packed and redirected transactions are those taken, each once |
| DynamicShardOps.SplitConserves | consensus/pbft/insideop/dynamicshardop.go:218-379 | in broker mode each transaction stays, is redirected or goes back, once |
| DynamicShardOps.MigrateConserves | consensus/pbft/insideop/dynamicshardop.go:294-327 | at a repartition each transaction is kept or follows its account, once |
| DynamicShardOps.DynamicShardOp.MigrateTxsInRelay | consensus/pbft/insideop/dynamicshardop.go:294-327 | transactions of moved accounts go to the new shard, the others back into the pool |
| DynamicShardOps.DynamicShardOp.MigrateTxsInBroker | consensus/pbft/insideop/dynamicshardop.go:329-379 | the same in broker mode |
| DynamicShardOps.MigratedDestAgrees | consensus/pbft/insideop/dynamicshardop.go:384-462 | for a transaction that belongs here the destination by moves is the destination by the new locations |
| BrokerRouting.PackedExactly | consensus/pbft/insideop/dynamicshardop.go:218-283 | a shard packs exactly what belongs to it, passes on exactly what belongs to another shard, there, and gives back what belongs to none |
| BrokerRouting.MovedExactly | consensus/pbft/insideop/dynamicshardop.go:329-379 | at a repartition the pool is split by where its ends live after the moves |
| BrokerRouting.MigratedExactly | consensus/pbft/insideop/dynamicshardop.go:384-462 | for transactions that belong here, that is where they belong by the new locations |
| BrokerRouting.BelongsActs | pkg/chain/txexecute.go:109-154 | a broker half belongs to exactly the shard that does not skip it |
| BrokerRouting.BelongingMovesValue | pkg/chain/txexecute.go:109-154 | where it belongs, a broker half moves its value between the broker and its end |
| DynamicShardOps.DynamicShardOp.BuildProposal | consensus/pbft/insideop/dynamicshardop.go:67-147 | a transaction block, or under a repartition accounts and transactions sent out once and the migration block when all states are in |
| Routing.PackValue | consensus/pbft/insideop/dynamicshardop.go:163-216 | packing splits the value of what was taken |
| Routing.ModifyAtHome | consensus/pbft/insideop/txblockop/relaytxblockop.go:90-149 | of packed transactions none is dropped, and everything a block touches lives here |
| Routing.RelayedValue | consensus/pbft/insideop/txblockop/relaytxblockop.go:212-241 | the relay-2 transactions sent carry the value the relay-1 transactions debit |
| ShardInvariant.OpenBarrier | supervisor/committee/partitionrunner.go:19-37 | when the barrier is open every leader is reset and nothing of the epoch is on its way |
| ShardInvariant.RepartitionKeepsInv | supervisor/committee/clparelay.go:129-157 | a repartition starts a new epoch in order |
| ShardInvariant.HandleReportKeepsInv | supervisor/committee/clparelay.go:87-123 | a block report keeps the barrier honest |
| ShardSteps.FullGot | consensus/pbft/insideop/migrationblockop/migrationblockop.go:45-60 | a leader with as many sources as shards has every shard's authentic states |
| ShardSteps.DeliverStartKeepsInv | consensus/pbft/migration/migration.go:52-71 | a start, early messages waiting or not, keeps the system in order |
| ShardSteps.DeliverMigrationKeepsInv | consensus/pbft/migration/migration.go:79-102 | so does an account-migration message, early or not |
| ShardSteps.ProposeTxsKeepsInv | consensus/pbft/insideop/dynamicshardop.go:106-118 | so does packing and proposing a transaction block |
| ShardSteps.CommitTxsKeepsInv | consensus/pbft/insideop/txblockop/relaytxblockop.go:62-87 | so does committing one |
| ShardHandOver.CaptureKeepsInv | consensus/pbft/insideop/dynamicshardop.go:120-142 | so does sending accounts and transactions out |
| ShardHandOver.CommitMigrationKeepsInv | consensus/pbft/insideop/migrationblockop/migrationblockop.go:141-152 | so does committing the migration block |
| ShardHandOver.SourcesDisjoint | consensus/pbft/insideop/migrationblockop/migrationblockop.go:85-117 | no two sources send the same account |
| ShardHandOver.HandOverExact | consensus/pbft/migration/migration.go:114-141 | what is merged for an account is its old shard's state, relocated |
| ShardSafety.StepKeepsInv | supervisor/committee/clparelay.go:63-157 | every step of the shard system keeps the invariant |
| ShardSafety.EpochsInStep | supervisor/committee/partitionrunner.go:19-37 | in every run reported epoch <= chain epoch <= migration epoch <= supervisor epoch <= reported epoch plus one |
| ShardSafety.LocationAgreement | supervisor/committee/clparelay.go:129-157 | in every run, when the barrier is open, all leaders are reset, nothing is on its way and every shard's locations are the supervisor's |
| ShardSafety.StartAccepted | consensus/pbft/migration/migration.go:52-56 | no repartition start is ever rejected, and it meets no leftover states |
| ShardSafety.MigrationAccepted | consensus/pbft/migration/migration.go:79-90 | no account-migration message is ever rejected |
| ShardSafety.FrozenUntilMigrated | consensus/pbft/insideop/dynamicshardop.go:67-75 | from sending out to the migration commit nothing else is proposed and the moved accounts stay as sent |
| ShardSafety.HandedOverExactly | consensus/pbft/insideop/migrationblockop/migrationblockop.go:85-117 | each moved account has one source, sources are disjoint, and the balance and nonce installed are those the source holds |
| ShardSafety.StepValue | pkg/chain/txexecute.go:47-107 | every step keeps value, the two leaks counted |
| ShardSafety.ValueLaw | pkg/chain/txexecute.go:47-107 | over every run, home balances, relay-2 values in flight and what failed proposals took down grow by one initial balance per cleared account and by nothing else |
| ShardLeaks.ProposeKeepsValueExactlyWhen | consensus/pbft/insideop/dynamicshardop.go:106-118 | proposing keeps the value exactly when the block packed executes or brings in nothing |
| ShardLeaks.CommitKeepsValueExactlyWhen | pkg/chain/chain.go:327-376 | committing a transaction block keeps the value exactly when it leaves no account empty |
| ShardLeaks.ValueConservedExactlyWhen | pkg/chain/chain.go:579-619 | value is conserved up to every state of a run exactly when every step had its guard |
| ShardLeakRuns.DrainedAccountGains | pkg/chain/txexecute.go:47-66 | a run in which an account sends all it has, is deleted, and one initial balance is gained |
| ShardLeakRuns.FailedProposalLoses | consensus/pbft/insideop/dynamicshardop.go:106-118 | a run in which a proposal fails that holds a relay-2 transaction, whose value is lost |
| ShardTxs.StepCount | consensus/pbft/insideop/dynamicshardop.go:163-379 | each step changes what is under way by what it injects and relays less what it executes and fails |
| ShardTxs.TransactionsConserved | consensus/pbft/insideop/dynamicshardop.go:163-379 | over every run each injected transaction, as often as injected, is on the wire, in a pool, proposed, completed, or lost with a failed proposal |
| ShardTxs.RelaysConserved | consensus/pbft/insideop/txblockop/relaytxblockop.go:212-241 | every executed relay-1 transaction has exactly one relay-2 transaction, in exactly one of these places, and there are no others |
| ShardRefinement.ProposeRefinesStep | consensus/pbft/insideop/dynamicshardop.go:106-118 | packing and generating on pool and chain is the propose step |
| ShardRefinement.CommitRefinesStep | consensus/pbft/insideop/txblockop/relaytxblockop.go:62-87 | adding a generated block to the chain succeeds and is the commit step |
| ShardRefinement.CaptureRefinesStep | consensus/pbft/insideop/dynamicshardop.go:120-142 | sending accounts and transactions out is the capture step |
| ShardValue.CommitTxsValue | consensus/pbft/insideop/txblockop/relaytxblockop.go:62-87 | committing a transaction block moves value between accounts and flight only |
| ShardValue.CommitMigrationValue | consensus/pbft/insideop/migrationblockop/migrationblockop.go:141-152 | committing a migration block moves the home of accounts, not their worth |
| ClpaRelay.PartitionRunner.CheckEpochSyncAndMark | supervisor/committee/partitionrunner.go:19-37 | opens exactly when all shards report the supervisor's epoch, and stays open |
| ClpaRelay.CLPARelayCommittee.HandleMsg | supervisor/committee/clparelay.go:87-123 | takes over newer epochs, learns the edges, moves nobody |
| ClpaRelay.CLPARelayCommittee.Repartition | supervisor/committee/clparelay.go:129-157 | announces the next epoch with exactly the accounts whose shard changed |
| ClpaRelay.CLPARelayCommittee.SendTxsAndConsensus | supervisor/committee/clparelay.go:63-85 | waits for the barrier, then repartitions or injects at the senders' shards |
| ClpaRelay.BatchIsInjected | supervisor/committee/clparelay.go:159-179 | what is sent for a batch is what injecting it into the shard system puts on the wire |
| ClpaRelay.CLPARelayCommittee.ShouldStop | supervisor/committee/clparelay.go:125-127 | enough empty blocks |
| ClpaRelay.EdgesLoopFree | supervisor/committee/clparelay.go:113-120 | reports without self-transfers never bring self-loops |
| ClpaRelay.EdgesCount | supervisor/committee/clparelay.go:113-120 | every reported transaction adds one edge |
| ClpaRelay.EdgesInOrder | supervisor/committee/clparelay.go:113-120 | a list grows by its neighbours in the order they are reported |
| ClpaRelay.SeenPartition | pkg/partition/clpa.go:195-204 | new vertices get exactly the shard assumed for them before |
| Committees.PackShardTxs | supervisor/committee/committee.go:37-56 | lists by shard, invalid shards left out |
| Committees.DirectedExactly | supervisor/committee/committee.go:37-56 | a transaction is sent to a shard as often as it is listed with it, and to no invalid one |
| Committees.DirectedKeepsAll | supervisor/committee/committee.go:37-56 | with valid shards nothing is lost and each transaction goes to its own |
| Committees.StopCountsEmptyTail | supervisor/committee/staticbroker.go:104-110 | after the last injection the stop count is the number of empty blocks since the last non-empty one; before, nothing counts |
| Brokers.Manager.CreateRawTx | pkg/broker/broker.go:91-126 | refused for no broker or a transaction under way; else recorded with the next nonce |
| Brokers.Manager.CreateBrokerTxs | pkg/broker/broker.go:129-161 | the halves of both ready lists, which are emptied |
| Brokers.Manager.ConfirmBrokerTx | pkg/broker/broker.go:164-194 | accepted exactly for the half the record waits for |
| Brokers.Manager.IsFinished | pkg/broker/broker.go:196-200 | nothing recorded and nothing ready |
| Brokers.HalvesComplete | pkg/broker/broker.go:203-232 | exactly one half for each hash on a ready list |
| Brokers.HalvesCarryOriginals | pkg/broker/broker.go:203-232 | over any events, every half sent is its original in all but the fields of the broker |
| Brokers.ConfirmingKeepsExactlyWhen | pkg/broker/broker.go:164-194 | a confirmation keeps the ready lists duplicate-free, disjoint and stage-correct exactly when it is for an emitted half |
| Brokers.LifeCycle | pkg/broker/broker.go:91-194 | over any run, creation, first half, its confirmation, second half, its confirmation follow one another, each once |
| Brokers.FinishedExactlyWhen | pkg/broker/broker.go:196-200 | finished exactly when every creation has both confirmations |
| Brokers.EmittedIsProper | pkg/broker/broker.go:164-194 | without repeated injection a confirmation of an emitted half is in order |
| Brokers.NoncesWithoutGaps | pkg/broker/broker.go:108-115 | the nonces issued per broker are 1, 2, 3 and so on |
| StaticBrokers.TriedSolvent | supervisor/committee/staticbroker.go:160-192 | reserving keeps every promise covered, in any order of brokers, refused raw transactions included |
| StaticBrokers.PaidSolvent | supervisor/committee/staticbroker.go:124-139 | paying keeps it so, and the pending deduction is never set to zero |
| StaticBrokers.PaidStaysPending | supervisor/committee/staticbroker.go:131-138 | whatever is confirmed, no pending deduction becomes negative, and a covered one goes down by the value |
| StaticBrokers.AlwaysSolvent | supervisor/committee/staticbroker.go:112-192 | in every run outstanding <= pending <= balance for every broker and shard, and no balance is negative |
| StaticBrokers.BalanceIsBooked | supervisor/committee/staticbroker.go:112-139 | in every run a kept balance is the initial one plus the first halves confirmed less the second |
| StaticBrokerSlack.RefusedExactlyWhen | supervisor/committee/staticbroker.go:166-189 | a broker is left with a reservation exactly when tried, able to afford the value, and the transaction is under way; with one at most if tried once |
| StaticBrokerSlack.TriedSlack | supervisor/committee/staticbroker.go:173-184 | for every order of brokers, pending less outstanding grows by the value of each refused reservation, for every broker and shard |
| StaticBrokerSlack.ReservationLeaksExactlyWhen | supervisor/committee/staticbroker.go:160-192 | injecting leaves every slack alone exactly when it is not of a transaction under way, of positive value, that some broker tried can afford |
| StaticBrokerSlack.QuietSlack | supervisor/committee/staticbroker.go:112-139 | emitting and confirming leave every slack alone |
| StaticBrokerSlack.PendingIsOutstandingExactlyWhen | supervisor/committee/staticbroker.go:112-192 | in every run pending equals outstanding for every broker and shard exactly as long as nothing leaked |
| StaticBrokerCommittees.StaticBrokerCommittee.HandleMsg | supervisor/committee/staticbroker.go:93-142 | confirms first halves, then second, with their effect on the ledger, and counts empty blocks |
| StaticBrokerCommittees.StaticBrokerCommittee.ReadTxsAndSend | supervisor/committee/staticbroker.go:148-225 | finds brokers in any orders, falls back to relaying, and sends everything ready to its shard |
| StaticBrokerCommittees.StaticBrokerCommittee.ClassifyTxs | supervisor/committee/staticbroker.go:227-254 | crossing means different shards and no broker at either end |
| StaticBrokerCommittees.StaticBrokerCommittee.ShouldStop | supervisor/committee/staticbroker.go:144-146 | enough empty blocks and a finished manager |
| StaticBrokerCommittees.BlockKeepsSolvent | supervisor/committee/staticbroker.go:112-139 | a block that echoes emitted transactions keeps the ledger solvent |
| StaticBrokerCommittees.ReportKeepsSolvent | supervisor/committee/staticbroker.go:93-142 | the report of any committed block keeps the ledger solvent, its halves being listed by stage, if confirmations echo what was emitted |
| StaticBrokerCommittees.BatchKeepsSolvent | supervisor/committee/staticbroker.go:160-200 | so does a batch of injected transactions |
| BrokerFallback.CrossingExactly | supervisor/committee/staticbroker.go:227-254 | each transaction is classified by the default shards of its ends and the brokers |
| BrokerFallback.TakenExactlyWhen | supervisor/committee/staticbroker.go:166-192 | a broker takes a transaction exactly when it is not under way and one tried can afford it |
| BrokerFallback.TakenByFirst | supervisor/committee/staticbroker.go:166-192 | the first broker that can afford it takes it and reserves its value, there only |
| BrokerFallback.BatchConserves | supervisor/committee/staticbroker.go:160-215 | every crossing transaction of a batch is under way through a broker or has fallen back |
| BrokerFallback.FallBackIsRelay | supervisor/committee/staticbroker.go:194-215 | the fallback is a relay-1 transaction with the original hash, sent to the sender's default shard |
| BrokerFallback.SentWhereItActs | supervisor/committee/staticbroker.go:256-277 | every relay and broker transaction goes to the one shard that does not skip it, an ordinary one to its sender's |
| BrokerFallback.FallBackDebits | pkg/chain/txexecute.go:74-90 | an executed fallback debits its sender in its default shard and puts exactly its second half on its way |
| BrokerFallback.SecondCredits | pkg/chain/txexecute.go:91-101 | the second half credits the recipient in its default shard |
| BrokerFallback.FirstsConserved | supervisor/committee/staticbroker.go:194-215 | over every run a fallback is on its way, executed or lost, as often as no broker took the transaction |
| BrokerFallback.SecondsConserved | consensus/pbft/insideop/txblockop/brokertxblockop.go:186-212 | over every run each executed first half has exactly one second half, on its way, executed or lost |
| BrokerSystem.SecondHalfCovered | pkg/chain/txexecute.go:135-147 | a second half on its way is covered by the broker's balance on its chain |
| BrokerSystem.StepKeepsInv | supervisor/committee/staticbroker.go:112-192 | every step keeps chain balances at least the ledger's, corrected by what is not yet reported |
| BrokerSystem.DebitNeverWraps | pkg/chain/txexecute.go:135-147 | in every run the unguarded debit takes off exactly the value and does not wrap |
| BrokerSystem.ExecutionPaysExactlyWhen | pkg/chain/txexecute.go:135-147 | the debit of a second half takes exactly the value off exactly when the balance covers it, and wraps otherwise |
| BrokerSpending.OrdinarySpendingWrapsExactlyWhen | pkg/chain/txexecute.go:135-147 | behind an ordinary transaction of its broker in one block, a second half on its way is exact exactly when the balance covers both |
| BrokerSpending.OrdinarySpendingWraps | pkg/chain/txexecute.go:135-147 | a run that ends with a second half on its way, and the block in which it then wraps |

## Left out

- Networking, encodings, logging, configuration, CSV output, the bloom filter and the topology getter.
- Contract transactions and gas; an unknown or contract transaction fails to execute here.
- Packing the pool by bytes: the test at pkg/core/txpool/queue/queue.go:110 stops at the first
  transaction smaller than the limit, so it bounds nothing.
- The scores of label propagation: which neighbouring shard is best is left open, so the results hold for
  any scoring.
- View change and new view, which no code enters; stopping the consensus; block records.
- Wall-clock intervals, tickers, mutexes and the random order of brokers, which are left open.
- 64-bit wrap-around of epochs, heights, sequence numbers and nonces.
- Creation times of transactions; a broker half equals its raw transaction but for the stage.
- Chains.Chain.AddBlock: does not model storage errors of the chain, and with them partly added blocks.
- PbftReplicas.Node.HandleMessage: does not model the stop message, nor a block that cannot be added midway
  through catching up.
- PbftReplicas.Node.Step2NextStage: does not model a block that cannot be added at its commit; that blocks of
  an honest leader can be is `Chains.GeneratedIsAccepted`.
- Static relay and static shard operation, the outside-message handlers and the `clpa_broker` committee,
  where brokers may themselves be migrated: they would add easy members or have no clean invariant.
- Choosing a broker at random for a whole list, reading brokers from a file.
- Migration.AccMigrateMetadata.GetMigratedAddrStates: the source writes the new location into the received
  states in place; the model relocates copies, which nothing else reads.
- Several replicas per shard in the shard system: a shard is one leader there, a proposal is committed or
  still pending, and a leader proposes one block at a time.
