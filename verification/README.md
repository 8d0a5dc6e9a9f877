# A verified model of the scale-out ledger

The simulator lets every node keep its own chain of blocks.  A node commits block
abstracts to a shared main chain, pays others from transactions it has not spent
yet, and sends each payment with a proof: just those pieces of the chains involved
that the receiver does not know.  This project models the parts that decide
whether that works, and proves what they promise.

| file | part |
|---|---|
| `Ledger` | transactions, blocks, sums of money, 32-bit arithmetic |
| `ChainReach`, `SourceSearch`, `SourceSelection`, `LocalStores` | which unspent transactions pay for a transfer at the cost of the fewest chains |
| `Money` | conservation of money over whole runs |
| `Replicas`, `ProofConstruction` | knowledge about peers, and the proof that is built from it |
| `Encoding`, `EncodingRoundTrip`, `EncodingApplied` | proofs on the wire, their decoding, and the graph of objects it leaves |
| `AppendOnly`, `ChainReplication`, `ChainViews` | chains, copies of chains, commit pointers, views of a chain with received blocks |
| `Validation`, `ProofVerification` | money, double spending, presence; both recursions with their memory |
| `Protocol`, `ProtocolInvariant`, `ProtocolSteps`, `ProtocolSend`, `ProtocolDelivery`, `ProtocolReceive`, `ProtocolIntact`, `ProtocolRuns` | all nodes together, over channels that keep their order |
| `ProtocolLoss` | a run in which one early message breaks a channel |
| `ProtocolEncoding`, `ProtocolGraphs`, `ProtocolEstimate`, `ProtocolMemory` | over the same runs: the wire and the objects, the cost estimate, flags and cached verdicts |
| `NodeSteps` | sending and receiving as methods of one node, tied to the protocol's steps |
| `Sending`, `SendingRuns` | when blocks are made, sent, and drained |
| `MainChainCache` | the local cache of the main chain |

`dafny verify dfyconfig.toml` checks everything.

## How the model is built

Objects that the program updates are classes with the same fields; algorithms that
loop are methods with the same loops, over sets wherever the program iterates over
a hash set or map, so that results hold for every order.  Methods are proved
against functions and predicates on values, and the larger results are lemmas
about those.

A transaction holds its sources as values.  Only `Encoding` and the modules after it
speak of pointers: there a location in the receiver's chains or in the decoded blocks
*denotes* a transaction when everything reachable from it spells that transaction out.
A block pointer such as next-committed is a block number, or -1 for null.

`Protocol` is a state machine.  Its steps are creating a transaction, appending an
empty block, committing the tip (which may fail to get onto the main chain), learning
of a main-chain abstract, finding a block in that cache, sending the next block, giving
up on a send, and handling the first message of a channel.  What the program picks by
an algorithm may be anything that algorithm is proved to return.  A message is handled
whenever its turn comes: one that does not decode is dropped, one that is not found
valid is refused and never looked at again, as in the program.  The invariant `Inv`
survives all of that.  What does not is a channel's `Intact`: that the sender is right
about the receiver, and that all on the way will decode.  `ChannelSafeIff` says exactly
when it lasts.  The hypotheses are those of the program's own setting: nodes are
honest, channels keep their order, nobody pays himself (`selectNode` never picks the
own node).  `ProtocolEncoding` and `ProtocolGraphs` also take the genesis transactions
to have different numbers.

## Where the code does not do what one would expect

- Tuples add up amounts in a Java `int` while balances are `long`.  Selection is
  right for every amount, and money conserved by every payment, exactly as long as
  the balance fits an `int` (`OptimalForEveryTargetIffFits`, `PayConservesIff`;
  `WrapAroundLosesMoney` is a concrete failure with a genesis transaction).
- Creating a transaction counts both halves of a transfer to oneself, validating it
  only one (`CreatedPassesMoneyCheckIff`, `SelfTransferFails`).  No node of the simulator
  pays itself, so no run meets it.
- A view of an empty chain does not ask that the first update has number 0
  (`ViewPredictsUpdateIff`, `LookupsAgreeIff`, `UnanchoredViewMisleads`).  Decoding never
  builds such a view: linking the first block fails before (Proof.java:86,
  `AttachedViewsPredict`).
- `Block.commit` stops at the first predecessor with a pointer, which is right for
  the tip but not for a block with later commits (`CommitKeepsPointersIff`,
  `LateCommitMisleads`).  The simulator only ever commits the tip.
- With REQUIRED_COMMITS = 2 and MAX_BLOCKS_PENDING = 50, a node that commits less
  often than every 25 blocks can stop sending for ever (`StuckReachableIff`).
- A proof that arrives before its receiver has seen the commits is refused for good,
  but its sender takes its blocks to be known.  The channel then has a gap, and the
  next payment on it need not even decode (`ChannelSafeIff`, `NextAfterLossIsDropped`;
  `EarlyMessageBreaksChannel` and `SecondPaymentIsDropped` are a concrete run).  What was
  accepted stays right, and a channel whose messages all come in time delivers them all
  (`TimelyChannelDelivers`).
- `Block.commit` ignores that `commitAbstract` failed.  A commit that is lost keeps every
  block after the second commit before it from being sent, for good; when two periods
  fit the queue it costs nothing else (`PassSendsIff`, `LossIff`, `LostCommitStops`).
- `BlockAbstract.fromBytes` gives null for an entry that is no abstract.  The list that
  `ABCIClient.query` returns then holds a null, on which `updateCacheBlocking` throws: the
  hashes before it are cached, the height stays, and every later update ends at the same
  place (`HeightReachableIff`, `StuckForever`, `UnreadableStops`).
- An entry that is not even base64, which a correct Tendermint node does not answer with,
  cuts the list off instead: the abstracts behind it are lost while the height goes on, or
  the height stays when it comes first (`CompleteIff`, `MalformedLoses`).
- The comment on `intersectEmpty` says it loops over the smaller set; the code loops
  over the larger.  The model follows the code; the answer is the same.
- The assertion at ProofConstructor.java:121 is written the wrong way round.  What
  holds is that the list so far is a prefix of the one to add.

## Model

| member | source | states |
|---|---|---|
| ChainReach.AppendChains2 | src/main/java/nl/tudelft/blockchain/scaleoutdistributedledger/model/Proof.java:319-338 | stopping as soon as all chains but the receiver's are counted loses nothing: for every order of the sources the keys are exactly the chains reachable through unknown sources, plus those given |
| ChainReach.ReachBound | src/main/java/nl/tudelft/blockchain/scaleoutdistributedledger/model/Proof.java:319-338 | the receiver is never among the chains counted, so the cut-off bound is the largest size there can be |
| SourceSelection.ChainsRequired | src/main/java/nl/tudelft/blockchain/scaleoutdistributedledger/TransactionCreator.java:210-226 | the chains of one transaction are its full reach |
| SourceSelection.TransactionTuple.constructor | src/main/java/nl/tudelft/blockchain/scaleoutdistributedledger/TransactionTuple.java:32-35 | a tuple of one transaction has its worth, wrapped to 32 bits, and its chains |
| SourceSelection.TransactionTuple.Union | src/main/java/nl/tudelft/blockchain/scaleoutdistributedledger/TransactionTuple.java:43-54 | the union of overlapping tuples has the exact 32-bit sum over its distinct transactions |
| SourceSelection.TransactionTuple.AddTransaction | src/main/java/nl/tudelft/blockchain/scaleoutdistributedledger/TransactionTuple.java:60-69 | adding a transaction keeps amount and chains those of the set |
| SourceSelection.TransactionTuple.AddTransactionAndAmount | src/main/java/nl/tudelft/blockchain/scaleoutdistributedledger/TransactionTuple.java:76-95 | a transaction counts once, with amount and remainder as they fall to the sender |
| SourceSelection.TransactionTuple.MergeNonOverlappingSameChainsTuple | src/main/java/nl/tudelft/blockchain/scaleoutdistributedledger/TransactionTuple.java:105-109 | merging two disjoint tuples with the same chains keeps amount and chains those of the set |
| SourceSelection.TransactionCreator.GroupUnspent | src/main/java/nl/tudelft/blockchain/scaleoutdistributedledger/TransactionCreator.java:83-90 | for every order: one tuple for each distinct set of chains, holding all transactions with it |
| SourceSelection.TransactionCreator.FirstRound | src/main/java/nl/tudelft/blockchain/scaleoutdistributedledger/TransactionCreator.java:133-150 | in any order: no group that is kept covers the amount, every group that is dropped costs at least the best, and the best is a group that covers it; so it is the cheapest that does (kept groups that cost more are left to `Cleanup`) |
| SourceSelection.TransactionCreator.Cleanup | src/main/java/nl/tudelft/blockchain/scaleoutdistributedledger/TransactionCreator.java:194-204 | prunes what the new best has overtaken, and nothing else |
| SourceSelection.TransactionCreator.DoOneRound | src/main/java/nl/tudelft/blockchain/scaleoutdistributedledger/TransactionCreator.java:157-187 | tries every pair of base and round tuple, or returns the round of a pair set that is enough; what it finds only improves the best |
| SourceSelection.TransactionCreator.BestSources | src/main/java/nl/tudelft/blockchain/scaleoutdistributedledger/TransactionCreator.java:82-128 | whatever the iteration orders, and whenever the whole balance fits a Java int: None exactly when no non-empty subset of the unspent transactions covers the amount, else a tuple that covers it with as few chains as any subset could; beyond an int the same over the groups with the wrapped amounts |
| SourceSelection.TransactionCreator.CreateTransaction | src/main/java/nl/tudelft/blockchain/scaleoutdistributedledger/TransactionCreator.java:57-77 | sources leave the unspent set, the remainder enters it, the balance follows, nothing changes when the money does not suffice |
| SourceSearch.RoundExplores | src/main/java/nl/tudelft/blockchain/scaleoutdistributedledger/TransactionCreator.java:157-187 | after a round, every set of groups one larger that could still win lies within a tuple of the next round; the switch of the iteration base loses nothing |
| SourceSearch.CleanupKeeps | src/main/java/nl/tudelft/blockchain/scaleoutdistributedledger/TransactionCreator.java:194-204 | pruning between rounds loses no set of groups that could still win |
| SourceSearch.OneLeftIsEnough | src/main/java/nl/tudelft/blockchain/scaleoutdistributedledger/TransactionCreator.java:97-113 | stopping when at most one candidate is left loses nothing |
| SourceSearch.AllRoundsDone | src/main/java/nl/tudelft/blockchain/scaleoutdistributedledger/TransactionCreator.java:106-127 | after the last round no set of groups beats the best |
| SourceSearch.BeatersSurvive | src/main/java/nl/tudelft/blockchain/scaleoutdistributedledger/TransactionCreator.java:133-150 | what could beat the best of the first round is made of groups that round keeps |
| SourceSearch.GroupsSuffice | src/main/java/nl/tudelft/blockchain/scaleoutdistributedledger/TransactionCreator.java:83-90 | combining whole groups only is as good as combining transactions |
| SourceSearch.AmountsExactIffFits | src/main/java/nl/tudelft/blockchain/scaleoutdistributedledger/TransactionTuple.java:20-95 | every subset has its exact worth as its amount if and only if the whole balance fits a Java int |
| SourceSearch.OptimalForEveryTargetIffFits | src/main/java/nl/tudelft/blockchain/scaleoutdistributedledger/TransactionCreator.java:82-128 | the search is right for every amount if and only if the balance fits a Java int |
| SourceSearch.WrapAroundLosesMoney | src/main/java/nl/tudelft/blockchain/scaleoutdistributedledger/TransactionTuple.java:20-26 | a genesis transaction of 2^31, with which a payment of 10 is refused |
| LocalStores.LocalStore.AddUnspentTransaction | src/main/java/nl/tudelft/blockchain/scaleoutdistributedledger/LocalStore.java:165-177 | adding twice changes nothing; the balance stays the worth of the unspent set |
| LocalStores.LocalStore.RemoveUnspentTransactions | src/main/java/nl/tudelft/blockchain/scaleoutdistributedledger/LocalStore.java:182-195 | the balance drops by the worth of what was there |
| LocalStores.LocalStore.GetNewTransactionId | src/main/java/nl/tudelft/blockchain/scaleoutdistributedledger/LocalStore.java:200-202 | every number is handed out once |
| Money.PayConservesIff | src/main/java/nl/tudelft/blockchain/scaleoutdistributedledger/TransactionCreator.java:57-77 | a payment conserves all money, held and on its way, if and only if the worth of its sources fits a Java int |
| Money.ArriveConserves | src/main/java/nl/tudelft/blockchain/scaleoutdistributedledger/CommunicationHelper.java:22-47 | an arrival conserves it, early or late, repeated, misdelivered, valid or not |
| Money.MoneyIsConserved | src/main/java/nl/tudelft/blockchain/scaleoutdistributedledger/LocalStore.java:165-195 | over whole runs from a genesis supply that fits a Java int: the money of all nodes and what is on its way add up to the supply, each balance is the worth of the unspent set, and no sum over any part of it wraps around |
| ProofConstruction.ProofConstructor.ConstructProof | src/main/java/nl/tudelft/blockchain/scaleoutdistributedledger/ProofConstructor.java:39-56 | the proof is the least closed family of chain segments after what the receiver knows that holds the sender's chain up to the next committed block; every added block is scanned exactly once |
| ProofConstruction.ProofConstructor.AddBlocksToSend | src/main/java/nl/tudelft/blockchain/scaleoutdistributedledger/ProofConstructor.java:103-128 | the list of a chain becomes the longer of the two prefixes, and the difference is what is scanned next |
| ProofConstruction.ProofConstructor.ProcessBlocks | src/main/java/nl/tudelft/blockchain/scaleoutdistributedledger/ProofConstructor.java:64-71 | the re-entrant recursion closes what it adds and adds nothing that is not forced |
| ProofConstruction.ProofConstructor.ProcessSources | src/main/java/nl/tudelft/blockchain/scaleoutdistributedledger/ProofConstructor.java:77-95 | afterwards every source that is not skipped is provided up to its next committed block |
| ProofConstruction.EstimateIsLowerBound | src/main/java/nl/tudelft/blockchain/scaleoutdistributedledger/TransactionCreator.java:210-226 | the chains that selection counts are all in the proof, for a receiver that knows the sources of what it knows |
| ProofConstruction.OwnEndExact | src/main/java/nl/tudelft/blockchain/scaleoutdistributedledger/ProofConstructor.java:39-56 | the sender's own segment ends exactly with the next committed block of the payment |
| ProtocolEstimate.EstimateHoldsInRuns | src/main/java/nl/tudelft/blockchain/scaleoutdistributedledger/TransactionCreator.java:210-226 | and so in every run, for whatever is sent next: who is taken to know a block of ours is taken to know its sources |
| Replicas.MetaKnowledge.UpdateMetaKnowledge | src/main/java/nl/tudelft/blockchain/scaleoutdistributedledger/model/Node.java:74-84 | knowledge of the peer rises to the last block of each segment, never falls, and its own chain is left alone |
| Replicas.MetaKnowledge.UpdateLastKnownBlockNumber | src/main/java/nl/tudelft/blockchain/scaleoutdistributedledger/model/MetaKnowledge.java:100-113 | knowledge of that chain becomes the larger of the two numbers, knowledge of the others stays as it was |
| Replicas.BlocksToSend | src/main/java/nl/tudelft/blockchain/scaleoutdistributedledger/model/MetaKnowledge.java:39-50 | empty exactly for the peer itself and for known ends, else exactly the unknown blocks up to and with the end |
| ChainReplication.CommitKeepsPointersIff | src/main/java/nl/tudelft/blockchain/scaleoutdistributedledger/model/Block.java:153-173 | the backward walk keeps every pointer at the least committed block at or after it if and only if nothing later is committed, or the block before is |
| ChainReplication.LateCommitMisleads | src/main/java/nl/tudelft/blockchain/scaleoutdistributedledger/model/Block.java:153-173 | four blocks of which the third is committed after the fourth: the second keeps its pointer to the fourth |
| ChainReplication.Chain.Commit | src/main/java/nl/tudelft/blockchain/scaleoutdistributedledger/model/Block.java:153-173 | committing the tip keeps that for all blocks, and a block is committed once |
| ChainReplication.Chain.SetPointers | src/main/java/nl/tudelft/blockchain/scaleoutdistributedledger/model/Block.java:164-170 | the loop over predecessors writes each null pointer up to the first set one |
| ChainReplication.Chain.AppendNewBlock | src/main/java/nl/tudelft/blockchain/scaleoutdistributedledger/model/Chain.java:169-178 | only our own non-empty chain grows, by a numbered block with a null pointer |
| ChainReplication.Chain.SetGenesisBlock | src/main/java/nl/tudelft/blockchain/scaleoutdistributedledger/model/Chain.java:116-125 | only an empty chain takes a genesis block |
| ChainReplication.Chain.Update | src/main/java/nl/tudelft/blockchain/scaleoutdistributedledger/model/Chain.java:43-81 | appends exactly the blocks that continue the chain, and sets a pointer on each of them and on no block before (finding a block on the main chain may move its pointer later: `RecogniseKeeps`) |
| ChainReplication.AcceptedIsSuffix | src/main/java/nl/tudelft/blockchain/scaleoutdistributedledger/model/Chain.java:43-81 | of a contiguous update that leaves no gap the part past the end is taken, of one with a gap nothing |
| ChainReplication.UpdatePointersSet | src/main/java/nl/tudelft/blockchain/scaleoutdistributedledger/model/Chain.java:90-100 | each new block points to the least block at or after it that is cached or ends the update; none is left null |
| ChainViews.ViewPredictsUpdateIff | src/main/java/nl/tudelft/blockchain/scaleoutdistributedledger/model/ChainView.java:87-132 | a valid view shows the chain as it will be after the same update if and only if it is anchored: not an empty chain with an update that starts past 0 |
| ChainViews.LookupsAgreeIff | src/main/java/nl/tudelft/blockchain/scaleoutdistributedledger/model/LightView.java:28-35 | the view and the light view find the same block under every number, again if and only if the view is anchored |
| ChainViews.UnanchoredViewMisleads | src/main/java/nl/tudelft/blockchain/scaleoutdistributedledger/model/ChainView.java:96-100 | a received block 1 before we have any: the view shows it under number 0, the light view not at all, and the update drops it |
| ChainViews.AttachedViewsPredict | src/main/java/nl/tudelft/blockchain/scaleoutdistributedledger/model/Proof.java:83-88 | a consistent view whose first block follows one of ours, as decoding demands, always shows the chain after the update, under the numbers of the light view |
| ChainViews.ChainView.CheckIntegrity | src/main/java/nl/tudelft/blockchain/scaleoutdistributedledger/model/ChainView.java:87-132 | valid exactly for updates without gaps that attach to the chain and agree with it where they overlap |
| ChainViews.ChainView.CheckNoGaps | src/main/java/nl/tudelft/blockchain/scaleoutdistributedledger/model/ChainView.java:146-157 | true exactly when the numbers are consecutive |
| ChainViews.ChainView.GetBlock | src/main/java/nl/tudelft/blockchain/scaleoutdistributedledger/model/ChainView.java:172-182 | our own blocks from any view, without a check; of the others, on a view that is checked first, the block with the number through the skipped overlap, or the error that the view is invalid |
| ChainViews.ChainViewIterator.Next | src/main/java/nl/tudelft/blockchain/scaleoutdistributedledger/model/ChainView.java:267-283 | one step of one cursor over own and received blocks |
| ChainViews.ChainViewIterator.Previous | src/main/java/nl/tudelft/blockchain/scaleoutdistributedledger/model/ChainView.java:286-302 | one step back of the same cursor |
| ChainViews.ChainViewIterator.HasNext | src/main/java/nl/tudelft/blockchain/scaleoutdistributedledger/model/ChainView.java:247-254 | whether the cursor is before the end, without moving it |
| ChainViews.ChainViewIterator.HasPrevious | src/main/java/nl/tudelft/blockchain/scaleoutdistributedledger/model/ChainView.java:257-264 | whether it is past the start |
| ChainViews.ChainViewIterator.NextIndex | src/main/java/nl/tudelft/blockchain/scaleoutdistributedledger/model/ChainView.java:305-307 | where the cursor stands |
| ChainViews.ChainViewIterator.AppendKeepsIterator | src/main/java/nl/tudelft/blockchain/scaleoutdistributedledger/utils/AppendOnlyArrayList.java:108-165 | later appends change nothing for a running iterator |
| AppendOnly.BoundedIterator.Next | src/main/java/nl/tudelft/blockchain/scaleoutdistributedledger/utils/AppendOnlyArrayList.java:138-145 | never looks past the size the list had |
| Validation.CheckMoney | src/main/java/nl/tudelft/blockchain/scaleoutdistributedledger/validation/Verification.java:66-90 | accepts exactly when every source is the sender's and what they are worth, amount or else remainder, is what is spent |
| Validation.IntersectEmpty | src/main/java/nl/tudelft/blockchain/scaleoutdistributedledger/validation/Verification.java:178-191 | true exactly for disjoint sets |
| Validation.CheckDoubleSpending | src/main/java/nl/tudelft/blockchain/scaleoutdistributedledger/validation/Verification.java:98-115 | the scan stops at the transaction's own block and fails on any shared source before |
| Validation.Verification.ValidateTransaction | src/main/java/nl/tudelft/blockchain/scaleoutdistributedledger/validation/Verification.java:48-59 | with both caches, accepts exactly what plain recursion accepts |
| Validation.Verification.ValidateSources | src/main/java/nl/tudelft/blockchain/scaleoutdistributedledger/validation/Verification.java:125-144 | accepts exactly when plain recursion accepts every source |
| Validation.Verification.ValidateNewMessage | src/main/java/nl/tudelft/blockchain/scaleoutdistributedledger/validation/Verification.java:26-39 | with flags and verdicts that are right for what the proof shows: accepts a message exactly when it is new and plain verification and plain validation accept it; afterwards flags and verdicts are right, all new ones on the history of the transaction, and a refusal leaves the cache as it was |
| Validation.ScanLastsIff | src/main/java/nl/tudelft/blockchain/scaleoutdistributedledger/validation/Verification.java:98-115 | the outcome of the scan can never change as the chain grows if and only if the transaction is in the chain, or it failed already, or there is nothing to share |
| Validation.VerifiedIsInViews | src/main/java/nl/tudelft/blockchain/scaleoutdistributedledger/validation/Verification.java:26-39 | what is accepted is, with its whole history, in the chains that the proof shows |
| Validation.VerdictLasts | src/main/java/nl/tudelft/blockchain/scaleoutdistributedledger/validation/Verification.java:98-144 | a verdict on what was in the chains stays right as they grow |
| Validation.CacheLasts | src/main/java/nl/tudelft/blockchain/scaleoutdistributedledger/validation/Verification.java:36-38 | so does a cache of such verdicts, and it stays one of such verdicts |
| Validation.NoOutputSpentTwice | src/main/java/nl/tudelft/blockchain/scaleoutdistributedledger/validation/Verification.java:66-115 | two accepted transactions that are present in their chains never spend the same output |
| Validation.CreatedPassesMoneyCheckIff | src/main/java/nl/tudelft/blockchain/scaleoutdistributedledger/validation/Verification.java:66-90 | what creation makes passes the money check if and only if no source is a transfer to itself with a remainder |
| Validation.SelfTransferFails | src/main/java/nl/tudelft/blockchain/scaleoutdistributedledger/validation/Verification.java:66-90 | a payment out of a transfer of 3 to oneself that left 4: creation counts 7, the check 3 |
| ProofVerification.ProofVerifier.Verify | src/main/java/nl/tudelft/blockchain/scaleoutdistributedledger/model/Proof.java:131-162 | the memoised recursion decides what the plain one decides |
| ProofVerification.ProofVerifier.VerifyChainWithTransaction | src/main/java/nl/tudelft/blockchain/scaleoutdistributedledger/model/Proof.java:173-208 | the transaction is in its chain exactly once, and a block at or after it is committed |
| ProofVerification.ProofVerifier.VerifySourceTransactions | src/main/java/nl/tudelft/blockchain/scaleoutdistributedledger/model/Proof.java:216-224 | all sources verify |
| ProofVerification.VerifiedLasts | src/main/java/nl/tudelft/blockchain/scaleoutdistributedledger/model/Proof.java:145-162 | what verified once verifies with all evidence that has grown from there, so the flag on a transaction stays right |
| Encoding.EncodeTransaction | src/main/java/nl/tudelft/blockchain/scaleoutdistributedledger/message/TransactionMessage.java:44-81 | sources become references by chain, block and number; genesis sources go by their receiver |
| Encoding.EncodeBlock | src/main/java/nl/tudelft/blockchain/scaleoutdistributedledger/message/BlockMessage.java:38-58 | the block, transaction by transaction |
| Encoding.EncodeProof | src/main/java/nl/tudelft/blockchain/scaleoutdistributedledger/message/ProofMessage.java:40-56 | the proof, without its empty segments |
| Encoding.Decoder.Decode | src/main/java/nl/tudelft/blockchain/scaleoutdistributedledger/model/Proof.java:47-69 | decodes, links and resolves, or fails exactly when a segment does not attach, a reference leads nowhere, or the main transaction is in the new part of a view that the integrity check rejects |
| Encoding.Decoder.DecodeBlocks | src/main/java/nl/tudelft/blockchain/scaleoutdistributedledger/model/Proof.java:50-57 | the blocks of the message, without sources |
| Encoding.Decoder.ToBlockWithoutSources | src/main/java/nl/tudelft/blockchain/scaleoutdistributedledger/message/BlockMessage.java:69-75 | one block without sources |
| Encoding.Decoder.FixPreviousBlockPointers | src/main/java/nl/tudelft/blockchain/scaleoutdistributedledger/model/Proof.java:71-90 | each block hangs on the one before, the first on our copy |
| Encoding.Decoder.FixTransactionSources | src/main/java/nl/tudelft/blockchain/scaleoutdistributedledger/model/Proof.java:92-115 | each transaction gets exactly what its references lead to |
| EncodingRoundTrip.RoundTrip | src/main/java/nl/tudelft/blockchain/scaleoutdistributedledger/model/Proof.java:47-115 | for a proof that closes what the receiver has: decoding succeeds and gives the same blocks with their numbers and the owners that the receiver knows, linked, every transaction with its whole history, and the main transaction |
| EncodingRoundTrip.ReferenceResolves | src/main/java/nl/tudelft/blockchain/scaleoutdistributedledger/message/TransactionMessage.java:44-81 | every reference leads back to the transaction it was made from, into our copy wherever that reaches |
| EncodingApplied.AppliedSpells | src/main/java/nl/tudelft/blockchain/scaleoutdistributedledger/model/Proof.java:273-283 | applying the decoded blocks leaves a graph that spells out the longer chains, with no pointer to a dropped duplicate |
| ProtocolEncoding.DecodesIff | src/main/java/nl/tudelft/blockchain/scaleoutdistributedledger/model/Proof.java:47-69 | the decoder gets through the first message of a channel, the check of the view of the sender's chain included, exactly when the protocol says so |
| ProtocolGraphs.GraphsFollowRuns | src/main/java/nl/tudelft/blockchain/scaleoutdistributedledger/model/Proof.java:273-283 | along every run, from the start and through every block made and every proof applied, the records of each node spell out its copies |
| ProtocolGraphs.MessagesSurviveTheWire | src/main/java/nl/tudelft/blockchain/scaleoutdistributedledger/message/ProofMessage.java:40-65 | after any run, with the records the nodes then have: the first message of a channel decodes on the wire exactly when the protocol takes it to decode, and then every transaction in it comes out with its whole history |
| ProtocolSteps.CreateKeeps | src/main/java/nl/tudelft/blockchain/scaleoutdistributedledger/simulation/transactionpattern/ITransactionPattern.java:67-77 | making a transaction, from unspent sources, in a block of its own keeps the invariant |
| ProtocolSteps.CommitKeeps | src/main/java/nl/tudelft/blockchain/scaleoutdistributedledger/model/Block.java:153-173 | so does committing the tip, whether or not the abstract gets onto the main chain |
| ProtocolSteps.RecogniseKeeps | src/main/java/nl/tudelft/blockchain/scaleoutdistributedledger/model/Block.java:261-279 | and finding a block on the main chain, which makes it its own next committed block |
| ProtocolSteps.LearnKeeps | src/main/java/nl/tudelft/blockchain/scaleoutdistributedledger/model/mainchain/tendermint/TendermintChain.java:148-171 | and learning of an abstract |
| ProtocolSend.SendReady | src/main/java/nl/tudelft/blockchain/scaleoutdistributedledger/ProofConstructor.java:39-128 | before a send, all sources the builder follows are located in blocks with a next committed block |
| ProtocolSend.SendKeeps | src/main/java/nl/tudelft/blockchain/scaleoutdistributedledger/TransactionSender.java:139-162 | sending a proof keeps the invariant: each segment is a piece of the chain that ends on the main chain, starts past what was sent before, and is taken to be known |
| ProtocolReceive.ReceiveKeeps | src/main/java/nl/tudelft/blockchain/scaleoutdistributedledger/CommunicationHelper.java:22-47 | so does handling the first message, accepted, refused or undecodable, early or late; when accepted, every copy covers what the message covered and every new pointer is set |
| ProtocolRuns.StepKeeps | src/main/java/nl/tudelft/blockchain/scaleoutdistributedledger/TransactionSender.java:139-162 | every step of create, commit, learn, recognise, send, fail to send and receive keeps the protocol invariant |
| ProtocolRuns.RunKeeps | src/main/java/nl/tudelft/blockchain/scaleoutdistributedledger/TransactionSender.java:139-162 | so does every run |
| ProtocolRuns.CopiesArePrefixes | src/main/java/nl/tudelft/blockchain/scaleoutdistributedledger/model/Proof.java:273-283 | after any run, whatever was refused or dropped: every copy is a prefix of its chain, and every block of a foreign copy, and every own block that was sent, has a block at or after it in the copy that is on the main chain |
| ProtocolRuns.StepIntact | src/main/java/nl/tudelft/blockchain/scaleoutdistributedledger/CommunicationHelper.java:22-47 | in a channel whose messages all fit, every step leaves it so, except handling a message with news before its commits show, which breaks it |
| ProtocolRuns.ChannelSafeIff | src/main/java/nl/tudelft/blockchain/scaleoutdistributedledger/model/Node.java:74-84 | at every moment of a run what a node takes a peer to know the peer has or has on its way, and nothing on the way leaves a gap, if and only if no message of the channel with news was handled before its commits showed; its head then decodes and attaches to the receiver's copies |
| ProtocolIntact.ShedIntactIff | src/main/java/nl/tudelft/blockchain/scaleoutdistributedledger/CommunicationHelper.java:33-38 | a channel survives the loss of its first message if and only if that message brought nothing new |
| ProtocolLoss.PassSendsBoth | src/main/java/nl/tudelft/blockchain/scaleoutdistributedledger/TransactionSender.java:58-80 | in the run below three commits have been seen when the sender's pass comes, which sends exactly the first two blocks |
| ProtocolLoss.EarlyMessageBreaksChannel | src/main/java/nl/tudelft/blockchain/scaleoutdistributedledger/CommunicationHelper.java:22-47 | a concrete run: two payments and three commits, the first proof is handled before its receiver sees a commit, and with nothing left on the way the sender is wrong about what the receiver has |
| ProtocolLoss.SecondPaymentIsDropped | src/main/java/nl/tudelft/blockchain/scaleoutdistributedledger/model/Proof.java:71-90 | the same run goes on: the proof of the second payment does not decode, and is dropped without a trace |
| ProtocolLoss.NextAfterLossIsDropped | src/main/java/nl/tudelft/blockchain/scaleoutdistributedledger/model/Proof.java:71-90 | after such a loss on the sender's own chain the next payment does not decode |
| ProtocolRuns.DeliveryIsAccepted | src/main/java/nl/tudelft/blockchain/scaleoutdistributedledger/CommunicationHelper.java:22-47 | a delivered proof that decodes is accepted if and only if the receiver sees a commit for everything in its history, which holds once the end of each segment is in its main-chain cache; it is then credited |
| ProtocolRuns.TimelyChannelDelivers | src/main/java/nl/tudelft/blockchain/scaleoutdistributedledger/CommunicationHelper.java:22-47 | end to end: in every run in which no message of a channel is handled before its receiver has seen the end of each segment, each of them decodes, is accepted and is credited, and the channel is safe at every moment |
| ProtocolRuns.SendingNeverFails | src/main/java/nl/tudelft/blockchain/scaleoutdistributedledger/ProofConstructor.java:39-128 | what the proof builder demands holds whenever a node may send |
| ProtocolRuns.NoDoubleSpendInRuns | src/main/java/nl/tudelft/blockchain/scaleoutdistributedledger/validation/Verification.java:98-115 | in no run do two transactions spend the same output |
| ProtocolDelivery.HeadAcceptedIff | src/main/java/nl/tudelft/blockchain/scaleoutdistributedledger/model/Proof.java:131-224 | for a message that decodes, verification and validation together come down to the commits that show |
| ProtocolDelivery.EndToEnd | src/main/java/nl/tudelft/blockchain/scaleoutdistributedledger/CommunicationHelper.java:22-47 | an honest message that decodes and is in time is accepted |
| NodeSteps.Participant.SendTransaction | src/main/java/nl/tudelft/blockchain/scaleoutdistributedledger/TransactionSender.java:139-162 | builds the least closed proof; knowledge of the receiver rises exactly when the send succeeds |
| NodeSteps.NewRepresents | src/main/java/nl/tudelft/blockchain/scaleoutdistributedledger/LocalStore.java:54-73 | a new node represents itself in a world that starts, so `HandleMessage` applies from the first message on |
| NodeSteps.Participant.HandleMessage | src/main/java/nl/tudelft/blockchain/scaleoutdistributedledger/CommunicationHelper.java:22-47 | in any state of a run, with its flags and its cache of verdicts, the node accepts a message exactly when the protocol does without them, and then represents the state after the step, with flags and cache that are right again |
| NodeSteps.Participant.ReceiveTransaction | src/main/java/nl/tudelft/blockchain/scaleoutdistributedledger/CommunicationHelper.java:22-47 | accepts exactly what is for us, new, verified and valid, then updates chains, knowledge and unspent set; a refused message is only remembered; flags and verdicts stay right |
| NodeSteps.Participant.ApplyUpdates | src/main/java/nl/tudelft/blockchain/scaleoutdistributedledger/model/Proof.java:273-283 | for every order of the chains: each copy is updated, and the sender is taken to know the last block of each segment |
| ProtocolMemory.RecallsKeeps | src/main/java/nl/tudelft/blockchain/scaleoutdistributedledger/validation/Verification.java:26-39 | what handling a message leaves of flags and verdicts is right for what the node then shows without any message |
| ProtocolMemory.MemoryIsRight | src/main/java/nl/tudelft/blockchain/scaleoutdistributedledger/validation/Verification.java:26-59 | in every run, when a message is decoded, every flag that was set and every verdict that was cached, whenever that was, is what the plain recursions would find now |
| Sending.TransactionSender.SendAllBlocksThatCanBeSent | src/main/java/nl/tudelft/blockchain/scaleoutdistributedledger/TransactionSender.java:58-80 | one pass, in order and once each, up to the last but one of the commits seen |
| Sending.TransactionSender.CommittedSince | src/main/java/nl/tudelft/blockchain/scaleoutdistributedledger/TransactionSender.java:61-70 | the scan finds the commits after the last block sent, up to the first that is not on the main chain |
| Sending.TransactionSender.BlocksWaiting | src/main/java/nl/tudelft/blockchain/scaleoutdistributedledger/TransactionSender.java:85-96 | what waits ends at the first of the empty blocks at the tip |
| Sending.QueueEndIs | src/main/java/nl/tudelft/blockchain/scaleoutdistributedledger/TransactionSender.java:85-96 | the one number for which all later blocks are empty and which cannot be lowered |
| Sending.PassExhausts | src/main/java/nl/tudelft/blockchain/scaleoutdistributedledger/TransactionSender.java:72-79 | after a pass fewer than the required commits are left to be found |
| Sending.PassIsSafe | src/main/java/nl/tudelft/blockchain/scaleoutdistributedledger/TransactionSender.java:72-79 | a pass ends at a committed block with the required commits at or after it on the main chain |
| Sending.PassSendsFinal | src/main/java/nl/tudelft/blockchain/scaleoutdistributedledger/TransactionSender.java:61-79 | every block it sends has a next committed block, and that was seen on the main chain |
| Sending.PassSendsIff | src/main/java/nl/tudelft/blockchain/scaleoutdistributedledger/TransactionSender.java:58-80 | a pass sends a block if and only if two commits at or after it, and every commit after the last block sent and before those, are on the main chain |
| Sending.TransactionSender.DoAction | src/main/java/nl/tudelft/blockchain/scaleoutdistributedledger/simulation/transactionpattern/ITransactionPattern.java:50-82 | appends one block unless too many wait, and commits when due |
| Sending.TransactionSender.CommitBlocks | src/main/java/nl/tudelft/blockchain/scaleoutdistributedledger/simulation/transactionpattern/ITransactionPattern.java:100-111 | commits the tip when forced or when enough blocks have gathered |
| Sending.TransactionSender.CommitExtraEmpty | src/main/java/nl/tudelft/blockchain/scaleoutdistributedledger/simulation/transactionpattern/ITransactionPattern.java:117-123 | three empty committed blocks more |
| Sending.TransactionSender.OnStop | src/main/java/nl/tudelft/blockchain/scaleoutdistributedledger/simulation/transactionpattern/ITransactionPattern.java:135-146 | commits the tip and those |
| SendingRuns.BackPressureInRuns | src/main/java/nl/tudelft/blockchain/scaleoutdistributedledger/simulation/transactionpattern/ITransactionPattern.java:55-59 | in every run at most 50 blocks wait, the last block sent is 0 or committed, and every block sent has its two commits on the main chain |
| SendingRuns.FullQueueMovesIff | src/main/java/nl/tudelft/blockchain/scaleoutdistributedledger/TransactionSender.java:58-80 | with the queue full and all commits present, a pass sends something if and only if two periods fit the queue |
| SendingRuns.StuckReachableIff | src/main/java/nl/tudelft/blockchain/scaleoutdistributedledger/simulation/transactionpattern/ITransactionPattern.java:55-59 | some run gets stuck for ever if and only if two periods do not fit the queue |
| SendingRuns.LossIff | src/main/java/nl/tudelft/blockchain/scaleoutdistributedledger/model/Block.java:153-173 | with two periods that fit the queue: some run that never sees the commits in a given set on the main chain sends a commit c if and only if every commit after the last block sent, up to one period past c, has been seen or is not in the set |
| SendingRuns.LostCommitStops | src/main/java/nl/tudelft/blockchain/scaleoutdistributedledger/model/Block.java:153-173 | for any period: while a commit is missing, neither its block nor any later one is ever sent |
| SendingRuns.StopDrains | src/main/java/nl/tudelft/blockchain/scaleoutdistributedledger/simulation/transactionpattern/ITransactionPattern.java:135-146 | after the stop, one pass with all commits present leaves nothing waiting, whatever was sent before |
| MainChainCache.TendermintChain.UpdateCacheBlocking | src/main/java/nl/tudelft/blockchain/scaleoutdistributedledger/model/mainchain/tendermint/TendermintChain.java:148-171 | fetches up to the first height without an answer or with an entry it cannot get past; the hashes before that entry are cached, and the height rises only when there is none |
| MainChainCache.TendermintChain.Query | src/main/java/nl/tudelft/blockchain/scaleoutdistributedledger/model/mainchain/tendermint/ABCIClient.java:82-107 | a malformed entry ends the list, or leaves none when it comes first; an unreadable one goes in as null |
| MainChainCache.TendermintChain.AddAll | src/main/java/nl/tudelft/blockchain/scaleoutdistributedledger/model/mainchain/tendermint/TendermintChain.java:159-163 | the exception at a null leaves the hashes before it in the cache |
| MainChainCache.UpdateIsRun | src/main/java/nl/tudelft/blockchain/scaleoutdistributedledger/model/mainchain/tendermint/TendermintChain.java:148-171 | the method is one update of the runs below |
| MainChainCache.RunKeeps | src/main/java/nl/tudelft/blockchain/scaleoutdistributedledger/model/mainchain/tendermint/TendermintChain.java:148-171 | over any interleaving of updates, finished or broken off: the height never falls, the cache never shrinks, every block up to the height was passed |
| MainChainCache.CacheIsSound | src/main/java/nl/tudelft/blockchain/scaleoutdistributedledger/model/mainchain/tendermint/TendermintChain.java:159-163 | nothing is cached but genesis and abstracts of the main chain |
| MainChainCache.HeightReachableIff | src/main/java/nl/tudelft/blockchain/scaleoutdistributedledger/model/mainchain/tendermint/TendermintChain.java:148-171 | some run gets the height to h if and only if no block up to h has an unreadable entry before any malformed one, or a malformed one in front |
| MainChainCache.CompleteIff | src/main/java/nl/tudelft/blockchain/scaleoutdistributedledger/model/mainchain/tendermint/ABCIClient.java:96-106 | at every moment the cache holds all abstracts up to the height if and only if no block up to there has an abstract behind a malformed entry |
| MainChainCache.CompleteInRuns | src/main/java/nl/tudelft/blockchain/scaleoutdistributedledger/model/mainchain/tendermint/TendermintChain.java:148-171 | without malformed entries it always does, unreadable ones or not |
| MainChainCache.StuckForever | src/main/java/nl/tudelft/blockchain/scaleoutdistributedledger/model/mainchain/tendermint/TendermintChain.java:105-127 | a block that no update gets past keeps the height below it in every run, and no abstract of a later block is ever cached |
| MainChainCache.UnreadableStops | src/main/java/nl/tudelft/blockchain/scaleoutdistributedledger/model/BlockAbstract.java:81-90 | a concrete chain: one unreadable entry at height 1, its predecessor cached, the height 0 for ever |
| MainChainCache.MalformedLoses | src/main/java/nl/tudelft/blockchain/scaleoutdistributedledger/model/mainchain/tendermint/ABCIClient.java:96-106 | a concrete chain that is passed with one of its abstracts never cached |

## Left out

- Cryptography, hashes and signatures: blocks and transactions are compared by value, so `TransactionMessage.hash` and `BlockMessage.hash` are not in the messages.
- Sockets, tracker, process control, logging: a send succeeds or fails, a query is answered or not.
- Random patterns, waiting times and node selection: the receiver and the amount are free choices other than the own node.
- Threads: steps are atomic; overlapping cache updates are interleaved in `MainChainCache`, sender and pattern in `SendingRuns`.
- Dishonest senders, which the program itself leaves open (Proof.java:136).
- Amounts of money are unbounded natural numbers where the program has `long`; only the `int` of tuples wraps around.
- That a commit reaches the main chain is an explicit hypothesis wherever progress depends on it; `LostCommitStops` says what happens otherwise.
- Identity of transactions is equality of values, where the program compares sender and number; `Money` shows numbers of one sender to be unique. Genesis transactions, which all compare equal in the program, occur at most once in an unspent set.
- Blocks of the protocol hold one transaction or none, as `doAction` and `commitExtraEmpty` make them; genesis may hold many.
- The unspent set of the receiver is not followed as a set of pointers: `ProtocolGraphs.MessagesSurviveTheWire` says what the received transaction denotes, and a transaction made later takes pointers that denote its sources.
- `Protocol` lets a node send any block whose next committed block it has seen on the main chain, which allows every run of the sender (`PassSendsFinal`) and more.
- `Block.equals` compares predecessors by recursion; the comparison from the start of the overlap is used instead, with the same outcome.
- SourceSelection.TransactionCreator.DoOneRound: its inner loop and the body of that loop are methods of their own; tuples in its collections are values.
- Validation.Verification.ValidateTransaction: the exceptions of the program are the outcome false.
- ProtocolMemory.MemoryIsRight: a flag on a transaction object that is dropped with a refused message is forgotten; flags on transactions in a node's copies are kept.
- NodeSteps.Participant.HandleMessage: whether a message decodes is taken from the protocol; `ProtocolGraphs.MessagesSurviveTheWire` shows that it is what the decoder finds.
- NodeSteps.Participant.SendTransaction: the message between building and sending is in `Encoding`, not in this method.
- MainChainCache.TendermintChain.UpdateCacheBlocking: the height comes in as a number; that `status()` may fail to give one is an update that does not begin. That it ends by an exception or by returning is not told apart: no caller looks.
- Encoding.Decoder.Decode: what the integrity check finds for the view of the sender's chain is a parameter; the check itself is `ChainViews.ChainView.CheckIntegrity`, on blocks, and `ProtocolEncoding.DecodesIff` puts the two together.
- `ChainView.resetValidation`, `isRedundant`, `Proof.appendChains`, sub-lists of `AppendOnlyArrayList`, getters and `equals` of messages: unused, or easy.
