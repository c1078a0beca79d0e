# A verified model of the MEFS data chain

MEFS is a storage network. Users open storage orders with providers, providers prove every challenge
epoch that they still hold the data, keepers order the messages into blocks and confirm what
providers have earned. This project models the replicated state machine behind that, and the coding,
tagging, queueing and streaming code around it, and proves what the system relies on.

The parts, each with its own modules:

- **State machine.** `Chain` is the transition relation over the store alone: roles, buckets, orders,
  sequences, faults, epochs, proofs, confirmations, blocks, runs with restarts. `OrderBook`, `Epochs`,
  `Growth`, `Earnings`, `Ledger`, `Confirmations`, `Stripes`, `Challenges` and `Quorum` each prove one
  family of invariants; `Invariants` puts them together over every run. `Sums` holds sums over maps.
  `Rules` spells out when each transition is accepted and what it changes, `Proofs` does so for storage
  proofs, `SegmentNames` says what a field element stands for, `Contracts` what the stored records mean
  and who signed them, and `Histories` how blocks hang together and what the root stands for.
- **State manager.** `Cache` and `Manager` are the mutable manager with its caches and loops; every
  method is proved equal to the transition of `Chain` and to keep every cached entry equal to what
  reloading it would give. `Restarts` proves what a restart changes: nothing but the remembered dates,
  and through them the verdict on one message, exactly characterised. `OrderDates` proves what those
  dates are over whole runs.
- **Scenarios.** `Scenarios` plays messages as blocks from the empty store to reachable states in which
  the code falls short, for any cryptography in which everybody has some accepted signature for every
  digest and some accepted proof for every challenge. `Divergences` adds those in which validation and
  apply part, or a commit changes what is owed.
- **Validation and proposal.** `Validation` is the second copy of the transition relation, over
  scratch records; `Validators` is the mutable validator proved equal to it. `Agreement` relates
  the scratch records to the state being built and proves that what validation accepts, apply accepts;
  `Differences` says for each method whose two copies differ exactly when that holds: when the message
  is ripe. `BlockAgreement` carries this through blocks of any messages. `Converse` is the other
  direction: what apply would accept is not turned away by validation. `Proposal` is the leader's and
  the follower's side of a block proposal.
- **Erasure coder.** `Coder` (layout, recovery, what it brings back), `Recovery` (exactly when it goes
  right) and `DataCoder` (the loops).
- **Merkle tag.** `MerkleTag`.
- **Multipart stream.** `Multipart`.
- **Interval queues.** `SegQueues`, and `QueueChunks` for the chunks. **Binomial coefficient.** `Binomials`, with `Arithmetic`.

Cryptography, hashing and the Reed-Solomon library enter as function parameters (`Crypto`, `Hasher`,
`Scheme`); what is assumed of them is written as a predicate (`IdealCode`, `IdealTags`, `OneTag`,
`Ideal`, `Usable`) and required where it is used. `Witnesses` and `UsableExists` prove that these
assumptions can be met, the first with a coder of two data shards whose tags are coded six for three
(`SixForThree`). Blocks, store and records are values; the store is a record of typed maps, one for each
family of keys. Prices and sizes are unbounded integers, with the one 64-bit comparison of sizes in the
proof check written out modulo 2^64; the price of a segment is a natural number.

Where the code falls short of what one would expect, the model follows the code and the project says
exactly when it goes right:

- The duration of an order strictly inside a challenge window is whatever the previous order left
  behind. `DurationIsOverlap` gives the exact condition and `LongWindowOverpays` the failing family;
  the bound on income speaks about pairs with no order strictly inside a recorded window, and
  `BoundFails` reaches a state in which it is false without that.
- Committing an order can change what a challenge demands in two ways. One that starts after the window
  is skipped while current and refused once committed (`LateCommitRefused`). With orders strictly inside
  the window the price can move (`CommitInsidePaysMore`). `CommitChangesNothingOwed` gives for every
  window exactly when acceptance, sizes and field element stay, by how much the price moves, and
  exactly when nothing changes at all. `LateCommitReached` and `CommitPaysReached` are runs to both.
- Validation accepts messages that apply refuses in five methods. `Differences` gives the exact
  condition for each and `ValidatedBlockApplies` for whole blocks; `FirstUpdateRefused`,
  `SecondConfirmRefused` and `LateProofReached` give inputs.
- To validation a message with a wrong nonce is just one more rejected message, but a block that holds
  one can never be applied: `AcceptedApplies` is an equivalence, `StaleMessageAccepted` an input.
- A write that neither starts on a block boundary nor fills the pending block of a Merkle tag is
  taken in twice: `SplitIndependence` is an equivalence, `TwoSmallWrites` an input.
- The stripe check does not look past the first tag of a fragment, and without a name it does not
  compare the tag with the segment. Altered fragments of either kind pass (`AlteredTailFails`,
  `AlteredSegmentPasses`); `RecoverExact` and `DecodeReturns` say exactly when the results are right.
  Tags that are not group elements, such as the checksum flag's, never pass: `UndecodableTags`.
- A confirmation of epoch 0 made before the second epoch update can be overtaken by the ledger:
  `EarlyConfirmationGoesStale`, reached by `ConfirmationGoesStale`; afterwards a right record stays
  right (`ConfirmedForever`).
- `PreDataOrder` depends on dates the caches remember: `CreateOrderVerdict` says exactly how,
  `RememberedDatesMatter` reaches a state where a restart changes the verdict; no other message does.
  Without a restart those dates never refuse anything (`NeverRestartedNeverCompares`).
- The queues of sequence segments merge neighbours whatever their chunks and keep the first chunk:
  `PushKeepsChunks`, `MergeKeepsChunks` and `MergeKeepsAnswers` say exactly when that loses nothing,
  `NeighboursLoseChunk` gives an input.
- A second CreateFs for a user that is stored but not cached resets its bucket counter in the cache;
  `AddUser` says when that breaks coherence, `ValidatedFirstFs` that no block with the receipts of
  validation does it, whatever its messages.
- Abort closes the channels of queued parts but not of the part between two reads:
  `FailedClosesNothing`.
- The 64-bit binomial loop is exact if and only if its last product does not wrap: `Binomial`.

## Model

| member | source | states |
|---|---|---|
| `OrderBook.OrdersStep` | submodule/state/morder.go:107-846 | every message keeps, for all stored orders and sequences: running sizes and prices are sums of the sequences so far, the order's field element is the sum of its sequences' elements, and its deleted part is the sum of their deleted parts |
| `OrderBook.SumsOfFault` | submodule/state/morder.go:741-783 | a fault on one sequence, even an old one, moves the deleted sums of exactly the longer prefixes by exactly the fault |
| `OrderBook.SeqTotalsAre` | submodule/state/challenge.go:145-170 | the per-sequence loop, for any number of sequences and any start value, adds up to the closed sums of sizes, prices, deleted parts and field elements |
| `OrderBook.TwoFormsAgree` | submodule/state/challenge.go:145-204 | for a whole order the per-sequence form and the aggregate form of a challenge give the same price, size, deleted size and field element, for every duration |
| `SegmentNames.SegsFrIsSum` | submodule/state/morder.go:468-477 | the field element computed for a list of segments is the sum of the hashes of its names, one for each stripe of each run |
| `SegmentNames.NameAt` | submodule/state/morder.go:469-476 | the names are the stripes start, start + 1, .. of each run, in the order of the list |
| `SegmentNames.SegsFrOfTwo` | submodule/state/morder.go:468-477 | the elements of two lists add up |
| `SegmentNames.SplitRun` | submodule/state/morder.go:728-740 | splitting a run in two changes neither names nor element |
| `SegmentNames.SumOfSame` | submodule/state/morder.go:468-477 | nor does the order of the names |
| `Contracts.SeqRecordsStep` | submodule/state/morder.go:468-547 | every message keeps: each stored sequence is filed under its own numbers and its field element is the sum over the names of its segments |
| `Contracts.OrderRecordsStep` | submodule/state/morder.go:107-547 | every message keeps: each stored order has good terms, both registered parties signed it with its present size and price, it holds as many segments as its size says, costs the segment price for each, and holds some once committed |
| `Contracts.CountersFrozen` | submodule/state/morder.go:36-105 | no message changes the counters recorded for an earlier epoch, and none changes counters without recording them for the running one |
| `Contracts.WindowsStep` | submodule/state/epoch.go:15-68 | every message keeps: no recorded window is shorter than 120 slots |
| `Contracts.ReachableRecords` | submodule/state/state.go:353-537 | all this holds in every reachable state |
| `Proofs.AppliedProof` | submodule/state/challenge.go:20-225 | in every reachable state a storage proof is applied if and only if it comes from the provider for the current epoch, not proven yet, over the right range, every order asked about is there and reaches into the window, its size and price are those of the sequences asked about with deletions taken off, and the cryptographic proof is accepted for the user's key over the sum of their field elements |
| `Proofs.ProofPays` | submodule/state/challenge.go:227-322 | an applied proof pays the price it names in all five places and marks the epoch as proven; no order changes |
| `Proofs.ValidatedProof` | submodule/state/challenge.go:324-545 | validation accepts a proof if and only if it is the one that is due by the stored orders, orders that start after the window left out |
| `Proofs.ElementsAreNames` | submodule/state/challenge.go:145-206 | the elements of the sequences of an order sum up the names of all its segments, in every reachable state |
| `Challenges.CommitKeepsChallenge` | submodule/state/challenge.go:120-206 | in any window that ends after the order starts: taken sequence by sequence or as a committed order, the last order leaves acceptance, sizes and field element of the challenge the same, and the price differs by exactly its net price times the change of its duration, less the net prices of the leading orders strictly inside the window times its duration |
| `Challenges.CommitOutcome` | submodule/state/challenge.go:120-206 | what must be proved survives the commit if and only if the order starts before the window ends (or the challenge was refused anyway), and what is owed if and only if, besides, the price shift is zero |
| `Challenges.CommitInsidePaysMore` | submodule/state/challenge.go:174-206 | a failing family: the first order covers the window, the current one lies strictly inside it; the challenge is accepted before and after the commit and afterwards pays strictly more |
| `Divergences.CommitPaysReached` | submodule/state/challenge.go:174-206 | two reachable states, the second after the commit of the current order of the first: proofs are accepted by apply in both, and the one after the commit is paid more |
| `Challenges.ClearMeansNoShift` | submodule/state/challenge.go:134-143 | with no order of the pair strictly inside the window the price shift is zero |
| `Challenges.LateCommitRefused` | submodule/state/challenge.go:120-206 | the failing family: while an order that starts after the window is current the challenge is that over the earlier orders alone, accepted if there are none, and once it is committed the challenge is refused |
| `Divergences.LateCommitReached` | submodule/state/challenge.go:120-206 | two reachable states, the second after the commit of the current order of the first: apply accepts a proof over all orders in the first and no such proof in the second |
| `Challenges.SubsStep` | submodule/state/morder.go:1005-1072 | every message keeps: each order below the subtraction counter exists and ended no later than the start of the current challenge window |
| `Challenges.SubtractedNeverEarns` | submodule/state/challenge.go:134-136 | a proof whose range includes a subtracted order is refused, in the apply form and in the validate form of the check |
| `Growth.GrowStep` | submodule/state/morder.go:107-1072 | no message removes an order, shortens its price, changes its dates or lets a nonce or subtraction counter fall |
| `Earnings.DurationIsOverlap` | submodule/state/challenge.go:134-143 | the computed duration is the overlap of order and window if and only if the order is not strictly inside the window (or the leftover value of the previous order happens to be right) |
| `Earnings.LongWindowOverpays` | submodule/state/challenge.go:174-206 | the failing family over stored orders: a challenge over an order that covers the window and one strictly inside it pays more than the two earn there |
| `Earnings.ShortWindowsClear` | submodule/state/challenge.go:134-143 | windows no longer than the shortest order have no order strictly inside |
| `Scenarios.BoundFails` | submodule/state/challenge.go:134-232 | a run from the empty store, through orders that createOrder accepts, to a state in which a pair has been paid 600 days for orders worth 400 |
| `Earnings.ChallengePays` | submodule/state/challenge.go:113-206 | if no order of the pair lies strictly inside the window, an accepted challenge pays at most what the pair's orders earn between the two ends of the window |
| `Earnings.EarningsStep` | submodule/state/challenge.go:20-322 | every message keeps: a pair with no order strictly inside a recorded window, proven up to epoch e, has been paid at most what its orders earn up to the start of window e |
| `Epochs.UpdateEpochKeeps` | submodule/state/epoch.go:15-68 | an epoch update keeps the windows contiguous, with increasing boundaries taken from slots already past |
| `Epochs.ClockStep` | submodule/state/epoch.go:15-68 | every message keeps the clock: current and previous epoch are the last two recorded, slots do not fall |
| `Ledger.BookKeeps` | submodule/state/challenge.go:227-308 | booking a value and a penalty for one user, provider and epoch keeps all ledger equations at once |
| `Ledger.LedgerStep` | submodule/state/challenge.go:227-308 | every message keeps: provider totals are sums over users and over users and epochs, pair totals are sums over epochs, snapshots are sums up to their epoch |
| `Ledger.SnapshotsFrozen` | submodule/state/morder.go:785-845 | no message changes the snapshot of an epoch before the current one |
| `Confirmations.SignerAdds` | lib/types/signature.go:52-82 | adding a signature keeps signers distinct and every signer's own signature over the record's value and penalty inside the aggregate |
| `Confirmations.ConfirmsStep` | submodule/state/pay.go:11-101 | every message keeps: each confirmation record has pairwise distinct registered keepers, all of whom signed its amounts, and from epoch 1 on those amounts are the ledger snapshot |
| `Confirmations.ConfirmedStaysConfirmed` | submodule/state/pay.go:18-97 | once two epoch updates lie behind, no message makes a right record wrong or a wrong one right |
| `Confirmations.EarlyConfirmationGoesStale` | submodule/state/pay.go:18-50 | for epoch 0 before the second update the equality is lost by any fault with a positive penalty |
| `Scenarios.ConfirmationGoesStale` | submodule/state/pay.go:18-50 | two reachable states: epoch 0 confirmed with the right amounts, and overtaken by the next fault |
| `Stripes.AddChunksMark` | submodule/state/mseg.go:180-264 | accepted segments were unmarked before and are exactly what is marked afterwards, in every bucket and for every provider |
| `Stripes.AddChunksCount` | submodule/state/mseg.go:200-223 | the number of bits of a user and provider over all buckets grows by exactly the number of stripes accepted |
| `Stripes.StripesStep` | submodule/state/morder.go:428-485 | every message keeps: total order size is the segment size times the number of bits, every stored sequence is marked, and no two stored sequences of a pair share a stripe |
| `Quorum.KeepersStep` | submodule/state/mrole.go:57-134 | every message keeps the keeper list free of duplicates |
| `Quorum.QuorumsIntersect` | submodule/state/state.go:424-443 | two signer lists that pass the block check share more than floor((n-1)/3) keepers |
| `Quorum.QuorumReachable` | submodule/state/state.go:343-350 | the computed bound is met by the rest when floor((n-1)/3) keepers are silent |
| `Rules.RoleRule` | submodule/state/mrole.go:57-134 | a role is registered once, by its own sender; the keepers are those before and the new one if it is a keeper |
| `Rules.FsRule` | submodule/state/muser.go:63-121 | a user registered with the key makes a file system; nothing else changes |
| `Rules.BucketRule` | submodule/state/mseg.go:99-147 | buckets of a user are numbered in order |
| `Rules.SegmentsRule` | submodule/state/mseg.go:180-264 | segments are accepted if and only if each lies in a chunk of a bucket of the user, no stripe is marked for the pair yet and no two have a stripe in common |
| `Rules.LocationRule` | submodule/state/mseg.go:225-264 | the latest run of the chunk is then of this pair and order, ends with the stripes added and before them holds only a run it continues; other chunks keep theirs |
| `Rules.OrderRule` | submodule/state/morder.go:107-261 | PreDataOrder is applied if and only if its user sends it, empty, with good terms that both signed, as the next of the pair with none open and not before the dates remembered; then exactly that order is opened |
| `Rules.SequenceRule` | submodule/state/morder.go:357-466 | AddDataOrder is applied if and only if both signed the data and the order with the size and price of its segments added, its numbers are the next, and its segments are placed, unmarked and disjoint |
| `Rules.SequenceEffect` | submodule/state/morder.go:468-547 | it adds the order as signed and one sequence with the sum over the names of its segments, and counts the sequence |
| `Rules.CommitRule` | submodule/state/morder.go:906-962 | the open order is committed if and only if its user names its numbers and it holds data |
| `Rules.SubRule` | submodule/state/morder.go:1005-1072 | the next order is subtracted if and only if its provider asks and it ended by the start of the window |
| `Rules.FaultRule` | submodule/state/morder.go:662-740 | a fault is booked if and only if the provider reports segments of a stored sequence whose order reaches into the window |
| `Rules.FaultEffect` | submodule/state/morder.go:741-846 | size, price and element of the named segments count as deleted from order and sequence, and the provider forfeits their price times the seconds from the start of the window to the end of the order |
| `Rules.EpochRule` | submodule/state/epoch.go:15-68 | an epoch ends if and only if its number and seed are named and the last applied block is the shortest epoch away; the next starts there |
| `Rules.ConfirmRule` | submodule/state/pay.go:11-101 | a registered keeper confirms the snapshot of the epoch before the current one, once, over the same amounts as the others; its signature is added |
| `Rules.SignerRule` | lib/types/signature.go:52-82 | a signature of the right type is added for a new signer, BLS data aggregated, other data appended |
| `Rules.LoadedRule` | submodule/state/morder.go:36-105 | the dates a node loads are those of the predecessor of the open order |
| `Histories.MessageRule` | submodule/state/state.go:539-656 | a message applies if its nonce is the next and it is marked rejected or its transition accepts it; it is counted and hashed either way |
| `Histories.BlockRule` | submodule/state/state.go:353-537 | a block applies if and only if it is the next on the present root, signed by a quorum of distinct keepers (block zero: holds only registrations of keepers), its messages apply and lead to its root |
| `Histories.RootIsHistory` | submodule/state/state.go:445-537 | the root of a run is the hash chain over its headers and the parameters of its messages, rejected ones included |
| `Histories.RootFixesHistory` | submodule/state/state.go:445-537 | two runs that end at the same root have the same history, or show a collision of the hash |
| `Histories.RunIsChain` | submodule/state/state.go:353-424 | the blocks of a run count up in height, grow in slot and name their predecessor and its root, and the state knows the last of them |
| `Histories.VersionByHeight` | submodule/state/state.go:119-140 | the version in force is the one the table gives for the height |
| `Invariants.InvStep` | submodule/state/state.go:539-656 | one message keeps all invariants together |
| `Invariants.BlockKeeps` | submodule/state/state.go:353-537 | one applied block keeps all invariants and never takes back orders, counters, proofs or old snapshots |
| `Invariants.RunKeeps` | submodule/state/state.go:353-537 | so does every run of blocks and restarts |
| `Invariants.ReachableInv` | submodule/state/state.go:71-113 | every state reachable from an empty store satisfies all invariants |
| `Invariants.IncomeWithinWorth` | submodule/state/challenge.go:40-232 | in every reachable state, a pair no order of which lies strictly inside a recorded challenge window has earned at most the sum over its orders of final price times duration |
| `Invariants.IncomeInShortWindows` | submodule/state/challenge.go:40-232 | in particular whenever no recorded window is longer than the shortest order |
| `Invariants.PaidOncePerEpoch` | submodule/state/challenge.go:227-232 | after an accepted proof no state of any later run accepts another one for that user, provider and epoch |
| `Invariants.LedgerConserved` | submodule/state/challenge.go:227-308 | the ledger equations, spelled out for every reachable state |
| `Invariants.SizesAreBits` | submodule/state/morder.go:480-485 | total order size equals segment size times marked stripes in every reachable state |
| `Invariants.CommitChangesNothingOwed` | submodule/state/morder.go:906-962 | in every reachable state, for every window and range: what must be proved survives a commit if and only if the order starts before the window ends (or the challenge was refused anyway), the price moves by exactly the shift, and what is owed survives if and only if, besides, the shift is zero |
| `Invariants.CommitInClearWindow` | submodule/state/morder.go:906-962 | so in windows with no order of the pair strictly inside a commit changes nothing if and only if the order starts before the window ends or the challenge was refused anyway |
| `Invariants.SubtractedForever` | submodule/state/morder.go:1027-1051 | once an order is subtracted, no state of any later run accepts a proof over it, whether it is in the range of the proof or is the order under challenge at the end of it |
| `Invariants.NoStripeTwice` | submodule/state/mseg.go:200-206 | a sequence accepted in a reachable state shares no stripe with any stored sequence of its pair |
| `Invariants.ConfirmedForever` | submodule/state/pay.go:18-97 | from the second epoch update on, a record agrees with the frozen snapshot in every state of every later run if and only if it does now; a record of an epoch from 1 on always does |
| `Agreement.ChunksAgree` | submodule/state/mseg.go:266-312 | segments that validation accepts are accepted by apply, also when earlier rejected ones left extra bits in the scratch bitmap |
| `Agreement.AcceptedAgrees` | submodule/state/validate.go:119-197 | a message of a method whose two copies agree that validation accepts is accepted by apply, and the two states stay related |
| `Agreement.RejectedKeepsSim` | submodule/state/morder.go:549-660 | a rejected message of any method leaves only loaded records and extra marks behind, so the states stay related |
| `BlockAgreement.MessageAgrees` | submodule/state/validate.go:84-197 | one message of any method with the right nonce: with the receipt validation gave it, it applies if and only if it is rejected or ripe, and then the states stay related |
| `BlockAgreement.MessagesAgree` | submodule/state/state.go:491-505 | a gapless list of any messages applies with validation's receipts if and only if every accepted message is ripe in its turn, and then ends at the root validation computed |
| `BlockAgreement.NoncesAdvance` | submodule/state/state.go:553-560 | applying a list advances each sender's nonce by the number of its messages, rejected ones included |
| `BlockAgreement.ValidatedBlockApplies` | submodule/state/state.go:491-502 | in every reachable state a block with validation's receipts and root and enough signers is applied if and only if every accepted message is ripe in its turn, as it is if all of them are in scope |
| `BlockAgreement.UndisturbedProof` | submodule/state/challenge.go:174-489 | an accepted SegmentProof whose pair no applied message before it in the block concerns is ripe if and only if no order in its range starts at or after the end of the window |
| `Converse.ChunksWelcome` | submodule/state/mseg.go:266-312 | segments that apply accepts are accepted by validation as long as the scratch marks of the pair are the applied ones |
| `Converse.FsWelcome` | submodule/state/muser.go:123-175 | a CreateFs that apply accepts is accepted by validation if and only if the user has no file system yet |
| `Converse.OrderWelcome` | submodule/state/morder.go:263-355 | a PreDataOrder that apply accepts is accepted by validation if and only if the dates in the scratch record allow it |
| `Converse.SubWelcome` | submodule/state/morder.go:1074-1123 | a SubDataOrder that apply accepts is accepted by validation if and only if the order had ended already in the last applied state |
| `Converse.FaultWelcome` | submodule/state/morder.go:850-904 | a SegmentFault that apply accepts is accepted by validation if and only if its sequence was stored before the block |
| `Converse.Welcome` | submodule/state/validate.go:119-197 | a message of any method that apply would accept is accepted by validation, at any point of a block at which it finds its records steady |
| `Converse.FirstWelcome` | submodule/state/validate.go:84-197 | in every reachable state and for every fitting header, a message with the right nonce that apply would accept is accepted by validation, except a second CreateFs and an order that the stored dates of its predecessor forbid |
| `Converse.MarksStay` | submodule/state/mseg.go:266-312 | through a block the scratch marks of a pair stay the applied ones as long as no sequence of the pair is rejected |
| `Converse.LaterWelcome` | submodule/state/validate.go:84-197 | the same at any later point of a block, for a sequence if none of its pair was rejected before, for a proof if nothing before concerned its pair, for the rest if they find their records steady |
| `Differences.OrderApplies` | submodule/state/morder.go:107-355 | at any point of a block, an accepted PreDataOrder is applied if and only if the remembered dates allow it |
| `Differences.EpochApplies` | submodule/state/epoch.go:15-104 | at any point of a block, an accepted UpdateChalEpoch is applied if and only if the slot of the last applied block, too, is an epoch away from the start of the current one |
| `Divergences.FirstUpdateRefused` | submodule/state/epoch.go:15-104 | in the state a run reaches after block zero, an update accepted for a block in slot 120 or later is refused by apply |
| `Differences.ConfirmApplies` | submodule/state/pay.go:11-177 | at any point of a block, an accepted ConfirmPostIncome is applied if and only if the present snapshot is the announced income, its signer is not yet in the record and, in epoch 0, the record agrees with the snapshot |
| `Differences.SecondConfirmRefused` | submodule/state/pay.go:11-177 | whatever confirmation has been applied is accepted once more by validation and refused by apply |
| `Differences.SequenceApplies` | submodule/state/morder.go:357-660 | an accepted AddDataOrder, with or without segments, is applied if and only if its user exists, which it does if there are segments |
| `Differences.ProofApplies` | submodule/state/challenge.go:174-489 | a SegmentProof is applied if and only if validation's check passes on the present records and no order in its range starts at or after the end of the window |
| `Differences.UntouchedProofApplies` | submodule/state/challenge.go:174-489 | an accepted SegmentProof, over a pair whose stored records the block has not changed, is applied if and only if no order in its range starts at or after the end of the window |
| `Differences.RipeDecides` | submodule/state/validate.go:119-197 | a message of any method that validation accepts is applied if and only if it is ripe, and then the two states stay related, whichever method it is |
| `Differences.LateProofRefused` | submodule/state/challenge.go:174-489 | over a committed order that starts after the window alone, validation accepts an empty challenge and apply refuses it |
| `Divergences.LateProofReached` | submodule/state/challenge.go:174-489 | a run to a state with such an order: the proof is accepted by validation and refused by apply |
| `Restarts.StepIgnoresDates` | submodule/state/morder.go:36-105 | every message except PreDataOrder has the same outcome whatever dates the caches remember |
| `Restarts.RestartHarmless` | submodule/state/morder.go:36-105 | for every run after a restart: if both nodes get through it they end alike but for remembered dates, and they do both get through or both fail if no PreDataOrder is applied on the way |
| `Restarts.CreateOrderVerdict` | submodule/state/morder.go:107-170 | PreDataOrder: accepted exactly when the other checks pass and the remembered dates allow it; the verdict is the same for two sets of remembered dates if and only if another check refuses or both allow, or both forbid, the order |
| `OrderDates.NeverRestartedNeverCompares` | submodule/state/morder.go:36-170 | on a node that was never restarted the comparison with the previous order refuses nothing: in every state of every such run PreDataOrder is accepted exactly when the other checks pass |
| `OrderDates.RefusedForEarlierOrder` | submodule/state/morder.go:36-170 | in every reachable state an order that is refused for remembered dates alone starts or ends before an earlier order of its pair |
| `Scenarios.RememberedDatesMatter` | submodule/state/morder.go:36-105 | a reachable state in which PreDataOrder is refused and, after one more restart, accepted |
| `Restarts.RestartReloads` | submodule/state/state.go:119-267 | in every state of every run, load computes the same clock (seeds included), version and keepers again: only remembered dates are lost |
| `Manager.StateMgr.constructor` | submodule/state/state.go:71-113 | the empty manager is coherent and shows the genesis state |
| `Manager.StateMgr.Restart` | submodule/state/state.go:119-267 | drops the caches and computes clock, version and keepers from the store as load does; caches stay coherent |
| `Manager.FindVersion` | submodule/state/state.go:132-136 | the loop over the version table, in any order, finds the version in force at the height |
| `Manager.StateMgr.GetOrder` | submodule/state/morder.go:36-105 | the record given is the cached one or the one loaded, which agree but for the remembered dates |
| `Manager.StateMgr.GetRole` | submodule/state/mrole.go:15-55 | the cached role is the stored one |
| `Manager.StateMgr.GetUser` | submodule/state/muser.go:17-61 | the cached user, with any buckets already loaded, is the stored one |
| `Manager.StateMgr.GetStripes` | submodule/state/mseg.go:23-97 | cached bucket and bitmap are the stored ones |
| `Manager.StateMgr.AddRole` | submodule/state/mrole.go:57-134 | in-place update equals the store-only transition; caches stay coherent |
| `Manager.StateMgr.AddUser` | submodule/state/muser.go:63-121 | the same, for a user not yet stored or already cached; otherwise the counter reset keeps coherence if and only if the user has no bucket |
| `Manager.StateMgr.AddBucket` | submodule/state/mseg.go:99-147 | in-place update equals the store-only transition; caches stay coherent |
| `Manager.StateMgr.AddChunk` | submodule/state/mseg.go:180-264 | marks and the chunk's stripe run are extended in cache and store alike |
| `Manager.StateMgr.AddChunks` | submodule/state/morder.go:460-466 | the loop over a sequence's segments equals the fold of AddChunk |
| `Manager.StateMgr.CreateOrder` | submodule/state/morder.go:107-261 | in-place update equals the store-only transition; caches stay coherent |
| `Manager.StateMgr.AddSeq` | submodule/state/morder.go:357-547 | in-place update equals the store-only transition; caches stay coherent |
| `Manager.StateMgr.RemoveSeg` | submodule/state/morder.go:662-848 | in-place update equals the store-only transition; caches stay coherent |
| `Manager.StateMgr.CommitOrder` | submodule/state/morder.go:906-962 | in-place update equals the store-only transition; caches stay coherent |
| `Manager.StateMgr.SubOrder` | submodule/state/morder.go:1005-1072 | in-place update equals the store-only transition; caches stay coherent |
| `Manager.StateMgr.AdvanceEpoch` | submodule/state/epoch.go:15-68 | in-place update equals the store-only transition |
| `Manager.StateMgr.AddSegProof` | submodule/state/challenge.go:20-322 | in-place update equals the store-only transition; caches stay coherent |
| `Manager.StateMgr.AddPay` | submodule/state/pay.go:11-101 | in-place update equals the store-only transition; caches stay coherent |
| `Manager.StateMgr.ApplyMessage` | submodule/state/state.go:539-656 | nonce check, root and dispatch equal the store-only transition, unless the message is an accepted second CreateFs of a user that is not cached |
| `Manager.StateMgr.CheckBlock` | submodule/state/state.go:353-443 | the checks on height, slot, parent, roots and signers decide admissibility |
| `Manager.StateMgr.ApplySignedBlock` | submodule/state/state.go:353-537 | a block without an accepted second CreateFs, hence every block with the receipts of validation, applied in place equals the store-only block; caches stay coherent |
| `Manager.NoneMarked` | submodule/state/mseg.go:200-206 | the loop finds whether any stripe of a run is marked |
| `Manager.Mark` | submodule/state/mseg.go:221-223 | the loop marks exactly the run |
| `Manager.AccumulateFr` | submodule/state/morder.go:468-477 | the nested loop over segments and stripes is the field sum over the set of names |
| `Manager.CheckHeld` | submodule/state/morder.go:728-740 | the loop accepts if and only if every stripe of every segment is held by the sequence |
| `Manager.SumSequences` | submodule/state/challenge.go:145-170 | the accumulating loop equals the recursive totals that SeqTotalsAre closes |
| `Manager.SumOrders` | submodule/state/challenge.go:174-206 | the same for the loop over earlier orders |
| `Manager.CheckProof` | submodule/state/challenge.go:40-225 | all checks of a storage proof, and the price owed |
| `Manager.AddSignature` | lib/types/signature.go:52-82 | equals the specification that SignerAdds speaks about |
| `Manager.SanityCheck` | lib/types/signature.go:84-95 | true if and only if no signer occurs twice |
| `Manager.CountSigners` | submodule/state/state.go:431-439 | the loop counts the distinct registered keepers among the signers |
| `Validators.Validator.Reset` | submodule/state/validate.go:14-30 | the scratch state is that of the committed state |
| `Validators.Validator.ValidateBlock` | submodule/state/validate.go:48-82 | header checks and the scratch state they leave |
| `Validators.Validator.CanAddSeq` | submodule/state/morder.go:549-660 | verdict and scratch state equal the validation machine that the agreement theorems are about |
| `Validators.Validator.CanAddChunks` | submodule/state/mseg.go:266-312 | the same, for the loop over segments, which stops at the first refusal and keeps the marks made before it |
| `Validators.Validator.CanRemoveSeg` | submodule/state/morder.go:850-904 | the verdict is the acceptance condition of a fault |
| `Validators.Validator.CanCommitOrder` | submodule/state/morder.go:964-1003 | verdict and scratch state equal the validation machine |
| `Validators.Validator.CanSubOrder` | submodule/state/morder.go:1074-1123 | verdict and scratch state equal the validation machine |
| `Validators.Validator.CanAddSegProof` | submodule/state/challenge.go:324-545 | verdict and scratch state equal the validation machine, late orders skipped |
| `Validators.Validator.ValidateMessage` | submodule/state/validate.go:84-197 | verdict and scratch state of one message equal the validation machine |
| `Proposal.ProposalAccepted` | submodule/txPool/process.go:396-452 | a block built by Propose, with valid signatures, is accepted by OnPropose at every node with the same committed state, whatever its caches |
| `Proposal.ProposalApplies` | submodule/txPool/process.go:252-394 | in every reachable state a proposed block, once signed by enough keepers (for block zero: if it registers keepers only), is applied if and only if every accepted message is ripe in its turn, as messages in scope are |
| `Proposal.AcceptedApplies` | submodule/txPool/process.go:396-452 | in every reachable state a block of any messages that OnPropose accepts is applied if and only if its nonces are gapless, it has enough signers (block zero: registers keepers only) and every accepted message is ripe in its turn, as messages in scope are |
| `Proposal.StaleMessageAccepted` | submodule/txPool/process.go:415-441 | every node accepts a block of one message with a stale nonce marked rejected, and none can apply it |
| `Proposal.AcceptedMessages` | submodule/txPool/process.go:396-452 | a follower accepts a block if and only if its header fits, its parent root is the present one, every message is signed, every receipt is the verdict of validation after the messages before it, and the last root is right |
| `Proposal.KeepersSuffice` | submodule/txPool/process.go:274-337 | if as many known keepers as a quorum takes have their own registration pending, block zero gets enough accepted registrations |
| `Proposal.ValidatedFirstFs` | submodule/state/muser.go:123-175 | for arbitrary messages and any prefix, an accepted CreateFs meets a state without that user |
| `Proposal.AcceptedFirstFs` | submodule/txPool/process.go:396-452 | so every block that OnPropose accepts, whatever its messages, meets the condition under which ApplySignedBlock equals the store-only block |
| `Proposal.InPool.AddMessage` | submodule/txPool/process.go:142-194 | a pending message is filed under sender and nonce unless its nonce has passed |
| `Proposal.InPool.BlockDone` | submodule/txPool/process.go:176-192 | each queue loses exactly the nonces the block holds of its sender and waits from the one after the last of them; the other queues are untouched |
| `Proposal.InPool.TakeFrom` | submodule/txPool/process.go:339-380 | one sender contributes a gapless nonce run from the state nonce, with the receipts of validation, and all of it unless the clock stops the loop or the next message does not fit any more |
| `Proposal.InPool.TakeKeepers` | submodule/txPool/process.go:287-329 | one sender's run for block zero: registrations of a known keeper only, and all that are next |
| `Proposal.InPool.Propose` | submodule/txPool/process.go:252-394 | the message set has gapless nonces per sender from its queue, validation's receipts and root, within the size limit; unless the clock stops the loop every sender's run is taken whole or up to a message that does not fit any more, so it is empty only if no next message fits; block zero takes every known keeper's pending registrations and is proposed whenever enough of them register themselves |
| `Proposal.InPool.ReplayMessages` | submodule/txPool/process.go:415-441 | true if and only if every signature is valid and every receipt is the verdict of validation |
| `Proposal.InPool.OnPropose` | submodule/txPool/process.go:396-452 | accepts if and only if header, parent root, signatures, receipts and root all match |
| `SegQueues.AggHasIsHolds` | lib/types/segment.go:225-241 | the early-exit scan never invents a segment and on a sorted queue finds every one |
| `SegQueues.Push` | lib/types/segment.go:257-272 | the last entry extended or a new one; total length grows by the entry's, coverage by exactly the entry, and separated queues stay separated |
| `SegQueues.RunsKeepTotal` | lib/types/segment.go:274-304 | merging keeps total length |
| `SegQueues.RunsKeepCount` | lib/types/segment.go:274-304 | merging keeps, for every key and stripe, how many entries cover it |
| `SegQueues.RunsSeparate` | lib/types/segment.go:402-432 | without empty input no two neighbours of the result can be merged |
| `SegQueues.MergePass` | lib/types/segment.go:278-290 | the in-place pass leaves, besides emptied entries, exactly the merged runs |
| `SegQueues.Compact` | lib/types/segment.go:292-303 | the second pass keeps the non-empty entries in order |
| `SegQueues.Merge` | lib/types/segment.go:402-432 | the result is sorted, has no empty entry, keeps total and coverage, and is separated if the input had no empty entry |
| `SegQueues.Has` | lib/types/segment.go:344-356 | on a sorted queue the early exit loses nothing |
| `SegQueues.MergedHas` | lib/types/segment.go:344-432 | merge, then look up: true exactly for the stripes and chunks the original unsorted queue covers |
| `SegQueues.QueueOrders` | lib/types/segment.go:34-44 | the three comparisons are weak orders blind to lengths, so Merge applies to all three queues |
| `QueueChunks.PushKeepsChunks` | lib/types/segment.go:257-272 | pushing adds the segments of the run, chunk included, and nothing else, if and only if a run of positive length is not joined to a last entry with another chunk |
| `QueueChunks.MergeKeepsChunks` | lib/types/segment.go:274-304 | merging a sorted queue keeps, for every bucket, stripe and chunk, how many entries cover it if every run joined has the chunk of the run it joins; and only then, in queues without empty entries and in queues that cover no stripe twice; without empty entries that means that adjacent entries have the same chunk |
| `QueueChunks.MergeKeepsAnswers` | lib/types/segment.go:225-304 | Has gives the same answers after Merge as before if every run joined has the chunk of the run it joins and, in queues that cover no stripe twice, only then |
| `QueueChunks.NeighboursLoseChunk` | lib/types/segment.go:274-304 | two adjacent runs of one bucket with different chunks: after Merge, Has denies a segment that was put in and claims one that was not |
| `QueueChunks.JobHas` | lib/types/segment.go:51-80 | the scan of a job queue with its early exits never invents a segment and on a sorted queue finds every one |
| `Coder.Counts` | lib/code/code.go:27-51 | error exactly on counts below one; copying is normalised to one data shard with the chunk count unchanged |
| `Coder.EnoughTags` | lib/code/code.go:82-102 | DataCount times (2 + (ParityCount-1)/DataCount) is at least the chunk count, for all positive counts |
| `Coder.TagsSuffice` | lib/code/code.go:350-381 | fragments enough for the data bring enough tag shards for all tags |
| `Coder.RestoresWord` | lib/code/code.go:425-473 | any k shards of a code word restore the whole word, in the library branch and in the copying branch |
| `Coder.StripeShape` | lib/code/code.go:131-186 | segments and tags of a stripe are code words of the two codes, under both policies |
| `Coder.FragmentParts` | lib/code/code.go:167-181 | each fragment gives back its prefix, segment and every tag of its column |
| `Coder.RecoverRebuilds` | lib/code/code.go:310-423 | with at least DataCount intact fragments, Recover rebuilds every fragment byte for byte if and only if every fragment that passes the check is intact |
| `Coder.TailUnchecked` | lib/code/code.go:218-297 | the check does not look past the first tag of a fragment |
| `Recovery.RestoredExact` | lib/code/code.go:425-450 | shards among which k belong to a code word are restored to that word if all of them do, and are an error otherwise |
| `Recovery.RecoverExact` | lib/code/code.go:310-423 | with several data shards Recover gives back the encoded stripe if every fragment that passes the check is intact, and an error otherwise |
| `Recovery.AlteredTailFails` | lib/code/code.go:218-423 | the first failing family: a fragment altered past its first tag passes the check and makes Recover fail |
| `Recovery.AlteredSegmentPasses` | lib/code/code.go:248-256 | the second: without a name a fragment with an altered segment passes; Recover does not give back the stripe, and Decode returns wrong data if it reads the fragment directly |
| `Recovery.DecodeReturns` | lib/code/code.go:192-214 | exactly when Decode returns the encoded bytes followed by zeros: on a direct read, when the segments read are right; otherwise, with several data shards, when every fragment that passes is intact (else it errs), with one, when every tag there and the first segment there are right |
| `Recovery.NamedHonest` | lib/code/code.go:239-247 | if each segment has one valid tag, the fragments that pass a named check are all intact if and only if each of them has its segment and its tags past the first unaltered |
| `Recovery.KeptFragment` | lib/code/code.go:218-256 | which fragments the check keeps, byte by byte: length, prefix, a first tag that decodes and, if named, fits segment and place |
| `Recovery.DirectWhen` | lib/code/code.go:259-297 | the data is read directly exactly when all data fragments are kept |
| `Recovery.TooFew` | lib/code/code.go:258-348 | fewer kept fragments than data shards are an error for Recover and Decode, and otherwise a direct read succeeds |
| `Recovery.RecoveredPasses` | lib/code/code.go:350-423 | every fragment of a recovered stripe, rebuilt ones included, passes the check it was recovered by |
| `Recovery.UndecodableTags` | lib/code/code.go:248-256 | if no tag decodes as a group element, as with the checksum flag, nothing is ever recovered or decoded |
| `DataCoder.Encode` | lib/code/code.go:105-189 | the loops produce the specified fragments; errors exactly on empty or too long input or missing codes |
| `DataCoder.VerifyStripe` | lib/code/code.go:218-297 | keeps exactly the fragments that pass, counts them, and tells whether the data can be read directly; on too few, what the first pass left |
| `DataCoder.RecoverData` | lib/code/code.go:425-473 | in place, all shards or an error as specified |
| `DataCoder.RecoverField` | lib/code/code.go:350-423 | both codes, the checks and the reassembly in place equal the specification |
| `DataCoder.Recover` | lib/code/code.go:310-348 | in place, the stripe that RecoverRebuilds and RecoverExact speak about |
| `DataCoder.Decode` | lib/code/code.go:192-214 | the bytes that DecodeReturns speaks about |
| `MerkleTag.ForestHolds` | lib/etag/etag.go:241-257 | after any number of blocks every layer holds fewer than 174 complete trees, and the layers expand, highest first, to exactly the blocks in order |
| `MerkleTag.LayerCountsAreDigits` | lib/etag/etag.go:241-257 | the layers' link counts are the base-174 digits of the number of blocks |
| `MerkleTag.RootCovers` | lib/etag/etag.go:259-282 | the root covers exactly the blocks and the pending one, and no node has more than 174 links |
| `MerkleTag.RootShape` | lib/etag/etag.go:259-282 | a lone block is its own root; otherwise the root links the trees of the highest layer and then the node over the layers below, down to the lowest with the pending block last, one layer for each base-174 digit |
| `MerkleTag.NodeRule` | lib/etag/etag.go:89-119 | a node records id, encoded size and file size of each tree under it, in order, and their sums |
| `MerkleTag.FileSizeIsBytes` | lib/etag/etag.go:89-119 | the file size recorded in any node is the number of bytes under it |
| `MerkleTag.CidFixesTree` | lib/etag/etag.go:105-119 | with collision-free hashing the id of a node determines the tree under it |
| `MerkleTag.WriteKeeps` | lib/etag/etag.go:203-234 | one write takes in exactly its bytes if it starts on a block boundary or fills the pending block, and takes them twice otherwise |
| `MerkleTag.SplitIndependence` | lib/etag/etag.go:203-234 | a run of writes ends with the bytes written, in canonical form, if and only if every write starts on a block boundary or fills the pending block |
| `MerkleTag.TagIsOfBytes` | lib/etag/etag.go:203-282 | two runs of such writes end with the same tag if and only if they wrote the same bytes |
| `MerkleTag.TwoSmallWrites` | lib/etag/etag.go:208-221 | two one-byte writes into a block of four leave three bytes |
| `MerkleTag.Clone` | lib/etag/etag.go:80-87 | rebuilding link by link gives back the node with its totals |
| `MerkleTag.Tree.AddChunk` | lib/etag/etag.go:236-257 | the carry loop leaves the layers of the specified forest |
| `MerkleTag.Tree.Write` | lib/etag/etag.go:203-234 | equals the specification; the slice-bounds panic is the error result |
| `MerkleTag.Tree.Sum` | lib/etag/etag.go:259-282 | the id of the root over everything held; the tree is not modified |
| `Multipart.RunKeeps` | app/user/mutipart/stream.go:28-152 | over every interleaving: bytes read are the parts in id order, nothing accepted is lost without a failure, and every Done channel is queued, current or closed, once |
| `Multipart.ReadsPartsInOrder` | app/user/mutipart/stream.go:69-115 | at end of stream without a failure the bytes read are parts 1..k, k the longest unbroken run of ids offered |
| `Multipart.ArrivalOrderIrrelevant` | app/user/mutipart/stream.go:117-152 | those bytes do not depend on arrival order, repeats or the interleaving of reads |
| `Multipart.TurnIs` | app/user/mutipart/stream.go:70-96 | after any run without failures a reader goes on if and only if a part is being read or the next id was offered; otherwise it reaches the end if Close was called and waits if not |
| `Multipart.ReadsOn` | app/user/mutipart/stream.go:69-115 | from any run without failures some reads alone bring out exactly the parts 1..k, k the longest unbroken run of ids offered, without any Close |
| `Multipart.AbortRule` | app/user/mutipart/stream.go:28-50 | the first error stays, every queued part is told and dropped, and readers get the error from then on |
| `Multipart.ReadRule` | app/user/mutipart/stream.go:98-114 | bytes delivered, part advanced or closed, or stream aborted, by the answer of the reader |
| `Multipart.DoneAtMostOnce` | app/user/mutipart/stream.go:28-50 | with aborts and broken readers included, no Done channel is closed twice, and one is closed unless its part is queued or current |
| `Multipart.FailedClosesNothing` | app/user/mutipart/stream.go:28-50 | after a failure with no read under way no further channel is ever closed |
| `Multipart.MultipartStream.constructor` | app/user/mutipart/stream.go:52-57 | the fresh stream |
| `Multipart.MultipartStream.AddPart` | app/user/mutipart/stream.go:117-152 | refused exactly for an id already read; otherwise the data is queued under the id, in place of earlier data |
| `Multipart.MultipartStream.Close` | app/user/mutipart/stream.go:60-66 | in-place form of the step |
| `Multipart.MultipartStream.Abort` | app/user/mutipart/stream.go:28-50 | in-place form of the step: the loop closes every queued part's channel, in order |
| `Multipart.MultipartStream.BeginRead` | app/user/mutipart/stream.go:70-96 | the locked half of Read: error, current or next part, end of stream, or wait |
| `Multipart.MultipartStream.FinishRead` | app/user/mutipart/stream.go:98-114 | the unlocked half of Read: bytes returned and fields left |
| `Binomials.Absorption` | lib/utils/utils.go:166-168 | the identity that makes every division of the loop exact |
| `Binomials.ChooseSymmetric` | lib/utils/utils.go:161-164 | the symmetry step keeps the value |
| `Binomials.TurnOfLoop` | lib/utils/utils.go:166-168 | one 64-bit turn is exact if and only if it started exact and its product did not wrap |
| `Binomials.Binomial` | lib/utils/utils.go:157-170 | the result is the binomial coefficient if and only if the last product fits in 64 bits, and too small otherwise; error exactly for k above n |

## Left out

- Differences.ProofApplies: for a pair whose records an earlier message of the block has changed, the condition is validation's own check on the present records; `UndisturbedProof` has the simple one for the others.
- Manager.StateMgr.ApplyMessage: promises nothing for an accepted second CreateFs of a user that is not cached, because the cached counter then no longer is the stored one (AddUser).
- Manager.StateMgr.ApplySignedBlock: takes blocks without an accepted second CreateFs, for the same reason; AcceptedFirstFs proves this of every block that OnPropose accepts.
- Manager.StateMgr.AddUser: what a refused call leaves in the caches is not stated, nor is it for the other manager methods, because a block whose apply fails halts the node.
- Manager.StateMgr.GetUser: the fallback for users stored in the legacy form, which also writes the verify key, is not modelled.
- Manager.StateMgr.AddRole: the lists of providers and users are not kept; no transition reads them.
- Manager.StateMgr.AddChunk: the copy of the bitmap under the epoch is not written; no transition reads it.
- Manager.StateMgr.CreateOrder: the lists of a user's providers and a provider's users, written with the first order of a pair, are not kept.
- Manager.StateMgr.RemoveSeg: the list of deleted segments is not kept; the code never consults it.
- Manager.StateMgr.AddSegProof: the parameters of the proof are not stored; no transition reads them.
- Manager.StateMgr.AddPay: the copy under the latest-confirmation key is not written; no transition reads it.
- Validators.Validator.CanAddSegProof: a user record loaded for the check is not kept among the scratch records; whether the code keeps it depends on the manager's cache, and it equals what is loaded again.
- Proposal.InPool.Propose: the wall clock is an arbitrary choice; when it stops the loop, how far the loop got is not stated.
- Invariants.IncomeWithinWorth: needs that no order of the pair lies strictly inside a recorded window, since otherwise the bound is false (BoundFails).
- The sparse Merkle tree, the store transactions and the height recovery that goes with them: that version is not in force, so the root is the hash chain.
- Stored contents of metadata and network messages.
- Any bound of deleted by stored size: repeated faults on one segment are not filtered.
- Nil dereferences (committing a pair with no order, signatures of an unregistered role) are refusals here.
- Wrap-around of 64-bit sums other than the size comparison; role ids are taken to be non-zero, so that the families of keys do not meet.
- Serialization: records stand for themselves, and checking a fragment's prefix is comparing its bytes.
- Signatures of messages inside a block, and which senders the role service knows as keepers, are function parameters; HotStuff and proof-of-authority message handling are not modelled beyond the signer check.
- DataCoder.Recover: full-length stripe arrays only; for a shorter one the slots appended by the code are not visible to the caller.
- DataCoder.Decode: full-length stripe arrays only, for the same reason.
- DataCoder.VerifyStripe: the batch verifier is ideal (it accepts when every tag fits), and GenTag never fails.
- A coder made directly from a prefix with the copying policy and more than one data shard: NewDataCoder never makes one.
- Aliasing: shards are values although the code's shards are views into fragments; tree nodes are values although Clone exists to avoid sharing; queue entries are values although Push extends the last one in place.
- SegQueues.Merge: speaks about keys and stripes; what happens to the chunks is the subject of `QueueChunks`, whose conditions are exact but for queues that hold empty entries and also cover a stripe twice.
- MerkleTag.Tree.Sum: the argument that a Go hash would append to is ignored by the code as well; node encoding is not modelled.
- Multipart.MultipartStream.BeginRead: blocking is the answer Wait; one reader at a time.
- The other functions of lib/utils, PushPool and the LRU caches: they hold no state that the data chain depends on.
