# FaniLab contracts, verified

A Dafny model of the FaniLab logistics contracts and proofs about what they do to money, to records
and to each other. Five contracts are modelled: escrow, delivery, dispute resolution, fleet
management and identity reputation, together with the token ledger they move money on.

`dafny verify dfyconfig.toml` checks everything.

## How the model is built

Every contract appears twice.

* **What a call does.** A function takes the stored state (and whatever contracts the call reaches)
  and returns either the new state or the error with which the call panics. A panicking call is
  rolled back whole, so a *step* is `outcome.OrElse(before)` and a *run* is a list of steps.
  The files `Escrow`, `Delivery`, `Dispute`, `Fleet`, `Reputation` and `Token` hold these functions.
* **How the contract does it.** A class holds the storage in its fields and overwrites them, check by
  check and loop by loop in the source's order, calling the other contracts' objects. Each method
  is proved to leave exactly the state, and report exactly the result, of the function applied to
  the old state, across every contract the call may touch. Where the host would discard the writes
  of a panicking call, the method restores them. The files `EscrowContract`, `DeliveryContract`,
  `DisputeContract`, `FleetManagement` and `ReputationContract` hold these classes.

The main theorems are about the functions, hence about the methods, and hold over **every run of
arbitrary calls by arbitrary callers** whose addresses may coincide in any way.

What a call does is also told a second time, without the functions that do it and with amounts, times
and limits as plain numbers:

* **Who receives what.** `EscrowOutcomes.Due` is what an address has to receive when an escrow is
  settled; over every run each closed escrow was decided by exactly one committed call, and has paid
  every address exactly what was due at that moment (`EscrowOutcomes.SettleExactlyOnce`,
  `SystemOutcomes.CompositionSettlesOnce`).
* **What is written.** For escrows, fleets, deliveries, cases and driver profiles a table says what each
  committed call writes, and over every run what is stored is the replay of the committed calls
  (`EscrowHistory.RecordIsItsHistory`, `FleetHistory.FleetIsItsHistory`,
  `SystemHistory.DeliveryIsItsHistory`, `SystemHistory.CaseIsItsHistory`,
  `Reputation.ProfileIsItsHistory`).
* **What goes through.** In every reachable state that can pay what it owes, every transaction of every
  contract commits exactly if it is on the table of permitted ones (`SystemHistory.CommitsIff`).

The files:

* `Fees` rounding, saturation, tiers, splits.
* `EscrowBooks`, `EscrowSolvency`, `EscrowTotals`, `EscrowLife`, `EscrowBatch`, `EscrowOutcomes`,
  `EscrowHistory`: the escrow contract by itself; `FleetHistory` and `DeliveryHistory` likewise.
* `System`, `SystemRuns`, `SystemSync`, `SystemProjections`, `SystemOutcomes`, `SystemHistory`,
  `SystemExamples`: delivery, dispute, fleet and direct escrow calls mixed at will. The joint invariant (`System.Joint`) is what no single transition table
  says; the projections carry what was proved of one contract's runs over to the composition.
* `Sums`, `Prelude`: sums over maps; results, addresses and machine arithmetic.

Two pieces of history are carried along that the contracts do not store and that no entry point
reads: for the escrow contract the order of creation, the ids that came from batches and the
payments made for each escrow (`Escrow.Audit`); for the dispute contract which cases were closed by
force (`DisputeState.forced`).

Amounts are `i128` with the saturating and truncating operations of the source written out;
`u64` and `u32` additions fail on overflow, as `Cargo.toml:12` switches overflow checks on. Time is a
parameter that never decreases.

## What came out

Properties that hold only under a condition, with the exact condition proved:

* **Batches and sweeps do not mix.** `create_escrows_batch` does not add to the running total of
  locked funds. So `sweep_untracked_balance` takes funds of live batch-created escrows. A sweep is
  safe exactly when no batch ever locked anything in the token (`EscrowSolvency.SweepSafeIff`, whose
  two further disjuncts are a sweep to the contract itself and a corner of saturation), and a run is
  solvent throughout exactly when all its sweeps are safe (`EscrowSolvency.AlwaysSolventIff`,
  `SystemRuns.AlwaysSolventIff`). `BatchThenSweepStrands` is the two-call run that leaves the contract
  owing 100 and holding nothing. Runs without batches, or without sweeps, are solvent
  unconditionally.
* **An excess can be out of reach.** Once settled batch escrows have pushed the running total below zero
  the admin's sweep asks for more than there is and fails (`EscrowSolvency.SweepSucceedsIff`);
  `EscrowTotals.ExcessOutOfReach` is a run of three calls to such a state.
* **The running total is not always the debt less what batches locked.** It can saturate at the
  smallest `i128`: it equals that difference exactly as long as at no moment batches had locked more
  than 2^127 beyond what was owed (`EscrowTotals.TotalExactIff`); `TotalSaturates` is a run of four
  calls after which it does not.
* **The forced resolution helps nobody but the escrow admin.** The comment at
  `contracts/dispute_resolution_contract/lib.rs:620` lets any party force a resolution once the
  window has elapsed. While the escrow is paused, the inner split asks for the escrow admin, so a
  party succeeds only if they *are* that admin (`SystemRuns.ForceResolveSucceedsIff`);
  `SystemExamples.NobodyCanForce` is a run in which no caller at all can.
* **Two of the table's transitions never happen.** `validate_transition` allows a delivered delivery
  to be disputed and a disputed one to be delivered; the escrow's guards make both impossible
  (`SystemRuns.WorldStepMoves`). The dispute contract's time limit after delivery, and its promise
  that the driver may raise a case, therefore never lead anywhere (`SystemRuns.RaiseSucceedsIff`;
  `SystemExamples.PromisesToDisputeAreEmpty` are runs on which both are refused).
* **Delivery and escrow are not synchronised in the sense of `validate_state_sync`.** For every call of
  the composition, a delivery is reported as synchronised afterwards exactly if it was before and the
  call is none of those that move its escrow, if the call cancels or disputes it, or if it releases
  the held-back escrow of a delivered delivery (`SystemSync.SyncAfterIff`). So every confirmation, and every direct release,
  refund, holdback or dispute on the escrow of a delivery under way, breaks it;
  `SystemExamples.ConfirmedOutOfStep` is a run that reaches a confirmed delivery. The relation that
  does hold in every reachable state is `Delivery.Tied`.
* **Settling an escrow directly strands its case.** If the escrow of an open case is settled directly,
  no admin can close the case any more; only a party can, by force, once the window has elapsed
  (`SystemRuns.SettledBehindTheCase`); `SystemExamples.NoAdminCanClose` is such a run.
* **A full-refund split is not always full.** Above a 10000th of the largest `i128` the product
  saturates and the driver gets the excess (`Fees.FullSplitExactRange`, `Fees.FeeExactRange`).

Where the code does one thing and announces another, the model follows the code: transfers use the
base platform fee (`contracts/escrow_contract/lib.rs:159-165`) while the release events quote the
volume-discounted one, so the tier scan is verified on its own; the comment above
`validate_transition` lists two contradictory tables.

## Readings of unfinished merges

* escrow `lib.rs:782-783`, `1048-1050`: two `let` heads for one expression, read as the base rate.
* escrow `lib.rs:1067-1082`: two alternative payouts, read as the shared `settle_escrow_funds` alone.
* escrow `lib.rs:881`: read as `caller != record.driver`.
* escrow `lib.rs:417-433`: two setters, for the fleet and the dispute contract.
* escrow `lib.rs:672-682`: the record lacks an expiry and a fleet, read as the expiry of
  `create_escrow` and no fleet. The batch also has no check of amount or token and no running total;
  these are modelled as missing.
* fleet `lib.rs:265-267`: a leftover header. `lib.rs:531-534`: no arm for a removed driver, read as
  rejected.
* dispute `lib.rs:200-227`, `432-441`: two functions and two events interleaved.
* identity `lib.rs:119-141`: two setters interleaved, read as one each.
* dispute `lib.rs:597-606` calls `increase_reputation` with three arguments where the identity
  contract takes five (`lib.rs:291-298`); calls into that contract are left out, see below.

## Assumptions

* Nobody signs for the escrow contract's own address outside its own calls, and nobody but the
  dispute contract signs for the dispute contract's.
* The escrow contract is only ever told the address of the real dispute contract
  (`System.GenuineAddress`).
* The token ledger refuses negative amounts and overdrafts, and each token's supply fits an `i128`.

## Model

| member | source | states |
|---|---|---|
| Fees.FeeWithinAmount | contracts/escrow_contract/lib.rs:66-68 | for every i128 amount, negative ones included, and every rate up to 100%, saturated or not, the fee lies between 0 and the amount |
| Fees.FeeMonotone | contracts/escrow_contract/lib.rs:66-68 | the fee is monotone in amount and in rate, also across the saturation point |
| Fees.FeeAtMostTenth | contracts/escrow_contract/lib.rs:320-349 | at the highest admissible rate the fee is at most a tenth |
| Fees.FeeOfSplitOrder | contracts/escrow_contract/lib.rs:66-68 | for all non-negative parts, saturated or not, splitting an order into n parts lowers the total fee by at most n-1 units; it does not raise it if and only if the parts' fees stay within the saturated quotient, hence whenever the order's product fits |
| Fees.FeeExactRange | contracts/escrow_contract/lib.rs:66-68 | the fee is the exact floor if and only if that floor does not exceed the saturated quotient |
| Fees.SplitConserves | contracts/escrow_contract/lib.rs:985-1006 | both shares are non-negative and add up to the amount for every rate, saturated or not |
| Fees.SplitRoundsForDriver | contracts/escrow_contract/lib.rs:985-1006 | the driver gets the ceiling of their exact share if and only if the sender's exact share stays within the saturated quotient, at which the sender is stuck otherwise |
| Fees.FullSplitExactRange | contracts/escrow_contract/lib.rs:985-1006 | a split of everything to the sender refunds everything exactly up to a threshold, and by how much it misses beyond |
| Fees.GetEffectiveFeeBps | contracts/escrow_contract/lib.rs:70-87 | the reverse scan with early exit computes the rate of the last tier reached, and never underflows |
| Fees.LastReachedIsLast | contracts/escrow_contract/lib.rs:70-87 | for tiers in any order: the chosen tier is reached and no later one is; none is chosen only if none is reached |
| Fees.TierIsLargestReached | contracts/escrow_contract/lib.rs:70-87 | for ascending thresholds the chosen tier has the largest threshold not above the volume |
| Fees.EffectiveFeeFallsWithVolume | contracts/escrow_contract/lib.rs:70-87 | with ascending thresholds and growing discounts the rate falls with volume and never exceeds the base rate |
| Fees.EffectiveFeeIsLastTier | contracts/escrow_contract/lib.rs:70-87 | the rate is the base rate less the discount of the last tier reached, but not below 0; the base rate if none is reached |
| Token.TransferEffect | contracts/escrow_contract/lib.rs:147-149 | a transfer changes exactly the two balances named, nothing when both ends coincide, and no supply |
| Token.PayAllEffect | contracts/escrow_contract/lib.rs:152-187 | a list of payments changes every balance by what it receives, whoever the payees are |
| EscrowContracts.EscrowContract.CreateEscrow | contracts/escrow_contract/lib.rs:506-622 | storage, ledger and result are those of the specified creation, which EscrowHistory.CreationFunds tells field by field; on any failed check nothing changes |
| EscrowContracts.EscrowContract.LockFunds | contracts/escrow_contract/lib.rs:535-600 | transfer, record and the three index lists, all or nothing |
| EscrowContracts.EscrowContract.LockItems | contracts/escrow_contract/lib.rs:641-708 | the batch loop: records and balances as single creations leave them, and a cache that stands for exactly the missing index entries |
| EscrowContracts.EscrowContract.CreateEscrowsBatch | contracts/escrow_contract/lib.rs:628-742 | preloaded lists, cached driver lists and the final write-back give exactly the state of locking one item after the other; a failing item undoes all |
| EscrowContracts.EscrowContract.WriteBack | contracts/escrow_contract/lib.rs:729-740 | writing the cached lists back, in any order, overlays them on the stored index |
| EscrowContracts.EscrowContract.MarkHoldbackEscrow | contracts/escrow_contract/lib.rs:744-760 | locked to held back, by the recipient only |
| EscrowContracts.EscrowContract.PayoutDriver | contracts/escrow_contract/lib.rs:97-150 | nothing for a non-positive amount, else one transfer to the driver or the fleet's payout address |
| EscrowContracts.EscrowContract.SettleEscrowFunds | contracts/escrow_contract/lib.rs:152-187 | the driver's part to the payee, then the fee to the admin, skipping empty payments; how much that is, and to whom, EscrowOutcomes.DecisionSettles tells in numbers |
| EscrowContracts.EscrowContract.ReleaseEscrow | contracts/escrow_contract/lib.rs:763-825 | storage, ledger and result are those of the specified release (EscrowOutcomes.DecisionSettles tells what it pays); a failed payout undoes the volume counter |
| EscrowContracts.EscrowContract.RefundEscrow | contracts/escrow_contract/lib.rs:828-875 | equals the specified refund |
| EscrowContracts.EscrowContract.RaiseDispute | contracts/escrow_contract/lib.rs:878-900 | locked to paused by a party, stamped with who and when |
| EscrowContracts.EscrowContract.ResolveDispute | contracts/escrow_contract/lib.rs:903-965 | equals the specified resolution either way (EscrowOutcomes.DecisionSettles tells what it pays) |
| EscrowContracts.EscrowContract.ResolveDisputeSplit | contracts/escrow_contract/lib.rs:968-1028 | equals the specified split (EscrowOutcomes.DecisionSettles tells whom it pays how much); a failing second transfer undoes the first |
| EscrowContracts.EscrowContract.ReleaseHoldbackEscrow | contracts/escrow_contract/lib.rs:1031-1101 | equals the specified release of a held-back escrow (EscrowOutcomes.DecisionSettles tells what it pays), which ignores the pause switch |
| EscrowContracts.EscrowContract.FreezeFunds | contracts/escrow_contract/lib.rs:1111-1131 | only for the configured dispute contract; pauses what is locked or held back and leaves the rest |
| EscrowContracts.EscrowContract.ReclaimExpiredEscrow | contracts/escrow_contract/lib.rs:1134-1174 | equals the specified refund of an expired locked escrow, by anyone |
| EscrowContracts.EscrowContract.SweepUntrackedBalance | contracts/escrow_contract/lib.rs:1211-1239 | moves the excess over the running total, if any |
| EscrowContracts.EscrowContract.UpdatePlatformFee | contracts/escrow_contract/lib.rs:320-349 | by the admin, up to ten per cent |
| EscrowBooks.EscrowRunBooks | contracts/escrow_contract/lib.rs:506-1239 | in every reachable state: balances and supplies sound, every escrow's payments are those its status demands, indexes exact, SenderVolume(s) is the number of released escrows of s capped at u32::MAX |
| EscrowBooks.EscrowStepBooks | contracts/escrow_contract/lib.rs:506-1239 | every single call keeps all of these books |
| EscrowBooks.PayDriverVolume | contracts/escrow_contract/lib.rs:790-804 | the shared payout raises exactly the sender's counter, by one, saturating |
| EscrowBooks.SettledExactly | contracts/escrow_contract/lib.rs:152-187 | a closed escrow has paid exactly its amount in at most two payments: a refund one to the sender, a split to sender and driver, a release at least nine tenths to its first payee (who the payees of a release are: EscrowOutcomes.SettlementOrigin) |
| EscrowBooks.NamingExact | contracts/escrow_contract/lib.rs:553-600 | an index list holds exactly the ids whose record names the address, each once |
| EscrowSolvency.SolvencyWithoutBatches | contracts/escrow_contract/lib.rs:602-611 | over every run without batches, sweeps included: 0 <= running total = sum of live amounts <= holdings <= supply <= i128::MAX, so saturation never bites |
| EscrowSolvency.SolvencyWithoutSweeps | contracts/escrow_contract/lib.rs:628-742 | over every run without sweeps, batches included: live amounts less batch-locked amounts <= running total <= live amounts <= holdings; the first is an equality while batches have locked at most 2^127 in all |
| EscrowSolvency.EscrowRunSolvent | contracts/escrow_contract/lib.rs:602-611 | every run that commits no unsafe sweep ends solvent, batches included |
| EscrowSolvency.EscrowStepSolvent | contracts/escrow_contract/lib.rs:775-814 | a call keeps a solvent contract solvent if and only if it does not commit an unsafe sweep |
| EscrowSolvency.AlwaysSolventIff | contracts/escrow_contract/lib.rs:1211-1239 | a run is solvent at every moment if and only if each sweep it commits is safe when it is made |
| EscrowSolvency.SweepSafeIff | contracts/escrow_contract/lib.rs:1211-1239 | in every solvent state, the exact condition under which a sweep takes no tracked funds; other tokens are never touched |
| EscrowSolvency.SweepSucceedsIff | contracts/escrow_contract/lib.rs:1211-1239 | in every solvent state a sweep goes through exactly for the admin while the running total is not negative, or the holdings are the largest i128 |
| EscrowSolvency.BatchThenSweepStrands | contracts/escrow_contract/lib.rs:1211-1239 | a concrete batch and sweep after which the contract owes 100, holds nothing and cannot refund |
| EscrowTotals.StepTracks | contracts/escrow_contract/lib.rs:506-1239 | every call moves the running total as far as live amounts less batch-locked amounts, stopping at the smallest i128 |
| EscrowTotals.TotalExactIff | contracts/escrow_contract/lib.rs:628-742 | over every run without an unsafe sweep, running total plus batch-locked amounts equals the live amounts if and only if batches never had locked more than 2^127 beyond them |
| EscrowTotals.TotalSaturates | contracts/escrow_contract/lib.rs:843-865 | a concrete run of two batches and two refunds after which the equality fails |
| EscrowTotals.ExcessOutOfReach | contracts/escrow_contract/lib.rs:1211-1239 | a concrete run of a batch, its refund and a gift, after which nothing is owed, 50 are held and the admin's sweep overdraws |
| EscrowSolvency.CloseCover | contracts/escrow_contract/lib.rs:843-865 | closing lowers debts and running total by the amount, and holdings by no more, whoever is paid |
| EscrowSolvency.LockCover | contracts/escrow_contract/lib.rs:535-611 | locking raises holdings and debts by the same amount |
| EscrowLife.EscrowStepEvolves | contracts/escrow_contract/lib.rs:744-1174 | every call keeps every escrow's parties, token, amount and expiry, moves its status strictly forward or not at all, and never touches a closed one or its payments |
| EscrowLife.LivesAreFinite | contracts/escrow_contract/lib.rs:744-1174 | over any run no escrow changes status more than three times |
| EscrowOutcomes.SettleExactlyOnce | contracts/escrow_contract/lib.rs:763-1174 | over any run an escrow has paid nothing while live and exactly its amount once closed, by a committed call that decided its outcome, each address receiving what was due to it in the state that call found |
| EscrowOutcomes.DecisionSettles | contracts/escrow_contract/lib.rs:97-187 | for every committed settling call, any coinciding parties and every address: it receives the amount if it is the sender of a refund; floor(amount*bps/10000), capped at the saturated quotient, as the sender and the rest as the driver of a split; the same floor at the fee rate as the admin, and the rest as the driver, or as the treasury of the driver's operating fleet, of a release. The ledger changes by exactly that, and no other record changes |
| EscrowOutcomes.SettlementOrigin | contracts/escrow_contract/lib.rs:763-1174 | over any run a closed escrow was settled by one of the calls, has paid every address what was due to it in the state that call found, and has not changed since |
| EscrowOutcomes.DecidedOnce | contracts/escrow_contract/lib.rs:763-1174 | over any run at most one committed call decides an escrow, and in one way |
| EscrowOutcomes.LiveUntilDecided | contracts/escrow_contract/lib.rs:763-1174 | over any run an escrow is live if and only if no committed call has decided it |
| EscrowLife.OnlyReleasesRelease | contracts/escrow_contract/lib.rs:744-1174 | nothing but a committed release of that very escrow, by one of the three routes, makes it released |
| EscrowLife.StatusMovesIff | contracts/escrow_contract/lib.rs:744-1174 | freezes by the dispute contract aside, an escrow's status changes exactly by a committed settling, holdback or dispute call that names it |
| EscrowLife.EveryTokenAccountedFor | contracts/escrow_contract/lib.rs:506-1239 | in every call each holder's balance changes by exactly what records and payments say, plus what a sweep or an outside transfer names; no other call moves anything besides |
| EscrowLife.SupplyIsConstant | contracts/escrow_contract/lib.rs:506-1239 | the supply of every token is constant over every run |
| EscrowLife.PayoutsGoThrough | contracts/escrow_contract/lib.rs:152-187 | in a solvent state a payout, a refund and a split of any live escrow go through, at any split rate |
| EscrowLife.PayoutSucceedsIff | contracts/escrow_contract/lib.rs:763-1101 | the three release routes succeed exactly when switch, caller and status allow: the funds check never fires |
| EscrowLife.RefundSucceedsIff | contracts/escrow_contract/lib.rs:828-1174 | the same for the three ways back to the sender; the expiry route exactly when more than 2592000 seconds have passed since creation, up to the saturation of u64 |
| EscrowLife.SplitSucceedsIff | contracts/escrow_contract/lib.rs:968-1028 | the same for a split |
| EscrowLife.NeverStuck | contracts/escrow_contract/lib.rs:828-1174 | from every reachable solvent state the admin of an unpaused contract can refund any live escrow at once, and a locked one can be reclaimed, even while paused, once more than 2592000 seconds have passed since its creation |
| EscrowLife.IndexesExact | contracts/escrow_contract/lib.rs:553-600 | in every reachable state each of the three kinds of lists holds exactly the matching ids, each once, in creation order |
| EscrowBatch.RoundFaithful | contracts/escrow_contract/lib.rs:684-700 | one round keeps the cached index overlay equal to the index single creations would have built, repeated drivers and coinciding parties included |
| EscrowBatch.BatchRefinesSingles | contracts/escrow_contract/lib.rs:628-742 | for positive amounts in the configured token a batch fails exactly when, and as, the single calls do, and otherwise leaves the same records, balances, counters and index lists; only the running total differs |
| EscrowBatch.BatchAcceptedIff | contracts/escrow_contract/lib.rs:628-742 | a batch is accepted if and only if it has at most 100 items, its ids are new and distinct, its amounts non-negative and the sender can afford the sum |
| EscrowHistory.StepIsReplayed | contracts/escrow_contract/lib.rs:506-1174 | a committed call leaves of every record what the table of writes says, with statuses, stamps, terms and the expiry of 2592000 seconds as plain values; a rejected one changes nothing |
| EscrowHistory.RecordIsItsHistory | contracts/escrow_contract/lib.rs:506-1174 | over every run what is stored under an id is the replay of the committed calls by that table, from the creation on |
| EscrowHistory.RecordOrigin | contracts/escrow_contract/lib.rs:506-742 | over every run each escrow was opened by a committed creation or batch, and keeps exactly the parties, token, amount, fleet, creation time and expiry asked for there |
| EscrowHistory.ReclaimWaits | contracts/escrow_contract/lib.rs:1134-1174 | over every run an escrow is reclaimed only when more than 2592000 seconds have passed since the call that created it |
| EscrowHistory.CreationFunds | contracts/escrow_contract/lib.rs:506-622 | a committed creation opens the record asked for, takes exactly the amount from the sender into the contract, raises the total of that token, appends the id to exactly the lists of the addresses named, and changes nothing else |
| EscrowHistory.BatchOpens | contracts/escrow_contract/lib.rs:628-742 | a committed batch opens every item it lists with the record a single creation without a fleet would open |
| EscrowHistory.StepSettings | contracts/escrow_contract/lib.rs:320-433 | fee rate and settings change only by the call that sets them, to what it names |
| EscrowHistory.CommitsIff | contracts/escrow_contract/lib.rs:506-1239 | in every solvent state with sound books each of the calls commits if and only if it is on the table of permitted ones: who may call, in which status, at what time and within which limits |
| DeliveryContracts.DeliveryContract.CreateDelivery | contracts/delivery_contract/lib.rs:140-240 | the next id, a pending record under it, and the id appended to both lists |
| DeliveryContracts.DeliveryContract.AddItems | contracts/delivery_contract/lib.rs:281-335 | the batch loop: counter and records as single creations leave them, and two lists that stand for exactly the missing index entries; the ids returned are the next ones in a row |
| DeliveryContracts.DeliveryContract.CreateDeliveriesBatch | contracts/delivery_contract/lib.rs:246-357 | equals adding the items one after the other; a counter overflow undoes all |
| DeliveryContracts.DeliveryContract.UpdateDeliveryMetadata | contracts/delivery_contract/lib.rs:360-395 | by the sender of a pending delivery, with valid metadata only |
| DeliveryContracts.DeliveryContract.CancelDelivery | contracts/delivery_contract/lib.rs:397-443 | refunds the escrow and cancels, or changes neither contract |
| DeliveryContracts.DeliveryContract.AssignDriver | contracts/delivery_contract/lib.rs:446-487 | by the admin or the driver, who is neither sender nor recipient, on a pending delivery |
| DeliveryContracts.DeliveryContract.MarkInTransit | contracts/delivery_contract/lib.rs:492-526 | by the assigned driver of an active delivery, stamped with the time |
| DeliveryContracts.DeliveryContract.ConfirmDelivery | contracts/delivery_contract/lib.rs:529-605 | holds the escrow back and delivers, or changes neither contract |
| DeliveryContracts.DeliveryContract.RaiseDispute | contracts/delivery_contract/lib.rs:611-667 | pauses the escrow and disputes, or changes neither contract |
| Delivery.DeliveryStepInv | contracts/delivery_contract/lib.rs:140-667 | every call keeps ids dense and self-stored, both indexes exact and every record sound: a driver exactly when assigned and never sender or recipient, delivered_at exactly when delivered, created <= transit start <= delivered |
| Delivery.NamingExact | contracts/delivery_contract/lib.rs:197-228 | an index list holds exactly the ids whose record names the address, in increasing order |
| Delivery.ConfirmCheckNeverFires | contracts/delivery_contract/lib.rs:543-547 | in a sound state the driver check at confirmation never rejects |
| Delivery.BatchIsSingleCalls | contracts/delivery_contract/lib.rs:246-357 | for valid metadata a batch leaves what as many single calls leave, with ids in a row, and fails exactly on counter overflow, as they do |
| DeliveryHistory.LocalCommitsIff | contracts/delivery_contract/lib.rs:77-526 | the exact conditions for creating one or many, editing, assigning and starting transit: places of 1 to 256 characters, at most a million grams, at most 100 in a batch; the sender, admin or chosen driver, or assigned driver; the right status |
| DeliveryHistory.StepIsReplayed | contracts/delivery_contract/lib.rs:140-667 | a committed call leaves of every delivery what the table of writes says: new metadata, driver, status, and the time of transit or delivery; creations hand out the next ids in a row |
| Disputes.CaseStep | contracts/dispute_resolution_contract/lib.rs:230-694 | every call keeps a case's origin, lets its evidence only grow, and never changes a closed case |
| Disputes.AddEvidenceSucceedsIff | contracts/dispute_resolution_contract/lib.rs:317-359 | evidence is taken if and only if the case is open and the caller is sender, recipient or driver of the delivery; the hash goes to the end of the list and nothing else changes |
| Disputes.WindowOpenIff | contracts/dispute_resolution_contract/lib.rs:230-270 | the window by itself: always while under way, after delivery up to and including the deadline if that fits a u64 |
| DisputeContracts.DisputeContract.RaiseDispute | contracts/dispute_resolution_contract/lib.rs:230-314 | disputes the delivery, pauses and freezes the escrow and opens a case, or changes none of the three contracts |
| DisputeContracts.DisputeContract.AddEvidenceHash | contracts/dispute_resolution_contract/lib.rs:317-359 | storage and result are those of the specified call, which Disputes.AddEvidenceSucceedsIff tells: a party's hash is appended to an open case, else nothing changes |
| DisputeContracts.DisputeContract.ResolveDisputeRefundSender | contracts/dispute_resolution_contract/lib.rs:362-443 | closes the case and refunds, or does neither |
| DisputeContracts.DisputeContract.ResolveDisputeSplitFunds | contracts/dispute_resolution_contract/lib.rs:446-540 | closes the case and splits (SystemOutcomes.DecisionSettles tells whom it pays how much), or does neither |
| DisputeContracts.DisputeContract.ResolveDisputePayDriver | contracts/dispute_resolution_contract/lib.rs:543-617 | closes the case and pays out, or does neither; a missing delivery takes the payout back |
| DisputeContracts.DisputeContract.ForceResolveDispute | contracts/dispute_resolution_contract/lib.rs:623-694 | after the window, closes the case and splits a still paused escrow in half, or does neither |
| System.EscrowStepFollows | contracts/escrow_contract/lib.rs:744-1174 | without a freeze by the dispute contract a held-back escrow is never paused again, and once out of Locked who disputed it is fixed |
| System.FreezeChangesNothing | contracts/escrow_contract/lib.rs:1111-1131 | the freeze inside raising a case finds the escrow paused already: it changes nothing, and only needs the dispute contract to be configured |
| SystemRuns.FreezesNeverMatter | contracts/escrow_contract/lib.rs:1111-1131 | over every run: a freeze asked for directly leaves the world as it was, and raising a case leaves the vault as the dispute left it |
| System.WorldStepJoint | contracts/delivery_contract/lib.rs:397-667 | every transaction of any contract keeps the joint invariant |
| System.WorldRunJoint | contracts/delivery_contract/lib.rs:397-667 | in every reachable state: cancelled deliveries are refunded; delivered ones held back, released or refunded, with the recipient of the escrow; disputed ones paused or settled, by a dispute of their sender or recipient; every case is about a disputed delivery and agrees with its escrow; all contracts' books are in order |
| SystemRuns.WorldStepMoves | contracts/delivery_contract/lib.rs:57-75 | delivered, disputed and cancelled are absorbing although the table is not; parties and creation time never change, metadata and driver not once out of pending |
| SystemRuns.WorldRunMoves | contracts/delivery_contract/lib.rs:57-75 | the same over any stretch of any run |
| SystemRuns.CasesOverRuns | contracts/dispute_resolution_contract/lib.rs:317-359 | over any stretch of any run a case's evidence only grows while open and is frozen afterwards |
| SystemRuns.ClosedCaseIsFinal | contracts/dispute_resolution_contract/lib.rs:362-694 | a closed case never changes again and its escrow is settled as the outcome says: refund, payout, split, or any terminal status if forced |
| SystemRuns.DisputeSucceedsIff | contracts/delivery_contract/lib.rs:611-667 | disputing succeeds exactly for sender or recipient of a delivery under way who is party to a locked escrow |
| SystemRuns.RaiseSucceedsIff | contracts/dispute_resolution_contract/lib.rs:230-314 | the exact condition for raising a case; the driver's clause and the window after delivery never matter |
| SystemRuns.ForceResolveSucceedsIff | contracts/dispute_resolution_contract/lib.rs:623-694 | the exact condition for forcing a resolution, which asks for the escrow admin while the escrow is paused |
| SystemRuns.AdminResolutionSucceedsIff | contracts/dispute_resolution_contract/lib.rs:362-617 | the exact condition for each of the three admin resolutions: the dispute admin must also be the escrow admin, the escrow still paused and the contract running |
| SystemRuns.SettledBehindTheCase | contracts/dispute_resolution_contract/lib.rs:362-694 | in every reachable state, solvent or not: an open case whose escrow was settled directly is closed by no admin; exactly a party can force it after the window |
| SystemRuns.CancelSucceedsIff | contracts/delivery_contract/lib.rs:397-443 | the exact condition for cancelling, across both contracts |
| SystemRuns.ConfirmSucceedsIff | contracts/delivery_contract/lib.rs:529-605 | the exact condition for confirming, across both contracts |
| SystemHistory.CommitsIff | contracts/delivery_contract/lib.rs:140-667 | in every reachable solvent state every transaction of every contract commits if and only if it is on the table of permitted ones |
| SystemHistory.DeliveryIsItsHistory | contracts/delivery_contract/lib.rs:140-667 | over every composed run a delivery is the replay of the committed transactions: parties, metadata, driver, status and times; ids are dense from one |
| SystemHistory.CaseIsItsHistory | contracts/dispute_resolution_contract/lib.rs:230-694 | over every composed run a case is the replay of the committed transactions: when and by whom it was raised and resolved, how, whether by force, and its evidence |
| SystemHistory.EvidenceIsItsHistory | contracts/dispute_resolution_contract/lib.rs:317-359 | over every composed run a case's evidence is the list of the hashes of the committed evidence calls on it, in order |
| SystemSync.ConfirmationBreaksSync | contracts/delivery_contract/lib.rs:730-754 | after a cancellation or dispute the two contracts report as synchronised, after every confirmation as not |
| SystemSync.SyncByStatus | contracts/delivery_contract/lib.rs:730-754 | in every reachable state, for every status, which escrow statuses are reported as synchronised |
| SystemSync.StatusChangesIff | contracts/delivery_contract/lib.rs:397-667 | for every call of the composition: an escrow's status changes if and only if the call commits and is on a list told from the state before |
| SystemSync.SyncAfterIff | contracts/delivery_contract/lib.rs:730-754 | for every call of the composition: a delivery is synchronised after it if and only if it was before and the call moves no escrow of that id, or the call cancels or disputes it, or it releases the held-back escrow of the delivered delivery; all told from the state before and the call |
| SystemRuns.WorldRunSolvent | contracts/escrow_contract/lib.rs:602-611 | over every run of the composition that commits no unsafe sweep the escrow contract can pay all it owes |
| SystemRuns.AlwaysSolventIff | contracts/escrow_contract/lib.rs:1211-1239 | a run of the composition is solvent at every moment if and only if each sweep it commits is safe when it is made |
| SystemProjections.VaultRun | contracts/delivery_contract/lib.rs:397-667 | the vault of every composed run is the vault of a run of escrow calls, with no batch or sweep that was not a direct call: whatever holds of escrow runs holds of the composition |
| SystemOutcomes.SettlementOrigin | contracts/escrow_contract/lib.rs:763-1174 | over every composed run a closed escrow was settled by one of the committed transactions, has paid every address what was due to it in the state that transaction found, and has not changed since |
| SystemOutcomes.DecisionSettles | contracts/dispute_resolution_contract/lib.rs:362-694 | every decisive transaction gives every address exactly what is due: a cancellation and a resolution for the sender return the amount, a resolution for the driver pays it out, a split divides it at the rate asked for, and a forced resolution of a paused escrow at 5000 ten-thousandths |
| SystemOutcomes.NoSecondDecision | contracts/dispute_resolution_contract/lib.rs:362-694 | over every composed run no escrow is decided twice, whichever contract is asked |
| SystemOutcomes.CompositionSettlesOnce | contracts/escrow_contract/lib.rs:763-1174 | over every composed run an escrow has paid nothing while live and exactly its amount once closed, by a committed transaction that decided its outcome; indexes are exact |
| SystemProjections.CompositionBalances | contracts/escrow_contract/lib.rs:602-611 | over every composed run without batches the running total equals the live amounts and is held |
| SystemProjections.RegistryRun | contracts/fleet_management_contract/lib.rs:142-780 | the fleet registry of every composed run goes through a run of fleet calls on a clock that never goes back |
| SystemProjections.RedirectedPayouts | contracts/fleet_management_contract/lib.rs:277-374 | over every composed run, earnings that do not go to the driver go to the treasury the fleet was registered with, or to one a then-current signer proposed and a committed confirmation put in place at least three days later; nothing was confirmed since |
| SystemOutcomes.ReleasedMoneyGoesHome | contracts/escrow_contract/lib.rs:97-187 | over every composed run, of every released escrow the admin of that moment received floor(amount*rate/10000), at most a tenth, and its driver, the treasury its fleet was registered with, or one a signer proposed and a committed confirmation put in place after the timelock, received exactly the rest; nobody else received anything |
| SystemExamples.NobodyCanForce | contracts/dispute_resolution_contract/lib.rs:618-694 | a concrete run after which the window has elapsed and yet every caller's forced resolution fails |
| SystemExamples.NoAdminCanClose | contracts/dispute_resolution_contract/lib.rs:362-617 | a concrete run to an open case whose escrow was refunded directly, which nobody can close as an admin |
| SystemExamples.PromisesToDisputeAreEmpty | contracts/dispute_resolution_contract/lib.rs:230-314 | concrete runs on which the driver of a delivery under way, and a recipient well within the time limit after delivery, are refused a case |
| SystemExamples.ConfirmedOutOfStep | contracts/delivery_contract/lib.rs:529-605 | a concrete run to a confirmed delivery: synchronised before, out of step after, synchronised again once paid |
| FleetManagement.FleetContract.RegisterFleet | contracts/fleet_management_contract/lib.rs:142-210 | the next id and a fresh fleet; FleetHistory.FreshFleetIsOwned and FleetHistory.SignersOrigin tell who signs for it |
| FleetManagement.FleetContract.DeactivateFleet | contracts/fleet_management_contract/lib.rs:232-261 | by owner or admin, nothing else changes |
| FleetManagement.FleetContract.UpdateFleetTreasury | contracts/fleet_management_contract/lib.rs:277-329 | a signer replaces the pending change, restarting the wait |
| FleetManagement.FleetContract.ConfirmFleetTreasuryUpdate | contracts/fleet_management_contract/lib.rs:337-374 | anybody, once the wait is over |
| FleetManagement.FleetContract.AddDriverToFleet | contracts/fleet_management_contract/lib.rs:396-457 | invites anybody not pending or active, by a signer of an operating fleet |
| FleetManagement.FleetContract.CancelInvite | contracts/fleet_management_contract/lib.rs:468-503 | withdraws a pending invitation only |
| FleetManagement.FleetContract.AcceptFleetInvite | contracts/fleet_management_contract/lib.rs:511-595 | status, counter and roster change together or not at all |
| FleetManagement.FleetContract.RebuildRoster | contracts/fleet_management_contract/lib.rs:655-680 | the loop keeps everybody but the driver, in order |
| FleetManagement.FleetContract.RemoveDriverFromFleet | contracts/fleet_management_contract/lib.rs:606-687 | status, counter and roster change together; an empty roster is deleted |
| FleetManagement.FleetContract.GetPayoutAddress | contracts/fleet_management_contract/lib.rs:696-717 | the treasury of an operating fleet for its active drivers, else the driver |
| Fleet.FleetStepInv | contracts/fleet_management_contract/lib.rs:396-687 | every call keeps every roster duplicate-free, equal to the active drivers, as long as the counter says and at most 10000 |
| Fleet.FleetRunInv | contracts/fleet_management_contract/lib.rs:396-687 | the same in every state of every run |
| Fleet.FleetGuardsNeverBind | contracts/fleet_management_contract/lib.rs:511-687 | accepting succeeds exactly for a pending invitation below the size limit; the duplicate check and the counter guard never change the outcome |
| Fleet.PayoutAlwaysRouted | contracts/fleet_management_contract/lib.rs:696-717 | a payout address always exists, and is the treasury exactly for drivers on the roster of an operating fleet |
| Fleet.OnlyConfirmationRedirects | contracts/fleet_management_contract/lib.rs:337-374 | nothing but a confirmation changes a registered fleet's treasury |
| Fleet.PendingOrigin | contracts/fleet_management_contract/lib.rs:277-329 | a pending change is the latest proposal, by a signer of that moment, with nothing confirmed since |
| Fleet.TreasuryTimelock | contracts/fleet_management_contract/lib.rs:277-374 | every treasury that takes effect was proposed by a then-current signer at least 259200 seconds before, up to the saturation of u64 |
| Fleet.TreasuryOrigin | contracts/fleet_management_contract/lib.rs:142-374 | the treasury a fleet has at any moment comes from its latest confirmation or, without one, from its registration |
| Fleet.RedirectionOrigin | contracts/fleet_management_contract/lib.rs:696-717 | over every run, the registration, or the committed proposal and confirmation, behind every payout that does not go to the driver |
| Fleet.RedirectionsAreSpaced | contracts/fleet_management_contract/lib.rs:277-374 | two changes of one fleet's treasury are at least three days apart |
| FleetHistory.CommitsIff | contracts/fleet_management_contract/lib.rs:142-780 | in every reachable registry each of the nine calls commits if and only if it is on the table of permitted ones: owner, signer or driver, operating, status of the driver, threshold, and at most 10000 active drivers |
| FleetHistory.FleetIsItsHistory | contracts/fleet_management_contract/lib.rs:142-780 | over every run a fleet exists once registered, under the next number, and its owner, treasury, signers, threshold, operation, pending change, the status of every driver and the order of its roster are the replay of the committed calls |
| FleetHistory.SignersOrigin | contracts/fleet_management_contract/lib.rs:142-210 | over every run a fleet belongs to whoever registered it; its signers are that owner alone until the owner configures them, and from then on the latest list the owner named |
| FleetHistory.FreshFleetIsOwned | contracts/fleet_management_contract/lib.rs:142-210 | of a fleet just registered exactly the owner can invite, propose a treasury and configure signers, nobody can accept, and every driver is paid in person |
| ReputationContracts.ReputationContract.RegisterDriver | contracts/identity_reputation_contract/lib.rs:179-203 | a fresh profile with score 50, once |
| ReputationContracts.ReputationContract.IncreaseReputation | contracts/identity_reputation_contract/lib.rs:291-339 | by an authorised contract; every addition may overflow, the score stops at 100 |
| ReputationContracts.ReputationContract.DecreaseReputation | contracts/identity_reputation_contract/lib.rs:342-368 | by an authorised contract; the score stops at 0 |
| ReputationContracts.ReputationContract.GetDriverTier | contracts/identity_reputation_contract/lib.rs:370-380 | the tier of the stored score: gold from 75, bronze below 50 |
| ReputationContracts.ReputationContract.IsEligibleForEnterprise | contracts/identity_reputation_contract/lib.rs:382-385 | eligible exactly at the gold tier |
| Reputation.HistoryIsOneClamp | contracts/identity_reputation_contract/lib.rs:291-368 | any sequence of increases and decreases acts as one clamp, whose bounds are what it makes of 0 and of 100 and whose shift is the net of all points |
| Reputation.HistoriesCompose | contracts/identity_reputation_contract/lib.rs:291-368 | the clamp of a history in two parts is the closed-form composition of the parts' clamps |
| Reputation.OrderKept | contracts/identity_reputation_contract/lib.rs:291-385 | the same history keeps the order of scores and tiers, never widens a gap, and keeps it exactly when neither score runs into a bound |
| Reputation.ScoreIsItsHistory | contracts/identity_reputation_contract/lib.rs:291-368 | over every run a driver's score is what the committed calls make of the first one and stays within 0..100; deliveries completed count the increases |
| Reputation.SameHistorySameOrder | contracts/identity_reputation_contract/lib.rs:291-385 | two drivers with the same committed history keep their score and tier order and their gap never widens |
| Reputation.IncreaseSucceedsIff | contracts/identity_reputation_contract/lib.rs:291-339 | in a reachable state the exact condition for an increase to commit |
| Reputation.StepIsReplayed | contracts/identity_reputation_contract/lib.rs:179-368 | each call commits if and only if it is permitted, and then leaves of every profile what the table says: score 50 at registration; base, heavy (above 5000 grams) and fragile points up to 100; down to 0 |
| Reputation.ProfileIsItsHistory | contracts/identity_reputation_contract/lib.rs:179-368 | over every run a driver's whole profile is the replay of the permitted calls |

## Left out

- Storage lifetimes, events and error numbering: no effect on state or money. Errors keep their kind, not their number.
- Signature checking: a caller parameter is the caller; only the address comparisons are modelled.
- The settlement contract: it reports no preference and its swap panics, so payouts take the direct transfer.
- Token internals, clawback and authorisation of token accounts; a token that fails a well-funded transfer.
- Cross-contract calls to the identity contract (registration of users and drivers, score changes from delivery and dispute): they can only make a call fail, and one of their signatures does not match. The reputation contract is therefore modelled by itself.
- Address setters, the two-step admin handover, the tier setter, the dispute admin list, its limits and the reputation allowlist: modelled as one call with any outcome whatsoever. Of these, the escrow contract's pause switch, two address setters and tier setter are methods of `EscrowContract` too, each writing one field for the admin.
- The slippage setting, KYC flag, user profiles, protocol version, penalties and plain getters: easy members.
- Rejection of a second initialisation and the lower bound on the dispute time limit.
- Cases where the dispute and delivery contracts are configured with different escrow contracts.
- Which error a refused call reports: each method reports the one of the specified outcome, its checks in the source's order; the tables of permitted calls say that a call is refused, not with what.
- EscrowBooks.SettledExactly: does not name the payees of a release, because the record does not; EscrowOutcomes.SettlementOrigin and SystemOutcomes.ReleasedMoneyGoesHome do.
- Fleet.TreasuryTimelock: at timestamps within three days of the largest u64 the wait is shorter, because the activation time saturates; the statement names the saturated time.
