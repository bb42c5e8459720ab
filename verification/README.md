# Wrasse, verified

Wrasse lets two parties settle escrowed deals whose terms depend on what each side remembers of
the other. This project models its five hard parts in Dafny and proves what they promise, for
every input, every run and every interleaving the model admits.

* **Pricing and documents.** Receipts become a risk, a risk becomes published numbers, two sets of
  numbers become a deal or a refusal, and a deal becomes a document another program can recompute.
  `Constants`, `Numeric`, `Engine`, `Weighing`, `CausalSet`, `Terms`, `RecallOrder`, `Negotiation`,
  `Figures`, `PolicyDocument`.
* **Evidence stores.** A pending-marker protocol over a store with no transactions, an index that
  must agree with a full scan, two stores that must converge, and the locks they are held under.
  `Evidence`, `EvidenceStore`, `DualStore`, `LockOrder`.
* **Transaction ledger and resolver.** Nonces, signed bytes and a status graph against a chain that
  can reorganise. `Chain`, `Ledger`, `LedgerRuns`, `Attempts`, `Resolver`, `TxResolve`, `FreeWallet`,
  `GroundedRuns`.
* **Sessions, refunds and the queue.** Many threads, one worker. `WorkQueue`, `SessionRegistry`,
  `RefundProtocol`.
* **Open-deal index.** The durable record of deals that still hold value, across crashes, restarts
  and concurrent migration. `Liabilities`, `Reclaim`, `Migration`.

Objects that change in place are classes whose methods are proved equal to functions on values;
the theorems are about those functions and about runs of them. Beside the functions that only
compute stand laws that say what a result means without naming the function. A crash is a write
budget that runs out (`EvidenceStore`), or simply no further step (everywhere else). Where a
process acts on something it read earlier, the model lets that reading be stale.

Some promises turned out to hold only under a condition. Each is proved with that condition:

* A nonce is given back on the attempts of the caller's snapshot, while the swap compares the
  status alone. Giving it back is safe exactly when the stored attempts are still one
  (`LedgerRuns.ReleaseIsSafeIff`); a run that breaks it is `LedgerRuns.AStaleReleaseLosesALiveNonce`.
* A wallet whose waiting rows have no deadline can be freed by passes of the resolver, however many
  rows a reorganisation reopened, exactly when no number is missing between the chain's count and a
  waiting row and no row that was never sent has had its number spent (`FreeWallet.FreeableIff`;
  over whole runs of the ledger, `GroundedRuns.ARunsWalletIsFreeableIff`).
* A waiting row whose number others spent is retired by a pass exactly when it was ever marked for
  sending (`TxResolve.ATakenRowIsRetiredIff`): the status graph refuses the verdict from `signed`,
  on every pass over nodes that know of it (`TxResolve.ATakenSignedRowIsNeverFreed`). A crash
  between a record and its mark gets there (`GroundedRuns.ACrashCanTrapAWallet`).
* Once the buyer holds a receipt and it is re-included in another block, no replay of the new body
  changes either memory (`DualStore.AReincludedReceiptIsStuck`), and a crash between the two stores
  leaves the provider without it (`DualStore.ADeliveryCanReachOneStore`); without re-inclusion
  delivery always converges.
* A failed refund can be retried exactly while the queue remembers its run
  (`RefundProtocol.RetryIff`). Forgotten, it holds its session for good
  (`RefundProtocol.ForgottenForGood`), and whatever the length of the history an honest run gets
  there (`RefundProtocol.ARefundCanBeForgotten`).
* Naming an inherited creation keeps the index right exactly when that creation is not about to
  sign (`Liabilities.NamingIsSafeIff`); otherwise the deal it then makes is lost
  (`Liabilities.NamingBesideACreationLosesIt`).
* A written profile reads back exactly when the provider's ask fits `MAX_PRICE_BPS`
  (`PolicyDocument.WriterAndReaderAgree`), which every history respects exactly up to a persona
  sensitivity of `MAX_PRICE_BPS - 10000` (`PolicyDocument.PersonaFitsEveryHistory`).
* A migration succeeds exactly when there is one old table, every row in it has a deal id, and there
  are as many migrated names as old rows (`Migration.MigratesIff`). When earlier migrated rows are
  present that count is not the same as every old row being distinct.

Three places where the code and its own documentation differ; the model follows the code:

* `mark_unbroadcast` says the generic transition to `unbroadcast` is absent from the graph; the
  graph has `signed` to `unbroadcast` (wrasse/chain.py:126). No command takes it, and the nonce
  theorems hold with it included.
* `_migrate` calls its copy proved by a count of rows; what it counts is rows by name
  (wrasse/liabilities.py:159-166), including any an earlier migration left.
* The provider is said to concede three quarters of its premium (wrasse/constants.py:45-46); its
  floor keeps three quarters, so it concedes one quarter (wrasse/engine.py:269-279).

## Model

| member | source | states |
|---|---|---|
| Numeric.RoundIsNearest | wrasse/engine.py:400-404 | Rounding is to the nearest whole number, and a tie goes away from zero on either side of it. |
| Numeric.RoundShareBounds | wrasse/engine.py:400-404 | A rounded share of a whole never leaves the whole, so no rounded premium exceeds the sensitivity it is a share of. |
| Constants.ShippedProfilesAreInDomain | wrasse/engine.py:53-65 | The three shipped profiles meet every bound the pricing theorems ask for. |
| Engine.Score | wrasse/engine.py:342-370 | The loop returns the clamped sum of every receipt's contributions and exactly the ids that contributed. |
| Weighing.SilenceIsWorthNothing | wrasse/engine.py:359-369 | A receipt about the wrong side, or of no dimension's kind, is worth nothing and is not cited. |
| Weighing.WhoseConductCounts | wrasse/constants.py:221-225 | A missed delivery counts for the buyer alone, a late release for the provider alone, a release for both; a broken promise raises risk and a kept one lowers it. |
| Weighing.ZeroIsWorthNothing | wrasse/engine.py:363-367 | No severity, no confidence or no weight is worth nothing and is not cited. |
| Weighing.WorthFollowsSeverity | wrasse/engine.py:363-368 | What a receipt is worth is proportional to its dimension's severity. |
| Weighing.WorthFollowsConfidence | wrasse/engine.py:363-368 | ... to its confidence. |
| Weighing.WorthFollowsWeight | wrasse/engine.py:363-368 | ... and to the buyer's weight. |
| Weighing.RelevanceIsThreefold | wrasse/engine.py:110-113 | To a buyer a dimension that touches its task counts exactly three times one that does not. |
| Weighing.ToAProviderAllAreNear | wrasse/engine.py:163-176 | To a provider no dimension counts more than another for what it applies to. |
| Weighing.TheUnitOfRisk | wrasse/engine.py:342-370 | A full receipt is worth exactly the whole of a provider's risk, and exactly one and a half to a buyer of weight one whose task it touches. |
| Weighing.DimensionsAddUp | wrasse/engine.py:361-368 | A receipt's risk is the sum of what it is worth under each part of the dimensions. |
| Weighing.HistoriesAddUp | wrasse/engine.py:356-368 | A history's risk, before it is clamped, is the sum of its parts. |
| Weighing.SoManyReceiptsRisk | wrasse/engine.py:342-370 | A history of so many receipts of one kind is that many times one of them, kept between nothing and the whole. |
| Weighing.OrderIsWorthNothing | wrasse/engine.py:342-370 | Two histories of the same receipts in different orders have the same risk. |
| Weighing.OwnConductMovesNothing | wrasse/engine.py:342-370 | What a side did itself moves no number of its own, whatever its history and dimensions. |
| Weighing.CitedIff | wrasse/engine.py:366-369 | A receipt is cited as contributing exactly when it is worth something under some dimension. |
| Engine.RowRiskSign | wrasse/engine.py:342-370 | A broken promise never lowers the sum and a kept one never raises it, whatever the dimensions learned. |
| Engine.OneMoreReceipt | wrasse/engine.py:342-370 | Adding a kept promise to any history never raises clamped risk; adding a broken one never lowers it. |
| Engine.NumbersMonotone | wrasse/engine.py:116-144 | Bond, price and price floor rise with risk while payout delay and the bond ceiling fall. |
| Engine.WindowMonotone | wrasse/engine.py:116-144 | The service window moves one way over the whole risk range, the way its buffer points. |
| Engine.WorseRecordIsNoSofter | wrasse/engine.py:239-279 | One more broken promise softens no number its counterparty publishes, one more kept promise hardens none. |
| Engine.UniqueByEventId | wrasse/engine.py:373-397 | The loop over spelled records is the collapse to one record for each receipt, or the refusal of the first id with two stories. |
| Engine.UniqueIsASet | wrasse/engine.py:373-397 | The collapse refuses exactly when two records share an id and differ in anything but its spelling, and otherwise holds each receipt once and nothing else. |
| CausalSet.MinimalCausalSet | wrasse/engine.py:298-339 | The nested loop terminates and computes the fixed point of dropping receipts that move no committed number. |
| CausalSet.FixedPointIsMinimal | wrasse/engine.py:298-339 | For any numbers a history may give: the result explains them and every member of it is load-bearing. |
| CausalSet.CausalSetTheorem | wrasse/engine.py:298-339 | What a side cites contributed, reproduces every number of the whole history, and has no receipt to spare. |
| CausalSet.NothingUsedIffCold | wrasse/engine.py:298-339 | Nothing is cited exactly when the terms equal the cold-start terms. |
| CausalSet.ColdSetIsEmpty | wrasse/engine.py:298-339 | A set in which each receipt matters to cold-start terms is empty, by monotonicity of each number in risk. |
| Terms.ProduceTerms | wrasse/engine.py:88-160 | The buyer's half: baseline refusal, conflicting records, or the terms of the collapsed history. |
| Terms.ProduceProviderTerms | wrasse/engine.py:207-291 | The provider's half, with the same refusals. |
| Terms.BuyerTermsInBounds | wrasse/engine.py:134-156 | On every history the buyer's numbers stay inside what settlement relies on; the bond never drops below the baseline. |
| Terms.ProviderTermsInBounds | wrasse/engine.py:253-291 | On every history the provider's floor is at most its own ask and its delay at most the baseline. |
| Terms.PriceBounds | wrasse/engine.py:253-279 | Three quarters of a premium, rounded, never passes the whole premium, rounded. |
| RecallOrder.EvidenceIsASet | wrasse/engine.py:373-397 | Both sides' terms, refusals and cited receipts are a function of what the evidence says alone: order, repetition and spelling move none of them. |
| Figures.BuyerFigures | wrasse/engine.py:134-144 | The bond and the window are the nearest whole numbers to the baseline moved by the sensitivity times the risk, between their bounds. |
| Figures.ProviderFigures | wrasse/engine.py:253-279 | So are the ask, a floor at three quarters of its premium, the payout delay and the bond ceiling. |
| Figures.BuyerLimits | wrasse/engine.py:152-156 | The buyer's ceiling is the baseline and its premium; its least delay is its share of the baseline, rounded down and at least a second. |
| Figures.RiskIsShown | wrasse/engine.py:157 | Each side shows the risk it priced with, to the nearest ten-thousandth. |
| Figures.RecalledIsWhatWasRead | wrasse/engine.py:158-159 | Each side names every receipt it read, once and in order, and uses none it did not read. |
| Figures.ShippedProfilesReach | wrasse/engine.py:53-65 | What one broken promise does to each shipped profile, in its own context and outside it: worth, numbers at full risk, and limits. |
| Negotiation.SettleOneIsFair | wrasse/negotiation.py:146-181 | A term settles on a value inside both sides' published room, or refuses by the positive distance between them. |
| Negotiation.DerivedPositionsAreFair | wrasse/negotiation.py:230-252 | On any numbers whose walk-aways follow their rules, each is the baseline unless the proposal gives more, and its term settles inside both sides' room or refuses by the distance. |
| Negotiation.Settle | wrasse/negotiation.py:184-227 | The loop settles all four terms in order, stops at the first without overlap, and refuses an incomplete table. |
| Negotiation.WalkawaysFor | wrasse/negotiation.py:230-273 | Each walk-away is the one its rule derives, the price one as published, and a price one not published is refused. |
| Negotiation.BuildPositions | wrasse/negotiation.py:276-327 | Positions are rebuilt from published numbers exactly when every walk-away is what its rule gives; otherwise the error names what is missing, or the first term at fault in settlement order, with the figure published and the one its rule gives. |
| Negotiation.BargainHasClosedForm | wrasse/negotiation.py:184-227 | Window and delay never refuse and the window limit never binds; bond refuses exactly below the baseline, then price exactly below the floor, each by that gap; otherwise the stated minima and maxima. |
| Negotiation.EveryQuoteHasClosedForm | wrasse/cli.py:384-433 | The closed form holds for the engine's own positions, for every baseline, profile, persona and pair of histories. |
| Figures.ADealExistsIff | wrasse/engine.py:253-279 | Two memories have a deal exactly when the provider's risk leaves a bond that covers the operator's rate and a floor the buyer's profile allows; the buyer's memory has no say. |
| Negotiation.WorseBuyerFaresWorse | wrasse/negotiation.py:184-212 | A worse buyer record never lowers the price, raises the bond or the delay, or turns a refusal into a deal. |
| Negotiation.WorseProviderFaresWorse | wrasse/negotiation.py:184-212 | A worse provider record never changes the price, the delay or whether there is a deal, and never lowers the bond. |
| Negotiation.BrokenPromiseByBuyer | wrasse/engine.py:253-279 | A broken promise by the buyer is a worse record in that sense, and a kept one a better. |
| Negotiation.BrokenPromiseByProvider | wrasse/engine.py:116-144 | The same of the provider. |
| PolicyDocument.WriterAndReaderAgree | wrasse/policy_document.py:519-781 | A written body is read back, with the same terms, exactly when the ask fits the document. |
| PolicyDocument.PersonaFitsEveryHistory | wrasse/constants.py:246 | A persona's ask fits on every risk exactly up to the stated sensitivity. |
| PolicyDocument.BaselineIsWhatTheContractTakes | wrasse/constants.py:284-294 | A baseline is in domain exactly when the bare deal it describes fits the contract, at its own price and at the widest rate a document holds. |
| PolicyDocument.WriterRefusesOnlyZeroBonds | wrasse/cli.py:436-567 | On engine terms the writer fails exactly when a positive bond would round to nothing. |
| PolicyDocument.EveryQuoteReadsBack | wrasse/cli.py:436-567 | From any evidence the writer's body is accepted by the reader holding that evidence. |
| PolicyDocument.AcceptedBodySpeaksTruth | wrasse/policy_document.py:561-781 | Whatever wrote it, an accepted body's settlement, walk-aways, displayed and committed terms are those its own numbers produce, and its parties and engine are those it was read for. |
| PolicyDocument.AcceptedFiguresAreInRange | wrasse/policy_document.py:561-630 | Every figure an accepted body publishes is one its term may take, and both risks lie between nothing and the whole. |
| PolicyDocument.AnUnreadableBlockIsRefusedFirst | wrasse/policy_document.py:519-558 | A body is refused for its settlement block exactly when the gap or some move in it could not be meant, whatever else is wrong. |
| PolicyDocument.AWrittenBodySaysWhatHappened | wrasse/cli.py:436-567 | A written body names the term without room and the distance, bond before price, or the deal and its moves. |
| PolicyDocument.AWrittenDealCostsItsRate | wrasse/negotiation.py:354-370 | A written deal costs, as shown and as signed, its settled rate of the baseline rounded down to wei, at least one, and never less than the baseline. |
| PolicyDocument.AnAcceptedDealCostsItsRate | wrasse/policy_document.py:633-675 | So does a deal the reader accepts, whoever wrote it. |
| PolicyDocument.CostsFollowTheRate | wrasse/negotiation.py:354-370 | The neutral rate costs exactly the baseline and a higher rate never costs fewer wei. |
| PolicyDocument.AWorseBuyerPaysNoFewerWei | wrasse/cli.py:436-567 | Against a worse memory of it the same buyer is written a price of at least as many wei. |
| PolicyDocument.AnAcceptedDealIsCreatable | wrasse/policy_hash.py:132-190 | Whoever wrote it, an accepted deal passes the contract mirror exactly while its deadline is in range. |
| PolicyDocument.CreatableIff | wrasse/policy_hash.py:132-190 | What the mirror of the contract takes, as one condition on the deal. |
| PolicyDocument.AgreedTermsAreCreatable | wrasse/policy_hash.py:132-190 | Agreed terms pass the contract mirror exactly when the deadline is in range and the bond is collectible, staying within uint256. |
| PolicyDocument.WrittenDealIsCreatable | wrasse/policy_hash.py:132-190 | Everything written as executable is creatable exactly while its deadline is in range, with a bond above zero whenever the rate is. |
| PolicyDocument.TheMarginIsCreatableLater | wrasse/policy_hash.py:198-228 | A creatable deal passes the inclusion margin exactly when neither margin nor lag is negative and it is still creatable the whole of both later, and at every moment between. |
| EvidenceStore.WrasseStore.PersistVerifiedEvent | wrasse/evidence.py:154-206 | A second body for a stored receipt is refused before any write; otherwise entity, journal and journal marker are written in that order, each only if missing, with a crash between any two. |
| EvidenceStore.WrasseStore.Ingest | wrasse/store.py:383-442 | The marker protocol write by write: what is on disk and what is answered, for every point a crash can fall. |
| Evidence.OneIdIff | wrasse/evidence.py:134-147 | Receipts share an id exactly when chain, contract, transaction and log index all agree. |
| EvidenceStore.WhatIsTurnedAway | wrasse/evidence.py:114-131 | Exactly which receipts are turned away before anything is written. |
| EvidenceStore.AConflictIsAnotherStory | wrasse/evidence.py:175-184 | After any run, an ingest is a conflict exactly when the store holds another account of the same log, and new exactly when it holds none. |
| EvidenceStore.HeldWereIngested | wrasse/evidence.py:154-206 | Whatever a store holds, it was told in exactly those words. |
| EvidenceStore.OtherLogsNeverConflict | wrasse/evidence.py:134-184 | A receipt of whose log no other account was ever delivered is always taken and held. |
| EvidenceStore.CutIngestKeeps | wrasse/store.py:383-442 | Wherever an ingest is cut off, every unmarked receipt stays indexed and journalled and the index claims nothing false. |
| EvidenceStore.IngestKeeps | wrasse/store.py:383-442 | A finished ingest leaves exactly the receipt held, journalled, indexed and unmarked, nothing else changed. |
| EvidenceStore.ConflictChangesNothing | wrasse/store.py:414-437 | A conflict leaves the disk as it was: it clears a marker only if this call created it. |
| EvidenceStore.ReplayChangesNothing | wrasse/store.py:383-442 | Replaying a landed receipt changes nothing and says it created nothing. |
| EvidenceStore.EveryRunKeepsInv | wrasse/store.py:383-442 | The store invariant holds after any run of ingests, replays, conflicts, repairs and crashes. |
| EvidenceStore.EntitiesAreForever | wrasse/evidence.py:154-206 | A stored receipt is never lost or rewritten. |
| EvidenceStore.WrasseStore.Recall | wrasse/store.py:554-592 | The snapshot read answers what the marker check, the index and each record determine. |
| EvidenceStore.RecallIsExact | wrasse/store.py:554-592 | After any run a recall refuses exactly while a marker stands, rejects exactly foreign or undatable receipts, and otherwise returns exactly what a full scan attributes, with the matching verdict. |
| EvidenceStore.WhatIsRecalledIsSound | wrasse/store.py:637-700 | On any disk at all, what a recall answers with is verified, valid, of this deployment, under its own id and between these two parties. |
| EvidenceStore.VerifiedEvidenceIsNeverRejected | wrasse/store.py:554-592 | A store told only verified outcomes of its own deployment never rejects what it holds. |
| EvidenceStore.WrasseStore.RepairIndex | wrasse/store.py:493-534 | Below the enumeration limit the loop restores every lost id, counts exactly those, and touches nothing but the index. |
| EvidenceStore.RepairIsExact | wrasse/store.py:493-534 | From any index that claims nothing false, a repair leaves the exact projection and a second finds nothing lost. |
| EvidenceStore.WrasseStore.FinishPending | wrasse/store.py:453-468 | Given the original receipts for all markers, every marker goes and the invariant holds; a refused receipt stops it safely. |
| DualStore.Reconcile | wrasse/reconciler.py:195-222 | Delivery is to the buyer's store, then the provider's, stopping where the first does. |
| DualStore.TheProviderIsNeverAhead | wrasse/reconciler.py:195-222 | After any partial deliveries, whatever the provider holds the buyer holds word for word. |
| DualStore.DeliveryLands | wrasse/reconciler.py:195-222 | A delivery that lives long enough lands in both exactly when the buyer holds no other body for it, and otherwise changes nothing. |
| DualStore.Convergence | wrasse/reconciler.py:195-222 | After any partial deliveries, one finished replay of every receipt leaves both stores equal, unmarked, with journals naming exactly what is held. |
| DualStore.AReincludedReceiptIsStuck | wrasse/store.py:425-437 | After any deliveries: once the buyer holds a receipt under one body, no number of replays of another body changes either memory. |
| DualStore.ADeliveryCanReachOneStore | wrasse/reconciler.py:195-222 | A first delivery that dies between the two ingests leaves the receipt with the buyer alone. |
| DualStore.BilateralHistories | wrasse/cli.py:620-643 | The gate recalls both sides and refuses across a gap. |
| DualStore.AQuoteIsOneHistory | wrasse/cli.py:620-643 | After any deliveries a quote is produced only from equal receipts in equal words, and from everything either side holds. |
| DualStore.ConvergedMemoriesAgree | wrasse/cli.py:620-643 | Equal unmarked memories always pass the gate unless a receipt itself is rejected. |
| LockOrder.NeverDeadlocks | wrasse/store.py:139-159 | Any number of processes taking locks in path order exclude one another, never deadlock, and finish within a bounded number of moves. |
| LockOrder.OppositeOrdersDeadlock | wrasse/store.py:143-146 | Two processes taking two locks in opposite orders can stop for good. |
| Ledger.TransactionLedger.Find | wrasse/chain.py:480-490 | The lookup by primary key. |
| Ledger.TransactionLedger.BlockingRow | wrasse/chain.py:492-511 | Finds a row whose nonce is neither spent nor given back exactly when the wallet has one. |
| Ledger.TransactionLedger.RecordSigned | wrasse/chain.py:514-613 | Looks again, refuses a busy wallet, allocates past the chain's count and every live nonce, and commits the row or nothing. |
| Ledger.TransactionLedger.SetStatus | wrasse/chain.py:631-658 | The graph is asked about the snapshot, the write is a swap on the stored status. |
| Ledger.TransactionLedger.MarkUnbroadcast | wrasse/chain.py:615-629 | Releases on the snapshot's status and attempts, swapping on the stored status. |
| Ledger.WhatLeadsWhere | wrasse/chain.py:125-186 | The status graph by target: exactly which statuses lead to each, and that exactly the terminal ones lead nowhere. |
| LedgerRuns.BytesAreForever | wrasse/chain.py:406-411 | Over any run rows stay with the bytes they were recorded with, and terminal rows never move. |
| LedgerRuns.SignedAtMostOnce | wrasse/chain.py:543-613 | However processes race and retry, the signer runs to a recorded row at most once for an intent, and later calls get the same bytes. |
| LedgerRuns.EveryRowIsAsSigned | wrasse/chain.py:543-613 | Over any run, each row's nonce, deadline and bytes are what the signer of the record that made it gave, at a number the chain had not counted past. |
| LedgerRuns.EveryRunKeepsInv | wrasse/cli.py:1360-1402 | Only recorded bytes are ever sent, after an attempt was counted, and no two rows share bytes. |
| LedgerRuns.ReleaseIsSafeIff | wrasse/chain.py:615-629 | Over every run, giving a nonce back is safe exactly when the stored attempts are still one. |
| LedgerRuns.AStaleReleaseLosesALiveNonce | wrasse/chain.py:678 | A resend inside a first send lets the release give back a nonce whose bytes are at large. |
| LedgerRuns.NoRunOpensAGap | wrasse/chain.py:543-629 | Live nonces are distinct, every number below one is held or was counted by the chain, at most one row is never settled and it is the top, and released bytes were never sent. |
| LedgerRuns.UndisturbedIsFresh | wrasse/cli.py:1534-1555 | With no resend inside a first send every release finds exactly one attempt. |
| LedgerRuns.AnInsertOnlyMeetsReleasedBytes | wrasse/chain.py:400-402 | An insert never violates the nonce index, and the hash index only over bytes whose nonce was given back. |
| LedgerRuns.WhatARecordAnswers | wrasse/chain.py:514-613 | Exactly when a record finds its row, is refused as busy, or makes a new row, and with what in it. |
| LedgerRuns.TheNonceOffered | wrasse/chain.py:561-571 | The nonce offered is the least past the chain's count and every live nonce of the wallet. |
| LedgerRuns.AReleasedNonceIsOfferedAgain | wrasse/chain.py:561-571 | Only the top nonce is given back, and it is allocated next unless the chain's count has passed it. |
| Attempts.NextAttemptIntent | wrasse/cli.py:1454-1472 | The search terminates at the first number not confirmed reverted, with every earlier one reverted. |
| Attempts.NumbersAreContiguous | wrasse/cli.py:1454-1472 | Over any run, whatever happens between a lookup and its record, numbered attempts are contiguous. |
| Attempts.AtMostOneAttemptSucceeds | wrasse/cli.py:1454-1472 | All attempts but the last are confirmed reverted, then and in every later run. |
| Chain.AnOutcomeIsPermanent | wrasse/chain.py:1256-1299 | What is mined under a permanent prefix keeps that outcome, and no other, in every chain above it. |
| Chain.ATakenNonceIsPermanent | wrasse/chain.py:1139-1164 | Bytes absent from a permanent prefix that has spent their nonce are mined in no chain above it. |
| Chain.SafeIff | wrasse/chain.py:1139-1164 | A node's safe blocks are exactly those of its chain at or below the safe head it reports. |
| Resolver.WhatEachVerdictTakes | wrasse/chain.py:1074-1204 | What the nodes must say for each verdict; abandoning a payload takes two nodes without it, both past its nonce where they are safe. |
| Resolver.WhatLeavesARowWaiting | wrasse/chain.py:1112-1204 | Exactly when a row is found stuck, when a nonce conflict is unproved, and when no answer can be trusted. |
| Resolver.APendingCountIsOnlyAConflict | wrasse/chain.py:1166-1172 | A pending count past the nonce is a conflict and nothing more, exactly when the node reports one. |
| Resolver.WhenConfirmationRefuses | wrasse/chain.py:1256-1299 | Exactly when confirmation has no block to ask about, or no safe head to settle by. |
| Resolver.WhatConfirmationTakes | wrasse/chain.py:1256-1299 | Reorganised exactly when the recorded block is gone, settled with its own outcome and block exactly when it is there at or below the safe head. |
| Resolver.VerdictsAreFinal | wrasse/cli.py:1728-1815 | Whatever any resolvers write from stale reads while the tail reorganises: a confirmed outcome holds in every later chain, and consumed bytes are mined in none. |
| Resolver.ResolveIsFounded | wrasse/chain.py:1074-1204 | A verdict from faithful nodes is true of the permanent blocks. |
| Resolver.ConfirmIsFounded | wrasse/chain.py:1256-1299 | So is a confirmation. |
| TxResolve.ResolveRow | wrasse/cli.py:1722-1815 | One row's pass, branch by branch: terminal, included, resent, resolved and confirmed in the same pass. |
| TxResolve.UnknownIff | wrasse/chain.py:1166-1204 | A resend is permitted exactly when there is no trace of the bytes and time is left, zero meaning no deadline. |
| TxResolve.ResentIff | wrasse/cli.py:1742-1797 | Bytes are resent exactly when asked, authorised, ours, untraced and before any deadline at both looks. |
| TxResolve.WhyNothingIsSent | wrasse/cli.py:1747-1787 | Exactly why untraced bytes with time left are not sent; a missing opt-in alone is an error, and nothing is written. |
| TxResolve.WhatAResendLeaves | wrasse/cli.py:1783-1797 | What each answer of a node to a resend makes of the row: it counts one attempt, and the wallet stays held. |
| TxResolve.WaitingForSafetyWritesNothing | wrasse/cli.py:1728-1740 | An included row whose block is there and not yet safe is left exactly as it is. |
| TxResolve.NoSafeHeadIsRaised | wrasse/cli.py:1728-1740 | Without a safe head an included row whose block is there is not judged: that is raised, and nothing is written. |
| TxResolve.AnExpiredRowEndsStuck | wrasse/chain.py:1183-1201 | An untraced row whose deadline or age has run out ends stuck from every waiting state, unsent and unrefused. |
| TxResolve.AnExpiryWhileResolvingEndsStuck | wrasse/cli.py:1768-1779 | So does one whose deadline passes between the verdict and the resend. |
| TxResolve.APassTouchesOneRow | wrasse/cli.py:1722-1815 | A pass changes one row and never its bytes. |
| TxResolve.APassWritesWhatIsSo | wrasse/cli.py:1722-1815 | On faithful nodes, what a pass writes about a row is true of the permanent blocks. |
| TxResolve.ResendLeavesItWaiting | wrasse/cli.py:1747-1797 | An untraced row with no deadline is always resent, from every state it can wait in, and keeps its bytes. |
| TxResolve.AWayOutAlwaysExists | wrasse/chain.py:1166-1204 | One row at the chain's own count, with no deadline: it is resent, the chain can include it, and a pass over that chain settles it. |
| TxResolve.RefusedVerdicts | wrasse/chain.py:125-186 | Exactly which verdicts the graph refuses from which states. |
| TxResolve.ATakenRowIsRetiredIff | wrasse/chain.py:1139-1164 | A waiting row whose number both nodes report spent where they are safe is retired by a pass exactly when it is not `signed`. |
| TxResolve.ATakenSignedRowIsNeverFreed | wrasse/chain.py:125-126 | A signed row whose nonce another transaction took is never written to again and blocks its wallet. |
| FreeWallet.FreeableIff | wrasse/chain.py:1166-1204 | Over every sequence of passes on a growing chain: a wallet with no deadlines can be brought to where every row is over exactly when no number below a waiting row is missing and no unsent row's number is spent. |
| FreeWallet.NoTurnsFreeATrap | wrasse/cli.py:1722-1815 | Behind a missing number, or with an unsent row's number spent, no sequence of passes frees the wallet. |
| FreeWallet.FreedMeansNothingBlocks | wrasse/chain.py:492-511 | A freed wallet has no row that stops the next record. |
| GroundedRuns.EveryVersionIsSound | wrasse/cli.py:1722-1815 | Over every run whose statuses come from sends or from verdicts on possibly stale versions of a row, every version of every row is true of the permanent blocks. |
| GroundedRuns.EveryRowIsFinal | wrasse/chain.py:1074-1299 | After any such run, what a row says is settled holds in every later chain. |
| GroundedRuns.NoTwoAttemptsSucceed | wrasse/cli.py:1454-1472 | After any such run, no later chain has two attempts at one deal action that both succeeded. |
| GroundedRuns.ARunsWalletIsFreeableIff | wrasse/chain.py:1166-1204 | After any such run whose releases find one attempt, and any reorganisation, a wallet with no deadlines can be freed exactly when the numbers lost below its waiting rows were its own and no unsent row's number is spent. |
| GroundedRuns.ACrashCanTrapAWallet | wrasse/cli.py:1360-1402 | A recorder that dies before its mark, and a transaction of others on its number, leave a wallet no resolver can free. |
| WorkQueue.Queue.Submit | wrasse/executor.py:1196-1204 | Appends to the queue and trims. |
| WorkQueue.Queue.Trim | wrasse/executor.py:1245-1256 | The loop forgets from the front and stops at the first unfinished run. |
| WorkQueue.Queue.Get | wrasse/executor.py:1206-1208 | The run while it is remembered, or nothing. |
| WorkQueue.Queue.Position | wrasse/executor.py:1210-1222 | The first index of a waiting run, or nothing. |
| WorkQueue.Queue.BusyWith | wrasse/executor.py:1231-1243 | Whether the session has a queued or running run. |
| WorkQueue.Queue.Work | wrasse/executor.py:1258-1288 | One turn of the worker. |
| WorkQueue.TrimForgetsOnlyFinished | wrasse/executor.py:1245-1256 | Trimming loses no unfinished run and changes no other. |
| WorkQueue.TrimGoesAsFarAsItMay | wrasse/executor.py:1245-1256 | Afterwards the history is within its bound or its oldest run is unfinished; nothing within the bound is forgotten, and exactly the runs dropped from the order are. |
| WorkQueue.SubmitKeepsInv | wrasse/executor.py:1196-1204 | Every waiting id resolves to a queued run, kept through submission and trimming. |
| WorkQueue.WorkedKeepsInv | wrasse/executor.py:1258-1288 | ... and through a turn of the worker. |
| WorkQueue.AWholeTurn | wrasse/executor.py:1258-1288 | A turn ends the head run and no other, refuses settlements once closed, and closes exactly on a failed reclaim. |
| WorkQueue.WhileItRuns | wrasse/executor.py:1258-1276 | Meanwhile the head run is the one held and the one marked running, and nothing else has moved. |
| SessionRegistry.Sessions.Reserve | wrasse/sessions.py:157-183 | A creation is refused exactly when places are full, reservations counted, and everything held is busy. |
| SessionRegistry.Sessions.Abandon | wrasse/sessions.py:184-192 | A copy that failed gives its reservation back and nothing else. |
| SessionRegistry.Sessions.Land | wrasse/sessions.py:200-206 | The session is added and the oldest idle ones make room. |
| SessionRegistry.Sessions.Evict | wrasse/sessions.py:299-334 | Of the first so many, exactly the busy ones stay, ahead of the rest in their old order. |
| SessionRegistry.EvictionIsFair | wrasse/sessions.py:299-334 | What is held is within the limit or all busy, nothing busy went, and nothing went that could have stayed. |
| SessionRegistry.ANewSessionSurvivesIff | wrasse/sessions.py:200-206 | A session is evicted by its own creation exactly when busy ones already fill the limit. |
| SessionRegistry.Sessions.Admit | wrasse/sessions.py:253-290 | Refused for the allowance exactly when five are spent, as finished exactly when fewer are and the session is claimed or refunded; otherwise charged and published as one transition, or neither. |
| SessionRegistry.Sessions.BeginFinishing | wrasse/sessions.py:212-225 | One caller claims a session that is neither claimed nor refunded. |
| SessionRegistry.Sessions.SettleRefund | wrasse/sessions.py:227-251 | Nothing changes unless the session still names that refund. |
| RefundProtocol.EveryRunKeepsInv | wrasse/service.py:722-774 | What threads have read is so, a claim has one owner, and queue and sessions agree, over every interleaving. |
| RefundProtocol.RefundSafety | wrasse/service.py:722-774 | At most one unfinished refund for a session, none of its settlements behind it, and none unfinished once it is refunded. |
| RefundProtocol.RefundedIsForever | wrasse/sessions.py:212-290 | Being refunded and having nothing left to settle is permanent. |
| RefundProtocol.AClaimOutlivesItsRefund | wrasse/sessions.py:227-251 | No report, however stale, clears a claim while its refund is queued or running. |
| RefundProtocol.NoClaimIsOrphaned | wrasse/service.py:722-774 | Over every interleaving a claim always has an answer: a thread that owns it, or a refund that is queued, running or ended. |
| RefundProtocol.TheAllowanceIsFive | wrasse/sessions.py:253-290 | Over every interleaving a session is charged once for each settlement let in, and never for a sixth. |
| RefundProtocol.LetInIff | wrasse/sessions.py:277-290 | A settlement is let in and queued exactly while fewer than five have been and nobody has claimed or refunded the session. |
| RefundProtocol.TheLoserLeavesNoTrace | wrasse/service.py:722-774 | A thread that finds the session refunded or claimed goes away and leaves everything as it was. |
| RefundProtocol.GivingUpUndoesTheClaim | wrasse/service.py:760-774 | An owner that cannot queue its refund leaves the session as free as before its claim. |
| RefundProtocol.RetryIff | wrasse/service.py:722-774 | A failed refund can be claimed again exactly while the queue remembers its run. |
| RefundProtocol.ForgottenIsForever | wrasse/executor.py:1245-1256 | No single step frees the session of a forgotten refund. |
| RefundProtocol.ForgottenForGood | wrasse/executor.py:1245-1256 | From a forgotten refund on, no run of threads and worker ever frees the session. |
| RefundProtocol.ARefundCanBeForgotten | wrasse/executor.py:1245-1256 | For every length of the history an honest run pushes a failed refund out before anybody asks after it. |
| Liabilities.LiabilityIndex.OpenIntent | wrasse/liabilities.py:176-191 | Insert, or leave what is there. |
| Liabilities.LiabilityIndex.Attach | wrasse/liabilities.py:194-208 | Adds what became known and clears nothing. |
| Liabilities.LiabilityIndex.Discard | wrasse/liabilities.py:211-221 | Removes an intent only while it has no deal id. |
| Liabilities.LiabilityIndex.Close | wrasse/liabilities.py:224-228 | Removes every row of a deal and nothing else. |
| Liabilities.WhatADealMayBecome | wrasse/escrow.py:266-276 | The contract's edges by target, and that a deal is over exactly when none leaves it. |
| Liabilities.NoDepositIsLost | wrasse/executor.py:1045-1080 | Over every run of creations, boots, crashes and recoveries in which no boot names a creation about to sign, each deal still holding value has its row. |
| Liabilities.StepLosesNothing | wrasse/liabilities.py:176-228 | No single write, wherever the process dies after it, loses one. |
| Liabilities.WhatNamingLearns | wrasse/executor.py:773-790 | A creation that made a deal keeps its row, with its hash, and with its deal exactly when the receipt can be read. |
| Liabilities.NamingIsSafeIff | wrasse/executor.py:764-771 | One row's naming keeps the index right exactly when that creation is not between its row and its signature. |
| Liabilities.NamingBesideACreationLosesIt | wrasse/executor.py:764-771 | From any such moment the naming, the signature and the deal it makes leave a deal no row names. |
| Liabilities.ACreationIsAboutToSign | wrasse/executor.py:1045-1080 | Such a moment is one step from an empty deployment. |
| Reclaim.NameUnresolved | wrasse/executor.py:745-790 | The loop settles each unnamed row by what the ledger and the readable receipts say. |
| Reclaim.NamingLosesNothing | wrasse/executor.py:745-790 | A boot's naming, with no creation about to sign, discards no row with a deal behind it. |
| Reclaim.RecoverDeals | wrasse/executor.py:705-743 | Each deal is driven along the contract's edges to its end and struck off, stopping at the first action not included. |
| Reclaim.OneActionEndsIt | wrasse/executor.py:696-703 | The one recovery action each state has is an edge of the contract and ends the deal. |
| Reclaim.FreedIff | wrasse/executor.py:157-161 | The statuses that free a wallet are exactly those under which a row does not stop the next record. |
| Reclaim.WhatAStatusSaysOfADeal | wrasse/executor.py:151-155 | A status that says a deal was made rests on a success, and one that says none was on a revert, a nonce given back, or bytes that can never be mined. |
| Reclaim.RunReclaim | wrasse/executor.py:583-649 | Refused while a row holds a wallet, and then nothing changes; otherwise every row is as the naming left it or gone for cause, a failure means some deal's action failed, and success that every named deal is over and, with readable receipts, the index is empty. |
| Migration.LiabilityFile.MigrateLocked | wrasse/liabilities.py:103-173 | Rename, copy, count and drop, or the file exactly as it was. |
| Migration.MigrationLosesNothing | wrasse/liabilities.py:103-173 | A success keeps every current row and delivers every old row with its deal id; repeating it changes nothing. |
| Migration.AMigratedRowIsFiled | wrasse/liabilities.py:141-157 | Each old row arrives under the session of an old row for its deal, with no hash. |
| Migration.MigratesIff | wrasse/liabilities.py:133-166 | Exactly when a migration succeeds. |
| Migration.ALeftoverBesideOthersIsRefused | wrasse/liabilities.py:159-166 | A leftover table beside a migrated row it does not name is refused on every open. |
| Migration.NoOpenerLosesARow | wrasse/liabilities.py:85-173 | However openers interleave with stale preflights, nothing recorded is lost and nobody uses an unmigrated file. |

## Left out

- Exact reals stand for Python's 28-digit `Decimal`, so a rounding of the 29th digit is not modelled.
- Hashes, signatures and commitments are the values they cover, which is to say injective; key handling, encoding and byte-level decoding are not part of this model.
- Addresses are values rather than spellings, and receipts in the engine carry one opaque `story` for every field but id and outcome.
- EvidenceStore.WrasseStore.Recall: returns the evidence by id rather than in the order of sorted ids.
- EvidenceStore.WrasseStore.RepairIndex: visits receipts in any order, and rows with no readable body do not occur.
- LockOrder.NeverDeadlocks: one process takes each lock once; the reentrant depth counter of a store is not modelled.
- Negotiation.WorseProviderFaresWorse: says nothing of the service window, which moves the way the profile's buffer points.
- Ledger.TransactionLedger.RecordSigned: fees, calldata, timestamps and the stored preimage are part of the opaque payload or left out.
- LedgerRuns.NoRunOpensAGap: the signer signs for its own wallet and the nonce it names, and the chain has only bytes some process set out to send; no resend falls inside a first send, or the release finds one attempt.
- Attempts.NumbersAreContiguous: every record follows a lookup of its number somewhere earlier in the run, as the commands do.
- Resolver.VerdictsAreFinal: each node gives one view for one call, and confirmation is by the safe head; the rehearsal policy that counts blocks is left out.
- FreeWallet.FreeableIff: waiting rows have no deadline, since one past its deadline is never resent; in each turn the nodes show one chain, and the wallet's own bytes reach it only from its rows.
- TxResolve.ResolveRow: the pass over all rows is one row at a time, and its mark, send and answer run uninterrupted; writes by others in between are moves of `LedgerRuns` and `GroundedRuns`; the report text is left out, and a node that names another hash for the bytes is not modelled.
- WorkQueue.Queue.Work: the callback run after each turn is left out; the steps it takes for a refund are those of `RefundProtocol`.
- RefundProtocol.RefundSafety: a submission is atomic; a thread that fails to start after its run was queued is left out, as is the deployment-wide run ceiling.
- SessionRegistry.Sessions.Evict: whether a session is busy is a parameter, fixed while the registry holds its lock.
- SessionRegistry.Sessions.Land: copying databases and closing evicted stores is left out.
- Liabilities.NoDepositIsLost: a creation's inclusion is final, as the status sets of wrasse/executor.py treat it, and intents are never reused.
- Reclaim.RunReclaim: collecting credits with `withdraw`, waiting out deadlines and step reporting are left out; a recovery action either is included or stops the reclaim.
- Migration.NoOpenerLosesARow: only openers of this build run; an older build creating its table beside them is left out, and so are `discard` and `close`, which remove rows on purpose.
- SQLite, the memory SDK and file locks are single atomic writes; write-ahead files and database copying are left out.
- RPC transport, retries and their timing; a failed read is an answer the model can give.
- JSON parsing, key sets and string formats of documents; a document is a typed record.
- The Solidity contract, beyond its states and the edges its actions take (wrasse/escrow.py:266-276).
- Learning dimensions from a language model; they are inputs within the bounds the code enforces.
- Routes, pages, the simulator, the deletion proof, the command line and wall-clock liveness.
