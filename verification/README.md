# Verified model of the A2A coordination extension

A Dafny model of the five parts of the repository that carry its guarantees, with the properties proved for
all inputs and all runs. `dafny verify dfyconfig.toml` checks the whole project.

- **The agreement and the live seller** (`Agreement`, `Extension`, `Live`, `LiveSafety`, `LiveSteps`, `LiveLog`,
  `LiveHistory`, `LiveTheorems`, `LiveDuties`, `LiveWitness`). `fixed_outcome/v1` is a state machine with actor
  binding, revisions and idempotent commands. The seller is a step system beside it: each coroutine of
  `LiveCoordinator` is a thread cut at its awaits, the Runtime answers requests one by one and moves on its own,
  replies are lost or arrive arbitrarily late, notifications repeat, deadlines fire, records are reclaimed. The
  theorems are invariants of every run, of one deal and, through `EachDealRuns`, of every run over many deals.
- **The seller's stores** (`Stores`, `StoreRuns`, `StoreOutcomes`, `StoreTheorems`, `StoreService`,
  `StoreFormation`, `DataSellers`). A class updates the three linked maps in place, with its pruning loops; each
  method equals an operation on values, what an operation answers and changes is stated without its body, and the
  invariants are proved over every sequence of operations.
- **The proof chain** (`ProofChain`, `ProofRuns`). Length-prefixed fields are uniquely decodable, the proof-hash
  preimage is injective, a capture is accepted exactly when its links are one history, an accepted chain is pinned by
  its newest hash, and every run of the agreement leaves an acceptable record.
- **The data engine** (`Places`, `Pricing`, `Canonical`, `Commitments`, `Allocation`, `Csv`, `Synth`,
  `Deliverable`, `Delivery`). Query, price, statistics, the canonical encoder and the two commitments, row
  allocation, generation, the CSV writer and its reader, delivery and the buyer's verification of it.
- **Settlement encodings and the runtime binding** (`Settlement`, `TypedData`, `Binding`). Decimal money, 32-byte
  words, type strings, field words and digests of EIP-712 ("Definition of encodeData"), anchor equality; the
  registration and polling loop behind the signing gate.

`Sorting` and `Decimal` hold the shared functions.

## Assumptions

- SHA-256 and keccak are collision-free functions; where only commitment matters a digest is the value it
  commits to. A signature is its signer and its message.
- A request is handled before its reply is lost, or never. Random identifiers are new when drawn. The Runtime
  always names the terms of a deal.
- Only this seller, in this process, uses its key: every `delivered`, `appealed` and `refund_consented` the Runtime
  sees comes from it. A second user of the key is not modelled.
- Numbers of the engine are reals, counts are integers, text is a sequence of UTF-16 code units, addresses are
  in their lower-case spelling, and FIPS codes compare by code unit.
- A query's strings are code-unit sequences and its thresholds are the members of one object.
- In the live model a reclaimable record may disappear at any moment, which covers every pruning order; the
  exact pruning is in `Stores`.

## Where the code and its documentation part

- **Late countersignatures.** `countersign` acts on a status read before two awaits. A continuation that runs
  after the Runtime has left formation resets a record that has moved on, and the next observation of an older
  state makes that record reclaimable although it holds a token. Exactly that decides what is served, in every run:
  the committed delivery is served unless such a record was reclaimed and no token minted since
  (`CommittedIsServed`, failing run `CommittedDeliveryLost`). Reading COMMITTED in a retry and resuming after funding
  is such a continuation and by itself harmless. Refunds and watchers are not touched by it: an applied refund
  closes every token for good (`RefundRevokesForGood`) and every token that serves anything is watched
  (`TokensAreWatched`), late countersignatures included. Both rest on `rejectionResponse` consenting only at the
  revision at which it read REJECTED, although the agreement accepts a consent from FULFILLING on
  (`RefundsFollowDelivery`).
- **Observing is not revoking.** The delivery's own probe, a command's reply and a rejection's read enter CANCELLED
  in the record; only the watcher and the admin pages revoke. Until one of them has read the refund and gone on,
  the file is still served: in `ObservedRefundServes` the delivery commits and its reply is lost, the buyer rejects
  and is refunded, and the probe sees it first. Then nothing is served (`RefreshCloses`), and meanwhile somebody
  watches the token or is about to (`RefundIsPending`).
- **States, not transitions.** A capture is accepted when its states join up; whether each step is a transition of
  the agreement is not looked at (`RecordAcceptedIff`).
- **The proof's identifier.** `proofId` is a member of a link, but neither the proof hash nor any check of a capture
  reads it: it is not pinned (`ProofIdIsFree`).
- **The verified buyer.** `coSignFunding` compares the Activation's buyer with the stored record, which need not
  have been countersigned: `UnverifiedBuyerCoSigned` is a run in which nobody verified it. The record had been
  countersigned before the signature exactly when its state was not PROPOSED_LOCAL, which the code does not check;
  then the buyer is verified (`ActivationsAreAccepted`).
- **Anchor equality.** `bytes32Equal` is byte equality on spellings with one prefix. A doubled prefix
  (`sha256:0x…`) denotes 32 bytes for `wordBytes32` and is equal to nothing for `bytes32Equal`.
- **Criteria.** Statistics are scaled before hashing, thresholds and the minimum population are not: the
  criteria hash exists exactly when they are safe integers.
- **Mean between least and greatest.** The mean is rounded and the bounds are not. The order holds for every
  selection of a corpus exactly when every published value has at most four decimals (`SelectionsOrderedIff`).
- **Unquoted cells.** Only county names are quoted, and no line feed is escaped: a row splits back exactly when its
  unquoted cells hold neither quote nor comma, a file when besides no cell holds a line feed (`RowReadsBackIff`,
  `FileReadsBackIff`). The deliverable reads back exactly for labels and column names of that kind.
- **Buyers on acceptance.** `accept` does not compare its contract's buyer with the quote. A live countersignature
  does, by registering the same contract first.
- **Columns on verification.** `verifyDelivery` takes the columns from the manifest, not from the query. Holding
  the quoted statistics hash closes the difference.

## Main results

- Live runs: `CommittedIsServed`, `RefundRevokesForGood`, `TokensAreWatched`, `RefundsFollowDelivery`,
  `RefundIsPending` with `RefreshCloses`, `SignaturesCommitToAcceptedTerms`, `ActivationsAreAccepted`; what the seller
  does only when called for: `AnswersAreAsked`, `CommandsAreSigned`, `UnaskedIsCancelledByDeadline`,
  `NoWorkBeforeFunding`, `DeliveryGoesOn`, `PollRevokes`; behind them
  `LiveSteps.RunInv`, `LiveLog.LogRun` and `LiveHistory.ToldRun`, and the failing runs of `LiveWitness` beside them.
- Stores: `StoresAgree`, `ContractIsAdopted`, `DeliveredIsPrepared`, `AcceptOutcome`, `ServedIffPrepared`,
  `BuyersFollow`, `PruneEvictsOldest`, `InsertionsBounded`, `QueriesBounded`, and the methods of `DataSeller` that
  refine the operations.
- Agreement and proofs: `NoiseIsInvisible`, `SettledRuns`, `AtMostFiveMoves`, `EndedBy`; `PreimageInjective`,
  `HistoryPinned`, `AcceptedIsOneHistory`, `RunsAreAccepted` with `AlteredRunIsRefused`, `AcceptanceReads`.
- Engine: `EncodingIsIdentity`, `StatsHashPins`, `CriteriaHashPins`, `AllocationFair`,
  `AllocationFollowsReordering`, `GeneratedRow`, `FileHoldsPeople`, `DeliverableReadsBackIff`, `GenerateOutcome`,
  `VerifiedFile`, `GeneratedVerifies`, `QuotePinsColumns`.
- Settlement and binding: `StructDigestPins`, `SaysFieldByField`, `StructAmountsMeet`,
  `UsdcAcceptsExactlySpellings`, `PriceRoundTrip`, `WordUint`, `AnchorEqualityIsByteEquality`, `Maintain`,
  `RegistrationsExactly`, `RegistersOnce`.

## Model

| member | source | states |
|---|---|---|
| Agreement.NoiseIsInvisible | conformance/transitions.json:213-259 | inserting identical replays, divergent replays and stale commands anywhere in a run changes neither state, revision, history nor chain |
| Agreement.Redelivery | conformance/transitions.json:228-243 | an applied command redelivered at any later point is answered as the first time and leaves the rest of the run as it was |
| Agreement.AnswersAreTrue | conformance/transitions.json:213-259 | in every run a refusal changes nothing, and an application, replayed ones included, names the revision at which just this input moved the agreement, one above the expected one, and the state it led to |
| Agreement.PathCounts | conformance/transitions.json:32-121 | on every legal path the state alone says how often the agreement was funded and delivered |
| Agreement.FundedBeforeDelivered | conformance/transitions.json:33-52 | a delivery stands behind exactly one confirmed funding and no other delivery |
| Agreement.SettledRuns | conformance/transitions.json:32-135 | in every run at most one delivery commits, and ACCEPTED or RESOLVED follows one funding and one delivery by the seller |
| Agreement.EndedBy | conformance/transitions.json:32-121 | every finished agreement was finished by someone entitled to that end: accepted by the buyer or its silence, resolved by the arbiter, cancelled by the seller's consent or a lapsed deadline, defaulted by a missed delivery, expired unfunded |
| Agreement.RunConsistent | conformance/transitions.json:186-259 | every run keeps a legal chain of the length of the revision and only grows it |
| Agreement.RunMoves | conformance/transitions.json:32-121 | every state change uses up one of the moves its state has left |
| Agreement.AtMostFiveMoves | conformance/transitions.json:32-135 | from COMMITTED at most five state changes ever happen and a terminal state is never left |
| Agreement.TerminalStays | conformance/transitions.json:122-135 | settlement observations after the end change no state |
| Agreement.FiveMovesHappen | conformance/transitions.json:33-114 | the bound of five is reached |
| Extension.AcceptedContract | examples/data-seller-agent/src/extension.ts:152-340 | what a countersigned contract guarantees: payout, seller, pinned document, price, card, both parties' signatures over one terms hash and one Agreement |
| Extension.PassesIff | examples/data-seller-agent/src/extension.ts:152-340 | a proposal is countersigned exactly for this seller's own terms, price and document, the pinned card with chain and vault, and the two signatures of the buyer alone |
| Extension.CountersignedOnce | examples/data-seller-agent/src/extension.ts:290-340 | a countersigned contract is never countersigned again |
| Extension.SomeProposalPasses | examples/data-seller-agent/src/extension.ts:152-340 | for every seller, deal, list price and buyer some proposal is countersigned |
| LiveTheorems.CommittedIsServed | examples/data-seller-agent/src/live.ts:261-422 | in every run at most one `delivered` commits; without an applied refund the current token serves exactly the committed manifest and the bytes it names, and no other token anything, if and only if no record holding a token was reclaimed without a token minted since; otherwise nothing is served; reclaiming one takes a late countersign |
| LiveTheorems.ServedIff | examples/data-seller-agent/src/seller.ts:905-919 | in every run something can be downloaded exactly when the record holds a token and no refund was applied |
| LiveTheorems.TokensAreWatched | examples/data-seller-agent/src/live.ts:370-448 | in every run a token that serves anything is watched, was watched to an outcome that keeps it, or stands at the step that starts its watcher |
| LiveTheorems.OneTaskEach | examples/data-seller-agent/src/live.ts:286-327 | repeated notifications and retries never make a second delivery task or watcher for a deal |
| LiveTheorems.RefundRevokesForGood | examples/data-seller-agent/src/live.ts:454-469 | in every run, once a refund was applied nothing is served under any token ever after, late countersignatures included |
| LiveTheorems.RefundsFollowDelivery | examples/data-seller-agent/src/live.ts:490-552 | in every run the Runtime is cancelled, or resolved for the whole refund, only after a committed delivery, because this seller consents to a refund only where it read REJECTED |
| LiveTheorems.RefundIsPending | examples/data-seller-agent/src/live.ts:430-448 | a refund the Runtime decided and nobody applied is pending: the token is watched or about to be |
| LiveTheorems.RefreshCloses | examples/data-seller-agent/src/live.ts:460-469 | once a refresh that read the refund goes on, nothing is served |
| LiveTheorems.OutcomesAreTheRuntimes | examples/data-seller-agent/src/live.ts:460-469 | access is revoked only when the Runtime is cancelled or resolved at zero basis points to the seller, and kept only in another final state |
| LiveTheorems.SignaturesCommitToAcceptedTerms | examples/data-seller-agent/src/live.ts:75-251 | every signature ever emitted is over the terms of a contract that passed acceptance for this deal |
| LiveTheorems.ActivationsAreAccepted | examples/data-seller-agent/src/live.ts:146-251 | a co-signed Activation was read with the buyer's wallet and a domain, and carries the accepted terms, payout, amount and seller; its record had been countersigned before exactly when it was not merely proposed, and then the buyer is verified |
| LiveTheorems.RememberedTermsAgree | examples/data-seller-agent/src/live.ts:123-128 | the remembered terms are the recorded contract's whenever both exist |
| LiveTheorems.EachDealRuns | examples/data-seller-agent/src/live.ts:75-144 | in a run over many deals each deal sees a run of its own |
| LiveDuties.AgreementsAreRequested | examples/data-seller-agent/src/live.ts:75-144 | an Agreement is signed only for a request that came in, for exactly its contract, buyer and signature, on the chain of the card read |
| LiveDuties.SignaturesAreCalledFor | examples/data-seller-agent/src/live.ts:75-552 | every signature was made at a revision at which the Runtime stood in the state that calls for it |
| LiveDuties.CommandsAreSigned | examples/data-seller-agent/src/live.ts:378-411 | every command of the seller the Runtime applied was signed before: that kind, terms, delivery hash and revision |
| LiveDuties.AnswersAreAsked | examples/data-seller-agent/src/live.ts:482-552 | in every run an appeal or a refund consent is signed, sent or applied only where that very answer was asked for |
| LiveDuties.UnaskedIsCancelledByDeadline | examples/data-seller-agent/src/live.ts:482-488 | a run in which nobody asked for a refund consent is cancelled by a deadline only |
| LiveDuties.AnswerReachesRuntime | examples/data-seller-agent/src/live.ts:490-552 | asked on a rejection and left undisturbed, an appeal leads to DISPUTED and a consent to CANCELLED, under one signature of that kind |
| LiveDuties.NoWorkBeforeFunding | examples/data-seller-agent/src/live.ts:340-411 | in every run a delivery task, a token or a signature over a delivery stands behind exactly one funding |
| LiveDuties.NoDeliveryUngated | examples/data-seller-agent/src/live.ts:258-369 | and a token or such a signature behind a notification of these terms, an open signing gate and a status with anchors |
| LiveDuties.DeliveryGoesOn | examples/data-seller-agent/src/live.ts:298-327 | in every run a delivery task ends only with the reply to its own command, on a final refusal, after its deadline, where the Runtime was read out of FULFILLING, or if its command's id had been used; every other loss or refusal leaves it going |
| LiveDuties.PollRevokes | examples/data-seller-agent/src/live.ts:430-469 | in every run a sleeping watcher that wakes, reads a refund and goes on takes access away |
| LiveDuties.RecordsShowWhatWas | examples/data-seller-agent/src/seller.ts:380-398 | the Runtime state a record shows was the Runtime's at some revision |
| LiveSteps.RunInv | examples/data-seller-agent/src/live.ts:75-552 | every run keeps the invariant of record, threads, guard sets, signatures, committed delivery and revocation |
| LiveSteps.NextInv | examples/data-seller-agent/src/live.ts:75-552 | every step, of the seller, of the Runtime, or a loss, keeps it |
| LiveSteps.DeliverMintInv | examples/data-seller-agent/src/seller.ts:774-861 | generation finishing on the held record, also a replaced one, keeps it |
| LiveSteps.DeliverySubmitted | examples/data-seller-agent/src/live.ts:397-411 | the delivery command committing at the Runtime keeps it |
| LiveSteps.CsAcceptInv | examples/data-seller-agent/src/live.ts:108-144 | registering, countersigning and submitting or reconciling keep it |
| LiveSteps.SettledInv | examples/data-seller-agent/src/live.ts:460-469 | applying an outcome keeps it |
| LiveLog.LogRun | examples/data-seller-agent/src/live.ts:75-552 | over every run the signature log tells of the record, and of every Activation signed, whether the record had been countersigned before |
| LiveHistory.NextFramed | examples/data-seller-agent/src/live.ts:75-552 | every step changes of the record's artifact, the watcher and the Runtime no more than its effect allows |
| LiveHistory.ToldRun | examples/data-seller-agent/src/live.ts:261-469 | over every run: what is held, that an applied refund took it away, who watches it, that outcomes are the Runtime's, and whether a delivered record was lost |
| LiveWitness.ObservedRefundServes | examples/data-seller-agent/src/live.ts:314-317 | a run, without a late countersignature, in which a committed delivery was refunded, the record already says CANCELLED and the file is served |
| LiveWitness.CommittedDeliveryLost | examples/data-seller-agent/src/live.ts:83-123 | a run in which a committed delivery is served by no token, with no refund |
| LiveWitness.UnverifiedBuyerCoSigned | examples/data-seller-agent/src/live.ts:197-204 | a run in which the Activation's buyer was verified by nobody |
| StoreTheorems.StoresAgree | examples/data-seller-agent/src/seller.ts:206-269 | after any sequence of operations the three stores agree and every history is the tail of its log |
| StoreTheorems.DealRestsOnItsQuote | examples/data-seller-agent/src/seller.ts:553-626 | each deal's negotiation has a live quote with its terms hash, lists the deal, and is AGREEMENT_STARTED; its history is the last 512 entries made and its runtime states the observed changes |
| StoreRuns.NextAgrees | examples/data-seller-agent/src/seller.ts:404-691 | every operation, also one that throws half-way, keeps the stores agreeing |
| StoreOutcomes.AcceptOutcome | examples/data-seller-agent/src/seller.ts:715-766 | an acceptance goes through exactly for a known deal and a contract that passed and names the quoted terms; it then adopts that contract, and a refused one is entered as refused and changes nothing else |
| StoreOutcomes.PrepareOutcome | examples/data-seller-agent/src/seller.ts:774-829 | a delivery is prepared exactly for an accepted deal with something to deliver, and sets token, artifact and state together |
| StoreOutcomes.RevokeOutcome | examples/data-seller-agent/src/seller.ts:922-934 | a first revocation is entered and set, every other changes nothing |
| StoreOutcomes.ObserveOutcome | examples/data-seller-agent/src/seller.ts:380-398 | a reading is noted on a known deal, and entered exactly when the state changed |
| StoreOutcomes.InteractOutcome | examples/data-seller-agent/src/seller.ts:363-377 | any other exchange adds its entry, stamped and numbered, and nothing else |
| StoreOutcomes.ProposeOutcome | examples/data-seller-agent/src/seller.ts:587-626 | a proposal opens a deal exactly for the terms and buyer of a live quote, linked to its negotiation, and otherwise only prunes |
| StoreOutcomes.RegisterOutcome | examples/data-seller-agent/src/seller.ts:638-691 | a registration goes through exactly for such a contract and no other deal under that id, and opens a deal at most once |
| StoreOutcomes.AskOutcome | examples/data-seller-agent/src/seller.ts:404-535 | a valid query opens a negotiation, quoted exactly when priced; deals stay, and other negotiations stay as they are or go |
| StoreFormation.ContractIsAdopted | examples/data-seller-agent/src/seller.ts:715-766 | over every sequence of operations a deal stands beyond its proposal under a contract exactly when an acceptance of it passed, named the quoted terms and adopted that contract, and since then it was neither removed nor accepted anew |
| StoreFormation.DeliveredIsPrepared | examples/data-seller-agent/src/seller.ts:774-829 | a deal counts as delivered exactly when a delivery was prepared for it after acceptance and since then it was neither removed nor accepted anew |
| StoreFormation.AcceptedTermsArePinned | examples/data-seller-agent/src/seller.ts:715-766 | a deal beyond its proposal holds a contract that names its quoted terms |
| StoreTheorems.NextTold | examples/data-seller-agent/src/seller.ts:344-398 | every operation keeps each history the trimmed log with increasing numbers and collapsed runtime states |
| StoreTheorems.AcceptKeepsBuyersIff | examples/data-seller-agent/src/seller.ts:715-766 | acceptance keeps contracts naming the quoted buyers exactly when it fails or its contract names the quoted buyer |
| StoreTheorems.BuyersFollow | examples/data-seller-agent/src/seller.ts:553-572 | when every acceptance brings the quoted buyer, every stored contract names it after any run |
| StoreTheorems.CountersignKnowsBuyer | examples/data-seller-agent/src/live.ts:117-123 | a live countersignature brings the buyer its registration just checked |
| StoreRuns.PruneSafe | examples/data-seller-agent/src/seller.ts:232-269 | a prune removes only deals not delivered and never last seen past formation |
| StoreTheorems.NothingPaidForIsLost | examples/data-seller-agent/src/seller.ts:226-269 | no operation loses a deal that was delivered or last seen past formation, nor takes back its revocation |
| StoreRuns.PruneEvictsOldest | examples/data-seller-agent/src/seller.ts:250-269 | of the deals not delivered and not seen past formation, those untouched for over 15 minutes go and of the rest exactly the youngest 1023 stay; every other deal stays |
| StoreRuns.FreshInOrder | examples/data-seller-agent/src/seller.ts:252-260 | the unexpired reclaimable deals are taken in insertion order |
| StoreTheorems.InsertionsBounded | examples/data-seller-agent/src/seller.ts:263-268 | after each insertion at most 1024 reclaimable deals remain |
| StoreTheorems.QueriesBounded | examples/data-seller-agent/src/seller.ts:211-224 | after each query negotiations number at most 1024 or one more than the deals, and the new one is kept |
| StoreRuns.EvictOldestFirst | examples/data-seller-agent/src/seller.ts:218-223 | of two negotiations nothing needs, the younger never goes first |
| StoreTheorems.RevocationKept | examples/data-seller-agent/src/seller.ts:905-934 | a revoked deal past formation serves nothing under any token, also after a later delivery |
| StoreService.ServedIffPrepared | examples/data-seller-agent/src/seller.ts:774-934 | over every sequence of operations a token opens an artifact exactly when it was prepared under that token for an unrevoked deal and the deal was since neither prepared, revoked nor removed |
| StoreService.PreparedIsServed | examples/data-seller-agent/src/seller.ts:774-919 | a prepared delivery is served under its own token alone unless revoked, and is out of every prune's reach |
| StoreService.RevokedServesNothing | examples/data-seller-agent/src/seller.ts:905-934 | after a revocation no token serves the deal and revoking again changes nothing |
| StoreService.ServiceKept | examples/data-seller-agent/src/seller.ts:206-269 | whatever does not prepare, revoke or remove a deal leaves its downloads as they are |
| DataSellers.DataSeller.PruneDeals | examples/data-seller-agent/src/seller.ts:250-269 | the two deleting passes leave exactly the specified store |
| DataSellers.DataSeller.PruneNegotiations | examples/data-seller-agent/src/seller.ts:211-224 | the deleting loop evicts exactly the specified negotiations |
| DataSellers.DataSeller.RecordInteraction | examples/data-seller-agent/src/seller.ts:363-377 | the entry gets the next number, joins the history and pushes out what exceeds the cap |
| DataSellers.DataSeller.ObserveRuntimeStatus | examples/data-seller-agent/src/seller.ts:380-398 | the state is noted and entered only when it changed; the stores stay valid |
| DataSellers.DataSeller.AnswerQuery | examples/data-seller-agent/src/seller.ts:404-535 | a query opens a negotiation, with a quote when it is priced, and evicts; the stores stay valid |
| DataSellers.DataSeller.ProposeDeal | examples/data-seller-agent/src/seller.ts:587-626 | prune, select the quote, insert, link, enter twice; the stores stay valid on every exit |
| DataSellers.DataSeller.RegisterLiveDeal | examples/data-seller-agent/src/seller.ts:638-691 | as above for the Runtime's deal id; a matching retry changes nothing, another fails |
| DataSellers.DataSeller.AcceptDeal | examples/data-seller-agent/src/seller.ts:715-766 | answers true exactly for a known deal and a contract that passed and names the quoted terms; then contract and state change, else neither; the stores stay valid on every exit |
| DataSellers.DataSeller.PrepareDelivery | examples/data-seller-agent/src/seller.ts:774-829 | token, artifact and state change together and only for an accepted deal; the stores stay valid |
| DataSellers.DataSeller.RevokeCapability | examples/data-seller-agent/src/seller.ts:922-934 | revocation is entered once; the stores stay valid |
| DataSellers.DataSeller.Artifact | examples/data-seller-agent/src/seller.ts:905-919 | something is returned exactly for the stored token of an unrevoked deal, and then it is that deal's artifact |
| ProofChain.FieldsInjective | conformance/run.py:145-150 | a stream of length-prefixed fields decodes in one way only |
| ProofChain.ReadsFields | conformance/run.py:145-150 | a reader recovers every field from the stream |
| ProofChain.FeedProof | conformance/run.py:160-183 | the hasher is fed exactly the preimage, whatever order the metadata is stored in |
| ProofChain.KeysInOrder | conformance/run.py:173-173 | the metadata keys are the sorted ones |
| ProofChain.PreimageInjective | conformance/run.py:160-183 | two links have one preimage exactly when their content agrees, an absent member counting as empty |
| ProofChain.ServingOrderIrrelevant | conformance/run.py:523-601 | the verdict does not depend on the order in which links are served |
| ProofChain.ChainsAgree | conformance/run.py:538-562 | in accepted chains one shared proof hash forces one position and one history before it |
| ProofChain.HistoryPinned | conformance/run.py:523-601 | two accepted captures end in one proof hash exactly when they agree, link for link, on everything proof hashes cover (all members but `proofId`, `proofHash`, `signature` and `signedBy`, absent and empty identified) |
| ProofChain.NoAlteration | conformance/run.py:558-562 | nothing a proof hash covers can be altered in an accepted capture under the same hash |
| ProofChain.AcceptanceReads | conformance/run.py:523-601 | every other change keeps the capture accepted: the identifier, another signature that verifies, an empty member for an absent one where no check looks |
| ProofChain.ProofIdIsFree | conformance/run.py:160-183 | any capture stays accepted under any other `proofId` |
| ProofRuns.HashedInOrder | conformance/run.py:160-183 | a reader of the preimage finds the twelve members in their frozen order, the counted metadata by ascending key, the counted references and the time |
| ProofRuns.AcceptedIsOneHistory | conformance/run.py:523-601 | a capture is accepted exactly when its links, in any order, are soundly hashed and signed, of one agreement, numbered from one without a gap, and each takes up the state and the hash of the one before |
| ProofRuns.RecordAcceptedIff | conformance/run.py:538-601 | a properly hashed and signed record of moves is accepted exactly when its states join up |
| ProofRuns.RunsAreAccepted | conformance/run.py:523-601 | the record of every run of the agreement is accepted |
| ProofRuns.AlteredRunIsRefused | conformance/run.py:538-546 | with the state before any later move replaced, hashed and signed anew, it is refused |
| Canonical.ReadsBody | examples/data-seller-agent/src/engine/hash.ts:24-25 | a reader recovers every string from its JSON quoting, surrogates and control characters included |
| Canonical.ReadsValue | examples/data-seller-agent/src/engine/hash.ts:20-65 | a decoder recovers every printed value and the text after it |
| Canonical.EncodePrintsCanon | examples/data-seller-agent/src/engine/hash.ts:20-65 | the encoder accepts exactly the supported values and prints their canonical form |
| Canonical.DecodeEncode | examples/data-seller-agent/src/engine/hash.ts:20-65 | decoding an encoding gives the value with sorted members and without undefined ones |
| Canonical.EncodingIsIdentity | examples/data-seller-agent/src/engine/hash.ts:20-65 | two values encode alike exactly when they are the same up to member order and undefined members, or are both refused |
| Places.EvaluateQuery | examples/data-seller-agent/src/engine/places.ts:438-485 | the slice in corpus order, and each queried state some purchased measure is suppressed in, once |
| Places.Survives | examples/data-seller-agent/src/engine/places.ts:445-466 | the filters with their early exits decide the inclusion rule |
| Places.StricterSelectsLess | examples/data-seller-agent/src/engine/places.ts:438-485 | narrowing any filter selects no tract more |
| Places.OwnFactsMatch | examples/data-seller-agent/src/engine/places.ts:438-485 | every bound is inclusive: a tract matches the query of its own facts, and no tract that differs from it does |
| Places.AggregateMatched | examples/data-seller-agent/src/engine/places.ts:569-600 | the accumulating loops compute the totals and one figure per distinct column |
| Places.SlicePermutation | examples/data-seller-agent/src/engine/places.ts:438-485 | reordering the corpus reorders the slice |
| Places.StatsForPermutation | examples/data-seller-agent/src/engine/places.ts:577-599 | each measure's figures depend on the tracts as a bag |
| Places.PerMeasureFacts | examples/data-seller-agent/src/engine/places.ts:577-599 | exactly one figure per column asked for |
| Places.FiguresOrdered | examples/data-seller-agent/src/engine/places.ts:583-599 | least, median, mean and greatest are ordered unless rounding takes a bound outwards, which it does to no figure of at most four decimals; the exact condition over a corpus is `SelectionsOrderedIff` |
| Places.SelectionsOrderedIff | examples/data-seller-agent/src/engine/places.ts:577-599 | for every selection of the tracts that publishes a value the figures are ordered, if and only if every published value has at most four decimals |
| Places.FiguresMeaning | examples/data-seller-agent/src/engine/places.ts:577-599 | least and greatest are published values bounding all, the mean is the average to half a unit of the fourth decimal, the median lies between the middle two |
| Places.SingleFigure | examples/data-seller-agent/src/engine/places.ts:590-592 | a single value bounds its rounded mean exactly when it has at most four decimals |
| Commitments.StatsHashIgnoresOrder | examples/data-seller-agent/src/engine/places.ts:638-684 | the statistics hash depends on the bag of tracts and the set of columns only |
| Commitments.QuoteIgnoresCorpusOrder | examples/data-seller-agent/src/engine/places.ts:438-485 | a query on a reordered corpus commits to the same statistics |
| Commitments.StatsHashPins | examples/data-seller-agent/src/engine/places.ts:654-684 | the scaled hash identifies the statistics exactly when figures have at most four decimals |
| Commitments.StatsHashPinsColumns | examples/data-seller-agent/src/engine/places.ts:654-684 | over one slice two column lists share a statistics hash exactly when they name the same columns, whatever the figures |
| Commitments.DerivedFiguresOnGrid | examples/data-seller-agent/src/engine/places.ts:585-597 | every figure derived from published values has at most four decimals |
| Commitments.CriteriaHashable | examples/data-seller-agent/src/engine/places.ts:642-653 | the criteria hash exists exactly when every number of the query is a safe integer |
| Commitments.CriteriaHashPins | examples/data-seller-agent/src/engine/places.ts:642-653 | the criteria hash is unchanged by reordering and shared by no other criteria |
| Pricing.PriceQuery | examples/data-seller-agent/src/engine/places.ts:508-550 | refused exactly when a column is not sold; each distinct measure charged once by tier, tracts and vintage rounded to the nearest cent; the spelled price converts back to the minor units listed |
| Pricing.PriceMonotone | examples/data-seller-agent/src/engine/places.ts:519-550 | relisting measures keeps the price and a wider order never costs less |
| Allocation.AllocateRows | examples/data-seller-agent/src/engine/synth.ts:179-206 | the round-robin over the array gives each tract floor, rounds and at most one more by rank, with the same refusals |
| Allocation.AllocateOutcome | examples/data-seller-agent/src/engine/synth.ts:170-195 | rows are granted exactly for a floor of at least one that the total covers, up to 999,999 rows |
| Allocation.AllocationFair | examples/data-seller-agent/src/engine/synth.ts:170-206 | the rows sum to the total, every tract gets the floor, shares differ by at most one, larger tracts never get less |
| Allocation.AllocationFollowsReordering | examples/data-seller-agent/src/engine/synth.ts:196-204 | with distinct FIPS the allocation follows any reordering of the slice |
| Synth.PickTract | examples/data-seller-agent/src/engine/synth.ts:132-149 | the binary search finds the first tract whose cumulative weight exceeds the target |
| Synth.PickedShare | examples/data-seller-agent/src/engine/synth.ts:113-149 | a draw picks a tract exactly when it falls into the tract's share of the adult population |
| Synth.PickAgeBand | examples/data-seller-agent/src/engine/synth.ts:151-159 | the loop picks the band of the draw |
| Synth.AgeBandShare | examples/data-seller-agent/src/engine/synth.ts:30-36 | a draw is of a band exactly when it falls into the band's stretch, and the stretches fill the unit interval |
| Synth.GenerateSyntheticPeople | examples/data-seller-agent/src/engine/synth.ts:223-276 | the loops produce row by row the specified people, with the same refusals |
| Synth.PeopleOutcome | examples/data-seller-agent/src/engine/synth.ts:223-245 | people are generated exactly for a slice that is not empty and a row count within bounds that covers the floor |
| Synth.GeneratedRow | examples/data-seller-agent/src/engine/synth.ts:246-272 | every row is a row of one of the slice's tracts, the drawn one without a floor: its labels, the age of its draw, and each flag set in exactly the published percentage of its draws |
| Synth.FloorKept | examples/data-seller-agent/src/engine/synth.ts:240-245 | a promised floor gives every tract at least that many of exactly `rowCount` rows |
| Synth.ColumnsDoNotShift | examples/data-seller-agent/src/engine/synth.ts:8-16 | buying other columns, in another order, moves no other value of any row |
| Synth.DealingKeepsAges | examples/data-seller-agent/src/engine/synth.ts:234-252 | allocating tracts instead of drawing them changes no row's age or id |
| Synth.DefiniteFlags | examples/data-seller-agent/src/engine/synth.ts:161-164 | impossible and certain prevalences give 0 and 1, and a row of 65 or older is never counted uninsured |
| Synth.RowIdsSort | examples/data-seller-agent/src/engine/synth.ts:264-265 | row ids are distinct and sort as text the way rows are numbered |
| Synth.RowIdsStopSorting | examples/data-seller-agent/src/engine/synth.ts:166-167 | one row beyond the limit they no longer do |
| Csv.SplitCsvLine | examples/data-seller-agent/src/engine/places.ts:122-143 | the loop computes the split |
| Csv.RowReadsBackIff | examples/data-seller-agent/src/engine/synth.ts:297-312 | splitting a written row recovers its fields exactly when no unquoted cell holds a quote or a comma; in quoted cells both survive (RFC 4180 section 2) |
| Csv.FileReadsBackIff | examples/data-seller-agent/src/engine/synth.ts:297-314 | a written file reads back row by row exactly when besides no cell holds a line feed |
| Deliverable.SerializeCsv | examples/data-seller-agent/src/engine/synth.ts:297-314 | the writer produces the file of the header and the rows; for clean labels it reads back as the people, cell by cell |
| Deliverable.FileHoldsPeople | examples/data-seller-agent/src/engine/synth.ts:278-314 | read back, row by row: identifier, FIPS, county, state and age band, under each bought column the person's own flag or 0, and the mark at the end |
| Deliverable.DeliverableReadsBackIff | examples/data-seller-agent/src/engine/synth.ts:278-314 | reading the deliverable recovers the header and every field of every row, if and only if column names and labels other than the county hold no quote, comma or line feed and counties no line feed |
| Deliverable.DeliveredDensity | examples/data-seller-agent/src/engine/deliver.ts:145-260 | a file generated under a floor reads as its rows exactly when all its tracts' labels and the column names are of that kind, and then as `rowCount` rows with at least the floor for every tract's FIPS |
| Delivery.GenerateDelivery | examples/data-seller-agent/src/engine/deliver.ts:145-273 | delivery as specified, refused when nothing matches, the slice changed, or the file is not calibrated |
| Delivery.GenerateOutcome | examples/data-seller-agent/src/engine/deliver.ts:145-273 | a delivery is made exactly for a slice that is not empty, hashes as quoted, fits the rows, and whose file is calibrated; its manifest then states deal, columns, hashes, algorithm, row count and density truly |
| Delivery.VerifyDelivery | examples/data-seller-agent/src/engine/deliver.ts:286-345 | the verdict and its list of problems as specified |
| Delivery.VerifiedIff | examples/data-seller-agent/src/engine/deliver.ts:286-345 | ok exactly when the bytes are the regeneration and the manifest's claims hold |
| Delivery.VerifiedFile | examples/data-seller-agent/src/engine/deliver.ts:278-345 | a verified file is the regeneration, whatever the labels; it reads as the regenerated rows exactly for such labels, and then has `rowCount` rows with at least `rowsPerTract` for every matched tract |
| Delivery.OneFileVerifies | examples/data-seller-agent/src/engine/deliver.ts:286-345 | at most one file verifies under a manifest |
| Delivery.GeneratedVerifies | examples/data-seller-agent/src/engine/deliver.ts:145-345 | whatever is generated verifies with no problem on the same corpus and query |
| Delivery.VerdictReadsOnlyTheSlice | examples/data-seller-agent/src/engine/deliver.ts:294-318 | the verdict reads the query only through the slice it selects |
| Delivery.QuotePinsColumns | examples/data-seller-agent/src/engine/deliver.ts:329-339 | a verified manifest repeats the statistics hash of the query's own columns exactly when its columns are the query's |
| Delivery.SeedsDiffer | examples/data-seller-agent/src/engine/deliver.ts:126-135 | under one secret every deal has its own seed |
| Settlement.UsdcReadsSpelling | examples/data-seller-agent/src/settlement.ts:91-97 | every decimal spelling is read as its amount in base units |
| Settlement.UsdcAcceptsExactlySpellings | examples/data-seller-agent/src/settlement.ts:91-97 | nothing else is read |
| Settlement.TrailingZeros | examples/data-seller-agent/src/settlement.ts:91-97 | trailing fractional zeros never matter |
| Settlement.PriceRoundTrip | examples/data-seller-agent/src/seller.ts:506-506 | printing a list price in cents and parsing it gives cents times 10^4 |
| Settlement.WordUint | examples/data-seller-agent/src/settlement.ts:47-58 | the word decodes back to the number; refused exactly when negative or from 2^256 on |
| TypedData.AmountWord | examples/data-seller-agent/src/settlement.ts:141-153 | the amount word of a struct holds its base units, read as `BigInt` reads them; negatives and overflow are refused |
| TypedData.AmountsMeet | examples/data-seller-agent/src/settlement.ts:141-153 | Agreement and Activation carry one amount word exactly when the price is that many base units |
| TypedData.IntegerPriceIsDollars | examples/data-seller-agent/src/settlement.ts:141-153 | the struct, not the spelling, decides the unit of an integer amount |
| TypedData.TypeStringParses | examples/data-seller-agent/src/settlement.ts:120-127 | a type string parses to the fields it lists |
| TypedData.StructDigestPins | examples/data-seller-agent/src/settlement.ts:137-183 | for every type string two signable structs share a digest exactly when domain, type string and every field's value agree, whatever the spelling |
| TypedData.SaysFieldByField | examples/data-seller-agent/src/settlement.ts:129-160 | a written type string makes a struct say exactly, field by field, what the field's name and type call for: the hash of `agreementId`, of `reasonCode` for `reasonHash`, of `decisionId`, base units for `amount`, an address, 32 bytes or a number |
| TypedData.AmountFollowsStruct | examples/data-seller-agent/src/settlement.ts:141-153 | an Activation's amount is the integer it spells, every other struct's the base units of its price |
| TypedData.StructAmountsMeet | examples/data-seller-agent/src/settlement.ts:141-153 | an Agreement and an Activation say one amount exactly when the price is that many base units |
| TypedData.WordReadsBack | examples/data-seller-agent/src/settlement.ts:47-66 | the word of a number or an address is 32 bytes that read back as it |
| TypedData.PrefixChooses | examples/data-seller-agent/src/settlement.ts:47-58 | a hexadecimal, octal or binary prefix, in either case, makes the digits after it the number they spell in that radix |
| TypedData.SignsAreRead | examples/data-seller-agent/src/settlement.ts:47-58 | decimals carry a sign |
| Settlement.AnchorEqualityIsByteEquality | examples/data-seller-agent/src/settlement.ts:195-206 | anchor equality is byte equality for spellings with one prefix |
| Settlement.HexReadsExactly | examples/data-seller-agent/src/signing.ts:41-47 | bytes are read exactly from their hexadecimal digits in any case, after one `0x` or none |
| Settlement.AnchorReadsExactly | examples/data-seller-agent/src/settlement.ts:61-66 | an anchor is read as 32 bytes exactly from their digits after `sha256:` or `0x`, and one more `0x`, if any |
| Settlement.DoubledPrefixDiffers | examples/data-seller-agent/src/settlement.ts:61-66 | two spellings of the same 32 bytes that anchor equality tells apart |
| Settlement.DomainPinned | examples/data-seller-agent/src/settlement.ts:101-113 | a domain separator pins the domain |
| Settlement.DigestPins | examples/data-seller-agent/src/settlement.ts:162-183 | a signing digest pins domain, type and every field word |
| Binding.RuntimeBinding.Maintain | examples/data-seller-agent/src/binding.ts:230-326 | after any stretch of turns the status is the specified one, and the gate is open exactly when the last lookup named this agent |
| Binding.AlwaysSound | examples/data-seller-agent/src/binding.ts:234-326 | the latches mean what they say, and every attempt follows only unresolved lookups |
| Binding.RegistrationsExactly | examples/data-seller-agent/src/binding.ts:230-326 | a registration is attempted in exactly the turns that found no entry, want one, and follow neither a lookup naming this agent nor a registration that returned; it succeeds exactly when the registry answers |
| Binding.StatusAfterTurn | examples/data-seller-agent/src/binding.ts:230-326 | after any turn the status is active exactly when the lookup named this agent, and pending exactly for an entry not found, no lookup ever having named this agent, unless a registration was wanted and failed |
| Binding.RegistersOnce | examples/data-seller-agent/src/binding.ts:289-309 | at most one registration succeeds, and none is attempted after it or after an active turn |

## Left out

- The live seller is a step system over values rather than a class: coroutines interleave at their awaits, which no single method call can show.
- Records handed out by the stores are values: callers that keep and change a returned record are not modelled.
- `prepareDelivery` in the stores runs in one piece; its await is modelled in the live system.
- Rejections with an evidence id never issued, deadlines and the signing gate appear as refusals that may happen at any time.
- Funding preflight on the vault's deal identity needs a chain and is not part of this model.
- `criteriaHashOf` of the product layer hashes another preimage than the engine's criteria hash; nothing is claimed between them.
- `validateQuery`, the JSON parsing of requests, sample rows, the card check and corpus loading.
- Calibration and per-tract precision are floating-point statistics; calibration is an abstract decision.
- Fractional row counts and rows per tract.
- UTF-8 encoding of texts, base64, hexadecimal rendering of digests, secp256k1, and the JSON canonicalization libraries.
- HTTP, JSON-RPC and A2A transport, pages, environment and clocks; times and draws are inputs.
- The Python seller, its settlement and signing copies, report counting and the replay of recorded vectors.
