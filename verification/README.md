# Accountable relay: a verified model

The repository's accountable relay is a smart contract on which staked relays
post device records and Merkle-committed batches, challengers open bonded
disputes, and a staked verifier committee attests. This project models that
contract (`smart-contracts/contracts/AccountableRelay.sol`), the DID registry it
reads (`smart-contracts/contracts/DIDRegistry.sol`) and the two off-chain helpers
that mirror it (`smart-contracts/scripts/accountable-gas-report.js`), and proves
what they promise in every state any run reaches.

## How it is organised

- `AccountableRelay.dfy` is the contract in its own form: a class with the
  contract's storage, its loops and its internal functions. Each method is proved
  to take exactly the step that `Protocol.dfy` specifies; `Mine` and `Execute`
  carry this to any call by any sender, re-entrant calls inside a withdrawal
  included.
- `Protocol.dfy` is the transition system: one function per external call, plus
  `Step`, `Exec` and `Run`. A failed checked subtraction is the explicit outcome
  `Revert(Panic)`, proved unreachable.
- `Invariants.dfy` states what always holds; `DisputeSteps.dfy` and
  `Preservation.dfy` prove that every step keeps it; `History.dfy`, `Locks.dfy`,
  `Payments.dfy`, `Verdicts.dfy`, `Exits.dfy`, `Liveness.dfy` and `Theorems.dfy` derive
  the results; `StakeEffects.dfy`, `Submissions.dfy` and `DisputeEffects.dfy` say of each
  call when it is taken or refused, all it moves, and who answers for it;
  `Scenarios.dfy` holds concrete runs on which a documented promise fails.
- `Merkle.dfy`, `Treasury.dfy`, `Committee.dfy`, `Docket.dfy`/`DocketFacts.dfy` and
  `Exposure.dfy`/`ExposureFacts.dfy` hold the parts.

## Modelling decisions

- Hashing is ideal: a 32-byte word is an arbitrary word, the digest of a byte
  string, of a bound leaf, or of two words, and these never collide. The chain id
  and contract address in a leaf preimage are constants of the deployment.
- A signature enters an attestation as the signer recovered from it, or none.
- Block time is an input that never runs backwards and is positive at deployment.
- `resolved` is kept as how the dispute was resolved; the amounts ever credited,
  withdrawn and retained, and the leaves a batch's events publish, are kept as
  history. None of them influences any branch.
- Nothing is assumed of the deployment parameters; in particular the quorum may be 0.
  The DID registry may be in use already, as long as its documents carry positive
  registration times, which its own code ensures.
- During a withdrawal the payee may make any further calls, nested to any depth,
  and may then refuse the transfer; a refused transfer undoes everything.

## Where code and documentation differ

- The comments at `AccountableRelay.sol:854` and `accountable-gas-report.js:57` speak
  of promoted odd nodes; the code hashes an odd last node with itself.
- `README.md:185` says every "valid" attestation stays slashable until
  finalization. An attestation is registered only when its dispute is resolved by a
  verdict, so until then its author may leave. `Scenarios.OpenVoteMayLeave` is such a
  run with the reference deployment's periods and amounts: the verifier announces its
  exit while clean, and three days later votes, deregisters and unstakes in the block
  of the dispute. `Exits.VerifierExits` says exactly when leaving is possible.
- The constructor accepts quorum 0, and then the first vote, whichever way, proves
  fraud: `Theorems.NoQuorumMeansFraud` in general, `Scenarios.OneValidVoteProvesFraud`
  as a run. A verdict carries its quorum exactly when the quorum is positive
  (`Theorems.QuorumMetIffPositive`).
- A slash collects no more than the two stake pools hold, so it may take less than
  the configured amount. Disputes may be opened after a document's challenge window
  as long as nobody has finalized it.

## Model

| member | source | states |
|---|---|---|
| Merkle.AcceptedIffCommitted | smart-contracts/contracts/AccountableRelay.sol:843-888 | For a proof of any length: folding a bound leaf up to the root succeeds exactly when the leaf is the one committed at that index and the proof is the one proof of that index, of length the tree depth |
| Merkle.FoldInjective | smart-contracts/contracts/AccountableRelay.sol:871-888 | A proof of tree-depth length that recomputes the root pins both the node and every proof element |
| Merkle.RootInjective | smart-contracts/contracts/AccountableRelay.sol:856-869 | The contract-built root commits to the whole leaf list: equal roots of equal-length lists mean equal lists |
| Merkle.ProofOfFolds | smart-contracts/scripts/accountable-gas-report.js:58-79 | Completeness: the proof of each position, odd levels included, recomputes the root |
| Merkle.BuildTree | smart-contracts/contracts/AccountableRelay.sol:856-869 | The in-place, level-overwriting loop returns the recursively defined root of the original leaves (an odd last node paired with itself) |
| Merkle.VerifyProof | smart-contracts/contracts/AccountableRelay.sol:871-888 | The index-driven loop accepts exactly when the recursive fold equals the root |
| Merkle.BuildTreeWithProofs | smart-contracts/scripts/accountable-gas-report.js:58-79 | The independent off-chain builder yields the same root for every non-empty list, and for each position the one proof the contract accepts there |
| Merkle.NextLevel | smart-contracts/scripts/accountable-gas-report.js:63-69 | The pushing loop produces exactly the next level of the tree |
| Merkle.PushSiblings | smart-contracts/scripts/accountable-gas-report.js:70-75 | One pass keeps every partial proof completable to the proof of its own leaf while positions move up in place |
| DidRegistry.DIDRegistry.RegisterDID | smart-contracts/contracts/DIDRegistry.sol:39-54 | Write-once registration: succeeds exactly for an unregistered DID with an 897-byte key, else reverts with the right error and no change |
| DidRegistry.DIDRegistry.DeactivateDID | smart-contracts/contracts/DIDRegistry.sol:60-67 | Owner-only deactivation flips the flag and nothing else |
| DidRegistry.DIDRegistry.GetPublicKey | smart-contracts/contracts/DIDRegistry.sol:75-79 | Gives the stored key exactly for a registered, active DID |
| DidRegistry.DIDRegistry.Active | smart-contracts/contracts/DIDRegistry.sol:86-88 | True exactly for a registered, active DID |
| DidRegistry.Registers | smart-contracts/contracts/DIDRegistry.sol:39-54 | A registration is taken exactly for a new DID with an 897-byte key, makes the sender the owner of an active document, and touches no other; each refusal has its exact condition |
| DidRegistry.Deactivates | smart-contracts/contracts/DIDRegistry.sol:60-67 | A deactivation is taken exactly from the owner of an active document, switches that document off and touches no other; each refusal has its exact condition |
| Submissions.IdentityCalls | smart-contracts/contracts/DIDRegistry.sol:39-67 | In the joint state a registry call follows the registry's rules at the block's time and changes nothing of the contract |
| Preservation.DidSteps | smart-contracts/contracts/DIDRegistry.sol:39-67 | No registry call ever changes the key or owner of a registered DID or reactivates one, and every document stays dated |
| Theorems.KeySnapshotsHold | smart-contracts/contracts/AccountableRelay.sol:346-362 | Over any run from any valid state each record keeps its DID, nonce and key hash, and the hash is that of the key still on file, deactivation or not |
| Treasury.Collect | smart-contracts/contracts/AccountableRelay.sol:679-705 | What is collected is min(amount, both pools together), and is exactly what the pools lose |
| Treasury.CollectConserves | smart-contracts/contracts/AccountableRelay.sol:679-705 | Collecting moves money out of the pools only: liabilities fall by exactly the deduction |
| Treasury.SlashAllTakes | smart-contracts/contracts/AccountableRelay.sol:566-570 | Slashing a duplicate-free list takes from each member once min(slash, its pools), verifier pool first, and nothing from anyone else |
| Treasury.SlashAllConserves | smart-contracts/contracts/AccountableRelay.sol:566-570 | The slashing loop, for any list, leaves total liabilities unchanged |
| Treasury.CreditAllPays | smart-contracts/contracts/AccountableRelay.sol:665-671 | Each member of a duplicate-free list gets exactly one share |
| Treasury.PayConserves | smart-contracts/contracts/AccountableRelay.sol:665-671 | Attesters are paid the total less an exactly known remainder |
| Verdicts.SlashAllCredits | smart-contracts/contracts/AccountableRelay.sol:566-570 | The slashing loop credits the challenger, and only it, with the sum of min(slash, pools) judged before the first slash |
| Verdicts.CollectedIs | smart-contracts/contracts/AccountableRelay.sol:572-578 | The relay loses min(relay slash, its pools before the verdict), whatever the wrong-side loop did |
| Money.FraudConserves | smart-contracts/contracts/AccountableRelay.sol:565-583 | Balance unchanged; bond and slashes reappear as credits plus retained dust |
| Money.SpuriousConserves | smart-contracts/contracts/AccountableRelay.sol:610-611 | The whole bond is credited except a remainder below the number of valid attesters |
| Money.ExpiryConserves | smart-contracts/contracts/AccountableRelay.sol:521-529 | Half the bond is claimable, exactly the other half rounded up is retained |
| Money.PaidOutMoney | smart-contracts/contracts/AccountableRelay.sol:728-733 | A claim never exceeds the balance; clearing and paying it keeps the books exact |
| Verdicts.WrongSide | smart-contracts/contracts/AccountableRelay.sol:558-568 | The list slashed at a fraud verdict is duplicate-free, equals the valid attesters over all disputes ever opened on the target, and never holds its relay |
| Verdicts.FraudVerdict | smart-contracts/contracts/AccountableRelay.sol:552-583 | The whole fraud verdict, account by account: every loss, every credit, the total, the dust bound, the target terminal and its exposures released |
| Verdicts.SpuriousVerdict | smart-contracts/contracts/AccountableRelay.sol:592-614 | The whole spurious verdict: credits account by account, no stake moves, dust bound, target undecided and disputable again with every settled valid voter on file |
| Verdicts.ExpiryVerdict | smart-contracts/contracts/AccountableRelay.sol:516-532 | The whole expiry: credits account by account, retained wei, no stake moves, target terminal and released |
| Theorems.SolvencyOk | smart-contracts/scripts/accountable-gas-report.js:46-55 | The accumulating loop computes the liabilities of the listed accounts and compares them with the balance |
| Theorems.AlwaysSolvent | smart-contracts/scripts/accountable-gas-report.js:43-55 | Strengthens that check: for every duplicate-free account list the balance covers liabilities plus all open bonds plus retained wei, with equality when the list holds all the money |
| Payments.WithdrawalPaysOnce | smart-contracts/contracts/AccountableRelay.sol:721-735 | Withdrawal succeeds exactly when the guard is free, something is owed and the payee accepts, and each refusal has its exact condition; it pays the claim once to the claimant alone, whatever re-entrant calls are made, and credited = withdrawn + pending for all |
| Payments.GuardedPaysNobody | smart-contracts/contracts/AccountableRelay.sol:221-226 | Under the guard no sequence of calls pays anything out |
| Committee.SwapAndPopRemoves | smart-contracts/contracts/AccountableRelay.sol:315-321 | Swap-and-pop removes exactly one occurrence, as a multiset |
| Committee.DischargeRemoves | smart-contracts/contracts/AccountableRelay.sol:310-324 | Deregistration removes exactly the leaver; array, flags and counter stay in agreement and the counter never underflows |
| ExposureFacts.RegisterAllKeeps | smart-contracts/contracts/AccountableRelay.sol:635-641 | Filing voters keeps lists duplicate-free and counters equal to recomputation, and adds exactly those voters to a live file |
| ExposureFacts.ReleaseKeeps | smart-contracts/contracts/AccountableRelay.sol:649-655 | Releasing never underflows, clears exactly one list and keeps the counters exact |
| ExposureFacts.ReleaseLeavesKeeps | smart-contracts/contracts/AccountableRelay.sol:421-424 | The batch release loop never underflows and clears exactly the listed leaves |
| Theorems.ExposureRecomputed | smart-contracts/contracts/AccountableRelay.sol:179-188 | A verifier's live-exposure counter equals the number of undecided targets with a settled valid vote of it, recomputed from the disputes |
| Theorems.BatchFinalized | smart-contracts/contracts/AccountableRelay.sol:415-427 | After finalization no verifier carries exposure from the batch, its counter fell by exactly its exposures there, the revocation count is exact and every leaf is terminal |
| DocketFacts.AdmitStates | smart-contracts/contracts/AccountableRelay.sol:432-464 | Opening a dispute keeps document states equal to the verdict history, and keeps all earlier disputes on the target spurious |
| DocketFacts.SettleStates | smart-contracts/contracts/AccountableRelay.sol:592-626 | So does every verdict |
| DocketFacts.SettleRelayCounts | smart-contracts/contracts/AccountableRelay.sol:628-629 | A relay's open-dispute counter stays the number of open disputes naming it |
| DocketFacts.SettleBatchCounts | smart-contracts/contracts/AccountableRelay.sol:628-633 | A batch's open-dispute counter stays the number of open disputes on its leaves, however many run in parallel |
| DocketFacts.JudgeRevokedCounts | smart-contracts/contracts/AccountableRelay.sol:616-626 | The revoked-leaf counter stays the number of revoked leaves |
| DocketFacts.OpenBondsSettle | smart-contracts/contracts/AccountableRelay.sol:466-478 | Settling or changing one dispute changes the bonds held by exactly that bond |
| Preservation.BatchNonces | smart-contracts/contracts/AccountableRelay.sol:394-396 | Each prefix of a batch spends the next nonce of each leaf's DID, repeats in one batch included, with no gap and no reuse |
| Preservation.BatchSubmitted | smart-contracts/contracts/AccountableRelay.sol:382-413 | What a batch submission adds: one bound leaf per DID at its own nonce, committed by the root |
| Theorems.NonceSpentOnce | smart-contracts/contracts/AccountableRelay.sol:346 | For every DID the nonces spent over records and leaves together are exactly 1..didNonce, each in exactly one place |
| Theorems.OnlySubmittedTuples | smart-contracts/contracts/AccountableRelay.sol:382-464 | From submission to challenge: after any later run a dispute on leaf i is admitted exactly when the bond suffices, the leaf is disputable, and the challenger presents the DID, nonce, data hash and signature hash submitted at position i with the one proof of that position |
| Theorems.SubmittedRecordKept | smart-contracts/contracts/AccountableRelay.sol:346-362 | A submitted record is kept as submitted, under its nonce and the key then on file, through any later run; only its state changes |
| Submissions.RecordTaken | smart-contracts/contracts/AccountableRelay.sol:333-365 | A record is taken exactly from a relay with the full stake, for an active DID, with a signature of 1 to 752 bytes; each refusal has its exact condition; it adds one record and one nonce and nothing else moves |
| Submissions.BatchTaken | smart-contracts/contracts/AccountableRelay.sol:382-396 | A batch is taken exactly from a relay with the full stake, non-empty, with one data hash and 752 bytes per DID, all active; each refusal has its exact condition |
| Submissions.BatchAdds | smart-contracts/contracts/AccountableRelay.sol:382-413 | A batch adds one batch and one nonce per leaf, repeats counted, and nothing else moves |
| Submissions.SubmittedBatchKept | smart-contracts/contracts/AccountableRelay.sol:400-410 | A batch is kept through any later run with the relay that sent it, its time, its data, its length and the root of exactly the submitted tuples |
| Submissions.RecordAttributed | smart-contracts/contracts/AccountableRelay.sol:485-614 | After any later run the submitter of a record answers for every dispute on it: it cannot vote on it nor leave while it is open, a fraud verdict takes min(relay slash, its pools) from it, a spurious one credits it with half the bond rounded up |
| Submissions.LeafAttributed | smart-contracts/contracts/AccountableRelay.sol:485-614 | The same for every leaf of a submitted batch |
| Theorems.LeavesDistinct | smart-contracts/contracts/AccountableRelay.sol:843-851 | All leaf preimages of all batches are pairwise distinct |
| Theorems.LeafDisputeNeedsCommittedLeaf | smart-contracts/contracts/AccountableRelay.sol:441-464 | A leaf dispute is admitted exactly when the bond suffices, the leaf is disputable, and the committed tuple is presented with its one proof |
| DisputeSteps.AdmitKeeps | smart-contracts/contracts/AccountableRelay.sol:432-478 | Opening a dispute keeps the whole invariant |
| DisputeEffects.RecordDisputeTaken | smart-contracts/contracts/AccountableRelay.sol:432-439 | A record dispute is taken exactly with the full bond on an existing provisional record; it receives the whole bond, names its challenger, puts that record alone under dispute and moves no pool or claim; each refusal has its exact condition |
| DisputeEffects.LeafDisputeTaken | smart-contracts/contracts/AccountableRelay.sol:441-464 | The refusals of a leaf dispute in the order they are raised, and the same effect for the leaf |
| DisputeEffects.AttestationEffect | smart-contracts/contracts/AccountableRelay.sol:485-508 | A successful vote joins exactly its own side of its own dispute, whose verdict follows from the two lengths and the quorum; an undecided vote moves nothing else, a verdict moves only the documents' one target besides money and counters |
| DisputeEffects.AttestationProvesFraud | smart-contracts/contracts/AccountableRelay.sol:503-583 | When an attestation decides fraud, every account's loss and credit, from the state before the call |
| DisputeEffects.AttestationRefused | smart-contracts/contracts/AccountableRelay.sol:485-494 | The exact condition of each refusal of an attestation |
| DisputeEffects.ExpiryEffect | smart-contracts/contracts/AccountableRelay.sol:516-524 | An expiry settles its dispute alone as expired and revokes its target alone; each refusal has its exact condition |
| DisputeEffects.RecordFinalized | smart-contracts/contracts/AccountableRelay.sol:370-377 | Finalizing a record confirms it alone and takes exactly one exposure from each verifier that stood up for it in a settled dispute; each refusal has its exact condition |
| DisputeEffects.BatchConfirmed | smart-contracts/contracts/AccountableRelay.sol:415-427 | Finalizing a batch confirms it alone and moves no money; each refusal has its exact condition |
| DisputeSteps.VoteKeeps | smart-contracts/contracts/AccountableRelay.sol:495-501 | Recording a vote keeps everything but the vote counts, which the following verdict restores |
| DisputeSteps.FiledList | smart-contracts/contracts/AccountableRelay.sol:560-564 | After filing, the target's list is exactly the valid voters of its settled disputes and of this one |
| DisputeSteps.FraudKeeps | smart-contracts/contracts/AccountableRelay.sol:552-583 | A fraud verdict always goes through and keeps the invariant |
| DisputeSteps.SpuriousKeeps | smart-contracts/contracts/AccountableRelay.sol:592-614 | A spurious verdict always goes through and keeps the invariant |
| DisputeSteps.ExpiryKeeps | smart-contracts/contracts/AccountableRelay.sol:516-532 | An expiry's counter decrements never fail and it keeps the invariant |
| Preservation.AttestationKeeps | smart-contracts/contracts/AccountableRelay.sol:485-508 | An attestation, with the verdict it may trigger, never panics and keeps the invariant |
| Preservation.SubmitAccountableKeeps | smart-contracts/contracts/AccountableRelay.sol:333-365 | A record submission keeps the invariant |
| Preservation.SubmitBatchKeeps | smart-contracts/contracts/AccountableRelay.sol:382-413 | A batch submission keeps the invariant |
| Preservation.FinalizeRecordKeeps | smart-contracts/contracts/AccountableRelay.sol:370-377 | Record finalization never panics and keeps the invariant |
| Preservation.FinalizeBatchKeeps | smart-contracts/contracts/AccountableRelay.sol:415-427 | Batch finalization never panics and keeps the invariant |
| Preservation.DeregisterKeeps | smart-contracts/contracts/AccountableRelay.sol:310-324 | Deregistration never panics and keeps the invariant |
| Preservation.UnstakeRelayKeeps | smart-contracts/contracts/AccountableRelay.sol:266-275 | Unstaking a relay keeps the invariant |
| Preservation.UnstakeVerifierKeeps | smart-contracts/contracts/AccountableRelay.sol:294-304 | Unstaking a verifier keeps the invariant |
| Preservation.StakeVerifierKeeps | smart-contracts/contracts/AccountableRelay.sol:277-286 | Staking a verifier, enrolment included, keeps the invariant |
| Preservation.PaysOutSafely | smart-contracts/contracts/AccountableRelay.sol:728-733 | At the external call of a withdrawal the balance covers the claim and the whole invariant already holds |
| Preservation.StepKeeps | smart-contracts/contracts/AccountableRelay.sol:254-735 | Every call, a withdrawal with all its re-entrant calls included, keeps the invariant, and no call ever fails on a counter or stake subtraction |
| Preservation.RunKeeps | smart-contracts/contracts/AccountableRelay.sol:254-735 | So does every timely run |
| Preservation.ReachableInv | smart-contracts/contracts/AccountableRelay.sol:231-249 | Every state reached from a deployment satisfies the invariant with the guard free |
| History.RunLater | smart-contracts/contracts/AccountableRelay.sol:432-735 | Over any run: Confirmed and Revoked are absorbing, leaves of a confirmed batch are frozen, settled disputes never change, retained wei and nonces never fall, keys never change |
| History.TerminalForGood | smart-contracts/contracts/AccountableRelay.sol:649-655 | A terminal target stays terminal, nobody is ever listed on it again, and no dispute is ever opened on it again |
| Theorems.RecordOutcome | smart-contracts/contracts/AccountableRelay.sol:370-377 | A record's state tells its history: Confirmed means the full window passed and every dispute was spurious; Revoked means exactly the last dispute ended in fraud or expiry; Disputed means exactly one dispute is open |
| Theorems.LeafOutcome | smart-contracts/contracts/AccountableRelay.sol:441-464 | The same for each batch leaf |
| Theorems.BallotWellFounded | smart-contracts/contracts/AccountableRelay.sol:485-508 | Per dispute: no double vote, disjoint sides, no vote of the target's relay, flags agree with lists, and with a positive quorum exact vote counts per verdict |
| Theorems.QuorumMetIffPositive | smart-contracts/contracts/AccountableRelay.sol:503-507 | A fraud or spurious verdict carries exactly its quorum, and less on the other side, if and only if the configured quorum is positive |
| Theorems.NoQuorumMeansFraud | smart-contracts/contracts/AccountableRelay.sol:503-507 | With quorum 0 the first attestation, either way, decides fraud on that vote alone and revokes the target |
| Scenarios.OneValidVoteProvesFraud | smart-contracts/contracts/AccountableRelay.sol:231-249 | A concrete run of a deployment with quorum 0: one vote, saying valid, ends the dispute as fraud and revokes the record |
| Scenarios.OpenVoteMayLeave | smart-contracts/contracts/AccountableRelay.sol:288-324 | A concrete run in the reference amounts, for every quorum above one: a verifier votes valid, deregisters and unstakes in the block of the still open dispute |
| Theorems.AttestationEnabled | smart-contracts/contracts/AccountableRelay.sol:485-508 | Attesting succeeds exactly up to the deadline and exactly for the entitled signers |
| Theorems.ExpiryEnabled | smart-contracts/contracts/AccountableRelay.sol:516-532 | Expiry succeeds exactly for an open dispute past its deadline, outside the guard: it never gets stuck |
| Theorems.FinalizationEnabled | smart-contracts/contracts/AccountableRelay.sol:370-427 | Finalization succeeds exactly for provisional documents past their window, batches only without open leaf disputes |
| Locks.PlainStepLocked | smart-contracts/contracts/AccountableRelay.sol:254-532 | One call: an exposed verifier keeps its seat, its stake and a disputed relay's stake fall only by a fraud verdict against them, and other stakes only by a due, announced exit |
| Locks.VisitedRunChained | smart-contracts/contracts/AccountableRelay.sol:221-735 | All states a run visits, the ones inside re-entrant withdrawals included, are linked by such steps and end in the run's final state |
| Locks.StakeLock | smart-contracts/contracts/AccountableRelay.sol:266-324 | Over a run: while exposed a verifier keeps its seat and its stake falls only through a fraud verdict against it; likewise the stake of a relay under dispute |
| Locks.NoticePeriod | smart-contracts/contracts/AccountableRelay.sol:260-304 | Nobody leaves unannounced: with no exit pending, a stake can fall within the next three days only through a fraud verdict against its owner |
| StakeEffects.RelayStakes | smart-contracts/contracts/AccountableRelay.sol:254-258 | A deposit adds exactly the value sent to the sender's own pool and to the balance, and nothing else moves |
| StakeEffects.VerifierStakes | smart-contracts/contracts/AccountableRelay.sol:277-286 | The same for a verifier; it is seated exactly if it was already or now holds the full verifier stake, and nobody else is |
| StakeEffects.RelayAnnounces | smart-contracts/contracts/AccountableRelay.sol:260-264 | An announcement dates the exit 259200 seconds ahead for the announcer alone; each refusal has its exact condition |
| StakeEffects.VerifierAnnounces | smart-contracts/contracts/AccountableRelay.sol:288-292 | The same for a verifier |
| StakeEffects.RelayUnstakes | smart-contracts/contracts/AccountableRelay.sol:266-275 | An exit moves exactly the leaver's whole pool to its claims, uses up its announcement, and nothing else moves |
| StakeEffects.RelayUnstakeRefused | smart-contracts/contracts/AccountableRelay.sol:266-270 | The exact condition of each refusal of a relay exit |
| StakeEffects.VerifierUnstakes | smart-contracts/contracts/AccountableRelay.sol:294-304 | The same effect for a verifier |
| StakeEffects.VerifierUnstakeRefused | smart-contracts/contracts/AccountableRelay.sol:294-299 | The exact condition of each refusal of a verifier exit |
| StakeEffects.VerifierDeregisters | smart-contracts/contracts/AccountableRelay.sol:310-324 | Leaving the roster removes exactly the leaver and nothing else moves; each refusal has its exact condition |
| StakeEffects.ExitNeedsNotice | smart-contracts/contracts/AccountableRelay.sol:260-304 | With no exit pending, no run of less than three days ends in a state where the exit succeeds |
| StakeEffects.OneExitPerNotice | smart-contracts/contracts/AccountableRelay.sol:266-275 | After a relay exit, whatever is staked again, no further exit of that relay succeeds for three days |
| StakeEffects.OneVerifierExitPerNotice | smart-contracts/contracts/AccountableRelay.sol:294-304 | The same for verifiers |
| Locks.NobodyPoorer | smart-contracts/contracts/AccountableRelay.sol:254-735 | Over a run of any length an account's stakes, claims and past payouts together never fall unless a fraud verdict goes against it; a stake that exits a pool turns up among its owner's credits |
| Liveness.FallsQuiet | smart-contracts/contracts/AccountableRelay.sol:370-427 | From every reachable state permitted calls (expiries and finalizations, which anyone may make, and exits by their owners) lead to a state with every dispute settled and every target decided, at nobody's cost |
| Liveness.NothingLockedForever | smart-contracts/contracts/AccountableRelay.sol:254-735 | From every reachable state a timely run of expiries, finalizations and the owners' own exits and withdrawals pays every account everything it held and leaves the contract with exactly the wei it retains |
| Exits.VerifierExits | smart-contracts/contracts/AccountableRelay.sol:288-324 | A verifier's three exits are open exactly when no undecided target carries a settled valid vote of it (and the exit's own conditions hold) |
| Exits.RelayExits | smart-contracts/contracts/AccountableRelay.sol:260-275 | A relay's exits are open exactly when no open dispute names it (and the exit's own conditions hold) |
| Exits.SettledVoteHolds | smart-contracts/contracts/AccountableRelay.sol:179-184 | A settled valid vote on an undecided target closes all three exits |
| Contract.AccountableRelay.constructor | smart-contracts/contracts/AccountableRelay.sol:231-249 | Deployment beside any registry, in use or not, starts in the initial state, which satisfies the invariant |
| Contract.AccountableRelay.StakeRelay | smart-contracts/contracts/AccountableRelay.sol:254-258 | Takes exactly the specified step or reverts with the right error and no change |
| Contract.AccountableRelay.AnnounceUnstake | smart-contracts/contracts/AccountableRelay.sol:260-264 | Takes exactly the specified step or reverts with the right error and no change |
| Contract.AccountableRelay.UnstakeRelay | smart-contracts/contracts/AccountableRelay.sol:266-275 | Takes exactly the specified step or reverts with the right error and no change |
| Contract.AccountableRelay.StakeVerifier | smart-contracts/contracts/AccountableRelay.sol:277-286 | Takes exactly the specified step or reverts with the right error and no change |
| Contract.AccountableRelay.AnnounceVerifierUnstake | smart-contracts/contracts/AccountableRelay.sol:288-292 | Takes exactly the specified step or reverts with the right error and no change |
| Contract.AccountableRelay.UnstakeVerifier | smart-contracts/contracts/AccountableRelay.sol:294-304 | Takes exactly the specified step or reverts with the right error and no change |
| Contract.AccountableRelay.LeaveRoster | smart-contracts/contracts/AccountableRelay.sol:313-322 | The search and swap-and-pop loop equals the specified discharge |
| Contract.AccountableRelay.DeregisterVerifier | smart-contracts/contracts/AccountableRelay.sol:310-324 | Takes exactly the specified step or reverts with the right error and no change |
| Contract.AccountableRelay.SubmitAccountable | smart-contracts/contracts/AccountableRelay.sol:333-365 | Takes exactly the specified step or reverts with the right error and no change |
| Contract.AccountableRelay.ProcessLeaf | smart-contracts/contracts/AccountableRelay.sol:824-837 | One leaf gets its DID's next nonce and its bound hash, in place |
| Contract.AccountableRelay.ProcessLeaves | smart-contracts/contracts/AccountableRelay.sol:392-396 | The loop yields all bound leaves and nonces, or nothing at all when some DID is inactive |
| Contract.AccountableRelay.SubmitBatch | smart-contracts/contracts/AccountableRelay.sol:382-413 | Takes exactly the specified step or reverts with the right error and no change |
| Contract.AccountableRelay.ReleaseExposures | smart-contracts/contracts/AccountableRelay.sol:649-655 | The decrement loop and the deletion equal the specified release |
| Contract.AccountableRelay.FinalizeRecord | smart-contracts/contracts/AccountableRelay.sol:370-377 | Takes exactly the specified step or reverts with the right error and no change |
| Contract.AccountableRelay.ConfirmBatch | smart-contracts/contracts/AccountableRelay.sol:420-425 | The release loop over the remembered leaves equals the specified release of them all |
| Contract.AccountableRelay.FinalizeBatch | smart-contracts/contracts/AccountableRelay.sol:415-427 | Takes exactly the specified step or reverts with the right error and no change |
| Contract.AccountableRelay.OpenDispute | smart-contracts/contracts/AccountableRelay.sol:432-439 | Takes exactly the specified step or reverts with the right error and no change |
| Contract.AccountableRelay.OpenBatchLeafDispute | smart-contracts/contracts/AccountableRelay.sol:441-464 | Takes exactly the specified step or reverts with the right error and no change, the Merkle check included |
| Contract.AccountableRelay.RegisterValidAtt | smart-contracts/contracts/AccountableRelay.sol:635-641 | A first registration on the key is listed, flagged and counted; a repeated one changes nothing |
| Contract.AccountableRelay.RememberExposedLeaf | smart-contracts/contracts/AccountableRelay.sol:657-663 | The linear search adds the leaf exactly when it is missing |
| Contract.AccountableRelay.CollectFromPool | smart-contracts/contracts/AccountableRelay.sol:679-705 | The two-pool deduction equals the specified collection |
| Contract.AccountableRelay.SlashFromPool | smart-contracts/contracts/AccountableRelay.sol:711-716 | One slash, from either pool first, credits exactly what was deducted |
| Contract.AccountableRelay.SlashWrongSide | smart-contracts/contracts/AccountableRelay.sol:567-569 | The slashing loop equals the specified fold over the list |
| Contract.AccountableRelay.PayShares | smart-contracts/contracts/AccountableRelay.sol:665-671 | The payment loop equals the specified equal shares |
| Contract.AccountableRelay.CreditTo | smart-contracts/contracts/AccountableRelay.sol:721-723 | Credits the ledger exactly when the amount is positive |
| Contract.AccountableRelay.RevokeTarget | smart-contracts/contracts/AccountableRelay.sol:616-626 | Revokes the target; a leaf's counter rises only the first time |
| Contract.AccountableRelay.CloseDispute | smart-contracts/contracts/AccountableRelay.sol:628-633 | Takes the open-dispute counters of the target down by one |
| Contract.AccountableRelay.ResolveFraud | smart-contracts/contracts/AccountableRelay.sol:552-583 | From any valid state completes exactly the specified fraud verdict |
| Contract.AccountableRelay.ResolveSpurious | smart-contracts/contracts/AccountableRelay.sol:592-614 | From any valid state completes exactly the specified spurious verdict |
| Contract.AccountableRelay.SubmitAttestation | smart-contracts/contracts/AccountableRelay.sol:485-508 | Takes exactly the specified step or reverts with the right error and no change, the triggered verdict included |
| Contract.AccountableRelay.ExpireDispute | smart-contracts/contracts/AccountableRelay.sol:516-532 | Takes exactly the specified step or reverts with the right error and no change |
| Contract.AccountableRelay.Withdraw | smart-contracts/contracts/AccountableRelay.sol:728-735 | Takes exactly the specified step or reverts with the right error and no change, with any re-entrant calls run under the guard; keeps the invariant |
| Contract.AccountableRelay.Execute | smart-contracts/contracts/AccountableRelay.sol:221-226 | Any call by anyone takes the specified step and keeps the invariant |
| Contract.AccountableRelay.Mine | smart-contracts/contracts/AccountableRelay.sol:254-735 | A call mined at a later time moves the object exactly as the transition system moves its state, so every result about runs holds of the object |

## Left out

- Signature recovery and the signed digests (`AccountableRelay.sol:490-491`, `798-822`): the recovered signer is an input, so authenticity of votes is not stated.
- Falcon verification, the Python services, gateways, benchmarks, deployment scripts and plots: foreign calls, I/O and measurement.
- `MetaTxRelay.sol` and `ECDSAVerify.sol`: one check each, with no state machine.
- View getters, gas, and events other than the published leaves: they decide nothing.
- 256-bit overflow and the 64-bit truncation of block times: numbers are unbounded naturals; the balance bounds every money amount.
- Ether forced into the contract outside its payable functions: it would only add to the balance.
- Return values of the submitting and opening calls (an index, a root): the new state determines them.
- Reverting calls inside a withdrawal's transfer appear as calls without effect; how the payee reacts to their errors is covered by all call sequences being allowed.
- Honesty of the committee and economic incentives: not decided by this code.
- Contract.AccountableRelay.CloseDispute: the relay is passed in, where the source looks it up again.
