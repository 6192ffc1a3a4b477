/** What the protocol promises, read off its invariant: every state a run
    reaches satisfies `Inv`, so each result here holds in all of them. */
module Theorems {
  import opened Common
  import opened Merkle
  import opened Docket
  import opened DocketFacts
  import opened Treasury
  import opened Committee
  import opened Exposure
  import opened ExposureFacts
  import opened Protocol
  import opened Invariants
  import opened DisputeSteps
  import opened Preservation
  import opened History
  import DR = DidRegistry

  // ---------- Solvency ----------

  /** What a list of accounts can claim or unstake. */
  function Liabilities(b: Bank, accounts: seq<Address>): nat {
    if accounts == [] then 0 else
      var a := accounts[|accounts| - 1];
      Liabilities(b, accounts[..|accounts| - 1]) + Get(b.pending, a) + Get(b.relayStake, a) + Get(b.verifierStake, a)
  }

  /** The benchmark's solvency check over a list of accounts. */
  method SolvencyOk(b: Bank, accounts: seq<Address>) returns (ok: bool, liabilities: nat)
    ensures liabilities == Liabilities(b, accounts)
    ensures ok <==> b.balance >= Liabilities(b, accounts)
  {
    liabilities := 0;
    for i := 0 to |accounts|
      invariant liabilities == Liabilities(b, accounts[..i])
    {
      assert accounts[..i + 1][..i] == accounts[..i];
      liabilities := liabilities + Get(b.pending, accounts[i]);
      liabilities := liabilities + Get(b.relayStake, accounts[i]);
      liabilities := liabilities + Get(b.verifierStake, accounts[i]);
    }
    assert accounts[..|accounts|] == accounts;
    ok := b.balance >= liabilities;
  }

  /** The part of a mapping held by listed accounts. */
  function SumOver(m: map<Address, nat>, accounts: seq<Address>): nat {
    if accounts == [] then 0 else SumOver(m, accounts[..|accounts| - 1]) + Get(m, accounts[|accounts| - 1])
  }

  lemma {:induction false} LiabilitiesSplit(b: Bank, accounts: seq<Address>)
    ensures Liabilities(b, accounts) ==
            SumOver(b.pending, accounts) + SumOver(b.relayStake, accounts) + SumOver(b.verifierStake, accounts)
    decreases |accounts|
  {
    if accounts != [] {
      LiabilitiesSplit(b, accounts[..|accounts| - 1]);
    }
  }

  /** The part of a mapping held by everybody else. */
  function Others(m: map<Address, nat>, accounts: seq<Address>): map<Address, nat> {
    map k | k in m && k !in accounts :: m[k]
  }

  lemma OthersStep(m: map<Address, nat>, front: seq<Address>, a: Address)
    requires a !in front
    ensures Sum(Others(m, front + [a])) + Get(m, a) == Sum(Others(m, front))
  {
    var rest := Others(m, front);
    if a in m {
      SumRemove(rest, a);
      assert rest - {a} == Others(m, front + [a]);
    } else {
      assert rest == Others(m, front + [a]);
    }
  }

  lemma {:induction false} SumOverWithin(m: map<Address, nat>, accounts: seq<Address>)
    requires NoDup(accounts)
    ensures SumOver(m, accounts) + Sum(Others(m, accounts)) == Sum(m)
    decreases |accounts|
  {
    hide Sum;
    if accounts == [] {
      assert Others(m, accounts) == m;
    } else {
      var front, last := accounts[..|accounts| - 1], accounts[|accounts| - 1];
      assert accounts == front + [last];
      SumOverWithin(m, front);
      OthersStep(m, front, last);
    }
  }

  /** The balance covers any duplicate-free list of accounts, with every open bond
      and all retained wei on top; if the list names every account with money, the
      surplus is exactly those two. */
  lemma AlwaysSolvent(s: State, accounts: seq<Address>)
    requires Inv(s) && NoDup(accounts)
    ensures Liabilities(s.bank, accounts) + OpenBonds(s.disputes) + s.bank.retained <= s.bank.balance
    ensures s.bank.pending.Keys + s.bank.relayStake.Keys + s.bank.verifierStake.Keys <= Elems(accounts) ==>
              Liabilities(s.bank, accounts) + OpenBonds(s.disputes) + s.bank.retained == s.bank.balance
  {
    hide RosterOk, NoncesOk, KeysOk, CaseOk, CountsOk, BallotsOk, WindowsOk, TreesOk, FilesOk, QuorumsOk, Sum,
         PaidOnce;
    LiabilitiesSplit(s.bank, accounts);
    SumOverWithin(s.bank.pending, accounts);
    SumOverWithin(s.bank.relayStake, accounts);
    SumOverWithin(s.bank.verifierStake, accounts);
    if s.bank.pending.Keys + s.bank.relayStake.Keys + s.bank.verifierStake.Keys <= Elems(accounts) {
      SumEmpty(Others(s.bank.pending, accounts));
      SumEmpty(Others(s.bank.relayStake, accounts));
      SumEmpty(Others(s.bank.verifierStake, accounts));
    }
  }

  // ---------- Exposure ----------

  /** The undecided targets on which `v` voted valid in a settled dispute: a
      recomputation of its exposure from the disputes alone. */
  ghost function LiveTargets(s: State, v: Address): set<Target> {
    set d | d in s.disputes && !d.verdict.Open? && v in d.validAttesters
            && Exists(s.docs, d.target) && !Terminal(s.docs, d.target) :: d.target
  }

  lemma ExposureRecomputed(s: State, v: Address)
    requires Inv(s)
    ensures Get(s.reg.exposures, v) == |LiveTargets(s, v)|
  {
    hide MoneyOk, RosterOk, NoncesOk, KeysOk, CaseOk, CountsOk, BallotsOk, WindowsOk, TreesOk, QuorumsOk, LeavesOk;
    forall t ensures t in Exposing(s.reg, v) <==> t in LiveTargets(s, v) {
      assert Live(s.reg, s.docs, s.disputes, t);
      assert v in ListOf(s.reg, t) <==> t in Exposing(s.reg, v);
      if t in LiveTargets(s, v) {
        var d :| d in s.disputes && !d.verdict.Open? && v in d.validAttesters
                 && Exists(s.docs, d.target) && !Terminal(s.docs, d.target) && d.target == t;
        assert v in SettledVoters(s.disputes, t);
        assert v in Elems(ListOf(s.reg, t));
      }
      if v in ListOf(s.reg, t) {
        assert v in Elems(ListOf(s.reg, t));
      }
    }
    assert Exposing(s.reg, v) == LiveTargets(s, v);
  }

  /** Targets of batch `b` on which `v` is exposed. */
  ghost function ExposedInBatch(reg: Registry, v: Address, b: nat): set<Target> {
    set t | t in Exposing(reg, v) && t.LeafTarget? && t.batch == b
  }

  /** Finalizing a batch releases every exposure from it and no other, leaves an
      exact revocation count, and makes all its leaves final. */
  lemma BatchFinalized(s: State, b: nat, v: Address)
    requires Inv(s) && FinalizeBatch(s, b).Ok?
    ensures var s' := FinalizeBatch(s, b).state;
            && ExposedInBatch(s'.reg, v, b) == {}
            && Get(s'.reg.exposures, v) == Get(s.reg.exposures, v) - |ExposedInBatch(s.reg, v, b)|
            && b < |s'.docs.batches| && s'.docs.batches[b].state.Confirmed?
            && s'.docs.batches[b].revokedLeafCount == |RevokedLeaves(s'.docs, b)| <= s'.docs.batches[b].leafCount
            && forall l: nat :: l < s'.docs.batches[b].leafCount ==> Terminal(s'.docs, LeafTarget(b, l))
  {
    hide MoneyOk, RosterOk, NoncesOk, KeysOk, CaseOk, BallotsOk, WindowsOk, TreesOk, QuorumsOk, LeavesOk, LiveOk,
         RelayCountsOk, BatchCountsOk, ReleaseLeaves, RevokedLeaves;
    FinalizeBatchKeeps(s, b);
    FinalizeBatchReleases(s, b);
    var s' := FinalizeBatch(s, b).state;
    ExposingSplit(s.reg, s'.reg, b, v);
    RevokedWithin(s'.docs, b);
  }

  lemma ExposingIs(reg: Registry, v: Address, t: Target)
    ensures t in Exposing(reg, v) <==> v in ListOf(reg, t)
  {
  }

  lemma ExposureCounted(reg: Registry, v: Address)
    requires RegistryOk(reg)
    ensures Get(reg.exposures, v) == |Exposing(reg, v)|
  {
  }

  lemma ExposingSplit(reg: Registry, reg': Registry, b: nat, v: Address)
    requires RegistryOk(reg) && RegistryOk(reg')
    requires forall u :: ListOf(reg', u) == if u.LeafTarget? && u.batch == b then [] else ListOf(reg, u)
    ensures ExposedInBatch(reg', v, b) == {}
    ensures Get(reg'.exposures, v) == Get(reg.exposures, v) - |ExposedInBatch(reg, v, b)|
  {
    hide RegistryOk, ListOf, Exposing;
    ExposureCounted(reg, v);
    ExposureCounted(reg', v);
    forall t ensures t in Exposing(reg', v) <==> t in Exposing(reg, v) && !(t.LeafTarget? && t.batch == b) {
      ExposingIs(reg, v, t);
      ExposingIs(reg', v, t);
    }
    var gone := ExposedInBatch(reg, v, b);
    assert Exposing(reg', v) == Exposing(reg, v) - gone;
    assert Exposing(reg, v) == Exposing(reg', v) + gone;
  }

  lemma {:induction false} RevokedBelow(docs: Docs, b: nat, n: nat)
    ensures |set l: nat | l < n && LeafAt(docs, b, l).LeafRevoked?| <= n
  {
    var below := set l: nat | l < n && LeafAt(docs, b, l).LeafRevoked?;
    if n == 0 {
      assert below == {};
    } else {
      RevokedBelow(docs, b, n - 1);
      var fewer := set l: nat | l < n - 1 && LeafAt(docs, b, l).LeafRevoked?;
      assert below == fewer || below == fewer + {n - 1};
    }
  }

  lemma RevokedWithin(docs: Docs, b: nat)
    requires b < |docs.batches|
    ensures |RevokedLeaves(docs, b)| <= docs.batches[b].leafCount
  {
    RevokedBelow(docs, b, docs.batches[b].leafCount);
    assert RevokedLeaves(docs, b) == set l: nat | l < docs.batches[b].leafCount && LeafAt(docs, b, l).LeafRevoked?;
  }

  // ---------- Outcomes ----------

  /** Dispute `j` is the last on its target, and every earlier one there was spurious. */
  ghost predicate LastWord(ds: seq<Dispute>, t: Target, j: nat) {
    && j < |ds| && ds[j].target == t
    && forall k :: 0 <= k < |ds| && ds[k].target == t && k != j ==> k < j && ds[k].verdict.Spurious?
  }

  ghost predicate AllDismissed(ds: seq<Dispute>, t: Target) {
    forall k :: 0 <= k < |ds| && ds[k].target == t ==> ds[k].verdict.Spurious?
  }

  /** Open disputes on one target. */
  ghost function OpenOn(ds: seq<Dispute>, t: Target): set<nat> {
    set i: nat | i < |ds| && ds[i].target == t && ds[i].verdict.Open?
  }

  /** The verdict history of a target in full. */
  lemma TargetHistory(ds: seq<Dispute>, t: Target) returns (j: int)
    requires EarlierSpurious(ds)
    ensures match LastVerdict(ds, t)
            case None => (forall k :: 0 <= k < |ds| ==> ds[k].target != t) && OpenOn(ds, t) == {}
            case Some(v) =>
              && j >= 0 && LastWord(ds, t, j) && ds[j].verdict == v
              && (v.Spurious? ==> AllDismissed(ds, t))
              && OpenOn(ds, t) == (if v.Open? then {j} else {})
  {
    j := LastVerdictIndex(ds, t);
  }

  /** A record's state tells its whole dispute history: confirmed means the full
      window passed and every dispute was spurious; revoked means exactly the last
      dispute ended in fraud or expiry; disputed means exactly one dispute is open. */
  lemma RecordOutcome(s: State, i: nat) returns (j: int)
    requires Inv(s) && i < |s.docs.records|
    ensures var t := RecordTarget(i);
            && |OpenOn(s.disputes, t)| == (if s.docs.records[i].state.Disputed? then 1 else 0)
            && match s.docs.records[i].state
               case Provisional => AllDismissed(s.disputes, t)
               case Confirmed =>
                 && s.docs.records[i].submittedAt + s.cfg.challengePeriod <= s.clock
                 && AllDismissed(s.disputes, t)
               case Disputed => j >= 0 && LastWord(s.disputes, t, j) && s.disputes[j].verdict.Open?
               case Revoked => j >= 0 && LastWord(s.disputes, t, j) && Damns(s.disputes[j].verdict)
  {
    hide MoneyOk, RosterOk, NoncesOk, KeysOk, CountsOk, BallotsOk, TreesOk, QuorumsOk, FilesOk, TargetsOk,
         EarlierSpurious;
    j := TargetHistory(s.disputes, RecordTarget(i));
    assert RecordFits(s.docs.records[i].state, LastVerdict(s.disputes, RecordTarget(i)));
  }

  /** The same for a batch leaf; a confirmed batch passed its full window and has no open leaf dispute. */
  lemma LeafOutcome(s: State, b: nat, l: nat) returns (j: int)
    requires Inv(s) && Exists(s.docs, LeafTarget(b, l))
    ensures var t := LeafTarget(b, l);
            && |OpenOn(s.disputes, t)| == (if LeafAt(s.docs, b, l).LeafDisputed? then 1 else 0)
            && (match LeafAt(s.docs, b, l)
                case Undisputed => forall k :: 0 <= k < |s.disputes| ==> s.disputes[k].target != t
                case Upheld => j >= 0 && LastWord(s.disputes, t, j) && AllDismissed(s.disputes, t)
                case LeafDisputed => j >= 0 && LastWord(s.disputes, t, j) && s.disputes[j].verdict.Open?
                case LeafRevoked => j >= 0 && LastWord(s.disputes, t, j) && Damns(s.disputes[j].verdict))
            && (s.docs.batches[b].state.Confirmed? ==>
                  && s.docs.batches[b].submittedAt + s.cfg.challengePeriod <= s.clock
                  && !LeafAt(s.docs, b, l).LeafDisputed?)
  {
    hide MoneyOk, RosterOk, NoncesOk, KeysOk, CountsOk, BallotsOk, TreesOk, QuorumsOk, FilesOk, TargetsOk,
         EarlierSpurious;
    j := TargetHistory(s.disputes, LeafTarget(b, l));
    assert LeafAt(s.docs, b, l) == LeafFor(LastVerdict(s.disputes, LeafTarget(b, l)));
  }

  // ---------- Progress ----------

  /** Expiry never gets stuck: outside the guard it succeeds exactly for an open dispute past its deadline. */
  lemma ExpiryEnabled(s: State, id: nat)
    requires Inv(s)
    ensures ExpireDispute(s, id).Ok? <==>
              !s.locked && id < |s.disputes| && s.disputes[id].verdict.Open? && s.clock > s.disputes[id].deadline
  {
    hide Core, CanRelease, CanClose, QuorumsOk;
    if id < |s.disputes| {
      DeadlinePositive(s, id);
      if s.disputes[id].verdict.Open? {
        ExpiryKeeps(s, id);
      }
    }
  }

  lemma DeadlinePositive(s: State, id: nat)
    requires Core(s) && id < |s.disputes|
    ensures s.disputes[id].deadline > 0 && Exists(s.docs, s.disputes[id].target)
  {
  }

  /** Who may attest now: a seated verifier with full stake, unconflicted, that has not voted. */
  predicate MayAttest(s: State, id: nat, v: Address)
    requires id < |s.disputes| && Exists(s.docs, s.disputes[id].target)
  {
    && v in s.roster.registered && Get(s.bank.verifierStake, v) >= s.cfg.verifierStakeAmount
    && v != RelayOf(s.docs, s.disputes[id].target)
    && v !in s.disputes[id].fraudAttesters && v !in s.disputes[id].validAttesters
  }

  /** Attesting succeeds exactly up to the deadline, for exactly the entitled signers: an
      open dispute can be attested on or expired at any moment, never both. */
  lemma AttestationEnabled(s: State, id: nat, isFraud: bool, signer: Option<Address>)
    requires Inv(s)
    ensures id < |s.disputes| ==> Exists(s.docs, s.disputes[id].target)
    ensures SubmitAttestation(s, id, isFraud, signer).Ok? <==>
              && !s.locked && id < |s.disputes| && s.disputes[id].verdict.Open? && s.clock <= s.disputes[id].deadline
              && signer.Some? && MayAttest(s, id, signer.value)
  {
    hide Core, ResolveFraud, ResolveSpurious, QuorumsOk;
    if id < |s.disputes| {
      DeadlinePositive(s, id);
      if signer.Some? {
        AttestedIsVoted(s, id, signer.value);
        if s.disputes[id].verdict.Open? && MayAttest(s, id, signer.value) {
          VoteCounts(s, id, isFraud, signer.value);
        }
      }
    }
  }

  /** Whatever verdict a recorded vote triggers goes through. */
  lemma VoteCounts(s: State, id: nat, isFraud: bool, v: Address)
    requires Core(s) && id < |s.disputes| && s.disputes[id].verdict.Open? && (id, v) !in s.attested
    requires Exists(s.docs, s.disputes[id].target) && v != RelayOf(s.docs, s.disputes[id].target)
    ensures ResolveFraud(Vote(s, id, isFraud, v), id).Ok? && ResolveSpurious(Vote(s, id, isFraud, v), id).Ok?
  {
    hide Core, ResolveFraud, ResolveSpurious;
    VoteKeeps(s, id, isFraud, v);
    FraudKeeps(Vote(s, id, isFraud, v), id);
    SpuriousKeeps(Vote(s, id, isFraud, v), id);
  }

  lemma AttestedIsVoted(s: State, id: nat, v: Address)
    requires Core(s) && id < |s.disputes|
    ensures (id, v) in s.attested <==> v in s.disputes[id].fraudAttesters || v in s.disputes[id].validAttesters
  {
    hide MoneyOk, RosterOk, NoncesOk, KeysOk, CaseOk, CountsOk, WindowsOk, TreesOk, FilesOk;
    assert (id, v) in s.attested <==> Voted(s.disputes, id, v);
  }

  /** Finalization is never blocked by a counter: it succeeds exactly for a provisional
      document past its window, and for a batch only once no leaf dispute is open. */
  lemma FinalizationEnabled(s: State, i: nat)
    requires Inv(s)
    ensures FinalizeRecord(s, i).Ok? <==>
              && i < |s.docs.records| && s.docs.records[i].state.Provisional?
              && s.docs.records[i].submittedAt + s.cfg.challengePeriod <= s.clock
    ensures FinalizeBatch(s, i).Ok? <==>
              && i < |s.docs.batches| && s.docs.batches[i].state.Provisional?
              && s.docs.batches[i].submittedAt + s.cfg.challengePeriod <= s.clock
              && OpenInBatch(s.disputes, i) == {}
  {
    hide CanRelease, ReleaseLeaves, Inv;
    FinalizeRecordKeeps(s, i);
    FinalizeBatchKeeps(s, i);
    BatchOpenIs(s, i);
  }

  lemma BatchOpenIs(s: State, b: nat)
    requires Inv(s)
    ensures Get(s.batchOpen, b) == 0 <==> OpenInBatch(s.disputes, b) == {}
  {
    hide MoneyOk, RosterOk, NoncesOk, KeysOk, CaseOk, BallotsOk, WindowsOk, TreesOk, FilesOk, QuorumsOk;
    assert Get(s.batchOpen, b) == |OpenInBatch(s.disputes, b)|;
  }

  // ---------- Verdicts need their quorum ----------

  lemma NoDupAppend(xs: seq<Address>, ys: seq<Address>)
    requires NoDup(xs) && NoDup(ys) && forall x :: x in xs ==> x !in ys
    ensures NoDup(xs + ys)
  {
    forall i, j | 0 <= i < |xs| <= j < |xs + ys| ensures (xs + ys)[i] != (xs + ys)[j] {
      assert xs[i] in xs && ys[j - |xs|] in ys;
    }
  }

  /** Every dispute's ballot: nobody votes twice, on both sides, or on its own document, the
      double-vote flags agree with the lists, and a verdict carries exactly the quorum
      on its side and less on the other; an unsettled or expired dispute never had it. */
  lemma BallotWellFounded(s: State, id: nat)
    requires Inv(s) && id < |s.disputes|
    ensures var d := s.disputes[id];
            && Exists(s.docs, d.target) && d.deadline == d.openedAt + s.cfg.challengePeriod
            && NoDup(d.fraudAttesters + d.validAttesters)
            && RelayOf(s.docs, d.target) !in d.fraudAttesters + d.validAttesters
            && (forall v: Address :: (id, v) in s.attested <==> v in d.fraudAttesters + d.validAttesters)
            && (s.cfg.quorum > 0 ==> QuorumMet(s.cfg.quorum, d))
  {
    hide MoneyOk, RosterOk, NoncesOk, KeysOk, CountsOk, WindowsOk, TreesOk, FilesOk, EarlierSpurious, StatesOk;
    assert BallotOk(s.docs, s.disputes[id]);
    forall v: Address ensures (id, v) in s.attested <==>
        v in s.disputes[id].fraudAttesters + s.disputes[id].validAttesters {
      AttestedIsVoted(s, id, v);
    }
    NoDupAppend(s.disputes[id].fraudAttesters, s.disputes[id].validAttesters);
  }

  /** A verdict carries its quorum exactly when the quorum is positive. */
  lemma QuorumMetIffPositive(s: State, id: nat)
    requires Inv(s) && id < |s.disputes| && s.disputes[id].verdict in {Fraud, Spurious}
    ensures QuorumMet(s.cfg.quorum, s.disputes[id]) <==> s.cfg.quorum > 0
  {
    BallotWellFounded(s, id);
    hide Inv;
  }

  /** With no quorum configured whoever attests first, whichever way, decides the
      dispute as fraud, on that vote alone. */
  lemma NoQuorumMeansFraud(s: State, id: nat, isFraud: bool, signer: Option<Address>)
    requires Inv(s) && s.cfg.quorum == 0 && SubmitAttestation(s, id, isFraud, signer).Ok?
    ensures var d := s.disputes[id];
            var s' := SubmitAttestation(s, id, isFraud, signer).state;
            && s'.disputes == s.disputes[id := WithVote(d, isFraud, signer.value).(verdict := Fraud)]
            && Exists(s.docs, d.target) && s'.docs == Revoke(s.docs, d.target)
  {
    hide Core, CanRelease, CanClose, Release, Filed, FraudPayout, Revoke, QuorumsOk;
  }

  // ---------- Leaves ----------

  /** A leaf dispute is admitted exactly when the bond suffices, the leaf is disputable,
      and the challenger presents the tuple committed at that index with the one proof
      of its position. */
  lemma LeafDisputeNeedsCommittedLeaf(s: State, a: Address, value: nat, b: nat, l: nat, claim: LeafClaim,
                                      proof: seq<Hash>)
    requires Inv(s) && Exists(s.docs, LeafTarget(b, l))
    ensures l < |s.docs.batches[b].leaves|
    ensures OpenBatchLeafDispute(s, a, value, b, l, claim, proof).Ok? <==>
              && value >= s.cfg.challengerBondAmount && Disputable(s.docs, LeafTarget(b, l))
              && s.docs.batches[b].leaves[l] == LeafOf(b, claim.did, claim.nonce, claim.dataHash, claim.sigHash)
              && proof == ProofOf(s.docs.batches[b].leaves, l)
  {
    hide MoneyOk, RosterOk, NoncesOk, KeysOk, CaseOk, CountsOk, BallotsOk, WindowsOk, FilesOk, QuorumsOk, Fold, Root,
         ProofOf, Admit;
    var batch := s.docs.batches[b];
    assert TreeOk(batch, b);
    AcceptedIffCommitted(batch.leaves, LeafOf(b, claim.did, claim.nonce, claim.dataHash, claim.sigHash), proof, l);
  }

  /** The tuple submitted at position `i` of a batch. */
  function SubmittedClaim(nonces: map<Hash, nat>, dids: seq<Hash>, dataHashes: seq<Hash>, data: seq<Byte>,
                          i: nat): LeafClaim
    requires i < |dids| == |dataHashes| && |data| == |dids| * FALCON_512_SIG_SIZE_MAX
  {
    LeafClaim(dids[i], NonceAt(nonces, dids, i), dataHashes[i],
              Bytes(data[i * FALCON_512_SIG_SIZE_MAX..(i + 1) * FALCON_512_SIG_SIZE_MAX]))
  }

  lemma SubmittedLeaves(s: State, a: Address, dids: seq<Hash>, dataHashes: seq<Hash>, data: seq<Byte>, i: nat)
    requires Inv(s) && SubmitBatch(s, a, dids, dataHashes, data).Ok? && i < |dids|
    ensures |dids| == |dataHashes| && |data| == |dids| * FALCON_512_SIG_SIZE_MAX
    ensures var b, claim := |s.docs.batches|, SubmittedClaim(s.didNonce, dids, dataHashes, data, i);
            var s' := SubmitBatch(s, a, dids, dataHashes, data).state;
            && Inv(s') && s'.clock == s.clock && s'.cfg == s.cfg && |s'.docs.batches| == b + 1
               && |s'.docs.batches[b].leaves| == |dids|
            && s'.docs.batches[b].leaves[i] == LeafOf(b, claim.did, claim.nonce, claim.dataHash, claim.sigHash)
  {
    SubmitBatchKeeps(s, a, dids, dataHashes, data);
    hide Inv, Root, Bumped, NonceAt, DR.IsActive;
  }

  lemma LeavesKept(s: State, e: State, b: nat)
    requires Later(s, e) && Inv(e) && b < |s.docs.batches|
    ensures e.cfg == s.cfg && b < |e.docs.batches| && e.docs.batches[b].leaves == s.docs.batches[b].leaves
    ensures e.docs.batches[b].leafCount == |e.docs.batches[b].leaves|
  {
    hide MoneyOk, RosterOk, NoncesOk, KeysOk, CaseOk, CountsOk, BallotsOk, WindowsOk, FilesOk, QuorumsOk, CasesLater,
         NoLateCases, Root;
    assert SameBatch(s.docs.batches[b], e.docs.batches[b]);
    assert TreeOk(e.docs.batches[b], b);
  }

  /** From submission to challenge: after any later run a dispute on leaf `i` of a
      batch is admitted exactly when the bond suffices, the leaf is disputable, and
      the challenger presents the DID, nonce, data hash and signature hash that were
      submitted at position `i`, with the one proof of that position. */
  lemma OnlySubmittedTuples(s: State, a: Address, dids: seq<Hash>, dataHashes: seq<Hash>, data: seq<Byte>, txs: seq<Tx>,
                            i: nat, c: Address, value: nat, claim: LeafClaim, proof: seq<Hash>)
    requires Inv(s) && SubmitBatch(s, a, dids, dataHashes, data).Ok? && i < |dids| && Timely(s.clock, txs)
    ensures |dids| == |dataHashes| && |data| == |dids| * FALCON_512_SIG_SIZE_MAX
    ensures var b := |s.docs.batches|;
            var s' := SubmitBatch(s, a, dids, dataHashes, data).state;
            var e := Run(s', txs);
            && Exists(e.docs, LeafTarget(b, i)) && b < |s'.docs.batches| && |s'.docs.batches[b].leaves| == |dids|
            && (OpenBatchLeafDispute(e, c, value, b, i, claim, proof).Ok? <==>
                  && value >= s.cfg.challengerBondAmount && Disputable(e.docs, LeafTarget(b, i))
                  && claim == SubmittedClaim(s.didNonce, dids, dataHashes, data, i)
                  && proof == ProofOf(s'.docs.batches[b].leaves, i))
  {
    hide SubmitBatch, Run, NonceAt, ProofOf, Inv;
    var b, s' := |s.docs.batches|, SubmitBatch(s, a, dids, dataHashes, data).state;
    SubmittedLeaves(s, a, dids, dataHashes, data, i);
    RunLater(s', txs);
    RunKeeps(s', txs);
    var e := Run(s', txs);
    LeavesKept(s', e, b);
    hide Later, OpenBatchLeafDispute, Disputable;
    LeafDisputeNeedsCommittedLeaf(e, c, value, b, i, claim, proof);
  }

  /** All leaf preimages of all batches are pairwise distinct. */
  lemma LeavesDistinct(s: State, b: nat, l: nat, c: nat, k: nat)
    requires Inv(s) && Exists(s.docs, LeafTarget(b, l)) && Exists(s.docs, LeafTarget(c, k)) && (b, l) != (c, k)
    ensures l < |s.docs.batches[b].leaves| && k < |s.docs.batches[c].leaves|
    ensures s.docs.batches[b].leaves[l] != s.docs.batches[c].leaves[k]
  {
    hide MoneyOk, RosterOk, KeysOk, CaseOk, CountsOk, BallotsOk, WindowsOk, FilesOk, QuorumsOk, Root;
    assert TreeOk(s.docs.batches[b], b) && TreeOk(s.docs.batches[c], c);
    var x, y := s.docs.batches[b].leaves[l], s.docs.batches[c].leaves[k];
    assert Holds(s.docs, LeafSlot(b, l), x.did, x.nonce);
    assert Holds(s.docs, LeafSlot(c, k), y.did, y.nonce);
  }

  /** Each nonce of a DID up to its counter was spent in exactly one record or leaf, and none beyond it. */
  lemma NonceSpentOnce(s: State, did: Hash, n: nat)
    requires Inv(s)
    ensures Spent(s.docs, did, n) <==> 1 <= n <= Get(s.didNonce, did)
    ensures forall x, y :: Holds(s.docs, x, did, n) && Holds(s.docs, y, did, n) ==> x == y
  {
    hide MoneyOk, RosterOk, KeysOk, CaseOk, CountsOk, BallotsOk, WindowsOk, FilesOk, QuorumsOk, TreesOk, Holds;
  }

  // ---------- Keys ----------

  /** After any run, whatever was deactivated in between, a record still carries
      the hash of the key on file for its DID, and it is the key it was filed with. */
  lemma KeySnapshotsHold(s: State, txs: seq<Tx>, i: nat)
    requires Inv(s) && Timely(s.clock, txs) && i < |s.docs.records|
    ensures var e := Run(s, txs);
            var did := s.docs.records[i].didHash;
            && i < |e.docs.records| && SameRecord(s.docs.records[i], e.docs.records[i])
            && DR.IsRegistered(s.dids, did) && DR.IsRegistered(e.dids, did)
            && e.docs.records[i].pubKeyHash == Bytes(e.dids[did].publicKey)
            && e.dids[did].publicKey == s.dids[did].publicKey
  {
    RunLater(s, txs);
    hide MoneyOk, RosterOk, NoncesOk, CaseOk, CountsOk, BallotsOk, WindowsOk, FilesOk, QuorumsOk, TreesOk, Run,
         CasesLater;
    assert KeyOk(s.dids, s.docs.records[i]);
  }

  /** A submitted record is kept for ever as it was submitted, under the nonce it was
      given and the key then on file; a later run changes its state alone. */
  lemma SubmittedRecordKept(s: State, a: Address, dataHash: Hash, did: Hash, signature: seq<Byte>, txs: seq<Tx>)
    requires Inv(s) && SubmitAccountable(s, a, dataHash, did, signature).Ok? && Timely(s.clock, txs)
    ensures did in s.dids
    ensures var i := |s.docs.records|;
            var e := Run(SubmitAccountable(s, a, dataHash, did, signature).state, txs);
            && i < |e.docs.records| && did in e.dids
            && e.docs.records[i] == Record(dataHash, did, signature, Bytes(e.dids[did].publicKey), s.clock, a,
                                           Get(s.didNonce, did) + 1, e.docs.records[i].state)
            && e.dids[did].publicKey == s.dids[did].publicKey
  {
    var s' := SubmitAccountable(s, a, dataHash, did, signature).state;
    SubmitAccountableKeeps(s, a, dataHash, did, signature);
    KeySnapshotsHold(s', txs, |s.docs.records|);
    hide Run, Inv, Timely;
  }
}
