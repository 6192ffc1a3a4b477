/** What is submitted: when a submission is taken or refused, what it leaves on file for
    every later run, and to whom it is attributed when it is disputed. */
module Submissions {
  import opened Common
  import opened Merkle
  import opened Docket
  import opened DocketFacts
  import opened Treasury
  import opened Exposure
  import opened ExposureFacts
  import opened Protocol
  import opened Invariants
  import opened DisputeSteps
  import opened Preservation
  import opened History
  import opened Verdicts
  import opened Theorems
  import opened Exits
  import DR = DidRegistry

  // ---------- Admission ----------

  /** The registry holds an active document for `did`. */
  predicate Usable(dids: DR.Directory, did: Hash) {
    did in dids && dids[did].registeredAt != 0 && dids[did].active
  }

  /** A record is taken exactly from a relay with the full stake, for a usable DID, with a
      signature of 1 to 752 bytes; it adds one record and one nonce and touches nothing else. */
  lemma RecordTaken(s: State, a: Address, dataHash: Hash, did: Hash, sig: seq<Byte>)
    ensures Step(s, SubmitAccountableCall(a, dataHash, did, sig)) == SubmitAccountable(s, a, dataHash, did, sig)
    ensures SubmitAccountable(s, a, dataHash, did, sig) == Revert(NotStakedRelay) <==>
              Get(s.bank.relayStake, a) < s.cfg.relayStakeAmount
    ensures SubmitAccountable(s, a, dataHash, did, sig) == Revert(InactiveDid) <==>
              Get(s.bank.relayStake, a) >= s.cfg.relayStakeAmount && !Usable(s.dids, did)
    ensures SubmitAccountable(s, a, dataHash, did, sig) == Revert(BadSignatureLength) <==>
              && Get(s.bank.relayStake, a) >= s.cfg.relayStakeAmount && Usable(s.dids, did)
              && !(1 <= |sig| <= 752)
    ensures SubmitAccountable(s, a, dataHash, did, sig).Ok? <==>
              Get(s.bank.relayStake, a) >= s.cfg.relayStakeAmount && Usable(s.dids, did) && 1 <= |sig| <= 752
    ensures SubmitAccountable(s, a, dataHash, did, sig).Ok? ==>
              var e := SubmitAccountable(s, a, dataHash, did, sig).state;
              && (forall d :: Get(e.didNonce, d) == Get(s.didNonce, d) + (if d == did then 1 else 0))
              && |e.docs.records| == |s.docs.records| + 1 && s.docs.records <= e.docs.records
              && e.docs.records[|s.docs.records|].state.Provisional?
              && e == s.(didNonce := e.didNonce, docs := s.docs.(records := e.docs.records))
  {
  }

  /** A batch is taken exactly from a relay with the full stake, non-empty, with one data
      hash and 752 bytes of availability data per DID, all usable. */
  lemma BatchTaken(s: State, a: Address, dids: seq<Hash>, dataHashes: seq<Hash>, data: seq<Byte>)
    ensures Step(s, SubmitBatchCall(a, dids, dataHashes, data)) == SubmitBatch(s, a, dids, dataHashes, data)
    ensures SubmitBatch(s, a, dids, dataHashes, data) == Revert(NotStakedRelay) <==>
              Get(s.bank.relayStake, a) < s.cfg.relayStakeAmount
    ensures SubmitBatch(s, a, dids, dataHashes, data) == Revert(BatchLengthMismatch) <==>
              Get(s.bank.relayStake, a) >= s.cfg.relayStakeAmount && !(0 < |dids| == |dataHashes|)
    ensures SubmitBatch(s, a, dids, dataHashes, data) == Revert(BadAvailabilityLength) <==>
              && Get(s.bank.relayStake, a) >= s.cfg.relayStakeAmount && 0 < |dids| == |dataHashes|
              && |data| != |dids| * 752
    ensures SubmitBatch(s, a, dids, dataHashes, data) == Revert(InactiveDid) <==>
              && Get(s.bank.relayStake, a) >= s.cfg.relayStakeAmount && 0 < |dids| == |dataHashes|
              && |data| == |dids| * 752 && exists d :: d in dids && !Usable(s.dids, d)
    ensures SubmitBatch(s, a, dids, dataHashes, data).Ok? <==>
              && Get(s.bank.relayStake, a) >= s.cfg.relayStakeAmount && 0 < |dids| == |dataHashes|
              && |data| == |dids| * 752 && forall d :: d in dids ==> Usable(s.dids, d)
  {
    hide Root, BatchLeaves, Bumped;
    assert forall d :: DR.IsActive(s.dids, d) == Usable(s.dids, d);
  }

  /** An admitted batch adds one batch, one nonce per leaf, and touches nothing else. */
  lemma BatchAdds(s: State, a: Address, dids: seq<Hash>, dataHashes: seq<Hash>, data: seq<Byte>)
    requires SubmitBatch(s, a, dids, dataHashes, data).Ok?
    ensures var e := SubmitBatch(s, a, dids, dataHashes, data).state;
            && (forall d :: Get(e.didNonce, d) == Get(s.didNonce, d) + multiset(dids)[d])
            && |e.docs.batches| == |s.docs.batches| + 1 && s.docs.batches <= e.docs.batches
            && e.docs.batches[|s.docs.batches|].state.Provisional?
            && e == s.(didNonce := e.didNonce, docs := s.docs.(batches := e.docs.batches))
  {
    hide Root, BatchLeaves, DR.IsActive;
  }

  // ---------- On file for ever ----------

  /** The leaves of a batch, from the submitted tuples. */
  function SubmittedTuples(b: nat, nonces: map<Hash, nat>, dids: seq<Hash>, dataHashes: seq<Hash>, data: seq<Byte>)
    : seq<Hash>
    requires |dids| == |dataHashes| && |data| == |dids| * FALCON_512_SIG_SIZE_MAX
  {
    seq(|dids|, i requires 0 <= i < |dids| =>
      var claim := SubmittedClaim(nonces, dids, dataHashes, data, i);
      LeafOf(b, claim.did, claim.nonce, claim.dataHash, claim.sigHash))
  }

  lemma SubmittedBatch(s: State, a: Address, dids: seq<Hash>, dataHashes: seq<Hash>, data: seq<Byte>)
    requires Inv(s) && SubmitBatch(s, a, dids, dataHashes, data).Ok?
    ensures |dids| == |dataHashes| && |data| == |dids| * FALCON_512_SIG_SIZE_MAX
    ensures var b := |s.docs.batches|;
            var s' := SubmitBatch(s, a, dids, dataHashes, data).state;
            && |s'.docs.batches| == b + 1
            && var batch := s'.docs.batches[b];
               && batch.relay == a && batch.submittedAt == s.clock && batch.availability == Bytes(data)
               && batch.leafCount == |dids| && |batch.leaves| == |dids| && batch.merkleRoot == Root(batch.leaves)
  {
    hide Inv, Root, BatchLeaf, Bumped, DR.IsActive;
  }

  lemma TuplesAre(s: State, a: Address, dids: seq<Hash>, dataHashes: seq<Hash>, data: seq<Byte>)
    requires Inv(s) && SubmitBatch(s, a, dids, dataHashes, data).Ok?
    ensures |dids| == |dataHashes| && |data| == |dids| * FALCON_512_SIG_SIZE_MAX
    ensures var b := |s.docs.batches|;
            var s' := SubmitBatch(s, a, dids, dataHashes, data).state;
            b < |s'.docs.batches| &&
            s'.docs.batches[b].leaves == SubmittedTuples(b, s.didNonce, dids, dataHashes, data)
  {
    SubmittedBatch(s, a, dids, dataHashes, data);
    hide Inv, Root, SubmitBatch, NonceAt;
    var b := |s.docs.batches|;
    var leaves := SubmitBatch(s, a, dids, dataHashes, data).state.docs.batches[b].leaves;
    forall i | 0 <= i < |dids| ensures leaves[i] == SubmittedTuples(b, s.didNonce, dids, dataHashes, data)[i] {
      SubmittedLeaves(s, a, dids, dataHashes, data, i);
    }
  }

  /** A submitted batch is kept for ever as it was submitted: the relay that sent it, its
      time, its data, and the root of exactly the submitted tuples. */
  lemma SubmittedBatchKept(s: State, a: Address, dids: seq<Hash>, dataHashes: seq<Hash>, data: seq<Byte>, txs: seq<Tx>)
    requires Inv(s) && SubmitBatch(s, a, dids, dataHashes, data).Ok? && Timely(s.clock, txs)
    ensures |dids| == |dataHashes| && |data| == |dids| * FALCON_512_SIG_SIZE_MAX
    ensures var b := |s.docs.batches|;
            var e := Run(SubmitBatch(s, a, dids, dataHashes, data).state, txs);
            && Inv(e) && e.cfg == s.cfg && b < |e.docs.batches|
            && var batch := e.docs.batches[b];
               && batch.relay == a && batch.submittedAt == s.clock && batch.availability == Bytes(data)
               && batch.leafCount == |dids|
               && batch.merkleRoot == Root(SubmittedTuples(b, s.didNonce, dids, dataHashes, data))
  {
    hide Run, Inv, SubmitBatch, Root, NonceAt, SubmittedTuples;
    var b, s' := |s.docs.batches|, SubmitBatch(s, a, dids, dataHashes, data).state;
    SubmittedBatch(s, a, dids, dataHashes, data);
    TuplesAre(s, a, dids, dataHashes, data);
    BatchMoment(s, a, dids, dataHashes, data);
    RunLater(s', txs);
    RunKeeps(s', txs);
    assert SameBatch(s'.docs.batches[b], Run(s', txs).docs.batches[b]);
  }

  lemma BatchMoment(s: State, a: Address, dids: seq<Hash>, dataHashes: seq<Hash>, data: seq<Byte>)
    requires Inv(s) && SubmitBatch(s, a, dids, dataHashes, data).Ok?
    ensures var s' := SubmitBatch(s, a, dids, dataHashes, data).state;
            Inv(s') && s'.clock == s.clock && s'.cfg == s.cfg
  {
    SubmitBatchKeeps(s, a, dids, dataHashes, data);
    hide Inv, Root, BatchLeaves, Bumped, DR.IsActive;
  }

  // ---------- Attribution ----------

  /** What follows for account `a` from being answerable for dispute `id`: it may not vote
      on it, cannot leave while it is open, pays for a fraud verdict out of its own pools,
      and is compensated for a spurious one. */
  ghost predicate Answerable(e: State, id: nat, a: Address)
    requires id < |e.disputes|
  {
    var d := e.disputes[id];
    && (forall isFraud :: !SubmitAttestation(e, id, isFraud, Some(a)).Ok?)
    && (d.verdict.Open? ==> !AnnounceUnstake(e, a).Ok? && !UnstakeRelay(e, a).Ok?)
    && (forall isFraud, signer :: SubmitAttestation(e, id, isFraud, signer).Ok? ==>
          Settles(e, SubmitAttestation(e, id, isFraud, signer).state, id, a))
  }

  /** What a verdict on dispute `id` costs or brings `a`. */
  ghost predicate Settles(e: State, e': State, id: nat, a: Address)
    requires id < |e.disputes|
  {
    && id < |e'.disputes|
    && (e'.disputes[id].verdict.Fraud? ==>
          && Pools(e.bank, a) - Pools(e'.bank, a) == Min(e.cfg.relaySlashAmount, Pools(e.bank, a))
          && Get(e.bank.relayStake, a) - Get(e'.bank.relayStake, a) ==
             Min(e.cfg.relaySlashAmount, Get(e.bank.relayStake, a)))
    && (e'.disputes[id].verdict.Spurious? ==>
          && Get(e'.bank.pending, a) == Get(e.bank.pending, a) + (e.disputes[id].bond + 1) / 2
          && Pools(e'.bank, a) == Pools(e.bank, a))
    && (e'.disputes[id].verdict.Open? ==> e'.bank == e.bank)
  }

  lemma FraudSettles(s: State, id: nat, a: Address)
    requires Core(s) && id < |s.disputes| && s.disputes[id].verdict.Open?
    requires Exists(s.docs, s.disputes[id].target) && RelayOf(s.docs, s.disputes[id].target) == a
    ensures ResolveFraud(s, id).Ok? && Settles(s, ResolveFraud(s, id).state, id, a)
  {
    hide Core, CanRelease, CanClose, Release, Filed, Revoke, FraudPayout, AllVoters, Sum, FraudCredit, SettledVoters;
    var wrong := FraudVerdict(s, id);
    assert FraudTakes(s.cfg, s.bank, ResolveFraud(s, id).state.bank, wrong, a, a);
  }

  lemma SpuriousSettles(s: State, id: nat, a: Address)
    requires Core(s) && id < |s.disputes| && s.disputes[id].verdict.Open?
    requires Exists(s.docs, s.disputes[id].target) && RelayOf(s.docs, s.disputes[id].target) == a
    ensures ResolveSpurious(s, id).Ok? && Settles(s, ResolveSpurious(s, id).state, id, a)
  {
    CoreBallots(s);
    assert BallotOk(s.docs, s.disputes[id]);
    hide Core, CanClose, Filed, SpuriousPayout, Sum, Reinstate, SettledVoters;
    SpuriousVerdict(s, id);
  }

  lemma AttestationSettles(e: State, id: nat, isFraud: bool, signer: Option<Address>, a: Address)
    requires Inv(e) && id < |e.disputes| && Exists(e.docs, e.disputes[id].target)
    requires RelayOf(e.docs, e.disputes[id].target) == a && SubmitAttestation(e, id, isFraud, signer).Ok?
    ensures Settles(e, SubmitAttestation(e, id, isFraud, signer).state, id, a)
  {
    hide Core, QuorumsOk, ResolveFraud, ResolveSpurious;
    AttestationEnabled(e, id, isFraud, signer);
    VoteKeeps(e, id, isFraud, signer.value);
    var e1 := Vote(e, id, isFraud, signer.value);
    FraudSettles(e1, id, a);
    SpuriousSettles(e1, id, a);
    assert Settles(e, e1, id, a);
  }

  lemma RelayAnswers(e: State, id: nat, a: Address)
    requires Inv(e) && id < |e.disputes| && Exists(e.docs, e.disputes[id].target)
    requires RelayOf(e.docs, e.disputes[id].target) == a
    ensures Answerable(e, id, a)
  {
    hide Inv, Settles, SubmitAttestation, UnstakeRelay, AnnounceUnstake;
    forall isFraud ensures !SubmitAttestation(e, id, isFraud, Some(a)).Ok? {
      AttestationEnabled(e, id, isFraud, Some(a));
    }
    RelayExits(e, a);
    assert e.disputes[id].verdict.Open? ==> id in OpenNaming(e.docs, e.disputes, a);
    forall isFraud, signer | SubmitAttestation(e, id, isFraud, signer).Ok?
      ensures Settles(e, SubmitAttestation(e, id, isFraud, signer).state, id, a) {
      AttestationSettles(e, id, isFraud, signer, a);
    }
  }

  /** Whoever submitted a record answers for every dispute on it, after any run. */
  lemma RecordAttributed(s: State, a: Address, dataHash: Hash, did: Hash, sig: seq<Byte>, txs: seq<Tx>, id: nat)
    requires Inv(s) && SubmitAccountable(s, a, dataHash, did, sig).Ok? && Timely(s.clock, txs)
    requires var e := Run(SubmitAccountable(s, a, dataHash, did, sig).state, txs);
             id < |e.disputes| && e.disputes[id].target == RecordTarget(|s.docs.records|)
    ensures Answerable(Run(SubmitAccountable(s, a, dataHash, did, sig).state, txs), id, a)
  {
    hide Run, Inv, Answerable, Timely;
    SubmittedRecordKept(s, a, dataHash, did, sig, txs);
    SubmitAccountableKeeps(s, a, dataHash, did, sig);
    RecordMoment(s, a, dataHash, did, sig);
    var s' := SubmitAccountable(s, a, dataHash, did, sig).state;
    RunKeeps(s', txs);
    RelayAnswers(Run(s', txs), id, a);
  }

  lemma RecordMoment(s: State, a: Address, dataHash: Hash, did: Hash, sig: seq<Byte>)
    requires SubmitAccountable(s, a, dataHash, did, sig).Ok?
    ensures SubmitAccountable(s, a, dataHash, did, sig).state.clock == s.clock
  {
  }

  /** Whoever submitted a batch answers for every dispute on any of its leaves, after any run. */
  lemma LeafAttributed(s: State, a: Address, dids: seq<Hash>, dataHashes: seq<Hash>, data: seq<Byte>, txs: seq<Tx>,
                       id: nat, l: nat)
    requires Inv(s) && SubmitBatch(s, a, dids, dataHashes, data).Ok? && Timely(s.clock, txs)
    requires var e := Run(SubmitBatch(s, a, dids, dataHashes, data).state, txs);
             id < |e.disputes| && e.disputes[id].target == LeafTarget(|s.docs.batches|, l)
    ensures Answerable(Run(SubmitBatch(s, a, dids, dataHashes, data).state, txs), id, a)
  {
    hide Run, Inv, Answerable, Timely, SubmitBatch, SubmittedTuples, Root;
    SubmittedBatchKept(s, a, dids, dataHashes, data, txs);
    var e := Run(SubmitBatch(s, a, dids, dataHashes, data).state, txs);
    DisputeExists(e, id);
    RelayAnswers(e, id, a);
  }

  lemma DisputeExists(e: State, id: nat)
    requires Inv(e) && id < |e.disputes|
    ensures Exists(e.docs, e.disputes[id].target)
  {
  }

  // ---------- Identities ----------

  /** A registry call changes the registry alone, as the registry's own rules say, at the block's time. */
  lemma IdentityCalls(s: State, a: Address, did: Hash, key: seq<Byte>)
    ensures var o, r := Step(s, RegisterDidCall(a, did, key)), DR.Register(s.dids, a, did, key, s.clock);
            if r.Ok? then o == Ok(s.(dids := r.state)) else o == Revert(r.error)
    ensures var o, r := Step(s, DeactivateDidCall(a, did)), DR.Deactivate(s.dids, a, did);
            if r.Ok? then o == Ok(s.(dids := r.state)) else o == Revert(r.error)
  {
    hide DR.Register, DR.Deactivate;
  }
}
