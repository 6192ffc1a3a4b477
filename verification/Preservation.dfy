/** Every call keeps the invariant, so every reachable state satisfies it. */
module Preservation {
  import opened Common
  import opened Merkle
  import opened Docket
  import opened DocketFacts
  import opened Treasury
  import opened Committee
  import opened Exposure
  import opened ExposureFacts
  import opened Protocol
  import opened Invariants
  import opened Money
  import opened DisputeSteps
  import DR = DidRegistry

  // ---------- New documents ----------

  /** Nothing was ever said about a target that does not exist. */
  lemma NothingOn(s: State, t: Target)
    requires Core(s) && !Exists(s.docs, t)
    ensures LastVerdict(s.disputes, t).None? && SettledVoters(s.disputes, t) == {}
    ensures t.LeafTarget? ==> LeafAt(s.docs, t.batch, t.leaf).Undisputed?
  {
    var i := LastVerdictIndex(s.disputes, t);
  }

  /** `docs` with one more provisional record or batch. */
  ghost predicate Grown(docs: Docs, docs': Docs) {
    && docs'.leaf == docs.leaf
    && docs.records <= docs'.records && docs.batches <= docs'.batches
    && |docs'.records| + |docs'.batches| == |docs.records| + |docs.batches| + 1
    && (forall i :: |docs.records| <= i < |docs'.records| ==> docs'.records[i].state.Provisional?)
    && (forall b :: |docs.batches| <= b < |docs'.batches| ==>
          docs'.batches[b].state.Provisional? && docs'.batches[b].revokedLeafCount == 0)
  }

  lemma GrownKeepsCase(s: State, docs': Docs)
    requires Core(s) && Grown(s.docs, docs')
    ensures Extends(s.docs, docs')
    ensures CaseOk(docs', s.disputes, s.clock, s.cfg.challengePeriod)
    ensures BallotsOk(docs', s.disputes, s.attested)
    ensures WindowsOk(docs', s.clock, s.cfg.challengePeriod)
  {
    BallotsKept(s.docs, docs', s.disputes, s.attested);
    forall i | 0 <= i < |docs'.records|
      ensures RecordFits(docs'.records[i].state, LastVerdict(s.disputes, RecordTarget(i))) {
      if i >= |s.docs.records| {
        NothingOn(s, RecordTarget(i));
      }
    }
    forall b, l ensures LeafAt(docs', b, l) == LeafAt(s.docs, b, l) {
    }
  }

  lemma GrownKeepsCounts(s: State, docs': Docs)
    requires Core(s) && Grown(s.docs, docs')
    ensures CountsOk(docs', s.disputes, s.relayActive, s.batchOpen)
  {
    forall r ensures OpenNaming(docs', s.disputes, r) == OpenNaming(s.docs, s.disputes, r) {
    }
    forall b, l ensures LeafAt(docs', b, l) == LeafAt(s.docs, b, l) {
    }
    forall b | 0 <= b < |docs'.batches| ensures docs'.batches[b].revokedLeafCount == |RevokedLeaves(docs', b)| {
      if b < |s.docs.batches| {
        assert RevokedLeaves(docs', b) == RevokedLeaves(s.docs, b);
      } else {
        forall l ensures !LeafAt(docs', b, l).LeafRevoked? {
          NothingOn(s, LeafTarget(b, l));
        }
        assert RevokedLeaves(docs', b) == {};
      }
    }
  }

  lemma GrownKeepsFiles(s: State, docs': Docs)
    requires Core(s) && Grown(s.docs, docs')
    ensures FilesOk(s.reg, docs', s.disputes)
  {
    forall t ensures Live(s.reg, docs', s.disputes, t) {
      assert Live(s.reg, s.docs, s.disputes, t);
      if !Exists(s.docs, t) {
        NothingOn(s, t);
      }
    }
  }

  lemma RecordNonces(didNonce: map<Hash, nat>, docs: Docs, r: Record)
    requires NoncesOk(didNonce, docs) && r.nonce == Get(didNonce, r.didHash) + 1
    ensures NoncesOk(didNonce[r.didHash := r.nonce], docs.(records := docs.records + [r]))
  {
    var docs' := docs.(records := docs.records + [r]);
    var here := RecordSlot(|docs.records|);
    forall slot, did, n: nat ensures Holds(docs', slot, did, n) <==>
      Holds(docs, slot, did, n) || (slot == here && did == r.didHash && n == r.nonce) {
    }
    hide Holds;
    forall did, n: nat | 1 <= n <= Get(didNonce[r.didHash := r.nonce], did) ensures Spent(docs', did, n) {
      if did == r.didHash && n == r.nonce {
        assert Holds(docs', here, did, n);
      } else {
        assert Spent(docs, did, n);
        var slot :| Holds(docs, slot, did, n);
        assert Holds(docs', slot, did, n);
      }
    }
  }

  lemma RecordSubmitted(s: State, a: Address, dataHash: Hash, did: Hash, signature: seq<Byte>)
    requires KeysOk(s.dids, s.docs) && TreesOk(s.docs) && SubmitAccountable(s, a, dataHash, did, signature).Ok?
    ensures var s' := SubmitAccountable(s, a, dataHash, did, signature).state;
            var r := s'.docs.records[|s.docs.records|];
            && s' == s.(didNonce := s.didNonce[r.didHash := r.nonce], docs := s.docs.(records := s.docs.records + [r]))
            && r.nonce == Get(s.didNonce, r.didHash) + 1
            && Grown(s.docs, s'.docs) && KeysOk(s.dids, s'.docs) && TreesOk(s'.docs)
  {
    var s' := SubmitAccountable(s, a, dataHash, did, signature).state;
    assert KeyOk(s.dids, s'.docs.records[|s.docs.records|]);
  }

  lemma SubmitAccountableKeeps(s: State, a: Address, dataHash: Hash, did: Hash, signature: seq<Byte>)
    requires Inv(s) && SubmitAccountable(s, a, dataHash, did, signature).Ok?
    ensures Inv(SubmitAccountable(s, a, dataHash, did, signature).state)
  {
    hide Grown, Extends, CaseOk, CountsOk, BallotsOk, WindowsOk, FilesOk, NoncesOk, MoneyOk, KeysOk, TreesOk;
    RecordSubmitted(s, a, dataHash, did, signature);
    var s' := SubmitAccountable(s, a, dataHash, did, signature).state;
    RecordNonces(s.didNonce, s.docs, s'.docs.records[|s.docs.records|]);
    GrownKeepsCase(s, s'.docs);
    GrownKeepsCounts(s, s'.docs);
    GrownKeepsFiles(s, s'.docs);
  }

  /** The last leaf of a list gets its DID's next nonce after the leaves before it. */
  lemma BatchNonceAt(nonces: map<Hash, nat>, dids: seq<Hash>, i: nat)
    requires i < |dids|
    ensures NonceAt(nonces, dids, i) == Get(Bumped(nonces, dids[..i]), dids[i]) + 1
    ensures forall d :: Get(Bumped(nonces, dids[..i + 1]), d) ==
                        Get(Bumped(nonces, dids[..i]), d) + (if d == dids[i] then 1 else 0)
  {
    assert dids[..i + 1] == dids[..i] + [dids[i]];
  }

  /** A batch without leaves spends no nonce. */
  lemma EmptyBatchNonces(nonces: map<Hash, nat>, nonces': map<Hash, nat>, docs: Docs, batch: Batch)
    requires NoncesOk(nonces, docs) && |batch.leaves| == 0
    requires forall d :: Get(nonces', d) == Get(nonces, d)
    ensures NoncesOk(nonces', docs.(batches := docs.batches + [batch]))
  {
    var docs' := docs.(batches := docs.batches + [batch]);
    forall slot, did, n: nat ensures Holds(docs', slot, did, n) == Holds(docs, slot, did, n) {
    }
    hide Holds;
    forall did, n: nat | 1 <= n <= Get(nonces', did) ensures Spent(docs', did, n) {
      assert Spent(docs, did, n);
      var slot :| Holds(docs, slot, did, n);
      assert Holds(docs', slot, did, n);
    }
  }

  /** `docs` with the first `k` leaves of a new batch. */
  ghost function Partly(docs: Docs, batch: Batch, k: nat): Docs
    requires k <= |batch.leaves|
  {
    docs.(batches := docs.batches + [batch.(leaves := batch.leaves[..k])])
  }

  lemma PartlyNext(docs: Docs, batch: Batch, k: nat)
    requires 0 < k <= |batch.leaves|
    ensures var before, after, b := Partly(docs, batch, k - 1), Partly(docs, batch, k), |docs.batches|;
            && |before.batches| == |after.batches| == b + 1 && after.records == before.records
            && after.batches[..b] == before.batches[..b]
            && after.batches[b].leaves == before.batches[b].leaves + [batch.leaves[k - 1]]
  {
    var b := |docs.batches|;
    assert Partly(docs, batch, k - 1).batches[..b] == docs.batches == Partly(docs, batch, k).batches[..b];
  }

  /** However many leaves of the new batch are in, the books are in order. */
  lemma {:induction false} BatchNonces(nonces: map<Hash, nat>, docs: Docs, batch: Batch, dids: seq<Hash>, k: nat)
    requires NoncesOk(nonces, docs) && k <= |dids| == |batch.leaves|
    requires forall i :: 0 <= i < |dids| ==>
               batch.leaves[i].LeafOf? && batch.leaves[i].did == dids[i]
                   && batch.leaves[i].nonce == NonceAt(nonces, dids, i)
    ensures NoncesOk(Bumped(nonces, dids[..k]), Partly(docs, batch, k))
  {
    if k == 0 {
      hide NoncesOk;
      EmptyBatchNonces(nonces, Bumped(nonces, dids[..0]), docs, batch.(leaves := batch.leaves[..0]));
    } else {
      hide NoncesOk, Bumped, NonceAt, Partly;
      BatchNonces(nonces, docs, batch, dids, k - 1);
      BatchNonceAt(nonces, dids, k - 1);
      PartlyNext(docs, batch, k);
      LeafNonce(Bumped(nonces, dids[..k - 1]), Bumped(nonces, dids[..k]), Partly(docs, batch, k - 1),
                Partly(docs, batch, k),
                |docs.batches|, batch.leaves[k - 1]);
    }
  }

  /** One more leaf in the last batch, spending its DID's next nonce. */
  lemma LeafNonce(nonces: map<Hash, nat>, nonces': map<Hash, nat>, docs: Docs, docs': Docs, b: nat, leaf: Hash)
    requires NoncesOk(nonces, docs) && |docs.batches| == b + 1 && leaf.LeafOf?
    requires leaf.nonce == Get(nonces, leaf.did) + 1
    requires forall d :: Get(nonces', d) == Get(nonces, d) + (if d == leaf.did then 1 else 0)
    requires docs'.records == docs.records && |docs'.batches| == b + 1 && docs'.batches[..b] == docs.batches[..b]
    requires docs'.batches[b].leaves == docs.batches[b].leaves + [leaf]
    ensures NoncesOk(nonces', docs')
  {
    var here := LeafSlot(b, |docs.batches[b].leaves|);
    forall c | 0 <= c < b ensures docs'.batches[c] == docs.batches[c] {
      assert docs'.batches[..b][c] == docs.batches[..b][c];
    }
    forall slot, did, n: nat ensures Holds(docs', slot, did, n) <==>
      Holds(docs, slot, did, n) || (slot == here && did == leaf.did && n == leaf.nonce) {
    }
    hide Holds;
    forall did, n: nat | 1 <= n <= Get(nonces', did) ensures Spent(docs', did, n) {
      if did == leaf.did && n == leaf.nonce {
        assert Holds(docs', here, did, n);
      } else {
        assert Spent(docs, did, n);
        var slot :| Holds(docs, slot, did, n);
        assert Holds(docs', slot, did, n);
      }
    }
  }

  lemma BatchSubmitted(s: State, a: Address, dids: seq<Hash>, dataHashes: seq<Hash>, data: seq<Byte>)
    requires KeysOk(s.dids, s.docs) && TreesOk(s.docs) && SubmitBatch(s, a, dids, dataHashes, data).Ok?
    ensures var s' := SubmitBatch(s, a, dids, dataHashes, data).state;
            var batch := s'.docs.batches[|s.docs.batches|];
            && s' == s.(didNonce := Bumped(s.didNonce, dids), docs := s.docs.(batches := s.docs.batches + [batch]))
            && |batch.leaves| == |dids|
            && (forall i :: 0 <= i < |dids| ==>
                  batch.leaves[i].LeafOf? && batch.leaves[i].did == dids[i]
                      && batch.leaves[i].nonce == NonceAt(s.didNonce, dids, i))
            && Grown(s.docs, s'.docs) && KeysOk(s.dids, s'.docs) && TreesOk(s'.docs)
  {
    hide Root, NonceAt, Bumped, Slice;
    var s' := SubmitBatch(s, a, dids, dataHashes, data).state;
    assert TreeOk(s'.docs.batches[|s.docs.batches|], |s.docs.batches|);
  }

  lemma SubmitBatchKeeps(s: State, a: Address, dids: seq<Hash>, dataHashes: seq<Hash>, data: seq<Byte>)
    requires Inv(s) && SubmitBatch(s, a, dids, dataHashes, data).Ok?
    ensures Inv(SubmitBatch(s, a, dids, dataHashes, data).state)
  {
    hide Grown, Extends, CaseOk, CountsOk, BallotsOk, WindowsOk, FilesOk, NoncesOk, MoneyOk, KeysOk, TreesOk, NonceAt,
         Bumped, BatchLeaves;
    BatchSubmitted(s, a, dids, dataHashes, data);
    var s' := SubmitBatch(s, a, dids, dataHashes, data).state;
    var batch := s'.docs.batches[|s.docs.batches|];
    BatchNonces(s.didNonce, s.docs, batch, dids, |dids|);
    assert dids[..|dids|] == dids && batch.leaves[..|dids|] == batch.leaves;
    assert batch.(leaves := batch.leaves[..|dids|]) == batch;
    GrownKeepsCase(s, s'.docs);
    GrownKeepsCounts(s, s'.docs);
    GrownKeepsFiles(s, s'.docs);
  }

  // ---------- Finalization ----------

  /** Finalizing touches no leaf state, no revocation count, and nobody's relay. */
  lemma FinalizeCounts(docs: Docs, docs': Docs, ds: seq<Dispute>, relayActive: map<Address, nat>,
                       batchOpen: map<nat, nat>)
    requires Extends(docs, docs') && Extends(docs', docs) && docs'.leaf == docs.leaf
    requires forall b :: 0 <= b < |docs.batches| ==>
        docs'.batches[b].revokedLeafCount == docs.batches[b].revokedLeafCount
    requires CountsOk(docs, ds, relayActive, batchOpen)
    ensures CountsOk(docs', ds, relayActive, batchOpen)
  {
    forall r ensures OpenNaming(docs', ds, r) == OpenNaming(docs, ds, r) {
      forall x: Dispute ensures Names(docs', x, r) == Names(docs, x, r) {
        NamesKept(docs, docs', x, r);
      }
    }
    forall b, l ensures LeafAt(docs', b, l) == LeafAt(docs, b, l) {
    }
    forall b | 0 <= b < |docs.batches| ensures RevokedLeaves(docs', b) == RevokedLeaves(docs, b) {
    }
  }

  lemma FinalizeRecordFiles(s: State, i: nat)
    requires Core(s) && i < |s.docs.records| && s.docs.records[i].state.Provisional?
    ensures CanRelease(s.reg, RecordTarget(i))
    ensures FilesOk(Release(s.reg, RecordTarget(i)), SetRecord(s.docs, i, Confirmed), s.disputes)
  {
    var t := RecordTarget(i);
    ReleaseKeeps(s.reg, t);
    var reg', docs' := Release(s.reg, t), SetRecord(s.docs, i, Confirmed);
    forall u ensures Live(reg', docs', s.disputes, u) {
      assert Live(s.reg, s.docs, s.disputes, u);
      assert u != t ==> Complete(s.reg, u) ==> Complete(reg', u);
    }
  }

  lemma FinalizeRecordCase(s: State, i: nat)
    requires Core(s) && i < |s.docs.records| && s.docs.records[i].state.Provisional?
    requires s.docs.records[i].submittedAt + s.cfg.challengePeriod <= s.clock
    ensures var docs' := SetRecord(s.docs, i, Confirmed);
            && Extends(s.docs, docs') && Extends(docs', s.docs)
            && StatesOk(docs', s.disputes) && WindowsOk(docs', s.clock, s.cfg.challengePeriod)
  {
    var docs' := SetRecord(s.docs, i, Confirmed);
    assert RecordFits(s.docs.records[i].state, LastVerdict(s.disputes, RecordTarget(i)));
    forall b, l ensures LeafAt(docs', b, l) == LeafAt(s.docs, b, l) {
    }
  }

  lemma FinalizeRecordKeeps(s: State, i: nat)
    requires Inv(s)
    ensures FinalizeRecord(s, i) != Revert(Panic)
    ensures FinalizeRecord(s, i).Ok? ==> Inv(FinalizeRecord(s, i).state)
  {
    hide Extends, CountsOk, BallotsOk, WindowsOk, FilesOk, NoncesOk, MoneyOk, KeysOk, TreesOk, StatesOk,
         EarlierSpurious, TargetsOk, CanRelease, Release;
    if i < |s.docs.records| && s.docs.records[i].state.Provisional? {
      FinalizeRecordFiles(s, i);
      if s.docs.records[i].submittedAt + s.cfg.challengePeriod <= s.clock {
        FinalizeRecordCase(s, i);
        var docs' := SetRecord(s.docs, i, Confirmed);
        StateChangeKeeps(s, docs');
        FinalizeCounts(s.docs, docs', s.disputes, s.relayActive, s.batchOpen);
      }
    }
  }

  /** A batch without open leaf disputes has no leaf under dispute. */
  lemma NoLeafDisputed(s: State, b: nat, l: nat)
    requires Core(s) && Get(s.batchOpen, b) == 0
    ensures !LeafAt(s.docs, b, l).LeafDisputed?
  {
    var i := LastVerdictIndex(s.disputes, LeafTarget(b, l));
    assert OpenInBatch(s.disputes, b) == {};
    assert i >= 0 ==> i !in OpenInBatch(s.disputes, b);
  }

  /** The remembered leaves are all the leaves with a list, so releasing them clears the batch. */
  lemma FinalizeBatchReleases(s: State, b: nat)
    requires Core(s)
    ensures ReleaseLeaves(s.reg, b, ExposedIn(s.reg, b)).Some?
    ensures var reg' := ForgetLeaves(ReleaseLeaves(s.reg, b, ExposedIn(s.reg, b)).value, b);
            && RegistryOk(reg') && LeavesOk(reg') && reg'.validHas == s.reg.validHas
            && forall u :: ListOf(reg', u) == if u.LeafTarget? && u.batch == b then [] else ListOf(s.reg, u)
  {
    ReleaseLeavesKeeps(s.reg, b, ExposedIn(s.reg, b));
    var r := ReleaseLeaves(s.reg, b, ExposedIn(s.reg, b)).value;
    forall c ensures ExposedIn(r, c) == ExposedIn(s.reg, c) {
    }
    forall l ensures ListOf(r, LeafTarget(b, l)) == [] {
      assert Covered(s.reg, b, l);
    }
    forall c, l | c != b ensures Covered(r, c, l) {
      assert Covered(s.reg, c, l);
    }
    ForgetKeeps(r, b);
    forall u ensures ListOf(ForgetLeaves(r, b), u) == ListOf(r, u) {
    }
  }

  lemma FinalizeBatchLive(s: State, b: nat, u: Target)
    requires Core(s) && b < |s.docs.batches| && s.docs.batches[b].state.Provisional?
    ensures ReleaseLeaves(s.reg, b, ExposedIn(s.reg, b)).Some?
    ensures Live(ForgetLeaves(ReleaseLeaves(s.reg, b, ExposedIn(s.reg, b)).value, b),
                 SetBatch(s.docs, b, Confirmed), s.disputes, u)
  {
    FinalizeBatchReleases(s, b);
    hide RegistryOk, LeavesOk, ReleaseLeaves, SettledVoters;
    var reg' := ForgetLeaves(ReleaseLeaves(s.reg, b, ExposedIn(s.reg, b)).value, b);
    assert Live(s.reg, s.docs, s.disputes, u);
    assert ListOf(reg', u) == ListOf(s.reg, u) && Complete(s.reg, u) ==> Complete(reg', u);
  }

  lemma FinalizeBatchFiles(s: State, b: nat)
    requires Core(s) && b < |s.docs.batches| && s.docs.batches[b].state.Provisional?
    ensures ReleaseLeaves(s.reg, b, ExposedIn(s.reg, b)).Some?
    ensures FilesOk(ForgetLeaves(ReleaseLeaves(s.reg, b, ExposedIn(s.reg, b)).value, b),
                    SetBatch(s.docs, b, Confirmed), s.disputes)
  {
    hide RegistryOk, LeavesOk, ReleaseLeaves, Live, SetBatch, ForgetLeaves, Core;
    FinalizeBatchReleases(s, b);
    forall u ensures Live(ForgetLeaves(ReleaseLeaves(s.reg, b, ExposedIn(s.reg, b)).value, b),
                          SetBatch(s.docs, b, Confirmed), s.disputes, u) {
      FinalizeBatchLive(s, b, u);
    }
  }

  lemma FinalizeBatchCase(s: State, b: nat)
    requires Core(s) && b < |s.docs.batches| && s.docs.batches[b].state.Provisional? && Get(s.batchOpen, b) == 0
    requires s.docs.batches[b].submittedAt + s.cfg.challengePeriod <= s.clock
    ensures var docs' := SetBatch(s.docs, b, Confirmed);
            && Extends(s.docs, docs') && Extends(docs', s.docs) && docs'.leaf == s.docs.leaf
            && (forall c :: 0 <= c < |s.docs.batches| ==>
                  docs'.batches[c].revokedLeafCount == s.docs.batches[c].revokedLeafCount)
            && StatesOk(docs', s.disputes) && WindowsOk(docs', s.clock, s.cfg.challengePeriod)
  {
    var docs' := SetBatch(s.docs, b, Confirmed);
    forall c, l ensures LeafAt(docs', c, l) == LeafAt(s.docs, c, l) {
    }
    forall l ensures !LeafAt(docs', b, l).LeafDisputed? {
      NoLeafDisputed(s, b, l);
    }
  }

  lemma FinalizeBatchKeeps(s: State, b: nat)
    requires Inv(s)
    ensures FinalizeBatch(s, b) != Revert(Panic)
    ensures FinalizeBatch(s, b).Ok? ==> Inv(FinalizeBatch(s, b).state)
  {
    hide Extends, CountsOk, BallotsOk, WindowsOk, FilesOk, NoncesOk, MoneyOk, KeysOk, TreesOk, StatesOk,
         EarlierSpurious, TargetsOk, ReleaseLeaves;
    if b < |s.docs.batches| && s.docs.batches[b].state.Provisional? {
      FinalizeBatchFiles(s, b);
      if s.docs.batches[b].submittedAt + s.cfg.challengePeriod <= s.clock && Get(s.batchOpen, b) == 0 {
        FinalizeBatchCase(s, b);
        var docs' := SetBatch(s.docs, b, Confirmed);
        StateChangeKeeps(s, docs');
        FinalizeCounts(s.docs, docs', s.disputes, s.relayActive, s.batchOpen);
      }
    }
  }

  // ---------- Attestations and expiries ----------

  lemma QuorumsSettled(quorum: nat, ds: seq<Dispute>, ds': seq<Dispute>, id: nat)
    requires QuorumsOk(quorum, ds) && id < |ds| == |ds'| && ds' == ds[id := ds'[id]]
    requires quorum > 0 ==> QuorumMet(quorum, ds'[id])
    ensures QuorumsOk(quorum, ds')
  {
    forall i | 0 <= i < |ds'| && i != id ensures ds'[i] == ds[i] {
    }
  }

  /** A vote, with whatever verdict it triggers, keeps the invariant and never fails on a counter. */
  lemma AttestationKeeps(s: State, id: nat, isFraud: bool, signer: Option<Address>)
    requires Inv(s)
    ensures SubmitAttestation(s, id, isFraud, signer) != Revert(Panic)
    ensures SubmitAttestation(s, id, isFraud, signer).Ok? ==> Inv(SubmitAttestation(s, id, isFraud, signer).state)
  {
    hide Core, QuorumsOk, ResolveFraud, ResolveSpurious, Revoke, Reinstate, FraudPayout, SpuriousPayout, Filed;
    if !s.locked && id < |s.disputes| && s.disputes[id].verdict.Open? && signer.Some?
       && Exists(s.docs, s.disputes[id].target) && signer.value != RelayOf(s.docs, s.disputes[id].target)
       && (id, signer.value) !in s.attested
    {
      VoteKeeps(s, id, isFraud, signer.value);
      var s1 := Vote(s, id, isFraud, signer.value);
      FraudKeeps(s1, id);
      SpuriousKeeps(s1, id);
      VerdictQuorum(s, id, isFraud, signer.value);
    }
  }

  lemma SettledDisputes(s: State, id: nat)
    requires id < |s.disputes|
    ensures ResolveFraud(s, id).Ok? ==>
              var s' := ResolveFraud(s, id).state;
              s'.cfg == s.cfg && s'.disputes == s.disputes[id := s.disputes[id].(verdict := Fraud)]
    ensures ResolveSpurious(s, id).Ok? ==>
              var s' := ResolveSpurious(s, id).state;
              s'.cfg == s.cfg && s'.disputes == s.disputes[id := s.disputes[id].(verdict := Spurious)]
  {
  }

  /** The vote that reaches the quorum reaches it exactly, and only on its own side. */
  lemma VerdictQuorum(s: State, id: nat, isFraud: bool, v: Address)
    requires QuorumsOk(s.cfg.quorum, s.disputes) && id < |s.disputes| && s.disputes[id].verdict.Open?
    ensures var s1 := Vote(s, id, isFraud, v);
            var d := s1.disputes[id];
            var q := s.cfg.quorum;
            if |d.fraudAttesters| >= q then
              ResolveFraud(s1, id).Ok? ==>
                  ResolveFraud(s1, id).state.cfg == s.cfg && QuorumsOk(q, ResolveFraud(s1, id).state.disputes)
            else if |d.validAttesters| >= q then
              ResolveSpurious(s1, id).Ok? ==>
                  ResolveSpurious(s1, id).state.cfg == s.cfg && QuorumsOk(q, ResolveSpurious(s1, id).state.disputes)
            else QuorumsOk(q, s1.disputes)
  {
    hide QuorumsOk, ResolveFraud, ResolveSpurious;
    var s1 := Vote(s, id, isFraud, v);
    var d := s1.disputes[id];
    var q := s.cfg.quorum;
    SettledDisputes(s1, id);
    OpenBelowQuorum(s, id);
    var verdict := if |d.fraudAttesters| >= q then Fraud else if |d.validAttesters| >= q then Spurious else Open;
    QuorumsSettled(q, s.disputes, s.disputes[id := d.(verdict := verdict)], id);
    assert s1.disputes[id := d.(verdict := verdict)] == s.disputes[id := d.(verdict := verdict)];
  }

  lemma OpenBelowQuorum(s: State, id: nat)
    requires QuorumsOk(s.cfg.quorum, s.disputes) && id < |s.disputes| && s.disputes[id].verdict.Open?
    ensures s.cfg.quorum > 0 ==> QuorumMet(s.cfg.quorum, s.disputes[id])
  {
  }

  lemma ExpireKeeps(s: State, id: nat)
    requires Inv(s)
    ensures ExpireDispute(s, id) != Revert(Panic)
    ensures ExpireDispute(s, id).Ok? ==> Inv(ExpireDispute(s, id).state)
  {
    hide Core, QuorumsOk, Revoke, ExpiryPayout, CanRelease, Release;
    if id < |s.disputes| && s.disputes[id].verdict.Open? {
      ExpiryKeeps(s, id);
      OpenBelowQuorum(s, id);
      QuorumsSettled(s.cfg.quorum, s.disputes, s.disputes[id := s.disputes[id].(verdict := Expired)], id);
    }
  }

  // ---------- Stakes, payments, identities ----------

  lemma StakeRelayKeeps(s: State, a: Address, value: nat)
    requires Inv(s)
    ensures StakeRelay(s, a, value).Ok? ==> Inv(StakeRelay(s, a, value).state)
  {
    hide NoncesOk, KeysOk, CaseOk, CountsOk, BallotsOk, WindowsOk, TreesOk, FilesOk, QuorumsOk, MoneyOk, RosterOk,
         Credit;
    StakeMoney(s.bank, s.disputes, a, value);
  }

  lemma UnstakeRelayKeeps(s: State, a: Address)
    requires Inv(s)
    ensures UnstakeRelay(s, a).Ok? ==> Inv(UnstakeRelay(s, a).state)
  {
    hide NoncesOk, KeysOk, CaseOk, CountsOk, BallotsOk, WindowsOk, TreesOk, FilesOk, QuorumsOk, MoneyOk, RosterOk,
         Credit;
    UnstakeMoney(s.bank, s.disputes, a);
  }

  lemma StakeVerifierKeeps(s: State, a: Address, value: nat)
    requires Inv(s)
    ensures StakeVerifier(s, a, value).Ok? ==> Inv(StakeVerifier(s, a, value).state)
  {
    hide NoncesOk, KeysOk, CaseOk, CountsOk, BallotsOk, WindowsOk, TreesOk, FilesOk, QuorumsOk, MoneyOk, RosterOk,
         Credit;
    StakeMoney(s.bank, s.disputes, a, value);
    if a !in s.roster.registered {
      EnlistKeeps(s.roster, a);
    }
  }

  lemma UnstakeVerifierKeeps(s: State, a: Address)
    requires Inv(s)
    ensures UnstakeVerifier(s, a).Ok? ==> Inv(UnstakeVerifier(s, a).state)
  {
    hide NoncesOk, KeysOk, CaseOk, CountsOk, BallotsOk, WindowsOk, TreesOk, FilesOk, QuorumsOk, MoneyOk, RosterOk,
         Credit;
    UnstakeMoney(s.bank, s.disputes, a);
  }

  lemma DeregisterKeeps(s: State, a: Address)
    requires Inv(s)
    ensures DeregisterVerifier(s, a) != Revert(Panic)
    ensures DeregisterVerifier(s, a).Ok? ==> Inv(DeregisterVerifier(s, a).state)
  {
    hide NoncesOk, KeysOk, CaseOk, CountsOk, BallotsOk, WindowsOk, TreesOk, FilesOk, QuorumsOk, MoneyOk, RosterOk;
    if a in s.roster.registered {
      DischargeRemoves(s.roster, a);
    }
  }

  /** The registry only ever adds DIDs with fresh keys and flips activity. */
  lemma DidSteps(dids: DR.Directory, a: Address, did: Hash, key: seq<Byte>, now: nat)
    requires now > 0
    ensures DR.Register(dids, a, did, key, now).Ok? ==> DR.Extends(dids, DR.Register(dids, a, did, key, now).state)
    ensures DR.Deactivate(dids, a, did).Ok? ==> DR.Extends(dids, DR.Deactivate(dids, a, did).state)
    ensures DR.Dated(dids) && DR.Register(dids, a, did, key, now).Ok? ==>
        DR.Dated(DR.Register(dids, a, did, key, now).state)
    ensures DR.Dated(dids) && DR.Deactivate(dids, a, did).Ok? ==> DR.Dated(DR.Deactivate(dids, a, did).state)
  {
  }

  lemma KeysKept(dids: DR.Directory, dids': DR.Directory, docs: Docs)
    requires KeysOk(dids, docs) && DR.Extends(dids, dids') && DR.Dated(dids')
    ensures KeysOk(dids', docs)
  {
    forall i | 0 <= i < |docs.records| ensures KeyOk(dids', docs.records[i]) {
      assert KeyOk(dids, docs.records[i]);
    }
  }

  lemma DidsKeep(dids: DR.Directory, docs: Docs, a: Address, did: Hash, key: seq<Byte>, now: nat)
    requires KeysOk(dids, docs) && now > 0
    ensures DR.Register(dids, a, did, key, now).Ok? ==> KeysOk(DR.Register(dids, a, did, key, now).state, docs)
    ensures DR.Deactivate(dids, a, did).Ok? ==> KeysOk(DR.Deactivate(dids, a, did).state, docs)
  {
    DidSteps(dids, a, did, key, now);
    var r, d := DR.Register(dids, a, did, key, now), DR.Deactivate(dids, a, did);
    if r.Ok? {
      KeysKept(dids, r.state, docs);
    }
    if d.Ok? {
      KeysKept(dids, d.state, docs);
    }
  }

  lemma IdentityKeeps(s: State, a: Address, did: Hash, key: seq<Byte>)
    requires Inv(s)
    ensures Step(s, RegisterDidCall(a, did, key)) != Revert(Panic)
        && Step(s, DeactivateDidCall(a, did)) != Revert(Panic)
    ensures Step(s, RegisterDidCall(a, did, key)).Ok? ==> Inv(Step(s, RegisterDidCall(a, did, key)).state)
    ensures Step(s, DeactivateDidCall(a, did)).Ok? ==> Inv(Step(s, DeactivateDidCall(a, did)).state)
  {
    hide NoncesOk, KeysOk, CaseOk, CountsOk, BallotsOk, WindowsOk, TreesOk, FilesOk, QuorumsOk, MoneyOk, RosterOk;
    DidsKeep(s.dids, s.docs, a, did, key, s.clock);
  }

  lemma LeafAdmissible(s: State, b: nat, l: nat)
    requires b < |s.docs.batches| && l < s.docs.batches[b].leafCount && s.docs.batches[b].state.Provisional?
    requires !LeafAt(s.docs, b, l).LeafDisputed? && !LeafAt(s.docs, b, l).LeafRevoked?
    ensures Exists(s.docs, LeafTarget(b, l)) && Disputable(s.docs, LeafTarget(b, l))
  {
  }

  lemma OpeningsKeep(s: State, c: Call)
    requires Inv(s) && (c.OpenDisputeCall? || c.OpenBatchLeafDisputeCall?)
    ensures Step(s, c) != Revert(Panic)
    ensures Step(s, c).Ok? ==> Inv(Step(s, c).state)
  {
    hide Inv, Fold, Admit;
    var out := Step(s, c);
    match c
    case OpenDisputeCall(a, v, i) =>
      if out.Ok? {
        AdmitKeeps(s, RecordTarget(i), a, v);
      }
    case OpenBatchLeafDisputeCall(a, v, b, l, claim, proof) =>
      if out.Ok? {
        LeafAdmissible(s, b, l);
        AdmitKeeps(s, LeafTarget(b, l), a, v);
      }
    case _ =>
  }

  // ---------- Every call ----------

  /** What no call changes: the configuration, the block time, and (once it returns) the guard. */
  predicate SameFrame(s: State, s': State) {
    s'.cfg == s.cfg && s'.clock == s.clock && s'.locked == s.locked
  }

  lemma VerdictFrame(s: State, id: nat)
    requires id < |s.disputes|
    ensures ResolveFraud(s, id).Ok? ==> SameFrame(s, ResolveFraud(s, id).state)
    ensures ResolveSpurious(s, id).Ok? ==> SameFrame(s, ResolveSpurious(s, id).state)
  {
    hide CanRelease, CanClose, Release, FraudPayout, SpuriousPayout, Revoke, Reinstate, Filed;
  }

  lemma DisputeFrame(s: State, id: nat, isFraud: bool, signer: Option<Address>)
    ensures SubmitAttestation(s, id, isFraud, signer).Ok? ==>
        SameFrame(s, SubmitAttestation(s, id, isFraud, signer).state)
    ensures ExpireDispute(s, id).Ok? ==> SameFrame(s, ExpireDispute(s, id).state)
  {
    hide ResolveFraud, ResolveSpurious, CanRelease, CanClose, Release, ExpiryPayout, Revoke;
    if SubmitAttestation(s, id, isFraud, signer).Ok? {
      VerdictFrame(Vote(s, id, isFraud, signer.value), id);
    }
  }

  lemma DocumentFrame(s: State, c: Call)
    requires c.SubmitAccountableCall? || c.FinalizeRecordCall? || c.SubmitBatchCall? || c.FinalizeBatchCall?
          || c.OpenDisputeCall? || c.OpenBatchLeafDisputeCall?
    ensures Step(s, c).Ok? ==> SameFrame(s, Step(s, c).state)
  {
    hide CanRelease, Release, ReleaseLeaves, Fold, BatchLeaves, Root, Bumped, SetRecord, SetBatch;
  }

  lemma StepFrame(s: State, c: Call)
    requires !c.WithdrawCall? && Step(s, c).Ok?
    ensures SameFrame(s, Step(s, c).state)
  {
    hide SubmitAccountable, FinalizeRecord, SubmitBatch, FinalizeBatch, OpenDispute, OpenBatchLeafDispute,
         SubmitAttestation, ExpireDispute, Credit;
    match c
    case SubmitAttestationCall(id, isFraud, signer) => DisputeFrame(s, id, isFraud, signer);
    case ExpireDisputeCall(id) => DisputeFrame(s, id, false, None);
    case SubmitAccountableCall(_, _, _, _) => DocumentFrame(s, c);
    case FinalizeRecordCall(_) => DocumentFrame(s, c);
    case SubmitBatchCall(_, _, _, _) => DocumentFrame(s, c);
    case FinalizeBatchCall(_) => DocumentFrame(s, c);
    case OpenDisputeCall(_, _, _) => DocumentFrame(s, c);
    case OpenBatchLeafDisputeCall(_, _, _, _, _, _) => DocumentFrame(s, c);
    case _ =>
  }

  lemma PlainStepKeeps(s: State, c: Call)
    requires Inv(s) && !c.WithdrawCall?
    ensures Step(s, c) != Revert(Panic)
    ensures Step(s, c).Ok? ==> Inv(Step(s, c).state)
  {
    hide Inv, StakeRelay, UnstakeRelay, StakeVerifier, UnstakeVerifier, DeregisterVerifier, SubmitAccountable,
         SubmitBatch, FinalizeRecord, FinalizeBatch, OpenDispute, OpenBatchLeafDispute, SubmitAttestation,
         ExpireDispute;
    match c
    case StakeRelayCall(a, v) => StakeRelayKeeps(s, a, v); StepErrors(s, c);
    case AnnounceUnstakeCall(a) => AnnouncementsKeep(s, a);
    case UnstakeRelayCall(a) => UnstakeRelayKeeps(s, a); StepErrors(s, c);
    case StakeVerifierCall(a, v) => StakeVerifierKeeps(s, a, v); StepErrors(s, c);
    case AnnounceVerifierUnstakeCall(a) => AnnouncementsKeep(s, a);
    case UnstakeVerifierCall(a) => UnstakeVerifierKeeps(s, a); StepErrors(s, c);
    case DeregisterVerifierCall(a) => DeregisterKeeps(s, a);
    case SubmitAccountableCall(a, h, d, sig) =>
      StepErrors(s, c);
      if Step(s, c).Ok? { SubmitAccountableKeeps(s, a, h, d, sig); }
    case FinalizeRecordCall(i) => FinalizeRecordKeeps(s, i);
    case SubmitBatchCall(a, ds, hs, av) =>
      StepErrors(s, c);
      if Step(s, c).Ok? { SubmitBatchKeeps(s, a, ds, hs, av); }
    case FinalizeBatchCall(b) => FinalizeBatchKeeps(s, b);
    case OpenDisputeCall(_, _, _) => OpeningsKeep(s, c);
    case OpenBatchLeafDisputeCall(_, _, _, _, _, _) => OpeningsKeep(s, c);
    case SubmitAttestationCall(id, fraud, signer) => AttestationKeeps(s, id, fraud, signer);
    case ExpireDisputeCall(id) => ExpireKeeps(s, id);
    case RegisterDidCall(a, d, k) => IdentityKeeps(s, a, d, k);
    case DeactivateDidCall(a, d) => IdentityKeeps(s, a, d, []);
  }

  lemma AnnouncementsKeep(s: State, a: Address)
    requires Inv(s)
    ensures AnnounceUnstake(s, a) != Revert(Panic) && AnnounceVerifierUnstake(s, a) != Revert(Panic)
    ensures AnnounceUnstake(s, a).Ok? ==> Inv(AnnounceUnstake(s, a).state)
    ensures AnnounceVerifierUnstake(s, a).Ok? ==> Inv(AnnounceVerifierUnstake(s, a).state)
  {
    hide NoncesOk, KeysOk, CaseOk, CountsOk, BallotsOk, WindowsOk, TreesOk, FilesOk, QuorumsOk, MoneyOk, RosterOk;
  }

  /** Calls without internal subtractions cannot panic at all. */
  lemma StepErrors(s: State, c: Call)
    requires c.StakeRelayCall? || c.UnstakeRelayCall? || c.StakeVerifierCall? || c.UnstakeVerifierCall?
          || c.SubmitAccountableCall? || c.SubmitBatchCall?
    ensures Step(s, c) != Revert(Panic)
  {
    hide Root, BatchLeaves, Bumped, Credit;
  }

  /** Every call keeps the invariant, a withdrawal with all its re-entrant calls
      included, and no call ever fails on a counter or stake subtraction. */
  lemma {:induction false} StepKeeps(s: State, c: Call)
    requires Inv(s)
    ensures Step(s, c) != Revert(Panic)
    ensures Step(s, c).Ok? ==> Inv(Step(s, c).state) && SameFrame(s, Step(s, c).state)
    decreases c, 1
  {
    hide Inv;
    match c
    case WithdrawCall(a, inner, ok) =>
      if Step(s, c).Ok? {
        PaysOutSafely(s, a);
        AfterAllKeeps(s.(locked := true, bank := PaidOut(s.bank, a)), inner);
        GuardFree(AfterAll(s.(locked := true, bank := PaidOut(s.bank, a)), inner), false);
      }
    case _ =>
      PlainStepKeeps(s, c);
      if Step(s, c).Ok? {
        StepFrame(s, c);
      }
  }

  /** The guard is no part of the invariant. */
  lemma GuardFree(s: State, locked: bool)
    requires Inv(s)
    ensures Inv(s.(locked := locked))
  {
    hide NoncesOk, KeysOk, CaseOk, CountsOk, BallotsOk, WindowsOk, TreesOk, FilesOk, QuorumsOk, MoneyOk, RosterOk;
  }

  /** At the external call of a withdrawal the whole invariant already holds, and the payment is covered. */
  lemma PaysOutSafely(s: State, a: Address)
    requires Inv(s)
    ensures Get(s.bank.pending, a) <= s.bank.balance
    ensures Inv(s.(locked := true, bank := PaidOut(s.bank, a)))
  {
    hide NoncesOk, KeysOk, CaseOk, CountsOk, BallotsOk, WindowsOk, TreesOk, FilesOk, QuorumsOk, MoneyOk, RosterOk,
         PaidOut;
    PaidOutMoney(s.bank, s.disputes, a);
  }

  lemma {:induction false} AfterAllKeeps(s: State, cs: seq<Call>)
    requires Inv(s)
    ensures Inv(AfterAll(s, cs)) && SameFrame(s, AfterAll(s, cs))
    decreases cs, 0
  {
    hide Inv;
    if cs != [] {
      StepKeeps(s, cs[0]);
      AfterAllKeeps(After(s, cs[0]), cs[1..]);
    }
  }

  // ---------- Every run ----------

  lemma ExecKeeps(s: State, tx: Tx)
    requires Inv(s) && s.clock <= tx.now
    ensures Inv(Exec(s, tx)) && Exec(s, tx).clock == tx.now && Exec(s, tx).cfg == s.cfg
        && Exec(s, tx).locked == s.locked
  {
    hide Inv;
    TimePasses(s, tx.now);
    StepKeeps(s.(clock := tx.now), tx.call);
  }

  lemma {:induction false} RunKeeps(s: State, txs: seq<Tx>)
    requires Inv(s) && Timely(s.clock, txs)
    ensures Inv(Run(s, txs)) && Run(s, txs).cfg == s.cfg && Run(s, txs).locked == s.locked
    decreases |txs|
  {
    hide Inv;
    if txs != [] {
      ExecKeeps(s, txs[0]);
      RunKeeps(Exec(s, txs[0]), txs[1..]);
    }
  }

  lemma StepTaken(s: State, tx: Tx)
    ensures var o := Step(s.(clock := tx.now), tx.call);
            Exec(s, tx) == if o.Ok? then o.state else s.(clock := tx.now)
  {
  }

  lemma {:induction false} RunAppend(s: State, xs: seq<Tx>, ys: seq<Tx>)
    ensures Run(s, xs + ys) == Run(Run(s, xs), ys)
    decreases |xs|
  {
    if xs == [] {
      assert xs + ys == ys;
    } else {
      RunAppend(Exec(s, xs[0]), xs[1..], ys);
      assert (xs + ys)[1..] == xs[1..] + ys;
    }
  }

  lemma RunOne(s: State, tx: Tx)
    ensures Run(s, [tx]) == Exec(s, tx)
  {
    assert Run(s, [tx]) == Run(Exec(s, tx), [tx][1..]);
  }

  lemma {:induction false} TimelyAppend(s: State, xs: seq<Tx>, ys: seq<Tx>)
    requires Inv(s) && Timely(s.clock, xs) && Timely(Run(s, xs).clock, ys)
    ensures Timely(s.clock, xs + ys)
    decreases |xs|
  {
    hide Inv;
    if xs == [] {
      assert xs + ys == ys;
    } else {
      ExecKeeps(s, xs[0]);
      TimelyAppend(Exec(s, xs[0]), xs[1..], ys);
      assert (xs + ys)[1..] == xs[1..] + ys;
    }
  }

  /** A state some run from a deployment reaches. */
  ghost predicate Reachable(s: State) {
    exists s0, txs :: Init(s0) && Timely(s0.clock, txs) && s == Run(s0, txs)
  }

  lemma ReachableInv(s: State)
    requires Reachable(s)
    ensures Inv(s) && !s.locked
  {
    hide Inv, Run, Timely;
    var s0, txs :| Init(s0) && Timely(s0.clock, txs) && s == Run(s0, txs);
    InitInv(s0);
    hide Init;
    RunKeeps(s0, txs);
  }
}
