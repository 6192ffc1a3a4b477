/** Disputes, votes and finalization: when each call is taken or refused, and all it moves. */
module DisputeEffects {
  import opened Common
  import opened Merkle
  import opened Docket
  import opened DocketFacts
  import opened Treasury
  import opened Exposure
  import opened ExposureFacts
  import opened Protocol
  import opened Invariants
  import opened DisputeSteps
  import opened Preservation
  import opened Verdicts
  import opened Theorems

  /** `docs'` is `docs` with one target in a new state: a record in state `r`, a leaf in
      state `l`. A batch counts its leaf when it is revoked; nothing else changes. */
  ghost predicate Moved(docs: Docs, docs': Docs, t: Target, r: RecordState, l: LeafState) {
    && |docs'.records| == |docs.records| && |docs'.batches| == |docs.batches|
    && (forall i :: 0 <= i < |docs.records| ==>
          docs'.records[i] == if t == RecordTarget(i) then docs.records[i].(state := r) else docs.records[i])
    && (forall b, k :: LeafAt(docs', b, k) == if t == LeafTarget(b, k) then l else LeafAt(docs, b, k))
    && (forall b :: 0 <= b < |docs.batches| ==>
          var batch := docs.batches[b];
          var count := batch.revokedLeafCount + (if t.LeafTarget? && t.batch == b && l.LeafRevoked? then 1 else 0);
          docs'.batches[b] == batch.(revokedLeafCount := count))
  }

  lemma MarkMoves(docs: Docs, t: Target)
    requires Exists(docs, t)
    ensures Moved(docs, MarkDisputed(docs, t), t, Disputed, LeafDisputed)
    ensures Moved(docs, Reinstate(docs, t), t, Provisional, Upheld)
    ensures (t.LeafTarget? ==> !LeafAt(docs, t.batch, t.leaf).LeafRevoked?) ==>
              Moved(docs, Revoke(docs, t), t, Revoked, LeafRevoked)
  {
  }

  // ---------- Opening ----------

  /** All that admitting a dispute does: the bond is received in full, the new open dispute
      names its target, its challenger and the whole bond, and the target is under dispute. */
  ghost predicate Opens(s: State, e: State, t: Target, a: Address, value: nat) {
    && e.disputes == s.disputes +
                     [Dispute(t, a, value, s.clock, s.clock + s.cfg.challengePeriod, [], [], Open)]
    && e.bank == s.bank.(balance := s.bank.balance + value)
    && Moved(s.docs, e.docs, t, Disputed, LeafDisputed)
    && e == s.(bank := e.bank, docs := e.docs, disputes := e.disputes,
               relayActive := e.relayActive, batchOpen := e.batchOpen)
  }

  lemma AdmitOpens(s: State, t: Target, a: Address, value: nat)
    requires Exists(s.docs, t)
    ensures Opens(s, Admit(s, t, a, value), t, a, value)
  {
    MarkMoves(s.docs, t);
    hide Moved, MarkDisputed;
  }

  /** A dispute on a record is taken exactly with the full bond, on an existing provisional record. */
  lemma RecordDisputeTaken(s: State, a: Address, value: nat, i: nat)
    ensures Step(s, OpenDisputeCall(a, value, i)) == OpenDispute(s, a, value, i)
    ensures OpenDispute(s, a, value, i) == Revert(InsufficientBond) <==> value < s.cfg.challengerBondAmount
    ensures OpenDispute(s, a, value, i) == Revert(OutOfBounds) <==>
              value >= s.cfg.challengerBondAmount && i >= |s.docs.records|
    ensures OpenDispute(s, a, value, i) == Revert(NothingToFinalize) <==>
              value >= s.cfg.challengerBondAmount && i < |s.docs.records| && !s.docs.records[i].state.Provisional?
    ensures OpenDispute(s, a, value, i).Ok? <==>
              value >= s.cfg.challengerBondAmount && i < |s.docs.records| && s.docs.records[i].state.Provisional?
    ensures OpenDispute(s, a, value, i).Ok? ==> Opens(s, OpenDispute(s, a, value, i).state, RecordTarget(i), a, value)
  {
    hide Admit, Opens;
    if i < |s.docs.records| {
      AdmitOpens(s, RecordTarget(i), a, value);
    }
  }

  /** The refusals of a leaf dispute, in the order they are raised, and its effect. */
  lemma LeafDisputeTaken(s: State, a: Address, value: nat, b: nat, l: nat, claim: LeafClaim, proof: seq<Hash>)
    ensures Step(s, OpenBatchLeafDisputeCall(a, value, b, l, claim, proof)) ==
            OpenBatchLeafDispute(s, a, value, b, l, claim, proof)
    ensures OpenBatchLeafDispute(s, a, value, b, l, claim, proof) == Revert(InsufficientBond) <==>
              value < s.cfg.challengerBondAmount
    ensures OpenBatchLeafDispute(s, a, value, b, l, claim, proof) == Revert(OutOfBounds) <==>
              value >= s.cfg.challengerBondAmount && b >= |s.docs.batches|
    ensures OpenBatchLeafDispute(s, a, value, b, l, claim, proof) == Revert(NothingToFinalize) <==>
              value >= s.cfg.challengerBondAmount && b < |s.docs.batches| && !s.docs.batches[b].state.Provisional?
    ensures OpenBatchLeafDispute(s, a, value, b, l, claim, proof) == Revert(LeafNotDisputable) <==>
              && value >= s.cfg.challengerBondAmount && b < |s.docs.batches| && s.docs.batches[b].state.Provisional?
              && l < s.docs.batches[b].leafCount && LeafAt(s.docs, b, l) in {LeafDisputed, LeafRevoked}
    ensures OpenBatchLeafDispute(s, a, value, b, l, claim, proof).Revert? ==>
              OpenBatchLeafDispute(s, a, value, b, l, claim, proof).error in
                {InsufficientBond, OutOfBounds, NothingToFinalize, LeafNotDisputable, BadMerkleProof}
    ensures OpenBatchLeafDispute(s, a, value, b, l, claim, proof).Ok? ==>
              Opens(s, OpenBatchLeafDispute(s, a, value, b, l, claim, proof).state, LeafTarget(b, l), a, value)
  {
    hide Admit, Opens, Fold;
    if b < |s.docs.batches| && l < s.docs.batches[b].leafCount {
      AdmitOpens(s, LeafTarget(b, l), a, value);
    }
  }

  // ---------- Voting ----------

  /** What a vote does to its dispute: it joins its own side's list, and the verdict is
      fraud once the fraud side holds a quorum, else spurious once the valid side does. */
  ghost predicate VoteJoins(d: Dispute, d': Dispute, isFraud: bool, v: Address, quorum: nat) {
    && d'.fraudAttesters == d.fraudAttesters + (if isFraud then [v] else [])
    && d'.validAttesters == d.validAttesters + (if isFraud then [] else [v])
    && d'.verdict == (if |d'.fraudAttesters| >= quorum then Fraud
                      else if |d'.validAttesters| >= quorum then Spurious else Open)
    && d' == d.(fraudAttesters := d'.fraudAttesters, validAttesters := d'.validAttesters, verdict := d'.verdict)
  }

  /** All that a successful attestation does to the disputes, the flags and the documents. */
  lemma AttestationEffect(s: State, id: nat, isFraud: bool, signer: Option<Address>)
    requires Inv(s) && SubmitAttestation(s, id, isFraud, signer).Ok?
    ensures id < |s.disputes| && signer.Some?
    ensures var e, v := SubmitAttestation(s, id, isFraud, signer).state, signer.value;
            && |e.disputes| == |s.disputes|
            && VoteJoins(s.disputes[id], e.disputes[id], isFraud, v, s.cfg.quorum)
            && (forall k :: 0 <= k < |s.disputes| && k != id ==> e.disputes[k] == s.disputes[k])
            && e.attested == s.attested + {(id, v)}
            && (match e.disputes[id].verdict
                case Open => e == s.(disputes := e.disputes, attested := e.attested)
                case Fraud => Moved(s.docs, e.docs, s.disputes[id].target, Revoked, LeafRevoked)
                case Spurious => Moved(s.docs, e.docs, s.disputes[id].target, Provisional, Upheld)
                case Expired => false)
            && e == s.(disputes := e.disputes, attested := e.attested, docs := e.docs, bank := e.bank, reg := e.reg,
                       relayActive := e.relayActive, batchOpen := e.batchOpen)
  {
    hide Core, QuorumsOk, ResolveFraud, ResolveSpurious, Moved;
    AttestationEnabled(s, id, isFraud, signer);
    OpenTarget(s, id);
    MarkMoves(s.docs, s.disputes[id].target);
    VerdictEffect(Vote(s, id, isFraud, signer.value), id);
  }

  lemma VerdictEffect(s: State, id: nat)
    requires id < |s.disputes|
    ensures ResolveFraud(s, id).Ok? || ResolveSpurious(s, id).Ok? ==> Exists(s.docs, s.disputes[id].target)
    ensures ResolveFraud(s, id).Ok? ==>
              var e := ResolveFraud(s, id).state;
              && e.disputes == s.disputes[id := s.disputes[id].(verdict := Fraud)]
              && e.docs == Revoke(s.docs, s.disputes[id].target)
              && e == s.(disputes := e.disputes, docs := e.docs, bank := e.bank, reg := e.reg,
                         relayActive := e.relayActive, batchOpen := e.batchOpen)
    ensures ResolveSpurious(s, id).Ok? ==>
              var e := ResolveSpurious(s, id).state;
              && e.disputes == s.disputes[id := s.disputes[id].(verdict := Spurious)]
              && e.docs == Reinstate(s.docs, s.disputes[id].target)
              && e == s.(disputes := e.disputes, docs := e.docs, bank := e.bank, reg := e.reg,
                         relayActive := e.relayActive, batchOpen := e.batchOpen)
  {
    hide CanRelease, CanClose, Release, Filed, Revoke, Reinstate, FraudPayout, SpuriousPayout;
  }

  /** The money of an attestation that decides fraud, account by account, from the state before it. */
  lemma AttestationProvesFraud(s: State, id: nat, isFraud: bool, signer: Option<Address>) returns (wrong: seq<Address>)
    requires Inv(s) && SubmitAttestation(s, id, isFraud, signer).Ok? && id < |s.disputes|
    requires SubmitAttestation(s, id, isFraud, signer).state.disputes[id].verdict.Fraud?
    ensures Exists(s.docs, s.disputes[id].target)
    ensures var e := SubmitAttestation(s, id, isFraud, signer).state;
            var d, relay := e.disputes[id], RelayOf(s.docs, s.disputes[id].target);
            && NoDup(wrong) && Elems(wrong) == AllVoters(e.disputes, d.target) && relay !in wrong
            && (forall a :: FraudTakes(s.cfg, s.bank, e.bank, wrong, relay, a))
            && (forall a :: Get(e.bank.pending, a) ==
                            Get(s.bank.pending, a) + FraudCredit(s.cfg, s.bank, wrong, relay, d, a))
  {
    hide Core, QuorumsOk, ResolveFraud, ResolveSpurious, FraudTakes, FraudCredit, AllVoters;
    AttestationEnabled(s, id, isFraud, signer);
    VoteKeeps(s, id, isFraud, signer.value);
    var s1 := Vote(s, id, isFraud, signer.value);
    VerdictEffect(s1, id);
    wrong := FraudVerdict(s1, id);
    CreditIgnoresVerdict(s.cfg, s.bank, wrong, RelayOf(s.docs, s.disputes[id].target), s1.disputes[id]);
  }

  lemma CreditIgnoresVerdict(cfg: Config, b: Bank, wrong: seq<Address>, relay: Address, d: Dispute)
    ensures forall a :: FraudCredit(cfg, b, wrong, relay, d.(verdict := Fraud), a) ==
                        FraudCredit(cfg, b, wrong, relay, d, a)
  {
  }

  /** The refusals of an attestation, in the order they are raised. */
  lemma AttestationRefused(s: State, id: nat, isFraud: bool, signer: Option<Address>)
    requires Inv(s)
    ensures Step(s, SubmitAttestationCall(id, isFraud, signer)) == SubmitAttestation(s, id, isFraud, signer)
    ensures var o := SubmitAttestation(s, id, isFraud, signer);
            && (o == Revert(Reentrant) <==> s.locked)
            && (o == Revert(OutOfBounds) <==> !s.locked && id >= |s.disputes|)
            && (o == Revert(NoDisputeOpen) <==>
                  && !s.locked && id < |s.disputes|
                  && !(s.disputes[id].verdict.Open? && s.clock <= s.disputes[id].deadline))
            && (!s.locked && id < |s.disputes| && s.disputes[id].verdict.Open? && s.clock <= s.disputes[id].deadline ==>
                  && (o == Revert(BadAttestation) <==> signer.None?)
                  && (signer.Some? ==>
                        var v := signer.value;
                        var full := v in s.roster.members && Get(s.bank.verifierStake, v) >= s.cfg.verifierStakeAmount;
                        && Exists(s.docs, s.disputes[id].target)
                        && (o == Revert(NotRegisteredVerifier) <==> !full)
                        && (o == Revert(ConflictOfInterest) <==> full && v == RelayOf(s.docs, s.disputes[id].target))
                        && (o == Revert(DuplicateAttestation) <==>
                              && full && v != RelayOf(s.docs, s.disputes[id].target)
                              && v in s.disputes[id].fraudAttesters + s.disputes[id].validAttesters)))
  {
    hide Core, ResolveFraud, ResolveSpurious, QuorumsOk;
    AttestationEnabled(s, id, isFraud, signer);
    SeatsAgree(s);
    if id < |s.disputes| {
      DeadlinePositive(s, id);
      if signer.Some? {
        AttestedIsVoted(s, id, signer.value);
        if s.disputes[id].verdict.Open? && MayAttest(s, id, signer.value) {
          VoteCounts(s, id, isFraud, signer.value);
        }
      }
    }
  }

  lemma SeatsAgree(s: State)
    requires Core(s)
    ensures forall v :: v in s.roster.registered <==> v in s.roster.members
  {
  }

  // ---------- Expiry and finalization ----------

  /** All that an expiry does to the disputes and the documents, and its refusals. */
  lemma ExpiryEffect(s: State, id: nat)
    requires Inv(s)
    ensures Step(s, ExpireDisputeCall(id)) == ExpireDispute(s, id)
    ensures ExpireDispute(s, id) == Revert(Reentrant) <==> s.locked
    ensures ExpireDispute(s, id) == Revert(OutOfBounds) <==> !s.locked && id >= |s.disputes|
    ensures ExpireDispute(s, id) == Revert(AlreadyResolved) <==>
              !s.locked && id < |s.disputes| && !s.disputes[id].verdict.Open?
    ensures ExpireDispute(s, id) == Revert(ChallengeWindowOpen) <==>
              !s.locked && id < |s.disputes| && s.disputes[id].verdict.Open? && s.clock <= s.disputes[id].deadline
    ensures ExpireDispute(s, id).Ok? ==>
              var e := ExpireDispute(s, id).state;
              && id < |s.disputes| && e.disputes == s.disputes[id := s.disputes[id].(verdict := Expired)]
              && Moved(s.docs, e.docs, s.disputes[id].target, Revoked, LeafRevoked)
              && e == s.(disputes := e.disputes, docs := e.docs, bank := e.bank, reg := e.reg,
                         relayActive := e.relayActive, batchOpen := e.batchOpen)
  {
    hide Core, CanRelease, CanClose, Release, Revoke, ExpiryPayout, QuorumsOk, Moved;
    ExpiryEnabled(s, id);
    if id < |s.disputes| {
      DeadlinePositive(s, id);
      if s.disputes[id].verdict.Open? {
        OpenTarget(s, id);
        MarkMoves(s.docs, s.disputes[id].target);
      }
    }
  }

  /** Finalizing a record confirms it alone, and takes exactly one exposure from each
      verifier that stood up for it in a settled dispute. */
  lemma RecordFinalized(s: State, i: nat)
    requires Inv(s)
    ensures Step(s, FinalizeRecordCall(i)) == FinalizeRecord(s, i)
    ensures FinalizeRecord(s, i) == Revert(OutOfBounds) <==> i >= |s.docs.records|
    ensures FinalizeRecord(s, i) == Revert(NothingToFinalize) <==>
              i < |s.docs.records| && !s.docs.records[i].state.Provisional?
    ensures FinalizeRecord(s, i) == Revert(ChallengeWindowOpen) <==>
              && i < |s.docs.records| && s.docs.records[i].state.Provisional?
              && s.clock < s.docs.records[i].submittedAt + s.cfg.challengePeriod
    ensures FinalizeRecord(s, i).Ok? ==>
              var e := FinalizeRecord(s, i).state;
              && i < |s.docs.records| && Moved(s.docs, e.docs, RecordTarget(i), Confirmed, Undisputed)
              && (forall v :: Get(e.reg.exposures, v) == Get(s.reg.exposures, v) -
                              (if v in SettledVoters(s.disputes, RecordTarget(i)) then 1 else 0))
              && e == s.(docs := e.docs, reg := e.reg)
  {
    hide Inv, CanRelease, Release, SettledVoters;
    FinalizeRecordKeeps(s, i);
    FinalizationEnabled(s, i);
    if FinalizeRecord(s, i).Ok? {
      ReleasedOnce(s, RecordTarget(i));
    }
  }

  lemma ReleasedOnce(s: State, t: Target)
    requires Inv(s) && Exists(s.docs, t) && !Terminal(s.docs, t)
    ensures CanRelease(s.reg, t)
    ensures forall v :: Get(Release(s.reg, t).exposures, v) ==
                        Get(s.reg.exposures, v) - (if v in SettledVoters(s.disputes, t) then 1 else 0)
  {
    hide MoneyOk, NoncesOk, KeysOk, CaseOk, CountsOk, BallotsOk, WindowsOk, TreesOk, QuorumsOk, LeavesOk,
         SettledVoters;
    Releasable(s.reg, t);
    assert Live(s.reg, s.docs, s.disputes, t);
    forall v ensures Get(Release(s.reg, t).exposures, v) ==
                     Get(s.reg.exposures, v) - (if v in SettledVoters(s.disputes, t) then 1 else 0) {
      NoDupMultiplicity(ListOf(s.reg, t), v);
      assert v in Elems(ListOf(s.reg, t)) <==> v in ListOf(s.reg, t);
    }
  }

  /** Finalizing a batch confirms it alone and moves no money. */
  lemma BatchConfirmed(s: State, b: nat)
    requires Inv(s)
    ensures Step(s, FinalizeBatchCall(b)) == FinalizeBatch(s, b)
    ensures FinalizeBatch(s, b) == Revert(OutOfBounds) <==> b >= |s.docs.batches|
    ensures FinalizeBatch(s, b) == Revert(NothingToFinalize) <==>
              b < |s.docs.batches| && !s.docs.batches[b].state.Provisional?
    ensures FinalizeBatch(s, b) == Revert(ChallengeWindowOpen) <==>
              && b < |s.docs.batches| && s.docs.batches[b].state.Provisional?
              && s.clock < s.docs.batches[b].submittedAt + s.cfg.challengePeriod
    ensures FinalizeBatch(s, b) == Revert(OpenLeafDisputes) <==>
              && b < |s.docs.batches| && s.docs.batches[b].state.Provisional?
              && s.docs.batches[b].submittedAt + s.cfg.challengePeriod <= s.clock && OpenInBatch(s.disputes, b) != {}
    ensures FinalizeBatch(s, b).Ok? ==>
              var e := FinalizeBatch(s, b).state;
              && b < |s.docs.batches| && |e.docs.batches| == |s.docs.batches|
              && (forall c :: 0 <= c < |s.docs.batches| ==>
                    e.docs.batches[c] == if c == b then s.docs.batches[c].(state := Confirmed) else s.docs.batches[c])
              && e == s.(docs := s.docs.(batches := e.docs.batches), reg := e.reg)
  {
    hide Inv, ReleaseLeaves, OpenInBatch, SetBatch;
    FinalizeBatchKeeps(s, b);
    FinalizationEnabled(s, b);
    BatchOpenIs(s, b);
    if FinalizeBatch(s, b).Ok? {
      BatchConfirms(s, b);
    }
  }

  lemma BatchConfirms(s: State, b: nat)
    requires FinalizeBatch(s, b).Ok?
    ensures var e := FinalizeBatch(s, b).state;
            && b < |s.docs.batches| && |e.docs.batches| == |s.docs.batches|
            && (forall c :: 0 <= c < |s.docs.batches| ==>
                  e.docs.batches[c] == if c == b then s.docs.batches[c].(state := Confirmed) else s.docs.batches[c])
            && e == s.(docs := s.docs.(batches := e.docs.batches), reg := e.reg)
  {
    hide ReleaseLeaves;
  }
}
