/** What one state of a run promises every later one: outcomes are final,
    settled disputes and terminal targets are closed books, retained wei and
    nonces never shrink, and keys on file never change. */
module History {
  import opened Common
  import opened Merkle
  import opened Docket
  import opened DocketFacts
  import opened Treasury
  import opened Exposure
  import opened ExposureFacts
  import opened Protocol
  import opened Invariants
  import opened Money
  import opened DisputeSteps
  import opened Preservation
  import DR = DidRegistry

  // ---------- The relation ----------

  /** A dispute only gathers votes until it settles; then nothing about it changes. */
  predicate SameCase(d: Dispute, e: Dispute) {
    if d.verdict.Open? then
      && e.target == d.target && e.challenger == d.challenger && e.bond == d.bond
      && e.openedAt == d.openedAt && e.deadline == d.deadline
      && d.fraudAttesters <= e.fraudAttesters && d.validAttesters <= e.validAttesters
    else e == d
  }

  ghost predicate CasesLater(ds: seq<Dispute>, es: seq<Dispute>) {
    |ds| <= |es| && forall i :: 0 <= i < |ds| ==> SameCase(ds[i], es[i])
  }

  /** No dispute was opened since on a target that was terminal. */
  ghost predicate NoLateCases(docs: Docs, ds: seq<Dispute>, es: seq<Dispute>) {
    forall i :: |ds| <= i < |es| && Exists(docs, es[i].target) ==> !Terminal(docs, es[i].target)
  }

  /** Confirmed and revoked are final; so is every leaf of a confirmed batch. */
  ghost predicate FinalRecord(docs: Docs, docs': Docs, i: nat)
    requires i < |docs.records| && i < |docs'.records|
  {
    docs.records[i].state.Confirmed? || docs.records[i].state.Revoked? ==> docs'.records[i] == docs.records[i]
  }

  ghost predicate FinalLeaf(docs: Docs, docs': Docs, b: nat, l: nat) {
    && (LeafAt(docs, b, l).LeafRevoked? ==> LeafAt(docs', b, l).LeafRevoked?)
    && (b < |docs.batches| && docs.batches[b].state.Confirmed? ==> LeafAt(docs', b, l) == LeafAt(docs, b, l))
  }

  ghost predicate OutcomesLater(docs: Docs, docs': Docs) {
    && Extends(docs, docs')
    && (forall i :: 0 <= i < |docs.records| ==> FinalRecord(docs, docs', i))
    && (forall b :: 0 <= b < |docs.batches| && docs.batches[b].state.Confirmed? ==> docs'.batches[b] == docs.batches[b])
    && (forall b, l :: FinalLeaf(docs, docs', b, l))
  }

  ghost predicate NoncesLater(m: map<Hash, nat>, m': map<Hash, nat>) {
    forall d :: Get(m, d) <= Get(m', d)
  }

  ghost predicate Later(s: State, s': State) {
    && s'.cfg == s.cfg && s.clock <= s'.clock
    && CasesLater(s.disputes, s'.disputes)
    && NoLateCases(s.docs, s.disputes, s'.disputes)
    && OutcomesLater(s.docs, s'.docs)
    && s.bank.retained <= s'.bank.retained
    && NoncesLater(s.didNonce, s'.didNonce)
    && DR.Extends(s.dids, s'.dids)
  }

  // ---------- It is a preorder ----------

  lemma OutcomesSame(docs: Docs)
    ensures OutcomesLater(docs, docs)
  {
  }

  lemma CasesSame(ds: seq<Dispute>)
    ensures CasesLater(ds, ds)
  {
  }

  lemma OutcomesTransitive(x: Docs, y: Docs, z: Docs)
    requires OutcomesLater(x, y) && OutcomesLater(y, z)
    ensures OutcomesLater(x, z)
  {
    forall i | 0 <= i < |x.records| ensures SameRecord(x.records[i], z.records[i]) && FinalRecord(x, z, i) {
      assert FinalRecord(x, y, i) && FinalRecord(y, z, i);
    }
    forall b | 0 <= b < |x.batches| ensures SameBatch(x.batches[b], z.batches[b]) {
      assert SameBatch(x.batches[b], y.batches[b]) && SameBatch(y.batches[b], z.batches[b]);
    }
    forall b, l ensures FinalLeaf(x, z, b, l) {
      assert FinalLeaf(x, y, b, l) && FinalLeaf(y, z, b, l);
    }
  }

  lemma CasesTransitive(x: seq<Dispute>, y: seq<Dispute>, z: seq<Dispute>)
    requires CasesLater(x, y) && CasesLater(y, z)
    ensures CasesLater(x, z)
  {
    forall i | 0 <= i < |x| ensures SameCase(x[i], z[i]) {
      assert SameCase(x[i], y[i]) && SameCase(y[i], z[i]);
    }
  }

  lemma TerminalLater(docs: Docs, docs': Docs, t: Target)
    requires OutcomesLater(docs, docs') && Exists(docs, t) && Terminal(docs, t)
    ensures Exists(docs', t) && Terminal(docs', t)
  {
    match t
    case RecordTarget(i) => assert FinalRecord(docs, docs', i);
    case LeafTarget(b, l) => assert FinalLeaf(docs, docs', b, l) && SameBatch(docs.batches[b], docs'.batches[b]);
  }

  lemma NoLateTransitive(x: State, y: State, z: State)
    requires CasesLater(x.disputes, y.disputes) && CasesLater(y.disputes, z.disputes) && OutcomesLater(x.docs, y.docs)
    requires NoLateCases(x.docs, x.disputes, y.disputes) && NoLateCases(y.docs, y.disputes, z.disputes)
    ensures NoLateCases(x.docs, x.disputes, z.disputes)
  {
    forall i | |x.disputes| <= i < |z.disputes| && Exists(x.docs, z.disputes[i].target)
      ensures !Terminal(x.docs, z.disputes[i].target) {
      var t := z.disputes[i].target;
      assert i < |y.disputes| ==> SameCase(y.disputes[i], z.disputes[i]);
      if Terminal(x.docs, t) {
        TerminalLater(x.docs, y.docs, t);
        assert false;
      }
    }
  }

  lemma LaterTransitive(x: State, y: State, z: State)
    requires Later(x, y) && Later(y, z)
    ensures Later(x, z)
  {
    OutcomesTransitive(x.docs, y.docs, z.docs);
    CasesTransitive(x.disputes, y.disputes, z.disputes);
    NoLateTransitive(x, y, z);
    assert NoncesLater(x.didNonce, z.didNonce);
    assert DR.Extends(x.dids, z.dids);
    hide OutcomesLater, CasesLater, NoLateCases, NoncesLater;
  }

  // ---------- Steps ----------

  lemma JudgedLater(docs: Docs, t: Target, v: Verdict)
    requires Exists(docs, t) && Unfinalized(docs, t)
    requires t.RecordTarget? ==> !docs.records[t.index].state.Revoked?
    requires t.LeafTarget? ==> !LeafAt(docs, t.batch, t.leaf).LeafRevoked?
    ensures OutcomesLater(docs, Judge(docs, t, v))
  {
    JudgeExtends(docs, t, v);
    forall b, l ensures FinalLeaf(docs, Judge(docs, t, v), b, l) {
    }
  }

  lemma GrownLater(docs: Docs, docs': Docs)
    requires Grown(docs, docs')
    ensures OutcomesLater(docs, docs')
  {
    forall b, l ensures FinalLeaf(docs, docs', b, l) {
    }
  }

  lemma FinalizedLater(docs: Docs, i: nat)
    ensures i < |docs.records| && docs.records[i].state.Provisional? ==>
        OutcomesLater(docs, SetRecord(docs, i, Confirmed))
    ensures i < |docs.batches| && docs.batches[i].state.Provisional? ==>
        OutcomesLater(docs, SetBatch(docs, i, Confirmed))
  {
    if i < |docs.records| {
      forall b, l ensures FinalLeaf(docs, SetRecord(docs, i, Confirmed), b, l) {
      }
    }
    if i < |docs.batches| {
      forall b, l ensures FinalLeaf(docs, SetBatch(docs, i, Confirmed), b, l) {
      }
    }
  }

  lemma CaseAdmitted(docs: Docs, ds: seq<Dispute>, d: Dispute)
    requires Exists(docs, d.target) && Disputable(docs, d.target)
    requires d.target.LeafTarget? ==> !LeafAt(docs, d.target.batch, d.target.leaf).LeafRevoked?
    ensures CasesLater(ds, ds + [d]) && NoLateCases(docs, ds, ds + [d])
  {
  }

  lemma AdmitLater(s: State, t: Target, a: Address, value: nat)
    requires Inv(s) && Exists(s.docs, t) && Disputable(s.docs, t)
    ensures Later(s, Admit(s, t, a, value))
  {
    AdmitNotRevoked(s.docs, t);
    JudgedLater(s.docs, t, Open);
    CaseAdmitted(s.docs, s.disputes, Admit(s, t, a, value).disputes[|s.disputes|]);
    hide OutcomesLater, Inv, CasesLater, NoLateCases;
    assert MarkDisputed(s.docs, t) == Judge(s.docs, t, Open);
  }

  /** A settlement judges the target, closes the case, and retains some wei; that is all history sees. */
  lemma SettlementLater(s: State, s': State, id: nat, verdict: Verdict)
    requires Core(s) && id < |s.disputes| && s.disputes[id].verdict.Open?
    requires Exists(s.docs, s.disputes[id].target) && s'.docs == Judge(s.docs, s.disputes[id].target, verdict)
    requires s'.disputes == s.disputes[id := s.disputes[id].(verdict := verdict)]
    requires SameFrame(s, s') && s'.didNonce == s.didNonce && s'.dids == s.dids && s.bank.retained <= s'.bank.retained
    ensures Later(s, s')
  {
    hide Core, OutcomesLater, Judge, CasesLater;
    OpenTarget(s, id);
    JudgedLater(s.docs, s.disputes[id].target, verdict);
    CaseSettled(s.disputes, id, s'.disputes[id]);
  }

  lemma CaseSettled(ds: seq<Dispute>, id: nat, d: Dispute)
    requires id < |ds| && SameCase(ds[id], d)
    ensures CasesLater(ds, ds[id := d])
  {
  }

  lemma FraudLater(s: State, id: nat)
    requires Core(s) && id < |s.disputes| && s.disputes[id].verdict.Open? && ResolveFraud(s, id).Ok?
    ensures Later(s, ResolveFraud(s, id).state)
  {
    hide Later, OutcomesLater, Filed, CanRelease, Release, CanClose, FraudPayout, Revoke, Judge, Owed, Collected;
    var d := s.disputes[id];
    JudgeIs(s.docs, d.target);
    FraudConserves(s.cfg, ListOf(Filed(s.reg, d), d.target), d, RelayOf(s.docs, d.target), s.bank);
    SettlementLater(s, ResolveFraud(s, id).state, id, Fraud);
  }

  lemma SpuriousLater(s: State, id: nat)
    requires Core(s) && id < |s.disputes| && s.disputes[id].verdict.Open? && ResolveSpurious(s, id).Ok?
    ensures Later(s, ResolveSpurious(s, id).state)
  {
    hide Later, OutcomesLater, Filed, CanClose, SpuriousPayout, Reinstate, Judge, Owed;
    var d := s.disputes[id];
    JudgeIs(s.docs, d.target);
    SpuriousConserves(s.bank, d, RelayOf(s.docs, d.target));
    SettlementLater(s, ResolveSpurious(s, id).state, id, Spurious);
  }

  lemma ExpiryLater(s: State, id: nat)
    requires Inv(s) && ExpireDispute(s, id).Ok?
    ensures Later(s, ExpireDispute(s, id).state)
  {
    hide Later, OutcomesLater, CanRelease, Release, CanClose, ExpiryPayout, Revoke, Judge, Owed;
    var d := s.disputes[id];
    JudgeIs(s.docs, d.target);
    ExpiryConserves(s.bank, d);
    SettlementLater(s, ExpireDispute(s, id).state, id, Expired);
  }

  lemma VoteLater(s: State, id: nat, isFraud: bool, v: Address)
    requires id < |s.disputes| && s.disputes[id].verdict.Open?
    ensures Later(s, Vote(s, id, isFraud, v))
  {
    OutcomesSame(s.docs);
  }

  lemma AttestationLater(s: State, id: nat, isFraud: bool, signer: Option<Address>)
    requires Inv(s) && SubmitAttestation(s, id, isFraud, signer).Ok?
    ensures Later(s, SubmitAttestation(s, id, isFraud, signer).state)
  {
    var v := signer.value;
    VoteLater(s, id, isFraud, v);
    VoteKeeps(s, id, isFraud, v);
    var s1 := Vote(s, id, isFraud, v);
    if ResolveFraud(s1, id).Ok? {
      FraudLater(s1, id);
    }
    if ResolveSpurious(s1, id).Ok? {
      SpuriousLater(s1, id);
    }
    var s2 := SubmitAttestation(s, id, isFraud, signer).state;
    hide Later, ResolveFraud, ResolveSpurious, Core;
    if s2 != s1 {
      LaterTransitive(s, s1, s2);
    }
  }

  lemma SubmitAccountableLater(s: State, a: Address, dataHash: Hash, did: Hash, signature: seq<Byte>)
    requires Inv(s) && SubmitAccountable(s, a, dataHash, did, signature).Ok?
    ensures Later(s, SubmitAccountable(s, a, dataHash, did, signature).state)
  {
    hide OutcomesLater, CasesLater, KeysOk, TreesOk, Grown;
    CasesSame(s.disputes);
    RecordSubmitted(s, a, dataHash, did, signature);
    GrownLater(s.docs, SubmitAccountable(s, a, dataHash, did, signature).state.docs);
  }

  lemma SubmitBatchLater(s: State, a: Address, dids: seq<Hash>, dataHashes: seq<Hash>, data: seq<Byte>)
    requires Inv(s) && SubmitBatch(s, a, dids, dataHashes, data).Ok?
    ensures Later(s, SubmitBatch(s, a, dids, dataHashes, data).state)
  {
    hide OutcomesLater, CasesLater, KeysOk, TreesOk, Grown, SubmitBatch, NonceAt;
    CasesSame(s.disputes);
    BatchSubmitted(s, a, dids, dataHashes, data);
    GrownLater(s.docs, SubmitBatch(s, a, dids, dataHashes, data).state.docs);
    assert NoncesLater(s.didNonce, Bumped(s.didNonce, dids));
  }

  lemma FinalizationsLater(s: State, i: nat)
    ensures FinalizeRecord(s, i).Ok? ==> Later(s, FinalizeRecord(s, i).state)
    ensures FinalizeBatch(s, i).Ok? ==> Later(s, FinalizeBatch(s, i).state)
  {
    CasesSame(s.disputes);
    FinalizedLater(s.docs, i);
    hide OutcomesLater, CasesLater, CanRelease, ReleaseLeaves, SetRecord, SetBatch;
  }

  /** Calls that touch neither documents, disputes, nonces nor keys. */
  lemma StakeLater(s: State, c: Call)
    requires c.StakeRelayCall? || c.AnnounceUnstakeCall? || c.UnstakeRelayCall? || c.StakeVerifierCall?
          || c.AnnounceVerifierUnstakeCall? || c.UnstakeVerifierCall? || c.DeregisterVerifierCall?
    ensures Step(s, c).Ok? ==> Later(s, Step(s, c).state)
  {
    CasesSame(s.disputes);
    OutcomesSame(s.docs);
    hide OutcomesLater, CasesLater;
  }

  lemma IdentityLater(s: State, c: Call)
    requires Inv(s) && (c.RegisterDidCall? || c.DeactivateDidCall?)
    ensures Step(s, c).Ok? ==> Later(s, Step(s, c).state)
  {
    CasesSame(s.disputes);
    OutcomesSame(s.docs);
    match c
    case RegisterDidCall(a, d, k) => DidSteps(s.dids, a, d, k, s.clock);
    case DeactivateDidCall(a, d) => DidSteps(s.dids, a, d, [], s.clock);
    case _ =>
    hide OutcomesLater, CasesLater, Inv, DR.Register, DR.Deactivate, DR.Extends;
  }

  lemma PlainStepLater(s: State, c: Call)
    requires Inv(s) && !c.WithdrawCall? && Step(s, c).Ok?
    ensures Later(s, Step(s, c).state)
  {
    hide Inv, Later;
    match c
    case SubmitAttestationCall(id, fraud, signer) => AttestationLater(s, id, fraud, signer);
    case ExpireDisputeCall(id) => ExpiryLater(s, id);
    case SubmitAccountableCall(a, h, d, sig) => SubmitAccountableLater(s, a, h, d, sig);
    case SubmitBatchCall(a, ds, hs, av) => SubmitBatchLater(s, a, ds, hs, av);
    case FinalizeRecordCall(i) => FinalizationsLater(s, i);
    case FinalizeBatchCall(b) => FinalizationsLater(s, b);
    case OpenDisputeCall(a, v, i) => AdmitLater(s, RecordTarget(i), a, v);
    case OpenBatchLeafDisputeCall(a, v, b, l, _, _) =>
      LeafAdmissible(s, b, l);
      AdmitLater(s, LeafTarget(b, l), a, v);
    case RegisterDidCall(_, _, _) => IdentityLater(s, c);
    case DeactivateDidCall(_, _) => IdentityLater(s, c);
    case _ => StakeLater(s, c);
  }

  lemma GuardLater(s: State, x: State, locked: bool)
    requires Later(s, x)
    ensures Later(s, x.(locked := locked))
  {
    hide OutcomesLater, CasesLater, NoncesLater;
  }

  lemma PaidOutLater(s: State, a: Address)
    requires Inv(s)
    ensures Get(s.bank.pending, a) <= s.bank.balance
    ensures Later(s, s.(locked := true, bank := PaidOut(s.bank, a)))
  {
    PaysOutSafely(s, a);
    LaterSame(s);
    hide Inv, OutcomesLater, CasesLater, NoncesLater;
  }

  lemma {:induction false} StepLater(s: State, c: Call)
    requires Inv(s)
    ensures Later(s, After(s, c))
    decreases c, 1
  {
    hide Inv, Later;
    LaterSame(s);
    if Step(s, c).Ok? {
      match c
      case WithdrawCall(a, inner, ok) =>
        PaidOutLater(s, a);
        PaysOutSafely(s, a);
        var mid := s.(locked := true, bank := PaidOut(s.bank, a));
        AfterAllLater(mid, inner);
        LaterTransitive(s, mid, AfterAll(mid, inner));
        GuardLater(s, AfterAll(mid, inner), false);
        assert Step(s, c) == Ok(AfterAll(mid, inner).(locked := false));
      case _ => PlainStepLater(s, c);
    }
  }

  lemma LaterSame(s: State)
    ensures Later(s, s)
  {
    OutcomesSame(s.docs);
  }

  lemma {:induction false} AfterAllLater(s: State, cs: seq<Call>)
    requires Inv(s)
    ensures Later(s, AfterAll(s, cs))
    decreases cs, 0
  {
    LaterSame(s);
    hide Inv, Later;
    if cs != [] {
      StepLater(s, cs[0]);
      StepKeeps(s, cs[0]);
      AfterAllLater(After(s, cs[0]), cs[1..]);
      LaterTransitive(s, After(s, cs[0]), AfterAll(s, cs));
    }
  }

  /** A terminal target is closed for good: it stays terminal, nobody is ever listed
      on it again, and every dispute on it is one it had already seen. */
  lemma TerminalForGood(s: State, txs: seq<Tx>, t: Target)
    requires Inv(s) && Timely(s.clock, txs) && Exists(s.docs, t) && Terminal(s.docs, t)
    ensures var e := Run(s, txs);
            && Exists(e.docs, t) && Terminal(e.docs, t) && ListOf(e.reg, t) == []
            && forall i :: 0 <= i < |e.disputes| && e.disputes[i].target == t ==>
                 i < |s.disputes| && e.disputes[i] == s.disputes[i]
  {
    var e := Run(s, txs);
    RunLater(s, txs);
    RunKeeps(s, txs);
    hide Inv, Run, Timely, OutcomesLater, NoncesLater, Terminal, DR.Extends;
    TerminalLater(s.docs, e.docs, t);
    TerminalUnlisted(e, t);
    forall i | 0 <= i < |e.disputes| && e.disputes[i].target == t
      ensures i < |s.disputes| && e.disputes[i] == s.disputes[i] {
      if i < |s.disputes| && s.disputes[i].verdict.Open? {
        OpenLive(s, i);
      }
    }
  }

  lemma TerminalUnlisted(s: State, t: Target)
    requires Inv(s) && Exists(s.docs, t) && Terminal(s.docs, t)
    ensures ListOf(s.reg, t) == []
  {
    hide MoneyOk, NoncesOk, KeysOk, CaseOk, CountsOk, BallotsOk, WindowsOk, TreesOk, QuorumsOk, RegistryOk, LeavesOk;
    assert Live(s.reg, s.docs, s.disputes, t);
  }

  lemma OpenLive(s: State, id: nat)
    requires Inv(s) && id < |s.disputes| && s.disputes[id].verdict.Open?
    ensures Exists(s.docs, s.disputes[id].target) && !Terminal(s.docs, s.disputes[id].target)
  {
    OpenTarget(s, id);
  }

  /** Over any run: final outcomes stay final, settled disputes stay settled,
      retained wei and nonces only grow, and keys on file never change. */
  lemma {:induction false} RunLater(s: State, txs: seq<Tx>)
    requires Inv(s) && Timely(s.clock, txs)
    ensures Later(s, Run(s, txs))
    decreases |txs|
  {
    LaterSame(s);
    if txs != [] {
      var now := s.(clock := txs[0].now);
      assert Later(s, now) by {
        LaterSame(s);
      }
      hide Later;
      TimePasses(s, txs[0].now);
      StepLater(now, txs[0].call);
      ExecKeeps(s, txs[0]);
      RunLater(Exec(s, txs[0]), txs[1..]);
      LaterTransitive(s, now, Exec(s, txs[0]));
      LaterTransitive(s, Exec(s, txs[0]), Run(s, txs));
    }
  }
}
