/** Admitting, voting on and settling disputes keep the invariant. */
module DisputeSteps {
  import opened Common
  import opened Docket
  import opened DocketFacts
  import opened Treasury
  import opened Exposure
  import opened ExposureFacts
  import opened Protocol
  import opened Invariants
  import opened Money

  /** The document of `t` is not finalized, so its state is all there is to judge. */
  predicate Unfinalized(docs: Docs, t: Target)
    requires Exists(docs, t)
  {
    match t
    case RecordTarget(i) => !docs.records[i].state.Confirmed?
    case LeafTarget(b, _) => !docs.batches[b].state.Confirmed?
  }

  lemma TerminalJudged(docs: Docs, t: Target, v: Verdict, u: Target)
    requires Exists(docs, t) && Unfinalized(docs, t)
    ensures var docs' := Judge(docs, t, v);
            && (Exists(docs', u) <==> Exists(docs, u))
            && (Exists(docs, u) ==> (Terminal(docs', u) <==> if u == t then Damns(v) else Terminal(docs, u)))
  {
  }

  lemma WindowsJudged(docs: Docs, t: Target, v: Verdict, clock: nat, period: nat)
    requires Exists(docs, t) && Unfinalized(docs, t) && WindowsOk(docs, clock, period)
    ensures WindowsOk(Judge(docs, t, v), clock, period)
  {
    var docs' := Judge(docs, t, v);
    forall b, l: nat | 0 <= b < |docs'.batches| && docs'.batches[b].state.Confirmed?
      ensures !LeafAt(docs', b, l).LeafDisputed? {
      assert !LeafAt(docs, b, l).LeafDisputed?;
    }
  }

  /** The target of an open dispute exists, is under dispute, and is not finalized. */
  lemma OpenTarget(s: State, id: nat)
    requires Core(s) && id < |s.disputes| && s.disputes[id].verdict.Open?
    ensures var t := s.disputes[id].target;
            && Exists(s.docs, t) && Unfinalized(s.docs, t) && !Terminal(s.docs, t)
            && CanClose(s, t)
            && (t.LeafTarget? ==> LeafAt(s.docs, t.batch, t.leaf).LeafDisputed?)
            && (t.RecordTarget? ==> s.docs.records[t.index].state.Disputed?)
  {
    StillDisputed(s.docs, s.disputes, id);
    OpenIsCounted(s.docs, s.disputes, id, s.relayActive, s.batchOpen);
  }

  // ---------- Admission ----------

  lemma AdmitFiles(reg: Registry, docs: Docs, ds: seq<Dispute>, d: Dispute)
    requires FilesOk(reg, docs, ds) && Exists(docs, d.target) && Disputable(docs, d.target) && d.verdict.Open?
    ensures FilesOk(reg, Judge(docs, d.target, Open), ds + [d])
  {
    var docs' := Judge(docs, d.target, Open);
    forall t ensures Live(reg, docs', ds + [d], t) {
      assert Live(reg, docs, ds, t);
      TerminalJudged(docs, d.target, Open, t);
      SettledVotersAdmit(ds, d, t);
    }
  }

  lemma AdmitBallots(docs: Docs, ds: seq<Dispute>, attested: set<(nat, Address)>, d: Dispute)
    requires BallotsOk(docs, ds, attested) && Exists(docs, d.target)
    requires d.fraudAttesters == d.validAttesters == []
    ensures BallotsOk(docs, ds + [d], attested)
  {
    forall i: nat, v: Address ensures Voted(ds + [d], i, v) == Voted(ds, i, v) {
    }
  }

  /** The parts of admission that only concern the new dispute itself. */
  lemma Admitted(s: State, t: Target, a: Address, value: nat)
    requires Inv(s) && Exists(s.docs, t)
    ensures var s' := Admit(s, t, a, value);
            var d := s'.disputes[|s.disputes|];
            && s'.docs == Judge(s.docs, t, Open)
            && s'.disputes == s.disputes + [d]
            && TargetsOk(s'.docs, s.disputes, s.clock, s.cfg.challengePeriod)
            && TargetsOk(s'.docs, s'.disputes, s.clock, s.cfg.challengePeriod)
            && QuorumsOk(s.cfg.quorum, s'.disputes)
  {
    JudgeExtends(s.docs, t, Open);
    StateChangeKeeps(s, Judge(s.docs, t, Open));
  }

  lemma AdmitKeeps(s: State, t: Target, a: Address, value: nat)
    requires Inv(s) && Exists(s.docs, t) && Disputable(s.docs, t)
    ensures Inv(Admit(s, t, a, value))
  {
    hide Judge, StatesOk, EarlierSpurious, TargetsOk, BallotsOk, NoncesOk, KeysOk, TreesOk, WindowsOk, FilesOk,
         MoneyOk, RelayCountsOk, BatchCountsOk, RevokedCountsOk, Extends, QuorumsOk, MarkDisputed;
    var s' := Admit(s, t, a, value);
    var d := s'.disputes[|s.disputes|];
    Admitted(s, t, a, value);
    JudgeExtends(s.docs, t, Open);
    AdmitStates(s.docs, s.disputes, d);
    AdmitCounts(s.docs, s'.docs, s.disputes, d, s.relayActive, s.batchOpen);
    AdmitNotRevoked(s.docs, t);
    JudgeRevokedCounts(s.docs, t, Open);
    AdmitFiles(s.reg, s.docs, s.disputes, d);
    AdmitMoney(s.bank, s.disputes, d);
    WindowsJudged(s.docs, t, Open, s.clock, s.cfg.challengePeriod);
    StateChangeKeeps(s, s'.docs);
    ExtendsKeeps(s.docs, s'.docs, t);
    AdmitBallots(s'.docs, s.disputes, s.attested, d);
  }

  lemma AdmitNotRevoked(docs: Docs, t: Target)
    requires Exists(docs, t) && Disputable(docs, t)
    ensures Unfinalized(docs, t) && (t.LeafTarget? ==> !LeafAt(docs, t.batch, t.leaf).LeafRevoked?)
  {
  }

  // ---------- Votes ----------

  lemma VoteBallots(docs: Docs, ds: seq<Dispute>, attested: set<(nat, Address)>, id: nat, isFraud: bool, v: Address)
    requires BallotsOk(docs, ds, attested) && id < |ds| && (id, v) !in attested
    requires Exists(docs, ds[id].target) && v != RelayOf(docs, ds[id].target)
    ensures BallotsOk(docs, ds[id := WithVote(ds[id], isFraud, v)], attested + {(id, v)})
  {
    var d := WithVote(ds[id], isFraud, v);
    var ds' := ds[id := d];
    assert !Voted(ds, id, v);
    assert BallotOk(docs, ds[id]);
    assert BallotOk(docs, d);
    forall i: nat, w: Address ensures Voted(ds', i, w) == (Voted(ds, i, w) || (i, w) == (id, v)) {
    }
    forall i | 0 <= i < |ds'| ensures BallotOk(docs, ds'[i]) {
      assert i != id ==> BallotOk(docs, ds[i]);
    }
  }

  lemma VoteFiles(reg: Registry, docs: Docs, ds: seq<Dispute>, id: nat, d: Dispute)
    requires FilesOk(reg, docs, ds) && id < |ds| && ds[id].verdict.Open? && d.verdict.Open? && d.target == ds[id].target
    ensures FilesOk(reg, docs, ds[id := d])
  {
    var ds' := ds[id := d];
    forall t ensures Live(reg, docs, ds', t) {
      assert Live(reg, docs, ds, t);
      SettledVotersSettle(ds, id, d, t);
    }
  }

  /** Marking a target under dispute again changes nothing. */
  lemma MarkAgain(docs: Docs, t: Target)
    requires Exists(docs, t)
    requires t.LeafTarget? ==> LeafAt(docs, t.batch, t.leaf).LeafDisputed?
    requires t.RecordTarget? ==> docs.records[t.index].state.Disputed?
    ensures Judge(docs, t, Open) == docs
  {
    match t
    case RecordTarget(i) => assert SetRecord(docs, i, Disputed).records == docs.records;
    case LeafTarget(b, l) => assert docs.leaf[(b, l) := LeafDisputed] == docs.leaf;
  }

  lemma VoteTargets(docs: Docs, ds: seq<Dispute>, id: nat, d: Dispute, clock: nat, period: nat)
    requires TargetsOk(docs, ds, clock, period) && id < |ds|
    requires d.target == ds[id].target && d.openedAt == ds[id].openedAt && d.deadline == ds[id].deadline
    ensures TargetsOk(docs, ds[id := d], clock, period)
  {
  }

  lemma VoteKeeps(s: State, id: nat, isFraud: bool, v: Address)
    requires Core(s) && id < |s.disputes| && s.disputes[id].verdict.Open? && (id, v) !in s.attested
    requires Exists(s.docs, s.disputes[id].target) && v != RelayOf(s.docs, s.disputes[id].target)
    ensures Core(Vote(s, id, isFraud, v))
  {
    hide Judge, StatesOk, EarlierSpurious, TargetsOk, BallotsOk, NoncesOk, KeysOk, TreesOk, WindowsOk, FilesOk,
         MoneyOk, RelayCountsOk, BatchCountsOk, RevokedCountsOk, Extends;
    var d := WithVote(s.disputes[id], isFraud, v);
    OpenTarget(s, id);
    MarkAgain(s.docs, d.target);
    JudgeExtends(s.docs, d.target, Open);
    SettleStates(s.docs, s.disputes, id, d);
    SettleRelayCounts(s.docs, s.docs, s.disputes, id, d, s.relayActive);
    SettleBatchCounts(s.disputes, id, d, s.batchOpen);
    VoteBallots(s.docs, s.disputes, s.attested, id, isFraud, v);
    VoteFiles(s.reg, s.docs, s.disputes, id, d);
    VoteMoney(s.bank, s.disputes, id, d);
    VoteTargets(s.docs, s.disputes, id, d, s.clock, s.cfg.challengePeriod);
  }

  // ---------- Settlements ----------

  /** After filing, the target's list is every valid attester of its settled disputes and of this one. */
  lemma FiledList(s: State, id: nat)
    requires Core(s) && id < |s.disputes| && s.disputes[id].verdict.Open?
    ensures var d := s.disputes[id];
            var reg := Filed(s.reg, d);
            && RegistryOk(reg) && LeavesOk(reg)
            && Complete(reg, d.target)
            && Elems(ListOf(reg, d.target)) == SettledVoters(s.disputes, d.target) + Elems(d.validAttesters)
            && (forall u :: u != d.target ==> ListOf(reg, u) == ListOf(s.reg, u))
            && reg.validHas == s.reg.validHas + (set v | v in d.validAttesters :: (d.target, v))
  {
    var d := s.disputes[id];
    OpenTarget(s, id);
    assert Live(s.reg, s.docs, s.disputes, d.target);
    RegisterAllKeeps(s.reg, d.target, d.validAttesters);
    var reg1 := RegisterAll(s.reg, d.target, d.validAttesters);
    forall b ensures ExposedIn(reg1, b) == ExposedIn(s.reg, b) {
    }
    forall b, l | d.target != LeafTarget(b, l) ensures Covered(reg1, b, l) {
      assert Covered(s.reg, b, l);
    }
    RememberKeeps(reg1, d.target);
  }

  lemma SettleLive(reg: Registry, docs: Docs, ds: seq<Dispute>, id: nat, verdict: Verdict, reg': Registry, u: Target)
    requires id < |ds| && ds[id].verdict.Open? && !verdict.Open? && Live(reg, docs, ds, u)
    requires Exists(docs, ds[id].target) && Unfinalized(docs, ds[id].target)
    requires u != ds[id].target ==> ListOf(reg', u) == ListOf(reg, u)
    requires u != ds[id].target ==> forall v :: (u, v) in reg'.validHas <==> (u, v) in reg.validHas
    requires u == ds[id].target && Damns(verdict) ==> ListOf(reg', u) == []
    requires u == ds[id].target && verdict.Spurious? ==>
               Complete(reg', u) && Elems(ListOf(reg', u)) == SettledVoters(ds, u) + Elems(ds[id].validAttesters)
    ensures Live(reg', Judge(docs, ds[id].target, verdict), ds[id := ds[id].(verdict := verdict)], u)
  {
    var d := ds[id].(verdict := verdict);
    TerminalJudged(docs, d.target, verdict, u);
    SettledVotersSettle(ds, id, d, u);
    hide Judge, SettledVoters;
    if u != d.target {
      assert Complete(reg, u) ==> Complete(reg', u);
    }
  }

  /** A registry that treats the target as its verdict asks, and every other target as before. */
  lemma SettleFiles(s: State, id: nat, verdict: Verdict, reg: Registry)
    requires Core(s) && id < |s.disputes| && s.disputes[id].verdict.Open? && !verdict.Open?
    requires RegistryOk(reg) && LeavesOk(reg)
    requires forall u, v :: u != s.disputes[id].target ==> ((u, v) in reg.validHas <==> (u, v) in s.reg.validHas)
    requires forall u :: u != s.disputes[id].target ==> ListOf(reg, u) == ListOf(s.reg, u)
    requires Damns(verdict) ==> ListOf(reg, s.disputes[id].target) == []
    requires verdict.Spurious? ==>
               && Complete(reg, s.disputes[id].target)
               && Elems(ListOf(reg, s.disputes[id].target)) ==
                  SettledVoters(s.disputes, s.disputes[id].target) + Elems(s.disputes[id].validAttesters)
    ensures Exists(s.docs, s.disputes[id].target)
    ensures FilesOk(reg, Judge(s.docs, s.disputes[id].target, verdict),
                    s.disputes[id := s.disputes[id].(verdict := verdict)])
  {
    OpenTarget(s, id);
    assert LiveOk(s.reg, s.docs, s.disputes);
    hide Core, RegistryOk, LeavesOk, Live, Judge, SettledVoters;
    var d := s.disputes[id].(verdict := verdict);
    var docs', ds' := Judge(s.docs, d.target, verdict), s.disputes[id := d];
    forall u ensures Live(reg, docs', ds', u) {
      assert Live(s.reg, s.docs, s.disputes, u);
      SettleLive(s.reg, s.docs, s.disputes, id, verdict, reg, u);
    }
  }

  lemma SettleBallots(docs: Docs, ds: seq<Dispute>, attested: set<(nat, Address)>, id: nat, verdict: Verdict)
    requires BallotsOk(docs, ds, attested) && id < |ds|
    ensures BallotsOk(docs, ds[id := ds[id].(verdict := verdict)], attested)
  {
    var ds' := ds[id := ds[id].(verdict := verdict)];
    forall i: nat, w: Address ensures Voted(ds', i, w) == Voted(ds, i, w) {
    }
    forall i | 0 <= i < |ds'| ensures BallotOk(docs, ds'[i]) {
      assert BallotOk(docs, ds[i]);
    }
  }

  /** Settling keeps everything the verdict's payout and registry keep. */
  lemma SettleKeeps(s: State, id: nat, verdict: Verdict, bank: Bank, reg: Registry)
    requires Core(s) && id < |s.disputes| && s.disputes[id].verdict.Open? && !verdict.Open?
    requires Exists(s.docs, s.disputes[id].target) && CanClose(s, s.disputes[id].target)
    requires MoneyOk(bank, s.disputes[id := s.disputes[id].(verdict := verdict)])
    requires FilesOk(reg, Judge(s.docs, s.disputes[id].target, verdict),
                     s.disputes[id := s.disputes[id].(verdict := verdict)])
    ensures Core(Close(s, id, verdict).(docs := Judge(s.docs, s.disputes[id].target, verdict), bank := bank,
                                        reg := reg))
  {
    hide Judge, StatesOk, EarlierSpurious, TargetsOk, BallotsOk, NoncesOk, KeysOk, TreesOk, WindowsOk, FilesOk,
         MoneyOk, RelayCountsOk, BatchCountsOk, RevokedCountsOk, Extends;
    var d := s.disputes[id].(verdict := verdict);
    var docs' := Judge(s.docs, d.target, verdict);
    OpenTarget(s, id);
    JudgeExtends(s.docs, d.target, verdict);
    StateChangeKeeps(s, docs');
    SettleStates(s.docs, s.disputes, id, d);
    SettleRelayCounts(s.docs, docs', s.disputes, id, d, s.relayActive);
    SettleBatchCounts(s.disputes, id, d, s.batchOpen);
    JudgeRevokedCounts(s.docs, d.target, verdict);
    WindowsJudged(s.docs, d.target, verdict, s.clock, s.cfg.challengePeriod);
    SettleBallots(docs', s.disputes, s.attested, id, verdict);
    VoteTargets(docs', s.disputes, id, d, s.clock, s.cfg.challengePeriod);
  }

  lemma FraudKeeps(s: State, id: nat)
    requires Core(s) && id < |s.disputes| && s.disputes[id].verdict.Open?
    ensures ResolveFraud(s, id).Ok? && Core(ResolveFraud(s, id).state)
  {
    hide Judge, StatesOk, EarlierSpurious, TargetsOk, BallotsOk, NoncesOk, KeysOk, TreesOk, WindowsOk, LiveOk,
         MoneyOk, CountsOk, Extends, FraudPayout, Owed, Filed, RegistryOk, LeavesOk, SettledVoters;
    var d := s.disputes[id];
    OpenTarget(s, id);
    FiledList(s, id);
    var reg := Filed(s.reg, d);
    ReleaseKeeps(reg, d.target);
    SettleFiles(s, id, Fraud, Release(reg, d.target));
    var relay := RelayOf(s.docs, d.target);
    SettledByFraud(s, id, ListOf(reg, d.target), relay);
    SettleKeeps(s, id, Fraud, FraudPayout(s.cfg, ListOf(reg, d.target), d, relay, s.bank), Release(reg, d.target));
    JudgeIs(s.docs, d.target);
  }

  lemma JudgeIs(docs: Docs, t: Target)
    requires Exists(docs, t)
    ensures Judge(docs, t, Fraud) == Judge(docs, t, Expired) == Revoke(docs, t)
        && Judge(docs, t, Spurious) == Reinstate(docs, t)
  {
  }

  lemma SettledByFraud(s: State, id: nat, wrongSide: seq<Address>, relay: Address)
    requires Core(s) && id < |s.disputes| && s.disputes[id].verdict.Open?
    ensures MoneyOk(FraudPayout(s.cfg, wrongSide, s.disputes[id], relay, s.bank),
                    s.disputes[id := s.disputes[id].(verdict := Fraud)])
  {
    hide FraudPayout, Owed, Collected, FraudRetained;
    var c := FraudPayout(s.cfg, wrongSide, s.disputes[id], relay, s.bank);
    FraudConserves(s.cfg, wrongSide, s.disputes[id], relay, s.bank);
    SettleMoney(s.bank, c, s.disputes, id, Fraud);
  }

  lemma SpuriousKeeps(s: State, id: nat)
    requires Core(s) && id < |s.disputes| && s.disputes[id].verdict.Open?
    ensures ResolveSpurious(s, id).Ok? && Core(ResolveSpurious(s, id).state)
  {
    hide Judge, StatesOk, EarlierSpurious, TargetsOk, BallotsOk, NoncesOk, KeysOk, TreesOk, WindowsOk, LiveOk,
         CountsOk, Extends, SpuriousPayout, Owed, Filed, RegistryOk, LeavesOk, SettledVoters, OpenBonds;
    var d := s.disputes[id];
    OpenTarget(s, id);
    FiledList(s, id);
    var reg := Filed(s.reg, d);
    SettleFiles(s, id, Spurious, reg);
    var relay := RelayOf(s.docs, d.target);
    var c := SpuriousPayout(d, relay, s.bank);
    SpuriousConserves(s.bank, d, relay);
    SettleMoney(s.bank, c, s.disputes, id, Spurious);
    SettleKeeps(s, id, Spurious, c, reg);
    JudgeIs(s.docs, d.target);
  }

  lemma ExpiryKeeps(s: State, id: nat)
    requires Core(s) && id < |s.disputes| && s.disputes[id].verdict.Open?
    ensures var t := s.disputes[id].target;
            && Exists(s.docs, t) && CanClose(s, t) && CanRelease(s.reg, t)
            && Core(Close(s, id, Expired).(
                 docs := Revoke(s.docs, t),
                 reg := Release(s.reg, t),
                 bank := ExpiryPayout(s.disputes[id], s.bank)))
  {
    hide Judge, StatesOk, EarlierSpurious, TargetsOk, BallotsOk, NoncesOk, KeysOk, TreesOk, WindowsOk, LiveOk,
         CountsOk, Extends, ExpiryPayout, Owed, RegistryOk, LeavesOk, SettledVoters, OpenBonds;
    var d := s.disputes[id];
    OpenTarget(s, id);
    ReleaseKeeps(s.reg, d.target);
    SettleFiles(s, id, Expired, Release(s.reg, d.target));
    var c := ExpiryPayout(d, s.bank);
    ExpiryConserves(s.bank, d);
    SettleMoney(s.bank, c, s.disputes, id, Expired);
    SettleKeeps(s, id, Expired, c, Release(s.reg, d.target));
    JudgeIs(s.docs, d.target);
  }
}
