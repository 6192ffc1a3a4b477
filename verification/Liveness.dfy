/** Nothing is locked for ever: from every state a run reaches, calls that need
    nobody's cooperation wind the contract down to the wei it retains. */
module Liveness {
  import opened Common
  import opened Docket
  import opened DocketFacts
  import opened Treasury
  import opened Committee
  import opened Exposure
  import opened Protocol
  import opened Invariants
  import opened Preservation
  import opened Verdicts
  import opened Payments
  import opened Theorems
  import opened Exits

  // ---------- Going on ----------

  /** Expiring and finalizing, open to anyone, and an account's own exit and withdrawal. */
  predicate Permitted(c: Call) {
    || c.ExpireDisputeCall? || c.FinalizeRecordCall? || c.FinalizeBatchCall?
    || c.AnnounceUnstakeCall? || c.UnstakeRelayCall?
    || c.DeregisterVerifierCall? || c.AnnounceVerifierUnstakeCall? || c.UnstakeVerifierCall?
    || (c.WithdrawCall? && c.inner == [] && c.ok)
  }

  predicate AllPermitted(txs: seq<Tx>) {
    forall i :: 0 <= i < |txs| ==> Permitted(txs[i].call)
  }

  ghost predicate Reaches(s: State, e: State) {
    exists txs :: Timely(s.clock, txs) && AllPermitted(txs) && Run(s, txs) == e
  }

  /** All an account has and was paid. */
  function Holdings(b: Bank, a: Address): nat {
    Pools(b, a) + Get(b.pending, a) + Get(b.withdrawn, a)
  }

  /** Permitted calls lead from `s` to `e`, and cost nobody anything. */
  ghost predicate Onward(s: State, e: State) {
    && Reaches(s, e) && Inv(e) && !e.locked
    && forall a :: Holdings(s.bank, a) <= Holdings(e.bank, a)
  }

  lemma OnwardSame(s: State)
    requires Inv(s) && !s.locked
    ensures Onward(s, s)
  {
    assert Run(s, []) == s;
    hide Inv, Holdings;
    assert Reaches(s, s);
  }

  lemma OnwardTransitive(x: State, y: State, z: State)
    requires Inv(x) && Onward(x, y) && Onward(y, z)
    ensures Onward(x, z)
  {
    hide Inv, Holdings, Run, Timely;
    var xs :| Timely(x.clock, xs) && AllPermitted(xs) && Run(x, xs) == y;
    var ys :| Timely(y.clock, ys) && AllPermitted(ys) && Run(y, ys) == z;
    TimelyAppend(x, xs, ys);
    RunAppend(x, xs, ys);
    assert Reaches(x, z);
    forall a ensures Holdings(x.bank, a) <= Holdings(z.bank, a) {
      assert Holdings(x.bank, a) <= Holdings(y.bank, a);
    }
  }

  lemma ExpiryHoldings(s: State, id: nat, a: Address)
    requires Inv(s) && ExpireDispute(s, id).Ok?
    ensures Holdings(s.bank, a) <= Holdings(ExpireDispute(s, id).state.bank, a)
  {
    hide Core, QuorumsOk, ExpireDispute, Terminal, Exists;
    ExpiryEnabled(s, id);
    ExpiryVerdict(s, id);
    PlainStepPaysNobody(s, ExpireDisputeCall(id));
    var d, s' := s.disputes[id], ExpireDispute(s, id).state;
    assert Get(s'.bank.pending, a) == Get(s.bank.pending, a) + (if a == d.challenger then d.bond / 2 else 0);
  }

  lemma WithdrawalHoldings(s: State, to: Address, inner: seq<Call>, a: Address)
    requires Inv(s) && inner == [] && Withdraw(s, to, inner, true).Ok?
    ensures Holdings(s.bank, a) <= Holdings(Withdraw(s, to, inner, true).state.bank, a)
  {
    WithdrawalPaysOnce(s, to, inner, true);
    hide Inv;
    var mid := s.(locked := true, bank := PaidOut(s.bank, to));
    assert AfterAll(mid, inner) == mid;
  }

  /** `c` is `b` with one pool of `a` moved to its claims. */
  ghost predicate PulledOut(b: Bank, c: Bank, a: Address) {
    && c.withdrawn == b.withdrawn && Pools(c, a) + Get(c.pending, a) == Pools(b, a) + Get(b.pending, a)
    && forall x :: x != a ==> Pools(c, x) == Pools(b, x) && Get(c.pending, x) == Get(b.pending, x)
  }

  lemma RelayPulledOut(b: Bank, a: Address)
    ensures var c := Credit(b.(relayStake := b.relayStake[a := 0]), a, Get(b.relayStake, a));
            PulledOut(b, c, a) && Get(c.relayStake, a) == 0 && c.verifierStake == b.verifierStake
  {
  }

  lemma VerifierPulledOut(b: Bank, a: Address)
    ensures var c := Credit(b.(verifierStake := b.verifierStake[a := 0]), a, Get(b.verifierStake, a));
            PulledOut(b, c, a) && Get(c.verifierStake, a) == 0 && c.relayStake == b.relayStake
  {
  }

  lemma UnstakeHoldings(s: State, who: Address, a: Address)
    ensures UnstakeRelay(s, who).Ok? ==> Holdings(s.bank, a) <= Holdings(UnstakeRelay(s, who).state.bank, a)
    ensures UnstakeVerifier(s, who).Ok? ==> Holdings(s.bank, a) <= Holdings(UnstakeVerifier(s, who).state.bank, a)
  {
    hide Credit, Pools, ExitDue;
    RelayPulledOut(s.bank, who);
    VerifierPulledOut(s.bank, who);
  }

  lemma PermittedHoldings(s: State, c: Call, a: Address)
    requires Inv(s) && Permitted(c) && Step(s, c).Ok?
    ensures Holdings(s.bank, a) <= Holdings(Step(s, c).state.bank, a)
  {
    hide Inv, CanRelease, Release, ReleaseLeaves, SetRecord, SetBatch, ExpireDispute, Withdraw, Discharge,
         UnstakeRelay, UnstakeVerifier, Holdings;
    match c
    case UnstakeRelayCall(who) => UnstakeHoldings(s, who, a);
    case UnstakeVerifierCall(who) => UnstakeHoldings(s, who, a);
    case ExpireDisputeCall(id) =>
      ExpiryHoldings(s, id, a);
    case WithdrawCall(to, inner, ok) =>
      WithdrawalHoldings(s, to, inner, a);
      assert Step(s, c) == Withdraw(s, to, inner, ok);
    case _ =>
  }

  lemma OnwardStep(s: State, tx: Tx)
    requires Inv(s) && !s.locked && s.clock <= tx.now && Permitted(tx.call)
    ensures Onward(s, Exec(s, tx)) && Exec(s, tx).clock == tx.now
  {
    hide Inv, Holdings, Run, Step;
    var now := s.(clock := tx.now);
    TimePasses(s, tx.now);
    ExecKeeps(s, tx);
    RunOne(s, tx);
    assert Timely(s.clock, [tx]);
    assert Reaches(s, Exec(s, tx));
    forall a ensures Holdings(s.bank, a) <= Holdings(Exec(s, tx).bank, a) {
      if Step(now, tx.call).Ok? {
        PermittedHoldings(now, tx.call, a);
      }
    }
  }

  // ---------- Every dispute expires, every document becomes final ----------

  function Max(x: nat, y: nat): nat {
    if x < y then y else x
  }

  ghost predicate Settled(ds: seq<Dispute>, n: nat) {
    forall k :: 0 <= k < |ds| && k < n ==> !ds[k].verdict.Open?
  }

  lemma {:induction false} ExpireAll(s: State, id: nat) returns (e: State)
    requires Inv(s) && !s.locked && id <= |s.disputes| && Settled(s.disputes, id)
    ensures Onward(s, e) && Settled(e.disputes, |e.disputes|)
    decreases |s.disputes| - id
  {
    hide Inv, Onward;
    if id == |s.disputes| {
      e := s;
      OnwardSame(s);
    } else if !s.disputes[id].verdict.Open? {
      e := ExpireAll(s, id + 1);
    } else {
      var tx := Tx(Max(s.clock, s.disputes[id].deadline + 1), ExpireDisputeCall(id));
      OnwardStep(s, tx);
      Expires(s, id, tx.now);
      var s1 := Exec(s, tx);
      OnwardInv(s, s1);
      e := ExpireAll(s1, id + 1);
      OnwardTransitive(s, s1, e);
    }
  }

  lemma OnwardInv(s: State, e: State)
    requires Onward(s, e)
    ensures Inv(e) && !e.locked
  {
  }

  lemma Expires(s: State, id: nat, now: nat)
    requires Inv(s) && !s.locked && id < |s.disputes| && s.disputes[id].verdict.Open?
    requires s.clock <= now && s.disputes[id].deadline < now
    ensures Exec(s, Tx(now, ExpireDisputeCall(id))).disputes ==
            s.disputes[id := s.disputes[id].(verdict := Expired)]
  {
    hide Inv, CanRelease, CanClose, Release, Revoke, ExpiryPayout;
    TimePasses(s, now);
    ExpiryEnabled(s.(clock := now), id);
    StepTaken(s, Tx(now, ExpireDisputeCall(id)));
  }

  ghost predicate Judged(rs: seq<Record>, n: nat) {
    forall k :: 0 <= k < |rs| && k < n ==> !rs[k].state.Provisional?
  }

  lemma {:induction false} FinalizeRecords(s: State, i: nat) returns (e: State)
    requires Inv(s) && !s.locked && i <= |s.docs.records| && Judged(s.docs.records, i)
    ensures Onward(s, e) && e.disputes == s.disputes && Judged(e.docs.records, |e.docs.records|)
    decreases |s.docs.records| - i
  {
    hide Inv, Onward;
    if i == |s.docs.records| {
      e := s;
      OnwardSame(s);
    } else if !s.docs.records[i].state.Provisional? {
      e := FinalizeRecords(s, i + 1);
    } else {
      var tx := Tx(Max(s.clock, s.docs.records[i].submittedAt + s.cfg.challengePeriod), FinalizeRecordCall(i));
      OnwardStep(s, tx);
      RecordFinalizes(s, i, tx.now);
      var s1 := Exec(s, tx);
      OnwardInv(s, s1);
      e := FinalizeRecords(s1, i + 1);
      OnwardTransitive(s, s1, e);
    }
  }

  lemma RecordFinalizes(s: State, i: nat, now: nat)
    requires Inv(s) && i < |s.docs.records| && s.docs.records[i].state.Provisional?
    requires s.clock <= now && s.docs.records[i].submittedAt + s.cfg.challengePeriod <= now
    ensures var e := Exec(s, Tx(now, FinalizeRecordCall(i)));
            e.docs == SetRecord(s.docs, i, Confirmed) && e.disputes == s.disputes
  {
    hide Inv, CanRelease, Release;
    TimePasses(s, now);
    FinalizationEnabled(s.(clock := now), i);
    StepTaken(s, Tx(now, FinalizeRecordCall(i)));
  }

  ghost predicate Finalized(bs: seq<Batch>, n: nat) {
    forall k :: 0 <= k < |bs| && k < n ==> !bs[k].state.Provisional?
  }

  lemma {:induction false} FinalizeBatches(s: State, b: nat) returns (e: State)
    requires Inv(s) && !s.locked && Settled(s.disputes, |s.disputes|)
    requires b <= |s.docs.batches| && Finalized(s.docs.batches, b)
    ensures Onward(s, e) && e.disputes == s.disputes
    ensures e.docs.records == s.docs.records && Finalized(e.docs.batches, |e.docs.batches|)
    decreases |s.docs.batches| - b
  {
    hide Inv, Onward;
    if b == |s.docs.batches| {
      e := s;
      OnwardSame(s);
    } else if !s.docs.batches[b].state.Provisional? {
      e := FinalizeBatches(s, b + 1);
    } else {
      var tx := Tx(Max(s.clock, s.docs.batches[b].submittedAt + s.cfg.challengePeriod), FinalizeBatchCall(b));
      OnwardStep(s, tx);
      BatchFinalizes(s, b, tx.now);
      var s1 := Exec(s, tx);
      OnwardInv(s, s1);
      e := FinalizeBatches(s1, b + 1);
      OnwardTransitive(s, s1, e);
    }
  }

  lemma BatchFinalizes(s: State, b: nat, now: nat)
    requires Inv(s) && Settled(s.disputes, |s.disputes|) && b < |s.docs.batches| && s.docs.batches[b].state.Provisional?
    requires s.clock <= now && s.docs.batches[b].submittedAt + s.cfg.challengePeriod <= now
    ensures var e := Exec(s, Tx(now, FinalizeBatchCall(b)));
            e.docs == SetBatch(s.docs, b, Confirmed) && e.disputes == s.disputes
  {
    hide Inv, ReleaseLeaves;
    TimePasses(s, now);
    assert OpenInBatch(s.disputes, b) == {};
    FinalizationEnabled(s.(clock := now), b);
    StepTaken(s, Tx(now, FinalizeBatchCall(b)));
  }

  /** No dispute is open and no target undecided. */
  ghost predicate Quiet(s: State) {
    && Settled(s.disputes, |s.disputes|)
    && forall t :: Exists(s.docs, t) ==> Terminal(s.docs, t)
  }

  lemma QuietOnce(s: State)
    requires Inv(s) && Settled(s.disputes, |s.disputes|)
    requires Judged(s.docs.records, |s.docs.records|) && Finalized(s.docs.batches, |s.docs.batches|)
    ensures Quiet(s)
  {
    hide MoneyOk, RosterOk, NoncesOk, KeysOk, CountsOk, BallotsOk, TreesOk, FilesOk, QuorumsOk, TargetsOk;
    forall t | Exists(s.docs, t) ensures Terminal(s.docs, t) {
      if t.RecordTarget? {
        var j := LastVerdictIndex(s.disputes, t);
        assert RecordFits(s.docs.records[t.index].state, LastVerdict(s.disputes, t));
      }
    }
  }

  lemma FallsQuiet(s: State) returns (e: State)
    requires Inv(s) && !s.locked
    ensures Onward(s, e) && Quiet(e)
  {
    hide Inv, Onward, Quiet;
    var s1 := ExpireAll(s, 0);
    OnwardInv(s, s1);
    var s2 := FinalizeRecords(s1, 0);
    OnwardInv(s1, s2);
    e := FinalizeBatches(s2, 0);
    OnwardInv(s2, e);
    QuietOnce(e);
    OnwardTransitive(s, s1, s2);
    OnwardTransitive(s, s2, e);
  }

  // ---------- One account after another takes everything out ----------

  lemma QuietHoldsNobody(s: State, a: Address)
    requires Inv(s) && Quiet(s)
    ensures LiveTargets(s, a) == {} && OpenNaming(s.docs, s.disputes, a) == {}
  {
    hide Inv, Terminal;
  }

  /** Everyone but `a` is as before, and so are documents and disputes. */
  ghost predicate Apart(s: State, e: State, a: Address) {
    && e.docs == s.docs && e.disputes == s.disputes
    && forall b :: b != a ==> Pools(e.bank, b) == Pools(s.bank, b) && Get(e.bank.pending, b) == Get(s.bank.pending, b)
  }

  lemma Announced(s: State, a: Address)
    requires Inv(s) && !s.locked && Quiet(s)
    ensures var e := Exec(s, Tx(s.clock, AnnounceUnstakeCall(a)));
            && e == s.(relayExit := e.relayExit)
            && (Get(s.bank.relayStake, a) > 0 ==> Get(e.relayExit, a) == s.clock + UNSTAKE_DELAY)
  {
    hide Inv, Quiet, OpenNaming;
    QuietHoldsNobody(s, a);
    RelayExits(s, a);
    StepTaken(s, Tx(s.clock, AnnounceUnstakeCall(a)));
    assert s.(clock := s.clock) == s;
  }

  lemma UnstakeEffects(s: State, a: Address)
    ensures UnstakeRelay(s, a).Ok? ==>
              var e := UnstakeRelay(s, a).state;
              Apart(s, e, a) && Get(e.bank.relayStake, a) == 0 && e.bank.verifierStake == s.bank.verifierStake
    ensures UnstakeVerifier(s, a).Ok? ==>
              var e := UnstakeVerifier(s, a).state;
              Apart(s, e, a) && Get(e.bank.verifierStake, a) == 0 && e.bank.relayStake == s.bank.relayStake
  {
    hide Credit, Pools, ExitDue;
    RelayPulledOut(s.bank, a);
    VerifierPulledOut(s.bank, a);
  }

  lemma ApartInTime(s: State, now: nat, e: State, a: Address)
    ensures Apart(s.(clock := now), e, a) <==> Apart(s, e, a)
    ensures Apart(s, s.(clock := now), a)
  {
  }

  lemma Unstaked(s: State, a: Address, now: nat)
    requires Inv(s) && !s.locked && Quiet(s) && s.clock <= now
    requires Get(s.bank.relayStake, a) > 0 ==> ExitDue(s.relayExit, a, now)
    ensures var e := Exec(s, Tx(now, UnstakeRelayCall(a)));
            && Apart(s, e, a) && Get(e.bank.relayStake, a) == 0 && e.bank.verifierStake == s.bank.verifierStake
  {
    hide Inv, Quiet, OpenNaming, UnstakeRelay, Apart;
    TimePasses(s, now);
    QuietHoldsNobody(s, a);
    RelayExits(s.(clock := now), a);
    UnstakeEffects(s.(clock := now), a);
    ApartInTime(s, now, Exec(s, Tx(now, UnstakeRelayCall(a))), a);
    StepTaken(s, Tx(now, UnstakeRelayCall(a)));
  }

  lemma QuietKept(s: State, e: State, a: Address)
    requires Quiet(s) && Apart(s, e, a)
    ensures Quiet(e)
  {
  }

  lemma LeaveRelay(s: State, a: Address) returns (e: State)
    requires Inv(s) && !s.locked && Quiet(s)
    ensures Onward(s, e) && Apart(s, e, a)
    ensures Get(e.bank.relayStake, a) == 0 && e.bank.verifierStake == s.bank.verifierStake
  {
    hide Inv, Onward, Quiet, Exec;
    var tx, ty := Tx(s.clock, AnnounceUnstakeCall(a)), Tx(s.clock + UNSTAKE_DELAY, UnstakeRelayCall(a));
    var s1 := Exec(s, tx);
    OnwardStep(s, tx);
    OnwardInv(s, s1);
    Announced(s, a);
    QuietKept(s, s1, a);
    e := Exec(s1, ty);
    OnwardStep(s1, ty);
    Unstaked(s1, a, ty.now);
    OnwardTransitive(s, s1, e);
  }

  lemma Deregistered(s: State, a: Address)
    requires Inv(s) && !s.locked && Quiet(s)
    ensures var e := Exec(s, Tx(s.clock, DeregisterVerifierCall(a)));
            e == s.(roster := e.roster) && a !in e.roster.registered
  {
    hide Inv, Quiet, LiveTargets;
    QuietHoldsNobody(s, a);
    VerifierExits(s, a);
    StepTaken(s, Tx(s.clock, DeregisterVerifierCall(a)));
    assert s.(clock := s.clock) == s;
  }

  lemma VerifierAnnounced(s: State, a: Address)
    requires Inv(s) && !s.locked && Quiet(s)
    ensures var e := Exec(s, Tx(s.clock, AnnounceVerifierUnstakeCall(a)));
            && e == s.(verifierExit := e.verifierExit)
            && (Get(s.bank.verifierStake, a) > 0 ==> Get(e.verifierExit, a) == s.clock + UNSTAKE_DELAY)
  {
    hide Inv, Quiet, LiveTargets;
    QuietHoldsNobody(s, a);
    VerifierExits(s, a);
    StepTaken(s, Tx(s.clock, AnnounceVerifierUnstakeCall(a)));
    assert s.(clock := s.clock) == s;
  }

  lemma LiveTargetsTimeless(s: State, now: nat, a: Address)
    ensures LiveTargets(s.(clock := now), a) == LiveTargets(s, a)
  {
  }

  lemma VerifierUnstaked(s: State, a: Address, now: nat)
    requires Inv(s) && !s.locked && Quiet(s) && s.clock <= now && a !in s.roster.registered
    requires Get(s.bank.verifierStake, a) > 0 ==> ExitDue(s.verifierExit, a, now)
    ensures var e := Exec(s, Tx(now, UnstakeVerifierCall(a)));
            && Apart(s, e, a) && Get(e.bank.verifierStake, a) == 0 && e.bank.relayStake == s.bank.relayStake
  {
    hide Inv, Quiet, LiveTargets, UnstakeVerifier, Apart;
    TimePasses(s, now);
    QuietHoldsNobody(s, a);
    LiveTargetsTimeless(s, now, a);
    VerifierExits(s.(clock := now), a);
    UnstakeEffects(s.(clock := now), a);
    ApartInTime(s, now, Exec(s, Tx(now, UnstakeVerifierCall(a))), a);
    StepTaken(s, Tx(now, UnstakeVerifierCall(a)));
  }

  lemma LeaveVerifier(s: State, a: Address) returns (e: State)
    requires Inv(s) && !s.locked && Quiet(s)
    ensures Onward(s, e) && Apart(s, e, a)
    ensures Get(e.bank.verifierStake, a) == 0 && e.bank.relayStake == s.bank.relayStake
  {
    hide Inv, Onward, Quiet, Exec;
    var tx, ty := Tx(s.clock, DeregisterVerifierCall(a)), Tx(s.clock, AnnounceVerifierUnstakeCall(a));
    var tz := Tx(s.clock + UNSTAKE_DELAY, UnstakeVerifierCall(a));
    var s1 := Exec(s, tx);
    OnwardStep(s, tx);
    OnwardInv(s, s1);
    Deregistered(s, a);
    QuietKept(s, s1, a);
    var s2 := Exec(s1, ty);
    OnwardStep(s1, ty);
    OnwardInv(s1, s2);
    VerifierAnnounced(s1, a);
    QuietKept(s1, s2, a);
    e := Exec(s2, tz);
    OnwardStep(s2, tz);
    VerifierUnstaked(s2, a, tz.now);
    OnwardTransitive(s, s1, s2);
    OnwardTransitive(s, s2, e);
  }

  lemma Claimed(s: State, a: Address)
    requires Inv(s) && !s.locked
    ensures var e := Exec(s, Tx(s.clock, WithdrawCall(a, [], true)));
            && Apart(s, e, a) && Get(e.bank.pending, a) == 0
            && e.bank.relayStake == s.bank.relayStake && e.bank.verifierStake == s.bank.verifierStake
  {
    hide Inv;
    var c := WithdrawCall(a, [], true);
    StepTaken(s, Tx(s.clock, c));
    assert s.(clock := s.clock) == s;
    PaysOutSafely(s, a);
    WithdrawalPaysOnce(s, a, c.inner, true);
    var mid := s.(locked := true, bank := PaidOut(s.bank, a));
    assert AfterAll(mid, c.inner) == mid;
    assert Step(s, c) == Withdraw(s, a, c.inner, true);
  }

  lemma Departs(s: State, a: Address) returns (e: State)
    requires Inv(s) && !s.locked && Quiet(s)
    ensures Onward(s, e) && Apart(s, e, a)
    ensures Pools(e.bank, a) == 0 && Get(e.bank.pending, a) == 0
  {
    hide Inv, Onward, Quiet, Exec;
    var s1 := LeaveRelay(s, a);
    OnwardInv(s, s1);
    QuietKept(s, s1, a);
    var s2 := LeaveVerifier(s1, a);
    OnwardInv(s1, s2);
    var tx := Tx(s2.clock, WithdrawCall(a, [], true));
    e := Exec(s2, tx);
    OnwardStep(s2, tx);
    Claimed(s2, a);
    OnwardTransitive(s, s1, s2);
    OnwardTransitive(s, s2, e);
  }

  /** Nothing is left of any account but those of the list from position `i` on. */
  ghost predicate Emptied(b: Bank, list: seq<Address>, i: nat) {
    forall a :: a !in list[if i < |list| then i else |list|..] ==> Pools(b, a) == 0 && Get(b.pending, a) == 0
  }

  lemma {:induction false} AllDepart(s: State, list: seq<Address>, i: nat) returns (e: State)
    requires Inv(s) && !s.locked && Quiet(s) && i <= |list| && Emptied(s.bank, list, i)
    ensures Onward(s, e) && Quiet(e) && Emptied(e.bank, list, |list|)
    decreases |list| - i
  {
    hide Inv, Onward, Quiet, Pools;
    if i == |list| {
      e := s;
      OnwardSame(s);
    } else {
      var s1 := Departs(s, list[i]);
      OnwardInv(s, s1);
      QuietKept(s, s1, list[i]);
      assert list[i..] == [list[i]] + list[i + 1..];
      e := AllDepart(s1, list, i + 1);
      OnwardTransitive(s, s1, e);
    }
  }

  lemma {:induction false} Listing(xs: set<Address>) returns (list: seq<Address>)
    ensures forall x :: x in xs ==> x in list
    decreases |xs|
  {
    if xs == {} {
      list := [];
    } else {
      var x :| x in xs;
      var rest := Listing(xs - {x});
      list := [x] + rest;
    }
  }

  lemma {:induction false} SumZero(m: map<Address, nat>)
    requires forall a :: Get(m, a) == 0
    ensures Sum(m) == 0
    decreases |m|
  {
    if m != map[] {
      var k :| k in m;
      SumRemove(m, k);
      assert Get(m, k) == 0;
      forall a ensures Get(m - {k}, a) == 0 {
        assert Get(m, a) == 0;
      }
      SumZero(m - {k});
    }
  }

  lemma {:induction false} NoBonds(ds: seq<Dispute>)
    requires forall k :: 0 <= k < |ds| ==> !ds[k].verdict.Open?
    ensures OpenBonds(ds) == 0
    decreases |ds|
  {
    if ds != [] {
      NoBonds(ds[..|ds| - 1]);
    }
  }

  lemma OnlyRetained(s: State, list: seq<Address>)
    requires Inv(s) && Quiet(s) && Emptied(s.bank, list, |list|)
    ensures s.bank.balance == s.bank.retained
    ensures forall a :: Pools(s.bank, a) == 0 && Get(s.bank.pending, a) == 0
  {
    hide RosterOk, NoncesOk, KeysOk, CaseOk, CountsOk, BallotsOk, WindowsOk, TreesOk, FilesOk, QuorumsOk, PaidOnce,
         Sum, OpenBonds;
    forall a ensures Pools(s.bank, a) == 0 && Get(s.bank.pending, a) == 0 {
    }
    forall a ensures Get(s.bank.relayStake, a) == 0 && Get(s.bank.verifierStake, a) == 0 {
      assert Pools(s.bank, a) == 0;
    }
    SumZero(s.bank.relayStake);
    SumZero(s.bank.verifierStake);
    SumZero(s.bank.pending);
    NoBonds(s.disputes);
  }

  /** From every state a run reaches there is a run of permitted calls, which the rest
      of the world can neither refuse nor delay, after which every dispute is settled
      and every target decided, every account has been paid all it had (and perhaps
      refunds of bonds on top), and the contract holds exactly the wei it retains. */
  lemma NothingLockedForever(s: State) returns (txs: seq<Tx>)
    requires Inv(s) && !s.locked
    ensures Timely(s.clock, txs) && AllPermitted(txs)
    ensures var e := Run(s, txs);
            && (forall a :: Pools(e.bank, a) == 0 && Get(e.bank.pending, a) == 0)
            && (forall a :: Get(e.bank.withdrawn, a) >=
                            Get(s.bank.withdrawn, a) + Get(s.bank.pending, a) + Pools(s.bank, a))
            && e.bank.balance == e.bank.retained
            && (forall i :: 0 <= i < |e.disputes| ==> !e.disputes[i].verdict.Open?)
            && (forall t :: Exists(e.docs, t) ==> Terminal(e.docs, t))
  {
    hide Inv, Run, Timely, Terminal, Pools, Emptied;
    var q := FallsQuiet(s);
    var list := Listing(q.bank.relayStake.Keys + q.bank.verifierStake.Keys + q.bank.pending.Keys);
    EmptyElsewhere(q.bank, list);
    var e := AllDepart(q, list, 0);
    OnlyRetained(e, list);
    OnwardTransitive(s, q, e);
    txs :| Timely(s.clock, txs) && AllPermitted(txs) && Run(s, txs) == e;
    forall a ensures Get(e.bank.withdrawn, a) >= Get(s.bank.withdrawn, a) + Get(s.bank.pending, a) + Pools(s.bank, a) {
      assert Holdings(s.bank, a) <= Holdings(e.bank, a);
      assert Pools(e.bank, a) == 0;
    }
  }

  lemma EmptyElsewhere(b: Bank, list: seq<Address>)
    requires forall x :: x in b.relayStake.Keys + b.verifierStake.Keys + b.pending.Keys ==> x in list
    ensures Emptied(b, list, 0)
  {
    assert list[0..] == list;
  }
}
