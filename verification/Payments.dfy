/** Pull payments pay each wei once, whatever the payee does during the transfer. */
module Payments {
  import opened Common
  import opened Merkle
  import opened Docket
  import opened DocketFacts
  import opened Treasury
  import opened Committee
  import opened Exposure
  import opened Protocol
  import opened Invariants
  import opened Preservation
  import DR = DidRegistry

  lemma FraudPaysNobody(cfg: Config, wrongSide: seq<Address>, d: Dispute, relay: Address, b: Bank)
    ensures FraudPayout(cfg, wrongSide, d, relay, b).withdrawn == b.withdrawn
  {
    hide Collect, PayAttesters, SlashAll, Owed, Sum;
    SlashAllConserves(b, wrongSide, cfg.verifierSlashAmount, d.challenger);
    var b0 := SlashAll(b, wrongSide, cfg.verifierSlashAmount, d.challenger);
    CollectConserves(b0, relay, cfg.relaySlashAmount, false);
    var (b1, collected) := Collect(b0, relay, cfg.relaySlashAmount, false);
    PayConserves(Credit(b1, d.challenger, collected * 3 / 5), d.fraudAttesters, collected * 2 / 5);
  }

  lemma SpuriousPaysNobody(d: Dispute, relay: Address, b: Bank)
    ensures SpuriousPayout(d, relay, b).withdrawn == b.withdrawn
  {
    hide PayAttesters, Owed, Sum;
    PayConserves(b, d.validAttesters, d.bond / 2);
  }

  lemma VerdictsPayNobody(s: State, id: nat)
    requires id < |s.disputes|
    ensures ResolveFraud(s, id).Ok? ==> ResolveFraud(s, id).state.bank.withdrawn == s.bank.withdrawn
    ensures ResolveSpurious(s, id).Ok? ==> ResolveSpurious(s, id).state.bank.withdrawn == s.bank.withdrawn
  {
    hide CanRelease, CanClose, Release, Filed, Revoke, Reinstate, FraudPayout, SpuriousPayout;
    var d := s.disputes[id];
    if Exists(s.docs, d.target) {
      var relay := RelayOf(s.docs, d.target);
      FraudPaysNobody(s.cfg, ListOf(Filed(s.reg, d), d.target), d, relay, s.bank);
      SpuriousPaysNobody(d, relay, s.bank);
    }
  }

  lemma AttestationPaysNobody(s: State, id: nat, isFraud: bool, signer: Option<Address>)
    requires SubmitAttestation(s, id, isFraud, signer).Ok?
    ensures SubmitAttestation(s, id, isFraud, signer).state.bank.withdrawn == s.bank.withdrawn
  {
    hide ResolveFraud, ResolveSpurious;
    VerdictsPayNobody(Vote(s, id, isFraud, signer.value), id);
  }

  /** No call but a withdrawal sends money out. */
  lemma PlainStepPaysNobody(s: State, c: Call)
    requires !c.WithdrawCall? && Step(s, c).Ok?
    ensures Step(s, c).state.bank.withdrawn == s.bank.withdrawn
  {
    hide CanRelease, Release, ReleaseLeaves, Fold, BatchLeaves, Root, Bumped, SetRecord, SetBatch, CanClose, Revoke,
         MarkDisputed, DR.Register, DR.Deactivate, SubmitAttestation, Discharge;
    match c
    case SubmitAttestationCall(id, fraud, signer) => AttestationPaysNobody(s, id, fraud, signer);
    case _ =>
  }

  /** Under the guard nothing is paid out, whatever is called. */
  lemma {:induction false} GuardedPaysNobody(s: State, cs: seq<Call>)
    requires Inv(s) && s.locked
    ensures AfterAll(s, cs).bank.withdrawn == s.bank.withdrawn
    decreases cs
  {
    hide Inv;
    if cs != [] {
      var c := cs[0];
      StepKeeps(s, c);
      if Step(s, c).Ok? && !c.WithdrawCall? {
        PlainStepPaysNobody(s, c);
      }
      GuardedPaysNobody(After(s, c), cs[1..]);
    }
  }

  /** A withdrawal succeeds exactly when the guard is free, something is owed and the
      payee accepts: the balance always covers it. It pays the whole claim as it
      stood, once, to the claimant alone, whatever calls the payee slips in. */
  lemma WithdrawalPaysOnce(s: State, a: Address, inner: seq<Call>, ok: bool)
    requires Inv(s)
    ensures Step(s, WithdrawCall(a, inner, ok)) == Withdraw(s, a, inner, ok)
    ensures Withdraw(s, a, inner, ok) == Revert(Reentrant) <==> s.locked
    ensures Withdraw(s, a, inner, ok) == Revert(NothingToWithdraw) <==> !s.locked && Get(s.bank.pending, a) == 0
    ensures Withdraw(s, a, inner, ok) == Revert(TransferFailed) <==> !s.locked && Get(s.bank.pending, a) > 0 && !ok
    ensures Withdraw(s, a, inner, ok).Ok? <==> !s.locked && ok && Get(s.bank.pending, a) > 0
    ensures Withdraw(s, a, inner, ok).Ok? ==>
              var b := Withdraw(s, a, inner, ok).state.bank;
              && (forall x :: Get(b.withdrawn, x) ==
                              Get(s.bank.withdrawn, x) + (if x == a then Get(s.bank.pending, a) else 0))
              && (forall x :: Get(b.credited, x) == Get(b.withdrawn, x) + Get(b.pending, x))
  {
    PaysOutSafely(s, a);
    StepKeeps(s, WithdrawCall(a, inner, ok));
    assert Step(s, WithdrawCall(a, inner, ok)) == Withdraw(s, a, inner, ok);
    var mid := s.(locked := true, bank := PaidOut(s.bank, a));
    GuardedPaysNobody(mid, inner);
    hide RosterOk, NoncesOk, KeysOk, CaseOk, CountsOk, BallotsOk, WindowsOk, TreesOk, FilesOk, QuorumsOk, Solvent;
  }
}
