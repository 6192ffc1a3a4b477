/** Every movement of money keeps the contract exactly solvent and every
    account's credits accounted for. */
module Money {
  import opened Common
  import opened Docket
  import opened DocketFacts
  import opened Treasury
  import opened Protocol
  import opened Invariants

  lemma StakeMoney(b: Bank, ds: seq<Dispute>, a: Address, value: nat)
    requires MoneyOk(b, ds)
    ensures MoneyOk(Deposit(b.(relayStake := Add(b.relayStake, a, value)), value), ds)
    ensures MoneyOk(Deposit(b.(verifierStake := Add(b.verifierStake, a, value)), value), ds)
  {
    hide Sum;
    SumPut(b.relayStake, a, Get(b.relayStake, a) + value);
    SumPut(b.verifierStake, a, Get(b.verifierStake, a) + value);
  }

  lemma UnstakeMoney(b: Bank, ds: seq<Dispute>, a: Address)
    requires MoneyOk(b, ds)
    ensures MoneyOk(Credit(b.(relayStake := b.relayStake[a := 0]), a, Get(b.relayStake, a)), ds)
    ensures MoneyOk(Credit(b.(verifierStake := b.verifierStake[a := 0]), a, Get(b.verifierStake, a)), ds)
  {
    hide Sum, Credit;
    SumPut(b.relayStake, a, 0);
    SumPut(b.verifierStake, a, 0);
    CreditConserves(b.(relayStake := b.relayStake[a := 0]), a, Get(b.relayStake, a));
    CreditConserves(b.(verifierStake := b.verifierStake[a := 0]), a, Get(b.verifierStake, a));
  }

  /** A claim never exceeds the balance, and paying it out at the external call keeps the books. */
  lemma PaidOutMoney(b: Bank, ds: seq<Dispute>, a: Address)
    requires MoneyOk(b, ds)
    ensures Get(b.pending, a) <= b.balance && MoneyOk(PaidOut(b, a), ds)
  {
    hide Sum;
    SumPut(b.pending, a, 0);
  }

  lemma AdmitMoney(b: Bank, ds: seq<Dispute>, d: Dispute)
    requires MoneyOk(b, ds) && d.verdict.Open?
    ensures MoneyOk(Deposit(b, d.bond), ds + [d])
  {
    hide Sum, OpenBonds;
    OpenBondsAdmit(ds, d);
  }

  lemma VoteMoney(b: Bank, ds: seq<Dispute>, i: nat, d: Dispute)
    requires MoneyOk(b, ds) && i < |ds| && d.bond == ds[i].bond && d.verdict == ds[i].verdict
    ensures MoneyOk(b, ds[i := d])
  {
    OpenBondsSettle(ds, i, d);
  }

  /** At a settlement the bond stops being held, so it must show up elsewhere. */
  lemma SettleMoney(b: Bank, b': Bank, ds: seq<Dispute>, i: nat, verdict: Verdict)
    requires MoneyOk(b, ds) && i < |ds| && ds[i].verdict.Open? && !verdict.Open?
    requires b'.balance == b.balance && PaidOnce(b')
    requires Owed(b') + b'.retained == Owed(b) + b.retained + ds[i].bond
    ensures MoneyOk(b', ds[i := ds[i].(verdict := verdict)])
  {
    OpenBondsSettle(ds, i, ds[i].(verdict := verdict));
  }

  /** Expiry: half the bond is claimable again and exactly the other half, rounded up, is retained. */
  lemma ExpiryConserves(b: Bank, d: Dispute)
    requires PaidOnce(b)
    ensures var c := ExpiryPayout(d, b);
            && PaidOnce(c) && c.balance == b.balance
            && Owed(c) + c.retained == Owed(b) + b.retained + d.bond
            && c.retained - b.retained == (d.bond + 1) / 2
            && Sum(c.pending) == Sum(b.pending) + d.bond / 2
            && c.relayStake == b.relayStake && c.verifierStake == b.verifierStake
  {
    hide Sum;
    CreditConserves(b, d.challenger, d.bond / 2);
  }

  /** Spurious verdict: the whole bond is credited except the remainder of its equal shares. */
  lemma SpuriousConserves(b: Bank, d: Dispute, relay: Address)
    requires PaidOnce(b)
    ensures var c := SpuriousPayout(d, relay, b);
            var dust := Unpaid(|d.validAttesters|, d.bond / 2);
            && PaidOnce(c) && c.balance == b.balance
            && Owed(c) + c.retained == Owed(b) + b.retained + d.bond
            && c.retained - b.retained == dust
            && Sum(c.pending) + dust == Sum(b.pending) + d.bond
            && (|d.validAttesters| > 0 ==> dust < |d.validAttesters|)
            && c.relayStake == b.relayStake && c.verifierStake == b.verifierStake
  {
    hide Sum, Credit, PayAttesters;
    if |d.validAttesters| > 0 {
      UnpaidRemainder(|d.validAttesters|, d.bond / 2);
    }
    PayConserves(b, d.validAttesters, d.bond / 2);
    CreditConserves(PayAttesters(b, d.validAttesters, d.bond / 2), relay, d.bond - d.bond / 2);
  }

  /** Fraud verdict: what is credited is the stake deducted plus the bond, less
      dust of at most one wei per fraud attester. */
  lemma FraudConserves(cfg: Config, wrongSide: seq<Address>, d: Dispute, relay: Address, b: Bank)
    requires PaidOnce(b)
    ensures var c := FraudPayout(cfg, wrongSide, d, relay, b);
            var dust := FraudRetained(Collected(cfg, wrongSide, d, relay, b).1, |d.fraudAttesters|);
            && PaidOnce(c) && c.balance == b.balance
            && Owed(c) + c.retained == Owed(b) + b.retained + d.bond
            && c.retained - b.retained == dust
            && (|d.fraudAttesters| > 0 ==> dust <= |d.fraudAttesters|)
  {
    hide Sum, Credit, PayAttesters, SlashAll, Collect;
    var b0 := SlashAll(b, wrongSide, cfg.verifierSlashAmount, d.challenger);
    SlashAllConserves(b, wrongSide, cfg.verifierSlashAmount, d.challenger);
    CollectConserves(b0, relay, cfg.relaySlashAmount, false);
    var (b1, collected) := Collect(b0, relay, cfg.relaySlashAmount, false);
    CreditConserves(b1, d.challenger, collected * 3 / 5);
    var b2 := Credit(b1, d.challenger, collected * 3 / 5);
    PayConserves(b2, d.fraudAttesters, collected * 2 / 5);
    var b3 := PayAttesters(b2, d.fraudAttesters, collected * 2 / 5);
    CreditConserves(b3, d.challenger, d.bond);
    if |d.fraudAttesters| > 0 {
      FraudDust(collected, |d.fraudAttesters|);
    }
  }
}
