/** What each kind of settlement does to every account, exactly. */
module Verdicts {
  import opened Common
  import opened Docket
  import opened DocketFacts
  import opened Treasury
  import opened Exposure
  import opened ExposureFacts
  import opened Protocol
  import opened Invariants
  import opened Money
  import opened DisputeSteps

  // ---------- Closed forms of the payout loops ----------

  /** What slashing a list takes in all, judged by the pools before the first slash. */
  function Seized(b: Bank, list: seq<Address>, amount: nat): nat {
    if list == [] then 0 else Seized(b, list[..|list| - 1], amount) + Min(amount, Pools(b, list[|list| - 1]))
  }

  lemma SlashCredits(b: Bank, from: Address, amount: nat, to: Address, a: Address)
    ensures Get(Slash(b, from, amount, to, true).pending, a) ==
            Get(b.pending, a) + (if a == to then Min(amount, Pools(b, from)) else 0)
  {
  }

  /** Slashing a duplicate-free list credits the beneficiary, and only it, with all that was seized. */
  lemma {:induction false} SlashAllCredits(b: Bank, list: seq<Address>, amount: nat, to: Address, a: Address)
    requires NoDup(list)
    ensures Get(SlashAll(b, list, amount, to).pending, a) ==
            Get(b.pending, a) + (if a == to then Seized(b, list, amount) else 0)
    decreases |list|
  {
    hide Slash;
    if list != [] {
      var front, last := list[..|list| - 1], list[|list| - 1];
      assert list == front + [last];
      SlashAllCredits(b, front, amount, to, a);
      SlashAllTakes(b, front, amount, to, last);
      SlashCredits(SlashAll(b, front, amount, to), last, amount, to, a);
    }
  }

  lemma PayAttestersPays(b: Bank, list: seq<Address>, total: nat, a: Address)
    requires NoDup(list)
    ensures Get(PayAttesters(b, list, total).pending, a) ==
            Get(b.pending, a) + (if a in list then total / |list| else 0)
  {
    if |list| > 0 {
      CreditAllPays(b, list, total / |list|, a);
    }
  }

  lemma CollectTakes(b: Bank, from: Address, amount: nat, a: Address)
    ensures var c := Collect(b, from, amount, false).0;
            && c.pending == b.pending
            && if a == from then
                 Get(b.relayStake, a) - Get(c.relayStake, a) == Min(amount, Get(b.relayStake, a))
               else SamePools(b, c, a)
  {
  }

  // ---------- Fraud ----------

  /** Fraud verdict, every account: wrong-side verifiers lose the verifier slash
      or all they have, once; the relay loses the relay slash or all it had before
      the verdict; nobody else loses anything. */
  ghost predicate FraudTakes(cfg: Config, b: Bank, c: Bank, wrong: seq<Address>, relay: Address, a: Address) {
    if a in wrong then Slashed(b, c, a, cfg.verifierSlashAmount)
    else if a == relay then
      && Pools(b, a) - Pools(c, a) == Min(cfg.relaySlashAmount, Pools(b, a))
      && Get(b.relayStake, a) - Get(c.relayStake, a) == Min(cfg.relaySlashAmount, Get(b.relayStake, a))
    else SamePools(b, c, a)
  }

  /** The challenger gets the bond, all seized stakes and 60% of the relay slash;
      the fraud attesters share 40% equally; nobody else is credited. */
  function FraudCredit(cfg: Config, b: Bank, wrong: seq<Address>, relay: Address, d: Dispute, a: Address): nat {
    var collected := Min(cfg.relaySlashAmount, Pools(b, relay));
    (if a == d.challenger then Seized(b, wrong, cfg.verifierSlashAmount) + collected * 3 / 5 + d.bond else 0)
    + (if a in d.fraudAttesters then collected * 2 / 5 / |d.fraudAttesters| else 0)
  }

  /** What the relay loses does not depend on the slashing before it. */
  lemma CollectedIs(cfg: Config, b: Bank, wrong: seq<Address>, relay: Address, d: Dispute)
    requires NoDup(wrong) && relay !in wrong
    ensures Collected(cfg, wrong, d, relay, b).1 == Min(cfg.relaySlashAmount, Pools(b, relay))
  {
    SlashAllTakes(b, wrong, cfg.verifierSlashAmount, d.challenger, relay);
  }

  lemma CreditPays(b: Bank, to: Address, amount: nat, a: Address)
    ensures var c := Credit(b, to, amount);
            && Get(c.pending, a) == Get(b.pending, a) + (if a == to then amount else 0)
            && c.relayStake == b.relayStake && c.verifierStake == b.verifierStake
  {
  }

  lemma FraudPools(cfg: Config, b: Bank, wrong: seq<Address>, relay: Address, d: Dispute, a: Address)
    requires NoDup(wrong) && relay !in wrong
    ensures FraudTakes(cfg, b, FraudPayout(cfg, wrong, d, relay, b), wrong, relay, a)
  {
    hide SlashAll, Collect, PayAttesters, Credit;
    var b0 := SlashAll(b, wrong, cfg.verifierSlashAmount, d.challenger);
    SlashAllTakes(b, wrong, cfg.verifierSlashAmount, d.challenger, a);
    CollectTakes(b0, relay, cfg.relaySlashAmount, a);
    var (b1, collected) := Collect(b0, relay, cfg.relaySlashAmount, false);
    CreditPays(b1, d.challenger, collected * 3 / 5, a);
    var b2 := Credit(b1, d.challenger, collected * 3 / 5);
    PayConserves(b2, d.fraudAttesters, collected * 2 / 5);
    CreditPays(PayAttesters(b2, d.fraudAttesters, collected * 2 / 5), d.challenger, d.bond, a);
  }

  lemma FraudCredits(cfg: Config, b: Bank, wrong: seq<Address>, relay: Address, d: Dispute, a: Address)
    requires NoDup(wrong) && NoDup(d.fraudAttesters) && relay !in wrong
    ensures Get(FraudPayout(cfg, wrong, d, relay, b).pending, a) ==
            Get(b.pending, a) + FraudCredit(cfg, b, wrong, relay, d, a)
  {
    hide SlashAll, Collect, PayAttesters, Credit, Seized;
    var b0 := SlashAll(b, wrong, cfg.verifierSlashAmount, d.challenger);
    SlashAllCredits(b, wrong, cfg.verifierSlashAmount, d.challenger, a);
    CollectedIs(cfg, b, wrong, relay, d);
    CollectTakes(b0, relay, cfg.relaySlashAmount, a);
    var (b1, collected) := Collect(b0, relay, cfg.relaySlashAmount, false);
    CreditPays(b1, d.challenger, collected * 3 / 5, a);
    var b2 := Credit(b1, d.challenger, collected * 3 / 5);
    PayAttestersPays(b2, d.fraudAttesters, collected * 2 / 5, a);
    CreditPays(PayAttesters(b2, d.fraudAttesters, collected * 2 / 5), d.challenger, d.bond, a);
  }

  ghost function Stakes(b: Bank): nat {
    Sum(b.relayStake) + Sum(b.verifierStake)
  }

  /** In a valid state all settled voters on a target stand against its relay's interest only from outside. */
  lemma RelayNotAmongVoters(docs: Docs, ds: seq<Dispute>, attested: set<(nat, Address)>, t: Target)
    requires BallotsOk(docs, ds, attested) && Exists(docs, t)
    ensures RelayOf(docs, t) !in AllVoters(ds, t)
  {
    forall d | d in ds && d.target == t ensures RelayOf(docs, t) !in d.validAttesters {
      var i :| 0 <= i < |ds| && ds[i] == d;
      assert BallotOk(docs, ds[i]);
    }
  }

  /** Once the last dispute on a target is settled, all of them are. */
  lemma AllSettled(ds: seq<Dispute>, id: nat)
    requires EarlierSpurious(ds) && id < |ds| && Damns(ds[id].verdict)
    ensures AllVoters(ds, ds[id].target) == SettledVoters(ds, ds[id].target)
  {
    forall d | d in ds && d.target == ds[id].target ensures !d.verdict.Open? {
      var i :| 0 <= i < |ds| && ds[i] == d;
      assert i <= id;
    }
  }

  lemma VotersAtVerdict(s: State, id: nat, ds': seq<Dispute>)
    requires Core(s) && id < |s.disputes| && s.disputes[id].verdict.Open?
    requires EarlierSpurious(ds') && ds' == s.disputes[id := s.disputes[id].(verdict := Fraud)]
    ensures var d := s.disputes[id];
            && AllVoters(ds', d.target) == SettledVoters(s.disputes, d.target) + Elems(d.validAttesters)
            && Exists(s.docs, d.target) && RelayOf(s.docs, d.target) !in AllVoters(ds', d.target)
  {
    hide Core, SettledVoters, AllVoters, EarlierSpurious;
    var d := s.disputes[id];
    OpenTarget(s, id);
    AllSettled(ds', id);
    SettledVotersSettle(s.disputes, id, ds'[id], d.target);
    CoreBallots(s);
    RelayNotAmongVoters(s.docs, s.disputes, s.attested, d.target);
    SettledAmongAll(s.disputes, d.target);
    OwnAmongAll(s.disputes, id);
  }

  lemma CoreBallots(s: State)
    requires Core(s)
    ensures BallotsOk(s.docs, s.disputes, s.attested)
  {
  }

  /** The list slashed at a fraud verdict: duplicate-free, and exactly the valid
      attesters over all disputes ever opened on the target. */
  lemma WrongSide(s: State, id: nat)
    requires Core(s) && id < |s.disputes| && s.disputes[id].verdict.Open?
    ensures ResolveFraud(s, id).Ok?
    ensures var d := s.disputes[id];
            var s' := ResolveFraud(s, id).state;
            var wrong := ListOf(Filed(s.reg, d), d.target);
            && NoDup(wrong) && Elems(wrong) == AllVoters(s'.disputes, d.target)
            && Exists(s.docs, d.target) && RelayOf(s.docs, d.target) !in wrong
  {
    hide Filed, CanRelease, Release, CanClose, FraudPayout, Revoke, SettledVoters, AllVoters;
    FiledList(s, id);
    FraudKeeps(s, id);
    VotersAtVerdict(s, id, ResolveFraud(s, id).state.disputes);
  }

  lemma SettledAmongAll(ds: seq<Dispute>, t: Target)
    ensures SettledVoters(ds, t) <= AllVoters(ds, t)
  {
  }

  lemma OwnAmongAll(ds: seq<Dispute>, id: nat)
    requires id < |ds|
    ensures Elems(ds[id].validAttesters) <= AllVoters(ds, ds[id].target)
  {
    assert ds[id] in ds;
  }

  /** The whole fraud verdict. `wrong` lists the valid attesters over all disputes
      ever opened on the target, once each. Every account's loss and credit is
      exact; what is credited in all is what was deducted plus the bond, less the
      dust retained, at most one wei per fraud attester. */
  lemma FraudVerdict(s: State, id: nat) returns (wrong: seq<Address>)
    requires Core(s) && id < |s.disputes| && s.disputes[id].verdict.Open?
    ensures ResolveFraud(s, id).Ok? && Exists(s.docs, s.disputes[id].target)
    ensures var d := s.disputes[id];
            var s' := ResolveFraud(s, id).state;
            var relay := RelayOf(s.docs, d.target);
            && NoDup(wrong) && Elems(wrong) == AllVoters(s'.disputes, d.target) && relay !in wrong
            && (forall a :: FraudTakes(s.cfg, s.bank, s'.bank, wrong, relay, a))
            && (forall a :: Get(s'.bank.pending, a) ==
                            Get(s.bank.pending, a) + FraudCredit(s.cfg, s.bank, wrong, relay, d, a))
            && Sum(s'.bank.pending) + Stakes(s'.bank) + (s'.bank.retained - s.bank.retained) ==
               Sum(s.bank.pending) + Stakes(s.bank) + d.bond
            && s.bank.retained <= s'.bank.retained
            && (|d.fraudAttesters| > 0 ==> s'.bank.retained - s.bank.retained <= |d.fraudAttesters|)
            && Terminal(s'.docs, d.target) && ListOf(s'.reg, d.target) == []
  {
    hide Filed, CanRelease, CanClose, FraudPayout, AllVoters, Sum, FraudTakes, FraudCredit, EarlierSpurious, StatesOk,
         NoncesOk, KeysOk, CountsOk, WindowsOk, TreesOk, FilesOk, TargetsOk, Collected, FraudRetained;
    var d := s.disputes[id];
    WrongSide(s, id);
    wrong := ListOf(Filed(s.reg, d), d.target);
    var relay := RelayOf(s.docs, d.target);
    assert BallotOk(s.docs, d);
    forall a ensures FraudTakes(s.cfg, s.bank, FraudPayout(s.cfg, wrong, d, relay, s.bank), wrong, relay, a) {
      FraudPools(s.cfg, s.bank, wrong, relay, d, a);
    }
    forall a ensures Get(FraudPayout(s.cfg, wrong, d, relay, s.bank).pending, a) ==
                     Get(s.bank.pending, a) + FraudCredit(s.cfg, s.bank, wrong, relay, d, a) {
      FraudCredits(s.cfg, s.bank, wrong, relay, d, a);
    }
    FraudConserves(s.cfg, wrong, d, relay, s.bank);
    OpenTarget(s, id);
    TerminalJudged(s.docs, d.target, Fraud, d.target);
    JudgeIs(s.docs, d.target);
  }

  // ---------- Spurious ----------

  /** The relay gets half the bond rounded up; the valid attesters share the rest equally. */
  function SpuriousCredit(d: Dispute, relay: Address, a: Address): nat {
    (if a == relay then (d.bond + 1) / 2 else 0)
    + (if a in d.validAttesters then d.bond / 2 / |d.validAttesters| else 0)
  }

  /** The whole spurious verdict: no stake moves, the bond is paid out but for dust
      below the number of valid attesters, and the target is undecided again. */
  lemma SpuriousVerdict(s: State, id: nat)
    requires Core(s) && id < |s.disputes| && s.disputes[id].verdict.Open?
    ensures ResolveSpurious(s, id).Ok? && Exists(s.docs, s.disputes[id].target)
    ensures var d := s.disputes[id];
            var s' := ResolveSpurious(s, id).state;
            var relay := RelayOf(s.docs, d.target);
            && (forall a :: Get(s'.bank.pending, a) == Get(s.bank.pending, a) + SpuriousCredit(d, relay, a))
            && s'.bank.relayStake == s.bank.relayStake && s'.bank.verifierStake == s.bank.verifierStake
            && Sum(s'.bank.pending) + (s'.bank.retained - s.bank.retained) == Sum(s.bank.pending) + d.bond
            && s.bank.retained <= s'.bank.retained
            && (|d.validAttesters| > 0 ==> s'.bank.retained - s.bank.retained < |d.validAttesters|)
            && Exists(s'.docs, d.target) && Disputable(s'.docs, d.target) && !Terminal(s'.docs, d.target)
            && Elems(ListOf(s'.reg, d.target)) == SettledVoters(s'.disputes, d.target)
  {
    hide Filed, CanClose, SpuriousPayout, Sum, Owed, SettledVoters;
    var d := s.disputes[id];
    OpenTarget(s, id);
    SpuriousKeeps(s, id);
    var relay := RelayOf(s.docs, d.target);
    assert BallotOk(s.docs, d);
    forall a ensures Get(SpuriousPayout(d, relay, s.bank).pending, a) ==
                     Get(s.bank.pending, a) + SpuriousCredit(d, relay, a) {
      SpuriousCredits(d, relay, s.bank, a);
    }
    SpuriousConserves(s.bank, d, relay);
    SpuriousTarget(s, id);
  }

  lemma SpuriousCredits(d: Dispute, relay: Address, b: Bank, a: Address)
    requires NoDup(d.validAttesters)
    ensures Get(SpuriousPayout(d, relay, b).pending, a) == Get(b.pending, a) + SpuriousCredit(d, relay, a)
  {
    hide PayAttesters, Credit;
    PayAttestersPays(b, d.validAttesters, d.bond / 2, a);
    CreditPays(PayAttesters(b, d.validAttesters, d.bond / 2), relay, d.bond - d.bond / 2, a);
  }

  lemma SpuriousTarget(s: State, id: nat)
    requires Core(s) && id < |s.disputes| && s.disputes[id].verdict.Open?
    requires ResolveSpurious(s, id).Ok? && Core(ResolveSpurious(s, id).state)
    ensures var t := s.disputes[id].target;
            var s' := ResolveSpurious(s, id).state;
            && Exists(s'.docs, t) && Disputable(s'.docs, t) && !Terminal(s'.docs, t)
            && Elems(ListOf(s'.reg, t)) == SettledVoters(s'.disputes, t)
  {
    hide Filed, CanClose, SpuriousPayout, SettledVoters, MoneyOk, NoncesOk, KeysOk, BallotsOk, TreesOk, CountsOk,
         RegistryOk, LeavesOk;
    var t := s.disputes[id].target;
    OpenTarget(s, id);
    var s' := ResolveSpurious(s, id).state;
    assert Live(s'.reg, s'.docs, s'.disputes, t);
  }

  // ---------- Expiry ----------

  /** The whole expiry: the challenger reclaims half the bond rounded down, exactly
      the rest is retained, no stake moves, and the target is revoked. */
  lemma ExpiryVerdict(s: State, id: nat)
    requires Core(s) && ExpireDispute(s, id).Ok?
    ensures Exists(s.docs, s.disputes[id].target)
    ensures var d := s.disputes[id];
            var s' := ExpireDispute(s, id).state;
            && (forall a :: Get(s'.bank.pending, a) ==
                            Get(s.bank.pending, a) + (if a == d.challenger then d.bond / 2 else 0))
            && s'.bank.relayStake == s.bank.relayStake && s'.bank.verifierStake == s.bank.verifierStake
            && s'.bank.retained == s.bank.retained + (d.bond + 1) / 2
            && Exists(s'.docs, d.target) && Terminal(s'.docs, d.target) && ListOf(s'.reg, d.target) == []
  {
    hide CanRelease, CanClose, Core;
    var d := s.disputes[id];
    OpenTarget(s, id);
    forall a ensures Get(ExpiryPayout(d, s.bank).pending, a) ==
                     Get(s.bank.pending, a) + (if a == d.challenger then d.bond / 2 else 0) {
      CreditPays(s.bank, d.challenger, d.bond / 2, a);
    }
    TerminalJudged(s.docs, d.target, Expired, d.target);
    JudgeIs(s.docs, d.target);
  }
}
