/** Stakes, seats and exit dates: when each call is taken or refused, and all it moves. */
module StakeEffects {
  import opened Common
  import opened Treasury
  import opened DocketFacts
  import opened Committee
  import opened Protocol
  import opened Invariants
  import opened Preservation
  import opened Locks

  // ---------- Paying in ----------

  /** A deposit adds exactly the value sent to the sender's own relay pool and to the balance. */
  lemma RelayStakes(s: State, a: Address, value: nat)
    ensures Step(s, StakeRelayCall(a, value)) == StakeRelay(s, a, value)
    ensures StakeRelay(s, a, value) == Revert(NotStakedRelay) <==> value == 0
    ensures StakeRelay(s, a, value).Ok? <==> value > 0
    ensures StakeRelay(s, a, value).Ok? ==>
              var e := StakeRelay(s, a, value).state;
              && (forall x :: Get(e.bank.relayStake, x) == Get(s.bank.relayStake, x) + (if x == a then value else 0))
              && e.bank.balance == s.bank.balance + value
              && e == s.(bank := s.bank.(relayStake := e.bank.relayStake, balance := e.bank.balance))
  {
  }

  /** A deposit of a verifier, and its seat: nobody is enrolled below the verifier
      stake, and nobody but the depositor. */
  lemma VerifierStakes(s: State, a: Address, value: nat)
    requires Inv(s)
    ensures Step(s, StakeVerifierCall(a, value)) == StakeVerifier(s, a, value)
    ensures StakeVerifier(s, a, value) == Revert(NotVerifier) <==> value == 0
    ensures StakeVerifier(s, a, value).Ok? <==> value > 0
    ensures StakeVerifier(s, a, value).Ok? ==>
              var e := StakeVerifier(s, a, value).state;
              && (forall x :: Get(e.bank.verifierStake, x) ==
                              Get(s.bank.verifierStake, x) + (if x == a then value else 0))
              && e.bank.balance == s.bank.balance + value
              && (forall x :: x in e.roster.members <==>
                    x in s.roster.members || (x == a && Get(e.bank.verifierStake, a) >= s.cfg.verifierStakeAmount))
              && s.roster.members <= e.roster.members
              && e == s.(bank := s.bank.(verifierStake := e.bank.verifierStake, balance := e.bank.balance),
                         roster := e.roster)
  {
    hide MoneyOk, NoncesOk, KeysOk, CaseOk, CountsOk, BallotsOk, WindowsOk, TreesOk, FilesOk, QuorumsOk;
  }

  // ---------- Announcing ----------

  /** An announcement dates the exit three days ahead, for the announcer only. */
  lemma RelayAnnounces(s: State, a: Address)
    ensures Step(s, AnnounceUnstakeCall(a)) == AnnounceUnstake(s, a)
    ensures AnnounceUnstake(s, a) == Revert(NotStakedRelay) <==> Get(s.bank.relayStake, a) == 0
    ensures AnnounceUnstake(s, a) == Revert(ActiveDisputes) <==>
              Get(s.bank.relayStake, a) > 0 && Get(s.relayActive, a) > 0
    ensures AnnounceUnstake(s, a).Ok? <==> Get(s.bank.relayStake, a) > 0 && Get(s.relayActive, a) == 0
    ensures AnnounceUnstake(s, a).Ok? ==>
              var e := AnnounceUnstake(s, a).state;
              && (forall x :: Get(e.relayExit, x) == if x == a then s.clock + 259200 else Get(s.relayExit, x))
              && e == s.(relayExit := e.relayExit)
  {
  }

  lemma VerifierAnnounces(s: State, a: Address)
    ensures Step(s, AnnounceVerifierUnstakeCall(a)) == AnnounceVerifierUnstake(s, a)
    ensures AnnounceVerifierUnstake(s, a) == Revert(NotVerifier) <==> Get(s.bank.verifierStake, a) == 0
    ensures AnnounceVerifierUnstake(s, a) == Revert(ActiveDisputes) <==>
              Get(s.bank.verifierStake, a) > 0 && Get(s.reg.exposures, a) > 0
    ensures AnnounceVerifierUnstake(s, a).Ok? <==> Get(s.bank.verifierStake, a) > 0 && Get(s.reg.exposures, a) == 0
    ensures AnnounceVerifierUnstake(s, a).Ok? ==>
              var e := AnnounceVerifierUnstake(s, a).state;
              && (forall x :: Get(e.verifierExit, x) == if x == a then s.clock + 259200 else Get(s.verifierExit, x))
              && e == s.(verifierExit := e.verifierExit)
  {
  }

  // ---------- Taking out ----------

  /** `c` is `b` with `amount` more claimable by `a`, and nothing else changed but the pools. */
  ghost predicate Claims(b: Bank, c: Bank, a: Address, amount: nat) {
    && (forall x :: Get(c.pending, x) == Get(b.pending, x) + (if x == a then amount else 0))
    && (forall x :: Get(c.credited, x) == Get(b.credited, x) + (if x == a then amount else 0))
    && SameTill(b, c)
  }

  /** An exit moves the whole relay pool of the leaver to its claims and uses up its announcement. */
  lemma RelayUnstakes(s: State, a: Address)
    requires UnstakeRelay(s, a).Ok?
    ensures var e := UnstakeRelay(s, a).state;
            && Claims(s.bank, e.bank, a, Get(s.bank.relayStake, a)) && e.bank.verifierStake == s.bank.verifierStake
            && (forall x :: Get(e.bank.relayStake, x) == if x == a then 0 else Get(s.bank.relayStake, x))
            && (forall x :: Get(e.relayExit, x) == if x == a then 0 else Get(s.relayExit, x))
            && e == s.(bank := e.bank, relayExit := e.relayExit)
  {
  }

  lemma RelayUnstakeRefused(s: State, a: Address)
    ensures Step(s, UnstakeRelayCall(a)) == UnstakeRelay(s, a)
    ensures UnstakeRelay(s, a) == Revert(Reentrant) <==> s.locked
    ensures UnstakeRelay(s, a) == Revert(NotStakedRelay) <==> !s.locked && Get(s.bank.relayStake, a) == 0
    ensures UnstakeRelay(s, a) == Revert(ActiveDisputes) <==>
              !s.locked && Get(s.bank.relayStake, a) > 0 && Get(s.relayActive, a) > 0
    ensures UnstakeRelay(s, a) == Revert(StillStaked) <==>
              && !s.locked && Get(s.bank.relayStake, a) > 0 && Get(s.relayActive, a) == 0
              && (Get(s.relayExit, a) == 0 || s.clock < Get(s.relayExit, a))
  {
    hide Credit;
  }

  lemma VerifierUnstakes(s: State, a: Address)
    requires UnstakeVerifier(s, a).Ok?
    ensures var e := UnstakeVerifier(s, a).state;
            && Claims(s.bank, e.bank, a, Get(s.bank.verifierStake, a)) && e.bank.relayStake == s.bank.relayStake
            && (forall x :: Get(e.bank.verifierStake, x) == if x == a then 0 else Get(s.bank.verifierStake, x))
            && (forall x :: Get(e.verifierExit, x) == if x == a then 0 else Get(s.verifierExit, x))
            && e == s.(bank := e.bank, verifierExit := e.verifierExit)
  {
  }

  lemma VerifierUnstakeRefused(s: State, a: Address)
    ensures Step(s, UnstakeVerifierCall(a)) == UnstakeVerifier(s, a)
    ensures UnstakeVerifier(s, a) == Revert(Reentrant) <==> s.locked
    ensures UnstakeVerifier(s, a) == Revert(NotVerifier) <==> !s.locked && Get(s.bank.verifierStake, a) == 0
    ensures UnstakeVerifier(s, a) == Revert(ActiveDisputes) <==>
              && !s.locked && Get(s.bank.verifierStake, a) > 0 && a !in s.roster.registered
              && Get(s.reg.exposures, a) > 0
    ensures UnstakeVerifier(s, a) == Revert(StillStaked) <==>
              && !s.locked && Get(s.bank.verifierStake, a) > 0
              && (a in s.roster.registered ||
                  (Get(s.reg.exposures, a) == 0 && (Get(s.verifierExit, a) == 0 || s.clock < Get(s.verifierExit, a))))
  {
    hide Credit;
  }

  /** Leaving the roster changes the roster alone, by exactly the leaver. */
  lemma VerifierDeregisters(s: State, a: Address)
    requires Inv(s)
    ensures Step(s, DeregisterVerifierCall(a)) == DeregisterVerifier(s, a)
    ensures DeregisterVerifier(s, a) == Revert(NotRegisteredVerifier) <==> a !in s.roster.members
    ensures DeregisterVerifier(s, a) == Revert(ActiveDisputes) <==> a in s.roster.members && Get(s.reg.exposures, a) > 0
    ensures DeregisterVerifier(s, a).Ok? <==> a in s.roster.members && Get(s.reg.exposures, a) == 0
    ensures DeregisterVerifier(s, a).Ok? ==>
              var e := DeregisterVerifier(s, a).state;
              && multiset(e.roster.members) == multiset(s.roster.members) - multiset{a}
              && e == s.(roster := e.roster)
  {
    hide MoneyOk, NoncesOk, KeysOk, CaseOk, CountsOk, BallotsOk, WindowsOk, TreesOk, FilesOk, QuorumsOk, Discharge;
    if a in s.roster.members {
      DischargeRemoves(s.roster, a);
    }
  }

  // ---------- Every exit is announced, each announcement serves once ----------

  /** With no exit pending none falls due within three days, whatever the run. */
  lemma ExitNeedsNotice(s: State, txs: seq<Tx>, a: Address)
    requires Inv(s) && Timely(s.clock, txs) && Run(s, txs).clock < s.clock + 259200
    ensures Get(s.relayExit, a) == 0 ==> !UnstakeRelay(Run(s, txs), a).Ok?
    ensures Get(s.verifierExit, a) == 0 ==> !UnstakeVerifier(Run(s, txs), a).Ok?
  {
    hide Inv, Run, VisitedRun, Timely;
    VisitedRunChained(s, txs, a);
    ChainDates(s, VisitedRun(s, txs), a, s.clock + 259200);
  }

  /** After an exit, whatever its owner stakes again, no further exit succeeds for three days. */
  lemma OneExitPerNotice(s: State, a: Address, txs: seq<Tx>)
    requires Inv(s) && UnstakeRelay(s, a).Ok? && Timely(s.clock, txs)
    requires Run(UnstakeRelay(s, a).state, txs).clock < s.clock + 259200
    ensures !UnstakeRelay(Run(UnstakeRelay(s, a).state, txs), a).Ok?
  {
    hide Inv, Run, Timely;
    RelayUnstakes(s, a);
    UnstakeRelayKeeps(s, a);
    hide UnstakeRelay;
    ExitNeedsNotice(UnstakeRelay(s, a).state, txs, a);
  }

  lemma OneVerifierExitPerNotice(s: State, a: Address, txs: seq<Tx>)
    requires Inv(s) && UnstakeVerifier(s, a).Ok? && Timely(s.clock, txs)
    requires Run(UnstakeVerifier(s, a).state, txs).clock < s.clock + 259200
    ensures !UnstakeVerifier(Run(UnstakeVerifier(s, a).state, txs), a).Ok?
  {
    hide Inv, Run, Timely;
    VerifierUnstakes(s, a);
    UnstakeVerifierKeeps(s, a);
    hide UnstakeVerifier;
    ExitNeedsNotice(UnstakeVerifier(s, a).state, txs, a);
  }
}
