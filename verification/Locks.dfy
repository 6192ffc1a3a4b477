/** Stakes that can still be punished stay put: an exposed verifier keeps its
    roster seat and its stake, a relay under dispute keeps its stake, at every
    state a run visits (the states inside re-entrant withdrawals included),
    unless a fraud verdict takes it, and nobody leaves unannounced. */
module Locks {
  import opened Common
  import opened Merkle
  import opened Docket
  import opened DocketFacts
  import opened Treasury
  import opened Committee
  import opened Exposure
  import opened ExposureFacts
  import opened Protocol
  import opened Invariants
  import opened DisputeSteps
  import opened Preservation
  import opened Verdicts
  import opened Payments
  import DR = DidRegistry

  /** Between `x` and `y` a dispute is decided as fraud on which `a` stood on the
      wrong side or whose target `a` relayed. */
  ghost predicate FraudAgainst(x: State, y: State, a: Address) {
    exists id :: 0 <= id < |x.disputes| && DecidedAgainst(x, y, id, a)
  }

  ghost predicate DecidedAgainst(x: State, y: State, id: nat, a: Address)
    requires id < |x.disputes|
  {
    && id < |y.disputes| && x.disputes[id].verdict.Open? && y.disputes[id].verdict.Fraud?
    && Exists(x.docs, x.disputes[id].target)
    && (a in AllVoters(y.disputes, x.disputes[id].target) || a == RelayOf(x.docs, x.disputes[id].target))
  }

  ghost predicate Exposed(s: State, a: Address) {
    Get(s.reg.exposures, a) > 0
  }

  ghost predicate UnderDispute(s: State, a: Address) {
    Get(s.relayActive, a) > 0
  }

  /** From `x` to `y`, `a`'s stakes fall and its seat is lost only as the lock allows. */
  ghost predicate Locked(x: State, y: State, a: Address) {
    && (Exposed(x, a) && a in x.roster.registered ==> a in y.roster.registered)
    && (Exposed(x, a) && !FraudAgainst(x, y, a) ==> Get(y.bank.verifierStake, a) >= Get(x.bank.verifierStake, a))
    && (UnderDispute(x, a) && !FraudAgainst(x, y, a) ==> Get(y.bank.relayStake, a) >= Get(x.bank.relayStake, a))
  }

  /** Announcements are dated when made, and a stake falls only by a fraud verdict
      or by an exit whose announced date has come. */
  ghost predicate Noticed(x: State, y: State, a: Address) {
    && x.clock <= y.clock
    && Get(y.relayExit, a) in {0, Get(x.relayExit, a), y.clock + UNSTAKE_DELAY}
    && Get(y.verifierExit, a) in {0, Get(x.verifierExit, a), y.clock + UNSTAKE_DELAY}
    && (Get(y.bank.relayStake, a) < Get(x.bank.relayStake, a) ==>
          FraudAgainst(x, y, a) || ExitDue(x.relayExit, a, x.clock))
    && (Get(y.bank.verifierStake, a) < Get(x.bank.verifierStake, a) ==>
          FraudAgainst(x, y, a) || (ExitDue(x.verifierExit, a, x.clock) && a !in x.roster.registered))
  }

  /** All an account has and ever had: its stakes, and everything credited to it. */
  function Wealth(b: Bank, a: Address): nat {
    Pools(b, a) + Get(b.credited, a)
  }

  /** Nobody gets poorer, unless by a fraud verdict. */
  ghost predicate Unharmed(x: State, y: State, a: Address) {
    FraudAgainst(x, y, a) || Wealth(x.bank, a) <= Wealth(y.bank, a)
  }

  ghost predicate Steady(x: State, y: State, a: Address) {
    Locked(x, y, a) && Noticed(x, y, a) && Unharmed(x, y, a)
  }

  // ---------- One call ----------

  /** The steps in between move neither stakes nor seats nor exit dates, and take back no credit. */
  ghost predicate SameStanding(x: State, y: State) {
    && y.roster == x.roster && y.bank.relayStake == x.bank.relayStake && y.bank.verifierStake == x.bank.verifierStake
    && y.relayExit == x.relayExit && y.verifierExit == x.verifierExit && x.clock <= y.clock
    && forall a :: Get(x.bank.credited, a) <= Get(y.bank.credited, a)
  }

  lemma SamePoolsLocked(x: State, y: State, a: Address)
    requires SameStanding(x, y)
    ensures Steady(x, y, a)
  {
  }

  lemma RelayCallsLocked(s: State, c: Call, a: Address)
    requires c.StakeRelayCall? || c.AnnounceUnstakeCall? || c.UnstakeRelayCall?
    requires Step(s, c).Ok?
    ensures Steady(s, Step(s, c).state, a)
  {
    hide FraudAgainst;
  }

  lemma VerifierCallsLocked(s: State, c: Call, a: Address)
    requires c.StakeVerifierCall? || c.AnnounceVerifierUnstakeCall? || c.UnstakeVerifierCall?
    requires Step(s, c).Ok?
    ensures Steady(s, Step(s, c).state, a)
  {
    hide FraudAgainst;
  }

  lemma DeregisterLocked(s: State, sender: Address, a: Address)
    requires Inv(s) && DeregisterVerifier(s, sender).Ok?
    ensures Steady(s, DeregisterVerifier(s, sender).state, a)
  {
    hide FraudAgainst, Discharge, NoncesOk, KeysOk, CaseOk, CountsOk, BallotsOk, WindowsOk, TreesOk, FilesOk,
         QuorumsOk, MoneyOk;
    DischargeRemoves(s.roster, sender);
  }

  /** Where nothing is paid out, growing claims are growing credits. */
  lemma CreditsGrow(x: State, y: State)
    requires Core(x) && Core(y) && y.bank.withdrawn == x.bank.withdrawn
    requires forall a :: Get(x.bank.pending, a) <= Get(y.bank.pending, a)
    ensures forall a :: Get(x.bank.credited, a) <= Get(y.bank.credited, a)
  {
    hide RosterOk, NoncesOk, KeysOk, CaseOk, CountsOk, BallotsOk, WindowsOk, TreesOk, FilesOk, Solvent;
  }

  lemma FraudCreditsGrow(s: State, id: nat, wrong: seq<Address>)
    requires Core(s) && id < |s.disputes| && s.disputes[id].verdict.Open?
    requires ResolveFraud(s, id).Ok? && Exists(s.docs, s.disputes[id].target)
    requires forall a :: Get(ResolveFraud(s, id).state.bank.pending, a) == Get(s.bank.pending, a) +
               FraudCredit(s.cfg, s.bank, wrong, RelayOf(s.docs, s.disputes[id].target), s.disputes[id], a)
    ensures forall a :: Get(s.bank.credited, a) <= Get(ResolveFraud(s, id).state.bank.credited, a)
  {
    hide Core, ResolveFraud, FraudCredit;
    FraudKeeps(s, id);
    VerdictsPayNobody(s, id);
    CreditsGrow(s, ResolveFraud(s, id).state);
  }

  lemma FraudLocked(s: State, s1: State, id: nat, a: Address)
    requires Core(s1) && id < |s1.disputes| == |s.disputes|
    requires s1.disputes[id].verdict.Open? && s.disputes[id].verdict.Open?
    requires s1.docs == s.docs && SameStanding(s, s1) && s1.bank == s.bank && s1.clock == s.clock
    requires s1.disputes[id].target == s.disputes[id].target
    ensures ResolveFraud(s1, id).Ok? && Steady(s, ResolveFraud(s1, id).state, a)
  {
    hide Core, CanRelease, CanClose, Release, Filed, Revoke, FraudPayout, AllVoters, Sum, FraudCredit, SettledVoters;
    var wrong := FraudVerdict(s1, id);
    var s' := ResolveFraud(s1, id).state;
    var relay := RelayOf(s1.docs, s1.disputes[id].target);
    assert FraudTakes(s1.cfg, s1.bank, s'.bank, wrong, relay, a);
    FraudCreditsGrow(s1, id, wrong);
    if a in wrong || a == relay {
      assert a in wrong ==> a in AllVoters(s'.disputes, s.disputes[id].target);
      assert DecidedAgainst(s, s', id, a);
    }
  }

  lemma AttestationLocked(s: State, id: nat, isFraud: bool, signer: Option<Address>, a: Address)
    requires Inv(s) && SubmitAttestation(s, id, isFraud, signer).Ok?
    ensures Steady(s, SubmitAttestation(s, id, isFraud, signer).state, a)
  {
    hide Core, ResolveFraud, ResolveSpurious, FraudAgainst;
    var v := signer.value;
    VoteKeeps(s, id, isFraud, v);
    var s1 := Vote(s, id, isFraud, v);
    FraudLocked(s, s1, id, a);
    SpuriousStakes(s1, id);
    hide Steady;
    SamePoolsLocked(s, s1, a);
    if ResolveSpurious(s1, id).Ok? {
      SamePoolsLocked(s, ResolveSpurious(s1, id).state, a);
    }
  }

  lemma SpuriousStakes(s: State, id: nat)
    requires Core(s) && id < |s.disputes| && s.disputes[id].verdict.Open?
    ensures ResolveSpurious(s, id).Ok?
    ensures var s' := ResolveSpurious(s, id).state;
            SameStanding(s, s')
  {
    hide Core, CanClose, Filed, SpuriousPayout, Sum, Reinstate, SettledVoters;
    SpuriousVerdict(s, id);
    SpuriousKeeps(s, id);
    VerdictsPayNobody(s, id);
    CreditsGrow(s, ResolveSpurious(s, id).state);
  }

  /** Calls on documents, disputes and identities that settle nothing, and expiries, move no stake. */
  lemma OtherCallsStakes(s: State, c: Call)
    requires Step(s, c).Ok?
    requires c.SubmitAccountableCall? || c.FinalizeRecordCall? || c.SubmitBatchCall? || c.FinalizeBatchCall?
        || c.OpenDisputeCall?
          || c.OpenBatchLeafDisputeCall? || c.ExpireDisputeCall? || c.RegisterDidCall? || c.DeactivateDidCall?
    ensures var s' := Step(s, c).state;
            SameStanding(s, s')
  {
    hide CanRelease, Release, ReleaseLeaves, Fold, BatchLeaves, Root, Bumped, SetRecord, SetBatch, CanClose, Revoke,
         MarkDisputed, DR.Register, DR.Deactivate;
  }

  lemma PlainStepLocked(s: State, c: Call, a: Address)
    requires Inv(s) && !c.WithdrawCall? && Step(s, c).Ok?
    ensures Steady(s, Step(s, c).state, a)
  {
    hide Inv, Steady, SubmitAttestation, DeregisterVerifier;
    var s' := Step(s, c).state;
    match c
    case SubmitAttestationCall(id, fraud, signer) => AttestationLocked(s, id, fraud, signer, a);
    case DeregisterVerifierCall(sender) => DeregisterLocked(s, sender, a);
    case StakeRelayCall(_, _) => RelayCallsLocked(s, c, a);
    case AnnounceUnstakeCall(_) => RelayCallsLocked(s, c, a);
    case UnstakeRelayCall(_) => RelayCallsLocked(s, c, a);
    case StakeVerifierCall(_, _) => VerifierCallsLocked(s, c, a);
    case AnnounceVerifierUnstakeCall(_) => VerifierCallsLocked(s, c, a);
    case UnstakeVerifierCall(_) => VerifierCallsLocked(s, c, a);
    case _ =>
      OtherCallsStakes(s, c);
      SamePoolsLocked(s, s', a);
  }

  // ---------- Whole runs ----------

  /** The states a call visits after `s`, the external call of a withdrawal and its re-entrant calls included. */
  ghost function Visited(s: State, c: Call): seq<State>
    decreases c, 1
  {
    match c
    case WithdrawCall(a, inner, ok) =>
      if Step(s, c).Ok? then
        assert Step(s, c) == Withdraw(s, a, inner, ok);
        var mid := s.(locked := true, bank := PaidOut(s.bank, a));
        [mid] + VisitedAll(mid, inner) + [After(s, c)]
      else [s]
    case _ => [After(s, c)]
  }

  ghost function VisitedAll(s: State, cs: seq<Call>): seq<State>
    decreases cs, 0
  {
    if cs == [] then [] else Visited(s, cs[0]) + VisitedAll(After(s, cs[0]), cs[1..])
  }

  ghost function VisitedRun(s: State, txs: seq<Tx>): seq<State>
    decreases |txs|
  {
    if txs == [] then [] else
      var now := s.(clock := txs[0].now);
      [now] + Visited(now, txs[0].call) + VisitedRun(Exec(s, txs[0]), txs[1..])
  }

  function Last(s: State, xs: seq<State>): State {
    if xs == [] then s else xs[|xs| - 1]
  }

  /** Every consecutive pair of the visited states respects the lock on `a`. */
  ghost predicate Chained(s: State, xs: seq<State>, a: Address)
    decreases |xs|
  {
    xs == [] || (Steady(s, xs[0], a) && Chained(xs[0], xs[1..], a))
  }

  lemma {:induction false} ChainedAppend(s: State, xs: seq<State>, ys: seq<State>, a: Address)
    requires Chained(s, xs, a) && Chained(Last(s, xs), ys, a)
    ensures Chained(s, xs + ys, a) && Last(s, xs + ys) == Last(Last(s, xs), ys)
    decreases |xs|
  {
    hide Steady;
    if xs == [] {
      assert xs + ys == ys;
    } else {
      assert Last(xs[0], xs[1..]) == Last(s, xs);
      ChainedAppend(xs[0], xs[1..], ys, a);
      assert (xs + ys)[1..] == xs[1..] + ys;
    }
  }

  lemma SameSteady(s: State, a: Address)
    ensures Steady(s, s, a)
  {
  }

  lemma {:induction false} VisitedChained(s: State, c: Call, a: Address)
    requires Inv(s)
    ensures Chained(s, Visited(s, c), a) && Last(s, Visited(s, c)) == After(s, c)
    decreases c, 1
  {
    hide Inv, Steady;
    SameSteady(s, a);
    if Step(s, c).Ok? {
      match c
      case WithdrawCall(to, inner, ok) =>
        PaysOutSafely(s, to);
        var mid := s.(locked := true, bank := PaidOut(s.bank, to));
        SamePoolsLocked(s, mid, a);
        VisitedAllChained(mid, inner, a);
        assert Step(s, c) == Ok(AfterAll(mid, inner).(locked := false));
        SamePoolsLocked(AfterAll(mid, inner), After(s, c), a);
        ChainedAppend(s, [mid], VisitedAll(mid, inner), a);
        ChainedAppend(s, [mid] + VisitedAll(mid, inner), [After(s, c)], a);
      case _ =>
        PlainStepLocked(s, c, a);
    }
  }

  lemma {:induction false} VisitedAllChained(s: State, cs: seq<Call>, a: Address)
    requires Inv(s)
    ensures Chained(s, VisitedAll(s, cs), a) && Last(s, VisitedAll(s, cs)) == AfterAll(s, cs)
    decreases cs, 0
  {
    hide Inv, Steady;
    if cs != [] {
      StepKeeps(s, cs[0]);
      VisitedChained(s, cs[0], a);
      VisitedAllChained(After(s, cs[0]), cs[1..], a);
      ChainedAppend(s, Visited(s, cs[0]), VisitedAll(After(s, cs[0]), cs[1..]), a);
    }
  }

  lemma {:induction false} VisitedRunChained(s: State, txs: seq<Tx>, a: Address)
    requires Inv(s) && Timely(s.clock, txs)
    ensures Chained(s, VisitedRun(s, txs), a) && Last(s, VisitedRun(s, txs)) == Run(s, txs)
    decreases |txs|
  {
    hide Inv, Steady;
    if txs != [] {
      var now := s.(clock := txs[0].now);
      SamePoolsLocked(s, now, a);
      TimePasses(s, txs[0].now);
      VisitedChained(now, txs[0].call, a);
      ExecKeeps(s, txs[0]);
      VisitedRunChained(Exec(s, txs[0]), txs[1..], a);
      ChainedAppend(s, [now], Visited(now, txs[0].call), a);
      ChainedAppend(s, [now] + Visited(now, txs[0].call), VisitedRun(Exec(s, txs[0]), txs[1..]), a);
    }
  }

  /** Somewhere along the visited states a fraud verdict goes against `a`. */
  ghost predicate FraudAlong(s: State, xs: seq<State>, a: Address)
    decreases |xs|
  {
    xs != [] && (FraudAgainst(s, xs[0], a) || FraudAlong(xs[0], xs[1..], a))
  }

  lemma {:induction false} ChainLocks(s: State, xs: seq<State>, a: Address)
    requires Chained(s, xs, a)
    ensures var e := Last(s, xs);
            && (Exposed(s, a) && (forall x :: x in xs ==> Exposed(x, a)) ==>
                  && (a in s.roster.registered ==> a in e.roster.registered)
                  && (!FraudAlong(s, xs, a) ==> Get(e.bank.verifierStake, a) >= Get(s.bank.verifierStake, a)))
            && (UnderDispute(s, a) && (forall x :: x in xs ==> UnderDispute(x, a)) && !FraudAlong(s, xs, a) ==>
                  Get(e.bank.relayStake, a) >= Get(s.bank.relayStake, a))
    decreases |xs|
  {
    if xs != [] {
      assert Last(xs[0], xs[1..]) == Last(s, xs);
      ChainLocks(xs[0], xs[1..], a);
      hide FraudAgainst;
    }
  }

  /** Until `due` no exit falls due, if none was announced to fall due before it. */
  lemma {:induction false} ChainNotice(s: State, xs: seq<State>, a: Address, due: nat)
    requires Chained(s, xs, a) && due <= s.clock + UNSTAKE_DELAY && Last(s, xs).clock < due
    ensures s.clock <= Last(s, xs).clock
    ensures (Get(s.relayExit, a) == 0 || due <= Get(s.relayExit, a)) && !FraudAlong(s, xs, a) ==>
              Get(Last(s, xs).bank.relayStake, a) >= Get(s.bank.relayStake, a)
    ensures (Get(s.verifierExit, a) == 0 || due <= Get(s.verifierExit, a)) && !FraudAlong(s, xs, a) ==>
              Get(Last(s, xs).bank.verifierStake, a) >= Get(s.bank.verifierStake, a)
    decreases |xs|
  {
    hide FraudAgainst, Locked;
    if xs != [] {
      assert Last(xs[0], xs[1..]) == Last(s, xs);
      ChainNotice(xs[0], xs[1..], a, due);
    }
  }

  /** Nor does any date come up before `due` that was not there. */
  lemma {:induction false} ChainDates(s: State, xs: seq<State>, a: Address, due: nat)
    requires Chained(s, xs, a) && due <= s.clock + UNSTAKE_DELAY
    ensures s.clock <= Last(s, xs).clock
    ensures Get(s.relayExit, a) == 0 || due <= Get(s.relayExit, a) ==>
              Get(Last(s, xs).relayExit, a) == 0 || due <= Get(Last(s, xs).relayExit, a)
    ensures Get(s.verifierExit, a) == 0 || due <= Get(s.verifierExit, a) ==>
              Get(Last(s, xs).verifierExit, a) == 0 || due <= Get(Last(s, xs).verifierExit, a)
    decreases |xs|
  {
    hide FraudAgainst, Locked, Unharmed;
    if xs != [] {
      assert Last(xs[0], xs[1..]) == Last(s, xs);
      ChainDates(xs[0], xs[1..], a, due);
    }
  }

  /** Nobody leaves unannounced: a stake with no exit pending can fall within the next
      three days only by a fraud verdict against its owner. */
  lemma NoticePeriod(s: State, txs: seq<Tx>, a: Address)
    requires Inv(s) && Timely(s.clock, txs) && Run(s, txs).clock < s.clock + UNSTAKE_DELAY
    ensures var e := Run(s, txs);
            && (Get(s.relayExit, a) == 0 && Get(e.bank.relayStake, a) < Get(s.bank.relayStake, a) ==>
                  FraudAlong(s, VisitedRun(s, txs), a))
            && (Get(s.verifierExit, a) == 0 && Get(e.bank.verifierStake, a) < Get(s.bank.verifierStake, a) ==>
                  FraudAlong(s, VisitedRun(s, txs), a))
  {
    hide Inv;
    VisitedRunChained(s, txs, a);
    ChainNotice(s, VisitedRun(s, txs), a, s.clock + UNSTAKE_DELAY);
  }

  /** The stake lock over a run. While a verifier stays exposed it keeps its seat,
      and its verifier stake can have fallen only if a fraud verdict went against
      it on the way; while a relay stays under dispute the same holds of its stake. */
  lemma StakeLock(s: State, txs: seq<Tx>, a: Address)
    requires Inv(s) && Timely(s.clock, txs)
    ensures var xs := VisitedRun(s, txs);
            var e := Run(s, txs);
            && (Exposed(s, a) && (forall x :: x in xs ==> Exposed(x, a)) ==>
                  && (a in s.roster.registered ==> a in e.roster.registered)
                  && (Get(e.bank.verifierStake, a) < Get(s.bank.verifierStake, a) ==> FraudAlong(s, xs, a)))
            && (UnderDispute(s, a) && (forall x :: x in xs ==> UnderDispute(x, a)) ==>
                  Get(e.bank.relayStake, a) < Get(s.bank.relayStake, a) ==> FraudAlong(s, xs, a))
  {
    hide Inv;
    VisitedRunChained(s, txs, a);
    ChainLocks(s, VisitedRun(s, txs), a);
  }

  lemma {:induction false} ChainUnharmed(s: State, xs: seq<State>, a: Address)
    requires Chained(s, xs, a) && !FraudAlong(s, xs, a)
    ensures Wealth(s.bank, a) <= Wealth(Last(s, xs).bank, a)
    decreases |xs|
  {
    hide FraudAgainst, Locked, Noticed, Wealth;
    if xs != [] {
      assert Last(xs[0], xs[1..]) == Last(s, xs);
      ChainUnharmed(xs[0], xs[1..], a);
    }
  }

  /** Over any run nobody gets poorer, except by a fraud verdict: what an account has
      staked, can claim and was ever paid together never falls. In particular every
      stake that leaves a pool by an exit turns up among its owner's credits. */
  lemma NobodyPoorer(s: State, txs: seq<Tx>, a: Address)
    requires Inv(s) && Timely(s.clock, txs) && !FraudAlong(s, VisitedRun(s, txs), a)
    ensures var b, c := s.bank, Run(s, txs).bank;
            Pools(b, a) + Get(b.pending, a) + Get(b.withdrawn, a) <=
            Pools(c, a) + Get(c.pending, a) + Get(c.withdrawn, a)
  {
    hide Inv, Run, VisitedRun, Timely, Chained, FraudAlong;
    VisitedRunChained(s, txs, a);
    ChainUnharmed(s, VisitedRun(s, txs), a);
    RunKeeps(s, txs);
    CreditedIs(s, a);
    CreditedIs(Run(s, txs), a);
  }

  lemma CreditedIs(s: State, a: Address)
    requires Inv(s)
    ensures Get(s.bank.credited, a) == Get(s.bank.pending, a) + Get(s.bank.withdrawn, a)
  {
    hide RosterOk, NoncesOk, KeysOk, CaseOk, CountsOk, BallotsOk, WindowsOk, TreesOk, FilesOk, Solvent;
  }
}
