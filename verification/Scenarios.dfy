/** Concrete runs on which a promise of the documentation fails, in the reference
    deployment's amounts and periods. */
module Scenarios {
  import opened Common
  import opened Merkle
  import opened Docket
  import opened Committee
  import opened Protocol
  import opened Invariants
  import opened Preservation
  import opened Theorems
  import DR = DidRegistry

  const ETHER := 1_000_000_000_000_000_000
  const DEVICE := Raw(1)

  /** The time verifier 7 may first unstake. */
  const DUE := 1 + UNSTAKE_DELAY

  function KeyBytes(): seq<Byte> {
    seq(DR.FALCON_512_PK_SIZE, _ => 0)
  }

  /** The reference deployment, up to its quorum. */
  function Reference(quorum: nat): Config {
    Config(7200, quorum, ETHER, ETHER / 2, ETHER / 10, ETHER / 2, ETHER / 4)
  }

  /** Verifier 7 enrols and announces its exit while clean; three days later relay 2
      submits a record, challenger 3 disputes it, and verifier 7 votes valid. */
  function VoteValid(): seq<Tx> {
    [Tx(1, StakeVerifierCall(7, ETHER / 2)), Tx(1, AnnounceVerifierUnstakeCall(7)),
     Tx(1, RegisterDidCall(1, DEVICE, KeyBytes())), Tx(1, StakeRelayCall(2, ETHER)),
     Tx(DUE, SubmitAccountableCall(2, Raw(2), DEVICE, [0])), Tx(DUE, OpenDisputeCall(3, ETHER / 10, 0)),
     Tx(DUE, SubmitAttestationCall(0, false, Some(7)))]
  }

  /** In the same block verifier 7 leaves the roster and takes its stake out. */
  function ThenLeave(): seq<Tx> {
    [Tx(DUE, DeregisterVerifierCall(7)), Tx(DUE, UnstakeVerifierCall(7))]
  }

  lemma RunTwo(s: State, x: Tx, y: Tx)
    ensures Run(s, [x, y]) == Exec(Exec(s, x), y)
  {
    assert [x, y][1..] == [y] && [y][1..] == [];
    assert Run(Exec(s, x), [y]) == Run(Exec(Exec(s, x), y), []);
  }

  ghost predicate Deployed(s: State, quorum: nat) {
    s.cfg == Reference(quorum) && !s.locked && s.attested == {} && s.reg.exposures == map[]
        && Get(s.bank.pending, 7) == 0
  }

  /** Verifier 7 is seated with full stake and its exit announced. */
  ghost predicate Seated(s: State) {
    && Get(s.bank.verifierStake, 7) == ETHER / 2 && s.roster == Roster([7], {7}, 1) && Get(s.verifierExit, 7) == DUE
  }

  lemma Enrolling(s: State, quorum: nat)
    requires s == Fresh(Reference(quorum), 1, map[])
    ensures var e := Exec(Exec(s, VoteValid()[0]), VoteValid()[1]);
            && Deployed(e, quorum) && Seated(e)
            && e.docs.records == [] && e.disputes == [] && e.dids == map[] && e.bank.relayStake == map[]
  {
    var s1 := Exec(s, VoteValid()[0]);
    StepTaken(s, VoteValid()[0]);
    StepTaken(s1, VoteValid()[1]);
    assert s1.roster == Roster([7], {7}, 1) && Get(s1.bank.verifierStake, 7) == ETHER / 2;
  }

  lemma Staking(s: State, quorum: nat)
    requires Deployed(s, quorum) && Seated(s)
    requires s.docs.records == [] && s.disputes == [] && s.dids == map[] && s.bank.relayStake == map[]
    ensures var e := Exec(Exec(s, VoteValid()[2]), VoteValid()[3]);
            && Deployed(e, quorum) && Seated(e) && e.docs.records == [] && e.disputes == []
            && DR.IsActive(e.dids, DEVICE) && Get(e.bank.relayStake, 2) == ETHER
  {
  }

  /** The one record of relay 2 is under its one dispute. */
  ghost predicate Contested(s: State) {
    && s.clock == DUE && |s.docs.records| == 1 && s.docs.records[0].relay == 2
    && s.disputes == [Dispute(RecordTarget(0), 3, ETHER / 10, DUE, DUE + 7200, [], [], Open)]
  }

  lemma Disputing(s: State, quorum: nat)
    requires Deployed(s, quorum) && Seated(s) && s.docs.records == [] && s.disputes == []
    requires DR.IsActive(s.dids, DEVICE) && Get(s.bank.relayStake, 2) == ETHER
    ensures var e := Exec(Exec(s, VoteValid()[4]), VoteValid()[5]);
            Deployed(e, quorum) && Seated(e) && Contested(e)
  {
    hide DR.IsActive;
    var s1 := Exec(s, VoteValid()[4]);
    StepTaken(s, VoteValid()[4]);
    StepTaken(s1, VoteValid()[5]);
    assert |s1.docs.records| == 1 && s1.docs.records[0].relay == 2 && s1.docs.records[0].state.Provisional?;
  }

  /** The run up to the open dispute. */
  lemma UpToDispute(quorum: nat)
    ensures var s := Run(Fresh(Reference(quorum), 1, map[]), VoteValid()[..6]);
            Deployed(s, quorum) && Seated(s) && Contested(s)
  {
    hide Run, Exec, Deployed, Seated, Contested;
    var txs := VoteValid();
    var s0 := Fresh(Reference(quorum), 1, map[]);
    hide Fresh;
    Enrolling(s0, quorum);
    var s2 := Exec(Exec(s0, txs[0]), txs[1]);
    Staking(s2, quorum);
    var s4 := Exec(Exec(s2, txs[2]), txs[3]);
    Disputing(s4, quorum);
    RunTwo(s0, txs[0], txs[1]);
    RunTwo(s2, txs[2], txs[3]);
    RunTwo(s4, txs[4], txs[5]);
    RunAppend(s0, [txs[0], txs[1]], [txs[2], txs[3]]);
    RunAppend(s0, [txs[0], txs[1]] + [txs[2], txs[3]], [txs[4], txs[5]]);
    assert txs[..6] == [txs[0], txs[1]] + [txs[2], txs[3]] + [txs[4], txs[5]];
  }

  // ---------- An open dispute holds nobody ----------

  /** With a quorum above one the vote alone settles nothing. */
  lemma Voting(s: State, quorum: nat)
    requires Deployed(s, quorum) && Seated(s) && Contested(s) && quorum > 1
    ensures var e := Exec(s, VoteValid()[6]);
            && Seated(e) && !e.locked && e.clock == DUE && e.reg.exposures == map[] && Get(e.bank.pending, 7) == 0
            && e.disputes == [s.disputes[0].(validAttesters := [7])]
  {
    hide ResolveFraud, ResolveSpurious;
    StepTaken(s, VoteValid()[6]);
    var now := s.(clock := DUE);
    var d := s.disputes[0];
    assert s.disputes == [d] && d.validAttesters == [] && [] + [7] == [7];
    assert WithVote(d, false, 7) == d.(validAttesters := [7]);
    assert Vote(now, 0, false, 7).disputes == [s.disputes[0].(validAttesters := [7])];
    assert SubmitAttestation(now, 0, false, Some(7)) == Ok(Vote(now, 0, false, 7));
  }

  lemma Leaving(s: State)
    requires Seated(s) && !s.locked && s.clock == DUE && s.reg.exposures == map[] && Get(s.bank.pending, 7) == 0
    ensures var e := Exec(Exec(s, ThenLeave()[0]), ThenLeave()[1]);
            && e.disputes == s.disputes && e.clock == DUE
            && 7 !in e.roster.registered && Get(e.bank.verifierStake, 7) == 0 && Get(e.bank.pending, 7) == ETHER / 2
  {
    var s1 := Exec(s, ThenLeave()[0]);
    StepTaken(s, ThenLeave()[0]);
    StepTaken(s1, ThenLeave()[1]);
    assert s1 == s.(roster := s1.roster) && 7 !in s1.roster.registered;
  }

  /** The documented promise that every valid vote stays punishable until its target is
      final fails while the vote's own dispute is open. In the reference deployment a
      verifier that announced its exit while clean votes valid, leaves and unstakes,
      all in the block of the dispute. `VerifierExits` says exactly when leaving is possible. */
  lemma OpenVoteMayLeave(quorum: nat)
    requires quorum > 1
    ensures Timely(1, VoteValid() + ThenLeave())
    ensures var s := Run(Fresh(Reference(quorum), 1, map[]), VoteValid() + ThenLeave());
            && |s.disputes| == 1 && s.disputes[0].verdict.Open? && 7 in s.disputes[0].validAttesters
            && s.clock == s.disputes[0].openedAt < s.disputes[0].deadline
            && 7 !in s.roster.registered && Get(s.bank.verifierStake, 7) == 0 && Get(s.bank.pending, 7) == ETHER / 2
  {
    TimelyRun();
    hide Run, Exec, Fresh, Timely;
    var s0, txs, exit := Fresh(Reference(quorum), 1, map[]), VoteValid(), ThenLeave();
    UpToDispute(quorum);
    var s1 := Run(s0, txs[..6]);
    Voting(s1, quorum);
    var s2 := Exec(s1, txs[6]);
    Leaving(s2);
    RunOne(s1, txs[6]);
    RunAppend(s0, txs[..6], [txs[6]]);
    assert txs == txs[..6] + [txs[6]];
    RunTwo(s2, exit[0], exit[1]);
    RunAppend(s0, txs, exit);
    assert exit == [exit[0], exit[1]];
  }

  lemma TimelyRun()
    ensures Timely(1, VoteValid() + ThenLeave()) && Timely(1, VoteValid())
  {
    TimelySorted(1, VoteValid() + ThenLeave());
    TimelySorted(1, VoteValid());
  }

  lemma {:induction false} TimelySorted(from: nat, txs: seq<Tx>)
    requires forall i :: 0 <= i < |txs| ==> from <= txs[i].now
    requires forall i, j :: 0 <= i < j < |txs| ==> txs[i].now <= txs[j].now
    ensures Timely(from, txs)
    decreases |txs|
  {
    if txs != [] {
      TimelySorted(txs[0].now, txs[1..]);
    }
  }

  // ---------- No quorum, no verdict worth the name ----------

  /** With quorum 0, which the constructor accepts, the same run ends in a fraud verdict
      carried by a single vote, and that vote said valid. */
  lemma OneValidVoteProvesFraud()
    ensures Timely(1, VoteValid())
    ensures var s := Run(Fresh(Reference(0), 1, map[]), VoteValid());
            && |s.disputes| == 1 && s.disputes[0].verdict.Fraud?
            && s.disputes[0].fraudAttesters == [] && 7 in s.disputes[0].validAttesters
            && Exists(s.docs, RecordTarget(0)) && s.docs.records[0].state.Revoked?
  {
    TimelyRun();
    hide Inv, Run, Exec, Fresh, Timely;
    var s0, txs := Fresh(Reference(0), 1, map[]), VoteValid();
    UpToDispute(0);
    DisputeReached(0);
    RunOne(Run(s0, txs[..6]), txs[6]);
    RunAppend(s0, txs[..6], [txs[6]]);
    assert txs == txs[..6] + [txs[6]];
    VotingWithoutQuorum(Run(s0, txs[..6]));
  }

  lemma DisputeReached(quorum: nat)
    ensures Inv(Run(Fresh(Reference(quorum), 1, map[]), VoteValid()[..6]))
  {
    hide Run, Timely, Inv;
    TimelySorted(1, VoteValid()[..6]);
    var s0 := Fresh(Reference(quorum), 1, map[]);
    assert Init(s0);
    InitInv(s0);
    RunKeeps(s0, VoteValid()[..6]);
  }

  lemma VotingWithoutQuorum(s: State)
    requires Inv(s) && Deployed(s, 0) && Seated(s) && Contested(s)
    ensures var e := Exec(s, VoteValid()[6]);
            && |e.disputes| == 1 && e.disputes[0].verdict.Fraud?
            && e.disputes[0].fraudAttesters == [] && 7 in e.disputes[0].validAttesters
            && Exists(e.docs, RecordTarget(0)) && e.docs.records[0].state.Revoked?
  {
    hide Inv, SubmitAttestation;
    StepTaken(s, VoteValid()[6]);
    assert s.(clock := DUE) == s;
    AttestationEnabled(s, 0, false, Some(7));
    NoQuorumMeansFraud(s, 0, false, Some(7));
  }
}
