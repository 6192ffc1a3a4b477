/** Who may leave, and when: the exits are decided by the dispute history alone.
    A vote holds its author from the moment its dispute is settled, not before. */
module Exits {
  import opened Common
  import opened Docket
  import opened DocketFacts
  import opened Committee
  import opened Protocol
  import opened Invariants
  import opened Theorems

  /** A verifier's three exits are open exactly while no undecided target counts on
      a settled valid vote of it (and the step's own conditions hold). */
  lemma VerifierExits(s: State, v: Address)
    requires Inv(s)
    ensures DeregisterVerifier(s, v).Ok? <==> v in s.roster.registered && LiveTargets(s, v) == {}
    ensures AnnounceVerifierUnstake(s, v).Ok? <==> Get(s.bank.verifierStake, v) > 0 && LiveTargets(s, v) == {}
    ensures UnstakeVerifier(s, v).Ok? <==>
              && !s.locked && Get(s.bank.verifierStake, v) > 0 && v !in s.roster.registered
              && LiveTargets(s, v) == {} && ExitDue(s.verifierExit, v, s.clock)
  {
    ExposureRecomputed(s, v);
    hide MoneyOk, NoncesOk, KeysOk, CaseOk, CountsOk, BallotsOk, WindowsOk, TreesOk, FilesOk, QuorumsOk, LiveTargets,
         Discharge;
    if v in s.roster.registered {
      DischargeRemoves(s.roster, v);
    }
  }

  /** A relay's exits are open exactly while no open dispute names it. */
  lemma RelayExits(s: State, r: Address)
    requires Inv(s)
    ensures AnnounceUnstake(s, r).Ok? <==> Get(s.bank.relayStake, r) > 0 && OpenNaming(s.docs, s.disputes, r) == {}
    ensures UnstakeRelay(s, r).Ok? <==>
              && !s.locked && Get(s.bank.relayStake, r) > 0 && OpenNaming(s.docs, s.disputes, r) == {}
              && ExitDue(s.relayExit, r, s.clock)
  {
    hide MoneyOk, RosterOk, NoncesOk, KeysOk, CaseOk, BallotsOk, WindowsOk, TreesOk, FilesOk, QuorumsOk, OpenNaming;
    assert Get(s.relayActive, r) == |OpenNaming(s.docs, s.disputes, r)|;
  }

  /** One valid vote on an undecided target closes all exits exactly from its dispute's settlement on. */
  lemma SettledVoteHolds(s: State, id: nat, v: Address)
    requires Inv(s) && id < |s.disputes| && v in s.disputes[id].validAttesters && !s.disputes[id].verdict.Open?
    requires Exists(s.docs, s.disputes[id].target) && !Terminal(s.docs, s.disputes[id].target)
    ensures !DeregisterVerifier(s, v).Ok? && !AnnounceVerifierUnstake(s, v).Ok? && !UnstakeVerifier(s, v).Ok?
  {
    VerifierExits(s, v);
    assert s.disputes[id] in s.disputes;
    assert s.disputes[id].target in LiveTargets(s, v);
  }
}
