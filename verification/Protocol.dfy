/** The accountable relay as a transition system: one function per external
    call of the contract and of its DID registry. The class in
    AccountableRelay.dfy is proved to take exactly these steps. */
module Protocol {
  import opened Common
  import opened Merkle
  import opened Docket
  import opened Treasury
  import opened Committee
  import opened Exposure
  import DR = DidRegistry

  const UNSTAKE_DELAY := 259200
  const FALCON_512_SIG_SIZE_MAX := 752

  datatype Config = Config(
    challengePeriod: nat,
    quorum: nat,
    relayStakeAmount: nat,
    verifierStakeAmount: nat,
    challengerBondAmount: nat,
    relaySlashAmount: nat,
    verifierSlashAmount: nat)

  /** Storage of the contract and its registry, the block time, and the contract's balance (in `bank`). */
  datatype State = State(
    cfg: Config,
    clock: nat,
    locked: bool,
    dids: DR.Directory,
    bank: Bank,
    relayExit: map<Address, nat>,
    verifierExit: map<Address, nat>,
    roster: Roster,
    didNonce: map<Hash, nat>,
    docs: Docs,
    disputes: seq<Dispute>,
    attested: set<(nat, Address)>,
    relayActive: map<Address, nat>,
    batchOpen: map<nat, nat>,
    reg: Registry)

  /** One external call. A withdrawal pays by an external call, during which the
      payee may issue any further calls (`inner`) and then accept or refuse (`ok`).
      An attestation carries the signer recovered from its signature, if any. */
  datatype Call =
    | StakeRelayCall(sender: Address, value: nat)
    | AnnounceUnstakeCall(sender: Address)
    | UnstakeRelayCall(sender: Address)
    | StakeVerifierCall(sender: Address, value: nat)
    | AnnounceVerifierUnstakeCall(sender: Address)
    | UnstakeVerifierCall(sender: Address)
    | DeregisterVerifierCall(sender: Address)
    | SubmitAccountableCall(sender: Address, dataHash: Hash, didHash: Hash, signature: seq<Byte>)
    | FinalizeRecordCall(index: nat)
    | SubmitBatchCall(sender: Address, didHashes: seq<Hash>, dataHashes: seq<Hash>, availability: seq<Byte>)
    | FinalizeBatchCall(batch: nat)
    | OpenDisputeCall(sender: Address, value: nat, index: nat)
    | OpenBatchLeafDisputeCall(sender: Address, value: nat, batch: nat, leaf: nat, claim: LeafClaim, proof: seq<Hash>)
    | SubmitAttestationCall(id: nat, isFraud: bool, signer: Option<Address>)
    | ExpireDisputeCall(id: nat)
    | WithdrawCall(sender: Address, inner: seq<Call>, ok: bool)
    | RegisterDidCall(sender: Address, didHash: Hash, publicKey: seq<Byte>)
    | DeactivateDidCall(sender: Address, didHash: Hash)

  /** The leaf contents a challenger presents. */
  datatype LeafClaim = LeafClaim(did: Hash, nonce: nat, dataHash: Hash, sigHash: Hash)

  // ---------- Stakes and committee ----------

  function Deposit(b: Bank, value: nat): Bank {
    b.(balance := b.balance + value)
  }

  function StakeRelay(s: State, a: Address, value: nat): Outcome<State> {
    if value == 0 then Revert(NotStakedRelay)
    else Ok(s.(bank := Deposit(s.bank.(relayStake := Add(s.bank.relayStake, a, value)), value)))
  }

  function AnnounceUnstake(s: State, a: Address): Outcome<State> {
    if Get(s.bank.relayStake, a) == 0 then Revert(NotStakedRelay)
    else if Get(s.relayActive, a) != 0 then Revert(ActiveDisputes)
    else Ok(s.(relayExit := s.relayExit[a := s.clock + UNSTAKE_DELAY]))
  }

  predicate ExitDue(exits: map<Address, nat>, a: Address, now: nat) {
    Get(exits, a) != 0 && Get(exits, a) <= now
  }

  function UnstakeRelay(s: State, a: Address): Outcome<State> {
    var amount := Get(s.bank.relayStake, a);
    if s.locked then Revert(Reentrant)
    else if amount == 0 then Revert(NotStakedRelay)
    else if Get(s.relayActive, a) != 0 then Revert(ActiveDisputes)
    else if !ExitDue(s.relayExit, a, s.clock) then Revert(StillStaked)
    else Ok(s.(bank := Credit(s.bank.(relayStake := s.bank.relayStake[a := 0]), a, amount),
               relayExit := s.relayExit[a := 0]))
  }

  function StakeVerifier(s: State, a: Address, value: nat): Outcome<State> {
    if value == 0 then Revert(NotVerifier)
    else
      var bank := Deposit(s.bank.(verifierStake := Add(s.bank.verifierStake, a, value)), value);
      var joins := a !in s.roster.registered && Get(bank.verifierStake, a) >= s.cfg.verifierStakeAmount;
      Ok(s.(bank := bank, roster := if joins then Enlist(s.roster, a) else s.roster))
  }

  function AnnounceVerifierUnstake(s: State, a: Address): Outcome<State> {
    if Get(s.bank.verifierStake, a) == 0 then Revert(NotVerifier)
    else if Get(s.reg.exposures, a) != 0 then Revert(ActiveDisputes)
    else Ok(s.(verifierExit := s.verifierExit[a := s.clock + UNSTAKE_DELAY]))
  }

  function UnstakeVerifier(s: State, a: Address): Outcome<State> {
    var amount := Get(s.bank.verifierStake, a);
    if s.locked then Revert(Reentrant)
    else if amount == 0 then Revert(NotVerifier)
    else if a in s.roster.registered then Revert(StillStaked)
    else if Get(s.reg.exposures, a) != 0 then Revert(ActiveDisputes)
    else if !ExitDue(s.verifierExit, a, s.clock) then Revert(StillStaked)
    else Ok(s.(bank := Credit(s.bank.(verifierStake := s.bank.verifierStake[a := 0]), a, amount),
               verifierExit := s.verifierExit[a := 0]))
  }

  function DeregisterVerifier(s: State, a: Address): Outcome<State> {
    if a !in s.roster.registered then Revert(NotRegisteredVerifier)
    else if Get(s.reg.exposures, a) != 0 then Revert(ActiveDisputes)
    else
      match Discharge(s.roster, a)
      case None => Revert(Panic)
      case Some(r) => Ok(s.(roster := r))
  }

  // ---------- Submissions ----------

  function SubmitAccountable(s: State, a: Address, dataHash: Hash, did: Hash, signature: seq<Byte>): Outcome<State> {
    if Get(s.bank.relayStake, a) < s.cfg.relayStakeAmount then Revert(NotStakedRelay)
    else if !DR.IsActive(s.dids, did) then Revert(InactiveDid)
    else if |signature| == 0 || |signature| > FALCON_512_SIG_SIZE_MAX then Revert(BadSignatureLength)
    else
      var nonce := Get(s.didNonce, did) + 1;
      var record := Record(dataHash, did, signature, Bytes(s.dids[did].publicKey), s.clock, a, nonce, Provisional);
      Ok(s.(didNonce := s.didNonce[did := nonce], docs := s.docs.(records := s.docs.records + [record])))
  }

  /** Each leaf of one batch gets the next nonce of its DID, repeats included. */
  function NonceAt(nonces: map<Hash, nat>, dids: seq<Hash>, i: nat): nat
    requires i < |dids|
  {
    Get(nonces, dids[i]) + multiset(dids[..i + 1])[dids[i]]
  }

  function Bumped(nonces: map<Hash, nat>, dids: seq<Hash>): map<Hash, nat> {
    map d | d in nonces.Keys + (set x | x in dids) :: Get(nonces, d) + multiset(dids)[d]
  }

  function Slice(data: seq<Byte>, i: nat): Hash
    requires (i + 1) * FALCON_512_SIG_SIZE_MAX <= |data|
  {
    Bytes(data[i * FALCON_512_SIG_SIZE_MAX..(i + 1) * FALCON_512_SIG_SIZE_MAX])
  }

  function BatchLeaf(nonces: map<Hash, nat>, b: nat, dids: seq<Hash>, dataHashes: seq<Hash>, data: seq<Byte>,
                     i: nat): Hash
    requires i < |dids| == |dataHashes| && |data| == |dids| * FALCON_512_SIG_SIZE_MAX
  {
    LeafOf(b, dids[i], NonceAt(nonces, dids, i), dataHashes[i], Slice(data, i))
  }

  function BatchLeaves(nonces: map<Hash, nat>, b: nat, dids: seq<Hash>, dataHashes: seq<Hash>,
                       data: seq<Byte>): seq<Hash>
    requires |dids| == |dataHashes| && |data| == |dids| * FALCON_512_SIG_SIZE_MAX
  {
    seq(|dids|, i requires 0 <= i < |dids| => BatchLeaf(nonces, b, dids, dataHashes, data, i))
  }

  function SubmitBatch(s: State, a: Address, dids: seq<Hash>, dataHashes: seq<Hash>, data: seq<Byte>): Outcome<State> {
    if Get(s.bank.relayStake, a) < s.cfg.relayStakeAmount then Revert(NotStakedRelay)
    else if |dids| == 0 || |dataHashes| != |dids| then Revert(BatchLengthMismatch)
    else if |data| != |dids| * FALCON_512_SIG_SIZE_MAX then Revert(BadAvailabilityLength)
    else if exists d :: d in dids && !DR.IsActive(s.dids, d) then Revert(InactiveDid)
    else
      var leaves := BatchLeaves(s.didNonce, |s.docs.batches|, dids, dataHashes, data);
      var batch := Batch(Root(leaves), |dids|, Bytes(data), s.clock, a, 0, Provisional, leaves);
      Ok(s.(didNonce := Bumped(s.didNonce, dids), docs := s.docs.(batches := s.docs.batches + [batch])))
  }

  // ---------- Finalization ----------

  function FinalizeRecord(s: State, i: nat): Outcome<State> {
    if i >= |s.docs.records| then Revert(OutOfBounds)
    else
      var r := s.docs.records[i];
      if !r.state.Provisional? then Revert(NothingToFinalize)
      else if s.clock < r.submittedAt + s.cfg.challengePeriod then Revert(ChallengeWindowOpen)
      else if !CanRelease(s.reg, RecordTarget(i)) then Revert(Panic)
      else Ok(s.(docs := SetRecord(s.docs, i, Confirmed), reg := Release(s.reg, RecordTarget(i))))
  }

  function SetBatch(docs: Docs, b: nat, state: RecordState): Docs
    requires b < |docs.batches|
  {
    docs.(batches := docs.batches[b := docs.batches[b].(state := state)])
  }

  function FinalizeBatch(s: State, b: nat): Outcome<State> {
    if b >= |s.docs.batches| then Revert(OutOfBounds)
    else
      var batch := s.docs.batches[b];
      if !batch.state.Provisional? then Revert(NothingToFinalize)
      else if s.clock < batch.submittedAt + s.cfg.challengePeriod then Revert(ChallengeWindowOpen)
      else if Get(s.batchOpen, b) != 0 then Revert(OpenLeafDisputes)
      else
        match ReleaseLeaves(s.reg, b, ExposedIn(s.reg, b))
        case None => Revert(Panic)
        case Some(r) => Ok(s.(docs := SetBatch(s.docs, b, Confirmed), reg := ForgetLeaves(r, b)))
  }

  // ---------- Disputes ----------

  /** Admit a dispute on an existing target whose challenger paid `value`. */
  function Admit(s: State, t: Target, a: Address, value: nat): State
    requires Exists(s.docs, t)
  {
    var d := Dispute(t, a, value, s.clock, s.clock + s.cfg.challengePeriod, [], [], Open);
    s.(bank := Deposit(s.bank, value),
       docs := MarkDisputed(s.docs, t),
       disputes := s.disputes + [d],
       relayActive := Add(s.relayActive, RelayOf(s.docs, t), 1),
       batchOpen := if t.LeafTarget? then Add(s.batchOpen, t.batch, 1) else s.batchOpen)
  }

  function OpenDispute(s: State, a: Address, value: nat, i: nat): Outcome<State> {
    if value < s.cfg.challengerBondAmount then Revert(InsufficientBond)
    else if i >= |s.docs.records| then Revert(OutOfBounds)
    else if !s.docs.records[i].state.Provisional? then Revert(NothingToFinalize)
    else Ok(Admit(s, RecordTarget(i), a, value))
  }

  /** What stands against a dispute on leaf `l` of an existing batch. */
  function LeafObjection(docs: Docs, b: nat, l: nat, claim: LeafClaim, proof: seq<Hash>): Option<Error>
    requires b < |docs.batches|
  {
    if !docs.batches[b].state.Provisional? then Some(NothingToFinalize)
    else if l >= docs.batches[b].leafCount then Some(BadMerkleProof)
    else if LeafAt(docs, b, l).LeafDisputed? || LeafAt(docs, b, l).LeafRevoked? then Some(LeafNotDisputable)
    else if Fold(LeafOf(b, claim.did, claim.nonce, claim.dataHash, claim.sigHash), proof, l)
            != docs.batches[b].merkleRoot then Some(BadMerkleProof)
    else None
  }

  function OpenBatchLeafDispute(s: State, a: Address, value: nat, b: nat, l: nat, claim: LeafClaim, proof: seq<Hash>)
    : Outcome<State>
  {
    if value < s.cfg.challengerBondAmount then Revert(InsufficientBond)
    else if b >= |s.docs.batches| then Revert(OutOfBounds)
    else
      match LeafObjection(s.docs, b, l, claim, proof)
      case Some(e) => Revert(e)
      case None => Ok(Admit(s, LeafTarget(b, l), a, value))
  }

  predicate CanClose(s: State, t: Target)
    requires Exists(s.docs, t)
  {
    Get(s.relayActive, RelayOf(s.docs, t)) > 0 && (t.LeafTarget? ==> Get(s.batchOpen, t.batch) > 0)
  }

  /** The open-dispute counters of `t` one down. */
  function Closed(s: State, t: Target): State
    requires Exists(s.docs, t) && CanClose(s, t)
  {
    var relay := RelayOf(s.docs, t);
    s.(relayActive := s.relayActive[relay := Get(s.relayActive, relay) - 1],
       batchOpen := if t.LeafTarget? then s.batchOpen[t.batch := Get(s.batchOpen, t.batch) - 1] else s.batchOpen)
  }

  /** Settle dispute `id`: record the verdict and take its counters down. */
  function Close(s: State, id: nat, verdict: Verdict): State
    requires id < |s.disputes| && Exists(s.docs, s.disputes[id].target) && CanClose(s, s.disputes[id].target)
  {
    Closed(s, s.disputes[id].target).(disputes := s.disputes[id := s.disputes[id].(verdict := verdict)])
  }

  /** The registry after a verdict: this dispute's valid attesters are on file for the target. */
  function Filed(reg: Registry, d: Dispute): Registry {
    Remember(RegisterAll(reg, d.target, d.validAttesters), d.target)
  }

  /** What the target's relay loses at a fraud verdict, after the wrong side was slashed. */
  function Collected(cfg: Config, wrongSide: seq<Address>, d: Dispute, relay: Address, b: Bank): (Bank, nat) {
    Collect(SlashAll(b, wrongSide, cfg.verifierSlashAmount, d.challenger), relay, cfg.relaySlashAmount, false)
  }

  /** The money at a fraud verdict after the slashing: collect from the relay, 60%
      to the challenger, 40% shared by the fraud attesters, rounding dust
      retained, bond returned. */
  function Rewarded(cfg: Config, d: Dispute, relay: Address, b: Bank): Bank {
    var (b1, collected) := Collect(b, relay, cfg.relaySlashAmount, false);
    var b2 := Credit(b1, d.challenger, collected * 3 / 5);
    var b3 := PayAttesters(b2, d.fraudAttesters, collected * 2 / 5);
    Retain(Credit(b3, d.challenger, d.bond), FraudRetained(collected, |d.fraudAttesters|))
  }

  /** First of all the wrong side is slashed in favour of the challenger. */
  function FraudPayout(cfg: Config, wrongSide: seq<Address>, d: Dispute, relay: Address, b: Bank): Bank {
    Rewarded(cfg, d, relay, SlashAll(b, wrongSide, cfg.verifierSlashAmount, d.challenger))
  }

  function FraudRetained(collected: nat, n: nat): nat {
    (collected - collected * 3 / 5 - collected * 2 / 5) + Unpaid(n, collected * 2 / 5)
  }

  /** The money at a spurious verdict: half the bond to the attesters, the rest to the relay. */
  function SpuriousPayout(d: Dispute, relay: Address, b: Bank): Bank {
    Retain(Credit(PayAttesters(b, d.validAttesters, d.bond / 2), relay, d.bond - d.bond / 2),
           Unpaid(|d.validAttesters|, d.bond / 2))
  }

  /** The money at an expiry: half the bond back, the rest burned. */
  function ExpiryPayout(d: Dispute, b: Bank): Bank {
    Retain(Credit(b, d.challenger, d.bond / 2), d.bond - d.bond / 2)
  }

  function ResolveFraud(s: State, id: nat): Outcome<State>
    requires id < |s.disputes|
  {
    var d := s.disputes[id];
    if !Exists(s.docs, d.target) then Revert(OutOfBounds)
    else if !CanClose(s, d.target) then Revert(Panic)
    else
      var reg := Filed(s.reg, d);
      if !CanRelease(reg, d.target) then Revert(Panic)
      else
        Ok(Close(s, id, Fraud).(
          docs := Revoke(s.docs, d.target),
          reg := Release(reg, d.target),
          bank := FraudPayout(s.cfg, ListOf(reg, d.target), d, RelayOf(s.docs, d.target), s.bank)))
  }

  function ResolveSpurious(s: State, id: nat): Outcome<State>
    requires id < |s.disputes|
  {
    var d := s.disputes[id];
    if !Exists(s.docs, d.target) then Revert(OutOfBounds)
    else if !CanClose(s, d.target) then Revert(Panic)
    else
      Ok(Close(s, id, Spurious).(
        docs := Reinstate(s.docs, d.target),
        reg := Filed(s.reg, d),
        bank := SpuriousPayout(d, RelayOf(s.docs, d.target), s.bank)))
  }

  function WithVote(d: Dispute, isFraud: bool, v: Address): Dispute {
    if isFraud then d.(fraudAttesters := d.fraudAttesters + [v]) else d.(validAttesters := d.validAttesters + [v])
  }

  function Vote(s: State, id: nat, isFraud: bool, v: Address): State
    requires id < |s.disputes|
  {
    s.(disputes := s.disputes[id := WithVote(s.disputes[id], isFraud, v)], attested := s.attested + {(id, v)})
  }

  function SubmitAttestation(s: State, id: nat, isFraud: bool, signer: Option<Address>): Outcome<State> {
    if s.locked then Revert(Reentrant)
    else if id >= |s.disputes| then Revert(OutOfBounds)
    else
      var d := s.disputes[id];
      if d.deadline == 0 then Revert(UnknownDispute)
      else if !d.verdict.Open? || s.clock > d.deadline then Revert(NoDisputeOpen)
      else if signer.None? then Revert(BadAttestation)
      else
        var v := signer.value;
        if v !in s.roster.registered || Get(s.bank.verifierStake, v) < s.cfg.verifierStakeAmount
        then Revert(NotRegisteredVerifier)
        else if !Exists(s.docs, d.target) then Revert(OutOfBounds)
        else if v == RelayOf(s.docs, d.target) then Revert(ConflictOfInterest)
        else if (id, v) in s.attested then Revert(DuplicateAttestation)
        else
          var s1 := Vote(s, id, isFraud, v);
          if |s1.disputes[id].fraudAttesters| >= s.cfg.quorum then ResolveFraud(s1, id)
          else if |s1.disputes[id].validAttesters| >= s.cfg.quorum then ResolveSpurious(s1, id)
          else Ok(s1)
  }

  function ExpireDispute(s: State, id: nat): Outcome<State> {
    if s.locked then Revert(Reentrant)
    else if id >= |s.disputes| then Revert(OutOfBounds)
    else
      var d := s.disputes[id];
      if d.deadline == 0 then Revert(UnknownDispute)
      else if !d.verdict.Open? then Revert(AlreadyResolved)
      else if s.clock <= d.deadline then Revert(ChallengeWindowOpen)
      else if !Exists(s.docs, d.target) then Revert(OutOfBounds)
      else if !CanClose(s, d.target) || !CanRelease(s.reg, d.target) then Revert(Panic)
      else
        Ok(Close(s, id, Expired).(
          docs := Revoke(s.docs, d.target),
          reg := Release(s.reg, d.target),
          bank := ExpiryPayout(d, s.bank)))
  }

  // ---------- Payments ----------

  /** The ledger at the moment the payee is called: its claim is gone and paid. */
  function PaidOut(b: Bank, a: Address): Bank
    requires Get(b.pending, a) <= b.balance
  {
    var amount := Get(b.pending, a);
    b.(pending := b.pending[a := 0], withdrawn := Add(b.withdrawn, a, amount), balance := b.balance - amount)
  }

  function Withdraw(s: State, a: Address, inner: seq<Call>, ok: bool): Outcome<State>
    decreases inner, 2
  {
    if s.locked then Revert(Reentrant)
    else if Get(s.bank.pending, a) == 0 then Revert(NothingToWithdraw)
    else if !ok || s.bank.balance < Get(s.bank.pending, a) then Revert(TransferFailed)
    else Ok(AfterAll(s.(locked := true, bank := PaidOut(s.bank, a)), inner).(locked := false))
  }

  // ---------- Calls, transactions, runs ----------

  function Step(s: State, c: Call): Outcome<State>
    decreases c, 1
  {
    match c
    case StakeRelayCall(a, v) => StakeRelay(s, a, v)
    case AnnounceUnstakeCall(a) => AnnounceUnstake(s, a)
    case UnstakeRelayCall(a) => UnstakeRelay(s, a)
    case StakeVerifierCall(a, v) => StakeVerifier(s, a, v)
    case AnnounceVerifierUnstakeCall(a) => AnnounceVerifierUnstake(s, a)
    case UnstakeVerifierCall(a) => UnstakeVerifier(s, a)
    case DeregisterVerifierCall(a) => DeregisterVerifier(s, a)
    case SubmitAccountableCall(a, h, d, sig) => SubmitAccountable(s, a, h, d, sig)
    case FinalizeRecordCall(i) => FinalizeRecord(s, i)
    case SubmitBatchCall(a, ds, hs, av) => SubmitBatch(s, a, ds, hs, av)
    case FinalizeBatchCall(b) => FinalizeBatch(s, b)
    case OpenDisputeCall(a, v, i) => OpenDispute(s, a, v, i)
    case OpenBatchLeafDisputeCall(a, v, b, l, claim, proof) => OpenBatchLeafDispute(s, a, v, b, l, claim, proof)
    case SubmitAttestationCall(id, fraud, signer) => SubmitAttestation(s, id, fraud, signer)
    case ExpireDisputeCall(id) => ExpireDispute(s, id)
    case WithdrawCall(a, inner, ok) => Withdraw(s, a, inner, ok)
    case RegisterDidCall(a, d, k) =>
      (match DR.Register(s.dids, a, d, k, s.clock) case Ok(m) => Ok(s.(dids := m)) case Revert(e) => Revert(e))
    case DeactivateDidCall(a, d) =>
      (match DR.Deactivate(s.dids, a, d) case Ok(m) => Ok(s.(dids := m)) case Revert(e) => Revert(e))
  }

  /** A reverted call leaves no trace. */
  function After(s: State, c: Call): State
    decreases c, 2
  {
    match Step(s, c) case Ok(s') => s' case Revert(_) => s
  }

  function AfterAll(s: State, cs: seq<Call>): State
    decreases cs, 0
  {
    if cs == [] then s else AfterAll(After(s, cs[0]), cs[1..])
  }

  /** A call mined in a block with time `now`. */
  datatype Tx = Tx(now: nat, call: Call)

  function Exec(s: State, tx: Tx): State {
    After(s.(clock := tx.now), tx.call)
  }

  /** A caller that sees outcome `o` of a call made in `s`: its answer, and storage `s'` afterwards. */
  ghost predicate Answers(o: Outcome<State>, s: State, s': State, answer: Outcome<()>) {
    match o
    case Ok(t) => s' == t && answer == Ok(())
    case Revert(e) => s' == s && answer == Revert(e)
  }

  /** Block times never run backwards. */
  ghost predicate Timely(from: nat, txs: seq<Tx>)
    decreases |txs|
  {
    txs == [] || (from <= txs[0].now && Timely(txs[0].now, txs[1..]))
  }

  function Run(s: State, txs: seq<Tx>): State
    decreases |txs|
  {
    if txs == [] then s else Run(Exec(s, txs[0]), txs[1..])
  }

  /** Deployment in a block with a positive time, beside a registry that may be in use already. */
  ghost predicate Init(s: State) {
    exists cfg, now: nat, dids :: now > 0 && DR.Dated(dids) && s == Fresh(cfg, now, dids)
  }

  function Fresh(cfg: Config, now: nat, dids: DR.Directory): State {
    State(cfg, now, false, dids, Bank(map[], map[], map[], map[], map[], 0, 0), map[], map[],
          Roster([], {}, 0), map[], Docs([], [], map[]), [], {}, map[], map[], Registry(map[], {}, map[], map[]))
  }
}
