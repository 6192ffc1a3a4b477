/** The contract itself: its storage, its loops and its internal functions, each
    call proved to take exactly the step the protocol prescribes. */
module Contract {
  import opened Common
  import opened Merkle
  import opened Docket
  import opened DocketFacts
  import opened Treasury
  import opened Committee
  import opened Exposure
  import opened ExposureFacts
  import opened Protocol
  import opened Invariants
  import opened DisputeSteps
  import opened Preservation
  import P = Protocol
  import DR = DidRegistry

  lemma FreshIs(s: State, config: Config, now: nat, dids: DR.Directory)
    requires now > 0 && DR.Dated(dids)
    requires s == State(config, now, false, dids, Bank(map[], map[], map[], map[], map[], 0, 0), map[], map[],
                        Roster([], {}, 0), map[], Docs([], [], map[]), [], {}, map[], map[],
                        Registry(map[], {}, map[], map[]))
    ensures s == Fresh(config, now, dids) && Init(s)
  {
  }

  class AccountableRelay {
    const didRegistry: DR.DIDRegistry
    const cfg: Config

    var relayStake: map<Address, nat>
    var relayExitTime: map<Address, nat>
    var relayActiveDisputes: map<Address, nat>

    var verifierStake: map<Address, nat>
    var isRegisteredVerifier: set<Address>
    var verifierExitTime: map<Address, nat>
    var verifierRoster: seq<Address>
    var verifierCount: nat

    var didNonce: map<Hash, nat>

    var records: seq<Record>
    var batches: seq<Batch>
    var disputes: seq<Dispute>

    var batchLeafState: map<(nat, nat), LeafState>
    var batchOpenLeafDisputes: map<nat, nat>

    var targetValidList: map<Target, seq<Address>>
    var targetValidHas: set<(Target, Address)>
    var hasAttested: set<(nat, Address)>

    var pendingWithdrawals: map<Address, nat>
    var verifierLiveExposures: map<Address, nat>
    var exposedLeaves: map<nat, seq<nat>>

    var guarded: bool

    /** The account balance the chain keeps for the contract. */
    var balance: nat

    // History, and the time of the block being executed.
    ghost var credited: map<Address, nat>
    ghost var withdrawn: map<Address, nat>
    ghost var retained: nat
    ghost var clock: nat

    // ---------- Abstraction ----------

    ghost function BankView(): Bank
      reads this
    {
      Bank(relayStake, verifierStake, pendingWithdrawals, credited, withdrawn, balance, retained)
    }

    ghost function RosterView(): Roster
      reads this
    {
      Roster(verifierRoster, isRegisteredVerifier, verifierCount)
    }

    ghost function DocsView(): Docs
      reads this
    {
      Docs(records, batches, batchLeafState)
    }

    ghost function RegView(): Registry
      reads this
    {
      Registry(targetValidList, targetValidHas, verifierLiveExposures, exposedLeaves)
    }

    ghost function View(): State
      reads this, didRegistry
    {
      State(cfg, clock, guarded, didRegistry.dids, BankView(), relayExitTime, verifierExitTime, RosterView(), didNonce,
            DocsView(), disputes, hasAttested, relayActiveDisputes, batchOpenLeafDisputes, RegView())
    }

    ghost predicate Valid()
      reads this, didRegistry
    {
      Inv(View())
    }

    constructor (registry: DR.DIDRegistry, config: Config, now: nat)
      requires now > 0 && DR.Dated(registry.dids)
      ensures View() == Fresh(config, now, registry.dids) && Valid() && didRegistry == registry
    {
      didRegistry := registry;
      cfg := config;
      relayStake, relayExitTime, relayActiveDisputes := map[], map[], map[];
      verifierStake, isRegisteredVerifier, verifierExitTime := map[], {}, map[];
      verifierRoster, verifierCount := [], 0;
      didNonce := map[];
      records, batches, disputes := [], [], [];
      batchLeafState, batchOpenLeafDisputes := map[], map[];
      targetValidList, targetValidHas, hasAttested := map[], {}, {};
      pendingWithdrawals, verifierLiveExposures, exposedLeaves := map[], map[], map[];
      guarded, balance := false, 0;
      credited, withdrawn, retained, clock := map[], map[], 0, now;
      new;
      hide Inv, Fresh;
      FreshIs(View(), config, now, registry.dids);
      InitInv(View());
    }

    // ---------- Pull payments ----------

    /** `_credit` */
    method CreditTo(to: Address, amount: nat)
      modifies `pendingWithdrawals, `credited
      ensures BankView() == Credit(old(BankView()), to, amount)
    {
      if amount > 0 {
        pendingWithdrawals := Add(pendingWithdrawals, to, amount);
        credited := Add(credited, to, amount);
      }
    }

    // ---------- Stakes and committee ----------

    method StakeRelay(sender: Address, value: nat) returns (r: Outcome<()>)
      modifies this
      ensures Answers(P.StakeRelay(old(View()), sender, value), old(View()), View(), r)
    {
      if value == 0 {
        return Revert(NotStakedRelay);
      }
      balance := balance + value;
      relayStake := Add(relayStake, sender, value);
      return Ok(());
    }

    method AnnounceUnstake(sender: Address, now: nat) returns (r: Outcome<()>)
      requires now == View().clock
      modifies this
      ensures Answers(P.AnnounceUnstake(old(View()), sender), old(View()), View(), r)
    {
      if Get(relayStake, sender) == 0 {
        return Revert(NotStakedRelay);
      }
      if Get(relayActiveDisputes, sender) != 0 {
        return Revert(ActiveDisputes);
      }
      relayExitTime := relayExitTime[sender := now + UNSTAKE_DELAY];
      return Ok(());
    }

    method PayOutRelayStake(sender: Address, amount: nat)
      modifies `relayStake, `relayExitTime, `pendingWithdrawals, `credited
      ensures BankView() == Credit(old(BankView()).(relayStake := old(relayStake)[sender := 0]), sender, amount)
      ensures relayExitTime == old(relayExitTime)[sender := 0]
    {
      relayStake := relayStake[sender := 0];
      relayExitTime := relayExitTime[sender := 0];
      CreditTo(sender, amount);
    }

    method UnstakeRelay(sender: Address, now: nat) returns (r: Outcome<()>)
      requires now == View().clock
      modifies this
      ensures Answers(P.UnstakeRelay(old(View()), sender), old(View()), View(), r)
    {
      hide Credit;
      ghost var s := View();
      if guarded {
        return Revert(Reentrant);
      }
      var amount := Get(relayStake, sender);
      if amount == 0 {
        return Revert(NotStakedRelay);
      }
      if Get(relayActiveDisputes, sender) != 0 {
        return Revert(ActiveDisputes);
      }
      if Get(relayExitTime, sender) == 0 || now < Get(relayExitTime, sender) {
        return Revert(StillStaked);
      }
      PayOutRelayStake(sender, amount);
      assert View() == s.(bank := BankView(), relayExit := relayExitTime);
      return Ok(());
    }

    method TakeVerifierStake(sender: Address, value: nat)
      modifies `balance, `verifierStake, `isRegisteredVerifier, `verifierRoster, `verifierCount
      requires value > 0
      ensures BankView() == P.StakeVerifier(old(View()), sender, value).state.bank
      ensures RosterView() == P.StakeVerifier(old(View()), sender, value).state.roster
    {
      balance := balance + value;
      verifierStake := Add(verifierStake, sender, value);
      if sender !in isRegisteredVerifier && Get(verifierStake, sender) >= cfg.verifierStakeAmount {
        isRegisteredVerifier := isRegisteredVerifier + {sender};
        verifierRoster := verifierRoster + [sender];
        verifierCount := verifierCount + 1;
      }
    }

    method StakeVerifier(sender: Address, value: nat) returns (r: Outcome<()>)
      modifies this
      ensures Answers(P.StakeVerifier(old(View()), sender, value), old(View()), View(), r)
    {
      if value == 0 {
        return Revert(NotVerifier);
      }
      ghost var s := View();
      TakeVerifierStake(sender, value);
      assert View() == s.(bank := BankView(), roster := RosterView());
      return Ok(());
    }

    method AnnounceVerifierUnstake(sender: Address, now: nat) returns (r: Outcome<()>)
      requires now == View().clock
      modifies this
      ensures Answers(P.AnnounceVerifierUnstake(old(View()), sender), old(View()), View(), r)
    {
      if Get(verifierStake, sender) == 0 {
        return Revert(NotVerifier);
      }
      if Get(verifierLiveExposures, sender) != 0 {
        return Revert(ActiveDisputes);
      }
      verifierExitTime := verifierExitTime[sender := now + UNSTAKE_DELAY];
      return Ok(());
    }

    method PayOutVerifierStake(sender: Address, amount: nat)
      modifies `verifierStake, `verifierExitTime, `pendingWithdrawals, `credited
      ensures BankView() == Credit(old(BankView()).(verifierStake := old(verifierStake)[sender := 0]), sender, amount)
      ensures verifierExitTime == old(verifierExitTime)[sender := 0]
    {
      verifierStake := verifierStake[sender := 0];
      verifierExitTime := verifierExitTime[sender := 0];
      CreditTo(sender, amount);
    }

    method UnstakeVerifier(sender: Address, now: nat) returns (r: Outcome<()>)
      requires now == View().clock
      modifies this
      ensures Answers(P.UnstakeVerifier(old(View()), sender), old(View()), View(), r)
    {
      hide Credit;
      ghost var s := View();
      if guarded {
        return Revert(Reentrant);
      }
      var amount := Get(verifierStake, sender);
      if amount == 0 {
        return Revert(NotVerifier);
      }
      if sender in isRegisteredVerifier {
        return Revert(StillStaked);
      }
      if Get(verifierLiveExposures, sender) != 0 {
        return Revert(ActiveDisputes);
      }
      if Get(verifierExitTime, sender) == 0 || now < Get(verifierExitTime, sender) {
        return Revert(StillStaked);
      }
      PayOutVerifierStake(sender, amount);
      assert View() == s.(bank := BankView(), verifierExit := verifierExitTime);
      return Ok(());
    }

    /** The search for the sender's seat, then swap and pop. */
    method LeaveRoster(sender: Address)
      requires RosterOk(RosterView()) && sender in isRegisteredVerifier
      modifies `isRegisteredVerifier, `verifierRoster, `verifierCount
      ensures Discharge(old(RosterView()), sender) == Some(RosterView())
    {
      DischargeRemoves(RosterView(), sender);
      isRegisteredVerifier := isRegisteredVerifier - {sender};
      var n := |verifierRoster|;
      var i := 0;
      while i < n
        invariant 0 <= i <= n && i <= IndexOf(verifierRoster, sender)
        invariant verifierRoster == old(verifierRoster) && verifierCount == old(verifierCount)
      {
        if verifierRoster[i] == sender {
          verifierRoster := verifierRoster[i := verifierRoster[n - 1]];
          verifierRoster := verifierRoster[..n - 1];
          verifierCount := verifierCount - 1;
          break;
        }
        i := i + 1;
      }
    }

    method DeregisterVerifier(sender: Address) returns (r: Outcome<()>)
      requires Valid()
      modifies this
      ensures Answers(P.DeregisterVerifier(old(View()), sender), old(View()), View(), r)
    {
      hide Inv, RosterOk, Discharge;
      ghost var s := View();
      ValidRoster(s);
      if sender !in isRegisteredVerifier {
        return Revert(NotRegisteredVerifier);
      }
      if Get(verifierLiveExposures, sender) != 0 {
        return Revert(ActiveDisputes);
      }
      LeaveRoster(sender);
      assert View() == s.(roster := RosterView());
      return Ok(());
    }

    // ---------- Submissions ----------

    /** The nonce is taken and the record stored. */
    method AppendRecord(sender: Address, dataHash: Hash, didHash: Hash, falconSignature: seq<Byte>, key: seq<Byte>,
                        now: nat)
      modifies `didNonce, `records
      ensures var nonce := Get(old(didNonce), didHash) + 1;
              && didNonce == old(didNonce)[didHash := nonce]
              && records == old(records) +
                            [Record(dataHash, didHash, falconSignature, Bytes(key), now, sender, nonce, Provisional)]
    {
      var nonce := Get(didNonce, didHash) + 1;
      didNonce := didNonce[didHash := nonce];
      records := records + [Record(dataHash, didHash, falconSignature, Bytes(key), now, sender, nonce, Provisional)];
    }

    method SubmitAccountable(sender: Address, dataHash: Hash, didHash: Hash, falconSignature: seq<Byte>, now: nat)
      returns (r: Outcome<()>)
      requires now == View().clock
      modifies this
      ensures Answers(P.SubmitAccountable(old(View()), sender, dataHash, didHash, falconSignature),
                      old(View()), View(), r)
    {
      hide DR.IsActive;
      ghost var s := View();
      if Get(relayStake, sender) < cfg.relayStakeAmount {
        return Revert(NotStakedRelay);
      }
      var key := didRegistry.GetPublicKey(didHash);
      if key.None? {
        return Revert(InactiveDid);
      }
      if |falconSignature| == 0 || |falconSignature| > FALCON_512_SIG_SIZE_MAX {
        return Revert(BadSignatureLength);
      }
      AppendRecord(sender, dataHash, didHash, falconSignature, key.value, now);
      assert View() == s.(didNonce := didNonce, docs := DocsView());
      return Ok(());
    }

    /** `_processLeaf`: the next nonce of the leaf's DID, and its bound leaf in place. */
    method ProcessLeaf(batchIndex: nat, i: nat, didHashes: seq<Hash>, dataHashes: seq<Hash>, data: seq<Byte>,
                       leaves: array<Hash>, ghost before: map<Hash, nat>)
      requires i < |didHashes| == |dataHashes| == leaves.Length && |data| == |didHashes| * FALCON_512_SIG_SIZE_MAX
      requires didNonce == Bumped(before, didHashes[..i])
      modifies `didNonce, leaves
      ensures didNonce == Bumped(before, didHashes[..i + 1])
      ensures leaves[i] == BatchLeaf(before, batchIndex, didHashes, dataHashes, data, i)
      ensures forall j :: 0 <= j < leaves.Length && j != i ==> leaves[j] == old(leaves[j])
    {
      BatchNonceAt(before, didHashes, i);
      assert didHashes[..i + 1] == didHashes[..i] + [didHashes[i]];
      var nonce := Get(didNonce, didHashes[i]) + 1;
      didNonce := didNonce[didHashes[i] := nonce];
      var sigHash := Slice(data, i);
      leaves[i] := LeafOf(batchIndex, didHashes[i], nonce, dataHashes[i], sigHash);
    }

    /** The leaf loop of a batch. On an inactive DID the nonces are rolled back, as a reverted call's storage is. */
    method ProcessLeaves(batchIndex: nat, didHashes: seq<Hash>, dataHashes: seq<Hash>, data: seq<Byte>,
                         leaves: array<Hash>)
      returns (ok: bool)
      requires |didHashes| == |dataHashes| == leaves.Length && |data| == |didHashes| * FALCON_512_SIG_SIZE_MAX
      modifies `didNonce, leaves
      ensures ok <==> !exists d :: d in didHashes && !DR.IsActive(didRegistry.dids, d)
      ensures !ok ==> didNonce == old(didNonce)
      ensures ok ==> didNonce == Bumped(old(didNonce), didHashes)
      ensures ok ==> leaves[..] == BatchLeaves(old(didNonce), batchIndex, didHashes, dataHashes, data)
    {
      hide BatchLeaf, Bumped, DR.IsActive;
      ghost var before := didNonce;
      var saved := didNonce;
      NothingBumped(before, didHashes);
      for i := 0 to |didHashes|
        invariant didNonce == Bumped(before, didHashes[..i])
        invariant forall j :: 0 <= j < i ==> DR.IsActive(didRegistry.dids, didHashes[j])
        invariant forall j :: 0 <= j < i ==> leaves[j] == BatchLeaf(before, batchIndex, didHashes, dataHashes, data, j)
      {
        var active := didRegistry.Active(didHashes[i]);
        if !active {
          didNonce := saved;
          assert didHashes[i] in didHashes;
          return false;
        }
        ProcessLeaf(batchIndex, i, didHashes, dataHashes, data, leaves, before);
      }
      assert didHashes[..|didHashes|] == didHashes;
      return true;
    }

    /** Leaves, root and the batch itself, once the lengths are right. */
    method AppendBatch(sender: Address, didHashes: seq<Hash>, dataHashes: seq<Hash>, data: seq<Byte>, now: nat)
      returns (ok: bool)
      requires 0 < |didHashes| == |dataHashes| && |data| == |didHashes| * FALCON_512_SIG_SIZE_MAX
      modifies `didNonce, `batches
      ensures ok <==> !exists d :: d in didHashes && !DR.IsActive(didRegistry.dids, d)
      ensures !ok ==> didNonce == old(didNonce) && batches == old(batches)
      ensures ok ==> didNonce == Bumped(old(didNonce), didHashes)
      ensures ok ==> var leaves := BatchLeaves(old(didNonce), old(|batches|), didHashes, dataHashes, data);
                     batches == old(batches) +
                                [Batch(Root(leaves), |didHashes|, Bytes(data), now, sender, 0, Provisional, leaves)]
    {
      hide BatchLeaves, Bumped, Root, DR.IsActive;
      var leaves := new Hash[|didHashes|](_ => Raw(0));
      ok := ProcessLeaves(|batches|, didHashes, dataHashes, data, leaves);
      if ok {
        var published := leaves[..];
        var top := BuildTree(leaves);
        batches := batches + [Batch(top, |didHashes|, Bytes(data), now, sender, 0, Provisional, published)];
      }
    }

    method SubmitBatch(sender: Address, didHashes: seq<Hash>, dataHashes: seq<Hash>, availabilityData: seq<Byte>,
                       now: nat)
      returns (r: Outcome<()>)
      requires now == View().clock
      modifies this
      ensures Answers(P.SubmitBatch(old(View()), sender, didHashes, dataHashes, availabilityData),
                      old(View()), View(), r)
    {
      hide BatchLeaves, Bumped, Root, DR.IsActive;
      ghost var s := View();
      if Get(relayStake, sender) < cfg.relayStakeAmount {
        return Revert(NotStakedRelay);
      }
      var k := |didHashes|;
      if k == 0 || |dataHashes| != k {
        return Revert(BatchLengthMismatch);
      }
      if |availabilityData| != k * FALCON_512_SIG_SIZE_MAX {
        return Revert(BadAvailabilityLength);
      }
      var active := AppendBatch(sender, didHashes, dataHashes, availabilityData, now);
      assert View() == s.(didNonce := didNonce, docs := DocsView());
      if !active {
        return Revert(InactiveDid);
      }
      return Ok(());
    }

    // ---------- Finalization ----------

    /** One decrement per listed verifier. */
    method LowerExposures(list: seq<Address>)
      requires forall v :: v in list ==> Less(verifierLiveExposures, list, v) >= 0
      modifies `verifierLiveExposures
      ensures verifierLiveExposures == Lowered(old(verifierLiveExposures), list)
    {
      ghost var before := verifierLiveExposures;
      for i := 0 to |list|
        invariant verifierLiveExposures.Keys == before.Keys
        invariant forall v :: v in before ==> verifierLiveExposures[v] + multiset(list[..i])[v] == before[v]
      {
        PrefixCount(list, i);
        assert list[i] in list && Less(before, list, list[i]) >= 0;
        verifierLiveExposures := verifierLiveExposures[list[i] := Get(verifierLiveExposures, list[i]) - 1];
      }
      assert list[..|list|] == list;
    }

    /** `_releaseExposures` */
    method ReleaseExposures(key: Target)
      requires CanRelease(RegView(), key)
      modifies `verifierLiveExposures, `targetValidList
      ensures RegView() == Release(old(RegView()), key)
    {
      var list := if key in targetValidList then targetValidList[key] else [];
      assert list == ListOf(RegView(), key);
      LowerExposures(list);
      targetValidList := targetValidList - {key};
    }

    method ConfirmRecord(index: nat)
      requires index < |records| && CanRelease(RegView(), RecordTarget(index))
      modifies `records, `verifierLiveExposures, `targetValidList
      ensures DocsView() == SetRecord(old(DocsView()), index, Confirmed)
      ensures RegView() == Release(old(RegView()), RecordTarget(index))
    {
      hide CanRelease, Release;
      records := records[index := records[index].(state := Confirmed)];
      ReleaseExposures(RecordTarget(index));
    }

    method FinalizeRecord(index: nat, now: nat) returns (r: Outcome<()>)
      requires Valid() && now == View().clock
      modifies this
      ensures Answers(P.FinalizeRecord(old(View()), index), old(View()), View(), r)
    {
      hide Inv, CanRelease, Release, SetRecord;
      if index >= |records| {
        return Revert(OutOfBounds);
      }
      if !records[index].state.Provisional? {
        return Revert(NothingToFinalize);
      }
      if now < records[index].submittedAt + cfg.challengePeriod {
        return Revert(ChallengeWindowOpen);
      }
      ghost var s := View();
      FinalizeRecordKeeps(s, index);
      ConfirmRecord(index);
      assert View() == s.(docs := DocsView(), reg := RegView());
      return Ok(());
    }

    /** The batch becomes final: the release loop over the remembered leaves. */
    method ConfirmBatch(batchIndex: nat)
      requires RegistryOk(RegView()) && batchIndex < |batches|
      modifies `batches, `verifierLiveExposures, `targetValidList, `exposedLeaves
      ensures DocsView() == SetBatch(old(DocsView()), batchIndex, Confirmed)
      ensures var all := ReleaseLeaves(old(RegView()), batchIndex, ExposedIn(old(RegView()), batchIndex));
              all.Some? && RegView() == ForgetLeaves(all.value, batchIndex)
    {
      hide RegistryOk, CanRelease, Release;
      batches := batches[batchIndex := batches[batchIndex].(state := Confirmed)];
      ghost var before, docs := RegView(), DocsView();
      var exposed := if batchIndex in exposedLeaves then exposedLeaves[batchIndex] else [];
      for i := 0 to |exposed|
        invariant RegistryOk(RegView()) && RegView().exposedLeaves == before.exposedLeaves && DocsView() == docs
        invariant ReleaseLeaves(before, batchIndex, exposed[..i]) == Some(RegView())
      {
        ghost var reg := RegView();
        ReleaseKeeps(reg, LeafTarget(batchIndex, exposed[i]));
        ReleaseExposures(LeafTarget(batchIndex, exposed[i]));
        assert exposed[..i + 1][..i] == exposed[..i];
      }
      assert exposed[..|exposed|] == exposed;
      exposedLeaves := exposedLeaves - {batchIndex};
    }

    method FinalizeBatch(batchIndex: nat, now: nat) returns (r: Outcome<()>)
      requires Valid() && now == View().clock
      modifies this
      ensures Answers(P.FinalizeBatch(old(View()), batchIndex), old(View()), View(), r)
    {
      hide Inv, RegistryOk, ReleaseLeaves, ForgetLeaves, ExposedIn, SetBatch;
      ghost var s := View();
      ValidRegistry(s);
      if batchIndex >= |batches| {
        return Revert(OutOfBounds);
      }
      if !batches[batchIndex].state.Provisional? {
        return Revert(NothingToFinalize);
      }
      if now < batches[batchIndex].submittedAt + cfg.challengePeriod {
        return Revert(ChallengeWindowOpen);
      }
      if Get(batchOpenLeafDisputes, batchIndex) != 0 {
        return Revert(OpenLeafDisputes);
      }
      ConfirmBatch(batchIndex);
      assert View() == s.(docs := DocsView(), reg := RegView());
      return Ok(());
    }

    // ---------- Opening disputes ----------

    /** The target goes under dispute and the open-dispute counters go up. */
    method MarkTarget(t: Target)
      requires Exists(DocsView(), t)
      modifies `records, `batchLeafState, `relayActiveDisputes, `batchOpenLeafDisputes
      ensures DocsView() == MarkDisputed(old(DocsView()), t)
      ensures relayActiveDisputes == Add(old(relayActiveDisputes), RelayOf(old(DocsView()), t), 1)
      ensures batchOpenLeafDisputes ==
              if t.LeafTarget? then Add(old(batchOpenLeafDisputes), t.batch, 1) else old(batchOpenLeafDisputes)
    {
      match t {
        case RecordTarget(i) =>
          records := records[i := records[i].(state := Disputed)];
          relayActiveDisputes := Add(relayActiveDisputes, records[i].relay, 1);
        case LeafTarget(b, l) =>
          batchLeafState := batchLeafState[(b, l) := LeafDisputed];
          batchOpenLeafDisputes := Add(batchOpenLeafDisputes, b, 1);
          relayActiveDisputes := Add(relayActiveDisputes, batches[b].relay, 1);
      }
    }

    /** `_openDispute`, with the bond received. */
    method PushDispute(t: Target, sender: Address, value: nat, now: nat)
      modifies `balance, `disputes
      ensures BankView() == Deposit(old(BankView()), value)
      ensures disputes == old(disputes) + [Dispute(t, sender, value, now, now + cfg.challengePeriod, [], [], Open)]
    {
      balance := balance + value;
      disputes := disputes + [Dispute(t, sender, value, now, now + cfg.challengePeriod, [], [], Open)];
    }

    method MarkAndPush(t: Target, sender: Address, value: nat, now: nat)
      requires Exists(DocsView(), t)
      modifies `balance, `records, `batchLeafState, `disputes, `relayActiveDisputes, `batchOpenLeafDisputes
      ensures BankView() == Deposit(old(BankView()), value)
      ensures DocsView() == MarkDisputed(old(DocsView()), t)
      ensures disputes == old(disputes) + [Dispute(t, sender, value, now, now + cfg.challengePeriod, [], [], Open)]
      ensures relayActiveDisputes == Add(old(relayActiveDisputes), RelayOf(old(DocsView()), t), 1)
      ensures batchOpenLeafDisputes ==
              if t.LeafTarget? then Add(old(batchOpenLeafDisputes), t.batch, 1) else old(batchOpenLeafDisputes)
    {
      hide MarkDisputed, Deposit;
      MarkTarget(t);
      PushDispute(t, sender, value, now);
    }

    method AdmitDispute(t: Target, sender: Address, value: nat, now: nat)
      requires now == View().clock && Exists(DocsView(), t)
      modifies `balance, `records, `batchLeafState, `disputes, `relayActiveDisputes, `batchOpenLeafDisputes
      ensures View() == Admit(old(View()), t, sender, value)
    {
      hide MarkDisputed, Deposit;
      ghost var s := View();
      MarkAndPush(t, sender, value, now);
      assert View() == s.(bank := BankView(), docs := DocsView(), disputes := disputes,
                          relayActive := relayActiveDisputes, batchOpen := batchOpenLeafDisputes);
    }

    method OpenDispute(sender: Address, value: nat, recordIndex: nat, now: nat) returns (r: Outcome<()>)
      requires now == View().clock
      modifies this
      ensures Answers(P.OpenDispute(old(View()), sender, value, recordIndex), old(View()), View(), r)
    {
      hide Admit;
      if value < cfg.challengerBondAmount {
        return Revert(InsufficientBond);
      }
      if recordIndex >= |records| {
        return Revert(OutOfBounds);
      }
      if !records[recordIndex].state.Provisional? {
        return Revert(NothingToFinalize);
      }
      AdmitDispute(RecordTarget(recordIndex), sender, value, now);
      return Ok(());
    }

    /** What stands against a dispute on a leaf of an existing batch. */
    method CheckLeaf(batchIndex: nat, leafIndex: nat, claim: LeafClaim, merkleProof: seq<Hash>)
      returns (error: Option<Error>)
      requires batchIndex < |batches|
      ensures error == LeafObjection(DocsView(), batchIndex, leafIndex, claim, merkleProof)
    {
      hide Fold;
      if !batches[batchIndex].state.Provisional? {
        return Some(NothingToFinalize);
      }
      if leafIndex >= batches[batchIndex].leafCount {
        return Some(BadMerkleProof);
      }
      var leafKey := (batchIndex, leafIndex);
      var state := if leafKey in batchLeafState then batchLeafState[leafKey] else Undisputed;
      if state == LeafDisputed || state == LeafRevoked {
        return Some(LeafNotDisputable);
      }
      var leaf := LeafOf(batchIndex, claim.did, claim.nonce, claim.dataHash, claim.sigHash);
      var accepted := VerifyProof(leaf, merkleProof, leafIndex, batches[batchIndex].merkleRoot);
      return if accepted then None else Some(BadMerkleProof);
    }

    method OpenBatchLeafDispute(sender: Address, value: nat, batchIndex: nat, leafIndex: nat, claim: LeafClaim,
                                merkleProof: seq<Hash>, now: nat) returns (r: Outcome<()>)
      requires now == View().clock
      modifies this
      ensures Answers(P.OpenBatchLeafDispute(old(View()), sender, value, batchIndex, leafIndex, claim, merkleProof),
                      old(View()), View(), r)
    {
      hide Admit, LeafObjection;
      if value < cfg.challengerBondAmount {
        return Revert(InsufficientBond);
      }
      if batchIndex >= |batches| {
        return Revert(OutOfBounds);
      }
      ObjectionIs(View(), sender, value, batchIndex, leafIndex, claim, merkleProof);
      hide P.OpenBatchLeafDispute;
      var error := CheckLeaf(batchIndex, leafIndex, claim, merkleProof);
      if error.Some? {
        return Revert(error.value);
      }
      AdmitDispute(LeafTarget(batchIndex, leafIndex), sender, value, now);
      return Ok(());
    }

    // ---------- Resolution helpers ----------

    /** `_revokeTarget` */
    method RevokeTarget(t: Target)
      requires Exists(View().docs, t)
      modifies `records, `batches, `batchLeafState
      ensures View() == old(View()).(docs := Revoke(old(View()).docs, t))
    {
      match t {
        case RecordTarget(i) => records := records[i := records[i].(state := Revoked)];
        case LeafTarget(b, l) =>
          if (b, l) !in batchLeafState || batchLeafState[(b, l)] != LeafRevoked {
            batchLeafState := batchLeafState[(b, l) := LeafRevoked];
            batches := batches[b := batches[b].(revokedLeafCount := batches[b].revokedLeafCount + 1)];
          }
      }
    }

    /** The target is undecided again. */
    method ReinstateTarget(t: Target)
      requires Exists(View().docs, t)
      modifies `records, `batchLeafState
      ensures View() == old(View()).(docs := Reinstate(old(View()).docs, t))
    {
      match t {
        case RecordTarget(i) => records := records[i := records[i].(state := Provisional)];
        case LeafTarget(b, l) => batchLeafState := batchLeafState[(b, l) := Upheld];
      }
    }

    method RecordVerdict(id: nat, verdict: Verdict)
      requires id < |View().disputes|
      modifies `disputes
      ensures var s := old(View());
              View() == s.(disputes := s.disputes[id := s.disputes[id].(verdict := verdict)])
    {
      disputes := disputes[id := disputes[id].(verdict := verdict)];
    }

    /** `_closeDispute` takes the open-dispute counters down. */
    method CloseDispute(t: Target, relay: Address)
      requires Exists(View().docs, t) && relay == RelayOf(View().docs, t) && CanClose(View(), t)
      modifies `relayActiveDisputes, `batchOpenLeafDisputes
      ensures View() == Closed(old(View()), t)
    {
      relayActiveDisputes := relayActiveDisputes[relay := Get(relayActiveDisputes, relay) - 1];
      if t.LeafTarget? {
        batchOpenLeafDisputes := batchOpenLeafDisputes[t.batch := Get(batchOpenLeafDisputes, t.batch) - 1];
      }
    }

    /** `_registerValidAtt` */
    method RegisterValidAtt(key: Target, v: Address)
      modifies `targetValidHas, `targetValidList, `verifierLiveExposures
      ensures RegView() == Register(old(RegView()), key, v)
    {
      if (key, v) !in targetValidHas {
        targetValidHas := targetValidHas + {(key, v)};
        targetValidList := targetValidList[key := (if key in targetValidList then targetValidList[key] else []) + [v]];
        verifierLiveExposures := Add(verifierLiveExposures, v, 1);
      }
    }

    /** `_rememberExposedLeaf`: a linear search, then a push. */
    method RememberExposedLeaf(b: nat, l: nat)
      modifies `exposedLeaves
      ensures RegView() == Remember(old(RegView()), LeafTarget(b, l))
    {
      var leaves := if b in exposedLeaves then exposedLeaves[b] else [];
      for i := 0 to |leaves|
        invariant l !in leaves[..i]
        invariant exposedLeaves == old(exposedLeaves)
      {
        if leaves[i] == l {
          return;
        }
      }
      assert leaves[..|leaves|] == leaves;
      exposedLeaves := exposedLeaves[b := leaves + [l]];
    }

    /** The registration loop of both verdicts, and the note of the leaf. */
    method FileAttesters(d: Dispute)
      modifies `targetValidHas, `targetValidList, `verifierLiveExposures, `exposedLeaves
      ensures RegView() == Filed(old(RegView()), d)
    {
      ghost var before := RegView();
      var vs := d.validAttesters;
      for i := 0 to |vs|
        invariant RegView() == RegisterAll(before, d.target, vs[..i])
      {
        RegisterValidAtt(d.target, vs[i]);
        assert vs[..i + 1][..i] == vs[..i];
      }
      assert vs[..|vs|] == vs;
      if d.target.LeafTarget? {
        RememberExposedLeaf(d.target.batch, d.target.leaf);
      }
    }

    /** `_collectFromPool` */
    method CollectFromPool(from: Address, amount: nat, fromVerifierPool: bool) returns (deducted: nat)
      modifies `relayStake, `verifierStake
      ensures (BankView(), deducted) == Collect(old(BankView()), from, amount, fromVerifierPool)
    {
      var rest := amount;
      if fromVerifierPool {
        var vStake := Get(verifierStake, from);
        var take := if vStake < rest then vStake else rest;
        verifierStake := verifierStake[from := vStake - take];
        rest := rest - take;
        deducted := take;
        if rest > 0 {
          var rStake := Get(relayStake, from);
          take := if rStake < rest then rStake else rest;
          relayStake := relayStake[from := rStake - take];
          deducted := deducted + take;
        }
      } else {
        var rStake := Get(relayStake, from);
        var take := if rStake < rest then rStake else rest;
        relayStake := relayStake[from := rStake - take];
        rest := rest - take;
        deducted := take;
        if rest > 0 {
          var vStake := Get(verifierStake, from);
          take := if vStake < rest then vStake else rest;
          verifierStake := verifierStake[from := vStake - take];
          deducted := deducted + take;
        }
      }
    }

    /** `_slashFromPool` */
    method SlashFromPool(from: Address, amount: nat, to: Address, fromVerifierPool: bool)
      modifies `relayStake, `verifierStake, `pendingWithdrawals, `credited
      ensures BankView() == Slash(old(BankView()), from, amount, to, fromVerifierPool)
    {
      hide Collect;
      var deducted := CollectFromPool(from, amount, fromVerifierPool);
      if deducted > 0 {
        CreditTo(to, deducted);
      }
    }

    /** The slashing loop over the wrong side. */
    method SlashWrongSide(wrongSide: seq<Address>, challenger: Address)
      modifies `relayStake, `verifierStake, `pendingWithdrawals, `credited
      ensures BankView() == SlashAll(old(BankView()), wrongSide, cfg.verifierSlashAmount, challenger)
    {
      hide Slash;
      ghost var before := BankView();
      for i := 0 to |wrongSide|
        invariant BankView() == SlashAll(before, wrongSide[..i], cfg.verifierSlashAmount, challenger)
      {
        SlashFromPool(wrongSide[i], cfg.verifierSlashAmount, challenger, true);
        assert wrongSide[..i + 1][..i] == wrongSide[..i];
      }
      assert wrongSide[..|wrongSide|] == wrongSide;
    }

    /** `_payAttesters`: one equal share each. */
    method PayShares(attesters: seq<Address>, total: nat)
      modifies `pendingWithdrawals, `credited
      ensures BankView() == PayAttesters(old(BankView()), attesters, total)
    {
      hide Credit;
      if |attesters| == 0 || total == 0 {
        return;
      }
      ghost var before := BankView();
      var share := total / |attesters|;
      for i := 0 to |attesters|
        invariant BankView() == CreditAll(before, attesters[..i], share)
      {
        CreditTo(attesters[i], share);
        assert attesters[..i + 1][..i] == attesters[..i];
      }
      assert attesters[..|attesters|] == attesters;
    }

    // ---------- Resolution ----------

    /** The target falls and the dispute closes. */
    method RevokeAndClose(id: nat, t: Target, verdict: Verdict, relay: Address)
      requires id < |View().disputes| && t == View().disputes[id].target
      requires Exists(View().docs, t) && CanClose(View(), t) && relay == RelayOf(View().docs, t)
      modifies `records, `batches, `batchLeafState, `disputes, `relayActiveDisputes, `batchOpenLeafDisputes
      ensures View() == Close(old(View()), id, verdict).(docs := Revoke(old(View()).docs, t))
    {
      hide View;
      RecordVerdict(id, verdict);
      RevokeTarget(t);
      CloseDispute(t, relay);
    }

    /** The target is undecided again and the dispute closes. */
    method ReinstateAndClose(id: nat, t: Target, relay: Address)
      requires id < |View().disputes| && t == View().disputes[id].target
      requires Exists(View().docs, t) && CanClose(View(), t) && relay == RelayOf(View().docs, t)
      modifies `records, `batchLeafState, `disputes, `relayActiveDisputes, `batchOpenLeafDisputes
      ensures View() == Close(old(View()), id, Spurious).(docs := Reinstate(old(View()).docs, t))
    {
      hide View;
      RecordVerdict(id, Spurious);
      ReinstateTarget(t);
      CloseDispute(t, relay);
    }

    method FileDispute(d: Dispute)
      modifies `targetValidHas, `targetValidList, `verifierLiveExposures, `exposedLeaves
      ensures View() == old(View()).(reg := Filed(old(View()).reg, d))
    {
      hide Filed;
      FileAttesters(d);
    }

    method ReleaseTarget(t: Target)
      requires CanRelease(View().reg, t)
      modifies `verifierLiveExposures, `targetValidList
      ensures View() == old(View()).(reg := Release(old(View()).reg, t))
    {
      hide CanRelease, Release;
      ReleaseExposures(t);
    }

    /** Everyone who ever stood up for the target loses stake to the challenger. */
    method SlashListed(t: Target, challenger: Address)
      modifies `relayStake, `verifierStake, `pendingWithdrawals, `credited
      ensures var s := old(View());
              View() == s.(bank := SlashAll(s.bank, ListOf(s.reg, t), s.cfg.verifierSlashAmount, challenger))
    {
      hide SlashAll;
      SlashWrongSide(if t in targetValidList then targetValidList[t] else [], challenger);
    }

    method PayFraud(d: Dispute, relay: Address)
      modifies `relayStake, `verifierStake, `pendingWithdrawals, `credited, `retained
      ensures BankView() == Rewarded(cfg, d, relay, old(BankView()))
    {
      hide Collect, Credit, PayAttesters, FraudRetained;
      var collected := CollectFromPool(relay, cfg.relaySlashAmount, false);
      CreditTo(d.challenger, collected * 3 / 5);
      PayShares(d.fraudAttesters, collected * 2 / 5);
      CreditTo(d.challenger, d.bond);
      retained := retained + FraudRetained(collected, |d.fraudAttesters|);
    }

    /** The relay's slash and its split, and the bond. */
    method RewardFraud(d: Dispute, relay: Address)
      modifies `relayStake, `verifierStake, `pendingWithdrawals, `credited, `retained
      ensures View() == old(View()).(bank := Rewarded(old(View()).cfg, d, relay, old(View()).bank))
    {
      hide Rewarded;
      PayFraud(d, relay);
    }

    method TargetOf(id: nat) returns (d: Dispute, relay: Address)
      requires id < |View().disputes| && Exists(View().docs, View().disputes[id].target)
      ensures d == View().disputes[id] && relay == RelayOf(View().docs, d.target)
    {
      d := disputes[id];
      relay := if d.target.RecordTarget? then records[d.target.index].relay else batches[d.target.batch].relay;
    }

    /** `_resolveFraud` */
    method ResolveFraud(id: nat)
      requires Core(View()) && id < |View().disputes| && View().disputes[id].verdict.Open?
      modifies this
      ensures P.ResolveFraud(old(View()), id) == Ok(View())
    {
      hide Core, CanRelease, Release, Revoke, Filed, SlashAll, Rewarded, View, Exists, RelayOf;
      ghost var s := View();
      FraudSafe(s, id);
      var d, relay := TargetOf(id);
      RevokeAndClose(id, d.target, Fraud, relay);
      FileDispute(d);
      SlashListed(d.target, d.challenger);
      ReleaseTarget(d.target);
      RewardFraud(d, relay);
    }

    method PaySpurious(d: Dispute, relay: Address)
      modifies `pendingWithdrawals, `credited, `retained
      ensures BankView() == SpuriousPayout(d, relay, old(BankView()))
    {
      hide Credit, PayAttesters, Unpaid;
      PayShares(d.validAttesters, d.bond / 2);
      CreditTo(relay, d.bond - d.bond / 2);
      retained := retained + Unpaid(|d.validAttesters|, d.bond / 2);
    }

    /** The money of a spurious verdict. */
    method RewardSpurious(d: Dispute, relay: Address)
      modifies `pendingWithdrawals, `credited, `retained
      ensures View() == old(View()).(bank := SpuriousPayout(d, relay, old(View()).bank))
    {
      hide SpuriousPayout;
      PaySpurious(d, relay);
    }

    /** `_resolveSpurious` */
    method ResolveSpurious(id: nat)
      requires Core(View()) && id < |View().disputes| && View().disputes[id].verdict.Open?
      modifies this
      ensures P.ResolveSpurious(old(View()), id) == Ok(View())
    {
      hide Core, Reinstate, Filed, SpuriousPayout, View, Exists, RelayOf;
      ghost var s := View();
      OpenTarget(s, id);
      var d, relay := TargetOf(id);
      ReinstateAndClose(id, d.target, relay);
      FileDispute(d);
      RewardSpurious(d, relay);
    }

    /** Half the bond back; the rest stays with the contract. */
    method PayExpiry(d: Dispute)
      modifies `pendingWithdrawals, `credited, `retained
      ensures BankView() == ExpiryPayout(d, old(BankView()))
    {
      hide Credit;
      CreditTo(d.challenger, d.bond / 2);
      retained := retained + (d.bond - d.bond / 2);
    }

    method RefundHalf(d: Dispute)
      modifies `pendingWithdrawals, `credited, `retained
      ensures View() == old(View()).(bank := ExpiryPayout(d, old(View()).bank))
    {
      hide ExpiryPayout;
      PayExpiry(d);
    }

    method SettleExpired(id: nat)
      requires Core(View()) && id < |View().disputes| && View().disputes[id].verdict.Open?
      modifies this
      ensures var s := old(View()); var d := s.disputes[id];
              && Exists(s.docs, d.target) && CanClose(s, d.target) && CanRelease(s.reg, d.target)
              && View() == Close(s, id, Expired).(docs := Revoke(s.docs, d.target), reg := Release(s.reg, d.target),
                                                  bank := ExpiryPayout(d, s.bank))
    {
      hide Core, CanRelease, Release, Revoke, ExpiryPayout, View, Exists, RelayOf;
      ghost var s := View();
      ExpiryKeeps(s, id);
      var d, relay := TargetOf(id);
      RevokeAndClose(id, d.target, Expired, relay);
      ReleaseTarget(d.target);
      RefundHalf(d);
    }

    method ExpireDispute(id: nat, now: nat) returns (r: Outcome<()>)
      requires Valid() && now == View().clock
      modifies this
      ensures Answers(P.ExpireDispute(old(View()), id), old(View()), View(), r)
    {
      hide Core, QuorumsOk, CanRelease, Release, Revoke, ExpiryPayout;
      if guarded {
        return Revert(Reentrant);
      }
      if id >= |disputes| {
        return Revert(OutOfBounds);
      }
      var d := disputes[id];
      if d.deadline == 0 {
        return Revert(UnknownDispute);
      }
      if !d.verdict.Open? {
        return Revert(AlreadyResolved);
      }
      if now <= d.deadline {
        return Revert(ChallengeWindowOpen);
      }
      SettleExpired(id);
      return Ok(());
    }

    /** The vote is recorded. */
    method RecordVote(id: nat, verdictIsFraud: bool, signer: Address)
      requires id < |disputes|
      modifies `disputes, `hasAttested
      ensures View() == Vote(old(View()), id, verdictIsFraud, signer)
    {
      hasAttested := hasAttested + {(id, signer)};
      var d := disputes[id];
      if verdictIsFraud {
        disputes := disputes[id := d.(fraudAttesters := d.fraudAttesters + [signer])];
      } else {
        disputes := disputes[id := d.(validAttesters := d.validAttesters + [signer])];
      }
    }

    /** What follows a recorded vote. */
    method Decide(id: nat)
      requires Core(View()) && id < |disputes| && disputes[id].verdict.Open?
      modifies this
      ensures Ok(View()) ==
                var s := old(View());
                if |s.disputes[id].fraudAttesters| >= cfg.quorum then P.ResolveFraud(s, id)
                else if |s.disputes[id].validAttesters| >= cfg.quorum then P.ResolveSpurious(s, id)
                else Ok(s)
    {
      hide Core, P.ResolveFraud, P.ResolveSpurious;
      if |disputes[id].fraudAttesters| >= cfg.quorum {
        ResolveFraud(id);
      } else if |disputes[id].validAttesters| >= cfg.quorum {
        ResolveSpurious(id);
      }
    }

    method SubmitAttestation(id: nat, verdictIsFraud: bool, recovered: Option<Address>, now: nat)
      returns (r: Outcome<()>)
      requires Valid() && now == View().clock
      modifies this
      ensures Answers(P.SubmitAttestation(old(View()), id, verdictIsFraud, recovered), old(View()), View(), r)
    {
      hide Core, QuorumsOk, P.ResolveFraud, P.ResolveSpurious;
      ghost var s := View();
      if guarded {
        return Revert(Reentrant);
      }
      if id >= |disputes| {
        return Revert(OutOfBounds);
      }
      var d := disputes[id];
      if d.deadline == 0 {
        return Revert(UnknownDispute);
      }
      if !d.verdict.Open? || now > d.deadline {
        return Revert(NoDisputeOpen);
      }
      if recovered.None? {
        return Revert(BadAttestation);
      }
      var signer := recovered.value;
      if signer !in isRegisteredVerifier || Get(verifierStake, signer) < cfg.verifierStakeAmount {
        return Revert(NotRegisteredVerifier);
      }
      OpenTarget(s, id);
      var relay := if d.target.RecordTarget? then records[d.target.index].relay else batches[d.target.batch].relay;
      if signer == relay {
        return Revert(ConflictOfInterest);
      }
      if (id, signer) in hasAttested {
        return Revert(DuplicateAttestation);
      }
      VoteKeeps(s, id, verdictIsFraud, signer);
      RecordVote(id, verdictIsFraud, signer);
      Decide(id);
      return Ok(());
    }

    // ---------- Withdrawal ----------

    method PayClaim(sender: Address)
      requires Get(pendingWithdrawals, sender) <= balance
      modifies `pendingWithdrawals, `withdrawn, `balance
      ensures BankView() == PaidOut(old(BankView()), sender)
    {
      var amount := Get(pendingWithdrawals, sender);
      pendingWithdrawals := pendingWithdrawals[sender := 0];
      withdrawn := Add(withdrawn, sender, amount);
      balance := balance - amount;
    }

    /** The claim is cleared and paid under the guard: the point of the external call. */
    method PayOut(sender: Address)
      requires Get(View().bank.pending, sender) <= View().bank.balance
      modifies `pendingWithdrawals, `withdrawn, `balance, `guarded
      ensures View() == old(View()).(locked := true, bank := PaidOut(old(View()).bank, sender))
    {
      hide PaidOut;
      guarded := true;
      PayClaim(sender);
    }

    method ReleaseGuard()
      modifies `guarded
      ensures View() == old(View()).(locked := false)
    {
      guarded := false;
    }

    method Claim(sender: Address) returns (locked: bool, amount: nat)
      ensures locked == View().locked && amount == Get(View().bank.pending, sender)
    {
      return guarded, Get(pendingWithdrawals, sender);
    }

    /** `withdraw`. During the transfer the payee may issue the calls `inner`, then
        accept or refuse; a refused transfer is rolled back with everything inside it. */
    method Withdraw(sender: Address, inner: seq<Call>, ok: bool, now: nat) returns (r: Outcome<()>)
      requires Valid() && now == View().clock
      modifies this, didRegistry
      ensures Valid() && View().clock == now
      ensures Answers(P.Withdraw(old(View()), sender, inner, ok), old(View()), View(), r)
      decreases inner, 2
    {
      hide View, Inv, PaidOut;
      ghost var s := View();
      var locked, amount := Claim(sender);
      if locked {
        return Revert(Reentrant);
      }
      if amount == 0 {
        return Revert(NothingToWithdraw);
      }
      PaysOutSafely(s, sender);
      if !ok {
        return Revert(TransferFailed);
      }
      PayOut(sender);
      ExecuteAll(inner, now);
      GuardFree(View(), false);
      ReleaseGuard();
      return Ok(());
    }

    // ---------- Dispatch ----------

    /** A call on the DID registry, as this contract's state sees it. */
    method RegisterDid(sender: Address, didHash: Hash, publicKey: seq<Byte>, now: nat) returns (r: Outcome<()>)
      requires now == View().clock
      modifies didRegistry
      ensures Answers(P.Step(old(View()), RegisterDidCall(sender, didHash, publicKey)), old(View()), View(), r)
    {
      hide DR.Register;
      r := didRegistry.RegisterDID(sender, didHash, publicKey, now);
    }

    method DeactivateDid(sender: Address, didHash: Hash) returns (r: Outcome<()>)
      modifies didRegistry
      ensures Answers(P.Step(old(View()), DeactivateDidCall(sender, didHash)), old(View()), View(), r)
    {
      hide DR.Deactivate;
      r := didRegistry.DeactivateDID(sender, didHash);
    }

    /** Any call but a withdrawal. */
    method ExecutePlain(c: Call, now: nat) returns (r: Outcome<()>)
      requires Valid() && now == View().clock && !c.WithdrawCall?
      modifies this, didRegistry
      ensures Answers(P.Step(old(View()), c), old(View()), View(), r)
    {
      hide View, Inv, Answers, P.StakeRelay, P.AnnounceUnstake, P.UnstakeRelay, P.StakeVerifier,
           P.AnnounceVerifierUnstake, P.UnstakeVerifier, P.DeregisterVerifier, P.SubmitAccountable, P.FinalizeRecord,
           P.SubmitBatch, P.FinalizeBatch, P.OpenDispute, P.OpenBatchLeafDispute, P.SubmitAttestation,
           P.ExpireDispute;
      match c {
        case StakeRelayCall(a, v) => r := StakeRelay(a, v);
        case AnnounceUnstakeCall(a) => r := AnnounceUnstake(a, now);
        case UnstakeRelayCall(a) => r := UnstakeRelay(a, now);
        case StakeVerifierCall(a, v) => r := StakeVerifier(a, v);
        case AnnounceVerifierUnstakeCall(a) => r := AnnounceVerifierUnstake(a, now);
        case UnstakeVerifierCall(a) => r := UnstakeVerifier(a, now);
        case DeregisterVerifierCall(a) => r := DeregisterVerifier(a);
        case SubmitAccountableCall(a, h, d, sig) => r := SubmitAccountable(a, h, d, sig, now);
        case FinalizeRecordCall(i) => r := FinalizeRecord(i, now);
        case SubmitBatchCall(a, ds, hs, av) => r := SubmitBatch(a, ds, hs, av, now);
        case FinalizeBatchCall(b) => r := FinalizeBatch(b, now);
        case OpenDisputeCall(a, v, i) => r := OpenDispute(a, v, i, now);
        case OpenBatchLeafDisputeCall(a, v, b, l, claim, proof) =>
          r := OpenBatchLeafDispute(a, v, b, l, claim, proof, now);
        case SubmitAttestationCall(id, fraud, signer) => r := SubmitAttestation(id, fraud, signer, now);
        case ExpireDisputeCall(id) => r := ExpireDispute(id, now);
        case RegisterDidCall(a, d, k) => r := RegisterDid(a, d, k, now);
        case DeactivateDidCall(a, d) => r := DeactivateDid(a, d);
      }
    }

    /** One external call, whoever makes it and however it ends. */
    method Execute(c: Call, now: nat) returns (r: Outcome<()>)
      requires Valid() && now == View().clock
      modifies this, didRegistry
      ensures Valid() && View().clock == now
      ensures Answers(P.Step(old(View()), c), old(View()), View(), r)
      decreases c, 1
    {
      hide View, Inv, P.Withdraw;
      ghost var s := View();
      if c.WithdrawCall? {
        r := Withdraw(c.sender, c.inner, c.ok, now);
        assert P.Step(s, c) == P.Withdraw(s, c.sender, c.inner, c.ok);
      } else {
        StepKeeps(s, c);
        r := ExecutePlain(c, now);
      }
    }

    /** The calls a payee makes during a transfer; the answers of the reverted ones are lost. */
    method ExecuteAll(cs: seq<Call>, now: nat)
      requires Valid() && now == View().clock
      modifies this, didRegistry
      ensures Valid() && View().clock == now
      ensures View() == AfterAll(old(View()), cs)
      decreases cs, 0
    {
      hide View, Inv, P.Step;
      if cs != [] {
        var _ := Execute(cs[0], now);
        ExecuteAll(cs[1..], now);
      }
    }

    ghost method AdvanceTo(now: nat)
      modifies `clock
      ensures View() == old(View()).(clock := now)
    {
      clock := now;
    }

    /** A call mined in a block with time `now`. */
    method Mine(c: Call, now: nat) returns (r: Outcome<()>)
      requires Valid() && View().clock <= now
      modifies this, didRegistry
      ensures Valid() && View() == Exec(old(View()), Tx(now, c))
    {
      hide View, Inv, P.Step;
      TimePasses(View(), now);
      AdvanceTo(now);
      r := Execute(c, now);
    }
  }

  lemma ObjectionIs(s: State, a: Address, value: nat, b: nat, l: nat, claim: LeafClaim, proof: seq<Hash>)
    requires b < |s.docs.batches| && value >= s.cfg.challengerBondAmount
    ensures LeafObjection(s.docs, b, l, claim, proof).None? ==> Exists(s.docs, LeafTarget(b, l))
    ensures P.OpenBatchLeafDispute(s, a, value, b, l, claim, proof) ==
            match LeafObjection(s.docs, b, l, claim, proof)
            case Some(e) => Revert(e)
            case None => Ok(Admit(s, LeafTarget(b, l), a, value))
  {
    hide Admit, Fold;
  }

  /** At a fraud verdict every counter covers what is about to be taken from it. */
  lemma FraudSafe(s: State, id: nat)
    requires Core(s) && id < |s.disputes| && s.disputes[id].verdict.Open?
    ensures var d := s.disputes[id];
            Exists(s.docs, d.target) && CanClose(s, d.target) && CanRelease(Filed(s.reg, d), d.target)
  {
    hide Core, Filed;
    OpenTarget(s, id);
    FiledList(s, id);
    Releasable(Filed(s.reg, s.disputes[id]), s.disputes[id].target);
  }

  lemma NothingBumped(nonces: map<Hash, nat>, dids: seq<Hash>)
    ensures Bumped(nonces, dids[..0]) == nonces
  {
  }

  lemma ValidRegistry(s: State)
    requires Inv(s)
    ensures RegistryOk(s.reg)
  {
  }

  lemma PrefixCount(list: seq<Address>, i: nat)
    requires i < |list|
    ensures multiset(list[..i + 1]) == multiset(list[..i]) + multiset{list[i]}
    ensures multiset(list[..i + 1])[list[i]] <= multiset(list)[list[i]]
  {
    assert list[..i + 1] == list[..i] + [list[i]];
    assert list == list[..i + 1] + list[i + 1..];
  }

  lemma ValidRoster(s: State)
    requires Inv(s)
    ensures RosterOk(s.roster)
  {
  }
}
