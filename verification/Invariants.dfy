/** The invariant of the protocol, one predicate per concern. Each takes just the
    components it talks about, so a step that leaves them alone keeps it for free. */
module Invariants {
  import opened Common
  import opened Merkle
  import opened Docket
  import opened DocketFacts
  import opened Treasury
  import opened Committee
  import opened Exposure
  import opened ExposureFacts
  import opened Protocol
  import DR = DidRegistry

  // ---------- Money ----------

  /** Exact solvency: the balance is every stake, every claim, every open bond
      and the retained wei, no more and no less. */
  ghost predicate Solvent(b: Bank, ds: seq<Dispute>) {
    b.balance == Owed(b) + OpenBonds(ds) + b.retained
  }

  ghost predicate MoneyOk(b: Bank, ds: seq<Dispute>) {
    Solvent(b, ds) && PaidOnce(b)
  }

  // ---------- Nonces ----------

  /** A place a nonce was spent: a record or a batch leaf. */
  datatype Slot = RecordSlot(index: nat) | LeafSlot(batch: nat, leaf: nat)

  ghost predicate Holds(docs: Docs, slot: Slot, did: Hash, n: nat) {
    match slot
    case RecordSlot(i) => i < |docs.records| && docs.records[i].didHash == did && docs.records[i].nonce == n
    case LeafSlot(b, l) =>
      b < |docs.batches| && l < |docs.batches[b].leaves| &&
      var leaf := docs.batches[b].leaves[l];
      leaf.LeafOf? && leaf.did == did && leaf.nonce == n
  }

  ghost predicate Spent(docs: Docs, did: Hash, n: nat) {
    exists slot :: Holds(docs, slot, did, n)
  }

  /** The nonces of each DID are exactly 1..`didNonce`, each spent in one slot. */
  ghost predicate NoncesOk(didNonce: map<Hash, nat>, docs: Docs) {
    && (forall slot, did, n: nat :: Holds(docs, slot, did, n) ==> 1 <= n <= Get(didNonce, did))
    && (forall x, y, did, n: nat :: Holds(docs, x, did, n) && Holds(docs, y, did, n) ==> x == y)
    && (forall did, n: nat :: 1 <= n <= Get(didNonce, did) ==> Spent(docs, did, n))
  }

  // ---------- Key snapshots ----------

  /** Each record's DID is registered and its snapshot is the hash of the key on file. */
  ghost predicate KeysOk(dids: DR.Directory, docs: Docs) {
    && DR.Dated(dids)
    && (forall i :: 0 <= i < |docs.records| ==> KeyOk(dids, docs.records[i]))
  }

  predicate KeyOk(dids: DR.Directory, r: Record) {
    DR.IsRegistered(dids, r.didHash) && r.pubKeyHash == Bytes(dids[r.didHash].publicKey)
  }

  // ---------- The whole invariant ----------

  /** What the documents and the disputes owe each other. */
  ghost predicate CaseOk(docs: Docs, ds: seq<Dispute>, clock: nat, period: nat) {
    && TargetsOk(docs, ds, clock, period)
    && EarlierSpurious(ds)
    && StatesOk(docs, ds)
  }

  ghost predicate CountsOk(docs: Docs, ds: seq<Dispute>, relayActive: map<Address, nat>, batchOpen: map<nat, nat>) {
    RelayCountsOk(docs, ds, relayActive) && BatchCountsOk(ds, batchOpen) && RevokedCountsOk(docs)
  }

  ghost predicate FilesOk(reg: Registry, docs: Docs, ds: seq<Dispute>) {
    RegistryOk(reg) && LeavesOk(reg) && LiveOk(reg, docs, ds)
  }

  /** Everything but the vote counts, which a vote may disturb until its verdict. */
  ghost predicate Core(s: State) {
    && s.clock > 0
    && MoneyOk(s.bank, s.disputes)
    && RosterOk(s.roster)
    && NoncesOk(s.didNonce, s.docs)
    && KeysOk(s.dids, s.docs)
    && CaseOk(s.docs, s.disputes, s.clock, s.cfg.challengePeriod)
    && CountsOk(s.docs, s.disputes, s.relayActive, s.batchOpen)
    && BallotsOk(s.docs, s.disputes, s.attested)
    && WindowsOk(s.docs, s.clock, s.cfg.challengePeriod)
    && TreesOk(s.docs)
    && FilesOk(s.reg, s.docs, s.disputes)
  }

  ghost predicate Inv(s: State) {
    Core(s) && QuorumsOk(s.cfg.quorum, s.disputes)
  }

  // ---------- Documents change state only ----------

  lemma HoldsKept(docs: Docs, docs': Docs, slot: Slot, did: Hash, n: nat)
    requires Extends(docs, docs') && Holds(docs, slot, did, n)
    ensures Holds(docs', slot, did, n)
  {
  }

  lemma NoncesKept(didNonce: map<Hash, nat>, docs: Docs, docs': Docs)
    requires Extends(docs, docs') && Extends(docs', docs) && NoncesOk(didNonce, docs)
    ensures NoncesOk(didNonce, docs')
  {
    forall slot, did, n: nat ensures Holds(docs', slot, did, n) == Holds(docs, slot, did, n) {
      if Holds(docs, slot, did, n) {
        HoldsKept(docs, docs', slot, did, n);
      }
      if Holds(docs', slot, did, n) {
        HoldsKept(docs', docs, slot, did, n);
      }
    }
    hide Holds, Extends;
    forall did, n: nat | Spent(docs, did, n) ensures Spent(docs', did, n) {
      var slot :| Holds(docs, slot, did, n);
      assert Holds(docs', slot, did, n);
    }
  }

  /** What survives any change of document states. */
  lemma StateChangeKeeps(s: State, docs': Docs)
    requires Core(s) && Extends(s.docs, docs') && Extends(docs', s.docs)
    ensures NoncesOk(s.didNonce, docs') && KeysOk(s.dids, docs') && TreesOk(docs')
    ensures TargetsOk(docs', s.disputes, s.clock, s.cfg.challengePeriod)
    ensures BallotsOk(docs', s.disputes, s.attested)
  {
    NoncesKept(s.didNonce, s.docs, docs');
    BallotsKept(s.docs, docs', s.disputes, s.attested);
    forall i | 0 <= i < |docs'.records| ensures KeyOk(s.dids, docs'.records[i]) {
      assert KeyOk(s.dids, s.docs.records[i]);
    }
    forall b | 0 <= b < |docs'.batches| ensures TreeOk(docs'.batches[b], b) {
      assert TreeOk(s.docs.batches[b], b);
    }
    forall i | 0 <= i < |s.disputes| ensures Exists(docs', s.disputes[i].target) {
      ExtendsKeeps(s.docs, docs', s.disputes[i].target);
    }
  }

  // ---------- Time ----------

  lemma TimePasses(s: State, now: nat)
    requires Inv(s) && s.clock <= now
    ensures Inv(s.(clock := now))
  {
  }

  lemma FreshCounts()
    ensures CountsOk(Docs([], [], map[]), [], map[], map[])
  {
    var docs := Docs([], [], map[]);
    forall r ensures OpenNaming(docs, [], r) == {} {
    }
    forall b ensures OpenInBatch([], b) == {} {
    }
  }

  lemma FreshFiles()
    ensures FilesOk(Registry(map[], {}, map[], map[]), Docs([], [], map[]), [])
  {
    var reg := Registry(map[], {}, map[], map[]);
    forall v ensures Exposing(reg, v) == {} {
    }
    forall t ensures ListOf(reg, t) == [] && SettledVoters([], t) == {} {
    }
  }

  lemma FreshMoney(b: Bank, ds: seq<Dispute>)
    requires |b.relayStake| == |b.verifierStake| == |b.pending| == |b.credited| == |b.withdrawn| == 0
    requires b.balance == b.retained == 0 && |ds| == 0
    ensures MoneyOk(b, ds)
  {
    SumEmpty(b.relayStake);
    SumEmpty(b.verifierStake);
    SumEmpty(b.pending);
    hide Sum;
  }

  lemma FreshRest(s: State)
    requires Init(s)
    ensures RosterOk(s.roster) && NoncesOk(s.didNonce, s.docs) && KeysOk(s.dids, s.docs)
    ensures CaseOk(s.docs, s.disputes, s.clock, s.cfg.challengePeriod) && BallotsOk(s.docs, s.disputes, s.attested)
    ensures WindowsOk(s.docs, s.clock, s.cfg.challengePeriod) && TreesOk(s.docs)
    ensures QuorumsOk(s.cfg.quorum, s.disputes)
  {
  }

  lemma InitInv(s: State)
    requires Init(s)
    ensures Inv(s) && !s.locked
  {
    hide RosterOk, NoncesOk, KeysOk, CaseOk, BallotsOk, WindowsOk, TreesOk, QuorumsOk, CountsOk, FilesOk, MoneyOk;
    FreshCounts();
    FreshFiles();
    FreshMoney(s.bank, s.disputes);
    FreshRest(s);
  }
}
