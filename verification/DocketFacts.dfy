/** What always holds between the documents and the disputes about them, and
    how admitting, voting on and settling a dispute keeps it. */
module DocketFacts {
  import opened Common
  import opened Merkle
  import opened Docket

  // ---------- Documents only grow; everything but their state is fixed ----------

  predicate SameRecord(r: Record, q: Record) {
    q == r.(state := q.state)
  }

  predicate SameBatch(b: Batch, c: Batch) {
    c == b.(state := c.state, revokedLeafCount := c.revokedLeafCount)
  }

  ghost predicate Extends(d: Docs, e: Docs) {
    && |d.records| <= |e.records| && |d.batches| <= |e.batches|
    && (forall i :: 0 <= i < |d.records| ==> SameRecord(d.records[i], e.records[i]))
    && (forall b :: 0 <= b < |d.batches| ==> SameBatch(d.batches[b], e.batches[b]))
  }

  lemma ExtendsKeeps(d: Docs, e: Docs, t: Target)
    requires Extends(d, e) && Exists(d, t)
    ensures Exists(e, t) && RelayOf(e, t) == RelayOf(d, t)
  {
  }

  /** Where a verdict leaves its target. */
  function Judge(docs: Docs, t: Target, v: Verdict): Docs
    requires Exists(docs, t)
  {
    match v
    case Open => MarkDisputed(docs, t)
    case Spurious => Reinstate(docs, t)
    case _ => Revoke(docs, t)
  }

  lemma JudgeExtends(docs: Docs, t: Target, v: Verdict)
    requires Exists(docs, t)
    ensures Extends(docs, Judge(docs, t, v)) && Extends(Judge(docs, t, v), docs)
  {
  }

  // ---------- The verdict history of a target ----------

  /** Verdict of the last dispute opened on a target. */
  function LastVerdict(ds: seq<Dispute>, t: Target): Option<Verdict> {
    if ds == [] then None
    else if ds[|ds| - 1].target == t then Some(ds[|ds| - 1].verdict)
    else LastVerdict(ds[..|ds| - 1], t)
  }

  /** Of all disputes on one target only the last can be anything but spurious. */
  ghost predicate EarlierSpurious(ds: seq<Dispute>) {
    forall i, j :: 0 <= i < j < |ds| && ds[i].target == ds[j].target ==> ds[i].verdict.Spurious?
  }

  lemma {:induction false} LastVerdictIndex(ds: seq<Dispute>, t: Target) returns (i: int)
    ensures LastVerdict(ds, t).None? ==> i == -1
    ensures LastVerdict(ds, t).Some? ==> 0 <= i < |ds| && ds[i].target == t && LastVerdict(ds, t) == Some(ds[i].verdict)
    ensures forall j :: i < j < |ds| ==> ds[j].target != t
    decreases |ds|
  {
    if ds == [] {
      i := -1;
    } else if ds[|ds| - 1].target == t {
      i := |ds| - 1;
    } else {
      i := LastVerdictIndex(ds[..|ds| - 1], t);
    }
  }

  /** An unsettled or damning dispute is the last one on its target. */
  lemma LastVerdictOf(ds: seq<Dispute>, i: nat)
    requires EarlierSpurious(ds) && i < |ds| && !ds[i].verdict.Spurious?
    ensures LastVerdict(ds, ds[i].target) == Some(ds[i].verdict)
  {
    var j := LastVerdictIndex(ds, ds[i].target);
  }

  /** Without an unsettled or damning last dispute, all disputes on the target were spurious. */
  lemma AllSpurious(ds: seq<Dispute>, t: Target, i: nat)
    requires EarlierSpurious(ds) && LastVerdict(ds, t) in {None, Some(Spurious)}
    requires i < |ds| && ds[i].target == t
    ensures ds[i].verdict.Spurious?
  {
    var j := LastVerdictIndex(ds, t);
  }

  lemma {:induction false} LastVerdictSettled(ds: seq<Dispute>, i: nat, d: Dispute, t: Target)
    requires EarlierSpurious(ds) && i < |ds| && ds[i].verdict.Open? && d.target == ds[i].target
    ensures LastVerdict(ds[i := d], t) == if t == d.target then Some(d.verdict) else LastVerdict(ds, t)
    decreases |ds|
  {
    var last := |ds| - 1;
    if i < last {
      assert ds[i := d][..last] == ds[..last][i := d];
      LastVerdictSettled(ds[..last], i, d, t);
    } else {
      assert ds[i := d][..last] == ds[..last];
    }
  }

  lemma LastVerdictAdmitted(ds: seq<Dispute>, d: Dispute, t: Target)
    ensures LastVerdict(ds + [d], t) == if t == d.target then Some(d.verdict) else LastVerdict(ds, t)
  {
    assert (ds + [d])[..|ds|] == ds;
  }

  // ---------- Document states follow the verdict history ----------

  predicate RecordFits(state: RecordState, v: Option<Verdict>) {
    match v
    case None => state.Provisional? || state.Confirmed?
    case Some(Open) => state.Disputed?
    case Some(Spurious) => state.Provisional? || state.Confirmed?
    case Some(_) => state.Revoked?
  }

  function LeafFor(v: Option<Verdict>): LeafState {
    match v
    case None => Undisputed
    case Some(Open) => LeafDisputed
    case Some(Spurious) => Upheld
    case Some(_) => LeafRevoked
  }

  ghost predicate StatesOk(docs: Docs, ds: seq<Dispute>) {
    && (forall i :: 0 <= i < |docs.records| ==> RecordFits(docs.records[i].state, LastVerdict(ds, RecordTarget(i))))
    && (forall b, l :: LeafAt(docs, b, l) == LeafFor(LastVerdict(ds, LeafTarget(b, l))))
  }

  /** A target a dispute may be opened on. */
  predicate Disputable(docs: Docs, t: Target)
    requires Exists(docs, t)
  {
    match t
    case RecordTarget(i) => docs.records[i].state.Provisional?
    case LeafTarget(b, l) => docs.batches[b].state.Provisional? && LeafAt(docs, b, l) in {Undisputed, Upheld}
  }

  lemma AdmitStates(docs: Docs, ds: seq<Dispute>, d: Dispute)
    requires StatesOk(docs, ds) && EarlierSpurious(ds)
    requires Exists(docs, d.target) && Disputable(docs, d.target) && d.verdict.Open?
    ensures StatesOk(Judge(docs, d.target, Open), ds + [d]) && EarlierSpurious(ds + [d])
  {
    forall t ensures LastVerdict(ds + [d], t) == if t == d.target then Some(Open) else LastVerdict(ds, t) {
      LastVerdictAdmitted(ds, d, t);
    }
    forall i | 0 <= i < |ds| && ds[i].target == d.target ensures ds[i].verdict.Spurious? {
      AllSpurious(ds, d.target, i);
    }
  }

  /** Replacing an open dispute by its voted-on or settled self. */
  lemma SettleStates(docs: Docs, ds: seq<Dispute>, i: nat, d: Dispute)
    requires StatesOk(docs, ds) && EarlierSpurious(ds)
    requires i < |ds| && ds[i].verdict.Open? && d.target == ds[i].target && Exists(docs, d.target)
    ensures StatesOk(Judge(docs, d.target, d.verdict), ds[i := d]) && EarlierSpurious(ds[i := d])
  {
    forall t ensures LastVerdict(ds[i := d], t) == if t == d.target then Some(d.verdict) else LastVerdict(ds, t) {
      LastVerdictSettled(ds, i, d, t);
    }
    LastVerdictOf(ds, i);
  }

  /** A disputed target is left as it is by marking it again. */
  lemma StillDisputed(docs: Docs, ds: seq<Dispute>, i: nat)
    requires StatesOk(docs, ds) && EarlierSpurious(ds) && i < |ds| && ds[i].verdict.Open? && Exists(docs, ds[i].target)
    ensures match ds[i].target
            case RecordTarget(r) => docs.records[r].state.Disputed?
            case LeafTarget(b, l) => LeafAt(docs, b, l).LeafDisputed?
  {
    LastVerdictOf(ds, i);
  }

  // ---------- Counters agree with recomputation ----------

  ghost predicate Names(docs: Docs, d: Dispute, r: Address) {
    d.verdict.Open? && Exists(docs, d.target) && RelayOf(docs, d.target) == r
  }

  /** Open disputes naming relay `r`. */
  ghost function OpenNaming(docs: Docs, ds: seq<Dispute>, r: Address): set<nat> {
    set i: nat | i < |ds| && Names(docs, ds[i], r)
  }

  predicate Inside(d: Dispute, b: nat) {
    d.verdict.Open? && d.target.LeafTarget? && d.target.batch == b
  }

  /** Open disputes on leaves of batch `b`. */
  ghost function OpenInBatch(ds: seq<Dispute>, b: nat): set<nat> {
    set i: nat | i < |ds| && Inside(ds[i], b)
  }

  ghost function RevokedLeaves(docs: Docs, b: nat): set<nat>
    requires b < |docs.batches|
  {
    set l: nat | l < docs.batches[b].leafCount && LeafAt(docs, b, l).LeafRevoked?
  }

  ghost predicate RelayCountsOk(docs: Docs, ds: seq<Dispute>, relayActive: map<Address, nat>) {
    forall r :: Get(relayActive, r) == |OpenNaming(docs, ds, r)|
  }

  ghost predicate BatchCountsOk(ds: seq<Dispute>, batchOpen: map<nat, nat>) {
    forall b :: Get(batchOpen, b) == |OpenInBatch(ds, b)|
  }

  ghost predicate RevokedCountsOk(docs: Docs) {
    forall b :: 0 <= b < |docs.batches| ==> docs.batches[b].revokedLeafCount == |RevokedLeaves(docs, b)|
  }

  lemma NamesKept(d: Docs, e: Docs, x: Dispute, r: Address)
    requires Extends(d, e) && (Exists(d, x.target) || Extends(e, d))
    ensures Names(e, x, r) == Names(d, x, r)
  {
  }

  lemma NamingAdmitted(docs: Docs, docs': Docs, ds: seq<Dispute>, d: Dispute, r: Address)
    requires Extends(docs, docs') && Extends(docs', docs) && Exists(docs, d.target) && d.verdict.Open?
    ensures |OpenNaming(docs', ds + [d], r)| ==
            |OpenNaming(docs, ds, r)| + (if r == RelayOf(docs, d.target) then 1 else 0)
  {
    forall x: Dispute ensures Names(docs', x, r) == Names(docs, x, r) {
      NamesKept(docs, docs', x, r);
    }
    hide Names, Extends;
    assert Names(docs, d, r) == (r == RelayOf(docs, d.target));
    if r == RelayOf(docs, d.target) {
      assert OpenNaming(docs', ds + [d], r) == OpenNaming(docs, ds, r) + {|ds|};
    } else {
      assert OpenNaming(docs', ds + [d], r) == OpenNaming(docs, ds, r);
    }
  }

  lemma InBatchAdmitted(ds: seq<Dispute>, d: Dispute, b: nat)
    ensures |OpenInBatch(ds + [d], b)| == |OpenInBatch(ds, b)| + (if Inside(d, b) then 1 else 0)
  {
    if Inside(d, b) {
      assert OpenInBatch(ds + [d], b) == OpenInBatch(ds, b) + {|ds|};
    } else {
      assert OpenInBatch(ds + [d], b) == OpenInBatch(ds, b);
    }
  }

  lemma AdmitCounts(docs: Docs, docs': Docs, ds: seq<Dispute>, d: Dispute, relayActive: map<Address, nat>,
                    batchOpen: map<nat, nat>)
    requires Extends(docs, docs') && Extends(docs', docs) && Exists(docs, d.target) && d.verdict.Open?
    requires RelayCountsOk(docs, ds, relayActive) && BatchCountsOk(ds, batchOpen)
    ensures RelayCountsOk(docs', ds + [d], Add(relayActive, RelayOf(docs, d.target), 1))
    ensures BatchCountsOk(ds + [d], if d.target.LeafTarget? then Add(batchOpen, d.target.batch, 1) else batchOpen)
  {
    hide OpenNaming, OpenInBatch, Extends;
    forall r ensures |OpenNaming(docs', ds + [d], r)| ==
                     |OpenNaming(docs, ds, r)| + (if r == RelayOf(docs, d.target) then 1 else 0) {
      NamingAdmitted(docs, docs', ds, d, r);
    }
    forall b ensures |OpenInBatch(ds + [d], b)| == |OpenInBatch(ds, b)| + (if Inside(d, b) then 1 else 0) {
      InBatchAdmitted(ds, d, b);
    }
  }

  /** An open dispute is counted, so the counters can be taken down for it. */
  lemma OpenIsCounted(docs: Docs, ds: seq<Dispute>, i: nat, relayActive: map<Address, nat>, batchOpen: map<nat, nat>)
    requires i < |ds| && ds[i].verdict.Open? && Exists(docs, ds[i].target)
    requires RelayCountsOk(docs, ds, relayActive) && BatchCountsOk(ds, batchOpen)
    ensures Get(relayActive, RelayOf(docs, ds[i].target)) > 0
    ensures ds[i].target.LeafTarget? ==> Get(batchOpen, ds[i].target.batch) > 0
  {
    assert i in OpenNaming(docs, ds, RelayOf(docs, ds[i].target));
    if ds[i].target.LeafTarget? {
      assert i in OpenInBatch(ds, ds[i].target.batch);
    }
  }

  lemma NamingSettled(docs: Docs, docs': Docs, ds: seq<Dispute>, i: nat, d: Dispute, r: Address)
    requires Extends(docs, docs') && Extends(docs', docs)
    requires i < |ds| && ds[i].verdict.Open? && d.target == ds[i].target && Exists(docs, d.target)
    ensures |OpenNaming(docs', ds[i := d], r)| ==
            |OpenNaming(docs, ds, r)| - (if r == RelayOf(docs, d.target) && !d.verdict.Open? then 1 else 0)
  {
    forall x: Dispute ensures Names(docs', x, r) == Names(docs, x, r) {
      NamesKept(docs, docs', x, r);
    }
    assert Names(docs, ds[i], r) == (r == RelayOf(docs, d.target));
    assert Names(docs, d, r) == (r == RelayOf(docs, d.target) && d.verdict.Open?);
    hide Names, Extends;
    var was := OpenNaming(docs, ds, r);
    if r == RelayOf(docs, d.target) && !d.verdict.Open? {
      assert i in was;
      assert OpenNaming(docs', ds[i := d], r) == was - {i};
    } else {
      assert OpenNaming(docs', ds[i := d], r) == was;
    }
  }

  lemma InBatchSettled(ds: seq<Dispute>, i: nat, d: Dispute, b: nat)
    requires i < |ds| && ds[i].verdict.Open? && d.target == ds[i].target
    ensures |OpenInBatch(ds[i := d], b)| ==
            |OpenInBatch(ds, b)| - (if Inside(ds[i], b) && !d.verdict.Open? then 1 else 0)
  {
    var was := OpenInBatch(ds, b);
    if Inside(ds[i], b) && !d.verdict.Open? {
      assert i in was;
      assert OpenInBatch(ds[i := d], b) == was - {i};
    } else {
      assert OpenInBatch(ds[i := d], b) == was;
    }
  }

  lemma SettleRelayCounts(docs: Docs, docs': Docs, ds: seq<Dispute>, i: nat, d: Dispute, relayActive: map<Address, nat>)
    requires Extends(docs, docs') && Extends(docs', docs)
    requires i < |ds| && ds[i].verdict.Open? && d.target == ds[i].target && Exists(docs, d.target)
    requires RelayCountsOk(docs, ds, relayActive) && Get(relayActive, RelayOf(docs, d.target)) > 0
    ensures d.verdict.Open? ==> RelayCountsOk(docs', ds[i := d], relayActive)
    ensures !d.verdict.Open? ==>
              var relay := RelayOf(docs, d.target);
              RelayCountsOk(docs', ds[i := d], relayActive[relay := Get(relayActive, relay) - 1])
  {
    hide OpenNaming, Extends;
    forall r ensures |OpenNaming(docs', ds[i := d], r)| ==
            |OpenNaming(docs, ds, r)| - (if r == RelayOf(docs, d.target) && !d.verdict.Open? then 1 else 0) {
      NamingSettled(docs, docs', ds, i, d, r);
    }
    if !d.verdict.Open? {
      var relay := RelayOf(docs, d.target);
      var m := relayActive[relay := Get(relayActive, relay) - 1];
      forall r ensures Get(m, r) == |OpenNaming(docs', ds[i := d], r)| {
        assert Get(m, r) == Get(relayActive, r) - (if r == relay then 1 else 0);
      }
    }
  }

  lemma SettleBatchCounts(ds: seq<Dispute>, i: nat, d: Dispute, batchOpen: map<nat, nat>)
    requires i < |ds| && ds[i].verdict.Open? && d.target == ds[i].target
    requires BatchCountsOk(ds, batchOpen) && (d.target.LeafTarget? ==> Get(batchOpen, d.target.batch) > 0)
    ensures d.verdict.Open? || d.target.RecordTarget? ==> BatchCountsOk(ds[i := d], batchOpen)
    ensures !d.verdict.Open? && d.target.LeafTarget? ==>
              var b := d.target.batch;
              BatchCountsOk(ds[i := d], batchOpen[b := Get(batchOpen, b) - 1])
  {
    hide OpenInBatch;
    forall b ensures |OpenInBatch(ds[i := d], b)| ==
                     |OpenInBatch(ds, b)| - (if Inside(ds[i], b) && !d.verdict.Open? then 1 else 0) {
      InBatchSettled(ds, i, d, b);
    }
    if !d.verdict.Open? && d.target.LeafTarget? {
      var m := batchOpen[d.target.batch := Get(batchOpen, d.target.batch) - 1];
      forall b ensures Get(m, b) == |OpenInBatch(ds[i := d], b)| {
        assert Get(m, b) == Get(batchOpen, b) - (if b == d.target.batch then 1 else 0);
      }
    }
  }

  predicate Damns(v: Verdict) {
    v.Fraud? || v.Expired?
  }

  lemma BatchJudged(docs: Docs, t: Target, v: Verdict, b: nat, l: nat)
    requires Exists(docs, t) && b < |docs.batches|
    requires t.LeafTarget? ==> !LeafAt(docs, t.batch, t.leaf).LeafRevoked?
    ensures var docs' := Judge(docs, t, v);
            && |docs'.batches| == |docs.batches| && docs'.batches[b].leafCount == docs.batches[b].leafCount
            && docs'.batches[b].revokedLeafCount ==
               docs.batches[b].revokedLeafCount + (if Damns(v) && t.LeafTarget? && t.batch == b then 1 else 0)
            && (LeafAt(docs', b, l).LeafRevoked? <==>
                LeafAt(docs, b, l).LeafRevoked? || (Damns(v) && t == LeafTarget(b, l)))
  {
  }

  lemma RevokedJudged(docs: Docs, t: Target, v: Verdict, b: nat)
    requires Exists(docs, t) && b < |docs.batches|
    requires t.LeafTarget? ==> !LeafAt(docs, t.batch, t.leaf).LeafRevoked?
    ensures var docs' := Judge(docs, t, v);
            |docs'.batches| == |docs.batches| &&
            docs'.batches[b].revokedLeafCount - |RevokedLeaves(docs', b)| ==
            docs.batches[b].revokedLeafCount - |RevokedLeaves(docs, b)|
  {
    var docs' := Judge(docs, t, v);
    BatchJudged(docs, t, v, b, 0);
    forall l: nat ensures LeafAt(docs', b, l).LeafRevoked? <==>
      LeafAt(docs, b, l).LeafRevoked? || (Damns(v) && t == LeafTarget(b, l)) {
      BatchJudged(docs, t, v, b, l);
    }
    hide Judge, LeafAt;
    if Damns(v) && t.LeafTarget? && t.batch == b {
      assert RevokedLeaves(docs', b) == RevokedLeaves(docs, b) + {t.leaf};
    } else {
      assert RevokedLeaves(docs', b) == RevokedLeaves(docs, b);
    }
  }

  lemma JudgeRevokedCounts(docs: Docs, t: Target, v: Verdict)
    requires Exists(docs, t) && RevokedCountsOk(docs)
    requires t.LeafTarget? ==> !LeafAt(docs, t.batch, t.leaf).LeafRevoked?
    ensures RevokedCountsOk(Judge(docs, t, v))
  {
    JudgeExtends(docs, t, v);
    hide RevokedLeaves, Judge;
    forall b | 0 <= b < |docs.batches|
      ensures Judge(docs, t, v).batches[b].revokedLeafCount == |RevokedLeaves(Judge(docs, t, v), b)| {
      RevokedJudged(docs, t, v, b);
    }
  }

  // ---------- Ballots ----------

  /** The ballots of one dispute: each verifier votes once, on one side, and never the target's relay. */
  ghost predicate BallotOk(docs: Docs, d: Dispute) {
    && Exists(docs, d.target)
    && NoDup(d.fraudAttesters) && NoDup(d.validAttesters)
    && (forall v :: v in d.fraudAttesters ==> v !in d.validAttesters && v != RelayOf(docs, d.target))
    && (forall v :: v in d.validAttesters ==> v != RelayOf(docs, d.target))
  }

  predicate Voted(ds: seq<Dispute>, i: nat, v: Address) {
    i < |ds| && (v in ds[i].fraudAttesters || v in ds[i].validAttesters)
  }

  ghost predicate BallotsOk(docs: Docs, ds: seq<Dispute>, attested: set<(nat, Address)>) {
    && (forall i :: 0 <= i < |ds| ==> BallotOk(docs, ds[i]))
    && (forall i: nat, v: Address :: (i, v) in attested <==> Voted(ds, i, v))
  }

  /** A verdict carries exactly `quorum` votes for it and fewer against it. */
  predicate QuorumMet(quorum: nat, d: Dispute) {
    match d.verdict
    case Fraud => |d.fraudAttesters| == quorum && |d.validAttesters| < quorum
    case Spurious => |d.validAttesters| == quorum && |d.fraudAttesters| < quorum
    case _ => |d.fraudAttesters| < quorum && |d.validAttesters| < quorum
  }

  ghost predicate QuorumsOk(quorum: nat, ds: seq<Dispute>) {
    quorum > 0 ==> forall i :: 0 <= i < |ds| ==> QuorumMet(quorum, ds[i])
  }

  lemma BallotsKept(docs: Docs, docs': Docs, ds: seq<Dispute>, attested: set<(nat, Address)>)
    requires Extends(docs, docs') && BallotsOk(docs, ds, attested)
    ensures BallotsOk(docs', ds, attested)
  {
    forall i | 0 <= i < |ds| ensures BallotOk(docs', ds[i]) {
      assert BallotOk(docs, ds[i]);
      ExtendsKeeps(docs, docs', ds[i].target);
    }
  }

  // ---------- Times and existence ----------

  ghost predicate TargetsOk(docs: Docs, ds: seq<Dispute>, clock: nat, period: nat) {
    forall i :: 0 <= i < |ds| ==>
      && Exists(docs, ds[i].target)
      && 0 < ds[i].openedAt <= clock && ds[i].deadline == ds[i].openedAt + period
  }

  /** A confirmed document has passed its full window; a confirmed batch has no open leaf. */
  ghost predicate WindowsOk(docs: Docs, clock: nat, period: nat) {
    && (forall i :: 0 <= i < |docs.records| ==>
          docs.records[i].state.Confirmed? ==> docs.records[i].submittedAt + period <= clock)
    && (forall b :: 0 <= b < |docs.batches| ==>
          && (docs.batches[b].state.Provisional? || docs.batches[b].state.Confirmed?)
          && (docs.batches[b].state.Confirmed? ==> docs.batches[b].submittedAt + period <= clock))
    && (forall b, l: nat :: 0 <= b < |docs.batches| && docs.batches[b].state.Confirmed? ==>
          !LeafAt(docs, b, l).LeafDisputed?)
  }

  /** The stored root commits to the published leaves, each bound to its batch. */
  ghost predicate TreesOk(docs: Docs) {
    forall b :: 0 <= b < |docs.batches| ==> TreeOk(docs.batches[b], b)
  }

  ghost predicate TreeOk(batch: Batch, b: nat) {
    && |batch.leaves| == batch.leafCount > 0
    && batch.merkleRoot == Root(batch.leaves)
    && forall l :: 0 <= l < |batch.leaves| ==> batch.leaves[l].LeafOf? && batch.leaves[l].batch == b
  }

  // ---------- Bonds ----------

  function Bond(d: Dispute): nat {
    if d.verdict.Open? then d.bond else 0
  }

  /** Wei held for disputes still open. */
  function OpenBonds(ds: seq<Dispute>): nat {
    if ds == [] then 0 else OpenBonds(ds[..|ds| - 1]) + Bond(ds[|ds| - 1])
  }

  lemma OpenBondsAdmit(ds: seq<Dispute>, d: Dispute)
    ensures OpenBonds(ds + [d]) == OpenBonds(ds) + Bond(d)
  {
    assert (ds + [d])[..|ds|] == ds;
  }

  lemma {:induction false} OpenBondsSettle(ds: seq<Dispute>, i: nat, d: Dispute)
    requires i < |ds|
    ensures OpenBonds(ds[i := d]) + Bond(ds[i]) == OpenBonds(ds) + Bond(d)
    decreases |ds|
  {
    var last := |ds| - 1;
    if i < last {
      assert ds[i := d][..last] == ds[..last][i := d];
      OpenBondsSettle(ds[..last], i, d);
    } else {
      assert ds[i := d][..last] == ds[..last];
    }
  }
}
