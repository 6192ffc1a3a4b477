/** Records, batches, and the disputes about them. */
module Docket {
  import opened Common
  import opened Merkle

  // ---------- Entities ----------

  datatype RecordState = Provisional | Confirmed | Disputed | Revoked

  datatype LeafState = Undisputed | LeafDisputed | LeafRevoked | Upheld

  datatype Record = Record(
    dataHash: Hash,
    didHash: Hash,
    signature: seq<Byte>,
    pubKeyHash: Hash,
    submittedAt: nat,
    relay: Address,
    nonce: nat,
    state: RecordState)

  /** `leaves` is what the batch's leaf events publish; storage keeps only the root. */
  datatype Batch = Batch(
    merkleRoot: Hash,
    leafCount: nat,
    availability: Hash,
    submittedAt: nat,
    relay: Address,
    revokedLeafCount: nat,
    state: RecordState,
    leaves: seq<Hash>)

  /** What a dispute is about: the fixed-width target key of the source. */
  datatype Target = RecordTarget(index: nat) | LeafTarget(batch: nat, leaf: nat)

  /** How a dispute ended. The source keeps the boolean `verdict != Open`. */
  datatype Verdict = Open | Fraud | Spurious | Expired

  datatype Dispute = Dispute(
    target: Target,
    challenger: Address,
    bond: nat,
    openedAt: nat,
    deadline: nat,
    fraudAttesters: seq<Address>,
    validAttesters: seq<Address>,
    verdict: Verdict)

  datatype Docs = Docs(records: seq<Record>, batches: seq<Batch>, leaf: map<(nat, nat), LeafState>)

  // ---------- Reading the documents ----------

  predicate Exists(docs: Docs, t: Target) {
    match t
    case RecordTarget(i) => i < |docs.records|
    case LeafTarget(b, l) => b < |docs.batches| && l < docs.batches[b].leafCount
  }

  function RelayOf(docs: Docs, t: Target): Address
    requires Exists(docs, t)
  {
    match t
    case RecordTarget(i) => docs.records[i].relay
    case LeafTarget(b, _) => docs.batches[b].relay
  }

  function LeafAt(docs: Docs, b: nat, l: nat): LeafState {
    if (b, l) in docs.leaf then docs.leaf[(b, l)] else Undisputed
  }

  /** No verdict can touch the target any more. */
  predicate Terminal(docs: Docs, t: Target)
    requires Exists(docs, t)
  {
    match t
    case RecordTarget(i) => docs.records[i].state.Confirmed? || docs.records[i].state.Revoked?
    case LeafTarget(b, l) => docs.batches[b].state.Confirmed? || LeafAt(docs, b, l).LeafRevoked?
  }

  // ---------- Changing the documents ----------

  function SetRecord(docs: Docs, i: nat, state: RecordState): Docs
    requires i < |docs.records|
  {
    docs.(records := docs.records[i := docs.records[i].(state := state)])
  }

  function SetLeaf(docs: Docs, b: nat, l: nat, state: LeafState): Docs {
    docs.(leaf := docs.leaf[(b, l) := state])
  }

  /** A target under dispute. */
  function MarkDisputed(docs: Docs, t: Target): Docs
    requires Exists(docs, t)
  {
    match t
    case RecordTarget(i) => SetRecord(docs, i, Disputed)
    case LeafTarget(b, l) => SetLeaf(docs, b, l, LeafDisputed)
  }

  /** A target whose dispute was spurious: undecided and disputable again. */
  function Reinstate(docs: Docs, t: Target): Docs
    requires Exists(docs, t)
  {
    match t
    case RecordTarget(i) => SetRecord(docs, i, Provisional)
    case LeafTarget(b, l) => SetLeaf(docs, b, l, Upheld)
  }

  function Revoke(docs: Docs, t: Target): Docs
    requires Exists(docs, t)
  {
    match t
    case RecordTarget(i) => SetRecord(docs, i, Revoked)
    case LeafTarget(b, l) =>
      if LeafAt(docs, b, l).LeafRevoked? then docs else
        var batch := docs.batches[b];
        SetLeaf(docs, b, l, LeafRevoked).(
          batches := docs.batches[b := batch.(revokedLeafCount := batch.revokedLeafCount + 1)])
  }
}
