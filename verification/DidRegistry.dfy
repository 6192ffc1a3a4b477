/** The DID registry: write-once keys with an owner-only deactivation switch. */
module DidRegistry {
  import opened Common
  import opened Merkle

  const FALCON_512_PK_SIZE := 897

  datatype Document = Document(owner: Address, publicKey: seq<Byte>, registeredAt: nat, active: bool)

  type Directory = map<Hash, Document>

  predicate IsRegistered(dids: Directory, did: Hash) {
    did in dids && dids[did].registeredAt != 0
  }

  predicate IsActive(dids: Directory, did: Hash) {
    IsRegistered(dids, did) && dids[did].active
  }

  function Register(dids: Directory, sender: Address, did: Hash, key: seq<Byte>, now: nat): Outcome<Directory> {
    if IsRegistered(dids, did) then Revert(DidAlreadyExists)
    else if |key| != FALCON_512_PK_SIZE then Revert(BadPublicKeyLength)
    else Ok(dids[did := Document(sender, key, now, true)])
  }

  /** An unknown DID has the zero owner and is inactive. */
  function Deactivate(dids: Directory, sender: Address, did: Hash): Outcome<Directory> {
    if (if did in dids then dids[did].owner else 0) != sender then Revert(NotDidOwner)
    else if did !in dids || !dids[did].active then Revert(DidAlreadyDeactivated)
    else Ok(dids[did := dids[did].(active := false)])
  }

  /** `after` keeps the owner and the key of every DID registered in `before`, and reactivates none. */
  ghost predicate Extends(before: Directory, after: Directory) {
    forall d :: IsRegistered(before, d) ==>
      && IsRegistered(after, d) && after[d].publicKey == before[d].publicKey && after[d].owner == before[d].owner
      && (after[d].active ==> before[d].active)
  }

  /** A registration is taken exactly for a new DID with an 897-byte key; it makes the
      sender the owner of an active document and touches no other. */
  lemma Registers(dids: Directory, sender: Address, did: Hash, key: seq<Byte>, now: nat)
    ensures Register(dids, sender, did, key, now) == Revert(DidAlreadyExists) <==>
              did in dids && dids[did].registeredAt != 0
    ensures Register(dids, sender, did, key, now) == Revert(BadPublicKeyLength) <==>
              !(did in dids && dids[did].registeredAt != 0) && |key| != 897
    ensures Register(dids, sender, did, key, now).Ok? <==>
              !(did in dids && dids[did].registeredAt != 0) && |key| == 897
    ensures Register(dids, sender, did, key, now).Ok? ==>
              var after := Register(dids, sender, did, key, now).state;
              && after.Keys == dids.Keys + {did}
              && (forall d :: d in after ==> after[d] == if d == did then Document(sender, key, now, true) else dids[d])
  {
  }

  /** A deactivation is taken exactly from the owner of an active document; it switches
      that document off and touches no other. */
  lemma Deactivates(dids: Directory, sender: Address, did: Hash)
    ensures Deactivate(dids, sender, did).Ok? <==> did in dids && dids[did].owner == sender && dids[did].active
    ensures Deactivate(dids, sender, did) == Revert(NotDidOwner) <==>
              (did in dids && dids[did].owner != sender) || (did !in dids && sender != 0)
    ensures Deactivate(dids, sender, did) == Revert(DidAlreadyDeactivated) <==>
              (did in dids && dids[did].owner == sender && !dids[did].active) || (did !in dids && sender == 0)
    ensures Deactivate(dids, sender, did).Ok? ==>
              var after := Deactivate(dids, sender, did).state;
              && after.Keys == dids.Keys
              && forall d :: d in after ==>
                   && after[d].owner == dids[d].owner && after[d].publicKey == dids[d].publicKey
                   && after[d].registeredAt == dids[d].registeredAt
                   && (after[d].active <==> dids[d].active && d != did)
  {
  }

  /** Every document carries the positive time of its registration. */
  ghost predicate Dated(dids: Directory) {
    forall d :: d in dids ==> dids[d].registeredAt > 0
  }

  class DIDRegistry {
    var dids: Directory

    constructor ()
      ensures dids == map[]
    {
      dids := map[];
    }

    method RegisterDID(sender: Address, didHash: Hash, falconPublicKey: seq<Byte>, now: nat) returns (r: Outcome<()>)
      modifies this
      ensures match Register(old(dids), sender, didHash, falconPublicKey, now)
              case Ok(after) => r == Ok(()) && dids == after
              case Revert(e) => r == Revert(e) && dids == old(dids)
    {
      if didHash in dids && dids[didHash].registeredAt != 0 {
        return Revert(DidAlreadyExists);
      }
      if |falconPublicKey| != FALCON_512_PK_SIZE {
        return Revert(BadPublicKeyLength);
      }
      dids := dids[didHash := Document(sender, falconPublicKey, now, true)];
      return Ok(());
    }

    method DeactivateDID(sender: Address, didHash: Hash) returns (r: Outcome<()>)
      modifies this
      ensures match Deactivate(old(dids), sender, didHash)
              case Ok(after) => r == Ok(()) && dids == after
              case Revert(e) => r == Revert(e) && dids == old(dids)
    {
      var owner := if didHash in dids then dids[didHash].owner else 0;
      if owner != sender {
        return Revert(NotDidOwner);
      }
      if didHash !in dids || !dids[didHash].active {
        return Revert(DidAlreadyDeactivated);
      }
      dids := dids[didHash := dids[didHash].(active := false)];
      return Ok(());
    }

    /** The key, or none when the source reverts. */
    method GetPublicKey(didHash: Hash) returns (key: Option<seq<Byte>>)
      ensures key == if IsActive(dids, didHash) then Some(dids[didHash].publicKey) else None
    {
      if didHash !in dids || dids[didHash].registeredAt == 0 {
        return None;
      }
      if !dids[didHash].active {
        return None;
      }
      return Some(dids[didHash].publicKey);
    }

    method Active(didHash: Hash) returns (active: bool)
      ensures active <==> IsActive(dids, didHash)
    {
      return didHash in dids && dids[didHash].registeredAt != 0 && dids[didHash].active;
    }
  }
}
