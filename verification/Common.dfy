/** Vocabulary shared by every part of the model: finite maps read with a zero
    default (as contract storage is), their sums, and duplicate-free lists. */
module Common {
  type Address = nat
  type Byte = b: nat | b < 256

  datatype Option<+T> = None | Some(value: T)

  /** Why a call reverts. `Panic` is a failed checked subtraction, `OutOfBounds` a bad array index. */
  datatype Error =
    | NotStakedRelay | InactiveDid | BadSignatureLength | BadAvailabilityLength | BatchLengthMismatch
    | DuplicateAttestation | NotVerifier | NotRegisteredVerifier | BadAttestation | NothingToFinalize
    | ChallengeWindowOpen | NoDisputeOpen | AlreadyResolved | NothingToWithdraw | BadMerkleProof
    | UnknownDispute | StillStaked | ActiveDisputes | InsufficientBond | ConflictOfInterest
    | LeafNotDisputable | OpenLeafDisputes | Reentrant | TransferFailed
    | DidAlreadyExists | BadPublicKeyLength | NotDidOwner | DidAlreadyDeactivated
    | Panic | OutOfBounds

  /** A call either completes in a new state or reverts and leaves no trace. */
  datatype Outcome<+S> = Ok(state: S) | Revert(error: Error)

  function Min(a: nat, b: nat): nat {
    if a < b then a else b
  }

  /** Storage read: an absent key holds zero. */
  function Get<K(==)>(m: map<K, nat>, k: K): nat {
    if k in m then m[k] else 0
  }

  function Add<K(==)>(m: map<K, nat>, k: K, n: nat): map<K, nat> {
    m[k := Get(m, k) + n]
  }

  predicate NoDup<T(==)>(xs: seq<T>) {
    forall i, j :: 0 <= i < j < |xs| ==> xs[i] != xs[j]
  }

  ghost function Elems<T>(xs: seq<T>): set<T> {
    set x | x in xs
  }

  lemma NoDupMultiplicity<T>(xs: seq<T>, x: T)
    requires NoDup(xs)
    ensures multiset(xs)[x] == if x in xs then 1 else 0
  {
    if |xs| > 0 {
      var front, last := xs[..|xs| - 1], xs[|xs| - 1];
      assert xs == front + [last];
      NoDupMultiplicity(front, x);
    }
  }

  /** Total held in a storage mapping. */
  ghost function Sum(m: map<Address, nat>): nat {
    if m == map[] then 0 else
      var k :| k in m;
      m[k] + Sum(m - {k})
  }

  lemma SumEmpty(m: map<Address, nat>)
    requires |m| == 0
    ensures Sum(m) == 0
  {
  }

  lemma {:induction false} SumRemove(m: map<Address, nat>, k: Address)
    requires k in m
    ensures Sum(m) == m[k] + Sum(m - {k})
    decreases |m|
  {
    var j :| j in m && Sum(m) == m[j] + Sum(m - {j});
    if j != k {
      SumRemove(m - {j}, k);
      SumRemove(m - {k}, j);
      assert (m - {j}) - {k} == (m - {k}) - {j};
    }
  }

  lemma {:induction false} SumPut(m: map<Address, nat>, k: Address, v: nat)
    ensures Sum(m[k := v]) + Get(m, k) == Sum(m) + v
  {
    SumRemove(m[k := v], k);
    if k in m {
      SumRemove(m, k);
      assert m[k := v] - {k} == m - {k};
    } else {
      assert m[k := v] - {k} == m;
    }
  }
}
