/** The cross-dispute registry of "valid" attestations and the live-exposure
    counters kept beside it. */
module Exposure {
  import opened Common
  import opened Docket

  datatype Registry = Registry(
    validList: map<Target, seq<Address>>,
    validHas: set<(Target, Address)>,
    exposures: map<Address, nat>,
    exposedLeaves: map<nat, seq<nat>>)

  function ListOf(reg: Registry, t: Target): seq<Address> {
    if t in reg.validList then reg.validList[t] else []
  }

  function ExposedIn(reg: Registry, b: nat): seq<nat> {
    if b in reg.exposedLeaves then reg.exposedLeaves[b] else []
  }

  // ---------- Operations ----------

  function Register(reg: Registry, t: Target, v: Address): Registry {
    if (t, v) in reg.validHas then reg else
      reg.(validHas := reg.validHas + {(t, v)},
           validList := reg.validList[t := ListOf(reg, t) + [v]],
           exposures := Add(reg.exposures, v, 1))
  }

  function RegisterAll(reg: Registry, t: Target, vs: seq<Address>): Registry {
    if vs == [] then reg else Register(RegisterAll(reg, t, vs[..|vs| - 1]), t, vs[|vs| - 1])
  }

  function Remember(reg: Registry, t: Target): Registry {
    match t
    case RecordTarget(_) => reg
    case LeafTarget(b, l) =>
      if l in ExposedIn(reg, b) then reg
      else reg.(exposedLeaves := reg.exposedLeaves[b := ExposedIn(reg, b) + [l]])
  }

  /** Every counter covers the decrements about to be made. */
  predicate CanRelease(reg: Registry, t: Target) {
    forall v :: v in ListOf(reg, t) ==> Less(reg.exposures, ListOf(reg, t), v) >= 0
  }

  /** An exposure after the list is released. */
  function Less(exposures: map<Address, nat>, list: seq<Address>, v: Address): int {
    Get(exposures, v) - multiset(list)[v]
  }

  function Lowered(exposures: map<Address, nat>, list: seq<Address>): map<Address, nat>
    requires forall v :: v in list ==> Less(exposures, list, v) >= 0
  {
    map v | v in exposures :: if v in list then Less(exposures, list, v) else exposures[v]
  }

  /** Take every listed verifier's exposure down and forget the list. */
  function Release(reg: Registry, t: Target): Registry
    requires CanRelease(reg, t)
  {
    reg.(exposures := Lowered(reg.exposures, ListOf(reg, t)), validList := reg.validList - {t})
  }

  /** Release every listed leaf of batch `b`; none when a counter would underflow. */
  function ReleaseLeaves(reg: Registry, b: nat, leaves: seq<nat>): Option<Registry> {
    if leaves == [] then Some(reg) else
      match ReleaseLeaves(reg, b, leaves[..|leaves| - 1])
      case None => None
      case Some(r) =>
        var t := LeafTarget(b, leaves[|leaves| - 1]);
        if CanRelease(r, t) then Some(Release(r, t)) else None
  }

  function ForgetLeaves(reg: Registry, b: nat): Registry {
    reg.(exposedLeaves := reg.exposedLeaves - {b})
  }
}
