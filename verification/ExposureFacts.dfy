/** The registry of valid attestations always agrees with a recomputation:
    counters with the lists, lists with the disputes. */
module ExposureFacts {
  import opened Common
  import opened Docket
  import opened Exposure

  // ---------- The registry on its own ----------

  /** Targets on whose list `v` stands. */
  ghost function Exposing(reg: Registry, v: Address): set<Target> {
    set t | t in reg.validList && v in reg.validList[t]
  }

  ghost predicate ListsOk(reg: Registry) {
    forall t :: NoDup(ListOf(reg, t)) && forall v :: v in ListOf(reg, t) ==> (t, v) in reg.validHas
  }

  ghost predicate CountersOk(reg: Registry) {
    forall v :: Get(reg.exposures, v) == |Exposing(reg, v)|
  }

  /** A leaf with a list is remembered, once, for release at batch finalization. */
  ghost predicate Covered(reg: Registry, b: nat, l: nat) {
    ListOf(reg, LeafTarget(b, l)) != [] ==> l in ExposedIn(reg, b)
  }

  ghost predicate LeavesOk(reg: Registry) {
    && (forall b :: NoDup(ExposedIn(reg, b)))
    && (forall b, l :: Covered(reg, b, l))
  }

  ghost predicate RegistryOk(reg: Registry) {
    ListsOk(reg) && CountersOk(reg)
  }

  /** The file of `t` is complete: whoever was registered on it is still listed. */
  ghost predicate Complete(reg: Registry, t: Target) {
    forall v :: (t, v) in reg.validHas ==> v in ListOf(reg, t)
  }

  lemma RegisterLists(reg: Registry, t: Target, v: Address, u: Target)
    requires (t, v) !in reg.validHas
    ensures ListOf(Register(reg, t, v), u) == if u == t then ListOf(reg, t) + [v] else ListOf(reg, u)
  {
  }

  lemma RegisterExposes(reg: Registry, t: Target, v: Address, w: Address)
    requires (t, v) !in reg.validHas && v !in ListOf(reg, t)
    ensures |Exposing(Register(reg, t, v), w)| == |Exposing(reg, w)| + (if w == v then 1 else 0)
  {
    var reg' := Register(reg, t, v);
    if w == v {
      assert Exposing(reg', w) == Exposing(reg, w) + {t};
    } else {
      assert Exposing(reg', w) == Exposing(reg, w);
    }
  }

  lemma RegisterKeeps(reg: Registry, t: Target, v: Address)
    requires RegistryOk(reg)
    ensures RegistryOk(Register(reg, t, v))
  {
    var reg' := Register(reg, t, v);
    if (t, v) !in reg.validHas {
      assert v !in ListOf(reg, t);
      forall u ensures ListOf(reg', u) == if u == t then ListOf(reg, t) + [v] else ListOf(reg, u) {
        RegisterLists(reg, t, v, u);
      }
      forall w ensures |Exposing(reg', w)| == |Exposing(reg, w)| + (if w == v then 1 else 0) {
        RegisterExposes(reg, t, v, w);
      }
      assert ListsOk(reg') by {
        hide Exposing;
      }
      assert CountersOk(reg') by {
        hide Exposing;
        forall w ensures Get(reg'.exposures, w) == |Exposing(reg', w)| {
          assert Get(reg'.exposures, w) == Get(reg.exposures, w) + (if w == v then 1 else 0);
        }
      }
    }
  }

  lemma RegisterFiles(reg: Registry, t: Target, v: Address)
    ensures var reg' := Register(reg, t, v);
            && reg'.exposedLeaves == reg.exposedLeaves && reg'.validHas == reg.validHas + {(t, v)}
            && (forall u :: u != t ==> ListOf(reg', u) == ListOf(reg, u))
            && (Complete(reg, t) ==> Complete(reg', t) && Elems(ListOf(reg', t)) == Elems(ListOf(reg, t)) + {v})
  {
  }

  lemma {:induction false} RegisterAllFiles(reg: Registry, t: Target, vs: seq<Address>)
    ensures var reg' := RegisterAll(reg, t, vs);
            && reg'.exposedLeaves == reg.exposedLeaves
            && (forall u :: u != t ==> ListOf(reg', u) == ListOf(reg, u))
            && reg'.validHas == reg.validHas + (set v | v in vs :: (t, v))
            && (Complete(reg, t) ==>
                  Complete(reg', t) && Elems(ListOf(reg', t)) == Elems(ListOf(reg, t)) + Elems(vs))
    decreases |vs|
  {
    hide Register, Complete, ListOf;
    if vs != [] {
      var front, v := vs[..|vs| - 1], vs[|vs| - 1];
      assert vs == front + [v];
      RegisterAllFiles(reg, t, front);
      RegisterFiles(RegisterAll(reg, t, front), t, v);
      assert Elems(vs) == Elems(front) + {v};
    }
  }

  /** Filing a list of voters on a complete file adds exactly them. */
  lemma {:induction false} RegisterAllKeeps(reg: Registry, t: Target, vs: seq<Address>)
    requires RegistryOk(reg)
    ensures var reg' := RegisterAll(reg, t, vs);
            && RegistryOk(reg') && reg'.exposedLeaves == reg.exposedLeaves
            && (forall u :: u != t ==> ListOf(reg', u) == ListOf(reg, u))
            && reg'.validHas == reg.validHas + (set v | v in vs :: (t, v))
            && (Complete(reg, t) ==>
                  Complete(reg', t) && Elems(ListOf(reg', t)) == Elems(ListOf(reg, t)) + Elems(vs))
    decreases |vs|
  {
    hide RegistryOk, Register, Complete, ListOf;
    RegisterAllFiles(reg, t, vs);
    if vs != [] {
      RegisterAllKeeps(reg, t, vs[..|vs| - 1]);
      RegisterKeeps(RegisterAll(reg, t, vs[..|vs| - 1]), t, vs[|vs| - 1]);
    }
  }

  lemma RememberKeeps(reg: Registry, t: Target)
    requires RegistryOk(reg) && (forall b :: NoDup(ExposedIn(reg, b)))
    requires forall b, l :: t != LeafTarget(b, l) ==> Covered(reg, b, l)
    ensures RegistryOk(Remember(reg, t)) && LeavesOk(Remember(reg, t))
    ensures forall u :: ListOf(Remember(reg, t), u) == ListOf(reg, u)
  {
    var reg' := Remember(reg, t);
    forall u ensures ListOf(reg', u) == ListOf(reg, u) {
    }
    forall b ensures NoDup(ExposedIn(reg', b)) {
      assert NoDup(ExposedIn(reg, b));
    }
    forall v ensures Exposing(reg', v) == Exposing(reg, v) {
    }
    forall b, l ensures Covered(reg', b, l) {
      assert t != LeafTarget(b, l) ==> Covered(reg, b, l);
    }
  }

  /** A list can be released: each member's counter covers it. */
  lemma Releasable(reg: Registry, t: Target)
    requires RegistryOk(reg)
    ensures CanRelease(reg, t)
  {
    forall v | v in ListOf(reg, t) ensures Less(reg.exposures, ListOf(reg, t), v) >= 0 {
      NoDupMultiplicity(ListOf(reg, t), v);
      assert t in Exposing(reg, v);
    }
  }

  lemma ReleaseKeeps(reg: Registry, t: Target)
    requires RegistryOk(reg)
    ensures CanRelease(reg, t) && RegistryOk(Release(reg, t))
    ensures forall u :: ListOf(Release(reg, t), u) == if u == t then [] else ListOf(reg, u)
    ensures LeavesOk(reg) ==> LeavesOk(Release(reg, t))
  {
    Releasable(reg, t);
    var reg' := Release(reg, t);
    forall u ensures ListOf(reg', u) == if u == t then [] else ListOf(reg, u) {
    }
    forall b ensures ExposedIn(reg', b) == ExposedIn(reg, b) {
    }
    forall v ensures Get(reg'.exposures, v) == |Exposing(reg', v)| {
      NoDupMultiplicity(ListOf(reg, t), v);
      if v in ListOf(reg, t) {
        assert t in Exposing(reg, v);
        assert Exposing(reg', v) == Exposing(reg, v) - {t};
      } else {
        assert Exposing(reg', v) == Exposing(reg, v);
      }
    }
    forall b, l ensures Covered(reg, b, l) ==> Covered(reg', b, l) {
    }
  }

  /** Releasing a list of leaves never underflows and clears exactly their lists. */
  lemma {:induction false} ReleaseLeavesKeeps(reg: Registry, b: nat, ls: seq<nat>)
    requires RegistryOk(reg)
    ensures ReleaseLeaves(reg, b, ls).Some?
    ensures var reg' := ReleaseLeaves(reg, b, ls).value;
            && RegistryOk(reg') && reg'.validHas == reg.validHas && reg'.exposedLeaves == reg.exposedLeaves
            && forall u :: ListOf(reg', u) ==
                           if u.LeafTarget? && u.batch == b && u.leaf in ls then [] else ListOf(reg, u)
    decreases |ls|
  {
    if ls != [] {
      var front, l := ls[..|ls| - 1], ls[|ls| - 1];
      assert ls == front + [l];
      ReleaseLeavesKeeps(reg, b, front);
      ReleaseKeeps(ReleaseLeaves(reg, b, front).value, LeafTarget(b, l));
    }
  }

  lemma ForgetKeeps(reg: Registry, b: nat)
    requires RegistryOk(reg) && (forall c :: NoDup(ExposedIn(reg, c)))
    requires forall c, l :: c != b ==> Covered(reg, c, l)
    requires forall l :: ListOf(reg, LeafTarget(b, l)) == []
    ensures RegistryOk(ForgetLeaves(reg, b)) && LeavesOk(ForgetLeaves(reg, b))
  {
    var reg' := ForgetLeaves(reg, b);
    forall u ensures ListOf(reg', u) == ListOf(reg, u) {
    }
    forall c ensures ExposedIn(reg', c) == if c == b then [] else ExposedIn(reg, c) {
    }
    forall v ensures Exposing(reg', v) == Exposing(reg, v) {
    }
    forall c, l ensures Covered(reg', c, l) {
      assert c != b ==> Covered(reg, c, l);
    }
  }

  // ---------- The registry and the disputes ----------

  /** Valid attesters over all settled disputes on `t`. */
  ghost function SettledVoters(ds: seq<Dispute>, t: Target): set<Address> {
    set d, v | d in ds && !d.verdict.Open? && d.target == t && v in d.validAttesters :: v
  }

  /** Valid attesters over all disputes ever opened on `t`. */
  ghost function AllVoters(ds: seq<Dispute>, t: Target): set<Address> {
    set d, v | d in ds && d.target == t && v in d.validAttesters :: v
  }

  /** A list exists only while its target is undecided; then it holds exactly the
      valid attesters of the settled disputes. Stale flags belong to terminal targets. */
  ghost predicate Live(reg: Registry, docs: Docs, ds: seq<Dispute>, t: Target) {
    && (Exists(docs, t) && !Terminal(docs, t) ==> Complete(reg, t) && Elems(ListOf(reg, t)) == SettledVoters(ds, t))
    && (Exists(docs, t) && Terminal(docs, t) ==> ListOf(reg, t) == [])
    && (!Exists(docs, t) ==> ListOf(reg, t) == [] && Complete(reg, t))
  }

  ghost predicate LiveOk(reg: Registry, docs: Docs, ds: seq<Dispute>) {
    forall t :: Live(reg, docs, ds, t)
  }

  lemma SettledVotersAdmit(ds: seq<Dispute>, d: Dispute, t: Target)
    requires d.verdict.Open?
    ensures SettledVoters(ds + [d], t) == SettledVoters(ds, t)
  {
  }

  lemma SettledVotersSettle(ds: seq<Dispute>, i: nat, d: Dispute, t: Target)
    requires i < |ds| && ds[i].verdict.Open? && d.target == ds[i].target
    ensures SettledVoters(ds[i := d], t) ==
            SettledVoters(ds, t) + (if t == d.target && !d.verdict.Open? then Elems(d.validAttesters) else {})
  {
    var ds' := ds[i := d];
    forall v | v in SettledVoters(ds, t) ensures v in SettledVoters(ds', t) {
      var x :| x in ds && !x.verdict.Open? && x.target == t && v in x.validAttesters;
      var j :| 0 <= j < |ds| && ds[j] == x;
      assert ds'[j] == x;
    }
    if t == d.target && !d.verdict.Open? {
      assert ds'[i] == d;
      forall v | v in d.validAttesters ensures v in SettledVoters(ds', t) {
      }
    }
  }
}
