/** The verifier roster: an array with a membership flag and a counter beside it. */
module Committee {
  import opened Common

  datatype Roster = Roster(members: seq<Address>, registered: set<Address>, count: nat)

  ghost predicate RosterOk(r: Roster) {
    && NoDup(r.members)
    && r.registered == Elems(r.members)
    && r.count == |r.members|
  }

  function Enlist(r: Roster, v: Address): Roster {
    Roster(r.members + [v], r.registered + {v}, r.count + 1)
  }

  /** Overwrite position `i` with the last member and drop the last slot. */
  function SwapAndPop(xs: seq<Address>, i: nat): seq<Address>
    requires i < |xs|
  {
    xs[i := xs[|xs| - 1]][..|xs| - 1]
  }

  /** Position of the first occurrence, or the length when there is none. */
  function IndexOf(xs: seq<Address>, v: Address): (i: nat)
    ensures i <= |xs| && v !in xs[..i] && (i < |xs| ==> xs[i] == v)
  {
    if xs == [] then 0
    else if xs[0] == v then 0
    else
      var i := IndexOf(xs[1..], v);
      assert xs[..i + 1] == [xs[0]] + xs[1..][..i];
      i + 1
  }

  /** None when the counter would underflow. */
  function Discharge(r: Roster, v: Address): Option<Roster> {
    var i := IndexOf(r.members, v);
    if i == |r.members| then Some(r.(registered := r.registered - {v}))
    else if r.count == 0 then None
    else Some(Roster(SwapAndPop(r.members, i), r.registered - {v}, r.count - 1))
  }

  lemma EnlistKeeps(r: Roster, v: Address)
    requires RosterOk(r) && v !in r.registered
    ensures RosterOk(Enlist(r, v))
  {
  }

  lemma SwapAndPopRemoves(xs: seq<Address>, i: nat)
    requires i < |xs|
    ensures multiset(SwapAndPop(xs, i)) == multiset(xs) - multiset{xs[i]}
  {
    var n := |xs|;
    var last := xs[n - 1];
    assert xs == xs[..n - 1] + [last];
    if i < n - 1 {
      assert xs == xs[..i] + [xs[i]] + xs[i + 1..n - 1] + [last];
      assert SwapAndPop(xs, i) == xs[..i] + [last] + xs[i + 1..n - 1];
    } else {
      assert SwapAndPop(xs, i) == xs[..n - 1];
    }
  }

  /** Deregistration removes exactly the leaving member and keeps the three
      representations in agreement; the counter never underflows. */
  lemma DischargeRemoves(r: Roster, v: Address)
    requires RosterOk(r) && v in r.registered
    ensures Discharge(r, v).Some?
    ensures var r' := Discharge(r, v).value;
            && RosterOk(r')
            && multiset(r'.members) == multiset(r.members) - multiset{v}
            && r'.registered == r.registered - {v} && r'.count == r.count - 1
  {
    var i := IndexOf(r.members, v);
    assert v in r.members;
    var r' := Discharge(r, v).value;
    SwapAndPopRemoves(r.members, i);
    forall w ensures w in r'.members <==> w in r.members && w != v {
      NoDupMultiplicity(r.members, w);
      assert w in r'.members <==> w in multiset(r'.members);
    }
  }
}
