/** The money: two stake pools per account, the pull-payment ledger, the
    contract's balance, and the wei it retains for good. */
module Treasury {
  import opened Common

  /** `credited`, `withdrawn` and `retained` are history: what each account was
      ever credited and paid, and the burned half-bonds and rounding dust. */
  datatype Bank = Bank(
    relayStake: map<Address, nat>,
    verifierStake: map<Address, nat>,
    pending: map<Address, nat>,
    credited: map<Address, nat>,
    withdrawn: map<Address, nat>,
    balance: nat,
    retained: nat)

  // ---------- Operations ----------

  function Credit(b: Bank, to: Address, amount: nat): Bank {
    if amount > 0 then b.(pending := Add(b.pending, to, amount), credited := Add(b.credited, to, amount)) else b
  }

  /** What both pools of an account hold together. */
  function Pools(b: Bank, a: Address): nat {
    Get(b.relayStake, a) + Get(b.verifierStake, a)
  }

  function TakeRelay(b: Bank, from: Address, n: nat): Bank
    requires n <= Get(b.relayStake, from)
  {
    b.(relayStake := b.relayStake[from := Get(b.relayStake, from) - n])
  }

  function TakeVerifier(b: Bank, from: Address, n: nat): Bank
    requires n <= Get(b.verifierStake, from)
  {
    b.(verifierStake := b.verifierStake[from := Get(b.verifierStake, from) - n])
  }

  /** Deduct from the named pool first and fall back to the other one. */
  function Collect(b: Bank, from: Address, amount: nat, fromVerifierPool: bool): (r: (Bank, nat))
    ensures r.1 == Min(amount, Pools(b, from)) == Pools(b, from) - Pools(r.0, from)
  {
    var rs, vs := Get(b.relayStake, from), Get(b.verifierStake, from);
    if fromVerifierPool then
      var v := Min(vs, amount);
      var b1 := TakeVerifier(b, from, v);
      if amount == v then (b1, v) else (TakeRelay(b1, from, Min(rs, amount - v)), v + Min(rs, amount - v))
    else
      var r := Min(rs, amount);
      var b1 := TakeRelay(b, from, r);
      if amount == r then (b1, r) else (TakeVerifier(b1, from, Min(vs, amount - r)), r + Min(vs, amount - r))
  }

  function Slash(b: Bank, from: Address, amount: nat, to: Address, fromVerifierPool: bool): Bank {
    var (b1, deducted) := Collect(b, from, amount, fromVerifierPool);
    Credit(b1, to, deducted)
  }

  /** Slash every listed account, verifier pool first, in favour of `to`. */
  function SlashAll(b: Bank, list: seq<Address>, amount: nat, to: Address): Bank {
    if list == [] then b else
      Slash(SlashAll(b, list[..|list| - 1], amount, to), list[|list| - 1], amount, to, true)
  }

  function CreditAll(b: Bank, list: seq<Address>, share: nat): Bank {
    if list == [] then b else Credit(CreditAll(b, list[..|list| - 1], share), list[|list| - 1], share)
  }

  /** Equal shares; the remainder is not paid out. */
  function PayAttesters(b: Bank, list: seq<Address>, total: nat): Bank {
    if |list| == 0 || total == 0 then b else CreditAll(b, list, total / |list|)
  }

  /** What `PayAttesters` leaves unpaid. */
  function Unpaid(n: nat, total: nat): nat {
    if n == 0 then total else total % n
  }

  function Retain(b: Bank, amount: nat): Bank {
    b.(retained := b.retained + amount)
  }

  // ---------- Conservation ----------

  /** Everything the contract owes to accounts. */
  ghost function Owed(b: Bank): nat {
    Sum(b.relayStake) + Sum(b.verifierStake) + Sum(b.pending)
  }

  /** Each account's credits are what it was paid plus what it can still claim. */
  ghost predicate PaidOnce(b: Bank) {
    forall a :: Get(b.credited, a) == Get(b.withdrawn, a) + Get(b.pending, a)
  }

  /** The parts a ledger operation leaves alone. */
  predicate SameTill(b: Bank, c: Bank) {
    c.balance == b.balance && c.retained == b.retained && c.withdrawn == b.withdrawn
  }

  lemma CreditConserves(b: Bank, to: Address, amount: nat)
    ensures var c := Credit(b, to, amount);
            && Owed(c) == Owed(b) + amount && Sum(c.pending) == Sum(b.pending) + amount && SameTill(b, c)
            && c.relayStake == b.relayStake && c.verifierStake == b.verifierStake
    ensures PaidOnce(b) ==> PaidOnce(Credit(b, to, amount))
  {
    hide Sum;
    SumPut(b.pending, to, Get(b.pending, to) + amount);
  }

  lemma TakeConserves(b: Bank, from: Address, n: nat)
    ensures n <= Get(b.relayStake, from) ==>
              Owed(TakeRelay(b, from, n)) + n == Owed(b)
    ensures n <= Get(b.verifierStake, from) ==>
              Owed(TakeVerifier(b, from, n)) + n == Owed(b)
  {
    hide Sum;
    if n <= Get(b.relayStake, from) {
      SumPut(b.relayStake, from, Get(b.relayStake, from) - n);
    }
    if n <= Get(b.verifierStake, from) {
      SumPut(b.verifierStake, from, Get(b.verifierStake, from) - n);
    }
  }

  lemma CollectVerifierFirst(b: Bank, from: Address, amount: nat)
    ensures var (c, deducted) := Collect(b, from, amount, true); Owed(c) + deducted == Owed(b)
  {
    hide Sum, Owed;
    var v := Min(Get(b.verifierStake, from), amount);
    TakeConserves(b, from, v);
    TakeConserves(TakeVerifier(b, from, v), from, Min(Get(b.relayStake, from), amount - v));
  }

  lemma CollectRelayFirst(b: Bank, from: Address, amount: nat)
    ensures var (c, deducted) := Collect(b, from, amount, false); Owed(c) + deducted == Owed(b)
  {
    hide Sum, Owed;
    var r := Min(Get(b.relayStake, from), amount);
    TakeConserves(b, from, r);
    TakeConserves(TakeRelay(b, from, r), from, Min(Get(b.verifierStake, from), amount - r));
  }

  lemma CollectConserves(b: Bank, from: Address, amount: nat, fromVerifierPool: bool)
    ensures var (c, deducted) := Collect(b, from, amount, fromVerifierPool);
            Owed(c) + deducted == Owed(b) && c.pending == b.pending && c.credited == b.credited && SameTill(b, c)
  {
    hide Sum, Owed;
    CollectVerifierFirst(b, from, amount);
    CollectRelayFirst(b, from, amount);
  }

  lemma {:induction false} SlashAllConserves(b: Bank, list: seq<Address>, amount: nat, to: Address)
    ensures var c := SlashAll(b, list, amount, to); Owed(c) == Owed(b) && SameTill(b, c)
    ensures PaidOnce(b) ==> PaidOnce(SlashAll(b, list, amount, to))
    decreases |list|
  {
    hide Sum;
    if list != [] {
      SlashAllConserves(b, list[..|list| - 1], amount, to);
      var b1 := SlashAll(b, list[..|list| - 1], amount, to);
      CollectConserves(b1, list[|list| - 1], amount, true);
      var (b2, deducted) := Collect(b1, list[|list| - 1], amount, true);
      CreditConserves(b2, to, deducted);
    }
  }

  /** `c` is `b` after one slash of `a`: the amount or all it has, verifier pool first. */
  ghost predicate Slashed(b: Bank, c: Bank, a: Address, amount: nat) {
    && Pools(b, a) - Pools(c, a) == Min(amount, Pools(b, a))
    && Get(b.verifierStake, a) - Get(c.verifierStake, a) == Min(amount, Get(b.verifierStake, a))
  }

  ghost predicate SamePools(b: Bank, c: Bank, a: Address) {
    Get(c.relayStake, a) == Get(b.relayStake, a) && Get(c.verifierStake, a) == Get(b.verifierStake, a)
  }

  lemma SlashTakes(b: Bank, from: Address, amount: nat, to: Address, a: Address)
    ensures var c := Slash(b, from, amount, to, true);
            if a == from then Slashed(b, c, a, amount) else SamePools(b, c, a)
  {
  }

  /** Slashing a duplicate-free list takes from each member, once, the amount or
      all it has, verifier pool first, and takes nothing from anyone else. */
  lemma {:induction false} SlashAllTakes(b: Bank, list: seq<Address>, amount: nat, to: Address, a: Address)
    requires NoDup(list)
    ensures var c := SlashAll(b, list, amount, to);
            if a in list then Slashed(b, c, a, amount) else SamePools(b, c, a)
    decreases |list|
  {
    hide Slash;
    if list != [] {
      var front, last := list[..|list| - 1], list[|list| - 1];
      assert list == front + [last];
      SlashAllTakes(b, front, amount, to, a);
      SlashTakes(SlashAll(b, front, amount, to), last, amount, to, a);
    }
  }

  function Times(n: nat, share: nat): nat {
    n * share
  }

  lemma {:induction false} CreditAllConserves(b: Bank, list: seq<Address>, share: nat)
    ensures var c := CreditAll(b, list, share);
            && Owed(c) == Owed(b) + Times(|list|, share) && Sum(c.pending) == Sum(b.pending) + Times(|list|, share)
            && SameTill(b, c) && c.relayStake == b.relayStake && c.verifierStake == b.verifierStake
    ensures PaidOnce(b) ==> PaidOnce(CreditAll(b, list, share))
    decreases |list|
  {
    if list != [] {
      hide Sum;
      var front := list[..|list| - 1];
      CreditAllConserves(b, front, share);
      CreditConserves(CreditAll(b, front, share), list[|list| - 1], share);
      TimesSuccessor(|front|, share);
    }
  }

  lemma TimesSuccessor(n: nat, share: nat)
    ensures Times(n + 1, share) == Times(n, share) + share
  {
  }

  lemma UnpaidRemainder(n: nat, total: nat)
    requires n > 0
    ensures Times(n, total / n) + Unpaid(n, total) == total && Unpaid(n, total) < n
  {
  }

  /** Attesters are paid the total except an exactly known remainder. */
  lemma PayConserves(b: Bank, list: seq<Address>, total: nat)
    ensures var c := PayAttesters(b, list, total);
            && Unpaid(|list|, total) <= total
            && Owed(c) == Owed(b) + total - Unpaid(|list|, total)
            && Sum(c.pending) == Sum(b.pending) + total - Unpaid(|list|, total)
            && SameTill(b, c) && c.relayStake == b.relayStake && c.verifierStake == b.verifierStake
    ensures PaidOnce(b) ==> PaidOnce(PayAttesters(b, list, total))
  {
    hide Sum;
    if |list| > 0 {
      CreditAllConserves(b, list, total / |list|);
      UnpaidRemainder(|list|, total);
    }
  }

  /** Each member of a duplicate-free list is paid exactly one share. */
  lemma {:induction false} CreditAllPays(b: Bank, list: seq<Address>, share: nat, a: Address)
    requires NoDup(list)
    ensures Get(CreditAll(b, list, share).pending, a) == Get(b.pending, a) + (if a in list then share else 0)
    decreases |list|
  {
    if list != [] {
      CreditAllPays(b, list[..|list| - 1], share, a);
    }
  }

  /** Splitting a collected slash 60/40 and the 40 among `n` attesters loses at most `n` wei. */
  lemma FraudDust(collected: nat, n: nat)
    requires n > 0
    ensures collected * 3 / 5 + collected * 2 / 5 <= collected <= collected * 3 / 5 + collected * 2 / 5 + 1
    ensures collected - collected * 3 / 5 - collected * 2 / 5 + Unpaid(n, collected * 2 / 5) <= n
  {
    assert (collected * 2 / 5) % n < n;
  }
}
