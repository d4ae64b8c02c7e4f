/** Ether balances by address, and the total over all addresses. */
module Ledger {
  type Address = nat

  type Balances = map<Address, nat>

  function BalanceOf(b: Balances, a: Address): nat {
    if a in b then b[a] else 0
  }

  function Move(b: Balances, from: Address, to: Address, amount: nat): Balances
    requires amount <= BalanceOf(b, from)
  {
    var debited := b[from := BalanceOf(b, from) - amount];
    debited[to := BalanceOf(debited, to) + amount]
  }

  ghost function Pick(b: Balances): (a: Address)
    requires b != map[]
    ensures a in b
  {
    var a :| a in b;
    a
  }

  ghost function Total(b: Balances): nat
    decreases |b|
  {
    if b == map[] then 0 else b[Pick(b)] + Total(b - {Pick(b)})
  }

  lemma {:induction false} TotalSplit(b: Balances, a: Address)
    requires a in b
    ensures Total(b) == b[a] + Total(b - {a})
    decreases |b|
  {
    var x := Pick(b);
    if x != a {
      TotalSplit(b - {x}, a);
      TotalSplit(b - {a}, x);
      assert b - {x} - {a} == b - {a} - {x};
    }
  }

  lemma TotalUpdate(b: Balances, a: Address, v: nat)
    ensures Total(b[a := v]) == Total(b) - BalanceOf(b, a) + v
  {
    TotalSplit(b[a := v], a);
    if a in b {
      TotalSplit(b, a);
      assert b[a := v] - {a} == b - {a};
    } else {
      assert b[a := v] - {a} == b;
    }
  }

  /** Moving ether between any two addresses, equal or not, keeps the total. */
  lemma MoveConserves(b: Balances, from: Address, to: Address, amount: nat)
    requires amount <= BalanceOf(b, from)
    ensures Total(Move(b, from, to, amount)) == Total(b)
  {
    var debited := b[from := BalanceOf(b, from) - amount];
    TotalUpdate(b, from, BalanceOf(b, from) - amount);
    TotalUpdate(debited, to, BalanceOf(debited, to) + amount);
  }
}
