/** The part of the world state that transactions account in: balances, nonces and what kind of
    code an account carries. */
module Accounts {
  import opened Basics

  const TWO_256: nat := 0x1_0000_0000_0000_0000_0000_0000_0000_0000_0000_0000_0000_0000_0000_0000_0000_0000

  datatype Addr = Addr(id: nat)
  datatype Code = NoCode | Delegation(to: Addr) | Contract(id: nat)
  datatype Account = Account(balance: nat, nonce: nat, code: Code)

  // The accounts, the refund counter of the running transaction, and a stand-in for all the
  // rest: storage, logs, access lists.
  datatype World = World(accounts: map<Addr, Account>, refund: nat, rest: nat)

  function Get(w: World, a: Addr): Account {
    if a in w.accounts then w.accounts[a] else Account(0, 0, NoCode)
  }

  function Put(w: World, a: Addr, x: Account): World {
    w.(accounts := w.accounts[a := x])
  }

  function Credited(w: World, a: Addr, amount: nat): World {
    Put(w, a, Get(w, a).(balance := Get(w, a).balance + amount))
  }

  function Debited(w: World, a: Addr, amount: nat): World
    requires amount <= Get(w, a).balance
  {
    Put(w, a, Get(w, a).(balance := Get(w, a).balance - amount))
  }

  /* All the wei there is */

  ghost function Sum(m: map<Addr, Account>): nat {
    if m == map[] then 0
    else
      var a :| a in m;
      m[a].balance + Sum(m - {a})
  }

  ghost function Total(w: World): nat {
    Sum(w.accounts)
  }

  lemma {:induction false} SumRemove(m: map<Addr, Account>, a: Addr)
    requires a in m
    ensures Sum(m) == m[a].balance + Sum(m - {a})
    decreases |m|
  {
    var b :| b in m && Sum(m) == m[b].balance + Sum(m - {b});
    if b != a {
      SumRemove(m - {b}, a);
      SumRemove(m - {a}, b);
      assert m - {b} - {a} == m - {a} - {b};
    }
  }

  // Writing an account changes the total by the change of its balance.
  lemma {:induction false} TotalPut(w: World, a: Addr, x: Account)
    ensures Total(Put(w, a, x)) == Total(w) - Get(w, a).balance + x.balance
    ensures Get(w, a).balance <= Total(w)
  {
    var m := w.accounts;
    SumRemove(m[a := x], a);
    assert m[a := x] - {a} == m - {a};
    if a in m {
      SumRemove(m, a);
    } else {
      assert m - {a} == m;
    }
  }

  /* Nonces */

  // Nonces are 64-bit and there is less wei than 256 bits can count.
  ghost predicate Sized(w: World) {
    Total(w) < TWO_256 && forall a :: Get(w, a).nonce < TWO_64
  }

  predicate External(w: World, a: Addr) {
    !Get(w, a).code.Contract?
  }

  // The account has signed something before.
  predicate Active(w: World, a: Addr) {
    Get(w, a).nonce > 0 && External(w, a)
  }

  // No account that has signed something turns into a contract or loses count. Contracts may be
  // destroyed and start over.
  ghost predicate Forward(w: World, w': World) {
    forall a :: Active(w, a) ==> Active(w', a) && Get(w', a).nonce >= Get(w, a).nonce
  }

  lemma {:induction false} ForwardTransitive(w: World, w': World, w'': World)
    requires Forward(w, w') && Forward(w', w'')
    ensures Forward(w, w'')
  {
    forall a | Active(w, a)
      ensures Active(w'', a) && Get(w'', a).nonce >= Get(w, a).nonce
    {
      assert Active(w', a);
    }
  }

  // The signatures spent so far: an account and the nonce it signed with.
  datatype Spend = Spend(account: Addr, nonce: nat)

  ghost predicate Behind(w: World, p: Spend) {
    Active(w, p.account) && p.nonce < Get(w, p.account).nonce
  }

  // Every spent nonce lies behind its account, and none was spent twice.
  ghost predicate NoReplay(w: World, log: seq<Spend>) {
    && (forall i :: 0 <= i < |log| ==> Behind(w, log[i]))
    && (forall i, j :: 0 <= i < j < |log| ==> log[i] != log[j])
  }

  lemma {:induction false} NoReplayForward(w: World, w': World, log: seq<Spend>)
    requires NoReplay(w, log) && Forward(w, w')
    ensures NoReplay(w', log)
  {
    forall i | 0 <= i < |log| ensures Behind(w', log[i]) {
      assert Behind(w, log[i]) && Active(w, log[i].account);
    }
  }

  // Spending the nonce an external account stands at.
  lemma {:induction false} SpendNonce(w: World, a: Addr, x: Account, log: seq<Spend>)
    requires Sized(w) && NoReplay(w, log) && External(w, a)
    requires x.nonce == Get(w, a).nonce + 1 < TWO_64 && x.balance == Get(w, a).balance && !x.code.Contract?
    ensures Sized(Put(w, a, x)) && Total(Put(w, a, x)) == Total(w) && Forward(w, Put(w, a, x))
    ensures NoReplay(Put(w, a, x), log + [Spend(a, Get(w, a).nonce)])
  {
    TotalPut(w, a, x);
    var w' := Put(w, a, x);
    forall b ensures Get(w', b).nonce < TWO_64 {
      assert Get(w, b).nonce < TWO_64;
    }
    assert Forward(w, w');
    NoReplayForward(w, w', log);
    var log' := log + [Spend(a, Get(w, a).nonce)];
    forall i | 0 <= i < |log| ensures log[i] != Spend(a, Get(w, a).nonce) {
      assert Behind(w, log[i]);
    }
    assert Behind(w', Spend(a, Get(w, a).nonce));
  }

  // Only the accounts matter.
  lemma {:induction false} SameAccounts(w: World, w': World, log: seq<Spend>)
    requires Sized(w) && w.accounts == w'.accounts && NoReplay(w, log)
    ensures Sized(w') && Total(w') == Total(w) && Forward(w, w') && NoReplay(w', log)
  {
    forall a ensures Get(w', a) == Get(w, a) {
    }
    NoReplayForward(w, w', log);
  }

  // Changing a balance alone.
  lemma {:induction false} PutBalance(w: World, a: Addr, b: nat)
    requires Sized(w) && Total(w) - Get(w, a).balance + b < TWO_256
    ensures Sized(Put(w, a, Get(w, a).(balance := b))) && Forward(w, Put(w, a, Get(w, a).(balance := b)))
    ensures Total(Put(w, a, Get(w, a).(balance := b))) == Total(w) - Get(w, a).balance + b
  {
    TotalPut(w, a, Get(w, a).(balance := b));
    var w' := Put(w, a, Get(w, a).(balance := b));
    forall c ensures Get(w', c).nonce < TWO_64 {
      assert Get(w, c).nonce < TWO_64;
    }
  }

  /** The state database, as far as accounting goes. Balances are 256-bit machine integers. */
  class StateDB {
    var world: World

    constructor (w: World)
      ensures world == w
    {
      world := w;
    }

    method AddBalance(a: Addr, amount: nat)
      requires Sized(world)
      modifies this
      ensures world.refund == old(world.refund)
      ensures Total(old(world)) + amount < TWO_256 ==>
                && Sized(world) && Total(world) == Total(old(world)) + amount && Forward(old(world), world)
                && world == Credited(old(world), a, amount)
    {
      var x := Get(world, a);
      TotalPut(world, a, x);
      if Total(world) + amount < TWO_256 {
        PutBalance(world, a, x.balance + amount);
      }
      world := Put(world, a, x.(balance := (x.balance + amount) % TWO_256));
    }

    method SubBalance(a: Addr, amount: nat)
      requires Sized(world)
      modifies this
      ensures world.refund == old(world.refund)
      ensures amount <= Get(old(world), a).balance ==>
                && Sized(world) && Total(world) == Total(old(world)) - amount && Forward(old(world), world)
                && world == Debited(old(world), a, amount)
    {
      var x := Get(world, a);
      TotalPut(world, a, x);
      if amount <= x.balance {
        PutBalance(world, a, x.balance - amount);
      }
      world := Put(world, a, x.(balance := (x.balance - amount) % TWO_256));
    }
  }
}
