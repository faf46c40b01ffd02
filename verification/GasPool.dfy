/** The gas that is left to the transactions of a block. */
module GasPools {
  import opened Basics
  import opened Accounts

  class GasPool {
    var gas: nat

    ghost predicate Valid()
      reads this
    {
      gas < TWO_64
    }

    constructor ()
      ensures Valid() && gas == 0
    {
      gas := 0;
    }

    // Adding beyond 64 bits is a panic, so callers have to rule it out.
    method AddGas(amount: nat)
      requires Valid() && gas <= TWO_64 - 1 - amount
      modifies this
      ensures Valid() && gas == old(gas) + amount
    {
      gas := (gas + amount) % TWO_64;
    }

    method SubGas(amount: nat) returns (ok: bool)
      requires Valid()
      modifies this
      ensures Valid() && (ok <==> amount <= old(gas))
      ensures gas == if ok then old(gas) - amount else old(gas)
    {
      ok := amount <= gas;
      if ok {
        gas := gas - amount;
      }
    }
  }
}
