/** The currency ledger: one balance with an affordability check, a debit
    that refuses to overdraw, and an unconditional credit. */
module Money {

  class MoneyController {
    var amount: int

    /** The balance is never negative. */
    ghost predicate Valid()
      reads this
    {
      amount >= 0
    }

    constructor ()
      ensures Valid() && amount == 0
    {
      amount := 0;
    }

    /** Whether the balance covers `cost`; on a valid ledger a cost of at
        most zero is always affordable. */
    function CanAfford(cost: int): (r: bool)
      reads this
      ensures r <==> cost <= amount
      ensures Valid() && cost <= 0 ==> r
    {
      amount >= cost
    }

    /** Credits `a`. A non-negative credit keeps the balance non-negative. */
    method Grant(a: int)
      modifies this
      ensures amount == old(amount) + a
      ensures old(Valid()) && a >= 0 ==> Valid()
    {
      amount := amount + a;
    }

    /** Debits `a` when the balance covers it and says whether it did; the
        balance never drops below zero through a debit. */
    method Consume(a: int) returns (ok: bool)
      modifies this
      ensures ok <==> a <= old(amount)
      ensures ok == old(CanAfford(a))
      ensures amount == if ok then old(amount) - a else old(amount)
      ensures old(Valid()) ==> Valid()
    {
      if a <= amount {
        amount := amount - a;
        return true;
      }
      return false;
    }

    method ResetAll()
      modifies this
      ensures Valid() && amount == 0
    {
      amount := 0;
    }
  }
}
