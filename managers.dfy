/** The unlock registry: one flag per manager definition, index-aligned with
    the definition list, and purchases gated on the ledger. */
module Managers {
  import opened Wrappers
  import opened Models
  import Money

  /** Position of the first manager whose target is `def`, or -1. */
  function IndexOf(ms: seq<Manager>, def: Offer): (r: int)
    ensures -1 <= r < |ms|
    ensures r == -1 <==> forall j :: 0 <= j < |ms| ==> ms[j].target != def
    ensures r >= 0 ==> ms[r].target == def && forall j :: 0 <= j < r ==> ms[j].target != def
  {
    if ms == [] then -1
    else if ms[0].target == def then 0
    else
      var r := IndexOf(ms[1..], def);
      assert forall j :: 1 <= j < |ms| ==> ms[1..][j - 1] == ms[j];
      if r == -1 then -1 else r + 1
  }

  /** With the shipped tables, the manager of the i-th offer is the i-th
      manager, so every listed offer has one. */
  lemma ShippedManagerIndex(i: nat)
    requires i < |Offers|
    ensures IndexOf(Managers, Offers[i]) == i
  {
    ManagersTargetOffers();
    OffersDistinct();
  }

  class ManagerController {
    const managerList: seq<Manager>
    var unlockedFlags: seq<bool>
    const money: Money.MoneyController

    ghost predicate Valid()
      reads this
    {
      |unlockedFlags| == |managerList|
    }

    /** Every manager starts locked. */
    constructor (money: Money.MoneyController, definitionList: seq<Manager>)
      ensures Valid() && this.money == money && managerList == definitionList
      ensures forall i :: 0 <= i < |unlockedFlags| ==> !unlockedFlags[i]
    {
      managerList := definitionList;
      this.money := money;
      var flags: seq<bool> := [];
      while |flags| < |definitionList|
        invariant |flags| <= |definitionList|
        invariant forall i :: 0 <= i < |flags| ==> !flags[i]
      {
        flags := flags + [false];
      }
      unlockedFlags := flags;
    }

    /** The linear scan for the manager of `def`. */
    method FindManagerIndex(def: Offer) returns (idx: int)
      ensures idx == IndexOf(managerList, def)
    {
      var i := 0;
      while i < |managerList|
        invariant 0 <= i <= |managerList|
        invariant forall j :: 0 <= j < i ==> managerList[j].target != def
      {
        if managerList[i].target == def {
          return i;
        }
        i := i + 1;
      }
      return -1;
    }

    /** Buys the manager of `def` when there is one and the ledger covers its
        price: debits the price, sets its flag, and hands the manager to the
        unlock notification (returned as `notified`). Otherwise nothing changes. */
    method BuyManager(def: Offer) returns (ok: bool, notified: Option<Manager>)
      requires Valid()
      modifies this, money
      ensures Valid()
      ensures var idx := IndexOf(managerList, def);
        ok <==> idx >= 0 && managerList[idx].price <= old(money.amount)
      ensures ok ==> var idx := IndexOf(managerList, def);
        money.amount == old(money.amount) - managerList[idx].price &&
        unlockedFlags == old(unlockedFlags)[idx := true] &&
        notified == Some(managerList[idx])
      ensures !ok ==> money.amount == old(money.amount) && unlockedFlags == old(unlockedFlags) && notified == None
    {
      var managerIdx := FindManagerIndex(def);
      if managerIdx >= 0 && managerIdx < |managerList| {
        var manager := managerList[managerIdx];
        if money.CanAfford(manager.price) {
          var _ := money.Consume(manager.price);
          unlockedFlags := unlockedFlags[managerIdx := true];
          return true, Some(manager);
        }
      }
      return false, None;
    }

    method FindManager(def: Offer) returns (r: Option<Manager>)
      ensures var idx := IndexOf(managerList, def);
        r == if idx >= 0 then Some(managerList[idx]) else None
    {
      var managerIdx := FindManagerIndex(def);
      if managerIdx >= 0 && managerIdx < |managerList| {
        return Some(managerList[managerIdx]);
      }
      return None;
    }

    method IsUnlocked(def: Offer) returns (r: bool)
      requires Valid()
      ensures var idx := IndexOf(managerList, def);
        r <==> idx >= 0 && unlockedFlags[idx]
    {
      var managerIdx := FindManagerIndex(def);
      if managerIdx >= 0 && managerIdx < |managerList| {
        return unlockedFlags[managerIdx];
      }
      return false;
    }

    method CanAfford(def: Offer) returns (r: bool)
      ensures var idx := IndexOf(managerList, def);
        r <==> idx >= 0 && managerList[idx].price <= money.amount
    {
      var managerIdx := FindManagerIndex(def);
      if managerIdx >= 0 && managerIdx < |managerList| {
        return money.CanAfford(managerList[managerIdx].price);
      }
      return false;
    }

    /** The flags as they are persisted. */
    method WriteLocal() returns (saved: seq<bool>)
      ensures saved == unlockedFlags
    {
      saved := unlockedFlags;
    }

    /** Restores the flags from persisted data: only the first
        min(flags, saved) entries are copied; absent data changes nothing. */
    method ReadLocal(loaded: Option<seq<bool>>)
      requires Valid()
      modifies this
      ensures Valid()
      ensures loaded.None? ==> unlockedFlags == old(unlockedFlags)
      ensures loaded.Some? ==> forall i :: 0 <= i < |unlockedFlags| ==>
        unlockedFlags[i] == if i < |loaded.value| then loaded.value[i] else old(unlockedFlags)[i]
    {
      if loaded.Some? {
        var data := loaded.value;
        var indexCap := if |unlockedFlags| < |data| then |unlockedFlags| else |data|;
        var i := 0;
        while i < indexCap
          invariant 0 <= i <= indexCap && |unlockedFlags| == |old(unlockedFlags)|
          invariant forall j :: 0 <= j < |unlockedFlags| ==>
            unlockedFlags[j] == if j < i then data[j] else old(unlockedFlags)[j]
        {
          unlockedFlags := unlockedFlags[i := data[i]];
          i := i + 1;
        }
      }
    }

    /** Locks every manager again. */
    method ResetAll()
      requires Valid()
      modifies this
      ensures Valid()
      ensures forall i :: 0 <= i < |unlockedFlags| ==> !unlockedFlags[i]
    {
      var i := 0;
      while i < |unlockedFlags|
        invariant 0 <= i <= |unlockedFlags| == |managerList|
        invariant forall j :: 0 <= j < i ==> !unlockedFlags[j]
      {
        unlockedFlags := unlockedFlags[i := false];
        i := i + 1;
      }
    }
  }

  /** Saving the flags and loading them back changes nothing. */
  method SaveLoadRoundTrip(c: ManagerController)
    requires c.Valid()
    modifies c
    ensures c.Valid() && c.unlockedFlags == old(c.unlockedFlags)
  {
    var saved := c.WriteLocal();
    c.ReadLocal(Some(saved));
  }
}
