/** Record types and constant tables of the game: production-line definitions
    (offers), their runtime state, managers and countdown timers. */
module Models {

  /** Immutable definition of a production line. An omitted default level is 0. */
  datatype Offer = Offer(name: string, price: int, revenue: int, processingTime: int, defaultLevel: nat := 0)

  /** The definitions the game ships with, in display order. */
  const Offers: seq<Offer> := [
    Offer("Earth", 4, 5, 1, 1),
    Offer("Moon", 200, 100, 2),
    Offer("Mars", 10000, 5000, 6),
    Offer("System", 20000, 30000, 15),
    Offer("Galaxy", 400000, 110000, 30),
    Offer("Universe", 20000000, 5000000, 60)
  ]

  /** What the engine needs of a definition: revenue is never negative (so
      completions never debit the ledger) and a cycle takes positive time
      (so it can be the duration of a timer). */
  predicate WellFormedOffer(def: Offer)
  {
    def.revenue >= 0 && def.processingTime > 0
  }

  /** Runtime state of one production line. `timerId` is -1 while idle. */
  datatype RuntimeBusiness = RuntimeBusiness(
    definition: Offer,
    level: nat,
    name: string,
    price: int,
    revenue: int,
    processingTime: int,
    timerId: int,
    hasManager: bool)

  /** The state a line starts in: the definition's name, price, revenue and
      cycle time copied as they are (not recomputed for `level`), idle and
      without a manager. */
  function NewRuntimeBusiness(def: Offer, level: nat): (b: RuntimeBusiness)
    ensures b.definition == def && b.level == level && b.name == def.name
    ensures b.price == def.price && b.revenue == def.revenue && b.processingTime == def.processingTime
    ensures b.timerId == -1 && !b.hasManager
  {
    RuntimeBusiness(def, level, def.name, def.price, def.revenue, def.processingTime, -1, false)
  }

  /** The level rule: base values up to level 1, base times level above it. */
  function PriceAt(def: Offer, level: nat): (p: int)
    ensures level >= 1 ==> p == def.price * level
    ensures level == 0 ==> p == def.price
  {
    if level > 1 then def.price * level else def.price
  }

  function RevenueAt(def: Offer, level: nat): (v: int)
    ensures level >= 1 ==> v == def.revenue * level
    ensures level == 0 ==> v == def.revenue
  {
    if level > 1 then def.revenue * level else def.revenue
  }

  /** From level 1 on, each level adds the base price and the base revenue
      once more. */
  lemma LevelStep(def: Offer, level: nat)
    requires level >= 1
    ensures PriceAt(def, level + 1) == PriceAt(def, level) + def.price
    ensures RevenueAt(def, level + 1) == RevenueAt(def, level) + def.revenue
  {
    assert def.price * (level + 1) == def.price * level + def.price;
    assert def.revenue * (level + 1) == def.revenue * level + def.revenue;
  }

  /** With non-negative base values, price and revenue never fall as the
      level rises. */
  lemma {:induction false} LevelRuleMonotone(def: Offer, l1: nat, l2: nat)
    requires def.price >= 0 && def.revenue >= 0 && l1 <= l2
    ensures PriceAt(def, l1) <= PriceAt(def, l2) && RevenueAt(def, l1) <= RevenueAt(def, l2)
    decreases l2 - l1
  {
    if l1 < l2 {
      LevelRuleMonotone(def, l1, l2 - 1);
      if l2 - 1 >= 1 {
        LevelStep(def, l2 - 1);
      }
    }
  }

  /** A line's price and revenue recomputed from its definition and level;
      nothing else about the line changes. */
  function Recalculated(b: RuntimeBusiness): (r: RuntimeBusiness)
    ensures r.price == PriceAt(b.definition, b.level) && r.revenue == RevenueAt(b.definition, b.level)
    ensures r.(price := b.price, revenue := b.revenue) == b
  {
    b.(price := PriceAt(b.definition, b.level), revenue := RevenueAt(b.definition, b.level))
  }

  /** A line whose price and revenue agree with the level rule. */
  predicate FollowsLevelRule(b: RuntimeBusiness)
  {
    b.price == PriceAt(b.definition, b.level) && b.revenue == RevenueAt(b.definition, b.level)
  }

  /** An unlockable manager; `target` is the definition of the line it runs. */
  datatype Manager = Manager(name: string, price: int, target: Offer)

  /** The managers the game ships with, the i-th one running the i-th offer. */
  const Managers: seq<Manager> := [
    Manager("Jeff Bezos", 100, Offers[0]),
    Manager("Ellon Musk", 500, Offers[1]),
    Manager("Orianna", 1000, Offers[2]),
    Manager("Shaco", 10000, Offers[3]),
    Manager("Ekko", 1000000, Offers[4]),
    Manager("Alexandre ;)", 5000000000, Offers[5])
  ]

  /** A countdown timer: `time` is the elapsed time, which may exceed
      `duration` until the engine processes it. The completion handler is not
      a field: every timer the game creates has the same one. */
  datatype Timer = Timer(id: int, time: int, duration: int)

  function NewTimer(id: int, duration: int): (t: Timer)
    ensures t.id == id && t.duration == duration && t.time == 0
  {
    Timer(id, 0, duration)
  }

  /** Every shipped definition can drive a timer and never debits the ledger. */
  lemma OffersWellFormed()
    ensures forall i :: 0 <= i < |Offers| ==> WellFormedOffer(Offers[i])
  {
  }

  /** Only "Earth" starts unlocked; all other lines start at the omitted-level default 0. */
  lemma OffersDefaultLevels()
    ensures Offers[0].name == "Earth" && Offers[0].defaultLevel == 1
    ensures forall i :: 1 <= i < |Offers| ==> Offers[i].defaultLevel == 0
  {
  }

  /** Since every default level is 0 or 1, a freshly constructed line already
      follows the level rule, although its constructor does not recompute. */
  lemma {:induction false} InitialLinesFollowLevelRule(def: Offer)
    requires def.defaultLevel <= 1
    ensures FollowsLevelRule(NewRuntimeBusiness(def, def.defaultLevel))
  {
  }

  lemma ShippedLinesFollowLevelRule()
    ensures forall i :: 0 <= i < |Offers| ==> FollowsLevelRule(NewRuntimeBusiness(Offers[i], Offers[i].defaultLevel))
  {
    forall i | 0 <= i < |Offers|
      ensures FollowsLevelRule(NewRuntimeBusiness(Offers[i], Offers[i].defaultLevel))
    {
      InitialLinesFollowLevelRule(Offers[i]);
    }
  }

  /** The definitions are pairwise different values, so comparing them by value
      identifies a line exactly as comparing references would. */
  lemma OffersDistinct()
    ensures forall i, j :: 0 <= i < j < |Offers| ==> Offers[i] != Offers[j]
  {
  }

  /** Managers and offers correspond one to one, by position. */
  lemma ManagersTargetOffers()
    ensures |Managers| == |Offers|
    ensures forall i :: 0 <= i < |Managers| ==> Managers[i].target == Offers[i]
  {
  }
}
