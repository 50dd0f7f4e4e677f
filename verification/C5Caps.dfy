/** The caps on number and money, per item, per cycle and in total, and why they hold over any number of cycles. */
module C5Caps {
  import opened Prelude
  import opened C5Ledger
  import opened C5Picking
  import opened C5World
  import opened C5Booking

  datatype Strategy = ByListing | Quick
  datatype Settings = Settings(strategy: Strategy, maxTotalSpend: real, maxBuyPerCycle: int, minBalanceReserve: real, errorCooldownSec: int)
  datatype Item = Item(name: string, maxPrice: real, maxQty: int, maxSpend: real)

  // ----- The caps over one cycle -----

  /** What is left under a cap; no cap is no limit. */
  function Left(cap: real, used: real): Option<real> { if cap > 0.0 then Some(cap - used) else None }

  function Least(limit: Option<real>, money: real): real {
    match limit
    case Some(x) => MinReal(x, money)
    case None => money
  }

  predicate AboveEps(limit: Option<real>) { limit.Some? ==> limit.value > EPS }

  function QtyLeft(item: Item, totals: map<string, Total>): int { item.maxQty - TotalOf(totals, item.name).qty }

  function SpendLeft(item: Item, totals: map<string, Total>): Option<real> { Left(item.maxSpend, TotalOf(totals, item.name).spent) }

  /** Neither its number nor its spending cap is reached. */
  predicate Wanted(item: Item, totals: map<string, Total>) {
    QtyLeft(item, totals) > 0 && AboveEps(SpendLeft(item, totals))
  }

  function LowestPrice(stats: map<string, Option<real>>, name: string): Option<real> {
    if name in stats && stats[name].Some? && stats[name].value > 0.0 then stats[name] else None
  }

  ghost function NamesOf(items: seq<Item>): set<string> {
    set k | 0 <= k < |items| :: items[k].name
  }

  /** The watch list is checked on saving: no name twice, and the prices are above zero. */
  ghost predicate ValidList(items: seq<Item>) {
    forall i :: 0 <= i < |items| ==> 0.0 < items[i].maxPrice && items[i].name !in NamesOf(items[..i])
  }

  /** An item stands at most at its caps, or where it stood before. */
  ghost predicate WithinCaps(before: Ledger, ledger: Ledger, item: Item) {
    && ledger.Qty(Some(item.name)) <= Max(before.Qty(Some(item.name)), item.maxQty)
    && (item.maxSpend > 0.0 ==> ledger.Spent(Some(item.name)) <= MaxReal(before.Spent(Some(item.name)), item.maxSpend + EPS))
  }

  ghost predicate WithinTotals(before: Ledger, ledger: Ledger, settings: Settings) {
    && ledger.Qty(None) <= before.Qty(None) + Max(0, settings.maxBuyPerCycle)
    && (settings.maxTotalSpend > 0.0 ==> ledger.Spent(None) <= MaxReal(before.Spent(None), settings.maxTotalSpend + EPS))
  }

  ghost predicate Unmoved(before: Ledger, ledger: Ledger, name: string) {
    ledger.Qty(Some(name)) == before.Qty(Some(name)) && ledger.Spent(Some(name)) == before.Spent(Some(name))
  }

  /** The first `i` items are done. */
  ghost predicate Cycling(before: Ledger, ledger: Ledger, items: seq<Item>, i: nat, settings: Settings, cycleLeft: int, budget: Option<real>)
    requires i <= |items|
  {
    && Keeps(before, ledger)
    && (forall k :: 0 <= k < i ==> WithinCaps(before, ledger, items[k]))
    && (forall name :: name !in NamesOf(items[..i]) ==> Unmoved(before, ledger, name))
    && Counting(before, ledger, settings, cycleLeft, budget)
  }

  ghost predicate Counting(before: Ledger, ledger: Ledger, settings: Settings, cycleLeft: int, budget: Option<real>) {
    && ledger.Qty(None) == before.Qty(None) + settings.maxBuyPerCycle - cycleLeft
    && (cycleLeft == settings.maxBuyPerCycle || cycleLeft >= 0)
    && budget == Left(settings.maxTotalSpend, ledger.Spent(None))
    && (ledger.Spent(None) == before.Spent(None) || (budget.Some? ==> budget.value >= -EPS))
  }

  lemma {:induction false} NamesGrow(items: seq<Item>, i: nat)
    requires i < |items|
    ensures NamesOf(items[..i + 1]) == NamesOf(items[..i]) + {items[i].name}
  {
    var longer, shorter := items[..i + 1], items[..i];
    forall name | name in NamesOf(shorter) ensures name in NamesOf(longer) {
      var k :| 0 <= k < |shorter| && shorter[k].name == name;
      assert longer[k].name == name;
    }
    assert longer[i].name == items[i].name;
    forall name | name in NamesOf(longer) ensures name in NamesOf(shorter) + {items[i].name} {
      var k :| 0 <= k < |longer| && longer[k].name == name;
      assert k < i ==> shorter[k].name == name;
    }
  }

  lemma {:induction false} KeepsTwice(first: Ledger, second: Ledger, third: Ledger)
    requires Keeps(first, second) && Keeps(second, third)
    ensures Keeps(first, third)
  {
    forall no ensures KeepsAt(first, third, no) {
      assert KeepsAt(first, second, no) && KeepsAt(second, third, no);
    }
  }

  lemma {:induction false} CountingStep(before: Ledger, ledger: Ledger, after: Ledger, settings: Settings, cycleLeft: int, budget: Option<real>,
                                        name: string, outcome: Outcome, qty: int, cost: real, maxQty: int, money: real)
    requires Counting(before, ledger, settings, cycleLeft, budget) && Ran(ledger, after, name, outcome, qty, cost)
    requires Affords(maxQty, money, qty, cost) && (qty == 0 || maxQty <= cycleLeft) && (cost == 0.0 || budget == None || money <= budget.value)
    ensures Counting(before, after, settings, cycleLeft - qty, if budget.Some? then Some(budget.value - cost) else None)
  {
    assert Moved(ledger, after, None, name, qty, cost);
  }

  lemma {:induction false} OthersUnmoved(ledger: Ledger, after: Ledger, name: string, outcome: Outcome, qty: int, cost: real, other: string)
    requires Ran(ledger, after, name, outcome, qty, cost) && other != name
    ensures Unmoved(ledger, after, other)
  {
    assert Moved(ledger, after, Some(other), name, qty, cost);
  }

  /** One item's turn. */
  lemma {:induction false} CycleStep(before: Ledger, ledger: Ledger, after: Ledger, items: seq<Item>, i: nat, settings: Settings, cycleLeft: int,
                                     budget: Option<real>, outcome: Outcome, qty: int, cost: real, maxQty: int, money: real)
    requires i < |items| && ValidList(items) && Cycling(before, ledger, items, i, settings, cycleLeft, budget)
    requires Ran(ledger, after, items[i].name, outcome, qty, cost) && Affords(maxQty, money, qty, cost)
    requires qty == 0 || (maxQty <= cycleLeft && maxQty <= items[i].maxQty - before.Qty(Some(items[i].name)))
    requires cost == 0.0 || budget == None || money <= budget.value
    requires cost == 0.0 || items[i].maxSpend <= 0.0 || money <= items[i].maxSpend - before.Spent(Some(items[i].name))
    ensures Cycling(before, after, items, i + 1, settings, cycleLeft - qty, if budget.Some? then Some(budget.value - cost) else None)
  {
    var name := items[i].name;
    KeepsTwice(before, ledger, after);
    CountingStep(before, ledger, after, settings, cycleLeft, budget, name, outcome, qty, cost, maxQty, money);
    NamesGrow(items, i);
    forall other | other !in NamesOf(items[..i + 1]) ensures Unmoved(before, after, other) {
      OthersUnmoved(ledger, after, name, outcome, qty, cost, other);
    }
    forall k | 0 <= k < i + 1 ensures WithinCaps(before, after, items[k]) {
      if k < i {
        assert items[..i][k].name in NamesOf(items[..i]);
        OthersUnmoved(ledger, after, name, outcome, qty, cost, items[k].name);
      } else {
        assert Unmoved(before, ledger, name);
        assert Moved(ledger, after, Some(name), name, qty, cost);
      }
    }
  }

  /** What holds at the end of a cycle however it ends; only the items of the list may stand higher than before. */
  ghost predicate CapsHold(before: Ledger, ledger: Ledger, items: seq<Item>, settings: Settings) {
    && (forall k :: 0 <= k < |items| ==> WithinCaps(before, ledger, items[k]))
    && (forall name :: name !in NamesOf(items) ==> AtMost(before, ledger, Some(name)))
    && WithinTotals(before, ledger, settings)
  }

  lemma {:induction false} CyclingHolds(before: Ledger, ledger: Ledger, items: seq<Item>, i: nat, settings: Settings, cycleLeft: int, budget: Option<real>)
    requires i <= |items| && ValidList(items) && Cycling(before, ledger, items, i, settings, cycleLeft, budget)
    ensures CapsHold(before, ledger, items, settings)
  {
    forall k | i <= k < |items| ensures WithinCaps(before, ledger, items[k]) {
      assert forall j :: 0 <= j < i ==> items[..k][j] == items[j];
      assert items[k].name !in NamesOf(items[..i]);
    }
    forall name | name !in NamesOf(items) ensures AtMost(before, ledger, Some(name)) {
      assert name !in NamesOf(items[..i]);
    }
  }

  lemma {:induction false} CapsHoldUnchanged(before: Ledger, ledger: Ledger, items: seq<Item>, settings: Settings)
    requires Shrank(before, ledger)
    ensures CapsHold(before, ledger, items, settings)
  {
    assert AtMost(before, ledger, None);
    forall k | 0 <= k < |items| ensures WithinCaps(before, ledger, items[k]) {
      assert AtMost(before, ledger, Some(items[k].name));
    }
    forall name | name !in NamesOf(items) ensures AtMost(before, ledger, Some(name)) {
    }
  }

  lemma {:induction false} KeepsItself(ledger: Ledger)
    ensures Keeps(ledger, ledger) && Shrank(ledger, ledger)
  {
  }

  lemma {:induction false} CyclingStarts(before: Ledger, items: seq<Item>, settings: Settings)
    ensures Cycling(before, before, items, 0, settings, settings.maxBuyPerCycle, Left(settings.maxTotalSpend, before.Spent(None)))
  {
  }

  /** The turn of an item that is passed over. */
  lemma {:induction false} ItemPassed(before: Ledger, ledger: Ledger, items: seq<Item>, i: nat, settings: Settings, cycleLeft: int, budget: Option<real>)
    requires i < |items| && ValidList(items) && Cycling(before, ledger, items, i, settings, cycleLeft, budget)
    ensures Cycling(before, ledger, items, i + 1, settings, cycleLeft, budget) && CapsHold(before, ledger, items, settings)
  {
    RanNothing(ledger, items[i].name);
    CycleStep(before, ledger, ledger, items, i, settings, cycleLeft, budget, Bought(0, 0.0), 0, 0.0, 0, 0.0);
    CyclingHolds(before, ledger, items, i, settings, cycleLeft, budget);
  }

  /** The turn of an item that is bought, also when it is cut short. */
  lemma {:induction false} ItemSwept(before: Ledger, ledger: Ledger, after: Ledger, items: seq<Item>, i: nat, settings: Settings, cycleLeft: int,
                                     budget: Option<real>, outcome: Outcome, qty: int, cost: real, maxQty: int, money: real)
    requires i < |items| && ValidList(items) && Cycling(before, ledger, items, i, settings, cycleLeft, budget)
    requires Ran(ledger, after, items[i].name, outcome, qty, cost) && Affords(maxQty, money, qty, cost)
    requires qty == 0 || (maxQty <= cycleLeft && maxQty <= items[i].maxQty - before.Qty(Some(items[i].name)))
    requires cost == 0.0 || budget == None || money <= budget.value
    requires cost == 0.0 || items[i].maxSpend <= 0.0 || money <= items[i].maxSpend - before.Spent(Some(items[i].name))
    ensures Keeps(before, after) && CapsHold(before, after, items, settings)
    ensures outcome.Bought? ==>
              Cycling(before, after, items, i + 1, settings, cycleLeft - outcome.qty, if budget.Some? then Some(budget.value - outcome.cost) else None)
  {
    CycleStep(before, ledger, after, items, i, settings, cycleLeft, budget, outcome, qty, cost, maxQty, money);
    CyclingHolds(before, after, items, i + 1, settings, cycleLeft - qty, if budget.Some? then Some(budget.value - cost) else None);
  }

  /** A reconciliation before the cycle only makes room. */
  lemma {:induction false} CapsHoldAfterShrinking(first: Ledger, before: Ledger, ledger: Ledger, items: seq<Item>, settings: Settings)
    requires Shrank(first, before) && CapsHold(before, ledger, items, settings)
    ensures CapsHold(first, ledger, items, settings)
  {
    assert AtMost(first, before, None);
    forall k | 0 <= k < |items| ensures WithinCaps(first, ledger, items[k]) {
      assert AtMost(first, before, Some(items[k].name)) && WithinCaps(before, ledger, items[k]);
    }
    forall name | name !in NamesOf(items) ensures AtMost(first, ledger, Some(name)) {
      assert AtMost(first, before, Some(name)) && AtMost(before, ledger, Some(name));
    }
  }
}
