/** Cutting an account's shopping list down to what its balance pays for. */
module BalanceClamp {
  import opened Prelude

  const PURCHASE_MAX_ITEM_QUANTITY := 9999

  datatype TaskItem = TaskItem(itemDefId: int, quantity: int, unitPriceCents: int, totalPriceCents: int)

  function Price(item: TaskItem): nat { Max(0, item.unitPriceCents) }

  /** The quantity asked for, between 0 and the most that one order line takes. */
  function Wanted(item: TaskItem): nat { Max(0, Min(PURCHASE_MAX_ITEM_QUANTITY, item.quantity)) }

  /** A balance in currency units as whole cents, halves rounded up. */
  function RoundCents(balance: real): int { (balance * 100.0 + 0.5).Floor }

  /** How many of one item the remaining cents pay for, no more than wanted. */
  function Affordable(item: TaskItem, cents: nat): nat {
    if Price(item) == 0 then Wanted(item) else Min(Wanted(item), cents / Price(item))
  }

  /** The kept quantity of every item in list order, 0 for one that is dropped. */
  function Quantities(items: seq<TaskItem>, cents: nat): (v: seq<nat>)
    ensures |v| == |items|
  {
    if items == [] then []
    else
      AffordableIsMost(items[0], cents);
      var q := Affordable(items[0], cents);
      [q] + Quantities(items[1..], cents - q * Price(items[0]))
  }

  /** A list with this much of an item at the front; nothing of it is no line at all. */
  function Keep(item: TaskItem, q: nat, rest: seq<TaskItem>): seq<TaskItem> {
    if q == 0 then rest else [item.(quantity := q, totalPriceCents := Price(item) * q)] + rest
  }

  /** The list that is left: each kept item with its quantity and its total. */
  function Kept(items: seq<TaskItem>, cents: nat): seq<TaskItem> {
    if items == [] then []
    else
      AffordableIsMost(items[0], cents);
      var q := Affordable(items[0], cents);
      Keep(items[0], q, Kept(items[1..], cents - q * Price(items[0])))
  }

  lemma AffordableIsMost(item: TaskItem, cents: nat)
    ensures Affordable(item, cents) * Price(item) <= cents
    ensures forall q: nat :: q <= Wanted(item) && q * Price(item) <= cents ==> q <= Affordable(item, cents)
  {
    var p := Price(item);
    if p > 0 {
      MulMonotone(Affordable(item, cents), cents / p, p);
      forall q: nat | q <= Wanted(item) && q * p <= cents ensures q <= Affordable(item, cents) {
        if q > cents / p {
          MulMonotone(cents / p + 1, q, p);
        }
      }
    }
  }

  // ----- What the clamp is: the lexicographically greatest affordable choice -----

  /** What the quantities `v` of `items` cost. */
  function Cost(items: seq<TaskItem>, v: seq<nat>): nat
    requires |v| == |items|
  {
    if items == [] then 0 else v[0] * Price(items[0]) + Cost(items[1..], v[1..])
  }

  /** A choice of quantities that stays within the request, the line maximum and the budget. */
  ghost predicate Allowed(items: seq<TaskItem>, v: seq<nat>, cents: nat) {
    && |v| == |items|
    && (forall i :: 0 <= i < |v| ==> v[i] <= Wanted(items[i]))
    && Cost(items, v) <= cents
  }

  ghost predicate LexAtMost(v: seq<nat>, w: seq<nat>)
    requires |v| == |w|
  {
    v == [] || v[0] < w[0] || (v[0] == w[0] && LexAtMost(v[1..], w[1..]))
  }

  /** Earlier items come first: no allowed choice is lexicographically greater than the kept quantities. */
  lemma {:induction false} QuantitiesAreGreatest(items: seq<TaskItem>, cents: nat)
    ensures Allowed(items, Quantities(items, cents), cents)
    ensures forall v :: Allowed(items, v, cents) ==> LexAtMost(v, Quantities(items, cents))
  {
    if items != [] {
      AffordableIsMost(items[0], cents);
      var best := Quantities(items, cents);
      var left := cents - best[0] * Price(items[0]);
      QuantitiesAreGreatest(items[1..], left);
      assert best[1..] == Quantities(items[1..], left);
      forall v | Allowed(items, v, cents) ensures LexAtMost(v, best) {
        if v[0] == best[0] {
          assert Allowed(items[1..], v[1..], left);
        }
      }
    }
  }

  /** The total of an order list. */
  function TotalUnits(items: seq<TaskItem>): int {
    if items == [] then 0 else items[0].quantity + TotalUnits(items[1..])
  }

  function TotalCost(items: seq<TaskItem>): int {
    if items == [] then 0 else items[0].totalPriceCents + TotalCost(items[1..])
  }

  /** The lines of a list have these quantities, those of 0 left out. */
  ghost predicate HasQuantities(kept: seq<TaskItem>, v: seq<nat>) {
    |kept| == |Positive(v)| && forall i :: 0 <= i < |kept| ==> kept[i].quantity == Positive(v)[i]
  }

  lemma {:induction false} KeepMatches(item: TaskItem, q: nat, rest: seq<TaskItem>, v: seq<nat>)
    requires HasQuantities(rest, v)
    ensures TotalCost(Keep(item, q, rest)) == q * Price(item) + TotalCost(rest)
    ensures HasQuantities(Keep(item, q, rest), [q] + v)
  {
    assert ([q] + v)[1..] == v;
    if q > 0 {
      assert Keep(item, q, rest)[1..] == rest;
    }
  }

  lemma {:induction false} CostOfMore(items: seq<TaskItem>, q: nat, v: seq<nat>)
    requires items != [] && |v| == |items| - 1
    ensures Cost(items, [q] + v) == q * Price(items[0]) + Cost(items[1..], v)
  {
    assert ([q] + v)[1..] == v;
  }

  /** The kept list costs what the chosen quantities cost, and drops exactly the items with quantity 0. */
  lemma {:induction false} KeptMatchesQuantities(items: seq<TaskItem>, cents: nat)
    ensures TotalCost(Kept(items, cents)) == Cost(items, Quantities(items, cents)) <= cents
    ensures HasQuantities(Kept(items, cents), Quantities(items, cents))
  {
    if items != [] {
      AffordableIsMost(items[0], cents);
      var q := Affordable(items[0], cents);
      var left := cents - q * Price(items[0]);
      KeptMatchesQuantities(items[1..], left);
      KeepMatches(items[0], q, Kept(items[1..], left), Quantities(items[1..], left));
      CostOfMore(items, q, Quantities(items[1..], left));
    }
  }

  function Units(v: seq<nat>): nat { if v == [] then 0 else v[0] + Units(v[1..]) }

  lemma {:induction false} KeepCounts(item: TaskItem, q: nat, rest: seq<TaskItem>)
    ensures TotalUnits(Keep(item, q, rest)) == q + TotalUnits(rest)
  {
    assert q > 0 ==> Keep(item, q, rest)[1..] == rest;
  }

  /** The units of the kept list are the chosen quantities together, and there are some unless nothing is kept. */
  lemma {:induction false} KeptCounts(items: seq<TaskItem>, cents: nat)
    ensures TotalUnits(Kept(items, cents)) == Units(Quantities(items, cents))
    ensures Kept(items, cents) != [] <==> TotalUnits(Kept(items, cents)) > 0
  {
    if items != [] {
      AffordableIsMost(items[0], cents);
      var q := Affordable(items[0], cents);
      var left := cents - q * Price(items[0]);
      KeptCounts(items[1..], left);
      KeepCounts(items[0], q, Kept(items[1..], left));
      assert Quantities(items, cents)[1..] == Quantities(items[1..], left);
    }
  }

  /** The balance in cents, to the nearest one, and halves up; whole cents stay what they are. */
  lemma RoundedToNearest(balance: real, cents: int)
    ensures RoundCents(balance) == cents <==> -0.5 < cents as real - 100.0 * balance <= 0.5
    ensures 100.0 * balance == cents as real ==> RoundCents(balance) == cents
  {
  }

  function Positive(v: seq<nat>): seq<nat> {
    if v == [] then [] else (if v[0] > 0 then [v[0]] else []) + Positive(v[1..])
  }

  /** Clamping a clamped list again changes nothing. */
  lemma {:induction false} KeptTwice(items: seq<TaskItem>, cents: nat)
    ensures Kept(Kept(items, cents), cents) == Kept(items, cents)
  {
    if items != [] {
      var item := items[0];
      AffordableIsMost(item, cents);
      var q := Affordable(item, cents);
      var left := cents - q * Price(item);
      KeptTwice(items[1..], left);
      if q == 0 {
        assert left == cents;
      } else {
        var kept := item.(quantity := q, totalPriceCents := Price(item) * q);
        var list := Kept(items, cents);
        assert list[0] == kept && list[1..] == Kept(items[1..], left);
        AffordableIsMost(kept, cents);
        assert Affordable(kept, cents) == q;
      }
    }
  }

  /** In the middle of a clamp: what is kept, and what is still to be kept of the items from `i` on, make up the whole. */
  ghost predicate Clamping(items: seq<TaskItem>, cents: nat, i: nat, kept: seq<TaskItem>, remaining: nat) {
    i <= |items| && kept + Kept(items[i..], remaining) == Kept(items, cents)
  }

  lemma {:induction false} KeptBehind(items: seq<TaskItem>, i: nat, remaining: nat)
    requires i < |items|
    ensures var q := Affordable(items[i], remaining);
            q * Price(items[i]) <= remaining && Kept(items[i..], remaining) == Keep(items[i], q, Kept(items[i + 1..], remaining - q * Price(items[i])))
  {
    AffordableIsMost(items[i], remaining);
    assert items[i..][1..] == items[i + 1..];
  }

  /** One turn of the loop: item `i` joins what is kept, unless nothing of it can be. */
  lemma {:induction false} ClampingNext(items: seq<TaskItem>, cents: nat, i: nat, kept: seq<TaskItem>, remaining: nat)
    requires Clamping(items, cents, i, kept, remaining) && i < |items|
    ensures var q := Affordable(items[i], remaining);
            var left := remaining - q * Price(items[i]);
            && left >= 0
            && Clamping(items, cents, i + 1, if q == 0 then kept else kept + [items[i].(quantity := q, totalPriceCents := Price(items[i]) * q)], left)
  {
    KeptBehind(items, i, remaining);
    var q := Affordable(items[i], remaining);
    if q > 0 {
      ConcatAssociative(kept, [items[i].(quantity := q, totalPriceCents := Price(items[i]) * q)], Kept(items[i + 1..], remaining - q * Price(items[i])));
    }
  }

  lemma {:induction false} NothingBoughtForNothing(items: seq<TaskItem>)
    requires forall item :: item in items ==> Price(item) > 0
    ensures Kept(items, 0) == []
  {
    if items != [] {
      assert items[0] in items;
      AffordableIsMost(items[0], 0);
      assert Affordable(items[0], 0) == 0;
      NothingBoughtForNothing(items[1..]);
    }
  }

  /** A clamped list fits the balance it was clamped to exactly when that balance is not a debt. */
  lemma ClampedFitsUnlessInDebt(items: seq<TaskItem>, balance: real)
    ensures var cents := RoundCents(balance);
            TotalCost(Kept(items, Max(0, cents))) <= cents <==> 0 <= cents
  {
    KeptMatchesQuantities(items, Max(0, RoundCents(balance)));
  }

  // ----- The account -----

  predicate Unpriced(prices: map<int, int>, item: TaskItem) {
    item.itemDefId !in prices || prices[item.itemDefId] <= 0
  }

  function Reprice(item: TaskItem, prices: map<int, int>): TaskItem
    requires !Unpriced(prices, item)
  {
    var unitPrice := prices[item.itemDefId];
    item.(unitPriceCents := unitPrice, totalPriceCents := unitPrice * item.quantity)
  }

  function Repriced(items: seq<TaskItem>, prices: map<int, int>): seq<TaskItem>
    requires forall item :: item in items ==> !Unpriced(prices, item)
  {
    seq(|items|, i requires 0 <= i < |items| => Reprice(items[i], prices))
  }

  datatype Verdict = NotInCatalog(itemDefId: int) | NoPrice(itemDefId: int) | NothingAffordable | InsufficientBalance | Proceed

  class TaskAccount {
    var balanceBefore: Option<real>
    var items: seq<TaskItem>
    var totalUnits: int
    var totalCostCents: int

    /** What the clamp may spend; a debt counts as nothing. */
    function Budget(): nat
      reads this
      requires balanceBefore.Some?
    {
      Max(0, RoundCents(balanceBefore.value))
    }

    /** Keeps, from the front, as much of every item as the balance pays for. Without a known balance nothing changes. */
    method ClampItemsToBalance()
      modifies `items, `totalUnits, `totalCostCents
      ensures balanceBefore == None ==> items == old(items) && totalUnits == old(totalUnits) && totalCostCents == old(totalCostCents)
      ensures balanceBefore.Some? ==>
                && items == Kept(old(items), Budget())
                && totalUnits == TotalUnits(items) && totalCostCents == TotalCost(items)
    {
      if balanceBefore == None {
        return;
      }
      var remaining: nat := Max(0, RoundCents(balanceBefore.value));
      var kept: seq<TaskItem> := [];
      assert items[0..] == items;
      for i := 0 to |items|
        invariant items == old(items) && Clamping(items, Budget(), i, kept, remaining)
      {
        var item := items[i];
        var unitPrice: nat := Max(0, item.unitPriceCents);
        var quantity: nat := Max(0, Min(PURCHASE_MAX_ITEM_QUANTITY, item.quantity));
        ClampingNext(items, Budget(), i, kept, remaining);
        if quantity == 0 {
          continue;
        }
        if unitPrice > 0 {
          var affordable := Max(0, Min(PURCHASE_MAX_ITEM_QUANTITY, remaining / unitPrice));
          if affordable <= 0 {
            continue;
          }
          quantity := Min(quantity, affordable);
          remaining := remaining - quantity * unitPrice;
        }
        kept := kept + [item.(quantity := quantity, totalPriceCents := unitPrice * quantity)];
      }
      assert items[|items|..] == [];
      items := kept;
      totalUnits := TotalUnits(kept);
      totalCostCents := TotalCost(kept);
    }

    /** The account's own price list is applied, then the list is clamped and checked once more against the balance. */
    method PriceClampAndCheck(prices: map<int, int>, attemptBalance: Option<real>) returns (verdict: Verdict)
      modifies `items, `totalUnits, `totalCostCents
      ensures verdict.NotInCatalog? || verdict.NoPrice? <==> exists item :: item in old(items) && Unpriced(prices, item)
      ensures verdict.NotInCatalog? ==> verdict.itemDefId !in prices && exists item :: item in old(items) && item.itemDefId == verdict.itemDefId
      ensures verdict.NoPrice? ==>
                && verdict.itemDefId in prices && prices[verdict.itemDefId] <= 0
                && exists item :: item in old(items) && item.itemDefId == verdict.itemDefId
      ensures (forall item :: item in old(items) ==> !Unpriced(prices, item)) ==>
                && totalCostCents == TotalCost(items)
                && match balanceBefore
                   case Some(balance) =>
                     && items == Kept(Repriced(old(items), prices), Budget())
                     && (items != [] ==> verdict == Proceed && totalCostCents <= RoundCents(balance))
                     && (items == [] ==> verdict == NothingAffordable)
                   case None =>
                     && items == Repriced(old(items), prices)
                     && verdict == if items == [] || old(totalUnits) <= 0 then NothingAffordable
                                   else if RoundCents(if attemptBalance.Some? then attemptBalance.value else 0.0) < totalCostCents then InsufficientBalance
                                   else Proceed
    {
      ghost var asked := items;
      for i := 0 to |items|
        invariant |items| == |asked| && items[i..] == asked[i..] && totalUnits == old(totalUnits)
        invariant forall k :: 0 <= k < i ==> !Unpriced(prices, asked[k]) && items[k] == Reprice(asked[k], prices)
      {
        var item := items[i];
        assert item == asked[i] by { assert items[i..][0] == asked[i..][0]; }
        assert asked[i] in asked;
        if item.itemDefId !in prices {
          return NotInCatalog(item.itemDefId);
        }
        var unitPrice := prices[item.itemDefId];
        if unitPrice <= 0 {
          return NoPrice(item.itemDefId);
        }
        items := items[i := item.(unitPriceCents := unitPrice, totalPriceCents := unitPrice * item.quantity)];
      }
      assert items == Repriced(asked, prices);
      totalCostCents := TotalCost(items);
      ghost var priced := items;
      ClampItemsToBalance();
      if balanceBefore.Some? {
        KeptCounts(priced, Budget());
      }
      if items == [] || totalUnits <= 0 {
        return NothingAffordable;
      }
      var balance := if balanceBefore.Some? then balanceBefore.value else if attemptBalance.Some? then attemptBalance.value else 0.0;
      if balanceBefore.Some? {
        KeptMatchesQuantities(priced, Budget());
        if RoundCents(balance) < 0 {
          NothingBoughtForNothing(priced);
        }
      }
      if RoundCents(balance) < totalCostCents {
        return InsufficientBalance;
      }
      verdict := Proceed;
    }
  }
}
