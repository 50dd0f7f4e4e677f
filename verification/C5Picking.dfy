/** Choosing what to buy from the listings of one item: the cheapest first, while number and budget last. */
module C5Picking {
  import opened Prelude

  /** Amounts within this of each other count as equal. */
  const EPS: real := 0.000001

  datatype Listing = Listing(productId: string, price: real, amount: int)

  /** Worth considering at all: a single item, within the target price, not to be skipped. */
  predicate Eligible(l: Listing, maxPrice: real, skipIds: set<string>) {
    0.0 < l.price <= maxPrice + EPS && l.amount == 1 && l.productId !in skipIds
  }

  function Sum(listings: seq<Listing>): real {
    if listings == [] then 0.0 else listings[0].price + Sum(listings[1..])
  }

  // ----- The stable sort by price -----

  function Insert(l: Listing, sorted: seq<Listing>): seq<Listing> {
    if sorted == [] || l.price <= sorted[0].price then [l] + sorted else [sorted[0]] + Insert(l, sorted[1..])
  }

  function SortByPrice(listings: seq<Listing>): seq<Listing> {
    if listings == [] then [] else Insert(listings[0], SortByPrice(listings[1..]))
  }

  ghost predicate Ascending(listings: seq<Listing>) {
    listings == [] || ((forall l :: l in listings ==> listings[0].price <= l.price) && Ascending(listings[1..]))
  }

  lemma {:induction false} InsertPermutes(l: Listing, sorted: seq<Listing>)
    ensures multiset(Insert(l, sorted)) == multiset(sorted) + multiset{l}
  {
    if sorted != [] && l.price > sorted[0].price {
      InsertPermutes(l, sorted[1..]);
      assert sorted == [sorted[0]] + sorted[1..];
      CountsBehindHead(sorted[0], Insert(l, sorted[1..]), sorted[1..], l);
    }
  }

  lemma {:induction false} InsertAscending(l: Listing, sorted: seq<Listing>)
    requires Ascending(sorted)
    ensures Ascending(Insert(l, sorted))
  {
    if sorted != [] && l.price > sorted[0].price {
      InsertAscending(l, sorted[1..]);
      InsertPermutes(l, sorted[1..]);
      var rest := Insert(l, sorted[1..]);
      forall x | x in [sorted[0]] + rest ensures sorted[0].price <= x.price {
        assert x == sorted[0] || x in multiset(rest);
      }
    } else if sorted != [] {
      assert forall x :: x in [l] + sorted ==> x == l || x in sorted;
    }
  }

  lemma {:induction false} SortAscends(listings: seq<Listing>)
    ensures Ascending(SortByPrice(listings))
  {
    if listings != [] {
      SortAscends(listings[1..]);
      InsertAscending(listings[0], SortByPrice(listings[1..]));
    }
  }

  lemma {:induction false} SortPermutes(listings: seq<Listing>)
    ensures multiset(SortByPrice(listings)) == multiset(listings)
  {
    if listings != [] {
      SortPermutes(listings[1..]);
      InsertPermutes(listings[0], SortByPrice(listings[1..]));
      TakesHead(listings, SortByPrice(listings[1..]), SortByPrice(listings));
    }
  }

  lemma {:induction false} SortSorts(listings: seq<Listing>)
    ensures Ascending(SortByPrice(listings)) && multiset(SortByPrice(listings)) == multiset(listings)
  {
    SortAscends(listings);
    SortPermutes(listings);
  }

  // ----- The greedy choice -----

  /** From a sorted list: stop at the target price, the number or the budget; pass over what is not eligible. */
  function Greedy(sorted: seq<Listing>, maxPrice: real, qty: int, budget: real, skipIds: set<string>): seq<Listing>
    decreases sorted
  {
    if sorted == [] || qty <= 0 || sorted[0].price > maxPrice + EPS then []
    else if !Eligible(sorted[0], maxPrice, skipIds) then Greedy(sorted[1..], maxPrice, qty, budget, skipIds)
    else if sorted[0].price > budget + EPS then []
    else [sorted[0]] + Greedy(sorted[1..], maxPrice, qty - 1, budget - sorted[0].price, skipIds)
  }

  ghost predicate AllEligible(choice: seq<Listing>, maxPrice: real, skipIds: set<string>) {
    forall l :: l in choice ==> Eligible(l, maxPrice, skipIds)
  }

  ghost predicate Among(choice: seq<Listing>, listings: seq<Listing>) {
    multiset(choice) <= multiset(listings)
  }

  /** A choice among the listings within the limits; choosing nothing is always allowed. */
  ghost predicate Affordable(choice: seq<Listing>, listings: seq<Listing>, maxPrice: real, qty: int, budget: real, skipIds: set<string>) {
    && Among(choice, listings)
    && AllEligible(choice, maxPrice, skipIds)
    && (choice == [] || (|choice| <= qty && Sum(choice) <= budget + EPS))
  }

  lemma {:induction false} AmongMore(choice: seq<Listing>, sorted: seq<Listing>)
    requires sorted != [] && Among(choice, sorted[1..])
    ensures Among(choice, sorted) && Among([sorted[0]] + choice, sorted)
  {
    HeadCounts(sorted[0], sorted[1..]);
    HeadCounts(sorted[0], choice);
    assert sorted == [sorted[0]] + sorted[1..];
  }

  /** Some of the list, in its order. */
  ghost predicate Subsequence(choice: seq<Listing>, sorted: seq<Listing>) {
    choice == []
    || (sorted != [] && ((choice[0] == sorted[0] && Subsequence(choice[1..], sorted[1..])) || Subsequence(choice, sorted[1..])))
  }

  lemma {:induction false} SubsequenceIsAmong(choice: seq<Listing>, sorted: seq<Listing>)
    requires Subsequence(choice, sorted)
    ensures Among(choice, sorted)
    decreases sorted
  {
    if choice != [] {
      if choice[0] == sorted[0] && Subsequence(choice[1..], sorted[1..]) {
        SubsequenceIsAmong(choice[1..], sorted[1..]);
        AmongMore(choice[1..], sorted);
        assert choice == [sorted[0]] + choice[1..];
      } else {
        SubsequenceIsAmong(choice, sorted[1..]);
        AmongMore(choice, sorted);
      }
    }
  }

  lemma {:induction false} GreedyIsSubsequence(sorted: seq<Listing>, maxPrice: real, qty: int, budget: real, skipIds: set<string>)
    ensures Subsequence(Greedy(sorted, maxPrice, qty, budget, skipIds), sorted)
    decreases sorted
  {
    if sorted == [] || qty <= 0 || sorted[0].price > maxPrice + EPS {
    } else if !Eligible(sorted[0], maxPrice, skipIds) {
      GreedyIsSubsequence(sorted[1..], maxPrice, qty, budget, skipIds);
    } else if sorted[0].price <= budget + EPS {
      var rest := Greedy(sorted[1..], maxPrice, qty - 1, budget - sorted[0].price, skipIds);
      GreedyIsSubsequence(sorted[1..], maxPrice, qty - 1, budget - sorted[0].price, skipIds);
      assert ([sorted[0]] + rest)[1..] == rest;
    }
  }

  lemma {:induction false} GreedyIsEligible(sorted: seq<Listing>, maxPrice: real, qty: int, budget: real, skipIds: set<string>)
    ensures AllEligible(Greedy(sorted, maxPrice, qty, budget, skipIds), maxPrice, skipIds)
    decreases sorted
  {
    if sorted != [] {
      GreedyIsEligible(sorted[1..], maxPrice, qty, budget, skipIds);
      GreedyIsEligible(sorted[1..], maxPrice, qty - 1, budget - sorted[0].price, skipIds);
    }
  }

  lemma {:induction false} GreedyWithin(sorted: seq<Listing>, maxPrice: real, qty: int, budget: real, skipIds: set<string>)
    ensures var choice := Greedy(sorted, maxPrice, qty, budget, skipIds); choice == [] || (|choice| <= qty && Sum(choice) <= budget + EPS)
    decreases sorted
  {
    if sorted != [] {
      var budget' := budget - sorted[0].price;
      GreedyWithin(sorted[1..], maxPrice, qty, budget, skipIds);
      GreedyWithin(sorted[1..], maxPrice, qty - 1, budget', skipIds);
      var rest := Greedy(sorted[1..], maxPrice, qty - 1, budget', skipIds);
      assert ([sorted[0]] + rest)[1..] == rest;
    }
  }

  lemma {:induction false} GreedyIsAffordable(sorted: seq<Listing>, maxPrice: real, qty: int, budget: real, skipIds: set<string>)
    ensures Affordable(Greedy(sorted, maxPrice, qty, budget, skipIds), sorted, maxPrice, qty, budget, skipIds)
  {
    GreedyIsSubsequence(sorted, maxPrice, qty, budget, skipIds);
    SubsequenceIsAmong(Greedy(sorted, maxPrice, qty, budget, skipIds), sorted);
    GreedyIsEligible(sorted, maxPrice, qty, budget, skipIds);
    GreedyWithin(sorted, maxPrice, qty, budget, skipIds);
  }

  function RemoveAt(choice: seq<Listing>, i: nat): seq<Listing>
    requires i < |choice|
  {
    choice[..i] + choice[i + 1..]
  }

  lemma {:induction false} SumWithout(choice: seq<Listing>, i: nat)
    requires i < |choice|
    ensures Sum(choice) == Sum(RemoveAt(choice, i)) + choice[i].price
  {
    if i > 0 {
      SumWithout(choice[1..], i - 1);
      assert RemoveAt(choice, i)[1..] == RemoveAt(choice[1..], i - 1);
    } else {
      assert RemoveAt(choice, 0) == choice[1..];
    }
  }

  lemma {:induction false} OneLess(choice: seq<Listing>, i: nat)
    requires i < |choice|
    ensures multiset(choice) == multiset(RemoveAt(choice, i)) + multiset{choice[i]}
  {
    assert choice == choice[..i] + ([choice[i]] + choice[i + 1..]);
  }

  lemma {:induction false} SumAtLeast(choice: seq<Listing>, l: Listing)
    requires l in choice && forall x :: x in choice ==> 0.0 < x.price
    ensures l.price <= Sum(choice)
  {
    if l != choice[0] {
      SumAtLeast(choice[1..], l);
    } else {
      SumNotNegative(choice[1..]);
    }
    assert choice[0] in choice;
  }

  lemma {:induction false} SumNotNegative(choice: seq<Listing>)
    requires forall x :: x in choice ==> 0.0 < x.price
    ensures 0.0 <= Sum(choice)
  {
    if choice != [] {
      assert choice[0] in choice;
      SumNotNegative(choice[1..]);
    }
  }

  lemma {:induction false} AmongHas(choice: seq<Listing>, listings: seq<Listing>, l: Listing)
    requires Among(choice, listings) && l in choice
    ensures l in listings
  {
    assert l in multiset(choice);
    assert l in multiset(listings);
  }

  lemma {:induction false} AmongTheRest(choice: seq<Listing>, sorted: seq<Listing>)
    requires sorted != [] && Among(choice, sorted) && sorted[0] !in choice
    ensures Among(choice, sorted[1..])
  {
    HeadCounts(sorted[0], sorted[1..]);
    assert sorted == [sorted[0]] + sorted[1..];
    assert multiset(choice)[sorted[0]] == 0;
  }

  lemma {:induction false} AmongTheRestWithout(choice: seq<Listing>, i: nat, sorted: seq<Listing>)
    requires sorted != [] && Among(choice, sorted) && i < |choice| && (choice[i] == sorted[0] || sorted[0] !in choice)
    ensures Among(RemoveAt(choice, i), sorted[1..])
  {
    OneLess(choice, i);
    if choice[i] == sorted[0] {
      HeadCounts(sorted[0], sorted[1..]);
      assert sorted == [sorted[0]] + sorted[1..];
      SameLess(multiset(RemoveAt(choice, i)), multiset(sorted[1..]), sorted[0]);
    } else {
      AmongTheRest(choice, sorted);
    }
  }

  /** Any affordable choice can give up one element so that the rest fits beside the cheapest eligible listing. */
  lemma {:induction false} ExchangeForCheapest(choice: seq<Listing>, sorted: seq<Listing>, maxPrice: real, qty: int, budget: real, skipIds: set<string>)
    returns (rest: seq<Listing>)
    requires sorted != [] && Ascending(sorted) && choice != []
    requires Affordable(choice, sorted, maxPrice, qty, budget, skipIds)
    ensures |rest| == |choice| - 1
    ensures Affordable(rest, sorted[1..], maxPrice, qty - 1, budget - sorted[0].price, skipIds)
  {
    var i: nat := 0;
    if sorted[0] in choice {
      i :| i < |choice| && choice[i] == sorted[0];
    }
    rest := RemoveAt(choice, i);
    SumWithout(choice, i);
    AmongHas(choice, sorted, choice[i]);
    AmongTheRestWithout(choice, i, sorted);
    assert forall l :: l in rest ==> l in choice;
  }

  /** An eligible first listing is taken if there is room and money for it. */
  lemma {:induction false} GreedyTakes(sorted: seq<Listing>, maxPrice: real, qty: int, budget: real, skipIds: set<string>)
    requires sorted != [] && Eligible(sorted[0], maxPrice, skipIds) && qty > 0 && sorted[0].price <= budget + EPS
    ensures |Greedy(sorted, maxPrice, qty, budget, skipIds)| == 1 + |Greedy(sorted[1..], maxPrice, qty - 1, budget - sorted[0].price, skipIds)|
  {
  }

  /** The cheapest listing is no dearer than a choice, all of it eligible, costs as a whole. */
  lemma {:induction false} CheapestFits(choice: seq<Listing>, sorted: seq<Listing>, maxPrice: real, qty: int, budget: real, skipIds: set<string>)
    requires Ascending(sorted) && choice != [] && Affordable(choice, sorted, maxPrice, qty, budget, skipIds)
    ensures sorted != [] && qty > 0 && sorted[0].price <= maxPrice + EPS && sorted[0].price <= budget + EPS
  {
    AmongHas(choice, sorted, choice[0]);
    assert sorted[0].price <= choice[0].price;
    assert Eligible(choice[0], maxPrice, skipIds);
    SumAtLeast(choice, choice[0]);
  }

  /** No affordable choice among the listings has more elements than the greedy one. */
  lemma {:induction false} GreedyIsLargest(choice: seq<Listing>, sorted: seq<Listing>, maxPrice: real, qty: int, budget: real, skipIds: set<string>)
    requires Ascending(sorted)
    requires Affordable(choice, sorted, maxPrice, qty, budget, skipIds)
    ensures |choice| <= |Greedy(sorted, maxPrice, qty, budget, skipIds)|
    decreases sorted
  {
    if choice == [] {
      return;
    }
    CheapestFits(choice, sorted, maxPrice, qty, budget, skipIds);
    if !Eligible(sorted[0], maxPrice, skipIds) {
      AmongTheRest(choice, sorted);
      GreedyIsLargest(choice, sorted[1..], maxPrice, qty, budget, skipIds);
    } else {
      var rest := ExchangeForCheapest(choice, sorted, maxPrice, qty, budget, skipIds);
      GreedyIsLargest(rest, sorted[1..], maxPrice, qty - 1, budget - sorted[0].price, skipIds);
      GreedyTakes(sorted, maxPrice, qty, budget, skipIds);
    }
  }

  /** What the loop returns is affordable, and one of the largest choices there are. */
  lemma GreedyIsBest(listings: seq<Listing>, maxPrice: real, qtyLeft: int, budgetLeft: real, skipIds: set<string>)
    ensures BestChoice(Greedy(SortByPrice(listings), maxPrice, qtyLeft, budgetLeft, skipIds), listings, maxPrice, qtyLeft, budgetLeft, skipIds)
  {
    var sorted := SortByPrice(listings);
    var picks := Greedy(sorted, maxPrice, qtyLeft, budgetLeft, skipIds);
    SortSorts(listings);
    GreedyIsAffordable(sorted, maxPrice, qtyLeft, budgetLeft, skipIds);
    forall choice | Affordable(choice, listings, maxPrice, qtyLeft, budgetLeft, skipIds) ensures |choice| <= |picks| {
      GreedyIsLargest(choice, sorted, maxPrice, qtyLeft, budgetLeft, skipIds);
    }
  }

  ghost predicate BestChoice(picks: seq<Listing>, listings: seq<Listing>, maxPrice: real, qtyLeft: int, budgetLeft: real, skipIds: set<string>) {
    && Affordable(picks, listings, maxPrice, qtyLeft, budgetLeft, skipIds)
    && forall choice :: Affordable(choice, listings, maxPrice, qtyLeft, budgetLeft, skipIds) ==> |choice| <= |picks|
  }

  method PickSorted(sorted: seq<Listing>, maxPrice: real, qtyLeft: int, budgetLeft: real, skipIds: set<string>)
    returns (picks: seq<Listing>)
    ensures picks == Greedy(sorted, maxPrice, qtyLeft, budgetLeft, skipIds)
  {
    picks := [];
    var budget := budgetLeft;
    for i := 0 to |sorted|
      invariant picks + Greedy(sorted[i..], maxPrice, qtyLeft - |picks|, budget, skipIds)
             == Greedy(sorted, maxPrice, qtyLeft, budgetLeft, skipIds)
    {
      var listing := sorted[i];
      assert sorted[i..][0] == listing && sorted[i..][1..] == sorted[i + 1..];
      if |picks| >= qtyLeft || listing.price > maxPrice + EPS {
        break;
      }
      if listing.price <= 0.0 || listing.amount != 1 || listing.productId in skipIds {
        continue;
      }
      if listing.price > budget + EPS {
        break;
      }
      picks := picks + [listing];
      budget := budget - listing.price;
    }
  }

  /**
   * `pickListings`: the best choice there is, taken cheapest first. The loop stops at the first listing that is over
   * the target price or over what is left of the budget.
   */
  method PickListings(listings: seq<Listing>, maxPrice: real, qtyLeft: int, budgetLeft: real, skipIds: set<string>)
    returns (picks: seq<Listing>)
    ensures picks == Greedy(SortByPrice(listings), maxPrice, qtyLeft, budgetLeft, skipIds)
    ensures BestChoice(picks, listings, maxPrice, qtyLeft, budgetLeft, skipIds)
  {
    picks := PickSorted(SortByPrice(listings), maxPrice, qtyLeft, budgetLeft, skipIds);
    GreedyIsBest(listings, maxPrice, qtyLeft, budgetLeft, skipIds);
  }
}
