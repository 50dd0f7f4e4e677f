/** How the ledger moves while orders are written down, sent, and settled by what the platform answers. */
module C5Booking {
  import opened Prelude
  import opened C5Ledger
  import opened C5Picking
  import opened C5World

  /** What a sweep over one item reports, unless it ends in an exception or the death of the process. */
  datatype Outcome = Bought(qty: int, cost: real) | Aborted

  // ----- Bookkeeping of one batch -----

  function PriceOf(l: Listing): real { l.price }

  function NewRow(ts: int, name: string, productId: string, price: real): Purchase {
    Purchase(ts, Live, name, productId, price, Unknown, "", None, None, 0)
  }

  ghost predicate PendingAt(before: Ledger, ledger: Ledger, name: string, orders: map<OrderNo, Listing>, no: OrderNo) {
    no in orders ==>
      && no in ledger.table && no !in before.table
      && ledger.table[no] == NewRow(ledger.table[no].ts, name, ledger.table[no].productId, orders[no].price)
  }

  ghost predicate Pending(before: Ledger, ledger: Ledger, name: string, orders: map<OrderNo, Listing>) {
    forall no :: PendingAt(before, ledger, name, orders, no)
  }

  /**
   * Since `before` the counts grew so much under the name; `orders` are written down whose fate is open, counting with
   * the price offered. No older row was touched.
   */
  ghost predicate Booked(before: Ledger, ledger: Ledger, name: string, orders: map<OrderNo, Listing>, qty: int, cost: real) {
    Grew(before, ledger, name, qty, cost) && Keeps(before, ledger) && Pending(before, ledger, name, orders)
  }

  lemma {:induction false} KeepsAdd(before: Ledger, ledger: Ledger, no: OrderNo, p: Purchase)
    requires Keeps(before, ledger) && no !in ledger.table
    ensures Keeps(before, ledger.Add(no, p))
  {
    forall k ensures KeepsAt(before, ledger.Add(no, p), k) {
      assert KeepsAt(before, ledger, k);
    }
  }

  lemma {:induction false} KeepsPut(before: Ledger, ledger: Ledger, no: OrderNo, p: Purchase)
    requires Keeps(before, ledger) && no !in before.table
    ensures Keeps(before, ledger.Put(no, p))
  {
    forall k ensures KeepsAt(before, ledger.Put(no, p), k) {
      assert KeepsAt(before, ledger, k);
    }
  }

  lemma {:induction false} SizeSet<K, V>(m: map<K, V>, k: K, v: V)
    requires k !in m
    ensures |m[k := v]| == |m| + 1
  {
    assert m[k := v].Keys == m.Keys + {k};
  }

  lemma {:induction false} PendingAdd(before: Ledger, ledger: Ledger, name: string, orders: map<OrderNo, Listing>, no: OrderNo, ts: int, pick: Listing)
    requires Pending(before, ledger, name, orders) && Keeps(before, ledger) && no !in ledger.table
    ensures no !in orders && no !in before.table
    ensures Pending(before, ledger.Add(no, NewRow(ts, name, pick.productId, pick.price)), name, orders[no := pick])
  {
    assert PendingAt(before, ledger, name, orders, no) && KeepsAt(before, ledger, no);
    var after, orders' := ledger.Add(no, NewRow(ts, name, pick.productId, pick.price)), orders[no := pick];
    forall k ensures PendingAt(before, after, name, orders', k) {
      assert PendingAt(before, ledger, name, orders, k);
    }
  }

  lemma {:induction false} With(orders: map<OrderNo, Listing>, no: OrderNo, pick: Listing)
    requires no !in orders
    ensures |orders[no := pick]| == |orders| + 1 && SumBy(orders[no := pick], PriceOf) == SumBy(orders, PriceOf) + pick.price
  {
    SumSet(orders, PriceOf, no, pick);
    SizeSet(orders, no, pick);
  }

  /** One more order written down. */
  lemma {:induction false} BookOne(before: Ledger, ledger: Ledger, name: string, orders: map<OrderNo, Listing>, qty: int, cost: real,
                                   no: OrderNo, ts: int, pick: Listing, newCost: real)
    requires ledger.Valid() && Booked(before, ledger, name, orders, qty, cost)
    requires no !in ledger.table && newCost == cost + pick.price
    ensures no !in orders && Booked(before, ledger.Add(no, NewRow(ts, name, pick.productId, pick.price)), name, orders[no := pick], qty + 1, newCost)
  {
    AddGrows(before, ledger, name, qty, cost, no, NewRow(ts, name, pick.productId, pick.price));
    KeepsAdd(before, ledger, no, NewRow(ts, name, pick.productId, pick.price));
    PendingAdd(before, ledger, name, orders, no, ts, pick);
  }

  /** The rows added since are for these listings only. */
  ghost predicate AddedFor(before: Ledger, ledger: Ledger, ids: set<string>) {
    forall no :: AddedForAt(before, ledger, ids, no)
  }

  ghost predicate AddedForAt(before: Ledger, ledger: Ledger, ids: set<string>, no: OrderNo) {
    no in ledger.table && no !in before.table ==> ledger.table[no].productId in ids
  }

  ghost predicate SameListingAt(before: Ledger, ledger: Ledger, no: OrderNo) {
    no in ledger.table ==> no in before.table && ledger.table[no].productId == before.table[no].productId
  }

  /** No row is for another listing than before, and none is new. */
  ghost predicate SameListings(before: Ledger, ledger: Ledger) {
    forall no :: SameListingAt(before, ledger, no)
  }

  lemma {:induction false} SameListingsTwice(first: Ledger, second: Ledger, third: Ledger)
    requires SameListings(first, second) && SameListings(second, third)
    ensures SameListings(first, third)
  {
    forall no ensures SameListingAt(first, third, no) {
      assert SameListingAt(first, second, no) && SameListingAt(second, third, no);
    }
  }

  lemma {:induction false} AddedForStays(before: Ledger, ledger: Ledger, after: Ledger, ids: set<string>)
    requires AddedFor(before, ledger, ids) && SameListings(ledger, after)
    ensures AddedFor(before, after, ids)
  {
    forall no ensures AddedForAt(before, after, ids, no) {
      assert AddedForAt(before, ledger, ids, no) && SameListingAt(ledger, after, no);
    }
  }

  lemma {:induction false} PutKeepsListings(ledger: Ledger, no: OrderNo, p: Purchase)
    requires no in ledger.table && p.productId == ledger.table[no].productId
    ensures SameListings(ledger, ledger.Put(no, p))
  {
    forall k ensures SameListingAt(ledger, ledger.Put(no, p), k) {
    }
  }

  lemma {:induction false} AddIsFor(before: Ledger, ledger: Ledger, ids: set<string>, no: OrderNo, p: Purchase)
    requires AddedFor(before, ledger, ids) && p.productId in ids
    ensures AddedFor(before, ledger.Add(no, p), ids)
  {
    forall k ensures AddedForAt(before, ledger.Add(no, p), ids, k) {
      assert AddedForAt(before, ledger, ids, k);
    }
  }

  ghost function IdsOf(picks: seq<Listing>): set<string> {
    set k | 0 <= k < |picks| :: picks[k].productId
  }

  ghost predicate Positive(orders: map<OrderNo, Listing>) {
    forall no :: no in orders ==> 0.0 < orders[no].price
  }

  ghost predicate AllPositive(picks: seq<Listing>) {
    forall k :: 0 <= k < |picks| ==> 0.0 < picks[k].price
  }

  /** The first `i` picks are written down, nothing else has changed. */
  ghost predicate WrittenDown(before: Ledger, ledger: Ledger, name: string, orders: map<OrderNo, Listing>, picks: seq<Listing>, i: nat)
    requires i <= |picks|
  {
    && Booked(before, ledger, name, orders, i, SumBy(orders, PriceOf))
    && Positive(orders) && |orders| == i
    && 0.0 <= SumBy(orders, PriceOf) == Sum(picks) - Sum(picks[i..])
  }

  /** An order for each pick, and for nothing else. */
  ghost predicate OrdersFor(orders: map<OrderNo, Listing>, picks: seq<Listing>) {
    && |orders| == |picks| && (forall no :: no in orders ==> orders[no] in picks)
    && forall l :: l in picks ==> exists no :: no in orders && orders[no] == l
  }

  lemma {:induction false} OneMoreOrder(orders: map<OrderNo, Listing>, picks: seq<Listing>, i: nat, no: OrderNo)
    requires i < |picks| && OrdersFor(orders, picks[..i]) && no !in orders
    ensures OrdersFor(orders[no := picks[i]], picks[..i + 1])
  {
    var after, longer := orders[no := picks[i]], picks[..i + 1];
    assert longer == picks[..i] + [picks[i]];
    SizeSet(orders, no, picks[i]);
    forall l | l in longer ensures exists k :: k in after && after[k] == l {
      if l in picks[..i] {
        var k :| k in orders && orders[k] == l;
        assert after[k] == l;
      } else {
        assert after[no] == l;
      }
    }
  }

  lemma {:induction false} SumRest(picks: seq<Listing>, i: nat)
    requires i < |picks|
    ensures Sum(picks[i..]) == picks[i].price + Sum(picks[i + 1..])
  {
    assert picks[i..][1..] == picks[i + 1..];
  }

  lemma {:induction false} WriteOne(before: Ledger, ledger: Ledger, after: Ledger, name: string, orders: map<OrderNo, Listing>, picks: seq<Listing>, i: nat,
                                    no: OrderNo, ts: int)
    requires ledger.Valid() && i < |picks| && AllPositive(picks)
    requires WrittenDown(before, ledger, name, orders, picks, i)
    requires no !in ledger.table && after == ledger.Add(no, NewRow(ts, name, picks[i].productId, picks[i].price))
    ensures no !in orders && WrittenDown(before, after, name, orders[no := picks[i]], picks, i + 1)
  {
    assert no !in orders by {
      assert PendingAt(before, ledger, name, orders, no);
    }
    With(orders, no, picks[i]);
    SumRest(picks, i);
    BookOne(before, ledger, name, orders, i, SumBy(orders, PriceOf), no, ts, picks[i], SumBy(orders[no := picks[i]], PriceOf));
  }

  lemma {:induction false} PendingPut(before: Ledger, ledger: Ledger, name: string, orders: map<OrderNo, Listing>, no: OrderNo, p: Purchase)
    requires Pending(before, ledger, name, orders)
    ensures Pending(before, ledger.Put(no, p), name, orders - {no})
  {
    forall k ensures PendingAt(before, ledger.Put(no, p), name, orders - {no}, k) {
      assert PendingAt(before, ledger, name, orders, k);
    }
  }

  lemma {:induction false} Without(orders: map<OrderNo, Listing>, no: OrderNo)
    requires no in orders
    ensures |orders| == |orders - {no}| + 1 && SumBy(orders, PriceOf) == SumBy(orders - {no}, PriceOf) + orders[no].price
  {
    SumWithoutKey(orders, PriceOf, no);
    SizeWithoutKey(orders, no);
  }

  /** One order settled: it counts with what was paid, or not at all. */
  lemma {:induction false} SettleOne(before: Ledger, ledger: Ledger, name: string, orders: map<OrderNo, Listing>, qty: int, cost: real,
                                     no: OrderNo, p: Purchase, newQty: int, newCost: real)
    requires ledger.Valid() && Booked(before, ledger, name, orders, qty, cost)
    requires no in orders && p.name == name
    requires newQty == qty - 1 + Number(p) && newCost == cost - orders[no].price + Amount(p)
    ensures no in ledger.table
    ensures Booked(before, ledger.Put(no, p), name, orders - {no}, newQty, newCost)
  {
    assert PendingAt(before, ledger, name, orders, no);
    PutGrows(before, ledger, name, qty, cost, no, p, newQty, newCost);
    KeepsPut(before, ledger, no, p);
    PendingPut(before, ledger, name, orders, no, p);
  }

  /** An order written down backs what is offered for it. */
  lemma {:induction false} PendingBacksOffers(before: Ledger, ledger: Ledger, name: string, orders: map<OrderNo, Listing>, no: OrderNo)
    requires PendingAt(before, ledger, name, orders, no) && no in Offers(name, orders)
    ensures no in ledger.table && Backs(ledger.table[no], Offers(name, orders)[no])
  {
  }

  lemma {:induction false} SoundOffers(before: Ledger, ledger: Ledger, w: World, name: string, orders: map<OrderNo, Listing>, after: World)
    requires Sound(ledger, w) && Pending(before, ledger, name, orders) && Steps(w, Offers(name, orders), after)
    ensures Sound(ledger, after)
  {
    forall no | no in Offers(name, orders) ensures no in ledger.table && Backs(ledger.table[no], Offers(name, orders)[no]) {
      PendingBacksOffers(before, ledger, name, orders, no);
    }
    SoundStep(ledger, w, Offers(name, orders), after);
  }

  /** The changes an answer makes to one order. */
  function BoughtChanges(orderId: string, pay: real): Changes {
    NO_CHANGES.(status := Some(Ok), orderId := Some(orderId), actualPay := Some(pay))
  }

  const FAILED_CHANGES := NO_CHANGES.(status := Some(Failed))

  function BoughtRow(row: Purchase, orderId: string, pay: real): (p: Purchase)
    ensures p == row.(status := Ok, orderId := orderId, actualPay := Some(pay))
  {
    Changed(row, BoughtChanges(orderId, pay))
  }

  function FailedRow(row: Purchase): (p: Purchase)
    ensures p == row.(status := Failed)
  {
    Changed(row, FAILED_CHANGES)
  }

  lemma {:induction false} SettleBought(before: Ledger, ledger: Ledger, after: Ledger, w: World, name: string, orders: map<OrderNo, Listing>,
                                        qty: int, cost: real, s: Success, newCost: real)
    requires Sound(ledger, w) && Booked(before, ledger, name, orders, qty, cost)
    requires s.no in orders && 0.0 < orders[s.no].price && PaidTruly(w, s.no, s.actualPay, orders[s.no].price)
    requires newCost == cost - orders[s.no].price + Pay(s.actualPay, orders[s.no].price)
    requires s.no in ledger.table ==> after == ledger.Put(s.no, BoughtRow(ledger.table[s.no], s.orderId, Pay(s.actualPay, orders[s.no].price)))
    ensures s.no in ledger.table && 0.0 <= Pay(s.actualPay, orders[s.no].price) <= orders[s.no].price
    ensures Sound(after, w) && Booked(before, after, name, orders - {s.no}, qty, newCost)
  {
    assert PendingAt(before, ledger, name, orders, s.no);
    var p := BoughtRow(ledger.table[s.no], s.orderId, Pay(s.actualPay, orders[s.no].price));
    SettleOne(before, ledger, name, orders, qty, cost, s.no, p, qty, newCost);
    assert SoundFor(ledger, w, s.no);
    SoundPut(ledger, w, s.no, p);
  }

  lemma {:induction false} SettleFailed(before: Ledger, ledger: Ledger, after: Ledger, w: World, name: string, orders: map<OrderNo, Listing>,
                                        qty: int, cost: real, no: OrderNo, newQty: int, newCost: real)
    requires Sound(ledger, w) && Booked(before, ledger, name, orders, qty, cost)
    requires no in orders && Settled(w, no) && newQty == qty - 1 && newCost == cost - orders[no].price
    requires no in ledger.table ==> after == ledger.Put(no, FailedRow(ledger.table[no]))
    ensures no in ledger.table
    ensures Sound(after, w) && Booked(before, after, name, orders - {no}, newQty, newCost)
  {
    assert PendingAt(before, ledger, name, orders, no);
    SettleOne(before, ledger, name, orders, qty, cost, no, FailedRow(ledger.table[no]), newQty, newCost);
    assert SoundFor(ledger, w, no);
    SoundPut(ledger, w, no, FailedRow(ledger.table[no]));
  }

  lemma {:induction false} ReceiptStays(r: Receipt, orders: map<OrderNo, Listing>, w: World, after: World)
    requires ReceiptTrue(r, orders, w) && Steps(w, map[], after)
    ensures ReceiptTrue(r, orders, after)
  {
    forall i | 0 <= i < |r.successes| && r.successes[i].no in orders
      ensures PaidTruly(after, r.successes[i].no, r.successes[i].actualPay, orders[r.successes[i].no].price)
    {
      TruthStays(w, after, r.successes[i].no);
    }
    forall i | 0 <= i < |r.failures| && r.failures[i] in orders ensures Settled(after, r.failures[i]) {
      TruthStays(w, after, r.failures[i]);
    }
  }

  /**
   * On the way through an answer: so much is bought, `orders` are still to be settled, and all together stay within
   * what was written down.
   */
  ghost predicate Settling(before: Ledger, ledger: Ledger, name: string, orders: map<OrderNo, Listing>, n: nat, total: real, bought: int, cost: real) {
    && Booked(before, ledger, name, orders, bought + |orders|, cost + SumBy(orders, PriceOf))
    && Positive(orders)
    && 0 <= bought && bought + |orders| <= n
    && 0.0 <= cost && cost + SumBy(orders, PriceOf) <= total
  }

  lemma {:induction false} SettlingFrom(before: Ledger, ledger: Ledger, name: string, orders: map<OrderNo, Listing>, n: nat, total: real, bought: int, cost: real,
                                        qty: int, amount: real)
    requires Booked(before, ledger, name, orders, qty, amount) && Positive(orders)
    requires 0 <= bought && qty == bought + |orders| <= n && 0.0 <= cost && amount == cost + SumBy(orders, PriceOf) <= total
    ensures Settling(before, ledger, name, orders, n, total, bought, cost)
  {
  }

  /** The same with the prices of what is left added up already. */
  lemma {:induction false} BoughtAmong(before: Ledger, ledger: Ledger, after: Ledger, w: World, name: string, orders: map<OrderNo, Listing>,
                                       n: nat, total: real, bought: int, cost: real, sum: real, s: Success, pay: real, rest: real)
    requires Sound(ledger, w) && Booked(before, ledger, name, orders, bought + |orders|, cost + sum) && Positive(orders)
    requires 0 <= bought && bought + |orders| <= n && 0.0 <= cost && cost + sum <= total
    requires s.no in orders && PaidTruly(w, s.no, s.actualPay, orders[s.no].price) && pay == Pay(s.actualPay, orders[s.no].price)
    requires s.no in ledger.table ==> after == ledger.Put(s.no, BoughtRow(ledger.table[s.no], s.orderId, pay))
    requires sum == orders[s.no].price + rest
    ensures s.no in ledger.table && Sound(after, w) && Booked(before, after, name, orders - {s.no}, bought + |orders|, cost + pay + rest)
    ensures 0.0 <= cost + pay && cost + pay + rest <= total && Positive(orders - {s.no})
  {
    SettleBought(before, ledger, after, w, name, orders, bought + |orders|, cost + sum, s, cost + pay + rest);
  }

  lemma {:induction false} BoughtStep(before: Ledger, ledger: Ledger, after: Ledger, w: World, name: string, orders: map<OrderNo, Listing>,
                                      n: nat, total: real, bought: int, cost: real, s: Success, pay: real)
    requires Sound(ledger, w) && Settling(before, ledger, name, orders, n, total, bought, cost)
    requires s.no in orders && PaidTruly(w, s.no, s.actualPay, orders[s.no].price) && pay == Pay(s.actualPay, orders[s.no].price)
    requires s.no in ledger.table ==> after == ledger.Put(s.no, BoughtRow(ledger.table[s.no], s.orderId, pay))
    ensures s.no in ledger.table && Sound(after, w) && Settling(before, after, name, orders - {s.no}, n, total, bought + 1, cost + pay)
  {
    var rest := orders - {s.no};
    Without(orders, s.no);
    BoughtAmong(before, ledger, after, w, name, orders, n, total, bought, cost, SumBy(orders, PriceOf), s, pay, SumBy(rest, PriceOf));
    SettlingFrom(before, after, name, rest, n, total, bought + 1, cost + pay, bought + |orders|, cost + pay + SumBy(rest, PriceOf));
  }

  lemma {:induction false} FailedStep(before: Ledger, ledger: Ledger, after: Ledger, w: World, name: string, orders: map<OrderNo, Listing>,
                                      n: nat, total: real, bought: int, cost: real, no: OrderNo)
    requires Sound(ledger, w) && Settling(before, ledger, name, orders, n, total, bought, cost)
    requires no in orders && Settled(w, no)
    requires no in ledger.table ==> after == ledger.Put(no, FailedRow(ledger.table[no]))
    ensures no in ledger.table && Sound(after, w) && Settling(before, after, name, orders - {no}, n, total, bought, cost)
  {
    var rest := orders - {no};
    var newQty, newCost := bought + |rest|, cost + SumBy(rest, PriceOf);
    Without(orders, no);
    SettleFailed(before, ledger, after, w, name, orders, bought + |orders|, cost + SumBy(orders, PriceOf), no, newQty, newCost);
    SettlingFrom(before, after, name, rest, n, total, bought, cost, newQty, newCost);
  }

  predicate ListedBought(receipt: Receipt, i: nat, no: OrderNo)
    requires i <= |receipt.successes|
  {
    exists j :: 0 <= j < i && receipt.successes[j].no == no
  }

  predicate ListedFailed(receipt: Receipt, i: nat, no: OrderNo)
    requires i <= |receipt.failures|
  {
    exists j :: 0 <= j < i && receipt.failures[j] == no
  }

  /** What an answer makes of an order: a success outweighs a failure, and an order not mentioned stays unknown. */
  function Verdict(receipt: Receipt, no: OrderNo): Status {
    if ListedBought(receipt, |receipt.successes|, no) then Ok
    else if ListedFailed(receipt, |receipt.failures|, no) then Failed
    else Unknown
  }

  /** The first `i` successes are entered. */
  ghost predicate BoughtSoFar(ledger: Ledger, sent: map<OrderNo, Listing>, orders: map<OrderNo, Listing>, receipt: Receipt, i: nat, no: OrderNo)
    requires i <= |receipt.successes|
  {
    && (no in orders ==> no in sent && orders[no] == sent[no])
    && (no in sent ==> (no in orders <==> !ListedBought(receipt, i, no)))
    && (no in sent && no !in orders ==> no in ledger.table && ledger.table[no].status == Ok)
  }

  /** All successes and the first `i` failures are entered. */
  ghost predicate FailedSoFar(ledger: Ledger, sent: map<OrderNo, Listing>, orders: map<OrderNo, Listing>, receipt: Receipt, i: nat, no: OrderNo)
    requires i <= |receipt.failures|
  {
    && (no in orders ==> no in sent && orders[no] == sent[no])
    && (no in sent ==> (no in orders <==> !ListedBought(receipt, |receipt.successes|, no) && !ListedFailed(receipt, i, no)))
    && (no in sent && no !in orders ==>
          no in ledger.table && ledger.table[no].status == if ListedBought(receipt, |receipt.successes|, no) then Ok else Failed)
  }

  ghost predicate TakingSuccesses(before: Ledger, ledger: Ledger, name: string, sent: map<OrderNo, Listing>, orders: map<OrderNo, Listing>,
                                  receipt: Receipt, i: nat, n: nat, total: real, bought: int, cost: real)
    requires i <= |receipt.successes|
  {
    Settling(before, ledger, name, orders, n, total, bought, cost) && forall no :: BoughtSoFar(ledger, sent, orders, receipt, i, no)
  }

  ghost predicate TakingFailures(before: Ledger, ledger: Ledger, name: string, sent: map<OrderNo, Listing>, orders: map<OrderNo, Listing>,
                                 receipt: Receipt, i: nat, n: nat, total: real, bought: int, cost: real)
    requires i <= |receipt.failures|
  {
    Settling(before, ledger, name, orders, n, total, bought, cost) && forall no :: FailedSoFar(ledger, sent, orders, receipt, i, no)
  }

  lemma {:induction false} SuccessTaken(before: Ledger, ledger: Ledger, after: Ledger, w: World, name: string, sent: map<OrderNo, Listing>,
                                        orders: map<OrderNo, Listing>, receipt: Receipt, i: nat, n: nat, total: real, bought: int, cost: real, pay: real)
    requires Sound(ledger, w) && ReceiptTrue(receipt, sent, w) && i < |receipt.successes| && receipt.successes[i].no in orders
    requires TakingSuccesses(before, ledger, name, sent, orders, receipt, i, n, total, bought, cost)
    requires var s := receipt.successes[i];
             && pay == Pay(s.actualPay, orders[s.no].price)
             && after == if s.no in ledger.table then ledger.Put(s.no, BoughtRow(ledger.table[s.no], s.orderId, pay)) else ledger
    ensures Sound(after, w)
    ensures TakingSuccesses(before, after, name, sent, orders - {receipt.successes[i].no}, receipt, i + 1, n, total, bought + 1, cost + pay)
    ensures SameListings(ledger, after)
  {
    var s := receipt.successes[i];
    if s.no in ledger.table {
      PutKeepsListings(ledger, s.no, BoughtRow(ledger.table[s.no], s.orderId, pay));
    }
    var rest := orders - {s.no};
    assert BoughtSoFar(ledger, sent, orders, receipt, i, s.no);
    BoughtStep(before, ledger, after, w, name, orders, n, total, bought, cost, s, pay);
    var next := i + 1;
    forall no ensures BoughtSoFar(after, sent, rest, receipt, next, no) {
      assert BoughtSoFar(ledger, sent, orders, receipt, i, no);
      assert ListedBought(receipt, i + 1, no) <==> ListedBought(receipt, i, no) || s.no == no;
    }
  }

  lemma {:induction false} SuccessSkipped(before: Ledger, ledger: Ledger, name: string, sent: map<OrderNo, Listing>,
                                          orders: map<OrderNo, Listing>, receipt: Receipt, i: nat, n: nat, total: real, bought: int, cost: real)
    requires i < |receipt.successes| && receipt.successes[i].no !in orders
    requires TakingSuccesses(before, ledger, name, sent, orders, receipt, i, n, total, bought, cost)
    ensures TakingSuccesses(before, ledger, name, sent, orders, receipt, i + 1, n, total, bought, cost)
  {
    var next := i + 1;
    forall no ensures BoughtSoFar(ledger, sent, orders, receipt, next, no) {
      assert BoughtSoFar(ledger, sent, orders, receipt, i, no);
      assert ListedBought(receipt, i + 1, no) <==> ListedBought(receipt, i, no) || receipt.successes[i].no == no;
    }
  }

  lemma {:induction false} FailureTaken(before: Ledger, ledger: Ledger, after: Ledger, w: World, name: string, sent: map<OrderNo, Listing>,
                                        orders: map<OrderNo, Listing>, receipt: Receipt, i: nat, n: nat, total: real, bought: int, cost: real)
    requires Sound(ledger, w) && ReceiptTrue(receipt, sent, w) && i < |receipt.failures| && receipt.failures[i] in orders
    requires TakingFailures(before, ledger, name, sent, orders, receipt, i, n, total, bought, cost)
    requires var no := receipt.failures[i];
             after == if no in ledger.table then ledger.Put(no, FailedRow(ledger.table[no])) else ledger
    ensures Sound(after, w)
    ensures TakingFailures(before, after, name, sent, orders - {receipt.failures[i]}, receipt, i + 1, n, total, bought, cost)
    ensures SameListings(ledger, after)
  {
    var failed := receipt.failures[i];
    if failed in ledger.table {
      PutKeepsListings(ledger, failed, FailedRow(ledger.table[failed]));
    }
    var rest := orders - {failed};
    assert FailedSoFar(ledger, sent, orders, receipt, i, failed);
    FailedStep(before, ledger, after, w, name, orders, n, total, bought, cost, failed);
    var next := i + 1;
    forall no ensures FailedSoFar(after, sent, rest, receipt, next, no) {
      assert FailedSoFar(ledger, sent, orders, receipt, i, no);
      assert ListedFailed(receipt, i + 1, no) <==> ListedFailed(receipt, i, no) || failed == no;
    }
  }

  lemma {:induction false} FailureSkipped(before: Ledger, ledger: Ledger, name: string, sent: map<OrderNo, Listing>,
                                          orders: map<OrderNo, Listing>, receipt: Receipt, i: nat, n: nat, total: real, bought: int, cost: real)
    requires i < |receipt.failures| && receipt.failures[i] !in orders
    requires TakingFailures(before, ledger, name, sent, orders, receipt, i, n, total, bought, cost)
    ensures TakingFailures(before, ledger, name, sent, orders, receipt, i + 1, n, total, bought, cost)
  {
    var next := i + 1;
    forall no ensures FailedSoFar(ledger, sent, orders, receipt, next, no) {
      assert FailedSoFar(ledger, sent, orders, receipt, i, no);
      assert ListedFailed(receipt, i + 1, no) <==> ListedFailed(receipt, i, no) || receipt.failures[i] == no;
    }
  }

  lemma {:induction false} SuccessesStart(before: Ledger, ledger: Ledger, name: string, sent: map<OrderNo, Listing>, receipt: Receipt, n: nat, total: real)
    requires Settling(before, ledger, name, sent, n, total, 0, 0.0)
    ensures TakingSuccesses(before, ledger, name, sent, sent, receipt, 0, n, total, 0, 0.0)
  {
    forall no ensures BoughtSoFar(ledger, sent, sent, receipt, 0, no) {
    }
  }

  lemma {:induction false} FailuresStart(before: Ledger, ledger: Ledger, name: string, sent: map<OrderNo, Listing>, orders: map<OrderNo, Listing>,
                                         receipt: Receipt, n: nat, total: real, bought: int, cost: real)
    requires TakingSuccesses(before, ledger, name, sent, orders, receipt, |receipt.successes|, n, total, bought, cost)
    ensures TakingFailures(before, ledger, name, sent, orders, receipt, 0, n, total, bought, cost)
  {
    forall no ensures FailedSoFar(ledger, sent, orders, receipt, 0, no) {
      assert BoughtSoFar(ledger, sent, orders, receipt, |receipt.successes|, no);
    }
  }

  /** The listing of an order that failed, by the first `i` failures and no success. */
  ghost predicate FailedListing(sent: map<OrderNo, Listing>, receipt: Receipt, i: nat, id: string)
    requires i <= |receipt.failures|
  {
    exists no :: no in sent && sent[no].productId == id && !ListedBought(receipt, |receipt.successes|, no) && ListedFailed(receipt, i, no)
  }

  ghost predicate SkipFor(before: map<string, int>, skips: map<string, int>, sent: map<OrderNo, Listing>, receipt: Receipt, i: nat, since: int, now: int,
                          id: string)
    requires i <= |receipt.failures|
  {
    if FailedListing(sent, receipt, i, id) then id in skips && since + 60_000 <= skips[id] <= now + 60_000
    else (id in skips <==> id in before) && (id in skips ==> skips[id] == before[id])
  }

  /** The listings of the failed orders, and no others, are left alone for another minute. */
  ghost predicate SkipsNoted(before: map<string, int>, skips: map<string, int>, sent: map<OrderNo, Listing>, receipt: Receipt, i: nat, since: int, now: int)
    requires i <= |receipt.failures|
  {
    forall id :: SkipFor(before, skips, sent, receipt, i, since, now, id)
  }

  lemma {:induction false} SkipsLater(before: map<string, int>, skips: map<string, int>, sent: map<OrderNo, Listing>, receipt: Receipt, i: nat, since: int,
                                      now: int, later: int)
    requires i <= |receipt.failures| && SkipsNoted(before, skips, sent, receipt, i, since, now) && now <= later
    ensures SkipsNoted(before, skips, sent, receipt, i, since, later)
  {
    forall id ensures SkipFor(before, skips, sent, receipt, i, since, later, id) {
      assert SkipFor(before, skips, sent, receipt, i, since, now, id);
    }
  }

  lemma {:induction false} SkipsEarlier(before: map<string, int>, skips: map<string, int>, sent: map<OrderNo, Listing>, receipt: Receipt, i: nat, since: int,
                                        later: int, now: int)
    requires i <= |receipt.failures| && SkipsNoted(before, skips, sent, receipt, i, later, now) && since <= later
    ensures SkipsNoted(before, skips, sent, receipt, i, since, now)
  {
    forall id ensures SkipFor(before, skips, sent, receipt, i, since, now, id) {
      assert SkipFor(before, skips, sent, receipt, i, later, now, id);
    }
  }

  lemma {:induction false} SkipsNext(ledger: Ledger, before: map<string, int>, skips: map<string, int>, sent: map<OrderNo, Listing>,
                                     orders: map<OrderNo, Listing>, receipt: Receipt, i: nat, since: int, now: int, later: int)
    requires i < |receipt.failures| && SkipsNoted(before, skips, sent, receipt, i, since, now) && since <= now <= later
    requires FailedSoFar(ledger, sent, orders, receipt, i, receipt.failures[i])
    ensures var no := receipt.failures[i];
            SkipsNoted(before, if no in orders then skips[orders[no].productId := later + 60_000] else skips, sent, receipt, i + 1, since, later)
  {
    var failed := receipt.failures[i];
    var after := if failed in orders then skips[orders[failed].productId := later + 60_000] else skips;
    var next := i + 1;
    assert forall no :: ListedFailed(receipt, next, no) <==> ListedFailed(receipt, i, no) || failed == no;
    forall id ensures SkipFor(before, after, sent, receipt, next, since, later, id) {
      assert SkipFor(before, skips, sent, receipt, i, since, now, id);
      assert FailedListing(sent, receipt, next, id) <==> FailedListing(sent, receipt, i, id) || (failed in orders && orders[failed].productId == id);
    }
  }

  ghost predicate AsTold(ledger: Ledger, sent: map<OrderNo, Listing>, receipt: Receipt) {
    forall no :: no in sent ==> no in ledger.table && ledger.table[no].status == Verdict(receipt, no)
  }

  lemma {:induction false} AllAsTold(before: Ledger, ledger: Ledger, name: string, sent: map<OrderNo, Listing>, orders: map<OrderNo, Listing>,
                                     receipt: Receipt, n: nat, total: real, bought: int, cost: real)
    requires TakingFailures(before, ledger, name, sent, orders, receipt, |receipt.failures|, n, total, bought, cost)
    ensures AsTold(ledger, sent, receipt)
  {
    forall no | no in sent ensures no in ledger.table && ledger.table[no].status == Verdict(receipt, no) {
      assert FailedSoFar(ledger, sent, orders, receipt, |receipt.failures|, no);
      assert PendingAt(before, ledger, name, orders, no);
    }
  }

  lemma {:induction false} SumNeverNegative(orders: map<OrderNo, Listing>)
    requires Positive(orders)
    ensures 0.0 <= SumBy(orders, PriceOf)
    decreases orders
  {
    if orders != map[] {
      var no :| no in orders;
      Without(orders, no);
      SumNeverNegative(orders - {no});
    }
  }

  /**
   * What a sweep over one name leaves behind: the counts grew by `qty` and `cost` under this name and nowhere else, no
   * older row was touched, and unless it was cut short these are the numbers it reports.
   */
  ghost predicate Ran(before: Ledger, after: Ledger, name: string, outcome: Outcome, qty: int, cost: real) {
    && Grew(before, after, name, qty, cost) && Keeps(before, after)
    && 0 <= qty && 0.0 <= cost
    && (outcome.Bought? ==> outcome == Bought(qty, cost))
  }

  lemma {:induction false} RanNothing(ledger: Ledger, name: string)
    ensures Ran(ledger, ledger, name, Bought(0, 0.0), 0, 0.0)
  {
  }

  lemma {:induction false} WrittenDownSettles(before: Ledger, ledger: Ledger, name: string, orders: map<OrderNo, Listing>, picks: seq<Listing>, n: nat)
    requires n <= |picks| && WrittenDown(before, ledger, name, orders, picks, n) && AllPositive(picks)
    ensures Settling(before, ledger, name, orders, |picks|, Sum(picks), 0, 0.0)
  {
    SumNotNegative(picks[n..]);
    assert Booked(before, ledger, name, orders, n, SumBy(orders, PriceOf));
  }

  /** All picks are among the orders, at their prices. */
  ghost predicate BatchWritten(orders: map<OrderNo, Listing>, picks: seq<Listing>) {
    |orders| == |picks| && SumBy(orders, PriceOf) == Sum(picks)
  }

  lemma {:induction false} WrittenSum(before: Ledger, ledger: Ledger, name: string, orders: map<OrderNo, Listing>, picks: seq<Listing>)
    requires WrittenDown(before, ledger, name, orders, picks, |picks|)
    ensures BatchWritten(orders, picks)
  {
    assert picks[|picks|..] == [];
  }

  lemma {:induction false} SettlingRan(before: Ledger, ledger: Ledger, name: string, orders: map<OrderNo, Listing>, n: nat, total: real, bought: int, cost: real,
                                       outcome: Outcome, newQty: int, newCost: real)
    requires Settling(before, ledger, name, orders, n, total, bought, cost)
    requires newQty == bought + |orders| && newCost == cost + SumBy(orders, PriceOf)
    requires outcome.Bought? ==> outcome == Bought(newQty, newCost)
    ensures Ran(before, ledger, name, outcome, newQty, newCost) && newQty <= n && newCost <= total
  {
    SumNeverNegative(orders);
  }

  /** Orders the answer does not mention stay unknown, and count with the price offered. */
  method CountUnmentioned(orders: map<OrderNo, Listing>, bought: int, cost: real) returns (qty: int, total: real)
    ensures qty == bought + |orders| && total == cost + SumBy(orders, PriceOf)
  {
    qty, total := bought, cost;
    var rest := orders;
    while rest != map[]
      invariant qty + |rest| == bought + |orders| && total + SumBy(rest, PriceOf) == cost + SumBy(orders, PriceOf)
      decreases rest
    {
      var no :| no in rest;
      Without(rest, no);
      qty, total := qty + 1, total + rest[no].price;
      rest := rest - {no};
    }
  }

  lemma {:induction false} RanCut(before: Ledger, ledger: Ledger, name: string, qty: int, cost: real)
    requires Ran(before, ledger, name, Bought(qty, cost), qty, cost)
    ensures Ran(before, ledger, name, Aborted, qty, cost)
  {
  }

  /** No more than this many, at no more than this much: a purchase may overrun the money by EPS, once. */
  predicate Affords(maxQty: int, money: real, qty: int, cost: real) {
    qty <= Max(0, maxQty) && (cost <= 0.0 || cost <= money + EPS)
  }

  lemma {:induction false} PicksAffordable(picks: seq<Listing>, listings: seq<Listing>, maxPrice: real, maxQty: int, money: real, skipIds: set<string>)
    requires Affordable(picks, listings, maxPrice, maxQty, money, skipIds)
    ensures AllPositive(picks)
    ensures forall qty: int, cost: real :: qty <= |picks| && cost <= Sum(picks) ==> Affords(maxQty, money, qty, cost)
  {
    forall k | 0 <= k < |picks| ensures 0.0 < picks[k].price {
      assert picks[k] in picks;
    }
  }

  /** The row of a quick purchase just sent. */
  ghost predicate QuickRow(before: Ledger, ledger: Ledger, name: string, no: OrderNo, target: real) {
    no !in before.table && no in ledger.table && ledger.table[no] == NewRow(ledger.table[no].ts, name, "", target)
  }

  /** No listing with an order that counts is ordered once more. */
  ghost predicate NoneOrderedAgain(before: Ledger, ledger: Ledger) {
    forall no, other :: no in ledger.table && no !in before.table && other in before.table && Counted(before.table[other]) ==>
      before.table[other].productId == "" || ledger.table[no].productId != before.table[other].productId
  }

  lemma {:induction false} PicksAreNew(before: Ledger, ledger: Ledger, picks: seq<Listing>, listings: seq<Listing>, maxPrice: real, maxQty: int, money: real,
                                       ordered: set<string>, skipped: set<string>)
    requires Affordable(picks, listings, maxPrice, maxQty, money, ordered + skipped) && AddedFor(before, ledger, IdsOf(picks))
    requires forall id :: id in ordered <==> id != "" && exists no :: no in before.table && Counted(before.table[no]) && before.table[no].productId == id
    ensures NoneOrderedAgain(before, ledger)
  {
    forall no, other | no in ledger.table && no !in before.table && other in before.table && Counted(before.table[other])
      ensures before.table[other].productId == "" || ledger.table[no].productId != before.table[other].productId
    {
      assert AddedForAt(before, ledger, IdsOf(picks), no);
      var k :| 0 <= k < |picks| && picks[k].productId == ledger.table[no].productId;
      assert picks[k] in picks;
    }
  }

  lemma {:induction false} QuickAdds(before: Ledger, ledger: Ledger, after: Ledger, name: string, qty: int, cost: real, no: OrderNo, ts: int, target: real)
    requires ledger.Valid() && Ran(before, ledger, name, Bought(qty, cost), qty, cost) && 0.0 < target
    requires no !in ledger.table && after == ledger.Add(no, NewRow(ts, name, "", target))
    ensures Ran(before, after, name, Bought(qty + 1, cost + target), qty + 1, cost + target) && QuickRow(before, after, name, no, target)
  {
    var p := NewRow(ts, name, "", target);
    AddGrows(before, ledger, name, qty, cost, no, p);
    assert KeepsAt(before, ledger, no);
    KeepsAdd(before, ledger, no, p);
  }

  /** The answer to a quick purchase moves its row from the target price to what was paid, or out of the counts. */
  lemma {:induction false} QuickSettles(before: Ledger, ledger: Ledger, after: Ledger, w: World, name: string, qty: int, cost: real, no: OrderNo, target: real,
                                        p: Purchase, newQty: int, newCost: real)
    requires Sound(ledger, w) && QuickRow(before, ledger, name, no, target)
    requires Ran(before, ledger, name, Bought(qty, cost), qty, cost)
    requires p.name == name && p.ts == ledger.table[no].ts && 0.0 <= Cost(p) && after == ledger.Put(no, p)
    requires Settled(w, no) || (Counted(p) && CostsAtMost(w, no, Cost(p))) || (Counted(p) && Cost(p) == target)
    requires newQty == qty - 1 + Number(p) && newCost == cost - target + Amount(p) && 0 <= newQty && 0.0 <= newCost
    ensures Sound(after, w) && Ran(before, after, name, Bought(newQty, newCost), newQty, newCost)
  {
    PutGrows(before, ledger, name, qty, cost, no, p, newQty, newCost);
    KeepsPut(before, ledger, no, p);
    SoundPut(ledger, w, no, p);
  }

  /** Paid, or ordered and not yet known to be paid. */
  function AcceptedChanges(receipt: QuickReceipt, pay: real): Changes {
    var changes := NO_CHANGES.(orderId := Some(receipt.orderId), actualPay := Some(pay));
    if receipt.payStatus == Some(1) then changes.(status := Some(Ok)) else changes
  }

  lemma {:induction false} QuickAccepted(before: Ledger, ledger: Ledger, after: Ledger, w: World, name: string, qty: int, cost: real, no: OrderNo, target: real,
                                         receipt: QuickReceipt, newCost: real)
    requires Sound(ledger, w) && QuickRow(before, ledger, name, no, target) && 0.0 < target
    requires Ran(before, ledger, name, Bought(qty, cost), qty, cost) && PaidTruly(w, no, receipt.actualPay, target)
    requires 0 < qty && 0.0 <= newCost == cost - target + Pay(receipt.actualPay, target)
    requires after == ledger.Put(no, Changed(ledger.table[no], AcceptedChanges(receipt, Pay(receipt.actualPay, target))))
    ensures Sound(after, w) && Ran(before, after, name, Bought(qty, newCost), qty, newCost)
  {
    var p := Changed(ledger.table[no], AcceptedChanges(receipt, Pay(receipt.actualPay, target)));
    QuickSettles(before, ledger, after, w, name, qty, cost, no, target, p, qty, newCost);
  }
}
