/**
 * The buying protocol: write the purchase down as unknown, send the order, settle it by the answer, and let the
 * reconciliation settle what got no answer. The process may die between any two writes and requests.
 */
module C5Sweeper {
  import opened Prelude
  import opened C5Ledger
  import opened C5Picking
  import opened C5World
  import opened C5Booking
  import opened C5Caps
  import opened C5Visits
  import C5Reconcile

  /** A listing that could not be bought is left alone for so long (ms). */
  const FAILED_SKIP_MS := 60_000

  /** How a cycle ends: went through, with more to wait for or not, or cut short, before the orders due were checked or after. */
  datatype CycleResult = Finished(more: bool) | Interrupted(reconciled: bool)

  /** An order whose fate is unknown. */
  predicate AwaitsAnswer(p: Purchase) { p.mode == Live && p.status == Unknown }

  // ----- Reconciliation -----

  /** What an answer about an order makes of its row. Price, cost and name stay. */
  predicate Reconciled(p: Purchase, after: Purchase, at: int, reply: Reply<Option<OrderDetail>>) {
    match reply
    case Answer(Some(d)) =>
      && after == p.(status := after.status, orderId := after.orderId, productId := after.productId, orderStatus := Some(d.status), checkedAt := at)
      && after.status == (if d.status in {11, 220} then Cancelled else if p.status == Unknown then Ok else p.status)
      && after.orderId == (if d.orderId != "" then d.orderId else p.orderId)
      && after.productId == (if d.productId != "" then d.productId else p.productId)
    case Answer(None) =>
      after == p.(status := if p.status == Unknown && p.orderId == "" && at - p.ts > UNKNOWN_GIVEUP_MS then Failed else p.status, checkedAt := at)
    case _ =>
      after == p.(checkedAt := at)
  }

  lemma {:induction false} ReconcileKeepsSound(ledger: Ledger, w: World, no: OrderNo, after: Purchase, at: int, reply: Reply<Option<OrderDetail>>)
    requires Sound(ledger, w) && no in ledger.table && Counted(ledger.table[no]) && Reconciled(ledger.table[no], after, at, reply)
    requires Counted(after) || Settled(w, no)
    ensures Sound(ledger.Put(no, after), w)
  {
    assert SoundFor(ledger, w, no);
    SoundPut(ledger, w, no, after);
  }

  lemma {:induction false} StillCountedOrSettled(ledger: Ledger, w: World, after: World, no: OrderNo, p: Purchase, at: int, reply: Reply<Option<OrderDetail>>)
    requires Sound(ledger, w) && no in ledger.table && Counted(ledger.table[no]) && Reconciled(ledger.table[no], p, at, reply)
    requires at <= w.clock <= after.clock && DetailTrue(reply, no, after)
    ensures Counted(p) || Settled(after, no)
  {
    assert SoundFor(ledger, w, no);
  }

  ghost predicate RefreshingAt(before: Ledger, ledger: Ledger, at: int, asked: set<OrderNo>, no: OrderNo) {
    no in before.table ==>
      no in ledger.table && if no in asked then ledger.table[no].checkedAt == at else ledger.table[no] == before.table[no]
  }

  /** Those asked about so far carry the time of this check, the others are as before; nothing counts for more. */
  ghost predicate Refreshing(before: Ledger, ledger: Ledger, at: int, asked: set<OrderNo>) {
    && ledger.order == before.order && Shrank(before, ledger)
    && forall no :: RefreshingAt(before, ledger, at, asked, no)
  }

  lemma {:induction false} RefreshStep(before: Ledger, ledger: Ledger, at: int, asked: set<OrderNo>, no: OrderNo, p: Purchase, reply: Reply<Option<OrderDetail>>)
    requires ledger.Valid() && Refreshing(before, ledger, at, asked) && no in ledger.table
    requires Reconciled(ledger.table[no], p, at, reply) && Counted(ledger.table[no]) && 0.0 <= Cost(p)
    ensures Refreshing(before, ledger.Put(no, p), at, asked + {no})
  {
    PutShrinks(before, ledger, no, p);
    forall k ensures RefreshingAt(before, ledger.Put(no, p), at, asked + {no}, k) {
      assert RefreshingAt(before, ledger, at, asked, k);
    }
  }

  lemma {:induction false} DistinctPlaces(order: seq<OrderNo>, i: nat, j: nat)
    requires Distinct(order) && i < |order| && j < |order| && order[i] == order[j]
    ensures i == j
  {
    var last := |order| - 1;
    assert forall k :: 0 <= k < last ==> order[k] in order[..last];
    if i < last && j < last {
      DistinctPlaces(order[..last], i, j);
    }
  }

  /** The order numbers at the first `n` selected places. */
  ghost function Numbers(order: seq<OrderNo>, selected: seq<nat>, n: nat): set<OrderNo>
    requires n <= |selected| && forall i :: 0 <= i < |selected| ==> selected[i] < |order|
  {
    if n == 0 then {} else Numbers(order, selected, n - 1) + {order[selected[n - 1]]}
  }

  lemma {:induction false} NumbersAt(order: seq<OrderNo>, selected: seq<nat>, n: nat, k: nat)
    requires n <= |selected| && k < |order| && forall i :: 0 <= i < |selected| ==> selected[i] < |order|
    requires Distinct(order)
    ensures order[k] in Numbers(order, selected, n) <==> k in selected[..n]
  {
    if n > 0 {
      NumbersAt(order, selected, n - 1, k);
      assert selected[..n] == selected[..n - 1] + [selected[n - 1]];
      if order[k] == order[selected[n - 1]] {
        DistinctPlaces(order, k, selected[n - 1]);
      }
    }
  }

  /** No row is asked about twice. */
  lemma {:induction false} SelectedStillOpen(before: Ledger, ledger: Ledger, at: int, selected: seq<nat>, i: nat)
    requires before.Valid() && ledger.Valid() && C5Reconcile.Places(before.Rows(), selected) && i < |selected|
    requires C5Reconcile.Ranked(before.Rows(), selected) && Counted(before.Rows()[selected[i]])
    requires Refreshing(before, ledger, at, Numbers(before.order, selected, i))
    ensures before.order[selected[i]] in ledger.table && Counted(ledger.table[before.order[selected[i]]])
  {
    var no := before.order[selected[i]];
    NumbersAt(before.order, selected, i, selected[i]);
    assert no in before.order;
    assert RefreshingAt(before, ledger, at, Numbers(before.order, selected, i), no);
  }

  lemma {:induction false} AllRefreshed(before: Ledger, ledger: Ledger, at: int, selected: seq<nat>)
    requires before.Valid() && ledger.Valid() && C5Reconcile.Places(before.Rows(), selected)
    requires Refreshing(before, ledger, at, Numbers(before.order, selected, |selected|))
    ensures C5Reconcile.Refreshed(before.Rows(), ledger.Rows(), at, selected)
  {
    forall k | 0 <= k < |before.order| ensures C5Reconcile.RefreshedAt(before.Rows(), ledger.Rows(), at, selected, k) {
      NumbersAt(before.order, selected, |selected|, k);
      assert selected[..|selected|] == selected;
      assert before.order[k] in before.order;
      assert RefreshingAt(before, ledger, at, Numbers(before.order, selected, |selected|), before.order[k]);
    }
  }

  class Sweeper {
    const platform: Platform
    const store: Store
    /** Listings, and names, not to be tried again before some time. */
    var skipUntil: map<string, int>
    var pauseUntil: map<string, int>
    var refreshRequested: bool

    constructor (platform: Platform, store: Store)
      ensures this.platform == platform && this.store == store
      ensures skipUntil == map[] && pauseUntil == map[] && !refreshRequested
    {
      this.platform, this.store := platform, store;
      skipUntil, pauseUntil, refreshRequested := map[], map[], false;
    }

    ghost predicate Ready()
      reads platform`world, store
    {
      platform.behaviour.Honest() && Sound(store.ledger, platform.world)
    }

    /** How often something went wrong: the process died, an answer needed stayed out, or a number was drawn twice. */
    ghost function Troubles(): nat
      reads platform`troubles, store`refusals
    {
      platform.troubles + store.refusals
    }

    /** Between any two writes the process may die. */
    method Wait() returns (alive: bool)
      requires Ready()
      modifies platform`world, platform`troubles
      ensures Troubles() == old(Troubles()) + if alive then 0 else 1
      ensures Ready() && Steps(old(platform.world), map[], platform.world)
    {
      alive := platform.Pulse();
      SoundStep(store.ledger, old(platform.world), map[], platform.world);
    }

    /** A row is changed, unless the process dies before. What was so of the world before still is. */
    method Settle(no: OrderNo, changes: Changes) returns (alive: bool)
      requires Ready()
      modifies platform`world, platform`troubles, store
      ensures Troubles() == old(Troubles()) + if alive then 0 else 1
      ensures Steps(old(platform.world), map[], platform.world) && Sound(old(store.ledger), platform.world)
      ensures store.ledger == if alive && no in old(store.ledger).table then old(store.ledger).Put(no, Changed(old(store.ledger).table[no], changes))
                              else old(store.ledger)
    {
      alive := Wait();
      if alive {
        store.UpdatePurchase(no, changes);
      }
    }

    /** `pause`: no more orders of this name for a while. */
    method Pause(item: Item, settings: Settings)
      modifies `pauseUntil
      ensures pauseUntil == old(pauseUntil)[item.name := platform.world.clock + settings.errorCooldownSec * 1000]
    {
      pauseUntil := pauseUntil[item.name := platform.world.clock + settings.errorCooldownSec * 1000];
    }

    /** A new order written down as unknown, before it is sent. A number already taken is an exception. */
    method WriteDown(name: string, productId: string, price: real) returns (written: bool, no: OrderNo)
      requires Ready() && 0.0 < price
      modifies platform`world, platform`troubles, store
      ensures Troubles() == old(Troubles()) + if written then 0 else 1
      ensures old(platform.world).clock <= platform.world.clock
      ensures Ready()
      ensures written ==> no !in old(store.ledger).table && store.ledger == old(store.ledger).Add(no, NewRow(platform.world.clock, name, productId, price))
      ensures !written ==> store.ledger == old(store.ledger)
    {
      var nonce: nat := *;
      no := OrderNo(platform.world.clock, nonce % 1_000_000);
      written := Wait();
      if written {
        ghost var ledger := store.ledger;
        written := store.AddPurchase(no, platform.world.clock, Live, name, productId, price, Unknown);
        if written {
          SoundAdd(ledger, platform.world, no, NewRow(platform.world.clock, name, productId, price));
        }
      }
    }

    /** All picks written down, each under a number of its own; `n` of them, if the process dies before the end. */
    method WriteDownAll(name: string, picks: seq<Listing>) returns (written: bool, orders: map<OrderNo, Listing>, ghost n: nat)
      requires Ready() && AllPositive(picks)
      modifies platform`world, platform`troubles, store
      ensures Troubles() == old(Troubles()) + if written then 0 else 1
      ensures old(platform.world).clock <= platform.world.clock
      ensures Ready() && n <= |picks| && WrittenDown(old(store.ledger), store.ledger, name, orders, picks, n)
      ensures written ==> n == |picks|
      ensures AddedFor(old(store.ledger), store.ledger, IdsOf(picks))
      ensures written ==> OrdersFor(orders, picks)
    {
      orders, n := map[], 0;
      ghost var before := store.ledger;
      assert picks[0..] == picks;
      for i := 0 to |picks|
        invariant Troubles() == old(Troubles())
        invariant old(platform.world).clock <= platform.world.clock
        invariant Ready() && n == i && WrittenDown(before, store.ledger, name, orders, picks, i)
        invariant AddedFor(before, store.ledger, IdsOf(picks)) && OrdersFor(orders, picks[..i])
      {
        ghost var ledger := store.ledger;
        var done, no := WriteDown(name, picks[i].productId, picks[i].price);
        if !done {
          return false, orders, n;
        }
        WriteOne(before, ledger, store.ledger, name, orders, picks, i, no, platform.world.clock);
        AddIsFor(before, ledger, IdsOf(picks), no, NewRow(platform.world.clock, name, picks[i].productId, picks[i].price));
        OneMoreOrder(orders, picks, i, no);
        orders, n := orders[no := picks[i]], n + 1;
      }
      assert picks[..|picks|] == picks;
      written := true;
    }

    /** One order the answer lists as bought, unless the process dies; a number not waiting to be settled is passed over. */
    method TakeSuccess(name: string, sent: map<OrderNo, Listing>, left: map<OrderNo, Listing>, receipt: Receipt, i: nat, bought: int, cost: real,
                       ghost before: Ledger, ghost first: Ledger, ghost n: nat, ghost total: real)
      returns (alive: bool, orders: map<OrderNo, Listing>, newBought: int, newCost: real)
      requires Ready() && ReceiptTrue(receipt, sent, platform.world) && i < |receipt.successes| && SameListings(first, store.ledger)
      requires TakingSuccesses(before, store.ledger, name, sent, left, receipt, i, n, total, bought, cost)
      modifies platform`world, platform`troubles, store
      ensures Troubles() == old(Troubles()) + if alive then 0 else 1
      ensures Ready() && ReceiptTrue(receipt, sent, platform.world) && SameListings(first, store.ledger)
      ensures TakingSuccesses(before, store.ledger, name, sent, orders, receipt, if alive then i + 1 else i, n, total, newBought, newCost)
      ensures var s := receipt.successes[i];
              if alive && s.no in left then
                && newBought == bought + 1 && newCost == cost + (if s.actualPay == None || s.actualPay == Some(0.0) then left[s.no].price else s.actualPay.value)
              else newBought == bought && newCost == cost
      ensures old(platform.world).clock <= platform.world.clock
    {
      var s := receipt.successes[i];
      alive, orders, newBought, newCost := true, left, bought, cost;
      if s.no !in left {
        SuccessSkipped(before, store.ledger, name, sent, left, receipt, i, n, total, bought, cost);
        return;
      }
      var pay := Pay(s.actualPay, left[s.no].price);
      ghost var w, ledger := platform.world, store.ledger;
      alive := Settle(s.no, BoughtChanges(s.orderId, pay));
      ReceiptStays(receipt, sent, w, platform.world);
      if alive {
        SuccessTaken(before, ledger, store.ledger, platform.world, name, sent, left, receipt, i, n, total, bought, cost, pay);
        SameListingsTwice(first, ledger, store.ledger);
        orders, newBought, newCost := left - {s.no}, bought + 1, cost + pay;
      }
    }

    /** The orders the answer lists as bought: each counts with what was paid. */
    method TakeSuccesses(name: string, sent: map<OrderNo, Listing>, receipt: Receipt, ghost before: Ledger, ghost n: nat, ghost total: real)
      returns (alive: bool, orders: map<OrderNo, Listing>, bought: int, cost: real, ghost taken: nat)
      requires Ready() && Settling(before, store.ledger, name, sent, n, total, 0, 0.0) && ReceiptTrue(receipt, sent, platform.world)
      modifies platform`world, platform`troubles, store
      ensures Troubles() == old(Troubles()) + if alive then 0 else 1
      ensures Ready() && ReceiptTrue(receipt, sent, platform.world) && SameListings(old(store.ledger), store.ledger)
      ensures taken <= |receipt.successes| && TakingSuccesses(before, store.ledger, name, sent, orders, receipt, taken, n, total, bought, cost)
      ensures alive ==> taken == |receipt.successes|
      ensures old(platform.world).clock <= platform.world.clock
    {
      orders, bought, cost, alive := sent, 0, 0.0, true;
      ghost var first := store.ledger;
      SuccessesStart(before, first, name, sent, receipt, n, total);
      for i := 0 to |receipt.successes|
        invariant Troubles() == old(Troubles())
        invariant alive && Ready() && ReceiptTrue(receipt, sent, platform.world) && SameListings(first, store.ledger)
        invariant TakingSuccesses(before, store.ledger, name, sent, orders, receipt, i, n, total, bought, cost)
        invariant old(platform.world).clock <= platform.world.clock
      {
        alive, orders, bought, cost := TakeSuccess(name, sent, orders, receipt, i, bought, cost, before, first, n, total);
        if !alive {
          taken := i;
          return;
        }
      }
      taken := |receipt.successes|;
    }

    /** One order the answer lists as failed, unless the process dies; its listing is left alone for a while. */
    method TakeFailure(name: string, sent: map<OrderNo, Listing>, left: map<OrderNo, Listing>, skips: map<string, int>, receipt: Receipt, i: nat,
                       bought: int, cost: real, ghost before: Ledger, ghost first: Ledger, ghost n: nat, ghost total: real)
      returns (alive: bool, orders: map<OrderNo, Listing>, newSkips: map<string, int>)
      requires Ready() && ReceiptTrue(receipt, sent, platform.world) && i < |receipt.failures| && SameListings(first, store.ledger)
      requires TakingFailures(before, store.ledger, name, sent, left, receipt, i, n, total, bought, cost)
      modifies platform`world, platform`troubles, store
      ensures Troubles() == old(Troubles()) + if alive then 0 else 1
      ensures Ready() && ReceiptTrue(receipt, sent, platform.world) && SameListings(first, store.ledger)
      ensures TakingFailures(before, store.ledger, name, sent, orders, receipt, if alive then i + 1 else i, n, total, bought, cost)
      ensures old(platform.world).clock <= platform.world.clock
      ensures newSkips == if alive && receipt.failures[i] in left
                          then skips[left[receipt.failures[i]].productId := platform.world.clock + FAILED_SKIP_MS] else skips
    {
      var no := receipt.failures[i];
      alive, orders, newSkips := true, left, skips;
      if no !in left {
        FailureSkipped(before, store.ledger, name, sent, left, receipt, i, n, total, bought, cost);
        return;
      }
      ghost var w, ledger := platform.world, store.ledger;
      alive := Settle(no, FAILED_CHANGES);
      ReceiptStays(receipt, sent, w, platform.world);
      if alive {
        FailureTaken(before, ledger, store.ledger, platform.world, name, sent, left, receipt, i, n, total, bought, cost);
        SameListingsTwice(first, ledger, store.ledger);
        newSkips := skips[left[no].productId := platform.world.clock + FAILED_SKIP_MS];
        orders := left - {no};
      }
    }

    /** The orders the answer lists as failed: they count no more, and their listings are left alone for a while. */
    method TakeFailures(name: string, sent: map<OrderNo, Listing>, left: map<OrderNo, Listing>, bought: int, cost: real, receipt: Receipt,
                        ghost before: Ledger, ghost n: nat, ghost total: real)
      returns (alive: bool, orders: map<OrderNo, Listing>, skips: map<string, int>, ghost taken: nat)
      requires Ready() && ReceiptTrue(receipt, sent, platform.world)
      requires TakingFailures(before, store.ledger, name, sent, left, receipt, 0, n, total, bought, cost)
      modifies platform`world, platform`troubles, store
      ensures Troubles() == old(Troubles()) + if alive then 0 else 1
      ensures Ready() && taken <= |receipt.failures| && TakingFailures(before, store.ledger, name, sent, orders, receipt, taken, n, total, bought, cost)
      ensures alive ==> taken == |receipt.failures|
      ensures SameListings(old(store.ledger), store.ledger) && old(platform.world).clock <= platform.world.clock
      ensures SkipsNoted(skipUntil, skips, sent, receipt, taken, old(platform.world).clock, platform.world.clock)
    {
      orders, alive, skips := left, true, skipUntil;
      ghost var first, since := store.ledger, platform.world.clock;
      for i := 0 to |receipt.failures|
        invariant Troubles() == old(Troubles())
        invariant alive && Ready() && ReceiptTrue(receipt, sent, platform.world) && SameListings(first, store.ledger)
        invariant TakingFailures(before, store.ledger, name, sent, orders, receipt, i, n, total, bought, cost)
        invariant since <= platform.world.clock && SkipsNoted(skipUntil, skips, sent, receipt, i, since, platform.world.clock)
      {
        ghost var ledger, rest, noted, now := store.ledger, orders, skips, platform.world.clock;
        alive, orders, skips := TakeFailure(name, sent, orders, skips, receipt, i, bought, cost, before, first, n, total);
        if !alive {
          SkipsLater(skipUntil, skips, sent, receipt, i, since, now, platform.world.clock);
          taken := i;
          return;
        }
        SkipsNext(ledger, skipUntil, noted, sent, rest, receipt, i, since, now, platform.world.clock);
      }
      taken := |receipt.failures|;
    }

    /** The platform refused the whole batch: none of its orders counts. */
    method WithdrawAll(name: string, sent: map<OrderNo, Listing>, ghost before: Ledger, ghost n: nat, ghost total: real)
      returns (alive: bool, orders: map<OrderNo, Listing>)
      requires Ready() && Settling(before, store.ledger, name, sent, n, total, 0, 0.0)
      requires forall no :: no in sent ==> Settled(platform.world, no)
      modifies platform`world, platform`troubles, store
      ensures Troubles() == old(Troubles()) + if alive then 0 else 1
      ensures Ready() && Settling(before, store.ledger, name, orders, n, total, 0, 0.0)
      ensures alive ==> orders == map[]
      ensures SameListings(old(store.ledger), store.ledger)
    {
      ghost var first := store.ledger;
      var rest := sent;
      while rest != map[]
        invariant Troubles() == old(Troubles())
        invariant Ready() && Settling(before, store.ledger, name, rest, n, total, 0, 0.0)
        invariant forall no :: no in rest ==> Settled(platform.world, no)
        invariant SameListings(first, store.ledger)
        decreases rest
      {
        var no :| no in rest;
        ghost var w, ledger := platform.world, store.ledger;
        alive := Wait();
        forall k | k in rest ensures Settled(platform.world, k) {
          TruthStays(w, platform.world, k);
        }
        if !alive {
          orders := rest;
          return;
        }
        store.UpdatePurchase(no, FAILED_CHANGES);
        FailedStep(before, ledger, store.ledger, platform.world, name, rest, n, total, 0, 0.0, no);
        PutKeepsListings(ledger, no, FailedRow(ledger.table[no]));
        SameListingsTwice(first, ledger, store.ledger);
        rest := rest - {no};
      }
      alive, orders := true, rest;
    }

    /** `batchBuy`, after a refusal: the name pauses. */
    method WithdrawBatch(item: Item, sent: map<OrderNo, Listing>, settings: Settings, ghost before: Ledger, ghost n: nat, ghost total: real)
      returns (outcome: Outcome, ghost qty: int, ghost cost: real)
      requires Ready() && Settling(before, store.ledger, item.name, sent, n, total, 0, 0.0)
      requires forall no :: no in sent ==> Settled(platform.world, no)
      modifies `pauseUntil, platform`world, platform`troubles, store
      ensures Troubles() == old(Troubles()) + if outcome.Bought? then 0 else 1
      ensures Ready() && Ran(before, store.ledger, item.name, outcome, qty, cost) && qty <= n && cost <= total
      ensures outcome.Bought? ==> outcome == Bought(0, 0.0)
      ensures pauseUntil ==
              if outcome.Bought? then old(pauseUntil)[item.name := platform.world.clock + settings.errorCooldownSec * 1000] else old(pauseUntil)
      ensures SameListings(old(store.ledger), store.ledger) && PausedOnly(old(pauseUntil), pauseUntil, item.name)
    {
      var alive, left := WithdrawAll(item.name, sent, before, n, total);
      outcome := if alive then Bought(0, 0.0) else Aborted;
      qty, cost := |left|, SumBy(left, PriceOf);
      SettlingRan(before, store.ledger, item.name, left, n, total, 0, 0.0, outcome, qty, cost);
      if alive {
        Pause(item, settings);
      }
    }

    /** `batchBuy`, after the answer has come. */
    method SettleReceipt(name: string, sent: map<OrderNo, Listing>, receipt: Receipt, ghost before: Ledger, ghost n: nat, ghost total: real)
      returns (outcome: Outcome, ghost qty: int, ghost cost: real)
      requires Ready() && Settling(before, store.ledger, name, sent, n, total, 0, 0.0) && ReceiptTrue(receipt, sent, platform.world)
      modifies `skipUntil, platform`world, platform`troubles, store
      ensures Troubles() == old(Troubles()) + if outcome.Bought? then 0 else 1
      ensures Ready() && Ran(before, store.ledger, name, outcome, qty, cost) && qty <= n && cost <= total
      ensures outcome.Bought? ==> AsTold(store.ledger, sent, receipt)
      ensures outcome.Bought? ==>
                SkipsNoted(old(skipUntil), skipUntil, sent, receipt, |receipt.failures|, old(platform.world).clock, platform.world.clock)
      ensures SameListings(old(store.ledger), store.ledger)
    {
      ghost var first, since := store.ledger, platform.world.clock;
      var alive, orders, bought, paid;
      ghost var taken;
      alive, orders, bought, paid, taken := TakeSuccesses(name, sent, receipt, before, n, total);
      var skips := skipUntil;
      if alive {
        FailuresStart(before, store.ledger, name, sent, orders, receipt, n, total, bought, paid);
        ghost var ledger := store.ledger;
        ghost var now := platform.world.clock;
        alive, orders, skips, taken := TakeFailures(name, sent, orders, bought, paid, receipt, before, n, total);
        SkipsEarlier(skipUntil, skips, sent, receipt, taken, since, now, platform.world.clock);
        SameListingsTwice(first, ledger, store.ledger);
      }
      qty, cost := bought + |orders|, paid + SumBy(orders, PriceOf);
      outcome := Aborted;
      if alive {
        AllAsTold(before, store.ledger, name, sent, orders, receipt, n, total, bought, paid);
        var number, amount := CountUnmentioned(orders, bought, paid);
        outcome := Bought(number, amount);
      }
      SettlingRan(before, store.ledger, name, orders, n, total, bought, paid, outcome, qty, cost);
      skipUntil := skips;
    }

    /** The batch written down and sent, unless the process dies. Without an answer to go on, the reply counts as broken. */
    method SendBatch(name: string, picks: seq<Listing>) returns (orders: map<OrderNo, Listing>, reply: Reply<Receipt>, ghost entries: seq<Entry>)
      requires Ready() && AllPositive(picks)
      modifies platform`world, platform`troubles, platform`log, store
      ensures Troubles() == old(Troubles()) + if !reply.Broken? then 0 else 1
      ensures Ready() && Settling(old(store.ledger), store.ledger, name, orders, |picks|, Sum(picks), 0, 0.0)
      ensures AddedFor(old(store.ledger), store.ledger, IdsOf(picks)) && BatchTrue(reply, orders, platform.world)
      ensures platform.log == old(platform.log) + entries && OrderedOnce(name, picks, old(platform.world).clock, entries)
      ensures if entries == [] then reply.Broken? else BatchWritten(orders, picks)
    {
      ghost var before := store.ledger;
      var written;
      ghost var n;
      written, orders, n := WriteDownAll(name, picks);
      WrittenDownSettles(before, store.ledger, name, orders, picks, n);
      reply, entries := Broken, [];
      if written {
        var alive := Wait();
        if alive {
          ghost var w := platform.world;
          WrittenSum(before, store.ledger, name, orders, picks);
          reply := platform.BatchBuy(name, orders);
          entries := [Ordered(w.clock, name, orders)];
          SoundOffers(before, store.ledger, w, name, orders, platform.world);
        }
      }
    }

    /** `batchBuy`: write down, send, settle. The report is exactly what the ledger counts more than before. */
    method BatchBuy(item: Item, picks: seq<Listing>, settings: Settings)
      returns (outcome: Outcome, ghost qty: int, ghost cost: real, ghost entries: seq<Entry>)
      requires Ready() && AllPositive(picks)
      modifies `skipUntil, `pauseUntil, platform`world, platform`troubles, platform`log, store
      ensures Troubles() == old(Troubles()) + if outcome.Bought? then 0 else 1
      ensures Ready() && Ran(old(store.ledger), store.ledger, item.name, outcome, qty, cost)
      ensures qty <= |picks| && cost <= Sum(picks)
      ensures AddedFor(old(store.ledger), store.ledger, IdsOf(picks))
      ensures PausedOnly(old(pauseUntil), pauseUntil, item.name)
      ensures platform.log == old(platform.log) + entries && OrderedOnce(item.name, picks, old(platform.world).clock, entries)
      ensures outcome.Bought? ==> entries != []
    {
      ghost var before := store.ledger;
      var orders, reply;
      orders, reply, entries := SendBatch(item.name, picks);
      ghost var pending := store.ledger;
      match reply
      case Answer(receipt) =>
        outcome, qty, cost := SettleReceipt(item.name, orders, receipt, before, |picks|, Sum(picks));
        AddedForStays(before, pending, store.ledger, IdsOf(picks));
      case Rejected =>
        outcome, qty, cost := WithdrawBatch(item, orders, settings, before, |picks|, Sum(picks));
        AddedForStays(before, pending, store.ledger, IdsOf(picks));
      case Lost =>
        outcome := Bought(|picks|, Sum(picks));
        qty, cost := |orders|, SumBy(orders, PriceOf);
        SettlingRan(before, store.ledger, item.name, orders, |picks|, Sum(picks), 0, 0.0, outcome, qty, cost);
      case Broken =>
        outcome := Aborted;
        qty, cost := |orders|, SumBy(orders, PriceOf);
        SettlingRan(before, store.ledger, item.name, orders, |picks|, Sum(picks), 0, 0.0, outcome, qty, cost);
    }

    /** The cheapest listings found, but for those ordered already and those that could not be bought a moment ago. */
    method Pick(item: Item, maxQty: int, money: real, found: seq<Listing>)
      returns (picks: seq<Listing>, ghost ordered: set<string>, ghost skipped: set<string>)
      requires Ready()
      modifies `skipUntil
      ensures forall id :: id in skipUntil <==> id in old(skipUntil) && old(skipUntil)[id] > platform.world.clock
      ensures forall id :: id in skipUntil ==> skipUntil[id] == old(skipUntil)[id]
      ensures BestChoice(picks, found, item.maxPrice, maxQty, money, ordered + skipped)
      ensures LeftAlone(ordered + skipped, store.ledger, old(skipUntil), platform.world.clock)
      ensures forall id :: id in ordered <==>
                id != "" && exists no :: no in store.ledger.table && Counted(store.ledger.table[no]) && store.ledger.table[no].productId == id
    {
      var at := platform.world.clock;
      skipUntil := map id | id in skipUntil && skipUntil[id] > at :: skipUntil[id];
      var ids := store.ProductIds();
      var keys := skipUntil.Keys;
      ordered, skipped := ids, keys;
      picks := PickListings(found, item.maxPrice, maxQty, money, ids + keys);
    }

    /** The picks are bought, unless the sweeping was stopped meanwhile. */
    method OrderPicks(item: Item, picks: seq<Listing>, settings: Settings)
      returns (outcome: Outcome, ghost qty: int, ghost cost: real, ghost entries: seq<Entry>)
      requires Ready() && AllPositive(picks)
      modifies `skipUntil, `pauseUntil, platform`world, platform`troubles, platform`log, store
      ensures Troubles() == old(Troubles()) + if outcome.Bought? then 0 else 1
      ensures Ready() && Ran(old(store.ledger), store.ledger, item.name, outcome, qty, cost)
      ensures (qty <= |picks| && cost <= Sum(picks)) || (qty == 0 && cost == 0.0)
      ensures AddedFor(old(store.ledger), store.ledger, IdsOf(picks))
      ensures PausedOnly(old(pauseUntil), pauseUntil, item.name)
      ensures platform.log == old(platform.log) + entries
      ensures PicksNoted(item.name, picks, old(platform.world).clock, entries, outcome.Bought?)
    {
      outcome, qty, cost := Bought(0, 0.0), 0, 0.0;
      RanNothing(store.ledger, item.name);
      var mayBuy := platform.CanBuy();
      entries := [MayBuy(platform.world.clock, mayBuy)];
      if mayBuy {
        ghost var log, sent := platform.log, [];
        outcome, qty, cost, sent := BatchBuy(item, picks, settings);
        assert (entries + sent)[1..] == sent;
        entries := entries + sent;
      }
    }

    /** The listings found are picked from, and those picked are bought. */
    method BuyFound(item: Item, maxQty: int, money: real, settings: Settings, found: seq<Listing>)
      returns (outcome: Outcome, ghost qty: int, ghost cost: real, ghost entries: seq<Entry>)
      requires Ready()
      modifies `skipUntil, `pauseUntil, platform`world, platform`troubles, platform`log, store
      ensures Troubles() == old(Troubles()) + if outcome.Bought? then 0 else 1
      ensures Ready() && Ran(old(store.ledger), store.ledger, item.name, outcome, qty, cost)
      ensures Affords(maxQty, money, qty, cost)
      ensures NoneOrderedAgain(old(store.ledger), store.ledger)
      ensures PausedOnly(old(pauseUntil), pauseUntil, item.name)
      ensures platform.log == old(platform.log) + entries
      ensures forall k :: 0 <= k < |entries| ==> ListingLimit(item, entries[k]) && old(platform.world).clock <= entries[k].at
      ensures Permitted(entries)
      ensures outcome.Bought? && AllYes(entries) ==>
                exists picks :: BestOrdered(item, old(store.ledger), old(skipUntil), old(platform.world).clock, maxQty, money, found, picks, entries)
    {
      outcome, qty, cost, entries := Bought(0, 0.0), 0, 0.0, [];
      RanNothing(store.ledger, item.name);
      ghost var before, skips, at := store.ledger, skipUntil, platform.world.clock;
      var picks;
      ghost var ordered, skipped;
      picks, ordered, skipped := Pick(item, maxQty, money, found);
      PicksAffordable(picks, found, item.maxPrice, maxQty, money, ordered + skipped);
      if picks != [] {
        outcome, qty, cost, entries := OrderPicks(item, picks, settings);
        PicksAreNew(before, store.ledger, picks, found, item.maxPrice, maxQty, money, ordered, skipped);
        PicksWithinLimit(item, found, maxQty, money, ordered + skipped, picks, at, entries);
      }
      if outcome.Bought? {
        FoundOrdered(item, before, skips, at, maxQty, money, found, ordered + skipped, picks, entries);
      }
    }

    /** `sweepListing`: look up the listings, pick, buy. */
    method SweepListing(item: Item, maxQty: int, money: real, settings: Settings)
      returns (outcome: Outcome, ghost qty: int, ghost cost: real, ghost entries: seq<Entry>)
      requires Ready()
      modifies `skipUntil, `pauseUntil, platform`world, platform`troubles, platform`log, store
      ensures Troubles() == old(Troubles()) + if outcome.Bought? then 0 else 1
      ensures Ready() && Ran(old(store.ledger), store.ledger, item.name, outcome, qty, cost)
      ensures Affords(maxQty, money, qty, cost)
      ensures NoneOrderedAgain(old(store.ledger), store.ledger)
      ensures PausedOnly(old(pauseUntil), pauseUntil, item.name)
      ensures platform.log == old(platform.log) + entries
      ensures forall k :: 0 <= k < |entries| ==> ListingLimit(item, entries[k]) && old(platform.world).clock <= entries[k].at
      ensures Permitted(entries)
      ensures outcome.Bought? ==> Looked(item, old(store.ledger), old(skipUntil), maxQty, money, entries)
      ensures entries != [] && entries[0].Searched?
      ensures entries[0].found.Rejected? || entries[0].found.Lost? ==>
                entries == [entries[0]] && pauseUntil == old(pauseUntil)[item.name := entries[0].at + settings.errorCooldownSec * 1000]
    {
      outcome, qty, cost := Bought(0, 0.0), 0, 0.0;
      RanNothing(store.ledger, item.name);
      ghost var w, ledger, skips := platform.world, store.ledger, skipUntil;
      var reply := platform.SearchProducts(item.name, item.maxPrice);
      ghost var search, more := Searched(platform.world.clock, item.name, item.maxPrice, reply), [];
      SoundStep(ledger, w, map[], platform.world);
      if reply.Broken? {
        outcome := Aborted;
      } else if !reply.Answer? {
        Pause(item, settings);
      } else {
        outcome, qty, cost, more := BuyFound(item, maxQty, money, settings, reply.value);
      }
      entries := [search] + more;
      PermittedConcat([search], more);
      if outcome.Bought? {
        FoundBehind(item, ledger, skips, maxQty, money, search, more);
      }
    }

    /** A quick purchase that did not happen does not count. */
    method WithdrawQuick(item: Item, no: OrderNo, target: real, settings: Settings, ghost before: Ledger, bought: int, paid: real)
      returns (step: Step, newBought: int, newPaid: real)
      requires Ready() && Settled(platform.world, no) && 0 <= bought && 0.0 <= paid && 0.0 < target
      requires QuickRow(before, store.ledger, item.name, no, target)
      requires Ran(before, store.ledger, item.name, Bought(bought + 1, paid + target), bought + 1, paid + target)
      modifies `pauseUntil, platform`world, platform`troubles, store
      ensures Troubles() == old(Troubles()) + if step != Cut then 0 else 1
      ensures PausedOnly(old(pauseUntil), pauseUntil, item.name)
      ensures old(platform.world).clock <= platform.world.clock
      ensures Ready() && Ran(before, store.ledger, item.name, Bought(newBought, newPaid), newBought, newPaid)
      ensures if step == Cut then newBought == bought + 1 && newPaid == paid + target else step == Enough && newBought == bought && newPaid == paid
      ensures step == Enough ==> no in store.ledger.table && store.ledger.table[no].status == Failed
      ensures pauseUntil ==
              if step == Enough then old(pauseUntil)[item.name := platform.world.clock + settings.errorCooldownSec * 1000] else old(pauseUntil)
    {
      ghost var ledger, w := store.ledger, platform.world;
      var alive := Settle(no, FAILED_CHANGES);
      TruthStays(w, platform.world, no);
      if !alive {
        return Cut, bought + 1, paid + target;
      }
      QuickSettles(before, ledger, store.ledger, platform.world, item.name, bought + 1, paid + target, no, target, FailedRow(ledger.table[no]), bought, paid);
      Pause(item, settings);
      return Enough, bought, paid;
    }

    /** A quick purchase that happened counts with what was paid; while the platform has not said so, it stays unknown. */
    method AcceptQuick(item: Item, no: OrderNo, target: real, receipt: QuickReceipt, ghost before: Ledger, bought: int, paid: real)
      returns (step: Step, newBought: int, newPaid: real)
      requires Ready() && PaidTruly(platform.world, no, receipt.actualPay, target) && 0 <= bought && 0.0 <= paid && 0.0 < target
      requires QuickRow(before, store.ledger, item.name, no, target)
      requires Ran(before, store.ledger, item.name, Bought(bought + 1, paid + target), bought + 1, paid + target)
      modifies platform`world, platform`troubles, store
      ensures Troubles() == old(Troubles()) + if step != Cut then 0 else 1
      ensures old(platform.world).clock <= platform.world.clock
      ensures Ready() && Ran(before, store.ledger, item.name, Bought(newBought, newPaid), newBought, newPaid)
      ensures step != Enough && newBought == bought + 1 && newPaid <= paid + target
      ensures step == Again ==>
                && newPaid == paid + (if receipt.actualPay == None || receipt.actualPay == Some(0.0) then target else receipt.actualPay.value)
                && no in store.ledger.table && store.ledger.table[no].actualPay == Some(newPaid - paid)
                && store.ledger.table[no].status == (if receipt.payStatus == Some(1) then Ok else Unknown)
                && store.ledger.table[no].orderId == receipt.orderId
    {
      ghost var ledger, w := store.ledger, platform.world;
      var pay := Pay(receipt.actualPay, target);
      var changes := AcceptedChanges(receipt, pay);
      var alive := Settle(no, changes);
      TruthStays(w, platform.world, no);
      if !alive {
        return Cut, bought + 1, paid + target;
      }
      QuickAccepted(before, ledger, store.ledger, platform.world, item.name, bought + 1, paid + target, no, target, receipt, paid + pay);
      return Again, bought + 1, paid + pay;
    }

    /** The request of a quick purchase, unless the process dies before. */
    method AskQuick(name: string, no: OrderNo, target: real) returns (reply: Reply<QuickReceipt>, ghost entries: seq<Entry>)
      requires Ready() && no in store.ledger.table && Backs(store.ledger.table[no], Exposure(name, target))
      modifies platform`world, platform`troubles, platform`log
      ensures Troubles() == old(Troubles()) + if !reply.Broken? then 0 else 1
      ensures Ready() && QuickTrue(reply, no, target, platform.world) && old(platform.world).clock <= platform.world.clock
      ensures platform.log == old(platform.log) + entries && QuickOnce(name, target, reply, old(platform.world).clock, entries)
    {
      entries := [];
      reply := Broken;
      var alive := Wait();
      if alive {
        ghost var w := platform.world;
        reply := platform.QuickBuy(name, no, target);
        entries := [QuickOrdered(w.clock, name, target, reply)];
        SoundStep(store.ledger, w, map[no := Exposure(name, target)], platform.world);
      }
    }

    /** A quick purchase written down and sent. Without an answer to go on, the reply counts as broken. */
    method SendQuick(item: Item, target: real, ghost before: Ledger, bought: int, paid: real)
      returns (written: bool, no: OrderNo, reply: Reply<QuickReceipt>, ghost entries: seq<Entry>)
      requires Ready() && 0.0 < target && Ran(before, store.ledger, item.name, Bought(bought, paid), bought, paid)
      modifies platform`world, platform`troubles, platform`log, store
      ensures Troubles() == old(Troubles()) + if !reply.Broken? then 0 else 1
      ensures Ready() && old(platform.world).clock <= platform.world.clock
      ensures platform.log == old(platform.log) + entries && QuickOnce(item.name, target, reply, old(platform.world).clock, entries)
      ensures !written ==> reply.Broken? && Ran(before, store.ledger, item.name, Bought(bought, paid), bought, paid)
      ensures written ==> Ran(before, store.ledger, item.name, Bought(bought + 1, paid + target), bought + 1, paid + target)
      ensures written ==> QuickRow(before, store.ledger, item.name, no, target) && QuickTrue(reply, no, target, platform.world)
    {
      ghost var ledger := store.ledger;
      reply, entries := Broken, [];
      written, no := WriteDown(item.name, "", target);
      if written {
        QuickAdds(before, ledger, store.ledger, item.name, bought, paid, no, platform.world.clock, target);
        reply, entries := AskQuick(item.name, no, target);
      }
    }

    /** One quick purchase, from writing it down to settling it by the answer. */
    method QuickBuyOne(item: Item, target: real, settings: Settings, ghost before: Ledger, bought: int, paid: real)
      returns (step: Step, newBought: int, newPaid: real, ghost entries: seq<Entry>)
      requires Ready() && 0.0 < target && 0 <= bought && 0.0 <= paid
      requires Ran(before, store.ledger, item.name, Bought(bought, paid), bought, paid)
      modifies `pauseUntil, platform`world, platform`troubles, platform`log, store
      ensures Troubles() == old(Troubles()) + if step != Cut then 0 else 1
      ensures old(platform.world).clock <= platform.world.clock && PausedOnly(old(pauseUntil), pauseUntil, item.name)
      ensures platform.log == old(platform.log) + entries && QuickStep(item.name, target, old(platform.world).clock, entries, step)
      ensures Ready() && Ran(before, store.ledger, item.name, Bought(newBought, newPaid), newBought, newPaid)
      ensures (newBought == bought && newPaid == paid) || (newBought == bought + 1 && newPaid <= paid + target)
      ensures step == Again ==> newBought == bought + 1
    {
      var written, no, reply;
      ghost var since := platform.world.clock;
      written, no, reply, entries := SendQuick(item, target, before, bought, paid);
      if !written {
        step, newBought, newPaid := Cut, bought, paid;
      } else if reply.Lost? {
        step, newBought, newPaid := Enough, bought + 1, paid + target;
      } else if reply.Broken? {
        step, newBought, newPaid := Cut, bought + 1, paid + target;
      } else if reply.Rejected? || reply.value.payStatus == Some(2) {
        step, newBought, newPaid := WithdrawQuick(item, no, target, settings, before, bought, paid);
      } else {
        step, newBought, newPaid := AcceptQuick(item, no, target, reply.value, before, bought, paid);
      }
      QuickStepped(item.name, target, reply, since, entries, step);
    }

    /** `sweepQuick`: the platform picks, one at a time; until the answer, each counts with the target price. */
    method SweepQuick(item: Item, maxQty: int, money: real, settings: Settings)
      returns (outcome: Outcome, ghost qty: int, ghost cost: real, ghost entries: seq<Entry>)
      requires Ready() && 0.0 < item.maxPrice
      modifies `pauseUntil, platform`world, platform`troubles, platform`log, store
      ensures Troubles() == old(Troubles()) + if outcome.Bought? then 0 else 1
      ensures Ready() && Ran(old(store.ledger), store.ledger, item.name, outcome, qty, cost)
      ensures Affords(maxQty, money, qty, cost)
      ensures PausedOnly(old(pauseUntil), pauseUntil, item.name)
      ensures platform.log == old(platform.log) + entries
      ensures forall k :: 0 <= k < |entries| ==> QuickLimit(item, entries[k]) && old(platform.world).clock <= entries[k].at
      ensures Permitted(entries)
      ensures outcome.Bought? ==> QuicklyAsked(item, maxQty, money, qty, cost, entries)
    {
      var target, bought, paid, going := item.maxPrice, 0, 0.0, true;
      ghost var before, since, log := store.ledger, platform.world.clock, platform.log;
      RanNothing(before, item.name);
      entries := [];
      while going && bought < maxQty && target <= money - paid + EPS
        invariant Troubles() == old(Troubles())
        invariant Ready() && Ran(before, store.ledger, item.name, Bought(bought, paid), bought, paid)
        invariant Affords(maxQty, money, bought, paid)
        invariant since <= platform.world.clock && PausedOnly(old(pauseUntil), pauseUntil, item.name)
        invariant platform.log == log + entries && Quickly(item, since, going, entries)
        decreases going, maxQty - bought
      {
        var mayBuy := platform.CanBuy();
        ghost var asked, now := MayBuy(platform.world.clock, mayBuy), platform.world.clock;
        if !mayBuy {
          QuicklyStopped(item, since, entries, asked);
          entries, going := entries + [asked], false;
          break;
        }
        var step, more, pay;
        ghost var sent;
        step, more, pay, sent := QuickBuyOne(item, target, settings, before, bought, paid);
        ThreeParts(log, entries, [asked], sent);
        QuicklyNext(item, since, entries, asked, sent, now, step);
        entries := entries + [asked] + sent;
        if step == Cut {
          RanCut(before, store.ledger, item.name, more, pay);
          return Aborted, more, pay, entries;
        }
        bought, paid, going := more, pay, step == Again;
      }
      return Bought(bought, paid), bought, paid, entries;
    }

    /** What of the row the answer changes. */
    method ReconcilingChanges(purchase: Purchase, at: int, reply: Reply<Option<OrderDetail>>) returns (changes: Changes)
      requires !reply.Broken?
      ensures Reconciled(purchase, Changed(purchase, changes), at, reply)
    {
      changes := NO_CHANGES.(checkedAt := Some(at));
      if reply.Answer? && reply.value == None {
        if purchase.status == Unknown && purchase.orderId == "" && at - purchase.ts > UNKNOWN_GIVEUP_MS {
          changes := changes.(status := Some(Failed));
        }
      } else if reply.Answer? {
        var detail := reply.value.value;
        changes := changes.(
          orderStatus := Some(detail.status),
          orderId := Some(if detail.orderId != "" then detail.orderId else purchase.orderId),
          productId := Some(if detail.productId != "" then detail.productId else purchase.productId));
        if detail.status in ORDER_CANCELLED {
          changes := changes.(status := Some(Cancelled));
        } else if purchase.status == Unknown {
          changes := changes.(status := Some(Ok));
        }
      }
    }

    /** `refreshOne`: ask about one order and let the answer decide. */
    method RefreshOne(no: OrderNo, at: int) returns (done: bool, ghost reply: Reply<Option<OrderDetail>>)
      requires Ready() && no in store.ledger.table && Counted(store.ledger.table[no]) && at <= platform.world.clock
      modifies platform`world, platform`troubles, store
      ensures Troubles() == old(Troubles()) + if done then 0 else 1
      ensures Ready() && old(platform.world).clock <= platform.world.clock
      ensures if done then
                && no in store.ledger.table && store.ledger == old(store.ledger).Put(no, store.ledger.table[no])
                && Reconciled(old(store.ledger).table[no], store.ledger.table[no], at, reply)
              else store.ledger == old(store.ledger)
    {
      var purchase := store.ledger.table[no];
      ghost var ledger, w := store.ledger, platform.world;
      var answer := platform.GetOrderDetail(no);
      SoundStep(ledger, w, map[], platform.world);
      reply, done := answer, false;
      if answer.Broken? {
        return;
      }
      var changes := ReconcilingChanges(purchase, at, answer);
      StillCountedOrSettled(ledger, w, platform.world, no, Changed(purchase, changes), at, answer);
      ghost var w' := platform.world;
      var alive := Wait();
      TruthStays(w', platform.world, no);
      if alive {
        store.UpdatePurchase(no, changes);
        ReconcileKeepsSound(ledger, platform.world, no, Changed(purchase, changes), at, answer);
        done := true;
      }
    }

    /** `refreshOrders`: ask about the due orders, longest unchecked first. */
    method RefreshOrders(limit: Option<nat>, force: bool) returns (done: bool, count: nat, ghost at: int)
      requires Ready()
      modifies platform`world, platform`troubles, store
      ensures Troubles() == old(Troubles()) + if done then 0 else 1
      ensures Ready() && Shrank(old(store.ledger), store.ledger) && store.ledger.order == old(store.ledger.order)
      ensures at == old(platform.world.clock)
      ensures done ==>
                var rows := old(store.ledger.Rows());
                var selected := C5Reconcile.Selected(rows, at, limit, force);
                count == |selected| && C5Reconcile.Refreshed(rows, store.ledger.Rows(), at, selected)
    {
      ghost var before := store.ledger;
      var now := platform.world.clock;
      var rows, order := store.ledger.Rows(), store.ledger.order;
      var selected := C5Reconcile.Selected(rows, now, limit, force);
      C5Reconcile.SelectedAreDue(rows, now, limit, force);
      at, count, done := now, |selected|, false;
      for i := 0 to |selected|
        invariant Troubles() == old(Troubles())
        invariant Ready() && now <= platform.world.clock
        invariant Refreshing(before, store.ledger, now, Numbers(order, selected, i))
      {
        var no := order[selected[i]];
        SelectedStillOpen(before, store.ledger, now, selected, i);
        ghost var ledger := store.ledger;
        var alive, reply := RefreshOne(no, now);
        if !alive {
          return;
        }
        assert SoundFor(store.ledger, platform.world, no);
        RefreshStep(before, ledger, now, Numbers(order, selected, i), no, store.ledger.table[no], reply);
      }
      AllRefreshed(before, store.ledger, now, selected);
      done := true;
    }

    /** By the strategy set. */
    method Sweep(item: Item, maxQty: int, money: real, settings: Settings)
      returns (outcome: Outcome, ghost qty: int, ghost cost: real, ghost visit: Visit)
      requires Ready() && 0.0 < item.maxPrice
      modifies `skipUntil, `pauseUntil, platform`world, platform`troubles, platform`log, store
      ensures Troubles() == old(Troubles()) + if outcome.Bought? then 0 else 1
      ensures Ready() && Ran(old(store.ledger), store.ledger, item.name, outcome, qty, cost)
      ensures Affords(maxQty, money, qty, cost)
      ensures PausedOnly(old(pauseUntil), pauseUntil, item.name)
      ensures visit == Visit(old(store.ledger), old(skipUntil), visit.entries, store.ledger) && platform.log == old(platform.log) + visit.entries
      ensures AllWithin(item, settings.strategy, old(platform.world).clock, visit.entries)
      ensures outcome.Bought? ==> Asked(item, settings.strategy, maxQty, money, visit)
    {
      ghost var entries, before, skips := [], store.ledger, skipUntil;
      if settings.strategy == Quick {
        outcome, qty, cost, entries := SweepQuick(item, maxQty, money, settings);
      } else {
        outcome, qty, cost, entries := SweepListing(item, maxQty, money, settings);
      }
      visit := Visit(before, skips, entries, store.ledger);
      assert Moved(before, store.ledger, None, item.name, qty, cost);
    }

    /** One item of the cycle: bought by the strategy set, within what is left to it, to the cycle, and of the money. */
    method SweepOne(items: seq<Item>, i: nat, settings: Settings, totals: map<string, Total>, cycleLeft: int, budget: Option<real>, balance: real,
                    ghost before: Ledger, ghost funds: real)
      returns (outcome: Outcome, newLeft: int, newBudget: Option<real>, newBalance: real, ghost visit: Visit)
      requires Ready() && i < |items| && ValidList(items) && Wanted(items[i], totals) && cycleLeft > 0
      requires C5Ledger.Tallied(totals, before.order, before.table)
      requires Tended(before, store.ledger, items, i, settings, cycleLeft, budget, Some(funds), Some(balance))
      modifies `skipUntil, `pauseUntil, platform`world, platform`troubles, platform`log, store
      ensures Troubles() == old(Troubles()) + if outcome.Bought? then 0 else 1
      ensures Ready() && Safe(before, store.ledger, items, settings, Some(funds))
      ensures outcome.Bought? ==> Tended(before, store.ledger, items, i + 1, settings, newLeft, newBudget, Some(funds), Some(newBalance))
      ensures PausedOnly(old(pauseUntil), pauseUntil, items[i].name)
      ensures visit == Visit(old(store.ledger), old(skipUntil), visit.entries, store.ledger) && platform.log == old(platform.log) + visit.entries
      ensures AllWithin(items[i], settings.strategy, old(platform.world).clock, visit.entries)
      ensures outcome.Bought? ==> AskedWith(items[i], settings, before, funds, visit)
    {
      var item := items[i];
      var money := Least(budget, Least(SpendLeft(item, totals), balance));
      var maxQty := Min(QtyLeft(item, totals), cycleLeft);
      ghost var ledger := store.ledger;
      MoneyLeft(before, ledger, items, i, settings, totals, cycleLeft, budget, balance, funds, maxQty, money);
      ghost var qty, cost;
      outcome, qty, cost, visit := Sweep(item, maxQty, money, settings);
      TendedNext(before, ledger, store.ledger, items, i, settings, totals, cycleLeft, budget, funds, balance, outcome, qty, cost, maxQty, money);
      newLeft, newBudget, newBalance := cycleLeft, budget, balance;
      if outcome.Bought? {
        newLeft, newBalance := cycleLeft - outcome.qty, balance - outcome.cost;
        newBudget := if budget.Some? then Some(budget.value - outcome.cost) else None;
      }
    }

    /** The money there is, less what is kept back. */
    method AskBalance(settings: Settings) returns (balance: Option<real>, ghost funds: Option<real>, ghost told: seq<Entry>)
      requires Ready()
      modifies platform`world, platform`troubles, platform`log
      ensures Troubles() == old(Troubles()) + if balance.Some? then 0 else 1
      ensures Ready() && old(platform.world).clock <= platform.world.clock
      ensures platform.log == old(platform.log) + told && (balance.Some? <==> funds.Some?)
      ensures FundsGo(None, told, funds) && AllTold(old(platform.world).clock, told)
      ensures funds.Some? ==> balance.value == funds.value - settings.minBalanceReserve
    {
      ghost var w := platform.world;
      var reply := platform.Balance();
      SoundStep(store.ledger, w, map[], platform.world);
      balance, funds, told := None, None, [];
      if reply.Answer? {
        var amount := if reply.value.Some? then reply.value.value else 0.0;
        balance, funds, told := Some(amount - settings.minBalanceReserve), Some(amount), [Funds(platform.world.clock, amount)];
        ToldOnce(platform.world.clock, amount);
      }
    }

    /** The balance is asked for once in a cycle, when the first item is to be bought. */
    method AskOnce(settings: Settings, balance: Option<real>, ghost before: Ledger, ghost funds: Option<real>)
      returns (newBalance: Option<real>, ghost newFunds: Option<real>, ghost told: seq<Entry>)
      requires Ready() && FundsLeft(before, store.ledger, settings, funds, balance)
      modifies platform`world, platform`troubles, platform`log
      ensures Troubles() == old(Troubles()) + if newBalance.Some? then 0 else 1
      ensures Ready() && FundsLeft(before, store.ledger, settings, newFunds, newBalance) && old(platform.world).clock <= platform.world.clock
      ensures platform.log == old(platform.log) + told && AllTold(old(platform.world).clock, told) && FundsGo(funds, told, newFunds)
    {
      newBalance, newFunds, told := balance, funds, [];
      if balance == None {
        newBalance, newFunds, told := AskBalance(settings);
        if newBalance.Some? {
          FundsTold(before, store.ledger, settings, newFunds.value);
        }
      }
    }

    /** An item that is to be bought. */
    method BuyItem(items: seq<Item>, i: nat, settings: Settings, totals: map<string, Total>, cycleLeft: int, budget: Option<real>, balance: Option<real>,
                   ghost before: Ledger, ghost funds: Option<real>)
      returns (alive: bool, newLeft: int, newBudget: Option<real>, newBalance: Option<real>, ghost told: seq<Entry>, ghost visit: Visit,
               ghost newFunds: Option<real>)
      requires Ready() && ValidList(items) && i < |items| && C5Ledger.Tallied(totals, before.order, before.table)
      requires Wanted(items[i], totals) && cycleLeft > 0 && Tended(before, store.ledger, items, i, settings, cycleLeft, budget, funds, balance)
      modifies `skipUntil, `pauseUntil, platform`world, platform`troubles, platform`log, store
      ensures Troubles() == old(Troubles()) + if alive then 0 else 1
      ensures Ready() && Safe(before, store.ledger, items, settings, newFunds)
      ensures alive ==> Tended(before, store.ledger, items, i + 1, settings, newLeft, newBudget, newFunds, newBalance)
      ensures PausedOnly(old(pauseUntil), pauseUntil, items[i].name)
      ensures visit == Visit(old(store.ledger), old(skipUntil), visit.entries, store.ledger)
      ensures platform.log == old(platform.log) + (told + visit.entries)
      ensures AllWithin(items[i], settings.strategy, old(platform.world).clock, visit.entries)
      ensures AllTold(old(platform.world).clock, told) && FundsGo(funds, told, newFunds)
      ensures alive ==> newFunds.Some? && AskedWith(items[i], settings, before, newFunds.value, visit)
    {
      ghost var log := platform.log;
      newLeft, newBudget := cycleLeft, budget;
      newBalance, newFunds, told := AskOnce(settings, balance, before, funds);
      TendedIsSafe(before, store.ledger, items, i, settings, cycleLeft, budget, newFunds, newBalance);
      if newBalance == None {
        alive, visit := false, Visit(store.ledger, skipUntil, [], store.ledger);
        assert told + [] == told;
        return;
      }
      var outcome, left;
      outcome, newLeft, newBudget, left, visit := SweepOne(items, i, settings, totals, cycleLeft, budget, newBalance.value, before, newFunds.value);
      ConcatAssociative(log, told, visit.entries);
      alive, newBalance := !outcome.Aborted?, Some(left);
    }

    /** The turn of an item after the tests. */
    method TakeTurn(items: seq<Item>, i: nat, settings: Settings, ghost stats: map<string, Option<real>>, totals: map<string, Total>,
                    cycleLeft: int, budget: Option<real>, balance: Option<real>, ghost before: Ledger, ghost pauses: map<string, int>, ghost funds: Option<real>,
                    ghost log: seq<Entry>, ghost first: Entry)
      returns (alive: bool, newLeft: int, newBudget: Option<real>, newBalance: Option<real>, ghost visit: Visit, ghost newFunds: Option<real>)
      requires Ready() && ValidList(items) && i < |items| && C5Ledger.Tallied(totals, before.order, before.table)
      requires Wanted(items[i], totals) && cycleLeft > 0 && Tended(before, store.ledger, items, i, settings, cycleLeft, budget, funds, balance)
      requires AtPrice(items[i], stats) && RoomFor(items[i], before) && first.at == platform.world.clock && platform.log == log + [first]
      requires GoesAhead(items[i], settings, pauses, before, Visit(store.ledger, skipUntil, [first], store.ledger))
      modifies `skipUntil, `pauseUntil, platform`world, platform`troubles, platform`log, store
      ensures Troubles() == old(Troubles()) + if alive then 0 else 1
      ensures Ready() && PausedOnly(old(pauseUntil), pauseUntil, items[i].name) && platform.log == log + visit.entries
      ensures TurnTaken(items, i, settings, stats, pauses, before, old(store.ledger), funds, store.ledger, visit, newFunds,
                        alive, newLeft, newBudget, newBalance)
    {
      ghost var told, swept;
      alive, newLeft, newBudget, newBalance, told, swept, newFunds := BuyItem(items, i, settings, totals, cycleLeft, budget, balance, before, funds);
      BoughtAt(items[i], settings, stats, pauses, before, swept, first, told, funds, newFunds, alive);
      ThreeParts(log, [first], told, swept.entries);
      visit := swept.(entries := [first] + told + swept.entries);
    }

    /** The turn of an item at its price. */
    method OfferTurn(items: seq<Item>, i: nat, settings: Settings, ghost stats: map<string, Option<real>>, totals: map<string, Total>,
                     cycleLeft: int, budget: Option<real>, balance: Option<real>, ghost before: Ledger, ghost pauses: map<string, int>, ghost funds: Option<real>)
      returns (alive: bool, newLeft: int, newBudget: Option<real>, newBalance: Option<real>, ghost visit: Visit, ghost newFunds: Option<real>)
      requires Ready() && ValidList(items) && i < |items| && C5Ledger.Tallied(totals, before.order, before.table)
      requires Tended(before, store.ledger, items, i, settings, cycleLeft, budget, funds, balance)
      requires Wanted(items[i], totals) && AtPrice(items[i], stats) && RoomFor(items[i], before)
      requires SamePause(pauses, pauseUntil, items[i].name)
      modifies `skipUntil, `pauseUntil, platform`world, platform`troubles, platform`log, store
      ensures Troubles() == old(Troubles()) + if alive then 0 else 1
      ensures Ready() && PausedOnly(old(pauseUntil), pauseUntil, items[i].name) && platform.log == old(platform.log) + visit.entries
      ensures TurnTaken(items, i, settings, stats, pauses, before, old(store.ledger), funds, store.ledger, visit, newFunds,
                        alive, newLeft, newBudget, newBalance)
    {
      var item := items[i];
      alive, newLeft, newBudget, newBalance, newFunds := true, cycleLeft, budget, balance, funds;
      ghost var log := platform.log;
      var mayBuy := platform.CanBuy();
      ghost var first := MayBuy(platform.world.clock, mayBuy);
      visit := Visit(store.ledger, skipUntil, [first], store.ledger);
      MayGoAhead(items, i, settings, pauses, pauseUntil, before, cycleLeft, budget, funds, balance, visit);
      if !mayBuy || cycleLeft <= 0 || (item.name in pauseUntil && platform.world.clock < pauseUntil[item.name]) {
        TurnPassed(items, i, settings, stats, pauses, before, store.ledger, skipUntil, visit.entries, cycleLeft, budget, funds, balance);
        return;
      }
      alive, newLeft, newBudget, newBalance, visit, newFunds :=
        TakeTurn(items, i, settings, stats, totals, cycleLeft, budget, balance, before, pauses, funds, log, first);
    }

    /** One turn of the loop of `runCycle`. */
    method VisitItem(items: seq<Item>, i: nat, settings: Settings, stats: map<string, Option<real>>, totals: map<string, Total>,
                     cycleLeft: int, budget: Option<real>, balance: Option<real>, ghost before: Ledger, ghost pauses: map<string, int>, ghost funds: Option<real>)
      returns (alive: bool, newLeft: int, newBudget: Option<real>, newBalance: Option<real>, ghost visit: Visit, ghost newFunds: Option<real>)
      requires Ready() && ValidList(items) && i < |items| && C5Ledger.Tallied(totals, before.order, before.table)
      requires Tended(before, store.ledger, items, i, settings, cycleLeft, budget, funds, balance)
      requires SamePause(pauses, pauseUntil, items[i].name)
      modifies `skipUntil, `pauseUntil, platform`world, platform`troubles, platform`log, store
      ensures Troubles() == old(Troubles()) + if alive then 0 else 1
      ensures Ready() && PausedOnly(old(pauseUntil), pauseUntil, items[i].name) && platform.log == old(platform.log) + visit.entries
      ensures TurnTaken(items, i, settings, stats, pauses, before, old(store.ledger), funds, store.ledger, visit, newFunds,
                        alive, newLeft, newBudget, newBalance)
    {
      var item := items[i];
      ToBeBought(item, stats, totals, before);
      alive, newLeft, newBudget, newBalance := true, cycleLeft, budget, balance;
      visit, newFunds := Visit(store.ledger, skipUntil, [], store.ledger), funds;
      var price := LowestPrice(stats, item.name);
      if !Wanted(item, totals) || price == None || price.value > item.maxPrice + EPS {
        TurnPassed(items, i, settings, stats, pauses, before, store.ledger, skipUntil, visit.entries, cycleLeft, budget, funds, balance);
        return;
      }
      alive, newLeft, newBudget, newBalance, visit, newFunds :=
        OfferTurn(items, i, settings, stats, totals, cycleLeft, budget, balance, before, pauses, funds);
    }

    /**
     * The loop of `runCycle` over the watch list: a turn for each item, and in it the item is asked for exactly if it is to
     * be bought. The caps hold, and what the balance allows, however the loop ends.
     */
    method SweepItems(items: seq<Item>, settings: Settings, stats: map<string, Option<real>>, totals: map<string, Total>)
      returns (done: bool, ghost visits: seq<Visit>, ghost funds: Option<real>)
      requires Ready() && ValidList(items) && C5Ledger.Tallied(totals, store.ledger.order, store.ledger.table)
      modifies `skipUntil, `pauseUntil, platform`world, platform`troubles, platform`log, store
      ensures Troubles() == old(Troubles()) + if done then 0 else 1
      ensures Ready() && Safe(old(store.ledger), store.ledger, items, settings, funds)
      ensures Toured(items, settings, stats, old(pauseUntil), old(store.ledger), visits, funds, store.ledger, old(platform.log), platform.log, done)
      ensures done ==> |visits| == |items|
    {
      ghost var before, pauses, log := store.ledger, pauseUntil, platform.log;
      var spent := SumAll(totals);
      var cycleLeft, budget := settings.maxBuyPerCycle, Left(settings.maxTotalSpend, spent);
      var balance: Option<real> := None;
      CyclingStarts(before, items, settings);
      visits, funds := [], None;
      for i := 0 to |items|
        invariant Troubles() == old(Troubles())
        invariant Ready() && Tended(before, store.ledger, items, i, settings, cycleLeft, budget, funds, balance)
        invariant Touring(items, i, settings, stats, pauses, before, visits, funds, store.ledger, pauseUntil, log, platform.log)
      {
        OwnPauseKept(items, i, pauses, pauseUntil);
        ghost var visit, newFunds, ledger, now, longer := Visit(before, map[], [], before), None, store.ledger, pauseUntil, platform.log;
        done, cycleLeft, budget, balance, visit, newFunds :=
          VisitItem(items, i, settings, stats, totals, cycleLeft, budget, balance, before, pauses, funds);
        TouringNext(items, i, settings, stats, pauses, before, visits, funds, ledger, now, log, longer, visit, newFunds, pauseUntil, done);
        visits, funds := visits + [visit], newFunds;
        if !done {
          return;
        }
      }
      TendedIsSafe(before, store.ledger, items, |items|, settings, cycleLeft, budget, funds, balance);
      done := true;
    }

    /** The reconciliation of a cycle: the first few due orders, or all open ones when forced. */
    method RefreshDue(force: bool) returns (done: bool, ghost turn: C5Reconcile.Turn)
      requires Ready()
      modifies platform`world, platform`troubles, store
      ensures Troubles() == old(Troubles()) + if done then 0 else 1
      ensures Ready() && Shrank(old(store.ledger), store.ledger)
      ensures turn == C5Reconcile.Turn(old(store.ledger.Rows()), old(platform.world.clock), store.ledger.Rows(), store.ledger.Rows())
      ensures done && !force ==> turn.Valid()
      ensures done && force ==> C5Reconcile.AllChecked(old(store.ledger.Rows()), turn.refreshed, turn.at)
    {
      ghost var first := store.ledger;
      var count;
      ghost var at;
      done, count, at := RefreshOrders(if force then None else Some(C5Reconcile.REFRESH_PER_CYCLE), force);
      if done && force {
        C5Reconcile.ForcedChecksAll(first.Rows(), store.ledger.Rows(), at);
      }
      turn := C5Reconcile.Turn(first.Rows(), at, store.ledger.Rows(), store.ledger.Rows());
    }

    method AnyWanted(items: seq<Item>, totals: map<string, Total>) returns (any: bool)
      ensures any <==> exists k :: 0 <= k < |items| && Wanted(items[k], totals)
    {
      any := false;
      for i := 0 to |items|
        invariant any <==> exists k :: 0 <= k < i && Wanted(items[k], totals)
      {
        any := any || Wanted(items[i], totals);
      }
    }

    /** Is there an item left to buy, and money to buy it with? Nothing to do without. */
    method SomethingLeft(items: seq<Item>, settings: Settings, totals: map<string, Total>, ghost before: Ledger) returns (left: bool)
      requires C5Ledger.Tallied(totals, before.order, before.table)
      ensures left <==> AnythingLeft(items, settings, before)
    {
      forall k | 0 <= k < |items| ensures Wanted(items[k], totals) <==> RoomFor(items[k], before) {
        WantedIsRoom(items[k], totals, before);
      }
      var any := AnyWanted(items, totals);
      var spent := SumAll(totals);
      left := any && AboveEps(Left(settings.maxTotalSpend, spent));
    }

    /** What follows the look at the prices: the loop, unless nothing is left to buy. */
    method BuyAll(items: seq<Item>, settings: Settings, stats: map<string, Option<real>>)
      returns (result: CycleResult, ghost visits: seq<Visit>, ghost funds: Option<real>)
      requires Ready() && ValidList(items)
      modifies `skipUntil, `pauseUntil, platform`world, platform`troubles, platform`log, store
      ensures Troubles() == old(Troubles()) + if result.Finished? then 0 else 1
      ensures Ready() && Keeps(old(store.ledger), store.ledger) && CapsHold(old(store.ledger), store.ledger, items, settings)
      ensures platform.log == old(platform.log) + Noted(visits) && (result.Finished? || result == Interrupted(true))
      ensures RoundOf(items, settings, stats, old(pauseUntil), old(store.ledger), visits, funds, store.ledger, result.Finished?)
      ensures result == Finished(false) ==>
                forall no :: no in store.ledger.table ==> store.ledger.table[no].mode != Live || store.ledger.table[no].status != Unknown
      ensures result.Finished? && AnythingLeft(items, settings, old(store.ledger)) ==> result.more
      ensures result == Finished(true) && !AnythingLeft(items, settings, old(store.ledger)) ==>
                exists no :: no in store.ledger.table && store.ledger.table[no].mode == Live && store.ledger.table[no].status == Unknown
    {
      ghost var before := store.ledger;
      visits, funds := [], None;
      var totals := store.Totals();
      var left := SomethingLeft(items, settings, totals, before);
      if !left {
        CapsHoldUnchanged(before, before, items, settings);
        KeepsItself(before);
        var waiting := exists no | no in store.ledger.table :: AwaitsAnswer(store.ledger.table[no]);
        return Finished(waiting), visits, funds;
      }
      var done;
      done, visits, funds := SweepItems(items, settings, stats, totals);
      result := if done then Finished(true) else Interrupted(true);
    }

    /** The cycle from the look at the prices on. */
    method LookAndBuy(items: seq<Item>, settings: Settings) returns (result: CycleResult, ghost round: Option<Round>)
      requires Ready() && ValidList(items)
      modifies `skipUntil, `pauseUntil, platform`world, platform`troubles, platform`log, store
      ensures Troubles() == old(Troubles()) + if result.Finished? then 0 else 1
      ensures Ready() && Keeps(old(store.ledger), store.ledger) && CapsHold(old(store.ledger), store.ledger, items, settings)
      ensures result == Finished(false) ==>
                forall no :: no in store.ledger.table ==> store.ledger.table[no].mode != Live || store.ledger.table[no].status != Unknown
      ensures platform.log == old(platform.log) + if round.Some? then NotedIn(round.value) else []
      ensures round.Some? ==>
                && round.value.before == old(store.ledger)
                && RoundFits(items, settings, old(pauseUntil), round.value, store.ledger, result.Finished?)
      ensures if result.Finished? then round.Some? else result == Interrupted(true)
      ensures result.Finished? && AnythingLeft(items, settings, old(store.ledger)) ==> result.more
      ensures result == Finished(true) && !AnythingLeft(items, settings, old(store.ledger)) ==>
                exists no :: no in store.ledger.table && store.ledger.table[no].mode == Live && store.ledger.table[no].status == Unknown
    {
      ghost var before, log, w := store.ledger, platform.log, platform.world;
      var reply := platform.ItemStats();
      SoundStep(before, w, map[], platform.world);
      if !reply.Answer? {
        KeepsItself(before);
        CapsHoldUnchanged(before, before, items, settings);
        return Interrupted(true), None;
      }
      ghost var at', visits, funds := platform.world.clock, [], None;
      result, visits, funds := BuyAll(items, settings, reply.value);
      round := Some(Round(at', reply.value, before, visits, funds));
      ConcatAssociative(log, [Prices(at', reply.value)], Noted(visits));
    }

    /**
     * `runCycle`: reconcile, look at the prices, buy. What is asked of the platform follows from the prices, the list, the
     * pauses and the counts. However the cycle ends, the ledger still covers the world and the
     * caps hold; a cycle that was not forced is a turn of the reconciliation from the moment the orders due are checked,
     * whether or not the prices can be had and the buying goes through.
     */
    method RunCycle(items: seq<Item>, settings: Settings) returns (result: CycleResult, ghost turn: C5Reconcile.Turn, ghost round: Option<Round>)
      requires Ready() && ValidList(items)
      modifies this, platform`world, platform`troubles, platform`log, store
      ensures Troubles() == old(Troubles()) + if result.Finished? then 0 else 1
      ensures Ready() && CapsHold(old(store.ledger), store.ledger, items, settings)
      ensures result == Finished(false) ==>
                forall no :: no in store.ledger.table ==> store.ledger.table[no].mode != Live || store.ledger.table[no].status != Unknown
      ensures (result.Finished? || result.reconciled) && !old(refreshRequested) ==>
                turn.Valid() && turn.before == old(store.ledger.Rows()) && turn.at == old(platform.world.clock) && turn.after == store.ledger.Rows()
      ensures (result.Finished? || result.reconciled) && old(refreshRequested) ==>
                C5Reconcile.AllChecked(old(store.ledger.Rows()), turn.refreshed, old(platform.world.clock)) && turn.refreshed <= store.ledger.Rows()
      ensures !refreshRequested
      ensures platform.log == old(platform.log) + if round.Some? then NotedIn(round.value) else []
      ensures round.Some? ==>
                && Shrank(old(store.ledger), round.value.before)
                && RoundFits(items, settings, old(pauseUntil), round.value, store.ledger, result.Finished?)
      ensures result.Finished? ==> round.Some?
      ensures round.Some? ==> result != Interrupted(false)
      ensures result.Finished? && AnythingLeft(items, settings, round.value.before) ==> result.more
      ensures result == Finished(true) && !AnythingLeft(items, settings, round.value.before) ==>
                exists no :: no in store.ledger.table && store.ledger.table[no].mode == Live && store.ledger.table[no].status == Unknown
    {
      ghost var first := store.ledger;
      var force := refreshRequested;
      refreshRequested := false;
      var done;
      done, turn := RefreshDue(force);
      ghost var before := store.ledger;
      if !done {
        CapsHoldUnchanged(first, before, items, settings);
        return Interrupted(false), turn, None;
      }
      result, round := LookAndBuy(items, settings);
      CapsHoldAfterShrinking(first, before, store.ledger, items, settings);
      KeepsRows(before, store.ledger);
      turn := turn.(after := store.ledger.Rows());
    }
  }

  /** Everything spent, in whatever order the totals are added up. */
  method SumAll(totals: map<string, Total>) returns (sum: real)
    ensures sum == SumBy(totals, C5Ledger.SpentIn)
  {
    sum := 0.0;
    var rest := totals;
    while rest != map[]
      invariant sum + SumBy(rest, C5Ledger.SpentIn) == SumBy(totals, C5Ledger.SpentIn)
      decreases rest
    {
      var name :| name in rest;
      SumWithoutKey(rest, C5Ledger.SpentIn, name);
      sum := sum + rest[name].spent;
      rest := rest - {name};
    }
  }

  // ----- Whole runs -----

  /** What may happen to the service: a cycle, on the list and the settings saved by then; a restart forgets all but the ledger. */
  datatype Moment = Cycle(items: seq<Item>, settings: Settings) | Reconcile | RequestRefresh | Restart

  ghost predicate Watched(moments: seq<Moment>, item: Item) {
    exists m :: 0 <= m < |moments| && moments[m].Cycle? && item in moments[m].items
  }

  /** No more than to begin with, or than the largest number any cycle allowed. */
  ghost predicate QtyAllowed(moments: seq<Moment>, name: string, start: int, qty: int) {
    qty <= start || exists item :: Watched(moments, item) && item.name == name && qty <= item.maxQty
  }

  /** No more than to begin with, or than the largest amount any cycle allowed, and one EPS; 0 is without limit. */
  ghost predicate SpendAllowed(moments: seq<Moment>, name: string, start: real, spent: real) {
    spent <= start || exists item :: Watched(moments, item) && item.name == name && (item.maxSpend <= 0.0 || spent <= item.maxSpend + EPS)
  }

  ghost predicate TotalAllowed(moments: seq<Moment>, start: real, spent: real) {
    spent <= start
    || exists m :: 0 <= m < |moments| && moments[m].Cycle?
                   && (moments[m].settings.maxTotalSpend <= 0.0 || spent <= moments[m].settings.maxTotalSpend + EPS)
  }

  ghost predicate NameHolds(before: Ledger, ledger: Ledger, moments: seq<Moment>, name: string) {
    && QtyAllowed(moments, name, before.Qty(Some(name)), ledger.Qty(Some(name)))
    && SpendAllowed(moments, name, before.Spent(Some(name)), ledger.Spent(Some(name)))
  }

  /** Over a whole run nothing, and not all together, gets beyond the largest caps by more than one EPS. */
  ghost predicate RunHolds(before: Ledger, ledger: Ledger, moments: seq<Moment>) {
    TotalAllowed(moments, before.Spent(None), ledger.Spent(None)) && forall name :: NameHolds(before, ledger, moments, name)
  }

  lemma {:induction false} RunHoldsLess(first: Ledger, before: Ledger, ledger: Ledger, moments: seq<Moment>)
    requires RunHolds(first, before, moments) && Shrank(before, ledger)
    ensures RunHolds(first, ledger, moments)
  {
    assert AtMost(before, ledger, None);
    forall name ensures NameHolds(first, ledger, moments, name) {
      assert NameHolds(first, before, moments, name) && AtMost(before, ledger, Some(name));
    }
  }

  lemma {:induction false} NameHoldsLonger(first: Ledger, before: Ledger, ledger: Ledger, moments: seq<Moment>, item: Item)
    requires NameHolds(first, before, moments, item.name) && Watched(moments, item) && WithinCaps(before, ledger, item)
    ensures NameHolds(first, ledger, moments, item.name)
  {
  }

  lemma {:induction false} RunHoldsLonger(first: Ledger, before: Ledger, ledger: Ledger, moments: seq<Moment>, i: nat)
    requires i < |moments| && moments[i].Cycle?
    requires RunHolds(first, before, moments) && CapsHold(before, ledger, moments[i].items, moments[i].settings)
    ensures RunHolds(first, ledger, moments)
  {
    var items := moments[i].items;
    forall name ensures NameHolds(first, ledger, moments, name) {
      assert NameHolds(first, before, moments, name);
      if name in NamesOf(items) {
        var k :| 0 <= k < |items| && items[k].name == name;
        assert WithinCaps(before, ledger, items[k]);
        assert Watched(moments, items[k]);
        NameHoldsLonger(first, before, ledger, moments, items[k]);
      } else {
        assert AtMost(before, ledger, Some(name));
      }
    }
  }

  ghost predicate NameReallyHolds(before: Ledger, w: World, moments: seq<Moment>, name: string) {
    && QtyAllowed(moments, name, before.Qty(Some(name)), |Real(w, Some(name))|)
    && SpendAllowed(moments, name, before.Spent(Some(name)), SumBy(Real(w, Some(name)), AmountIn))
  }

  /** What is really bought and spent stays within the largest caps, or within what the ledger counted to begin with. */
  ghost predicate ReallyHolds(before: Ledger, w: World, moments: seq<Moment>) {
    TotalAllowed(moments, before.Spent(None), SumBy(Real(w, None), AmountIn)) && forall name :: NameReallyHolds(before, w, moments, name)
  }

  lemma {:induction false} RunReallyHolds(before: Ledger, ledger: Ledger, w: World, moments: seq<Moment>)
    requires Sound(ledger, w) && RunHolds(before, ledger, moments)
    ensures ReallyHolds(before, w, moments)
  {
    RealWithinCounted(ledger, w, None);
    forall name ensures NameReallyHolds(before, w, moments, name) {
      RealWithinCounted(ledger, w, Some(name));
      assert NameHolds(before, ledger, moments, name);
    }
  }

  /** A request is for an item some cycle watched, by its strategy, and at no more than its target price. */
  ghost predicate LimitKept(moments: seq<Moment>, e: Entry) {
    AsksFor(e) ==>
      exists m, k :: 0 <= m < |moments| && moments[m].Cycle? && 0 <= k < |moments[m].items|
                     && WithinLimit(moments[m].items[k], moments[m].settings.strategy, e)
  }

  /** So is every request added to the log. */
  ghost predicate LimitsKept(moments: seq<Moment>, log: seq<Entry>, longer: seq<Entry>) {
    log <= longer && forall k :: |log| <= k < |longer| ==> LimitKept(moments, longer[k])
  }

  lemma {:induction false} LimitsKeptLonger(moments: seq<Moment>, i: nat, pauses: map<string, int>, round: Option<Round>, after: Ledger, done: bool,
                                            log: seq<Entry>, longer: seq<Entry>)
    requires i < |moments| && moments[i].Cycle? && LimitsKept(moments, log, longer)
    requires round.Some? ==> RoundFits(moments[i].items, moments[i].settings, pauses, round.value, after, done)
    ensures LimitsKept(moments, log, longer + if round.Some? then NotedIn(round.value) else [])
  {
    if round.Some? {
      forall k | 0 <= k < |NotedIn(round.value)| ensures LimitKept(moments, NotedIn(round.value)[k]) {
        RoundIsJustified(moments[i].items, moments[i].settings, pauses, round.value, after, done, k);
      }
    }
  }

  /** Any sequence of cycles, reconciliations and restarts, each cut short anywhere, on any honest platform. */
  method Serve(platform: Platform, store: Store, moments: seq<Moment>)
    requires platform.behaviour.Honest() && Sound(store.ledger, platform.world)
    requires forall m :: 0 <= m < |moments| && moments[m].Cycle? ==> ValidList(moments[m].items)
    modifies platform, store
    ensures Sound(store.ledger, platform.world)
    ensures RunHolds(old(store.ledger), store.ledger, moments)
    ensures ReallyHolds(old(store.ledger), platform.world, moments)
    ensures LimitsKept(moments, old(platform.log), platform.log)
  {
    ghost var first, log := store.ledger, platform.log;
    var sweeper := new Sweeper(platform, store);
    for i := 0 to |moments|
      invariant fresh(sweeper) && sweeper.platform == platform && sweeper.store == store && sweeper.Ready()
      invariant RunHolds(first, store.ledger, moments) && LimitsKept(moments, log, platform.log)
    {
      sweeper := Pass(sweeper, moments, i, first, log);
    }
    RunReallyHolds(first, store.ledger, platform.world, moments);
  }

  /** One moment of a run. */
  method Pass(sweeper: Sweeper, moments: seq<Moment>, i: nat, ghost first: Ledger, ghost log: seq<Entry>) returns (next: Sweeper)
    requires sweeper.Ready() && i < |moments| && (moments[i].Cycle? ==> ValidList(moments[i].items))
    requires RunHolds(first, sweeper.store.ledger, moments) && LimitsKept(moments, log, sweeper.platform.log)
    modifies sweeper, sweeper.platform, sweeper.store
    ensures (next == sweeper || fresh(next)) && next.platform == sweeper.platform && next.store == sweeper.store && next.Ready()
    ensures RunHolds(first, sweeper.store.ledger, moments) && LimitsKept(moments, log, sweeper.platform.log)
    ensures moments[i].Restart? <==> fresh(next)
    ensures fresh(next) ==> next.skipUntil == map[] && next.pauseUntil == map[] && !next.refreshRequested
    ensures moments[i].RequestRefresh? ==> next.refreshRequested
    ensures moments[i].Reconcile? && next.Troubles() == old(sweeper.Troubles()) ==>
              C5Reconcile.AllChecked(old(sweeper.store.ledger.Rows()), next.store.ledger.Rows(), old(sweeper.platform.world.clock))
  {
    ghost var before, pauses, earlier := sweeper.store.ledger, sweeper.pauseUntil, sweeper.platform.log;
    next := sweeper;
    match moments[i]
    case Cycle(items, settings) =>
      var result;
      ghost var turn, round;
      result, turn, round := sweeper.RunCycle(items, settings);
      RunHoldsLonger(first, before, sweeper.store.ledger, moments, i);
      LimitsKeptLonger(moments, i, pauses, round, sweeper.store.ledger, result.Finished?, log, earlier);
    case Reconcile =>
      var done, turn := sweeper.RefreshDue(true);
      RunHoldsLess(first, before, sweeper.store.ledger, moments);
    case RequestRefresh =>
      sweeper.refreshRequested := true;
    case Restart =>
      next := new Sweeper(sweeper.platform, sweeper.store);
  }
}
