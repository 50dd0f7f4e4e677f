/**
 * The trading platform as the buyer meets it: answers may get lost, requests may take effect late, and the process may
 * die at any moment. What is assumed of the platform is `Steps` and the truths of the answers, and nothing else.
 */
module C5World {
  import opened Prelude
  import opened C5Ledger
  import opened C5Picking

  /** After this long (ms) the platform knows every order that took effect. */
  const UNKNOWN_GIVEUP_MS := 120_000

  /** What an order cost, or may still come to cost. */
  datatype Exposure = Exposure(name: string, amount: real)

  /**
   * The orders that took effect, which of them were cancelled since, and the requests that may still take effect. The
   * mood stands for everything else, so that the same question may get another answer another time.
   */
  datatype World = World(clock: int, orders: map<OrderNo, Exposure>, cancelled: set<OrderNo>, inFlight: map<OrderNo, Exposure>, mood: nat)

  // ----- What the world may do by itself, or on a buying request -----

  predicate Within(e: Exposure, limit: Exposure) {
    e.name == limit.name && 0.0 <= e.amount <= limit.amount
  }

  ghost predicate Expected(e: Exposure, w: World, sent: map<OrderNo, Exposure>, no: OrderNo) {
    (no in w.inFlight && Within(e, w.inFlight[no])) || (no in sent && Within(e, sent[no]))
  }

  ghost predicate StepsFor(w: World, sent: map<OrderNo, Exposure>, after: World, no: OrderNo) {
    && (no in w.orders ==> no in after.orders && after.orders[no] == w.orders[no])
    && (no in w.cancelled ==> no in after.cancelled)
    && (no in after.orders && no !in w.orders ==> Expected(after.orders[no], w, sent, no))
    && (no in after.inFlight ==> Expected(after.inFlight[no], w, sent, no))
  }

  /**
   * Time passes; orders in effect stay as they are or get cancelled for good; new ones come only from what was sent
   * now or is in flight, at no more than the price offered.
   */
  ghost predicate Steps(w: World, sent: map<OrderNo, Exposure>, after: World) {
    w.clock <= after.clock && forall no :: StepsFor(w, sent, after, no)
  }

  // ----- What an answer tells -----

  /** `Rejected`: refused or never connected. `Lost`: no answer, a broken one, or a server error. `Broken`: any other exception. */
  datatype Reply<+T> = Answer(value: T) | Rejected | Lost | Broken

  datatype Success = Success(no: OrderNo, actualPay: Option<real>, orderId: string)
  datatype Receipt = Receipt(successes: seq<Success>, failures: seq<OrderNo>)
  datatype QuickReceipt = QuickReceipt(payStatus: Option<int>, actualPay: Option<real>, orderId: string)
  datatype OrderDetail = OrderDetail(status: int, orderId: string, productId: string)

  /** The order costs nothing and never will. */
  ghost predicate Settled(w: World, no: OrderNo) {
    no !in w.inFlight && (no in w.orders ==> no in w.cancelled)
  }

  /** The order costs this much at most. */
  ghost predicate CostsAtMost(w: World, no: OrderNo, amount: real) {
    && (no in w.orders ==> w.orders[no].amount <= amount)
    && (no in w.inFlight ==> w.inFlight[no].amount <= amount)
  }

  /** The price paid where the platform names one, else the price offered. */
  function Pay(actualPay: Option<real>, price: real): real {
    match actualPay
    case Some(pay) => if pay == 0.0 then price else pay
    case None => price
  }

  /** A price named as paid is the most the order costs, and not above the price offered. */
  ghost predicate PaidTruly(w: World, no: OrderNo, actualPay: Option<real>, price: real) {
    actualPay.Some? ==> 0.0 <= actualPay.value <= price && CostsAtMost(w, no, Pay(actualPay, price))
  }

  ghost predicate ReceiptTrue(r: Receipt, orders: map<OrderNo, Listing>, w: World) {
    && (forall i :: 0 <= i < |r.successes| && r.successes[i].no in orders ==>
          PaidTruly(w, r.successes[i].no, r.successes[i].actualPay, orders[r.successes[i].no].price))
    && (forall i :: 0 <= i < |r.failures| && r.failures[i] in orders ==> Settled(w, r.failures[i]))
  }

  ghost predicate BatchTrue(reply: Reply<Receipt>, orders: map<OrderNo, Listing>, w: World) {
    match reply
    case Answer(r) => ReceiptTrue(r, orders, w)
    case Rejected => forall no :: no in orders ==> Settled(w, no)
    case _ => true
  }

  /** Pay status 2 is a failed payment. */
  ghost predicate QuickTrue(reply: Reply<QuickReceipt>, no: OrderNo, price: real, w: World) {
    match reply
    case Answer(r) => PaidTruly(w, no, r.actualPay, price) && (r.payStatus == Some(2) ==> Settled(w, no))
    case Rejected => Settled(w, no)
    case _ => true
  }

  /** Cancelled, withdrawn. */
  const ORDER_CANCELLED: set<int> := {11, 220}

  /** No such order is the truth once the order is old enough; a cancelled one is cancelled. */
  ghost predicate DetailTrue(reply: Reply<Option<OrderDetail>>, no: OrderNo, w: World) {
    match reply
    case Answer(None) => w.clock - no.at > UNKNOWN_GIVEUP_MS ==> Settled(w, no)
    case Answer(Some(d)) => d.status in ORDER_CANCELLED ==> Settled(w, no)
    case _ => true
  }

  // ----- The platform -----

  function Offers(name: string, orders: map<OrderNo, Listing>): map<OrderNo, Exposure> {
    map no | no in orders :: Exposure(name, orders[no].price)
  }

  /** How a platform, the network and the process running the program go on from each state of the world. */
  datatype Behaviour = Behaviour(
    pulse: World -> (World, bool),
    stats: World -> (World, Reply<map<string, Option<real>>>),
    balance: World -> (World, Reply<Option<real>>),
    search: (World, string, real) -> (World, Reply<seq<Listing>>),
    batchBuy: (World, string, map<OrderNo, Listing>) -> (World, Reply<Receipt>),
    quickBuy: (World, string, OrderNo, real) -> (World, Reply<QuickReceipt>),
    detail: (World, OrderNo) -> (World, Reply<Option<OrderDetail>>))
  {
    ghost predicate Honest() {
      && (forall w :: Steps(w, map[], pulse(w).0))
      && (forall w :: Steps(w, map[], stats(w).0))
      && (forall w :: Steps(w, map[], balance(w).0))
      && (forall w, name, maxPrice :: Steps(w, map[], search(w, name, maxPrice).0))
      && (forall w, name, orders :: HonestBatch(w, name, orders))
      && (forall w, name, no, price :: HonestQuick(w, name, no, price))
      && (forall w, no :: HonestDetail(w, no))
    }

    ghost predicate HonestBatch(w: World, name: string, orders: map<OrderNo, Listing>) {
      var (after, reply) := batchBuy(w, name, orders);
      Steps(w, Offers(name, orders), after) && BatchTrue(reply, orders, after)
    }

    ghost predicate HonestQuick(w: World, name: string, no: OrderNo, price: real) {
      var (after, reply) := quickBuy(w, name, no, price);
      Steps(w, map[no := Exposure(name, price)], after) && QuickTrue(reply, no, price, after)
    }

    ghost predicate HonestDetail(w: World, no: OrderNo) {
      var (after, reply) := detail(w, no);
      Steps(w, map[], after) && DetailTrue(reply, no, after)
    }
  }

  /** The dullest of behaviours: nothing ever gets through. */
  function Dropped(w: World): World { w.(inFlight := map[]) }

  const SILENT := Behaviour(
    w => (Dropped(w), true), w => (Dropped(w), Broken), w => (Dropped(w), Broken), (w, name, maxPrice) => (Dropped(w), Broken),
    (w, name, orders) => (Dropped(w), Broken), (w, name, no, price) => (Dropped(w), Broken), (w, no) => (Dropped(w), Broken))

  /** Honesty can be had. */
  lemma {:induction false} SilenceIsHonest()
    ensures SILENT.Honest()
  {
    assert forall w, sent :: Steps(w, sent, Dropped(w));
    assert forall w, name, orders :: SILENT.HonestBatch(w, name, orders);
    assert forall w, name, no, price :: SILENT.HonestQuick(w, name, no, price);
    assert forall w, no :: SILENT.HonestDetail(w, no);
  }

  /** What a cycle is told, and the requests it sends to buy, in order: each with the time when it was over, or for orders was sent. */
  datatype Entry =
    | Prices(at: int, stats: map<string, Option<real>>)
    | MayBuy(at: int, yes: bool)
    | Funds(at: int, amount: real)
    | Searched(at: int, name: string, maxPrice: real, found: Reply<seq<Listing>>)
    | Ordered(at: int, name: string, orders: map<OrderNo, Listing>)
    | QuickOrdered(at: int, name: string, maxPrice: real, reply: Reply<QuickReceipt>)

  /** The platform and the clock: any behaviour, as long as it is honest. */
  class Platform {
    const behaviour: Behaviour
    var world: World
    ghost var log: seq<Entry>
    /** How often the process died, or an answer stayed out that the sweeper cannot do without. */
    ghost var troubles: nat

    constructor (behaviour: Behaviour, w: World)
      ensures this.behaviour == behaviour && world == w && log == []
    {
      this.behaviour := behaviour;
      world := w;
      log, troubles := [], 0;
    }

    /** Asked before every order: not if the sweeping was stopped meanwhile. */
    method CanBuy() returns (yes: bool)
      modifies `log
      ensures log == old(log) + [MayBuy(world.clock, yes)]
    {
      yes := *;
      log := log + [MayBuy(world.clock, yes)];
    }

    /** Time passes; the process may turn out to be dead. */
    method Pulse() returns (alive: bool)
      requires behaviour.Honest()
      modifies `world, `troubles
      ensures troubles == old(troubles) + if alive then 0 else 1
      ensures Steps(old(world), map[], world)
    {
      var result := behaviour.pulse(world);
      world, alive := result.0, result.1;
      troubles := troubles + if alive then 0 else 1;
    }

    /** Lowest prices by name; a name may have none. */
    method ItemStats() returns (reply: Reply<map<string, Option<real>>>)
      requires behaviour.Honest()
      modifies `world, `log, `troubles
      ensures troubles == old(troubles) + if reply.Answer? then 0 else 1
      ensures Steps(old(world), map[], world)
      ensures log == if reply.Answer? then old(log) + [Prices(world.clock, reply.value)] else old(log)
    {
      var result := behaviour.stats(world);
      world, reply := result.0, result.1;
      log := if reply.Answer? then log + [Prices(world.clock, reply.value)] else log;
      troubles := troubles + if reply.Answer? then 0 else 1;
    }

    /** An amount that is missing or cannot be read counts as 0. */
    method Balance() returns (reply: Reply<Option<real>>)
      requires behaviour.Honest()
      modifies `world, `log, `troubles
      ensures troubles == old(troubles) + if reply.Answer? then 0 else 1
      ensures Steps(old(world), map[], world)
      ensures log == if reply.Answer? then old(log) + [Funds(world.clock, if reply.value.Some? then reply.value.value else 0.0)] else old(log)
    {
      var result := behaviour.balance(world);
      world, reply := result.0, result.1;
      log := if reply.Answer? then log + [Funds(world.clock, if reply.value.Some? then reply.value.value else 0.0)] else log;
      troubles := troubles + if reply.Answer? then 0 else 1;
    }

    method SearchProducts(name: string, maxPrice: real) returns (reply: Reply<seq<Listing>>)
      requires behaviour.Honest()
      modifies `world, `log, `troubles
      ensures troubles == old(troubles) + if !reply.Broken? then 0 else 1
      ensures Steps(old(world), map[], world)
      ensures log == old(log) + [Searched(world.clock, name, maxPrice, reply)]
    {
      var result := behaviour.search(world, name, maxPrice);
      world, reply := result.0, result.1;
      log := log + [Searched(world.clock, name, maxPrice, reply)];
      troubles := troubles + if !reply.Broken? then 0 else 1;
    }

    method BatchBuy(name: string, orders: map<OrderNo, Listing>) returns (reply: Reply<Receipt>)
      requires behaviour.Honest()
      modifies `world, `log, `troubles
      ensures troubles == old(troubles) + if !reply.Broken? then 0 else 1
      ensures log == old(log) + [Ordered(old(world).clock, name, orders)]
      ensures Steps(old(world), Offers(name, orders), world)
      ensures BatchTrue(reply, orders, world)
    {
      assert behaviour.HonestBatch(world, name, orders);
      log := log + [Ordered(world.clock, name, orders)];
      var result := behaviour.batchBuy(world, name, orders);
      world, reply := result.0, result.1;
      troubles := troubles + if !reply.Broken? then 0 else 1;
    }

    method QuickBuy(name: string, no: OrderNo, maxPrice: real) returns (reply: Reply<QuickReceipt>)
      requires behaviour.Honest()
      modifies `world, `log, `troubles
      ensures troubles == old(troubles) + if !reply.Broken? then 0 else 1
      ensures log == old(log) + [QuickOrdered(old(world).clock, name, maxPrice, reply)]
      ensures Steps(old(world), map[no := Exposure(name, maxPrice)], world)
      ensures QuickTrue(reply, no, maxPrice, world)
    {
      assert behaviour.HonestQuick(world, name, no, maxPrice);
      var result := behaviour.quickBuy(world, name, no, maxPrice);
      log := log + [QuickOrdered(world.clock, name, maxPrice, result.1)];
      world, reply := result.0, result.1;
      troubles := troubles + if !reply.Broken? then 0 else 1;
    }

    method GetOrderDetail(no: OrderNo) returns (reply: Reply<Option<OrderDetail>>)
      requires behaviour.Honest()
      modifies `world, `troubles
      ensures troubles == old(troubles) + if !reply.Broken? then 0 else 1
      ensures Steps(old(world), map[], world)
      ensures DetailTrue(reply, no, world)
    {
      assert behaviour.HonestDetail(world, no);
      var result := behaviour.detail(world, no);
      world, reply := result.0, result.1;
      troubles := troubles + if !reply.Broken? then 0 else 1;
    }
  }

  // ----- The ledger covers the world -----

  /** The row holds at least as much number and budget as the order takes. */
  predicate Backs(p: Purchase, e: Exposure) {
    Counted(p) && p.name == e.name && e.amount <= Cost(p)
  }

  ghost predicate SoundFor(ledger: Ledger, w: World, no: OrderNo) {
    && (no in w.orders ==> no in ledger.table && (no in w.cancelled || Backs(ledger.table[no], w.orders[no])))
    && (no in w.inFlight ==> no in ledger.table && Backs(ledger.table[no], w.inFlight[no]))
    && (no in ledger.table ==> 0.0 <= Cost(ledger.table[no]) && no.at <= ledger.table[no].ts)
  }

  /** Every order in effect and not cancelled, and every one that may still take effect, is backed by a counted row. */
  ghost predicate Sound(ledger: Ledger, w: World) {
    ledger.Valid() && forall no :: SoundFor(ledger, w, no)
  }

  lemma {:induction false} SoundStep(ledger: Ledger, w: World, sent: map<OrderNo, Exposure>, after: World)
    requires Sound(ledger, w) && Steps(w, sent, after)
    requires forall no :: no in sent ==> no in ledger.table && Backs(ledger.table[no], sent[no])
    ensures Sound(ledger, after)
  {
    forall no ensures SoundFor(ledger, after, no) {
      assert SoundFor(ledger, w, no) && StepsFor(w, sent, after, no);
    }
  }

  lemma {:induction false} SoundAdd(ledger: Ledger, w: World, no: OrderNo, p: Purchase)
    requires Sound(ledger, w) && no !in ledger.table && 0.0 <= Cost(p) && no.at <= p.ts
    ensures Sound(ledger.Add(no, p), w)
  {
    AddIsValid(ledger, no, p);
    forall k ensures SoundFor(ledger.Add(no, p), w, k) {
      assert SoundFor(ledger, w, k);
    }
  }

  /** A row may change if its order is settled, or costs no more than the row still counts, or the row counts as before. */
  lemma {:induction false} SoundPut(ledger: Ledger, w: World, no: OrderNo, p: Purchase)
    requires Sound(ledger, w) && no in ledger.table
    requires 0.0 <= Cost(p) && p.ts == ledger.table[no].ts && p.name == ledger.table[no].name
    requires
      || Settled(w, no)
      || (Counted(ledger.table[no]) && Counted(p) && CostsAtMost(w, no, Cost(p)))
      || ((Counted(ledger.table[no]) ==> Counted(p)) && Cost(p) == Cost(ledger.table[no]))
    ensures Sound(ledger.Put(no, p), w)
  {
    forall k ensures SoundFor(ledger.Put(no, p), w, k) {
      assert SoundFor(ledger, w, k);
    }
  }

  /** What an answer told stays true. */
  lemma {:induction false} TruthStays(w: World, after: World, no: OrderNo)
    requires Steps(w, map[], after)
    ensures Settled(w, no) ==> Settled(after, no)
    ensures forall amount :: CostsAtMost(w, no, amount) ==> CostsAtMost(after, no, amount)
  {
    assert StepsFor(w, map[], after, no);
  }

  // ----- What is really bought and spent -----

  /** The orders in effect and not cancelled. */
  ghost function Real(w: World, which: Option<string>): map<OrderNo, Exposure> {
    map no | no in w.orders && no !in w.cancelled && Concerns(which, w.orders[no].name) :: w.orders[no]
  }

  function AmountIn(e: Exposure): real { e.amount }

  ghost predicate BackedFor(m: map<OrderNo, Exposure>, order: seq<OrderNo>, table: map<OrderNo, Purchase>, which: Option<string>, no: OrderNo) {
    no in m ==> no in order && no in table && Concerns(which, table[no].name) && Backs(table[no], m[no])
  }

  ghost predicate PricedFor(table: map<OrderNo, Purchase>, no: OrderNo) {
    no in table ==> 0.0 <= Cost(table[no])
  }

  lemma {:induction false} BackedSumsWithin(m: map<OrderNo, Exposure>, order: seq<OrderNo>, table: map<OrderNo, Purchase>, which: Option<string>)
    requires forall no :: BackedFor(m, order, table, which, no)
    requires forall no :: PricedFor(table, no)
    ensures |m| <= QtyOf(order, table, which) && SumBy(m, AmountIn) <= SpentOf(order, table, which)
  {
    if order == [] {
      forall no ensures no !in m {
        assert BackedFor(m, order, table, which, no);
      }
      assert m == map[];
    } else {
      var shorter, last := order[..|order| - 1], order[|order| - 1];
      forall no ensures BackedFor(m - {last}, shorter, table, which, no) {
        assert BackedFor(m, order, table, which, no);
        assert no in order && no != last ==> no in shorter;
      }
      BackedSumsWithin(m - {last}, shorter, table, which);
      assert BackedFor(m, order, table, which, last) && PricedFor(table, last);
      SplitOff(m, last);
    }
  }

  lemma {:induction false} SplitOff(m: map<OrderNo, Exposure>, no: OrderNo)
    ensures |m| == |m - {no}| + (if no in m then 1 else 0)
    ensures SumBy(m, AmountIn) == SumBy(m - {no}, AmountIn) + (if no in m then m[no].amount else 0.0)
  {
    if no in m {
      SumWithoutKey(m, AmountIn, no);
      SizeWithoutKey(m, no);
    } else {
      assert m - {no} == m;
    }
  }

  /** While the ledger is sound, nothing more is really bought or spent than the ledger counts, by name and overall. */
  lemma {:induction false} RealWithinCounted(ledger: Ledger, w: World, which: Option<string>)
    requires Sound(ledger, w)
    ensures |Real(w, which)| <= ledger.Qty(which)
    ensures SumBy(Real(w, which), AmountIn) <= ledger.Spent(which)
  {
    var m := Real(w, which);
    forall no ensures BackedFor(m, ledger.order, ledger.table, which, no) && PricedFor(ledger.table, no) {
      assert SoundFor(ledger, w, no);
    }
    BackedSumsWithin(m, ledger.order, ledger.table, which);
  }
}
