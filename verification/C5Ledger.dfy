/** The table of purchases: what counts against the caps, and how one write moves the counts. */
module C5Ledger {
  import opened Prelude

  datatype Mode = Dry | Live
  datatype Status = Unknown | Ok | Failed | Cancelled

  /** The merchant order number: the time it was made, and six random digits. */
  datatype OrderNo = OrderNo(at: int, nonce: nat)

  /** A row; its key, the merchant order number, is kept beside it. No order number from the platform is "". */
  datatype Purchase = Purchase(
    ts: int, mode: Mode, name: string, productId: string, price: real, status: Status,
    orderId: string, actualPay: Option<real>, orderStatus: Option<int>, checkedAt: int)

  /** The price really paid; the order price where the platform named none. */
  function Cost(p: Purchase): real {
    match p.actualPay
    case Some(pay) => pay
    case None => p.price
  }

  /** Takes up number and budget. An order whose fate is unknown does. */
  predicate Counted(p: Purchase) {
    p.mode == Live && (p.status == Ok || p.status == Unknown)
  }

  /** `None` stands for all names together. */
  predicate Concerns(which: Option<string>, name: string) {
    which == None || which == Some(name)
  }

  function Number(p: Purchase): nat { if Counted(p) then 1 else 0 }

  function Amount(p: Purchase): real { if Counted(p) then Cost(p) else 0.0 }

  /** The rows by key, and the keys in the order of insertion, which is also the order of time. */
  datatype Ledger = Ledger(order: seq<OrderNo>, table: map<OrderNo, Purchase>) {
    ghost predicate Valid() {
      Distinct(order) && forall no :: no in order <==> no in table
    }

    /** The rows in order. */
    function Rows(): (rows: seq<Purchase>)
      requires Valid()
    {
      assert forall i :: 0 <= i < |order| ==> order[i] in order;
      seq(|order|, i requires 0 <= i < |order| => table[order[i]])
    }

    function Add(no: OrderNo, p: Purchase): Ledger { Ledger(order + [no], table[no := p]) }

    function Put(no: OrderNo, p: Purchase): Ledger { this.(table := table[no := p]) }

    function Qty(which: Option<string>): nat { QtyOf(order, table, which) }

    function Spent(which: Option<string>): real { SpentOf(order, table, which) }
  }

  // ----- Number and cost of the counted rows -----

  function NumberAt(table: map<OrderNo, Purchase>, no: OrderNo, which: Option<string>): nat {
    if no in table && Concerns(which, table[no].name) then Number(table[no]) else 0
  }

  function AmountAt(table: map<OrderNo, Purchase>, no: OrderNo, which: Option<string>): real {
    if no in table && Concerns(which, table[no].name) then Amount(table[no]) else 0.0
  }

  function QtyOf(order: seq<OrderNo>, table: map<OrderNo, Purchase>, which: Option<string>): nat {
    if order == [] then 0 else QtyOf(order[..|order| - 1], table, which) + NumberAt(table, order[|order| - 1], which)
  }

  function SpentOf(order: seq<OrderNo>, table: map<OrderNo, Purchase>, which: Option<string>): real {
    if order == [] then 0.0 else SpentOf(order[..|order| - 1], table, which) + AmountAt(table, order[|order| - 1], which)
  }

  ghost predicate Distinct(order: seq<OrderNo>) {
    order == [] || (order[|order| - 1] !in order[..|order| - 1] && Distinct(order[..|order| - 1]))
  }

  /** Setting one row moves the counts by its own change; a row not among them does nothing. */
  lemma {:induction false} OneRowMoves(order: seq<OrderNo>, table: map<OrderNo, Purchase>, no: OrderNo, p: Purchase, which: Option<string>)
    requires Distinct(order)
    ensures no !in order ==>
              && QtyOf(order, table[no := p], which) == QtyOf(order, table, which)
              && SpentOf(order, table[no := p], which) == SpentOf(order, table, which)
    ensures no in order ==>
              && QtyOf(order, table[no := p], which) == QtyOf(order, table, which) - NumberAt(table, no, which) + NumberAt(table[no := p], no, which)
              && SpentOf(order, table[no := p], which) == SpentOf(order, table, which) - AmountAt(table, no, which) + AmountAt(table[no := p], no, which)
  {
    if order != [] {
      var rest := order[..|order| - 1];
      assert order == rest + [order[|order| - 1]];
      OneRowMoves(rest, table, no, p, which);
    }
  }

  lemma {:induction false} AppendMoves(order: seq<OrderNo>, table: map<OrderNo, Purchase>, no: OrderNo, p: Purchase, which: Option<string>)
    requires Distinct(order) && no !in order
    ensures QtyOf(order + [no], table[no := p], which) == QtyOf(order, table, which) + NumberAt(table[no := p], no, which)
    ensures SpentOf(order + [no], table[no := p], which) == SpentOf(order, table, which) + AmountAt(table[no := p], no, which)
  {
    OneRowMoves(order, table, no, p, which);
    var longer := order + [no];
    assert longer[..|longer| - 1] == order && longer[|longer| - 1] == no;
  }

  /** From `before` to `after` the counts grew by `qty` and `cost` under one name, and nowhere else. */
  ghost predicate Grew(before: Ledger, after: Ledger, name: string, qty: int, cost: real) {
    forall which: Option<string> :: Moved(before, after, which, name, qty, cost)
  }

  ghost predicate Moved(before: Ledger, after: Ledger, which: Option<string>, name: string, qty: int, cost: real) {
    if Concerns(which, name) then after.Qty(which) == before.Qty(which) + qty && after.Spent(which) == before.Spent(which) + cost
    else after.Qty(which) == before.Qty(which) && after.Spent(which) == before.Spent(which)
  }

  lemma {:induction false} AddIsValid(ledger: Ledger, no: OrderNo, p: Purchase)
    requires ledger.Valid() && no !in ledger.table
    ensures ledger.Add(no, p).Valid()
  {
    assert (ledger.order + [no])[..|ledger.order|] == ledger.order;
  }

  /** A new row. */
  lemma {:induction false} AddGrows(before: Ledger, ledger: Ledger, name: string, qty: int, cost: real, no: OrderNo, p: Purchase)
    requires ledger.Valid() && Grew(before, ledger, name, qty, cost)
    requires no !in ledger.table && p.name == name
    ensures Grew(before, ledger.Add(no, p), name, qty + Number(p), cost + Amount(p))
  {
    var after := ledger.Add(no, p);
    var newQty, newCost := qty + Number(p), cost + Amount(p);
    forall which: Option<string> ensures Moved(before, after, which, name, newQty, newCost) {
      assert Moved(before, ledger, which, name, qty, cost);
      AppendMoves(ledger.order, ledger.table, no, p, which);
    }
  }

  /** A changed row. */
  lemma {:induction false} PutGrows(before: Ledger, ledger: Ledger, name: string, qty: int, cost: real, no: OrderNo, p: Purchase, newQty: int, newCost: real)
    requires ledger.Valid() && Grew(before, ledger, name, qty, cost)
    requires no in ledger.table && ledger.table[no].name == name == p.name
    requires newQty == qty + Number(p) - Number(ledger.table[no])
    requires newCost == cost + Amount(p) - Amount(ledger.table[no])
    ensures Grew(before, ledger.Put(no, p), name, newQty, newCost)
  {
    var after := ledger.Put(no, p);
    forall which: Option<string> ensures Moved(before, after, which, name, newQty, newCost) {
      assert Moved(before, ledger, which, name, qty, cost);
      OneRowMoves(ledger.order, ledger.table, no, p, which);
    }
  }

  ghost predicate KeepsAt(before: Ledger, after: Ledger, no: OrderNo) {
    no in before.table ==> no in after.table && after.table[no] == before.table[no]
  }

  /** The rows that were there are there unchanged, and new ones come after them. */
  ghost predicate Keeps(before: Ledger, after: Ledger) {
    before.order <= after.order && forall no :: KeepsAt(before, after, no)
  }

  lemma {:induction false} KeepsRows(before: Ledger, after: Ledger)
    requires before.Valid() && after.Valid() && Keeps(before, after)
    ensures before.Rows() <= after.Rows()
  {
    forall i | 0 <= i < |before.order| ensures before.Rows()[i] == after.Rows()[i] {
      assert before.order[i] in before.order;
      assert KeepsAt(before, after, before.order[i]);
    }
  }

  /** No count went up. */
  ghost predicate Shrank(before: Ledger, after: Ledger) {
    forall which: Option<string> :: AtMost(before, after, which)
  }

  ghost predicate AtMost(before: Ledger, after: Ledger, which: Option<string>) {
    after.Qty(which) <= before.Qty(which) && after.Spent(which) <= before.Spent(which)
  }

  /** A row that keeps its name and cost, and does not start to count. */
  lemma {:induction false} PutShrinks(before: Ledger, ledger: Ledger, no: OrderNo, p: Purchase)
    requires ledger.Valid() && Shrank(before, ledger)
    requires no in ledger.table && ledger.table[no].name == p.name && 0.0 <= Cost(p) == Cost(ledger.table[no])
    requires Counted(p) ==> Counted(ledger.table[no])
    ensures Shrank(before, ledger.Put(no, p))
  {
    var after := ledger.Put(no, p);
    forall which: Option<string> ensures AtMost(before, after, which) {
      assert AtMost(before, ledger, which);
      OneRowMoves(ledger.order, ledger.table, no, p, which);
    }
  }

  // ----- The store -----

  /** The fields an update names; the others stay. */
  datatype Changes = Changes(
    status: Option<Status>, productId: Option<string>, orderId: Option<string>,
    actualPay: Option<real>, orderStatus: Option<int>, checkedAt: Option<int>)

  const NO_CHANGES := Changes(None, None, None, None, None, None)

  function Or<T>(change: Option<T>, current: T): T { if change.Some? then change.value else current }

  function Changed(p: Purchase, c: Changes): Purchase {
    p.(status := Or(c.status, p.status), productId := Or(c.productId, p.productId), orderId := Or(c.orderId, p.orderId),
       actualPay := if c.actualPay.Some? then c.actualPay else p.actualPay,
       orderStatus := if c.orderStatus.Some? then c.orderStatus else p.orderStatus,
       checkedAt := Or(c.checkedAt, p.checkedAt))
  }

  datatype Total = Total(qty: nat, spent: real)

  /** What a name stands at when no total is kept for it. */
  function TotalOf(totals: map<string, Total>, name: string): Total {
    if name in totals then totals[name] else Total(0, 0.0)
  }

  function SpentIn(total: Total): real { total.spent }

  class Store {
    var ledger: Ledger
    /** How often a row was refused. */
    ghost var refusals: nat

    constructor ()
      ensures ledger == Ledger([], map[])
    {
      ledger, refusals := Ledger([], map[]), 0;
    }

    /** `addPurchase`; the primary key refuses a number already used. */
    method AddPurchase(no: OrderNo, ts: int, mode: Mode, name: string, productId: string, price: real, status: Status) returns (done: bool)
      requires ledger.Valid()
      modifies this
      ensures refusals == old(refusals) + if done then 0 else 1
      ensures done == (no !in old(ledger.table))
      ensures ledger == if done then old(ledger).Add(no, Purchase(ts, mode, name, productId, price, status, "", None, None, 0)) else old(ledger)
      ensures ledger.Valid()
    {
      done := no !in ledger.table;
      refusals := refusals + if done then 0 else 1;
      if done {
        AddIsValid(ledger, no, Purchase(ts, mode, name, productId, price, status, "", None, None, 0));
        ledger := ledger.Add(no, Purchase(ts, mode, name, productId, price, status, "", None, None, 0));
      }
    }

    /** `updatePurchase`; a number nobody uses changes nothing. */
    method UpdatePurchase(no: OrderNo, changes: Changes)
      requires ledger.Valid()
      modifies `ledger
      ensures ledger == if no in old(ledger.table) then old(ledger).Put(no, Changed(old(ledger.table[no]), changes)) else old(ledger)
      ensures ledger.Valid()
    {
      if no in ledger.table {
        ledger := ledger.Put(no, Changed(ledger.table[no], changes));
      }
    }

    /** `totals('live')`, keyed by name. */
    method Totals() returns (totals: map<string, Total>)
      requires ledger.Valid()
      ensures Tallied(totals, ledger.order, ledger.table)
    {
      totals := map[];
      var order, table := ledger.order, ledger.table;
      assert forall i :: 0 <= i < |order| ==> order[i] in table;
      for i := 0 to |order|
        invariant Tallied(totals, order[..i], table)
      {
        totals := WithRow(totals, table[order[i]]);
        StepTallied(order, table, i);
      }
      assert order[..|order|] == order;
    }

    /** `productIds('live')`: the listings already ordered, so as not to be ordered again. */
    method ProductIds() returns (ids: set<string>)
      requires ledger.Valid()
      ensures forall id :: id in ids <==> id != "" && exists no :: no in ledger.table && Counted(ledger.table[no]) && ledger.table[no].productId == id
    {
      ids := set no | no in ledger.table && Counted(ledger.table[no]) && ledger.table[no].productId != "" :: ledger.table[no].productId;
    }
  }

  /** One more row entered under its name, if it counts. */
  function WithRow(totals: map<string, Total>, p: Purchase): map<string, Total> {
    if Counted(p) then
      var total := TotalOf(totals, p.name);
      totals[p.name := Total(total.qty + 1, total.spent + Cost(p))]
    else totals
  }

  /** By name, the number and cost of the counted rows; a name without any is absent. Together they make up everything spent. */
  ghost predicate Tallied(totals: map<string, Total>, order: seq<OrderNo>, table: map<OrderNo, Purchase>) {
    (forall name :: TalliedFor(totals, order, table, name)) && SumBy(totals, SpentIn) == SpentOf(order, table, None)
  }

  ghost predicate TalliedFor(totals: map<string, Total>, order: seq<OrderNo>, table: map<OrderNo, Purchase>, name: string) {
    && TotalOf(totals, name) == Total(QtyOf(order, table, Some(name)), SpentOf(order, table, Some(name)))
    && (name in totals <==> QtyOf(order, table, Some(name)) > 0)
  }

  lemma {:induction false} StepTallied(order: seq<OrderNo>, table: map<OrderNo, Purchase>, i: nat)
    requires i < |order| && order[i] in table
    ensures forall totals | Tallied(totals, order[..i], table) :: Tallied(WithRow(totals, table[order[i]]), order[..i + 1], table)
  {
    var longer := order[..i + 1];
    assert longer[..i] == order[..i];
    forall totals | Tallied(totals, order[..i], table) ensures Tallied(WithRow(totals, table[order[i]]), longer, table) {
      TallyOne(totals, longer, table);
    }
  }

  lemma {:induction false} TallyOne(totals: map<string, Total>, order: seq<OrderNo>, table: map<OrderNo, Purchase>)
    requires order != [] && order[|order| - 1] in table
    requires Tallied(totals, order[..|order| - 1], table)
    ensures Tallied(WithRow(totals, table[order[|order| - 1]]), order, table)
  {
    var p := table[order[|order| - 1]];
    var after := WithRow(totals, p);
    var total := TotalOf(totals, p.name);
    SumSet(totals, SpentIn, p.name, Total(total.qty + 1, total.spent + Cost(p)));
    forall name ensures TalliedFor(after, order, table, name) {
      assert TalliedFor(totals, order[..|order| - 1], table, name);
    }
  }
}
