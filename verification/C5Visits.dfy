/**
 * Whom a cycle asks: an item of the watch list is searched for or ordered exactly if its price, its pause and what is
 * left of number and money say so. Stated over the prices, the list, and what the platform was asked.
 */
module C5Visits {
  import opened Prelude
  import opened C5Ledger
  import opened C5Picking
  import opened C5World
  import opened C5Booking
  import opened C5Caps

  /** The turn of one item: the ledger and the listings left alone when it begins, what was noted in it, and the ledger at its end. */
  datatype Visit = Visit(ledger: Ledger, skips: map<string, int>, entries: seq<Entry>, after: Ledger)

  // ----- When an item is to be bought -----

  /** Its lowest price is known, and at or below its target price. */
  ghost predicate AtPrice(item: Item, stats: map<string, Option<real>>) {
    item.name in stats && stats[item.name].Some? && 0.0 < stats[item.name].value <= item.maxPrice + EPS
  }

  /** Neither its number nor its money is used up. */
  ghost predicate RoomFor(item: Item, before: Ledger) {
    && before.Qty(Some(item.name)) < item.maxQty
    && (item.maxSpend > 0.0 ==> item.maxSpend - before.Spent(Some(item.name)) > EPS)
  }

  /** The sweeping is not stopped, the name not paused, and the number of this cycle not used up. */
  ghost predicate GoesAhead(item: Item, settings: Settings, pauses: map<string, int>, before: Ledger, visit: Visit) {
    && visit.entries != [] && visit.entries[0].MayBuy? && visit.entries[0].yes
    && (item.name in pauses ==> pauses[item.name] <= visit.entries[0].at)
    && visit.ledger.Qty(None) - before.Qty(None) < settings.maxBuyPerCycle
  }

  /** How many may be bought: what is left to the item, and to the cycle. */
  ghost function NumberLeft(item: Item, settings: Settings, before: Ledger, ledger: Ledger): int {
    var ofItem, ofCycle := item.maxQty - before.Qty(Some(item.name)), settings.maxBuyPerCycle - (ledger.Qty(None) - before.Qty(None));
    if ofItem <= ofCycle then ofItem else ofCycle
  }

  /** The money: no more than is left to the item, of all that may be spent, and of what is there but for the reserve. */
  ghost predicate IsMoneyLeft(item: Item, settings: Settings, before: Ledger, ledger: Ledger, funds: real, money: real) {
    var ofItem, ofAll := item.maxSpend - before.Spent(Some(item.name)), settings.maxTotalSpend - ledger.Spent(None);
    var ofFunds := funds - settings.minBalanceReserve - (ledger.Spent(None) - before.Spent(None));
    && (item.maxSpend > 0.0 ==> money <= ofItem) && (settings.maxTotalSpend > 0.0 ==> money <= ofAll) && money <= ofFunds
    && ((item.maxSpend > 0.0 && money == ofItem) || (settings.maxTotalSpend > 0.0 && money == ofAll) || money == ofFunds)
  }

  // ----- What is asked for -----

  /** By listing: looked for up to the target price, and ordered at no more. */
  ghost predicate ListingLimit(item: Item, e: Entry) {
    match e
    case Searched(_, name, maxPrice, _) => name == item.name && maxPrice == item.maxPrice
    case Ordered(_, name, orders) =>
      name == item.name && forall no :: no in orders ==> 0.0 < orders[no].price <= item.maxPrice + EPS && orders[no].amount == 1
    case _ => e.MayBuy?
  }

  ghost predicate QuickLimit(item: Item, e: Entry) {
    match e
    case QuickOrdered(_, name, maxPrice, _) => name == item.name && maxPrice == item.maxPrice
    case _ => e.MayBuy?
  }

  /** Only this item, by the strategy set, and never at more than the target price. */
  ghost predicate WithinLimit(item: Item, strategy: Strategy, e: Entry) {
    match strategy
    case ByListing => ListingLimit(item, e)
    case Quick => QuickLimit(item, e)
  }

  predicate AnOrder(e: Entry) { e.Ordered? || e.QuickOrdered? }

  /** An order is sent only right after the answer that buying may go on. */
  ghost predicate PermittedAt(entries: seq<Entry>, k: nat)
    requires k < |entries|
  {
    AnOrder(entries[k]) ==> k > 0 && entries[k - 1].MayBuy? && entries[k - 1].yes
  }

  ghost predicate Permitted(entries: seq<Entry>) {
    forall k: nat :: k < |entries| ==> PermittedAt(entries, k)
  }

  lemma {:induction false} PermittedConcat(entries: seq<Entry>, more: seq<Entry>)
    requires Permitted(entries) && Permitted(more)
    ensures Permitted(entries + more)
  {
    var all := entries + more;
    forall k: nat | k < |all| ensures PermittedAt(all, k) {
      if k < |entries| {
        assert PermittedAt(entries, k);
      } else {
        assert PermittedAt(more, k - |entries|);
      }
    }
  }

  ghost predicate AllYes(entries: seq<Entry>) {
    forall k :: 0 <= k < |entries| && entries[k].MayBuy? ==> entries[k].yes
  }

  /** The listings left alone: those ordered already, and those that could not be bought a moment ago. */
  ghost predicate LeftAlone(skip: set<string>, ledger: Ledger, skips: map<string, int>, at: int) {
    forall id :: id in skip <==>
      (id in skips && skips[id] > at)
      || (id != "" && exists no :: no in ledger.table && Counted(ledger.table[no]) && ledger.table[no].productId == id)
  }

  /** Of the listings found, as many are ordered as number and money allow, if any; nothing if none can be. */
  ghost predicate BestOrdered(item: Item, ledger: Ledger, skips: map<string, int>, at: int, number: int, money: real, listings: seq<Listing>, picks: seq<Listing>,
                              entries: seq<Entry>) {
    && (exists skip :: LeftAlone(skip, ledger, skips, at) && BestChoice(picks, listings, item.maxPrice, number, money, skip))
    && (picks == [] ==> forall k :: 0 <= k < |entries| ==> !entries[k].Ordered?)
    && (picks != [] ==> exists k :: 0 <= k < |entries| && entries[k].Ordered? && OrdersFor(entries[k].orders, picks))
  }

  /** The batch was sent, once, for these picks, or the sweep ended before. */
  ghost predicate OrderedOnce(name: string, picks: seq<Listing>, since: int, entries: seq<Entry>) {
    entries == []
    || (|entries| == 1 && entries[0].Ordered? && entries[0].name == name && OrdersFor(entries[0].orders, picks) && since <= entries[0].at)
  }

  /** Asked whether to go on, and told so, the batch sent for these picks; not sent if not told so, or if the sweep ended before. */
  ghost predicate PicksNoted(name: string, picks: seq<Listing>, at: int, entries: seq<Entry>, whole: bool) {
    && entries != [] && entries[0].MayBuy? && entries[0].at == at
    && OrderedOnce(name, picks, at, entries[1..]) && (!entries[0].yes ==> |entries| == 1) && (whole && entries[0].yes ==> |entries| == 2)
  }

  /** Looked for, and unless stopped in between, of what was found the best choice is ordered. */
  ghost predicate Looked(item: Item, ledger: Ledger, skips: map<string, int>, number: int, money: real, entries: seq<Entry>) {
    exists k :: 0 <= k < |entries| && entries[k].Searched?
      && (entries[k].found.Answer? && AllYes(entries) ==>
            exists picks :: BestOrdered(item, ledger, skips, entries[k].at, number, money, entries[k].found.value, picks, entries))
  }

  /** A quick order was sent, once, or the sweep ended before. */
  ghost predicate QuickOnce(name: string, target: real, reply: Reply<QuickReceipt>, since: int, entries: seq<Entry>) {
    (entries == [] && reply.Broken?)
    || (|entries| == 1 && entries[0] == QuickOrdered(entries[0].at, name, target, reply) && since <= entries[0].at)
  }

  /** After one quick purchase: try for another, be content, or cut short. */
  datatype Step = Again | Enough | Cut

  /** After this no more is ordered: stopped, or an order without an answer, refused, or not paid. */
  ghost predicate Ends(e: Entry) {
    (e.MayBuy? && !e.yes)
    || (e.QuickOrdered? && (e.reply.Lost? || e.reply.Rejected? || (e.reply.Answer? && e.reply.value.payStatus == Some(2))))
  }

  /** One quick order, sent unless the sweep ends before; its answer says whether to go on. */
  ghost predicate QuickStep(name: string, target: real, since: int, entries: seq<Entry>, step: Step) {
    (entries == [] && step == Cut)
    || (|entries| == 1 && entries[0].QuickOrdered? && entries[0].name == name && entries[0].maxPrice == target && since <= entries[0].at
        && (step == Cut || (step == Enough <==> Ends(entries[0]))))
  }

  lemma {:induction false} QuickStepped(name: string, target: real, reply: Reply<QuickReceipt>, since: int, entries: seq<Entry>, step: Step)
    requires QuickOnce(name, target, reply, since, entries) && (reply.Broken? ==> step == Cut) && (reply.Lost? ==> step == Enough)
    requires reply.Rejected? || (reply.Answer? && reply.value.payStatus == Some(2)) ==> step != Again
    requires reply.Answer? && reply.value.payStatus != Some(2) ==> step != Enough
    ensures QuickStep(name, target, since, entries, step)
  {
  }

  /** Quick orders so far, one after another; once one ends it there are no more. */
  ghost predicate Quickly(item: Item, since: int, going: bool, entries: seq<Entry>) {
    && Permitted(entries)
    && (forall k :: 0 <= k < |entries| ==> QuickLimit(item, entries[k]) && since <= entries[k].at)
    && (going || (entries != [] && Ends(entries[|entries| - 1])))
  }

  lemma {:induction false} QuicklyNext(item: Item, since: int, entries: seq<Entry>, asked: Entry, sent: seq<Entry>, now: int, step: Step)
    requires Quickly(item, since, true, entries) && asked.MayBuy? && asked.yes && since <= asked.at && since <= now
    requires QuickStep(item.name, item.maxPrice, now, sent, step)
    ensures step != Cut ==> Quickly(item, since, step == Again, entries + [asked] + sent)
    ensures forall k :: 0 <= k < |entries + [asked] + sent| ==>
              QuickLimit(item, (entries + [asked] + sent)[k]) && since <= (entries + [asked] + sent)[k].at
    ensures Permitted(entries + [asked] + sent)
  {
    PermittedConcat(entries, [asked] + sent);
    ConcatAssociative(entries, [asked], sent);
  }

  lemma {:induction false} QuicklyStopped(item: Item, since: int, entries: seq<Entry>, asked: Entry)
    requires Quickly(item, since, true, entries) && asked.MayBuy? && !asked.yes && since <= asked.at
    ensures Quickly(item, since, false, entries + [asked])
  {
    PermittedConcat(entries, [asked]);
  }

  /** One order after another, until stopped or out of luck, or until number or money is used up. */
  ghost predicate QuicklyAsked(item: Item, number: int, money: real, qty: int, cost: real, entries: seq<Entry>) {
    number <= qty || item.maxPrice > money - cost + EPS || (entries != [] && Ends(entries[|entries| - 1]))
  }

  /** Asked for, with so many and so much left to buy, by the strategy set. */
  ghost predicate Asked(item: Item, strategy: Strategy, number: int, money: real, visit: Visit) {
    match strategy
    case ByListing => Looked(item, visit.ledger, visit.skips, number, money, visit.entries)
    case Quick =>
      QuicklyAsked(item, number, money, visit.after.Qty(None) - visit.ledger.Qty(None), visit.after.Spent(None) - visit.ledger.Spent(None), visit.entries)
  }

  ghost predicate AskedWith(item: Item, settings: Settings, before: Ledger, funds: real, visit: Visit) {
    exists money :: IsMoneyLeft(item, settings, before, visit.ledger, funds, money)
      && Asked(item, settings.strategy, NumberLeft(item, settings, before, visit.ledger), money, visit)
  }

  /** Nothing is asked for that is not to be bought; this holds also of a turn that is cut short. */
  ghost predicate Fits(item: Item, settings: Settings, stats: map<string, Option<real>>, pauses: map<string, int>, before: Ledger, visit: Visit) {
    && (visit.entries != [] ==> AtPrice(item, stats) && RoomFor(item, before) && visit.entries[0].MayBuy?)
    && (|visit.entries| > 1 ==> GoesAhead(item, settings, pauses, before, visit))
    && Permitted(visit.entries)
    && forall k :: 0 <= k < |visit.entries| ==>
         && (visit.entries[k].Funds? || WithinLimit(item, settings.strategy, visit.entries[k]))
         && visit.entries[0].at <= visit.entries[k].at
  }

  /** And what is to be bought is asked for. */
  ghost predicate Complete(item: Item, settings: Settings, stats: map<string, Option<real>>, pauses: map<string, int>, before: Ledger,
                           funds: Option<real>, visit: Visit) {
    && (AtPrice(item, stats) && RoomFor(item, before) ==> visit.entries != [])
    && (GoesAhead(item, settings, pauses, before, visit) ==> funds.Some? && AskedWith(item, settings, before, funds.value, visit))
  }

  /** Of the pauses only this name's changes. */
  ghost predicate PausedOnly(before: map<string, int>, after: map<string, int>, name: string) {
    forall other :: other != name ==> (other in after <==> other in before) && (other in after ==> after[other] == before[other])
  }

  lemma {:induction false} PicksWithinLimit(item: Item, listings: seq<Listing>, number: int, money: real, skip: set<string>, picks: seq<Listing>, since: int,
                                            entries: seq<Entry>)
    requires Affordable(picks, listings, item.maxPrice, number, money, skip) && PicksNoted(item.name, picks, since, entries, false)
    ensures forall k :: 0 <= k < |entries| ==> ListingLimit(item, entries[k]) && since <= entries[k].at
    ensures Permitted(entries)
  {
    if |entries| > 1 {
      assert entries[1] == entries[1..][0];
      assert forall no :: no in entries[1].orders ==> Eligible(entries[1].orders[no], item.maxPrice, skip);
    }
  }

  lemma {:induction false} AllYesBehind(entries: seq<Entry>, more: seq<Entry>)
    ensures AllYes(entries + more) ==> AllYes(more)
  {
    if AllYes(entries + more) {
      forall k | 0 <= k < |more| && more[k].MayBuy? ensures more[k].yes {
        assert (entries + more)[|entries| + k] == more[k];
      }
    }
  }

  lemma {:induction false} BestOrderedBehind(item: Item, ledger: Ledger, skips: map<string, int>, at: int, number: int, money: real, listings: seq<Listing>,
                                             picks: seq<Listing>, entries: seq<Entry>, more: seq<Entry>)
    requires BestOrdered(item, ledger, skips, at, number, money, listings, picks, more)
    requires forall k :: 0 <= k < |entries| ==> !entries[k].Ordered?
    ensures BestOrdered(item, ledger, skips, at, number, money, listings, picks, entries + more)
  {
    var all := entries + more;
    if picks != [] {
      var k :| 0 <= k < |more| && more[k].Ordered? && OrdersFor(more[k].orders, picks);
      assert all[|entries| + k] == more[k];
    }
  }

  lemma {:induction false} FoundBehind(item: Item, ledger: Ledger, skips: map<string, int>, number: int, money: real, search: Entry, more: seq<Entry>)
    requires search.Searched?
    requires search.found.Answer? && AllYes(more) ==>
               exists picks :: BestOrdered(item, ledger, skips, search.at, number, money, search.found.value, picks, more)
    ensures Looked(item, ledger, skips, number, money, [search] + more)
  {
    var all := [search] + more;
    AllYesBehind([search], more);
    assert all[0] == search;
    if search.found.Answer? && AllYes(all) {
      var picks :| BestOrdered(item, ledger, skips, search.at, number, money, search.found.value, picks, more);
      BestOrderedBehind(item, ledger, skips, search.at, number, money, search.found.value, picks, [search], more);
    }
  }

  lemma {:induction false} AskedBehind(item: Item, strategy: Strategy, number: int, money: real, visit: Visit, entries: seq<Entry>)
    requires Asked(item, strategy, number, money, visit)
    requires forall k :: 0 <= k < |entries| ==> !entries[k].Ordered?
    ensures Asked(item, strategy, number, money, visit.(entries := entries + visit.entries))
  {
    var ledger, skips, more := visit.ledger, visit.skips, visit.entries;
    var all := entries + more;
    AllYesBehind(entries, more);
    match strategy
    case ByListing =>
      var k :| 0 <= k < |more| && more[k].Searched?
        && (more[k].found.Answer? && AllYes(more) ==>
              exists picks :: BestOrdered(item, ledger, skips, more[k].at, number, money, more[k].found.value, picks, more));
      assert all[|entries| + k] == more[k];
      if more[k].found.Answer? && AllYes(all) {
        var picks :| BestOrdered(item, ledger, skips, more[k].at, number, money, more[k].found.value, picks, more);
        BestOrderedBehind(item, ledger, skips, more[k].at, number, money, more[k].found.value, picks, entries, more);
      }
    case Quick =>
      assert more != [] ==> all[|all| - 1] == more[|more| - 1];
  }

  /** The turn of an item that is bought: first allowed, then perhaps the balance asked for, then the sweep. */
  lemma {:induction false} BoughtFits(item: Item, settings: Settings, stats: map<string, Option<real>>, pauses: map<string, int>, before: Ledger, visit: Visit,
                                      first: Entry, told: seq<Entry>)
    requires AtPrice(item, stats) && RoomFor(item, before)
    requires GoesAhead(item, settings, pauses, before, visit.(entries := [first]))
    requires forall k :: 0 <= k < |told| ==> told[k].Funds? && first.at <= told[k].at
    requires forall k :: 0 <= k < |visit.entries| ==> WithinLimit(item, settings.strategy, visit.entries[k]) && first.at <= visit.entries[k].at
    requires Permitted(visit.entries)
    ensures Fits(item, settings, stats, pauses, before, visit.(entries := [first] + told + visit.entries))
    ensures forall funds :: AskedWith(item, settings, before, funds, visit) ==>
              Complete(item, settings, stats, pauses, before, Some(funds), visit.(entries := [first] + told + visit.entries))
  {
    var all := [first] + told + visit.entries;
    assert all[0] == first;
    PermittedConcat([first] + told, visit.entries);
    forall funds | AskedWith(item, settings, before, funds, visit)
      ensures Complete(item, settings, stats, pauses, before, Some(funds), visit.(entries := all))
    {
      var money :| IsMoneyLeft(item, settings, before, visit.ledger, funds, money)
        && Asked(item, settings.strategy, NumberLeft(item, settings, before, visit.ledger), money, visit);
      AskedBehind(item, settings.strategy, NumberLeft(item, settings, before, visit.ledger), money, visit, [first] + told);
    }
  }

  /** The balance is told at most once. */
  ghost predicate FundsAre(entries: seq<Entry>, funds: Option<real>) {
    && (forall k :: 0 <= k < |entries| && entries[k].Funds? ==> funds == Some(entries[k].amount))
    && (forall j, k :: 0 <= j < k < |entries| && entries[j].Funds? ==> !entries[k].Funds?)
    && (funds.Some? ==> exists k :: 0 <= k < |entries| && entries[k].Funds?)
  }

  /** Told before, or told now. */
  ghost predicate FundsGo(funds: Option<real>, entries: seq<Entry>, newFunds: Option<real>) {
    if funds.Some? then newFunds == funds && FundsAre(entries, None) else FundsAre(entries, newFunds)
  }

  /** What the cycle spends is within the balance told, but for the reserve and one EPS; without a balance nothing is. */
  ghost predicate WithinFunds(before: Ledger, ledger: Ledger, settings: Settings, funds: Option<real>) {
    ledger.Spent(None) == before.Spent(None)
    || (funds.Some? && ledger.Spent(None) - before.Spent(None) <= funds.value - settings.minBalanceReserve + EPS)
  }

  /** What is left of the balance told. */
  ghost predicate FundsLeft(before: Ledger, ledger: Ledger, settings: Settings, funds: Option<real>, balance: Option<real>) {
    && WithinFunds(before, ledger, settings, funds) && (funds.Some? <==> balance.Some?)
    && (funds.Some? ==> balance.value == funds.value - settings.minBalanceReserve - (ledger.Spent(None) - before.Spent(None)))
  }

  ghost predicate VisitedAt(item: Item, settings: Settings, stats: map<string, Option<real>>, pauses: map<string, int>, before: Ledger,
                            visit: Visit, funds: Option<real>, whole: bool) {
    Fits(item, settings, stats, pauses, before, visit) && (whole ==> Complete(item, settings, stats, pauses, before, funds, visit))
  }

  /** The tests of the loop are whether the item is at its price, and has number and money left. */
  lemma {:induction false} ToBeBought(item: Item, stats: map<string, Option<real>>, totals: map<string, Total>, before: Ledger)
    requires Tallied(totals, before.order, before.table)
    ensures AtPrice(item, stats) && RoomFor(item, before) <==>
            Wanted(item, totals) && LowestPrice(stats, item.name).Some? && LowestPrice(stats, item.name).value <= item.maxPrice + EPS
  {
    PriceTest(item, stats);
    WantedIsRoom(item, totals, before);
  }

  lemma {:induction false} WantedIsRoom(item: Item, totals: map<string, Total>, before: Ledger)
    requires Tallied(totals, before.order, before.table)
    ensures Wanted(item, totals) <==> RoomFor(item, before)
  {
    assert TalliedFor(totals, before.order, before.table, item.name);
  }

  /** What the list asks of the price is what is asked here. */
  lemma {:induction false} PriceTest(item: Item, stats: map<string, Option<real>>)
    ensures AtPrice(item, stats) <==> LowestPrice(stats, item.name).Some? && LowestPrice(stats, item.name).value <= item.maxPrice + EPS
  {
  }

  /** The turn of an item that is not to be bought, or that may not be now. */
  lemma {:induction false} PassedAt(item: Item, settings: Settings, stats: map<string, Option<real>>, pauses: map<string, int>, before: Ledger, visit: Visit,
                                    funds: Option<real>)
    requires if visit.entries == [] then !(AtPrice(item, stats) && RoomFor(item, before))
             else |visit.entries| == 1 && visit.entries[0].MayBuy? && AtPrice(item, stats) && RoomFor(item, before)
                  && !GoesAhead(item, settings, pauses, before, visit)
    ensures VisitedAt(item, settings, stats, pauses, before, visit, funds, true) && FundsGo(funds, visit.entries, funds)
  {
    assert WithinLimit(item, settings.strategy, MayBuy(0, true)) && WithinLimit(item, settings.strategy, MayBuy(0, false));
  }

  ghost predicate AllWithin(item: Item, strategy: Strategy, since: int, entries: seq<Entry>) {
    Permitted(entries) && forall k :: 0 <= k < |entries| ==> WithinLimit(item, strategy, entries[k]) && since <= entries[k].at
  }

  ghost predicate AllTold(since: int, told: seq<Entry>) {
    forall k :: 0 <= k < |told| ==> told[k].Funds? && since <= told[k].at
  }

  lemma {:induction false} BoughtAt(item: Item, settings: Settings, stats: map<string, Option<real>>, pauses: map<string, int>, before: Ledger, visit: Visit,
                                    first: Entry, told: seq<Entry>, funds: Option<real>, newFunds: Option<real>, whole: bool)
    requires AtPrice(item, stats) && RoomFor(item, before)
    requires GoesAhead(item, settings, pauses, before, visit.(entries := [first]))
    requires AllTold(first.at, told) && AllWithin(item, settings.strategy, first.at, visit.entries) && FundsGo(funds, told, newFunds)
    requires whole ==> newFunds.Some? && AskedWith(item, settings, before, newFunds.value, visit)
    ensures VisitedAt(item, settings, stats, pauses, before, visit.(entries := [first] + told + visit.entries), newFunds, whole)
    ensures FundsGo(funds, [first] + told + visit.entries, newFunds)
  {
    BoughtFits(item, settings, stats, pauses, before, visit, first, told);
    FundsBetween(first, told, visit.entries, funds, newFunds, item, settings.strategy);
  }

  lemma {:induction false} MoneyLeft(before: Ledger, ledger: Ledger, items: seq<Item>, i: nat, settings: Settings, totals: map<string, Total>, cycleLeft: int,
                                     budget: Option<real>, balance: real, funds: real, maxQty: int, money: real)
    requires i < |items| && Tallied(totals, before.order, before.table)
    requires Tended(before, ledger, items, i, settings, cycleLeft, budget, Some(funds), Some(balance))
    requires money == Least(budget, Least(SpendLeft(items[i], totals), balance)) && maxQty == Min(QtyLeft(items[i], totals), cycleLeft)
    ensures maxQty == NumberLeft(items[i], settings, before, ledger) && IsMoneyLeft(items[i], settings, before, ledger, funds, money)
  {
    assert TalliedFor(totals, before.order, before.table, items[i].name);
  }

  lemma {:induction false} FundsMove(before: Ledger, ledger: Ledger, after: Ledger, settings: Settings, funds: real, balance: real, name: string, outcome: Outcome,
                                     qty: int, cost: real, maxQty: int, money: real)
    requires FundsLeft(before, ledger, settings, Some(funds), Some(balance)) && Ran(ledger, after, name, outcome, qty, cost)
    requires Affords(maxQty, money, qty, cost) && money <= balance
    ensures FundsLeft(before, after, settings, Some(funds), Some(balance - cost))
  {
    assert Moved(ledger, after, None, name, qty, cost);
  }

  /** In the middle of a cycle: the counts and what is left of the balance, with the first `i` items done. */
  ghost predicate Tended(before: Ledger, ledger: Ledger, items: seq<Item>, i: nat, settings: Settings, cycleLeft: int, budget: Option<real>,
                         funds: Option<real>, balance: Option<real>) {
    i <= |items| && Cycling(before, ledger, items, i, settings, cycleLeft, budget) && FundsLeft(before, ledger, settings, funds, balance)
  }

  /** What holds however the cycle ends. */
  ghost predicate Safe(before: Ledger, ledger: Ledger, items: seq<Item>, settings: Settings, funds: Option<real>) {
    Keeps(before, ledger) && CapsHold(before, ledger, items, settings) && WithinFunds(before, ledger, settings, funds)
  }

  lemma {:induction false} TendedIsSafe(before: Ledger, ledger: Ledger, items: seq<Item>, i: nat, settings: Settings, cycleLeft: int, budget: Option<real>,
                                        funds: Option<real>, balance: Option<real>)
    requires ValidList(items) && Tended(before, ledger, items, i, settings, cycleLeft, budget, funds, balance)
    ensures Safe(before, ledger, items, settings, funds)
  {
    CyclingHolds(before, ledger, items, i, settings, cycleLeft, budget);
  }

  lemma {:induction false} TendedPast(before: Ledger, ledger: Ledger, items: seq<Item>, i: nat, settings: Settings, cycleLeft: int, budget: Option<real>,
                                      funds: Option<real>, balance: Option<real>)
    requires ValidList(items) && i < |items| && Tended(before, ledger, items, i, settings, cycleLeft, budget, funds, balance)
    ensures Tended(before, ledger, items, i + 1, settings, cycleLeft, budget, funds, balance) && Safe(before, ledger, items, settings, funds)
  {
    ItemPassed(before, ledger, items, i, settings, cycleLeft, budget);
  }

  lemma {:induction false} TendedNext(before: Ledger, ledger: Ledger, after: Ledger, items: seq<Item>, i: nat, settings: Settings, totals: map<string, Total>,
                                      cycleLeft: int, budget: Option<real>, funds: real, balance: real, outcome: Outcome, qty: int, cost: real,
                                      maxQty: int, money: real)
    requires ValidList(items) && i < |items| && Tended(before, ledger, items, i, settings, cycleLeft, budget, Some(funds), Some(balance))
    requires Tallied(totals, before.order, before.table) && Wanted(items[i], totals) && cycleLeft > 0
    requires money == Least(budget, Least(SpendLeft(items[i], totals), balance)) && maxQty == Min(QtyLeft(items[i], totals), cycleLeft)
    requires Ran(ledger, after, items[i].name, outcome, qty, cost) && Affords(maxQty, money, qty, cost)
    ensures Safe(before, after, items, settings, Some(funds))
    ensures outcome.Bought? ==>
              Tended(before, after, items, i + 1, settings, cycleLeft - outcome.qty, if budget.Some? then Some(budget.value - outcome.cost) else None,
                     Some(funds), Some(balance - outcome.cost))
  {
    assert TalliedFor(totals, before.order, before.table, items[i].name);
    ItemSwept(before, ledger, after, items, i, settings, cycleLeft, budget, outcome, qty, cost, maxQty, money);
    FundsMove(before, ledger, after, settings, funds, balance, items[i].name, outcome, qty, cost, maxQty, money);
  }

  /** What the turn of an item makes of the state of the cycle. */
  ghost predicate TurnTaken(items: seq<Item>, i: nat, settings: Settings, stats: map<string, Option<real>>, pauses: map<string, int>, before: Ledger,
                            ledger: Ledger, funds: Option<real>, after: Ledger, visit: Visit, newFunds: Option<real>,
                            alive: bool, newLeft: int, newBudget: Option<real>, newBalance: Option<real>)
    requires i < |items|
  {
    && Safe(before, after, items, settings, newFunds)
    && (alive ==> Tended(before, after, items, i + 1, settings, newLeft, newBudget, newFunds, newBalance))
    && visit.ledger == ledger && visit.after == after
    && VisitedAt(items[i], settings, stats, pauses, before, visit, newFunds, alive) && FundsGo(funds, visit.entries, newFunds)
  }

  lemma {:induction false} TurnPassed(items: seq<Item>, i: nat, settings: Settings, stats: map<string, Option<real>>, pauses: map<string, int>, before: Ledger,
                                      ledger: Ledger, skips: map<string, int>, entries: seq<Entry>, cycleLeft: int, budget: Option<real>,
                                      funds: Option<real>, balance: Option<real>)
    requires ValidList(items) && i < |items| && Tended(before, ledger, items, i, settings, cycleLeft, budget, funds, balance)
    requires if entries == [] then !(AtPrice(items[i], stats) && RoomFor(items[i], before))
             else |entries| == 1 && entries[0].MayBuy? && AtPrice(items[i], stats) && RoomFor(items[i], before)
                  && !GoesAhead(items[i], settings, pauses, before, Visit(ledger, skips, entries, ledger))
    ensures TurnTaken(items, i, settings, stats, pauses, before, ledger, funds, ledger, Visit(ledger, skips, entries, ledger), funds,
                      true, cycleLeft, budget, balance)
  {
    TendedPast(before, ledger, items, i, settings, cycleLeft, budget, funds, balance);
    PassedAt(items[i], settings, stats, pauses, before, Visit(ledger, skips, entries, ledger), funds);
  }

  ghost predicate SamePause(pauses: map<string, int>, now: map<string, int>, name: string) {
    (name in now <==> name in pauses) && (name in now ==> now[name] == pauses[name])
  }

  /** The second test of the loop is whether the cycle may go on to buy the item now. */
  lemma {:induction false} MayGoAhead(items: seq<Item>, i: nat, settings: Settings, pauses: map<string, int>, now: map<string, int>, before: Ledger,
                                      cycleLeft: int, budget: Option<real>, funds: Option<real>, balance: Option<real>, visit: Visit)
    requires i < |items| && Tended(before, visit.ledger, items, i, settings, cycleLeft, budget, funds, balance)
    requires SamePause(pauses, now, items[i].name) && |visit.entries| == 1 && visit.entries[0].MayBuy?
    ensures GoesAhead(items[i], settings, pauses, before, visit) <==>
            visit.entries[0].yes && cycleLeft > 0 && !(items[i].name in now && visit.entries[0].at < now[items[i].name])
  {
  }

  lemma {:induction false} FundsTold(before: Ledger, ledger: Ledger, settings: Settings, funds: real)
    requires FundsLeft(before, ledger, settings, None, None)
    ensures FundsLeft(before, ledger, settings, Some(funds), Some(funds - settings.minBalanceReserve))
  {
  }

  lemma {:induction false} FundsBehind(others: seq<Entry>, told: seq<Entry>, funds: Option<real>)
    requires FundsAre(told, funds) && forall k :: 0 <= k < |others| ==> !others[k].Funds?
    ensures FundsAre(others + told, funds)
  {
    var all := others + told;
    assert forall k :: 0 <= k < |told| ==> all[|others| + k] == told[k];
  }

  lemma {:induction false} FundsAhead(told: seq<Entry>, others: seq<Entry>, funds: Option<real>)
    requires FundsAre(told, funds) && forall k :: 0 <= k < |others| ==> !others[k].Funds?
    ensures FundsAre(told + others, funds)
  {
    var all := told + others;
    assert forall k :: 0 <= k < |told| ==> all[k] == told[k];
  }

  /** Of what is noted in a turn only the middle may tell the balance. */
  lemma {:induction false} FundsBetween(first: Entry, told: seq<Entry>, entries: seq<Entry>, funds: Option<real>, newFunds: Option<real>, item: Item, strategy: Strategy)
    requires FundsGo(funds, told, newFunds) && first.MayBuy?
    requires forall k :: 0 <= k < |entries| ==> WithinLimit(item, strategy, entries[k])
    ensures FundsGo(funds, [first] + told + entries, newFunds)
  {
    var now := if funds.Some? then None else newFunds;
    FundsBehind([first], told, now);
    FundsAhead([first] + told, entries, now);
  }

  lemma {:induction false} ThreeParts<T>(a: seq<T>, b: seq<T>, c: seq<T>, d: seq<T>)
    ensures (a + b) + (c + d) == a + (b + c + d)
  {
    ConcatAssociative(b, c, d);
    ConcatAssociative(a, b, c + d);
  }

  lemma {:induction false} ToldOnce(at: int, amount: real)
    ensures FundsAre([Funds(at, amount)], Some(amount))
  {
    assert [Funds(at, amount)][0].Funds?;
  }

  lemma {:induction false} FoundOrdered(item: Item, ledger: Ledger, skips: map<string, int>, at: int, number: int, money: real, found: seq<Listing>,
                                        skip: set<string>, picks: seq<Listing>, entries: seq<Entry>)
    requires LeftAlone(skip, ledger, skips, at) && BestChoice(picks, found, item.maxPrice, number, money, skip)
    requires if picks == [] then entries == [] else PicksNoted(item.name, picks, at, entries, true)
    ensures AllYes(entries) ==> exists p :: BestOrdered(item, ledger, skips, at, number, money, found, p, entries)
  {
    if AllYes(entries) {
      if picks != [] {
        assert entries[1] == entries[1..][0];
      }
      assert BestOrdered(item, ledger, skips, at, number, money, found, picks, entries);
    }
  }


  // ----- A whole cycle -----

  function Noted(visits: seq<Visit>): seq<Entry> {
    if visits == [] then [] else Noted(visits[..|visits| - 1]) + visits[|visits| - 1].entries
  }

  lemma {:induction false} FundsLonger(entries: seq<Entry>, funds: Option<real>, more: seq<Entry>, newFunds: Option<real>)
    requires FundsAre(entries, funds) && FundsGo(funds, more, newFunds)
    ensures FundsAre(entries + more, newFunds)
  {
    var all := entries + more;
    if funds.Some? {
      var k :| 0 <= k < |entries| && entries[k].Funds?;
      assert all[k].Funds?;
    } else if newFunds.Some? {
      var k :| 0 <= k < |more| && more[k].Funds?;
      assert all[|entries| + k].Funds?;
    }
  }

  /** One turn after the other, from ledger to ledger. */
  ghost predicate Linked(visits: seq<Visit>, before: Ledger, ledger: Ledger)
    decreases |visits|
  {
    if visits == [] then ledger == before
    else ledger == visits[|visits| - 1].after && Linked(visits[..|visits| - 1], before, visits[|visits| - 1].ledger)
  }

  /** When its turn comes, an item is paused as it was when the cycle began. */
  lemma {:induction false} OwnPauseKept(items: seq<Item>, i: nat, pauses: map<string, int>, now: map<string, int>)
    requires ValidList(items) && i < |items| && PausesKept(items, i, pauses, now)
    ensures SamePause(pauses, now, items[i].name)
  {
  }

  lemma {:induction false} LinkedNext(visits: seq<Visit>, before: Ledger, visit: Visit)
    requires Linked(visits, before, visit.ledger)
    ensures Linked(visits + [visit], before, visit.after)
  {
    assert (visits + [visit])[..|visits|] == visits;
  }

  /** Before its own turn nothing pauses an item. */
  ghost predicate PausesKept(items: seq<Item>, i: nat, pauses: map<string, int>, now: map<string, int>)
    requires i <= |items|
  {
    forall name :: name !in NamesOf(items[..i]) ==> SamePause(pauses, now, name)
  }

  lemma {:induction false} PausesKeptNext(items: seq<Item>, i: nat, pauses: map<string, int>, now: map<string, int>, after: map<string, int>)
    requires i < |items| && PausesKept(items, i, pauses, now) && PausedOnly(now, after, items[i].name)
    ensures PausesKept(items, i + 1, pauses, after)
  {
    NamesGrow(items, i);
    forall name | name !in NamesOf(items[..i + 1]) ensures SamePause(pauses, after, name) {
      assert SamePause(pauses, now, name);
    }
  }

  /** The turns of the first items of the list, one by one; all of them complete but the last, if it was cut short. */
  ghost predicate Visited(items: seq<Item>, settings: Settings, stats: map<string, Option<real>>, pauses: map<string, int>, before: Ledger,
                          visits: seq<Visit>, funds: Option<real>, done: bool) {
    && |visits| <= |items|
    && (forall k :: 0 <= k < |visits| ==> VisitedAt(items[k], settings, stats, pauses, before, visits[k], funds, done || k < |visits| - 1))
    && FundsAre(Noted(visits), funds)
  }

  /** A turn that needed no balance still does not when it is told later. */
  lemma {:induction false} VisitedLater(item: Item, settings: Settings, stats: map<string, Option<real>>, pauses: map<string, int>, before: Ledger,
                                        visit: Visit, funds: Option<real>, newFunds: Option<real>, whole: bool)
    requires VisitedAt(item, settings, stats, pauses, before, visit, funds, true) && (funds.Some? ==> newFunds == funds)
    ensures VisitedAt(item, settings, stats, pauses, before, visit, newFunds, whole)
  {
  }

  lemma {:induction false} NotedNext(visits: seq<Visit>, visit: Visit)
    ensures Noted(visits + [visit]) == Noted(visits) + visit.entries
  {
    assert (visits + [visit])[..|visits|] == visits;
  }

  lemma {:induction false} FundsNext(visits: seq<Visit>, funds: Option<real>, visit: Visit, newFunds: Option<real>)
    requires FundsAre(Noted(visits), funds) && FundsGo(funds, visit.entries, newFunds)
    ensures FundsAre(Noted(visits + [visit]), newFunds)
  {
    NotedNext(visits, visit);
    FundsLonger(Noted(visits), funds, visit.entries, newFunds);
  }

  lemma {:induction false} VisitedNext(items: seq<Item>, settings: Settings, stats: map<string, Option<real>>, pauses: map<string, int>, before: Ledger,
                                       visits: seq<Visit>, funds: Option<real>, visit: Visit, newFunds: Option<real>, done: bool)
    requires |visits| < |items| && Visited(items, settings, stats, pauses, before, visits, funds, true)
    requires VisitedAt(items[|visits|], settings, stats, pauses, before, visit, newFunds, done) && FundsGo(funds, visit.entries, newFunds)
    ensures Visited(items, settings, stats, pauses, before, visits + [visit], newFunds, done)
  {
    FundsNext(visits, funds, visit, newFunds);
    var all := visits + [visit];
    forall k | 0 <= k < |all| ensures VisitedAt(items[k], settings, stats, pauses, before, all[k], newFunds, done || k < |all| - 1) {
      if k < |visits| {
        assert VisitedAt(items[k], settings, stats, pauses, before, visits[k], funds, true || k < |visits| - 1);
        VisitedLater(items[k], settings, stats, pauses, before, visits[k], funds, newFunds, done || k < |all| - 1);
      }
    }
  }

  /** In the middle of the loop: the turns so far, what they noted, and the pauses of the items to come. */
  ghost predicate Touring(items: seq<Item>, i: nat, settings: Settings, stats: map<string, Option<real>>, pauses: map<string, int>, before: Ledger,
                          visits: seq<Visit>, funds: Option<real>, ledger: Ledger, now: map<string, int>, log: seq<Entry>, longer: seq<Entry>) {
    && i == |visits| <= |items| && Visited(items, settings, stats, pauses, before, visits, funds, true)
    && Linked(visits, before, ledger) && PausesKept(items, i, pauses, now) && longer == log + Noted(visits)
  }

  /** The loop is over, or cut short in the last of these turns. */
  ghost predicate Toured(items: seq<Item>, settings: Settings, stats: map<string, Option<real>>, pauses: map<string, int>, before: Ledger,
                         visits: seq<Visit>, funds: Option<real>, ledger: Ledger, log: seq<Entry>, longer: seq<Entry>, done: bool) {
    Visited(items, settings, stats, pauses, before, visits, funds, done) && Linked(visits, before, ledger) && longer == log + Noted(visits)
  }

  lemma {:induction false} TouringNext(items: seq<Item>, i: nat, settings: Settings, stats: map<string, Option<real>>, pauses: map<string, int>, before: Ledger,
                                       visits: seq<Visit>, funds: Option<real>, ledger: Ledger, now: map<string, int>, log: seq<Entry>, longer: seq<Entry>,
                                       visit: Visit, newFunds: Option<real>, later: map<string, int>, done: bool)
    requires Touring(items, i, settings, stats, pauses, before, visits, funds, ledger, now, log, longer) && i < |items|
    requires visit.ledger == ledger && PausedOnly(now, later, items[i].name)
    requires VisitedAt(items[i], settings, stats, pauses, before, visit, newFunds, done) && FundsGo(funds, visit.entries, newFunds)
    ensures Toured(items, settings, stats, pauses, before, visits + [visit], newFunds, visit.after, log, longer + visit.entries, done)
    ensures done ==> Touring(items, i + 1, settings, stats, pauses, before, visits + [visit], newFunds, visit.after, later, log, longer + visit.entries)
  {
    VisitedNext(items, settings, stats, pauses, before, visits, funds, visit, newFunds, done);
    LinkedNext(visits, before, visit);
    NotedNext(visits, visit);
    ConcatAssociative(log, Noted(visits), visit.entries);
    PausesKeptNext(items, i, pauses, now, later);
  }

  /** A request to look for an item, or to order it. */
  predicate AsksFor(e: Entry) { e.Searched? || e.Ordered? || e.QuickOrdered? }

  /** Some item of the list is to be bought, and this is a request for it, within its limit and not in its pause. */
  ghost predicate Justified(items: seq<Item>, settings: Settings, stats: map<string, Option<real>>, pauses: map<string, int>, before: Ledger, e: Entry) {
    AsksFor(e) ==>
      exists k :: 0 <= k < |items| && e.name == items[k].name && WithinLimit(items[k], settings.strategy, e)
                  && AtPrice(items[k], stats) && RoomFor(items[k], before) && (e.name in pauses ==> pauses[e.name] <= e.at)
  }

  lemma {:induction false} VisitJustified(items: seq<Item>, settings: Settings, stats: map<string, Option<real>>, pauses: map<string, int>, before: Ledger,
                                          visit: Visit, i: nat, k: nat)
    requires i < |items| && Fits(items[i], settings, stats, pauses, before, visit) && k < |visit.entries|
    ensures Justified(items, settings, stats, pauses, before, visit.entries[k])
  {
    assert visit.entries[0].at <= visit.entries[k].at;
    if AsksFor(visit.entries[k]) {
      assert k > 0 && GoesAhead(items[i], settings, pauses, before, visit);
      assert WithinLimit(items[i], settings.strategy, visit.entries[k]);
    }
  }

  /** Whatever is noted in a cycle is noted in some turn. */
  lemma {:induction false} NotedAt(visits: seq<Visit>, i: nat) returns (k: nat, j: nat)
    requires i < |Noted(visits)|
    ensures k < |visits| && j < |visits[k].entries| && Noted(visits)[i] == visits[k].entries[j]
  {
    var last := |visits| - 1;
    var rest := Noted(visits[..last]);
    if i < |rest| {
      k, j := NotedAt(visits[..last], i);
    } else {
      k, j := last, i - |rest|;
    }
  }

  /** A cycle from the moment the prices are told: what they are, the ledger by then, the turns, and the balance told. */
  datatype Round = Round(at: int, stats: map<string, Option<real>>, before: Ledger, visits: seq<Visit>, funds: Option<real>)

  /** Some item has number and money left, and there is something left of what may be spent in all. */
  ghost predicate AnythingLeft(items: seq<Item>, settings: Settings, before: Ledger) {
    && (exists k :: 0 <= k < |items| && RoomFor(items[k], before))
    && (settings.maxTotalSpend > 0.0 ==> settings.maxTotalSpend - before.Spent(None) > EPS)
  }

  /** Every item has its turn, or nobody has since nothing is left to buy; if the cycle is cut short, the first ones have. */
  ghost predicate RoundOf(items: seq<Item>, settings: Settings, stats: map<string, Option<real>>, pauses: map<string, int>, before: Ledger,
                          visits: seq<Visit>, funds: Option<real>, after: Ledger, done: bool) {
    && Visited(items, settings, stats, pauses, before, visits, funds, done)
    && Linked(visits, before, after) && WithinFunds(before, after, settings, funds)
    && (AnythingLeft(items, settings, before) && done ==> |visits| == |items|)
    && (!AnythingLeft(items, settings, before) ==> visits == [])
  }

  ghost predicate RoundFits(items: seq<Item>, settings: Settings, pauses: map<string, int>, round: Round, after: Ledger, done: bool) {
    RoundOf(items, settings, round.stats, pauses, round.before, round.visits, round.funds, after, done)
  }

  function NotedIn(round: Round): seq<Entry> { [Prices(round.at, round.stats)] + Noted(round.visits) }

  lemma {:induction false} NotedBehind(round: Round, i: nat)
    requires 0 < i < |NotedIn(round)|
    ensures NotedIn(round)[i] == Noted(round.visits)[i - 1]
  {
  }

  lemma {:induction false} TurnIsJustified(items: seq<Item>, settings: Settings, pauses: map<string, int>, round: Round, after: Ledger, done: bool, k: nat, j: nat)
    requires RoundFits(items, settings, pauses, round, after, done) && k < |round.visits| && j < |round.visits[k].entries|
    ensures Justified(items, settings, round.stats, pauses, round.before, round.visits[k].entries[j])
  {
    assert VisitedAt(items[k], settings, round.stats, pauses, round.before, round.visits[k], round.funds, done || k < |round.visits| - 1);
    VisitJustified(items, settings, round.stats, pauses, round.before, round.visits[k], k, j);
  }

  lemma {:induction false} RoundIsPermitted(items: seq<Item>, settings: Settings, stats: map<string, Option<real>>, pauses: map<string, int>, before: Ledger,
                                            visits: seq<Visit>)
    requires |visits| <= |items| && forall k :: 0 <= k < |visits| ==> Fits(items[k], settings, stats, pauses, before, visits[k])
    ensures Permitted(Noted(visits))
  {
    if visits != [] {
      var last := |visits| - 1;
      RoundIsPermitted(items, settings, stats, pauses, before, visits[..last]);
      assert Fits(items[last], settings, stats, pauses, before, visits[last]);
      PermittedConcat(Noted(visits[..last]), visits[last].entries);
    }
  }

  /**
   * Every request of a cycle is for an item at its price, with number and money left, not in its pause, and within its
   * limit; and no order is sent but on the answer that buying may go on.
   */
  lemma {:induction false} RoundIsJustified(items: seq<Item>, settings: Settings, pauses: map<string, int>, round: Round, after: Ledger, done: bool, i: nat)
    requires RoundFits(items, settings, pauses, round, after, done) && i < |NotedIn(round)|
    ensures Justified(items, settings, round.stats, pauses, round.before, NotedIn(round)[i])
    ensures NotedIn(round)[i].Ordered? || NotedIn(round)[i].QuickOrdered? ==> i > 0 && NotedIn(round)[i - 1].MayBuy? && NotedIn(round)[i - 1].yes
  {
    forall k | 0 <= k < |round.visits| ensures Fits(items[k], settings, round.stats, pauses, round.before, round.visits[k]) {
      assert VisitedAt(items[k], settings, round.stats, pauses, round.before, round.visits[k], round.funds, done || k < |round.visits| - 1);
    }
    RoundIsPermitted(items, settings, round.stats, pauses, round.before, round.visits);
    PermittedConcat([Prices(round.at, round.stats)], Noted(round.visits));
    assert PermittedAt(NotedIn(round), i);
    if i > 0 {
      var k, j := NotedAt(round.visits, i - 1);
      NotedBehind(round, i);
      TurnIsJustified(items, settings, pauses, round, after, done, k, j);
    }
  }
}
