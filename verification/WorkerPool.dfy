/** Running a worker over a list with a bounded number of calls in flight, results in list order. */
module WorkerPool {
  import opened Prelude

  /** A lane is about to look for work, waits for the worker's answer for one index, has finished, or broke on a failure. */
  datatype Lane = Looking | Waiting(index: nat) | Finished | Broken

  /** What becomes of one call of the worker. */
  datatype Answer<+R> = Good(value: R) | Bad(reason: string)

  datatype Failure = Failure(index: nat, reason: string)

  /** What becomes of the whole: the results, or the first failure. */
  datatype Outcome<+R> = Done(results: seq<R>) | Rejected(reason: string)

  /** How many lanes are started: the limit asked for, but at least one and no more than there is work. */
  function LaneCount(limit: int, items: nat): nat {
    Max(1, Min(if limit == 0 then 1 else limit, if items == 0 then 1 else items))
  }

  /** As many lanes as the limit says where there is work for so many; one for each item where there is less; one at least. */
  ghost predicate RightNumber(lanes: int, limit: int, items: nat) {
    && (1 <= limit <= items ==> lanes == limit)
    && (1 <= items < limit ==> lanes == items)
    && (limit <= 0 || items == 0 ==> lanes == 1)
  }

  /** Total weight of the lanes, by the weights of their states; a finished one weighs nothing. */
  function Weight(lanes: seq<Lane>, waiting: nat, looking: nat, broken: nat): nat {
    if lanes == [] then 0
    else WeightOf(lanes[0], waiting, looking, broken) + Weight(lanes[1..], waiting, looking, broken)
  }

  function WeightOf(lane: Lane, waiting: nat, looking: nat, broken: nat): nat {
    match lane
    case Waiting(_) => waiting
    case Looking => looking
    case Broken => broken
    case Finished => 0
  }

  /** Calls in flight, lanes not yet finished, and steps the lanes can take before the next index is handed out. */
  function InFlight(lanes: seq<Lane>): nat { Weight(lanes, 1, 0, 0) }

  function Unfinished(lanes: seq<Lane>): nat { Weight(lanes, 1, 1, 0) }

  function StepsLeft(lanes: seq<Lane>): nat { Weight(lanes, 2, 1, 0) }

  function BrokenLanes(lanes: seq<Lane>): nat { Weight(lanes, 0, 0, 1) }

  lemma {:induction false} WeightUpdate(lanes: seq<Lane>, l: nat, lane: Lane, waiting: nat, looking: nat, broken: nat)
    requires l < |lanes|
    ensures Weight(lanes[l := lane], waiting, looking, broken) + WeightOf(lanes[l], waiting, looking, broken)
         == Weight(lanes, waiting, looking, broken) + WeightOf(lane, waiting, looking, broken)
  {
    if l == 0 {
      assert lanes[0 := lane][1..] == lanes[1..];
    } else {
      WeightUpdate(lanes[1..], l - 1, lane, waiting, looking, broken);
      assert lanes[l := lane][1..] == lanes[1..][l - 1 := lane];
    }
  }

  lemma {:induction false} InFlightAtMostLanes(lanes: seq<Lane>)
    ensures InFlight(lanes) <= |lanes|
  {
    if lanes != [] {
      InFlightAtMostLanes(lanes[1..]);
    }
  }

  ghost function WaitingLanes(lanes: seq<Lane>): set<nat> { set l: nat | l < |lanes| && lanes[l].Waiting? }

  /** The calls in flight are as many as the lanes that wait for an answer. */
  lemma {:induction false} InFlightAreWaiting(lanes: seq<Lane>)
    ensures InFlight(lanes) == |WaitingLanes(lanes)|
  {
    if lanes != [] {
      InFlightAreWaiting(lanes[1..]);
      PlacesBehind(WaitingLanes(lanes[1..]), WaitingLanes(lanes));
    }
  }

  predicate Ended(lane: Lane) { lane.Finished? || lane.Broken? }

  lemma {:induction false} SomebodyUnfinished(lanes: seq<Lane>) returns (l: nat)
    requires Unfinished(lanes) > 0
    ensures l < |lanes| && !Ended(lanes[l])
  {
    if !Ended(lanes[0]) {
      l := 0;
    } else {
      l := SomebodyUnfinished(lanes[1..]);
      l := l + 1;
    }
  }

  lemma {:induction false} NobodyUnfinished(lanes: seq<Lane>)
    requires Unfinished(lanes) == 0
    ensures forall l :: 0 <= l < |lanes| ==> Ended(lanes[l])
  {
    if lanes != [] {
      NobodyUnfinished(lanes[1..]);
      assert forall l :: 1 <= l < |lanes| ==> lanes[l] == lanes[1..][l - 1];
    }
  }

  lemma {:induction false} AllBroken(lanes: seq<Lane>)
    requires forall l :: 0 <= l < |lanes| ==> lanes[l].Broken?
    ensures BrokenLanes(lanes) == |lanes|
  {
    if lanes != [] {
      AllBroken(lanes[1..]);
    }
  }

  lemma {:induction false} NoneLooking(lanes: seq<Lane>)
    requires forall l :: 0 <= l < |lanes| ==> lanes[l] == Looking
    ensures BrokenLanes(lanes) == InFlight(lanes) == 0
  {
    if lanes != [] {
      NoneLooking(lanes[1..]);
    }
  }

  /** The indices that failed. */
  function FailedAt(failures: seq<Failure>): set<nat> {
    set k | 0 <= k < |failures| :: failures[k].index
  }

  lemma {:induction false} FailedOnceMore(failures: seq<Failure>, f: Failure)
    requires f.index !in FailedAt(failures) && |FailedAt(failures)| == |failures|
    ensures FailedAt(failures + [f]) == FailedAt(failures) + {f.index} && |FailedAt(failures + [f])| == |failures| + 1
  {
    var more := failures + [f];
    assert forall k :: 0 <= k < |failures| ==> more[k] == failures[k];
    assert more[|failures|] == f;
    assert FailedAt(more) == FailedAt(failures) + {f.index};
  }

  function Values<R>(slots: seq<Option<R>>): (values: seq<R>)
    requires forall i :: 0 <= i < |slots| ==> slots[i].Some?
    ensures |values| == |slots| && forall i :: 0 <= i < |slots| ==> slots[i] == Some(values[i])
  {
    seq(|slots|, i requires 0 <= i < |slots| => slots[i].value)
  }

  /** No answer yet: a lane waits for it, or it was a failure. */
  ghost predicate Accounted(lanes: seq<Lane>, failed: set<nat>, i: nat) {
    i in failed || exists l :: 0 <= l < |lanes| && lanes[l] == Waiting(i)
  }

  /** What a lane knows: it waits for an index taken and not yet answered, or has seen the end of the list. */
  ghost predicate LaneFits<R>(lane: Lane, cursor: nat, results: seq<Option<R>>, failed: set<nat>) {
    match lane
    case Waiting(index) => index < cursor <= |results| && results[index] == None && index !in failed
    case Finished => cursor == |results|
    case _ => true
  }

  /** Every index taken is waited for by one lane, answered, or failed; the others have no answer. */
  ghost predicate Matched<R>(cursor: nat, results: seq<Option<R>>, lanes: seq<Lane>, failed: set<nat>) {
    && cursor <= |results|
    && (forall l :: 0 <= l < |lanes| ==> LaneFits(lanes[l], cursor, results, failed))
    && (forall l, m :: 0 <= l < m < |lanes| && lanes[l].Waiting? ==> lanes[l] != lanes[m])
    && (forall i :: cursor <= i < |results| ==> results[i] == None)
    && (forall i :: 0 <= i < cursor && results[i] == None ==> Accounted(lanes, failed, i))
    && (forall i :: i in failed ==> i < cursor && results[i] == None)
  }

  /** A lane broke for each failure. */
  ghost predicate Consistent<R>(cursor: nat, results: seq<Option<R>>, lanes: seq<Lane>, failures: seq<Failure>) {
    Matched(cursor, results, lanes, FailedAt(failures)) && |FailedAt(failures)| == |failures| == BrokenLanes(lanes)
  }

  lemma {:induction false} StillAccounted(lanes: seq<Lane>, failed: set<nat>, l: nat, lane: Lane, i: nat)
    requires Accounted(lanes, failed, i) && l < |lanes| && lanes[l] != Waiting(i)
    ensures Accounted(lanes[l := lane], failed, i)
  {
    if i !in failed {
      var m :| 0 <= m < |lanes| && lanes[m] == Waiting(i);
      assert lanes[l := lane][m] == Waiting(i);
    }
  }

  lemma {:induction false} WorkTaken<R>(cursor: nat, results: seq<Option<R>>, lanes: seq<Lane>, failed: set<nat>, l: nat)
    requires Matched(cursor, results, lanes, failed) && cursor < |results| && l < |lanes| && lanes[l] == Looking
    ensures Matched(cursor + 1, results, lanes[l := Waiting(cursor)], failed)
  {
    var after := lanes[l := Waiting(cursor)];
    forall i | 0 <= i < cursor + 1 && results[i] == None ensures Accounted(after, failed, i) {
      if i < cursor {
        StillAccounted(lanes, failed, l, Waiting(cursor), i);
      } else {
        assert after[l] == Waiting(i);
      }
    }
    forall m | 0 <= m < |after| ensures LaneFits(after[m], cursor + 1, results, failed) {
      assert LaneFits(lanes[m], cursor, results, failed);
    }
  }

  lemma {:induction false} LaneEnds<R>(cursor: nat, results: seq<Option<R>>, lanes: seq<Lane>, failed: set<nat>, l: nat)
    requires Matched(cursor, results, lanes, failed) && cursor == |results| && l < |lanes| && lanes[l] == Looking
    ensures Matched(cursor, results, lanes[l := Finished], failed)
  {
    forall i | 0 <= i < cursor && results[i] == None ensures Accounted(lanes[l := Finished], failed, i) {
      StillAccounted(lanes, failed, l, Finished, i);
    }
  }

  lemma {:induction false} GoodMatched<R>(cursor: nat, results: seq<Option<R>>, lanes: seq<Lane>, failed: set<nat>, l: nat, value: R)
    requires Matched(cursor, results, lanes, failed) && l < |lanes| && lanes[l].Waiting?
    ensures LaneFits(lanes[l], cursor, results, failed)
    ensures Matched(cursor, results[lanes[l].index := Some(value)], lanes[l := Looking], failed)
  {
    assert LaneFits(lanes[l], cursor, results, failed);
    var after, more := lanes[l := Looking], results[lanes[l].index := Some(value)];
    forall i | 0 <= i < cursor && more[i] == None ensures Accounted(after, failed, i) {
      StillAccounted(lanes, failed, l, Looking, i);
    }
    forall m | 0 <= m < |after| ensures LaneFits(after[m], cursor, more, failed) {
      assert LaneFits(lanes[m], cursor, results, failed);
    }
  }

  lemma {:induction false} BadMatched<R>(cursor: nat, results: seq<Option<R>>, lanes: seq<Lane>, failed: set<nat>, l: nat)
    requires Matched(cursor, results, lanes, failed) && l < |lanes| && lanes[l].Waiting?
    ensures LaneFits(lanes[l], cursor, results, failed)
    ensures Matched(cursor, results, lanes[l := Broken], failed + {lanes[l].index})
  {
    assert LaneFits(lanes[l], cursor, results, failed);
    var after, more := lanes[l := Broken], failed + {lanes[l].index};
    forall i | 0 <= i < cursor && results[i] == None ensures Accounted(after, more, i) {
      if i != lanes[l].index {
        StillAccounted(lanes, failed, l, Broken, i);
      }
    }
    forall m | 0 <= m < |after| ensures LaneFits(after[m], cursor, results, more) {
      assert LaneFits(lanes[m], cursor, results, failed);
    }
  }

  lemma {:induction false} GoodComes<R>(cursor: nat, results: seq<Option<R>>, lanes: seq<Lane>, failures: seq<Failure>, l: nat, value: R)
    requires Consistent(cursor, results, lanes, failures) && l < |lanes| && lanes[l].Waiting?
    ensures LaneFits(lanes[l], cursor, results, FailedAt(failures))
    ensures Consistent(cursor, results[lanes[l].index := Some(value)], lanes[l := Looking], failures)
    ensures InFlight(lanes[l := Looking]) <= InFlight(lanes)
  {
    WeightUpdate(lanes, l, Looking, 1, 0, 0);
    WeightUpdate(lanes, l, Looking, 0, 0, 1);
    GoodMatched(cursor, results, lanes, FailedAt(failures), l, value);
  }

  lemma {:induction false} BadComes<R>(cursor: nat, results: seq<Option<R>>, lanes: seq<Lane>, failures: seq<Failure>, l: nat, reason: string)
    requires Consistent(cursor, results, lanes, failures) && l < |lanes| && lanes[l].Waiting?
    ensures LaneFits(lanes[l], cursor, results, FailedAt(failures))
    ensures Consistent(cursor, results, lanes[l := Broken], failures + [Failure(lanes[l].index, reason)])
    ensures InFlight(lanes[l := Broken]) <= InFlight(lanes)
  {
    WeightUpdate(lanes, l, Broken, 1, 0, 0);
    WeightUpdate(lanes, l, Broken, 0, 0, 1);
    BadMatched(cursor, results, lanes, FailedAt(failures), l);
    FailedOnceMore(failures, Failure(lanes[l].index, reason));
  }

  class Pool<T, R> {
    const items: seq<T>
    var cursor: nat
    var results: seq<Option<R>>
    var lanes: seq<Lane>
    /** The failures, in the order in which they arrived. */
    var failures: seq<Failure>
    /** The indices the worker was called with, in the order of the calls. */
    var calls: seq<nat>
    /** The most calls that were in flight at once. */
    ghost var peak: nat

    ghost predicate Valid()
      reads this
    {
      && |results| == |items| && Consistent(cursor, results, lanes, failures) && calls == seq(cursor, i => i)
      && InFlight(lanes) <= peak <= |lanes|
    }

    constructor (items: seq<T>, limit: int)
      ensures Valid() && this.items == items
      ensures RightNumber(|lanes|, limit, |items|)
      ensures calls == [] && failures == [] && peak == 0 && forall l :: 0 <= l < |lanes| ==> lanes[l] == Looking
    {
      this.items := items;
      cursor, calls, failures := 0, [], [];
      results := seq(|items|, _ => None);
      lanes, peak := seq(LaneCount(limit, |items|), _ => Looking), 0;
      new;
      NoneLooking(lanes);
    }

    /** A lane takes the next index and calls the worker for it, or finishes when none is left. */
    method LookForWork(l: nat)
      requires Valid() && l < |lanes| && lanes[l] == Looking
      modifies `cursor, `calls, `lanes, `peak
      ensures Valid() && results == old(results) && failures == old(failures) && peak == Max(old(peak), InFlight(lanes))
      ensures if old(cursor) < |items|
              then cursor == old(cursor) + 1 && calls == old(calls) + [old(cursor)] && lanes == old(lanes)[l := Waiting(old(cursor))]
              else cursor == old(cursor) && calls == old(calls) && lanes == old(lanes)[l := Finished]
    {
      if cursor < |items| {
        var index := cursor;
        WeightUpdate(lanes, l, Waiting(index), 0, 0, 1);
        WorkTaken(index, results, lanes, FailedAt(failures), l);
        cursor := cursor + 1;
        calls, lanes := calls + [index], lanes[l := Waiting(index)];
        assert calls == seq(cursor, i => i);
      } else {
        WeightUpdate(lanes, l, Finished, 0, 0, 1);
        LaneEnds(cursor, results, lanes, FailedAt(failures), l);
        WeightUpdate(lanes, l, Finished, 1, 0, 0);
        lanes := lanes[l := Finished];
      }
      InFlightAtMostLanes(lanes);
      peak := Max(peak, InFlight(lanes));
    }

    /** The worker's answer for the index a lane waits for arrives; a failure breaks the lane, and no other. */
    method Settle(l: nat, answer: Answer<R>)
      requires Valid() && l < |lanes| && lanes[l].Waiting?
      modifies `results, `lanes, `failures
      ensures Valid() && old(lanes)[l].index < |items|
      ensures var index := old(lanes)[l].index;
              match answer
              case Good(value) => results == old(results)[index := Some(value)] && failures == old(failures) && lanes == old(lanes)[l := Looking]
              case Bad(reason) => results == old(results) && failures == old(failures) + [Failure(index, reason)] && lanes == old(lanes)[l := Broken]
    {
      var index := lanes[l].index;
      match answer
      case Good(value) =>
        GoodComes(cursor, results, lanes, failures, l, value);
        results, lanes := results[index := Some(value)], lanes[l := Looking];
      case Bad(reason) =>
        BadComes(cursor, results, lanes, failures, l, reason);
        failures, lanes := failures + [Failure(index, reason)], lanes[l := Broken];
    }
  }

  /** The answers that have arrived are the worker's. */
  ghost predicate AnsweredBy<T, R>(items: seq<T>, results: seq<Option<R>>, failures: seq<Failure>, worker: (T, nat) -> Answer<R>)
    requires |results| == |items|
  {
    && (forall i :: 0 <= i < |items| && results[i].Some? ==> worker(items[i], i) == Good(results[i].value))
    && (forall k :: 0 <= k < |failures| ==> failures[k].index < |items| && worker(items[failures[k].index], failures[k].index) == Bad(failures[k].reason))
  }

  /** The indices below `n` for which the worker fails. */
  ghost function BadBelow<T, R>(items: seq<T>, worker: (T, nat) -> Answer<R>, n: nat): set<nat>
    requires n <= |items|
  {
    set i | 0 <= i < n && worker(items[i], i).Bad?
  }

  /** One lane moves on: its answer arrives, or it looks for work. */
  method Proceed<T, R>(pool: Pool<T, R>, l: nat, worker: (T, nat) -> Answer<R>)
    requires pool.Valid() && l < |pool.lanes| && !Ended(pool.lanes[l])
    requires AnsweredBy(pool.items, pool.results, pool.failures, worker)
    modifies pool
    ensures pool.Valid() && AnsweredBy(pool.items, pool.results, pool.failures, worker) && |pool.lanes| == old(|pool.lanes|)
    ensures old(pool.failures) <= pool.failures && old(pool.peak) <= pool.peak
    ensures 2 * (|pool.items| - pool.cursor) + StepsLeft(pool.lanes) < old(2 * (|pool.items| - pool.cursor) + StepsLeft(pool.lanes))
  {
    if pool.lanes[l].Waiting? {
      var index := pool.lanes[l].index;
      assert LaneFits(pool.lanes[l], pool.cursor, pool.results, FailedAt(pool.failures));
      WeightUpdate(pool.lanes, l, Looking, 2, 1, 0);
      WeightUpdate(pool.lanes, l, Broken, 2, 1, 0);
      pool.Settle(l, worker(pool.items[index], index));
    } else {
      WeightUpdate(pool.lanes, l, Finished, 2, 1, 0);
      WeightUpdate(pool.lanes, l, Waiting(pool.cursor), 2, 1, 0);
      pool.LookForWork(l);
    }
  }

  /** When no lane moves on any more, all calls were answered, and only if every lane broke is anything left undone. */
  lemma {:induction false} AllAnswered<T, R>(items: seq<T>, cursor: nat, results: seq<Option<R>>, lanes: seq<Lane>, failures: seq<Failure>,
                                             worker: (T, nat) -> Answer<R>)
    requires |results| == |items| && Consistent(cursor, results, lanes, failures) && AnsweredBy(items, results, failures, worker)
    requires lanes != [] && forall l :: 0 <= l < |lanes| ==> Ended(lanes[l])
    ensures FailedAt(failures) == BadBelow(items, worker, cursor)
    ensures forall i :: 0 <= i < cursor && i !in FailedAt(failures) ==> results[i].Some?
    ensures cursor < |items| ==> |FailedAt(failures)| == |lanes|
  {
    assert forall l :: 0 <= l < |lanes| ==> LaneFits(lanes[l], cursor, results, FailedAt(failures));
    forall i: nat | i < cursor && i !in FailedAt(failures) ensures results[i].Some? {
      assert results[i].Some? || Accounted(lanes, FailedAt(failures), i);
    }
    if cursor < |items| {
      AllBroken(lanes);
    }
  }

  /** Without a failure everything was called and went well; the first failure to arrive is one of the worker's. */
  lemma {:induction false} AllDone<T, R>(items: seq<T>, cursor: nat, results: seq<Option<R>>, lanes: seq<Lane>, failures: seq<Failure>,
                                         worker: (T, nat) -> Answer<R>)
    requires |results| == |items| && Consistent(cursor, results, lanes, failures) && AnsweredBy(items, results, failures, worker)
    requires lanes != [] && forall l :: 0 <= l < |lanes| ==> Ended(lanes[l])
    ensures failures == [] ==> cursor == |items| && BadBelow(items, worker, |items|) == {}
    ensures failures == [] ==> forall i :: 0 <= i < |items| ==> results[i].Some? && worker(items[i], i) == Good(results[i].value)
    ensures failures != [] ==> failures[0].index in BadBelow(items, worker, cursor) && BadBelow(items, worker, |items|) != {}
    ensures failures != [] ==> worker(items[failures[0].index], failures[0].index) == Bad(failures[0].reason)
  {
    AllAnswered(items, cursor, results, lanes, failures, worker);
    if failures != [] {
      assert failures[0].index in FailedAt(failures);
      assert failures[0].index in BadBelow(items, worker, |items|);
    }
  }

  /** Lanes move on, any of them next, until none does any more. */
  method ProceedToEnd<T, R>(pool: Pool<T, R>, worker: (T, nat) -> Answer<R>)
    requires pool.Valid() && AnsweredBy(pool.items, pool.results, pool.failures, worker)
    modifies pool
    ensures pool.Valid() && AnsweredBy(pool.items, pool.results, pool.failures, worker) && |pool.lanes| == old(|pool.lanes|)
    ensures old(pool.peak) <= pool.peak && forall l :: 0 <= l < |pool.lanes| ==> Ended(pool.lanes[l])
  {
    while Unfinished(pool.lanes) > 0
      invariant pool.Valid() && AnsweredBy(pool.items, pool.results, pool.failures, worker)
      invariant |pool.lanes| == old(|pool.lanes|) && old(pool.peak) <= pool.peak
      decreases 2 * (|pool.items| - pool.cursor) + StepsLeft(pool.lanes)
    {
      ghost var someone := SomebodyUnfinished(pool.lanes);
      var l :| 0 <= l < |pool.lanes| && !Ended(pool.lanes[l]);
      Proceed(pool, l, worker);
    }
    NobodyUnfinished(pool.lanes);
  }

  /**
   * Lanes proceed in an arbitrary interleaving, answers arriving in any order, until none moves on any more. As no index
   * is called twice, any answers whatever are those of some `worker`. The indices are called in order, each once; never
   * more calls are in flight than there are lanes. The results are the worker's in list order exactly if it never fails;
   * otherwise the first failure is what comes out, while the other lanes go on: the rest of the list is left undone only
   * if every lane has failed.
   */
  method RunWithConcurrency<T, R>(items: seq<T>, limit: int, worker: (T, nat) -> Answer<R>)
    returns (outcome: Outcome<R>, calls: seq<nat>, ghost peak: nat, ghost failures: seq<Failure>)
    ensures |calls| <= |items| && calls == seq(|calls|, i => i)
    ensures (peak <= 1 || peak <= limit) && (peak <= 1 || peak <= |items|)
    ensures outcome.Done? <==> BadBelow(items, worker, |items|) == {}
    ensures outcome.Done? ==> |outcome.results| == |items| == |calls| && forall i :: 0 <= i < |items| ==> worker(items[i], i) == Good(outcome.results[i])
    ensures FailedAt(failures) == BadBelow(items, worker, |calls|)
    ensures outcome.Rejected? ==> failures != [] && outcome.reason == failures[0].reason
    ensures outcome.Rejected? ==> exists i :: i in BadBelow(items, worker, |calls|) && worker(items[i], i) == Bad(outcome.reason)
    ensures |calls| < |items| ==> RightNumber(|BadBelow(items, worker, |calls|)|, limit, |items|)
  {
    var pool := new Pool<T, R>(items, limit);
    ProceedToEnd(pool, worker);
    AllAnswered(items, pool.cursor, pool.results, pool.lanes, pool.failures, worker);
    AllDone(items, pool.cursor, pool.results, pool.lanes, pool.failures, worker);
    calls, failures, peak := pool.calls, pool.failures, pool.peak;
    if pool.failures == [] {
      outcome := Done(Values(pool.results));
    } else {
      outcome := Rejected(pool.failures[0].reason);
    }
  }
}
