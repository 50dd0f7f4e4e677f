/**
 * The failure lockout of the password endpoints: five failures from one address inside a fixed window lock
 * that address out, fifty failures from anywhere lock everybody out.
 */
module Lockout {
  import opened Prelude
  import opened SlidingWindow

  const FAIL_WINDOW_MS := 15 * 60 * 1000
  const LOCK_MS := 15 * 60 * 1000
  const MAX_FAILS_PER_IP: nat := 5
  const MAX_FAILS_GLOBAL: nat := 50
  const MAX_TRACKED_IPS := 10000

  /** A `firstAt` of 0 means that no window has been opened yet. */
  datatype FailEntry = FailEntry(count: nat, firstAt: int, lockedUntil: int)

  const NO_FAILURES := FailEntry(0, 0, 0)

  predicate WindowOver(entry: FailEntry, at: int) {
    entry.firstAt == 0 || at - entry.firstAt > FAIL_WINDOW_MS
  }

  /** Opens a new counting window when the old one is over. */
  function BumpWindow(entry: FailEntry, at: int): FailEntry {
    if WindowOver(entry, at) then entry.(count := 0, firstAt := at) else entry
  }

  /** One more failure at time `at`; the `max`-th of a window locks and starts the count afresh. */
  function Fail(entry: FailEntry, at: int, max: nat): FailEntry {
    var bumped := BumpWindow(entry, at);
    if bumped.count + 1 >= max then bumped.(count := 0, lockedUntil := at + LOCK_MS)
    else bumped.(count := bumped.count + 1)
  }

  // ----- Why the bound holds -----

  /**
   * The log of evaluated failures behind an entry. The last `entry.count` of them belong to the open window, the
   * `carried` before those to the window before; whatever is older is a full window away from the next evaluation.
   */
  datatype History = History(entry: FailEntry, carried: nat, log: seq<int>)

  const NO_HISTORY := History(NO_FAILURES, 0, [])

  /** Any 2 max failures in a row span more than a window. */
  ghost predicate SpreadOut(log: seq<int>, max: nat, now: int)
    requires 0 < max
  {
    Sorted(log) && Spaced(log, 2 * max - 1, FAIL_WINDOW_MS) && forall i :: 0 <= i < |log| ==> log[i] <= now
  }

  ghost predicate Explained(h: History, max: nat, now: int) {
    && 0 < max
    && SpreadOut(h.log, max, now)
    && h.entry.count < max && h.carried < max && h.entry.count + h.carried <= |h.log|
    && (h.entry.firstAt == 0 ==> h.log == [])
    && (h.carried > 0 ==> h.log[|h.log| - h.entry.count - 1] <= h.entry.firstAt)
    && BarrierHolds(h, now)
  }

  /** The failures that count no more are a window behind. */
  ghost predicate BarrierHolds(h: History, now: int)
    requires h.entry.count + h.carried <= |h.log|
  {
    var barrier := |h.log| - h.entry.count - h.carried;
    barrier > 0 ==> h.log[barrier - 1] + FAIL_WINDOW_MS <= Max(now, h.entry.lockedUntil)
  }

  function FailHistory(h: History, at: int, max: nat): History {
    var entry := Fail(h.entry, at, max);
    var carried := if entry.count == 0 then 0 else if WindowOver(h.entry, at) then h.entry.count else h.carried;
    History(entry, carried, h.log + [at])
  }

  lemma ExplainedLater(h: History, max: nat, now: int, at: int)
    requires Explained(h, max, now) && now <= at
    ensures Explained(h, max, at)
  {
  }

  /** How many of the latest failures may still lie inside the window that ends at `at`. */
  function Recent(h: History, at: int): nat {
    if WindowOver(h.entry, at) then h.entry.count else h.entry.count + h.carried
  }

  lemma OlderFailuresAreAWindowAway(h: History, max: nat, now: int, at: int)
    requires Explained(h, max, now)
    requires now <= at && h.entry.lockedUntil <= at
    ensures Recent(h, at) <= 2 * max - 2 && Recent(h, at) <= |h.log|
    ensures Recent(h, at) < |h.log| ==> h.log[|h.log| - Recent(h, at) - 1] + FAIL_WINDOW_MS <= at
  {
  }

  lemma FailureSpreadOut(h: History, max: nat, now: int, at: int)
    requires Explained(h, max, now)
    requires now <= at && h.entry.lockedUntil <= at
    ensures SpreadOut(h.log + [at], max, at)
  {
    OlderFailuresAreAWindowAway(h, max, now, at);
    var n, keep := |h.log|, Recent(h, at);
    if 2 * max - 1 <= n {
      assert h.log[n - (2 * max - 1)] <= h.log[n - keep - 1];
    }
    AppendKeepsSpacing(h.log, 2 * max - 1, FAIL_WINDOW_MS, at);
  }

  lemma BarrierAfterFailure(h: History, max: nat, now: int, at: int)
    requires Explained(h, max, now)
    requires now <= at && 0 < at && h.entry.lockedUntil <= at
    ensures var h' := FailHistory(h, at, max); h'.entry.count + h'.carried <= |h'.log| && BarrierHolds(h', at)
  {
    OlderFailuresAreAWindowAway(h, max, now, at);
    var h' := FailHistory(h, at, max);
    var n, keep := |h.log|, Recent(h, at);
    if h'.entry.count > 0 && keep < n {
      assert h'.log[n - keep - 1] == h.log[n - keep - 1];
    }
  }

  /** An evaluated failure is explained in turn: at most 2 max - 1 of them ever fall into one window. */
  lemma FailureExplained(h: History, max: nat, now: int, at: int)
    requires Explained(h, max, now)
    requires now <= at && 0 < at && h.entry.lockedUntil <= at
    ensures Explained(FailHistory(h, at, max), max, at)
  {
    FailureSpreadOut(h, max, now, at);
    BarrierAfterFailure(h, max, now, at);
    var h' := FailHistory(h, at, max);
    var n, c := |h.log|, h'.entry.count;
    if h'.carried > 0 {
      assert h'.log[n - c] == h.log[n - c];
    }
  }

  /**
   * The table may have forgotten an entry whose window and lock are both over; then the entry it would still
   * hold behaves like a fresh one.
   */
  ghost predicate Mirrors(kept: Option<FailEntry>, full: FailEntry, now: int) {
    match kept
    case None => WindowOver(full, now) && full.lockedUntil <= now
    case Some(entry) =>
      && entry.count == full.count && entry.firstAt == full.firstAt
      && (entry.lockedUntil == full.lockedUntil || (entry.lockedUntil <= now && full.lockedUntil <= now))
  }

  lemma FailureMirrored(kept: Option<FailEntry>, full: FailEntry, now: int, at: int, max: nat)
    requires Mirrors(kept, full, now) && now <= at && 0 < at
    requires full.lockedUntil <= at
    requires kept.Some? ==> kept.value.lockedUntil <= at
    ensures Mirrors(Some(Fail(if kept.Some? then kept.value else NO_FAILURES, at, max)), Fail(full, at, max), at)
  {
  }

  /** Failures evaluated one after the other against one entry, each at a moment the entry is not locked. */
  predicate Evaluable(entry: FailEntry, times: seq<int>, max: nat)
    decreases |times|
  {
    times == [] || (entry.lockedUntil <= times[0] && Evaluable(Fail(entry, times[0], max), times[1..], max))
  }

  /** The bound of 2 * 5 - 1 is reached: nine failures can be evaluated within one millisecond. */
  lemma NineAreEvaluated()
    ensures var t := 1 + LOCK_MS;
            var times := [1, 1, 1, 1, 1, t, t, t, t, t + 1, t + 1, t + 1, t + 1, t + 1];
            Evaluable(NO_FAILURES, times, MAX_FAILS_PER_IP) && InWindow(times, t, FAIL_WINDOW_MS) == 2 * MAX_FAILS_PER_IP - 1
  {
    var t := 1 + LOCK_MS;
    var tail0 := [t + 1, t + 1, t + 1, t + 1, t + 1];
    var tail1 := [t, t, t, t] + tail0;
    var times := [1, 1, 1, 1, 1] + tail1;
    assert times == [1, 1, 1, 1, 1, t, t, t, t, t + 1, t + 1, t + 1, t + 1, t + 1];
    FiveInARow(FailEntry(4, 1, t), t + 1, []);
    assert tail0 + [] == tail0;
    FourInARow(FailEntry(0, 1, t), t, tail0);
    FiveInARow(NO_FAILURES, 1, tail1);
    CountInAtLeast(times, t, t + FAIL_WINDOW_MS, 5, 14);
    CountInAtMost(times, t, t + FAIL_WINDOW_MS, 5);
  }

  lemma FourInARow(entry: FailEntry, at: int, rest: seq<int>)
    requires !WindowOver(entry, at) && entry.count == 0 && entry.lockedUntil <= at
    requires Evaluable(entry.(count := 4), rest, 5)
    ensures Evaluable(entry, [at, at, at, at] + rest, 5)
  {
    var r1, r2, r3 := [at] + rest, [at, at] + rest, [at, at, at] + rest;
    assert r1[1..] == rest && r2[1..] == r1 && r3[1..] == r2 && ([at, at, at, at] + rest)[1..] == r3;
    assert Evaluable(entry.(count := 3), r1, 5);
    assert Evaluable(entry.(count := 2), r2, 5);
    assert Evaluable(entry.(count := 1), r3, 5);
  }

  lemma LastTwoOfFive(at: int, until: int, rest: seq<int>)
    requires until <= at && at != 0 && Evaluable(FailEntry(0, at, at + LOCK_MS), rest, 5)
    ensures Evaluable(FailEntry(3, at, until), [at, at] + rest, 5)
  {
    assert ([at] + rest)[1..] == rest && ([at, at] + rest)[1..] == [at] + rest;
    assert Evaluable(FailEntry(4, at, until), [at] + rest, 5);
  }

  lemma FiveInARow(entry: FailEntry, at: int, rest: seq<int>)
    requires WindowOver(entry, at) && entry.lockedUntil <= at && at != 0
    requires Evaluable(FailEntry(0, at, at + LOCK_MS), rest, 5)
    ensures Evaluable(entry, [at, at, at, at, at] + rest, 5)
  {
    LastTwoOfFive(at, entry.lockedUntil, rest);
    var r2 := [at, at] + rest;
    var r3, r4, all := [at] + r2, [at, at] + r2, [at, at, at, at, at] + rest;
    assert r3[1..] == r2 && r4[1..] == r3 && all[1..] == r4;
    assert Evaluable(FailEntry(2, at, entry.lockedUntil), r3, 5);
    assert Evaluable(FailEntry(1, at, entry.lockedUntil), r4, 5);
  }

  // ----- The guard -----

  datatype Verdict = Locked(seconds: nat) | Refused | Accepted

  /** Milliseconds to whole seconds, rounded up. */
  function CeilSeconds(ms: nat): nat { (ms + 999) / 1000 }

  predicate Expired(entry: FailEntry, at: int) {
    entry.lockedUntil <= at && at - entry.firstAt > FAIL_WINDOW_MS
  }

  function EntryOf(table: map<string, FailEntry>, ip: string): Option<FailEntry> {
    if ip in table then Some(table[ip]) else None
  }

  ghost function HistoryOf(histories: map<string, History>, ip: string): History {
    if ip in histories then histories[ip] else NO_HISTORY
  }

  /** Every address, tracked or not, is locked out as its full history demands. */
  ghost predicate TableExplained(table: map<string, FailEntry>, histories: map<string, History>, now: int) {
    forall ip {:trigger HistoryOf(histories, ip)} ::
      && Explained(HistoryOf(histories, ip), MAX_FAILS_PER_IP, now)
      && Mirrors(EntryOf(table, ip), HistoryOf(histories, ip).entry, now)
  }

  lemma TableLater(table: map<string, FailEntry>, histories: map<string, History>, now: int, at: int)
    requires TableExplained(table, histories, now) && now <= at
    ensures TableExplained(table, histories, at)
  {
    forall ip ensures Explained(HistoryOf(histories, ip), MAX_FAILS_PER_IP, at)
                      && Mirrors(EntryOf(table, ip), HistoryOf(histories, ip).entry, at) {
      ExplainedLater(HistoryOf(histories, ip), MAX_FAILS_PER_IP, now, at);
    }
  }

  lemma TableAfterFailure(table: map<string, FailEntry>, histories: map<string, History>, ip: string, now: int, at: int)
    requires TableExplained(table, histories, now) && now <= at && 0 < at
    requires ip in table ==> table[ip].lockedUntil <= at
    ensures TableExplained(table[ip := Fail(if ip in table then table[ip] else NO_FAILURES, at, MAX_FAILS_PER_IP)],
                           histories[ip := FailHistory(HistoryOf(histories, ip), at, MAX_FAILS_PER_IP)], at)
  {
    TableLater(table, histories, now, at);
    var h, entry := HistoryOf(histories, ip), if ip in table then table[ip] else NO_FAILURES;
    FailureExplained(h, MAX_FAILS_PER_IP, now, at);
    FailureMirrored(EntryOf(table, ip), h.entry, now, at, MAX_FAILS_PER_IP);
    TableWith(table, histories, ip, Fail(entry, at, MAX_FAILS_PER_IP), FailHistory(h, at, MAX_FAILS_PER_IP), at);
  }

  lemma TableWith(table: map<string, FailEntry>, histories: map<string, History>, ip: string, entry: FailEntry, h: History, at: int)
    requires TableExplained(table, histories, at)
    requires Explained(h, MAX_FAILS_PER_IP, at) && Mirrors(Some(entry), h.entry, at)
    ensures TableExplained(table[ip := entry], histories[ip := h], at)
  {
    var table', histories' := table[ip := entry], histories[ip := h];
    forall other ensures Explained(HistoryOf(histories', other), MAX_FAILS_PER_IP, at)
                         && Mirrors(EntryOf(table', other), HistoryOf(histories', other).entry, at) {
      if other != ip {
        assert HistoryOf(histories', other) == HistoryOf(histories, other);
      }
    }
  }

  /** The table without the entries whose window and lock are both over. */
  function Pruned(table: map<string, FailEntry>, at: int): map<string, FailEntry> {
    map ip | ip in table && !Expired(table[ip], at) :: table[ip]
  }

  /** The table after a failure: the failing address counted, and a table grown too large weeded out. */
  function AfterFailure(table: map<string, FailEntry>, ip: string, at: int): map<string, FailEntry> {
    var counted := table[ip := Fail(if ip in table then table[ip] else NO_FAILURES, at, MAX_FAILS_PER_IP)];
    if |counted| > MAX_TRACKED_IPS then Pruned(counted, at) else counted
  }

  lemma TableAfterPrune(table: map<string, FailEntry>, histories: map<string, History>, at: int)
    requires TableExplained(table, histories, at)
    ensures TableExplained(Pruned(table, at), histories, at)
  {
  }

  lemma TableAfterSuccess(table: map<string, FailEntry>, histories: map<string, History>, ip: string, at: int)
    requires TableExplained(table, histories, at) && 0 <= at
    ensures TableExplained(table - {ip}, histories - {ip}, at)
  {
    forall other ensures Explained(HistoryOf(histories - {ip}, other), MAX_FAILS_PER_IP, at)
                         && Mirrors(EntryOf(table - {ip}, other), HistoryOf(histories - {ip}, other).entry, at) {
      assert other != ip ==> HistoryOf(histories - {ip}, other) == HistoryOf(histories, other);
    }
  }

  /** The lock of everybody, or that of the address, is not over. */
  ghost predicate Barred(table: map<string, FailEntry>, global: FailEntry, ip: string, at: int) {
    at < global.lockedUntil || (ip in table && at < table[ip].lockedUntil)
  }

  class Guard {
    var failsByIp: map<string, FailEntry>
    var globalFails: FailEntry

    ghost var clock: int
    /** The evaluated failures of each address since its last successful login, and those from anywhere. */
    ghost var histories: map<string, History>
    ghost var global: History

    ghost predicate Valid()
      reads this
    {
      && 0 <= clock
      && TableExplained(failsByIp, histories, clock)
      && Explained(global, MAX_FAILS_GLOBAL, clock) && global.entry == globalFails
    }

    constructor ()
      ensures Valid() && clock == 0 && histories == map[] && global == NO_HISTORY
    {
      failsByIp, globalFails := map[], NO_FAILURES;
      clock, histories, global := 0, map[], NO_HISTORY;
    }

    /** When the lock on this address, or on everybody, ends. */
    function LockedUntil(ip: string): int
      reads this
    {
      Max(if ip in failsByIp then failsByIp[ip].lockedUntil else 0, globalFails.lockedUntil)
    }

    /** Remaining lock time in whole seconds; 0 when not locked. */
    method LockedSeconds(ip: string, at: int) returns (seconds: nat)
      ensures 0 <= at ==> (seconds > 0 <==> Barred(failsByIp, globalFails, ip, at))
      ensures (ip in failsByIp ==> failsByIp[ip].lockedUntil <= at + 1000 * seconds) && globalFails.lockedUntil <= at + 1000 * seconds
      ensures seconds > 0 ==>
                || at + 1000 * (seconds - 1) < globalFails.lockedUntil
                || at + 1000 * (seconds - 1) < if ip in failsByIp then failsByIp[ip].lockedUntil else 0
    {
      var until := LockedUntil(ip);
      seconds := if until > at then CeilSeconds(until - at) else 0;
    }

    /** Forgets the entries whose window and lock are both over. */
    method PruneTable(at: int)
      modifies `failsByIp
      ensures failsByIp == Pruned(old(failsByIp), at)
    {
      var keys := failsByIp.Keys;
      while keys != {}
        invariant keys <= failsByIp.Keys
        invariant failsByIp == map ip | ip in old(failsByIp) && (ip in keys || !Expired(old(failsByIp)[ip], at)) :: old(failsByIp)[ip]
        decreases |keys|
      {
        var ip :| ip in keys;
        if Expired(failsByIp[ip], at) {
          failsByIp := failsByIp - {ip};
        }
        keys := keys - {ip};
      }
    }

    /** A wrong password at a moment when neither the address nor everybody is locked. */
    method RecordFailure(ip: string, at: int)
      requires Valid() && clock <= at && 0 < at && LockedUntil(ip) <= at
      modifies this
      ensures Valid() && clock == at
      ensures histories == old(histories)[ip := FailHistory(HistoryOf(old(histories), ip), at, MAX_FAILS_PER_IP)]
      ensures global == FailHistory(old(global), at, MAX_FAILS_GLOBAL)
      ensures globalFails == Fail(old(globalFails), at, MAX_FAILS_GLOBAL)
      ensures failsByIp == AfterFailure(old(failsByIp), ip, at)
    {
      FailureExplained(global, MAX_FAILS_GLOBAL, clock, at);
      TableAfterFailure(failsByIp, histories, ip, clock, at);
      histories := histories[ip := FailHistory(HistoryOf(histories, ip), at, MAX_FAILS_PER_IP)];
      global := FailHistory(global, at, MAX_FAILS_GLOBAL);
      var entry := if ip in failsByIp then failsByIp[ip] else NO_FAILURES;
      failsByIp := failsByIp[ip := Fail(entry, at, MAX_FAILS_PER_IP)];
      globalFails := Fail(globalFails, at, MAX_FAILS_GLOBAL);
      clock := at;
      if |failsByIp| > MAX_TRACKED_IPS {
        TableAfterPrune(failsByIp, histories, at);
        PruneTable(at);
      }
    }

    /**
     * One request to a password endpoint: the lock is looked at first, the password after that. Only a login or
     * a first-time setup that succeeds (`forgives`) wipes the failures of its address.
     */
    method Attempt(ip: string, checkedAt: int, at: int, correct: bool, forgives: bool) returns (verdict: Verdict)
      requires Valid() && clock <= checkedAt <= at && 0 < at
      modifies this
      ensures Valid() && clock == at
      ensures verdict.Locked? <==> Barred(old(failsByIp), old(globalFails), ip, checkedAt)
      ensures verdict.Accepted? ==> correct
      ensures verdict.Refused? ==> !correct
      ensures verdict.Refused? ==>
                && failsByIp == AfterFailure(old(failsByIp), ip, at)
                && histories == old(histories)[ip := FailHistory(HistoryOf(old(histories), ip), at, MAX_FAILS_PER_IP)]
                && global == FailHistory(old(global), at, MAX_FAILS_GLOBAL)
      ensures !verdict.Refused? ==>
                && global == old(global) && globalFails == old(globalFails)
                && failsByIp == (if verdict.Accepted? && forgives then old(failsByIp) - {ip} else old(failsByIp))
                && histories == if verdict.Accepted? && forgives then old(histories) - {ip} else old(histories)
    {
      var wait := LockedSeconds(ip, checkedAt);
      if wait > 0 {
        Idle(at);
        return Locked(wait);
      }
      if !correct {
        RecordFailure(ip, at);
        return Refused;
      }
      Idle(at);
      if forgives {
        ClearFailures(ip);
      }
      verdict := Accepted;
    }

    /** The failures of an address are forgotten. */
    method ClearFailures(ip: string)
      requires Valid()
      modifies `failsByIp, `histories
      ensures Valid() && failsByIp == old(failsByIp) - {ip} && histories == old(histories) - {ip}
    {
      TableAfterSuccess(failsByIp, histories, ip, clock);
      failsByIp := failsByIp - {ip};
      histories := histories - {ip};
    }

    /** Time passes. */
    ghost method Idle(at: int)
      requires Valid() && clock <= at
      modifies `clock
      ensures Valid() && clock == at
      ensures histories == old(histories) && failsByIp == old(failsByIp)
    {
      TableLater(failsByIp, histories, clock, at);
      clock := at;
    }
  }

  /** A request `gap` ms after the one before it whose password check takes `hashing` ms. */
  datatype Request = Request(ip: string, gap: nat, hashing: nat, correct: bool, forgives: bool)

  /** The evaluated failures of an address since its last successful login. */
  ghost function LogOf(histories: map<string, History>, ip: string): seq<int> {
    if ip in histories then histories[ip].log else []
  }

  /** What a change to the history of one address means for the failures of another. */
  lemma {:induction false} LogAfter(histories: map<string, History>, ip: string, other: string, at: int)
    ensures LogOf(histories[ip := FailHistory(HistoryOf(histories, ip), at, MAX_FAILS_PER_IP)], other)
         == if ip == other then LogOf(histories, other) + [at] else LogOf(histories, other)
    ensures ip != other ==> LogOf(histories - {ip}, other) == LogOf(histories, other)
  {
  }

  /** One request, and what it adds to the failures from anywhere and to those from the address `ip`. */
  method Handle(guard: Guard, r: Request, now: int, ghost ip: string) returns (verdict: Verdict)
    requires guard.Valid() && guard.clock <= now && 0 < now
    modifies guard
    ensures guard.Valid() && guard.clock == now + r.hashing
    ensures guard.global.log == if verdict.Refused? then old(guard.global.log) + [now + r.hashing] else old(guard.global.log)
    ensures !(r.ip == ip && r.correct && r.forgives) ==>
              LogOf(guard.histories, ip) ==
                if verdict.Refused? && r.ip == ip then LogOf(old(guard.histories), ip) + [now + r.hashing] else LogOf(old(guard.histories), ip)
  {
    LogAfter(guard.histories, r.ip, ip, now + r.hashing);
    verdict := guard.Attempt(r.ip, now, now + r.hashing, r.correct, r.forgives);
  }

  lemma {:induction false} LogsAreSpaced(guard: Guard, ip: string)
    requires guard.Valid()
    ensures SpreadOut(guard.global.log, MAX_FAILS_GLOBAL, guard.clock) && SpreadOut(LogOf(guard.histories, ip), MAX_FAILS_PER_IP, guard.clock)
  {
    assert Explained(HistoryOf(guard.histories, ip), MAX_FAILS_PER_IP, guard.clock);
  }

  /**
   * Any run of requests from any addresses: of the failures from anywhere at most 99, and of the failures from one
   * address that never succeeds at most 9, fall into any half-open interval of 15 minutes.
   */
  method Run(start: int, requests: seq<Request>, ip: string) returns (own: seq<int>, all: seq<int>)
    requires 0 < start
    ensures forall t :: InWindow(all, t, FAIL_WINDOW_MS) <= 2 * MAX_FAILS_GLOBAL - 1
    ensures (forall r :: r in requests && r.ip == ip ==> !(r.correct && r.forgives)) ==>
              forall t :: InWindow(own, t, FAIL_WINDOW_MS) <= 2 * MAX_FAILS_PER_IP - 1
  {
    ghost var unsuccessful := forall r :: r in requests && r.ip == ip ==> !(r.correct && r.forgives);
    var guard := new Guard();
    var now := start;
    own, all := [], [];
    for i := 0 to |requests|
      invariant fresh(guard) && guard.Valid() && guard.clock <= now && 0 < now
      invariant all == guard.global.log
      invariant unsuccessful ==> own == LogOf(guard.histories, ip)
    {
      var r := requests[i];
      assert r in requests;
      var verdict := Handle(guard, r, now + r.gap, ip);
      now := now + r.gap + r.hashing;
      if verdict.Refused? {
        all := all + [now];
        if r.ip == ip {
          own := own + [now];
        }
      }
    }
    LogsAreSpaced(guard, ip);
    WindowBoundIsSpacing(all, 2 * MAX_FAILS_GLOBAL - 1, FAIL_WINDOW_MS);
    if unsuccessful {
      WindowBoundIsSpacing(own, 2 * MAX_FAILS_PER_IP - 1, FAIL_WINDOW_MS);
    }
  }
}
