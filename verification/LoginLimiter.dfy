/**
 * The sliding-window login limiter: at most `limit` Steam logins may start through one proxy in any
 * window, later ones queue in arrival order, and a caller is told how long it will wait.
 */
module LoginLimiter {
  import opened Prelude
  import opened SlidingWindow

  /** One queued login. `promised` is the instant its caller was told it would start. */
  datatype Waiter = Waiter(id: nat, promised: int)

  /** What became of a waiter when its turn came: a cancelled one is passed over. */
  datatype Turn = Turn(waiter: Waiter, granted: bool)

  datatype Admission = Admission(starts: seq<int>, queue: seq<Waiter>, turns: seq<Turn>)

  predicate HasRoom(used: nat, limit: nat) {
    limit == 0 || used < limit
  }

  /** The logins still inside the window at time `at`. */
  function Prune(starts: seq<int>, window: int, at: int): seq<int> {
    if starts == [] then []
    else (if starts[0] + window > at then [starts[0]] else []) + Prune(starts[1..], window, at)
  }

  /** The head of the queue is let through, or passed over when cancelled, while there is room. */
  function Admit(starts: seq<int>, queue: seq<Waiter>, limit: nat, cancelled: set<nat>, at: int): Admission
    decreases queue
  {
    if queue == [] || !HasRoom(|starts|, limit) then Admission(starts, queue, [])
    else
      var granted := queue[0].id !in cancelled;
      var rest := Admit(if granted then starts + [at] else starts, queue[1..], limit, cancelled, at);
      rest.(turns := [Turn(queue[0], granted)] + rest.turns)
  }

  /** When the next login may start if nothing else happens from time `t` on. */
  function NextStart(starts: seq<int>, limit: nat, window: int, t: int): int {
    if HasRoom(|starts|, limit) then t else Max(t, starts[|starts| - limit] + window)
  }

  /** When the login `position` places back in the queue starts, if the logins before it start as early as they may. */
  function Forecast(starts: seq<int>, limit: nat, window: int, t: int, position: nat): int
    decreases position
  {
    var u := NextStart(starts, limit, window, t);
    if position == 0 then u else Forecast(starts + [u], limit, window, u, position - 1)
  }

  function Waiters(turns: seq<Turn>): seq<Waiter> {
    if turns == [] then [] else [turns[0].waiter] + Waiters(turns[1..])
  }

  function Grants(turns: seq<Turn>, at: int): seq<int> {
    if turns == [] then []
    else (if turns[0].granted then [at] else []) + Grants(turns[1..], at)
  }

  /** All these starts are still inside the window at `at`. */
  ghost predicate Live(starts: seq<int>, window: int, at: int) {
    forall i :: 0 <= i < |starts| ==> starts[i] + window > at
  }

  // ----- Pruning -----

  lemma {:induction false} PruneDropsPrefix(starts: seq<int>, window: int, at: int) returns (k: nat)
    requires Sorted(starts)
    ensures k <= |starts| && Prune(starts, window, at) == starts[k..]
    ensures forall i :: 0 <= i < k ==> starts[i] + window <= at
    ensures Live(starts[k..], window, at)
  {
    if starts == [] {
      k := 0;
    } else if starts[0] + window > at {
      PruneKeepsLive(starts, window, at);
      k := 0;
    } else {
      var rest := starts[1..];
      var k' := PruneDropsPrefix(rest, window, at);
      k := k' + 1;
      assert rest[k'..] == starts[k..];
      forall i | 0 <= i < k ensures starts[i] + window <= at {
        if i > 0 {
          assert rest[i - 1] == starts[i];
        }
      }
    }
  }

  lemma {:induction false} PruneKeepsLive(starts: seq<int>, window: int, at: int)
    requires Live(starts, window, at)
    ensures Prune(starts, window, at) == starts
  {
    if starts != [] {
      PruneKeepsLive(starts[1..], window, at);
    }
  }

  /** With the log full, room appears exactly when the login `limit` places from the end leaves the window. */
  lemma {:induction false} RoomAppearsAt(starts: seq<int>, limit: nat, window: int, t: int)
    requires Sorted(starts) && 0 < limit <= |starts|
    ensures HasRoom(|Prune(starts, window, t)|, limit) <==> starts[|starts| - limit] + window <= t
  {
    var k := PruneDropsPrefix(starts, window, t);
  }

  // ----- Admission -----

  /** Turns are taken in queue order. */
  lemma {:induction false} AdmitInOrder(starts: seq<int>, queue: seq<Waiter>, limit: nat, cancelled: set<nat>, at: int)
    ensures var a := Admit(starts, queue, limit, cancelled, at);
            queue == Waiters(a.turns) + a.queue
    decreases queue
  {
    if queue != [] && HasRoom(|starts|, limit) {
      var granted := queue[0].id !in cancelled;
      var starts' := if granted then starts + [at] else starts;
      AdmitInOrder(starts', queue[1..], limit, cancelled, at);
      var rest := Admit(starts', queue[1..], limit, cancelled, at);
      var turns := [Turn(queue[0], granted)] + rest.turns;
      assert turns[1..] == rest.turns;
    }
  }

  /** Exactly the cancelled waiters are passed over. */
  lemma {:induction false} AdmitSkipsCancelled(starts: seq<int>, queue: seq<Waiter>, limit: nat, cancelled: set<nat>, at: int)
    ensures forall turn :: turn in Admit(starts, queue, limit, cancelled, at).turns ==>
              turn.waiter in queue && (turn.granted <==> turn.waiter.id !in cancelled)
    decreases queue
  {
    if queue != [] && HasRoom(|starts|, limit) {
      var starts' := if queue[0].id !in cancelled then starts + [at] else starts;
      AdmitSkipsCancelled(starts', queue[1..], limit, cancelled, at);
    }
  }

  /** Exactly the granted turns are logged as starts. */
  lemma {:induction false} AdmitLogsGrants(starts: seq<int>, queue: seq<Waiter>, limit: nat, cancelled: set<nat>, at: int)
    ensures var a := Admit(starts, queue, limit, cancelled, at);
            a.starts == starts + Grants(a.turns, at)
    decreases queue
  {
    if queue != [] && HasRoom(|starts|, limit) {
      var granted := queue[0].id !in cancelled;
      var starts' := if granted then starts + [at] else starts;
      AdmitLogsGrants(starts', queue[1..], limit, cancelled, at);
      var rest := Admit(starts', queue[1..], limit, cancelled, at);
      var turns := [Turn(queue[0], granted)] + rest.turns;
      assert turns[1..] == rest.turns;
    }
  }

  /** Nobody is left waiting while there is room, and the limit is never overshot. */
  lemma {:induction false} AdmitFillsUp(starts: seq<int>, queue: seq<Waiter>, limit: nat, cancelled: set<nat>, at: int)
    ensures var a := Admit(starts, queue, limit, cancelled, at);
            && (a.queue != [] ==> !HasRoom(|a.starts|, limit))
            && (0 < limit ==> |a.starts| <= Max(|starts|, limit))
    decreases queue
  {
    if queue != [] && HasRoom(|starts|, limit) {
      var starts' := if queue[0].id !in cancelled then starts + [at] else starts;
      AdmitFillsUp(starts', queue[1..], limit, cancelled, at);
    }
  }

  /** Having come as far as `turns`, with `starts` and `queue` left, admission ends as it would from the beginning. */
  ghost predicate Resumes(starts0: seq<int>, queue0: seq<Waiter>, starts: seq<int>, queue: seq<Waiter>, turns: seq<Turn>,
                          limit: nat, cancelled: set<nat>, at: int)
  {
    var whole, rest := Admit(starts0, queue0, limit, cancelled, at), Admit(starts, queue, limit, cancelled, at);
    whole.starts == rest.starts && whole.queue == rest.queue && whole.turns == turns + rest.turns
  }

  lemma {:induction false} ResumeOne(starts0: seq<int>, queue0: seq<Waiter>, starts: seq<int>, queue: seq<Waiter>, turns: seq<Turn>,
                  limit: nat, cancelled: set<nat>, at: int)
    requires Resumes(starts0, queue0, starts, queue, turns, limit, cancelled, at)
    requires queue != [] && HasRoom(|starts|, limit)
    ensures var granted := queue[0].id !in cancelled;
            Resumes(starts0, queue0, if granted then starts + [at] else starts, queue[1..], turns + [Turn(queue[0], granted)],
                    limit, cancelled, at)
  {
    var granted := queue[0].id !in cancelled;
    var rest := Admit(if granted then starts + [at] else starts, queue[1..], limit, cancelled, at);
    assert turns + ([Turn(queue[0], granted)] + rest.turns) == turns + [Turn(queue[0], granted)] + rest.turns;
  }

  lemma {:induction false} AdmitKeepsSpacing(log: seq<int>, expired: nat, queue: seq<Waiter>, limit: nat, cancelled: set<nat>,
                                             at: int, cap: nat, window: int)
    requires expired <= |log| && 0 < limit <= cap
    requires Sorted(log) && Spaced(log, cap, window)
    requires forall i :: 0 <= i < |log| ==> log[i] <= at
    requires forall i :: 0 <= i < expired ==> log[i] + window <= at
    ensures var a := Admit(log[expired..], queue, limit, cancelled, at);
            var log' := log[..expired] + a.starts;
            Sorted(log') && Spaced(log', cap, window)
    decreases queue
  {
    var starts := log[expired..];
    assert log[..expired] + starts == log;
    if queue != [] && HasRoom(|starts|, limit) {
      if queue[0].id in cancelled {
        AdmitKeepsSpacing(log, expired, queue[1..], limit, cancelled, at, cap, window);
      } else {
        AppendKeepsSpacing(log, cap, window, at);
        var log' := log + [at];
        assert log'[expired..] == starts + [at];
        assert log'[..expired] == log[..expired];
        AdmitKeepsSpacing(log', expired, queue[1..], limit, cancelled, at, cap, window);
      }
    }
  }

  // ----- Forecasts -----

  /** Logins that have left the window no longer influence any forecast. */
  lemma {:induction false} ForecastIgnoresExpired(expired: seq<int>, live: seq<int>, limit: nat, window: int, t: int, position: nat)
    requires forall i :: 0 <= i < |expired| ==> expired[i] + window <= t
    ensures Forecast(expired + live, limit, window, t, position) == Forecast(live, limit, window, t, position)
    decreases position
  {
    var all := expired + live;
    var u := NextStart(live, limit, window, t);
    if limit > 0 && |all| >= limit && |live| < limit {
      assert all[|all| - limit] == expired[|all| - limit];
    }
    assert NextStart(all, limit, window, t) == u;
    if position > 0 {
      assert all + [u] == expired + (live + [u]);
      ForecastIgnoresExpired(expired, live + [u], limit, window, u, position - 1);
    }
  }

  lemma {:induction false} ForecastAfterPrune(starts: seq<int>, limit: nat, window: int, t: int, position: nat)
    requires Sorted(starts)
    ensures Forecast(Prune(starts, window, t), limit, window, t, position) == Forecast(starts, limit, window, t, position)
  {
    var k := PruneDropsPrefix(starts, window, t);
    assert starts[..k] + starts[k..] == starts;
    ForecastIgnoresExpired(starts[..k], starts[k..], limit, window, t, position);
  }

  /** Merely waiting, but not past the next start, changes no forecast. */
  lemma {:induction false} ForecastIgnoresWaiting(starts: seq<int>, limit: nat, window: int, t: int, t': int, position: nat)
    requires t <= t' <= NextStart(starts, limit, window, t)
    ensures Forecast(starts, limit, window, t', position) == Forecast(starts, limit, window, t, position)
  {
  }

  lemma {:induction false} ForecastMonotone(starts: seq<int>, limit: nat, window: int, t: int, position: nat)
    ensures t <= Forecast(starts, limit, window, t, position) <= Forecast(starts, limit, window, t, position + 1)
    decreases position
  {
    var u := NextStart(starts, limit, window, t);
    if position > 0 {
      ForecastMonotone(starts + [u], limit, window, u, position - 1);
    } else {
      assert Forecast(starts, limit, window, t, 1) == Forecast(starts + [u], limit, window, u, 0);
    }
  }

  /** Every queued login starts no later than promised. */
  ghost predicate NeverLate(starts: seq<int>, queue: seq<Waiter>, limit: nat, window: int, t: int) {
    forall k :: 0 <= k < |queue| ==> Forecast(starts, limit, window, t, k) <= queue[k].promised
  }

  /** Every queued login starts exactly when promised. */
  ghost predicate Exact(starts: seq<int>, queue: seq<Waiter>, limit: nat, window: int, t: int) {
    forall k :: 0 <= k < |queue| ==> Forecast(starts, limit, window, t, k) == queue[k].promised
  }

  lemma {:induction false} AdmitHonoursPromises(starts: seq<int>, queue: seq<Waiter>, limit: nat, cancelled: set<nat>, at: int, window: int)
    requires NeverLate(starts, queue, limit, window, at)
    ensures var a := Admit(starts, queue, limit, cancelled, at);
            && NeverLate(a.starts, a.queue, limit, window, at)
            && forall turn :: turn in a.turns ==> at <= turn.waiter.promised
    decreases queue
  {
    if queue != [] && HasRoom(|starts|, limit) {
      assert Forecast(starts, limit, window, at, 0) == at;
      var granted := queue[0].id !in cancelled;
      var starts' := if granted then starts + [at] else starts;
      forall k | 0 <= k < |queue[1..]|
        ensures Forecast(starts', limit, window, at, k) <= queue[1..][k].promised
      {
        assert Forecast(starts, limit, window, at, k + 1) == Forecast(starts + [at], limit, window, at, k);
        assert Forecast(starts, limit, window, at, k + 1) <= queue[k + 1].promised;
        ForecastMonotone(starts, limit, window, at, k);
      }
      AdmitHonoursPromises(starts', queue[1..], limit, cancelled, at, window);
    }
  }

  lemma {:induction false} AdmitKeepsPromisesExactly(starts: seq<int>, queue: seq<Waiter>, limit: nat, cancelled: set<nat>, at: int, window: int)
    requires Exact(starts, queue, limit, window, at)
    requires forall w :: w in queue ==> w.id !in cancelled
    ensures var a := Admit(starts, queue, limit, cancelled, at);
            && Exact(a.starts, a.queue, limit, window, at)
            && forall turn :: turn in a.turns ==> turn.granted && turn.waiter.promised == at
    decreases queue
  {
    if queue != [] && HasRoom(|starts|, limit) {
      assert Forecast(starts, limit, window, at, 0) == at;
      assert queue[0] in queue;
      forall k | 0 <= k < |queue[1..]|
        ensures Forecast(starts + [at], limit, window, at, k) == queue[1..][k].promised
      {
        assert Forecast(starts, limit, window, at, k + 1) == queue[k + 1].promised;
      }
      AdmitKeepsPromisesExactly(starts + [at], queue[1..], limit, cancelled, at, window);
    }
  }

  /** Forecasts survive the passage of time from `clock` to `at` as long as no wake-up in between was missed. */
  lemma {:induction false} PromisesSurvive(starts: seq<int>, queue: seq<Waiter>, limit: nat, window: int, clock: int, timer: Option<int>, at: int)
    requires EndsBy(starts, clock) && Armed(starts, queue, limit, window, clock, timer)
    requires clock <= at && (timer.Some? ==> at <= timer.value)
    ensures NeverLate(starts, queue, limit, window, clock) ==> NeverLate(Prune(starts, window, at), queue, limit, window, at)
    ensures Exact(starts, queue, limit, window, clock) ==> Exact(Prune(starts, window, at), queue, limit, window, at)
  {
    forall k | 0 <= k < |queue|
      ensures Forecast(Prune(starts, window, at), limit, window, at, k) == Forecast(starts, limit, window, clock, k)
    {
      ForecastIgnoresWaiting(starts, limit, window, clock, at, k);
      ForecastAfterPrune(starts, limit, window, at, k);
    }
  }

  /** The entry is promised the time of the forecast for its place, and stands last in the queue that is then admitted from. */
  ghost predicate Joins(starts: seq<int>, queue: seq<Waiter>, limit: nat, window: int, at: int, entry: Waiter, cancelled: set<nat>, after: Admission) {
    && entry.promised == Forecast(starts, limit, window, at, |queue|)
    && after == Admit(starts, queue + [entry], limit, cancelled, at)
  }

  /**
   * The limiter itself. The clock reading `at` and the set of waiters whose `cancelled` callback is
   * true at that moment are inputs of every call.
   */
  class Limiter {
    const window: int
    var limit: nat
    /** Logins begun inside the window, earliest first. */
    var starts: seq<int>
    var queue: seq<Waiter>
    /** The instant `Pump` is due to run again. */
    var timer: Option<int>

    ghost var clock: int
    /** Every start ever logged; the first `expired` of them have left the window. */
    ghost var logins: seq<int>
    ghost var expired: nat
    /** Everybody who ever queued, and the turns taken so far. */
    ghost var arrivals: seq<Waiter>
    ghost var served: seq<Turn>

    ghost predicate Consistent()
      reads this
    {
      0 < window && LogKept(logins, expired, starts, window, clock) && arrivals == Waiters(served) + queue
    }

    ghost predicate Valid()
      reads this
    {
      Consistent() && Armed(starts, queue, limit, window, clock, timer)
    }

    constructor (window: int, limit: nat, now: int)
      requires 0 < window
      ensures Valid() && this.window == window && this.limit == limit && clock == now
      ensures starts == logins == [] && queue == arrivals == [] && served == []
    {
      this.window, this.limit := window, limit;
      starts, queue, timer := [], [], None;
      clock, logins, expired, arrivals, served := now, [], 0, [], [];
    }

    /** The loop of `Pump`: turns are taken from the front of the queue while there is room. */
    method LetThrough(at: int, cancelled: set<nat>) returns (turns: seq<Turn>)
      modifies `starts, `queue
      ensures Admission(starts, queue, turns) == Admit(old(starts), old(queue), limit, cancelled, at)
    {
      turns := [];
      while queue != [] && HasRoom(|starts|, limit)
        invariant Resumes(old(starts), old(queue), starts, queue, turns, limit, cancelled, at)
        decreases queue
      {
        ResumeOne(old(starts), old(queue), starts, queue, turns, limit, cancelled, at);
        var waiter := queue[0];
        queue := queue[1..];
        if waiter.id in cancelled {
          turns := turns + [Turn(waiter, false)];
        } else {
          starts := starts + [at];
          turns := turns + [Turn(waiter, true)];
        }
      }
    }

    /** Forgets the starts that have left the window. */
    method DropExpired(at: int)
      requires Consistent() && clock <= at
      modifies `starts, `clock, `expired
      ensures Consistent() && clock == at
      ensures starts == Prune(old(starts), window, at) && Live(starts, window, at)
    {
      expired := LogPruned(logins, expired, starts, window, clock, at);
      starts, clock := Prune(starts, window, at), at;
    }

    /** Serves the queue from a freshly pruned log and re-arms the timer for whoever is left. */
    method Serve(at: int, cancelled: set<nat>) returns (turns: seq<Turn>)
      requires Consistent() && clock == at && Live(starts, window, at)
      modifies `starts, `queue, `timer, `logins, `served
      ensures Valid()
      ensures Admission(starts, queue, turns) == Admit(old(starts), old(queue), limit, cancelled, at)
      ensures served == old(served) + turns
      ensures logins == old(logins) + Grants(turns, at)
      ensures SpacingExtends(old(logins), logins, limit, window)
    {
      ServingKeeps(logins, expired, starts, queue, limit, cancelled, at, window, arrivals, served);
      turns := LetThrough(at, cancelled);
      logins, served := logins + Grants(turns, at), served + turns;
      Arm(at);
    }

    /** The timer is set to the first instant at which there is room, if anybody waits. */
    method Arm(at: int)
      requires queue != [] ==> 0 < limit <= |starts|
      modifies `timer
      ensures timer == WakeUp(starts, queue, limit, window, at)
    {
      timer := None;
      if queue != [] {
        var next := starts[|starts| - limit] + window;
        timer := Some(at + Max(0, next - at));
      }
    }

    /** Lets through whoever may go, and re-arms the timer for the rest. */
    method Pump(at: int, cancelled: set<nat>) returns (turns: seq<Turn>)
      requires Consistent() && clock <= at
      modifies `starts, `queue, `timer, `clock, `expired, `logins, `served
      ensures Valid() && clock == at
      ensures Admission(starts, queue, turns) == Admit(Prune(old(starts), window, at), old(queue), limit, cancelled, at)
      ensures served == old(served) + turns
      ensures logins == old(logins) + Grants(turns, at)
      ensures SpacingExtends(old(logins), logins, limit, window)
    {
      DropExpired(at);
      turns := Serve(at, cancelled);
    }

    /** Simulates the queue up to `position` places back; the wait of whoever stands there. */
    method Estimate(at: int, position: nat) returns (waitMs: int)
      requires EndsBy(starts, at)
      ensures waitMs == Forecast(starts, limit, window, at, position) - at
    {
      var times, t := starts, at;
      for index := 0 to position + 1
        invariant Estimating(starts, limit, window, at, position, index, times, t)
      {
        EstimatingNext(starts, limit, window, at, position, index, times, t);
        ghost var next := Simulate(times, limit, window, t);
        times := Prune(times, window, t);
        if limit != 0 && |times| >= limit {
          t := times[|times| - limit] + window;
          times := Prune(times, window, t);
        }
        times := times + [t];
        assert (times, t) == next;
      }
      waitMs := t - at;
    }

    /** The direct half of `Acquire`: without a limit nothing needs to be remembered. */
    method StartNow(at: int)
      requires Valid() && clock == at && Live(starts, window, at)
      requires queue == [] && HasRoom(|starts|, limit)
      modifies `starts, `logins
      ensures Valid()
      ensures starts == old(starts) + (if limit == 0 then [] else [at])
      ensures logins == old(logins) + (if limit == 0 then [] else [at])
      ensures SpacingExtends(old(logins), logins, limit, window)
    {
      if limit != 0 {
        SpacingKeptByOne(logins, expired, starts, limit, at, window);
        starts, logins := starts + [at], logins + [at];
      }
    }

    /** The queueing half of `Acquire`: join the end of the queue with an estimate, then serve. */
    method Enqueue(at: int, id: nat, cancelled: set<nat>) returns (waitMs: int, turns: seq<Turn>)
      requires Consistent() && clock == at && Live(starts, window, at)
      modifies `starts, `queue, `timer, `clock, `expired, `logins, `arrivals, `served
      ensures Valid() && clock == at
      ensures Joins(old(starts), old(queue), limit, window, at, Waiter(id, at + waitMs), cancelled, Admission(starts, queue, turns))
      ensures arrivals == old(arrivals) + [Waiter(id, at + waitMs)] && served == old(served) + turns
      ensures logins == old(logins) + Grants(turns, at)
      ensures SpacingExtends(old(logins), logins, limit, window)
    {
      KeptEndsBy(logins, expired, starts, window, clock);
      PruneKeepsLive(starts, window, at);
      waitMs := Estimate(at, |queue|);
      var entry := Waiter(id, at + waitMs);
      ConcatAssociative(Waiters(served), queue, [entry]);
      queue, arrivals := queue + [entry], arrivals + [entry];
      turns := Pump(at, cancelled);
    }

    /** With the expired starts gone, the login starts at once or joins the queue. */
    method StartOrEnqueue(at: int, id: nat, cancelled: set<nat>) returns (waitMs: Option<int>, turns: seq<Turn>)
      requires Consistent() && clock == at && Live(starts, window, at) && (queue == [] ==> timer == None)
      modifies `starts, `queue, `timer, `clock, `expired, `logins, `arrivals, `served
      ensures Valid() && clock == at
      ensures waitMs == None <==> old(queue) == [] && HasRoom(|old(starts)|, limit)
      ensures waitMs == None ==>
                && queue == [] && turns == [] && arrivals == old(arrivals) && served == old(served)
                && starts == old(starts) + (if limit == 0 then [] else [at])
                && logins == old(logins) + (if limit == 0 then [] else [at])
      ensures waitMs.Some? ==>
                && Joins(old(starts), old(queue), limit, window, at, Waiter(id, at + waitMs.value), cancelled, Admission(starts, queue, turns))
                && arrivals == old(arrivals) + [Waiter(id, at + waitMs.value)] && served == old(served) + turns
                && logins == old(logins) + Grants(turns, at)
      ensures SpacingExtends(old(logins), logins, limit, window)
    {
      if queue == [] && HasRoom(|starts|, limit) {
        StartNow(at);
        waitMs, turns := None, [];
      } else {
        var w;
        w, turns := Enqueue(at, id, cancelled);
        waitMs := Some(w);
      }
    }

    /** A login asks to start: `None` lets it through at once, otherwise it queues and learns its expected wait. */
    method Acquire(at: int, id: nat, cancelled: set<nat>) returns (waitMs: Option<int>, turns: seq<Turn>)
      requires Valid() && clock <= at
      modifies this
      ensures Valid() && clock == at && limit == old(limit)
      ensures waitMs == None <==> old(queue) == [] && HasRoom(|Prune(old(starts), window, at)|, limit)
      ensures waitMs == None ==>
                && queue == [] && turns == [] && arrivals == old(arrivals) && served == old(served)
                && starts == Prune(old(starts), window, at) + (if limit == 0 then [] else [at])
                && logins == old(logins) + (if limit == 0 then [] else [at])
      ensures waitMs.Some? ==>
                && Joins(Prune(old(starts), window, at), old(queue), limit, window, at, Waiter(id, at + waitMs.value), cancelled, Admission(starts, queue, turns))
                && arrivals == old(arrivals) + [Waiter(id, at + waitMs.value)] && served == old(served) + turns
                && logins == old(logins) + Grants(turns, at)
      ensures SpacingExtends(old(logins), logins, limit, window)
    {
      DropExpired(at);
      waitMs, turns := StartOrEnqueue(at, id, cancelled);
    }

    /** The limit changed: those who fit under the new one go now. */
    method Update(at: int, newLimit: nat, cancelled: set<nat>) returns (turns: seq<Turn>)
      requires Valid() && clock <= at
      modifies `limit, `starts, `queue, `timer, `clock, `expired, `logins, `served
      ensures Valid() && clock == at && limit == newLimit
      ensures Admission(starts, queue, turns) == Admit(Prune(old(starts), window, at), old(queue), newLimit, cancelled, at)
      ensures served == old(served) + turns && logins == old(logins) + Grants(turns, at)
      ensures SpacingExtends(old(logins), logins, limit, window)
    {
      limit := newLimit;
      turns := Pump(at, cancelled);
    }
  }

  /** The timer `Pump` leaves behind at time `at`. */
  function WakeUp(starts: seq<int>, queue: seq<Waiter>, limit: nat, window: int, at: int): Option<int>
    requires queue != [] ==> 0 < limit <= |starts|
  {
    if queue == [] then None else Some(at + Max(0, starts[|starts| - limit] + window - at))
  }

  /** `starts` holds the logged starts still inside the window; the first `expired` have left it. */
  ghost predicate LogKept(log: seq<int>, expired: nat, starts: seq<int>, window: int, clock: int) {
    && expired <= |log| && starts == log[expired..]
    && Sorted(log)
    && (forall i :: 0 <= i < |log| ==> log[i] <= clock)
    && (forall i :: 0 <= i < expired ==> log[i] + window <= clock)
  }

  /** While anybody waits, the timer stands at the first instant at which there is room. */
  ghost predicate Armed(starts: seq<int>, queue: seq<Waiter>, limit: nat, window: int, clock: int, timer: Option<int>) {
    if queue == [] then timer == None
    else
      && 0 < limit <= |starts|
      && timer == Some(starts[|starts| - limit] + window)
      && clock < timer.value
  }

  /** If a limit of at least `limit` was kept so far, it still is. */
  ghost predicate SpacingExtends(log: seq<int>, log': seq<int>, limit: nat, window: int) {
    forall cap: nat :: 0 < limit <= cap && Spaced(log, cap, window) ==> Spaced(log', cap, window)
  }

  lemma {:induction false} LogPruned(log: seq<int>, expired: nat, starts: seq<int>, window: int, clock: int, at: int) returns (expired': nat)
    requires LogKept(log, expired, starts, window, clock) && clock <= at
    ensures LogKept(log, expired', Prune(starts, window, at), window, at)
    ensures Live(Prune(starts, window, at), window, at)
  {
    var k := PruneDropsPrefix(starts, window, at);
    expired' := expired + k;
    forall i | 0 <= i < expired' ensures log[i] + window <= at {
      if expired <= i {
        assert log[i] == starts[i - expired];
      }
    }
  }

  lemma {:induction false} LogGrows(log: seq<int>, expired: nat, live: seq<int>, turns: seq<Turn>, at: int, window: int)
    requires 0 < window && LogKept(log, expired, live, window, at) && Live(live, window, at)
    ensures LogKept(log + Grants(turns, at), expired, live + Grants(turns, at), window, at)
    ensures Live(live + Grants(turns, at), window, at)
  {
    GrantsAreNow(turns, at);
    var g := Grants(turns, at);
    assert forall i :: 0 <= i < |g| ==> g[i] in g;
    assert (log + g)[expired..] == log[expired..] + g;
  }

  lemma {:induction false} AdmitKeepsLog(log: seq<int>, expired: nat, live: seq<int>, waiting: seq<Waiter>, limit: nat, cancelled: set<nat>, at: int, window: int)
    requires 0 < window && LogKept(log, expired, live, window, at) && Live(live, window, at)
    ensures var a := Admit(live, waiting, limit, cancelled, at);
            && LogKept(log + Grants(a.turns, at), expired, a.starts, window, at)
            && (a.queue != [] ==> 0 < limit <= |a.starts|)
            && Armed(a.starts, a.queue, limit, window, at, WakeUp(a.starts, a.queue, limit, window, at))
  {
    var a := Admit(live, waiting, limit, cancelled, at);
    AdmitLogsGrants(live, waiting, limit, cancelled, at);
    AdmitFillsUp(live, waiting, limit, cancelled, at);
    LogGrows(log, expired, live, a.turns, at, window);
  }

  lemma {:induction false} ServedInOrder(served: seq<Turn>, live: seq<int>, waiting: seq<Waiter>, limit: nat, cancelled: set<nat>, at: int)
    ensures var a := Admit(live, waiting, limit, cancelled, at);
            Waiters(served) + waiting == Waiters(served + a.turns) + a.queue
  {
    var a := Admit(live, waiting, limit, cancelled, at);
    AdmitInOrder(live, waiting, limit, cancelled, at);
    WaitersConcat(served, a.turns);
  }

  lemma {:induction false} SpacingKept(log: seq<int>, expired: nat, live: seq<int>, waiting: seq<Waiter>, limit: nat, cancelled: set<nat>, at: int, window: int)
    requires LogKept(log, expired, live, window, at)
    ensures SpacingExtends(log, log + Grants(Admit(live, waiting, limit, cancelled, at).turns, at), limit, window)
  {
    var a := Admit(live, waiting, limit, cancelled, at);
    AdmitLogsGrants(live, waiting, limit, cancelled, at);
    assert log[..expired] + a.starts == log + Grants(a.turns, at);
    forall cap: nat | 0 < limit <= cap && Spaced(log, cap, window)
      ensures Spaced(log + Grants(a.turns, at), cap, window)
    {
      AdmitKeepsSpacing(log, expired, waiting, limit, cancelled, at, cap, window);
    }
  }

  /** What serving the queue keeps. */
  lemma {:induction false} ServingKeeps(log: seq<int>, expired: nat, live: seq<int>, waiting: seq<Waiter>, limit: nat, cancelled: set<nat>, at: int, window: int,
                                        arrivals: seq<Waiter>, served: seq<Turn>)
    requires 0 < window && LogKept(log, expired, live, window, at) && Live(live, window, at) && arrivals == Waiters(served) + waiting
    ensures var a := Admit(live, waiting, limit, cancelled, at);
            && LogKept(log + Grants(a.turns, at), expired, a.starts, window, at)
            && arrivals == Waiters(served + a.turns) + a.queue
            && SpacingExtends(log, log + Grants(a.turns, at), limit, window)
            && (a.queue != [] ==> 0 < limit <= |a.starts|)
            && Armed(a.starts, a.queue, limit, window, at, WakeUp(a.starts, a.queue, limit, window, at))
  {
    AdmitKeepsLog(log, expired, live, waiting, limit, cancelled, at, window);
    ServedInOrder(served, live, waiting, limit, cancelled, at);
    SpacingKept(log, expired, live, waiting, limit, cancelled, at, window);
  }

  lemma {:induction false} KeptEndsBy(log: seq<int>, expired: nat, starts: seq<int>, window: int, clock: int)
    requires LogKept(log, expired, starts, window, clock)
    ensures EndsBy(starts, clock)
  {
    SuffixEndsBy(log, clock, expired);
  }

  lemma {:induction false} WaitersConcat(a: seq<Turn>, b: seq<Turn>)
    ensures Waiters(a + b) == Waiters(a) + Waiters(b)
  {
    if a == [] {
      assert a + b == b;
    } else {
      var rest := a[1..];
      WaitersConcat(rest, b);
      assert a == [a[0]] + rest;
      ConcatAssociative([a[0]], rest, b);
      WaitersOfMore(a[0], rest + b);
      ConcatAssociative([a[0].waiter], Waiters(rest), Waiters(b));
    }
  }

  lemma {:induction false} WaitersOfMore(turn: Turn, rest: seq<Turn>)
    ensures Waiters([turn] + rest) == [turn.waiter] + Waiters(rest)
  {
    assert ([turn] + rest)[1..] == rest;
  }

  lemma {:induction false} GrantsAreNow(turns: seq<Turn>, at: int)
    ensures forall g :: g in Grants(turns, at) ==> g == at
  {
    if turns != [] {
      GrantsAreNow(turns[1..], at);
    }
  }

  ghost predicate EndsBy(times: seq<int>, t: int) {
    Sorted(times) && forall i :: 0 <= i < |times| ==> times[i] <= t
  }

  lemma {:induction false} SuffixEndsBy(times: seq<int>, t: int, k: nat)
    requires EndsBy(times, t) && k <= |times|
    ensures EndsBy(times[k..], t)
  {
  }

  lemma {:induction false} OneMoreEndsBy(times: seq<int>, t: int, u: int)
    requires EndsBy(times, t) && t <= u
    ensures EndsBy(times, u) && EndsBy(times + [u], u)
  {
  }

  lemma {:induction false} PruneEndsBy(times: seq<int>, window: int, t: int, u: int)
    requires EndsBy(times, t) && t <= u
    ensures EndsBy(Prune(times, window, u), u) && Live(Prune(times, window, u), window, u)
    ensures EndsBy(Prune(times, window, u) + [u], u)
  {
    var k := PruneDropsPrefix(times, window, u);
    SuffixEndsBy(times, t, k);
    OneMoreEndsBy(times[k..], t, u);
  }

  lemma {:induction false} ForecastDropsExpired(live: seq<int>, limit: nat, window: int, u: int, position: nat)
    requires Sorted(live)
    ensures Forecast(Prune(live, window, u) + [u], limit, window, u, position) == Forecast(live + [u], limit, window, u, position)
  {
    var k := PruneDropsPrefix(live, window, u);
    assert live + [u] == live[..k] + (live[k..] + [u]);
    ForecastIgnoresExpired(live[..k], live[k..] + [u], limit, window, u, position);
  }

  /** One more login from a log without expired starts. */
  function SimulateLive(live: seq<int>, limit: nat, window: int, t: int): (seq<int>, int) {
    if limit != 0 && |live| >= limit then
      var u := live[|live| - limit] + window;
      (Prune(live, window, u) + [u], u)
    else (live + [t], t)
  }

  /** One round of the estimator's loop: the simulated log and clock after one more login. */
  function Simulate(times: seq<int>, limit: nat, window: int, t: int): (seq<int>, int) {
    SimulateLive(Prune(times, window, t), limit, window, t)
  }

  lemma {:induction false} LiveStartsLater(live: seq<int>, limit: nat, window: int, t: int)
    requires EndsBy(live, t) && Live(live, window, t)
    ensures NextStart(live, limit, window, t) == SimulateLive(live, limit, window, t).1 >= t
  {
  }

  lemma {:induction false} ForecastStepLive(live: seq<int>, limit: nat, window: int, t: int, position: nat)
    requires EndsBy(live, t) && Live(live, window, t)
    ensures var (times', u) := SimulateLive(live, limit, window, t);
            && EndsBy(times', u)
            && Forecast(live, limit, window, t, position) ==
               if position == 0 then u else Forecast(times', limit, window, u, position - 1)
  {
    LiveStartsLater(live, limit, window, t);
    var u := NextStart(live, limit, window, t);
    PruneEndsBy(live, window, t, u);
    if !HasRoom(|live|, limit) && position > 0 {
      ForecastDropsExpired(live, limit, window, u, position - 1);
    }
  }

  /** One round of the estimator's loop is one step of the forecast. */
  lemma {:induction false} ForecastStep(times: seq<int>, limit: nat, window: int, t: int, position: nat)
    requires EndsBy(times, t)
    ensures var (times', u) := Simulate(times, limit, window, t);
            && EndsBy(times', u)
            && Forecast(times, limit, window, t, position) ==
               if position == 0 then u else Forecast(times', limit, window, u, position - 1)
  {
    PruneEndsBy(times, window, t, t);
    ForecastAfterPrune(times, limit, window, t, position);
    ForecastStepLive(Prune(times, window, t), limit, window, t, position);
  }

  /** After `index` rounds: what is still to come leads to the forecast, and after the last that is the time. */
  ghost predicate Estimating(starts: seq<int>, limit: nat, window: int, at: int, position: nat, index: nat, times: seq<int>, t: int) {
    && EndsBy(times, t) && index <= position + 1
    && Forecast(starts, limit, window, at, position) == if index <= position then Forecast(times, limit, window, t, position - index) else t
  }

  lemma {:induction false} EstimatingNext(starts: seq<int>, limit: nat, window: int, at: int, position: nat, index: nat, times: seq<int>, t: int)
    requires Estimating(starts, limit, window, at, position, index, times, t) && index <= position
    ensures var (times', u) := Simulate(times, limit, window, t);
            Estimating(starts, limit, window, at, position, index + 1, times', u)
  {
    ForecastStep(times, limit, window, t, position - index);
  }

  lemma {:induction false} SpacingKeptByOne(log: seq<int>, expired: nat, live: seq<int>, limit: nat, at: int, window: int)
    requires LogKept(log, expired, live, window, at) && |live| < limit
    requires Live(live, window, at)
    ensures LogKept(log + [at], expired, live + [at], window, at)
    ensures SpacingExtends(log, log + [at], limit, window)
  {
    assert (log + [at])[expired..] == log[expired..] + [at];
    forall cap: nat | limit <= cap && Spaced(log, cap, window) ensures Spaced(log + [at], cap, window) {
      if cap <= |log| {
        assert |log| - cap < expired;
      }
      AppendKeepsSpacing(log, cap, window, at);
    }
  }

  // ----- Whole runs -----

  /** What may happen to a limiter, each event some time after the one before it. */
  datatype Event =
    | Login(gap: nat, id: nat, cancelled: set<nat>)
    | WakeUpCall(gap: nat, cancelled: set<nat>)
    | Reconfigure(gap: nat, limit: nat, cancelled: set<nat>)

  /** When the `i`-th event happens. */
  function TimeOf(events: seq<Event>, i: nat): nat
    requires i < |events|
  {
    (if i == 0 then 0 else TimeOf(events, i - 1)) + events[i].gap
  }

  ghost predicate AtEvents(times: seq<int>, events: seq<Event>, n: nat)
    requires n <= |events|
  {
    forall t :: t in times ==> exists i: nat :: i < n && t == TimeOf(events, i)
  }

  lemma {:induction false} MoreAtEvents(times: seq<int>, more: seq<int>, events: seq<Event>, n: nat)
    requires n < |events| && AtEvents(times, events, n) && forall t :: t in more ==> t == TimeOf(events, n)
    ensures AtEvents(times + more, events, n + 1)
  {
    forall t | t in times + more ensures exists i: nat :: i < n + 1 && t == TimeOf(events, i) {
      if t in times {
        var i: nat :| i < n && t == TimeOf(events, i);
      }
    }
  }

  /** One event of a run, and the starts it brings. */
  method Happen(limiter: Limiter, events: seq<Event>, i: nat, now: int, ghost begun: seq<int>, ghost cap: nat) returns (started: seq<int>)
    requires limiter.Valid() && limiter.clock <= now && 0 < limiter.limit <= cap && limiter.logins == begun && Spaced(begun, cap, limiter.window)
    requires i < |events| && now == TimeOf(events, i) && AtEvents(begun, events, i)
    requires events[i].Reconfigure? ==> 0 < events[i].limit <= cap
    modifies limiter
    ensures limiter.Valid() && limiter.clock == now && 0 < limiter.limit <= cap
    ensures limiter.logins == begun + started && Spaced(begun + started, cap, limiter.window) && AtEvents(begun + started, events, i + 1)
  {
    match events[i] {
      case Login(_, id, cancelled) =>
        var waitMs, turns := limiter.Acquire(now, id, cancelled);
        started := if waitMs == None then [now] else Grants(turns, now);
        GrantsAreNow(turns, now);
      case WakeUpCall(_, cancelled) =>
        var turns := limiter.Pump(now, cancelled);
        started := Grants(turns, now);
        GrantsAreNow(turns, now);
      case Reconfigure(_, newLimit, cancelled) =>
        var turns := limiter.Update(now, newLimit, cancelled);
        started := Grants(turns, now);
        GrantsAreNow(turns, now);
    }
    MoreAtEvents(begun, started, events, i);
  }

  /**
   * Any run whatever, with timers early or late, waiters cancelled at any time and the limit changed between
   * 1 and `cap`: no window of the given length ever holds more than `cap` starts, and nobody starts but at an event.
   */
  method Run(window: int, limit: nat, cap: nat, events: seq<Event>) returns (begun: seq<int>)
    requires 0 < window && 0 < limit <= cap
    requires forall e :: e in events && e.Reconfigure? ==> 0 < e.limit <= cap
    ensures Sorted(begun)
    ensures forall t :: InWindow(begun, t, window) <= cap
    ensures AtEvents(begun, events, |events|)
  {
    var now := 0;
    var limiter := new Limiter(window, limit, now);
    begun := [];
    for i := 0 to |events|
      invariant fresh(limiter) && limiter.window == window && limiter.Valid() && limiter.clock == now && 0 < limiter.limit <= cap
      invariant begun == limiter.logins && Spaced(begun, cap, window)
      invariant now == (if i == 0 then 0 else TimeOf(events, i - 1)) && AtEvents(begun, events, i)
    {
      now := now + events[i].gap;
      assert events[i] in events;
      var started := Happen(limiter, events, i, now, begun, cap);
      begun := begun + started;
    }
    WindowBoundIsSpacing(begun, cap, window);
  }

  function Outcomes(turns: seq<Turn>, at: int): seq<Option<int>> {
    if turns == [] then []
    else [if turns[0].granted then Some(at) else None] + Outcomes(turns[1..], at)
  }

  /**
   * The books of a run: `promised` in arrival order, `outcome` for those already served, the queue for the rest.
   * Nobody started later than promised; with `exact`, everybody started exactly then.
   */
  ghost predicate Books(queue: seq<Waiter>, promised: seq<int>, outcome: seq<Option<int>>, exact: bool) {
    && |outcome| + |queue| == |promised|
    && (forall k :: 0 <= k < |queue| ==> queue[k].promised == promised[|outcome| + k])
    && (forall i :: 0 <= i < |outcome| && outcome[i].Some? ==> outcome[i].value <= promised[i])
    && (exact ==> forall i :: 0 <= i < |outcome| ==> outcome[i] == Some(promised[i]))
  }

  lemma {:induction false} BooksAfterOne(turn: Turn, queue: seq<Waiter>, promised: seq<int>, outcome: seq<Option<int>>, exact: bool, at: int)
    requires Books([turn.waiter] + queue, promised, outcome, exact)
    requires at <= turn.waiter.promised
    requires exact ==> turn.granted && turn.waiter.promised == at
    ensures Books(queue, promised, outcome + [if turn.granted then Some(at) else None], exact)
  {
    var before := [turn.waiter] + queue;
    assert before[0].promised == promised[|outcome|];
    forall k | 0 <= k < |queue| ensures queue[k].promised == promised[|outcome| + 1 + k] {
      assert before[k + 1] == queue[k];
    }
  }

  lemma {:induction false} BooksAfterDirect(promised: seq<int>, outcome: seq<Option<int>>, exact: bool, at: int)
    requires Books([], promised, outcome, exact)
    ensures Books([], promised + [at], outcome + [Some(at)], exact)
  {
  }

  /** Every turn comes no later than promised; with `exact`, each is granted just then. */
  ghost predicate Kept(turns: seq<Turn>, exact: bool, at: int) {
    forall k :: 0 <= k < |turns| ==> at <= turns[k].waiter.promised && (exact ==> turns[k].granted && turns[k].waiter.promised == at)
  }

  lemma {:induction false} BooksAfterKept(turns: seq<Turn>, queue: seq<Waiter>, promised: seq<int>, outcome: seq<Option<int>>, exact: bool, at: int)
    requires Books(Waiters(turns) + queue, promised, outcome, exact) && Kept(turns, exact, at)
    ensures Books(queue, promised, outcome + Outcomes(turns, at), exact)
    decreases turns
  {
    if turns == [] {
      assert Waiters(turns) + queue == queue;
      assert outcome + Outcomes(turns, at) == outcome;
    } else {
      var turn, rest := turns[0], Waiters(turns[1..]) + queue;
      var one := [if turn.granted then Some(at) else None];
      ConcatAssociative([turn.waiter], Waiters(turns[1..]), queue);
      BooksAfterOne(turn, rest, promised, outcome, exact, at);
      BooksAfterKept(turns[1..], queue, promised, outcome + one, exact, at);
      ConcatAssociative(outcome, one, Outcomes(turns[1..], at));
    }
  }

  lemma {:induction false} BooksAfter(turns: seq<Turn>, queue: seq<Waiter>, promised: seq<int>, outcome: seq<Option<int>>, exact: bool, at: int)
    requires Books(Waiters(turns) + queue, promised, outcome, exact)
    requires forall turn :: turn in turns ==> at <= turn.waiter.promised
    requires exact ==> forall turn :: turn in turns ==> turn.granted && turn.waiter.promised == at
    ensures Books(queue, promised, outcome + Outcomes(turns, at), exact)
  {
    assert forall k :: 0 <= k < |turns| ==> turns[k] in turns;
    BooksAfterKept(turns, queue, promised, outcome, exact, at);
  }

  lemma {:induction false} AdmitTakesTurns(starts: seq<int>, queue: seq<Waiter>, limit: nat, cancelled: set<nat>, at: int)
    requires queue != [] && HasRoom(|starts|, limit)
    ensures |Admit(starts, queue, limit, cancelled, at).queue| < |queue|
  {
    AdmitInOrder(starts, queue, limit, cancelled, at);
    assert |Waiters(Admit(starts, queue, limit, cancelled, at).turns)| > 0;
  }

  /** Serving a schedule that is kept keeps it, and settles the books of whoever was served. */
  lemma {:induction false} ScheduleServed(starts: seq<int>, queue: seq<Waiter>, limit: nat, cancelled: set<nat>, at: int, window: int,
                       promised: seq<int>, outcome: seq<Option<int>>, exact: bool)
    requires NeverLate(starts, queue, limit, window, at)
    requires exact ==> cancelled == {} && Exact(starts, queue, limit, window, at)
    requires Books(queue, promised, outcome, exact)
    ensures var a := Admit(starts, queue, limit, cancelled, at);
            && NeverLate(a.starts, a.queue, limit, window, at)
            && (exact ==> Exact(a.starts, a.queue, limit, window, at))
            && Books(a.queue, promised, outcome + Outcomes(a.turns, at), exact)
  {
    var a := Admit(starts, queue, limit, cancelled, at);
    AdmitInOrder(starts, queue, limit, cancelled, at);
    AdmitHonoursPromises(starts, queue, limit, cancelled, at, window);
    if exact {
      AdmitKeepsPromisesExactly(starts, queue, limit, cancelled, at, window);
    }
    BooksAfter(a.turns, a.queue, promised, outcome, exact, at);
  }

  /** Whoever joins the queue with its own forecast as promise keeps the schedule and the books. */
  lemma {:induction false} ScheduleJoined(starts: seq<int>, queue: seq<Waiter>, limit: nat, at: int, window: int, entry: Waiter,
                       promised: seq<int>, outcome: seq<Option<int>>, exact: bool)
    requires NeverLate(starts, queue, limit, window, at)
    requires exact ==> Exact(starts, queue, limit, window, at)
    requires Books(queue, promised, outcome, exact)
    requires entry.promised == Forecast(starts, limit, window, at, |queue|)
    ensures NeverLate(starts, queue + [entry], limit, window, at)
    ensures exact ==> Exact(starts, queue + [entry], limit, window, at)
    ensures Books(queue + [entry], promised + [entry.promised], outcome, exact)
  {
  }

  /** Everything a punctual run maintains. */
  ghost predicate OnSchedule(limiter: Limiter, promised: seq<int>, outcome: seq<Option<int>>, exact: bool)
    reads limiter
  {
    && limiter.Valid() && 0 < limiter.limit
    && NeverLate(limiter.starts, limiter.queue, limiter.limit, limiter.window, limiter.clock)
    && (exact ==> Exact(limiter.starts, limiter.queue, limiter.limit, limiter.window, limiter.clock))
    && Books(limiter.queue, promised, outcome, exact)
  }

  /** The timer goes off exactly when it is due. */
  method FireTimer(limiter: Limiter, cancelled: set<nat>, ghost promised: seq<int>, outcome: seq<Option<int>>, ghost exact: bool)
    returns (outcome': seq<Option<int>>)
    requires OnSchedule(limiter, promised, outcome, exact) && limiter.timer.Some?
    requires exact ==> cancelled == {}
    modifies limiter
    ensures OnSchedule(limiter, promised, outcome', exact)
    ensures limiter.clock == old(limiter.timer.value) && limiter.limit == old(limiter.limit)
    ensures |limiter.queue| < |old(limiter.queue)|
  {
    var at := limiter.timer.value;
    ghost var starts, queue, limit, window := limiter.starts, limiter.queue, limiter.limit, limiter.window;
    PromisesSurvive(starts, queue, limit, window, limiter.clock, limiter.timer, at);
    RoomAppearsAt(starts, limit, window, at);
    var turns := limiter.Pump(at, cancelled);
    AdmitTakesTurns(Prune(starts, window, at), queue, limit, cancelled, at);
    ScheduleServed(Prune(starts, window, at), queue, limit, cancelled, at, window, promised, outcome, exact);
    outcome' := outcome + Outcomes(turns, at);
  }

  /** A login arrives no later than the timer is due. */
  method Arrive(limiter: Limiter, at: int, id: nat, cancelled: set<nat>, promised: seq<int>, outcome: seq<Option<int>>, ghost exact: bool)
    returns (promised': seq<int>, outcome': seq<Option<int>>)
    requires OnSchedule(limiter, promised, outcome, exact)
    requires limiter.clock <= at && (limiter.timer.Some? ==> at <= limiter.timer.value)
    requires exact ==> cancelled == {}
    modifies limiter
    ensures OnSchedule(limiter, promised', outcome', exact)
    ensures |promised'| == |promised| + 1 && limiter.clock == at && limiter.limit == old(limiter.limit)
    ensures promised <= promised' && at <= promised'[|promised|]
  {
    ghost var starts, queue, limit, window := limiter.starts, limiter.queue, limiter.limit, limiter.window;
    PromisesSurvive(starts, queue, limit, window, limiter.clock, limiter.timer, at);
    var waitMs, turns := limiter.Acquire(at, id, cancelled);
    if waitMs == None {
      promised', outcome' := promised + [at], outcome + [Some(at)];
      BooksAfterDirect(promised, outcome, exact, at);
    } else {
      ghost var entry := Waiter(id, at + waitMs.value);
      promised', outcome' := promised + [at + waitMs.value], outcome + Outcomes(turns, at);
      ForecastMonotone(Prune(starts, window, at), limit, window, at, |queue|);
      ScheduleJoined(Prune(starts, window, at), queue, limit, at, window, entry, promised, outcome, exact);
      ScheduleServed(Prune(starts, window, at), queue + [entry], limit, cancelled, at, window, promised', outcome, exact);
    }
  }

  /** When the last of the first `n` logins arrives. */
  function Arrival(gaps: seq<nat>, n: nat): nat
    requires n <= |gaps|
  {
    if n == 0 then 0 else Arrival(gaps, n - 1) + gaps[n - 1]
  }

  /** Nobody is promised a time before the arrival. */
  ghost predicate PromisedAfter(gaps: seq<nat>, promised: seq<int>) {
    |promised| <= |gaps| && forall i :: 0 <= i < |promised| ==> Arrival(gaps, i + 1) <= promised[i]
  }

  lemma {:induction false} PromisedNext(gaps: seq<nat>, promised: seq<int>, more: seq<int>)
    requires PromisedAfter(gaps, promised) && |promised| < |gaps|
    requires promised <= more && |more| == |promised| + 1 && Arrival(gaps, |more|) <= more[|promised|]
    ensures PromisedAfter(gaps, more)
  {
  }

  /** The timer goes off, as often as it is due before `now`. */
  method CatchUp(limiter: Limiter, now: int, cancelledAt: int -> set<nat>, ghost promised: seq<int>, outcome: seq<Option<int>>, ghost exact: bool)
    returns (outcome': seq<Option<int>>)
    requires OnSchedule(limiter, promised, outcome, exact) && limiter.clock <= now
    requires exact ==> forall at :: cancelledAt(at) == {}
    modifies limiter
    ensures OnSchedule(limiter, promised, outcome', exact) && limiter.clock <= now && (limiter.timer.Some? ==> now <= limiter.timer.value)
  {
    outcome' := outcome;
    while limiter.timer.Some? && limiter.timer.value < now
      invariant OnSchedule(limiter, promised, outcome', exact) && limiter.clock <= now
      decreases |limiter.queue|
    {
      outcome' := FireTimer(limiter, cancelledAt(limiter.timer.value), promised, outcome', exact);
    }
  }

  /** The next login arrives, after whatever the timer was due for. */
  method ArriveAt(limiter: Limiter, ghost gaps: seq<nat>, i: nat, cancelledAt: int -> set<nat>, promised: seq<int>, outcome: seq<Option<int>>, ghost exact: bool,
                  now: int)
    returns (promised': seq<int>, outcome': seq<Option<int>>)
    requires OnSchedule(limiter, promised, outcome, exact) && limiter.clock <= now
    requires exact ==> forall at :: cancelledAt(at) == {}
    requires i == |promised| < |gaps| && PromisedAfter(gaps, promised) && now == Arrival(gaps, i + 1)
    modifies limiter
    ensures OnSchedule(limiter, promised', outcome', exact) && limiter.clock == now
    ensures |promised'| == i + 1 && PromisedAfter(gaps, promised')
  {
    outcome' := CatchUp(limiter, now, cancelledAt, promised, outcome, exact);
    promised', outcome' := Arrive(limiter, now, i, cancelledAt(now), promised, outcome', exact);
    PromisedNext(gaps, promised, promised');
  }

  /** All logins arrive, one after another. */
  method ArriveAll(limiter: Limiter, gaps: seq<nat>, cancelledAt: int -> set<nat>, ghost exact: bool) returns (promised: seq<int>, outcome: seq<Option<int>>)
    requires OnSchedule(limiter, [], [], exact) && limiter.clock == 0
    requires exact ==> forall at :: cancelledAt(at) == {}
    modifies limiter
    ensures OnSchedule(limiter, promised, outcome, exact) && |promised| == |gaps| && PromisedAfter(gaps, promised)
  {
    var now := 0;
    promised, outcome := [], [];
    for i := 0 to |gaps|
      invariant OnSchedule(limiter, promised, outcome, exact) && |promised| == i && limiter.clock == now
      invariant now == Arrival(gaps, i) && PromisedAfter(gaps, promised)
    {
      now := now + gaps[i];
      promised, outcome := ArriveAt(limiter, gaps, i, cancelledAt, promised, outcome, exact, now);
    }
  }

  /** Nobody arrives any more: the timer goes off until everybody is served. */
  method RunOut(limiter: Limiter, cancelledAt: int -> set<nat>, ghost promised: seq<int>, outcome: seq<Option<int>>, ghost exact: bool)
    returns (outcome': seq<Option<int>>)
    requires OnSchedule(limiter, promised, outcome, exact)
    requires exact ==> forall at :: cancelledAt(at) == {}
    modifies limiter
    ensures Books([], promised, outcome', exact)
  {
    outcome' := outcome;
    while limiter.timer.Some?
      invariant OnSchedule(limiter, promised, outcome', exact)
      decreases |limiter.queue|
    {
      outcome' := FireTimer(limiter, cancelledAt(limiter.timer.value), promised, outcome', exact);
    }
  }

  /**
   * A run with punctual timers: login i arrives `gaps[i]` after the one before it, and `cancelledAt` says who is
   * cancelled at which instant. Nobody starts later than announced, and if nobody cancels everybody starts exactly then,
   * however many logins queue up behind.
   */
  method RunOnTime(window: int, limit: nat, gaps: seq<nat>, cancelledAt: int -> set<nat>)
    returns (promised: seq<int>, outcome: seq<Option<int>>)
    requires 0 < window && 0 < limit
    ensures |promised| == |outcome| == |gaps|
    ensures PromisedAfter(gaps, promised)
    ensures forall i :: 0 <= i < |gaps| && outcome[i].Some? ==> outcome[i].value <= promised[i]
    ensures (forall at :: cancelledAt(at) == {}) ==> forall i :: 0 <= i < |gaps| ==> outcome[i] == Some(promised[i])
  {
    ghost var exact := forall at :: cancelledAt(at) == {};
    var limiter := new Limiter(window, limit, 0);
    promised, outcome := ArriveAll(limiter, gaps, cancelledAt, exact);
    outcome := RunOut(limiter, cancelledAt, promised, outcome, exact);
  }
}
