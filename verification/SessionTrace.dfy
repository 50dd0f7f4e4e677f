/** What a run of the Steam sessions may look like, entry by entry, and what that means for whole runs. */
module SessionTrace {
  import opened Prelude

  datatype Timing = Timing(loginRetryMax: nat, reconnectGraceMs: int, reconnectMaxAttempts: nat, backoffBaseMs: int, backoffCapMs: int)

  /** How long to wait after the retry numbered `k`, counting from 0. */
  function Backoff(timing: Timing, k: nat): int {
    Min(timing.backoffCapMs, timing.backoffBaseMs * PowerOfTwo(k))
  }

  /** The first wait is the base, each further one twice as long, and none longer than the cap. */
  lemma {:induction false} BackoffDoubles(timing: Timing, k: nat)
    requires 0 <= timing.backoffCapMs
    ensures Backoff(timing, 0) == (if timing.backoffBaseMs <= timing.backoffCapMs then timing.backoffBaseMs else timing.backoffCapMs)
    ensures Backoff(timing, k) <= timing.backoffCapMs
    ensures Backoff(timing, k + 1) == if 2 * Backoff(timing, k) <= timing.backoffCapMs then 2 * Backoff(timing, k) else timing.backoffCapMs
  {
    var base, power := timing.backoffBaseMs, PowerOfTwo(k);
    assert base * PowerOfTwo(k + 1) == 2 * (base * power);
  }

  /** Both names given, and the same but for case and outer blanks; how those are folded away does not matter. */
  predicate SameAccount(fold: string -> string, left: string, right: string) {
    left != "" && right != "" && fold(left) == fold(right)
  }

  datatype Entry =
    | Created(id: nat, name: string)
    | Disposed(id: nat)
    | Asked(id: nat)                         // a logon was asked for, and given the next ticket
    | LogOn(id: nat, ticket: nat)            // the client was told to log on
    | Online(id: nat)                        // the web session came
    | Down(id: nat, at: int, fatal: bool)    // disconnected or failed
    | Retried(id: nat, at: int)              // by the reconnect watch
    | Hurried(id: nat)                       // by the login watchdog
    | FellBack(id: nat)                      // from the refresh token to the password
    | LoggedOut(id: nat)                     // by the user
    | Revived(id: nat)                       // any later sign of life of the client, and a guard code handed in by the user

  /** What matters of the past of one session. No time of going down is 0. */
  datatype Summary =
    | Unborn
    | Summary(name: string, gone: bool, tickets: nat, retries: seq<int>, downSince: int, fatal: bool, hurries: nat, loggedOut: bool)

  /** Gives the login watchdog new retries. */
  predicate Renews(e: Entry) { e.Online? || e.Retried? || e.FellBack? || e.Created? }

  function After(s: Summary, e: Entry): Summary {
    if e.Created? then Summary(e.name, false, 0, [], 0, false, 0, false)
    else if s.Unborn? then s
    else
      Summary(
        s.name,
        s.gone || e.Disposed?,
        s.tickets + (if e.Asked? then 1 else 0),
        if e.Online? then [] else if e.Retried? then s.retries + [e.at] else s.retries,
        if e.Online? then 0 else if e.Down? && s.downSince == 0 then e.at else s.downSince,
        !e.Online? && (s.fatal || (e.Down? && e.fatal)),
        if Renews(e) then 0 else s.hurries + (if e.Hurried? then 1 else 0),
        !e.Online? && !e.Revived? && (s.loggedOut || e.LoggedOut?))
  }

  /** What the first `n` entries say about a session. */
  function Of(trace: seq<Entry>, n: nat, id: nat): Summary
    requires n <= |trace|
  {
    if n == 0 then Unborn
    else if trace[n - 1].id == id then After(Of(trace, n - 1, id), trace[n - 1])
    else Of(trace, n - 1, id)
  }

  predicate Live(trace: seq<Entry>, n: nat, id: nat)
    requires n <= |trace|
  {
    Of(trace, n, id).Summary? && !Of(trace, n, id).gone
  }

  /** What an entry needs of the past, the first `n` entries. */
  ghost predicate Allowed(timing: Timing, fold: string -> string, trace: seq<Entry>, n: nat, e: Entry)
    requires n <= |trace|
  {
    var s := Of(trace, n, e.id);
    match e
    case Created(id, name) =>
      s.Unborn? && forall other :: Live(trace, n, other) ==> !SameAccount(fold, Of(trace, n, other).name, name)
    case Asked(_) => Live(trace, n, e.id)
    case LogOn(_, ticket) => Live(trace, n, e.id) && ticket == s.tickets && !s.loggedOut
    case Retried(_, at) =>
      && Live(trace, n, e.id) && !s.fatal && |s.retries| < timing.reconnectMaxAttempts
      && s.downSince != 0 && at >= s.downSince + timing.reconnectGraceMs
      && (s.retries != [] ==> at >= s.retries[|s.retries| - 1] + Backoff(timing, |s.retries| - 1))
    case Hurried(_) => Live(trace, n, e.id) && s.hurries < timing.loginRetryMax
    case _ => s.Summary?
  }

  ghost predicate WellBehaved(timing: Timing, fold: string -> string, trace: seq<Entry>) {
    forall i {:trigger Allowed(timing, fold, trace, i, trace[i])} :: 0 <= i < |trace| ==> Allowed(timing, fold, trace, i, trace[i])
  }

  lemma {:induction false} OfPrefix(trace: seq<Entry>, more: seq<Entry>, n: nat, id: nat)
    requires n <= |trace|
    ensures Of(trace + more, n, id) == Of(trace, n, id)
  {
    if n > 0 {
      OfPrefix(trace, more, n - 1, id);
    }
  }

  lemma {:induction false} AllowedPrefix(timing: Timing, fold: string -> string, trace: seq<Entry>, more: seq<Entry>, n: nat, e: Entry)
    requires n <= |trace|
    ensures Allowed(timing, fold, trace + more, n, e) == Allowed(timing, fold, trace, n, e)
  {
    forall id ensures Of(trace + more, n, id) == Of(trace, n, id) {
      OfPrefix(trace, more, n, id);
    }
    assert forall id :: Live(trace + more, n, id) == Live(trace, n, id);
  }

  lemma {:induction false} WellBehavedLonger(timing: Timing, fold: string -> string, trace: seq<Entry>, e: Entry)
    requires WellBehaved(timing, fold, trace) && Allowed(timing, fold, trace, |trace|, e)
    ensures WellBehaved(timing, fold, trace + [e])
  {
    var longer := trace + [e];
    forall i | 0 <= i < |longer| ensures Allowed(timing, fold, longer, i, longer[i]) {
      AllowedPrefix(timing, fold, trace, [e], i, longer[i]);
    }
  }

  // ----- What every well-behaved run keeps -----

  /** A session once created stays known, under its name; once disposed of, it stays so. */
  lemma {:induction false} PastStays(timing: Timing, fold: string -> string, trace: seq<Entry>, i: nat, j: nat, id: nat)
    requires WellBehaved(timing, fold, trace) && i <= j <= |trace| && Of(trace, i, id).Summary?
    ensures Of(trace, j, id).Summary? && Of(trace, j, id).name == Of(trace, i, id).name
    ensures Of(trace, i, id).gone ==> Of(trace, j, id).gone
    ensures Of(trace, i, id).tickets <= Of(trace, j, id).tickets
  {
    if i < j {
      PastStays(timing, fold, trace, i, j - 1, id);
      assert Allowed(timing, fold, trace, j - 1, trace[j - 1]);
    }
  }

  /** At every moment, at most one live session per account. */
  lemma {:induction false} OneLivePerAccount(timing: Timing, fold: string -> string, trace: seq<Entry>, n: nat, a: nat, b: nat)
    requires WellBehaved(timing, fold, trace) && n <= |trace| && a != b
    requires Live(trace, n, a) && Live(trace, n, b)
    ensures !SameAccount(fold, Of(trace, n, a).name, Of(trace, n, b).name)
  {
    assert n > 0;
    var e := trace[n - 1];
    assert Allowed(timing, fold, trace, n - 1, trace[n - 1]);
    if e.Created? && (e.id == a || e.id == b) {
      assert Live(trace, n - 1, if e.id == a then b else a);
    } else {
      OneLivePerAccount(timing, fold, trace, n - 1, a, b);
    }
  }

  /** No logon is begun for a session disposed of. */
  lemma {:induction false} NoLogOnWhenGone(timing: Timing, fold: string -> string, trace: seq<Entry>, i: nat, j: nat, id: nat)
    requires WellBehaved(timing, fold, trace) && i < j < |trace| && trace[i] == Disposed(id)
    ensures !(trace[j].LogOn? && trace[j].id == id)
  {
    assert Allowed(timing, fold, trace, i, trace[i]);
    PastStays(timing, fold, trace, i + 1, j, id);
    assert Allowed(timing, fold, trace, j, trace[j]);
  }

  /** How often a logon was asked for so far. */
  function Tickets(trace: seq<Entry>, n: nat, id: nat): nat
    requires n <= |trace|
  {
    if Of(trace, n, id).Unborn? then 0 else Of(trace, n, id).tickets
  }

  /** A logon asked for does not begin once another has been asked for. */
  lemma {:induction false} NoLogOnWhenSuperseded(timing: Timing, fold: string -> string, trace: seq<Entry>, i: nat, k: nat, j: nat, id: nat)
    requires WellBehaved(timing, fold, trace) && i < k < j < |trace|
    requires trace[i] == Asked(id) && trace[k] == Asked(id)
    ensures trace[j] != LogOn(id, Tickets(trace, i + 1, id))
  {
    assert Allowed(timing, fold, trace, i, trace[i]);
    PastStays(timing, fold, trace, i + 1, k, id);
    assert Allowed(timing, fold, trace, k, trace[k]);
    PastStays(timing, fold, trace, k + 1, j, id);
    assert Allowed(timing, fold, trace, j, trace[j]);
  }

  /** No web session between two places. */
  ghost predicate NoneOnline(trace: seq<Entry>, i: nat, j: nat, id: nat)
    requires i <= j <= |trace|
  {
    forall k :: i <= k < j ==> trace[k] != Online(id)
  }

  /** The one time an entry adds to the retries of a session. */
  function RetryTime(e: Entry, id: nat): seq<int> {
    if e.Retried? && e.id == id then [e.at] else []
  }

  /** The times the reconnect watch retried between two places. */
  function RetryTimes(trace: seq<Entry>, i: nat, j: nat, id: nat): seq<int>
    requires i <= j <= |trace|
    decreases j
  {
    if i == j then []
    else RetryTimes(trace, i, j - 1, id) + RetryTime(trace[j - 1], id)
  }

  /** The waits between retries grow as the backoff does. */
  ghost predicate Paced(timing: Timing, times: seq<int>) {
    forall k :: 0 <= k < |times| - 1 ==> times[k + 1] >= times[k] + Backoff(timing, k)
  }

  lemma {:induction false} RetriesNext(timing: Timing, fold: string -> string, trace: seq<Entry>, j: nat, id: nat)
    requires WellBehaved(timing, fold, trace) && j < |trace| && trace[j] != Online(id)
    requires Of(trace, j, id).Summary? && Paced(timing, Of(trace, j, id).retries) && |Of(trace, j, id).retries| <= timing.reconnectMaxAttempts
    ensures Of(trace, j + 1, id).Summary? && Of(trace, j + 1, id).retries == Of(trace, j, id).retries + RetryTime(trace[j], id)
    ensures |Of(trace, j + 1, id).retries| <= timing.reconnectMaxAttempts
    ensures Paced(timing, Of(trace, j + 1, id).retries)
  {
    assert Allowed(timing, fold, trace, j, trace[j]);
  }

  /** Between web sessions the retries add up in the summary, and are paced. */
  lemma {:induction false} RetriesAddUp(timing: Timing, fold: string -> string, trace: seq<Entry>, i: nat, j: nat, id: nat)
    requires WellBehaved(timing, fold, trace) && i <= j <= |trace| && NoneOnline(trace, i, j, id)
    requires Of(trace, i, id).Summary? && Of(trace, i, id).retries == []
    ensures Of(trace, j, id).Summary? && Of(trace, j, id).retries == RetryTimes(trace, i, j, id)
    ensures |Of(trace, j, id).retries| <= timing.reconnectMaxAttempts && Paced(timing, Of(trace, j, id).retries)
  {
    if i < j {
      RetriesAddUp(timing, fold, trace, i, j - 1, id);
      RetriesNext(timing, fold, trace, j - 1, id);
    }
  }

  /**
   * From one web session to the next, the reconnect watch retries no more often than allowed, and waits longer and
   * longer in between.
   */
  lemma {:induction false} ReconnectBudget(timing: Timing, fold: string -> string, trace: seq<Entry>, i: nat, j: nat, id: nat)
    requires WellBehaved(timing, fold, trace) && i < j <= |trace| && NoneOnline(trace, i + 1, j, id)
    requires trace[i] == Online(id) || (trace[i].Created? && trace[i].id == id)
    ensures |RetryTimes(trace, i + 1, j, id)| <= timing.reconnectMaxAttempts
    ensures Paced(timing, RetryTimes(trace, i + 1, j, id))
  {
    assert Allowed(timing, fold, trace, i, trace[i]);
    RetriesAddUp(timing, fold, trace, i + 1, j, id);
  }

  lemma {:induction false} FatalStays(timing: Timing, fold: string -> string, trace: seq<Entry>, i: nat, j: nat, id: nat)
    requires WellBehaved(timing, fold, trace) && i <= j <= |trace| && NoneOnline(trace, i, j, id)
    requires Of(trace, i, id).Summary? && Of(trace, i, id).fatal
    ensures Of(trace, j, id).Summary? && Of(trace, j, id).fatal
  {
    if i < j {
      FatalStays(timing, fold, trace, i, j - 1, id);
      assert Allowed(timing, fold, trace, j - 1, trace[j - 1]);
    }
  }

  /** After a fatal result the reconnect watch leaves the session alone until the next web session. */
  lemma {:induction false} FatalStops(timing: Timing, fold: string -> string, trace: seq<Entry>, i: nat, j: nat, id: nat)
    requires WellBehaved(timing, fold, trace) && i < j < |trace| && NoneOnline(trace, i + 1, j, id)
    requires trace[i].Down? && trace[i].id == id && trace[i].fatal
    ensures !(trace[j].Retried? && trace[j].id == id)
  {
    assert Allowed(timing, fold, trace, i, trace[i]);
    FatalStays(timing, fold, trace, i + 1, j, id);
    assert Allowed(timing, fold, trace, j, trace[j]);
  }

  /** A time the session is down since is the time of an entry, with no web session after it. */
  lemma {:induction false} DownSinceIsAnEntry(timing: Timing, fold: string -> string, trace: seq<Entry>, j: nat, id: nat) returns (i: nat)
    requires WellBehaved(timing, fold, trace) && j <= |trace| && Of(trace, j, id).Summary? && Of(trace, j, id).downSince != 0
    ensures i < j && trace[i].Down? && trace[i].id == id && trace[i].at == Of(trace, j, id).downSince && NoneOnline(trace, i, j, id)
  {
    var e, s := trace[j - 1], Of(trace, j - 1, id);
    assert Allowed(timing, fold, trace, j - 1, trace[j - 1]);
    if e.id == id && e.Down? && s.downSince == 0 {
      i := j - 1;
    } else {
      i := DownSinceIsAnEntry(timing, fold, trace, j - 1, id);
    }
  }

  /** Before every retry the session went down, at least the grace period ago, and has not been online since. */
  lemma {:induction false} GraceIsKept(timing: Timing, fold: string -> string, trace: seq<Entry>, j: nat, id: nat) returns (i: nat)
    requires WellBehaved(timing, fold, trace) && j < |trace| && trace[j].Retried? && trace[j].id == id
    ensures i < j && trace[i].Down? && trace[i].id == id && NoneOnline(trace, i, j, id)
    ensures trace[j].at >= trace[i].at + timing.reconnectGraceMs
  {
    assert Allowed(timing, fold, trace, j, trace[j]);
    i := DownSinceIsAnEntry(timing, fold, trace, j, id);
  }

  /** Nothing renews the watchdog's retries between two places. */
  ghost predicate NoneRenews(trace: seq<Entry>, i: nat, j: nat, id: nat)
    requires i <= j <= |trace|
  {
    forall k :: i <= k < j && trace[k].id == id ==> !Renews(trace[k])
  }

  function Hurries(trace: seq<Entry>, i: nat, j: nat, id: nat): nat
    requires i <= j <= |trace|
    decreases j
  {
    if i == j then 0 else Hurries(trace, i, j - 1, id) + (if trace[j - 1] == Hurried(id) then 1 else 0)
  }

  lemma {:induction false} HurriesAddUp(timing: Timing, fold: string -> string, trace: seq<Entry>, i: nat, j: nat, id: nat)
    requires WellBehaved(timing, fold, trace) && i <= j <= |trace| && Of(trace, i, id).Summary?
    requires NoneRenews(trace, i, j, id)
    ensures Of(trace, j, id).Summary? && Of(trace, j, id).hurries == Of(trace, i, id).hurries + Hurries(trace, i, j, id)
  {
    if i < j {
      HurriesAddUp(timing, fold, trace, i, j - 1, id);
      assert Allowed(timing, fold, trace, j - 1, trace[j - 1]);
    }
  }

  /** Between renewals the login watchdog retries no more often than allowed. */
  lemma {:induction false} WatchdogBudget(timing: Timing, fold: string -> string, trace: seq<Entry>, i: nat, j: nat, id: nat)
    requires WellBehaved(timing, fold, trace) && i <= j <= |trace| && Of(trace, i, id).Summary?
    requires NoneRenews(trace, i, j, id)
    ensures Hurries(trace, i, j, id) <= timing.loginRetryMax
    decreases j
  {
    if i < j {
      if trace[j - 1] == Hurried(id) {
        HurriesAddUp(timing, fold, trace, i, j - 1, id);
        assert Allowed(timing, fold, trace, j - 1, trace[j - 1]);
      } else {
        WatchdogBudget(timing, fold, trace, i, j - 1, id);
      }
    }
  }

  lemma {:induction false} LoggedOutLasts(timing: Timing, fold: string -> string, trace: seq<Entry>, i: nat, j: nat, id: nat)
    requires WellBehaved(timing, fold, trace) && i <= j <= |trace|
    requires Of(trace, i, id).Summary? && Of(trace, i, id).loggedOut
    requires forall k :: i <= k < j && trace[k].id == id ==> !trace[k].Revived? && !trace[k].Online?
    ensures Of(trace, j, id).Summary? && Of(trace, j, id).loggedOut
  {
    if i < j {
      LoggedOutLasts(timing, fold, trace, i, j - 1, id);
      assert Allowed(timing, fold, trace, j - 1, trace[j - 1]);
    }
  }

  /** Logged out by the user, a session does not log on again unless its client shows a sign of life, or a guard code is handed in, first. */
  lemma {:induction false} LoggedOutStays(timing: Timing, fold: string -> string, trace: seq<Entry>, i: nat, j: nat, id: nat)
    requires WellBehaved(timing, fold, trace) && i < j < |trace| && trace[i] == LoggedOut(id)
    requires forall k :: i < k < j && trace[k].id == id ==> !trace[k].Revived? && !trace[k].Online?
    ensures !(trace[j].LogOn? && trace[j].id == id)
  {
    assert Allowed(timing, fold, trace, i, trace[i]);
    LoggedOutLasts(timing, fold, trace, i + 1, j, id);
    assert Allowed(timing, fold, trace, j, trace[j]);
  }
}
