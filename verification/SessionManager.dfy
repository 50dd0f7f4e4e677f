/**
 * Logging on, retrying, reconnecting. Sessions are kept by number, also after they left the table, since timers,
 * waiting logons and client events still reach them. Every step is noted in a trace, and every trace is well behaved.
 */
module SessionManager {
  import opened Prelude
  import opened SessionTrace

  datatype Status = Fresh | Connecting | GuardRequired | SignedOn | InWebSession | Disconnected | Failed | SignedOut

  /** What to log on with; what is not given is "". */
  datatype Details = Details(refreshToken: string, password: string)

  datatype Attempt = Attempt(
    accountName: string, sharedSecret: string, status: Status, client: Option<nat>, guardWaiting: bool,
    refreshToken: string, loginDetails: Option<Details>, passwordFallback: Option<Details>,
    loginRetries: nat, watchdog: bool,
    hadSession: bool, disconnectedSince: int, reconnectBlocked: bool, reconnectAttempts: nat, nextReconnectAt: int, reconnectGaveUp: bool,
    disposed: bool, ticket: nat)

  /** A logon waiting for its turn, and a retry waiting for its delay to pass. */
  datatype Waiting = Waiting(id: nat, client: nat, ticket: nat)
  datatype Retry = Retry(id: nat, details: Details)

  datatype Event =
    | SignIn(name: string, secret: string, token: string, password: Option<Details>)
    | Restore(name: string, secret: string, token: string, password: Option<Details>)
    | Remove(names: set<string>, ids: set<nat>)
    | Tick
    | TurnComes(k: nat, granted: bool)
    | DelayOver(k: nat)
    | About(id: nat, what: SessionEvent)

  datatype SessionEvent =
    | WatchdogRings | CodeGiven | LogoutAsked | GuardAsked(byMail: bool, made: bool) | ClientLoggedOn | TokenCame(token: string) | WebSessionCame
    | ClientDisconnected(eresult: Option<int>) | ClientFailed(eresult: Option<int>)

  /** EResult.InvalidPassword: also the answer to an expired refresh token, which the password may cure. */
  const INVALID_PASSWORD := 5

  // ----- The sessions agree with the trace -----

  ghost predicate Matches(timing: Timing, a: Attempt, s: Summary) {
    && s.Summary? && s.name == a.accountName && s.gone == a.disposed && s.tickets == a.ticket
    && |s.retries| == a.reconnectAttempts && s.downSince == a.disconnectedSince && s.hurries == a.loginRetries
    && (s.fatal ==> a.reconnectBlocked)
    && (s.loggedOut ==> a.status == SignedOut)
    && (s.retries != [] ==> a.nextReconnectAt == s.retries[|s.retries| - 1] + Backoff(timing, |s.retries| - 1))
  }

  ghost predicate FitsAt(timing: Timing, attempts: map<nat, Attempt>, trace: seq<Entry>, id: nat) {
    var s := Of(trace, |trace|, id);
    if id in attempts then Matches(timing, attempts[id], s) else s.Unborn?
  }

  ghost predicate Fits(timing: Timing, fold: string -> string, attempts: map<nat, Attempt>, trace: seq<Entry>) {
    WellBehaved(timing, fold, trace) && forall id :: FitsAt(timing, attempts, trace, id)
  }

  lemma {:induction false} FitsChanged(timing: Timing, fold: string -> string, attempts: map<nat, Attempt>, trace: seq<Entry>, id: nat, a: Attempt)
    requires Fits(timing, fold, attempts, trace) && id in attempts
    requires Matches(timing, a, Of(trace, |trace|, id))
    ensures Fits(timing, fold, attempts[id := a], trace)
  {
    var after := attempts[id := a];
    forall k ensures FitsAt(timing, after, trace, k) {
      assert FitsAt(timing, attempts, trace, k);
    }
  }

  lemma {:induction false} FitsNoted(timing: Timing, fold: string -> string, attempts: map<nat, Attempt>, trace: seq<Entry>, a: Attempt, e: Entry)
    requires Fits(timing, fold, attempts, trace) && Allowed(timing, fold, trace, |trace|, e)
    requires Matches(timing, a, After(Of(trace, |trace|, e.id), e))
    ensures Fits(timing, fold, attempts[e.id := a], trace + [e])
  {
    WellBehavedLonger(timing, fold, trace, e);
    var after, longer := attempts[e.id := a], trace + [e];
    forall k ensures FitsAt(timing, after, longer, k) {
      assert FitsAt(timing, attempts, trace, k);
      OfPrefix(trace, [e], |trace|, k);
    }
  }

  predicate CanRetry(a: Attempt) { a.loginDetails.Some? && a.client.Some? }

  /** The refresh token at hand: the one received, else the one logged on with. */
  function TokenAtHand(a: Attempt): string
    requires a.loginDetails.Some?
  {
    if a.refreshToken != "" then a.refreshToken else a.loginDetails.value.refreshToken
  }

  /** `retryDetailsFor`: the refresh token if there is one, without the password. */
  function RetryDetails(a: Attempt): (d: Details)
    requires a.loginDetails.Some?
    ensures d.refreshToken == TokenAtHand(a) && (d.refreshToken != "" ==> d.password == "")
  {
    if TokenAtHand(a) != "" then Details(TokenAtHand(a), "") else a.loginDetails.value
  }

  /** The password it leaves out is kept to fall back on. */
  function RetryFallback(a: Attempt): Option<Details> {
    if a.loginDetails.Some? && TokenAtHand(a) != "" && a.loginDetails.value.password != "" then a.loginDetails else a.passwordFallback
  }

  // ----- What a retry does, said on its own -----

  /** A refresh token is at hand: one received, or the one logged on with. */
  ghost predicate HasToken(a: Attempt) {
    a.refreshToken != "" || (a.loginDetails.Some? && a.loginDetails.value.refreshToken != "")
  }

  /** A retry logs on with the token received, else with that of the last logon, and without the password; without a token, as before. */
  ghost predicate RetriesWith(a: Attempt, d: Details) {
    && (a.refreshToken != "" ==> d == Details(a.refreshToken, ""))
    && (a.refreshToken == "" && HasToken(a) ==> d == Details(a.loginDetails.value.refreshToken, ""))
    && (!HasToken(a) ==> Some(d) == a.loginDetails)
  }

  /** The session connects anew, or fails for want of details or a client; a password left out of the retry is kept to fall back on. */
  ghost predicate RetryMakes(a: Attempt, b: Attempt) {
    && b == a.(status := b.status, passwordFallback := b.passwordFallback)
    && (a.loginDetails.Some? && a.client.Some? ==> b.status == Connecting)
    && (a.loginDetails == None || a.client == None ==> b.status == Failed)
    && (a.loginDetails.Some? && HasToken(a) && a.loginDetails.value.password != "" ==> b.passwordFallback == a.loginDetails)
    && (a.loginDetails == None || !HasToken(a) || a.loginDetails.value.password == "" ==> b.passwordFallback == a.passwordFallback)
  }

  /** A retry is queued exactly if there are details and a client to retry with. */
  ghost predicate RetryQueued(a: Attempt, id: nat, before: seq<Retry>, after: seq<Retry>) {
    if a.loginDetails.Some? && a.client.Some? then
      |after| == |before| + 1 && before == after[..|before|] && after[|before|].id == id && RetriesWith(a, after[|before|].details)
    else after == before
  }

  /** Back to the password: the token is forgotten, and the details are those kept to fall back on. */
  ghost predicate FellBackTo(a: Attempt, b: Attempt) {
    && b == a.(watchdog := b.watchdog, refreshToken := b.refreshToken, loginDetails := b.loginDetails, loginRetries := b.loginRetries, status := b.status)
    && !b.watchdog && b.refreshToken == "" && b.loginDetails == a.passwordFallback && b.loginRetries == 0
    && b.status == if a.client.Some? then Connecting else Failed
  }

  lemma {:induction false} FallingBack(a: Attempt, b: Attempt, id: nat, before: seq<Retry>, after: seq<Retry>)
    requires a.passwordFallback.Some? && RetryMakes(BackToPassword(a), b) && RetryQueued(BackToPassword(a), id, before, after)
    ensures FellBackTo(a, b) && FallbackQueued(a, id, before, after)
  {
  }

  /** The details kept to fall back on are retried with, by their token if they have one. */
  ghost predicate FallbackQueued(a: Attempt, id: nat, before: seq<Retry>, after: seq<Retry>)
    requires a.passwordFallback.Some?
  {
    after == if a.client == None then before
             else if a.passwordFallback.value.refreshToken == "" then before + [Retry(id, a.passwordFallback.value)]
             else before + [Retry(id, Details(a.passwordFallback.value.refreshToken, ""))]
  }

  lemma {:induction false} HurriesRetry(a: Attempt, id: nat, before: seq<Retry>, after: seq<Retry>, hurries: nat)
    requires RetryQueued(a.(watchdog := false, loginRetries := hurries), id, before, after)
    ensures RetryQueued(a, id, before, after)
  {
  }

  /** Down since now, if not down already; a fatal result bars the way back. */
  ghost predicate WentDown(a: Attempt, b: Attempt, status: Status, at: int, barred: bool) {
    && b == a.(watchdog := b.watchdog, status := b.status, disconnectedSince := b.disconnectedSince, reconnectBlocked := b.reconnectBlocked)
    && b.status == status && (b.reconnectBlocked <==> a.reconnectBlocked || barred)
    && (a.disconnectedSince != 0 ==> b.disconnectedSince == a.disconnectedSince)
    && (a.disconnectedSince == 0 ==> b.disconnectedSince == at)
  }

  /** Nothing has happened to the session yet. */
  ghost predicate Blank(a: Attempt) {
    && a.status == Fresh && a.client == None && !a.guardWaiting && !a.watchdog && !a.disposed && a.ticket == 0
    && a.refreshToken == "" && a.loginDetails == None && a.passwordFallback == None && a.loginRetries == 0
    && !a.hadSession && a.disconnectedSince == 0 && !a.reconnectBlocked && a.reconnectAttempts == 0 && a.nextReconnectAt == 0 && !a.reconnectGaveUp
  }

  /** Disposed of, logged out, online again, on another client, or another logon asked for since. */
  predicate Stale(a: Attempt, w: Waiting) {
    a.disposed || a.status == SignedOut || a.status == InWebSession || a.client != Some(w.client) || a.ticket != w.ticket
  }

  function MarkedDown(a: Attempt, status: Status, at: int, isFatal: bool): Attempt {
    a.(status := status, disconnectedSince := if a.disconnectedSince == 0 then at else a.disconnectedSince, reconnectBlocked := a.reconnectBlocked || isFatal)
  }

  /** A session as it is made. */
  function NewAttempt(accountName: string, sharedSecret: string): Attempt {
    Attempt(accountName, sharedSecret, Fresh, None, false, "", None, None, 0, false, false, 0, false, 0, 0, false, false, 0)
  }

  /** What `retryLogon` makes of a session. */
  function Retrying(a: Attempt): Attempt {
    a.(passwordFallback := RetryFallback(a), status := if CanRetry(a) then Connecting else Failed)
  }

  /** One more attempt of the reconnect watch. */
  function Reconnecting(timing: Timing, a: Attempt, at: int): Attempt {
    a.(reconnectAttempts := a.reconnectAttempts + 1, nextReconnectAt := at + Backoff(timing, a.reconnectAttempts), loginRetries := 0)
  }

  /** Online: the watchdog off, every count and bar renewed. */
  function NowOnline(a: Attempt): Attempt {
    a.(watchdog := false, loginRetries := 0, hadSession := true, disconnectedSince := 0, reconnectAttempts := 0, nextReconnectAt := 0,
       reconnectBlocked := false, reconnectGaveUp := false, status := InWebSession)
  }

  /** What a failed logon with the refresh token leaves to try. */
  function BackToPassword(a: Attempt): Attempt {
    a.(watchdog := false, refreshToken := "", loginDetails := a.passwordFallback, loginRetries := 0)
  }

  /** The same session with a logon under way, waiting, refused or failed. */
  ghost predicate LoggingOn(before: Attempt, after: Attempt) {
    after == before.(status := after.status, client := after.client, watchdog := after.watchdog, ticket := after.ticket)
  }

  /** A logon was asked for, and is under way or waits for its turn. */
  ghost predicate LogonAsked(id: nat, client: nat, ticket: nat, trace: seq<Entry>, longer: seq<Entry>, queue: seq<Waiting>, longerQueue: seq<Waiting>) {
    || (longer == trace + [Asked(id)] && longerQueue == queue + [Waiting(id, client, ticket)])
    || (longer == trace + [Asked(id)] + [LogOn(id, ticket)] && longerQueue == queue)
  }

  /** Refused, the session failed and nothing was asked for; otherwise the logon was asked for, under the next ticket. */
  ghost predicate AskedUnless(refused: bool, before: Attempt, after: Attempt, id: nat, client: nat, trace: seq<Entry>, longer: seq<Entry>,
                              queue: seq<Waiting>, longerQueue: seq<Waiting>) {
    if refused then longer == trace && longerQueue == queue && after.status == Failed && !after.watchdog && after.ticket == before.ticket
    else LogonAsked(id, client, before.ticket + 1, trace, longer, queue, longerQueue) && after.ticket == before.ticket + 1 && after.client == Some(client)
  }

  /** Every status is one of these. */
  lemma {:induction false} ActiveIs(status: Status)
    ensures status in {Fresh, Connecting, GuardRequired, SignedOn, InWebSession} <==> status !in {Disconnected, Failed, SignedOut}
  {
    match status
    case Fresh | Connecting | GuardRequired | SignedOn | InWebSession =>
    case Disconnected | Failed | SignedOut =>
  }

  /** The status before does not matter for what a session that went down looks like. */
  lemma {:induction false} DownWhatever(a: Attempt, status: Status, at: int, isFatal: bool)
    ensures MarkedDown(a.(status := status), status, at, isFatal) == MarkedDown(a, status, at, isFatal)
  {
  }

  lemma {:induction false} SetTwice(m: map<nat, Attempt>, id: nat, a: Attempt, b: Attempt)
    ensures m[id := a][id := b] == m[id := b]
  {
  }

  function DisposedOf(a: Attempt): Attempt {
    a.(watchdog := false, disposed := true, guardWaiting := false)
  }

  /** Of the wanted sessions all but `rest` are disposed of, and no others. */
  ghost predicate Disposing(before: map<nat, Attempt>, attempts: map<nat, Attempt>, wanted: set<nat>, rest: set<nat>) {
    && rest <= wanted <= before.Keys && attempts.Keys == before.Keys
    && forall id :: id in before ==> DisposingAt(before[id], attempts[id], id in wanted && id !in rest)
  }

  ghost predicate DisposingAt(a: Attempt, b: Attempt, gone: bool) {
    b.accountName == a.accountName && (b.disposed <==> a.disposed || gone)
  }

  lemma {:induction false} DisposingNext(before: map<nat, Attempt>, attempts: map<nat, Attempt>, wanted: set<nat>, rest: set<nat>, id: nat)
    requires Disposing(before, attempts, wanted, rest) && id in rest
    ensures id in attempts && Disposing(before, attempts[id := DisposedOf(attempts[id])], wanted, rest - {id})
  {
    assert DisposingAt(before[id], attempts[id], id in wanted && id !in rest);
    forall k | k in before ensures DisposingAt(before[k], attempts[id := DisposedOf(attempts[id])][k], k in wanted && k !in rest - {id}) {
      assert DisposingAt(before[k], attempts[k], k in wanted && k !in rest);
    }
  }

  /** Disposed of when in the table and wanted for its own sake, and left as it was otherwise. */
  lemma {:induction false} DisposedOnly(before: map<nat, Attempt>, attempts: map<nat, Attempt>, wanted: set<nat>, id: nat)
    requires Disposing(before, attempts, wanted, {})
    ensures id in attempts <==> id in before
    ensures id in before ==> attempts[id].accountName == before[id].accountName && (attempts[id].disposed <==> before[id].disposed || id in wanted)
  {
    if id in before {
      assert DisposingAt(before[id], attempts[id], id in wanted && id !in {});
    }
  }

  // ----- What the entries of the trace say about a session -----

  /** The same in everything the trace speaks of. */
  predicate SameRecord(a: Attempt, b: Attempt) {
    && b.accountName == a.accountName && b.disposed == a.disposed && b.ticket == a.ticket
    && b.reconnectAttempts == a.reconnectAttempts && b.nextReconnectAt == a.nextReconnectAt && b.disconnectedSince == a.disconnectedSince
    && b.loginRetries == a.loginRetries && (a.reconnectBlocked ==> b.reconnectBlocked) && (a.status == SignedOut ==> b.status == SignedOut)
  }

  /** What an entry needs of a session, and what it makes of it. */
  predicate Follows(timing: Timing, a: Attempt, e: Entry, b: Attempt) {
    match e
    case Created(_, _) => false
    case Disposed(_) => SameRecord(a.(disposed := true), b)
    case Asked(_) => !a.disposed && SameRecord(a.(ticket := a.ticket + 1), b)
    case LogOn(_, ticket) => !a.disposed && ticket == a.ticket && a.status != SignedOut && SameRecord(a, b)
    case Online(_) => SameRecord(NowOnline(a), b)
    case Down(_, at, isFatal) => a.status != SignedOut && SameRecord(MarkedDown(a, b.status, at, isFatal), b)
    case Retried(_, at) =>
      && !a.disposed && !a.reconnectBlocked && a.reconnectAttempts < timing.reconnectMaxAttempts
      && a.disconnectedSince != 0 && at >= a.disconnectedSince + timing.reconnectGraceMs && at >= a.nextReconnectAt
      && SameRecord(Reconnecting(timing, a, at), b)
    case Hurried(_) => !a.disposed && a.loginRetries < timing.loginRetryMax && SameRecord(a.(loginRetries := a.loginRetries + 1), b)
    case FellBack(_) => SameRecord(a.(loginRetries := 0), b)
    case LoggedOut(_) => SameRecord(a.(status := SignedOut), b)
    case Revived(_) => SameRecord(a.(status := b.status), b)
  }

  lemma {:induction false} FollowsFits(timing: Timing, fold: string -> string, attempts: map<nat, Attempt>, trace: seq<Entry>, e: Entry, b: Attempt)
    requires Fits(timing, fold, attempts, trace) && e.id in attempts && Follows(timing, attempts[e.id], e, b)
    ensures Allowed(timing, fold, trace, |trace|, e) && Matches(timing, b, After(Of(trace, |trace|, e.id), e))
  {
    assert FitsAt(timing, attempts, trace, e.id);
  }

  lemma {:induction false} CreatedFits(timing: Timing, fold: string -> string, attempts: map<nat, Attempt>, trace: seq<Entry>, id: nat,
                                       accountName: string, sharedSecret: string)
    requires Fits(timing, fold, attempts, trace) && id !in attempts
    requires forall k :: k in attempts && !attempts[k].disposed ==> !SameAccount(fold, attempts[k].accountName, accountName)
    ensures Fits(timing, fold, attempts[id := NewAttempt(accountName, sharedSecret)], trace + [Created(id, accountName)])
  {
    assert FitsAt(timing, attempts, trace, id);
    forall other | Live(trace, |trace|, other) ensures !SameAccount(fold, Of(trace, |trace|, other).name, accountName) {
      assert FitsAt(timing, attempts, trace, other);
    }
    FitsNoted(timing, fold, attempts, trace, NewAttempt(accountName, sharedSecret), Created(id, accountName));
  }

  class Manager {
    const timing: Timing
    /** Results that forbid reconnecting: kicked out, banned, wrong password. */
    const fatal: set<int>
    /** Folds case and outer blanks away. */
    const fold: string -> string
    var attempts: map<nat, Attempt>
    var nextId: nat
    var clients: nat
    var queue: seq<Waiting>
    var retries: seq<Retry>
    var clock: int
    ghost var trace: seq<Entry>
    /** How often a logon was refused. */
    ghost var refusals: nat

    constructor (timing: Timing, fatal: set<int>, fold: string -> string, now: int)
      requires now > 0
      ensures Valid() && trace == [] && attempts == map[] && this.timing == timing && this.fold == fold
      ensures nextId == clients == 0 && queue == [] && retries == [] && clock == now
    {
      this.timing, this.fatal, this.fold := timing, fatal, fold;
      attempts, nextId, clients, queue, retries, clock := map[], 0, 0, [], [], now;
      trace, refusals := [], 0;
    }

    ghost predicate Valid()
      reads this
    {
      && Fits(timing, fold, attempts, trace) && clock > 0
      && (forall id :: id in attempts ==> id < nextId)
      && (forall k :: 0 <= k < |queue| ==> queue[k].id in attempts)
      && (forall k :: 0 <= k < |retries| ==> retries[k].id in attempts)
    }

    /** The table: the sessions not disposed of. */
    predicate InTable(id: nat)
      reads this
    {
      id in attempts && !attempts[id].disposed
    }

    /** A change the trace does not speak of. */
    method Set(id: nat, a: Attempt)
      requires Valid() && id in attempts && SameRecord(attempts[id], a)
      modifies `attempts
      ensures Valid() && attempts == old(attempts)[id := a]
    {
      assert FitsAt(timing, attempts, trace, id);
      FitsChanged(timing, fold, attempts, trace, id, a);
      attempts := attempts[id := a];
    }

    /** A change the trace notes. */
    method Note(id: nat, a: Attempt, ghost e: Entry)
      requires Valid() && id in attempts && e.id == id && Follows(timing, attempts[id], e, a)
      modifies `attempts, `trace
      ensures Valid() && attempts == old(attempts)[id := a] && trace == old(trace) + [e]
    {
      FollowsFits(timing, fold, attempts, trace, e, a);
      FitsNoted(timing, fold, attempts, trace, a, e);
      attempts := attempts[id := a];
      trace := trace + [e];
    }

    // ----- Logging on -----

    /** `client.logOn`, the watchdog armed; the call may throw. */
    method Begin(id: nat) returns (threw: bool)
      requires Valid() && InTable(id) && attempts[id].status != SignedOut
      modifies `attempts, `trace
      ensures Valid() && trace == old(trace) + [LogOn(id, old(attempts[id]).ticket)]
      ensures attempts == old(attempts)[id := if threw then old(attempts[id]).(watchdog := false, status := Failed) else old(attempts[id]).(watchdog := true)]
    {
      var a := attempts[id].(watchdog := true);
      var failed := a.(watchdog := false, status := Failed);
      SetTwice(attempts, id, a, failed);
      Note(id, a, LogOn(id, a.ticket));
      threw := *;
      if threw {
        Set(id, failed);
      }
    }

    /** `refusedLogon`: all proxies bound to the account may be switched off. */
    method RefusedLogon(id: nat) returns (refused: bool)
      requires Valid() && InTable(id) && attempts[id].status != SignedOut
      modifies `attempts, `refusals
      ensures Valid() && refusals == old(refusals) + if refused then 1 else 0
      ensures attempts == if refused then old(attempts)[id := old(attempts[id]).(watchdog := false, status := Failed)] else old(attempts)
    {
      refused := *;
      if refused {
        Set(id, attempts[id].(watchdog := false, status := Failed));
        refusals := refusals + 1;
      }
    }

    /** The next ticket, and the logon at once, or when the proxy's turn comes. */
    method AskForLogon(id: nat, client: nat) returns (mustWait: bool)
      requires Valid() && InTable(id) && attempts[id].status != SignedOut
      modifies `attempts, `trace, `queue
      ensures Valid() && id in attempts && attempts == old(attempts)[id := attempts[id]]
      ensures var a := old(attempts[id]).(ticket := old(attempts[id]).ticket + 1);
              if mustWait then attempts[id] == a && trace == old(trace) + [Asked(id)] && queue == old(queue) + [Waiting(id, client, a.ticket)]
              else
                && trace == old(trace) + [Asked(id)] + [LogOn(id, a.ticket)] && queue == old(queue)
                && (attempts[id] == a.(watchdog := true) || attempts[id] == a.(watchdog := false, status := Failed))
    {
      var a := attempts[id].(ticket := attempts[id].ticket + 1);
      Note(id, a, Asked(id));
      mustWait := *;
      if mustWait {
        queue := queue + [Waiting(id, client, a.ticket)];
      } else {
        ghost var before := old(attempts);
        var threw := Begin(id);
        SetTwice(before, id, a, attempts[id]);
      }
    }

    /** `whenLogonAllowed`: not at all, at once, or when the proxy's turn comes. */
    method WhenLogonAllowed(id: nat, client: nat)
      requires Valid() && InTable(id) && attempts[id].status != SignedOut && attempts[id].client == Some(client)
      modifies `attempts, `trace, `queue, `refusals
      ensures Valid() && id in attempts && attempts == old(attempts)[id := attempts[id]] && refusals <= old(refusals) + 1
      ensures LoggingOn(old(attempts[id]), attempts[id]) && attempts[id].status in {Failed, old(attempts[id]).status} && attempts[id].client == Some(client)
      ensures AskedUnless(old(refusals) < refusals, old(attempts[id]), attempts[id], id, client, old(trace), trace, old(queue), queue)
    {
      var refused := RefusedLogon(id);
      if !refused {
        var mustWait := AskForLogon(id, client);
      }
    }

    /** A waiting logon is let through, unless the session has moved on in the meantime. */
    method LetThrough(k: nat, granted: bool)
      requires Valid() && k < |queue|
      modifies `attempts, `trace, `queue
      ensures Valid() && attempts.Keys == old(attempts.Keys)
      ensures queue == old(queue)[..k] + old(queue)[k + 1..]
      ensures var w := old(queue)[k];
              var a := old(attempts)[w.id];
              if granted && !a.disposed && a.status !in {SignedOut, InWebSession} && a.client == Some(w.client) && a.ticket == w.ticket then
                && trace == old(trace) + [LogOn(w.id, w.ticket)]
                && (attempts == old(attempts)[w.id := a.(watchdog := true)] || attempts == old(attempts)[w.id := a.(watchdog := false, status := Failed)])
              else trace == old(trace) && attempts == old(attempts)
    {
      var w := queue[k];
      queue := queue[..k] + queue[k + 1..];
      if granted && !Stale(attempts[w.id], w) {
        var threw := Begin(w.id);
      }
    }

    /** A new client, and its first logon. */
    method Connect(id: nat)
      requires Valid() && InTable(id) && attempts[id].status != SignedOut
      modifies `attempts, `trace, `queue, `clients, `refusals
      ensures Valid() && old(trace) <= trace && id in attempts && attempts == old(attempts)[id := attempts[id]] && refusals <= old(refusals) + 1
      ensures LoggingOn(old(attempts[id]), attempts[id]) && attempts[id].status in {Connecting, Failed}
      ensures clients == old(clients) + 1 && attempts[id].client == Some(old(clients))
      ensures AskedUnless(old(refusals) < refusals, old(attempts[id]), attempts[id], id, old(clients), old(trace), trace, old(queue), queue)
    {
      var client := clients;
      clients := clients + 1;
      Set(id, attempts[id].(client := Some(client), status := Connecting));
      WhenLogonAllowed(id, client);
    }

    /** `startLogon`: refused, or with a new client. */
    method StartLogon(id: nat, details: Details)
      requires Valid() && InTable(id) && attempts[id].status != SignedOut
      modifies `attempts, `trace, `queue, `clients, `refusals
      ensures Valid() && old(trace) <= trace && id in attempts && attempts == old(attempts)[id := attempts[id]] && refusals <= old(refusals) + 1
      ensures LoggingOn(old(attempts[id]).(loginDetails := Some(details)), attempts[id]) && attempts[id].status in {Connecting, Failed}
      ensures AskedUnless(old(refusals) < refusals, old(attempts[id]), attempts[id], id, old(clients), old(trace), trace, old(queue), queue)
    {
      Set(id, attempts[id].(loginDetails := Some(details)));
      var refused := RefusedLogon(id);
      if !refused {
        Connect(id);
      }
    }

    /** `startPreferredLogon`: the refresh token before the password. */
    method StartPreferredLogon(id: nat, refreshToken: string, password: Option<Details>)
      requires Valid() && InTable(id) && attempts[id].status != SignedOut
      modifies `attempts, `trace, `queue, `clients, `refusals
      ensures Valid() && old(trace) <= trace && id in attempts && attempts == old(attempts)[id := attempts[id]]
      ensures refreshToken != "" || password.Some? ==>
                AskedUnless(old(refusals) < refusals, old(attempts[id]), attempts[id], id, old(clients), old(trace), trace, old(queue), queue)
      ensures var a := old(attempts[id]).(passwordFallback := password);
              if refreshToken != "" then
                LoggingOn(a.(loginDetails := Some(Details(refreshToken, ""))), attempts[id]) && attempts[id].status in {Connecting, Failed}
              else if password.Some? then
                LoggingOn(a.(loginDetails := password), attempts[id]) && attempts[id].status in {Connecting, Failed}
              else attempts[id] == a && trace == old(trace)
    {
      Set(id, attempts[id].(passwordFallback := password));
      if refreshToken != "" {
        StartLogon(id, Details(refreshToken, ""));
      } else if password.Some? {
        StartLogon(id, password.value);
      }
    }

    /** `retryLogon`: log off, and on again after a delay. */
    method RetryLogon(id: nat)
      requires Valid() && InTable(id) && attempts[id].status != SignedOut
      modifies `attempts, `retries
      ensures Valid() && id in attempts && attempts == old(attempts)[id := attempts[id]]
      ensures attempts[id] == Retrying(old(attempts[id])) && RetryMakes(old(attempts[id]), attempts[id])
      ensures RetryQueued(old(attempts[id]), id, old(retries), retries)
    {
      var a := attempts[id];
      Set(id, Retrying(a));
      if CanRetry(a) {
        retries := retries + [Retry(id, RetryDetails(a))];
      }
    }

    /** A logon with the details of a retry. */
    method Resume(id: nat, client: nat, details: Details)
      requires Valid() && InTable(id) && attempts[id].status != SignedOut && attempts[id].client == Some(client)
      modifies `attempts, `trace, `queue, `refusals
      ensures Valid() && id in attempts && attempts == old(attempts)[id := attempts[id]]
      ensures LoggingOn(old(attempts[id]).(loginDetails := Some(details)), attempts[id]) && attempts[id].status in {Failed, old(attempts[id]).status}
      ensures AskedUnless(old(refusals) < refusals, old(attempts[id]), attempts[id], id, client, old(trace), trace, old(queue), queue)
      ensures old(trace) <= trace
    {
      Set(id, attempts[id].(loginDetails := Some(details)));
      WhenLogonAllowed(id, client);
    }

    /** The delay of a retry is over. */
    method RetryDelayOver(k: nat)
      requires Valid() && k < |retries|
      modifies `attempts, `trace, `queue, `retries, `refusals
      ensures Valid() && attempts.Keys == old(attempts.Keys) && old(trace) <= trace
      ensures retries == old(retries)[..k] + old(retries)[k + 1..]
      ensures var r := old(retries)[k];
              var a := old(attempts)[r.id];
              if a.client == None || a.disposed || a.status == SignedOut then attempts == old(attempts) && trace == old(trace) && queue == old(queue)
              else
                && attempts == old(attempts)[r.id := attempts[r.id]]
                && LoggingOn(a.(loginDetails := Some(r.details)), attempts[r.id]) && attempts[r.id].status in {Failed, a.status}
                && AskedUnless(old(refusals) < refusals, a, attempts[r.id], r.id, a.client.value, old(trace), trace, old(queue), queue)
    {
      var r := retries[k];
      retries := retries[..k] + retries[k + 1..];
      var a := attempts[r.id];
      if a.client.None? || a.disposed || a.status == SignedOut {
        return;
      }
      Resume(r.id, a.client.value, r.details);
    }

    /** The login watchdog fires: still no web session. */
    method WatchdogFires(id: nat)
      requires Valid() && id in attempts && attempts[id].watchdog
      modifies `attempts, `trace, `retries
      ensures Valid() && id in attempts && attempts == old(attempts)[id := attempts[id]]
      ensures var a := old(attempts[id]);
              if a.disposed || a.status in {InWebSession, SignedOut} || a.guardWaiting then
                attempts[id] == a.(watchdog := false) && trace == old(trace) && retries == old(retries)
              else if a.loginRetries < timing.loginRetryMax then
                && trace == old(trace) + [Hurried(id)] && RetryQueued(a, id, old(retries), retries)
                && RetryMakes(a.(watchdog := false, loginRetries := a.loginRetries + 1), attempts[id])
              else attempts[id] == a.(watchdog := false, status := Failed) && trace == old(trace) && retries == old(retries)
    {
      var a := attempts[id].(watchdog := false);
      if a.disposed || a.status == InWebSession || a.status == SignedOut || a.guardWaiting {
        Set(id, a);
      } else if a.loginRetries < timing.loginRetryMax {
        ghost var before, queued, once := attempts, retries, a.(loginRetries := a.loginRetries + 1);
        Note(id, a.(loginRetries := a.loginRetries + 1), Hurried(id));
        RetryLogon(id);
        HurriesRetry(before[id], id, queued, retries, once.loginRetries);
        SetTwice(before, id, once, attempts[id]);
      } else {
        Set(id, a.(status := Failed));
      }
    }

    method SubmitGuardCode(id: nat)
      requires Valid() && id in attempts
      modifies `attempts, `trace
      ensures Valid()
      ensures if old(attempts[id]).guardWaiting then
                && attempts == old(attempts)[id := old(attempts[id]).(guardWaiting := false, status := Connecting, watchdog := true)]
                && trace == old(trace) + [Revived(id)]
              else attempts == old(attempts) && trace == old(trace)
    {
      var a := attempts[id];
      if a.guardWaiting {
        Note(id, a.(guardWaiting := false, status := Connecting, watchdog := true), Revived(id));
      }
    }

    method Logout(id: nat)
      requires Valid() && id in attempts
      modifies `attempts, `trace
      ensures Valid() && trace == old(trace) + [LoggedOut(id)]
      ensures attempts == old(attempts)[id := old(attempts[id]).(watchdog := false, status := SignedOut)]
    {
      Note(id, attempts[id].(watchdog := false, status := SignedOut), LoggedOut(id));
    }

    // ----- The table -----

    method Dispose(id: nat)
      requires Valid() && id in attempts
      modifies `attempts, `trace
      ensures Valid() && attempts == old(attempts)[id := old(attempts[id]).(disposed := true, watchdog := false, guardWaiting := false)]
      ensures trace == old(trace) + [Disposed(id)]
    {
      Note(id, DisposedOf(attempts[id]), Disposed(id));
    }

    /** Those of the wanted that are in the table are disposed of; nothing else changes. */
    method DisposeAll(wanted: set<nat>)
      requires Valid() && wanted <= attempts.Keys
      modifies `attempts, `trace
      ensures Valid() && old(trace) <= trace && Disposing(old(attempts), attempts, wanted, {})
    {
      var rest := wanted;
      ghost var before := attempts;
      while rest != {}
        invariant Valid() && old(trace) <= trace && Disposing(before, attempts, wanted, rest)
        decreases rest
      {
        var id :| id in rest;
        DisposingNext(before, attempts, wanted, rest, id);
        Dispose(id);
        rest := rest - {id};
      }
    }

    /** Sessions of the same account leave the table. */
    method MakeWay(accountName: string)
      requires Valid()
      modifies `attempts, `trace
      ensures Valid() && old(trace) <= trace && attempts.Keys == old(attempts.Keys)
      ensures forall k :: InTable(k) <==> old(InTable(k)) && !SameAccount(fold, old(attempts)[k].accountName, accountName)
      ensures forall k :: InTable(k) ==> !SameAccount(fold, attempts[k].accountName, accountName)
    {
      var same := set k | k in attempts && !attempts[k].disposed && SameAccount(fold, attempts[k].accountName, accountName);
      ghost var before := attempts;
      DisposeAll(same);
      forall k
        ensures InTable(k) <==> k in before && !before[k].disposed && !SameAccount(fold, before[k].accountName, accountName)
        ensures InTable(k) ==> !SameAccount(fold, attempts[k].accountName, accountName)
      {
        DisposedOnly(before, attempts, same, k);
      }
    }

    /** `createAttempt`: sessions of the same account make way. */
    method CreateAttempt(accountName: string, sharedSecret: string) returns (id: nat)
      requires Valid()
      modifies `attempts, `trace, `nextId
      ensures Valid() && old(trace) <= trace && id == old(nextId) && id in attempts && attempts[id] == NewAttempt(accountName, sharedSecret)
      ensures Blank(attempts[id]) && attempts[id].accountName == accountName && attempts[id].sharedSecret == sharedSecret
      ensures attempts.Keys == old(attempts.Keys) + {id}
      ensures forall k :: k != id ==> (InTable(k) <==> old(InTable(k)) && !SameAccount(fold, old(attempts)[k].accountName, accountName))
    {
      MakeWay(accountName);
      id := nextId;
      forall k | k in attempts && !attempts[k].disposed ensures !SameAccount(fold, attempts[k].accountName, accountName) {
        assert InTable(k);
      }
      CreatedFits(timing, fold, attempts, trace, id, accountName, sharedSecret);
      attempts := attempts[id := NewAttempt(accountName, sharedSecret)];
      trace := trace + [Created(id, accountName)];
      nextId := nextId + 1;
    }

    /** `removeAccounts`: by folded name, or by number. */
    method RemoveAccounts(names: set<string>, ids: set<nat>)
      requires Valid()
      modifies `attempts, `trace
      ensures Valid() && old(trace) <= trace
      ensures forall id :: InTable(id) <==>
                old(InTable(id)) && id !in ids && !(old(attempts)[id].accountName != "" && fold(old(attempts)[id].accountName) in names)
    {
      var wanted := set k | k in attempts && !attempts[k].disposed && (k in ids || (attempts[k].accountName != "" && fold(attempts[k].accountName) in names));
      ghost var before := attempts;
      DisposeAll(wanted);
      forall id ensures InTable(id) <==> id in before && !before[id].disposed && id !in wanted {
        DisposedOnly(before, attempts, wanted, id);
      }
    }

    predicate Active(a: Attempt) {
      !a.disposed && a.status in {Fresh, Connecting, GuardRequired, SignedOn, InWebSession}
    }

    predicate AnyActive(accountName: string)
      reads this
    {
      exists k | k in attempts :: Active(attempts[k]) && SameAccount(fold, attempts[k].accountName, accountName)
    }

    /** `restoreOne`: unless somebody has logged on already, or there is nothing to log on with. */
    method RestoreOne(accountName: string, sharedSecret: string, refreshToken: string, password: Option<Details>)
      requires Valid()
      modifies this
      ensures Valid() && old(trace) <= trace
      ensures var busy := exists k :: k in old(attempts) && !old(attempts)[k].disposed && old(attempts)[k].status !in {Disconnected, Failed, SignedOut}
                                      && SameAccount(fold, old(attempts)[k].accountName, accountName);
              if busy || (refreshToken == "" && password.None?) then attempts == old(attempts) && trace == old(trace)
              else
                var id := old(nextId);
                && attempts.Keys == old(attempts.Keys) + {id}
                && LoggingOn(NewAttempt(accountName, sharedSecret).(
                               passwordFallback := password,
                               loginDetails := if refreshToken != "" then Some(Details(refreshToken, "")) else password),
                             attempts[id])
                && attempts[id].status in {Connecting, Failed}
                && forall k :: k != id ==> (InTable(k) <==> old(InTable(k)) && !SameAccount(fold, old(attempts)[k].accountName, accountName))
    {
      if AnyActive(accountName) || (refreshToken == "" && password.None?) {
        return;
      }
      forall k | k in attempts && SameAccount(fold, attempts[k].accountName, accountName)
        ensures attempts[k].disposed || attempts[k].status in {Disconnected, Failed, SignedOut}
      {
        assert !Active(attempts[k]);
        ActiveIs(attempts[k].status);
      }
      var id := CreateAttempt(accountName, sharedSecret);
      StartPreferredLogon(id, refreshToken, password);
    }

    // ----- The reconnect watch -----

    /** Once online, down for the grace period, not stopped, and the last wait over. */
    predicate RetryDue(a: Attempt)
      reads this
    {
      && !a.disposed && a.client.Some? && a.hadSession && (a.status == Disconnected || a.status == Failed)
      && !a.guardWaiting && !a.reconnectBlocked && a.loginDetails.Some?
      && a.disconnectedSince != 0 && clock - a.disconnectedSince >= timing.reconnectGraceMs
      && !(a.nextReconnectAt != 0 && clock < a.nextReconnectAt)
    }

    /** `reconnectTick`, for one session. */
    method ReconnectOne(id: nat)
      requires Valid() && id in attempts
      modifies `attempts, `trace, `retries
      ensures Valid()
      ensures var a := old(attempts[id]);
              var due :=
                && !a.disposed && a.hadSession && a.status in {Disconnected, Failed} && a.client.Some? && a.loginDetails.Some?
                && !a.guardWaiting && !a.reconnectBlocked
                && a.disconnectedSince != 0 && clock >= a.disconnectedSince + timing.reconnectGraceMs
                && (a.nextReconnectAt == 0 || clock >= a.nextReconnectAt);
              if !due then trace == old(trace) && attempts == old(attempts) && retries == old(retries)
              else if a.reconnectAttempts < timing.reconnectMaxAttempts then
                && trace == old(trace) + [Retried(id, clock)] && RetryQueued(a, id, old(retries), retries)
                && id in attempts && attempts == old(attempts)[id := attempts[id]]
                && RetryMakes(a.(reconnectAttempts := a.reconnectAttempts + 1, nextReconnectAt := clock + Backoff(timing, a.reconnectAttempts),
                                 loginRetries := 0), attempts[id])
              else
                && trace == old(trace) && retries == old(retries)
                && attempts == old(attempts)[id := if a.reconnectGaveUp then a else a.(reconnectGaveUp := true, reconnectBlocked := true)]
    {
      var a := attempts[id];
      if !RetryDue(a) {
        return;
      }
      if a.reconnectAttempts >= timing.reconnectMaxAttempts {
        if !a.reconnectGaveUp {
          Set(id, a.(reconnectGaveUp := true, reconnectBlocked := true));
        }
        return;
      }
      Note(id, Reconnecting(timing, a, clock), Retried(id, clock));
      RetryLogon(id);
    }

    method ReconnectTick()
      requires Valid()
      modifies `attempts, `trace, `retries
      ensures Valid() && attempts.Keys == old(attempts.Keys) && old(trace) <= trace
    {
      var rest := attempts.Keys;
      while rest != {}
        invariant Valid() && attempts.Keys == old(attempts.Keys) && rest <= attempts.Keys && old(trace) <= trace
        decreases rest
      {
        var id :| id in rest;
        ReconnectOne(id);
        rest := rest - {id};
      }
    }

    // ----- Events of the clients -----

    /** A code is needed. One made from the shared secret is handed in at once; making it may fail. */
    method OnSteamGuard(id: nat, byMail: bool, made: bool)
      requires Valid() && id in attempts
      modifies `attempts, `trace
      ensures Valid()
      ensures if !byMail && old(attempts[id]).sharedSecret != "" && made then attempts == old(attempts) && trace == old(trace)
              else
                && attempts == old(attempts)[id := old(attempts[id]).(guardWaiting := true, status := GuardRequired, watchdog := false)]
                && trace == old(trace) + [Revived(id)]
    {
      var a := attempts[id];
      if !byMail && a.sharedSecret != "" {
        if made {
          return;
        }
      }
      Note(id, a.(watchdog := false, status := GuardRequired, guardWaiting := true), Revived(id));
    }

    method OnLoggedOn(id: nat)
      requires Valid() && id in attempts
      modifies `attempts, `trace
      ensures Valid() && trace == old(trace) + [Revived(id)] && attempts == old(attempts)[id := old(attempts[id]).(status := SignedOn)]
    {
      Note(id, attempts[id].(status := SignedOn), Revived(id));
    }

    method OnRefreshToken(id: nat, token: string)
      requires Valid() && id in attempts
      modifies `attempts
      ensures Valid() && attempts == old(attempts)[id := old(attempts[id]).(refreshToken := token)]
    {
      Set(id, attempts[id].(refreshToken := token));
    }

    method OnWebSession(id: nat)
      requires Valid() && id in attempts
      modifies `attempts, `trace
      ensures Valid() && trace == old(trace) + [Online(id)]
      ensures attempts == old(attempts)[id := old(attempts[id]).(
                status := InWebSession, hadSession := true, watchdog := false, loginRetries := 0, disconnectedSince := 0,
                reconnectAttempts := 0, nextReconnectAt := 0, reconnectBlocked := false, reconnectGaveUp := false)]
    {
      Note(id, NowOnline(attempts[id]), Online(id));
    }

    predicate IsFatal(eresult: Option<int>) { eresult.Some? && eresult.value in fatal }

    /** `markAttemptDisconnected`, with the status it comes with. */
    method MarkDown(id: nat, status: Status, isFatal: bool)
      requires Valid() && id in attempts && attempts[id].status != SignedOut && status != SignedOut
      modifies `attempts, `trace
      ensures Valid() && trace == old(trace) + [Down(id, clock, isFatal)]
      ensures attempts == old(attempts)[id := MarkedDown(old(attempts[id]), status, clock, isFatal)]
    {
      Note(id, MarkedDown(attempts[id], status, clock, isFatal), Down(id, clock, isFatal));
    }

    method OnDisconnected(id: nat, eresult: Option<int>)
      requires Valid() && id in attempts
      modifies `attempts, `trace
      ensures Valid()
      ensures if old(attempts[id]).status != SignedOut && !old(attempts[id]).disposed then
                && trace == old(trace) + [Down(id, clock, eresult.Some? && eresult.value in fatal)]
                && id in attempts && attempts == old(attempts)[id := attempts[id]] && attempts[id].watchdog == old(attempts[id]).watchdog
                && WentDown(old(attempts[id]), attempts[id], Disconnected, clock, eresult.Some? && eresult.value in fatal)
              else trace == old(trace) && attempts == old(attempts)
    {
      if attempts[id].status != SignedOut && !attempts[id].disposed {
        MarkDown(id, Disconnected, IsFatal(eresult));
      }
    }

    /** An attempt with the refresh token failed, and there is a password. */
    method FallBack(id: nat)
      requires Valid() && InTable(id) && attempts[id].status == Connecting && attempts[id].passwordFallback.Some?
      modifies `attempts, `trace, `retries
      ensures Valid() && trace == old(trace) + [FellBack(id)]
      ensures id in attempts && attempts == old(attempts)[id := attempts[id]] && FellBackTo(old(attempts[id]), attempts[id])
      ensures FallbackQueued(old(attempts[id]), id, old(retries), retries)
    {
      ghost var before, a, queued := attempts, attempts[id], retries;
      Note(id, BackToPassword(attempts[id]), FellBack(id));
      RetryLogon(id);
      FallingBack(a, attempts[id], id, queued, retries);
      SetTwice(before, id, BackToPassword(a), attempts[id]);
    }

    /** The session failed for good, whatever state it was in. */
    method Fail(id: nat, isFatal: bool)
      requires Valid() && InTable(id)
      modifies `attempts, `trace
      ensures Valid() && trace == old(trace) + [Revived(id)] + [Down(id, clock, isFatal)]
      ensures attempts == old(attempts)[id := MarkedDown(old(attempts[id]).(watchdog := false), Failed, clock, isFatal)]
    {
      ghost var before := attempts;
      var a := attempts[id].(watchdog := false);
      Note(id, a.(status := Failed), Revived(id));
      MarkDown(id, Failed, isFatal);
      DownWhatever(a, Failed, clock, isFatal);
      SetTwice(before, id, a.(status := Failed), MarkedDown(a, Failed, clock, isFatal));
    }

    /** The refresh token may be to blame, and there is a password: not so when the account itself is the matter. */
    predicate FallsBack(a: Attempt, eresult: Option<int>) {
      && a.status == Connecting && a.loginDetails.Some? && a.loginDetails.value.refreshToken != "" && a.passwordFallback.Some?
      && !(IsFatal(eresult) && eresult != Some(INVALID_PASSWORD))
    }

    /** A definite error; one that only the refresh token is to blame for sends the session back to the password. */
    method OnError(id: nat, eresult: Option<int>)
      requires Valid() && id in attempts
      modifies `attempts, `trace, `retries
      ensures Valid()
      ensures var a := old(attempts[id]);
              if a.disposed then trace == old(trace) && attempts == old(attempts)[id := a.(watchdog := false)]
              else if a.status == Connecting && a.loginDetails.Some? && a.loginDetails.value.refreshToken != "" && a.passwordFallback.Some?
                      && (eresult == None || eresult.value !in fatal || eresult.value == 5) then
                && trace == old(trace) + [FellBack(id)]
                && id in attempts && attempts == old(attempts)[id := attempts[id]] && FellBackTo(a, attempts[id])
                && FallbackQueued(a, id, old(retries), retries)
              else
                && trace == old(trace) + [Revived(id)] + [Down(id, clock, eresult.Some? && eresult.value in fatal)] && retries == old(retries)
                && id in attempts && attempts == old(attempts)[id := attempts[id]]
                && WentDown(a, attempts[id], Failed, clock, eresult.Some? && eresult.value in fatal) && !attempts[id].watchdog
    {
      var a := attempts[id];
      if a.disposed {
        Set(id, a.(watchdog := false));
      } else if FallsBack(a, eresult) {
        FallBack(id);
      } else {
        Fail(id, IsFatal(eresult));
      }
    }

    /** The grace period of a session down since then, and the wait after its last retry, are over. */
    predicate TimeIsUp(a: Attempt, since: int, now: int) {
      now - since >= timing.reconnectGraceMs && (a.nextReconnectAt == 0 || now >= a.nextReconnectAt)
    }

    /**
     * A client that fails after the user logged its session out, and the reconnect watch some time later: the session
     * is logged on again exactly if it was online once and the failure, like the rest, does not forbid it.
     */
    method FailAfterLogout(id: nat, eresult: Option<int>, time: nat) returns (comesBack: bool)
      requires Valid() && InTable(id) && attempts[id].status == SignedOut
      modifies `attempts, `trace, `retries, `clock
      ensures Valid() && clock == old(clock) + time
      ensures trace == old(trace) + [Revived(id)] + [Down(id, old(clock), IsFatal(eresult))] + if comesBack then [Retried(id, clock)] else []
      ensures var a := old(attempts[id]);
              comesBack <==>
                && a.hadSession && a.client.Some? && a.loginDetails.Some?
                && !a.guardWaiting && !a.reconnectBlocked && !IsFatal(eresult) && a.reconnectAttempts < timing.reconnectMaxAttempts
                && TimeIsUp(a, if a.disconnectedSince == 0 then old(clock) else a.disconnectedSince, clock)
      ensures if comesBack then RetryQueued(old(attempts[id]), id, old(retries), retries) else retries == old(retries)
    {
      OnError(id, eresult);
      Advance(time);
      comesBack := RetryDue(attempts[id]) && attempts[id].reconnectAttempts < timing.reconnectMaxAttempts;
      ReconnectOne(id);
    }

    /**
     * From the web session to the logout, the failure and the next look of the reconnect watch: only a fatal result, or
     * a code asked for, keeps a session that has its client and its details from being logged on again.
     */
    method LogoutUndone(id: nat, eresult: Option<int>, time: nat) returns (comesBack: bool)
      requires Valid() && InTable(id)
      modifies `attempts, `trace, `retries, `clock
      ensures Valid() && clock == old(clock) + time
      ensures trace == old(trace) + [Online(id)] + [LoggedOut(id)] + [Revived(id)] + [Down(id, old(clock), IsFatal(eresult))]
                     + if comesBack then [Retried(id, clock)] else []
      ensures var a := old(attempts[id]);
              comesBack <==>
                && a.client.Some? && a.loginDetails.Some? && !a.guardWaiting && !IsFatal(eresult)
                && 0 < timing.reconnectMaxAttempts && time >= timing.reconnectGraceMs
    {
      OnWebSession(id);
      Logout(id);
      comesBack := FailAfterLogout(id, eresult, time);
    }

    // ----- Whole runs -----

    method Advance(time: nat)
      requires Valid()
      modifies `clock
      ensures Valid() && clock == old(clock) + time
    {
      clock := clock + time;
    }

    /** One thing that happens; what no session or timer is there for does not. */
    method Handle(event: Event)
      requires Valid()
      modifies this
      ensures Valid() && old(trace) <= trace
    {
      match event
      case SignIn(name, secret, token, password) =>
        var id := CreateAttempt(name, secret);
        StartPreferredLogon(id, token, password);
      case Restore(name, secret, token, password) =>
        RestoreOne(name, secret, token, password);
      case Remove(names, ids) =>
        RemoveAccounts(names, ids);
      case Tick =>
        ReconnectTick();
      case TurnComes(k, granted) =>
        if k < |queue| { LetThrough(k, granted); }
      case DelayOver(k) =>
        if k < |retries| { RetryDelayOver(k); }
      case About(id, what) =>
        if id in attempts { HandleAbout(id, what); }
    }

    method HandleAbout(id: nat, event: SessionEvent)
      requires Valid() && id in attempts
      modifies this
      ensures Valid() && old(trace) <= trace
    {
      match event
      case WatchdogRings =>
        if attempts[id].watchdog { WatchdogFires(id); }
      case CodeGiven => SubmitGuardCode(id);
      case LogoutAsked => Logout(id);
      case GuardAsked(byMail, made) => OnSteamGuard(id, byMail, made);
      case ClientLoggedOn => OnLoggedOn(id);
      case TokenCame(token) => OnRefreshToken(id, token);
      case WebSessionCame => OnWebSession(id);
      case ClientDisconnected(eresult) => OnDisconnected(id, eresult);
      case ClientFailed(eresult) => OnError(id, eresult);
    }

    /** Any events in any order at any times: the trace is well behaved, and there is one live session per account. */
    method Run(events: seq<(nat, Event)>)
      requires Valid()
      modifies this
      ensures Valid() && old(trace) <= trace && WellBehaved(timing, fold, trace)
      ensures forall a, b :: InTable(a) && InTable(b) && a != b ==> !SameAccount(fold, attempts[a].accountName, attempts[b].accountName)
    {
      for i := 0 to |events|
        invariant Valid() && old(trace) <= trace
      {
        Advance(events[i].0);
        Handle(events[i].1);
      }
      forall a, b | InTable(a) && InTable(b) && a != b ensures !SameAccount(fold, attempts[a].accountName, attempts[b].accountName) {
        assert FitsAt(timing, attempts, trace, a) && FitsAt(timing, attempts, trace, b);
        OneLivePerAccount(timing, fold, trace, |trace|, a, b);
      }
    }
  }
}
