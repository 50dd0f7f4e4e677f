# Verified models of the server's stateful cores

This project models, in Dafny 4.11, the parts of the server that keep state under uncertainty or carry an algorithm of
their own, and proves what they promise. `dafny verify dfyconfig.toml` checks all of it.

| files | what they model |
|---|---|
| `C5Picking`, `C5Ledger`, `C5World`, `C5Booking`, `C5Caps`, `C5Visits`, `C5Sweeper`, `C5Reconcile`, `C5Service` | automatic buying on C5: which items are bought; a purchase is written down as unknown, sent, and settled by the answer or, later, by reconciliation; caps on number and money; the run state around it |
| `LoginLimiter`, `SlidingWindow` | at most so many logins per proxy and minute: the queue, the log of starts, the wake-up timer, the estimate |
| `SessionManager`, `SessionTrace` | Steam sessions: logons, waiting logons with tickets, the login watchdog, the reconnect watch |
| `ProxyPool`, `ProxyConfig` | which proxy an account uses, how exits are shared out, the migration of the old configuration |
| `Transactions` | nested transactions over savepoints, and the schema migrations |
| `Scanners`, `Prefabs`, `WireFormat` | the KeyValues text scanners, item definitions built from prefabs, and the hand-written protobuf readers |
| `Lockout`, `BalanceClamp`, `WorkerPool` | the password lockout, the cart cut to the balance, the bounded worker pool |
| `Prelude` | options, sums over maps, a few facts about sets and sequences |

## How the source is rendered

Objects whose fields the source updates are classes with those fields (`Limiter`, `Guard`, `Store`, `Sweeper`,
`Service`, `Manager`, `Connection`, `Pool`, `TaskAccount`); loops stay loops and are proved against functions, whose
properties are lemmas. Runs are methods that take any list of events and keep an invariant. Times are integers in
milliseconds, handed in by the caller or read from a clock that never goes back. Money is `real`, and the tolerance of
0.000001 is kept. Random choices, and answers of parties outside the program, may be any value of their type.

### Buying on C5

`C5World.Platform` stands for the trading platform, the network and the process that runs the program. It is given an
arbitrary behaviour, and asked only to be honest (`C5World.Behaviour.Honest`):

- an order in effect keeps its price, and a cancelled one stays cancelled;
- only what was sent can take effect, at once or any time later, at no more than the price offered;
- a plain refusal means that nothing of the request takes effect; a lost or broken answer means nothing at all;
- what an answer lists as failed, or a quick purchase with pay status 2, does not take effect; what it names as paid is
  not above the offer, and is the most the order costs;
- "no such order", about a number made more than 120 s ago, and the two cancelled states are the truth.

Such platforms exist: one that never answers is honest (`C5World.SilenceIsHonest`).

What a cycle is told and what it asks for is noted in a log: prices, the balance, whether to go on, searches and orders.
An item is searched for or ordered exactly if its lowest price is above 0 and at most its target price, number and money
are left, and its name is not paused; nothing is asked for at more than the target price
(`C5Sweeper.Sweeper.RunCycle`, `C5Visits.RoundIsJustified`).

Before every write and every request the process may die. An outcome `Aborted` stands for that and for an exception
that leaves the sweeper; a step is cut short exactly if it met with such a trouble, and at the first one
(`C5Sweeper.Sweeper.Troubles`). Main results: the ledger covers the world after every such run, so nothing is bought or spent
that it does not count (`C5World.RealWithinCounted`, `C5Sweeper.Serve`); what a sweep reports is exactly what the ledger
counts more (`C5Sweeper.Sweeper.BatchBuy`, `SweepListing`, `SweepQuick`); the caps per item, per cycle and in total
hold across any number of cycles, interruptions and restarts, overrun by one EPS at most (`C5Sweeper.Sweeper.RunCycle`,
`C5Sweeper.Serve`).

### Steam sessions

`SessionTrace` says what an entry in the trace of a run needs of the past (`Allowed`), and derives what holds over whole
traces. `SessionManager.Manager` notes every step, and every method keeps the trace well behaved.

## Where the code and its comments part

- `src/c5/sweeper.ts:354` says that no order starves. That holds as long as few orders are added
  (`C5Reconcile.NobodyStarves`), and exactly the first three due orders are asked about (`C5Reconcile.AskedExactly`); three
  never-checked orders that are due in every cycle keep all others waiting (`C5Reconcile.NewOrdersGoFirst`).
- `src/terminal/protocol.ts:293-296` says that a truncated message yields what was read so far. It does, and nothing
  else, exactly if the cut lies between two fields or beyond the 24 fields shown (`WireFormat.TruncationUnnoticed`).
  Otherwise there is one entry more, of the kind of the field cut, with as much of its numbers as is there
  (`WireFormat.TruncatedWalk`): of field 1 = 150 cut after two bytes, 22 (`WireFormat.TruncatedMessagesShowPhantoms`).
- The migration of the proxies keeps every account's proxy exactly if no address is named only by entries that a later
  entry for the same lower-cased name overrides (`ProxyConfig.MigrationKeepsRoutes`); otherwise such an address joins the
  common pool (`ProxyConfig.StrayJoinsPool`). The entries `Bob`, with a proxy of its own, and `bob`, set to go direct, give
  that proxy to every account the old configuration did not mention (`ProxyConfig.SpellingsLoseAProxy`).
- The clamped cart is within the balance exactly if the balance rounds to no less than 0 cents
  (`BalanceClamp.ClampedFitsUnlessInDebt`). In `runAccount` prices are positive, so nothing is left of the cart then and
  the later check on the balance is never reached.
- Migrations stopped by a crash and run again end as they would have ended without, on every database and from every
  stop, exactly if the first of the migrations that share a version number always fails
  (`Transactions.ResumableLists`); otherwise there is a database on which the uninterrupted run fails and the resumed one
  completes (`Transactions.NotResumedBehind`). The versions in `src/store/schema.ts`, 1 to 5, are distinct.
- Prefabs are merged one on top of the other. The grouping is free exactly if nowhere the middle one has a text where the
  last has a section (`Prefabs.GroupingIsFree`).
- A session the user logged out is not logged on again by timers or waiting logons
  (`SessionTrace.LoggedOutStays`), unless its client shows a sign of life first, or the user hands in the guard code it
  still waits for (`src/steam/session-manager.ts:612-621`). An `error` event is a sign of life: it sets the state
  to failed without looking at the logout (`src/steam/session-manager.ts:925-951`). Unless its result is fatal, the
  reconnect watch then logs on a session that was online once, after the grace period and while it has attempts left
  (`SessionManager.Manager.FailAfterLogout`, `SessionManager.Manager.LogoutUndone`).

## Model

| member | source | states |
|---|---|---|
| C5Picking.GreedyIsLargest | src/c5/sweeper.ts:79-102 | no choice of eligible listings within the same number and budget has more elements than the one made |
| C5Picking.GreedyIsAffordable | src/c5/sweeper.ts:79-102 | the choice is among the listings, eligible, within the number and, up to EPS, the budget |
| C5Picking.PickListings | src/c5/sweeper.ts:78-102 | the sorting loop returns a best choice: affordable, and one of the largest there are |
| C5Ledger.OneRowMoves | src/store/c5.ts:68-71 | setting one row moves number and cost by that row's own change, for every name and for all names together |
| C5Ledger.Store.AddPurchase | src/store/c5.ts:211-213 | a new row with the defaults of the table, refused for a number already taken |
| C5Ledger.Store.UpdatePurchase | src/store/c5.ts:214-226 | changes exactly the fields named, of exactly the row named |
| C5Ledger.Store.Totals | src/store/c5.ts:235-242 | by name, number and cost of the rows that are ok or unknown; together they are everything spent |
| C5Ledger.Store.ProductIds | src/store/c5.ts:243-245 | exactly the non-empty listing ids of the rows that count |
| C5World.RealWithinCounted | src/c5/sweeper.ts:234-405 | while the ledger covers the world, the orders in effect and not cancelled are no more, and cost no more, than it counts, by name and overall |
| C5World.SoundStep | src/c5/sweeper.ts:240-246 | whatever the platform does, at once or late, with orders written down beforehand leaves the ledger covering the world |
| C5World.SoundPut | src/c5/sweeper.ts:264-287 | a row may be settled if its order is settled, or costs no more than the row still counts |
| C5Sweeper.Sweeper.WriteDown | src/c5/sweeper.ts:237-241 | an order is in the ledger as unknown, under a new number, before it is sent |
| C5Sweeper.Sweeper.WriteDownAll | src/c5/sweeper.ts:236-241 | all picks are written down, or as many as there was time for; the counts grow by exactly their number and price |
| C5Booking.SuccessTaken | src/c5/sweeper.ts:264-276 | a listed success counts with what was paid, at most the offer, and the ledger still covers the world |
| C5Booking.FailureTaken | src/c5/sweeper.ts:277-287 | a listed failure counts no more, and the ledger still covers the world |
| C5Booking.AllAsTold | src/c5/sweeper.ts:262-293 | after the answer every order sent is ok, failed or unknown as it says; a success outweighs a failure, an order not mentioned stays unknown |
| C5Sweeper.Sweeper.SettleReceipt | src/c5/sweeper.ts:262-293 | number and cost reported are what the ledger counts more than before the batch; exactly the listings of the failed orders are left alone for another minute |
| C5Sweeper.Sweeper.WithdrawAll | src/c5/sweeper.ts:252-258 | after a refusal no order of the batch counts |
| C5Booking.CountUnmentioned | src/c5/sweeper.ts:288-292 | orders not mentioned add their number and offered price to the report |
| C5Sweeper.Sweeper.BatchBuy | src/c5/sweeper.ts:234-294 | reports exactly the growth of the counts under its name; none elsewhere, no older row touched, at most the picks and their price, also when cut short; the ledger covers the world |
| C5Sweeper.Sweeper.SweepListing | src/c5/sweeper.ts:208-232 | the same, within the number and, up to EPS, the money it was given; looked for up to the target price, and, unless stopped, of the listings found one of the largest affordable choices is ordered, none above the target price, none with an order that counts, and none that could not be bought a moment ago |
| C5Booking.PicksAreNew | src/c5/sweeper.ts:222-227 | rows written for picks that skip the listings ordered before are for other listings than those |
| C5Sweeper.Sweeper.SendQuick | src/c5/sweeper.ts:304-310 | a quick purchase counts with the target price from before it is sent |
| C5Sweeper.Sweeper.WithdrawQuick | src/c5/sweeper.ts:316-328 | a refused or unpaid quick purchase counts no more, and the name pauses |
| C5Sweeper.Sweeper.AcceptQuick | src/c5/sweeper.ts:330-341 | a quick purchase counts with what was paid; it is ok only if the platform said paid, else unknown with its order number |
| C5Sweeper.Sweeper.SweepQuick | src/c5/sweeper.ts:298-344 | reports exactly the growth of the counts, within the number and, up to EPS, the money it was given; also when cut short. Ordered at the target price again and again, until number or money is used up, it is stopped, or an order is refused, unpaid or unanswered |
| C5Sweeper.Sweeper.RefreshOne | src/c5/sweeper.ts:362-405 | what each answer makes of the row, with the ids it gives, its check time moved in every case; the ledger still covers the world |
| C5Sweeper.ReconcileKeepsSound | src/c5/sweeper.ts:375-404 | releasing a row needs its order settled: cancelled, or unknown to the platform long enough without an order number |
| C5Sweeper.Sweeper.RefreshOrders | src/c5/sweeper.ts:349-360 | asks exactly about the selected rows; no count goes up |
| C5Caps.CycleStep | src/c5/sweeper.ts:182-201 | one item's turn keeps the caps of all items, the number per cycle and the total, the tolerance used once at most |
| C5Sweeper.Sweeper.SweepItems | src/c5/sweeper.ts:180-203 | however the loop ends, every item is within its caps or where it stood, other names are where they stood, the total within the budget and what the balance leaves but for the reserve. Turn by turn, an item is asked for only if it is at its price, has number and money left and is not paused, and then it is asked for unless the sweeping was stopped |
| C5Visits.RoundIsJustified | src/c5/sweeper.ts:171-197 | every search and every order of a cycle is for an item of the list whose lowest price is above 0 and at most its target price, with number and money left, not in its pause, by the strategy set, and at no more than the target price; an order is sent only right after the answer that buying may go on |
| C5Sweeper.Sweeper.RunCycle | src/c5/sweeper.ts:158-204 | the same for the whole cycle, from the prices told in it; a cycle that goes through gives every item its turn, unless nothing is left to buy; done without more exactly then, if no order awaits an answer; it is cut short exactly by the death of the process, an answer that stays out or a number drawn twice, and by the first of these; once the orders due are checked it is a turn of the reconciliation, also if the prices cannot be had or the buying is cut short; a refresh asked for reaches every order that counts and is not final, once |
| C5Sweeper.Serve | src/c5/sweeper.ts:158-405 | over any cycles, each on the list and settings saved by then, reconciliations and restarts: the ledger covers the world, what is really bought and spent stays within the largest caps used or what was counted to begin with, and every request ever sent is for an item watched, at no more than its target price |
| C5Reconcile.DueAfter | src/c5/sweeper.ts:351-353 | an open order is due 5 s after its last check while its fate is unknown, and 5 minutes after it once known, or at once when forced; a final one never is |
| C5Reconcile.AskedExactly | src/c5/sweeper.ts:351-355 | an order is asked about exactly if it is due and fewer due orders than the limit were checked longer ago, or as long ago and placed earlier |
| C5Reconcile.PassedOver | src/c5/sweeper.ts:351-355 | a due order is passed over only for as many others as the limit allows, all ranking before it |
| C5Reconcile.FrontShrinks | src/c5/sweeper.ts:349-405 | a cycle that passes a due order over takes three orders from before it; only new orders can get there |
| C5Reconcile.NobodyStarves | src/c5/sweeper.ts:349-405 | with r open orders ranking before it and n newly added, a due order is asked about within (r + n) / 3 + 1 cycles that get through the checks |
| C5Reconcile.NewOrdersGoFirst | src/c5/sweeper.ts:354 | three due orders never checked keep every order checked before waiting |
| C5Service.Service.Start | src/c5/index.ts:730-747 | sweeping goes on after a restart exactly if it was on, with a key, a receiver and a budget, and not from an old version |
| C5Service.Service.TimerRings | src/c5/index.ts:275-298 | a cycle joins the serial queue unless one is under way |
| C5Service.Service.CycleEnds | src/c5/index.ts:294-305 | the next cycle is due one interval after the start of this one, after failures in a row up to twenty |
| C5Service.PatienceGrows | src/c5/index.ts:301-304 | one interval without failures, doubled by each of the first four, and twenty from the fifth on |
| C5Service.Service.SetRun | src/c5/index.ts:518-535 | starting is refused without a key, a receiver or a budget |
| C5Service.Service.SaveSettings | src/c5/index.ts:459-507 | while sweeping, receiver and budget cannot be emptied unless the key is deleted, which stops it; a refusal changes nothing |
| C5Service.Serve | src/c5/index.ts:250-305 | in any order of events: never two cycles at once, never sweeping unfit, and while active a cycle is under way or the next is timed |
| LoginLimiter.RoomAppearsAt | src/proxy/login-limit.ts:63-66 | the start at which the timer looks is the one whose expiry makes room: before it there is none, from then on there is |
| LoginLimiter.AdmitInOrder | src/proxy/login-limit.ts:54-62 | those let through are the first of the queue, in order of arrival |
| LoginLimiter.AdmitSkipsCancelled | src/proxy/login-limit.ts:56-59 | exactly the waiters not cancelled are granted |
| LoginLimiter.AdmitLogsGrants | src/proxy/login-limit.ts:54-62 | only grants use up a start, each at the time of the grant |
| LoginLimiter.AdmitFillsUp | src/proxy/login-limit.ts:44-62 | who is left waiting waits because there is no room |
| LoginLimiter.AdmitKeepsSpacing | src/proxy/login-limit.ts:40-62 | any limit + 1 logins in a row span a window, whatever was pruned in between |
| LoginLimiter.Limiter.Pump | src/proxy/login-limit.ts:47-67 | lets through what there is room for and sets the timer to the first instant at which there is room for more |
| LoginLimiter.Limiter.Estimate | src/proxy/login-limit.ts:70-84 | computes the forecast for the position |
| LoginLimiter.ForecastStep | src/proxy/login-limit.ts:75-82 | one turn of the loop of the estimate is one place of the forecast |
| LoginLimiter.ForecastIgnoresExpired | src/proxy/login-limit.ts:73-82 | starts that have left the window do not matter to the forecast |
| LoginLimiter.AdmitHonoursPromises | src/proxy/login-limit.ts:46-103 | nobody is let through later than promised, cancellations or not |
| LoginLimiter.AdmitKeepsPromisesExactly | src/proxy/login-limit.ts:46-103 | without cancellations everybody is let through exactly when promised |
| LoginLimiter.Limiter.Acquire | src/proxy/login-limit.ts:90-103 | at once if nobody waits and there is room, else queued with the forecast as the wait |
| LoginLimiter.Limiter.Update | src/proxy/login-limit.ts:106-107 | a changed limit lets through by the new limit |
| LoginLimiter.Run | src/proxy/login-limit.ts:28-112 | over any arrivals, timers and limits up to a cap, no half-open window holds more logins than the cap, and none starts but when something happens |
| LoginLimiter.RunOnTime | src/proxy/login-limit.ts:69-103 | with a fixed limit and timers on time nobody is promised a time before the arrival or served later than promised, and without cancellations everybody exactly then |
| SessionTrace.OneLivePerAccount | src/steam/session-manager.ts:316-383 | at every moment of a run at most one live session per account name |
| SessionTrace.NoLogOnWhenGone | src/steam/session-manager.ts:434-509 | no logon is begun for a session disposed of |
| SessionTrace.NoLogOnWhenSuperseded | src/steam/session-manager.ts:427-454 | a logon asked for never begins once another was asked for |
| SessionTrace.ReconnectBudget | src/steam/session-manager.ts:720-760 | from one web session to the next at most the allowed number of retries, each at least the doubled, capped backoff after the last |
| SessionTrace.BackoffDoubles | src/steam/session-manager.ts:754 | the backoff starts at its base and doubles with each retry up to the cap |
| SessionTrace.GraceIsKept | src/steam/session-manager.ts:736-739 | before each retry the session went down at least the grace period ago and has not been online since |
| SessionTrace.FatalStops | src/steam/session-manager.ts:709-718 | after a fatal result no retry until the next web session |
| SessionTrace.WatchdogBudget | src/steam/session-manager.ts:526-545 | the login watchdog retries at most the allowed number of times until its count is renewed |
| SessionTrace.LoggedOutStays | src/steam/session-manager.ts:591-609 | a session logged out by the user is not logged on before its client shows a sign of life or a guard code is handed in |
| SessionManager.Manager.CreateAttempt | src/steam/session-manager.ts:331-383 | a fresh session; those of the same account left the table first |
| SessionManager.Manager.RemoveAccounts | src/steam/session-manager.ts:653-678 | exactly the sessions named by number or account leave the table |
| SessionManager.Manager.WhenLogonAllowed | src/steam/session-manager.ts:434-454 | refused, and then the session has failed and nothing is asked for; otherwise given the next ticket, and begun at once or queued under it |
| SessionManager.Manager.LetThrough | src/steam/session-manager.ts:440-453 | a waiting logon begins exactly if it was granted and is not stale, and then, unless the call throws, with the watchdog armed |
| SessionManager.Manager.RetryLogon | src/steam/session-manager.ts:559-610 | a retry is timed with the refresh token at hand, and the password it leaves out is kept to fall back on; without a token, with the details at hand; or the session fails for want of details or a client |
| SessionManager.Manager.RetryDelayOver | src/steam/session-manager.ts:591-609 | after the delay the logon is asked for with the details of the retry, unless the session is gone or logged out |
| SessionManager.RetryDetails | src/steam/session-manager.ts:559-574 | the refresh token at hand goes before the password |
| SessionManager.Manager.WatchdogFires | src/steam/session-manager.ts:528-543 | a stuck session is retried while it has retries left, the retry timed and counted, and fails after that |
| SessionManager.Manager.ReconnectOne | src/steam/session-manager.ts:722-759 | a retry is counted and timed exactly when it is due and within the budget; beyond it the way back is barred |
| SessionManager.Manager.OnWebSession | src/steam/session-manager.ts:879-906 | the session is online, and every count and bar starts afresh |
| SessionManager.Manager.OnDisconnected | src/steam/session-manager.ts:913-923 | down, for good if the result is fatal, unless logged out or disposed of |
| SessionManager.Manager.OnError | src/steam/session-manager.ts:925-951 | exactly when only the refresh token may be to blame it is forgotten, and the details kept to fall back on take its place and are retried with; else the session is down, for good if the result is fatal |
| SessionManager.Manager.RestoreOne | src/steam/session-manager.ts:979-1001 | nothing if the account is logging on or online already, or there is nothing to log on with; else one new session, logging on with the refresh token before the password, in place of those of the account |
| SessionManager.Manager.FailAfterLogout | src/steam/session-manager.ts:722-951 | after a logout and an error of the client, the reconnect watch logs on again exactly if the session was online once, neither a fatal result nor a code asked for stands against it, the waits are over, and attempts are left |
| SessionManager.Manager.LogoutUndone | src/steam/session-manager.ts:626-951 | from a web session over the logout and an error that is not fatal to the retry of the reconnect watch |
| SessionManager.Manager.Run | src/steam/session-manager.ts:225-1063 | any events in any order leave a well-behaved trace, and one live session per account |
| ProxyConfig.MigrateLegacyConfig | src/store/proxies.ts:248-279 | the loop over the old entries builds the migrated configuration |
| ProxyConfig.MigratedBindings | src/store/proxies.ts:254-277 | each account is bound as its last entry says: to one proxy of that address, to none, or not at all |
| ProxyConfig.MigrationKeepsRoutes | src/store/proxies.ts:247-279 | every account, in whatever group, keeps the proxy it had under the old format, exactly if every address named stays in force; it is then the global proxy itself or one made for the address |
| ProxyConfig.StrayJoinsPool | src/store/proxies.ts:254-277 | an address no longer in force gives some account without override, in any group, a proxy it did not have |
| ProxyConfig.SpellingsLoseAProxy | src/store/proxies.ts:254-277 | two spellings of one name, the second set to go direct: the first one's proxy goes to every account not mentioned |
| ProxyConfig.DistinctNamesStay | src/store/proxies.ts:254-255 | with names that differ beyond their case every address stays in force |
| ProxyConfig.CandidatesAre | src/proxy/index.ts:367-388 | for every configuration and account: direct exactly if set to, or if no proxy is bound to it and the pool is empty; refused exactly if proxies are bound to it, by id or by a group of its own or of its account group, and all are off, with their number; else exactly the bound ones that are on, or, with none bound, those of the pool |
| ProxyConfig.BoundUsesOne | src/proxy/index.ts:367-388 | an account bound to one enabled proxy gets that one and no other |
| ProxyPool.FreeIndex | src/proxy/index.ts:421-435 | with fewer indices taken than there are, the probe finds one nobody holds; falling through cannot happen |
| ProxyPool.LeastHeldIndex | src/proxy/index.ts:436-443 | otherwise an index held by the fewest |
| ProxyPool.PickSlot | src/proxy/index.ts:399-444 | a slot on a lightest good proxy, valid for it, free if one is free, else least held |
| ProxyPool.Service.Resolve | src/proxy/index.ts:447-462 | direct or refused as the configuration says, proxy by proxy; else a slot of a proxy open to the account, kept while it is; a new one is on a fit proxy if any is open, with the fewest accounts per exit |
| ProxyPool.Service.Save | src/proxy/index.ts:579-593 | exactly the slots on proxies still open to their accounts remain |
| ProxyPool.Service.DeleteProxies | src/proxy/index.ts:661-686 | exactly the proxies named leave the list and the bindings, a binding with nothing left goes, and exactly the slots still open to their accounts remain |
| ProxyPool.ProxiesDeletedRefers | src/proxy/index.ts:666-685 | bindings still refer only to what exists |
| ProxyPool.Service.DeleteGroup | src/proxy/index.ts:800-826 | exactly this group leaves the list, the proxies, the bindings and the account groups, what has nothing left goes, and exactly the slots still open to their accounts remain |
| ProxyPool.GroupDeletedRefers | src/proxy/index.ts:802-825 | bindings still refer only to what exists |
| ProxyPool.PickKeepsBalance | src/proxy/index.ts:411-414 | one more account on a lightest proxy keeps the accounts spread |
| ProxyPool.PickForAll | src/proxy/index.ts:399-444 | accounts picking in turn from a fixed list: no proxy carries more per exit than any other would with one less on it |
| ProxyPool.Service.DistributeProxies | src/proxy/index.ts:864-886 | refused without accounts or proxies or for an unknown proxy; else each account is bound to one of the selected proxies, those of all other accounts counted, none handed out ending more than one above another, and the new bindings saved |
| ProxyPool.NobodySharesNeedlessly | src/proxy/index.ts:863-886 | while a selected proxy is left without anybody, no account was given one that others are bound to |
| Transactions.Connection.Run | src/core/db.ts:41-56 | the savepoint stack gives the outcome and the database of the meaning "on a throw the entry state comes back", and the depth is restored; a crash leaves the durable state |
| Transactions.Connection.InTransaction | src/core/db.ts:41-56 | the same for one transaction, also when BEGIN or COMMIT fail |
| Transactions.Connection.Leave | src/core/db.ts:46-55 | the innermost mark is gone; the work is kept exactly if it completed |
| Transactions.SortsByVersion | src/core/db.ts:68 | the migrations in ascending order of version, none lost |
| Transactions.MigratesOnce | src/core/db.ts:64-79 | no version is applied twice, none is taken back, and on completion all are there |
| Transactions.ResumesWhereItStopped | src/core/db.ts:58-80 | started again after any number of them, the remaining migrations lead to the same result if no version just recorded comes again |
| Transactions.Migrate | src/core/db.ts:58-80 | the migrated database, and what was newly applied; after a crash no version is lost or twice, and where no repeated version starts what is left leads to the same result |
| Transactions.MigrateThroughCrashes | src/core/db.ts:58-80 | started again after crashes anywhere: no version is applied twice, and where no repeated version starts the result is that of an uninterrupted run |
| Transactions.ResumableLists | src/core/db.ts:68-76 | resuming gives the result of the uninterrupted run, from every stop on every database, exactly if the first migration of each repeated version always fails |
| Transactions.NotResumedBehind | src/core/db.ts:68-76 | otherwise, on some database, the uninterrupted run fails and the one stopped behind that migration completes when run again |
| WireFormat.VarintRoundTrip | src/terminal/protocol.ts:261-271 | the varint of any number, read where it stands, gives the number and the place behind it |
| WireFormat.Varint | src/terminal/protocol.ts:261-271 | the shifting loop computes the varint |
| WireFormat.PeekRoundTrip | src/terminal/protocol.ts:163-182 | field 1 as a varint at the front of an item gives its id |
| WireFormat.PeekEconItemId | src/terminal/protocol.ts:163-182 | the varint behind the first byte, or nothing if that byte is another |
| WireFormat.WalkRoundTrip | src/terminal/protocol.ts:258-297 | the walk over any encoded fields summarises the first of them, in order, up to the room there is, and never looks past the end |
| WireFormat.WalkProto | src/terminal/protocol.ts:258-297 | the loop computes the walk on any bytes; it looks at most one byte past the end, and that exactly when the walk comes to a field whose tag ends the message and announces a number or a length |
| WireFormat.OverrunReadsZero | src/terminal/protocol.ts:273-292 | a field whose tag ends the message is reported with the value 0, and ends the walk |
| WireFormat.EncodedNeverOverruns | src/terminal/protocol.ts:273-292 | that does not happen inside a message that was encoded whole |
| WireFormat.TruncatedWalk | src/terminal/protocol.ts:258-297 | of any message cut after any number of bytes: the fields that are whole, and one more if the cut goes through it and there is room, with the bits of its numbers that are there |
| WireFormat.TruncationUnnoticed | src/terminal/protocol.ts:293-296 | what was read until the cut is returned, and nothing else, exactly if the cut is between fields or out of reach |
| WireFormat.TruncatedMessagesShowPhantoms | src/terminal/protocol.ts:293-296 | cuts behind a tag, inside a value, inside the bytes of a field and inside a tag, and what is reported of them |
| Scanners.StripLineComments | src/items/schema.ts:854-878 | the loop cuts the line at the first comment outside strings |
| Scanners.CountBraceDelta | src/items/schema.ts:881-907 | the loop counts the braces outside strings |
| Scanners.PrintedIsBalanced | src/items/schema.ts:881-907 | that count is 0 for any printed values, whatever braces and quotes their texts hold |
| Scanners.ExtractQuotedStrings | src/items/schema.ts:910-941 | the loop collects the strings, escapes undone |
| Scanners.LineRoundTrip | src/items/schema.ts:853-941 | any texts printed in quotes and escaped, followed by any comment, are read back |
| Scanners.ExtractTopLevelSectionBlocks | src/items/schema.ts:324-378 | the search loop cuts out the blocks of the sections named |
| Scanners.DocumentRoundTrip | src/items/schema.ts:324-378 | from any printed document exactly the sections of the name, each as printed, in order |
| Scanners.BlocksAreBalanced | src/items/schema.ts:339-376 | in any text the blocks are disjoint, in order, and balanced in braces outside strings |
| Prefabs.MergedAt | src/items/schema.ts:425-439 | at every path the merged has what the second has; where that has nothing, nor a text on the way, what the first has |
| Prefabs.MergedTwice | src/items/schema.ts:425-439 | merging the same on top once more changes nothing |
| Prefabs.GroupingIsFree | src/items/schema.ts:425-439 | with any first, three are the same put together from the left as from the right, exactly if nowhere the middle has a text where the last has a section |
| Prefabs.GroupingShows | src/items/schema.ts:429-436 | otherwise there is a first for which they differ |
| Prefabs.ResolvePrefabs | src/items/schema.ts:410-423 | the loop and its calls of itself end on any prefabs, circles included, and build the definition that the next five rows describe |
| Prefabs.LastNameWins | src/items/schema.ts:413-421 | at every path the definition has what the prefab named last has; where that has nothing, nor a text on the way, what the prefabs it refers to give; and where those have nothing, what the names before give |
| Prefabs.PassedOver | src/items/schema.ts:414-416 | a name seen before, or without a prefab, changes nothing |
| Prefabs.TextsAreFromPrefabs | src/items/schema.ts:410-423 | every text of the definition is the text at the same path in a prefab come to on the walk |
| Prefabs.WalkFindsAll | src/items/schema.ts:409-423 | the walk comes to every prefab referred to, near or far |
| Prefabs.WalkFindsNoMore | src/items/schema.ts:409-423 | and to no other: any closed set with the names has all it comes to |
| Prefabs.OwnTextsWin | src/items/schema.ts:404 | texts of the item itself are never overridden, at any depth |
| Lockout.FailureExplained | src/core/auth.ts:169-190 | failures evaluated so far, across windows and locks, stay so far apart that no window holds more than twice the maximum less one |
| Lockout.FailureMirrored | src/core/auth.ts:170-183 | an entry forgotten by the table counts on as if it had never been forgotten |
| Lockout.NineAreEvaluated | src/core/auth.ts:155-183 | the bound is reached: nine failures of one address within a window |
| Lockout.Guard.LockedSeconds | src/core/auth.ts:163-167 | the seconds until both the lock of the address and the lock of all are over, rounded up |
| Lockout.Guard.RecordFailure | src/core/auth.ts:169-199 | one failure more for the address and for all; the table pruned when too large |
| Lockout.Guard.Attempt | src/core/auth.ts:263-324 | a locked request is turned away unevaluated; only a success that forgives wipes an address |
| Lockout.Run | src/core/auth.ts:150-209 | in any half-open window at most 9 evaluated failures of an address without a success, and at most 99 in all |
| BalanceClamp.QuantitiesAreGreatest | src/purchase/tasks.ts:131-157 | the quantities kept are the lexicographically greatest within requests, 9999 and the balance |
| BalanceClamp.KeptMatchesQuantities | src/purchase/tasks.ts:139-160 | the items kept are those with a quantity, and cost what the quantities cost, within the balance |
| BalanceClamp.KeptCounts | src/purchase/tasks.ts:139-159 | the units kept are those of the quantities, and there are some unless nothing is kept |
| BalanceClamp.RoundedToNearest | src/purchase/tasks.ts:137 | the balance counts in cents, rounded to the nearest, halves up |
| BalanceClamp.KeptTwice | src/purchase/tasks.ts:131-161 | clamping a clamped cart changes nothing |
| BalanceClamp.ClampedFitsUnlessInDebt | src/purchase/tasks.ts:137-160 | the clamped cart is within the rounded balance exactly if that is not negative |
| BalanceClamp.TaskAccount.ClampItemsToBalance | src/purchase/tasks.ts:132-161 | keeps those items and sums them up; without a known balance changes nothing |
| BalanceClamp.TaskAccount.PriceClampAndCheck | src/purchase/tasks.ts:393-421 | which answer is given, for every cart, price list and balance: with a known balance the check for insufficient balance never fails, and a cart that goes on is the clamped one and costs no more than it |
| WorkerPool.Pool.LookForWork | src/market/index.ts:47-50 | a lane takes the next index or finishes; no index is taken twice |
| WorkerPool.Pool.Settle | src/market/index.ts:50 | an answer is stored at the index it was asked for; a failure breaks its lane and no other |
| WorkerPool.InFlightAreWaiting | src/market/index.ts:47-52 | the calls in flight are as many as the lanes waiting for an answer |
| WorkerPool.RunWithConcurrency | src/market/index.ts:43-55 | in every interleaving the indices are worked in order, each at most once, never more at a time than the limit and than the items, or one; the results in list order exactly if the worker never fails, else the first failure to arrive; anything is left undone only if every lane failed, of which there are as many as the limit, or the items where these are fewer, and one at least |

## Left out

- Manual marking of a purchase (`src/c5/index.ts:701-715`): truthful only if the user is.
- Settings and watch list changed during a cycle, which reads some of them again: a cycle uses one list and one set of settings.
- `src/c5/client.ts`: its error classes are the assumptions on the platform; HTTP, cookies and JSON are not modelled.
- `parseListing`, `toNumber`, the grouping of price requests by app id, the view shown on the page: a listing, a price and a balance arrive parsed.
- Orders of a ledger by time: rows are kept in order of insertion, which is the same for a clock that never goes back.
- Starting a logon for a session that has left the table: the accounts module starts it right after creating the session (`src/accounts/index.ts:374-403`), and the model requires a live one.
- Aliasing of session objects: the sessions are values in a map by number, updated in place of the object.
- Session fields that do not bear on logging on (profile, wallet, inventory, cookies, the cookie refresh), `shutdown`, intents, and the delays of timers other than the reconnect waits: a timer may fire at any time.
- `runWithConcurrency` rejects at its first failure while other lanes go on; the model says what all of them have done in the end.
- Numbers above 2^53 in `walkProto`: field numbers and lengths pass through `Number`, which rounds them; the model is exact.
- Quantities that are not whole: `normalizeCartData` lets 1.5 pass (`src/purchase/tasks.ts:111`), and the clamp is modelled on whole ones.
- Addresses: URL parsing and templates; an address is a record, and parsing and lower-casing are arbitrary functions.
- `bindAccounts`, `bulk`, checks of proxies, account groups other than in resolving and deleting: they end in `save`.
- The name and category tables of the item schema.
- The bytes that `peekEconItemId` is given when they are no buffer.
- Floating-point rounding of money: reals do not round; cents are rounded where the source rounds them.
- Databases, encryption and password hashing: a table is a map or a sequence, a password is right or wrong.
