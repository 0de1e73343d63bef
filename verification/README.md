# Order pipeline of quanquant: a model and its laws

quanquant trades Taiwan index futures through a server that decides and a local agent that executes.
The server keeps orders, quota reservations and a command ledger; the agent keeps a durable buffer with
an outbox and its own ledger of executed commands; a WebSocket that may drop at any moment lies between
them. Reports come back at least once, through an inbox with quarantine and retry, into a position book
and a journal. Beside that stand the agent's fail-stop and child fencing, the candle pipeline, the
trading-day arithmetic and a rate limiter.

The project models that code as it is, branch by branch, and proves what it is for. Code that changes
rows or fields step by step is a class with methods, each proved equal to a function of the old state;
protocols are state machines over explicit state, and the laws are about every reachable state of every
run.

| files | what they hold |
|---|---|
| `Ledger`, `Server`, `LedgerSteps`, `LedgerStores` | the server's tables and every write to them, the server as a state machine, and the same writes in place |
| `Tables`, `Reservations`, `ReservationSteps`, `ExposureBound` | the exposure bound |
| `SingleFlight`, `Resolvers`, `Watchdogs`, `StatusGuard`, `Race` | settling commands: by quantity, by reports, in periodic rounds, past the status guard, and all at once |
| `Buffers`, `AgentRunners`, `AgentLink`, `Agreement`, `LinkSteps`, `Verdicts`, `LinkResults`, `LinkWindows`, `LinkServer` | the agent's buffer and runner, the protocol over a lossy link, and how the server's machine fits into it |
| `ChildRpc`, `Failstop`, `Health` | RPC pairing, fail-stop across generations, health epochs |
| `Positions`, `Inbox`, `InboxRefines`, `InboxWorkers` | the position book and the report pipeline |
| `Bucketing`, `Aggregation`, `Candles`, `Paging`, `CandleBuilders` | the candle pipeline |
| `TradingDays`, `RateLimit` | trading-day bounds, the token bucket |

## Where the code does not do what it says

Most of these are pairs of theorems: a concrete run or state that shows the failure, and the exact condition
under which the promise holds.

- The daily limit, twice. A risk check of an update commits its reservation before the ledger row is inserted
  (`src/quanquant/broker/risk.py:253-266`, `src/quanquant/broker/shioaji_adapter.py:988-1014`). Reservation
  ids come from the content, so a second attempt can rely on a reservation that a rejection of the first
  gives back in between. `LeakExceedsLimit`; exact: `GuardIsExact`, `AckIsExact`. And a route writes back the answer
  it is handed without looking at the row (`src/quanquant/web/routers/agent_ws.py:225-268`,
  `src/quanquant/broker/shioaji_adapter.py:766-779`), so a command rejected in a replay, its reservation given back,
  and then sent live all the same (next item) comes back to life. `WriteBackExceedsLimit`; exact:
  `WriteBackIsExact`; looking at the row's outcome first would do (`CheckedOutcomesKeepLimit`).
- Agreement of the two ledgers. A live send does not look at the row again
  (`src/quanquant/broker/agent_channel.py:209-224`), so a command a replay has already had rejected can still
  be executed. `LateSendDiverges`; exact: `LedgersAgree` and `GivenUpIsNeverExecuted` hold as long as such a
  send meets an agent that refuses the command, and `LateSendIsExact` is the converse.
- Scope. A live send labels a command with the account of the session, and an open cancel does not keep
  another account out (`src/quanquant/broker/repository.py:560-573`). `CancelReachesAnotherAccount`; exact:
  `ExecutedUnderOwnAccount`, with `LiveSendCrossesExactly` as the converse.
- The status guard. The route writes an accepted placement back past the guard
  (`src/quanquant/broker/repository.py:194-206`), over fills, cancellations, failures and lost tracks, and over
  the failed status of a rejected placement as well (`WriteBackExceedsLimit`). `FilledThenWrittenBack`; exact for
  any reports: `WriteBackUndoesReports`.
- The never-sent verdict changes orders of rows that are already resolved
  (`src/quanquant/broker/agent_commands.py:151-185`). `LiveOrderMarkedFailed`; exact for any reports: the order
  ends failed unless a fill or a cancellation came first (`LocalVerdictFailsLiveOrders`).
- The resolver by quantity presumes that nobody rewrites the order meanwhile; a late write-back of an
  update does. `LateWriteBackFoolsResolver`; exact: `BaselineIsExact`.
- An undecided ack, its read and its write apart, can overwrite the never-sent verdict given in between
  (`src/quanquant/broker/agent_commands.py:526-533`). `UndecidedAckOverwrites`; exact, over any
  interleaving: `Race.GivenUpIsOverwritten`, `Race.OneUndecidedAck`. No other verdict can be lost that way:
  `Race.VerdictIsFinal` covers every interleaving of acks and resolvers.
- Fail-stop. A request captures its generation in its own thread, after the latch has been looked at
  (`src/quanquant/agent/runner.py:257-262`), so it can reach the child of a later generation in a latched
  process. `OrphanCrossesGenerations`; exact: `LaterGenerationsExecuteExactly`. The window is narrow: a
  request still queued for a thread is cancelled with its session
  (`src/quanquant/agent/runner.py:814-819`), so it takes a thread that has started and has not yet read the
  generation.
- Convergence. A command resolved without an ack is never replayed, so its transport mark may stay empty
  for good; `OneSessionConverges` says which are acknowledged and that all are settled.
- Paging. Rows at the close minute belong to the last bucket
  (`src/quanquant/candles/bucketing.py:57-80`), which may then hold one row more than the fetch allows for.
  `CloseMinuteRowsShortenThePage`; exact: `PageIsExactly`, with `OneBucketPage` for fetches within one bucket. Rows as the builder stores them are never there.
- The number check that throws away replies carrying another number can never act: by then the pipe is
  poisoned (`src/quanquant/agent/runner.py:263-339`). `Live` counts the replies thrown away and proves that there are none.

## Premises

- Each SQL statement or transaction is one step; each direction of the WebSocket is a queue that a
  disconnect empties; either side may stop and restart at any step. One message is one step. The server drops
  what a replaced socket brings once it sees the newer generation (`src/quanquant/web/routers/agent_ws.py:138-144`),
  but an answer it was already working on when the socket was replaced is applied without another look. Since the
  queues are emptied, no such late answer of an old session is part of the runs.
- All `ok` answers to one command carry the same broker number, so the server's machine keeps the first it was told.
  Proved of the protocol: `OkAnswersAgree`.
- A native call and its record are two steps; a connection lost or a crash between them swallows the
  record (`src/quanquant/agent/runner.py:1077-1086`). Such calls are counted, and `CallsAreAccountedFor`
  bounds executions by them.
- A reply of the native side that is an explicit failure means that nothing happened at the broker.
- The daily limit does not change during a run, and hashes of different update contents differ.
- Money and prices are reals, moments and days integers, identifiers numbers.

## Model

| member | source | states |
|---|---|---|
| ExposureBound.ExposureNeverExceedsLimit | src/quanquant/broker/repository.py:865-980 | In every run of the server in which no update enters the ledger, and no answer is written back, on a reservation that was given back: at every point each order that has not failed is covered by its own reserved or confirmed quota, and the orders of one user, mode and trading day never add up to more than the limit |
| ExposureBound.CheckedOutcomesKeepLimit | src/quanquant/broker/shioaji_adapter.py:766-779 | The same in every run without a stale insert whose routes write back only over rows not settled as an error, a check the code does not make |
| ExposureBound.OutcomeSuffices | src/quanquant/broker/shioaji_adapter.py:766-779 | A row not settled as an error still has its reservation |
| ExposureBound.WriteBackIsExact | src/quanquant/broker/shioaji_adapter.py:766-779 | The premise is exact for write-backs: afterwards the order is within its confirmed quota if and only if its reservation had not been given back, and a placement whose reservation had been stands open with no quota held for it |
| ExposureBound.WriteBackExceedsLimit | src/quanquant/broker/shioaji_adapter.py:766-779 | A five-step run without any update, every other event within the premise, in which the write-back of a placement rejected before ends with fifteen lots against a limit of ten |
| ExposureBound.GuardIsExact | src/quanquant/broker/shioaji_adapter.py:968-1019 | It is exact for inserts: an update that is inserted and carried out at once leaves its order within confirmed quota if and only if its reservation had not been given back at the insert, or it never needed one |
| ExposureBound.AckIsExact | src/quanquant/broker/agent_commands.py:578-596 | At any later point too, in any state whose numbers and reservations are well formed: the first ok ack of an open update leaves its order within confirmed quota if and only if its reservation was still there or not needed when the ack came |
| ExposureBound.LeakExceedsLimit | src/quanquant/broker/shioaji_adapter.py:988-1014 | A nine-step run with content-derived reservation ids and a refused first attempt that violates the premise at an insert and ends with twelve lots against a limit of ten |
| ExposureBound.InvOverRun | src/quanquant/broker/repository.py:865-980 | The invariant tying reservations, orders, ledger rows and pending attempts holds at every point of every such run |
| ReservationSteps.StepKeeps | src/quanquant/broker/agent_commands.py:274-331 | Every event (decision, ack, timeout, never-sent verdict, query, report, and a write-back or an insert whose reservation was not given back) keeps that invariant, including that a resolved update never leaves its own reservation open |
| LedgerSteps.LedgerMoves | src/quanquant/broker/agent_commands.py:382-413 | No event rewrites a stored request or un-acknowledges it, and a resolved row keeps outcome, channel and result for ever |
| ReservationSteps.QuotasMove | src/quanquant/broker/repository.py:942-980 | Whatever happens, a reservation only ever moves once, out of reserved, and an order's confirmed quota never shrinks |
| ReservationSteps.AckKeeps | src/quanquant/broker/agent_commands.py:416-481 | Any ack for any command, from any user, found or not, keeps the exposure invariant |
| ReservationSteps.NeverSentKeeps | src/quanquant/broker/agent_commands.py:151-185 | The local never-sent verdict keeps it too, although it releases before it tries to resolve |
| ReservationSteps.QueryKeeps | src/quanquant/broker/agent_commands.py:707-789 | Resolving an update from any reported quantity keeps it |
| ReservationSteps.SpentKeeps | src/quanquant/broker/agent_commands.py:151-185 | Releasing the reservation of an already resolved update takes nothing from an update still in flight, even one that reuses the same id |
| ReservationSteps.ResolvedTogether | src/quanquant/broker/agent_commands.py:707-789 | An update is resolved only together with its reservation being settled one way or the other |
| Reservations.CollisionKeeps | src/quanquant/broker/shioaji_adapter.py:988-1014 | Giving back the reservation after a single-flight collision keeps the invariant, because the slot's holder is not using it |
| Reservations.PlaceChecked | src/quanquant/broker/risk.py:194-198 | A placement check either changes nothing or adds the order together with a reservation that covers it, and keeps the invariant |
| Reservations.UpdateCheckKeeps | src/quanquant/broker/risk.py:253-266 | An update check, reusing an old reservation of the same content or making a new one for the difference, keeps the invariant |
| Tables.HeldByOrdersWithinUsed | src/quanquant/broker/repository.py:1119-1127 | The quota held by distinct orders of one scope never exceeds the scope's used quota |
| Resolvers.QueryDecision | src/quanquant/broker/agent_commands.py:707-789 | Whatever the baseline, an update the broker carried out is never released; a decision by quantity leaves the order at the broker's quantity; a change of price alone is never decided by quantity; the terminal branch only confirms; with the old quantity as baseline every answer is decided |
| Resolvers.InFlightBaseline | src/quanquant/db/models.py:581-587 | Single flight: in every run, between two moments at which the same update is in flight its order's quantity is unchanged, unless an update of that order is written back in between |
| Resolvers.QueryResolverIsSound | src/quanquant/broker/agent_commands.py:707-789 | In every run without such a write-back in between, whatever reservations were found or lost: an update whose broker quantity is its target if it took effect and the old quantity otherwise is decided rightly whenever the resolver gets to run |
| Resolvers.BaselineIsExact | src/quanquant/broker/agent_commands.py:740-760 | For any current quantity of the order, that answer is sound if and only if the order still stands on the same side of the target as at the baseline, and on the baseline itself when the update did not take effect |
| Resolvers.LateWriteBackFoolsResolver | src/quanquant/broker/shioaji_adapter.py:1131-1137 | A concrete run in which an earlier update's route writes back late and a price change the broker never made is then confirmed by its quantity |
| Resolvers.InFlightKeepsQty | src/quanquant/db/models.py:581-587 | No other event of the server touches the quantity of an order with an update in flight |
| SingleFlight.ShapeOverRun | src/quanquant/db/models.py:581-587 | At every point of every run, write-backs of rejected commands included: clients and broker numbers are unique, an order has at most one placement and one open update, every command's order is there in its scope and under its number, and a placement's order has no number but the one its route was told, nothing being told before the first ack |
| SingleFlight.ShapeStep | src/quanquant/broker/agent_commands.py:416-481 | Every event keeps that, with no condition on quota or verdicts |
| Watchdogs.ReconcileUpdate | src/quanquant/broker/watchdog.py:266-283 | One open update in place: offline attempt first, the broker's quantity only if that left it open and the agent is there |
| Watchdogs.ReconcileCancels | src/quanquant/broker/watchdog.py:263-265 | The cancel pass over the whole list, with the number settled |
| Watchdogs.ReconcileUpdates | src/quanquant/broker/watchdog.py:266-285 | The update pass: one unanswered question leaves that command alone and the others still get their turn |
| Watchdogs.Reconcile | src/quanquant/broker/watchdog.py:241-290 | A whole round in place equals cancels first, then updates, with the total settled |
| Watchdogs.OfflineOnlyConfirms | src/quanquant/broker/watchdog.py:266-273 | Without a quantity the resolver either leaves everything as it is or confirms; it never releases and never rewrites an order |
| Watchdogs.TerminalComesFirst | src/quanquant/broker/watchdog.py:266-283 | A terminal order is settled conservatively even where the quantity would have decided; any other order is settled by the quantity |
| Watchdogs.OfflineRoundMovesNoOrder | src/quanquant/broker/watchdog.py:263-276 | While the agent is away a round rewrites no order, no verdict and, in its cancel pass, no reservation |
| Watchdogs.RoundKeepsReservations | src/quanquant/broker/watchdog.py:241-290 | A whole round, cancels and updates, keeps the exposure invariant in full, whatever the broker answers |
| StatusGuard.ReportsConverge | src/quanquant/broker/repository.py:60-87 | Live reports may come late, twice and in any order: the order ends at the furthest of them |
| StatusGuard.DeliveryOrderIsIrrelevant | src/quanquant/broker/repository.py:60-87 | Two deliveries of the same set of live reports leave the same status |
| StatusGuard.FinalStatusesAbsorb | src/quanquant/broker/repository.py:60-87 | Filled, cancelled and failed absorb any later reports |
| StatusGuard.DropsPassUnknown | src/quanquant/broker/repository.py:60-87 | Over any sequence of reports: where a live status has dropped to a lower one, the order was unknown somewhere in between |
| StatusGuard.UnknownLetsFall | src/quanquant/broker/repository.py:60-87 | And by way of unknown it can drop |
| StatusGuard.FirstAckIsSafe | src/quanquant/broker/repository.py:194-206 | The first ack of a placement always finds an order whose status the unguarded overwrite leaves as the guard would |
| StatusGuard.WriteBackUndoesReports | src/quanquant/broker/shioaji_adapter.py:766-779 | Any reports whatever reach an order at the broker: it stands as `Standing` says, the route's repeat of the write then shows it as submitted, and undoes them if and only if they did not leave it submitted (a final report; a fill since its track was last lost; a lost track not made good) |
| StatusGuard.StandsAt | src/quanquant/broker/repository.py:60-87 | Under the guard a submitted order stands at its first final report or else at the furthest report since its track was last lost, for any sequence of reports |
| StatusGuard.FirstFinalIsFirst | src/quanquant/broker/repository.py:60-87 | The first final report is the first filled, cancelled or failed in the sequence, and there is none only if none is in it |
| StatusGuard.SinceIsASuffix | src/quanquant/broker/repository.py:60-87 | The reports since the track was last lost are those after the last unknown one, or all of them |
| StatusGuard.PlacedReached | src/quanquant/broker/agent_commands.py:274-290 | The state the next two start from is reached from the empty tables by a placement and its ack |
| StatusGuard.FilledThenWrittenBack | src/quanquant/broker/shioaji_adapter.py:766-779 | A reachable state in which a filled order is shown as submitted again |
| StatusGuard.LocalVerdictFailsLiveOrders | src/quanquant/broker/agent_commands.py:151-185 | After any reports about an accepted placement, the never-sent verdict leaves its row alone and the order ends failed, if and only if the first final report is neither a fill nor a cancellation |
| StatusGuard.LiveOrderMarkedFailed | src/quanquant/broker/shioaji_adapter.py:644-684 | A reachable state in which a placement a replay delivered and the broker accepted is marked failed by its own route |
| StatusGuard.UndecidedAckOverwrites | src/quanquant/broker/agent_commands.py:526-533 | A concrete interleaving, from a reachable state, in which an undecided ack read before the never-sent verdict overwrites that verdict's outcome |
| Race.OneWinner | src/quanquant/broker/agent_commands.py:382-413 | For any team of acks, quantity resolvers and cancel resolvers on one command and any interleaving of their reads, transport writes and business writes: at most one wins, the row is resolved exactly when one has, and verdict, orders and quota are what that one would have left alone |
| Race.LosersTouchNothing | src/quanquant/broker/agent_commands.py:438-481 | Without a winner nothing is touched, but for the order of a placement whose ack said neither yes nor no |
| Race.VerdictIsFinal | src/quanquant/broker/agent_commands.py:382-413 | Once resolved, no later statement of anyone changes the verdict, the orders or the reservations |
| Race.SomebodyWins | src/quanquant/broker/agent_commands.py:360-370 | When all have finished and an ack of the owner took part, the transport write has happened and the row is resolved, unless the ack that got through said neither yes nor no |
| Race.GivenUpIsOverwritten | src/quanquant/broker/agent_commands.py:151-185 | The never-sent verdict given at any point of any such race: the row stays resolved locally, as an error unless an undecided ack that had read the row open before the verdict writes after it; one already past the transport write overwrites it as soon as it goes on |
| Race.OneUndecidedAck | src/quanquant/broker/agent_commands.py:526-533 | With one undecided ack and one verdict, the verdict is overwritten if and only if it falls after the read and before the last write of the ack |
| Race.BusinessIsSolo | src/quanquant/broker/agent_commands.py:502-610 | The one ack that passed the transport write writes exactly what it would have written had it run in one piece |
| Race.ResolveIsSolo | src/quanquant/broker/agent_commands.py:707-819 | A resolver that gets to write writes exactly what it would have written had it run in one piece, and otherwise nothing |
| LedgerStores.LedgerStore.MarkTransportAcked | src/quanquant/broker/agent_commands.py:360-370 | True for the first ack of a command only; nothing but the mark changes |
| LedgerStores.LedgerStore.CasResolve | src/quanquant/broker/agent_commands.py:382-413 | Writes a verdict on an unresolved row only, and says whether it did |
| LedgerStores.LedgerStore.ReserveQuota | src/quanquant/broker/repository.py:865-939 | Reuses a row of the same id if it is active, refuses one that was released, and otherwise adds one within the limit |
| LedgerStores.LedgerStore.SettleQuota | src/quanquant/broker/repository.py:942-980 | Moves a reserved row once; a row already moved stays |
| LedgerStores.LedgerStore.MarkOrderStatus | src/quanquant/broker/repository.py:235-246 | The new status under the guard, everything else unchanged |
| LedgerStores.LedgerStore.ApplyPlaceAck | src/quanquant/broker/agent_commands.py:274-290 | Number and status written past the guard, reservation confirmed |
| LedgerStores.LedgerStore.ApplyPlaceFailure | src/quanquant/broker/agent_commands.py:293-305 | Failing releases the reservation, unknown keeps it |
| LedgerStores.LedgerStore.ApplyUpdateAck | src/quanquant/broker/agent_commands.py:316-331 | New price and quantity on the order, the difference confirmed |
| LedgerStores.LedgerStore.ApplyEffects | src/quanquant/broker/agent_commands.py:484-610 | The winner's effects by kind of command and kind of answer |
| LedgerStores.LedgerStore.ApplyCommandAck | src/quanquant/broker/agent_commands.py:416-481 | The whole ack entry in place equals the table function the runs are built on: unknown command, foreign user, duplicate, late, refused by the unique broker number, accepted, rejected, undecided |
| LedgerStores.LedgerStore.MarkTimeoutObserved | src/quanquant/broker/agent_commands.py:126-148 | Takes effect only while no ack has arrived and no timeout was noted |
| LedgerStores.LedgerStore.ResolveNeverDispatched | src/quanquant/broker/agent_commands.py:151-185 | Effects first, then the resolve, which may lose |
| LedgerStores.LedgerStore.ResolveUpdateViaQueryQty | src/quanquant/broker/agent_commands.py:707-789 | In place equals the decision function the resolver theorems are about |
| LedgerStores.LedgerStore.ResolveCancelViaReport | src/quanquant/broker/agent_commands.py:792-819 | Resolves an open cancel as unknown exactly when its order is in a final status |
| LedgerStores.LedgerStore.CheckPlace | src/quanquant/broker/risk.py:159-219 | Quota and order in one transaction, or neither; a repeated request changes nothing |
| LedgerStores.LedgerStore.CheckUpdate | src/quanquant/broker/risk.py:221-279 | Reserves only the increase, and refuses without leaving anything behind |
| LedgerStores.LedgerStore.InsertUpdate | src/quanquant/broker/shioaji_adapter.py:988-1014 | The ledger row, or the cleanup after a taken slot that spares a reservation its holder uses |
| LinkResults.LedgersAgree | src/quanquant/agent/runner.py:1022-1089 | In every run with drops, duplicates, reconnects and restarts, for a command whose live sends after it was given up all met a refusing agent: resolved by ack as ok if and only if the agent's ledger holds a success; resolved by ack as error only with an explicit failure in the agent's ledger or no entry |
| LinkResults.GivenUpIsNeverExecuted | src/quanquant/agent/runner.py:1038-1069 | In such a run a command resolved by ack as error without an entry is never executed later, in any session or restart |
| LinkResults.RecordedRunsOnce | src/quanquant/agent/buffer.py:291-306 | In every run: once recorded a command never reaches the broker again and its stored answer never changes |
| LinkResults.CallsAreAccountedFor | src/quanquant/agent/runner.py:1071-1089 | In every run: native calls of a command number its ledger entry, the call under way, and the calls whose record a lost connection or crash swallowed; there are no others |
| LinkResults.OkAnswersAgree | src/quanquant/agent/buffer.py:291-306 | In every run all ok answers to one command, at whatever moments, are the same answer |
| LinkResults.OkAnswerMeetsOk | src/quanquant/web/routers/agent_ws.py:225-268 | In runs in which live sends of given-up commands met a refusing agent: once an ok answer is on its way, its row is not found resolved by ack as an error then or later, so that a route writes back over no rejection |
| LinkResults.ExecutedUnderOwnAccount | src/quanquant/agent/runner.py:1046-1054 | In every run: a command under way whose live sends all went into sessions of its account runs under that account |
| LinkResults.OpenRiskIsOwnAccount | src/quanquant/web/routers/agent_ws.py:353-391 | In every run the login guard alone sees to that for open placements and updates |
| LinkResults.ReplayStaysInScope | src/quanquant/broker/agent_commands.py:188-211 | A replay holds only this user's and account's commands that nobody has answered |
| LinkResults.NoReportIsLost | src/quanquant/agent/buffer.py:238-262 | In every run: a report whose append committed is at all times unsent in the outbox or committed in the server's inbox, under resends, lost acks, restarts and pruning |
| LinkResults.OneSessionConverges | src/quanquant/broker/agent_commands.py:253-266 | In every run, after one undisturbed session, every command of the user and account that was open at the login is acknowledged or was resolved by other means, and is resolved or honestly unknown |
| LinkResults.AckedIsDecided | src/quanquant/broker/agent_commands.py:416-481 | An acknowledged command is resolved or its outcome is unknown |
| LinkResults.AckedByAck | src/quanquant/db/models.py:577-580 | A row resolved by ack is always acknowledged |
| LinkResults.PendingOverSession | src/quanquant/agent/runner.py:934-956 | While a session lasts, the answer to a replayed command is always somewhere on its way until it is applied |
| LinkSteps.StepKeeps | src/quanquant/agent/runner.py:976-1089 | Every step of either side, of the wire, of crashes and restarts, any live send included, keeps the protocol's invariant |
| Verdicts.AgreementKeeps | src/quanquant/agent/runner.py:1022-1089 | Every step keeps the agreement of the two ledgers about a command, unless it is a live send of that command, already given up, to an agent that does not refuse it |
| Verdicts.HomeKeeps | src/quanquant/broker/agent_channel.py:245-292 | Every step keeps copies of a command in the session of its own account, unless it is a live send of that command into another |
| LinkWindows.LateSendIsExact | src/quanquant/broker/agent_channel.py:209-224 | The converse: a live send of a command already given up makes the ledgers diverge if and only if it is not of the harmless kind, the agent refusing the command |
| LinkWindows.LateSendDiverges | src/quanquant/broker/agent_channel.py:245-272 | A fifteen-step run that ends with error by ack on the server and success at the agent |
| LinkWindows.LiveSendCrossesExactly | src/quanquant/broker/agent_channel.py:245-292 | The converse: a live send that executes does so under the command's own account if and only if the session is of that account |
| LinkWindows.CancelReachesAnotherAccount | src/quanquant/broker/repository.py:560-573 | A run in which an open cancel, which does not keep the next account out, is executed under that account |
| LinkWindows.LostAnswerRunsTwice | src/quanquant/agent/runner.py:1077-1089 | The bound on native calls is reached: one swallowed record, two calls, in a run whose live sends are all harmless |
| LinkServer.ServerEventIsEnvWrite | src/quanquant/broker/agent_commands.py:126-185 | Every event of the server's state machine other than an ack is one of the writes the protocol runs allow |
| LinkServer.AckEventIsApply | src/quanquant/web/routers/agent_ws.py:194-268 | An ack event of the state machine is exactly what the protocol's server does with an uplink ack |
| Buffers.OpeningLosesNothing | src/quanquant/agent/buffer.py:100-128 | Opening refuses exactly the old-layout files with something left to send and never drops an unsent row or rewrites any |
| Buffers.OneStoredAnswer | src/quanquant/agent/buffer.py:273-316 | After any history a command has at most one answer waiting, it is the stored one, and the stored one is the first recorded |
| Buffers.RedeliveryQueuesTheAnswer | src/quanquant/agent/buffer.py:308-316 | After any history a redelivery leaves exactly one answer waiting |
| Buffers.QueuedFrom | src/quanquant/agent/buffer.py:251-257 | The queue is the unsent rows in id order, complete up to the page size |
| Buffers.DurableBuffer.AppendEvent | src/quanquant/agent/buffer.py:238-249 | A fresh id, never reused |
| Buffers.DurableBuffer.MarkEventSent | src/quanquant/agent/buffer.py:259-262 | Marks the row, or nothing if it is gone |
| Buffers.DurableBuffer.LookupCommand | src/quanquant/agent/buffer.py:264-271 | The stored answer, if any |
| Buffers.DurableBuffer.AppendAckIfAbsent | src/quanquant/agent/buffer.py:273-289 | Afterwards an answer to the command is waiting, the old one if there was one |
| Buffers.DurableBuffer.Record | src/quanquant/agent/buffer.py:291-306 | Ledger row and queued answer together, or neither when the command is known |
| Buffers.DurableBuffer.EnsureCmdAckPending | src/quanquant/agent/buffer.py:308-316 | Queues the stored answer unless it is waiting |
| Buffers.DurableBuffer.Prune | src/quanquant/agent/buffer.py:347-356 | Drops exactly the rows sent before the cutoff |
| AgentRunners.ReactionIsHandle | src/quanquant/agent/runner.py:976-1069 | What the runner does with one message is the agent step of the protocol runs |
| AgentRunners.StartsLatchedExactly | src/quanquant/agent/runner.py:570-602 | Over any sequence of processes, each with its recovery probe, any trips, reloads, child marks and file damage, and a crash: a process starts latched if and only if a sentinel has been written and no process since has recovered whole |
| AgentRunners.LatchedUntilRecovery | src/quanquant/agent/runner.py:671-738 | And such a process stays latched all its life, unless it is the one that recovers |
| AgentRunners.RunnerIsPair | src/quanquant/agent/runner.py:636-669 | Over any operations that leave the sentinel readable, latch, epoch, sentinel and stored epoch of the runner are those of the machine the health epochs are proved for |
| AgentRunners.AgentRunner.constructor | src/quanquant/agent/runner.py:523-568 | A new process starts from what the sentinel and the stored epoch say |
| AgentRunners.AgentRunner.LoadPersistedHealth | src/quanquant/agent/runner.py:570-602 | Latch and epoch from the sentinel and the stored epoch; an unreadable sentinel latches |
| AgentRunners.AgentRunner.TripLatch | src/quanquant/agent/runner.py:636-669 | Nothing at all for a replaced generation; otherwise latched, a new epoch and the sentinel |
| AgentRunners.AgentRunner.StartupRecoveryProbe | src/quanquant/agent/runner.py:671-738 | All the steps of the recovery or the latch stays |
| AgentRunners.AgentRunner.HealthFrame | src/quanquant/agent/runner.py:1096-1115 | A queued frame goes out exactly when its epoch is current, with the status of the moment |
| AgentRunners.AgentRunner.HandleDownlink | src/quanquant/agent/runner.py:1022-1069 | One message in place: buffer, answer on the spot, and whether the child is called |
| AgentRunners.AgentRunner.RecordAnswer | src/quanquant/agent/runner.py:1071-1089 | The child's answer, or a timeout in its place, recorded with its ack |
| ChildRpc.Live | src/quanquant/agent/runner.py:194-454 | Over any sequence of spawns, kills and calls with any delays, losses and captured generations: a returned value is the reply to that very request, by its number, its operation and the generation it was sent to; request numbers only grow; no request reaches a generation it was not meant for; no reply is thrown away by number; a trusted idle pipe is empty |
| ChildRpc.ChildHandle.Rpc | src/quanquant/agent/runner.py:263-347 | One exchange: reply of the right request and generation, or nothing and then a poisoned handle or an unsent request; a poisoned, replaced or missing child is refused without touching anything |
| ChildRpc.ChildHandle.Terminate | src/quanquant/agent/runner.py:381-454 | A stale generation is left alone; the handle goes only with a confirmed death |
| ChildRpc.ChildHandle.Poison | src/quanquant/agent/runner.py:341-347 | No later exchange will trust this pipe |
| ChildRpc.ChildHandle.Start | src/quanquant/agent/runner.py:194-255 | A new generation, and on success a trusted pipe that is empty |
| Failstop.TrippedChildNeverExecutes | src/quanquant/agent/native_runner.py:269-343 | Once a child's latch has tripped nothing executes in that generation, however long sentinel, notice and everything else take |
| Failstop.LaterGenerationsExecuteExactly | src/quanquant/agent/runner.py:257-262 | In every run, once the parent is latched, a later generation executes if and only if the step dispatches a request admitted before, whose thread read the generation only after the respawn, to a healthy child |
| Failstop.LatchedProcessStops | src/quanquant/agent/runner.py:1067-1069 | So where requests read the generation before the child they were admitted for is replaced, whatever still executes in a latched process belongs to the generation that was current |
| Failstop.LatchedProcessIsSilent | src/quanquant/agent/runner.py:1132-1212 | And nothing executes any more once that generation is replaced or its own child has tripped |
| Failstop.SentinelThenReload | src/quanquant/agent/runner.py:749-776 | A sentinel written at any time latches at any later reload |
| Failstop.OrphanCrossesGenerations | src/quanquant/agent/runner.py:257-262 | A run in which such a request does cross over |
| Failstop.OnRaw | src/quanquant/agent/native_runner.py:209-266 | The callback stores the event, or trips the latch before every fallback, the sentinel and the notice, in that order |
| Failstop.ChildFailstopLatch.Trip | src/quanquant/agent/native_runner.py:78-90 | Only the first trip of a child counts as a fault |
| Health.AdmissionIsARecentOk | src/quanquant/broker/agent_channel.py:98-193 | Orders are admitted if and only if the agent is attached, logged in, and an ok has been accepted since the last login, effective detach, lease expiry and accepted failstop |
| Health.StartIsOk | src/quanquant/agent/runner.py:523-568 | A new agent process with no frames out, latched or not, satisfies what the epoch result presumes |
| Health.ConfirmedIsARecentOk | src/quanquant/broker/agent_channel.py:168-193 | The confirmation flag is exactly that, and a standing confirmation rules out a failstop |
| Health.LatchIsFinalForAdmission | src/quanquant/agent/runner.py:1096-1115 | Once the server has accepted a frame composed after the agent latched, it admits nothing for the rest of that agent process, whatever old frames still arrive and however often the agent logs in again, even when the sentinel could not be written |
| Health.AgentChannel.AttachSocket | src/quanquant/broker/agent_channel.py:115-124 | A new generation; login and health are left as they were |
| Health.AgentChannel.DetachSocket | src/quanquant/broker/agent_channel.py:139-149 | Only the current generation can be detached |
| Health.AgentChannel.MarkLoggedIn | src/quanquant/broker/agent_channel.py:151-163 | Login resets the epoch and withdraws any confirmation |
| Health.AgentChannel.NoteHealth | src/quanquant/broker/agent_channel.py:168-184 | Accepts a frame exactly when its epoch is not behind |
| Health.AgentChannel.MarkLeaseExpired | src/quanquant/broker/agent_channel.py:186-193 | Withdraws the confirmation and nothing else |
| Positions.CashIsConserved | src/quanquant/broker/position_tracker.py:80-287 | At every point of every run of fills, with partial closes, averaging, over-sized covers and automatic fills: cash of the accepted fills after fees equals journal profit and loss plus signed notional and fees of what is open, and the signed lots equal the net position |
| Positions.FlatJournalIsCash | src/quanquant/broker/position_tracker.py:265-287 | When the book is flat, journal profit and loss is cash flow less fees and the lots cancel |
| Positions.ApplyConserves | src/quanquant/broker/position_tracker.py:80-99 | One accepted fill moves the worth of the book by its cash flow and the net by its signed lots |
| Positions.PnlIsCarry | src/quanquant/journal/pnl.py:9-21 | The averaged journal trade of a closed position is the exact difference of its notionals less its fees |
| Positions.RefusedExactly | src/quanquant/broker/position_tracker.py:101-170 | A fill is refused if and only if a real fill has no fee, there is nothing to cover, an automatic fill finds both sides open, or closing would give a journal trade negative fees |
| Positions.AverageIsExact | src/quanquant/broker/repository.py:209-232 | The running average of an order is the exact weighted average of all its fills |
| Positions.ReverseClose | src/quanquant/broker/position_tracker.py:208-263 | An over-sized cover splits quantity and fee between the closed and the opposite position without loss |
| Positions.PositionTracker.AddLots | src/quanquant/broker/position_tracker.py:172-206 | Opens or averages in |
| Positions.PositionTracker.CloseLots | src/quanquant/broker/position_tracker.py:208-287 | Closes, writes the journal trade on the last lot, turns the excess around; a refusal changes nothing |
| Positions.PositionTracker.Apply | src/quanquant/broker/position_tracker.py:80-170 | The whole entry in place equals the fill function the conservation laws are about; a refusal changes nothing |
| InboxRefines.WorkerRefinesFold | src/quanquant/broker/inbox_worker.py:393-443 | After any sequence of staged rows, duplicates, quarantines, failures, releases and retries, every book and every order's filled quantity and average are the fold of the distinct deals, once each, in landing order |
| InboxRefines.DealsAreReports | src/quanquant/broker/repository.py:632-676 | In every run each landed deal has a staged report of its key, from which its quantity, price, fee and side are taken, and its scope and kind are those of its order |
| InboxRefines.DoneRowsHaveAReason | src/quanquant/broker/inbox_worker.py:552-593 | In every run a done row became so at some step: its transaction landed (a deal in the ledger, a status taken by its order), it was found dead, or it was staged as a violation of its scope |
| InboxRefines.FailedRowsLeaveNothing | src/quanquant/broker/inbox_worker.py:552-593 | A row that does not land changes no book, order, deal or other row; refused it is quarantined, on an unforeseen error it is untouched |
| InboxRefines.PipelineConserves | src/quanquant/broker/inbox_worker.py:605-705 | Cash and lots are conserved through the whole pipeline, for every scope, at every point |
| InboxRefines.LandingShape | src/quanquant/broker/repository.py:632-676 | A deal report lands as a replay that changes nothing or as exactly one deal, with the report's fill, one order and one book moved |
| InboxRefines.RunKeeps | src/quanquant/broker/inbox_worker.py:552-593 | One row's transaction keeps the refinement and forgets no landed deal |
| InboxWorkers.GuardGivesASecondChance | src/quanquant/broker/inbox_worker.py:445-550 | The fast retry gives up only over nothing to release or over the very set that has already failed once |
| InboxWorkers.RawInboxWorker.ProcessRow | src/quanquant/broker/inbox_worker.py:552-593 | One transaction, and whether it re-arms the retry |
| InboxWorkers.RawInboxWorker.RunRows | src/quanquant/broker/inbox_worker.py:393-443 | A pass over the rows with its counts, in place |
| InboxWorkers.RawInboxWorker.RetryAssociationPendingOnce | src/quanquant/broker/inbox_worker.py:445-550 | Release, one pass, and the memory of the set tried |
| InboxWorkers.RawInboxWorker.ProcessBatchOnce | src/quanquant/broker/inbox_worker.py:393-443 | One batch in place, with at most one retry, which may fail before its release or after it, and the refinement kept |
| Bucketing.BucketsNest | src/quanquant/candles/bucketing.py:57-80 | The bucket of a moment is the bucket of its one-minute bucket, close tick and midnight included |
| Bucketing.BucketsAreMonotone | src/quanquant/candles/bucketing.py:57-80 | Buckets follow the clock across sessions |
| Bucketing.BucketInterval | src/quanquant/candles/bucketing.py:83-98 | Before its session's close a moment is in a bucket exactly from its start to its close |
| Bucketing.CanonicalSpan | src/quanquant/candles/bucketing.py:57-80 | The stored rows of one bucket lie on whole minutes within its length |
| Aggregation.AggregateIntraday | src/quanquant/candles/aggregate.py:33-73 | The loop with one open bar kept apart equals the row-by-row aggregate |
| Aggregation.BarsSummarizeKeptRows | src/quanquant/candles/aggregate.py:33-73 | For any rows in order, whatever the calendar says of them: every bar is the first open, highest high, lowest low, last close and total volume of exactly the rows of its bucket from the first admitted one on |
| Aggregation.AdmittedRowsCount | src/quanquant/candles/aggregate.py:33-73 | Where all rows are admitted those are all of them |
| Aggregation.BarsSummarizeBuckets | src/quanquant/candles/aggregate.py:33-73 | Where all rows are admitted, every bar is the first open, highest high, lowest low, last close and total volume of exactly the rows of its bucket |
| Aggregation.EveryBucketHasABar | src/quanquant/candles/aggregate.py:33-73 | No row's bucket is without its bar |
| Aggregation.TwoStagesAreOne | src/quanquant/candles/aggregate.py:33-73 | Aggregating finer bars of a nesting bucketing gives the bars of the rows themselves |
| Aggregation.CutBetweenBuckets | src/quanquant/candles/aggregate.py:33-73 | Cutting the rows between two buckets cuts the bars there |
| Aggregation.SuffixBars | src/quanquant/candles/aggregate.py:33-73 | The newest rows alone give the newest bars, but for the oldest of them |
| Candles.GateByMinute | src/quanquant/candles/market_calendar.py:94-110 | A trading moment's minute bucket trades too |
| Candles.MinuteBarsSuffice | src/quanquant/candles/aggregate.py:33-73 | For session buckets and any calendar, bars of stored minute bars are bars of the ticks they were built from |
| Paging.PageIsTheEnd | src/quanquant/candles/service.py:139-158 | Over stored rows and an uncapped fetch a derived page is the last bars of the full aggregation before the given moment |
| Paging.PageIsExactly | src/quanquant/candles/service.py:139-158 | For any trading rows and any fetch that does not fall whole into one bucket, a page is that if and only if the fetch reached the beginning or its rows span more buckets than the page needs |
| Paging.OneBucketPage | src/quanquant/candles/service.py:139-158 | A full fetch that falls whole into one bucket: the page is its single bar, right if and only if one bar was asked for or exists and that bar is the last of the full aggregation, which it is if no visible row before the fetch is in the bucket, and only if when those rows have volume |
| Paging.HasMoreIsExact | src/quanquant/candles/service.py:139-158 | The has-more flag is exact and an empty page means an empty history |
| Paging.WalkBack | src/quanquant/candles/service.py:139-158 | Asking before the first bar of each page until no more is promised ends and yields the full aggregation, once and in order |
| Paging.RowsPerBar | src/quanquant/candles/service.py:139-158 | No bar is made of more stored rows than its minutes |
| Paging.CloseMinuteRowsShortenThePage | src/quanquant/candles/service.py:139-158 | Distinct minute-aligned rows are not enough: with rows at the close minute a page of five bars comes back short |
| CandleBuilders.LiveMatchesBatch | src/quanquant/candles/builder.py:31-83 | For quotes in order and no stale-day reset the stored bars are the minute bars of the fresh ticks, and aggregating them is aggregating the ticks |
| CandleBuilders.VolumeTelescopes | src/quanquant/candles/builder.py:93-108 | Along a stretch whose fresh quotes are of one contract and rise, with any quotes without a new trade in between, the volumes after its first tick sum to the last fresh count less the first |
| CandleBuilders.CandleBuilder.Feed | src/quanquant/candles/builder.py:31-83 | One quote in place: the open bar, the memory of the count and the rows to store |
| CandleBuilders.CandleBuilder.TakeVolume | src/quanquant/candles/builder.py:93-108 | The volume since the last quote, and the count remembered |
| TradingDays.BoundsAreExact | src/quanquant/journal/trading_day.py:54-60 | For any calendar and trading days first <= last, a moment is within their bounds if and only if its trading day is between them |
| TradingDays.TradingDayIsMonotone | src/quanquant/journal/trading_day.py:36-51 | Later moments have no earlier trading day |
| TradingDays.RangesAbut | src/quanquant/journal/trading_day.py:54-60 | Consecutive trading days leave no gap and no overlap |
| TradingDays.NextTradingDay | src/quanquant/journal/trading_day.py:20-25 | The search ends, at the first trading day after the given one |
| TradingDays.PreviousTradingDay | src/quanquant/journal/trading_day.py:28-33 | The search ends, at the last trading day before the given one |
| TradingDays.NextIsUnique | src/quanquant/journal/trading_day.py:20-25 | There is only one next trading day |
| TradingDays.TradingDayOf | src/quanquant/journal/trading_day.py:36-51 | The day itself, or the next trading day for evenings and closed days |
| TradingDays.TradingDayBounds | src/quanquant/journal/trading_day.py:54-60 | From the evening before the first day to just before the evening of the last |
| RateLimit.RateBound | src/quanquant/web/rate_limit.py:17-29 | In any window of a given length a key is granted at most the burst plus what the rate earns in that time |
| RateLimit.TokensStayInRange | src/quanquant/web/rate_limit.py:17-29 | Tokens of every key stay between nothing and the burst |
| RateLimit.TokenBucket.AllowCall | src/quanquant/web/rate_limit.py:17-29 | One call in place: the refill, the grant and the level left, for that key only |

## Left out

- ExposureBound.ExposureNeverExceedsLimit: holds for runs without a stale insert and without a stale write-back, because the code loses the bound otherwise (`LeakExceedsLimit`, `WriteBackExceedsLimit`); `GuardIsExact`, `AckIsExact` and `WriteBackIsExact` give the exact conditions. `ReservationSteps.StepKeeps` and `ExposureBound.InvOverRun` have the same premise.
- ExposureBound.GuardIsExact: applies the ack right after the insert; `AckIsExact` is about any later point, by the reservation at that point.
- Resolvers.QueryResolverIsSound: does not cover a late write-back of an update of the same order, because the answer is then wrong (`LateWriteBackFoolsResolver`); `BaselineIsExact` gives the exact condition.
- LinkResults.LedgersAgree: is about commands whose live sends, once given up, met an agent that refuses them, because the code does not look again before it sends (`LateSendDiverges`); `LateSendIsExact` is the converse. The same holds of `LinkResults.GivenUpIsNeverExecuted`.
- LinkResults.ExecutedUnderOwnAccount: is about commands whose live sends went into sessions of their account, because the code labels them with the session's (`CancelReachesAnotherAccount`); `LiveSendCrossesExactly` is the converse.
- LinkResults.OneSessionConverges: a command resolved by a route, a query or a report before its ack need not be acknowledged, because it is never replayed.
- LinkResults.RecordedRunsOnce: says nothing about calls whose record was swallowed before it was written; `LostAnswerRunsTwice` shows one.
- Failstop.LatchedProcessStops: holds when requests capture their generation before the child they were admitted for is replaced, because the code does not make sure of it (`OrphanCrossesGenerations`); `LaterGenerationsExecuteExactly` covers every run. The same holds of `Failstop.LatchedProcessIsSilent`.
- Paging.PageIsTheEnd: is about rows at the start of their own minute and fetches under the cap, because other rows shorten pages (`CloseMinuteRowsShortenThePage`); `PageIsExactly` and `OneBucketPage` cover all rows and fetches.
- Race.OneWinner: has no local never-sent verdict among its settlers, because that path touches orders whether or not it wins (`LocalVerdictFailsLiveOrders`) and can be overwritten; `Race.GivenUpIsOverwritten` puts the verdict into the race at any point and says what becomes of it.
- Race.SomebodyWins: leaves out acks refused by the unique broker number, whose rollback is a step others can see here, while the database hides it; the interleavings allowed are more than there are.
- Watchdogs.Reconcile: takes a round as one piece and the broker's answers as given; the same resolver calls interleave freely in the server's state machine.
- `AgentRunner` in place covers messages, answers, latch, sentinel and epochs; the pump, the watchdog tasks, reconnection and back-off appear only as steps of the protocol, fail-stop and health machines, since their order is the scheduler's.
- Risk checks other than quota: kill switch, whitelist, confirm tokens, per-order size, counts and cooldowns; they only refuse more.
- Reading an order and reserving quota for it are one step of a risk check.
- Versions and compare-and-set retries of position rows: one worker per user writes them, and a conflict is an unforeseen error of the row's transaction.
- Releasing quarantined rows from within the effects of a placement ack; the inbox machine has the release as an event of its own, at any time.
- The in-process broker channel, its watchdog and its reconciliation.
- Reconnection back-off, process spawning, pipes, queues between threads: only their effects are steps. A session that ends with an incompatible login is a dropped connection.
- Order quantities in the report pipeline: no event of the inbox machine changes one, so updates of a quantity while deals land are not part of `WorkerRefinesFold`.
- Mapping of broker payloads; mapped fills, statuses and unmappable rows are inputs.
- Contents of old-layout buffer rows beyond whether they were sent, account stamps of buffer files, and the mode half of the agent's scope check.
- Event ids of answers sent on the spot, event streams to browsers, wake-ups and alerts.
- Daily candles, the one-minute page, the newest-candle view and the caches.
- The holiday list and expiry weekdays: calendars are arbitrary predicates. Parsing of quote dates: a quote says whether its date is stale.
