# Ration Planner dispatch, pricing, sign-in and budget ledgers in Dafny

This project models the core of the Ration Planner tow-service backend and
two of its budget screens, and proves properties of the model.

- **Offer dispatch** (`OfferDispatch`). This is the order dispatcher of
  `backend/src/orders/dispatcher.service.ts`. It offers an order to nearby
  drivers one at a time, nearest first. It moves on when a driver is not
  connected, rejects, or lets the response timer run out.
  - It keeps two in-memory maps: `pendingOffers` (order to timer) and
    `driverOffers` (driver to order).
  - It counts dispatch attempts against a maximum.
  - It records every offer, decline and acceptance in the dispatch history.
  - The service is a class over an order store and a WebSocket gateway.
    Every method is proved equal to a function on the whole state
    (`DispatchState`), and the properties are proved about those functions.
- **Orders controller** (`OrdersController`). This covers the endpoints of
  `backend/src/orders/orders.controller.ts`:
  - the ownership, assignment and visibility checks;
  - the `findAll` page size;
  - how `create`, `accept`, `reject`, `status` and `cancel` drive the store
    and the dispatcher.
- **Round-robin queues** (`DriverQueues`, `RoundRobin`, `QueueDispatch`).
  These are the two in-memory driver queues with a wrapping cursor:
  `round-robin.service.ts` and the queue-based `dispatcher/dispatcher.service.ts`.
- **Providers** (`Providers`). This is the provider profile table with
  keyed row updates, and the nearest-approved-drivers query (filter, sort by
  distance, limit).
- **Pricing** (`Pricing`, `FareService`). `Pricing` is the fixed-constant
  price in OMR, rounded to three decimals. `FareService` is the configurable
  fare with its breakdown.
- **Sign-in** (`Auth`, `JsText`). This covers:
  - phone normalisation;
  - the table of pending one-time codes with their five-minute expiry;
  - the DTO formats;
  - the pieces of the JavaScript runtime these rely on (`\s`, and `parseInt`
    without a radix).
- **Budget ledgers** (`DebtLedger`, `Essentials`).
  - The debt list checks a payment against what remains before adding it.
  - The essentials list folds the cost of its items into a total.

Model conventions:

- Ids, clocks and timer handles are parameters or explicit values.
- A `setTimeout` is a numbered timer in the state. Its firing is the explicit
  event `FireTimer`.
- The nearby-driver query and the distance function are inputs.
- Amounts are exact `real`s.

Where the source's own comments and its code disagree, the model follows the
code:

- The header of `backend/src/orders/dispatcher.service.ts` says an order is
  marked failed when no driver accepts. The code only notifies the customer
  and leaves the order `OFFERED` (`UnreachableRunExhausts`).
- The attempt limit stops a run silently, with no notification
  (`OfferOutcome`).
- `handleDriverAccept` does not check that the accepting driver holds the
  order's offer (`Accept`).

## Model

| member | source | states |
|---|---|---|
| DriverQueues.IndexOf | backend/src/dispatcher/round-robin.service.ts:27 | -1 exactly when the id is absent; otherwise the first position holding it |
| DriverQueues.RemoveAt | backend/src/dispatcher/round-robin.service.ts:29 | `splice(i, 1)`: one entry fewer, earlier entries in place, later ones shifted down by one |
| DriverQueues.Without | backend/src/dispatcher/round-robin.service.ts:27-34 | removing a driver drops one entry when present and nothing otherwise, keeps every other id, and on a duplicate-free queue leaves the id absent and the queue duplicate-free |
| DriverQueues.WithAppended | backend/src/dispatcher/round-robin.service.ts:19-24 | append-if-absent: the id is present afterwards, the old queue is a prefix, nothing else is added, and no duplicates appear |
| DriverQueues.WithAppendedIdempotent | backend/src/dispatcher/round-robin.service.ts:19-24 | registering a driver twice has the effect of registering once |
| DriverQueues.Advance | backend/src/dispatcher/round-robin.service.ts:64 | the cursor stays in range and wraps to 0 only after the last position |
| DriverQueues.VisitsAt | backend/src/dispatcher/round-robin.service.ts:58-66 | within one cycle, read j is position cursor + j folded once into the queue |
| DriverQueues.VisitsSnoc | backend/src/dispatcher/round-robin.service.ts:63-64 | one more read appends the id under the cursor and advances the cursor |
| DriverQueues.VisitsFullCycle | backend/src/dispatcher/round-robin.service.ts:53-66 | a full cycle of reads from any cursor is the rotation of the queue: a permutation of it, without repeats when the queue has none, ending at the starting cursor |
| RoundRobin.Known | backend/src/dispatcher/round-robin.service.ts:68-72 | the queued ids that have a stored state: exactly the ids in both |
| RoundRobin.ActiveStates | backend/src/dispatcher/round-robin.service.ts:68-72 | the stored states of those ids in queue order, each filed under its own id |
| RoundRobin.RoundRobinService.constructor | backend/src/dispatcher/round-robin.service.ts:15-17 | empty queue, no states, cursor 0 |
| RoundRobin.RoundRobinService.RegisterDriver | backend/src/dispatcher/round-robin.service.ts:19-24 | the queue becomes append-if-absent of the id; states and cursor unchanged; no duplicates |
| RoundRobin.RoundRobinService.RemoveDriver | backend/src/dispatcher/round-robin.service.ts:26-36 | the id leaves the queue; the cursor resets to 0 only when it falls off the end; the state is always forgotten |
| RoundRobin.RoundRobinService.UpdateDriverLocation | backend/src/dispatcher/round-robin.service.ts:38-47 | last write wins for that driver only; queue and cursor untouched |
| RoundRobin.RoundRobinService.GetDriverState | backend/src/dispatcher/round-robin.service.ts:49-51 | the stored state when there is one, and it belongs to that driver |
| RoundRobin.RoundRobinService.GetNextDriver | backend/src/dispatcher/round-robin.service.ts:58-66 | undefined on an empty queue; otherwise the state of the driver under the cursor, and the cursor advances modulo the length |
| RoundRobin.RoundRobinService.ListActiveDrivers | backend/src/dispatcher/round-robin.service.ts:68-72 | only queued drivers with a state, each with its stored state, every such driver appears, and they come in queue order |
| RoundRobin.KnownInQueueOrder | backend/src/dispatcher/round-robin.service.ts:68-72 | on a duplicate-free queue the `filter` keeps the queue's order: an earlier result sits earlier in the queue |
| RoundRobin.InQueueOrderCons | backend/src/dispatcher/round-robin.service.ts:68-72 | ids in queue order within the tail stay in order in the whole queue, also behind the head |
| RoundRobin.FullCycleVisitsEachDriverOnce | backend/src/dispatcher/round-robin.service.ts:53-57 | the fairness claim: queue-length consecutive calls give every queued driver exactly one turn and restore the cursor |
| RoundRobin.NoDupCountsOne | backend/src/dispatcher/round-robin.service.ts:20 | a queue kept free of duplicates holds each driver once |
| Providers.SetOnline | backend/src/providers/providers.service.ts:18-23 | only the `isOnline` field of that user's row changes |
| Providers.SetStatus | backend/src/providers/providers.service.ts:25-30 | only the `status` field of that user's row changes |
| Providers.SetLocation | backend/src/providers/providers.service.ts:32-39 | only the location and last-ping time of that user's row change; other rows are identical |
| Providers.Candidates | backend/src/providers/providers.service.ts:54-57 | exactly the online, approved, located rows, each projected to its id and distance |
| Providers.InsertByDistance | backend/src/providers/providers.service.ts:58 | inserting keeps the list ordered by distance and adds exactly the one row |
| Providers.SortByDistance | backend/src/providers/providers.service.ts:58 | `ORDER BY distance_m ASC`: sorted and a permutation of its input |
| Providers.NearestApproved | backend/src/providers/providers.service.ts:41-66 | at most `limit` (default 10) results, nearest first, a sub-multiset of the eligible rows (no row more often than the table yields it), all eligible rows when they fit, and no omitted row nearer than a returned one |
| Providers.NearestSubMultiset | backend/src/providers/providers.service.ts:58-59 | `LIMIT` after `ORDER BY` only drops rows: the result is a sub-multiset of the candidates |
| Providers.CandidatesDistinct | backend/src/providers/providers.service.ts:49-57 | on a table keyed by user id, no user is projected twice |
| Providers.DistinctCountAtMostOne | backend/src/providers/providers.service.ts:49-57 | in a list of distinct users each row occurs at most once |
| Providers.EntriesDiffer | backend/src/providers/providers.service.ts:58-59 | two positions of a sub-multiset of distinct users hold different rows |
| Providers.DistinctUsersSub | backend/src/providers/providers.service.ts:58-59 | taking rows out of a list of distinct users leaves distinct users |
| Providers.NearestApprovedDistinct | backend/src/providers/providers.service.ts:41-66 | on a keyed table the query never names a provider twice |
| Providers.ProvidersService.FindNearestApprovedDrivers | backend/src/providers/providers.service.ts:41-66 | the query `NearestApproved` over the stored table at the given point: at most `limit` results, nearest first, each from an eligible row, and no user twice while user ids are unique |
| Providers.Eligible | backend/src/providers/providers.service.ts:55-57 | the `WHERE` clause: online, `APPROVED` and with a location |
| Providers.ResultsAreEligible | backend/src/providers/providers.service.ts:46-65 | every result comes from an online approved located profile, with its own id and its distance from the pickup |
| Providers.OfflineProviderExcluded | backend/src/providers/providers.service.ts:55 | after `markOnline(u, false)` the user is in no query result |
| Providers.ProvidersService.constructor | backend/src/providers/providers.service.ts:12 | the table as given, with unique user ids |
| Providers.ProvidersService.CreateProfile | backend/src/providers/providers.service.ts:14-16 | inserts the row unless the user already has one (the unique key) |
| Providers.ProvidersService.MarkOnline | backend/src/providers/providers.service.ts:18-23 | fails on a missing row and changes nothing; otherwise the table is `SetOnline` of the old one |
| Providers.ProvidersService.UpdateStatus | backend/src/providers/providers.service.ts:25-30 | as `MarkOnline`, for the approval status |
| Providers.ProvidersService.UpdateDriverLocation | backend/src/providers/providers.service.ts:32-39 | the table is `SetLocation` of the old one; an unknown user matches no row |
| QueueDispatch.Sync | backend/src/dispatcher/dispatcher.service.ts:88-101 | going offline removes the driver and folds the pointer into range (0 on an empty queue); coming online appends a new driver and keeps the pointer; a duplicate-free queue stays duplicate-free |
| QueueDispatch.SyncOnlineIdempotent | backend/src/dispatcher/dispatcher.service.ts:98-100 | coming online twice is coming online once |
| QueueDispatch.SyncOfflineIdempotent | backend/src/dispatcher/dispatcher.service.ts:89-95 | going offline twice is going offline once on a duplicate-free queue |
| QueueDispatch.UserIds | backend/src/dispatcher/dispatcher.service.ts:44 | the user ids of the query result in result order |
| QueueDispatch.DispatcherService.constructor | backend/src/dispatcher/dispatcher.service.ts:15-22 | empty queue, pointer 0 |
| QueueDispatch.DispatcherService.HandleDriverLocationUpdate | backend/src/dispatcher/dispatcher.service.ts:24-35 | the location is always stored; only with an online flag is the flag written and the queue synced, and a missing profile skips the sync; `ok` is false exactly when the handler rejects (an online flag for a driver with no profile), so a failed update is told apart from a successful one |
| QueueDispatch.DispatcherService.HydrateQueueFromPickup | backend/src/dispatcher/dispatcher.service.ts:37-48 | the queue becomes the query's ids in result order and the pointer resets; the queue keeps no driver twice |
| QueueDispatch.UserIdsNoDup | backend/src/dispatcher/dispatcher.service.ts:44 | result rows of distinct users give a queue without repeats |
| QueueDispatch.DispatcherService.DispatchOrder | backend/src/dispatcher/dispatcher.service.ts:64-86 | always `null`; the drivers read are consecutive round-robin reads, and with no empty id the whole queue is read once and the pointer returns to where it was |
| QueueDispatch.DispatcherService.SyncQueue | backend/src/dispatcher/dispatcher.service.ts:88-101 | the queue and pointer become `Sync` of the old ones |
| QueueDispatch.DispatcherService.NextDriver | backend/src/dispatcher/dispatcher.service.ts:103-111 | `null` on an empty queue; otherwise the id under the pointer and the pointer advances modulo the length |
| QueueDispatch.DispatcherService.GetQueueSnapshot | backend/src/dispatcher/dispatcher.service.ts:113-115 | a copy equal to the queue |
| OfferDispatch.InsertKeepsInv | backend/src/orders/orders.service.ts:14-29 | a new order with no attempts under an unused id keeps the dispatcher invariant |
| OfferDispatch.StatusKeepsInv | backend/src/orders/orders.service.ts:37-42 | changing an order's status keeps the dispatcher invariant |
| OfferDispatch.ClearPending | backend/src/orders/dispatcher.service.ts:201-205 | the order's pending entry is gone, its timer disarmed, and every other pending offer and timer kept |
| OfferDispatch.Offer | backend/src/orders/dispatcher.service.ts:115-189 | a missing order changes nothing, nor does an order at the attempt limit; no order is created or removed |
| OfferDispatch.Recorded | backend/src/orders/dispatcher.service.ts:152-160 | one more attempt counted, the driver appended to that order's offer list and to no other order's, every other order unchanged and the history extended by one record |
| OfferDispatch.Skipped | backend/src/orders/dispatcher.service.ts:176-177 | recording the unreachable driver's decline adds no offer to any order |
| OfferDispatch.Armed | backend/src/orders/dispatcher.service.ts:183-188 | a fresh timer capturing (order, driver, list, index) becomes the order's pending offer |
| OfferDispatch.OfferFrame | backend/src/orders/dispatcher.service.ts:115-189 | a run leaves other orders and their offer lists alone and only appends to the history |
| OfferDispatch.OfferInListOrder | backend/src/orders/dispatcher.service.ts:144-179 | the drivers offered are the next candidates in list order, one attempt each, and the order becomes offered once one offer is made |
| OfferDispatch.OfferSkipStep | backend/src/orders/dispatcher.service.ts:170-179 | an unreachable driver's offer and decline are recorded and the run carries on with the next candidate |
| OfferDispatch.OfferArmStep | backend/src/orders/dispatcher.service.ts:170-188 | a reachable driver's offer ends the run with the response timer armed |
| OfferDispatch.ListOrderCons | backend/src/orders/dispatcher.service.ts:176-179 | one skipped candidate followed by a run in list order is a run in list order from that candidate |
| OfferDispatch.UnreachableRunExhausts | backend/src/orders/dispatcher.service.ts:121-135 | if no remaining candidate is connected, each is charged an attempt and the customer is told no driver accepted; no timer is armed and the order stays offered |
| OfferDispatch.OfferOutcome | backend/src/orders/dispatcher.service.ts:115-189 | a run ends in one of three ways: exactly one live offer to a connected driver with its timer armed and recorded; a no-driver-accepted notice; or silence at the attempt limit |
| OfferDispatch.OfferKeepsInv | backend/src/orders/dispatcher.service.ts:137-188 | a run keeps timers well formed and keeps each order's attempts equal to its recorded offers and within the maximum |
| OfferDispatch.OfferKeepsTimersOk | backend/src/orders/dispatcher.service.ts:183-188 | every pending offer still names an armed timer of its own order |
| OfferDispatch.OfferKeepsAttemptsOk | backend/src/orders/dispatcher.service.ts:137-154 | attempts keep counting recorded offers and stay within the maximum |
| OfferDispatch.OfferAttemptsWithin | backend/src/orders/dispatcher.service.ts:137-142 | a run never counts past the attempt limit |
| OfferDispatch.Start | backend/src/orders/dispatcher.service.ts:65-106 | only a searching order is dispatched; with no candidates the customer gets a no-drivers notice and nothing else changes; otherwise offers go out in list order from the nearest; the invariant is kept |
| OfferDispatch.Accept | backend/src/orders/dispatcher.service.ts:197-232 | the order's timer is cleared and the driver's entry dropped; an existing order gets the acceptance recorded, the driver assigned, status accepted and the customer told; other orders and offers are untouched; the invariant is kept |
| OfferDispatch.ResumeAt | backend/src/orders/dispatcher.service.ts:273-282 | resumes just after the rejecting driver's first position in the re-run list, or at its start when the driver is not listed |
| OfferDispatch.Reject | backend/src/orders/dispatcher.service.ts:242-287 | a missing order only loses its pending entry and the driver's entry; no order is created or removed |
| OfferDispatch.Declined | backend/src/orders/dispatcher.service.ts:261 | a decline appends one `false` record and adds no offer |
| OfferDispatch.RejectResumesAfterDriver | backend/src/orders/dispatcher.service.ts:259-282 | a reject records the decline first, then offers the re-run list's candidates after the rejecting driver, in list order |
| OfferDispatch.RejectKeepsInv | backend/src/orders/dispatcher.service.ts:249-282 | a reject keeps the invariant, disarms the order's old timer and leaves other orders alone |
| OfferDispatch.Fire | backend/src/orders/dispatcher.service.ts:183-185 | a disarmed timer never fires; a timer for a missing order only drops the entries |
| OfferDispatch.Timeout | backend/src/orders/dispatcher.service.ts:298-320 | the order's pending entry and the driver's entry are dropped; a missing order is otherwise untouched |
| OfferDispatch.TimedOut | backend/src/orders/dispatcher.service.ts:306-308 | the fired timer is spent, the timers stay well formed, and nothing else changes |
| OfferDispatch.TimeoutMovesToNextCandidate | backend/src/orders/dispatcher.service.ts:310-315 | a timeout records the decline first, then offers the next candidates of the captured list in list order |
| OfferDispatch.FireTimerKeepsInv | backend/src/orders/dispatcher.service.ts:298-320 | a fired timer keeps the invariant, is spent for good, and leaves other orders alone |
| OfferDispatch.Cancel | backend/src/orders/dispatcher.service.ts:327-342 | the order's timer is disarmed and no driver entry names the order afterwards; other entries, the store and the gateway are untouched; the invariant is kept |
| OfferDispatch.CancelIdempotent | backend/src/orders/dispatcher.service.ts:327-342 | cancelling twice is cancelling once |
| OfferDispatch.StatsOf | backend/src/orders/dispatcher.service.ts:347-354 | the configured timeout and maximum, the number of driver entries, the number of pending offers, and never more pending offers than armed timers |
| OfferDispatch.PendingAtMostTimers | backend/src/orders/dispatcher.service.ts:39-40 | each pending offer owns a distinct armed timer |
| OfferDispatch.OrderStore.constructor | backend/src/orders/orders.service.ts:8-12 | the given orders and an empty dispatch history |
| OfferDispatch.OrderStore.FindById | backend/src/orders/orders.service.ts:31-35 | the order when the id is known, `null` otherwise |
| OfferDispatch.OrderStore.RecordDispatch | backend/src/orders/dispatcher.service.ts:153 | appends one history record for a known order; fails and changes nothing for an unknown one |
| OfferDispatch.OrderStore.IncrementDispatchAttempts | backend/src/orders/dispatcher.service.ts:154 | adds one to the order's attempt count; fails for an unknown order |
| OfferDispatch.OrderStore.UpdateStatus | backend/src/orders/orders.service.ts:37-42 | sets only the order's status; fails for an unknown order |
| OfferDispatch.OrderStore.Create | backend/src/orders/orders.service.ts:14-29 | the new row under the fresh id, the rest of the store unchanged |
| OfferDispatch.OrderStore.Cancel | backend/src/orders/orders.controller.ts:186 | the order is marked cancelled; fails for an unknown order |
| OfferDispatch.OrderStore.AssignDriver | backend/src/orders/dispatcher.service.ts:215 | sets the driver and the accepted status; fails for an unknown order |
| OfferDispatch.Gateway.constructor | backend/src/websocket/dispatcher.gateway.ts:43 | the given connected users, nothing emitted yet |
| OfferDispatch.Gateway.OfferOrderToDriver | backend/src/websocket/dispatcher.gateway.ts:75-86 | true, with the offer emitted, exactly when the driver is connected |
| OfferDispatch.Gateway.NotifyCustomer | backend/src/websocket/dispatcher.gateway.ts:95-102 | logs one notification and changes nothing else |
| OfferDispatch.DispatcherService.constructor | backend/src/orders/dispatcher.service.ts:45-57 | the configured maximum and timeout, and both maps empty; the service is valid exactly when the store's attempt counters match its recorded offers within the maximum, which a fresh store always does |
| OfferDispatch.FreshStoreAttemptsOk | backend/src/orders/dispatcher.service.ts:45-57 | a store with no dispatch history and every counter at 0 meets the attempts invariant |
| OfferDispatch.DispatcherService.StartDispatching | backend/src/orders/dispatcher.service.ts:65-106 | the new state is `Start` of the old one, and the invariant is kept |
| OfferDispatch.DispatcherService.OfferToNextDriver | backend/src/orders/dispatcher.service.ts:115-189 | the new state is `Offer` of the old one |
| OfferDispatch.DispatcherService.SendOffer | backend/src/orders/dispatcher.service.ts:152-180 | sent exactly when the driver is connected; the state is then `Armed` or `Skipped` of `Recorded` |
| OfferDispatch.DispatcherService.SkipUnreachable | backend/src/orders/dispatcher.service.ts:176-177 | the new state is `Skipped` of the old one |
| OfferDispatch.DispatcherService.ArmTimer | backend/src/orders/dispatcher.service.ts:183-188 | a fresh timer with the captured arguments becomes the order's pending offer |
| OfferDispatch.DispatcherService.RecordOffer | backend/src/orders/dispatcher.service.ts:152-160 | the new state is `Recorded` of the old one |
| OfferDispatch.DispatcherService.HandleDriverAccept | backend/src/orders/dispatcher.service.ts:197-232 | the new state is `Accept` of the old one, and the invariant is kept |
| OfferDispatch.DispatcherService.ClearOffer | backend/src/orders/dispatcher.service.ts:200-208 | the order's timer is cleared and the driver's entry dropped |
| OfferDispatch.DispatcherService.HandleDriverReject | backend/src/orders/dispatcher.service.ts:242-287 | the new state is `Reject` of the old one, and the invariant is kept |
| OfferDispatch.DispatcherService.FireTimer | backend/src/orders/dispatcher.service.ts:183-185 | the new state is `Fire` of the old one, and the invariant is kept |
| OfferDispatch.DispatcherService.HandleDriverTimeout | backend/src/orders/dispatcher.service.ts:298-320 | the new state is `Timeout` of the old one |
| OfferDispatch.DispatcherService.CancelDispatch | backend/src/orders/dispatcher.service.ts:327-342 | the new state is `Cancel` of the old one, and the invariant is kept |
| OfferDispatch.DispatcherService.GetStats | backend/src/orders/dispatcher.service.ts:347-354 | `StatsOf` of the state |
| JsText.IsSpace | backend/src/auth/auth.service.ts:155 | the characters `\s` matches: the ECMAScript white space and line terminators |
| JsText.ParseInt | backend/src/orders/orders.controller.ts:223 | `parseInt` without a radix: skip white space, read one sign and an optional `0x`, then the longest digit run; `NaN` when the run is empty |
| JsText.TrimStart | backend/src/orders/orders.controller.ts:223 | `parseInt`'s first step: a suffix of the input whose removed prefix is all white space and that starts with no white space |
| JsText.DigitRun | backend/src/orders/orders.controller.ts:223 | the longest prefix of digits |
| JsText.ParseIntOfDigits | backend/src/orders/orders.controller.ts:223 | a string of decimal digits parses to its value |
| JsText.ParseIntNaN | backend/src/orders/orders.controller.ts:223 | text starting with anything but white space, a sign or a digit is `NaN` |
| OrdersController.NewRow | backend/src/orders/orders.controller.ts:42-47 | the stored customer is the caller; the driver and coordinates come from the body; the status is searching with no attempts |
| OrdersController.BodyCustomerIgnored | backend/src/orders/orders.controller.ts:44-47 | whatever customer the body names, the stored customer is the caller |
| OrdersController.Cancellable | backend/src/orders/orders.controller.ts:175 | only a `SEARCHING` or `OFFERED` order may be cancelled |
| OrdersController.MayUpdateStatus | backend/src/orders/orders.controller.ts:141 | only the order's assigned driver may change its status |
| OrdersController.MayView | backend/src/orders/orders.controller.ts:201-205 | the customer, the assigned driver and any admin may view the order |
| OrdersController.CancelCheck | backend/src/orders/orders.controller.ts:168-180 | allowed exactly for the owner of a searching or offered order; a non-owner is refused first, then a wrong status |
| OrdersController.ViewOrder | backend/src/orders/orders.controller.ts:196-212 | an unknown id throws; the customer, the driver and any admin see the order; anyone else is refused |
| OrdersController.StrangersSeeNothing | backend/src/orders/orders.controller.ts:201-209 | a user who is not the customer, not the driver and not an admin never gets the order |
| OrdersController.FindAllLimit | backend/src/orders/orders.controller.ts:223 | 100 when the parameter is absent or empty, otherwise `parseInt` of it |
| OrdersController.FindAllLimitOfDigits | backend/src/orders/orders.controller.ts:223 | a limit written in decimal digits is taken at its value |
| OrdersController.OrdersController.constructor | backend/src/orders/orders.controller.ts:31 | the controller and the dispatcher share one order store |
| OrdersController.OrdersController.Create | backend/src/orders/orders.controller.ts:40-59 | stores the caller's row under the fresh id, then the dispatcher state is `Start` of the state with the row, and the reply carries the row |
| OrdersController.OrdersController.AcceptOrder | backend/src/orders/orders.controller.ts:97-107 | the dispatcher state is `Accept` of the old one, and the reply carries the order as stored afterwards |
| OrdersController.OrdersController.RejectOrder | backend/src/orders/orders.controller.ts:112-125 | the dispatcher state is `Reject` of the old one |
| OrdersController.OrdersController.UpdateStatus | backend/src/orders/orders.controller.ts:131-154 | an unknown id throws; only the assigned driver changes the status, which is the only change; anyone else is refused and nothing changes |
| OrdersController.OrdersController.CancelOrder | backend/src/orders/orders.controller.ts:159-191 | the reply follows `CancelCheck`; a refusal changes nothing; on success the dispatch is cancelled, then the order is marked cancelled, and no pending offer or driver entry remains for it |
| OrdersController.OrdersController.GetOrder | backend/src/orders/orders.controller.ts:196-212 | the reply is `ViewOrder` of the stored orders |
| Pricing.CalculatePrice | backend/src/pricing/pricing.service.ts:16-25 | the price: base fare plus distance times rate, raised to the minimum fare, rounded to thousandths; its properties are the lemmas below |
| Pricing.Round | backend/src/pricing/pricing.service.ts:24 | `Math.round`: the integer within half of x, halves rounded up |
| Pricing.Round3 | backend/src/pricing/pricing.service.ts:24 | a whole number of thousandths within half a thousandth of x |
| Pricing.Round3Monotone | backend/src/pricing/pricing.service.ts:24 | rounding keeps order |
| Pricing.Round3Exact | backend/src/pricing/pricing.service.ts:24 | a whole number of thousandths is left as it is |
| Pricing.PriceAtLeastMinimum | backend/src/pricing/pricing.service.ts:16-25 | the price is never below the minimum fare |
| Pricing.PriceOfDistance | backend/src/pricing/pricing.service.ts:16-25 | for a non-negative distance the price is the rounded base plus distance charge |
| Pricing.NegativeDistanceClamped | backend/src/pricing/pricing.service.ts:19-21 | a negative distance is charged the minimum fare |
| Pricing.PriceMonotone | backend/src/pricing/pricing.service.ts:16-25 | a longer distance never costs less |
| Pricing.WorkedPrices | backend/src/pricing/pricing.service.spec.ts:36-70 | 10 km cost 8.5, 20 km 12.0, 0 km 5.0, 0.5 km 5.175, 100 km 40.0, and 1.2345 km 5.432 |
| FareService.GetNumericEnv | backend/dist/src/pricing/pricing.service.js:39-46 | the fallback when the value is unset, empty or not a finite number; otherwise the number |
| FareService.Configure | backend/dist/src/pricing/pricing.service.js:21-26 | each constant comes from its own key or its default |
| FareService.EmptyEnvGivesDefaults | backend/dist/src/pricing/pricing.service.js:21-26 | with nothing configured the defaults are used |
| FareService.Max | backend/dist/src/pricing/pricing.service.js:28-30 | `Math.max`: one of the two arguments, and at least both |
| FareService.CalculateFare | backend/dist/src/pricing/pricing.service.js:27-38 | the distance is clamped at 0; the subtotal is base plus distance times rate; the total is the larger of the subtotal and the minimum |
| FareService.NonPositiveDistanceIsZero | backend/dist/src/pricing/pricing.service.js:28 | every distance at or below 0 is charged as 0 |
| FareService.FareMonotone | backend/dist/src/pricing/pricing.service.js:27-38 | with a non-negative rate a longer distance never costs less |
| FareService.SubtotalMonotone | backend/dist/src/pricing/pricing.service.js:28-29 | with a non-negative rate the subtotal never falls as the distance grows, negative distances included |
| Auth.IsValidPhone | backend/src/auth/dto/auth.dto.ts:6 | `/^\+968[0-9]{8}$/`: twelve characters, "+968" then eight ASCII digits |
| Auth.IsValidOtp | backend/src/auth/dto/auth.dto.ts:22 | `/^[0-9]{6}$/`: six ASCII digits |
| Auth.LoginDtoValid | backend/src/auth/dto/auth.dto.ts:3-10 | `LoginDto`: a non-empty phone in the phone format |
| Auth.VerifyOtpDtoValid | backend/src/auth/dto/auth.dto.ts:12-26 | `VerifyOtpDto`: the same phone rule and a non-empty six-digit code |
| Auth.DtoFormats | backend/src/auth/dto/auth.dto.ts:3-26 | both DTOs judge the phone alike, and the empty string passes neither field |
| Auth.DefaultCodeIsValidOtp | backend/src/auth/auth.service.ts:37 | the default code has the one-time-code format |
| Auth.StripSpacesAndDashes | backend/src/auth/auth.service.ts:155 | no white space or dash remains, text without them is unchanged, and a single character is dropped exactly when it is white space or a dash |
| Auth.StripConcat | backend/src/auth/auth.service.ts:155 | stripping works piece by piece: the stripped pieces are joined in order, so every other character is kept in its place |
| Auth.StripIdempotent | backend/src/auth/auth.service.ts:155 | stripping twice strips nothing more |
| Auth.NormalizePhone | backend/src/auth/auth.service.ts:153-167 | `normalizePhone`: strip white space and dashes; keep a leading '+', else put '+' before a leading "968", else "+968"; its properties are the lemmas below |
| Auth.NormalizeShape | backend/src/auth/auth.service.ts:153-167 | the result starts with '+', holds no white space or dash, and is the stripped input with "+", "+968" or nothing in front |
| Auth.NormalizeIdempotent | backend/src/auth/auth.service.ts:153-167 | normalising twice is normalising once |
| Auth.ValidPhoneUnchanged | backend/src/auth/auth.service.ts:153-167 | a phone in the DTO format is left as it is |
| Auth.LocalNumberNormalizes | backend/src/auth/auth.service.ts:158-164 | an eight-digit local number not starting with 968 gains +968 and meets the DTO format |
| Auth.LocalNumberStarting968 | backend/src/auth/auth.service.ts:159-160 | an eight-digit local number starting with 968 only gains '+', and the result fails the DTO format |
| Auth.Send | backend/src/auth/auth.service.ts:44-58 | the code is filed under the normalised phone with expiry five minutes on, replacing any earlier entry; other entries are kept |
| Auth.Verify | backend/src/auth/auth.service.ts:72-97 | no entry fails with the table unchanged; an expired entry is deleted and fails; a wrong code fails and keeps the entry; the right code succeeds and deletes it |
| Auth.ExpiryBoundary | backend/src/auth/auth.service.ts:51-89 | a code verifies exactly five minutes after sending and fails one millisecond later |
| Auth.SingleUse | backend/src/auth/auth.service.ts:96-97 | a code succeeds at most once |
| Auth.RetryAfterWrongCode | backend/src/auth/auth.service.ts:92-94 | a wrong code leaves the entry, so the right code can still follow in time |
| Auth.SpellingsShareEntry | backend/src/auth/auth.service.ts:44-81 | a code sent to one spelling verifies under the normalised spelling |
| Auth.AuthService.constructor | backend/src/auth/auth.service.ts:32-38 | the configured code, or 123456 when none is configured, and no pending codes |
| Auth.AuthService.SendVerificationCode | backend/src/auth/auth.service.ts:44-67 | returns the normalised phone and the code; the table becomes `Send` of the old one |
| Auth.AuthService.VerifyCode | backend/src/auth/auth.service.ts:72-97 | the outcome and the new table are `Verify` of the old table |
| DebtLedger.AddDebtValid | src/components/app/debt-manager.tsx:41-44 | `addDebtSchema`: a creditor of at least two characters and a positive amount |
| DebtLedger.PaymentValid | src/components/app/debt-manager.tsx:46-48 | `addPaymentSchema`: a positive amount |
| DebtLedger.TotalPaid | src/components/app/debt-manager.tsx:58 | the `reduce` summing payment amounts from 0, first payment first |
| DebtLedger.Remaining | src/components/app/debt-manager.tsx:59 | the initial amount less the total paid |
| DebtLedger.PaymentButtonEnabled | src/components/app/debt-manager.tsx:109-110 | the button is enabled exactly while something remains |
| DebtLedger.PaymentLowersRemaining | src/components/app/debt-manager.tsx:58-59 | adding a payment lowers what remains by exactly its amount |
| DebtLedger.PayingRemainderDisablesButton | src/components/app/debt-manager.tsx:109-110 | paying exactly what remains disables the payment button; paying less leaves it enabled |
| DebtLedger.SubmitPayment | src/components/app/debt-manager.tsx:62-70 | forwarded, with the card's debt id, exactly when the amount is at most what remains; otherwise refused with the remainder |
| DebtLedger.GuardedNeverOverpaid | src/components/app/debt-manager.tsx:58-66 | when every payment passed the guard, the total paid lies between 0 and the initial amount, so what remains is never negative |
| DebtLedger.ForwardedKeepsGuarded | src/components/app/debt-manager.tsx:62-67 | a forwarded positive payment keeps every payment within what remained before it |
| DebtLedger.AddPayment | src/components/app/debt-manager.tsx:173-180 | the debt with the id gains the payment at the end of its list; every other debt is unchanged |
| DebtLedger.DebtManager.constructor | src/components/app/debt-manager.tsx:149 | no debts |
| DebtLedger.DebtManager.OnAddDebt | src/components/app/debt-manager.tsx:158-171 | the new debt with no payments is appended and earlier debts keep their order |
| DebtLedger.DebtManager.OnAddPayment | src/components/app/debt-manager.tsx:173-185 | the list becomes `AddPayment` of the old one, and the ledger stays valid for a positive payment within what remains |
| DebtLedger.DebtManager.SubmitPaymentAt | src/components/app/debt-manager.tsx:62-70 | a refused payment changes nothing; a forwarded one is added; every debt's remainder stays non-negative |
| Essentials.FormValid | src/components/app/essentials-manager.tsx:40-44 | `formSchema`: a name of at least two characters, a quantity of at least 1, and a price of at least 0 when given |
| Essentials.Cost | src/components/app/essentials-manager.tsx:100 | one item's share of the total: its price, or 0, times its quantity |
| Essentials.Sum | src/components/app/essentials-manager.tsx:100 | the `reduce` adding each item's cost from 0, first item first |
| Essentials.TotalCost | src/components/app/essentials-manager.tsx:100 | `totalCost`: the sum over the list, or over `[]` while no list is loaded |
| Essentials.TotalCostOfNothing | src/components/app/essentials-manager.tsx:100 | no list and an empty list both total 0 |
| Essentials.TotalCostAppend | src/components/app/essentials-manager.tsx:100 | adding an item raises the total by its price (or 0) times its quantity |
| Essentials.UnpricedAddsNothing | src/components/app/essentials-manager.tsx:100 | an item without a price leaves the total unchanged |
| Essentials.SumConcat | src/components/app/essentials-manager.tsx:100 | the total of two lists in sequence is the sum of their totals |
| Essentials.TotalOfValidItems | src/components/app/essentials-manager.tsx:40-44 | items that passed the form schema never total below 0 |
| Essentials.OnSubmit | src/components/app/essentials-manager.tsx:67-83 | nothing without a user; otherwise the user's item with the form's name and quantity and the price or 0, and a valid form gives a non-negative price and a quantity of at least 1 |
| Essentials.SubmitRaisesTotal | src/components/app/essentials-manager.tsx:70-75 | a submitted valid form adds a valid item and raises the total by the form's price times its quantity |
| Essentials.FindName | src/components/app/essentials-manager.tsx:88 | none exactly when no item has the id; otherwise the name of the first item with it |
| Essentials.DeleteItem | src/components/app/essentials-manager.tsx:85-98 | nothing without a user or a list; otherwise the document is deleted whether or not it is listed, and a toast names the first matching item when its name is not empty |

## Left out

- Persistence (Prisma, PostGIS, Firestore), sockets, logging and toasts are not modelled.
  - The order store and the gateway are small classes holding the fields the dispatcher reads and writes.
  - A Firestore write is returned as a value.
- Four store calls are not defined in `backend/src/orders/orders.service.ts`: `recordDispatch`, `incrementDispatchAttempts`, `assignDriver` and `cancel`. `findAvailableNear` is not defined either.
  - The store methods follow their names: append a record, add one, set the driver and the accepted status, set the cancelled status.
  - Each fails on an unknown order.
  - The nearby-driver list is a parameter.
- `ordersService.findAll`, `findByCustomer`, `findByDriver` and `findActiveOrderForDriver` are not part of this model. Only `findAll`'s page size is modelled.
- Concurrency and interleaving are not modelled.
  - Every `async` call runs to completion before the next event.
  - The fire-and-forget `startDispatching` in `create` is run before the reply.
  - Two events for the same order cannot overlap.
- Timers are explicit events. A timer fires only through `FireTimer`, never on its own, and the duration is not modelled.
- OfferDispatch.DispatcherService.constructor promises its invariant only for a store whose persisted `dispatchAttempts` match the offers recorded in its history. A store where they disagree, for example one carried over a restart, is outside the model.
- OfferDispatch.DispatcherService.constructor takes the already parsed `DRIVER_RESPONSE_TIMEOUT` and `MAX_DISPATCH_ATTEMPTS` as natural numbers.
  - A `NaN` from `parseInt` is not modelled; there, every attempt comparison with it would be false.
  - A negative `MAX_DISPATCH_ATTEMPTS` (`backend/src/orders/dispatcher.service.ts:54-56`) is not modelled either. With it the source makes no offer at all, as the model does with a maximum of 0.
- OfferDispatch.Gateway.NotifyCustomer records every notice the dispatcher asks for. The check that the customer is connected (`backend/src/websocket/dispatcher.gateway.ts:95-102`), which emits only to a connected customer, is not modelled. The notices are the dispatcher's requests, not the messages delivered.
- Providers.SortByDistance resolves ties at equal distance in table order, with an earlier row first. `ORDER BY distance_m ASC LIMIT n` (`backend/src/providers/providers.service.ts:58-59`) guarantees no such order. `NearestApproved`, `FindNearestApprovedDrivers` and `HydrateQueueFromPickup` therefore fix which tied rows survive the limit and their order in the queue, where the query leaves both open. No property proved here depends on that choice.
- `estimatedTime` and `distanceToPickup` in the offer payload are not modelled, nor the `order.driver` relation sent on accept.
- The role decorators and `RolesGuard` are not modelled. Each controller method assumes the caller passed the role check.
- JWT signing, user lookup or creation after a successful verification, `refreshToken`, and the SMS gateway are not modelled.
- Floating point is not modelled: prices, distances and amounts are exact reals.
  - `Pricing.WorkedPrices` states the values `pricing.service.spec.ts` expects, exactly.
  - The 1.2345 km case relies on `toBeCloseTo`, whose IEEE-754 rounding is not modelled.
- JavaScript `Number()` on configuration text is a parameter (`toNumber`) in FareService.
- `setMinutes(getMinutes() + 5)` is modelled as adding 300000 ms. A daylight-saving shift is not modelled.
- Zod's string length counts UTF-16 code units. The model counts characters.
- The progress bar percentage and the `toFixed(2)` messages are not modelled.
- `pricing.calculate`, called by `ordersService.create`, is not defined in `backend/src/pricing/pricing.service.ts`. The order row therefore carries no price estimate.
- The debts shown by `DebtManager` live in component state. Each card's guard is modelled by `SubmitPaymentAt`, which reads that same state.
