/** backend/src/orders/dispatcher.service.ts: offers one order to drivers
    one at a time, nearest first, and advances on three events (driver
    unreachable, reject, response timeout).

    The state the service touches is gathered in `DispatchState`: its own
    two maps (`pendingOffers`, order -> armed timer; `driverOffers`, driver
    -> order), the armed timers with the arguments their callbacks captured,
    the order store it calls (orders and the dispatch history written by
    `recordDispatch`), and the gateway it calls (the set of connected users,
    the offers it emitted, the customer notifications it was asked to send).
    `setTimeout` arms a numbered timer, `clearTimeout` disarms it, and the
    timer firing is the explicit event `FireTimer`. The candidate list that
    `findAvailableNear` would return is a parameter.

    The functions below are the specification; the classes at the end are
    the service itself, proved to follow it. */
module OfferDispatch {
  import opened Wrappers
  import DriverQueues

  type OrderId = string
  type UserId = string

  datatype OrderStatus = Searching | Offered | Accepted | Arrived | InProgress | Completed | Cancelled

  datatype Order = Order(
    customerId: UserId,
    driverId: Option<UserId>,
    status: OrderStatus,
    dispatchAttempts: nat,
    pickupLat: real,
    pickupLng: real,
    dropoffLat: real,
    dropoffLng: real)

  /** One row of `findAvailableNear`'s answer. */
  datatype Candidate = Candidate(userId: UserId, distanceKm: real)

  /** One `recordDispatch(orderId, driverId, accepted)` call; `None` is the
      `null` written when the offer goes out. */
  datatype DispatchRecord = DispatchRecord(orderId: OrderId, driverId: UserId, accepted: Option<bool>)

  datatype CustomerEvent = NoDrivers | NoDriverAccepted | OrderAccepted

  /** One `notifyCustomer(customerId, event, {orderId, ...})` call. */
  datatype Notice = Notice(customerId: UserId, event: CustomerEvent, orderId: OrderId)

  /** One `order:offered` emitted to a connected driver. */
  datatype OfferSent = OfferSent(driverId: UserId, orderId: OrderId)

  /** An armed response timer and the arguments its callback captured. */
  datatype Timer = Timer(orderId: OrderId, driverId: UserId, drivers: seq<Candidate>, index: nat)

  datatype DispatchState = DispatchState(
    // order store
    orders: map<OrderId, Order>,
    history: seq<DispatchRecord>,
    // gateway
    connected: set<UserId>,
    offers: seq<OfferSent>,
    notices: seq<Notice>,
    // the service's own state
    pendingOffers: map<OrderId, nat>,
    driverOffers: map<UserId, OrderId>,
    timers: map<nat, Timer>,
    nextTimer: nat,
    maxAttempts: nat,
    responseTimeout: nat)

  datatype Stats = Stats(pendingOffers: nat, activeDriverOffers: nat, timeout: nat, maxAttempts: nat)

  /** The user ids of a candidate list, in list order. */
  function CandidateIds(drivers: seq<Candidate>): (r: seq<UserId>)
    ensures |r| == |drivers|
    ensures forall k :: 0 <= k < |drivers| ==> r[k] == drivers[k].userId
  {
    seq(|drivers|, k requires 0 <= k < |drivers| => drivers[k].userId)
  }

  /** The drivers an order was offered to, in history order: the driver of
      every pending (`null`) record written for that order. */
  function OffersFor(h: seq<DispatchRecord>, o: OrderId): (r: seq<UserId>)
    ensures |r| <= |h|
  {
    if h == [] then []
    else
      var last := h[|h| - 1];
      OffersFor(h[..|h| - 1], o) + (if last.orderId == o && last.accepted.None? then [last.driverId] else [])
  }

  lemma OffersForSnoc(h: seq<DispatchRecord>, x: DispatchRecord, o: OrderId)
    ensures OffersFor(h + [x], o) ==
      OffersFor(h, o) + (if x.orderId == o && x.accepted.None? then [x.driverId] else [])
  {
    assert (h + [x])[..|h|] == h;
  }

  /** Every armed timer captured a valid position of its candidate list and
      the driver at that position; every pending offer names an armed timer
      of its own order; timer numbers are fresh. */
  predicate TimersOk(s: DispatchState) {
    && (forall t :: t in s.timers ==>
          && t < s.nextTimer
          && s.timers[t].index < |s.timers[t].drivers|
          && s.timers[t].drivers[s.timers[t].index].userId == s.timers[t].driverId)
    && (forall o :: o in s.pendingOffers ==>
          s.pendingOffers[o] in s.timers && s.timers[s.pendingOffers[o]].orderId == o)
  }

  /** Each order's `dispatchAttempts` counts exactly the offers recorded for
      it and never exceeds the configured maximum. */
  predicate AttemptsOk(s: DispatchState) {
    forall o :: o in s.orders ==>
      && s.orders[o].dispatchAttempts == |OffersFor(s.history, o)|
      && s.orders[o].dispatchAttempts <= s.maxAttempts
  }

  /** A store with no dispatch history and every counter at 0 meets the
      attempts half of the invariant. */
  lemma FreshStoreAttemptsOk(s: DispatchState)
    ensures s.history == [] && (forall o :: o in s.orders ==> s.orders[o].dispatchAttempts == 0) ==> AttemptsOk(s)
  {
    if s.history == [] {
      forall o | o in s.orders ensures |OffersFor(s.history, o)| == 0 {
      }
    }
  }

  /** The invariant of the service. */
  predicate Inv(s: DispatchState) {
    TimersOk(s) && AttemptsOk(s)
  }

  /** An id no order and no dispatch record uses yet. */
  predicate Unused(s: DispatchState, id: OrderId) {
    && id !in s.orders
    && forall k :: 0 <= k < |s.history| ==> s.history[k].orderId != id
  }

  /** An order nobody recorded an offer for has an empty offer list. */
  lemma {:induction false} OffersForUnused(h: seq<DispatchRecord>, id: OrderId)
    requires forall k :: 0 <= k < |h| ==> h[k].orderId != id
    ensures OffersFor(h, id) == []
  {
    if h != [] {
      OffersForUnused(h[..|h| - 1], id);
    }
  }

  /** A new order with no attempts under an unused id keeps the invariant. */
  lemma InsertKeepsInv(s: DispatchState, id: OrderId, order: Order)
    requires Inv(s) && Unused(s, id) && order.dispatchAttempts == 0
    ensures Inv(s.(orders := s.orders[id := order]))
  {
    OffersForUnused(s.history, id);
  }

  /** Changing only an order's status keeps the invariant. */
  lemma StatusKeepsInv(s: DispatchState, o: OrderId, status: OrderStatus)
    requires Inv(s) && o in s.orders
    ensures Inv(s.(orders := s.orders[o := s.orders[o].(status := status)]))
  {
    var r := s.(orders := s.orders[o := s.orders[o].(status := status)]);
    assert forall o' :: o' in r.orders ==> r.orders[o'].dispatchAttempts == s.orders[o'].dispatchAttempts;
  }

  /** The pending offer of order `o` is gone and its timer disarmed. */
  function ClearPending(s: DispatchState, o: OrderId): (r: DispatchState)
    ensures o !in r.pendingOffers
    ensures o in s.pendingOffers ==> s.pendingOffers[o] !in r.timers
    ensures forall o' :: o' in s.pendingOffers && o' != o ==> o' in r.pendingOffers && r.pendingOffers[o'] == s.pendingOffers[o']
    ensures r.timers.Keys <= s.timers.Keys && forall t :: t in r.timers ==> r.timers[t] == s.timers[t]
    ensures r == s.(pendingOffers := r.pendingOffers, timers := r.timers)
    ensures TimersOk(s) ==> TimersOk(r)
  {
    if o in s.pendingOffers then
      s.(timers := s.timers - {s.pendingOffers[o]}, pendingOffers := s.pendingOffers - {o})
    else s
  }

  /** `offerToNextDriver(orderId, drivers, index)`: past the end of the
      list the customer is told no driver accepted; a missing order or one
      at the attempt limit stops silently; otherwise the offer is recorded,
      counted and the order marked offered, and then either the driver is
      reachable (the offer is emitted and a response timer armed) or the
      offer is recorded as declined and the next candidate is tried. */
  function Offer(s: DispatchState, o: OrderId, drivers: seq<Candidate>, i: nat): (r: DispatchState)
    decreases |drivers| - i
    ensures r.connected == s.connected && r.maxAttempts == s.maxAttempts && r.responseTimeout == s.responseTimeout
    ensures r.orders.Keys == s.orders.Keys
    ensures o !in s.orders ==> r == s
    ensures i < |drivers| && o in s.orders && s.orders[o].dispatchAttempts >= s.maxAttempts ==> r == s
  {
    if i >= |drivers| then
      if o in s.orders then s.(notices := s.notices + [Notice(s.orders[o].customerId, NoDriverAccepted, o)])
      else s
    else if o !in s.orders then s
    else if s.orders[o].dispatchAttempts >= s.maxAttempts then s
    else
      var d := drivers[i].userId;
      var offered := Recorded(s, o, d);
      if d in s.connected then Armed(offered, o, drivers, i)
      else Offer(Skipped(offered, o, d), o, drivers, i + 1)
  }

  /** The offer is recorded as pending, counted, the order marked offered
      and the driver's offer entry set. */
  function Recorded(s: DispatchState, o: OrderId, d: UserId): (r: DispatchState)
    requires o in s.orders
    ensures r.orders.Keys == s.orders.Keys
    ensures r.orders[o].dispatchAttempts == s.orders[o].dispatchAttempts + 1
    ensures OffersFor(r.history, o) == OffersFor(s.history, o) + [d]
    ensures forall o' :: o' != o ==> OffersFor(r.history, o') == OffersFor(s.history, o')
    ensures forall o' :: o' in s.orders && o' != o ==> r.orders[o'] == s.orders[o']
    ensures |r.history| == |s.history| + 1 && r.history[..|s.history|] == s.history
  {
    OffersForSnoc(s.history, DispatchRecord(o, d, None), o);
    forall o' | o' != o
      ensures OffersFor(s.history + [DispatchRecord(o, d, None)], o') == OffersFor(s.history, o')
    {
      OffersForSnoc(s.history, DispatchRecord(o, d, None), o');
    }
    var order := s.orders[o];
    s.(history := s.history + [DispatchRecord(o, d, None)],
       orders := s.orders[o := order.(dispatchAttempts := order.dispatchAttempts + 1, status := Offered)],
       driverOffers := s.driverOffers[d := o])
  }

  lemma RecordedIs(s: DispatchState, o: OrderId, d: UserId)
    requires o in s.orders
    ensures var order := s.orders[o];
      Recorded(s, o, d)
      == s.(history := s.history + [DispatchRecord(o, d, None)],
            orders := s.orders[o := order.(dispatchAttempts := order.dispatchAttempts + 1, status := Offered)],
            driverOffers := s.driverOffers[d := o])
  {
  }

  /** The unreachable driver's offer is recorded as declined and its offer
      entry dropped. */
  function Skipped(s: DispatchState, o: OrderId, d: UserId): (r: DispatchState)
    ensures forall o' :: OffersFor(r.history, o') == OffersFor(s.history, o')
  {
    forall o' ensures OffersFor(s.history + [DispatchRecord(o, d, Some(false))], o') == OffersFor(s.history, o') {
      OffersForSnoc(s.history, DispatchRecord(o, d, Some(false)), o');
    }
    s.(history := s.history + [DispatchRecord(o, d, Some(false))], driverOffers := s.driverOffers - {d})
  }

  /** The reachable driver gets the offer and a response timer is armed
      with the arguments of the timeout callback. */
  function Armed(s: DispatchState, o: OrderId, drivers: seq<Candidate>, i: nat): (r: DispatchState)
    requires i < |drivers|
    ensures r.nextTimer == s.nextTimer + 1
    ensures r.timers == s.timers[s.nextTimer := Timer(o, drivers[i].userId, drivers, i)]
    ensures r.pendingOffers == s.pendingOffers[o := s.nextTimer]
  {
    s.(offers := s.offers + [OfferSent(drivers[i].userId, o)],
       timers := s.timers[s.nextTimer := Timer(o, drivers[i].userId, drivers, i)],
       pendingOffers := s.pendingOffers[o := s.nextTimer],
       nextTimer := s.nextTimer + 1)
  }

  /** `offerToNextDriver` leaves other orders, their offers and earlier
      history alone. */
  lemma {:induction false} OfferFrame(s: DispatchState, o: OrderId, drivers: seq<Candidate>, i: nat)
    ensures var r := Offer(s, o, drivers, i);
      && (forall o' :: o' in s.orders && o' != o ==> r.orders[o'] == s.orders[o'])
      && (forall o' :: o' != o ==> OffersFor(r.history, o') == OffersFor(s.history, o'))
      && |s.history| <= |r.history| && r.history[..|s.history|] == s.history
    decreases |drivers| - i
  {
    if i < |drivers| && o in s.orders && s.orders[o].dispatchAttempts < s.maxAttempts {
      var d := drivers[i].userId;
      if d !in s.connected {
        var skipped := Skipped(Recorded(s, o, d), o, d);
        OfferSkipStep(s, o, drivers, i);
        StepFrame(s, skipped, o, d);
        OfferFrame(skipped, o, drivers, i + 1);
        PrefixTrans(s.history, skipped.history, Offer(skipped, o, drivers, i + 1).history);
      } else {
        OfferArmStep(s, o, drivers, i);
        StepFrame(s, Armed(Recorded(s, o, d), o, drivers, i), o, d);
      }
    }
  }

  /** One offer, skipped or armed, changes no other order, no other
      order's offers and no earlier history. */
  lemma StepFrame(s: DispatchState, r: DispatchState, o: OrderId, d: UserId)
    requires o in s.orders
    requires r.orders == Recorded(s, o, d).orders
    requires (forall o' :: OffersFor(r.history, o') == OffersFor(Recorded(s, o, d).history, o'))
    requires Recorded(s, o, d).history <= r.history
    ensures forall o' :: o' in s.orders && o' != o ==> r.orders[o'] == s.orders[o']
    ensures forall o' :: o' != o ==> OffersFor(r.history, o') == OffersFor(s.history, o')
    ensures |s.history| <= |r.history| && r.history[..|s.history|] == s.history
  {
    PrefixTrans(s.history, Recorded(s, o, d).history, r.history);
  }

  lemma PrefixTrans<T>(a: seq<T>, b: seq<T>, c: seq<T>)
    requires |a| <= |b| && b[..|a|] == a
    requires |b| <= |c| && c[..|b|] == b
    ensures |a| <= |c| && c[..|a|] == a
  {
    assert c[..|a|] == c[..|b|][..|a|];
  }

  /** The offers one call makes are the next candidates in list order, one
      dispatch attempt each; the status becomes offered as soon as one offer
      is made; customer and assigned driver are untouched. */
  lemma {:induction false} OfferInListOrder(s: DispatchState, o: OrderId, drivers: seq<Candidate>, i: nat)
    requires o in s.orders && i <= |drivers|
    ensures ListOrder(s, Offer(s, o, drivers, i), o, drivers, i)
    decreases |drivers| - i
  {
    if i < |drivers| && s.orders[o].dispatchAttempts < s.maxAttempts {
      var d := drivers[i].userId;
      if d in s.connected {
        ArmedInListOrder(s, o, drivers, i);
      } else {
        var skipped := Skipped(Recorded(s, o, d), o, d);
        OfferSkipStep(s, o, drivers, i);
        SkipFacts(s, o, d);
        OfferInListOrder(skipped, o, drivers, i + 1);
        ListOrderCons(s, skipped, Offer(skipped, o, drivers, i + 1), o, drivers, i);
      }
    } else {
      StoppedInListOrder(s, o, drivers, i);
    }
  }

  /** A run that stops at once makes no offer. */
  lemma StoppedInListOrder(s: DispatchState, o: OrderId, drivers: seq<Candidate>, i: nat)
    requires o in s.orders && i <= |drivers|
    requires i == |drivers| || s.orders[o].dispatchAttempts >= s.maxAttempts
    ensures ListOrder(s, Offer(s, o, drivers, i), o, drivers, i)
  {
    assert CandidateIds(drivers[i..i]) == [];
  }

  /** A run that reaches its first candidate makes exactly that offer. */
  lemma ArmedInListOrder(s: DispatchState, o: OrderId, drivers: seq<Candidate>, i: nat)
    requires o in s.orders && i < |drivers| && s.orders[o].dispatchAttempts < s.maxAttempts
    requires drivers[i].userId in s.connected
    ensures ListOrder(s, Offer(s, o, drivers, i), o, drivers, i)
  {
    OfferArmStep(s, o, drivers, i);
    assert CandidateIds(drivers[i..i + 1]) == [drivers[i].userId];
  }

  /** What `OfferInListOrder` promises about a run from `s` to `r`. */
  predicate ListOrder(s: DispatchState, r: DispatchState, o: OrderId, drivers: seq<Candidate>, i: nat)
    requires o in s.orders
  {
    && o in r.orders
    && var k := r.orders[o].dispatchAttempts - s.orders[o].dispatchAttempts;
    && k >= 0
    && i + k <= |drivers|
    && OffersFor(r.history, o) == OffersFor(s.history, o) + CandidateIds(drivers[i..i + k])
    && r.orders[o].customerId == s.orders[o].customerId
    && r.orders[o].driverId == s.orders[o].driverId
    && r.orders[o].status == (if k == 0 then s.orders[o].status else Offered)
  }

  /** Skipping an unreachable driver is the same as carrying on from the
      next candidate. */
  lemma OfferSkipStep(s: DispatchState, o: OrderId, drivers: seq<Candidate>, i: nat)
    requires o in s.orders && i < |drivers| && s.orders[o].dispatchAttempts < s.maxAttempts
    requires drivers[i].userId !in s.connected
    ensures Offer(s, o, drivers, i) == Offer(Skipped(Recorded(s, o, drivers[i].userId), o, drivers[i].userId), o, drivers, i + 1)
  {
  }

  /** Reaching the driver ends the run with its timer armed. */
  lemma OfferArmStep(s: DispatchState, o: OrderId, drivers: seq<Candidate>, i: nat)
    requires o in s.orders && i < |drivers| && s.orders[o].dispatchAttempts < s.maxAttempts
    requires drivers[i].userId in s.connected
    ensures Offer(s, o, drivers, i) == Armed(Recorded(s, o, drivers[i].userId), o, drivers, i)
  {
  }

  lemma CandidateIdsCons(drivers: seq<Candidate>, i: nat, j: nat)
    requires i < j <= |drivers|
    ensures CandidateIds(drivers[i..j]) == [drivers[i].userId] + CandidateIds(drivers[i + 1..j])
  {
    assert drivers[i..j] == [drivers[i]] + drivers[i + 1..j];
  }

  /** Recording and then declining an offer to `d` counts one attempt,
      marks the order offered and adds `d` to its offers. */
  lemma SkipFacts(s: DispatchState, o: OrderId, d: UserId)
    requires o in s.orders
    ensures var skipped := Skipped(Recorded(s, o, d), o, d);
      && o in skipped.orders
      && skipped.orders[o] == s.orders[o].(dispatchAttempts := s.orders[o].dispatchAttempts + 1, status := Offered)
      && OffersFor(skipped.history, o) == OffersFor(s.history, o) + [d]
  {
  }

  /** One skipped offer followed by a run in list order is a run in list
      order one candidate earlier. */
  lemma ListOrderCons(s: DispatchState, skipped: DispatchState, r: DispatchState, o: OrderId, drivers: seq<Candidate>, i: nat)
    requires o in s.orders && i < |drivers| && o in skipped.orders
    requires skipped.orders[o] == s.orders[o].(dispatchAttempts := s.orders[o].dispatchAttempts + 1, status := Offered)
    requires OffersFor(skipped.history, o) == OffersFor(s.history, o) + [drivers[i].userId]
    requires ListOrder(skipped, r, o, drivers, i + 1)
    ensures ListOrder(s, r, o, drivers, i)
  {
    var k' := r.orders[o].dispatchAttempts - skipped.orders[o].dispatchAttempts;
    assert r.orders[o].dispatchAttempts - s.orders[o].dispatchAttempts == k' + 1;
    assert r.orders[o].status == Offered;
    OffersExtend(OffersFor(s.history, o), OffersFor(skipped.history, o), OffersFor(r.history, o), drivers, i, k');
  }

  lemma OffersExtend(a: seq<UserId>, b: seq<UserId>, c: seq<UserId>, drivers: seq<Candidate>, i: nat, k: nat)
    requires i + 1 + k <= |drivers|
    requires b == a + [drivers[i].userId]
    requires c == b + CandidateIds(drivers[i + 1..i + 1 + k])
    ensures c == a + CandidateIds(drivers[i..i + 1 + k])
  {
    CandidateIdsCons(drivers, i, i + 1 + k);
    var rest := CandidateIds(drivers[i + 1..i + 1 + k]);
    assert (a + [drivers[i].userId]) + rest == a + ([drivers[i].userId] + rest);
  }

  /** A run over candidates none of whom is connected, with attempts to
      spare, records one declined offer per candidate and ends with the
      no-driver-accepted notice; no timer is armed and the order is left in
      the offered status (nothing marks it as failed). */
  lemma {:induction false} UnreachableRunExhausts(s: DispatchState, o: OrderId, drivers: seq<Candidate>, i: nat)
    requires o in s.orders && i <= |drivers|
    requires forall j :: i <= j < |drivers| ==> drivers[j].userId !in s.connected
    requires s.orders[o].dispatchAttempts + (|drivers| - i) <= s.maxAttempts
    ensures var r := Offer(s, o, drivers, i);
      && r.notices == s.notices + [Notice(s.orders[o].customerId, NoDriverAccepted, o)]
      && r.orders[o].dispatchAttempts == s.orders[o].dispatchAttempts + (|drivers| - i)
      && r.pendingOffers == s.pendingOffers && r.timers == s.timers && r.offers == s.offers
      && (i < |drivers| ==> r.orders[o].status == Offered)
    decreases |drivers| - i
  {
    if i < |drivers| {
      var d := drivers[i].userId;
      var skipped := Skipped(Recorded(s, o, d), o, d);
      OfferSkipStep(s, o, drivers, i);
      assert skipped.orders[o] == s.orders[o].(dispatchAttempts := s.orders[o].dispatchAttempts + 1, status := Offered);
      UnreachableRunExhausts(skipped, o, drivers, i + 1);
    }
  }

  /** One call either makes exactly one live offer (offer emitted to a
      connected driver, timer armed and recorded as the order's pending
      offer, order offered) and notifies nobody, or makes none and then
      either notifies the customer that no driver accepted (the list ran
      out) or, silently, has hit the attempt limit. */
  lemma {:induction false} OfferOutcome(s: DispatchState, o: OrderId, drivers: seq<Candidate>, i: nat)
    ensures var r := Offer(s, o, drivers, i);
      && (r.nextTimer == s.nextTimer || r.nextTimer == s.nextTimer + 1)
      && (r.nextTimer == s.nextTimer ==>
            && r.offers == s.offers && r.pendingOffers == s.pendingOffers && r.timers == s.timers
            && (r.notices == s.notices ||
                (o in s.orders && r.notices == s.notices + [Notice(s.orders[o].customerId, NoDriverAccepted, o)]))
            && (o in s.orders && r.notices == s.notices ==> r.orders[o].dispatchAttempts >= r.maxAttempts))
      && (r.nextTimer == s.nextTimer + 1 ==>
            && o in s.orders
            && s.nextTimer in r.timers
            && var t := r.timers[s.nextTimer];
            && t.orderId == o && t.drivers == drivers
            && t.index < |drivers| && drivers[t.index].userId == t.driverId
            && t.driverId in r.connected
            && r.pendingOffers == s.pendingOffers[o := s.nextTimer]
            && r.timers == s.timers[s.nextTimer := t]
            && t.driverId in r.driverOffers && r.driverOffers[t.driverId] == o
            && r.orders[o].status == Offered
            && r.offers == s.offers + [OfferSent(t.driverId, o)]
            && r.notices == s.notices)
    decreases |drivers| - i
  {
    if i < |drivers| && o in s.orders && s.orders[o].dispatchAttempts < s.maxAttempts {
      var d := drivers[i].userId;
      if d !in s.connected {
        var skipped := Skipped(Recorded(s, o, d), o, d);
        OfferOutcome(skipped, o, drivers, i + 1);
      }
    }
  }

  /** `offerToNextDriver` keeps the service invariant: timers stay well
      formed, and attempts keep counting offers within the limit. */
  lemma OfferKeepsInv(s: DispatchState, o: OrderId, drivers: seq<Candidate>, i: nat)
    requires Inv(s)
    ensures Inv(Offer(s, o, drivers, i))
  {
    OfferKeepsTimersOk(s, o, drivers, i);
    OfferKeepsAttemptsOk(s, o, drivers, i);
  }

  lemma OfferKeepsTimersOk(s: DispatchState, o: OrderId, drivers: seq<Candidate>, i: nat)
    requires TimersOk(s)
    ensures TimersOk(Offer(s, o, drivers, i))
  {
    var r := Offer(s, o, drivers, i);
    OfferOutcome(s, o, drivers, i);
    if r.nextTimer == s.nextTimer + 1 {
      var t := r.timers[s.nextTimer];
      forall o' | o' in r.pendingOffers
        ensures r.pendingOffers[o'] in r.timers && r.timers[r.pendingOffers[o']].orderId == o'
      {
        if o' != o {
          assert s.pendingOffers[o'] < s.nextTimer;
        }
      }
    }
  }

  lemma OfferKeepsAttemptsOk(s: DispatchState, o: OrderId, drivers: seq<Candidate>, i: nat)
    requires AttemptsOk(s)
    ensures AttemptsOk(Offer(s, o, drivers, i))
  {
    var r := Offer(s, o, drivers, i);
    OfferFrame(s, o, drivers, i);
    forall o' | o' in r.orders
      ensures r.orders[o'].dispatchAttempts == |OffersFor(r.history, o')|
      ensures r.orders[o'].dispatchAttempts <= r.maxAttempts
    {
      if o' != o {
        assert r.orders[o'] == s.orders[o'];
      } else if i >= |drivers| || s.orders[o].dispatchAttempts >= s.maxAttempts {
        assert r.orders[o] == s.orders[o] && r.history == s.history;
      } else {
        OfferInListOrder(s, o, drivers, i);
        assert ListOrder(s, r, o, drivers, i);
        OfferAttemptsWithin(s, o, drivers, i);
      }
    }
  }

  /** A run never counts past the attempt limit it started under. */
  lemma {:induction false} OfferAttemptsWithin(s: DispatchState, o: OrderId, drivers: seq<Candidate>, i: nat)
    requires o in s.orders && s.orders[o].dispatchAttempts <= s.maxAttempts
    ensures Offer(s, o, drivers, i).orders[o].dispatchAttempts <= s.maxAttempts
    decreases |drivers| - i
  {
    if i < |drivers| && s.orders[o].dispatchAttempts < s.maxAttempts {
      var d := drivers[i].userId;
      if d !in s.connected {
        OfferAttemptsWithin(Skipped(Recorded(s, o, d), o, d), o, drivers, i + 1);
      }
    }
  }

  /** `startDispatching(orderId)`, with `candidates` the nearby-driver
      query's answer: only an order that is still searching is
      dispatched; no candidate means a no-drivers notice and nothing else;
      otherwise the offer run starts at the nearest candidate. */
  function Start(s: DispatchState, o: OrderId, candidates: seq<Candidate>): (r: DispatchState)
    ensures o !in s.orders || s.orders[o].status != Searching ==> r == s
    ensures o in s.orders && s.orders[o].status == Searching && candidates == [] ==>
      && r.notices == s.notices + [Notice(s.orders[o].customerId, NoDrivers, o)]
      && r.orders == s.orders && r.history == s.history && r.offers == s.offers
      && r.pendingOffers == s.pendingOffers && r.driverOffers == s.driverOffers && r.timers == s.timers
    ensures o in s.orders && s.orders[o].status == Searching ==> ListOrder(s, r, o, candidates, 0)
    ensures Inv(s) ==> Inv(r)
  {
    if o !in s.orders || s.orders[o].status != Searching then s
    else if |candidates| == 0 then s.(notices := s.notices + [Notice(s.orders[o].customerId, NoDrivers, o)])
    else
      OfferInListOrder(s, o, candidates, 0);
      if Inv(s) then OfferKeepsInv(s, o, candidates, 0); Offer(s, o, candidates, 0)
      else Offer(s, o, candidates, 0)
  }

  /** `handleDriverAccept(orderId, driverId)`: the order's response timer is
      cleared and the driver's offer entry dropped; then, if the order
      exists, the acceptance is recorded, the driver assigned (status
      accepted) and the customer told. Nothing checks that this driver
      holds the order's offer. */
  function Accept(s: DispatchState, o: OrderId, d: UserId): (r: DispatchState)
    ensures o !in r.pendingOffers && d !in r.driverOffers
    ensures o in s.pendingOffers ==> s.pendingOffers[o] !in r.timers
    ensures forall d' :: d' in s.driverOffers && d' != d ==> d' in r.driverOffers && r.driverOffers[d'] == s.driverOffers[d']
    ensures r.orders.Keys == s.orders.Keys
    ensures forall o' :: o' in s.orders && o' != o ==> r.orders[o'] == s.orders[o']
    ensures forall o' :: OffersFor(r.history, o') == OffersFor(s.history, o')
    ensures o in s.orders ==>
      && r.orders[o] == s.orders[o].(driverId := Some(d), status := Accepted)
      && r.history == s.history + [DispatchRecord(o, d, Some(true))]
      && r.notices == s.notices + [Notice(s.orders[o].customerId, OrderAccepted, o)]
    ensures o !in s.orders ==> r.history == s.history && r.notices == s.notices
    ensures r.offers == s.offers && r.nextTimer == s.nextTimer
    ensures Inv(s) ==> Inv(r)
  {
    var c := ClearPending(s, o).(driverOffers := s.driverOffers - {d});
    if o !in c.orders then c
    else
      forall o' ensures OffersFor(c.history + [DispatchRecord(o, d, Some(true))], o') == OffersFor(c.history, o') {
        OffersForSnoc(c.history, DispatchRecord(o, d, Some(true)), o');
      }
      var order := c.orders[o];
      c.(history := c.history + [DispatchRecord(o, d, Some(true))],
         orders := c.orders[o := order.(driverId := Some(d), status := Accepted)],
         notices := c.notices + [Notice(order.customerId, OrderAccepted, o)])
  }

  /** Where a reject resumes in the re-run query's list: just after the rejecting
      driver's first position, or at the start when it is not listed. */
  function ResumeAt(nearby: seq<Candidate>, d: UserId): (j: nat)
    ensures j <= |nearby|
    ensures j == 0 <==> d !in CandidateIds(nearby)
    ensures j > 0 ==> nearby[j - 1].userId == d && d !in CandidateIds(nearby)[..j - 1]
  {
    var at := DriverQueues.IndexOf(CandidateIds(nearby), d);
    if at >= 0 then at + 1 else 0
  }

  /** `handleDriverReject(orderId, driverId)`, with `nearby` the re-run
      nearby-driver query: the order's timer is cleared and the driver's
      offer entry dropped; if the order exists the rejection is recorded
      and the offer run resumes in the new list after the rejecting driver
      (or at its start). */
  function Reject(s: DispatchState, o: OrderId, d: UserId, nearby: seq<Candidate>): (r: DispatchState)
    ensures r.orders.Keys == s.orders.Keys
    ensures o !in s.orders ==>
      && o !in r.pendingOffers && d !in r.driverOffers
      && r.orders == s.orders && r.history == s.history && r.notices == s.notices && r.offers == s.offers
  {
    var c := ClearPending(s, o).(driverOffers := s.driverOffers - {d});
    if o !in c.orders then c
    else Offer(Declined(c, o, d), o, nearby, ResumeAt(nearby, d))
  }

  /** A decline (reject or timeout) is recorded; it is not an offer. */
  function Declined(s: DispatchState, o: OrderId, d: UserId): (r: DispatchState)
    ensures forall o' :: OffersFor(r.history, o') == OffersFor(s.history, o')
    ensures |r.history| == |s.history| + 1 && r.history[..|s.history|] == s.history
    ensures r.history[|s.history|] == DispatchRecord(o, d, Some(false))
    ensures r == s.(history := r.history)
  {
    forall o' ensures OffersFor(s.history + [DispatchRecord(o, d, Some(false))], o') == OffersFor(s.history, o') {
      OffersForSnoc(s.history, DispatchRecord(o, d, Some(false)), o');
    }
    s.(history := s.history + [DispatchRecord(o, d, Some(false))])
  }

  /** Only the order's pending offer count and record matter to
      `ListOrder`. */
  lemma ListOrderFrom(s: DispatchState, s': DispatchState, r: DispatchState, o: OrderId, drivers: seq<Candidate>, i: nat)
    requires o in s.orders && o in s'.orders && s'.orders[o] == s.orders[o]
    requires OffersFor(s'.history, o) == OffersFor(s.history, o)
    requires ListOrder(s', r, o, drivers, i)
    ensures ListOrder(s, r, o, drivers, i)
  {
  }

  /** A reject of an existing order records the decline first and then
      offers the candidates after the rejecting driver's position in the
      re-run list (from the start when it is not listed), in list order. */
  lemma RejectResumesAfterDriver(s: DispatchState, o: OrderId, d: UserId, nearby: seq<Candidate>)
    requires o in s.orders
    ensures var r := Reject(s, o, d, nearby);
      && |r.history| > |s.history| && r.history[|s.history|] == DispatchRecord(o, d, Some(false))
      && ListOrder(s, r, o, nearby, ResumeAt(nearby, d))
  {
    var c := ClearPending(s, o).(driverOffers := s.driverOffers - {d});
    var recorded := Declined(c, o, d);
    var j := ResumeAt(nearby, d);
    OfferFrame(recorded, o, nearby, j);
    OfferInListOrder(recorded, o, nearby, j);
    ListOrderFrom(s, recorded, Reject(s, o, d, nearby), o, nearby, j);
  }

  /** A reject keeps the invariant, disarms the order's old timer and
      leaves other orders alone. */
  lemma RejectKeepsInv(s: DispatchState, o: OrderId, d: UserId, nearby: seq<Candidate>)
    requires Inv(s)
    ensures var r := Reject(s, o, d, nearby);
      && Inv(r)
      && (o in s.pendingOffers ==> s.pendingOffers[o] !in r.timers)
      && forall o' :: o' in s.orders && o' != o ==> r.orders[o'] == s.orders[o']
  {
    var c := ClearPending(s, o).(driverOffers := s.driverOffers - {d});
    if o in c.orders {
      var recorded := Declined(c, o, d);
      var j := ResumeAt(nearby, d);
      assert Inv(recorded);
      OfferKeepsInv(recorded, o, nearby, j);
      OfferFrame(recorded, o, nearby, j);
      OfferOutcome(recorded, o, nearby, j);
    }
  }

  /** Timer `t` fires: `handleDriverTimeout` with the captured arguments.
      A disarmed timer never fires. Otherwise the order's pending entry and
      the driver's offer entry are dropped; if the order exists the timeout
      is recorded as a decline and the run moves on to the next candidate
      of the same list. */
  function Fire(s: DispatchState, t: nat): (r: DispatchState)
    ensures t !in s.timers ==> r == s
    ensures t in s.timers && s.timers[t].orderId !in s.orders ==>
      && s.timers[t].orderId !in r.pendingOffers && s.timers[t].driverId !in r.driverOffers
      && r.orders == s.orders && r.history == s.history
    ensures r.orders.Keys == s.orders.Keys
  {
    if t !in s.timers then s
    else
      var tm := s.timers[t];
      Timeout(s.(timers := s.timers - {t}), tm.orderId, tm.driverId, tm.drivers, tm.index)
  }

  /** `handleDriverTimeout(orderId, driverId, drivers, currentIndex)`. */
  function Timeout(s: DispatchState, o: OrderId, d: UserId, drivers: seq<Candidate>, i: nat): (r: DispatchState)
    ensures r.orders.Keys == s.orders.Keys
    ensures o !in r.pendingOffers || o in s.orders
    ensures o !in s.orders ==> d !in r.driverOffers && r.orders == s.orders && r.history == s.history
  {
    var c := s.(pendingOffers := s.pendingOffers - {o}, driverOffers := s.driverOffers - {d});
    if o !in c.orders then c
    else Offer(Declined(c, o, d), o, drivers, i + 1)
  }

  /** The timer is spent and, as in `handleDriverTimeout`, the order's
      pending entry and the driver's offer entry are dropped. */
  function TimedOut(s: DispatchState, t: nat): (r: DispatchState)
    requires t in s.timers
    ensures TimersOk(s) ==> TimersOk(r)
    ensures t !in r.timers
    ensures r == s.(timers := r.timers, pendingOffers := r.pendingOffers, driverOffers := r.driverOffers)
  {
    var tm := s.timers[t];
    s.(timers := s.timers - {t},
       pendingOffers := s.pendingOffers - {tm.orderId},
       driverOffers := s.driverOffers - {tm.driverId})
  }

  /** A timeout of an existing order records the decline first and then
      offers the next candidates of the captured list, in list order. */
  lemma TimeoutMovesToNextCandidate(s: DispatchState, t: nat)
    requires t in s.timers && s.timers[t].orderId in s.orders
    requires s.timers[t].index < |s.timers[t].drivers|
    ensures var tm := s.timers[t];
      var r := Fire(s, t);
      && |r.history| > |s.history| && r.history[|s.history|] == DispatchRecord(tm.orderId, tm.driverId, Some(false))
      && ListOrder(s, r, tm.orderId, tm.drivers, tm.index + 1)
  {
    var tm := s.timers[t];
    var c := TimedOut(s, t);
    var recorded := Declined(c, tm.orderId, tm.driverId);
    assert recorded.orders == s.orders;
    assert Fire(s, t) == Offer(recorded, tm.orderId, tm.drivers, tm.index + 1);
    OfferFrame(recorded, tm.orderId, tm.drivers, tm.index + 1);
    OfferInListOrder(recorded, tm.orderId, tm.drivers, tm.index + 1);
    ListOrderFrom(s, recorded, Fire(s, t), tm.orderId, tm.drivers, tm.index + 1);
  }

  /** A fired timer keeps the invariant, is spent for good, and leaves other
      orders alone. */
  lemma FireTimerKeepsInv(s: DispatchState, t: nat)
    requires Inv(s)
    ensures var r := Fire(s, t);
      && Inv(r)
      && t !in r.timers
      && forall o' :: t in s.timers && o' in s.orders && o' != s.timers[t].orderId ==> r.orders[o'] == s.orders[o']
  {
    if t in s.timers {
      var tm := s.timers[t];
      var c := TimedOut(s, t);
      if tm.orderId in c.orders {
        var recorded := Declined(c, tm.orderId, tm.driverId);
        assert Inv(recorded);
        OfferKeepsInv(recorded, tm.orderId, tm.drivers, tm.index + 1);
        OfferFrame(recorded, tm.orderId, tm.drivers, tm.index + 1);
        OfferOutcome(recorded, tm.orderId, tm.drivers, tm.index + 1);
      }
    }
  }

  /** `cancelDispatch(orderId)`: the order's timer is cleared and every
      driver offer entry naming the order is dropped; the store and the
      gateway are not touched. */
  function Cancel(s: DispatchState, o: OrderId): (r: DispatchState)
    ensures o !in r.pendingOffers
    ensures o in s.pendingOffers ==> s.pendingOffers[o] !in r.timers
    ensures forall o' :: o' in s.pendingOffers && o' != o ==> o' in r.pendingOffers && r.pendingOffers[o'] == s.pendingOffers[o']
    ensures forall d :: d in r.driverOffers ==> r.driverOffers[d] != o
    ensures forall d :: d in s.driverOffers && s.driverOffers[d] != o ==> d in r.driverOffers && r.driverOffers[d] == s.driverOffers[d]
    ensures forall d :: d in r.driverOffers ==> d in s.driverOffers
    ensures r.orders == s.orders && r.history == s.history && r.notices == s.notices && r.offers == s.offers
    ensures Inv(s) ==> Inv(r)
  {
    var c := ClearPending(s, o);
    c.(driverOffers := map d | d in c.driverOffers && c.driverOffers[d] != o :: c.driverOffers[d])
  }

  /** Cancelling twice is cancelling once. */
  lemma CancelIdempotent(s: DispatchState, o: OrderId)
    ensures Cancel(Cancel(s, o), o) == Cancel(s, o)
  {
    var once := Cancel(s, o);
    assert Cancel(once, o).driverOffers == once.driverOffers;
  }

  /** `getStats()`. */
  function StatsOf(s: DispatchState): (r: Stats)
    ensures r.timeout == s.responseTimeout && r.maxAttempts == s.maxAttempts
    ensures r.activeDriverOffers == |s.driverOffers|
    ensures r.pendingOffers == |s.pendingOffers|
    ensures TimersOk(s) ==> r.pendingOffers <= |s.timers|
  {
    assert TimersOk(s) ==> |s.pendingOffers| <= |s.timers| by {
      if TimersOk(s) {
        PendingAtMostTimers(s);
      }
    }
    Stats(|s.pendingOffers|, |s.driverOffers|, s.responseTimeout, s.maxAttempts)
  }

  /** Each pending offer owns a distinct armed timer. */
  lemma PendingAtMostTimers(s: DispatchState)
    requires TimersOk(s)
    ensures |s.pendingOffers| <= |s.timers|
  {
    InjectiveCard(s.pendingOffers);
    assert s.pendingOffers.Values <= s.timers.Keys;
    SubsetCard(s.pendingOffers.Values, s.timers.Keys);
  }

  lemma {:induction false} InjectiveCard<K, V>(m: map<K, V>)
    requires forall a, b :: a in m && b in m && a != b ==> m[a] != m[b]
    ensures |m.Values| == |m|
    decreases |m|
  {
    if |m| > 0 {
      var k :| k in m;
      var m' := m - {k};
      InjectiveCard(m');
      forall v ensures v in m'.Values <==> v in m.Values - {m[k]} {
        if v in m.Values - {m[k]} {
          var a :| a in m && m[a] == v;
          assert a in m';
        }
      }
      assert m'.Values == m.Values - {m[k]};
    }
  }

  lemma {:induction false} SubsetCard<T>(a: set<T>, b: set<T>)
    requires a <= b
    ensures |a| <= |b|
    decreases |b|
  {
    if a != {} {
      var x :| x in a;
      SubsetCard(a - {x}, b - {x});
    }
  }

  /** The order store calls the dispatcher and the controller make. A call
      naming a missing order fails (`findUnique` answers `null`, `update`
      throws) and changes nothing. */
  class OrderStore {
    var orders: map<OrderId, Order>
    var history: seq<DispatchRecord>

    constructor (orders: map<OrderId, Order>)
      ensures this.orders == orders && history == []
    {
      this.orders := orders;
      history := [];
    }

    function FindById(o: OrderId): (r: Option<Order>)
      reads this
      ensures r.Some? <==> o in orders
      ensures r.Some? ==> r.value == orders[o]
    {
      if o in orders then Some(orders[o]) else None
    }

    method RecordDispatch(o: OrderId, d: UserId, accepted: Option<bool>) returns (ok: bool)
      modifies this
      ensures ok == (o in old(orders)) && orders == old(orders)
      ensures history == if ok then old(history) + [DispatchRecord(o, d, accepted)] else old(history)
    {
      ok := o in orders;
      if ok {
        history := history + [DispatchRecord(o, d, accepted)];
      }
    }

    method IncrementDispatchAttempts(o: OrderId) returns (ok: bool)
      modifies this
      ensures ok == (o in old(orders)) && history == old(history)
      ensures orders == if ok then old(orders)[o := old(orders)[o].(dispatchAttempts := old(orders)[o].dispatchAttempts + 1)]
                        else old(orders)
    {
      ok := o in orders;
      if ok {
        orders := orders[o := orders[o].(dispatchAttempts := orders[o].dispatchAttempts + 1)];
      }
    }

    method UpdateStatus(o: OrderId, status: OrderStatus) returns (ok: bool)
      modifies this
      ensures ok == (o in old(orders)) && history == old(history)
      ensures orders == if ok then old(orders)[o := old(orders)[o].(status := status)] else old(orders)
    {
      ok := o in orders;
      if ok {
        orders := orders[o := orders[o].(status := status)];
      }
    }

    /** `create`: the new row under a fresh id. */
    method Create(id: OrderId, order: Order)
      requires id !in orders
      modifies this
      ensures orders == old(orders)[id := order] && history == old(history)
    {
      orders := orders[id := order];
    }

    /** `cancel(id, reason)`: marks the order cancelled. */
    method Cancel(o: OrderId) returns (ok: bool)
      modifies this
      ensures ok == (o in old(orders)) && history == old(history)
      ensures orders == if ok then old(orders)[o := old(orders)[o].(status := Cancelled)] else old(orders)
    {
      ok := o in orders;
      if ok {
        orders := orders[o := orders[o].(status := Cancelled)];
      }
    }

    /** Sets the driver and marks the order accepted. */
    method AssignDriver(o: OrderId, d: UserId) returns (ok: bool)
      modifies this
      ensures ok == (o in old(orders)) && history == old(history)
      ensures orders == if ok then old(orders)[o := old(orders)[o].(driverId := Some(d), status := Accepted)]
                        else old(orders)
    {
      ok := o in orders;
      if ok {
        orders := orders[o := orders[o].(driverId := Some(d), status := Accepted)];
      }
    }
  }

  /** The gateway calls the dispatcher makes: an offer reaches a driver iff
      the driver is connected; customer notifications are logged. */
  class Gateway {
    var connected: set<UserId>
    var offers: seq<OfferSent>
    var notices: seq<Notice>

    constructor (connected: set<UserId>)
      ensures this.connected == connected && offers == [] && notices == []
    {
      this.connected := connected;
      offers := [];
      notices := [];
    }

    method OfferOrderToDriver(d: UserId, o: OrderId) returns (sent: bool)
      modifies this
      ensures sent == (d in connected)
      ensures connected == old(connected) && notices == old(notices)
      ensures offers == if sent then old(offers) + [OfferSent(d, o)] else old(offers)
    {
      sent := d in connected;
      if sent {
        offers := offers + [OfferSent(d, o)];
      }
    }

    method NotifyCustomer(c: UserId, event: CustomerEvent, o: OrderId)
      modifies this
      ensures notices == old(notices) + [Notice(c, event, o)]
      ensures connected == old(connected) && offers == old(offers)
    {
      notices := notices + [Notice(c, event, o)];
    }
  }

  const DefaultResponseTimeout: nat := 20000
  const DefaultMaxAttempts: nat := 5

  class DispatcherService {
    const store: OrderStore
    const gateway: Gateway
    const maxDispatchAttempts: nat
    const driverResponseTimeout: nat
    var pendingOffers: map<OrderId, nat>
    var driverOffers: map<UserId, OrderId>
    var timers: map<nat, Timer>
    var nextTimer: nat

    /** Everything the service reads or changes, as one value. */
    function State(): DispatchState
      reads this, store, gateway
    {
      DispatchState(store.orders, store.history, gateway.connected, gateway.offers, gateway.notices,
                    pendingOffers, driverOffers, timers, nextTimer, maxDispatchAttempts, driverResponseTimeout)
    }

    ghost predicate Valid()
      reads this, store, gateway
    {
      Inv(State())
    }

    /** `maxAttempts` and `responseTimeout` are the parsed configuration
        values (by default 5 and 20000 ms). With no offer pending the
        service is valid exactly when the store's attempt counters match
        its recorded offers within the maximum; a fresh store, with no
        history and no attempts, always does. */
    constructor (store: OrderStore, gateway: Gateway, maxAttempts: nat, responseTimeout: nat)
      ensures this.store == store && this.gateway == gateway
      ensures maxDispatchAttempts == maxAttempts && driverResponseTimeout == responseTimeout
      ensures pendingOffers == map[] && driverOffers == map[] && timers == map[] && nextTimer == 0
      ensures Valid() <==> AttemptsOk(State())
      ensures store.history == [] && (forall o :: o in store.orders ==> store.orders[o].dispatchAttempts == 0) ==> Valid()
    {
      this.store := store;
      this.gateway := gateway;
      maxDispatchAttempts := maxAttempts;
      driverResponseTimeout := responseTimeout;
      pendingOffers := map[];
      driverOffers := map[];
      timers := map[];
      nextTimer := 0;
      new;
      FreshStoreAttemptsOk(State());
    }

    method StartDispatching(o: OrderId, candidates: seq<Candidate>)
      requires Valid()
      modifies this, store, gateway
      ensures Valid()
      ensures State() == Start(old(State()), o, candidates)
    {
      assert store as object != gateway as object && this as object != store as object && this as object != gateway as object;
      ghost var s := State();
      var order := store.FindById(o);
      if order.None? || order.value.status != Searching {
        return;
      }
      if |candidates| == 0 {
        gateway.NotifyCustomer(order.value.customerId, NoDrivers, o);
        assert State() == s.(notices := s.notices + [Notice(order.value.customerId, NoDrivers, o)]);
        return;
      }
      OfferToNextDriver(o, candidates, 0);
      assert State() == Start(s, o, candidates);
    }

    method OfferToNextDriver(o: OrderId, drivers: seq<Candidate>, i: nat)
      modifies this, store, gateway
      ensures State() == Offer(old(State()), o, drivers, i)
      decreases |drivers| - i
    {
      assert store as object != gateway as object && this as object != store as object && this as object != gateway as object;
      ghost var s := State();
      if i >= |drivers| {
        var order := store.FindById(o);
        if order.Some? {
          gateway.NotifyCustomer(order.value.customerId, NoDriverAccepted, o);
        }
        return;
      }
      var order := store.FindById(o);
      if order.None? || order.value.dispatchAttempts >= maxDispatchAttempts {
        return;
      }
      var sent := SendOffer(o, drivers, i);
      if !sent {
        OfferSkipStep(s, o, drivers, i);
        ghost var skipped := State();
        OfferToNextDriver(o, drivers, i + 1);
        assert State() == Offer(skipped, o, drivers, i + 1);
        return;
      }
      OfferArmStep(s, o, drivers, i);
    }

    /** One offer to `drivers[i]`: the bookkeeping, the gateway call, and
        either the response timer (sent) or the declined record (the driver
        is not connected). */
    method SendOffer(o: OrderId, drivers: seq<Candidate>, i: nat) returns (sent: bool)
      requires i < |drivers| && o in store.orders
      modifies this, store, gateway
      ensures sent == (drivers[i].userId in old(gateway.connected))
      ensures sent ==> State() == Armed(Recorded(old(State()), o, drivers[i].userId), o, drivers, i)
      ensures !sent ==> State() == Skipped(Recorded(old(State()), o, drivers[i].userId), o, drivers[i].userId)
    {
      assert store as object != gateway as object && this as object != store as object && this as object != gateway as object;
      var driverId := drivers[i].userId;
      RecordOffer(o, driverId);
      ghost var offered := State();
      sent := gateway.OfferOrderToDriver(driverId, o);
      if !sent {
        SkipUnreachable(o, driverId);
        return;
      }
      ArmTimer(o, drivers, i);
      assert State() == Armed(offered, o, drivers, i);
    }

    /** An unreachable driver: the offer is recorded as declined and the
        driver's offer entry dropped. */
    method SkipUnreachable(o: OrderId, d: UserId)
      requires o in store.orders
      modifies this, store
      ensures State() == Skipped(old(State()), o, d)
    {
      assert store as object != gateway as object && this as object != store as object && this as object != gateway as object;
      var declined := store.RecordDispatch(o, d, Some(false));
      driverOffers := driverOffers - {d};
    }

    /** `setTimeout` for the driver's response and its `pendingOffers`
        entry. */
    method ArmTimer(o: OrderId, drivers: seq<Candidate>, i: nat)
      requires i < |drivers|
      modifies this
      ensures timers == old(timers)[old(nextTimer) := Timer(o, drivers[i].userId, drivers, i)]
      ensures pendingOffers == old(pendingOffers)[o := old(nextTimer)]
      ensures nextTimer == old(nextTimer) + 1 && driverOffers == old(driverOffers)
    {
      timers := timers[nextTimer := Timer(o, drivers[i].userId, drivers, i)];
      pendingOffers := pendingOffers[o := nextTimer];
      nextTimer := nextTimer + 1;
    }

    /** The bookkeeping of an offer before it is sent: the pending record,
        the attempt, the offered status and the driver's offer entry. */
    method RecordOffer(o: OrderId, d: UserId)
      requires o in store.orders
      modifies this, store
      ensures State() == Recorded(old(State()), o, d)
    {
      assert store as object != gateway as object && this as object != store as object && this as object != gateway as object;
      ghost var s := State();
      var recorded := store.RecordDispatch(o, d, None);
      var counted := store.IncrementDispatchAttempts(o);
      var marked := store.UpdateStatus(o, Offered);
      driverOffers := driverOffers[d := o];
      var order := s.orders[o];
      assert store.orders == s.orders[o := order.(dispatchAttempts := order.dispatchAttempts + 1, status := Offered)];
      RecordedIs(s, o, d);
    }

    method HandleDriverAccept(o: OrderId, d: UserId)
      requires Valid()
      modifies this, store, gateway
      ensures Valid()
      ensures State() == Accept(old(State()), o, d)
    {
      assert store as object != gateway as object && this as object != store as object && this as object != gateway as object;
      ghost var s := State();
      ClearOffer(o, d);
      ghost var c := State();
      var recorded := store.RecordDispatch(o, d, Some(true));
      if !recorded {
        return;
      }
      var madeDriver := store.AssignDriver(o, d);
      var order := store.FindById(o);
      if order.Some? {
        gateway.NotifyCustomer(order.value.customerId, OrderAccepted, o);
      }
      assert State() == c.(history := c.history + [DispatchRecord(o, d, Some(true))],
                           orders := c.orders[o := c.orders[o].(driverId := Some(d), status := Accepted)],
                           notices := c.notices + [Notice(c.orders[o].customerId, OrderAccepted, o)]);
    }

    /** The first steps of an accept or a reject: the order's response
        timer is cleared and the driver's offer entry dropped. */
    method ClearOffer(o: OrderId, d: UserId)
      modifies this
      ensures State() == ClearPending(old(State()), o).(driverOffers := old(driverOffers) - {d})
    {
      if o in pendingOffers {
        timers := timers - {pendingOffers[o]};
        pendingOffers := pendingOffers - {o};
      }
      driverOffers := driverOffers - {d};
    }

    /** `nearby` is the answer of the re-run nearby-driver query. */
    method HandleDriverReject(o: OrderId, d: UserId, nearby: seq<Candidate>)
      requires Valid()
      modifies this, store, gateway
      ensures Valid()
      ensures State() == Reject(old(State()), o, d, nearby)
    {
      assert store as object != gateway as object && this as object != store as object && this as object != gateway as object;
      ghost var s := State();
      RejectKeepsInv(s, o, d, nearby);
      ClearOffer(o, d);
      ghost var c := State();
      var recorded := store.RecordDispatch(o, d, Some(false));
      if !recorded {
        return;
      }
      ghost var declined := State();
      assert declined == Declined(c, o, d);
      var currentIndex := DriverQueues.IndexOf(CandidateIds(nearby), d);
      var resume := if currentIndex >= 0 then currentIndex + 1 else 0;
      assert resume == ResumeAt(nearby, d);
      OfferToNextDriver(o, nearby, resume);
      assert State() == Offer(declined, o, nearby, ResumeAt(nearby, d));
    }

    /** The response timer `t` fires; a cleared timer does nothing. */
    method FireTimer(t: nat)
      requires Valid()
      modifies this, store, gateway
      ensures Valid()
      ensures State() == Fire(old(State()), t)
    {
      assert store as object != gateway as object && this as object != store as object && this as object != gateway as object;
      FireTimerKeepsInv(State(), t);
      if t !in timers {
        return;
      }
      var timer := timers[t];
      timers := timers - {t};
      HandleDriverTimeout(timer.orderId, timer.driverId, timer.drivers, timer.index);
    }

    method HandleDriverTimeout(o: OrderId, d: UserId, drivers: seq<Candidate>, i: nat)
      modifies this, store, gateway
      ensures State() == Timeout(old(State()), o, d, drivers, i)
    {
      assert store as object != gateway as object && this as object != store as object && this as object != gateway as object;
      pendingOffers := pendingOffers - {o};
      driverOffers := driverOffers - {d};
      var recorded := store.RecordDispatch(o, d, Some(false));
      if !recorded {
        return;
      }
      OfferToNextDriver(o, drivers, i + 1);
    }

    method CancelDispatch(o: OrderId)
      requires Valid()
      modifies this
      ensures Valid()
      ensures State() == Cancel(old(State()), o)
    {
      ghost var s := State();
      if o in pendingOffers {
        timers := timers - {pendingOffers[o]};
        pendingOffers := pendingOffers - {o};
      }
      ghost var c := State();
      assert c == ClearPending(s, o);
      ghost var before := driverOffers;
      var entries := driverOffers.Keys;
      while entries != {}
        invariant entries <= before.Keys
        invariant driverOffers.Keys <= before.Keys
        invariant forall d :: d in before ==> (d in driverOffers <==> d in entries || before[d] != o)
        invariant forall d :: d in driverOffers ==> driverOffers[d] == before[d]
        invariant State() == c.(driverOffers := driverOffers)
        decreases entries
      {
        var d :| d in entries;
        if driverOffers[d] == o {
          driverOffers := driverOffers - {d};
        }
        entries := entries - {d};
      }
      ghost var kept := map d | d in before && before[d] != o :: before[d];
      assert driverOffers == kept by {
        assert driverOffers.Keys == kept.Keys;
      }
      assert State() == Cancel(s, o);
    }

    function GetStats(): (r: Stats)
      reads this, store, gateway
      ensures r == StatsOf(State())
    {
      Stats(|pendingOffers|, |driverOffers|, driverResponseTimeout, maxDispatchAttempts)
    }
  }
}
