/** backend/src/orders/orders.controller.ts: the order endpoints. The
    ownership, assignment and visibility checks and the `findAll` limit
    are decisions on values; `create`, `acceptOrder`, `rejectOrder`,
    `updateStatus` and `cancelOrder` sequence calls into the order store
    and the order dispatcher. */
module OrdersController {
  import opened Wrappers
  import opened OfferDispatch
  import JsText

  datatype Role = Customer | Provider | Admin

  /** The authenticated user the request carries. */
  datatype User = User(id: UserId, role: Role)

  /** The body of `POST /orders`. A `customerId` sent in it is ignored. */
  datatype NewOrder = NewOrder(
    customerId: Option<UserId>,
    driverId: Option<UserId>,
    pickupLat: real,
    pickupLng: real,
    dropoffLat: real,
    dropoffLng: real)

  datatype Denial = NotOwner | NotCancellable | NotAssigned | NotVisible

  /** What a handler answers. `Threw` is the exception raised when a handler
      reads a field of the `null` that `findById` returns for an unknown
      id. */
  datatype Reply =
    | CreatedReply(id: OrderId, order: Order)
    | AcceptReply(stored: Option<Order>)
    | RejectReply
    | StatusReply(status: OrderStatus, stored: Option<Order>)
    | CancelReply
    | OrderReply(order: Order)
    | Denied(why: Denial)
    | Threw

  /** The row `create` stores: the customer is the authenticated user,
      the driver is the body's or none, the order is searching with no
      attempts. */
  function NewRow(user: User, data: NewOrder): (r: Order)
    ensures r.customerId == user.id
    ensures r.driverId == data.driverId && r.status == Searching && r.dispatchAttempts == 0
    ensures r.pickupLat == data.pickupLat && r.pickupLng == data.pickupLng
    ensures r.dropoffLat == data.dropoffLat && r.dropoffLng == data.dropoffLng
  {
    Order(user.id, data.driverId, Searching, 0, data.pickupLat, data.pickupLng, data.dropoffLat, data.dropoffLng)
  }

  /** Whatever `customerId` the body names, the stored customer is the
      caller. */
  lemma BodyCustomerIgnored(user: User, data: NewOrder, claimed: Option<UserId>)
    ensures NewRow(user, data.(customerId := claimed)) == NewRow(user, data)
    ensures NewRow(user, data.(customerId := claimed)).customerId == user.id
  {
  }

  /** Statuses from which a customer may cancel. */
  predicate Cancellable(status: OrderStatus) {
    status == Searching || status == Offered
  }

  /** The checks of `cancelOrder`, ownership first. */
  function CancelCheck(order: Order, user: User): (r: Option<Denial>)
    ensures r == None <==> order.customerId == user.id && Cancellable(order.status)
    ensures r == Some(NotOwner) <==> order.customerId != user.id
    ensures r == Some(NotCancellable) <==> order.customerId == user.id && !Cancellable(order.status)
  {
    if order.customerId != user.id then Some(NotOwner)
    else if !Cancellable(order.status) then Some(NotCancellable)
    else None
  }

  /** Only the assigned driver may change the status; an order with no
      driver admits nobody. */
  predicate MayUpdateStatus(order: Order, user: User) {
    order.driverId == Some(user.id)
  }

  /** An order is visible to its customer, its driver and any admin. */
  predicate MayView(order: Order, user: User) {
    order.customerId == user.id || order.driverId == Some(user.id) || user.role == Admin
  }

  /** `getOrder`. */
  function ViewOrder(orders: map<OrderId, Order>, user: User, o: OrderId): (r: Reply)
    ensures o !in orders ==> r == Threw
    ensures o in orders && MayView(orders[o], user) ==> r == OrderReply(orders[o])
    ensures o in orders && !MayView(orders[o], user) ==> r == Denied(NotVisible)
  {
    if o !in orders then Threw
    else if MayView(orders[o], user) then OrderReply(orders[o])
    else Denied(NotVisible)
  }

  /** A user who is neither the customer, nor the driver, nor an admin
      never sees the order. */
  lemma StrangersSeeNothing(orders: map<OrderId, Order>, user: User, o: OrderId)
    requires o in orders && orders[o].customerId != user.id
    requires orders[o].driverId != Some(user.id) && user.role != Admin
    ensures !ViewOrder(orders, user, o).OrderReply?
  {
  }

  /** The page size of `findAll`: 100 when the query parameter is absent
      or empty, otherwise `parseInt` of it (`None` is `NaN`). */
  function FindAllLimit(limit: Option<string>): (r: Option<int>)
    ensures limit == None || limit == Some("") ==> r == Some(100)
    ensures limit.Some? && limit.value != "" ==> r == JsText.ParseInt(limit.value)
  {
    if limit.None? || limit.value == "" then Some(100) else JsText.ParseInt(limit.value)
  }

  /** A limit written in decimal digits is taken at its value. */
  lemma FindAllLimitOfDigits(limit: string)
    requires limit != [] && JsText.AllDigits(limit, false)
    ensures FindAllLimit(Some(limit)) == Some(JsText.Value(limit, false))
  {
    JsText.ParseIntOfDigits(limit);
  }

  class OrdersController {
    const store: OrderStore
    const dispatcher: DispatcherService

    /** The controller and the dispatcher share one order store. */
    ghost predicate Valid()
      reads this, dispatcher, dispatcher.store, dispatcher.gateway
    {
      dispatcher.store == store && dispatcher.Valid()
    }

    constructor (dispatcher: DispatcherService)
      requires dispatcher.Valid()
      ensures Valid() && this.dispatcher == dispatcher && store == dispatcher.store
    {
      this.dispatcher := dispatcher;
      store := dispatcher.store;
    }

    /** `create`: stores the row under the fresh id `id` and starts the
        dispatch with `candidates`, the drivers near the pickup. */
    method Create(user: User, data: NewOrder, id: OrderId, candidates: seq<Candidate>) returns (r: Reply)
      requires Valid() && Unused(dispatcher.State(), id)
      modifies store, dispatcher, dispatcher.gateway
      ensures Valid()
      ensures r == CreatedReply(id, NewRow(user, data))
      ensures dispatcher.State() ==
        Start(old(dispatcher.State()).(orders := old(store.orders)[id := NewRow(user, data)]), id, candidates)
    {
      assert store as object != dispatcher.gateway as object && dispatcher as object != store as object
        && dispatcher as object != dispatcher.gateway as object;
      ghost var s := dispatcher.State();
      var row := NewRow(user, data);
      store.Create(id, row);
      InsertKeepsInv(s, id, row);
      assert dispatcher.State() == s.(orders := s.orders[id := row]);
      dispatcher.StartDispatching(id, candidates);
      r := CreatedReply(id, row);
    }

    /** `acceptOrder`: the dispatcher's accept, then the order as stored. */
    method AcceptOrder(user: User, o: OrderId) returns (r: Reply)
      requires Valid()
      modifies store, dispatcher, dispatcher.gateway
      ensures Valid()
      ensures dispatcher.State() == Accept(old(dispatcher.State()), o, user.id)
      ensures r == AcceptReply(if o in store.orders then Some(store.orders[o]) else None)
    {
      dispatcher.HandleDriverAccept(o, user.id);
      var order := store.FindById(o);
      r := AcceptReply(order);
    }

    /** `rejectOrder`: the dispatcher's reject, where `nearby` is the
        re-run nearby-driver query. */
    method RejectOrder(user: User, o: OrderId, nearby: seq<Candidate>) returns (r: Reply)
      requires Valid()
      modifies store, dispatcher, dispatcher.gateway
      ensures Valid()
      ensures dispatcher.State() == Reject(old(dispatcher.State()), o, user.id, nearby)
      ensures r == RejectReply
    {
      dispatcher.HandleDriverReject(o, user.id, nearby);
      r := RejectReply;
    }

    /** `updateStatus`: only the assigned driver may set the status. */
    method UpdateStatus(user: User, o: OrderId, status: OrderStatus) returns (r: Reply)
      requires Valid()
      modifies store
      ensures Valid()
      ensures store.history == old(store.history)
      ensures o !in old(store.orders) ==> r == Threw && store.orders == old(store.orders)
      ensures o in old(store.orders) && !MayUpdateStatus(old(store.orders)[o], user) ==>
        r == Denied(NotAssigned) && store.orders == old(store.orders)
      ensures o in old(store.orders) && MayUpdateStatus(old(store.orders)[o], user) ==>
        && store.orders == old(store.orders)[o := old(store.orders)[o].(status := status)]
        && r == StatusReply(status, Some(store.orders[o]))
    {
      assert store as object != dispatcher.gateway as object && dispatcher as object != store as object;
      var order := store.FindById(o);
      if order.None? {
        return Threw;
      }
      if !MayUpdateStatus(order.value, user) {
        return Denied(NotAssigned);
      }
      StatusKeepsInv(dispatcher.State(), o, status);
      var updated := store.UpdateStatus(o, status);
      var reloaded := store.FindById(o);
      r := StatusReply(status, reloaded);
    }

    /** `cancelOrder`: the owner may cancel a searching or offered order;
        the dispatch is stopped first, then the order marked cancelled. */
    method CancelOrder(user: User, o: OrderId) returns (r: Reply)
      requires Valid()
      modifies store, dispatcher
      ensures Valid()
      ensures o !in old(store.orders) ==> r == Threw
      ensures o in old(store.orders) ==> r == (match CancelCheck(old(store.orders)[o], user)
                                                 case Some(why) => Denied(why)
                                                 case None => CancelReply)
      ensures r != CancelReply ==> dispatcher.State() == old(dispatcher.State())
      ensures r == CancelReply ==>
        var c := Cancel(old(dispatcher.State()), o);
        dispatcher.State() == c.(orders := c.orders[o := c.orders[o].(status := Cancelled)])
      ensures r == CancelReply ==>
        && o !in dispatcher.pendingOffers
        && (forall d :: d in dispatcher.driverOffers ==> dispatcher.driverOffers[d] != o)
        && store.orders[o].status == Cancelled
    {
      assert store as object != dispatcher.gateway as object && dispatcher as object != store as object;
      var order := store.FindById(o);
      if order.None? {
        return Threw;
      }
      var denial := CancelCheck(order.value, user);
      if denial.Some? {
        return Denied(denial.value);
      }
      dispatcher.CancelDispatch(o);
      ghost var c := dispatcher.State();
      StatusKeepsInv(c, o, Cancelled);
      var cancelled := store.Cancel(o);
      assert dispatcher.State() == c.(orders := c.orders[o := c.orders[o].(status := Cancelled)]);
      r := CancelReply;
    }

    /** `getOrder`. */
    function GetOrder(user: User, o: OrderId): (r: Reply)
      reads store
      ensures r == ViewOrder(store.orders, user, o)
    {
      var order := store.FindById(o);
      if order.None? then Threw
      else if !MayView(order.value, user) then Denied(NotVisible)
      else OrderReply(order.value)
    }
  }
}
