/** backend/src/dispatcher/dispatcher.service.ts: a round-robin queue of
    online drivers, hydrated from the nearest-approved query and kept in
    sync with online/offline location reports, with a pointer that wraps
    modulo the queue length. */
module QueueDispatch {
  import opened Wrappers
  import opened DriverQueues
  import Providers

  type DriverId = string

  /** The location report as the service reads it. `isOnline` is `None`
      when the payload carries no boolean (`typeof dto.isOnline !==
      'boolean'`). */
  datatype LocationUpdate = LocationUpdate(driverId: DriverId, lat: real, lng: real, isOnline: Option<bool>)

  /** The queue and its pointer. */
  datatype Queue = Queue(drivers: seq<DriverId>, pointer: nat)

  predicate QueueOk(q: Queue) {
    CursorOk(q.pointer, |q.drivers|)
  }

  /** `syncQueue(driverId, isOnline)`: going offline removes a queued driver
      and folds the pointer back into range (0 on an empty queue); coming
      online appends a driver that is not yet queued. */
  function Sync(q: Queue, d: DriverId, online: bool): (r: Queue)
    ensures QueueOk(q) ==> QueueOk(r)
    ensures !online ==> r.drivers == Without(q.drivers, d)
    ensures !online && d !in q.drivers ==> r == q
    ensures !online && d in q.drivers && q.pointer < |r.drivers| ==> r.pointer == q.pointer
    ensures !online && d in q.drivers && q.pointer >= |r.drivers| ==>
      r.pointer == (if |r.drivers| == 0 then 0 else q.pointer % |r.drivers|)
    ensures online ==> r.drivers == WithAppended(q.drivers, d) && r.pointer == q.pointer
    ensures NoDup(q.drivers) ==> NoDup(r.drivers)
  {
    var i := IndexOf(q.drivers, d);
    if !online && i >= 0 then
      var rest := RemoveAt(q.drivers, i);
      assert rest == Without(q.drivers, d);
      if |rest| > 0 then
        ModInRange(q.pointer, |rest|);
        Queue(rest, q.pointer % |rest|)
      else
        Queue(rest, 0)
    else if online && i == -1 then
      Queue(q.drivers + [d], q.pointer)
    else
      q
  }

  lemma ModInRange(p: nat, n: nat)
    requires n > 0
    ensures p % n < n
    ensures p < n ==> p % n == p
  {
  }

  /** Coming online twice has the effect of coming online once. */
  lemma SyncOnlineIdempotent(q: Queue, d: DriverId)
    ensures Sync(Sync(q, d, true), d, true) == Sync(q, d, true)
  {
  }

  /** On a duplicate-free queue, going offline twice has the effect of
      going offline once. */
  lemma {:induction false} SyncOfflineIdempotent(q: Queue, d: DriverId)
    requires NoDup(q.drivers)
    ensures Sync(Sync(q, d, false), d, false) == Sync(q, d, false)
  {
    var r := Sync(q, d, false);
    assert d !in r.drivers;
  }

  /** The user ids of the query result, in result order. */
  function UserIds(c: seq<Providers.NearbyProvider>): (r: seq<DriverId>)
    ensures |r| == |c|
    ensures forall i :: 0 <= i < |c| ==> r[i] == c[i].userId
  {
    seq(|c|, i requires 0 <= i < |c| => c[i].userId)
  }

  /** Distinct users give a queue without repeats. */
  lemma UserIdsNoDup(c: seq<Providers.NearbyProvider>)
    requires Providers.DistinctUsers(c)
    ensures NoDup(UserIds(c))
  {
  }

  class DispatcherService {
    const providers: Providers.ProvidersService
    var driverQueue: seq<DriverId>
    var queuePointer: nat

    ghost predicate Valid()
      reads this, providers
    {
      providers.Valid() && NoDup(driverQueue) && CursorOk(queuePointer, |driverQueue|)
    }

    constructor (providers: Providers.ProvidersService)
      requires providers.Valid()
      ensures Valid() && this.providers == providers
      ensures driverQueue == [] && queuePointer == 0
    {
      this.providers := providers;
      driverQueue := [];
      queuePointer := 0;
    }

    /** Stores the location; only when the report carries an online flag is
        the profile's flag written and the queue synced. A missing profile
        makes `markOnline` throw, which skips the sync; `ok` is false exactly
        then, when the handler rejects. */
    method HandleDriverLocationUpdate(dto: LocationUpdate, now: int) returns (ok: bool)
      requires Valid()
      modifies this, providers
      ensures Valid()
      ensures ok <==> dto.isOnline.None? || Providers.HasProfile(old(providers.profiles), dto.driverId)
      ensures dto.isOnline.None? ==>
        && providers.profiles == Providers.SetLocation(old(providers.profiles), dto.driverId, dto.lat, dto.lng, now)
        && driverQueue == old(driverQueue) && queuePointer == old(queuePointer)
      ensures dto.isOnline.Some? ==>
        var located := Providers.SetLocation(old(providers.profiles), dto.driverId, dto.lat, dto.lng, now);
        if Providers.HasProfile(old(providers.profiles), dto.driverId) then
          && providers.profiles == Providers.SetOnline(located, dto.driverId, dto.isOnline.value)
          && Queue(driverQueue, queuePointer) ==
               Sync(Queue(old(driverQueue), old(queuePointer)), dto.driverId, dto.isOnline.value)
        else
          && providers.profiles == located
          && driverQueue == old(driverQueue) && queuePointer == old(queuePointer)
    {
      ghost var before := providers.profiles;
      providers.UpdateDriverLocation(dto.driverId, dto.lat, dto.lng, now);
      assert Providers.HasProfile(providers.profiles, dto.driverId) <==> Providers.HasProfile(before, dto.driverId);
      ok := true;
      if dto.isOnline.Some? {
        ok := providers.MarkOnline(dto.driverId, dto.isOnline.value);
        if !ok {
          return;
        }
        SyncQueue(dto.driverId, dto.isOnline.value);
      }
    }

    /** Replaces the queue with the query's user ids in result order and
        resets the pointer; returns the query result. */
    method HydrateQueueFromPickup(pickup: Providers.Location, distance: (Providers.Location, Providers.Location) -> real)
      returns (candidates: seq<Providers.NearbyProvider>)
      requires Valid()
      modifies this
      ensures Valid()
      ensures candidates == Providers.NearestApproved(providers.profiles, pickup, distance, 10)
      ensures driverQueue == UserIds(candidates) && queuePointer == 0
    {
      candidates := providers.FindNearestApprovedDrivers(pickup.lat, pickup.lng, distance);
      driverQueue := [];
      driverQueue := driverQueue + UserIds(candidates);
      queuePointer := 0;
      UserIdsNoDup(candidates);
    }

    /** Walks the whole queue once through `nextDriver`, stopping early at a
        falsy (empty) id, and always answers `null`. The ghost results record
        the ids `nextDriver` returned and how often it was called. */
    method DispatchOrder(orderId: string) returns (r: Option<DriverId>, ghost read: seq<DriverId>, ghost calls: nat)
      requires Valid()
      modifies this
      ensures Valid()
      ensures r == None
      ensures driverQueue == old(driverQueue)
      ensures old(driverQueue) == [] ==> calls == 0 && queuePointer == old(queuePointer)
      ensures old(driverQueue) != [] ==>
        && calls <= |driverQueue|
        && read == Visits(driverQueue, old(queuePointer), calls)
        && queuePointer == CursorAfter(old(queuePointer), |driverQueue|, calls)
      ensures (old(driverQueue) != [] && forall k :: 0 <= k < |old(driverQueue)| ==> old(driverQueue)[k] != "") ==>
        && calls == |driverQueue|
        && queuePointer == old(queuePointer)
        && multiset(read) == multiset(driverQueue)
    {
      read, calls := [], 0;
      if |driverQueue| == 0 {
        return None, read, calls;
      }
      var attempts := |driverQueue|;
      ghost var start := queuePointer;
      var i := 0;
      while i < attempts
        invariant 0 <= i <= attempts == |driverQueue|
        invariant driverQueue == old(driverQueue) && Valid()
        invariant calls == i
        invariant read == Visits(driverQueue, start, i)
        invariant queuePointer == CursorAfter(start, attempts, i)
        invariant forall k :: 0 <= k < |read| ==> read[k] != ""
      {
        VisitsSnoc(driverQueue, start, i);
        var driverId := NextDriver();
        read, calls := read + [driverId.GetOr("")], calls + 1;
        if driverId.None? || driverId.value == "" {
          return None, read, calls;
        }
        i := i + 1;
      }
      VisitsFullCycle(driverQueue, start);
      if forall k :: 0 <= k < |driverQueue| ==> driverQueue[k] != "" {
        assert read == Visits(driverQueue, start, |driverQueue|);
      }
      r := None;
    }

    method SyncQueue(driverId: DriverId, isOnline: bool)
      requires Valid()
      modifies this
      ensures Valid()
      ensures Queue(driverQueue, queuePointer) == Sync(Queue(old(driverQueue), old(queuePointer)), driverId, isOnline)
    {
      var currentIndex := IndexOf(driverQueue, driverId);
      if !isOnline && currentIndex >= 0 {
        driverQueue := RemoveAt(driverQueue, currentIndex);
        queuePointer := if |driverQueue| > 0 then queuePointer % |driverQueue| else 0;
        return;
      }
      if isOnline && currentIndex == -1 {
        driverQueue := driverQueue + [driverId];
      }
    }

    /** `null` on an empty queue; otherwise the id under the pointer, and
        the pointer advances modulo the length. */
    method NextDriver() returns (r: Option<DriverId>)
      requires Valid()
      modifies this
      ensures Valid()
      ensures driverQueue == old(driverQueue)
      ensures old(driverQueue) == [] ==> r == None && queuePointer == old(queuePointer)
      ensures old(driverQueue) != [] ==>
        r == Some(driverQueue[old(queuePointer)]) && queuePointer == Advance(old(queuePointer), |driverQueue|)
    {
      if |driverQueue| == 0 {
        return None;
      }
      var driverId := driverQueue[queuePointer];
      queuePointer := (queuePointer + 1) % |driverQueue|;
      r := Some(driverId);
    }

    /** A copy of the queue. */
    function GetQueueSnapshot(): (r: seq<DriverId>)
      reads this
      ensures r == driverQueue
    {
      driverQueue[..]
    }
  }
}
