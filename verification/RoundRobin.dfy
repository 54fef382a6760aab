/** backend/src/dispatcher/round-robin.service.ts: an in-memory round-robin
    queue of registered drivers, a cursor into it, and each driver's last
    reported location. */
module RoundRobin {
  import opened Wrappers
  import opened DriverQueues

  type DriverId = string

  /** One location report. `updatedAt` is the report time, given by the
      caller in place of `new Date()`. */
  datatype DriverState = DriverState(
    id: DriverId,
    lat: real,
    lng: real,
    heading: Option<real>,
    status: Option<string>,
    updatedAt: int)

  /** Every stored state is filed under its own driver id. */
  predicate StatesKeyed(m: map<DriverId, DriverState>) {
    forall d :: d in m ==> m[d].id == d
  }

  /** The queued ids that have a stored state, in queue order. */
  function Known(q: seq<DriverId>, m: map<DriverId, DriverState>): (r: seq<DriverId>)
    ensures |r| <= |q|
    ensures forall d :: d in r ==> d in q && d in m
    ensures forall d :: d in q && d in m ==> d in r
  {
    if q == [] then []
    else (if q[0] in m then [q[0]] else []) + Known(q[1..], m)
  }

  /** Every id listed earlier sits earlier in `q`. */
  predicate InQueueOrder(q: seq<DriverId>, ids: seq<DriverId>) {
    forall i, j :: 0 <= i < j < |ids| ==> IndexOf(q, ids[i]) < IndexOf(q, ids[j])
  }

  /** On a duplicate-free queue the filter keeps the queue's order. */
  lemma {:induction false} KnownInQueueOrder(q: seq<DriverId>, m: map<DriverId, DriverState>)
    requires NoDup(q)
    ensures InQueueOrder(q, Known(q, m))
  {
    if q != [] {
      NoDupTail(q);
      KnownInQueueOrder(q[1..], m);
      var rest := Known(q[1..], m);
      InQueueOrderCons(q, rest);
      if q[0] in m {
        assert Known(q, m) == [q[0]] + rest;
      } else {
        assert Known(q, m) == rest;
      }
    }
  }

  /** Ids in order within the tail stay in order within the whole queue,
      also behind its head. */
  lemma InQueueOrderCons(q: seq<DriverId>, rest: seq<DriverId>)
    requires NoDup(q) && q != []
    requires forall x :: x in rest ==> x in q[1..]
    requires InQueueOrder(q[1..], rest)
    ensures InQueueOrder(q, rest) && InQueueOrder(q, [q[0]] + rest)
  {
    forall i, j | 0 <= i < j < |rest| ensures IndexOf(q, rest[i]) < IndexOf(q, rest[j]) {
      TailIndex(q, rest[i]);
      TailIndex(q, rest[j]);
    }
    var s := [q[0]] + rest;
    forall i, j | 0 <= i < j < |s| ensures IndexOf(q, s[i]) < IndexOf(q, s[j]) {
      assert s[j] == rest[j - 1];
      TailIndex(q, rest[j - 1]);
      if i > 0 {
        assert s[i] == rest[i - 1];
      }
    }
  }

  lemma NoDupTail(q: seq<DriverId>)
    requires NoDup(q) && q != []
    ensures NoDup(q[1..])
  {
    var tail := q[1..];
    forall i, j | 0 <= i < j < |tail| ensures tail[i] != tail[j] {
      assert tail[i] == q[i + 1] && tail[j] == q[j + 1];
    }
  }

  /** An id after the head of a duplicate-free queue is not the head, and
      its position is one more than in the tail. */
  lemma TailIndex(q: seq<DriverId>, x: DriverId)
    requires NoDup(q) && q != [] && x in q[1..]
    ensures x != q[0] && IndexOf(q, x) == IndexOf(q[1..], x) + 1
  {
    var k :| 0 <= k < |q[1..]| && q[1..][k] == x;
    assert q[k + 1] == x;
  }

  /** `queue.map(id => state.get(id)).filter(Boolean)`: the states of the
      queued drivers that have one, in queue order. */
  function ActiveStates(q: seq<DriverId>, m: map<DriverId, DriverState>): (r: seq<DriverState>)
    ensures |r| == |Known(q, m)| <= |q|
    ensures forall k :: 0 <= k < |r| ==> Known(q, m)[k] in m && r[k] == m[Known(q, m)[k]]
    ensures StatesKeyed(m) ==> forall k :: 0 <= k < |r| ==> r[k].id == Known(q, m)[k]
  {
    if q == [] then []
    else
      var rest := ActiveStates(q[1..], m);
      if q[0] in m then
        assert Known(q, m) == [q[0]] + Known(q[1..], m);
        [m[q[0]]] + rest
      else
        assert Known(q, m) == Known(q[1..], m);
        rest
  }

  class RoundRobinService {
    var driverQueue: seq<DriverId>
    var driverState: map<DriverId, DriverState>
    var currentIndex: nat

    /** No driver is queued twice, the cursor is in range, and every state
        is filed under its driver's id. */
    ghost predicate Valid()
      reads this
    {
      && NoDup(driverQueue)
      && CursorOk(currentIndex, |driverQueue|)
      && StatesKeyed(driverState)
    }

    constructor ()
      ensures Valid()
      ensures driverQueue == [] && driverState == map[] && currentIndex == 0
    {
      driverQueue := [];
      driverState := map[];
      currentIndex := 0;
    }

    /** Appends the driver unless it is already queued, so a second
        registration changes nothing. */
    method RegisterDriver(driverId: DriverId)
      requires Valid()
      modifies this
      ensures Valid()
      ensures driverQueue == WithAppended(old(driverQueue), driverId)
      ensures driverState == old(driverState) && currentIndex == old(currentIndex)
    {
      if driverId !in driverQueue {
        driverQueue := driverQueue + [driverId];
      }
    }

    /** Removes the driver from the queue if present (resetting the cursor
        to 0 when it falls off the end) and always forgets its state. */
    method RemoveDriver(driverId: DriverId)
      requires Valid()
      modifies this
      ensures Valid()
      ensures driverQueue == Without(old(driverQueue), driverId)
      ensures driverId !in driverQueue
      ensures currentIndex ==
        if driverId in old(driverQueue) && old(currentIndex) >= |driverQueue| then 0
        else old(currentIndex)
      ensures driverState == old(driverState) - {driverId}
    {
      var index := IndexOf(driverQueue, driverId);
      if index >= 0 {
        driverQueue := RemoveAt(driverQueue, index);
        if currentIndex >= |driverQueue| {
          currentIndex := 0;
        }
      }
      driverState := driverState - {driverId};
    }

    /** Last write wins: replaces only this driver's state; the queue and
        the cursor are untouched. */
    method UpdateDriverLocation(driverId: DriverId, lat: real, lng: real,
                                heading: Option<real>, status: Option<string>, now: int)
      requires Valid()
      modifies this
      ensures Valid()
      ensures driverState == old(driverState)[driverId := DriverState(driverId, lat, lng, heading, status, now)]
      ensures driverQueue == old(driverQueue) && currentIndex == old(currentIndex)
    {
      driverState := driverState[driverId := DriverState(driverId, lat, lng, heading, status, now)];
    }

    /** The stored state of a driver, if any; it always belongs to that
        driver. */
    function GetDriverState(driverId: DriverId): (r: Option<DriverState>)
      requires Valid()
      reads this
      ensures r.Some? ==> driverId in driverState && r.value.id == driverId
      ensures r.None? ==> driverId !in driverState
    {
      if driverId in driverState then Some(driverState[driverId]) else None
    }

    /** On an empty queue: `undefined`, nothing changes. Otherwise: the state
        of the driver under the cursor (possibly `undefined`) and the cursor
        advances modulo the queue length. */
    method GetNextDriver() returns (r: Option<DriverState>)
      requires Valid()
      modifies this
      ensures Valid()
      ensures driverQueue == old(driverQueue) && driverState == old(driverState)
      ensures old(driverQueue) == [] ==> r == None && currentIndex == old(currentIndex)
      ensures old(driverQueue) != [] ==>
        && r == GetDriverState(old(driverQueue)[old(currentIndex)])
        && currentIndex == Advance(old(currentIndex), |driverQueue|)
    {
      if |driverQueue| == 0 {
        return None;
      }
      var driverId := driverQueue[currentIndex];
      currentIndex := (currentIndex + 1) % |driverQueue|;
      r := GetDriverState(driverId);
    }

    /** The states of the queued drivers that have one, in queue order. */
    function ListActiveDrivers(): (r: seq<DriverState>)
      requires Valid()
      reads this
      ensures |r| <= |driverQueue|
      ensures forall k :: 0 <= k < |r| ==>
        r[k].id in driverQueue && r[k].id in driverState && r[k] == driverState[r[k].id]
      ensures forall d :: d in driverQueue && d in driverState ==> driverState[d] in r
      ensures r == ActiveStates(driverQueue, driverState)
      ensures forall i, j :: 0 <= i < j < |r| ==> IndexOf(driverQueue, r[i].id) < IndexOf(driverQueue, r[j].id)
    {
      var r := ActiveStates(driverQueue, driverState);
      KnownInQueueOrder(driverQueue, driverState);
      assert forall d :: d in driverQueue && d in driverState ==> driverState[d] in r by {
        forall d | d in driverQueue && d in driverState ensures driverState[d] in r {
          var known := Known(driverQueue, driverState);
          assert d in known;
          var k :| 0 <= k < |known| && known[k] == d;
          assert r[k] == driverState[d];
        }
      }
      r
    }
  }

  /** Fairness of `getNextDriver`: with no queue changes, `|queue|`
      consecutive calls starting at any cursor read every queued driver
      exactly once and bring the cursor back to where it started. */
  lemma FullCycleVisitsEachDriverOnce(q: seq<DriverId>, cursor: nat)
    requires NoDup(q) && cursor < |q|
    ensures multiset(Visits(q, cursor, |q|)) == multiset(q)
    ensures NoDup(Visits(q, cursor, |q|))
    ensures CursorAfter(cursor, |q|, |q|) == cursor
    ensures forall d :: d in q ==> multiset(Visits(q, cursor, |q|))[d] == 1
  {
    VisitsFullCycle(q, cursor);
    forall d | d in q ensures multiset(Visits(q, cursor, |q|))[d] == 1 {
      NoDupCountsOne(q, d);
    }
  }

  /** In a queue without repeats every entry occurs once. */
  lemma {:induction false} NoDupCountsOne(q: seq<DriverId>, d: DriverId)
    requires NoDup(q) && d in q
    ensures multiset(q)[d] == 1
  {
    if q[0] == d {
      assert d !in q[1..];
      assert q == [q[0]] + q[1..];
    } else {
      assert NoDup(q[1..]);
      NoDupCountsOne(q[1..], d);
      assert q == [q[0]] + q[1..];
    }
  }
}
