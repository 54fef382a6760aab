/** backend/src/providers/providers.service.ts: the provider (driver) profile
    table with keyed in-place row updates, and the nearest-approved-drivers
    query (filter, sort by distance, limit). The PostGIS distance is an
    abstract function supplied by the caller. */
module Providers {
  import opened Wrappers

  type UserId = string

  datatype ProviderStatus = Pending | Approved | Rejected

  datatype Location = Location(lat: real, lng: real)

  /** One row of the profile table (vehicle details are not modelled). */
  datatype ProviderProfile = ProviderProfile(
    userId: UserId,
    isOnline: bool,
    status: ProviderStatus,
    currentLocation: Option<Location>,
    lastPingAt: Option<int>)

  /** One query result row: `{ userId, distanceM }`. */
  datatype NearbyProvider = NearbyProvider(userId: UserId, distanceM: real)

  /** `userId` is the table's unique key. */
  predicate UniqueIds(rows: seq<ProviderProfile>) {
    forall i, j :: 0 <= i < j < |rows| ==> rows[i].userId != rows[j].userId
  }

  predicate HasProfile(rows: seq<ProviderProfile>, u: UserId) {
    exists i :: 0 <= i < |rows| && rows[i].userId == u
  }

  /** The WHERE clause: online, APPROVED and with a known location. */
  predicate Eligible(p: ProviderProfile) {
    p.isOnline && p.status == Approved && p.currentLocation.Some?
  }

  /** The SELECT list for one eligible row. */
  function Project(p: ProviderProfile, pickup: Location, distance: (Location, Location) -> real): NearbyProvider
    requires Eligible(p)
  {
    NearbyProvider(p.userId, distance(p.currentLocation.value, pickup))
  }

  // ---------------------------------------------------------------------
  // Keyed row updates (Prisma `update where userId` / raw `UPDATE ... WHERE`)

  /** `markOnline`: only the `isOnline` field of `u`'s row changes. */
  function SetOnline(rows: seq<ProviderProfile>, u: UserId, online: bool): (r: seq<ProviderProfile>)
    ensures |r| == |rows|
    ensures forall i :: 0 <= i < |rows| ==>
      && r[i].userId == rows[i].userId
      && r[i].status == rows[i].status
      && r[i].currentLocation == rows[i].currentLocation
      && r[i].lastPingAt == rows[i].lastPingAt
      && r[i].isOnline == (if rows[i].userId == u then online else rows[i].isOnline)
  {
    seq(|rows|, i requires 0 <= i < |rows| =>
      if rows[i].userId == u then rows[i].(isOnline := online) else rows[i])
  }

  /** `updateStatus`: only the `status` field of `u`'s row changes. */
  function SetStatus(rows: seq<ProviderProfile>, u: UserId, status: ProviderStatus): (r: seq<ProviderProfile>)
    ensures |r| == |rows|
    ensures forall i :: 0 <= i < |rows| ==>
      && r[i].userId == rows[i].userId
      && r[i].isOnline == rows[i].isOnline
      && r[i].currentLocation == rows[i].currentLocation
      && r[i].lastPingAt == rows[i].lastPingAt
      && r[i].status == (if rows[i].userId == u then status else rows[i].status)
  {
    seq(|rows|, i requires 0 <= i < |rows| =>
      if rows[i].userId == u then rows[i].(status := status) else rows[i])
  }

  /** `updateDriverLocation`: only `currentLocation` and `lastPingAt` of
      `u`'s row change; `now` stands for SQL `NOW()`. */
  function SetLocation(rows: seq<ProviderProfile>, u: UserId, lat: real, lng: real, now: int): (r: seq<ProviderProfile>)
    ensures |r| == |rows|
    ensures forall i :: 0 <= i < |rows| ==>
      && r[i].userId == rows[i].userId
      && r[i].isOnline == rows[i].isOnline
      && r[i].status == rows[i].status
      && (rows[i].userId == u ==> r[i].currentLocation == Some(Location(lat, lng)) && r[i].lastPingAt == Some(now))
      && (rows[i].userId != u ==> r[i] == rows[i])
  {
    seq(|rows|, i requires 0 <= i < |rows| =>
      if rows[i].userId == u
      then rows[i].(currentLocation := Some(Location(lat, lng)), lastPingAt := Some(now))
      else rows[i])
  }

  // ---------------------------------------------------------------------
  // findNearestApprovedDrivers as filter / sort / limit

  /** The eligible rows, projected, in table-scan order. */
  function Candidates(rows: seq<ProviderProfile>, pickup: Location, distance: (Location, Location) -> real): (r: seq<NearbyProvider>)
    ensures |r| <= |rows|
    ensures forall x :: x in r ==>
      exists i :: 0 <= i < |rows| && Eligible(rows[i]) && x == Project(rows[i], pickup, distance)
    ensures forall i :: 0 <= i < |rows| && Eligible(rows[i]) ==> Project(rows[i], pickup, distance) in r
  {
    if rows == [] then []
    else
      var rest := Candidates(rows[1..], pickup, distance);
      assert forall i :: 1 <= i < |rows| ==> rows[i] == rows[1..][i - 1];
      if Eligible(rows[0]) then [Project(rows[0], pickup, distance)] + rest else rest
  }

  predicate SortedByDistance(xs: seq<NearbyProvider>) {
    forall i, j :: 0 <= i < j < |xs| ==> xs[i].distanceM <= xs[j].distanceM
  }

  /** A row no farther than every row of a sorted list can go in front. */
  lemma SortedCons(h: NearbyProvider, t: seq<NearbyProvider>)
    requires SortedByDistance(t)
    requires forall j :: 0 <= j < |t| ==> h.distanceM <= t[j].distanceM
    ensures SortedByDistance([h] + t)
  {
    var s := [h] + t;
    forall i, j | 0 <= i < j < |s| ensures s[i].distanceM <= s[j].distanceM {
      assert s[j] == t[j - 1];
      if i > 0 {
        assert s[i] == t[i - 1];
      }
    }
  }

  /** The head of a sorted list is no farther than any row after it. */
  lemma SortedHeadBelow(xs: seq<NearbyProvider>)
    requires SortedByDistance(xs) && xs != []
    ensures forall y :: y in xs[1..] ==> xs[0].distanceM <= y.distanceM
  {
    forall y | y in xs[1..] ensures xs[0].distanceM <= y.distanceM {
      var k :| 0 <= k < |xs[1..]| && xs[1..][k] == y;
      assert xs[k + 1] == y;
    }
  }

  /** A row no farther than `x` and than every row of `t` is no farther
      than any row of a list holding `t` and `x`. */
  lemma BelowAllOfMultiset(h: NearbyProvider, t: seq<NearbyProvider>, x: NearbyProvider, s: seq<NearbyProvider>)
    requires multiset(s) == multiset(t) + multiset{x}
    requires h.distanceM <= x.distanceM
    requires forall y :: y in t ==> h.distanceM <= y.distanceM
    ensures forall j :: 0 <= j < |s| ==> h.distanceM <= s[j].distanceM
  {
    forall j | 0 <= j < |s| ensures h.distanceM <= s[j].distanceM {
      assert s[j] in multiset(s);
      assert s[j] == x || s[j] in multiset(t);
    }
  }

  /** Inserts `x` before the first row that is not nearer than it. */
  function InsertByDistance(x: NearbyProvider, xs: seq<NearbyProvider>): (r: seq<NearbyProvider>)
    requires SortedByDistance(xs)
    ensures SortedByDistance(r)
    ensures |r| == |xs| + 1
    ensures multiset(r) == multiset(xs) + multiset{x}
  {
    if xs == [] || x.distanceM <= xs[0].distanceM then
      SortedCons(x, xs);
      [x] + xs
    else
      var rest := InsertByDistance(x, xs[1..]);
      assert xs == [xs[0]] + xs[1..];
      SortedHeadBelow(xs);
      BelowAllOfMultiset(xs[0], xs[1..], x, rest);
      SortedCons(xs[0], rest);
      [xs[0]] + rest
  }

  /** `ORDER BY distance_m ASC`, as an insertion sort. */
  function SortByDistance(xs: seq<NearbyProvider>): (r: seq<NearbyProvider>)
    ensures SortedByDistance(r)
    ensures |r| == |xs|
    ensures multiset(r) == multiset(xs)
  {
    if xs == [] then []
    else
      assert xs == [xs[0]] + xs[1..];
      InsertByDistance(xs[0], SortByDistance(xs[1..]))
  }

  function Min(a: nat, b: nat): nat {
    if a <= b then a else b
  }

  /** The first `m` rows of a nearest-first list are no farther than any
      row left out. */
  lemma SortedPrefixNearest(sorted: seq<NearbyProvider>, m: nat)
    requires SortedByDistance(sorted) && m <= |sorted|
    ensures forall x, y :: x in sorted[..m] && y in sorted && y !in sorted[..m] ==> x.distanceM <= y.distanceM
  {
    forall x, y | x in sorted[..m] && y in sorted && y !in sorted[..m] ensures x.distanceM <= y.distanceM {
      var j :| 0 <= j < |sorted| && sorted[j] == y;
      var i :| 0 <= i < m && sorted[..m][i] == x;
      assert j >= m;
    }
  }

  /** Sorting keeps exactly the rows it was given. */
  lemma SortKeepsMembers(c: seq<NearbyProvider>)
    ensures forall x :: x in SortByDistance(c) <==> x in c
  {
    var sorted := SortByDistance(c);
    forall x ensures x in sorted <==> x in c {
      assert x in sorted <==> x in multiset(sorted);
      assert x in c <==> x in multiset(c);
    }
  }

  /** The first `Min(limit, |c|)` rows of `c` sorted nearest-first: as
      many as the limit allows, in order, all from `c`, all of `c` when it
      fits, and none farther than a row left out. */
  lemma NearestPrefix(c: seq<NearbyProvider>, limit: nat)
    ensures var r := SortByDistance(c)[..Min(limit, |c|)];
      && |r| == Min(limit, |c|)
      && SortedByDistance(r)
      && (forall x :: x in r ==> x in c)
      && (|c| <= limit ==> multiset(r) == multiset(c))
      && (forall x, y :: x in r && y in c && y !in r ==> x.distanceM <= y.distanceM)
  {
    var sorted := SortByDistance(c);
    SortKeepsMembers(c);
    var m := Min(limit, |c|);
    SortedPrefixNearest(sorted, m);
    assert m == |sorted| ==> sorted[..m] == sorted;
    assert forall x :: x in sorted[..m] ==> x in sorted;
  }

  /** Cutting the sorted rows short only drops rows: each row of the
      result is one of `c`, taken no more often than `c` holds it. */
  lemma NearestSubMultiset(c: seq<NearbyProvider>, limit: nat)
    ensures multiset(SortByDistance(c)[..Min(limit, |c|)]) <= multiset(c)
  {
    var sorted := SortByDistance(c);
    PrefixSubMultiset(sorted, Min(limit, |c|));
    assert multiset(sorted) == multiset(c);
  }

  lemma PrefixSubMultiset(s: seq<NearbyProvider>, m: nat)
    requires m <= |s|
    ensures multiset(s[..m]) <= multiset(s)
  {
    assert s == s[..m] + s[m..];
  }

  /** The query: eligible rows nearest-first, at most `limit` (default 10)
      of them, each mapped to `{userId, distanceM}`. */
  function NearestApproved(rows: seq<ProviderProfile>, pickup: Location,
                           distance: (Location, Location) -> real, limit: nat := 10): (r: seq<NearbyProvider>)
    ensures |r| == Min(limit, |Candidates(rows, pickup, distance)|) <= limit
    ensures SortedByDistance(r)
    ensures forall x :: x in r ==> x in Candidates(rows, pickup, distance)
    ensures multiset(r) <= multiset(Candidates(rows, pickup, distance))
    ensures |Candidates(rows, pickup, distance)| <= limit ==>
      multiset(r) == multiset(Candidates(rows, pickup, distance))
    ensures forall x, y :: x in r && y in Candidates(rows, pickup, distance) && y !in r ==>
      x.distanceM <= y.distanceM
  {
    var c := Candidates(rows, pickup, distance);
    NearestPrefix(c, limit);
    NearestSubMultiset(c, limit);
    SortByDistance(c)[..Min(limit, |c|)]
  }

  /** Every row the query returns is an online, APPROVED, located profile,
      reported with its own user id and its distance from the pickup. */
  lemma {:induction false} ResultsAreEligible(rows: seq<ProviderProfile>, pickup: Location,
                                              distance: (Location, Location) -> real, limit: nat, x: NearbyProvider)
    requires x in NearestApproved(rows, pickup, distance, limit)
    ensures exists i :: 0 <= i < |rows| && Eligible(rows[i])
                        && rows[i].userId == x.userId
                        && x.distanceM == distance(rows[i].currentLocation.value, pickup)
  {
    assert x in Candidates(rows, pickup, distance);
    var i :| 0 <= i < |rows| && Eligible(rows[i]) && x == Project(rows[i], pickup, distance);
  }

  /** After `markOnline(u, false)` the provider `u` is in no later query
      result (the user id is the table key, so `u` has a single row). */
  lemma {:induction false} OfflineProviderExcluded(rows: seq<ProviderProfile>, u: UserId, pickup: Location,
                                                   distance: (Location, Location) -> real, limit: nat)
    ensures forall x :: x in NearestApproved(SetOnline(rows, u, false), pickup, distance, limit) ==> x.userId != u
  {
    var rows' := SetOnline(rows, u, false);
    forall x | x in NearestApproved(rows', pickup, distance, limit) ensures x.userId != u {
      ResultsAreEligible(rows', pickup, distance, limit, x);
    }
  }

  /** No user id occurs twice among the result rows. */
  predicate DistinctUsers(xs: seq<NearbyProvider>) {
    forall i, j :: 0 <= i < j < |xs| ==> xs[i].userId != xs[j].userId
  }

  /** On a keyed table each provider is projected at most once. */
  lemma {:induction false} CandidatesDistinct(rows: seq<ProviderProfile>, pickup: Location,
                                              distance: (Location, Location) -> real)
    requires UniqueIds(rows)
    ensures DistinctUsers(Candidates(rows, pickup, distance))
  {
    if rows != [] {
      var tail := rows[1..];
      assert UniqueIds(tail) by {
        forall i, j | 0 <= i < j < |tail| ensures tail[i].userId != tail[j].userId {
          assert tail[i] == rows[i + 1] && tail[j] == rows[j + 1];
        }
      }
      CandidatesDistinct(tail, pickup, distance);
      var rest := Candidates(tail, pickup, distance);
      assert forall x :: x in rest ==> x.userId != rows[0].userId by {
        forall x | x in rest ensures x.userId != rows[0].userId {
          var i :| 0 <= i < |tail| && Eligible(tail[i]) && x == Project(tail[i], pickup, distance);
          assert tail[i] == rows[i + 1];
        }
      }
      if Eligible(rows[0]) {
        var c := [Project(rows[0], pickup, distance)] + rest;
        assert Candidates(rows, pickup, distance) == c;
        forall i, j | 0 <= i < j < |c| ensures c[i].userId != c[j].userId {
          assert c[j] == rest[j - 1];
          if i > 0 {
            assert c[i] == rest[i - 1];
          }
        }
      } else {
        assert Candidates(rows, pickup, distance) == rest;
      }
    }
  }

  /** A row occurs at most once in a list of distinct users. */
  lemma {:induction false} DistinctCountAtMostOne(xs: seq<NearbyProvider>, x: NearbyProvider)
    requires DistinctUsers(xs)
    ensures multiset(xs)[x] <= 1
  {
    if xs != [] {
      var tail := xs[1..];
      assert xs == [xs[0]] + tail;
      assert DistinctUsers(tail) by {
        forall i, j | 0 <= i < j < |tail| ensures tail[i].userId != tail[j].userId {
          assert tail[i] == xs[i + 1] && tail[j] == xs[j + 1];
        }
      }
      DistinctCountAtMostOne(tail, x);
      if xs[0] == x {
        assert x !in tail by {
          forall k | 0 <= k < |tail| ensures tail[k] != x {
            assert tail[k] == xs[k + 1];
          }
        }
      }
    }
  }

  /** Two positions of a sub-multiset of distinct users hold different
      rows. */
  lemma EntriesDiffer(r: seq<NearbyProvider>, c: seq<NearbyProvider>, i: nat, j: nat)
    requires multiset(r) <= multiset(c) && DistinctUsers(c)
    requires i < j < |r|
    ensures r[i] != r[j]
  {
    assert r == r[..j] + r[j..];
    assert r[i] in r[..j];
    assert r[j] in r[j..];
    assert multiset(r)[r[j]] == multiset(r[..j])[r[j]] + multiset(r[j..])[r[j]];
    DistinctCountAtMostOne(c, r[j]);
  }

  /** Taking rows out of a list of distinct users leaves distinct users. */
  lemma DistinctUsersSub(r: seq<NearbyProvider>, c: seq<NearbyProvider>)
    requires multiset(r) <= multiset(c) && DistinctUsers(c)
    ensures DistinctUsers(r)
  {
    forall i, j | 0 <= i < j < |r| ensures r[i].userId != r[j].userId {
      EntriesDiffer(r, c, i, j);
      assert r[i] in multiset(c) && r[j] in multiset(c);
      var a :| 0 <= a < |c| && c[a] == r[i];
      var b :| 0 <= b < |c| && c[b] == r[j];
      assert a != b;
    }
  }

  /** On a keyed table the query never names a provider twice. */
  lemma NearestApprovedDistinct(rows: seq<ProviderProfile>, pickup: Location,
                                distance: (Location, Location) -> real, limit: nat)
    requires UniqueIds(rows)
    ensures DistinctUsers(NearestApproved(rows, pickup, distance, limit))
  {
    CandidatesDistinct(rows, pickup, distance);
    DistinctUsersSub(NearestApproved(rows, pickup, distance, limit), Candidates(rows, pickup, distance));
  }

  /** The profile table behind ProvidersService. */
  class ProvidersService {
    var profiles: seq<ProviderProfile>

    ghost predicate Valid()
      reads this
    {
      UniqueIds(profiles)
    }

    constructor (rows: seq<ProviderProfile>)
      requires UniqueIds(rows)
      ensures Valid() && profiles == rows
    {
      profiles := rows;
    }

    /** `createProfile`: inserts a row; the unique key rejects a second
        profile for the same user. */
    method CreateProfile(p: ProviderProfile) returns (ok: bool)
      requires Valid()
      modifies this
      ensures Valid()
      ensures ok == !HasProfile(old(profiles), p.userId)
      ensures profiles == if ok then old(profiles) + [p] else old(profiles)
    {
      ok := !HasProfile(profiles, p.userId);
      if ok {
        profiles := profiles + [p];
      }
    }

    /** `markOnline`: Prisma's `update` fails on a missing row (`ok` false,
        nothing changes). */
    method MarkOnline(u: UserId, online: bool) returns (ok: bool)
      requires Valid()
      modifies this
      ensures Valid()
      ensures ok == HasProfile(old(profiles), u)
      ensures profiles == if ok then SetOnline(old(profiles), u, online) else old(profiles)
    {
      ok := HasProfile(profiles, u);
      if ok {
        profiles := SetOnline(profiles, u, online);
      }
    }

    /** `updateStatus`: as `markOnline`, for the approval status. */
    method UpdateStatus(u: UserId, status: ProviderStatus) returns (ok: bool)
      requires Valid()
      modifies this
      ensures Valid()
      ensures ok == HasProfile(old(profiles), u)
      ensures profiles == if ok then SetStatus(old(profiles), u, status) else old(profiles)
    {
      ok := HasProfile(profiles, u);
      if ok {
        profiles := SetStatus(profiles, u, status);
      }
    }

    /** `updateDriverLocation`: a raw `UPDATE ... WHERE`, which matches no
        row (and raises nothing) for an unknown user. */
    method UpdateDriverLocation(u: UserId, lat: real, lng: real, now: int)
      requires Valid()
      modifies this
      ensures Valid()
      ensures profiles == SetLocation(old(profiles), u, lat, lng, now)
    {
      profiles := SetLocation(profiles, u, lat, lng, now);
    }

    /** `findNearestApprovedDrivers(lat, lng, limit = 10)`. */
    function FindNearestApprovedDrivers(lat: real, lng: real, distance: (Location, Location) -> real,
                                        limit: nat := 10): (r: seq<NearbyProvider>)
      reads this
      ensures |r| <= limit && SortedByDistance(r)
      ensures forall x :: x in r ==> x in Candidates(profiles, Location(lat, lng), distance)
      ensures UniqueIds(profiles) ==> DistinctUsers(r)
      ensures r == NearestApproved(profiles, Location(lat, lng), distance, limit)
    {
      var pickup := Location(lat, lng);
      assert UniqueIds(profiles) ==> DistinctUsers(NearestApproved(profiles, pickup, distance, limit)) by {
        if UniqueIds(profiles) {
          NearestApprovedDistinct(profiles, pickup, distance, limit);
        }
      }
      NearestApproved(profiles, pickup, distance, limit)
    }
  }
}
