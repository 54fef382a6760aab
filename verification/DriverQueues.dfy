/** Shared vocabulary of the two in-memory round-robin driver queues
    (backend/src/dispatcher/round-robin.service.ts and
    backend/src/dispatcher/dispatcher.service.ts): an array of driver ids,
    changed with `indexOf`/`splice`/`push`, and a cursor that wraps modulo the
    array length. */
module DriverQueues {

  /** No id occurs twice. */
  predicate NoDup<T(==)>(q: seq<T>) {
    forall i, j :: 0 <= i < j < |q| ==> q[i] != q[j]
  }

  /** The cursor invariant both services keep: 0 on an empty queue, a valid
      position otherwise. */
  predicate CursorOk(p: nat, n: nat) {
    if n == 0 then p == 0 else p < n
  }

  /** `Array.prototype.indexOf`: the first position holding `x`, or -1. */
  function IndexOf<T(==)>(q: seq<T>, x: T): (r: int)
    ensures -1 <= r < |q|
    ensures r == -1 <==> x !in q
    ensures 0 <= r ==> q[r] == x && x !in q[..r]
  {
    if |q| == 0 then -1
    else if q[0] == x then 0
    else
      var k := IndexOf(q[1..], x);
      if k == -1 then -1
      else
        assert q[..k + 1] == [q[0]] + q[1..][..k];
        k + 1
  }

  /** `splice(i, 1)`: the entry at `i` is dropped, earlier entries keep their
      position, later ones move down by one. */
  function RemoveAt<T>(q: seq<T>, i: nat): (r: seq<T>)
    requires i < |q|
    ensures |r| == |q| - 1
    ensures forall k :: 0 <= k < i ==> r[k] == q[k]
    ensures forall k :: i <= k < |r| ==> r[k] == q[k + 1]
  {
    q[..i] + q[i + 1..]
  }

  /** What `splice(i, 1)` keeps: every other entry, nothing new, and on a
      duplicate-free queue no copy of the removed entry. */
  lemma RemoveAtMembers<T>(q: seq<T>, i: nat)
    requires i < |q|
    ensures forall y :: y in RemoveAt(q, i) ==> y in q
    ensures forall y :: y in q && y != q[i] ==> y in RemoveAt(q, i)
    ensures NoDup(q) ==> NoDup(RemoveAt(q, i)) && q[i] !in RemoveAt(q, i)
  {
    var r := RemoveAt(q, i);
    forall y | y in r ensures y in q {
      var k :| 0 <= k < |r| && r[k] == y;
      if k < i { assert q[k] == y; } else { assert q[k + 1] == y; }
    }
    forall y | y in q && y != q[i] ensures y in r {
      var k :| 0 <= k < |q| && q[k] == y;
      if k < i { assert r[k] == y; } else { assert r[k - 1] == y; }
    }
    if NoDup(q) {
      forall a, b | 0 <= a < b < |r| ensures r[a] != r[b] {
        var a' := if a < i then a else a + 1;
        var b' := if b < i then b else b + 1;
        assert r[a] == q[a'] && r[b] == q[b'];
      }
      forall k | 0 <= k < |r| ensures r[k] != q[i] {
        if k < i { assert r[k] == q[k]; } else { assert r[k] == q[k + 1]; }
      }
    }
  }

  /** `indexOf` followed by `splice` when found: removes the first `x`. */
  function Without<T(==)>(q: seq<T>, x: T): (r: seq<T>)
    ensures x !in q ==> r == q
    ensures x in q ==> |r| == |q| - 1
    ensures forall y :: y in r ==> y in q
    ensures forall y :: y in q && y != x ==> y in r
    ensures NoDup(q) ==> NoDup(r) && x !in r
  {
    var i := IndexOf(q, x);
    if i < 0 then q
    else
      RemoveAtMembers(q, i);
      RemoveAt(q, i)
  }

  /** `if (!q.includes(x)) q.push(x)`: append only when absent. */
  function WithAppended<T(==)>(q: seq<T>, x: T): (r: seq<T>)
    ensures x in r
    ensures forall y :: y in r ==> y in q || y == x
    ensures forall y :: y in q ==> y in r
    ensures x in q ==> r == q
    ensures x !in q ==> |r| == |q| + 1 && r[..|q|] == q && r[|q|] == x
    ensures NoDup(q) ==> NoDup(r)
  {
    if x in q then q else q + [x]
  }

  /** Appending when absent is idempotent. */
  lemma WithAppendedIdempotent<T>(q: seq<T>, x: T)
    ensures WithAppended(WithAppended(q, x), x) == WithAppended(q, x)
  {
  }

  /** The cursor after one read: `(p + 1) % n`. */
  function Advance(p: nat, n: nat): (r: nat)
    requires p < n
    ensures r < n
    ensures r == if p + 1 < n then p + 1 else 0
  {
    (p + 1) % n
  }

  /** Position `x` folded back once into a queue of length `n`. */
  function Wrap(x: nat, n: nat): nat
    requires x < 2 * n
  {
    if x < n then x else x - n
  }

  /** The ids met by `k` consecutive round-robin reads of `q` starting at
      cursor `p`, each read advancing the cursor. */
  function Visits<T>(q: seq<T>, p: nat, k: nat): (r: seq<T>)
    requires p < |q|
    ensures |r| == k
    decreases k
  {
    if k == 0 then [] else [q[p]] + Visits(q, Advance(p, |q|), k - 1)
  }

  /** The cursor after `k` reads starting at `p`. */
  function CursorAfter(p: nat, n: nat, k: nat): (r: nat)
    requires p < n
    ensures r < n
    decreases k
  {
    if k == 0 then p else CursorAfter(Advance(p, n), n, k - 1)
  }

  /** Within one cycle, read `j` is position `p + j` folded once, and the
      cursor after `k` reads is `p + k` folded once. */
  lemma {:induction false} VisitsAt<T>(q: seq<T>, p: nat, k: nat)
    requires p < |q| && k <= |q|
    ensures CursorAfter(p, |q|, k) == Wrap(p + k, |q|)
    ensures forall j :: 0 <= j < k ==> Visits(q, p, k)[j] == q[Wrap(p + j, |q|)]
    decreases k
  {
    var n := |q|;
    if k > 0 {
      var p' := Advance(p, n);
      if p + 1 < n {
        VisitsAt(q, p', k - 1);
      } else {
        // the cursor wrapped to 0 after the first read
        VisitsAt(q, 0, k - 1);
      }
    }
  }

  /** Reading once more extends the visited sequence by the entry under the
      cursor. */
  lemma {:induction false} VisitsSnoc<T>(q: seq<T>, p: nat, k: nat)
    requires p < |q|
    ensures Visits(q, p, k + 1) == Visits(q, p, k) + [q[CursorAfter(p, |q|, k)]]
    ensures CursorAfter(p, |q|, k + 1) == Advance(CursorAfter(p, |q|, k), |q|)
    decreases k
  {
    if k > 0 {
      VisitsSnoc(q, Advance(p, |q|), k - 1);
    }
  }

  /** A full cycle of `|q|` reads from any cursor is the rotation
      `q[p..] + q[..p]`: it meets every entry once (a permutation of `q`, with
      no repeats when `q` has none) and leaves the cursor where it started. */
  lemma VisitsFullCycle<T>(q: seq<T>, p: nat)
    requires p < |q|
    ensures Visits(q, p, |q|) == q[p..] + q[..p]
    ensures multiset(Visits(q, p, |q|)) == multiset(q)
    ensures CursorAfter(p, |q|, |q|) == p
    ensures NoDup(q) ==> NoDup(Visits(q, p, |q|))
  {
    VisitsIsRotation(q, p);
    assert q == q[..p] + q[p..];
    if NoDup(q) {
      RotationNoDup(q, p);
    }
  }

  lemma VisitsIsRotation<T>(q: seq<T>, p: nat)
    requires p < |q|
    ensures Visits(q, p, |q|) == q[p..] + q[..p]
    ensures CursorAfter(p, |q|, |q|) == p
  {
    var n := |q|;
    VisitsAt(q, p, n);
    var v := Visits(q, p, n);
    var rot := q[p..] + q[..p];
    forall j | 0 <= j < n ensures v[j] == rot[j] {
      assert v[j] == q[Wrap(p + j, n)];
      if p + j < n {
        assert rot[j] == q[p..][j];
      } else {
        assert rot[j] == q[..p][j - (n - p)];
      }
    }
    assert v == rot;
  }

  lemma RotationNoDup<T>(q: seq<T>, p: nat)
    requires p < |q| && NoDup(q)
    ensures NoDup(q[p..] + q[..p])
  {
    var n := |q|;
    var rot := q[p..] + q[..p];
    forall i, j | 0 <= i < j < n ensures rot[i] != rot[j] {
      var a := if p + i < n then p + i else p + i - n;
      var b := if p + j < n then p + j else p + j - n;
      assert rot[i] == q[a];
      assert rot[j] == q[b];
    }
  }
}
