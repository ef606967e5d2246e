/**
 * The page arithmetic shared by the list endpoints: `skip = (page - 1) *
 * limit`, `take = limit`, rows ordered by their `createdAt` stamp newest
 * first, and `totalPages = Math.ceil(total / limit)`.
 */
module Pagination {
  import opened Common

  /** `(pageNum - 1) * limitNum`. */
  function Skip(page: int, limit: int): (r: int)
    ensures page >= 1 && limit >= 0 ==> r >= 0
    ensures page == 1 ==> r == 0
    ensures limit > 0 ==> (r < 0 <==> page < 1)
  {
    (page - 1) * limit
  }

  /**
   * `Math.ceil(total / limit)`: the least integer not below the quotient.
   * A zero limit gives a non-finite quotient, which JSON renders as null.
   */
  function TotalPages(total: nat, limit: int): (r: Option<int>)
    ensures r.None? <==> limit == 0
    ensures r.Some? ==>
      (r.value - 1) as real < total as real / limit as real <= r.value as real
  {
    if limit > 0 then
      var p := (total + limit - 1) / limit;
      CeilBounds(total, limit, p);
      Some(p)
    else if limit == 0 then None
    else
      var p := -(total / -limit);
      FloorBounds(total, -limit, total / -limit);
      assert total as real / limit as real == -(total as real / (-limit) as real);
      Some(p)
  }

  lemma CeilBounds(total: nat, limit: int, p: int)
    requires limit > 0 && p == (total + limit - 1) / limit
    ensures (p - 1) as real < total as real / limit as real <= p as real
  {
    var q, m := (total + limit - 1) / limit, (total + limit - 1) % limit;
    assert total + limit - 1 == q * limit + m && 0 <= m < limit;
    assert (p - 1) * limit < total <= p * limit;
    assert ((p - 1) * limit) as real == (p - 1) as real * limit as real;
    assert (p * limit) as real == p as real * limit as real;
  }

  lemma FloorBounds(total: nat, d: int, q: int)
    requires d > 0 && q == total / d
    ensures q as real <= total as real / d as real < (q + 1) as real
  {
    assert q * d <= total < (q + 1) * d;
    assert (q * d) as real == q as real * d as real;
    assert ((q + 1) * d) as real == (q + 1) as real * d as real;
  }

  /**
   * `w` is what Prisma's `skip`/`take` select from the ordered list `s`:
   * with `take >= 0` the `take` rows that follow the first `skip`; with a
   * negative `take` the `-take` rows that precede the last `skip`, in the
   * list's own order. Either way the window is clipped to the list.
   */
  ghost predicate IsWindow<T>(s: seq<T>, skip: nat, take: int, w: seq<T>) {
    var n := if skip >= |s| then 0 else Min(if take >= 0 then take else -take, |s| - skip);
    && |w| == n
    && (take >= 0 ==> forall k :: 0 <= k < n ==> w[k] == s[skip + k])
    && (take < 0 ==> forall k :: 0 <= k < n ==> w[k] == s[|s| - skip - n + k])
  }

  /** Prisma's `skip`/`take` on a result list. A negative skip is a rejected query (`None`). */
  function Window<T>(s: seq<T>, skip: int, take: int): (r: Option<seq<T>>)
    ensures r.None? <==> skip < 0
    ensures r.Some? ==> IsWindow(s, skip, take, r.value)
  {
    if skip < 0 then None
    else if skip >= |s| then Some([])
    else if take >= 0 then Some(s[skip..Min(skip + take, |s|)])
    else Some(s[if |s| - skip + take >= 0 then |s| - skip + take else 0..|s| - skip])
  }

  /** Every row of a window is a row of the list. */
  lemma WindowRowsIn<T>(s: seq<T>, skip: int, take: int)
    ensures var w := Window(s, skip, take);
      w.Some? ==> forall k :: 0 <= k < |w.value| ==> w.value[k] in s
  {
  }

  /** The rows listed newest first by `key`. */
  predicate SortedDesc<T>(s: seq<T>, key: T -> int) {
    forall i, j :: 0 <= i < j < |s| ==> key(s[i]) >= key(s[j])
  }

  /** The rows in `key` order, as a table is when its stamps come from a clock that never goes back. */
  predicate SortedAsc<T>(s: seq<T>, key: T -> int) {
    forall i, j :: 0 <= i < j < |s| ==> key(s[i]) <= key(s[j])
  }

  /** `x` placed into newest-first rows ahead of the first row that is not newer than it. */
  function InsertNewest<T>(x: T, s: seq<T>, key: T -> int): (r: seq<T>)
    ensures |r| == |s| + 1 && multiset(r) == multiset(s) + multiset{x}
    decreases |s|
  {
    if |s| == 0 || key(s[0]) <= key(x) then [x] + s
    else
      var t := InsertNewest(x, s[1..], key);
      assert s == [s[0]] + s[1..];
      [s[0]] + t
  }

  lemma {:induction false} InsertNewestSorted<T>(x: T, s: seq<T>, key: T -> int)
    requires SortedDesc(s, key)
    ensures SortedDesc(InsertNewest(x, s, key), key)
    decreases |s|
  {
    if |s| > 0 && key(s[0]) > key(x) {
      var t := InsertNewest(x, s[1..], key);
      InsertNewestSorted(x, s[1..], key);
      forall k | 0 <= k < |t|
        ensures key(t[k]) <= key(s[0])
      {
        assert t[k] in multiset(t);
        assert t[k] == x || t[k] in multiset(s[1..]);
        if t[k] != x {
          var j :| 0 <= j < |s[1..]| && s[1..][j] == t[k];
          assert s[1 + j] == t[k];
        }
      }
    }
  }

  /**
   * `orderBy: { <key>: 'desc' }`: the rows re-ordered newest first. Among
   * rows with the same stamp the later-inserted one comes first.
   */
  function ByNewest<T>(s: seq<T>, key: T -> int): (r: seq<T>)
    ensures |r| == |s| && multiset(r) == multiset(s)
    ensures SortedDesc(r, key)
    decreases |s|
  {
    if |s| == 0 then []
    else
      var n := |s| - 1;
      var init := ByNewest(s[..n], key);
      InsertNewestSorted(s[n], init, key);
      assert s == s[..n] + [s[n]];
      InsertNewest(s[n], init, key)
  }

  /** The same rows are listed for the same stamps. */
  lemma {:induction false} ByNewestKeyAgree<T>(s: seq<T>, key: T -> int, key': T -> int)
    requires forall x :: x in s ==> key(x) == key'(x)
    ensures ByNewest(s, key) == ByNewest(s, key')
    decreases |s|
  {
    if |s| > 0 {
      var n := |s| - 1;
      assert forall x :: x in s[..n] ==> x in s;
      ByNewestKeyAgree(s[..n], key, key');
      var init := ByNewest(s[..n], key);
      forall x | x in init
        ensures key(x) == key'(x)
      {
        assert x in multiset(init);
      }
      InsertNewestKeyAgree(s[n], init, key, key');
    }
  }

  lemma {:induction false} InsertNewestKeyAgree<T>(x: T, s: seq<T>, key: T -> int, key': T -> int)
    requires key(x) == key'(x) && forall y :: y in s ==> key(y) == key'(y)
    ensures InsertNewest(x, s, key) == InsertNewest(x, s, key')
    decreases |s|
  {
    if |s| > 0 {
      assert forall y :: y in s[1..] ==> y in s;
      InsertNewestKeyAgree(x, s[1..], key, key');
    }
  }

  /** A row stamped no earlier than every other row is listed first. */
  lemma {:induction false} ByNewestLatestFirst<T>(s: seq<T>, x: T, key: T -> int)
    requires forall y :: y in s ==> key(y) <= key(x)
    ensures ByNewest(s + [x], key) == [x] + ByNewest(s, key)
  {
    assert (s + [x])[..|s|] == s;
    var init := ByNewest(s, key);
    if |init| > 0 {
      assert init[0] in multiset(s);
    }
  }

  /** On a table already in stamp order, newest first is the reverse of insertion order. */
  lemma {:induction false} ByNewestOfSorted<T>(s: seq<T>, key: T -> int)
    requires SortedAsc(s, key)
    ensures ByNewest(s, key) == NewestFirst(s)
    decreases |s|
  {
    if |s| > 0 {
      var n := |s| - 1;
      assert SortedAsc(s[..n], key);
      ByNewestOfSorted(s[..n], key);
    }
  }

  /** `orderBy: { <key>: 'desc' }, take: n`. */
  function Newest<T>(s: seq<T>, key: T -> int, n: nat): (r: seq<T>)
    ensures |r| == Min(n, |s|) && SortedDesc(r, key)
    ensures multiset(r) <= multiset(s)
  {
    var sorted := ByNewest(s, key);
    var m := Min(n, |s|);
    assert sorted == sorted[..m] + sorted[m..];
    sorted[..m]
  }

  /** The rows `Newest` leaves out are none of them newer than a row it takes. */
  lemma NewestAreNewest<T>(s: seq<T>, key: T -> int, n: nat, x: T)
    requires x in s && x !in Newest(s, key, n)
    ensures forall k :: 0 <= k < |Newest(s, key, n)| ==> key(x) <= key(Newest(s, key, n)[k])
  {
    var sorted := ByNewest(s, key);
    assert x in multiset(sorted);
    var j :| 0 <= j < |sorted| && sorted[j] == x;
    var r := Newest(s, key, n);
    assert j >= |r|;
  }

  /** Hence a row newer than one `Newest` takes is taken too. */
  lemma NewerThanTakenIsTaken<T>(s: seq<T>, key: T -> int, n: nat, x: T, y: T)
    requires x in Newest(s, key, n) && y in s && key(y) > key(x)
    ensures y in Newest(s, key, n)
  {
    if y !in Newest(s, key, n) {
      NewestAreNewest(s, key, n, y);
    }
  }

  /** On a table in stamp order, the `n` newest are the last `n`, last first. */
  lemma NewestOfSorted<T>(s: seq<T>, key: T -> int, n: nat)
    requires SortedAsc(s, key)
    ensures Newest(s, key, n) == NewestFirst(LastN(s, n))
  {
    ByNewestOfSorted(s, key);
    var r := Newest(s, key, n);
    RecentAreNewest(s, n);
  }

  /**
   * With a positive limit the pages partition the rows: row `k` of `n` sits
   * on page `k / limit + 1`, which is one of the `totalPages` pages.
   */
  lemma EveryRowOnItsPage(n: nat, limit: int, k: nat)
    requires limit > 0 && k < n
    ensures var page := k / limit + 1;
      && 1 <= page <= TotalPages(n, limit).value
      && Skip(page, limit) <= k < Skip(page, limit) + limit
  {
    var page := k / limit + 1;
    var tp := TotalPages(n, limit).value;
    assert k / limit * limit <= k < (k / limit + 1) * limit;
    assert Skip(page, limit) == k / limit * limit;
    assert (tp - 1) as real < n as real / limit as real <= tp as real;
    assert (tp * limit) as real == tp as real * limit as real;
    assert n <= tp * limit;
  }

  /** A page past the last one is empty. */
  lemma PastLastPageEmpty<T>(s: seq<T>, page: int, limit: int)
    requires limit > 0 && page > TotalPages(|s|, limit).value
    ensures Window(s, Skip(page, limit), limit) == Some([])
  {
    var tp := TotalPages(|s|, limit).value;
    assert (tp * limit) as real == tp as real * limit as real;
    assert |s| <= tp * limit;
    assert (page - 1) * limit >= tp * limit;
  }

  /** Insertion order reversed: the last-inserted row first. */
  function NewestFirst<T>(s: seq<T>): (r: seq<T>)
    ensures |r| == |s|
    ensures forall k :: 0 <= k < |s| ==> r[k] == s[|s| - 1 - k]
  {
    if |s| == 0 then [] else [s[|s| - 1]] + NewestFirst(s[..|s| - 1])
  }

  /** The last `n` rows, last first: the `k`-th listed row is the `k`-th from the end. */
  lemma RecentAreNewest<T>(s: seq<T>, n: nat)
    ensures var r := NewestFirst(LastN(s, n));
      |r| == Min(|s|, n) && forall k :: 0 <= k < |r| ==> r[k] == s[|s| - 1 - k]
  {
    var l := LastN(s, n);
    if |s| > n {
      assert forall k :: 0 <= k < |l| ==> l[k] == s[|s| - n + k];
    }
  }

  /** Every row of a page of the newest-first rows is one of the rows. */
  lemma PagedRowsIn<T>(rows: seq<T>, key: T -> int, skip: int, take: int)
    ensures var w := Window(ByNewest(rows, key), skip, take);
      w.Some? ==> forall k :: 0 <= k < |w.value| ==> w.value[k] in rows
  {
    var sorted := ByNewest(rows, key);
    WindowRowsIn(sorted, skip, take);
    forall x | x in sorted
      ensures x in rows
    {
      assert x in multiset(sorted);
    }
  }
}
