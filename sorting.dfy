/**
 * Ordering by a caller-chosen comparison, as the ORDER BY clauses of the
 * task-board queries do, and the byte-wise (BINARY collation) string order
 * SQLite applies to text columns.
 */
module Sorting {

  /** `le` is total and transitive: a total preorder. */
  ghost predicate TotalPreorder<T(!new)>(le: (T, T) -> bool) {
    (forall a, b :: le(a, b) || le(b, a)) &&
    (forall a, b, c :: le(a, b) && le(b, c) ==> le(a, c))
  }

  /** Every element precedes every later one under `le`. */
  predicate SortedBy<T>(le: (T, T) -> bool, s: seq<T>) {
    forall i, j | 0 <= i < j < |s| :: le(s[i], s[j])
  }

  /** Puts `x` before the first element it precedes. */
  function Insert<T>(le: (T, T) -> bool, x: T, s: seq<T>): (r: seq<T>)
    ensures |r| == |s| + 1
    ensures multiset(r) == multiset(s) + multiset{x}
  {
    if s == [] then [x]
    else if le(x, s[0]) then [x] + s
    else
      assert s == [s[0]] + s[1..];
      [s[0]] + Insert(le, x, s[1..])
  }

  /** Insertion sort; the order among elements `le` cannot tell apart is the input order. */
  function SortBy<T>(le: (T, T) -> bool, s: seq<T>): (r: seq<T>)
    ensures |r| == |s|
    ensures multiset(r) == multiset(s)
  {
    if s == [] then []
    else
      assert s == [s[0]] + s[1..];
      Insert(le, s[0], SortBy(le, s[1..]))
  }

  /** An element of a sequence is found at some index. */
  lemma IndexOf<T>(s: seq<T>, x: T) returns (k: nat)
    requires x in multiset(s)
    ensures k < |s| && s[k] == x
  {
    assert x in s;
    k :| 0 <= k < |s| && s[k] == x;
  }

  /** A lower bound of `s` and of `x` is a lower bound of `Insert(le, x, s)`. */
  lemma LowerBoundInsert<T>(le: (T, T) -> bool, y: T, x: T, s: seq<T>, t: seq<T>)
    requires le(y, x)
    requires forall k | 0 <= k < |s| :: le(y, s[k])
    requires multiset(t) == multiset(s) + multiset{x}
    ensures forall k | 0 <= k < |t| :: le(y, t[k])
  {
    forall k | 0 <= k < |t|
      ensures le(y, t[k])
    {
      assert t[k] in multiset(t);
      if t[k] != x {
        var m := IndexOf(s, t[k]);
      }
    }
  }

  lemma {:induction false} InsertSorted<T(!new)>(le: (T, T) -> bool, x: T, s: seq<T>)
    requires TotalPreorder(le)
    requires SortedBy(le, s)
    ensures SortedBy(le, Insert(le, x, s))
  {
    if s == [] {
    } else if le(x, s[0]) {
      var r := [x] + s;
      forall i, j | 0 <= i < j < |r|
        ensures le(r[i], r[j])
      {
        if i == 0 && j > 1 {
          assert le(s[0], s[j - 1]);
        }
      }
    } else {
      var tail := s[1..];
      var t := Insert(le, x, tail);
      InsertSorted(le, x, tail);
      assert le(s[0], x);
      assert forall k | 0 <= k < |tail| :: le(s[0], tail[k]) by {
        forall k | 0 <= k < |tail|
          ensures le(s[0], tail[k])
        {
          assert tail[k] == s[k + 1];
        }
      }
      LowerBoundInsert(le, s[0], x, tail, t);
      var r := [s[0]] + t;
      forall i, j | 0 <= i < j < |r|
        ensures le(r[i], r[j])
      {
        if i > 0 {
          assert r[i] == t[i - 1] && r[j] == t[j - 1];
        }
      }
    }
  }

  /** Under a total preorder the sort's output is in order. */
  lemma {:induction false} SortBySorted<T(!new)>(le: (T, T) -> bool, s: seq<T>)
    requires TotalPreorder(le)
    ensures SortedBy(le, SortBy(le, s))
  {
    if s != [] {
      SortBySorted(le, s[1..]);
      InsertSorted(le, s[0], SortBy(le, s[1..]));
    }
  }

  /** Dropping the first element keeps a sequence in order. */
  lemma SortedTail<T>(le: (T, T) -> bool, s: seq<T>)
    requires s != [] && SortedBy(le, s)
    ensures SortedBy(le, s[1..])
  {
    forall i, j | 0 <= i < j < |s[1..]|
      ensures le(s[1..][i], s[1..][j])
    {
      assert s[1..][i] == s[i + 1] && s[1..][j] == s[j + 1];
    }
  }

  /** Two orderings of the same non-empty contents start with the same element. */
  lemma SameFirst<T>(le: (T, T) -> bool, a: seq<T>, b: seq<T>)
    requires a != [] && SortedBy(le, a) && SortedBy(le, b)
    requires multiset(a) == multiset(b)
    requires forall x, y | x in a && y in a :: le(x, y) && le(y, x) ==> x == y
    ensures b != [] && a[0] == b[0]
  {
    assert a[0] in multiset(b);
    var i := IndexOf(b, a[0]);
    var j := IndexOf(a, b[0]);
    if i > 0 && j > 0 {
      assert le(b[0], b[i]) && le(a[0], a[j]);
      assert b[0] in a;
    }
  }

  /**
   * Two orderings of the same elements agree when `le` separates any two
   * distinct elements: the order is then fully determined by its contents.
   */
  lemma {:induction false} SortedUnique<T>(le: (T, T) -> bool, a: seq<T>, b: seq<T>)
    requires SortedBy(le, a) && SortedBy(le, b)
    requires multiset(a) == multiset(b)
    requires forall x, y | x in a && y in a :: le(x, y) && le(y, x) ==> x == y
    ensures a == b
  {
    if a == [] {
      assert |b| == |multiset(b)| == 0;
    } else {
      SameFirst(le, a, b);
      SameTails(le, a, b);
      SortedUnique(le, a[1..], b[1..]);
      assert a == [a[0]] + a[1..] && b == [b[0]] + b[1..];
    }
  }

  /** What `SortedUnique` needs of the tails once the first elements agree. */
  lemma SameTails<T>(le: (T, T) -> bool, a: seq<T>, b: seq<T>)
    requires a != [] && b != [] && a[0] == b[0]
    requires SortedBy(le, a) && SortedBy(le, b)
    requires multiset(a) == multiset(b)
    requires forall x, y | x in a && y in a :: le(x, y) && le(y, x) ==> x == y
    ensures SortedBy(le, a[1..]) && SortedBy(le, b[1..])
    ensures multiset(a[1..]) == multiset(b[1..])
    ensures forall x, y | x in a[1..] && y in a[1..] :: le(x, y) && le(y, x) ==> x == y
  {
    assert multiset(a[1..]) == multiset(a) - multiset{a[0]} by {
      assert a == [a[0]] + a[1..];
    }
    assert multiset(b[1..]) == multiset(b) - multiset{b[0]} by {
      assert b == [b[0]] + b[1..];
    }
    forall x, y | x in a[1..] && y in a[1..]
      ensures le(x, y) && le(y, x) ==> x == y
    {
      assert x in a && y in a;
    }
    SortedTail(le, a);
    SortedTail(le, b);
  }

  /** The elements of `s` that satisfy `keep`, in their original order. */
  function FilterBy<T>(keep: T -> bool, s: seq<T>): (r: seq<T>)
    ensures |r| <= |s|
    ensures forall k | 0 <= k < |r| :: keep(r[k])
    ensures multiset(r) <= multiset(s)
  {
    if s == [] then []
    else
      assert s == [s[0]] + s[1..];
      (if keep(s[0]) then [s[0]] else []) + FilterBy(keep, s[1..])
  }

  /** Exactly the kept elements survive, each as often as in `s`. */
  lemma {:induction false} FilterByCount<T>(keep: T -> bool, s: seq<T>, x: T)
    ensures multiset(FilterBy(keep, s))[x] == if keep(x) then multiset(s)[x] else 0
  {
    if s != [] {
      assert s == [s[0]] + s[1..];
      FilterByCount(keep, s[1..], x);
    }
  }

  /** Sorting the kept elements keeps only kept elements. */
  lemma SortKeeps<T>(le: (T, T) -> bool, keep: T -> bool, s: seq<T>)
    ensures forall k | 0 <= k < |SortBy(le, FilterBy(keep, s))| :: keep(SortBy(le, FilterBy(keep, s))[k])
  {
    var kept := FilterBy(keep, s);
    var r := SortBy(le, kept);
    forall k | 0 <= k < |r|
      ensures keep(r[k])
    {
      assert r[k] in multiset(kept);
      var m := IndexOf(kept, r[k]);
    }
  }

  // Byte-wise string order.

  /** `a` sorts no later than `b`: a prefix first, otherwise the first differing character decides. */
  predicate StrLe(a: string, b: string) {
    a == [] || (b != [] && (a[0] < b[0] || (a[0] == b[0] && StrLe(a[1..], b[1..]))))
  }

  lemma {:induction false} StrLeTotal(a: string, b: string)
    ensures StrLe(a, b) || StrLe(b, a)
  {
    if a != [] && b != [] && a[0] == b[0] {
      StrLeTotal(a[1..], b[1..]);
    }
  }

  lemma {:induction false} StrLeTrans(a: string, b: string, c: string)
    requires StrLe(a, b) && StrLe(b, c)
    ensures StrLe(a, c)
  {
    if a != [] && a[0] == b[0] && b[0] == c[0] {
      StrLeTrans(a[1..], b[1..], c[1..]);
    }
  }

  lemma {:induction false} StrLeAntisym(a: string, b: string)
    requires StrLe(a, b) && StrLe(b, a)
    ensures a == b
  {
    if a != [] {
      StrLeAntisym(a[1..], b[1..]);
      assert a == [a[0]] + a[1..] && b == [b[0]] + b[1..];
    }
  }
}
