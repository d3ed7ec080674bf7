/** Stable sorting by a total preorder, as `toSorted` does it, and the order of strings by code unit. */
module Sorting {

  ghost predicate TotalPreorder<T(!new)>(leq: (T, T) -> bool) {
    && (forall x, y :: leq(x, y) || leq(y, x))
    && (forall x, y, z :: leq(x, y) && leq(y, z) ==> leq(x, z))
  }

  predicate SortedBy<T>(leq: (T, T) -> bool, s: seq<T>) {
    forall i, j :: 0 <= i < j < |s| ==> leq(s[i], s[j])
  }

  /** `x` placed before the first element it comes before or ties with. */
  function Insert<T>(leq: (T, T) -> bool, x: T, s: seq<T>): seq<T> {
    if s == [] then [x]
    else if leq(x, s[0]) then [x] + s
    else [s[0]] + Insert(leq, x, s[1..])
  }

  function Sort<T>(leq: (T, T) -> bool, s: seq<T>): seq<T> {
    if s == [] then [] else Insert(leq, s[0], Sort(leq, s[1..]))
  }

  lemma {:induction false} InsertLaw<T(!new)>(leq: (T, T) -> bool, x: T, s: seq<T>)
    requires TotalPreorder(leq) && SortedBy(leq, s)
    ensures SortedBy(leq, Insert(leq, x, s))
    ensures multiset(Insert(leq, x, s)) == multiset{x} + multiset(s)
  {
    hide SortedBy, TotalPreorder;
    if s == [] {
      Singleton(leq, x);
    } else {
      assert s == [s[0]] + s[1..];
      SortedTail(leq, s);
      if leq(x, s[0]) {
        BelowAll(leq, x, s);
        Prepended(leq, x, s);
      } else {
        var rest := Insert(leq, x, s[1..]);
        InsertLaw(leq, x, s[1..]);
        Comparable(leq, x, s[0]);
        forall y | y in rest ensures leq(s[0], y) {
          assert y in multiset(rest);
          assert y == x || y in s[1..];
        }
        Prepended(leq, s[0], rest);
      }
    }
  }

  lemma Singleton<T>(leq: (T, T) -> bool, x: T)
    ensures SortedBy(leq, [x])
  {
  }

  lemma SortedTail<T>(leq: (T, T) -> bool, s: seq<T>)
    requires SortedBy(leq, s) && s != []
    ensures SortedBy(leq, s[1..]) && forall y :: y in s[1..] ==> leq(s[0], y)
  {
  }

  lemma BelowAll<T(!new)>(leq: (T, T) -> bool, x: T, s: seq<T>)
    requires TotalPreorder(leq) && SortedBy(leq, s) && s != [] && leq(x, s[0])
    ensures forall y :: y in s ==> leq(x, y)
  {
    forall y | y in s ensures leq(x, y) {
      var i :| 0 <= i < |s| && s[i] == y;
      assert i > 0 ==> leq(s[0], s[i]);
    }
  }

  lemma Comparable<T(!new)>(leq: (T, T) -> bool, x: T, y: T)
    requires TotalPreorder(leq)
    ensures leq(x, y) || leq(y, x)
  {
  }

  lemma Prepended<T>(leq: (T, T) -> bool, x: T, s: seq<T>)
    requires SortedBy(leq, s) && forall y :: y in s ==> leq(x, y)
    ensures SortedBy(leq, [x] + s)
  {
  }

  lemma {:induction false} SortLength<T>(leq: (T, T) -> bool, s: seq<T>)
    ensures |Sort(leq, s)| == |s|
  {
    if s != [] {
      SortLength(leq, s[1..]);
      InsertLength(leq, s[0], Sort(leq, s[1..]));
    }
  }

  lemma {:induction false} InsertLength<T>(leq: (T, T) -> bool, x: T, s: seq<T>)
    ensures |Insert(leq, x, s)| == |s| + 1
  {
    if s != [] && !leq(x, s[0]) {
      InsertLength(leq, x, s[1..]);
    }
  }

  /** Sorting gives a sorted permutation. */
  lemma {:induction false} SortLaw<T(!new)>(leq: (T, T) -> bool, s: seq<T>)
    requires TotalPreorder(leq)
    ensures SortedBy(leq, Sort(leq, s))
    ensures multiset(Sort(leq, s)) == multiset(s)
    ensures forall x :: x in Sort(leq, s) <==> x in s
  {
    hide TotalPreorder, SortedBy, Insert;
    if s == [] {
      NothingToSort(leq);
    } else {
      SortLaw(leq, s[1..]);
      InsertLaw(leq, s[0], Sort(leq, s[1..]));
      assert s == [s[0]] + s[1..];
    }
    SameElements(Sort(leq, s), s);
  }

  lemma NothingToSort<T(!new)>(leq: (T, T) -> bool)
    ensures SortedBy(leq, [])
  {
  }

  lemma SameElements<T(!new)>(a: seq<T>, b: seq<T>)
    requires multiset(a) == multiset(b)
    ensures forall x :: x in a <==> x in b
  {
    forall x ensures x in a <==> x in b {
      assert x in multiset(a) <==> x in multiset(b);
    }
  }

  // ---------- Stability ----------

  /** The elements of `s` that tie with `x`, in order. */
  function Tied<T>(leq: (T, T) -> bool, x: T, s: seq<T>): seq<T> {
    if s == [] then []
    else (if leq(x, s[0]) && leq(s[0], x) then [s[0]] else []) + Tied(leq, x, s[1..])
  }

  /** Sorting keeps elements that tie in their order. */
  lemma {:induction false} SortIsStable<T(!new)>(leq: (T, T) -> bool, x: T, s: seq<T>)
    requires TotalPreorder(leq)
    ensures Tied(leq, x, Sort(leq, s)) == Tied(leq, x, s)
  {
    hide TotalPreorder, SortedBy, Insert;
    if s != [] {
      SortIsStable(leq, x, s[1..]);
      InsertIsStable(leq, x, s[0], Sort(leq, s[1..]));
    }
  }

  lemma {:induction false} InsertIsStable<T(!new)>(leq: (T, T) -> bool, x: T, y: T, s: seq<T>)
    requires TotalPreorder(leq)
    ensures Tied(leq, x, Insert(leq, y, s)) == (if leq(x, y) && leq(y, x) then [y] else []) + Tied(leq, x, s)
  {
    hide TotalPreorder;
    if s != [] && !leq(y, s[0]) {
      InsertIsStable(leq, x, y, s[1..]);
      NotBetween(leq, y, x, s[0]);
    }
  }

  lemma NotBetween<T(!new)>(leq: (T, T) -> bool, y: T, x: T, z: T)
    requires TotalPreorder(leq) && !leq(y, z)
    ensures leq(y, x) ==> !leq(x, z)
  {
  }

  // ---------- The order of strings ----------

  /** Strings compared code unit by code unit, a prefix first. */
  predicate StringLeq(a: string, b: string) {
    a == [] || (b != [] && (a[0] < b[0] || (a[0] == b[0] && StringLeq(a[1..], b[1..]))))
  }

  lemma {:induction false} StringLeqTotal(a: string, b: string)
    ensures StringLeq(a, b) || StringLeq(b, a)
    ensures StringLeq(a, b) && StringLeq(b, a) ==> a == b
  {
    if a != [] && b != [] {
      StringLeqTotal(a[1..], b[1..]);
      assert a == [a[0]] + a[1..] && b == [b[0]] + b[1..];
    }
  }

  lemma {:induction false} StringLeqTransitive(a: string, b: string, c: string)
    requires StringLeq(a, b) && StringLeq(b, c)
    ensures StringLeq(a, c)
  {
    if a != [] && a[0] == b[0] && b[0] == c[0] {
      StringLeqTransitive(a[1..], b[1..], c[1..]);
    }
  }

  lemma StringOrder()
    ensures TotalPreorder(StringLeq)
  {
    forall a, b ensures StringLeq(a, b) || StringLeq(b, a) {
      StringLeqTotal(a, b);
    }
    forall a, b, c | StringLeq(a, b) && StringLeq(b, c) ensures StringLeq(a, c) {
      StringLeqTransitive(a, b, c);
    }
  }

  /** One string comes before another exactly if it is a prefix of it, or has the smaller code unit where
      they first differ. */
  lemma {:induction false} StringLeqIsLexicographic(a: string, b: string)
    ensures StringLeq(a, b) <==> a <= b || exists i :: 0 <= i < |a| && i < |b| && a[..i] == b[..i] && a[i] < b[i]
  {
    if a != [] && b != [] && a[0] == b[0] {
      StringLeqIsLexicographic(a[1..], b[1..]);
      assert a == [a[0]] + a[1..] && b == [b[0]] + b[1..];
      if i :| 0 <= i < |a| && i < |b| && a[..i] == b[..i] && a[i] < b[i] {
        assert i > 0 && a[1..][..i - 1] == a[..i][1..] == b[..i][1..] == b[1..][..i - 1];
        assert a[1..][i - 1] == a[i] && b[1..][i - 1] == b[i];
      }
      if i :| 0 <= i < |a| - 1 && i < |b| - 1 && a[1..][..i] == b[1..][..i] && a[1..][i] < b[1..][i] {
        assert a[..i + 1] == [a[0]] + a[1..][..i] == [b[0]] + b[1..][..i] == b[..i + 1];
        assert a[i + 1] == a[1..][i] && b[i + 1] == b[1..][i];
      }
    } else if a != [] && b != [] && a[0] < b[0] {
      assert a[..0] == b[..0];
    } else if a != [] && b != [] {
      forall i | 0 < i <= |a| && i <= |b| ensures a[..i] != b[..i] {
        assert a[..i][0] == a[0] && b[..i][0] == b[0];
      }
    }
  }
}
