/** Maps and sets that remember the order in which keys were first inserted,
    as the `Map` and `Set` of the source do. */
module InsertionOrder {
  import opened Wrappers

  predicate Distinct<T(==)>(s: seq<T>) {
    forall i, j :: 0 <= i < j < |s| ==> s[i] != s[j]
  }

  /** The sequence without any occurrence of `x`. */
  function Without<T(==, !new)>(s: seq<T>, x: T): (r: seq<T>)
    ensures forall y :: y in r <==> y in s && y != x
    ensures x !in s ==> r == s
    ensures Distinct(s) ==> Distinct(r) && |r| == (if x in s then |s| - 1 else |s|)
  {
    if s == [] then []
    else
      var rest := Without(s[1..], x);
      assert s == [s[0]] + s[1..];
      assert Distinct(s) ==> Distinct(s[1..]) && s[0] !in s[1..];
      if s[0] == x then rest else [s[0]] + rest
  }

  lemma {:induction false} WithoutConcat<T(!new)>(a: seq<T>, b: seq<T>, x: T)
    ensures Without(a + b, x) == Without(a, x) + Without(b, x)
  {
    if a == [] {
      assert a + b == b;
    } else {
      assert (a + b)[1..] == a[1..] + b;
      WithoutConcat(a[1..], b, x);
    }
  }

  /** The last `n` elements, or all of them when there are fewer. */
  function Newest<T>(s: seq<T>, n: nat): seq<T> {
    if |s| <= n then s else s[|s| - n..]
  }

  /** The elements `Newest` leaves behind. */
  function Older<T>(s: seq<T>, n: nat): seq<T> {
    if |s| <= n then [] else s[..|s| - n]
  }

  lemma Partition<T(!new)>(s: seq<T>, n: nat)
    ensures s == Older(s, n) + Newest(s, n)
    ensures forall x :: x in s <==> x in Older(s, n) || x in Newest(s, n)
    ensures Distinct(s) ==> forall x :: x in Older(s, n) ==> x !in Newest(s, n)
  {
    var past, window := Older(s, n), Newest(s, n);
    assert s == past + window;
    if Distinct(s) {
      forall x | x in past ensures x !in window {
        var i :| 0 <= i < |past| && past[i] == x;
        assert s[i] == x;
        forall j | 0 <= j < |window| ensures window[j] != x {
          assert s[|past| + j] == window[j];
        }
      }
    }
  }

  /** Moving `x` to the end of a bounded window gives the window of the
      sequence in which `x` was moved to the end. */
  lemma NewestAfterMove<T(!new)>(s: seq<T>, x: T, n: nat)
    requires Distinct(s) && n >= 1
    ensures Newest(Without(Newest(s, n), x) + [x], n) == Newest(Without(s, x) + [x], n)
  {
    hide Without, Distinct, Older;
    MoveWithinWindow(s, x, n);
    MovedWindowIsFull(s, x, n);
    NewestOfConcat(Without(Older(s, n), x), Without(Newest(s, n), x) + [x], n);
  }

  lemma MoveWithinWindow<T(!new)>(s: seq<T>, x: T, n: nat)
    ensures Without(s, x) + [x] == Without(Older(s, n), x) + (Without(Newest(s, n), x) + [x])
  {
    hide Without;
    var past, window := Older(s, n), Newest(s, n);
    assert s == past + window;
    hide Older, Newest;
    WithoutConcat(past, window, x);
  }

  lemma MovedWindowIsFull<T(!new)>(s: seq<T>, x: T, n: nat)
    requires Distinct(s)
    ensures |Without(Newest(s, n), x) + [x]| >= n || Without(Older(s, n), x) == []
  {
    DistinctWindow(s, n);
  }

  lemma DistinctWindow<T>(s: seq<T>, n: nat)
    requires Distinct(s)
    ensures Distinct(Newest(s, n))
  {
  }

  lemma NewestOfConcat<T>(a: seq<T>, b: seq<T>, n: nat)
    requires |b| >= n || a == []
    ensures Newest(a + b, n) == Newest(b, n)
  {
    if a == [] {
      assert a + b == b;
    } else {
      assert (a + b)[|a + b| - n..] == b[|b| - n..];
    }
  }

  datatype RawMap<V> = RawMap(keys: seq<string>, entries: map<string, V>) {
    predicate Valid() {
      && Distinct(keys)
      && (forall k :: k in keys ==> k in entries)
      && (forall k :: k in entries ==> k in keys)
    }
  }

  /** A map from strings with its keys in insertion order. */
  type OrderedMap<V> = m: RawMap<V> | m.Valid() witness RawMap([], map[])

  function Empty<V>(): OrderedMap<V> {
    RawMap([], map[])
  }

  function Lookup<V>(m: OrderedMap<V>, k: string): Option<V> {
    if k in m.entries then Some(m.entries[k]) else None
  }

  /** A new key goes last; a known key keeps its place. */
  function Put<V>(m: OrderedMap<V>, k: string, v: V): OrderedMap<V> {
    RawMap(if k in m.entries then m.keys else m.keys + [k], m.entries[k := v])
  }

  function Remove<V>(m: OrderedMap<V>, k: string): OrderedMap<V> {
    RawMap(Without(m.keys, k), m.entries - {k})
  }

  lemma RemoveLaw<V>(m: OrderedMap<V>, k: string)
    ensures Remove(m, k).entries == m.entries - {k} && Remove(m, k).entries.Keys == m.entries.Keys - {k}
    ensures |Remove(m, k).keys| == if k in m.entries then |m.keys| - 1 else |m.keys|
    ensures k !in m.entries ==> Remove(m, k) == m
  {
    if k !in m.entries {
      assert m.entries - {k} == m.entries;
    }
  }

  lemma MoveToEndLaw<V>(m: OrderedMap<V>, k: string, v: V)
    ensures var r := Put(Remove(m, k), k, v);
      r.keys == Without(m.keys, k) + [k] && r.entries == m.entries[k := v]
  {
  }

  /** The map after its oldest entries were dropped until at most `n` are left. */
  function KeepNewest<V>(m: OrderedMap<V>, n: nat): (r: OrderedMap<V>)
    ensures r.keys == Newest(m.keys, n) && |r.keys| <= n
    ensures forall k :: k in r.entries ==> k in m.entries && r.entries[k] == m.entries[k]
  {
    var kept := Newest(m.keys, n);
    RawMap(kept, map k | k in kept :: m.entries[k])
  }

  lemma {:induction false} WithoutIsNoLonger<T(!new)>(b: seq<T>, x: T)
    ensures |Without(b, x)| <= |b|
  {
    if b != [] {
      WithoutIsNoLonger(b[1..], x);
    }
  }

  // ---------- What follows an element ----------

  /** The elements after the first `t`. */
  function After<T(==)>(s: seq<T>, t: T): seq<T> {
    if s == [] then []
    else if s[0] == t then s[1..]
    else After(s[1..], t)
  }

  lemma {:induction false} AfterIndex<T(!new)>(s: seq<T>, t: T, i: nat)
    requires Distinct(s) && i < |s| && s[i] == t
    ensures After(s, t) == s[i + 1..]
  {
    if i > 0 {
      assert s[1..][i - 1] == t;
      AfterIndex(s[1..], t, i - 1);
    }
  }

  lemma {:induction false} AfterWithout<T(!new)>(s: seq<T>, x: T, t: T)
    requires x != t && t in s
    ensures t in Without(s, x) && After(Without(s, x), t) == Without(After(s, t), x)
  {
    if s[0] != t {
      AfterWithout(s[1..], x, t);
      assert s[0] != x ==> Without(s, x)[1..] == Without(s[1..], x);
    } else {
      assert Without(s, x)[1..] == Without(s[1..], x);
    }
  }

  lemma {:induction false} AfterAppend<T(!new)>(s: seq<T>, x: T, t: T)
    ensures t in s ==> After(s + [x], t) == After(s, t) + [x]
    ensures t !in s && t == x ==> After(s + [x], t) == []
  {
    if s == [] {
      assert s + [x] == [x];
    } else {
      assert (s + [x])[1..] == s[1..] + [x];
      AfterAppend(s[1..], x, t);
    }
  }

  /** A bounded window keeps `t` exactly when fewer than `n` elements follow it, and then it keeps those. */
  lemma AfterNewest<T(!new)>(s: seq<T>, t: T, n: nat)
    requires Distinct(s) && t in s
    ensures t in Newest(s, n) <==> |After(s, t)| < n
    ensures t in Newest(s, n) ==> After(Newest(s, n), t) == After(s, t)
  {
    hide After, Distinct, Newest;
    var i :| 0 <= i < |s| && s[i] == t;
    AfterIndex(s, t, i);
    if |s| - i <= n {
      KeptInWindow(s, n, i);
    } else {
      LeftOfWindow(s, n, i);
    }
  }

  lemma KeptInWindow<T(!new)>(s: seq<T>, n: nat, i: nat)
    requires Distinct(s) && i < |s| && |s| - i <= n
    ensures s[i] in Newest(s, n) && After(Newest(s, n), s[i]) == s[i + 1..]
  {
    hide After;
    var window, k := Newest(s, n), if |s| <= n then 0 else |s| - n;
    assert window == s[k..];
    DistinctWindow(s, n);
    AfterIndex(window, s[i], i - k);
  }

  lemma LeftOfWindow<T>(s: seq<T>, n: nat, i: nat)
    requires Distinct(s) && i < |s| && |s| - i > n
    ensures s[i] !in Newest(s, n)
  {
    var k := |s| - n;
    forall j | 0 <= j < n ensures Newest(s, n)[j] != s[i] {
      assert Newest(s, n)[j] == s[k + j];
    }
  }

  /** A sequence without repetitions is no longer than one that holds all its elements. */
  lemma {:induction false} NoLonger<T(!new)>(a: seq<T>, b: seq<T>)
    requires Distinct(a) && forall x :: x in a ==> x in b
    ensures |a| <= |b|
  {
    if a != [] {
      var rest := a[1..];
      assert forall x :: x in rest ==> x in a && x != a[0];
      NoLonger(rest, Without(b, a[0]));
      ShorterWithout(b, a[0]);
    }
  }

  lemma {:induction false} ShorterWithout<T(!new)>(b: seq<T>, x: T)
    requires x in b
    ensures |Without(b, x)| < |b|
  {
    if b[0] != x {
      ShorterWithout(b[1..], x);
    } else {
      WithoutIsNoLonger(b[1..], x);
    }
  }

  /** Moving `u` to the end of a map bounded by `n`: what then follows another key, and whether that key stays. */
  lemma AfterMove<V>(m: OrderedMap<V>, u: string, v: V, n: nat, t: string)
    requires t in m.entries && t != u && n >= 1
    ensures var r, follow := KeepNewest(Put(Remove(m, u), u, v), n), Without(After(m.keys, t), u) + [u];
      && (t in r.entries <==> |follow| < n)
      && (t in r.entries ==> After(r.keys, t) == follow && r.entries[t] == m.entries[t])
  {
    hide After, Put, Remove, Newest, Distinct;
    MoveToEndLaw(m, u, v);
    AfterWithout(m.keys, u, t);
    AfterAppend(Without(m.keys, u), u, t);
    var all := Put(Remove(m, u), u, v);
    MovedKeysAreDistinct(m, u, v);
    AfterNewest(all.keys, t, n);
    KeyIsEntry(KeepNewest(all, n), t);
  }

  lemma MovedKeysAreDistinct<V>(m: OrderedMap<V>, u: string, v: V)
    ensures Distinct(Put(Remove(m, u), u, v).keys)
  {
  }

  lemma KeyIsEntry<V>(m: OrderedMap<V>, t: string)
    ensures t in m.keys <==> t in m.entries
  {
  }

  /** The moved key is the newest. */
  lemma NothingAfterMoved<V>(m: OrderedMap<V>, u: string, v: V, n: nat)
    requires n >= 1
    ensures var r := KeepNewest(Put(Remove(m, u), u, v), n);
      u in r.entries && r.entries[u] == v && After(r.keys, u) == []
  {
    hide After, Put, Remove, Newest, Distinct;
    MoveToEndLaw(m, u, v);
    AfterAppend(Without(m.keys, u), u, u);
    var all := Put(Remove(m, u), u, v);
    assert all.keys[|all.keys| - 1] == u;
    MovedKeysAreDistinct(m, u, v);
    AfterNewest(all.keys, u, n);
    KeyIsEntry(KeepNewest(all, n), u);
  }
}
