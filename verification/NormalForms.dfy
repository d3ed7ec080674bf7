/** Normalising a list of identifiers: expand each to its canonical ids, keep the
    first occurrence of each id and the payload seen last. */
module NormalForms {
  import opened InsertionOrder

  datatype Item<V> = Item(id: string, payload: V)

  /** `ids`, each with the same payload. */
  function Stamp<V>(ids: seq<string>, payload: V): (r: seq<Item<V>>)
    ensures |r| == |ids| && forall i :: 0 <= i < |ids| ==> r[i] == Item(ids[i], payload)
  {
    seq(|ids|, i requires 0 <= i < |ids| => Item(ids[i], payload))
  }

  /** The whole list after expansion, before duplicates are merged. */
  function Expanded<V>(expand: string -> seq<string>, items: seq<Item<V>>): seq<Item<V>> {
    if items == [] then []
    else
      var last := items[|items| - 1];
      Expanded(expand, items[..|items| - 1]) + Stamp(expand(last.id), last.payload)
  }

  /** Puts the items into a map one after the other. */
  function Collect<V>(m: OrderedMap<V>, items: seq<Item<V>>): OrderedMap<V> {
    if items == [] then m
    else Put(Collect(m, items[..|items| - 1]), items[|items| - 1].id, items[|items| - 1].payload)
  }

  function Listing<V>(m: OrderedMap<V>): (r: seq<Item<V>>)
    ensures |r| == |m.keys| && forall i :: 0 <= i < |r| ==>
      r[i].id == m.keys[i] && m.keys[i] in m.entries && r[i].payload == m.entries[m.keys[i]]
  {
    assert forall i :: 0 <= i < |m.keys| ==> m.keys[i] in m.keys;
    seq(|m.keys|, i requires 0 <= i < |m.keys| => Item(m.keys[i], m.entries[m.keys[i]]))
  }

  function Normal<V>(expand: string -> seq<string>, items: seq<Item<V>>): seq<Item<V>> {
    Listing(Collect(Empty(), Expanded(expand, items)))
  }

  /** Expansion produces only ids that expansion leaves alone. */
  ghost predicate Settling(expand: string -> seq<string>) {
    forall id, e {:trigger e in expand(id)} :: e in expand(id) ==> expand(e) == [e]
  }

  predicate Settled<V>(expand: string -> seq<string>, items: seq<Item<V>>) {
    forall i :: 0 <= i < |items| ==> expand(items[i].id) == [items[i].id]
  }

  // ---------- Order and payload ----------

  /** Where `k` occurs first, or -1. */
  function FirstIndex<V>(items: seq<Item<V>>, k: string): (r: int)
    ensures -1 <= r < |items|
    ensures r >= 0 ==> items[r].id == k && forall h :: 0 <= h < r ==> items[h].id != k
    ensures r < 0 ==> forall h :: 0 <= h < |items| ==> items[h].id != k
  {
    if items == [] then -1
    else
      var r := FirstIndex(items[..|items| - 1], k);
      if r >= 0 then r else if items[|items| - 1].id == k then |items| - 1 else -1
  }

  /** Where `k` occurs last, or -1. */
  function LastIndex<V>(items: seq<Item<V>>, k: string): (r: int)
    ensures -1 <= r < |items|
    ensures r >= 0 ==> items[r].id == k && forall h :: r < h < |items| ==> items[h].id != k
    ensures r < 0 ==> forall h :: 0 <= h < |items| ==> items[h].id != k
  {
    if items == [] then -1
    else if items[|items| - 1].id == k then |items| - 1
    else LastIndex(items[..|items| - 1], k)
  }

  ghost predicate InFirstOccurrenceOrder<V>(items: seq<Item<V>>, keys: seq<string>) {
    forall a, b :: 0 <= a < b < |keys| ==> FirstIndex(items, keys[a]) < FirstIndex(items, keys[b])
  }

  /** The collected ids are those that occur, in order of first occurrence, each with the payload seen last. */
  lemma {:induction false} CollectMeaning<V>(items: seq<Item<V>>)
    ensures var m := Collect(Empty(), items);
      && (forall k :: k in m.entries <==> LastIndex(items, k) >= 0)
      && (forall k :: k in m.entries ==> m.entries[k] == items[LastIndex(items, k)].payload)
      && InFirstOccurrenceOrder(items, m.keys)
  {
    hide Put;
    if items != [] {
      var front, last := items[..|items| - 1], items[|items| - 1];
      CollectMeaning(front);
      assert items == front + [last];
      PutKeepsMeaning(front, Collect(Empty<V>(), front), last);
    }
  }

  lemma IndexStep<V>(front: seq<Item<V>>, last: Item<V>, k: string)
    ensures var items := front + [last];
      && FirstIndex(items, k) ==
        (if FirstIndex(front, k) >= 0 then FirstIndex(front, k) else if last.id == k then |front| else -1)
      && LastIndex(items, k) == if last.id == k then |front| else LastIndex(front, k)
  {
    var items := front + [last];
    assert items[..|items| - 1] == front;
  }

  lemma SameOccurrence<V>(items: seq<Item<V>>, k: string)
    ensures FirstIndex(items, k) >= 0 <==> LastIndex(items, k) >= 0
  {
  }

  lemma PutKeepsMeaning<V>(front: seq<Item<V>>, past: OrderedMap<V>, last: Item<V>)
    requires forall k :: k in past.entries <==> LastIndex(front, k) >= 0
    requires forall k :: k in past.entries ==> past.entries[k] == front[LastIndex(front, k)].payload
    requires InFirstOccurrenceOrder(front, past.keys)
    ensures var items, m := front + [last], Put(past, last.id, last.payload);
      && (forall k :: k in m.entries <==> LastIndex(items, k) >= 0)
      && (forall k :: k in m.entries ==> m.entries[k] == items[LastIndex(items, k)].payload)
      && InFirstOccurrenceOrder(items, m.keys)
  {
    hide LastIndex, FirstIndex, InFirstOccurrenceOrder;
    var items := front + [last];
    forall k ensures LastIndex(items, k) == if last.id == k then |front| else LastIndex(front, k) {
      IndexStep(front, last, k);
    }
    PutKeepsOrder(front, past, last);
  }

  lemma PutKeepsOrder<V>(front: seq<Item<V>>, past: OrderedMap<V>, last: Item<V>)
    requires forall k :: k in past.entries <==> LastIndex(front, k) >= 0
    requires InFirstOccurrenceOrder(front, past.keys)
    ensures InFirstOccurrenceOrder(front + [last], Put(past, last.id, last.payload).keys)
  {
    hide LastIndex, FirstIndex;
    var items, keys := front + [last], Put(past, last.id, last.payload).keys;
    forall a, b | 0 <= a < b < |keys| ensures FirstIndex(items, keys[a]) < FirstIndex(items, keys[b]) {
      assert keys[a] == past.keys[a] && past.keys[a] in past.keys;
      IndexStep(front, last, keys[a]);
      IndexStep(front, last, keys[b]);
      SameOccurrence(front, keys[a]);
      SameOccurrence(front, keys[b]);
      if b < |past.keys| {
        assert keys[b] == past.keys[b] && past.keys[b] in past.keys;
      }
    }
  }

  /** A normal form has distinct, settled ids, in order of first occurrence in the expanded
      list, each with the payload seen last there. */
  lemma NormalMeaning<V>(expand: string -> seq<string>, items: seq<Item<V>>)
    requires Settling(expand)
    ensures var all, r := Expanded(expand, items), Normal(expand, items);
      && (forall i, j :: 0 <= i < j < |r| ==> r[i].id != r[j].id && FirstIndex(all, r[i].id) < FirstIndex(all, r[j].id))
      && (forall i :: 0 <= i < |r| ==>
        LastIndex(all, r[i].id) >= 0 && r[i].payload == all[LastIndex(all, r[i].id)].payload)
      && (forall k :: LastIndex(all, k) >= 0 ==> exists i :: 0 <= i < |r| && r[i].id == k)
      && Settled(expand, r)
  {
    hide FirstIndex, LastIndex, Expanded, Collect, Settled, Settling;
    var all := Expanded(expand, items);
    CollectMeaning(all);
    ListingMeaning(all, Collect(Empty<V>(), all));
    NormalIsSettled(expand, items);
  }

  lemma ListingMeaning<V>(all: seq<Item<V>>, m: OrderedMap<V>)
    requires forall k :: k in m.entries <==> LastIndex(all, k) >= 0
    requires forall k :: k in m.entries ==> m.entries[k] == all[LastIndex(all, k)].payload
    requires InFirstOccurrenceOrder(all, m.keys)
    ensures var r := Listing(m);
      && (forall i, j :: 0 <= i < j < |r| ==> r[i].id != r[j].id && FirstIndex(all, r[i].id) < FirstIndex(all, r[j].id))
      && (forall i :: 0 <= i < |r| ==>
        LastIndex(all, r[i].id) >= 0 && r[i].payload == all[LastIndex(all, r[i].id)].payload)
      && (forall k :: LastIndex(all, k) >= 0 ==> exists i :: 0 <= i < |r| && r[i].id == k)
  {
    hide FirstIndex, LastIndex, Listing;
    var r := Listing(m);
    forall k | LastIndex(all, k) >= 0 ensures exists i :: 0 <= i < |r| && r[i].id == k {
      assert k in m.keys;
      var i :| 0 <= i < |m.keys| && m.keys[i] == k;
      assert r[i].id == k;
    }
    forall i, j | 0 <= i < j < |r|
      ensures r[i].id != r[j].id && FirstIndex(all, r[i].id) < FirstIndex(all, r[j].id)
    {
      assert r[i].id == m.keys[i] && r[j].id == m.keys[j];
    }
  }

  lemma {:induction false} ExpandedIsSettled<V>(expand: string -> seq<string>, items: seq<Item<V>>)
    requires Settling(expand)
    ensures Settled(expand, Expanded(expand, items))
  {
    if items != [] {
      ExpandedIsSettled(expand, items[..|items| - 1]);
      var last := items[|items| - 1];
      forall i | 0 <= i < |expand(last.id)| ensures expand(expand(last.id)[i]) == [expand(last.id)[i]] {
        assert expand(last.id)[i] in expand(last.id);
      }
    }
  }

  lemma NormalIsSettled<V>(expand: string -> seq<string>, items: seq<Item<V>>)
    requires Settling(expand)
    ensures Settled(expand, Normal(expand, items))
  {
    var all := Expanded(expand, items);
    ExpandedIsSettled(expand, items);
    CollectMeaning(all);
    var m := Collect(Empty<V>(), all);
    forall i | 0 <= i < |m.keys| ensures expand(m.keys[i]) == [m.keys[i]] {
      assert m.keys[i] in m.keys;
      assert all[LastIndex(all, m.keys[i])].id == m.keys[i];
    }
  }

  /** `e` comes from expanding one of the items. */
  predicate ComesFrom<V(==)>(expand: string -> seq<string>, items: seq<Item<V>>, e: Item<V>) {
    exists i :: 0 <= i < |items| && e.id in expand(items[i].id) && e.payload == items[i].payload
  }

  lemma ComesFromMore<V>(expand: string -> seq<string>, front: seq<Item<V>>, last: Item<V>, e: Item<V>)
    ensures ComesFrom(expand, front + [last], e) <==>
      ComesFrom(expand, front, e) || (e.id in expand(last.id) && e.payload == last.payload)
  {
    var items := front + [last];
    if i :| 0 <= i < |front| && e.id in expand(front[i].id) && e.payload == front[i].payload {
      assert items[i] == front[i];
    }
    assert items[|front|] == last;
  }

  /** The expanded list holds exactly the expansions of its items, each with the payload of its item. */
  lemma {:induction false} ExpandedMembers<V(!new)>(expand: string -> seq<string>, items: seq<Item<V>>)
    ensures forall e :: e in Expanded(expand, items) <==> ComesFrom(expand, items, e)
  {
    hide Stamp, ComesFrom;
    if items == [] {
      NothingComesFrom<V>(expand);
    } else {
      var front, last := items[..|items| - 1], items[|items| - 1];
      assert items == front + [last];
      ExpandedMembers(expand, front);
      StampMembers(expand(last.id), last.payload);
      forall e ensures e in Expanded(expand, items) <==> ComesFrom(expand, items, e) {
        ComesFromMore(expand, front, last, e);
      }
    }
  }

  lemma NothingComesFrom<V(!new)>(expand: string -> seq<string>)
    ensures forall e: Item<V> :: !ComesFrom(expand, [], e)
  {
  }

  lemma StampMembers<V(!new)>(ids: seq<string>, payload: V)
    ensures forall e :: e in Stamp(ids, payload) <==> e.id in ids && e.payload == payload
  {
    forall e: Item<V> | e.id in ids && e.payload == payload ensures e in Stamp(ids, payload) {
      var i :| 0 <= i < |ids| && ids[i] == e.id;
      assert Stamp(ids, payload)[i] == e;
    }
  }

  // ---------- Idempotence and concatenation ----------

  lemma {:induction false} ExpandedConcat<V>(expand: string -> seq<string>, a: seq<Item<V>>, b: seq<Item<V>>)
    ensures Expanded(expand, a + b) == Expanded(expand, a) + Expanded(expand, b)
  {
    hide Stamp;
    if b == [] {
      assert a + b == a;
    } else {
      var front, more := b[..|b| - 1], Stamp(expand(b[|b| - 1].id), b[|b| - 1].payload);
      assert (a + b)[..|a + b| - 1] == a + front;
      ExpandedConcat(expand, a, front);
      assert (Expanded(expand, a) + Expanded(expand, front)) + more ==
        Expanded(expand, a) + (Expanded(expand, front) + more);
    }
  }

  /** Expanding a settled list changes nothing. */
  lemma {:induction false} ExpandSettled<V>(expand: string -> seq<string>, items: seq<Item<V>>)
    requires Settled(expand, items)
    ensures Expanded(expand, items) == items
  {
    if items != [] {
      var front, last := items[..|items| - 1], items[|items| - 1];
      ExpandSettled(expand, front);
      assert Stamp(expand(last.id), last.payload) == [last];
      assert items == front + [last];
    }
  }

  lemma {:induction false} CollectConcat<V>(m: OrderedMap<V>, a: seq<Item<V>>, b: seq<Item<V>>)
    ensures Collect(m, a + b) == Collect(Collect(m, a), b)
  {
    if b == [] {
      assert a + b == a;
    } else {
      assert (a + b)[..|a + b| - 1] == a + b[..|b| - 1];
      CollectConcat(m, a, b[..|b| - 1]);
    }
  }

  /** The entries of `n` put into `m`: known keys keep their place, new ones follow in the order of `n`. */
  function Merge<V>(m: OrderedMap<V>, n: OrderedMap<V>): OrderedMap<V> {
    MergeValid(m, n);
    RawMap(m.keys + Missing(n.keys, m), m.entries + n.entries)
  }

  function Missing<V>(keys: seq<string>, m: OrderedMap<V>): (r: seq<string>)
    ensures forall k :: k in r <==> k in keys && k !in m.entries
    ensures Distinct(keys) ==> Distinct(r)
  {
    if keys == [] then []
    else
      var front, last := keys[..|keys| - 1], keys[|keys| - 1];
      assert keys == front + [last];
      assert Distinct(keys) ==> last !in front;
      if last in m.entries then Missing(front, m) else Missing(front, m) + [last]
  }

  lemma MergeValid<V>(m: OrderedMap<V>, n: OrderedMap<V>)
    ensures RawMap(m.keys + Missing(n.keys, m), m.entries + n.entries).Valid()
  {
    var more := Missing(n.keys, m);
    forall i, j | 0 <= i < |m.keys| && 0 <= j < |more| ensures m.keys[i] != more[j] {
      assert m.keys[i] in m.keys && more[j] in more;
    }
  }

  lemma MergePut<V>(m: OrderedMap<V>, n: OrderedMap<V>, k: string, v: V)
    ensures Merge(m, Put(n, k, v)) == Put(Merge(m, n), k, v)
  {
    hide Missing, Distinct;
    assert m.entries + n.entries[k := v] == (m.entries + n.entries)[k := v];
    if k !in n.entries {
      MissingAppend(n.keys, k, m);
      assert m.keys + (Missing(n.keys, m) + [k]) == m.keys + Missing(n.keys, m) + [k];
    }
  }

  lemma MissingAppend<V>(keys: seq<string>, k: string, m: OrderedMap<V>)
    ensures Missing(keys + [k], m) == if k in m.entries then Missing(keys, m) else Missing(keys, m) + [k]
  {
    assert (keys + [k])[..|keys|] == keys;
  }

  lemma {:induction false} CollectIsMerge<V>(m: OrderedMap<V>, items: seq<Item<V>>)
    ensures Collect(m, items) == Merge(m, Collect(Empty(), items))
  {
    hide Put, Merge;
    if items == [] {
      MergeEmpty(m);
    } else {
      var front, last := items[..|items| - 1], items[|items| - 1];
      CollectIsMerge(m, front);
      MergePut(m, Collect(Empty(), front), last.id, last.payload);
    }
  }

  lemma MergeEmpty<V>(m: OrderedMap<V>)
    ensures Merge(m, Empty()) == m && Merge(Empty(), m) == m
  {
    assert m.entries + map[] == m.entries && map[] + m.entries == m.entries;
    assert m.keys + [] == m.keys;
    MissingFromEmpty<V>(m.keys);
  }

  lemma {:induction false} MissingFromEmpty<V>(keys: seq<string>)
    ensures Missing<V>(keys, Empty()) == keys
  {
    if keys != [] {
      MissingFromEmpty<V>(keys[..|keys| - 1]);
      assert keys == keys[..|keys| - 1] + [keys[|keys| - 1]];
    }
  }

  /** Collecting the first `n` entries of a listing gives those entries. */
  lemma {:induction false} CollectListingPrefix<V>(m: OrderedMap<V>, n: nat)
    requires n <= |m.keys|
    ensures var r := Collect(Empty(), Listing(m)[..n]);
      r.keys == m.keys[..n] && forall k :: k in r.entries ==> k in m.entries && r.entries[k] == m.entries[k]
  {
    hide Put, Listing, Distinct;
    var items := Listing(m);
    if n > 0 {
      CollectListingPrefix(m, n - 1);
      assert items[..n][..n - 1] == items[..n - 1];
      PutNextEntry(m, Collect(Empty(), items[..n - 1]), n - 1);
    }
  }

  lemma PutNextEntry<V>(m: OrderedMap<V>, past: OrderedMap<V>, i: nat)
    requires i < |m.keys| && past.keys == m.keys[..i]
    requires forall k :: k in past.entries ==> k in m.entries && past.entries[k] == m.entries[k]
    ensures m.keys[i] in m.keys && m.keys[i] in m.entries
    ensures var r := Put(past, m.keys[i], m.entries[m.keys[i]]);
      r.keys == m.keys[..i + 1] && forall k :: k in r.entries ==> k in m.entries && r.entries[k] == m.entries[k]
  {
    assert m.keys[i] !in past.keys;
    assert m.keys[..i + 1] == m.keys[..i] + [m.keys[i]];
  }

  lemma CollectListing<V>(m: OrderedMap<V>)
    ensures Collect(Empty(), Listing(m)) == m
  {
    CollectListingPrefix(m, |m.keys|);
    assert Listing(m)[..|m.keys|] == Listing(m) && m.keys[..|m.keys|] == m.keys;
    var r := Collect(Empty(), Listing(m));
    forall k ensures k in r.entries <==> k in m.entries {
      assert k in r.keys <==> k in m.keys;
    }
    assert r.entries == m.entries;
  }

  /** Normalising is idempotent. */
  lemma NormalIsIdempotent<V>(expand: string -> seq<string>, items: seq<Item<V>>)
    requires Settling(expand)
    ensures Normal(expand, Normal(expand, items)) == Normal(expand, items)
  {
    hide Settling, Settled, Expanded, Collect, Listing;
    var r := Normal(expand, items);
    NormalIsSettled(expand, items);
    ExpandSettled(expand, r);
    CollectListing(Collect(Empty<V>(), Expanded(expand, items)));
  }

  /** Normalising either part of a concatenation first does not change the normal form of the whole. */
  lemma NormalOfConcat<V>(expand: string -> seq<string>, a: seq<Item<V>>, b: seq<Item<V>>)
    requires Settling(expand)
    ensures Normal(expand, Normal(expand, a) + b) == Normal(expand, a + b)
    ensures Normal(expand, a + Normal(expand, b)) == Normal(expand, a + b)
  {
    hide Settling, Settled, Expanded, Collect, Listing, Merge;
    var start := Empty<V>();
    var ea, eb := Expanded(expand, a), Expanded(expand, b);
    var ma, mb := Collect(start, ea), Collect(start, eb);
    var na, nb := Normal(expand, a), Normal(expand, b);
    ExpandedConcat(expand, a, b);
    CollectConcat(start, ea, eb);
    NormalIsSettled(expand, a);
    ExpandSettled(expand, na);
    ExpandedConcat(expand, na, b);
    CollectConcat(start, na, eb);
    CollectListing(ma);
    NormalIsSettled(expand, b);
    ExpandSettled(expand, nb);
    ExpandedConcat(expand, a, nb);
    CollectConcat(start, ea, nb);
    CollectListing(mb);
    CollectIsMerge(ma, eb);
    CollectIsMerge(ma, nb);
  }

  // ---------- Steps of the loops that build a normal form ----------

  lemma NothingCollected<V>(expand: string -> seq<string>, items: seq<Item<V>>)
    ensures Collect(Empty(), Expanded(expand, items[..0])) == Empty()
  {
  }

  lemma ExpandedStep<V>(expand: string -> seq<string>, items: seq<Item<V>>, i: nat)
    requires i < |items|
    ensures Expanded(expand, items[..i + 1]) ==
      Expanded(expand, items[..i]) + Stamp(expand(items[i].id), items[i].payload)
  {
    hide Stamp;
    assert items[..i + 1][..i] == items[..i];
  }

  lemma CollectStep<V>(m: OrderedMap<V>, before: seq<Item<V>>, more: seq<Item<V>>, j: nat)
    requires j < |more|
    ensures Collect(m, before + more[..j + 1]) == Put(Collect(m, before + more[..j]), more[j].id, more[j].payload)
  {
    hide Put;
    assert (before + more[..j + 1])[..|before| + j] == before + more[..j];
  }

  lemma CollectEnds<V>(m: OrderedMap<V>, before: seq<Item<V>>, more: seq<Item<V>>)
    ensures Collect(m, before + more[..0]) == Collect(m, before)
    ensures Collect(m, before + more[..|more|]) == Collect(m, before + more)
  {
    hide Collect;
    assert before + more[..0] == before && more[..|more|] == more;
  }
}
