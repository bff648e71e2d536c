/** Insertion-ordered dictionaries with Python's assignment rule: assigning to a
    key that is present keeps its position, assigning to a new key appends. */
module Dict {
  datatype Option<+T> = None | Some(value: T)

  datatype Entry<+K, +V> = Entry(key: K, value: V)

  /** `d[k] = v`. */
  function Put<K(==), V>(d: seq<Entry<K, V>>, k: K, v: V): (r: seq<Entry<K, V>>)
  {
    if d == [] then [Entry(k, v)]
    else if d[0].key == k then [Entry(k, v)] + d[1..]
    else [d[0]] + Put(d[1..], k, v)
  }

  /** `d.get(k)`. */
  function Get<K(==), V>(d: seq<Entry<K, V>>, k: K): Option<V>
  {
    if d == [] then None
    else if d[0].key == k then Some(d[0].value)
    else Get(d[1..], k)
  }

  /** Building a dictionary by assigning the items in order. */
  function FromItems<K(==), V>(items: seq<Entry<K, V>>): (d: seq<Entry<K, V>>)
  {
    if items == [] then []
    else
      var last := items[|items| - 1];
      Put(FromItems(items[..|items| - 1]), last.key, last.value)
  }

  function MapValues<K, V, W>(g: (K, V) -> W, d: seq<Entry<K, V>>): (r: seq<Entry<K, W>>)
    ensures |r| == |d|
    ensures forall i :: 0 <= i < |d| ==> r[i] == Entry(d[i].key, g(d[i].key, d[i].value))
  {
    seq(|d|, i requires 0 <= i < |d| => Entry(d[i].key, g(d[i].key, d[i].value)))
  }

  ghost predicate UniqueKeys<K, V>(d: seq<Entry<K, V>>) {
    forall i, j :: 0 <= i < j < |d| ==> d[i].key != d[j].key
  }

  predicate HasKey<K(==), V>(d: seq<Entry<K, V>>, k: K) {
    exists i :: 0 <= i < |d| && d[i].key == k
  }

  lemma {:induction false} PutFresh<K, V>(d: seq<Entry<K, V>>, k: K, v: V)
    requires !HasKey(d, k)
    ensures Put(d, k, v) == d + [Entry(k, v)]
  {
    if d != [] {
      assert d[0].key != k;
      forall i | 0 <= i < |d[1..]| ensures d[1..][i].key != k {
        assert d[i + 1].key != k;
      }
      PutFresh(d[1..], k, v);
    }
  }

  lemma {:induction false} PutAt<K, V>(d: seq<Entry<K, V>>, k: K, v: V, at: nat)
    requires UniqueKeys(d) && at < |d| && d[at].key == k
    ensures Put(d, k, v) == d[at := Entry(k, v)]
  {
    if at > 0 {
      assert d[0].key != k;
      PutAt(d[1..], k, v, at - 1);
    }
  }

  lemma PutShape<K, V>(d: seq<Entry<K, V>>, k: K, v: V)
    requires UniqueKeys(d)
    ensures UniqueKeys(Put(d, k, v))
    ensures forall x :: HasKey(Put(d, k, v), x) <==> HasKey(d, x) || x == k
    ensures |d| <= |Put(d, k, v)| <= |d| + 1
    ensures forall e :: e in Put(d, k, v) ==> e in d || e == Entry(k, v)
  {
    var r := Put(d, k, v);
    var at := |d|;
    if HasKey(d, k) {
      at :| 0 <= at < |d| && d[at].key == k;
      PutAt(d, k, v, at);
    } else {
      PutFresh(d, k, v);
    }
    assert r[at].key == k;
    assert forall i :: 0 <= i < |d| ==> r[i].key == d[i].key;
    forall x ensures HasKey(r, x) <==> HasKey(d, x) || x == k {
      if HasKey(d, x) {
        var i :| 0 <= i < |d| && d[i].key == x;
        assert r[i].key == x;
      }
    }
  }

  /** A built dictionary has distinct keys, exactly the keys assigned, and every
      entry is one of the assigned items. */
  lemma {:induction false} FromItemsShape<K, V>(items: seq<Entry<K, V>>)
    ensures UniqueKeys(FromItems(items))
    ensures forall x :: HasKey(FromItems(items), x) <==> HasKey(items, x)
    ensures |FromItems(items)| <= |items|
    ensures forall e :: e in FromItems(items) ==> e in items
  {
    if items != [] {
      var init := items[..|items| - 1];
      var last := items[|items| - 1];
      FromItemsShape(init);
      PutShape(FromItems(init), last.key, last.value);
      forall x ensures HasKey(items, x) <==> HasKey(init, x) || x == last.key {
        if HasKey(items, x) && x != last.key {
          var i :| 0 <= i < |items| && items[i].key == x;
          assert init[i].key == x;
        }
        if HasKey(init, x) {
          var i :| 0 <= i < |init| && init[i].key == x;
          assert items[i].key == x;
        }
        assert items[|items| - 1] == last;
      }
    }
  }

  /** Rebuilding a dictionary whose keys are already distinct changes nothing. */
  lemma {:induction false} FromItemsFixed<K, V>(d: seq<Entry<K, V>>)
    requires UniqueKeys(d)
    ensures FromItems(d) == d
  {
    if d != [] {
      var init := d[..|d| - 1];
      var last := d[|d| - 1];
      FromItemsFixed(init);
      PutFresh(init, last.key, last.value);
      assert d == init + [last];
    }
  }

  lemma {:induction false} PutMapped<K, V, W>(g: (K, V) -> W, d: seq<Entry<K, V>>, k: K, v: V)
    ensures MapValues(g, Put(d, k, v)) == Put(MapValues(g, d), k, g(k, v))
  {
    if d != [] && d[0].key != k {
      PutMapped(g, d[1..], k, v);
      assert MapValues(g, d)[1..] == MapValues(g, d[1..]);
      assert MapValues(g, [d[0]] + Put(d[1..], k, v))
          == [Entry(d[0].key, g(d[0].key, d[0].value))] + MapValues(g, Put(d[1..], k, v));
    } else if d != [] {
      assert MapValues(g, d)[1..] == MapValues(g, d[1..]);
      assert MapValues(g, Put(d, k, v)) == Put(MapValues(g, d), k, g(k, v));
    }
  }

  /** A change of values that looks only at the key commutes with building. */
  lemma {:induction false} FromItemsMapped<K, V, W>(g: (K, V) -> W, items: seq<Entry<K, V>>)
    ensures FromItems(MapValues(g, items)) == MapValues(g, FromItems(items))
  {
    if items != [] {
      var init := items[..|items| - 1];
      var last := items[|items| - 1];
      FromItemsMapped(g, init);
      PutMapped(g, FromItems(init), last.key, last.value);
      assert MapValues(g, items)[..|items| - 1] == MapValues(g, init);
    }
  }

  lemma {:induction false} GetByKey<K, V>(d: seq<Entry<K, V>>, i: nat)
    requires UniqueKeys(d) && i < |d|
    ensures Get(d, d[i].key) == Some(d[i].value)
  {
    if i > 0 {
      assert d[0].key != d[i].key;
      GetByKey(d[1..], i - 1);
    }
  }

  lemma {:induction false} GetSome<K, V>(d: seq<Entry<K, V>>, k: K)
    ensures Get(d, k).Some? <==> HasKey(d, k)
    ensures Get(d, k).Some? ==> Entry(k, Get(d, k).value) in d
  {
    if d != [] {
      GetSome(d[1..], k);
      if d[0].key == k {
      } else {
        if HasKey(d, k) {
          var i :| 0 <= i < |d| && d[i].key == k;
          assert d[1..][i - 1].key == k;
        }
        if HasKey(d[1..], k) {
          var i :| 0 <= i < |d[1..]| && d[1..][i].key == k;
          assert d[i + 1].key == k;
        }
      }
    }
  }

  /** Assigning one more item. */
  lemma FromItemsSnoc<K, V>(items: seq<Entry<K, V>>, k: K, v: V)
    ensures FromItems(items + [Entry(k, v)]) == Put(FromItems(items), k, v)
  {
    assert (items + [Entry(k, v)])[..|items|] == items;
  }

  /** `d.get` of a built dictionary is `d.get` before the last assignment, unless it hits it. */
  lemma {:induction false} GetPut<K, V>(d: seq<Entry<K, V>>, k: K, v: V, x: K)
    ensures Get(Put(d, k, v), x) == if x == k then Some(v) else Get(d, x)
  {
    if d != [] && d[0].key != k {
      GetPut(d[1..], k, v, x);
      assert Put(d, k, v)[1..] == Put(d[1..], k, v);
    } else if d != [] {
      assert Put(d, k, v)[1..] == d[1..];
    }
  }

  function Keys<K, V>(d: seq<Entry<K, V>>): (ks: seq<K>)
    ensures |ks| == |d| && forall i :: 0 <= i < |d| ==> ks[i] == d[i].key
  {
    seq(|d|, i requires 0 <= i < |d| => d[i].key)
  }

  /** `list(d.values())`. */
  function Values<K, V>(d: seq<Entry<K, V>>): (vs: seq<V>)
    ensures |vs| == |d| && forall i :: 0 <= i < |d| ==> vs[i] == d[i].value
  {
    seq(|d|, i requires 0 <= i < |d| => d[i].value)
  }

  lemma SameKeys<K, V>(a: seq<Entry<K, V>>, b: seq<Entry<K, V>>)
    requires Keys(a) == Keys(b)
    ensures forall k :: HasKey(a, k) <==> HasKey(b, k)
  {
    assert |a| == |b|;
    forall i | 0 <= i < |a| ensures a[i].key == b[i].key {
      assert Keys(a)[i] == Keys(b)[i];
    }
  }

  /** The keys of a built dictionary, in order, depend only on the keys assigned. */
  lemma SameBuiltKeys<K, V>(a: seq<Entry<K, V>>, b: seq<Entry<K, V>>)
    requires Keys(a) == Keys(b)
    ensures Keys(FromItems(a)) == Keys(FromItems(b))
  {
    var unit := (k: K, v: V) => ();
    FromItemsMapped(unit, a);
    FromItemsMapped(unit, b);
    assert |a| == |b|;
    forall i | 0 <= i < |a| ensures a[i].key == b[i].key {
      assert Keys(a)[i] == Keys(b)[i];
    }
    assert MapValues(unit, a) == MapValues(unit, b);
    var x, y := MapValues(unit, FromItems(a)), MapValues(unit, FromItems(b));
    forall i | 0 <= i < |x| ensures FromItems(a)[i].key == FromItems(b)[i].key {
      assert x[i] == y[i];
    }
  }

  /** `d.pop(k)`. */
  function Without<K(==), V>(d: seq<Entry<K, V>>, k: K): seq<Entry<K, V>> {
    if d == [] then []
    else (if d[0].key == k then [] else [d[0]]) + Without(d[1..], k)
  }

  lemma {:induction false} GetWithout<K, V>(d: seq<Entry<K, V>>, k: K, x: K)
    ensures Get(Without(d, k), x) == if x == k then None else Get(d, x)
  {
    if d != [] {
      GetWithout(d[1..], k, x);
      if d[0].key != k {
        assert Without(d, k)[1..] == Without(d[1..], k);
      } else {
        assert Without(d, k) == Without(d[1..], k);
      }
    }
  }

  /** Assigning the value that is there changes nothing. */
  lemma {:induction false} PutSame<K, V>(d: seq<Entry<K, V>>, k: K, v: V)
    requires Get(d, k) == Some(v)
    ensures Put(d, k, v) == d
  {
    if d[0].key != k {
      PutSame(d[1..], k, v);
    }
  }

  /** Not assigned again by a later item. */
  predicate Last<K(==), V>(items: seq<Entry<K, V>>, i: nat)
    requires i < |items|
  {
    forall j :: i < j < |items| ==> items[j].key != items[i].key
  }

  lemma PutMembers<K, V>(d: seq<Entry<K, V>>, k: K, v: V)
    requires UniqueKeys(d)
    ensures forall e :: e in Put(d, k, v) <==> e == Entry(k, v) || (e in d && e.key != k)
  {
    var r := Put(d, k, v);
    if HasKey(d, k) {
      var at :| 0 <= at < |d| && d[at].key == k;
      PutAt(d, k, v, at);
      assert r[at] == Entry(k, v);
      forall e | e in d && e.key != k ensures e in r {
        var i :| 0 <= i < |d| && d[i] == e;
        assert r[i] == e;
      }
    } else {
      PutFresh(d, k, v);
      assert r[|d|] == Entry(k, v);
      forall e | e in d ensures e.key != k && e in r {
        var i :| 0 <= i < |d| && d[i] == e;
        assert r[i] == e;
      }
    }
  }

  ghost predicate LastEntry<K, V>(items: seq<Entry<K, V>>, e: Entry<K, V>) {
    exists i :: 0 <= i < |items| && items[i] == e && Last(items, i)
  }

  lemma LastSnoc<K, V>(init: seq<Entry<K, V>>, last: Entry<K, V>, e: Entry<K, V>)
    ensures LastEntry(init + [last], e) <==> e == last || (LastEntry(init, e) && e.key != last.key)
  {
    var items, n := init + [last], |init|;
    assert items[n] == last && Last(items, n);
    if LastEntry(init, e) && e.key != last.key {
      var i :| 0 <= i < |init| && init[i] == e && Last(init, i);
      assert items[i] == e && Last(items, i);
    }
    if LastEntry(items, e) && e != last {
      var i :| 0 <= i < |items| && items[i] == e && Last(items, i);
      assert i < n && items[n].key != items[i].key;
      assert forall j :: i < j < n ==> items[j] == init[j];
      assert init[i] == e && Last(init, i);
    }
  }

  /** The entries of a built dictionary are the last assignments of their keys. */
  lemma {:induction false} BuiltEntries<K, V>(items: seq<Entry<K, V>>, e: Entry<K, V>)
    ensures e in FromItems(items) <==> LastEntry(items, e)
  {
    hide Put;
    if items != [] {
      var init, last := items[..|items| - 1], items[|items| - 1];
      BuiltEntries(init, e);
      FromItemsShape(init);
      PutMembers(FromItems(init), last.key, last.value);
      hide LastEntry;
      LastSnoc(init, last, e);
      assert items == init + [last];
    }
  }

  /** Two dictionaries built by assigning the same keys are equal exactly when the last
      assignments of each key agree. */
  lemma SameBuilt<K, V>(a: seq<Entry<K, V>>, b: seq<Entry<K, V>>)
    requires |a| == |b| && forall i :: 0 <= i < |a| ==> a[i].key == b[i].key
    ensures FromItems(a) == FromItems(b) <==> forall i :: 0 <= i < |a| && Last(a, i) ==> a[i].value == b[i].value
  {
    var both := seq(|a|, i requires 0 <= i < |a| => Entry(a[i].key, (a[i].value, b[i].value)));
    var left, right := (k: K, w: (V, V)) => w.0, (k: K, w: (V, V)) => w.1;
    var built := FromItems(both);
    assert MapValues(left, both) == a && MapValues(right, both) == b;
    FromItemsMapped(left, both);
    FromItemsMapped(right, both);
    assert FromItems(a) == MapValues(left, built) && FromItems(b) == MapValues(right, built);
    if FromItems(a) == FromItems(b) {
      forall i | 0 <= i < |a| && Last(a, i) ensures a[i].value == b[i].value {
        assert Last(both, i);
        BuiltEntries(both, both[i]);
        var j :| 0 <= j < |built| && built[j] == both[i];
        assert MapValues(left, built)[j] == MapValues(right, built)[j];
      }
    }
    if forall i :: 0 <= i < |a| && Last(a, i) ==> a[i].value == b[i].value {
      forall j | 0 <= j < |built| ensures MapValues(left, built)[j] == MapValues(right, built)[j] {
        BuiltEntries(both, built[j]);
        assert built[j] in built;
        var i :| 0 <= i < |both| && both[i] == built[j] && Last(both, i);
        assert Last(a, i);
      }
      assert MapValues(left, built) == MapValues(right, built);
    }
  }
}
