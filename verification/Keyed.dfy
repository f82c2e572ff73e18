/** Catalog entries, looked up by key and listed in key order. The same code serves both
    kinds of entry; only the type of their fields differs. */
module Keyed {
  import opened Text

  /** A stored entry. `system` marks the seeded CLIs; it is false for every model. A creation
      time of 0 is the zero time, "not set". */
  datatype Entry<V> = Entry(
    id: string, orgId: string, key: string, enabled: bool, system: bool,
    createdAt: int, updatedAt: int, fields: V)

  /** The last entry of each key. */
  function ByKey<V>(xs: seq<Entry<V>>): map<string, Entry<V>> {
    if xs == [] then map[]
    else ByKey(xs[..|xs| - 1])[xs[|xs| - 1].key := xs[|xs| - 1]]
  }

  predicate WellKeyed<V(==)>(m: map<string, Entry<V>>) {
    forall k :: k in m ==> m[k].key == k
  }

  lemma {:induction false} ByKeyFindsLast<V>(xs: seq<Entry<V>>, k: string)
    ensures k in ByKey(xs) <==> exists i :: 0 <= i < |xs| && xs[i].key == k
    ensures k in ByKey(xs) ==> ByKey(xs)[k] in xs && ByKey(xs)[k].key == k
  {
    if xs != [] {
      var n := |xs| - 1;
      ByKeyFindsLast(xs[..n], k);
      if k == xs[n].key {
        assert xs[n] in xs;
      } else if k in ByKey(xs) {
        var i :| 0 <= i < n && xs[..n][i].key == k;
        assert xs[i].key == k;
      } else {
        assert forall i :: 0 <= i < n ==> xs[..n][i].key != k;
      }
    }
  }

  lemma ByKeyIsWellKeyed<V>(xs: seq<Entry<V>>)
    ensures WellKeyed(ByKey(xs))
  {
    forall k | k in ByKey(xs) ensures ByKey(xs)[k].key == k { ByKeyFindsLast(xs, k); }
  }

  lemma {:induction false} ByKeyOfConcat<V>(xs: seq<Entry<V>>, ys: seq<Entry<V>>)
    ensures ByKey(xs + ys) == ByKey(xs) + ByKey(ys)
  {
    if ys == [] {
      assert xs + ys == xs;
    } else {
      var n := |ys| - 1;
      ByKeyOfConcat(xs, ys[..n]);
      assert (xs + ys)[..|xs + ys| - 1] == xs + ys[..n];
    }
  }

  /** With distinct keys, every entry is the one its key finds. */
  lemma {:induction false} ByKeyOfDistinct<V>(xs: seq<Entry<V>>, i: nat)
    requires i < |xs|
    requires forall p, q :: 0 <= p < q < |xs| ==> xs[p].key != xs[q].key
    ensures xs[i].key in ByKey(xs) && ByKey(xs)[xs[i].key] == xs[i]
  {
    if i < |xs| - 1 {
      ByKeyOfDistinct(xs[..|xs| - 1], i);
    }
  }

  // ---------------------------------------------------------------------------
  // Listing in key order
  // ---------------------------------------------------------------------------

  ghost predicate IsLeast(k: string, ks: set<string>) {
    k in ks && forall j :: j in ks ==> j == k || Before(k, j)
  }

  method LeastKey(ks: set<string>) returns (k: string)
    requires ks != {}
    ensures IsLeast(k, ks)
  {
    k :| k in ks;
    var rest := ks - {k};
    while rest != {}
      invariant rest <= ks && k in ks - rest
      invariant forall j :: j in ks - rest ==> j == k || Before(k, j)
      decreases |rest|
    {
      var j :| j in rest;
      BeforeIsTotal(j, k);
      if Before(j, k) {
        forall i | i in ks - rest && i != k ensures Before(j, i) { BeforeIsTransitive(j, k, i); }
        k := j;
      }
      rest := rest - {j};
    }
  }

  lemma LeastExists(ks: set<string>)
    requires ks != {}
    ensures exists k :: IsLeast(k, ks)
    decreases |ks|
  {
    var k :| k in ks;
    if ks == {k} {
      assert IsLeast(k, ks);
    } else {
      LeastExists(ks - {k});
      var l :| IsLeast(l, ks - {k});
      BeforeIsTotal(k, l);
      if Before(k, l) {
        forall j | j in ks && j != k ensures Before(k, j) { if j != l { BeforeIsTransitive(k, l, j); } }
        assert IsLeast(k, ks);
      } else {
        assert IsLeast(l, ks);
      }
    }
  }

  lemma LeastIsUnique(a: string, b: string, ks: set<string>)
    requires IsLeast(a, ks) && IsLeast(b, ks)
    ensures a == b
  {
    BeforeIsTotal(a, b);
  }

  ghost function Least(ks: set<string>): (k: string)
    requires ks != {}
    ensures IsLeast(k, ks)
  {
    LeastExists(ks);
    var k :| IsLeast(k, ks);
    k
  }

  /** The entries under the keys `ks` of `m`, in key order. */
  ghost function ListingOf<V>(m: map<string, Entry<V>>, ks: set<string>): seq<Entry<V>>
    requires ks <= m.Keys
    decreases |ks|
  {
    if ks == {} then [] else [m[Least(ks)]] + ListingOf(m, ks - {Least(ks)})
  }

  ghost function Listing<V>(m: map<string, Entry<V>>): seq<Entry<V>> {
    ListingOf(m, m.Keys)
  }

  predicate InKeyOrder<V(==)>(xs: seq<Entry<V>>) {
    forall i, j :: 0 <= i < j < |xs| ==> Before(xs[i].key, xs[j].key)
  }

  lemma {:induction false} ListingOfHolds<V>(m: map<string, Entry<V>>, ks: set<string>)
    requires ks <= m.Keys && WellKeyed(m)
    ensures InKeyOrder(ListingOf(m, ks))
    ensures forall x :: x in ListingOf(m, ks) ==> x.key in ks && x == m[x.key]
    ensures forall k :: k in ks ==> m[k] in ListingOf(m, ks)
    decreases |ks|
  {
    if ks != {} {
      var l := Least(ks);
      ListingOfHolds(m, ks - {l});
      var rest := ListingOf(m, ks - {l});
      forall j | 0 <= j < |rest| ensures Before(l, rest[j].key) { assert rest[j] in rest; }
      forall k | k in ks ensures m[k] in ListingOf(m, ks) {
        if k != l { assert m[k] in rest; }
      }
    }
  }

  lemma DistinctKeysInOrder<V>(xs: seq<Entry<V>>)
    requires InKeyOrder(xs)
    ensures forall p, q :: 0 <= p < q < |xs| ==> xs[p].key != xs[q].key
  {
    forall p, q | 0 <= p < q < |xs| ensures xs[p].key != xs[q].key { BeforeIsTotal(xs[p].key, xs[q].key); }
  }

  /** Listing a keyed collection and looking it up again is the identity. */
  lemma ByKeyUndoesListing<V>(m: map<string, Entry<V>>)
    requires WellKeyed(m)
    ensures ByKey(Listing(m)) == m && InKeyOrder(Listing(m))
  {
    var xs := Listing(m);
    ListingOfHolds(m, m.Keys);
    DistinctKeysInOrder(xs);
    forall k | k in m ensures k in ByKey(xs) && ByKey(xs)[k] == m[k] {
      var i :| 0 <= i < |xs| && xs[i] == m[k];
      ByKeyOfDistinct(xs, i);
    }
    forall k | k in ByKey(xs) ensures k in m {
      ByKeyFindsLast(xs, k);
      var i :| 0 <= i < |xs| && xs[i].key == k;
      assert xs[i] in xs;
    }
  }

  /** `ks` are the keys from the `i`-th entry on. */
  ghost predicate KeysFrom<V>(xs: seq<Entry<V>>, i: nat, ks: set<string>) {
    forall k :: k in ks <==> exists j :: i <= j < |xs| && xs[j].key == k
  }

  /** The first entry of a suffix has the least of its keys. */
  lemma SuffixBeginsWithLeast<V>(xs: seq<Entry<V>>, i: nat, ks: set<string>)
    requires InKeyOrder(xs) && i < |xs| && KeysFrom(xs, i, ks)
    ensures ks != {} && Least(ks) == xs[i].key && KeysFrom(xs, i + 1, ks - {xs[i].key})
  {
    DistinctKeysInOrder(xs);
    var k := xs[i].key;
    assert k in ks;
    assert IsLeast(k, ks);
    LeastIsUnique(k, Least(ks), ks);
  }

  lemma NoKeysPastTheEnd<V>(xs: seq<Entry<V>>, ks: set<string>)
    requires KeysFrom(xs, |xs|, ks)
    ensures ks == {}
  {
  }

  ghost predicate Finds<V>(m: map<string, Entry<V>>, xs: seq<Entry<V>>) {
    forall j :: 0 <= j < |xs| ==> xs[j].key in m && m[xs[j].key] == xs[j]
  }

  /** An ordered list is its own listing. */
  lemma {:induction false} ListingOfSuffix<V>(m: map<string, Entry<V>>, xs: seq<Entry<V>>, i: nat, ks: set<string>)
    requires InKeyOrder(xs) && i <= |xs| && KeysFrom(xs, i, ks) && Finds(m, xs) && ks <= m.Keys
    ensures ListingOf(m, ks) == xs[i..]
    decreases |xs| - i
  {
    if i == |xs| {
      NoKeysPastTheEnd(xs, ks);
    } else {
      SuffixBeginsWithLeast(xs, i, ks);
      ListingOfSuffix(m, xs, i + 1, ks - {xs[i].key});
      assert xs[i..] == [xs[i]] + xs[i + 1..];
    }
  }

  lemma OrderedIsOwnListing<V>(xs: seq<Entry<V>>)
    requires InKeyOrder(xs)
    ensures Listing(ByKey(xs)) == xs
  {
    DistinctKeysInOrder(xs);
    forall j | 0 <= j < |xs| ensures xs[j].key in ByKey(xs) && ByKey(xs)[xs[j].key] == xs[j] {
      ByKeyOfDistinct(xs, j);
    }
    forall k ensures k in ByKey(xs).Keys <==> exists j :: 0 <= j < |xs| && xs[j].key == k {
      ByKeyFindsLast(xs, k);
    }
    ListingOfSuffix(ByKey(xs), xs, 0, ByKey(xs).Keys);
  }

  /** `changes` laid over `base`, one entry a key, in key order. */
  ghost function Merged<V>(base: seq<Entry<V>>, changes: seq<Entry<V>>): seq<Entry<V>> {
    Listing(ByKey(base) + ByKey(changes))
  }

  lemma MergedLookup<V>(base: seq<Entry<V>>, changes: seq<Entry<V>>)
    ensures ByKey(Merged(base, changes)) == ByKey(base) + ByKey(changes)
    ensures InKeyOrder(Merged(base, changes))
  {
    ByKeyIsWellKeyed(base);
    ByKeyIsWellKeyed(changes);
    ByKeyUndoesListing(ByKey(base) + ByKey(changes));
  }

  method IndexByKey<V>(xs: seq<Entry<V>>) returns (m: map<string, Entry<V>>)
    ensures m == ByKey(xs)
  {
    m := map[];
    for i := 0 to |xs|
      invariant m == ByKey(xs[..i])
    {
      m := m[xs[i].key := xs[i]];
      assert xs[..i + 1][..i] == xs[..i];
    }
    assert xs[..|xs|] == xs;
  }

  method CollectInOrder<V>(m: map<string, Entry<V>>) returns (out: seq<Entry<V>>)
    ensures out == Listing(m)
  {
    out := [];
    var todo := m.Keys;
    while todo != {}
      invariant todo <= m.Keys
      invariant out + ListingOf(m, todo) == Listing(m)
      decreases |todo|
    {
      var k := LeastKey(todo);
      LeastIsUnique(k, Least(todo), todo);
      out := out + [m[k]];
      todo := todo - {k};
    }
  }

  method Merge<V>(base: seq<Entry<V>>, changes: seq<Entry<V>>) returns (out: seq<Entry<V>>)
    ensures out == Merged(base, changes)
  {
    var m := IndexByKey(base);
    for i := 0 to |changes|
      invariant m == ByKey(base) + ByKey(changes[..i])
    {
      m := m[changes[i].key := changes[i]];
      assert changes[..i + 1][..i] == changes[..i];
    }
    assert changes[..|changes|] == changes;
    out := CollectInOrder(m);
  }
}
