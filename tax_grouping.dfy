/** Accumulation of (key, price, tax) amounts into one group per key, in
    first-seen order: the insertion-ordered `Map` both the refund summary
    (keyed by rate and title) and the monthly report (keyed by rate) build.
    Amounts are whole cents, on which the source's safeAdd and
    roundToTwoDecimals are exact (Money.SafeAddCents). */
module TaxGrouping {

  /** What one line contributes to the group of its key. */
  datatype Entry<K> = Entry(key: K, price: int, tax: int)

  /** A map entry: the key and the accumulated price and tax. */
  datatype Group<K> = Group(key: K, price: int, tax: int)

  function GroupKeys<K>(groups: seq<Group<K>>): set<K> {
    if groups == [] then {} else GroupKeys(groups[..|groups| - 1]) + {groups[|groups| - 1].key}
  }

  predicate UniqueKeys<K(==)>(groups: seq<Group<K>>) {
    forall i, j :: 0 <= i < j < |groups| ==> groups[i].key != groups[j].key
  }

  /** `map.get(key)`: the position of the group with key `k`, or -1. */
  function IndexOfKey<K(==)>(groups: seq<Group<K>>, k: K): (i: int)
    ensures -1 <= i < |groups|
    ensures 0 <= i ==> groups[i].key == k
    ensures i < 0 <==> forall j :: 0 <= j < |groups| ==> groups[j].key != k
    ensures 0 <= i <==> k in GroupKeys(groups)
  {
    if groups == [] then -1
    else if groups[|groups| - 1].key == k then |groups| - 1
    else IndexOfKey(groups[..|groups| - 1], k)
  }

  /** `map.get(key) || zero`, add, `map.set(key, group)`: a key seen for the
      first time gets a new group at the end; otherwise its group is updated
      in place. */
  function AddToGroup<K(==)>(groups: seq<Group<K>>, e: Entry<K>): seq<Group<K>> {
    var i := IndexOfKey(groups, e.key);
    if i < 0 then
      groups + [Group(e.key, e.price, e.tax)]
    else
      groups[i := groups[i].(price := groups[i].price + e.price, tax := groups[i].tax + e.tax)]
  }

  /** The map after adding every entry in order. */
  function Grouped<K(==)>(es: seq<Entry<K>>): seq<Group<K>> {
    if es == [] then [] else AddToGroup(Grouped(es[..|es| - 1]), es[|es| - 1])
  }

  lemma GroupedSnoc<K>(es: seq<Entry<K>>, e: Entry<K>)
    ensures Grouped(es + [e]) == AddToGroup(Grouped(es), e)
  {
    assert (es + [e])[..|es|] == es;
  }

  function EntryKeys<K>(es: seq<Entry<K>>): set<K> {
    if es == [] then {} else EntryKeys(es[..|es| - 1]) + {es[|es| - 1].key}
  }

  /** Sum of the prices of the entries with key `k`. */
  function KeyedPrice<K(==)>(es: seq<Entry<K>>, k: K): int {
    if es == [] then 0
    else KeyedPrice(es[..|es| - 1], k) + (if es[|es| - 1].key == k then es[|es| - 1].price else 0)
  }

  /** Sum of the taxes of the entries with key `k`. */
  function KeyedTax<K(==)>(es: seq<Entry<K>>, k: K): int {
    if es == [] then 0
    else KeyedTax(es[..|es| - 1], k) + (if es[|es| - 1].key == k then es[|es| - 1].tax else 0)
  }

  /** Sum of price plus tax over the entries. */
  function EntriesSum<K>(es: seq<Entry<K>>): int {
    if es == [] then 0 else EntriesSum(es[..|es| - 1]) + es[|es| - 1].price + es[|es| - 1].tax
  }

  /** Sum of price plus tax over the groups. */
  function GroupsTotal<K>(groups: seq<Group<K>>): int {
    if groups == [] then 0
    else GroupsTotal(groups[..|groups| - 1]) + groups[|groups| - 1].price + groups[|groups| - 1].tax
  }

  lemma {:induction false} EntriesSumAppend<K>(a: seq<Entry<K>>, b: seq<Entry<K>>)
    ensures EntriesSum(a + b) == EntriesSum(a) + EntriesSum(b)
  {
    if b != [] {
      var n := |b| - 1;
      EntriesSumAppend(a, b[..n]);
      assert (a + b)[..|a + b| - 1] == a + b[..n];
    } else {
      assert a + b == a;
    }
  }

  lemma {:induction false} KeyedAbsent<K>(es: seq<Entry<K>>, k: K)
    requires k !in EntryKeys(es)
    ensures KeyedPrice(es, k) == 0 && KeyedTax(es, k) == 0
  {
    if es != [] {
      KeyedAbsent(es[..|es| - 1], k);
    }
  }

  lemma {:induction false} GroupKeysUpdate<K>(groups: seq<Group<K>>, i: nat, g: Group<K>)
    requires i < |groups| && g.key == groups[i].key
    ensures GroupKeys(groups[i := g]) == GroupKeys(groups)
  {
    var n := |groups| - 1;
    if i < n {
      GroupKeysUpdate(groups[..n], i, g);
      assert groups[i := g][..n] == groups[..n][i := g];
    } else {
      assert groups[i := g][..n] == groups[..n];
    }
  }

  lemma {:induction false} GroupsTotalUpdate<K>(groups: seq<Group<K>>, i: nat, g: Group<K>)
    requires i < |groups|
    ensures GroupsTotal(groups[i := g]) == GroupsTotal(groups) - groups[i].price - groups[i].tax + g.price + g.tax
  {
    var n := |groups| - 1;
    if i < n {
      GroupsTotalUpdate(groups[..n], i, g);
      assert groups[i := g][..n] == groups[..n][i := g];
    } else {
      assert groups[i := g][..n] == groups[..n];
    }
  }

  /** Adding an entry keeps the keys distinct. */
  lemma AddToGroupUnique<K>(groups: seq<Group<K>>, e: Entry<K>)
    requires UniqueKeys(groups)
    ensures UniqueKeys(AddToGroup(groups, e))
  {
    var i := IndexOfKey(groups, e.key);
    var g := AddToGroup(groups, e);
    if i >= 0 {
      assert forall j :: 0 <= j < |g| ==> g[j].key == groups[j].key;
    } else {
      assert forall j :: 0 <= j < |groups| ==> g[j] == groups[j];
    }
  }

  /** Adding an entry adds its key to the keys, and a group only when the
      key is new. */
  lemma AddToGroupKeys<K>(groups: seq<Group<K>>, e: Entry<K>)
    ensures GroupKeys(AddToGroup(groups, e)) == GroupKeys(groups) + {e.key}
    ensures |groups| <= |AddToGroup(groups, e)| <= |groups| + 1 && |AddToGroup(groups, e)| > 0
  {
    var i := IndexOfKey(groups, e.key);
    if i >= 0 {
      GroupKeysUpdate(groups, i, groups[i].(price := groups[i].price + e.price, tax := groups[i].tax + e.tax));
      assert e.key in GroupKeys(groups);
    } else {
      var g := groups + [Group(e.key, e.price, e.tax)];
      assert g[..|g| - 1] == groups;
    }
  }

  /** Adding an entry adds its price and tax to the total. */
  lemma AddToGroupTotal<K>(groups: seq<Group<K>>, e: Entry<K>)
    ensures GroupsTotal(AddToGroup(groups, e)) == GroupsTotal(groups) + e.price + e.tax
  {
    var i := IndexOfKey(groups, e.key);
    if i >= 0 {
      GroupsTotalUpdate(groups, i, groups[i].(price := groups[i].price + e.price, tax := groups[i].tax + e.tax));
    } else {
      var g := groups + [Group(e.key, e.price, e.tax)];
      assert g[..|g| - 1] == groups;
    }
  }

  /** There is exactly one group per key seen, and no other. */
  lemma {:induction false} GroupedKeys<K>(es: seq<Entry<K>>)
    ensures UniqueKeys(Grouped(es))
    ensures GroupKeys(Grouped(es)) == EntryKeys(es)
    ensures |Grouped(es)| <= |es| && (|es| > 0 ==> |Grouped(es)| > 0)
  {
    if es != [] {
      var p := es[..|es| - 1];
      GroupedKeys(p);
      AddToGroupUnique(Grouped(p), es[|es| - 1]);
      AddToGroupKeys(Grouped(p), es[|es| - 1]);
    }
  }

  /** Entries sharing a key accumulate into that key's group, which holds the
      sums of their prices and taxes. */
  lemma {:induction false} GroupedAmounts<K>(es: seq<Entry<K>>)
    ensures forall i :: 0 <= i < |Grouped(es)| ==>
      && Grouped(es)[i].price == KeyedPrice(es, Grouped(es)[i].key)
      && Grouped(es)[i].tax == KeyedTax(es, Grouped(es)[i].key)
  {
    if es != [] {
      var p, e := es[..|es| - 1], es[|es| - 1];
      var g0, g := Grouped(p), Grouped(es);
      GroupedAmounts(p);
      GroupedKeys(p);
      var i0 := IndexOfKey(g0, e.key);
      if i0 < 0 {
        KeyedAbsent(p, e.key);
        forall i | 0 <= i < |g|
          ensures g[i].price == KeyedPrice(es, g[i].key) && g[i].tax == KeyedTax(es, g[i].key)
        {
          if i < |g0| {
            assert g[i] == g0[i];
          }
        }
      } else {
        forall i | 0 <= i < |g|
          ensures g[i].price == KeyedPrice(es, g[i].key) && g[i].tax == KeyedTax(es, g[i].key)
        {
          if i != i0 {
            assert g[i] == g0[i] && g0[i].key != e.key;
          }
        }
      }
    }
  }

  /** The groups together add up to the entries. */
  lemma {:induction false} GroupedTotal<K>(es: seq<Entry<K>>)
    ensures GroupsTotal(Grouped(es)) == EntriesSum(es)
  {
    if es != [] {
      var p, e := es[..|es| - 1], es[|es| - 1];
      GroupedTotal(p);
      AddToGroupTotal(Grouped(p), e);
      assert Grouped(es) == AddToGroup(Grouped(p), e);
      assert EntriesSum(es) == EntriesSum(p) + e.price + e.tax;
    }
  }
}
