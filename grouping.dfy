/**
 * The per-table batches put and deleteNonOptimistically build in a
 * LinkedHashMap<String, List<...>>: tables in order of first appearance,
 * each table's mutations in insertion order.
 */
module Grouping {

  /** One entry of a converter's LinkedHashMap: a table name and the mutation for it. */
  datatype Entry<M> = Entry(table: string, item: M)

  /** One entry of the grouped map: a table and its mutations. */
  datatype Batch<M> = Batch(table: string, items: seq<M>)

  /** The distinct tables of the entries, in order of first appearance (the map's key order). */
  function Tables<M>(entries: seq<Entry<M>>): (ts: seq<string>)
    ensures forall i, j :: 0 <= i < j < |ts| ==> ts[i] != ts[j]
    ensures forall t :: t in ts <==> exists i :: 0 <= i < |entries| && entries[i].table == t
  {
    if entries == [] then []
    else
      var init := entries[..|entries| - 1];
      var ts := Tables(init);
      assert forall i :: 0 <= i < |init| ==> init[i] == entries[i];
      if entries[|entries| - 1].table in ts then ts else ts + [entries[|entries| - 1].table]
  }

  /** The mutations the entries hold for one table, in order (the map's value for that key). */
  function Select<M>(entries: seq<Entry<M>>, t: string): (items: seq<M>)
    ensures |items| <= |entries|
  {
    if entries == [] then []
    else
      var last := entries[|entries| - 1];
      Select(entries[..|entries| - 1], t) + (if last.table == t then [last.item] else [])
  }

  /** The grouped map as an ordered sequence of batches. */
  function Group<M>(entries: seq<Entry<M>>): (groups: seq<Batch<M>>)
    ensures |groups| == |Tables(entries)|
    ensures forall i :: 0 <= i < |groups| ==>
      groups[i].table == Tables(entries)[i] && groups[i].items == Select(entries, groups[i].table)
  {
    var ts := Tables(entries);
    seq(|ts|, i requires 0 <= i < |ts| => Batch(ts[i], Select(entries, ts[i])))
  }

  /** Appending one entry: a new table goes to the end of the key order; a known table keeps its place. */
  lemma TablesSnoc<M>(entries: seq<Entry<M>>, e: Entry<M>)
    ensures Tables(entries + [e]) == if e.table in Tables(entries) then Tables(entries) else Tables(entries) + [e.table]
  {
    assert (entries + [e])[..|entries|] == entries;
  }

  /** Appending one entry adds its mutation to the end of its own table's list only. */
  lemma SelectSnoc<M>(entries: seq<Entry<M>>, e: Entry<M>, t: string)
    ensures Select(entries + [e], t) == Select(entries, t) + (if e.table == t then [e.item] else [])
  {
    assert (entries + [e])[..|entries|] == entries;
  }

  /** Every mutation lands in its own table's batch, and the batches lose none of them. */
  lemma {:induction false} SelectCount<M>(entries: seq<Entry<M>>, t: string)
    ensures |Select(entries, t)| == |set i | 0 <= i < |entries| && entries[i].table == t|
  {
    if entries != [] {
      var n := |entries| - 1;
      var init := entries[..n];
      SelectCount(init, t);
      var before := set i | 0 <= i < n && init[i].table == t;
      var after := set i | 0 <= i < |entries| && entries[i].table == t;
      if entries[n].table == t {
        assert after == before + {n};
      } else {
        assert after == before;
      }
    }
  }

  /**
   * The batches together hold exactly as many mutations as the entries:
   * nothing is dropped or duplicated by the grouping.
   */
  lemma {:induction false} GroupKeepsEveryEntry<M>(entries: seq<Entry<M>>)
    ensures TotalItems(Group(entries)) == |entries|
  {
    if entries != [] {
      var n := |entries| - 1;
      var init := entries[..n];
      assert init + [entries[n]] == entries;
      GroupKeepsEveryEntry(init);
      if entries[n].table in Tables(init) {
        GroupSnocKnown(init, entries[n]);
      } else {
        GroupSnocNew(init, entries[n]);
      }
    }
  }

  /** An entry for a table already in the map grows that table's batch by one. */
  lemma GroupSnocKnown<M>(init: seq<Entry<M>>, e: Entry<M>)
    requires e.table in Tables(init)
    ensures TotalItems(Group(init + [e])) == TotalItems(Group(init)) + 1
  {
    TablesSnoc(init, e);
    var g0 := Group(init);
    var g1 := Group(init + [e]);
    forall i | 0 <= i < |g0|
      ensures |g1[i].items| == |g0[i].items| + (if g0[i].table == e.table then 1 else 0)
    {
      SelectSnoc(init, e, g0[i].table);
    }
    var k :| 0 <= k < |g0| && g0[k].table == e.table;
    TotalItemsBump(g0, g1, k);
  }

  /** An entry for a new table adds a one-element batch at the end. */
  lemma GroupSnocNew<M>(init: seq<Entry<M>>, e: Entry<M>)
    requires e.table !in Tables(init)
    ensures TotalItems(Group(init + [e])) == TotalItems(Group(init)) + 1
  {
    TablesSnoc(init, e);
    var g0 := Group(init);
    var g1 := Group(init + [e]);
    assert g1 == g0 + [Batch(e.table, [e.item])] by {
      SelectAbsent(init, e.table);
      SelectSnoc(init, e, e.table);
      assert [] + [e.item] == [e.item];
      assert g1[|g0|] == Batch(e.table, [e.item]);
      forall i | 0 <= i < |g0| ensures g1[i] == g0[i] {
        assert Tables(init)[i] in Tables(init);
        SelectSnoc(init, e, g0[i].table);
      }
    }
    TotalItemsAppend(g0, Batch(e.table, [e.item]));
  }

  /** The number of mutations in a grouped map. */
  function TotalItems<M>(groups: seq<Batch<M>>): nat {
    if groups == [] then 0 else TotalItems(groups[..|groups| - 1]) + |groups[|groups| - 1].items|
  }

  lemma SelectAbsent<M>(entries: seq<Entry<M>>, t: string)
    requires t !in Tables(entries)
    ensures Select(entries, t) == []
  {
    SelectCount(entries, t);
    var s := set i | 0 <= i < |entries| && entries[i].table == t;
    assert s == {};
  }

  lemma TotalItemsAppend<M>(groups: seq<Batch<M>>, b: Batch<M>)
    ensures TotalItems(groups + [b]) == TotalItems(groups) + |b.items|
  {
    assert (groups + [b])[..|groups|] == groups;
  }

  /** Two grouped maps that differ only in one batch, which grew by one. */
  lemma {:induction false} TotalItemsBump<M>(g0: seq<Batch<M>>, g1: seq<Batch<M>>, k: nat)
    requires |g0| == |g1| && k < |g0|
    requires |g1[k].items| == |g0[k].items| + 1
    requires forall i :: 0 <= i < |g0| && i != k ==> |g1[i].items| == |g0[i].items|
    ensures TotalItems(g1) == TotalItems(g0) + 1
  {
    var n := |g0| - 1;
    if n == k {
      TotalItemsSame(g0[..n], g1[..n]);
    } else {
      TotalItemsBump(g0[..n], g1[..n], k);
    }
  }

  lemma {:induction false} TotalItemsSame<M>(g0: seq<Batch<M>>, g1: seq<Batch<M>>)
    requires |g0| == |g1|
    requires forall i :: 0 <= i < |g0| ==> |g1[i].items| == |g0[i].items|
    ensures TotalItems(g1) == TotalItems(g0)
  {
    if g0 != [] {
      TotalItemsSame(g0[..|g0| - 1], g1[..|g1| - 1]);
    }
  }

  /**
   * A LinkedHashMap under construction, as a key order and a map: it holds
   * exactly the grouping of the entries inserted so far.
   */
  ghost predicate Grouped<M>(order: seq<string>, groups: map<string, seq<M>>, entries: seq<Entry<M>>) {
    && order == Tables(entries)
    && (forall t :: t in groups <==> t in order)
    && (forall t :: t in groups ==> groups[t] == Select(entries, t))
  }

  /** The empty map groups no entries. */
  lemma GroupedEmpty<M>()
    ensures Grouped<M>([], map[], [])
  {
  }

  /**
   * One insertion step of the source's loop (get the table's list, create it
   * when missing, append the mutation) keeps the map equal to the grouping.
   */
  lemma GroupedSnoc<M>(order: seq<string>, groups: map<string, seq<M>>, entries: seq<Entry<M>>, e: Entry<M>)
    requires Grouped(order, groups, entries)
    ensures Grouped(
      if e.table in groups then order else order + [e.table],
      groups[e.table := (if e.table in groups then groups[e.table] else []) + [e.item]],
      entries + [e])
  {
    TablesSnoc(entries, e);
    forall t ensures Select(entries + [e], t) == Select(entries, t) + (if e.table == t then [e.item] else []) {
      SelectSnoc(entries, e, t);
    }
    if e.table !in groups {
      SelectAbsent(entries, e.table);
    }
  }

  /** Reading the finished map in key order gives the batches Group describes. */
  lemma GroupedIsGroup<M>(order: seq<string>, groups: map<string, seq<M>>, entries: seq<Entry<M>>)
    requires Grouped(order, groups, entries)
    ensures |order| == |Group(entries)|
    ensures forall i :: 0 <= i < |order| ==> order[i] in groups && Group(entries)[i] == Batch(order[i], groups[order[i]])
  {
  }

  /**
   * The inner loop of put and deleteNonOptimistically: each entry of one
   * entity's converted map is appended to its table's list, creating the
   * list when the table is new.
   */
  method InsertAll<M>(order: seq<string>, groups: map<string, seq<M>>, ghost entries: seq<Entry<M>>, items: seq<Entry<M>>)
    returns (order': seq<string>, groups': map<string, seq<M>>)
    requires Grouped(order, groups, entries)
    ensures Grouped(order', groups', entries + items)
  {
    order', groups' := order, groups;
    var j := 0;
    assert entries + items[..0] == entries;
    while j < |items|
      invariant 0 <= j <= |items|
      invariant Grouped(order', groups', entries + items[..j])
    {
      assert entries + items[..j + 1] == (entries + items[..j]) + [items[j]];
      order', groups' := Insert(order', groups', entries + items[..j], items[j]);
      j := j + 1;
    }
    assert items[..j] == items;
  }

  /** One insertion: append to the table's list, creating the list for a new table. */
  method Insert<M>(order: seq<string>, groups: map<string, seq<M>>, ghost entries: seq<Entry<M>>, e: Entry<M>)
    returns (order': seq<string>, groups': map<string, seq<M>>)
    requires Grouped(order, groups, entries)
    ensures Grouped(order', groups', entries + [e])
  {
    GroupedSnoc(order, groups, entries, e);
    if e.table in groups {
      order', groups' := order, groups[e.table := groups[e.table] + [e.item]];
    } else {
      order', groups' := order + [e.table], groups[e.table := [e.item]];
    }
  }

  /** A converter map with one entry gives one batch. */
  lemma GroupSingle<M>(e: Entry<M>)
    ensures Group([e]) == [Batch(e.table, [e.item])]
  {
    assert [e][..0] == [];
    assert Tables([e]) == [e.table];
    assert Select([e], e.table) == [] + [e.item];
    var g := Group([e]);
    assert |g| == 1 && g[0] == Batch(e.table, [e.item]);
  }
}
