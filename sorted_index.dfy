/** `byDeparture`: the AVL tree of connections keyed by departure. Only what
    the tree promises its user is modelled: its in-order traversal, a list
    kept sorted by key into which each insertion adds exactly one entry and
    overwrites none. The rebalancing is the `avl` package's business and is
    invisible in the traversal. */
module SortedIndex {
  import opened Types

  /** A node's key and data. */
  datatype Entry = Entry(key: int, data: Connection)

  /** Keys never decrease along the traversal. */
  ghost predicate SortedByKey(entries: seq<Entry>) {
    forall i, j :: 0 <= i < j < |entries| ==> entries[i].key <= entries[j].key
  }

  /** Every entry is keyed by its connection's departure. */
  ghost predicate KeyedByDeparture(entries: seq<Entry>) {
    forall k :: 0 <= k < |entries| ==> entries[k].key == entries[k].data.departure
  }

  /** The traversal's data, in order. */
  function InOrder(entries: seq<Entry>): seq<Connection> {
    seq(|entries|, k requires 0 <= k < |entries| => entries[k].data)
  }

  /** `insert(key, data)` on the traversal. The tree descends left on a key
      that compares equal, so the new entry goes after every smaller key and
      ahead of every key that is not smaller. */
  function InsertEntry(entries: seq<Entry>, e: Entry): seq<Entry>
    decreases |entries|
  {
    if entries == [] || e.key <= entries[0].key then [e] + entries
    else [entries[0]] + InsertEntry(entries[1..], e)
  }

  /** Inserting the connections one after the other into an empty tree. */
  function InsertAll(cs: seq<Connection>): seq<Entry>
    decreases |cs|
  {
    if cs == [] then []
    else InsertEntry(InsertAll(cs[..|cs| - 1]), Entry(cs[|cs| - 1].departure, cs[|cs| - 1]))
  }

  /** Inserting one more connection at the end of the input. */
  lemma InsertAllSnoc(cs: seq<Connection>, c: Connection)
    ensures InsertAll(cs + [c]) == InsertEntry(InsertAll(cs), Entry(c.departure, c))
  {
    assert (cs + [c])[..|cs|] == cs;
  }

  /** Every key of `entries` is at least `lo`. */
  ghost predicate AllKeysFrom(entries: seq<Entry>, lo: int) {
    forall k :: 0 <= k < |entries| ==> lo <= entries[k].key
  }

  /** An insertion adds exactly its own entry: nothing is lost or
      overwritten, equal keys included. */
  lemma {:induction false} InsertEntryContents(entries: seq<Entry>, e: Entry)
    ensures |InsertEntry(entries, e)| == |entries| + 1
    ensures multiset(InOrder(InsertEntry(entries, e))) == multiset(InOrder(entries)) + multiset{e.data}
    ensures KeyedByDeparture(entries) && e.key == e.data.departure ==> KeyedByDeparture(InsertEntry(entries, e))
    decreases |entries|
  {
    var r := InsertEntry(entries, e);
    if entries == [] || e.key <= entries[0].key {
      assert InOrder(r) == [e.data] + InOrder(entries);
    } else {
      var rest := InsertEntry(entries[1..], e);
      InsertEntryContents(entries[1..], e);
      assert r == [entries[0]] + rest;
      assert InOrder(r) == [entries[0].data] + InOrder(rest);
      assert InOrder(entries) == [entries[0].data] + InOrder(entries[1..]);
      if KeyedByDeparture(entries) && e.key == e.data.departure {
        assert KeyedByDeparture(entries[1..]) by {
          forall k | 0 <= k < |entries[1..]| ensures entries[1..][k].key == entries[1..][k].data.departure {
            assert entries[1..][k] == entries[k + 1];
          }
        }
        forall k | 0 <= k < |r| ensures r[k].key == r[k].data.departure {
          if k > 0 {
            assert r[k] == rest[k - 1];
          }
        }
      }
    }
  }

  /** An insertion keeps a lower bound that the new key and the tree both meet. */
  lemma {:induction false} InsertEntryFrom(entries: seq<Entry>, e: Entry, lo: int)
    requires AllKeysFrom(entries, lo) && lo <= e.key
    ensures AllKeysFrom(InsertEntry(entries, e), lo)
    decreases |entries|
  {
    if !(entries == [] || e.key <= entries[0].key) {
      var rest := InsertEntry(entries[1..], e);
      InsertEntryFrom(entries[1..], e, lo);
      assert InsertEntry(entries, e) == [entries[0]] + rest;
    }
  }

  /** An insertion keeps the traversal sorted by key. */
  lemma {:induction false} InsertEntrySorted(entries: seq<Entry>, e: Entry)
    requires SortedByKey(entries)
    ensures SortedByKey(InsertEntry(entries, e))
    decreases |entries|
  {
    var r := InsertEntry(entries, e);
    if entries == [] || e.key <= entries[0].key {
      assert r == [e] + entries;
      forall i, j | 0 <= i < j < |r| ensures r[i].key <= r[j].key {
        assert r[j] == entries[j - 1];
        if i > 0 {
          assert r[i] == entries[i - 1];
        }
      }
    } else {
      var h, tail := entries[0], entries[1..];
      InsertEntrySorted(tail, e);
      InsertEntryFrom(tail, e, h.key);
      var rest := InsertEntry(tail, e);
      assert r == [h] + rest;
      forall i, j | 0 <= i < j < |r| ensures r[i].key <= r[j].key {
        assert r[j] == rest[j - 1];
        if i > 0 {
          assert r[i] == rest[i - 1];
        }
      }
    }
  }

  /** The tree built from `cs`, in whatever order they come, is sorted by
      key, keys each connection by its departure, yields departures that
      never decrease from one connection to the next, and holds exactly the
      connections of `cs`, duplicates and equal departures included. */
  lemma {:induction false} InsertAllIndex(cs: seq<Connection>)
    ensures |InsertAll(cs)| == |cs|
    ensures SortedByKey(InsertAll(cs))
    ensures KeyedByDeparture(InsertAll(cs))
    ensures forall k :: 0 <= k < |cs| - 1 ==>
              InOrder(InsertAll(cs))[k].departure <= InOrder(InsertAll(cs))[k + 1].departure
    ensures multiset(InOrder(InsertAll(cs))) == multiset(cs)
    decreases |cs|
  {
    if cs != [] {
      var init, last := cs[..|cs| - 1], cs[|cs| - 1];
      InsertAllIndex(init);
      InsertEntrySorted(InsertAll(init), Entry(last.departure, last));
      InsertEntryContents(InsertAll(init), Entry(last.departure, last));
      assert cs == init + [last];
    }
  }

  /** The tree: its in-order traversal, kept sorted by key. */
  class Tree {
    var entries: seq<Entry>

    ghost predicate Valid()
      reads this
    {
      SortedByKey(entries)
    }

    /** `new AVLTree()`: empty, duplicates allowed. */
    constructor ()
      ensures Valid() && entries == []
    {
      entries := [];
    }

    /** `insert(key, data)`. */
    method Insert(key: int, data: Connection)
      requires Valid()
      modifies this
      ensures Valid()
      ensures entries == InsertEntry(old(entries), Entry(key, data))
    {
      InsertEntrySorted(entries, Entry(key, data));
      entries := InsertEntry(entries, Entry(key, data));
    }

    /** The connections in traversal order. */
    function Values(): seq<Connection>
      reads this
    {
      InOrder(entries)
    }
  }
}
