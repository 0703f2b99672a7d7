/** Grouping rows under a composite key, the service `util.group` gives its
    callers: rows are bucketed by exact equality of their key, each bucket
    keeps the rows in input order, and buckets come in the order their key
    first appears. */
module Grouping {

  datatype Group<K, T> = Group(key: K, values: seq<T>)

  predicate Distinct<K(==)>(ks: seq<K>) {
    forall i, j :: 0 <= i < j < |ks| ==> ks[i] != ks[j]
  }

  /** The rows whose key is `k`, in input order. */
  function Select<K(==), T>(rows: seq<T>, key: T -> K, k: K): (r: seq<T>)
    ensures |r| <= |rows|
    ensures forall i :: 0 <= i < |r| ==> key(r[i]) == k
    decreases |rows|
  {
    if rows == [] then []
    else
      var last := rows[|rows| - 1];
      Select(rows[..|rows| - 1], key, k) + (if key(last) == k then [last] else [])
  }

  /** The distinct keys of `rows`, in the order they first appear. */
  function KeysOf<K(==), T>(rows: seq<T>, key: T -> K): (ks: seq<K>)
    ensures Distinct(ks)
    ensures forall i :: 0 <= i < |rows| ==> key(rows[i]) in ks
    decreases |rows|
  {
    if rows == [] then []
    else
      var prefix := rows[..|rows| - 1];
      var last := rows[|rows| - 1];
      var ks := KeysOf(prefix, key);
      assert forall i :: 0 <= i < |prefix| ==> prefix[i] == rows[i];
      if key(last) in ks then ks else ks + [key(last)]
  }

  /** Every key found has at least one row. */
  lemma {:induction false} KeysSelected<K, T>(rows: seq<T>, key: T -> K)
    ensures forall k :: k in KeysOf(rows, key) ==> Select(rows, key, k) != []
    decreases |rows|
  {
    if rows != [] {
      var prefix := rows[..|rows| - 1];
      KeysSelected(prefix, key);
      forall k | k in KeysOf(rows, key) ensures Select(rows, key, k) != [] {
        if k in KeysOf(prefix, key) {
          assert |Select(rows, key, k)| >= |Select(prefix, key, k)|;
        } else {
          assert key(rows[|rows| - 1]) == k;
        }
      }
    }
  }

  function Groups<K(==), T>(rows: seq<T>, key: T -> K, ks: seq<K>): (gs: seq<Group<K, T>>)
    ensures |gs| == |ks|
    ensures forall i :: 0 <= i < |gs| ==> gs[i] == Group(ks[i], Select(rows, key, ks[i]))
  {
    if ks == [] then [] else [Group(ks[0], Select(rows, key, ks[0]))] + Groups(rows, key, ks[1..])
  }

  /** `util.group(rows, keys, ...)` before the reducer runs. */
  function GroupBy<K(==), T>(rows: seq<T>, key: T -> K): (gs: seq<Group<K, T>>)
    ensures forall i :: 0 <= i < |gs| ==> gs[i].values == Select(rows, key, gs[i].key) && gs[i].values != []
    ensures forall i, j :: 0 <= i < j < |gs| ==> gs[i].key != gs[j].key
    ensures forall r :: r in rows ==> exists i :: 0 <= i < |gs| && gs[i].key == key(r)
  {
    var ks := KeysOf(rows, key);
    var gs := Groups(rows, key, ks);
    KeysSelected(rows, key);
    assert forall r :: r in rows ==> exists i :: 0 <= i < |ks| && ks[i] == key(r) by {
      forall r | r in rows ensures exists i :: 0 <= i < |ks| && ks[i] == key(r) {
        var n :| 0 <= n < |rows| && rows[n] == r;
        assert key(rows[n]) in ks;
      }
    }
    gs
  }

  /** All values of all groups, group after group. */
  function Values<K, T>(gs: seq<Group<K, T>>): seq<T> {
    if gs == [] then [] else gs[0].values + Values(gs[1..])
  }

  /** The selected rows are rows of the input. */
  lemma {:induction false} SelectFrom<K, T>(rows: seq<T>, key: T -> K, k: K)
    ensures forall x :: x in Select(rows, key, k) ==> x in rows
    decreases |rows|
  {
    if rows != [] {
      SelectFrom(rows[..|rows| - 1], key, k);
    }
  }

  lemma SelectSnoc<K, T>(rows: seq<T>, x: T, key: T -> K, k: K)
    ensures Select(rows + [x], key, k) == Select(rows, key, k) + (if key(x) == k then [x] else [])
  {
    assert (rows + [x])[..|rows|] == rows;
  }

  lemma {:induction false} GroupsOfNoRows<K, T>(key: T -> K, ks: seq<K>)
    ensures Values(Groups([], key, ks)) == []
  {
    if ks != [] {
      GroupsOfNoRows(key, ks[1..]);
    }
  }

  lemma DistinctTail<K>(ks: seq<K>)
    requires ks != [] && Distinct(ks)
    ensures Distinct(ks[1..]) && ks[0] !in ks[1..]
  {
    var rest := ks[1..];
    forall i, j | 0 <= i < j < |rest| ensures rest[i] != rest[j] {
      assert rest[i] == ks[i + 1] && rest[j] == ks[j + 1];
    }
  }

  /** One more row adds exactly one value to the groups of distinct keys
      when its key is among them, and none otherwise. */
  lemma {:induction false} GroupsSnoc<K, T>(rows: seq<T>, x: T, key: T -> K, ks: seq<K>)
    requires Distinct(ks)
    ensures multiset(Values(Groups(rows + [x], key, ks)))
         == multiset(Values(Groups(rows, key, ks))) + (if key(x) in ks then multiset{x} else multiset{})
  {
    if ks != [] {
      var rest := ks[1..];
      DistinctTail(ks);
      GroupsSnoc(rows, x, key, rest);
      SelectSnoc(rows, x, key, ks[0]);
      var before, after := Groups(rows, key, ks), Groups(rows + [x], key, ks);
      assert Values(before) == Select(rows, key, ks[0]) + Values(Groups(rows, key, rest));
      assert Values(after) == Select(rows + [x], key, ks[0]) + Values(Groups(rows + [x], key, rest));
      assert key(x) in ks <==> key(x) == ks[0] || key(x) in rest;
    }
  }

  lemma {:induction false} GroupsCover<K, T>(rows: seq<T>, key: T -> K, ks: seq<K>)
    requires Distinct(ks)
    requires forall i :: 0 <= i < |rows| ==> key(rows[i]) in ks
    ensures multiset(Values(Groups(rows, key, ks))) == multiset(rows)
    decreases |rows|
  {
    if rows == [] {
      GroupsOfNoRows(key, ks);
    } else {
      var prefix := rows[..|rows| - 1];
      var last := rows[|rows| - 1];
      assert rows == prefix + [last];
      GroupsCover(prefix, key, ks);
      GroupsSnoc(prefix, last, key, ks);
    }
  }

  /** Grouping is a partition: the groups' values, taken together, are
      exactly the input rows. */
  lemma GroupByPartition<K, T>(rows: seq<T>, key: T -> K)
    ensures multiset(Values(GroupBy(rows, key))) == multiset(rows)
  {
    GroupsCover(rows, key, KeysOf(rows, key));
  }
}
