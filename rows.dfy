/** A table is a sequence of rows in insertion order; each row pairs a store-assigned id
    with the entity's columns. */
module Rows {
  import opened Wrappers
  import Seqs

  /** Primary keys are positive: the handlers read 0 as "absent" (`if category_id:`). */
  type Id = i: int | 0 < i witness 1

  datatype Row<T> = Row(id: Id, data: T)

  function Ids<T>(t: seq<Row<T>>): set<Id> {
    set i | 0 <= i < |t| :: t[i].id
  }

  /** The primary key: ids strictly increase along the table, so none repeats. */
  predicate Keyed<T>(t: seq<Row<T>>) {
    forall i, j :: 0 <= i < j < |t| ==> t[i].id < t[j].id
  }

  /** The id an insert is given: one more than the largest id in the table, the rule
      SQLite applies to an INTEGER PRIMARY KEY. */
  function NextId<T>(t: seq<Row<T>>): (n: Id)
    ensures Keyed(t) ==> forall i :: 0 <= i < |t| ==> t[i].id < n
    ensures Keyed(t) ==> n !in Ids(t)
  {
    if t == [] then 1 else t[|t| - 1].id + 1
  }

  /** `db.query(X).filter(X.id == id).first()`. */
  function Find<T>(t: seq<Row<T>>, id: int): (r: Option<Row<T>>)
    ensures r.Some? <==> id in Ids(t)
    ensures r.Some? ==> r.value.id == id && exists i :: 0 <= i < |t| && t[i] == r.value
    decreases |t|
  {
    if t == [] then None
    else if t[0].id == id then Some(t[0])
    else
      assert Ids(t) == {t[0].id} + Ids(t[1..]) by {
        forall x ensures x in Ids(t) <==> x in {t[0].id} + Ids(t[1..]) {
          if x in Ids(t) && x != t[0].id {
            var k :| 0 <= k < |t| && t[k].id == x;
            assert t[1..][k - 1].id == x;
          }
        }
      }
      Find(t[1..], id)
  }

  /** In a keyed table the row found is the only one with that id. */
  lemma FindUnique<T>(t: seq<Row<T>>, id: int, i: int)
    requires Keyed(t) && 0 <= i < |t| && t[i].id == id
    ensures Find(t, id) == Some(t[i])
  {
    var k :| 0 <= k < |t| && t[k] == Find(t, id).value;
    if k < i {
      assert t[k].id < t[i].id;
    } else if i < k {
      assert t[i].id < t[k].id;
    }
  }

  /** The table without the row that has id `id` (`db.delete`). */
  function Remove<T(==)>(t: seq<Row<T>>, id: Id): (r: seq<Row<T>>)
    ensures Ids(r) == Ids(t) - {id}
    ensures forall i :: 0 <= i < |r| ==> r[i] in t && r[i].id != id
    ensures forall i :: 0 <= i < |t| && t[i].id != id ==> t[i] in r
    ensures Seqs.IsSubsequence(r, t)
    ensures Keyed(t) ==> Keyed(r)
  {
    var r := Seqs.Filter(t, (x: Row<T>) => x.id != id);
    FilterIds(t, (x: Row<T>) => x.id != id);
    assert Keyed(t) ==> Keyed(r) by {
      if Keyed(t) {
        FilterKeyed(t, (x: Row<T>) => x.id != id);
      }
    }
    assert Ids(r) == Ids(t) - {id} by {
      forall x ensures x in Ids(r) <==> x in Ids(t) && x != id {
        if x in Ids(t) && x != id {
          var k :| 0 <= k < |t| && t[k].id == x;
          assert t[k] in r;
        }
      }
    }
    r
  }

  /** The ids of a filtered table are ids of the table. */
  lemma FilterIds<T>(t: seq<Row<T>>, keep: Row<T> -> bool)
    ensures Ids(Seqs.Filter(t, keep)) <= Ids(t)
  {
    var r := Seqs.Filter(t, keep);
    forall x | x in Ids(r) ensures x in Ids(t) {
      var k :| 0 <= k < |r| && r[k].id == x;
      assert r[k] in t;
    }
  }

  /** Filtering keeps the primary-key order. */
  lemma {:induction false} FilterKeyed<T>(t: seq<Row<T>>, keep: Row<T> -> bool)
    requires Keyed(t)
    ensures Keyed(Seqs.Filter(t, keep))
    decreases |t|
  {
    if t != [] {
      var rest := Seqs.Filter(t[1..], keep);
      FilterKeyed(t[1..], keep);
      if keep(t[0]) {
        var r := [t[0]] + rest;
        forall i, j | 0 <= i < j < |r| ensures r[i].id < r[j].id {
          if i == 0 {
            assert r[j] == rest[j - 1] && r[j] in t[1..];
          } else {
            assert r[i] == rest[i - 1] && r[j] == rest[j - 1];
          }
        }
      }
    }
  }

  /** The table with the row that has id `id` holding `v` instead (a committed update). */
  function Replace<T>(t: seq<Row<T>>, id: Id, v: T): (r: seq<Row<T>>)
    ensures |r| == |t|
    ensures forall i :: 0 <= i < |t| ==> r[i].id == t[i].id
    ensures forall i :: 0 <= i < |t| ==> r[i].data == if t[i].id == id then v else t[i].data
    ensures Ids(r) == Ids(t)
    ensures Keyed(t) ==> Keyed(r)
  {
    var r := seq(|t|, i requires 0 <= i < |t| => if t[i].id == id then Row(id, v) else t[i]);
    assert forall i :: 0 <= i < |t| ==> r[i].id == t[i].id;
    r
  }

  /** Some row has `key` equal to `k` (the create handlers' pre-check). */
  predicate Taken<T, K(==)>(t: seq<Row<T>>, key: T -> K, k: K) {
    exists i :: 0 <= i < |t| && key(t[i].data) == k
  }

  /** Some row other than the one with id `id` has `key` equal to `k`. */
  predicate TakenByOther<T, K(==)>(t: seq<Row<T>>, id: Id, key: T -> K, k: K) {
    exists i :: 0 <= i < |t| && t[i].id != id && key(t[i].data) == k
  }

  /** A unique column: rows that agree on `key` are the same row. */
  predicate UniqueBy<T, K(==)>(t: seq<Row<T>>, key: T -> K) {
    forall i, j :: 0 <= i < |t| && 0 <= j < |t| && key(t[i].data) == key(t[j].data) ==> t[i].id == t[j].id
  }

  /** Every row satisfies the column constraints `fits`. */
  predicate AllFit<T>(t: seq<Row<T>>, fits: T -> bool) {
    forall i :: 0 <= i < |t| ==> fits(t[i].data)
  }

  /** Appending a row keeps a unique column unique exactly when its key is not taken. */
  lemma AppendUnique<T, K>(t: seq<Row<T>>, key: T -> K, r: Row<T>)
    requires UniqueBy(t, key) && r.id !in Ids(t)
    ensures UniqueBy(t + [r], key) <==> !Taken(t, key, key(r.data))
  {
    var t' := t + [r];
    if Taken(t, key, key(r.data)) {
      var i :| 0 <= i < |t| && key(t[i].data) == key(r.data);
      assert t'[i] == t[i] && t'[|t|] == r;
      assert t[i].id in Ids(t);
    }
  }

  /** Replacing a row keeps a unique column unique exactly when no other row has the new key. */
  lemma ReplaceUnique<T, K>(t: seq<Row<T>>, key: T -> K, id: Id, v: T)
    requires UniqueBy(t, key) && Keyed(t) && id in Ids(t)
    ensures UniqueBy(Replace(t, id, v), key) <==> !TakenByOther(t, id, key, key(v))
  {
    var t' := Replace(t, id, v);
    var k :| 0 <= k < |t| && t[k].id == id;
    assert t'[k].data == v;
    if TakenByOther(t, id, key, key(v)) {
      var i :| 0 <= i < |t| && t[i].id != id && key(t[i].data) == key(v);
      assert t'[i].data == t[i].data;
    } else {
      forall i, j | 0 <= i < |t'| && 0 <= j < |t'| && key(t'[i].data) == key(t'[j].data)
        ensures t'[i].id == t'[j].id
      {
        if (t[i].id == id) != (t[j].id == id) {
          assert false;
        } else if t[i].id != id {
          assert t'[i].data == t[i].data && t'[j].data == t[j].data;
        }
      }
    }
  }

  lemma AppendIds<T>(t: seq<Row<T>>, r: Row<T>)
    ensures Ids(t + [r]) == Ids(t) + {r.id}
  {
    var t' := t + [r];
    forall x ensures x in Ids(t') <==> x in Ids(t) + {r.id} {
      if x in Ids(t) {
        var k :| 0 <= k < |t| && t[k].id == x;
        assert t'[k].id == x;
      }
      assert t'[|t|].id == r.id;
    }
  }

  /** An insert under NextId keeps the primary-key order. */
  lemma AppendKeyed<T>(t: seq<Row<T>>, v: T)
    requires Keyed(t)
    ensures Keyed(t + [Row(NextId(t), v)])
  {
  }

  /** A table whose rows all come from a table with a unique column keeps that column unique. */
  lemma SubsetUnique<T, K>(t: seq<Row<T>>, t': seq<Row<T>>, key: T -> K)
    requires UniqueBy(t, key)
    requires forall i :: 0 <= i < |t'| ==> t'[i] in t
    ensures UniqueBy(t', key)
  {
    forall i, j | 0 <= i < |t'| && 0 <= j < |t'| && key(t'[i].data) == key(t'[j].data)
      ensures t'[i].id == t'[j].id
    {
      var a :| 0 <= a < |t| && t[a] == t'[i];
      var b :| 0 <= b < |t| && t[b] == t'[j];
    }
  }

  /** A table whose rows all come from a table of fitting rows has fitting rows. */
  lemma SubsetFits<T>(t: seq<Row<T>>, t': seq<Row<T>>, fits: T -> bool)
    requires AllFit(t, fits)
    requires forall i :: 0 <= i < |t'| ==> t'[i] in t
    ensures AllFit(t', fits)
  {
    forall i | 0 <= i < |t'| ensures fits(t'[i].data) {
      var a :| 0 <= a < |t| && t[a] == t'[i];
    }
  }

  /** Replacing an existing row keeps every row fitting exactly when the new data fits. */
  lemma ReplaceFits<T>(t: seq<Row<T>>, id: Id, v: T, fits: T -> bool)
    requires AllFit(t, fits) && id in Ids(t)
    ensures AllFit(Replace(t, id, v), fits) <==> fits(v)
  {
    var k :| 0 <= k < |t| && t[k].id == id;
    assert Replace(t, id, v)[k].data == v;
  }
}
