/** How the writes and the reads fit together: what a fetch or a listing returns after
    each kind of write. */
module Properties {
  import opened Wrappers
  import opened Rows
  import opened Models
  import opened Errors
  import Queries
  import Writes
  import Seqs

  /** A created row is fetched under the id the insert gave it; every other fetch is as
      before. */
  lemma FetchAfterInsert<T>(t: seq<Row<T>>, v: T, id: int, kind: Entity)
    requires Keyed(t)
    ensures Queries.Get(t + [Row(NextId(t), v)], NextId(t), kind) == Ok(Row(NextId(t), v))
    ensures id != NextId(t) ==> Queries.Get(t + [Row(NextId(t), v)], id, kind) == Queries.Get(t, id, kind)
  {
    var t' := t + [Row(NextId(t), v)];
    AppendKeyed(t, v);
    FindUnique(t', NextId(t), |t|);
    if id != NextId(t) && id in Ids(t) {
      var i :| 0 <= i < |t| && t[i].id == id;
      FindUnique(t, id, i);
      FindUnique(t', id, i);
    }
    if id !in Ids(t) {
      AppendIds(t, Row(NextId(t), v));
    }
  }

  /** An updated row is fetched with its new data; every other fetch is as before. */
  lemma FetchAfterReplace<T>(t: seq<Row<T>>, id: Id, v: T, other: int, kind: Entity)
    requires Keyed(t) && id in Ids(t)
    ensures Queries.Get(Replace(t, id, v), id, kind) == Ok(Row(id, v))
    ensures other != id ==> Queries.Get(Replace(t, id, v), other, kind) == Queries.Get(t, other, kind)
  {
    var t' := Replace(t, id, v);
    var i :| 0 <= i < |t| && t[i].id == id;
    FindUnique(t', id, i);
    if other != id && other in Ids(t) {
      var j :| 0 <= j < |t| && t[j].id == other;
      FindUnique(t, other, j);
      FindUnique(t', other, j);
    }
  }

  /** A deleted row is no longer found; every other fetch is as before. */
  lemma FetchAfterRemove<T>(t: seq<Row<T>>, id: Id, other: int, kind: Entity)
    requires Keyed(t)
    ensures Queries.Get(Remove(t, id), id, kind) == Err(NotFound(kind))
    ensures other != id ==> Queries.Get(Remove(t, id), other, kind) == Queries.Get(t, other, kind)
  {
    var t' := Remove(t, id);
    if other != id && other in Ids(t) {
      var j :| 0 <= j < |t| && t[j].id == other;
      var k :| 0 <= k < |t'| && t'[k] == t[j];
      FindUnique(t, other, j);
      FindUnique(t', other, k);
    }
  }

  /** After a user is deleted, listing expenses or budgets by that user finds none. */
  lemma DeletedUserOwnsNothing(db: Db, id: Id)
    ensures Queries.ListExpenses(Writes.DeleteUser(db, id).expenses, Queries.ExpenseQuery(None, None, Some(id), None, None)) == Ok([])
    ensures Queries.ListBudgets(Writes.DeleteUser(db, id).budgets, Queries.BudgetQuery(Some(id), None, None)) == []
  {
    var r := Writes.DeleteUser(db, id);
    Seqs.FilterNone(r.expenses, Queries.ExpenseMatching(Queries.ExpenseQuery(None, None, Some(id), None, None)));
    Seqs.FilterNone(r.budgets, Queries.BudgetMatching(Queries.BudgetQuery(Some(id), None, None)));
  }

  /** After a category is deleted, no expense lists under it, and the expenses that had it
      are still listed, without a category. */
  lemma DeletedCategoryReleasesExpenses(db: Db, id: Id, i: int)
    requires 0 <= i < |db.expenses| && db.expenses[i].data.categoryId == Some(id)
    ensures Queries.ListExpenses(Writes.DeleteCategory(db, id).expenses, Queries.ExpenseQuery(None, Some(id), None, None, None)) == Ok([])
    ensures Row(db.expenses[i].id, db.expenses[i].data.(categoryId := None)) in Writes.DeleteCategory(db, id).expenses
  {
    var r := Writes.DeleteCategory(db, id);
    assert r.expenses[i] == Row(db.expenses[i].id, db.expenses[i].data.(categoryId := None));
    Seqs.FilterNone(r.expenses, Queries.ExpenseMatching(Queries.ExpenseQuery(None, Some(id), None, None, None)));
  }

  /** After a tag is deleted, no expense carries it. */
  lemma DeletedTagDetached(db: Db, id: Id, e: Id)
    ensures id !in TagsOf(Writes.DeleteTag(db, id).links, e)
    ensures TagsOf(Writes.DeleteTag(db, id).links, e) == TagsOf(db.links, e) - {id}
  {
  }
}
