/** The effect of each committed write on the store, with the `ondelete` and relationship
    cascade rules of core/models.py, and when a write keeps every declared constraint. */
module Writes {
  import opened Wrappers
  import opened Rows
  import opened Models
  import Seqs

  // ---------------------------------------------------------------- inserts

  function InsertUser(db: Db, u: User): (r: Db)
    ensures |r.users| == |db.users| + 1 && r.users[..|db.users|] == db.users
    ensures r.users[|db.users|] == Row(NextId(db.users), u)
    ensures Ids(r.users) == Ids(db.users) + {NextId(db.users)}
    ensures r.(users := db.users) == db
  {
    AppendIds(db.users, Row(NextId(db.users), u));
    db.(users := db.users + [Row(NextId(db.users), u)])
  }

  function InsertCategory(db: Db, c: Category): (r: Db)
    ensures |r.categories| == |db.categories| + 1 && r.categories[..|db.categories|] == db.categories
    ensures r.categories[|db.categories|] == Row(NextId(db.categories), c)
    ensures Ids(r.categories) == Ids(db.categories) + {NextId(db.categories)}
    ensures r.(categories := db.categories) == db
  {
    AppendIds(db.categories, Row(NextId(db.categories), c));
    db.(categories := db.categories + [Row(NextId(db.categories), c)])
  }

  function InsertTag(db: Db, t: Tag): (r: Db)
    ensures |r.tags| == |db.tags| + 1 && r.tags[..|db.tags|] == db.tags
    ensures r.tags[|db.tags|] == Row(NextId(db.tags), t)
    ensures Ids(r.tags) == Ids(db.tags) + {NextId(db.tags)}
    ensures r.(tags := db.tags) == db
  {
    AppendIds(db.tags, Row(NextId(db.tags), t));
    db.(tags := db.tags + [Row(NextId(db.tags), t)])
  }

  /** A new expense together with the association rows for its tags. */
  function InsertExpense(db: Db, e: Expense, tags: set<Id>): (r: Db)
    ensures |r.expenses| == |db.expenses| + 1 && r.expenses[..|db.expenses|] == db.expenses
    ensures r.expenses[|db.expenses|] == Row(NextId(db.expenses), e)
    ensures Ids(r.expenses) == Ids(db.expenses) + {NextId(db.expenses)}
    ensures forall p: (Id, Id) :: p in r.links <==> p in db.links || (p.0 == NextId(db.expenses) && p.1 in tags)
    ensures r.(expenses := db.expenses, links := db.links) == db
  {
    var id := NextId(db.expenses);
    AppendIds(db.expenses, Row(id, e));
    db.(expenses := db.expenses + [Row(id, e)], links := db.links + LinksFor(id, tags))
  }

  function InsertBudget(db: Db, b: Budget): (r: Db)
    ensures |r.budgets| == |db.budgets| + 1 && r.budgets[..|db.budgets|] == db.budgets
    ensures r.budgets[|db.budgets|] == Row(NextId(db.budgets), b)
    ensures Ids(r.budgets) == Ids(db.budgets) + {NextId(db.budgets)}
    ensures r.(budgets := db.budgets) == db
  {
    AppendIds(db.budgets, Row(NextId(db.budgets), b));
    db.(budgets := db.budgets + [Row(NextId(db.budgets), b)])
  }

  /** Once both uniqueness pre-checks pass, the insert is rejected only for a column bound. */
  lemma InsertUserConsistent(db: Db, u: User)
    requires Consistent(db)
    requires !Taken(db.users, UsernameOf, u.username) && !Taken(db.users, EmailOf, u.email)
    ensures Consistent(InsertUser(db, u)) <==> UserFits(u)
  {
    var r := Row(NextId(db.users), u);
    AppendUnique(db.users, UsernameOf, r);
    AppendUnique(db.users, EmailOf, r);
    AppendIds(db.users, r);
    AppendKeyed(db.users, u);
    assert InsertUser(db, u).users[|db.users|] == r;
  }

  lemma InsertCategoryConsistent(db: Db, c: Category)
    requires Consistent(db)
    requires !Taken(db.categories, CategoryNameOf, c.name)
    ensures Consistent(InsertCategory(db, c)) <==> CategoryFits(c)
  {
    var r := Row(NextId(db.categories), c);
    AppendUnique(db.categories, CategoryNameOf, r);
    AppendIds(db.categories, r);
    AppendKeyed(db.categories, c);
    assert InsertCategory(db, c).categories[|db.categories|] == r;
  }

  lemma InsertTagConsistent(db: Db, t: Tag)
    requires Consistent(db)
    requires !Taken(db.tags, TagNameOf, t.name)
    ensures Consistent(InsertTag(db, t)) <==> TagFits(t)
  {
    var r := Row(NextId(db.tags), t);
    AppendUnique(db.tags, TagNameOf, r);
    AppendIds(db.tags, r);
    AppendKeyed(db.tags, t);
    assert InsertTag(db, t).tags[|db.tags|] == r;
  }

  /** With its owner and category resolved and its tags existing, a new expense is
      rejected only for a column bound; it carries exactly the requested tags. */
  lemma InsertExpenseConsistent(db: Db, e: Expense, tags: set<Id>)
    requires Consistent(db)
    requires tags <= Ids(db.tags)
    ensures Consistent(InsertExpense(db, e, tags)) <==> ExpenseFits(e) && ExpenseRefsOk(e, Ids(db.users), Ids(db.categories))
    ensures TagsOf(InsertExpense(db, e, tags).links, NextId(db.expenses)) == tags
  {
    var id := NextId(db.expenses);
    var r := Row(id, e);
    var db' := InsertExpense(db, e, tags);
    AppendIds(db.expenses, r);
    AppendKeyed(db.expenses, e);
    assert db'.expenses[|db.expenses|] == r;
    assert forall p :: p in db.links ==> p.0 != id;
    assert TagsOf(db'.links, id) == TagsOf(LinksFor(id, tags), id);
  }

  lemma InsertBudgetConsistent(db: Db, b: Budget)
    requires Consistent(db)
    ensures Consistent(InsertBudget(db, b)) <==> BudgetFits(b) && BudgetRefsOk(b, Ids(db.users), Ids(db.categories))
  {
    var r := Row(NextId(db.budgets), b);
    AppendIds(db.budgets, r);
    AppendKeyed(db.budgets, b);
    assert InsertBudget(db, b).budgets[|db.budgets|] == r;
  }

  // ---------------------------------------------------------------- updates

  function ReplaceUser(db: Db, id: Id, u: User): (r: Db)
    ensures |r.users| == |db.users| && Ids(r.users) == Ids(db.users)
    ensures forall i :: 0 <= i < |db.users| ==>
      r.users[i].id == db.users[i].id && r.users[i].data == if db.users[i].id == id then u else db.users[i].data
    ensures r.(users := db.users) == db
  {
    db.(users := Replace(db.users, id, u))
  }

  function ReplaceCategory(db: Db, id: Id, c: Category): (r: Db)
    ensures |r.categories| == |db.categories| && Ids(r.categories) == Ids(db.categories)
    ensures forall i :: 0 <= i < |db.categories| ==>
      r.categories[i].id == db.categories[i].id && r.categories[i].data == if db.categories[i].id == id then c else db.categories[i].data
    ensures r.(categories := db.categories) == db
  {
    db.(categories := Replace(db.categories, id, c))
  }

  function ReplaceTag(db: Db, id: Id, t: Tag): (r: Db)
    ensures |r.tags| == |db.tags| && Ids(r.tags) == Ids(db.tags)
    ensures forall i :: 0 <= i < |db.tags| ==>
      r.tags[i].id == db.tags[i].id && r.tags[i].data == if db.tags[i].id == id then t else db.tags[i].data
    ensures r.(tags := db.tags) == db
  {
    db.(tags := Replace(db.tags, id, t))
  }

  /** The expense row replaced; when a tag set is given, it becomes the expense's tags. */
  function ReplaceExpense(db: Db, id: Id, e: Expense, tags: Option<set<Id>>): (r: Db)
    ensures tags.Some? ==> TagsOf(r.links, id) == tags.value
    ensures tags.None? ==> r.links == db.links
    ensures forall p: (Id, Id) :: p.0 != id ==> (p in r.links <==> p in db.links)
    ensures r.expenses == Replace(db.expenses, id, e)
    ensures r.(expenses := db.expenses, links := db.links) == db
  {
    var links := if tags.Some? then (set p | p in db.links && p.0 != id) + LinksFor(id, tags.value) else db.links;
    var r := db.(expenses := Replace(db.expenses, id, e), links := links);
    assert tags.Some? ==> TagsOf(r.links, id) == TagsOf(LinksFor(id, tags.value), id);
    r
  }

  function ReplaceBudget(db: Db, id: Id, b: Budget): (r: Db)
    ensures |r.budgets| == |db.budgets| && Ids(r.budgets) == Ids(db.budgets)
    ensures forall i :: 0 <= i < |db.budgets| ==>
      r.budgets[i].id == db.budgets[i].id && r.budgets[i].data == if db.budgets[i].id == id then b else db.budgets[i].data
    ensures r.(budgets := db.budgets) == db
  {
    db.(budgets := Replace(db.budgets, id, b))
  }

  /** An update commits exactly when the new row fits its columns and no other row
      holds its username or its email. */
  lemma ReplaceUserConsistent(db: Db, id: Id, u: User)
    requires Consistent(db) && id in Ids(db.users)
    ensures Consistent(ReplaceUser(db, id, u)) <==>
      UserFits(u) && !TakenByOther(db.users, id, UsernameOf, u.username) && !TakenByOther(db.users, id, EmailOf, u.email)
  {
    ReplaceUnique(db.users, UsernameOf, id, u);
    ReplaceUnique(db.users, EmailOf, id, u);
    ReplaceFits(db.users, id, u, UserFits);
  }

  lemma ReplaceCategoryConsistent(db: Db, id: Id, c: Category)
    requires Consistent(db) && id in Ids(db.categories)
    ensures Consistent(ReplaceCategory(db, id, c)) <==>
      CategoryFits(c) && !TakenByOther(db.categories, id, CategoryNameOf, c.name)
  {
    ReplaceUnique(db.categories, CategoryNameOf, id, c);
    ReplaceFits(db.categories, id, c, CategoryFits);
  }

  lemma ReplaceTagConsistent(db: Db, id: Id, t: Tag)
    requires Consistent(db) && id in Ids(db.tags)
    ensures Consistent(ReplaceTag(db, id, t)) <==>
      TagFits(t) && !TakenByOther(db.tags, id, TagNameOf, t.name)
  {
    ReplaceUnique(db.tags, TagNameOf, id, t);
    ReplaceFits(db.tags, id, t, TagFits);
  }

  /** With existing tags, an expense update commits exactly when the new row fits its
      columns and its owner and category exist. */
  lemma ReplaceExpenseConsistent(db: Db, id: Id, e: Expense, tags: Option<set<Id>>)
    requires Consistent(db) && id in Ids(db.expenses)
    requires tags.Some? ==> tags.value <= Ids(db.tags)
    ensures Consistent(ReplaceExpense(db, id, e, tags)) <==>
      ExpenseFits(e) && ExpenseRefsOk(e, Ids(db.users), Ids(db.categories))
  {
    var db' := ReplaceExpense(db, id, e, tags);
    ReplaceFits(db.expenses, id, e, ExpenseFits);
    var k :| 0 <= k < |db.expenses| && db.expenses[k].id == id;
    assert db'.expenses[k].data == e;
  }

  lemma ReplaceBudgetConsistent(db: Db, id: Id, b: Budget)
    requires Consistent(db) && id in Ids(db.budgets)
    ensures Consistent(ReplaceBudget(db, id, b)) <==>
      BudgetFits(b) && BudgetRefsOk(b, Ids(db.users), Ids(db.categories))
  {
    var db' := ReplaceBudget(db, id, b);
    ReplaceFits(db.budgets, id, b, BudgetFits);
    var k :| 0 <= k < |db.budgets| && db.budgets[k].id == id;
    assert db'.budgets[k].data == b;
  }

  // ---------------------------------------------------------------- deletes

  /** Expenses whose category was deleted keep their row with `category_id` set to null
      (`ondelete='SET NULL'`). */
  function SetNullCategory(t: seq<Row<Expense>>, id: Id): (r: seq<Row<Expense>>)
    ensures |r| == |t|
    ensures forall i :: 0 <= i < |t| ==> r[i].id == t[i].id
    ensures forall i :: 0 <= i < |t| ==>
      r[i].data == if t[i].data.categoryId == Some(id) then t[i].data.(categoryId := None) else t[i].data
    ensures Ids(r) == Ids(t)
    ensures Keyed(t) ==> Keyed(r)
  {
    var r := seq(|t|, i requires 0 <= i < |t| =>
      if t[i].data.categoryId == Some(id) then Row(t[i].id, t[i].data.(categoryId := None)) else t[i]);
    assert forall i :: 0 <= i < |t| ==> r[i].id == t[i].id;
    r
  }

  /** Deleting a user deletes the expenses and budgets it owns (`ondelete='CASCADE'` and
      `cascade="all, delete-orphan"`) and, with those expenses, their association rows. */
  function DeleteUser(db: Db, id: Id): (r: Db)
    ensures r.users == Remove(db.users, id)
    ensures r.categories == db.categories && r.tags == db.tags
    ensures forall i :: 0 <= i < |r.expenses| ==> r.expenses[i] in db.expenses && r.expenses[i].data.userId != id
    ensures forall i :: 0 <= i < |db.expenses| && db.expenses[i].data.userId != id ==> db.expenses[i] in r.expenses
    ensures Seqs.IsSubsequence(r.expenses, db.expenses)
    ensures forall i :: 0 <= i < |r.budgets| ==> r.budgets[i] in db.budgets && r.budgets[i].data.userId != id
    ensures forall i :: 0 <= i < |db.budgets| && db.budgets[i].data.userId != id ==> db.budgets[i] in r.budgets
    ensures Seqs.IsSubsequence(r.budgets, db.budgets)
    ensures forall p :: p in r.links <==> p in db.links && p.0 in Ids(r.expenses)
  {
    var expenses := Seqs.Filter(db.expenses, (x: Row<Expense>) => x.data.userId != id);
    var budgets := Seqs.Filter(db.budgets, (x: Row<Budget>) => x.data.userId != id);
    Db(Remove(db.users, id), db.categories, db.tags, expenses, budgets,
       set p | p in db.links && p.0 in Ids(expenses))
  }

  /** Deleting a category nulls the category of its expenses and deletes its budgets.
      The budgets follow the declared `ondelete='CASCADE'` of budgets.category_id; the
      `Category.budgets` relationship declares no cascade, and under the ORM's default it
      would null their category instead, as for expenses. */
  function DeleteCategory(db: Db, id: Id): (r: Db)
    ensures r.categories == Remove(db.categories, id)
    ensures r.users == db.users && r.tags == db.tags && r.links == db.links
    ensures r.expenses == SetNullCategory(db.expenses, id)
    ensures forall i :: 0 <= i < |r.budgets| ==> r.budgets[i] in db.budgets && r.budgets[i].data.categoryId != Some(id)
    ensures forall i :: 0 <= i < |db.budgets| && db.budgets[i].data.categoryId != Some(id) ==> db.budgets[i] in r.budgets
    ensures Seqs.IsSubsequence(r.budgets, db.budgets)
  {
    Db(db.users, Remove(db.categories, id), db.tags, SetNullCategory(db.expenses, id),
       Seqs.Filter(db.budgets, (x: Row<Budget>) => x.data.categoryId != Some(id)), db.links)
  }

  /** Deleting a tag deletes the association rows that name it; expenses stay. */
  function DeleteTag(db: Db, id: Id): (r: Db)
    ensures r.tags == Remove(db.tags, id)
    ensures r.users == db.users && r.categories == db.categories && r.expenses == db.expenses && r.budgets == db.budgets
    ensures forall p :: p in r.links <==> p in db.links && p.1 != id
  {
    db.(tags := Remove(db.tags, id), links := set p | p in db.links && p.1 != id)
  }

  /** Deleting an expense deletes the association rows that name it; tags stay. */
  function DeleteExpense(db: Db, id: Id): (r: Db)
    ensures r.expenses == Remove(db.expenses, id)
    ensures r.users == db.users && r.categories == db.categories && r.tags == db.tags && r.budgets == db.budgets
    ensures forall p :: p in r.links <==> p in db.links && p.0 != id
  {
    db.(expenses := Remove(db.expenses, id), links := set p | p in db.links && p.0 != id)
  }

  function DeleteBudget(db: Db, id: Id): (r: Db)
    ensures r.budgets == Remove(db.budgets, id)
    ensures r.users == db.users && r.categories == db.categories && r.tags == db.tags
    ensures r.expenses == db.expenses && r.links == db.links
  {
    db.(budgets := Remove(db.budgets, id))
  }

  /** The cascades leave no dangling reference: every delete keeps the store consistent. */
  lemma DeleteUserConsistent(db: Db, id: Id)
    requires Consistent(db)
    ensures Consistent(DeleteUser(db, id))
  {
    var r := DeleteUser(db, id);
    assert KeysOk(r) by {
      FilterKeyed(db.expenses, (x: Row<Expense>) => x.data.userId != id);
      FilterKeyed(db.budgets, (x: Row<Budget>) => x.data.userId != id);
    }
    assert UniqueOk(r) by {
      SubsetUnique(db.users, r.users, UsernameOf);
      SubsetUnique(db.users, r.users, EmailOf);
    }
    assert ColumnsOk(r) by {
      SubsetFits(db.users, r.users, UserFits);
      SubsetFits(db.expenses, r.expenses, ExpenseFits);
      SubsetFits(db.budgets, r.budgets, BudgetFits);
    }
    DeleteUserReferences(db, id);
  }

  lemma DeleteUserReferences(db: Db, id: Id)
    requires ReferencesOk(db)
    ensures ReferencesOk(DeleteUser(db, id))
  {
    var r := DeleteUser(db, id);
    forall i | 0 <= i < |r.expenses|
      ensures ExpenseRefsOk(r.expenses[i].data, Ids(r.users), Ids(r.categories))
    {
      var a :| 0 <= a < |db.expenses| && db.expenses[a] == r.expenses[i];
    }
    forall i | 0 <= i < |r.budgets|
      ensures BudgetRefsOk(r.budgets[i].data, Ids(r.users), Ids(r.categories))
    {
      var a :| 0 <= a < |db.budgets| && db.budgets[a] == r.budgets[i];
    }
  }

  lemma DeleteCategoryConsistent(db: Db, id: Id)
    requires Consistent(db)
    ensures Consistent(DeleteCategory(db, id))
  {
    var r := DeleteCategory(db, id);
    assert KeysOk(r) by {
      FilterKeyed(db.budgets, (x: Row<Budget>) => x.data.categoryId != Some(id));
    }
    assert UniqueOk(r) by {
      SubsetUnique(db.categories, r.categories, CategoryNameOf);
    }
    assert ColumnsOk(r) by {
      SubsetFits(db.categories, r.categories, CategoryFits);
      SubsetFits(db.budgets, r.budgets, BudgetFits);
      assert forall i :: 0 <= i < |r.expenses| ==> ExpenseFits(r.expenses[i].data);
    }
    DeleteCategoryReferences(db, id);
  }

  lemma DeleteCategoryReferences(db: Db, id: Id)
    requires ReferencesOk(db)
    ensures ReferencesOk(DeleteCategory(db, id))
  {
    var r := DeleteCategory(db, id);
    forall i | 0 <= i < |r.expenses|
      ensures ExpenseRefsOk(r.expenses[i].data, Ids(r.users), Ids(r.categories))
    {
      assert ExpenseRefsOk(db.expenses[i].data, Ids(db.users), Ids(db.categories));
    }
    forall i | 0 <= i < |r.budgets|
      ensures BudgetRefsOk(r.budgets[i].data, Ids(r.users), Ids(r.categories))
    {
      var a :| 0 <= a < |db.budgets| && db.budgets[a] == r.budgets[i];
    }
    assert Ids(r.expenses) == Ids(db.expenses);
  }

  lemma DeleteTagConsistent(db: Db, id: Id)
    requires Consistent(db)
    ensures Consistent(DeleteTag(db, id))
  {
    var r := DeleteTag(db, id);
    SubsetUnique(db.tags, r.tags, TagNameOf);
    SubsetFits(db.tags, r.tags, TagFits);
  }

  lemma DeleteExpenseConsistent(db: Db, id: Id)
    requires Consistent(db)
    ensures Consistent(DeleteExpense(db, id))
  {
    var r := DeleteExpense(db, id);
    SubsetFits(db.expenses, r.expenses, ExpenseFits);
    forall i | 0 <= i < |r.expenses|
      ensures ExpenseRefsOk(r.expenses[i].data, Ids(r.users), Ids(r.categories))
    {
      var a :| 0 <= a < |db.expenses| && db.expenses[a] == r.expenses[i];
    }
  }

  lemma DeleteBudgetConsistent(db: Db, id: Id)
    requires Consistent(db)
    ensures Consistent(DeleteBudget(db, id))
  {
    var r := DeleteBudget(db, id);
    SubsetFits(db.budgets, r.budgets, BudgetFits);
    forall i | 0 <= i < |r.budgets|
      ensures BudgetRefsOk(r.budgets[i].data, Ids(r.users), Ids(r.categories))
    {
      var a :| 0 <= a < |db.budgets| && db.budgets[a] == r.budgets[i];
    }
  }
}
