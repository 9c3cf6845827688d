/** The write handlers of core/main.py as methods of one store. Each handler runs its
    checks in source order, merges or builds the row, and commits; the commit succeeds
    only when the new state keeps every declared constraint of core/models.py, and a
    failed request leaves the store as it was. */
module Handlers {
  import opened Wrappers
  import opened Rows
  import opened Models
  import opened Errors
  import opened Payloads
  import Writes
  import Merge
  import Seqs

  /** The tags `db.query(Tag).filter(Tag.id.in_(tag_ids)).all()` returns. */
  function MatchedTags(known: set<Id>, tagIds: seq<Id>): (r: set<Id>)
    ensures r <= known && r <= Seqs.Elems(tagIds)
    ensures forall t :: t in known && t in tagIds ==> t in r
    ensures |r| <= |tagIds|
  {
    var r := set t | t in known && t in tagIds;
    Seqs.SubsetSize(r, Seqs.Elems(tagIds));
    Seqs.ElemsCard(tagIds);
    r
  }

  /** Every listed id names a tag, and no id is listed twice. */
  predicate AllTagsFound(known: set<Id>, tagIds: seq<Id>) {
    Seqs.Distinct(tagIds) && forall i :: 0 <= i < |tagIds| ==> tagIds[i] in known
  }

  /** The handlers' check `len(tags) == len(tag_ids)` passes exactly when every listed tag
      exists and none is listed twice; the expense then gets exactly the listed tags. */
  lemma TagCountCheck(known: set<Id>, tagIds: seq<Id>)
    ensures |MatchedTags(known, tagIds)| == |tagIds| <==> AllTagsFound(known, tagIds)
    ensures AllTagsFound(known, tagIds) ==> MatchedTags(known, tagIds) == Seqs.Elems(tagIds)
  {
    var m := MatchedTags(known, tagIds);
    var e := Seqs.Elems(tagIds);
    assert m <= e;
    Seqs.ElemsCard(tagIds);
    Seqs.SubsetSize(m, e);
    if forall i :: 0 <= i < |tagIds| ==> tagIds[i] in known {
      assert m == e;
    }
    if |m| == |tagIds| {
      Seqs.SubsetOfSameSize(m, e);
      forall i | 0 <= i < |tagIds| ensures tagIds[i] in known {
        assert tagIds[i] in e;
      }
    }
  }

  /** Listing a tag twice fails the count check even though the tag exists. */
  lemma RepeatedTagRejected(known: set<Id>, t: Id)
    requires t in known
    ensures |MatchedTags(known, [t, t])| != |[t, t]|
  {
    TagCountCheck(known, [t, t]);
    assert !Seqs.Distinct([t, t]) by {
      assert [t, t][0] == [t, t][1];
    }
  }

  /** The tag set an update assigns: none when the list is absent. */
  function Retag(tagIds: Option<seq<Id>>): (r: Option<set<Id>>)
    ensures r.Some? <==> tagIds.Some?
    ensures r.Some? ==> forall t :: t in r.value <==> t in tagIds.value
    ensures r.Some? && Seqs.Distinct(tagIds.value) ==> |r.value| == |tagIds.value|
  {
    if tagIds.Some? then
      Seqs.ElemsCard(tagIds.value);
      Some(Seqs.Elems(tagIds.value))
    else None
  }

  class Store {
    var users: seq<Row<User>>
    var categories: seq<Row<Category>>
    var tags: seq<Row<Tag>>
    var expenses: seq<Row<Expense>>
    var budgets: seq<Row<Budget>>
    var links: set<(Id, Id)>

    function Snapshot(): Db
      reads this
    {
      Db(users, categories, tags, expenses, budgets, links)
    }

    /** The store keeps every declared constraint. */
    predicate Valid()
      reads this
    {
      Consistent(Snapshot())
    }

    /** `Base.metadata.create_all`: empty tables. */
    constructor ()
      ensures Valid() && Snapshot() == Empty
    {
      users, categories, tags, expenses, budgets, links := [], [], [], [], [], {};
      new;
      EmptyConsistent();
    }

    /** `db.commit()` of a state that keeps the constraints. */
    method Commit(db: Db)
      modifies this
      ensures Snapshot() == db
    {
      users, categories, tags, expenses, budgets, links := db.users, db.categories, db.tags, db.expenses, db.budgets, db.links;
    }

    // -------------------------------------------------------------- categories

    /** `create_category`: a taken name is refused before the insert. */
    method CreateCategory(c: Category) returns (r: Result<Row<Category>, Error>)
      requires Valid()
      modifies this
      ensures Valid()
      ensures r.Err? ==> Snapshot() == old(Snapshot())
      ensures Taken(old(categories), CategoryNameOf, c.name) ==> r == Err(Duplicate(CategoryName))
      ensures !Taken(old(categories), CategoryNameOf, c.name) ==>
        (r.Ok? <==> CategoryFits(c)) && (r.Err? ==> r.error == IntegrityFault)
      ensures r.Ok? ==>
        r.value == Row(NextId(old(categories)), c) && Snapshot() == Writes.InsertCategory(old(Snapshot()), c)
    {
      if Taken(categories, CategoryNameOf, c.name) {
        return Err(Duplicate(CategoryName));
      }
      var db := Writes.InsertCategory(Snapshot(), c);
      Writes.InsertCategoryConsistent(Snapshot(), c);
      if !Consistent(db) {
        return Err(IntegrityFault);
      }
      r := Ok(Row(NextId(categories), c));
      Commit(db);
    }

    /** `update_category`: the supplied fields replace the stored ones; a name another
        category holds is refused by the unique constraint at commit. */
    method UpdateCategory(id: int, p: CategoryUpdate) returns (r: Result<Row<Category>, Error>)
      requires Valid()
      modifies this
      ensures Valid()
      ensures r.Err? ==> Snapshot() == old(Snapshot())
      ensures id !in Ids(old(categories)) ==> r == Err(NotFound(CategoryEntity))
      ensures id in Ids(old(categories)) ==>
        var c := PatchCategory(Find(old(categories), id).value.data, p);
        (r.Ok? <==> CategoryFits(c) && !TakenByOther(old(categories), id as Id, CategoryNameOf, c.name))
        && (r.Err? ==> r.error == IntegrityFault)
        && (r.Ok? ==> r.value == Row(id as Id, c) && Snapshot() == Writes.ReplaceCategory(old(Snapshot()), id as Id, c))
    {
      var found := Find(categories, id);
      if found.None? {
        return Err(NotFound(CategoryEntity));
      }
      var row := found.value;
      var merged := Merge.MergeFields(SetCategoryField, row.data, CategoryUpdateData(p));
      MergeCategory(row.data, p);
      var db := Writes.ReplaceCategory(Snapshot(), row.id, merged);
      Writes.ReplaceCategoryConsistent(Snapshot(), row.id, merged);
      if !Consistent(db) {
        return Err(IntegrityFault);
      }
      r := Ok(Row(row.id, merged));
      Commit(db);
    }

    /** `delete_category`: its expenses lose their category and its budgets go with it. */
    method DeleteCategory(id: int) returns (r: Result<(), Error>)
      requires Valid()
      modifies this
      ensures Valid()
      ensures r.Ok? <==> id in Ids(old(categories))
      ensures r.Err? ==> r.error == NotFound(CategoryEntity) && Snapshot() == old(Snapshot())
      ensures r.Ok? ==> Snapshot() == Writes.DeleteCategory(old(Snapshot()), id as Id)
    {
      var found := Find(categories, id);
      if found.None? {
        return Err(NotFound(CategoryEntity));
      }
      Writes.DeleteCategoryConsistent(Snapshot(), found.value.id);
      Commit(Writes.DeleteCategory(Snapshot(), found.value.id));
      r := Ok(());
    }
    // -------------------------------------------------------------- tags

    /** `create_tag`: a taken name is refused before the insert. */
    method CreateTag(t: Tag) returns (r: Result<Row<Tag>, Error>)
      requires Valid()
      modifies this
      ensures Valid()
      ensures r.Err? ==> Snapshot() == old(Snapshot())
      ensures Taken(old(tags), TagNameOf, t.name) ==> r == Err(Duplicate(TagName))
      ensures !Taken(old(tags), TagNameOf, t.name) ==>
        (r.Ok? <==> TagFits(t)) && (r.Err? ==> r.error == IntegrityFault)
      ensures r.Ok? ==>
        r.value == Row(NextId(old(tags)), t) && Snapshot() == Writes.InsertTag(old(Snapshot()), t)
    {
      if Taken(tags, TagNameOf, t.name) {
        return Err(Duplicate(TagName));
      }
      var db := Writes.InsertTag(Snapshot(), t);
      Writes.InsertTagConsistent(Snapshot(), t);
      if !Consistent(db) {
        return Err(IntegrityFault);
      }
      r := Ok(Row(NextId(tags), t));
      Commit(db);
    }

    /** `update_tag`: as `update_category`, for tags. */
    method UpdateTag(id: int, p: TagUpdate) returns (r: Result<Row<Tag>, Error>)
      requires Valid()
      modifies this
      ensures Valid()
      ensures r.Err? ==> Snapshot() == old(Snapshot())
      ensures id !in Ids(old(tags)) ==> r == Err(NotFound(TagEntity))
      ensures id in Ids(old(tags)) ==>
        var t := PatchTag(Find(old(tags), id).value.data, p);
        (r.Ok? <==> TagFits(t) && !TakenByOther(old(tags), id as Id, TagNameOf, t.name))
        && (r.Err? ==> r.error == IntegrityFault)
        && (r.Ok? ==> r.value == Row(id as Id, t) && Snapshot() == Writes.ReplaceTag(old(Snapshot()), id as Id, t))
    {
      var found := Find(tags, id);
      if found.None? {
        return Err(NotFound(TagEntity));
      }
      var row := found.value;
      var merged := Merge.MergeFields(SetTagField, row.data, TagUpdateData(p));
      MergeTag(row.data, p);
      var db := Writes.ReplaceTag(Snapshot(), row.id, merged);
      Writes.ReplaceTagConsistent(Snapshot(), row.id, merged);
      if !Consistent(db) {
        return Err(IntegrityFault);
      }
      r := Ok(Row(row.id, merged));
      Commit(db);
    }

    /** `delete_tag`: the tag is detached from every expense. */
    method DeleteTag(id: int) returns (r: Result<(), Error>)
      requires Valid()
      modifies this
      ensures Valid()
      ensures r.Ok? <==> id in Ids(old(tags))
      ensures r.Err? ==> r.error == NotFound(TagEntity) && Snapshot() == old(Snapshot())
      ensures r.Ok? ==> Snapshot() == Writes.DeleteTag(old(Snapshot()), id as Id)
    {
      var found := Find(tags, id);
      if found.None? {
        return Err(NotFound(TagEntity));
      }
      Writes.DeleteTagConsistent(Snapshot(), found.value.id);
      Commit(Writes.DeleteTag(Snapshot(), found.value.id));
      r := Ok(());
    }

    // -------------------------------------------------------------- expenses

    /** The tags a request resolves to, or a not-found error. */
    method ResolveTags(tagIds: seq<Id>) returns (r: Result<set<Id>, Error>)
      ensures r.Ok? <==> AllTagsFound(Ids(tags), tagIds)
      ensures r.Err? ==> r.error == NotFound(TagEntity)
      ensures r.Ok? ==> r.value == Seqs.Elems(tagIds) && r.value <= Ids(tags)
    {
      var matched := MatchedTags(Ids(tags), tagIds);
      TagCountCheck(Ids(tags), tagIds);
      if |matched| != |tagIds| {
        return Err(NotFound(TagEntity));
      }
      r := Ok(matched);
    }

    /** `create_expense`: the body is validated first, then the owner, the category and
        the tags are looked up in that order. An absent or empty tag list attaches none. */
    method CreateExpense(userId: int, p: ExpenseCreate) returns (r: Result<Row<Expense>, Error>)
      requires Valid()
      modifies this
      ensures Valid()
      ensures r.Err? ==> Snapshot() == old(Snapshot())
      ensures CreateViolations(p) != [] ==> r == Err(Invalid(CreateViolations(p)))
      ensures CreateViolations(p) == [] && userId !in Ids(old(users)) ==> r == Err(NotFound(UserEntity))
      ensures CreateViolations(p) == [] && userId in Ids(old(users)) && !RefOk(p.categoryId, Ids(old(categories))) ==>
        r == Err(NotFound(CategoryEntity))
      ensures CreateViolations(p) == [] && userId in Ids(old(users)) && RefOk(p.categoryId, Ids(old(categories))) ==>
        (!AllTagsFound(Ids(old(tags)), p.tagIds.GetOr([])) ==> r == Err(NotFound(TagEntity)))
        && (AllTagsFound(Ids(old(tags)), p.tagIds.GetOr([])) ==>
              (r.Ok? <==> ExpenseFits(NewExpense(p, userId as Id))) && (r.Err? ==> r.error == IntegrityFault))
      ensures r.Ok? ==> userId in Ids(old(users))
      ensures r.Ok? ==>
        r.value == Row(NextId(old(expenses)), NewExpense(p, userId as Id))
        && Snapshot() == Writes.InsertExpense(old(Snapshot()), r.value.data, Seqs.Elems(p.tagIds.GetOr([])))
    {
      var violations := CreateViolations(p);
      if violations != [] {
        return Err(Invalid(violations));
      }
      if Find(users, userId).None? {
        return Err(NotFound(UserEntity));
      }
      if p.categoryId.Some? && Find(categories, p.categoryId.value).None? {
        return Err(NotFound(CategoryEntity));
      }
      var tagIds := p.tagIds.GetOr([]);
      var attached: set<Id> := {};
      if tagIds != [] {
        var resolved := ResolveTags(tagIds);
        if resolved.Err? {
          return Err(resolved.error);
        }
        attached := resolved.value;
      } else {
        assert AllTagsFound(Ids(tags), tagIds);
        assert attached == Seqs.Elems(tagIds);
      }
      var e := NewExpense(p, userId as Id);
      var db := Writes.InsertExpense(Snapshot(), e, attached);
      Writes.InsertExpenseConsistent(Snapshot(), e, attached);
      if !Consistent(db) {
        return Err(IntegrityFault);
      }
      r := Ok(Row(NextId(expenses), e));
      Commit(db);
    }

    /** `update_expense`: the body is validated first; description and amount are always
        assigned, the other supplied fields too; a supplied tag list (even an empty one)
        replaces the expense's tags. A category that does not exist is refused by the
        foreign key at commit. */
    method UpdateExpense(id: int, p: ExpenseUpdate) returns (r: Result<Row<Expense>, Error>)
      requires Valid()
      modifies this
      ensures Valid()
      ensures r.Err? ==> Snapshot() == old(Snapshot())
      ensures UpdateViolations(p) != [] ==> r == Err(Invalid(UpdateViolations(p)))
      ensures UpdateViolations(p) == [] && id !in Ids(old(expenses)) ==> r == Err(NotFound(ExpenseEntity))
      ensures UpdateViolations(p) == [] && id in Ids(old(expenses)) ==>
        var e := PatchExpense(Find(old(expenses), id).value.data, p);
        (!AllTagsFound(Ids(old(tags)), p.tagIds.GetOr([])) ==> r == Err(NotFound(TagEntity)))
        && (AllTagsFound(Ids(old(tags)), p.tagIds.GetOr([])) ==>
              (r.Ok? <==> ExpenseFits(e) && ExpenseRefsOk(e, Ids(old(users)), Ids(old(categories))))
              && (r.Err? ==> r.error == IntegrityFault))
        && (r.Ok? ==>
              r.value == Row(id as Id, e)
              && Snapshot() == Writes.ReplaceExpense(old(Snapshot()), id as Id, e, Retag(p.tagIds)))
    {
      var violations := UpdateViolations(p);
      if violations != [] {
        return Err(Invalid(violations));
      }
      var found := Find(expenses, id);
      if found.None? {
        return Err(NotFound(ExpenseEntity));
      }
      var row := found.value;
      var merged := Merge.MergeFields(SetExpenseField, row.data, ExpenseUpdateData(p));
      MergeExpense(row.data, p);
      var retag: Option<set<Id>> := None;
      if p.tagIds.Some? {
        var resolved := ResolveTags(p.tagIds.value);
        if resolved.Err? {
          return Err(resolved.error);
        }
        retag := Some(resolved.value);
      }
      var db := Writes.ReplaceExpense(Snapshot(), row.id, merged, retag);
      Writes.ReplaceExpenseConsistent(Snapshot(), row.id, merged, retag);
      if !Consistent(db) {
        return Err(IntegrityFault);
      }
      r := Ok(Row(row.id, merged));
      Commit(db);
    }

    /** `delete_expense`: its tag associations go with it. */
    method DeleteExpense(id: int) returns (r: Result<(), Error>)
      requires Valid()
      modifies this
      ensures Valid()
      ensures r.Ok? <==> id in Ids(old(expenses))
      ensures r.Err? ==> r.error == NotFound(ExpenseEntity) && Snapshot() == old(Snapshot())
      ensures r.Ok? ==> Snapshot() == Writes.DeleteExpense(old(Snapshot()), id as Id)
    {
      var found := Find(expenses, id);
      if found.None? {
        return Err(NotFound(ExpenseEntity));
      }
      Writes.DeleteExpenseConsistent(Snapshot(), found.value.id);
      Commit(Writes.DeleteExpense(Snapshot(), found.value.id));
      r := Ok(());
    }

    // -------------------------------------------------------------- budgets

    /** `create_budget`: the owner, then the category, are looked up first. */
    method CreateBudget(userId: int, p: BudgetCreate) returns (r: Result<Row<Budget>, Error>)
      requires Valid()
      modifies this
      ensures Valid()
      ensures r.Err? ==> Snapshot() == old(Snapshot())
      ensures userId !in Ids(old(users)) ==> r == Err(NotFound(UserEntity))
      ensures userId in Ids(old(users)) && !RefOk(p.categoryId, Ids(old(categories))) ==> r == Err(NotFound(CategoryEntity))
      ensures userId in Ids(old(users)) && RefOk(p.categoryId, Ids(old(categories))) ==>
        (r.Ok? <==> BudgetFits(NewBudget(p, userId as Id))) && (r.Err? ==> r.error == IntegrityFault)
      ensures r.Ok? ==> userId in Ids(old(users))
      ensures r.Ok? ==>
        r.value == Row(NextId(old(budgets)), NewBudget(p, userId as Id))
        && Snapshot() == Writes.InsertBudget(old(Snapshot()), r.value.data)
    {
      if Find(users, userId).None? {
        return Err(NotFound(UserEntity));
      }
      if p.categoryId.Some? && Find(categories, p.categoryId.value).None? {
        return Err(NotFound(CategoryEntity));
      }
      var b := NewBudget(p, userId as Id);
      var db := Writes.InsertBudget(Snapshot(), b);
      Writes.InsertBudgetConsistent(Snapshot(), b);
      if !Consistent(db) {
        return Err(IntegrityFault);
      }
      r := Ok(Row(NextId(budgets), b));
      Commit(db);
    }

    /** `update_budget`: unknown owner or category ids are refused at commit. */
    method UpdateBudget(id: int, p: BudgetUpdate) returns (r: Result<Row<Budget>, Error>)
      requires Valid()
      modifies this
      ensures Valid()
      ensures r.Err? ==> Snapshot() == old(Snapshot())
      ensures id !in Ids(old(budgets)) ==> r == Err(NotFound(BudgetEntity))
      ensures id in Ids(old(budgets)) ==>
        var b := PatchBudget(Find(old(budgets), id).value.data, p);
        (r.Ok? <==> BudgetFits(b) && BudgetRefsOk(b, Ids(old(users)), Ids(old(categories))))
        && (r.Err? ==> r.error == IntegrityFault)
        && (r.Ok? ==> r.value == Row(id as Id, b) && Snapshot() == Writes.ReplaceBudget(old(Snapshot()), id as Id, b))
    {
      var found := Find(budgets, id);
      if found.None? {
        return Err(NotFound(BudgetEntity));
      }
      var row := found.value;
      var merged := Merge.MergeFields(SetBudgetField, row.data, BudgetUpdateData(p));
      MergeBudget(row.data, p);
      var db := Writes.ReplaceBudget(Snapshot(), row.id, merged);
      Writes.ReplaceBudgetConsistent(Snapshot(), row.id, merged);
      if !Consistent(db) {
        return Err(IntegrityFault);
      }
      r := Ok(Row(row.id, merged));
      Commit(db);
    }

    method DeleteBudget(id: int) returns (r: Result<(), Error>)
      requires Valid()
      modifies this
      ensures Valid()
      ensures r.Ok? <==> id in Ids(old(budgets))
      ensures r.Err? ==> r.error == NotFound(BudgetEntity) && Snapshot() == old(Snapshot())
      ensures r.Ok? ==> Snapshot() == Writes.DeleteBudget(old(Snapshot()), id as Id)
    {
      var found := Find(budgets, id);
      if found.None? {
        return Err(NotFound(BudgetEntity));
      }
      Writes.DeleteBudgetConsistent(Snapshot(), found.value.id);
      Commit(Writes.DeleteBudget(Snapshot(), found.value.id));
      r := Ok(());
    }

    // -------------------------------------------------------------- users

    /** `create_user`: the username is checked first, then the email; the password is
        stored as given and the user is active. */
    method CreateUser(p: UserCreate) returns (r: Result<Row<User>, Error>)
      requires Valid()
      modifies this
      ensures Valid()
      ensures r.Err? ==> Snapshot() == old(Snapshot())
      ensures Taken(old(users), UsernameOf, p.username) ==> r == Err(Duplicate(Username))
      ensures !Taken(old(users), UsernameOf, p.username) && Taken(old(users), EmailOf, p.email) ==>
        r == Err(Duplicate(Email))
      ensures !Taken(old(users), UsernameOf, p.username) && !Taken(old(users), EmailOf, p.email) ==>
        (r.Ok? <==> UserFits(NewUser(p))) && (r.Err? ==> r.error == IntegrityFault)
      ensures r.Ok? ==>
        r.value == Row(NextId(old(users)), NewUser(p)) && Snapshot() == Writes.InsertUser(old(Snapshot()), NewUser(p))
    {
      if Taken(users, UsernameOf, p.username) {
        return Err(Duplicate(Username));
      }
      if Taken(users, EmailOf, p.email) {
        return Err(Duplicate(Email));
      }
      var u := NewUser(p);
      var db := Writes.InsertUser(Snapshot(), u);
      Writes.InsertUserConsistent(Snapshot(), u);
      if !Consistent(db) {
        return Err(IntegrityFault);
      }
      r := Ok(Row(NextId(users), u));
      Commit(db);
    }

    /** `update_user`: no pre-check; a username or email another user holds is refused
        by the unique constraints at commit. */
    method UpdateUser(id: int, p: UserUpdate) returns (r: Result<Row<User>, Error>)
      requires Valid()
      modifies this
      ensures Valid()
      ensures r.Err? ==> Snapshot() == old(Snapshot())
      ensures id !in Ids(old(users)) ==> r == Err(NotFound(UserEntity))
      ensures id in Ids(old(users)) ==>
        var u := PatchUser(Find(old(users), id).value.data, p);
        (r.Ok? <==> UserFits(u) && !TakenByOther(old(users), id as Id, UsernameOf, u.username)
                    && !TakenByOther(old(users), id as Id, EmailOf, u.email))
        && (r.Err? ==> r.error == IntegrityFault)
        && (r.Ok? ==> r.value == Row(id as Id, u) && Snapshot() == Writes.ReplaceUser(old(Snapshot()), id as Id, u))
    {
      var found := Find(users, id);
      if found.None? {
        return Err(NotFound(UserEntity));
      }
      var row := found.value;
      var merged := Merge.MergeFields(SetUserField, row.data, UserUpdateData(p));
      MergeUser(row.data, p);
      var db := Writes.ReplaceUser(Snapshot(), row.id, merged);
      Writes.ReplaceUserConsistent(Snapshot(), row.id, merged);
      if !Consistent(db) {
        return Err(IntegrityFault);
      }
      r := Ok(Row(row.id, merged));
      Commit(db);
    }

    /** `delete_user`: the user's expenses and budgets, and those expenses' tag
        associations, go with it. */
    method DeleteUser(id: int) returns (r: Result<(), Error>)
      requires Valid()
      modifies this
      ensures Valid()
      ensures r.Ok? <==> id in Ids(old(users))
      ensures r.Err? ==> r.error == NotFound(UserEntity) && Snapshot() == old(Snapshot())
      ensures r.Ok? ==> Snapshot() == Writes.DeleteUser(old(Snapshot()), id as Id)
    {
      var found := Find(users, id);
      if found.None? {
        return Err(NotFound(UserEntity));
      }
      Writes.DeleteUserConsistent(Snapshot(), found.value.id);
      Commit(Writes.DeleteUser(Snapshot(), found.value.id));
      r := Ok(());
    }
  }
}
