/** The read handlers of core/main.py: fetch by id and the filtered listings. A listing
    returns rows in store order; a search term or filter the client leaves out, or gives
    a falsy value (an empty string, the id 0), does not filter (`if q:`). */
module Queries {
  import opened Wrappers
  import opened Rows
  import opened Models
  import opened Errors
  import Text
  import Seqs

  /** The `max_length` of each search parameter. */
  const MaxCategorySearch := 50
  const MaxTagSearch := 30
  const MaxExpenseSearch := 200
  const MaxUserSearch := 50

  /** `if q:` on an optional string. */
  predicate Searching(q: Option<string>) {
    q.Some? && q.value != ""
  }

  /** `if x:` on an optional integer. */
  predicate Given(x: Option<int>) {
    x.Some? && x.value != 0
  }

  /** A query parameter over its `max_length`, which request validation rejects. */
  predicate TooLong(q: Option<string>, max: nat) {
    q.Some? && |q.value| > max
  }

  /** `if on: query = query.filter(keep)`. */
  function Narrow<T(==)>(s: seq<T>, on: bool, keep: T -> bool): (r: seq<T>)
    ensures Seqs.IsSubsequence(r, s)
    ensures forall i :: 0 <= i < |r| ==> r[i] in s && (on ==> keep(r[i]))
    ensures forall i :: 0 <= i < |s| && (on ==> keep(s[i])) ==> s[i] in r
  {
    if on then Seqs.Filter(s, keep)
    else
      assert s == Seqs.Filter(s, Everything());
      s
  }

  /** One more `filter` after earlier ones is one filter by the conjunction. */
  lemma NarrowFiltered<T>(t: seq<T>, prev: T -> bool, on: bool, keep: T -> bool, next: T -> bool)
    requires forall i :: 0 <= i < |t| ==> next(t[i]) == (prev(t[i]) && (on ==> keep(t[i])))
    ensures Narrow(Seqs.Filter(t, prev), on, keep) == Seqs.Filter(t, next)
  {
    if on {
      Seqs.FilterFilter(t, prev, keep, next);
    } else {
      Seqs.FilterAgrees(t, prev, next);
    }
  }

  /** The row with the given id, or the entity's not-found error (`get_category` and the
      other fetch handlers). */
  function Get<T>(t: seq<Row<T>>, id: int, kind: Entity): (r: Result<Row<T>, Error>)
    ensures r.Ok? <==> id in Ids(t)
    ensures r.Ok? ==> r.value.id == id && r.value in t
    ensures r.Err? ==> r.error == NotFound(kind)
  {
    match Find(t, id)
    case Some(row) => Ok(row)
    case None => Err(NotFound(kind))
  }

  // ---------------------------------------------------------------- categories

  function CategoryNamed(q: string): Row<Category> -> bool {
    (row: Row<Category>) => Text.ILike(row.data.name, q)
  }

  /** `get_categories`: a non-empty search keeps the categories whose name contains the
      term, ignoring case, and an empty result is a not-found error. */
  function ListCategories(t: seq<Row<Category>>, q: Option<string>): (r: Result<seq<Row<Category>>, Error>)
    ensures TooLong(q, MaxCategorySearch) ==> r == Err(Invalid([QueryTooLong]))
    ensures !TooLong(q, MaxCategorySearch) && !Searching(q) ==> r == Ok(t)
    ensures !TooLong(q, MaxCategorySearch) && Searching(q) ==>
      (r.Err? <==> forall i :: 0 <= i < |t| ==> !Text.ILike(t[i].data.name, q.value))
    ensures r.Err? && !TooLong(q, MaxCategorySearch) ==> r.error == NotFound(CategoryEntity)
    ensures r.Ok? ==> Seqs.IsSubsequence(r.value, t)
    ensures r.Ok? && Searching(q) ==> r.value == Seqs.Filter(t, CategoryNamed(q.value))
    ensures r.Ok? && Searching(q) ==>
      (forall i :: 0 <= i < |r.value| ==> r.value[i] in t && Text.ILike(r.value[i].data.name, q.value))
      && (forall i :: 0 <= i < |t| && Text.ILike(t[i].data.name, q.value) ==> t[i] in r.value)
  {
    if TooLong(q, MaxCategorySearch) then Err(Invalid([QueryTooLong]))
    else
      var found := Narrow(t, Searching(q), CategoryNamed(q.GetOr("")));
      if Searching(q) && found == [] then Err(NotFound(CategoryEntity)) else Ok(found)
  }

  /** The category search does not depend on the case of the term. */
  lemma CategorySearchIgnoresCase(t: seq<Row<Category>>, q: string)
    ensures ListCategories(t, Some(q)) == ListCategories(t, Some(Text.Lower(q)))
  {
    forall i | 0 <= i < |t|
      ensures CategoryNamed(q)(t[i]) == CategoryNamed(Text.Lower(q))(t[i])
    {
      Text.ILikeIgnoresCase(t[i].data.name, q);
    }
    Seqs.FilterAgrees(t, CategoryNamed(q), CategoryNamed(Text.Lower(q)));
  }

  // ---------------------------------------------------------------- tags

  function TagNamed(q: string): Row<Tag> -> bool {
    (row: Row<Tag>) => Text.ILike(row.data.name, q)
  }

  /** `get_tags`: like the category search, but an empty result is an empty list. */
  function ListTags(t: seq<Row<Tag>>, q: Option<string>): (r: Result<seq<Row<Tag>>, Error>)
    ensures r.Err? <==> TooLong(q, MaxTagSearch)
    ensures r.Err? ==> r.error == Invalid([QueryTooLong])
    ensures r.Ok? && !Searching(q) ==> r.value == t
    ensures r.Ok? ==> Seqs.IsSubsequence(r.value, t)
    ensures r.Ok? && Searching(q) ==> r.value == Seqs.Filter(t, TagNamed(q.value))
    ensures r.Ok? && Searching(q) ==>
      (forall i :: 0 <= i < |r.value| ==> r.value[i] in t && Text.ILike(r.value[i].data.name, q.value))
      && (forall i :: 0 <= i < |t| && Text.ILike(t[i].data.name, q.value) ==> t[i] in r.value)
  {
    if TooLong(q, MaxTagSearch) then Err(Invalid([QueryTooLong]))
    else Ok(Narrow(t, Searching(q), TagNamed(q.GetOr(""))))
  }

  // ---------------------------------------------------------------- users

  function UserNamed(q: string): Row<User> -> bool {
    (row: Row<User>) => Text.ILike(row.data.username, q)
  }

  /** `get_users`: search by username; an empty result is an empty list. */
  function ListUsers(t: seq<Row<User>>, q: Option<string>): (r: Result<seq<Row<User>>, Error>)
    ensures r.Err? <==> TooLong(q, MaxUserSearch)
    ensures r.Err? ==> r.error == Invalid([QueryTooLong])
    ensures r.Ok? && !Searching(q) ==> r.value == t
    ensures r.Ok? ==> Seqs.IsSubsequence(r.value, t)
    ensures r.Ok? && Searching(q) ==> r.value == Seqs.Filter(t, UserNamed(q.value))
    ensures r.Ok? && Searching(q) ==>
      (forall i :: 0 <= i < |r.value| ==> r.value[i] in t && Text.ILike(r.value[i].data.username, q.value))
      && (forall i :: 0 <= i < |t| && Text.ILike(t[i].data.username, q.value) ==> t[i] in r.value)
  {
    if TooLong(q, MaxUserSearch) then Err(Invalid([QueryTooLong]))
    else Ok(Narrow(t, Searching(q), UserNamed(q.GetOr(""))))
  }

  // ---------------------------------------------------------------- expenses

  /** The query parameters of `get_expenses` (`search`, `category_id`, `user_id`,
      `start_date`, `end_date`). */
  datatype ExpenseQuery = ExpenseQuery(
    search: Option<string>, categoryId: Option<int>, userId: Option<int>,
    startDate: Option<Date>, endDate: Option<Date>)

  /** Every filter the query switches on holds of the expense. An expense without a
      category never matches a category filter (SQL `NULL = x` is not true). */
  predicate ExpenseMatches(e: Expense, f: ExpenseQuery) {
    SearchOk(e, f) && CategoryOk(e, f) && UserOk(e, f) && FromOk(e, f) && UntilOk(e, f)
  }

  predicate SearchOk(e: Expense, f: ExpenseQuery) {
    Searching(f.search) ==> Text.ILike(e.description, f.search.value)
  }

  predicate CategoryOk(e: Expense, f: ExpenseQuery) {
    Given(f.categoryId) ==> e.categoryId.Some? && e.categoryId.value == f.categoryId.value
  }

  predicate UserOk(e: Expense, f: ExpenseQuery) {
    Given(f.userId) ==> e.userId == f.userId.value
  }

  predicate FromOk(e: Expense, f: ExpenseQuery) {
    f.startDate.Some? ==> f.startDate.value <= e.expenseDate
  }

  predicate UntilOk(e: Expense, f: ExpenseQuery) {
    f.endDate.Some? ==> e.expenseDate <= f.endDate.value
  }

  function ExpenseMatching(f: ExpenseQuery): Row<Expense> -> bool {
    (row: Row<Expense>) => ExpenseMatches(row.data, f)
  }

  // The five `filter` calls of `get_expenses`, each applied only when its parameter is set.

  function DescriptionFilter(q: string): Row<Expense> -> bool {
    (row: Row<Expense>) => Text.ILike(row.data.description, q)
  }

  function CategoryFilter(id: int): Row<Expense> -> bool {
    (row: Row<Expense>) => row.data.categoryId.Some? && row.data.categoryId.value == id
  }

  function UserFilter(id: int): Row<Expense> -> bool {
    (row: Row<Expense>) => row.data.userId == id
  }

  function FromFilter(d: Date): Row<Expense> -> bool {
    (row: Row<Expense>) => d <= row.data.expenseDate
  }

  function UntilFilter(d: Date): Row<Expense> -> bool {
    (row: Row<Expense>) => row.data.expenseDate <= d
  }

  // The conjunction of the filters applied so far.

  function AfterSearch(f: ExpenseQuery): Row<Expense> -> bool {
    (row: Row<Expense>) => SearchOk(row.data, f)
  }

  function AfterCategory(f: ExpenseQuery): Row<Expense> -> bool {
    (row: Row<Expense>) => SearchOk(row.data, f) && CategoryOk(row.data, f)
  }

  function AfterUser(f: ExpenseQuery): Row<Expense> -> bool {
    (row: Row<Expense>) => SearchOk(row.data, f) && CategoryOk(row.data, f) && UserOk(row.data, f)
  }

  function AfterFrom(f: ExpenseQuery): Row<Expense> -> bool {
    (row: Row<Expense>) => SearchOk(row.data, f) && CategoryOk(row.data, f) && UserOk(row.data, f) && FromOk(row.data, f)
  }

  function Everything<T>(): T -> bool {
    (x: T) => true
  }

  /** The filter chain of `get_expenses`, in source order, keeps exactly the matching
      expenses in store order. */
  function ExpenseFilters(t: seq<Row<Expense>>, f: ExpenseQuery): (r: seq<Row<Expense>>)
    ensures r == Seqs.Filter(t, ExpenseMatching(f))
  {
    var s1 := Narrow(t, Searching(f.search), DescriptionFilter(f.search.GetOr("")));
    var s2 := Narrow(s1, Given(f.categoryId), CategoryFilter(f.categoryId.GetOr(0)));
    var s3 := Narrow(s2, Given(f.userId), UserFilter(f.userId.GetOr(0)));
    var s4 := Narrow(s3, f.startDate.Some?, FromFilter(f.startDate.GetOr(0)));
    var s5 := Narrow(s4, f.endDate.Some?, UntilFilter(f.endDate.GetOr(0)));
    ExpenseChain(t, f);
    s5
  }

  lemma ExpenseChain(t: seq<Row<Expense>>, f: ExpenseQuery)
    ensures Narrow(Narrow(Narrow(Narrow(Narrow(t,
              Searching(f.search), DescriptionFilter(f.search.GetOr(""))),
              Given(f.categoryId), CategoryFilter(f.categoryId.GetOr(0))),
              Given(f.userId), UserFilter(f.userId.GetOr(0))),
              f.startDate.Some?, FromFilter(f.startDate.GetOr(0))),
              f.endDate.Some?, UntilFilter(f.endDate.GetOr(0)))
            == Seqs.Filter(t, ExpenseMatching(f))
  {
    assert t == Seqs.Filter(t, Everything());
    NarrowFiltered(t, Everything(), Searching(f.search), DescriptionFilter(f.search.GetOr("")), AfterSearch(f));
    NarrowFiltered(t, AfterSearch(f), Given(f.categoryId), CategoryFilter(f.categoryId.GetOr(0)), AfterCategory(f));
    NarrowFiltered(t, AfterCategory(f), Given(f.userId), UserFilter(f.userId.GetOr(0)), AfterUser(f));
    NarrowFiltered(t, AfterUser(f), f.startDate.Some?, FromFilter(f.startDate.GetOr(0)), AfterFrom(f));
    NarrowFiltered(t, AfterFrom(f), f.endDate.Some?, UntilFilter(f.endDate.GetOr(0)), ExpenseMatching(f));
  }

  /** `get_expenses`: the matching expenses; a non-empty search with no match is a
      not-found error, whatever the other filters. */
  function ListExpenses(t: seq<Row<Expense>>, f: ExpenseQuery): (r: Result<seq<Row<Expense>>, Error>)
    ensures TooLong(f.search, MaxExpenseSearch) ==> r == Err(Invalid([QueryTooLong]))
    ensures !TooLong(f.search, MaxExpenseSearch) ==>
      (r.Err? <==> Searching(f.search) && forall i :: 0 <= i < |t| ==> !ExpenseMatches(t[i].data, f))
    ensures r.Err? && !TooLong(f.search, MaxExpenseSearch) ==> r.error == NotFound(ExpenseEntity)
    ensures r.Ok? ==> Seqs.IsSubsequence(r.value, t)
    ensures r.Ok? ==> forall i :: 0 <= i < |r.value| ==> r.value[i] in t && ExpenseMatches(r.value[i].data, f)
    ensures r.Ok? ==> forall i :: 0 <= i < |t| && ExpenseMatches(t[i].data, f) ==> t[i] in r.value
  {
    if TooLong(f.search, MaxExpenseSearch) then Err(Invalid([QueryTooLong]))
    else
      var found := ExpenseFilters(t, f);
      if Searching(f.search) && found == [] then Err(NotFound(ExpenseEntity)) else Ok(found)
  }

  /** With no parameter set every expense is listed. */
  lemma UnfilteredListsAll(t: seq<Row<Expense>>)
    ensures ListExpenses(t, ExpenseQuery(None, None, None, None, None)) == Ok(t)
  {
  }

  /** Setting one more filter can only drop expenses from the listing. */
  lemma UserFilterNarrows(t: seq<Row<Expense>>, f: ExpenseQuery, user: int)
    requires !Searching(f.search) && f.userId.None?
    ensures ListExpenses(t, f.(userId := Some(user))).Ok?
    ensures forall i :: 0 <= i < |ListExpenses(t, f.(userId := Some(user))).value| ==>
      ListExpenses(t, f.(userId := Some(user))).value[i] in ListExpenses(t, f).value
  {
  }

  // ---------------------------------------------------------------- budgets

  /** The query parameters of `get_budgets` (`user_id`, `category_id`, `period`). */
  datatype BudgetQuery = BudgetQuery(userId: Option<int>, categoryId: Option<int>, period: Option<string>)

  /** The period filter compares the stored period with the lower-cased term. */
  predicate BudgetMatches(b: Budget, f: BudgetQuery) {
    (Given(f.userId) ==> b.userId == f.userId.value)
    && (Given(f.categoryId) ==> b.categoryId.Some? && b.categoryId.value == f.categoryId.value)
    && (Searching(f.period) ==> b.period == Text.Lower(f.period.value))
  }

  function BudgetMatching(f: BudgetQuery): Row<Budget> -> bool {
    (row: Row<Budget>) => BudgetMatches(row.data, f)
  }

  /** `get_budgets`: the filter chain in source order; never an error. */
  function ListBudgets(t: seq<Row<Budget>>, f: BudgetQuery): (r: seq<Row<Budget>>)
    ensures r == Seqs.Filter(t, BudgetMatching(f))
    ensures Seqs.IsSubsequence(r, t)
    ensures forall i :: 0 <= i < |r| ==> r[i] in t && BudgetMatches(r[i].data, f)
    ensures forall i :: 0 <= i < |t| && BudgetMatches(t[i].data, f) ==> t[i] in r
  {
    var user := f.userId.GetOr(0);
    var cat := f.categoryId.GetOr(0);
    var period := Text.Lower(f.period.GetOr(""));
    var k1 := (row: Row<Budget>) => row.data.userId == user;
    var k2 := (row: Row<Budget>) => row.data.categoryId.Some? && row.data.categoryId.value == cat;
    var k3 := (row: Row<Budget>) => row.data.period == period;
    var c0 := (row: Row<Budget>) => true;
    var c1 := (row: Row<Budget>) => Given(f.userId) ==> k1(row);
    var c2 := (row: Row<Budget>) => c1(row) && (Given(f.categoryId) ==> k2(row));
    var s1 := Narrow(t, Given(f.userId), k1);
    var s2 := Narrow(s1, Given(f.categoryId), k2);
    var s3 := Narrow(s2, Searching(f.period), k3);
    assert t == Seqs.Filter(t, c0);
    NarrowFiltered(t, c0, Given(f.userId), k1, c1);
    NarrowFiltered(t, c1, Given(f.categoryId), k2, c2);
    NarrowFiltered(t, c2, Searching(f.period), k3, BudgetMatching(f));
    s3
  }

  /** The period filter ignores the case of the term. */
  lemma PeriodFilterIgnoresCase(t: seq<Row<Budget>>, f: BudgetQuery, p: string)
    ensures ListBudgets(t, f.(period := Some(p))) == ListBudgets(t, f.(period := Some(Text.Lower(p))))
  {
    Text.LowerIdempotent(p);
    Seqs.FilterAgrees(t, BudgetMatching(f.(period := Some(p))), BudgetMatching(f.(period := Some(Text.Lower(p)))));
  }

  /** The filter does not lower-case the stored period, so a budget stored with an upper
      case letter in its period is never listed once a period filter is on. */
  lemma UpperCasePeriodNeverListed(t: seq<Row<Budget>>, f: BudgetQuery, i: int, k: int)
    requires Searching(f.period) && 0 <= i < |t|
    requires 0 <= k < |t[i].data.period| && 'A' <= t[i].data.period[k] <= 'Z'
    ensures t[i] !in ListBudgets(t, f)
  {
  }
}
