/** The five tables, their column constraints and the expense-tag association
    (core/models.py). Server timestamps (`created_at`, `updated_at`) are not modelled. */
module Models {
  import opened Wrappers
  import opened Rows

  /** A calendar date, as its ordinal day number; only its order matters here. */
  type Date = int

  /** A `Numeric(12, 2)` amount in hundredths. */
  type Cents = int

  /** Twelve decimal digits, two of them after the point: 9999999999.99. */
  const MaxCents := 999_999_999_999

  predicate FitsNumeric12x2(a: Cents) {
    -MaxCents <= a <= MaxCents
  }

  /** A nullable `String(n)` column: null, or at most `n` characters. */
  predicate FitsOptional(s: Option<string>, n: nat) {
    s.Some? ==> |s.value| <= n
  }

  datatype User = User(username: string, email: string, hashedPassword: string, isActive: bool)

  datatype Category = Category(name: string, description: Option<string>, icon: Option<string>, color: Option<string>)

  datatype Tag = Tag(name: string, color: Option<string>)

  datatype Expense = Expense(
    userId: Id,                 // NOT NULL, ondelete CASCADE
    categoryId: Option<Id>,     // nullable, ondelete SET NULL
    description: string,
    amount: Cents,
    expenseDate: Date,
    receiptImage: Option<string>)

  datatype Budget = Budget(
    userId: Id,                 // NOT NULL, ondelete CASCADE
    categoryId: Option<Id>,     // nullable, ondelete CASCADE
    amount: Cents,
    period: string,
    startDate: Date)

  predicate UserFits(u: User) {
    |u.username| <= 50 && |u.email| <= 100 && |u.hashedPassword| <= 255
  }

  predicate CategoryFits(c: Category) {
    |c.name| <= 50 && FitsOptional(c.description, 200) && FitsOptional(c.icon, 50) && FitsOptional(c.color, 20)
  }

  predicate TagFits(t: Tag) {
    |t.name| <= 30 && FitsOptional(t.color, 20)
  }

  predicate ExpenseFits(e: Expense) {
    |e.description| <= 200 && FitsNumeric12x2(e.amount) && FitsOptional(e.receiptImage, 255)
  }

  predicate BudgetFits(b: Budget) {
    FitsNumeric12x2(b.amount) && |b.period| <= 20
  }

  // The unique columns.
  function UsernameOf(u: User): string { u.username }
  function EmailOf(u: User): string { u.email }
  function CategoryNameOf(c: Category): string { c.name }
  function TagNameOf(t: Tag): string { t.name }

  /** The whole store: five tables and the `expense_tags` association, whose composite
      primary key (expense_id, tag_id) makes it a set of pairs. */
  datatype Db = Db(
    users: seq<Row<User>>,
    categories: seq<Row<Category>>,
    tags: seq<Row<Tag>>,
    expenses: seq<Row<Expense>>,
    budgets: seq<Row<Budget>>,
    links: set<(Id, Id)>)

  predicate KeysOk(db: Db) {
    Keyed(db.users) && Keyed(db.categories) && Keyed(db.tags) && Keyed(db.expenses) && Keyed(db.budgets)
  }

  predicate UniqueOk(db: Db) {
    && UniqueBy(db.users, UsernameOf)
    && UniqueBy(db.users, EmailOf)
    && UniqueBy(db.categories, CategoryNameOf)
    && UniqueBy(db.tags, TagNameOf)
  }

  predicate ColumnsOk(db: Db) {
    && AllFit(db.users, UserFits)
    && AllFit(db.categories, CategoryFits)
    && AllFit(db.tags, TagFits)
    && AllFit(db.expenses, ExpenseFits)
    && AllFit(db.budgets, BudgetFits)
  }

  /** A nullable foreign key: null, or an existing id. */
  predicate RefOk(r: Option<Id>, ids: set<Id>) {
    r.Some? ==> r.value in ids
  }

  predicate ExpenseRefsOk(e: Expense, users: set<Id>, categories: set<Id>) {
    e.userId in users && RefOk(e.categoryId, categories)
  }

  predicate BudgetRefsOk(b: Budget, users: set<Id>, categories: set<Id>) {
    b.userId in users && RefOk(b.categoryId, categories)
  }

  /** Referential integrity: every foreign key names an existing row. */
  predicate ReferencesOk(db: Db) {
    && (forall i :: 0 <= i < |db.expenses| ==> ExpenseRefsOk(db.expenses[i].data, Ids(db.users), Ids(db.categories)))
    && (forall i :: 0 <= i < |db.budgets| ==> BudgetRefsOk(db.budgets[i].data, Ids(db.users), Ids(db.categories)))
    && (forall p | p in db.links :: p.0 in Ids(db.expenses) && p.1 in Ids(db.tags))
  }

  /** Every constraint the schema declares; a commit that breaks one is rejected. */
  predicate Consistent(db: Db) {
    KeysOk(db) && UniqueOk(db) && ColumnsOk(db) && ReferencesOk(db)
  }

  const Empty := Db([], [], [], [], [], {})

  lemma EmptyConsistent()
    ensures Consistent(Empty)
  {
  }

  /** The tags attached to expense `e`. */
  function TagsOf(links: set<(Id, Id)>, e: Id): set<Id> {
    set p | p in links && p.0 == e :: p.1
  }

  /** The association rows that attach `tags` to expense `e`. */
  function LinksFor(e: Id, tags: set<Id>): (r: set<(Id, Id)>)
    ensures TagsOf(r, e) == tags
    ensures forall p :: p in r ==> p.0 == e && p.1 in tags
  {
    var r := set t | t in tags :: (e, t);
    assert forall t :: t in tags ==> (e, t) in r;
    r
  }
}
