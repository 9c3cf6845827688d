/** Request payloads of the handlers in core/main.py. core/schemas.py declares only the
    description and amount of an expense body; the handlers also read `category_id` and
    `tag_ids` from it and build the row from it, so the expense payloads here add the
    remaining expense columns and the tag list. The other payloads carry the columns of
    core/models.py. An update
    payload holds `Some(v)` for a field the client supplied and `None` for one it left
    unset; on a nullable column `Some(None)` sets it to null. Each update payload gives
    the list of supplied fields (`model_dump(exclude_unset=True)`), a `setattr` per field,
    and the field-by-field meaning of the merge. */
module Payloads {
  import opened Wrappers
  import opened Rows
  import opened Models
  import Merge
  import Schemas
  import Errors

  // ---------------------------------------------------------------- users

  datatype UserCreate = UserCreate(username: string, email: string, password: string)

  /** The password is stored as given, and a new user is active. */
  function NewUser(p: UserCreate): (r: User)
    ensures r.username == p.username && r.email == p.email
    ensures r.hashedPassword == p.password
    ensures r.isActive
  {
    User(p.username, p.email, p.password, true)
  }

  datatype UserUpdate = UserUpdate(username: Option<string>, email: Option<string>, hashedPassword: Option<string>, isActive: Option<bool>)

  datatype UserField = SetUsername(string) | SetEmail(string) | SetHashedPassword(string) | SetIsActive(bool)

  function SetUserField(u: User, f: UserField): User {
    match f
    case SetUsername(v) => u.(username := v)
    case SetEmail(v) => u.(email := v)
    case SetHashedPassword(v) => u.(hashedPassword := v)
    case SetIsActive(v) => u.(isActive := v)
  }

  function UserUpdateData(p: UserUpdate): (r: seq<UserField>)
    ensures |r| <= 4
    ensures forall v :: SetUsername(v) in r <==> p.username == Some(v)
    ensures forall v :: SetEmail(v) in r <==> p.email == Some(v)
    ensures forall v :: SetHashedPassword(v) in r <==> p.hashedPassword == Some(v)
    ensures forall v :: SetIsActive(v) in r <==> p.isActive == Some(v)
  {
    (if p.username.Some? then [SetUsername(p.username.value)] else [])
    + (if p.email.Some? then [SetEmail(p.email.value)] else [])
    + (if p.hashedPassword.Some? then [SetHashedPassword(p.hashedPassword.value)] else [])
    + (if p.isActive.Some? then [SetIsActive(p.isActive.value)] else [])
  }

  /** The supplied fields take their new values; every other field keeps its old one. */
  function PatchUser(u: User, p: UserUpdate): User {
    User(p.username.GetOr(u.username), p.email.GetOr(u.email), p.hashedPassword.GetOr(u.hashedPassword), p.isActive.GetOr(u.isActive))
  }

  lemma MergeUser(u: User, p: UserUpdate)
    ensures Merge.ApplyAll(SetUserField, u, UserUpdateData(p)) == PatchUser(u, p)
  {
    var a := if p.username.Some? then [SetUsername(p.username.value)] else [];
    var b := if p.email.Some? then [SetEmail(p.email.value)] else [];
    var c := if p.hashedPassword.Some? then [SetHashedPassword(p.hashedPassword.value)] else [];
    var d := if p.isActive.Some? then [SetIsActive(p.isActive.value)] else [];
    Merge.ApplyAllAppend(SetUserField, u, a + b + c, d);
    Merge.ApplyAllAppend(SetUserField, u, a + b, c);
    Merge.ApplyAllAppend(SetUserField, u, a, b);
  }

  // ---------------------------------------------------------------- categories

  /** A new category carries every column of the payload (`Category(**category.model_dump())`). */
  datatype CategoryUpdate = CategoryUpdate(name: Option<string>, description: Option<Option<string>>, icon: Option<Option<string>>, color: Option<Option<string>>)

  datatype CategoryField = SetName(string) | SetDescription(Option<string>) | SetIcon(Option<string>) | SetColor(Option<string>)

  function SetCategoryField(c: Category, f: CategoryField): Category {
    match f
    case SetName(v) => c.(name := v)
    case SetDescription(v) => c.(description := v)
    case SetIcon(v) => c.(icon := v)
    case SetColor(v) => c.(color := v)
  }

  function CategoryUpdateData(p: CategoryUpdate): (r: seq<CategoryField>)
    ensures |r| <= 4
    ensures forall v :: SetName(v) in r <==> p.name == Some(v)
    ensures forall v :: SetDescription(v) in r <==> p.description == Some(v)
    ensures forall v :: SetIcon(v) in r <==> p.icon == Some(v)
    ensures forall v :: SetColor(v) in r <==> p.color == Some(v)
  {
    (if p.name.Some? then [SetName(p.name.value)] else [])
    + (if p.description.Some? then [SetDescription(p.description.value)] else [])
    + (if p.icon.Some? then [SetIcon(p.icon.value)] else [])
    + (if p.color.Some? then [SetColor(p.color.value)] else [])
  }

  function PatchCategory(c: Category, p: CategoryUpdate): Category {
    Category(p.name.GetOr(c.name), p.description.GetOr(c.description), p.icon.GetOr(c.icon), p.color.GetOr(c.color))
  }

  lemma MergeCategory(c: Category, p: CategoryUpdate)
    ensures Merge.ApplyAll(SetCategoryField, c, CategoryUpdateData(p)) == PatchCategory(c, p)
  {
    var a := if p.name.Some? then [SetName(p.name.value)] else [];
    var b := if p.description.Some? then [SetDescription(p.description.value)] else [];
    var i := if p.icon.Some? then [SetIcon(p.icon.value)] else [];
    var d := if p.color.Some? then [SetColor(p.color.value)] else [];
    Merge.ApplyAllAppend(SetCategoryField, c, a + b + i, d);
    Merge.ApplyAllAppend(SetCategoryField, c, a + b, i);
    Merge.ApplyAllAppend(SetCategoryField, c, a, b);
  }

  // ---------------------------------------------------------------- tags

  datatype TagUpdate = TagUpdate(name: Option<string>, color: Option<Option<string>>)

  datatype TagField = SetTagName(string) | SetTagColor(Option<string>)

  function SetTagField(t: Tag, f: TagField): Tag {
    match f
    case SetTagName(v) => t.(name := v)
    case SetTagColor(v) => t.(color := v)
  }

  function TagUpdateData(p: TagUpdate): (r: seq<TagField>)
    ensures |r| <= 2
    ensures forall v :: SetTagName(v) in r <==> p.name == Some(v)
    ensures forall v :: SetTagColor(v) in r <==> p.color == Some(v)
  {
    (if p.name.Some? then [SetTagName(p.name.value)] else [])
    + (if p.color.Some? then [SetTagColor(p.color.value)] else [])
  }

  function PatchTag(t: Tag, p: TagUpdate): Tag {
    Tag(p.name.GetOr(t.name), p.color.GetOr(t.color))
  }

  lemma MergeTag(t: Tag, p: TagUpdate)
    ensures Merge.ApplyAll(SetTagField, t, TagUpdateData(p)) == PatchTag(t, p)
  {
    var a := if p.name.Some? then [SetTagName(p.name.value)] else [];
    var b := if p.color.Some? then [SetTagColor(p.color.value)] else [];
    Merge.ApplyAllAppend(SetTagField, t, a, b);
  }

  // ---------------------------------------------------------------- expenses

  /** ExpenseCreateSchema: the validated description and amount, the other columns, and
      the tags to attach. The owner comes from the `user_id` query parameter. */
  datatype ExpenseCreate = ExpenseCreate(
    description: string, amount: Cents, expenseDate: Date, receiptImage: Option<string>,
    categoryId: Option<Id>, tagIds: Option<seq<Id>>)

  function NewExpense(p: ExpenseCreate, userId: Id): (r: Expense)
    ensures r.userId == userId && r.categoryId == p.categoryId
    ensures r.description == p.description && r.amount == p.amount
    ensures r.expenseDate == p.expenseDate && r.receiptImage == p.receiptImage
  {
    Expense(userId, p.categoryId, p.description, p.amount, p.expenseDate, p.receiptImage)
  }

  /** ExpenseUpdateSchema: description and amount are required here too, so an update
      always assigns both. `tagIds == None` leaves the tags alone. */
  datatype ExpenseUpdate = ExpenseUpdate(
    description: string, amount: Cents, expenseDate: Option<Date>, receiptImage: Option<Option<string>>,
    categoryId: Option<Option<Id>>, tagIds: Option<seq<Id>>)

  /** The Create and Update schemas both inherit BaseExpenseSchema unchanged. */
  function CreateViolations(p: ExpenseCreate): seq<Errors.Violation> {
    Schemas.ExpenseViolations(p.description, p.amount)
  }

  function UpdateViolations(p: ExpenseUpdate): seq<Errors.Violation> {
    Schemas.ExpenseViolations(p.description, p.amount)
  }

  datatype ExpenseField =
    | SetExpenseDescription(string) | SetAmount(Cents) | SetExpenseDate(Date)
    | SetReceiptImage(Option<string>) | SetExpenseCategory(Option<Id>)

  function SetExpenseField(e: Expense, f: ExpenseField): Expense {
    match f
    case SetExpenseDescription(v) => e.(description := v)
    case SetAmount(v) => e.(amount := v)
    case SetExpenseDate(v) => e.(expenseDate := v)
    case SetReceiptImage(v) => e.(receiptImage := v)
    case SetExpenseCategory(v) => e.(categoryId := v)
  }

  /** `model_dump(exclude_unset=True, exclude={'tag_ids'})`. */
  function ExpenseUpdateData(p: ExpenseUpdate): (r: seq<ExpenseField>)
    ensures 2 <= |r| <= 5
    ensures r[0] == SetExpenseDescription(p.description) && r[1] == SetAmount(p.amount)
    ensures forall i :: 2 <= i < |r| ==> !r[i].SetExpenseDescription? && !r[i].SetAmount?
    ensures forall v :: SetExpenseDate(v) in r <==> p.expenseDate == Some(v)
    ensures forall v :: SetReceiptImage(v) in r <==> p.receiptImage == Some(v)
    ensures forall v :: SetExpenseCategory(v) in r <==> p.categoryId == Some(v)
  {
    [SetExpenseDescription(p.description), SetAmount(p.amount)]
    + (if p.expenseDate.Some? then [SetExpenseDate(p.expenseDate.value)] else [])
    + (if p.receiptImage.Some? then [SetReceiptImage(p.receiptImage.value)] else [])
    + (if p.categoryId.Some? then [SetExpenseCategory(p.categoryId.value)] else [])
  }

  /** The owner never changes on update. */
  function PatchExpense(e: Expense, p: ExpenseUpdate): Expense {
    Expense(e.userId, p.categoryId.GetOr(e.categoryId), p.description, p.amount,
            p.expenseDate.GetOr(e.expenseDate), p.receiptImage.GetOr(e.receiptImage))
  }

  lemma MergeExpense(e: Expense, p: ExpenseUpdate)
    ensures Merge.ApplyAll(SetExpenseField, e, ExpenseUpdateData(p)) == PatchExpense(e, p)
  {
    var a := [SetExpenseDescription(p.description), SetAmount(p.amount)];
    var b := if p.expenseDate.Some? then [SetExpenseDate(p.expenseDate.value)] else [];
    var c := if p.receiptImage.Some? then [SetReceiptImage(p.receiptImage.value)] else [];
    var d := if p.categoryId.Some? then [SetExpenseCategory(p.categoryId.value)] else [];
    Merge.ApplyAllAppend(SetExpenseField, e, a + b + c, d);
    Merge.ApplyAllAppend(SetExpenseField, e, a + b, c);
    Merge.ApplyAllAppend(SetExpenseField, e, a, b);
    var one := [SetExpenseDescription(p.description)];
    assert a[..1] == one && one[..0] == [];
    assert Merge.ApplyAll(SetExpenseField, e, one) == e.(description := p.description);
  }

  // ---------------------------------------------------------------- budgets

  datatype BudgetCreate = BudgetCreate(categoryId: Option<Id>, amount: Cents, period: string, startDate: Date)

  /** The period is stored as supplied. */
  function NewBudget(p: BudgetCreate, userId: Id): (r: Budget)
    ensures r.userId == userId && r.categoryId == p.categoryId && r.amount == p.amount
    ensures r.period == p.period && r.startDate == p.startDate
  {
    Budget(userId, p.categoryId, p.amount, p.period, p.startDate)
  }

  datatype BudgetUpdate = BudgetUpdate(categoryId: Option<Option<Id>>, amount: Option<Cents>, period: Option<string>, startDate: Option<Date>)

  datatype BudgetField = SetBudgetCategory(Option<Id>) | SetBudgetAmount(Cents) | SetPeriod(string) | SetStartDate(Date)

  function SetBudgetField(b: Budget, f: BudgetField): Budget {
    match f
    case SetBudgetCategory(v) => b.(categoryId := v)
    case SetBudgetAmount(v) => b.(amount := v)
    case SetPeriod(v) => b.(period := v)
    case SetStartDate(v) => b.(startDate := v)
  }

  function BudgetUpdateData(p: BudgetUpdate): (r: seq<BudgetField>)
    ensures |r| <= 4
    ensures forall v :: SetBudgetCategory(v) in r <==> p.categoryId == Some(v)
    ensures forall v :: SetBudgetAmount(v) in r <==> p.amount == Some(v)
    ensures forall v :: SetPeriod(v) in r <==> p.period == Some(v)
    ensures forall v :: SetStartDate(v) in r <==> p.startDate == Some(v)
  {
    (if p.categoryId.Some? then [SetBudgetCategory(p.categoryId.value)] else [])
    + (if p.amount.Some? then [SetBudgetAmount(p.amount.value)] else [])
    + (if p.period.Some? then [SetPeriod(p.period.value)] else [])
    + (if p.startDate.Some? then [SetStartDate(p.startDate.value)] else [])
  }

  function PatchBudget(b: Budget, p: BudgetUpdate): Budget {
    Budget(b.userId, p.categoryId.GetOr(b.categoryId), p.amount.GetOr(b.amount), p.period.GetOr(b.period), p.startDate.GetOr(b.startDate))
  }

  lemma MergeBudget(b: Budget, p: BudgetUpdate)
    ensures Merge.ApplyAll(SetBudgetField, b, BudgetUpdateData(p)) == PatchBudget(b, p)
  {
    var a := if p.categoryId.Some? then [SetBudgetCategory(p.categoryId.value)] else [];
    var m := if p.amount.Some? then [SetBudgetAmount(p.amount.value)] else [];
    var c := if p.period.Some? then [SetPeriod(p.period.value)] else [];
    var d := if p.startDate.Some? then [SetStartDate(p.startDate.value)] else [];
    Merge.ApplyAllAppend(SetBudgetField, b, a + m + c, d);
    Merge.ApplyAllAppend(SetBudgetField, b, a + m, c);
    Merge.ApplyAllAppend(SetBudgetField, b, a, m);
  }
}
