# Expense management API — a Dafny model

This project models the core of an expense management web API: five stored entities
(users, categories, tags, expenses, budgets), the many-to-many link between expenses
and tags, and the create, read, update, delete and search handlers over them. It
also models the validation of expense payloads and the single-file prototype with its
fixed list of expenses. It proves what each handler returns, how it changes the store,
and that every committed write keeps the declared store constraints. It then proves how
writes and reads fit together: a created row can be fetched, a deleted row cannot, and
the delete cascades behave as declared.

Layout, one module per file:

- `wrappers.dfy`, `errors.dfy`: `Option`, `Result`, and the error outcomes of a request.
  The outcomes are request validation (`Invalid`), `NotFound`, a uniqueness pre-check
  (`Duplicate`), and a rejected commit (`IntegrityFault`).
- `seqs.dfy`, `text.dfy`, `rows.dfy`: order-preserving filtering, ASCII lower-casing,
  substring search and SQL `ilike`, and tables of id-keyed rows in insertion order.
- `schemas.dfy`: `validate_name` and the `gt=0` amount rule of the expense schema.
- `models.dfy`: the tables, the column constraints, and what a consistent store is.
- `writes.dfy`: the effect of each committed insert, update and delete, including the
  `ondelete` and relationship cascades, and when a write keeps consistency.
- `merge.dfy`, `payloads.dfy`: the request payloads and the partial-update merge loop.
- `queries.dfy`: fetch by id and the five listings with their filters.
- `handlers.dfy`: class `Store`, whose fields are the tables; one method per write handler.
- `properties.dfy`: how fetches and listings see the writes.
- `legacy.dfy`: the prototype's in-memory search.

Modelling choices:

- Ids are positive integers. A new row's id is one more than the last id in its table,
  as SQLite assigns an `INTEGER PRIMARY KEY`.
- Amounts of type `Numeric(12, 2)` are whole numbers of cents.
- A date is its day number.
- Characters are ASCII: `isalpha`, `isspace`, `lower` and `ilike` are restricted to it.
- The declared foreign keys, unique columns, string widths and numeric precision are
  enforced when a write commits. A write that would break one fails with
  `IntegrityFault` and leaves the store unchanged.
- On an update, a name or email that another row holds therefore fails at commit.
  So does a category id that does not exist.
- A query parameter that is absent or falsy does not filter. Falsy means an empty
  string or the id 0, as in Python's `if q:`.
- A search term longer than its `max_length` is refused with `Invalid`.

Where the API's documented rules differ from what the code does, the model follows the code:

- Expense descriptions are limited to 50 characters and may be empty. The field's own
  description (core/schemas.py:8) says "alphabetic only", but the validator
  (core/schemas.py:21) also accepts whitespace and hyphens; the model accepts them too.
  The description column is 200 characters wide, which the 50-character limit never
  reaches.
- Both expense schemas require `description` and `amount`, so an expense update always
  assigns them.
- The expense schemas in core/schemas.py declare only `description` and `amount`. The
  handlers still read `category_id` and `tag_ids` from the body (core/main.py:215, 221,
  264) and build the row from it, which needs the NOT NULL `expense_date`. The expense
  payloads of the model extend the declared schema with the columns `expense_date`,
  `receipt_image` and `category_id` of core/models.py, and with `tag_ids`, the list of
  tag ids that sets the expense's `tags` relationship over `expense_tags`.
- No minimum username length, budget amount sign, or period value is enforced. The
  schemas for users, categories, tags and budgets are not part of this model, so their
  payloads carry the model's columns and only the column constraints apply.
- No update payload carries an owner. A budget update (`Payloads.BudgetUpdate`) has no
  `user_id`, so `setattr` never re-owns a budget, and likewise an expense update never
  re-owns an expense. A budget schema that did carry `user_id` would let an update move
  the budget to another user; that is not modelled.
- A budget's period is stored as supplied. Only the listing filter lower-cases its
  term, so a stored period with an upper-case letter is never matched by that filter
  (`Queries.UpperCasePeriodNeverListed`).
- Uniqueness is pre-checked only when creating. Updates do not re-check that a category
  or name exists; only the commit refuses them.
- The tag check compares the number of tags found with the length of the list. A list
  that names one existing tag twice is therefore refused as "not found"
  (`Handlers.RepeatedTagRejected`).
- Deleting a category deletes its budgets, following the declared
  `ondelete='CASCADE'` on `budgets.category_id`. The `Category.budgets` relationship
  declares no cascade. Under the ORM's default, the session would null the budgets'
  category instead.

## Model

| member | source | states |
|---|---|---|
| `Schemas.ValidateName` | core/schemas.py:17-24 | A description is accepted unchanged exactly when it has at most 50 characters, all letters, whitespace or hyphens; the length failure is reported in preference to the character failure. |
| `Schemas.ExpenseViolations` | core/schemas.py:4-24 | An expense body is valid exactly when its description passes `validate_name` and its amount is positive; the too-long, bad-character and non-positive failures are each reported exactly when they occur, a description failure is listed before the amount failure, and nothing else is listed. |
| `Schemas.ValidateAmount` | core/schemas.py:10-15 | An amount is accepted unchanged exactly when it is positive (`gt=0`); otherwise the non-positive failure is reported. |
| `Schemas.EmptyDescriptionAccepted` | core/schemas.py:19-24 | The empty description is accepted: there is no minimum length. |
| `Schemas.SampleDescriptionAccepted` | core/schemas.py:21-24 | "Wallet top-up" is accepted, since the hyphen and the space are allowed. |
| `Schemas.DigitRejected` | core/schemas.py:21-23 | A description containing a digit is refused by the character rule. |
| `Rows.NextId` | core/models.py:30 | A new id is larger than every id already in a keyed table, so it is fresh. |
| `Rows.Find` | core/main.py:63 | The lookup by id succeeds exactly when the id is in the table, and it returns that row. |
| `Rows.AppendUnique` | core/models.py:31 | Appending a row keeps a unique column unique exactly when no stored row already holds the new value. |
| `Rows.ReplaceUnique` | core/models.py:52 | Replacing a row keeps a unique column unique exactly when no other row holds the new value. |
| `Rows.Remove` | core/main.py:96 | Deleting by id removes exactly that id and keeps every other row, in order. |
| `Models.LinksFor` | core/models.py:15-19 | The association rows written for an expense give it exactly the given tags. |
| `Writes.InsertUser` | core/main.py:403-408 | A created user is appended under a fresh id after every stored user, which stay as they were; nothing else in the store changes. |
| `Writes.InsertCategory` | core/main.py:53-54 | A created category is appended under a fresh id after every stored category; nothing else changes. |
| `Writes.InsertTag` | core/main.py:123-124 | A created tag is appended under a fresh id after every stored tag; nothing else changes. |
| `Writes.InsertExpense` | core/main.py:224-233 | A created expense is appended under a fresh id, and the association gains exactly the pairs of that id with the given tags; nothing else changes. |
| `Writes.InsertBudget` | core/main.py:327-328 | A created budget is appended under a fresh id after every stored budget; nothing else changes. |
| `Writes.ReplaceUser` | core/main.py:434-438 | A committed user update keeps every id and position, gives the updated id the new data and every other user its old data; nothing else changes. |
| `Writes.ReplaceCategory` | core/main.py:80-84 | A committed category update keeps every id and position and changes only the updated category's data; nothing else changes. |
| `Writes.ReplaceTag` | core/main.py:150-154 | A committed tag update keeps every id and position and changes only the updated tag's data; nothing else changes. |
| `Writes.ReplaceBudget` | core/main.py:354-358 | A committed budget update keeps every id and position and changes only the updated budget's data; nothing else changes. |
| `Writes.InsertUserConsistent` | core/models.py:30-34 | Once the username and email pre-checks pass, inserting a user commits exactly when its columns fit their widths. |
| `Writes.InsertCategoryConsistent` | core/models.py:51-55 | Once the name pre-check passes, inserting a category commits exactly when its columns fit their widths. |
| `Writes.InsertTagConsistent` | core/models.py:96-98 | Once the name pre-check passes, inserting a tag commits exactly when its columns fit their widths. |
| `Writes.InsertExpenseConsistent` | core/models.py:71-77 | With existing tags, inserting an expense commits exactly when its columns fit and its owner and category exist, and the expense then has exactly those tags. |
| `Writes.InsertBudgetConsistent` | core/models.py:113-118 | Inserting a budget commits exactly when its columns fit and its owner and category exist. |
| `Writes.ReplaceUserConsistent` | core/models.py:31-33 | An updated user commits exactly when it fits its columns and no other user holds its username or email. |
| `Writes.ReplaceCategoryConsistent` | core/models.py:52-55 | An updated category commits exactly when it fits its columns and no other category holds its name. |
| `Writes.ReplaceTagConsistent` | core/models.py:97-98 | An updated tag commits exactly when it fits its columns and no other tag holds its name. |
| `Writes.ReplaceExpenseConsistent` | core/models.py:72-77 | An updated expense commits exactly when it fits its columns and its owner and category exist. |
| `Writes.ReplaceBudgetConsistent` | core/models.py:114-118 | An updated budget commits exactly when it fits its columns and its owner and category exist. |
| `Writes.ReplaceExpense` | core/main.py:259-270 | The expense row gets the new data in place; a supplied tag list becomes the expense's exact tag set; without one its links stay; links of other expenses never change; no other table changes. |
| `Writes.SetNullCategory` | core/models.py:73 | Expenses of a deleted category keep their rows and ids, with the category set to null; all other expenses are untouched. |
| `Writes.DeleteUser` | core/models.py:38-39 | Deleting a user removes that user row and no other, exactly its expenses and budgets, in order, and the links of those expenses. |
| `Writes.DeleteCategory` | core/models.py:115 | Deleting a category removes that category row and no other, nulls its expenses' category and removes exactly its budgets; users, tags and links are unchanged. |
| `Writes.DeleteTag` | core/models.py:19 | Deleting a tag removes that tag row and no other, and exactly the links that name it; the other tables are unchanged. |
| `Writes.DeleteExpense` | core/models.py:18 | Deleting an expense removes that expense row and no other, and exactly the links that name it; the other tables are unchanged. |
| `Writes.DeleteBudget` | core/main.py:363-372 | Deleting a budget removes that budget row and keeps every other budget, with its data, in order; the other tables are unchanged. |
| `Writes.DeleteUserConsistent` | core/models.py:72 | The user cascade leaves a consistent store: no expense, budget or link points at a missing row. |
| `Writes.DeleteCategoryConsistent` | core/models.py:73 | Nulling and cascading on category delete leaves a consistent store. |
| `Writes.DeleteTagConsistent` | core/models.py:19 | Tag delete leaves a consistent store. |
| `Writes.DeleteExpenseConsistent` | core/models.py:18 | Expense delete leaves a consistent store. |
| `Writes.DeleteBudgetConsistent` | core/main.py:370 | Budget delete leaves a consistent store. |
| `Merge.MergeFields` | core/main.py:80-82 | The `setattr` loop over the supplied fields gives the row after assigning each field in turn. |
| `Merge.ApplyAllAppend` | core/main.py:81-82 | Assigning two lists of fields one after the other is assigning their concatenation. |
| `Payloads.NewUser` | core/main.py:403-407 | A new user takes username and email from the body, stores the password as given in `hashed_password`, and is active by the column default. |
| `Payloads.UserUpdateData` | core/main.py:434 | The fields to assign are exactly the supplied ones, each with its supplied value. |
| `Payloads.CategoryUpdateData` | core/main.py:80 | The fields to assign are exactly the supplied ones; a supplied null is assigned as null. |
| `Payloads.TagUpdateData` | core/main.py:150 | The fields to assign are exactly the supplied ones. |
| `Payloads.NewExpense` | core/main.py:222-224 | A new expense takes its columns from the body and its owner from the `user_id` parameter. |
| `Payloads.ExpenseUpdateData` | core/main.py:259 | Description and amount are always assigned, first and only there; of the other fields exactly the supplied ones are; the tag list is never a column assignment. |
| `Payloads.NewBudget` | core/main.py:327 | A new budget takes its columns from the body, the period as supplied, and its owner from the `user_id` parameter. |
| `Payloads.BudgetUpdateData` | core/main.py:354 | The fields to assign are exactly the supplied ones. |
| `Payloads.MergeUser` | core/main.py:434-436 | Merging a user update changes exactly the supplied fields. |
| `Payloads.MergeCategory` | core/main.py:80-82 | Merging a category update changes exactly the supplied fields; a supplied null clears a nullable column. |
| `Payloads.MergeTag` | core/main.py:150-152 | Merging a tag update changes exactly the supplied fields. |
| `Payloads.MergeExpense` | core/main.py:259-261 | Merging an expense update sets description and amount, changes the other supplied fields, and never changes the owner. |
| `Payloads.MergeBudget` | core/main.py:354-356 | Merging a budget update changes exactly the supplied fields and never changes the owner. |
| `Queries.Get` | core/main.py:60-66 | Fetching by id returns the stored row with that id, or the entity's not-found error exactly when there is none. |
| `Queries.Narrow` | core/main.py:185-194 | An optional filter keeps the order and, when switched on, keeps exactly the rows that satisfy it; switched off it keeps every row. |
| `Queries.NarrowFiltered` | core/main.py:185-194 | Applying one more optional filter after earlier ones equals filtering once by their conjunction. |
| `Queries.ListCategories` | core/main.py:31-43 | Category listing returns all categories without a term; with one, exactly the name matches in store order, and not-found exactly when none matches. |
| `Queries.CategorySearchIgnoresCase` | core/main.py:38-39 | The category search gives the same answer for a term and its lower-cased form. |
| `Queries.ListTags` | core/main.py:103-113 | Tag listing returns exactly the name matches in store order, and an empty list rather than an error when none matches. |
| `Queries.ListUsers` | core/main.py:377-386 | User listing returns exactly the username matches in store order, never a not-found error. |
| `Queries.ExpenseFilters` | core/main.py:183-196 | The chain of five optional filters equals one filter by the conjunction of the conditions that are switched on. |
| `Queries.ExpenseChain` | core/main.py:185-194 | Applying the description, category, user, start-date and end-date filters in turn equals one filter by all switched-on conditions. |
| `Queries.ListExpenses` | core/main.py:173-199 | Expense listing returns exactly the expenses meeting every given filter, in store order; a term with no matching expense is a not-found error. |
| `Queries.UnfilteredListsAll` | core/main.py:183-199 | With no parameter, every expense is listed. |
| `Queries.UserFilterNarrows` | core/main.py:189-190 | Adding a user filter only removes expenses from the listing. |
| `Queries.ListBudgets` | core/main.py:289-306 | Budget listing returns exactly the budgets meeting the user, category and lower-cased period filters, in store order. |
| `Queries.PeriodFilterIgnoresCase` | core/main.py:303-304 | The period filter gives the same answer for a term and its lower-cased form. |
| `Queries.UpperCasePeriodNeverListed` | core/main.py:304 | A budget whose stored period has an upper-case letter is never listed once a period filter is on. |
| `Handlers.TagCountCheck` | core/main.py:227-230 | The count check passes exactly when every listed tag exists and none is listed twice; the expense then gets exactly the listed tags. |
| `Handlers.RepeatedTagRejected` | core/main.py:228-229 | A list that names one existing tag twice fails the count check. |
| `Handlers.MatchedTags` | core/main.py:228 | The tags found by `Tag.id.in_` are exactly the existing tags named in the list, never more than the list's length. |
| `Handlers.Retag` | core/main.py:264-268 | An update's tag list, when supplied, becomes the set of its ids, with one tag per distinct id; when absent, the tags are left alone. |
| `Handlers.Store.ResolveTags` | core/main.py:265-268 | Resolving a tag list succeeds exactly when all tags are found, and yields the set of listed tags. |
| `Handlers.Store.Commit` | core/main.py:55 | `db.commit()` makes the store's tables exactly the given snapshot. |
| `Handlers.Store.CreateCategory` | core/main.py:46-57 | A taken name is a duplicate error; otherwise the insert commits exactly when the row fits, and the store gains exactly that row. |
| `Handlers.Store.UpdateCategory` | core/main.py:69-86 | An unknown id is not-found; otherwise the merged row commits exactly when it fits and its name is not another category's. |
| `Handlers.Store.DeleteCategory` | core/main.py:89-98 | An unknown id is not-found; otherwise the category is deleted with its cascades. |
| `Handlers.Store.CreateTag` | core/main.py:116-127 | A taken name is a duplicate error; otherwise the insert commits exactly when the row fits. |
| `Handlers.Store.UpdateTag` | core/main.py:139-156 | An unknown id is not-found; otherwise the merged tag commits exactly when it fits and its name is not another tag's. |
| `Handlers.Store.DeleteTag` | core/main.py:159-168 | An unknown id is not-found; otherwise the tag and its links are deleted. |
| `Handlers.Store.CreateExpense` | core/main.py:202-236 | An invalid body, then an unknown user, category or tag, fail in that order; otherwise the expense commits exactly when it fits, with exactly the listed tags. |
| `Handlers.Store.UpdateExpense` | core/main.py:248-272 | An invalid body, an unknown id, then an unresolved tag list fail in that order; otherwise the merged expense commits exactly when it fits and its category exists. |
| `Handlers.Store.DeleteExpense` | core/main.py:275-284 | An unknown id is not-found; otherwise the expense and its links are deleted. |
| `Handlers.Store.CreateBudget` | core/main.py:309-331 | An unknown user, then an unknown category, is not-found; otherwise the budget commits exactly when it fits. |
| `Handlers.Store.UpdateBudget` | core/main.py:343-360 | An unknown id is not-found; otherwise the merged budget commits exactly when it fits and its category exists. |
| `Handlers.Store.DeleteBudget` | core/main.py:363-372 | An unknown id is not-found; otherwise only that budget is deleted. |
| `Handlers.Store.CreateUser` | core/main.py:389-411 | A taken username, then a taken email, is a duplicate error; otherwise the user, stored active with its password as given, commits exactly when it fits. |
| `Handlers.Store.UpdateUser` | core/main.py:423-440 | An unknown id is not-found; otherwise the merged user commits exactly when it fits and no other user holds its username or email. |
| `Handlers.Store.DeleteUser` | core/main.py:443-452 | An unknown id is not-found; otherwise the user is deleted with its expenses, budgets and their links. |
| `Properties.FetchAfterInsert` | core/main.py:53-66 | A created row is fetched under its new id, and every other fetch is unchanged. |
| `Properties.FetchAfterReplace` | core/main.py:76-86 | An updated row is fetched with its new data, and every other fetch is unchanged. |
| `Properties.FetchAfterRemove` | core/main.py:89-98 | A deleted row is no longer found, and every other fetch is unchanged. |
| `Properties.DeletedUserOwnsNothing` | core/models.py:38-39 | After a user is deleted, listing expenses or budgets by that user finds none. |
| `Properties.DeletedCategoryReleasesExpenses` | core/models.py:73 | After a category is deleted, no expense lists under it, and its former expenses remain with no category. |
| `Properties.DeletedTagDetached` | core/models.py:19 | After a tag is deleted, no expense carries it and every other tag stays. |
| `Text.ContainsMeansOccurs` | main.py:26-27 | The substring test holds exactly when the term occurs at some position. |
| `Text.ILikeIgnoresCase` | core/main.py:39 | `ilike` does not depend on the case of either side. |
| `Text.Lower` | core/main.py:304 | `str.lower` keeps the length and lower-cases each ASCII letter, leaving every other character alone. |
| `LegacySearch.GetExpenses` | main.py:19-32 | Without a term the whole list is returned; with one, exactly the entries whose description contains it ignoring case, in list order, or not-found when none does. |
| `LegacySearch.ExpensesFixture` | main.py:8-16 | The fixture holds seven expenses with ids 1 to 7 in order, positive amounts, and descriptions of at most 17 characters. |
| `LegacySearch.SearchIgnoresCase` | main.py:25-27 | The prototype search gives the same answer for a term and its lower-cased form. |
| `LegacySearch.LongTermFindsNothing` | main.py:8-16 | A term longer than every description (17 characters) but within the limit finds nothing. |

Helpers without a row of their own: `Rows.Taken` and `Rows.TakenByOther` are the
uniqueness pre-checks (core/main.py:49, 119, 393, 398), stated through the
`Handlers.Store.Create*` rows and the `Writes.*Consistent` rows. `Text.ILike` is SQL
`ilike` (core/main.py:39, 111, 186, 385), stated through `Text.ILikeIgnoresCase` and
the listing rows.

## Left out

- Transport: HTTP routing, status codes, response serialisation, the health check, and
  the session and engine setup. core/database.py is not part of this model.
- Server timestamps (`created_at`, `updated_at`) and the association's `created_at` are
  not modelled.
- Password hashing: there is none in the code, and the model stores the password as given.
- Floating-point amounts: amounts are whole cents, and float rounding on input is not
  modelled.
- Unicode: character classes and case mapping are ASCII only.
- The `%` and `_` wildcards inside a search term are matched literally, not as LIKE
  wildcards.
- Concurrency and transactions: each handler is one atomic step, and a failed request
  changes nothing, standing for the session's rollback.
- Engine behaviour: SQLite enforces neither foreign keys (without the pragma) nor string
  widths. The model enforces every declared constraint at commit.
- Rows are values replaced in a sequence. Object identity and the session's identity map
  are not modelled.
- Payload ids (a category id or tag ids in a body) are positive. A body naming id 0 or
  a negative id is not modelled.
- `is_active` is never null; the column is nullable, but no payload in this model sets it
  to null.
- `ExpenseResponseSchema` re-validating stored descriptions on read is not modelled. A
  listing returns rows, not response bodies.
- The schemas for users, categories, tags and budgets are not part of this model, so no
  validation beyond the column constraints is modelled for those payloads.
- With the expense schemas exactly as declared, reading `expense.category_id` or
  `expense.tag_ids` raises `AttributeError`, an internal server error that commits
  nothing. That failure is not modelled: the expense payloads carry those fields.
- The fetch handlers for categories, tags, expenses, budgets and users
  (core/main.py:60-66, 130-136, 239-245, 334-340, 414-420) all share one member,
  `Queries.Get`, cited once in the table.
