/** The single-file prototype in main.py: a fixed in-memory list of expenses and one
    search endpoint over it. */
module LegacySearch {
  import opened Wrappers
  import opened Errors
  import Text
  import Seqs

  /** Amounts in cents (the prototype writes them as floats with two decimals). */
  datatype LegacyExpense = LegacyExpense(id: int, description: string, amount: int)

  const Expenses: seq<LegacyExpense> := [
    LegacyExpense(1, "Internet purchase", 25000050),
    LegacyExpense(2, "Taxi fare", 8500000),
    LegacyExpense(3, "Lunch purchase", 12000075),
    LegacyExpense(4, "Mobile bill", 9800000),
    LegacyExpense(5, "Book purchase", 17500025),
    LegacyExpense(6, "Wallet top-up", 30000000),
    LegacyExpense(7, "Parking fee", 4000000)
  ]

  /** The fixture lists seven expenses with ids 1 to 7 in order, positive amounts and
      descriptions of at most 17 characters. */
  lemma ExpensesFixture()
    ensures |Expenses| == 7
    ensures forall i :: 0 <= i < |Expenses| ==> Expenses[i].id == i + 1
    ensures forall i :: 0 <= i < |Expenses| ==> Expenses[i].amount > 0 && |Expenses[i].description| <= 17
  {
  }

  /** The `max_length` of the `search` parameter. */
  const MaxSearch := 50

  function Mentions(q: string): LegacyExpense -> bool {
    (e: LegacyExpense) => Text.Contains(Text.Lower(e.description), Text.Lower(q))
  }

  /** `get_expenses`: without a (non-empty) term, the whole list; with one, the expenses
      whose description contains it ignoring case, or a not-found error when none does. */
  function GetExpenses(q: Option<string>): (r: Result<seq<LegacyExpense>, Error>)
    ensures q.Some? && |q.value| > MaxSearch ==> r == Err(Invalid([QueryTooLong]))
    ensures (q.None? || q.value == "") ==> r == Ok(Expenses)
    ensures q.Some? && 0 < |q.value| <= MaxSearch ==>
      (r.Err? <==> forall i :: 0 <= i < |Expenses| ==> !Text.ILike(Expenses[i].description, q.value))
    ensures q.Some? && |q.value| <= MaxSearch && r.Err? ==> r.error == NotFound(ExpenseEntity)
    ensures r.Ok? ==> Seqs.IsSubsequence(r.value, Expenses)
    ensures r.Ok? && q.Some? && q.value != "" ==> r.value == Seqs.Filter(Expenses, Mentions(q.value))
    ensures r.Ok? && q.Some? ==>
      (forall i :: 0 <= i < |r.value| ==> r.value[i] in Expenses && Text.ILike(r.value[i].description, q.value))
      && (forall i :: 0 <= i < |Expenses| && Text.ILike(Expenses[i].description, q.value) ==> Expenses[i] in r.value)
  {
    if q.Some? && |q.value| > MaxSearch then Err(Invalid([QueryTooLong]))
    else if q.Some? && q.value != "" then
      var results := Seqs.Filter(Expenses, Mentions(q.value));
      if results == [] then Err(NotFound(ExpenseEntity)) else Ok(results)
    else
      Ok(Expenses)
  }

  /** Upper or lower case in the term makes no difference. */
  lemma SearchIgnoresCase(q: string)
    ensures GetExpenses(Some(q)) == GetExpenses(Some(Text.Lower(q)))
  {
    Text.LowerIdempotent(q);
    Seqs.FilterAgrees(Expenses, Mentions(q), Mentions(Text.Lower(q)));
  }

  /** A term longer than any description finds nothing. */
  lemma LongTermFindsNothing(q: string)
    requires 17 < |q| <= MaxSearch
    ensures GetExpenses(Some(q)) == Err(NotFound(ExpenseEntity))
  {
    ExpensesFixture();
    forall i | 0 <= i < |Expenses|
      ensures !Mentions(q)(Expenses[i])
    {
      var d := Expenses[i].description;
      if Text.Contains(Text.Lower(d), Text.Lower(q)) {
        Text.ContainsNotLonger(Text.Lower(d), Text.Lower(q));
      }
    }
    Seqs.FilterNone(Expenses, Mentions(q));
  }
}
