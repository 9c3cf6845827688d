/** Request validation of expense payloads (BaseExpenseSchema and its subclasses). */
module Schemas {
  import opened Wrappers
  import opened Errors
  import Text

  /** The longest description `validate_name` accepts. */
  const MaxDescriptionLength := 50

  /** A character `validate_name` allows: a letter, whitespace or a hyphen. */
  predicate AllowedChar(c: char) {
    Text.IsLetter(c) || Text.IsSpace(c) || c == '-'
  }

  /** `validate_name`: the length test first, then the character test; an accepted
      description is returned as it is. */
  function ValidateName(value: string): (r: Result<string, Violation>)
    ensures r.Ok? <==> |value| <= MaxDescriptionLength && forall i :: 0 <= i < |value| ==> AllowedChar(value[i])
    ensures r.Ok? ==> r.value == value
    ensures |value| > MaxDescriptionLength ==> r == Err(DescriptionTooLong)
    ensures r.Err? && |value| <= MaxDescriptionLength ==> r == Err(DescriptionCharset)
  {
    if |value| > MaxDescriptionLength then Err(DescriptionTooLong)
    else if exists i | 0 <= i < |value| :: !AllowedChar(value[i]) then Err(DescriptionCharset)
    else Ok(value)
  }

  /** The `gt=0` constraint on `amount` (in cents). */
  function ValidateAmount(amount: int): (r: Result<int, Violation>)
    ensures r.Ok? <==> amount > 0
    ensures r.Ok? ==> r.value == amount
    ensures r.Err? ==> r.error == AmountNotPositive
  {
    if amount > 0 then Ok(amount) else Err(AmountNotPositive)
  }

  /** Every failure of a result, as a list of zero or one violations. */
  function Failures<T>(r: Result<T, Violation>): seq<Violation> {
    if r.Err? then [r.error] else []
  }

  /** BaseExpenseSchema: both fields are required and each is checked; all failures are
      reported together, description first. An empty list means the payload is valid. */
  function ExpenseViolations(description: string, amount: int): (r: seq<Violation>)
    ensures r == [] <==> ValidateName(description).Ok? && amount > 0
    ensures DescriptionTooLong in r <==> |description| > MaxDescriptionLength
    ensures DescriptionCharset in r <==>
      |description| <= MaxDescriptionLength && exists i :: 0 <= i < |description| && !AllowedChar(description[i])
    ensures ValidateName(description).Err? ==> r[0] == ValidateName(description).error
    ensures AmountNotPositive in r <==> amount <= 0
    ensures |r| == (if ValidateName(description).Err? then 1 else 0) + (if amount <= 0 then 1 else 0)
  {
    Failures(ValidateName(description)) + Failures(ValidateAmount(amount))
  }

  /** The empty description is valid: there is no minimum length and `all` of nothing holds. */
  lemma EmptyDescriptionAccepted()
    ensures ValidateName("") == Ok("")
  {
  }

  /** A typical description from the sample data passes unchanged. */
  lemma SampleDescriptionAccepted()
    ensures ValidateName("Wallet top-up") == Ok("Wallet top-up")
  {
    var s := "Wallet top-up";
    assert forall i :: 0 <= i < |s| ==> AllowedChar(s[i]);
  }

  /** A digit is rejected by the character test. */
  lemma DigitRejected()
    ensures ValidateName("Room 101") == Err(DescriptionCharset)
  {
    var s := "Room 101";
    assert !AllowedChar(s[5]);
  }
}
