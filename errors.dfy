/** The outcomes a request can end with other than success. */
module Errors {

  /** The entity kinds named in a not-found message. */
  datatype Entity = UserEntity | CategoryEntity | TagEntity | ExpenseEntity | BudgetEntity

  /** The columns whose uniqueness the create handlers pre-check. */
  datatype Field = Username | Email | CategoryName | TagName

  /** One rule a request failed before any handler ran (request validation). */
  datatype Violation =
    | DescriptionTooLong   // more than 50 characters
    | DescriptionCharset   // a character that is not a letter, a space or '-'
    | AmountNotPositive    // amount <= 0
    | QueryTooLong         // a search term over the query parameter's max_length

  datatype Error =
    | Invalid(violations: seq<Violation>)  // request validation, before the handler runs
    | NotFound(entity: Entity)             // unknown id, unknown foreign key, empty search
    | Duplicate(field: Field)              // a uniqueness pre-check in a create handler
    | IntegrityFault                       // a declared store constraint rejected the commit
}
