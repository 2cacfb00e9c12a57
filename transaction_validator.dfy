/** The transaction validator of the ledger backend: four required fields, checked in order. */
module TransactionValidation {
  import opened Wrappers
  import opened FieldChecks

  /** The fields of a transaction the validator reads; the amount is a decimal, the date a day number. */
  datatype TransactionDto = TransactionDto(txType: Option<string>, amount: Option<real>,
                                           transactionDate: Option<int>, category: Option<string>)

  const TYPE_REQUIRED := "Transaction type is required"
  const TYPE_UNKNOWN := "Transaction type must be INCOME or EXPENSE"
  const AMOUNT_NOT_POSITIVE := "Amount must be positive"
  const DATE_REQUIRED := "Transaction date is required"
  const CATEGORY_REQUIRED := "Category is required"

  /** A transaction the validator accepts. */
  predicate Acceptable(dto: TransactionDto)
  {
    (dto.txType == Some("INCOME") || dto.txType == Some("EXPENSE"))
    && dto.amount.Some? && dto.amount.value > 0.0
    && dto.transactionDate.Some? && dto.category.Some? && dto.category.value != []
  }

  /** `validate`: the message of the first failing check, or none. */
  function Validate(dto: TransactionDto): (r: Option<string>)
    ensures r.None? <==> Acceptable(dto)
    ensures NullOrEmpty(dto.txType) <==> r == Some(TYPE_REQUIRED)
    ensures r == Some(TYPE_UNKNOWN) <==>
      !NullOrEmpty(dto.txType) && dto.txType != Some("INCOME") && dto.txType != Some("EXPENSE")
    ensures r == Some(AMOUNT_NOT_POSITIVE) <==>
      (dto.txType == Some("INCOME") || dto.txType == Some("EXPENSE")) && (dto.amount.None? || dto.amount.value <= 0.0)
    ensures r == Some(DATE_REQUIRED) <==>
      (dto.txType == Some("INCOME") || dto.txType == Some("EXPENSE")) && dto.amount.Some? && dto.amount.value > 0.0
      && dto.transactionDate.None?
    ensures r == Some(CATEGORY_REQUIRED) <==>
      (dto.txType == Some("INCOME") || dto.txType == Some("EXPENSE")) && dto.amount.Some? && dto.amount.value > 0.0
      && dto.transactionDate.Some? && NullOrEmpty(dto.category)
  {
    if NullOrEmpty(dto.txType) then Some(TYPE_REQUIRED)
    else if dto.txType.value != "INCOME" && dto.txType.value != "EXPENSE" then Some(TYPE_UNKNOWN)
    else if dto.amount.None? || dto.amount.value <= 0.0 then Some(AMOUNT_NOT_POSITIVE)
    else if dto.transactionDate.None? then Some(DATE_REQUIRED)
    else if NullOrEmpty(dto.category) then Some(CATEGORY_REQUIRED)
    else None
  }
}
