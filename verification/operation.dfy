/**
 * The ledger entry: one deposit or withdrawal on an account.
 * Amounts are exact integers (minor units, e.g. cents) and instants are an
 * ordered count of time units, so every sum below is exact.
 */
module Operations {
  import opened Wrappers

  /** A point in time; later instants are larger. */
  type Instant = int

  /** An exact amount of money in minor units. */
  type Amount = int

  /** The two kinds of operation, each with its display label. */
  datatype OperationType = Deposit | Withdrawal {

    /** The label printed in the first column of a statement. */
    function Label(): (text: string)
      ensures 0 < |text| <= 10
      ensures Deposit? ==> text == "Deposit"
      ensures Withdrawal? ==> text == "Withdrawal"
    {
      match this
      case Deposit => "Deposit"
      case Withdrawal => "Withdrawal"
    }
  }

  /**
   * An immutable operation record. The constructor validates nothing: the
   * account number may be absent (null) and the amounts may have any sign.
   * Datatype values cannot be updated, so no later call changes an operation.
   */
  datatype Operation = Operation(
    accountNumber: Option<string>,
    operationType: OperationType,
    operationDate: Instant,
    debit: Amount,
    credit: Amount)

  /** Every getter returns exactly the argument the constructor was given. */
  lemma GettersReturnConstructorArguments(
    accountNumber: Option<string>, operationType: OperationType,
    operationDate: Instant, debit: Amount, credit: Amount)
    ensures var op := Operation(accountNumber, operationType, operationDate, debit, credit);
      && op.accountNumber == accountNumber
      && op.operationType == operationType
      && op.operationDate == operationDate
      && op.debit == debit
      && op.credit == credit
  {
  }
}
