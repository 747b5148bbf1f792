/**
 * The bank accounts management service: validates deposits and withdrawals,
 * records them in the repository stamped with the clock's current instant,
 * and establishes account statements.
 */
module Service {
  import opened Wrappers
  import opened Operations
  import opened OperationOrder
  import opened Repository
  import opened Statements

  /** The IllegalArgumentException the service throws on a bad argument. */
  datatype Error = IllegalArgument(message: string)

  const MissingAccountNumber := IllegalArgument("The account number should be specified")
  const DepositNotPositive := IllegalArgument("The amount for the deposit must be positive")
  const WithdrawalNotPositive := IllegalArgument("The amount for the withdrawal must be positive")

  /** The first argument error a deposit or withdrawal reports, if any. */
  function Validate(accountNumber: Option<string>, amount: Option<Amount>, notPositive: Error)
    : (outcome: Outcome<Error>)
    ensures outcome.Pass? <==> accountNumber.Some? && amount.Some? && amount.value > 0
    ensures accountNumber.None? ==> outcome == Fail(MissingAccountNumber)
    ensures accountNumber.Some? && (amount.None? || amount.value <= 0) ==> outcome == Fail(notPositive)
  {
    if accountNumber.None? then Fail(MissingAccountNumber)
    else if amount.None? || amount.value <= 0 then Fail(notPositive)
    else Pass
  }

  class AccountService {
    /** The store the service records operations in and reads balances from. */
    const accountRepository: AccountRepository

    constructor (accountRepository: AccountRepository)
      ensures this.accountRepository == accountRepository
    {
      this.accountRepository := accountRepository;
    }

    /**
     * Deposits `amount` on the account at instant `now`, the date the clock
     * gives. Fails, changing nothing, on an absent account number or an amount
     * that is absent, zero or negative.
     */
    method DepositMoney(accountNumber: Option<string>, amount: Option<Amount>, now: Instant)
      returns (outcome: Outcome<Error>)
      modifies accountRepository
      ensures outcome == Validate(accountNumber, amount, DepositNotPositive)
      ensures outcome.Fail? ==> accountRepository.accounts == old(accountRepository.accounts)
      ensures outcome.Pass? ==>
        var k := accountNumber.value;
        var deposit := Operation(accountNumber, Deposit, now, 0, amount.value);
        && accountRepository.accounts == old(accountRepository.accounts)[k := old(accountRepository.Bucket(k)) + [deposit]]
        && Balance(accountRepository.Bucket(k)) == old(Balance(accountRepository.Bucket(k))) + amount.value
      ensures old(accountRepository.Valid()) ==> accountRepository.Valid()
    {
      outcome := Validate(accountNumber, amount, DepositNotPositive);
      if outcome.Fail? {
        return;
      }
      var operation := Operation(accountNumber, Deposit, now, 0, amount.value);
      accountRepository.Create(Some(operation));
    }

    /**
     * Withdraws `amount` from the account at instant `now`. Fails, changing
     * nothing, on an absent account number or an amount that is absent, zero or
     * negative. Otherwise records the withdrawal even when it overdraws the
     * account, and tells whether the balance it leaves is not negative. Reading
     * the balance back sorts the account's bucket.
     */
    method WithdrawMoney(accountNumber: Option<string>, amount: Option<Amount>, now: Instant)
      returns (result: Result<bool, Error>)
      modifies accountRepository
      ensures result.Failure? <==> Validate(accountNumber, amount, WithdrawalNotPositive).Fail?
      ensures result.Failure? ==> Fail(result.error) == Validate(accountNumber, amount, WithdrawalNotPositive)
      ensures result.Failure? ==> accountRepository.accounts == old(accountRepository.accounts)
      ensures result.Success? ==>
        var k := accountNumber.value;
        var withdrawal := Operation(accountNumber, Withdrawal, now, amount.value, 0);
        && accountRepository.accounts
           == old(accountRepository.accounts)[k := SortNewestFirst(old(accountRepository.Bucket(k)) + [withdrawal])]
        && Balance(accountRepository.Bucket(k)) == old(Balance(accountRepository.Bucket(k))) - amount.value
        && result.value == (Balance(accountRepository.Bucket(k)) >= 0)
      ensures old(accountRepository.Valid()) ==> accountRepository.Valid()
    {
      var outcome := Validate(accountNumber, amount, WithdrawalNotPositive);
      if outcome.Fail? {
        return Failure(outcome.error);
      }
      var operation := Operation(accountNumber, Withdrawal, now, amount.value, 0);
      ghost var k := accountNumber.value;
      ghost var recorded := old(accountRepository.Bucket(k)) + [operation];
      accountRepository.Create(Some(operation));
      assert accountRepository.accounts == old(accountRepository.accounts)[k := recorded];
      assert Balance(recorded) == old(Balance(accountRepository.Bucket(k))) - amount.value;
      var balance := accountRepository.CalculateBalance(accountNumber);
      assert accountRepository.accounts == old(accountRepository.accounts)[k := SortNewestFirst(recorded)];
      SortedBalance(recorded);
      result := Success(balance >= 0);
    }

    /**
     * The statement of an account: its operations most recent first and its
     * balance. The account number is not validated; an absent or unknown one
     * gives no operations and a zero balance.
     */
    method EstablishAccountStatement(accountNumber: Option<string>) returns (statement: AccountStatement)
      modifies accountRepository
      ensures statement.operations == SortNewestFirst(old(accountRepository.Stored(accountNumber)))
      ensures statement.balance == Balance(old(accountRepository.Stored(accountNumber)))
      ensures accountRepository.accounts == AfterListing(old(accountRepository.accounts), accountNumber)
      ensures old(accountRepository.Valid()) ==> accountRepository.Valid()
    {
      var operations := accountRepository.List(accountNumber);
      var balance := accountRepository.CalculateBalance(accountNumber);
      ListingTwiceIsListingOnce(old(accountRepository.accounts), accountNumber);
      SortedBalance(old(accountRepository.Stored(accountNumber)));
      statement := AccountStatement(operations, balance);
    }
  }
}
