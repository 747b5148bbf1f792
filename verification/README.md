# Bank-account ledger, modelled in Dafny

A model of the in-memory bank-account ledger of `fr.jpa.bankaccount` and of
what it promises:

- `Operation` is an immutable record. It holds an account number, a kind
  (deposit or withdrawal), a date, a debit and a credit. It is modelled as a
  datatype (`operation.dfy`, module `Operations`).
- `AccountRepository` maps each account number to that account's list of
  operations, its "bucket". It is modelled as a class whose `accounts` field
  is a `map<string, seq<Operation>>` (`account_repository.dfy`, module
  `Repository`):
  - `create` appends an operation to its bucket;
  - `list` sorts the stored bucket in place, most recent first, with Java's
    stable sort;
  - `calculateBalance` reads the bucket through `list` and sums credit − debit
    in a loop.
- The order `list` produces is specified in `operation_order.dfy` (module
  `OperationOrder`) by a stable insertion sort, `SortNewestFirst`. It is
  proved:
  - newest first;
  - a permutation;
  - stable, meaning each date's operations keep their order;
  - idempotent;
  - the only sequence with those properties.
- `AccountService` (`account_service.dfy`, module `Service`) validates its
  arguments, then records deposits and withdrawals stamped with the clock's
  instant. It also establishes statements.
- `AccountStatement` (`account_statement.dfy`, module `Statements`) pairs
  operations with a balance. Its `getPrint` is modelled as a method whose
  string-builder loop is proved equal to a pure rendering function, `Print`.
- `wrappers.dfy` (module `Wrappers`) gives `Option` for Java's nullable
  references, `Result` for a method that returns or throws, and `Outcome` for
  a void method that may throw.

Representation choices:

- Amounts are exact integers in minor units (cents), and instants are integers
  ordered by time.
- The injected `DateProvider` becomes a `now: Instant` parameter.
- The localized date formatter and `BigDecimal`'s text form become function
  parameters, `dateText` and `amountText`.
- A thrown `IllegalArgumentException` becomes a `Failure`/`Fail` value carrying
  the exception's message.

The model follows the code in these points:

- `depositMoney` and `withdrawMoney` reject only a `null` account number, and
  `create` ignores only a `null` one; an empty number is accepted
  (src/main/java/fr/jpa/bankaccount/account/AccountService.java:43, 63;
  src/main/java/fr/jpa/bankaccount/account/AccountRepository.java:66).
- `list` returns no copy: it sorts the stored bucket itself
  (src/main/java/fr/jpa/bankaccount/account/AccountRepository.java:55). So
  `list`, `calculateBalance`, `withdrawMoney` and `establishAccountStatement`
  all change the store's order.
- The kind label is padded on the right with `%-10s` (left-justified). The
  credit and debit are padded on the left with `%6s` (right-justified)
  (src/main/java/fr/jpa/bankaccount/bean/AccountStatement.java:47, 51, 53).
- Operations with equal dates keep their stored relative order, because
  `List.sort` is stable.

## Model

| member | source | states |
|---|---|---|
| Operations.OperationType.Label | src/test/java/fr/jpa/bankaccount/bean/AccountStatementTest.java:44-46 | The label of a deposit is "Deposit" and of a withdrawal "Withdrawal"; every label is 1 to 10 characters, so it fills its column without overflowing. |
| Operations.GettersReturnConstructorArguments | src/main/java/fr/jpa/bankaccount/bean/Operation.java:44-95 | Each of the five getters returns exactly the argument given to the constructor; the constructor accepts an absent account number and amounts of any sign. |
| OperationOrder.Insert | src/main/java/fr/jpa/bankaccount/account/AccountRepository.java:55 | Inserting an operation adds exactly that operation (multiset) and keeps a newest-first sequence newest first. |
| OperationOrder.SortNewestFirst | src/main/java/fr/jpa/bankaccount/account/AccountRepository.java:55 | The sorted list is a permutation of the input and no operation in it is older than one after it. |
| OperationOrder.InsertKeepsDateGroups | src/main/java/fr/jpa/bankaccount/account/AccountRepository.java:55 | Insertion puts the operation ahead of those of its own date and leaves every date's operations in their previous order. |
| OperationOrder.SortIsStable | src/main/java/fr/jpa/bankaccount/account/AccountRepository.java:55 | The sort is stable: for every date, the operations of that date appear in the same relative order as before sorting. |
| OperationOrder.SortKeepsNewestFirst | src/main/java/fr/jpa/bankaccount/account/AccountRepository.java:55 | Sorting a list that is already most recent first leaves it unchanged. |
| OperationOrder.SortIsIdempotent | src/main/java/fr/jpa/bankaccount/account/AccountRepository.java:55 | Sorting a sorted list changes nothing, so a second listing leaves the bucket as the first left it. |
| OperationOrder.StableNewestFirstIsUnique | src/main/java/fr/jpa/bankaccount/account/AccountRepository.java:55 | Two newest-first lists with the same operations of every date, in the same order, are equal. |
| OperationOrder.SortIsDeterminedByOrderAndStability | src/main/java/fr/jpa/bankaccount/account/AccountRepository.java:55 | Any newest-first list that keeps each date's operations in their stored order is exactly the sorted list: the order and stability together determine the listing. |
| Repository.BalanceAppend | src/main/java/fr/jpa/bankaccount/account/AccountRepository.java:84-91 | The balance of two runs of operations written one after another is the sum of their balances. |
| Repository.BalanceIgnoresOrder | src/main/java/fr/jpa/bankaccount/account/AccountRepository.java:84-91 | Any two orderings of the same operations (equal multisets) have the same balance. |
| Repository.SortedBalance | src/main/java/fr/jpa/bankaccount/account/AccountRepository.java:84-91 | Summing over the listed (sorted) operations gives the balance of the stored ones. |
| Repository.ListingExample | src/test/java/fr/jpa/bankaccount/account/AccountRepositoryTest.java:58-82 | Operations dated the 12th, 14th and 13th, stored in that order, are listed as the 14th, the 13th, the 12th. |
| Repository.BalanceExample | src/test/java/fr/jpa/bankaccount/account/AccountRepositoryTest.java:149-156 | The test ledger (deposit 12.50, withdrawal 6.00, deposit 50.75) balances to 57.25. |
| Repository.AfterListing | src/main/java/fr/jpa/bankaccount/account/AccountRepository.java:47-57 | After a listing every account keeps its operations (same keys, same multisets); the listed account's bucket is its sorted form and every other bucket is unchanged; an absent or unknown number changes nothing. |
| Repository.ListingKeepsFiled | src/main/java/fr/jpa/bankaccount/account/AccountRepository.java:47-57 | Listing preserves the store invariant that every operation in a bucket carries that bucket's account number. |
| Repository.ListingTwiceIsListingOnce | src/main/java/fr/jpa/bankaccount/account/AccountRepository.java:47-57 | Listing the same account twice leaves the store as listing it once. |
| Repository.AccountRepository.constructor | src/main/java/fr/jpa/bankaccount/account/AccountRepository.java:26-28 | A new repository has no accounts and satisfies the store invariant. |
| Repository.AccountRepository.List | src/main/java/fr/jpa/bankaccount/account/AccountRepository.java:47-57 | Returns the account's operations most recent first, as a permutation of the stored ones, with each date's operations in stored order; an absent number or an account without a bucket gives the empty list; the stored bucket is replaced by the sorted one and nothing else changes; the invariant is kept, and under it every listed operation carries the requested account number. |
| Repository.AccountRepository.Create | src/main/java/fr/jpa/bankaccount/account/AccountRepository.java:65-75 | An absent operation or account number changes nothing; otherwise the operation is appended at the end of its account's bucket (created empty if absent), that balance moves by credit − debit, no account disappears and every other bucket is unchanged; the invariant is kept. |
| Repository.AccountRepository.CalculateBalance | src/main/java/fr/jpa/bankaccount/account/AccountRepository.java:84-91 | The loop returns credit − debit summed over the account's stored operations, 0 when there are none; the store changes as after a listing. |
| Service.Validate | src/main/java/fr/jpa/bankaccount/account/AccountService.java:43-48 | A deposit or withdrawal passes exactly when the account number is present and the amount present and positive; an absent number is reported first, then a missing, zero or negative amount, each with its message. |
| Service.AccountService.constructor | src/main/java/fr/jpa/bankaccount/account/AccountService.java:29-32 | The service keeps the repository it is given. |
| Service.AccountService.DepositMoney | src/main/java/fr/jpa/bankaccount/account/AccountService.java:42-51 | On a validation error nothing changes and that error is returned; otherwise exactly one Deposit with the clock's instant, debit 0 and credit = amount is appended to the account's bucket and its balance rises by the amount. |
| Service.AccountService.WithdrawMoney | src/main/java/fr/jpa/bankaccount/account/AccountService.java:62-72 | On a validation error nothing changes; otherwise one Withdrawal (debit = amount, credit 0, the clock's instant) is recorded even if it overdraws, the bucket is left sorted, the balance falls by the amount, and the result is true exactly when that balance is not negative. |
| Service.AccountService.EstablishAccountStatement | src/main/java/fr/jpa/bankaccount/account/AccountService.java:81-85 | Without validating the number, the statement holds the account's operations most recent first and their balance (empty and 0 for an unknown account); the store changes as after a listing. |
| Statements.PadRight | src/main/java/fr/jpa/bankaccount/bean/AccountStatement.java:47 | `%-10s`: the text, then spaces up to the width; text already as wide is left as is. |
| Statements.PadLeft | src/main/java/fr/jpa/bankaccount/bean/AccountStatement.java:51-53 | `%6s`: spaces up to the width, then the text; text already as wide is left as is. |
| Statements.PrintLine | src/main/java/fr/jpa/bankaccount/bean/AccountStatement.java:47-54 | The pieces appended for one operation make up exactly that operation's statement line. |
| Statements.LineLayout | src/main/java/fr/jpa/bankaccount/bean/AccountStatement.java:47-54 | An operation line is the padded label, the date text, the padded credit and the padded debit, separated by a space, a vertical bar and a space, then CR LF, each cell at its stated position (the `Columns` predicate). |
| Statements.FirstLineExample | src/test/java/fr/jpa/bankaccount/bean/AccountStatementTest.java:44 | Given the test's date and amount texts, the deposit of 12.50 prints exactly as the test's first operation line: label "Deposit   ", date "12/03/18 10:30", credit " 12.50", debit "     0", then CR LF. |
| Statements.SecondLineExample | src/test/java/fr/jpa/bankaccount/bean/AccountStatementTest.java:45 | The withdrawal of 6.00 prints exactly as the test's second line; its 10-character label gets no padding and the debit pads to "  6.00". |
| Statements.ThirdLineExample | src/test/java/fr/jpa/bankaccount/bean/AccountStatementTest.java:46 | The deposit of 50.75 prints exactly as the test's third line. |
| Statements.PaddingExamples | src/test/java/fr/jpa/bankaccount/bean/AccountStatementTest.java:44-46 | The test's cells pad to "Deposit   ", "Withdrawal", " 12.50", " 50.75", "  6.00" and "     0". |
| Statements.ThreeLinePrint | src/main/java/fr/jpa/bankaccount/bean/AccountStatement.java:45-59 | A statement of three operations prints the header, the three operations' lines in the given order, a blank line, "Balance" and the balance text. |
| Statements.StatementExample | src/test/java/fr/jpa/bankaccount/bean/AccountStatementTest.java:30-50 | Given the formatter's texts for the test's dates and amounts, the statement of the three test operations with balance 57.25 prints exactly the test's expected seven lines, in the test's order. |
| Statements.OneLinePerOperation | src/main/java/fr/jpa/bankaccount/bean/AccountStatement.java:46-55 | There is exactly one line per operation, and the i-th line is the i-th operation's. |
| Statements.LinesAppend | src/main/java/fr/jpa/bankaccount/bean/AccountStatement.java:46-55 | The lines of consecutive runs of operations are those of each run in order: nothing is re-sorted. |
| Statements.PrintWithoutOperations | src/main/java/fr/jpa/bankaccount/bean/AccountStatement.java:45-59 | A statement without operations prints the header, a blank line, "Balance" and the balance text, all ended by CR LF. |
| Statements.PrintLayout | src/main/java/fr/jpa/bankaccount/bean/AccountStatement.java:45-59 | The print starts with the header line, then the operation lines, then a blank line, "Balance" and the balance text, each ended by CR LF. |
| Statements.AccountStatement.GetPrint | src/main/java/fr/jpa/bankaccount/bean/AccountStatement.java:40-61 | The string-builder loop produces exactly the statement's rendering `Print`. |
| Statements.GettersReturnConstructorArguments | src/main/java/fr/jpa/bankaccount/bean/AccountStatement.java:32-79 | `getOperations` and `getBalance` return the operations and the balance the statement was built from. |

## Left out

- Operations.GettersReturnConstructorArguments — the model's operation cannot hold a null type, date, debit or credit, whereas the Java constructor accepts them (src/main/java/fr/jpa/bankaccount/bean/Operation.java:44-50). In Java a null date throws in `list`'s sort once the bucket holds two or more operations (src/main/java/fr/jpa/bankaccount/account/AccountRepository.java:55), and always in `getPrint`'s date formatting (src/main/java/fr/jpa/bankaccount/bean/AccountStatement.java:49); a null type throws in `getPrint` (src/main/java/fr/jpa/bankaccount/bean/AccountStatement.java:47); a null debit or credit throws in `calculateBalance` (src/main/java/fr/jpa/bankaccount/account/AccountRepository.java:87-88), and printing one would give "  null".
- `DateProvider` (src/main/java/fr/jpa/bankaccount/date/DateProvider.java) has no implementation in the source. Its instant is the `now` parameter.
- The localized short date-time format (French locale, GMT+1) and `BigDecimal`'s `toString` are library code. They are the `dateText` and `amountText` parameters. The example lemmas take the texts they produce for the test's values as given.
- `BigDecimal` scale is not modelled. The scale-sensitive `equals` and text such as "6.00" against "6" are gone, because amounts are integers in minor units.
- The constructor `AccountRepository(Map)`, which adopts a caller's map, is not modelled. Neither is Java aliasing in general:
  - the unmodifiable list views returned by `list` and `getOperations`;
  - a statement's list being a view of the live bucket, so that later deposits show through it.

  Returned lists are value sequences.
- `AccountService.getAccountRepository` is not modelled. It is a plain accessor; the model reads the `accountRepository` field directly.
- The `OperationType` enum's source is not part of this model. Only its two cases are used, with the labels the statement test prints.
