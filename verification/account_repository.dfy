/**
 * In-memory storage of the bank accounts: a mutable map from account number
 * to the list ("bucket") of that account's operations.
 */
module Repository {
  import opened Wrappers
  import opened Operations
  import opened OperationOrder

  /** The balance of a sequence of operations: credit − debit summed from zero. */
  function Balance(ops: seq<Operation>): Amount
  {
    if ops == [] then 0
    else Balance(ops[..|ops| - 1]) + ops[|ops| - 1].credit - ops[|ops| - 1].debit
  }

  /** The balance of a concatenation is the sum of the balances. */
  lemma {:induction false} BalanceAppend(a: seq<Operation>, b: seq<Operation>)
    ensures Balance(a + b) == Balance(a) + Balance(b)
  {
    if b != [] {
      var last := b[|b| - 1];
      assert (a + b)[..|a + b| - 1] == a + b[..|b| - 1];
      BalanceAppend(a, b[..|b| - 1]);
    } else {
      assert a + b == a;
    }
  }

  /** Extending a prefix by one operation adds its credit − debit to the balance. */
  lemma BalanceStep(ops: seq<Operation>, i: nat)
    requires i < |ops|
    ensures Balance(ops[..i + 1]) == Balance(ops[..i]) + ops[i].credit - ops[i].debit
  {
    assert ops[..i + 1][..i] == ops[..i];
  }

  /** The balance of one operation is its credit − debit. */
  lemma BalanceOfOne(op: Operation)
    ensures Balance([op]) == op.credit - op.debit
  {
    assert [op][..0] == [];
  }

  /** An operation between two runs of operations adds its credit − debit to their balance. */
  lemma BalanceAround(left: seq<Operation>, op: Operation, right: seq<Operation>)
    ensures Balance(left + [op] + right) == Balance(left + right) + op.credit - op.debit
  {
    BalanceAppend(left + [op], right);
    BalanceAppend(left, [op]);
    BalanceOfOne(op);
    BalanceAppend(left, right);
  }

  /** Taking out the operation at `j` takes its credit − debit out of the balance. */
  lemma BalanceWithout(b: seq<Operation>, j: nat)
    requires j < |b|
    ensures Balance(b) == Balance(b[..j] + b[j + 1..]) + b[j].credit - b[j].debit
  {
    SplitAt(b, j);
    BalanceAround(b[..j], b[j], b[j + 1..]);
  }

  /** A sequence is what comes before position `j`, the element at `j`, and what comes after. */
  lemma SplitAt(b: seq<Operation>, j: nat)
    requires j < |b|
    ensures b == b[..j] + [b[j]] + b[j + 1..]
  {
  }

  /** Taking the last operation of `a` out of `a`, and one equal to it out of `b`, keeps them permutations. */
  lemma RemoveMatching(a: seq<Operation>, b: seq<Operation>, j: nat)
    requires multiset(a) == multiset(b)
    requires a != [] && j < |b| && b[j] == a[|a| - 1]
    ensures multiset(a[..|a| - 1]) == multiset(b[..j] + b[j + 1..])
  {
    assert a == a[..|a| - 1] + [a[|a| - 1]];
    assert b == b[..j] + [b[j]] + b[j + 1..];
    assert multiset(b[..j] + b[j + 1..]) == multiset(b) - multiset{b[j]};
    assert multiset(a[..|a| - 1]) == multiset(a) - multiset{b[j]};
  }

  /** The balance does not depend on the order of the operations. */
  lemma {:induction false} BalanceIgnoresOrder(a: seq<Operation>, b: seq<Operation>)
    requires multiset(a) == multiset(b)
    ensures Balance(a) == Balance(b)
  {
    if a != [] {
      assert a[|a| - 1] in multiset(b) by {
        assert a[|a| - 1] in multiset(a);
      }
      var j :| 0 <= j < |b| && b[j] == a[|a| - 1];
      RemoveMatching(a, b, j);
      BalanceIgnoresOrder(a[..|a| - 1], b[..j] + b[j + 1..]);
      BalanceWithout(b, j);
    } else {
      assert multiset(b) == multiset{};
    }
  }

  /** The balance of the operations in the order the ledger lists them is their balance. */
  lemma SortedBalance(ops: seq<Operation>)
    ensures Balance(SortNewestFirst(ops)) == Balance(ops)
  {
    BalanceIgnoresOrder(SortNewestFirst(ops), ops);
  }

  /**
   * The ledger of the repository's tests: operations of the 12th, 14th and 13th,
   * stored in that order, are listed most recent first (dates in days).
   */
  lemma ListingExample(d12: Operation, w14: Operation, d13: Operation)
    requires d12.operationDate == 12 && w14.operationDate == 14 && d13.operationDate == 13
    ensures SortNewestFirst([d12, w14, d13]) == [w14, d13, d12]
  {
    assert [d12, w14, d13][1..] == [w14, d13];
    assert [w14, d13][1..] == [d13];
    assert SortNewestFirst([d13]) == [d13];
    assert SortNewestFirst([w14, d13]) == Insert(w14, [d13]) == [w14, d13];
    assert Insert(d12, [d13]) == [d13, d12];
    assert SortNewestFirst([d12, w14, d13]) == Insert(d12, [w14, d13]) == [w14] + Insert(d12, [d13]);
  }

  /**
   * The ledger of the repository's tests, a deposit of 12.50, a withdrawal of
   * 6.00 and a deposit of 50.75, balances to 57.25 (amounts in cents).
   */
  lemma BalanceExample()
    ensures var d12 := Operation(Some("12345"), Deposit, 12, 0, 1250);
      var w14 := Operation(Some("12345"), Withdrawal, 14, 600, 0);
      var d13 := Operation(Some("12345"), Deposit, 13, 0, 5075);
      Balance([d12, w14, d13]) == 5725
  {
    var stored := [
      Operation(Some("12345"), Deposit, 12, 0, 1250),
      Operation(Some("12345"), Withdrawal, 14, 600, 0),
      Operation(Some("12345"), Deposit, 13, 0, 5075)];
    BalanceStep(stored, 0);
    BalanceStep(stored, 1);
    BalanceStep(stored, 2);
    assert stored[..0] == [] && stored[..3] == stored;
  }

  /** Every operation stored under an account number carries that account number. */
  ghost predicate Filed(accounts: map<string, seq<Operation>>) {
    forall k | k in accounts :: forall op | op in accounts[k] :: op.accountNumber == Some(k)
  }

  /**
   * The store after a listing of `accountNumber`: the listing sorts the stored
   * bucket in place, newest first, and touches nothing else.
   */
  function AfterListing(accounts: map<string, seq<Operation>>, accountNumber: Option<string>)
    : (after: map<string, seq<Operation>>)
    ensures after.Keys == accounts.Keys
    ensures forall k | k in accounts :: multiset(after[k]) == multiset(accounts[k])
    ensures forall k | k in accounts && Some(k) != accountNumber :: after[k] == accounts[k]
    ensures forall k | k in accounts && Some(k) == accountNumber :: after[k] == SortNewestFirst(accounts[k])
  {
    if accountNumber.Some? && accountNumber.value in accounts then
      accounts[accountNumber.value := SortNewestFirst(accounts[accountNumber.value])]
    else accounts
  }

  /** Listing keeps every operation filed under its own account number. */
  lemma ListingKeepsFiled(accounts: map<string, seq<Operation>>, accountNumber: Option<string>)
    requires Filed(accounts)
    ensures Filed(AfterListing(accounts, accountNumber))
  {
    var after := AfterListing(accounts, accountNumber);
    forall k: string, op: Operation | k in after && op in after[k] ensures op.accountNumber == Some(k) {
      assert op in multiset(after[k]);
      assert op in accounts[k];
    }
  }

  /** Listing the same account twice leaves the store as listing it once. */
  lemma ListingTwiceIsListingOnce(accounts: map<string, seq<Operation>>, accountNumber: Option<string>)
    ensures AfterListing(AfterListing(accounts, accountNumber), accountNumber) == AfterListing(accounts, accountNumber)
  {
    if accountNumber.Some? && accountNumber.value in accounts {
      SortIsIdempotent(accounts[accountNumber.value]);
    }
  }

  class AccountRepository {
    /** Each account number's bucket of operations, in stored order. */
    var accounts: map<string, seq<Operation>>

    /** The bucket of an account number; an account without one has no operations. */
    function Bucket(accountNumber: string): seq<Operation>
      reads this
    {
      if accountNumber in accounts then accounts[accountNumber] else []
    }

    /** The operations of `accountNumber`, where an absent number has none. */
    function Stored(accountNumber: Option<string>): seq<Operation>
      reads this
    {
      if accountNumber.Some? then Bucket(accountNumber.value) else []
    }

    ghost predicate Valid()
      reads this
    {
      Filed(accounts)
    }

    constructor ()
      ensures accounts == map[]
      ensures Valid()
    {
      accounts := map[];
    }

    /**
     * Lists the operations of an account, most recent first. Sorts the stored
     * bucket in place, so the listing changes the store's order.
     */
    method List(accountNumber: Option<string>) returns (ops: seq<Operation>)
      modifies this
      ensures ops == SortNewestFirst(old(Stored(accountNumber)))
      ensures accountNumber.None? || accountNumber.value !in old(accounts) ==> ops == []
      ensures NewestFirst(ops) && multiset(ops) == multiset(old(Stored(accountNumber)))
      ensures forall d :: DatedAt(ops, d) == DatedAt(old(Stored(accountNumber)), d)
      ensures accounts == AfterListing(old(accounts), accountNumber)
      ensures old(Valid()) ==> Valid()
      ensures old(Valid()) ==> forall op | op in ops :: op.accountNumber == accountNumber
    {
      var bucket: Option<seq<Operation>> := None;
      if accountNumber.Some? && accountNumber.value in accounts {
        bucket := Some(accounts[accountNumber.value]);
      }
      if bucket.None? {
        ops := SortNewestFirst([]);
      } else {
        ops := SortNewestFirst(bucket.value);
        accounts := accounts[accountNumber.value := ops];
      }
      forall d ensures DatedAt(ops, d) == DatedAt(old(Stored(accountNumber)), d) {
        SortIsStable(old(Stored(accountNumber)), d);
      }
      if old(Valid()) {
        ListingKeepsFiled(old(accounts), accountNumber);
        forall op | op in ops ensures op.accountNumber == accountNumber {
          assert op in multiset(ops);
          assert op in old(Stored(accountNumber));
        }
      }
    }

    /**
     * Appends an operation at the end of its account's bucket, creating the
     * bucket when absent. An absent operation, or one without an account
     * number, is ignored.
     */
    method Create(operation: Option<Operation>)
      modifies this
      ensures operation.None? || operation.value.accountNumber.None? ==> accounts == old(accounts)
      ensures operation.Some? && operation.value.accountNumber.Some? ==>
        var k := operation.value.accountNumber.value;
        && accounts == old(accounts)[k := old(Bucket(k)) + [operation.value]]
        && Balance(Bucket(k)) == old(Balance(Bucket(k))) + operation.value.credit - operation.value.debit
      ensures forall k | k in old(accounts) :: k in accounts
      ensures forall k | Some(k) != (if operation.Some? then operation.value.accountNumber else None) ::
        Bucket(k) == old(Bucket(k))
      ensures old(Valid()) ==> Valid()
    {
      if operation.None? || operation.value.accountNumber.None? {
        return;
      }
      var k := operation.value.accountNumber.value;
      var operations := if k in accounts then accounts[k] else [];
      accounts := accounts[k := operations + [operation.value]];
      assert (operations + [operation.value])[..|operations|] == operations;
    }

    /**
     * The balance of an account: credit − debit summed over its operations,
     * zero for an absent number or an account without operations. Reads the
     * operations through List, which sorts the stored bucket.
     */
    method CalculateBalance(accountNumber: Option<string>) returns (balance: Amount)
      modifies this
      ensures balance == Balance(old(Stored(accountNumber)))
      ensures old(Stored(accountNumber)) == [] ==> balance == 0
      ensures accounts == AfterListing(old(accounts), accountNumber)
      ensures old(Valid()) ==> Valid()
    {
      var ops := List(accountNumber);
      balance := 0;
      for i := 0 to |ops|
        invariant balance == Balance(ops[..i])
        modifies {}
      {
        BalanceStep(ops, i);
        balance := balance + ops[i].credit;
        balance := balance - ops[i].debit;
      }
      assert ops[..|ops|] == ops;
      SortedBalance(old(Stored(accountNumber)));
    }
  }
}
