/**
 * The order in which the ledger lists an account's operations: by operation
 * date, most recent first, sorted stably (operations with the same date keep
 * their relative order), as a stable sort with the reversed date comparator
 * produces it.
 */
module OperationOrder {
  import opened Operations

  /** The date of the `i`-th operation of `s`. */
  function DateAt(s: seq<Operation>, i: nat): Instant
    requires i < |s|
  {
    s[i].operationDate
  }

  /** No operation is older than any operation after it. */
  ghost predicate NewestFirst(s: seq<Operation>) {
    forall i, j | 0 <= i < j < |s| :: DateAt(s, i) >= DateAt(s, j)
  }

  /** The operations of `s` dated `d`, in their order in `s`. */
  function DatedAt(s: seq<Operation>, d: Instant): (r: seq<Operation>)
  {
    if s == [] then []
    else (if s[0].operationDate == d then [s[0]] else []) + DatedAt(s[1..], d)
  }

  /** The operations dated `d` are operations of `s`, and each is dated `d`. */
  lemma {:induction false} DatedAtMembers(s: seq<Operation>, d: Instant)
    ensures forall op | op in DatedAt(s, d) :: op in s && op.operationDate == d
  {
    if s != [] {
      DatedAtMembers(s[1..], d);
    }
  }

  /** Dropping the first operation leaves a newest-first sequence newest first. */
  lemma NewestFirstTail(s: seq<Operation>)
    requires s != []
    ensures NewestFirst(s) ==> NewestFirst(s[1..])
  {
    if NewestFirst(s) {
      forall i, j | 0 <= i < j < |s| - 1 ensures DateAt(s[1..], i) >= DateAt(s[1..], j) {
        assert DateAt(s, i + 1) >= DateAt(s, j + 1);
      }
    }
  }

  /** Places `x` before the first operation of `s` that is not newer than it. */
  function Insert(x: Operation, s: seq<Operation>): (r: seq<Operation>)
    ensures multiset(r) == multiset(s) + multiset{x}
    ensures NewestFirst(s) ==> NewestFirst(r)
  {
    if s == [] || x.operationDate >= s[0].operationDate then
      PrependNewest(x, s);
      [x] + s
    else
      var rest := Insert(x, s[1..]);
      NewestFirstTail(s);
      HeadStaysFirst(s, x, rest);
      assert s == [s[0]] + s[1..];
      [s[0]] + rest
  }

  /** Prepending an operation at least as new as the first keeps a sequence newest first. */
  lemma PrependNewest(x: Operation, s: seq<Operation>)
    requires s == [] || x.operationDate >= s[0].operationDate
    ensures NewestFirst(s) ==> NewestFirst([x] + s)
  {
    if NewestFirst(s) {
      forall i, j | 0 <= i < j < |[x] + s| ensures DateAt([x] + s, i) >= DateAt([x] + s, j) {
        if i > 0 {
          assert DateAt(s, i - 1) >= DateAt(s, j - 1);
        } else if j > 1 {
          assert DateAt(s, 0) >= DateAt(s, j - 1);
        }
      }
    }
  }

  /**
   * The newest operation of a newest-first sequence stays first when an older
   * operation is inserted after it.
   */
  lemma HeadStaysFirst(s: seq<Operation>, x: Operation, rest: seq<Operation>)
    requires s != [] && x.operationDate < s[0].operationDate
    requires multiset(rest) == multiset(s[1..]) + multiset{x}
    ensures NewestFirst(s) && NewestFirst(rest) ==> NewestFirst([s[0]] + rest)
  {
    if NewestFirst(s) && NewestFirst(rest) {
      forall j | 0 <= j < |rest| ensures s[0].operationDate >= rest[j].operationDate {
        assert rest[j] in multiset(rest);
        if rest[j] != x {
          assert rest[j] in multiset(s[1..]);
          var k :| 0 <= k < |s[1..]| && s[1..][k] == rest[j];
          assert DateAt(s, 0) >= DateAt(s, k + 1);
        }
      }
      forall i, j | 0 <= i < j < |[s[0]] + rest|
        ensures DateAt([s[0]] + rest, i) >= DateAt([s[0]] + rest, j)
      {
        if i > 0 {
          assert DateAt(rest, i - 1) >= DateAt(rest, j - 1);
        }
        assert ([s[0]] + rest)[j] == rest[j - 1];
      }
    }
  }

  /** Java's stable sort of a list by date, most recent first (an insertion sort). */
  function SortNewestFirst(s: seq<Operation>): (r: seq<Operation>)
    ensures NewestFirst(r)
    ensures multiset(r) == multiset(s)
  {
    if s == [] then []
    else
      assert s == [s[0]] + s[1..];
      Insert(s[0], SortNewestFirst(s[1..]))
  }

  /** The operations of `[a] + t` dated `d`: `a` if it is dated `d`, then those of `t`. */
  lemma DatedAtCons(a: Operation, t: seq<Operation>, d: Instant)
    ensures DatedAt([a] + t, d) == (if a.operationDate == d then [a] else []) + DatedAt(t, d)
  {
    assert ([a] + t)[1..] == t;
  }

  /**
   * Inserting `x` adds it to the operations of its date, ahead of them, and
   * leaves the order of every date's operations as it was: the insertion only
   * passes over operations newer than `x`.
   */
  lemma {:induction false} InsertKeepsDateGroups(x: Operation, s: seq<Operation>, d: Instant)
    ensures DatedAt(Insert(x, s), d) == (if x.operationDate == d then [x] else []) + DatedAt(s, d)
  {
    var mine := if x.operationDate == d then [x] else [];
    if s == [] || x.operationDate >= s[0].operationDate {
      assert Insert(x, s) == [x] + s;
      DatedAtCons(x, s, d);
    } else {
      var inserted := Insert(x, s[1..]);
      var own := if s[0].operationDate == d then [s[0]] else [];
      var tail := DatedAt(s[1..], d);
      assert Insert(x, s) == [s[0]] + inserted;
      assert DatedAt(s, d) == own + tail;
      assert DatedAt(inserted, d) == mine + tail by {
        InsertKeepsDateGroups(x, s[1..], d);
      }
      assert DatedAt(Insert(x, s), d) == own + (mine + tail) by {
        DatedAtCons(s[0], inserted, d);
      }
      assert own == [] || mine == [];
      SwapEmpty(own, mine, tail);
    }
  }

  /** Of two prefixes at most one of which is not empty, the order does not matter. */
  lemma SwapEmpty(a: seq<Operation>, b: seq<Operation>, c: seq<Operation>)
    requires a == [] || b == []
    ensures a + (b + c) == b + (a + c)
  {
    if a == [] {
      assert a + (b + c) == b + c == b + (a + c);
    } else {
      assert a + (b + c) == a + c == b + (a + c);
    }
  }

  /** The sort is stable: for every date, the operations of that date keep their relative order. */
  lemma {:induction false} SortIsStable(s: seq<Operation>, d: Instant)
    ensures DatedAt(SortNewestFirst(s), d) == DatedAt(s, d)
  {
    if s != [] {
      SortIsStable(s[1..], d);
      InsertKeepsDateGroups(s[0], SortNewestFirst(s[1..]), d);
    }
  }

  /** Sorting a sequence that is already newest first leaves it as it is. */
  lemma {:induction false} SortKeepsNewestFirst(s: seq<Operation>)
    requires NewestFirst(s)
    ensures SortNewestFirst(s) == s
  {
    if s != [] {
      NewestFirstTail(s);
      SortKeepsNewestFirst(s[1..]);
      if |s| > 1 {
        assert DateAt(s, 0) >= DateAt(s, 1);
      }
      assert s == [s[0]] + s[1..];
    }
  }

  /** Sorting twice is sorting once. */
  lemma SortIsIdempotent(s: seq<Operation>)
    ensures SortNewestFirst(SortNewestFirst(s)) == SortNewestFirst(s)
  {
    SortKeepsNewestFirst(SortNewestFirst(s));
  }

  /** The first operation of a newest-first sequence is at least as new as any of its operations. */
  lemma FirstIsNewest(s: seq<Operation>, op: Operation)
    requires NewestFirst(s) && op in s
    ensures s[0].operationDate >= op.operationDate
  {
    var i :| 0 <= i < |s| && s[i] == op;
    if i > 0 {
      assert DateAt(s, 0) >= DateAt(s, i);
    }
  }

  /** The first operation of a non-empty sequence comes first among those of its own date. */
  lemma FirstOfItsDate(s: seq<Operation>)
    requires s != []
    ensures DatedAt(s, s[0].operationDate) != []
    ensures DatedAt(s, s[0].operationDate)[0] == s[0]
  {
    DatedAtCons(s[0], s[1..], s[0].operationDate);
    assert s == [s[0]] + s[1..];
  }

  /**
   * Newest-first order and the per-date order together determine a sequence:
   * two newest-first sequences with the same operations of every date are equal.
   */
  lemma {:induction false} StableNewestFirstIsUnique(r: seq<Operation>, t: seq<Operation>)
    requires NewestFirst(r) && NewestFirst(t)
    requires forall d :: DatedAt(r, d) == DatedAt(t, d)
    ensures r == t
  {
    if r != [] {
      var top := r[0].operationDate;
      FirstOfItsDate(r);
      assert DatedAt(t, top) == DatedAt(r, top);
      assert t != [];
      var first := t[0].operationDate;
      FirstOfItsDate(t);
      assert DatedAt(r, first) == DatedAt(t, first);
      DatedAtMembers(t, top);
      DatedAtMembers(r, first);
      FirstIsNewest(t, r[0]);
      FirstIsNewest(r, t[0]);
      assert r[0] == t[0];
      forall d ensures DatedAt(r[1..], d) == DatedAt(t[1..], d) {
        DatedAtCons(r[0], r[1..], d);
        DatedAtCons(t[0], t[1..], d);
        assert r == [r[0]] + r[1..];
        assert t == [t[0]] + t[1..];
        var head := if r[0].operationDate == d then [r[0]] else [];
        assert DatedAt(r[1..], d) == DatedAt(r, d)[|head|..];
        assert DatedAt(t[1..], d) == DatedAt(t, d)[|head|..];
      }
      NewestFirstTail(r);
      NewestFirstTail(t);
      StableNewestFirstIsUnique(r[1..], t[1..]);
      assert r == [r[0]] + r[1..];
      assert t == [t[0]] + t[1..];
    }
  }

  /**
   * The sort is characterised by its two properties: any newest-first sequence
   * that keeps every date's operations of `s` in their order is the sorted form of `s`.
   */
  lemma SortIsDeterminedByOrderAndStability(s: seq<Operation>, r: seq<Operation>)
    requires NewestFirst(r)
    requires forall d :: DatedAt(r, d) == DatedAt(s, d)
    ensures r == SortNewestFirst(s)
  {
    forall d ensures DatedAt(r, d) == DatedAt(SortNewestFirst(s), d) {
      SortIsStable(s, d);
    }
    StableNewestFirstIsUnique(r, SortNewestFirst(s));
  }
}
