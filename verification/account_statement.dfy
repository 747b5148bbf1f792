/**
 * The account statement: an immutable pair of operations and balance, and its
 * fixed-width text rendering with CR LF line ends. Rendering an instant as a
 * short French date-time at GMT+1, and an amount as decimal text, are library
 * conversions outside this model: they are passed in as functions.
 */
module Statements {
  import opened Wrappers
  import opened Operations

  const CrLf := "\r\n"

  /** The first line of every printed statement. */
  const Header := "Operation  | Date           | Credit | Debit" + CrLf

  /** `n` spaces. */
  function Spaces(n: nat): (r: string)
    ensures |r| == n
    ensures forall i | 0 <= i < n :: r[i] == ' '
  {
    if n == 0 then "" else Spaces(n - 1) + " "
  }

  /** `s` followed by spaces up to `width` characters (a left-justified field). */
  function PadRight(s: string, width: nat): (r: string)
    ensures |r| == if |s| < width then width else |s|
    ensures r[..|s|] == s
    ensures forall i | |s| <= i < |r| :: r[i] == ' '
  {
    if |s| < width then s + Spaces(width - |s|) else s
  }

  /** `s` preceded by spaces up to `width` characters (a right-justified field). */
  function PadLeft(s: string, width: nat): (r: string)
    ensures |r| == if |s| < width then width else |s|
    ensures r[|r| - |s|..] == s
    ensures forall i | 0 <= i < |r| - |s| :: r[i] == ' '
  {
    if |s| < width then Spaces(width - |s|) + s else s
  }

  /** A statement row: the four texts in fixed-width columns separated by " | ". */
  function Row(kind: string, date: string, credit: string, debit: string): string
  {
    PadRight(kind, 10) + " | " + date + " | " + PadLeft(credit, 6) + " | " + PadLeft(debit, 6) + CrLf
  }

  /** The printed line of one operation: kind, date, credit, debit. */
  function Line(op: Operation, dateText: Instant -> string, amountText: Amount -> string): string
  {
    Row(op.operationType.Label(), dateText(op.operationDate), amountText(op.credit), amountText(op.debit))
  }

  /**
   * `Line` with the two renderings fixed, as a function of the operation alone:
   * the form `Lines` maps over the operations, and the one GetPrint's loop
   * invariant names once for the whole loop.
   */
  function LinePrinter(dateText: Instant -> string, amountText: Amount -> string): Operation -> string
  {
    op => Line(op, dateText, amountText)
  }

  /** The end of every statement: a blank line, "Balance", then the balance text. */
  function Footer(balanceText: string): string
  {
    CrLf + "Balance" + CrLf + balanceText + CrLf
  }

  /** Builds the line of one operation piece by piece, as a string builder would. */
  method PrintLine(op: Operation, dateText: Instant -> string, amountText: Amount -> string) returns (line: string)
    ensures line == LinePrinter(dateText, amountText)(op)
  {
    line := PadRight(op.operationType.Label(), 10);
    line := line + " | ";
    line := line + dateText(op.operationDate);
    line := line + " | ";
    line := line + PadLeft(amountText(op.credit), 6);
    line := line + " | ";
    line := line + PadLeft(amountText(op.debit), 6);
    line := line + CrLf;
  }

  /** The printed lines of `ops`: one per operation, in the order given. */
  function Lines(ops: seq<Operation>, line: Operation -> string): (lines: seq<string>)
  {
    if ops == [] then []
    else Lines(ops[..|ops| - 1], line) + [line(ops[|ops| - 1])]
  }

  /** The lines written one after another. */
  function Join(lines: seq<string>): string
  {
    if lines == [] then "" else Join(lines[..|lines| - 1]) + lines[|lines| - 1]
  }

  datatype AccountStatement = AccountStatement(operations: seq<Operation>, balance: Amount) {

    /** The whole printed statement. */
    function Print(dateText: Instant -> string, amountText: Amount -> string): string
    {
      Header + Join(Lines(operations, LinePrinter(dateText, amountText))) + Footer(amountText(balance))
    }

    /** Builds the printed statement piece by piece, as a string builder would. */
    method GetPrint(dateText: Instant -> string, amountText: Amount -> string) returns (printed: string)
      ensures printed == Print(dateText, amountText)
    {
      ghost var render := LinePrinter(dateText, amountText);
      printed := Header;
      for i := 0 to |operations|
        invariant printed == Header + Join(Lines(operations[..i], render))
      {
        var line := PrintLine(operations[i], dateText, amountText);
        ghost var done := Lines(operations[..i], render);
        LinesStep(operations, i, render);
        JoinStep(done, line);
        Associative(Header, Join(done), line);
        printed := printed + line;
      }
      ghost var body := Join(Lines(operations, render));
      assert printed == Header + body by {
        assert operations[..|operations|] == operations;
      }
      Regroup(printed, CrLf, "Balance", CrLf, amountText(balance), CrLf);
      printed := printed + CrLf;
      printed := printed + "Balance" + CrLf;
      printed := printed + amountText(balance);
      printed := printed + CrLf;
      assert printed == Header + body + Footer(amountText(balance));
    }
  }

  /** The getters return exactly what the statement was built from. */
  lemma GettersReturnConstructorArguments(operations: seq<Operation>, balance: Amount)
    ensures AccountStatement(operations, balance).operations == operations
    ensures AccountStatement(operations, balance).balance == balance
  {
  }

  /** There is one line per operation, and the i-th line is the i-th operation's. */
  lemma {:induction false} OneLinePerOperation(ops: seq<Operation>, line: Operation -> string)
    ensures |Lines(ops, line)| == |ops|
    ensures forall i | 0 <= i < |ops| :: Lines(ops, line)[i] == line(ops[i])
  {
    if ops != [] {
      OneLinePerOperation(ops[..|ops| - 1], line);
    }
  }

  /** The lines of a prefix one operation longer end with that operation's line. */
  lemma LinesStep(ops: seq<Operation>, i: nat, line: Operation -> string)
    requires i < |ops|
    ensures Lines(ops[..i + 1], line) == Lines(ops[..i], line) + [line(ops[i])]
  {
    assert ops[..i + 1][..i] == ops[..i];
  }

  /** Joining one more line writes it after the others. */
  lemma JoinStep(lines: seq<string>, last: string)
    ensures Join(lines + [last]) == Join(lines) + last
  {
    assert (lines + [last])[..|lines|] == lines;
  }

  /** Joining a concatenation writes the first part, then the second. */
  lemma {:induction false} JoinAppend(a: seq<string>, b: seq<string>)
    ensures Join(a + b) == Join(a) + Join(b)
  {
    if b == [] {
      assert a + b == a;
    } else {
      assert (a + b)[..|a + b| - 1] == a + b[..|b| - 1];
      JoinAppend(a, b[..|b| - 1]);
    }
  }

  /** The lines of consecutive operations are the lines of each part, in order: nothing is re-sorted. */
  lemma LinesAppend(a: seq<Operation>, b: seq<Operation>, line: Operation -> string)
    ensures Join(Lines(a + b, line)) == Join(Lines(a, line)) + Join(Lines(b, line))
  {
    OneLinePerOperation(a + b, line);
    OneLinePerOperation(a, line);
    OneLinePerOperation(b, line);
    assert Lines(a + b, line) == Lines(a, line) + Lines(b, line);
    JoinAppend(Lines(a, line), Lines(b, line));
  }

  /**
   * `row` holds the cells `a`, `b`, `c` and `d` one after another, separated by
   * " | " and ended by CR LF.
   */
  ghost predicate Columns(row: string, a: string, b: string, c: string, d: string) {
    && |row| == |a| + |b| + |c| + |d| + 11
    && row[..|a|] == a
    && row[|a|..|a| + 3] == " | "
    && row[|a| + 3..|a| + 3 + |b|] == b
    && row[|a| + 3 + |b|..|a| + 6 + |b|] == " | "
    && row[|a| + 6 + |b|..|a| + 6 + |b| + |c|] == c
    && row[|a| + 6 + |b| + |c|..|a| + 9 + |b| + |c|] == " | "
    && row[|a| + 9 + |b| + |c|..|row| - 2] == d
    && row[|row| - 2..] == CrLf
  }

  /**
   * The columns of an operation line: the kind left-justified in 10 characters,
   * the date text, the credit and the debit each right-justified in 6
   * characters, separated by " | " and ended by CR LF. How each cell is
   * justified is stated by PadRight and PadLeft.
   */
  lemma LineLayout(kind: string, date: string, credit: string, debit: string)
    ensures Columns(Row(kind, date, credit, debit), PadRight(kind, 10), date, PadLeft(credit, 6), PadLeft(debit, 6))
  {
    CellLayout(Row(kind, date, credit, debit), PadRight(kind, 10), date, PadLeft(credit, 6), PadLeft(debit, 6));
  }

  /** Cells written one after another, separated by " | " and ended by CR LF, form columns. */
  lemma CellLayout(row: string, a: string, b: string, c: string, d: string)
    requires row == a + " | " + b + " | " + c + " | " + d + CrLf
    ensures Columns(row, a, b, c, d)
  {
  }

  /**
   * The statement test's ledger: a deposit of 12.50 at 2018-03-12T09:30Z, a
   * withdrawal of 6.00 at 2018-03-14T14:17Z and a deposit of 50.75 at
   * 2018-03-13T18:20Z (instants in seconds since the epoch, amounts in cents).
   */
  const TestDeposit12 := Operation(Some("12345"), Deposit, 1520847000, 0, 1250)
  const TestWithdrawal14 := Operation(Some("12345"), Withdrawal, 1521037020, 600, 0)
  const TestDeposit13 := Operation(Some("12345"), Deposit, 1520965200, 0, 5075)

  /** The texts the French short formatter at GMT+1 gives for the test's dates. */
  ghost predicate TestDateTexts(dateText: Instant -> string) {
    && dateText(TestDeposit12.operationDate) == "12/03/18 10:30"
    && dateText(TestWithdrawal14.operationDate) == "14/03/18 15:17"
    && dateText(TestDeposit13.operationDate) == "13/03/18 19:20"
  }

  /** The texts BigDecimal gives for the test's amounts and balance. */
  ghost predicate TestAmountTexts(amountText: Amount -> string) {
    && amountText(0) == "0"
    && amountText(600) == "6.00"
    && amountText(1250) == "12.50"
    && amountText(5075) == "50.75"
    && amountText(5725) == "57.25"
  }

  /** The first line of the statement test: a deposit of 12.50. */
  lemma FirstLineExample(dateText: Instant -> string, amountText: Amount -> string)
    requires TestDateTexts(dateText) && TestAmountTexts(amountText)
    ensures Line(TestDeposit12, dateText, amountText) == "Deposit    | 12/03/18 10:30 |  12.50 |      0\r\n"
  {
    PaddingExamples();
    FirstLineText();
  }

  /** The cells of the first line, written one after another, spell out that line. */
  lemma FirstLineText()
    ensures "Deposit   " + " | " + "12/03/18 10:30" + " | " + " 12.50" + " | " + "     0" + "\r\n"
      == "Deposit    | 12/03/18 10:30 |  12.50 |      0\r\n"
  {
    assert "Deposit   " + " | " == "Deposit    | ";
    assert "Deposit    | " + "12/03/18 10:30" == "Deposit    | 12/03/18 10:30";
    assert "Deposit    | 12/03/18 10:30" + " | " == "Deposit    | 12/03/18 10:30 | ";
    assert "Deposit    | 12/03/18 10:30 | " + " 12.50" == "Deposit    | 12/03/18 10:30 |  12.50";
    assert "Deposit    | 12/03/18 10:30 |  12.50" + " | " == "Deposit    | 12/03/18 10:30 |  12.50 | ";
    assert "Deposit    | 12/03/18 10:30 |  12.50 | " + "     0" == "Deposit    | 12/03/18 10:30 |  12.50 |      0";
  }

  /** The second line: a withdrawal of 6.00, whose 10-character label needs no padding. */
  lemma SecondLineExample(dateText: Instant -> string, amountText: Amount -> string)
    requires TestDateTexts(dateText) && TestAmountTexts(amountText)
    ensures Line(TestWithdrawal14, dateText, amountText) == "Withdrawal | 14/03/18 15:17 |      0 |   6.00\r\n"
  {
    PaddingExamples();
    SecondLineText();
  }

  /** The cells of the second line, written one after another, spell out that line. */
  lemma SecondLineText()
    ensures "Withdrawal" + " | " + "14/03/18 15:17" + " | " + "     0" + " | " + "  6.00" + "\r\n"
      == "Withdrawal | 14/03/18 15:17 |      0 |   6.00\r\n"
  {
    assert "Withdrawal" + " | " == "Withdrawal | ";
    assert "Withdrawal | " + "14/03/18 15:17" == "Withdrawal | 14/03/18 15:17";
    assert "Withdrawal | 14/03/18 15:17" + " | " == "Withdrawal | 14/03/18 15:17 | ";
    assert "Withdrawal | 14/03/18 15:17 | " + "     0" == "Withdrawal | 14/03/18 15:17 |      0";
    assert "Withdrawal | 14/03/18 15:17 |      0" + " | " == "Withdrawal | 14/03/18 15:17 |      0 | ";
    assert "Withdrawal | 14/03/18 15:17 |      0 | " + "  6.00" == "Withdrawal | 14/03/18 15:17 |      0 |   6.00";
  }

  /** The third line: a deposit of 50.75. */
  lemma ThirdLineExample(dateText: Instant -> string, amountText: Amount -> string)
    requires TestDateTexts(dateText) && TestAmountTexts(amountText)
    ensures Line(TestDeposit13, dateText, amountText) == "Deposit    | 13/03/18 19:20 |  50.75 |      0\r\n"
  {
    PaddingExamples();
    ThirdLineText();
  }

  /** The cells of the third line, written one after another, spell out that line. */
  lemma ThirdLineText()
    ensures "Deposit   " + " | " + "13/03/18 19:20" + " | " + " 50.75" + " | " + "     0" + "\r\n"
      == "Deposit    | 13/03/18 19:20 |  50.75 |      0\r\n"
  {
    assert "Deposit   " + " | " == "Deposit    | ";
    assert "Deposit    | " + "13/03/18 19:20" == "Deposit    | 13/03/18 19:20";
    assert "Deposit    | 13/03/18 19:20" + " | " == "Deposit    | 13/03/18 19:20 | ";
    assert "Deposit    | 13/03/18 19:20 | " + " 50.75" == "Deposit    | 13/03/18 19:20 |  50.75";
    assert "Deposit    | 13/03/18 19:20 |  50.75" + " | " == "Deposit    | 13/03/18 19:20 |  50.75 | ";
    assert "Deposit    | 13/03/18 19:20 |  50.75 | " + "     0" == "Deposit    | 13/03/18 19:20 |  50.75 |      0";
  }

  /** The padded cells of the statement test. */
  lemma PaddingExamples()
    ensures PadRight("Deposit", 10) == "Deposit   "
    ensures PadRight("Withdrawal", 10) == "Withdrawal"
    ensures PadLeft("12.50", 6) == " 12.50"
    ensures PadLeft("50.75", 6) == " 50.75"
    ensures PadLeft("6.00", 6) == "  6.00"
    ensures PadLeft("0", 6) == "     0"
  {
    assert Spaces(1) == " ";
    assert Spaces(2) == "  " by {
      assert Spaces(1) == " ";
    }
    assert Spaces(3) == "   " by {
      assert Spaces(2) == "  ";
    }
    assert Spaces(4) == "    " by {
      assert Spaces(3) == "   ";
    }
    assert Spaces(5) == "     " by {
      assert Spaces(4) == "    ";
    }
  }

  /**
   * The statement test: the three operations, in the order given, with a
   * balance of 57.25, print as the header, one line each, a blank line,
   * "Balance" and "57.25".
   */
  lemma StatementExample(dateText: Instant -> string, amountText: Amount -> string)
    requires TestDateTexts(dateText) && TestAmountTexts(amountText)
    ensures AccountStatement([TestDeposit12, TestWithdrawal14, TestDeposit13], 5725).Print(dateText, amountText)
      == "Operation  | Date           | Credit | Debit\r\n"
       + "Deposit    | 12/03/18 10:30 |  12.50 |      0\r\n"
       + "Withdrawal | 14/03/18 15:17 |      0 |   6.00\r\n"
       + "Deposit    | 13/03/18 19:20 |  50.75 |      0\r\n"
       + "\r\n"
       + "Balance\r\n"
       + "57.25\r\n"
  {
    FirstLineExample(dateText, amountText);
    SecondLineExample(dateText, amountText);
    ThirdLineExample(dateText, amountText);
    ThreeLinePrint(AccountStatement([TestDeposit12, TestWithdrawal14, TestDeposit13], 5725), dateText, amountText);
    assert Header == "Operation  | Date           | Credit | Debit\r\n";
    assert "Balance" + CrLf == "Balance\r\n";
    assert "57.25" + CrLf == "57.25\r\n";
  }

  /** A statement of three operations prints the header, their three lines in order, then the footer. */
  lemma ThreeLinePrint(statement: AccountStatement, dateText: Instant -> string, amountText: Amount -> string)
    requires |statement.operations| == 3
    ensures var ops, render := statement.operations, LinePrinter(dateText, amountText);
      statement.Print(dateText, amountText)
        == Header + render(ops[0]) + render(ops[1]) + render(ops[2])
         + CrLf + ("Balance" + CrLf) + (amountText(statement.balance) + CrLf)
  {
    var ops, render := statement.operations, LinePrinter(dateText, amountText);
    assert ops == [ops[0]] + [ops[1]] + [ops[2]];
    LinesAppend([ops[0]] + [ops[1]], [ops[2]], render);
    LinesAppend([ops[0]], [ops[1]], render);
    OneLine(ops[0], render);
    OneLine(ops[1], render);
    OneLine(ops[2], render);
    var balanceText := amountText(statement.balance);
    assert Join(Lines(ops, render)) == render(ops[0]) + render(ops[1]) + render(ops[2]);
    RegroupStatement(Header, render(ops[0]), render(ops[1]), render(ops[2]), CrLf, "Balance", CrLf, balanceText, CrLf);
  }

  /** The lines of a single operation, joined, are its line. */
  lemma OneLine(op: Operation, line: Operation -> string)
    ensures Join(Lines([op], line)) == line(op)
  {
    assert [op][..0] == [];
    assert Lines([op], line) == [line(op)];
    assert [line(op)][..0] == [];
  }

  /** Concatenation is associative. */
  lemma Associative(a: string, b: string, c: string)
    ensures a + b + c == a + (b + c)
  {
  }

  /** Appending pieces one at a time appends their concatenation. */
  lemma Regroup(p: string, a: string, b: string, c: string, d: string, e: string)
    ensures p + a + b + c + d + e == p + (a + b + c + d + e)
  {
  }

  /** The header, the joined lines and the footer, regrouped line by line. */
  lemma RegroupStatement(h: string, x: string, y: string, z: string, a: string, b: string, c: string, d: string, e: string)
    ensures h + (x + y + z) + (a + b + c + d + e) == h + x + y + z + a + (b + c) + (d + e)
  {
  }

  /** A statement without operations prints the header, a blank line, "Balance" and the balance. */
  lemma PrintWithoutOperations(balance: Amount, dateText: Instant -> string, amountText: Amount -> string)
    ensures AccountStatement([], balance).Print(dateText, amountText)
      == "Operation  | Date           | Credit | Debit\r\n\r\nBalance\r\n" + amountText(balance) + "\r\n"
  {
  }

  /**
   * The printed statement is the header, one line per operation in the given
   * order, a blank line, "Balance" and the balance, each ending with CR LF.
   */
  lemma PrintLayout(statement: AccountStatement, dateText: Instant -> string, amountText: Amount -> string)
    ensures var printed, body := statement.Print(dateText, amountText), Join(Lines(statement.operations, LinePrinter(dateText, amountText)));
      && printed[..|Header|] == Header
      && printed[|Header|..|Header| + |body|] == body
      && printed[|Header| + |body|..] == CrLf + "Balance" + CrLf + amountText(statement.balance) + CrLf
  {
    var body := Join(Lines(statement.operations, LinePrinter(dateText, amountText)));
    var footer := Footer(amountText(statement.balance));
    assert (Header + body + footer)[..|Header|] == Header;
    assert (Header + body + footer)[|Header|..|Header| + |body|] == body;
    assert (Header + body + footer)[|Header| + |body|..] == footer;
  }

}
