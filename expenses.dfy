/**
 * The expense aggregation of one notification cycle: the statement's
 * transactions are folded into a total of the expenses and a list of detail
 * lines, which become the text of the message sent to the chat.
 *
 * The specification functions walk a transaction list from its end, the
 * way the loop of `Aggregate` extends its prefix, so each loop step matches
 * one unfolding.
 */
module Expenses {
  import opened Wrappers
  import opened Decimal
  import opened Text

  /** One statement item: an amount in kopiykas and an optional description. */
  datatype Transaction = Transaction(amount: int, description: Option<string>)

  /** What the statement request gave back. */
  datatype StatementResponse =
    | Fetched(transactions: seq<Transaction>)
    | NotOk(status: int, statusText: string)  // the server answered with a failure status
    | NetworkError                            // the request or its body could not be read

  const Placeholder: string := "No transactions found."

  /** A description is truthy when it is present and not the empty string. */
  predicate Truthy(d: Option<string>) {
    d.Some? && d.value != ""
  }

  predicate IsExpense(t: Transaction) {
    t.amount < 0
  }

  /** A transaction that produces a detail line. */
  predicate IsListed(t: Transaction) {
    IsExpense(t) && Truthy(t.description)
  }

  // ---------------------------------------------------------------------
  // Specification functions

  /** The running total the loop accumulates: expenses added, the rest skipped. */
  function SumNeg(ts: seq<Transaction>): (total: int)
    ensures total <= 0
  {
    if ts == [] then 0
    else
      var last := ts[|ts| - 1];
      SumNeg(ts[..|ts| - 1]) + (if IsExpense(last) then last.amount else 0)
  }

  /** The expenses of a statement, in statement order. */
  function ExpensesOf(ts: seq<Transaction>): (es: seq<Transaction>)
    ensures |es| <= |ts|
    ensures forall x :: x in es <==> x in ts && IsExpense(x)
  {
    if ts == [] then []
    else
      var last := ts[|ts| - 1];
      ExpensesOf(ts[..|ts| - 1]) + (if IsExpense(last) then [last] else [])
  }

  /** The transactions that get a detail line, in statement order. */
  function ListedOf(ts: seq<Transaction>): (ls: seq<Transaction>)
    ensures forall x :: x in ls <==> x in ts && IsListed(x)
  {
    if ts == [] then []
    else
      var last := ts[|ts| - 1];
      ListedOf(ts[..|ts| - 1]) + (if IsListed(last) then [last] else [])
  }

  /** Plain sum of the amounts of a list. */
  function Sum(ts: seq<Transaction>): int {
    if ts == [] then 0 else Sum(ts[..|ts| - 1]) + ts[|ts| - 1].amount
  }

  /** The detail line of a described transaction. */
  function Line(t: Transaction): (l: string)
    requires t.description.Some?
    ensures var d := t.description.value;
      |d| + 10 <= |l| && l[..|d|] == d && l[|l| - 4..] == " UAH"
  {
    t.description.value + ": " + FormatMinor(t.amount) + " UAH"
  }

  /** The detail lines the loop collects. */
  function Lines(ts: seq<Transaction>): (lines: seq<string>)
    ensures |lines| <= |ts|
  {
    if ts == [] then []
    else
      var last := ts[|ts| - 1];
      Lines(ts[..|ts| - 1]) + (if IsListed(last) then [Line(last)] else [])
  }

  /** The detail text: the lines joined by newlines, or the placeholder. */
  function DetailText(lines: seq<string>): string {
    if |lines| > 0 then Join(lines) else Placeholder
  }

  /** The text of the chat message; `localTime` is the clock reading. */
  function Message(total: int, localTime: string, detailText: string): (m: string)
    ensures |m| >= |detailText| && m[|m| - |detailText|..] == detailText
  {
    "Today's total expenses are " + FormatMinor(total) + " UAH. \n"
    + "Date and time: " + localTime + ". \n"
    + "Transaction details: " + detailText
  }

  /** The message one cycle sends, or `None` when the statement could not be had. */
  function Notification(response: StatementResponse, localTime: string): (m: Option<string>)
    ensures m.Some? <==> response.Fetched?
  {
    match response
    case Fetched(ts) => Some(Message(SumNeg(ts), localTime, DetailText(Lines(ts))))
    case _ => None
  }

  // ---------------------------------------------------------------------
  // The operations

  /** The `forEach` over the statement: accumulates the total and the detail lines. */
  method Aggregate(ts: seq<Transaction>) returns (total: int, details: seq<string>)
    ensures total == SumNeg(ts)
    ensures details == Lines(ts)
  {
    total, details := 0, [];
    var i := 0;
    while i < |ts|
      invariant 0 <= i <= |ts|
      invariant total == SumNeg(ts[..i])
      invariant details == Lines(ts[..i])
    {
      var item := ts[i];
      assert ts[..i + 1][..i] == ts[..i];
      if item.amount < 0 {
        total := total + item.amount;
        if item.description.Some? && item.description.value != "" {
          details := details + [item.description.value + ": " + FormatMinor(item.amount) + " UAH"];
        }
      }
      i := i + 1;
    }
    assert ts[..|ts|] == ts;
  }

  /**
   * One cycle: aggregate a fetched statement and build the message; a failed
   * fetch is caught and nothing is sent.
   */
  method PerformCycle(response: StatementResponse, localTime: string) returns (outbound: Option<string>)
    ensures outbound == Notification(response, localTime)
    ensures outbound.None? <==> !response.Fetched?
  {
    match response {
      case Fetched(ts) =>
        var total, details := Aggregate(ts);
        outbound := Some(Message(total, localTime, DetailText(details)));
      case _ =>
        outbound := None;
    }
  }

  // ---------------------------------------------------------------------
  // Properties of the total

  /** The total is the sum of exactly the negative amounts. */
  lemma {:induction false} SumNegIsSumOfExpenses(ts: seq<Transaction>)
    ensures SumNeg(ts) == Sum(ExpensesOf(ts))
  {
    if ts != [] {
      var init, last := ts[..|ts| - 1], ts[|ts| - 1];
      SumNegIsSumOfExpenses(init);
      var es := ExpensesOf(init);
      if IsExpense(last) {
        assert (es + [last])[..|es|] == es;
      } else {
        assert es + [] == es;
      }
    }
  }

  /** No expense total is positive. */
  lemma {:induction false} SumNegNonPositive(ts: seq<Transaction>)
    ensures SumNeg(ts) <= 0
    ensures SumNeg(ts) == 0 <==> ExpensesOf(ts) == []
  {
    if ts != [] {
      SumNegNonPositive(ts[..|ts| - 1]);
    }
  }

  /** The total of a statement is the total of its parts. */
  lemma {:induction false} SumNegAppend(a: seq<Transaction>, b: seq<Transaction>)
    ensures SumNeg(a + b) == SumNeg(a) + SumNeg(b)
  {
    if b == [] {
      assert a + b == a;
    } else {
      assert (a + b)[..|a + b| - 1] == a + b[..|b| - 1];
      SumNegAppend(a, b[..|b| - 1]);
    }
  }

  /** Adding an income or a zero-amount item anywhere leaves the total as it was. */
  lemma NonExpenseIgnored(a: seq<Transaction>, t: Transaction, b: seq<Transaction>)
    requires !IsExpense(t)
    ensures SumNeg(a + [t] + b) == SumNeg(a + b)
  {
    SumNegAppend(a + [t], b);
    SumNegAppend(a, b);
    assert (a + [t])[..|a|] == a;
  }

  // ---------------------------------------------------------------------
  // Properties of the detail lines

  /** The k-th line is the line of the k-th listed transaction. */
  lemma {:induction false} LinesAreListedLines(ts: seq<Transaction>)
    ensures |Lines(ts)| == |ListedOf(ts)|
    ensures forall k :: 0 <= k < |Lines(ts)| ==>
      ListedOf(ts)[k].description.Some? && Lines(ts)[k] == Line(ListedOf(ts)[k])
  {
    if ts != [] {
      LinesAreListedLines(ts[..|ts| - 1]);
    }
  }

  /** Lines keep statement order: a statement's lines are those of its parts, in turn. */
  lemma {:induction false} LinesAppend(a: seq<Transaction>, b: seq<Transaction>)
    ensures Lines(a + b) == Lines(a) + Lines(b)
  {
    if b == [] {
      assert a + b == a;
    } else {
      var init, last := b[..|b| - 1], b[|b| - 1];
      assert (a + b)[..|a + b| - 1] == a + init;
      LinesAppend(a, init);
      var tail := if IsListed(last) then [Line(last)] else [];
      assert Lines(b) == Lines(init) + tail;
      assert Lines(a + b) == Lines(a + init) + tail;
    }
  }

  /** The listed transactions of a statement are those of its parts, in turn. */
  lemma {:induction false} ListedAppend(a: seq<Transaction>, b: seq<Transaction>)
    ensures ListedOf(a + b) == ListedOf(a) + ListedOf(b)
  {
    if b == [] {
      assert a + b == a;
    } else {
      var init, last := b[..|b| - 1], b[|b| - 1];
      assert (a + b)[..|a + b| - 1] == a + init;
      ListedAppend(a, init);
      var tail := if IsListed(last) then [last] else [];
      assert ListedOf(b) == ListedOf(init) + tail;
      assert ListedOf(a + b) == ListedOf(a + init) + tail;
    }
  }

  /** There are no more lines than expenses, and no more expenses than transactions. */
  lemma {:induction false} LineCountBound(ts: seq<Transaction>)
    ensures |Lines(ts)| <= |ExpensesOf(ts)| <= |ts|
  {
    if ts != [] {
      LineCountBound(ts[..|ts| - 1]);
    }
  }

  /**
   * A detail line reads as the description, `": "`, the amount in major
   * units with two decimals and a minus sign, then `" UAH"`.
   */
  lemma LineLayout(t: Transaction)
    requires IsListed(t)
    ensures var d, l := t.description.value, Line(t);
      && |d| + 10 <= |l|
      && l[..|d|] == d
      && l[|d|..|d| + 2] == ": "
      && l[|d| + 2] == '-'
      && l[|l| - 4..] == " UAH"
      && ParseMinor(l[|d| + 2..|l| - 4]) == Some(t.amount)
  {
    var d, m := t.description.value, FormatMinor(t.amount);
    var l := Line(t);
    assert l == d + ": " + m + " UAH";
    assert l[|d| + 2..|l| - 4] == m;
    FormatMinorRoundTrip(t.amount);
  }

  // ---------------------------------------------------------------------
  // Properties of the detail text

  /** The placeholder is shown exactly when no transaction is listed, whatever the total. */
  lemma DetailTextPlaceholder(ts: seq<Transaction>)
    ensures DetailText(Lines(ts)) == Placeholder <==> ListedOf(ts) == []
  {
    var lines := Lines(ts);
    LinesAreListedLines(ts);
    if |lines| > 0 {
      var n := |lines| - 1;
      LineLayout(ListedOf(ts)[n]);
      JoinLastChar(lines);
      assert Join(lines)[|Join(lines)| - 1] == 'H';
    }
  }

  lemma LineNoNewline(t: Transaction)
    requires t.description.Some? && NoNewline(t.description.value)
    ensures NoNewline(Line(t))
  {
  }

  /**
   * When no description holds a newline, splitting a non-placeholder detail
   * text at its newlines gives back the detail lines, one per listed
   * transaction.
   */
  lemma DetailTextSplits(ts: seq<Transaction>)
    requires ListedOf(ts) != []
    requires forall t :: t in ts && t.description.Some? ==> NoNewline(t.description.value)
    ensures Split(DetailText(Lines(ts))) == Lines(ts)
  {
    var lines := Lines(ts);
    LinesAreListedLines(ts);
    forall k | 0 <= k < |lines| ensures NoNewline(lines[k]) {
      var t := ListedOf(ts)[k];
      assert t in ListedOf(ts);
      LineNoNewline(t);
    }
    SplitJoin(lines);
  }

  // ---------------------------------------------------------------------
  // Worked cases

  /** An empty statement: total 0, rendered "0.00", and the placeholder as detail text. */
  lemma EmptyStatement(localTime: string)
    ensures SumNeg([]) == 0 && FormatMinor(SumNeg([])) == "0.00"
    ensures Notification(Fetched([]), localTime) == Some(Message(0, localTime, Placeholder))
  {
  }

  /** An expense without a description counts toward the total but the placeholder is shown. */
  lemma UndescribedExpense()
    ensures var ts := [Transaction(-500, None), Transaction(-250, Some(""))];
      SumNeg(ts) == -750 && Lines(ts) == [] && DetailText(Lines(ts)) == Placeholder
  {
  }

  /** A coffee of 15.50 and a refund of 20.00: only the coffee counts. */
  lemma CoffeeAndRefund()
    ensures var ts := [Transaction(-1550, Some("Coffee")), Transaction(2000, Some("Refund"))];
      && SumNeg(ts) == -1550
      && FormatMinor(SumNeg(ts)) == "-15.50"
      && Lines(ts) == ["Coffee: -15.50 UAH"]
  {
    var ts := [Transaction(-1550, Some("Coffee")), Transaction(2000, Some("Refund"))];
    assert ts[..1] == [Transaction(-1550, Some("Coffee"))];
    assert ts[..1][..0] == [];
    assert Digits(15) == "15" by {
      assert Digits(1) == "1";
    }
    assert Pad2(50) == "50";
    assert FormatMinor(-1550) == "-15.50";
    assert Line(ts[0]) == "Coffee: -15.50 UAH";
    assert Lines(ts[..1]) == ["Coffee: -15.50 UAH"];
  }
}
