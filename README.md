# Daily expense notifier: aggregation and webhook gate

This project models the two pieces of logic in the notifier's `index.js`.

- **Expense aggregation.** A Monobank statement is a list of transactions. Each has an amount in kopiykas and an optional description. One pass over the list keeps the expenses (negative amounts) and adds them into a total. For each expense whose description is truthy, it collects a detail line `"<description>: <amount in UAH, two decimals> UAH"`. The detail text is the lines joined by newlines, or `"No transactions found."` when there are none. The chat message is built from the total, the local time and the detail text.
- **Webhook gate.** The `/webhook` handler uses the process-wide flag `isProcessing`. A call that arrives while the flag is set is dropped and answered with 200. Otherwise the handler sets the flag, runs one notification cycle, clears the flag and answers with 200.

Modules:

- `Wrappers` (`wrappers.dfy`): the `Option` datatype.
- `Decimal` (`decimal.dfy`): amounts rendered as `(n / 100).toFixed(2)`, using integer arithmetic.
- `Text` (`text.dfy`): the newline join of the detail lines and its inverse split.
- `Expenses` (`expenses.dfy`): transactions, specification functions, and the aggregation loop as the method `Aggregate`. It also has the message template and one cycle, `PerformCycle`.
- `Gate` (`gate.dfy`): a pure step machine over a history of events, and the class `WebhookGate`. The class updates the flag in place and keeps the flag tied to that history.

Some inputs of a cycle are parameters rather than computed:

- The statement request's outcome is the `StatementResponse` parameter: the transactions, a failure status, or a network error.
- The clock reading is the `localTime` string.
- The outgoing Telegram message is returned as a value. Sending it is not modelled.

The total is printed as `totalUAH.toFixed(2)` of a sum that is never positive, so a single 15.50 UAH expense shows as `-15.50`.

## Model

| member | source | states |
|---|---|---|
| `Decimal.FormatMinor` | index.js:54 | the two-decimal rendering of an amount in minor units: a leading minus exactly when the amount is negative, a point, then exactly two digits |
| `Decimal.Digits` | index.js:54 | the integer part is written in decimal with at least one digit and no leading zero |
| `Decimal.FormatMinorRoundTrip` | index.js:43-54 | reading a rendering back gives the original amount in kopiykas, so the rendering loses nothing |
| `Text.Join` | index.js:63 | `join('\n')`: no lines give the empty text, and the first line opens the joined text |
| `Text.SplitJoin` | index.js:63 | splitting the `join('\n')` of one or more newline-free lines at newlines gives back the same lines |
| `Expenses.IsExpense` | index.js:46 | a transaction is an expense when its amount is strictly negative |
| `Expenses.Truthy` | index.js:53 | a description is truthy when it is present and not the empty string |
| `Expenses.IsListed` | index.js:46-55 | a transaction gets a detail line when it is an expense with a truthy description |
| `Expenses.SumNeg` | index.js:42-50 | the running total of the loop, expenses added and everything else skipped; it is never positive |
| `Expenses.Line` | index.js:54 | the detail line of a transaction: it opens with the description and ends with `" UAH"` |
| `Expenses.Lines` | index.js:42-57 | the detail lines collected by the loop, in statement order; there are no more of them than transactions |
| `Expenses.DetailText` | index.js:63 | the detail text: the lines joined by newlines when there is at least one, otherwise `"No transactions found."` |
| `Expenses.Message` | index.js:73-75 | the chat message template: total, time and detail text; the message ends with the detail text |
| `Expenses.Notification` | index.js:15-88 | the message one cycle sends: there is one exactly when the statement was fetched |
| `Expenses.ExpensesOf` | index.js:46 | the expenses kept are exactly the transactions of the statement with a negative amount, and there are no more of them than transactions |
| `Expenses.ListedOf` | index.js:46-55 | a transaction gets a detail line if and only if its amount is negative and its description is truthy |
| `Expenses.Aggregate` | index.js:35-57 | the loop leaves `total` equal to the expense total and the collected details equal to the detail lines of the statement |
| `Expenses.PerformCycle` | index.js:15-88 | a fetched statement yields the message built from its total, the time and its detail text; a failed fetch is caught and yields no message |
| `Expenses.SumNegIsSumOfExpenses` | index.js:42-50 | the total equals the plain sum of the negative amounts; zero and positive amounts contribute nothing |
| `Expenses.SumNegNonPositive` | index.js:35-50 | the total is never positive, and it is zero exactly when the statement has no expense |
| `Expenses.SumNegAppend` | index.js:42-50 | the total of a statement is the total of its first part plus the total of its second part |
| `Expenses.NonExpenseIgnored` | index.js:46-50 | inserting an income or zero-amount transaction anywhere leaves the total unchanged |
| `Expenses.LinesAreListedLines` | index.js:46-55 | the k-th detail line is the line of the k-th listed transaction, and there is one line per listed transaction |
| `Expenses.LinesAppend` | index.js:42-57 | lines keep statement order: the lines of a statement are the lines of its first part followed by those of its second |
| `Expenses.ListedAppend` | index.js:42-57 | the listed transactions of a statement are those of its first part followed by those of its second, in statement order |
| `Expenses.LineCountBound` | index.js:46-55 | there are no more detail lines than expenses, and no more expenses than transactions |
| `Expenses.LineLayout` | index.js:43-54 | a line is the description, `": "`, the amount with a minus sign and two decimals (which reads back to the amount), then `" UAH"` |
| `Expenses.DetailTextPlaceholder` | index.js:63 | the detail text is the placeholder if and only if no transaction is listed |
| `Expenses.DetailTextSplits` | index.js:63 | when descriptions hold no newline, the non-placeholder detail text splits back into exactly the detail lines |
| `Expenses.EmptyStatement` | index.js:35-63 | an empty statement gives total 0, rendered `0.00`, and the placeholder as detail text |
| `Expenses.UndescribedExpense` | index.js:46-63 | expenses without a truthy description count toward the total, but the placeholder is still shown |
| `Expenses.CoffeeAndRefund` | index.js:42-60 | a -1550 "Coffee" and a +2000 "Refund" give total -1550, shown `-15.50`, and the single line `Coffee: -15.50 UAH` |
| `Gate.Step` | index.js:94-104 | one step of the flag: it is set after an arrival and clear after a completion; an arrival is dropped exactly when the flag was set, and starts a cycle exactly when it was clear |
| `Gate.Run` | index.js:91-104 | the flag and the effects after a history of events from start-up, one effect per event |
| `Gate.SingleFlight` | index.js:91-105 | over any history, started cycles exceed finished ones by at most one, and the flag is set exactly while a cycle runs |
| `Gate.ArrivalsDroppedOrStarted` | index.js:94-99 | every arrival is either dropped or starts a cycle |
| `Gate.EveryArrivalAnswered` | index.js:94-104 | every arrival is answered with 200, except the one whose cycle is still running |
| `Gate.WebhookGate.constructor` | index.js:91 | at start-up the flag is clear and nothing has happened |
| `Gate.WebhookGate.Arrive` | index.js:94-99 | busy: the flag is unchanged, no cycle starts, and the call gets 200 at once; idle: the flag is set and a cycle starts |
| `Gate.WebhookGate.Complete` | index.js:102-104 | the end of the running cycle clears the flag and answers 200 |
| `Gate.WebhookGate.HandleWebhook` | index.js:93-105 | the whole handler as one sequence of steps always answers 200. An idle gate runs the cycle's notification and ends idle again; a busy gate changes nothing and sends nothing |

## Left out

- Outbound HTTP is not modelled. This covers the Monobank statement request (index.js:19-32) and the Telegram `sendMessage` call with its response inspection (index.js:66-84). The statement outcome is a parameter. The Telegram answer only affects logging.
- The clock and time zone are not modelled (index.js:17-18, 37-40). The time window is not used by any modelled logic, and the local time string is a parameter.
- Express setup, routing, `listen` and environment configuration are not modelled (index.js:1-11, 108-111). They are glue with no logic.
- Console logging is not modelled. It has no effect on state or results.
- Decimal.FormatMinor: amounts are rendered with exact integer arithmetic. The model does not capture `toFixed` behaviour for magnitudes where floating point stops being exact (beyond about 2^53 kopiykas) or where it switches to exponent notation (at 10^21 UAH, that is 10^23 kopiykas).
- Expenses.Transaction: a description is either absent or a string. Truthy non-string JSON values are not modelled, nor is a statement body that is not an array (which throws inside `forEach` and is caught like a failed fetch).
- Gate.WebhookGate.HandleWebhook: real asynchronous interleaving is not modelled. The handler is a sequence of discrete steps. Because the flag is checked and set with no `await` in between, arrivals during a running cycle are the `Arrive` calls made while the flag is set.
