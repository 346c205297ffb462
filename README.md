# Budgeting tracker: the transactions endpoint and the home page

This project models the two pieces of logic in a small personal-finance web
app. There is one record type, a transaction. It has an amount, a
description, a category, a type, a date, `createdAt`/`updatedAt` timestamps
and an id.

- `Js` (`js_values.dfy`) holds the JavaScript values both sides see once a
  JSON body is parsed. It defines JavaScript truthiness (`''`, `0`, `null`,
  `false` and a missing property are falsy; `"0"` is truthy) and models
  `parseFloat` on decimal text. Its result is `Num(r)` or `NaN`, never a
  silent zero.
- `Api` (`transactions_api.dfy`) is the `/api/transactions` handler.
  `TransactionStore` holds the `transactions` collection as a sequence in
  insertion order. `Handle` does the same steps as the source, in the same
  order:
  - it obtains the database first, so a connection failure answers any
    method, even an unsupported one, with 500;
  - GET lists the records newest first with 200;
  - POST checks `amount`, `description` and `type` for truthiness (400 if
    any is falsy), builds the record with its defaults and appends it (201);
  - any other method gets 405 `Method <M> not allowed`;
  - a failing database call gets 500 `Internal server error` carrying the
    failure's message.

  The clock reading, the id the database assigns and the database's failures
  are parameters of `Handle`.
- `Page` (`home_page.dfy`) is the client. `HomePage` holds the page state
  (`transactions`, `isLoading`, `error`, `formValues`, `isSubmitting`) and
  has one method per transition: initial load, field edit, submit start and
  submit end. Each transition takes the server's reply as an input. The
  total balance is a left fold: add income, subtract any other type, and
  count an amount that fails to parse as 0. The render conditions are
  predicates over the state.

Three behaviours of the code are easy to misread, and the model keeps them
as the code has them:

- A non-numeric amount is stored as `parseFloat`'s NaN, not as zero
  (`Api.TextWithoutDigitStoredAsNaN`).
- A failed initial load leaves the list as it was, not necessarily empty
  (`Page.HomePage.FetchTransactions`).
- The comment `// 'income' or 'expense'` at pages/api/transactions.js:34
  names two types, but the handler checks `type` only for truthiness and
  stores any other truthy value as sent (`Api.AnyTypeStored`).

## Model

| member | source | states |
|---|---|---|
| `Js.ParseFloatWithoutDigits` | pages/api/transactions.js:31 | `parseFloat` of text with no digit in it, other than the `Infinity` literal, which the model does not read, is NaN, not 0 |
| `Js.ParseFloatDecimalText` | pages/api/transactions.js:31 | `parseFloat` reads the decimal text of every natural number back as that number |
| `Api.HasRequiredFields` | pages/api/transactions.js:23 | a body passes validation exactly when `amount`, `description` and `type` are all present and none of them is `undefined`, `null`, `false`, `0` or `''` |
| `Api.NewTransaction` | pages/api/transactions.js:30-38 | the stored amount is `parseFloat(amount)`, a number and never text; description and type are kept as sent; category is the sent value when truthy, else `'uncategorized'`; date is the sent value when truthy, else the current instant's ISO text; both timestamps are the current instant; the stored category and date are always truthy |
| `Api.SortNewestFirst` | pages/api/transactions.js:10-13 | the listing is ordered by `createdAt` descending and holds exactly the stored records (a permutation) |
| `Api.ListedFirstWhenNewest` | pages/api/transactions.js:10-15 | a record created later than every stored one comes first in every listing sorted by `createdAt` descending that holds exactly the stored records and it |
| `Api.TransactionStore.Handle` | pages/api/transactions.js:3-64 | a `getDb` failure gives 500 for every method; GET gives 200, success, all records newest first; a POST with a falsy amount, description or type gives 400 with the missing-fields error and leaves the collection unchanged; a valid POST appends exactly the built record and replies 201 with it and its new id; a failing insert stores nothing and gives 500; another method gives 405 `Method <M> not allowed`; every 500 carries `'Internal server error'` and the failure's message; the collection either stays as it was or gains exactly one record on a 201 |
| `Api.ZeroTextAccepted` | pages/api/transactions.js:23-31 | an amount of text `"0"` passes validation (it is truthy) and is stored as the number 0 |
| `Api.TextWithoutDigitStoredAsNaN` | pages/api/transactions.js:23-31 | a non-empty amount text without a digit, other than the `Infinity` literal, which the model does not read, passes validation and is stored as NaN |
| `Api.AnyTypeStored` | pages/api/transactions.js:23-34 | any truthy `type` other than `'income'` and `'expense'` passes validation and is stored as sent |
| `Page.BalancePrepend` | app/page.js:39-44 | putting a row in front of the list moves the balance by that row's amount: up for income, down for any other type |
| `Page.Balance` | app/page.js:39-44 | the left fold from 0 equals the income total less the total of every other row |
| `Page.BalanceConcat` | app/page.js:39-44 | the balance of two lists one after the other is the sum of their balances |
| `Page.BalanceOrderFree` | app/page.js:39-44 | two lists holding the same rows, in any order, have the same balance |
| `Page.BalanceExamples` | app/page.js:39-43 | the balance of `[]` is 0; income 100 then expense 40 gives 60 |
| `Page.UnparsableAmountCountsZero` | app/page.js:41-42 | a row whose amount text has no digit, other than the `Infinity` literal, which the model does not read, leaves the balance unchanged |
| `Page.SignMatchesBalance` | app/page.js:208-215 | the sign shown for a row (`+` for income, `-` otherwise) is the sign it counts with in the balance |
| `Page.CategoryLabel` | app/page.js:204 | the category shown is the row's category when truthy, else `'Uncategorized'`; it is never blank |
| `Page.FormBody` | app/page.js:57-61 | the request body has exactly the form's fields, each as the form's text |
| `Page.EmptyFormRefused` | app/page.js:9-15 | the initial form, sent as it is, would be refused by the endpoint because its amount is empty |
| `Page.ZeroAmountFormAccepted` | app/page.js:57-61 | a form with amount `"0"`, a description and a type is accepted by the endpoint and stores 0 |
| `Page.FailureMessage` | app/page.js:25 | the shown message is the reply's `error` when it is a non-empty string, else the fallback text, so it is never empty |
| `Page.HomePage.constructor` | app/page.js:6-16 | the page starts with no transactions, loading, no error, the empty form (`type: 'expense'`) and not submitting |
| `Page.HomePage.ShowsLoading` | app/page.js:182 | the loading note never shows together with the empty state |
| `Page.HomePage.ShowsError` | app/page.js:185-189 | the error box shows exactly when the `error` state is truthy, that is a non-empty message |
| `Page.HomePage.ShowsEmptyState` | app/page.js:191-193 | "No transactions yet." shows exactly when not loading, the list is empty and the error is falsy; then no error shows and the balance is 0 |
| `Page.HomePage.FetchTransactions` | app/page.js:19-34 | on success the list becomes `data.data` (or `[]` when absent) and the error is cleared; on a non-ok reply or a thrown error the list is unchanged and the error is set; loading ends in every case, so the empty state shows exactly when the list is empty and no error is set |
| `Page.HomePage.HandleInputChange` | app/page.js:46-49 | only the named form field takes the new text; every other field keeps its value |
| `Page.HomePage.BeginSubmit` | app/page.js:51-61 | submitting starts, the error is cleared and the current form is sent as the body |
| `Page.HomePage.FinishSubmit` | app/page.js:62-80 | on success the returned record is put at index 0 ahead of the unchanged list, the balance moves by that record's signed amount and the form is reset; on failure the list and form are unchanged and the error is the reply's `error` or `'Failed to save transaction'` (or the thrown message); submitting ends in every case |

## Left out

- `lib/mongo.js` is not part of this model. It reads the connection settings, memoises the client connection and is not logic. A failed `getDb()` is kept, as `Env.connectFault`.
- The MongoDB driver is left out. Its behaviour comes in as parameters: the id `insertOne` assigns, and the failures of `find`/`insertOne`. Id uniqueness is an assumption about the database. A rejected insert is taken to have written nothing.
- `Api.SortNewestFirst` puts the later-inserted record first among equal `createdAt` values. The database leaves that order open, so `Handle` promises only the descending order and the permutation.
- The three `new Date()` calls of one POST are taken as one clock reading `now`. The ISO text of that instant is an input, since date formatting is not modelled.
- `parseFloat` is modelled only on decimal text: a sign, digits, a fraction and an exponent. The `Infinity` literal and rounding to a double are floating point and are left out. Such text reads as NaN or as an exact real. Only ASCII white space, NBSP, the line and paragraph separators and BOM are skipped. The model reads an array argument as NaN.
- `Js.ParseFloatWithoutDigits`: holds for the model's `parseFloat`, which does not read `Infinity`. In JavaScript, text such as `"Infinity"` or `"-Infinity"` has no digit and still parses to an infinity.
- `Api.TextWithoutDigitStoredAsNaN`: the same gap. An `"Infinity"` amount would be stored as an infinity, not NaN.
- `Page.UnparsableAmountCountsZero`: the same gap. An `"Infinity"` amount would make the balance infinite.
- JSON encoding of replies is left out. The page's rows are taken as the parsed JSON objects it receives. A NaN amount arrives there as `null`, which the balance counts as 0.
- `Js.JsValue` has no NaN, because a parsed JSON body cannot hold one. Falsy NaN appears only as a `parseFloat` result.
- `Api.TransactionStore.Handle`, `Api.NewTransaction` and `Js.ParseFloatValue` read every object amount as NaN. A JSON object amount with its own `toString` key, such as `{"toString": 1}`, passes validation because it is truthy. `parseFloat` at pages/api/transactions.js:31 then cannot turn it into text and throws, and the handler answers 500 `Internal server error`. The model instead stores a NaN amount and answers 201.
- `Api.HasRequiredFields` and `Api.NewTransaction` do not see infinite numbers. `JSON.parse` turns an overflowing literal such as `1e400` into `Infinity` or `-Infinity`. That value is truthy, so validation at pages/api/transactions.js:23 passes it. `parseFloat` at :31 then keeps it, and the stored amount is infinite. `Js.JsValue` and `Js.Number` hold only finite reals, so the model does not represent such a body.
- `Page.BalanceOrderFree`, `Page.BalanceConcat` and `Page.Balance` sum amounts as exact reals, and these lemmas hold of the model. The page's `reduce` adds doubles and rounds after every step, so the same rows in another order can give a total that differs in the last bits. For example, income 0.1, income 0.2 and expense 0.3 give 5.55e-17 in that order and 2.78e-17 as income 0.1, expense 0.3, income 0.2. The model gives 0 for both.
- The request body is taken to be a JSON object. A `null` body would throw while destructuring, giving a 500 whose message the runtime words.
- Reply bodies that are not JSON objects are left out, and so are non-string `error` fields. A 2xx submit reply with no `data` record is also left out: the page would prepend `undefined`.
- `console.error` logging, HTTP transport, `fetch`, `response.json()` and async interleaving are left out. A thrown fetch or parse error comes in as `LoadRejected`/`SubmitRejected` with its message.
- `Page.HomePage.FinishSubmit` does not require a preceding `BeginSubmit`, because the double-submit guard `disabled={isSubmitting}` is concurrency.
- Display formatting is left out: `toFixed(2)`, `Number(tx.amount)` on the amount shown and `toLocaleDateString`. So is the date cell at app/page.js:205, which shows the formatted date or `'No date'`. React hooks, JSX and CSS are also left out.
- The `Allow` header that section 15.5.6 of RFC 9110 asks for on a 405 reply is not modelled. The code does not send one.
