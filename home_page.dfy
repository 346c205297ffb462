/** The home page: its state (`transactions`, `isLoading`, `error`,
    `formValues`, `isSubmitting`), the transitions that change it, the derived
    total balance and what the page shows for a state. */
module Page {
  import opened Js
  import Api

  /** A transaction as the page holds it: the JSON object the API sent. */
  type Row = Object

  /** The create form: input name to its current text. */
  type Form = map<string, string>

  predicate IsIncome(row: Row) {
    Field(row, "type") == JStr("income")
  }

  /** The amount the balance uses: a number as it is; anything else through
      `parseFloat`, where NaN reads as 0. */
  function Amount(row: Row): real {
    match Field(row, "amount")
    case JNum(n) => n
    case v => (match ParseFloatValue(v) case Num(r) => r case NaN => 0.0)
  }

  /** How one row moves the balance: up for income, down for any other type. */
  function Signed(row: Row): real {
    if IsIncome(row) then Amount(row) else -Amount(row)
  }

  /** The reducer: add an income, subtract everything else. */
  function Step(sum: real, row: Row): real {
    sum + Signed(row)
  }

  /** `rows.reduce(Step, sum)`, folding from the left. */
  function Fold(sum: real, rows: seq<Row>): real
    decreases rows
  {
    if rows == [] then sum else Fold(Step(sum, rows[0]), rows[1..])
  }

  /** The amounts of the income rows. */
  function IncomeTotal(rows: seq<Row>): real {
    if rows == [] then 0.0
    else (if IsIncome(rows[0]) then Amount(rows[0]) else 0.0) + IncomeTotal(rows[1..])
  }

  /** The amounts of every other row. */
  function SpendingTotal(rows: seq<Row>): real {
    if rows == [] then 0.0
    else (if IsIncome(rows[0]) then 0.0 else Amount(rows[0])) + SpendingTotal(rows[1..])
  }

  /** The fold from `sum` adds the income total and takes away the spending total. */
  lemma {:induction false} FoldIsIncomeLessSpending(sum: real, rows: seq<Row>)
    ensures Fold(sum, rows) == sum + IncomeTotal(rows) - SpendingTotal(rows)
    decreases rows
  {
    if rows != [] {
      FoldIsIncomeLessSpending(Step(sum, rows[0]), rows[1..]);
    }
  }

  /** `totalBalance`: the fold started at 0, which is the income total less
      the spending total. */
  function Balance(rows: seq<Row>): (b: real)
    ensures b == IncomeTotal(rows) - SpendingTotal(rows)
  {
    FoldIsIncomeLessSpending(0.0, rows);
    Fold(0.0, rows)
  }

  /** Putting a row in front moves the balance by that row's signed amount. */
  lemma BalancePrepend(row: Row, rows: seq<Row>)
    ensures Balance([row] + rows) == Signed(row) + Balance(rows)
  {
    assert ([row] + rows)[0] == row;
    assert ([row] + rows)[1..] == rows;
  }

  /** The balance of two lists one after the other is the sum of their balances. */
  lemma {:induction false} BalanceConcat(x: seq<Row>, y: seq<Row>)
    ensures Balance(x + y) == Balance(x) + Balance(y)
  {
    if x != [] {
      assert x + y == [x[0]] + (x[1..] + y);
      assert x == [x[0]] + x[1..];
      BalancePrepend(x[0], x[1..] + y);
      BalancePrepend(x[0], x[1..]);
      BalanceConcat(x[1..], y);
    } else {
      assert x + y == y;
    }
  }

  /** Taking out the row at `i` takes its signed amount out of the balance. */
  lemma BalanceRemoveAt(b: seq<Row>, i: nat)
    requires i < |b|
    ensures Balance(b) == Signed(b[i]) + Balance(b[..i] + b[i + 1..])
  {
    assert b == (b[..i] + [b[i]]) + b[i + 1..];
    BalanceConcat(b[..i] + [b[i]], b[i + 1..]);
    BalanceConcat(b[..i], [b[i]]);
    BalanceConcat(b[..i], b[i + 1..]);
    BalancePrepend(b[i], []);
    assert [b[i]] + [] == [b[i]];
  }

  lemma MultisetRemoveAt(b: seq<Row>, i: nat)
    requires i < |b|
    ensures multiset(b[..i] + b[i + 1..]) == multiset(b) - multiset{b[i]}
  {
    assert b == b[..i] + [b[i]] + b[i + 1..];
  }

  /** The balance does not depend on the order of the list. */
  lemma {:induction false} BalanceOrderFree(a: seq<Row>, b: seq<Row>)
    requires multiset(a) == multiset(b)
    ensures Balance(a) == Balance(b)
    decreases |a|
  {
    if a == [] {
      assert |b| == |multiset(b)| == 0;
    } else {
      var i := IndexOf(b, a[0]);
      var rest := b[..i] + b[i + 1..];
      RestSameRows(a, b, i);
      BalanceRemoveAt(b, i);
      BalancePrepend(a[0], a[1..]);
      assert a == [a[0]] + a[1..];
      BalanceOrderFree(a[1..], rest);
    }
  }

  /** With the first row of `a` taken out of `a`, and the same row taken out
      of `b` at `i`, the rest of the two lists hold the same rows. */
  lemma RestSameRows(a: seq<Row>, b: seq<Row>, i: nat)
    requires multiset(a) == multiset(b) && a != [] && i < |b| && b[i] == a[0]
    ensures multiset(a[1..]) == multiset(b[..i] + b[i + 1..])
  {
    MultisetRemoveAt(b, i);
    MultisetRemoveAt(a, 0);
    assert a[..0] + a[1..] == a[1..];
  }

  /** A position at which `x` occurs in `b`. */
  lemma IndexOf(b: seq<Row>, x: Row) returns (i: nat)
    requires x in multiset(b)
    ensures i < |b| && b[i] == x
  {
    assert x in b;
    i :| 0 <= i < |b| && b[i] == x;
  }

  /** An empty list has balance 0; an income of 100 and an expense of 40 give 60. */
  lemma BalanceExamples()
    ensures Balance([]) == 0.0
    ensures Balance([map["type" := JStr("income"), "amount" := JNum(100.0)],
                     map["type" := JStr("expense"), "amount" := JNum(40.0)]]) == 60.0
  {
    var income: Row := map["type" := JStr("income"), "amount" := JNum(100.0)];
    var expense: Row := map["type" := JStr("expense"), "amount" := JNum(40.0)];
    BalancePrepend(income, [expense]);
    BalancePrepend(expense, []);
    assert [income] + [expense] == [income, expense];
  }

  /** A row whose amount is text with no digit adds nothing to the balance. */
  lemma UnparsableAmountCountsZero(row: Row, rows: seq<Row>, text: string)
    requires Field(row, "amount") == JStr(text)
    requires forall k :: 0 <= k < |text| ==> !IsDigit(text[k])
    ensures Balance([row] + rows) == Balance(rows)
  {
    ParseFloatWithoutDigits(text);
    BalancePrepend(row, rows);
  }

  /** The sign shown before a row's amount. */
  function SignOf(row: Row): char {
    if IsIncome(row) then '+' else '-'
  }

  /** The category shown for a row, `'Uncategorized'` when it is falsy. */
  function CategoryLabel(row: Row): (shown: JsValue)
    ensures Truthy(shown)
    ensures Truthy(Field(row, "category")) ==> shown == Field(row, "category")
    ensures !Truthy(Field(row, "category")) ==> shown == JStr("Uncategorized")
  {
    var category := Field(row, "category");
    if Truthy(category) then category else JStr("Uncategorized")
  }

  /** The sign a row is shown with is the sign it counts with in the balance. */
  lemma SignMatchesBalance(row: Row)
    ensures SignOf(row) == '+' ==> Signed(row) == Amount(row)
    ensures SignOf(row) == '-' ==> Signed(row) == -Amount(row)
    ensures SignOf(row) == '+' || SignOf(row) == '-'
  {
  }

  /** The form as the page starts and as a successful submit leaves it. */
  function EmptyForm(): Form {
    map["amount" := "", "description" := "", "category" := "", "type" := "expense", "date" := ""]
  }

  /** The body the API parses out of `JSON.stringify(formValues)`. */
  function FormBody(form: Form): (body: Object)
    ensures body.Keys == form.Keys
    ensures forall name :: name in form ==> Field(body, name) == JStr(form[name])
  {
    map name | name in form :: JStr(form[name])
  }

  /** The empty form is refused by the API: its amount is the empty string. */
  lemma EmptyFormRefused()
    ensures !Api.HasRequiredFields(FormBody(EmptyForm()))
  {
    assert Field(FormBody(EmptyForm()), "amount") == JStr("");
  }

  /** A form with amount `"0"` and some description is accepted, and stores 0. */
  lemma ZeroAmountFormAccepted(form: Form, now: Api.Instant, id: Api.Id)
    requires "amount" in form && form["amount"] == "0"
    requires "description" in form && form["description"] != ""
    requires "type" in form && form["type"] != ""
    ensures Api.HasRequiredFields(FormBody(form))
    ensures Api.NewTransaction(FormBody(form), now, id).amount == Num(0.0)
  {
    Api.ZeroTextAccepted(FormBody(form), now, id);
  }

  datatype LoadResponse =
      /** `fetch` or `response.json()` threw an error with this message. */
    | LoadRejected(message: string)
      /** The reply arrived: `response.ok`, its `data` array when truthy, its `error` text. */
    | LoadAnswered(ok: bool, data: Option<seq<Row>>, error: Option<string>)

  datatype SubmitResponse =
      /** `fetch` or `response.json()` threw an error with this message. */
    | SubmitRejected(message: string)
      /** The reply arrived: `response.ok`, its `data` record, its `error` text. */
    | SubmitAnswered(ok: bool, record: Row, error: Option<string>)

  const LoadFailed := "Failed to load transactions"
  const SaveFailed := "Failed to save transaction"

  /** `new Error(data?.error || fallback).message`. */
  function FailureMessage(error: Option<string>, fallback: string): (m: string)
    ensures fallback != "" ==> m != ""
    ensures error.Some? && error.value != "" ==> m == error.value
    ensures !(error.Some? && error.value != "") ==> m == fallback
  {
    if error.Some? && error.value != "" then error.value else fallback
  }

  class HomePage {
    var transactions: seq<Row>
    var isLoading: bool
    var error: Option<string>
    var formValues: Form
    var isSubmitting: bool

    constructor ()
      ensures transactions == [] && isLoading && error == None
      ensures formValues == EmptyForm() && !isSubmitting
    {
      transactions := [];
      isLoading := true;
      error := None;
      formValues := EmptyForm();
      isSubmitting := false;
    }

    function TotalBalance(): real
      reads this
    {
      Balance(transactions)
    }

    /** `error` as the JavaScript value the page tests: `null` or a string. */
    function ErrorValue(): JsValue
      reads this
    {
      if error.Some? then JStr(error.value) else JNull
    }

    /** The "Loading…" indicator; it never shows beside the empty state. */
    predicate ShowsLoading()
      reads this
      ensures ShowsLoading() ==> !ShowsEmptyState()
    {
      isLoading
    }

    /** `{error && …}`: the banner shows exactly when `error` is truthy. */
    predicate ShowsError()
      reads this
      ensures ShowsError() <==> Truthy(ErrorValue())
    {
      error.Some? && error.value != ""
    }

    /** "No transactions yet.": not loading, no rows and a falsy `error`. */
    predicate ShowsEmptyState()
      reads this
      ensures ShowsEmptyState() <==> !isLoading && transactions == [] && !Truthy(ErrorValue())
      ensures ShowsEmptyState() ==> !ShowsError() && TotalBalance() == 0.0
    {
      !isLoading && |transactions| == 0 && !ShowsError()
    }

    /** The initial load, with the reply to `GET /api/transactions`. */
    method FetchTransactions(response: LoadResponse)
      modifies this`transactions, this`isLoading, this`error
      ensures !isLoading && !ShowsLoading()
      ensures response.LoadAnswered? && response.ok ==>
        transactions == (if response.data.Some? then response.data.value else []) && error == None
      ensures response.LoadAnswered? && !response.ok ==>
        transactions == old(transactions) && error == Some(FailureMessage(response.error, LoadFailed))
        && ShowsError()
      ensures response.LoadRejected? ==>
        transactions == old(transactions) && error == Some(response.message)
      ensures ShowsEmptyState() <==> transactions == [] && !ShowsError()
    {
      isLoading := true;
      match response {
        case LoadRejected(message) =>
          error := Some(message);
        case LoadAnswered(ok, data, e) =>
          if !ok {
            error := Some(FailureMessage(e, LoadFailed));
          } else {
            transactions := if data.Some? then data.value else [];
            error := None;
          }
      }
      isLoading := false;
    }

    /** An input changes: only the field it names takes the new text. */
    method HandleInputChange(name: string, value: string)
      modifies this`formValues
      ensures formValues == old(formValues)[name := value]
      ensures name in formValues && formValues[name] == value
      ensures forall other :: other != name ==>
        (other in formValues <==> other in old(formValues))
        && (other in formValues ==> formValues[other] == old(formValues)[other])
    {
      formValues := formValues[name := value];
    }

    /** The submit starts: the button is disabled, the error cleared, and the
        form is sent as the request body. */
    method BeginSubmit() returns (body: Object)
      modifies this`isSubmitting, this`error
      ensures isSubmitting && error == None && !ShowsError()
      ensures body == FormBody(formValues)
    {
      isSubmitting := true;
      error := None;
      body := FormBody(formValues);
    }

    /** The submit ends with the reply to `POST /api/transactions`. */
    method FinishSubmit(response: SubmitResponse)
      modifies this`transactions, this`formValues, this`error, this`isSubmitting
      ensures !isSubmitting
      ensures response.SubmitAnswered? && response.ok ==>
        transactions == [response.record] + old(transactions)
        && formValues == EmptyForm() && error == old(error)
        && TotalBalance() == Signed(response.record) + old(TotalBalance())
        && !ShowsEmptyState()
      ensures response.SubmitAnswered? && !response.ok ==>
        transactions == old(transactions) && formValues == old(formValues)
        && error == Some(FailureMessage(response.error, SaveFailed)) && ShowsError()
      ensures response.SubmitRejected? ==>
        transactions == old(transactions) && formValues == old(formValues)
        && error == Some(response.message)
    {
      match response {
        case SubmitRejected(message) =>
          error := Some(message);
        case SubmitAnswered(ok, record, e) =>
          if !ok {
            error := Some(FailureMessage(e, SaveFailed));
          } else {
            BalancePrepend(record, transactions);
            transactions := [record] + transactions;
            formValues := EmptyForm();
          }
      }
      isSubmitting := false;
    }
  }
}
