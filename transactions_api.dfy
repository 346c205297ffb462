/** The `/api/transactions` request handler: method dispatch, validation of a
    new transaction, the record it builds with its defaults, and the replies
    200, 201, 400, 405 and 500, over the `transactions` collection. */
module Api {
  import opened Js

  /** The identifier the database assigns to an inserted document. */
  type Id = nat

  /** One reading of the clock: milliseconds since the epoch, and the text
      `toISOString()` gives for that instant. */
  datatype Instant = Instant(ms: int, iso: IsoText)

  /** `toISOString()` always gives text of the form `YYYY-MM-DDTHH:mm:ss.sssZ`. */
  type IsoText = s: string | s != "" witness "1970-01-01T00:00:00.000Z"

  /** A stored transaction document. `kind` is the document's `type` field;
      `createdAt` and `updatedAt` are instants in milliseconds. */
  datatype Transaction = Transaction(
    id: Id,
    amount: Number,
    description: JsValue,
    category: JsValue,
    kind: JsValue,
    date: JsValue,
    createdAt: int,
    updatedAt: int)

  /** An HTTP request: its method and its parsed JSON body. */
  datatype Request = Request(httpMethod: string, body: Object)

  datatype Data = Many(records: seq<Transaction>) | One(record: Transaction)

  /** The JSON reply body: `{success: true, data}`, or
      `{success: false, error}` with a `message` on a server error. */
  datatype Body = Success(data: Data) | Failure(error: string, message: Option<string>)

  datatype Reply = Reply(status: nat, body: Body)

  /** What the database does during one request: `connectFault` is the message
      of a rejected `getDb()`, `queryFault` that of a rejected
      `find().sort().toArray()` or `insertOne()`. */
  datatype Env = Env(connectFault: Option<string>, queryFault: Option<string>)

  const MissingFieldsError := "Missing required fields: amount, description, and type are required"
  const ServerErrorText := "Internal server error"
  const DefaultCategory := "uncategorized"

  function ServerError(message: string): Reply {
    Reply(500, Failure(ServerErrorText, Some(message)))
  }

  function NotAllowed(httpMethod: string): Reply {
    Reply(405, Failure("Method " + httpMethod + " not allowed", None))
  }

  /** The values JavaScript treats as false in a condition. */
  const FalsyValues: set<JsValue> := {JUndefined, JNull, JBool(false), JNum(0.0), JStr("")}

  /** The property is there and holds none of the falsy values. */
  predicate Present(body: Object, name: string) {
    name in body && body[name] !in FalsyValues
  }

  /** A POST body is accepted when `amount`, `description` and `type` are all
      truthy: each is present and none is `null`, `false`, `0` or `''`. */
  predicate HasRequiredFields(body: Object)
    ensures HasRequiredFields(body) <==>
      Present(body, "amount") && Present(body, "description") && Present(body, "type")
  {
    Truthy(Field(body, "amount")) && Truthy(Field(body, "description")) && Truthy(Field(body, "type"))
  }

  /** The document a POST stores: the amount through `parseFloat`, the
      description and type as sent, a falsy category replaced by
      `'uncategorized'`, a falsy date by the current instant's ISO text, and
      both timestamps set to the current instant. */
  function NewTransaction(body: Object, now: Instant, id: Id): (t: Transaction)
    ensures t.id == id && t.createdAt == now.ms && t.updatedAt == now.ms
    ensures t.amount == ParseFloatValue(Field(body, "amount"))
    ensures t.description == Field(body, "description") && t.kind == Field(body, "type")
    ensures Truthy(t.category) && Truthy(t.date)
    ensures Truthy(Field(body, "category")) ==> t.category == Field(body, "category")
    ensures !Truthy(Field(body, "category")) ==> t.category == JStr(DefaultCategory)
    ensures Truthy(Field(body, "date")) ==> t.date == Field(body, "date")
    ensures !Truthy(Field(body, "date")) ==> t.date == JStr(now.iso)
  {
    var category := Field(body, "category");
    var date := Field(body, "date");
    Transaction(
      id,
      ParseFloatValue(Field(body, "amount")),
      Field(body, "description"),
      if Truthy(category) then category else JStr(DefaultCategory),
      Field(body, "type"),
      if Truthy(date) then date else JStr(now.iso),
      now.ms,
      now.ms)
  }

  /** Most recently created first: the order `sort({ createdAt: -1 })` gives. */
  predicate NewestFirst(s: seq<Transaction>) {
    forall i, j :: 0 <= i < j < |s| ==> s[i].createdAt >= s[j].createdAt
  }

  /** Puts `t` into a list that is newest first, ahead of every record not newer than it. */
  function InsertByCreated(t: Transaction, s: seq<Transaction>): (r: seq<Transaction>)
    requires NewestFirst(s)
    ensures NewestFirst(r)
    ensures multiset(r) == multiset(s) + multiset{t}
    ensures |r| == |s| + 1 && (r[0] == t || (s != [] && r[0] == s[0]))
  {
    if s == [] || t.createdAt >= s[0].createdAt then [t] + s
    else
      assert s == [s[0]] + s[1..];
      [s[0]] + InsertByCreated(t, s[1..])
  }

  /** The collection as `find({}).sort({ createdAt: -1 })` lists it. */
  function SortNewestFirst(s: seq<Transaction>): (r: seq<Transaction>)
    ensures NewestFirst(r)
    ensures multiset(r) == multiset(s)
  {
    if s == [] then []
    else
      assert s == s[..|s| - 1] + [s[|s| - 1]];
      InsertByCreated(s[|s| - 1], SortNewestFirst(s[..|s| - 1]))
  }

  /** A record created later than every stored one comes first in any
      newest-first listing of the collection once it is added. */
  lemma ListedFirstWhenNewest(records: seq<Transaction>, t: Transaction, r: seq<Transaction>)
    requires forall x :: x in records ==> x.createdAt < t.createdAt
    requires NewestFirst(r) && multiset(r) == multiset(records + [t])
    ensures r != [] && r[0] == t
  {
    assert t in multiset(r);
    assert r[0] in multiset(records + [t]);
  }

  /** The `transactions` collection, in insertion order, and the handler over it. */
  class TransactionStore {
    var records: seq<Transaction>

    constructor ()
      ensures records == []
    {
      records := [];
    }

    /** Handles one request. `now` is the clock reading, `newId` the id the
        database gives an inserted document, `env` the database's failures. */
    method Handle(req: Request, now: Instant, newId: Id, env: Env) returns (reply: Reply)
      modifies this
      // getDb() runs before dispatch: its failure answers every method with 500
      ensures env.connectFault.Some? ==>
        reply == ServerError(env.connectFault.value) && records == old(records)
      ensures env.connectFault.None? && req.httpMethod == "GET" ==>
        records == old(records)
        && (env.queryFault.Some? ==> reply == ServerError(env.queryFault.value))
        && (env.queryFault.None? ==>
              reply.status == 200 && reply.body.Success? && reply.body.data.Many?
              && NewestFirst(reply.body.data.records)
              && multiset(reply.body.data.records) == multiset(records))
      ensures env.connectFault.None? && req.httpMethod == "POST" && !HasRequiredFields(req.body) ==>
        reply == Reply(400, Failure(MissingFieldsError, None)) && records == old(records)
      ensures env.connectFault.None? && req.httpMethod == "POST" && HasRequiredFields(req.body) ==>
        var t := NewTransaction(req.body, now, newId);
        (env.queryFault.Some? ==> reply == ServerError(env.queryFault.value) && records == old(records))
        && (env.queryFault.None? ==> reply == Reply(201, Success(One(t))) && records == old(records) + [t])
      ensures env.connectFault.None? && req.httpMethod != "GET" && req.httpMethod != "POST" ==>
        reply == NotAllowed(req.httpMethod) && records == old(records)
      // the collection either stays as it was or gains exactly one record, on a 201
      ensures records == old(records) || (reply.status == 201 && records[..|old(records)|] == old(records) && |records| == |old(records)| + 1)
      ensures reply.body.Success? <==> reply.status in {200, 201}
    {
      if env.connectFault.Some? {
        return ServerError(env.connectFault.value);
      }

      if req.httpMethod == "GET" {
        if env.queryFault.Some? {
          return ServerError(env.queryFault.value);
        }
        var listed := SortNewestFirst(records);
        return Reply(200, Success(Many(listed)));
      }

      if req.httpMethod == "POST" {
        if !HasRequiredFields(req.body) {
          return Reply(400, Failure(MissingFieldsError, None));
        }
        var t := NewTransaction(req.body, now, newId);
        if env.queryFault.Some? {
          return ServerError(env.queryFault.value);
        }
        records := records + [t];
        return Reply(201, Success(One(t)));
      }

      return NotAllowed(req.httpMethod);
    }
  }

  /** The amount text `"0"` is truthy, so it passes validation and is stored as the number 0. */
  lemma ZeroTextAccepted(body: Object, now: Instant, id: Id)
    requires Field(body, "amount") == JStr("0")
    requires Truthy(Field(body, "description")) && Truthy(Field(body, "type"))
    ensures HasRequiredFields(body)
    ensures NewTransaction(body, now, id).amount == Num(0.0)
  {
    assert ParseFloat("0") == Num(0.0) by {
      ParseFloatDecimalText(0);
      assert DecimalText(0) == "0";
    }
  }

  /** Amount text without a digit passes validation whenever it is not empty,
      and what is stored is NaN, not 0. */
  lemma TextWithoutDigitStoredAsNaN(body: Object, now: Instant, id: Id, text: string)
    requires Field(body, "amount") == JStr(text) && text != ""
    requires forall k :: 0 <= k < |text| ==> !IsDigit(text[k])
    requires Truthy(Field(body, "description")) && Truthy(Field(body, "type"))
    ensures HasRequiredFields(body)
    ensures NewTransaction(body, now, id).amount == NaN
  {
    ParseFloatWithoutDigits(text);
  }

  /** The type is only checked for presence: any truthy value other than
      `'income'` and `'expense'` is accepted too, and stored as sent. */
  lemma AnyTypeStored(body: Object, now: Instant, id: Id)
    requires Truthy(Field(body, "amount")) && Truthy(Field(body, "description"))
    requires Truthy(Field(body, "type"))
    requires Field(body, "type") != JStr("income") && Field(body, "type") != JStr("expense")
    ensures HasRequiredFields(body)
    ensures NewTransaction(body, now, id).kind == Field(body, "type")
  {
  }
}
