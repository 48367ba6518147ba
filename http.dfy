/** What a request handler does with the database gateway and what it answers:
    the statements it issues, in order, and the status and JSON body it sends.
    The gateway itself is not modelled; each handler receives, as an input,
    the outcome the gateway reports for the statement it issues. */
module Http {
  import opened Js
  import opened Sql
  import opened Paging

  /** A database row, as the gateway returns it. */
  type Row = map<string, JsValue>

  /** What the gateway reports for one statement: its result, or the error
      that a failed connection or query raises. */
  datatype Outcome<+T> = Done(value: T) | DbError(detail: string)

  /** The JSON bodies the handlers send. */
  datatype Body =
    | Message(text: string)                            // { message }
    | Failure(text: string, detail: string)            // { message, error }
    | Record(row: Row)                                 // result[0]
    | Inserted(text: string, key: string, id: int)     // { message, <key>: insertId }
    | Page(data: seq<Row>, pagination: Pagination)     // { data, pagination }

  datatype Response = Response(status: nat, body: Body)

  /** One request's traffic: the statements sent to the gateway, then the reply. */
  datatype Exchange = Exchange(issued: seq<Statement>, response: Response)

  /** The message every validation failure carries. */
  const Required := "Todos los campos son obligatorios"

  /** Every statement issued carries one parameter per `?`. */
  predicate WellBound(ex: Exchange)
  {
    forall i :: 0 <= i < |ex.issued| ==> Placeholders(ex.issued[i].sql) == |ex.issued[i].params|
  }

  /** The `catch` branch: status 500 with the gateway's error. */
  function Fail(text: string, detail: string): Response
  {
    Response(500, Failure(text, detail))
  }

  /** Get by id: 404 when the lookup returned no row, otherwise the first row. */
  function FindOne(result: Outcome<seq<Row>>, notFound: string, failure: string): (r: Response)
    ensures r.status == 404 <==> result.Done? && result.value == []
    ensures r.status == 200 <==> result.Done? && result.value != []
    ensures r.status == 500 <==> result.DbError?
    ensures r.status == 200 ==> r.body == Record(result.value[0])
    ensures r.status == 404 ==> r.body == Message(notFound)
  {
    match result
    case DbError(e) => Fail(failure, e)
    case Done(rows) =>
      if |rows| == 0 then Response(404, Message(notFound))
      else Response(200, Record(rows[0]))
  }

  /** Update or delete by id: 404 when no row was affected, otherwise 200. */
  function Mutated(affectedRows: Outcome<nat>, notFound: string, done: string, failure: string): (r: Response)
    ensures r.status == 404 <==> affectedRows.Done? && affectedRows.value == 0
    ensures r.status == 200 <==> affectedRows.Done? && affectedRows.value > 0
    ensures r.status == 500 <==> affectedRows.DbError?
    ensures r.status == 200 ==> r.body == Message(done)
    ensures r.status == 404 ==> r.body == Message(notFound)
  {
    match affectedRows
    case DbError(e) => Fail(failure, e)
    case Done(n) =>
      if n == 0 then Response(404, Message(notFound))
      else Response(200, Message(done))
  }

  /** Create: 201 with the id the gateway assigned. */
  function Created(insertId: Outcome<int>, text: string, key: string, failure: string): (r: Response)
    ensures r.status == 201 <==> insertId.Done?
    ensures r.status == 500 <==> insertId.DbError?
    ensures r.status == 201 ==> r.body == Inserted(text, key, insertId.value)
  {
    match insertId
    case DbError(e) => Fail(failure, e)
    case Done(id) => Response(201, Inserted(text, key, id))
  }

  /** The create/update guard `if (!a || !b || ...) return 400`: when a required
      field is falsy the handler answers 400 and issues nothing; otherwise it
      goes on with `proceed`. */
  function Guarded(required: seq<JsValue>, proceed: Exchange): (ex: Exchange)
    ensures ex.response.status == 400 <==> AnyFalsy(required) || proceed.response.status == 400
    ensures AnyFalsy(required) ==> ex.issued == [] && ex.response.body == Message(Required)
    ensures !AnyFalsy(required) ==> ex == proceed
  {
    if AnyFalsy(required) then Exchange([], Response(400, Message(Required)))
    else proceed
  }

  /** The shared shape of the three list handlers: the list statement, then,
      if it succeeded, the count statement, then the page and its summary. */
  function Listing(table: string, fs: seq<Filter>, countParams: seq<JsValue>, page: int, limit: int,
                   rows: Outcome<seq<Row>>, total: Outcome<nat>, failure: string): (ex: Exchange)
    requires limit > 0
    ensures |ex.issued| == (if rows.Done? then 2 else 1)
    ensures ex.issued[0] == Statement(ListQuery(table, fs), ListParams(fs, limit, Offset(page, limit)))
    ensures rows.Done? ==> ex.issued[1] == Statement(CountQuery(table, fs), countParams)
    ensures ex.response.status == 200 <==> rows.Done? && total.Done?
    ensures ex.response.status != 200 ==> ex.response.status == 500
    ensures ex.response.status == 200 ==>
      ex.response.body.Page? &&
      ex.response.body.data == rows.value &&
      ex.response.body.pagination == Summary(page, limit, total.value)
  {
    var list := Statement(ListQuery(table, fs), ListParams(fs, limit, Offset(page, limit)));
    match rows
    case DbError(e) => Exchange([list], Fail(failure, e))
    case Done(data) =>
      var count := Statement(CountQuery(table, fs), countParams);
      match total
      case DbError(e) => Exchange([list, count], Fail(failure, e))
      case Done(n) => Exchange([list, count], Response(200, Page(data, Summary(page, limit, n))))
  }

  /** When the count parameters are the filter parameters, every statement a
      list handler issues is fully bound, and the count statement's parameters
      are the list statement's without the trailing limit and offset. */
  lemma ListingWellBound(table: string, fs: seq<Filter>, page: int, limit: int,
                         rows: Outcome<seq<Row>>, total: Outcome<nat>, failure: string)
    requires limit > 0
    requires Plain(table, fs)
    ensures var ex := Listing(table, fs, FilterParams(fs), page, limit, rows, total, failure);
      WellBound(ex) &&
      (|ex.issued| == 2 ==> ex.issued[1].params == ex.issued[0].params[..|ex.issued[0].params| - 2])
  {
    ListQueryPlaceholders(table, fs, limit, Offset(page, limit));
    CountQueryPlaceholders(table, fs);
  }
}
