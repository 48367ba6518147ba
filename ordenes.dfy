/** The `/ordenes` endpoints: a filtered, paginated list, and get, create,
    update and delete by `id_orden`. Creating and updating an order require
    `fecha`, `total` and `id_cliente` to be truthy. */
module Ordenes {
  import opened Js
  import opened Sql
  import opened Paging
  import opened Http

  const Table := "ordenes"

  /** The list endpoint's query-string filters. */
  datatype Query = Query(id_cliente: Option<string>, fecha: Option<string>)

  /** An order payload as read from the JSON body. */
  datatype Body = Body(fecha: JsValue, total: JsValue, id_cliente: JsValue)

  /** Both filters are exact matches, in this order. */
  function Filters(q: Query): (fs: seq<Filter>)
    ensures Plain(Table, fs)
    ensures forall i :: 0 <= i < |fs| ==> fs[i].mode == Exact
  {
    [Filter("id_cliente", Exact, q.id_cliente), Filter("fecha", Exact, q.fecha)]
  }

  /** The literal texts the list handler appends are those the specification
      composes. */
  lemma Texts()
    ensures ListHead(Table) == "SELECT * FROM ordenes WHERE 1=1"
    ensures " " + Condition("id_cliente", Exact) == " AND id_cliente = ?"
    ensures " " + Condition("fecha", Exact) == " AND fecha = ?"
  {
  }

  /** The list handler's query construction: `query +=` and `params.push`
      under one `if` per filter, then the page window. */
  method BuildList(q: Query, pageNum: int, limitNum: int) returns (query: string, params: seq<JsValue>)
    ensures query == ListQuery(Table, Filters(q))
    ensures params == ListParams(Filters(q), limitNum, Offset(pageNum, limitNum))
  {
    ghost var f0, f1 := Filter("id_cliente", Exact, q.id_cliente), Filter("fecha", Exact, q.fecha);
    ghost var done: seq<Filter> := [];
    ghost var query0, params0;
    Texts();
    query := "SELECT * FROM ordenes WHERE 1=1";
    params := [];

    query0, params0 := query, params;
    if Present(q.id_cliente) {
      query := query + " AND id_cliente = ?";
      params := params + [Str(q.id_cliente.value)];
    }
    Extend(ListHead(Table), done, f0, query0, params0, " AND id_cliente = ?");
    done := done + [f0];

    query0, params0 := query, params;
    if Present(q.fecha) {
      query := query + " AND fecha = ?";
      params := params + [Str(q.fecha.value)];
    }
    Extend(ListHead(Table), done, f1, query0, params0, " AND fecha = ?");
    done := done + [f1];
    Appended(f0, f1, f0, f1);
    assert done == Filters(q);

    var offset := (pageNum - 1) * limitNum;
    query := query + " LIMIT ? OFFSET ?";
    params := params + [Num(limitNum as real), Num(offset as real)];
  }

  /** The order list query, written out: ` AND id_cliente = ?` then
      ` AND fecha = ?`, each only when its filter is non-empty and each bound to
      the raw query value. */
  lemma QueryText(q: Query, limitNum: int, offset: int)
    ensures ListQuery(Table, Filters(q)) ==
      "SELECT * FROM ordenes WHERE 1=1" +
      (if Present(q.id_cliente) then " AND id_cliente = ?" else "") +
      (if Present(q.fecha) then " AND fecha = ?" else "") +
      " LIMIT ? OFFSET ?"
    ensures ListParams(Filters(q), limitNum, offset) ==
      (if Present(q.id_cliente) then [Str(q.id_cliente.value)] else []) +
      (if Present(q.fecha) then [Str(q.fecha.value)] else []) +
      [Num(limitNum as real), Num(offset as real)]
  {
    var fs := Filters(q);
    Texts();
    TwoFilters(ListHead(Table), fs);
  }

  /** `id_cliente ? [id_cliente, fecha].filter(Boolean) : [fecha].filter(Boolean)`:
      the count query's parameters, assembled anew rather than cut from the
      list query's. */
  function CountParams(q: Query): seq<JsValue>
  {
    if Present(q.id_cliente) then FilterBoolean([FromQuery(q.id_cliente), FromQuery(q.fecha)])
    else FilterBoolean([FromQuery(q.fecha)])
  }

  /** The separately assembled count parameters are nevertheless exactly the
      list query's filter values, in the same order. */
  lemma CountParamsAreFilterParams(q: Query)
    ensures CountParams(q) == FilterParams(Filters(q))
  {
    var fs := Filters(q);
    assert fs[..1][..0] == [];
    assert fs[..1] == [fs[0]];
    var a, b := FromQuery(q.id_cliente), FromQuery(q.fecha);
    assert fs[..|fs| - 1] == fs[..1];
    assert FilterParams(fs[..1]) == FilterParams(fs[..1][..0]) + ParamPiece(fs[0]);
    assert FilterParams(fs) == FilterParams(fs[..1]) + ParamPiece(fs[1]);
    assert [a, b][1..] == [b];
    assert [b][1..] == [];
    assert FilterBoolean([b]) == (if Truthy(b) then [b] else []);
    assert FilterBoolean([a, b]) == (if Truthy(a) then [a] else []) + FilterBoolean([b]);
  }

  /** `GET /ordenes`. */
  function List(q: Query, pageNum: int, limitNum: int, rows: Outcome<seq<Row>>, total: Outcome<nat>): (ex: Exchange)
    requires limitNum > 0
    ensures WellBound(ex) && 1 <= |ex.issued| <= 2
    ensures ex.issued[0].sql == ListQuery(Table, Filters(q))
    ensures ex.issued[0].params == ListParams(Filters(q), limitNum, Offset(pageNum, limitNum))
    ensures |ex.issued| == 2 ==>
      ex.issued[1].params == ex.issued[0].params[..|ex.issued[0].params| - 2] &&
      ex.issued[1].sql == CountQuery(Table, Filters(q))
    ensures |ex.issued| == (if rows.Done? then 2 else 1)
    ensures ex.response.status == 200 <==> rows.Done? && total.Done?
    ensures ex.response.status != 200 ==> ex.response.status == 500
    ensures ex.response.status == 200 ==>
      ex.response.body.Page? && ex.response.body.data == rows.value &&
      ex.response.body.pagination == Summary(pageNum, limitNum, total.value)
  {
    CountParamsAreFilterParams(q);
    ListingWellBound(Table, Filters(q), pageNum, limitNum, rows, total, "Error al obtener las órdenes");
    Listing(Table, Filters(q), CountParams(q), pageNum, limitNum, rows, total, "Error al obtener las órdenes")
  }

  /** The create/update guard `!fecha || !total || !id_cliente`. */
  function Required(b: Body): seq<JsValue>
  {
    [b.fecha, b.total, b.id_cliente]
  }

  lemma RequiredFalsy(b: Body)
    ensures AnyFalsy(Required(b)) <==> !Truthy(b.fecha) || !Truthy(b.total) || !Truthy(b.id_cliente)
  {
    var vs := Required(b);
    assert vs[0] == b.fecha && vs[1] == b.total && vs[2] == b.id_cliente;
  }

  /** The by-id statements, each as the text between its placeholders. The
      contracts below spell each statement as those parts joined by `"?"`, the
      source literal cut at every placeholder: equalities between literals
      split the same way stay small enough for the verifier. */
  const Insert := ["INSERT INTO ordenes (fecha, total, " + "id_cliente) VALUES (", ", ", ", ", ")"]
  const SelectById := ["SELECT * FROM ordenes WHERE id_orden = ", ""]
  const UpdateById := ["UPDATE ordenes SET fecha = ", ", total = ", ", id_cliente = ", " WHERE id_orden = ", ""]
  const DeleteById := ["DELETE FROM ordenes WHERE id_orden = ", ""]

  /** The by-id statement texts written out, and their placeholder counts. */
  lemma InsertText()
    ensures Bind(Insert) == "INSERT INTO ordenes (fecha, total, " + "id_cliente) VALUES (" +
      "?" + ", " + "?" + ", " + "?" + ")"
  {
    BindFour(Insert);
  }

  lemma InsertPlaceholders()
    ensures Placeholders(Bind(Insert)) == 3
  {
    BindPlaceholders(Insert);
  }

  lemma SelectText()
    ensures Bind(SelectById) == "SELECT * FROM ordenes WHERE id_orden = " + "?"
  {
    BindTwo(SelectById);
  }

  lemma SelectPlaceholders()
    ensures Placeholders(Bind(SelectById)) == 1
  {
    BindPlaceholders(SelectById);
  }

  lemma UpdateText()
    ensures Bind(UpdateById) == "UPDATE ordenes SET fecha = " + "?" + ", total = " + "?" + ", id_cliente = " + "?" +
      " WHERE id_orden = " + "?"
  {
    BindFive(UpdateById);
  }

  lemma UpdatePlaceholders()
    ensures Placeholders(Bind(UpdateById)) == 4
  {
    BindPlaceholders(UpdateById);
  }

  lemma DeleteText()
    ensures Bind(DeleteById) == "DELETE FROM ordenes WHERE id_orden = " + "?"
  {
    BindTwo(DeleteById);
  }

  lemma DeletePlaceholders()
    ensures Placeholders(Bind(DeleteById)) == 1
  {
    BindPlaceholders(DeleteById);
  }

  /** `POST /ordenes`. */
  function Create(b: Body, insertId: Outcome<int>): (ex: Exchange)
    ensures ex.response.status == 400 <==> !Truthy(b.fecha) || !Truthy(b.total) || !Truthy(b.id_cliente)
    ensures ex.response.status == 400 <==> ex.issued == []
    ensures ex.response.status != 400 ==>
      WellBound(ex) && |ex.issued| == 1 &&
      ex.issued[0].sql == "INSERT INTO ordenes (fecha, total, " + "id_cliente) VALUES (" +
        "?" + ", " + "?" + ", " + "?" + ")" &&
      ex.issued[0].params == [b.fecha, b.total, b.id_cliente] &&
      (ex.response.status == 201 <==> insertId.Done?) &&
      (ex.response.status == 201 ==> ex.response.body == Inserted("Orden creada", "id_orden", insertId.value)) &&
      (ex.response.status == 500 <==> insertId.DbError?)
  {
    InsertText();
    InsertPlaceholders();
    RequiredFalsy(b);
    Guarded(Required(b),
            Exchange([Statement(Bind(Insert), [b.fecha, b.total, b.id_cliente])],
                     Created(insertId, "Orden creada", "id_orden", "Error al crear la orden")))
  }

  /** `GET /ordenes/:id`. */
  function Get(id: string, result: Outcome<seq<Row>>): (ex: Exchange)
    ensures WellBound(ex) && |ex.issued| == 1 && ex.issued[0].params == [Str(id)]
    ensures ex.issued[0].sql == "SELECT * FROM ordenes WHERE id_orden = " + "?"
    ensures ex.response.status == 404 <==> result == Done([])
    ensures ex.response.status == 200 <==> result.Done? && result.value != []
    ensures ex.response.status == 500 <==> result.DbError?
    ensures ex.response.status == 200 ==> ex.response.body == Record(result.value[0])
  {
    SelectText();
    SelectPlaceholders();
    Exchange([Statement(Bind(SelectById), [Str(id)])],
             FindOne(result, "Orden no encontrada", "Error al obtener la orden"))
  }

  /** `PUT /ordenes/:id`. */
  function Update(id: string, b: Body, affectedRows: Outcome<nat>): (ex: Exchange)
    ensures ex.response.status == 400 <==> !Truthy(b.fecha) || !Truthy(b.total) || !Truthy(b.id_cliente)
    ensures ex.response.status == 400 <==> ex.issued == []
    ensures ex.response.status != 400 ==>
      WellBound(ex) && |ex.issued| == 1 &&
      ex.issued[0].sql == "UPDATE ordenes SET fecha = " + "?" + ", total = " + "?" + ", id_cliente = " + "?" +
        " WHERE id_orden = " + "?" &&
      ex.issued[0].params == [b.fecha, b.total, b.id_cliente, Str(id)] &&
      (ex.response.status == 404 <==> affectedRows == Done(0)) &&
      (ex.response.status == 200 <==> affectedRows.Done? && affectedRows.value > 0) &&
      (ex.response.status == 500 <==> affectedRows.DbError?)
  {
    UpdateText();
    UpdatePlaceholders();
    RequiredFalsy(b);
    Guarded(Required(b),
            Exchange([Statement(Bind(UpdateById), [b.fecha, b.total, b.id_cliente, Str(id)])],
                     Mutated(affectedRows, "Orden no encontrada", "Orden actualizada", "Error al actualizar la orden")))
  }

  /** `DELETE /ordenes/:id`. */
  function Delete(id: string, affectedRows: Outcome<nat>): (ex: Exchange)
    ensures WellBound(ex) && |ex.issued| == 1 && ex.issued[0].params == [Str(id)]
    ensures ex.issued[0].sql == "DELETE FROM ordenes WHERE id_orden = " + "?"
    ensures ex.response.status == 404 <==> affectedRows == Done(0)
    ensures ex.response.status == 200 <==> affectedRows.Done? && affectedRows.value > 0
    ensures ex.response.status == 500 <==> affectedRows.DbError?
  {
    DeleteText();
    DeletePlaceholders();
    Exchange([Statement(Bind(DeleteById), [Str(id)])],
             Mutated(affectedRows, "Orden no encontrada", "Orden eliminada", "Error al eliminar la orden"))
  }
}
