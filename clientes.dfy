/** The `/clientes` endpoints: a filtered, paginated list, and get, create,
    update and delete by `id_cliente`. Creating and updating a customer send
    the body fields as they are, with no required-field check. */
module Clientes {
  import opened Js
  import opened Sql
  import opened Paging
  import opened Http

  const Table := "clientes"

  /** The list endpoint's query-string filters. */
  datatype Query = Query(nombre: Option<string>, apellido: Option<string>,
                         telefono: Option<string>, direccion: Option<string>)

  /** A customer payload as read from the JSON body. */
  datatype Body = Body(nombre: JsValue, apellido: JsValue, email: JsValue,
                       telefono: JsValue, direccion: JsValue)

  /** All four filters are substring matches, in this order. */
  function Filters(q: Query): (fs: seq<Filter>)
    ensures Plain(Table, fs)
    ensures forall i :: 0 <= i < |fs| ==> fs[i].mode == Like
  {
    [Filter("nombre", Like, q.nombre), Filter("apellido", Like, q.apellido),
     Filter("telefono", Like, q.telefono), Filter("direccion", Like, q.direccion)]
  }

  /** The literal texts the list handler appends are those the specification
      composes; one lemma per text keeps each equality small. */
  lemma HeadText()
    ensures ListHead(Table) == "SELECT * FROM clientes WHERE 1=1"
  {
  }

  lemma NombreText()
    ensures " " + Condition("nombre", Like) == " AND nombre LIKE ?"
  {
  }

  lemma ApellidoText()
    ensures " " + Condition("apellido", Like) == " AND apellido LIKE ?"
  {
  }

  lemma TelefonoText()
    ensures " " + Condition("telefono", Like) == " AND telefono LIKE ?"
  {
  }

  lemma DireccionText()
    ensures " " + Condition("direccion", Like) == " AND direccion LIKE ?"
  {
  }

  /** The list handler's query construction: `query +=` and `params.push`
      under one `if` per filter, then the page window. */
  method BuildList(q: Query, pageNum: int, limitNum: int) returns (query: string, params: seq<JsValue>)
    ensures query == ListQuery(Table, Filters(q))
    ensures params == ListParams(Filters(q), limitNum, Offset(pageNum, limitNum))
  {
    ghost var f0, f1, f2, f3 := Filter("nombre", Like, q.nombre), Filter("apellido", Like, q.apellido), Filter("telefono", Like, q.telefono), Filter("direccion", Like, q.direccion);
    ghost var done: seq<Filter> := [];
    ghost var query0, params0;
    query := "SELECT * FROM clientes WHERE 1=1";
    params := [];
    assert query == ListHead(Table) + ListWhere(done) && params == FilterParams(done) by {
      HeadText();
    }

    query0, params0 := query, params;
    if Present(q.nombre) {
      query := query + " AND nombre LIKE ?";
      params := params + [Str("%" + q.nombre.value + "%")];
    }
    assert query == ListHead(Table) + ListWhere(done + [f0]) && params == FilterParams(done + [f0]) by {
      NombreText();
      Extend(ListHead(Table), done, f0, query0, params0, " AND nombre LIKE ?");
    }
    done := done + [f0];

    query0, params0 := query, params;
    if Present(q.apellido) {
      query := query + " AND apellido LIKE ?";
      params := params + [Str("%" + q.apellido.value + "%")];
    }
    assert query == ListHead(Table) + ListWhere(done + [f1]) && params == FilterParams(done + [f1]) by {
      ApellidoText();
      Extend(ListHead(Table), done, f1, query0, params0, " AND apellido LIKE ?");
    }
    done := done + [f1];

    query0, params0 := query, params;
    if Present(q.telefono) {
      query := query + " AND telefono LIKE ?";
      params := params + [Str("%" + q.telefono.value + "%")];
    }
    assert query == ListHead(Table) + ListWhere(done + [f2]) && params == FilterParams(done + [f2]) by {
      TelefonoText();
      Extend(ListHead(Table), done, f2, query0, params0, " AND telefono LIKE ?");
    }
    done := done + [f2];

    query0, params0 := query, params;
    if Present(q.direccion) {
      query := query + " AND direccion LIKE ?";
      params := params + [Str("%" + q.direccion.value + "%")];
    }
    assert query == ListHead(Table) + ListWhere(done + [f3]) && params == FilterParams(done + [f3]) by {
      DireccionText();
      Extend(ListHead(Table), done, f3, query0, params0, " AND direccion LIKE ?");
    }
    done := done + [f3];
    Appended(f0, f1, f2, f3);
    assert done == Filters(q);

    var offset := (pageNum - 1) * limitNum;
    query := query + " LIMIT ? OFFSET ?";
    params := params + [Num(limitNum as real), Num(offset as real)];
  }

  /** The customer list query, written out: one ` AND <field> LIKE ?` per
      non-empty filter in the order nombre, apellido, telefono, direccion,
      each bound to the filter value wrapped in `%`. */
  lemma QueryText(q: Query, limitNum: int, offset: int)
    ensures ListQuery(Table, Filters(q)) ==
      "SELECT * FROM clientes WHERE 1=1" +
      (if Present(q.nombre) then " AND nombre LIKE ?" else "") +
      (if Present(q.apellido) then " AND apellido LIKE ?" else "") +
      (if Present(q.telefono) then " AND telefono LIKE ?" else "") +
      (if Present(q.direccion) then " AND direccion LIKE ?" else "") +
      " LIMIT ? OFFSET ?"
    ensures ListParams(Filters(q), limitNum, offset) ==
      (if Present(q.nombre) then [Str("%" + q.nombre.value + "%")] else []) +
      (if Present(q.apellido) then [Str("%" + q.apellido.value + "%")] else []) +
      (if Present(q.telefono) then [Str("%" + q.telefono.value + "%")] else []) +
      (if Present(q.direccion) then [Str("%" + q.direccion.value + "%")] else []) +
      [Num(limitNum as real), Num(offset as real)]
  {
    var fs := Filters(q);
    HeadText();
    NombreText();
    ApellidoText();
    TelefonoText();
    DireccionText();
    FourFilters(ListHead(Table), fs);
  }

  /** Filtering on `nombre=Ana` alone (an empty `telefono` is ignored),
      first page of ten. */
  lemma ExampleNombreAna()
    ensures ListQuery(Table, Filters(Query(Some("Ana"), None, Some(""), None)))
         == "SELECT * FROM clientes WHERE 1=1" + " AND nombre LIKE ?" + " LIMIT ? OFFSET ?"
    ensures ListParams(Filters(Query(Some("Ana"), None, Some(""), None)), 10, Offset(1, 10))
         == [Str("%Ana%"), Num(10.0), Num(0.0)]
  {
    var q := Query(Some("Ana"), None, Some(""), None);
    QueryText(q, 10, 0);
    var a := "SELECT * FROM clientes WHERE 1=1" + " AND nombre LIKE ?";
    assert a + "" + "" + "" == a;
    assert "%" + "Ana" + "%" == "%Ana%";
    assert [Str("%Ana%")] + [] + [] + [] + [Num(10 as real), Num(0 as real)] == [Str("%Ana%"), Num(10.0), Num(0.0)];
  }

  /** `params.slice(0, -2)`: the count query's parameters, cut from the list
      query's. */
  function CountParams(q: Query, pageNum: int, limitNum: int): seq<JsValue>
  {
    Slice(ListParams(Filters(q), limitNum, Offset(pageNum, limitNum)), 0, -2)
  }

  /** Cutting the trailing two parameters leaves exactly the filter values. */
  lemma CountParamsAreFilterParams(q: Query, pageNum: int, limitNum: int)
    ensures CountParams(q, pageNum, limitNum) == FilterParams(Filters(q))
  {
    var ps := ListParams(Filters(q), limitNum, Offset(pageNum, limitNum));
    assert Slice(ps, 0, -2) == ps[0..|ps| - 2];
  }

  /** `GET /clientes`. */
  function List(q: Query, pageNum: int, limitNum: int, rows: Outcome<seq<Row>>, total: Outcome<nat>): (ex: Exchange)
    requires limitNum > 0
    ensures WellBound(ex) && 1 <= |ex.issued| <= 2
    ensures ex.issued[0].sql == ListQuery(Table, Filters(q))
    ensures ex.issued[0].params == ListParams(Filters(q), limitNum, Offset(pageNum, limitNum))
    ensures |ex.issued| == 2 ==>
      ex.issued[1].params == ex.issued[0].params[..|ex.issued[0].params| - 2] &&
      ex.issued[1].sql == CountQuery(Table, Filters(q))
    ensures |ex.issued| == (if rows.Done? then 2 else 1)
    ensures ex.response.status == 200 <==> rows.Done? && total.Done?
    ensures ex.response.status != 200 ==> ex.response.status == 500
    ensures ex.response.status == 200 ==>
      ex.response.body.Page? && ex.response.body.data == rows.value &&
      ex.response.body.pagination == Summary(pageNum, limitNum, total.value)
  {
    CountParamsAreFilterParams(q, pageNum, limitNum);
    ListingWellBound(Table, Filters(q), pageNum, limitNum, rows, total, "Error al obtener los clientes");
    Listing(Table, Filters(q), CountParams(q, pageNum, limitNum), pageNum, limitNum, rows, total,
            "Error al obtener los clientes")
  }

  /** The by-id statements, each as the text between its placeholders. The
      contracts below spell each statement as those parts joined by `"?"`, the
      source literal cut at every placeholder: equalities between literals
      split the same way stay small enough for the verifier. */
  const SelectById := ["SELECT * FROM clientes WHERE id_cliente = ", ""]
  const Insert := ["INSERT INTO clientes (nombre, apellido, " + "email, telefono, direccion, created_at) " + "VALUES (",
                   ", ", ", ", ", ", ", ", ", NOW())"]
  const UpdateById := ["UPDATE clientes SET nombre = ", ", apellido = ", ", email = ", ", telefono = ",
                       ", direccion = ", ", updated_at = NOW() WHERE id_cliente = ", ""]
  const DeleteById := ["DELETE FROM clientes WHERE id_cliente = ", ""]

  /** The by-id statement texts written out, and their placeholder counts. */
  lemma SelectText()
    ensures Bind(SelectById) == "SELECT * FROM clientes WHERE id_cliente = " + "?"
  {
    BindTwo(SelectById);
  }

  lemma SelectPlaceholders()
    ensures Placeholders(Bind(SelectById)) == 1
  {
    BindPlaceholders(SelectById);
  }

  lemma InsertText()
    ensures Bind(Insert) == "INSERT INTO clientes (nombre, apellido, " + "email, telefono, direccion, created_at) " +
      "VALUES (" + "?" + ", " + "?" + ", " + "?" + ", " + "?" + ", " + "?" + ", NOW())"
  {
    BindSix(Insert);
  }

  lemma InsertPlaceholders()
    ensures Placeholders(Bind(Insert)) == 5
  {
    assert '?' !in Insert[0] by {
      assert '?' !in "INSERT INTO clientes (nombre, apellido, ";
      assert '?' !in "email, telefono, direccion, created_at) ";
      assert '?' !in "VALUES (";
    }
    BindPlaceholders(Insert);
  }

  lemma UpdateText()
    ensures Bind(UpdateById) == "UPDATE clientes SET nombre = " + "?" + ", apellido = " + "?" + ", email = " + "?" +
      ", telefono = " + "?" + ", direccion = " + "?" + ", updated_at = NOW() WHERE id_cliente = " + "?"
  {
    BindSeven(UpdateById);
  }

  lemma UpdatePlaceholders()
    ensures Placeholders(Bind(UpdateById)) == 6
  {
    BindPlaceholders(UpdateById);
  }

  lemma DeleteText()
    ensures Bind(DeleteById) == "DELETE FROM clientes WHERE id_cliente = " + "?"
  {
    BindTwo(DeleteById);
  }

  lemma DeletePlaceholders()
    ensures Placeholders(Bind(DeleteById)) == 1
  {
    BindPlaceholders(DeleteById);
  }

  /** `GET /clientes/:id`. */
  function Get(id: string, result: Outcome<seq<Row>>): (ex: Exchange)
    ensures WellBound(ex) && |ex.issued| == 1 && ex.issued[0].params == [Str(id)]
    ensures ex.issued[0].sql == "SELECT * FROM clientes WHERE id_cliente = " + "?"
    ensures ex.response.status == 404 <==> result == Done([])
    ensures ex.response.status == 200 <==> result.Done? && result.value != []
    ensures ex.response.status == 500 <==> result.DbError?
    ensures ex.response.status == 200 ==> ex.response.body == Record(result.value[0])
  {
    SelectText();
    SelectPlaceholders();
    Exchange([Statement(Bind(SelectById), [Str(id)])],
             FindOne(result, "Cliente no encontrado", "Error al obtener cliente"))
  }

  /** `POST /clientes`: no field is checked, so the insert is always issued. */
  function Create(b: Body, insertId: Outcome<int>): (ex: Exchange)
    ensures WellBound(ex) && |ex.issued| == 1
    ensures ex.issued[0].sql == "INSERT INTO clientes (nombre, apellido, " + "email, telefono, direccion, created_at) " +
      "VALUES (" + "?" + ", " + "?" + ", " + "?" + ", " + "?" + ", " + "?" + ", NOW())"
    ensures ex.issued[0].params == [b.nombre, b.apellido, b.email, b.telefono, b.direccion]
    ensures ex.response.status == 201 <==> insertId.Done?
    ensures ex.response.status == 201 ==> ex.response.body == Inserted("Cliente creado", "id_cliente", insertId.value)
    ensures ex.response.status != 201 ==> ex.response.status == 500
  {
    InsertText();
    InsertPlaceholders();
    Exchange([Statement(Bind(Insert), [b.nombre, b.apellido, b.email, b.telefono, b.direccion])],
             Created(insertId, "Cliente creado", "id_cliente", "Error al crear cliente"))
  }

  /** `PUT /clientes/:id`: no field is checked; 404 when no row was updated. */
  function Update(id: string, b: Body, affectedRows: Outcome<nat>): (ex: Exchange)
    ensures WellBound(ex) && |ex.issued| == 1
    ensures ex.issued[0].sql == "UPDATE clientes SET nombre = " + "?" + ", apellido = " + "?" + ", email = " + "?" +
      ", telefono = " + "?" + ", direccion = " + "?" + ", updated_at = NOW() WHERE id_cliente = " + "?"
    ensures ex.issued[0].params == [b.nombre, b.apellido, b.email, b.telefono, b.direccion, Str(id)]
    ensures ex.response.status == 404 <==> affectedRows == Done(0)
    ensures ex.response.status == 200 <==> affectedRows.Done? && affectedRows.value > 0
    ensures ex.response.status == 500 <==> affectedRows.DbError?
  {
    UpdateText();
    UpdatePlaceholders();
    Exchange([Statement(Bind(UpdateById), [b.nombre, b.apellido, b.email, b.telefono, b.direccion, Str(id)])],
             Mutated(affectedRows, "Cliente no encontrado", "Cliente actualizado", "Error al actualizar cliente"))
  }

  /** `DELETE /clientes/:id`: 404 when no row was deleted. */
  function Delete(id: string, affectedRows: Outcome<nat>): (ex: Exchange)
    ensures WellBound(ex) && |ex.issued| == 1 && ex.issued[0].params == [Str(id)]
    ensures ex.issued[0].sql == "DELETE FROM clientes WHERE id_cliente = " + "?"
    ensures ex.response.status == 404 <==> affectedRows == Done(0)
    ensures ex.response.status == 200 <==> affectedRows.Done? && affectedRows.value > 0
    ensures ex.response.status == 500 <==> affectedRows.DbError?
  {
    DeleteText();
    DeletePlaceholders();
    Exchange([Statement(Bind(DeleteById), [Str(id)])],
             Mutated(affectedRows, "Cliente no encontrado", "Cliente eliminado", "Error al eliminar cliente"))
  }
}
