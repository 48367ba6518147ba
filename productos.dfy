/** The `/productos` endpoints: a filtered, paginated list, and get, create,
    update and delete by `id_producto`. Creating and updating a product
    require all five fields to be truthy. */
module Productos {
  import opened Js
  import opened Sql
  import opened Paging
  import opened Http

  const Table := "productos"

  /** The list endpoint's query-string filters. */
  datatype Query = Query(nombre: Option<string>, categoria: Option<string>)

  /** A product payload as read from the JSON body. */
  datatype Body = Body(nombre: JsValue, descripcion: JsValue, precio: JsValue, stock: JsValue, categoria: JsValue)

  /** `nombre` is a substring match and `categoria` an exact match, in this order. */
  function Filters(q: Query): (fs: seq<Filter>)
    ensures Plain(Table, fs)
    ensures |fs| == 2 && fs[0].mode == Like && fs[1].mode == Exact
  {
    [Filter("nombre", Like, q.nombre), Filter("categoria", Exact, q.categoria)]
  }

  /** The literal texts the list handler appends are those the specification
      composes. */
  lemma Texts()
    ensures ListHead(Table) == "SELECT * FROM productos WHERE 1=1"
    ensures " " + Condition("nombre", Like) == " AND nombre LIKE ?"
    ensures " " + Condition("categoria", Exact) == " AND categoria = ?"
  {
  }

  /** The list handler's query construction: `query +=` and `params.push`
      under one `if` per filter, then the page window. */
  method BuildList(q: Query, pageNum: int, limitNum: int) returns (query: string, params: seq<JsValue>)
    ensures query == ListQuery(Table, Filters(q))
    ensures params == ListParams(Filters(q), limitNum, Offset(pageNum, limitNum))
  {
    ghost var f0, f1 := Filter("nombre", Like, q.nombre), Filter("categoria", Exact, q.categoria);
    ghost var done: seq<Filter> := [];
    ghost var query0, params0;
    Texts();
    query := "SELECT * FROM productos WHERE 1=1";
    params := [];

    query0, params0 := query, params;
    if Present(q.nombre) {
      query := query + " AND nombre LIKE ?";
      params := params + [Str("%" + q.nombre.value + "%")];
    }
    Extend(ListHead(Table), done, f0, query0, params0, " AND nombre LIKE ?");
    done := done + [f0];

    query0, params0 := query, params;
    if Present(q.categoria) {
      query := query + " AND categoria = ?";
      params := params + [Str(q.categoria.value)];
    }
    Extend(ListHead(Table), done, f1, query0, params0, " AND categoria = ?");
    done := done + [f1];
    Appended(f0, f1, f0, f1);
    assert done == Filters(q);

    var offset := (pageNum - 1) * limitNum;
    query := query + " LIMIT ? OFFSET ?";
    params := params + [Num(limitNum as real), Num(offset as real)];
  }

  /** The product list query, written out: ` AND nombre LIKE ?` bound to the
      value wrapped in `%`, then ` AND categoria = ?` bound to the raw value,
      each only when its filter is non-empty. */
  lemma QueryText(q: Query, limitNum: int, offset: int)
    ensures ListQuery(Table, Filters(q)) ==
      "SELECT * FROM productos WHERE 1=1" +
      (if Present(q.nombre) then " AND nombre LIKE ?" else "") +
      (if Present(q.categoria) then " AND categoria = ?" else "") +
      " LIMIT ? OFFSET ?"
    ensures ListParams(Filters(q), limitNum, offset) ==
      (if Present(q.nombre) then [Str("%" + q.nombre.value + "%")] else []) +
      (if Present(q.categoria) then [Str(q.categoria.value)] else []) +
      [Num(limitNum as real), Num(offset as real)]
  {
    var fs := Filters(q);
    Texts();
    TwoFilters(ListHead(Table), fs);
  }

  /** `nombre ? [`%${nombre}%`, categoria].filter(Boolean) : [categoria].filter(Boolean)`:
      the count query's parameters, assembled anew rather than cut from the
      list query's. */
  function CountParams(q: Query): seq<JsValue>
  {
    if Present(q.nombre) then FilterBoolean([Str("%" + q.nombre.value + "%"), FromQuery(q.categoria)])
    else FilterBoolean([FromQuery(q.categoria)])
  }

  /** The separately assembled count parameters are nevertheless exactly the
      list query's filter values, in the same order. */
  lemma CountParamsAreFilterParams(q: Query)
    ensures CountParams(q) == FilterParams(Filters(q))
  {
    var fs := Filters(q);
    assert fs[..1][..0] == [];
    assert fs[..|fs| - 1] == fs[..1];
    assert FilterParams(fs[..1]) == FilterParams(fs[..1][..0]) + ParamPiece(fs[0]);
    assert FilterParams(fs) == FilterParams(fs[..1]) + ParamPiece(fs[1]);
    var b := FromQuery(q.categoria);
    assert [b][1..] == [];
    assert FilterBoolean([b]) == (if Truthy(b) then [b] else []);
    if Present(q.nombre) {
      var a := Str("%" + q.nombre.value + "%");
      assert [a, b][1..] == [b];
      assert FilterBoolean([a, b]) == [a] + FilterBoolean([b]);
    }
  }

  /** `GET /productos`. */
  function List(q: Query, pageNum: int, limitNum: int, rows: Outcome<seq<Row>>, total: Outcome<nat>): (ex: Exchange)
    requires limitNum > 0
    ensures WellBound(ex) && 1 <= |ex.issued| <= 2
    ensures ex.issued[0].sql == ListQuery(Table, Filters(q))
    ensures ex.issued[0].params == ListParams(Filters(q), limitNum, Offset(pageNum, limitNum))
    ensures |ex.issued| == 2 ==>
      ex.issued[1].params == ex.issued[0].params[..|ex.issued[0].params| - 2] &&
      ex.issued[1].sql == CountQuery(Table, Filters(q))
    ensures |ex.issued| == (if rows.Done? then 2 else 1)
    ensures ex.response.status == 200 <==> rows.Done? && total.Done?
    ensures ex.response.status != 200 ==> ex.response.status == 500
    ensures ex.response.status == 200 ==>
      ex.response.body.Page? && ex.response.body.data == rows.value &&
      ex.response.body.pagination == Summary(pageNum, limitNum, total.value)
  {
    CountParamsAreFilterParams(q);
    ListingWellBound(Table, Filters(q), pageNum, limitNum, rows, total, "Error al obtener los productos");
    Listing(Table, Filters(q), CountParams(q), pageNum, limitNum, rows, total, "Error al obtener los productos")
  }

  /** The create/update guard `!nombre || !descripcion || !precio || !stock || !categoria`. */
  function Required(b: Body): seq<JsValue>
  {
    [b.nombre, b.descripcion, b.precio, b.stock, b.categoria]
  }

  /** Every field of a product payload is required to be truthy. */
  predicate Complete(b: Body)
  {
    Truthy(b.nombre) && Truthy(b.descripcion) && Truthy(b.precio) && Truthy(b.stock) && Truthy(b.categoria)
  }

  lemma RequiredFalsy(b: Body)
    ensures AnyFalsy(Required(b)) <==> !Complete(b)
  {
    var vs := Required(b);
    assert vs[0] == b.nombre && vs[1] == b.descripcion && vs[2] == b.precio;
    assert vs[3] == b.stock && vs[4] == b.categoria;
  }

  /** The by-id statements, each as the text between its placeholders. The
      contracts below spell each statement as those parts joined by `"?"`, the
      source literal cut at every placeholder: equalities between literals
      split the same way stay small enough for the verifier. */
  const Insert := ["INSERT INTO productos (nombre, " + "descripcion, precio, stock, categoria) " + "VALUES (",
                   ", ", ", ", ", ", ", ", ")"]
  const SelectById := ["SELECT * FROM productos WHERE id_producto = ", ""]
  const UpdateById := ["UPDATE productos SET nombre = ", ", descripcion = ", ", precio = ", ", stock = ",
                       ", categoria = ", " WHERE id_producto = ", ""]
  const DeleteById := ["DELETE FROM productos WHERE id_producto = ", ""]

  /** The by-id statement texts written out, and their placeholder counts. */
  lemma InsertText()
    ensures Bind(Insert) == "INSERT INTO productos (nombre, " + "descripcion, precio, stock, categoria) " +
      "VALUES (" + "?" + ", " + "?" + ", " + "?" + ", " + "?" + ", " + "?" + ")"
  {
    BindSix(Insert);
  }

  lemma InsertPlaceholders()
    ensures Placeholders(Bind(Insert)) == 5
  {
    assert '?' !in Insert[0] by {
      assert '?' !in "INSERT INTO productos (nombre, ";
      assert '?' !in "descripcion, precio, stock, categoria) ";
      assert '?' !in "VALUES (";
    }
    BindPlaceholders(Insert);
  }

  lemma SelectText()
    ensures Bind(SelectById) == "SELECT * FROM productos WHERE id_producto = " + "?"
  {
    BindTwo(SelectById);
  }

  lemma SelectPlaceholders()
    ensures Placeholders(Bind(SelectById)) == 1
  {
    BindPlaceholders(SelectById);
  }

  lemma UpdateText()
    ensures Bind(UpdateById) == "UPDATE productos SET nombre = " + "?" + ", descripcion = " + "?" +
      ", precio = " + "?" + ", stock = " + "?" + ", categoria = " + "?" + " WHERE id_producto = " + "?"
  {
    BindSeven(UpdateById);
  }

  lemma UpdatePlaceholders()
    ensures Placeholders(Bind(UpdateById)) == 6
  {
    BindPlaceholders(UpdateById);
  }

  lemma DeleteText()
    ensures Bind(DeleteById) == "DELETE FROM productos WHERE id_producto = " + "?"
  {
    BindTwo(DeleteById);
  }

  lemma DeletePlaceholders()
    ensures Placeholders(Bind(DeleteById)) == 1
  {
    BindPlaceholders(DeleteById);
  }

  /** `POST /productos`. */
  function Create(b: Body, insertId: Outcome<int>): (ex: Exchange)
    ensures ex.response.status == 400 <==> !Complete(b)
    ensures ex.response.status == 400 <==> ex.issued == []
    ensures ex.response.status != 400 ==>
      WellBound(ex) && |ex.issued| == 1 &&
      ex.issued[0].sql == "INSERT INTO productos (nombre, " + "descripcion, precio, stock, categoria) " +
        "VALUES (" + "?" + ", " + "?" + ", " + "?" + ", " + "?" + ", " + "?" + ")" &&
      ex.issued[0].params == [b.nombre, b.descripcion, b.precio, b.stock, b.categoria] &&
      (ex.response.status == 201 <==> insertId.Done?) &&
      (ex.response.status == 201 ==> ex.response.body == Inserted("Producto creado", "id_producto", insertId.value)) &&
      (ex.response.status == 500 <==> insertId.DbError?)
  {
    InsertText();
    InsertPlaceholders();
    RequiredFalsy(b);
    Guarded(Required(b),
            Exchange([Statement(Bind(Insert), [b.nombre, b.descripcion, b.precio, b.stock, b.categoria])],
                     Created(insertId, "Producto creado", "id_producto", "Error al crear el producto")))
  }

  /** `GET /productos/:id`. */
  function Get(id: string, result: Outcome<seq<Row>>): (ex: Exchange)
    ensures WellBound(ex) && |ex.issued| == 1 && ex.issued[0].params == [Str(id)]
    ensures ex.issued[0].sql == "SELECT * FROM productos WHERE id_producto = " + "?"
    ensures ex.response.status == 404 <==> result == Done([])
    ensures ex.response.status == 200 <==> result.Done? && result.value != []
    ensures ex.response.status == 500 <==> result.DbError?
    ensures ex.response.status == 200 ==> ex.response.body == Record(result.value[0])
  {
    SelectText();
    SelectPlaceholders();
    Exchange([Statement(Bind(SelectById), [Str(id)])],
             FindOne(result, "Producto no encontrado", "Error al obtener el producto"))
  }

  /** `PUT /productos/:id`. */
  function Update(id: string, b: Body, affectedRows: Outcome<nat>): (ex: Exchange)
    ensures ex.response.status == 400 <==> !Complete(b)
    ensures ex.response.status == 400 <==> ex.issued == []
    ensures ex.response.status != 400 ==>
      WellBound(ex) && |ex.issued| == 1 &&
      ex.issued[0].sql == "UPDATE productos SET nombre = " + "?" + ", descripcion = " + "?" +
        ", precio = " + "?" + ", stock = " + "?" + ", categoria = " + "?" + " WHERE id_producto = " + "?" &&
      ex.issued[0].params == [b.nombre, b.descripcion, b.precio, b.stock, b.categoria, Str(id)] &&
      (ex.response.status == 404 <==> affectedRows == Done(0)) &&
      (ex.response.status == 200 <==> affectedRows.Done? && affectedRows.value > 0) &&
      (ex.response.status == 500 <==> affectedRows.DbError?)
  {
    UpdateText();
    UpdatePlaceholders();
    RequiredFalsy(b);
    Guarded(Required(b),
            Exchange([Statement(Bind(UpdateById), [b.nombre, b.descripcion, b.precio, b.stock, b.categoria, Str(id)])],
                     Mutated(affectedRows, "Producto no encontrado", "Producto actualizado", "Error al actualizar el producto")))
  }

  /** `DELETE /productos/:id`. */
  function Delete(id: string, affectedRows: Outcome<nat>): (ex: Exchange)
    ensures WellBound(ex) && |ex.issued| == 1 && ex.issued[0].params == [Str(id)]
    ensures ex.issued[0].sql == "DELETE FROM productos WHERE id_producto = " + "?"
    ensures ex.response.status == 404 <==> affectedRows == Done(0)
    ensures ex.response.status == 200 <==> affectedRows.Done? && affectedRows.value > 0
    ensures ex.response.status == 500 <==> affectedRows.DbError?
  {
    DeleteText();
    DeletePlaceholders();
    Exchange([Statement(Bind(DeleteById), [Str(id)])],
             Mutated(affectedRows, "Producto no encontrado", "Producto eliminado", "Error al eliminar el producto"))
  }

  /** A zero price or a zero stock is falsy, so the guard rejects such a
      product outright, before any statement is issued. */
  lemma ZeroPriceOrStockRejected(b: Body, insertId: Outcome<int>, id: string, affectedRows: Outcome<nat>)
    requires b.precio == Num(0.0) || b.stock == Num(0.0)
    ensures Create(b, insertId).response.status == 400 && Create(b, insertId).issued == []
    ensures Update(id, b, affectedRows).response.status == 400 && Update(id, b, affectedRows).issued == []
  {
  }
}
