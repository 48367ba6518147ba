# Customers, orders and products REST backend — request-handling model

This project models, in Dafny, the per-request logic of a small Express/MySQL
backend that serves three collections: `clientes` (customers), `ordenes`
(orders) and `productos` (products). Each collection has five endpoints:

- a filtered, paginated list;
- get by id;
- create;
- update by id;
- delete by id.

The model covers what each handler computes before and after talking to the
database:

- **List query builders.** Each list handler starts from
  `SELECT * FROM <table> WHERE 1=1`. It appends one `AND <column> ... ?` per
  non-empty filter, in a fixed order, with `LIKE ?` and a `%v%` value for
  substring filters and `= ?` with the raw value for exact filters. It ends
  with `LIMIT ? OFFSET ?`, bound to `limitNum` and `offset`. These builders are
  methods (`BuildList`) that append to a string and a sequence, as the source
  does. Each is proved equal to one shared specification (`Sql.ListQuery`,
  `Sql.ListParams`).
- **Count queries.** The count query goes with each list query. Its parameters
  are assembled in two ways in the source: `params.slice(0, -2)` for customers,
  and `[...].filter(Boolean)` for orders and products. Both are proved equal to
  the list query's filter values. The count query's text is proved to hold the
  same conditions as the list query's, up to spacing.
- **Pagination.** `offset = (pageNum - 1) * limitNum`. `totalPages` is the
  integer ceiling of `totalRecords / limitNum`, characterised as the fewest
  pages that hold the records.
- **Validation.** Order and product create/update return 400, and issue no
  statement, exactly when a required field is falsy in the JavaScript sense.
  So `precio: 0` or `stock: 0` is rejected.
- **Status mapping.**
  - Get by id: an empty result gives 404; otherwise 200 with the first row.
  - Update and delete: `affectedRows == 0` gives 404; otherwise 200.
  - Create: 201 with the inserted id.
  - A gateway failure gives 500.

The database gateway is an input. Every handler is a function from the request
and from the outcome the gateway reports (`Http.Outcome`: rows, an affected-row
count, an inserted id, or an error). It returns an `Http.Exchange`: the
statements sent to the gateway, in order, and the response. "Runs no query" is
stated as "the exchange issued no statement".

Modules, one file each:

- `Js` (`js.dfy`): JavaScript values, truthiness, `filter(Boolean)`, `slice`.
- `Sql` (`sql.dfy`): the filter clauses, the list and count query
  specifications, placeholder counting.
- `Paging` (`paging.dfy`): offset and page count.
- `Http` (`http.dfy`): responses, and the status mapping shared by all
  handlers.
- `Clientes`, `Ordenes`, `Productos`: one module per collection, with its list
  builder and its five handlers.

Points about the code that are easy to get wrong:

- Customers are created and updated with no required-field check; only orders
  and products validate their payloads.
- The orders count parameters are assembled anew with a ternary and
  `filter(Boolean)` rather than cut from the list parameters. For query-string
  inputs, which are strings or absent, this still yields exactly the list
  query's filter values (`Ordenes.CountParamsAreFilterParams`).
- The count query's text is not the list query's text with the page window
  removed. Its template puts one space before every filter slot, filled or
  not. The conditions and their order are the same (`Sql.SameConditions`).

## Model

| member | source | states |
|---|---|---|
| Js.FromQuery | server/src/index.js:20 | a query-string entry is truthy exactly when it is present and non-empty, and then denotes that string |
| Js.AnyFalsy | server/src/index.js:207 | a left-to-right chain of negated fields joined by `or` fires exactly when some listed value is falsy |
| Js.FilterBoolean | server/src/index.js:183 | `filter(Boolean)` keeps only truthy values taken from the input, keeps every truthy value, returns an all-truthy list unchanged, and maps one value to itself or to nothing as it is truthy or not |
| Js.FilterBooleanAppend | server/src/index.js:183 | `filter(Boolean)` of a concatenation is the concatenation of the filtered parts, so the truthy values keep their order |
| Js.Slice | server/src/index.js:63 | `slice(0, -2)` on a list of at least two elements is the list without its last two |
| Sql.ListParams | server/src/index.js:52-53 | the list parameters are the filter values followed by `limitNum` and then `offset` |
| Sql.Extend | server/src/index.js:27-42 | one `if (v) { query += ...; params.push(...) }` step extends the query and the parameters by exactly that filter's condition and value |
| Sql.ListWherePlaceholders | server/src/index.js:23-42 | the filter conditions of a list query carry one `?` per bound filter value |
| Sql.CountWherePlaceholders | server/src/index.js:61 | the count query template's filter slots carry one `?` per bound filter value |
| Sql.ListQueryPlaceholders | server/src/index.js:52-53 | a list query has exactly as many `?` placeholders as parameters |
| Sql.CountQueryPlaceholders | server/src/index.js:61-64 | a count query has exactly as many `?` placeholders as filter parameters |
| Sql.SameConditions | server/src/index.js:61 | the count query filters on the same conditions, in the same order, as the list query; the two differ only in spacing |
| Sql.TwoFilters | server/src/index.js:158-166 | a two-filter list query and its parameters are the two filters' pieces in order |
| Sql.FourFilters | server/src/index.js:27-42 | a four-filter list query and its parameters are the four filters' pieces in order |
| Sql.BindPlaceholders | server/src/index.js:91 | a statement text written between placeholders has one `?` between each two parts |
| Paging.Offset | server/src/index.js:49 | the offset of page 1 is 0, and no page from 1 on has a negative offset |
| Paging.PagesAbut | server/src/index.js:49 | the next page starts `limitNum` rows after the current one |
| Paging.TotalPages | server/src/index.js:70 | `totalPages * limitNum >= totalRecords`, and one page fewer would not hold them |
| Paging.TotalPagesUnique | server/src/index.js:70 | no other page count meets that characterisation, so it is `ceil(totalRecords / limitNum)` |
| Paging.PagesCoverRecords | server/src/index.js:49-70 | pages 1..totalPages are exactly the pages whose offset falls on a matching record |
| Paging.Summary | server/src/index.js:72-79 | the pagination summary echoes `pageNum`, `limitNum` and `totalRecords` and carries the ceiling page count |
| Paging.ExampleTwentyFiveRecords | server/src/index.js:70 | 25 records at 10 per page give 3 pages, the last starting at row 20 |
| Http.FindOne | server/src/index.js:92-97 | get by id answers 404 exactly on an empty result, 200 with the first row otherwise, 500 on a gateway error |
| Http.Mutated | server/src/index.js:126-131 | update/delete answer 404 exactly when no row was affected, 200 otherwise, 500 on a gateway error |
| Http.Created | server/src/index.js:110-112 | create answers 201 with the inserted id, or 500 on a gateway error |
| Http.Guarded | server/src/index.js:207-209 | a falsy required field gives 400 with the fixed message and no statement; otherwise the handler proceeds unchanged |
| Http.Listing | server/src/index.js:55-83 | a list request issues the list statement, then the count statement only if the list succeeded; 200 with the rows and summary exactly when both succeed, else 500 |
| Http.ListingWellBound | server/src/index.js:58-66 | with the filter values as count parameters, every statement of a list request is fully bound, and the count parameters are the list parameters minus the last two |
| Clientes.Filters | server/src/index.js:20-42 | customers filter on nombre, apellido, telefono and direccion, all by substring |
| Clientes.BuildList | server/src/index.js:23-53 | the step-by-step query and parameter construction yields exactly the specified list query and parameters |
| Clientes.QueryText | server/src/index.js:23-53 | the customer list query is `WHERE 1=1`, then ` AND f LIKE ?` per non-empty f in the order nombre, apellido, telefono, direccion, then ` LIMIT ? OFFSET ?`, with `%v%` values followed by limit and offset |
| Clientes.ExampleNombreAna | server/src/index.js:23-53 | `nombre=Ana` on page 1 of 10 gives `... WHERE 1=1 AND nombre LIKE ? LIMIT ? OFFSET ?` with `["%Ana%", 10, 0]` |
| Clientes.CountParamsAreFilterParams | server/src/index.js:62-64 | the sliced count parameters are exactly the list query's filter values |
| Clientes.List | server/src/index.js:19-84 | the customer list issues the specified list query, then the count statement exactly when the list query succeeded; the count statement is the specified count query, with one parameter per `?`, equal to the list parameters minus limit and offset; 200 with the listed rows and the echoed summary exactly when both queries succeed, 500 otherwise |
| Clientes.Get | server/src/index.js:87-99 | `SELECT * FROM clientes WHERE id_cliente = ?` bound to the id; 404 exactly on no row, 200 with the first row when there is one, 500 on a gateway error |
| Clientes.Create | server/src/index.js:102-114 | `INSERT INTO clientes (nombre, apellido, email, telefono, direccion, created_at) VALUES (?, ?, ?, ?, ?, NOW())` is always issued with the five body fields (no validation); 201 exactly when the gateway reports an id, with body `{ message: "Cliente creado", id_cliente: <inserted id> }`, else 500 |
| Clientes.Update | server/src/index.js:117-133 | `UPDATE clientes SET nombre = ?, apellido = ?, email = ?, telefono = ?, direccion = ?, updated_at = NOW() WHERE id_cliente = ?` is always issued with the five fields and the id; 404 exactly when no row was affected, 200 when one was, 500 on a gateway error |
| Clientes.Delete | server/src/index.js:136-148 | `DELETE FROM clientes WHERE id_cliente = ?` bound to the id; 404 exactly when no row was affected, 200 when one was, 500 on a gateway error |
| Ordenes.QueryText | server/src/index.js:155-173 | the order list query is `WHERE 1=1`, then ` AND id_cliente = ?` and ` AND fecha = ?`, each only when that filter is non-empty, then ` LIMIT ? OFFSET ?`, with the raw values followed by limit and offset |
| Ordenes.BuildList | server/src/index.js:155-173 | the step-by-step query and parameter construction yields exactly the specified list query and parameters |
| Ordenes.CountParamsAreFilterParams | server/src/index.js:183 | the `filter(Boolean)` count parameters equal the list query's filter values |
| Ordenes.List | server/src/index.js:152-201 | the order list issues the specified list query, then the count statement exactly when the list query succeeded; the count statement is the specified count query, with one parameter per `?`, equal to the list parameters minus limit and offset; 200 with the listed rows and the echoed summary exactly when both queries succeed, 500 otherwise |
| Ordenes.RequiredFalsy | server/src/index.js:207 | the order guard fires exactly when fecha, total or id_cliente is falsy |
| Ordenes.Create | server/src/index.js:204-221 | 400 and no statement exactly when fecha, total or id_cliente is falsy; otherwise `INSERT INTO ordenes (fecha, total, id_cliente) VALUES (?, ?, ?)` bound to the three fields, with 201 exactly when the gateway reports an id, body `{ message: "Orden creada", id_orden: <inserted id> }`, and 500 exactly on a gateway error |
| Ordenes.Get | server/src/index.js:224-239 | `SELECT * FROM ordenes WHERE id_orden = ?` bound to the id; 404 exactly on no row, 200 with the first row when there is one, 500 on a gateway error |
| Ordenes.Update | server/src/index.js:241-264 | 400 and no statement exactly when a required field is falsy; otherwise `UPDATE ordenes SET fecha = ?, total = ?, id_cliente = ? WHERE id_orden = ?` bound to the fields and the id, 404 exactly when no row was affected, 200 when one was, 500 on a gateway error |
| Ordenes.Delete | server/src/index.js:267-282 | `DELETE FROM ordenes WHERE id_orden = ?` bound to the id; 404 exactly when no row was affected, 200 when one was, 500 on a gateway error |
| Productos.QueryText | server/src/index.js:289-307 | the product list query is `WHERE 1=1`, then ` AND nombre LIKE ?` bound to `%nombre%` and ` AND categoria = ?` bound to the raw value, each only when that filter is non-empty, then ` LIMIT ? OFFSET ?` with limit and offset |
| Productos.BuildList | server/src/index.js:289-307 | the step-by-step query and parameter construction yields exactly the specified list query and parameters |
| Productos.CountParamsAreFilterParams | server/src/index.js:317 | the `filter(Boolean)` count parameters, with the `%nombre%` value, equal the list query's filter values |
| Productos.List | server/src/index.js:286-335 | the product list issues the specified list query, then the count statement exactly when the list query succeeded; the count statement is the specified count query, with one parameter per `?`, equal to the list parameters minus limit and offset; 200 with the listed rows and the echoed summary exactly when both queries succeed, 500 otherwise |
| Productos.RequiredFalsy | server/src/index.js:341 | the product guard fires exactly when one of the five fields is falsy |
| Productos.Create | server/src/index.js:338-355 | 400 and no statement exactly when one of the five fields is falsy; otherwise `INSERT INTO productos (nombre, descripcion, precio, stock, categoria) VALUES (?, ?, ?, ?, ?)` bound to the fields, with 201 exactly when the gateway reports an id, body `{ message: "Producto creado", id_producto: <inserted id> }`, and 500 exactly on a gateway error |
| Productos.Get | server/src/index.js:358-373 | `SELECT * FROM productos WHERE id_producto = ?` bound to the id; 404 exactly on no row, 200 with the first row when there is one, 500 on a gateway error |
| Productos.Update | server/src/index.js:376-399 | 400 and no statement exactly when one of the five fields is falsy; otherwise `UPDATE productos SET nombre = ?, descripcion = ?, precio = ?, stock = ?, categoria = ? WHERE id_producto = ?` bound to the fields and the id, 404 exactly when no row was affected, 200 when one was, 500 on a gateway error |
| Productos.Delete | server/src/index.js:402-417 | `DELETE FROM productos WHERE id_producto = ?` bound to the id; 404 exactly when no row was affected, 200 when one was, 500 on a gateway error |
| Productos.ZeroPriceOrStockRejected | server/src/index.js:341-343 | a product with `precio` or `stock` equal to 0 is rejected with 400 on create and update, before any statement |

## Left out

- Express setup, middleware, routing and `app.listen`: transport plumbing with no per-request logic.
- `server/src/database.js` is not part of this model. It opens the MySQL connection from environment variables.
- SQL execution, `LIKE` semantics, the rows returned and `insertId` values belong to the database. Each handler takes the gateway's outcome as an input.
- The 500 branches are modelled as a gateway error outcome. They do not distinguish a failed connection from a failed query.
- `parseInt` coercion and NaN: `pageNum` and `limitNum` are already-parsed integers. So are the `page = 1` and `limit = 10` defaults applied before parsing.
- The list handlers require `limitNum > 0`. With `limitNum = 0` the source divides by zero, and JavaScript gives `Infinity` or `NaN` pages. That case is not modelled.
- `Math.ceil` over floating-point division is modelled as integer ceiling division.
- JavaScript numbers are modelled as unbounded integers and exact reals. So the rounding of very large offsets in doubles is not modelled.
- Query-string values are strings or absent. Arrays and objects that a repeated or bracketed key would produce are not modelled.
- Request bodies hold JSON values. Arrays and objects are kept only as "truthy", without their contents.
- The create-then-get round trip and unique increasing ids are properties of the database, not of the handlers.
- The row count of a page being at most `limitNum` is also a property of the database.
- Concurrency: the list and count queries are not atomic, and concurrent requests are not modelled. The handlers keep no in-process state.
