/** The SQLite database `DataProcessor` writes: the four tables that
    `create_schema` declares, the constraints SQLite checks when a row is
    inserted, the appends of `load_to_database`, and `process_all`, which
    chains cleaning, enrichment, schema creation and loading. */
module Store {
  import opened Common
  import opened Text
  import opened Seqs
  import opened Cleaning

  // -------------------------------------------------------------- schema

  /** `productos(producto_id INTEGER PRIMARY KEY, nombre_producto TEXT NOT
      NULL, categoria TEXT NOT NULL, precio_unitario REAL NOT NULL CHECK >= 0)`. */
  datatype ProductoRow = ProductoRow(
    productoId: int, nombreProducto: string, categoria: string, precioUnitario: real)

  /** `clientes(cliente_id INTEGER PRIMARY KEY, nombre TEXT NOT NULL, edad
      INTEGER, ciudad TEXT NOT NULL)`. */
  datatype ClienteRow = ClienteRow(clienteId: int, nombre: string, edad: Option<int>, ciudad: string)

  /** `ventas(venta_id INTEGER PRIMARY KEY, producto_id, cliente_id,
      fecha_venta NOT NULL, cantidad NOT NULL CHECK >= 0, ciudad NOT NULL)`;
      the foreign keys are declared but SQLite does not enforce them. */
  datatype VentaRow = VentaRow(
    ventaId: int, productoId: int, clienteId: int,
    fechaVenta: string, cantidad: int, ciudad: string)

  /** `inventario(id INTEGER PRIMARY KEY AUTOINCREMENT, producto_id TEXT NOT
      NULL, fecha_snapshot NOT NULL, stock_actual NOT NULL CHECK >= 0)`. */
  datatype InventarioRow = InventarioRow(
    id: int, productoId: string, fechaSnapshot: string, stockActual: int)

  /** The database file: each table is absent or holds its rows in
      insertion order; `inventarioSeq` is the AUTOINCREMENT counter SQLite
      keeps for `inventario`. */
  datatype Db = Db(
    productos: Option<seq<ProductoRow>>, clientes: Option<seq<ClienteRow>>,
    ventas: Option<seq<VentaRow>>, inventario: Option<seq<InventarioRow>>,
    inventarioSeq: nat)

  function ProductoRowKey(p: ProductoRow): int { p.productoId }
  function ClienteRowKey(c: ClienteRow): int { c.clienteId }
  function VentaRowKey(v: VentaRow): int { v.ventaId }
  function InventarioRowKey(x: InventarioRow): int { x.id }

  /** The names of the tables the database holds. */
  function TableNames(db: Db): (r: set<TableName>)
    ensures Productos in r <==> db.productos.Some?
    ensures Clientes in r <==> db.clientes.Some?
    ensures Ventas in r <==> db.ventas.Some?
    ensures TableName.Inventario in r <==> db.inventario.Some?
  {
    (if db.productos.Some? then {Productos} else {}) +
    (if db.clientes.Some? then {Clientes} else {}) +
    (if db.ventas.Some? then {Ventas} else {}) +
    (if db.inventario.Some? then {TableName.Inventario} else {})
  }

  predicate HasAllTables(db: Db) {
    db.productos.Some? && db.clientes.Some? && db.ventas.Some? && db.inventario.Some?
  }

  /** What `create_schema` leaves: the four tables, empty, and the
      AUTOINCREMENT counter dropped with the old `inventario`. */
  const EmptySchema := Db(Some([]), Some([]), Some([]), Some([]), 0)

  /** The declared constraints hold in every table present. */
  predicate ProductosOk(db: Db) {
    db.productos.Some? ==>
      UniqueBy(db.productos.value, ProductoRowKey) &&
      forall p | p in db.productos.value :: p.precioUnitario >= 0.0
  }

  predicate ClientesOk(db: Db) {
    db.clientes.Some? ==> UniqueBy(db.clientes.value, ClienteRowKey)
  }

  predicate VentasOk(db: Db) {
    db.ventas.Some? ==>
      UniqueBy(db.ventas.value, VentaRowKey) &&
      forall v | v in db.ventas.value :: v.cantidad >= 0
  }

  predicate InventarioOk(db: Db) {
    db.inventario.Some? ==>
      UniqueBy(db.inventario.value, InventarioRowKey) &&
      forall x | x in db.inventario.value :: x.stockActual >= 0 && 1 <= x.id <= db.inventarioSeq
  }

  predicate WellFormed(db: Db) {
    ProductosOk(db) && ClientesOk(db) && VentasOk(db) && InventarioOk(db)
  }

  // ----------------------------------------------------------- inserting

  /** The constraint an `INSERT` violated. */
  datatype Constraint = NotNull(column: string) | Check(column: string) | PrimaryKey

  /** `to_sql` raised `IntegrityError` while appending to `table`. */
  datatype LoadError = LoadError(table: TableName, constraint: Constraint)

  /** SQLite checks NOT NULL columns in column order, then CHECK constraints. */
  function ToProductoRow(p: Producto): (r: Result<ProductoRow, Constraint>)
    ensures r.Success? <==>
      p.nombreProducto.Some? && p.categoria.Some? && PriceOk(p)
    ensures r.Success? ==>
      r.value == ProductoRow(p.productoId, p.nombreProducto.value, p.categoria.value,
                             p.precioUnitario.value)
  {
    if p.nombreProducto.None? then Failure(NotNull("nombre_producto"))
    else if p.categoria.None? then Failure(NotNull("categoria"))
    else if p.precioUnitario.None? then Failure(NotNull("precio_unitario"))
    else if p.precioUnitario.value < 0.0 then Failure(Check("precio_unitario"))
    else Success(ProductoRow(p.productoId, p.nombreProducto.value, p.categoria.value,
                             p.precioUnitario.value))
  }

  function ToClienteRow(c: Cliente): (r: Result<ClienteRow, Constraint>)
    ensures r.Success? <==> c.nombre.Some? && c.ciudad.Some?
    ensures r.Success? ==> r.value == ClienteRow(c.clienteId, c.nombre.value, c.edad, c.ciudad.value)
  {
    if c.nombre.None? then Failure(NotNull("nombre"))
    else if c.ciudad.None? then Failure(NotNull("ciudad"))
    else Success(ClienteRow(c.clienteId, c.nombre.value, c.edad, c.ciudad.value))
  }

  function ToVentaRow(e: VentaEnriquecida): (r: Result<VentaRow, Constraint>)
    ensures r.Success? <==> e.venta.fechaVenta.Some? && CantidadOk(e.venta)
    ensures r.Success? ==>
      var v := e.venta;
      r.value == VentaRow(v.ventaId, v.productoId, v.clienteId, v.fechaVenta.value,
                          v.cantidad.value, e.ciudad)
  {
    var v := e.venta;
    if v.fechaVenta.None? then Failure(NotNull("fecha_venta"))
    else if v.cantidad.None? then Failure(NotNull("cantidad"))
    else if v.cantidad.value < 0 then Failure(Check("cantidad"))
    else Success(VentaRow(v.ventaId, v.productoId, v.clienteId, v.fechaVenta.value,
                          v.cantidad.value, e.ciudad))
  }

  /** The `producto_id` column of `inventario` is TEXT, so the integer the
      cleaning produced is stored as its decimal text. */
  function ToInventarioRow(id: int, x: Inventario): (r: Result<InventarioRow, Constraint>)
    ensures r.Success? <==> x.fechaSnapshot.Some? && StockOk(x)
    ensures r.Success? ==>
      r.value == InventarioRow(id, Decimal(x.productoId), x.fechaSnapshot.value, x.stockActual.value)
  {
    if x.fechaSnapshot.None? then Failure(NotNull("fecha_snapshot"))
    else if x.stockActual.None? then Failure(NotNull("stock_actual"))
    else if x.stockActual.value < 0 then Failure(Check("stock_actual"))
    else Success(InventarioRow(id, Decimal(x.productoId), x.fechaSnapshot.value, x.stockActual.value))
  }

  /** Every row passes the column constraints. */
  predicate AllConvert<R, T>(rows: seq<R>, convert: R -> Result<T, Constraint>) {
    forall i | 0 <= i < |rows| :: convert(rows[i]).Success?
  }

  function Converted<R, T>(rows: seq<R>, convert: R -> Result<T, Constraint>): (r: seq<T>)
    requires AllConvert(rows, convert)
    ensures |r| == |rows|
    ensures forall i | 0 <= i < |r| :: convert(rows[i]) == Success(r[i])
  {
    seq(|rows|, i requires 0 <= i < |rows| => convert(rows[i]).value)
  }

  /** `executemany` of the rows, one `INSERT` after another, into a table
      whose primary key is `key`; the first row that violates a constraint
      raises. */
  function InsertKeyed<R, T(==)>(table: seq<T>, rows: seq<R>,
                             convert: R -> Result<T, Constraint>, key: T -> int)
    : Result<seq<T>, Constraint>
    decreases |rows|
  {
    if rows == [] then Success(table)
    else
      match convert(rows[0])
      case Failure(c) => Failure(c)
      case Success(t) =>
        if key(t) in KeySet(table, key) then Failure(PrimaryKey)
        else InsertKeyed(table + [t], rows[1..], convert, key)
  }

  lemma UniqueBySnoc<T>(table: seq<T>, t: T, key: T -> int)
    requires UniqueBy(table, key) && key(t) !in KeySet(table, key)
    ensures UniqueBy(table + [t], key)
  {
    forall i, j | 0 <= i < j < |table + [t]| ensures key((table + [t])[i]) != key((table + [t])[j]) {
      if j == |table| {
        assert (table + [t])[i] in table;
      }
    }
  }

  lemma AllConvertCons<R, T>(rows: seq<R>, convert: R -> Result<T, Constraint>)
    requires rows != [] && convert(rows[0]).Success?
    ensures AllConvert(rows, convert) <==> AllConvert(rows[1..], convert)
    ensures AllConvert(rows, convert) ==>
      Converted(rows, convert) == [convert(rows[0]).value] + Converted(rows[1..], convert)
  {
    if AllConvert(rows[1..], convert) {
      forall i | 0 <= i < |rows| ensures convert(rows[i]).Success? {
        if i > 0 { assert rows[i] == rows[1..][i - 1]; }
      }
    }
    if AllConvert(rows, convert) {
      assert forall i | 0 <= i < |rows[1..]| :: rows[1..][i] == rows[i + 1];
    }
  }

  /** A row whose key is already in the table can never be appended. */
  lemma KeyCollision<T>(table: seq<T>, added: seq<T>, key: T -> int)
    requires added != [] && key(added[0]) in KeySet(table, key)
    ensures !UniqueBy(table + added, key)
  {
    var all := table + added;
    var u :| u in table && key(u) == key(added[0]);
    var j :| 0 <= j < |table| && table[j] == u;
    assert all[j] == u && all[|table|] == added[0];
  }

  /** An append into a table with unique keys succeeds exactly when every
      row passes its column constraints and the keys stay unique, and then
      the table is the old rows followed by the new ones. */
  lemma {:induction false} InsertKeyedSpec<R, T>(table: seq<T>, rows: seq<R>,
                                                    convert: R -> Result<T, Constraint>, key: T -> int)
    requires UniqueBy(table, key)
    ensures var r := InsertKeyed(table, rows, convert, key);
      (r.Success? <==> AllConvert(rows, convert) && UniqueBy(table + Converted(rows, convert), key)) &&
      (r.Success? ==> r.value == table + Converted(rows, convert))
    decreases |rows|
  {
    var r := InsertKeyed(table, rows, convert, key);
    if rows == [] {
      assert table + Converted(rows, convert) == table;
    } else if convert(rows[0]).Failure? {
      assert r.Failure? && !AllConvert(rows, convert);
    } else {
      var t := convert(rows[0]).value;
      AllConvertCons(rows, convert);
      if key(t) in KeySet(table, key) {
        assert r == Failure(PrimaryKey);
        if AllConvert(rows, convert) {
          KeyCollision(table, Converted(rows, convert), key);
        }
      } else {
        assert r == InsertKeyed(table + [t], rows[1..], convert, key);
        UniqueBySnoc(table, t, key);
        InsertKeyedSpec(table + [t], rows[1..], convert, key);
        if AllConvert(rows, convert) {
          SeqAppendAssoc(table, [t], Converted(rows[1..], convert));
        }
      }
    }
  }


  /** Appending to `inventario`: SQLite numbers the rows from the
      AUTOINCREMENT counter `last` on. */
  function InsertInventario(table: seq<InventarioRow>, last: nat, rows: seq<Inventario>)
    : Result<(seq<InventarioRow>, nat), Constraint>
    decreases |rows|
  {
    if rows == [] then Success((table, last))
    else
      match ToInventarioRow(last + 1, rows[0])
      case Failure(c) => Failure(c)
      case Success(t) => InsertInventario(table + [t], last + 1, rows[1..])
  }

  /** The rows `inventario` receives for snapshots that pass the
      constraints: ids `last + 1`, `last + 2`, ... in order. */
  function NumberedRows(last: nat, rows: seq<Inventario>): (r: seq<InventarioRow>)
    requires forall x | x in rows :: InventarioKept(x)
    ensures |r| == |rows|
    ensures forall i | 0 <= i < |r| ::
      Success(r[i]) == ToInventarioRow(last + 1 + i, rows[i]) && r[i].id == last + 1 + i
  {
    assert forall i | 0 <= i < |rows| :: InventarioKept(rows[i]);
    seq(|rows|, i requires 0 <= i < |rows| && InventarioKept(rows[i]) =>
      ToInventarioRow(last + 1 + i, rows[i]).value)
  }

  lemma NumberedRowsCons(last: nat, rows: seq<Inventario>)
    requires rows != [] && forall x | x in rows :: InventarioKept(x)
    ensures forall x | x in rows[1..] :: InventarioKept(x)
    ensures NumberedRows(last, rows) ==
      [NumberedRows(last, rows)[0]] + NumberedRows(last + 1, rows[1..])
  {
    assert forall x | x in rows[1..] :: x in rows;
    var all, tail := NumberedRows(last, rows), NumberedRows(last + 1, rows[1..]);
    forall i: int | 1 <= i < |all| ensures all[i] == tail[i - 1] {
      assert rows[1..][i - 1] == rows[i];
      assert ToInventarioRow(last + 1 + i, rows[i]) == Success(all[i]);
      assert ToInventarioRow(last + 1 + 1 + (i - 1), rows[1..][i - 1]) == Success(tail[i - 1]);
    }
  }

  /** Snapshots that passed the cleaning filters always load; the counter
      advances by the number of rows. */
  lemma {:induction false} InsertInventarioSpec(table: seq<InventarioRow>, last: nat, rows: seq<Inventario>)
    requires forall x | x in rows :: InventarioKept(x)
    ensures InsertInventario(table, last, rows) ==
      Success((table + NumberedRows(last, rows), last + |rows|))
    decreases |rows|
  {
    if rows == [] {
      assert table + NumberedRows(last, rows) == table;
    } else {
      assert rows[0] in rows;
      var t := ToInventarioRow(last + 1, rows[0]).value;
      NumberedRowsCons(last, rows);
      InsertInventarioSpec(table + [t], last + 1, rows[1..]);
      assert table + NumberedRows(last, rows) == (table + [t]) + NumberedRows(last + 1, rows[1..]);
    }
  }

  // ------------------------------------------------------------- loading

  function LoadProductos(db: Db, ps: seq<Producto>): Result<Db, LoadError>
    requires db.productos.Some?
  {
    match InsertKeyed(db.productos.value, ps, ToProductoRow, ProductoRowKey)
    case Failure(c) => Failure(LoadError(Productos, c))
    case Success(t) => Success(db.(productos := Some(t)))
  }

  function LoadClientes(db: Db, cs: seq<Cliente>): Result<Db, LoadError>
    requires db.clientes.Some?
  {
    match InsertKeyed(db.clientes.value, cs, ToClienteRow, ClienteRowKey)
    case Failure(c) => Failure(LoadError(Clientes, c))
    case Success(t) => Success(db.(clientes := Some(t)))
  }

  function LoadVentas(db: Db, vs: seq<VentaEnriquecida>): Result<Db, LoadError>
    requires db.ventas.Some?
  {
    match InsertKeyed(db.ventas.value, vs, ToVentaRow, VentaRowKey)
    case Failure(c) => Failure(LoadError(Ventas, c))
    case Success(t) => Success(db.(ventas := Some(t)))
  }

  function LoadInventario(db: Db, xs: seq<Inventario>): Result<Db, LoadError>
    requires db.inventario.Some?
  {
    match InsertInventario(db.inventario.value, db.inventarioSeq, xs)
    case Failure(c) => Failure(LoadError(TableName.Inventario, c))
    case Success((t, last)) => Success(db.(inventario := Some(t), inventarioSeq := last))
  }

  /** `load_to_database`: append the four tables parents first.  `to_sql`
      commits each table on its own, so a failing table is rolled back,
      the tables before it stay loaded and the ones after it are not
      touched.  The result is the database afterwards and the error raised. */
  function Load(db: Db, ps: seq<Producto>, cs: seq<Cliente>, vs: seq<VentaEnriquecida>,
                xs: seq<Inventario>): (Db, Option<LoadError>)
    requires HasAllTables(db)
  {
    match LoadProductos(db, ps)
    case Failure(e) => (db, Some(e))
    case Success(db1) =>
      match LoadClientes(db1, cs)
      case Failure(e) => (db1, Some(e))
      case Success(db2) =>
        match LoadVentas(db2, vs)
        case Failure(e) => (db2, Some(e))
        case Success(db3) =>
          match LoadInventario(db3, xs)
          case Failure(e) => (db3, Some(e))
          case Success(db4) => (db4, None)
  }

  /** A table that loads is its old rows followed by the converted new
      rows, and its constraints still hold. */
  lemma LoadProductosSpec(db: Db, ps: seq<Producto>)
    requires db.productos.Some? && ProductosOk(db)
    ensures LoadProductos(db, ps).Success? <==>
      AllConvert(ps, ToProductoRow) &&
      UniqueBy(db.productos.value + Converted(ps, ToProductoRow), ProductoRowKey)
    ensures LoadProductos(db, ps).Success? ==>
      var db1 := LoadProductos(db, ps).value;
      db1 == db.(productos := Some(db.productos.value + Converted(ps, ToProductoRow))) &&
      ProductosOk(db1)
  {
    InsertKeyedSpec(db.productos.value, ps, ToProductoRow, ProductoRowKey);
    if LoadProductos(db, ps).Success? {
      var conv := Converted(ps, ToProductoRow);
      forall p | p in db.productos.value + conv ensures p.precioUnitario >= 0.0 {
        if p !in db.productos.value {
          var i :| 0 <= i < |conv| && conv[i] == p;
          assert ToProductoRow(ps[i]) == Success(p);
        }
      }
    }
  }

  lemma LoadClientesSpec(db: Db, cs: seq<Cliente>)
    requires db.clientes.Some? && ClientesOk(db)
    ensures LoadClientes(db, cs).Success? <==>
      AllConvert(cs, ToClienteRow) &&
      UniqueBy(db.clientes.value + Converted(cs, ToClienteRow), ClienteRowKey)
    ensures LoadClientes(db, cs).Success? ==>
      var db1 := LoadClientes(db, cs).value;
      db1 == db.(clientes := Some(db.clientes.value + Converted(cs, ToClienteRow))) &&
      ClientesOk(db1)
  {
    InsertKeyedSpec(db.clientes.value, cs, ToClienteRow, ClienteRowKey);
  }

  lemma LoadVentasSpec(db: Db, vs: seq<VentaEnriquecida>)
    requires db.ventas.Some? && VentasOk(db)
    ensures LoadVentas(db, vs).Success? <==>
      AllConvert(vs, ToVentaRow) &&
      UniqueBy(db.ventas.value + Converted(vs, ToVentaRow), VentaRowKey)
    ensures LoadVentas(db, vs).Success? ==>
      var db1 := LoadVentas(db, vs).value;
      db1 == db.(ventas := Some(db.ventas.value + Converted(vs, ToVentaRow))) &&
      VentasOk(db1)
  {
    InsertKeyedSpec(db.ventas.value, vs, ToVentaRow, VentaRowKey);
    if LoadVentas(db, vs).Success? {
      var conv := Converted(vs, ToVentaRow);
      forall v | v in db.ventas.value + conv ensures v.cantidad >= 0 {
        if v !in db.ventas.value {
          var i :| 0 <= i < |conv| && conv[i] == v;
          assert ToVentaRow(vs[i]) == Success(v);
        }
      }
    }
  }

  /** The new rows carry constraint-respecting values and fresh ids. */
  lemma NumberedRowsOk(last: nat, xs: seq<Inventario>)
    requires forall x | x in xs :: InventarioKept(x)
    ensures forall x | x in NumberedRows(last, xs) :: x.stockActual >= 0 && last < x.id <= last + |xs|
    ensures UniqueBy(NumberedRows(last, xs), InventarioRowKey)
  {
    var added := NumberedRows(last, xs);
    forall x | x in added ensures x.stockActual >= 0 && last < x.id <= last + |xs| {
      var i :| 0 <= i < |added| && added[i] == x;
      assert ToInventarioRow(last + 1 + i, xs[i]) == Success(x);
      assert xs[i] in xs;
    }
  }

  lemma AppendFreshIds(before: seq<InventarioRow>, added: seq<InventarioRow>, last: nat)
    requires UniqueBy(before, InventarioRowKey) && UniqueBy(added, InventarioRowKey)
    requires forall x | x in before :: x.id <= last
    requires forall x | x in added :: x.id > last
    ensures UniqueBy(before + added, InventarioRowKey)
  {
    var all := before + added;
    forall i, j | 0 <= i < j < |all| ensures all[i].id != all[j].id {
      if j >= |before| {
        assert all[j] == added[j - |before|] && all[j] in added;
        if i < |before| {
          assert all[i] in before;
        } else {
          assert all[i] == added[i - |before|];
        }
      } else {
        assert all[i] == before[i] && all[j] == before[j];
      }
    }
  }

  lemma LoadInventarioSpec(db: Db, xs: seq<Inventario>)
    requires db.inventario.Some? && InventarioOk(db)
    requires forall x | x in xs :: InventarioKept(x)
    ensures LoadInventario(db, xs) == Success(db.(
      inventario := Some(db.inventario.value + NumberedRows(db.inventarioSeq, xs)),
      inventarioSeq := db.inventarioSeq + |xs|))
    ensures InventarioOk(LoadInventario(db, xs).value)
  {
    var last := db.inventarioSeq;
    var before := db.inventario.value;
    var added := NumberedRows(last, xs);
    InsertInventarioSpec(before, last, xs);
    NumberedRowsOk(last, xs);
    AppendFreshIds(before, added, last);
    assert forall x | x in before + added :: x in before || x in added;
  }

  /** Loading keeps every declared constraint true and leaves the four
      tables in place. */
  lemma LoadPreservesWellFormed(db: Db, ps: seq<Producto>, cs: seq<Cliente>,
                                vs: seq<VentaEnriquecida>, xs: seq<Inventario>)
    requires HasAllTables(db) && WellFormed(db)
    requires forall x | x in xs :: InventarioKept(x)
    ensures HasAllTables(Load(db, ps, cs, vs, xs).0) && WellFormed(Load(db, ps, cs, vs, xs).0)
  {
    LoadProductosSpec(db, ps);
    if LoadProductos(db, ps).Success? {
      var db1 := LoadProductos(db, ps).value;
      LoadClientesSpec(db1, cs);
      if LoadClientes(db1, cs).Success? {
        var db2 := LoadClientes(db1, cs).value;
        LoadVentasSpec(db2, vs);
        if LoadVentas(db2, vs).Success? {
          LoadInventarioSpec(LoadVentas(db2, vs).value, xs);
        }
      }
    }
  }

  // ------------------------------------------------------------- process

  /** The four CSV files as read. */
  datatype RawInput = RawInput(
    productos: seq<RawProducto>, clientes: seq<RawCliente>,
    ventas: seq<RawVenta>, inventario: seq<RawInventario>)

  /** What `process_all` re-raises. */
  datatype ProcessError = CleanFailed(cleanError: CleanError) | LoadFailed(loadError: LoadError)

  /** The cleaned and enriched tables, ready to load. */
  datatype Prepared = Prepared(
    productos: seq<Producto>, clientes: seq<Cliente>,
    ventas: seq<VentaEnriquecida>, inventario: seq<Inventario>)

  /** Steps 2 and 3 of `process_all`: clean the four tables in order (the
      first failure raises) and join the sales with the cities. */
  function Prepare(input: RawInput): (r: Result<Prepared, CleanError>)
    ensures r.Success? ==>
      UniqueBy(r.value.productos, ProductoKey) &&
      (forall p | p in r.value.productos :: PriceOk(p)) &&
      UniqueBy(r.value.clientes, ClienteKey) &&
      (forall e | e in r.value.ventas :: VentaKept(e.venta)) &&
      (forall x | x in r.value.inventario :: InventarioKept(x))
  {
    match CleanProductos(input.productos)
    case Failure(e) => Failure(e)
    case Success(ps) =>
      match CleanClientes(input.clientes)
      case Failure(e) => Failure(e)
      case Success(cs) =>
        match CleanVentas(input.ventas)
        case Failure(e) => Failure(e)
        case Success(vs) =>
          match CleanInventario(input.inventario)
          case Failure(e) => Failure(e)
          case Success(xs) =>
            var enriched := EnrichVentas(vs, cs);
            assert forall e | e in enriched :: VentaKept(e.venta);
            Success(Prepared(ps, cs, enriched, xs))
  }

  /** `process_all`: a cleaning error is raised before the schema is
      touched; otherwise the tables are re-created and loaded. */
  function Pipeline(db: Db, input: RawInput): (Db, Option<ProcessError>) {
    match Prepare(input)
    case Failure(e) => (db, Some(CleanFailed(e)))
    case Success(p) =>
      var (db1, err) := Load(EmptySchema, p.productos, p.clientes, p.ventas, p.inventario);
      (db1, if err.Some? then Some(LoadFailed(err.value)) else None)
  }

  /** A cleaning error leaves the database as it was. */
  lemma CleanFailureKeepsDatabase(db: Db, input: RawInput)
    requires Prepare(input).Failure?
    ensures Pipeline(db, input) == (db, Some(CleanFailed(Prepare(input).error)))
  {
  }

  /** After a run that got past cleaning the database holds the four tables
      and every declared constraint holds, whatever was loaded. */
  lemma PipelineWellFormed(db: Db, input: RawInput)
    requires Prepare(input).Success?
    ensures HasAllTables(Pipeline(db, input).0) && WellFormed(Pipeline(db, input).0)
  {
    var p := Prepare(input).value;
    LoadPreservesWellFormed(EmptySchema, p.productos, p.clientes, p.ventas, p.inventario);
  }

  /** Cleaned products never violate the price CHECK or the primary key:
      they fail to load exactly when one has no name or no category. */
  lemma ProductosLoadUnlessNull(ps: seq<Producto>)
    requires UniqueBy(ps, ProductoKey) && forall p | p in ps :: PriceOk(p)
    ensures LoadProductos(EmptySchema, ps).Success? <==>
      forall p | p in ps :: p.nombreProducto.Some? && p.categoria.Some?
  {
    LoadProductosSpec(EmptySchema, ps);
    if forall p | p in ps :: p.nombreProducto.Some? && p.categoria.Some? {
      var conv := Converted(ps, ToProductoRow);
      assert [] + conv == conv;
      forall i, j | 0 <= i < j < |conv| ensures conv[i].productoId != conv[j].productoId {
        assert ToProductoRow(ps[i]) == Success(conv[i]) && ToProductoRow(ps[j]) == Success(conv[j]);
      }
    } else {
      var p: Producto :| p in ps && !(p.nombreProducto.Some? && p.categoria.Some?);
      var i :| 0 <= i < |ps| && ps[i] == p;
      assert ToProductoRow(ps[i]).Failure?;
    }
  }

  /** Cleaned customers have unique ids, so they fail to load exactly when
      one has no name or no city; `clean_clientes` does not drop those. */
  lemma ClientesLoadUnlessNull(db: Db, cs: seq<Cliente>)
    requires db.clientes == Some([])
    requires UniqueBy(cs, ClienteKey)
    ensures LoadClientes(db, cs).Success? <==>
      forall c | c in cs :: c.nombre.Some? && c.ciudad.Some?
  {
    LoadClientesSpec(db, cs);
    if forall c | c in cs :: c.nombre.Some? && c.ciudad.Some? {
      var conv := Converted(cs, ToClienteRow);
      assert [] + conv == conv;
      forall i, j | 0 <= i < j < |conv| ensures conv[i].clienteId != conv[j].clienteId {
        assert ToClienteRow(cs[i]) == Success(conv[i]) && ToClienteRow(cs[j]) == Success(conv[j]);
      }
    } else {
      var c: Cliente :| c in cs && !(c.nombre.Some? && c.ciudad.Some?);
      var i :| 0 <= i < |cs| && cs[i] == c;
      assert ToClienteRow(cs[i]).Failure?;
    }
  }

  /** Sales are not de-duplicated by the cleaning, so into the fresh table
      they load exactly when their `venta_id`s are distinct.  Whether their
      products and customers exist plays no part: the foreign keys are not
      enforced. */
  lemma VentasLoadIffUniqueIds(db: Db, vs: seq<VentaEnriquecida>)
    requires db.ventas == Some([])
    requires forall e | e in vs :: VentaKept(e.venta)
    ensures LoadVentas(db, vs).Success? <==>
      forall i, j | 0 <= i < j < |vs| :: vs[i].venta.ventaId != vs[j].venta.ventaId
  {
    LoadVentasSpec(db, vs);
    assert AllConvert(vs, ToVentaRow) by {
      forall i | 0 <= i < |vs| ensures ToVentaRow(vs[i]).Success? {
        assert vs[i] in vs;
      }
    }
    var conv := Converted(vs, ToVentaRow);
    assert db.ventas.value + conv == conv;
    ConvertedVentaIds(vs);
  }

  /** The converted sales keep the sale ids, so their keys are unique
      exactly when the sale ids are. */
  lemma ConvertedVentaIds(vs: seq<VentaEnriquecida>)
    requires AllConvert(vs, ToVentaRow)
    ensures UniqueBy(Converted(vs, ToVentaRow), VentaRowKey) <==>
      forall i, j | 0 <= i < j < |vs| :: vs[i].venta.ventaId != vs[j].venta.ventaId
  {
    var conv := Converted(vs, ToVentaRow);
    assert forall i | 0 <= i < |vs| :: ToVentaRow(vs[i]) == Success(conv[i]);
    assert forall i | 0 <= i < |vs| :: VentaRowKey(conv[i]) == vs[i].venta.ventaId;
  }

  /** Each stored snapshot keeps its product as decimal text, from which
      the same id is extracted again. */
  lemma InventarioIdRoundTrip(last: nat, xs: seq<Inventario>, i: nat)
    requires forall x | x in xs :: InventarioKept(x)
    requires i < |xs|
    ensures ExtractId(Some(NumberedRows(last, xs)[i].productoId)) == Some(xs[i].productoId)
  {
    assert ToInventarioRow(last + 1 + i, xs[i]) == Success(NumberedRows(last, xs)[i]);
    ExtractDecimal(xs[i].productoId);
  }

  // --------------------------------------------------------------- class

  /** `DataProcessor` and the database file at its `db_path`. */
  class DataProcessor {
    var db: Db

    constructor(existing: Db)
      ensures db == existing
    {
      db := existing;
    }

    /** `create_schema`: drop the four tables and create them empty. */
    method CreateSchema()
      modifies this
      ensures db == EmptySchema
    {
      db := EmptySchema;
    }

    /** `load_to_database`: the four `to_sql(..., if_exists="append")` calls
        in order; an error stops the remaining ones. */
    method LoadToDatabase(ps: seq<Producto>, cs: seq<Cliente>, vs: seq<VentaEnriquecida>,
                          xs: seq<Inventario>) returns (err: Option<LoadError>)
      requires HasAllTables(db)
      modifies this
      ensures (db, err) == Load(old(db), ps, cs, vs, xs)
      ensures HasAllTables(db)
    {
      var r1 := LoadProductos(db, ps);
      if r1.Failure? {
        return Some(r1.error);
      }
      db := r1.value;
      var r2 := LoadClientes(db, cs);
      if r2.Failure? {
        return Some(r2.error);
      }
      db := r2.value;
      var r3 := LoadVentas(db, vs);
      if r3.Failure? {
        return Some(r3.error);
      }
      db := r3.value;
      var r4 := LoadInventario(db, xs);
      if r4.Failure? {
        return Some(r4.error);
      }
      db := r4.value;
      err := None;
    }

    /** `process_all` on the four files' rows: clean, enrich, re-create the
        schema, load; an error is returned where the source re-raises it. */
    method ProcessAll(input: RawInput) returns (err: Option<ProcessError>)
      modifies this
      ensures (db, err) == Pipeline(old(db), input)
      ensures err.None? || err.value.LoadFailed? ==> HasAllTables(db) && WellFormed(db)
    {
      var prepared := Prepare(input);
      if prepared.Failure? {
        return Some(CleanFailed(prepared.error));
      }
      var p := prepared.value;
      PipelineWellFormed(old(db), input);
      CreateSchema();
      var loadErr := LoadToDatabase(p.productos, p.clientes, p.ventas, p.inventario);
      err := if loadErr.Some? then Some(LoadFailed(loadErr.value)) else None;
    }
  }
}
