/** `DataProcessor`'s cleaning stage: the four `clean_*` functions, which turn
    the rows read from the CSV files into normalised rows, and
    `enrich_ventas`, which joins each sale with its customer's city. */
module Cleaning {
  import opened Common
  import opened Text
  import opened Dates
  import opened Seqs

  /** The four tables of the company database. */
  datatype TableName = Productos | Clientes | Ventas | Inventario

  // ---------------------------------------------------------------- rows

  /** A row of `productos.csv` as read; an empty cell is `None`. */
  datatype RawProducto = RawProducto(
    productoId: Option<string>, nombreProducto: Option<string>,
    categoria: Option<string>, precioUnitario: Option<real>)

  /** A row of `datos.csv` (the customers). */
  datatype RawCliente = RawCliente(
    clienteId: Option<string>, nombre: Option<string>,
    edad: Option<int>, ciudad: Option<string>)

  /** A row of `ventas.csv`. */
  datatype RawVenta = RawVenta(
    ventaId: Option<string>, productoId: Option<string>, clienteId: Option<string>,
    fechaVenta: Option<string>, cantidad: Option<int>)

  /** A row of `inventario.csv`. */
  datatype RawInventario = RawInventario(
    productoId: Option<string>, fechaSnapshot: Option<string>, stockActual: Option<int>)

  /** The same rows once their ids are integers, their text trimmed and
      their dates normalised. */
  datatype Producto = Producto(
    productoId: nat, nombreProducto: Option<string>,
    categoria: Option<string>, precioUnitario: Option<real>)

  datatype Cliente = Cliente(
    clienteId: nat, nombre: Option<string>, edad: Option<int>, ciudad: Option<string>)

  datatype Venta = Venta(
    ventaId: nat, productoId: nat, clienteId: nat,
    fechaVenta: Option<string>, cantidad: Option<int>)

  datatype Inventario = Inventario(
    productoId: nat, fechaSnapshot: Option<string>, stockActual: Option<int>)

  /** `astype(int)` on an id column in which some cell has no digits (or is
      empty) raises; the column is named. */
  datatype CleanError = IdNotNumeric(table: TableName, column: string)

  function ProductoKey(p: Producto): int { p.productoId }
  function ClienteKey(c: Cliente): int { c.clienteId }

  // ------------------------------------------------------- normalisation

  /** Every cell of an id column yields a number. */
  predicate IdsExtract<R>(rows: seq<R>, id: R -> Option<string>) {
    forall i | 0 <= i < |rows| :: ExtractId(id(rows[i])).Some?
  }

  function NormalizeProductos(raws: seq<RawProducto>): (r: seq<Producto>)
    requires IdsExtract(raws, (x: RawProducto) => x.productoId)
    ensures |r| == |raws|
    ensures forall i | 0 <= i < |r| ::
      Some(r[i].productoId) == ExtractId(raws[i].productoId) &&
      r[i].nombreProducto == StripField(raws[i].nombreProducto) &&
      r[i].categoria == StripField(raws[i].categoria) &&
      r[i].precioUnitario == raws[i].precioUnitario
  {
    seq(|raws|, i requires 0 <= i < |raws| =>
      var x := raws[i];
      Producto(ExtractId(x.productoId).value, StripField(x.nombreProducto),
               StripField(x.categoria), x.precioUnitario))
  }

  function NormalizeClientes(raws: seq<RawCliente>): (r: seq<Cliente>)
    requires IdsExtract(raws, (x: RawCliente) => x.clienteId)
    ensures |r| == |raws|
    ensures forall i | 0 <= i < |r| ::
      Some(r[i].clienteId) == ExtractId(raws[i].clienteId) &&
      r[i].nombre == StripField(raws[i].nombre) &&
      r[i].edad == raws[i].edad &&
      r[i].ciudad == StripField(raws[i].ciudad)
  {
    seq(|raws|, i requires 0 <= i < |raws| =>
      var x := raws[i];
      Cliente(ExtractId(x.clienteId).value, StripField(x.nombre), x.edad, StripField(x.ciudad)))
  }

  function NormalizeVentas(raws: seq<RawVenta>): (r: seq<Venta>)
    requires IdsExtract(raws, (x: RawVenta) => x.ventaId)
    requires IdsExtract(raws, (x: RawVenta) => x.productoId)
    requires IdsExtract(raws, (x: RawVenta) => x.clienteId)
    ensures |r| == |raws|
    ensures forall i | 0 <= i < |r| ::
      Some(r[i].ventaId) == ExtractId(raws[i].ventaId) &&
      Some(r[i].productoId) == ExtractId(raws[i].productoId) &&
      Some(r[i].clienteId) == ExtractId(raws[i].clienteId) &&
      r[i].fechaVenta == ParseDate(raws[i].fechaVenta) &&
      r[i].cantidad == raws[i].cantidad
  {
    seq(|raws|, i requires 0 <= i < |raws| =>
      var x := raws[i];
      Venta(ExtractId(x.ventaId).value, ExtractId(x.productoId).value,
            ExtractId(x.clienteId).value, ParseDate(x.fechaVenta), x.cantidad))
  }

  function NormalizeInventario(raws: seq<RawInventario>): (r: seq<Inventario>)
    requires IdsExtract(raws, (x: RawInventario) => x.productoId)
    ensures |r| == |raws|
    ensures forall i | 0 <= i < |r| ::
      Some(r[i].productoId) == ExtractId(raws[i].productoId) &&
      r[i].fechaSnapshot == ParseDate(raws[i].fechaSnapshot) &&
      r[i].stockActual == raws[i].stockActual
  {
    seq(|raws|, i requires 0 <= i < |raws| =>
      var x := raws[i];
      Inventario.Inventario(ExtractId(x.productoId).value, ParseDate(x.fechaSnapshot), x.stockActual))
  }

  // ---------------------------------------------------------- row filters

  /** `df["col"] >= 0` is false for a missing value, so such rows go too. */
  predicate NonNegative(v: Option<int>) { v.Some? && v.value >= 0 }

  predicate PriceOk(p: Producto) {
    p.precioUnitario.Some? && p.precioUnitario.value >= 0.0
  }

  predicate CantidadOk(v: Venta) { NonNegative(v.cantidad) }
  predicate FechaVentaPresent(v: Venta) { v.fechaVenta.Some? }
  predicate StockOk(x: Inventario) { NonNegative(x.stockActual) }
  predicate FechaSnapshotPresent(x: Inventario) { x.fechaSnapshot.Some? }

  /** The sales and snapshots that survive both filters. */
  predicate VentaKept(v: Venta) { CantidadOk(v) && FechaVentaPresent(v) }
  predicate InventarioKept(x: Inventario) { StockOk(x) && FechaSnapshotPresent(x) }

  // ------------------------------------------------------------ clean_*

  /** `clean_productos`: extract the ids, trim name and category, keep the
      rows with a non-negative price, then the first row of every id. */
  function CleanProductos(raws: seq<RawProducto>): (r: Result<seq<Producto>, CleanError>)
    ensures r.Failure? <==> exists i | 0 <= i < |raws| :: ExtractId(raws[i].productoId).None?
    ensures r.Failure? ==> r.error == IdNotNumeric(Productos, "producto_id")
    ensures r.Success? ==>
      var priced := Filter(NormalizeProductos(raws), PriceOk);
      IsSubsequence(r.value, NormalizeProductos(raws)) &&
      (forall p | p in r.value :: PriceOk(p)) &&
      UniqueBy(r.value, ProductoKey) &&
      KeySet(r.value, ProductoKey) == KeySet(priced, ProductoKey) &&
      (forall p | p in r.value :: p == FirstWithKey(priced, ProductoKey, p.productoId)) &&
      InFirstOrder(r.value, priced, ProductoKey)
  {
    if !IdsExtract(raws, (x: RawProducto) => x.productoId) then
      Failure(IdNotNumeric(Productos, "producto_id"))
    else
      var norm := NormalizeProductos(raws);
      var priced := Filter(norm, PriceOk);
      var r := DropDuplicates(priced, ProductoKey);
      SubsequenceTransitive(r, priced, norm);
      Success(r)
  }

  /** `clean_clientes`: extract the ids, trim name and city, keep the first
      row of every id.  The `dropna` on the id removes nothing: an id that
      yields no number has already made the conversion raise. */
  function CleanClientes(raws: seq<RawCliente>): (r: Result<seq<Cliente>, CleanError>)
    ensures r.Failure? <==> exists i | 0 <= i < |raws| :: ExtractId(raws[i].clienteId).None?
    ensures r.Failure? ==> r.error == IdNotNumeric(Clientes, "cliente_id")
    ensures r.Success? ==>
      var norm := NormalizeClientes(raws);
      IsSubsequence(r.value, norm) &&
      UniqueBy(r.value, ClienteKey) &&
      KeySet(r.value, ClienteKey) == KeySet(norm, ClienteKey) &&
      (forall c | c in r.value :: c == FirstWithKey(norm, ClienteKey, c.clienteId)) &&
      InFirstOrder(r.value, norm, ClienteKey)
  {
    if !IdsExtract(raws, (x: RawCliente) => x.clienteId) then
      Failure(IdNotNumeric(Clientes, "cliente_id"))
    else
      Success(DropDuplicates(NormalizeClientes(raws), ClienteKey))
  }

  /** `clean_ventas`: extract the three ids (a failing column raises, the
      first of `venta_id`, `producto_id`, `cliente_id` that fails), parse the
      date, keep the rows with a non-negative quantity, then the rows whose
      date parsed.  Sales are not de-duplicated. */
  function CleanVentas(raws: seq<RawVenta>): (r: Result<seq<Venta>, CleanError>)
    ensures r.Failure? <==> exists i | 0 <= i < |raws| ::
      ExtractId(raws[i].ventaId).None? || ExtractId(raws[i].productoId).None? ||
      ExtractId(raws[i].clienteId).None?
    ensures r.Success? ==>
      var norm := NormalizeVentas(raws);
      r.value == Filter(norm, VentaKept) &&
      forall v | v in r.value :: v.fechaVenta.Some? && IsIsoShape(v.fechaVenta.value)
  {
    if !IdsExtract(raws, (x: RawVenta) => x.ventaId) then
      Failure(IdNotNumeric(Ventas, "venta_id"))
    else if !IdsExtract(raws, (x: RawVenta) => x.productoId) then
      Failure(IdNotNumeric(Ventas, "producto_id"))
    else if !IdsExtract(raws, (x: RawVenta) => x.clienteId) then
      Failure(IdNotNumeric(Ventas, "cliente_id"))
    else
      var norm := NormalizeVentas(raws);
      FilterFilter(norm, CantidadOk, FechaVentaPresent, VentaKept);
      ParsedFechaVenta(raws);
      Success(Filter(Filter(norm, CantidadOk), FechaVentaPresent))
  }

  lemma ParsedFechaVenta(raws: seq<RawVenta>)
    requires IdsExtract(raws, (x: RawVenta) => x.ventaId)
    requires IdsExtract(raws, (x: RawVenta) => x.productoId)
    requires IdsExtract(raws, (x: RawVenta) => x.clienteId)
    ensures forall v | v in NormalizeVentas(raws) && v.fechaVenta.Some? :: IsIsoShape(v.fechaVenta.value)
  {
    var norm := NormalizeVentas(raws);
    forall v | v in norm && v.fechaVenta.Some? ensures IsIsoShape(v.fechaVenta.value) {
      var i :| 0 <= i < |norm| && norm[i] == v;
      assert v.fechaVenta == ParseDate(raws[i].fechaVenta);
    }
  }

  /** The output of `clean_ventas` is the order-preserving subsequence of
      the normalised sales that have a non-negative quantity and a date
      `parse_date` accepted: every such sale is kept and no other. */
  lemma CleanVentasKeeps(raws: seq<RawVenta>)
    requires CleanVentas(raws).Success?
    ensures var r, norm := CleanVentas(raws).value, NormalizeVentas(raws);
      IsSubsequence(r, norm) &&
      forall v | v in norm :: v in r <==> (NonNegative(v.cantidad) && v.fechaVenta.Some?)
  {
  }

  /** `clean_inventario`: extract the product id, parse the snapshot date,
      keep the rows with a non-negative stock, then those whose date parsed. */
  function CleanInventario(raws: seq<RawInventario>): (r: Result<seq<Inventario>, CleanError>)
    ensures r.Failure? <==> exists i | 0 <= i < |raws| :: ExtractId(raws[i].productoId).None?
    ensures r.Failure? ==> r.error == IdNotNumeric(TableName.Inventario, "producto_id")
    ensures r.Success? ==>
      var norm := NormalizeInventario(raws);
      r.value == Filter(norm, InventarioKept) &&
      forall x | x in r.value :: x.fechaSnapshot.Some? && IsIsoShape(x.fechaSnapshot.value)
  {
    if !IdsExtract(raws, (x: RawInventario) => x.productoId) then
      Failure(IdNotNumeric(TableName.Inventario, "producto_id"))
    else
      var norm := NormalizeInventario(raws);
      FilterFilter(norm, StockOk, FechaSnapshotPresent, InventarioKept);
      ParsedFechaSnapshot(raws);
      Success(Filter(Filter(norm, StockOk), FechaSnapshotPresent))
  }

  lemma ParsedFechaSnapshot(raws: seq<RawInventario>)
    requires IdsExtract(raws, (x: RawInventario) => x.productoId)
    ensures forall x | x in NormalizeInventario(raws) && x.fechaSnapshot.Some? ::
      IsIsoShape(x.fechaSnapshot.value)
  {
    var norm := NormalizeInventario(raws);
    forall x | x in norm && x.fechaSnapshot.Some? ensures IsIsoShape(x.fechaSnapshot.value) {
      var i :| 0 <= i < |norm| && norm[i] == x;
      assert x.fechaSnapshot == ParseDate(raws[i].fechaSnapshot);
    }
  }

  /** The output of `clean_inventario` keeps, in order, exactly the
      snapshots with a non-negative stock and a date `parse_date` accepted. */
  lemma CleanInventarioKeeps(raws: seq<RawInventario>)
    requires CleanInventario(raws).Success?
    ensures var r, norm := CleanInventario(raws).value, NormalizeInventario(raws);
      IsSubsequence(r, norm) &&
      forall x | x in norm :: x in r <==> (NonNegative(x.stockActual) && x.fechaSnapshot.Some?)
  {
  }

  // ------------------------------------------------------- enrich_ventas

  /** The value `fillna` puts in place of a missing city. */
  const CiudadDesconocida := "ciudad_desconocida"

  /** A sale together with the `ciudad` column the join adds. */
  datatype VentaEnriquecida = VentaEnriquecida(venta: Venta, ciudad: string)

  /** The customers whose id is `id`, in table order. */
  function Matches(clientes: seq<Cliente>, id: nat): seq<Cliente> {
    Filter(clientes, (c: Cliente) => c.clienteId == id)
  }

  /** The rows a left join produces for one sale: one per matching customer
      in customer order, or one with a null city when none matches; the
      null city is then filled with the sentinel. */
  function JoinOne(v: Venta, clientes: seq<Cliente>): (r: seq<VentaEnriquecida>)
    ensures |r| >= 1
    ensures forall e | e in r :: e.venta == v
  {
    var m := Matches(clientes, v.clienteId);
    if m == [] then [VentaEnriquecida(v, CiudadDesconocida)]
    else seq(|m|, j requires 0 <= j < |m| => VentaEnriquecida(v, m[j].ciudad.GetOr(CiudadDesconocida)))
  }

  /** `enrich_ventas`: `ventas.merge(clientes[[id, ciudad]], how="left")`
      followed by `fillna`; the left table's order is kept. */
  function EnrichVentas(ventas: seq<Venta>, clientes: seq<Cliente>): (r: seq<VentaEnriquecida>)
    ensures |r| >= |ventas|
    ensures forall e | e in r :: e.venta in ventas
    ensures forall v | v in ventas :: exists e | e in r :: e.venta == v
  {
    if ventas == [] then []
    else
      var head := JoinOne(ventas[0], clientes);
      var tail := EnrichVentas(ventas[1..], clientes);
      assert head[0] in head + tail;
      assert forall v | v in ventas :: v == ventas[0] || v in ventas[1..];
      assert forall e | e in head + tail :: e in head || e in tail;
      assert forall e | e in tail :: e in head + tail;
      head + tail
  }

  /** The city a sale gets when customer ids are unique: its customer's
      city, or the sentinel when the customer is absent or has no city. */
  function CiudadDe(clientes: seq<Cliente>, id: nat): string {
    if id in KeySet(clientes, ClienteKey)
    then FirstWithKey(clientes, ClienteKey, id).ciudad.GetOr(CiudadDesconocida)
    else CiudadDesconocida
  }

  lemma {:induction false} MatchesOfUnique(clientes: seq<Cliente>, id: nat)
    requires UniqueBy(clientes, ClienteKey)
    ensures id !in KeySet(clientes, ClienteKey) ==> Matches(clientes, id) == []
    ensures id in KeySet(clientes, ClienteKey) ==>
      Matches(clientes, id) == [FirstWithKey(clientes, ClienteKey, id)]
  {
    if clientes != [] {
      UniqueByTail(clientes, ClienteKey);
      MatchesOfUnique(clientes[1..], id);
      assert KeySet(clientes, ClienteKey) == {clientes[0].clienteId} + KeySet(clientes[1..], ClienteKey) by {
        assert forall c | c in clientes :: c == clientes[0] || c in clientes[1..];
      }
    }
  }

  /** With unique customer ids (which `clean_clientes` guarantees) the join
      keeps the number and the order of the sales, and each sale gets its
      customer's city or the sentinel. */
  lemma {:induction false} EnrichKeepsSales(ventas: seq<Venta>, clientes: seq<Cliente>)
    requires UniqueBy(clientes, ClienteKey)
    ensures var r := EnrichVentas(ventas, clientes);
      |r| == |ventas| &&
      forall i | 0 <= i < |r| ::
        r[i] == VentaEnriquecida(ventas[i], CiudadDe(clientes, ventas[i].clienteId))
  {
    if ventas != [] {
      JoinOneUnique(ventas[0], clientes);
      EnrichKeepsSales(ventas[1..], clientes);
      var r := EnrichVentas(ventas, clientes);
      var tail := EnrichVentas(ventas[1..], clientes);
      assert r == [VentaEnriquecida(ventas[0], CiudadDe(clientes, ventas[0].clienteId))] + tail;
      forall i | 0 < i < |r|
        ensures r[i] == VentaEnriquecida(ventas[i], CiudadDe(clientes, ventas[i].clienteId))
      {
        assert r[i] == tail[i - 1] && ventas[1..][i - 1] == ventas[i];
      }
    }
  }

  /** With unique customer ids a sale joins exactly one row. */
  lemma JoinOneUnique(v: Venta, clientes: seq<Cliente>)
    requires UniqueBy(clientes, ClienteKey)
    ensures JoinOne(v, clientes) == [VentaEnriquecida(v, CiudadDe(clientes, v.clienteId))]
  {
    MatchesOfUnique(clientes, v.clienteId);
  }

  /** After the join the city is the sentinel exactly when the customer is
      missing, has no city, or has the sentinel itself as city. */
  lemma EnrichSentinel(ventas: seq<Venta>, clientes: seq<Cliente>, i: nat)
    requires UniqueBy(clientes, ClienteKey) && i < |ventas|
    ensures |EnrichVentas(ventas, clientes)| == |ventas|
    ensures var id := ventas[i].clienteId;
      EnrichVentas(ventas, clientes)[i].ciudad == CiudadDesconocida <==>
        (id !in KeySet(clientes, ClienteKey) ||
         FirstWithKey(clientes, ClienteKey, id).ciudad in {None, Some(CiudadDesconocida)})
  {
    EnrichKeepsSales(ventas, clientes);
    CiudadDeSentinel(clientes, ventas[i].clienteId);
  }

  lemma CiudadDeSentinel(clientes: seq<Cliente>, id: nat)
    ensures CiudadDe(clientes, id) == CiudadDesconocida <==>
      (id !in KeySet(clientes, ClienteKey) ||
       FirstWithKey(clientes, ClienteKey, id).ciudad in {None, Some(CiudadDesconocida)})
  {
    if id in KeySet(clientes, ClienteKey) {
      var c := FirstWithKey(clientes, ClienteKey, id).ciudad;
      assert c.Some? ==> c.GetOr(CiudadDesconocida) == c.value;
    }
  }
}
