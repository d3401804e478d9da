/** `DataValidator`: a fixed battery of eight checks over the database that
    appends alerts to a list, and the summary of that list by level. */
module Validation {
  import opened Common
  import opened Seqs
  import opened Dates
  import opened Cleaning
  import opened Store

  // -------------------------------------------------------------- alerts

  datatype Level = Info | Warning | Error | Critical

  /** The message of an alert, with the figures it reports. */
  datatype Message =
    | MissingTables(tables: set<TableName>)
    | StructureComplete
    | DuplicateVentaIds(groups: nat)
    | NoDuplicates
    | NegativeCantidad(rows: nat)
    | ZeroCantidad(rows: nat)
    | CantidadesValid
    | OrphanProductos(rows: nat)
    | ProductosValid
    | NegativePrecios(rows: nat)
    | PreciosValid
    | OrphanClientes(rows: nat)
    | ClientesValid
    | FutureFechas(rows: nat, today: string)
    | NoFutureFechas(today: string)
    | NegativeStock(rows: nat)
    | StockValid

  /** The optional detail string of an alert. */
  datatype Detail = NoDetail | IdSet(idSet: set<int>) | IdList(ids: seq<int>) | ReviewDates

  /** The `(nivel, mensaje, detalle)` tuple `log_alerta` appends. */
  datatype Alert = Alert(nivel: Level, mensaje: Message, detalle: Detail)

  // --------------------------------------------------------------- rules

  const RequiredTables: set<TableName> := {Productos, Clientes, Ventas, TableName.Inventario}

  lemma EveryTableRequired()
    ensures forall t: TableName :: t in RequiredTables
  {
    forall t: TableName ensures t in RequiredTables {
      if t.Inventario? {
        assert t == TableName.Inventario;
      }
    }
  }

  /** `validar_estructura_bd`: the one check that works without the tables. */
  function EstructuraAlerts(db: Db): (r: seq<Alert>)
    ensures |r| == 1 && r[0].nivel in {Info, Critical}
    ensures r[0].nivel == Info <==> HasAllTables(db)
    ensures r[0].nivel == Info ==> r[0] == Alert(Info, StructureComplete, NoDetail)
    ensures r[0].nivel == Critical ==>
      r[0].mensaje.MissingTables? && r[0].mensaje.tables != {} &&
      forall t :: t in r[0].mensaje.tables <==> t !in TableNames(db)
  {
    var faltantes := RequiredTables - TableNames(db);
    EveryTableRequired();
    if faltantes != {} then [Alert(Critical, MissingTables(faltantes), NoDetail)]
    else
      assert Productos !in faltantes && Clientes !in faltantes && Ventas !in faltantes;
      assert TableName.Inventario !in faltantes;
      [Alert(Info, StructureComplete, NoDetail)]
  }

  /** The `venta_id`s that `GROUP BY venta_id HAVING COUNT(*) > 1` returns. */
  function DupIds(vs: seq<VentaRow>): set<int> {
    set i, j | 0 <= i < j < |vs| && vs[i].ventaId == vs[j].ventaId :: vs[i].ventaId
  }

  /** `validar_duplicados_ventas`. */
  function DuplicadosAlerts(vs: seq<VentaRow>): (r: seq<Alert>)
    ensures |r| == 1 && r[0].nivel in {Info, Error}
    ensures r[0].nivel == Info <==> UniqueBy(vs, VentaRowKey)
    ensures r[0].nivel == Info ==> r[0] == Alert(Info, NoDuplicates, NoDetail)
    ensures r[0].nivel == Error ==>
      r[0] == Alert(Error, DuplicateVentaIds(|DupIds(vs)|), IdSet(DupIds(vs)))
  {
    var duplicados := DupIds(vs);
    if duplicados != {} then
      [Alert(Error, DuplicateVentaIds(|duplicados|), IdSet(duplicados))]
    else
      assert forall i, j | 0 <= i < j < |vs| ::
        vs[i].ventaId in duplicados || vs[i].ventaId != vs[j].ventaId;
      [Alert(Info, NoDuplicates, NoDetail)]
  }

  predicate NegativeCantidadRow(v: VentaRow) { v.cantidad < 0 }
  predicate ZeroCantidadRow(v: VentaRow) { v.cantidad == 0 }

  /** `validar_cantidades`: an ERROR for negative quantities, a WARNING for
      zero quantities, and INFO only when there is neither. */
  function CantidadesAlerts(vs: seq<VentaRow>): (r: seq<Alert>)
    ensures 1 <= |r| <= 2
    ensures (exists a | a in r :: a.nivel == Error) <==> (exists v | v in vs :: v.cantidad < 0)
    ensures (exists a | a in r :: a.nivel == Warning) <==> (exists v | v in vs :: v.cantidad == 0)
    ensures (exists a | a in r :: a.nivel == Info) <==>
      (forall v | v in vs :: v.cantidad > 0)
    ensures forall a | a in r :: a.nivel in {Info, Warning, Error}
    ensures forall a | a in r && a.nivel == Error ::
      a == Alert(Error, NegativeCantidad(Count(vs, NegativeCantidadRow)), NoDetail)
    ensures forall a | a in r && a.nivel == Warning ::
      a == Alert(Warning, ZeroCantidad(Count(vs, ZeroCantidadRow)), NoDetail)
    ensures forall a | a in r && a.nivel == Info :: a == Alert(Info, CantidadesValid, NoDetail)
    ensures |r| == 2 ==> r[0].nivel == Error && r[1].nivel == Warning
  {
    var negativos := Count(vs, NegativeCantidadRow);
    var ceros := Count(vs, ZeroCantidadRow);
    var error := Alert(Error, NegativeCantidad(negativos), NoDetail);
    var warning := Alert(Warning, ZeroCantidad(ceros), NoDetail);
    if negativos > 0 && ceros > 0 then [error, warning]
    else if negativos > 0 then [error]
    else if ceros > 0 then [warning]
    else
      assert forall v | v in vs :: !NegativeCantidadRow(v) && !ZeroCantidadRow(v);
      [Alert(Info, CantidadesValid, NoDetail)]
  }

  /** The sales whose product (customer) has no row in `productos`
      (`clientes`): the rows of `ventas LEFT JOIN ... WHERE ... IS NULL`. */
  function OrphanProductoRows(vs: seq<VentaRow>, ps: seq<ProductoRow>): seq<VentaRow> {
    Filter(vs, (v: VentaRow) => v.productoId !in KeySet(ps, ProductoRowKey))
  }

  function OrphanClienteRows(vs: seq<VentaRow>, cs: seq<ClienteRow>): seq<VentaRow> {
    Filter(vs, (v: VentaRow) => v.clienteId !in KeySet(cs, ClienteRowKey))
  }

  function ProductoIds(vs: seq<VentaRow>): (r: seq<int>)
    ensures forall k :: k in r <==> exists v | v in vs :: v.productoId == k
  {
    var r := seq(|vs|, i requires 0 <= i < |vs| => vs[i].productoId);
    assert forall v | v in vs :: v.productoId in r by {
      forall v | v in vs ensures v.productoId in r {
        var i :| 0 <= i < |vs| && vs[i] == v;
        assert r[i] == v.productoId;
      }
    }
    r
  }

  function ClienteIds(vs: seq<VentaRow>): (r: seq<int>)
    ensures forall k :: k in r <==> exists v | v in vs :: v.clienteId == k
  {
    var r := seq(|vs|, i requires 0 <= i < |vs| => vs[i].clienteId);
    assert forall v | v in vs :: v.clienteId in r by {
      forall v | v in vs ensures v.clienteId in r {
        var i :| 0 <= i < |vs| && vs[i] == v;
        assert r[i] == v.clienteId;
      }
    }
    r
  }

  /** `validar_productos_validos`: the number of sales with an unknown
      product, and every such product id once. */
  function ProductosValidosAlerts(vs: seq<VentaRow>, ps: seq<ProductoRow>): (r: seq<Alert>)
    ensures |r| == 1 && r[0].nivel in {Info, Error}
    ensures r[0].nivel == Info <==> forall v | v in vs :: v.productoId in KeySet(ps, ProductoRowKey)
    ensures r[0].nivel == Info ==> r[0] == Alert(Info, ProductosValid, NoDetail)
    ensures r[0].nivel == Error ==>
      r[0].mensaje == OrphanProductos(|OrphanProductoRows(vs, ps)|) && r[0].detalle.IdList? &&
      (forall i, j | 0 <= i < j < |r[0].detalle.ids| :: r[0].detalle.ids[i] != r[0].detalle.ids[j]) &&
      (forall k :: k in r[0].detalle.ids <==>
        (k !in KeySet(ps, ProductoRowKey) && exists v | v in vs :: v.productoId == k))
  {
    var orphans := OrphanProductoRows(vs, ps);
    var invalidos := |orphans|;
    if invalidos > 0 then
      [Alert(Error, OrphanProductos(invalidos), IdList(Distinct(ProductoIds(orphans))))]
    else
      assert forall v | v in vs :: v.productoId in KeySet(ps, ProductoRowKey) || v in orphans;
      [Alert(Info, ProductosValid, NoDetail)]
  }

  predicate NegativePrecioRow(p: ProductoRow) { p.precioUnitario < 0.0 }

  /** `validar_precios_productos`. */
  function PreciosAlerts(ps: seq<ProductoRow>): (r: seq<Alert>)
    ensures |r| == 1 && r[0].nivel in {Info, Error}
    ensures r[0].nivel == Info <==> forall p | p in ps :: p.precioUnitario >= 0.0
    ensures r[0].nivel == Info ==> r[0] == Alert(Info, PreciosValid, NoDetail)
    ensures r[0].nivel == Error ==>
      r[0] == Alert(Error, NegativePrecios(Count(ps, NegativePrecioRow)), NoDetail)
  {
    var negativos := Count(ps, NegativePrecioRow);
    if negativos > 0 then [Alert(Error, NegativePrecios(negativos), NoDetail)]
    else [Alert(Info, PreciosValid, NoDetail)]
  }

  /** `validar_clientes_validos`: like the product check, but the detail
      lists at most ten of the unknown customer ids (`LIMIT 10`); which ten
      SQL leaves open, the model takes the first ten in table order. */
  function ClientesValidosAlerts(vs: seq<VentaRow>, cs: seq<ClienteRow>): (r: seq<Alert>)
    ensures |r| == 1 && r[0].nivel in {Info, Error}
    ensures r[0].nivel == Info <==> forall v | v in vs :: v.clienteId in KeySet(cs, ClienteRowKey)
    ensures r[0].nivel == Error ==>
      var all := Distinct(ClienteIds(OrphanClienteRows(vs, cs)));
      r[0].mensaje == OrphanClientes(|OrphanClienteRows(vs, cs)|) && r[0].detalle.IdList? &&
      1 <= |r[0].detalle.ids| <= 10 &&
      (forall i, j | 0 <= i < j < |r[0].detalle.ids| :: r[0].detalle.ids[i] != r[0].detalle.ids[j]) &&
      (forall k | k in r[0].detalle.ids :: k !in KeySet(cs, ClienteRowKey) && exists v | v in vs :: v.clienteId == k) &&
      (|all| <= 10 ==> forall k :: k in r[0].detalle.ids <==>
        (k !in KeySet(cs, ClienteRowKey) && exists v | v in vs :: v.clienteId == k)) &&
      (|all| > 10 ==> |r[0].detalle.ids| == 10)
    ensures r[0].nivel == Info ==> r[0] == Alert(Info, ClientesValid, NoDetail)
  {
    var orphans := OrphanClienteRows(vs, cs);
    var invalidos := |orphans|;
    if invalidos > 0 then
      var all := Distinct(ClienteIds(orphans));
      assert orphans[0] in orphans && orphans[0].clienteId in all;
      var ejemplos := Take(all, 10);
      TakeDistinct(all, 10);
      [Alert(Error, OrphanClientes(invalidos), IdList(ejemplos))]
    else
      assert forall v | v in vs :: v.clienteId in KeySet(cs, ClienteRowKey) || v in orphans;
      [Alert(Info, ClientesValid, NoDetail)]
  }

  /** `validar_fechas_futuras` with `today` for `datetime.now()`: the sales
      whose `fecha_venta` compares greater than today's date as text. */
  function FechasAlerts(vs: seq<VentaRow>, today: string): (r: seq<Alert>)
    ensures |r| == 1 && r[0].nivel in {Info, Warning}
    ensures r[0].nivel == Info <==> forall v | v in vs :: !LexLess(today, v.fechaVenta)
    ensures r[0].nivel == Info ==> r[0] == Alert(Info, NoFutureFechas(today), NoDetail)
    ensures r[0].nivel == Warning ==>
      r[0] == Alert(Warning, FutureFechas(Count(vs, (v: VentaRow) => LexLess(today, v.fechaVenta)), today), ReviewDates)
  {
    var futuras := Count(vs, (v: VentaRow) => LexLess(today, v.fechaVenta));
    if futuras > 0 then [Alert(Warning, FutureFechas(futuras, today), ReviewDates)]
    else [Alert(Info, NoFutureFechas(today), NoDetail)]
  }

  predicate NegativeStockRow(x: InventarioRow) { x.stockActual < 0 }

  /** `validar_stock_negativo`. */
  function StockAlerts(xs: seq<InventarioRow>): (r: seq<Alert>)
    ensures |r| == 1 && r[0].nivel in {Info, Error}
    ensures r[0].nivel == Info <==> forall x | x in xs :: x.stockActual >= 0
    ensures r[0].nivel == Info ==> r[0] == Alert(Info, StockValid, NoDetail)
    ensures r[0].nivel == Error ==>
      r[0] == Alert(Error, NegativeStock(Count(xs, NegativeStockRow)), NoDetail)
  {
    var negativos := Count(xs, NegativeStockRow);
    if negativos > 0 then [Alert(Error, NegativeStock(negativos), NoDetail)]
    else [Alert(Info, StockValid, NoDetail)]
  }

  // ------------------------------------------------------------ battery

  datatype Rule =
    | Estructura | Duplicados | Cantidades | ProductosValidos
    | Precios | ClientesValidos | FechasFuturas | StockNegativo

  /** The order of `ejecutar_validaciones`. */
  const Order: seq<Rule> :=
    [Estructura, Duplicados, Cantidades, ProductosValidos,
     Precios, ClientesValidos, FechasFuturas, StockNegativo]

  /** One check: its alerts, or the missing table its query raised on. */
  function RuleAlerts(rule: Rule, db: Db, today: string): (r: Result<seq<Alert>, TableName>)
    ensures r.Failure? ==> r.error !in TableNames(db)
    ensures r.Failure? <==> rule != Estructura && !HasAllTablesFor(rule, db)
  {
    match rule
    case Estructura => Success(EstructuraAlerts(db))
    case Duplicados =>
      if db.ventas.None? then Failure(Ventas) else Success(DuplicadosAlerts(db.ventas.value))
    case Cantidades =>
      if db.ventas.None? then Failure(Ventas) else Success(CantidadesAlerts(db.ventas.value))
    case ProductosValidos =>
      if db.ventas.None? then Failure(Ventas)
      else if db.productos.None? then Failure(Productos)
      else Success(ProductosValidosAlerts(db.ventas.value, db.productos.value))
    case Precios =>
      if db.productos.None? then Failure(Productos) else Success(PreciosAlerts(db.productos.value))
    case ClientesValidos =>
      if db.ventas.None? then Failure(Ventas)
      else if db.clientes.None? then Failure(Clientes)
      else Success(ClientesValidosAlerts(db.ventas.value, db.clientes.value))
    case FechasFuturas =>
      if db.ventas.None? then Failure(Ventas) else Success(FechasAlerts(db.ventas.value, today))
    case StockNegativo =>
      if db.inventario.None? then Failure(TableName.Inventario)
      else Success(StockAlerts(db.inventario.value))
  }

  /** The tables a check's queries read are all there. */
  predicate HasAllTablesFor(rule: Rule, db: Db) {
    match rule
    case Estructura => true
    case Duplicados => db.ventas.Some?
    case Cantidades => db.ventas.Some?
    case ProductosValidos => db.ventas.Some? && db.productos.Some?
    case Precios => db.productos.Some?
    case ClientesValidos => db.ventas.Some? && db.clientes.Some?
    case FechasFuturas => db.ventas.Some?
    case StockNegativo => db.inventario.Some?
  }

  /** Running `rules` in order: the alerts appended and, when a query
      raised, the missing table (nothing after it runs). */
  function Battery(rules: seq<Rule>, db: Db, today: string): (seq<Alert>, Option<TableName>) {
    if rules == [] then ([], None)
    else
      match RuleAlerts(rules[0], db, today)
      case Failure(t) => ([], Some(t))
      case Success(a) =>
        var tail := Battery(rules[1..], db, today);
        (a + tail.0, tail.1)
  }

  /** After the checks before `rest` have run without raising, the rest of
      the battery appends what is still missing from the whole battery. */
  ghost predicate Battered(start: seq<Alert>, now: seq<Alert>, rest: seq<Rule>, db: Db, today: string) {
    start + Battery(Order, db, today).0 == now + Battery(rest, db, today).0 &&
    Battery(Order, db, today).1 == Battery(rest, db, today).1
  }

  lemma BatteryHeadRaises(rules: seq<Rule>, db: Db, today: string)
    requires rules != []
    requires RuleAlerts(rules[0], db, today).Failure?
    ensures Battery(rules, db, today) == ([], Some(RuleAlerts(rules[0], db, today).error))
  {
  }

  lemma BatteryHeadSucceeds(rules: seq<Rule>, db: Db, today: string)
    requires rules != []
    requires RuleAlerts(rules[0], db, today).Success?
    ensures Battery(rules, db, today).0 == RuleAlerts(rules[0], db, today).value + Battery(rules[1..], db, today).0
    ensures Battery(rules, db, today).1 == Battery(rules[1..], db, today).1
  {
  }

  lemma BatteryBegins(start: seq<Alert>, db: Db, today: string)
    ensures Battered(start, start, Order[0..], db, today)
  {
    assert Order[0..] == Order;
  }

  /** One more check of the fixed order has run: either the battery goes on
      or it stops with that check's missing table. */
  lemma BatteryAdvances(start: seq<Alert>, before: seq<Alert>, after: seq<Alert>,
                        raised: Option<TableName>, k: nat, db: Db, today: string)
    requires k < |Order| && Battered(start, before, Order[k..], db, today)
    requires (after, raised) == Applied(RuleAlerts(Order[k], db, today), before)
    ensures raised.None? ==> Battered(start, after, Order[k + 1..], db, today)
    ensures raised.Some? ==>
      start + Battery(Order, db, today).0 == after && Battery(Order, db, today).1 == raised
  {
    assert Order[k..][0] == Order[k] && Order[k..][1..] == Order[k + 1..];
    BatteryStep(Order[k..], db, today, before, after, raised);
  }

  lemma BatteryEnds(start: seq<Alert>, now: seq<Alert>, db: Db, today: string)
    requires Battered(start, now, Order[|Order|..], db, today)
    ensures now == start + Battery(Order, db, today).0 && Battery(Order, db, today).1.None?
  {
    assert Order[|Order|..] == [];
  }

  /** How one check's outcome advances the battery over `rules`. */
  lemma BatteryStep(rules: seq<Rule>, db: Db, today: string, before: seq<Alert>,
                    after: seq<Alert>, raised: Option<TableName>)
    requires rules != []
    requires (after, raised) == Applied(RuleAlerts(rules[0], db, today), before)
    ensures raised.Some? ==>
      before + Battery(rules, db, today).0 == after && Battery(rules, db, today).1 == raised
    ensures raised.None? ==>
      before + Battery(rules, db, today).0 == after + Battery(rules[1..], db, today).0 &&
      Battery(rules, db, today).1 == Battery(rules[1..], db, today).1
  {
    var o := RuleAlerts(rules[0], db, today);
    if o.Failure? {
      BatteryHeadRaises(rules, db, today);
      assert after == before && raised == Some(o.error);
    } else {
      BatteryHeadSucceeds(rules, db, today);
      assert after == before + o.value && raised == None;
      var tail := Battery(rules[1..], db, today).0;
      SeqAppendAssoc(before, o.value, tail);
    }
  }

  /** Only the date check looks at the current date. */
  lemma RuleAlertsIgnoreDate(rule: Rule, db: Db, today: string)
    requires rule != FechasFuturas
    ensures RuleAlerts(rule, db, today) == RuleAlerts(rule, db, "")
  {
  }

  function AlertCount(rule: Rule): nat {
    if rule == Cantidades then 2 else 1
  }

  function MaxAlerts(rules: seq<Rule>): nat {
    if rules == [] then 0 else AlertCount(rules[0]) + MaxAlerts(rules[1..])
  }

  lemma RuleAlertsSize(rule: Rule, db: Db, today: string)
    requires RuleAlerts(rule, db, today).Success?
    ensures 1 <= |RuleAlerts(rule, db, today).value| <= AlertCount(rule)
  {
  }

  /** When every check finds its tables, none raises, each appends its one
      alert (the quantity check one or two), in order. */
  lemma {:induction false} BatterySucceeds(rules: seq<Rule>, db: Db, today: string)
    requires forall r | r in rules :: HasAllTablesFor(r, db)
    ensures Battery(rules, db, today).1.None?
    ensures |rules| <= |Battery(rules, db, today).0| <= MaxAlerts(rules)
    ensures rules != [] ==>
      Battery(rules, db, today).0[0] == RuleAlerts(rules[0], db, today).value[0]
  {
    if rules != [] {
      assert rules[0] in rules;
      assert forall r | r in rules[1..] :: r in rules;
      RuleAlertsSize(rules[0], db, today);
      BatterySucceeds(rules[1..], db, today);
    }
  }

  /** When some check lacks a table, the battery stops with a table the
      database does not hold. */
  lemma {:induction false} BatteryRaises(rules: seq<Rule>, db: Db, today: string, k: nat)
    requires k < |rules| && !HasAllTablesFor(rules[k], db) && rules[k] != Estructura
    ensures Battery(rules, db, today).1.Some?
    ensures Battery(rules, db, today).1.value !in TableNames(db)
  {
    if k > 0 && RuleAlerts(rules[0], db, today).Success? {
      assert rules[1..][k - 1] == rules[k];
      BatteryRaises(rules[1..], db, today, k - 1);
    }
  }

  /** A battery that raised was stopped by a missing table. */
  lemma {:induction false} BatteryRaisesOnlyOnMissingTable(rules: seq<Rule>, db: Db, today: string)
    requires Battery(rules, db, today).1.Some?
    ensures Battery(rules, db, today).1.value !in TableNames(db)
    ensures !HasAllTables(db)
  {
    if RuleAlerts(rules[0], db, today).Success? {
      BatteryRaisesOnlyOnMissingTable(rules[1..], db, today);
    }
  }

  lemma MaxAlertsOrder()
    ensures MaxAlerts(Order) == 9
  {
    assert Order[1..][1..][1..][1..][1..][1..][1..][1..] == [];
  }

  /** With the four tables present, `ejecutar_validaciones` appends eight
      or nine alerts, the first being the structure check's INFO. */
  lemma ValidationWithAllTables(db: Db, today: string)
    requires HasAllTables(db)
    ensures Battery(Order, db, today).1.None?
    ensures 8 <= |Battery(Order, db, today).0| <= 9
    ensures Battery(Order, db, today).0[0] == Alert(Info, StructureComplete, NoDetail)
  {
    BatterySucceeds(Order, db, today);
    MaxAlertsOrder();
  }

  /** With a table missing, the structure check's CRITICAL alert comes
      first and a later check raises on a missing table; the battery raises
      exactly when a table is missing. */
  lemma ValidationWithMissingTable(db: Db, today: string)
    requires !HasAllTables(db)
    ensures Battery(Order, db, today).1.Some?
    ensures Battery(Order, db, today).1.value !in TableNames(db)
    ensures Battery(Order, db, today).0 != [] && Battery(Order, db, today).0[0].nivel == Critical
  {
    if db.ventas.None? {
      BatteryRaises(Order, db, today, 1);
    } else if db.productos.None? {
      BatteryRaises(Order, db, today, 4);
    } else if db.clientes.None? {
      BatteryRaises(Order, db, today, 5);
    } else {
      BatteryRaises(Order, db, today, 7);
    }
  }

  // ------------------------------------------------------------ summary

  function CountLevel(alertas: seq<Alert>, nivel: Level): nat {
    Count(alertas, (a: Alert) => a.nivel == nivel)
  }

  /** The `conteo` dictionary of `generar_resumen`, whose keys are always
      the four levels: one count per level. */
  datatype Counts = Counts(info: nat, warning: nat, error: nat, critical: nat) {
    function Get(nivel: Level): nat {
      match nivel
      case Info => info
      case Warning => warning
      case Error => error
      case Critical => critical
    }

    /** `conteo[nivel] += 1`. */
    function Incr(nivel: Level): (c: Counts)
      ensures c.Get(nivel) == Get(nivel) + 1
    {
      match nivel
      case Info => this.(info := info + 1)
      case Warning => this.(warning := warning + 1)
      case Error => this.(error := error + 1)
      case Critical => this.(critical := critical + 1)
    }
  }

  const NoCounts := Counts(0, 0, 0, 0)

  function Conteo(alertas: seq<Alert>): (c: Counts)
    ensures forall l :: c.Get(l) == CountLevel(alertas, l)
  {
    Counts(CountLevel(alertas, Info), CountLevel(alertas, Warning),
           CountLevel(alertas, Error), CountLevel(alertas, Critical))
  }

  /** What `generar_resumen` reports: the total, the count per level and
      whether the run is APROBADO (otherwise REQUIERE ATENCIÓN). */
  datatype Summary = Summary(total: nat, conteo: Counts, aprobado: bool)

  function Resumen(alertas: seq<Alert>): (s: Summary)
    ensures s.aprobado <==> forall a | a in alertas :: a.nivel != Error && a.nivel != Critical
  {
    var conteo := Conteo(alertas);
    Summary(|alertas|, conteo, conteo.error == 0 && conteo.critical == 0)
  }

  lemma CountLevelSnoc(alertas: seq<Alert>, a: Alert, l: Level)
    ensures CountLevel(alertas + [a], l) == CountLevel(alertas, l) + (if a.nivel == l then 1 else 0)
  {
    FilterSnoc(alertas, a, (b: Alert) => b.nivel == l);
  }

  lemma ConteoEmpty(alertas: seq<Alert>)
    ensures Conteo(alertas[..0]) == NoCounts
  {
    assert alertas[..0] == [];
  }

  lemma ConteoStep(alertas: seq<Alert>, i: nat)
    requires i < |alertas|
    ensures Conteo(alertas[..i + 1]) == Conteo(alertas[..i]).Incr(alertas[i].nivel)
  {
    assert alertas[..i + 1] == alertas[..i] + [alertas[i]];
    ConteoSnoc(alertas[..i], alertas[i]);
  }

  lemma ResumenOfCounts(alertas: seq<Alert>, conteo: Counts)
    requires conteo == Conteo(alertas[..|alertas|])
    ensures Resumen(alertas) == Summary(|alertas|, conteo, conteo.error == 0 && conteo.critical == 0)
    ensures conteo.info + conteo.warning + conteo.error + conteo.critical == |alertas|
  {
    assert alertas[..|alertas|] == alertas;
    ConteoSumsToTotal(alertas);
  }

  /** Counting one more alert adds one to its level's entry. */
  lemma ConteoSnoc(alertas: seq<Alert>, a: Alert)
    ensures Conteo(alertas + [a]) == Conteo(alertas).Incr(a.nivel)
  {
    CountLevelSnoc(alertas, a, Info);
    CountLevelSnoc(alertas, a, Warning);
    CountLevelSnoc(alertas, a, Error);
    CountLevelSnoc(alertas, a, Critical);
  }

  /** Every alert is counted under exactly one level. */
  lemma {:induction false} ConteoSumsToTotal(alertas: seq<Alert>)
    ensures var c := Conteo(alertas);
      c.info + c.warning + c.error + c.critical == |alertas|
    decreases |alertas|
  {
    if alertas != [] {
      var n := |alertas| - 1;
      assert alertas == alertas[..n] + [alertas[n]];
      ConteoSumsToTotal(alertas[..n]);
      CountLevelSnoc(alertas[..n], alertas[n], Info);
      CountLevelSnoc(alertas[..n], alertas[n], Warning);
      CountLevelSnoc(alertas[..n], alertas[n], Error);
      CountLevelSnoc(alertas[..n], alertas[n], Critical);
    }
  }

  // ------------------------------------------- facts about a loaded store

  /** In a database whose declared constraints hold (every database
      `process_all` writes), the duplicate, price and stock checks pass and
      the quantity check raises no ERROR: only the orphan, zero-quantity
      and future-date checks can object. */
  lemma ConstraintsMakeChecksPass(db: Db, today: string)
    requires HasAllTables(db) && WellFormed(db)
    ensures RuleAlerts(Duplicados, db, today) == Success([Alert(Info, NoDuplicates, NoDetail)])
    ensures RuleAlerts(Precios, db, today) == Success([Alert(Info, PreciosValid, NoDetail)])
    ensures RuleAlerts(StockNegativo, db, today) == Success([Alert(Info, StockValid, NoDetail)])
    ensures forall a | a in RuleAlerts(Cantidades, db, today).value :: a.nivel != Error
  {
  }

  /** For dates in canonical form the text comparison of the future-date
      check is calendar order, so it flags exactly the sales dated after
      today. */
  lemma FechasFuturasChronological(vs: seq<VentaRow>, today: string)
    requires IsIsoShape(today) && forall v | v in vs :: IsIsoShape(v.fechaVenta)
    ensures FechasAlerts(vs, today)[0].nivel == Info <==>
      forall v | v in vs :: !ChronoBefore(today, v.fechaVenta)
  {
    forall v | v in vs ensures LexLess(today, v.fechaVenta) <==> ChronoBefore(today, v.fechaVenta) {
      LexLessIsChronological(today, v.fechaVenta);
    }
  }

  // -------------------------------------------------------------- class

  /** The list after one check ran: its alerts appended, or unchanged with
      the missing table when its query raised. */
  function Applied(r: Result<seq<Alert>, TableName>, before: seq<Alert>): (seq<Alert>, Option<TableName>) {
    if r.Failure? then (before, Some(r.error)) else (before + r.value, None)
  }

  class DataValidator {
    var alertas: seq<Alert>

    constructor()
      ensures alertas == []
    {
      alertas := [];
    }

    /** `log_alerta`: exactly one tuple more. */
    method LogAlerta(nivel: Level, mensaje: Message, detalle: Detail)
      modifies this
      ensures alertas == old(alertas) + [Alert(nivel, mensaje, detalle)]
    {
      alertas := alertas + [Alert(nivel, mensaje, detalle)];
    }

    method ValidarEstructuraBd(db: Db)
      modifies this
      ensures alertas == old(alertas) + EstructuraAlerts(db)
    {
      var faltantes := RequiredTables - TableNames(db);
      if faltantes != {} {
        LogAlerta(Critical, MissingTables(faltantes), NoDetail);
      } else {
        LogAlerta(Info, StructureComplete, NoDetail);
      }
    }

    method ValidarDuplicadosVentas(db: Db) returns (raised: Option<TableName>)
      modifies this
      ensures (alertas, raised) == Applied(RuleAlerts(Duplicados, db, ""), old(alertas))
    {
      if db.ventas.None? {
        return Some(Ventas);
      }
      var duplicados := DupIds(db.ventas.value);
      if duplicados != {} {
        LogAlerta(Error, DuplicateVentaIds(|duplicados|), IdSet(duplicados));
      } else {
        LogAlerta(Info, NoDuplicates, NoDetail);
      }
      raised := None;
    }

    method ValidarCantidades(db: Db) returns (raised: Option<TableName>)
      modifies this
      ensures (alertas, raised) == Applied(RuleAlerts(Cantidades, db, ""), old(alertas))
    {
      if db.ventas.None? {
        return Some(Ventas);
      }
      ghost var before := alertas;
      ghost var added: seq<Alert> := [];
      var negativos := Count(db.ventas.value, NegativeCantidadRow);
      if negativos > 0 {
        LogAlerta(Error, NegativeCantidad(negativos), NoDetail);
        added := added + [Alert(Error, NegativeCantidad(negativos), NoDetail)];
      }
      var ceros := Count(db.ventas.value, ZeroCantidadRow);
      if ceros > 0 {
        LogAlerta(Warning, ZeroCantidad(ceros), NoDetail);
        added := added + [Alert(Warning, ZeroCantidad(ceros), NoDetail)];
      }
      if negativos == 0 && ceros == 0 {
        LogAlerta(Info, CantidadesValid, NoDetail);
        added := added + [Alert(Info, CantidadesValid, NoDetail)];
      }
      assert alertas == before + added;
      assert added == CantidadesAlerts(db.ventas.value);
      raised := None;
    }

    method ValidarProductosValidos(db: Db) returns (raised: Option<TableName>)
      modifies this
      ensures (alertas, raised) == Applied(RuleAlerts(ProductosValidos, db, ""), old(alertas))
    {
      if db.ventas.None? {
        return Some(Ventas);
      }
      if db.productos.None? {
        return Some(Productos);
      }
      var orphans := OrphanProductoRows(db.ventas.value, db.productos.value);
      var invalidos := |orphans|;
      if invalidos > 0 {
        var idsInvalidos := Distinct(ProductoIds(orphans));
        LogAlerta(Error, OrphanProductos(invalidos), IdList(idsInvalidos));
      } else {
        LogAlerta(Info, ProductosValid, NoDetail);
      }
      raised := None;
    }

    method ValidarPreciosProductos(db: Db) returns (raised: Option<TableName>)
      modifies this
      ensures (alertas, raised) == Applied(RuleAlerts(Precios, db, ""), old(alertas))
    {
      if db.productos.None? {
        return Some(Productos);
      }
      var negativos := Count(db.productos.value, NegativePrecioRow);
      if negativos > 0 {
        LogAlerta(Error, NegativePrecios(negativos), NoDetail);
      } else {
        LogAlerta(Info, PreciosValid, NoDetail);
      }
      raised := None;
    }

    method ValidarClientesValidos(db: Db) returns (raised: Option<TableName>)
      modifies this
      ensures (alertas, raised) == Applied(RuleAlerts(ClientesValidos, db, ""), old(alertas))
    {
      if db.ventas.None? {
        return Some(Ventas);
      }
      if db.clientes.None? {
        return Some(Clientes);
      }
      var orphans := OrphanClienteRows(db.ventas.value, db.clientes.value);
      var invalidos := |orphans|;
      if invalidos > 0 {
        var idsInvalidos := Take(Distinct(ClienteIds(orphans)), 10);
        LogAlerta(Error, OrphanClientes(invalidos), IdList(idsInvalidos));
      } else {
        LogAlerta(Info, ClientesValid, NoDetail);
      }
      raised := None;
    }

    method ValidarFechasFuturas(db: Db, today: string) returns (raised: Option<TableName>)
      modifies this
      ensures (alertas, raised) == Applied(RuleAlerts(FechasFuturas, db, today), old(alertas))
    {
      if db.ventas.None? {
        return Some(Ventas);
      }
      var futuras := Count(db.ventas.value, (v: VentaRow) => LexLess(today, v.fechaVenta));
      if futuras > 0 {
        LogAlerta(Warning, FutureFechas(futuras, today), ReviewDates);
      } else {
        LogAlerta(Info, NoFutureFechas(today), NoDetail);
      }
      raised := None;
    }

    method ValidarStockNegativo(db: Db) returns (raised: Option<TableName>)
      modifies this
      ensures (alertas, raised) == Applied(RuleAlerts(StockNegativo, db, ""), old(alertas))
    {
      if db.inventario.None? {
        return Some(TableName.Inventario);
      }
      var negativos := Count(db.inventario.value, NegativeStockRow);
      if negativos > 0 {
        LogAlerta(Error, NegativeStock(negativos), NoDetail);
      } else {
        LogAlerta(Info, StockValid, NoDetail);
      }
      raised := None;
    }

    /** `generar_resumen`: one pass over the alerts adding one to the entry
        of each alert's level. */
    method GenerarResumen() returns (s: Summary)
      ensures s == Resumen(alertas)
      ensures s.conteo.info + s.conteo.warning + s.conteo.error + s.conteo.critical == s.total
    {
      var xs := alertas;
      var conteo := NoCounts;
      ConteoEmpty(xs);
      var i := 0;
      while i < |xs|
        invariant 0 <= i <= |xs|
        invariant conteo == Conteo(xs[..i])
      {
        ConteoStep(xs, i);
        conteo := conteo.Incr(xs[i].nivel);
        i := i + 1;
      }
      ResumenOfCounts(xs, conteo);
      s := Summary(|xs|, conteo, conteo.error == 0 && conteo.critical == 0);
    }

    /** Runs one check of the battery by calling its `validar_*` method. */
    method Validar(rule: Rule, db: Db, today: string) returns (raised: Option<TableName>)
      modifies this
      ensures (alertas, raised) == Applied(RuleAlerts(rule, db, today), old(alertas))
    {
      match rule
      case Estructura =>
        ValidarEstructuraBd(db);
        raised := None;
      case Duplicados =>
        raised := ValidarDuplicadosVentas(db);
        RuleAlertsIgnoreDate(rule, db, today);
      case Cantidades =>
        raised := ValidarCantidades(db);
        RuleAlertsIgnoreDate(rule, db, today);
      case ProductosValidos =>
        raised := ValidarProductosValidos(db);
        RuleAlertsIgnoreDate(rule, db, today);
      case Precios =>
        raised := ValidarPreciosProductos(db);
        RuleAlertsIgnoreDate(rule, db, today);
      case ClientesValidos =>
        raised := ValidarClientesValidos(db);
        RuleAlertsIgnoreDate(rule, db, today);
      case FechasFuturas =>
        raised := ValidarFechasFuturas(db, today);
      case StockNegativo =>
        raised := ValidarStockNegativo(db);
        RuleAlertsIgnoreDate(rule, db, today);
    }

    /** `ejecutar_validaciones`: the eight checks in `Order`, then the
        summary; a check that raises ends the run without a summary. */
    method EjecutarValidaciones(db: Db, today: string) returns (r: Result<Summary, TableName>)
      modifies this
      ensures alertas == old(alertas) + Battery(Order, db, today).0
      ensures Battery(Order, db, today).1.Some? ==> r == Failure(Battery(Order, db, today).1.value)
      ensures Battery(Order, db, today).1.None? ==> r == Success(Resumen(alertas))
    {
      ghost var start := alertas;
      BatteryBegins(start, db, today);
      for k := 0 to |Order|
        invariant Battered(start, alertas, Order[k..], db, today)
      {
        ghost var before := alertas;
        var raised := Validar(Order[k], db, today);
        BatteryAdvances(start, before, alertas, raised, k, db, today);
        if raised.Some? {
          return Failure(raised.value);
        }
      }
      BatteryEnds(start, alertas, db, today);
      var s := GenerarResumen();
      r := Success(s);
    }
  }
}
