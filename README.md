# Sales data pipeline: cleaning, loading and validation

This project models the core of a small sales-data pipeline in Dafny. The pipeline has two parts:

- `DataProcessor` (`scripts/procesamiento.py`) reads four CSV tables: products, customers, sales and inventory snapshots. It cleans them and joins each sale with its customer's city. It then recreates a four-table SQLite schema and appends the cleaned rows.
- `DataValidator` (`scripts/validacion.py`) runs a fixed battery of eight checks over that database. It collects `(level, message, detail)` alerts and summarises them as a count per level and a pass/attention verdict.

The model is organised as follows:

- `common.dfy` (`Common`) holds `Option` and `Result`.
- `text.dfy` (`Text`) covers Python's `str.strip`, the `(\d+)` id extraction followed by `astype(int)`, decimal rendering, whitespace splitting and ASCII lower-casing.
- `dates.dfy` (`Dates`) covers `parse_date`: the `YYYY-MM-DD` and `YYYYMMDD` shapes and `strptime("%d - %B - %Y")` with its calendar check. It also shows that text comparison of canonical dates is calendar order.
- `seqs.dfy` (`Seqs`) covers boolean-mask filtering, `drop_duplicates` keeping the first row, `COUNT`, `DISTINCT` and `LIMIT`.
- `cleaning.dfy` (`Cleaning`) covers the raw and cleaned row types, the four `clean_*` functions and `enrich_ventas`.
- `store.dfy` (`Store`) models the database as a value with its declared constraints: NOT NULL, CHECK, PRIMARY KEY, and the AUTOINCREMENT counter of `inventario`. It also covers `to_sql` appends and the `DataProcessor` class with `create_schema`, `load_to_database` and `process_all`.
- `validation.dfy` (`Validation`) covers the eight checks as functions of the database and the battery in its fixed order. It also has the `DataValidator` class, whose methods append to `alertas`, and `generar_resumen`.

Some behaviour of the code worth knowing:

- A non-numeric id aborts the whole run, because `astype(int)` raises.
- Each table is committed on its own, so a constraint violation leaves the earlier tables loaded.
- The customers' `dropna` on the id removes nothing.
- `inventario.producto_id` is a TEXT column, so it holds the decimal rendering of the extracted number.
- Foreign keys are declared but not enforced.
- The validator's checks raise when a table they query is missing; only the structure check tolerates that.

## Model

| member | source | states |
|---|---|---|
| Text.Strip | scripts/procesamiento.py:32-33 | the result is `s` without its leading and trailing whitespace runs; it starts and ends with non-space |
| Text.StripField | scripts/procesamiento.py:32-33 | `.str.strip()` keeps a null as null and strips a present value |
| Text.ExtractId | scripts/procesamiento.py:29 | `str.extract(r"(\d+)")` then `astype(int)`: no number exactly when the value is null or contains no digit |
| Text.ExtractDecimal | scripts/procesamiento.py:29 | extracting the id from the decimal rendering of `n` gives back `n` (round trip) |
| Text.ExtractIdOfSplit | scripts/procesamiento.py:29 | a value made of a digit-free prefix, a digit run and a digit-free suffix extracts to that run's value |
| Text.Decimal | scripts/procesamiento.py:177 | `str(n)`: non-empty digits whose value is `n`, with no leading `0` unless it is the single digit `0` |
| Dates.ParseDate | scripts/procesamiento.py:95-118 | null stays null; every result has the `YYYY-MM-DD` digit shape; a result exists only when the stripped value has the `YYYY-MM-DD` shape, the `YYYYMMDD` shape, or contains `" - "` and has the day, `-`, month, `-`, year words that `strptime` accepts, so any other value becomes null |
| Dates.ParseDateKeepsIsoShape | scripts/procesamiento.py:103-104 | a stripped value already in `YYYY-MM-DD` shape is returned unchanged |
| Dates.ParseDateNoCalendarCheck | scripts/procesamiento.py:103-104 | `" 2023-13-45\n"` is returned as `"2023-13-45"`: the first branch does no calendar check |
| Dates.ParseDateCompact | scripts/procesamiento.py:107-108 | an 8-digit value is re-sliced into `YYYY-MM-DD` with the same year, month and day digits |
| Dates.ParseDateDayMonthYear | scripts/procesamiento.py:111-115 | `"D - Month - YYYY"` gives the canonical date when it is a calendar date and null otherwise |
| Dates.ParseDayMonthYear | scripts/procesamiento.py:113 | a result exists exactly when the stripped value is the five words day, `-`, month, `-`, four-digit year (whitespace runs between them) and those form a calendar date; the result is that date in canonical shape |
| Dates.ParseDateExample | scripts/procesamiento.py:113 | `"05 - November - 2023"` becomes `"2023-11-05"` |
| Dates.ParseDateRejectsImpossibleDay | scripts/procesamiento.py:112-117 | `"31 - February - 2023"` becomes null instead of raising |
| Dates.ParseDateUnrecognised | scripts/procesamiento.py:117-118 | `"11/05/2023"`, which is in none of the three forms, becomes null |
| Dates.ParseDateIdempotent | scripts/procesamiento.py:95-118 | parsing an already parsed date returns it unchanged |
| Dates.LexLessIsChronological | scripts/validacion.py:159 | on `YYYY-MM-DD` strings, SQLite's text `>` holds exactly when the date is later in the calendar |
| Seqs.Filter | scripts/procesamiento.py:36 | the mask keeps exactly the rows that satisfy the predicate, in their order |
| Seqs.FilterFilter | scripts/procesamiento.py:71-75 | two masks in a row keep the rows that pass both |
| Seqs.Count | scripts/validacion.py:61 | `COUNT(*) WHERE p` is at most the row count and is positive exactly when some row satisfies `p` |
| Seqs.DropDuplicates | scripts/procesamiento.py:39 | `drop_duplicates(subset=[key])`: a subsequence with unique keys, the same key set, each kept row the first of its key, and the kept rows in the order in which their keys first occur |
| Seqs.DropDuplicatesIdempotent | scripts/procesamiento.py:39 | de-duplicating twice is de-duplicating once |
| Seqs.Distinct | scripts/validacion.py:94-99 | `SELECT DISTINCT`: pairwise different values, exactly those of the input |
| Seqs.Take | scripts/validacion.py:139 | `LIMIT n`: a prefix of exactly `n` rows, or the whole input when it has at most `n` |
| Cleaning.NormalizeProductos | scripts/procesamiento.py:28-33 | row by row: extracted id, stripped name and category, price unchanged |
| Cleaning.CleanProductos | scripts/procesamiento.py:24-41 | fails exactly when some id has no digits; otherwise keeps priced rows (a missing price fails `>= 0`), unique ids, every priced id, each the first priced row of its id, in the order in which the ids first occur among the priced rows |
| Cleaning.CleanClientes | scripts/procesamiento.py:43-57 | fails exactly when some id has no digits; otherwise the first row of each id, name and city stripped, in the order in which the ids first occur |
| Cleaning.CleanVentas | scripts/procesamiento.py:59-77 | fails exactly when one of the three ids has no digits; otherwise the rows with a present non-negative quantity and a date that parses, in order, each date in canonical shape |
| Cleaning.CleanVentasKeeps | scripts/procesamiento.py:70-75 | a normalised sale survives exactly when its quantity is present and non-negative and its date parsed |
| Cleaning.CleanInventario | scripts/procesamiento.py:79-93 | fails exactly when some product id has no digits; otherwise the snapshots with a present non-negative stock and a parsed date, in order |
| Cleaning.CleanInventarioKeeps | scripts/procesamiento.py:89-91 | a normalised snapshot survives exactly when its stock is present and non-negative and its date parsed |
| Cleaning.EnrichVentas | scripts/procesamiento.py:120-136 | the left join loses no sale and invents none |
| Cleaning.EnrichKeepsSales | scripts/procesamiento.py:125-130 | with unique customer ids the join keeps count and order, and sale `i` gets its customer's city or the sentinel |
| Cleaning.EnrichSentinel | scripts/procesamiento.py:130-132 | the city is `"ciudad_desconocida"` exactly when the customer is missing, has no city, or has that text as city |
| Store.TableNames | scripts/validacion.py:191-196 | a table's name is listed exactly when the table exists |
| Store.ToProductoRow | scripts/procesamiento.py:149-154 | a product row is accepted exactly when name, category and price are present and the price is non-negative; the stored row carries those values |
| Store.ToClienteRow | scripts/procesamiento.py:156-161 | a customer row is accepted exactly when name and city are present; age may be null |
| Store.ToVentaRow | scripts/procesamiento.py:163-173 | a sale row is accepted exactly when date and quantity are present and the quantity is non-negative |
| Store.ToInventarioRow | scripts/procesamiento.py:175-181 | a snapshot is accepted exactly when date and stock are present and the stock is non-negative; the product id is stored as decimal text |
| Store.InsertKeyedSpec | scripts/procesamiento.py:202-204 | an append into a keyed table succeeds exactly when every row passes its column constraints and the keys stay unique; the table is then the old rows followed by the new |
| Store.InsertInventarioSpec | scripts/procesamiento.py:205 | appending kept snapshots always succeeds and numbers them from the counter onward |
| Store.LoadProductosSpec | scripts/procesamiento.py:202 | `to_sql("productos")` succeeds exactly when all rows convert and the ids stay unique; the declared constraints still hold afterwards |
| Store.LoadClientesSpec | scripts/procesamiento.py:203 | the same for `clientes` |
| Store.LoadVentasSpec | scripts/procesamiento.py:204 | the same for `ventas` |
| Store.LoadInventarioSpec | scripts/procesamiento.py:205 | loading kept snapshots succeeds, appends them with fresh ids above the counter, and advances the counter by their number |
| Store.LoadPreservesWellFormed | scripts/procesamiento.py:196-207 | whatever stops the appends, the tables still exist and every declared constraint holds |
| Store.Prepare | scripts/procesamiento.py:226-235 | the cleaned tables have unique product and customer ids, valid prices, and only sales and snapshots the filters keep |
| Store.CleanFailureKeepsDatabase | scripts/procesamiento.py:226-232 | when cleaning raises, the database is untouched and the error is reported |
| Store.PipelineWellFormed | scripts/procesamiento.py:238-241 | after cleaning succeeds, the rebuilt database has all four tables and satisfies every declared constraint |
| Store.ProductosLoadUnlessNull | scripts/procesamiento.py:150-153 | cleaned products load into the fresh schema exactly when none lacks a name or a category |
| Store.ClientesLoadUnlessNull | scripts/procesamiento.py:157-160 | cleaned customers load into an empty table exactly when none lacks a name or a city |
| Store.VentasLoadIffUniqueIds | scripts/procesamiento.py:164-172 | kept sales load into an empty table exactly when their sale ids are unique; foreign keys are not checked |
| Store.InventarioIdRoundTrip | scripts/procesamiento.py:177 | the TEXT product id stored for a snapshot extracts back to the snapshot's numeric id |
| Store.DataProcessor.CreateSchema | scripts/procesamiento.py:138-194 | the database becomes the four empty tables with the counter reset |
| Store.DataProcessor.LoadToDatabase | scripts/procesamiento.py:196-207 | the four appends in order; the first error stops the rest and is returned; the tables remain |
| Store.DataProcessor.ProcessAll | scripts/procesamiento.py:209-247 | clean, enrich, recreate the schema, load; on success or a load error the database is well formed |
| Validation.EstructuraAlerts | scripts/validacion.py:187-203 | one alert: the structure INFO exactly when all four tables exist, otherwise CRITICAL naming exactly the missing ones |
| Validation.DuplicadosAlerts | scripts/validacion.py:38-56 | the no-duplicates INFO exactly when sale ids are unique, otherwise ERROR with the number and the set of duplicated ids |
| Validation.CantidadesAlerts | scripts/validacion.py:58-79 | ERROR exactly when some quantity is negative, carrying the number of negative rows; WARNING exactly when some is zero, carrying the number of zero rows; the ERROR comes before the WARNING; INFO, alone, exactly when all are positive |
| Validation.ProductosValidosAlerts | scripts/validacion.py:81-107 | the products-valid INFO exactly when every sale's product exists, otherwise ERROR with the orphan count and each orphan product id once |
| Validation.PreciosAlerts | scripts/validacion.py:109-120 | INFO exactly when no price is negative; otherwise one ERROR carrying the number of products with a negative price |
| Validation.ClientesValidosAlerts | scripts/validacion.py:122-149 | the customers-valid INFO exactly when every sale's customer exists, otherwise ERROR with the orphan count and distinct orphan customer ids: all of them when there are at most ten, exactly ten of them otherwise |
| Validation.FechasAlerts | scripts/validacion.py:151-172 | the no-future-dates INFO exactly when no sale date compares greater than today as text, otherwise WARNING with the count |
| Validation.StockAlerts | scripts/validacion.py:174-185 | INFO exactly when no stock is negative; otherwise one ERROR carrying the number of snapshots with a negative stock |
| Validation.FechasFuturasChronological | scripts/validacion.py:153-162 | for canonical dates, the future-date check flags exactly the sales dated after today |
| Validation.ConstraintsMakeChecksPass | scripts/validacion.py:38-120 | on a database that satisfies its declared constraints, the duplicate, price and stock checks pass and the quantity check raises no ERROR |
| Validation.RuleAlerts | scripts/validacion.py:38-185 | a check raises exactly when a table it queries is missing, and then names a missing table |
| Validation.BatteryRaisesOnlyOnMissingTable | scripts/validacion.py:223-234 | a run that raised was stopped by a missing table |
| Validation.ValidationWithAllTables | scripts/validacion.py:223-234 | with all tables present the run does not raise, appends eight or nine alerts, and the first is the structure INFO |
| Validation.ValidationWithMissingTable | scripts/validacion.py:223-234 | with a table missing the structure CRITICAL comes first and a later check raises on a missing table |
| Validation.Resumen | scripts/validacion.py:205-221 | the verdict is APROBADO exactly when no alert is ERROR or CRITICAL |
| Validation.ConteoSumsToTotal | scripts/validacion.py:207-213 | the four per-level counts add up to the number of alerts |
| Validation.ConteoSnoc | scripts/validacion.py:209-210 | counting one more alert adds one to its level's entry only |
| Validation.DataValidator.LogAlerta | scripts/validacion.py:22-36 | appends exactly the one `(level, message, detail)` tuple |
| Validation.DataValidator.constructor | scripts/validacion.py:18-20 | a new validator starts with no alerts |
| Validation.DataValidator.ValidarEstructuraBd | scripts/validacion.py:187-203 | appends the structure check's one alert and never raises |
| Validation.DataValidator.ValidarDuplicadosVentas | scripts/validacion.py:38-56 | appends the duplicate check's alert, or raises without appending when `ventas` is missing |
| Validation.DataValidator.ValidarCantidades | scripts/validacion.py:58-79 | appends the quantity check's alerts, or raises without appending when `ventas` is missing |
| Validation.DataValidator.ValidarProductosValidos | scripts/validacion.py:81-107 | appends the product check's alert, or raises when `ventas` or `productos` is missing |
| Validation.DataValidator.ValidarPreciosProductos | scripts/validacion.py:109-120 | appends the price check's alert, or raises when `productos` is missing |
| Validation.DataValidator.ValidarClientesValidos | scripts/validacion.py:122-149 | appends the customer check's alert, or raises when `ventas` or `clientes` is missing |
| Validation.DataValidator.ValidarFechasFuturas | scripts/validacion.py:151-172 | appends the future-date check's alert for the given today, or raises when `ventas` is missing |
| Validation.DataValidator.ValidarStockNegativo | scripts/validacion.py:174-185 | appends the stock check's alert, or raises when `inventario` is missing |
| Validation.DataValidator.GenerarResumen | scripts/validacion.py:205-221 | the loop over the alerts yields the per-level counts and verdict of `Resumen`, and the counts sum to the total |
| Validation.DataValidator.EjecutarValidaciones | scripts/validacion.py:223-237 | appends exactly the battery's alerts in its fixed order; when a check raises, returns its missing table and no summary, otherwise the summary |

## Left out

- File and database I/O are left out. Reading the CSV files becomes the `RawInput` parameter, and the SQLite file becomes the `Db` value held by each class.
- Logging, the message wording, emoji and timestamps are left out. Messages are constructors carrying their figures.
- Python's `datetime.now()` is left out. It becomes the `today` parameter in canonical form.
- Foreign keys and indices are left out. SQLite does not enforce the foreign keys by default, and the indices do not change any result.
- Unicode whitespace and digits are left out. `strip`, `\s` and `\d` are modelled on ASCII whitespace and the digits `0`–`9`.
- Month names in other locales, and `strftime` years below 1000, are left out. Month names are the English ones, matched ASCII case-insensitively, and the year is always written with four digits.
- An id column that pandas reads as integers is left out. `.str` raises on such a column. The model takes every id cell as text or null.
- Column types that pandas infers for the non-id columns are left out. Every non-id column is taken as already typed: names, categories and cities as text or null, prices as reals, quantities and stocks as integers, dates as text. So the model does not capture these cases: `.str.strip()` raising on a name, category or city column that is entirely blank or numeric; `>= 0` raising on a text cell in a price, quantity or stock column; a fractional quantity stored as REAL; and a date column read as floats, whose `"20231105.0"` `parse_date` rejects.
- Overflow of 64-bit integers is left out. Extracted ids and quantities are unbounded.
- Extra CSV columns are left out. A sale row carries only its declared columns and the joined `ciudad`.
- Store.DataProcessor.LoadToDatabase: requires the four tables to exist. `to_sql` would create a missing table without the declared constraints, and that path is not modelled.
- `clean_*` overwrite the caller's DataFrame columns in place. The model returns new sequences instead.
- SQL result order is left out. SQLite does not fix the order of `GROUP BY` ids, of `DISTINCT` ids, or which ten ids `LIMIT 10` returns. The model reports duplicated ids as a set, and takes distinct ids in first-occurrence order, with the first ten of those.
- Validation.DataValidator.EjecutarValidaciones: runs the eight `validar_*` calls as a loop over the fixed `Order`, through a dispatching `Validar` method, rather than as eight separate statements. The calls and their order are the same.
- The scripts outside the two classes (`api.py`, `aws_upload.py`, `explorar_datos.py`, `validar_y_enviar.py`) are not part of this model.
