# Turnero oftalmológico — a Dafny model of the turno lifecycle

TurneroOftalmologico is a small Flask application that runs the patient
queue of an eye clinic. Reception creates *turnos* (patient tickets numbered
`A001`, `A002`, … each day), cancels and edits them; a doctor logs in, calls
the next waiting patient and finishes the consultation by sending the
patient to another station (pharmacy, optical advice, special studies or the
exit). Every change of state is written to a history table, daily and
monthly statistics are computed from the turnos table, `init_db` creates
the schema and seeds stations and rooms, and two maintenance scripts reset
rooms and doctors.

The model keeps the application's SQLite tables as sequences of records in
one `Database` class (`tablas.dfy`), each with the next id its
`AUTOINCREMENT` key will hand out and the schema as a map from table name
to columns. Every handler that changes the database is a method on that
class whose postcondition gives the new tables as a function of the old
ones; each SQL `UPDATE`/`DELETE` is a function from rows to rows with the
properties proved about it. The `SELECT`s are functions over the sequences.
Request fields are `Option`s (`None` is a key missing from the JSON body)
and the current time is a parameter.

| file | module | models |
|---|---|---|
| `wrappers.dfy` | `Wrappers` | `Option` and `Result` |
| `decimal.dfy` | `Decimal` | Python `int()` on decimal text and the `'0Nd'` format |
| `tablas.dfy` | `Tablas` | records, column defaults, the `Database` class and its invariant |
| `numeracion.dfy` | `Numeracion` | the daily ticket number of `crear_turno` |
| `consultas.dfy` | `Consultas` | the listing queries of `app.py` and the queue order |
| `app.dfy` | `App` | creation, cancellation, editing, call-next, finish, doctor flags and deletion |
| `estadisticas.dfy` | `Estadisticas` | history rows and the day and month statistics |
| `esquema.dfy` | `Esquema` | `init_db`: schema statements, migrations, seeding, rollback |
| `limpieza.dfy` | `Limpieza` | `limpiar_todo` |
| `fix.dfy` | `Fix` | `fix_doctors` |

The model follows what the code does, including where it behaves
differently from what one would expect of it:

- An unparseable stored number does not restart the day's count at 1:
  `int()` raises, so `crear_turno` fails and inserts nothing
  (`Numeracion.SiguienteNumero`, `App.Alta`).
- Numbering has no per-prefix counters: the prefix is always `A`, and the
  counter is the suffix of the day's turno with the highest id plus one.
- A failed `init_db` does not undo everything. Python's `sqlite3` opens a
  transaction only before an `INSERT`, so each `CREATE TABLE` and `ALTER
  TABLE` commits as it runs and the rollback undoes only the seeding
  (`Esquema.InitDb`).
- Re-running `init_db` is not idempotent. The schema statements are, but
  the station seeding is not: `estaciones.nombre` has no `UNIQUE`
  constraint, so every run appends the eight stations again
  (`Esquema.EstacionesDuplicadas`). The rooms are not duplicated, but each
  skipped `INSERT OR IGNORE` still uses up an `AUTOINCREMENT` id, so after n
  runs the next room would get id 5n + 1 (`Esquema.CincoConsultorios`).
- A `turnos` table left by an older version of the schema may lack columns
  the handlers name; `CREATE TABLE IF NOT EXISTS` does not add them. The
  handler's statement then raises and nothing is written
  (`App.CancelarTurno` and the other `turnos` handlers).

## Model

| member | source | states |
|---|---|---|
| `Decimal.ParseInt` | Documents/TurneroOftalmologico/app.py:73 | `int()` refuses empty text, a non-digit after the sign position and a bad first character |
| `Decimal.IntPadRoundTrip` | Documents/TurneroOftalmologico/app.py:73-74 | `int()` of the `'0Nd'` text of any integer, of any sign and width, gives the integer back |
| `Decimal.ZeroPadWidth` | Documents/TurneroOftalmologico/app.py:74 | the pad is a minimum width: exactly `width` digits below 10^width, the plain digits (longer) above |
| `Decimal.ZeroPadInjective` | Documents/TurneroOftalmologico/app.py:74 | distinct counters give distinct padded texts |
| `Decimal.NatTextLength` | Documents/TurneroOftalmologico/app.py:74 | the decimal text of n has at most k digits iff n < 10^k |
| `Numeracion.SiguienteNumero` | Documents/TurneroOftalmologico/app.py:71-77 | no turno today gives `A001`; otherwise the result exists iff the previous suffix parses, and is then `A` followed by the 3-digit pad of the previous value plus one (whose suffix parses back to that value); an unparseable suffix is the error naming it; results start with `A` and have at least 4 characters |
| `Numeracion.UltimoDeHoy` | Documents/TurneroOftalmologico/app.py:66-69 | `ORDER BY id DESC LIMIT 1` over today's rows: none iff no row was created today, otherwise a row of today with the greatest id |
| `Numeracion.PrimeroDelDia` | Documents/TurneroOftalmologico/app.py:71-77 | with no turno created today the number is `A001` |
| `Numeracion.NumeroSucesivo` | Documents/TurneroOftalmologico/app.py:73-74 | after `A` + pad(k) comes `A` + pad(k+1) |
| `Numeracion.UltimoTrasAlta` | Documents/TurneroOftalmologico/app.py:66-69 | a row inserted today with a fresh (largest) id becomes the day's last turno |
| `Numeracion.SiguienteTrasAlta` | Documents/TurneroOftalmologico/app.py:65-77 | after inserting today's `A` + pad(k), the next creation numbers `A` + pad(k+1): A001, A002, A003, … |
| `Numeracion.AnchoMinimo` | Documents/TurneroOftalmologico/app.py:74 | counters below 1000 give 4-character numbers; from 1000 on the number is `A` and the plain digits (`A1000`) |
| `Numeracion.PadLength` | Documents/TurneroOftalmologico/app.py:74 | the padded counter has at least 3 characters |
| `Tablas.NuevoDoctor` | Documents/TurneroOftalmologico/database.py:15-23 | a new doctor is inactive, available and `AUSENTE` |
| `Tablas.NuevoConsultorio` | Documents/TurneroOftalmologico/database.py:28-36 | a new room is free, with no doctor and no occupation time |
| `Tablas.NuevoTurno` | Documents/TurneroOftalmologico/database.py:51-72 | a new turno is `PENDIENTE`, priority 1, type `CITA` unless given, created now, with every other optional column NULL |
| `Tablas.NuevoHistorial` | Documents/TurneroOftalmologico/database.py:95-105 | a history row's user defaults to `sistema` and its time is now |
| `Tablas.ColumnaFaltante` | Documents/TurneroOftalmologico/app.py:115-119 | a statement naming a column its table lacks is refused: the result names a column that is named but missing, and is none iff every named column exists |
| `Consultas.Ordenar` | Documents/TurneroOftalmologico/app.py:31 | `ORDER BY timestamp_creacion`: the result is sorted (either direction) and a permutation of the input |
| `Consultas.OrdenarMismasFilas` | Documents/TurneroOftalmologico/app.py:31 | sorting keeps exactly the same rows |
| `Consultas.FiltrarEnCurso` | Documents/TurneroOftalmologico/app.py:30 | a row is kept iff it is neither `FINALIZADO` nor `CANCELADO`, as often as it occurs |
| `Consultas.FiltrarPendientes` | Documents/TurneroOftalmologico/app.py:260 | a row is kept iff it is `PENDIENTE` and assigned to the doctor (a NULL doctor matches nothing), as often as it occurs |
| `Consultas.NombreEstacion` | Documents/TurneroOftalmologico/app.py:28 | the `LEFT JOIN` gives NULL iff no station has the id, otherwise the name of a station with that id |
| `Consultas.NombreDoctor` | Documents/TurneroOftalmologico/app.py:29 | the `LEFT JOIN` gives NULL iff the id is NULL or unknown, otherwise that doctor's name |
| `Consultas.Vistas` | Documents/TurneroOftalmologico/app.py:24-29 | each output row is the turno with its joined station and doctor names, in the same order |
| `Consultas.TurnosEnCurso` | Documents/TurneroOftalmologico/app.py:23-32 | `get_turnos` lists exactly the turnos still in progress, each as often as in the table, newest first, each with the names of its station and its doctor (NULL when no row matches) |
| `Consultas.TurnosDoctor` | Documents/TurneroOftalmologico/app.py:256-262 | `get_turnos_doctor` lists exactly the doctor's pending turnos, each as often as in the table, oldest first, with the name of the station and no doctor name |
| `Consultas.SiguientePaciente` | Documents/TurneroOftalmologico/app.py:276-284 | none iff the doctor has no pending turno; otherwise a pending turno of that doctor created no later than any other |
| `Consultas.SiguienteEsCabeza` | Documents/TurneroOftalmologico/app.py:256-284 | the patient called next is the head of the doctor's list |
| `Consultas.EstacionesDisponibles` | Documents/TurneroOftalmologico/app.py:51 | exactly the stations other than 1 (reception) and 8 (exit) |
| `Consultas.DoctoresActivos` | Documents/TurneroOftalmologico/app.py:44 | exactly the doctors whose `activo` flag is set |
| `App.Alta` | Documents/TurneroOftalmologico/app.py:65-86 | a turnos column missing for the number query comes first, then a number error, then a missing name, age or type, then a column missing for the INSERT; the row exists iff none occurs, and has the day's number, the body's fields, station 1 by default and a doctor only at station 4 |
| `App.ColumnasEnBaseNueva` | Documents/TurneroOftalmologico/database.py:51-72 | on a database whose turnos table `init_db` created, every turnos column the handlers' statements name exists, so none of them fails for a missing column |
| `App.CrearTurno` | Documents/TurneroOftalmologico/app.py:56-102 | on success appends exactly the new row and answers its number and id; on error, including a turnos column the statements name but the table lacks, changes nothing; the `CREADO` history row, with the next history id, is written only through a connection that can execute, and through the one estadisticas.py obtains as written the history is unchanged |
| `App.Cancelar` | Documents/TurneroOftalmologico/app.py:115-119 | the row with the id becomes `CANCELADO` with time and reason, whatever its state; every other row is unchanged |
| `App.CancelarTurno` | Documents/TurneroOftalmologico/app.py:110-126 | fails, changing nothing and recording nothing, iff the turnos table lacks a column the `UPDATE` names (`timestamp_cancelado`, `razon_cancelacion`, …); otherwise cancels with reason `No especificada` by default and records `CANCELADO` by `recepcion` under the next history id through a working connection, and nothing through the as-written one |
| `App.CancelarIdempotente` | Documents/TurneroOftalmologico/app.py:115-119 | cancelling twice equals cancelling once |
| `App.Editar` | Documents/TurneroOftalmologico/app.py:133-137 | only the row with the id changes, and only in the five edited columns |
| `App.EditarTurno` | Documents/TurneroOftalmologico/app.py:129-141 | succeeds iff name, age, type and station are present and the turnos table has the five edited columns; a missing field is reported before a missing column; a missing doctor stores NULL; on error nothing changes |
| `App.AgregarDoctor` | Documents/TurneroOftalmologico/app.py:181-190 | succeeds iff name and specialty are present and then appends one doctor with the table's defaults |
| `App.ContarTurnosActivos` | Documents/TurneroOftalmologico/app.py:197-200 | the count is 0 iff no turno of the doctor is `PENDIENTE` or `EN_ATENCION` |
| `App.DecisionComoEscrita` | Documents/TurneroOftalmologico/app.py:203 | the guard as written never allows the delete |
| `App.DecisionEliminar` | Documents/TurneroOftalmologico/app.py:203-207 | the intended guard deletes iff the count is 0 and otherwise reports the count |
| `App.GuardiaComoEscritaNuncaBorra` | Documents/TurneroOftalmologico/app.py:197-210 | a doctor with no active turnos is deleted by the intended guard and never by the written one |
| `App.Quitar` | Documents/TurneroOftalmologico/app.py:210 | after `DELETE … WHERE id = ?` the rows are exactly the old rows with another id |
| `App.QuitarConservaOrden` | Documents/TurneroOftalmologico/app.py:210 | deleting keeps the remaining rows in id order |
| `App.EliminarDoctor` | Documents/TurneroOftalmologico/app.py:194-214 | deletes iff the doctor has no `PENDIENTE`/`EN_ATENCION` turno; a refusal reports the count and changes nothing |
| `App.FijarActivo` | Documents/TurneroOftalmologico/app.py:228 | only the doctor with the id changes, and only its `activo` flag |
| `App.DoctorLogin` | Documents/TurneroOftalmologico/app.py:222-244 | a missing id changes nothing; otherwise sets `activo` and answers the name, and an unknown doctor is an error with nothing changed |
| `App.NombreTrasFijar` | Documents/TurneroOftalmologico/app.py:228-231 | setting the flag changes no name, and changes nothing for an unknown id |
| `App.ActivoPara` | Documents/TurneroOftalmologico/app.py:314 | `activo` is set iff the state is `DISPONIBLE` or `EN_CONSULTA` |
| `App.CambiarEstadoDoctor` | Documents/TurneroOftalmologico/app.py:306-325 | only the `activo` flag of that doctor changes, to the mapped value |
| `App.Atender` | Documents/TurneroOftalmologico/app.py:290-294 | only the called row changes: `EN_ATENCION` with attention time, station kept |
| `App.LlamarSiguiente` | Documents/TurneroOftalmologico/app.py:269-303 | a turnos column missing for the queue query is an error with nothing changed; with no pending turno answers the error and changes nothing, even when the `UPDATE`'s columns are missing; otherwise, if `timestamp_atencion` and the other updated columns exist, moves the doctor's earliest pending turno to attention and answers it as it was read, and else fails with nothing changed |
| `App.LlamadasEnOrden` | Documents/TurneroOftalmologico/app.py:276-294 | the called turno leaves the waiting list and the next call picks a turno created no earlier (FIFO) |
| `App.EstacionDestino` | Documents/TurneroOftalmologico/app.py:339-346 | FARMACIA 5, ASESORIA_VISUAL 6, ESTUDIOS_ESPECIALES 7, anything else or nothing 8 |
| `App.MinutosTruncados` | Documents/TurneroOftalmologico/app.py:353 | `CAST(… AS INTEGER)` truncates toward zero, for either sign |
| `App.Finalizar` | Documents/TurneroOftalmologico/app.py:349-355 | the row becomes `FINALIZADO` at the mapped station with minutes since attention (NULL if never attended); other rows and columns unchanged |
| `App.FinalizarConsulta` | Documents/TurneroOftalmologico/app.py:329-364 | fails, changing and recording nothing, iff the turnos table lacks a column the `UPDATE` names (`tiempo_total`, `timestamp_atencion`, …); otherwise finishes the turno and never adds a turno whatever `vuelve_conmigo` says, and records `FINALIZADO` under the next history id only through a working connection and with an id |
| `Estadisticas.RegistrarHistorial` | Documents/TurneroOftalmologico/estadisticas.py:32-45 | appends exactly one row and answers True iff the insert can run; otherwise answers False and changes nothing |
| `Estadisticas.VerificarColumnaExiste` | Documents/TurneroOftalmologico/estadisticas.py:47-56 | membership in the list `PRAGMA table_info` gives, which is empty for a missing table: True iff the table exists and has the column and the connection can execute |
| `Esquema.HechoPersiste` | Documents/TurneroOftalmologico/database.py:15-127 | what the first k schema statements did is still there after any later ones |
| `Esquema.ColumnasTurnosNuevas` | Documents/TurneroOftalmologico/database.py:51-72 | on a database without a turnos table the schema statements leave it with every column of its `CREATE TABLE` |
| `Esquema.ColumnasVerificadas` | Documents/TurneroOftalmologico/estadisticas.py:47-56 | after init_db's schema statements the check finds both added `turnos` columns from any starting schema, and `razon_cancelacion` on a new database; through the as-written connection it is False for every table and column |
| `Estadisticas.FiltrarDia` | Documents/TurneroOftalmologico/estadisticas.py:74 | keeps exactly the turnos created on that date, each as often as it occurs in the table |
| `Estadisticas.TresPartes` | Documents/TurneroOftalmologico/estadisticas.py:69-72 | cancelled + finished + active = all rows |
| `Estadisticas.RazonesCanceladas` | Documents/TurneroOftalmologico/estadisticas.py:80-85 | one reason per cancelled row |
| `Estadisticas.Agrupar` | Documents/TurneroOftalmologico/estadisticas.py:80-86 | `GROUP BY razon_cancelacion`: distinct reasons, each count equal to the reason's occurrences, counts summing to the input length |
| `Estadisticas.GrupoSiiPositivo` | Documents/TurneroOftalmologico/estadisticas.py:84 | a reason has a positive count iff it has an entry |
| `Estadisticas.UnaEntradaPorRazon` | Documents/TurneroOftalmologico/estadisticas.py:84-86 | a reason has an entry iff some cancelled row has it |
| `Estadisticas.Tasa` | Documents/TurneroOftalmologico/estadisticas.py:99 | the rate is 0 when the total is 0 and between 0 and 100 otherwise |
| `Estadisticas.ResumenDia` | Documents/TurneroOftalmologico/estadisticas.py:90-101 | the three counts sum to the total; when reasons are read, the count for each reason is how often it occurs among the day's cancelled rows, and the counts sum to the cancelled count |
| `Estadisticas.ObtenerEstadisticasDia` | Documents/TurneroOftalmologico/estadisticas.py:58-112 | in both branches the counts partition the total, the rate is 0 on an empty day and the reason entries sum to the cancellations; with a working connection total, cancelled, finished and active are the counts of that day's rows, and when `razon_cancelacion` exists each reason's count is how often it occurs among that day's cancelled rows; the fallback is all zeros |
| `Estadisticas.FiltrarDiaAlta` | Documents/TurneroOftalmologico/estadisticas.py:74 | a new turno joins the day's rows iff it was created that day |
| `Estadisticas.ContarAlta` | Documents/TurneroOftalmologico/estadisticas.py:70-71 | a new row adds one to the count of its own state only |
| `Estadisticas.SoloCuentaElDia` | Documents/TurneroOftalmologico/estadisticas.py:74 | a turno of another day changes nothing; one of that day adds one to the total and to its state's count |
| `Estadisticas.EstadisticasComoEscritas` | Documents/TurneroOftalmologico/estadisticas.py:64 | as written the day's total is 0 even when the day has turnos |
| `Estadisticas.FiltrarMes` | Documents/TurneroOftalmologico/estadisticas.py:130 | keeps exactly the turnos whose creation month text equals the key |
| `Estadisticas.FiltrarMesMultiplicidad` | Documents/TurneroOftalmologico/estadisticas.py:130 | each turno of the month is kept as often as it occurs in the table, and no other |
| `Estadisticas.MesCoincide` | Documents/TurneroOftalmologico/estadisticas.py:130-131 | for 4-digit years the key `f'{año}-{mes:02d}'` matches a turno iff year and month agree |
| `Estadisticas.Fechas` | Documents/TurneroOftalmologico/estadisticas.py:136 | the set of dates listed in a trend |
| `Estadisticas.AgregarDia` | Documents/TurneroOftalmologico/estadisticas.py:141-142 | adding a row keeps one entry per date, in ascending order |
| `Estadisticas.AgregarDiaCuenta` | Documents/TurneroOftalmologico/estadisticas.py:137-138 | adding a row adds one turno and its cancellation to the trend and its date to the dates |
| `Estadisticas.Tendencia` | Documents/TurneroOftalmologico/estadisticas.py:134-143 | `GROUP BY … ORDER BY fecha`: one entry per date, strictly ascending |
| `Estadisticas.TendenciaPorDia` | Documents/TurneroOftalmologico/estadisticas.py:134-143 | each entry of the trend counts exactly the rows created on its date and, of those, the cancelled ones |
| `Estadisticas.AgregarDiaEn` | Documents/TurneroOftalmologico/estadisticas.py:134-143 | counting a row adds one to its own day's entry (and to its cancelled count when it is cancelled) and nothing to any other day |
| `Estadisticas.TendenciaEn` | Documents/TurneroOftalmologico/estadisticas.py:134-143 | for every date, the trend's entry counts the rows of that date and its cancelled rows (0 when there is no entry) |
| `Estadisticas.CuentaFechaMes` | Documents/TurneroOftalmologico/estadisticas.py:130-140 | filtering by the month key keeps every row of a day inside that month |
| `Estadisticas.TendenciaDelMes` | Documents/TurneroOftalmologico/estadisticas.py:134-143 | each entry of the month's trend counts every row of its day in the whole table, and its cancelled ones |
| `Estadisticas.TendenciaCuenta` | Documents/TurneroOftalmologico/estadisticas.py:134-143 | the per-day counts sum to the rows and the cancellations; the dates are exactly the rows' dates |
| `Estadisticas.ObtenerEstadisticasMensual` | Documents/TurneroOftalmologico/estadisticas.py:114-167 | the key is year-month in both branches; with a working connection total, cancelled and finished are the counts of the month's rows; the trend is ascending, lists every day of the month that has turnos and no other, each entry counting its day's rows and cancellations, and sums to the monthly totals; the fallback is all zeros |
| `Esquema.Aplicar` | Documents/TurneroOftalmologico/database.py:76-92 | a statement never drops a table; `CREATE IF NOT EXISTS` keeps an existing table and adding an existing column is treated as done |
| `Esquema.HechoSeMantiene` | Documents/TurneroOftalmologico/database.py:15-127 | a later statement never undoes an earlier one |
| `Esquema.Migrar` | Documents/TurneroOftalmologico/database.py:15-127 | running statements in order only adds tables |
| `Esquema.HechosHasta` | Documents/TurneroOftalmologico/database.py:15-127 | after the first n statements each of them has taken effect |
| `Esquema.MigrarCompleto` | Documents/TurneroOftalmologico/database.py:15-127 | from any schema, all six tables and both added columns exist afterwards |
| `Esquema.MigrarIdempotente` | Documents/TurneroOftalmologico/database.py:15-16 | re-running the schema statements changes nothing |
| `Esquema.Estaciones` | Documents/TurneroOftalmologico/database.py:130-152 | the seeded stations in order with consecutive ids |
| `Esquema.EstacionesIniciales` | Documents/TurneroOftalmologico/database.py:130-152 | on a new database the stations get ids 1..8, Recepción 1 … Salida 8 |
| `Esquema.EstacionesDuplicadas` | Documents/TurneroOftalmologico/database.py:44 | a second seeding appends the same eight names again under new ids |
| `Esquema.InsertarOIgnorar` | Documents/TurneroOftalmologico/database.py:155-158 | afterwards the number is present; the row is skipped if it was already there and appended under the next id otherwise; either way one `AUTOINCREMENT` id is used up |
| `Esquema.Sembrar` | Documents/TurneroOftalmologico/database.py:155-158 | every seeded number is present afterwards, the existing rows are kept in front, and the next id has moved on by one per number |
| `Esquema.SembrarPresentes` | Documents/TurneroOftalmologico/database.py:29-30 | seeding numbers that are all present inserts nothing but still uses up one id per number |
| `Esquema.Nuevos` | Documents/TurneroOftalmologico/database.py:141-147 | the new rooms for a list of numbers, with consecutive ids |
| `Esquema.SembrarNuevos` | Documents/TurneroOftalmologico/database.py:155-158 | distinct absent numbers are all inserted in order under consecutive ids |
| `Esquema.NumerosBaseDistintos` | Documents/TurneroOftalmologico/database.py:141-147 | the five seeded room numbers are pairwise distinct |
| `Esquema.PrimeraCorrida` | Documents/TurneroOftalmologico/database.py:141-158 | the first run on a new database inserts "Consultorio 1" to "Consultorio 5" under ids 1 to 5 |
| `Esquema.CincoConsultorios` | Documents/TurneroOftalmologico/database.py:141-158 | after n runs on a new database there are exactly the five rooms of the first run, ids 1 to 5, and the next room id is 5n + 1 |
| `Esquema.Migraciones` | Documents/TurneroOftalmologico/database.py:15-127 | the statements run in order and stop at the one that raises: as many run as come before the failing step, and the schema is the effect of exactly those |
| `Esquema.EjecutarDdl` | Documents/TurneroOftalmologico/database.py:15-127 | the statements before the failing one take effect and stay, no row changes, and when none fails every table the handlers use exists |
| `Esquema.SembrarEstaciones` | Documents/TurneroOftalmologico/database.py:149-152 | inserting the eight stations one by one appends exactly `Estaciones(sig)` after the existing rows, ids continuing from the next id, and keeps ids increasing |
| `Esquema.InsertarConservaInvariante` | Documents/TurneroOftalmologico/database.py:31 | one `INSERT OR IGNORE` keeps room ids increasing and `numero` unique |
| `Esquema.SembrarConsultorios` | Documents/TurneroOftalmologico/database.py:155-158 | inserting the five numbers one by one with OR IGNORE yields the rooms of `Sembrar`, keeping ids increasing and `numero` unique |
| `Esquema.SembrarTransaccion` | Documents/TurneroOftalmologico/database.py:149-169 | the seeding either commits both inserts or leaves both tables as they were |
| `Esquema.InitDb` | Documents/TurneroOftalmologico/database.py:10-172 | succeeds iff no step fails; the schema statements before a failure persist; on success every table exists and the seeding is applied, on failure no row changes |
| `Limpieza.Liberar` | Documents/TurneroOftalmologico/limpieza.py:11 | every room is free with no doctor and no time; ids and numbers unchanged |
| `Limpieza.LiberarIdempotente` | Documents/TurneroOftalmologico/limpieza.py:11 | freeing twice equals freeing once |
| `Limpieza.EstadoConsultorios` | Documents/TurneroOftalmologico/limpieza.py:21 | the (numero, ocupado) listing of the rooms |
| `Limpieza.EstadoDoctores` | Documents/TurneroOftalmologico/limpieza.py:22 | the (nombre, activo) listing of the doctors |
| `Limpieza.LimpiarTodo` | Documents/TurneroOftalmologico/limpieza.py:4-38 | with both tables present every room is free and every doctor absent, the counts equal the row counts and the listings show no occupied room and no active doctor; a missing table changes nothing |
| `Limpieza.LimpiarIdempotente` | Documents/TurneroOftalmologico/limpieza.py:11-18 | running the reset twice leaves the same tables as running it once |
| `Fix.Ausentes` | Documents/TurneroOftalmologico/fix.py:8 | every doctor is inactive and `AUSENTE`; id, name, specialty and availability unchanged, same number of rows |
| `Fix.AusentesIdempotente` | Documents/TurneroOftalmologico/fix.py:8 | marking absent twice equals once |
| `Fix.AusentesFijo` | Documents/TurneroOftalmologico/fix.py:8 | doctors already inactive and absent are left exactly as they were |
| `Fix.Listado` | Documents/TurneroOftalmologico/fix.py:11 | the (id, nombre, activo, estado_detallado) listing |
| `Fix.FixDoctors` | Documents/TurneroOftalmologico/fix.py:4-19 | only `doctores` changes; the listing read before the commit shows every doctor inactive and absent; a missing table changes nothing |

## Left out

- HTTP: routing, templates, `jsonify` and status codes. An `Err` result stands for the `success: False` or error response.
- Connection setup: the `get_db_connection` functions, the WAL pragma and timeouts. `db_utils.py` is not part of this model beyond the effect of using its context-manager factory without `with`.
- `verificar.py` (read-only printing) and `actualizar_db.py` (refers to names it never defines) are not part of this model.
- Console output: the maintenance scripts return their counts and listings instead of printing them.
- Wall-clock time: `datetime.now()` and `CURRENT_TIMESTAMP` are parameters (`hoy`, `ahora`). The local date used for numbering against UTC creation times is therefore not modelled.
- Calendar arithmetic: a timestamp is a date and a second count; `julianday` differences are taken as differences of seconds.
- Concurrency: two creations reading the same last number, and WAL interleaving.
- JSON values: a field is present or missing. A JSON `null`, or a value of another type, is not modelled.
- `int()` accepts only an optional sign and ASCII digits here; surrounding whitespace, underscores and other Unicode digits are not modelled.
- The columns `notas_adicionales` and `historial_notas` exist in the schema only; no handler in the core reads or writes them. Rows of `mediciones_calculos` are not modelled.
- `get_todos_doctores` (ordered by name) is not part of the core.
- Estadisticas.ObtenerEstadisticasDia: the rate is an exact real, not a Python float; the order of the `GROUP BY` entries is not stated.
- Estadisticas.MesCoincide: holds for years of four digits only; the text comparison differs for other years.
- App.CrearTurno: with the connection estadisticas.py obtains as written (a context-manager object, `Estadisticas.ConexionComoEscrita`) no history row is written. With a working connection the row is recorded as if that second connection could write; in SQLite it waits for the write lock the handler's own uncommitted insert holds. Requires every table `init_db` creates: before database.py has run, the first query raises "no such table" and the handler answers `success: False`; that state is not modelled.
- App.FinalizarConsulta: as App.CrearTurno, no history row through the as-written connection; with a working one the same lock applies, since the row is written while the handler's update is uncommitted. Requires every table `init_db` creates; the "no such table" error before database.py has run is not modelled.
- App.CancelarTurno: no history row through the as-written connection; with a working one the row is written after the handler's commit. Requires every table `init_db` creates; the "no such table" error before database.py has run is not modelled.
- App.EditarTurno: requires every table `init_db` creates; the "no such table" error before database.py has run is not modelled.
- App.AgregarDoctor: requires every table `init_db` creates; the "no such table" error before database.py has run is not modelled.
- App.DoctorLogin: requires every table `init_db` creates; the "no such table" error before database.py has run is not modelled.
- App.CambiarEstadoDoctor: requires every table `init_db` creates; the "no such table" error before database.py has run is not modelled.
- App.LlamarSiguiente: the answered row omits the joined `estacion_actual_nombre` column. Requires every table `init_db` creates; the "no such table" error before database.py has run is not modelled.
- App.EliminarDoctor: models the intended guard; the guard as written raises, see Findings. Requires every table `init_db` creates; the "no such table" error before database.py has run is not modelled.
- Missing columns: only the `turnos` table, the one whose schema has changed over versions, is checked for the columns a handler names (`Tablas.ColumnaFaltante`). The `doctores`, `estaciones` and `historial_turnos` tables are taken to have the columns of their `CREATE TABLE`. The listing and statistics queries over `turnos` (`Consultas`, `Estadisticas`) also assume the columns they filter and order by, apart from the `razon_cancelacion` check the statistics make themselves.
- Tablas.ColumnaFaltante: when several named columns are missing, the error names the first in the order the statement lists them; which one SQLite's message names is not modelled.

## Findings

| source | as written | input that shows it | evidently intended | confidence | as-written member | corrected member |
|---|---|---|---|---|---|---|
| Documents/TurneroOftalmologico/app.py:203 | `turnos_activos > 0` compares the fetched `sqlite3.Row` with 0, which raises `TypeError` | any `DELETE /api/doctores/<id>`, e.g. a doctor with no turnos at all | compare `turnos_activos['count']` with 0: refuse while active turnos exist, delete otherwise | high, not executed | `App.GuardiaComoEscritaNuncaBorra` | `App.EliminarDoctor` |
| Documents/TurneroOftalmologico/estadisticas.py:64 | the effective `registrar_historial` (line 32) and both statistics functions (lines 64 and 122) call the `@contextmanager` factory of `db_utils.py` without `with`, so `.execute` raises and the except branch runs | a day with one turno: `obtener_estadisticas_dia` answers `total_turnos` 0 | use the connection itself: history rows are written and the statistics count the rows | high, not executed | `Estadisticas.EstadisticasComoEscritas` | `Estadisticas.ObtenerEstadisticasDia` |
