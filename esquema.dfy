/** init_db: the schema statements and the seeding of stations and rooms.
    The statements run in order on one connection. Python's sqlite3 opens a
    transaction only before an INSERT, so each CREATE TABLE and ALTER TABLE
    commits as it runs; the rollback in the handler undoes only the seeding
    INSERTs. A statement's failure is a parameter: `falla == Some(k)` makes
    step k raise (0-7 the schema statements, 8 and 9 the two seeding
    statements, 10 the commit); a step that is never reached never fails. */
module Esquema {
  import opened Wrappers
  import opened Tablas
  import Estadisticas

  /** A schema statement: CREATE TABLE IF NOT EXISTS, or ALTER TABLE ADD
      COLUMN guarded by the "duplicate column name" check. */
  datatype Ddl = Crear(tabla: string) | AgregarColumna(tabla: string, columna: string)

  /** The columns each CREATE TABLE declares. */
  function Columnas(tabla: string): seq<string>
  {
    if tabla == DOCTORES then ["id", "nombre", "especialidad", "activo", "disponible", "estado_detallado"]
    else if tabla == CONSULTORIOS then ["id", "numero", "ocupado", "doctor_actual", "timestamp_ocupado"]
    else if tabla == ESTACIONES then ["id", "nombre", "descripcion"]
    else if tabla == TURNOS then
      ["id", "numero", "paciente_nombre", "paciente_edad", "tipo", "estado", "estacion_actual",
       "estacion_siguiente", "doctor_asignado", "prioridad", "timestamp_creacion",
       "timestamp_atencion", "timestamp_cancelado", "razon_cancelacion", "tiempo_total"]
    else if tabla == HISTORIAL then ["id", "turno_id", "accion", "detalles", "timestamp", "usuario"]
    else if tabla == MEDICIONES then
      ["id", "turno_id", "agudeza_visual_od", "agudeza_visual_oi", "presion_intraocular_od",
       "presion_intraocular_oi", "queratometria_od", "queratometria_oi", "refraccion_od",
       "refraccion_oi", "observaciones", "atendido_por", "timestamp"]
    else []
  }

  const DDL: seq<Ddl> := [
    Crear(DOCTORES), Crear(CONSULTORIOS), Crear(ESTACIONES), Crear(TURNOS),
    AgregarColumna(TURNOS, "notas_adicionales"), AgregarColumna(TURNOS, "historial_notas"),
    Crear(HISTORIAL), Crear(MEDICIONES)
  ]

  const PASO_ESTACIONES: nat := 8
  const PASO_CONSULTORIOS: nat := 9
  const PASO_COMMIT: nat := 10

  /** The statement has already taken effect in this schema. */
  predicate Hecho(esquema: map<string, seq<string>>, paso: Ddl)
  {
    match paso
    case Crear(t) => t in esquema
    case AgregarColumna(t, c) => t in esquema && c in esquema[t]
  }

  /** One schema statement that does not raise. An existing table is left as
      it is (with its rows); adding a column that exists raises "duplicate
      column name", which init_db treats as done. */
  function Aplicar(esquema: map<string, seq<string>>, paso: Ddl): (r: map<string, seq<string>>)
    ensures esquema.Keys <= r.Keys
    ensures paso.Crear? || paso.tabla in esquema ==> Hecho(r, paso)
    ensures Hecho(esquema, paso) ==> r == esquema
    ensures paso.Crear? && paso.tabla !in esquema ==> r == esquema[paso.tabla := Columnas(paso.tabla)]
  {
    match paso
    case Crear(t) => if t in esquema then esquema else esquema[t := Columnas(t)]
    case AgregarColumna(t, c) =>
      // The table always exists here: TURNOS is created by the statement before.
      if t in esquema && c !in esquema[t] then esquema[t := esquema[t] + [c]] else esquema
  }

  /** A later statement never undoes an earlier one. */
  lemma HechoSeMantiene(esquema: map<string, seq<string>>, p: Ddl, q: Ddl)
    requires Hecho(esquema, p)
    ensures Hecho(Aplicar(esquema, q), p)
  {
    if q.AgregarColumna? && q.tabla == p.tabla && q.tabla in esquema && q.columna !in esquema[q.tabla] {
      var cols := esquema[q.tabla];
      assert Aplicar(esquema, q)[q.tabla] == cols + [q.columna];
      if p.AgregarColumna? {
        var i :| 0 <= i < |cols| && cols[i] == p.columna;
        assert (cols + [q.columna])[i] == p.columna;
      }
    }
  }

  /** The schema after the first n statements. */
  function Migrar(esquema: map<string, seq<string>>, n: nat): (r: map<string, seq<string>>)
    requires n <= |DDL|
    ensures esquema.Keys <= r.Keys
  {
    if n == 0 then esquema else Aplicar(Migrar(esquema, n - 1), DDL[n - 1])
  }

  /** After the first n statements each of them has taken effect. */
  lemma {:induction false} HechosHasta(esquema: map<string, seq<string>>, n: nat)
    requires n <= |DDL|
    ensures forall k :: 0 <= k < n ==> Hecho(Migrar(esquema, n), DDL[k])
  {
    if n > 0 {
      HechosHasta(esquema, n - 1);
      var antes := Migrar(esquema, n - 1);
      forall k | 0 <= k < n - 1 ensures Hecho(Migrar(esquema, n), DDL[k]) {
        HechoSeMantiene(antes, DDL[k], DDL[n - 1]);
      }
      if n - 1 == 4 || n - 1 == 5 {
        assert DDL[3] == Crear(TURNOS);
        assert Hecho(antes, DDL[3]);
      }
    }
  }

  /** After all statements every table exists and turnos has both added
      columns, whatever schema the database started with. */
  lemma MigrarCompleto(esquema: map<string, seq<string>>)
    ensures DOCTORES in Migrar(esquema, |DDL|) && CONSULTORIOS in Migrar(esquema, |DDL|)
    ensures ESTACIONES in Migrar(esquema, |DDL|) && TURNOS in Migrar(esquema, |DDL|)
    ensures HISTORIAL in Migrar(esquema, |DDL|) && MEDICIONES in Migrar(esquema, |DDL|)
    ensures "notas_adicionales" in Migrar(esquema, |DDL|)[TURNOS]
    ensures "historial_notas" in Migrar(esquema, |DDL|)[TURNOS]
  {
    HechosHasta(esquema, |DDL|);
    var e := Migrar(esquema, |DDL|);
    assert Hecho(e, DDL[0]) && Hecho(e, DDL[1]) && Hecho(e, DDL[2]);
    assert Hecho(e, DDL[3]) && Hecho(e, DDL[6]) && Hecho(e, DDL[7]);
    assert Hecho(e, DDL[4]) && Hecho(e, DDL[5]);
  }

  /** Re-running the schema statements changes nothing: CREATE TABLE IF NOT
      EXISTS keeps every table and the column additions count as done. */
  lemma {:induction false} MigrarIdempotente(esquema: map<string, seq<string>>, n: nat)
    requires n <= |DDL|
    ensures Migrar(Migrar(esquema, |DDL|), n) == Migrar(esquema, |DDL|)
  {
    if n > 0 {
      MigrarIdempotente(esquema, n - 1);
      HechosHasta(esquema, |DDL|);
      assert Hecho(Migrar(esquema, |DDL|), DDL[n - 1]);
    }
  }

  /** A later statement never removes a column: what the first k statements
      did is still there after the first n. */
  lemma {:induction false} HechoPersiste(esquema: map<string, seq<string>>, k: nat, n: nat, p: Ddl)
    requires k <= n <= |DDL|
    requires Hecho(Migrar(esquema, k), p)
    ensures Hecho(Migrar(esquema, n), p)
    decreases n
  {
    if n > k {
      HechoPersiste(esquema, k, n - 1, p);
      HechoSeMantiene(Migrar(esquema, n - 1), p, DDL[n - 1]);
    }
  }

  /** On a database without a turnos table, init_db creates it with every
      column of its CREATE TABLE, and the later statements keep them. */
  lemma ColumnasTurnosNuevas(esquema: map<string, seq<string>>)
    requires TURNOS !in esquema
    ensures TURNOS in Migrar(esquema, |DDL|)
    ensures forall c :: c in Columnas(TURNOS) ==> c in Migrar(esquema, |DDL|)[TURNOS]
  {
    assert DOCTORES[0] != TURNOS[0] && CONSULTORIOS[0] != TURNOS[0] && ESTACIONES[0] != TURNOS[0];
    assert TURNOS !in Migrar(esquema, 1);
    assert TURNOS !in Migrar(esquema, 2);
    assert TURNOS !in Migrar(esquema, 3);
    assert Migrar(esquema, 4)[TURNOS] == Columnas(TURNOS);
    MigrarCompleto(esquema);
    forall c | c in Columnas(TURNOS) ensures c in Migrar(esquema, |DDL|)[TURNOS] {
      HechoPersiste(esquema, 4, |DDL|, AgregarColumna(TURNOS, c));
    }
  }

  /** The columns verificar_columna_existe looks for: after the schema
      statements both added turnos columns exist whatever the database held
      before, and on a new database so does razon_cancelacion, which
      obtener_estadisticas_dia checks before grouping by it. Through the
      connection estadisticas.py obtains as written the check is always False. */
  lemma ColumnasVerificadas(esquema: map<string, seq<string>>)
    ensures var e := Migrar(esquema, |DDL|);
            && Estadisticas.VerificarColumnaExiste(e, TURNOS, "notas_adicionales", Estadisticas.Directa)
            && Estadisticas.VerificarColumnaExiste(e, TURNOS, "historial_notas", Estadisticas.Directa)
            && (TURNOS !in esquema ==>
                  Estadisticas.VerificarColumnaExiste(e, TURNOS, "razon_cancelacion", Estadisticas.Directa))
            && forall t, c :: !Estadisticas.VerificarColumnaExiste(e, t, c, Estadisticas.ConexionComoEscrita)
  {
    HechosHasta(esquema, |DDL|);
    assert Hecho(Migrar(esquema, |DDL|), DDL[4]) && Hecho(Migrar(esquema, |DDL|), DDL[5]);
    if TURNOS !in esquema {
      ColumnasTurnosNuevas(esquema);
      assert Columnas(TURNOS)[13] == "razon_cancelacion";
    }
  }

  // ------------------------------------------------------------- seeding

  const ESTACIONES_BASE: seq<(string, string)> := [
    ("Recepción", "Punto de entrada y salida del paciente"),
    ("Trabajo Social", "Atención social para pacientes sin cita, asi como para agendar operaciones"),
    ("Toma de Calculos Correspondientes", "Medición de agudeza visual, Presion Intraocular, Queratometria, Tonometria, Calculo de LIO, Refraccion"),
    ("Consulta Médica", "Consulta con el medico asignado"),
    ("Farmacia", "Entrega de medicamentos"),
    ("Asesoria Visual", "Orientación sobre lentes"),
    ("Estudios Especiales", "Exámenes especializados"),
    ("Salida", "Final del proceso")
  ]

  const CONSULTORIOS_BASE: seq<string> :=
    ["Consultorio 1", "Consultorio 2", "Consultorio 3", "Consultorio 4", "Consultorio 5"]

  /** The rows one station seeding appends when the next id is `sig`:
      estaciones.nombre has no UNIQUE constraint, so OR IGNORE never skips. */
  function Estaciones(sig: nat): (r: seq<Estacion>)
    ensures |r| == |ESTACIONES_BASE|
    ensures forall i :: 0 <= i < |r| ==> r[i].id == sig + i
    ensures forall i :: 0 <= i < |r| ==> r[i].nombre == ESTACIONES_BASE[i].0 && r[i].descripcion == ESTACIONES_BASE[i].1
  {
    seq(|ESTACIONES_BASE|, i requires 0 <= i < |ESTACIONES_BASE| =>
      Estacion(sig + i, ESTACIONES_BASE[i].0, ESTACIONES_BASE[i].1))
  }

  /** On a new database the stations get ids 1..8 in the listed order, so
      the application's station numbers (1 reception, 4 consultation,
      5 pharmacy, 8 exit) name the intended rows. */
  lemma EstacionesIniciales()
    ensures forall i :: 0 <= i < 8 ==> Estaciones(1)[i].id == i + 1
    ensures Estaciones(1)[0].nombre == "Recepción" && Estaciones(1)[3].nombre == "Consulta Médica"
    ensures Estaciones(1)[4].nombre == "Farmacia" && Estaciones(1)[7].nombre == "Salida"
  {
  }

  /** A second run appends the same eight stations again under new ids. */
  lemma EstacionesDuplicadas(sig: nat)
    ensures var dos := Estaciones(sig) + Estaciones(sig + 8);
            && |dos| == 16
            && forall i :: 0 <= i < 8 ==> dos[i + 8].nombre == dos[i].nombre && dos[i + 8].id == dos[i].id + 8
  {
  }

  function Numeros(s: seq<Consultorio>): (r: seq<string>)
    ensures |r| == |s| && forall i :: 0 <= i < |s| ==> r[i] == s[i].numero
  {
    seq(|s|, i requires 0 <= i < |s| => s[i].numero)
  }

  predicate NumerosUnicos(s: seq<Consultorio>)
  {
    forall i, j :: 0 <= i < j < |s| ==> s[i].numero != s[j].numero
  }

  datatype Sembrado = Sembrado(filas: seq<Consultorio>, siguiente: nat)

  /** `INSERT OR IGNORE INTO consultorios (numero)`: a number already
      present violates UNIQUE and the row is skipped, but its id is used up.
      With AUTOINCREMENT SQLite draws the new rowid before the constraint
      check and records it in sqlite_sequence even when the row is ignored. */
  function InsertarOIgnorar(filas: seq<Consultorio>, sig: nat, numero: string): (r: Sembrado)
    ensures numero in Numeros(r.filas)
    ensures r.siguiente == sig + 1
    ensures numero in Numeros(filas) ==> r.filas == filas
    ensures numero !in Numeros(filas) ==> r.filas == filas + [NuevoConsultorio(sig, numero)]
  {
    if numero in Numeros(filas) then Sembrado(filas, sig + 1)
    else
      var r := filas + [NuevoConsultorio(sig, numero)];
      assert Numeros(r)[|filas|] == numero;
      Sembrado(r, sig + 1)
  }

  /** executemany over the room numbers: afterwards every one of them is
      present, the rows that were there are kept in front, and each number,
      inserted or not, has used up one id. */
  function Sembrar(filas: seq<Consultorio>, sig: nat, numeros: seq<string>): (r: Sembrado)
    ensures |filas| <= |r.filas| && r.filas[..|filas|] == filas
    ensures forall n :: n in numeros ==> n in Numeros(r.filas)
    ensures r.siguiente == sig + |numeros|
  {
    if numeros == [] then Sembrado(filas, sig)
    else
      var p := Sembrar(filas, sig, numeros[..|numeros| - 1]);
      var n := numeros[|numeros| - 1];
      var r := InsertarOIgnorar(p.filas, p.siguiente, n);
      assert forall m :: m in numeros ==> m in numeros[..|numeros| - 1] || m == n;
      assert forall m :: m in Numeros(p.filas) ==> m in Numeros(r.filas) by {
        forall m | m in Numeros(p.filas) ensures m in Numeros(r.filas) {
          var i :| 0 <= i < |p.filas| && Numeros(p.filas)[i] == m;
          assert r.filas[i] == p.filas[i];
          assert Numeros(r.filas)[i] == m;
        }
      }
      r
  }

  /** Seeding again when every number is present inserts nothing, yet the
      next id moves on by one per number. */
  lemma {:induction false} SembrarPresentes(filas: seq<Consultorio>, sig: nat, numeros: seq<string>)
    requires forall n :: n in numeros ==> n in Numeros(filas)
    ensures Sembrar(filas, sig, numeros).filas == filas
    ensures Sembrar(filas, sig, numeros).siguiente == sig + |numeros|
  {
    if numeros != [] {
      SembrarPresentes(filas, sig, numeros[..|numeros| - 1]);
      assert numeros[|numeros| - 1] in numeros;
    }
  }

  /** The rows a seeding appends when none of its numbers is present. */
  function Nuevos(sig: nat, numeros: seq<string>): (r: seq<Consultorio>)
    ensures |r| == |numeros|
    ensures forall i :: 0 <= i < |r| ==> r[i] == NuevoConsultorio(sig + i, numeros[i])
  {
    seq(|numeros|, i requires 0 <= i < |numeros| => NuevoConsultorio(sig + i, numeros[i]))
  }

  lemma NoPresente(filas: seq<Consultorio>, sig: nat, numeros: seq<string>, n: string)
    requires n !in Numeros(filas) && n !in numeros
    ensures n !in Numeros(filas + Nuevos(sig, numeros))
  {
    var r := filas + Nuevos(sig, numeros);
    forall i | 0 <= i < |r| ensures Numeros(r)[i] != n {
      if i < |filas| {
        assert Numeros(filas)[i] == filas[i].numero;
      } else {
        assert numeros[i - |filas|] in numeros;
      }
    }
  }

  lemma NuevosUltimo(sig: nat, numeros: seq<string>)
    requires numeros != []
    ensures Nuevos(sig, numeros)
            == Nuevos(sig, numeros[..|numeros| - 1]) + [NuevoConsultorio(sig + |numeros| - 1, numeros[|numeros| - 1])]
  {
  }

  lemma SembrarUltimo(filas: seq<Consultorio>, sig: nat, numeros: seq<string>)
    requires numeros != []
    ensures var p := Sembrar(filas, sig, numeros[..|numeros| - 1]);
            Sembrar(filas, sig, numeros) == InsertarOIgnorar(p.filas, p.siguiente, numeros[|numeros| - 1])
  {
  }

  lemma InsertarNuevo(p: Sembrado, filas: seq<Consultorio>, sig: nat, n: string)
    requires p == Sembrado(filas, sig) && n !in Numeros(filas)
    ensures InsertarOIgnorar(p.filas, p.siguiente, n) == Sembrado(filas + [NuevoConsultorio(sig, n)], sig + 1)
  {
  }

  /** Distinct numbers none of which is present are all inserted, in order,
      under consecutive ids. */
  lemma {:induction false} SembrarNuevos(filas: seq<Consultorio>, sig: nat, numeros: seq<string>)
    requires forall i :: 0 <= i < |numeros| ==> numeros[i] !in Numeros(filas)
    requires forall i, j :: 0 <= i < j < |numeros| ==> numeros[i] != numeros[j]
    ensures Sembrar(filas, sig, numeros).filas == filas + Nuevos(sig, numeros)
  {
    if numeros == [] {
      assert filas + Nuevos(sig, numeros) == filas;
    } else {
      var m := |numeros| - 1;
      var init := numeros[..m];
      var n := numeros[m];
      assert forall i :: 0 <= i < |init| ==> init[i] == numeros[i];
      SembrarNuevos(filas, sig, init);
      var antes := filas + Nuevos(sig, init);
      assert n !in init by {
        forall i | 0 <= i < |init| ensures init[i] != n {
          assert init[i] == numeros[i];
        }
      }
      NoPresente(filas, sig, init, n);
      SembrarUltimo(filas, sig, numeros);
      SembrarPaso(Sembrar(filas, sig, init), Sembrar(filas, sig, numeros), filas, sig, numeros);
    }
  }

  /** The step of SembrarNuevos: a last number that is not yet present is
      appended under the next id. */
  lemma SembrarPaso(p: Sembrado, r: Sembrado, filas: seq<Consultorio>, sig: nat, numeros: seq<string>)
    requires numeros != []
    requires p.filas == filas + Nuevos(sig, numeros[..|numeros| - 1]) && p.siguiente == sig + |numeros| - 1
    requires numeros[|numeros| - 1] !in Numeros(p.filas)
    requires r == InsertarOIgnorar(p.filas, p.siguiente, numeros[|numeros| - 1])
    ensures r.filas == filas + Nuevos(sig, numeros)
  {
    NuevosUltimo(sig, numeros);
  }

  /** The rooms after n runs of init_db on a new database. */
  function Corridas(n: nat): Sembrado
  {
    if n == 0 then Sembrado([], 1)
    else
      var p := Corridas(n - 1);
      Sembrar(p.filas, p.siguiente, CONSULTORIOS_BASE)
  }

  /** The five room numbers are pairwise distinct. */
  lemma NumerosBaseDistintos()
    ensures forall i, j :: 0 <= i < j < |CONSULTORIOS_BASE| ==> CONSULTORIOS_BASE[i] != CONSULTORIOS_BASE[j]
  {
    var b := CONSULTORIOS_BASE;
    forall i, j | 0 <= i < j < |b| ensures b[i] != b[j] {
      assert b[i][12] != b[j][12];
    }
  }

  /** The first run on a new database inserts the five rooms under ids 1 to 5. */
  lemma PrimeraCorrida()
    ensures Corridas(1) == Sembrado(Nuevos(1, CONSULTORIOS_BASE), 1 + |CONSULTORIOS_BASE|)
    ensures Numeros(Corridas(1).filas) == CONSULTORIOS_BASE
  {
    var b := CONSULTORIOS_BASE;
    assert Corridas(0) == Sembrado([], 1);
    NumerosBaseDistintos();
    SembrarNuevos([], 1, b);
    assert [] + Nuevos(1, b) == Nuevos(1, b);
  }

  /** However often init_db runs, there are exactly the five rooms of the
      first run, numbered "Consultorio 1" to "Consultorio 5" with ids 1 to 5;
      every run uses up five ids, so after n runs the next room gets 5n + 1. */
  lemma {:induction false} CincoConsultorios(n: nat)
    requires n >= 1
    ensures Corridas(n).filas == Nuevos(1, CONSULTORIOS_BASE)
    ensures Corridas(n).siguiente == 1 + |CONSULTORIOS_BASE| * n
    ensures Numeros(Corridas(n).filas) == CONSULTORIOS_BASE
  {
    PrimeraCorrida();
    if n > 1 {
      CincoConsultorios(n - 1);
      var b := CONSULTORIOS_BASE;
      var antes := Corridas(n - 1);
      forall m | m in b ensures m in Numeros(antes.filas) {
        var i :| 0 <= i < |b| && b[i] == m;
        assert Numeros(antes.filas)[i] == m;
      }
      SembrarPresentes(antes.filas, antes.siguiente, b);
    }
  }

  // ---------------------------------------------------------------- init_db

  /** How many schema statements ran without raising. */
  function DdlHecho(falla: Option<nat>): (n: nat)
    ensures n <= |DDL|
  {
    if falla.Some? && falla.value < |DDL| then falla.value else |DDL|
  }

  method InitDb(db: Database, falla: Option<nat>) returns (ok: bool)
    requires db.Valid()
    modifies db`esquema, db`estaciones, db`sigEstacion, db`consultorios, db`sigConsultorio
    ensures db.Valid()
    ensures ok <==> falla.None? || falla.value > PASO_COMMIT
    ensures db.esquema == Migrar(old(db.esquema), DdlHecho(falla))
    ensures ok ==> db.Initialized()
    ensures ok ==> && db.estaciones == old(db.estaciones) + Estaciones(old(db.sigEstacion))
                   && db.sigEstacion == old(db.sigEstacion) + |ESTACIONES_BASE|
    ensures ok ==> Sembrado(db.consultorios, db.sigConsultorio)
                   == Sembrar(old(db.consultorios), old(db.sigConsultorio), CONSULTORIOS_BASE)
    ensures !ok ==> && db.estaciones == old(db.estaciones) && db.sigEstacion == old(db.sigEstacion)
                    && db.consultorios == old(db.consultorios) && db.sigConsultorio == old(db.sigConsultorio)
  {
    var hechos := EjecutarDdl(db, falla);
    if hechos < |DDL| {
      return false;
    }
    ok := SembrarTransaccion(db, falla);
  }

  /** The seeding transaction: both executemany statements and the commit.
      The inserts are staged and reach the tables only at the commit, so a
      failure at any of the three steps leaves both tables as they were. */
  method SembrarTransaccion(db: Database, falla: Option<nat>) returns (ok: bool)
    requires db.Initialized()
    modifies db`estaciones, db`sigEstacion, db`consultorios, db`sigConsultorio
    ensures db.Initialized()
    ensures ok <==> falla != Some(PASO_ESTACIONES) && falla != Some(PASO_CONSULTORIOS) && falla != Some(PASO_COMMIT)
    ensures ok ==> && db.estaciones == old(db.estaciones) + Estaciones(old(db.sigEstacion))
                   && db.sigEstacion == old(db.sigEstacion) + |ESTACIONES_BASE|
    ensures ok ==> Sembrado(db.consultorios, db.sigConsultorio)
                   == Sembrar(old(db.consultorios), old(db.sigConsultorio), CONSULTORIOS_BASE)
    ensures !ok ==> && db.estaciones == old(db.estaciones) && db.sigEstacion == old(db.sigEstacion)
                    && db.consultorios == old(db.consultorios) && db.sigConsultorio == old(db.sigConsultorio)
  {
    if falla == Some(PASO_ESTACIONES) {
      return false;
    }
    var estaciones, sigEstacion := SembrarEstaciones(db.estaciones, db.sigEstacion);
    if falla == Some(PASO_CONSULTORIOS) {
      return false;
    }
    var consultorios := SembrarConsultorios(db.consultorios, db.sigConsultorio);
    if falla == Some(PASO_COMMIT) {
      return false;
    }
    db.estaciones, db.sigEstacion := estaciones, sigEstacion;
    db.consultorios, db.sigConsultorio := consultorios.filas, consultorios.siguiente;
    return true;
  }

  /** The schema statements in order, each committing on its own, up to the
      one that raises; answers how many ran. */
  method EjecutarDdl(db: Database, falla: Option<nat>) returns (hechos: nat)
    requires db.Valid()
    modifies db`esquema
    ensures db.Valid()
    ensures hechos == DdlHecho(falla)
    ensures db.esquema == Migrar(old(db.esquema), hechos)
    ensures hechos == |DDL| ==> db.Initialized()
  {
    var esquema;
    esquema, hechos := Migraciones(db.esquema, falla);
    MigrarCompleto(db.esquema);
    db.esquema := esquema;
  }

  /** The loop over the schema statements, on the schema as a value. */
  method Migraciones(esquema: map<string, seq<string>>, falla: Option<nat>) returns (r: map<string, seq<string>>, hechos: nat)
    ensures hechos == DdlHecho(falla)
    ensures r == Migrar(esquema, hechos)
  {
    r := esquema;
    hechos := 0;
    while hechos < |DDL|
      invariant hechos <= |DDL|
      invariant falla.Some? ==> hechos <= falla.value
      invariant r == Migrar(esquema, hechos)
    {
      if falla == Some(hechos) {
        return;
      }
      r := Aplicar(r, DDL[hechos]);
      hechos := hechos + 1;
    }
  }

  /** `INSERT OR IGNORE INTO estaciones` over the eight stations, one row
      per iteration; the new rows keep the table in id order. */
  method SembrarEstaciones(filas: seq<Estacion>, sig: nat) returns (r: seq<Estacion>, rSig: nat)
    requires Autoincrement(EstacionIds(filas), sig)
    ensures Autoincrement(EstacionIds(r), rSig)
    ensures r == filas + Estaciones(sig) && rSig == sig + |ESTACIONES_BASE|
  {
    var nuevas := Estaciones(sig);
    r, rSig := filas, sig;
    for k := 0 to |ESTACIONES_BASE|
      invariant r == filas + nuevas[..k]
      invariant rSig == sig + k
      invariant Autoincrement(EstacionIds(r), rSig)
    {
      var e := Estacion(rSig, ESTACIONES_BASE[k].0, ESTACIONES_BASE[k].1);
      assert e == nuevas[k];
      assert EstacionIds(r + [e]) == EstacionIds(r) + [e.id];
      r := r + [e];
      rSig := rSig + 1;
      assert nuevas[..k + 1] == nuevas[..k] + [nuevas[k]];
    }
    assert nuevas[..|ESTACIONES_BASE|] == nuevas;
  }

  /** One `INSERT OR IGNORE INTO consultorios` keeps ids increasing and
      `numero` unique. */
  lemma InsertarConservaInvariante(filas: seq<Consultorio>, sig: nat, numero: string)
    requires Autoincrement(ConsultorioIds(filas), sig) && NumerosUnicos(filas)
    ensures var q := InsertarOIgnorar(filas, sig, numero);
            Autoincrement(ConsultorioIds(q.filas), q.siguiente) && NumerosUnicos(q.filas)
  {
    var q := InsertarOIgnorar(filas, sig, numero);
    if q.filas != filas {
      assert ConsultorioIds(q.filas) == ConsultorioIds(filas) + [sig];
      forall i | 0 <= i < |filas| ensures filas[i].numero != numero {
        assert Numeros(filas)[i] == filas[i].numero;
      }
    }
  }

  /** `INSERT OR IGNORE INTO consultorios` over the five room numbers; the
      rows keep their id order and their UNIQUE numbers. */
  method SembrarConsultorios(filas: seq<Consultorio>, sig: nat) returns (r: Sembrado)
    requires Autoincrement(ConsultorioIds(filas), sig) && NumerosUnicos(filas)
    ensures Autoincrement(ConsultorioIds(r.filas), r.siguiente) && NumerosUnicos(r.filas)
    ensures r == Sembrar(filas, sig, CONSULTORIOS_BASE)
  {
    var numeros := CONSULTORIOS_BASE;
    r := Sembrado(filas, sig);
    for k := 0 to |numeros|
      invariant r == Sembrar(filas, sig, numeros[..k])
      invariant Autoincrement(ConsultorioIds(r.filas), r.siguiente) && NumerosUnicos(r.filas)
    {
      assert numeros[..k + 1][..k] == numeros[..k];
      SembrarUltimo(filas, sig, numeros[..k + 1]);
      InsertarConservaInvariante(r.filas, r.siguiente, numeros[k]);
      r := InsertarOIgnorar(r.filas, r.siguiente, numeros[k]);
    }
    assert numeros[..|numeros|] == numeros;
  }
}
