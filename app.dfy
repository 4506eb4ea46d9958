/** The request handlers of the clinic's web application that change the
    database: each handler is a method on the Database, each of its SQL
    UPDATEs a function from the old rows to the new ones. Request fields
    are Options (None is a key missing from the JSON body); "now" is a
    parameter: `hoy` is the local date text crear_turno numbers by, `ahora`
    the instant CURRENT_TIMESTAMP stores. */
module App {
  import opened Wrappers
  import opened Decimal
  import opened Tablas
  import opened Numeracion
  import opened Consultas
  import Estadisticas
  import Esquema

  datatype Rechazo =
    | Falta(campo: string)          // data[...] raised KeyError
    | NoHayPacientesEnEspera
    | DoctorNoEncontrado            // doctor['nombre'] on a missing row raised TypeError
    | ColumnaInexistente(columna: string)  // the turnos table lacks a column the SQL names

  /** The turno fields of a JSON body. `estacion` is `estacion_inicial` for
      crear_turno and `estacion_actual` for editar_turno. */
  datatype DatosTurno = DatosTurno(
    pacienteNombre: Option<string>,
    pacienteEdad: Option<int>,
    tipo: Option<string>,
    estacion: Option<int>,
    doctorAsignado: Option<int>)

  /** Python's str() of a bool and of an optional string. */
  function PyBool(b: bool): string { if b then "True" else "False" }

  function PyStr(s: Option<string>): string { match s case None => "None" case Some(x) => x }

  // --------------------------------------------------------------- crear_turno

  /** `data.get('estacion_inicial', 1)`. */
  function EstacionInicial(datos: DatosTurno): int
  {
    match datos.estacion case None => 1 case Some(e) => e
  }

  /** The turnos columns the statements of each handler name. */
  const COLUMNAS_NUMERO: seq<string> := ["numero", "timestamp_creacion", "id"]
  const COLUMNAS_ALTA: seq<string> :=
    ["numero", "paciente_nombre", "paciente_edad", "tipo", "estacion_actual", "doctor_asignado"]
  const COLUMNAS_CANCELAR: seq<string> := ["estado", "timestamp_cancelado", "razon_cancelacion", "id"]
  const COLUMNAS_EDITAR: seq<string> :=
    ["paciente_nombre", "paciente_edad", "tipo", "estacion_actual", "doctor_asignado", "id"]
  const COLUMNAS_COLA: seq<string> := ["id", "estacion_actual", "doctor_asignado", "estado", "timestamp_creacion"]
  const COLUMNAS_ATENDER: seq<string> := ["estado", "timestamp_atencion", "id"]
  const COLUMNAS_FINALIZAR: seq<string> := ["estado", "estacion_actual", "tiempo_total", "timestamp_atencion", "id"]

  /** On a database init_db created from nothing no handler meets a missing
      turnos column: every column they name is in its CREATE TABLE. */
  lemma ColumnasEnBaseNueva(esquema: map<string, seq<string>>)
    requires TURNOS !in esquema
    ensures var e := Esquema.Migrar(esquema, |Esquema.DDL|);
            && TURNOS in e
            && var columnas := e[TURNOS];
            && ColumnaFaltante(COLUMNAS_NUMERO, columnas).None? && ColumnaFaltante(COLUMNAS_ALTA, columnas).None?
            && ColumnaFaltante(COLUMNAS_CANCELAR, columnas).None? && ColumnaFaltante(COLUMNAS_EDITAR, columnas).None?
            && ColumnaFaltante(COLUMNAS_COLA, columnas).None? && ColumnaFaltante(COLUMNAS_ATENDER, columnas).None?
            && ColumnaFaltante(COLUMNAS_FINALIZAR, columnas).None?
  {
    Esquema.ColumnasTurnosNuevas(esquema);
    var t := Esquema.Columnas(TURNOS);
    assert t == ["id", "numero", "paciente_nombre", "paciente_edad", "tipo", "estado", "estacion_actual",
                 "estacion_siguiente", "doctor_asignado", "prioridad", "timestamp_creacion",
                 "timestamp_atencion", "timestamp_cancelado", "razon_cancelacion", "tiempo_total"];
  }

  /** The row crear_turno inserts, or the error that stops it first, given
      the columns of the turnos table: the number query runs first, the body's
      fields are read while the INSERT's parameters are built, and the INSERT
      itself runs last. */
  function Alta(turnos: seq<Turno>, columnas: seq<string>, id: nat, datos: DatosTurno, hoy: string, ahora: Timestamp)
    : (r: Result<Turno, ErrorCreacion>)
    ensures ColumnaFaltante(COLUMNAS_NUMERO, columnas).Some? ==>
              r == Err(SinColumna(ColumnaFaltante(COLUMNAS_NUMERO, columnas).value))
    ensures ColumnaFaltante(COLUMNAS_NUMERO, columnas).None? && NumeroDelDia(turnos, hoy).Err? ==>
              r == Err(NumeroDelDia(turnos, hoy).error)
    ensures r.Ok? <==> && ColumnaFaltante(COLUMNAS_NUMERO, columnas).None? && NumeroDelDia(turnos, hoy).Ok?
                       && datos.pacienteNombre.Some? && datos.pacienteEdad.Some? && datos.tipo.Some?
                       && ColumnaFaltante(COLUMNAS_ALTA, columnas).None?
    ensures ColumnaFaltante(COLUMNAS_NUMERO, columnas).None? && NumeroDelDia(turnos, hoy).Ok? && datos.pacienteNombre.None? ==>
              r == Err(CampoFaltante("paciente_nombre"))
    ensures && ColumnaFaltante(COLUMNAS_NUMERO, columnas).None? && NumeroDelDia(turnos, hoy).Ok?
            && datos.pacienteNombre.Some? && datos.pacienteEdad.Some? && datos.tipo.Some?
            && ColumnaFaltante(COLUMNAS_ALTA, columnas).Some? ==>
              r == Err(SinColumna(ColumnaFaltante(COLUMNAS_ALTA, columnas).value))
    ensures r.Ok? ==> && r.value.id == id && r.value.numero == NumeroDelDia(turnos, hoy).value
                      && r.value.pacienteNombre == datos.pacienteNombre.value
                      && r.value.pacienteEdad == datos.pacienteEdad.value
                      && r.value.tipo == datos.tipo.value
                      && r.value.estado == PENDIENTE && r.value.prioridad == 1 && r.value.creado == ahora
    ensures r.Ok? && datos.estacion.None? ==> r.value.estacionActual == 1
    ensures r.Ok? && datos.estacion.Some? ==> r.value.estacionActual == datos.estacion.value
    ensures r.Ok? ==> r.value.doctorAsignado == (if EstacionInicial(datos) == 4 then datos.doctorAsignado else None)
  {
    if ColumnaFaltante(COLUMNAS_NUMERO, columnas).Some? then Err(SinColumna(ColumnaFaltante(COLUMNAS_NUMERO, columnas).value))
    else
    match NumeroDelDia(turnos, hoy)
    case Err(e) => Err(e)
    case Ok(numero) =>
      var estacion := EstacionInicial(datos);
      var doctor := if estacion == 4 then datos.doctorAsignado else None;
      if datos.pacienteNombre.None? then Err(CampoFaltante("paciente_nombre"))
      else if datos.pacienteEdad.None? then Err(CampoFaltante("paciente_edad"))
      else if datos.tipo.None? then Err(CampoFaltante("tipo"))
      else if ColumnaFaltante(COLUMNAS_ALTA, columnas).Some? then Err(SinColumna(ColumnaFaltante(COLUMNAS_ALTA, columnas).value))
      else Ok(NuevoTurno(id, numero, datos.pacienteNombre.value, datos.pacienteEdad.value,
                         datos.tipo, estacion, doctor, ahora))
  }

  /** crear_turno: insert the new turno, record CREADO in the history and
      answer its number and id; on any error nothing is inserted. The
      history row is written through `conexion`, the connection
      estadisticas.py obtains: as written (`Contexto`) it cannot execute,
      registrar_historial answers False and the history stays as it was. */
  method CrearTurno(db: Database, conexion: Estadisticas.Conexion, datos: DatosTurno, hoy: string, ahora: Timestamp)
    returns (r: Result<(string, nat), ErrorCreacion>)
    requires db.Initialized()
    modifies db`turnos, db`sigTurno, db`historial, db`sigHistorial
    ensures db.Initialized()
    ensures var alta := Alta(old(db.turnos), db.esquema[TURNOS], old(db.sigTurno), datos, hoy, ahora);
            && (alta.Err? ==> && r == Err(alta.error) && db.turnos == old(db.turnos) && db.sigTurno == old(db.sigTurno)
                              && db.historial == old(db.historial) && db.sigHistorial == old(db.sigHistorial))
            && (alta.Ok? ==> && r == Ok((alta.value.numero, alta.value.id))
                             && db.turnos == old(db.turnos) + [alta.value]
                             && db.sigTurno == old(db.sigTurno) + 1)
    ensures var alta := Alta(old(db.turnos), db.esquema[TURNOS], old(db.sigTurno), datos, hoy, ahora);
            alta.Ok? && conexion.Directa? ==>
              && db.historial == old(db.historial) +
                   [NuevoHistorial(old(db.sigHistorial), alta.value.id, "CREADO",
                                   "Tipo: " + datos.tipo.value + ", Estación: " + IntText(EstacionInicial(datos)),
                                   None, ahora)]
              && db.sigHistorial == old(db.sigHistorial) + 1
    ensures conexion.Contexto? ==> db.historial == old(db.historial) && db.sigHistorial == old(db.sigHistorial)
  {
    var alta := Alta(db.turnos, db.esquema[TURNOS], db.sigTurno, datos, hoy, ahora);
    if alta.Err? {
      return Err(alta.error);
    }
    var t := alta.value;
    db.turnos := db.turnos + [t];
    db.sigTurno := db.sigTurno + 1;
    assert TurnoIds(db.turnos) == TurnoIds(old(db.turnos)) + [t.id];
    var _ := Estadisticas.RegistrarHistorial(db, conexion, Some(t.id), "CREADO",
      "Tipo: " + datos.tipo.value + ", Estación: " + IntText(EstacionInicial(datos)), None, ahora);
    return Ok((t.numero, t.id));
  }

  // ------------------------------------------------------------ cancelar_turno

  /** `UPDATE turnos SET estado = "CANCELADO", timestamp_cancelado = ?,
      razon_cancelacion = ? WHERE id = ?`. */
  function Cancelar(s: seq<Turno>, id: int, razon: string, ahora: Timestamp): (r: seq<Turno>)
    ensures |r| == |s|
    ensures forall i :: 0 <= i < |s| && s[i].id != id ==> r[i] == s[i]
    ensures forall i :: 0 <= i < |s| && s[i].id == id ==>
              r[i] == s[i].(estado := CANCELADO, cancelado := Some(ahora), razonCancelacion := Some(razon))
  {
    seq(|s|, i requires 0 <= i < |s| =>
      if s[i].id == id then s[i].(estado := CANCELADO, cancelado := Some(ahora), razonCancelacion := Some(razon))
      else s[i])
  }

  /** `data.get('razon', 'No especificada') if data else 'No especificada'`. */
  function RazonCancelacion(razon: Option<string>): string
  {
    match razon case None => "No especificada" case Some(x) => x
  }

  /** cancelar_turno: cancel the turno with that id, whatever its state, and
      record CANCELADO by 'recepcion' after the commit, through `conexion`
      as in CrearTurno. An id with no row changes no turno. On a turnos table
      without the cancellation columns the UPDATE raises: the request fails
      and nothing is written. */
  method CancelarTurno(db: Database, conexion: Estadisticas.Conexion, turnoId: int, razon: Option<string>, ahora: Timestamp)
    returns (r: Result<(), Rechazo>)
    requires db.Initialized()
    modifies db`turnos, db`historial, db`sigHistorial
    ensures db.Initialized()
    ensures r.Err? <==> ColumnaFaltante(COLUMNAS_CANCELAR, db.esquema[TURNOS]).Some?
    ensures r.Err? ==> && r.error == ColumnaInexistente(ColumnaFaltante(COLUMNAS_CANCELAR, db.esquema[TURNOS]).value)
                       && db.turnos == old(db.turnos)
    ensures r.Ok? ==> db.turnos == Cancelar(old(db.turnos), turnoId, RazonCancelacion(razon), ahora)
    ensures r.Ok? && conexion.Directa? ==>
              && db.historial == old(db.historial) +
                   [NuevoHistorial(old(db.sigHistorial), turnoId, "CANCELADO", "Razón: " + RazonCancelacion(razon),
                                   Some("recepcion"), ahora)]
              && db.sigHistorial == old(db.sigHistorial) + 1
    ensures r.Err? || conexion.Contexto? ==> db.historial == old(db.historial) && db.sigHistorial == old(db.sigHistorial)
  {
    var falta := ColumnaFaltante(COLUMNAS_CANCELAR, db.esquema[TURNOS]);
    if falta.Some? {
      return Err(ColumnaInexistente(falta.value));
    }
    db.turnos := Cancelar(db.turnos, turnoId, RazonCancelacion(razon), ahora);
    assert TurnoIds(db.turnos) == TurnoIds(old(db.turnos));
    var _ := Estadisticas.RegistrarHistorial(db, conexion, Some(turnoId), "CANCELADO",
      "Razón: " + RazonCancelacion(razon), Some("recepcion"), ahora);
    return Ok(());
  }

  /** Cancelling twice is cancelling once. */
  lemma CancelarIdempotente(s: seq<Turno>, id: int, razon: string, ahora: Timestamp)
    ensures Cancelar(Cancelar(s, id, razon, ahora), id, razon, ahora) == Cancelar(s, id, razon, ahora)
  {
    var once := Cancelar(s, id, razon, ahora);
    var twice := Cancelar(once, id, razon, ahora);
    forall i | 0 <= i < |s| ensures twice[i] == once[i] {
    }
  }

  // ------------------------------------------------------------- editar_turno

  /** `UPDATE turnos SET paciente_nombre, paciente_edad, tipo, estacion_actual,
      doctor_asignado WHERE id = ?`. */
  function Editar(s: seq<Turno>, id: int, nombre: string, edad: int, tipo: string, estacion: int,
                  doctor: Option<int>): (r: seq<Turno>)
    ensures |r| == |s|
    ensures forall i :: 0 <= i < |s| && s[i].id != id ==> r[i] == s[i]
    ensures forall i :: 0 <= i < |s| && s[i].id == id ==>
              r[i] == s[i].(pacienteNombre := nombre, pacienteEdad := edad, tipo := tipo,
                            estacionActual := estacion, doctorAsignado := doctor)
  {
    seq(|s|, i requires 0 <= i < |s| =>
      if s[i].id == id then s[i].(pacienteNombre := nombre, pacienteEdad := edad, tipo := tipo,
                                  estacionActual := estacion, doctorAsignado := doctor)
      else s[i])
  }

  /** editar_turno: a missing required field raises before the UPDATE runs;
      `doctor_asignado` may be left out and then becomes NULL. A column the
      UPDATE names that the table lacks makes it raise. */
  method EditarTurno(db: Database, turnoId: int, datos: DatosTurno) returns (r: Result<(), Rechazo>)
    requires db.Initialized()
    modifies db`turnos
    ensures db.Initialized()
    ensures r.Ok? <==> && datos.pacienteNombre.Some? && datos.pacienteEdad.Some? && datos.tipo.Some? && datos.estacion.Some?
                       && ColumnaFaltante(COLUMNAS_EDITAR, db.esquema[TURNOS]).None?
    ensures && datos.pacienteNombre.Some? && datos.pacienteEdad.Some? && datos.tipo.Some? && datos.estacion.Some?
            && ColumnaFaltante(COLUMNAS_EDITAR, db.esquema[TURNOS]).Some? ==>
              r == Err(ColumnaInexistente(ColumnaFaltante(COLUMNAS_EDITAR, db.esquema[TURNOS]).value))
    ensures r.Err? ==> db.turnos == old(db.turnos)
    ensures r.Ok? ==> db.turnos == Editar(old(db.turnos), turnoId, datos.pacienteNombre.value, datos.pacienteEdad.value,
                                          datos.tipo.value, datos.estacion.value, datos.doctorAsignado)
  {
    if datos.pacienteNombre.None? { return Err(Falta("paciente_nombre")); }
    if datos.pacienteEdad.None? { return Err(Falta("paciente_edad")); }
    if datos.tipo.None? { return Err(Falta("tipo")); }
    if datos.estacion.None? { return Err(Falta("estacion_actual")); }
    var falta := ColumnaFaltante(COLUMNAS_EDITAR, db.esquema[TURNOS]);
    if falta.Some? { return Err(ColumnaInexistente(falta.value)); }
    db.turnos := Editar(db.turnos, turnoId, datos.pacienteNombre.value, datos.pacienteEdad.value,
                        datos.tipo.value, datos.estacion.value, datos.doctorAsignado);
    assert TurnoIds(db.turnos) == TurnoIds(old(db.turnos));
    return Ok(());
  }

  // ----------------------------------------------------------- doctores

  /** agregar_doctor: insert a doctor with the table's defaults. */
  method AgregarDoctor(db: Database, nombre: Option<string>, especialidad: Option<string>)
    returns (r: Result<(), Rechazo>)
    requires db.Initialized()
    modifies db`doctores, db`sigDoctor
    ensures db.Initialized()
    ensures r.Ok? <==> nombre.Some? && especialidad.Some?
    ensures r.Err? ==> db.doctores == old(db.doctores) && db.sigDoctor == old(db.sigDoctor)
    ensures r.Ok? ==> && db.sigDoctor == old(db.sigDoctor) + 1
                      && db.doctores == old(db.doctores) + [NuevoDoctor(old(db.sigDoctor), nombre.value, especialidad.value)]
  {
    if nombre.None? { return Err(Falta("nombre")); }
    if especialidad.None? { return Err(Falta("especialidad")); }
    var d := NuevoDoctor(db.sigDoctor, nombre.value, especialidad.value);
    db.doctores := db.doctores + [d];
    db.sigDoctor := db.sigDoctor + 1;
    assert DoctorIds(db.doctores) == DoctorIds(old(db.doctores)) + [d.id];
    return Ok(());
  }

  /** `estado IN ("PENDIENTE", "EN_ATENCION")` for the doctor's turnos. */
  predicate ActivoDe(t: Turno, doctorId: int)
  {
    t.doctorAsignado == Some(doctorId) && (t.estado == PENDIENTE || t.estado == EN_ATENCION)
  }

  /** `SELECT COUNT(*) ... WHERE doctor_asignado = ? AND estado IN (...)`. */
  function ContarTurnosActivos(s: seq<Turno>, doctorId: int): (n: nat)
    ensures n == 0 <==> forall t :: t in s ==> !ActivoDe(t, doctorId)
    ensures n <= |s|
  {
    if s == [] then 0
    else
      assert forall t :: t in s ==> t == s[0] || t in s[1..];
      (if ActivoDe(s[0], doctorId) then 1 else 0) + ContarTurnosActivos(s[1..], doctorId)
  }

  datatype Decision = Borrar | Rechazar(activos: nat) | Excepcion(mensaje: string)

  /** The guard as written compares the fetched row, not its count, with 0;
      Python raises TypeError for `Row > 0`, so the handler never deletes. */
  function DecisionComoEscrita(activos: nat): (d: Decision)
    ensures !d.Borrar?
  {
    Excepcion("'>' not supported between instances of 'sqlite3.Row' and 'int'")
  }

  /** The evidently intended guard: refuse while the doctor has turnos in
      PENDIENTE or EN_ATENCION. */
  function DecisionEliminar(activos: nat): (d: Decision)
    ensures d.Borrar? <==> activos == 0
    ensures d.Rechazar? ==> d.activos == activos
  {
    if activos > 0 then Rechazar(activos) else Borrar
  }

  /** A doctor with no active turnos is deleted by the intended guard and
      never by the written one. */
  lemma GuardiaComoEscritaNuncaBorra(turnos: seq<Turno>, doctorId: int)
    requires forall t :: t in turnos ==> !ActivoDe(t, doctorId)
    ensures DecisionEliminar(ContarTurnosActivos(turnos, doctorId)) == Borrar
    ensures DecisionComoEscrita(ContarTurnosActivos(turnos, doctorId)) != Borrar
  {
  }

  /** `DELETE FROM doctores WHERE id = ?`. */
  function Quitar(s: seq<Doctor>, id: int): (r: seq<Doctor>)
    ensures forall d :: d in r <==> d in s && d.id != id
  {
    if s == [] then []
    else
      assert forall d :: d in s <==> d == s[0] || d in s[1..];
      (if s[0].id != id then [s[0]] else []) + Quitar(s[1..], id)
  }

  predicate IdsCrecientes(s: seq<Doctor>)
  {
    forall i, j :: 0 <= i < j < |s| ==> s[i].id < s[j].id
  }

  /** Deleting rows keeps the others in rowid order. */
  lemma {:induction false} QuitarConservaOrden(s: seq<Doctor>, id: int)
    requires IdsCrecientes(s)
    ensures IdsCrecientes(Quitar(s, id))
  {
    if s != [] {
      assert IdsCrecientes(s[1..]) by {
        forall i, j | 0 <= i < j < |s[1..]| ensures s[1..][i].id < s[1..][j].id {
          assert s[1..][i] == s[i + 1] && s[1..][j] == s[j + 1];
        }
      }
      QuitarConservaOrden(s[1..], id);
      var rest := Quitar(s[1..], id);
      if s[0].id != id {
        forall j | 0 <= j < |rest| ensures s[0].id < rest[j].id {
          assert rest[j] in rest;
          var k :| 0 <= k < |s[1..]| && s[1..][k] == rest[j];
          assert s[k + 1] == rest[j];
        }
        assert Quitar(s, id) == [s[0]] + rest;
      }
    }
  }

  /** eliminar_doctor with the intended guard: refuse while the doctor has
      active turnos, otherwise delete the doctor's row (an unknown id
      deletes nothing and still succeeds). */
  method EliminarDoctor(db: Database, doctorId: int) returns (d: Decision)
    requires db.Initialized()
    modifies db`doctores
    ensures db.Initialized()
    ensures d.Borrar? <==> forall t :: t in db.turnos ==> !ActivoDe(t, doctorId)
    ensures d.Rechazar? ==> d.activos == ContarTurnosActivos(db.turnos, doctorId) && db.doctores == old(db.doctores)
    ensures d.Borrar? ==> db.doctores == Quitar(old(db.doctores), doctorId)
    ensures !d.Excepcion?
  {
    d := DecisionEliminar(ContarTurnosActivos(db.turnos, doctorId));
    if d.Borrar? {
      var antes := db.doctores;
      assert IdsCrecientes(antes) by {
        forall i, j | 0 <= i < j < |antes| ensures antes[i].id < antes[j].id {
          assert DoctorIds(antes)[i] == antes[i].id && DoctorIds(antes)[j] == antes[j].id;
        }
      }
      QuitarConservaOrden(antes, doctorId);
      db.doctores := Quitar(antes, doctorId);
      forall i | 0 <= i < |db.doctores| ensures 1 <= db.doctores[i].id < db.sigDoctor {
        assert db.doctores[i] in db.doctores;
        var k :| 0 <= k < |antes| && antes[k] == db.doctores[i];
        assert DoctorIds(antes)[k] == antes[k].id;
      }
    }
  }

  /** `UPDATE doctores SET activo = ? WHERE id = ?` (a NULL id matches nothing). */
  function FijarActivo(s: seq<Doctor>, id: Option<int>, activo: bool): (r: seq<Doctor>)
    ensures |r| == |s|
    ensures forall i :: 0 <= i < |s| && (id.None? || s[i].id != id.value) ==> r[i] == s[i]
    ensures forall i :: 0 <= i < |s| && id.Some? && s[i].id == id.value ==> r[i] == s[i].(activo := activo)
  {
    seq(|s|, i requires 0 <= i < |s| => if id.Some? && s[i].id == id.value then s[i].(activo := activo) else s[i])
  }

  /** doctor_login: set the doctor's activo flag and answer the doctor's name;
      for an unknown doctor the name lookup raises and no row has changed. */
  method DoctorLogin(db: Database, doctorId: Option<int>) returns (r: Result<string, Rechazo>)
    requires db.Initialized()
    modifies db`doctores
    ensures db.Initialized()
    ensures doctorId.None? ==> r == Err(Falta("doctor_id")) && db.doctores == old(db.doctores)
    ensures doctorId.Some? ==> db.doctores == FijarActivo(old(db.doctores), doctorId, true)
    ensures doctorId.Some? ==> r == (match NombreDoctor(old(db.doctores), doctorId)
                                     case None => Err(DoctorNoEncontrado) case Some(n) => Ok(n))
    ensures r.Err? ==> db.doctores == old(db.doctores)
  {
    if doctorId.None? {
      return Err(Falta("doctor_id"));
    }
    db.doctores := FijarActivo(db.doctores, doctorId, true);
    assert DoctorIds(db.doctores) == DoctorIds(old(db.doctores));
    var nombre := NombreDoctor(db.doctores, doctorId);
    assert nombre == NombreDoctor(old(db.doctores), doctorId) by {
      NombreTrasFijar(old(db.doctores), doctorId, true);
    }
    if nombre.None? {
      assert db.doctores == old(db.doctores);
      return Err(DoctorNoEncontrado);
    }
    return Ok(nombre.value);
  }

  /** Changing the activo flag changes no name and, on an unknown id, nothing. */
  lemma {:induction false} NombreTrasFijar(s: seq<Doctor>, id: Option<int>, activo: bool)
    ensures NombreDoctor(FijarActivo(s, id, activo), id) == NombreDoctor(s, id)
    ensures NombreDoctor(s, id).None? ==> FijarActivo(s, id, activo) == s
  {
    if s != [] && id.Some? {
      assert FijarActivo(s, id, activo)[1..] == FijarActivo(s[1..], id, activo);
      NombreTrasFijar(s[1..], id, activo);
    }
  }

  /** cambiar_estado_doctor: activo is 1 exactly for DISPONIBLE and EN_CONSULTA. */
  function ActivoPara(estado: Option<string>): (activo: bool)
    ensures activo <==> estado == Some("DISPONIBLE") || estado == Some("EN_CONSULTA")
  {
    match estado
    case Some(e) => e in ["DISPONIBLE", "EN_CONSULTA"]
    case None => false
  }

  method CambiarEstadoDoctor(db: Database, doctorId: Option<int>, estado: Option<string>)
    requires db.Initialized()
    modifies db`doctores
    ensures db.Initialized()
    ensures db.doctores == FijarActivo(old(db.doctores), doctorId, ActivoPara(estado))
  {
    db.doctores := FijarActivo(db.doctores, doctorId, ActivoPara(estado));
    assert DoctorIds(db.doctores) == DoctorIds(old(db.doctores));
  }

  // ------------------------------------------------ llamar_siguiente_paciente

  /** `UPDATE turnos SET estado = "EN_ATENCION", timestamp_atencion = ? WHERE id = ?`. */
  function Atender(s: seq<Turno>, id: int, ahora: Timestamp): (r: seq<Turno>)
    ensures |r| == |s|
    ensures forall i :: 0 <= i < |s| && s[i].id != id ==> r[i] == s[i]
    ensures forall i :: 0 <= i < |s| && s[i].id == id ==> r[i] == s[i].(estado := EN_ATENCION, atencion := Some(ahora))
  {
    seq(|s|, i requires 0 <= i < |s| =>
      if s[i].id == id then s[i].(estado := EN_ATENCION, atencion := Some(ahora)) else s[i])
  }

  /** llamar_siguiente_paciente: put the doctor's earliest PENDIENTE turno
      EN_ATENCION (station unchanged) and answer the row as it was read,
      before the update; with none waiting, answer the error and change
      nothing. A column missing from the turnos table makes the SELECT raise,
      or the UPDATE once a turno was found. */
  method LlamarSiguiente(db: Database, doctorId: Option<int>, ahora: Timestamp) returns (r: Result<Turno, Rechazo>)
    requires db.Initialized()
    modifies db`turnos
    ensures db.Initialized()
    ensures var cola := ColumnaFaltante(COLUMNAS_COLA, db.esquema[TURNOS]);
            var atender := ColumnaFaltante(COLUMNAS_ATENDER, db.esquema[TURNOS]);
            var sig := SiguientePaciente(old(db.turnos), doctorId);
            && (cola.Some? ==> r == Err(ColumnaInexistente(cola.value)) && db.turnos == old(db.turnos))
            && (cola.None? && sig.None? ==> r == Err(NoHayPacientesEnEspera) && db.turnos == old(db.turnos))
            && (cola.None? && sig.Some? && atender.Some? ==>
                  r == Err(ColumnaInexistente(atender.value)) && db.turnos == old(db.turnos))
            && (cola.None? && sig.Some? && atender.None? ==>
                  r == Ok(sig.value) && db.turnos == Atender(old(db.turnos), sig.value.id, ahora))
  {
    var cola := ColumnaFaltante(COLUMNAS_COLA, db.esquema[TURNOS]);
    var sig := SiguientePaciente(db.turnos, doctorId);
    var atender := ColumnaFaltante(COLUMNAS_ATENDER, db.esquema[TURNOS]);
    if cola.Some? {
      r := Err(ColumnaInexistente(cola.value));
    } else if sig.None? {
      r := Err(NoHayPacientesEnEspera);
    } else if atender.Some? {
      r := Err(ColumnaInexistente(atender.value));
    } else {
      AtenderConservaIds(db.turnos, sig.value.id, ahora);
      db.turnos := Atender(db.turnos, sig.value.id, ahora);
      r := Ok(sig.value);
    }
  }

  lemma AtenderConservaIds(s: seq<Turno>, id: int, ahora: Timestamp)
    ensures TurnoIds(Atender(s, id, ahora)) == TurnoIds(s)
  {
    assert |TurnoIds(Atender(s, id, ahora))| == |TurnoIds(s)|;
  }

  /** Calls serve a doctor's queue in creation order: the called turno leaves
      the waiting list and the next call picks a turno created no earlier. */
  lemma LlamadasEnOrden(s: seq<Turno>, doctor: Option<int>, ahora: Timestamp)
    requires forall i, j :: 0 <= i < j < |s| ==> s[i].id != s[j].id
    requires SiguientePaciente(s, doctor).Some?
    ensures var t := SiguientePaciente(s, doctor).value;
            var despues := Atender(s, t.id, ahora);
            && (forall u :: u in despues && PendienteDe(u, doctor) ==> u in s && u.id != t.id)
            && (SiguientePaciente(despues, doctor).Some? ==>
                  t.creado.segundos <= SiguientePaciente(despues, doctor).value.creado.segundos)
  {
    var t := SiguientePaciente(s, doctor).value;
    var despues := Atender(s, t.id, ahora);
    forall u | u in despues && PendienteDe(u, doctor) ensures u in s && u.id != t.id {
      var i :| 0 <= i < |despues| && despues[i] == u;
      assert s[i].id != t.id;
      assert u == s[i];
    }
  }

  // ------------------------------------------------------ finalizar_consulta

  /** The destination table: FARMACIA 5, ASESORIA_VISUAL 6,
      ESTUDIOS_ESPECIALES 7, SALIDA 8, anything else (or nothing) 8. */
  function EstacionDestino(destino: Option<string>): (e: int)
    ensures destino == Some("FARMACIA") ==> e == 5
    ensures destino == Some("ASESORIA_VISUAL") ==> e == 6
    ensures destino == Some("ESTUDIOS_ESPECIALES") ==> e == 7
    ensures destino !in {Some("FARMACIA"), Some("ASESORIA_VISUAL"), Some("ESTUDIOS_ESPECIALES")} ==> e == 8
  {
    match destino
    case Some("FARMACIA") => 5
    case Some("ASESORIA_VISUAL") => 6
    case Some("ESTUDIOS_ESPECIALES") => 7
    case _ => 8
  }

  /** `CAST(x AS INTEGER)` of a span of seconds in minutes: truncation
      toward zero, unlike Dafny's `/`. */
  function MinutosTruncados(segundos: int): (m: int)
    ensures segundos >= 0 ==> 0 <= m * 60 <= segundos < m * 60 + 60
    ensures segundos < 0 ==> m * 60 - 60 < segundos <= m * 60 <= 0
  {
    if segundos >= 0 then segundos / 60 else -((-segundos) / 60)
  }

  /** `UPDATE turnos SET estado = "FINALIZADO", estacion_actual = ?,
      tiempo_total = <minutes since timestamp_atencion> WHERE id = ?`; the
      minutes are NULL when the turno was never attended. */
  function Finalizar(s: seq<Turno>, id: Option<int>, estacion: int, ahora: Timestamp): (r: seq<Turno>)
    ensures |r| == |s|
    ensures forall i :: 0 <= i < |s| && (id.None? || s[i].id != id.value) ==> r[i] == s[i]
    ensures forall i :: 0 <= i < |s| && id.Some? && s[i].id == id.value ==>
              && r[i].estado == FINALIZADO && r[i].estacionActual == estacion
              && r[i].tiempoTotal == (match s[i].atencion
                                      case None => None
                                      case Some(a) => Some(MinutosTruncados(ahora.segundos - a.segundos)))
              && r[i] == s[i].(estado := r[i].estado, estacionActual := r[i].estacionActual, tiempoTotal := r[i].tiempoTotal)
  {
    seq(|s|, i requires 0 <= i < |s| =>
      if id.Some? && s[i].id == id.value then
        s[i].(estado := FINALIZADO, estacionActual := estacion,
              tiempoTotal := match s[i].atencion
                             case None => None
                             case Some(a) => Some(MinutosTruncados(ahora.segundos - a.segundos)))
      else s[i])
  }

  /** `data.get('vuelve_conmigo', False)` and `data.get('notas', '')`. */
  function Vuelve(vuelveConmigo: Option<bool>): bool { match vuelveConmigo case None => false case Some(b) => b }

  function Notas(notas: Option<string>): string { match notas case None => "" case Some(n) => n }

  function DetalleFinalizado(destino: Option<string>, vuelveConmigo: Option<bool>, notas: Option<string>): string
  {
    "Destino: " + PyStr(destino) + ", Vuelve: " + PyBool(Vuelve(vuelveConmigo)) + ", Notas: " + Notas(notas)
  }

  /** finalizar_consulta: finish the turno at the mapped station and record
      FINALIZADO through `conexion` as in CrearTurno. Whatever
      `vuelve_conmigo` says, no turno is created. On a turnos table without
      a column the UPDATE names it raises before anything is recorded. */
  method FinalizarConsulta(db: Database, conexion: Estadisticas.Conexion, turnoId: Option<int>, destino: Option<string>,
                           vuelveConmigo: Option<bool>, notas: Option<string>, ahora: Timestamp)
    returns (r: Result<(), Rechazo>)
    requires db.Initialized()
    modifies db`turnos, db`historial, db`sigHistorial
    ensures db.Initialized()
    ensures r.Err? <==> ColumnaFaltante(COLUMNAS_FINALIZAR, db.esquema[TURNOS]).Some?
    ensures r.Err? ==> && r.error == ColumnaInexistente(ColumnaFaltante(COLUMNAS_FINALIZAR, db.esquema[TURNOS]).value)
                       && db.turnos == old(db.turnos)
    ensures r.Ok? ==> db.turnos == Finalizar(old(db.turnos), turnoId, EstacionDestino(destino), ahora)
    ensures |db.turnos| == |old(db.turnos)|
    ensures r.Ok? && turnoId.Some? && conexion.Directa? ==>
              && db.historial == old(db.historial) + [NuevoHistorial(old(db.sigHistorial), turnoId.value, FINALIZADO,
                   DetalleFinalizado(destino, vuelveConmigo, notas), None, ahora)]
              && db.sigHistorial == old(db.sigHistorial) + 1
    ensures r.Err? || turnoId.None? || conexion.Contexto? ==>
              db.historial == old(db.historial) && db.sigHistorial == old(db.sigHistorial)
  {
    var falta := ColumnaFaltante(COLUMNAS_FINALIZAR, db.esquema[TURNOS]);
    if falta.Some? {
      return Err(ColumnaInexistente(falta.value));
    }
    db.turnos := Finalizar(db.turnos, turnoId, EstacionDestino(destino), ahora);
    assert TurnoIds(db.turnos) == TurnoIds(old(db.turnos));
    var _ := Estadisticas.RegistrarHistorial(db, conexion, turnoId, FINALIZADO,
      DetalleFinalizado(destino, vuelveConmigo, notas), None, ahora);
    return Ok(());
  }
}
