/** The tables of the clinic's database as records, the column defaults of
    their CREATE TABLE statements, and the Database class that holds them.
    Every timestamp is given by the caller: `fecha` is the calendar date
    SQLite's DATE() reads from the stored text, `segundos` the instant in
    whole seconds from a fixed origin. */
module Tablas {
  import opened Wrappers
  import opened Decimal

  datatype Date = Date(anio: nat, mes: nat, dia: nat)

  datatype Timestamp = Timestamp(fecha: Date, segundos: int)

  /** `DATE(ts)`: the 'YYYY-MM-DD' text of a stored timestamp. */
  function DateText(d: Date): string
  {
    JoinDash([ZeroPad(d.anio, 4), ZeroPad(d.mes, 2), ZeroPad(d.dia, 2)])
  }

  /** `strftime('%Y-%m', ts)`. */
  function MonthText(d: Date): string
  {
    JoinDash([ZeroPad(d.anio, 4), ZeroPad(d.mes, 2)])
  }

  /** The parts joined by '-'. */
  function JoinDash(parts: seq<string>): string
  {
    if |parts| == 0 then "" else if |parts| == 1 then parts[0] else parts[0] + "-" + JoinDash(parts[1..])
  }

  // Values of turnos.estado that the handlers write or test.
  const PENDIENTE: string := "PENDIENTE"
  const EN_ATENCION: string := "EN_ATENCION"
  const FINALIZADO: string := "FINALIZADO"
  const CANCELADO: string := "CANCELADO"

  // Values of doctores.estado_detallado.
  const AUSENTE: string := "AUSENTE"

  // Table names.
  const DOCTORES: string := "doctores"
  const CONSULTORIOS: string := "consultorios"
  const ESTACIONES: string := "estaciones"
  const TURNOS: string := "turnos"
  const HISTORIAL: string := "historial_turnos"
  const MEDICIONES: string := "mediciones_calculos"

  datatype Doctor = Doctor(
    id: nat,
    nombre: string,
    especialidad: string,
    activo: bool,
    disponible: bool,
    estadoDetallado: string)

  datatype Consultorio = Consultorio(
    id: nat,
    numero: string,
    ocupado: bool,
    doctorActual: Option<int>,
    timestampOcupado: Option<Timestamp>)

  datatype Estacion = Estacion(id: nat, nombre: string, descripcion: string)

  datatype Turno = Turno(
    id: nat,
    numero: string,
    pacienteNombre: string,
    pacienteEdad: int,
    tipo: string,
    estado: string,
    estacionActual: int,
    estacionSiguiente: Option<int>,
    doctorAsignado: Option<int>,
    prioridad: int,
    creado: Timestamp,
    atencion: Option<Timestamp>,
    cancelado: Option<Timestamp>,
    razonCancelacion: Option<string>,
    tiempoTotal: Option<int>)

  datatype Historial = Historial(
    id: nat,
    turnoId: int,
    accion: string,
    detalles: string,
    usuario: string,
    timestamp: Timestamp)

  /** A doctores row inserted with only nombre and especialidad. */
  function NuevoDoctor(id: nat, nombre: string, especialidad: string): (d: Doctor)
    ensures d.id == id && d.nombre == nombre && d.especialidad == especialidad
    ensures !d.activo && d.disponible && d.estadoDetallado == AUSENTE
  {
    Doctor(id, nombre, especialidad, false, true, AUSENTE)
  }

  /** A consultorios row inserted with only its numero. */
  function NuevoConsultorio(id: nat, numero: string): (c: Consultorio)
    ensures c.id == id && c.numero == numero
    ensures !c.ocupado && c.doctorActual.None? && c.timestampOcupado.None?
  {
    Consultorio(id, numero, false, None, None)
  }

  /** A turnos row inserted with the columns crear_turno names; `tipo` None
      stands for an INSERT that leaves the column out. Every column the
      INSERT does not name takes its default. */
  function NuevoTurno(id: nat, numero: string, nombre: string, edad: int, tipo: Option<string>,
                      estacion: int, doctor: Option<int>, ahora: Timestamp): (t: Turno)
    ensures t.id == id && t.numero == numero && t.pacienteNombre == nombre && t.pacienteEdad == edad
    ensures t.tipo == (if tipo.Some? then tipo.value else "CITA")
    ensures t.estado == PENDIENTE && t.prioridad == 1 && t.creado == ahora
    ensures t.estacionActual == estacion && t.doctorAsignado == doctor && t.estacionSiguiente.None?
    ensures t.atencion.None? && t.cancelado.None? && t.razonCancelacion.None? && t.tiempoTotal.None?
  {
    Turno(id, numero, nombre, edad, match tipo case Some(x) => x case None => "CITA",
          PENDIENTE, estacion, None, doctor, 1, ahora, None, None, None, None)
  }

  /** A historial_turnos row; `usuario` None leaves the column to its default. */
  function NuevoHistorial(id: nat, turnoId: int, accion: string, detalles: string,
                          usuario: Option<string>, ahora: Timestamp): (h: Historial)
    ensures h.id == id && h.turnoId == turnoId && h.accion == accion && h.detalles == detalles
    ensures h.usuario == (if usuario.Some? then usuario.value else "sistema")
    ensures h.timestamp == ahora
  {
    Historial(id, turnoId, accion, detalles, match usuario case Some(u) => u case None => "sistema", ahora)
  }

  /** Row ids in table order. */
  function DoctorIds(s: seq<Doctor>): (ids: seq<nat>)
    ensures |ids| == |s| && forall i :: 0 <= i < |s| ==> ids[i] == s[i].id
  {
    seq(|s|, i requires 0 <= i < |s| => s[i].id)
  }

  function ConsultorioIds(s: seq<Consultorio>): (ids: seq<nat>)
    ensures |ids| == |s| && forall i :: 0 <= i < |s| ==> ids[i] == s[i].id
  {
    seq(|s|, i requires 0 <= i < |s| => s[i].id)
  }

  function EstacionIds(s: seq<Estacion>): (ids: seq<nat>)
    ensures |ids| == |s| && forall i :: 0 <= i < |s| ==> ids[i] == s[i].id
  {
    seq(|s|, i requires 0 <= i < |s| => s[i].id)
  }

  function TurnoIds(s: seq<Turno>): (ids: seq<nat>)
    ensures |ids| == |s| && forall i :: 0 <= i < |s| ==> ids[i] == s[i].id
  {
    seq(|s|, i requires 0 <= i < |s| => s[i].id)
  }

  function HistorialIds(s: seq<Historial>): (ids: seq<nat>)
    ensures |ids| == |s| && forall i :: 0 <= i < |s| ==> ids[i] == s[i].id
  {
    seq(|s|, i requires 0 <= i < |s| => s[i].id)
  }

  /** INTEGER PRIMARY KEY AUTOINCREMENT: rows in rowid order, every id
      positive and below the next id the table will hand out. */
  ghost predicate Autoincrement(ids: seq<nat>, siguiente: nat)
  {
    && (forall i, j :: 0 <= i < j < |ids| ==> ids[i] < ids[j])
    && (forall i :: 0 <= i < |ids| ==> 1 <= ids[i] < siguiente)
    && siguiente >= 1
  }

  /** A table that does not exist has no rows and has never handed out an id. */
  ghost predicate Absent<T>(esquema: map<string, seq<string>>, tabla: string, filas: seq<T>, siguiente: nat)
  {
    tabla !in esquema ==> filas == [] && siguiente == 1
  }

  /** A column a statement names that its table lacks, the first in the
      order given, or None when the table has them all. SQLite refuses such
      a statement as a whole with "no such column". */
  function ColumnaFaltante(nombradas: seq<string>, columnas: seq<string>): (r: Option<string>)
    ensures r.None? <==> forall c :: c in nombradas ==> c in columnas
    ensures r.Some? ==> r.value in nombradas && r.value !in columnas
  {
    if nombradas == [] then None
    else if nombradas[0] !in columnas then Some(nombradas[0])
    else ColumnaFaltante(nombradas[1..], columnas)
  }

  /** The database file: the schema (table name to column names) and the
      rows of each table the handlers use, with each table's next id. */
  class Database {
    var esquema: map<string, seq<string>>
    var doctores: seq<Doctor>
    var consultorios: seq<Consultorio>
    var estaciones: seq<Estacion>
    var turnos: seq<Turno>
    var historial: seq<Historial>
    var sigDoctor: nat
    var sigConsultorio: nat
    var sigEstacion: nat
    var sigTurno: nat
    var sigHistorial: nat

    ghost predicate Valid()
      reads this
    {
      && Autoincrement(DoctorIds(doctores), sigDoctor)
      && Autoincrement(ConsultorioIds(consultorios), sigConsultorio)
      && Autoincrement(EstacionIds(estaciones), sigEstacion)
      && Autoincrement(TurnoIds(turnos), sigTurno)
      && Autoincrement(HistorialIds(historial), sigHistorial)
      && Absent(esquema, DOCTORES, doctores, sigDoctor)
      && Absent(esquema, CONSULTORIOS, consultorios, sigConsultorio)
      && Absent(esquema, ESTACIONES, estaciones, sigEstacion)
      && Absent(esquema, TURNOS, turnos, sigTurno)
      && Absent(esquema, HISTORIAL, historial, sigHistorial)
      // consultorios.numero is UNIQUE
      && (forall i, j :: 0 <= i < j < |consultorios| ==> consultorios[i].numero != consultorios[j].numero)
    }

    /** Every table the request handlers query exists (init_db has run). */
    ghost predicate Initialized()
      reads this
    {
      && Valid()
      && DOCTORES in esquema && CONSULTORIOS in esquema && ESTACIONES in esquema
      && TURNOS in esquema && HISTORIAL in esquema
    }

    /** A database file with no tables. */
    constructor Empty()
      ensures Valid()
      ensures esquema == map[] && doctores == [] && consultorios == [] && estaciones == []
      ensures turnos == [] && historial == []
      ensures sigDoctor == 1 && sigConsultorio == 1 && sigEstacion == 1 && sigTurno == 1 && sigHistorial == 1
    {
      esquema := map[];
      doctores, consultorios, estaciones, turnos, historial := [], [], [], [], [];
      sigDoctor, sigConsultorio, sigEstacion, sigTurno, sigHistorial := 1, 1, 1, 1, 1;
    }
  }
}
