/** The read-only queries of the request handlers: the active-turno board,
    a doctor's waiting list and its head, the stations offered for
    derivation and the on-duty doctors. Each SELECT is a function over the
    table rows. */
module Consultas {
  import opened Wrappers
  import opened Tablas

  /** The sort key of `ORDER BY t.timestamp_creacion`, ascending or descending. */
  function Clave(t: Turno, asc: bool): int
  {
    if asc then t.creado.segundos else -t.creado.segundos
  }

  ghost predicate Ordenada(s: seq<Turno>, asc: bool)
  {
    forall i, j :: 0 <= i < j < |s| ==> Clave(s[i], asc) <= Clave(s[j], asc)
  }

  /** Insert t in front of the first row whose key is not smaller. */
  function Insertar(t: Turno, s: seq<Turno>, asc: bool): (r: seq<Turno>)
    requires Ordenada(s, asc)
    ensures |r| == |s| + 1
    ensures r[0] == t || (|s| > 0 && r[0] == s[0])
    ensures Ordenada(r, asc)
    ensures multiset(r) == multiset(s) + multiset{t}
  {
    if s == [] then [t]
    else if Clave(t, asc) <= Clave(s[0], asc) then [t] + s
    else
      assert s == [s[0]] + s[1..];
      [s[0]] + Insertar(t, s[1..], asc)
  }

  /** `ORDER BY timestamp_creacion [ASC|DESC]`: rows with equal timestamps
      keep their table order. */
  function Ordenar(s: seq<Turno>, asc: bool): (r: seq<Turno>)
    ensures |r| == |s|
    ensures Ordenada(r, asc)
    ensures multiset(r) == multiset(s)
  {
    if s == [] then []
    else
      assert s == [s[0]] + s[1..];
      Insertar(s[0], Ordenar(s[1..], asc), asc)
  }

  /** `estado != "FINALIZADO" AND estado != "CANCELADO"`. */
  predicate EnCurso(t: Turno)
  {
    t.estado != FINALIZADO && t.estado != CANCELADO
  }

  /** `doctor_asignado = ? AND estado = "PENDIENTE"`; a NULL doctor_id
      matches nothing. */
  predicate PendienteDe(t: Turno, doctor: Option<int>)
  {
    doctor.Some? && t.doctorAsignado == doctor && t.estado == PENDIENTE
  }

  function FiltrarEnCurso(s: seq<Turno>): (r: seq<Turno>)
    ensures forall t :: t in r <==> t in s && EnCurso(t)
    ensures forall t :: multiset(r)[t] == (if EnCurso(t) then multiset(s)[t] else 0)
  {
    if s == [] then []
    else
      assert s == [s[0]] + s[1..];
      (if EnCurso(s[0]) then [s[0]] else []) + FiltrarEnCurso(s[1..])
  }

  function FiltrarPendientes(s: seq<Turno>, doctor: Option<int>): (r: seq<Turno>)
    ensures forall t :: t in r <==> t in s && PendienteDe(t, doctor)
    ensures forall t :: multiset(r)[t] == (if PendienteDe(t, doctor) then multiset(s)[t] else 0)
  {
    if s == [] then []
    else
      assert s == [s[0]] + s[1..];
      (if PendienteDe(s[0], doctor) then [s[0]] else []) + FiltrarPendientes(s[1..], doctor)
  }

  /** A turno as the handlers return it: the row with the names its LEFT
      JOINs bring along (NULL when no row matches). */
  datatype TurnoVista = TurnoVista(turno: Turno, estacionNombre: Option<string>, doctorNombre: Option<string>)

  /** `LEFT JOIN estaciones e ON t.estacion_actual = e.id`. */
  function NombreEstacion(estaciones: seq<Estacion>, id: int): (r: Option<string>)
    ensures r.None? <==> forall k :: 0 <= k < |estaciones| ==> estaciones[k].id != id
    ensures r.Some? ==> exists k :: 0 <= k < |estaciones| && estaciones[k].id == id && estaciones[k].nombre == r.value
  {
    if estaciones == [] then None
    else if estaciones[0].id == id then Some(estaciones[0].nombre)
    else
      var r := NombreEstacion(estaciones[1..], id);
      assert forall k :: 1 <= k < |estaciones| ==> estaciones[k] == estaciones[1..][k - 1];
      r
  }

  /** `LEFT JOIN doctores d ON t.doctor_asignado = d.id`. */
  function NombreDoctor(doctores: seq<Doctor>, id: Option<int>): (r: Option<string>)
    ensures r.None? <==> id.None? || forall k :: 0 <= k < |doctores| ==> doctores[k].id != id.value
    ensures r.Some? ==> exists k :: 0 <= k < |doctores| && doctores[k].id == id.value && doctores[k].nombre == r.value
  {
    if id.None? || doctores == [] then None
    else if doctores[0].id == id.value then Some(doctores[0].nombre)
    else
      var r := NombreDoctor(doctores[1..], id);
      assert forall k :: 1 <= k < |doctores| ==> doctores[k] == doctores[1..][k - 1];
      r
  }

  function Vistas(s: seq<Turno>, estaciones: seq<Estacion>, doctores: seq<Doctor>, conDoctor: bool): (r: seq<TurnoVista>)
    ensures |r| == |s|
    ensures forall i :: 0 <= i < |s| ==> r[i].turno == s[i]
    ensures forall i :: 0 <= i < |s| ==> r[i].estacionNombre == NombreEstacion(estaciones, s[i].estacionActual)
    ensures forall i :: 0 <= i < |s| ==> r[i].doctorNombre == (if conDoctor then NombreDoctor(doctores, s[i].doctorAsignado) else None)
  {
    seq(|s|, i requires 0 <= i < |s| =>
      TurnoVista(s[i], NombreEstacion(estaciones, s[i].estacionActual),
                 if conDoctor then NombreDoctor(doctores, s[i].doctorAsignado) else None))
  }

  /** The rows of a list of views. */
  function TurnosDe(r: seq<TurnoVista>): (s: seq<Turno>)
    ensures |s| == |r| && forall i :: 0 <= i < |r| ==> s[i] == r[i].turno
  {
    seq(|r|, i requires 0 <= i < |r| => r[i].turno)
  }

  /** Sorting keeps exactly the rows it was given. */
  lemma OrdenarMismasFilas(s: seq<Turno>, asc: bool)
    ensures forall t :: t in Ordenar(s, asc) <==> t in s
  {
    var r := Ordenar(s, asc);
    assert multiset(r) == multiset(s);
    forall t ensures t in r <==> t in s {
      assert t in r <==> t in multiset(r);
      assert t in s <==> t in multiset(s);
    }
  }

  /** get_turnos: every turno neither finished nor cancelled, newest first. */
  function TurnosEnCurso(turnos: seq<Turno>, estaciones: seq<Estacion>, doctores: seq<Doctor>): (r: seq<TurnoVista>)
    ensures forall t :: t in TurnosDe(r) <==> t in turnos && EnCurso(t)
    ensures forall t :: multiset(TurnosDe(r))[t] == (if EnCurso(t) then multiset(turnos)[t] else 0)
    ensures forall i, j :: 0 <= i < j < |r| ==> r[i].turno.creado.segundos >= r[j].turno.creado.segundos
    ensures forall i :: 0 <= i < |r| ==>
              && r[i].estacionNombre == NombreEstacion(estaciones, r[i].turno.estacionActual)
              && r[i].doctorNombre == NombreDoctor(doctores, r[i].turno.doctorAsignado)
  {
    var s := Ordenar(FiltrarEnCurso(turnos), false);
    OrdenarMismasFilas(FiltrarEnCurso(turnos), false);
    var r := Vistas(s, estaciones, doctores, true);
    assert TurnosDe(r) == s;
    r
  }

  /** get_turnos_doctor: the doctor's PENDIENTE turnos, oldest first. */
  function TurnosDoctor(turnos: seq<Turno>, estaciones: seq<Estacion>, doctor: Option<int>): (r: seq<TurnoVista>)
    ensures forall t :: t in TurnosDe(r) <==> t in turnos && PendienteDe(t, doctor)
    ensures forall t :: multiset(TurnosDe(r))[t] == (if PendienteDe(t, doctor) then multiset(turnos)[t] else 0)
    ensures forall i, j :: 0 <= i < j < |r| ==> r[i].turno.creado.segundos <= r[j].turno.creado.segundos
    ensures forall i :: 0 <= i < |r| ==>
              r[i].estacionNombre == NombreEstacion(estaciones, r[i].turno.estacionActual) && r[i].doctorNombre.None?
  {
    var s := Ordenar(FiltrarPendientes(turnos, doctor), true);
    OrdenarMismasFilas(FiltrarPendientes(turnos, doctor), true);
    var r := Vistas(s, estaciones, [], false);
    assert TurnosDe(r) == s;
    r
  }

  /** The row llamar_siguiente_paciente picks: the same query with LIMIT 1.
      None exactly when the doctor has no PENDIENTE turno; otherwise no
      other PENDIENTE turno of the doctor was created earlier. */
  function SiguientePaciente(turnos: seq<Turno>, doctor: Option<int>): (r: Option<Turno>)
    ensures r.None? <==> forall t :: t in turnos ==> !PendienteDe(t, doctor)
    ensures r.Some? ==> r.value in turnos && PendienteDe(r.value, doctor)
    ensures r.Some? ==> forall t :: t in turnos && PendienteDe(t, doctor) ==>
                          r.value.creado.segundos <= t.creado.segundos
  {
    var s := Ordenar(FiltrarPendientes(turnos, doctor), true);
    OrdenarMismasFilas(FiltrarPendientes(turnos, doctor), true);
    if s == [] then None
    else
      assert forall t :: t in s ==> s[0].creado.segundos <= t.creado.segundos;
      assert s[0] in s;
      Some(s[0])
  }

  /** The turno call-next picks is the head of the doctor's waiting list. */
  lemma SiguienteEsCabeza(turnos: seq<Turno>, estaciones: seq<Estacion>, doctor: Option<int>)
    ensures var lista := TurnosDoctor(turnos, estaciones, doctor);
            SiguientePaciente(turnos, doctor) == (if lista == [] then None else Some(lista[0].turno))
  {
  }

  /** get_estaciones_disponibles: every station except reception (1) and exit (8). */
  function EstacionesDisponibles(estaciones: seq<Estacion>): (r: seq<Estacion>)
    ensures forall e :: e in r <==> e in estaciones && e.id != 1 && e.id != 8
    ensures |r| <= |estaciones|
  {
    if estaciones == [] then []
    else
      var e := estaciones[0];
      assert estaciones == [e] + estaciones[1..];
      (if e.id != 1 && e.id != 8 then [e] else []) + EstacionesDisponibles(estaciones[1..])
  }

  /** get_doctores: the doctors whose activo flag is set. */
  function DoctoresActivos(doctores: seq<Doctor>): (r: seq<Doctor>)
    ensures forall d :: d in r <==> d in doctores && d.activo
    ensures |r| <= |doctores|
  {
    if doctores == [] then []
    else
      var d := doctores[0];
      assert doctores == [d] + doctores[1..];
      (if d.activo then [d] else []) + DoctoresActivos(doctores[1..])
  }
}
