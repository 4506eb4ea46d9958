/** limpiar_todo: the maintenance script that frees every room and marks
    every doctor absent, in one transaction. */
module Limpieza {
  import opened Wrappers
  import opened Tablas
  import Fix

  /** `UPDATE consultorios SET ocupado = 0, doctor_actual = NULL,
      timestamp_ocupado = NULL` (no WHERE: every row). */
  function Liberar(s: seq<Consultorio>): (r: seq<Consultorio>)
    ensures |r| == |s|
    ensures forall i :: 0 <= i < |r| ==> !r[i].ocupado && r[i].doctorActual.None? && r[i].timestampOcupado.None?
    ensures forall i :: 0 <= i < |r| ==> r[i].id == s[i].id && r[i].numero == s[i].numero
  {
    seq(|s|, i requires 0 <= i < |s| => s[i].(ocupado := false, doctorActual := None, timestampOcupado := None))
  }

  lemma LiberarIdempotente(s: seq<Consultorio>)
    ensures Liberar(Liberar(s)) == Liberar(s)
  {
    var una := Liberar(s);
    forall i | 0 <= i < |s| ensures Liberar(una)[i] == una[i] {
    }
  }

  /** What the script reports: the two `changes()` counts and the final
      (numero, ocupado) and (nombre, activo) listings. */
  datatype Informe = Informe(
    consultoriosLiberados: nat,
    doctoresActualizados: nat,
    consultorios: seq<(string, bool)>,
    doctores: seq<(string, bool)>)

  function EstadoConsultorios(s: seq<Consultorio>): (r: seq<(string, bool)>)
    ensures |r| == |s| && forall i :: 0 <= i < |s| ==> r[i] == (s[i].numero, s[i].ocupado)
  {
    seq(|s|, i requires 0 <= i < |s| => (s[i].numero, s[i].ocupado))
  }

  function EstadoDoctores(s: seq<Doctor>): (r: seq<(string, bool)>)
    ensures |r| == |s| && forall i :: 0 <= i < |s| ==> r[i] == (s[i].nombre, s[i].activo)
  {
    seq(|s|, i requires 0 <= i < |s| => (s[i].nombre, s[i].activo))
  }

  /** limpiar_todo. A missing table makes its UPDATE raise; the script then
      stops before the commit, so nothing changes. Otherwise every room is
      free and every doctor absent, no row is added or removed, and each
      `changes()` count is the number of rows, since an UPDATE without WHERE
      matches them all. */
  method LimpiarTodo(db: Database) returns (r: Result<Informe, string>)
    requires db.Valid()
    modifies db`consultorios, db`doctores
    ensures db.Valid()
    ensures r.Ok? <==> CONSULTORIOS in db.esquema && DOCTORES in db.esquema
    ensures r.Err? ==> db.consultorios == old(db.consultorios) && db.doctores == old(db.doctores)
    ensures r.Ok? ==> && db.consultorios == Liberar(old(db.consultorios))
                      && db.doctores == Fix.Ausentes(old(db.doctores))
    ensures r.Ok? ==> && r.value.consultoriosLiberados == |old(db.consultorios)|
                      && r.value.doctoresActualizados == |old(db.doctores)|
                      && r.value.consultorios == EstadoConsultorios(db.consultorios)
                      && r.value.doctores == EstadoDoctores(db.doctores)
    ensures r.Ok? ==> (forall c :: c in r.value.consultorios ==> !c.1) && (forall d :: d in r.value.doctores ==> !d.1)
  {
    if CONSULTORIOS !in db.esquema {
      return Err("no such table: consultorios");
    }
    var consultorios0 := db.consultorios;
    db.consultorios := Liberar(db.consultorios);
    var liberados := |db.consultorios|;
    assert ConsultorioIds(db.consultorios) == ConsultorioIds(consultorios0);
    if DOCTORES !in db.esquema {
      // The exception ends the script before the commit: the open
      // transaction is rolled back.
      db.consultorios := consultorios0;
      return Err("no such table: doctores");
    }
    db.doctores := Fix.Ausentes(db.doctores);
    var actualizados := |db.doctores|;
    assert DoctorIds(db.doctores) == DoctorIds(old(db.doctores));
    r := Ok(Informe(liberados, actualizados, EstadoConsultorios(db.consultorios), EstadoDoctores(db.doctores)));
  }

  /** The two updates of limpiar_todo as one state function on the two tables. */
  function Limpiar(c: seq<Consultorio>, d: seq<Doctor>): (seq<Consultorio>, seq<Doctor>)
  {
    (Liberar(c), Fix.Ausentes(d))
  }

  /** Running the script twice leaves the same tables as running it once. */
  lemma LimpiarIdempotente(c: seq<Consultorio>, d: seq<Doctor>)
    ensures var una := Limpiar(c, d); Limpiar(una.0, una.1) == una
  {
    LiberarIdempotente(c);
    Fix.AusentesIdempotente(d);
  }
}
