/** fix_doctors: the maintenance script that marks every doctor absent. */
module Fix {
  import opened Wrappers
  import opened Tablas

  /** `UPDATE doctores SET activo = 0, estado_detallado = "AUSENTE"` (no
      WHERE: every row). */
  function Ausentes(s: seq<Doctor>): (r: seq<Doctor>)
    ensures |r| == |s|
    ensures forall i :: 0 <= i < |r| ==> !r[i].activo && r[i].estadoDetallado == AUSENTE
    ensures forall i :: 0 <= i < |r| ==> && r[i].id == s[i].id && r[i].nombre == s[i].nombre
                                         && r[i].especialidad == s[i].especialidad
                                         && r[i].disponible == s[i].disponible
  {
    seq(|s|, i requires 0 <= i < |s| => s[i].(activo := false, estadoDetallado := AUSENTE))
  }

  /** Marking everyone absent twice is marking them absent once. */
  lemma AusentesIdempotente(s: seq<Doctor>)
    ensures Ausentes(Ausentes(s)) == Ausentes(s)
  {
    var una := Ausentes(s);
    forall i | 0 <= i < |s| ensures Ausentes(una)[i] == una[i] {
    }
  }

  /** A doctor that is already inactive and absent is left exactly as it was. */
  lemma AusentesFijo(s: seq<Doctor>)
    requires forall i :: 0 <= i < |s| ==> !s[i].activo && s[i].estadoDetallado == AUSENTE
    ensures Ausentes(s) == s
  {
    forall i | 0 <= i < |s| ensures Ausentes(s)[i] == s[i] {
    }
  }

  /** One line of the printed listing: id, nombre, activo, estado_detallado. */
  datatype FilaDoctor = FilaDoctor(id: nat, nombre: string, activo: bool, estadoDetallado: string)

  function Listado(s: seq<Doctor>): (r: seq<FilaDoctor>)
    ensures |r| == |s|
    ensures forall i :: 0 <= i < |s| ==> r[i] == FilaDoctor(s[i].id, s[i].nombre, s[i].activo, s[i].estadoDetallado)
  {
    seq(|s|, i requires 0 <= i < |s| => FilaDoctor(s[i].id, s[i].nombre, s[i].activo, s[i].estadoDetallado))
  }

  /** fix_doctors: with no doctores table the UPDATE raises and nothing
      changes; otherwise every doctor is marked absent and the listing, read
      on the same connection before the commit, shows the new values. */
  method FixDoctors(db: Database) returns (r: Result<seq<FilaDoctor>, string>)
    requires db.Valid()
    modifies db`doctores
    ensures db.Valid()
    ensures r.Ok? <==> DOCTORES in db.esquema
    ensures r.Err? ==> db.doctores == old(db.doctores)
    ensures r.Ok? ==> db.doctores == Ausentes(old(db.doctores)) && r.value == Listado(db.doctores)
    ensures r.Ok? ==> forall f :: f in r.value ==> !f.activo && f.estadoDetallado == AUSENTE
  {
    if DOCTORES !in db.esquema {
      return Err("no such table: doctores");
    }
    db.doctores := Ausentes(db.doctores);
    assert DoctorIds(db.doctores) == DoctorIds(old(db.doctores));
    r := Ok(Listado(db.doctores));
  }
}
