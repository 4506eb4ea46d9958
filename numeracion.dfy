/** Daily ticket numbering of crear_turno: "A" followed by a counter padded
    with zeros to at least three digits, continuing from the number of the
    day's turno with the highest id. */
module Numeracion {
  import opened Wrappers
  import opened Decimal
  import opened Tablas

  datatype ErrorCreacion =
    | SufijoInvalido(sufijo: string)   // int() raised ValueError
    | CampoFaltante(campo: string)     // data[...] raised KeyError
    | SinColumna(columna: string)      // the turnos table lacks a column the SQL names

  /** The display number for counter n. */
  function NumeroTurno(n: int): string
  {
    "A" + IntPad(n, 3)
  }

  /** `numero[1:]`: everything after the prefix letter ("" for ""). */
  function Sufijo(numero: string): string
  {
    if |numero| >= 1 then numero[1..] else ""
  }

  /** The number for the next turno, given the number of today's turno with
      the highest id (None when there is none today). */
  function SiguienteNumero(ultimo: Option<string>): (r: Result<string, ErrorCreacion>)
    ensures ultimo.None? ==> r == Ok("A001")
    ensures ultimo.Some? ==> (r.Ok? <==> ParseInt(Sufijo(ultimo.value)).Some?)
    ensures ultimo.Some? && r.Ok? ==>
      ParseInt(Sufijo(r.value)) == Some(ParseInt(Sufijo(ultimo.value)).value + 1)
    ensures ultimo.Some? && r.Ok? ==> r.value == NumeroTurno(ParseInt(Sufijo(ultimo.value)).value + 1)
    ensures r.Err? ==> r.error == SufijoInvalido(Sufijo(ultimo.value))
    ensures r.Ok? ==> |r.value| >= 4 && r.value[0] == 'A'
  {
    match ultimo
    case None => Ok("A001")
    case Some(numero) =>
      match ParseInt(Sufijo(numero))
      case None => Err(SufijoInvalido(Sufijo(numero)))
      case Some(k) =>
        IntPadRoundTrip(k + 1, 3);
        assert Sufijo(NumeroTurno(k + 1)) == IntPad(k + 1, 3);
        PadLength(k + 1);
        Ok(NumeroTurno(k + 1))
  }

  lemma PadLength(n: int)
    ensures |IntPad(n, 3)| >= 3
  {
    if n >= 0 {
      ZeroPadWidth(n, 3);
    } else {
      ZeroPadWidth(-n, 2);
    }
  }

  /** `DATE(timestamp_creacion) = hoy`. */
  predicate DelDia(t: Turno, hoy: string)
  {
    DateText(t.creado.fecha) == hoy
  }

  /** The day's turno with the highest id (the SELECT ... WHERE
      DATE(timestamp_creacion) = ? ORDER BY id DESC LIMIT 1). */
  function UltimoDeHoy(turnos: seq<Turno>, hoy: string): (r: Option<Turno>)
    ensures r.None? <==> forall i :: 0 <= i < |turnos| ==> !DelDia(turnos[i], hoy)
    ensures r.Some? ==> r.value in turnos && DelDia(r.value, hoy)
    ensures r.Some? ==> forall i :: 0 <= i < |turnos| && DelDia(turnos[i], hoy) ==>
                          turnos[i].id <= r.value.id
  {
    if turnos == [] then None
    else
      var resto := UltimoDeHoy(turnos[1..], hoy);
      assert forall i :: 1 <= i < |turnos| ==> turnos[i] == turnos[1..][i - 1];
      if !DelDia(turnos[0], hoy) then resto
      else if resto.Some? && resto.value.id >= turnos[0].id then resto
      else Some(turnos[0])
  }

  /** The number crear_turno computes for a turno created on day `hoy`. */
  function NumeroDelDia(turnos: seq<Turno>, hoy: string): Result<string, ErrorCreacion>
  {
    SiguienteNumero(match UltimoDeHoy(turnos, hoy) case None => None case Some(t) => Some(t.numero))
  }

  /** The first turno of a day is A001. */
  lemma PrimeroDelDia(turnos: seq<Turno>, hoy: string)
    requires forall i :: 0 <= i < |turnos| ==> !DelDia(turnos[i], hoy)
    ensures NumeroDelDia(turnos, hoy) == Ok(NumeroTurno(1))
  {
    assert NatText(1) == "1";
    assert Zeros(1) == "0";
    assert Zeros(2) == "00";
    assert ZeroPad(1, 3) == "001";
    assert NumeroTurno(1) == "A001";
  }

  /** The counter read back from a generated number is the one written. */
  lemma NumeroSucesivo(k: int)
    ensures SiguienteNumero(Some(NumeroTurno(k))) == Ok(NumeroTurno(k + 1))
  {
    IntPadRoundTrip(k, 3);
    assert Sufijo(NumeroTurno(k)) == IntPad(k, 3);
  }

  /** After a turno numbered with counter k is created today (it gets an id
      above every existing one), the next creation today gets counter k + 1:
      so a day's creations are numbered A001, A002, A003, ... */
  lemma SiguienteTrasAlta(turnos: seq<Turno>, t: Turno, hoy: string, k: int)
    requires DelDia(t, hoy) && t.numero == NumeroTurno(k)
    requires forall i :: 0 <= i < |turnos| ==> turnos[i].id < t.id
    ensures NumeroDelDia(turnos + [t], hoy) == Ok(NumeroTurno(k + 1))
  {
    UltimoTrasAlta(turnos, t, hoy);
    NumeroSucesivo(k);
  }

  /** A row appended with an id above every existing one, on day `hoy`, is
      that day's last turno. */
  lemma {:induction false} UltimoTrasAlta(turnos: seq<Turno>, t: Turno, hoy: string)
    requires DelDia(t, hoy)
    requires forall i :: 0 <= i < |turnos| ==> turnos[i].id < t.id
    ensures UltimoDeHoy(turnos + [t], hoy) == Some(t)
  {
    if turnos != [] {
      assert (turnos + [t])[1..] == turnos[1..] + [t];
      UltimoTrasAlta(turnos[1..], t, hoy);
    }
  }

  /** Three digits is a minimum width: counters below 1000 give four
      characters, from 1000 on the counter is written in full (A1000). */
  lemma AnchoMinimo(k: nat)
    ensures k < 1000 ==> |NumeroTurno(k)| == 4
    ensures k >= 1000 ==> NumeroTurno(k) == "A" + NatText(k)
  {
    assert Pow10(3) == 1000;
    ZeroPadWidth(k, 3);
  }
}
