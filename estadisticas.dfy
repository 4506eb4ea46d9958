/** Statistics over the turnos table and the history recorder. Every
    function here takes the connection the module obtained: `Directa` is a
    sqlite3 connection; `Contexto` is what the module actually gets when it
    calls the context-manager factory of db_utils.py without `with` — an
    object without `execute`, so every query raises and the function takes
    its exception branch. */
module Estadisticas {
  import opened Wrappers
  import opened Decimal
  import opened Tablas
  import opened Numeracion

  datatype Conexion = Directa | Contexto

  /** The connection estadisticas.py obtains as written. */
  const ConexionComoEscrita: Conexion := Contexto

  /** registrar_historial: append one history row and answer True, or answer
      False (and change nothing) when the insert raises — because the
      connection cannot execute, because turno_id is NULL and the column is
      NOT NULL, or because the table does not exist. */
  method RegistrarHistorial(db: Database, conexion: Conexion, turnoId: Option<int>, accion: string,
                            detalles: string, usuario: Option<string>, ahora: Timestamp)
    returns (ok: bool)
    requires db.Valid()
    modifies db`historial, db`sigHistorial
    ensures db.Valid()
    ensures ok <==> conexion.Directa? && turnoId.Some? && HISTORIAL in db.esquema
    ensures ok ==> db.historial == old(db.historial) + [NuevoHistorial(old(db.sigHistorial), turnoId.value, accion, detalles, usuario, ahora)]
    ensures ok ==> db.sigHistorial == old(db.sigHistorial) + 1
    ensures !ok ==> db.historial == old(db.historial) && db.sigHistorial == old(db.sigHistorial)
  {
    if conexion.Contexto? || turnoId.None? || HISTORIAL !in db.esquema {
      return false;
    }
    var fila := NuevoHistorial(db.sigHistorial, turnoId.value, accion, detalles, usuario, ahora);
    db.historial := db.historial + [fila];
    db.sigHistorial := db.sigHistorial + 1;
    assert HistorialIds(db.historial) == HistorialIds(old(db.historial)) + [fila.id];
    return true;
  }

  /** The column names `PRAGMA table_info(tabla)` lists: none for a table
      that does not exist. */
  function TableInfo(esquema: map<string, seq<string>>, tabla: string): seq<string>
  {
    if tabla in esquema then esquema[tabla] else []
  }

  /** verificar_columna_existe: whether the column is among those PRAGMA
      table_info lists; any exception answers False. True exactly for a
      column of an existing table read through a working connection. */
  function VerificarColumnaExiste(esquema: map<string, seq<string>>, tabla: string, columna: string,
                                  conexion: Conexion): (r: bool)
    ensures r <==> conexion.Directa? && tabla in esquema && columna in esquema[tabla]
  {
    match conexion
    case Contexto => false
    case Directa => columna in TableInfo(esquema, tabla)
  }

  // ---------------------------------------------------------------- counting

  function FiltrarDia(s: seq<Turno>, fecha: string): (r: seq<Turno>)
    ensures forall t :: t in r <==> t in s && DelDia(t, fecha)
    ensures forall t :: multiset(r)[t] == (if DelDia(t, fecha) then multiset(s)[t] else 0)
    ensures |r| <= |s|
  {
    if s == [] then []
    else
      var u := s[|s| - 1];
      assert s == s[..|s| - 1] + [u];
      FiltrarDia(s[..|s| - 1], fecha) + (if DelDia(u, fecha) then [u] else [])
  }

  function ContarEstado(s: seq<Turno>, estado: string): (n: nat)
    ensures n <= |s|
  {
    if s == [] then 0
    else ContarEstado(s[..|s| - 1], estado) + (if s[|s| - 1].estado == estado then 1 else 0)
  }

  /** `estado NOT IN ('CANCELADO', 'FINALIZADO')`. */
  function ContarActivos(s: seq<Turno>): (n: nat)
    ensures n <= |s|
  {
    if s == [] then 0
    else ContarActivos(s[..|s| - 1]) + (if s[|s| - 1].estado !in {CANCELADO, FINALIZADO} then 1 else 0)
  }

  /** Every row is cancelled, finished or active, and only one of them. */
  lemma {:induction false} TresPartes(s: seq<Turno>)
    ensures ContarEstado(s, CANCELADO) + ContarEstado(s, FINALIZADO) + ContarActivos(s) == |s|
  {
    if s != [] {
      TresPartes(s[..|s| - 1]);
    }
  }

  /** The razon_cancelacion of every cancelled row, in table order. */
  function RazonesCanceladas(s: seq<Turno>): (r: seq<Option<string>>)
    ensures |r| == ContarEstado(s, CANCELADO)
  {
    if s == [] then []
    else
      var u := s[|s| - 1];
      RazonesCanceladas(s[..|s| - 1]) + (if u.estado == CANCELADO then [u.razonCancelacion] else [])
  }

  // --------------------------------------------------- GROUP BY razon_cancelacion

  datatype RazonCantidad = RazonCantidad(razon: Option<string>, cantidad: nat)

  function SumaCantidades(g: seq<RazonCantidad>): nat
  {
    if g == [] then 0 else g[0].cantidad + SumaCantidades(g[1..])
  }

  /** The count of a group, 0 when there is no group for that reason. */
  function CantidadDe(g: seq<RazonCantidad>, x: Option<string>): nat
  {
    if g == [] then 0 else if g[0].razon == x then g[0].cantidad else CantidadDe(g[1..], x)
  }

  ghost predicate GruposValidos(g: seq<RazonCantidad>)
  {
    && (forall i, j :: 0 <= i < j < |g| ==> g[i].razon != g[j].razon)
    && (forall i :: 0 <= i < |g| ==> g[i].cantidad >= 1)
  }

  /** Count one more row with reason x: bump its group or open a new one at the end. */
  function Sumar(g: seq<RazonCantidad>, x: Option<string>): (r: seq<RazonCantidad>)
    requires GruposValidos(g)
    ensures GruposValidos(r)
    ensures SumaCantidades(r) == SumaCantidades(g) + 1
    ensures forall y :: CantidadDe(r, y) == CantidadDe(g, y) + (if y == x then 1 else 0)
    ensures forall i :: 0 <= i < |r| ==> r[i].razon == x || exists j :: 0 <= j < |g| && g[j].razon == r[i].razon
  {
    if g == [] then [RazonCantidad(x, 1)]
    else if g[0].razon == x then [RazonCantidad(x, g[0].cantidad + 1)] + g[1..]
    else
      var rest := Sumar(g[1..], x);
      assert forall i :: 0 <= i < |rest| ==> rest[i].razon != g[0].razon by {
        forall i | 0 <= i < |rest| ensures rest[i].razon != g[0].razon {
          if rest[i].razon != x {
            var j :| 0 <= j < |g[1..]| && g[1..][j].razon == rest[i].razon;
            assert g[j + 1].razon == rest[i].razon;
          }
        }
      }
      [g[0]] + rest
  }

  /** The groups of `GROUP BY razon_cancelacion` with their COUNT(*), in the
      order the reasons first appear (NULL is a group of its own). */
  function Agrupar(razones: seq<Option<string>>): (g: seq<RazonCantidad>)
    ensures GruposValidos(g)
    ensures SumaCantidades(g) == |razones|
    ensures forall x :: CantidadDe(g, x) == multiset(razones)[x]
  {
    if razones == [] then []
    else
      var previas := razones[..|razones| - 1];
      var x := razones[|razones| - 1];
      assert razones == previas + [x];
      Sumar(Agrupar(previas), x)
  }

  /** In valid groups, a reason has a group exactly when its count is positive. */
  lemma {:induction false} GrupoSiiPositivo(g: seq<RazonCantidad>, x: Option<string>)
    requires GruposValidos(g)
    ensures CantidadDe(g, x) > 0 <==> exists i :: 0 <= i < |g| && g[i].razon == x
  {
    if g != [] {
      GrupoSiiPositivo(g[1..], x);
      if g[0].razon != x && CantidadDe(g, x) > 0 {
        var i :| 0 <= i < |g[1..]| && g[1..][i].razon == x;
        assert g[i + 1].razon == x;
      }
      if exists i :: 0 <= i < |g| && g[i].razon == x {
        var i :| 0 <= i < |g| && g[i].razon == x;
        if i > 0 { assert g[1..][i - 1].razon == x; }
      }
    }
  }

  /** One entry per distinct reason among the cancelled rows. */
  lemma UnaEntradaPorRazon(razones: seq<Option<string>>, x: Option<string>)
    ensures x in razones <==> exists i :: 0 <= i < |Agrupar(razones)| && Agrupar(razones)[i].razon == x
  {
    var g := Agrupar(razones);
    GrupoSiiPositivo(g, x);
    assert CantidadDe(g, x) == multiset(razones)[x];
    if x in razones {
      assert multiset(razones)[x] > 0;
      var i :| 0 <= i < |g| && g[i].razon == x;
      assert Agrupar(razones)[i].razon == x;
    }
    if exists i :: 0 <= i < |g| && g[i].razon == x {
      assert CantidadDe(g, x) > 0;
      assert x in multiset(razones);
    }
  }

  // ------------------------------------------------------------ day statistics

  datatype EstadisticasDia = EstadisticasDia(
    fecha: string,
    totalTurnos: nat,
    cancelados: nat,
    finalizados: nat,
    activos: nat,
    tasaCancelacion: real,
    cancelacionesPorRazon: seq<RazonCantidad>)

  /** `(cancelados / total * 100) if total > 0 else 0`, in exact arithmetic. */
  function Tasa(cancelados: nat, total: nat): (t: real)
    ensures total == 0 ==> t == 0.0
    ensures cancelados <= total ==> 0.0 <= t <= 100.0
  {
    if total > 0 then (cancelados as real) / (total as real) * 100.0 else 0.0
  }

  /** The query branch's result over the rows of the day. */
  function ResumenDia(fecha: string, dia: seq<Turno>, conRazones: bool): (r: EstadisticasDia)
    ensures r.cancelados + r.finalizados + r.activos == r.totalTurnos == |dia|
    ensures GruposValidos(r.cancelacionesPorRazon)
    ensures conRazones ==> SumaCantidades(r.cancelacionesPorRazon) == r.cancelados
    ensures !conRazones ==> r.cancelacionesPorRazon == []
    ensures conRazones ==> forall x :: CantidadDe(r.cancelacionesPorRazon, x) == multiset(RazonesCanceladas(dia))[x]
  {
    var cancelados := ContarEstado(dia, CANCELADO);
    TresPartes(dia);
    EstadisticasDia(fecha, |dia|, cancelados, ContarEstado(dia, FINALIZADO), ContarActivos(dia),
                    Tasa(cancelados, |dia|), if conRazones then Agrupar(RazonesCanceladas(dia)) else [])
  }

  /** obtener_estadisticas_dia for the day whose DATE() text is `fecha`. */
  function ObtenerEstadisticasDia(turnos: seq<Turno>, esquema: map<string, seq<string>>,
                                  fecha: string, conexion: Conexion): (r: EstadisticasDia)
    ensures r.fecha == fecha
    ensures r.cancelados + r.finalizados + r.activos == r.totalTurnos
    ensures r.totalTurnos == 0 ==> r.tasaCancelacion == 0.0
    ensures 0.0 <= r.tasaCancelacion <= 100.0
    ensures GruposValidos(r.cancelacionesPorRazon)
    ensures VerificarColumnaExiste(esquema, TURNOS, "razon_cancelacion", conexion) ==>
              SumaCantidades(r.cancelacionesPorRazon) == r.cancelados
    ensures !VerificarColumnaExiste(esquema, TURNOS, "razon_cancelacion", conexion) ==>
              r.cancelacionesPorRazon == []
    ensures conexion.Contexto? ==> r == EstadisticasDia(fecha, 0, 0, 0, 0, 0.0, [])
    ensures conexion.Directa? ==> && r.totalTurnos == |FiltrarDia(turnos, fecha)|
                                  && r.cancelados == ContarEstado(FiltrarDia(turnos, fecha), CANCELADO)
                                  && r.finalizados == ContarEstado(FiltrarDia(turnos, fecha), FINALIZADO)
                                  && r.activos == ContarActivos(FiltrarDia(turnos, fecha))
    ensures conexion.Directa? && VerificarColumnaExiste(esquema, TURNOS, "razon_cancelacion", conexion) ==>
              forall x :: CantidadDe(r.cancelacionesPorRazon, x) == multiset(RazonesCanceladas(FiltrarDia(turnos, fecha)))[x]
  {
    match conexion
    case Contexto => EstadisticasDia(fecha, 0, 0, 0, 0, 0.0, [])
    case Directa =>
      ResumenDia(fecha, FiltrarDia(turnos, fecha), VerificarColumnaExiste(esquema, TURNOS, "razon_cancelacion", conexion))
  }

  lemma FiltrarDiaAlta(turnos: seq<Turno>, u: Turno, fecha: string)
    ensures FiltrarDia(turnos + [u], fecha) == FiltrarDia(turnos, fecha) + (if DelDia(u, fecha) then [u] else [])
  {
    var s := turnos + [u];
    assert s[..|s| - 1] == turnos;
  }

  lemma ContarAlta(d: seq<Turno>, u: Turno)
    ensures ContarEstado(d + [u], CANCELADO) == ContarEstado(d, CANCELADO) + Uno(u.estado == CANCELADO)
    ensures ContarEstado(d + [u], FINALIZADO) == ContarEstado(d, FINALIZADO) + Uno(u.estado == FINALIZADO)
  {
    var s := d + [u];
    assert s[..|s| - 1] == d;
  }

  /** Only turnos created on `fecha` are counted: a row of another day changes
      nothing, a row of that day adds one to the total and to its state's count. */
  lemma SoloCuentaElDia(turnos: seq<Turno>, u: Turno, esquema: map<string, seq<string>>, fecha: string)
    ensures var antes := ObtenerEstadisticasDia(turnos, esquema, fecha, Directa);
            var despues := ObtenerEstadisticasDia(turnos + [u], esquema, fecha, Directa);
            && (!DelDia(u, fecha) ==> despues == antes)
            && (DelDia(u, fecha) ==> despues.totalTurnos == antes.totalTurnos + 1)
            && (DelDia(u, fecha) ==> despues.cancelados == antes.cancelados + Uno(u.estado == CANCELADO))
            && (DelDia(u, fecha) ==> despues.finalizados == antes.finalizados + Uno(u.estado == FINALIZADO))
  {
    FiltrarDiaAlta(turnos, u, fecha);
    var col := VerificarColumnaExiste(esquema, TURNOS, "razon_cancelacion", Directa);
    if DelDia(u, fecha) {
      ContarAlta(FiltrarDia(turnos, fecha), u);
    } else {
      assert FiltrarDia(turnos + [u], fecha) == FiltrarDia(turnos, fecha);
    }
  }

  /** As written the module's connection has no `execute`: a day with turnos
      reports none, where the query it meant to run reports them. */
  lemma EstadisticasComoEscritas(turnos: seq<Turno>, esquema: map<string, seq<string>>, fecha: string, u: Turno)
    requires u in turnos && DelDia(u, fecha)
    ensures ObtenerEstadisticasDia(turnos, esquema, fecha, ConexionComoEscrita).totalTurnos == 0
    ensures ObtenerEstadisticasDia(turnos, esquema, fecha, Directa).totalTurnos > 0
  {
    assert u in FiltrarDia(turnos, fecha);
  }

  // ---------------------------------------------------------- month statistics

  /** `f'{año}-{mes:02d}'`. */
  function MesClave(anio: int, mes: int): string
  {
    JoinDash([IntText(anio), IntPad(mes, 2)])
  }

  /** `strftime('%Y-%m', timestamp_creacion) = ?`. */
  predicate EnMes(t: Turno, clave: string)
  {
    MonthText(t.creado.fecha) == clave
  }

  function FiltrarMes(s: seq<Turno>, clave: string): (r: seq<Turno>)
    ensures forall t :: t in r <==> t in s && EnMes(t, clave)
  {
    if s == [] then []
    else
      var u := s[|s| - 1];
      assert s == s[..|s| - 1] + [u];
      FiltrarMes(s[..|s| - 1], clave) + (if EnMes(u, clave) then [u] else [])
  }

  /** The month's rows occur exactly as often as in the table. */
  lemma {:induction false} FiltrarMesMultiplicidad(s: seq<Turno>, clave: string)
    ensures forall t :: multiset(FiltrarMes(s, clave))[t] == (if EnMes(t, clave) then multiset(s)[t] else 0)
  {
    if s != [] {
      var u := s[|s| - 1];
      assert s == s[..|s| - 1] + [u];
      FiltrarMesMultiplicidad(s[..|s| - 1], clave);
    }
  }

  /** For a four-digit year and a two-digit month, a turno is in the month
      key exactly when its creation date has that year and month. */
  lemma MesCoincide(t: Turno, anio: nat, mes: nat)
    requires 1000 <= anio <= 9999 && mes <= 99
    requires t.creado.fecha.anio <= 9999 && t.creado.fecha.mes <= 99
    ensures EnMes(t, MesClave(anio, mes)) <==> t.creado.fecha.anio == anio && t.creado.fecha.mes == mes
  {
    var d := t.creado.fecha;
    assert Pow10(4) == 10000 && Pow10(2) == 100;
    ZeroPadWidth(d.anio, 4);
    ZeroPadWidth(d.mes, 2);
    ZeroPadWidth(anio, 4);
    ZeroPadWidth(mes, 2);
    NatTextLength(anio, 4);
    NatTextLength(anio, 3);
    assert Pow10(3) == 1000;
    assert IntText(anio) == NatText(anio) == ZeroPad(anio, 4);
    var a, b := MonthText(d), MesClave(anio, mes);
    assert [ZeroPad(d.anio, 4), ZeroPad(d.mes, 2)][1..] == [ZeroPad(d.mes, 2)];
    assert [IntText(anio), IntPad(mes, 2)][1..] == [IntPad(mes, 2)];
    assert JoinDash([ZeroPad(d.mes, 2)]) == ZeroPad(d.mes, 2);
    assert JoinDash([IntPad(mes, 2)]) == IntPad(mes, 2) == ZeroPad(mes, 2);
    assert a == ZeroPad(d.anio, 4) + "-" + ZeroPad(d.mes, 2);
    assert b == ZeroPad(anio, 4) + "-" + ZeroPad(mes, 2);
    if a == b {
      assert a[..4] == ZeroPad(d.anio, 4) && b[..4] == ZeroPad(anio, 4);
      assert a[5..] == ZeroPad(d.mes, 2) && b[5..] == ZeroPad(mes, 2);
      ZeroPadInjective(d.anio, anio, 4);
      ZeroPadInjective(d.mes, mes, 2);
    }
  }

  datatype DiaTendencia = DiaTendencia(fecha: Date, turnos: nat, cancelados: nat)

  /** `ORDER BY fecha` on the 'YYYY-MM-DD' text: year, then month, then day. */
  predicate DateLess(a: Date, b: Date)
  {
    a.anio < b.anio || (a.anio == b.anio && (a.mes < b.mes || (a.mes == b.mes && a.dia < b.dia)))
  }

  ghost predicate Creciente(g: seq<DiaTendencia>)
  {
    forall i, j :: 0 <= i < j < |g| ==> DateLess(g[i].fecha, g[j].fecha)
  }

  function Fechas(g: seq<DiaTendencia>): (f: set<Date>)
    ensures forall i :: 0 <= i < |g| ==> g[i].fecha in f
    ensures forall x :: x in f ==> exists i :: 0 <= i < |g| && g[i].fecha == x
  {
    if g == [] then {}
    else
      var rest := Fechas(g[1..]);
      assert forall x :: x in rest ==> exists i :: 0 <= i < |g| && g[i].fecha == x by {
        forall x | x in rest ensures exists i :: 0 <= i < |g| && g[i].fecha == x {
          var i :| 0 <= i < |g[1..]| && g[1..][i].fecha == x;
          assert g[i + 1].fecha == x;
        }
      }
      assert forall i :: 1 <= i < |g| ==> g[i].fecha == g[1..][i - 1].fecha;
      {g[0].fecha} + rest
  }

  function SumaTurnos(g: seq<DiaTendencia>): nat
  {
    if g == [] then 0 else g[0].turnos + SumaTurnos(g[1..])
  }

  function SumaCancelados(g: seq<DiaTendencia>): nat
  {
    if g == [] then 0 else g[0].cancelados + SumaCancelados(g[1..])
  }

  function Uno(b: bool): nat { if b then 1 else 0 }

  /** Count row t in the trend: bump its day or insert the day in order. */
  function AgregarDia(g: seq<DiaTendencia>, t: Turno): (r: seq<DiaTendencia>)
    requires Creciente(g)
    ensures Creciente(r)
    ensures |r| >= 1 && (r[0].fecha == t.creado.fecha || (|g| >= 1 && r[0].fecha == g[0].fecha))
  {
    var d := t.creado.fecha;
    var c := Uno(t.estado == CANCELADO);
    if g == [] then [DiaTendencia(d, 1, c)]
    else if g[0].fecha == d then [DiaTendencia(d, g[0].turnos + 1, g[0].cancelados + c)] + g[1..]
    else if DateLess(d, g[0].fecha) then [DiaTendencia(d, 1, c)] + g
    else [g[0]] + AgregarDia(g[1..], t)
  }

  /** Counting a row adds it to its day's totals and its day to the trend. */
  lemma {:induction false} AgregarDiaCuenta(g: seq<DiaTendencia>, t: Turno)
    requires Creciente(g)
    ensures SumaTurnos(AgregarDia(g, t)) == SumaTurnos(g) + 1
    ensures SumaCancelados(AgregarDia(g, t)) == SumaCancelados(g) + Uno(t.estado == CANCELADO)
    ensures Fechas(AgregarDia(g, t)) == Fechas(g) + {t.creado.fecha}
  {
    var d := t.creado.fecha;
    var r := AgregarDia(g, t);
    if g == [] {
    } else if g[0].fecha == d {
      assert r[1..] == g[1..];
    } else if DateLess(d, g[0].fecha) {
      assert r[1..] == g;
    } else {
      AgregarDiaCuenta(g[1..], t);
      assert r[1..] == AgregarDia(g[1..], t);
    }
  }

  /** `GROUP BY DATE(timestamp_creacion) ORDER BY fecha`, with COUNT(*) and
      the cancelled count of each day. */
  function Tendencia(s: seq<Turno>): (g: seq<DiaTendencia>)
    ensures Creciente(g)
  {
    if s == [] then [] else AgregarDia(Tendencia(s[..|s| - 1]), s[|s| - 1])
  }

  /** The trend has one entry per day that has rows, and its per-day counts
      add up to the number of rows and of cancelled rows. */
  lemma {:induction false} TendenciaCuenta(s: seq<Turno>)
    ensures SumaTurnos(Tendencia(s)) == |s|
    ensures SumaCancelados(Tendencia(s)) == ContarEstado(s, CANCELADO)
    ensures forall x :: x in Fechas(Tendencia(s)) <==> exists i :: 0 <= i < |s| && s[i].creado.fecha == x
  {
    if s != [] {
      var previos := s[..|s| - 1];
      var u := s[|s| - 1];
      TendenciaCuenta(previos);
      AgregarDiaCuenta(Tendencia(previos), u);
      ContarAlta(previos, u);
      assert s == previos + [u];
      forall x ensures x in Fechas(Tendencia(s)) <==> exists i :: 0 <= i < |s| && s[i].creado.fecha == x {
        if x in Fechas(Tendencia(previos)) {
          var i :| 0 <= i < |previos| && previos[i].creado.fecha == x;
          assert s[i].creado.fecha == x;
        }
        if exists i :: 0 <= i < |s| && s[i].creado.fecha == x {
          var i :| 0 <= i < |s| && s[i].creado.fecha == x;
          if i < |previos| { assert previos[i].creado.fecha == x; }
        }
      }
    }
  }

  /** The number of rows created on date x, and of those the cancelled ones. */
  function CuentaFecha(s: seq<Turno>, x: Date): nat
  {
    if s == [] then 0 else CuentaFecha(s[..|s| - 1], x) + Uno(s[|s| - 1].creado.fecha == x)
  }

  function CanceladosFecha(s: seq<Turno>, x: Date): nat
  {
    if s == [] then 0
    else CanceladosFecha(s[..|s| - 1], x) + Uno(s[|s| - 1].creado.fecha == x && s[|s| - 1].estado == CANCELADO)
  }

  /** The counts of the trend's entry for date x, 0 when there is none. */
  function TurnosEn(g: seq<DiaTendencia>, x: Date): nat
  {
    if g == [] then 0 else if g[0].fecha == x then g[0].turnos else TurnosEn(g[1..], x)
  }

  function CanceladosEn(g: seq<DiaTendencia>, x: Date): nat
  {
    if g == [] then 0 else if g[0].fecha == x then g[0].cancelados else CanceladosEn(g[1..], x)
  }

  lemma CrecienteResto(g: seq<DiaTendencia>)
    requires Creciente(g) && g != []
    ensures Creciente(g[1..])
  {
    forall i, j | 0 <= i < j < |g[1..]| ensures DateLess(g[1..][i].fecha, g[1..][j].fecha) {
      assert g[1..][i] == g[i + 1] && g[1..][j] == g[j + 1];
    }
  }

  /** A date before the first one of an ascending trend has no entry. */
  lemma {:induction false} SinEntradaAntes(g: seq<DiaTendencia>, x: Date)
    requires Creciente(g) && g != [] && DateLess(x, g[0].fecha)
    ensures TurnosEn(g, x) == 0 && CanceladosEn(g, x) == 0
  {
    if |g| > 1 {
      CrecienteResto(g);
      assert DateLess(g[0].fecha, g[1].fecha);
      SinEntradaAntes(g[1..], x);
    }
  }

  /** Counting a row adds one to its own day's entry and nothing to the others. */
  lemma {:induction false} AgregarDiaEn(g: seq<DiaTendencia>, t: Turno, x: Date)
    requires Creciente(g)
    ensures TurnosEn(AgregarDia(g, t), x) == TurnosEn(g, x) + Uno(x == t.creado.fecha)
    ensures CanceladosEn(AgregarDia(g, t), x) == CanceladosEn(g, x) + Uno(x == t.creado.fecha && t.estado == CANCELADO)
  {
    var d := t.creado.fecha;
    var r := AgregarDia(g, t);
    if g == [] {
    } else if g[0].fecha == d {
      assert r[1..] == g[1..];
    } else if DateLess(d, g[0].fecha) {
      assert r[1..] == g;
      if x == d {
        SinEntradaAntes(g, x);
      }
    } else {
      CrecienteResto(g);
      AgregarDiaEn(g[1..], t, x);
      assert r[1..] == AgregarDia(g[1..], t);
    }
  }

  /** The trend's entry for any date counts exactly the rows of that date
      and, of them, the cancelled ones. */
  lemma {:induction false} TendenciaEn(s: seq<Turno>, x: Date)
    ensures TurnosEn(Tendencia(s), x) == CuentaFecha(s, x)
    ensures CanceladosEn(Tendencia(s), x) == CanceladosFecha(s, x)
  {
    if s != [] {
      TendenciaEn(s[..|s| - 1], x);
      AgregarDiaEn(Tendencia(s[..|s| - 1]), s[|s| - 1], x);
    }
  }

  /** In an ascending trend an entry's counts are the ones found under its date. */
  lemma {:induction false} EntradaEn(g: seq<DiaTendencia>, i: nat)
    requires Creciente(g) && i < |g|
    ensures TurnosEn(g, g[i].fecha) == g[i].turnos && CanceladosEn(g, g[i].fecha) == g[i].cancelados
  {
    if i > 0 {
      assert DateLess(g[0].fecha, g[i].fecha);
      CrecienteResto(g);
      assert g[1..][i - 1] == g[i];
      EntradaEn(g[1..], i - 1);
    }
  }

  /** Each entry of the trend counts the rows of its day and, of those, the
      cancelled ones. */
  lemma TendenciaPorDia(s: seq<Turno>)
    ensures forall i :: 0 <= i < |Tendencia(s)| ==>
              && Tendencia(s)[i].turnos == CuentaFecha(s, Tendencia(s)[i].fecha)
              && Tendencia(s)[i].cancelados == CanceladosFecha(s, Tendencia(s)[i].fecha)
  {
    var g := Tendencia(s);
    forall i | 0 <= i < |g|
      ensures g[i].turnos == CuentaFecha(s, g[i].fecha) && g[i].cancelados == CanceladosFecha(s, g[i].fecha)
    {
      EntradaEn(g, i);
      TendenciaEn(s, g[i].fecha);
    }
  }

  /** Filtering by month keeps every row of a day that lies in the month. */
  lemma {:induction false} CuentaFechaMes(s: seq<Turno>, clave: string, x: Date)
    requires MonthText(x) == clave
    ensures CuentaFecha(FiltrarMes(s, clave), x) == CuentaFecha(s, x)
    ensures CanceladosFecha(FiltrarMes(s, clave), x) == CanceladosFecha(s, x)
  {
    if s != [] {
      var previos := s[..|s| - 1];
      var u := s[|s| - 1];
      CuentaFechaMes(previos, clave, x);
      var m := FiltrarMes(previos, clave);
      assert FiltrarMes(s, clave) == m + (if EnMes(u, clave) then [u] else []);
      if u.creado.fecha == x {
        assert EnMes(u, clave);
        var mu := m + [u];
        assert mu[..|mu| - 1] == m;
      } else if EnMes(u, clave) {
        var mu := m + [u];
        assert mu[..|mu| - 1] == m;
        assert CuentaFecha(mu, x) == CuentaFecha(m, x);
        assert CanceladosFecha(mu, x) == CanceladosFecha(m, x);
      } else {
        assert FiltrarMes(s, clave) == m;
      }
      assert CuentaFecha(s, x) == CuentaFecha(previos, x) + Uno(u.creado.fecha == x);
      assert CanceladosFecha(s, x) == CanceladosFecha(previos, x) + Uno(u.creado.fecha == x && u.estado == CANCELADO);
    }
  }

  /** Each entry of the month's trend counts every row of its day, and of
      those the cancelled ones, across the whole table. */
  lemma TendenciaDelMes(turnos: seq<Turno>, clave: string)
    ensures var g := Tendencia(FiltrarMes(turnos, clave));
            forall i :: 0 <= i < |g| ==>
              && g[i].turnos == CuentaFecha(turnos, g[i].fecha)
              && g[i].cancelados == CanceladosFecha(turnos, g[i].fecha)
  {
    var m := FiltrarMes(turnos, clave);
    var g := Tendencia(m);
    TendenciaCuenta(m);
    TendenciaPorDia(m);
    forall i | 0 <= i < |g|
      ensures g[i].turnos == CuentaFecha(turnos, g[i].fecha) && g[i].cancelados == CanceladosFecha(turnos, g[i].fecha)
    {
      assert g[i].fecha in Fechas(g);
      var j :| 0 <= j < |m| && m[j].creado.fecha == g[i].fecha;
      assert m[j] in m;
      CuentaFechaMes(turnos, clave, g[i].fecha);
    }
  }

  datatype EstadisticasMes = EstadisticasMes(
    mes: string,
    totalTurnos: nat,
    cancelados: nat,
    finalizados: nat,
    tasaCancelacion: real,
    tendenciaDiaria: seq<DiaTendencia>)

  /** obtener_estadisticas_mensual for month `mes` of year `anio` (the caller
      supplies today's month and year when the request leaves them out). */
  function ObtenerEstadisticasMensual(turnos: seq<Turno>, mes: int, anio: int, conexion: Conexion): (r: EstadisticasMes)
    ensures r.mes == MesClave(anio, mes)
    ensures r.cancelados + r.finalizados <= r.totalTurnos
    ensures r.totalTurnos == 0 ==> r.tasaCancelacion == 0.0
    ensures Creciente(r.tendenciaDiaria)
    ensures SumaTurnos(r.tendenciaDiaria) == r.totalTurnos
    ensures SumaCancelados(r.tendenciaDiaria) == r.cancelados
    ensures forall t :: t in turnos && EnMes(t, r.mes) && conexion.Directa? ==> t.creado.fecha in Fechas(r.tendenciaDiaria)
    ensures forall x :: x in Fechas(r.tendenciaDiaria) ==> exists t :: t in turnos && EnMes(t, r.mes) && t.creado.fecha == x
    ensures conexion.Contexto? ==> r == EstadisticasMes(MesClave(anio, mes), 0, 0, 0, 0.0, [])
    ensures conexion.Directa? ==> && r.totalTurnos == |FiltrarMes(turnos, r.mes)|
                                  && r.cancelados == ContarEstado(FiltrarMes(turnos, r.mes), CANCELADO)
                                  && r.finalizados == ContarEstado(FiltrarMes(turnos, r.mes), FINALIZADO)
    ensures forall i :: 0 <= i < |r.tendenciaDiaria| ==>
              && r.tendenciaDiaria[i].turnos == CuentaFecha(turnos, r.tendenciaDiaria[i].fecha)
              && r.tendenciaDiaria[i].cancelados == CanceladosFecha(turnos, r.tendenciaDiaria[i].fecha)
  {
    var clave := MesClave(anio, mes);
    match conexion
    case Contexto => EstadisticasMes(clave, 0, 0, 0, 0.0, [])
    case Directa =>
      var m := FiltrarMes(turnos, clave);
      var cancelados := ContarEstado(m, CANCELADO);
      TresPartes(m);
      var g := Tendencia(m);
      TendenciaCuenta(m);
      assert forall t :: t in m ==> t.creado.fecha in Fechas(g) by {
        forall t | t in m ensures t.creado.fecha in Fechas(g) {
          var i :| 0 <= i < |m| && m[i] == t;
        }
      }
      TendenciaDelMes(turnos, clave);
      EstadisticasMes(clave, |m|, cancelados, ContarEstado(m, FINALIZADO), Tasa(cancelados, |m|), g)
  }
}
