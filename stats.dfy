/**
 * The report of `GET /api/admin/estadisticas` over the selected tickets
 * (src/app/api/admin/estadisticas/route.ts): per-state counters, per-sector
 * and per-operator tallies, hour and weekday histograms, the latest tickets.
 */
module Estadisticas {
  import opened Common
  import opened Turnos

  /** A selected ticket joined with its sector and, when it has one, its operator. */
  datatype Fila = Fila(turno: Turno, sectorNombre: string, sectorColor: string, operadorNombre: Option<string>)

  datatype PorEstado = PorEstado(esperando: nat, llamado: nat, atendiendo: nat, finalizado: nat, ausente: nat)

  /** One entry of `porSector` / `porOperador`, under its key; `color` is recorded for sectors only. */
  datatype Cuenta = Cuenta(clave: string, total: nat, finalizados: nat, ausentes: nat, color: Option<string>)

  datatype DiaCuenta = DiaCuenta(dia: string, count: nat)

  datatype Resumen = Resumen(totalTurnos: nat, turnosFinalizados: nat, turnosAusentes: nat, turnosEnEspera: nat)

  datatype Informe = Informe(
    resumen: Resumen,
    porEstado: PorEstado,
    porSector: seq<Cuenta>,
    porOperador: seq<Cuenta>,
    porHora: seq<nat>,
    porDia: seq<DiaCuenta>,
    ultimosTurnos: seq<Turno>)

  /** Weekday labels in `getDay()` order. */
  const DiasSemana: seq<string> := ["Domingo", "Lunes", "Martes", "Miércoles", "Jueves", "Viernes", "Sábado"]

  /** `getHours()` of a clock reading in seconds. */
  function HoraDe(t: nat): (h: nat)
    ensures h < 24
  {
    (t / 3600) % 24
  }

  /** `getDay()` of a clock reading in seconds; day 0 of the clock is a Thursday. */
  function DiaDe(t: nat): (d: nat)
    ensures d < 7
  {
    (t / 86400 + 4) % 7
  }

  function Estado(f: Fila): string { f.turno.estado }

  /** The `reduce` keys: the sector name of every row; the operator name of rows that have one. */
  function SectorClave(f: Fila): Option<string> { Some(f.sectorNombre) }
  function OperadorClave(f: Fila): Option<string> { f.operadorNombre }

  function Clave(c: Cuenta): string { c.clave }

  // ------------------------------------------------------------ counting

  /** Rows in state `e`. */
  function CountEstado(fs: seq<Fila>, e: string): nat {
    if fs == [] then 0
    else CountEstado(fs[..|fs| - 1], e) + (if Estado(fs[|fs| - 1]) == e then 1 else 0)
  }

  /** Rows whose state is none of the five the report counts. */
  function Otros(fs: seq<Fila>): nat {
    if fs == [] then 0
    else Otros(fs[..|fs| - 1]) + (if EstadoValido(Estado(fs[|fs| - 1])) then 0 else 1)
  }

  /** Rows with key `k`. */
  function CountClave(fs: seq<Fila>, keyOf: Fila -> Option<string>, k: string): nat {
    if fs == [] then 0
    else CountClave(fs[..|fs| - 1], keyOf, k) + (if keyOf(fs[|fs| - 1]) == Some(k) then 1 else 0)
  }

  /** Rows with key `k` in state `e`. */
  function CountClaveEstado(fs: seq<Fila>, keyOf: Fila -> Option<string>, k: string, e: string): nat {
    if fs == [] then 0
    else
      var last := fs[|fs| - 1];
      CountClaveEstado(fs[..|fs| - 1], keyOf, k, e) + (if keyOf(last) == Some(k) && Estado(last) == e then 1 else 0)
  }

  /** Rows that have a key at all. */
  function CountKeyed(fs: seq<Fila>, keyOf: Fila -> Option<string>): nat {
    if fs == [] then 0
    else CountKeyed(fs[..|fs| - 1], keyOf) + (if keyOf(fs[|fs| - 1]).Some? then 1 else 0)
  }

  /** Rows whose creation time falls in bucket `b`. */
  function CountBucket(fs: seq<Fila>, bucketOf: nat -> nat, b: nat): nat {
    if fs == [] then 0
    else CountBucket(fs[..|fs| - 1], bucketOf, b) + (if bucketOf(fs[|fs| - 1].turno.createdAt) == b then 1 else 0)
  }

  /** The position of the first row with key `k`. */
  function FirstWith(fs: seq<Fila>, keyOf: Fila -> Option<string>, k: string): (r: Option<nat>)
    ensures r.Some? ==> r.value < |fs| && keyOf(fs[r.value]) == Some(k)
    ensures r.None? <==> forall j :: 0 <= j < |fs| ==> keyOf(fs[j]) != Some(k)
  {
    if fs == [] then None
    else if keyOf(fs[0]) == Some(k) then Some(0)
    else match FirstWith(fs[1..], keyOf, k)
      case None => None
      case Some(j) => Some(j + 1)
  }

  /** Appending a row changes the first position of a key only when the key was absent. */
  lemma {:induction false} FirstWithAppend(pre: seq<Fila>, f: Fila, keyOf: Fila -> Option<string>, k: string)
    ensures FirstWith(pre + [f], keyOf, k)
      == if FirstWith(pre, keyOf, k).Some? then FirstWith(pre, keyOf, k)
         else if keyOf(f) == Some(k) then Some(|pre|) else None
    decreases |pre|
  {
    if pre != [] {
      assert (pre + [f])[1..] == pre[1..] + [f];
      FirstWithAppend(pre[1..], f, keyOf, k);
    }
  }

  function SumTotal(acc: seq<Cuenta>): nat {
    if acc == [] then 0 else SumTotal(acc[..|acc| - 1]) + acc[|acc| - 1].total
  }

  function SumSeq(s: seq<nat>): nat {
    if s == [] then 0 else SumSeq(s[..|s| - 1]) + s[|s| - 1]
  }

  lemma {:induction false} SumTotalUpdate(acc: seq<Cuenta>, j: nat, c: Cuenta)
    requires j < |acc|
    ensures SumTotal(acc[j := c]) + acc[j].total == SumTotal(acc) + c.total
    decreases |acc|
  {
    var n := |acc| - 1;
    if j < n {
      SumTotalUpdate(acc[..n], j, c);
      assert acc[j := c][..n] == acc[..n][j := c];
    } else {
      assert acc[j := c][..n] == acc[..n];
    }
  }

  lemma {:induction false} SumSeqUpdate(s: seq<nat>, j: nat, x: nat)
    requires j < |s|
    ensures SumSeq(s[j := x]) + s[j] == SumSeq(s) + x
    decreases |s|
  {
    var n := |s| - 1;
    if j < n {
      SumSeqUpdate(s[..n], j, x);
      assert s[j := x][..n] == s[..n][j := x];
    } else {
      assert s[j := x][..n] == s[..n];
    }
  }

  /** A key's finished and absent rows are among its rows. */
  lemma {:induction false} OutcomesWithinTotal(fs: seq<Fila>, keyOf: Fila -> Option<string>, k: string)
    ensures CountClaveEstado(fs, keyOf, k, Finalizado) + CountClaveEstado(fs, keyOf, k, Ausente)
      <= CountClave(fs, keyOf, k)
  {
    if fs != [] {
      OutcomesWithinTotal(fs[..|fs| - 1], keyOf, k);
    }
  }

  /** When every row's state is one of the five, the five counters cover all rows. */
  lemma {:induction false} NoOtros(fs: seq<Fila>)
    ensures (forall j :: 0 <= j < |fs| ==> EstadoValido(Estado(fs[j]))) <==> Otros(fs) == 0
  {
    if fs != [] {
      NoOtros(fs[..|fs| - 1]);
      assert forall j :: 0 <= j < |fs| - 1 ==> fs[..|fs| - 1][j] == fs[j];
    }
  }

  /** Every row has a sector key, so the tally by sector accounts for every row. */
  lemma {:induction false} SectorKeyCoversAll(fs: seq<Fila>)
    ensures CountKeyed(fs, SectorClave) == |fs|
  {
    if fs != [] {
      SectorKeyCoversAll(fs[..|fs| - 1]);
    }
  }

  // ------------------------------------------------------------- the loops

  /** The `forEach` over `turnosPorEstado`: one `++` per row on the counter of its state. */
  method ContarPorEstado(fs: seq<Fila>) returns (p: PorEstado)
    ensures p.esperando == CountEstado(fs, Esperando) && p.llamado == CountEstado(fs, Llamado)
    ensures p.atendiendo == CountEstado(fs, Atendiendo) && p.finalizado == CountEstado(fs, Finalizado)
    ensures p.ausente == CountEstado(fs, Ausente)
    ensures p.esperando + p.llamado + p.atendiendo + p.finalizado + p.ausente + Otros(fs) == |fs|
  {
    p := PorEstado(0, 0, 0, 0, 0);
    for i := 0 to |fs|
      invariant p.esperando == CountEstado(fs[..i], Esperando) && p.llamado == CountEstado(fs[..i], Llamado)
      invariant p.atendiendo == CountEstado(fs[..i], Atendiendo) && p.finalizado == CountEstado(fs[..i], Finalizado)
      invariant p.ausente == CountEstado(fs[..i], Ausente)
      invariant p.esperando + p.llamado + p.atendiendo + p.finalizado + p.ausente + Otros(fs[..i]) == i
    {
      assert fs[..i + 1][..i] == fs[..i];
      var e := Estado(fs[i]);
      if e == Esperando {
        p := p.(esperando := p.esperando + 1);
      } else if e == Llamado {
        p := p.(llamado := p.llamado + 1);
      } else if e == Atendiendo {
        p := p.(atendiendo := p.atendiendo + 1);
      } else if e == Finalizado {
        p := p.(finalizado := p.finalizado + 1);
      } else if e == Ausente {
        p := p.(ausente := p.ausente + 1);
      }
    }
    assert fs[..|fs|] == fs;
  }

  /** The tally entry for its key after the rows `fs`, as the `reduce` callback leaves it. */
  ghost predicate Tallied(c: Cuenta, fs: seq<Fila>, keyOf: Fila -> Option<string>, conColor: bool) {
    && c.total == CountClave(fs, keyOf, c.clave)
    && c.finalizados == CountClaveEstado(fs, keyOf, c.clave, Finalizado)
    && c.ausentes == CountClaveEstado(fs, keyOf, c.clave, Ausente)
    && FirstWith(fs, keyOf, c.clave).Some?
    && c.color == (if conColor then Some(fs[FirstWith(fs, keyOf, c.clave).value].sectorColor) else None)
  }

  /** The accumulator after the rows `fs`: one entry per key seen, each tallied, in first-seen order. */
  ghost predicate TallyOf(acc: seq<Cuenta>, fs: seq<Fila>, keyOf: Fila -> Option<string>, conColor: bool) {
    && UniqueKeys(acc, Clave)
    && (forall k :: k in Keys(acc, Clave) <==> FirstWith(fs, keyOf, k).Some?)
    && (forall j :: 0 <= j < |acc| ==> Tallied(acc[j], fs, keyOf, conColor))
    && SumTotal(acc) == CountKeyed(fs, keyOf)
  }

  /** `acc[key].total++`, and the finished or absent counter when the row is in that state. */
  function Bump(c: Cuenta, f: Fila): (r: Cuenta)
    ensures r.clave == c.clave && r.color == c.color && r.total == c.total + 1
  {
    c.(total := c.total + 1,
       finalizados := c.finalizados + (if Estado(f) == Finalizado then 1 else 0),
       ausentes := c.ausentes + (if Estado(f) == Ausente then 1 else 0))
  }

  /** A row with another key leaves an entry tallied. */
  lemma TalliedOther(c: Cuenta, pre: seq<Fila>, f: Fila, keyOf: Fila -> Option<string>, conColor: bool)
    requires Tallied(c, pre, keyOf, conColor) && keyOf(f) != Some(c.clave)
    ensures Tallied(c, pre + [f], keyOf, conColor)
  {
    var fs := pre + [f];
    assert fs[..|pre|] == pre;
    FirstWithAppend(pre, f, keyOf, c.clave);
  }

  /** A row with the entry's key is tallied by `Bump`. */
  lemma TalliedSame(c: Cuenta, pre: seq<Fila>, f: Fila, keyOf: Fila -> Option<string>, conColor: bool)
    requires Tallied(c, pre, keyOf, conColor) && keyOf(f) == Some(c.clave)
    ensures Tallied(Bump(c, f), pre + [f], keyOf, conColor)
  {
    var fs := pre + [f];
    assert fs[..|pre|] == pre;
    FirstWithAppend(pre, f, keyOf, c.clave);
  }

  /** The first row of a key creates its entry, with that row's colour. */
  lemma TalliedFirst(pre: seq<Fila>, f: Fila, keyOf: Fila -> Option<string>, conColor: bool, k: string)
    requires FirstWith(pre, keyOf, k).None? && keyOf(f) == Some(k)
    ensures Tallied(Bump(Nueva(k, f, conColor), f), pre + [f], keyOf, conColor)
  {
    var fs := pre + [f];
    assert fs[..|pre|] == pre;
    FirstWithAppend(pre, f, keyOf, k);
    NoneCounted(pre, keyOf, k);
  }

  lemma {:induction false} NoneCounted(fs: seq<Fila>, keyOf: Fila -> Option<string>, k: string)
    requires FirstWith(fs, keyOf, k).None?
    ensures CountClave(fs, keyOf, k) == 0
    ensures CountClaveEstado(fs, keyOf, k, Finalizado) == 0 && CountClaveEstado(fs, keyOf, k, Ausente) == 0
  {
    if fs != [] {
      var pre := fs[..|fs| - 1];
      assert forall j :: 0 <= j < |pre| ==> pre[j] == fs[j];
      NoneCounted(pre, keyOf, k);
    }
  }

  /** The entry the callback creates for the first row of key `k`. */
  function Nueva(k: string, f: Fila, conColor: bool): Cuenta {
    Cuenta(k, 0, 0, 0, if conColor then Some(f.sectorColor) else None)
  }

  lemma CountKeyedAppend(pre: seq<Fila>, f: Fila, keyOf: Fila -> Option<string>)
    ensures CountKeyed(pre + [f], keyOf) == CountKeyed(pre, keyOf) + (if keyOf(f).Some? then 1 else 0)
  {
    assert (pre + [f])[..|pre|] == pre;
  }

  /** A row without a key leaves the accumulator as it is. */
  lemma TallySkip(acc: seq<Cuenta>, pre: seq<Fila>, f: Fila, keyOf: Fila -> Option<string>, conColor: bool)
    requires TallyOf(acc, pre, keyOf, conColor) && keyOf(f).None?
    ensures TallyOf(acc, pre + [f], keyOf, conColor)
  {
    forall j | 0 <= j < |acc| ensures Tallied(acc[j], pre + [f], keyOf, conColor) {
      TalliedOther(acc[j], pre, f, keyOf, conColor);
    }
    forall k ensures k in Keys(acc, Clave) <==> FirstWith(pre + [f], keyOf, k).Some? {
      FirstWithAppend(pre, f, keyOf, k);
    }
    CountKeyedAppend(pre, f, keyOf);
  }

  /** The first row of a key appends a new entry for it. */
  lemma TallyNew(acc: seq<Cuenta>, pre: seq<Fila>, f: Fila, keyOf: Fila -> Option<string>, conColor: bool, k: string)
    requires TallyOf(acc, pre, keyOf, conColor) && keyOf(f) == Some(k) && k !in Keys(acc, Clave)
    ensures TallyOf(acc + [Bump(Nueva(k, f, conColor), f)], pre + [f], keyOf, conColor)
  {
    var c := Bump(Nueva(k, f, conColor), f);
    var r := acc + [c];
    var fs := pre + [f];
    KeysAppend(acc, c, Clave);
    assert UniqueKeys(r, Clave);
    SeenAfterNew(acc, pre, f, keyOf, conColor, k);
    assert forall x :: x in Keys(r, Clave) <==> FirstWith(fs, keyOf, x).Some?;
    OthersStayTallied(acc, pre, f, keyOf, conColor);
    TalliedFirst(pre, f, keyOf, conColor, k);
    forall j | 0 <= j < |r| ensures Tallied(r[j], fs, keyOf, conColor) {
      if j < |acc| {
        assert r[j] == acc[j];
      }
    }
    assert r[..|acc|] == acc;
    CountKeyedAppend(pre, f, keyOf);
    assert SumTotal(r) == CountKeyed(fs, keyOf);
  }

  /** The first row of a key makes it seen, and only it. */
  lemma SeenAfterNew(acc: seq<Cuenta>, pre: seq<Fila>, f: Fila, keyOf: Fila -> Option<string>, conColor: bool, k: string)
    requires forall x :: x in Keys(acc, Clave) <==> FirstWith(pre, keyOf, x).Some?
    requires keyOf(f) == Some(k)
    ensures forall x :: x in Keys(acc, Clave) + [k] <==> FirstWith(pre + [f], keyOf, x).Some?
  {
    forall x ensures x in Keys(acc, Clave) + [k] <==> FirstWith(pre + [f], keyOf, x).Some? {
      FirstWithAppend(pre, f, keyOf, x);
    }
  }

  /** A row whose key has no entry yet leaves every entry tallied. */
  lemma OthersStayTallied(acc: seq<Cuenta>, pre: seq<Fila>, f: Fila, keyOf: Fila -> Option<string>, conColor: bool)
    requires forall j :: 0 <= j < |acc| ==> Tallied(acc[j], pre, keyOf, conColor)
    requires keyOf(f).Some? && keyOf(f).value !in Keys(acc, Clave)
    ensures forall j :: 0 <= j < |acc| ==> Tallied(acc[j], pre + [f], keyOf, conColor)
  {
    forall j | 0 <= j < |acc| ensures Tallied(acc[j], pre + [f], keyOf, conColor) {
      assert Keys(acc, Clave)[j] == Clave(acc[j]);
      TalliedOther(acc[j], pre, f, keyOf, conColor);
    }
  }

  /** A later row of a key bumps that key's entry in place. */
  lemma TallyBump(acc: seq<Cuenta>, pre: seq<Fila>, f: Fila, keyOf: Fila -> Option<string>, conColor: bool, at: nat)
    requires TallyOf(acc, pre, keyOf, conColor) && at < |acc| && keyOf(f) == Some(acc[at].clave)
    ensures TallyOf(acc[at := Bump(acc[at], f)], pre + [f], keyOf, conColor)
  {
    var c := Bump(acc[at], f);
    var r := acc[at := c];
    KeysUpdate(acc, at, c, Clave);
    forall j | 0 <= j < |r| ensures Tallied(r[j], pre + [f], keyOf, conColor) {
      if j == at {
        TalliedSame(acc[at], pre, f, keyOf, conColor);
      } else {
        assert Clave(acc[j]) != Clave(acc[at]);
        TalliedOther(acc[j], pre, f, keyOf, conColor);
      }
    }
    forall x ensures x in Keys(r, Clave) <==> FirstWith(pre + [f], keyOf, x).Some? {
      FirstWithAppend(pre, f, keyOf, x);
    }
    SumTotalUpdate(acc, at, c);
    CountKeyedAppend(pre, f, keyOf);
  }

  /** One call of the `reduce` callback on the row `f`. */
  method Registrar(acc: seq<Cuenta>, pre: seq<Fila>, f: Fila, keyOf: Fila -> Option<string>, conColor: bool)
    returns (r: seq<Cuenta>)
    requires TallyOf(acc, pre, keyOf, conColor)
    ensures TallyOf(r, pre + [f], keyOf, conColor)
  {
    match keyOf(f) {
      case None =>
        TallySkip(acc, pre, f, keyOf, conColor);
        r := acc;
      case Some(k) =>
        var idx := IndexOf(acc, Clave, k);
        if idx.None? {
          TallyNew(acc, pre, f, keyOf, conColor, k);
          r := acc + [Bump(Nueva(k, f, conColor), f)];
        } else {
          TallyBump(acc, pre, f, keyOf, conColor, idx.value);
          r := acc[idx.value := Bump(acc[idx.value], f)];
        }
    }
  }

  /**
   * What the finished `reduce` holds: one entry per key that some row has, no
   * key twice, each entry counting exactly the rows of its key (its finished and
   * absent ones among them), and the totals adding up to the rows with a key.
   */
  ghost predicate Tally(acc: seq<Cuenta>, fs: seq<Fila>, keyOf: Fila -> Option<string>, conColor: bool) {
    && UniqueKeys(acc, Clave)
    && (forall k :: k in Keys(acc, Clave) <==> exists j :: 0 <= j < |fs| && keyOf(fs[j]) == Some(k))
    && (forall j :: 0 <= j < |acc| ==> Tallied(acc[j], fs, keyOf, conColor))
    && (forall j :: 0 <= j < |acc| ==> acc[j].finalizados + acc[j].ausentes <= acc[j].total)
    && SumTotal(acc) == CountKeyed(fs, keyOf)
  }

  /**
   * The `reduce` into `turnosPorSector` (keyed by `SectorClave`, recording the
   * colour of the first row) or `turnosPorOperador` (keyed by `OperadorClave`,
   * skipping rows without an operator). Entries appear in first-seen order.
   */
  method Agrupar(fs: seq<Fila>, keyOf: Fila -> Option<string>, conColor: bool) returns (acc: seq<Cuenta>)
    ensures Tally(acc, fs, keyOf, conColor)
  {
    acc := [];
    for i := 0 to |fs|
      invariant TallyOf(acc, fs[..i], keyOf, conColor)
    {
      assert fs[..i] + [fs[i]] == fs[..i + 1];
      acc := Registrar(acc, fs[..i], fs[i], keyOf, conColor);
    }
    assert fs[..|fs|] == fs;
    forall j | 0 <= j < |acc| ensures acc[j].finalizados + acc[j].ausentes <= acc[j].total {
      OutcomesWithinTotal(fs, keyOf, acc[j].clave);
    }
  }

  /**
   * `Array(size).fill(0)` and one `++` per row at the bucket of its creation
   * time: the `turnosPorHora` and `turnosPorDia` loops.
   */
  method Histograma(fs: seq<Fila>, size: nat, bucketOf: nat -> nat) returns (h: seq<nat>)
    requires forall t :: bucketOf(t) < size
    ensures |h| == size
    ensures forall b :: 0 <= b < size ==> h[b] == CountBucket(fs, bucketOf, b)
    ensures SumSeq(h) == |fs|
  {
    var a := new nat[size](_ => 0);
    ZeroSum(a[..]);
    for i := 0 to |fs|
      invariant forall b :: 0 <= b < size ==> a[b] == CountBucket(fs[..i], bucketOf, b)
      invariant SumSeq(a[..]) == i
    {
      assert fs[..i + 1][..i] == fs[..i];
      var b := bucketOf(fs[i].turno.createdAt);
      assert forall c: nat ::
          CountBucket(fs[..i + 1], bucketOf, c) == CountBucket(fs[..i], bucketOf, c) + (if c == b then 1 else 0);
      SumSeqUpdate(a[..], b, a[b] + 1);
      a[b] := a[b] + 1;
    }
    assert fs[..|fs|] == fs;
    h := a[..];
  }

  lemma {:induction false} ZeroSum(s: seq<nat>)
    requires forall j :: 0 <= j < |s| ==> s[j] == 0
    ensures SumSeq(s) == 0
  {
    if s != [] {
      ZeroSum(s[..|s| - 1]);
    }
  }

  /** `turnos.slice(0, 10)`: the first ten rows, or all of them when fewer. */
  function Ultimos(fs: seq<Fila>): (r: seq<Turno>)
    ensures |r| == if |fs| < 10 then |fs| else 10
    ensures forall j :: 0 <= j < |r| ==> r[j] == fs[j].turno
  {
    var n := if |fs| < 10 then |fs| else 10;
    seq(n, j requires 0 <= j < n => fs[j].turno)
  }

  /** The whole report over `fs`, which the route has ordered by creation time, newest first. */
  method Calcular(fs: seq<Fila>) returns (inf: Informe)
    ensures inf.resumen.totalTurnos == |fs|
    ensures inf.resumen.turnosFinalizados == inf.porEstado.finalizado == CountEstado(fs, Finalizado)
    ensures inf.resumen.turnosAusentes == inf.porEstado.ausente == CountEstado(fs, Ausente)
    ensures inf.resumen.turnosEnEspera == inf.porEstado.esperando == CountEstado(fs, Esperando)
    ensures inf.porEstado.llamado == CountEstado(fs, Llamado) && inf.porEstado.atendiendo == CountEstado(fs, Atendiendo)
    ensures (forall j :: 0 <= j < |fs| ==> EstadoValido(Estado(fs[j]))) ==>
      inf.porEstado.esperando + inf.porEstado.llamado + inf.porEstado.atendiendo
        + inf.porEstado.finalizado + inf.porEstado.ausente == |fs|
    ensures Tally(inf.porSector, fs, SectorClave, true) && SumTotal(inf.porSector) == |fs|
    ensures Tally(inf.porOperador, fs, OperadorClave, false)
    ensures SumTotal(inf.porOperador) == CountKeyed(fs, OperadorClave)
    ensures |inf.porHora| == 24 && SumSeq(inf.porHora) == |fs|
    ensures forall b :: 0 <= b < 24 ==> inf.porHora[b] == CountBucket(fs, HoraDe, b)
    ensures |inf.porDia| == 7 && SumDias(inf.porDia) == |fs|
    ensures forall d :: 0 <= d < 7 ==> inf.porDia[d] == DiaCuenta(DiasSemana[d], CountBucket(fs, DiaDe, d))
    ensures inf.ultimosTurnos == Ultimos(fs)
  {
    var porEstado := ContarPorEstado(fs);
    NoOtros(fs);
    var porSector := Agrupar(fs, SectorClave, true);
    SectorKeyCoversAll(fs);
    var porOperador := Agrupar(fs, OperadorClave, false);
    var porHora := Histograma(fs, 24, HoraDe);
    var dias := Histograma(fs, 7, DiaDe);
    var porDia := Etiquetar(dias);
    SumDiasCounts(porDia, dias);
    inf := Informe(
      Resumen(|fs|, porEstado.finalizado, porEstado.ausente, porEstado.esperando),
      porEstado, porSector, porOperador, porHora, porDia, Ultimos(fs));
  }

  function SumDias(ds: seq<DiaCuenta>): nat {
    if ds == [] then 0 else SumDias(ds[..|ds| - 1]) + ds[|ds| - 1].count
  }

  /** `turnosPorDia.map((count, index) => ({ dia: diasSemana[index], count }))`. */
  function Etiquetar(h: seq<nat>): (ds: seq<DiaCuenta>)
    requires |h| == 7
    ensures |ds| == 7
    ensures forall d :: 0 <= d < 7 ==> ds[d].dia == DiasSemana[d] && ds[d].count == h[d]
  {
    seq(7, d requires 0 <= d < 7 => DiaCuenta(DiasSemana[d], h[d]))
  }

  /** Labelling the counts keeps their sum. */
  lemma {:induction false} SumDiasCounts(ds: seq<DiaCuenta>, h: seq<nat>)
    requires |ds| == |h| && forall d :: 0 <= d < |h| ==> ds[d].count == h[d]
    ensures SumDias(ds) == SumSeq(h)
  {
    if h != [] {
      SumDiasCounts(ds[..|ds| - 1], h[..|h| - 1]);
    }
  }

  /** Every row falls in exactly one of the `size` buckets. */
  lemma {:induction false} BucketsCoverAll(fs: seq<Fila>, bucketOf: nat -> nat, size: nat)
    requires forall t :: bucketOf(t) < size
    ensures SumSeq(seq(size, b requires 0 <= b < size => CountBucket(fs, bucketOf, b))) == |fs|
  {
    if fs != [] {
      var pre := fs[..|fs| - 1];
      BucketsCoverAll(pre, bucketOf, size);
      var s := seq(size, b requires 0 <= b < size => CountBucket(pre, bucketOf, b));
      var t := seq(size, b requires 0 <= b < size => CountBucket(fs, bucketOf, b));
      var x := bucketOf(fs[|fs| - 1].turno.createdAt);
      assert t == s[x := s[x] + 1];
      SumSeqUpdate(s, x, s[x] + 1);
    } else {
      var s := seq(size, b requires 0 <= b < size => CountBucket(fs, bucketOf, b));
      ZeroSum(s);
    }
  }
}
