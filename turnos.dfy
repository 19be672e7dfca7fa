/** The rows of the ticket database and the ticket-number format (src/app/api/turnos/route.ts). */
module Turnos {
  import opened Common
  import opened Sorting

  /** A service queue; `numeroTurno` is the counter the next ticket of the sector gets. */
  datatype Sector = Sector(id: string, nombre: string, color: string, activo: bool, numeroTurno: nat)

  /** A ticket. Times are abstract clock readings in seconds. */
  datatype Turno = Turno(
    id: string,
    numero: string,
    dni: string,
    sectorId: string,
    estado: string,
    operadorId: Option<string>,
    createdAt: nat,
    fechaLlamado: Option<nat>,
    fechaAtencion: Option<nat>,
    fechaFinalizado: Option<nat>)

  datatype Operador = Operador(id: string, username: string, password: string, nombre: string, activo: bool)

  datatype Monitor = Monitor(id: string, nombre: string, descripcion: Option<string>, activo: bool)

  /** A row of a many-to-many table: operator-sector or monitor-sector. */
  datatype Enlace = Enlace(ownerId: string, sectorId: string)

  /** A call into the notification module, with the ticket it was given. */
  datatype Aviso = TurnoNuevo(turno: Turno) | TurnoLlamado(turno: Turno) | TurnoActualizado(turno: Turno)

  /** What a route answers: a status with a value, or a status with the `error` text. */
  datatype Response<T> = Ok(status: nat, value: T) | Fail(status: nat, error: string)

  const Esperando: string := "esperando"
  const Llamado: string := "llamado"
  const Atendiendo: string := "atendiendo"
  const Finalizado: string := "finalizado"
  const Ausente: string := "ausente"

  /** The states `actualizar` accepts. */
  predicate EstadoValido(e: string) {
    e == Esperando || e == Llamado || e == Atendiendo || e == Finalizado || e == Ausente
  }

  // Row keys, as named functions so that every use denotes the same key.
  function SectorId(s: Sector): string { s.id }
  function SectorNombre(s: Sector): string { s.nombre }
  function TurnoId(t: Turno): string { t.id }
  function OperadorId(o: Operador): string { o.id }
  function OperadorUsername(o: Operador): string { o.username }
  function MonitorId(m: Monitor): string { m.id }

  // Orders of the listings.
  predicate SectorNombreLe(a: Sector, b: Sector) { StrLe(a.nombre, b.nombre) }
  predicate OperadorNombreLe(a: Operador, b: Operador) { StrLe(a.nombre, b.nombre) }
  predicate MonitorNombreLe(a: Monitor, b: Monitor) { StrLe(a.nombre, b.nombre) }
  predicate CreadoAntes(a: Turno, b: Turno) { a.createdAt <= b.createdAt }
  predicate CreadoDespues(a: Turno, b: Turno) { a.createdAt >= b.createdAt }

  lemma NombreOrdersAreTotal()
    ensures Total(SectorNombreLe) && Total(OperadorNombreLe) && Total(MonitorNombreLe)
  {
    forall a: Sector, b: Sector ensures SectorNombreLe(a, b) || SectorNombreLe(b, a) {
      StrLeTotal(a.nombre, b.nombre);
    }
    forall a: Operador, b: Operador ensures OperadorNombreLe(a, b) || OperadorNombreLe(b, a) {
      StrLeTotal(a.nombre, b.nombre);
    }
    forall a: Monitor, b: Monitor ensures MonitorNombreLe(a, b) || MonitorNombreLe(b, a) {
      StrLeTotal(a.nombre, b.nombre);
    }
  }

  // ------------------------------------------------------- ticket numbers

  /**
   * `toUpperCase()` of one character, for ASCII and Latin-1: `ß` becomes
   * `SS`, `ÿ` becomes `Ÿ` and `µ` becomes `Μ`.
   */
  function UpperOf(c: char): string {
    var n := c as int;
    if 'a' <= c <= 'z' then [(n - 32) as char]
    else if 0xE0 <= n <= 0xFE && n != 0xF7 then [(n - 32) as char]
    else if n == 0xDF then "SS"
    else if n == 0xFF then [0x178 as char]
    else if n == 0xB5 then [0x39C as char]
    else [c]
  }

  /** `nombre.charAt(0).toUpperCase()`: empty for an empty name. */
  function Letra(nombre: string): string {
    if nombre == "" then "" else UpperOf(nombre[0])
  }

  /** The displayed ticket number: the letter, `-`, and the counter padded with `0` to 3 digits. */
  function NumeroTurno(nombre: string, contador: nat): string {
    Letra(nombre) + "-" + PadStart(Decimal(contador), 3, '0')
  }

  /**
   * The digits after the letter and dash read back as the counter: at least
   * three of them, exactly the counter's own digits once it has three or more
   * (1000 and beyond are not truncated).
   */
  lemma {:induction false} NumeroRoundTrip(nombre: string, contador: nat)
    ensures var n := NumeroTurno(nombre, contador);
      var k := |Letra(nombre)| + 1;
      && k <= |n| && n[..k] == Letra(nombre) + "-"
      && AllDigits(n[k..]) && ValueOf(n[k..]) == contador
      && |n[k..]| >= 3
      && (contador >= 100 ==> n[k..] == Decimal(contador))
  {
    var d := Decimal(contador);
    var p := PadStart(d, 3, '0');
    var n := NumeroTurno(nombre, contador);
    var k := |Letra(nombre)| + 1;
    assert n == (Letra(nombre) + "-") + p;
    assert n[k..] == p;
    DecimalValue(contador);
    ZeroPaddedValue(d, 3);
    if contador >= 100 {
      DecimalLength(contador);
    }
  }

  lemma {:induction false} DecimalLength(n: nat)
    requires n >= 100
    ensures |Decimal(n)| >= 3
  {
    assert Decimal(n) == Decimal(n / 10) + [DigitChar(n % 10)];
    assert n / 10 >= 10;
  }

  /** Two counters of one sector never give the same ticket number. */
  lemma NumeroInjective(nombre: string, a: nat, b: nat)
    ensures NumeroTurno(nombre, a) == NumeroTurno(nombre, b) ==> a == b
  {
    NumeroRoundTrip(nombre, a);
    NumeroRoundTrip(nombre, b);
  }

  /** A new sector starts at counter 1, so its first ticket is `<L>-001`. */
  lemma FirstNumero(nombre: string)
    ensures NumeroTurno(nombre, 1) == Letra(nombre) + "-001"
  {
    var d := Decimal(1);
    assert d == [DigitChar(1)] == "1";
    var p := PadStart(d, 3, '0');
    assert |p| == 3 && p[2..] == d;
    assert p[0] == '0' && p[1] == '0' && p[2] == '1';
    assert p == "001";
  }
}
