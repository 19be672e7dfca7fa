/**
 * The self-service kiosk screen (src/app/totem/page.tsx): the DNI display
 * format, the on-screen keypad and the guard of the "issue ticket" button.
 */
module Totem {
  import opened Common

  // ------------------------------------------------------------ DNI format

  /** `s.replace(/\D/g, '')`: the ASCII digits of `s`, in order. */
  function SoloDigitos(s: string): (r: string)
    ensures AllDigits(r) && |r| <= |s|
    ensures AllDigits(s) ==> r == s
  {
    if s == [] then []
    else
      var r := SoloDigitos(s[..|s| - 1]) + (if IsDigit(s[|s| - 1]) then [s[|s| - 1]] else []);
      assert AllDigits(s) ==> s == s[..|s| - 1] + [s[|s| - 1]];
      r
  }

  /** `s` with every `.` deleted. */
  function SinPuntos(s: string): string {
    if s == [] then [] else SinPuntos(s[..|s| - 1]) + (if s[|s| - 1] == '.' then [] else [s[|s| - 1]])
  }

  /** `formatDNI`: the digits grouped by three from the right, groups joined by `.`, at most three groups. */
  function FormatDNI(dni: string): string {
    var c := SoloDigitos(dni);
    var n := |c|;
    if n == 0 then ""
    else if n <= 3 then c
    else if n <= 6 then c[..n - 3] + "." + c[n - 3..]
    else c[..n - 6] + "." + c[n - 6..n - 3] + "." + c[n - 3..]
  }

  lemma {:induction false} SoloDigitosAppend(a: string, b: string)
    ensures SoloDigitos(a + b) == SoloDigitos(a) + SoloDigitos(b)
  {
    if b != [] {
      var b' := b[..|b| - 1];
      assert (a + b)[..|a + b| - 1] == a + b';
      SoloDigitosAppend(a, b');
    } else {
      assert a + b == a;
    }
  }

  lemma {:induction false} SinPuntosAppend(a: string, b: string)
    ensures SinPuntos(a + b) == SinPuntos(a) + SinPuntos(b)
  {
    if b != [] {
      var b' := b[..|b| - 1];
      assert (a + b)[..|a + b| - 1] == a + b';
      SinPuntosAppend(a, b');
    } else {
      assert a + b == a;
    }
  }

  lemma {:induction false} SinPuntosOfDigits(s: string)
    requires AllDigits(s)
    ensures SinPuntos(s) == s
  {
    if s != [] {
      SinPuntosOfDigits(s[..|s| - 1]);
      assert s == s[..|s| - 1] + [s[|s| - 1]];
    }
  }

  /** A dot between two strings: deleted by `SinPuntos`, skipped by `SoloDigitos`. */
  lemma Punto(x: string, y: string)
    ensures SinPuntos(x + "." + y) == SinPuntos(x) + SinPuntos(y)
    ensures SoloDigitos(x + "." + y) == SoloDigitos(x) + SoloDigitos(y)
  {
    PuntoSinPuntos(x, y);
    PuntoSoloDigitos(x, y);
  }

  lemma PuntoSinPuntos(x: string, y: string)
    ensures SinPuntos(x + "." + y) == SinPuntos(x) + SinPuntos(y)
  {
    assert SinPuntos(".") == "" by { assert "."[..0] == []; }
    SinPuntosAppend(x, ".");
    SinPuntosAppend(x + ".", y);
  }

  lemma PuntoSoloDigitos(x: string, y: string)
    ensures SoloDigitos(x + "." + y) == SoloDigitos(x) + SoloDigitos(y)
  {
    assert SoloDigitos(".") == "" by { assert "."[..0] == []; }
    SoloDigitosAppend(x, ".");
    SoloDigitosAppend(x + ".", y);
  }

  /** Deleting the dots from the formatted DNI gives back exactly the digits of the input, in order. */
  lemma FormatKeepsDigits(dni: string)
    ensures SinPuntos(FormatDNI(dni)) == SoloDigitos(dni)
    ensures SoloDigitos(FormatDNI(dni)) == SoloDigitos(dni)
  {
    var c := SoloDigitos(dni);
    var n := |c|;
    if n == 0 {
    } else if n <= 3 {
      SinPuntosOfDigits(c);
    } else if n <= 6 {
      var a, b := c[..n - 3], c[n - 3..];
      assert a + b == c;
      SinPuntosOfDigits(a);
      SinPuntosOfDigits(b);
      Punto(a, b);
    } else {
      var a, m, b := c[..n - 6], c[n - 6..n - 3], c[n - 3..];
      assert a + m + b == c;
      SinPuntosOfDigits(a);
      SinPuntosOfDigits(m);
      SinPuntosOfDigits(b);
      Punto(a, m);
      Punto(a + "." + m, b);
    }
  }

  /** Formatting an already formatted DNI changes nothing. */
  lemma FormatIdempotent(dni: string)
    ensures FormatDNI(FormatDNI(dni)) == FormatDNI(dni)
  {
    FormatKeepsDigits(dni);
  }

  /** No digits give `''`; up to three digits are shown as they are. */
  lemma FormatShort(dni: string)
    requires |SoloDigitos(dni)| <= 3
    ensures SoloDigitos(dni) == "" ==> FormatDNI(dni) == ""
    ensures FormatDNI(dni) == SoloDigitos(dni)
  {
  }

  /** Four to six digits: one dot, followed by the last three digits. */
  lemma FormatOneDot(dni: string)
    requires 4 <= |SoloDigitos(dni)| <= 6
    ensures var c, r := SoloDigitos(dni), FormatDNI(dni);
      && |r| == |c| + 1 && r[|r| - 4] == '.'
      && AllDigits(r[..|r| - 4]) && r[|r| - 3..] == c[|c| - 3..]
  {
    var c := SoloDigitos(dni);
    var n := |c|;
    var a, b := c[..n - 3], c[n - 3..];
    var r := a + "." + b;
    assert FormatDNI(dni) == r;
    assert r[..|r| - 4] == a;
    assert r[|r| - 3..] == b;
  }

  /** More than six digits: two dots, two groups of three after them, the rest before. */
  lemma FormatTwoDots(dni: string)
    requires |SoloDigitos(dni)| > 6
    ensures var c, r := SoloDigitos(dni), FormatDNI(dni);
      && |r| == |c| + 2 && r[|r| - 4] == '.' && r[|r| - 8] == '.'
      && |r[..|r| - 8]| == |c| - 6 && AllDigits(r[..|r| - 8])
      && r[|r| - 7..|r| - 4] == c[|c| - 6..|c| - 3] && r[|r| - 3..] == c[|c| - 3..]
  {
    var c := SoloDigitos(dni);
    var n := |c|;
    var a, m, b := c[..n - 6], c[n - 6..n - 3], c[n - 3..];
    var r := a + "." + m + "." + b;
    assert FormatDNI(dni) == r;
    assert r[..|r| - 8] == a;
    assert r[|r| - 7..|r| - 4] == m;
    assert r[|r| - 3..] == b;
  }

  // ------------------------------------------------------------ keypad

  /** A sector as the kiosk lists it. */
  datatype SectorVista = SectorVista(id: string, nombre: string, color: string, activo: bool)

  /** The ticket shown after a successful issue. */
  datatype TurnoAsignado = TurnoAsignado(numero: string, sector: string, color: string, dni: string, hora: string)

  /** What an ok answer of `POST /api/turnos` carries to the screen. */
  datatype Emitido = Emitido(numero: string, sectorNombre: string, sectorColor: string)

  /** The body the screen posts. */
  datatype Pedido = Pedido(dni: string, sectorId: string)

  /** `s.slice(0, -1)`: everything but the last character, and `''` for `''`. */
  function SinUltimo(s: string): (r: string)
    ensures s == [] ==> r == []
    ensures s != [] ==> r + [s[|s| - 1]] == s
  {
    if s == [] then [] else s[..|s| - 1]
  }

  /** The state of the kiosk screen that the keypad and the submit button change. */
  class Pantalla {
    var dni: string
    var selectedSector: Option<SectorVista>
    var turnoAsignado: Option<TurnoAsignado>

    /** The keypad only types digits and stops at eight. */
    ghost predicate Valid()
      reads this`dni
    {
      |dni| <= 8 && AllDigits(dni)
    }

    constructor ()
      ensures Valid() && dni == "" && selectedSector == None && turnoAsignado == None
    {
      dni, selectedSector, turnoAsignado := "", None, None;
    }

    /** `handleNumberClick`: a keypad digit is appended only while fewer than eight are typed. */
    method NumberClick(d: char)
      requires Valid() && IsDigit(d)
      modifies this`dni
      ensures Valid()
      ensures old(|dni|) < 8 ==> dni == old(dni) + [d]
      ensures old(|dni|) >= 8 ==> dni == old(dni)
    {
      if |dni| < 8 {
        dni := dni + [d];
      }
    }

    /** `handleDelete`. */
    method Delete()
      requires Valid()
      modifies this`dni
      ensures Valid()
      ensures dni == SinUltimo(old(dni))
    {
      dni := SinUltimo(dni);
    }

    /** `handleClear`, and the reset that runs three seconds after a ticket is issued. */
    method Clear()
      modifies this`dni, this`selectedSector, this`turnoAsignado
      ensures Valid() && dni == "" && selectedSector == None && turnoAsignado == None
    {
      dni, selectedSector, turnoAsignado := "", None, None;
    }

    /** A tap on a sector card. */
    method Seleccionar(s: SectorVista)
      modifies this`selectedSector
      ensures selectedSector == Some(s)
    {
      selectedSector := Some(s);
    }

    /**
     * `handleSubmit`: nothing is sent without a DNI and a sector. Otherwise the
     * DNI and sector id are posted; `respuesta` is the ok answer, `None` when the
     * route fails or the request throws, and `hora` the local time it is shown with.
     */
    method Enviar(respuesta: Option<Emitido>, hora: string) returns (pedido: Option<Pedido>)
      modifies this`turnoAsignado
      ensures pedido.Some? <==> dni != "" && selectedSector.Some?
      ensures pedido.Some? ==> pedido.value == Pedido(dni, selectedSector.value.id)
      ensures pedido.Some? && respuesta.Some? ==>
        turnoAsignado == Some(TurnoAsignado(respuesta.value.numero, respuesta.value.sectorNombre,
                                            respuesta.value.sectorColor, FormatDNI(dni), hora))
      ensures pedido.None? || respuesta.None? ==> turnoAsignado == old(turnoAsignado)
    {
      if dni == "" || selectedSector.None? {
        return None;
      }
      pedido := Some(Pedido(dni, selectedSector.value.id));
      if respuesta.Some? {
        var e := respuesta.value;
        turnoAsignado := Some(TurnoAsignado(e.numero, e.sectorNombre, e.sectorColor, FormatDNI(dni), hora));
      }
    }
  }
}
