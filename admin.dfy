/**
 * The administration screen (src/app/admin/page.tsx): the cleaning of record
 * ids, the choice of URL and method when a form is saved, the guard of the
 * operator form, the sector checkboxes of the operator and monitor forms, and
 * the configuration form filled from the stored record.
 */
module AdminPage {
  import opened Common
  import opened Configuracion

  // ------------------------------------------------------------ ids and requests

  /** `id.split(':')[0]`: the part of the id before its first `:`, the whole id when it has none. */
  function CleanId(id: string): (r: string)
    ensures |r| <= |id| && r == id[..|r|]
    ensures ':' !in r
    ensures |r| == |id| || id[|r|] == ':'
  {
    if id == [] then []
    else if id[0] == ':' then []
    else
      var rest := CleanId(id[1..]);
      assert id == [id[0]] + id[1..];
      [id[0]] + rest
  }

  /** Cleaning a clean id changes nothing. */
  lemma CleanIdIdempotent(id: string)
    ensures CleanId(CleanId(id)) == CleanId(id)
  {
    CleanOfClean(CleanId(id));
  }

  lemma {:induction false} CleanOfClean(s: string)
    requires ':' !in s
    ensures CleanId(s) == s
  {
    if s != [] {
      assert s == [s[0]] + s[1..];
      CleanOfClean(s[1..]);
    }
  }

  /** The request a form save makes. */
  datatype Envio = Envio(url: string, metodo: string)

  /**
   * `cleanId = edit?.id?.split(':')[0] || ''` and the URL and method chosen
   * from it: the collection and `POST` for a new record, the record's own URL
   * and `PUT` for an edited one.
   */
  function Destino(editId: Option<string>, coleccion: string): (r: (string, Envio))
    ensures editId.None? ==> r.0 == "" && r.1 == Envio(coleccion, "POST")
    ensures editId.Some? ==> r.0 == CleanId(editId.value) && r.1 == Envio(coleccion + "/" + r.0, "PUT")
  {
    var cleanId := if editId.Some? then CleanId(editId.value) else "";
    (cleanId, if editId.Some? then Envio(coleccion + "/" + cleanId, "PUT") else Envio(coleccion, "POST"))
  }

  // ------------------------------------------------------------ sector checkboxes

  /** `ids.filter(id => id !== x)`. */
  function Quitar(ids: seq<string>, x: string): (r: seq<string>)
    ensures x !in r
    ensures forall y :: y in r <==> y in ids && y != x
    ensures x !in ids ==> r == ids
  {
    if ids == [] then []
    else
      var last := ids[|ids| - 1];
      assert ids == ids[..|ids| - 1] + [last];
      Quitar(ids[..|ids| - 1], x) + (if last == x then [] else [last])
  }

  /** The removal keeps the other ids in order: it distributes over concatenation. */
  lemma {:induction false} QuitarAppend(a: seq<string>, b: seq<string>, x: string)
    ensures Quitar(a + b, x) == Quitar(a, x) + Quitar(b, x)
  {
    if b == [] {
      assert a + b == a;
    } else {
      var b' := b[..|b| - 1];
      assert (a + b)[..|a + b| - 1] == a + b';
      QuitarAppend(a, b', x);
    }
  }

  /** A sector checkbox: checking appends the id at the end, unchecking removes every copy of it. */
  function Alternar(ids: seq<string>, x: string, checked: bool): (r: seq<string>)
    ensures checked ==> |r| == |ids| + 1 && r[..|ids|] == ids && r[|ids|] == x
    ensures !checked ==> r == Quitar(ids, x) && x !in r
    ensures !checked ==> forall y :: y in r <==> y in ids && y != x
  {
    if checked then ids + [x] else Quitar(ids, x)
  }

  /** Checking and then unchecking a sector leaves the other ids as they were, in order. */
  lemma CheckThenUncheck(ids: seq<string>, x: string)
    ensures Alternar(Alternar(ids, x, true), x, false) == Quitar(ids, x)
    ensures x !in ids ==> Alternar(Alternar(ids, x, true), x, false) == ids
  {
    QuitarAppend(ids, [x], x);
    assert Quitar([x], x) == [] by { assert [x][..0] == []; }
  }

  // ------------------------------------------------------------ configuration form

  /** The configuration form: plain texts and booleans. */
  datatype FormConfig = FormConfig(
    titulo: Option<string>,
    subtitulo: Option<string>,
    descripcion: Option<string>,
    monitorId: string,
    totemTitulo: string,
    totemDescripcion: string,
    totemInstrucciones: string,
    monitorTitulo: string,
    monitorSubtitulo: string,
    monitorPie: string,
    operadorTitulo: string,
    operadorInstrucciones: string,
    ticketLogoUrl: string,
    ticketEncabezado: string,
    ticketPie: string,
    ticketColorPrimario: string,
    ticketMostrarFecha: bool,
    ticketMostrarHora: bool,
    ticketMostrarOperador: bool)

  /**
   * `cargarConfiguracion` fills the form from a loaded object whose fields
   * may be missing: the main texts as they come, the other texts or `''`,
   * each flag or `true` when it is `undefined`.
   */
  function FormDe(d: ConfigBody): (f: FormConfig)
    ensures f.ticketMostrarFecha == (d.ticketMostrarFecha.None? || d.ticketMostrarFecha.value)
    ensures f.ticketMostrarHora == (d.ticketMostrarHora.None? || d.ticketMostrarHora.value)
    ensures f.ticketMostrarOperador == (d.ticketMostrarOperador.None? || d.ticketMostrarOperador.value)
    ensures (f.monitorId == "") <==> !Truthy(d.monitorId)
    ensures (f.ticketLogoUrl == "") <==> !Truthy(d.ticketLogoUrl)
  {
    FormConfig(d.titulo, d.subtitulo, d.descripcion,
      OrElse(d.monitorId, ""),
      OrElse(d.totemTitulo, ""),
      OrElse(d.totemDescripcion, ""),
      OrElse(d.totemInstrucciones, ""),
      OrElse(d.monitorTitulo, ""),
      OrElse(d.monitorSubtitulo, ""),
      OrElse(d.monitorPie, ""),
      OrElse(d.operadorTitulo, ""),
      OrElse(d.operadorInstrucciones, ""),
      OrElse(d.ticketLogoUrl, ""),
      OrElse(d.ticketEncabezado, ""),
      OrElse(d.ticketPie, ""),
      OrElse(d.ticketColorPrimario, ""),
      d.ticketMostrarFecha.GetOr(true),
      d.ticketMostrarHora.GetOr(true),
      d.ticketMostrarOperador.GetOr(true))
  }

  /** The stored record as `GET` sends it: every field defined, the two links possibly `null`. */
  function Enviado(c: Config): ConfigBody {
    ConfigBody(Some(c.titulo), Some(c.subtitulo), Some(c.descripcion), c.monitorId,
      Some(c.totemTitulo), Some(c.totemDescripcion), Some(c.totemInstrucciones),
      Some(c.monitorTitulo), Some(c.monitorSubtitulo), Some(c.monitorPie),
      Some(c.operadorTitulo), Some(c.operadorInstrucciones), c.ticketLogoUrl,
      Some(c.ticketEncabezado), Some(c.ticketPie), Some(c.ticketColorPrimario),
      Some(c.ticketMostrarFecha), Some(c.ticketMostrarHora), Some(c.ticketMostrarOperador))
  }

  /** `JSON.stringify(configForm)`: the body the form's save sends. */
  function Cuerpo(f: FormConfig): ConfigBody {
    ConfigBody(f.titulo, f.subtitulo, f.descripcion, Some(f.monitorId),
      Some(f.totemTitulo), Some(f.totemDescripcion), Some(f.totemInstrucciones),
      Some(f.monitorTitulo), Some(f.monitorSubtitulo), Some(f.monitorPie),
      Some(f.operadorTitulo), Some(f.operadorInstrucciones), Some(f.ticketLogoUrl),
      Some(f.ticketEncabezado), Some(f.ticketPie), Some(f.ticketColorPrimario),
      Some(f.ticketMostrarFecha), Some(f.ticketMostrarHora), Some(f.ticketMostrarOperador))
  }

  /** A stored `false` flag reaches the form as `false`. */
  lemma LoadedFlagsKept(c: Config)
    ensures FormDe(Enviado(c)).ticketMostrarFecha == c.ticketMostrarFecha
    ensures FormDe(Enviado(c)).ticketMostrarHora == c.ticketMostrarHora
    ensures FormDe(Enviado(c)).ticketMostrarOperador == c.ticketMostrarOperador
  {
  }

  /**
   * Loading the stored record into the form and saving it unchanged writes the
   * record back as it was, except that a missing monitor or logo comes back
   * as `''`.
   */
  lemma SaveUnchangedForm(c: Config)
    requires c.titulo != "" && c.subtitulo != "" && c.descripcion != ""
    ensures Completo(Cuerpo(FormDe(Enviado(c))))
    ensures Actualizar(c, Cuerpo(FormDe(Enviado(c)))) ==
      c.(monitorId := Some(c.monitorId.GetOr("")), ticketLogoUrl := Some(c.ticketLogoUrl.GetOr("")))
  {
  }

  // ------------------------------------------------------------ page state

  datatype FormOperador = FormOperador(username: string, password: string, nombre: string, sectorIds: seq<string>, activo: bool)

  datatype FormMonitor = FormMonitor(nombre: string, descripcion: string, sectorIds: seq<string>, activo: bool)

  const FormOperadorVacio: FormOperador := FormOperador("", "", "", [], true)

  /** The configuration form before anything is loaded: empty texts, every flag on. */
  const FormConfigVacio: FormConfig :=
    FormConfig(Some(""), Some(""), Some(""), "", "", "", "", "", "", "", "", "", "", "", "", "", true, true, true)

  /** The part of the administration page's state these handlers change. */
  class Pagina {
    var isAuthenticated: bool
    var username: string
    var password: string
    var operadorForm: FormOperador
    /** The id of the operator being edited, if any. */
    var editOperador: Option<string>
    var operadorDialogOpen: bool
    var monitorForm: FormMonitor
    var configForm: FormConfig

    constructor ()
      ensures !isAuthenticated && username == "" && password == ""
      ensures operadorForm == FormOperadorVacio && editOperador == None && !operadorDialogOpen
      ensures monitorForm == FormMonitor("", "", [], true) && configForm == FormConfigVacio
    {
      isAuthenticated, username, password := false, "", "";
      operadorForm, editOperador, operadorDialogOpen := FormOperadorVacio, None, false;
      monitorForm, configForm := FormMonitor("", "", [], true), FormConfigVacio;
    }

    /** `handleLogout`. */
    method Logout()
      modifies this`isAuthenticated, this`username, this`password
      ensures !isAuthenticated && username == "" && password == ""
    {
      isAuthenticated, username, password := false, "", "";
    }

    /**
     * `guardarOperador`: nothing is sent while no sector is checked; otherwise
     * the request of `Destino`, and on an ok answer (`ok`) the dialog closes and
     * the form empties.
     */
    method GuardarOperador(ok: bool) returns (envio: Option<Envio>)
      modifies this`operadorForm, this`editOperador, this`operadorDialogOpen
      ensures old(operadorForm.sectorIds) == [] ==> envio.None?
      ensures old(operadorForm.sectorIds) != [] ==> envio == Some(Destino(old(editOperador), "/api/admin/operadores").1)
      ensures envio.Some? && ok ==> !operadorDialogOpen && editOperador == None && operadorForm == FormOperadorVacio
      ensures envio.None? || !ok ==> operadorForm == old(operadorForm) && editOperador == old(editOperador)
                                     && operadorDialogOpen == old(operadorDialogOpen)
    {
      if operadorForm.sectorIds == [] {
        return None;
      }
      envio := Some(Destino(editOperador, "/api/admin/operadores").1);
      if ok {
        operadorDialogOpen, editOperador, operadorForm := false, None, FormOperadorVacio;
      }
    }

    /** A sector checkbox of the operator form. */
    method AlternarSectorOperador(id: string, checked: bool)
      modifies this`operadorForm
      ensures operadorForm == old(operadorForm).(sectorIds := Alternar(old(operadorForm.sectorIds), id, checked))
    {
      operadorForm := operadorForm.(sectorIds := Alternar(operadorForm.sectorIds, id, checked));
    }

    /** A sector checkbox of the monitor form. */
    method AlternarSectorMonitor(id: string, checked: bool)
      modifies this`monitorForm
      ensures monitorForm == old(monitorForm).(sectorIds := Alternar(old(monitorForm.sectorIds), id, checked))
    {
      monitorForm := monitorForm.(sectorIds := Alternar(monitorForm.sectorIds, id, checked));
    }

    /** `cargarConfiguracion`: the loaded object of an ok answer fills the form; a failure leaves it. */
    method CargarConfiguracion(data: Option<ConfigBody>)
      modifies this`configForm
      ensures data.Some? ==> configForm == FormDe(data.value)
      ensures data.None? ==> configForm == old(configForm)
    {
      if data.Some? {
        configForm := FormDe(data.value);
      }
    }
  }
}
