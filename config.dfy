/**
 * The single display-configuration record and the two ways `PUT` writes it
 * (src/app/api/admin/configuracion/route.ts): the update of an existing record,
 * which writes only the fields the body defines, and the creation of a missing
 * one, which fills falsy fields with defaults.
 */
module Configuracion {
  import opened Common

  /** Every read and write targets this one record. */
  const ConfigId: string := "default"

  datatype Config = Config(
    id: string,
    titulo: string,
    subtitulo: string,
    descripcion: string,
    monitorId: Option<string>,
    totemTitulo: string,
    totemDescripcion: string,
    totemInstrucciones: string,
    monitorTitulo: string,
    monitorSubtitulo: string,
    monitorPie: string,
    operadorTitulo: string,
    operadorInstrucciones: string,
    ticketLogoUrl: Option<string>,
    ticketEncabezado: string,
    ticketPie: string,
    ticketColorPrimario: string,
    ticketMostrarFecha: bool,
    ticketMostrarHora: bool,
    ticketMostrarOperador: bool)

  /** The body of `PUT`: `None` is a field the body leaves `undefined`. */
  datatype ConfigBody = ConfigBody(
    titulo: Option<string>,
    subtitulo: Option<string>,
    descripcion: Option<string>,
    monitorId: Option<string>,
    totemTitulo: Option<string>,
    totemDescripcion: Option<string>,
    totemInstrucciones: Option<string>,
    monitorTitulo: Option<string>,
    monitorSubtitulo: Option<string>,
    monitorPie: Option<string>,
    operadorTitulo: Option<string>,
    operadorInstrucciones: Option<string>,
    ticketLogoUrl: Option<string>,
    ticketEncabezado: Option<string>,
    ticketPie: Option<string>,
    ticketColorPrimario: Option<string>,
    ticketMostrarFecha: Option<bool>,
    ticketMostrarHora: Option<bool>,
    ticketMostrarOperador: Option<bool>)

  const DefTotemTitulo: string := "Tótem de Autogestión"
  const DefTotemDescripcion: string := "Para clientes que deseen sacar un turno"
  const DefTotemInstrucciones: string := "Ingrese su DNI y seleccione el servicio correspondiente"
  const DefMonitorTitulo: string := "Monitor de Turnos"
  const DefOperadorTitulo: string := "Panel del Operador"
  const DefOperadorInstrucciones: string := "Seleccione un sector para comenzar a atender"
  const DefTicketEncabezado: string := "TICKET DE TURNO"
  const DefTicketPie: string := "Gracias por su espera"
  const DefTicketColorPrimario: string := "#1e40af"

  // ------------------------------------------------------------ fields one by one

  /** The optional texts that take a default when the created record gets a falsy value. */
  datatype Texto =
    | TotemTitulo | TotemDescripcion | TotemInstrucciones
    | MonitorTitulo | MonitorSubtitulo | MonitorPie
    | OperadorTitulo | OperadorInstrucciones
    | TicketEncabezado | TicketPie | TicketColorPrimario

  /** The three ticket flags. */
  datatype Bandera = MostrarFecha | MostrarHora | MostrarOperador

  /** Every field the body may leave `undefined`: the texts, the flags, the monitor and the logo. */
  datatype Campo = CampoTexto(t: Texto) | CampoBandera(f: Bandera) | CampoMonitor | CampoLogo

  /** The value of one field, whatever its column type. */
  datatype Valor = VTexto(s: string) | VBandera(b: bool) | VOpcional(o: Option<string>)

  function TextoDe(c: Config, t: Texto): string {
    match t
    case TotemTitulo => c.totemTitulo
    case TotemDescripcion => c.totemDescripcion
    case TotemInstrucciones => c.totemInstrucciones
    case MonitorTitulo => c.monitorTitulo
    case MonitorSubtitulo => c.monitorSubtitulo
    case MonitorPie => c.monitorPie
    case OperadorTitulo => c.operadorTitulo
    case OperadorInstrucciones => c.operadorInstrucciones
    case TicketEncabezado => c.ticketEncabezado
    case TicketPie => c.ticketPie
    case TicketColorPrimario => c.ticketColorPrimario
  }

  function TextoEn(b: ConfigBody, t: Texto): Option<string> {
    match t
    case TotemTitulo => b.totemTitulo
    case TotemDescripcion => b.totemDescripcion
    case TotemInstrucciones => b.totemInstrucciones
    case MonitorTitulo => b.monitorTitulo
    case MonitorSubtitulo => b.monitorSubtitulo
    case MonitorPie => b.monitorPie
    case OperadorTitulo => b.operadorTitulo
    case OperadorInstrucciones => b.operadorInstrucciones
    case TicketEncabezado => b.ticketEncabezado
    case TicketPie => b.ticketPie
    case TicketColorPrimario => b.ticketColorPrimario
  }

  /** The fallback `createData` writes for a falsy text. */
  function Defecto(t: Texto): string {
    match t
    case TotemTitulo => DefTotemTitulo
    case TotemDescripcion => DefTotemDescripcion
    case TotemInstrucciones => DefTotemInstrucciones
    case MonitorTitulo => DefMonitorTitulo
    case MonitorSubtitulo => ""
    case MonitorPie => ""
    case OperadorTitulo => DefOperadorTitulo
    case OperadorInstrucciones => DefOperadorInstrucciones
    case TicketEncabezado => DefTicketEncabezado
    case TicketPie => DefTicketPie
    case TicketColorPrimario => DefTicketColorPrimario
  }

  function BanderaDe(c: Config, f: Bandera): bool {
    match f
    case MostrarFecha => c.ticketMostrarFecha
    case MostrarHora => c.ticketMostrarHora
    case MostrarOperador => c.ticketMostrarOperador
  }

  function BanderaEn(b: ConfigBody, f: Bandera): Option<bool> {
    match f
    case MostrarFecha => b.ticketMostrarFecha
    case MostrarHora => b.ticketMostrarHora
    case MostrarOperador => b.ticketMostrarOperador
  }

  function ValorDe(c: Config, k: Campo): Valor {
    match k
    case CampoTexto(t) => VTexto(TextoDe(c, t))
    case CampoBandera(f) => VBandera(BanderaDe(c, f))
    case CampoMonitor => VOpcional(c.monitorId)
    case CampoLogo => VOpcional(c.ticketLogoUrl)
  }

  /** The body's value of a field, `None` when the body leaves it `undefined`. */
  function ValorEn(b: ConfigBody, k: Campo): Option<Valor> {
    match k
    case CampoTexto(t) => if TextoEn(b, t).Some? then Some(VTexto(TextoEn(b, t).value)) else None
    case CampoBandera(f) => if BanderaEn(b, f).Some? then Some(VBandera(BanderaEn(b, f).value)) else None
    case CampoMonitor => if b.monitorId.Some? then Some(VOpcional(b.monitorId)) else None
    case CampoLogo => if b.ticketLogoUrl.Some? then Some(VOpcional(b.ticketLogoUrl)) else None
  }

  /** Two records with the same id and main texts that agree on every field are the same record. */
  lemma CamposDeterminan(c1: Config, c2: Config)
    requires c1.id == c2.id && c1.titulo == c2.titulo && c1.subtitulo == c2.subtitulo && c1.descripcion == c2.descripcion
    requires forall k :: ValorDe(c1, k) == ValorDe(c2, k)
    ensures c1 == c2
  {
    assert ValorDe(c1, CampoMonitor) == ValorDe(c2, CampoMonitor);
    assert ValorDe(c1, CampoLogo) == ValorDe(c2, CampoLogo);
    assert ValorDe(c1, CampoBandera(MostrarFecha)) == ValorDe(c2, CampoBandera(MostrarFecha));
    assert ValorDe(c1, CampoBandera(MostrarHora)) == ValorDe(c2, CampoBandera(MostrarHora));
    assert ValorDe(c1, CampoBandera(MostrarOperador)) == ValorDe(c2, CampoBandera(MostrarOperador));
    assert ValorDe(c1, CampoTexto(TotemTitulo)) == ValorDe(c2, CampoTexto(TotemTitulo));
    assert ValorDe(c1, CampoTexto(TotemDescripcion)) == ValorDe(c2, CampoTexto(TotemDescripcion));
    assert ValorDe(c1, CampoTexto(TotemInstrucciones)) == ValorDe(c2, CampoTexto(TotemInstrucciones));
    assert ValorDe(c1, CampoTexto(MonitorTitulo)) == ValorDe(c2, CampoTexto(MonitorTitulo));
    assert ValorDe(c1, CampoTexto(MonitorSubtitulo)) == ValorDe(c2, CampoTexto(MonitorSubtitulo));
    assert ValorDe(c1, CampoTexto(MonitorPie)) == ValorDe(c2, CampoTexto(MonitorPie));
    assert ValorDe(c1, CampoTexto(OperadorTitulo)) == ValorDe(c2, CampoTexto(OperadorTitulo));
    assert ValorDe(c1, CampoTexto(OperadorInstrucciones)) == ValorDe(c2, CampoTexto(OperadorInstrucciones));
    assert ValorDe(c1, CampoTexto(TicketEncabezado)) == ValorDe(c2, CampoTexto(TicketEncabezado));
    assert ValorDe(c1, CampoTexto(TicketPie)) == ValorDe(c2, CampoTexto(TicketPie));
    assert ValorDe(c1, CampoTexto(TicketColorPrimario)) == ValorDe(c2, CampoTexto(TicketColorPrimario));
  }

  // ------------------------------------------------------------ the two writes

  /** The record `GET` creates when there is none: its texts are the create defaults, its flags on. */
  function Inicial(): (c: Config)
    ensures c.id == ConfigId
    ensures forall t :: TextoDe(c, t) == Defecto(t)
    ensures forall f :: BanderaDe(c, f)
    ensures c.monitorId.None? && c.ticketLogoUrl.None?
  {
    Config(ConfigId, "Sistema de Turnos", "Autogestión y atención", "Seleccione la opción según su rol", None,
      DefTotemTitulo, DefTotemDescripcion, DefTotemInstrucciones,
      DefMonitorTitulo, "", "",
      DefOperadorTitulo, DefOperadorInstrucciones,
      None, DefTicketEncabezado, DefTicketPie, DefTicketColorPrimario,
      true, true, true)
  }

  /** The three main texts are present and non-empty: the guard `PUT` passes first. */
  predicate Completo(b: ConfigBody) {
    Truthy(b.titulo) && Truthy(b.subtitulo) && Truthy(b.descripcion)
  }

  /** `createData`: falsy optional texts fall back to the defaults; a flag defaults only when `undefined`. */
  function Crear(b: ConfigBody): (c: Config)
    requires Completo(b)
    ensures c.id == ConfigId
    ensures c.titulo == b.titulo.value && c.subtitulo == b.subtitulo.value && c.descripcion == b.descripcion.value
    ensures forall t :: TextoDe(c, t) == (if Truthy(TextoEn(b, t)) then TextoEn(b, t).value else Defecto(t))
    ensures forall f :: BanderaDe(c, f) == (if BanderaEn(b, f).Some? then BanderaEn(b, f).value else true)
    ensures c.monitorId == b.monitorId
    ensures c.ticketLogoUrl == (if Truthy(b.ticketLogoUrl) then b.ticketLogoUrl else None)
  {
    Config(ConfigId, b.titulo.value, b.subtitulo.value, b.descripcion.value, b.monitorId,
      OrElse(b.totemTitulo, DefTotemTitulo),
      OrElse(b.totemDescripcion, DefTotemDescripcion),
      OrElse(b.totemInstrucciones, DefTotemInstrucciones),
      OrElse(b.monitorTitulo, DefMonitorTitulo),
      OrElse(b.monitorSubtitulo, ""),
      OrElse(b.monitorPie, ""),
      OrElse(b.operadorTitulo, DefOperadorTitulo),
      OrElse(b.operadorInstrucciones, DefOperadorInstrucciones),
      if Truthy(b.ticketLogoUrl) then b.ticketLogoUrl else None,
      OrElse(b.ticketEncabezado, DefTicketEncabezado),
      OrElse(b.ticketPie, DefTicketPie),
      OrElse(b.ticketColorPrimario, DefTicketColorPrimario),
      b.ticketMostrarFecha.GetOr(true),
      b.ticketMostrarHora.GetOr(true),
      b.ticketMostrarOperador.GetOr(true))
  }

  /**
   * The update branch of the upsert applied to `c`: the main texts always, and
   * every other field only when the body defines it, `''` and `false` included.
   */
  function Actualizar(c: Config, b: ConfigBody): (r: Config)
    requires Completo(b)
    ensures r.id == c.id
    ensures r.titulo == b.titulo.value && r.subtitulo == b.subtitulo.value && r.descripcion == b.descripcion.value
    ensures forall t :: TextoDe(r, t) == (if TextoEn(b, t).Some? then TextoEn(b, t).value else TextoDe(c, t))
    ensures forall f :: BanderaDe(r, f) == (if BanderaEn(b, f).Some? then BanderaEn(b, f).value else BanderaDe(c, f))
    ensures r.monitorId == (if b.monitorId.Some? then b.monitorId else c.monitorId)
    ensures r.ticketLogoUrl == (if b.ticketLogoUrl.Some? then b.ticketLogoUrl else c.ticketLogoUrl)
  {
    c.(titulo := b.titulo.value,
       subtitulo := b.subtitulo.value,
       descripcion := b.descripcion.value,
       monitorId := if b.monitorId.Some? then b.monitorId else c.monitorId,
       totemTitulo := b.totemTitulo.GetOr(c.totemTitulo),
       totemDescripcion := b.totemDescripcion.GetOr(c.totemDescripcion),
       totemInstrucciones := b.totemInstrucciones.GetOr(c.totemInstrucciones),
       monitorTitulo := b.monitorTitulo.GetOr(c.monitorTitulo),
       monitorSubtitulo := b.monitorSubtitulo.GetOr(c.monitorSubtitulo),
       monitorPie := b.monitorPie.GetOr(c.monitorPie),
       operadorTitulo := b.operadorTitulo.GetOr(c.operadorTitulo),
       operadorInstrucciones := b.operadorInstrucciones.GetOr(c.operadorInstrucciones),
       ticketLogoUrl := if b.ticketLogoUrl.Some? then b.ticketLogoUrl else c.ticketLogoUrl,
       ticketEncabezado := b.ticketEncabezado.GetOr(c.ticketEncabezado),
       ticketPie := b.ticketPie.GetOr(c.ticketPie),
       ticketColorPrimario := b.ticketColorPrimario.GetOr(c.ticketColorPrimario),
       ticketMostrarFecha := b.ticketMostrarFecha.GetOr(c.ticketMostrarFecha),
       ticketMostrarHora := b.ticketMostrarHora.GetOr(c.ticketMostrarHora),
       ticketMostrarOperador := b.ticketMostrarOperador.GetOr(c.ticketMostrarOperador))
  }

  /** `upsert` on the record `default`: update the stored record, or create it. */
  function Upsert(stored: Option<Config>, b: ConfigBody): (r: Config)
    requires Completo(b)
    ensures stored.Some? ==> r.id == stored.value.id
    ensures stored.None? ==> r.id == ConfigId
    ensures r.titulo == b.titulo.value && r.subtitulo == b.subtitulo.value && r.descripcion == b.descripcion.value
  {
    match stored
    case Some(c) => Actualizar(c, b)
    case None => Crear(b)
  }

  /** No optional field: the body says only the three main texts. */
  predicate SoloPrincipales(b: ConfigBody) {
    && b.monitorId.None? && b.totemTitulo.None? && b.totemDescripcion.None? && b.totemInstrucciones.None?
    && b.monitorTitulo.None? && b.monitorSubtitulo.None? && b.monitorPie.None?
    && b.operadorTitulo.None? && b.operadorInstrucciones.None? && b.ticketLogoUrl.None?
    && b.ticketEncabezado.None? && b.ticketPie.None? && b.ticketColorPrimario.None?
    && b.ticketMostrarFecha.None? && b.ticketMostrarHora.None? && b.ticketMostrarOperador.None?
  }

  /** Every optional field is defined, every text among them non-empty. */
  predicate TodoDefinido(b: ConfigBody) {
    && b.monitorId.Some? && Truthy(b.totemTitulo) && Truthy(b.totemDescripcion) && Truthy(b.totemInstrucciones)
    && Truthy(b.monitorTitulo) && Truthy(b.monitorSubtitulo) && Truthy(b.monitorPie)
    && Truthy(b.operadorTitulo) && Truthy(b.operadorInstrucciones) && Truthy(b.ticketLogoUrl)
    && Truthy(b.ticketEncabezado) && Truthy(b.ticketPie) && Truthy(b.ticketColorPrimario)
    && b.ticketMostrarFecha.Some? && b.ticketMostrarHora.Some? && b.ticketMostrarOperador.Some?
  }

  /** The update writes a field exactly when the body defines it, `''` and `false` included. */
  lemma UpdateWritesDefined(c: Config, b: ConfigBody, k: Campo)
    requires Completo(b)
    ensures ValorDe(Actualizar(c, b), k) == (if ValorEn(b, k).Some? then ValorEn(b, k).value else ValorDe(c, k))
  {
  }

  /** A field the body leaves `undefined` keeps its stored value on update, whatever the other fields say. */
  lemma UpdateKeepsAbsent(c: Config, b: ConfigBody, k: Campo)
    requires Completo(b) && ValorEn(b, k).None?
    ensures ValorDe(Actualizar(c, b), k) == ValorDe(c, k)
  {
    UpdateWritesDefined(c, b, k);
  }

  /** With only the main texts, the update keeps every other field of the stored record. */
  lemma UpdateOnlyPrincipales(c: Config, b: ConfigBody)
    requires Completo(b) && SoloPrincipales(b)
    ensures Actualizar(c, b) == c.(titulo := b.titulo.value, subtitulo := b.subtitulo.value, descripcion := b.descripcion.value)
  {
    var r := Actualizar(c, b);
    var c' := c.(titulo := b.titulo.value, subtitulo := b.subtitulo.value, descripcion := b.descripcion.value);
    forall k
      ensures ValorDe(r, k) == ValorDe(c', k)
    {
      UpdateKeepsAbsent(c, b, k);
    }
    CamposDeterminan(r, c');
  }

  /** With only the main texts, the create path gives the record `GET` creates, with those texts. */
  lemma CreateFallsBackToInicial(b: ConfigBody)
    requires Completo(b) && SoloPrincipales(b)
    ensures Crear(b) == Inicial().(titulo := b.titulo.value, subtitulo := b.subtitulo.value, descripcion := b.descripcion.value)
  {
  }

  /** When the body defines every field with a truthy text, both branches of the upsert agree. */
  lemma UpsertBranchesAgree(c: Config, b: ConfigBody)
    requires Completo(b) && TodoDefinido(b) && c.id == ConfigId
    ensures Actualizar(c, b) == Crear(b)
  {
  }

  /** Any optional text sent as `''` is written as `''` by the update but replaced by its default on create. */
  lemma EmptyTextDiverges(c: Config, b: ConfigBody, t: Texto)
    requires Completo(b) && TextoEn(b, t) == Some("")
    ensures TextoDe(Actualizar(c, b), t) == "" && TextoDe(Crear(b), t) == Defecto(t)
  {
  }

  /** A logo sent as `''` is written as `''` by the update but stored as null on create. */
  lemma EmptyLogoDiverges(c: Config, b: ConfigBody)
    requires Completo(b) && b.ticketLogoUrl == Some("")
    ensures Actualizar(c, b).ticketLogoUrl == Some("") && Crear(b).ticketLogoUrl == None
  {
  }

  /** Any flag sent as `false` is kept by both branches. */
  lemma FalseFlagKept(c: Config, b: ConfigBody, f: Bandera)
    requires Completo(b) && BanderaEn(b, f) == Some(false)
    ensures !BanderaDe(Actualizar(c, b), f) && !BanderaDe(Crear(b), f)
  {
  }

  /** Saving the same body again over an existing record changes nothing. */
  lemma UpdateIdempotent(c: Config, b: ConfigBody)
    requires Completo(b)
    ensures Upsert(Some(Upsert(Some(c), b)), b) == Upsert(Some(c), b)
  {
  }

  /**
   * Over a missing record the first save and the second differ when the body
   * holds an empty text: the create stores the default, the update then `''`.
   */
  lemma SecondSaveAfterCreate(b: ConfigBody)
    requires Completo(b) && b.totemTitulo == Some("")
    ensures Upsert(None, b).totemTitulo == DefTotemTitulo
    ensures Upsert(Some(Upsert(None, b)), b).totemTitulo == ""
  {
  }
}
