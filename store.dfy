/**
 * The database behind the API routes as one object whose tables the routes
 * rewrite: tickets (src/app/api/turnos), sectors, operators, monitors, the
 * ticket cleanup, the statistics query and the configuration record
 * (src/app/api/admin). Each route is one atomic method.
 */
module Store {
  import opened Common
  import opened Sorting
  import opened Turnos
  import opened Configuracion
  import opened Estadisticas

  /** An operator as the routes return it: every column except `password`, and its linked sectors. */
  datatype OperadorPublico = OperadorPublico(id: string, username: string, nombre: string, activo: bool, sectorIds: seq<string>)

  /** The sector ids linked to `ownerId`, in link order. */
  function SectoresDe(ownerId: string, enlaces: seq<Enlace>): (r: seq<string>)
    ensures forall s :: s in r <==> Enlace(ownerId, s) in enlaces
  {
    if enlaces == [] then []
    else
      var rest := SectoresDe(ownerId, enlaces[1..]);
      assert enlaces == [enlaces[0]] + enlaces[1..];
      if enlaces[0].ownerId == ownerId then [enlaces[0].sectorId] + rest else rest
  }

  /** `const { password, ...resto } = op`, with the operator's sector links. */
  function Publico(o: Operador, enlaces: seq<Enlace>): (p: OperadorPublico)
    ensures p.id == o.id && p.username == o.username && p.nombre == o.nombre && p.activo == o.activo
    ensures forall s :: s in p.sectorIds <==> Enlace(o.id, s) in enlaces
  {
    OperadorPublico(o.id, o.username, o.nombre, o.activo, SectoresDe(o.id, enlaces))
  }

  /** One link row per listed sector id, in list order. */
  function Enlaces(ownerId: string, ids: seq<string>): (r: seq<Enlace>)
    ensures |r| == |ids|
    ensures forall j :: 0 <= j < |ids| ==> r[j] == Enlace(ownerId, ids[j])
    ensures forall l :: l in r <==> l.ownerId == ownerId && l.sectorId in ids
  {
    seq(|ids|, j requires 0 <= j < |ids| => Enlace(ownerId, ids[j]))
  }

  /** The listed ids of an optional `sectorIds` body field: none when absent. */
  function Ids(sectorIds: Option<seq<string>>): seq<string> {
    if sectorIds.Some? then sectorIds.value else []
  }

  /** `estados && estados.length > 0 ? estados : ['llamado', 'atendiendo']`. */
  function EstadosALimpiar(estados: Option<seq<string>>): (r: seq<string>)
    ensures |r| > 0
    ensures estados.Some? && |estados.value| > 0 ==> r == estados.value
    ensures estados.None? || estados.value == [] ==> r == [Llamado, Atendiendo]
  {
    if estados.Some? && |estados.value| > 0 then estados.value else [Llamado, Atendiendo]
  }

  /**
   * The ticket after `actualizar` to state `e` at time `now`: `atendiendo`
   * stamps the attention time, `finalizado` and `ausente` the end time, the
   * other states write only the state.
   */
  function Actualizado(t: Turno, e: string, now: nat): (r: Turno)
    ensures r.estado == e
    ensures r.(estado := t.estado, fechaAtencion := t.fechaAtencion, fechaFinalizado := t.fechaFinalizado) == t
    ensures e == Atendiendo ==> r.fechaAtencion == Some(now) && r.fechaFinalizado == t.fechaFinalizado
    ensures e == Finalizado || e == Ausente ==> r.fechaFinalizado == Some(now) && r.fechaAtencion == t.fechaAtencion
    ensures e != Atendiendo && e != Finalizado && e != Ausente ==> r == t.(estado := e)
  {
    var u := t.(estado := e);
    if e == Atendiendo then u.(fechaAtencion := Some(now))
    else if e == Finalizado || e == Ausente then u.(fechaFinalizado := Some(now))
    else u
  }

  /** The tickets `deleteMany` removes: those whose state is listed, in table order. */
  function Coinciden(ts: seq<Turno>, es: seq<string>): (r: seq<Turno>)
    ensures forall t :: t in r <==> t in ts && t.estado in es
  {
    if ts == [] then []
    else
      assert ts == [ts[0]] + ts[1..];
      (if ts[0].estado in es then [ts[0]] else []) + Coinciden(ts[1..], es)
  }

  /** The tickets `deleteMany` leaves, unchanged and in table order. */
  function Restantes(ts: seq<Turno>, es: seq<string>): (r: seq<Turno>)
    ensures forall t :: t in r <==> t in ts && t.estado !in es
    ensures (forall j :: 0 <= j < |ts| ==> ts[j].estado !in es) ==> r == ts
    ensures UniqueKeys(ts, TurnoId) ==> UniqueKeys(r, TurnoId)
  {
    if ts == [] then []
    else
      assert ts == [ts[0]] + ts[1..];
      var rest := Restantes(ts[1..], es);
      if ts[0].estado in es then rest
      else
        assert forall j :: 0 <= j < |rest| ==> rest[j] in ts[1..];
        [ts[0]] + rest
  }

  /** Cleaning splits the table: every ticket is either removed or kept, never both. */
  lemma {:induction false} CleanupSplits(ts: seq<Turno>, es: seq<string>)
    ensures multiset(Coinciden(ts, es)) + multiset(Restantes(ts, es)) == multiset(ts)
    ensures |Coinciden(ts, es)| + |Restantes(ts, es)| == |ts|
  {
    if ts != [] {
      CleanupSplits(ts[1..], es);
      assert ts == [ts[0]] + ts[1..];
    }
  }

  /** The `where` of `GET /api/turnos/listar`: waiting tickets of one sector, in table order. */
  function EnEspera(ts: seq<Turno>, sectorId: string): (r: seq<Turno>)
    ensures forall t :: t in r <==> t in ts && t.sectorId == sectorId && t.estado == Esperando
  {
    if ts == [] then []
    else
      assert ts == [ts[0]] + ts[1..];
      (if ts[0].sectorId == sectorId && ts[0].estado == Esperando then [ts[0]] else []) + EnEspera(ts[1..], sectorId)
  }

  function Activos(ss: seq<Sector>): (r: seq<Sector>)
    ensures forall s :: s in r <==> s in ss && s.activo
  {
    if ss == [] then []
    else
      assert ss == [ss[0]] + ss[1..];
      (if ss[0].activo then [ss[0]] else []) + Activos(ss[1..])
  }

  /** The waiting tickets of a table split in two are those of each part, in order and each once. */
  lemma {:induction false} EnEsperaAppend(a: seq<Turno>, b: seq<Turno>, sectorId: string)
    ensures EnEspera(a + b, sectorId) == EnEspera(a, sectorId) + EnEspera(b, sectorId)
  {
    if a == [] {
      assert a + b == b;
    } else {
      assert (a + b)[1..] == a[1..] + b;
      EnEsperaAppend(a[1..], b, sectorId);
    }
  }

  /** The active sectors of a table split in two are those of each part, in order and each once. */
  lemma {:induction false} ActivosAppend(a: seq<Sector>, b: seq<Sector>)
    ensures Activos(a + b) == Activos(a) + Activos(b)
  {
    if a == [] {
      assert a + b == b;
    } else {
      assert (a + b)[1..] == a[1..] + b;
      ActivosAppend(a[1..], b);
    }
  }

  /** The `createdAt` bounds of the statistics filter: each only when its parameter is truthy. */
  function Limites(fechaDesde: Option<string>, fechaHasta: Option<string>, parseDate: string -> nat)
    : (b: (Option<nat>, Option<nat>))
    ensures b.0.Some? <==> Truthy(fechaDesde)
    ensures b.1.Some? <==> Truthy(fechaHasta)
    ensures b.0.Some? ==> b.0.value == parseDate(fechaDesde.value)
    ensures b.1.Some? ==> b.1.value == parseDate(fechaHasta.value)
  {
    (if Truthy(fechaDesde) then Some(parseDate(fechaDesde.value)) else None,
     if Truthy(fechaHasta) then Some(parseDate(fechaHasta.value)) else None)
  }

  /** `gte` and `lte` on `createdAt`, each checked only when the bound is there. */
  predicate EnRango(t: Turno, desde: Option<nat>, hasta: Option<nat>) {
    (desde.None? || desde.value <= t.createdAt) && (hasta.None? || t.createdAt <= hasta.value)
  }

  function Filtrar(ts: seq<Turno>, desde: Option<nat>, hasta: Option<nat>): (r: seq<Turno>)
    ensures forall t :: t in r <==> t in ts && EnRango(t, desde, hasta)
  {
    if ts == [] then []
    else
      assert ts == [ts[0]] + ts[1..];
      (if EnRango(ts[0], desde, hasta) then [ts[0]] else []) + Filtrar(ts[1..], desde, hasta)
  }

  /** The tickets in range of a table split in two are those of each part, in order and each once. */
  lemma {:induction false} FiltrarAppend(a: seq<Turno>, b: seq<Turno>, desde: Option<nat>, hasta: Option<nat>)
    ensures Filtrar(a + b, desde, hasta) == Filtrar(a, desde, hasta) + Filtrar(b, desde, hasta)
  {
    if a == [] {
      assert a + b == b;
    } else {
      assert (a + b)[1..] == a[1..] + b;
      FiltrarAppend(a[1..], b, desde, hasta);
    }
  }

  /** A sector whose ticket counter moved on by one, every other column kept. */
  function Siguiente(s: Sector): (r: Sector)
    ensures r.numeroTurno == s.numeroTurno + 1
    ensures r.id == s.id && r.nombre == s.nombre && r.(numeroTurno := s.numeroTurno) == s
  {
    s.(numeroTurno := s.numeroTurno + 1)
  }

  class Store {
    var sectores: seq<Sector>
    var turnos: seq<Turno>
    var operadores: seq<Operador>
    var operadorSectores: seq<Enlace>
    var monitores: seq<Monitor>
    var monitorSectores: seq<Enlace>
    var configuracion: Option<Config>
    /** The notifications handed to the relay, oldest first. */
    var avisos: seq<Aviso>

    /** Sector ids and names are unique. */
    ghost predicate SectoresOk()
      reads this`sectores
    {
      UniqueKeys(sectores, SectorId) && UniqueKeys(sectores, SectorNombre)
    }

    /** Ticket ids are unique and every ticket belongs to an existing sector. */
    ghost predicate TurnosOk()
      reads this`turnos, this`sectores
    {
      && UniqueKeys(turnos, TurnoId)
      && (forall t :: t in turnos ==> t.sectorId in Keys(sectores, SectorId))
    }

    /** Operator ids and usernames are unique; every link joins an existing operator and sector. */
    ghost predicate OperadoresOk()
      reads this`operadores, this`operadorSectores, this`sectores
    {
      && UniqueKeys(operadores, OperadorId) && UniqueKeys(operadores, OperadorUsername)
      && (forall l :: l in operadorSectores ==> l.ownerId in Keys(operadores, OperadorId) && l.sectorId in Keys(sectores, SectorId))
    }

    /** Monitor ids are unique and every link starts at an existing monitor. */
    ghost predicate MonitoresOk()
      reads this`monitores, this`monitorSectores
    {
      && UniqueKeys(monitores, MonitorId)
      && (forall l :: l in monitorSectores ==> l.ownerId in Keys(monitores, MonitorId))
    }

    /** The primary keys, unique columns and relations the routes rely on, and the single configuration record. */
    ghost predicate Valid()
      reads this`sectores, this`turnos, this`operadores, this`operadorSectores
      reads this`monitores, this`monitorSectores, this`configuracion
    {
      && SectoresOk() && TurnosOk() && OperadoresOk() && MonitoresOk()
      && (configuracion.Some? ==> configuracion.value.id == ConfigId)
    }

    constructor ()
      ensures Valid()
      ensures sectores == [] && turnos == [] && operadores == [] && operadorSectores == []
      ensures monitores == [] && monitorSectores == [] && configuracion == None && avisos == []
    {
      sectores, turnos, operadores, operadorSectores := [], [], [], [];
      monitores, monitorSectores, configuracion, avisos := [], [], None, [];
    }

    // ------------------------------------------------------------ tickets

    /** `GET /api/turnos`: the active sectors, by name. */
    function SectoresActivos(): (r: seq<Sector>)
      reads this
      ensures Sorted(r, SectorNombreLe)
      ensures multiset(r) == multiset(Activos(sectores))
      ensures forall s :: s in r <==> s in sectores && s.activo
    {
      NombreOrdersAreTotal();
      SortBy(Activos(sectores), SectorNombreLe)
    }

    /** `POST /api/turnos`: issue a ticket in a sector. */
    method EmitirTurno(dni: Option<string>, sectorId: Option<string>, freshId: string, now: nat)
      returns (r: Response<Turno>)
      requires Valid() && freshId !in Keys(turnos, TurnoId)
      modifies this`turnos, this`sectores, this`avisos
      ensures Valid()
      ensures !Truthy(dni) || !Truthy(sectorId) ==> r == Fail(400, "DNI y sector son requeridos")
      ensures Truthy(dni) && Truthy(sectorId) && !AllDigits(dni.value) ==> r == Fail(400, "El DNI debe contener solo números")
      ensures Truthy(dni) && Truthy(sectorId) && AllDigits(dni.value) && sectorId.value !in old(Keys(sectores, SectorId))
        ==> r == Fail(404, "Sector no encontrado")
      ensures Truthy(dni) && Truthy(sectorId) && AllDigits(dni.value) && old(IndexOf(sectores, SectorId, sectorId.value)).Some?
        ==> var s := old(sectores)[old(IndexOf(sectores, SectorId, sectorId.value)).value];
            (!s.activo <==> r == Fail(400, "El sector no está activo"))
      ensures r.Ok? <==>
        && Truthy(dni) && Truthy(sectorId) && AllDigits(dni.value)
        && old(IndexOf(sectores, SectorId, sectorId.value)).Some?
        && old(sectores)[old(IndexOf(sectores, SectorId, sectorId.value)).value].activo
      ensures r.Fail? ==> turnos == old(turnos) && sectores == old(sectores) && avisos == old(avisos)
      ensures r.Ok? ==>
        && Truthy(dni) && Truthy(sectorId) && old(IndexOf(sectores, SectorId, sectorId.value)).Some?
        && var i := old(IndexOf(sectores, SectorId, sectorId.value)).value;
           var s := old(sectores)[i];
           && s.activo
           && r.status == 201
           && r.value == Turno(freshId, NumeroTurno(s.nombre, s.numeroTurno), dni.value, sectorId.value,
                               Esperando, None, now, None, None, None)
           && turnos == old(turnos) + [r.value]
           && sectores == old(sectores)[i := Siguiente(s)]
           && avisos == old(avisos) + [TurnoNuevo(r.value)]
    {
      if !Truthy(dni) || !Truthy(sectorId) {
        return Fail(400, "DNI y sector son requeridos");
      }
      if !AllDigits(dni.value) {
        return Fail(400, "El DNI debe contener solo números");
      }
      var idx := IndexOf(sectores, SectorId, sectorId.value);
      if idx.None? {
        return Fail(404, "Sector no encontrado");
      }
      var s := sectores[idx.value];
      if !s.activo {
        return Fail(400, "El sector no está activo");
      }
      var turno := Turno(freshId, NumeroTurno(s.nombre, s.numeroTurno), dni.value, sectorId.value,
                         Esperando, None, now, None, None, None);
      Crear(turno, idx.value);
      r := Ok(201, turno);
    }

    /** The part of `POST /api/turnos` after validation: create, bump the sector's counter, notify. */
    method Crear(turno: Turno, i: nat)
      requires Valid() && i < |sectores| && sectores[i].id == turno.sectorId && turno.id !in Keys(turnos, TurnoId)
      modifies this`turnos, this`sectores, this`avisos
      ensures Valid()
      ensures turnos == old(turnos) + [turno]
      ensures sectores == old(sectores)[i := Siguiente(old(sectores)[i])]
      ensures avisos == old(avisos) + [TurnoNuevo(turno)]
    {
      InsertarTurno(turno, i);
      IncrementarContador(i);
      Avisar(TurnoNuevo(turno));
    }

    /** `notifyTurnoNuevo` and its siblings: the notification is handed to the relay. */
    method Avisar(a: Aviso)
      requires Valid()
      modifies this`avisos
      ensures Valid() && avisos == old(avisos) + [a]
    {
      avisos := avisos + [a];
    }

    /** `db.turno.create`: a ticket of an existing sector, under a new id. */
    method InsertarTurno(t: Turno, j: nat)
      requires Valid() && t.id !in Keys(turnos, TurnoId) && j < |sectores| && sectores[j].id == t.sectorId
      modifies this`turnos
      ensures Valid() && turnos == old(turnos) + [t]
    {
      assert Keys(sectores, SectorId)[j] == t.sectorId;
      KeysAppend(turnos, t, TurnoId);
      turnos := turnos + [t];
    }

    /** `db.sector.update` of the counter: one more than the value read, every other column kept. */
    method IncrementarContador(i: nat)
      requires Valid() && i < |sectores|
      modifies this`sectores
      ensures Valid()
      ensures sectores == old(sectores)[i := Siguiente(old(sectores)[i])]
    {
      var s := Siguiente(sectores[i]);
      KeysUpdate(sectores, i, s, SectorId);
      KeysUpdate(sectores, i, s, SectorNombre);
      sectores := sectores[i := s];
    }

    /** `POST /api/turnos/llamar`: an operator calls a ticket, whatever its state. */
    method LlamarTurno(turnoId: Option<string>, operadorId: Option<string>, now: nat) returns (r: Response<Turno>)
      requires Valid()
      modifies this`turnos, this`avisos
      ensures Valid()
      ensures !Truthy(turnoId) || !Truthy(operadorId) ==> r == Fail(400, "Turno ID y Operador ID son requeridos")
      ensures Truthy(turnoId) && Truthy(operadorId) && turnoId.value !in old(Keys(turnos, TurnoId))
        ==> r == Fail(404, "Turno no encontrado")
      ensures r.Fail? ==> turnos == old(turnos) && avisos == old(avisos)
      ensures r.Ok? <==> Truthy(turnoId) && Truthy(operadorId) && turnoId.value in old(Keys(turnos, TurnoId))
      ensures r.Ok? ==>
        var i := old(IndexOf(turnos, TurnoId, turnoId.value)).value;
        && r.status == 200
        && r.value == old(turnos)[i].(estado := Llamado, operadorId := Some(operadorId.value), fechaLlamado := Some(now))
        && turnos == old(turnos)[i := r.value]
        && avisos == old(avisos) + [TurnoLlamado(r.value)]
    {
      if !Truthy(turnoId) || !Truthy(operadorId) {
        return Fail(400, "Turno ID y Operador ID son requeridos");
      }
      var idx := IndexOf(turnos, TurnoId, turnoId.value);
      if idx.None? {
        return Fail(404, "Turno no encontrado");
      }
      var t := turnos[idx.value].(estado := Llamado, operadorId := Some(operadorId.value), fechaLlamado := Some(now));
      ReemplazarTurno(idx.value, t);
      Avisar(TurnoLlamado(t));
      r := Ok(200, t);
    }

    /** `POST /api/turnos/actualizar`: move a ticket to any valid state, stamping the matching time. */
    method ActualizarTurno(turnoId: Option<string>, estado: Option<string>, now: nat) returns (r: Response<Turno>)
      requires Valid()
      modifies this`turnos, this`avisos
      ensures Valid()
      ensures !Truthy(turnoId) || !Truthy(estado) ==> r == Fail(400, "Turno ID y estado son requeridos")
      ensures Truthy(turnoId) && Truthy(estado) && !EstadoValido(estado.value) ==> r == Fail(400, "Estado no válido")
      ensures Truthy(turnoId) && Truthy(estado) && EstadoValido(estado.value) && turnoId.value !in old(Keys(turnos, TurnoId))
        ==> r == Fail(500, "Error al actualizar turno")
      ensures r.Fail? ==> turnos == old(turnos) && avisos == old(avisos)
      ensures r.Ok? <==> Truthy(turnoId) && Truthy(estado) && EstadoValido(estado.value) && turnoId.value in old(Keys(turnos, TurnoId))
      ensures r.Ok? ==>
        var i := old(IndexOf(turnos, TurnoId, turnoId.value)).value;
        && r.status == 200
        && r.value == Actualizado(old(turnos)[i], estado.value, now)
        && turnos == old(turnos)[i := r.value]
        && avisos == old(avisos) + [TurnoActualizado(r.value)]
    {
      if !Truthy(turnoId) || !Truthy(estado) {
        return Fail(400, "Turno ID y estado son requeridos");
      }
      if !EstadoValido(estado.value) {
        return Fail(400, "Estado no válido");
      }
      var idx := IndexOf(turnos, TurnoId, turnoId.value);
      if idx.None? {
        return Fail(500, "Error al actualizar turno");
      }
      var t := turnos[idx.value].(estado := estado.value);
      if estado.value == Atendiendo {
        t := t.(fechaAtencion := Some(now));
      } else if estado.value == Finalizado || estado.value == Ausente {
        t := t.(fechaFinalizado := Some(now));
      }
      ReemplazarTurno(idx.value, t);
      Avisar(TurnoActualizado(t));
      r := Ok(200, t);
    }

    /** `db.turno.update` of one row: the id and the sector stay, so every key and relation still holds. */
    method ReemplazarTurno(i: nat, t: Turno)
      requires Valid() && i < |turnos| && t.id == turnos[i].id && t.sectorId == turnos[i].sectorId
      modifies this`turnos
      ensures Valid() && turnos == old(turnos)[i := t]
    {
      KeysUpdate(turnos, i, t, TurnoId);
      turnos := turnos[i := t];
    }

    /** `GET /api/turnos/listar`: the waiting tickets of a sector, oldest first. */
    function ListarEsperando(sectorId: Option<string>): (r: Response<seq<Turno>>)
      reads this
      ensures !Truthy(sectorId) ==> r == Fail(400, "Sector ID es requerido")
      ensures Truthy(sectorId) ==> r.Ok? && r.status == 200
      ensures r.Ok? ==> Sorted(r.value, CreadoAntes)
      ensures r.Ok? ==> multiset(r.value) == multiset(EnEspera(turnos, sectorId.value))
      ensures r.Ok? ==> forall t :: t in r.value <==> t in turnos && t.sectorId == sectorId.value && t.estado == Esperando
    {
      if !Truthy(sectorId) then Fail(400, "Sector ID es requerido")
      else Ok(200, SortBy(EnEspera(turnos, sectorId.value), CreadoAntes))
    }

    /** `POST /api/admin/turnos/limpiar`: delete the tickets in the listed states. */
    method LimpiarTurnos(estados: Option<seq<string>>) returns (cantidad: nat, usados: seq<string>)
      requires Valid()
      modifies this`turnos
      ensures Valid()
      ensures usados == EstadosALimpiar(estados)
      ensures cantidad == |Coinciden(old(turnos), usados)|
      ensures turnos == Restantes(old(turnos), usados)
      ensures cantidad + |turnos| == |old(turnos)|
    {
      usados := EstadosALimpiar(estados);
      cantidad := |Coinciden(turnos, usados)|;
      CleanupSplits(turnos, usados);
      turnos := Restantes(turnos, usados);
    }

    // ------------------------------------------------------------ statistics

    /** The tickets the statistics query returns: inside the bounds, newest first. */
    function Seleccion(desde: Option<nat>, hasta: Option<nat>): (r: seq<Turno>)
      reads this
      ensures Sorted(r, CreadoDespues)
      ensures multiset(r) == multiset(Filtrar(turnos, desde, hasta))
      ensures forall t :: t in r <==> t in turnos && EnRango(t, desde, hasta)
    {
      SortBy(Filtrar(turnos, desde, hasta), CreadoDespues)
    }

    /** A ticket with the `sector` and `operador` the query includes; an unknown operator reads as none. */
    function Unir(t: Turno): (f: Fila)
      reads this
      requires t.sectorId in Keys(sectores, SectorId)
      ensures f.turno == t
      ensures exists s :: s in sectores && s.id == t.sectorId && f.sectorNombre == s.nombre && f.sectorColor == s.color
      ensures f.operadorNombre.Some? <==> t.operadorId.Some? && t.operadorId.value in Keys(operadores, OperadorId)
    {
      var s := sectores[IndexOf(sectores, SectorId, t.sectorId).value];
      var op := if t.operadorId.Some? then IndexOf(operadores, OperadorId, t.operadorId.value) else None;
      Fila(t, s.nombre, s.color, if op.Some? then Some(operadores[op.value].nombre) else None)
    }

    function Filas(ts: seq<Turno>): (fs: seq<Fila>)
      reads this
      requires forall j :: 0 <= j < |ts| ==> ts[j].sectorId in Keys(sectores, SectorId)
      ensures |fs| == |ts| && forall j :: 0 <= j < |ts| ==> fs[j] == Unir(ts[j])
    {
      seq(|ts|, j requires 0 <= j < |ts| && ts[j].sectorId in Keys(sectores, SectorId) reads this => Unir(ts[j]))
    }

    /** `GET /api/admin/estadisticas`. */
    method ObtenerEstadisticas(fechaDesde: Option<string>, fechaHasta: Option<string>, parseDate: string -> nat)
      returns (inf: Informe)
      requires Valid()
      ensures var b := Limites(fechaDesde, fechaHasta, parseDate);
        var sel := Seleccion(b.0, b.1);
        && inf.resumen.totalTurnos == |sel|
        && inf.porEstado.finalizado == CountEstado(Filas(sel), Finalizado)
        && inf.porEstado.esperando == CountEstado(Filas(sel), Esperando)
        && SumTotal(inf.porSector) == |sel|
        && SumSeq(inf.porHora) == |sel| && SumDias(inf.porDia) == |sel|
        && |inf.ultimosTurnos| == (if |sel| < 10 then |sel| else 10)
        && forall j :: 0 <= j < |inf.ultimosTurnos| ==> inf.ultimosTurnos[j] == sel[j]
    {
      var b := Limites(fechaDesde, fechaHasta, parseDate);
      var sel := Seleccion(b.0, b.1);
      inf := Calcular(Filas(sel));
    }

    // ------------------------------------------------------------ configuration

    /** `GET /api/admin/configuracion`: the stored record, created with the defaults when missing. */
    method ObtenerConfiguracion() returns (c: Config)
      requires Valid()
      modifies this`configuracion
      ensures Valid()
      ensures old(configuracion).Some? ==> c == old(configuracion).value && configuracion == old(configuracion)
      ensures old(configuracion).None? ==> c == Inicial() && configuracion == Some(c)
    {
      if configuracion.None? {
        configuracion := Some(Inicial());
      }
      c := configuracion.value;
    }

    /** `PUT /api/admin/configuracion`: validate, then upsert the record. */
    method GuardarConfiguracion(b: ConfigBody) returns (r: Response<Config>)
      requires Valid()
      modifies this`configuracion
      ensures Valid()
      ensures !Completo(b) ==> r == Fail(400, "Los campos principales son requeridos")
      ensures Completo(b) && Truthy(b.monitorId) && b.monitorId.value !in Keys(monitores, MonitorId)
        ==> r == Fail(400, "Monitor no encontrado")
      ensures r.Fail? ==> configuracion == old(configuracion)
      ensures r.Ok? <==> Completo(b) && (Truthy(b.monitorId) ==> b.monitorId.value in Keys(monitores, MonitorId))
      ensures r.Ok? ==> r.status == 200 && r.value == Upsert(old(configuracion), b) && configuracion == Some(r.value)
    {
      if !Completo(b) {
        return Fail(400, "Los campos principales son requeridos");
      }
      if Truthy(b.monitorId) && IndexOf(monitores, MonitorId, b.monitorId.value).None? {
        return Fail(400, "Monitor no encontrado");
      }
      var c := Upsert(configuracion, b);
      configuracion := Some(c);
      r := Ok(200, c);
    }

    // ------------------------------------------------------------ sectors

    /** `GET /api/admin/sectores`: every sector, by name. */
    function ListarSectores(): (r: seq<Sector>)
      reads this
      ensures Sorted(r, SectorNombreLe)
      ensures multiset(r) == multiset(sectores)
    {
      NombreOrdersAreTotal();
      SortBy(sectores, SectorNombreLe)
    }

    /** `POST /api/admin/sectores`: create an active sector whose counter starts at 1. */
    method CrearSector(nombre: Option<string>, color: Option<string>, freshId: string) returns (r: Response<Sector>)
      requires Valid() && freshId !in Keys(sectores, SectorId)
      modifies this`sectores
      ensures Valid()
      ensures !Truthy(nombre) || !Truthy(color) ==> r == Fail(400, "Nombre y color son requeridos")
      ensures Truthy(nombre) && Truthy(color) && nombre.value in old(Keys(sectores, SectorNombre))
        ==> r == Fail(400, "El nombre del sector ya existe")
      ensures r.Fail? ==> sectores == old(sectores)
      ensures r.Ok? <==> Truthy(nombre) && Truthy(color) && nombre.value !in old(Keys(sectores, SectorNombre))
      ensures r.Ok? ==> r == Ok(201, Sector(freshId, nombre.value, color.value, true, 1)) && sectores == old(sectores) + [r.value]
    {
      if !Truthy(nombre) || !Truthy(color) {
        return Fail(400, "Nombre y color son requeridos");
      }
      if IndexOf(sectores, SectorNombre, nombre.value).Some? {
        return Fail(400, "El nombre del sector ya existe");
      }
      var s := Sector(freshId, nombre.value, color.value, true, 1);
      KeysAppend(sectores, s, SectorId);
      KeysAppend(sectores, s, SectorNombre);
      sectores := sectores + [s];
      r := Ok(201, s);
    }

    // ------------------------------------------------------------ operators

    /** `GET /api/admin/operadores`: every operator by name, without its password. */
    function ListarOperadores(): (r: seq<OperadorPublico>)
      reads this
      ensures |r| == |operadores|
      ensures forall j :: 0 < j < |r| ==> StrLe(r[j - 1].nombre, r[j].nombre)
      ensures forall o :: o in operadores ==> Publico(o, operadorSectores) in r
      ensures forall j :: 0 <= j < |r| ==> exists o :: o in operadores && r[j] == Publico(o, operadorSectores)
    {
      NombreOrdersAreTotal();
      var sorted, links := SortBy(operadores, OperadorNombreLe), operadorSectores;
      var r := seq(|sorted|, j requires 0 <= j < |sorted| => Publico(sorted[j], links));
      assert forall j :: 0 <= j < |r| ==> r[j] == Publico(sorted[j], links) && sorted[j] in sorted;
      assert forall o :: o in operadores ==> exists j :: 0 <= j < |sorted| && sorted[j] == o && r[j] == Publico(o, links);
      r
    }

    /** `POST /api/admin/operadores`: create an operator with a hashed password and its sector links. */
    method CrearOperador(username: Option<string>, password: Option<string>, nombre: Option<string>,
                         sectorIds: Option<seq<string>>, activo: Option<bool>, freshId: string, hash: string -> string)
      returns (r: Response<OperadorPublico>)
      requires Valid() && freshId !in Keys(operadores, OperadorId)
      modifies this`operadores, this`operadorSectores
      ensures Valid()
      ensures !Truthy(username) || !Truthy(password) || !Truthy(nombre)
        ==> r == Fail(400, "Username, password y nombre son requeridos")
      ensures Truthy(username) && Truthy(password) && Truthy(nombre) && username.value in old(Keys(operadores, OperadorUsername))
        ==> r == Fail(400, "El nombre de usuario ya existe")
      ensures Truthy(username) && Truthy(password) && Truthy(nombre) && username.value !in old(Keys(operadores, OperadorUsername))
        ==> ((exists k :: 0 <= k < |Ids(sectorIds)| && Ids(sectorIds)[k] !in Keys(sectores, SectorId))
             <==> r == Fail(404, "Uno o más sectores no encontrados"))
      ensures r.Ok? <==>
        && Truthy(username) && Truthy(password) && Truthy(nombre)
        && username.value !in old(Keys(operadores, OperadorUsername))
        && forall k :: 0 <= k < |Ids(sectorIds)| ==> Ids(sectorIds)[k] in Keys(sectores, SectorId)
      ensures r.Fail? ==> operadores == old(operadores) && operadorSectores == old(operadorSectores)
      ensures r.Ok? ==>
        var op := Operador(freshId, username.value, hash(password.value), nombre.value, activo.GetOr(true));
        && Truthy(username) && Truthy(password) && Truthy(nombre)
        && operadores == old(operadores) + [op]
        && operadorSectores == old(operadorSectores) + Enlaces(freshId, Ids(sectorIds))
        && r == Ok(201, OperadorPublico(freshId, username.value, nombre.value, op.activo, Ids(sectorIds)))
    {
      if !Truthy(username) || !Truthy(password) || !Truthy(nombre) {
        return Fail(400, "Username, password y nombre son requeridos");
      }
      if IndexOf(operadores, OperadorUsername, username.value).Some? {
        return Fail(400, "El nombre de usuario ya existe");
      }
      var ids := Ids(sectorIds);
      var faltante := PrimerFaltante(ids);
      if faltante.Some? {
        return Fail(404, "Uno o más sectores no encontrados");
      }
      var op := Operador(freshId, username.value, hash(password.value), nombre.value, activo.GetOr(true));
      InsertarOperador(op, ids);
      r := Ok(201, OperadorPublico(freshId, username.value, nombre.value, op.activo, ids));
    }

    /** The `for` over `sectorIds` of the operator route: the position of the first unknown sector, if any. */
    method PrimerFaltante(ids: seq<string>) returns (k: Option<nat>)
      ensures k.None? <==> forall j :: 0 <= j < |ids| ==> ids[j] in Keys(sectores, SectorId)
      ensures k.Some? ==> k.value < |ids| && ids[k.value] !in Keys(sectores, SectorId)
      ensures k.Some? ==> forall j :: 0 <= j < k.value ==> ids[j] in Keys(sectores, SectorId)
    {
      var i := 0;
      while i < |ids|
        invariant 0 <= i <= |ids|
        invariant forall j :: 0 <= j < i ==> ids[j] in Keys(sectores, SectorId)
      {
        if IndexOf(sectores, SectorId, ids[i]).None? {
          return Some(i);
        }
        i := i + 1;
      }
      return None;
    }

    /** `db.operador.create` with its nested sector links. */
    method InsertarOperador(op: Operador, ids: seq<string>)
      requires Valid() && op.id !in Keys(operadores, OperadorId) && op.username !in Keys(operadores, OperadorUsername)
      requires forall j :: 0 <= j < |ids| ==> ids[j] in Keys(sectores, SectorId)
      modifies this`operadores, this`operadorSectores
      ensures Valid()
      ensures operadores == old(operadores) + [op] && operadorSectores == old(operadorSectores) + Enlaces(op.id, ids)
    {
      KeysAppend(operadores, op, OperadorId);
      KeysAppend(operadores, op, OperadorUsername);
      operadores := operadores + [op];
      operadorSectores := operadorSectores + Enlaces(op.id, ids);
    }

    // ------------------------------------------------------------ monitors

    /** `GET /api/admin/monitores`: every monitor, by name. */
    function ListarMonitores(): (r: seq<Monitor>)
      reads this
      ensures Sorted(r, MonitorNombreLe)
      ensures multiset(r) == multiset(monitores)
    {
      NombreOrdersAreTotal();
      SortBy(monitores, MonitorNombreLe)
    }

    /** `POST /api/admin/monitores`: create an active monitor linked to the listed sectors. */
    method CrearMonitor(nombre: Option<string>, descripcion: Option<string>, sectorIds: Option<seq<string>>, freshId: string)
      returns (r: Response<Monitor>)
      requires Valid() && freshId !in Keys(monitores, MonitorId)
      modifies this`monitores, this`monitorSectores
      ensures Valid()
      ensures r.Fail? <==> !Truthy(nombre) || sectorIds.None? || |sectorIds.value| == 0
      ensures r.Fail? ==> r == Fail(400, "El nombre y al menos un sector son requeridos")
      ensures r.Fail? ==> monitores == old(monitores) && monitorSectores == old(monitorSectores)
      ensures r.Ok? ==>
        && r == Ok(200, Monitor(freshId, nombre.value, if Truthy(descripcion) then descripcion else None, true))
        && monitores == old(monitores) + [r.value]
        && monitorSectores == old(monitorSectores) + Enlaces(freshId, sectorIds.value)
    {
      if !Truthy(nombre) || sectorIds.None? || |sectorIds.value| == 0 {
        return Fail(400, "El nombre y al menos un sector son requeridos");
      }
      var m := Monitor(freshId, nombre.value, if Truthy(descripcion) then descripcion else None, true);
      KeysAppend(monitores, m, MonitorId);
      monitores := monitores + [m];
      monitorSectores := monitorSectores + Enlaces(freshId, sectorIds.value);
      r := Ok(200, m);
    }
  }
}
