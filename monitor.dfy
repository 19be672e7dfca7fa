/**
 * The waiting-room display (src/app/monitor/page.tsx): which of the active
 * tickets a monitor shows, the set of tickets it has already beeped for, the
 * choice of the monitor from the configuration, and the reset when no monitor
 * is chosen.
 */
module MonitorPage {
  import opened Common
  import opened Turnos

  /** An active ticket as `GET /api/turnos/activos` returns it, with its sector's id. */
  datatype TurnoActivo = TurnoActivo(id: string, numero: string, estado: string, sectorId: string)

  datatype SectorAsignado = SectorAsignado(id: string, nombre: string, color: string)

  /** `sectoresAsignados.some(sector => sector.id === turno.sector.id)`. */
  predicate Asignado(t: TurnoActivo, ss: seq<SectorAsignado>) {
    exists j :: 0 <= j < |ss| && ss[j].id == t.sectorId
  }

  /** The tickets of assigned sectors, in the server's order. */
  function DeAsignados(data: seq<TurnoActivo>, ss: seq<SectorAsignado>): (r: seq<TurnoActivo>)
    ensures |r| <= |data|
    ensures forall t :: t in r <==> t in data && Asignado(t, ss)
  {
    if data == [] then []
    else
      var last := data[|data| - 1];
      assert data == data[..|data| - 1] + [last];
      DeAsignados(data[..|data| - 1], ss) + (if Asignado(last, ss) then [last] else [])
  }

  /** `turnosFiltrados`: nothing without assigned sectors, otherwise the tickets of assigned sectors. */
  function Filtrados(data: seq<TurnoActivo>, ss: seq<SectorAsignado>): (r: seq<TurnoActivo>)
    ensures |ss| == 0 ==> r == []
    ensures |ss| > 0 ==> forall t :: t in r <==> t in data && Asignado(t, ss)
  {
    if |ss| > 0 then DeAsignados(data, ss) else []
  }

  /** The filter keeps the server's order: filtering a concatenation concatenates the filtered parts. */
  lemma {:induction false} FiltradosAppend(a: seq<TurnoActivo>, b: seq<TurnoActivo>, ss: seq<SectorAsignado>)
    ensures Filtrados(a + b, ss) == Filtrados(a, ss) + Filtrados(b, ss)
  {
    if |ss| > 0 && b != [] {
      var b' := b[..|b| - 1];
      assert (a + b)[..|a + b| - 1] == a + b';
      FiltradosAppend(a, b', ss);
    } else if b == [] {
      assert a + b == a;
    }
  }

  /** With every ticket in an assigned sector, the display shows the server's list as it is. */
  lemma {:induction false} TodosAsignados(data: seq<TurnoActivo>, ss: seq<SectorAsignado>)
    requires |ss| > 0 && forall j :: 0 <= j < |data| ==> Asignado(data[j], ss)
    ensures Filtrados(data, ss) == data
  {
    if data != [] {
      TodosAsignados(data[..|data| - 1], ss);
      assert data == data[..|data| - 1] + [data[|data| - 1]];
    }
  }

  /** `nuevosTurnosLlamados`: the shown tickets in state `llamado` not beeped for yet, in order. */
  function Nuevos(fs: seq<TurnoActivo>, beeped: set<string>): (r: seq<TurnoActivo>)
    ensures forall t :: t in r <==> t in fs && t.estado == Llamado && t.id !in beeped
  {
    if fs == [] then []
    else
      var last := fs[|fs| - 1];
      assert fs == fs[..|fs| - 1] + [last];
      Nuevos(fs[..|fs| - 1], beeped) + (if last.estado == Llamado && last.id !in beeped then [last] else [])
  }

  function IdsDe(ts: seq<TurnoActivo>): (r: set<string>)
    ensures forall id :: id in r <==> exists t :: t in ts && t.id == id
  {
    if ts == [] then {}
    else
      assert ts == ts[..|ts| - 1] + [ts[|ts| - 1]];
      IdsDe(ts[..|ts| - 1]) + {ts[|ts| - 1].id}
  }

  lemma IdsDePrefijo(ts: seq<TurnoActivo>, k: nat)
    requires k < |ts|
    ensures IdsDe(ts[..k + 1]) == IdsDe(ts[..k]) + {ts[k].id}
  {
    assert ts[..k + 1][..k] == ts[..k];
  }

  /** The ids one poll of the shown list `fs` beeps for, given the ids beeped before. */
  function Sonar(beeped: set<string>, fs: seq<TurnoActivo>): (r: set<string>)
    ensures r !! beeped
    ensures forall id :: id in r <==> exists t :: t in fs && t.estado == Llamado && t.id == id && id !in beeped
  {
    IdsDe(Nuevos(fs, beeped))
  }

  /** The beeped set after a run of polls, each given by the list it shows. */
  function Despues(beeped: set<string>, polls: seq<seq<TurnoActivo>>): set<string>
    decreases |polls|
  {
    if polls == [] then beeped else Despues(beeped + Sonar(beeped, polls[0]), polls[1..])
  }

  /** The ids each poll of a run beeps for, in poll order. */
  function Sonados(beeped: set<string>, polls: seq<seq<TurnoActivo>>): (r: seq<set<string>>)
    ensures |r| == |polls|
    decreases |polls|
  {
    if polls == [] then [] else [Sonar(beeped, polls[0])] + Sonados(beeped + Sonar(beeped, polls[0]), polls[1..])
  }

  /**
   * Over any run of polls each ticket id beeps at most once: no poll beeps for
   * an id beeped before the run, the ids of two different polls are disjoint,
   * and every id beeped for stays in the set.
   */
  lemma {:induction false} AtMostOneBeep(beeped: set<string>, polls: seq<seq<TurnoActivo>>)
    ensures beeped <= Despues(beeped, polls)
    ensures forall i :: 0 <= i < |polls| ==> Sonados(beeped, polls)[i] !! beeped
    ensures forall i :: 0 <= i < |polls| ==> Sonados(beeped, polls)[i] <= Despues(beeped, polls)
    ensures forall i, j :: 0 <= i < j < |polls| ==> Sonados(beeped, polls)[i] !! Sonados(beeped, polls)[j]
    decreases |polls|
  {
    if polls != [] {
      var now := Sonar(beeped, polls[0]);
      var rest := polls[1..];
      AtMostOneBeep(beeped + now, rest);
      var s := Sonados(beeped, polls);
      assert s == [now] + Sonados(beeped + now, rest);
      forall i, j | 0 <= i < j < |polls| ensures s[i] !! s[j] {
        if i > 0 {
          assert s[i] == Sonados(beeped + now, rest)[i - 1];
        }
        assert s[j] == Sonados(beeped + now, rest)[j - 1];
      }
      forall i | 0 <= i < |polls| ensures s[i] !! beeped && s[i] <= Despues(beeped, polls) {
        if i > 0 {
          assert s[i] == Sonados(beeped + now, rest)[i - 1];
        }
      }
    }
  }

  /** The state of the display page. */
  class Pantalla {
    var turnosActivos: seq<TurnoActivo>
    var sectoresAsignados: seq<SectorAsignado>
    /** `turnosBeepedRef.current`. */
    var beeped: set<string>
    var monitorConfigurado: Option<string>
    /** `''` while no monitor is chosen. */
    var monitorSeleccionado: string
    var loading: bool

    constructor ()
      ensures turnosActivos == [] && sectoresAsignados == [] && beeped == {}
      ensures monitorConfigurado == None && monitorSeleccionado == "" && loading
    {
      turnosActivos, sectoresAsignados, beeped := [], [], {};
      monitorConfigurado, monitorSeleccionado, loading := None, "", true;
    }

    /**
     * `cargarTurnosActivos`: `respuesta` is the list of an ok answer, `None`
     * when the request fails. The shown list is replaced by the filtered one,
     * the new called tickets join the beeped set, and `beep` says whether the
     * double beep plays.
     */
    method CargarTurnosActivos(respuesta: Option<seq<TurnoActivo>>) returns (beep: bool)
      modifies this`turnosActivos, this`beeped
      ensures respuesta.None? ==> !beep && turnosActivos == old(turnosActivos) && beeped == old(beeped)
      ensures respuesta.Some? ==>
        var fs := Filtrados(respuesta.value, sectoresAsignados);
        && turnosActivos == fs
        && beeped == old(beeped) + Sonar(old(beeped), fs)
        && (beep <==> Sonar(old(beeped), fs) != {})
    {
      beep := false;
      if respuesta.None? {
        return;
      }
      var filtrados := Filtrados(respuesta.value, sectoresAsignados);
      var nuevos := Nuevos(filtrados, beeped);
      if |nuevos| > 0 {
        Marcar(nuevos);
        assert nuevos[0] in nuevos;
        beep := true;
      }
      turnosActivos := filtrados;
    }

    /** `nuevosTurnosLlamados.forEach(turno => turnosBeepedRef.current.add(turno.id))`. */
    method Marcar(nuevos: seq<TurnoActivo>)
      modifies this`beeped
      ensures beeped == old(beeped) + IdsDe(nuevos)
    {
      for k := 0 to |nuevos|
        invariant beeped == old(beeped) + IdsDe(nuevos[..k])
      {
        IdsDePrefijo(nuevos, k);
        beeped := beeped + {nuevos[k].id};
      }
      assert nuevos[..|nuevos|] == nuevos;
    }

    /** `cargarConfiguracion` with an ok answer naming `monitorId`; `urlMonitorId` is the `monitor` URL parameter. */
    method CargarConfiguracion(urlMonitorId: Option<string>, monitorId: Option<string>)
      modifies this`monitorConfigurado, this`monitorSeleccionado
      ensures monitorConfigurado == monitorId
      ensures !Truthy(urlMonitorId) && Truthy(monitorId) ==> monitorSeleccionado == monitorId.value
      ensures Truthy(urlMonitorId) || !Truthy(monitorId) ==> monitorSeleccionado == old(monitorSeleccionado)
    {
      monitorConfigurado := monitorId;
      if !Truthy(urlMonitorId) && Truthy(monitorId) {
        monitorSeleccionado := monitorId.value;
      }
    }

    /** `handleCambiarMonitor` and a click on a monitor card. */
    method CambiarMonitor(nuevo: string)
      modifies this`monitorSeleccionado
      ensures monitorSeleccionado == nuevo
    {
      monitorSeleccionado := nuevo;
    }

    /**
     * The effect that runs when the selection changes: with a monitor it asks
     * for its sectors and tickets (`cargar` is true and nothing changes yet);
     * without one it clears both lists and stops loading.
     */
    method EfectoSeleccion() returns (cargar: bool)
      modifies this`sectoresAsignados, this`turnosActivos, this`loading
      ensures cargar <==> monitorSeleccionado != ""
      ensures cargar ==> sectoresAsignados == old(sectoresAsignados) && turnosActivos == old(turnosActivos)
                         && loading == old(loading)
      ensures !cargar ==> sectoresAsignados == [] && turnosActivos == [] && !loading
    {
      if monitorSeleccionado != "" {
        return true;
      }
      sectoresAsignados, turnosActivos, loading := [], [], false;
      return false;
    }

    /** `cargarSectoresAsignados`: `respuesta` is the monitor's sectors from an ok answer, `None` otherwise. */
    method CargarSectoresAsignados(respuesta: Option<seq<SectorAsignado>>)
      modifies this`sectoresAsignados
      ensures monitorSeleccionado != "" && respuesta.Some? ==> sectoresAsignados == respuesta.value
      ensures monitorSeleccionado == "" || respuesta.None? ==> sectoresAsignados == old(sectoresAsignados)
    {
      if monitorSeleccionado == "" {
        return;
      }
      if respuesta.Some? {
        sectoresAsignados := respuesta.value;
      }
    }
  }
}
