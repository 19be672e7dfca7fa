/**
 * The operator console (src/app/llamador/page.tsx): the merge of the waiting
 * lists of the operator's sectors, the two de-duplications of that list, and
 * the rules that set and clear the ticket being served.
 */
module Llamador {
  import opened Common
  import opened Turnos

  /** A waiting ticket as `GET /api/turnos/listar` returns it. */
  datatype TurnoLista = TurnoLista(id: string, numero: string, dni: string, estado: string, createdAt: nat)

  /** The logged-in operator, with the ids of its sectors in link order. */
  datatype Sesion = Sesion(id: string, username: string, nombre: string, sectorIds: seq<string>)

  /** The request body of a call or of a state change. */
  datatype Pedido = Llamar(turnoId: string, operadorId: string) | Actualizar(turnoId: string, estado: string)

  function Id(t: TurnoLista): string { t.id }

  /** `.flat()` of the per-sector lists, in sector order. */
  function Aplanar(rs: seq<seq<TurnoLista>>): (r: seq<TurnoLista>)
    ensures forall t :: t in r <==> exists i :: 0 <= i < |rs| && t in rs[i]
  {
    if rs == [] then []
    else
      assert rs == rs[..|rs| - 1] + [rs[|rs| - 1]];
      Aplanar(rs[..|rs| - 1]) + rs[|rs| - 1]
  }

  /** The last ticket of `ts` with id `k`. */
  function Ultimo(ts: seq<TurnoLista>, k: string): (t: TurnoLista)
    requires k in Keys(ts, Id)
    ensures t in ts && t.id == k
  {
    var last := ts[|ts| - 1];
    assert Keys(ts, Id) == Keys(ts[..|ts| - 1], Id) + [last.id];
    if last.id == k then last else Ultimo(ts[..|ts| - 1], k)
  }

  /** `Map.set(t.id, t)` on an insertion-ordered map held as a list of its values. */
  function Poner(m: seq<TurnoLista>, t: TurnoLista): seq<TurnoLista> {
    var i := IndexOf(m, Id, t.id);
    if i.Some? then m[i.value := t] else m + [t]
  }

  /** `Array.from(new Map(ts.map(t => [t.id, t])).values())`. */
  function PorId(ts: seq<TurnoLista>): seq<TurnoLista> {
    if ts == [] then [] else Poner(PorId(ts[..|ts| - 1]), ts[|ts| - 1])
  }

  /** The render filter `arr.findIndex(t => t.id === turno.id) === index`, built up from the front. */
  function PrimeraVez(ts: seq<TurnoLista>): seq<TurnoLista> {
    if ts == [] then []
    else
      var pre := ts[..|ts| - 1];
      PrimeraVez(pre) + (if ts[|ts| - 1].id in Keys(pre, Id) then [] else [ts[|ts| - 1]])
  }

  /** The first ticket of `ts` with id `k`. */
  function Primero(ts: seq<TurnoLista>, k: string): (t: TurnoLista)
    requires k in Keys(ts, Id)
    ensures t in ts && t.id == k
  {
    var pre := ts[..|ts| - 1];
    assert Keys(ts, Id) == Keys(pre, Id) + [ts[|ts| - 1].id];
    if k in Keys(pre, Id) then Primero(pre, k) else ts[|ts| - 1]
  }

  /** The ids of `ts` without repeats, each where it first occurs. */
  function IdsPrimeraVez(ts: seq<TurnoLista>): seq<string> {
    if ts == [] then []
    else
      var pre := ts[..|ts| - 1];
      IdsPrimeraVez(pre) + (if ts[|ts| - 1].id in Keys(pre, Id) then [] else [ts[|ts| - 1].id])
  }

  lemma {:induction false} IdsPrimeraVezSpec(ts: seq<TurnoLista>)
    ensures forall k :: k in IdsPrimeraVez(ts) <==> k in Keys(ts, Id)
  {
    if ts != [] {
      var pre := ts[..|ts| - 1];
      IdsPrimeraVezSpec(pre);
      assert Keys(ts, Id) == Keys(pre, Id) + [ts[|ts| - 1].id];
    }
  }

  /** `Map.set` adds a new id at the end and leaves the order of the ids it has. */
  lemma PonerKeys(m: seq<TurnoLista>, t: TurnoLista)
    ensures t.id in Keys(m, Id) ==> Keys(Poner(m, t), Id) == Keys(m, Id)
    ensures t.id !in Keys(m, Id) ==> Keys(Poner(m, t), Id) == Keys(m, Id) + [t.id]
    ensures UniqueKeys(m, Id) ==> UniqueKeys(Poner(m, t), Id)
  {
    var i := IndexOf(m, Id, t.id);
    if i.Some? {
      KeysUpdate(m, i.value, t, Id);
    } else {
      KeysAppend(m, t, Id);
    }
  }

  /** The map de-duplication lists every id of the input once, where the id first occurs. */
  lemma {:induction false} PorIdKeys(ts: seq<TurnoLista>)
    ensures UniqueKeys(PorId(ts), Id)
    ensures Keys(PorId(ts), Id) == IdsPrimeraVez(ts)
    ensures forall k :: k in Keys(PorId(ts), Id) <==> k in Keys(ts, Id)
  {
    IdsPrimeraVezSpec(ts);
    if ts != [] {
      var pre := ts[..|ts| - 1];
      PorIdKeys(pre);
      IdsPrimeraVezSpec(pre);
      PonerKeys(PorId(pre), ts[|ts| - 1]);
    }
  }

  /** Each id of the map de-duplication holds the ticket of its last occurrence. */
  lemma {:induction false} PorIdValues(ts: seq<TurnoLista>)
    ensures forall j :: 0 <= j < |PorId(ts)| ==>
      PorId(ts)[j].id in Keys(ts, Id) && PorId(ts)[j] == Ultimo(ts, PorId(ts)[j].id)
  {
    if ts != [] {
      var pre, t := ts[..|ts| - 1], ts[|ts| - 1];
      var m := PorId(pre);
      PorIdValues(pre);
      PorIdKeys(pre);
      assert Keys(ts, Id) == Keys(pre, Id) + [t.id];
      var i := IndexOf(m, Id, t.id);
      var r := PorId(ts);
      if i.Some? {
        assert r == m[i.value := t];
        forall j | 0 <= j < |r| ensures r[j].id in Keys(ts, Id) && r[j] == Ultimo(ts, r[j].id) {
          if j != i.value {
            assert r[j] == m[j] && m[j].id != m[i.value].id;
          }
        }
      } else {
        assert r == m + [t];
        forall j | 0 <= j < |r| ensures r[j].id in Keys(ts, Id) && r[j] == Ultimo(ts, r[j].id) {
          if j < |m| {
            assert r[j] == m[j] && Keys(m, Id)[j] == m[j].id;
          }
        }
      }
    }
  }

  /** The render filter keeps one ticket per id, in the order the ids first occur. */
  lemma {:induction false} PrimeraVezKeys(ts: seq<TurnoLista>)
    ensures UniqueKeys(PrimeraVez(ts), Id)
    ensures Keys(PrimeraVez(ts), Id) == IdsPrimeraVez(ts)
  {
    if ts != [] {
      var pre, t := ts[..|ts| - 1], ts[|ts| - 1];
      var p := PrimeraVez(pre);
      PrimeraVezKeys(pre);
      IdsPrimeraVezSpec(pre);
      if t.id in Keys(pre, Id) {
        assert PrimeraVez(ts) == p && IdsPrimeraVez(ts) == IdsPrimeraVez(pre);
      } else {
        assert PrimeraVez(ts) == p + [t] && IdsPrimeraVez(ts) == IdsPrimeraVez(pre) + [t.id];
        KeysAppend(p, t, Id);
      }
    }
  }

  /** The ticket the render filter keeps for an id is the first one with that id. */
  lemma {:induction false} PrimeraVezValues(ts: seq<TurnoLista>)
    ensures forall j :: 0 <= j < |PrimeraVez(ts)| ==>
      PrimeraVez(ts)[j].id in Keys(ts, Id) && PrimeraVez(ts)[j] == Primero(ts, PrimeraVez(ts)[j].id)
  {
    if ts != [] {
      var pre, t := ts[..|ts| - 1], ts[|ts| - 1];
      var p := PrimeraVez(pre);
      PrimeraVezValues(pre);
      assert Keys(ts, Id) == Keys(pre, Id) + [t.id];
      var r := PrimeraVez(ts);
      forall j | 0 <= j < |r| ensures r[j].id in Keys(ts, Id) && r[j] == Primero(ts, r[j].id) {
        if j < |p| {
          assert r[j] == p[j];
        }
      }
    }
  }

  /** `Primero` is what `findIndex` finds: the ticket at the first index with that id. */
  lemma {:induction false} PrimeroIsFindIndex(ts: seq<TurnoLista>, k: string)
    requires k in Keys(ts, Id)
    ensures IndexOf(ts, Id, k).Some? && Primero(ts, k) == ts[IndexOf(ts, Id, k).value]
  {
    var pre, t := ts[..|ts| - 1], ts[|ts| - 1];
    assert Keys(ts, Id) == Keys(pre, Id) + [t.id];
    var i := IndexOf(ts, Id, k).value;
    if k in Keys(pre, Id) {
      PrimeroIsFindIndex(pre, k);
      var i' := IndexOf(pre, Id, k).value;
      assert ts[i'] == pre[i'];
      assert i <= i';
      assert ts[i] == pre[i];
      assert i == i';
    } else {
      assert forall j :: 0 <= j < |pre| ==> Keys(pre, Id)[j] == ts[j].id;
      assert i == |pre|;
    }
  }

  /**
   * The two de-duplications list the same ids in the same order, and the
   * render filter leaves the map's list as it is: after the map it has nothing
   * left to remove.
   */
  lemma SameIdsBothWays(ts: seq<TurnoLista>)
    ensures Keys(PorId(ts), Id) == Keys(PrimeraVez(ts), Id)
    ensures PrimeraVez(PorId(ts)) == PorId(ts)
  {
    PorIdKeys(ts);
    PrimeraVezKeys(ts);
    PrimeraVezOfUnique(PorId(ts));
  }

  lemma {:induction false} PrimeraVezOfUnique(ts: seq<TurnoLista>)
    requires UniqueKeys(ts, Id)
    ensures PrimeraVez(ts) == ts
  {
    if ts != [] {
      var pre := ts[..|ts| - 1];
      KeysAppend(pre, ts[|ts| - 1], Id);
      assert ts == pre + [ts[|ts| - 1]];
      PrimeraVezOfUnique(pre);
    }
  }

  /** The state of the console page. */
  class Consola {
    var isAuthenticated: bool
    var username: string
    var password: string
    var operador: Option<Sesion>
    var turnos: seq<TurnoLista>
    var turnoActual: Option<TurnoLista>

    constructor ()
      ensures !isAuthenticated && username == "" && password == ""
      ensures operador == None && turnos == [] && turnoActual == None
    {
      isAuthenticated, username, password := false, "", "";
      operador, turnos, turnoActual := None, [], None;
    }

    /** `handleLogout`. */
    method Logout()
      modifies this`isAuthenticated, this`operador, this`turnos, this`turnoActual, this`username, this`password
      ensures !isAuthenticated && operador == None && turnos == [] && turnoActual == None
      ensures username == "" && password == ""
    {
      isAuthenticated, operador, turnos, turnoActual := false, None, [], None;
      username, password := "", "";
    }

    /**
     * `cargarTurnos`: nothing without an operator with sectors; otherwise one
     * request per sector (`pedidos`, the sector ids in order). `respuestas`
     * holds the lists of every answer, `None` when a request throws.
     */
    method CargarTurnos(respuestas: Option<seq<seq<TurnoLista>>>) returns (pedidos: seq<string>)
      modifies this`turnos
      ensures operador.None? || operador.value.sectorIds == [] ==> pedidos == [] && turnos == old(turnos)
      ensures operador.Some? && operador.value.sectorIds != [] ==> pedidos == operador.value.sectorIds
      ensures pedidos != [] && respuestas.Some? ==> turnos == PorId(Aplanar(respuestas.value))
      ensures pedidos == [] || respuestas.None? ==> turnos == old(turnos)
    {
      if operador.None? || operador.value.sectorIds == [] {
        return [];
      }
      pedidos := operador.value.sectorIds;
      if respuestas.Some? {
        turnos := PorId(Aplanar(respuestas.value));
      }
    }

    /** `handleLlamar`: `ok` is whether the route answered ok; the list reload is a separate `CargarTurnos`. */
    method HandleLlamar(turno: TurnoLista, ok: bool) returns (pedido: Option<Pedido>)
      modifies this`turnoActual
      ensures operador.None? ==> pedido.None? && turnoActual == old(turnoActual)
      ensures operador.Some? ==> pedido == Some(Llamar(turno.id, operador.value.id))
      ensures operador.Some? && ok ==> turnoActual == Some(turno)
      ensures operador.None? || !ok ==> turnoActual == old(turnoActual)
    {
      if operador.None? {
        return None;
      }
      pedido := Some(Llamar(turno.id, operador.value.id));
      if ok {
        turnoActual := Some(turno);
      }
    }

    /** `handleActualizarEstado`: the served ticket is dropped only once it is finished or absent. */
    method HandleActualizarEstado(estado: string, ok: bool) returns (pedido: Option<Pedido>)
      modifies this`turnoActual
      ensures old(turnoActual).None? ==> pedido.None?
      ensures old(turnoActual).Some? ==> pedido == Some(Actualizar(old(turnoActual).value.id, estado))
      ensures turnoActual == None <==> old(turnoActual).None? || (ok && (estado == Finalizado || estado == Ausente))
      ensures turnoActual != None ==> turnoActual == old(turnoActual)
    {
      if turnoActual.None? {
        return None;
      }
      pedido := Some(Actualizar(turnoActual.value.id, estado));
      if ok && (estado == Finalizado || estado == Ausente) {
        turnoActual := None;
      }
    }
  }
}
