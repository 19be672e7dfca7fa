# totem — a verified model of the ticket and queue system

*totem* issues numbered tickets at a self-service kiosk. Operators call those tickets from a console, and waiting-room monitors display them. This project models the system's core in Dafny and proves what that core promises:

- **Notification relay** (`relay.dfy`, module `Relay`). A socket.io server that:
  - keeps room memberships per connection;
  - answers ingest requests on `/notify/*` with 204, 405, 404, 500 or 200;
  - reads the route from the request target the way the WHATWG URL parser computes `pathname` against the base `http://localhost:<port>`: schemes, `//host` authorities, `\` as `/`, dot segments, and the query and fragment cut off;
  - broadcasts one of three fixed delivery plans.
- **Ticket database and API routes** (`store.dfy`, module `Store`). One `Store` object holds the tables for sectors, tickets, operators, monitors, the two link tables, the configuration record and the notifications handed to the relay. Each route is a method on it, split into the steps the route performs:
  - issuing, calling, updating, listing and cleaning up tickets;
  - sector, operator and monitor administration;
  - reading and upserting the configuration;
  - the statistics query.
- **Ticket rows and ticket numbers** (`turnos.dfy`, module `Turnos`). The rows and the `L-NNN` number format.
- **Statistics report** (`stats.dfy`, module `Estadisticas`). The per-state counters, the per-sector and per-operator `reduce` tallies, the hour and weekday histograms, and the latest ten tickets.
- **Configuration record** (`config.dfy`, module `Configuracion`). The defaults, plus the update and create halves of the upsert.
- **Client pages**, each a class holding the page state its handlers change:
  - the kiosk (`totem.dfy`, `Totem`): DNI formatting and the keypad;
  - the waiting-room monitor (`monitor.dfy`, `MonitorPage`): the sector filter and the beep-once set;
  - the operator console (`llamador.dfy`, `Llamador`): merging and de-duplicating the waiting lists, and the current ticket;
  - the administration screen (`admin.dfy`, `AdminPage`): id cleaning, checkbox toggles and the configuration form.
- **Shared helpers** (`common.dfy`, `sorting.dfy`). `Option`, JavaScript truthiness, digit strings, `padStart`, keyed tables, and the `orderBy` sort.

How the model represents the environment:

- **Time** is an abstract clock in seconds, and `new Date()` is a `now` parameter.
- **Fresh database ids** are parameters that the caller guarantees are unused.
- **`bcrypt.hash`, `JSON.parse` and `new Date(text)`** are function parameters.
- **Request bodies** use `Option` fields, where `None` is `undefined` and a falsy string is `None` or `""`.
- **Page fetches** are parameters carrying the answer, or `None` when the request fails.

## Model

| member | source | states |
|---|---|---|
| Relay.Registry.constructor | mini-services/websocket-service/index.ts:7-12 | the server starts with no connections and no rooms |
| Relay.Registry.Connect | mini-services/websocket-service/index.ts:17-18 | a new socket is connected and in no room; the room table is unchanged |
| Relay.Registry.JoinSector | mini-services/websocket-service/index.ts:21-24 | the socket joins room `sector-<id>` and no other room; the `monitor` room only grows |
| Relay.Registry.LeaveSector | mini-services/websocket-service/index.ts:27-30 | the socket leaves exactly room `sector-<id>`; `monitor` membership is untouched |
| Relay.Registry.JoinMonitor | mini-services/websocket-service/index.ts:33-36 | the socket joins room `monitor`; nothing else changes |
| Relay.Registry.Disconnect | mini-services/websocket-service/index.ts:39-41 | the socket is forgotten and in no room afterwards (socket.io's own clean-up); the registry stays consistent |
| Relay.SectorRoom | mini-services/websocket-service/index.ts:22 | the room name is `sector-` followed by the sector id, which can be read back from it |
| Relay.SectorRoomIsNotMonitor | mini-services/websocket-service/index.ts:21-36 | no sector room is the `monitor` room, so no handler removes a socket from `monitor` |
| Relay.SectorRoomInjective | mini-services/websocket-service/index.ts:22 | distinct sector ids name distinct rooms |
| Relay.IntText | mini-services/websocket-service/index.ts:84 | `${n}` for an integer id; its partner `IntTextReadsBack` states that the text is a `-` exactly for a negative number followed by digits whose value is the magnitude |
| Relay.IntTextReadsBack | mini-services/websocket-service/index.ts:84 | the printed text of an integer reads back as that integer, with the sign shown exactly when it is negative |
| Relay.IntTextInjective | mini-services/websocket-service/index.ts:84 | two integers print the same exactly when they are equal |
| Relay.Text | mini-services/websocket-service/index.ts:84 | `${v}` for a JSON value: `null`, `true`/`false`, the number's digits, the string itself, an array joined with `,`, `[object Object]`; the room name built from it is read back by `SectorRoomInjective` |
| Relay.JoinText | mini-services/websocket-service/index.ts:84 | `Array.prototype.join(',')` as the template literal calls it: items separated by `,`, a `null` item printed as nothing |
| Relay.FieldText | mini-services/websocket-service/index.ts:84 | `${data.sectorId}`: the property's text, or `undefined` when the payload has no such property |
| Relay.NumericSectorRooms | mini-services/websocket-service/index.ts:84 | two payloads with numeric `sectorId`s address the same `sector-` room exactly when the ids are equal |
| Relay.Handle | mini-services/websocket-service/index.ts:51-108 | OPTIONS → 204 first; other non-POST → 405; parse failure → 500 even on an unknown path; unknown path → 404; emits happen exactly for a parsed POST to a known path; 200 exactly when the payload is not null, and then the emits are the path's plan; every emit carries the payload unchanged; a `null` payload is broadcast and then answered 500 |
| Relay.PathName | mini-services/websocket-service/index.ts:63-64 | `new URL(req.url, base).pathname` as the WHATWG URL parser reads it: scheme detection, the authority skipped, `/` (and `\` in special schemes) as separators, `.` and `..` segments resolved, query and fragment cut off; its partners are the pathname lemmas below |
| Relay.UpToQuery | mini-services/websocket-service/index.ts:63-64 | the path part of a target is its longest prefix before a `?` or `#`: it holds neither, and where it stops short the target goes on with one of them |
| Relay.QueryTailDropped | mini-services/websocket-service/index.ts:63-64 | a query or a fragment after a path is not part of the path |
| Relay.HttpScheme | mini-services/websocket-service/index.ts:63-64 | a target in the base's own scheme `http:` is read as if it had no scheme |
| Relay.OriginForm | mini-services/websocket-service/index.ts:63-64 | a target starting with a single `/` is a path resolved from the root of the base URL |
| Relay.CleanTarget | mini-services/websocket-service/index.ts:63-64 | a `/`-rooted target with no `\` and no dot segment before its query has exactly that text as its pathname |
| Relay.DotSegmentSkipped | mini-services/websocket-service/index.ts:63-64 | `/./` inside a target's path reads as `/`, so both spellings have the same pathname |
| Relay.ParentSegmentCancels | mini-services/websocket-service/index.ts:63-64 | `/x/../` inside a target's path, for any plain segment `x`, reads as `/` |
| Relay.BackslashIsSlash | mini-services/websocket-service/index.ts:63-64 | in the `http` scheme a `\` in the path reads as `/` |
| Relay.AuthorityIgnored | mini-services/websocket-service/index.ts:63-64 | `//host/x` and `http://host/x` only name a host: their pathname is that of `x`, the same as for `/x` |
| Relay.TwoSegmentsFixed | mini-services/websocket-service/index.ts:63-64 | a target of two plain segments that are not dot segments, followed by any query, has those two segments as its pathname |
| Relay.RoutesAreFixed | mini-services/websocket-service/index.ts:63-100 | each of the three routes, followed by any query or fragment, has the route itself as its pathname, so the `switch` matches it |
| Relay.RouteIsFixed | mini-services/websocket-service/index.ts:63-100 | `/notify/<name>` with a one-segment name is its own pathname whatever query follows |
| Relay.RouteAliases | mini-services/websocket-service/index.ts:63-100 | `/notify/./<name>` and `/notify\<name>` have the pathname `/notify/<name>`, so they reach the same route |
| Relay.RouteBehindHost | mini-services/websocket-service/index.ts:63-100 | `//host/notify/<name>` and `http://host/notify/<name>` have the pathname `/notify/<name>` |
| Relay.HandleHttp | mini-services/websocket-service/index.ts:63-77 | a request as it arrives: the pathname of the raw target, the body parsed with `body \|\| '{}'`, then `Handle`; `RouteTargets` and `EmptyBodyIsEmptyObject` state what it answers |
| Relay.RouteTargets | mini-services/websocket-service/index.ts:63-100 | a request for a route with any query is handled exactly as that route's `case` |
| Relay.AccumulateBody | mini-services/websocket-service/index.ts:67-71 | the body is the concatenation of the chunks in arrival order; its length is the sum of theirs |
| Relay.EmptyBodyIsEmptyObject | mini-services/websocket-service/index.ts:75 | an empty body is handled exactly as `{}`; on `turno-nuevo` it broadcasts `{}` and answers 200 |
| Relay.Deliveries | mini-services/websocket-service/index.ts:79-92 | each emit of the plan fanned out, in order, to the sockets its target reaches |
| Relay.Inbox | mini-services/websocket-service/index.ts:79-92 | what one socket receives out of the deliveries, in order |
| Relay.Heard | mini-services/websocket-service/index.ts:79-92 | the reference per-socket answer: one message per emit that reaches the socket; `InboxIsHeard` proves `Inbox(Deliveries(…))` equal to it |
| Relay.Recipients | mini-services/websocket-service/index.ts:79-92 | `io.emit` reaches every connected socket, `io.to(room)` exactly the connected members of the room, each once |
| Relay.InboxIsHeard | mini-services/websocket-service/index.ts:79-92 | each socket receives, in order, one message per emit that reaches it |
| Relay.NothingForStrangers | mini-services/websocket-service/index.ts:79-92 | a socket that is not connected receives nothing |
| Relay.TurnoNuevoReachesEveryone | mini-services/websocket-service/index.ts:78-80 | every connected socket gets exactly one `turno-nuevo` with the payload and nothing else |
| Relay.TurnoLlamadoInbox | mini-services/websocket-service/index.ts:83-86 | every socket gets `turno-llamado`; members of `sector-<sectorId>` also get `turno-sector-llamado`, and members of `monitor` also get `monitor-turno-llamado`, in that order |
| Relay.TurnoActualizadoInbox | mini-services/websocket-service/index.ts:90-92 | every socket gets `turno-actualizado`; members of `monitor` also get `monitor-turno-actualizado`; no sector message is sent |
| Common.IndexOf | src/app/api/turnos/route.ts:49-51 | `findUnique`: a found position holds the key and no earlier row does; nothing is found exactly when the key is absent |
| Common.Truthy | src/app/api/admin/estadisticas/route.ts:13-18 | JavaScript truthiness of an optional string: present and not `''` |
| Common.OrElse | src/app/api/admin/configuracion/route.ts:126-137 | the fallback `or`: a truthy `s` is kept, anything falsy gives `d` |
| Common.Decimal | src/app/api/turnos/route.ts:70 | `String(n)` is a non-empty digit string, one digit exactly below 10 |
| Common.DecimalValue | src/app/api/turnos/route.ts:70 | the digits of `String(n)` read back as `n` |
| Common.PadStart | src/app/api/turnos/route.ts:70 | `padStart`: the result is as long as the larger of the width and the input, ends in the input, and is filled in front with the pad character |
| Common.ZeroPaddedValue | src/app/api/turnos/route.ts:70 | zero padding keeps a digit string's value |
| Sorting.SortBy | src/app/api/turnos/route.ts:12-14 | `orderBy`: the result is sorted and is a permutation of the rows |
| Turnos.UpperOf | src/app/api/turnos/route.ts:69 | `toUpperCase` of one character for ASCII and Latin-1 letters, `ß` becoming `SS` |
| Turnos.Letra | src/app/api/turnos/route.ts:69 | `nombre.charAt(0).toUpperCase()`, empty for an empty name |
| Turnos.NumeroTurno | src/app/api/turnos/route.ts:69-70 | the letter, `-`, and the counter zero-padded to three digits; `NumeroRoundTrip` and `NumeroInjective` state what it means |
| Turnos.NumeroRoundTrip | src/app/api/turnos/route.ts:69-70 | the ticket number is the letter, `-`, and at least three digits whose value is the counter; from 100 on they are exactly the counter's digits, so 1000 and beyond are not truncated |
| Turnos.NumeroInjective | src/app/api/turnos/route.ts:69-70 | two counters of one sector never give the same ticket number |
| Turnos.FirstNumero | src/app/api/admin/sectores/route.ts:50-57 | a new sector's counter is 1, so its first ticket is `<L>-001` |
| Store.Store.constructor | src/app/api/turnos/route.ts:2 | the empty database satisfies every key and relation invariant |
| Store.Store.SectoresActivos | src/app/api/turnos/route.ts:8-15 | the active sectors, exactly, each as often as in the table, ordered by name |
| Store.Activos | src/app/api/turnos/route.ts:8-15 | a sector is kept exactly when it is in the table and active |
| Store.ActivosAppend | src/app/api/turnos/route.ts:8-15 | the `activo` filter keeps the table order: filtering two parts one after the other gives the two filtered parts in that order |
| Store.Store.EmitirTurno | src/app/api/turnos/route.ts:27-105 | guards in order: missing `dni`/`sectorId` → 400; non-digit DNI → 400; unknown sector → 404; inactive sector → 400, and no failure changes anything; success happens exactly when both fields are given, the DNI is digits and the sector exists and is active; it then returns 201 with the new `esperando` ticket numbered from the sector's counter, appends it, increases that sector's counter by exactly one, and notifies once with the ticket |
| Store.Store.Crear | src/app/api/turnos/route.ts:73-94 | create the ticket, then bump the counter, then notify, in that order; the invariants are kept |
| Store.Store.InsertarTurno | src/app/api/turnos/route.ts:73-83 | the ticket is appended; ids stay unique and every ticket keeps an existing sector |
| Store.Store.IncrementarContador | src/app/api/turnos/route.ts:86-91 | only the sector's counter changes, by +1; ids and names stay unique |
| Store.Siguiente | src/app/api/turnos/route.ts:86-91 | the counter moves on by one and every other column is kept |
| Store.Store.Avisar | src/app/api/turnos/route.ts:94 | one notification is appended and nothing else changes |
| Store.Store.LlamarTurno | src/app/api/turnos/llamar/route.ts:5-58 | missing ids → 400; unknown ticket → 404 with no update and no notification; success happens exactly for a known ticket, whatever its state; only `estado := llamado`, `operadorId` and `fechaLlamado := now` are written; the updated ticket is notified |
| Store.Store.ReemplazarTurno | src/app/api/turnos/llamar/route.ts:34-45 | one row is rewritten with its id and sector kept, so every invariant still holds |
| Store.Actualizado | src/app/api/turnos/actualizar/route.ts:27-36 | `atendiendo` stamps only `fechaAtencion`; `finalizado`/`ausente` stamp only `fechaFinalizado`; `esperando`/`llamado` write only `estado`; no other field changes |
| Store.Store.ActualizarTurno | src/app/api/turnos/actualizar/route.ts:5-59 | missing fields → 400; a state outside the five → 400; an unknown ticket → 500 (the update throws); success happens exactly for a valid state on an existing ticket, whatever its current state; the result is `Actualizado` of the stored ticket, and it is notified after the update |
| Store.Store.ListarEsperando | src/app/api/turnos/listar/route.ts:4-38 | missing `sectorId` → 400; otherwise exactly the waiting tickets of that sector, each once, ordered by `createdAt` ascending |
| Store.EnEspera | src/app/api/turnos/listar/route.ts:17-21 | a ticket is listed if and only if it is in the sector and `esperando` |
| Store.EnEsperaAppend | src/app/api/turnos/listar/route.ts:17-21 | the `where` filter keeps the table order over any split of the table |
| Store.EstadosALimpiar | src/app/api/admin/turnos/limpiar/route.ts:10-12 | a missing or empty list becomes `['llamado','atendiendo']`; a non-empty list is used as given |
| Store.Store.LimpiarTurnos | src/app/api/admin/turnos/limpiar/route.ts:4-44 | it echoes the list used; the count is the number of matching tickets before deletion; what remains is exactly the non-matching tickets, unchanged and in order |
| Store.Coinciden | src/app/api/admin/turnos/limpiar/route.ts:15-21 | a ticket is found exactly when it is in the table and its state is one of the listed states |
| Store.Restantes | src/app/api/admin/turnos/limpiar/route.ts:24-30 | a ticket remains if and only if its state is not listed; with nothing matching the table is unchanged; ids stay unique |
| Store.CleanupSplits | src/app/api/admin/turnos/limpiar/route.ts:15-30 | the deleted and the remaining tickets together are exactly the old table, as a multiset |
| Store.Limites | src/app/api/admin/estadisticas/route.ts:11-20 | a `gte`/`lte` bound exists if and only if its parameter is truthy, and it is that parameter's date |
| Store.Store.Seleccion | src/app/api/admin/estadisticas/route.ts:23-40 | exactly the tickets within the bounds, each once, newest first |
| Store.Filtrar | src/app/api/admin/estadisticas/route.ts:11-27 | a ticket is selected exactly when it is in the table and its `createdAt` is within the bounds that are set |
| Store.FiltrarAppend | src/app/api/admin/estadisticas/route.ts:23-40 | the date filter keeps the table order over any split of the table |
| Store.Store.Unir | src/app/api/admin/estadisticas/route.ts:25-35 | a row carries its sector's name and colour, and an operator name exactly when the ticket's operator exists |
| Store.Store.Filas | src/app/api/admin/estadisticas/route.ts:25-35 | one joined row per selected ticket, in order |
| Store.Store.ObtenerEstadisticas | src/app/api/admin/estadisticas/route.ts:4-148 | the report over the selection: total, state counters, sector totals and both histograms sum to the selected count, and the latest tickets are its first min(10, n) |
| Store.Store.ObtenerConfiguracion | src/app/api/admin/configuracion/route.ts:5-45 | a stored record is returned unchanged; a missing one is created with the defaults and returned |
| Store.Store.GuardarConfiguracion | src/app/api/admin/configuracion/route.ts:48-157 | falsy main texts → 400; a truthy unknown `monitorId` → 400; nothing changes on failure; success happens exactly otherwise, storing `Upsert` on the record `default` |
| Store.Store.ListarSectores | src/app/api/admin/sectores/route.ts:5-21 | every sector, ordered by name |
| Store.Store.CrearSector | src/app/api/admin/sectores/route.ts:24-67 | missing name/colour → 400; duplicate name → 400 with nothing created; success happens exactly otherwise and appends an active sector with counter 1, answering 201 |
| Store.Store.ListarOperadores | src/app/api/admin/operadores/route.ts:6-35 | one password-free entry per operator, ordered by name, each with its sector links |
| Store.Publico | src/app/api/admin/operadores/route.ts:22-25 | every column but `password` is kept, and the sector ids are exactly the operator's links |
| Store.Store.CrearOperador | src/app/api/admin/operadores/route.ts:38-115 | missing fields → 400; existing username → 400; some listed sector unknown ⇔ 404; nothing is created on failure; success happens exactly when the three fields are given, the username is new and every listed sector exists; the stored password is then `hash(password)`, `activo` defaults to true only when undefined, one link per listed sector (none when absent), and a 201 answer without the password |
| Store.Store.PrimerFaltante | src/app/api/admin/operadores/route.ts:64-77 | sectors are checked in order: the result is the first unknown one, and none exactly when all exist |
| Store.Store.InsertarOperador | src/app/api/admin/operadores/route.ts:83-102 | the operator and one link per sector are appended; keys stay unique and links point at existing rows |
| Store.Enlaces | src/app/api/admin/operadores/route.ts:89-93 | one link per listed sector id, in list order |
| Store.Store.ListarMonitores | src/app/api/admin/monitores/route.ts:5-28 | every monitor, ordered by name |
| Store.Store.CrearMonitor | src/app/api/admin/monitores/route.ts:31-64 | a falsy name or a missing/empty `sectorIds` ⇔ 400; otherwise an active monitor whatever the body says, a falsy description stored as null, one link per listed id with no existence check |
| Configuracion.Inicial | src/app/api/admin/configuracion/route.ts:13-33 | the default record has id `default`, every text at its default, every flag on, and no monitor or logo |
| Configuracion.Crear | src/app/api/admin/configuracion/route.ts:120-141 | `createData` targets `default` with the main texts and `monitorId` as given; every other text is the given one when truthy and its default otherwise; the logo is the given one when truthy and null otherwise; each flag is the given one when defined and `true` otherwise |
| Configuracion.Actualizar | src/app/api/admin/configuracion/route.ts:95-117 | `updateData` keeps the id, writes the main texts, and writes every other field, `monitorId` included, exactly when the body defines it, keeping the stored value otherwise |
| Configuracion.Upsert | src/app/api/admin/configuracion/route.ts:143-147 | the upsert keeps the stored id, or creates `default`, and always writes the three main texts |
| Configuracion.UpdateKeepsAbsent | src/app/api/admin/configuracion/route.ts:103-117 | any field the body leaves undefined keeps its stored value on update |
| Configuracion.UpdateWritesDefined | src/app/api/admin/configuracion/route.ts:95-117 | for every field, the update writes the body's value when it is defined and keeps the stored one otherwise |
| Configuracion.UpdateOnlyPrincipales | src/app/api/admin/configuracion/route.ts:95-117 | a body with only the main texts changes only the main texts of the stored record |
| Configuracion.CamposDeterminan | src/app/api/admin/configuracion/route.ts:13-33 | the id, the main texts and the optional fields together determine the record |
| Configuracion.CreateFallsBackToInicial | src/app/api/admin/configuracion/route.ts:126-140 | with only the main texts, create gives the default record carrying those texts |
| Configuracion.UpsertBranchesAgree | src/app/api/admin/configuracion/route.ts:95-141 | when every field is defined and truthy, update and create agree |
| Configuracion.EmptyTextDiverges | src/app/api/admin/configuracion/route.ts:103-137 | for every optional text, `''` is written by the update but replaced by that text's default on create |
| Configuracion.EmptyLogoDiverges | src/app/api/admin/configuracion/route.ts:111-134 | an empty logo URL is written as `''` by the update but stored as null on create |
| Configuracion.FalseFlagKept | src/app/api/admin/configuracion/route.ts:115-140 | for each of the three flags, an explicit `false` is kept by both branches |
| Configuracion.UpdateIdempotent | src/app/api/admin/configuracion/route.ts:143-147 | saving the same body twice over an existing record changes nothing the second time |
| Configuracion.SecondSaveAfterCreate | src/app/api/admin/configuracion/route.ts:143-147 | over a missing record, an empty text is stored as the default on the first save and as `''` on the second |
| Estadisticas.HoraDe | src/app/api/admin/estadisticas/route.ts:118 | the hour is in [0, 24) |
| Estadisticas.DiaDe | src/app/api/admin/estadisticas/route.ts:126 | the weekday is in [0, 7) |
| Estadisticas.ContarPorEstado | src/app/api/admin/estadisticas/route.ts:43-53 | each of the five counters counts exactly its state; together with the other states they count every ticket |
| Estadisticas.NoOtros | src/app/api/admin/estadisticas/route.ts:43-53 | every state is one of the five ⇔ no ticket escapes the five counters |
| Estadisticas.Registrar | src/app/api/admin/estadisticas/route.ts:56-70 | one `reduce` callback step keeps the accumulator an exact tally of the rows seen |
| Estadisticas.TallySkip | src/app/api/admin/estadisticas/route.ts:74 | a row without an operator leaves the operator tally as it is |
| Estadisticas.TallyNew | src/app/api/admin/estadisticas/route.ts:58-68 | the first row of a key appends its entry, with that row's colour |
| Estadisticas.TallyBump | src/app/api/admin/estadisticas/route.ts:66-68 | a later row of a key bumps that entry in place |
| Estadisticas.Agrupar | src/app/api/admin/estadisticas/route.ts:56-88 | one entry per key present, no key twice, each counting exactly its rows with `finalizados + ausentes <= total`, and totals summing to the rows with a key |
| Estadisticas.OutcomesWithinTotal | src/app/api/admin/estadisticas/route.ts:66-68 | a key's finished plus absent rows are at most its rows |
| Estadisticas.SectorKeyCoversAll | src/app/api/admin/estadisticas/route.ts:56-88 | every ticket has a sector key, so sector totals cover every ticket |
| Estadisticas.Histograma | src/app/api/admin/estadisticas/route.ts:116-128 | the array has one cell per bucket; each cell counts its bucket's rows, and the cells sum to the row count |
| Estadisticas.BucketsCoverAll | src/app/api/admin/estadisticas/route.ts:116-128 | each row falls in exactly one bucket |
| Estadisticas.Etiquetar | src/app/api/admin/estadisticas/route.ts:143-146 | seven entries labelled Domingo..Sábado in index order, each with its count |
| Estadisticas.SumDiasCounts | src/app/api/admin/estadisticas/route.ts:143-146 | labelling keeps the sum of the counts |
| Estadisticas.Ultimos | src/app/api/admin/estadisticas/route.ts:147 | the first min(10, n) tickets, in order |
| Estadisticas.Calcular | src/app/api/admin/estadisticas/route.ts:42-148 | `resumen` repeats the matching counters; sector and operator tallies are exact; 24 hours and 7 days each sum to the total; the latest tickets come from `Ultimos` |
| Totem.SoloDigitos | src/app/totem/page.tsx:26 | the result holds only digits and is no longer than the input; a digit string is kept whole |
| Totem.FormatDNI | src/app/totem/page.tsx:25-35 | `formatDNI`: the digits only, with a dot before the last three digits once there are more than three and another before the last six once there are more than six; `FormatKeepsDigits`, `FormatIdempotent`, `FormatShort`, `FormatOneDot` and `FormatTwoDots` state what it means |
| Totem.FormatKeepsDigits | src/app/totem/page.tsx:25-35 | deleting the dots from the output gives exactly the input's digits, in order |
| Totem.FormatIdempotent | src/app/totem/page.tsx:25-35 | formatting a formatted DNI changes nothing |
| Totem.FormatShort | src/app/totem/page.tsx:27-30 | no digits gives `''`; one to three digits are shown as they are |
| Totem.FormatOneDot | src/app/totem/page.tsx:31-33 | four to six digits: one dot, then the last three digits |
| Totem.FormatTwoDots | src/app/totem/page.tsx:34 | more than six digits: two dots, two trailing groups of three, the rest before them |
| Totem.SinUltimo | src/app/totem/page.tsx:149 | `slice(0, -1)` drops the last character and leaves `''` as it is |
| Totem.Pantalla.constructor | src/app/totem/page.tsx:38-49 | the screen starts with an empty DNI and no sector or ticket |
| Totem.Pantalla.NumberClick | src/app/totem/page.tsx:142-146 | a digit is appended only below eight characters, so the DNI stays at most eight digits |
| Totem.Pantalla.Delete | src/app/totem/page.tsx:148-150 | the last digit is removed |
| Totem.Pantalla.Clear | src/app/totem/page.tsx:152-156 | DNI, sector and ticket are reset |
| Totem.Pantalla.Seleccionar | src/app/totem/page.tsx:403 | the tapped sector becomes the selected one |
| Totem.Pantalla.Enviar | src/app/totem/page.tsx:219-264 | a request is sent exactly when the DNI is non-empty and a sector is selected, with those values; an ok answer shows the ticket with the formatted DNI |
| MonitorPage.DeAsignados | src/app/monitor/page.tsx:135-139 | a ticket is kept if and only if its sector is assigned |
| MonitorPage.Filtrados | src/app/monitor/page.tsx:134-140 | no assigned sectors gives an empty list; otherwise exactly the tickets of assigned sectors |
| MonitorPage.FiltradosAppend | src/app/monitor/page.tsx:134-140 | the filter keeps the server's order |
| MonitorPage.TodosAsignados | src/app/monitor/page.tsx:134-140 | when every ticket's sector is assigned, the list is shown as it is |
| MonitorPage.Nuevos | src/app/monitor/page.tsx:143-146 | exactly the shown `llamado` tickets not beeped for yet |
| MonitorPage.Sonar | src/app/monitor/page.tsx:143-151 | the ids added are exactly those of shown, not yet beeped `llamado` tickets, and none was there before |
| MonitorPage.AtMostOneBeep | src/app/monitor/page.tsx:143-153 | over any run of polls the beeped set only grows, and each id beeps at most once |
| MonitorPage.Pantalla.constructor | src/app/monitor/page.tsx:66-73 | nothing shown, nothing beeped, no monitor, loading |
| MonitorPage.Pantalla.CargarTurnosActivos | src/app/monitor/page.tsx:126-160 | an ok answer shows the filtered list and adds the new called ids; the double beep plays exactly when there is one; a failure changes nothing |
| MonitorPage.Pantalla.Marcar | src/app/monitor/page.tsx:149-151 | the `forEach` adds exactly the given tickets' ids to the set |
| MonitorPage.Pantalla.CargarConfiguracion | src/app/monitor/page.tsx:88-102 | the configured monitor becomes the selection only when the URL names none and the configuration names one |
| MonitorPage.Pantalla.CambiarMonitor | src/app/monitor/page.tsx:119-124 | the chosen monitor is selected |
| MonitorPage.Pantalla.EfectoSeleccion | src/app/monitor/page.tsx:167-176 | with a monitor it asks to load; without one it clears sectors and tickets and stops loading |
| MonitorPage.Pantalla.CargarSectoresAsignados | src/app/monitor/page.tsx:104-117 | the sectors are replaced only with a monitor selected and an ok answer |
| Llamador.Aplanar | src/app/llamador/page.tsx:103 | `.flat()` holds exactly the tickets of every sector's answer |
| Llamador.PorId | src/app/llamador/page.tsx:106 | `new Map(turnos.map(t => [t.id, t])).values()` built one `set` at a time; `PorIdKeys` and `PorIdValues` state what it holds |
| Llamador.PorIdKeys | src/app/llamador/page.tsx:106 | the merged list has distinct ids, holds every id of the answers, and keeps each at its first position |
| Llamador.PorIdValues | src/app/llamador/page.tsx:106 | each id holds the ticket of its last occurrence |
| Llamador.PonerKeys | src/app/llamador/page.tsx:106 | `Map.set` keeps the position of an existing id and appends a new one |
| Llamador.PrimeraVez | src/app/llamador/page.tsx:310-313 | the render filter keeping a ticket whose id has not occurred before; `PrimeraVezKeys`, `PrimeraVezValues` and `PrimeroIsFindIndex` state what it keeps |
| Llamador.PrimeraVezKeys | src/app/llamador/page.tsx:310-313 | the render filter keeps one ticket per id, in first-occurrence order |
| Llamador.PrimeraVezValues | src/app/llamador/page.tsx:310-313 | the ticket kept for an id is its first occurrence |
| Llamador.PrimeroIsFindIndex | src/app/llamador/page.tsx:312 | that first occurrence is the one `findIndex` finds |
| Llamador.SameIdsBothWays | src/app/llamador/page.tsx:106-108 | both de-duplications list the same ids in the same order, and the render filter leaves the merged list unchanged |
| Llamador.Consola.constructor | src/app/llamador/page.tsx:37-44 | logged out, with no operator, tickets or current ticket |
| Llamador.Consola.Logout | src/app/llamador/page.tsx:79-86 | operator, list, current ticket, username and password are cleared |
| Llamador.Consola.CargarTurnos | src/app/llamador/page.tsx:89-114 | nothing is requested without an operator with sectors; otherwise one request per sector, in order, and the list becomes the de-duplicated merge of the answers |
| Llamador.Consola.HandleLlamar | src/app/llamador/page.tsx:117-139 | with an operator, the call is sent for the ticket and operator; the current ticket is set only on an ok answer |
| Llamador.Consola.HandleActualizarEstado | src/app/llamador/page.tsx:142-165 | the current ticket is cleared exactly for an ok `finalizado` or `ausente`; otherwise it is kept |
| AdminPage.CleanId | src/app/admin/page.tsx:247 | the prefix before the first `:` (the whole id when it has none); it contains no `:` |
| AdminPage.CleanIdIdempotent | src/app/admin/page.tsx:247 | cleaning a cleaned id changes nothing |
| AdminPage.Destino | src/app/admin/page.tsx:190-192 | a new record goes to the collection with POST, with a clean id of `''`; an edited one goes to its cleaned-id URL with PUT |
| AdminPage.Quitar | src/app/admin/page.tsx:878 | `filter(id => id !== x)` removes every copy of `x` and keeps exactly the other ids |
| AdminPage.QuitarAppend | src/app/admin/page.tsx:878 | the removal keeps the other ids in order |
| AdminPage.Alternar | src/app/admin/page.tsx:869-881 | checking appends the id at the end, keeping the old list in front; unchecking leaves exactly the other ids and no copy of it |
| AdminPage.CheckThenUncheck | src/app/admin/page.tsx:869-881 | checking then unchecking leaves the other ids in order, and restores a list that did not hold the id |
| AdminPage.FormDe | src/app/admin/page.tsx:385-405 | each flag is `true` only when undefined, and an explicit `false` is kept; missing monitor and logo become `''` |
| AdminPage.LoadedFlagsKept | src/app/admin/page.tsx:402-404 | stored flags reach the form unchanged |
| AdminPage.SaveUnchangedForm | src/app/admin/page.tsx:497-503 | saving the loaded form unchanged writes the record back, except that a missing monitor or logo becomes `''` |
| AdminPage.Pagina.constructor | src/app/admin/page.tsx:49-125 | logged out, empty operator and monitor forms, and the configuration form with empty texts and every flag on |
| AdminPage.Pagina.Logout | src/app/admin/page.tsx:155-159 | authentication, username and password are cleared |
| AdminPage.Pagina.GuardarOperador | src/app/admin/page.tsx:176-228 | nothing is sent with no sector checked; otherwise it sends the `Destino` request, and an ok answer closes the dialog and empties the form |
| AdminPage.Pagina.AlternarSectorOperador | src/app/admin/page.tsx:869-881 | only the form's sector list changes, by `Alternar` |
| AdminPage.Pagina.AlternarSectorMonitor | src/app/admin/page.tsx:1391-1403 | the monitor form follows the same rule |
| AdminPage.Pagina.CargarConfiguracion | src/app/admin/page.tsx:378-411 | an ok answer fills the form by `FormDe`; a failure leaves it |

## Left out

- socket.io transport, the HTTP listener, CORS headers, `listen` and all logging. Only the membership table, the request classification and the delivery of emits are modelled.
- `JSON.parse`, `new Date(text)` and `bcrypt.hash` are function parameters. The `@/lib/websocket/notify` module is not part of this model: a `notifyX` call is an `Aviso` recorded in the store.
- JSON numbers are modelled as exact integers. `JSON.parse` reads every number into a double, so the source rounds an integer of magnitude above 2^53 to the nearest double; the model keeps it exact. Fractions are not modelled.
- Relay.Registry.Disconnect: removing the socket from every room is socket.io's own behaviour, stated as an assumption. The handler in the source only logs.
- Concurrency is left out: concurrent requests, and the read-then-increment race on the sector counter. Every route is one atomic step.
- Prisma errors other than the cited guards are not modelled. These include a foreign-key failure when `llamar` names an unknown operator, or when a monitor or operator link names an unknown sector. Each route's `catch` that answers 500 is not modelled, except the `actualizar` update of an unknown ticket.
- Dates are abstract seconds on a local clock whose day 0 is a Thursday. Time zones and `toLocaleTimeString` are left out; the kiosk receives the shown time as a parameter.
- The average waiting and attention times of the statistics report are left out, because they use floating-point division and `Math.round`.
- Estadisticas.ContarPorEstado: a state outside the five would add a `NaN` key to `porEstado` in the source. The model counts such tickets as `Otros` and does not add the key.
- Estadisticas.Agrupar: `porSector` and `porOperador` are JavaScript objects keyed by sector and operator name. The model keeps them as lists in first-seen order, not in JavaScript's property order for integer-like names.
- Store.Store.ObtenerEstadisticas states a subset of what `Estadisticas.Calcular` states. The full report contract is on `Calcular`.
- Relay.PathName: a target whose host or port the URL parser rejects makes `new URL` throw outside the `try`, and the request then gets no answer; the model reads the path and does not validate hosts. Tab and newline removal, leading and trailing C0 trimming, percent-encoding of path characters and Windows drive letters in `file:` targets are left out too: Node hands the handler a request target without those characters, and percent-encoding never changes which route matches.
- Relay.AccumulateBody: the chunks are modelled as text already decoded. The source decodes each chunk on its own with `chunk.toString()`, so a UTF-8 character split across two chunks becomes two U+FFFD characters; the model does not split characters.
- Relay.IntText: prints every integer in plain decimal digits. JavaScript prints a number of magnitude 10^21 or more in exponent form (`1e+21`), so for a body `{"sectorId": 1000000000000000000000}` the source emits `turno-sector-llamado` to the room `sector-1e+21` and the model to `sector-` followed by 22 digits. Numbers above 2^53 are also rounded by `JSON.parse` before they are printed. Neither is modelled, so `Relay.IntTextInjective` and `Relay.NumericSectorRooms` hold of the model only: in the source two large ids that round to the same double share a room.
- Relay.Text: `${v}` is modelled for the JSON values the model carries (integers of magnitude at most 2^53 print as in the source; see the `Relay.IntText` line for larger ones), and an object prints as `[object Object]`. An object that has its own `toString` or `valueOf` key that is not a function makes the template literal throw. The emits already made stay made, and the answer is 500, not 200. Relay.Handle decides the answer from the payload being `null` or not, and does not model this case.
- Turnos.Letra: the letter is the first code point of the sector name. The source's `charAt(0)` takes the first UTF-16 unit, which for a name starting outside the Basic Multilingual Plane is half of a surrogate pair.
- Estadisticas.Agrupar: a sector or operator named like a property of `Object.prototype` (`constructor`, `toString`, `__proto__`, …) finds that inherited property in `acc[key]`, so its entry is never created and it is missing from the report; `__proto__` even writes `total` onto `Object.prototype`. The model gives such names their own entry like any other.
- Configuracion.Actualizar: the body's fields are `undefined` or a value of the field's type; JSON `null` is not modelled. In the source a `null` field is not `undefined`, so the update passes it on to the database. A `null` logo URL or `monitorId` then clears the stored one. What `null` does in the other columns depends on the database schema, which is not part of this model.
- `toUpperCase` covers ASCII and Latin-1 letters only. Other Unicode case mappings are left out.
- Sorting by name compares code points. Database collation is left out.
- Ticket rows omit the nested `sector` and `operador` objects that `include` adds. The relation is kept through the ids.
- The login routes, `turnos/activos`, `impresoras`, the `[id]` routes, `prisma/seed.ts`, `src/app/page.tsx` and `monitores-temp.ts` are not part of this model. They are simple lookups, database wrappers, a seed script or JSX.
- JSX rendering, toasts, `fetch`, `setTimeout`/`setInterval` polling, router navigation, printing and the Web Audio beep are left out. A fetch is an argument carrying the answer or a failure. The beep is the boolean that `CargarTurnosActivos` returns.
- MonitorPage.Pantalla.CargarConfiguracion: the URL's `monitor` parameter only suppresses the configured default; the page never selects the monitor it names. The model keeps this behaviour.
