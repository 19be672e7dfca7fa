/**
 * The notification relay (mini-services/websocket-service/index.ts): the room
 * membership kept per connection, the classification of an ingest request into a
 * reply and an emit plan, and the fan-out of that plan to the connected sockets.
 */
module Relay {
  import opened Common

  // ------------------------------------------------------------ payloads

  /** A parsed JSON value (numbers are integers in this model). */
  datatype Json =
    | JNull
    | JBool(b: bool)
    | JNum(n: int)
    | JStr(s: string)
    | JArr(items: seq<Json>)
    | JObj(fields: map<string, Json>)

  /** `${n}` for an integer: a `-` for a negative one, then the decimal digits of its magnitude. */
  function IntText(n: int): string {
    if n < 0 then "-" + Decimal(-n) else Decimal(n)
  }

  /** The text of `n` reads back as `n`: a `-` exactly when `n` is negative, then digits denoting `|n|`. */
  lemma IntTextReadsBack(n: int)
    ensures var r := IntText(n);
      r != [] && (r[0] == '-' <==> n < 0) &&
      var digits := if n < 0 then r[1..] else r;
      AllDigits(digits) && ValueOf(digits) == (if n < 0 then -n else n)
  {
    if n < 0 {
      DecimalValue(-n);
      assert IntText(n)[1..] == Decimal(-n);
    } else {
      DecimalValue(n);
    }
  }

  lemma IntTextInjective(a: int, b: int)
    ensures IntText(a) == IntText(b) <==> a == b
  {
    IntTextReadsBack(a);
    IntTextReadsBack(b);
  }

  /** What a template literal `${v}` prints for a JSON value. */
  function Text(v: Json): string
    decreases v, 1
  {
    match v
    case JNull => "null"
    case JBool(b) => if b then "true" else "false"
    case JNum(n) => IntText(n)
    case JStr(s) => s
    case JArr(items) => JoinText(items)
    case JObj(_) => "[object Object]"
  }

  /** `items.join(',')`, where a `null` item prints as nothing. */
  function JoinText(items: seq<Json>): string
    decreases items, 0
  {
    if items == [] then ""
    else
      var first := if items[0].JNull? then "" else Text(items[0]);
      if |items| == 1 then first else first + "," + JoinText(items[1..])
  }

  /** `data.key` for a non-null value: only an object has properties here. */
  function Field(data: Json, key: string): Option<Json> {
    if data.JObj? && key in data.fields then Some(data.fields[key]) else None
  }

  /** `${data.key}`: an absent property prints as `undefined`. */
  function FieldText(data: Json, key: string): string {
    match Field(data, key)
    case None => "undefined"
    case Some(v) => Text(v)
  }

  /** Two payloads whose `sectorId` is a number name the same sector room exactly when the numbers are equal. */
  lemma NumericSectorRooms(d1: Json, d2: Json, a: int, b: int)
    requires Field(d1, "sectorId") == Some(JNum(a)) && Field(d2, "sectorId") == Some(JNum(b))
    ensures SectorRoom(FieldText(d1, "sectorId")) == SectorRoom(FieldText(d2, "sectorId")) <==> a == b
  {
    IntTextInjective(a, b);
    if a != b {
      SectorRoomInjective(IntText(a), IntText(b));
    }
  }

  // --------------------------------------------------------------- rooms

  type ConnId = string

  const MonitorRoom: string := "monitor"

  /** The room a `join-sector` / `leave-sector` with this sector id names. */
  function SectorRoom(sectorId: string): (room: string)
    ensures |room| == 7 + |sectorId| && room[7..] == sectorId
  {
    "sector-" + sectorId
  }

  /** No sector room is the monitor room, so leaving a sector never leaves `monitor`. */
  lemma SectorRoomIsNotMonitor(sectorId: string)
    ensures SectorRoom(sectorId) != MonitorRoom
  {
    assert SectorRoom(sectorId)[0] == 's' && MonitorRoom[0] == 'm';
  }

  /** Distinct sector ids name distinct rooms. */
  lemma SectorRoomInjective(a: string, b: string)
    ensures SectorRoom(a) == SectorRoom(b) ==> a == b
  {
    if SectorRoom(a) == SectorRoom(b) {
      assert a == SectorRoom(a)[7..] == SectorRoom(b)[7..] == b;
    }
  }

  function Members(rooms: map<string, set<ConnId>>, room: string): set<ConnId> {
    if room in rooms then rooms[room] else {}
  }

  predicate Distinct(s: seq<ConnId>) {
    forall i, j :: 0 <= i < j < |s| ==> s[i] != s[j]
  }

  /**
   * The socket.io server state this file drives: the connected sockets in
   * connection order and, for every room name, its member set.
   */
  class Registry {
    var conns: seq<ConnId>
    var rooms: map<string, set<ConnId>>

    ghost predicate Valid()
      reads this
    {
      && Distinct(conns)
      && forall r :: r in rooms ==> forall c :: c in rooms[r] ==> c in conns
    }

    function MembersOf(room: string): set<ConnId>
      reads this
    {
      Members(rooms, room)
    }

    constructor ()
      ensures Valid() && conns == [] && rooms == map[]
    {
      conns, rooms := [], map[];
    }

    /** socket.io's `connection` event: a new socket, in no room. */
    method Connect(id: ConnId)
      requires Valid() && id !in conns
      modifies this
      ensures Valid()
      ensures conns == old(conns) + [id] && rooms == old(rooms)
    {
      conns := conns + [id];
    }

    /** `join-sector`: the socket joins room `sector-<sectorId>`; joining twice changes nothing more. */
    method JoinSector(id: ConnId, sectorId: string)
      requires Valid() && id in conns
      modifies this
      ensures Valid() && conns == old(conns)
      ensures rooms == old(rooms)[SectorRoom(sectorId) := old(MembersOf(SectorRoom(sectorId))) + {id}]
      ensures id in MembersOf(SectorRoom(sectorId))
      ensures old(MembersOf(MonitorRoom)) <= MembersOf(MonitorRoom)
    {
      var room := SectorRoom(sectorId);
      rooms := rooms[room := MembersOf(room) + {id}];
    }

    /** `leave-sector`: the socket leaves room `sector-<sectorId>` and no other room. */
    method LeaveSector(id: ConnId, sectorId: string)
      requires Valid() && id in conns
      modifies this
      ensures Valid() && conns == old(conns)
      ensures rooms == old(rooms)[SectorRoom(sectorId) := old(MembersOf(SectorRoom(sectorId))) - {id}]
      ensures id !in MembersOf(SectorRoom(sectorId))
      ensures MembersOf(MonitorRoom) == old(MembersOf(MonitorRoom))
    {
      var room := SectorRoom(sectorId);
      SectorRoomIsNotMonitor(sectorId);
      rooms := rooms[room := MembersOf(room) - {id}];
    }

    /** `join-monitor`: the socket joins room `monitor`. */
    method JoinMonitor(id: ConnId)
      requires Valid() && id in conns
      modifies this
      ensures Valid() && conns == old(conns)
      ensures rooms == old(rooms)[MonitorRoom := old(MembersOf(MonitorRoom)) + {id}]
      ensures id in MembersOf(MonitorRoom)
    {
      rooms := rooms[MonitorRoom := MembersOf(MonitorRoom) + {id}];
    }

    /**
     * socket.io's own clean-up on `disconnect` (the handler in the source only
     * logs): the socket is forgotten and removed from every room.
     */
    method Disconnect(id: ConnId)
      requires Valid()
      modifies this
      ensures Valid()
      ensures conns == Without(old(conns), id)
      ensures rooms == map r | r in old(rooms) :: old(rooms)[r] - {id}
      ensures forall r :: id !in MembersOf(r)
    {
      conns := Without(conns, id);
      rooms := map r | r in rooms :: rooms[r] - {id};
    }
  }

  /** `s` without `x`, order kept. */
  function Without(s: seq<ConnId>, x: ConnId): (r: seq<ConnId>)
    ensures forall c :: c in r <==> c in s && c != x
    ensures Distinct(s) ==> Distinct(r)
  {
    if s == [] then []
    else if s[0] == x then Without(s[1..], x)
    else
      assert Distinct(s) ==> s[0] !in s[1..];
      [s[0]] + Without(s[1..], x)
  }

  // ------------------------------------------------------ ingest requests

  /** Where an emit goes: `io.emit` (every connection) or `io.to(room).emit`. */
  datatype Target = Everyone | Room(name: string)

  datatype Emit = Emit(target: Target, event: string, payload: Json)

  /** The five replies the request handler writes. */
  datatype Reply = NoContent | MethodNotAllowed | NotFound | ServerError | Success {
    function Status(): nat {
      match this
      case NoContent => 204
      case MethodNotAllowed => 405
      case NotFound => 404
      case ServerError => 500
      case Success => 200
    }

    /** The JSON body written; the 204 reply has none. */
    function Body(): Option<Json> {
      match this
      case NoContent => None
      case MethodNotAllowed => Some(JObj(map["error" := JStr("Method not allowed")]))
      case NotFound => Some(JObj(map["error" := JStr("Not found")]))
      case ServerError => Some(JObj(map["error" := JStr("Internal server error")]))
      case Success => Some(JObj(map["success" := JBool(true)]))
    }
  }

  /** The reply to one request and the emits made while handling it, in order. */
  datatype Outcome = Outcome(reply: Reply, emits: seq<Emit>)

  /** The routes, `/notify/` followed by the notification kind. */
  const Notify: string := "/notify/"
  const NuevoPath: string := Notify + "turno-nuevo"
  const LlamadoPath: string := Notify + "turno-llamado"
  const ActualizadoPath: string := Notify + "turno-actualizado"

  predicate KnownPath(path: string) {
    path == NuevoPath || path == LlamadoPath || path == ActualizadoPath
  }

  /** The delivery table of the relay's design, one row per notification kind. */
  function Plan(path: string, data: Json): seq<Emit>
    requires KnownPath(path)
  {
    if path == NuevoPath then
      [Emit(Everyone, "turno-nuevo", data)]
    else if path == LlamadoPath then
      [Emit(Everyone, "turno-llamado", data),
       Emit(Room(SectorRoom(FieldText(data, "sectorId"))), "turno-sector-llamado", data),
       Emit(Room(MonitorRoom), "monitor-turno-llamado", data)]
    else
      [Emit(Everyone, "turno-actualizado", data),
       Emit(Room(MonitorRoom), "monitor-turno-actualizado", data)]
  }

  /**
   * The `request` handler, for a request with this method and path whose body
   * `JSON.parse(body || '{}')` turned into `parsed` (`None`: it threw).
   * The statements run in the source's order; reading a property of a `null`
   * payload (the log line's `data.numero`, or `data.sectorId`) throws, and the
   * `catch` then answers 500 after the emits already made.
   */
  function Handle(verb: string, path: string, parsed: Option<Json>): (o: Outcome)
    // OPTIONS is answered before any other check, whatever the path or body
    ensures verb == "OPTIONS" ==> o == Outcome(NoContent, [])
    ensures verb != "OPTIONS" && verb != "POST" ==> o == Outcome(MethodNotAllowed, [])
    // a body that does not parse is a 500 with nothing emitted, even on an unknown path
    ensures verb == "POST" && parsed.None? ==> o == Outcome(ServerError, [])
    ensures verb == "POST" && parsed.Some? && !KnownPath(path) ==> o == Outcome(NotFound, [])
    // something is emitted exactly for a parsed POST to one of the three paths
    ensures o.emits != [] <==> verb == "POST" && parsed.Some? && KnownPath(path)
    ensures o.reply == Success <==> verb == "POST" && parsed.Some? && KnownPath(path) && parsed.value != JNull
    ensures o.reply == Success ==> o.emits == Plan(path, parsed.value)
    // a null payload is broadcast (on turno-llamado only its first emit) and then answered 500
    ensures verb == "POST" && parsed == Some(JNull) && KnownPath(path) ==>
      && o.reply == ServerError
      && o.emits == (if path == LlamadoPath then Plan(path, JNull)[..1] else Plan(path, JNull))
    // the payload is passed on unchanged
    ensures forall e :: e in o.emits ==> parsed.Some? && e.payload == parsed.value
  {
    if verb == "OPTIONS" then Outcome(NoContent, [])
    else if verb != "POST" then Outcome(MethodNotAllowed, [])
    else match parsed
      case None => Outcome(ServerError, [])
      case Some(data) =>
        if path == NuevoPath then
          var sent := [Emit(Everyone, "turno-nuevo", data)];
          Outcome(if data.JNull? then ServerError else Success, sent)
        else if path == LlamadoPath then
          var sent := [Emit(Everyone, "turno-llamado", data)];
          if data.JNull? then Outcome(ServerError, sent)
          else
            var toSector := Emit(Room(SectorRoom(FieldText(data, "sectorId"))), "turno-sector-llamado", data);
            Outcome(Success, sent + [toSector, Emit(Room(MonitorRoom), "monitor-turno-llamado", data)])
        else if path == ActualizadoPath then
          var sent := [Emit(Everyone, "turno-actualizado", data), Emit(Room(MonitorRoom), "monitor-turno-actualizado", data)];
          Outcome(if data.JNull? then ServerError else Success, sent)
        else Outcome(NotFound, [])
  }

  // ------------------------------------------------------ the request target

  /*
   * `new URL(req.url || '', 'http://localhost:PORT').pathname`, following the
   * WHATWG URL parser in the parts that decide the pathname: the scheme, the
   * slashes and the authority in front of the path, `/` and (in the special
   * schemes) `\` as segment separators, the removal of `.` and `..` segments,
   * and the cut at `?` or `#`.
   */

  predicate IsAlpha(c: char) {
    'a' <= c <= 'z' || 'A' <= c <= 'Z'
  }

  predicate IsSchemeChar(c: char) {
    IsAlpha(c) || IsDigit(c) || c == '+' || c == '-' || c == '.'
  }

  /** The length of the longest run of scheme characters at the front. */
  function SchemeRun(s: string): (n: nat)
    ensures n <= |s|
    ensures forall j :: 0 <= j < n ==> IsSchemeChar(s[j])
    ensures n < |s| ==> !IsSchemeChar(s[n])
  {
    if s == [] || !IsSchemeChar(s[0]) then 0 else 1 + SchemeRun(s[1..])
  }

  /** ASCII lower case: schemes and the `%2e` escapes compare without case. */
  function Lower(s: string): (r: string)
    ensures |r| == |s|
    ensures forall j :: 0 <= j < |s| ==> r[j] == (if 'A' <= s[j] <= 'Z' then (s[j] as int + 32) as char else s[j])
  {
    seq(|s|, j requires 0 <= j < |s| => if 'A' <= s[j] <= 'Z' then (s[j] as int + 32) as char else s[j])
  }

  /** `/` separates segments everywhere, `\` only in a special scheme. */
  predicate IsSep(c: char, special: bool) {
    c == '/' || (special && c == '\\')
  }

  /** Where the query or the fragment starts: at the first `?` or `#`, or at the end. */
  function QueryStart(s: string): (n: nat)
    ensures n <= |s|
    ensures forall j :: 0 <= j < n ==> s[j] != '?' && s[j] != '#'
    ensures n < |s| ==> s[n] == '?' || s[n] == '#'
  {
    if s == [] || s[0] == '?' || s[0] == '#' then 0 else 1 + QueryStart(s[1..])
  }

  /** The text before the first `?` or `#`: the path part of what follows the authority. */
  function UpToQuery(s: string): (r: string)
    ensures |r| <= |s| && r == s[..|r|]
    ensures '?' !in r && '#' !in r
    ensures |r| < |s| ==> s[|r|] == '?' || s[|r|] == '#'
  {
    s[..QueryStart(s)]
  }


  /** The segments of a path, cut at every separator. */
  function Split(s: string, special: bool): (r: seq<string>)
    ensures |r| >= 1
  {
    if s == [] then [""]
    else
      var t := Split(s[1..], special);
      if IsSep(s[0], special) then [""] + t else Prepend(s[0], t)
  }

  /** The segments `t` with `c` put in front of the first one. */
  function Prepend(c: char, t: seq<string>): (r: seq<string>)
    requires t != []
    ensures |r| == |t| && r[0] == [c] + t[0] && r[1..] == t[1..]
  {
    [[c] + t[0]] + t[1..]
  }

  predicate SingleDot(seg: string) {
    seg == "." || Lower(seg) == "%2e"
  }

  predicate DoubleDot(seg: string) {
    var l := Lower(seg);
    l == ".." || l == ".%2e" || l == "%2e." || l == "%2e%2e"
  }

  predicate DotSegment(seg: string) {
    SingleDot(seg) || DoubleDot(seg)
  }

  /** `..` removes the last segment, if there is one. */
  function Shorten(path: seq<string>): seq<string> {
    if path == [] then [] else path[..|path| - 1]
  }

  /** The path state on a segment ended by a separator. */
  function Step(path: seq<string>, seg: string): seq<string> {
    if DoubleDot(seg) then Shorten(path)
    else if SingleDot(seg) then path
    else path + [seg]
  }

  /** The path state on the last segment, ended by `?`, `#` or the end: a dot segment leaves an empty one. */
  function StepLast(path: seq<string>, seg: string): seq<string> {
    if DoubleDot(seg) then Shorten(path) + [""]
    else if SingleDot(seg) then path + [""]
    else path + [seg]
  }

  /** The segments before the last one, applied in order to `path`. */
  function Walk(path: seq<string>, segs: seq<string>): seq<string> {
    if segs == [] then path else Step(Walk(path, segs[..|segs| - 1]), segs[|segs| - 1])
  }

  function Resolve(path: seq<string>, segs: seq<string>): seq<string>
    requires segs != []
  {
    StepLast(Walk(path, segs[..|segs| - 1]), segs[|segs| - 1])
  }

  /** The path serializer: `/` in front of every segment. */
  function Serialize(path: seq<string>): string {
    if path == [] then "" else "/" + path[0] + Serialize(path[1..])
  }

  /** The path state run over `s` from the path `base`. */
  function PathFrom(s: string, special: bool, base: seq<string>): string {
    Serialize(Resolve(base, Split(UpToQuery(s), special)))
  }

  predicate EndsAuthority(c: char, special: bool) {
    IsSep(c, special) || c == '?' || c == '#'
  }

  /** The length of the authority (user, host and port) at the front. */
  function AuthorityLen(s: string, special: bool): (n: nat)
    ensures n <= |s|
    ensures forall j :: 0 <= j < n ==> !EndsAuthority(s[j], special)
    ensures n < |s| ==> EndsAuthority(s[n], special)
  {
    if s == [] || EndsAuthority(s[0], special) then 0 else 1 + AuthorityLen(s[1..], special)
  }

  /** The special-authority-ignore-slashes state: every leading `/` and `\` is skipped. */
  function DropSlashes(s: string): (r: string)
    ensures |r| <= |s| && r == s[|s| - |r|..]
    ensures r == [] || !IsSep(r[0], true)
  {
    if s != [] && IsSep(s[0], true) then
      var t := DropSlashes(s[1..]);
      assert s[1..][|s[1..]| - |t|..] == s[|s| - |t|..];
      t
    else s
  }

  /** What follows the authority: the path, `/` when a special URL has none, `''` otherwise. */
  function AfterAuthority(s: string, special: bool): string {
    var rest := s[AuthorityLen(s, special)..];
    if rest != [] && IsSep(rest[0], special) then PathFrom(rest[1..], special, [])
    else if special then "/"
    else ""
  }

  /** A target without a scheme of its own, against the base whose path is `/`. */
  function Relative(s: string): string {
    if s == [] || s[0] == '?' || s[0] == '#' then "/"
    else if IsSep(s[0], true) then
      if |s| > 1 && IsSep(s[1], true) then AfterAuthority(DropSlashes(s), true)
      else PathFrom(s[1..], true, [])
    else PathFrom(s, true, [])
  }

  /** A `file:` target: an optional host after two slashes, then the path. */
  function FilePath(rest: string): string {
    if rest != [] && IsSep(rest[0], true) then
      if |rest| > 1 && IsSep(rest[1], true) then AfterAuthority(rest[2..], true)
      else PathFrom(rest[1..], true, [])
    else PathFrom(rest, true, [])
  }

  /** A non-special scheme: an authority after `//`, a path after `/`, otherwise an opaque path. */
  function OtherPath(rest: string): string {
    if rest != [] && rest[0] == '/' then
      if |rest| > 1 && rest[1] == '/' then AfterAuthority(rest[2..], false)
      else PathFrom(rest[1..], false, [])
    else UpToQuery(rest)
  }

  /** `new URL(url, 'http://localhost:PORT').pathname`. */
  function PathName(url: string): string {
    var n := SchemeRun(url);
    if url != [] && IsAlpha(url[0]) && n < |url| && url[n] == ':' then
      var scheme, rest := Lower(url[..n]), url[n + 1..];
      if scheme == "http" then Relative(rest)
      else if scheme == "file" then FilePath(rest)
      else if scheme == "https" || scheme == "ws" || scheme == "wss" || scheme == "ftp" then
        AfterAuthority(DropSlashes(rest), true)
      else OtherPath(rest)
    else Relative(url)
  }

  // ------------------------------------------------------ pathname lemmas

  /** Cutting a path at a separator cuts its segment list there. */
  lemma {:induction false} SplitAt(x: string, c: char, y: string, special: bool)
    requires IsSep(c, special)
    ensures Split(x + [c] + y, special) == Split(x, special) + Split(y, special)
  {
    var s := x + [c] + y;
    if x == [] {
      assert s[0] == c && s[1..] == y;
    } else {
      assert s[0] == x[0] && s[1..] == x[1..] + [c] + y;
      SplitAt(x[1..], c, y, special);
      SplitStep(x, s, Split(y, special), special);
    }
  }

  /** One step of Split on two texts that start alike and whose rests split apart by `ty`. */
  lemma SplitStep(x: string, s: string, ty: seq<string>, special: bool)
    requires x != [] && s != [] && s[0] == x[0]
    requires Split(s[1..], special) == Split(x[1..], special) + ty
    ensures Split(s, special) == Split(x, special) + ty
  {
    if IsSep(x[0], special) {
      ConsAppend("", Split(x[1..], special), ty);
    } else {
      PrependAppend(x[0], Split(x[1..], special), ty);
    }
  }

  lemma PrependAppend(c: char, t: seq<string>, u: seq<string>)
    requires t != []
    ensures Prepend(c, t + u) == Prepend(c, t) + u
  {
    assert (t + u)[0] == t[0] && (t + u)[1..] == t[1..] + u;
  }

  lemma ConsAppend<T>(h: T, a: seq<T>, b: seq<T>)
    ensures [h] + (a + b) == ([h] + a) + b
  {
  }



  lemma {:induction false} SplitWhole(x: string, special: bool)
    requires '/' !in x && (special ==> '\\' !in x)
    ensures Split(x, special) == [x]
  {
    if x != [] {
      assert x[0] in x && forall c :: c in x[1..] ==> c in x;
      SplitWhole(x[1..], special);
      assert [x[0]] + x[1..] == x;
    }
  }

  lemma UpToQueryAppend(x: string, y: string)
    requires '?' !in x && '#' !in x
    ensures UpToQuery(x + y) == x + UpToQuery(y)
  {
    QueryStartAppend(x, y);
    assert (x + y)[..|x| + QueryStart(y)] == x + y[..QueryStart(y)];
  }

  lemma {:induction false} QueryStartAppend(x: string, y: string)
    requires '?' !in x && '#' !in x
    ensures QueryStart(x + y) == |x| + QueryStart(y)
  {
    if x == [] {
      assert x + y == y;
    } else {
      assert x[0] in x && forall c :: c in x[1..] ==> c in x;
      assert (x + y)[0] == x[0] && (x + y)[1..] == x[1..] + y;
      QueryStartAppend(x[1..], y);
    }
  }

  lemma {:induction false} WalkAppend(path: seq<string>, a: seq<string>, b: seq<string>)
    ensures Walk(path, a + b) == Walk(Walk(path, a), b)
  {
    if b == [] {
      assert a + b == a;
    } else {
      assert (a + b)[..|a + b| - 1] == a + b[..|b| - 1];
      WalkAppend(path, a, b[..|b| - 1]);
    }
  }

  /** A `.` segment followed by a separator leaves the path as it was. */
  lemma SingleDotVanishes(path: seq<string>, a: seq<string>, d: string, b: seq<string>)
    requires SingleDot(d) && b != []
    ensures Resolve(path, a + [d] + b) == Resolve(path, a + b)
  {
    var b' := b[..|b| - 1];
    assert (a + [d] + b)[..|a + [d] + b| - 1] == (a + [d]) + b';
    assert (a + b)[..|a + b| - 1] == a + b';
    WalkAppend(path, a + [d], b');
    WalkAppend(path, a, [d]);
    WalkAppend(path, a, b');
    assert Walk(Walk(path, a), [d]) == Walk(path, a) by { assert [d][..0] == []; }
  }

  /** A segment followed by `..` cancels out. */
  lemma ParentCancels(path: seq<string>, a: seq<string>, x: string, d: string, b: seq<string>)
    requires !DotSegment(x) && DoubleDot(d) && b != []
    ensures Resolve(path, a + [x, d] + b) == Resolve(path, a + b)
  {
    var b' := b[..|b| - 1];
    assert (a + [x, d] + b)[..|a + [x, d] + b| - 1] == (a + [x, d]) + b';
    assert (a + b)[..|a + b| - 1] == a + b';
    WalkAppend(path, a + [x, d], b');
    WalkAppend(path, a, [x, d]);
    WalkAppend(path, a, b');
    var w := Walk(path, a);
    assert Walk(w, [x, d]) == Shorten(Walk(w, [x])) by { assert [x, d][..1] == [x]; }
    assert Walk(w, [x]) == w + [x] by { assert [x][..0] == []; }
  }

  /** Without dot segments every segment is kept as it is. */
  lemma {:induction false} WalkClean(path: seq<string>, segs: seq<string>)
    requires forall seg :: seg in segs ==> !DotSegment(seg)
    ensures Walk(path, segs) == path + segs
  {
    if segs != [] {
      var init := segs[..|segs| - 1];
      assert forall seg :: seg in init ==> seg in segs;
      WalkClean(path, init);
      assert segs[|segs| - 1] in segs;
      assert path + init + [segs[|segs| - 1]] == path + segs;
    }
  }

  lemma SerializeTail(t: seq<string>)
    requires t != []
    ensures Serialize(t)[1..] == t[0] + Serialize(t[1..])
  {
    var u := t[0] + Serialize(t[1..]);
    assert Serialize(t) == "/" + u;
    assert ("/" + u)[1..] == u;
  }

  lemma SerializeCons(a: char, t: seq<string>)
    requires t != []
    ensures Serialize(Prepend(a, t)) == "/" + [a] + Serialize(t)[1..]
  {
    var r := Prepend(a, t);
    var rest := Serialize(t[1..]);
    assert Serialize(r) == "/" + ([a] + t[0]) + rest by {
      assert r[1..] == t[1..];
    }
    SerializeTail(t);
    Regroup("/", [a], t[0], rest);
  }

  lemma Regroup<T>(w: seq<T>, x: seq<T>, y: seq<T>, z: seq<T>)
    ensures w + (x + y) + z == w + x + (y + z)
  {
  }



  /** Serializing the segments of a path with no `\` gives the path back behind a `/`. */
  lemma {:induction false} SerializeSplit(x: string, special: bool)
    requires special ==> '\\' !in x
    ensures Serialize(Split(x, special)) == "/" + x
  {
    if x != [] {
      var t := Split(x[1..], special);
      assert Serialize(t) == "/" + x[1..] by {
        assert forall c :: c in x[1..] ==> c in x;
        SerializeSplit(x[1..], special);
      }
      if IsSep(x[0], special) {
        assert x[0] == '/' by { assert x[0] in x; }
        SerializeSep(x, t, special);
      } else {
        assert Split(x, special) == Prepend(x[0], t);
        SerializeJoin(x, t);
      }
    }
  }

  lemma SerializeJoin(x: string, t: seq<string>)
    requires x != [] && t != [] && Serialize(t) == "/" + x[1..]
    ensures Serialize(Prepend(x[0], t)) == "/" + x
  {
    SerializeCons(x[0], t);
    assert ("/" + x[1..])[1..] == x[1..];
    assert "/" + [x[0]] + x[1..] == "/" + x by { assert x == [x[0]] + x[1..]; }
  }



  lemma SerializeSep(x: string, t: seq<string>, special: bool)
    requires x != [] && x[0] == '/' && t == Split(x[1..], special) && Serialize(t) == "/" + x[1..]
    ensures Serialize(Split(x, special)) == "/" + x
  {
    assert Split(x, special) == [""] + t;
    assert ([""] + t)[0] == "" && ([""] + t)[1..] == t;
    assert Serialize([""] + t) == "/" + "" + Serialize(t);
    assert x == [x[0]] + x[1..];
  }

  /** A target starting with one `/` is a path relative to the base's root. */
  lemma OriginForm(x: string)
    requires x == [] || !IsSep(x[0], true)
    ensures PathName("/" + x) == PathFrom(x, true, [])
  {
    assert ("/" + x)[1..] == x;
  }

  /**
   * A target that is `/` and a path with no `\` and no dot segment before its
   * query keeps that path: the parser then changes nothing.
   */
  lemma CleanTarget(p: string)
    requires p == [] || !IsSep(p[0], true)
    requires '\\' !in UpToQuery(p)
    requires forall seg :: seg in Split(UpToQuery(p), true) ==> !DotSegment(seg)
    ensures PathName("/" + p) == "/" + UpToQuery(p)
  {
    OriginForm(p);
    var segs := Split(UpToQuery(p), true);
    ResolveClean([], segs);
    assert [] + segs == segs;
    SerializeSplit(UpToQuery(p), true);
  }

  lemma ResolveClean(path: seq<string>, segs: seq<string>)
    requires segs != [] && forall seg :: seg in segs ==> !DotSegment(seg)
    ensures Resolve(path, segs) == path + segs
  {
    var init, last := segs[..|segs| - 1], segs[|segs| - 1];
    assert forall seg :: seg in init ==> seg in segs;
    WalkClean(path, init);
    assert last in segs;
    assert init + [last] == segs;
    assert path + init + [last] == path + segs;
  }

  /** A text with no separator, no `?` and no `#`: it stays one segment of a path. */
  predicate Plain(s: string) {
    '/' !in s && '\\' !in s && '?' !in s && '#' !in s
  }

  /** `/./` inside the path of a target reads as `/`. */
  lemma DotSegmentSkipped(p: string, q: string)
    requires p != [] && !IsSep(p[0], true) && '?' !in p && '#' !in p
    ensures PathName("/" + p + "/./" + q) == PathName("/" + p + "/" + q)
  {
    assert "/" + p + "/./" + q == "/" + (p + "/" + "." + "/" + q);
    assert "/" + p + "/" + q == "/" + (p + "/" + q);
    OriginForm(p + "/" + "." + "/" + q);
    OriginForm(p + "/" + q);
    PathFromSkip(p, ".", q);
  }

  lemma PathFromSkip(p: string, d: string, q: string)
    requires '?' !in p && '#' !in p && Plain(d) && SingleDot(d)
    ensures PathFrom(p + "/" + d + "/" + q, true, []) == PathFrom(p + "/" + q, true, [])
  {
    var u := UpToQuery(q);
    UpToQueryAppend(p + "/" + d + "/", q);
    UpToQueryAppend(p + "/", q);
    SplitThree(p, d, u);
    SplitSlash(p, u, true);
    SingleDotVanishes([], Split(p, true), d, Split(u, true));
  }

  /** `/x/../` inside the path of a target reads as `/`. */
  lemma ParentSegmentCancels(p: string, x: string, q: string)
    requires p != [] && !IsSep(p[0], true) && '?' !in p && '#' !in p
    requires Plain(x) && !DotSegment(x)
    ensures PathName("/" + p + "/" + x + "/../" + q) == PathName("/" + p + "/" + q)
  {
    assert "/" + p + "/" + x + "/../" + q == "/" + (p + "/" + x + "/" + ".." + "/" + q);
    assert "/" + p + "/" + q == "/" + (p + "/" + q);
    OriginForm(p + "/" + x + "/" + ".." + "/" + q);
    OriginForm(p + "/" + q);
    assert DoubleDot("..") by { LowerKeeps(".."); }
    PathFromParent(p, x, "..", q);
  }

  lemma PathFromParent(p: string, x: string, d: string, q: string)
    requires '?' !in p && '#' !in p && Plain(x) && !DotSegment(x) && Plain(d) && DoubleDot(d)
    ensures PathFrom(p + "/" + x + "/" + d + "/" + q, true, []) == PathFrom(p + "/" + q, true, [])
  {
    var u := UpToQuery(q);
    UpToQueryAppend(p + "/" + x + "/" + d + "/", q);
    UpToQueryAppend(p + "/", q);
    var sp, su := Split(p, true), Split(u, true);
    assert Split(p + "/" + x + "/" + d + "/" + u, true) == sp + [x, d] + su by {
      SplitThree(p + "/" + x, d, u);
      SplitSlash(p, x, true);
      SplitWhole(x, true);
      assert sp + [x] + [d] + su == sp + [x, d] + su;
    }
    SplitSlash(p, u, true);
    ParentCancels([], sp, x, d, su);
  }

  /** A plain segment between two `/` is one segment of the split. */
  lemma SplitThree(p: string, d: string, u: string)
    requires Plain(d)
    ensures Split(p + "/" + d + "/" + u, true) == Split(p, true) + [d] + Split(u, true)
  {
    assert p + "/" + d + "/" + u == p + "/" + (d + "/" + u);
    SplitSlash(p, d + "/" + u, true);
    SplitSlash(d, u, true);
    SplitWhole(d, true);
  }

  lemma SplitSlash(x: string, y: string, special: bool)
    ensures Split(x + "/" + y, special) == Split(x, special) + Split(y, special)
  {
    assert x + "/" + y == x + ['/'] + y;
    SplitAt(x, '/', y, special);
  }

  /** Lower case leaves a text without capitals as it is. */
  lemma LowerKeeps(s: string)
    requires forall c :: c in s ==> !('A' <= c <= 'Z')
    ensures Lower(s) == s
  {
    assert forall j :: 0 <= j < |s| ==> s[j] in s;
  }

  /** A `\` in the path of a target reads as `/`. */
  lemma BackslashIsSlash(p: string, q: string)
    requires p != [] && !IsSep(p[0], true) && '?' !in p && '#' !in p
    ensures PathName("/" + p + "\\" + q) == PathName("/" + p + "/" + q)
  {
    assert "/" + p + "\\" + q == "/" + (p + "\\" + q);
    assert "/" + p + "/" + q == "/" + (p + "/" + q);
    OriginForm(p + "\\" + q);
    OriginForm(p + "/" + q);
    UpToQueryAppend(p + "\\", q);
    UpToQueryAppend(p + "/", q);
    var u := UpToQuery(q);
    assert p + "\\" + u == p + ['\\'] + u;
    assert p + "/" + u == p + ['/'] + u;
    SplitAt(p, '\\', u, true);
    SplitAt(p, '/', u, true);
  }

  lemma {:induction false} AuthorityLenAppend(h: string, y: string, special: bool)
    requires forall c :: c in h ==> !EndsAuthority(c, special)
    ensures AuthorityLen(h + y, special) == |h| + AuthorityLen(y, special)
  {
    if h == [] {
      assert h + y == y;
    } else {
      assert h[0] in h && forall c :: c in h[1..] ==> c in h;
      assert (h + y)[0] == h[0] && (h + y)[1..] == h[1..] + y;
      AuthorityLenAppend(h[1..], y, special);
    }
  }

  lemma {:induction false} SchemeRunAppend(x: string, y: string)
    requires forall c :: c in x ==> IsSchemeChar(c)
    ensures SchemeRun(x + y) == |x| + SchemeRun(y)
  {
    if x == [] {
      assert x + y == y;
    } else {
      assert x[0] in x && forall c :: c in x[1..] ==> c in x;
      assert (x + y)[0] == x[0] && (x + y)[1..] == x[1..] + y;
      SchemeRunAppend(x[1..], y);
    }
  }

  /** The path after a host `h` that the slashes in front of it introduce. */
  lemma AfterHost(h: string, x: string)
    requires h != [] && Plain(h)
    ensures Relative("//" + h + "/" + x) == PathFrom(x, true, [])
  {
    HostSlashes(h, x);
    HostPath(h, x);
  }

  lemma HostSlashes(h: string, x: string)
    requires h != [] && Plain(h)
    ensures Relative("//" + h + "/" + x) == AfterAuthority(h + "/" + x, true)
  {
    var y := h + "/" + x;
    assert "//" + h + "/" + x == "//" + y;
    assert y[0] == h[0] && h[0] in h;
    DropTwoSlashes(y);
  }

  lemma HostPath(h: string, x: string)
    requires Plain(h)
    ensures AfterAuthority(h + "/" + x, true) == PathFrom(x, true, [])
  {
    AuthorityLenAppend(h, "/" + x, true);
    assert (h + "/" + x)[|h|..] == "/" + x && ("/" + x)[1..] == x;
  }



  lemma DropTwoSlashes(y: string)
    requires y != [] && !IsSep(y[0], true)
    ensures DropSlashes("//" + y) == y
  {
    assert ("//" + y)[1..] == "/" + y && ("/" + y)[1..] == y;
    assert DropSlashes("/" + y) == DropSlashes(y) == y;
  }

  /** A target in the base's own scheme is read as if it had no scheme. */
  lemma HttpScheme(rest: string)
    ensures PathName("http:" + rest) == Relative(rest)
  {
    var u := "http:" + rest;
    assert u == "http" + (":" + rest);
    SchemeRunAppend("http", ":" + rest);
    assert SchemeRun(":" + rest) == 0;
    assert u[..4] == "http" && u[4] == ':' && u[5..] == rest;
    LowerKeeps("http");
  }

  /** `//host` in front of a path, or `http://host`, only names the host: the pathname is the path's. */
  lemma AuthorityIgnored(h: string, x: string)
    requires h != [] && Plain(h)
    ensures PathName("//" + h + "/" + x) == PathFrom(x, true, [])
    ensures PathName("http://" + h + "/" + x) == PathFrom(x, true, [])
    ensures x == [] || !IsSep(x[0], true) ==> PathName("//" + h + "/" + x) == PathName("/" + x)
  {
    if x == [] || !IsSep(x[0], true) {
      OriginForm(x);
    }
    var rest := "//" + h + "/" + x;
    AfterHost(h, x);
    SlashStart(rest);
    HttpText(h, x);
    HttpScheme(rest);
  }

  lemma HttpText(h: string, x: string)
    ensures "http://" + h + "/" + x == "http:" + ("//" + h + "/" + x)
  {
    assert "http://" == "http:" + "//";
  }

  /** A target starting with `/` has no scheme. */
  lemma SlashStart(url: string)
    requires url != [] && url[0] == '/'
    ensures PathName(url) == Relative(url)
  {
  }

  /** Each of the three routes is its own pathname. */
  /** What may follow a path in a target: nothing, a query or a fragment. */
  predicate QueryTail(q: string) {
    q == [] || q[0] == '?' || q[0] == '#'
  }

  /** Each of the three routes is its own pathname, whatever query follows it. */
  lemma RoutesAreFixed(path: string, q: string)
    requires KnownPath(path) && QueryTail(q)
    ensures PathName(path + q) == path
  {
    if path == NuevoPath {
      RouteIsFixed("turno-nuevo", q);
    } else if path == LlamadoPath {
      RouteIsFixed("turno-llamado", q);
    } else {
      RouteIsFixed("turno-actualizado", q);
    }
  }

  /** A name that is one segment and too long to be a dot segment. */
  predicate RouteName(name: string) {
    |name| > 6 && Plain(name)
  }

  lemma RouteIsFixed(name: string, q: string)
    requires RouteName(name) && QueryTail(q)
    ensures PathName(Notify + name + q) == Notify + name
  {
    assert Notify + name + q == "/" + "notify" + "/" + name + q;
    assert Notify + name == "/" + "notify" + "/" + name;
    NotifyIsNoDotSegment();
    assert !DotSegment(name) by { assert |Lower(name)| > 6; }
    TwoSegmentsFixed("notify", name, q);
  }

  lemma NotifyIsNoDotSegment()
    ensures Plain("notify") && !DotSegment("notify")
  {
    LowerKeeps("notify");
  }

  /** A target of two plain segments, neither a dot segment, has them as its pathname. */
  lemma TwoSegmentsFixed(dir: string, name: string, q: string)
    requires dir != [] && Plain(dir) && Plain(name) && !DotSegment(dir) && !DotSegment(name)
    requires QueryTail(q)
    ensures PathName("/" + dir + "/" + name + q) == "/" + dir + "/" + name
  {
    var p := dir + "/" + name;
    assert "/" + dir + "/" + name + q == "/" + (p + q);
    assert "/" + dir + "/" + name == "/" + p;
    QueryTailDropped(p, q);
    assert Split(p, true) == [dir, name] by {
      SplitSlash(dir, name, true);
      SplitWhole(dir, true);
      SplitWhole(name, true);
    }
    assert (p + q)[0] == dir[0] && dir[0] in dir;
    CleanTarget(p + q);
  }

  /** A query or a fragment after a path is not part of it. */
  lemma QueryTailDropped(p: string, q: string)
    requires '?' !in p && '#' !in p && QueryTail(q)
    ensures UpToQuery(p + q) == p
  {
    UpToQueryAppend(p, q);
    assert QueryStart(q) == 0;
    assert p + [] == p;
  }

  /** `/./` after `/notify`, or a `\` in place of its second `/`, still names the route. */
  lemma RouteAliases(name: string)
    requires RouteName(name)
    ensures PathName("/notify/./" + name) == Notify + name
    ensures PathName("/notify\\" + name) == Notify + name
  {
    NotifyIsNoDotSegment();
    AliasText(name);
    DotSegmentSkipped("notify", name);
    BackslashIsSlash("notify", name);
    RouteIsFixed(name, []);
    assert Notify + name + [] == Notify + name;
  }

  lemma AliasText(name: string)
    ensures "/notify/./" + name == "/" + "notify" + "/./" + name
    ensures "/notify\\" + name == "/" + "notify" + "\\" + name
    ensures Notify + name == "/" + "notify" + "/" + name
  {
  }

  /** A route behind `//host` or `http://host` is still the route. */
  lemma RouteBehindHost(h: string, name: string)
    requires h != [] && Plain(h) && RouteName(name)
    ensures PathName("//" + h + Notify + name) == Notify + name
    ensures PathName("http://" + h + Notify + name) == Notify + name
  {
    var x := "notify/" + name;
    HostText(h, name);
    AuthorityIgnored(h, x);
    OriginForm(x);
    RouteIsFixed(name, []);
    assert Notify + name + [] == Notify + name;
  }

  lemma HostText(h: string, name: string)
    ensures "//" + h + Notify + name == "//" + h + "/" + ("notify/" + name)
    ensures "http://" + h + Notify + name == "http://" + h + "/" + ("notify/" + name)
    ensures "/" + ("notify/" + name) == Notify + name
    ensures ("notify/" + name)[0] == 'n'
  {
  }

  /** A request for a route, followed by any query, is handled as that route. */
  lemma RouteTargets(verb: string, path: string, q: string, body: string, parse: string -> Option<Json>)
    requires KnownPath(path) && QueryTail(q)
    ensures HandleHttp(verb, path + q, body, parse) == Handle(verb, path, parse(if body == "" then "{}" else body))
  {
    RoutesAreFixed(path, q);
  }

  /** The body as the `data` callbacks leave it: the chunks in arrival order. */
  function Concat(chunks: seq<string>): string {
    if chunks == [] then "" else Concat(chunks[..|chunks| - 1]) + chunks[|chunks| - 1]
  }

  /** The `data` callbacks: `body += chunk` for every chunk, in order. */
  method AccumulateBody(chunks: seq<string>) returns (body: string)
    ensures body == Concat(chunks)
    ensures |body| == Length(chunks)
  {
    body := "";
    var i := 0;
    while i < |chunks|
      invariant 0 <= i <= |chunks|
      invariant body == Concat(chunks[..i])
      invariant |body| == Length(chunks[..i])
    {
      assert chunks[..i + 1][..i] == chunks[..i];
      body := body + chunks[i];
      i := i + 1;
    }
    assert chunks[..i] == chunks;
  }

  /** The total number of characters in the chunks. */
  function Length(chunks: seq<string>): nat {
    if chunks == [] then 0 else Length(chunks[..|chunks| - 1]) + |chunks[|chunks| - 1]|
  }

  /**
   * The whole handler once the body has arrived: `JSON.parse` is the abstract
   * parser `parse`, applied to `body || '{}'`.
   */
  function HandleHttp(verb: string, url: string, body: string, parse: string -> Option<Json>): Outcome {
    Handle(verb, PathName(url), parse(if body == "" then "{}" else body))
  }

  /** An empty body is handled exactly like the body `{}`. */
  lemma EmptyBodyIsEmptyObject(verb: string, url: string, parse: string -> Option<Json>)
    requires parse("{}") == Some(JObj(map[]))
    ensures HandleHttp(verb, url, "", parse) == HandleHttp(verb, url, "{}", parse)
    ensures verb == "POST" && PathName(url) == NuevoPath ==>
      HandleHttp(verb, url, "", parse) == Outcome(Success, [Emit(Everyone, "turno-nuevo", JObj(map[]))])
  {
    var parsed := parse("{}");
    assert HandleHttp(verb, url, "", parse) == Handle(verb, PathName(url), parsed);
    assert HandleHttp(verb, url, "{}", parse) == Handle(verb, PathName(url), parsed);
    if verb == "POST" && PathName(url) == NuevoPath {
      var o := Handle(verb, NuevoPath, parsed);
      assert o.reply == Success;
    }
  }

  // -------------------------------------------------------------- fan-out

  /** One message delivered to one socket. */
  datatype Delivery = Delivery(recipient: ConnId, event: string, payload: Json)

  /** The sockets an emit reaches: all connected ones, or the connected members of the room. */
  function Recipients(t: Target, conns: seq<ConnId>, rooms: map<string, set<ConnId>>): (rs: seq<ConnId>)
    ensures forall c :: c in rs <==> c in conns && (t.Room? ==> c in Members(rooms, t.name))
    ensures Distinct(conns) ==> Distinct(rs)
  {
    match t
    case Everyone => conns
    case Room(n) => InRoom(conns, Members(rooms, n))
  }

  function InRoom(conns: seq<ConnId>, members: set<ConnId>): (rs: seq<ConnId>)
    ensures forall c :: c in rs <==> c in conns && c in members
    ensures Distinct(conns) ==> Distinct(rs)
  {
    if conns == [] then []
    else if conns[0] in members then [conns[0]] + InRoom(conns[1..], members)
    else InRoom(conns[1..], members)
  }

  function Fanout(e: Emit, rs: seq<ConnId>): (ds: seq<Delivery>)
    ensures |ds| == |rs|
  {
    if rs == [] then [] else [Delivery(rs[0], e.event, e.payload)] + Fanout(e, rs[1..])
  }

  /** Every message the emits of one request deliver, emit by emit. */
  function Deliveries(emits: seq<Emit>, conns: seq<ConnId>, rooms: map<string, set<ConnId>>): seq<Delivery> {
    if emits == [] then []
    else Fanout(emits[0], Recipients(emits[0].target, conns, rooms)) + Deliveries(emits[1..], conns, rooms)
  }

  /** The messages one socket receives, in order, as (event, payload) pairs. */
  function Inbox(ds: seq<Delivery>, c: ConnId): seq<(string, Json)> {
    if ds == [] then []
    else (if ds[0].recipient == c then [(ds[0].event, ds[0].payload)] else []) + Inbox(ds[1..], c)
  }

  /** Whether an emit reaches socket `c`. */
  predicate Reaches(t: Target, c: ConnId, conns: seq<ConnId>, rooms: map<string, set<ConnId>>) {
    c in conns && (t.Room? ==> c in Members(rooms, t.name))
  }

  /** The reference answer for one socket: one message per emit that reaches it. */
  function Heard(emits: seq<Emit>, c: ConnId, conns: seq<ConnId>, rooms: map<string, set<ConnId>>): seq<(string, Json)> {
    if emits == [] then [] else HeardOne(emits[0], c, conns, rooms) + Heard(emits[1..], c, conns, rooms)
  }

  function HeardOne(e: Emit, c: ConnId, conns: seq<ConnId>, rooms: map<string, set<ConnId>>): seq<(string, Json)> {
    if Reaches(e.target, c, conns, rooms) then [(e.event, e.payload)] else []
  }

  lemma {:induction false} HeardAppend(a: seq<Emit>, b: seq<Emit>, c: ConnId, conns: seq<ConnId>, rooms: map<string, set<ConnId>>)
    ensures Heard(a + b, c, conns, rooms) == Heard(a, c, conns, rooms) + Heard(b, c, conns, rooms)
    decreases |a|
  {
    if a == [] {
      assert a + b == b;
    } else {
      var ab := a + b;
      assert ab[0] == a[0] && ab[1..] == a[1..] + b;
      HeardAppend(a[1..], b, c, conns, rooms);
      var first := HeardOne(a[0], c, conns, rooms);
      assert Heard(ab, c, conns, rooms) == first + Heard(a[1..] + b, c, conns, rooms);
      assert Heard(a, c, conns, rooms) == first + Heard(a[1..], c, conns, rooms);
    }
  }

  lemma {:induction false} InboxAppend(a: seq<Delivery>, b: seq<Delivery>, c: ConnId)
    ensures Inbox(a + b, c) == Inbox(a, c) + Inbox(b, c)
    decreases |a|
  {
    if a == [] {
      assert a + b == b;
    } else {
      var ab := a + b;
      assert ab[0] == a[0] && ab[1..] == a[1..] + b;
      InboxAppend(a[1..], b, c);
      var first := if a[0].recipient == c then [(a[0].event, a[0].payload)] else [];
      assert Inbox(ab, c) == first + Inbox(a[1..] + b, c);
      assert Inbox(a, c) == first + Inbox(a[1..], c);
    }
  }

  lemma {:induction false} InboxOfFanout(e: Emit, rs: seq<ConnId>, c: ConnId)
    requires Distinct(rs)
    ensures Inbox(Fanout(e, rs), c) == if c in rs then [(e.event, e.payload)] else []
    decreases |rs|
  {
    if rs != [] {
      assert Distinct(rs[1..]);
      InboxOfFanout(e, rs[1..], c);
      assert c in rs <==> c == rs[0] || c in rs[1..];
      assert c == rs[0] ==> c !in rs[1..];
    }
  }

  /** Over distinct connections, each socket receives exactly one message per emit that reaches it. */
  lemma {:induction false} InboxIsHeard(emits: seq<Emit>, c: ConnId, conns: seq<ConnId>, rooms: map<string, set<ConnId>>)
    requires Distinct(conns)
    ensures Inbox(Deliveries(emits, conns, rooms), c) == Heard(emits, c, conns, rooms)
    decreases |emits|
  {
    if emits != [] {
      var rs := Recipients(emits[0].target, conns, rooms);
      InboxAppend(Fanout(emits[0], rs), Deliveries(emits[1..], conns, rooms), c);
      InboxOfFanout(emits[0], rs, c);
      InboxIsHeard(emits[1..], c, conns, rooms);
    }
  }

  /** A socket that is not connected receives nothing. */
  lemma {:induction false} NothingForStrangers(emits: seq<Emit>, c: ConnId, conns: seq<ConnId>, rooms: map<string, set<ConnId>>)
    requires Distinct(conns) && c !in conns
    ensures Inbox(Deliveries(emits, conns, rooms), c) == []
    decreases |emits|
  {
    InboxIsHeard(emits, c, conns, rooms);
    HeardByStranger(emits, c, conns, rooms);
  }

  lemma {:induction false} HeardByStranger(emits: seq<Emit>, c: ConnId, conns: seq<ConnId>, rooms: map<string, set<ConnId>>)
    requires c !in conns
    ensures Heard(emits, c, conns, rooms) == []
    decreases |emits|
  {
    if emits != [] {
      HeardByStranger(emits[1..], c, conns, rooms);
    }
  }

  /** `turno-nuevo`: every connected socket gets exactly one `turno-nuevo` with the payload, and nothing else. */
  lemma TurnoNuevoReachesEveryone(data: Json, c: ConnId, conns: seq<ConnId>, rooms: map<string, set<ConnId>>)
    requires Distinct(conns) && c in conns && data != JNull
    ensures Inbox(Deliveries(Handle("POST", NuevoPath, Some(data)).emits, conns, rooms), c) == [("turno-nuevo", data)]
  {
    var emits := Handle("POST", NuevoPath, Some(data)).emits;
    InboxIsHeard(emits, c, conns, rooms);
  }

  /**
   * `turno-llamado` with sector id text `s`: `turno-llamado` to everyone, then
   * `turno-sector-llamado` to members of `sector-s`, then `monitor-turno-llamado`
   * to members of `monitor`; a member of both rooms receives three messages.
   */
  lemma TurnoLlamadoInbox(data: Json, c: ConnId, conns: seq<ConnId>, rooms: map<string, set<ConnId>>)
    requires Distinct(conns) && c in conns && data != JNull
    ensures var room := SectorRoom(FieldText(data, "sectorId"));
      Inbox(Deliveries(Handle("POST", LlamadoPath, Some(data)).emits, conns, rooms), c)
      == [("turno-llamado", data)]
         + (if c in Members(rooms, room) then [("turno-sector-llamado", data)] else [])
         + (if c in Members(rooms, MonitorRoom) then [("monitor-turno-llamado", data)] else [])
  {
    var emits := Handle("POST", LlamadoPath, Some(data)).emits;
    InboxIsHeard(emits, c, conns, rooms);
    assert Heard(emits, c, conns, rooms) == HeardOne(emits[0], c, conns, rooms) + Heard(emits[1..], c, conns, rooms);
    HeardTwo(emits[1..], c, conns, rooms);
  }

  /** Two emits are heard as the first one's messages, then the second one's. */
  lemma HeardTwo(emits: seq<Emit>, c: ConnId, conns: seq<ConnId>, rooms: map<string, set<ConnId>>)
    requires |emits| == 2
    ensures Heard(emits, c, conns, rooms) == HeardOne(emits[0], c, conns, rooms) + HeardOne(emits[1], c, conns, rooms)
  {
    var rest := emits[1..];
    assert rest[0] == emits[1] && rest[1..] == [];
    assert Heard(rest, c, conns, rooms) == HeardOne(emits[1], c, conns, rooms) + Heard([], c, conns, rooms);
  }

  /** `turno-actualizado`: everyone gets `turno-actualizado`, monitor members also `monitor-turno-actualizado`; no sector message. */
  lemma TurnoActualizadoInbox(data: Json, c: ConnId, conns: seq<ConnId>, rooms: map<string, set<ConnId>>)
    requires Distinct(conns) && c in conns && data != JNull
    ensures Inbox(Deliveries(Handle("POST", ActualizadoPath, Some(data)).emits, conns, rooms), c)
      == [("turno-actualizado", data)]
         + (if c in Members(rooms, MonitorRoom) then [("monitor-turno-actualizado", data)] else [])
  {
    var emits := Handle("POST", ActualizadoPath, Some(data)).emits;
    InboxIsHeard(emits, c, conns, rooms);
    HeardTwo(emits, c, conns, rooms);
  }
}
