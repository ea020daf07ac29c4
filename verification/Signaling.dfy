/**
 The signaling server: a table of rooms with one master and some viewers
 (cloud/signaling/rooms.js), driven by one connection per client
 (cloud/signaling/protocol.js and server.js).

 `Leave`, `JoinMaster` and `JoinViewer` say what the operations do; `RoomTable`
 has the object with the code's loops, proved to compute them.
 */
module Signaling {
  import opened Base

  datatype Role = Master | Viewer

  /** A room entry. `serial` stands for object identity, which the code compares with `===`. */
  datatype Peer = Peer(serial: nat, id: string, role: Role, room: string, conn: nat)

  /** Viewers in insertion order, as the code's `Map` keeps them. */
  datatype Room = Room(master: Option<Peer>, viewers: seq<Peer>)

  datatype Msg =
    | JoinedMaster(room: string, clientId: string, viewers: seq<string>)
    | JoinedViewer(room: string, clientId: string, masterId: Option<string>)
    | PeerJoined(role: Role, peerId: string)
    | PeerLeft(role: Role, peerId: string)
    | LeftRoom
    | Pong
    | Error(text: string)
    | Signal(payload: string, from: string, to: string)

  datatype Phase = Open | Closing | Closed

  /** A client's socket: its state, the handler's `peer` variable, and all that was sent to it. */
  datatype Conn = Conn(phase: Phase, peer: Option<Peer>, inbox: seq<Msg>)

  datatype Server = Server(
    maxViewers: nat, rooms: map<string, Room>, conns: map<nat, Conn>, nextSerial: nat)

  function Init(maxViewers: nat): Server { Server(maxViewers, map[], map[], 0) }

  // ----------------------------------------------------------------- sending

  function Ids(peers: seq<Peer>): seq<string> {
    seq(|peers|, i requires 0 <= i < |peers| => peers[i].id)
  }

  function Append(c: Conn, ms: seq<Msg>): Conn {
    if c.phase.Open? then c.(inbox := c.inbox + ms) else c
  }

  /** `send`: nothing is written to a socket that is not open. */
  function Send(conns: map<nat, Conn>, to: nat, m: Msg): map<nat, Conn> {
    if to in conns then conns[to := Append(conns[to], [m])] else conns
  }

  /** One message to each of the peers. */
  function SendAll(conns: map<nat, Conn>, peers: seq<Peer>, m: Msg): map<nat, Conn> {
    map c | c in conns :: if HasConn(peers, c) then Append(conns[c], [m]) else conns[c]
  }

  predicate HasConn(peers: seq<Peer>, c: nat) {
    exists p :: p in peers && p.conn == c
  }

  function JoinedAll(viewers: seq<Peer>): seq<Msg> {
    seq(|viewers|, i requires 0 <= i < |viewers| => PeerJoined(Viewer, viewers[i].id))
  }

  // ------------------------------------------------------------------- rooms

  function RoomOf(rooms: map<string, Room>, name: string): Room {
    if name in rooms then rooms[name] else Room(None, [])
  }

  predicate RoomHasId(room: Room, id: string) {
    (room.master.Some? && room.master.value.id == id) || HasId(room.viewers, id)
  }

  predicate HasId(peers: seq<Peer>, id: string) {
    exists i :: 0 <= i < |peers| && peers[i].id == id
  }

  function Without(peers: seq<Peer>, p: Peer): (r: seq<Peer>)
    ensures forall q :: q in r <==> q in peers && q != p
    ensures |r| <= |peers|
  {
    if peers == [] then []
    else if peers[0] == p then Without(peers[1..], p)
    else [peers[0]] + Without(peers[1..], p)
  }

  function DropIfEmpty(rooms: map<string, Room>, name: string): map<string, Room> {
    if name in rooms && rooms[name].master.None? && rooms[name].viewers == [] then rooms - {name} else rooms
  }

  predicate InTable(rooms: map<string, Room>, p: Peer) {
    p.room in rooms &&
    if p.role.Master? then rooms[p.room].master == Some(p) else p in rooms[p.room].viewers
  }

  /** `leave`: only an entry that is in the table is removed. */
  function Leave(s: Server, p: Peer): (r: Server)
    ensures r.conns.Keys == s.conns.Keys
  {
    if !InTable(s.rooms, p) then s.(rooms := DropIfEmpty(s.rooms, p.room))
    else if p.role.Master? then
      var room := s.rooms[p.room];
      s.(rooms := DropIfEmpty(s.rooms[p.room := room.(master := None)], p.room),
         conns := SendAll(s.conns, room.viewers, PeerLeft(Master, p.id)))
    else
      var room := s.rooms[p.room].(viewers := Without(s.rooms[p.room].viewers, p));
      s.(rooms := DropIfEmpty(s.rooms[p.room := room], p.room),
         conns := if room.master.None? then s.conns
                  else Send(s.conns, room.master.value.conn, PeerLeft(Viewer, p.id)))
  }

  function LeaveIfJoined(s: Server, c: nat): (r: Server)
    requires c in s.conns
    ensures r.conns.Keys == s.conns.Keys
  {
    if s.conns[c].peer.Some? then Leave(s, s.conns[c].peer.value) else s
  }

  /** The first half of `joinMaster`: a sitting master is told off and disconnected. */
  function Unseat(s: Server, name: string): (r: Server)
    ensures r.conns.Keys == s.conns.Keys
  {
    var room := RoomOf(s.rooms, name);
    if room.master.None? then s
    else
      var prev := room.master.value;
      var told := Send(s.conns, prev.conn, Error("master replaced by new device"));
      var closed := if prev.conn in told && told[prev.conn].phase.Open?
                    then told[prev.conn := told[prev.conn].(phase := Closing)] else told;
      s.(rooms := s.rooms[name := room.(master := None)],
         conns := SendAll(closed, room.viewers, PeerLeft(Master, prev.id)))
  }

  /** The second half: the new master is seated and everybody is introduced. */
  function Seat(s: Server, c: nat, name: string, id: string): Server
    requires c in s.conns
  {
    var room := RoomOf(s.rooms, name);
    var p := Peer(s.nextSerial, id, Master, name, c);
    var welcome := [JoinedMaster(name, id, Ids(room.viewers))] + JoinedAll(room.viewers);
    var welcomed := s.conns[c := Append(s.conns[c], welcome)];
    var told := SendAll(welcomed, room.viewers, PeerJoined(Master, id));
    s.(rooms := s.rooms[name := room.(master := Some(p))],
       conns := told[c := told[c].(peer := Some(p))],
       nextSerial := s.nextSerial + 1)
  }

  function JoinMaster(s: Server, c: nat, name: string, id: string): Server
    requires c in s.conns
  {
    Seat(Unseat(s, name), c, name, id)
  }

  function Refuse(s: Server, c: nat, name: string, why: string): Server
    requires c in s.conns
  {
    var told := Send(s.conns, c, Error(why));
    s.(rooms := s.rooms[name := RoomOf(s.rooms, name)], conns := told[c := told[c].(peer := None)])
  }

  function JoinViewer(s: Server, c: nat, name: string, requested: string, drawn: string): Server
    requires c in s.conns
  {
    var room := RoomOf(s.rooms, name);
    if requested != "" && RoomHasId(room, requested) then Refuse(s, c, name, "client id already in use")
    else if |room.viewers| >= s.maxViewers then Refuse(s, c, name, "viewer limit reached")
    else
      var id := if requested != "" then requested else drawn;
      var p := Peer(s.nextSerial, id, Viewer, name, c);
      var masterId := if room.master.Some? then Some(room.master.value.id) else None;
      var welcome := [JoinedViewer(name, id, masterId)]
        + if masterId.Some? then [PeerJoined(Master, masterId.value)] else [];
      var welcomed := s.conns[c := Append(s.conns[c], welcome).(peer := Some(p))];
      var told := if room.master.None? then welcomed
                  else Send(welcomed, room.master.value.conn, PeerJoined(Viewer, id));
      s.(rooms := s.rooms[name := room.(viewers := room.viewers + [p])],
         conns := told, nextSerial := s.nextSerial + 1)
  }

  // ------------------------------------------------------------------ routing

  /** `find`: the master first, then the viewers. */
  function Find(room: Room, id: string): Option<Peer> {
    if room.master.Some? && room.master.value.id == id then room.master else FindIn(room.viewers, id)
  }

  function FindIn(peers: seq<Peer>, id: string): (r: Option<Peer>)
    ensures r.Some? <==> HasId(peers, id)
    ensures r.Some? ==> r.value in peers && r.value.id == id
  {
    if peers == [] then None
    else if peers[0].id == id then Some(peers[0])
    else
      assert HasId(peers, id) <==> HasId(peers[1..], id) by {
        if HasId(peers, id) {
          var i :| 0 <= i < |peers| && peers[i].id == id;
          assert peers[1..][i - 1].id == id;
        }
      }
      FindIn(peers[1..], id)
  }

  /** The addressee of an offer, answer or candidate. */
  function Target(rooms: map<string, Room>, from: Peer, to: string): Option<Peer> {
    var room := RoomOf(rooms, from.room);
    if to != "" then Find(room, to)
    else if from.role.Viewer? then room.master
    else if |room.viewers| == 1 then Some(room.viewers[0])
    else None
  }

  function Route(s: Server, c: nat, from: Peer, to: string, payload: string): Server {
    var target := Target(s.rooms, from, to);
    if target.None? then
      s.(conns := Send(s.conns, c, Error(if to == "" then "missing to" else "target offline")))
    else
      s.(conns := Send(s.conns, target.value.conn, Signal(payload, from.id, target.value.id)))
  }

  // -------------------------------------------------------------------- steps

  datatype Event =
    | Connect(c: nat)
    | Join(c: nat, role: Role, name: string, requested: string, drawn: string)
    | LeaveMsg(c: nat)
    | SignalMsg(c: nat, to: string, payload: string)
    | Ping(c: nat)
    | BadMsg(c: nat)
    | BeginClose(c: nat)       // by the heartbeat, an oversize message or shutdown
    | CloseEvent(c: nat)

  /**
   Messages may still arrive from a socket the server has begun to close. The id
   drawn by `newClientId` is one the room does not have.
   */
  predicate Possible(s: Server, e: Event) {
    match e
    case Connect(c) => c !in s.conns
    case Join(c, _, name, requested, drawn) =>
      c in s.conns && !s.conns[c].phase.Closed? &&
      (requested == "" ==> drawn != "" && !RoomHasId(RoomOf(LeaveIfJoined(s, c).rooms, name), drawn))
    case _ => e.c in s.conns && !s.conns[e.c].phase.Closed?
  }

  function Step(s: Server, e: Event): Server
    requires Possible(s, e)
  {
    match e
    case Connect(c) => s.(conns := s.conns[c := Conn(Open, None, [])])
    case Join(c, role, name, requested, drawn) =>
      var s' := LeaveIfJoined(s, c);
      if role.Master? then JoinMaster(s', c, name, if requested != "" then requested else drawn)
      else JoinViewer(s', c, name, requested, drawn)
    case LeaveMsg(c) =>
      if s.conns[c].peer.None? then s.(conns := Send(s.conns, c, Error("join first")))
      else
        var s' := Leave(s, s.conns[c].peer.value);
        var told := Send(s'.conns, c, LeftRoom);
        s'.(conns := told[c := told[c].(peer := None)])
    case SignalMsg(c, to, payload) =>
      if s.conns[c].peer.None? then s.(conns := Send(s.conns, c, Error("join first")))
      else Route(s, c, s.conns[c].peer.value, to, payload)
    case Ping(c) => s.(conns := Send(s.conns, c, Pong))
    case BadMsg(c) => s.(conns := Send(s.conns, c, Error("invalid message")))
    case BeginClose(c) =>
      if s.conns[c].phase.Open? then s.(conns := s.conns[c := s.conns[c].(phase := Closing)]) else s
    case CloseEvent(c) =>
      var s' := LeaveIfJoined(s, c);
      s'.(conns := s'.conns[c := s'.conns[c].(phase := Closed, peer := None)])
  }

  // ------------------------------------------------------ what clients believe

  /** A client's picture of its room, folded from the messages it received. */
  datatype View =
    | NotJoined
    | AsMaster(room: string, id: string, viewers: set<string>)
    | AsViewer(room: string, id: string, master: Option<string>)

  function Learn(v: View, m: Msg): View {
    match m
    case JoinedMaster(room, id, viewers) => AsMaster(room, id, set x | x in viewers)
    case JoinedViewer(room, id, master) => AsViewer(room, id, master)
    case PeerJoined(Viewer, id) => if v.AsMaster? then v.(viewers := v.viewers + {id}) else v
    case PeerLeft(Viewer, id) => if v.AsMaster? then v.(viewers := v.viewers - {id}) else v
    case PeerJoined(Master, id) => if v.AsViewer? then v.(master := Some(id)) else v
    case PeerLeft(Master, id) => if v.AsViewer? && v.master == Some(id) then v.(master := None) else v
    case LeftRoom => NotJoined
    case _ => v
  }

  function Believes(inbox: seq<Msg>): View {
    if inbox == [] then NotJoined
    else Learn(Believes(inbox[..|inbox| - 1]), inbox[|inbox| - 1])
  }

  function IdSet(peers: seq<Peer>): set<string> { set i | 0 <= i < |peers| :: peers[i].id }

  /** The server's side of the same picture. */
  function Truth(room: Room, p: Peer): View {
    if p.role.Master? then AsMaster(p.room, p.id, IdSet(room.viewers))
    else AsViewer(p.room, p.id, if room.master.Some? then Some(room.master.value.id) else None)
  }

  // ---------------------------------------------------------------- invariants

  ghost predicate RoomOk(s: Server, name: string)
    requires name in s.rooms
  {
    var room := s.rooms[name];
    && |room.viewers| <= s.maxViewers
    && (room.master.Some? ==> EntryOk(s, name, Master, room.master.value))
    && (forall v :: v in room.viewers ==> EntryOk(s, name, Viewer, v))
    && (forall i, j :: 0 <= i < j < |room.viewers| ==> room.viewers[i].id != room.viewers[j].id)
  }

  /** Every entry is its connection's current peer, so no connection has two entries. */
  ghost predicate EntryOk(s: Server, name: string, role: Role, p: Peer) {
    && p.room == name && p.role == role
    && p.conn in s.conns && !s.conns[p.conn].phase.Closed? && s.conns[p.conn].peer == Some(p)
  }

  ghost predicate TableOk(s: Server) {
    && s.maxViewers >= 1
    && (forall name :: name in s.rooms ==> RoomOk(s, name))
    && (forall c :: c in s.conns && s.conns[c].peer.Some? ==>
          s.conns[c].peer.value.conn == c && s.conns[c].peer.value.serial < s.nextSerial)
  }

  ghost predicate NoEmptyRoom(s: Server) {
    forall name :: name in s.rooms ==> s.rooms[name].master.Some? || s.rooms[name].viewers != []
  }

  /** An open member believes exactly what the table says. */
  ghost predicate ViewOk(s: Server, c: nat)
    requires c in s.conns
  {
    var conn := s.conns[c];
    conn.phase.Open? && conn.peer.Some? && InTable(s.rooms, conn.peer.value) ==>
      Believes(conn.inbox) == Truth(s.rooms[conn.peer.value.room], conn.peer.value)
  }

  ghost predicate ViewsOk(s: Server) {
    forall c :: c in s.conns ==> ViewOk(s, c)
  }

  // --------------------------------------------------------- small facts

  lemma BelievesLast(inbox: seq<Msg>, m: Msg)
    ensures Believes(inbox + [m]) == Learn(Believes(inbox), m)
  {
  }

  /** The introductions after a master's `joined` repeat what it already says. */
  lemma {:induction false} BelievesIntroductions(inbox: seq<Msg>, viewers: seq<Peer>, n: nat)
    requires n <= |viewers|
    requires Believes(inbox).AsMaster? && IdSet(viewers) <= Believes(inbox).viewers
    ensures Believes(inbox + JoinedAll(viewers)[..n]) == Believes(inbox)
  {
    var ms := JoinedAll(viewers);
    if n == 0 {
      assert inbox + ms[..0] == inbox;
    } else {
      BelievesIntroductions(inbox, viewers, n - 1);
      assert inbox + ms[..n] == inbox + ms[..n - 1] + [ms[n - 1]];
    }
  }

  lemma EntryOf(s: Server, p: Peer)
    requires TableOk(s) && InTable(s.rooms, p)
    ensures EntryOk(s, p.room, p.role, p)
  {
    var room := s.rooms[p.room];
  }

  /** A viewer list contains a connection exactly when its current peer is listed. */
  lemma ListedConn(s: Server, name: string, c: nat)
    requires TableOk(s) && name in s.rooms && c in s.conns
    ensures HasConn(s.rooms[name].viewers, c) <==>
              s.conns[c].peer.Some? && s.conns[c].peer.value in s.rooms[name].viewers
  {
    var viewers := s.rooms[name].viewers;
    assert RoomOk(s, name);
    if HasConn(viewers, c) {
      var i :| 0 <= i < |viewers| && viewers[i].conn == c;
      assert EntryOk(s, name, Viewer, viewers[i]);
    }
    if s.conns[c].peer.Some? && s.conns[c].peer.value in viewers {
      var i :| 0 <= i < |viewers| && viewers[i] == s.conns[c].peer.value;
      assert viewers[i].conn == c;
    }
  }

  lemma WithoutKeepsDistinct(peers: seq<Peer>, p: Peer)
    requires forall i, j :: 0 <= i < j < |peers| ==> peers[i].id != peers[j].id
    ensures forall i, j :: 0 <= i < j < |Without(peers, p)| ==> Without(peers, p)[i].id != Without(peers, p)[j].id
  {
    if peers != [] {
      var rest := Without(peers[1..], p);
      forall j | 0 <= j < |rest|
        ensures rest[j].id != peers[0].id
      {
        assert rest[j] in peers[1..];
      }
    }
  }

  lemma WithoutIds(peers: seq<Peer>, p: Peer)
    requires p in peers
    requires forall i, j :: 0 <= i < j < |peers| ==> peers[i].id != peers[j].id
    ensures IdSet(Without(peers, p)) == IdSet(peers) - {p.id}
  {
    var r := Without(peers, p);
    forall i | 0 <= i < |r|
      ensures r[i].id in IdSet(peers) && r[i].id != p.id
    {
      assert r[i] in r;
    }
    forall i | 0 <= i < |peers| && peers[i].id != p.id
      ensures peers[i].id in IdSet(r)
    {
      assert peers[i] in r;
    }
  }

  // ------------------------------------------------------------- leaving

  ghost predicate Ok(s: Server) { TableOk(s) && NoEmptyRoom(s) && ViewsOk(s) }

  /** Nobody's seat changed: same connections, same current peers, none newly closed. */
  ghost predicate SameSeats(s: Server, s': Server) {
    && s'.maxViewers == s.maxViewers && s'.nextSerial == s.nextSerial
    && s'.conns.Keys == s.conns.Keys
    && forall c :: c in s.conns ==>
         s'.conns[c].peer == s.conns[c].peer && s'.conns[c].phase.Closed? == s.conns[c].phase.Closed?
  }

  /** `s'` differs from `s` in one room only, and that room is sound or gone. */
  lemma TableCarried(s: Server, s': Server, name: string)
    requires TableOk(s) && SameSeats(s, s')
    requires forall n :: n != name ==> (n in s'.rooms <==> n in s.rooms)
    requires forall n :: n != name && n in s.rooms ==> s'.rooms[n] == s.rooms[n]
    requires name in s'.rooms ==> RoomOk(s', name)
    ensures TableOk(s')
  {
  }

  lemma MasterLeavesTable(s: Server, p: Peer)
    requires TableOk(s) && InTable(s.rooms, p) && p.role.Master?
    ensures TableOk(Leave(s, p)) && SameSeats(s, Leave(s, p))
  {
  }

  lemma MasterLeavesView(s: Server, p: Peer, c: nat)
    requires Ok(s) && InTable(s.rooms, p) && p.role.Master? && c in s.conns
    ensures ViewOk(Leave(s, p), c)
  {
    var room := s.rooms[p.room];
  }

  lemma ViewerLeavesTable(s: Server, p: Peer)
    requires TableOk(s) && InTable(s.rooms, p) && p.role.Viewer?
    ensures TableOk(Leave(s, p)) && SameSeats(s, Leave(s, p))
  {
    var s' := Leave(s, p);
    var viewers := s.rooms[p.room].viewers;
    assert RoomOk(s, p.room);
    if p.room in s'.rooms {
      var room := s'.rooms[p.room];
      WithoutKeepsDistinct(viewers, p);
    }
    TableCarried(s, s', p.room);
  }

  lemma ViewerLeavesView(s: Server, p: Peer, c: nat)
    requires Ok(s) && InTable(s.rooms, p) && p.role.Viewer? && c in s.conns
    ensures ViewOk(Leave(s, p), c)
  {
    var s', conn := Leave(s, p), s.conns[c];
    var room := s.rooms[p.room];
    assert RoomOk(s, p.room);
    assert ViewOk(s, c);
    if conn.phase.Open? && conn.peer.Some? && InTable(s'.rooms, conn.peer.value) {
      var q := conn.peer.value;
      assert InTable(s.rooms, q);
      EntryOf(s, q);
      if room.master.Some? {
        assert EntryOk(s, p.room, Master, room.master.value);
        if room.master.value.conn == c {
          BelievesLast(conn.inbox, PeerLeft(Viewer, p.id));
          WithoutIds(room.viewers, p);
        }
      }
    }
  }

  /** Leaving keeps the table sound and every remaining member's picture true. */
  lemma LeaveKeepsOk(s: Server, p: Peer)
    requires Ok(s)
    ensures Ok(Leave(s, p)) && SameSeats(s, Leave(s, p)) && !InTable(Leave(s, p).rooms, p)
  {
    var s' := Leave(s, p);
    if InTable(s.rooms, p) && p.role.Master? {
      MasterLeavesTable(s, p);
      forall c | c in s'.conns ensures ViewOk(s', c) { MasterLeavesView(s, p, c); }
    } else if InTable(s.rooms, p) {
      ViewerLeavesTable(s, p);
      forall c | c in s'.conns ensures ViewOk(s', c) { ViewerLeavesView(s, p, c); }
    }
  }

  // ------------------------------------------------------------- joining

  /** Nobody in the table sits on this connection. */
  ghost predicate Unseated(s: Server, c: nat)
    requires c in s.conns
  {
    !s.conns[c].phase.Closed? && (s.conns[c].peer.Some? ==> !InTable(s.rooms, s.conns[c].peer.value))
  }

  lemma UnseatKeepsTable(s: Server, name: string)
    requires TableOk(s)
    ensures TableOk(Unseat(s, name)) && SameSeats(s, Unseat(s, name))
    ensures RoomOf(Unseat(s, name).rooms, name).master.None?
  {
    var s' := Unseat(s, name);
    TableCarried(s, s', name);
  }

  lemma UnseatKeepsView(s: Server, name: string, c: nat)
    requires TableOk(s) && ViewsOk(s) && c in s.conns
    ensures ViewOk(Unseat(s, name), c)
  {
    var s', conn := Unseat(s, name), s.conns[c];
    assert ViewOk(s, c);
    var room := RoomOf(s.rooms, name);
    if room.master.Some? {
      var prev := room.master.value;
      ListedConn(s, name, c);
      assert RoomOk(s, name) && EntryOk(s, name, Master, prev);
      if s'.conns[c].phase.Open? && conn.peer.Some? && InTable(s'.rooms, conn.peer.value) {
        assert c != prev.conn;
        assert InTable(s.rooms, conn.peer.value);
        EntryOf(s, conn.peer.value);
        if HasConn(room.viewers, c) {
          BelievesLast(conn.inbox, PeerLeft(Master, prev.id));
        }
      }
    }
  }

  lemma SeatKeepsTable(s: Server, c: nat, name: string, id: string)
    requires TableOk(s) && c in s.conns && Unseated(s, c) && RoomOf(s.rooms, name).master.None?
    ensures TableOk(Seat(s, c, name, id))
  {
    var s' := Seat(s, c, name, id);
    forall n | n in s'.rooms ensures RoomOk(s', n) {}
  }

  lemma SeatKeepsView(s: Server, c: nat, name: string, id: string, d: nat)
    requires TableOk(s) && ViewsOk(s) && c in s.conns && Unseated(s, c) && d in s.conns
    requires RoomOf(s.rooms, name).master.None?
    ensures ViewOk(Seat(s, c, name, id), d)
  {
    var s', conn := Seat(s, c, name, id), s.conns[d];
    var room := RoomOf(s.rooms, name);
    assert ViewOk(s, d);
    if name in s.rooms { ListedConn(s, name, d); }
    if d == c {
      WelcomeMaster(conn.inbox, name, id, room.viewers);
    } else if conn.phase.Open? && conn.peer.Some? && InTable(s'.rooms, conn.peer.value) {
      assert InTable(s.rooms, conn.peer.value);
      EntryOf(s, conn.peer.value);
      if HasConn(room.viewers, d) {
        BelievesLast(conn.inbox, PeerJoined(Master, id));
      }
    }
  }

  lemma WelcomeMaster(inbox: seq<Msg>, name: string, id: string, viewers: seq<Peer>)
    ensures Believes(inbox + ([JoinedMaster(name, id, Ids(viewers))] + JoinedAll(viewers)))
         == AsMaster(name, id, IdSet(viewers))
  {
    var joined := JoinedMaster(name, id, Ids(viewers));
    assert (set x | x in Ids(viewers)) == IdSet(viewers) by {
      forall i | 0 <= i < |viewers| ensures viewers[i].id in Ids(viewers) {
        assert Ids(viewers)[i] == viewers[i].id;
      }
    }
    BelievesIntroductions(inbox + [joined], viewers, |viewers|);
    assert JoinedAll(viewers)[..|viewers|] == JoinedAll(viewers);
    assert inbox + ([joined] + JoinedAll(viewers)) == inbox + [joined] + JoinedAll(viewers);
  }

  lemma JoinMasterKeepsOk(s: Server, c: nat, name: string, id: string)
    requires Ok(s) && c in s.conns && Unseated(s, c)
    ensures Ok(JoinMaster(s, c, name, id))
  {
    hide RoomOk, ViewOk;
    var mid := Unseat(s, name);
    UnseatKeepsTable(s, name);
    forall d | d in mid.conns ensures ViewOk(mid, d) { UnseatKeepsView(s, name, d); }
    SeatKeepsTable(mid, c, name, id);
    var s' := Seat(mid, c, name, id);
    forall d | d in s'.conns ensures ViewOk(s', d) { SeatKeepsView(mid, c, name, id, d); }
  }

  lemma RefuseKeepsOk(s: Server, c: nat, name: string, why: string)
    requires Ok(s) && c in s.conns && Unseated(s, c) && name in s.rooms
    ensures Ok(Refuse(s, c, name, why))
  {
    var s' := Refuse(s, c, name, why);
    forall n | n in s'.rooms ensures RoomOk(s', n) {}
  }

  /** The successful end of `joinViewer`. */
  ghost predicate Admits(s: Server, c: nat, name: string, requested: string, drawn: string) {
    var room := RoomOf(s.rooms, name);
    && |room.viewers| < s.maxViewers
    && !RoomHasId(room, if requested != "" then requested else drawn)
  }

  lemma ViewerJoinsTable(s: Server, c: nat, name: string, requested: string, drawn: string)
    requires TableOk(s) && c in s.conns && Unseated(s, c) && Admits(s, c, name, requested, drawn)
    ensures TableOk(JoinViewer(s, c, name, requested, drawn))
  {
    hide HasId;
    var s' := JoinViewer(s, c, name, requested, drawn);
    forall n | n in s'.rooms
      ensures RoomOk(s', n)
    {
      var room := s'.rooms[n];
      if n in s.rooms { assert RoomOk(s, n); }
      if room.master.Some? { assert InTable(s.rooms, room.master.value); }
      if n == name { NewIdIsDistinct(RoomOf(s.rooms, name).viewers, room.viewers[|room.viewers| - 1]); }
    }
  }

  lemma NewIdIsDistinct(peers: seq<Peer>, p: Peer)
    requires forall i, j :: 0 <= i < j < |peers| ==> peers[i].id != peers[j].id
    requires !HasId(peers, p.id)
    ensures forall i, j :: 0 <= i < j < |peers| + 1 ==> (peers + [p])[i].id != (peers + [p])[j].id
  {
  }

  lemma ViewerJoinsView(s: Server, c: nat, name: string, requested: string, drawn: string, d: nat)
    requires TableOk(s) && ViewsOk(s) && c in s.conns && Unseated(s, c) && d in s.conns
    requires Admits(s, c, name, requested, drawn)
    ensures ViewOk(JoinViewer(s, c, name, requested, drawn), d)
  {
    var s', conn := JoinViewer(s, c, name, requested, drawn), s.conns[d];
    var room := RoomOf(s.rooms, name);
    var id := if requested != "" then requested else drawn;
    assert ViewOk(s, d);
    if room.master.Some? {
      assert RoomOk(s, name) && EntryOk(s, name, Master, room.master.value);
      assert InTable(s.rooms, room.master.value);
    }
    if d == c {
      WelcomeViewer(conn.inbox, name, id, if room.master.Some? then Some(room.master.value.id) else None);
    } else if conn.phase.Open? && conn.peer.Some? && InTable(s'.rooms, conn.peer.value) {
      var q := conn.peer.value;
      assert InTable(s.rooms, q);
      EntryOf(s, q);
      if room.master.Some? && room.master.value.conn == d {
        BelievesLast(conn.inbox, PeerJoined(Viewer, id));
        IdSetLast(room.viewers, s'.rooms[name].viewers[|room.viewers|]);
      }
    }
  }

  lemma IdSetLast(peers: seq<Peer>, p: Peer)
    ensures IdSet(peers + [p]) == IdSet(peers) + {p.id}
  {
    var all := peers + [p];
    assert all[|peers|].id == p.id;
    forall i | 0 <= i < |peers| ensures peers[i].id in IdSet(all) { assert all[i] == peers[i]; }
  }

  lemma WelcomeViewer(inbox: seq<Msg>, name: string, id: string, master: Option<string>)
    ensures Believes(inbox + ([JoinedViewer(name, id, master)]
              + if master.Some? then [PeerJoined(Master, master.value)] else []))
         == AsViewer(name, id, master)
  {
  }

  lemma JoinViewerKeepsOk(s: Server, c: nat, name: string, requested: string, drawn: string)
    requires Ok(s) && c in s.conns && Unseated(s, c)
    requires requested == "" ==> !RoomHasId(RoomOf(s.rooms, name), drawn)
    ensures Ok(JoinViewer(s, c, name, requested, drawn))
  {
    hide RoomOk, ViewOk;
    var room := RoomOf(s.rooms, name);
    if requested != "" && RoomHasId(room, requested) {
      RefuseKeepsOk(s, c, name, "client id already in use");
    } else if |room.viewers| >= s.maxViewers {
      RefuseKeepsOk(s, c, name, "viewer limit reached");
    } else {
      ViewerJoinsTable(s, c, name, requested, drawn);
      var s' := JoinViewer(s, c, name, requested, drawn);
      forall d | d in s'.conns ensures ViewOk(s', d) { ViewerJoinsView(s, c, name, requested, drawn, d); }
    }
  }

  // ------------------------------------------------------------ whole runs

  predicate Neutral(m: Msg) { m.Error? || m.Pong? || m.Signal? }

  /** Changes to connections that touch neither seats nor beliefs. */
  lemma QuietChange(s: Server, s': Server)
    requires Ok(s) && SameSeats(s, s') && s'.rooms == s.rooms
    requires forall c :: c in s.conns && s'.conns[c].phase.Open? ==>
               s.conns[c].phase.Open? && Believes(s'.conns[c].inbox) == Believes(s.conns[c].inbox)
    ensures Ok(s')
  {
    forall n | n in s'.rooms ensures RoomOk(s', n) {
      assert RoomOk(s, n);
      var room := s.rooms[n];
    }
    forall c | c in s'.conns ensures ViewOk(s', c) { assert ViewOk(s, c); }
  }

  lemma NeutralSendKeepsOk(s: Server, to: nat, m: Msg)
    requires Ok(s) && Neutral(m)
    ensures Ok(s.(conns := Send(s.conns, to, m)))
  {
    if to in s.conns { BelievesLast(s.conns[to].inbox, m); }
    QuietChange(s, s.(conns := Send(s.conns, to, m)));
  }

  /** A connection whose peer is not in the table forgets it, is told something, or ends. */
  lemma VacateKeepsOk(s: Server, c: nat, conn: Conn)
    requires Ok(s) && c in s.conns && Unseated(s, c) && conn.peer.None?
    ensures Ok(s.(conns := s.conns[c := conn]))
  {
  }

  lemma ConnectKeepsOk(s: Server, c: nat)
    requires Ok(s) && c !in s.conns
    ensures Ok(s.(conns := s.conns[c := Conn(Open, None, [])]))
  {
  }

  lemma LeaveIfJoinedKeepsOk(s: Server, c: nat)
    requires Ok(s) && c in s.conns && !s.conns[c].phase.Closed?
    ensures Ok(LeaveIfJoined(s, c)) && Unseated(LeaveIfJoined(s, c), c)
  {
    hide RoomOk, ViewOk, Leave;
    if s.conns[c].peer.Some? { LeaveKeepsOk(s, s.conns[c].peer.value); }
  }

  lemma StepKeepsOk(s: Server, e: Event)
    requires Ok(s) && Possible(s, e)
    ensures Ok(Step(s, e))
  {
    hide Ok, Leave, JoinMaster, JoinViewer, Unseated;
    match e {
      case Connect(c) => ConnectKeepsOk(s, c);
      case Join(c, role, name, requested, drawn) =>
        LeaveIfJoinedKeepsOk(s, c);
        if role.Master? {
          JoinMasterKeepsOk(LeaveIfJoined(s, c), c, name, if requested != "" then requested else drawn);
        } else {
          JoinViewerKeepsOk(LeaveIfJoined(s, c), c, name, requested, drawn);
        }
      case LeaveMsg(c) =>
        if s.conns[c].peer.None? {
          NeutralSendKeepsOk(s, c, Error("join first"));
        } else {
          LeaveIfJoinedKeepsOk(s, c);
          var s' := Leave(s, s.conns[c].peer.value);
          var told := Send(s'.conns, c, LeftRoom);
          VacateKeepsOk(s', c, told[c].(peer := None));
          assert told[c := told[c].(peer := None)] == s'.conns[c := told[c].(peer := None)];
        }
      case SignalMsg(c, to, payload) =>
        if s.conns[c].peer.None? {
          NeutralSendKeepsOk(s, c, Error("join first"));
        } else {
          var p := s.conns[c].peer.value;
          var target := Target(s.rooms, p, to);
          if target.None? {
            NeutralSendKeepsOk(s, c, Error(if to == "" then "missing to" else "target offline"));
          } else {
            NeutralSendKeepsOk(s, target.value.conn, Signal(payload, p.id, target.value.id));
          }
        }
      case Ping(c) => NeutralSendKeepsOk(s, c, Pong);
      case BadMsg(c) => NeutralSendKeepsOk(s, c, Error("invalid message"));
      case BeginClose(c) => QuietChange(s, Step(s, e));
      case CloseEvent(c) =>
        LeaveIfJoinedKeepsOk(s, c);
        var s' := LeaveIfJoined(s, c);
        VacateKeepsOk(s', c, s'.conns[c].(phase := Closed, peer := None));
    }
  }

  ghost predicate Run(s: Server, events: seq<Event>, s': Server)
    decreases |events|
  {
    if events == [] then s' == s
    else Possible(s, events[0]) && Run(Step(s, events[0]), events[1..], s')
  }

  lemma {:induction false} RunKeepsOk(s: Server, events: seq<Event>, s': Server)
    requires Ok(s) && Run(s, events, s')
    ensures Ok(s')
    decreases |events|
  {
    hide Ok, Step, Possible;
    if events != [] {
      StepKeepsOk(s, events[0]);
      RunKeepsOk(Step(s, events[0]), events[1..], s');
    }
  }

  /**
   In every run, folding the messages sent to a member that is still open gives
   the server's table exactly: a viewer knows the room's master, and the master
   knows the room's viewers.
   */
  lemma MembersAgreeWithServer(maxViewers: nat, events: seq<Event>, s: Server, p: Peer)
    requires maxViewers >= 1 && Run(Init(maxViewers), events, s) && InTable(s.rooms, p)
    ensures p.conn in s.conns
    ensures s.conns[p.conn].phase.Open? ==> Believes(s.conns[p.conn].inbox) == Truth(s.rooms[p.room], p)
  {
    RunKeepsOk(Init(maxViewers), events, s);
  }

  /**
   In every run, each room in the table has somebody in it and keeps its viewer
   limit, each entry is its connection's current peer, and no connection has two.
   */
  lemma RoomsStaySound(maxViewers: nat, events: seq<Event>, s: Server)
    requires maxViewers >= 1 && Run(Init(maxViewers), events, s)
    ensures forall name :: name in s.rooms ==>
              && (s.rooms[name].master.Some? || s.rooms[name].viewers != [])
              && |s.rooms[name].viewers| <= maxViewers
    ensures forall p :: InTable(s.rooms, p) ==>
              p.conn in s.conns && !s.conns[p.conn].phase.Closed? && s.conns[p.conn].peer == Some(p)
    ensures forall p, q :: InTable(s.rooms, p) && InTable(s.rooms, q) && p.conn == q.conn ==> p == q
  {
    RunKeepsOk(Init(maxViewers), events, s);
    RunKeepsLimit(Init(maxViewers), events, s);
  }

  lemma {:induction false} RunKeepsLimit(s: Server, events: seq<Event>, s': Server)
    requires Run(s, events, s')
    ensures s'.maxViewers == s.maxViewers
    decreases |events|
  {
    if events != [] {
      RunKeepsLimit(Step(s, events[0]), events[1..], s');
    }
  }

  /** A master that loses its seat is out of the table and its socket is no longer open. */
  lemma ReplacedMasterIsOut(maxViewers: nat, events: seq<Event>, s: Server, c: nat, name: string, id: string)
    requires maxViewers >= 1 && Run(Init(maxViewers), events, s)
    requires c in s.conns && Unseated(s, c) && name in s.rooms && s.rooms[name].master.Some?
    ensures var prev, s' := s.rooms[name].master.value, JoinMaster(s, c, name, id);
            && !InTable(s'.rooms, prev) && prev.conn in s'.conns
            && s'.conns[prev.conn].peer == Some(prev) && !s'.conns[prev.conn].phase.Open?
  {
    RunKeepsOk(Init(maxViewers), events, s);
    assert RoomOk(s, name);
    assert InTable(s.rooms, s.rooms[name].master.value);
  }

  /** Its late close event changes no room and sends nothing to anybody. */
  lemma LateCloseChangesNothing(maxViewers: nat, events: seq<Event>, s: Server, c: nat)
    requires maxViewers >= 1 && Run(Init(maxViewers), events, s) && c in s.conns && !s.conns[c].phase.Closed?
    requires s.conns[c].peer.Some? && !InTable(s.rooms, s.conns[c].peer.value)
    ensures var s' := Step(s, CloseEvent(c));
            s'.rooms == s.rooms && forall d :: d in s.conns && d != c ==> s'.conns[d] == s.conns[d]
  {
    RunKeepsOk(Init(maxViewers), events, s);
  }

  /**
   In every run, an offer, answer or candidate goes to a current member of the
   sender's room: the one it names, whenever there is one, and from a viewer that
   names nobody the master.
   */
  lemma SignalsStayInRoom(maxViewers: nat, events: seq<Event>, s: Server, from: Peer, to: string)
    requires maxViewers >= 1 && Run(Init(maxViewers), events, s)
    ensures var target, room := Target(s.rooms, from, to), RoomOf(s.rooms, from.room);
            && (target.Some? ==> target.value.room == from.room && InTable(s.rooms, target.value)
                                 && target.value.conn in s.conns && s.conns[target.value.conn].peer == target)
            && (to != "" ==> (target.Some? <==> RoomHasId(room, to)) && (target.Some? ==> target.value.id == to))
            && (to == "" && from.role.Viewer? ==> target == room.master)
  {
    RunKeepsOk(Init(maxViewers), events, s);
    if from.room in s.rooms {
      var target := Target(s.rooms, from, to);
      var room := s.rooms[from.room];
      assert target.Some? ==> target == room.master || target.value in room.viewers;
    }
  }

  /** With a limit of zero a refused viewer leaves an empty room behind. */
  lemma ZeroLimitLeavesEmptyRoom()
    ensures exists events, s :: Run(Init(0), events, s) && !NoEmptyRoom(s)
  {
    var join := Join(1, Viewer, "door", "v", "");
    var s1 := Step(Init(0), Connect(1));
    var s2 := Step(s1, join);
    assert Run(Init(0), [Connect(1), join], s2);
  }
}
