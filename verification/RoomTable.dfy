/**
 The room table as the object the server keeps (cloud/signaling/rooms.js), its
 methods and notification loops proved against `Signaling`.
 */
module RoomTable {
  import opened Base
  import opened Signaling

  /** The viewers of a sound room sit on different connections. */
  ghost predicate DistinctConns(peers: seq<Peer>) {
    forall i, j :: 0 <= i < j < |peers| ==> peers[i].conn != peers[j].conn
  }

  lemma ViewersAreDistinct(s: Server, name: string)
    requires TableOk(s) && name in s.rooms
    ensures DistinctConns(s.rooms[name].viewers)
  {
    var viewers := s.rooms[name].viewers;
    forall i, j | 0 <= i < j < |viewers| ensures viewers[i].conn != viewers[j].conn {
      assert EntryOk(s, name, Viewer, viewers[i]) && EntryOk(s, name, Viewer, viewers[j]);
    }
  }

  /** One round of introductions in `joinMaster`'s loop. */
  lemma IntroduceNext(was: map<nat, Conn>, c: nat, said: seq<Msg>, viewers: seq<Peer>, m: Msg, i: nat)
    requires c in was && i < |viewers| && DistinctConns(viewers) && !HasConn(viewers, c)
    ensures Send(Send(SendAll(was[c := Append(was[c], said)], viewers[..i], m), viewers[i].conn, m),
                 c, PeerJoined(Viewer, viewers[i].id))
         == SendAll(was[c := Append(was[c], said + [PeerJoined(Viewer, viewers[i].id)])], viewers[..i + 1], m)
  {
    var one := PeerJoined(Viewer, viewers[i].id);
    assert Append(was[c], said + [one]) == Append(Append(was[c], said), [one]);
  }

  /** A newcomer's connection is neither the master's nor a viewer's. */
  lemma SeatElsewhere(s: Server, c: nat, name: string)
    requires Ok(s) && c in s.conns && Unseated(s, c)
    ensures var room := RoomOf(s.rooms, name);
            && DistinctConns(room.viewers) && !HasConn(room.viewers, c)
            && (room.master.Some? ==> room.master.value.conn != c)
            && RoomOf(Unseat(s, name).rooms, name).viewers == room.viewers
  {
    if name in s.rooms {
      ViewersAreDistinct(s, name);
    }
  }

  class SignalingRooms {
    const maxViewers: nat
    var rooms: map<string, Room>
    var conns: map<nat, Conn>
    var nextSerial: nat

    ghost function State(): Server
      reads this
    {
      Server(maxViewers, rooms, conns, nextSerial)
    }

    ghost predicate Valid()
      reads this
    {
      Ok(State())
    }

    constructor (maxViewers: nat)
      requires maxViewers >= 1
      ensures State() == Init(maxViewers) && Valid()
    {
      this.maxViewers := maxViewers;
      rooms, conns, nextSerial := map[], map[], 0;
    }

    method SendTo(c: nat, m: Msg)
      modifies this`conns
      ensures conns == Send(old(conns), c, m)
    {
      if c in conns && conns[c].phase.Open? {
        conns := conns[c := conns[c].(inbox := conns[c].inbox + [m])];
      }
    }

    method NotifyViewers(viewers: seq<Peer>, m: Msg)
      requires DistinctConns(viewers)
      modifies this`conns
      ensures conns == SendAll(old(conns), viewers, m)
    {
      for i := 0 to |viewers|
        invariant conns == SendAll(old(conns), viewers[..i], m)
      {
        SendTo(viewers[i].conn, m);
      }
    }

    method LeaveRoom(p: Peer)
      requires Valid()
      modifies this
      ensures State() == Leave(old(State()), p) && Valid()
    {
      LeaveKeepsOk(State(), p);
      if p.room !in rooms {
        return;
      }
      var room := rooms[p.room];
      if p.role.Master? && room.master == Some(p) {
        ViewersAreDistinct(State(), p.room);
        rooms := rooms[p.room := room.(master := None)];
        NotifyViewers(room.viewers, PeerLeft(Master, p.id));
      } else if p.role.Viewer? && p in room.viewers {
        rooms := rooms[p.room := room.(viewers := Without(room.viewers, p))];
        if room.master.Some? {
          SendTo(room.master.value.conn, PeerLeft(Viewer, p.id));
        }
      }
      if rooms[p.room].master.None? && rooms[p.room].viewers == [] {
        rooms := rooms - {p.room};
      }
    }

    /** A requested id wins over a drawn one; it is not checked against the viewers. */
    method JoinAsMaster(c: nat, name: string, requested: string, drawn: string)
      requires Valid() && c in conns && Unseated(State(), c)
      modifies this
      ensures State() == JoinMaster(old(State()), c, name, if requested != "" then requested else drawn)
      ensures Valid()
    {
      hide Ok, Unseat, Seat, Unseated;
      var id := if requested != "" then requested else drawn;
      JoinMasterKeepsOk(State(), c, name, id);
      SeatElsewhere(State(), c, name);
      UnseatMaster(name);
      SeatMaster(c, name, id);
    }

    method UnseatMaster(name: string)
      requires DistinctConns(RoomOf(rooms, name).viewers)
      modifies this
      ensures State() == Unseat(old(State()), name)
    {
      if name in rooms && rooms[name].master.Some? {
        var room := rooms[name];
        var prev := room.master.value;
        rooms := rooms[name := room.(master := None)];
        SendTo(prev.conn, Error("master replaced by new device"));
        if prev.conn in conns && conns[prev.conn].phase.Open? {
          conns := conns[prev.conn := conns[prev.conn].(phase := Closing)];
        }
        NotifyViewers(room.viewers, PeerLeft(Master, prev.id));
      }
    }

    method SeatMaster(c: nat, name: string, id: string)
      requires c in conns
      requires DistinctConns(RoomOf(rooms, name).viewers) && !HasConn(RoomOf(rooms, name).viewers, c)
      modifies this
      ensures State() == Seat(old(State()), c, name, id)
    {
      var room := RoomOf(rooms, name);
      var p := Peer(nextSerial, id, Master, name, c);
      rooms := rooms[name := room.(master := Some(p))];
      Introduce(c, name, id, room.viewers);
      conns := conns[c := conns[c].(peer := Some(p))];
      nextSerial := nextSerial + 1;
    }

    /** `joined` to the new master, then each pair of introductions. */
    method Introduce(c: nat, name: string, id: string, viewers: seq<Peer>)
      requires c in conns && DistinctConns(viewers) && !HasConn(viewers, c)
      modifies this`conns
      ensures conns == SendAll(old(conns)[c := Append(old(conns)[c],
                [JoinedMaster(name, id, Ids(viewers))] + JoinedAll(viewers))], viewers, PeerJoined(Master, id))
    {
      var joined := JoinedMaster(name, id, Ids(viewers));
      ghost var was, all := conns, JoinedAll(viewers);
      SendTo(c, joined);
      assert [joined] + all[..0] == [joined];
      for i := 0 to |viewers|
        invariant conns == SendAll(was[c := Append(was[c], [joined] + all[..i])], viewers[..i], PeerJoined(Master, id))
      {
        IntroduceNext(was, c, [joined] + all[..i], viewers, PeerJoined(Master, id), i);
        assert [joined] + all[..i + 1] == [joined] + all[..i] + [all[i]];
        SendTo(viewers[i].conn, PeerJoined(Master, id));
        SendTo(c, PeerJoined(Viewer, viewers[i].id));
      }
      assert viewers[..|viewers|] == viewers && all[..|viewers|] == all;
    }

    method JoinAsViewer(c: nat, name: string, requested: string, drawn: string) returns (ok: bool)
      requires Valid() && c in conns && Unseated(State(), c)
      requires requested == "" ==> !RoomHasId(RoomOf(rooms, name), drawn)
      modifies this
      ensures State() == JoinViewer(old(State()), c, name, requested, drawn) && Valid()
      ensures ok <==> old(Admits(State(), c, name, requested, drawn))
    {
      hide Ok, Unseated;
      JoinViewerKeepsOk(State(), c, name, requested, drawn);
      SeatElsewhere(State(), c, name);
      var room := if name in rooms then rooms[name] else Room(None, []);
      rooms := rooms[name := room];
      if requested != "" && RoomHasId(room, requested) {
        SendTo(c, Error("client id already in use"));
        conns := conns[c := conns[c].(peer := None)];
        return false;
      }
      if |room.viewers| >= maxViewers {
        SendTo(c, Error("viewer limit reached"));
        conns := conns[c := conns[c].(peer := None)];
        return false;
      }
      var id := if requested != "" then requested else drawn;
      var p := Peer(nextSerial, id, Viewer, name, c);
      rooms := rooms[name := room.(viewers := room.viewers + [p])];
      Welcome(c, p, room.master);
      nextSerial := nextSerial + 1;
      ok := true;
    }

    method Welcome(c: nat, p: Peer, master: Option<Peer>)
      requires c in conns && (master.Some? ==> master.value.conn != c)
      modifies this`conns
      ensures var masterId := if master.Some? then Some(master.value.id) else None;
              var welcome := [JoinedViewer(p.room, p.id, masterId)]
                + if masterId.Some? then [PeerJoined(Master, masterId.value)] else [];
              var welcomed := old(conns)[c := Append(old(conns)[c], welcome).(peer := Some(p))];
              conns == if master.None? then welcomed else Send(welcomed, master.value.conn, PeerJoined(Viewer, p.id))
    {
      var joined := JoinedViewer(p.room, p.id, if master.Some? then Some(master.value.id) else None);
      ghost var inbox := conns[c].inbox;
      SendTo(c, joined);
      if master.None? {
        assert [joined] + [] == [joined];
      } else {
        Glue(inbox, [joined], [PeerJoined(Master, master.value.id)]);
        SendTo(master.value.conn, PeerJoined(Viewer, p.id));
        SendTo(c, PeerJoined(Master, master.value.id));
      }
      conns := conns[c := conns[c].(peer := Some(p))];
    }
  }
}
