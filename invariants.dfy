/** Every handler keeps the invariant of the shared tables: the nickname
    table and the connections' names agree, member sets and the
    connections' rooms agree, every owned room exists, and every connection
    is in a state that fits its name and room. */
module Invariants {
  import opened Text
  import opened Protocol
  import opened Tables
  import opened Handlers

  lemma FailKeepsGood(t: Tables, c: Session, code: Code, detail: string)
    requires Good(t)
    ensures Good(Fail(t, c, code, detail).t)
  {
  }

  /** Renaming keeps the tables consistent when the new name is free or
      already the connection's own. */
  lemma RenamingGood(t: Tables, c: Session, n: string)
    requires Good(t) && c in t.conns && (n in t.nicks ==> t.nicks[n] == c)
    ensures Good(Renaming(t, c, n))
  {
    RenamingNicks(t, c, n);
    RenamingRooms(t, c, n);
  }

  lemma RenamingNicks(t: Tables, c: Session, n: string)
    requires NicksAgree(t) && c in t.conns && (n in t.nicks ==> t.nicks[n] == c)
    ensures NicksAgree(Renaming(t, c, n))
  {
    var t' := Renaming(t, c, n);
    forall s | s in t'.conns && t'.conns[s].nick.Some?
      ensures t'.conns[s].nick.value in t'.nicks && t'.nicks[t'.conns[s].nick.value] == s
    {
      if s != c {
        assert t'.conns[s] == t.conns[s];
      }
    }
  }

  lemma RenamingRooms(t: Tables, c: Session, n: string)
    requires RoomsAgree(t) && c in t.conns
    ensures RoomsAgree(Renaming(t, c, n))
  {
  }

  lemma NickKeepsGood(t: Tables, c: Session, fields: seq<string>)
    requires Good(t) && c in t.conns
    ensures Good(Nick(t, c, fields).t)
  {
    if |fields| == 1 {
      var n := Strip(fields[0]);
      if n != "" && !(n in t.nicks && t.nicks[n] != c) {
        RenamingGood(t, c, n);
      }
    }
  }

  /** Moving an active connection into an existing room keeps the tables
      consistent. */
  lemma EnterGood(t: Tables, c: Session, room: string)
    requires Good(t) && c in t.conns && room in t.rooms && Active(t.conns[c].state)
    ensures Good(Enter(t, c, room))
  {
    EnterRooms(t, c, room);
    EnterNicks(t, c, room);
  }

  lemma EnterNicks(t: Tables, c: Session, room: string)
    requires NicksAgree(t) && c in t.conns && room in t.rooms
    ensures NicksAgree(Enter(t, c, room))
  {
  }

  lemma EnterRooms(t: Tables, c: Session, room: string)
    requires RoomsAgree(t) && c in t.conns && room in t.rooms
    ensures RoomsAgree(Enter(t, c, room))
  {
    var me := t.conns[c];
    var rooms := LeaveSet(t.rooms, me.room, c);
    assert forall r :: r in rooms ==> t.rooms[r] - {c} <= rooms[r] <= t.rooms[r];
    var u := Enter(t, c, room);
    forall r, s | r in u.rooms && s in u.rooms[r]
      ensures s in u.conns && u.conns[s].room == Some(r)
    {
      if s != c {
        assert s in t.rooms[r];
      }
    }
    forall s | s in u.conns && u.conns[s].room.Some?
      ensures u.conns[s].room.value in u.rooms && s in u.rooms[u.conns[s].room.value]
    {
      if s != c {
        assert s in rooms[t.conns[s].room.value];
      }
    }
  }

  /** A new room with an unused, non-empty name keeps the tables consistent. */
  lemma AddRoomGood(t: Tables, room: string, owner: string)
    requires Good(t) && room != "" && room !in t.rooms
    ensures Good(AddRoom(t, room, owner))
  {
  }

  lemma CreateRoomKeepsGood(t: Tables, c: Session, fields: seq<string>)
    requires Good(t) && c in t.conns
    ensures Good(CreateRoom(t, c, fields).t)
  {
    var me := t.conns[c];
    if |fields| == 1 {
      var room := Strip(fields[0]);
      if Active(me.state) && room != "" && room !in t.rooms {
        AddRoomGood(t, room, OrEmpty(me.nick));
        EnterGood(AddRoom(t, room, OrEmpty(me.nick)), c, room);
      }
    }
  }

  lemma JoinKeepsGood(t: Tables, c: Session, fields: seq<string>)
    requires Good(t) && c in t.conns
    ensures Good(JoinRoom(t, c, fields).t)
  {
    var me := t.conns[c];
    if |fields| == 1 {
      var room := Strip(fields[0]);
      if Active(me.state) && room in t.rooms {
        EnterGood(t, c, room);
      }
    }
  }

  /** A connection leaving its room keeps the tables consistent. */
  lemma VacateGood(t: Tables, c: Session, room: string)
    requires Good(t) && c in t.conns && t.conns[c].state == InRoom && t.conns[c].room == Some(room)
    ensures Good(Vacate(t, c, room))
  {
    var t' := Vacate(t, c, room);
    assert RoomsAgree(t');
  }

  /** Giving an owner to existing rooms only keeps the tables consistent. */
  lemma OwnersGood(t: Tables, owner: map<string, string>)
    requires Good(t) && owner.Keys <= t.rooms.Keys
    ensures Good(t.(owner := owner))
  {
  }

  /** Removing a room whose only possible member is `c`, together with its
      owner entry, and taking `c` out of it keeps the tables consistent. */
  lemma CloseGood(t: Tables, c: Session, room: string)
    requires Good(t) && c in t.conns && t.conns[c].state == InRoom && t.conns[c].room == Some(room)
    requires Members(t.rooms, room) - {c} == {}
    ensures Good(SetConn(CloseRoom(t, room), c, t.conns[c].(room := None, state := Registered)))
  {
    var t' := SetConn(CloseRoom(t, room), c, t.conns[c].(room := None, state := Registered));
    forall s | s in t.conns && t.conns[s].room == Some(room)
      ensures s == c
    {
      assert s in Members(t.rooms, room);
      assert s in (Members(t.rooms, room) - {c}) + {c};
    }
    assert RoomsAgree(t');
  }

  lemma DeleteRoomKeepsGood(t: Tables, c: Session, pick: Session)
    requires Good(t) && c in t.conns
    ensures Good(DeleteRoom(t, c, pick).t)
  {
    var me := t.conns[c];
    if me.state == InRoom && me.room.Some? {
      var room := me.room.value;
      if Lookup(t.owner, room) == me.nick {
        if Others(t, c, room) != {} {
          VacateGood(t, c, room);
          OwnersGood(Vacate(t, c, room), t.owner[room := OrEmpty(NickOf(t, pick))]);
        } else {
          CloseGood(t, c, room);
        }
      }
    }
  }

  lemma LeaveKeepsGood(t: Tables, c: Session, pick: Session)
    requires Good(t) && c in t.conns
    ensures Good(Leave(t, c, pick).t)
  {
    var me := t.conns[c];
    if me.state == InRoom && me.room.Some? {
      var room := me.room.value;
      var v := Vacate(t, c, room);
      VacateGood(t, c, room);
      OwnersGood(v, Handover(v, room, me.nick, pick));
    }
  }

  lemma QuitKeepsGood(t: Tables, c: Session)
    requires Good(t) && c in t.conns
    ensures Good(Quit(t, c).t)
  {
  }

  lemma ControlKeepsGood(t: Tables, c: Session, subtype: string, fields: seq<string>, pick: Session)
    requires Good(t) && c in t.conns
    ensures Good(HandleControl(t, c, subtype, fields, pick).t)
  {
    if subtype == "NICK" {
      NickKeepsGood(t, c, fields);
    } else if subtype == "CREATE_ROOM" {
      CreateRoomKeepsGood(t, c, fields);
    } else if subtype == "JOIN" {
      JoinKeepsGood(t, c, fields);
    } else if subtype == "DELETE_ROOM" {
      DeleteRoomKeepsGood(t, c, pick);
    } else if subtype == "LEAVE" {
      LeaveKeepsGood(t, c, pick);
    } else if subtype == "QUIT" {
      QuitKeepsGood(t, c);
    }
  }

  /** Handling one line keeps the invariant, whatever the line. */
  lemma ProcessKeepsGood(t: Tables, c: Session, line: string, pick: Session)
    requires Good(t) && c in t.conns
    ensures Good(ProcessMessage(t, c, line, pick).t)
  {
    DispatchKeepsGood(t, c, Route(line, t.conns[c].state), pick);
  }

  lemma DispatchKeepsGood(t: Tables, c: Session, d: Dispatch, pick: Session)
    requires Good(t) && c in t.conns
    ensures Good(Dispatched(t, c, d, pick).t)
  {
    if d.Control? {
      ControlKeepsGood(t, c, d.subtype, d.fields, pick);
    }
  }

  /** No control command opens or closes a connection. */
  lemma ControlKeepsOpen(t: Tables, c: Session, subtype: string, fields: seq<string>, pick: Session)
    requires c in t.conns
    ensures HandleControl(t, c, subtype, fields, pick).t.conns.Keys == t.conns.Keys
  {
    if subtype == "NICK" {
      NickKeepsOpen(t, c, fields);
    } else if subtype == "CREATE_ROOM" {
      CreateKeepsOpen(t, c, fields);
    } else if subtype == "JOIN" {
      JoinKeepsOpen(t, c, fields);
    } else if subtype == "DELETE_ROOM" {
      DeleteKeepsOpen(t, c, pick);
    }
  }

  lemma NickKeepsOpen(t: Tables, c: Session, fields: seq<string>)
    requires c in t.conns
    ensures Nick(t, c, fields).t.conns.Keys == t.conns.Keys
  {
  }

  lemma CreateKeepsOpen(t: Tables, c: Session, fields: seq<string>)
    requires c in t.conns
    ensures CreateRoom(t, c, fields).t.conns.Keys == t.conns.Keys
  {
  }

  lemma JoinKeepsOpen(t: Tables, c: Session, fields: seq<string>)
    requires c in t.conns
    ensures JoinRoom(t, c, fields).t.conns.Keys == t.conns.Keys
  {
  }

  lemma DeleteKeepsOpen(t: Tables, c: Session, pick: Session)
    requires c in t.conns
    ensures DeleteRoom(t, c, pick).t.conns.Keys == t.conns.Keys
  {
  }

  /** Handling a line never opens or closes a connection. */
  lemma ProcessKeepsOpen(t: Tables, c: Session, line: string, pick: Session)
    requires c in t.conns
    ensures ProcessMessage(t, c, line, pick).t.conns.Keys == t.conns.Keys
  {
    var d := Route(line, t.conns[c].state);
    if d.Control? {
      ControlKeepsOpen(t, c, d.subtype, d.fields, pick);
    }
  }

  lemma CleanupKeepsGood(t: Tables, c: Session, pick: Session)
    requires Good(t) && c in t.conns
    ensures Good(CleanupClient(t, c, pick).t)
  {
    CleanupNicks(t, c, pick);
    CleanupRooms(t, c, pick);
  }

  lemma CleanupNicks(t: Tables, c: Session, pick: Session)
    requires NicksAgree(t) && c in t.conns
    ensures NicksAgree(CleanupClient(t, c, pick).t)
  {
  }

  lemma CleanupRooms(t: Tables, c: Session, pick: Session)
    requires RoomsAgree(t) && c in t.conns
    ensures RoomsAgree(CleanupClient(t, c, pick).t)
  {
  }

  lemma ConnectKeepsGood(t: Tables, c: Session)
    requires Good(t) && c !in t.conns
    ensures Good(Connect(t, c))
  {
  }
}
