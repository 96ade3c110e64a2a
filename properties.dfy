/** What the handlers promise, stated over the tables as values: which
    error each check draws and in which order, that a refused command
    changes nothing, and what each successful command does to the nickname
    table, the member sets, the owners and the requester's record. */
module Properties {
  import opened Text
  import opened Protocol
  import opened Tables
  import opened Handlers

  /** The error code of a handler's reply, when its reply is one error line
      to one connection. */
  function ErrorCode(ms: seq<Msg>): Option<Code>
  {
    if |ms| == 1 && ms[0].To? && ms[0].reply.Error? then Some(ms[0].reply.code) else None
  }

  // ---------------------------------------------------------------------------
  // A refusal changes nothing

  /** Every control command that answers with an error leaves the tables as
      they were. */
  lemma ControlRefusalChangesNothing(t: Tables, c: Session, subtype: string, fields: seq<string>, pick: Session)
    requires c in t.conns
    ensures var o := HandleControl(t, c, subtype, fields, pick);
      ErrorCode(o.msgs).Some? ==> o.t == t
  {
    if subtype == "NICK" {
      NickErrors(t, c, fields);
    } else if subtype == "CREATE_ROOM" {
      CreateErrors(t, c, fields);
    } else if subtype == "JOIN" {
      JoinErrors(t, c, fields);
    } else if subtype == "DELETE_ROOM" || subtype == "LEAVE" {
      LeaveDeleteErrors(t, c, pick);
    }
  }

  /** The same for every line `process_message` handles. */
  lemma ProcessRefusalChangesNothing(t: Tables, c: Session, line: string, pick: Session)
    requires c in t.conns
    ensures var o := ProcessMessage(t, c, line, pick);
      ErrorCode(o.msgs).Some? ==> o.t == t
  {
    var d := Route(line, t.conns[c].state);
    if d.Control? {
      ControlRefusalChangesNothing(t, c, d.subtype, d.fields, pick);
    }
  }

  /** While CONNECTED, only a TYPE 0 NICK line can change the tables. */
  lemma ProcessGate(t: Tables, c: Session, line: string, pick: Session)
    requires c in t.conns && t.conns[c].state == Connected
    ensures ProcessMessage(t, c, line, pick).t != t ==>
      Route(line, Connected).Control? && Route(line, Connected).subtype == "NICK"
  {
    RouteGatesConnected(line);
  }

  /** A TERMINATED session's lines are still handled (the receive loop
      drains its buffer after QUIT), but only a NICK can change the tables
      then, by renaming the session, which stays TERMINATED. */
  lemma ProcessAfterQuit(t: Tables, c: Session, line: string, pick: Session)
    requires c in t.conns && t.conns[c].state == Terminated
    ensures var o := ProcessMessage(t, c, line, pick);
      var d := Route(line, Terminated);
      && c in o.t.conns && o.t.conns[c].state == Terminated
      && (o.t != t ==> d.Control? && d.subtype == "NICK" && |d.fields| == 1 && o.t == Renaming(t, c, Strip(d.fields[0])))
  {
    var d := Route(line, Terminated);
    if d.Control? {
      ControlAfterQuit(t, c, d.subtype, d.fields, pick);
    }
  }

  lemma ControlAfterQuit(t: Tables, c: Session, subtype: string, fields: seq<string>, pick: Session)
    requires c in t.conns && t.conns[c].state == Terminated
    ensures var o := HandleControl(t, c, subtype, fields, pick);
      && c in o.t.conns && o.t.conns[c].state == Terminated
      && (o.t != t ==> subtype == "NICK" && |fields| == 1 && o.t == Renaming(t, c, Strip(fields[0])))
  {
    if subtype == "NICK" {
      NickErrors(t, c, fields);
    } else if subtype == "QUIT" {
      assert t.conns[c := t.conns[c].(state := Terminated)] == t.conns;
    } else {
      ControlRefusalChangesNothing(t, c, subtype, fields, pick);
    }
  }

  /** A blank line is dropped: no reply, no change. */
  lemma ProcessIgnoresBlank(t: Tables, c: Session, line: string, pick: Session)
    requires c in t.conns && AllSpace(line)
    ensures ProcessMessage(t, c, line, pick) == Outcome(t, [])
  {
    RouteIgnoresBlank(line, t.conns[c].state);
  }

  // ---------------------------------------------------------------------------
  // NICK

  /** NICK's errors: a field count other than one or a blank name is
      BAD_FORMAT, a name held by another connection is NICK_IN_USE; any
      other NICK succeeds. */
  lemma NickErrors(t: Tables, c: Session, fields: seq<string>)
    requires c in t.conns
    ensures var o := Nick(t, c, fields);
      && (ErrorCode(o.msgs) == Some(BadFormat) <==> |fields| != 1 || Strip(fields[0]) == "")
      && (ErrorCode(o.msgs) == Some(NickInUse) <==>
            |fields| == 1 && Strip(fields[0]) != "" && Strip(fields[0]) in t.nicks && t.nicks[Strip(fields[0])] != c)
      && (ErrorCode(o.msgs).None? <==> |fields| == 1 && Strip(fields[0]) != "" && !(Strip(fields[0]) in t.nicks && t.nicks[Strip(fields[0])] != c))
      && (ErrorCode(o.msgs).Some? ==> o.t == t)
  {
  }

  /** A successful NICK: the old name leaves the nickname table and the new
      one maps to the requester, a CONNECTED requester becomes REGISTERED
      while any other state stays, and every room owned under the old name
      is owned under the new one. Nothing else changes. */
  lemma NickRenames(t: Tables, c: Session, fields: seq<string>)
    requires c in t.conns && |fields| == 1
    requires Strip(fields[0]) != "" && !(Strip(fields[0]) in t.nicks && t.nicks[Strip(fields[0])] != c)
    ensures var n := Strip(fields[0]);
      var me := t.conns[c];
      var o := Nick(t, c, fields);
      && o.msgs == [To(c, NickOk(n))]
      && o.t.nicks.Keys == (t.nicks.Keys - (if me.nick.Some? then {me.nick.value} else {})) + {n}
      && o.t.nicks[n] == c
      && (forall m :: m in o.t.nicks && m != n ==> o.t.nicks[m] == t.nicks[m])
      && o.t.conns.Keys == t.conns.Keys
      && o.t.conns[c].nick == Some(n) && o.t.conns[c].room == me.room
      && o.t.conns[c].state == (if me.state == Connected then Registered else me.state)
      && (forall s :: s in t.conns && s != c ==> o.t.conns[s] == t.conns[s])
      && o.t.rooms == t.rooms
      && o.t.owner.Keys == t.owner.Keys
      && (forall r :: r in t.owner && Some(t.owner[r]) == me.nick ==> o.t.owner[r] == n)
      && (forall r :: r in t.owner && Some(t.owner[r]) != me.nick ==> o.t.owner[r] == t.owner[r])
  {
    var n := Strip(fields[0]);
    assert Nick(t, c, fields) == Outcome(Renaming(t, c, n), [To(c, NickOk(n))]);
    RenamingNames(t, c, n);
    RenamingOwners(t, c, n);
  }

  /** The nickname table and the records after a rename. */
  lemma RenamingNames(t: Tables, c: Session, n: string)
    requires c in t.conns
    ensures var me := t.conns[c];
      var r := Renaming(t, c, n);
      && r.nicks.Keys == (t.nicks.Keys - (if me.nick.Some? then {me.nick.value} else {})) + {n}
      && r.nicks[n] == c
      && (forall m :: m in r.nicks && m != n ==> r.nicks[m] == t.nicks[m])
      && r.conns.Keys == t.conns.Keys
      && r.conns[c].nick == Some(n) && r.conns[c].room == me.room
      && r.conns[c].state == (if me.state == Connected then Registered else me.state)
      && (forall s :: s in t.conns && s != c ==> r.conns[s] == t.conns[s])
      && r.rooms == t.rooms
  {
  }

  /** The owner table after a rename. */
  lemma RenamingOwners(t: Tables, c: Session, n: string)
    requires c in t.conns
    ensures var me := t.conns[c];
      var r := Renaming(t, c, n);
      && r.owner.Keys == t.owner.Keys
      && (forall k :: k in t.owner && Some(t.owner[k]) == me.nick ==> r.owner[k] == n)
      && (forall k :: k in t.owner && Some(t.owner[k]) != me.nick ==> r.owner[k] == t.owner[k])
  {
    var me := t.conns[c];
    if me.nick.Some? {
      RenamedMoves(t.owner, me.nick.value, n);
    } else {
      RenamedFromNone(t.owner, n);
    }
  }

  // ---------------------------------------------------------------------------
  // CREATE_ROOM

  /** CREATE_ROOM's errors, in the order of the checks: BAD_FORMAT,
      INVALID_STATE, INVALID_ROOM_NAME, ROOM_ALREADY_EXISTS. */
  lemma CreateErrors(t: Tables, c: Session, fields: seq<string>)
    requires c in t.conns
    ensures var o := CreateRoom(t, c, fields);
      var st := t.conns[c].state;
      && (ErrorCode(o.msgs) == Some(BadFormat) <==> |fields| != 1)
      && (ErrorCode(o.msgs) == Some(InvalidState) <==> |fields| == 1 && !Active(st))
      && (ErrorCode(o.msgs) == Some(InvalidRoomName) <==> |fields| == 1 && Active(st) && Strip(fields[0]) == "")
      && (ErrorCode(o.msgs) == Some(RoomAlreadyExists) <==>
            |fields| == 1 && Active(st) && Strip(fields[0]) != "" && Strip(fields[0]) in t.rooms)
      && (ErrorCode(o.msgs).None? <==>
            |fields| == 1 && Active(st) && Strip(fields[0]) != "" && Strip(fields[0]) !in t.rooms)
      && (ErrorCode(o.msgs).Some? ==> o.t == t)
  {
  }

  /** A successful CREATE_ROOM: the new room exists, owned by the
      requester's name, with the requester as its only member; the
      requester is IN_ROOM there. Every existing room keeps its entry and
      its owner and only loses the requester; names and other connections
      stay. CREATE_ROOM_OK goes to the requester and a notice to the new
      room, not to the requester. */
  lemma CreateOpens(t: Tables, c: Session, fields: seq<string>)
    requires Good(t) && c in t.conns && |fields| == 1 && Active(t.conns[c].state)
    requires Strip(fields[0]) != "" && Strip(fields[0]) !in t.rooms
    ensures var room := Strip(fields[0]);
      var me := t.conns[c];
      var o := CreateRoom(t, c, fields);
      && o.t.rooms.Keys == t.rooms.Keys + {room}
      && o.t.rooms[room] == {c}
      && (forall r :: r in t.rooms ==> o.t.rooms[r] == t.rooms[r] - {c})
      && o.t.owner == t.owner[room := me.nick.value]
      && o.t.conns == t.conns[c := me.(room := Some(room), state := InRoom)]
      && o.t.nicks == t.nicks
      && o.msgs == [To(c, CreateRoomOk(room)), ToRoom(room, Created(me.nick.value), Some(c))]
  {
    OnlyOwnRoom(t, c);
    CreateEffect(t, c, Strip(fields[0]));
  }

  /** CREATE_ROOM of a fresh name, for a named requester that no member set
      but its own room's holds. */
  lemma CreateEffect(t: Tables, c: Session, room: string)
    requires c in t.conns && Active(t.conns[c].state) && t.conns[c].nick.Some?
    requires room != "" && room !in t.rooms && "" !in t.rooms
    requires forall r :: r in t.rooms && t.conns[c].room != Some(r) ==> c !in t.rooms[r]
    ensures var me := t.conns[c];
      var o := CreateNamed(t, c, room);
      && o.t.rooms.Keys == t.rooms.Keys + {room}
      && o.t.rooms[room] == {c}
      && (forall r :: r in t.rooms ==> o.t.rooms[r] == t.rooms[r] - {c})
      && o.t.owner == t.owner[room := me.nick.value]
      && o.t.conns == t.conns[c := me.(room := Some(room), state := InRoom)]
      && o.t.nicks == t.nicks
      && o.msgs == [To(c, CreateRoomOk(room)), ToRoom(room, Created(me.nick.value), Some(c))]
  {
    var me := t.conns[c];
    var a := AddRoom(t, room, me.nick.value);
    assert CreateNamed(t, c, room).t == Enter(a, c, room);
    EnterEffect(a, c, room);
  }

  // ---------------------------------------------------------------------------
  // JOIN

  /** JOIN's errors, in the order of the checks: BAD_FORMAT, INVALID_STATE,
      and NO_SUCH_ROOM for a missing room that is not the requester's own. */
  lemma JoinErrors(t: Tables, c: Session, fields: seq<string>)
    requires c in t.conns
    ensures var o := JoinRoom(t, c, fields);
      var me := t.conns[c];
      && (ErrorCode(o.msgs) == Some(BadFormat) <==> |fields| != 1)
      && (ErrorCode(o.msgs) == Some(InvalidState) <==> |fields| == 1 && !Active(me.state))
      && (ErrorCode(o.msgs) == Some(NoSuchRoom) <==>
            && |fields| == 1 && Active(me.state)
            && !(me.state == InRoom && me.room == Some(Strip(fields[0])))
            && Strip(fields[0]) !in t.rooms)
      && (ErrorCode(o.msgs).None? <==>
            && |fields| == 1 && Active(me.state)
            && ((me.state == InRoom && me.room == Some(Strip(fields[0]))) || Strip(fields[0]) in t.rooms))
      && (ErrorCode(o.msgs).Some? ==> o.t == t)
  {
  }

  /** Joining the room one is already in answers JOIN_OK to the requester
      alone and changes nothing. */
  lemma JoinSameRoom(t: Tables, c: Session, fields: seq<string>)
    requires c in t.conns && |fields| == 1
    requires t.conns[c].state == InRoom && t.conns[c].room == Some(Strip(fields[0]))
    ensures JoinRoom(t, c, fields) == Outcome(t, [To(c, JoinOk(Strip(fields[0])))])
  {
  }

  /** A JOIN that moves: the requester leaves the member set of its
      previous room and enters the target's, and is IN_ROOM there; every
      room keeps its entry, owners and names stay. JOIN_OK goes first, then
      a notice to the previous room when there was one, then a notice to
      the target room, never to the requester. */
  lemma JoinMoves(t: Tables, c: Session, fields: seq<string>)
    requires Good(t) && c in t.conns && |fields| == 1 && Active(t.conns[c].state)
    requires Strip(fields[0]) in t.rooms && t.conns[c].room != Some(Strip(fields[0]))
    ensures var room := Strip(fields[0]);
      var me := t.conns[c];
      var o := JoinRoom(t, c, fields);
      && o.t.rooms.Keys == t.rooms.Keys
      && o.t.rooms[room] == t.rooms[room] + {c}
      && (forall r :: r in t.rooms && r != room ==> o.t.rooms[r] == t.rooms[r] - {c})
      && o.t.conns == t.conns[c := me.(room := Some(room), state := InRoom)]
      && o.t.owner == t.owner && o.t.nicks == t.nicks
      && o.msgs == [To(c, JoinOk(room))]
           + (if me.room.Some? then [ToRoom(me.room.value, Left(me.nick.value), Some(c))] else [])
           + [ToRoom(room, Joined(me.nick.value), Some(c))]
  {
    var room := Strip(fields[0]);
    var me := t.conns[c];
    assert JoinRoom(t, c, fields) == Outcome(Enter(t, c, room), JoinLines(c, room, me.room, me.nick));
    OnlyOwnRoom(t, c);
    EnterEffect(t, c, room);
  }

  /** Entering `room` from a connection's own room, when no other member
      set holds it: only the two member sets change. */
  lemma EnterEffect(t: Tables, c: Session, room: string)
    requires c in t.conns && room in t.rooms && "" !in t.rooms
    requires forall r :: r in t.rooms && t.conns[c].room != Some(r) ==> c !in t.rooms[r]
    ensures var e := Enter(t, c, room);
      && e.rooms.Keys == t.rooms.Keys
      && e.rooms[room] == t.rooms[room] + {c}
      && (forall r :: r in t.rooms && r != room ==> e.rooms[r] == t.rooms[r] - {c})
      && e.conns == t.conns[c := t.conns[c].(room := Some(room), state := InRoom)]
      && e.owner == t.owner && e.nicks == t.nicks
  {
  }

  // ---------------------------------------------------------------------------
  // LEAVE, DELETE_ROOM and cleanup

  /** The name the owner table gives `room` belongs to a member of it. */
  predicate OwnedByMember(t: Tables, room: string)
  {
    room in t.owner && room in t.rooms &&
    exists s :: s in t.rooms[room] && s in t.conns && t.conns[s].nick == Some(t.owner[room])
  }

  /** LEAVE needs a room; DELETE_ROOM needs a room and then ownership, in
      that order. */
  lemma LeaveDeleteErrors(t: Tables, c: Session, pick: Session)
    requires c in t.conns
    ensures var me := t.conns[c];
      var inRoom := me.state == InRoom && me.room.Some?;
      && (ErrorCode(Leave(t, c, pick).msgs) == Some(NotInRoom) <==> !inRoom)
      && (ErrorCode(Leave(t, c, pick).msgs).None? <==> inRoom)
      && (ErrorCode(DeleteRoom(t, c, pick).msgs) == Some(NotInRoom) <==> !inRoom)
      && (ErrorCode(DeleteRoom(t, c, pick).msgs) == Some(InvalidState) <==>
            inRoom && Lookup(t.owner, me.room.value) != me.nick)
      && (ErrorCode(DeleteRoom(t, c, pick).msgs).None? <==>
            inRoom && Lookup(t.owner, me.room.value) == me.nick)
      && (ErrorCode(Leave(t, c, pick).msgs).Some? ==> Leave(t, c, pick).t == t)
      && (ErrorCode(DeleteRoom(t, c, pick).msgs).Some? ==> DeleteRoom(t, c, pick).t == t)
  {
  }

  /** A LEAVE: the requester leaves the member set of its room and is
      REGISTERED without a room; the room itself stays, even when empty.
      An owner who leaves hands the room to the name of a remaining member,
      and the owner entry goes when no member remains; a member who does
      not own the room leaves the owners alone. */
  lemma LeaveHandsOver(t: Tables, c: Session, pick: Session)
    requires Good(t) && c in t.conns && t.conns[c].state == InRoom && FairPick(t, c, pick)
    ensures var me := t.conns[c];
      var room := me.room.value;
      var o := Leave(t, c, pick);
      && o.t.rooms.Keys == t.rooms.Keys
      && o.t.rooms[room] == t.rooms[room] - {c}
      && (forall r :: r in t.rooms && r != room ==> o.t.rooms[r] == t.rooms[r])
      && o.t.conns == t.conns[c := me.(room := None, state := Registered)]
      && o.t.nicks == t.nicks
      && (Lookup(t.owner, room) != me.nick ==> o.t.owner == t.owner)
      && (Lookup(t.owner, room) == me.nick && Others(t, c, room) != {} ==>
            OwnedByMember(o.t, room) && o.t.owner - {room} == t.owner - {room})
      && (Lookup(t.owner, room) == me.nick && Others(t, c, room) == {} ==> o.t.owner == t.owner - {room})
      && o.msgs == [To(c, LeaveOk(room)), ToRoom(room, Left(me.nick.value), Some(c))]
  {
    var me := t.conns[c];
    var room := me.room.value;
    var o := Leave(t, c, pick);
    if Lookup(t.owner, room) == me.nick && Others(t, c, room) != {} {
      assert pick in o.t.rooms[room] && pick in o.t.conns;
      assert o.t.conns[pick].nick == Some(o.t.owner[room]);
    }
  }

  /** DELETE_ROOM by the owner with other members present: the room stays,
      the requester leaves it exactly as on LEAVE, and the room is handed to
      the name of one of the members who remain. */
  lemma DeleteHandsOver(t: Tables, c: Session, pick: Session)
    requires Good(t) && c in t.conns && t.conns[c].state == InRoom && FairPick(t, c, pick)
    requires Lookup(t.owner, t.conns[c].room.value) == t.conns[c].nick
    requires Others(t, c, t.conns[c].room.value) != {}
    ensures var me := t.conns[c];
      var room := me.room.value;
      var o := DeleteRoom(t, c, pick);
      && o.t.rooms.Keys == t.rooms.Keys
      && o.t.rooms[room] == t.rooms[room] - {c}
      && (forall r :: r in t.rooms && r != room ==> o.t.rooms[r] == t.rooms[r])
      && o.t.conns == t.conns[c := me.(room := None, state := Registered)]
      && o.t.nicks == t.nicks
      && OwnedByMember(o.t, room) && o.t.owner - {room} == t.owner - {room}
      && o.msgs == [To(c, HandedTo(o.t.owner[room])), To(c, LeaveOk(room)),
                    ToRoom(room, HandedOver(me.nick.value, o.t.owner[room]), Some(c))]
  {
    var room := t.conns[c].room.value;
    var o := DeleteRoom(t, c, pick);
    assert pick in o.t.rooms[room] && pick in o.t.conns;
    assert o.t.conns[pick].nick == Some(o.t.owner[room]);
  }

  /** DELETE_ROOM by the owner alone in the room: the room and its owner
      entry are removed and the requester is REGISTERED without a room. */
  lemma DeleteCloses(t: Tables, c: Session, pick: Session)
    requires Good(t) && c in t.conns && t.conns[c].state == InRoom
    requires Lookup(t.owner, t.conns[c].room.value) == t.conns[c].nick
    requires Others(t, c, t.conns[c].room.value) == {}
    ensures var me := t.conns[c];
      var room := me.room.value;
      var o := DeleteRoom(t, c, pick);
      && o.t.rooms == t.rooms - {room}
      && o.t.owner == t.owner - {room}
      && o.t.conns == t.conns[c := me.(room := None, state := Registered)]
      && o.t.nicks == t.nicks
      && o.msgs == [To(c, DeleteRoomOk(room))]
  {
  }

  /** Closing a connection: it leaves the member set of its room as on
      LEAVE, with the same handover of ownership, its name leaves the
      nickname table and its record goes; no room is removed. */
  lemma CleanupHandsOver(t: Tables, c: Session, pick: Session)
    requires Good(t) && c in t.conns && FairPick(t, c, pick)
    ensures var me := t.conns[c];
      var o := CleanupClient(t, c, pick);
      && o.t.conns == t.conns - {c}
      && o.t.nicks == (if me.nick.Some? then t.nicks - {me.nick.value} else t.nicks)
      && o.t.rooms.Keys == t.rooms.Keys
      && (forall r :: r in t.rooms ==> o.t.rooms[r] == t.rooms[r] - {c})
      && (me.room.None? ==> o.t.owner == t.owner && o.msgs == [])
      && (me.room.Some? ==>
            var room := me.room.value;
            && (Lookup(t.owner, room) != me.nick ==> o.t.owner == t.owner)
            && (Lookup(t.owner, room) == me.nick && Others(t, c, room) != {} ==>
                  OwnedByMember(o.t, room) && o.t.owner - {room} == t.owner - {room})
            && (Lookup(t.owner, room) == me.nick && Others(t, c, room) == {} ==> o.t.owner == t.owner - {room})
            && o.msgs == [ToRoom(room, Left(Show(me.nick)), Some(c))])
  {
    var me := t.conns[c];
    var o := CleanupClient(t, c, pick);
    OnlyOwnRoom(t, c);
    if me.room.Some? {
      var room := me.room.value;
      if Lookup(t.owner, room) == me.nick && Others(t, c, room) != {} {
        assert pick in o.t.rooms[room] && pick in o.t.conns;
        assert o.t.conns[pick].nick == Some(o.t.owner[room]);
      }
    }
  }

  // ---------------------------------------------------------------------------
  // Chat and info

  /** Chat checks the room before the subtype: outside a room every chat
      line is NOT_IN_ROOM. */
  lemma ChatNeedsRoom(t: Tables, c: Session, subtype: string, fields: seq<string>)
    requires c in t.conns && t.conns[c].state != InRoom
    ensures ErrorCode(HandleChat(t, c, subtype, fields)) == Some(NotInRoom)
  {
  }

  /** ROOM_MSG takes exactly one field, so a text with a `|` in it is
      BAD_FORMAT; one field goes to every member of the room, the sender
      included, while join and leave notices leave the actor out. */
  lemma RoomMsgReachesAll(t: Tables, c: Session, fields: seq<string>)
    requires Good(t) && c in t.conns && t.conns[c].state == InRoom
    ensures var out := HandleChat(t, c, "ROOM_MSG", fields);
      var me := t.conns[c];
      && (ErrorCode(out) == Some(BadFormat) <==> |fields| != 1)
      && (|fields| == 1 ==>
            && out == [ToRoom(me.room.value, RoomMsg(me.room.value, me.nick.value, fields[0]), None)]
            && c in Members(t.rooms, me.room.value))
  {
  }

  /** DM takes exactly two fields and a known name; it sends the message to
      that name's connection and DM_OK to the sender. */
  lemma DmReaches(t: Tables, c: Session, fields: seq<string>)
    requires Good(t) && c in t.conns && t.conns[c].state == InRoom
    ensures var out := HandleChat(t, c, "DM", fields);
      var me := t.conns[c];
      && (ErrorCode(out) == Some(BadFormat) <==> |fields| != 2)
      && (ErrorCode(out) == Some(NoSuchUser) <==> |fields| == 2 && fields[0] !in t.nicks)
      && (|fields| == 2 && fields[0] in t.nicks ==>
            && out == [To(t.nicks[fields[0]], Dm(me.nick.value, fields[1])), To(c, DmOk(fields[0]))]
            && t.nicks[fields[0]] in t.conns && t.conns[t.nicks[fields[0]]].nick == Some(fields[0]))
  {
  }

  /** LIST_USER and LIST_ALL refuse extra fields before they look at the
      state. */
  lemma InfoFieldsFirst(t: Tables, c: Session, subtype: string, fields: seq<string>)
    requires c in t.conns && (subtype == "LIST_USER" || subtype == "LIST_ALL") && fields != []
    ensures ErrorCode(HandleInfo(t, c, subtype, fields)) == Some(BadFormat)
  {
  }

  /** Without extra fields, LIST_USER needs a room and LIST_ALL a name. */
  lemma InfoStates(t: Tables, c: Session)
    requires c in t.conns
    ensures var st := t.conns[c].state;
      && (ErrorCode(HandleInfo(t, c, "LIST_USER", [])) == Some(NotInRoom) <==> st != InRoom)
      && (ErrorCode(HandleInfo(t, c, "LIST_ALL", [])) == Some(NeedNick) <==> !Active(st))
      && (st == InRoom ==> HandleInfo(t, c, "LIST_USER", []) == [RoomUsers(c, t.conns[c].room)])
      && (Active(st) ==> HandleInfo(t, c, "LIST_ALL", []) == [AllUsers(c)])
  {
  }
}
