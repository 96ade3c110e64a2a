/** What each command does to the shared tables and what it sends, as one
    atomic step (server.py:99-361, 399-427). A handler's checks come in the
    source's order, and each check that fails sends one error and changes
    nothing. Where the source picks an arbitrary member (`random.choice`, the
    first element of a listed set) the pick is the parameter `pick`. */
module Handlers {
  import opened Text
  import opened Protocol
  import opened Tables

  /** One error line to the requester, nothing changed. */
  function Fail(t: Tables, c: Session, code: Code, detail: string): Outcome
  {
    Outcome(t, [To(c, Error(code, detail))])
  }

  /** `t` with the record of `c` replaced. */
  function SetConn(t: Tables, c: Session, k: Conn): Tables
  {
    t.(conns := t.conns[c := k])
  }

  /** The tables once `c` is named `n`: its old name leaves the nickname
      table, the new one maps to it, a CONNECTED session becomes
      REGISTERED, and the rooms owned under the old name are owned under
      the new one. */
  function Renaming(t: Tables, c: Session, n: string): Tables
    requires c in t.conns
  {
    var me := t.conns[c];
    var k := me.(nick := Some(n), state := if me.state == Connected then Registered else me.state);
    Tables(t.conns[c := k], Dropped(t.nicks, me.nick)[n := c], t.rooms, Renamed(t.owner, me.nick, n))
  }

  /** NICK (server.py:105-133). */
  function Nick(t: Tables, c: Session, fields: seq<string>): Outcome
    requires c in t.conns
  {
    if |fields| != 1 then Fail(t, c, BadFormat, "NICK requires 1 field")
    else NickNamed(t, c, Strip(fields[0]))
  }

  /** NICK once the name is read and trimmed (server.py:110-133). */
  function NickNamed(t: Tables, c: Session, n: string): Outcome
    requires c in t.conns
  {
    if n == "" then Fail(t, c, BadFormat, "Empty nick not allowed")
    else if n in t.nicks && t.nicks[n] != c then Fail(t, c, NickInUse, "Nick already in use")
    else Outcome(Renaming(t, c, n), [To(c, NickOk(n))])
  }

  /** `rooms` with `s` taken out of the member set of its room `from`, when
      that room name is non-empty and `s` is a member. */
  function LeaveSet(rooms: map<string, set<Session>>, from: Option<string>, s: Session): (r: map<string, set<Session>>)
    ensures r.Keys == rooms.Keys
  {
    if Truthy(from) && s in Members(rooms, from.value) then Discard(rooms, from.value, s) else rooms
  }

  /** The tables once `c` has moved into the existing `room`: it leaves the
      member set of its previous room and is IN_ROOM in `room`. */
  function Enter(t: Tables, c: Session, room: string): Tables
    requires c in t.conns && room in t.rooms
  {
    var me := t.conns[c];
    var rooms := LeaveSet(t.rooms, me.room, c);
    t.(conns := t.conns[c := me.(room := Some(room), state := InRoom)], rooms := rooms[room := rooms[room] + {c}])
  }

  /** A new, empty room with its owner's name. */
  function AddRoom(t: Tables, room: string, owner: string): Tables
  {
    t.(rooms := t.rooms[room := {}], owner := t.owner[room := owner])
  }

  /** CREATE_ROOM (server.py:137-165). */
  function CreateRoom(t: Tables, c: Session, fields: seq<string>): Outcome
    requires c in t.conns
  {
    if |fields| != 1 then Fail(t, c, BadFormat, "CREATE_ROOM requires room name")
    else CreateNamed(t, c, Strip(fields[0]))
  }

  /** CREATE_ROOM once the room name is read and trimmed (server.py:141-165).
      The old room of the requester loses it as a member but keeps its entry
      and its owner. */
  function CreateNamed(t: Tables, c: Session, room: string): Outcome
    requires c in t.conns
  {
    var me := t.conns[c];
    if !Active(me.state) then Fail(t, c, InvalidState, "Need REGISTERED state")
    else if room == "" then Fail(t, c, InvalidRoomName, "Empty room name")
    else if room in t.rooms then Fail(t, c, RoomAlreadyExists, "Room already exists")
    else
      Outcome(
        Enter(AddRoom(t, room, OrEmpty(me.nick)), c, room),
        [To(c, CreateRoomOk(room))] + [ToRoom(room, Created(Show(me.nick)), Some(c))])
  }

  /** JOIN (server.py:169-200). */
  function JoinRoom(t: Tables, c: Session, fields: seq<string>): Outcome
    requires c in t.conns
  {
    if |fields| != 1 then Fail(t, c, BadFormat, "JOIN requires room name")
    else JoinNamed(t, c, Strip(fields[0]))
  }

  /** JOIN once the room name is read and trimmed (server.py:173-200). */
  function JoinNamed(t: Tables, c: Session, room: string): Outcome
    requires c in t.conns
  {
    var me := t.conns[c];
    if !Active(me.state) then Fail(t, c, InvalidState, "Need REGISTERED state")
    else if me.state == InRoom && me.room == Some(room) then Outcome(t, [To(c, JoinOk(room))])
    else if room !in t.rooms then Fail(t, c, NoSuchRoom, "Room does not exist")
    else
      Outcome(Enter(t, c, room), JoinLines(c, room, me.room, me.nick))
  }

  /** What a successful JOIN sends: JOIN_OK to the requester, a notice to
      the room it left when that is another, non-empty room name, and a
      notice to the room it entered, neither to the requester. */
  function JoinLines(c: Session, room: string, prev: Option<string>, nick: Option<string>): seq<Msg>
  {
    var left := if Truthy(prev) && prev.value != room
      then [ToRoom(prev.value, Left(Show(nick)), Some(c))] else [];
    [To(c, JoinOk(room))] + left + [ToRoom(room, Joined(Show(nick)), Some(c))]
  }

  /** The tables once `c` has left its room `room` and is REGISTERED. */
  function Vacate(t: Tables, c: Session, room: string): Tables
    requires c in t.conns
  {
    var rooms := if room in t.rooms then Discard(t.rooms, room, c) else t.rooms;
    t.(conns := t.conns[c := t.conns[c].(room := None, state := Registered)], rooms := rooms)
  }

  /** The owner table once the member named `leaver` has left `room`
      (whose member set in `t` no longer holds it): an owner who leaves
      hands the room to the remaining member `pick`, or the entry goes when
      no one remains (server.py:265-270, 405-411). */
  function Handover(t: Tables, room: string, leaver: Option<string>, pick: Session): map<string, string>
  {
    if Lookup(t.owner, room) != leaver then t.owner
    else if Members(t.rooms, room) != {} then t.owner[room := OrEmpty(NickOf(t, pick))]
    else t.owner - {room}
  }

  /** The members of the requester's room other than the requester. */
  function Others(t: Tables, c: Session, room: string): set<Session>
  {
    Members(t.rooms, room) - {c}
  }

  /** A pick the source could make for `c`: one of the other members of
      its room whenever there is one. */
  predicate FairPick(t: Tables, c: Session, pick: Session)
  {
    c in t.conns && t.conns[c].room.Some? && Others(t, c, t.conns[c].room.value) != {} ==>
      pick in Others(t, c, t.conns[c].room.value)
  }

  /** Some pick the source could make for `c`. */
  ghost function AnyPick(t: Tables, c: Session): (p: Session)
    ensures FairPick(t, c, p)
  {
    if c in t.conns && t.conns[c].room.Some? && Others(t, c, t.conns[c].room.value) != {} then
      var p :| p in Others(t, c, t.conns[c].room.value); p
    else c
  }

  /** A room and its owner entry removed. */
  function CloseRoom(t: Tables, room: string): Tables
  {
    t.(rooms := t.rooms - {room}, owner := t.owner - {room})
  }

  /** DELETE_ROOM (server.py:204-253): with other members present the room
      is handed to `pick` and the requester leaves; otherwise the room is
      removed. The notice loop for other members at server.py:246-251 has
      nothing to send, since no other member is present on that path. */
  function DeleteRoom(t: Tables, c: Session, pick: Session): Outcome
    requires c in t.conns
  {
    var me := t.conns[c];
    if me.state != InRoom || me.room.None? then Fail(t, c, NotInRoom, "You must be in a room")
    else
      var room := me.room.value;
      if Lookup(t.owner, room) != me.nick then Fail(t, c, InvalidState, "Only room creator can delete this room")
      else if Others(t, c, room) != {} then
        var heir := OrEmpty(NickOf(t, pick));
        Outcome(
          Vacate(t, c, room).(owner := t.owner[room := heir]),
          [To(c, HandedTo(heir))] + [To(c, LeaveOk(room))] + [ToRoom(room, HandedOver(Show(me.nick), heir), Some(c))])
      else if c in Members(t.rooms, room) then
        Outcome(SetConn(CloseRoom(t, room), c, me.(room := None, state := Registered)), [To(c, DeleteRoomOk(room))])
      else
        Outcome(CloseRoom(t, room), [])
  }

  /** LEAVE (server.py:257-276). The room itself stays, even when empty. */
  function Leave(t: Tables, c: Session, pick: Session): Outcome
    requires c in t.conns
  {
    var me := t.conns[c];
    if me.state != InRoom || me.room.None? then Fail(t, c, NotInRoom, "You must be in a room")
    else
      var room := me.room.value;
      var v := Vacate(t, c, room);
      Outcome(
        v.(owner := Handover(v, room, me.nick, pick)),
        [To(c, LeaveOk(room))] + [ToRoom(room, Left(Show(me.nick)), Some(c))])
  }

  /** QUIT (server.py:280-288). */
  function Quit(t: Tables, c: Session): Outcome
    requires c in t.conns
  {
    Outcome(SetConn(t, c, t.conns[c].(state := Terminated)), [To(c, Bye)])
  }

  /** `handle_control` (server.py:99-291). */
  function HandleControl(t: Tables, c: Session, subtype: string, fields: seq<string>, pick: Session): Outcome
    requires c in t.conns
  {
    if subtype == "NICK" then Nick(t, c, fields)
    else if subtype == "CREATE_ROOM" then CreateRoom(t, c, fields)
    else if subtype == "JOIN" then JoinRoom(t, c, fields)
    else if subtype == "DELETE_ROOM" then DeleteRoom(t, c, pick)
    else if subtype == "LEAVE" then Leave(t, c, pick)
    else if subtype == "QUIT" then Quit(t, c)
    else Fail(t, c, UnknownSubtype, "Unknown control subtype: " + subtype)
  }

  /** The lines of `handle_chat` (server.py:294-330); it changes nothing. */
  function HandleChat(t: Tables, c: Session, subtype: string, fields: seq<string>): seq<Msg>
    requires c in t.conns
  {
    var me := t.conns[c];
    if me.state != InRoom then [To(c, Error(NotInRoom, "You must be in a room"))]
    else if subtype == "ROOM_MSG" then
      if |fields| != 1 then [To(c, Error(BadFormat, "ROOM_MSG requires message"))]
      else if me.room.None? then [To(c, Error(NotInRoom, "No room assigned"))]
      else [ToRoom(me.room.value, RoomMsg(me.room.value, Show(me.nick), fields[0]), None)]
    else if subtype == "DM" then
      if |fields| != 2 then [To(c, Error(BadFormat, "DM requires toNick and message"))]
      else if fields[0] !in t.nicks then [To(c, Error(NoSuchUser, "No such user"))]
      else [To(t.nicks[fields[0]], Dm(Show(me.nick), fields[1]))] + [To(c, DmOk(fields[0]))]
    else [To(c, Error(UnknownSubtype, "Unknown chat subtype: " + subtype))]
  }

  /** The lines of `handle_info` (server.py:333-361); it changes nothing. */
  function HandleInfo(t: Tables, c: Session, subtype: string, fields: seq<string>): seq<Msg>
    requires c in t.conns
  {
    var me := t.conns[c];
    if subtype == "LIST_USER" then
      if fields != [] then [To(c, Error(BadFormat, "LIST_USER takes no args"))]
      else if me.state != InRoom then [To(c, Error(NotInRoom, "You must be in a room"))]
      else [RoomUsers(c, me.room)]
    else if subtype == "LIST_ALL" then
      if fields != [] then [To(c, Error(BadFormat, "LIST_ALL takes no args"))]
      else if !Active(me.state) then [To(c, Error(NeedNick, "Register nick first"))]
      else [AllUsers(c)]
    else [To(c, Error(UnknownSubtype, "Unknown info subtype: " + subtype))]
  }

  /** `process_message` (server.py:364-396): route the line, then run the
      handler it reaches. */
  function ProcessMessage(t: Tables, c: Session, line: string, pick: Session): Outcome
    requires c in t.conns
  {
    Dispatched(t, c, Route(line, t.conns[c].state), pick)
  }

  /** What a routed line does. */
  function Dispatched(t: Tables, c: Session, d: Dispatch, pick: Session): Outcome
    requires c in t.conns
  {
    match d
    case Ignore => Outcome(t, [])
    case Reject(code, detail) => Fail(t, c, code, detail)
    case Control(subtype, fields) => HandleControl(t, c, subtype, fields, pick)
    case Chat(subtype, fields) => Outcome(t, HandleChat(t, c, subtype, fields))
    case Query(subtype, fields) => Outcome(t, HandleInfo(t, c, subtype, fields))
  }

  /** `cleanup_client` (server.py:399-427): leave the room as LEAVE does,
      give up the nickname, close the connection. */
  function CleanupClient(t: Tables, c: Session, pick: Session): Outcome
    requires c in t.conns
  {
    var me := t.conns[c];
    if Truthy(me.room) && c in Members(t.rooms, me.room.value) then
      var room := me.room.value;
      var t1 := t.(rooms := Discard(t.rooms, room, c));
      Outcome(
        Tables(t.conns - {c}, Dropped(t.nicks, me.nick), t1.rooms, Handover(t1, room, me.nick, pick)),
        [ToRoom(room, Left(Show(me.nick)), Some(c))])
    else
      Outcome(Tables(t.conns - {c}, Dropped(t.nicks, me.nick), t.rooms, t.owner), [])
  }

  /** A new connection, before its first line (server.py:432-434). */
  function Connect(t: Tables, c: Session): Tables
  {
    SetConn(t, c, Conn(None, Connected, None))
  }
}
