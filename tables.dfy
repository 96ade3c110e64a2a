/** The server's shared state as a value: one record per open connection
    (`ClientInfo` without its socket), the nickname table, the rooms with
    their member sets and the room owners (server.py:57-72), together with
    the invariants the handlers keep. */
module Tables {
  import opened Text
  import opened Protocol

  /** One connection. The handlers assign its three fields in place. */
  class Session {
    var nick: Option<string>
    var state: State
    var room: Option<string>

    constructor ()
      ensures nick == None && state == Connected && room == None
    {
      nick := None;
      state := Connected;
      room := None;
    }
  }

  /** The fields of one connection at one moment. */
  datatype Conn = Conn(nick: Option<string>, state: State, room: Option<string>)

  /** `clients_by_sock` (as the record of every open connection),
      `clients_by_nick`, `rooms` and `room_owner`. */
  datatype Tables = Tables(
    conns: map<Session, Conn>,
    nicks: map<string, Session>,
    rooms: map<string, set<Session>>,
    owner: map<string, string>)

  /** A line for one connection, or for the members of a room but one, or
      a user listing whose names are read when it is sent. */
  datatype Msg =
    | To(to: Session, reply: Reply)
    | ToRoom(room: string, reply: Reply, exclude: Option<Session>)
    | RoomUsers(to: Session, of: Option<string>)
    | AllUsers(to: Session)

  /** The tables after a handler, and what it sends, in order. */
  datatype Outcome = Outcome(t: Tables, msgs: seq<Msg>)

  /** An f-string of an optional string: `None` shows as "None". */
  function Show(o: Option<string>): string
  {
    match o
    case None => "None"
    case Some(s) => s
  }

  /** `x or ""` for an optional string. */
  function OrEmpty(o: Option<string>): string
  {
    match o
    case None => ""
    case Some(s) => s
  }

  /** `m.get(k)`. */
  function Lookup<K, V>(m: map<K, V>, k: K): Option<V>
  {
    if k in m then Some(m[k]) else None
  }

  /** `del m[k]` guarded by `if k in m`, for an optional key. */
  function Dropped<V>(m: map<string, V>, k: Option<string>): map<string, V>
  {
    if k.Some? && k.value in m then m - {k.value} else m
  }

  /** `rooms.get(room, set())`. */
  function Members(rooms: map<string, set<Session>>, room: string): set<Session>
  {
    if room in rooms then rooms[room] else {}
  }

  /** `rooms[room].discard(s)`, where the room exists. */
  function Discard(rooms: map<string, set<Session>>, room: string, s: Session): map<string, set<Session>>
    requires room in rooms
  {
    rooms[room := rooms[room] - {s}]
  }

  /** The nickname of a connection, `None` for one that is not open. */
  function NickOf(t: Tables, s: Session): Option<string>
  {
    if s in t.conns then t.conns[s].nick else None
  }

  /** A state that may create and join rooms. */
  predicate Active(st: State)
  {
    st == Registered || st == InRoom
  }

  /** The owner table after a nickname change: every room owned under
      `from` is owned under `to`. */
  function Renamed(owners: map<string, string>, from: Option<string>, to: string): map<string, string>
  {
    map r | r in owners :: if Some(owners[r]) == from then to else owners[r]
  }

  /** A nickname change renames exactly the rooms owned under the old name
      and keeps the set of owned rooms. */
  lemma RenamedMoves(owners: map<string, string>, from: string, to: string)
    ensures Renamed(owners, Some(from), to).Keys == owners.Keys
    ensures forall r :: r in owners && owners[r] == from ==> Renamed(owners, Some(from), to)[r] == to
    ensures forall r :: r in owners && owners[r] != from ==> Renamed(owners, Some(from), to)[r] == owners[r]
  {
  }

  /** A first registration (no previous nickname) renames nothing. */
  lemma RenamedFromNone(owners: map<string, string>, to: string)
    ensures Renamed(owners, None, to) == owners
  {
  }

  // ---------------------------------------------------------------------------
  // Invariants

  /** The lifecycle of one connection: no name before NICK, a name while
      REGISTERED or IN_ROOM and whenever it has a room, a room exactly
      while IN_ROOM (a TERMINATED connection keeps what it had). */
  predicate Consistent(k: Conn)
  {
    && (k.state == Connected ==> k.nick.None? && k.room.None?)
    && (Active(k.state) ==> k.nick.Some?)
    && (k.room.Some? ==> k.nick.Some?)
    && (k.state == Registered ==> k.room.None?)
    && (k.state == InRoom ==> k.room.Some?)
  }

  /** Each key of the nickname table is the nickname of the open connection
      it maps to, and every named connection is listed under its name. */
  predicate NicksAgree(t: Tables)
  {
    && (forall n :: n in t.nicks ==> t.nicks[n] in t.conns && t.conns[t.nicks[n]].nick == Some(n))
    && (forall s :: s in t.conns && t.conns[s].nick.Some? ==>
          t.conns[s].nick.value in t.nicks && t.nicks[t.conns[s].nick.value] == s)
  }

  /** Every member of a room is an open connection whose room is that room,
      and every connection with a room is a member of it; so a connection
      is in at most one member set. No room has the empty name. */
  predicate RoomsAgree(t: Tables)
  {
    && "" !in t.rooms
    && (forall r, s :: r in t.rooms && s in t.rooms[r] ==> s in t.conns && t.conns[s].room == Some(r))
    && (forall s :: s in t.conns && t.conns[s].room.Some? ==>
          t.conns[s].room.value in t.rooms && s in t.rooms[t.conns[s].room.value])
  }

  /** The invariant of the shared state. */
  predicate Good(t: Tables)
  {
    && NicksAgree(t)
    && RoomsAgree(t)
    && t.owner.Keys <= t.rooms.Keys
    && (forall s :: s in t.conns ==> Consistent(t.conns[s]))
  }

  /** No open connection and no room. */
  function Empty(): Tables
  {
    Tables(map[], map[], map[], map[])
  }

  lemma EmptyGood()
    ensures Good(Empty())
  {
  }

  /** A connection is in at most one member set, and that set is the one
      of its `room` field. */
  lemma OneRoom(t: Tables, s: Session, r1: string, r2: string)
    requires Good(t) && r1 in t.rooms && r2 in t.rooms && s in t.rooms[r1] && s in t.rooms[r2]
    ensures r1 == r2 && t.conns[s].room == Some(r1)
  {
  }

  /** A connection that is not in the member set of a room does not have
      that room, and every other room's member set does not hold it. */
  lemma OnlyOwnRoom(t: Tables, s: Session)
    requires RoomsAgree(t) && s in t.conns
    ensures forall r :: r in t.rooms && t.conns[s].room != Some(r) ==> s !in t.rooms[r]
  {
  }

  /** Two open connections never share a nickname. */
  lemma NicksUnique(t: Tables, s1: Session, s2: Session)
    requires Good(t) && s1 in t.conns && s2 in t.conns
    requires t.conns[s1].nick.Some? && t.conns[s1].nick == t.conns[s2].nick
    ensures s1 == s2
  {
  }
}
