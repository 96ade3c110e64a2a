/** The chat server's shared state and handlers (server.py). One `Registry`
    holds the connections, the nickname table, the rooms with their members
    and the room owners; a `Session` is one connection. Every handler returns
    the lines it sends, in order, as `Send` values instead of writing them to
    sockets. */
module Server {
  import opened Text
  import opened Protocol
  import opened Framing
  import opened Tables
  import opened Handlers
  import opened Invariants

  /** One line sent to one connection. */
  datatype Send = Send(to: Session, reply: Reply)

  function Excluded(exclude: Option<Session>): set<Session>
  {
    match exclude
    case None => {}
    case Some(s) => {s}
  }

  /** `out` sends `r` once to every connection of `targets` and to no
      other: every send goes to a target, every target gets a send, and no
      target gets two. */
  predicate Delivers(out: seq<Send>, targets: set<Session>, r: Reply)
  {
    && (forall i :: 0 <= i < |out| ==> out[i].to in targets && out[i].reply == r)
    && (forall t :: t in targets ==> exists i :: 0 <= i < |out| && out[i].to == t)
    && (forall i, j :: 0 <= i < j < |out| ==> out[i].to != out[j].to)
  }

  /** Sending to one more connection extends a delivery. */
  lemma DeliversAdd(out: seq<Send>, targets: set<Session>, m: Session, r: Reply)
    requires Delivers(out, targets, r) && m !in targets
    ensures Delivers(out + [Send(m, r)], targets + {m}, r)
  {
    var out' := out + [Send(m, r)];
    assert forall i :: 0 <= i < |out| ==> out'[i] == out[i];
    assert out'[|out|].to == m;
  }

  /** A delivery sends exactly one line per target. */
  lemma {:induction false} DeliversCount(out: seq<Send>, targets: set<Session>, r: Reply)
    requires Delivers(out, targets, r)
    ensures |out| == |targets|
    decreases |out|
  {
    if out == [] {
      assert forall t :: t !in targets;
      assert targets == {};
    } else {
      var last := out[|out| - 1].to;
      var init := out[..|out| - 1];
      var rest := targets - {last};
      assert forall i :: 0 <= i < |init| ==> init[i] == out[i];
      forall t | t in rest
        ensures exists i :: 0 <= i < |init| && init[i].to == t
      {
        var i :| 0 <= i < |out| && out[i].to == t;
        assert init[i] == out[i];
      }
      DeliversCount(init, rest, r);
    }
  }

  /** The loop over `room_owner.items()` in the NICK handler. */
  method RewriteOwners(owners: map<string, string>, from: Option<string>, to: string) returns (res: map<string, string>)
    ensures res == Renamed(owners, from, to)
  {
    res := owners;
    var todo := owners.Keys;
    while todo != {}
      invariant todo <= owners.Keys && res.Keys == owners.Keys
      invariant forall r :: r in owners && r !in todo ==> res[r] == Renamed(owners, from, to)[r]
      invariant forall r :: r in todo ==> res[r] == owners[r]
      decreases todo
    {
      var r :| r in todo;
      if Some(owners[r]) == from {
        res := res[r := to];
      }
      todo := todo - {r};
    }
  }

  /** Every element of `xs` is in `s`, every element of `s` is in `xs`,
      and none is listed twice: `xs` is `s` in some order. */
  predicate Lists<T>(xs: seq<T>, s: set<T>)
  {
    && (forall i :: 0 <= i < |xs| ==> xs[i] in s)
    && (forall x :: x in s ==> x in xs)
    && (forall i, j :: 0 <= i < j < |xs| ==> xs[i] != xs[j])
  }

  /** The nicknames of the named open connections among `ss`. */
  function NamesIn(t: Tables, ss: set<Session>): set<string>
  {
    set m | m in ss && m in t.conns && t.conns[m].nick.Some? :: t.conns[m].nick.value
  }

  /** The nicknames of the named members of a connection's room (`room`
      is its `room` field, which may be `None`). */
  function RoomNames(t: Tables, room: Option<string>): set<string>
  {
    NamesIn(t, if room.Some? then Members(t.rooms, room.value) else {})
  }

  /** The keys among `ns` of the nickname table that name a REGISTERED or
      IN_ROOM connection. */
  function ActiveIn(t: Tables, ns: set<string>): set<string>
  {
    set n | n in ns && n in t.nicks && t.nicks[n] in t.conns && Active(t.conns[t.nicks[n]].state)
  }

  /** The nicknames listed by LIST_ALL. */
  function ActiveNames(t: Tables): set<string>
  {
    ActiveIn(t, t.nicks.Keys)
  }

  lemma ListsAdd<T>(xs: seq<T>, s: set<T>, x: T)
    requires Lists(xs, s) && x !in s
    ensures Lists(xs + [x], s + {x})
  {
    assert forall i :: 0 <= i < |xs| ==> (xs + [x])[i] == xs[i];
  }

  /** One more connection adds its own name, if it has one, and no name
      already there: two open connections never share a nickname. */
  lemma NamesAdd(t: Tables, ss: set<Session>, m: Session)
    requires Good(t) && m in t.conns && m !in ss
    ensures t.conns[m].nick.Some? ==>
      NamesIn(t, ss + {m}) == NamesIn(t, ss) + {t.conns[m].nick.value} && t.conns[m].nick.value !in NamesIn(t, ss)
    ensures t.conns[m].nick.None? ==> NamesIn(t, ss + {m}) == NamesIn(t, ss)
  {
  }

  /** The connections a room broadcast reaches. */
  function Targets(t: Tables, room: string, ex: Option<Session>): set<Session>
  {
    Members(t.rooms, room) - Excluded(ex)
  }

  /** The number of lines a message becomes in the tables `t`. */
  function Width(m: Msg, t: Tables): nat
  {
    match m
    case ToRoom(room, _, ex) => |Targets(t, room, ex)|
    case _ => 1
  }

  /** `lines` is what sending `m` in the tables `t` puts on the wire: a room
      broadcast becomes one line per member but the excluded one, in some
      order, and a listing names the users in some order. */
  predicate Sent(lines: seq<Send>, m: Msg, t: Tables)
  {
    match m
    case To(s, r) => lines == [Send(s, r)]
    case ToRoom(room, r, ex) => Delivers(lines, Targets(t, room, ex), r)
    case RoomUsers(s, room) =>
      && |lines| == 1 && lines[0].to == s && lines[0].reply.UserList? && lines[0].reply.room == Show(room)
      && Lists(lines[0].reply.users, RoomNames(t, room))
    case AllUsers(s) =>
      && |lines| == 1 && lines[0].to == s && lines[0].reply.UserListAll?
      && Lists(lines[0].reply.users, ActiveNames(t))
  }

  /** `out` is what sending `msgs`, in order, in the tables `t` puts on the
      wire. */
  predicate Expands(out: seq<Send>, msgs: seq<Msg>, t: Tables)
    decreases |msgs|
  {
    if msgs == [] then out == []
    else
      var k := Width(msgs[0], t);
      |out| >= k && Sent(out[..k], msgs[0], t) && Expands(out[k..], msgs[1..], t)
  }

  lemma ExpandsNil(t: Tables)
    ensures Expands([], [], t)
  {
  }

  /** A single message. */
  lemma ExpandsOne(lines: seq<Send>, m: Msg, t: Tables)
    requires |lines| == Width(m, t) && Sent(lines, m, t)
    ensures Expands(lines, [m], t)
  {
    assert lines[..|lines|] == lines;
    assert lines[|lines|..] == [];
  }

  /** A direct line. */
  lemma ExpandsTo(s: Session, r: Reply, t: Tables)
    ensures Expands([Send(s, r)], [To(s, r)], t)
  {
    ExpandsOne([Send(s, r)], To(s, r), t);
  }

  /** An error reply is the one line of a failed check. */
  lemma ExpandsFail(t: Tables, c: Session, code: Code, detail: string)
    ensures Expands([Send(c, Error(code, detail))], Fail(t, c, code, detail).msgs, t)
  {
    ExpandsTo(c, Error(code, detail), t);
  }

  /** A room broadcast. */
  lemma ExpandsRoom(b: seq<Send>, room: string, r: Reply, ex: Option<Session>, t: Tables)
    requires Delivers(b, Targets(t, room, ex), r)
    ensures Expands(b, [ToRoom(room, r, ex)], t)
  {
    DeliversCount(b, Targets(t, room, ex), r);
    ExpandsOne(b, ToRoom(room, r, ex), t);
  }

  /** Expanding a list of messages piece by piece. */
  lemma {:induction false} ExpandsAppend(o1: seq<Send>, m1: seq<Msg>, o2: seq<Send>, m2: seq<Msg>, t: Tables)
    requires Expands(o1, m1, t) && Expands(o2, m2, t)
    ensures Expands(o1 + o2, m1 + m2, t)
    decreases |m1|
  {
    if m1 == [] {
      assert o1 + o2 == o2;
      assert m1 + m2 == m2;
    } else {
      var k := Width(m1[0], t);
      ExpandsAppend(o1[k..], m1[1..], o2, m2, t);
      SliceAppend(o1, o2, k);
      assert m1 + m2 == [m1[0]] + (m1[1..] + m2);
      ExpandsStep(o1 + o2, m1[0], m1[1..] + m2, t);
    }
  }

  /** One message in front of others. */
  lemma ExpandsStep(out: seq<Send>, m: Msg, rest: seq<Msg>, t: Tables)
    requires |out| >= Width(m, t)
    requires Sent(out[..Width(m, t)], m, t) && Expands(out[Width(m, t)..], rest, t)
    ensures Expands(out, [m] + rest, t)
  {
    assert ([m] + rest)[0] == m;
    assert ([m] + rest)[1..] == rest;
  }

  lemma SliceAppend<T>(a: seq<T>, b: seq<T>, k: nat)
    requires k <= |a|
    ensures (a + b)[..k] == a[..k] && (a + b)[k..] == a[k..] + b
  {
  }

  /** The lines of a JOIN: the reply, then the two broadcasts. */
  lemma JoinExpands(lb: seq<Send>, jb: seq<Send>, c: Session, room: string, prev: Option<string>, nick: Option<string>, t: Tables)
    requires Truthy(prev) && prev.value != room ==>
      Delivers(lb, Members(t.rooms, prev.value) - {c}, Left(Show(nick)))
    requires !(Truthy(prev) && prev.value != room) ==> lb == []
    requires Delivers(jb, Members(t.rooms, room) - {c}, Joined(Show(nick)))
    ensures Expands([Send(c, JoinOk(room))] + lb + jb, JoinLines(c, room, prev, nick), t)
  {
    var left := if Truthy(prev) && prev.value != room
      then [ToRoom(prev.value, Left(Show(nick)), Some(c))] else [];
    ExpandsTo(c, JoinOk(room), t);
    if Truthy(prev) && prev.value != room {
      ExpandsRoom(lb, prev.value, Left(Show(nick)), Some(c), t);
    } else {
      ExpandsNil(t);
    }
    ExpandsAppend([Send(c, JoinOk(room))], [To(c, JoinOk(room))], lb, left, t);
    ExpandsRoom(jb, room, Joined(Show(nick)), Some(c), t);
    ExpandsAppend([Send(c, JoinOk(room))] + lb, [To(c, JoinOk(room))] + left, jb, [ToRoom(room, Joined(Show(nick)), Some(c))], t);
  }

  /** The records of the connections `ss`. */
  ghost function ConnsOf(ss: set<Session>): map<Session, Conn>
    reads ss
  {
    map s | s in ss :: Conn(s.nick, s.state, s.room)
  }

  /** When every record but that of `c` is still the one in `before`, the
      records are `before` with the record of `c` replaced. */
  lemma ConnsOfUpdate(ss: set<Session>, c: Session, before: map<Session, Conn>)
    requires before.Keys == ss && c in ss
    requires forall s :: s in ss && s != c ==> before[s] == Conn(s.nick, s.state, s.room)
    ensures ConnsOf(ss) == before[c := Conn(c.nick, c.state, c.room)]
  {
  }

  /** The records of the connections `ss` minus one. */
  lemma ConnsOfRemove(ss: set<Session>, c: Session)
    ensures ConnsOf(ss - {c}) == ConnsOf(ss) - {c}
  {
  }

  /** The records of the connections `ss` plus one. */
  lemma ConnsOfAdd(ss: set<Session>, c: Session)
    ensures ConnsOf(ss + {c}) == ConnsOf(ss)[c := Conn(c.nick, c.state, c.room)]
  {
  }

  lemma Assoc<T>(a: seq<T>, b: seq<T>, c: seq<T>)
    ensures a + (b + c) == (a + b) + c && a + [] == a
  {
  }

  lemma AddRemove<T>(s: set<T>, x: T)
    requires x !in s
    ensures (s + {x}) - {x} == s
  {
  }

  // ---------------------------------------------------------------------------
  // The lines of one connection, handled one after another

  /** The tables once `lines` have been handled for `c` in order, the i-th
      with the owner pick `picks[i]`; no line opens or closes a connection. */
  function Run(t: Tables, c: Session, lines: seq<string>, picks: seq<Session>): (r: Tables)
    requires c in t.conns && |picks| == |lines|
    ensures r.conns.Keys == t.conns.Keys
    decreases |lines|
  {
    if lines == [] then t
    else
      var n := |lines| - 1;
      var before := Run(t, c, lines[..n], picks[..n]);
      ProcessKeepsOpen(before, c, lines[n], picks[n]);
      Handlers.ProcessMessage(before, c, lines[n], picks[n]).t
  }

  /** `parts[i]` is what handling `lines[i]` puts on the wire, in the tables
      that line leaves, and each pick is one the source could make. */
  ghost predicate Handled(t: Tables, c: Session, lines: seq<string>, picks: seq<Session>, parts: seq<seq<Send>>)
    requires c in t.conns && |picks| == |lines|
    decreases |lines|
  {
    && |parts| == |lines|
    && (lines != [] ==>
          var n := |lines| - 1;
          var before := Run(t, c, lines[..n], picks[..n]);
          && Handled(t, c, lines[..n], picks[..n], parts[..n])
          && FairPick(before, c, picks[n])
          && Expands(parts[n], Handlers.ProcessMessage(before, c, lines[n], picks[n]).msgs, Run(t, c, lines, picks)))
  }

  /** The lines of the steps, one step after another. */
  function Flatten(parts: seq<seq<Send>>): seq<Send>
    decreases |parts|
  {
    if parts == [] then [] else Flatten(parts[..|parts| - 1]) + parts[|parts| - 1]
  }

  /** Handling one more line. */
  lemma HandledStep(t: Tables, c: Session, lines: seq<string>, picks: seq<Session>, parts: seq<seq<Send>>,
                    line: string, pick: Session, o: seq<Send>)
    requires c in t.conns && |picks| == |lines| && Handled(t, c, lines, picks, parts)
    requires FairPick(Run(t, c, lines, picks), c, pick)
    requires var step := Handlers.ProcessMessage(Run(t, c, lines, picks), c, line, pick);
      Expands(o, step.msgs, step.t)
    ensures Run(t, c, lines + [line], picks + [pick]) == Handlers.ProcessMessage(Run(t, c, lines, picks), c, line, pick).t
    ensures Handled(t, c, lines + [line], picks + [pick], parts + [o])
  {
    assert (lines + [line])[..|lines|] == lines;
    assert (picks + [pick])[..|picks|] == picks;
    assert (parts + [o])[..|parts|] == parts;
  }

  lemma FlattenStep(parts: seq<seq<Send>>, o: seq<Send>)
    ensures Flatten(parts + [o]) == Flatten(parts) + o
  {
    assert (parts + [o])[..|parts|] == parts;
  }

  /** Any sequence of lines keeps the tables consistent. */
  lemma {:induction false} RunKeepsGood(t: Tables, c: Session, lines: seq<string>, picks: seq<Session>)
    requires Good(t) && c in t.conns && |picks| == |lines|
    ensures Good(Run(t, c, lines, picks))
    decreases |lines|
  {
    if lines != [] {
      var n := |lines| - 1;
      RunKeepsGood(t, c, lines[..n], picks[..n]);
      ProcessKeepsGood(Run(t, c, lines[..n], picks[..n]), c, lines[n], picks[n]);
    }
  }

  /** The shared tables of the server. */
  class Registry {
    /** `clients_by_sock`: the open connections. */
    var conns: set<Session>
    /** `clients_by_nick`. */
    var nicks: map<string, Session>
    /** `rooms`: room name to member connections. */
    var rooms: map<string, set<Session>>
    /** `room_owner`: room name to the owner's nickname. */
    var owner: map<string, string>

    /** The tables as a value. */
    ghost function Model(): Tables
      reads this, conns
    {
      Tables(ConnsOf(conns), nicks, rooms, owner)
    }

    ghost predicate Valid()
      reads this, conns
    {
      Good(Model())
    }

    /** Every member of a room is an open connection. */
    ghost predicate MembersOpen()
      reads this
    {
      forall r :: r in rooms ==> rooms[r] <= conns
    }

    lemma ValidMembersOpen()
      requires Valid()
      ensures MembersOpen()
    {
      forall r, s | r in rooms && s in rooms[r]
        ensures s in conns
      {
        assert s in Model().conns;
      }
    }

    constructor ()
      ensures Valid() && Model() == Empty()
    {
      conns := {};
      nicks := map[];
      rooms := map[];
      owner := map[];
      EmptyGood();
    }

    /** `broadcast_to_room`: `reply` to every member of `room` except
        `exclude`, in the (unspecified) order of the member set. */
    method Broadcast(room: string, reply: Reply, exclude: Option<Session>) returns (out: seq<Send>)
      ensures Delivers(out, Members(rooms, room) - Excluded(exclude), reply)
    {
      var members := Members(rooms, room);
      var excl := Excluded(exclude);
      var todo := members;
      ghost var sent: set<Session> := {};
      ghost var done: set<Session> := {};
      out := [];
      while todo != {}
        invariant done + todo == members && done !! todo && sent == done - excl
        invariant Delivers(out, sent, reply)
        decreases todo
      {
        var m :| m in todo;
        if m !in excl {
          DeliversAdd(out, sent, m, reply);
          out := out + [Send(m, reply)];
          sent := sent + {m};
        }
        todo := todo - {m};
        done := done + {m};
      }
    }

    /** The assignments of a successful NICK (server.py:120-129). */
    method Rename(c: Session, n: string)
      requires c in conns
      modifies this, c
      ensures conns == old(conns)
      ensures Model() == Renaming(old(Model()), c, n)
    {
      ghost var before := ConnsOf(conns);
      var previous := c.nick;
      if previous.Some? && previous.value in nicks {
        nicks := nicks - {previous.value};
      }
      c.nick := Some(n);
      nicks := nicks[n := c];
      if c.state == Connected {
        c.state := Registered;
      }
      owner := RewriteOwners(owner, previous, n);
      ConnsOfUpdate(conns, c, before);
    }

    /** NICK (server.py:105-133). */
    method SetNick(c: Session, fields: seq<string>) returns (out: seq<Send>)
      requires c in conns
      modifies this, c
      ensures conns == old(conns)
      ensures var o := Nick(old(Model()), c, fields); Model() == o.t && Expands(out, o.msgs, Model())
    {
      if |fields| != 1 {
        ExpandsFail(Model(), c, BadFormat, "NICK requires 1 field");
        return [Send(c, Error(BadFormat, "NICK requires 1 field"))];
      }
      out := SetNamedNick(c, Strip(fields[0]));
    }

    method SetNamedNick(c: Session, n: string) returns (out: seq<Send>)
      requires c in conns
      modifies this, c
      ensures conns == old(conns)
      ensures var o := NickNamed(old(Model()), c, n); Model() == o.t && Expands(out, o.msgs, Model())
    {
      if n == "" {
        ExpandsFail(Model(), c, BadFormat, "Empty nick not allowed");
        return [Send(c, Error(BadFormat, "Empty nick not allowed"))];
      }
      if n in nicks && nicks[n] != c {
        ExpandsFail(Model(), c, NickInUse, "Nick already in use");
        return [Send(c, Error(NickInUse, "Nick already in use"))];
      }
      Rename(c, n);
      ExpandsTo(c, NickOk(n), Model());
      out := [Send(c, NickOk(n))];
    }

    /** Moving `c` into the existing `room` (server.py:155-159, 187-192). */
    method MoveInto(c: Session, room: string)
      requires c in conns && room in rooms
      modifies this, c
      ensures conns == old(conns)
      ensures Model() == Enter(old(Model()), c, room)
    {
      ghost var before := ConnsOf(conns);
      var from := c.room;
      if Truthy(from) && c in Members(rooms, from.value) {
        rooms := rooms[from.value := rooms[from.value] - {c}];
      }
      c.room := Some(room);
      c.state := InRoom;
      rooms := rooms[room := rooms[room] + {c}];
      ConnsOfUpdate(conns, c, before);
    }

    /** A new, empty room and its owner (server.py:153-154). */
    method OpenRoom(room: string, ownerName: string)
      modifies this
      ensures conns == old(conns)
      ensures Model() == AddRoom(old(Model()), room, ownerName)
    {
      rooms := rooms[room := {}];
      owner := owner[room := ownerName];
    }

    /** CREATE_ROOM (server.py:137-165). */
    method MakeRoom(c: Session, fields: seq<string>) returns (out: seq<Send>)
      requires c in conns
      modifies this, c
      ensures conns == old(conns)
      ensures var o := CreateRoom(old(Model()), c, fields); Model() == o.t && Expands(out, o.msgs, Model())
    {
      if |fields| != 1 {
        ExpandsFail(Model(), c, BadFormat, "CREATE_ROOM requires room name");
        return [Send(c, Error(BadFormat, "CREATE_ROOM requires room name"))];
      }
      out := MakeNamedRoom(c, Strip(fields[0]));
    }

    method MakeNamedRoom(c: Session, room: string) returns (out: seq<Send>)
      requires c in conns
      modifies this, c
      ensures conns == old(conns)
      ensures var o := CreateNamed(old(Model()), c, room); Model() == o.t && Expands(out, o.msgs, Model())
    {
      if !Active(c.state) {
        ExpandsFail(Model(), c, InvalidState, "Need REGISTERED state");
        return [Send(c, Error(InvalidState, "Need REGISTERED state"))];
      }
      if room == "" {
        ExpandsFail(Model(), c, InvalidRoomName, "Empty room name");
        return [Send(c, Error(InvalidRoomName, "Empty room name"))];
      }
      if room in rooms {
        ExpandsFail(Model(), c, RoomAlreadyExists, "Room already exists");
        return [Send(c, Error(RoomAlreadyExists, "Room already exists"))];
      }
      out := Found(c, room);
    }

    /** A successful CREATE_ROOM (server.py:152-165): the new room, owned
        under the requester's name, with the requester moved into it. */
    method Found(c: Session, room: string) returns (out: seq<Send>)
      requires c in conns && room !in rooms
      modifies this, c
      ensures conns == old(conns)
      ensures Model() == Enter(AddRoom(old(Model()), room, OrEmpty(old(c.nick))), c, room)
      ensures Expands(out, [To(c, CreateRoomOk(room))] + [ToRoom(room, Created(Show(old(c.nick))), Some(c))], Model())
    {
      var notice := Created(Show(c.nick));
      OpenRoom(room, OrEmpty(c.nick));
      MoveInto(c, room);
      var b := Broadcast(room, notice, Some(c));
      ExpandsTo(c, CreateRoomOk(room), Model());
      ExpandsRoom(b, room, notice, Some(c), Model());
      ExpandsAppend([Send(c, CreateRoomOk(room))], [To(c, CreateRoomOk(room))], b, [ToRoom(room, notice, Some(c))], Model());
      out := [Send(c, CreateRoomOk(room))] + b;
    }

    /** JOIN (server.py:166-200). */
    method EnterRoom(c: Session, fields: seq<string>) returns (out: seq<Send>)
      requires c in conns
      modifies this, c
      ensures conns == old(conns)
      ensures var o := JoinRoom(old(Model()), c, fields); Model() == o.t && Expands(out, o.msgs, Model())
    {
      if |fields| != 1 {
        ExpandsFail(Model(), c, BadFormat, "JOIN requires room name");
        return [Send(c, Error(BadFormat, "JOIN requires room name"))];
      }
      out := EnterNamedRoom(c, Strip(fields[0]));
    }

    method EnterNamedRoom(c: Session, room: string) returns (out: seq<Send>)
      requires c in conns
      modifies this, c
      ensures conns == old(conns)
      ensures var o := JoinNamed(old(Model()), c, room); Model() == o.t && Expands(out, o.msgs, Model())
    {
      if !Active(c.state) {
        ExpandsFail(Model(), c, InvalidState, "Need REGISTERED state");
        return [Send(c, Error(InvalidState, "Need REGISTERED state"))];
      }
      if c.state == InRoom && c.room == Some(room) {
        ExpandsTo(c, JoinOk(room), Model());
        return [Send(c, JoinOk(room))];
      }
      if room !in rooms {
        ExpandsFail(Model(), c, NoSuchRoom, "Room does not exist");
        return [Send(c, Error(NoSuchRoom, "Room does not exist"))];
      }
      out := JoinExisting(c, room);
    }

    /** A successful JOIN (server.py:180-200): the requester moves into the
        room, and the members of the room it left and of the room it entered
        are told. */
    method JoinExisting(c: Session, room: string) returns (out: seq<Send>)
      requires c in conns && room in rooms
      modifies this, c
      ensures conns == old(conns)
      ensures Model() == Enter(old(Model()), c, room)
      ensures Expands(out, JoinLines(c, room, old(c.room), old(c.nick)), Model())
    {
      var prev := c.room;
      var nick := c.nick;
      MoveInto(c, room);
      out := JoinNotices(c, room, prev, nick);
    }

    /** The lines of a successful JOIN, sent once the move is done. */
    method JoinNotices(c: Session, room: string, prev: Option<string>, nick: Option<string>) returns (out: seq<Send>)
      ensures Expands(out, JoinLines(c, room, prev, nick), Model())
    {
      var leftNotice := Left(Show(nick));
      var lb: seq<Send> := [];
      if Truthy(prev) && prev.value != room {
        lb := Broadcast(prev.value, leftNotice, Some(c));
      }
      var jb := Broadcast(room, Joined(Show(nick)), Some(c));
      JoinExpands(lb, jb, c, room, prev, nick, Model());
      out := [Send(c, JoinOk(room))] + lb + jb;
    }

    /** `c` leaves the member set of `room` and is REGISTERED without a room
        (server.py:220-224, 262-263, 271-272). */
    method MoveOut(c: Session, room: string)
      requires c in conns
      modifies this, c
      ensures conns == old(conns) && owner == old(owner) && nicks == old(nicks)
      ensures Model() == Vacate(old(Model()), c, room)
    {
      ghost var before := ConnsOf(conns);
      if room in rooms {
        rooms := rooms[room := rooms[room] - {c}];
      }
      c.room := None;
      c.state := Registered;
      ConnsOfUpdate(conns, c, before);
    }

    /** An owner named `leaver` who has left `room` hands it to a remaining
        member, or the room loses its owner entry (server.py:265-270,
        405-411). The ghost `pick` is the member chosen, whenever there is
        one. */
    method TransferIfOwner(room: string, leaver: Option<string>, dflt: Session) returns (ghost pick: Session)
      requires Members(rooms, room) <= conns
      modifies this
      ensures conns == old(conns) && rooms == old(rooms) && nicks == old(nicks)
      ensures owner == Handover(old(Model()), room, leaver, pick)
      ensures Members(rooms, room) != {} ==> pick in Members(rooms, room)
    {
      pick := dflt;
      if Lookup(owner, room) == leaver {
        var remaining := Members(rooms, room);
        if remaining != {} {
          var first :| first in remaining;
          pick := first;
          owner := owner[room := OrEmpty(first.nick)];
        } else {
          owner := owner - {room};
        }
      } else if Members(rooms, room) != {} {
        pick :| pick in Members(rooms, room);
      }
    }

    /** LEAVE (server.py:255-276). */
    method LeaveRoom(c: Session) returns (out: seq<Send>, ghost pick: Session)
      requires c in conns && MembersOpen()
      modifies this, c
      ensures conns == old(conns)
      ensures var o := Leave(old(Model()), c, pick); Model() == o.t && Expands(out, o.msgs, Model())
      ensures FairPick(old(Model()), c, pick)
    {
      pick := AnyPick(Model(), c);
      if c.state != InRoom || c.room.None? {
        ExpandsFail(Model(), c, NotInRoom, "You must be in a room");
        return [Send(c, Error(NotInRoom, "You must be in a room"))], pick;
      }
      out, pick := Depart(c, c.room.value);
    }

    /** A successful LEAVE (server.py:261-276). */
    method Depart(c: Session, room: string) returns (out: seq<Send>, ghost pick: Session)
      requires c in conns && Members(rooms, room) <= conns
      modifies this, c
      ensures conns == old(conns)
      ensures var v := Vacate(old(Model()), c, room);
        && Model() == v.(owner := Handover(v, room, old(c.nick), pick))
        && (Members(Model().rooms, room) != {} ==> pick in Members(Model().rooms, room))
      ensures Expands(out, [To(c, LeaveOk(room))] + [ToRoom(room, Left(Show(old(c.nick))), Some(c))], Model())
    {
      var nick := c.nick;
      MoveOut(c, room);
      pick := TransferIfOwner(room, nick, c);
      out := LeaveNotices(c, room, nick);
    }

    /** The lines of a successful LEAVE. */
    method LeaveNotices(c: Session, room: string, nick: Option<string>) returns (out: seq<Send>)
      ensures Expands(out, [To(c, LeaveOk(room))] + [ToRoom(room, Left(Show(nick)), Some(c))], Model())
    {
      var b := Broadcast(room, Left(Show(nick)), Some(c));
      ExpandsTo(c, LeaveOk(room), Model());
      ExpandsRoom(b, room, Left(Show(nick)), Some(c), Model());
      ExpandsAppend([Send(c, LeaveOk(room))], [To(c, LeaveOk(room))], b, [ToRoom(room, Left(Show(nick)), Some(c))], Model());
      out := [Send(c, LeaveOk(room))] + b;
    }

    /** DELETE_ROOM (server.py:202-253). */
    method RemoveRoom(c: Session) returns (out: seq<Send>, ghost pick: Session)
      requires c in conns && MembersOpen()
      modifies this, c
      ensures conns == old(conns)
      ensures var o := DeleteRoom(old(Model()), c, pick); Model() == o.t && Expands(out, o.msgs, Model())
      ensures FairPick(old(Model()), c, pick)
    {
      pick := AnyPick(Model(), c);
      if c.state != InRoom || c.room.None? {
        ExpandsFail(Model(), c, NotInRoom, "You must be in a room");
        return [Send(c, Error(NotInRoom, "You must be in a room"))], pick;
      }
      var room := c.room.value;
      if Lookup(owner, room) != c.nick {
        ExpandsFail(Model(), c, InvalidState, "Only room creator can delete this room");
        return [Send(c, Error(InvalidState, "Only room creator can delete this room"))], pick;
      }
      var others := Members(rooms, room) - {c};
      if others != {} {
        var target :| target in others;
        pick := target;
        out := HandOver(c, room, target);
      } else {
        out := Dissolve(c, room);
      }
    }

    /** DELETE_ROOM with other members present (server.py:216-225,
        237-243): the room goes to `target` and the requester leaves it. */
    method HandOver(c: Session, room: string, target: Session) returns (out: seq<Send>)
      requires c in conns && target in conns
      modifies this, c
      ensures conns == old(conns)
      ensures Model() == Vacate(old(Model()), c, room).(owner := old(owner)[room := OrEmpty(old(target.nick))])
      ensures var heir := OrEmpty(old(target.nick));
        Expands(out, [To(c, HandedTo(heir))] + [To(c, LeaveOk(room))] + [ToRoom(room, HandedOver(Show(old(c.nick)), heir), Some(c))], Model())
    {
      var heir := OrEmpty(target.nick);
      var nick := c.nick;
      MoveOut(c, room);
      owner := owner[room := heir];
      out := HandOverNotices(c, room, heir, nick);
    }

    /** The lines of a handover. */
    method HandOverNotices(c: Session, room: string, heir: string, nick: Option<string>) returns (out: seq<Send>)
      ensures Expands(out, [To(c, HandedTo(heir))] + [To(c, LeaveOk(room))] + [ToRoom(room, HandedOver(Show(nick), heir), Some(c))], Model())
    {
      var notice := HandedOver(Show(nick), heir);
      var b := Broadcast(room, notice, Some(c));
      ExpandsTo(c, HandedTo(heir), Model());
      ExpandsTo(c, LeaveOk(room), Model());
      ExpandsRoom(b, room, notice, Some(c), Model());
      ExpandsAppend([Send(c, HandedTo(heir))], [To(c, HandedTo(heir))], [Send(c, LeaveOk(room))], [To(c, LeaveOk(room))], Model());
      ExpandsAppend([Send(c, HandedTo(heir))] + [Send(c, LeaveOk(room))], [To(c, HandedTo(heir))] + [To(c, LeaveOk(room))],
        b, [ToRoom(room, notice, Some(c))], Model());
      out := [Send(c, HandedTo(heir))] + [Send(c, LeaveOk(room))] + b;
    }

    /** DELETE_ROOM with no other member (server.py:226-234, 245-252): the
        room and its owner entry go, and the requester, if it is a member,
        is REGISTERED again. The member loop of the source visits at most
        the requester, since no other member is present. */
    method Dissolve(c: Session, room: string) returns (out: seq<Send>)
      requires c in conns && Members(rooms, room) - {c} == {}
      modifies this, c
      ensures conns == old(conns)
      ensures c in Members(old(rooms), room) ==>
        && Model() == SetConn(CloseRoom(old(Model()), room), c, old(Model()).conns[c].(room := None, state := Registered))
        && Expands(out, [To(c, DeleteRoomOk(room))], Model())
      ensures c !in Members(old(rooms), room) ==> Model() == CloseRoom(old(Model()), room) && Expands(out, [], Model())
    {
      var member := c in Members(rooms, room);
      rooms := rooms - {room};
      owner := owner - {room};
      if member {
        ghost var before := ConnsOf(conns);
        c.room := None;
        c.state := Registered;
        ConnsOfUpdate(conns, c, before);
        out := [Send(c, DeleteRoomOk(room))];
        ExpandsTo(c, DeleteRoomOk(room), Model());
      } else {
        out := [];
        ExpandsNil(Model());
      }
    }

    /** QUIT (server.py:278-288); closing the socket is not modelled. */
    method QuitSession(c: Session) returns (out: seq<Send>)
      requires c in conns
      modifies c
      ensures var o := Quit(old(Model()), c); Model() == o.t && Expands(out, o.msgs, Model())
    {
      ghost var before := ConnsOf(conns);
      c.state := Terminated;
      ConnsOfUpdate(conns, c, before);
      out := [Send(c, Bye)];
      ExpandsTo(c, Bye, Model());
    }

    /** `handle_control` (server.py:99-291). */
    method HandleControl(c: Session, subtype: string, fields: seq<string>) returns (out: seq<Send>, ghost pick: Session)
      requires c in conns && MembersOpen()
      modifies this, c
      ensures conns == old(conns)
      ensures var o := Handlers.HandleControl(old(Model()), c, subtype, fields, pick);
        Model() == o.t && Expands(out, o.msgs, Model())
      ensures FairPick(old(Model()), c, pick)
    {
      pick := AnyPick(Model(), c);
      if subtype == "NICK" {
        out := SetNick(c, fields);
      } else if subtype == "CREATE_ROOM" {
        out := MakeRoom(c, fields);
      } else if subtype == "JOIN" {
        out := EnterRoom(c, fields);
      } else if subtype == "DELETE_ROOM" {
        out, pick := RemoveRoom(c);
      } else if subtype == "LEAVE" {
        out, pick := LeaveRoom(c);
      } else if subtype == "QUIT" {
        out := QuitSession(c);
      } else {
        ExpandsFail(Model(), c, UnknownSubtype, "Unknown control subtype: " + subtype);
        out := [Send(c, Error(UnknownSubtype, "Unknown control subtype: " + subtype))];
      }
    }

    /** `handle_chat` (server.py:294-330). */
    method HandleChat(c: Session, subtype: string, fields: seq<string>) returns (out: seq<Send>)
      requires c in conns
      ensures Expands(out, Handlers.HandleChat(Model(), c, subtype, fields), Model())
    {
      if c.state != InRoom {
        ExpandsTo(c, Error(NotInRoom, "You must be in a room"), Model());
        return [Send(c, Error(NotInRoom, "You must be in a room"))];
      }
      if subtype == "ROOM_MSG" {
        if |fields| != 1 {
          ExpandsTo(c, Error(BadFormat, "ROOM_MSG requires message"), Model());
          return [Send(c, Error(BadFormat, "ROOM_MSG requires message"))];
        }
        if c.room.None? {
          ExpandsTo(c, Error(NotInRoom, "No room assigned"), Model());
          return [Send(c, Error(NotInRoom, "No room assigned"))];
        }
        var room := c.room.value;
        out := Broadcast(room, RoomMsg(room, Show(c.nick), fields[0]), None);
        ExpandsRoom(out, room, RoomMsg(room, Show(c.nick), fields[0]), None, Model());
      } else if subtype == "DM" {
        if |fields| != 2 {
          ExpandsTo(c, Error(BadFormat, "DM requires toNick and message"), Model());
          return [Send(c, Error(BadFormat, "DM requires toNick and message"))];
        }
        var toNick := fields[0];
        if toNick !in nicks {
          ExpandsTo(c, Error(NoSuchUser, "No such user"), Model());
          return [Send(c, Error(NoSuchUser, "No such user"))];
        }
        var target := nicks[toNick];
        var dm := Dm(Show(c.nick), fields[1]);
        ExpandsTo(target, dm, Model());
        ExpandsTo(c, DmOk(toNick), Model());
        ExpandsAppend([Send(target, dm)], [To(target, dm)], [Send(c, DmOk(toNick))], [To(c, DmOk(toNick))], Model());
        out := [Send(target, dm)] + [Send(c, DmOk(toNick))];
      } else {
        ExpandsTo(c, Error(UnknownSubtype, "Unknown chat subtype: " + subtype), Model());
        out := [Send(c, Error(UnknownSubtype, "Unknown chat subtype: " + subtype))];
      }
    }

    /** The names gathered for LIST_USER (server.py:341-343): the nickname
        of every named member of `room`, each once, in the order of the
        member set. */
    method MemberNames(room: Option<string>) returns (names: seq<string>)
      requires Valid()
      ensures Lists(names, RoomNames(Model(), room))
    {
      ValidMembersOpen();
      var members := if room.Some? then Members(rooms, room.value) else {};
      var todo := members;
      ghost var done: set<Session> := {};
      names := [];
      while todo != {}
        invariant done + todo == members && done !! todo
        invariant Lists(names, NamesIn(Model(), done))
        decreases todo
      {
        var m :| m in todo;
        NamesAdd(Model(), done, m);
        if m.nick.Some? {
          ListsAdd(names, NamesIn(Model(), done), m.nick.value);
          names := names + [m.nick.value];
        }
        todo := todo - {m};
        done := done + {m};
      }
    }

    /** The names gathered for LIST_ALL (server.py:354-355): every key of
        the nickname table whose connection is REGISTERED or IN_ROOM, each
        once, in the order of the table. */
    method ActiveNicks() returns (names: seq<string>)
      requires Valid()
      ensures Lists(names, ActiveNames(Model()))
    {
      var todo := nicks.Keys;
      ghost var done: set<string> := {};
      names := [];
      while todo != {}
        invariant done + todo == nicks.Keys && done !! todo
        invariant Lists(names, ActiveIn(Model(), done))
        decreases todo
      {
        var n :| n in todo;
        if Active(nicks[n].state) {
          ListsAdd(names, ActiveIn(Model(), done), n);
          names := names + [n];
        }
        assert ActiveIn(Model(), done + {n}) ==
          ActiveIn(Model(), done) + (if Active(nicks[n].state) then {n} else {});
        todo := todo - {n};
        done := done + {n};
      }
    }

    /** `handle_info` (server.py:333-361). */
    method HandleInfo(c: Session, subtype: string, fields: seq<string>) returns (out: seq<Send>)
      requires c in conns && Valid()
      ensures Expands(out, Handlers.HandleInfo(Model(), c, subtype, fields), Model())
    {
      if subtype == "LIST_USER" {
        if fields != [] {
          ExpandsTo(c, Error(BadFormat, "LIST_USER takes no args"), Model());
          return [Send(c, Error(BadFormat, "LIST_USER takes no args"))];
        }
        if c.state != InRoom {
          ExpandsTo(c, Error(NotInRoom, "You must be in a room"), Model());
          return [Send(c, Error(NotInRoom, "You must be in a room"))];
        }
        var names := MemberNames(c.room);
        out := [Send(c, UserList(Show(c.room), names))];
        ExpandsOne(out, RoomUsers(c, c.room), Model());
      } else if subtype == "LIST_ALL" {
        if fields != [] {
          ExpandsTo(c, Error(BadFormat, "LIST_ALL takes no args"), Model());
          return [Send(c, Error(BadFormat, "LIST_ALL takes no args"))];
        }
        if !Active(c.state) {
          ExpandsTo(c, Error(NeedNick, "Register nick first"), Model());
          return [Send(c, Error(NeedNick, "Register nick first"))];
        }
        var names := ActiveNicks();
        out := [Send(c, UserListAll(names))];
        ExpandsOne(out, AllUsers(c), Model());
      } else {
        ExpandsTo(c, Error(UnknownSubtype, "Unknown info subtype: " + subtype), Model());
        out := [Send(c, Error(UnknownSubtype, "Unknown info subtype: " + subtype))];
      }
    }

    /** `process_message` (server.py:364-396): one received line, routed and
        handled; the tables stay consistent. */
    method ProcessMessage(c: Session, line: string) returns (out: seq<Send>, ghost pick: Session)
      requires Valid() && c in conns
      modifies this, c
      ensures Valid() && conns == old(conns)
      ensures var o := Handlers.ProcessMessage(old(Model()), c, line, pick);
        Model() == o.t && Expands(out, o.msgs, Model())
      ensures FairPick(old(Model()), c, pick)
    {
      ghost var t := Model();
      var d := Route(line, c.state);
      out, pick := Dispatch(c, d);
      ProcessKeepsGood(t, c, line, pick);
    }

    /** What a routed line does (server.py:372-396). */
    method Dispatch(c: Session, d: Dispatch) returns (out: seq<Send>, ghost pick: Session)
      requires Valid() && c in conns
      modifies this, c
      ensures conns == old(conns)
      ensures var o := Dispatched(old(Model()), c, d, pick); Model() == o.t && Expands(out, o.msgs, Model())
      ensures FairPick(old(Model()), c, pick)
    {
      ValidMembersOpen();
      pick := AnyPick(Model(), c);
      match d
      case Ignore =>
        out := [];
        ExpandsNil(Model());
      case Reject(code, detail) =>
        out := [Send(c, Error(code, detail))];
        ExpandsFail(Model(), c, code, detail);
      case Control(subtype, fields) =>
        out, pick := HandleControl(c, subtype, fields);
      case Chat(subtype, fields) =>
        out := HandleChat(c, subtype, fields);
      case Query(subtype, fields) =>
        out := HandleInfo(c, subtype, fields);
    }

    /** `cleanup_client` (server.py:399-427): the connection leaves its room
        as LEAVE does, gives up its nickname and is forgotten; the tables
        stay consistent. Closing the socket is not modelled. */
    method CleanupClient(c: Session) returns (out: seq<Send>, ghost pick: Session)
      requires Valid() && c in conns
      modifies this
      ensures Valid() && conns == old(conns) - {c}
      ensures var o := Handlers.CleanupClient(old(Model()), c, pick);
        Model() == o.t && Expands(out, o.msgs, Model())
      ensures FairPick(old(Model()), c, pick)
    {
      ghost var t := Model();
      ValidMembersOpen();
      var notify;
      notify, pick := Forget(c);
      if notify {
        out := Broadcast(c.room.value, Left(Show(c.nick)), Some(c));
        ExpandsRoom(out, c.room.value, Left(Show(c.nick)), Some(c), Model());
      } else {
        out := [];
        ExpandsNil(Model());
      }
      CleanupKeepsGood(t, c, pick);
    }

    /** The table updates of `cleanup_client` (server.py:402-419); `notify`
        says whether the connection left a room. */
    method Forget(c: Session) returns (notify: bool, ghost pick: Session)
      requires c in conns && MembersOpen()
      modifies this
      ensures conns == old(conns) - {c}
      ensures Model() == Handlers.CleanupClient(old(Model()), c, pick).t
      ensures notify <==> Truthy(c.room) && c in Members(old(rooms), c.room.value)
      ensures FairPick(old(Model()), c, pick)
    {
      ghost var t := Model();
      notify, pick := LeaveOnClose(c);
      ghost var t1 := Model();
      if c.nick.Some? && c.nick.value in nicks {
        nicks := nicks - {c.nick.value};
      }
      ConnsOfRemove(conns, c);
      conns := conns - {c};
      assert Model() == Tables(t.conns - {c}, Dropped(t.nicks, t.conns[c].nick), t1.rooms, t1.owner);
    }

    /** The room part of `cleanup_client` (server.py:402-411). */
    method LeaveOnClose(c: Session) returns (notify: bool, ghost pick: Session)
      requires c in conns && MembersOpen()
      modifies this
      ensures conns == old(conns) && nicks == old(nicks)
      ensures notify <==> Truthy(c.room) && c in Members(old(rooms), c.room.value)
      ensures notify ==> var t1 := old(Model()).(rooms := Discard(old(rooms), c.room.value, c));
        rooms == t1.rooms && owner == Handover(t1, c.room.value, c.nick, pick)
      ensures !notify ==> rooms == old(rooms) && owner == old(owner)
      ensures FairPick(old(Model()), c, pick)
    {
      pick := AnyPick(Model(), c);
      var room := c.room;
      notify := false;
      if Truthy(room) && c in Members(rooms, room.value) {
        rooms := rooms[room.value := rooms[room.value] - {c}];
        pick := TransferIfOwner(room.value, c.nick, c);
        notify := true;
      }
    }

    /** A new connection is registered before its first line
        (server.py:432-434). */
    method Connect() returns (c: Session)
      requires Valid()
      modifies this
      ensures fresh(c) && Valid() && conns == old(conns) + {c}
      ensures Model() == Handlers.Connect(old(Model()), c)
    {
      ghost var t := Model();
      c := new Session();
      ConnsOfAdd(conns, c);
      conns := conns + {c};
      ConnectKeepsGood(t, c);
    }

    /** One line of a connection handled, extending the history `lines`
        of what it has sent so far. */
    method HandleNext(c: Session, line: string, ghost t0: Tables, ghost lines: seq<string>,
                      ghost picks: seq<Session>, ghost parts: seq<seq<Send>>)
      returns (o: seq<Send>, ghost pick: Session)
      requires Valid() && c in conns && c in t0.conns && |picks| == |lines|
      requires Model() == Run(t0, c, lines, picks) && Handled(t0, c, lines, picks, parts)
      modifies this, c
      ensures Valid() && conns == old(conns)
      ensures Model() == Run(t0, c, lines + [line], picks + [pick])
      ensures Handled(t0, c, lines + [line], picks + [pick], parts + [o])
    {
      o, pick := ProcessMessage(c, line);
      HandledStep(t0, c, lines, picks, parts, line, pick, o);
    }

    /** The inner loop of `handle_client` (server.py:449-450): every
        complete line of `buffer` is cut off the front and handled, in order,
        whatever the state of the connection (a QUIT does not stop it); the
        incomplete tail is left. The ghost parameters are the history of the
        connection since `t0`, which the lines of `buffer` extend. */
    method Drain(c: Session, buffer: string, ghost t0: Tables, ghost lines0: seq<string>,
                 ghost picks0: seq<Session>, ghost parts0: seq<seq<Send>>)
      returns (rest: string, out: seq<Send>, ghost lines: seq<string>, ghost picks: seq<Session>, ghost parts: seq<seq<Send>>)
      requires Valid() && c in conns && c in t0.conns && |picks0| == |lines0|
      requires Model() == Run(t0, c, lines0, picks0) && Handled(t0, c, lines0, picks0, parts0)
      modifies this, c
      ensures Valid() && conns == old(conns)
      ensures lines == lines0 + Frame(buffer).lines && rest == Frame(buffer).rest
      ensures |picks| == |lines| && Model() == Run(t0, c, lines, picks)
      ensures Handled(t0, c, lines, picks, parts) && Flatten(parts) == Flatten(parts0) + out
    {
      rest := buffer;
      lines, picks, parts := lines0, picks0, parts0;
      out := [];
      while '\n' in rest
        invariant Valid() && c in conns && conns == old(conns)
        invariant lines0 + Frame(buffer).lines == lines + Frame(rest).lines && Frame(rest).rest == Frame(buffer).rest
        invariant |picks| == |lines| && Model() == Run(t0, c, lines, picks)
        invariant Handled(t0, c, lines, picks, parts) && Flatten(parts) == Flatten(parts0) + out
        decreases |rest|
      {
        var p := SplitOnce(rest, '\n');
        FrameStep(rest);
        Assoc(lines, [p[0]], Frame(p[1]).lines);
        rest := p[1];
        var o;
        ghost var pick;
        o, pick := HandleNext(c, p[0], t0, lines, picks, parts);
        FlattenStep(parts, o);
        Assoc(Flatten(parts0), out, o);
        lines, picks, parts := lines + [p[0]], picks + [pick], parts + [o];
        out := out + o;
      }
      FrameNoNewline(rest);
      Assoc(lines0, Frame(buffer).lines, []);
      Assoc(lines, [], []);
    }

    /** `handle_client` (server.py:430-456): a new connection reads the
        chunks its socket delivers, `chunks` in order, until an empty one
        (the peer closed) or the end, or until it is TERMINATED, and is then
        cleaned up. `used` counts the chunks appended to the buffer; the
        ghost `lines` are the lines handled, `parts` what each of them sent
        and `closing` what the cleanup sent. The connection is gone
        afterwards; what its lines did to the rooms (a room it created, a
        new owner) stays. */
    method HandleClient(chunks: seq<string>)
      returns (c: Session, out: seq<Send>, used: nat, ghost lines: seq<string>, ghost picks: seq<Session>,
               ghost parts: seq<seq<Send>>, closing: seq<Send>, ghost pick: Session)
      requires Valid()
      modifies this
      ensures fresh(c) && Valid() && conns == old(conns)
      ensures used <= |chunks| && lines == Frame(Concat(chunks[..used])).lines
      ensures used < |chunks| ==> chunks[used] == [] || c.state == Terminated
      ensures var t1 := Handlers.Connect(old(Model()), c);
        && c in t1.conns && |picks| == |lines| && Handled(t1, c, lines, picks, parts)
        && var t2 := Run(t1, c, lines, picks);
           var o := Handlers.CleanupClient(t2, c, pick);
           && FairPick(t2, c, pick) && Model() == o.t && Expands(closing, o.msgs, Model())
           && out == Flatten(parts) + closing
    {
      ghost var before := conns;
      c := Connect();
      out, used, lines, picks, parts := Receive(c, chunks);
      closing, pick := CleanupClient(c);
      out := out + closing;
      assert c !in before;
      AddRemove(before, c);
    }

    /** The receive loop of `handle_client` (server.py:439-450): every
        complete line of the text received is handled, in order, even after
        QUIT; the lines handled are exactly the complete lines of the chunks
        used, and reading stops at the end, at an empty chunk or once the
        connection is TERMINATED. */
    method Receive(c: Session, chunks: seq<string>)
      returns (out: seq<Send>, used: nat, ghost lines: seq<string>, ghost picks: seq<Session>, ghost parts: seq<seq<Send>>)
      requires Valid() && c in conns
      modifies this, c
      ensures Valid() && conns == old(conns)
      ensures used <= |chunks| && lines == Frame(Concat(chunks[..used])).lines
      ensures used < |chunks| ==> chunks[used] == [] || c.state == Terminated
      ensures c in old(Model()).conns && |picks| == |lines|
      ensures Model() == Run(old(Model()), c, lines, picks)
      ensures Handled(old(Model()), c, lines, picks, parts) && out == Flatten(parts)
    {
      ghost var t0 := Model();
      var buffer := "";
      used := 0;
      lines, picks, parts := [], [], [];
      out := [];
      while c.state != Terminated
        invariant Valid() && c in conns && conns == old(conns)
        invariant Received(chunks, used, lines, buffer)
        invariant |picks| == |lines| && Model() == Run(t0, c, lines, picks)
        invariant Handled(t0, c, lines, picks, parts) && out == Flatten(parts)
        decreases |chunks| - used
      {
        if used == |chunks| || chunks[used] == [] {
          break;
        }
        var o;
        ghost var lines1, buffer1 := lines, buffer;
        buffer, o, lines, picks, parts := Drain(c, buffer + chunks[used], t0, lines, picks, parts);
        FrameMore(chunks, used, lines1, buffer1, lines[|lines1|..], buffer);
        used := used + 1;
        out := out + o;
      }
      ReceivedFrame(chunks, used, lines, buffer);
    }
  }
}
