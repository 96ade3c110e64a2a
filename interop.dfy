/** The client and the server read each other's lines as intended: every
    line the client builds reaches the server handler its command names,
    with the command's tail as fields, and every line the server renders is
    displayed and mirrored by the client as its kind says. */
module Interop {
  import opened Text
  import opened Protocol
  import opened Tables
  import opened Handlers
  import opened Client

  // ---------------------------------------------------------------------------
  // Client lines at the server's dispatcher

  /** `a|rest` where `a` has no `|` splits into `a` and the pieces of `rest`. */
  lemma PipeOne(a: string, rest: string)
    requires '|' !in a
    ensures Split(a + "|" + rest, '|') == [a] + Split(rest, '|')
  {
    assert a + "|" + rest == a + ['|'] + rest;
    SplitCons(a, rest, '|');
  }

  /** `a|b|rest` where `a` and `b` have no `|`. */
  lemma PipeTwo(a: string, b: string, rest: string)
    requires '|' !in a && '|' !in b
    ensures Split(a + "|" + b + "|" + rest, '|') == [a, b] + Split(rest, '|')
  {
    Regroup5(a, "|", b, "|", rest);
    PipeOne(a, b + "|" + rest);
    PipeOne(b, rest);
  }

  /** The dispatcher on a line made of a one-digit TYPE, a SUBTYPE and the
      rest of the line after a second `|`. */
  lemma RouteBuilt(d: char, sub: string, rest: string, st: State)
    requires IsDigit(d) && sub != [] && '|' !in sub
    requires rest != [] && !IsSpace(rest[|rest| - 1])
    ensures Route([d] + "|" + sub + "|" + rest, st) ==
      RouteTyped([d], Some(d as int - '0' as int), sub, Split(rest, '|'), st)
  {
    var line := [d] + "|" + sub + "|" + rest;
    BuiltLine(d, sub, rest);
    ParseDigit(d);
    RouteOnPieces(line, [d], sub, Split(rest, '|'), st);
  }

  /** `d|sub|rest` is its own strip and splits into `d`, `sub` and the
      pieces of `rest`. */
  lemma BuiltLine(d: char, sub: string, rest: string)
    requires IsDigit(d) && '|' !in sub
    requires rest != [] && !IsSpace(rest[|rest| - 1])
    ensures var line := [d] + "|" + sub + "|" + rest;
      line != [] && Strip(line) == line && Split(line, '|') == [[d], sub] + Split(rest, '|')
  {
    var tail := sub + "|" + rest;
    assert tail[|tail| - 1] == rest[|rest| - 1];
    BuiltStrip(d, tail);
    Regroup5([d], "|", sub, "|", rest);
    PipeTwo([d], sub, rest);
  }

  /** The dispatcher on a line made of a one-digit TYPE and a SUBTYPE only. */
  lemma RouteBare(d: char, sub: string, st: State)
    requires IsDigit(d) && sub != [] && '|' !in sub && !IsSpace(sub[|sub| - 1])
    ensures Route([d] + "|" + sub, st) == RouteTyped([d], Some(d as int - '0' as int), sub, [], st)
  {
    var line := [d] + "|" + sub;
    BuiltStrip(d, sub);
    PipeOne([d], sub);
    SplitNone(sub, '|');
    assert Split(line, '|') == [[d], sub] + [];
    ParseDigit(d);
    RouteOnPieces(line, [d], sub, [], st);
  }

  /** The dispatcher on a stripped line from its pieces. */
  lemma RouteOnPieces(line: string, head: string, sub: string, fields: seq<string>, st: State)
    requires line != [] && Strip(line) == line && Split(line, '|') == [head, sub] + fields
    ensures Route(line, st) == RouteTyped(head, ParseInt(head), sub, fields, st)
  {
    var parts := [head, sub] + fields;
    RouteUnfold(line, st);
    assert parts[0] == head && parts[1] == sub && parts[2..] == fields;
  }

  /** A line of a digit, `|` and text ending in a non-space is its own
      strip. */
  lemma BuiltStrip(d: char, rest: string)
    requires IsDigit(d) && rest != [] && !IsSpace(rest[|rest| - 1])
    ensures var line := [d] + "|" + rest; line != [] && Strip(line) == line
  {
    var line := [d] + "|" + rest;
    assert line[0] == d && line[|line| - 1] == rest[|rest| - 1];
    StripKeeps(line);
  }

  /** A line `prefix + tail` whose prefix is a digit, `|`, a SUBTYPE and `|`. */
  lemma BuiltReaches(prefix: string, d: char, sub: string, tail: string, st: State)
    requires prefix == [d] + "|" + sub + "|"
    requires IsDigit(d) && sub != [] && '|' !in sub
    requires tail != [] && !IsSpace(tail[|tail| - 1])
    ensures Route(prefix + tail, st) == RouteTyped([d], Some(d as int - '0' as int), sub, Split(tail, '|'), st)
  {
    RouteBuilt(d, sub, tail, st);
  }

  /** A line that is a digit, `|` and a SUBTYPE. */
  lemma BareReaches(line: string, d: char, sub: string, st: State)
    requires line == [d] + "|" + sub
    requires IsDigit(d) && sub != [] && '|' !in sub && !IsSpace(sub[|sub| - 1])
    ensures Route(line, st) == RouteTyped([d], Some(d as int - '0' as int), sub, [], st)
  {
    RouteBare(d, sub, st);
  }

  /** The handler and fields a console command asks for: the SUBTYPE its
      keyword names, and as fields the `|`-separated pieces of what it
      passes on. */
  function Intended(op: string, tail: string): Dispatch
  {
    if op == "/nick" then Control("NICK", Split(tail, '|'))
    else if op == "/create" then Control("CREATE_ROOM", Split(tail, '|'))
    else if op == "/join" then Control("JOIN", Split(tail, '|'))
    else if op == "/delete" then Control("DELETE_ROOM", [])
    else if op == "/quit" then Control("QUIT", [])
    else if op == "/leave" then Control("LEAVE", [])
    else if op == "/dm" then
      var q := SplitOnce(tail, ' ');
      Chat("DM", if |q| == 2 then Split(q[0] + "|" + q[1], '|') else [])
    else if op == "/list" then Query("LIST_USER", if tail == "" then [] else Split(tail, '|'))
    else if op == "/listall" then Query("LIST_ALL", if tail == "" then [] else Split(tail, '|'))
    else Ignore
  }

  /** A tail as `build_protocol_line` cuts it from a stripped input: empty,
      or ending in a non-space. */
  predicate TailShape(tail: string)
  {
    tail == [] || !IsSpace(tail[|tail| - 1])
  }

  /** Every command line reaches the handler the command names, with the
      fields it intends; a CONNECTED client gets through with `/nick` in
      the same way. */
  lemma CommandReachesHandler(op: string, tail: string, st: State)
    requires CommandLine(op, tail).Some? && TailShape(tail)
    requires st != Connected || op == "/nick"
    ensures Route(CommandLine(op, tail).value, st) == Intended(op, tail)
  {
    if op == "/nick" || op == "/create" || op == "/join" {
      NamedReachesHandler(op, tail, st);
    } else if op == "/delete" || op == "/quit" || op == "/leave" {
      PlainReachesHandler(op, tail, st);
    } else if op == "/dm" {
      DmReachesHandler(tail, st);
    } else {
      ListReachesHandler(op, tail, st);
    }
  }

  lemma NamedReachesHandler(op: string, tail: string, st: State)
    requires op == "/nick" || op == "/create" || op == "/join"
    requires tail != "" && TailShape(tail)
    requires st != Connected || op == "/nick"
    ensures CommandLine(op, tail).Some?
    ensures Route(CommandLine(op, tail).value, st) == Intended(op, tail)
  {
    if op == "/nick" {
      ControlReaches("0|NICK|", "NICK", tail, st);
    } else if op == "/create" {
      ControlReaches("0|CREATE_ROOM|", "CREATE_ROOM", tail, st);
    } else {
      ControlReaches("0|JOIN|", "JOIN", tail, st);
    }
  }

  /** A control line `0|sub|tail`. */
  lemma ControlReaches(prefix: string, sub: string, tail: string, st: State)
    requires prefix == ['0'] + "|" + sub + "|"
    requires sub != [] && '|' !in sub && tail != [] && !IsSpace(tail[|tail| - 1])
    requires st != Connected || sub == "NICK"
    ensures Route(prefix + tail, st) == Control(sub, Split(tail, '|'))
  {
    BuiltReaches(prefix, '0', sub, tail, st);
  }

  lemma PlainReachesHandler(op: string, tail: string, st: State)
    requires op == "/delete" || op == "/quit" || op == "/leave"
    requires st != Connected
    ensures CommandLine(op, tail).Some?
    ensures Route(CommandLine(op, tail).value, st) == Intended(op, tail)
  {
    if op == "/delete" {
      PlainReaches(op, tail, "0|DELETE_ROOM", "DELETE_ROOM", st);
    } else if op == "/quit" {
      PlainReaches(op, tail, "0|QUIT", "QUIT", st);
    } else {
      PlainReaches(op, tail, "0|LEAVE", "LEAVE", st);
    }
  }

  /** A command whose line is `0|sub` whatever its tail. */
  lemma PlainReaches(op: string, tail: string, line: string, sub: string, st: State)
    requires CommandLine(op, tail) == Some(line) && Intended(op, tail) == Control(sub, [])
    requires line == ['0'] + "|" + sub
    requires sub != [] && '|' !in sub && !IsSpace(sub[|sub| - 1]) && st != Connected
    ensures Route(CommandLine(op, tail).value, st) == Intended(op, tail)
  {
    BareReaches(line, '0', sub, st);
  }

  /** A control line `0|sub`. */
  lemma BareControlReaches(line: string, sub: string, st: State)
    requires line == ['0'] + "|" + sub
    requires sub != [] && '|' !in sub && !IsSpace(sub[|sub| - 1]) && st != Connected
    ensures Route(line, st) == Control(sub, [])
  {
    BareReaches(line, '0', sub, st);
  }

  lemma DmReachesHandler(tail: string, st: State)
    requires CommandLine("/dm", tail).Some? && TailShape(tail) && st != Connected
    ensures Route(CommandLine("/dm", tail).value, st) == Intended("/dm", tail)
  {
    var q := SplitOnce(tail, ' ');
    var rest := q[0] + "|" + q[1];
    assert rest[|rest| - 1] == if q[1] == [] then '|' else tail[|tail| - 1];
    assert "1|DM|" + q[0] + "|" + q[1] == "1|DM|" + rest;
    BuiltReaches("1|DM|", '1', "DM", rest, st);
  }

  lemma ListReachesHandler(op: string, tail: string, st: State)
    requires op == "/list" || op == "/listall"
    requires TailShape(tail) && st != Connected
    ensures CommandLine(op, tail).Some?
    ensures Route(CommandLine(op, tail).value, st) == Intended(op, tail)
  {
    if op == "/list" {
      QueryReaches(op, tail, "2|LIST_USER", "LIST_USER", st);
    } else {
      QueryReaches(op, tail, "2|LIST_ALL", "LIST_ALL", st);
    }
  }

  /** A query command whose line is `2|sub`, followed by `|tail` when the
      tail is not empty. */
  lemma QueryReaches(op: string, tail: string, prefix: string, sub: string, st: State)
    requires CommandLine(op, tail) == Some(prefix + (if tail != "" then "|" + tail else ""))
    requires Intended(op, tail) == Query(sub, if tail == "" then [] else Split(tail, '|'))
    requires prefix == ['2'] + "|" + sub
    requires sub != [] && '|' !in sub && !IsSpace(sub[|sub| - 1]) && TailShape(tail) && st != Connected
    ensures Route(CommandLine(op, tail).value, st) == Intended(op, tail)
  {
    if tail == "" {
      assert prefix + "" == prefix;
      RouteBare('2', sub, st);
    } else {
      Regroup3(prefix, "|", tail);
      RouteBuilt('2', sub, tail, st);
    }
  }

  /** Input that is not a command reaches ROOM_MSG with the trimmed text's
      `|`-pieces as fields: as its single field exactly when it holds no
      `|`, so a text with a `|` in it draws BAD_FORMAT. */
  lemma SayReachesRoomMsg(cmd: string, st: State)
    requires !AllSpace(cmd) && !StartsWith(Strip(cmd), "/") && st != Connected
    ensures BuildProtocolLine(cmd).Some?
    ensures Route(BuildProtocolLine(cmd).value, st) == Chat("ROOM_MSG", Split(Strip(cmd), '|'))
    ensures |Split(Strip(cmd), '|')| == 1 <==> '|' !in Strip(cmd)
  {
    BuildPlain(cmd);
    var c := Strip(cmd);
    StripBlank(cmd);
    BuiltReaches("1|ROOM_MSG|", '1', "ROOM_MSG", c, st);
    SplitSingle(c, '|');
  }

  /** From console to tables: a CONNECTED client that types `/nick` and a
      free name without `|` or surrounding whitespace is registered under
      exactly that name, and its own copy then holds that name. */
  lemma RegisterEndToEnd(t: Tables, c: Session, cmd: string, kw: string, name: string, pick: Session)
    requires c in t.conns && t.conns[c].state == Connected
    requires |kw| >= 1 && kw[0] == '/' && ' ' !in kw && Lower(kw) == "/nick"
    requires Strip(cmd) == kw + " " + name
    requires name != "" && '|' !in name && Strip(name) == name && name !in t.nicks
    ensures BuildProtocolLine(cmd).Some?
    ensures var o := ProcessMessage(t, c, BuildProtocolLine(cmd).value, pick);
      && o.msgs == [To(c, NickOk(name))]
      && o.t == Renaming(t, c, name)
      && c in o.t.conns && o.t.conns[c].nick == Some(name) && o.t.conns[c].state == Registered
      && Mirrored(View(None, None), Render(NickOk(name))) == View(Some(name), None)
  {
    RegisterRoutes(cmd, kw, name);
    RegisterHandled(t, c, BuildProtocolLine(cmd).value, name, pick);
    MirrorAck(View(None, None), NickOk(name));
  }

  /** The `/nick` input reaches NICK with the name as its one field. */
  lemma RegisterRoutes(cmd: string, kw: string, name: string)
    requires |kw| >= 1 && kw[0] == '/' && ' ' !in kw && Lower(kw) == "/nick"
    requires Strip(cmd) == kw + " " + name
    requires name != "" && '|' !in name && Strip(name) == name
    ensures BuildProtocolLine(cmd).Some?
    ensures Route(BuildProtocolLine(cmd).value, Connected) == Control("NICK", [name])
  {
    BuildCommand(cmd, kw, name);
    assert name[|name| - 1] == Strip(name)[|Strip(name)| - 1];
    NamedReachesHandler("/nick", name, Connected);
    SplitNone(name, '|');
  }

  /** NICK with a free, trimmed name renames a CONNECTED session. */
  lemma RegisterHandled(t: Tables, c: Session, line: string, name: string, pick: Session)
    requires c in t.conns && t.conns[c].state == Connected
    requires Route(line, Connected) == Control("NICK", [name])
    requires name != "" && Strip(name) == name && name !in t.nicks
    ensures var o := ProcessMessage(t, c, line, pick);
      && o.msgs == [To(c, NickOk(name))]
      && o.t == Renaming(t, c, name)
      && c in o.t.conns && o.t.conns[c].nick == Some(name) && o.t.conns[c].state == Registered
  {
  }

  // ---------------------------------------------------------------------------
  // Server lines at the client

  /** The pieces of a room message line. */
  lemma RoomMsgPieces(room: string, sender: string, text: string)
    requires '|' !in room && '|' !in sender
    ensures Split(Render(RoomMsg(room, sender, text)), '|') == ["ROOM_MSG", room, sender] + Split(text, '|')
  {
    RenderPieces(RoomMsg(room, sender, text));
    PipeTwo(room, sender, text);
  }

  /** A room message is shown with its room and sender, and its text whole,
      `|` included. */
  lemma ShowRoomMsg(room: string, sender: string, text: string)
    requires '|' !in room && '|' !in sender
    ensures FormatServerLine(Render(RoomMsg(room, sender, text))) == "[" + room + "] " + sender + ": " + text
  {
    RoomMsgPieces(room, sender, text);
    FormatRoomMsg(Render(RoomMsg(room, sender, text)), room, sender, text);
  }

  lemma FormatRoomMsg(line: string, room: string, sender: string, text: string)
    requires Split(line, '|') == ["ROOM_MSG", room, sender] + Split(text, '|')
    ensures FormatServerLine(line) == "[" + room + "] " + sender + ": " + text
  {
    var parts := Split(line, '|');
    assert parts[0] == "ROOM_MSG" && parts[1] == room && parts[2] == sender && parts[3..] == Split(text, '|');
    SplitJoin(text, '|');
  }

  /** The pieces of a DM line. */
  lemma DmPieces(sender: string, text: string)
    requires '|' !in sender
    ensures Split(Render(Dm(sender, text)), '|') == ["DM", sender] + Split(text, '|')
  {
    RenderPieces(Dm(sender, text));
    PipeOne(sender, text);
  }

  /** A DM is shown with its sender and its text whole. */
  lemma ShowDm(sender: string, text: string)
    requires '|' !in sender
    ensures FormatServerLine(Render(Dm(sender, text))) == "[DM] " + sender + ": " + text
  {
    DmPieces(sender, text);
    FormatDm(Render(Dm(sender, text)), sender, text);
  }

  lemma FormatDm(line: string, sender: string, text: string)
    requires Split(line, '|') == ["DM", sender] + Split(text, '|')
    ensures FormatServerLine(line) == "[DM] " + sender + ": " + text
  {
    var parts := Split(line, '|');
    assert parts[0] == "DM" && parts[1] == sender && parts[2..] == Split(text, '|');
    SplitJoin(text, '|');
  }

  /** The pieces of a notice line. */
  lemma NoticePieces(r: Reply)
    requires IsNotice(r)
    ensures Split(Render(r), '|') == ["SYSTEM", "INFO"] + Split(NoticeText(r), '|')
  {
    NoticeKindBody(r);
    RenderPieces(r);
    PipeOne("INFO", NoticeText(r));
  }

  lemma NoticeKindBody(r: Reply)
    requires IsNotice(r)
    ensures Kind(r) == "SYSTEM" && Body(r) == "INFO" + "|" + NoticeText(r)
  {
    assert "INFO|" == "INFO" + "|";
  }

  /** Every notice the server sends is shown as a SYSTEM line of level INFO
      with its message whole. */
  lemma ShowNotice(r: Reply)
    requires IsNotice(r)
    ensures FormatServerLine(Render(r)) == "[SYSTEM/INFO] " + NoticeText(r)
  {
    NoticePieces(r);
    FormatNotice(Render(r), NoticeText(r));
  }

  lemma FormatNotice(line: string, m: string)
    requires Split(line, '|') == ["SYSTEM", "INFO"] + Split(m, '|')
    ensures FormatServerLine(line) == "[SYSTEM/INFO] " + m
  {
    var parts := Split(line, '|');
    assert parts[0] == "SYSTEM" && parts[1] == "INFO" && parts[2..] == Split(m, '|');
    SplitJoin(m, '|');
  }

  /** The pieces of a room's user list line. */
  lemma UserListPieces(room: string, users: seq<string>)
    requires '|' !in room && forall i :: 0 <= i < |users| ==> '|' !in users[i]
    ensures Split(Render(UserList(room, users)), '|') == ["USER_LIST", room, Join(users, ',')]
  {
    var names := Join(users, ',');
    JoinFree(users, ',', '|');
    TwoFieldPieces(UserList(room, users), "USER_LIST", room, names);
  }

  /** A reply of a kind and two `|`-free fields. */
  lemma TwoFieldPieces(r: Reply, kind: string, a: string, b: string)
    requires Kind(r) == kind && Body(r) == a + "|" + b && '|' !in a && '|' !in b
    ensures Split(Render(r), '|') == [kind, a, b]
  {
    RenderPieces(r);
    PipeOne(a, b);
    SplitNone(b, '|');
  }

  /** A reply of a kind and one `|`-free field. */
  lemma OneFieldPieces(r: Reply, kind: string, a: string)
    requires Kind(r) == kind && Body(r) == a && '|' !in a
    ensures Split(Render(r), '|') == [kind, a]
  {
    RenderPieces(r);
    SplitNone(a, '|');
  }

  /** A room's user list is shown with the room, and as "(empty)" when it
      names no one. */
  lemma ShowUserList(room: string, users: seq<string>)
    requires '|' !in room && forall i :: 0 <= i < |users| ==> '|' !in users[i]
    ensures FormatServerLine(Render(UserList(room, users))) == "[USER_LIST " + room + "] " + OrEmptyList(Join(users, ','))
  {
    UserListPieces(room, users);
    FormatUserList(Render(UserList(room, users)), room, Join(users, ','));
  }

  lemma FormatUserList(line: string, room: string, names: string)
    requires Split(line, '|') == ["USER_LIST", room, names]
    ensures FormatServerLine(line) == "[USER_LIST " + room + "] " + OrEmptyList(names)
  {
  }

  /** The pieces of the full user list line. */
  lemma UserListAllPieces(users: seq<string>)
    requires forall i :: 0 <= i < |users| ==> '|' !in users[i]
    ensures Split(Render(UserListAll(users)), '|') == ["USER_LIST_ALL", Join(users, ',')]
  {
    JoinFree(users, ',', '|');
    OneFieldPieces(UserListAll(users), "USER_LIST_ALL", Join(users, ','));
  }

  /** The full user list is shown, as "(empty)" when it names no one. */
  lemma ShowUserListAll(users: seq<string>)
    requires forall i :: 0 <= i < |users| ==> '|' !in users[i]
    ensures FormatServerLine(Render(UserListAll(users))) == "[USER_LIST_ALL] " + OrEmptyList(Join(users, ','))
  {
    UserListAllPieces(users);
    FormatUserListAll(Render(UserListAll(users)), Join(users, ','));
  }

  lemma FormatUserListAll(line: string, names: string)
    requires Split(line, '|') == ["USER_LIST_ALL", names]
    ensures FormatServerLine(line) == "[USER_LIST_ALL] " + OrEmptyList(names)
  {
  }

  /** Acknowledgements and errors are shown as they came. */
  lemma ShowVerbatim(r: Reply)
    requires r.NickOk? || r.CreateRoomOk? || r.JoinOk? || r.LeaveOk? || r.DeleteRoomOk? || r.DmOk? || r.Error?
    ensures FormatServerLine(Render(r)) == Render(r)
  {
    RenderPieces(r);
    assert !Displayed(Kind(r));
    FormatVerbatim(Render(r));
  }

  /** The client's copy follows the server's acknowledgements: NICK_OK sets
      the nickname, CREATE_ROOM_OK and JOIN_OK set the room, LEAVE_OK and
      DELETE_ROOM_OK clear it. */
  lemma MirrorAck(v: View, r: Reply)
    requires r.NickOk? || r.CreateRoomOk? || r.JoinOk? || r.LeaveOk? || r.DeleteRoomOk?
    requires r.NickOk? || r.CreateRoomOk? || r.JoinOk? ==> '|' !in Body(r)
    ensures r.NickOk? ==> Mirrored(v, Render(r)) == v.(nick := Some(r.nick))
    ensures r.CreateRoomOk? || r.JoinOk? ==> Mirrored(v, Render(r)) == v.(room := Some(r.room))
    ensures r.LeaveOk? || r.DeleteRoomOk? ==> Mirrored(v, Render(r)) == v.(room := None)
  {
    RenderPieces(r);
    if '|' !in Body(r) {
      SplitNone(Body(r), '|');
    }
  }

  /** Errors, user lists, messages and DM_OK leave the copy alone. */
  lemma MirrorIgnores(v: View, r: Reply)
    requires r.Error? || r.UserList? || r.UserListAll? || r.RoomMsg? || r.Dm? || r.DmOk?
    ensures Mirrored(v, Render(r)) == v
  {
    RenderPieces(r);
    MirrorKeeps(v, Render(r));
  }

  /** The departure notice clears the room of every client that receives
      it. The server sends it only to the members who stay, never to the
      one who leaves, so each remaining member's client forgets a room it
      is still in. */
  lemma MirrorOthersLeave(v: View, actor: string)
    requires '|' !in actor
    ensures Mirrored(v, Render(Left(actor))).room == None
  {
    var r := Left(actor);
    var m := NoticeText(r);
    assert '|' !in LeftNotice;
    SplitNone(m, '|');
    NoticePieces(r);
    LeftNoticeSaysLeft(actor);
  }

  /** The departure notice holds the word the client looks for. */
  lemma LeftNoticeSaysLeft(actor: string)
    ensures Contains(NoticeText(Left(actor)), LeftWord)
  {
    var a := " 님이 방을 ";
    assert LeftNotice == a + LeftWord + ".";
    Regroup3(a, LeftWord, ".");
    Regroup3(actor, a, LeftWord + ".");
    Regroup3(actor + a, LeftWord, ".");
    ContainsMiddle(actor + a, LeftWord, ".");
  }
}
