/** The wire protocol of the chat server: session states, the closed set of
    error codes, the structured form of every line the server sends, and the
    decision part of `process_message` (which handler, if any, a received line
    reaches). */
module Protocol {
  import opened Text

  /** Lifecycle of a connection (server.py:51-54). */
  datatype State = Connected | Registered | InRoom | Terminated

  /** The error codes; every rejection carries exactly one. */
  datatype Code =
    | NeedNick | NickInUse | NotInRoom | NoSuchUser | NoSuchRoom
    | RoomAlreadyExists | InvalidRoomName | InvalidState
    | UnknownType | UnknownSubtype | BadFormat

  function CodeName(c: Code): string
  {
    match c
    case NeedNick => "NEED_NICK"
    case NickInUse => "NICK_IN_USE"
    case NotInRoom => "NOT_IN_ROOM"
    case NoSuchUser => "NO_SUCH_USER"
    case NoSuchRoom => "NO_SUCH_ROOM"
    case RoomAlreadyExists => "ROOM_ALREADY_EXISTS"
    case InvalidRoomName => "INVALID_ROOM_NAME"
    case InvalidState => "INVALID_STATE"
    case UnknownType => "UNKNOWN_TYPE"
    case UnknownSubtype => "UNKNOWN_SUBTYPE"
    case BadFormat => "BAD_FORMAT"
  }

  /** A line the server sends, before it is rendered to text. The
      `SYSTEM|INFO` notices are one constructor each. */
  datatype Reply =
    | NickOk(nick: string)
    | CreateRoomOk(room: string)
    | JoinOk(room: string)
    | LeaveOk(room: string)
    | DeleteRoomOk(room: string)
    | DmOk(target: string)
    | UserList(room: string, users: seq<string>)
    | UserListAll(users: seq<string>)
    | RoomMsg(room: string, sender: string, text: string)
    | Dm(sender: string, text: string)
    | Created(actor: string)
    | Joined(actor: string)
    | Left(actor: string)
    | HandedTo(newOwner: string)
    | HandedOver(actor: string, newOwner: string)
    | Bye
    | Error(code: Code, detail: string)

  /** The text of a reply, its kind and the rest after the first `|`;
      `send_line` appends the newline. */
  function Render(r: Reply): string
  {
    Kind(r) + "|" + Body(r)
  }

  /** The first field of a rendered reply. */
  function Kind(r: Reply): (k: string)
    ensures '|' !in k
  {
    match r
    case NickOk(_) => "NICK_OK"
    case CreateRoomOk(_) => "CREATE_ROOM_OK"
    case JoinOk(_) => "JOIN_OK"
    case LeaveOk(_) => "LEAVE_OK"
    case DeleteRoomOk(_) => "DELETE_ROOM_OK"
    case DmOk(_) => "SUCCESS"
    case UserList(_, _) => "USER_LIST"
    case UserListAll(_) => "USER_LIST_ALL"
    case RoomMsg(_, _, _) => "ROOM_MSG"
    case Dm(_, _) => "DM"
    case Error(_, _) => "ERROR"
    case _ => "SYSTEM"
  }

  /** The fields of a rendered reply after its kind. */
  function Body(r: Reply): string
  {
    match r
    case NickOk(n) => n
    case CreateRoomOk(room) => room
    case JoinOk(room) => room
    case LeaveOk(room) => room
    case DeleteRoomOk(room) => room
    case DmOk(target) => "DM|" + target
    case UserList(room, users) => room + "|" + Join(users, ',')
    case UserListAll(users) => Join(users, ',')
    case RoomMsg(room, sender, text) => room + "|" + sender + "|" + text
    case Dm(sender, text) => sender + "|" + text
    case Error(code, detail) => CodeName(code) + "|" + detail
    case _ => "INFO|" + NoticeText(r)
  }

  /** The informational notices, sent as SYSTEM lines of level INFO. */
  predicate IsNotice(r: Reply)
  {
    r.Created? || r.Joined? || r.Left? || r.HandedTo? || r.HandedOver? || r.Bye?
  }

  /** The message of a notice. */
  function NoticeText(r: Reply): string
  {
    match r
    case Created(actor) => actor + CreatedNotice
    case Joined(actor) => actor + JoinedNotice
    case Left(actor) => actor + LeftNotice
    case HandedTo(newOwner) => HandedToNotice(newOwner)
    case HandedOver(actor, newOwner) => HandedOverNotice(actor, newOwner)
    case Bye => "Bye"
    case _ => ""
  }

  /** A rendered reply splits into its kind and the pieces of its body. */
  lemma RenderPieces(r: Reply)
    ensures Split(Render(r), '|') == [Kind(r)] + Split(Body(r), '|')
  {
    assert Render(r) == Kind(r) + ['|'] + Body(r);
    SplitCons(Kind(r), Body(r), '|');
  }

  // The informational notices, each following the actor's nickname.
  const CreatedNotice: string := " 님이 방을 생성하고 입장했습니다."
  const JoinedNotice: string := " 님이 방에 입장했습니다."
  const LeftNotice: string := " 님이 방을 나갔습니다."

  /** Sent to the requester of DELETE_ROOM when ownership was handed over. */
  function HandedToNotice(newOwner: string): string
  {
    "방에 다른 인원이 있어 삭제 대신 " + newOwner + " 님에게 방장 권한을 넘겼습니다."
  }

  /** Sent to the remaining members when the owner handed the room over. */
  function HandedOverNotice(actor: string, newOwner: string): string
  {
    actor + " 님이 방장을 " + newOwner + " 님에게 넘기고 방에서 나갔지만 방은 유지됩니다."
  }

  // ---------------------------------------------------------------------------
  // Dispatch

  /** Where `process_message` sends a line: nowhere (blank), back as an error,
      or to the control (TYPE 0), chat (TYPE 1) or info (TYPE 2) handler with
      the SUBTYPE and the remaining `|`-separated fields. */
  datatype Dispatch =
    | Ignore
    | Reject(code: Code, detail: string)
    | Control(subtype: string, fields: seq<string>)
    | Chat(subtype: string, fields: seq<string>)
    | Query(subtype: string, fields: seq<string>)

  /** The checks of `process_message`, in the order the source makes them. */
  function Route(line: string, st: State): Dispatch
  {
    var t := Strip(line);
    if t == "" then Ignore else RouteFields(Split(t, '|'), st)
  }

  /** The checks on the `|`-separated fields of a non-blank line. */
  function RouteFields(parts: seq<string>, st: State): Dispatch
  {
    if |parts| < 2 then Reject(BadFormat, "Need TYPE and SUBTYPE")
    else RouteTyped(parts[0], ParseInt(parts[0]), parts[1], parts[2..], st)
  }

  /** The checks after the split: the TYPE must be an integer, a CONNECTED
      session may only send 0|NICK, and the TYPE selects the handler. */
  function RouteTyped(typeStr: string, typeNum: Option<int>, subtype: string, fields: seq<string>, st: State): Dispatch
  {
    match typeNum
    case None => Reject(UnknownType, "TYPE must be int: " + typeStr)
    case Some(n) =>
      if st == Connected && !(n == 0 && subtype == "NICK") then Reject(NeedNick, "Set nick first")
      else if n == 0 then Control(subtype, fields)
      else if n == 1 then Chat(subtype, fields)
      else if n == 2 then Query(subtype, fields)
      else Reject(UnknownType, "Unknown TYPE: " + IntToString(n))
  }

  predicate Routed(d: Dispatch)
  {
    d.Control? || d.Chat? || d.Query?
  }

  /** The handler a routed line reaches is fixed by its TYPE number, and it
      receives the SUBTYPE and the fields unchanged. */
  lemma RouteTypedPassesFields(typeStr: string, typeNum: Option<int>, subtype: string, fields: seq<string>, st: State)
    requires Routed(RouteTyped(typeStr, typeNum, subtype, fields, st))
    ensures var d := RouteTyped(typeStr, typeNum, subtype, fields, st);
      && d.subtype == subtype && d.fields == fields
      && typeNum == Some(if d.Control? then 0 else if d.Chat? then 1 else 2)
  {
  }

  /** The TYPE field of a non-blank line. */
  function TypeField(line: string): string
  {
    Split(Strip(line), '|')[0]
  }

  /** A line is ignored exactly when it is blank. */
  lemma RouteIgnoresBlank(line: string, st: State)
    ensures Route(line, st) == Ignore <==> AllSpace(line)
  {
    StripBlank(line);
    RouteOfStripped(line, st);
  }

  /** A non-blank line without a `|` is a format error, in every state. */
  lemma RouteNeedsTwoParts(line: string, st: State)
    requires !AllSpace(line) && '|' !in line
    ensures Route(line, st) == Reject(BadFormat, "Need TYPE and SUBTYPE")
  {
    var t := Strip(line);
    StripBlank(line);
    assert '|' !in t;
    SplitNone(t, '|');
  }

  /** While CONNECTED, the only line that reaches a handler is a TYPE 0 NICK. */
  lemma RouteGatesConnected(line: string)
    ensures Routed(Route(line, Connected)) ==> Route(line, Connected).Control? && Route(line, Connected).subtype == "NICK"
  {
  }

  /** The gate only ever adds NEED_NICK: a CONNECTED session's line goes
      where a REGISTERED session's would, or is refused with NEED_NICK. */
  lemma RouteGateOnlyRefuses(line: string)
    ensures Route(line, Connected) == Route(line, Registered) || Route(line, Connected) == Reject(NeedNick, "Set nick first")
  {
  }

  /** The gate comes before the TYPE range check: a TYPE that is an integer
      but not 0, 1 or 2 draws NEED_NICK, not UNKNOWN_TYPE, while CONNECTED. */
  lemma RouteGateBeforeTypeRange(line: string, shown: string)
    requires Route(line, Registered) == Reject(UnknownType, "Unknown TYPE: " + shown)
    ensures Route(line, Connected) == Reject(NeedNick, "Set nick first")
  {
    DetailsDiffer(TypeField(line), shown);
    RouteUnfold(line, Registered);
    RouteUnfold(line, Connected);
  }

  /** The two UNKNOWN_TYPE details never coincide. */
  lemma DetailsDiffer(typeStr: string, shown: string)
    ensures "TYPE must be int: " + typeStr != "Unknown TYPE: " + shown
  {
    assert ("TYPE must be int: " + typeStr)[0] == 'T';
  }

  /** `Route` on a line with at least two fields is `RouteTyped` on them. */
  lemma RouteUnfold(line: string, st: State)
    ensures Strip(line) != "" && |Split(Strip(line), '|')| >= 2 ==>
      var parts := Split(Strip(line), '|');
      Route(line, st) == RouteTyped(parts[0], ParseInt(parts[0]), parts[1], parts[2..], st)
  {
  }

  /** A line rebuilt from delimiter-free pieces splits back into them. */
  lemma {:induction false} RouteParts(line: string, typeStr: string, subtype: string, fields: seq<string>)
    requires line == Join([typeStr, subtype] + fields, '|')
    requires '|' !in typeStr && '|' !in subtype && forall i :: 0 <= i < |fields| ==> '|' !in fields[i]
    requires line != [] && !IsSpace(line[0]) && !IsSpace(line[|line| - 1])
    ensures Strip(line) == line
    ensures Split(Strip(line), '|') == [typeStr, subtype] + fields
  {
    StripKeeps(line);
    var parts := [typeStr, subtype] + fields;
    assert forall i :: 0 <= i < |parts| ==> '|' !in parts[i] by {
      forall i | 0 <= i < |parts| ensures '|' !in parts[i] {
        if i >= 2 { assert parts[i] == fields[i - 2]; }
      }
    }
    JoinSplit(parts, '|');
  }

  /** Joining three fields. */
  lemma ThreeFields(a: string, b: string, c: string)
    ensures Join([a, b] + [c], '|') == a + "|" + b + "|" + c
  {
    assert ([a, b] + [c])[1..] == [b, c];
    assert [b, c][1..] == [c];
    assert Join([c], '|') == c;
    assert Join([b, c], '|') == b + "|" + c;
  }

  /** `Route` on a line built from delimiter-free fields is `RouteTyped` on
      those fields. */
  lemma RouteLine(line: string, typeStr: string, subtype: string, fields: seq<string>, st: State)
    requires line == Join([typeStr, subtype] + fields, '|')
    requires '|' !in typeStr && '|' !in subtype && forall i :: 0 <= i < |fields| ==> '|' !in fields[i]
    requires line != [] && !IsSpace(line[0]) && !IsSpace(line[|line| - 1])
    ensures Route(line, st) == RouteTyped(typeStr, ParseInt(typeStr), subtype, fields, st)
  {
    RouteParts(line, typeStr, subtype, fields);
    RouteUnfold(line, st);
  }

  /** An integer TYPE other than 0, 1 or 2 draws UNKNOWN_TYPE, showing the
      parsed number, once the session is past the NEED_NICK gate. */
  lemma RouteTypeOutOfRange(line: string, st: State, n: int)
    requires st != Connected
    requires Strip(line) != "" && |Split(Strip(line), '|')| >= 2
    requires ParseInt(TypeField(line)) == Some(n) && n != 0 && n != 1 && n != 2
    ensures Route(line, st) == Reject(UnknownType, "Unknown TYPE: " + IntToString(n))
  {
    RouteUnfold(line, st);
  }

  /** A TYPE that is not an integer is refused before the NEED_NICK gate,
      so in every state alike. */
  lemma RouteTypeNotInt(line: string, st: State)
    requires Strip(line) != "" && |Split(Strip(line), '|')| >= 2
    requires ParseInt(TypeField(line)) == None
    ensures Route(line, st) == Reject(UnknownType, "TYPE must be int: " + TypeField(line))
  {
    RouteUnfold(line, st);
  }

  /** Only the stripped line matters: whitespace around it changes nothing. */
  lemma RouteStripped(line: string, st: State)
    ensures Route(Strip(line), st) == Route(line, st)
  {
    var t := Strip(line);
    StripKeeps(t);
    RouteOfStripped(line, st);
    RouteOfStripped(t, st);
  }

  /** `Route` looks at the line only through its strip. */
  lemma RouteOfStripped(line: string, st: State)
    ensures Route(line, st) == if Strip(line) == "" then Ignore else RouteFields(Split(Strip(line), '|'), st)
  {
  }

  /** A registration line reaches the control handler as NICK with the
      nickname as its one field, while CONNECTED. */
  lemma RouteNickLine(line: string, nick: string)
    requires line == "0|NICK|" + nick
    requires nick != [] && '|' !in nick && !IsSpace(nick[|nick| - 1])
    ensures Route(line, Connected) == Control("NICK", [nick])
  {
    NickLine(nick);
    RouteLine(line, "0", "NICK", [nick], Connected);
    NickTyped(nick);
  }

  /** TYPE `0` with SUBTYPE NICK passes the gate. */
  lemma NickTyped(nick: string)
    ensures RouteTyped("0", ParseInt("0"), "NICK", [nick], Connected) == Control("NICK", [nick])
  {
    ParseDigit('0');
  }

  /** The shape of a registration line. */
  lemma NickLine(nick: string)
    requires nick != [] && !IsSpace(nick[|nick| - 1])
    ensures var line := "0|NICK|" + nick;
      && line == Join(["0", "NICK"] + [nick], '|')
      && line != [] && !IsSpace(line[0]) && !IsSpace(line[|line| - 1])
  {
    ThreeFields("0", "NICK", nick);
    var line := "0|NICK|" + nick;
    assert line[|line| - 1] == nick[|nick| - 1];
  }

  /** Whitespace around a registration line is ignored. */
  lemma RoutePaddedNick(left: string, nick: string, right: string)
    requires AllSpace(left) && AllSpace(right)
    requires nick != [] && '|' !in nick && !IsSpace(nick[|nick| - 1])
    ensures Route(left + "0|NICK|" + nick + right, Connected) == Control("NICK", [nick])
  {
    var line := "0|NICK|" + nick;
    assert left + "0|NICK|" + nick + right == left + line + right;
    assert line[|line| - 1] == nick[|nick| - 1];
    StripPadded(left, line, right);
    RouteStripped(left + line + right, Connected);
    RouteNickLine(line, nick);
  }

  /** What reaches a handler: the TYPE field is the integer 0, 1 or 2 of
      that handler, and SUBTYPE and fields are the line's own fields. */
  lemma RouteTypeNumber(line: string, st: State)
    requires Routed(Route(line, st))
    ensures var parts := Split(Strip(line), '|');
      var d := Route(line, st);
      && |parts| >= 2 && d.subtype == parts[1] && d.fields == parts[2..]
      && ParseInt(parts[0]) == Some(if d.Control? then 0 else if d.Chat? then 1 else 2)
  {
    var parts := Split(Strip(line), '|');
    RouteUnfold(line, st);
    RouteTypedPassesFields(parts[0], ParseInt(parts[0]), parts[1], parts[2..], st);
  }

  /** The first two pieces of a split and the rest rejoin into the string. */
  lemma FieldsRejoin(t: string, parts: seq<string>)
    requires parts == Split(t, '|') && |parts| >= 2
    ensures Join([parts[0], parts[1]] + parts[2..], '|') == t
    ensures forall i :: 0 <= i < |parts[2..]| ==> '|' !in parts[2..][i]
  {
    SplitJoin(t, '|');
    SplitPieces(t, '|');
    assert [parts[0], parts[1]] + parts[2..] == parts;
    assert forall i :: 0 <= i < |parts[2..]| ==> parts[2..][i] == parts[i + 2];
  }

  /** TYPE, SUBTYPE and the fields a handler receives rejoin with `|` into
      the stripped line, and none of the fields holds a `|`. */
  lemma RouteRebuildsLine(line: string, st: State)
    requires Routed(Route(line, st))
    ensures var d := Route(line, st);
      && Join([TypeField(line), d.subtype] + d.fields, '|') == Strip(line)
      && forall i :: 0 <= i < |d.fields| ==> '|' !in d.fields[i]
  {
    RouteTypeNumber(line, st);
    FieldsRejoin(Strip(line), Split(Strip(line), '|'));
  }
}
