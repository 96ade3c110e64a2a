/** The console client's string logic (client.py): a console command becomes
    one protocol line, a server line becomes display text, the client keeps
    its own copy of its nickname and room from the server's
    acknowledgements, and the prompt shows that copy. */
module Client {
  import opened Text

  /** The client's copy of its session: `state["nick"]` and `state["room"]`. */
  datatype View = View(nick: Option<string>, room: Option<string>)

  // ---------------------------------------------------------------------------
  // build_protocol_line (client.py:111-176)

  /** The protocol line for a console input, or None when nothing is sent. */
  function BuildProtocolLine(cmd: string): Option<string>
  {
    var c := Strip(cmd);
    if c == "" then None
    else if StartsWith(c, "/") then
      var p := SplitOnce(c, ' ');
      CommandLine(Lower(p[0]), if |p| == 2 then p[1] else "")
    else Some("1|ROOM_MSG|" + c)
  }

  /** The line for a `/` command, from its lower-cased keyword and the rest
      of the input after the first space. */
  function CommandLine(op: string, tail: string): Option<string>
  {
    if op == "/nick" then (if tail == "" then None else Some("0|NICK|" + tail))
    else if op == "/create" then (if tail == "" then None else Some("0|CREATE_ROOM|" + tail))
    else if op == "/join" then (if tail == "" then None else Some("0|JOIN|" + tail))
    else if op == "/delete" then Some("0|DELETE_ROOM")
    else if op == "/quit" then Some("0|QUIT")
    else if op == "/leave" then Some("0|LEAVE")
    else if op == "/dm" then
      var q := SplitOnce(tail, ' ');
      if |q| < 2 then None else Some("1|DM|" + q[0] + "|" + q[1])
    else if op == "/list" then Some("2|LIST_USER" + (if tail != "" then "|" + tail else ""))
    else if op == "/listall" then Some("2|LIST_ALL" + (if tail != "" then "|" + tail else ""))
    else None
  }

  /** Every line a command builds starts with a TYPE digit 0, 1 or 2 and
      a `|`. */
  lemma CommandLineShape(op: string, tail: string)
    ensures var r := CommandLine(op, tail);
      r.Some? ==> |r.value| >= 2 && r.value[0] in "012" && r.value[1] == '|'
  {
  }

  /** Blank input sends nothing; input that is not a command is sent, trimmed,
      as a room message. */
  lemma BuildPlain(cmd: string)
    ensures AllSpace(cmd) ==> BuildProtocolLine(cmd) == None
    ensures !AllSpace(cmd) && !StartsWith(Strip(cmd), "/") ==> BuildProtocolLine(cmd) == Some("1|ROOM_MSG|" + Strip(cmd))
  {
    StripBlank(cmd);
  }

  /** A command is read as its keyword, up to the first space and matched
      after lower-casing, and everything after that space, kept as it is. */
  lemma BuildCommand(cmd: string, kw: string, tail: string)
    requires |kw| >= 1 && kw[0] == '/' && ' ' !in kw
    requires Strip(cmd) == kw + " " + tail
    ensures BuildProtocolLine(cmd) == CommandLine(Lower(kw), tail)
  {
    SplitOnceAt(kw, tail, ' ');
    assert kw + " " + tail == kw + [' '] + tail;
  }

  /** A keyword alone is a command with an empty tail. */
  lemma BuildBareCommand(cmd: string, kw: string)
    requires |kw| >= 1 && kw[0] == '/' && ' ' !in kw
    requires Strip(cmd) == kw
    ensures BuildProtocolLine(cmd) == CommandLine(Lower(kw), "")
  {
  }

  /** `cmd` is typed as the keyword `kw` (a `/` word) followed by the tail,
      after one space, or alone with an empty tail. */
  predicate Typed(cmd: string, kw: string, tail: string)
  {
    && |kw| >= 1 && kw[0] == '/' && ' ' !in kw
    && (Strip(cmd) == kw + " " + tail || (Strip(cmd) == kw && tail == ""))
  }

  /** How a typed command is read, with or without a tail. */
  lemma BuildTyped(cmd: string, kw: string, tail: string)
    requires Typed(cmd, kw, tail)
    ensures BuildProtocolLine(cmd) == CommandLine(Lower(kw), tail)
  {
    if Strip(cmd) == kw + " " + tail {
      BuildCommand(cmd, kw, tail);
    } else {
      BuildBareCommand(cmd, kw);
    }
  }

  /** `kw` is the lower-case word `op` with any of its letters in upper
      case. */
  predicate SameUpToCase(kw: string, op: string)
  {
    && |kw| == |op|
    && forall i :: 0 <= i < |op| ==>
         ('a' <= op[i] <= 'z' || op[i] == '/') && (kw[i] == op[i] || ('a' <= op[i] <= 'z' && kw[i] as int == op[i] as int - 32))
  }

  /** The keyword is matched whatever its case: a command typed with some
      of its letters in upper case is read as the lower-case command. */
  lemma KeywordCase(cmd: string, kw: string, op: string, tail: string)
    requires |op| >= 1 && op[0] == '/' && SameUpToCase(kw, op)
    requires Strip(cmd) == kw + " " + tail || (Strip(cmd) == kw && tail == "")
    ensures BuildProtocolLine(cmd) == CommandLine(op, tail)
  {
    LowerUpToCase(kw, op);
    BuildTyped(cmd, kw, tail);
  }

  /** Lower-casing undoes the upper-case letters. */
  lemma LowerUpToCase(kw: string, op: string)
    requires |op| >= 1 && op[0] == '/' && SameUpToCase(kw, op)
    ensures Lower(kw) == op && kw[0] == '/' && ' ' !in kw
  {
    assert ' ' !in kw by {
      forall i | 0 <= i < |kw| ensures kw[i] != ' ' {
      }
    }
    assert Lower(kw) == op by {
      forall i | 0 <= i < |kw| ensures Lower(kw)[i] == op[i] {
      }
    }
  }

  /** `/nick`, `/create` and `/join` (in any case) send their tail whole,
      spaces included, and send nothing without one. */
  lemma NamedCommands(cmd: string, kw: string, tail: string)
    requires Typed(cmd, kw, tail)
    ensures Lower(kw) == "/nick" ==> BuildProtocolLine(cmd) == if tail == "" then None else Some("0|NICK|" + tail)
    ensures Lower(kw) == "/create" ==> BuildProtocolLine(cmd) == if tail == "" then None else Some("0|CREATE_ROOM|" + tail)
    ensures Lower(kw) == "/join" ==> BuildProtocolLine(cmd) == if tail == "" then None else Some("0|JOIN|" + tail)
  {
    BuildTyped(cmd, kw, tail);
  }

  /** `/list` and `/listall` (in any case) pass a non-empty tail on as one
      more field, for the server to refuse. */
  lemma ListCommands(cmd: string, kw: string, tail: string)
    requires Typed(cmd, kw, tail)
    ensures Lower(kw) == "/list" ==> BuildProtocolLine(cmd) == Some(if tail == "" then "2|LIST_USER" else "2|LIST_USER" + "|" + tail)
    ensures Lower(kw) == "/listall" ==> BuildProtocolLine(cmd) == Some(if tail == "" then "2|LIST_ALL" else "2|LIST_ALL" + "|" + tail)
  {
    BuildTyped(cmd, kw, tail);
    ListTail("2|LIST_USER", tail);
    ListTail("2|LIST_ALL", tail);
  }

  /** A query line with the tail appended as one more field when there is
      one. */
  lemma ListTail(query: string, tail: string)
    ensures query + (if tail != "" then "|" + tail else "") == if tail == "" then query else query + "|" + tail
  {
    if tail != "" {
      Regroup3(query, "|", tail);
    }
  }

  /** `/delete`, `/quit` and `/leave` drop any tail; `/dm` needs a space in
      its tail; any keyword outside the command set sends nothing. */
  lemma PlainCommands(op: string, tail: string)
    ensures CommandLine("/delete", tail) == Some("0|DELETE_ROOM")
    ensures CommandLine("/quit", tail) == Some("0|QUIT")
    ensures CommandLine("/leave", tail) == Some("0|LEAVE")
    ensures CommandLine("/dm", tail).None? <==> ' ' !in tail
    ensures op !in ["/nick", "/create", "/join", "/delete", "/quit", "/leave", "/dm", "/list", "/listall"] ==>
      CommandLine(op, tail) == None
  {
  }

  /** `/dm` splits its tail at the first space into the recipient and the
      message (which keeps its own spaces). */
  lemma DmCommand(to: string, msg: string)
    requires ' ' !in to
    ensures CommandLine("/dm", to + " " + msg) == Some("1|DM|" + to + "|" + msg)
  {
    SplitOnceAt(to, msg, ' ');
    assert to + " " + msg == to + [' '] + msg;
  }

  // ---------------------------------------------------------------------------
  // format_server_line (client.py:29-55)

  /** The display text of a server line. A room message, a DM and a SYSTEM
      line rejoin their trailing fields with `|`; an empty user list shows
      as "(empty)"; any other line is shown as it came. */
  function FormatServerLine(line: string): string
  {
    var parts := Split(line, '|');
    if parts[0] == "ROOM_MSG" && |parts| >= 4 then
      "[" + parts[1] + "] " + parts[2] + ": " + Join(parts[3..], '|')
    else if parts[0] == "DM" && |parts| >= 3 then
      "[DM] " + parts[1] + ": " + Join(parts[2..], '|')
    else if parts[0] == "SYSTEM" && |parts| >= 3 then
      "[SYSTEM/" + parts[1] + "] " + Join(parts[2..], '|')
    else if parts[0] == "USER_LIST" && |parts| >= 3 then
      "[USER_LIST " + parts[1] + "] " + OrEmptyList(parts[2])
    else if parts[0] == "USER_LIST_ALL" && |parts| >= 2 then
      "[USER_LIST_ALL] " + OrEmptyList(parts[1])
    else line
  }

  /** `users or '(empty)'`. */
  function OrEmptyList(users: string): (r: string)
    ensures r != ""
    ensures users != "" ==> r == users
    ensures users == "" ==> r == "(empty)"
  {
    if users == "" then "(empty)" else users
  }

  /** The line kinds the display rewrites. */
  predicate Displayed(kind: string)
  {
    kind in ["ROOM_MSG", "DM", "SYSTEM", "USER_LIST", "USER_LIST_ALL"]
  }

  /** A line of any other kind, or with too few fields, is shown verbatim. */
  lemma FormatVerbatim(line: string)
    requires !Displayed(Split(line, '|')[0]) || |Split(line, '|')| < 2
    ensures FormatServerLine(line) == line
  {
  }

  // ---------------------------------------------------------------------------
  // update_state_from_server (client.py:58-82)

  /** The client's copy after a server line: NICK_OK sets the nickname,
      CREATE_ROOM_OK and JOIN_OK set the room, LEAVE_OK, DELETE_ROOM_OK and
      a SYSTEM line whose message contains "나갔습니다" clear it; every
      other line leaves the copy alone. */
  function Mirrored(v: View, line: string): (w: View)
    ensures w.nick == v.nick || w.room == v.room
  {
    var parts := Split(line, '|');
    if parts[0] == "NICK_OK" && |parts| >= 2 then v.(nick := Some(parts[1]))
    else if (parts[0] == "CREATE_ROOM_OK" || parts[0] == "JOIN_OK") && |parts| >= 2 then v.(room := Some(parts[1]))
    else if parts[0] == "DELETE_ROOM_OK" then v.(room := None)
    else if parts[0] == "LEAVE_OK" then v.(room := None)
    else if parts[0] == "SYSTEM" && |parts| >= 3 && Contains(parts[2], LeftWord) then v.(room := None)
    else v
  }

  /** The word ("left") the client looks for in a SYSTEM message. */
  const LeftWord: string := "나갔습니다"

  /** Only the acknowledgements and SYSTEM lines touch the copy: an error, a
      user list, a message or anything else leaves it as it was. */
  lemma MirrorKeeps(v: View, line: string)
    requires Split(line, '|')[0] !in ["NICK_OK", "CREATE_ROOM_OK", "JOIN_OK", "DELETE_ROOM_OK", "LEAVE_OK", "SYSTEM"]
    ensures Mirrored(v, line) == v
  {
  }

  /** The nickname changes only on NICK_OK, and then to the line's second
      field. */
  lemma MirrorNickOnlyOnAck(v: View, line: string)
    ensures Mirrored(v, line).nick != v.nick ==>
      var parts := Split(line, '|');
      parts[0] == "NICK_OK" && |parts| >= 2 && Mirrored(v, line).nick == Some(parts[1])
  {
  }

  /** The client state object of client.py: the nickname and room its
      receive loop keeps up to date and its prompt shows. */
  class ClientState {
    var nick: Option<string>
    var room: Option<string>

    /** Neither is known before the server has acknowledged anything. */
    constructor ()
      ensures nick == None && room == None
    {
      nick := None;
      room := None;
    }

    function Current(): View
      reads this
    {
      View(nick, room)
    }

    /** `update_state_from_server`: reads the line's fields and assigns the
        nickname or the room in place. */
    method UpdateFromServer(line: string)
      modifies this
      ensures Current() == Mirrored(old(Current()), line)
    {
      var parts := Split(line, '|');
      if parts[0] == "NICK_OK" && |parts| >= 2 {
        nick := Some(parts[1]);
      } else if (parts[0] == "CREATE_ROOM_OK" || parts[0] == "JOIN_OK") && |parts| >= 2 {
        room := Some(parts[1]);
      } else if parts[0] == "DELETE_ROOM_OK" {
        room := None;
      } else if parts[0] == "LEAVE_OK" {
        room := None;
      } else if parts[0] == "SYSTEM" && |parts| >= 3 {
        if Contains(parts[2], LeftWord) {
          room := None;
        }
      }
    }

  }

  // ---------------------------------------------------------------------------
  // build_prompt (client.py:180-190)

  /** The prompt: nickname and room when both are set, the nickname alone
      when only it is set, and a bare "> " otherwise, so a room is never
      shown without a nickname. Every prompt ends with "> ". */
  function BuildPrompt(v: View): (p: string)
    ensures |p| >= 2 && p[|p| - 2..] == "> "
    ensures p == "> " <==> !Truthy(v.nick)
    ensures Truthy(v.nick) ==> "[NICK_" + v.nick.value <= p
    ensures Truthy(v.nick) && Truthy(v.room) ==> "[NICK_" + v.nick.value + "/ROOM_" + v.room.value <= p
  {
    if Truthy(v.nick) && Truthy(v.room) then "[NICK_" + v.nick.value + "/ROOM_" + v.room.value + "] > "
    else if Truthy(v.nick) then "[NICK_" + v.nick.value + "] > "
    else "> "
  }
}
