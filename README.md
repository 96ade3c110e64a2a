# NP-Chat: a verified model of the chat server and its console client

NP-Chat is a line-based TCP chat system. Each client connection sends
`TYPE|SUBTYPE|field…` lines. TYPE 0 lines are control commands:

- `NICK` registers a name;
- `CREATE_ROOM`, `JOIN`, `LEAVE` and `DELETE_ROOM` manage rooms;
- `QUIT` ends the session.

TYPE 1 lines are chat (`ROOM_MSG`, `DM`) and TYPE 2 lines are queries
(`LIST_USER`, `LIST_ALL`).

The server keeps four shared tables:

- the open connections;
- nickname to connection;
- room to its member connections;
- room to its owner's nickname.

It answers every command with acknowledgement, error, notice, message or
list lines. The console client turns typed commands such as `/join lobby`
into protocol lines. It shows the server's lines in a readable form and
keeps its own copy of its nickname and room, which it shows in the prompt.

The model has these modules:

- `Text`: the Python string built-ins the programs use. These are `strip`,
  `split`, `split(sep, 1)`, `join`, `lower` and `int`, with `str` for
  integers.
- `Protocol`: the session states and the error codes. It also holds the
  server's lines as a datatype (`Reply`), their rendering to text, and the
  routing decisions of `process_message` (`Route`).
- `Tables` and `Handlers`: the shared tables as a value, and what each
  command does to them and sends, as pure functions.
- `Invariants`: every command keeps the tables consistent. A nickname maps
  to the connection that holds it, a room member is an open connection
  whose room is that room, and the owner table only names existing rooms.
- `Properties`: what each command promises. This covers its error cases in
  the order of the checks, its effect on the tables, and what it sends.
- `Server`: the imperative server. `Session` is a connection's record (its
  fields are assigned in place). `Registry` holds the four tables as fields,
  and its methods are the handlers. Each method is proved to leave the
  tables as the matching `Handlers` function says and to send exactly the
  lines that function lists.
- `Framing`: how a receive buffer is cut into `\n`-terminated lines. It
  proves that framing loses and reorders nothing and, for decoded text,
  does not depend on chunk boundaries.
- `Client`: the console client's logic: command lines, display, state
  mirroring and the prompt.
- `Interop`: the client and the server read each other's lines as intended.

## Model

| member | source | states |
|---|---|---|
| Tables.Session.constructor | server.py:57-65 | a new connection has no nickname, no room and state CONNECTED |
| Tables.RenamedMoves | server.py:126-129 | after a rename, exactly the rooms owned under the old name are owned under the new one; no room is added or lost |
| Tables.RenamedFromNone | server.py:126-129 | a first registration (no previous nickname) rewrites no owner |
| Tables.EmptyGood | server.py:69-72 | the empty tables are consistent |
| Tables.OneRoom | server.py:155-159 | in consistent tables a connection belongs to at most one room's member set, the one its record names |
| Tables.OnlyOwnRoom | server.py:186-188 | a connection is in no member set other than that of its own room |
| Tables.NicksUnique | server.py:114-123 | two open connections never share a nickname |
| Handlers.LeaveSet | server.py:155-156 | taking a connection out of its room's member set keeps the set of rooms |
| Handlers.AnyPick | server.py:214-219 | some random pick among the other members exists for every requester |
| Invariants.NickKeepsGood | server.py:103-133 | NICK, successful or not, keeps the tables consistent |
| Invariants.RenamingGood | server.py:119-129 | renaming to a free name (or one's own) keeps the tables consistent |
| Invariants.CreateRoomKeepsGood | server.py:135-165 | CREATE_ROOM keeps the tables consistent |
| Invariants.AddRoomGood | server.py:152-153 | a new room with a fresh, non-empty name keeps the tables consistent |
| Invariants.JoinKeepsGood | server.py:167-200 | JOIN keeps the tables consistent |
| Invariants.EnterGood | server.py:186-192 | moving an active connection into an existing room keeps the tables consistent |
| Invariants.DeleteRoomKeepsGood | server.py:202-253 | DELETE_ROOM, handing over or deleting, keeps the tables consistent |
| Invariants.CloseGood | server.py:226-235 | removing a room whose only member is the requester, and resetting the requester, keeps the tables consistent |
| Invariants.VacateGood | server.py:261-272 | a connection leaving its room keeps the tables consistent |
| Invariants.OwnersGood | server.py:225 | any owner table over existing rooms keeps the tables consistent |
| Invariants.LeaveKeepsGood | server.py:255-276 | LEAVE keeps the tables consistent |
| Invariants.QuitKeepsGood | server.py:278-288 | QUIT keeps the tables consistent |
| Invariants.ControlKeepsGood | server.py:99-291 | every control command keeps the tables consistent |
| Invariants.ProcessKeepsGood | server.py:364-396 | handling any received line keeps the tables consistent |
| Invariants.DispatchKeepsGood | server.py:389-396 | every routed line keeps the tables consistent |
| Invariants.CleanupKeepsGood | server.py:399-422 | closing a connection keeps the tables consistent |
| Invariants.ConnectKeepsGood | server.py:432-434 | registering a new connection keeps the tables consistent |
| Invariants.FailKeepsGood | server.py:95-96 | an error reply keeps the tables consistent |
| Properties.ControlRefusalChangesNothing | server.py:99-291 | a control command that answers with an error leaves the tables unchanged |
| Properties.ProcessRefusalChangesNothing | server.py:364-396 | a line answered with an error leaves the tables unchanged |
| Properties.ProcessGate | server.py:385-387 | while CONNECTED, only a TYPE 0 NICK line can change the tables |
| Properties.ProcessIgnoresBlank | server.py:366-368 | a blank line gets no reply and changes nothing |
| Properties.ProcessAfterQuit | server.py:441-450 | a line handled after QUIT in the same chunk keeps the session TERMINATED. Only a NICK with a free name can still change the tables, by renaming the session |
| Properties.ControlAfterQuit | server.py:99-291 | a control command from a TERMINATED session keeps it TERMINATED and changes the tables only by a successful NICK |
| Handlers.Nick | server.py:103-133 | NICK as a function of the tables, specified by Properties.NickErrors, Properties.NickRenames and Invariants.NickKeepsGood |
| Handlers.NickNamed | server.py:108-133 | NICK of a trimmed name, specified by Properties.NickErrors and Properties.NickRenames |
| Handlers.CreateRoom | server.py:135-165 | CREATE_ROOM, specified by Properties.CreateErrors, Properties.CreateOpens and Invariants.CreateRoomKeepsGood |
| Handlers.CreateNamed | server.py:140-165 | CREATE_ROOM of a trimmed name, specified by Properties.CreateOpens and Properties.CreateEffect |
| Handlers.JoinRoom | server.py:167-200 | JOIN, specified by Properties.JoinErrors, Properties.JoinSameRoom, Properties.JoinMoves and Invariants.JoinKeepsGood |
| Handlers.JoinNamed | server.py:172-200 | JOIN of a trimmed name, specified by Properties.JoinMoves and Properties.EnterEffect |
| Handlers.DeleteRoom | server.py:202-253 | DELETE_ROOM, specified by Properties.LeaveDeleteErrors, Properties.DeleteHandsOver, Properties.DeleteCloses and Invariants.DeleteRoomKeepsGood |
| Handlers.Leave | server.py:255-276 | LEAVE, specified by Properties.LeaveDeleteErrors, Properties.LeaveHandsOver and Invariants.LeaveKeepsGood |
| Handlers.Quit | server.py:278-288 | QUIT, specified by Invariants.QuitKeepsGood and Properties.ProcessAfterQuit |
| Handlers.HandleControl | server.py:99-291 | `handle_control`, specified by Properties.ControlRefusalChangesNothing and Invariants.ControlKeepsGood |
| Handlers.HandleChat | server.py:294-330 | `handle_chat`, specified by Properties.ChatNeedsRoom, Properties.RoomMsgReachesAll and Properties.DmReaches |
| Handlers.HandleInfo | server.py:333-361 | `handle_info`, specified by Properties.InfoFieldsFirst and Properties.InfoStates |
| Handlers.ProcessMessage | server.py:364-396 | `process_message`, specified by Properties.ProcessIgnoresBlank, Properties.ProcessGate, Properties.ProcessRefusalChangesNothing and Invariants.ProcessKeepsGood |
| Handlers.Dispatched | server.py:372-396 | a routing decision carried out, specified by Invariants.DispatchKeepsGood |
| Handlers.CleanupClient | server.py:399-422 | `cleanup_client`, specified by Properties.CleanupHandsOver and Invariants.CleanupKeepsGood |
| Handlers.Connect | server.py:432-434 | a new connection, specified by Invariants.ConnectKeepsGood |
| Properties.NickErrors | server.py:105-116 | NICK answers BAD_FORMAT for a field count other than one or a blank name, then NICK_IN_USE for a name held by another connection, and is otherwise acknowledged |
| Properties.NickRenames | server.py:119-131 | a successful NICK maps the trimmed name to the requester and drops its old name. It moves CONNECTED to REGISTERED, rewrites the owners and answers NICK_OK |
| Properties.RenamingNames | server.py:119-125 | after a rename only the requester's record changes, and the nickname table differs only by the old and the new name |
| Properties.RenamingOwners | server.py:126-129 | after a rename the owner table is the old one with the old name replaced |
| Properties.CreateErrors | server.py:137-149 | CREATE_ROOM checks, in order: BAD_FORMAT, INVALID_STATE, INVALID_ROOM_NAME, ROOM_ALREADY_EXISTS |
| Properties.CreateOpens | server.py:151-164 | a successful CREATE_ROOM opens the room owned by the requester with the requester as its only member. The requester leaves its old room and gets CREATE_ROOM_OK; the room hears the arrival |
| Properties.CreateEffect | server.py:151-159 | the tables after creating a fresh room, field by field |
| Properties.JoinErrors | server.py:169-184 | JOIN checks, in order: BAD_FORMAT, INVALID_STATE, then NO_SUCH_ROOM unless already in that room |
| Properties.JoinSameRoom | server.py:177-179 | joining one's own room answers JOIN_OK and changes nothing |
| Properties.JoinMoves | server.py:181-199 | a moving JOIN takes the requester from its old room into the new one. It answers JOIN_OK, notifies the old room of the departure when there was one, and notifies the new room of the arrival |
| Properties.EnterEffect | server.py:186-192 | the tables after entering a room, field by field |
| Properties.LeaveDeleteErrors | server.py:204-213 | LEAVE needs a room (NOT_IN_ROOM); DELETE_ROOM needs a room and then ownership (INVALID_STATE) |
| Properties.LeaveHandsOver | server.py:255-275 | LEAVE removes the requester from the room and makes it REGISTERED. An owner leaving hands the room to a remaining member, or drops the owner entry when none is left. The room stays, LEAVE_OK is sent and the room hears the departure |
| Properties.DeleteHandsOver | server.py:216-242 | DELETE_ROOM with others present keeps the room and hands it to one of the others. The requester leaves as on LEAVE and gets the handover notice and LEAVE_OK, and the others get the ownership notice |
| Properties.DeleteCloses | server.py:226-235 | DELETE_ROOM by the owner alone (server.py:246-248 for the reply) removes the room and its owner entry, resets the requester and answers DELETE_ROOM_OK |
| Properties.CleanupHandsOver | server.py:399-422 | closing a connection removes it from its room (handing ownership on if it owned it), the nickname table and the connections, and tells the room it left |
| Properties.ChatNeedsRoom | server.py:296-297 | outside a room every chat line is refused with NOT_IN_ROOM before its subtype is looked at |
| Properties.RoomMsgReachesAll | server.py:299-311 | ROOM_MSG with one field sends the message to every member of the room, the sender included. Any other field count is BAD_FORMAT |
| Properties.DmReaches | server.py:313-328 | DM needs exactly two fields and a known recipient. It sends the message to the recipient and SUCCESS to the sender, or else BAD_FORMAT or NO_SUCH_USER |
| Properties.InfoFieldsFirst | server.py:335-337 | LIST_USER and LIST_ALL with extra fields are BAD_FORMAT whatever the state |
| Properties.InfoStates | server.py:338-359 | LIST_USER needs a room (NOT_IN_ROOM) and LIST_ALL a name (NEED_NICK), each exactly so; a member's LIST_USER is answered with its room's user list |
| Protocol.Kind | server.py:77-82 | the first field of every line the server sends holds no `\|` |
| Protocol.RenderPieces | server.py:131-361 | a rendered reply splits into its kind and the pieces of its body |
| Protocol.Render | server.py:95-361 | the text of each reply, specified by Protocol.Kind and Protocol.RenderPieces |
| Protocol.Route | server.py:364-396 | where `process_message` sends a line, specified by Protocol.RouteIgnoresBlank, Protocol.RouteNeedsTwoParts, Protocol.RouteStripped and Protocol.RouteRebuildsLine |
| Protocol.RouteFields | server.py:371-387 | routing of the split pieces, specified by Protocol.RouteNeedsTwoParts and Protocol.RouteLine |
| Protocol.RouteTyped | server.py:380-396 | routing by the TYPE field, specified by Protocol.RouteTypeNotInt, Protocol.RouteGatesConnected, Protocol.RouteTypeOutOfRange and Protocol.RouteTypedPassesFields |
| Protocol.RouteIgnoresBlank | server.py:366-368 | a line is ignored exactly when it is blank |
| Protocol.RouteNeedsTwoParts | server.py:371-373 | a non-blank line without `\|` is BAD_FORMAT in every state |
| Protocol.RouteTypeNotInt | server.py:380-383 | a TYPE that is not an integer is refused with UNKNOWN_TYPE, before the nickname gate |
| Protocol.RouteGatesConnected | server.py:385-387 | while CONNECTED, only TYPE 0 NICK reaches a handler |
| Protocol.RouteGateOnlyRefuses | server.py:385-387 | the gate either changes nothing or answers NEED_NICK |
| Protocol.RouteGateBeforeTypeRange | server.py:385-396 | an integer TYPE out of range draws NEED_NICK, not UNKNOWN_TYPE, while CONNECTED |
| Protocol.RouteTypeOutOfRange | server.py:395-396 | an integer TYPE other than 0, 1 or 2 draws UNKNOWN_TYPE showing the number |
| Protocol.RouteTypedPassesFields | server.py:389-394 | a routed line reaches the handler of its TYPE with its SUBTYPE and fields unchanged |
| Protocol.RouteTypeNumber | server.py:375-394 | what reaches a handler has a TYPE field that is the integer 0, 1 or 2 |
| Protocol.RouteRebuildsLine | server.py:371-377 | TYPE, SUBTYPE and the fields a handler receives rejoin into the stripped line |
| Protocol.RouteStripped | server.py:366 | surrounding whitespace does not change where a line goes |
| Protocol.RouteLine | server.py:366-396 | routing a line built from `\|`-free fields is routing those fields |
| Protocol.RouteParts | server.py:366-377 | a line joined from `\|`-free pieces strips to itself and splits back into them |
| Protocol.RouteNickLine | server.py:386-390 | a registration line reaches NICK with the name as its one field while CONNECTED |
| Protocol.RoutePaddedNick | server.py:366-390 | whitespace around a registration line is ignored |
| Protocol.FieldsRejoin | server.py:371-377 | the first two pieces of a split and the rest rejoin into the string |
| Server.RewriteOwners | server.py:127-129 | the loop over the owner table gives every room owned under the old name to the new one and leaves the others |
| Server.Registry.constructor | server.py:69-72 | the tables start empty and consistent |
| Server.Registry.Broadcast | server.py:85-92 | one line to every member of the room except the excluded connection, each exactly once |
| Server.Registry.Rename | server.py:119-129 | the assignments of a successful NICK give the tables of the renaming |
| Server.Registry.SetNick | server.py:103-133 | NICK leaves the tables as `Handlers.Nick` says and sends exactly its lines |
| Server.Registry.SetNamedNick | server.py:108-133 | NICK of a read name, as `Handlers.NickNamed` says |
| Server.Registry.MoveInto | server.py:155-159 | a connection leaves its old member set and enters the room |
| Server.Registry.OpenRoom | server.py:152-153 | a new empty room with its owner's name |
| Server.Registry.MakeRoom | server.py:135-165 | CREATE_ROOM as `Handlers.CreateRoom` says |
| Server.Registry.MakeNamedRoom | server.py:140-165 | CREATE_ROOM of a read name |
| Server.Registry.Found | server.py:151-164 | a successful CREATE_ROOM |
| Server.Registry.EnterRoom | server.py:167-200 | JOIN as `Handlers.JoinRoom` says |
| Server.Registry.EnterNamedRoom | server.py:172-200 | JOIN of a read name |
| Server.Registry.JoinExisting | server.py:181-200 | a successful JOIN |
| Server.Registry.JoinNotices | server.py:194-199 | JOIN_OK, the departure notice to the old room when it differs, and the arrival notice |
| Server.Registry.MoveOut | server.py:261-272 | a connection leaves its room and is REGISTERED |
| Server.Registry.TransferIfOwner | server.py:264-270 | an owner who left hands the room to a remaining member, or the owner entry goes |
| Server.Registry.LeaveRoom | server.py:255-276 | LEAVE as `Handlers.Leave` says |
| Server.Registry.Depart | server.py:260-276 | a successful LEAVE |
| Server.Registry.LeaveNotices | server.py:274-275 | LEAVE_OK and the departure notice |
| Server.Registry.RemoveRoom | server.py:202-253 | DELETE_ROOM as `Handlers.DeleteRoom` says |
| Server.Registry.HandOver | server.py:216-243 | DELETE_ROOM with others present |
| Server.Registry.HandOverNotices | server.py:237-242 | the handover notice and LEAVE_OK to the requester, the ownership notice to the others |
| Server.Registry.Dissolve | server.py:226-235 | DELETE_ROOM by the owner alone removes the room (server.py:246-248 for the reply) |
| Server.Registry.QuitSession | server.py:278-288 | QUIT sends Bye and terminates the session |
| Server.Registry.HandleControl | server.py:99-291 | `handle_control` as `Handlers.HandleControl` says, with UNKNOWN_SUBTYPE for any other subtype |
| Server.Registry.HandleChat | server.py:294-330 | `handle_chat` sends exactly the lines of `Handlers.HandleChat` and changes nothing |
| Server.Registry.MemberNames | server.py:341-345 | the names of the named members of the requester's room, each once |
| Server.Registry.ActiveNicks | server.py:355-357 | the names of every REGISTERED or IN_ROOM connection, each once |
| Server.Registry.HandleInfo | server.py:333-361 | `handle_info` sends exactly the lines of `Handlers.HandleInfo` and changes nothing |
| Server.Registry.ProcessMessage | server.py:364-396 | one received line as `Handlers.ProcessMessage` says |
| Server.Registry.Dispatch | server.py:372-396 | a routed line runs its handler; a refused one sends its error |
| Server.Registry.CleanupClient | server.py:399-422 | `cleanup_client` as `Handlers.CleanupClient` says; the connection is gone afterwards |
| Server.Registry.Forget | server.py:402-419 | the table updates of `cleanup_client` |
| Server.Registry.LeaveOnClose | server.py:402-411 | the room part of `cleanup_client` |
| Server.Registry.Connect | server.py:432-434 | a new connection is added to the tables, CONNECTED |
| Server.Registry.Drain | server.py:448-450 | the inner loop handles exactly the complete lines of the buffer, in order, and keeps the tail. The tables become the fold of `Handlers.ProcessMessage` over those lines with a fair pick each (`Run`). What it sends is each line's messages expanded, one line after another |
| Server.Registry.Receive | server.py:441-450 | the receive loop handles exactly the lines framed from the chunks used, lines after a QUIT in the same chunk included. The tables become `Run` over them and the sends are their expanded messages in order. It stops only at an empty chunk or a terminated session |
| Server.Registry.HandleClient | server.py:430-456 | a whole connection: the tables are `Handlers.Connect`, then `Run` over the lines framed from the chunks, then `Handlers.CleanupClient` with a fair pick. The sends are those of the lines followed by the departure notices of the cleanup |
| Server.RunKeepsGood | server.py:441-450 | handling any sequence of received lines, with fair picks, keeps the tables consistent |
| Framing.FrameRoundTrip | server.py:449-450 | the cut lines, each with its newline, followed by the tail, are the buffer |
| Framing.FrameRestShape | server.py:449 | the tail left in the buffer holds no newline |
| Framing.FrameLinesShape | server.py:449-450 | no handled line holds a newline |
| Framing.FrameUnique | server.py:449-450 | newline-free lines and tail that make up a buffer are exactly what the loop cuts |
| Framing.FrameChunks | server.py:445-450 | once the chunks are decoded text, how that text is divided into chunks does not change the lines handled |
| Framing.FrameNoNewline | server.py:449 | a buffer without a newline is kept whole |
| Framing.Frame | server.py:448-450 | the lines the inner loop cuts off a buffer and the tail it keeps, specified by Framing.FrameRoundTrip, Framing.FrameLinesShape, Framing.FrameRestShape and Framing.FrameUnique |
| Framing.Unframe | server.py:448-450 | the text of lines, each with its newline: the inverse of `Frame` by Framing.FrameRoundTrip and Framing.FrameUnique |
| Framing.FrameMore | server.py:441-450 | receiving one more chunk and draining the buffer extends the lines framed from all chunks so far |
| Text.Strip | server.py:366 | `strip` leaves neither leading nor trailing whitespace and never lengthens |
| Text.StripBlank | server.py:366-368 | a line strips to nothing exactly when it is all whitespace |
| Text.StripPadded | server.py:366 | `strip` removes exactly the whitespace around a string |
| Text.SplitJoin | server.py:371 | joining the pieces of a split gives the string back |
| Text.JoinSplit | client.py:37 | splitting a join of delimiter-free pieces gives the pieces back |
| Text.SplitOnce | server.py:449 | `split("\n", 1)` returns the text before the first newline and the rest, or the text whole |
| Text.ParseDigit | server.py:381 | `int` of one decimal digit is its value |
| Text.ParseNeedsDigit | server.py:381-383 | a TYPE without any digit is not an integer |
| Text.NatToStringValue | server.py:396 | the TYPE shown in UNKNOWN_TYPE reads back as the number |
| Client.BuildPlain | client.py:117-119 | blank input sends nothing; text that is not a command becomes `1\|ROOM_MSG\|` plus the trimmed text |
| Client.BuildCommand | client.py:122-126 | a command splits into its keyword, at the first space, and the tail |
| Client.BuildBareCommand | client.py:124-126 | a keyword alone has an empty tail |
| Client.KeywordCase | client.py:122-126 | a keyword typed with any of its letters in upper case is read as the lower-case command, with the same tail |
| Client.NamedCommands | client.py:129-145 | `/nick`, `/create` and `/join`, in any case, send nothing without a tail, and otherwise send `0\|NICK\|`, `0\|CREATE_ROOM\|` or `0\|JOIN\|` followed by the whole tail, spaces included |
| Client.PlainCommands | client.py:147-173 | `/delete`, `/quit` and `/leave` ignore any tail. `/dm` needs a space in its tail. An unknown command sends nothing |
| Client.ListCommands | client.py:165-169 | `/list` and `/listall`, in any case, send the bare query without a tail, and with one send the query plus one more field holding the tail |
| Client.DmCommand | client.py:156-162 | `/dm` splits at the first space into recipient and message |
| Client.CommandLineShape | client.py:128-173 | every command line starts with the TYPE digit 0, 1 or 2 and a `\|` |
| Client.BuildProtocolLine | client.py:111-176 | `build_protocol_line`, specified by Client.BuildPlain, Client.BuildCommand, Client.KeywordCase, Client.NamedCommands, Client.ListCommands and the Interop lemmas |
| Client.CommandLine | client.py:128-173 | the line sent for a lower-case keyword and its tail, specified by Client.PlainCommands, Client.DmCommand and Client.CommandLineShape |
| Client.FormatServerLine | client.py:29-55 | `format_server_line`, specified by Client.FormatVerbatim and the Interop.Show lemmas |
| Client.FormatVerbatim | client.py:31-55 | a line of another kind, or with too few fields, is shown as it came |
| Client.Mirrored | client.py:58-82 | one server line changes the nickname or the room of the copy, never both |
| Client.MirrorKeeps | client.py:77-82 | lines other than acknowledgements and SYSTEM lines leave the copy alone |
| Client.MirrorNickOnlyOnAck | client.py:65-66 | the nickname changes only on NICK_OK, and then to its second field |
| Client.ClientState.constructor | client.py:206 | the client starts knowing neither nickname nor room |
| Client.ClientState.UpdateFromServer | client.py:58-82 | the copy after a line is `Mirrored` of the copy before |
| Client.BuildPrompt | client.py:180-190 | the prompt ends in "> " and is exactly "> " when no nickname is known. It begins with the nickname when one is known, followed by the room when one is known too |
| Interop.CommandReachesHandler | client.py:111-173 | every line a command builds reaches, at the server, the handler and fields the command names |
| Interop.NamedReachesHandler | client.py:129-145 | `/nick`, `/create` and `/join` reach NICK, CREATE_ROOM and JOIN with the tail's pieces |
| Interop.PlainReachesHandler | client.py:147-154 | `/delete`, `/quit` and `/leave` reach DELETE_ROOM, QUIT and LEAVE with no fields |
| Interop.DmReachesHandler | client.py:156-162 | `/dm` reaches DM with the recipient and the message's pieces |
| Interop.ListReachesHandler | client.py:165-169 | `/list` and `/listall` reach LIST_USER and LIST_ALL |
| Interop.SayReachesRoomMsg | client.py:176 | plain text reaches ROOM_MSG; it is one field exactly when the text has no `\|` |
| Interop.RegisterEndToEnd | client.py:129-133 | a CONNECTED client typing `/nick` with a free name is registered under it, gets NICK_OK, and its copy then holds the name |
| Interop.RegisterRoutes | client.py:129-133 | the `/nick` line reaches NICK with the name as its one field |
| Interop.RegisterHandled | server.py:103-131 | NICK with a free, trimmed name registers a CONNECTED session and answers NICK_OK |
| Interop.ControlReaches | server.py:389-390 | a control line reaches `handle_control` with its fields |
| Interop.ShowRoomMsg | client.py:36-38 | a room message is shown with its room and sender and its text whole, `\|` included |
| Interop.ShowDm | client.py:39-41 | a DM is shown with its sender and its text whole |
| Interop.ShowNotice | client.py:42-44 | every notice is shown as a SYSTEM line of level INFO with its text |
| Interop.ShowUserList | client.py:45-47 | a room's user list is shown with the room, or as "(empty)" |
| Interop.ShowUserListAll | client.py:48-50 | the full user list is shown, or as "(empty)" |
| Interop.ShowVerbatim | client.py:51-55 | acknowledgements and errors are shown as they came |
| Interop.MirrorAck | client.py:65-72 | NICK_OK sets the nickname, CREATE_ROOM_OK and JOIN_OK set the room, LEAVE_OK and DELETE_ROOM_OK clear it |
| Interop.MirrorIgnores | client.py:77-82 | errors, user lists, messages and DM acknowledgements leave the copy alone |
| Interop.MirrorOthersLeave | client.py:73-76 | the departure notice clears the room of every client that receives it |
| Interop.LeftNoticeSaysLeft | server.py:198 | the departure notice holds the word the client looks for |

## Left out

- Sockets, threads and the lock are not modelled. `recv`, `sendall`, `close`, `shutdown` and `accept` are left out, and so is the lock. Each handler is one atomic step on the tables, and a send is a `Send` value in the out list.
- The server's and the client's `print` output is left out, and so are their `main` loops and argument handling.
- Exceptions are left out: `handle_client`'s `try/except`, the client's `try/except` in `format_server_line`, and failed sends. No modelled step raises.
- UTF-8 decoding is not modelled (`data.decode`): chunks arrive as strings. In the source each `recv` chunk is decoded on its own, so a chunk that ends inside a multi-byte character (Korean text cut by the 1024-byte read or by TCP segmentation) makes `decode` raise; the exception ends the receive loop (server.py:446, 452-456) and the connection is cleaned up with no later line handled. Framing.FrameChunks holds for decoded text only.
- Handlers.DeleteRoom and Handlers.Leave: the source picks a new owner with `random.choice` or as the first element of a set's iteration order. The model takes the pick as a parameter and proves the properties for every fair pick (one of the others). It does not say which member is chosen.
- Server.Registry.Broadcast and Server.Registry.MemberNames: set iteration order is not modelled. Broadcasts and name lists are proved to cover each member exactly once, in some order.
- Server.Registry.Dissolve: the `else` branch at server.py:249-251 needs another member in a room the requester owns alone, so it cannot run. The model sends only DELETE_ROOM_OK.
- The client's `recv_loop` (client.py:85-108), with its framing and the `strip` of each received line, is left out. Interop relates rendered replies to `format_server_line` and `update_state_from_server` directly.
- Reply wording: the acknowledgement, error and notice texts are modelled as `Reply` constructors rendered to the source's strings. The Korean notice texts are kept as the source writes them.
- Text.ParseInt: it models `int()` for ASCII digits with single underscores, an optional sign and surrounding whitespace. Non-ASCII Unicode digits are not accepted, and CPython's limit of 4300 digits on `int()` of a string is not modelled. A TYPE longer than that is read here as its number, where CPython raises `ValueError` and the server answers UNKNOWN_TYPE ("TYPE must be int"), so the reply to such a line differs.
- Text.Lower: it maps ASCII letters (and the Kelvin sign) only. The rest of Unicode case mapping does not matter when comparing against the ASCII command keywords.
- Text.Strip: it uses Python's `isspace` character set as listed in the model.
- Ownership as "current member": the model does not prove that a room's owner is always one of its members. The source breaks this (for example when an owner creates a second room), and no property depends on it.

## Notes

- When anyone leaves a room, the server sends the departure notice (server.py:198, 275, 422). Its text holds the word the client watches for (client.py:75). So the client of every *remaining* member clears its own room on that notice, although it is still in the room (Interop.MirrorOthersLeave). The handover notice at server.py:242 avoids the word on purpose. This is stated as a lemma rather than as a finding, because the source's intent for the departure notice is not clear enough to state a corrected behaviour.
