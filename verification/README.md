# Distributed chat: a verified model

The program is a cluster of chat servers. Clients log in on one server, join rooms, and
send private, room and broadcast messages; the servers tell each other who is online
where and which rooms have members where, and pass messages on over TCP links. This
project models that cluster in Dafny and proves what its documentation promises of it,
where the promise holds, and exactly when it holds where it does not hold always.

## How the model is laid out

Bytes on the wire

- `Bytes`, `Fields`, `Frames`, `Decimal`, `Messages`: texts, the NUL-terminated field
  codec, length-prefixed frames, `std::to_string` and `std::stoi`, and the packets that
  servers exchange. `Messages.Wire` is a message as its receiver reads it.
- `Transport`: the partial-I/O loops over a socket that may take or give any part of
  what it is offered, or nothing for now, as often as it likes.
- `LockedSend`: threads that send on one session under its lock.

One server

- `Nodes`: the state of a server as a value, and each handler as a function on it.
- `Users`, `ChatRooms`, `Connections`, `Server`, `Heartbeats`: the server as the objects
  it is made of. `Server.ChatServer.State` reads the objects as a value of `Nodes`, and
  every handler is proved to change that value as the function in `Nodes` says. The
  `Replicate*` and `Route*` operations of the replication manager, which has no state but
  a reference to its server, are methods of `ChatServer`.
- `Replies`: what every session is told, message by message, for each request, each
  disconnect and each packet of a peer, as long as sends succeed. Together with
  `NodeFacts.RequestCore`, which says what happens to the tables and what the peers are
  sent, it pins each handler.
- `Pool`: the thread pool, as a transition system and as an object.

The cluster

- `Cluster`: a labelled transition system over any number of servers. Its steps run the
  functions of `Nodes`; the links are FIFO queues.
- `RoomRoutes`, `Directory`, `Sessions`, `Quiescence`: what replication achieves over
  whole runs, for rooms, users and session indexes, and what remains when nothing is
  under way any more.
- `Chats`, `Delivery`, `ExactlyOnce`, `PrivateOnce`, `Staying`: how many copies of a chat
  message exist, under way and read, over whole runs, and that who stays gets one.
- `PresenceLists`: over whole runs, the list of users online that a client was sent last
  is its server's directory; and a connection that has become a link is no client again.
- `SendFailure`, `HeartbeatTiming`: failing sockets, silent peers, late answers.

The central idea for replication: the table of a receiver, after folding in what is still
under way to it, equals the truth at the sender (`RouteView`, `UserView`). The central
idea for delivery: the copies of a chat that a session has read plus the packets with it
under way to the session's server are a quantity that only the request for the chat
raises, and that no step between undisturbed servers lowers (`ChatSum`).

## What is assumed

- A handler is one step. The source takes a lock for each table access, so the check for
  the first member of a room and the insertion, or the check for a name and its
  registration, can be interleaved there.
- Packets of one link, and of one client including its end of file, are handled in the
  order in which they were sent. `Pool.OrderedExactly` shows that a pool keeps that order
  if and only if it has at most one worker; the default is four.
- Between two servers there is one link. It goes down at both ends and loses what is
  under way; when it comes back nothing is announced again. Server ids are positive.
- Only a session that has not logged in becomes a link (`S2S_CONNECT`).
- Room names and texts in requests contain no NUL byte. The server checks that for user
  names alone; `Messages.BroadcastReadAsPrivate` shows what a NUL byte in a broadcast
  does.
- Peers are visited in the order of the peer table. The order of names in a presence list
  is left open.
- Within `Cluster`, sends succeed until a link goes down. `SendFailure.FailedSendIsLinkLoss`
  shows that this is no restriction for the sender's tables.
- A handler that throws (`std::stoi` on a malformed id) has changed no table before; the
  exception stays in the future that `Enqueue` returned, and the model treats the packet as unreadable.

Where a promise needs more than that, the rule of the run says so: `OneLogin` (no session
logs in twice, which the shipped client keeps to and the server does not check), `Orderly`
(besides, links stay up, and a user logs in only when no other server has news of that
user under way), `AtHome` (each user logs in at one server only), `LinksStay`, `AnyStep`
(anything). `Attached` is what a recipient of a message has to keep to: it does not hang
up or leave the room, its server's links stay up, nobody logs in under its name against
the discipline, and the same message is not sent again; all other links may fail.

The documentation gives the frame limit as less than one megabyte of payload. The code
compares the type byte plus the payload with 1048576 and accepts equality; the model does
as the code.

## Model

| member | source | states |
|---|---|---|
| Fields.Pack | src/protocol/MessageSerializer.cpp:53-60 | the loop builds each field followed by its terminator, in order |
| Fields.Unpack | src/protocol/MessageSerializer.cpp:62-77 | the loop yields the maximal NUL-free runs; a last run without terminator counts only when it is not empty |
| Fields.SplitPacked | src/protocol/MessageSerializer.cpp:53-77 | a list of fields, empty ones included, survives the codec if and only if no field contains a NUL byte |
| Fields.SplitAfterPacked | src/protocol/MessageSerializer.cpp:53-77 | a packed block is recovered ahead of any further bytes, and those are read as if alone |
| Fields.PackedSplit | src/protocol/MessageSerializer.cpp:53-77 | packing what was unpacked gives the payload back, plus a terminator exactly when it was missing |
| Fields.NestedStatusList | src/server/ChatServer.cpp:394-411 | a presence notice with a packed list inside is read by the client as its category, all names in order, and one empty field: no name is lost or merged |
| Frames.Serialize | src/protocol/MessageSerializer.cpp:4-20 | the buffer filled in place is the frame: big-endian length of type byte and payload, type, payload |
| Frames.ParseFrameOf | src/protocol/MessageSerializer.cpp:4-51 | ahead of any bytes, a serialized packet is read back if and only if type byte plus payload are within 1048576 bytes |
| Frames.ParseConsumesFrame | src/protocol/MessageSerializer.cpp:22-51 | a successful read has consumed exactly the bytes that serializing its result produces |
| Frames.ParseStream | src/protocol/MessageSerializer.cpp:4-51 | concatenated frames are read as the packets they came from, in order, whatever follows them |
| Frames.StreamOfParsed | src/protocol/MessageSerializer.cpp:22-51 | whatever packets a stream is read as, their frames stand at its front |
| Frames.UnfinishedFrame | src/protocol/MessageSerializer.cpp:22-51 | no proper prefix of a frame is taken for a packet |
| Frames.FrameBytes | src/protocol/MessageSerializer.cpp:4-20 | the first four bytes of a frame, most significant first, are the number of bytes behind them; then come the type and the payload, and nothing else |
| Frames.LargestFrame | src/protocol/MessageSerializer.cpp:22-51 | the largest payload that is read back has 1048575 bytes |
| Bytes.TrimTakesBlanks | include/core/common/Common.h:29-34 | spaces, tabs, carriage returns and line feeds are taken off both ends, as many as there are, and no other byte is |
| Transport.TcpSocket.SendAll | src/core/networking/TcpSocket.cpp:243-274 | over any pattern of partial sends and would-block results the wire gets a prefix of the buffer, all of it if and only if the result is true |
| Transport.TcpSocket.RecvAll | src/core/networking/TcpSocket.cpp:276-307 | over any pattern of arrivals the buffer gets the next bytes of the stream, and the result tells whether there were enough |
| Transport.ReadPacket | src/protocol/MessageSerializer.cpp:22-51 | succeeds exactly when a whole frame within the limit is coming, returns its packet and takes nothing else |
| Transport.ReceiveLoop | src/client/ChatClient.cpp:99-111 | reading packet after packet yields all packets before the first failure |
| Transport.SendPacket | src/server/ClientSession.cpp:44-65 | puts on the wire as much of the frame as the socket takes, and returns true if and only if that is all of it |
| Transport.SendInTurn | src/server/ClientSession.cpp:44-65 | calls of `SendPacket`, up to the first that fails, put on the wire what the specification says for any script of partial sends and errors, and as many packets get through |
| Transport.FramesSurviveTheNetwork | src/core/networking/TcpSocket.cpp:243-307 | whatever the sender's socket takes at a time, wherever it fails, and however the network cuts what went out into arrivals, with would-blocks anywhere between them, the end of the stream reached or not: the receive loop gets exactly the packets whose frames were taken whole |
| Transport.IncomingSkipsNotYet | src/core/networking/TcpSocket.cpp:286-297 | a would-block makes no difference to what is read, wherever it comes |
| Transport.IncomingEndsAtClosed | src/core/networking/TcpSocket.cpp:286-297 | nothing behind the end of the stream or an error is read, and all before it is |
| Transport.IncomingIsArrived | src/core/networking/TcpSocket.cpp:276-307 | as long as the stream has not ended, what is read is all arrivals in a row |
| Transport.TakenUpToError | src/core/networking/TcpSocket.cpp:243-274 | up to the first error a send takes what the script allows, would-blocks passed over, and nothing behind it |
| Transport.NothingRefused | src/core/networking/TcpSocket.cpp:243-274 | without errors, would-block results or not, all packets get through |
| Transport.CutStream | src/protocol/MessageSerializer.cpp:22-51 | a sender that fails inside a frame costs the reader that packet and no other |
| Decimal.StoiToString | src/server/ReplicationManager.cpp:43-81 | every id in the range of `int`, negative ones included, survives being printed and parsed |
| Decimal.StoiPassesOver | src/server/ChatServer.cpp:687 | white space before a number and anything but a digit behind it make no difference; a number is accepted if and only if 32 bits hold it |
| Decimal.StoiRefuses | src/server/ChatServer.cpp:687 | a text with neither sign nor digit where the number is due is refused |
| Messages.WireFaithful | src/server/ReplicationManager.cpp:43-155 | a message between servers is read as it was meant if and only if its texts contain no NUL byte and its id is an `int` |
| Messages.MessageTypes | include/protocol/Packet.h:17-22 | the packet number of each message between servers |
| Messages.PacketTypes | src/server/ChatServer.cpp:316-342 | what a packet with any number and any payload is read as, by its fields; a route of three fields is a private message, of two a broadcast |
| Messages.DecodedSendable | src/server/ChatServer.cpp:682-817 | no packet at all, malformed or not, is read as a message with NUL bytes or an id out of range |
| Messages.BroadcastReadAsPrivate | src/server/ChatServer.cpp:564-573 | a broadcast text with one NUL byte is read by the peers as a private message to whomever the text before the byte names |
| LockedSend.WholeFramesExactly | src/server/ClientSession.cpp:44-65 | under any interleaving of threads and any partial sends, the wire is whole frames in lock order and a prefix of the lock holder's, if and only if every call that has returned wrote all of its frame or none of it |
| LockedSend.WholeFrames | src/server/ClientSession.cpp:44-65 | in that case the client reads exactly the packets whose frames are complete, the holder's included |
| LockedSend.RunUnmixed | src/server/ClientSession.cpp:44-65 | failures or not, bytes of different calls never mix |
| LockedSend.ThreadOrder | src/server/ClientSession.cpp:44-65 | failures or not, the packets of one thread go through in the order in which it sent them |
| LockedSend.BrokenCallLosesTheNext | src/server/ClientSession.cpp:58-59 | after any call that stopped strictly inside its frame, a later call can succeed, its frame going out whole, and its packet is not read |
| Users.UserManager.ClearServerUsers | src/server/UserManager.cpp:30-39 | erasing while iterating removes exactly the users of one server |
| Users.UserManager.GetOnlineUsers | src/server/UserManager.cpp:41-48 | every user online is listed, once |
| Users.UserManager.RegisterUser | src/server/UserManager.cpp:6-9 | one user's place is set, all others keep theirs |
| Users.UserManager.UnregisterUser | src/server/UserManager.cpp:11-14 | one user is gone, all others keep their place |
| ChatRooms.ChatRoomManager.JoinRoomLocal | src/server/ChatRoomManager.cpp:4-7 | a member is added; the room comes into being if need be, with no remote servers |
| ChatRooms.ChatRoomManager.LeaveRoomLocal | src/server/ChatRoomManager.cpp:9-15 | a member is gone; an unknown room stays unknown |
| ChatRooms.ChatRoomManager.JoinRoomRemote | src/server/ChatRoomManager.cpp:17-20 | a server is added to the room's list, its local members untouched |
| ChatRooms.ChatRoomManager.LeaveRoomRemote | src/server/ChatRoomManager.cpp:22-28 | a server is gone from the room's list; an unknown room stays unknown |
| ChatRooms.ChatRoomManager.GetLocalMembers | src/server/ChatRoomManager.cpp:30-37 | every local member is listed, once; none for an unknown room |
| ChatRooms.ChatRoomManager.ClearServerMemberships | src/server/ChatRoomManager.cpp:48-53 | one server is gone from every room, and nothing else has changed |
| Connections.ConnectionManager.AddSession | src/server/ConnectionManager.cpp:4-7 | the session is in the socket index; no other index has changed |
| Connections.ConnectionManager.AuthenticateSession | src/server/ConnectionManager.cpp:9-14 | the session has the name and is authenticated, and the name leads to it |
| Connections.ConnectionManager.RemoveSession | src/server/ConnectionManager.cpp:16-26 | the handle is gone, and with it the name of its session, whoever was registered under that |
| Connections.ConnectionManager.GetAllSessions | src/server/ConnectionManager.cpp:46-53 | every session of the socket index is listed, once |
| Connections.ConnectionManager.AddPeerNode | src/server/ConnectionManager.cpp:55-58 | the node is known under its id, in place of one that was, and the others are as they were |
| Connections.ConnectionManager.RegisterPeerSocket | src/server/ConnectionManager.cpp:60-67 | a known peer is connected; connected means having a socket |
| Connections.ConnectionManager.UnregisterPeerSocket | src/server/ConnectionManager.cpp:69-79 | a known peer is not connected, and what was under way to it is gone |
| Connections.ConnectionManager.GetAllPeerNodes | src/server/ConnectionManager.cpp:99-106 | every peer is listed, in the order of the peer table |
| Connections.ServerNode.SetSocket | src/server/ServerNode.cpp:8-14 | connected if and only if there is a socket; only a new socket refreshes the heartbeat |
| Server.ChatServer.AddPeerConfig | src/server/ChatServer.cpp:17-22 | a configured peer is known and not connected, with nothing under way to it |
| Server.ChatServer.HandlePeerDisconnect | src/server/ChatServer.cpp:86-112 | the objects change as `Nodes.PeerDown` says: a link that was up is down, all that was learnt over it is forgotten, and clients hear who is left; nothing happens twice |
| Server.ChatServer.BroadcastS2S | src/server/ReplicationManager.cpp:9-41 | one packet to every connected peer whose socket works, and each other link is taken down on the way |
| Server.ChatServer.RoutePrivateMessage | src/server/ReplicationManager.cpp:83-117 | one packet to the one server named, if it is a connected peer |
| Server.ChatServer.RouteRoomMessage | src/server/ReplicationManager.cpp:119-155 | one packet to each connected peer that was listed for the room when the loop began |
| Server.ChatServer.HandleLogin | src/server/ChatServer.cpp:346-413 | the objects change as the login function on values says; the answers are those of `Replies.LoginReplies` |
| Server.ChatServer.HandlePrivateMsg | src/server/ChatServer.cpp:415-483 | likewise for private messages, with their three routes and the malformed case; the answers are those of `Replies.PrivateReplies` |
| Server.ChatServer.HandleRoomMsg | src/server/ChatServer.cpp:485-538 | likewise for room messages: one copy for each member name that has a session |
| Server.ChatServer.HandleBroadcastMsg | src/server/ChatServer.cpp:540-574 | likewise for broadcasts: every authenticated session and every peer |
| Server.ChatServer.HandleRoomJoin | src/server/ChatServer.cpp:576-611 | likewise for joins: peers are told when and only when the room had no member here |
| Server.ChatServer.HandleRoomLeave | src/server/ChatServer.cpp:613-643 | likewise for leaves: peers are told when and only when no member is left here |
| Server.ChatServer.HandleClientPacket | src/server/ChatServer.cpp:259-314 | any packet of any client has the effect of the request it is read as, login being asked for first |
| Server.ChatServer.HandleDisconnect | src/server/ChatServer.cpp:173-193 | the session leaves the indexes and its user the directory, others are told; no room is left |
| Server.ChatServer.HandleServerPacket | src/server/ChatServer.cpp:316-342 | any packet of a peer refreshes its heartbeat and has the effect of the message it is read as |
| Server.ChatServer.ConnectTo | src/server/ChatServer.cpp:227-249 | a peer that is not connected becomes connected when connecting succeeds, and is introduced to exactly then; nothing else changes |
| Server.Introduced | src/server/ChatServer.cpp:293-309 | the introduction, printed by one server and parsed by the other, makes the session the link to the server that sent it |
| Server.Dispatched | src/server/ChatServer.cpp:259-314 | taking a packet apart first and then handling the request agrees with dispatching on the packet type |
| Replies.RequestTypes | src/server/ChatServer.cpp:271-313 | what a client's packet with any number and any payload is read as; 100 introduces a server |
| Replies.LoginReplies | src/server/ChatServer.cpp:349-412 | exactly one answer to the one who asked, refused for a bad name, refused for a taken one, accepted otherwise; then everybody logged in, the newcomer included, gets one list of the users with the new one; nobody gets anything else |
| Replies.LoginAccepted | src/server/ChatServer.cpp:363-390 | the welcome goes out if and only if the name is well formed and free; then the session is logged in under it, and otherwise no table has changed and no peer is told |
| Replies.PrivateReplies | src/server/ChatServer.cpp:432-482 | delivered, routed or offline, by the directory entry of the receiver; only the sender is answered, once at most, and only the session under the receiver's name gets the text |
| Replies.RoomReplies | src/server/ChatServer.cpp:499-531 | every member of the room gets one copy for each name it is in the room under; who is not in the room reaches nobody and is told so |
| Replies.BroadcastReplies | src/server/ChatServer.cpp:547-562 | every session logged in gets one copy, the sender included |
| Replies.JoinReplies | src/server/ChatServer.cpp:576-605 | who joins is told so, then every member of the room, the newcomer included, hears who has entered; without a room name nothing is sent |
| Replies.LeaveReplies | src/server/ChatServer.cpp:613-637 | who leaves is told so, then every remaining member hears who has left; who was not in the room is told nothing |
| Replies.CreateReplies | src/server/ChatServer.cpp:645-664 | creating a room is confirmed to the one who asked and changes no table |
| Replies.StrangerReplies | src/server/ChatServer.cpp:260-269 | a session that has not logged in is refused everything but logging in and introducing a server, and nothing changes |
| Replies.DroppedReplies | src/server/ChatServer.cpp:295-312 | an introduction without a number and an unknown packet type do nothing at all |
| Replies.HangupReplies | src/server/ChatServer.cpp:175-191 | when a user hangs up everybody else logged in gets one list of the users without that one |
| Replies.PeerDownReplies | src/server/ChatServer.cpp:100-110 | when a link is lost everybody logged in gets one list of the users that are not on the lost server |
| Replies.PeerDownForgets | src/server/ChatServer.cpp:86-98 | the link is down, what was under way on it is gone, and so are the users placed on the peer and its place in the rooms; all else stays |
| Replies.PeerDownTwice | src/server/ChatServer.cpp:88 | losing a link that is down changes nothing and tells nobody |
| Replies.NewsReplies | src/server/ChatServer.cpp:690-709 | on news of a user everybody logged in gets one list of all users known, on whatever server |
| Replies.PacketReplies | src/server/ChatServer.cpp:712-800 | what sessions get for a routed private message, broadcast or room message; other packets are not told to clients |
| Replies.PingAnswered | src/server/ChatServer.cpp:668-676 | a ping is answered once, on the link it came from |
| Replies.PingSent | src/server/HeartbeatManager.cpp:47-67 | a ping goes to the one peer, if it is connected |
| Replies.PromotedIsGone | src/server/ChatServer.cpp:293-309 | a session that introduces itself as a server is no client any more: its handle and its name leave the indexes, every other handle stays, and the peer is connected if it is a configured one |
| SendFailure.FailedSendIsLinkLoss | src/server/ReplicationManager.cpp:13-40 | a send loop over failing sockets leaves the tables as if all sends had worked and the failing links had gone down afterwards |
| PresenceLists.ListsAreCurrent | src/server/ChatServer.cpp:394-411 | in every state of every run the last list of users that a session logged in has been sent is exactly its server's directory |
| PresenceLists.StepCurrent | src/server/ChatServer.cpp:698-709 | every step of the cluster keeps that so: logins, logouts, replication, and links that go down or come up |
| PresenceLists.SendEachCurrent | src/server/ReplicationManager.cpp:9-41 | and so does a send loop in which any sockets fail |
| PresenceLists.NoClientAnyMore | src/server/ChatServer.cpp:293-309 | after a connection has become a link no run ever takes a request, a disconnect or an introduction from it as a client's |
| PresenceLists.NoClientAfterHangUp | src/server/ChatServer.cpp:173-193 | nor after a disconnect |
| Heartbeats.ExpiredAfter | src/server/HeartbeatManager.cpp:39-40 | silent means not heard of for fifteen thousand milliseconds or more; seconds are rounded down |
| Heartbeats.Tick | src/server/HeartbeatManager.cpp:34-77 | a tick pings every connected peer, except that peers silent for fifteen seconds are treated as those whose socket fails |
| HeartbeatTiming.Watch | src/server/HeartbeatManager.cpp:28-80 | the loop pings on every tick before the first one that finds the peer expired, and cuts the link on that one |
| HeartbeatTiming.SilentPeerIsCut | src/server/HeartbeatManager.cpp:28-48 | a peer silent since some moment is cut before the timeout and one more period have passed |
| HeartbeatTiming.CutWithinTwentySeconds | src/server/HeartbeatManager.cpp:28-48 | with ticks every five seconds: within twenty seconds |
| HeartbeatTiming.SafeExactly | src/server/HeartbeatManager.cpp:37-44 | no link whose pings are answered within a delay is ever cut, if and only if that delay, rounded up to whole periods, is below the timeout |
| HeartbeatTiming.TenSecondsExactly | src/server/HeartbeatManager.cpp:37-44 | with ticks every five seconds: if and only if answers take at most ten seconds |
| Pool.AcceptedOnce | src/core/threading/ThreadPool.cpp:8-22 | in every run tasks start in the order in which they were accepted, and each accepted task is finished, running or waiting, exactly one of the three |
| Pool.GoneMeansDone | src/core/threading/ThreadPool.cpp:15-17 | when a pool with workers has none left, every task it accepted has run |
| Pool.SingleWorkerFromStart | src/core/threading/ThreadPool.cpp:8-22 | one worker finishes tasks in the order in which they were accepted |
| Pool.OrderedExactly | include/server/ChatServer.h:58 | tasks are sure to finish in the order in which they were accepted if and only if the pool has at most one worker |
| Pool.StoppedPoolEnds | src/core/threading/ThreadPool.cpp:26-37 | in a stopped pool workers take a bounded number of steps, and only when all are gone can none of them move |
| Pool.NoWorkerNoWork | src/core/threading/ThreadPool.cpp:4-5 | without workers every accepted task waits for ever |
| Pool.ThreadPool.Enqueue | include/core/threading/ThreadPool.h:19-38 | the task is appended, or refused without effect if and only if the pool is stopped |
| Pool.ThreadPool.Fetch | src/core/threading/ThreadPool.cpp:11-20 | a worker takes the front task, or leaves exactly when the pool is stopped and the queue is empty |
| Pool.ThreadPool.Destroy | src/core/threading/ThreadPool.cpp:26-37 | under any schedule the destructor returns, with all workers gone and every accepted task run |
| NodeFacts.RequestCore | src/server/ChatServer.cpp:346-643 | with working sockets a request changes the tables in one server and puts at most one packet on each link |
| Cluster.StepSound | src/server/ChatServer.cpp:86-342 | every step keeps ids, peers, links at both ends and session tables consistent |
| RoomRoutes.InitialRoutes | src/server/ChatRoomManager.cpp:4-53 | the start meets the route invariants |
| RoomRoutes.StepMoves | src/server/ChatServer.cpp:576-643 | a step leaves a route as it was, or makes it right |
| RoomRoutes.RoomRoutesConverge | src/server/ChatServer.cpp:576-643 | while links stay up, in every reachable state the tables with what is under way folded in list exactly the servers that have members, for every room, whatever users are called |
| RoomRoutes.OneRouteConverges | src/server/ChatServer.cpp:576-643 | the same for each single link that stays up, whatever happens to the other links |
| RoomRoutes.QuietRoutesExact | src/server/ChatServer.cpp:802-817 | where nothing is under way, a server is listed for a room if and only if it has members there |
| RoomRoutes.NoPhantomRoutes | src/server/ChatServer.cpp:86-98 | however often links fail and come back, no server is listed, or about to be, for a room in which it has no members |
| RoomRoutes.LinkUpRoutes | src/server/ChatServer.cpp:293-309 | a link that comes back is right about a room, at either end, if and only if the other end has no members to tell of |
| RoomRoutes.ChangeRepairsRoute | src/server/ChatServer.cpp:584-610 | a route is right again from the moment the first member comes or the last goes, and stays right until the link goes down |
| Sessions.LoginIndex | src/server/ConnectionManager.cpp:9-14 | a first login keeps names, handles, directory and rooms in agreement |
| Sessions.HangupIndex | src/server/ChatServer.cpp:173-193 | so does a disconnect |
| Sessions.AskIndex | src/server/ChatServer.cpp:259-314 | so does any request, if no session logs in twice |
| Sessions.LoginKeepsIndex | src/server/ChatServer.cpp:346-382 | a login keeps the indexes in agreement if and only if it is refused or the session's first |
| Sessions.SecondLoginLeavesFirstName | src/server/ChatServer.cpp:363-392 | a second login is accepted, and its first name then stays in the directory and leads to a session that is gone |
| Directory.InitialDirectory | src/server/UserManager.cpp:4-48 | the start meets the directory invariants |
| Directory.DirectoriesConverge | src/server/ChatServer.cpp:363-392 | in every state of an orderly run each user has one owner, every directory with what is under way folded in agrees with it, and every session index agrees with its directory |
| Directory.OneHost | src/server/ChatServer.cpp:682-696 | in every state of an orderly run there is one server such that no other hosts the user or has news of the user under way, and every other directory, with what is under way folded in, has exactly that server's entry |
| Directory.LoginSettles | src/server/ChatServer.cpp:363-381 | a login keeps the directories settled if and only if no other server has news of the user under way |
| Directory.ConcurrentLoginsDiverge | src/server/ChatServer.cpp:363-381 | two logins under one name before the news arrives both succeed, and leave each server placing the user on the other |
| Directory.NoPhantomUsers | src/server/UserManager.cpp:30-39 | with users logging in at home, every step keeps the home invariants, whatever happens to links |
| Directory.InitialHomes | src/server/UserManager.cpp:4-48 | the start meets the home invariants, wherever in the cluster the homes are |
| Directory.PhantomsNeverAppear | src/server/UserManager.cpp:30-39 | from the start on, however often links fail and come back, every directory with what is under way folded in has a user at home, if the home server does, or nowhere |
| Directory.LinkUpUsers | src/server/ChatServer.cpp:293-309 | a link that comes back is right, at either end, about a user at home at the other if and only if the user is not logged in |
| Quiescence.DeliverWeight | src/server/ChatServer.cpp:316-342 | handling a packet always lessens what is under way, a ping counting two and any other packet one |
| Quiescence.DeliveriesEnd | src/server/ChatServer.cpp:316-342 | no schedule of deliveries is longer than that measure |
| Quiescence.RestIsReached | src/server/ChatServer.cpp:668-817 | some schedule brings every cluster to rest |
| Quiescence.EntriesAgreeExactly | src/server/ChatServer.cpp:682-696 | all schedules that bring the cluster to rest leave a server the same entry for a user, if and only if all queues to it that hold news of the user come to the same |
| Quiescence.SchedulesAgree | src/server/ChatServer.cpp:668-817 | they leave it the same directory and room tables, if and only if that is so for every user |
| Quiescence.RestRoomsAgree | src/server/ChatServer.cpp:802-817 | the room tables agree without any condition |
| Quiescence.SameLastNewsMeans | src/server/ChatServer.cpp:682-696 | the condition in other words: at most one server has news of the user under way, or the last news of each is a logout |
| Quiescence.OrderlyMeansOneSource | src/server/ChatServer.cpp:682-696 | orderly runs meet that condition |
| Quiescence.TwoSourcesDisagree | src/server/ChatServer.cpp:682-696 | where two queues come to different things, there are two schedules to rest that leave different entries |
| Delivery.StepSum | src/server/ChatServer.cpp:415-574 | for one session and one chat, copies read plus packets under way grow by no more than a request adds, and by exactly that in every step that cuts no link of the session's server and in which an arriving copy finds the session still a reader |
| ExactlyOnce.NeverTooMany | src/server/ChatServer.cpp:485-574 | no run delivers a room message or broadcast to a session more often than it was asked for |
| ExactlyOnce.PrivateStaysPrivate | src/server/ChatServer.cpp:415-483 | a session receives no private message but those asked for under its own name, each at most as often |
| PrivateOnce.PrivateAtMostOnce | src/server/ChatServer.cpp:712-739 | in the whole cluster a private message asked for once exists at most once, under way or read, and no two sessions both get it |
| ExactlyOnce.NeverListsItself | src/server/ReplicationManager.cpp:119-121 | in no run is a server in its own list of remote servers |
| ExactlyOnce.RoomTargets | src/server/ReplicationManager.cpp:119-155 | with no word about the room under way, a room message goes in one packet to each other server with members and to no other server |
| ExactlyOnce.RoomMessageUndisturbed | src/server/ChatServer.cpp:766-800 | a session that is due its copy whenever the packet is handled ends with exactly one copy of a room message |
| Staying.StepInPlace | src/server/ConnectionManager.cpp:9-26 | as long as a session does not hang up, its server keeps its links and logins under its name keep to the discipline, it alone is known under its name everywhere |
| Staying.RoomMessageExactlyOnce | src/server/ChatServer.cpp:766-800 | every session in the room, anywhere in the cluster, that stays connected and in the room while its server's links stay up, ends with exactly one copy of a room message |
| Staying.RoomMessageAtRest | src/server/ChatServer.cpp:485-538 | however the cluster comes to rest after a room message, every session in the room has exactly one copy |
| ExactlyOnce.BroadcastReaches | src/server/ChatServer.cpp:540-574 | a broadcast creates exactly one packet for each peer, and one copy for each session here |
| ExactlyOnce.BroadcastUndisturbed | src/server/ChatServer.cpp:741-763 | a session that is logged in whenever its server handles a broadcast ends with exactly one copy, though it may have logged in after the broadcast was sent |
| Staying.BroadcastExactlyOnce | src/server/ChatServer.cpp:741-763 | every session that is logged in and stays ends with exactly one copy of a broadcast |
| Staying.BroadcastAtRest | src/server/ChatServer.cpp:540-574 | however the cluster comes to rest after a broadcast, every session logged in has exactly one copy |
| ExactlyOnce.PrivateMessageUndisturbed | src/server/ChatServer.cpp:712-739 | a session that the receiver's name leads to whenever the packet is handled ends with exactly one copy |
| Staying.PrivateMessageExactlyOnce | src/server/ChatServer.cpp:415-483 | with no news of the receiver under way, the receiver's session, wherever it is, ends with exactly one copy if it stays connected while its server's links stay up |
| Staying.PrivateMessageAtRest | src/server/ChatServer.cpp:415-483 | however the cluster comes to rest after a private message, the receiver has exactly one copy |
| ExactlyOnce.OfflineIffNoHost | src/server/ChatServer.cpp:473-481 | with no news of the receiver under way, the sender is told that the user is offline if and only if no server hosts the user |
| ExactlyOnce.NothingIsForwarded | src/server/ChatServer.cpp:316-342 | handling a packet from a peer puts one acknowledgement of a ping on the link it came from, if that is up, and nothing on any link otherwise |
| ExactlyOnce.SecondLoginReadsTwice | src/server/ChatServer.cpp:576-605 | a member that asks for another name and joins its room again reads everything there once if and only if the name is refused |

## Left out

- Winsock start-up, `select`, `Accept`, `Connect`, socket options and errors other than would-block: foreign input and output; sockets are handles with an oracle for what they take and give.
- Logger, colours, console client, configuration files, batch scripts: user interface and plumbing.
- The socket index of peers (`m_peerNodesBySocket`): no handler reads it, and it is not kept in agreement.
- Frames on peer links written by several threads at once: the source takes no lock there; a packet to a peer is one step of the model.
- Interleavings inside handlers, half-open links and two links between one pair of servers: excluded by the assumptions above.
- Packets to peers that exceed the frame limit because a name was added to a text close to it: in the model every packet sent is within the limit.
- The wording of notices to clients: they are values of a datatype; their frames are covered by `Fields`, `Frames` and `Transport`.
- The start and stop flag of the heartbeat thread, and server start and shutdown other than the thread pool's.
- Frames.Serialize: payloads of 2^32 - 5 bytes and more are excluded, because `4 + totalLen` wraps on 32 bits there.
- Connections.ConnectionManager.UnregisterPeerSocket: leaves out the entry in the socket index of peers.
- HeartbeatTiming.Watch: follows one peer, up to its first cut; after it the source's loop passes the peer over until it is connected again. All peers of one tick are in `Heartbeats.Tick`.
- Connections.ConnectionManager.RegisterPeerSocket: leaves out the socket index of peers; registering over a live socket keeps what was under way on the old one; in `Cluster` a link comes up only when it is down.
- Server.ChatServer.RouteRoomMessage: visits the listed servers in the order of the peer table, where the source takes the order of its hash set; the order shows only in the presence notices between two failing sends.
- Heartbeats.Tick: takes the clock once and no time passes during it; `HeartbeatTiming` has ticks at exact intervals, and what is handled at the moment of a tick counts for it.
