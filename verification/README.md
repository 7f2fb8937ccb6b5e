# Verified model of the DroneEngage communication server

The communication server connects drones and ground stations (GCS) by web socket, relays their messages
between servers, keeps a storage connection, and opens UDP proxies for units. Node runs every event
handler to completion, so each handler is one atomic step; closes, timers, bind completions and frames on
the wire are the events between steps, in any order. Each of the four protocols is a state machine on
values (`Step`, `Run`), with theorems about every run, and beside it a class whose methods change the
module's variables in place and are proved against those steps.

- `Mesh.dfy`, `MeshTree.dfy`: the relay mesh between servers. A local broadcast is stamped and sent to
  parent and children; a relayed one is swallowed by a child that takes it for a handshake envelope,
  dropped where the path already has the server's id, otherwise handled and sent on. First on any link
  graph with failures, then exactly on trees.
- `Frames.dfy`, `SmallJson.dfy`: the byte frames (JSON header, NUL, payload) and their rewriting per hop.
  The frame results hold for every codec that satisfies three facts of JSON; `SmallJson` proves them of
  one.
- `Routing.dfy`: which units get a copy, and the mesh as one big room. `RelayServer.dfy`: the handlers of
  one server with its two channels; what they append to the links is proved to be one step of the mesh.
- `Rooms.dfy`, `Lifecycle.dfy`, `ChatServer.dfy`: the registry of accounts, groups and units, the sender
  index, and connects, kick-outs, late closes, logouts and dead sockets.
- `QueryScanner.dfy`, `LoginGate.dfy`, `LoginServer.dfy`: the URL scanner, temporary keys, the `de_auth`
  frame against its timer, and the gate before routing. The registry part of the gate is `Lifecycle`.
- `StorageClient.dfy`: the storage connection, its backoff, and the correlation of requests.
- `UdpProxy.dfy`: the UDP proxy registry and its reaper.

`dafny verify dfyconfig.toml` checks the whole project.

## What the code does otherwise than one would expect

Each of these is a theorem or a concrete run below.

- Relayed broadcasts are forwarded again (`js_chat_routing.js:143`), although
  `wiki/MessagePropagation.md:76-96` says they are not; the model follows the code.
- The channel to the parent excludes nothing (`js_child_comm_server.js:90-96`): every server that got a
  broadcast from its parent sends one copy back, and only the path check stops it.
- A child takes every message from its parent that has a non-null `s2s_auth` field and no payload for a
  handshake envelope and stops there (`js_child_comm_server.js:66-74`), and nobody removes that field from
  a client's header: such a broadcast gets to the ancestors of its origin only.
- Both relay receivers take every message for binary (`js_parent_comm_server.js:110-113`,
  `js_child_comm_server.js:77-80`), so a text frame is binary from the first hop on.
- A sender without a room, after `LogoutCommServer`, keeps the `_gid` and `_aid` it wrote itself, and they
  scope the delivery on other servers.
- A login without sender id is entered as "undefined", kicks nobody out and is refused by a room that holds
  "undefined" already, though it is acknowledged and indexed; no close cleans up after it.
- The index knows sender ids only, rooms know account and sender id: one id in two accounts makes them
  disagree, and the close of either socket takes the index entry of both.
- A drone's group or untargeted message reaches GCSs on its own server and everybody on the others.
- A socket that was logged out by command, or orphaned by a failing send, is not marked as kicked out.
  When it closes later, it removes by name whoever has replaced it, from room and index.
- A second UDP request before the first sockets have bound replaces the proxy whose callback starts the
  reaper; the new proxy is reported ready and no reaper runs.
- A tick after a sleep recreates every proxy and, since none is ready yet, at once recreates it again.
- The verdict of `fn_validateKey` is ignored; only the waiting list decides.

## Model

| member | source | states |
|---|---|---|
| `Mesh.EveryPacketCarriesItsTrail` | src/comm_server/chat_server/js_chat_relay.js:90-125 | on any link graph, cycles included, with links shut, packets lost and children reconnecting at any time: in every reachable state each packet in flight carries a walk of links from the origin to its last sender, and its path spells exactly the ids on that walk |
| `Mesh.StartTrails` | src/comm_server/chat_server/js_chat_relay.js:41-54 | the packets with which a broadcast starts carry such a trail, whatever path the client put into the header |
| `Mesh.TrailHasNoRepeats` | src/comm_server/chat_server/js_chat_routing.js:132-135 | with an empty initial path no server id occurs twice in the path of a packet |
| `Mesh.RepliesShape` | src/comm_server/chat_server/js_chat_relay.js:95-124 | everything a server sends on leaves over one of its links, comes from a packet that has not been there, and has exactly its own id added to the path |
| `Mesh.StepLowersWork` | src/comm_server/chat_server/js_chat_routing.js:132-135 | every delivery or loss lowers a weighted count of the server ids not yet on the paths in flight |
| `Mesh.RunsTerminate` | src/comm_server/chat_server/js_chat_routing.js:132-135 | so the length of every run of a broadcast is bounded, on any graph and under any failures |
| `Mesh.StepConserves` | src/comm_server/chat_server/js_chat_routing.js:132-143 | with all links up a step moves effects from "still to come" to "has happened" and neither adds nor loses one |
| `Mesh.OrderDoesNotMatter` | src/comm_server/chat_server/js_chat_routing.js:132-143 | with all links up every order of deliveries ends with the same log of handlings and drops, and the number of transmissions is the number of effects |
| `Mesh.ExclusionOnlySavesBounces` | src/comm_server/server_to_server/js_parent_comm_server.js:138-148 | leaving out the source child saves copies that would be dropped and changes no handling anywhere |
| `Mesh.FailuresNeverAddHandlings` | src/comm_server/chat_server/js_chat_relay.js:90-125 | whatever fails, the number of times a server has handled and may still handle a broadcast never grows |
| `MeshTree.AtMostOnce` | src/comm_server/chat_server/js_chat_routing.js:132-143 | on a tree, in every reachable state and whatever fails, reconnects or shares an id, every server has handled a broadcast at most once and its origin never |
| `MeshTree.ExactlyOnceIffUnambiguous` | src/comm_server/chat_server/js_chat_routing.js:132-143 | on a tree with all links up, once nothing is in flight every other server has handled it exactly once IF AND ONLY IF no id is repeated on a route from the origin, none was in the client's header, and the broadcast does not look like a handshake envelope or no server gets it from its parent |
| `MeshTree.HandledWhereReached` | src/comm_server/server_to_server/js_child_comm_server.js:65-86 | where no id is ambiguous, exactly the servers the broadcast gets to handle it, once each: all of them, or only the ancestors of the origin when it looks like an envelope |
| `MeshTree.DistinctIdsSuffice` | src/comm_server/chat_server/js_chat_relay.js:13-15 | pairwise different server ids and an empty initial path meet that condition |
| `MeshTree.BounceDies` | src/comm_server/chat_server/js_chat_routing.js:132-135 | a copy sent back to a server already on the path is dropped there and causes nothing else |
| `MeshTree.ExactlyBeyond` | src/comm_server/chat_server/js_chat_relay.js:116-124 | what one packet causes beyond its link: each server there handles it once, and each that got it from its parent sends one copy back that is dropped; an envelope is handled upwards only and swallowed by each child it is handed down to |
| `MeshTree.TransmissionCount` | src/comm_server/chat_server/js_chat_relay.js:116-124 | on a tree of n servers a broadcast costs exactly 2(n-1) - depth(origin) transmissions: n-1 handlings and one dropped bounce for every server that got it from its parent; what looks like an envelope costs one for each child of the origin and of its ancestors |
| `MeshTree.BroadcastLog` | src/comm_server/server_to_server/js_child_comm_server.js:90-96 | the effects of a whole broadcast as a multiset: one handling per other server, one drop per server that is no ancestor of the origin - or, for an envelope, one handling per ancestor and one swallowed copy per child handed it |
| `MeshTree.CanComeToRest` | src/comm_server/chat_server/js_chat_routing.js:132-143 | from every state a run to "nothing in flight" exists, so the statements about such states are about something |
| `MeshTree.TripleBroadcast` | src/comm_server/chat_server/js_chat_relay.js:116-124 | a concrete instance: in a root with two children a broadcast of one child costs three transmissions, two handlings and one dropped bounce |
| `MeshTree.TripleEnvelope` | src/comm_server/server_to_server/js_child_comm_server.js:65-74 | a concrete instance: the root's broadcast with the handshake field is swallowed by both children and handled nowhere, although no id is ambiguous |
| `Frames.RebuildSplits` | src/comm_server/chat_server/js_chat_routing.js:220-233 | a message rebuilt with another header splits again at the same place: that header, the same NUL and payload |
| `Frames.StampExtendsPath` | src/comm_server/chat_server/js_chat_relay.js:44-45 | a stamped header shows exactly the earlier ids and the new one to every later path check |
| `Frames.HopsKeepAllButPath` | src/comm_server/chat_server/js_chat_relay.js:95-112 | over any number of hops the payload stays byte-identical, NULs in it included, every header field but the path stays, and from the first hop on every frame is binary, text frames included |
| `Frames.RelayedFrame` | src/comm_server/chat_server/js_chat_relay.js:38-70 | from the client's frame to any hop: payload intact, only `p`, `_path`, `_gid`, `_aid` rewritten, the permission the server's, the room the server's exactly when the sender is in one and otherwise the client's own fields, the path the client's followed by the servers passed in order; a child takes it for an envelope if and only if the client's header has the field and there is no payload |
| `Frames.EnvelopeIffFieldAndNoPayload` | src/comm_server/js_s2s_auth.js:159-174 | a printed frame reads as a handshake envelope if and only if its header has a non-null `s2s_auth` and no payload follows |
| `SmallJson.SmallJsonIsSound` | src/comm_server/chat_server/js_chat_routing.js:229-233 | a printer and parser with string escaping meet the assumptions the frame results make: parsing inverts printing, no text with a NUL parses, a printed header begins with its brace |
| `SmallJson.ValueRoundTrip` | src/comm_server/chat_server/js_chat_routing.js:224-230 | every JSON value of the model is read back from its printed form, whatever follows it |
| `Routing.RoutingIgnoresPath` | src/comm_server/chat_server/js_chat_routing.js:137-201 | where a relayed copy goes does not depend on the path it took |
| `Routing.RelayedGoTo` | src/comm_server/chat_server/js_chat_routing.js:89-202 | for every header and every unit of a server: a relayed message is broadcast and sent on if and only if it is a group message or an individual one with a reserved or no target, and a unit gets a copy if and only if it is in the room the message names (in any room, if that is not here), has not the sender id of the message, and has actor type `g` for `_GCS_` and `d` for `_AGN_` |
| `Routing.LocalGoTo` | src/comm_server/chat_server/js_chat_routing.js:268-365 | the same at the origin: which messages are for the room, and that a member gets a copy if and only if it has not the id of the sender's login, an actor type its reserved target names, and, for the group or untargeted message of a unit that is no GCS, is a GCS |
| `Routing.RemoteAudience` | src/comm_server/chat_server/js_chat_routing.js:270-358 | what the origin broadcasts every other server broadcasts, to the same audience if and only if the sender is a GCS or the message names a reserved target |
| `OneRoom.MeshIsOneRoomIffServersAgree` | src/comm_server/chat_server/js_chat_routing.js:89-98 | at rest, the copies made by all servers are exactly those of one broadcast in one room holding the union of the group - each matching unit once, the sender never, nobody else - IF AND ONLY IF every other server the broadcast gets to agrees on the audience and hosts the group (or picks nobody) and every one it does not get to has no listener; it gets everywhere unless it looks like a handshake envelope |
| `OneRoom.EnvelopeMissesChildren` | src/comm_server/server_to_server/js_child_comm_server.js:65-74 | a concrete `_GD_` message with the handshake field that a member of the group on a child does not get |
| `OneRoom.AddressedBroadcastsAgree` | src/comm_server/chat_server/js_chat_routing.js:157-193 | servers that host the group agree on every `_GCS_`, `_GD_`, `_AGN_` broadcast and on every group or untargeted message of a GCS |
| `OneRoom.UnaddressedBroadcastsAgreeOnlyWithGcs` | src/comm_server/chat_server/js_chat_routing.js:270-358 | on any other unit's group or untargeted message they agree if and only if the group there holds only GCSs besides the sender |
| `OneRoom.DroneGroupMessageWidens` | src/comm_server/chat_server/js_chat_routing.js:139-144 | a concrete drone message that reaches a remote drone and no local one |
| `RelayServer.RelayServer.ForwardToChildren` | src/comm_server/server_to_server/js_parent_comm_server.js:138-148 | exactly the open, authenticated children but the excluded one get the message, once |
| `RelayServer.RelayServer.ForwardToParent` | src/comm_server/server_to_server/js_child_comm_server.js:90-96 | the parent gets the message once when its link is open |
| `RelayServer.RelayServer.ForwardMessage` | src/comm_server/chat_server/js_chat_relay.js:18-80 | a local broadcast goes out stamped with path and room on both channels that are switched on, and not at all for a sender without a login |
| `RelayServer.RelayServer.ParseMessage` | src/comm_server/chat_server/js_chat_routing.js:211-375 | a unit's message with the server's permission written in: its broadcasts go to exactly the members meant and once to each link, stamped; a one-to-one message goes to the links if and only if its target is not in the room; everything else goes nowhere |
| `RelayServer.RelayServer.AnswerIsEnvelope` | src/comm_server/js_s2s_auth.js:149-151 | the answer to a challenge reads as an envelope with the response mark, the signature and this server's id |
| `RelayServer.RelayServer.ForwardExternalMessage` | src/comm_server/chat_server/js_chat_relay.js:90-125 | a relayed one goes out with this server's id added, to the parent and to all children but its source |
| `RelayServer.RelayServer.ParseExternalMessage` | src/comm_server/chat_server/js_chat_routing.js:108-202 | unparsable, already seen or one-to-one messages are not forwarded; every other one is delivered to exactly the units in scope that are not its sender and of the actor type its target names, and forwarded once |
| `RelayServer.RelayServer.OnChildMessage` | src/comm_server/server_to_server/js_parent_comm_server.js:88-118 | before its handshake nothing a child says is relayed or heard, and a wrong answer closes it; after it every message is relayed, as binary, and visited, unparsable and one-to-one messages are heard by nobody and sent nowhere |
| `RelayServer.RelayServer.OnParentMessage` | src/comm_server/server_to_server/js_child_comm_server.js:65-86 | what reads as an envelope is heard by nobody and relayed nowhere, and only a challenge is answered; everything else is relayed, as binary |
| `RelayServer.RelayServer.HandlerIsMeshStep` | src/comm_server/chat_server/js_chat_relay.js:116-124 | for a call of either relay handler, the broadcasts appended to the links, with the paths in their headers, are exactly the packets that one step of the mesh adds - none when it is dropped or swallowed - and units here get copies exactly when the step is a handling |
| `RelayServer.RelayServer.OriginIsMeshStart` | src/comm_server/chat_server/js_chat_relay.js:71-79 | the broadcasts appended to the links for a local broadcast are exactly the packets the mesh starts with |
| `Rooms.AcceptStructure` | src/comm_server/chat_server/js_chat_connection.js:36-50 | an accept keeps the structural invariant and leaves the new socket in its room if and only if it has a sender id or that room does not hold "undefined" yet; refused, it is recorded and indexed only |
| `Rooms.AcceptSockets` | src/comm_server/chat_server/js_chat_connection.js:44-46 | an accept changes the records of the new socket and of whoever held its sender id in the account - nobody for a login without one - and no others |
| `Rooms.EvictStructure` | src/comm_server/chat_server/js_andruav_chat_account_rooms.js:210-226 | removal by name keeps the structural invariant |
| `Rooms.EvictFreesName` | src/comm_server/chat_server/js_andruav_chat_account_rooms.js:210-226 | after it, for a login with a sender id, no group of the account has the name |
| `Rooms.CloseStructure` | src/comm_server/chat_server/js_chat_connection.js:221-260 | a close event keeps the structural invariant |
| `Rooms.LogoutStructure` | src/comm_server/chat_server/js_andruav_chat_account_rooms.js:191-206 | a logout keeps it |
| `Rooms.LoseStructure` | src/comm_server/chat_server/js_andruav_chat_account_rooms.js:391-402 | so does the removal of members whose send failed |
| `Rooms.LogoutSockets` | src/comm_server/chat_server/js_andruav_chat_account_rooms.js:191-206 | a logout clears the back pointer of that socket and touches no other, nor the index |
| `Rooms.LossIsExact` | src/comm_server/chat_server/js_andruav_chat_account_rooms.js:371-402 | a broadcast with failing sends takes exactly the members out of the group whose send failed and who are not the sender and of the actor type asked for, clears their name and back pointer, and touches no other socket; only a member without sender id that has logged out stays |
| `Rooms.LossDetachesIffEmpty` | src/comm_server/chat_server/js_andruav_chat_account_rooms.js:322-342 | the group is detached if and only if that empties it, and no other group is |
| `Lifecycle.RegistryIsConsistent` | src/comm_server/chat_server/js_andruav_chat_account_rooms.js:303-342 | over every run, shared and missing sender ids included: a group holds a socket with a sender id under a name if and only if the socket points back to that group and carries that name; whoever points to a group is in its table; no attached group is empty; a sender id is in one group of an account at most |
| `Lifecycle.RegistryAgreesWithIndex` | src/comm_server/chat_server/js_andruav_active_senders.js:7-29 | over every run, logouts and dead sockets included: whoever a group holds under a name is whom the index holds for it, for each name used so far by sender ids of one account only (`SingleUse`) |
| `Lifecycle.AcceptAgreesIff` | src/comm_server/chat_server/js_chat_connection.js:36-50 | an accept makes room and index agree on its name IF AND ONLY IF no group it does not clear holds that name - one of another account, or any when there is no sender id - and changes the agreement on no other name |
| `Lifecycle.CloseAgreesIff` | src/comm_server/chat_server/js_chat_connection.js:221-260 | a close that cleans up leaves room and index in agreement on its name IF AND ONLY IF no group of another account holds it; any other close changes neither |
| `Lifecycle.SharedIdRun` | src/comm_server/chat_server/js_chat_connection.js:86-93 | a concrete run with one sender id in two accounts: both sockets sit in their rooms, the index names one, and they disagree |
| `Lifecycle.LoginIsAdmittedIff` | src/comm_server/chat_server/js_andruav_chat_account_rooms.js:303-317 | in every reachable state a login joins the room of its account and group IF AND ONLY IF it has a sender id or that room does not hold "undefined" yet; admitted or not, it is recorded and is what the index names |
| `Lifecycle.TwoNamelessLogins` | src/comm_server/chat_server/js_andruav_chat_account_rooms.js:303-317 | a concrete run of two logins without sender id: the second is accepted and indexed but in no room, and after the close of the first the room still holds it |
| `Lifecycle.NewestConnectionWins` | src/comm_server/chat_server/js_chat_connection.js:36-50 | over every interleaving of accepts and late closes the latest socket of a name stays in its room and in the index while it is open, provided that name was used by sender ids of one account only (`SingleUse`) and no socket of it was logged out or lost to a failing send (`Clean`) |
| `Lifecycle.AcceptKicksOutHolders` | src/comm_server/chat_server/js_chat_connection.js:44-46 | in every reachable state an accept marks, closes and takes out of its room exactly each socket that holds its sender id in a group of its account, and touches no other but the new one |
| `Lifecycle.CloseKicksOutHolders` | src/comm_server/chat_server/js_chat_connection.js:233-245 | a close does so with the holders of its own sender id, if it has one and was not kicked out, and touches no other |
| `Lifecycle.EvictedCloseIsSilent` | src/comm_server/chat_server/js_chat_connection.js:227-233 | the late close of a kicked-out socket changes no table and no proxy |
| `Lifecycle.CloseCleansUpIff` | src/comm_server/chat_server/js_chat_connection.js:233-245 | a close that was not preceded by a kick-out leaves no trace - name gone from every group of the account, from the index and from the proxies, an emptied account gone, socket in no room - IF AND ONLY IF the socket has a sender id; without one only its phase changes |
| `Lifecycle.CloseIsHarmlessIffCurrent` | src/comm_server/chat_server/js_chat_connection.js:221-260 | in every reachable state, whatever sender ids are shared or missing, a close leaves all others alone IF AND ONLY IF the socket was kicked out, never logged in or has no sender id, or index and rooms of its account name nobody else under it and nobody else in a room bears the name of its proxy |
| `Lifecycle.OnlyDroppedSocketsCloseHarmfully` | src/comm_server/chat_server/js_chat_connection.js:221-260 | in every run only a socket that was logged out or orphaned can close harmfully, if its name was used by sender ids of one account only (`SingleUse`) |
| `Lifecycle.StrayCloseEvictsReplacement` | src/comm_server/chat_server/js_chat_connection.js:233-245 | such a close throws the replacement out of its room and out of the index |
| `Lifecycle.LogoutThenReconnect` | src/comm_server/chat_server/js_chat_system_commands.js:85-89 | a concrete run that leads there - log in, log out, log in again on another socket - and what the close of the first socket then does to the second |
| `ChatServer.ChatServer.DeleteMemberByName` | src/comm_server/chat_server/js_andruav_chat_account_rooms.js:322-342 | whoever has the name leaves the group; an emptied group is detached; a kick-out marks and terminates |
| `ChatServer.ChatServer.DelMemberFromAccountByName` | src/comm_server/chat_server/js_andruav_chat_account_rooms.js:210-226 | nothing without a sender id; otherwise asking every group of the account in any order removes its holders and prunes an account left empty |
| `ChatServer.ChatServer.AccountGroup` | src/comm_server/chat_server/js_andruav_chat_account_rooms.js:247-261 | account and group are found or made |
| `ChatServer.ChatServer.AddMemberToAccountGroup` | src/comm_server/chat_server/js_andruav_chat_account_rooms.js:170-187 | added if and only if the name was free, and then entered with its back pointer; refused, nothing changes |
| `ChatServer.ChatServer.AcceptConnection` | src/comm_server/chat_server/js_chat_connection.js:36-50 | index, kick-out and joining in that order are the accept of the registry machine, with or without a sender id |
| `ChatServer.ChatServer.OnWsClose` | src/comm_server/chat_server/js_chat_connection.js:221-260 | the close handler is the close of the registry machine |
| `ChatServer.ChatServer.DelMemberFromGroup` | src/comm_server/chat_server/js_andruav_chat_account_rooms.js:191-206 | the logout command is the logout of the registry machine |
| `ChatServer.ChatServer.HandleOrphanSocket` | src/comm_server/chat_server/js_andruav_chat_account_rooms.js:391-402 | one dead socket is removed from its group, loses its name and is terminated; one that points to no group makes the handler throw and nothing changes |
| `ChatServer.ChatServer.Broadcast` | src/comm_server/chat_server/js_andruav_chat_account_rooms.js:371-389 | over any order of members with sends failing and members removed on the way: each socket gets one copy if it is that of a member other than the sender, of the actor type asked for, whose send works, and none otherwise; exactly the failing ones that still point to the group are lost |
| `QueryScanner.MatchAt` | src/comm_server/chat_server/js_chat_connection.js:23-30 | the scanner reads a position exactly as the pattern can, and in the only way it can |
| `QueryScanner.Exec` | src/comm_server/chat_server/js_chat_connection.js:28-30 | the search finds the leftmost match from its starting point, or none if there is none |
| `QueryScanner.GetHeaderParams` | src/comm_server/chat_server/js_chat_connection.js:22-33 | the loop collects all matches from left to right, later ones over earlier ones |
| `QueryScanner.ScanInvertsPrint` | src/comm_server/chat_server/js_chat_connection.js:22-33 | scanning `?k1=v1&k2=v2...` gives exactly the printed pairs, the last one of a repeated key, for non-empty keys free of `=` and `#` and values free of `&` and `#` |
| `LoginGate.KeysArePartitioned` | src/comm_server/js_andruav_comm_server.js:86-93 | over every order of issues, expiries, logins and timers: issued keys are waiting, used or expired and only one of these; a key lets in at most one socket and an accepted socket used exactly one key (none on a server that needs no keys) |
| `LoginGate.KeyWaitsIff` | src/comm_server/js_andruav_comm_server.js:21-33 | over every run a key is waiting IF AND ONLY IF it was issued, its timer has not fired and nobody has got in by it, and then for the request it was issued with |
| `LoginGate.FrameDecides` | src/comm_server/chat_server/js_chat_connection.js:351-420 | in every reachable state the first message of a waiting socket decides once: it gets in IF AND ONLY IF the message is a de_auth frame with a key that is waiting, or any key where none are needed; then the key is used up and the registry accepts exactly the login of that key with the sender id of the frame; otherwise it is refused, closed, and nothing else changes |
| `LoginGate.UrlDecides` | src/comm_server/chat_server/js_chat_connection.js:126-160 | the same for a key in the URL, where that is still taken; without one the socket waits for its frame |
| `LoginGate.TimerRefuses` | src/comm_server/chat_server/js_chat_connection.js:423-431 | the timer refuses a socket whose frame has not come and changes nothing else |
| `LoginGate.KeysGrantWhatWasAsked` | src/comm_server/chat_server/js_chat_connection.js:85-104 | in every run, who got in by a key is logged in under exactly the account, group and actor type the authentication server gave with that key |
| `LoginGate.OneAnswer` | src/comm_server/chat_server/js_chat_connection.js:343-431 | a socket that logs in by frame gets exactly one answer, to the frame or to the timer, and it says whether the socket was accepted; whoever is decided on and not accepted is closing |
| `LoginGate.OnlyAcceptedAreRouted` | src/comm_server/chat_server/js_chat_routing.js:216-244 | whatever reaches plugins, rooms or relay comes from an accepted socket, and never is the first message of one that logs in by frame |
| `LoginGate.RoutedIsAllThatAcceptedSay` | src/comm_server/chat_server/js_chat_routing.js:216-287 | over every run: of an accepted socket exactly the messages that are JSON objects are handed on, each once and in order - all of them, or all but the first if it logged in by frame - and of any other socket none |
| `LoginGate.DecisionIsFinal` | src/comm_server/chat_server/js_chat_connection.js:351-359 | a socket refused by its frame or by the timer is never accepted later and nothing of it is ever routed |
| `LoginGate.CompletedConns` | src/comm_server/chat_server/js_chat_connection.js:167-203 | credentials are accepted if and only if their key is waiting (always on a local server); the format check, whose verdict is ignored, changes nothing because no malformed key is ever waiting |
| `LoginGate.QueryAndFrameAgree` | src/comm_server/chat_server/js_chat_connection.js:288-320 | credentials in the URL and in a frame lead to the same verdict, registry and waiting list |
| `LoginGate.GateRunsAreRegistryRuns` | src/comm_server/chat_server/js_chat_connection.js:85-118 | every run of keys, frames, timers and closes drives the registry through a run of its own machine, so all that holds in each of those holds here |
| `LoginServer.LoginServer.AddWaitingAccount` | src/comm_server/js_andruav_comm_server.js:86-93 | a key and its request are put on the waiting list with a timer |
| `LoginServer.LoginServer.OnKeyTimeout` | src/comm_server/js_andruav_comm_server.js:26-33 | the timer deletes the key if it is still waiting |
| `LoginServer.LoginServer.CompleteConnection` | src/comm_server/chat_server/js_chat_connection.js:288-320 | the key is checked and consumed and the socket accepted with the sender id it gave, if any, or it is closed; a local server without a key throws and changes nothing |
| `LoginServer.LoginServer.OnConnect` | src/comm_server/chat_server/js_chat_connection.js:126-160 | credentials in the URL are refused or used at once; without them a frame is awaited |
| `LoginServer.LoginServer.OnAuthFrame` | src/comm_server/chat_server/js_chat_connection.js:351-420 | the state afterwards is that of the frame handler, for a frame too late, not JSON, no de_auth, throwing, refused or accepted |
| `LoginServer.LoginServer.OnMessage` | src/comm_server/chat_server/js_chat_connection.js:277-277 | the routing listener runs before the frame handler, so the first frame meets the closed gate |
| `LoginServer.LoginServer.OnAuthTimeout` | src/comm_server/chat_server/js_chat_connection.js:423-431 | the timer refuses and closes, unless the frame came first |
| `LoginServer.LoginServer.OnClose` | src/comm_server/chat_server/js_chat_connection.js:221-260 | the close event cleans up the registry |
| `StorageClient.ConnectionIsConsistent` | src/comm_server/server_to_server/js_db_proxy_client.js:153-217 | over every order of opens, challenges, successes, errors, closes and timers: exactly one of a live socket and an armed reconnect timer; heartbeat if and only if authenticated; authenticated only while connected or unhealthy; connected only when authenticated |
| `StorageClient.EveryRequestSettlesOnce` | src/comm_server/server_to_server/js_db_proxy_client.js:364-388 | over every interleaving of responses, timeouts, send failures and closes: a request is pending with its timer armed, or settled exactly once, by its own rid if by a response; none is pending without authentication |
| `StorageClient.EventsDecideOutcomes` | src/comm_server/server_to_server/js_db_proxy_client.js:364-388 | over every run a request is rejected as not connected IF AND ONLY IF it is made while the client is not up and trusted, as failed if and only if its send throws, and otherwise is decided by the first event that ends its wait: answered by the reply with its rid, timed out by its timer, rejected by a close, pending while none has come |
| `StorageClient.ConnectedIffUpAndTrusted` | src/comm_server/server_to_server/js_db_proxy_client.js:345-347 | over every run, said of the events alone: connected if and only if the socket has opened and not failed since, and the server has accepted the client or sent no challenge in time; with the status and the challenge timer |
| `StorageClient.SettlementIsFinal` | src/comm_server/server_to_server/js_db_proxy_client.js:132-139 | no later event changes or repeats a settlement |
| `StorageClient.Backoff` | src/comm_server/server_to_server/js_db_proxy_client.js:168-179 | the base delay is 1000 at first, doubles, and is 60000 exactly from the seventh attempt on; the jittered delay is spread evenly by the draw from 3/4 to 5/4 of it, and so lies in 750..75000 |
| `StorageClient.AttemptsGrowBetweenOpens` | src/comm_server/server_to_server/js_db_proxy_client.js:63-65 | between successful opens attempts and base delay only grow |
| `StorageClient.AttemptsCountCloses` | src/comm_server/server_to_server/js_db_proxy_client.js:168-170 | over every run the attempt counter is the number of closes since the last open |
| `StorageClient.DelayFitsCloses` | src/comm_server/server_to_server/js_db_proxy_client.js:168-179 | so the reconnect delay after a close is that of exactly this attempt |
| `StorageClient.Client.ClearPending` | src/comm_server/server_to_server/js_db_proxy_client.js:53-61 | every pending request is rejected once and its timer cancelled, in any order |
| `StorageClient.Client.Connect` | src/comm_server/server_to_server/js_db_proxy_client.js:329-343 | the first call connects to the one endpoint, later ones change nothing |
| `StorageClient.Client.Reconnect` | src/comm_server/server_to_server/js_db_proxy_client.js:193-217 | a new socket replaces the reconnect timer |
| `StorageClient.Client.OnOpen` | src/comm_server/server_to_server/js_db_proxy_client.js:63-82 | an open resets the attempts and arms the challenge timer |
| `StorageClient.Client.OnAuthTimeout` | src/comm_server/server_to_server/js_db_proxy_client.js:70-81 | no challenge in time means no authentication is needed |
| `StorageClient.Client.OnMessage` | src/comm_server/server_to_server/js_db_proxy_client.js:84-151 | challenge, success, error note and response each change exactly what the connection machine says |
| `StorageClient.Client.OnClose` | src/comm_server/server_to_server/js_db_proxy_client.js:153-181 | the close drops everything and schedules a reconnect |
| `StorageClient.Client.OnError` | src/comm_server/server_to_server/js_db_proxy_client.js:183-191 | an error marks the connection unhealthy and closes the socket |
| `StorageClient.Client.SendRequest` | src/comm_server/server_to_server/js_db_proxy_client.js:364-388 | a request is rejected at once, becomes pending with its timer armed, or is rejected because sending threw |
| `StorageClient.Client.OnRequestTimeout` | src/comm_server/server_to_server/js_db_proxy_client.js:373-378 | the timer rejects a request that is still pending |
| `UdpProxy.ReportedPortsStick` | src/comm_server/js_udp_proxy.js:279-323 | in every run: ports once reported with success are those the entry and its current sockets keep, through every refresh, health and resume recreation, and every later success reports the same |
| `UdpProxy.AskedPortsAreReported` | src/comm_server/js_udp_proxy.js:501-522 | a request that makes a new entry is honoured: in every run from there each success reported of it is on the ports asked for |
| `UdpProxy.GetIsExact` | src/comm_server/js_udp_proxy.js:501-548 | in every reachable state: a request without an entry, or for a port other than that of its socket, makes a new entry on the ports asked for; any other keeps the entry, tells the ports at once if both sockets listen and makes them anew if not; whatever is told is on the ports asked for, and no other entry changes |
| `UdpProxy.BindIsExact` | src/comm_server/js_udp_proxy.js:213-219 | in every reachable state: the socket that answers listens or has failed; with the second answer the unit is told, and enabled IF AND ONLY IF both sockets listen; the first proxy's answer leaves a reaper running |
| `UdpProxy.DatagramIsExact` | src/comm_server/js_udp_proxy.js:120-127 | a datagram is noted where it came in, and goes on if and only if the proxy is not blocked and the other side has been heard of |
| `UdpProxy.ClosedIsGone` | src/comm_server/js_udp_proxy.js:484-499 | closing takes out that entry only, and in every run from there nothing is forwarded by it or told of it |
| `UdpProxy.BlockedForwardsNothing` | src/comm_server/js_udp_proxy.js:264-272 | over every run without an unblocking a blocked entry forwards no packet, whatever recreates its sockets |
| `UdpProxy.BlockingHolds` | src/comm_server/js_udp_proxy.js:472-482 | the admin call blocks the entry and its current sockets alike |
| `UdpProxy.UnblockingRestores` | src/comm_server/js_udp_proxy.js:256-272 | unblocking undoes blocking exactly, and then a datagram passes if and only if the other side has spoken |
| `UdpProxy.TickIsExact` | src/comm_server/js_udp_proxy.js:366-425 | an ordinary tick removes an entry IF AND ONLY IF both its sockets listen, its unit is not connected, and entry and sockets were all last used more than 300000 ms ago; recreates exactly those of which a socket does not listen, with id, ports and block flag kept; leaves the others as they are; and stops the reaper if and only if nothing is left |
| `UdpProxy.ResumeTickIsExact` | src/comm_server/js_udp_proxy.js:325-335 | a tick after a sleep removes nothing and recreates every proxy, twice |
| `UdpProxy.ReaperStopsOnlyWhenEmpty` | src/comm_server/js_udp_proxy.js:419-433 | a running reaper stops in a tick that leaves the registry empty and at no other time |
| `UdpProxy.ReadyMeansReaper` | src/comm_server/js_udp_proxy.js:501-522 | the reaper runs whenever a ready proxy is registered, in every run in which no unit asks again before its first sockets have answered while no reaper runs |
| `UdpProxy.ReaperIsMissedIffAskedTooEarly` | src/comm_server/js_udp_proxy.js:501-548 | while nobody has asked too early, an event opens the way to a ready proxy without a reaper IF AND ONLY IF it is a request for a registered, unready proxy of the same ports while no reaper runs |
| `UdpProxy.AskingTooEarlyLeavesNoReaper` | src/comm_server/js_udp_proxy.js:528-535 | and every such early request can leave a proxy reported ready with no reaper running |
| `UdpProxy.TwoRequestsInARow` | src/comm_server/js_udp_proxy.js:501-535 | two requests in a row are such a run |
| `UdpProxy.ProxyEntry.Recreate` | src/comm_server/js_udp_proxy.js:279-323 | the entry gets fresh sockets on its sticky ports, blocked as it is |
| `UdpProxy.ProxyEntry.OnBind` | src/comm_server/js_udp_proxy.js:213-219 | one socket has answered; the callback is due exactly with the second counted answer |
| `UdpProxy.ProxyEntry.CallBack` | src/comm_server/js_udp_proxy.js:301-316 | the callback notes ports, success and creation in the entry |
| `UdpProxy.ProxyEntry.OnMessage` | src/comm_server/js_udp_proxy.js:120-127 | a datagram is noted, and passes unless blocked or the other side is unknown |
| `UdpProxy.ProxyEntry.SetBlocked` | src/comm_server/js_udp_proxy.js:256-258 | flag of the entry and of the sockets together |
| `UdpProxy.Registry.GetUDPSocket` | src/comm_server/js_udp_proxy.js:501-548 | the registry afterwards is that of the request: a new entry, the old one refreshed on its ports, confirmed as it is, or replaced when other ports are asked for |
| `UdpProxy.Registry.CloseUDPSocket` | src/comm_server/js_udp_proxy.js:484-499 | the entry is removed, and only it |
| `UdpProxy.Registry.SetProxyBlocked` | src/comm_server/js_udp_proxy.js:472-482 | exactly the named entry changes; the result says whether there is one |
| `UdpProxy.Registry.RecoverAll` | src/comm_server/js_udp_proxy.js:325-335 | the loop recreates every entry, in any order |
| `UdpProxy.Registry.Sweep` | src/comm_server/js_udp_proxy.js:381-417 | the loop checks every entry once, in any order, with entries removed on the way |
| `UdpProxy.Registry.OnTick` | src/comm_server/js_udp_proxy.js:370-422 | recovery after a sleep, sweep and stop together leave exactly the state of the tick that `TickIsExact` and `ResumeTickIsExact` describe |

## Left out

- Signing, key files and TLS: the handshake between servers is the outcome of `answersChallenge` on the parent's side and a signature, or none, given to `OnParentMessage` on the child's; that of the storage server is the outcome of its challenge.
- One-to-one delivery (`fn_sendTIndividualId`, `fn_sendToIndividual`): whether the sender's room has the target is the parameter `found` of `ParseMessage`; what is not found goes to the neighbouring servers and no further, in the mesh a case without a broadcast.
- Plugins, tasks, missions, news and queries: reply building on top of the storage client.
- The SQL builder of `js_andruavTasks_v2.js`: no caller reaches it.
- Storage status reports to the authentication server and their suppression when unchanged, the heartbeat's ping itself, and a second storage endpoint.
- JSON in full: the header codec is any pair of functions with the three facts that are used; headers that are not objects count as unparsable.
- Header values that JavaScript would coerce: `_aid` and `_gid` that are not strings, a target object with a `length` of its own, numbers as temporary keys.
- LoginGate.KeysArePartitioned: tables are maps, while lookups in JavaScript objects also find properties of their prototype; the temporary key `constructor` passes `getLogin` (`js_andruav_comm_server.js:21-24`) without ever having been issued, so the key results are about the keys that are no such property.
- OneRoom.MeshIsOneRoomIffServersAgree: rooms do not change while one broadcast travels, and sends to units succeed; failing sends are treated in `Rooms` and `ChatServer`.
- RelayServer.RelayServer.ParseExternalMessage: the units to hear a relayed message are returned as a set of places; sending to them is `ChatServer.Broadcast`.
- ChatServer.ChatServer.Broadcast: sockets and groups are numbers with records in tables instead of objects; two groups of one name made at different times have different numbers, so detached ones are told apart.
- UdpProxy.Registry.OnBind: socket pairs are values inside the entry object; closed sockets are silent, errors other than a port in use never call back, and invalid port numbers, for which the bind itself throws, do not occur.
- UdpProxy.ProxyEntry.CallBack: the notice after a failed health check is recorded whether or not the unit is there to receive it.
- LoginGate.OneAnswer: an answer counts as sent when the server tries to send it, even to a socket that has gone.
- Permissions, request ids and creation times of a login: copied from the waiting list and not looked at by any modelled handler except the permission written into frames.
- HTTPS and web-socket bootstrap, logging, configuration, memory watchdog, kernel buffer tuning.
