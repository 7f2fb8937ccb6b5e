/** The routing decisions for local and relayed messages, and which units of a server get a copy. */
module Routing {
  import opened Frames

  /** What the login of a unit says about it; a login may come without a sender id. */
  datatype Unit = Unit(sender: Option<string>, actor: string)

  type Room = map<string, Unit>

  /** Account, group, unit name. */
  type Rooms = map<string, map<string, Room>>

  datatype Place = Place(account: string, group: string, name: string)

  datatype Audience = Everyone | Only(actor: string)

  datatype Decision = Ignore | Broadcast(audience: Audience) | Direct(target: Json) | System

  /** The target field: absent or empty, a target, or a value whose length cannot be taken (an
      exception that the handler swallows). */
  datatype Target = NoTarget | Named(target: Json) | Broken

  const GCS := "g"
  const DRONE := "d"

  function TargetOf(h: Header): Target {
    if "tg" !in h then NoTarget
    else
      match h["tg"]
      case Null => Broken
      case Str(s) => if s != "" then Named(h["tg"]) else NoTarget
      case Arr(items) => if items != [] then Named(h["tg"]) else NoTarget
      case _ => NoTarget
  }

  function ByTarget(t: Json): Decision {
    if t == Str("_GCS_") then Broadcast(Only(GCS))
    else if t == Str("_GD_") then Broadcast(Everyone)
    else if t == Str("_AGN_") then Broadcast(Only(DRONE))
    else Direct(t)
  }

  function Kind(h: Header): Option<Json> { if "ty" in h then Some(h["ty"]) else None }

  /** fn_parseMessage: a message of a local unit of actor type `actor`. */
  function LocalDecision(h: Header, actor: string): Decision {
    if Kind(h) == Some(Str("g")) then Broadcast(if actor == GCS then Everyone else Only(GCS))
    else if Kind(h) == Some(Str("i")) then
      match TargetOf(h)
      case Named(t) => ByTarget(t)
      case Broken => Ignore
      case NoTarget =>
        if actor == DRONE then Broadcast(Only(GCS)) else if actor == GCS then Broadcast(Everyone) else Ignore
    else if Kind(h) == Some(Str("s")) then System
    else Ignore
  }

  /** fn_parseExternalMessage: a relayed message, whose sender's actor type is not known here. */
  function ExternalDecision(h: Header): Decision {
    if Kind(h) == Some(Str("g")) then Broadcast(Everyone)
    else if Kind(h) == Some(Str("i")) then
      match TargetOf(h)
      case Named(t) => ByTarget(t)
      case Broken => Ignore
      case NoTarget => Broadcast(Everyone)
    else Ignore
  }

  /** A sender id as the value of a field that may be undefined. */
  function SenderJson(sender: Option<string>): Option<Json> {
    match sender
    case None => None
    case Some(s) => Some(Str(s))
  }

  predicate Hears(u: Unit, from: Option<Json>, audience: Audience) {
    && from != SenderJson(u.sender)
    && (audience.Only? ==> u.actor == audience.actor)
  }

  /** Group.fn_broadcast: the members that get a copy. */
  function Copies(room: Room, from: Option<Json>, audience: Audience): set<string> {
    set n | n in room && Hears(room[n], from, audience)
  }

  predicate Hosts(rooms: Rooms, account: string, group: string) { account in rooms && group in rooms[account] }

  /** fn_sendToAccountGroup, when the account and group exist here. */
  function ScopedCopies(
      rooms: Rooms, account: string, group: string, from: Option<Json>, audience: Audience): set<Place>
    requires Hosts(rooms, account, group)
  {
    set n | n in Copies(rooms[account][group], from, audience) :: Place(account, group, n)
  }

  /** fn_sendToAll, fn_sendToAllGCS, fn_sendToAllAgent: every group of every account. */
  function AllCopies(rooms: Rooms, from: Option<Json>, audience: Audience): set<Place> {
    set a, g, n | a in rooms && g in rooms[a] && n in Copies(rooms[a][g], from, audience) :: Place(a, g, n)
  }

  function SenderOf(h: Header): Option<Json> { if "sd" in h then Some(h["sd"]) else None }

  /** The room a relayed message names, if that room exists on this server. */
  function ScopeHere(rooms: Rooms, h: Header): Option<Scope> {
    if AID in h && GID in h && h[AID].Str? && h[GID].Str? && Hosts(rooms, h[AID].s, h[GID].s)
    then Some(Scope(h[GID].s, h[AID].s)) else None
  }

  /** deliverExternalBroadcast: the named room, or everybody when it is unnamed or not here. */
  function ExternalCopies(rooms: Rooms, h: Header, audience: Audience): set<Place> {
    match ScopeHere(rooms, h)
    case Some(s) => ScopedCopies(rooms, s.aid, s.gid, SenderOf(h), audience)
    case None => AllCopies(rooms, SenderOf(h), audience)
  }

  // ----- Who gets a copy, said of the fields and the units

  /** The target field names nobody: it is absent, empty, or a value without a length. */
  predicate Untargeted(h: Header) {
    "tg" !in h || h["tg"] == Str("") || h["tg"] == Arr([]) || h["tg"].Bool? || h["tg"].Num? || h["tg"].Obj?
  }

  predicate Reserved(h: Header) { "tg" in h && h["tg"] in [Str("_GCS_"), Str("_GD_"), Str("_AGN_")] }

  predicate OfType(h: Header, t: string) { "ty" in h && h["ty"] == Str(t) }

  /** The target is a name, or a list of some. */
  predicate IsDirect(h: Header) {
    && OfType(h, "i") && "tg" in h && !Reserved(h)
    && ((h["tg"].Str? && h["tg"] != Str("")) || (h["tg"].Arr? && h["tg"] != Arr([])))
  }

  /** A relayed message that is for a whole room and goes on to other servers. */
  predicate IsRelayed(h: Header) { OfType(h, "g") || (OfType(h, "i") && (Untargeted(h) || Reserved(h))) }

  /** A message of a unit of actor type `actor` that is for its room and goes to other servers. */
  predicate IsBroadcast(h: Header, actor: string) {
    OfType(h, "g") || (OfType(h, "i") && (Reserved(h) || (Untargeted(h) && actor in ["g", "d"])))
  }

  /** A unit of this actor type is one that the reserved target names. */
  predicate Meant(h: Header, actor: string) {
    OfType(h, "i") && "tg" in h ==>
      (h["tg"] == Str("_GCS_") ==> actor == "g") && (h["tg"] == Str("_AGN_") ==> actor == "d")
  }

  /** The unit at this place of the server: in the room that the message names, if that is here, not of the
      sender id in the message, and of an actor type that its target names. */
  predicate GetsRelayed(rooms: Rooms, h: Header, p: Place) {
    && p.account in rooms && p.group in rooms[p.account] && p.name in rooms[p.account][p.group]
    && (var u := rooms[p.account][p.group][p.name];
        && (u.sender.Some? ==> "sd" !in h || h["sd"] != Str(u.sender.value))
        && (u.sender == None ==> "sd" in h)
        && Meant(h, u.actor))
    && ("_aid" in h && "_gid" in h && h["_aid"].Str? && h["_gid"].Str?
        && h["_aid"].s in rooms && h["_gid"].s in rooms[h["_aid"].s]
        ==> p.account == h["_aid"].s && p.group == h["_gid"].s)
  }

  /** A member of the sender's room gets a copy: not under the sender's own id, of an actor type that the
      target names, and a GCS if the sender is none and names no target. */
  predicate GetsLocal(h: Header, sender: Option<string>, actor: string, u: Unit) {
    && u.sender != sender && Meant(h, u.actor)
    && (OfType(h, "g") || Untargeted(h) ==> actor == "g" || u.actor == "g")
  }

  /** For every header and every unit of a server: which messages are relayed, and who gets a copy of one. */
  lemma RelayedGoTo(rooms: Rooms, h: Header)
    ensures (ExternalDecision(h).Broadcast? <==> IsRelayed(h)) && (ExternalDecision(h).Direct? <==> IsDirect(h))
    ensures IsRelayed(h) ==>
              forall p :: p in ExternalCopies(rooms, h, ExternalDecision(h).audience) <==> GetsRelayed(rooms, h, p)
  {
    if IsRelayed(h) {
      var audience := ExternalDecision(h).audience;
      forall u: Unit ensures Hears(u, SenderOf(h), audience) <==>
            && (u.sender.Some? ==> "sd" !in h || h["sd"] != Str(u.sender.value)) && (u.sender == None ==> "sd" in h)
            && Meant(h, u.actor) {}
    }
  }

  /** The same at the origin, for the room of the sender. */
  lemma LocalGoTo(room: Room, h: Header, sender: Option<string>, actor: string)
    ensures (LocalDecision(h, actor).Broadcast? <==> IsBroadcast(h, actor))
    ensures LocalDecision(h, actor).Direct? <==> IsDirect(h)
    ensures IsBroadcast(h, actor) ==>
              forall n :: n in Copies(room, SenderJson(sender), LocalDecision(h, actor).audience) <==>
                          n in room && GetsLocal(h, sender, actor, room[n])
  {
  }

  /** Where a relayed copy goes does not depend on the path it took, only whether it is handled does. */
  lemma RoutingIgnoresPath(rooms: Rooms, h: Header, h': Header, audience: Audience)
    requires SameBut(h, h', {PATH})
    ensures ExternalDecision(h) == ExternalDecision(h')
    ensures ExternalCopies(rooms, h, audience) == ExternalCopies(rooms, h', audience)
  {
    assert "ty" !in {PATH} && "tg" !in {PATH} && "sd" !in {PATH} && AID !in {PATH} && GID !in {PATH};
  }

  /** The audience a server gives a relayed copy of a message that its origin broadcast to `local`. */
  function Widened(h: Header, local: Audience): Audience {
    if Kind(h) == Some(Str("g")) || TargetOf(h) == NoTarget then Everyone else local
  }

  /** Whatever the origin broadcasts, every other server broadcasts too, to the widened audience: for a
      group message or an untargeted one of a drone that is everybody where the origin chose the GCSs. */
  lemma RemoteAudience(h: Header, h': Header, actor: string)
    requires LocalDecision(h, actor).Broadcast? && SameBut(h, h', {PERMISSION, PATH, GID, AID})
    ensures ExternalDecision(h') == Broadcast(Widened(h, LocalDecision(h, actor).audience))
    ensures Widened(h, LocalDecision(h, actor).audience) == LocalDecision(h, actor).audience
            <==> actor == GCS || (Kind(h) != Some(Str("g")) && TargetOf(h).Named?)
  {
    var names := {PERMISSION, PATH, GID, AID};
    assert "ty" !in names && "tg" !in names;
  }
}

/** The mesh as one big room: the copies made by all servers against a broadcast to the union of the
    sender's group over all servers. */
module OneRoom {
  import opened Frames
  import opened Routing
  import Mesh
  import MeshTree

  /** The rooms of every server, and the sender: on which server, under which login, in which group. */
  datatype World = World(
    rooms: map<Mesh.Node, Rooms>, origin: Mesh.Node, sender: Option<string>, actor: string, scope: Scope)

  ghost predicate Placed(net: Mesh.Net, w: World) {
    && w.rooms.Keys == net.id.Keys
    && w.origin in net.id
    && Hosts(w.rooms[w.origin], w.scope.aid, w.scope.gid)
  }

  /** Copies to the unit at `p` of server `v`: the origin's own broadcast by its login, and one relayed
      broadcast for each time the server handled the message. */
  ghost function CopyCount(w: World, h: Header, sent: Header, log: multiset<Mesh.Effect>, v: Mesh.Node, p: Place): nat
    requires v in w.rooms && w.origin in w.rooms && Hosts(w.rooms[w.origin], w.scope.aid, w.scope.gid)
    requires LocalDecision(h, w.actor).Broadcast? && ExternalDecision(sent).Broadcast?
  {
    (if v == w.origin && p in ScopedCopies(w.rooms[v], w.scope.aid, w.scope.gid, SenderJson(w.sender),
                                            LocalDecision(h, w.actor).audience) then 1 else 0)
    + (if p in ExternalCopies(w.rooms[v], sent, ExternalDecision(sent).audience) then log[Mesh.Handled(v)] else 0)
  }

  /** The unit at `p` of server `v` would get a copy if the sender's group were one room on one server. */
  ghost predicate InBigRoom(w: World, audience: Audience, v: Mesh.Node, p: Place)
    requires v in w.rooms
  {
    && p.account == w.scope.aid && p.group == w.scope.gid
    && Hosts(w.rooms[v], p.account, p.group) && p.name in w.rooms[v][p.account][p.group]
    && Hears(w.rooms[v][p.account][p.group][p.name], SenderJson(w.sender), audience)
  }

  /** Server `v` sends its copies to the right units: either it hosts the room, and there the sender
      field and the widened audience pick the members that login and local audience would; or it does
      not, and then nobody at all on it may be picked by the broadcast to all its rooms. */
  ghost predicate Agrees(w: World, h: Header, v: Mesh.Node)
    requires v in w.rooms && LocalDecision(h, w.actor).Broadcast?
  {
    var local := LocalDecision(h, w.actor).audience;
    if Hosts(w.rooms[v], w.scope.aid, w.scope.gid) then
      var room := w.rooms[v][w.scope.aid][w.scope.gid];
      forall n | n in room ::
        Hears(room[n], SenderOf(h), Widened(h, local)) <==> Hears(room[n], SenderJson(w.sender), local)
    else
      forall a, g, n | a in w.rooms[v] && g in w.rooms[v][a] && n in w.rooms[v][a][g] ::
        !Hears(w.rooms[v][a][g][n], SenderOf(h), Widened(h, local))
  }

  lemma AgreesMeansRightCopies(w: World, h: Header, sent: Header, v: Mesh.Node)
    requires v in w.rooms && LocalDecision(h, w.actor).Broadcast?
    requires SameBut(h, sent, {PERMISSION, PATH, GID, AID})
    requires AID in sent && GID in sent && sent[AID] == Str(w.scope.aid) && sent[GID] == Str(w.scope.gid)
    ensures ExternalDecision(sent).Broadcast?
    ensures Agrees(w, h, v) <==>
            forall p :: p in ExternalCopies(w.rooms[v], sent, ExternalDecision(sent).audience)
                        <==> InBigRoom(w, LocalDecision(h, w.actor).audience, v, p)
  {
    RemoteAudience(h, sent, w.actor);
    var local := LocalDecision(h, w.actor).audience;
    var wide := Widened(h, local);
    var rooms := w.rooms[v];
    assert "sd" !in {PERMISSION, PATH, GID, AID};
    assert SenderOf(sent) == SenderOf(h);
    var copies := ExternalCopies(rooms, sent, wide);
    if Hosts(rooms, w.scope.aid, w.scope.gid) {
      var room := rooms[w.scope.aid][w.scope.gid];
      assert copies == ScopedCopies(rooms, w.scope.aid, w.scope.gid, SenderOf(h), wide);
      forall n | n in room
        ensures Place(w.scope.aid, w.scope.gid, n) in copies <==> Hears(room[n], SenderOf(h), wide)
        ensures InBigRoom(w, local, v, Place(w.scope.aid, w.scope.gid, n))
                <==> Hears(room[n], SenderJson(w.sender), local)
      {}
    } else {
      assert copies == AllCopies(rooms, SenderOf(h), wide);
      forall a, g, n | a in rooms && g in rooms[a] && n in rooms[a][g]
        ensures Place(a, g, n) in copies <==> Hears(rooms[a][g][n], SenderOf(h), wide)
      {}
    }
  }

  /** Every unit of server `v` has got one copy if the big room would give it one, and none otherwise. */
  ghost predicate CopiedRight(w: World, h: Header, sent: Header, log: multiset<Mesh.Effect>, v: Mesh.Node)
    requires v in w.rooms && w.origin in w.rooms && Hosts(w.rooms[w.origin], w.scope.aid, w.scope.gid)
    requires LocalDecision(h, w.actor).Broadcast? && ExternalDecision(sent).Broadcast?
  {
    forall p :: CopyCount(w, h, sent, log, v, p) ==
        if InBigRoom(w, LocalDecision(h, w.actor).audience, v, p) then 1 else 0
  }

  lemma CopiedRightAtOrigin(w: World, h: Header, sent: Header, log: multiset<Mesh.Effect>)
    requires w.origin in w.rooms && Hosts(w.rooms[w.origin], w.scope.aid, w.scope.gid)
    requires LocalDecision(h, w.actor).Broadcast? && ExternalDecision(sent).Broadcast?
    requires log[Mesh.Handled(w.origin)] == 0
    ensures CopiedRight(w, h, sent, log, w.origin)
  {}

  lemma CopiedRightElsewhere(w: World, h: Header, sent: Header, log: multiset<Mesh.Effect>, v: Mesh.Node)
    requires v in w.rooms && w.origin in w.rooms && Hosts(w.rooms[w.origin], w.scope.aid, w.scope.gid)
    requires LocalDecision(h, w.actor).Broadcast? && v != w.origin && log[Mesh.Handled(v)] == 1
    requires SameBut(h, sent, {PERMISSION, PATH, GID, AID})
    requires AID in sent && GID in sent && sent[AID] == Str(w.scope.aid) && sent[GID] == Str(w.scope.gid)
    ensures ExternalDecision(sent).Broadcast?
    ensures CopiedRight(w, h, sent, log, v) <==> Agrees(w, h, v)
  {
    AgreesMeansRightCopies(w, h, sent, v);
    var copies := ExternalCopies(w.rooms[v], sent, ExternalDecision(sent).audience);
    assert forall p :: CopyCount(w, h, sent, log, v, p) == if p in copies then 1 else 0;
  }

  /** No unit of server `v` would get a copy in the big room. */
  ghost predicate Nobody(w: World, h: Header, v: Mesh.Node)
    requires v in w.rooms && LocalDecision(h, w.actor).Broadcast?
  {
    forall p :: !InBigRoom(w, LocalDecision(h, w.actor).audience, v, p)
  }

  lemma CopiedRightUnreached(w: World, h: Header, sent: Header, log: multiset<Mesh.Effect>, v: Mesh.Node)
    requires v in w.rooms && w.origin in w.rooms && Hosts(w.rooms[w.origin], w.scope.aid, w.scope.gid)
    requires LocalDecision(h, w.actor).Broadcast? && ExternalDecision(sent).Broadcast?
    requires v != w.origin && log[Mesh.Handled(v)] == 0
    ensures CopiedRight(w, h, sent, log, v) <==> Nobody(w, h, v)
  {
    assert forall p :: CopyCount(w, h, sent, log, v, p) == 0;
  }

  /** What is to hold at another server: where the broadcast gets to it agrees, elsewhere it has no listener. */
  ghost predicate Fits(net: Mesh.Net, d: map<Mesh.Node, nat>, root: Mesh.Node, w: World, h: Header, v: Mesh.Node)
    requires MeshTree.Tree(net, d, root) && w.origin in net.id && v in w.rooms && LocalDecision(h, w.actor).Broadcast?
  {
    if MeshTree.Reaches(net, d, root, w.origin, v) then Agrees(w, h, v) else Nobody(w, h, v)
  }

  lemma CopiedRightIffFits(
      net: Mesh.Net, d: map<Mesh.Node, nat>, root: Mesh.Node, w: World, h: Header, sent: Header,
      es: seq<Mesh.Event>, c: Mesh.Config, v: Mesh.Node)
    requires MeshTree.Tree(net, d, root) && Placed(net, w) && LocalDecision(h, w.actor).Broadcast?
    requires SameBut(h, sent, {PERMISSION, PATH, GID, AID}) && RoomFields(h, sent, Some(w.scope))
    requires MeshTree.Unambiguous(net, d, root, w.origin, PathIds(h))
    requires Mesh.Run(net, Mesh.Start(net, w.origin, PathIds(h), {}), es, c) && Mesh.Flawless(es) && c.flight == []
    requires v in net.id && v != w.origin
    ensures ExternalDecision(sent).Broadcast?
    ensures CopiedRight(w, h, sent, c.log, v) <==> Fits(net, d, root, w, h, v)
  {
    RemoteAudience(h, sent, w.actor);
    MeshTree.HandledWhereReached(net, d, root, w.origin, PathIds(h), es, c, v);
    if MeshTree.Reaches(net, d, root, w.origin, v) {
      CopiedRightElsewhere(w, h, sent, c.log, v);
    } else {
      CopiedRightUnreached(w, h, sent, c.log, v);
    }
  }

  /** Every server has made exactly the copies of the big room. */
  ghost predicate LikeOneRoom(net: Mesh.Net, w: World, h: Header, sent: Header, log: multiset<Mesh.Effect>)
    requires Placed(net, w) && LocalDecision(h, w.actor).Broadcast? && ExternalDecision(sent).Broadcast?
  {
    forall v | v in net.id :: CopiedRight(w, h, sent, log, v)
  }

  ghost predicate AllFit(net: Mesh.Net, d: map<Mesh.Node, nat>, root: Mesh.Node, w: World, h: Header)
    requires MeshTree.Tree(net, d, root) && Placed(net, w) && LocalDecision(h, w.actor).Broadcast?
  {
    forall v | v in net.id && v != w.origin :: Fits(net, d, root, w, h, v)
  }

  ghost predicate AllAgree(net: Mesh.Net, w: World, h: Header)
    requires Placed(net, w) && LocalDecision(h, w.actor).Broadcast?
  {
    forall v | v in net.id && v != w.origin :: Agrees(w, h, v)
  }

  lemma OriginIsRight(
      net: Mesh.Net, d: map<Mesh.Node, nat>, root: Mesh.Node, w: World, h: Header, sent: Header,
      es: seq<Mesh.Event>, c: Mesh.Config)
    requires MeshTree.Tree(net, d, root) && Placed(net, w) && LocalDecision(h, w.actor).Broadcast?
    requires SameBut(h, sent, {PERMISSION, PATH, GID, AID}) && RoomFields(h, sent, Some(w.scope))
    requires Mesh.Run(net, Mesh.Start(net, w.origin, PathIds(h), {}), es, c)
    ensures ExternalDecision(sent).Broadcast? && CopiedRight(w, h, sent, c.log, w.origin)
  {
    RemoteAudience(h, sent, w.actor);
    MeshTree.AtMostOnce(net, d, root, w.origin, PathIds(h), {}, es, c, w.origin);
    CopiedRightAtOrigin(w, h, sent, c.log);
  }

  lemma OthersAreRight(
      net: Mesh.Net, d: map<Mesh.Node, nat>, root: Mesh.Node, w: World, h: Header, sent: Header,
      es: seq<Mesh.Event>, c: Mesh.Config)
    requires MeshTree.Tree(net, d, root) && Placed(net, w) && LocalDecision(h, w.actor).Broadcast?
    requires SameBut(h, sent, {PERMISSION, PATH, GID, AID}) && RoomFields(h, sent, Some(w.scope))
    requires MeshTree.Unambiguous(net, d, root, w.origin, PathIds(h))
    requires Mesh.Run(net, Mesh.Start(net, w.origin, PathIds(h), {}), es, c) && Mesh.Flawless(es) && c.flight == []
    ensures ExternalDecision(sent).Broadcast? && OthersRightIffFit(net, d, root, w, h, sent, c.log)
  {
    RemoteAudience(h, sent, w.actor);
    forall v | v in net.id && v != w.origin ensures CopiedRight(w, h, sent, c.log, v) <==> Fits(net, d, root, w, h, v) {
      CopiedRightIffFits(net, d, root, w, h, sent, es, c, v);
    }
  }

  ghost predicate OthersRightIffFit(
      net: Mesh.Net, d: map<Mesh.Node, nat>, root: Mesh.Node, w: World, h: Header, sent: Header,
      log: multiset<Mesh.Effect>)
    requires MeshTree.Tree(net, d, root) && Placed(net, w)
    requires LocalDecision(h, w.actor).Broadcast? && ExternalDecision(sent).Broadcast?
  {
    forall v | v in net.id && v != w.origin :: CopiedRight(w, h, sent, log, v) <==> Fits(net, d, root, w, h, v)
  }

  lemma RightIffFits(
      net: Mesh.Net, d: map<Mesh.Node, nat>, root: Mesh.Node, w: World, h: Header, sent: Header,
      log: multiset<Mesh.Effect>)
    requires MeshTree.Tree(net, d, root) && Placed(net, w)
    requires LocalDecision(h, w.actor).Broadcast? && ExternalDecision(sent).Broadcast?
    requires CopiedRight(w, h, sent, log, w.origin) && OthersRightIffFit(net, d, root, w, h, sent, log)
    ensures LikeOneRoom(net, w, h, sent, log) <==> AllFit(net, d, root, w, h)
  {
  }

  /** A broadcast that does not look like an envelope gets to every server. */
  lemma FitsEverywhere(net: Mesh.Net, d: map<Mesh.Node, nat>, root: Mesh.Node, w: World, h: Header)
    requires MeshTree.Tree(net, d, root) && Placed(net, w) && LocalDecision(h, w.actor).Broadcast? && !net.enveloped
    ensures AllFit(net, d, root, w, h) <==> AllAgree(net, w, h)
  {
  }

  /** On a tree with every link up and no ambiguous id, whatever the order of deliveries: once nothing is
      in flight, the copies made by all servers together are exactly those of one broadcast in one big
      room - each member the sender's broadcast addresses once, the sender never, nobody else - IF AND
      ONLY IF every other server the broadcast gets to agrees, and those it does not get to have no
      listener.  It gets everywhere unless its header has the handshake field and there is no payload;
      then it gets to the ancestors of the origin only. */
  lemma MeshIsOneRoomIffServersAgree(
      net: Mesh.Net, d: map<Mesh.Node, nat>, root: Mesh.Node, w: World, h: Header, payload: seq<Byte>, sent: Header,
      es: seq<Mesh.Event>, c: Mesh.Config)
    requires MeshTree.Tree(net, d, root) && Placed(net, w) && LocalDecision(h, w.actor).Broadcast?
    requires net.enveloped <==> Enveloped(h) && payload == []
    requires SameBut(h, sent, {PERMISSION, PATH, GID, AID}) && RoomFields(h, sent, Some(w.scope))
    requires MeshTree.Unambiguous(net, d, root, w.origin, PathIds(h))
    requires Mesh.Run(net, Mesh.Start(net, w.origin, PathIds(h), {}), es, c) && Mesh.Flawless(es) && c.flight == []
    ensures ExternalDecision(sent).Broadcast?
    ensures LikeOneRoom(net, w, h, sent, c.log) <==> AllFit(net, d, root, w, h)
    ensures !Enveloped(h) || payload != [] ==> (LikeOneRoom(net, w, h, sent, c.log) <==> AllAgree(net, w, h))
  {
    OriginIsRight(net, d, root, w, h, sent, es, c);
    OthersAreRight(net, d, root, w, h, sent, es, c);
    RightIffFits(net, d, root, w, h, sent, c.log);
    if !Enveloped(h) || payload != [] { FitsEverywhere(net, d, root, w, h); }
  }

  /** A message with the handshake field from a GCS of the root, whose group has another GCS on a child. */
  function EnvelopeHeader(): Header { map["ty" := Str("i"), "tg" := Str("_GD_"), "sd" := Str("u1"), S2S := Num(1)] }

  function TwoRooms(): World {
    var here: Rooms := map["acc" := map["1" := map["u1" := Unit(Some("u1"), "g")]]];
    var there: Rooms := map["acc" := map["1" := map["u2" := Unit(Some("u2"), "g")]]];
    World(map[0 := here, 1 := there, 2 := map[]], 0, Some("u1"), "g", Scope("1", "acc"))
  }

  lemma EnvelopeFacts()
    ensures Enveloped(EnvelopeHeader()) && PathIds(EnvelopeHeader()) == []
    ensures LocalDecision(EnvelopeHeader(), TwoRooms().actor) == Broadcast(Everyone)
    ensures 1 in TwoRooms().rooms && InBigRoom(TwoRooms(), Everyone, 1, Place("acc", "1", "u2"))
  {
    var h := EnvelopeHeader();
    assert h["ty"] == Str("i") && h["tg"] == Str("_GD_") && h[S2S] == Num(1) && PATH !in h;
  }

  /** Sent by the root of three servers it ends handled nowhere, so that the other GCS has no copy, although
      all links are up and no id is ambiguous. */
  lemma EnvelopeMissesChildren() returns (es: seq<Mesh.Event>, c: Mesh.Config)
    ensures var (net, h, w) := (MeshTree.Triple(true), EnvelopeHeader(), TwoRooms());
      && Enveloped(h) && LocalDecision(h, w.actor) == Broadcast(Everyone)
      && MeshTree.Tree(net, MeshTree.TripleDepth(), 0)
      && MeshTree.Unambiguous(net, MeshTree.TripleDepth(), 0, 0, PathIds(h))
      && Mesh.Run(net, Mesh.Start(net, 0, PathIds(h), {}), es, c) && Mesh.Flawless(es) && c.flight == []
      && 1 in w.rooms && InBigRoom(w, Everyone, 1, Place("acc", "1", "u2")) && c.log[Mesh.Handled(1)] == 0
  {
    EnvelopeFacts();
    es, c := MeshTree.TripleEnvelope();
    assert Mesh.Handled(1) !in MeshTree.SwallowedSet(MeshTree.Triple(true), {0});
  }

  /** The promised case: the message is addressed by a reserved target or comes from a GCS, its sender
      field is the sender's login id, and the server hosts the group. */
  lemma AddressedBroadcastsAgree(w: World, h: Header, v: Mesh.Node)
    requires v in w.rooms && LocalDecision(h, w.actor).Broadcast?
    requires w.actor == GCS || (Kind(h) != Some(Str("g")) && TargetOf(h).Named?)
    requires SenderOf(h) == SenderJson(w.sender) && Hosts(w.rooms[v], w.scope.aid, w.scope.gid)
    ensures Agrees(w, h, v)
  {
    RemoteAudience(h, h, w.actor);
  }

  /** A group message or untargeted message of any other unit reaches, on servers that host the group,
      the units one big room would only if no unit there but the sender is anything else than a GCS. */
  lemma UnaddressedBroadcastsAgreeOnlyWithGcs(w: World, h: Header, v: Mesh.Node)
    requires v in w.rooms && LocalDecision(h, w.actor).Broadcast? && w.actor != GCS
    requires Kind(h) == Some(Str("g")) || TargetOf(h) == NoTarget
    requires SenderOf(h) == SenderJson(w.sender) && Hosts(w.rooms[v], w.scope.aid, w.scope.gid)
    ensures Agrees(w, h, v) <==>
            forall n | n in w.rooms[v][w.scope.aid][w.scope.gid] ::
              var u := w.rooms[v][w.scope.aid][w.scope.gid][n]; u.sender == w.sender || u.actor == GCS
  {
    RemoteAudience(h, h, w.actor);
    var room := w.rooms[v][w.scope.aid][w.scope.gid];
    forall n | n in room
      ensures Hears(room[n], SenderOf(h), Everyone) <==> room[n].sender != w.sender
    {}
  }

  /** For instance a drone's group message reaches a drone on another server, which no local drone gets. */
  lemma DroneGroupMessageWidens()
    ensures var h: Header := map["ty" := Str("g"), "sd" := Str("d1")];
            var there: Rooms := map["acc" := map["1" := map["d2" := Unit(Some("d2"), "d")]]];
            var w := World(map[0 := map["acc" := map["1" := map["d1" := Unit(Some("d1"), "d")]]], 1 := there],
                           0, Some("d1"), "d", Scope("1", "acc"));
            LocalDecision(h, w.actor) == Broadcast(Only(GCS)) && !Agrees(w, h, 1)
  {
    var h: Header := map["ty" := Str("g"), "sd" := Str("d1")];
    var there: Rooms := map["acc" := map["1" := map["d2" := Unit(Some("d2"), "d")]]];
    var w := World(map[0 := map["acc" := map["1" := map["d1" := Unit(Some("d1"), "d")]]], 1 := there],
                   0, Some("d1"), "d", Scope("1", "acc"));
    assert "d2" in w.rooms[1]["acc"]["1"];
    UnaddressedBroadcastsAgreeOnlyWithGcs(w, h, 1);
  }
}
