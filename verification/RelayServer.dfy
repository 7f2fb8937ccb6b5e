/** One server of the mesh with its two relay channels: the handlers that stamp, check, deliver and forward
    relayed messages, and the proof that what one of them sends is one step of the mesh. */
module RelayServer {
  import opened Frames
  import opened Routing
  import Mesh

  /** A client socket of the parent channel; `authed` is set by the server-to-server handshake. */
  class ChildLink {
    const peer: Mesh.Node
    var open: bool
    var authed: bool
    var sent: seq<Message>

    constructor (peer: Mesh.Node)
      ensures this.peer == peer && open && !authed && sent == []
    {
      this.peer := peer;
      open, authed, sent := true, false, [];
    }
  }

  /** The one socket to the parent server. */
  class ParentLink {
    const peer: Mesh.Node
    var open: bool
    var sent: seq<Message>

    constructor (peer: Mesh.Node)
      ensures this.peer == peer && open && sent == []
    {
      this.peer := peer;
      open, sent := true, [];
    }
  }

  /** A message sent on both channels, its header, and the child left out. */
  datatype Sending = Sending(m: Message, h: Header, exclude: ChildLink?)

  /** A relayed message as packet `p` of the net, its header, the socket it came from - the parent's is no
      client socket -, the signature of a challenge, or nothing when signing throws, and the units here that
      the handler gave a copy. */
  datatype Arrival = Arrival(
    net: Mesh.Net, p: Mesh.Packet, m: Message, h: Header, source: ChildLink?, resocketed: bool, sig: Option<Json>,
    heard: set<Place>)

  predicate Takes(c: ChildLink, exclude: ChildLink?)
    reads c
  {
    c.open && c.authed && c != exclude
  }

  class RelayServer {
    const node: Mesh.Node
    const serverId: string
    const codec: Codec
    const superServer: bool
    const persistentRelay: bool
    var clients: seq<ChildLink>
    var parentWs: ParentLink?
    var rooms: Rooms

    constructor (node: Mesh.Node, serverId: string, codec: Codec, superServer: bool, persistentRelay: bool)
      ensures this.node == node && this.serverId == serverId && this.codec == codec
      ensures this.superServer == superServer && this.persistentRelay == persistentRelay
      ensures clients == [] && parentWs == null && rooms == map[] && Valid()
    {
      this.node, this.serverId, this.codec := node, serverId, codec;
      this.superServer, this.persistentRelay := superServer, persistentRelay;
      clients, parentWs, rooms := [], null, map[];
    }

    ghost predicate Valid()
      reads this
    {
      && (forall i, j | 0 <= i < j < |clients| :: clients[i] != clients[j])
      && (forall i, j | 0 <= i < j < |clients| :: clients[i].peer != clients[j].peer)
    }

    // ----- The channel to the children

    /** js_parent_comm_server.forwardMessage */
    method ForwardToChildren(m: Message, exclude: ChildLink?)
      requires Valid()
      modifies clients
      ensures forall c | c in clients :: c.open == old(c.open) && c.authed == old(c.authed)
      ensures forall c | c in clients :: c.sent == old(c.sent) + if old(Takes(c, exclude)) then [m] else []
    {
      for i := 0 to |clients|
        invariant forall c | c in clients :: c.open == old(c.open) && c.authed == old(c.authed)
        invariant forall j | 0 <= j < i ::
          clients[j].sent == old(clients[j].sent) + if old(Takes(clients[j], exclude)) then [m] else []
        invariant forall j | i <= j < |clients| :: clients[j].sent == old(clients[j].sent)
      {
        var c := clients[i];
        if c.open && c.authed {
          if exclude != null && c == exclude {
            continue;
          }
          c.sent := c.sent + [m];
        }
      }
    }

    // ----- The channel to the parent

    /** js_child_comm_server.forwardMessage */
    method ForwardToParent(m: Message)
      modifies Up()
      ensures parentWs != null ==> parentWs.open == old(parentWs.open)
      ensures parentWs != null ==> parentWs.sent == old(parentWs.sent) + if old(parentWs.open) then [m] else []
    {
      if parentWs != null && parentWs.open {
        parentWs.sent := parentWs.sent + [m];
      }
    }

    ghost function Up(): set<ParentLink>
      reads this
    {
      if parentWs == null then {} else {parentWs}
    }

    /** Each usable link but the excluded one got exactly one more message, `m`; nothing else was sent. */
    twostate predicate SentOn(m: Message, exclude: ChildLink?)
      reads this, clients, Up()
    {
      && clients == old(clients) && parentWs == old(parentWs)
      && (forall c | c in clients :: c.open == old(c.open) && c.authed == old(c.authed)
            && c.sent == old(c.sent) + if superServer && old(Takes(c, exclude)) then [m] else [])
      && (parentWs != null ==>
            && parentWs.open == old(parentWs.open)
            && parentWs.sent == old(parentWs.sent) + if persistentRelay && old(parentWs.open) then [m] else [])
    }

    twostate predicate NothingSent()
      reads this, clients, Up()
    {
      && clients == old(clients) && parentWs == old(parentWs)
      && (forall c | c in clients :: c.open == old(c.open) && c.sent == old(c.sent))
      && (parentWs != null ==> parentWs.open == old(parentWs.open) && parentWs.sent == old(parentWs.sent))
    }

    /** js_chat_relay.forwardMessage: a broadcast of a local unit, with the unit's room if it is in one. */
    method ForwardMessage(m: Message, loggedIn: bool, room: Option<Scope>)
      requires Valid()
      modifies clients, Up()
      ensures loggedIn ==> SentOn(StampedByOrigin(codec, m, serverId, room), null)
      ensures !loggedIn ==> NothingSent()
    {
      if !loggedIn { return; }
      var out := StampedByOrigin(codec, m, serverId, room);
      if superServer { ForwardToChildren(out, null); }
      if persistentRelay { ForwardToParent(out); }
    }

    /** js_chat_routing.fn_parseMessage for a unit logged in as `sender` with actor type `actor`: in `room` with
        the members `members`, or in none.  `found` is what looking for the target of a one-to-one message in
        that room comes to; `heard` are the members that get a broadcast. */
    method ParseMessage(m: Message, prm: Json, sender: Option<string>, actor: string, room: Option<Scope>,
                        members: Room, found: bool)
      returns (heard: set<string>)
      requires Valid()
      modifies clients, Up()
      ensures var parsed := Parse(codec, m);
        var goes := parsed.Some?
                    && (IsBroadcast(parsed.value, actor) || (IsDirect(parsed.value) && room.Some? && !found));
        && (forall n :: n in heard <==>
              && parsed.Some? && IsBroadcast(parsed.value, actor) && room.Some?
              && n in members && GetsLocal(parsed.value, sender, actor, members[n]))
        && (goes ==> SentOn(StampedByOrigin(codec, Permitted(codec, m, parsed.value, prm), serverId, room), null))
        && (!goes ==> NothingSent())
    {
      heard := {};
      var parsed := Parse(codec, m);
      if parsed == None { return; }
      var h, out := parsed.value, Permitted(codec, m, parsed.value, prm);
      LocalGoTo(members, h, sender, actor);
      match LocalDecision(h, actor)
      case Broadcast(audience) =>
        if room.Some? { heard := Copies(members, SenderJson(sender), audience); }
        ForwardMessage(out, true, room);
      case Direct(_) =>
        if room.Some? && !found { ForwardMessage(out, true, room); }
      case System =>
      case Ignore =>
    }

    /** js_chat_relay.forwardExternalMessage */
    method ForwardExternalMessage(m: Message, source: ChildLink?)
      requires Valid()
      modifies clients, Up()
      ensures SentOn(StampedByRelay(codec, m, serverId), source)
    {
      var out := StampedByRelay(codec, m, serverId);
      if persistentRelay { ForwardToParent(out); }
      if superServer { ForwardToChildren(out, source); }
    }

    /** What fn_parseExternalMessage does with a message: `heard` are the units that get a copy here. */
    twostate predicate Relayed(m: Message, source: ChildLink?, heard: set<Place>)
      reads this, clients, Up()
    {
      && rooms == old(rooms)
      && match Parse(codec, m)
         case None => heard == {} && NothingSent()
         case Some(h) =>
           if serverId in PathIds(h) then heard == {} && NothingSent()
           else
             match ExternalDecision(h)
             case Broadcast(audience) =>
               && heard == ExternalCopies(rooms, h, audience)
               && SentOn(Rebuild(codec, m, Stamp(h, serverId)), source)
             case _ => heard == {} && NothingSent()
    }

    /** js_chat_routing.fn_parseExternalMessage.  One-to-one messages are delivered elsewhere and never
        forwarded. */
    method ParseExternalMessage(m: Message, source: ChildLink?) returns (heard: set<Place>)
      requires Valid()
      modifies clients, Up()
      ensures Relayed(m, source, heard)
      ensures forall p :: p in heard <==>
                match Parse(codec, m)
                case None => false
                case Some(h) => Str(serverId) !in PathOf(h) && IsRelayed(h) && GetsRelayed(rooms, h, p)
    {
      heard := {};
      var parsed := Parse(codec, m);
      if parsed == None { return; }
      var h := parsed.value;
      RelayedGoTo(rooms, h);
      IncludesIsMembership(PathOf(h), serverId);
      if Visited(h, serverId) { return; }
      var decision := ExternalDecision(h);
      if decision.Broadcast? {
        heard := ExternalCopies(rooms, h, decision.audience);
        ForwardExternalMessage(m, source);
      }
    }

    /** The message handler of a child's socket: until the child has proved its identity its messages are
        only looked at as handshake answers, and a wrong answer terminates the socket; from then on every
        message is relayed, as binary. */
    method OnChildMessage(c: ChildLink, m: Message, answersChallenge: bool) returns (heard: set<Place>)
      requires Valid() && c in clients
      modifies clients, Up()
      ensures clients == old(clients) && parentWs == old(parentWs)
      ensures old(c.authed) ==> Relayed(Received(m), c, heard)
      ensures !old(c.authed) ==>
        && heard == {} && rooms == old(rooms)
        && c.authed == answersChallenge && c.open == (answersChallenge && old(c.open))
        && (forall x | x in clients :: x.sent == old(x.sent))
        && (forall x | x in clients && x != c :: x.open == old(x.open) && x.authed == old(x.authed))
        && (parentWs != null ==> parentWs.sent == old(parentWs.sent) && parentWs.open == old(parentWs.open))
    {
      if !c.authed {
        if answersChallenge { c.authed := true; } else { c.open := false; }
        return {};
      }
      heard := ParseExternalMessage(Received(m), c);
    }

    /** fn_buildResponse: the signature of the challenge and this server's id. */
    function Answer(sig: Json): Message {
      Message(false, codec.stringify(map[S2S := Str("response"), "sig" := sig, "id" := Str(serverId)]))
    }

    /** The parent reads the answer as a handshake envelope with these fields. */
    lemma AnswerIsEnvelope(sig: Json)
      requires codec.Sound()
      ensures ParseEnvelope(codec, Answer(sig))
              == Some(map["s2s_auth" := Str("response"), "sig" := sig, "id" := Str(serverId)])
    {
    }

    /** What onReceive does with a message of the parent; `sig` is the signature, or nothing when signing
        throws. */
    twostate predicate FromParent(m: Message, sig: Option<Json>, heard: set<Place>)
      reads this, clients, Up()
    {
      match ParseEnvelope(codec, m)
      case None => Relayed(Received(m), null, heard)
      case Some(env) =>
        && heard == {} && rooms == old(rooms) && clients == old(clients) && parentWs == old(parentWs)
        && (forall c | c in clients :: c.open == old(c.open) && c.authed == old(c.authed) && c.sent == old(c.sent))
        && (parentWs != null ==>
              && parentWs.open == old(parentWs.open)
              && parentWs.sent == old(parentWs.sent)
                 + if env[S2S] == Str("challenge") && sig.Some? && old(parentWs.open) then [Answer(sig.value)] else [])
    }

    /** js_child_comm_server.onReceive: whatever looks like a handshake envelope goes no further. */
    method OnParentMessage(m: Message, sig: Option<Json>) returns (heard: set<Place>)
      requires Valid()
      modifies clients, Up()
      ensures FromParent(m, sig, heard)
    {
      var env := ParseEnvelope(codec, m);
      if env.Some? {
        if env.value[S2S] == Str("challenge") && parentWs != null && sig.Some? && parentWs.open {
          parentWs.sent := parentWs.sent + [Answer(sig.value)];
        }
        return {};
      }
      heard := ParseExternalMessage(Received(m), null);
    }

    // ----- One handler call is one step of the mesh

    /** This server's place in the net: its id, its children in order, its parent. */
    ghost predicate At(net: Mesh.Net)
      reads this
    {
      && node in net.id && net.id[node] == serverId && node in net.children
      && net.children[node] == (if superServer then Peers(clients) else [])
      && (node in net.parent <==> persistentRelay && parentWs != null)
      && (parentWs != null && persistentRelay ==> net.parent[node] == parentWs.peer)
    }

    /** The links of this server that would not take a message now. */
    ghost function Shut(): set<Mesh.Link>
      reads this, clients, Up()
    {
      (set c | c in clients && !(c.open && c.authed) :: Mesh.Link(node, c.peer, Mesh.Down))
      + if parentWs != null && !parentWs.open then {Mesh.Link(node, parentWs.peer, Mesh.Up)} else {}
    }

    /** The children of `cs` that take a message, in the order of the loop. */
    ghost function Receivers(cs: seq<ChildLink>, exclude: ChildLink?): seq<ChildLink>
      reads set c | c in cs
    {
      if cs == [] then [] else (if Takes(cs[0], exclude) then [cs[0]] else []) + Receivers(cs[1..], exclude)
    }

    function Peers(cs: seq<ChildLink>): seq<Mesh.Node> { seq(|cs|, i requires 0 <= i < |cs| => cs[i].peer) }

    ghost function PacketsTo(to: seq<ChildLink>, path: seq<string>): seq<Mesh.Packet> {
      if to == [] then [] else [Mesh.Packet(node, to[0].peer, Mesh.Down, path)] + PacketsTo(to[1..], path)
    }

    lemma FirstReceiver(cs: seq<ChildLink>, path: seq<string>, exclude: ChildLink?)
      requires cs != []
      ensures PacketsTo(Receivers(cs, exclude), path) ==
        (if Takes(cs[0], exclude) then [Mesh.Packet(node, cs[0].peer, Mesh.Down, path)] else [])
        + PacketsTo(Receivers(cs[1..], exclude), path)
    {
      var to, rest := Receivers(cs, exclude), Receivers(cs[1..], exclude);
      if Takes(cs[0], exclude) { assert to[1..] == rest; } else { assert to == rest; }
    }

    lemma FirstKid(kids: seq<Mesh.Node>, path: seq<string>, skip: set<Mesh.Node>, shut: set<Mesh.Link>)
      requires kids != []
      ensures Mesh.Usable(Mesh.ToChildren(node, kids, path, skip), shut) ==
        (if kids[0] in skip || Mesh.Link(node, kids[0], Mesh.Down) in shut then []
         else [Mesh.Packet(node, kids[0], Mesh.Down, path)])
        + Mesh.Usable(Mesh.ToChildren(node, kids[1..], path, skip), shut)
    {
      var all, tail := Mesh.ToChildren(node, kids, path, skip), Mesh.ToChildren(node, kids[1..], path, skip);
      if kids[0] in skip { assert all == tail; } else { assert all[1..] == tail; }
    }

    lemma {:induction false} ChildrenStep(cs: seq<ChildLink>, path: seq<string>, exclude: ChildLink?,
                                          skip: set<Mesh.Node>, shut: set<Mesh.Link>)
      requires forall c | c in cs :: Mesh.Link(node, c.peer, Mesh.Down) in shut <==> !(c.open && c.authed)
      requires forall c | c in cs :: c == exclude <==> c.peer in skip
      ensures Mesh.Usable(Mesh.ToChildren(node, Peers(cs), path, skip), shut) == PacketsTo(Receivers(cs, exclude), path)
    {
      if cs != [] {
        ChildrenStep(cs[1..], path, exclude, skip, shut);
        assert Peers(cs)[0] == cs[0].peer && Peers(cs)[1..] == Peers(cs[1..]);
        assert cs[0] in cs;
        FirstReceiver(cs, path, exclude);
        FirstKid(Peers(cs), path, skip, shut);
      }
    }

    /** The packets the links of this server carry when it sends a message with this path: by SentOn to
        the parent, when that is open, and to the children that take it. */
    ghost function EmittedUp(path: seq<string>): seq<Mesh.Packet>
      reads this, Up()
    {
      if persistentRelay && parentWs != null && parentWs.open
      then [Mesh.Packet(node, parentWs.peer, Mesh.Up, path)]
      else []
    }

    ghost function EmittedDown(path: seq<string>, exclude: ChildLink?): seq<Mesh.Packet>
      reads this, clients
    {
      if superServer then PacketsTo(Receivers(clients, exclude), path) else []
    }

    lemma DownIsMeshChannel(net: Mesh.Net, path: seq<string>, exclude: ChildLink?, skip: set<Mesh.Node>)
      requires Valid() && At(net) && forall c | c in clients :: c == exclude <==> c.peer in skip
      ensures Mesh.Usable(Mesh.ToChildren(node, net.children[node], path, skip), Shut()) == EmittedDown(path, exclude)
    {
      if superServer {
        ShutChildren();
        ChildrenStep(clients, path, exclude, skip, Shut());
      }
    }

    lemma ShutChildren()
      requires Valid() && superServer
      ensures forall c | c in clients :: Mesh.Link(node, c.peer, Mesh.Down) in Shut() <==> !(c.open && c.authed)
    {
    }

    lemma UpIsMeshChannel(net: Mesh.Net, path: seq<string>)
      requires At(net)
      ensures Mesh.Usable(Mesh.ToParent(net, node, path), Shut()) == EmittedUp(path)
    {
      var up := Mesh.ToParent(net, node, path);
      if up != [] { assert up[1..] == []; }
    }

    lemma ChannelsAreMeshChannels(net: Mesh.Net, path: seq<string>, exclude: ChildLink?, skip: set<Mesh.Node>)
      requires Valid() && At(net) && Mesh.Wired(net)
      requires forall c | c in clients :: c == exclude <==> c.peer in skip
      ensures Mesh.Usable(Mesh.ToParent(net, node, path), Shut()) == EmittedUp(path)
      ensures Mesh.Usable(Mesh.ToChildren(node, net.children[node], path, skip), Shut()) == EmittedDown(path, exclude)
    {
      UpIsMeshChannel(net, path);
      DownIsMeshChannel(net, path, exclude, skip);
    }

    lemma {:induction false} UsableConcat(a: seq<Mesh.Packet>, b: seq<Mesh.Packet>, shut: set<Mesh.Link>)
      ensures Mesh.Usable(a + b, shut) == Mesh.Usable(a, shut) + Mesh.Usable(b, shut)
    {
      if a == [] {
        assert a + b == b;
      } else {
        assert (a + b)[1..] == a[1..] + b;
        UsableConcat(a[1..], b, shut);
      }
    }

    // ----- What was sent, as packets of the mesh

    /** The packets that messages on a link are: each broadcast with the path in its header.  The answer to a
        handshake challenge is none. */
    ghost function Carried(peer: Mesh.Node, dir: Mesh.Direction, sent: seq<Message>): seq<Mesh.Packet> {
      if sent == [] then []
      else
        var rest := Carried(peer, dir, sent[1..]);
        match Parse(codec, Received(sent[0]))
        case None => rest
        case Some(h) =>
          if ExternalDecision(h).Broadcast? then [Mesh.Packet(node, peer, dir, PathIds(h))] + rest else rest
    }

    /** The messages added to a sequence. */
    ghost function News(before: seq<Message>, after: seq<Message>): seq<Message> {
      if |before| <= |after| then after[|before|..] else []
    }

    ghost function Sents(cs: seq<ChildLink>): (r: seq<seq<Message>>)
      reads set c | c in cs
      ensures |r| == |cs| && forall i | 0 <= i < |cs| :: r[i] == cs[i].sent
    {
      if cs == [] then [] else [cs[0].sent] + Sents(cs[1..])
    }

    ghost function SentBetween(
        peers: seq<Mesh.Node>, before: seq<seq<Message>>, after: seq<seq<Message>>): seq<Mesh.Packet>
      requires |peers| == |before| == |after|
    {
      if peers == [] then []
      else Carried(peers[0], Mesh.Down, News(before[0], after[0])) + SentBetween(peers[1..], before[1..], after[1..])
    }

    twostate function SentToChildren(): seq<Mesh.Packet>
      reads this, clients
    {
      if clients != old(clients) then [] else SentBetween(Peers(clients), old(Sents(clients)), Sents(clients))
    }

    twostate function SentToParent(): seq<Mesh.Packet>
      reads this, Up()
    {
      if parentWs == null || old(parentWs) != parentWs then []
      else Carried(parentWs.peer, Mesh.Up, News(old(parentWs.sent), parentWs.sent))
    }

    lemma CarriedOne(peer: Mesh.Node, dir: Mesh.Direction, m: Message, h: Header)
      requires Parse(codec, Received(m)) == Some(h) && ExternalDecision(h).Broadcast?
      ensures Carried(peer, dir, [m]) == [Mesh.Packet(node, peer, dir, PathIds(h))]
    {
      assert Carried(peer, dir, [m][1..]) == [];
    }

    lemma NewsOf(before: seq<Message>, more: seq<Message>)
      ensures News(before, before + more) == more
    {
    }

    /** The packets to those of `peers` that are among `to`. */
    ghost function PacketsAmong(peers: seq<Mesh.Node>, to: set<Mesh.Node>, path: seq<string>): seq<Mesh.Packet> {
      if peers == [] then []
      else
        (if peers[0] in to then [Mesh.Packet(node, peers[0], Mesh.Down, path)] else [])
        + PacketsAmong(peers[1..], to, path)
    }

    /** What was sent to the children are the packets to those of them that got the message. */
    lemma {:induction false} ChildrenWereSent(
        peers: seq<Mesh.Node>, before: seq<seq<Message>>, after: seq<seq<Message>>, m: Message, h: Header,
        to: set<Mesh.Node>)
      requires Parse(codec, Received(m)) == Some(h) && ExternalDecision(h).Broadcast?
      requires |peers| == |before| == |after|
      requires forall i | 0 <= i < |peers| :: after[i] == before[i] + if peers[i] in to then [m] else []
      ensures SentBetween(peers, before, after) == PacketsAmong(peers, to, PathIds(h))
    {
      if peers != [] {
        ChildrenWereSent(peers[1..], before[1..], after[1..], m, h, to);
        NewsOf(before[0], if peers[0] in to then [m] else []);
        CarriedOne(peers[0], Mesh.Down, m, h);
      }
    }

    lemma {:induction false} NothingBetween(peers: seq<Mesh.Node>, before: seq<seq<Message>>)
      requires |peers| == |before|
      ensures SentBetween(peers, before, before) == []
    {
      if peers != [] {
        NewsOf(before[0], []);
        assert before[0] + [] == before[0];
        NothingBetween(peers[1..], before[1..]);
      }
    }

    lemma {:induction false} AmongReceivers(
        cs: seq<ChildLink>, to: set<Mesh.Node>, exclude: ChildLink?, path: seq<string>)
      requires forall c | c in cs :: c.peer in to <==> Takes(c, exclude)
      ensures PacketsAmong(Peers(cs), to, path) == PacketsTo(Receivers(cs, exclude), path)
    {
      if cs != [] {
        AmongReceivers(cs[1..], to, exclude, path);
        assert cs[0] in cs && Peers(cs)[1..] == Peers(cs[1..]);
        ReceiversUnfold(cs, exclude, path);
      }
    }

    lemma ReceiversUnfold(cs: seq<ChildLink>, exclude: ChildLink?, path: seq<string>)
      requires cs != []
      ensures PacketsTo(Receivers(cs, exclude), path) ==
        (if Takes(cs[0], exclude) then [Mesh.Packet(node, cs[0].peer, Mesh.Down, path)] else [])
        + PacketsTo(Receivers(cs[1..], exclude), path)
    {
      var to, rest := Receivers(cs, exclude), Receivers(cs[1..], exclude);
      if Takes(cs[0], exclude) { assert to[1..] == rest; } else { assert to == rest; }
    }

    twostate lemma NothingToChildren()
      requires clients == old(clients) && forall c | c in clients :: c.sent == old(c.sent)
      ensures SentToChildren() == []
    {
      assert Sents(clients) == old(Sents(clients));
      NothingBetween(Peers(clients), Sents(clients));
    }

    lemma PeersDiffer(c: ChildLink, exclude: ChildLink?)
      requires Valid() && c in clients
      ensures (exists x :: x in clients && Takes(x, exclude) && x.peer == c.peer) <==> Takes(c, exclude)
    {
    }

    /** A send on both channels, as packets. */
    twostate lemma SentOnIsEmitted(x: Sending)
      requires Valid() && SentOn(x.m, x.exclude)
      requires Parse(codec, Received(x.m)) == Some(x.h) && ExternalDecision(x.h).Broadcast?
      ensures SentToChildren() == EmittedDown(PathIds(x.h), x.exclude)
      ensures SentToParent() == EmittedUp(PathIds(x.h))
    {
      if superServer {
        var to := set c | c in clients && Takes(c, x.exclude) :: c.peer;
        forall c | c in clients ensures c.peer in to <==> Takes(c, x.exclude) { PeersDiffer(c, x.exclude); }
        ChildrenWereSent(Peers(clients), old(Sents(clients)), Sents(clients), x.m, x.h, to);
        AmongReceivers(clients, to, x.exclude, PathIds(x.h));
      } else {
        NothingToChildren();
      }
      if parentWs != null {
        if persistentRelay && old(parentWs.open) {
          NewsOf(old(parentWs.sent), [x.m]);
          CarriedOne(parentWs.peer, Mesh.Up, x.m, x.h);
        } else {
          NewsOf(old(parentWs.sent), []);
          assert old(parentWs.sent) + [] == old(parentWs.sent);
        }
      }
    }

    twostate lemma NothingSentIsEmpty()
      requires NothingSent()
      ensures SentToChildren() == [] && SentToParent() == []
    {
      NothingToChildren();
      if parentWs != null {
        NewsOf(old(parentWs.sent), []);
        assert parentWs.sent == old(parentWs.sent) + [];
      }
    }

    /** The stamped broadcast, read by the next server, is a broadcast with this server on its path. */
    lemma StampedIsBroadcast(m: Message, h: Header)
      requires codec.Sound() && Parse(codec, m) == Some(h) && ExternalDecision(h).Broadcast?
      ensures var (out, h') := (Rebuild(codec, m, Stamp(h, serverId)), Stamp(h, serverId));
        && Parse(codec, Received(out)) == Some(h') && ExternalDecision(h').Broadcast?
        && PathIds(h') == PathIds(h) + [serverId]
    {
      var h' := Stamp(h, serverId);
      RebuildSplits(codec, m, h');
      ReceivedReadsSame(codec, Rebuild(codec, m, h'), h');
      StampExtendsPath(h, serverId);
      assert SameBut(h, h', {PATH});
      RoutingIgnoresPath(map[], h, h', Everyone);
    }

    /** The child that the mesh leaves out is the one whose socket the message came from. */
    lemma SkipIsSource(p: Mesh.Packet, source: ChildLink?, resocketed: bool)
      requires Valid()
      requires p.dir == Mesh.Down ==> source == null
      requires p.dir == Mesh.Up && !resocketed ==> source in clients && source.peer == p.from
      requires p.dir == Mesh.Up && resocketed ==> source !in clients
      ensures forall c | c in clients :: c == source <==> c.peer in Mesh.Skip(p, resocketed)
    {
    }

    /** The links on which the mesh sends for a packet that passes are those on which this server emits. */
    lemma RepliesAreEmitted(net: Mesh.Net, p: Mesh.Packet, source: ChildLink?, resocketed: bool)
      requires Valid() && At(net) && Mesh.Wired(net) && Mesh.OnLink(net, p) && p.to == node && Mesh.Passes(net, p)
      requires p.dir == Mesh.Down ==> source == null
      requires p.dir == Mesh.Up && !resocketed ==> source in clients && source.peer == p.from
      requires p.dir == Mesh.Up && resocketed ==> source !in clients
      ensures Mesh.Usable(Mesh.Replies(net, p, Mesh.Skip(p, resocketed)), Shut()) ==
              EmittedUp(p.path + [serverId]) + EmittedDown(p.path + [serverId], source)
    {
      var path, skip := p.path + [serverId], Mesh.Skip(p, resocketed);
      assert Mesh.Replies(net, p, skip)
          == Mesh.ToParent(net, node, path) + Mesh.ToChildren(node, net.children[node], path, skip);
      SkipIsSource(p, source, resocketed);
      UsableConcat(Mesh.ToParent(net, node, path), Mesh.ToChildren(node, net.children[node], path, skip), Shut());
      ChannelsAreMeshChannels(net, path, source, skip);
    }

    /** The answer to a challenge is no broadcast. */
    lemma AnswerIsNoPacket(sig: Json, peer: Mesh.Node, dir: Mesh.Direction)
      requires codec.Sound()
      ensures Carried(peer, dir, [Answer(sig)]) == []
    {
      var h: Header := map[S2S := Str("response"), "sig" := sig, "id" := Str(serverId)];
      var m := Answer(sig);
      assert Parse(codec, m) == Some(h);
      ReceivedReadsSame(codec, m, h);
      assert "ty" !in h;
      assert [m][1..] == [];
    }

    /** Nothing was sent but, perhaps, an answer to the parent. */
    twostate predicate OnlyAnswered(sig: Option<Json>)
      reads this, clients, Up()
    {
      && clients == old(clients) && parentWs == old(parentWs)
      && (forall c | c in clients :: c.open == old(c.open) && c.authed == old(c.authed) && c.sent == old(c.sent))
      && (parentWs != null ==>
            && parentWs.open == old(parentWs.open)
            && (|| parentWs.sent == old(parentWs.sent)
                || (sig.Some? && parentWs.sent == old(parentWs.sent) + [Answer(sig.value)])))
    }

    twostate lemma SwallowedIsEmpty(sig: Option<Json>)
      requires codec.Sound() && OnlyAnswered(sig)
      ensures SentToChildren() == [] && SentToParent() == []
    {
      NothingToChildren();
      if parentWs != null {
        NewsOf(old(parentWs.sent), []);
        if sig.Some? {
          NewsOf(old(parentWs.sent), [Answer(sig.value)]);
          AnswerIsNoPacket(sig.value, parentWs.peer, Mesh.Up);
        }
        assert old(parentWs.sent) + [] == old(parentWs.sent);
      }
    }

    /** The message is the packet: a printed broadcast with the packet's path, an envelope if the net says so. */
    predicate Is(a: Arrival) {
      && Parse(codec, Received(a.m)) == Some(a.h) && Printed(codec, Received(a.m), a.h)
      && ExternalDecision(a.h).Broadcast? && PathIds(a.h) == a.p.path
      && (a.net.enveloped <==> Enveloped(a.h) && PayloadBytes(Received(a.m)) == [])
    }

    /** It came over a link of the net to this server: from a child's socket, gone from the clients if the child
        has reconnected since, or from the parent's. */
    ghost predicate CameOverLink(a: Arrival)
      reads this, clients
    {
      && Mesh.Wired(a.net) && At(a.net) && Mesh.OnLink(a.net, a.p) && a.p.to == node
      && match a.p.dir
         case Down => a.source == null
         case Up =>
           if a.resocketed then a.source != null && a.source !in clients
           else a.source in clients && a.source.peer == a.p.from
    }

    /** The handler of the socket it came from has run, with `a.heard` as its result. */
    twostate predicate WasHandled(a: Arrival)
      reads this, clients, Up()
    {
      match a.p.dir
      case Up => Relayed(Received(a.m), a.source, a.heard)
      case Down => FromParent(a.m, a.sig, a.heard)
    }

    lemma EnvelopeIsLooked(a: Arrival)
      requires codec.Sound() && Is(a)
      ensures ParseEnvelope(codec, a.m).Some? <==> a.net.enveloped
    {
      PayloadStartsWithNul(Received(a.m));
      EnvelopeIffFieldAndNoPayload(codec, Received(a.m), a.h);
      assert ParseEnvelope(codec, a.m) == ParseEnvelope(codec, Received(a.m));
    }

    twostate lemma PassedIsEmitted(a: Arrival)
      requires codec.Sound() && Valid() && Is(a) && CameOverLink(a) && Mesh.Passes(a.net, a.p)
      requires SentOn(Rebuild(codec, Received(a.m), Stamp(a.h, serverId)), a.source)
      ensures SentToParent() + SentToChildren()
           == Mesh.Usable(Mesh.Replies(a.net, a.p, Mesh.Skip(a.p, a.resocketed)), Shut())
    {
      StampedIsBroadcast(Received(a.m), a.h);
      SentOnIsEmitted(Sending(Rebuild(codec, Received(a.m), Stamp(a.h, serverId)), Stamp(a.h, serverId), a.source));
      RepliesAreEmitted(a.net, a.p, a.source, a.resocketed);
    }

    /** What the handler has sent on, and to whom here, is what the mesh says of the packet. */
    twostate predicate HandledAsMesh(a: Arrival)
      requires Valid() && a.p.to in a.net.id && a.p.to in a.net.children && ExternalDecision(a.h).Broadcast?
      reads this, clients, Up()
    {
      && SentToParent() + SentToChildren()
           == Mesh.Usable(Mesh.Replies(a.net, a.p, Mesh.Skip(a.p, a.resocketed)), Shut())
      && a.heard ==
           if Mesh.Passes(a.net, a.p) then ExternalCopies(rooms, a.h, ExternalDecision(a.h).audience) else {}
    }

    twostate lemma LookedIsMesh(a: Arrival)
      requires codec.Sound() && Valid() && Is(a) && CameOverLink(a) && WasHandled(a) && Mesh.Looks(a.net, a.p)
      ensures HandledAsMesh(a)
    {
      EnvelopeIsLooked(a);
      SwallowedIsEmpty(a.sig);
    }

    twostate lemma RelayedIsMesh(a: Arrival)
      requires codec.Sound() && Valid() && Is(a) && CameOverLink(a) && WasHandled(a) && !Mesh.Looks(a.net, a.p)
      ensures HandledAsMesh(a)
    {
      EnvelopeIsLooked(a);
      assert Relayed(Received(a.m), a.source, a.heard);
      if Mesh.Passes(a.net, a.p) { PassedIsEmitted(a); } else { NothingSentIsEmpty(); }
    }

    twostate lemma HandlerIsMesh(a: Arrival)
      requires codec.Sound() && Valid() && Is(a) && CameOverLink(a) && WasHandled(a)
      ensures HandledAsMesh(a)
    {
      if Mesh.Looks(a.net, a.p) { LookedIsMesh(a); } else { RelayedIsMesh(a); }
    }

    /** One call of a relay handler, whatever it decides, is one step of the mesh: the broadcasts it added to
        the links, with the paths in their headers, are the packets the step adds - none when the message is
        swallowed or dropped - and units here get copies exactly when the step handles the packet. */
    twostate lemma HandlerIsMeshStep(a: Arrival, c: Mesh.Config, k: nat)
      requires codec.Sound() && Valid() && Is(a) && CameOverLink(a) && WasHandled(a)
      requires Mesh.Fits(a.net, c) && k < |c.flight| && c.flight[k] == a.p
      ensures var sent := SentToParent() + SentToChildren();
        Mesh.Step(a.net, c, Mesh.Receive(k, Shut(), a.resocketed))
          == Mesh.Config(c.flight[..k] + c.flight[k + 1..] + sent,
                         c.log + multiset{Mesh.Outcome(a.net, a.p)}, c.sent + |sent|)
      ensures a.heard ==
        if Mesh.Outcome(a.net, a.p).Handled? then ExternalCopies(rooms, a.h, ExternalDecision(a.h).audience) else {}
    {
      HandlerIsMesh(a);
      StepSends(a, c, k, Shut(), SentToParent() + SentToChildren());
    }

    lemma StepSends(a: Arrival, c: Mesh.Config, k: nat, shut: set<Mesh.Link>, sent: seq<Mesh.Packet>)
      requires Mesh.Wired(a.net) && Mesh.Fits(a.net, c) && k < |c.flight| && c.flight[k] == a.p
      requires sent == Mesh.Usable(Mesh.Replies(a.net, a.p, Mesh.Skip(a.p, a.resocketed)), shut)
      ensures Mesh.Step(a.net, c, Mesh.Receive(k, shut, a.resocketed)) ==
        Mesh.Config(c.flight[..k] + c.flight[k + 1..] + sent,
                    c.log + multiset{Mesh.Outcome(a.net, a.p)}, c.sent + |sent|)
      ensures Mesh.Passes(a.net, a.p) <==> Mesh.Outcome(a.net, a.p).Handled?
    {
    }

    /** And forwarding a local broadcast adds to the links exactly the packets the mesh starts with. */
    twostate lemma OriginIsMeshStart(net: Mesh.Net, m: Message, h: Header, room: Option<Scope>, actor: string)
      requires codec.Sound() && Mesh.Wired(net) && Valid() && At(net)
      requires Parse(codec, m) == Some(h) && LocalDecision(h, actor).Broadcast?
      requires SentOn(StampedByOrigin(codec, m, serverId, room), null)
      ensures var start := Mesh.Start(net, node, PathIds(h), Shut());
        start.flight == SentToChildren() + SentToParent() && start.sent == |start.flight|
    {
      var path, h' := PathIds(h) + [serverId], StampOrigin(h, serverId, room);
      RebuildSplits(codec, m, h');
      ReceivedReadsSame(codec, Rebuild(codec, m, h'), h');
      StampExtendsPath(h, serverId);
      assert PathOf(h') == PathOf(Stamp(h, serverId));
      assert SameBut(h, h', {PERMISSION, PATH, GID, AID});
      RemoteAudience(h, h', actor);
      SentOnIsEmitted(Sending(Rebuild(codec, m, h'), h', null));
      UsableConcat(Mesh.ToChildren(node, net.children[node], path, {}), Mesh.ToParent(net, node, path), Shut());
      ChannelsAreMeshChannels(net, path, null, {});
    }
  }
}
