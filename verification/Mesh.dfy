/** The server-to-server relay mesh: wiring, one handler step per packet, runs, and what every run
    keeps.  Node runs each handler to completion, so a step handles exactly one packet. */
module Mesh {

  /** A running server process.  `Net.id` gives its configured server id, which need not be unique. */
  type Node = nat

  /** Up: sent by a child over its one parent socket.  Down: sent by a parent to one of its children. */
  datatype Direction = Up | Down

  datatype Packet = Packet(from: Node, to: Node, dir: Direction, path: seq<string>)

  datatype Link = Link(from: Node, to: Node, dir: Direction)

  /** Who is whose child, and what travels.  A server with relaying switched off simply has no parent or no
      children.  `enveloped` says that the broadcast looks like a handshake envelope: its header has that
      field and it has no payload, which no hop changes. */
  datatype Net = Net(id: map<Node, string>, parent: map<Node, Node>, children: map<Node, seq<Node>>, enveloped: bool)

  /** What became of one packet: handled by its receiver, dropped there by the path check, or swallowed by
      a child that takes what its parent sends for a handshake envelope. */
  datatype Effect = Handled(at: Node) | Dropped(from: Node, at: Node) | Swallowed(from: Node, at: Node)

  datatype Config = Config(flight: seq<Packet>, log: multiset<Effect>, sent: nat)

  /** One atomic step.  `shut` are the links that are not open and authenticated at that moment;
      `resocketed` says that the source child has reconnected since it sent the packet, so that the
      socket the packet came from is no longer one of the parent's client sockets. */
  datatype Event =
    | Receive(k: nat, shut: set<Link>, resocketed: bool)
    | Lose(k: nat)

  /** Both ends agree on every link; cycles are allowed. */
  ghost predicate Wired(net: Net) {
    && net.children.Keys == net.id.Keys
    && (forall v | v in net.parent :: v in net.id && net.parent[v] in net.id && v in net.children[net.parent[v]])
    && (forall p, i | p in net.children && 0 <= i < |net.children[p]| ::
          net.children[p][i] in net.parent && net.parent[net.children[p][i]] == p)
    && (forall p, i, j | p in net.children && 0 <= i < j < |net.children[p]| ::
          net.children[p][i] != net.children[p][j])
  }

  ghost predicate OnLink(net: Net, p: Packet) {
    match p.dir
    case Up => p.from in net.parent && net.parent[p.from] == p.to
    case Down => p.to in net.parent && net.parent[p.to] == p.from
  }

  // ----- The two relay channels

  /** js_child_comm_server.forwardMessage: one copy to the parent, nothing excluded. */
  function ToParent(net: Net, s: Node, path: seq<string>): seq<Packet> {
    if s in net.parent then [Packet(s, net.parent[s], Up, path)] else []
  }

  /** js_parent_comm_server.forwardMessage: one copy to each child but the excluded one. */
  function ToChildren(s: Node, kids: seq<Node>, path: seq<string>, skip: set<Node>): seq<Packet> {
    if kids == [] then []
    else (if kids[0] in skip then [] else [Packet(s, kids[0], Down, path)]) + ToChildren(s, kids[1..], path, skip)
  }

  /** forwardMessage: what the origin sends for a local broadcast whose header carries `path`. */
  function Announce(net: Net, o: Node, path: seq<string>): seq<Packet>
    requires o in net.id && o in net.children
  {
    ToChildren(o, net.children[o], path + [net.id[o]], {}) + ToParent(net, o, path + [net.id[o]])
  }

  /** onReceive: a child looks for an envelope before anything else; a parent does not. */
  predicate Looks(net: Net, p: Packet) { net.enveloped && p.dir == Down }

  /** Neither taken for an envelope nor stopped by the path check. */
  predicate Passes(net: Net, p: Packet)
    requires p.to in net.id
  {
    !Looks(net, p) && net.id[p.to] !in p.path
  }

  /** The two checks, then forwardExternalMessage: what a server sends on for one packet. */
  function Replies(net: Net, p: Packet, skip: set<Node>): seq<Packet>
    requires p.to in net.id && p.to in net.children
  {
    if !Passes(net, p) then []
    else
      var path := p.path + [net.id[p.to]];
      ToParent(net, p.to, path) + ToChildren(p.to, net.children[p.to], path, skip)
  }

  /** The source socket of a packet from the parent is no client socket: then nothing is excluded. */
  function Skip(p: Packet, resocketed: bool): set<Node> {
    if p.dir == Up && !resocketed then {p.from} else {}
  }

  function Outcome(net: Net, p: Packet): Effect
    requires p.to in net.id
  {
    if Looks(net, p) then Swallowed(p.from, p.to)
    else if net.id[p.to] in p.path then Dropped(p.from, p.to)
    else Handled(p.to)
  }

  function Usable(ps: seq<Packet>, shut: set<Link>): seq<Packet> {
    if ps == [] then []
    else (if Link(ps[0].from, ps[0].to, ps[0].dir) in shut then [] else [ps[0]]) + Usable(ps[1..], shut)
  }

  // ----- Runs

  ghost predicate Fits(net: Net, c: Config) {
    forall i | 0 <= i < |c.flight| :: OnLink(net, c.flight[i])
  }

  predicate Enabled(c: Config, e: Event) { e.k < |c.flight| }

  function Step(net: Net, c: Config, e: Event): Config
    requires Wired(net) && Fits(net, c) && Enabled(c, e)
  {
    var p := c.flight[e.k];
    var rest := c.flight[..e.k] + c.flight[e.k + 1..];
    match e
    case Lose(_) => c.(flight := rest)
    case Receive(_, shut, resocketed) =>
      var out := Usable(Replies(net, p, Skip(p, resocketed)), shut);
      Config(rest + out, c.log + multiset{Outcome(net, p)}, c.sent + |out|)
  }

  function Start(net: Net, o: Node, path: seq<string>, shut: set<Link>): Config
    requires o in net.id && o in net.children
  {
    var out := Usable(Announce(net, o, path), shut);
    Config(out, multiset{}, |out|)
  }

  /** `c'` is reached from `c` by exactly the events `es`. */
  ghost predicate Run(net: Net, c: Config, es: seq<Event>, c': Config)
    requires Wired(net)
    decreases |es|
  {
    if es == [] then c == c'
    else Fits(net, c) && Enabled(c, es[0]) && Run(net, Step(net, c, es[0]), es[1..], c')
  }

  lemma {:induction false} ToChildrenLinks(net: Net, s: Node, kids: seq<Node>, path: seq<string>, skip: set<Node>)
    requires forall i | 0 <= i < |kids| :: kids[i] in net.parent && net.parent[kids[i]] == s
    ensures forall q | q in ToChildren(s, kids, path, skip) :: q.from == s && q.path == path && OnLink(net, q)
  {
    if kids != [] { ToChildrenLinks(net, s, kids[1..], path, skip); }
  }

  lemma {:induction false} UsableSubset(ps: seq<Packet>, shut: set<Link>)
    ensures forall q | q in Usable(ps, shut) :: q in ps
    ensures |Usable(ps, shut)| <= |ps|
    ensures shut == {} ==> Usable(ps, shut) == ps
  {
    if ps != [] { UsableSubset(ps[1..], shut); }
  }

  /** Everything a server sends carries its own id at the end of the path and leaves over one of its links. */
  lemma RepliesShape(net: Net, p: Packet, skip: set<Node>)
    requires Wired(net) && OnLink(net, p)
    ensures forall q | q in Replies(net, p, skip) ::
              q.from == p.to && net.id[p.to] !in p.path && q.path == p.path + [net.id[p.to]] && OnLink(net, q)
  {
    ToChildrenLinks(net, p.to, net.children[p.to], p.path + [net.id[p.to]], skip);
  }

  lemma AnnounceShape(net: Net, o: Node, path: seq<string>)
    requires Wired(net) && o in net.id
    ensures forall q | q in Announce(net, o, path) :: q.from == o && q.path == path + [net.id[o]] && OnLink(net, q)
  {
    ToChildrenLinks(net, o, net.children[o], path + [net.id[o]], {});
  }

  lemma StepFits(net: Net, c: Config, e: Event)
    requires Wired(net) && Fits(net, c) && Enabled(c, e)
    ensures Fits(net, Step(net, c, e))
  {
    if e.Receive? {
      var p := c.flight[e.k];
      RepliesShape(net, p, Skip(p, e.resocketed));
      UsableSubset(Replies(net, p, Skip(p, e.resocketed)), e.shut);
      var out := Usable(Replies(net, p, Skip(p, e.resocketed)), e.shut);
      forall i | 0 <= i < |out| ensures OnLink(net, out[i]) { assert out[i] in out; }
    }
  }

  // ----- Loop freedom: the path is the trail the packet walked

  ghost predicate Linked(net: Net, a: Node, b: Node) {
    || (a in net.parent && net.parent[a] == b)
    || (b in net.parent && net.parent[b] == a)
  }

  function IdsOf(net: Net, w: seq<Node>): seq<string>
    requires forall i | 0 <= i < |w| :: w[i] in net.id
  {
    seq(|w|, i requires 0 <= i < |w| => net.id[w[i]])
  }

  ghost predicate Walk(net: Net, o: Node, w: seq<Node>) {
    && 0 < |w| && w[0] == o
    && (forall i | 0 <= i < |w| :: w[i] in net.id)
    && (forall i | 0 < i < |w| :: Linked(net, w[i - 1], w[i]))
  }

  /** `w` is a walk of links from the origin to the packet's sender that visits no id twice (and none
      of the ids the client put into the header), and the packet's path spells exactly that walk. */
  ghost predicate Trail(net: Net, o: Node, given: seq<string>, w: seq<Node>, p: Packet) {
    && Walk(net, o, w)
    && w[|w| - 1] == p.from
    && p.path == given + IdsOf(net, w)
    && (forall i | 0 < i < |w| :: net.id[w[i]] !in given + IdsOf(net, w[..i]))
  }

  ghost predicate HasTrail(net: Net, o: Node, given: seq<string>, p: Packet) {
    exists w :: Trail(net, o, given, w, p)
  }

  ghost predicate Trailing(net: Net, o: Node, given: seq<string>, c: Config) {
    && Fits(net, c)
    && forall i | 0 <= i < |c.flight| :: HasTrail(net, o, given, c.flight[i])
  }

  lemma TrailGrows(net: Net, o: Node, given: seq<string>, w: seq<Node>, p: Packet, q: Packet)
    requires Wired(net) && OnLink(net, p) && Trail(net, o, given, w, p)
    requires q.from == p.to && net.id[p.to] !in p.path && q.path == p.path + [net.id[p.to]]
    ensures Trail(net, o, given, w + [p.to], q)
  {
    var w' := w + [p.to];
    assert IdsOf(net, w') == IdsOf(net, w) + [net.id[p.to]];
    forall i | 0 < i < |w'| ensures net.id[w'[i]] !in given + IdsOf(net, w'[..i]) {
      assert w'[..i] == w[..i];
      if i == |w| { assert w[..i] == w; }
    }
  }

  lemma StepTrails(net: Net, o: Node, given: seq<string>, c: Config, e: Event)
    requires Wired(net) && Trailing(net, o, given, c) && Enabled(c, e)
    ensures Trailing(net, o, given, Step(net, c, e))
  {
    StepFits(net, c, e);
    var p := c.flight[e.k];
    var c' := Step(net, c, e);
    assert HasTrail(net, o, given, p);
    var w :| Trail(net, o, given, w, p);
    forall i | 0 <= i < |c'.flight| ensures HasTrail(net, o, given, c'.flight[i]) {
      if i < |c.flight| - 1 {
        assert c'.flight[i] == c.flight[if i < e.k then i else i + 1];
      } else {
        var out := Replies(net, p, Skip(p, e.resocketed));
        RepliesShape(net, p, Skip(p, e.resocketed));
        UsableSubset(out, e.shut);
        assert c'.flight[i] in Usable(out, e.shut);
        TrailGrows(net, o, given, w, p, c'.flight[i]);
      }
    }
  }

  lemma StartTrails(net: Net, o: Node, given: seq<string>, shut: set<Link>)
    requires Wired(net) && o in net.id
    ensures Trailing(net, o, given, Start(net, o, given, shut))
  {
    var c := Start(net, o, given, shut);
    AnnounceShape(net, o, given);
    UsableSubset(Announce(net, o, given), shut);
    forall i | 0 <= i < |c.flight|
      ensures OnLink(net, c.flight[i]) && HasTrail(net, o, given, c.flight[i])
    {
      assert c.flight[i] in c.flight;
      assert IdsOf(net, [o]) == [net.id[o]];
      assert Trail(net, o, given, [o], c.flight[i]);
    }
  }

  /** On any link graph, cycles included, with links failing, losing packets and reconnecting at any
      time: every packet of a broadcast always carries a repeat-free walk of links from the origin. */
  lemma {:induction false} EveryPacketCarriesItsTrail(net: Net, o: Node, given: seq<string>, c: Config,
                                                      es: seq<Event>, c': Config)
    requires Wired(net) && Trailing(net, o, given, c) && Run(net, c, es, c')
    ensures Trailing(net, o, given, c')
    decreases |es|
  {
    if es != [] {
      StepTrails(net, o, given, c, es[0]);
      EveryPacketCarriesItsTrail(net, o, given, Step(net, c, es[0]), es[1..], c');
    }
  }

  /** With the empty initial path no server id occurs twice in the path of a packet in flight. */
  lemma TrailHasNoRepeats(net: Net, o: Node, w: seq<Node>, p: Packet)
    requires Trail(net, o, [], w, p)
    ensures forall i, j | 0 <= i < j < |p.path| :: p.path[i] != p.path[j]
  {
    forall i, j | 0 <= i < j < |p.path| ensures p.path[i] != p.path[j] {
      var ids := IdsOf(net, w[..j]);
      assert ids[i] == p.path[i] && p.path[j] == net.id[w[j]];
      assert [] + ids == ids;
      assert net.id[w[j]] !in ids;
    }
  }

  // ----- Termination

  ghost function Unseen(net: Net, path: seq<string>): set<string> { net.id.Values - set i | i in path }

  function Pow(b: nat, e: nat): (r: nat)
    ensures b > 0 ==> r > 0
  {
    if e == 0 then 1 else b * Pow(b, e - 1)
  }

  /** More than any server has links. */
  function Base(net: Net): nat { |net.id| + 2 }

  ghost function Weight(net: Net, p: Packet): nat { Pow(Base(net), |Unseen(net, p.path)|) }

  ghost function Work(net: Net, ps: seq<Packet>): nat {
    if ps == [] then 0 else Weight(net, ps[0]) + Work(net, ps[1..])
  }

  lemma {:induction false} WorkConcat(net: Net, a: seq<Packet>, b: seq<Packet>)
    ensures Work(net, a + b) == Work(net, a) + Work(net, b)
  {
    if a == [] {
      assert a + b == b;
    } else {
      assert (a + b)[1..] == a[1..] + b;
      WorkConcat(net, a[1..], b);
    }
  }

  lemma WorkSplit(net: Net, ps: seq<Packet>, k: nat)
    requires k < |ps|
    ensures Work(net, ps) == Work(net, ps[..k] + ps[k + 1..]) + Weight(net, ps[k])
  {
    assert ps == ps[..k] + ([ps[k]] + ps[k + 1..]);
    WorkConcat(net, ps[..k], [ps[k]] + ps[k + 1..]);
    WorkConcat(net, [ps[k]], ps[k + 1..]);
    WorkConcat(net, ps[..k], ps[k + 1..]);
    assert Work(net, [ps[k]]) == Weight(net, ps[k]) + Work(net, [ps[k]][1..]);
  }

  lemma MulSucc(n: nat, w: nat)
    ensures n * w + w == (n + 1) * w
  {}

  lemma {:induction false} WorkUniform(net: Net, ps: seq<Packet>, w: nat)
    requires forall q | q in ps :: Weight(net, q) == w
    ensures Work(net, ps) == |ps| * w
  {
    if ps != [] {
      assert ps[0] in ps;
      WorkUniform(net, ps[1..], w);
      MulSucc(|ps| - 1, w);
    }
  }

  lemma UnseenShrinks(net: Net, v: Node, path: seq<string>)
    requires v in net.id && net.id[v] !in path
    ensures |Unseen(net, path + [net.id[v]])| + 1 == |Unseen(net, path)|
  {
    var i := net.id[v];
    assert i in net.id.Values;
    assert Unseen(net, path) == Unseen(net, path + [i]) + {i};
  }

  lemma {:induction false} FewChildren(s: Node, kids: seq<Node>, path: seq<string>, skip: set<Node>)
    ensures |ToChildren(s, kids, path, skip)| <= |kids|
  {
    if kids != [] { FewChildren(s, kids[1..], path, skip); }
  }

  lemma {:induction false} DistinctFit(kids: seq<Node>, all: set<Node>)
    requires forall i | 0 <= i < |kids| :: kids[i] in all
    requires forall i, j | 0 <= i < j < |kids| :: kids[i] != kids[j]
    ensures |kids| <= |all|
  {
    if kids != [] { DistinctFit(kids[1..], all - {kids[0]}); }
  }

  lemma RepliesBound(net: Net, p: Packet, skip: set<Node>)
    requires Wired(net) && OnLink(net, p)
    ensures |Replies(net, p, skip)| < Base(net)
  {
    if Passes(net, p) {
      FewChildren(p.to, net.children[p.to], p.path + [net.id[p.to]], skip);
      DistinctFit(net.children[p.to], net.id.Keys);
    }
  }

  lemma MulLess(a: nat, b: nat, w: nat)
    requires a < b && w > 0
    ensures a * w < b * w
  {}

  /** What a server sends on for a packet weighs less than the packet. */
  lemma RepliesLowerWork(net: Net, p: Packet, skip: set<Node>, shut: set<Link>)
    requires Wired(net) && OnLink(net, p)
    ensures Work(net, Usable(Replies(net, p, skip), shut)) < Weight(net, p)
  {
    if Passes(net, p) {
      var out := Usable(Replies(net, p, skip), shut);
      RepliesBound(net, p, skip);
      UsableSubset(Replies(net, p, skip), shut);
      UnseenShrinks(net, p.to, p.path);
      var w := Pow(Base(net), |Unseen(net, p.path)| - 1);
      RepliesShape(net, p, skip);
      WorkUniform(net, out, w);
      MulLess(|out|, Base(net), w);
    }
  }

  /** Each step makes the weighted number of ids still ahead of the packets in flight smaller. */
  lemma StepLowersWork(net: Net, c: Config, e: Event)
    requires Wired(net) && Fits(net, c) && Enabled(c, e)
    ensures Work(net, Step(net, c, e).flight) < Work(net, c.flight)
  {
    var p := c.flight[e.k];
    WorkSplit(net, c.flight, e.k);
    if e.Receive? {
      RepliesLowerWork(net, p, Skip(p, e.resocketed), e.shut);
      WorkConcat(net, c.flight[..e.k] + c.flight[e.k + 1..], Usable(Replies(net, p, Skip(p, e.resocketed)), e.shut));
    }
  }

  /** Every run of a broadcast ends, whatever the graph and whatever fails: its length is bounded. */
  lemma {:induction false} RunsTerminate(net: Net, c: Config, es: seq<Event>, c': Config)
    requires Wired(net) && Fits(net, c) && Run(net, c, es, c')
    ensures |es| + Work(net, c'.flight) <= Work(net, c.flight)
    decreases |es|
  {
    if es != [] {
      StepLowersWork(net, c, es[0]);
      StepFits(net, c, es[0]);
      RunsTerminate(net, Step(net, c, es[0]), es[1..], c');
    }
  }

  // ----- Conservation: what a packet will still cause

  /** All effects a packet and everything sent on because of it will have, when nothing fails. */
  ghost function Flood(net: Net, p: Packet): multiset<Effect>
    requires Wired(net) && OnLink(net, p)
    decreases |Unseen(net, p.path)|, 1, 0
  {
    if !Passes(net, p) then multiset{Outcome(net, p)}
    else
      RepliesShape(net, p, Skip(p, false));
      UnseenShrinks(net, p.to, p.path);
      multiset{Outcome(net, p)} + FloodBelow(net, Replies(net, p, Skip(p, false)), |Unseen(net, p.path)|)
  }

  ghost function FloodBelow(net: Net, ps: seq<Packet>, bound: nat): multiset<Effect>
    requires Wired(net) && forall q | q in ps :: OnLink(net, q) && |Unseen(net, q.path)| < bound
    decreases bound, 0, |ps|
  {
    if ps == [] then multiset{}
    else
      assert ps[0] in ps;
      Flood(net, ps[0]) + FloodBelow(net, ps[1..], bound)
  }

  ghost function Floods(net: Net, ps: seq<Packet>): multiset<Effect>
    requires Wired(net) && forall i | 0 <= i < |ps| :: OnLink(net, ps[i])
  {
    if ps == [] then multiset{} else Flood(net, ps[0]) + Floods(net, ps[1..])
  }

  lemma {:induction false} FloodBelowIsFloods(net: Net, ps: seq<Packet>, bound: nat)
    requires Wired(net) && forall q | q in ps :: OnLink(net, q) && |Unseen(net, q.path)| < bound
    ensures forall i | 0 <= i < |ps| :: OnLink(net, ps[i])
    ensures FloodBelow(net, ps, bound) == Floods(net, ps)
  {
    forall i | 0 <= i < |ps| ensures OnLink(net, ps[i]) { assert ps[i] in ps; }
    if ps != [] { FloodBelowIsFloods(net, ps[1..], bound); }
  }

  lemma FloodUnfolds(net: Net, p: Packet)
    requires Wired(net) && OnLink(net, p)
    ensures forall i | 0 <= i < |Replies(net, p, Skip(p, false))| :: OnLink(net, Replies(net, p, Skip(p, false))[i])
    ensures Flood(net, p) == multiset{Outcome(net, p)} + Floods(net, Replies(net, p, Skip(p, false)))
  {
    var out := Replies(net, p, Skip(p, false));
    if Passes(net, p) {
      RepliesShape(net, p, Skip(p, false));
      UnseenShrinks(net, p.to, p.path);
      FloodBelowIsFloods(net, out, |Unseen(net, p.path)|);
    }
  }

  lemma {:induction false} FloodsConcat(net: Net, a: seq<Packet>, b: seq<Packet>)
    requires Wired(net)
    requires forall i | 0 <= i < |a| :: OnLink(net, a[i])
    requires forall i | 0 <= i < |b| :: OnLink(net, b[i])
    ensures Floods(net, a + b) == Floods(net, a) + Floods(net, b)
  {
    if a == [] {
      assert a + b == b;
    } else {
      assert (a + b)[1..] == a[1..] + b;
      FloodsConcat(net, a[1..], b);
    }
  }

  lemma FloodsSplit(net: Net, ps: seq<Packet>, k: nat)
    requires Wired(net) && k < |ps| && forall i | 0 <= i < |ps| :: OnLink(net, ps[i])
    ensures Floods(net, ps) == Floods(net, ps[..k] + ps[k + 1..]) + Flood(net, ps[k])
  {
    assert ps == ps[..k] + ([ps[k]] + ps[k + 1..]);
    FloodsConcat(net, ps[..k], [ps[k]] + ps[k + 1..]);
    FloodsConcat(net, [ps[k]], ps[k + 1..]);
    FloodsConcat(net, ps[..k], ps[k + 1..]);
    assert Floods(net, [ps[k]]) == Flood(net, ps[k]) + Floods(net, [ps[k]][1..]);
  }

  /** What has happened plus what the packets in flight will still cause. */
  ghost function Total(net: Net, c: Config): multiset<Effect>
    requires Wired(net) && Fits(net, c)
  {
    c.log + Floods(net, c.flight)
  }

  /** A packet in flight can be exchanged for what it causes next. */
  lemma FloodsExchange(net: Net, ps: seq<Packet>, k: nat, rest: seq<Packet>, out: seq<Packet>)
    requires Wired(net) && k < |ps| && forall i | 0 <= i < |ps| :: OnLink(net, ps[i])
    requires rest == ps[..k] + ps[k + 1..] && forall i | 0 <= i < |out| :: OnLink(net, out[i])
    ensures forall i | 0 <= i < |rest| :: OnLink(net, rest[i])
    ensures forall i | 0 <= i < |rest + out| :: OnLink(net, (rest + out)[i])
    ensures Floods(net, ps) == Floods(net, rest) + Flood(net, ps[k])
    ensures Floods(net, rest + out) == Floods(net, rest) + Floods(net, out)
  {
    FloodsSplit(net, ps, k);
    FloodsConcat(net, rest, out);
  }

  lemma Exchanged(log: multiset<Effect>, now: Effect, rest: multiset<Effect>, out: multiset<Effect>)
    ensures log + multiset{now} + (rest + out) == log + (rest + (multiset{now} + out))
  {
  }

  /** A step in which every link is up and no source has reconnected changes the total not at all. */
  lemma StepConserves(net: Net, c: Config, k: nat)
    requires Wired(net) && Fits(net, c) && k < |c.flight|
    ensures Fits(net, Step(net, c, Receive(k, {}, false)))
    ensures Total(net, Step(net, c, Receive(k, {}, false))) == Total(net, c)
  {
    var p, rest := c.flight[k], c.flight[..k] + c.flight[k + 1..];
    var out := Replies(net, p, Skip(p, false));
    UsableSubset(out, {});
    StepFits(net, c, Receive(k, {}, false));
    FloodUnfolds(net, p);
    FloodsExchange(net, c.flight, k, rest, out);
    Exchanged(c.log, Outcome(net, p), Floods(net, rest), Floods(net, out));
  }

  ghost predicate Flawless(es: seq<Event>) {
    forall i | 0 <= i < |es| :: es[i].Receive? && es[i].shut == {} && !es[i].resocketed
  }

  /** Confluence on any graph: whatever the order of deliveries, the final log is the flood of the start. */
  lemma {:induction false} OrderDoesNotMatter(net: Net, c: Config, es: seq<Event>, c': Config)
    requires Wired(net) && Fits(net, c) && Run(net, c, es, c') && Flawless(es)
    ensures Fits(net, c') && Total(net, c') == Total(net, c)
    ensures c'.flight == [] ==> c'.log == c.log + Floods(net, c.flight)
    ensures c.sent == |c.log| + |c.flight| ==> c'.sent == |c'.log| + |c'.flight|
    decreases |es|
  {
    if es != [] {
      StepConserves(net, c, es[0].k);
      assert es[0] == Receive(es[0].k, {}, false);
      OrderDoesNotMatter(net, Step(net, c, es[0]), es[1..], c');
    }
  }

  // ----- What failures can do: remove deliveries, never add one

  ghost predicate Stamped(net: Net, c: Config)
    requires Wired(net)
  {
    forall i | 0 <= i < |c.flight| :: OnLink(net, c.flight[i]) && net.id[c.flight[i].from] in c.flight[i].path
  }

  lemma {:induction false} FloodsOfUsable(net: Net, ps: seq<Packet>, shut: set<Link>, e: Effect)
    requires Wired(net) && forall i | 0 <= i < |ps| :: OnLink(net, ps[i])
    ensures forall i | 0 <= i < |Usable(ps, shut)| :: OnLink(net, Usable(ps, shut)[i])
    ensures Floods(net, Usable(ps, shut))[e] <= Floods(net, ps)[e]
  {
    if ps != [] {
      FloodsOfUsable(net, ps[1..], shut, e);
      var tail := Usable(ps[1..], shut);
      if Link(ps[0].from, ps[0].to, ps[0].dir) in shut {
        assert Usable(ps, shut) == tail;
      } else {
        assert Usable(ps, shut)[1..] == tail;
      }
    }
  }

  lemma ChildLinks(net: Net, s: Node, kids: seq<Node>, path: seq<string>, skip: set<Node>)
    requires forall i | 0 <= i < |kids| :: kids[i] in net.parent && net.parent[kids[i]] == s
    ensures forall i | 0 <= i < |ToChildren(s, kids, path, skip)| :: OnLink(net, ToChildren(s, kids, path, skip)[i])
  {
    ToChildrenLinks(net, s, kids, path, skip);
    forall i | 0 <= i < |ToChildren(s, kids, path, skip)| ensures OnLink(net, ToChildren(s, kids, path, skip)[i]) {
      assert ToChildren(s, kids, path, skip)[i] in ToChildren(s, kids, path, skip);
    }
  }

  lemma ReplyLinks(net: Net, p: Packet, skip: set<Node>)
    requires Wired(net) && OnLink(net, p)
    ensures forall i | 0 <= i < |Replies(net, p, skip)| :: OnLink(net, Replies(net, p, skip)[i])
  {
    RepliesShape(net, p, skip);
    forall i | 0 <= i < |Replies(net, p, skip)| ensures OnLink(net, Replies(net, p, skip)[i]) {
      assert Replies(net, p, skip)[i] in Replies(net, p, skip);
    }
  }

  ghost function FloodsDown(net: Net, s: Node, kids: seq<Node>, path: seq<string>, skip: set<Node>): multiset<Effect>
    requires Wired(net) && forall i | 0 <= i < |kids| :: kids[i] in net.parent && net.parent[kids[i]] == s
  {
    ChildLinks(net, s, kids, path, skip);
    Floods(net, ToChildren(s, kids, path, skip))
  }

  lemma FloodsDownUnfolds(net: Net, s: Node, kids: seq<Node>, path: seq<string>, skip: set<Node>)
    requires Wired(net) && forall i | 0 <= i < |kids| :: kids[i] in net.parent && net.parent[kids[i]] == s
    ensures FloodsDown(net, s, kids, path, skip) ==
            if kids == [] then multiset{}
            else (if kids[0] in skip then multiset{} else Flood(net, Packet(s, kids[0], Down, path)))
                 + FloodsDown(net, s, kids[1..], path, skip)
  {
    if kids != [] {
      var tail := ToChildren(s, kids[1..], path, skip);
      if kids[0] in skip {
        assert ToChildren(s, kids, path, skip) == tail;
      } else {
        assert ToChildren(s, kids, path, skip)[1..] == tail;
      }
    }
  }

  /** Not excluding the source child adds a copy that dies at its path check: no handling is added. */
  lemma {:induction false} ExclusionOnlySavesBounces(net: Net, s: Node, kids: seq<Node>, path: seq<string>,
                                                     x: Node, v: Node)
    requires Wired(net) && x in net.id && net.id[x] in path
    requires forall i | 0 <= i < |kids| :: kids[i] in net.parent && net.parent[kids[i]] == s
    ensures FloodsDown(net, s, kids, path, {})[Handled(v)] == FloodsDown(net, s, kids, path, {x})[Handled(v)]
  {
    FloodsDownUnfolds(net, s, kids, path, {});
    FloodsDownUnfolds(net, s, kids, path, {x});
    if kids != [] { ExclusionOnlySavesBounces(net, s, kids[1..], path, x, v); }
  }

  ghost function FloodOfReplies(net: Net, p: Packet, skip: set<Node>): multiset<Effect>
    requires Wired(net) && OnLink(net, p)
  {
    ReplyLinks(net, p, skip);
    Floods(net, Replies(net, p, skip))
  }

  /** A server's own sends, as the flood they cause: the copy to the parent and those to the children. */
  lemma RepliesFlood(net: Net, p: Packet, skip: set<Node>)
    requires Wired(net) && OnLink(net, p) && Passes(net, p)
    ensures var path := p.path + [net.id[p.to]];
            FloodOfReplies(net, p, skip) ==
              Floods(net, ToParent(net, p.to, path)) + FloodsDown(net, p.to, net.children[p.to], path, skip)
  {
    var path := p.path + [net.id[p.to]];
    ReplyLinks(net, p, skip);
    ChildLinks(net, p.to, net.children[p.to], path, skip);
    FloodsConcat(net, ToParent(net, p.to, path), ToChildren(p.to, net.children[p.to], path, skip));
  }

  lemma ResocketingAddsNoHandling(net: Net, p: Packet, r: bool, v: Node)
    requires Wired(net) && OnLink(net, p) && net.id[p.from] in p.path
    ensures FloodOfReplies(net, p, Skip(p, r))[Handled(v)] == FloodOfReplies(net, p, Skip(p, false))[Handled(v)]
  {
    if Passes(net, p) && p.dir == Up && r {
      RepliesFlood(net, p, {});
      RepliesFlood(net, p, {p.from});
      ExclusionOnlySavesBounces(net, p.to, net.children[p.to], p.path + [net.id[p.to]], p.from, v);
    }
  }

  lemma StepStamps(net: Net, c: Config, e: Event)
    requires Wired(net) && Fits(net, c) && Stamped(net, c) && Enabled(c, e)
    ensures Fits(net, Step(net, c, e)) && Stamped(net, Step(net, c, e))
  {
    StepFits(net, c, e);
    if e.Receive? {
      var p := c.flight[e.k];
      var all := Replies(net, p, Skip(p, e.resocketed));
      RepliesShape(net, p, Skip(p, e.resocketed));
      UsableSubset(all, e.shut);
      var c' := Step(net, c, e);
      forall i | 0 <= i < |c'.flight| ensures net.id[c'.flight[i].from] in c'.flight[i].path {
        if i >= |c.flight| - 1 { assert c'.flight[i] in Usable(all, e.shut); }
      }
    }
  }

  /** Replacing packet `k` by `out`, as a step does. */
  lemma SwapPacket(net: Net, ps: seq<Packet>, k: nat, out: seq<Packet>)
    requires Wired(net) && k < |ps| && forall i | 0 <= i < |ps| :: OnLink(net, ps[i])
    requires forall i | 0 <= i < |out| :: OnLink(net, out[i])
    ensures Floods(net, ps[..k] + ps[k + 1..] + out) + Flood(net, ps[k]) == Floods(net, ps) + Floods(net, out)
  {
    var rest := ps[..k] + ps[k + 1..];
    forall i | 0 <= i < |rest| ensures OnLink(net, rest[i]) { assert rest[i] in ps; }
    FloodsSplit(net, ps, k);
    FloodsConcat(net, rest, out);
  }

  lemma UsableFloodsLess(net: Net, p: Packet, shut: set<Link>, r: bool, v: Node)
    requires Wired(net) && OnLink(net, p) && net.id[p.from] in p.path
    ensures var out := Usable(Replies(net, p, Skip(p, r)), shut);
            && (forall i | 0 <= i < |out| :: OnLink(net, out[i]))
            && (multiset{Outcome(net, p)} + Floods(net, out))[Handled(v)] <= Flood(net, p)[Handled(v)]
  {
    ReplyLinks(net, p, Skip(p, r));
    ResocketingAddsNoHandling(net, p, r, v);
    FloodsOfUsable(net, Replies(net, p, Skip(p, r)), shut, Handled(v));
    FloodUnfolds(net, p);
  }

  lemma LossNeverAdds(net: Net, c: Config, k: nat, v: Node)
    requires Wired(net) && Fits(net, c) && k < |c.flight|
    ensures Fits(net, Step(net, c, Lose(k)))
    ensures Total(net, Step(net, c, Lose(k)))[Handled(v)] <= Total(net, c)[Handled(v)]
  {
    StepFits(net, c, Lose(k));
    FloodsSplit(net, c.flight, k);
  }

  lemma ReceiveNeverAdds(net: Net, c: Config, k: nat, shut: set<Link>, r: bool, v: Node)
    requires Wired(net) && Fits(net, c) && Stamped(net, c) && k < |c.flight|
    ensures Fits(net, Step(net, c, Receive(k, shut, r)))
    ensures Total(net, Step(net, c, Receive(k, shut, r)))[Handled(v)] <= Total(net, c)[Handled(v)]
  {
    var p := c.flight[k];
    var h := Handled(v);
    var out := Usable(Replies(net, p, Skip(p, r)), shut);
    StepFits(net, c, Receive(k, shut, r));
    UsableFloodsLess(net, p, shut, r, v);
    SwapPacket(net, c.flight, k, out);
    var after := Floods(net, c.flight[..k] + c.flight[k + 1..] + out);
    assert (after + Flood(net, p))[h] == (Floods(net, c.flight) + Floods(net, out))[h];
    assert after[h] + Flood(net, p)[h] == Floods(net, c.flight)[h] + Floods(net, out)[h];
    assert Total(net, Step(net, c, Receive(k, shut, r))) == c.log + multiset{Outcome(net, p)} + after;
  }

  lemma StepNeverAdds(net: Net, c: Config, e: Event, v: Node)
    requires Wired(net) && Fits(net, c) && Stamped(net, c) && Enabled(c, e)
    ensures Fits(net, Step(net, c, e))
    ensures Total(net, Step(net, c, e))[Handled(v)] <= Total(net, c)[Handled(v)]
  {
    match e
    case Lose(k) => LossNeverAdds(net, c, k, v);
    case Receive(k, shut, r) => ReceiveNeverAdds(net, c, k, shut, r, v);
  }

  /** Over every run, with links failing, packets lost and children reconnecting at any time, the number
      of times a server has handled the broadcast and may still handle it never grows. */
  lemma {:induction false} FailuresNeverAddHandlings(net: Net, c: Config, es: seq<Event>, c': Config, v: Node)
    requires Wired(net) && Fits(net, c) && Stamped(net, c) && Run(net, c, es, c')
    ensures Fits(net, c') && Total(net, c')[Handled(v)] <= Total(net, c)[Handled(v)]
    decreases |es|
  {
    if es != [] {
      StepNeverAdds(net, c, es[0], v);
      StepStamps(net, c, es[0]);
      FailuresNeverAddHandlings(net, Step(net, c, es[0]), es[1..], c', v);
    }
  }
}
