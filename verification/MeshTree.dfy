/** The relay mesh on a tree of servers: who handles a broadcast, how often, and what is dropped. */
module MeshTree {
  import opened Mesh

  /** One root, every other server connected to a parent, and no cycle: depths grow along the links. */
  ghost predicate Tree(net: Net, d: map<Node, nat>, root: Node) {
    && Wired(net)
    && d.Keys == net.id.Keys
    && root in net.id && root !in net.parent && d[root] == 0
    && (forall v | v in net.id && v != root :: v in net.parent)
    && (forall v | v in net.parent :: d[v] == d[net.parent[v]] + 1)
  }

  // ----- Ancestors

  ghost function Above(net: Net, d: map<Node, nat>, root: Node, v: Node): set<Node>
    requires Tree(net, d, root) && v in net.id
    decreases d[v]
  {
    {v} + if v in net.parent then Above(net, d, root, net.parent[v]) else {}
  }

  lemma {:induction false} AboveFacts(net: Net, d: map<Node, nat>, root: Node, v: Node)
    requires Tree(net, d, root) && v in net.id
    ensures v in Above(net, d, root, v) && Above(net, d, root, v) <= net.id.Keys
    ensures forall u | u in Above(net, d, root, v) :: d[u] <= d[v] && (u != v ==> d[u] < d[v])
    ensures |Above(net, d, root, v)| == d[v] + 1
    decreases d[v]
  {
    if v in net.parent {
      AboveFacts(net, d, root, net.parent[v]);
      assert v !in Above(net, d, root, net.parent[v]);
    } else {
      assert Above(net, d, root, v) == {v};
    }
  }

  lemma {:induction false} AboveTransitive(net: Net, d: map<Node, nat>, root: Node, u: Node, v: Node)
    requires Tree(net, d, root) && v in net.id && u in Above(net, d, root, v)
    ensures u in net.id && Above(net, d, root, u) <= Above(net, d, root, v)
    decreases d[v]
  {
    AboveFacts(net, d, root, v);
    if u != v { AboveTransitive(net, d, root, u, net.parent[v]); }
  }

  lemma {:induction false} OnePerLevel(net: Net, d: map<Node, nat>, root: Node, u: Node, w: Node, v: Node)
    requires Tree(net, d, root) && v in net.id
    requires u in Above(net, d, root, v) && w in Above(net, d, root, v)
    requires u in d && w in d && d[u] == d[w]
    ensures u == w
    decreases d[v]
  {
    AboveFacts(net, d, root, v);
    if u != v && w != v { OnePerLevel(net, d, root, u, w, net.parent[v]); }
  }

  // ----- Regions: what lies beyond a link

  /** `v` lies on the far side of the link from `f` to its neighbour `x`. */
  ghost predicate Beyond(net: Net, d: map<Node, nat>, root: Node, f: Node, x: Node, v: Node)
    requires Tree(net, d, root) && v in net.id
  {
    if x in net.parent && net.parent[x] == f then x in Above(net, d, root, v) else f !in Above(net, d, root, v)
  }

  /** The neighbour of `s` through which `v` is reached. */
  ghost function Toward(net: Net, d: map<Node, nat>, root: Node, s: Node, v: Node): Node
    requires Tree(net, d, root) && s in net.id && v in net.id && s != v
    decreases d[v]
  {
    if s in Above(net, d, root, v) then
      if net.parent[v] == s then v else Toward(net, d, root, s, net.parent[v])
    else if s in net.parent then net.parent[s] else root
  }

  lemma {:induction false} TowardFacts(net: Net, d: map<Node, nat>, root: Node, s: Node, v: Node)
    requires Tree(net, d, root) && s in net.id && v in net.id && s != v
    ensures var x := Toward(net, d, root, s, v);
            && x in net.id && Linked(net, s, x) && Beyond(net, d, root, s, x, v)
            && (s in Above(net, d, root, v) <==> x in net.parent && net.parent[x] == s)
    decreases d[v]
  {
    AboveFacts(net, d, root, v);
    RootAbove(net, d, root, v);
    if s in Above(net, d, root, v) {
      if net.parent[v] != s { TowardFacts(net, d, root, s, net.parent[v]); }
    } else {
      assert s in net.parent;
    }
  }

  lemma {:induction false} RootAbove(net: Net, d: map<Node, nat>, root: Node, v: Node)
    requires Tree(net, d, root) && v in net.id
    ensures root in Above(net, d, root, v)
    decreases d[v]
  {
    if v != root { RootAbove(net, d, root, net.parent[v]); }
  }

  /** Each server other than `s` lies beyond exactly one of the links of `s`. */
  lemma BeyondIsToward(net: Net, d: map<Node, nat>, root: Node, s: Node, x: Node, v: Node)
    requires Tree(net, d, root) && s in net.id && v in net.id && x in net.id && Linked(net, s, x)
    ensures Beyond(net, d, root, s, x, v) <==> s != v && x == Toward(net, d, root, s, v)
  {
    AboveFacts(net, d, root, v);
    AboveFacts(net, d, root, s);
    if s != v {
      TowardFacts(net, d, root, s, v);
      var y := Toward(net, d, root, s, v);
      if Beyond(net, d, root, s, x, v) {
        if x in net.parent && net.parent[x] == s {
          AboveTransitive(net, d, root, x, v);
          assert s in Above(net, d, root, x);
          AboveFacts(net, d, root, x);
          AboveFacts(net, d, root, net.parent[x]);
          OnePerLevel(net, d, root, x, y, v);
        }
      }
    } else if x in net.parent && net.parent[x] == s {
      assert x !in Above(net, d, root, s);
    }
  }

  /** Seen from `f`, what lies beyond `s` is `s` itself and what lies beyond the other links of `s`. */
  lemma BeyondSplits(net: Net, d: map<Node, nat>, root: Node, f: Node, s: Node, v: Node)
    requires Tree(net, d, root) && f in net.id && s in net.id && v in net.id && Linked(net, f, s)
    ensures Beyond(net, d, root, f, s, s)
    ensures v != s ==> (Beyond(net, d, root, f, s, v) <==> Toward(net, d, root, s, v) != f)
    ensures !Beyond(net, d, root, f, s, f)
  {
    AboveFacts(net, d, root, s);
    AboveFacts(net, d, root, f);
    if v != s {
      BeyondIsToward(net, d, root, s, f, v);
    }
  }

  // ----- Routes and ids

  /** `u` is on the route between `a` and `v`: above one of them, and not above where they meet. */
  ghost predicate OnRoute(net: Net, d: map<Node, nat>, root: Node, a: Node, u: Node, v: Node)
    requires Tree(net, d, root) && a in net.id && v in net.id && u in net.id
  {
    && (u in Above(net, d, root, a) || u in Above(net, d, root, v))
    && forall w | w in Above(net, d, root, a) && w in Above(net, d, root, v) && w in d :: d[w] <= d[u]
  }

  /** Down: `x` is the child of `s` above `v`. */
  lemma RouteDown(net: Net, d: map<Node, nat>, root: Node, s: Node, x: Node, u: Node, v: Node)
    requires Tree(net, d, root) && u in net.id && v in net.id
    requires x in net.parent && net.parent[x] == s && x in Above(net, d, root, v)
    ensures OnRoute(net, d, root, s, u, v) <==> u in Above(net, d, root, v) && d[s] <= d[u]
    ensures OnRoute(net, d, root, x, u, v) <==> u in Above(net, d, root, v) && d[x] <= d[u]
  {
    AboveFacts(net, d, root, s);
    AboveFacts(net, d, root, x);
    AboveTransitive(net, d, root, x, v);
    assert Above(net, d, root, x) == {x} + Above(net, d, root, s);
  }

  /** Up: `x` is the parent of `s`, and `s` is not above `v`. */
  lemma RouteUp(net: Net, d: map<Node, nat>, root: Node, s: Node, u: Node, v: Node)
    requires Tree(net, d, root) && u in net.id && v in net.id
    requires s in net.parent && s !in Above(net, d, root, v)
    ensures OnRoute(net, d, root, s, u, v) <==> u == s || OnRoute(net, d, root, net.parent[s], u, v)
    ensures OnRoute(net, d, root, net.parent[s], u, v) ==> s !in Above(net, d, root, u)
  {
    var x := net.parent[s];
    AboveFacts(net, d, root, s);
    AboveFacts(net, d, root, x);
    assert Above(net, d, root, s) == {s} + Above(net, d, root, x);
    if OnRoute(net, d, root, x, u, v) && s in Above(net, d, root, u) {
      AboveTransitive(net, d, root, u, if u in Above(net, d, root, x) then x else v);
      assert false;
    }
  }

  /** From `s` the route to `v` is `s` and then the route from the next server on. */
  lemma RouteSteps(net: Net, d: map<Node, nat>, root: Node, s: Node, u: Node, v: Node)
    requires Tree(net, d, root) && s in net.id && u in net.id && v in net.id && s != v
    ensures Toward(net, d, root, s, v) in net.id
    ensures OnRoute(net, d, root, s, u, v) <==> u == s || OnRoute(net, d, root, Toward(net, d, root, s, v), u, v)
    ensures OnRoute(net, d, root, Toward(net, d, root, s, v), u, v) ==>
        Beyond(net, d, root, s, Toward(net, d, root, s, v), u)
  {
    TowardFacts(net, d, root, s, v);
    var x := Toward(net, d, root, s, v);
    if s in Above(net, d, root, v) {
      RouteDown(net, d, root, s, x, u, v);
      if u in Above(net, d, root, v) && d[u] == d[s] { OnePerLevel(net, d, root, u, s, v); }
      if u in Above(net, d, root, v) && d[x] <= d[u] { AboveChain(net, d, root, x, u, v); }
    } else {
      RouteUp(net, d, root, s, u, v);
    }
  }

  /** The ancestors of a server form a chain. */
  lemma {:induction false} AboveChain(net: Net, d: map<Node, nat>, root: Node, x: Node, u: Node, v: Node)
    requires Tree(net, d, root) && v in net.id
    requires x in Above(net, d, root, v) && u in Above(net, d, root, v) && x in d && u in d && d[x] <= d[u]
    ensures x in Above(net, d, root, u)
    decreases d[v]
  {
    AboveFacts(net, d, root, v);
    if u != v && x != v { AboveChain(net, d, root, x, u, net.parent[v]); }
  }

  /** The id of `v` is not on the path and not that of a server before it on its route from `s`. */
  ghost predicate ClearAt(net: Net, d: map<Node, nat>, root: Node, s: Node, path: seq<string>, v: Node)
    requires Tree(net, d, root) && s in net.id && v in net.id
  {
    && net.id[v] !in path
    && forall u | u in net.id && u != v && OnRoute(net, d, root, s, u, v) :: net.id[u] != net.id[v]
  }

  /** No server beyond the link repeats an id of the path or of a server before it on its route. */
  ghost predicate RegionClear(net: Net, d: map<Node, nat>, root: Node, f: Node, s: Node, path: seq<string>)
    requires Tree(net, d, root) && f in net.id && s in net.id
  {
    forall v | v in net.id && Beyond(net, d, root, f, s, v) :: ClearAt(net, d, root, s, path, v)
  }

  /** The same seen from the origin: no id twice on any route from it, none already in the header. */
  ghost predicate Unambiguous(net: Net, d: map<Node, nat>, root: Node, o: Node, given: seq<string>)
    requires Tree(net, d, root) && o in net.id
  {
    forall v | v in net.id && v != o :: ClearAt(net, d, root, o, given, v)
  }

  /** Clear as seen from `s` is clear as seen from its neighbour on the way to `v`, with the id of `s` passed. */
  lemma ClearOneOn(net: Net, d: map<Node, nat>, root: Node, s: Node, x: Node, path: seq<string>, v: Node)
    requires Tree(net, d, root) && s in net.id && v in net.id && x in net.id && Linked(net, s, x)
    requires Beyond(net, d, root, s, x, v) && ClearAt(net, d, root, s, path, v)
    ensures ClearAt(net, d, root, x, path + [net.id[s]], v)
  {
    BeyondIsToward(net, d, root, s, x, v);
    RouteSteps(net, d, root, s, s, v);
    forall u | u in net.id && u != v && OnRoute(net, d, root, x, u, v) ensures net.id[u] != net.id[v] {
      RouteSteps(net, d, root, s, u, v);
    }
  }

  lemma ClearBelow(net: Net, d: map<Node, nat>, root: Node, f: Node, s: Node, x: Node, path: seq<string>)
    requires Tree(net, d, root) && f in net.id && s in net.id && x in net.id && x != f
    requires Linked(net, f, s) && Linked(net, s, x) && RegionClear(net, d, root, f, s, path)
    ensures RegionClear(net, d, root, s, x, path + [net.id[s]])
  {
    forall v | v in net.id && Beyond(net, d, root, s, x, v) ensures ClearAt(net, d, root, x, path + [net.id[s]], v) {
      BeyondIsToward(net, d, root, s, x, v);
      BeyondSplits(net, d, root, f, s, v);
      ClearOneOn(net, d, root, s, x, path, v);
    }
  }

  // ----- The flood of one packet on a tree

  function Subject(e: Effect): Node {
    match e
    case Handled(v) => v
    case Dropped(v, _) => v
    case Swallowed(_, v) => v
  }

  lemma NotAgain(kids: seq<Node>, x: Node)
    requires kids != [] && forall i, j | 0 <= i < j < |kids| :: kids[i] != kids[j]
    ensures kids[0] !in kids[1..] && (x in kids <==> x == kids[0] || x in kids[1..])
  {
  }

  /** Of the packets to the children only the one to `x` causes `e`. */
  lemma {:induction false} OnlyOneChild(net: Net, s: Node, kids: seq<Node>, path: seq<string>, skip: set<Node>,
                                        e: Effect, x: Node)
    requires Wired(net) && forall i | 0 <= i < |kids| :: kids[i] in net.parent && net.parent[kids[i]] == s
    requires forall i, j | 0 <= i < j < |kids| :: kids[i] != kids[j]
    requires forall i | 0 <= i < |kids| && kids[i] !in skip && kids[i] != x ::
        Flood(net, Packet(s, kids[i], Down, path))[e] == 0
    ensures x in kids ==> OnLink(net, Packet(s, x, Down, path))
    ensures FloodsDown(net, s, kids, path, skip)[e] ==
            if x in kids && x !in skip then Flood(net, Packet(s, x, Down, path))[e] else 0
  {
    FloodsDownUnfolds(net, s, kids, path, skip);
    if kids != [] {
      OnlyOneChild(net, s, kids[1..], path, skip, e, x);
      NotAgain(kids, x);
    }
  }

  lemma UpFlood(net: Net, s: Node, path: seq<string>)
    requires Wired(net) && s in net.id
    ensures forall i | 0 <= i < |ToParent(net, s, path)| :: OnLink(net, ToParent(net, s, path)[i])
    ensures Floods(net, ToParent(net, s, path)) ==
      if s in net.parent then Flood(net, Packet(s, net.parent[s], Up, path)) else multiset{}
  {
    var up := ToParent(net, s, path);
    if s in net.parent { assert up[1..] == []; }
  }

  /** What the handler at `s` causes: handling the packet, the copy to its parent, those to its children. */
  lemma HandlerEffects(net: Net, p: Packet, e: Effect)
    requires Wired(net) && OnLink(net, p) && Passes(net, p)
    ensures var path := p.path + [net.id[p.to]];
            Flood(net, p)[e] ==
              (if e == Handled(p.to) then 1 else 0)
              + (if p.to in net.parent then Flood(net, Packet(p.to, net.parent[p.to], Up, path))[e] else 0)
              + FloodsDown(net, p.to, net.children[p.to], path, Skip(p, false))[e]
  {
    var path := p.path + [net.id[p.to]];
    FloodUnfolds(net, p);
    RepliesFlood(net, p, Skip(p, false));
    UpFlood(net, p.to, path);
  }

  /** A copy sent back up to a server already on the path is dropped there and causes nothing else. */
  lemma BounceDies(net: Net, q: Packet, e: Effect)
    requires Wired(net) && OnLink(net, q) && q.dir == Up && net.id[q.to] in q.path
    ensures Flood(net, q)[e] == if e == Dropped(q.from, q.to) then 1 else 0
  {}

  /** The packet to the neighbour of `s` through which the subject of `e` is reached. */
  function Copy(net: Net, s: Node, x: Node, path: seq<string>): Packet {
    Packet(s, x, if s in net.parent && net.parent[s] == x then Up else Down, path)
  }

  ghost function FloodToward(net: Net, d: map<Node, nat>, root: Node, s: Node, v: Node,
                             path: seq<string>): multiset<Effect>
    requires Tree(net, d, root) && s in net.id && v in net.id && s != v
  {
    TowardFacts(net, d, root, s, v);
    Flood(net, Copy(net, s, Toward(net, d, root, s, v), path))
  }

  /** No copy but one toward the subject of `e` can cause `e`. */
  ghost predicate OnlyToward(net: Net, d: map<Node, nat>, root: Node, p: Packet, e: Effect)
    requires Tree(net, d, root) && OnLink(net, p) && Subject(e) in net.id
  {
    forall x | x in net.id && x != p.from && Linked(net, p.to, x) && !Beyond(net, d, root, p.to, x, Subject(e)) ::
      Flood(net, Copy(net, p.to, x, p.path + [net.id[p.to]]))[e] == 0
  }

  /** A copy to a child that is not the one toward the subject of `e`. */
  lemma OtherChildIsSilent(net: Net, d: map<Node, nat>, root: Node, p: Packet, e: Effect, x: Node)
    requires Tree(net, d, root) && OnLink(net, p) && Subject(e) in net.id && OnlyToward(net, d, root, p, e)
    requires x in net.parent && net.parent[x] == p.to && x !in Skip(p, false)
    requires Subject(e) != p.to ==> x != Toward(net, d, root, p.to, Subject(e))
    ensures Flood(net, Packet(p.to, x, Down, p.path + [net.id[p.to]]))[e] == 0
  {
    BeyondIsToward(net, d, root, p.to, x, Subject(e));
    assert Copy(net, p.to, x, p.path + [net.id[p.to]]) == Packet(p.to, x, Down, p.path + [net.id[p.to]]);
  }

  lemma ChildCopies(net: Net, d: map<Node, nat>, root: Node, p: Packet, e: Effect)
    requires Tree(net, d, root) && OnLink(net, p) && Subject(e) in net.id && OnlyToward(net, d, root, p, e)
    ensures var (s, v, path) := (p.to, Subject(e), p.path + [net.id[p.to]]);
            FloodsDown(net, s, net.children[s], path, Skip(p, false))[e] ==
              if v != s && Toward(net, d, root, s, v) != p.from && s in Above(net, d, root, v)
              then FloodToward(net, d, root, s, v, path)[e] else 0
  {
    var s, v, path := p.to, Subject(e), p.path + [net.id[p.to]];
    var kids := net.children[s];
    if v != s { TowardFacts(net, d, root, s, v); }
    var x := if v != s && s in Above(net, d, root, v) then Toward(net, d, root, s, v) else s;
    forall i | 0 <= i < |kids| && kids[i] !in Skip(p, false) && kids[i] != x
      ensures Flood(net, Packet(s, kids[i], Down, path))[e] == 0
    {
      OtherChildIsSilent(net, d, root, p, e, kids[i]);
    }
    OnlyOneChild(net, s, kids, path, Skip(p, false), e, x);
  }

  lemma ParentCopy(net: Net, d: map<Node, nat>, root: Node, p: Packet, e: Effect)
    requires Tree(net, d, root) && OnLink(net, p) && net.id[p.from] in p.path
    requires Subject(e) in net.id && OnlyToward(net, d, root, p, e) && p.to in net.parent
    ensures var (s, v, path) := (p.to, Subject(e), p.path + [net.id[p.to]]);
            Flood(net, Packet(s, net.parent[s], Up, path))[e] ==
              if p.dir == Down then (if e == Dropped(s, p.from) then 1 else 0)
              else if v != s && s !in Above(net, d, root, v) then FloodToward(net, d, root, s, v, path)[e] else 0
  {
    var s, v, path := p.to, Subject(e), p.path + [net.id[p.to]];
    var up := Packet(s, net.parent[s], Up, path);
    assert Copy(net, s, net.parent[s], path) == up;
    if p.dir == Down {
      BounceDies(net, up, e);
    } else {
      BeyondIsToward(net, d, root, s, net.parent[s], v);
      if v != s { TowardFacts(net, d, root, s, v); }
    }
  }

  /** When of all copies sent on only the one toward `v` can cause `e`, the whole flood is that copy's. */
  lemma OnlyOneCopy(net: Net, d: map<Node, nat>, root: Node, p: Packet, e: Effect)
    requires Tree(net, d, root) && OnLink(net, p) && net.id[p.from] in p.path && Passes(net, p)
    requires Subject(e) in net.id && OnlyToward(net, d, root, p, e)
    ensures var path := p.path + [net.id[p.to]];
            Flood(net, p)[e] ==
              (if e == Handled(p.to) || (p.dir == Down && e == Dropped(p.to, p.from)) then 1 else 0)
              + (if Subject(e) == p.to || Toward(net, d, root, p.to, Subject(e)) == p.from then 0
                 else FloodToward(net, d, root, p.to, Subject(e), path)[e])
  {
    var s, v := p.to, Subject(e);
    HandlerEffects(net, p, e);
    ChildCopies(net, d, root, p, e);
    if v != s { TowardFacts(net, d, root, s, v); }
    if s in net.parent { ParentCopy(net, d, root, p, e); }
  }

  /** On a tree, whatever the ids and the header's path: a packet makes each server beyond its link
      handle the broadcast at most once, and no other server at all. */
  lemma {:induction false} AtMostOnceBeyond(net: Net, d: map<Node, nat>, root: Node, p: Packet, v: Node)
    requires Tree(net, d, root) && OnLink(net, p) && net.id[p.from] in p.path && v in net.id
    ensures Flood(net, p)[Handled(v)] <= if Beyond(net, d, root, p.from, p.to, v) then 1 else 0
    decreases |Unseen(net, p.path)|
  {
    var s, path := p.to, p.path + [net.id[p.to]];
    BeyondSplits(net, d, root, p.from, s, v);
    if Passes(net, p) {
      UnseenShrinks(net, s, p.path);
      forall x | x in net.id && x != p.from && Linked(net, s, x)
        ensures OnLink(net, Copy(net, s, x, path))
        ensures Flood(net, Copy(net, s, x, path))[Handled(v)] <= if Beyond(net, d, root, s, x, v) then 1 else 0
      {
        AtMostOnceBeyond(net, d, root, Copy(net, s, x, path), v);
      }
      AtMostOnceHere(net, d, root, p, v);
    }
  }

  lemma AtMostOnceHere(net: Net, d: map<Node, nat>, root: Node, p: Packet, v: Node)
    requires Tree(net, d, root) && OnLink(net, p) && net.id[p.from] in p.path && v in net.id && Passes(net, p)
    requires forall x | x in net.id && x != p.from && Linked(net, p.to, x) ::
      Flood(net, Copy(net, p.to, x, p.path + [net.id[p.to]]))[Handled(v)]
        <= if Beyond(net, d, root, p.to, x, v) then 1 else 0
    ensures Flood(net, p)[Handled(v)] <= if Beyond(net, d, root, p.from, p.to, v) then 1 else 0
  {
    BeyondSplits(net, d, root, p.from, p.to, v);
    OnlyOneCopy(net, d, root, p, Handled(v));
    if v != p.to { TowardFacts(net, d, root, p.to, v); }
  }

  /** The effects a packet has beyond its link when no id is ambiguous.  As a rule every server there
      handles it once, and each of them that got it from its parent sends one copy back up, which is
      dropped.  What looks like an envelope is handled by the ancestors of `f` only and swallowed by every
      child to which one of them, or `f` itself, hands it down. */
  ghost predicate Expected(net: Net, d: map<Node, nat>, root: Node, f: Node, s: Node, e: Effect)
    requires Tree(net, d, root) && f in net.id
  {
    && Subject(e) in net.id && Beyond(net, d, root, f, s, Subject(e))
    && match e
       case Handled(v) => net.enveloped ==> v in Above(net, d, root, f)
       case Dropped(v, q) => !net.enveloped && v in net.parent && net.parent[v] == q && v !in Above(net, d, root, f)
       case Swallowed(q, v) =>
         && net.enveloped && v in net.parent && net.parent[v] == q
         && q in Above(net, d, root, f) && v !in Above(net, d, root, f)
  }

  /** Being an ancestor of `f` or of its neighbour `s` is the same for servers beyond both. */
  lemma AboveNeighbours(net: Net, d: map<Node, nat>, root: Node, f: Node, s: Node, v: Node)
    requires Tree(net, d, root) && f in net.id && s in net.id && v in net.id && Linked(net, f, s) && v != f && v != s
    ensures v in Above(net, d, root, f) <==> v in Above(net, d, root, s)
  {}

  lemma {:induction false} ExactlyBeyond(net: Net, d: map<Node, nat>, root: Node, p: Packet, e: Effect)
    requires Tree(net, d, root) && OnLink(net, p) && net.id[p.from] in p.path
    requires RegionClear(net, d, root, p.from, p.to, p.path) && Subject(e) in net.id
    ensures Flood(net, p)[e] == if Expected(net, d, root, p.from, p.to, e) then 1 else 0
    decreases |Unseen(net, p.path)|
  {
    var s, f, path := p.to, p.from, p.path + [net.id[p.to]];
    BeyondSplits(net, d, root, f, s, s);
    assert net.id[s] !in p.path;
    if Looks(net, p) {
      SwallowedBelow(net, d, root, p, e);
      return;
    }
    UnseenShrinks(net, s, p.path);
    forall x | x in net.id && x != f && Linked(net, s, x)
      ensures OnLink(net, Copy(net, s, x, path))
      ensures Flood(net, Copy(net, s, x, path))[e] == if Expected(net, d, root, s, x, e) then 1 else 0
    {
      ClearBelow(net, d, root, f, s, x, p.path);
      ExactlyBeyond(net, d, root, Copy(net, s, x, path), e);
    }
    ExactSum(net, d, root, p, e);
  }

  /** Of what looks like an envelope a child causes nothing but its own swallowing. */
  lemma SwallowedBelow(net: Net, d: map<Node, nat>, root: Node, p: Packet, e: Effect)
    requires Tree(net, d, root) && OnLink(net, p) && Looks(net, p) && Subject(e) in net.id
    ensures Flood(net, p)[e] == if Expected(net, d, root, p.from, p.to, e) then 1 else 0
  {
    var s, f, v := p.to, p.from, Subject(e);
    AboveFacts(net, d, root, f);
    AboveFacts(net, d, root, v);
  }

  /** The effects expected of a packet are those of its handling and those expected of the copies. */
  lemma ExactSum(net: Net, d: map<Node, nat>, root: Node, p: Packet, e: Effect)
    requires Tree(net, d, root) && OnLink(net, p) && net.id[p.from] in p.path && Passes(net, p) && Subject(e) in net.id
    requires forall x | x in net.id && x != p.from && Linked(net, p.to, x) ::
      Flood(net, Copy(net, p.to, x, p.path + [net.id[p.to]]))[e] == if Expected(net, d, root, p.to, x, e) then 1 else 0
    ensures Flood(net, p)[e] == if Expected(net, d, root, p.from, p.to, e) then 1 else 0
  {
    var s, f, v := p.to, p.from, Subject(e);
    BeyondSplits(net, d, root, f, s, v);
    OnlyOneCopy(net, d, root, p, e);
    if v != s {
      TowardFacts(net, d, root, s, v);
      if v != f { AboveNeighbours(net, d, root, f, s, v); }
    } else {
      AboveFacts(net, d, root, f);
      AboveFacts(net, d, root, s);
    }
  }

  /** Conversely, when every server beyond the link handles the broadcast, no id there is ambiguous. */
  lemma {:induction false} ClearIfAllHandle(net: Net, d: map<Node, nat>, root: Node, p: Packet)
    requires Tree(net, d, root) && OnLink(net, p) && net.id[p.from] in p.path
    requires forall v | v in net.id && Beyond(net, d, root, p.from, p.to, v) :: Flood(net, p)[Handled(v)] > 0
    ensures RegionClear(net, d, root, p.from, p.to, p.path)
    decreases |Unseen(net, p.path)|
  {
    var s, f, path := p.to, p.from, p.path + [net.id[p.to]];
    BeyondSplits(net, d, root, f, s, s);
    assert Passes(net, p) by { assert Flood(net, p)[Handled(s)] > 0; }
    UnseenShrinks(net, s, p.path);
    forall x | x in net.id && x != f && Linked(net, s, x)
      ensures RegionClear(net, d, root, s, x, path)
    {
      forall v | v in net.id && Beyond(net, d, root, s, x, v)
        ensures OnLink(net, Copy(net, s, x, path)) && Flood(net, Copy(net, s, x, path))[Handled(v)] > 0
      {
        BeyondIsToward(net, d, root, s, x, v);
        BeyondSplits(net, d, root, f, s, v);
        HandledThrough(net, d, root, p, v);
      }
      ClearIfAllHandle(net, d, root, Copy(net, s, x, path));
    }
    forall v | v in net.id && Beyond(net, d, root, f, s, v)
      ensures net.id[v] !in p.path
      ensures forall u | u in net.id && u != v && OnRoute(net, d, root, s, u, v) :: net.id[u] != net.id[v]
    {
      BeyondSplits(net, d, root, f, s, v);
      if v != s {
        TowardFacts(net, d, root, s, v);
        var x := Toward(net, d, root, s, v);
        assert RegionClear(net, d, root, s, x, path);
        forall u | u in net.id && u != v && OnRoute(net, d, root, s, u, v) ensures net.id[u] != net.id[v] {
          RouteSteps(net, d, root, s, u, v);
        }
      } else {
        forall u | u in net.id && u != v && OnRoute(net, d, root, s, u, v) ensures false {
          OnRouteSelf(net, d, root, s, u);
        }
      }
    }
  }

  lemma OnRouteSelf(net: Net, d: map<Node, nat>, root: Node, s: Node, u: Node)
    requires Tree(net, d, root) && s in net.id && u in net.id && OnRoute(net, d, root, s, u, s)
    ensures u == s
  {
    AboveFacts(net, d, root, s);
  }

  lemma HandledThrough(net: Net, d: map<Node, nat>, root: Node, p: Packet, v: Node)
    requires Tree(net, d, root) && OnLink(net, p) && net.id[p.from] in p.path && Passes(net, p)
    requires v in net.id && v != p.to && Toward(net, d, root, p.to, v) != p.from
    ensures Flood(net, p)[Handled(v)] == FloodToward(net, d, root, p.to, v, p.path + [net.id[p.to]])[Handled(v)]
  {
    var s, path := p.to, p.path + [net.id[p.to]];
    forall x | x in net.id && x != p.from && Linked(net, s, x)
      ensures OnLink(net, Copy(net, s, x, path))
      ensures Flood(net, Copy(net, s, x, path))[Handled(v)] <= if Beyond(net, d, root, s, x, v) then 1 else 0
    {
      AtMostOnceBeyond(net, d, root, Copy(net, s, x, path), v);
    }
    OnlyOneCopy(net, d, root, p, Handled(v));
  }

  // ----- The whole broadcast

  ghost function AnnounceFlood(net: Net, o: Node, given: seq<string>): multiset<Effect>
    requires Wired(net) && o in net.id
  {
    AnnounceLinks(net, o, given);
    Floods(net, Announce(net, o, given))
  }

  lemma AnnounceLinks(net: Net, o: Node, given: seq<string>)
    requires Wired(net) && o in net.id
    ensures forall i | 0 <= i < |Announce(net, o, given)| :: OnLink(net, Announce(net, o, given)[i])
  {
    AnnounceShape(net, o, given);
    forall i | 0 <= i < |Announce(net, o, given)| ensures OnLink(net, Announce(net, o, given)[i]) {
      assert Announce(net, o, given)[i] in Announce(net, o, given);
    }
  }

  lemma OriginChildCopies(net: Net, d: map<Node, nat>, root: Node, o: Node, path: seq<string>, e: Effect)
    requires Tree(net, d, root) && o in net.id && Subject(e) in net.id
    requires forall x | x in net.id && Linked(net, o, x) && !Beyond(net, d, root, o, x, Subject(e)) ::
               Flood(net, Copy(net, o, x, path))[e] == 0
    ensures FloodsDown(net, o, net.children[o], path, {})[e] ==
            if Subject(e) != o && o in Above(net, d, root, Subject(e))
            then FloodToward(net, d, root, o, Subject(e), path)[e]
            else 0
  {
    var v, kids := Subject(e), net.children[o];
    if v != o { TowardFacts(net, d, root, o, v); }
    var x := if v != o && o in Above(net, d, root, v) then Toward(net, d, root, o, v) else o;
    forall i | 0 <= i < |kids| && kids[i] !in {} && kids[i] != x
      ensures Flood(net, Packet(o, kids[i], Down, path))[e] == 0
    {
      BeyondIsToward(net, d, root, o, kids[i], v);
      assert Copy(net, o, kids[i], path) == Packet(o, kids[i], Down, path);
    }
    OnlyOneChild(net, o, kids, path, {}, e, x);
  }

  /** The origin's own copies: only the one toward the subject of `e` can cause `e`. */
  lemma OriginCopies(net: Net, d: map<Node, nat>, root: Node, o: Node, given: seq<string>, e: Effect)
    requires Tree(net, d, root) && o in net.id && Subject(e) in net.id
    requires forall x | x in net.id && Linked(net, o, x) && !Beyond(net, d, root, o, x, Subject(e)) ::
               Flood(net, Copy(net, o, x, given + [net.id[o]]))[e] == 0
    ensures AnnounceFlood(net, o, given)[e] ==
            if Subject(e) == o then 0 else FloodToward(net, d, root, o, Subject(e), given + [net.id[o]])[e]
  {
    var v, path, kids := Subject(e), given + [net.id[o]], net.children[o];
    if v != o { TowardFacts(net, d, root, o, v); }
    OriginChildCopies(net, d, root, o, path, e);
    var up := ToParent(net, o, path);
    if o in net.parent {
      BeyondIsToward(net, d, root, o, net.parent[o], v);
      assert Copy(net, o, net.parent[o], path) == up[0];
      assert up[1..] == [];
    }
    AnnounceLinks(net, o, given);
    ChildLinks(net, o, kids, path, {});
    FloodsConcat(net, ToChildren(o, kids, path, {}), up);
  }

  lemma OriginAtMostOnce(net: Net, d: map<Node, nat>, root: Node, o: Node, given: seq<string>, v: Node)
    requires Tree(net, d, root) && o in net.id && v in net.id
    ensures AnnounceFlood(net, o, given)[Handled(v)] <= if v == o then 0 else 1
    ensures v != o ==> AnnounceFlood(net, o, given)[Handled(v)] ==
                       FloodToward(net, d, root, o, v, given + [net.id[o]])[Handled(v)]
  {
    var path := given + [net.id[o]];
    forall x | x in net.id && Linked(net, o, x)
      ensures OnLink(net, Copy(net, o, x, path))
      ensures Flood(net, Copy(net, o, x, path))[Handled(v)] <= if Beyond(net, d, root, o, x, v) then 1 else 0
    {
      AtMostOnceBeyond(net, d, root, Copy(net, o, x, path), v);
    }
    OriginCopies(net, d, root, o, given, Handled(v));
    if v != o { TowardFacts(net, d, root, o, v); }
  }

  lemma ClearFromOrigin(net: Net, d: map<Node, nat>, root: Node, o: Node, x: Node, given: seq<string>)
    requires Tree(net, d, root) && o in net.id && x in net.id && Linked(net, o, x)
    requires Unambiguous(net, d, root, o, given)
    ensures RegionClear(net, d, root, o, x, given + [net.id[o]])
  {
    forall v | v in net.id && Beyond(net, d, root, o, x, v) ensures ClearAt(net, d, root, x, given + [net.id[o]], v) {
      BeyondIsToward(net, d, root, o, x, v);
      ClearOneOn(net, d, root, o, x, given, v);
    }
  }

  /** A broadcast from `o` gets to `v`: always, unless it looks like an envelope; then only upwards. */
  ghost predicate Reaches(net: Net, d: map<Node, nat>, root: Node, o: Node, v: Node)
    requires Tree(net, d, root) && o in net.id
  {
    net.enveloped ==> v in Above(net, d, root, o)
  }

  /** The effects of one whole broadcast: every other server it gets to handles it once; every server that
      is no ancestor of the origin got it from its parent and sends one copy back, which the parent drops,
      or swallows it if its parent is an ancestor or the origin. */
  ghost predicate ExpectedOverall(net: Net, d: map<Node, nat>, root: Node, o: Node, e: Effect)
    requires Tree(net, d, root) && o in net.id
  {
    match e
    case Handled(v) => v in net.id && v != o && Reaches(net, d, root, o, v)
    case Dropped(v, q) => !net.enveloped && v in net.parent && net.parent[v] == q && v !in Above(net, d, root, o)
    case Swallowed(q, v) =>
      && net.enveloped && v in net.parent && net.parent[v] == q
      && q in Above(net, d, root, o) && v !in Above(net, d, root, o)
  }

  lemma OriginExactly(net: Net, d: map<Node, nat>, root: Node, o: Node, given: seq<string>, e: Effect)
    requires Tree(net, d, root) && o in net.id && Unambiguous(net, d, root, o, given) && Subject(e) in net.id
    ensures AnnounceFlood(net, o, given)[e] == if ExpectedOverall(net, d, root, o, e) then 1 else 0
  {
    var v, path := Subject(e), given + [net.id[o]];
    forall x | x in net.id && Linked(net, o, x)
      ensures OnLink(net, Copy(net, o, x, path))
      ensures Flood(net, Copy(net, o, x, path))[e] == if Expected(net, d, root, o, x, e) then 1 else 0
    {
      ClearFromOrigin(net, d, root, o, x, given);
      ExactlyBeyond(net, d, root, Copy(net, o, x, path), e);
    }
    OriginCopies(net, d, root, o, given, e);
    AboveFacts(net, d, root, o);
    if v != o { TowardFacts(net, d, root, o, v); }
  }

  lemma UnambiguousIfAllHandle(net: Net, d: map<Node, nat>, root: Node, o: Node, given: seq<string>)
    requires Tree(net, d, root) && o in net.id
    requires forall v | v in net.id && v != o :: AnnounceFlood(net, o, given)[Handled(v)] > 0
    ensures Unambiguous(net, d, root, o, given)
  {
    var path := given + [net.id[o]];
    forall x | x in net.id && Linked(net, o, x) ensures RegionClear(net, d, root, o, x, path) {
      forall v | v in net.id && Beyond(net, d, root, o, x, v)
        ensures OnLink(net, Copy(net, o, x, path)) && Flood(net, Copy(net, o, x, path))[Handled(v)] > 0
      {
        BeyondIsToward(net, d, root, o, x, v);
        OriginAtMostOnce(net, d, root, o, given, v);
      }
      ClearIfAllHandle(net, d, root, Copy(net, o, x, path));
    }
    forall v | v in net.id && v != o
      ensures net.id[v] !in given
      ensures forall u | u in net.id && u != v && OnRoute(net, d, root, o, u, v) :: net.id[u] != net.id[v]
    {
      TowardFacts(net, d, root, o, v);
      assert RegionClear(net, d, root, o, Toward(net, d, root, o, v), path);
      forall u | u in net.id && u != v && OnRoute(net, d, root, o, u, v) ensures net.id[u] != net.id[v] {
        RouteSteps(net, d, root, o, u, v);
      }
    }
  }

  lemma StartStamped(net: Net, o: Node, given: seq<string>, shut: set<Link>, v: Node)
    requires Wired(net) && o in net.id
    ensures var c := Start(net, o, given, shut);
            && Fits(net, c) && Stamped(net, c)
            && Total(net, c)[Handled(v)] <= AnnounceFlood(net, o, given)[Handled(v)]
            && (shut == {} ==> c.flight == Announce(net, o, given) && Total(net, c) == AnnounceFlood(net, o, given))
  {
    var c := Start(net, o, given, shut);
    AnnounceShape(net, o, given);
    AnnounceLinks(net, o, given);
    UsableSubset(Announce(net, o, given), shut);
    FloodsOfUsable(net, Announce(net, o, given), shut, Handled(v));
    forall i | 0 <= i < |c.flight| ensures net.id[c.flight[i].from] in c.flight[i].path {
      assert c.flight[i] in c.flight;
    }
  }

  /** On a tree, in every run and whatever fails, reconnects or is ambiguous: in each reachable state
      each server has handled the broadcast at most once, and the origin never. */
  lemma AtMostOnce(net: Net, d: map<Node, nat>, root: Node, o: Node, given: seq<string>, shut: set<Link>,
                   es: seq<Event>, c: Config, v: Node)
    requires Tree(net, d, root) && o in net.id && v in net.id
    requires Run(net, Start(net, o, given, shut), es, c)
    ensures c.log[Handled(v)] <= if v == o then 0 else 1
  {
    StartStamped(net, o, given, shut, v);
    FailuresNeverAddHandlings(net, Start(net, o, given, shut), es, c, v);
    OriginAtMostOnce(net, d, root, o, given, v);
  }

  /** On a tree with every link up, for every order of deliveries: once nothing is in flight, every other
      server has handled the broadcast exactly once IF AND ONLY IF no server id occurs twice on a route
      from the origin, none was already in the client's header, and the broadcast does not look like a
      handshake envelope, or no server gets it from its parent. */
  lemma ExactlyOnceIffUnambiguous(net: Net, d: map<Node, nat>, root: Node, o: Node, given: seq<string>,
                                  es: seq<Event>, c: Config)
    requires Tree(net, d, root) && o in net.id
    requires Run(net, Start(net, o, given, {}), es, c) && Flawless(es) && c.flight == []
    ensures (forall v | v in net.id && v != o :: c.log[Handled(v)] == 1)
            <==> Unambiguous(net, d, root, o, given) && (net.enveloped ==> net.id.Keys == Above(net, d, root, o))
  {
    if forall v | v in net.id && v != o :: c.log[Handled(v)] == 1 {
      RestingLog(net, d, root, o, given, es, c);
      UnambiguousIfAllHandle(net, d, root, o, given);
    }
    if Unambiguous(net, d, root, o, given) {
      AllReached(net, d, root, o, given, es, c);
    }
  }

  lemma ReachesAll(net: Net, d: map<Node, nat>, root: Node, o: Node)
    requires Tree(net, d, root) && o in net.id
    ensures (forall v | v in net.id && v != o :: Reaches(net, d, root, o, v))
            <==> (net.enveloped ==> net.id.Keys == Above(net, d, root, o))
  {
    AboveFacts(net, d, root, o);
    AllIn(net.id.Keys, Above(net, d, root, o), o);
  }

  lemma AllIn(all: set<Node>, above: set<Node>, o: Node)
    requires o in above && above <= all
    ensures (forall v | v in all && v != o :: v in above) <==> all == above
  {
  }

  lemma AllReached(net: Net, d: map<Node, nat>, root: Node, o: Node, given: seq<string>, es: seq<Event>, c: Config)
    requires Tree(net, d, root) && o in net.id && Unambiguous(net, d, root, o, given)
    requires Run(net, Start(net, o, given, {}), es, c) && Flawless(es) && c.flight == []
    ensures (forall v | v in net.id && v != o :: c.log[Handled(v)] == 1)
            <==> (net.enveloped ==> net.id.Keys == Above(net, d, root, o))
  {
    ReachesAll(net, d, root, o);
    forall v | v in net.id && v != o ensures c.log[Handled(v)] == 1 <==> Reaches(net, d, root, o, v) {
      HandledWhereReached(net, d, root, o, given, es, c, v);
    }
  }

  lemma RestingLog(net: Net, d: map<Node, nat>, root: Node, o: Node, given: seq<string>, es: seq<Event>, c: Config)
    requires Tree(net, d, root) && o in net.id
    requires Run(net, Start(net, o, given, {}), es, c) && Flawless(es) && c.flight == []
    ensures c.log == AnnounceFlood(net, o, given) && c.sent == |c.log|
  {
    StartStamped(net, o, given, {}, o);
    OrderDoesNotMatter(net, Start(net, o, given, {}), es, c);
  }

  /** Where no id is ambiguous, at rest exactly the servers a broadcast gets to have handled it, once each. */
  lemma HandledWhereReached(net: Net, d: map<Node, nat>, root: Node, o: Node, given: seq<string>,
                            es: seq<Event>, c: Config, v: Node)
    requires Tree(net, d, root) && o in net.id && v in net.id && Unambiguous(net, d, root, o, given)
    requires Run(net, Start(net, o, given, {}), es, c) && Flawless(es) && c.flight == []
    ensures c.log[Handled(v)] == if v != o && Reaches(net, d, root, o, v) then 1 else 0
  {
    RestingLog(net, d, root, o, given, es, c);
    OriginExactly(net, d, root, o, given, Handled(v));
  }

  /** The configured case: ids are pairwise different and the client sent no path of its own. */
  lemma DistinctIdsSuffice(net: Net, d: map<Node, nat>, root: Node, o: Node)
    requires Tree(net, d, root) && o in net.id
    requires forall u, v | u in net.id && v in net.id && u != v :: net.id[u] != net.id[v]
    ensures Unambiguous(net, d, root, o, [])
  {}

  // ----- The number of transmissions

  lemma {:induction false} HandledCount(vs: set<Node>)
    ensures |set v | v in vs :: Handled(v)| == |vs|
  {
    if vs != {} {
      var v :| v in vs;
      var rest := vs - {v};
      HandledCount(rest);
      assert (set u | u in vs :: Handled(u)) == (set u | u in rest :: Handled(u)) + {Handled(v)};
    }
  }

  lemma {:induction false} DroppedCount(net: Net, vs: set<Node>)
    requires forall v | v in vs :: v in net.parent
    ensures |set v | v in vs :: Dropped(v, net.parent[v])| == |vs|
  {
    if vs != {} {
      var v :| v in vs;
      var rest := vs - {v};
      DroppedCount(net, rest);
      assert (set u | u in vs :: Dropped(u, net.parent[u]))
          == (set u | u in rest :: Dropped(u, net.parent[u])) + {Dropped(v, net.parent[v])};
    }
  }

  /** Every effect of a flood is about servers of the net. */
  lemma {:induction false} FloodSubjects(net: Net, p: Packet, e: Effect)
    requires Wired(net) && OnLink(net, p) && e in Flood(net, p)
    ensures Subject(e) in net.id
    decreases |Unseen(net, p.path)|, 1, 0
  {
    FloodUnfolds(net, p);
    if net.id[p.to] !in p.path {
      RepliesShape(net, p, Skip(p, false));
      UnseenShrinks(net, p.to, p.path);
      if e != Outcome(net, p) {
        FloodsSubjects(net, Replies(net, p, Skip(p, false)), e, |Unseen(net, p.path)|);
      }
    }
  }

  lemma {:induction false} FloodsSubjects(net: Net, ps: seq<Packet>, e: Effect, bound: nat)
    requires Wired(net) && forall i | 0 <= i < |ps| :: OnLink(net, ps[i])
    requires forall q | q in ps :: |Unseen(net, q.path)| < bound
    requires e in Floods(net, ps)
    ensures Subject(e) in net.id
    decreases bound, 0, |ps|
  {
    assert ps[0] in ps;
    if e in Flood(net, ps[0]) { FloodSubjects(net, ps[0], e); } else { FloodsSubjects(net, ps[1..], e, bound); }
  }

  ghost function HandledSet(net: Net, o: Node): set<Effect> { set v | v in net.id && v != o :: Handled(v) }

  ghost function BouncedSet(net: Net, above: set<Node>): set<Effect> {
    set v | v in net.parent && v !in above :: Dropped(v, net.parent[v])
  }

  ghost function SwallowedSet(net: Net, above: set<Node>): set<Effect> {
    set v | v in net.parent && v !in above && net.parent[v] in above :: Swallowed(net.parent[v], v)
  }

  ghost function AncestorSet(o: Node, above: set<Node>): set<Effect> { set v | v in above && v != o :: Handled(v) }

  /** The effects of a broadcast as sets: what is handled, and what is not. */
  ghost function Served(net: Net, o: Node, above: set<Node>): set<Effect> {
    if net.enveloped then AncestorSet(o, above) else HandledSet(net, o)
  }

  ghost function Waste(net: Net, above: set<Node>): set<Effect> {
    if net.enveloped then SwallowedSet(net, above) else BouncedSet(net, above)
  }

  lemma ExpectedIsListed(net: Net, d: map<Node, nat>, root: Node, o: Node, e: Effect)
    requires Tree(net, d, root) && o in net.id && Subject(e) in net.id
    ensures var above := Above(net, d, root, o);
      ExpectedOverall(net, d, root, o, e) <==> e in Served(net, o, above) || e in Waste(net, above)
    ensures e !in Served(net, o, Above(net, d, root, o)) || e !in Waste(net, Above(net, d, root, o))
  {
  }

  lemma ListedSubjects(net: Net, above: set<Node>, o: Node, e: Effect)
    requires Wired(net) && above <= net.id.Keys && (e in Served(net, o, above) || e in Waste(net, above))
    ensures Subject(e) in net.id
  {
  }

  /** The effects of a whole broadcast: one handling for each server it gets to; for the others one dropped
      bounce each, or one swallowed copy for each child at the edge of the ancestors. */
  lemma BroadcastLog(net: Net, d: map<Node, nat>, root: Node, o: Node, given: seq<string>)
    requires Tree(net, d, root) && o in net.id && Unambiguous(net, d, root, o, given)
    ensures var above := Above(net, d, root, o);
            AnnounceFlood(net, o, given) == multiset(Served(net, o, above)) + multiset(Waste(net, above))
  {
    var above := Above(net, d, root, o);
    var all := multiset(Served(net, o, above)) + multiset(Waste(net, above));
    AboveFacts(net, d, root, o);
    forall e: Effect ensures AnnounceFlood(net, o, given)[e] == all[e] {
      if Subject(e) in net.id {
        OriginExactly(net, d, root, o, given, e);
        ExpectedIsListed(net, d, root, o, e);
      } else {
        if e in AnnounceFlood(net, o, given) { AnnounceSubjects(net, o, given, e); }
        if e in all { ListedSubjects(net, above, o, e); }
      }
    }
  }

  lemma AnnounceSubjects(net: Net, o: Node, given: seq<string>, e: Effect)
    requires Wired(net) && o in net.id && e in AnnounceFlood(net, o, given)
    ensures Subject(e) in net.id
  {
    AnnounceLinks(net, o, given);
    AnnounceShape(net, o, given);
    FloodsSubjects(net, Announce(net, o, given), e, |Unseen(net, given + [net.id[o]])| + 1);
  }

  lemma HandledSetSize(net: Net, o: Node)
    requires o in net.id
    ensures |HandledSet(net, o)| == |net.id| - 1
  {
    var others := net.id.Keys - {o};
    HandledCount(others);
    assert HandledSet(net, o) == set v | v in others :: Handled(v);
    assert others + {o} == net.id.Keys;
  }

  lemma BouncedSetSize(net: Net, above: set<Node>)
    requires above <= net.id.Keys && net.id.Keys - above <= net.parent.Keys <= net.id.Keys
    ensures |BouncedSet(net, above)| == |net.id| - |above|
  {
    var low := net.id.Keys - above;
    DroppedCount(net, low);
    assert BouncedSet(net, above) == set v | v in low :: Dropped(v, net.parent[v]);
    assert low + above == net.id.Keys;
  }

  lemma AncestorSetSize(o: Node, above: set<Node>)
    requires o in above
    ensures |AncestorSet(o, above)| == |above| - 1
  {
    var others := above - {o};
    HandledCount(others);
    assert AncestorSet(o, above) == set v | v in others :: Handled(v);
    assert others + {o} == above;
  }

  /** The servers whose parent is one of `above`. */
  ghost function ChildrenOf(net: Net, above: set<Node>): set<Node> {
    set v | v in net.parent && net.parent[v] in above
  }

  lemma {:induction false} SwallowedCount(net: Net, vs: set<Node>)
    requires forall v | v in vs :: v in net.parent
    ensures |set v | v in vs :: Swallowed(net.parent[v], v)| == |vs|
  {
    if vs != {} {
      var v :| v in vs;
      var rest := vs - {v};
      SwallowedCount(net, rest);
      assert (set u | u in vs :: Swallowed(net.parent[u], u))
          == (set u | u in rest :: Swallowed(net.parent[u], u)) + {Swallowed(net.parent[v], v)};
    }
  }

  lemma DisjointSize(a: set<Node>, b: set<Node>)
    requires a !! b
    ensures |a + b| == |a| + |b|
  {
  }

  lemma SwallowedLow(net: Net, above: set<Node>)
    ensures |SwallowedSet(net, above)| == |ChildrenOf(net, above) - above|
  {
    var low := ChildrenOf(net, above) - above;
    SwallowedCount(net, low);
    assert SwallowedSet(net, above) == set v | v in low :: Swallowed(net.parent[v], v);
  }

  /** Of the children of the ancestors all but the ancestors themselves are at the edge. */
  lemma SwallowedSetSize(net: Net, root: Node, above: set<Node>)
    requires root in above && root !in net.parent
    requires forall v | v in above && v != root :: v in net.parent && net.parent[v] in above
    ensures |SwallowedSet(net, above)| + |above| - 1 == |ChildrenOf(net, above)|
  {
    SwallowedLow(net, above);
    SplitSize(ChildrenOf(net, above), root, above);
  }

  lemma SplitSize(kids: set<Node>, root: Node, above: set<Node>)
    requires root in above && root !in kids && above - {root} <= kids
    ensures |kids - above| + |above| - 1 == |kids|
  {
    DisjointSize(kids - above, above - {root});
    DisjointSize(above - {root}, {root});
    assert above - {root} + {root} == above;
    assert kids - above + (above - {root}) == kids;
  }

  /** On a tree of n servers with every link up a broadcast costs exactly 2(n-1) - depth(origin)
      transmissions: one handling per other server, and one dropped bounce for each server that got it from
      its parent.  If it looks like a handshake envelope it costs one for each child of the origin and of
      its ancestors. */
  lemma TransmissionCount(
      net: Net, d: map<Node, nat>, root: Node, o: Node, given: seq<string>, es: seq<Event>, c: Config)
    requires Tree(net, d, root) && o in net.id && Unambiguous(net, d, root, o, given)
    requires Run(net, Start(net, o, given, {}), es, c) && Flawless(es) && c.flight == []
    ensures var above := Above(net, d, root, o);
      && c.sent == (if net.enveloped then |ChildrenOf(net, above)| else 2 * (|net.id| - 1) - d[o])
      && c.log == multiset(Served(net, o, above)) + multiset(Waste(net, above))
  {
    var above := Above(net, d, root, o);
    RestingLog(net, d, root, o, given, es, c);
    BroadcastLog(net, d, root, o, given);
    RootAbove(net, d, root, o);
    AboveFacts(net, d, root, o);
    if net.enveloped {
      AncestorSetSize(o, above);
      ParentsAbove(net, d, root, o);
      SwallowedSetSize(net, root, above);
    } else {
      HandledSetSize(net, o);
      BouncedSetSize(net, above);
    }
  }

  lemma ParentsAbove(net: Net, d: map<Node, nat>, root: Node, o: Node)
    requires Tree(net, d, root) && o in net.id
    ensures forall v | v in Above(net, d, root, o) && v != root ::
              v in net.parent && net.parent[v] in Above(net, d, root, o)
  {
    forall v | v in Above(net, d, root, o) && v != root
      ensures v in net.parent && net.parent[v] in Above(net, d, root, o)
    {
      AboveTransitive(net, d, root, v, o);
      AboveFacts(net, d, root, net.parent[v]);
    }
  }

  /** Quiescence is always reachable: from any state the packets in flight can all be received. */
  lemma {:induction false} CanComeToRest(net: Net, c: Config) returns (es: seq<Event>, c': Config)
    requires Wired(net) && Fits(net, c)
    ensures Run(net, c, es, c') && Flawless(es) && c'.flight == []
    decreases Work(net, c.flight)
  {
    if c.flight == [] {
      es, c' := [], c;
    } else {
      var e := Receive(0, {}, false);
      StepFits(net, c, e);
      StepLowersWork(net, c, e);
      es, c' := CanComeToRest(net, Step(net, c, e));
      es := [e] + es;
    }
  }

  /** A smallest mesh that shows both channels: a root with two children. */
  function Triple(enveloped: bool): Net {
    Net(map[0 := "root", 1 := "left", 2 := "right"], map[1 := 0, 2 := 0], map[0 := [1, 2], 1 := [], 2 := []], enveloped)
  }

  function TripleDepth(): map<Node, nat> { map[0 := 0, 1 := 1, 2 := 1] }

  lemma TripleIsTree(enveloped: bool)
    ensures Tree(Triple(enveloped), TripleDepth(), 0)
  {
    var net := Triple(enveloped);
    assert net.children[0] == [1, 2] && net.children[1] == [] && net.children[2] == [];
    assert net.children[0][0] == 1 && net.children[0][1] == 2;
    assert Wired(net);
  }

  lemma TripleRests(net: Net, o: Node) returns (es: seq<Event>, c: Config)
    requires Wired(net) && o in net.id
    ensures Run(net, Start(net, o, [], {}), es, c) && Flawless(es) && c.flight == []
  {
    StartTrails(net, o, [], {});
    es, c := CanComeToRest(net, Start(net, o, [], {}));
  }

  lemma AboveTop(net: Net, d: map<Node, nat>, root: Node, v: Node)
    requires Tree(net, d, root) && v in net.parent && net.parent[v] == root
    ensures Above(net, d, root, root) == {root} && Above(net, d, root, v) == {root, v}
  {
  }

  lemma TripleIds(enveloped: bool)
    ensures var net := Triple(enveloped); forall u, v | u in net.id && v in net.id && u != v :: net.id[u] != net.id[v]
  {
    assert |"root"| == 4 && "root"[0] == 'r' && "left"[0] == 'l' && |"right"| == 5 && |"left"| == 4;
  }

  lemma TripleFacts(enveloped: bool)
    requires Tree(Triple(enveloped), TripleDepth(), 0)
    ensures Above(Triple(enveloped), TripleDepth(), 0, 0) == {0}
    ensures Above(Triple(enveloped), TripleDepth(), 0, 1) == {0, 1}
    ensures Unambiguous(Triple(enveloped), TripleDepth(), 0, 0, [])
    ensures Unambiguous(Triple(enveloped), TripleDepth(), 0, 1, [])
  {
    var net, d := Triple(enveloped), TripleDepth();
    AboveTop(net, d, 0, 1);
    TripleIds(enveloped);
    DistinctIdsSuffice(net, d, 0, 0);
    DistinctIdsSuffice(net, d, 0, 1);
  }

  /** A broadcast of the left child there ends handled once by the root and once by the right child, whose
      copy back to the root is the third and last transmission. */
  lemma TripleBroadcast() returns (es: seq<Event>, c: Config)
    ensures var net := Triple(false);
      && Wired(net) && Run(net, Start(net, 1, [], {}), es, c) && Flawless(es) && c.flight == []
      && c.sent == 3 && c.log == multiset(HandledSet(net, 1)) + multiset(BouncedSet(net, {0, 1}))
      && HandledSet(net, 1) == {Handled(0), Handled(2)} && BouncedSet(net, {0, 1}) == {Dropped(2, 0)}
  {
    TripleIsTree(false);
    TripleFacts(false);
    es, c := TripleRests(Triple(false), 1);
    TripleSets(false);
    LeftCount(Triple(false), TripleDepth(), es, c);
  }

  lemma LeftCount(net: Net, d: map<Node, nat>, es: seq<Event>, c: Config)
    requires Tree(net, d, 0) && 1 in net.id && |net.id| == 3 && d[1] == 1 && !net.enveloped
    requires Unambiguous(net, d, 0, 1, []) && Above(net, d, 0, 1) == {0, 1}
    requires Run(net, Start(net, 1, [], {}), es, c) && Flawless(es) && c.flight == []
    ensures c.sent == 3 && c.log == multiset(HandledSet(net, 1)) + multiset(BouncedSet(net, {0, 1}))
  {
    CountIn(net, d, 0, 1, es, c, {0, 1});
  }

  /** The same broadcast sent by the root, once it looks like an envelope: two transmissions, both swallowed,
      and no server handles it, although no id is ambiguous. */
  lemma TripleEnvelope() returns (es: seq<Event>, c: Config)
    ensures var net := Triple(true);
      && Tree(net, TripleDepth(), 0) && Unambiguous(net, TripleDepth(), 0, 0, [])
      && Run(net, Start(net, 0, [], {}), es, c) && Flawless(es) && c.flight == []
      && c.sent == 2 && c.log == multiset(SwallowedSet(net, {0}))
      && SwallowedSet(net, {0}) == {Swallowed(0, 1), Swallowed(0, 2)}
  {
    TripleIsTree(true);
    TripleFacts(true);
    es, c := TripleRests(Triple(true), 0);
    TripleSets(true);
    CountIn(Triple(true), TripleDepth(), 0, 0, es, c, {0});
  }

  lemma TripleSets(enveloped: bool)
    ensures var net := Triple(enveloped);
      && |net.id| == 3 && ChildrenOf(net, {0}) == {1, 2}
      && HandledSet(net, 1) == {Handled(0), Handled(2)} && BouncedSet(net, {0, 1}) == {Dropped(2, 0)}
      && AncestorSet(0, {0}) == {} && SwallowedSet(net, {0}) == {Swallowed(0, 1), Swallowed(0, 2)}
  {
    var net := Triple(enveloped);
    var parent := net.parent;
    assert net.id.Keys == {0, 1, 2};
    assert forall v :: v in net.id <==> v == 0 || v == 1 || v == 2;
    assert forall v :: v in parent <==> v == 1 || v == 2;
    assert Dropped(2, parent[2]) in BouncedSet(net, {0, 1});
    assert Swallowed(parent[1], 1) in SwallowedSet(net, {0}) && Swallowed(parent[2], 2) in SwallowedSet(net, {0});
  }

  lemma CountIn(net: Net, d: map<Node, nat>, root: Node, o: Node, es: seq<Event>, c: Config, above: set<Node>)
    requires Tree(net, d, root) && o in net.id && Unambiguous(net, d, root, o, [])
    requires Run(net, Start(net, o, [], {}), es, c) && Flawless(es) && c.flight == []
    requires above == Above(net, d, root, o)
    ensures c.sent == (if net.enveloped then |ChildrenOf(net, above)| else 2 * (|net.id| - 1) - d[o])
    ensures c.log == multiset(Served(net, o, above)) + multiset(Waste(net, above))
  {
    TransmissionCount(net, d, root, o, [], es, c);
  }
}
