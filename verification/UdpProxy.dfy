/** The registry of UDP proxies: two-socket readiness, recreation on the same ports, the admin block
    flag, and the reaper that recreates, removes and recovers. */
module UdpProxy {
  import opened Frames

  datatype Bind = Pending | Listening | Failed

  /** `port` is the requested port until the bind succeeds and the bound one from then on. */
  datatype Sock = Sock(bind: Bind, port: nat, access: int, caller: bool)

  /** Whose callback waits for the two sockets of a proxy. */
  datatype Cause = Create | Refresh | Health | Resume

  datatype Proxy = Proxy(s1: Sock, s2: Sock, count: nat, allReady: bool, blocked: bool, cause: Cause)

  /** `id` is the identity of the entry, `generation` counts its recreations.  `created` records that the
      first proxy's callback has run, `reported` the ports of the latest successful bind. */
  datatype Entry = Entry(
    id: nat, access: int, port1: nat, port2: nat, blocked: bool, proxy: Proxy,
    generation: nat, created: bool, reported: Option<(nat, nat)>)

  datatype Forwarded = Forwarded(entry: nat, toFirst: bool)

  /** What a unit is told: whether its proxy is enabled, and on which ports; for which entry is history. */
  datatype Report = Report(entry: nat, name: string, enabled: bool, port1: nat, port2: nat)

  datatype State = State(
    reg: map<string, Entry>, next: nat, reaper: bool, lastTick: int, forwarded: seq<Forwarded>, reports: seq<Report>)

  const Initial := State(map[], 0, false, 0, [], [])

  const IDLE_TIMEOUT := 5 * 60 * 1000
  const REAPER_INTERVAL := 60 * 1000

  datatype Outcome = Bound(port: nat) | InUse | OtherError

  datatype Event =
    | Get(name: string, port1: nat, port2: nat, now: int)
    | CloseProxy(name: string)
    | BindDone(name: string, first: bool, outcome: Outcome, now: int)
    | Datagram(name: string, onFirst: bool, now: int)
    | SetBlocked(name: string, blocked: bool)
    | Tick(now: int, connected: set<string>)

  function SockOf(p: Proxy, first: bool): Sock { if first then p.s1 else p.s2 }

  /** A bind of a given port is on that port, and of port 0 on some port. */
  predicate BindsTo(asked: nat, port: nat) { port > 0 && (asked != 0 ==> port == asked) }

  /** Bind completions and datagrams come from the sockets of a registered proxy: closed ones are silent. */
  predicate Enabled(st: State, e: Event) {
    match e
    case Get(_, _, _, now) => now > 0
    case CloseProxy(_) => true
    case BindDone(n, first, outcome, now) =>
      && n in st.reg && SockOf(st.reg[n].proxy, first).bind == Pending && now > 0
      && (outcome.Bound? ==> BindsTo(SockOf(st.reg[n].proxy, first).port, outcome.port))
    case Datagram(n, onFirst, now) => n in st.reg && SockOf(st.reg[n].proxy, onFirst).bind == Listening && now > 0
    case SetBlocked(_, _) => true
    case Tick(now, _) => st.reaper && now > 0
  }

  // ----- Proxies and entries

  function NewProxy(port1: nat, port2: nat, blocked: bool, cause: Cause): Proxy {
    Proxy(Sock(Pending, port1, 0, false), Sock(Pending, port2, 0, false), 0, true, blocked, cause)
  }

  predicate Ready(p: Proxy) { p.s1.bind == Listening && p.s2.bind == Listening }

  function Or(a: nat, b: nat): nat { if a != 0 then a else b }

  /** recreateProxy: fresh sockets on the sticky ports, blocked as the entry is. */
  function Recreated(e: Entry, cause: Cause, now: int): Entry {
    e.(proxy := NewProxy(Or(e.port1, e.proxy.s1.port), Or(e.port2, e.proxy.s2.port), e.blocked, cause),
       access := now, generation := e.generation + 1)
  }

  function BindSock(s: Sock, o: Outcome): Sock {
    match o
    case Bound(port) => s.(bind := Listening, port := port)
    case InUse => s.(bind := Failed)
    case OtherError => s.(bind := Failed)
  }

  /** The listening and error handlers of a socket with udp_proxy._onReady: an error other than a port in
      use is only logged, and then the proxy's callback never runs. */
  function BindOutcome(p: Proxy, first: bool, o: Outcome): Proxy {
    var p' := if first then p.(s1 := BindSock(p.s1, o)) else p.(s2 := BindSock(p.s2, o));
    if o.OtherError? then p' else p'.(count := p.count + 1, allReady := p.allReady && o.Bound?)
  }

  /** The callback of the proxy, run when both sockets have answered: what it notes in the entry. */
  function Answered(e: Entry): Entry {
    var (ok, p1, p2) := (e.proxy.allReady, e.proxy.s1.port, e.proxy.s2.port);
    var create := e.proxy.cause == Create;
    e.(port1 := if ok || create then p1 else e.port1, port2 := if ok || create then p2 else e.port2,
       reported := if ok then Some((p1, p2)) else e.reported, created := e.created || create)
  }

  /** What it tells the unit. */
  function Told(n: string, e: Entry): seq<Report> {
    match e.proxy.cause
    case Create => [Report(e.id, n, e.proxy.allReady, e.proxy.s1.port, e.proxy.s2.port)]
    case Refresh => [Report(e.id, n, e.proxy.allReady, e.proxy.s1.port, e.proxy.s2.port)]
    case Health => if e.proxy.allReady then [] else [Report(e.id, n, false, 0, 0)]
    case Resume => []
  }

  function WithReaper(st: State, now: int): State { if st.reaper then st else st.(reaper := true, lastTick := now) }

  function CalledBack(st: State, n: string, now: int): State
    requires n in st.reg
  {
    var e := st.reg[n];
    var st1 := st.(reg := st.reg[n := Answered(e)], reports := st.reports + Told(n, e));
    if e.proxy.cause == Create then WithReaper(st1, now) else st1
  }

  function AfterBind(st: State, n: string, first: bool, o: Outcome, now: int): State
    requires n in st.reg
  {
    var e := st.reg[n].(proxy := BindOutcome(st.reg[n].proxy, first, o));
    var st1 := st.(reg := st.reg[n := e]);
    if o.OtherError? || e.proxy.count != 2 then st1 else CalledBack(st1, n, now)
  }

  function Created(st: State, n: string, port1: nat, port2: nat, now: int): State {
    var e := Entry(st.next, now, port1, port2, false, NewProxy(port1, port2, false, Create), 0, false, None);
    st.(reg := st.reg[n := e], next := st.next + 1)
  }

  /** The ports asked for are those of the proxy, or any. */
  predicate Asks(p: Proxy, port1: nat, port2: nat) {
    (port1 == 0 || p.s1.port == port1) && (port2 == 0 || p.s2.port == port2)
  }

  /** getUDPSocket */
  function AfterGet(st: State, n: string, port1: nat, port2: nat, now: int): State {
    if n !in st.reg then Created(st, n, port1, port2, now)
    else
      var e := st.reg[n];
      if Asks(e.proxy, port1, port2) then
        if !Ready(e.proxy) then st.(reg := st.reg[n := Recreated(e, Refresh, now)])
        else st.(reg := st.reg[n := e.(access := now)],
                 reports := st.reports + [Report(e.id, n, true, e.proxy.s1.port, e.proxy.s2.port)])
      else Created(st.(reg := st.reg - {n}), n, port1, port2, now)
  }

  function Noted(e: Entry, onFirst: bool, now: int): Entry {
    if onFirst then e.(proxy := e.proxy.(s1 := e.proxy.s1.(access := now, caller := true)))
    else e.(proxy := e.proxy.(s2 := e.proxy.s2.(access := now, caller := true)))
  }

  predicate Passes(p: Proxy, onFirst: bool) { !p.blocked && SockOf(p, !onFirst).caller }

  /** A datagram is noted, and forwarded unless the proxy is blocked or the other side is unknown yet. */
  function AfterDatagram(st: State, n: string, onFirst: bool, now: int): State
    requires n in st.reg
  {
    var e := Noted(st.reg[n], onFirst, now);
    var st1 := st.(reg := st.reg[n := e]);
    if Passes(e.proxy, onFirst) then st1.(forwarded := st.forwarded + [Forwarded(e.id, !onFirst)]) else st1
  }

  /** fn_setProxyBlocked */
  function AfterBlock(st: State, n: string, blocked: bool): State {
    if n !in st.reg then st
    else st.(reg := st.reg[n := st.reg[n].(blocked := blocked, proxy := st.reg[n].proxy.(blocked := blocked))])
  }

  // ----- The reaper

  function Max(a: int, b: int): int { if a < b then b else a }

  function LastAccess(e: Entry): int { Max(e.access, Max(e.proxy.s1.access, e.proxy.s2.access)) }

  /** Ready, idle for more than five minutes, and its unit is not connected. */
  predicate Reapable(n: string, e: Entry, now: int, connected: set<string>) {
    Ready(e.proxy) && now - LastAccess(e) > IDLE_TIMEOUT && n !in connected
  }

  /** The timer was late by so much that the machine must have slept. */
  predicate Resumed(lastTick: int, now: int) { lastTick > 0 && now - lastTick > REAPER_INTERVAL * 3 }

  function Recovered(reg: map<string, Entry>, now: int): map<string, Entry> {
    map n | n in reg :: Recreated(reg[n], Resume, now)
  }

  function Reaped(reg: map<string, Entry>, now: int, connected: set<string>): map<string, Entry> {
    map n | n in reg && !Reapable(n, reg[n], now, connected) ::
      if Ready(reg[n].proxy) then reg[n] else Recreated(reg[n], Health, now)
  }

  /** The recovery after a sleep, then the sweep. */
  function Ticked(reg: map<string, Entry>, lastTick: int, now: int, connected: set<string>): map<string, Entry> {
    Reaped(if Resumed(lastTick, now) then Recovered(reg, now) else reg, now, connected)
  }

  /** With nothing left the reaper stops. */
  function Ended(st: State, reg: map<string, Entry>, now: int): State {
    if reg.Keys == {} then st.(reg := reg, reaper := false, lastTick := 0) else st.(reg := reg, lastTick := now)
  }

  function AfterTick(st: State, now: int, connected: set<string>): State {
    Ended(st, Ticked(st.reg, st.lastTick, now, connected), now)
  }

  function Step(st: State, e: Event): State
    requires Enabled(st, e)
  {
    match e
    case Get(n, port1, port2, now) => AfterGet(st, n, port1, port2, now)
    case CloseProxy(n) => st.(reg := st.reg - {n})
    case BindDone(n, first, outcome, now) => AfterBind(st, n, first, outcome, now)
    case Datagram(n, onFirst, now) => AfterDatagram(st, n, onFirst, now)
    case SetBlocked(n, blocked) => AfterBlock(st, n, blocked)
    case Tick(now, connected) => AfterTick(st, now, connected)
  }

  ghost predicate Run(st: State, es: seq<Event>, st': State)
    decreases |es|
  {
    if es == [] then st == st' else Enabled(st, es[0]) && Run(Step(st, es[0]), es[1..], st')
  }

  // ----- The invariant

  function Count(p: Proxy, b: Bind): nat { (if p.s1.bind == b then 1 else 0) + (if p.s2.bind == b then 1 else 0) }

  /** Every successful bind is counted, every counted answer that was not a success is a failed socket. */
  predicate CountsAnswers(p: Proxy) {
    && Count(p, Listening) <= p.count <= Count(p, Listening) + Count(p, Failed)
    && (p.allReady ==> p.count == Count(p, Listening))
    && (!p.allReady ==> Count(p, Failed) > 0)
  }

  /** The proxy is blocked as its entry is; both sockets listening means a callback has run with success;
      and the ports of a successful bind are those the entry and its current sockets keep. */
  predicate Consistent(e: Entry) {
    && e.proxy.blocked == e.blocked
    && CountsAnswers(e.proxy)
    && (e.proxy.s1.bind == Listening ==> e.proxy.s1.port > 0) && (e.proxy.s2.bind == Listening ==> e.proxy.s2.port > 0)
    && (Ready(e.proxy) ==> e.reported.Some?)
    && (e.proxy.cause == Create && e.proxy.count < 2 ==> e.reported == None)
    && (e.reported.Some? ==> Sticks(e, e.reported.value))
  }

  predicate Sticks(e: Entry, ports: (nat, nat)) {
    && ports.0 > 0 && ports.1 > 0
    && (e.port1, e.port2) == ports && (e.proxy.s1.port, e.proxy.s2.port) == ports
  }

  predicate Identified(reg: map<string, Entry>, next: nat) {
    && (forall n | n in reg :: reg[n].id < next)
    && (forall m, n | m in reg && n in reg && m != n :: reg[m].id != reg[n].id)
  }

  /** A successful report is of an entry made before, and if that entry is still there, of its ports. */
  predicate ReportsHold(st: State) {
    forall r | r in st.reports && r.enabled ::
      r.entry < st.next && forall n | n in st.reg && st.reg[n].id == r.entry ::
          st.reg[n].reported == Some((r.port1, r.port2))
  }

  predicate ReportsAgree(reports: seq<Report>) {
    forall r, q | r in reports && q in reports && r.enabled && q.enabled && r.entry == q.entry ::
      (r.port1, r.port2) == (q.port1, q.port2)
  }

  ghost predicate Inv(st: State) {
    && (forall n | n in st.reg :: Consistent(st.reg[n]))
    && Identified(st.reg, st.next)
    && ReportsHold(st) && ReportsAgree(st.reports)
    && (forall n | n in st.reg && st.reg[n].created :: st.reaper)
  }

  lemma RecreatedConsistent(e: Entry, cause: Cause, now: int)
    requires Consistent(e) && cause != Create
    ensures Consistent(Recreated(e, cause, now))
  {
  }

  predicate Evolves(e: Entry, e': Entry) {
    Consistent(e') && e'.id == e.id && (e.reported.Some? ==> e'.reported == e.reported)
  }

  /** What a bind completion does to the entry: it stays consistent through the callback as well. */
  lemma BindEvolves(e: Entry, first: bool, o: Outcome)
    requires Consistent(e) && SockOf(e.proxy, first).bind == Pending
    requires o.Bound? ==> BindsTo(SockOf(e.proxy, first).port, o.port)
    ensures var e1 := e.(proxy := BindOutcome(e.proxy, first, o));
      && (o.OtherError? || e1.proxy.count != 2 ==> Evolves(e, e1))
      && (!o.OtherError? && e1.proxy.count == 2 ==> Evolves(e, Answered(e1)) && (e1.proxy.allReady ==> Ready(e1.proxy)))
  {
    assert CountsAnswers(BindOutcome(e.proxy, first, o));
  }

  /** A step that changes one entry, and tells its unit at most the ports that entry then has. */
  lemma UpdateKeepsInv(st: State, st': State, n: string, told: seq<Report>)
    requires Inv(st) && n in st.reg && n in st'.reg && st'.reg == st.reg[n := st'.reg[n]] && st'.next == st.next
    requires Evolves(st.reg[n], st'.reg[n])
    requires (st.reaper ==> st'.reaper) && (st'.reg[n].created ==> st'.reaper)
    requires st'.reports == st.reports + told && |told| <= 1
    requires forall r | r in told && r.enabled ::
        r.entry == st.reg[n].id && st'.reg[n].reported == Some((r.port1, r.port2))
    ensures Inv(st')
  {
    forall m | m in st'.reg ensures Consistent(st'.reg[m]) && st'.reg[m].id == st.reg[m].id {}
    forall r, q | r in st'.reports && q in st'.reports && r.enabled && q.enabled && r.entry == q.entry
      ensures (r.port1, r.port2) == (q.port1, q.port2)
    {
      forall x | x in {r, q} && x !in told ensures x in st.reports {}
    }
  }

  lemma CreateKeepsInv(st: State, n: string, port1: nat, port2: nat, now: int)
    requires Inv(st)
    ensures Inv(Created(st, n, port1, port2, now))
  {
  }

  lemma RemovalKeepsInv(st: State, st': State)
    requires Inv(st) && st' == st.(reg := st'.reg)
    requires forall n | n in st'.reg :: n in st.reg && st'.reg[n] == st.reg[n]
    ensures Inv(st')
  {
  }

  /** A bind completion in one piece: the entry, what is told, and the reaper. */
  lemma BindShape(st: State, n: string, first: bool, o: Outcome, now: int)
    requires n in st.reg
    ensures var st', e := AfterBind(st, n, first, o, now), st.reg[n].(proxy := BindOutcome(st.reg[n].proxy, first, o));
      var due := !o.OtherError? && e.proxy.count == 2;
      && st'.reg == st.reg[n := if due then Answered(e) else e] && st'.next == st.next
      && st'.reports == st.reports + (if due then Told(n, e) else [])
      && st'.reaper == (st.reaper || (due && e.proxy.cause == Create))
  {
  }

  lemma TellsPorts(n: string, e: Entry)
    ensures |Told(n, e)| <= 1
    ensures forall r | r in Told(n, e) && r.enabled ::
              r.entry == e.id && Answered(e).reported == Some((r.port1, r.port2))
  {
  }

  lemma BindKeepsInv(st: State, n: string, first: bool, o: Outcome, now: int)
    requires Inv(st) && Enabled(st, BindDone(n, first, o, now))
    ensures Inv(AfterBind(st, n, first, o, now))
  {
    BindEvolves(st.reg[n], first, o);
    BindShape(st, n, first, o, now);
    var e := st.reg[n].(proxy := BindOutcome(st.reg[n].proxy, first, o));
    TellsPorts(n, e);
    UpdateKeepsInv(st, AfterBind(st, n, first, o, now), n, if o.OtherError?
        || e.proxy.count != 2 then [] else Told(n, e));
  }

  lemma GetKeepsInv(st: State, n: string, port1: nat, port2: nat, now: int)
    requires Inv(st)
    ensures Inv(AfterGet(st, n, port1, port2, now))
  {
    var st' := AfterGet(st, n, port1, port2, now);
    if n !in st.reg {
      CreateKeepsInv(st, n, port1, port2, now);
    } else if Asks(st.reg[n].proxy, port1, port2) {
      RecreatedConsistent(st.reg[n], Refresh, now);
      UpdateKeepsInv(st, st', n, st'.reports[|st.reports|..]);
    } else {
      RemovalKeepsInv(st, st.(reg := st.reg - {n}));
      CreateKeepsInv(st.(reg := st.reg - {n}), n, port1, port2, now);
    }
  }

  /** A step that changes every entry on its own, or drops it. */
  lemma SweepKeepsInv(st: State, st': State)
    requires Inv(st) && st'.next == st.next && st'.reports == st.reports
    requires forall n | n in st'.reg ::
      n in st.reg && Evolves(st.reg[n], st'.reg[n]) && st'.reg[n].reported == st.reg[n].reported
    requires forall n | n in st'.reg && st'.reg[n].created :: st'.reaper
    ensures Inv(st')
  {
  }

  lemma TickKeepsInv(st: State, now: int, connected: set<string>)
    requires Inv(st) && st.reaper
    ensures Inv(AfterTick(st, now, connected))
  {
    var reg := if Resumed(st.lastTick, now) then Recovered(st.reg, now) else st.reg;
    var st1 := st.(reg := reg);
    forall n | n in reg ensures Evolves(st.reg[n], reg[n]) && reg[n].reported == st.reg[n].reported {
      RecreatedConsistent(st.reg[n], Resume, now);
    }
    SweepKeepsInv(st, st1);
    var st' := AfterTick(st, now, connected);
    forall n | n in st'.reg ensures n in reg && Evolves(reg[n], st'.reg[n]) && st'.reg[n].reported == reg[n].reported {
      RecreatedConsistent(reg[n], Health, now);
    }
    SweepKeepsInv(st1, st');
  }

  lemma DatagramKeepsInv(st: State, n: string, onFirst: bool, now: int)
    requires Inv(st) && n in st.reg
    ensures Inv(AfterDatagram(st, n, onFirst, now))
  {
    UpdateKeepsInv(st, AfterDatagram(st, n, onFirst, now), n, []);
  }

  lemma BlockKeepsInv(st: State, n: string, blocked: bool)
    requires Inv(st)
    ensures Inv(AfterBlock(st, n, blocked))
  {
    if n in st.reg { UpdateKeepsInv(st, AfterBlock(st, n, blocked), n, []); }
  }

  lemma StepKeepsInv(st: State, e: Event)
    requires Inv(st) && Enabled(st, e)
    ensures Inv(Step(st, e))
  {
    match e
    case Get(n, port1, port2, now) => GetKeepsInv(st, n, port1, port2, now);
    case CloseProxy(n) => RemovalKeepsInv(st, Step(st, e));
    case BindDone(n, first, o, now) => BindKeepsInv(st, n, first, o, now);
    case Datagram(n, onFirst, now) => DatagramKeepsInv(st, n, onFirst, now);
    case SetBlocked(n, blocked) => BlockKeepsInv(st, n, blocked);
    case Tick(now, connected) => TickKeepsInv(st, now, connected);
  }

  lemma {:induction false} RunKeepsInv(st: State, es: seq<Event>, st': State)
    requires Inv(st) && Run(st, es, st')
    ensures Inv(st')
    decreases |es|
  {
    if es != [] {
      StepKeepsInv(st, es[0]);
      RunKeepsInv(Step(st, es[0]), es[1..], st');
    }
  }

  lemma ReachableInv(es: seq<Event>, st: State)
    requires Run(Initial, es, st)
    ensures Inv(st)
  {
    RunKeepsInv(Initial, es, st);
  }

  // ----- What one event does, said of the sockets

  predicate BothListen(e: Entry) { e.proxy.s1.bind == Listening && e.proxy.s2.bind == Listening }

  /** `e'` is `e` with its sockets made anew, `times` times: unused and unbound ones on the entry's ports, or
      where it has none on those of the sockets before, blocked as the entry is; ports once reported stay. */
  predicate Remade(e: Entry, e': Entry, times: nat, cause: Cause, now: int) {
    && e'.id == e.id && e'.generation == e.generation + times && e'.access == now && e'.blocked == e.blocked
    && e'.port1 == e.port1 && e'.port2 == e.port2 && e'.reported == e.reported && e'.created == e.created
    && e'.proxy.s1 == Sock(Pending, if e.port1 != 0 then e.port1 else e.proxy.s1.port, 0, false)
    && e'.proxy.s2 == Sock(Pending, if e.port2 != 0 then e.port2 else e.proxy.s2.port, 0, false)
    && e'.proxy.cause == cause && e'.proxy.blocked == e.blocked && e'.proxy.count == 0 && e'.proxy.allReady
    && (e.reported.Some? ==> Sticks(e', e.reported.value))
  }

  /** A request in every reachable state.  Without an entry, or when a port other than 0 is asked for that is
      not that of its socket, there is a new entry on the ports asked for.  Otherwise the entry stays: when both
      sockets listen, they do so on, and the unit is told their ports at once; when not, they are made anew.
      Whatever is told is on the ports asked for, and no other entry changes. */
  lemma GetIsExact(es: seq<Event>, st: State, n: string, port1: nat, port2: nat, now: int)
    requires Run(Initial, es, st) && now > 0
    ensures var st' := Step(st, Get(n, port1, port2, now));
      var stays := && n in st.reg
                   && (port1 == 0 || port1 == st.reg[n].proxy.s1.port)
                   && (port2 == 0 || port2 == st.reg[n].proxy.s2.port);
      && n in st'.reg && st'.reg.Keys == st.reg.Keys + {n}
      && (forall x | x in st.reg && x != n :: st'.reg[x] == st.reg[x])
      && st'.reaper == st.reaper && st'.lastTick == st.lastTick && st'.forwarded == st.forwarded
      && st'.next == (if stays then st.next else st.next + 1)
      && (!stays ==> IsNew(st'.reg[n], st.next, port1, port2, now) && st'.reports == st.reports)
      && (stays && !BothListen(st.reg[n]) ==>
            Remade(st.reg[n], st'.reg[n], 1, Refresh, now) && st'.reports == st.reports)
      && (stays && BothListen(st.reg[n]) ==>
            var e := st.reg[n];
            && st'.reg[n] == e.(access := now)
            && st'.reports == st.reports + [Report(e.id, n, true, e.proxy.s1.port, e.proxy.s2.port)]
            && (port1 != 0 ==> e.proxy.s1.port == port1) && (port2 != 0 ==> e.proxy.s2.port == port2))
  {
    ReachableInv(es, st);
    if n in st.reg && (port1 == 0 || port1 == st.reg[n].proxy.s1.port)
                   && (port2 == 0 || port2 == st.reg[n].proxy.s2.port) {
      assert Consistent(st.reg[n]);
      RecreatedIsRemade(st.reg[n], Refresh, now);
    } else {
      GetMakesNew(st, n, port1, port2, now);
    }
  }

  lemma RecreatedIsRemade(e: Entry, cause: Cause, now: int)
    requires Consistent(e)
    ensures Remade(e, Recreated(e, cause, now), 1, cause, now)
  {
  }

  lemma GetMakesNew(st: State, n: string, port1: nat, port2: nat, now: int)
    requires n in st.reg ==> || (port1 != 0 && port1 != st.reg[n].proxy.s1.port)
                             || (port2 != 0 && port2 != st.reg[n].proxy.s2.port)
    ensures var st' := AfterGet(st, n, port1, port2, now);
      && st' == st.(reg := st'.reg, next := st.next + 1) && n in st'.reg && st'.reg == st.reg[n := st'.reg[n]]
      && IsNew(st'.reg[n], st.next, port1, port2, now)
  {
  }

  /** An entry just made: unblocked, its sockets unused and unbound, on these ports. */
  predicate IsNew(e: Entry, id: nat, port1: nat, port2: nat, now: int) {
    && e.id == id && e.access == now && e.port1 == port1 && e.port2 == port2 && !e.blocked && e.generation == 0
    && e.proxy.s1 == Sock(Pending, port1, 0, false) && e.proxy.s2 == Sock(Pending, port2, 0, false)
    && !e.proxy.blocked && e.proxy.cause == Create && e.proxy.count == 0 && e.proxy.allReady
    && !e.created && e.reported == None
  }

  /** A bind completion in every reachable state.  The socket listens on its port, or has failed; the other one
      and every other entry are as before.  When it is the second answer, the unit of a requested proxy is told
      the ports, and that they are enabled IF AND ONLY IF both sockets listen; a proxy made by the reaper tells
      of a failure only, one made after a sleep nothing.  The answer of a first proxy leaves a reaper running.
      An error other than a port in use is no answer. */
  lemma BindIsExact(es: seq<Event>, st: State, n: string, first: bool, o: Outcome, now: int)
    requires Run(Initial, es, st) && Enabled(st, BindDone(n, first, o, now))
    ensures var st' := Step(st, BindDone(n, first, o, now));
      var (e, e') := (st.reg[n], st'.reg[n]);
      var second := !o.OtherError? && e.proxy.count == 1;
      var both := BothListen(e');
      && st'.reg.Keys == st.reg.Keys && (forall x | x in st.reg && x != n :: st'.reg[x] == st.reg[x])
      && SockOf(e'.proxy, !first) == SockOf(e.proxy, !first)
      && SockOf(e'.proxy, first) == SockOf(e.proxy, first).(
           bind := if o.Bound? then Listening else Failed,
           port := if o.Bound? then o.port else SockOf(e.proxy, first).port)
      && e'.proxy.count == (if o.OtherError? then e.proxy.count else e.proxy.count + 1)
      && e'.id == e.id && e'.access == e.access && e'.blocked == e.blocked && e'.proxy.cause == e.proxy.cause
      && st'.reports == st.reports +
           (if !second then [] else
              match e.proxy.cause
              case Create => [Report(e.id, n, both, e'.proxy.s1.port, e'.proxy.s2.port)]
              case Refresh => [Report(e.id, n, both, e'.proxy.s1.port, e'.proxy.s2.port)]
              case Health => if both then [] else [Report(e.id, n, false, 0, 0)]
              case Resume => [])
      && st'.reaper == (st.reaper || (second && e.proxy.cause == Create))
      && st'.lastTick == (if st'.reaper && !st.reaper then now else st.lastTick)
      && (second && (both || e.proxy.cause == Create) ==>
            e'.port1 == e'.proxy.s1.port && e'.port2 == e'.proxy.s2.port)
      && (!second || !(both || e.proxy.cause == Create) ==> e'.port1 == e.port1 && e'.port2 == e.port2)
      && st'.forwarded == st.forwarded && st'.next == st.next
  {
    ReachableInv(es, st);
    assert Consistent(st.reg[n]);
    BindShape(st, n, first, o, now);
    BoundEntry(st.reg[n], first, o);
    if !o.OtherError? && st.reg[n].proxy.count == 1 { ToldOfBind(n, st.reg[n], first, o); }
  }

  /** The entry after a bind completion, its callback included. */
  function AfterBindOf(e: Entry, first: bool, o: Outcome): Entry {
    var e1 := e.(proxy := BindOutcome(e.proxy, first, o));
    if !o.OtherError? && e1.proxy.count == 2 then Answered(e1) else e1
  }

  lemma BoundEntry(e: Entry, first: bool, o: Outcome)
    requires Consistent(e) && SockOf(e.proxy, first).bind == Pending
    ensures var e' := AfterBindOf(e, first, o);
      var second := !o.OtherError? && e.proxy.count == 1;
      && SockOf(e'.proxy, !first) == SockOf(e.proxy, !first)
      && SockOf(e'.proxy, first) == SockOf(e.proxy, first).(
           bind := if o.Bound? then Listening else Failed,
           port := if o.Bound? then o.port else SockOf(e.proxy, first).port)
      && e'.proxy.count == (if o.OtherError? then e.proxy.count else e.proxy.count + 1)
      && e'.id == e.id && e'.access == e.access && e'.blocked == e.blocked && e'.proxy.cause == e.proxy.cause
      && (second && (BothListen(e') || e.proxy.cause == Create) ==>
            e'.port1 == e'.proxy.s1.port && e'.port2 == e'.proxy.s2.port)
      && (!second || !(BothListen(e') || e.proxy.cause == Create) ==> e'.port1 == e.port1 && e'.port2 == e.port2)
  {
    if !o.OtherError? && e.proxy.count == 1 { BindAnswers(e, first, o); }
  }

  lemma ToldOfBind(n: string, e: Entry, first: bool, o: Outcome)
    requires Consistent(e) && SockOf(e.proxy, first).bind == Pending && !o.OtherError? && e.proxy.count == 1
    ensures var e1 := e.(proxy := BindOutcome(e.proxy, first, o));
      var both := BothListen(e1);
      Told(n, e1) ==
        match e.proxy.cause
        case Create => [Report(e.id, n, both, e1.proxy.s1.port, e1.proxy.s2.port)]
        case Refresh => [Report(e.id, n, both, e1.proxy.s1.port, e1.proxy.s2.port)]
        case Health => if both then [] else [Report(e.id, n, false, 0, 0)]
        case Resume => []
  {
    BindAnswers(e, first, o);
  }

  lemma BindAnswers(e: Entry, first: bool, o: Outcome)
    requires Consistent(e) && SockOf(e.proxy, first).bind == Pending && !o.OtherError? && e.proxy.count == 1
    ensures var p := BindOutcome(e.proxy, first, o);
      p.allReady <==> p.s1.bind == Listening && p.s2.bind == Listening
  {
  }

  /** A datagram is noted at the socket it came to, and goes on IF AND ONLY IF the proxy is not blocked and the
      other side has been heard of. */
  lemma DatagramIsExact(es: seq<Event>, st: State, n: string, onFirst: bool, now: int)
    requires Run(Initial, es, st) && Enabled(st, Datagram(n, onFirst, now))
    ensures var st' := Step(st, Datagram(n, onFirst, now));
      var (p, p') := (st.reg[n].proxy, st'.reg[n].proxy);
      && st' == st.(reg := st'.reg, forwarded := st'.forwarded)
      && st'.reg == st.reg[n := st.reg[n].(proxy := p')]
      && p' == p.(s1 := p'.s1, s2 := p'.s2) && SockOf(p', !onFirst) == SockOf(p, !onFirst)
      && SockOf(p', onFirst) == SockOf(p, onFirst).(access := now, caller := true)
      && st'.forwarded == st.forwarded +
           if !st.reg[n].blocked && SockOf(p, !onFirst).caller then [Forwarded(st.reg[n].id, !onFirst)] else []
  {
    ReachableInv(es, st);
    assert Consistent(st.reg[n]);
  }

  // ----- Sticky ports

  /** Ports once reported by a successful bind stay those of the entry and of its sockets as long as the
      entry is registered, through every refresh, health and resume recreation, and whatever is reported
      later with success is the same. */
  lemma ReportedPortsStick(es: seq<Event>, st: State)
    requires Run(Initial, es, st)
    ensures forall r, n | r in st.reports && r.enabled && n in st.reg && st.reg[n].id == r.entry ::
              Sticks(st.reg[n], (r.port1, r.port2))
    ensures ReportsAgree(st.reports)
  {
    ReachableInv(es, st);
    forall r, n | r in st.reports && r.enabled && n in st.reg && st.reg[n].id == r.entry
      ensures Sticks(st.reg[n], (r.port1, r.port2))
    {
      assert st.reg[n].reported == Some((r.port1, r.port2)) && Consistent(st.reg[n]);
    }
  }

  /** What is asked for, unless it is any port. */
  predicate Meets(asked: (nat, nat), port1: nat, port2: nat) {
    (asked.0 != 0 ==> port1 == asked.0) && (asked.1 != 0 ==> port2 == asked.1)
  }

  /** The entry `id` keeps to the ports that were asked for, and so do the successes reported of it. */
  predicate Honours(st: State, id: nat, asked: (nat, nat)) {
    && id < st.next
    && (forall n | n in st.reg && st.reg[n].id == id ::
          var e := st.reg[n]; Meets(asked, e.port1, e.port2) && Meets(asked, e.proxy.s1.port, e.proxy.s2.port))
    && (forall r | r in st.reports && r.enabled && r.entry == id :: Meets(asked, r.port1, r.port2))
  }

  lemma TickHonours(st: State, now: int, connected: set<string>, id: nat, asked: (nat, nat))
    requires Honours(st, id, asked)
    ensures Honours(AfterTick(st, now, connected), id, asked)
  {
    var reg := if Resumed(st.lastTick, now) then Recovered(st.reg, now) else st.reg;
    assert Honours(st.(reg := reg), id, asked);
  }

  lemma BindHonours(st: State, n: string, first: bool, o: Outcome, now: int, id: nat, asked: (nat, nat))
    requires Honours(st, id, asked) && Enabled(st, BindDone(n, first, o, now))
    ensures Honours(AfterBind(st, n, first, o, now), id, asked)
  {
    BindShape(st, n, first, o, now);
    var e := st.reg[n].(proxy := BindOutcome(st.reg[n].proxy, first, o));
    assert e.id == id ==> Meets(asked, e.proxy.s1.port, e.proxy.s2.port);
    assert forall r | r in Told(n, e) && r.enabled ::
             r.entry == e.id && (r.port1, r.port2) == (e.proxy.s1.port, e.proxy.s2.port);
  }

  lemma StepHonours(st: State, e: Event, id: nat, asked: (nat, nat))
    requires Honours(st, id, asked) && Enabled(st, e)
    ensures Honours(Step(st, e), id, asked)
  {
    match e
    case Tick(now, connected) => TickHonours(st, now, connected, id, asked);
    case BindDone(n, first, o, now) => BindHonours(st, n, first, o, now, id, asked);
    case Get(_, _, _, _) =>
    case CloseProxy(_) =>
    case Datagram(_, _, _) =>
    case SetBlocked(_, _) =>
  }

  lemma {:induction false} RunHonours(st: State, es: seq<Event>, st': State, id: nat, asked: (nat, nat))
    requires Honours(st, id, asked) && Run(st, es, st')
    ensures Honours(st', id, asked)
    decreases |es|
  {
    if es != [] {
      StepHonours(st, es[0], id, asked);
      RunHonours(Step(st, es[0]), es[1..], st', id, asked);
    }
  }

  /** A request that makes a new entry, because there is none or one with other ports, is honoured: in every
      run from there each success reported of that entry is on the ports asked for. */
  lemma AskedPortsAreReported(
      es: seq<Event>, st: State, n: string, port1: nat, port2: nat, now: int, es': seq<Event>, st': State)
    requires Run(Initial, es, st) && now > 0
    requires n in st.reg ==> || (port1 != 0 && port1 != st.reg[n].proxy.s1.port)
                             || (port2 != 0 && port2 != st.reg[n].proxy.s2.port)
    requires Run(Step(st, Get(n, port1, port2, now)), es', st')
    ensures n in AfterGet(st, n, port1, port2, now).reg && AfterGet(st, n, port1, port2, now).reg[n].id == st.next
    ensures forall r | r in st'.reports && r.enabled && r.entry == st.next ::
              (port1 != 0 ==> r.port1 == port1) && (port2 != 0 ==> r.port2 == port2)
  {
    ReachableInv(es, st);
    assert Honours(Step(st, Get(n, port1, port2, now)), st.next, (port1, port2));
    RunHonours(Step(st, Get(n, port1, port2, now)), es', st', st.next, (port1, port2));
  }

  // ----- After a close

  /** Nothing registered has this identity, nor will have it. */
  predicate Gone(st: State, id: nat) { id < st.next && forall n | n in st.reg :: st.reg[n].id != id }

  /** What is forwarded and told from `st` on to `st'` is not of this entry. */
  predicate SilentOf(st: State, st': State, id: nat) {
    && st.forwarded <= st'.forwarded
    && (forall i | |st.forwarded| <= i < |st'.forwarded| :: st'.forwarded[i].entry != id)
    && st.reports <= st'.reports
    && (forall i | |st.reports| <= i < |st'.reports| :: st'.reports[i].entry != id)
  }

  lemma GoneBind(st: State, n: string, first: bool, o: Outcome, now: int, id: nat)
    requires Gone(st, id) && n in st.reg
    ensures var st' := AfterBind(st, n, first, o, now); Gone(st', id) && SilentOf(st, st', id)
  {
    BindShape(st, n, first, o, now);
  }

  lemma StepGone(st: State, e: Event, id: nat)
    requires Gone(st, id) && Enabled(st, e)
    ensures Gone(Step(st, e), id) && SilentOf(st, Step(st, e), id)
  {
    match e
    case BindDone(n, first, o, now) => GoneBind(st, n, first, o, now, id);
    case _ =>
  }

  lemma SilentThrough(a: State, b: State, c: State, id: nat)
    requires SilentOf(a, b, id) && SilentOf(b, c, id)
    ensures SilentOf(a, c, id)
  {
    forall i | |a.forwarded| <= i < |c.forwarded| ensures c.forwarded[i].entry != id {
      if i < |b.forwarded| { assert c.forwarded[i] == b.forwarded[i]; }
    }
    forall i | |a.reports| <= i < |c.reports| ensures c.reports[i].entry != id {
      if i < |b.reports| { assert c.reports[i] == b.reports[i]; }
    }
  }

  lemma {:induction false} RunGone(st: State, es: seq<Event>, st': State, id: nat)
    requires Gone(st, id) && Run(st, es, st')
    ensures Gone(st', id) && SilentOf(st, st', id)
    decreases |es|
  {
    if es != [] {
      StepGone(st, es[0], id);
      RunGone(Step(st, es[0]), es[1..], st', id);
      SilentThrough(st, Step(st, es[0]), st', id);
    }
  }

  /** Closing takes the entry out and touches no other; from then on, in every run, nothing is forwarded by it
      and nothing is told of it, even when its unit asks for a proxy again. */
  lemma ClosedIsGone(es: seq<Event>, st: State, n: string, es': seq<Event>, st': State)
    requires Run(Initial, es, st) && n in st.reg && Run(Step(st, CloseProxy(n)), es', st')
    ensures var st1 := Step(st, CloseProxy(n));
      st1 == st.(reg := st1.reg) && n !in st1.reg && st1.reg == map x | x in st.reg && x != n :: st.reg[x]
    ensures Gone(st', st.reg[n].id) && SilentOf(st, st', st.reg[n].id)
  {
    ReachableInv(es, st);
    RunGone(Step(st, CloseProxy(n)), es', st', st.reg[n].id);
  }

  // ----- The block flag

  /** Whatever is registered under this identity is `n` and blocked. */
  predicate Held(st: State, n: string, id: nat) {
    && id < st.next
    && forall m | m in st.reg && st.reg[m].id == id :: m == n && st.reg[m].blocked && st.reg[m].proxy.blocked
  }

  lemma TickHolds(st: State, now: int, connected: set<string>, n: string, id: nat)
    requires Held(st, n, id)
    ensures Held(AfterTick(st, now, connected), n, id)
  {
    var reg := if Resumed(st.lastTick, now) then Recovered(st.reg, now) else st.reg;
    assert Held(st.(reg := reg), n, id);
  }

  /** A change of one entry that keeps its identity and its block flags. */
  lemma ChangeHolds(st: State, st': State, m: string, n: string, id: nat)
    requires Held(st, n, id) && m in st.reg && m in st'.reg && st'.reg == st.reg[m := st'.reg[m]] && st'.next == st.next
    requires var (e, e') := (st.reg[m], st'.reg[m]);
      e'.id == e.id && e'.blocked == e.blocked && e'.proxy.blocked == e.proxy.blocked
    ensures Held(st', n, id)
  {
  }

  lemma BindHolds(st: State, m: string, first: bool, o: Outcome, now: int, n: string, id: nat)
    requires Held(st, n, id) && m in st.reg
    ensures Held(AfterBind(st, m, first, o, now), n, id)
  {
    BindShape(st, m, first, o, now);
    ChangeHolds(st, AfterBind(st, m, first, o, now), m, n, id);
  }

  lemma GetHolds(st: State, m: string, port1: nat, port2: nat, now: int, n: string, id: nat)
    requires Held(st, n, id)
    ensures Held(AfterGet(st, m, port1, port2, now), n, id)
  {
  }

  lemma StepHolds(st: State, e: Event, n: string, id: nat)
    requires Held(st, n, id) && Enabled(st, e) && e != SetBlocked(n, false)
    ensures Held(Step(st, e), n, id)
    ensures var before, after := st.forwarded, Step(st, e).forwarded;
      |before| <= |after| && after[..|before|] == before && forall i | |before| <= i < |after| :: after[i].entry != id
  {
    match e
    case Tick(now, connected) => TickHolds(st, now, connected, n, id);
    case BindDone(m, first, o, now) => BindHolds(st, m, first, o, now, n, id);
    case Get(m, port1, port2, now) => GetHolds(st, m, port1, port2, now, n, id);
    case CloseProxy(_) =>
    case Datagram(_, _, _) =>
    case SetBlocked(_, _) =>
  }

  /** A blocked proxy forwards nothing in any run without an unblocking, whatever recreates its sockets. */
  lemma {:induction false} BlockedForwardsNothing(st: State, es: seq<Event>, st': State, n: string, id: nat)
    requires Held(st, n, id) && Run(st, es, st') && SetBlocked(n, false) !in es
    ensures Held(st', n, id)
    ensures |st.forwarded| <= |st'.forwarded| && st'.forwarded[..|st.forwarded|] == st.forwarded
    ensures forall i | |st.forwarded| <= i < |st'.forwarded| :: st'.forwarded[i].entry != id
    decreases |es|
  {
    if es != [] {
      var st1 := Step(st, es[0]);
      StepHolds(st, es[0], n, id);
      BlockedForwardsNothing(st1, es[1..], st', n, id);
      assert st'.forwarded[..|st.forwarded|] == st'.forwarded[..|st1.forwarded|][..|st.forwarded|];
      forall i | |st.forwarded| <= i < |st'.forwarded| ensures st'.forwarded[i].entry != id {
        if i < |st1.forwarded| { assert st'.forwarded[i] == st'.forwarded[..|st1.forwarded|][i]; }
      }
    }
  }

  /** Blocking by the admin is what makes a proxy held. */
  lemma BlockingHolds(es: seq<Event>, st: State, n: string)
    requires Run(Initial, es, st) && n in st.reg
    ensures Held(AfterBlock(st, n, true), n, st.reg[n].id)
  {
    ReachableInv(es, st);
  }

  /** Unblocking undoes blocking, and from then on a datagram goes through whenever the other side has spoken. */
  lemma UnblockingRestores(es: seq<Event>, st: State, n: string, onFirst: bool, now: int)
    requires Run(Initial, es, st) && n in st.reg && !st.reg[n].blocked
    ensures AfterBlock(AfterBlock(st, n, true), n, false) == st
    ensures AfterDatagram(st, n, onFirst, now).forwarded
         == st.forwarded
            + (if SockOf(st.reg[n].proxy, !onFirst).caller then [Forwarded(st.reg[n].id, !onFirst)] else [])
  {
    ReachableInv(es, st);
    assert Consistent(st.reg[n]);
    BlockedAndBack(st, n);
  }

  lemma BlockedAndBack(st: State, n: string)
    requires n in st.reg && !st.reg[n].blocked && !st.reg[n].proxy.blocked
    ensures AfterBlock(AfterBlock(st, n, true), n, false) == st
  {
    assert AfterBlock(AfterBlock(st, n, true), n, false).reg == st.reg;
  }

  // ----- The reaper

  /** An ordinary tick removes exactly the proxies with both sockets listening that nobody has used for more
      than five minutes and whose unit is not connected, makes exactly those anew of which a socket is not
      listening, leaves every other entry as it is, forwards and reports nothing, and stops the reaper exactly
      when nothing is left. */
  lemma TickIsExact(es: seq<Event>, st: State, now: int, connected: set<string>)
    requires Run(Initial, es, st) && st.reaper && now > 0 && (st.lastTick > 0 ==> now - st.lastTick <= 180000)
    ensures var st' := AfterTick(st, now, connected);
      && (forall n | n in st.reg ::
            n !in st'.reg <==>
              && BothListen(st.reg[n]) && n !in connected && now - st.reg[n].access > 300000
              && now - st.reg[n].proxy.s1.access > 300000 && now - st.reg[n].proxy.s2.access > 300000)
      && st'.reg.Keys <= st.reg.Keys
      && (forall n | n in st'.reg && BothListen(st.reg[n]) :: st'.reg[n] == st.reg[n])
      && (forall n | n in st'.reg && !BothListen(st.reg[n]) :: Remade(st.reg[n], st'.reg[n], 1, Health, now))
      && (st'.reaper <==> st'.reg.Keys != {}) && st'.lastTick == (if st'.reaper then now else 0)
      && st'.forwarded == st.forwarded && st'.reports == st.reports && st'.next == st.next
  {
    ReachableInv(es, st);
    var st' := AfterTick(st, now, connected);
    forall n | n in st'.reg && !BothListen(st.reg[n]) ensures Remade(st.reg[n], st'.reg[n], 1, Health, now) {
      assert Consistent(st.reg[n]);
    }
  }

  /** A tick after a sleep, known by more than three intervals since the last one, removes nothing, however
      idle, and makes every proxy anew: once to recover, and once more because none of the recovered ones is
      ready yet. */
  lemma ResumeTickIsExact(es: seq<Event>, st: State, now: int, connected: set<string>)
    requires Run(Initial, es, st) && st.reaper && now > 0 && st.lastTick > 0 && now - st.lastTick > 180000
    ensures var st' := AfterTick(st, now, connected);
      && st'.reg.Keys == st.reg.Keys
      && (forall n | n in st.reg :: Remade(st.reg[n], st'.reg[n], 2, Health, now))
      && (st'.reaper <==> st.reg.Keys != {}) && st'.lastTick == (if st'.reaper then now else 0)
      && st'.forwarded == st.forwarded && st'.reports == st.reports && st'.next == st.next
  {
    ReachableInv(es, st);
    var st' := AfterTick(st, now, connected);
    forall n | n in st.reg ensures n in st'.reg && Remade(st.reg[n], st'.reg[n], 2, Health, now) {
      assert Consistent(st.reg[n]);
      assert n in Recovered(st.reg, now);
    }
    assert st'.reg.Keys == st.reg.Keys;
  }

  /** The reaper stops only in a tick that leaves the registry empty. */
  lemma ReaperStopsOnlyWhenEmpty(st: State, e: Event)
    requires Enabled(st, e) && st.reaper
    ensures !Step(st, e).reaper <==> e.Tick? && Step(st, e).reg.Keys == {}
  {
  }

  /** A unit asks again before its first sockets have answered, and no reaper is running: the branch that
      replaces the proxy whose callback would start it. */
  predicate AsksTooEarly(st: State, e: Event) {
    && e.Get? && !st.reaper && e.name in st.reg
    && (e.port1 == 0 || e.port1 == st.reg[e.name].proxy.s1.port)
    && (e.port2 == 0 || e.port2 == st.reg[e.name].proxy.s2.port)
    && !BothListen(st.reg[e.name])
  }

  ghost predicate Patient(st: State, es: seq<Event>)
    decreases |es|
  {
    es != [] ==> !AsksTooEarly(st, es[0]) && (Enabled(st, es[0]) ==> Patient(Step(st, es[0]), es[1..]))
  }

  /** Without a reaper, every proxy is a first one that has yet to answer. */
  predicate Watched(st: State) {
    !st.reaper ==> forall n | n in st.reg :: st.reg[n].proxy.cause == Create && st.reg[n].proxy.count < 2
  }

  lemma BindKeepsWatched(st: State, n: string, first: bool, o: Outcome, now: int)
    requires Watched(st) && n in st.reg
    ensures Watched(AfterBind(st, n, first, o, now))
  {
    BindShape(st, n, first, o, now);
  }

  lemma TickKeepsWatched(st: State, now: int, connected: set<string>)
    requires Watched(st) && st.reaper
    ensures Watched(AfterTick(st, now, connected))
  {
  }

  lemma StepKeepsWatched(st: State, e: Event)
    requires Inv(st) && Watched(st) && Enabled(st, e) && !AsksTooEarly(st, e)
    ensures Watched(Step(st, e))
  {
    match e
    case Get(n, _, _, _) => if !st.reaper && n in st.reg { assert Consistent(st.reg[n]); }
    case BindDone(n, first, o, now) => BindKeepsWatched(st, n, first, o, now);
    case Tick(now, connected) => TickKeepsWatched(st, now, connected);
    case CloseProxy(_) =>
    case Datagram(_, _, _) =>
    case SetBlocked(_, _) =>
  }

  lemma {:induction false} RunKeepsWatched(st: State, es: seq<Event>, st': State)
    requires Inv(st) && Watched(st) && Run(st, es, st') && Patient(st, es)
    ensures Inv(st') && Watched(st')
    decreases |es|
  {
    if es != [] {
      StepKeepsInv(st, es[0]);
      StepKeepsWatched(st, es[0]);
      RunKeepsWatched(Step(st, es[0]), es[1..], st');
    }
  }

  /** If no unit asks too early, the reaper runs whenever a ready proxy is registered. */
  lemma ReadyMeansReaper(es: seq<Event>, st: State, n: string)
    requires Run(Initial, es, st) && Patient(Initial, es) && n in st.reg && Ready(st.reg[n].proxy)
    ensures st.reaper
  {
    RunKeepsWatched(Initial, es, st);
    assert Consistent(st.reg[n]);
  }

  /** Every request that comes too early can leave a proxy reported ready without a reaper: its sockets
      bind, the unit is told so, and the reaper is not started. */
  lemma AskingTooEarlyLeavesNoReaper(st: State, n: string, port1: nat, port2: nat, now: int, p1: nat, p2: nat)
    requires Inv(st) && now > 0 && AsksTooEarly(st, Get(n, port1, port2, now))
    requires var p := Recreated(st.reg[n], Refresh, now).proxy; BindsTo(p.s1.port, p1) && BindsTo(p.s2.port, p2)
    ensures var es :=
      [Get(n, port1, port2, now), BindDone(n, true, Bound(p1), now), BindDone(n, false, Bound(p2), now)];
      exists st' :: Run(st, es, st') && n in st'.reg && Ready(st'.reg[n].proxy) && !st'.reaper
        && st'.reports == st.reports + [Report(st.reg[n].id, n, true, p1, p2)]
  {
    var es := [Get(n, port1, port2, now), BindDone(n, true, Bound(p1), now), BindDone(n, false, Bound(p2), now)];
    var st1 := Step(st, es[0]);
    TwoBindsMakeReady(st1, n, now, p1, p2);
    ThreeSteps(st, es, Step(Step(st1, es[1]), es[2]));
  }

  /** Both sockets of a refreshed entry bind: it is ready and reported so, and a reaper runs only if one did. */
  lemma TwoBindsMakeReady(st: State, n: string, now: int, p1: nat, p2: nat)
    requires n in st.reg && now > 0 && !st.reaper
    requires var p := st.reg[n].proxy;
      && p == NewProxy(p.s1.port, p.s2.port, p.blocked, Refresh) && BindsTo(p.s1.port, p1) && BindsTo(p.s2.port, p2)
    ensures var (e1, e2) := (BindDone(n, true, Bound(p1), now), BindDone(n, false, Bound(p2), now));
      && Enabled(st, e1) && Enabled(Step(st, e1), e2)
      && (var st' := Step(Step(st, e1), e2);
          && n in st'.reg && Ready(st'.reg[n].proxy) && !st'.reaper
          && st'.reports == st.reports + [Report(st.reg[n].id, n, true, p1, p2)])
  {
    BindShape(st, n, true, Bound(p1), now);
    BindShape(Step(st, BindDone(n, true, Bound(p1), now)), n, false, Bound(p2), now);
  }

  lemma ThreeSteps(st: State, es: seq<Event>, st': State)
    requires |es| == 3 && Enabled(st, es[0]) && Enabled(Step(st, es[0]), es[1])
    requires Enabled(Step(Step(st, es[0]), es[1]), es[2]) && st' == Step(Step(Step(st, es[0]), es[1]), es[2])
    ensures Run(st, es, st')
  {
    assert Run(st', [], st');
    assert Run(Step(Step(st, es[0]), es[1]), es[2..], st');
    assert es[1..][1..] == es[2..];
    assert Run(Step(st, es[0]), es[1..], st');
  }

  /** After `e` and then a patient run a ready proxy is registered and no reaper runs. */
  ghost predicate CanMissReaper(st: State, e: Event)
    requires Enabled(st, e)
  {
    exists es, st', n :: Patient(Step(st, e), es) && Run(Step(st, e), es, st') && n in st'.reg
        && Ready(st'.reg[n].proxy) && !st'.reaper
  }

  /** As long as nobody has asked too early: an event opens the way to a ready proxy without a reaper IF
      AND ONLY IF it is a request that comes too early. */
  lemma ReaperIsMissedIffAskedTooEarly(st: State, e: Event)
    requires Inv(st) && Watched(st) && Enabled(st, e)
    ensures CanMissReaper(st, e) <==> AsksTooEarly(st, e)
  {
    if AsksTooEarly(st, e) {
      EarlyMisses(st, e);
    } else {
      StepKeepsInv(st, e);
      StepKeepsWatched(st, e);
      forall es, st', n | Patient(Step(st, e), es) && Run(Step(st, e), es, st') && n in st'.reg
                          && Ready(st'.reg[n].proxy)
        ensures st'.reaper
      {
        RunKeepsWatched(Step(st, e), es, st');
        assert Consistent(st'.reg[n]);
      }
    }
  }

  lemma EarlyMisses(st: State, e: Event)
    requires Inv(st) && Enabled(st, e) && AsksTooEarly(st, e)
    ensures CanMissReaper(st, e)
  {
    var p := Recreated(st.reg[e.name], Refresh, e.now).proxy;
    var p1, p2 := Or(p.s1.port, 1), Or(p.s2.port, 1);
    AskingTooEarlyLeavesNoReaper(st, e.name, e.port1, e.port2, e.now, p1, p2);
    var binds := [BindDone(e.name, true, Bound(p1), e.now), BindDone(e.name, false, Bound(p2), e.now)];
    var all := [e, binds[0], binds[1]];
    var st' :| Run(st, all, st') && e.name in st'.reg && Ready(st'.reg[e.name].proxy) && !st'.reaper;
    assert all[1..] == binds && Run(Step(st, all[0]), all[1..], st');
    OthersArePatient(Step(st, e), binds);
  }

  lemma {:induction false} OthersArePatient(st: State, es: seq<Event>)
    requires forall i | 0 <= i < |es| :: !es[i].Get?
    ensures Patient(st, es)
    decreases |es|
  {
    if es != [] && Enabled(st, es[0]) { OthersArePatient(Step(st, es[0]), es[1..]); }
  }

  /** That state is reachable by two requests in a row, before any socket has bound. */
  lemma TwoRequestsInARow(n: string, now: int) returns (es: seq<Event>, st: State)
    requires now > 0
    ensures Run(Initial, es, st) && [Get(n, 0, 0, now), Get(n, 0, 0, now)] <= es
    ensures n in st.reg && Ready(st.reg[n].proxy) && !st.reaper && |st.reports| == 1 && st.reports[0].enabled
  {
    var st1 := Step(Initial, Get(n, 0, 0, now));
    StepKeepsInv(Initial, Get(n, 0, 0, now));
    var rest := [Get(n, 0, 0, now), BindDone(n, true, Bound(1), now), BindDone(n, false, Bound(2), now)];
    AskingTooEarlyLeavesNoReaper(st1, n, 0, 0, now, 1, 2);
    st :| Run(st1, rest, st) && n in st.reg && Ready(st.reg[n].proxy) && !st.reaper
      && st.reports == st1.reports + [Report(0, n, true, 1, 2)];
    es := [Get(n, 0, 0, now)] + rest;
    assert es[1..] == rest;
  }

  // ----- The registry as objects

  /** The health check and the idle check of one name. */
  function Checked(reg: map<string, Entry>, n: string, now: int, connected: set<string>): map<string, Entry>
    requires n in reg
  {
    if !Ready(reg[n].proxy) then reg[n := Recreated(reg[n], Health, now)]
    else if Reapable(n, reg[n], now, connected) then reg - {n}
    else reg
  }

  /** The table when all but `names` have been checked. */
  function Swept(reg: map<string, Entry>, names: set<string>, now: int, connected: set<string>): map<string, Entry> {
    map n | n in reg && (n in names || !Reapable(n, reg[n], now, connected)) ::
      if n in names || Ready(reg[n].proxy) then reg[n] else Recreated(reg[n], Health, now)
  }

  lemma SweepOne(reg: map<string, Entry>, names: set<string>, n: string, now: int, connected: set<string>)
    requires n in names && names <= reg.Keys
    ensures var t := Swept(reg, names, now, connected);
      n in t && Checked(t, n, now, connected) == Swept(reg, names - {n}, now, connected)
      && names - {n} <= Checked(t, n, now, connected).Keys
  {
  }

  /** An entry of the registry with its pair of sockets, changed in place and shared with the callbacks. */
  class ProxyEntry {
    const id: nat
    var access: int
    var port1: nat
    var port2: nat
    var blocked: bool
    var proxy: Proxy
    var generation: nat
    var created: bool
    var reported: Option<(nat, nat)>

    function Value(): Entry
      reads this
    {
      Entry(id, access, port1, port2, blocked, proxy, generation, created, reported)
    }

    constructor (id: nat, port1: nat, port2: nat, now: int)
      ensures Value() == Entry(id, now, port1, port2, false, NewProxy(port1, port2, false, Create), 0, false, None)
    {
      this.id := id;
      access := now;
      this.port1 := port1;
      this.port2 := port2;
      blocked := false;
      proxy := NewProxy(port1, port2, false, Create);
      generation := 0;
      created := false;
      reported := None;
    }

    method Recreate(cause: Cause, now: int)
      modifies this
      ensures Value() == Recreated(old(Value()), cause, now)
    {
      var sticky1 := if port1 != 0 then port1 else proxy.s1.port;
      var sticky2 := if port2 != 0 then port2 else proxy.s2.port;
      proxy := NewProxy(sticky1, sticky2, false, cause);
      proxy := proxy.(blocked := blocked);
      access := now;
      generation := generation + 1;
    }

    method SetBlocked(flag: bool)
      modifies this
      ensures Value() == old(Value()).(blocked := flag, proxy := old(proxy).(blocked := flag))
    {
      blocked := flag;
      proxy := proxy.(blocked := flag);
    }

    /** A socket answers its bind; the result says whether the callback of the proxy is due. */
    method OnBind(first: bool, o: Outcome) returns (due: bool)
      modifies this
      ensures Value() == old(Value()).(proxy := BindOutcome(old(proxy), first, o))
      ensures due <==> !o.OtherError? && proxy.count == 2
    {
      proxy := if first then proxy.(s1 := BindSock(proxy.s1, o)) else proxy.(s2 := BindSock(proxy.s2, o));
      due := false;
      if !o.OtherError? {
        proxy := proxy.(allReady := proxy.allReady && o.Bound?, count := proxy.count + 1);
        due := proxy.count == 2;
      }
    }

    method CallBack()
      modifies this
      ensures Value() == Answered(old(Value()))
    {
      if proxy.allReady || proxy.cause == Create {
        port1, port2 := proxy.s1.port, proxy.s2.port;
      }
      if proxy.allReady {
        reported := Some((port1, port2));
      }
      if proxy.cause == Create {
        created := true;
      }
    }

    method OnMessage(onFirst: bool, now: int) returns (forward: bool)
      modifies this
      ensures Value() == Noted(old(Value()), onFirst, now)
      ensures forward <==> Passes(proxy, onFirst)
    {
      if onFirst {
        proxy := proxy.(s1 := proxy.s1.(access := now, caller := true));
        forward := !proxy.blocked && proxy.s2.caller;
      } else {
        proxy := proxy.(s2 := proxy.s2.(access := now, caller := true));
        forward := !proxy.blocked && proxy.s1.caller;
      }
    }
  }

  class Registry {
    var entries: map<string, ProxyEntry>
    var next: nat
    var reaper: bool
    var lastTick: int
    var forwarded: seq<Forwarded>
    var reports: seq<Report>

    ghost predicate Valid()
      reads this`entries
    {
      forall m, n | m in entries && n in entries && m != n :: entries[m] != entries[n]
    }

    ghost function Table(): (t: map<string, Entry>)
      reads this`entries, entries.Values
      ensures t.Keys == entries.Keys
    {
      map n | n in entries :: entries[n].Value()
    }

    ghost function Now(): State
      reads this, entries.Values
    {
      State(Table(), next, reaper, lastTick, forwarded, reports)
    }

    /** Only the entry `n` has changed. */
    twostate lemma Touched(n: string)
      requires entries == old(entries) && n in entries
      requires forall m | m in entries && m != n :: entries[m].Value() == old(entries[m].Value())
      ensures Table() == old(Table())[n := entries[n].Value()]
    {
    }

    constructor ()
      ensures Valid() && Now() == Initial
    {
      entries := map[];
      next := 0;
      reaper := false;
      lastTick := 0;
      forwarded := [];
      reports := [];
    }

    method StartReaper(now: int)
      requires Valid()
      modifies this`reaper, this`lastTick
      ensures Valid() && Now() == WithReaper(old(Now()), now)
    {
      if !reaper {
        lastTick := now;
        reaper := true;
      }
    }

    method CloseUDPSocket(n: string)
      requires Valid()
      modifies this`entries
      ensures Valid() && entries.Values <= old(entries.Values)
      ensures Now() == old(Now()).(reg := old(Now()).reg - {n})
    {
      if n in entries {
        entries := entries - {n};
      }
      assert Table() == old(Table()) - {n};
    }

    method Register(n: string, port1: nat, port2: nat, now: int)
      requires Valid() && n !in entries
      modifies this`entries, this`next
      ensures Valid() && fresh(entries.Values - old(entries.Values))
      ensures Now() == Created(old(Now()), n, port1, port2, now)
    {
      var obj := new ProxyEntry(next, port1, port2, now);
      entries := entries[n := obj];
      next := next + 1;
      assert Table() == old(Table())[n := obj.Value()];
    }

    method GetUDPSocket(n: string, port1: nat, port2: nat, now: int)
      requires Valid()
      modifies this, entries.Values
      ensures Valid() && fresh(entries.Values - old(entries.Values))
      ensures Now() == AfterGet(old(Now()), n, port1, port2, now)
    {
      if n !in entries {
        Register(n, port1, port2, now);
        return;
      }
      var e := entries[n];
      if (port1 == 0 || e.proxy.s1.port == port1) && (port2 == 0 || e.proxy.s2.port == port2) {
        if e.proxy.s1.bind != Listening || e.proxy.s2.bind != Listening {
          e.Recreate(Refresh, now);
        } else {
          e.access := now;
          reports := reports + [Report(e.id, n, true, e.proxy.s1.port, e.proxy.s2.port)];
        }
        Touched(n);
      } else {
        CloseUDPSocket(n);
        Register(n, port1, port2, now);
      }
    }

    method CallBack(n: string, now: int)
      requires Valid() && n in entries
      modifies this`reports, this`reaper, this`lastTick, entries.Values
      ensures Valid() && Now() == CalledBack(old(Now()), n, now)
    {
      var e := entries[n];
      reports := reports + Told(n, e.Value());
      e.CallBack();
      Touched(n);
      if e.proxy.cause == Create {
        StartReaper(now);
      }
    }

    method OnBind(n: string, first: bool, o: Outcome, now: int)
      requires Valid() && n in entries
      modifies this`reports, this`reaper, this`lastTick, entries.Values
      ensures Valid() && Now() == AfterBind(old(Now()), n, first, o, now)
    {
      var due := entries[n].OnBind(first, o);
      Touched(n);
      if due {
        CallBack(n, now);
      }
    }

    method OnMessage(n: string, onFirst: bool, now: int)
      requires Valid() && n in entries
      modifies this, entries.Values
      ensures Valid() && entries == old(entries)
      ensures Now() == AfterDatagram(old(Now()), n, onFirst, now)
    {
      var e := entries[n];
      var forward := e.OnMessage(onFirst, now);
      if forward {
        forwarded := forwarded + [Forwarded(e.id, !onFirst)];
      }
      Touched(n);
    }

    method SetProxyBlocked(n: string, flag: bool) returns (found: bool)
      requires Valid()
      modifies entries.Values
      ensures Valid() && found == (n in entries)
      ensures Now() == AfterBlock(old(Now()), n, flag)
    {
      found := n in entries;
      if found {
        entries[n].SetBlocked(flag);
        Touched(n);
      } else {
        assert Table() == old(Table());
      }
    }

    method RecoverAll(now: int)
      requires Valid()
      modifies entries.Values
      ensures Valid() && Table() == Recovered(old(Table()), now)
    {
      var names := entries.Keys;
      while names != {}
        invariant names <= entries.Keys
        invariant forall n | n in entries ::
          entries[n].Value() == if n in names
              then old(entries[n].Value()) else Recreated(old(entries[n].Value()), Resume, now)
      {
        var n :| n in names;
        entries[n].Recreate(Resume, now);
        names := names - {n};
      }
    }

    /** One round of the sweep: health check, then idle check. */
    method Check(n: string, now: int, connected: set<string>)
      requires Valid() && n in entries
      modifies this`entries, entries[n]
      ensures Valid() && entries.Values <= old(entries.Values)
      ensures Table() == Checked(old(Table()), n, now, connected)
    {
      var e := entries[n];
      if e.proxy.s1.bind != Listening || e.proxy.s2.bind != Listening {
        e.Recreate(Health, now);
        Touched(n);
      } else {
        var last := Max(e.access, Max(e.proxy.s1.access, e.proxy.s2.access));
        if now - last > IDLE_TIMEOUT && n !in connected {
          entries := entries - {n};
        }
        assert Table() == Checked(old(Table()), n, now, connected);
      }
    }

    /** The sweep of a tick, over the names in any order. */
    method Sweep(now: int, connected: set<string>)
      requires Valid()
      modifies this`entries, entries.Values
      ensures Valid() && entries.Values <= old(entries.Values)
      ensures Table() == Reaped(old(Table()), now, connected)
    {
      ghost var table := Table();
      var names := entries.Keys;
      while names != {}
        invariant Valid() && names <= entries.Keys && entries.Values <= old(entries.Values)
        invariant Table() == Swept(table, names, now, connected)
      {
        var n :| n in names;
        SweepOne(table, names, n, now, connected);
        Check(n, now, connected);
        names := names - {n};
      }
    }

    method RecoverAndSweep(now: int, connected: set<string>)
      requires Valid()
      modifies this`entries, entries.Values
      ensures Valid() && entries.Values <= old(entries.Values)
      ensures Table() == Ticked(old(Table()), lastTick, now, connected)
    {
      if lastTick > 0 && now - lastTick > REAPER_INTERVAL * 3 {
        RecoverAll(now);
      }
      Sweep(now, connected);
    }

    method OnTick(now: int, connected: set<string>)
      requires Valid()
      modifies this, entries.Values
      ensures Valid() && entries.Values <= old(entries.Values)
      ensures Now() == AfterTick(old(Now()), now, connected)
    {
      RecoverAndSweep(now, connected);
      EndTick(now);
    }

    method EndTick(now: int)
      modifies this`reaper, this`lastTick
      ensures Now() == Ended(old(Now()), old(Table()), now)
    {
      if entries.Keys == {} {
        StopReaper();
      } else {
        lastTick := now;
      }
    }

    method StopReaper()
      modifies this`reaper, this`lastTick
      ensures Now() == old(Now()).(reaper := false, lastTick := 0)
    {
      reaper := false;
      lastTick := 0;
    }
  }
}
