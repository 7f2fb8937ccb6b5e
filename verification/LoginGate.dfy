/** Who gets in: temporary keys and their expiry, credentials in the URL or in a first frame, the timer
    that races with that frame, and the gate that no message of a socket passes before it is accepted. */
module LoginGate {
  import opened Frames
  import R = Rooms
  import L = Lifecycle
  import Q = QueryScanner

  type SocketId = R.SocketId

  /** What the authentication server said about a party, kept under its temporary key. */
  datatype Request = Request(account: string, group: string, actor: string)

  /** Whether credentials in the URL are still taken, and the account of a server that needs no keys. */
  datatype Mode = Mode(compat: bool, local: Option<string>)

  /** A message as the handlers tell it apart: not a JSON object, some other one, or a de_auth frame. */
  datatype Frame = NotAnObject | Other | Auth(f: Option<string>, s: Option<string>, at: Option<string>)

  /** A connection as its handlers know it; `acks` are the answers sent to the de_auth frame. */
  datatype Conn = Conn(
    listens: bool, byFrame: bool, pending: bool, handler: bool, timer: bool,
    accepted: bool, closing: bool, acks: seq<bool>, frames: nat)

  datatype Use = Use(key: string, socket: SocketId)

  /** A message handed on to plugins, rooms and relay: whose, and its number on that socket. */
  datatype Routed = Routed(socket: SocketId, nth: nat)

  /** `waiting`, `expiring`, `conns` and `h` are the server's; the rest is what has happened. */
  datatype State = State(
    waiting: map<string, Request>, expiring: set<string>, conns: map<SocketId, Conn>, h: L.History,
    issued: map<string, Request>, used: seq<Use>, expired: set<string>, routed: seq<Routed>)

  const Initial := State(map[], {}, map[], L.Initial, map[], [], {}, [])

  datatype Event =
    | Issue(key: string, request: Request)
    | KeyTimeout(key: string)
    | Connect(s: SocketId, url: string)
    | Hears(s: SocketId, frame: Frame)
    | AuthTimeout(s: SocketId)
    | SocketClosed(s: SocketId)
    | Registry(e: L.Event)

  predicate Alphanumeric(s: string) {
    forall c | c in s :: '0' <= c <= '9' || 'a' <= c <= 'z' || 'A' <= c <= 'Z'
  }

  const MAX_KEY := 200

  /** The format check of fn_validateKey. */
  predicate WellFormed(key: string) { key != "" && Alphanumeric(key) && |key| <= MAX_KEY }

  /** Keys are fresh version 4 UUIDs without dashes. */
  predicate Enabled(st: State, e: Event) {
    match e
    case Issue(key, _) => key !in st.issued && WellFormed(key)
    case KeyTimeout(key) => key in st.expiring
    case Connect(s, _) => s !in st.conns && s !in st.h.st.sockets
    case Hears(s, _) => s in st.conns && s in st.h.st.sockets && st.h.st.sockets[s].phase != R.Closed
    case AuthTimeout(s) => s in st.conns && st.conns[s].timer
    case SocketClosed(s) => s in st.conns && s in st.h.st.sockets && st.h.st.sockets[s].phase != R.Closed
    case Registry(e) =>
      && (e.LogoutCommand? || e.GroupBroadcast? || e.ProxyOn? || e.ProxyOff?)
      && L.Enabled(st.h, e)
  }

  // ----- The handlers

  function With(st: State, s: SocketId, c: Conn): State { st.(conns := st.conns[s := c]) }

  /** p_ws.close() */
  function Closing(st: State, s: SocketId): State
    requires s in st.conns
  {
    With(st, s, st.conns[s].(closing := true))
  }

  /** _acceptConnection */
  ghost function Admitted(st: State, s: SocketId, l: R.Login): State
    requires s in st.conns && s in st.h.st.sockets
  {
    st.(h := st.h.(st := R.Accept(st.h.st, s, l), latest := st.h.latest[R.Key(l) := s]),
        conns := st.conns[s := st.conns[s].(accepted := true)])
  }

  /** The sender id, if the client gave one. */
  function Sender(params: map<string, string>): Option<string> { if "s" in params then Some(params["s"]) else None }

  /** fn_validateKeyLocal reads the key and throws when there is none. */
  predicate Throws(m: Mode, params: map<string, string>) { m.local.Some? && "f" !in params }

  function RequestLogin(request: Request, params: map<string, string>): R.Login {
    R.Login(Sender(params), request.account, request.group, request.actor)
  }

  function LocalLogin(account: string, params: map<string, string>): R.Login {
    R.Login(Sender(params), account, "1", if "at" in params then params["at"] else "a")
  }

  /** fn_completeConnection: the verdict of fn_validateKey only closes the socket; whether it is accepted is
      decided by the waiting list alone. */
  ghost function Completed(m: Mode, st: State, s: SocketId, params: map<string, string>): State
    requires s in st.conns && s in st.h.st.sockets && !Throws(m, params)
  {
    if m.local.Some? then Admitted(st, s, LocalLogin(m.local.value, params))
    else if "f" !in params then Closing(st, s)
    else
      var key := params["f"];
      var st1 := if WellFormed(key) && key in st.waiting then st else Closing(st, s);
      if key !in st.waiting then Closing(st1, s)
      else
        Admitted(st1.(waiting := st.waiting - {key}, used := st.used + [Use(key, s)]), s,
            RequestLogin(st.waiting[key], params))
  }

  function Joined(st: State, s: SocketId, c: Conn): State {
    st.(conns := st.conns[s := c], h := st.h.(st := st.h.st.(sockets := st.h.st.sockets[s := L.Fresh])))
  }

  const Silent := Conn(false, false, false, false, false, false, true, [], 0)
  const ByQuery := Conn(true, false, false, false, false, false, false, [], 0)
  const Waiting := Conn(true, true, true, true, true, false, false, [], 0)

  /** fn_onConnect_Handler: credentials in the URL are refused or used at once, otherwise a frame must come. */
  ghost function AfterConnect(m: Mode, st: State, s: SocketId, url: string): State {
    var params := Q.Collect(url, 0, map[]);
    if "f" in params && !m.compat then Joined(st, s, Silent)
    else if "f" in params then Completed(m, Joined(st, s, ByQuery), s, params)
    else Joined(st, s, Waiting)
  }

  /** The frame will not be waited for any more. */
  function Settled(c: Conn): Conn { c.(handler := false, timer := false, pending := false) }

  /** fn_sendAuthAck, and p_ws.close() when the answer is no. */
  function Answered(c: Conn, ok: bool): Conn { c.(acks := c.acks + [ok], closing := c.closing || !ok) }

  function FrameParams(frame: Frame): map<string, string>
    requires frame.Auth?
  {
    (if frame.f.Some? then map["f" := frame.f.value] else map[])
    + (if frame.s.Some? then map["s" := frame.s.value] else map[])
    + (if frame.at.Some? then map["at" := frame.at.value] else map[])
  }

  function HeardMore(c: Conn): Conn { c.(frames := c.frames + 1) }

  /** fn_parseMessage up to the point where a message is handed on: the status record that only an accept
      makes is read first. */
  function Parsed(st: State, s: SocketId, frame: Frame): State
    requires s in st.conns
  {
    var c := st.conns[s];
    var st1 := With(st, s, HeardMore(c));
    if !c.listens || !c.accepted || frame.NotAnObject? then st1 else st1.(routed := st.routed + [Routed(s, c.frames)])
  }

  /** fn_authFrameHandler: an exception while the credentials are looked at is a refusal, too. */
  ghost function AuthHandled(m: Mode, st: State, s: SocketId, frame: Frame): State
    requires s in st.conns && s in st.h.st.sockets
  {
    var c := st.conns[s];
    if !c.pending then With(st, s, Settled(c))
    else if !frame.Auth? || Throws(m, FrameParams(frame)) then With(st, s, Answered(Settled(c), false))
    else
      var st1 := Completed(m, With(st, s, Settled(c)), s, FrameParams(frame));
      With(st1, s, Answered(st1.conns[s], st1.conns[s].accepted))
  }

  ghost function AfterMessage(m: Mode, st: State, s: SocketId, frame: Frame): State
    requires s in st.conns && s in st.h.st.sockets
  {
    var st1 := Parsed(st, s, frame);
    if st.conns[s].handler then AuthHandled(m, st1, s, frame) else st1
  }

  function AfterAuthTimeout(st: State, s: SocketId): State
    requires s in st.conns
  {
    var c := st.conns[s];
    With(st, s, if c.pending then Answered(Settled(c), false) else c.(timer := false))
  }

  function AfterKeyTimeout(st: State, key: string): State {
    var st1 := st.(expiring := st.expiring - {key});
    if key !in st.waiting then st1 else st1.(waiting := st.waiting - {key}, expired := st.expired + {key})
  }

  ghost function Step(m: Mode, st: State, e: Event): State
    requires Enabled(st, e)
  {
    match e
    case Issue(key, request) =>
      st.(waiting := st.waiting[key := request], expiring := st.expiring + {key}, issued := st.issued[key := request])
    case KeyTimeout(key) => AfterKeyTimeout(st, key)
    case Connect(s, url) => AfterConnect(m, st, s, url)
    case Hears(s, frame) => AfterMessage(m, st, s, frame)
    case AuthTimeout(s) => AfterAuthTimeout(st, s)
    case SocketClosed(s) => st.(h := st.h.(st := R.Close(st.h.st, s)))
    case Registry(e) => st.(h := L.Step(st.h, e))
  }

  ghost predicate Run(m: Mode, st: State, es: seq<Event>, st': State)
    decreases |es|
  {
    if es == [] then st == st' else Enabled(st, es[0]) && Run(m, Step(m, st, es[0]), es[1..], st')
  }

  // ----- The invariant

  /** The registry knows the same sockets; those that were accepted are those with a login; and the others
      have not been touched. */
  predicate SocketsOk(conns: map<SocketId, Conn>, sockets: R.Sockets) {
    && conns.Keys == sockets.Keys
    && forall s | s in conns ::
         && (conns[s].accepted <==> sockets[s].login.Some?)
         && (!conns[s].accepted ==> sockets[s].phase != R.Closing && !sockets[s].terminated)
  }

  ghost predicate RegistryOk(conns: map<SocketId, Conn>, reg: R.State) {
    R.Structure(reg) && SocketsOk(conns, reg.sockets)
  }

  /** Until the frame or the timer comes nothing is decided; then exactly one answer was sent, and it says
      whether the socket was accepted; whatever is decided and not accepted is closing. */
  predicate ConnOk(c: Conn) {
    && c.handler == c.pending == c.timer
    && (c.pending ==> c.byFrame && c.acks == [] && !c.accepted && !c.closing && c.frames == 0)
    && (c.byFrame && !c.pending ==> c.acks == [c.accepted])
    && (!c.byFrame ==> c.acks == [])
    && (!c.pending ==> c.closing == !c.accepted)
    && (c.accepted && c.byFrame ==> c.frames > 0)
    && (c.byFrame || c.accepted ==> c.listens)
  }

  predicate ConnsOk(conns: map<SocketId, Conn>) { forall s | s in conns :: ConnOk(conns[s]) }

  function UsedKeys(used: seq<Use>): set<string> { set u | u in used :: u.key }

  /** Every key ever issued is waiting, used or expired, and only one of these; no key and no socket is
      used twice. */
  ghost predicate KeysOk(
      waiting: map<string, Request>, expiring: set<string>, issued: map<string, Request>, used: seq<Use>,
      expired: set<string>)
  {
    && waiting.Keys !! UsedKeys(used) && waiting.Keys !! expired && UsedKeys(used) !! expired
    && waiting.Keys + UsedKeys(used) + expired == issued.Keys
    && (forall key | key in waiting :: key in issued && waiting[key] == issued[key])
    && waiting.Keys <= expiring
    && (forall key | key in waiting :: WellFormed(key))
    && (forall i, j | 0 <= i < j < |used| :: used[i].key != used[j].key && used[i].socket != used[j].socket)
  }

  /** Who used a key was accepted, and where keys are needed nobody else was. */
  ghost predicate UsesOk(m: Mode, conns: map<SocketId, Conn>, used: seq<Use>) {
    && (forall u | u in used :: u.socket in conns && conns[u.socket].accepted && m.local == None)
    && (m.local == None ==> forall s | s in conns && conns[s].accepted :: exists u :: u in used && u.socket == s)
  }

  predicate RoutedOk(conns: map<SocketId, Conn>, routed: seq<Routed>) {
    forall r | r in routed ::
      r.socket in conns && conns[r.socket].accepted && r.nth < conns[r.socket].frames
          && (conns[r.socket].byFrame ==> r.nth > 0)
  }

  ghost predicate Inv(m: Mode, st: State) { R.Structure(st.h.st) && GateInv(m, st) }

  /** All of it but the structure of the registry. */
  ghost predicate GateInv(m: Mode, st: State) {
    && SocketsOk(st.conns, st.h.st.sockets)
    && ConnsOk(st.conns)
    && KeysOk(st.waiting, st.expiring, st.issued, st.used, st.expired)
    && UsesOk(m, st.conns, st.used)
    && RoutedOk(st.conns, st.routed)
  }

  // ----- The registry part

  lemma JoinedSockets(conns: map<SocketId, Conn>, m: R.Sockets, m': R.Sockets,
                      s: SocketId, l: R.Login, gone: set<SocketId>, admitted: bool)
    requires SocketsOk(conns, m) && s in conns && !conns[s].accepted && L.LoginStep(m, m', s, l, gone, admitted)
    ensures SocketsOk(conns[s := conns[s].(accepted := true)], m') && L.LoginsKept(m, m')
  {
  }

  lemma AdmittedRegistry(conns: map<SocketId, Conn>, reg: R.State, s: SocketId, l: R.Login)
    requires RegistryOk(conns, reg) && s in conns && !conns[s].accepted
    ensures RegistryOk(conns[s := conns[s].(accepted := true)], R.Accept(reg, s, l))
    ensures L.LoginsKept(reg.sockets, R.Accept(reg, s, l).sockets)
    ensures R.Accept(reg, s, l).sockets[s].login == Some(l)
  {
    L.AcceptFacts(reg, s, l);
    JoinedSockets(conns, reg.sockets, R.Accept(reg, s, l).sockets, s, l, R.Evicted(reg, l), !R.Shadowed(reg, l));
  }

  lemma ClosedSockets(conns: map<SocketId, Conn>, m: R.Sockets, m': R.Sockets, s: SocketId, gone: set<SocketId>)
    requires SocketsOk(conns, m) && L.CloseStep(m, m', s, gone)
    ensures SocketsOk(conns, m') && L.LoginsKept(m, m')
  {
  }

  lemma ClosedRegistry(conns: map<SocketId, Conn>, reg: R.State, s: SocketId)
    requires RegistryOk(conns, reg) && s in conns
    ensures RegistryOk(conns, R.Close(reg, s)) && L.LoginsKept(reg.sockets, R.Close(reg, s).sockets)
  {
    L.CloseFacts(reg, s);
    ClosedSockets(conns, reg.sockets, R.Close(reg, s).sockets, s, R.ClosedOut(reg, s));
  }

  lemma ThinnedRegistry(conns: map<SocketId, Conn>, reg: R.State, reg': R.State, gone: set<SocketId>)
    requires RegistryOk(conns, reg) && R.Structure(reg') && L.Thinned(reg.sockets, reg'.sockets, gone)
    requires forall x | x in gone :: x in reg.sockets && reg.sockets[x].login.Some?
    ensures RegistryOk(conns, reg') && L.LoginsKept(reg.sockets, reg'.sockets)
  {
  }

  lemma CommandRegistry(st: State, e: L.Event)
    requires RegistryOk(st.conns, st.h.st) && Enabled(st, Registry(e))
    ensures var h' := L.Step(st.h, e);
      RegistryOk(st.conns, h'.st) && L.LoginsKept(st.h.st.sockets, h'.st.sockets)
  {
    var reg := st.h.st;
    match e
    case LogoutCommand(s) =>
      R.LogoutStructure(reg, s);
      R.LogoutSockets(reg, s);
      ThinnedRegistry(st.conns, reg, R.Logout(reg, s), {s});
    case GroupBroadcast(u, from, audience, broken) =>
      var names := R.Failing(reg, u, R.Addressed(reg, u, from, audience), broken);
      R.LoseStructure(reg, u, names);
      var lost := R.Losable(reg, u, names);
      L.LoseThins(reg, u, names);
      L.MembersAreLoggedIn(reg, u, lost);
      ThinnedRegistry(st.conns, reg, R.Lose(reg, u, names), L.SocketsUnder(reg.groups[u], lost));
    case ProxyOn(_) => R.SameRoomsStructure(reg, L.Step(st.h, e).st);
    case ProxyOff(_) => R.SameRoomsStructure(reg, L.Step(st.h, e).st);
  }

  lemma JoinedRegistry(conns: map<SocketId, Conn>, reg: R.State, s: SocketId, c: Conn)
    requires RegistryOk(conns, reg) && s !in conns && !c.accepted
    ensures RegistryOk(conns[s := c], reg.(sockets := reg.sockets[s := L.Fresh]))
  {
    L.ConnectStructure(reg, s);
  }

  // ----- The keys

  /** Whether the credentials are good: on a server that needs no keys always, otherwise the key is waiting. */
  predicate Admits(m: Mode, waiting: map<string, Request>, params: map<string, string>) {
    m.local.Some? || ("f" in params && params["f"] in waiting)
  }

  lemma UseKeepsKeys(st: State, key: string, s: SocketId)
    requires KeysOk(st.waiting, st.expiring, st.issued, st.used, st.expired) && key in st.waiting
    requires forall u | u in st.used :: u.socket != s
    ensures KeysOk(st.waiting - {key}, st.expiring, st.issued, st.used + [Use(key, s)], st.expired)
  {
    var used := st.used + [Use(key, s)];
    assert UsedKeys(used) == UsedKeys(st.used) + {key} by {
      forall u | u in used ensures u.key in UsedKeys(st.used) + {key} {}
      assert used[|st.used|].key == key;
    }
    forall i | 0 <= i < |st.used| ensures st.used[i].key != key {
      assert st.used[i] in st.used && st.used[i].key in UsedKeys(st.used);
    }
  }

  /** What fn_completeConnection does to the socket: accepted or closing, never both, because a key that
      fails the format check is never waiting. */
  lemma CompletedConns(m: Mode, st: State, s: SocketId, params: map<string, string>)
    requires s in st.conns && s in st.h.st.sockets && !st.conns[s].accepted && !st.conns[s].closing
    requires !Throws(m, params)
    requires forall key | key in st.waiting :: WellFormed(key)
    ensures var st', ok := Completed(m, st, s, params), Admits(m, st.waiting, params);
      st'.conns == st.conns[s := st.conns[s].(accepted := ok, closing := !ok)] && st'.routed == st.routed
  {
  }

  lemma UseKeepsUses(m: Mode, conns: map<SocketId, Conn>, used: seq<Use>, s: SocketId, key: string)
    requires UsesOk(m, conns, used) && s in conns && m.local == None
    ensures UsesOk(m, conns[s := conns[s].(accepted := true)], used + [Use(key, s)])
  {
    var used' := used + [Use(key, s)];
    assert used'[|used|] == Use(key, s);
    forall x | x in conns && conns[x].accepted ensures exists u :: u in used' && u.socket == x {
      var u :| u in used && u.socket == x;
      assert u in used';
    }
  }

  /** To the registry it is a login or nothing. */
  lemma CompletedHistory(m: Mode, st: State, s: SocketId, params: map<string, string>) returns (l: R.Login)
    requires s in st.conns && s in st.h.st.sockets && !Throws(m, params)
    ensures Completed(m, st, s, params).h ==
      if Admits(m, st.waiting, params)
      then st.h.(st := R.Accept(st.h.st, s, l), latest := st.h.latest[R.Key(l) := s])
      else st.h
  {
    l := if m.local.Some? then LocalLogin(m.local.value, params)
         else if Admits(m, st.waiting, params) then RequestLogin(st.waiting[params["f"]], params)
         else R.Login(None, "", "", "");
  }

  lemma CompletedRegistry(m: Mode, st: State, s: SocketId, params: map<string, string>)
    requires RegistryOk(st.conns, st.h.st) && s in st.conns && !st.conns[s].accepted && !Throws(m, params)
    ensures var st', ok := Completed(m, st, s, params), Admits(m, st.waiting, params);
      && RegistryOk(st.conns[s := st.conns[s].(accepted := ok)], st'.h.st)
      && L.LoginsKept(st.h.st.sockets, st'.h.st.sockets)
  {
    var l := CompletedHistory(m, st, s, params);
    if Admits(m, st.waiting, params) {
      AdmittedRegistry(st.conns, st.h.st, s, l);
    } else {
      NotAccepted(st.conns, s);
    }
  }

  lemma NotAccepted(conns: map<SocketId, Conn>, s: SocketId)
    requires s in conns && !conns[s].accepted
    ensures conns[s := conns[s].(accepted := false)] == conns
  {
  }

  lemma CompletedKeys(m: Mode, st: State, s: SocketId, params: map<string, string>)
    requires s in st.conns && s in st.h.st.sockets && !st.conns[s].accepted && !Throws(m, params)
    requires KeysOk(st.waiting, st.expiring, st.issued, st.used, st.expired) && UsesOk(m, st.conns, st.used)
    ensures var st', ok := Completed(m, st, s, params), Admits(m, st.waiting, params);
      && KeysOk(st'.waiting, st'.expiring, st'.issued, st'.used, st'.expired)
      && UsesOk(m, st.conns[s := st.conns[s].(accepted := ok)], st'.used)
  {
    var ok := Admits(m, st.waiting, params);
    if m.local == None && ok {
      UseKeepsKeys(st, params["f"], s);
      UseKeepsUses(m, st.conns, st.used, s, params["f"]);
    } else {
      assert !ok ==> st.conns[s := st.conns[s].(accepted := ok)] == st.conns;
    }
  }

  // ----- Every step keeps the invariant

  predicate OnwardConn(c: Conn, c': Conn) {
    c'.accepted == c.accepted && c'.byFrame == c.byFrame && c'.frames >= c.frames
  }

  /** The same sockets, accepted or not as before; each has heard at least as much. */
  predicate Onward(conns: map<SocketId, Conn>, conns': map<SocketId, Conn>) {
    && conns'.Keys == conns.Keys
    && forall s | s in conns :: OnwardConn(conns[s], conns'[s])
  }

  lemma OnwardKeeps(m: Mode, st: State, conns': map<SocketId, Conn>)
    requires GateInv(m, st) && Onward(st.conns, conns')
    ensures SocketsOk(conns', st.h.st.sockets) && UsesOk(m, conns', st.used) && RoutedOk(conns', st.routed)
  {
  }

  lemma OnwardAt(conns: map<SocketId, Conn>, s: SocketId, c: Conn)
    requires s in conns && OnwardConn(conns[s], c)
    ensures Onward(conns, conns[s := c])
  {
  }

  /** A step that decides nothing about a socket's acceptance. */
  lemma ConnKeepsInv(m: Mode, st: State, s: SocketId, c: Conn)
    requires GateInv(m, st) && s in st.conns && ConnOk(c) && OnwardConn(st.conns[s], c)
    ensures GateInv(m, With(st, s, c))
  {
    OnwardAt(st.conns, s, c);
    OnwardKeeps(m, st, st.conns[s := c]);
  }

  lemma HeardMoreOk(c: Conn)
    requires ConnOk(c) && !c.pending
    ensures ConnOk(HeardMore(c)) && OnwardConn(c, HeardMore(c)) && (c.accepted && c.byFrame ==> c.frames > 0)
  {
  }

  /** A message that is handed on. */
  lemma RoutedKeepsInv(m: Mode, st: State, s: SocketId)
    requires GateInv(m, st) && s in st.conns && ConnOk(st.conns[s]) && st.conns[s].accepted && !st.conns[s].pending
    ensures GateInv(m, With(st, s, HeardMore(st.conns[s])).(routed := st.routed + [Routed(s, st.conns[s].frames)]))
  {
    var c := st.conns[s];
    HeardMoreOk(c);
    ConnKeepsInv(m, st, s, HeardMore(c));
    OneMoreRouted(m, With(st, s, HeardMore(c)), Routed(s, c.frames));
  }

  lemma OneMoreRouted(m: Mode, st: State, r: Routed)
    requires GateInv(m, st) && r.socket in st.conns && st.conns[r.socket].accepted && r.nth < st.conns[r.socket].frames
    requires st.conns[r.socket].byFrame ==> r.nth > 0
    ensures GateInv(m, st.(routed := st.routed + [r]))
  {
  }

  /** Handlers and timer are gone, and nothing is decided. */
  predicate Undecided(c: Conn) {
    !c.accepted && !c.closing && !c.handler && !c.pending && !c.timer && c.listens && c.acks == []
        && (c.byFrame ==> c.frames > 0)
  }

  /** Everything is in order but for `s`, which waits for a decision. */
  ghost predicate ReadyFor(m: Mode, st: State, s: SocketId) {
    && s in st.conns && Undecided(st.conns[s])
    && SocketsOk(st.conns, st.h.st.sockets) && UsesOk(m, st.conns, st.used) && RoutedOk(st.conns, st.routed)
    && KeysOk(st.waiting, st.expiring, st.issued, st.used, st.expired)
    && forall x | x in st.conns && x != s :: ConnOk(st.conns[x])
  }

  lemma SameAccepted(
      m: Mode, conns: map<SocketId, Conn>, conns': map<SocketId, Conn>, sockets: R.Sockets, used: seq<Use>)
    requires conns'.Keys == conns.Keys && forall x | x in conns :: conns'[x].accepted == conns[x].accepted
    requires SocketsOk(conns, sockets) && UsesOk(m, conns, used)
    ensures SocketsOk(conns', sockets) && UsesOk(m, conns', used)
  {
  }

  lemma RoutedStays(conns: map<SocketId, Conn>, s: SocketId, c: Conn, routed: seq<Routed>)
    requires RoutedOk(conns, routed) && s in conns && !conns[s].accepted
    ensures RoutedOk(conns[s := c], routed)
  {
  }

  /** Credentials are looked at: the undecided socket `s` is accepted or closing. */
  lemma CompletedKeepsInv(m: Mode, st: State, s: SocketId, params: map<string, string>) returns (c: Conn)
    requires R.Structure(st.h.st) && ReadyFor(m, st, s) && !Throws(m, params)
    ensures var st', ok := Completed(m, st, s, params), Admits(m, st.waiting, params);
      && c == st.conns[s].(accepted := ok, closing := !ok, acks := if st.conns[s].byFrame then [ok] else [])
      && st'.conns == st.conns[s := st.conns[s].(accepted := ok, closing := !ok)]
      && R.Structure(st'.h.st) && GateInv(m, With(st', s, c)) && L.LoginsKept(st.h.st.sockets, st'.h.st.sockets)
  {
    CompletedConns(m, st, s, params);
    CompletedRegistry(m, st, s, params);
    CompletedKeys(m, st, s, params);
    var st', ok := Completed(m, st, s, params), Admits(m, st.waiting, params);
    c := st.conns[s].(accepted := ok, closing := !ok, acks := if st.conns[s].byFrame then [ok] else []);
    CompletedParts(m, st, st', s, ok, c);
  }

  lemma OthersStayOk(conns: map<SocketId, Conn>, s: SocketId, c: Conn)
    requires ConnOk(c) && forall x | x in conns && x != s :: ConnOk(conns[x])
    ensures ConnsOk(conns[s := c])
  {
  }

  lemma CompletedParts(m: Mode, st: State, st': State, s: SocketId, ok: bool, c: Conn)
    requires s in st.conns && !st.conns[s].accepted
        && st'.conns == st.conns[s := st.conns[s].(accepted := ok, closing := !ok)]
    requires c.accepted == ok && ConnOk(c)
    requires SocketsOk(st.conns[s := st.conns[s].(accepted := ok)], st'.h.st.sockets)
    requires UsesOk(m, st.conns[s := st.conns[s].(accepted := ok)], st'.used)
    requires KeysOk(st'.waiting, st'.expiring, st'.issued, st'.used, st'.expired)
    requires RoutedOk(st.conns, st.routed) && st'.routed == st.routed
    requires forall x | x in st.conns && x != s :: ConnOk(st.conns[x])
    ensures GateInv(m, With(st', s, c))
  {
    RoutedStays(st.conns, s, c, st.routed);
    OthersStayOk(st.conns, s, c);
    SameAccepted(m, st.conns[s := st.conns[s].(accepted := ok)], st.conns[s := c], st'.h.st.sockets, st'.used);
    SetTwice(st.conns, s, st.conns[s].(accepted := ok, closing := !ok), c);
    PartsMakeInv(m, With(st', s, c));
  }

  lemma SetTwice(conns: map<SocketId, Conn>, s: SocketId, a: Conn, b: Conn)
    ensures conns[s := a][s := b] == conns[s := b]
  {
  }

  lemma PartsMakeInv(m: Mode, st: State)
    requires SocketsOk(st.conns, st.h.st.sockets) && ConnsOk(st.conns)
    requires KeysOk(st.waiting, st.expiring, st.issued, st.used, st.expired)
    requires UsesOk(m, st.conns, st.used) && RoutedOk(st.conns, st.routed)
    ensures GateInv(m, st)
  {
  }

  lemma WithTwice(st: State, s: SocketId, a: Conn, b: Conn)
    ensures With(With(st, s, a), s, b) == With(st, s, b)
  {
  }

  /** The first message of a socket that waits for its frame, in one piece. */
  lemma FirstFrameShape(m: Mode, st: State, s: SocketId, frame: Frame)
    requires Enabled(st, Hears(s, frame)) && st.conns[s].handler && ConnOk(st.conns[s])
    ensures var c := st.conns[s].(frames := 1);
      AfterMessage(m, st, s, frame) ==
        if !frame.Auth? || Throws(m, FrameParams(frame)) then With(With(st, s, c), s, Answered(Settled(c), false))
        else
          var st1 := Completed(m, With(st, s, Settled(c)), s, FrameParams(frame));
          With(st1, s, Answered(st1.conns[s], st1.conns[s].accepted))
  {
    var c := st.conns[s].(frames := 1);
    WithTwice(st, s, c, Settled(c));
  }

  lemma FirstFrameKeepsInv(m: Mode, st: State, s: SocketId, frame: Frame)
    requires Inv(m, st) && Enabled(st, Hears(s, frame)) && st.conns[s].handler
    ensures Inv(m, AfterMessage(m, st, s, frame))
        && L.LoginsKept(st.h.st.sockets, AfterMessage(m, st, s, frame).h.st.sockets)
  {
    assert ConnOk(st.conns[s]);
    FirstFrameShape(m, st, s, frame);
    var c := st.conns[s].(frames := 1);
    if !frame.Auth? || Throws(m, FrameParams(frame)) {
      RefusedKeepsInv(m, st, s, c);
    } else {
      FrameAcceptKeepsInv(m, st, s, Settled(c), FrameParams(frame));
    }
  }

  lemma FrameAcceptKeepsInv(m: Mode, st: State, s: SocketId, c: Conn, params: map<string, string>)
    requires Inv(m, st) && s in st.conns && !Throws(m, params) && Undecided(c) && c.byFrame
        && Onward(st.conns, st.conns[s := c])
    ensures var st1 := Completed(m, With(st, s, c), s, params);
      var st2 := With(st1, s, Answered(st1.conns[s], st1.conns[s].accepted));
      Inv(m, st2) && L.LoginsKept(st.h.st.sockets, st2.h.st.sockets)
  {
    FrameReady(m, st, s, c);
    var c' := CompletedKeepsInv(m, With(st, s, c), s, params);
    AnswerSays(c, c', Completed(m, With(st, s, c), s, params).conns[s]);
  }

  lemma FrameReady(m: Mode, st: State, s: SocketId, c: Conn)
    requires GateInv(m, st) && s in st.conns && Undecided(c) && Onward(st.conns, st.conns[s := c])
    ensures ReadyFor(m, With(st, s, c), s)
  {
    OnwardKeeps(m, st, st.conns[s := c]);
  }

  lemma AnswerSays(c: Conn, c': Conn, now: Conn)
    requires Undecided(c) && now == c.(accepted := now.accepted, closing := !now.accepted)
    requires c' == now.(acks := [now.accepted])
    ensures Answered(now, now.accepted) == c'
  {
    assert c.acks + [now.accepted] == [now.accepted];
  }

  lemma RefusedKeepsInv(m: Mode, st: State, s: SocketId, c: Conn)
    requires GateInv(m, st) && s in st.conns && st.conns[s].pending && c == st.conns[s].(frames := c.frames)
    ensures GateInv(m, With(st, s, Answered(Settled(c), false)))
    ensures With(With(st, s, c), s, Answered(Settled(c), false)) == With(st, s, Answered(Settled(c), false))
  {
    assert ConnOk(st.conns[s]);
    var c' := Answered(Settled(c), false);
    assert c'.acks == [false];
    ConnKeepsInv(m, st, s, c');
    WithTwice(st, s, c, c');
  }

  /** A message when no frame is waited for. */
  lemma LaterKeepsInv(m: Mode, st: State, s: SocketId, frame: Frame)
    requires GateInv(m, st) && s in st.conns && ConnOk(st.conns[s]) && !st.conns[s].handler
    ensures GateInv(m, Parsed(st, s, frame)) && Parsed(st, s, frame).h == st.h
  {
    var c := st.conns[s];
    if c.accepted && !frame.NotAnObject? {
      RoutedKeepsInv(m, st, s);
      assert Parsed(st, s, frame) == With(st, s, HeardMore(c)).(routed := st.routed + [Routed(s, c.frames)]);
    } else {
      assert Parsed(st, s, frame) == With(st, s, HeardMore(c));
      HeardMoreOk(c);
      ConnKeepsInv(m, st, s, HeardMore(c));
    }
  }

  lemma MessageKeepsInv(m: Mode, st: State, s: SocketId, frame: Frame)
    requires Inv(m, st) && Enabled(st, Hears(s, frame))
    ensures Inv(m, AfterMessage(m, st, s, frame))
    ensures L.LoginsKept(st.h.st.sockets, AfterMessage(m, st, s, frame).h.st.sockets)
  {
    assert ConnOk(st.conns[s]);
    if st.conns[s].handler { FirstFrameKeepsInv(m, st, s, frame); } else { LaterKeepsInv(m, st, s, frame); }
  }

  lemma JoinedConns(m: Mode, st: State, s: SocketId, c: Conn)
    requires UsesOk(m, st.conns, st.used) && RoutedOk(st.conns, st.routed) && s !in st.conns && !c.accepted
    ensures UsesOk(m, st.conns[s := c], st.used) && RoutedOk(st.conns[s := c], st.routed)
  {
  }

  lemma JoinedKeepsInv(m: Mode, st: State, s: SocketId, c: Conn)
    requires Inv(m, st) && s !in st.conns && !c.accepted && ConnOk(c)
    ensures Inv(m, Joined(st, s, c)) && L.LoginsKept(st.h.st.sockets, Joined(st, s, c).h.st.sockets)
  {
    JoinedRegistry(st.conns, st.h.st, s, c);
    JoinedConns(m, st, s, c);
  }

  lemma QueryReady(m: Mode, st: State, s: SocketId)
    requires Inv(m, st) && s !in st.conns
    ensures R.Structure(Joined(st, s, ByQuery).h.st) && ReadyFor(m, Joined(st, s, ByQuery), s)
    ensures L.LoginsKept(st.h.st.sockets, Joined(st, s, ByQuery).h.st.sockets)
  {
    JoinedRegistry(st.conns, st.h.st, s, ByQuery);
    JoinedConns(m, st, s, ByQuery);
  }

  lemma QueryCompletes(m: Mode, st: State, s: SocketId, params: map<string, string>)
    requires R.Structure(st.h.st) && ReadyFor(m, st, s) && !st.conns[s].byFrame && !Throws(m, params)
    ensures Inv(m, Completed(m, st, s, params))
    ensures L.LoginsKept(st.h.st.sockets, Completed(m, st, s, params).h.st.sockets)
  {
    var c := CompletedKeepsInv(m, st, s, params);
    NothingToAnswer(st, Completed(m, st, s, params), s, Admits(m, st.waiting, params), c);
  }

  lemma NothingToAnswer(st: State, st': State, s: SocketId, ok: bool, c: Conn)
    requires s in st.conns && st.conns[s].acks == [] && c == st.conns[s].(accepted := ok, closing := !ok, acks := [])
    requires st'.conns == st.conns[s := st.conns[s].(accepted := ok, closing := !ok)]
    ensures With(st', s, c) == st'
  {
    assert c == st'.conns[s];
    assert st'.conns[s := c] == st'.conns;
  }

  lemma LoginsStayKept(a: R.Sockets, b: R.Sockets, c: R.Sockets)
    requires L.LoginsKept(a, b) && L.LoginsKept(b, c)
    ensures L.LoginsKept(a, c)
  {
  }

  lemma QueryKeepsInv(m: Mode, st: State, s: SocketId, params: map<string, string>)
    requires Inv(m, st) && s !in st.conns && "f" in params
    ensures var st1 := Completed(m, Joined(st, s, ByQuery), s, params);
      Inv(m, st1) && L.LoginsKept(st.h.st.sockets, st1.h.st.sockets)
  {
    var st1 := Joined(st, s, ByQuery);
    QueryReady(m, st, s);
    QueryCompletes(m, st1, s, params);
    LoginsStayKept(st.h.st.sockets, st1.h.st.sockets, Completed(m, st1, s, params).h.st.sockets);
  }

  lemma ConnectKeepsInv(m: Mode, st: State, s: SocketId, url: string)
    requires Inv(m, st) && Enabled(st, Connect(s, url))
    ensures Inv(m, AfterConnect(m, st, s, url))
    ensures L.LoginsKept(st.h.st.sockets, AfterConnect(m, st, s, url).h.st.sockets)
  {
    var params := Q.Collect(url, 0, map[]);
    if "f" in params && m.compat {
      QueryKeepsInv(m, st, s, params);
    } else {
      JoinedKeepsInv(m, st, s, if "f" in params then Silent else Waiting);
    }
  }

  lemma ExpiryKeepsKeys(st: State, key: string)
    requires KeysOk(st.waiting, st.expiring, st.issued, st.used, st.expired)
    ensures var st' := AfterKeyTimeout(st, key); KeysOk(st'.waiting, st'.expiring, st'.issued, st'.used, st'.expired)
  {
  }

  lemma IssueKeepsKeys(st: State, key: string, request: Request)
    requires KeysOk(st.waiting, st.expiring, st.issued, st.used, st.expired) && key !in st.issued && WellFormed(key)
    ensures KeysOk(st.waiting[key := request], st.expiring + {key}, st.issued[key := request], st.used, st.expired)
  {
  }

  lemma StepKeepsInv(m: Mode, st: State, e: Event)
    requires Inv(m, st) && Enabled(st, e)
    ensures Inv(m, Step(m, st, e)) && L.LoginsKept(st.h.st.sockets, Step(m, st, e).h.st.sockets)
  {
    match e
    case Issue(key, request) => IssueKeepsKeys(st, key, request);
    case KeyTimeout(key) => ExpiryKeepsKeys(st, key);
    case Connect(s, url) => ConnectKeepsInv(m, st, s, url);
    case Hears(s, frame) => MessageKeepsInv(m, st, s, frame);
    case AuthTimeout(s) => RefusedKeepsInv(m, st, s, st.conns[s]);
    case SocketClosed(s) => ClosedRegistry(st.conns, st.h.st, s);
    case Registry(c) => CommandRegistry(st, c);
  }

  lemma {:induction false} RunKeepsInv(m: Mode, st: State, es: seq<Event>, st': State)
    requires Inv(m, st) && Run(m, st, es, st')
    ensures Inv(m, st') && L.LoginsKept(st.h.st.sockets, st'.h.st.sockets)
    decreases |es|
  {
    if es != [] {
      var st1 := Step(m, st, es[0]);
      StepKeepsInv(m, st, es[0]);
      RunKeepsInv(m, st1, es[1..], st');
      LoginsStayKept(st.h.st.sockets, st1.h.st.sockets, st'.h.st.sockets);
    }
  }

  lemma InitialInv(m: Mode)
    ensures Inv(m, Initial)
  {
  }

  lemma ReachableInv(m: Mode, es: seq<Event>, st: State)
    requires Run(m, Initial, es, st)
    ensures Inv(m, st)
  {
    InitialInv(m);
    RunKeepsInv(m, Initial, es, st);
  }

  // ----- What holds in every run

  /** The issued keys are split into the waiting, the used and the expired ones; each key lets in at most
      one socket and each socket gets in by at most one key, by exactly one where keys are needed. */
  lemma KeysArePartitioned(m: Mode, es: seq<Event>, st: State)
    requires Run(m, Initial, es, st)
    ensures st.issued.Keys == st.waiting.Keys + UsedKeys(st.used) + st.expired
    ensures st.waiting.Keys !! UsedKeys(st.used) && st.waiting.Keys !! st.expired && UsedKeys(st.used) !! st.expired
    ensures forall u, v | u in st.used && v in st.used && (u.key == v.key || u.socket == v.socket) :: u == v
    ensures m.local == None ==> forall s | s in st.conns ::
        st.conns[s].accepted <==> exists u :: u in st.used && u.socket == s
  {
    ReachableInv(m, es, st);
    forall u, v | u in st.used && v in st.used && (u.key == v.key || u.socket == v.socket) ensures u == v {
      var i :| 0 <= i < |st.used| && st.used[i] == u;
      var j :| 0 <= j < |st.used| && st.used[j] == v;
    }
  }

  predicate WasIssued(es: seq<Event>, key: string) { exists e :: e in es && e.Issue? && e.key == key }

  /** What the events so far say of one key. */
  ghost predicate KeyOk(es: seq<Event>, st: State, key: string) {
    && (key in st.issued <==> WasIssued(es, key))
    && (forall e | e in es && e.Issue? && e.key == key :: key in st.issued && st.issued[key] == e.request)
    && (key in st.expiring ==> key in st.issued)
    && (KeyTimeout(key) in es ==> key in st.issued && key !in st.expiring)
    && (key in st.expired ==> KeyTimeout(key) in es)
  }

  predicate SameTimes(st: State, st': State) {
    st'.issued == st.issued && st'.expiring == st.expiring && st'.expired == st.expired
  }

  lemma CompletedKeepsTimes(m: Mode, st: State, s: SocketId, params: map<string, string>)
    requires s in st.conns && s in st.h.st.sockets && !Throws(m, params)
    ensures SameTimes(st, Completed(m, st, s, params))
  {
  }

  lemma AuthKeepsTimes(m: Mode, st: State, s: SocketId, frame: Frame)
    requires s in st.conns && s in st.h.st.sockets
    ensures SameTimes(st, AuthHandled(m, st, s, frame))
  {
    if st.conns[s].pending && frame.Auth? && !Throws(m, FrameParams(frame)) {
      CompletedKeepsTimes(m, With(st, s, Settled(st.conns[s])), s, FrameParams(frame));
    }
  }

  lemma MessageKeepsTimes(m: Mode, st: State, s: SocketId, frame: Frame)
    requires s in st.conns && s in st.h.st.sockets
    ensures SameTimes(st, AfterMessage(m, st, s, frame))
  {
    AuthKeepsTimes(m, Parsed(st, s, frame), s, frame);
  }

  lemma ConnectKeepsTimes(m: Mode, st: State, s: SocketId, url: string)
    ensures SameTimes(st, AfterConnect(m, st, s, url))
  {
  }

  /** Only its issue and its timer change what is known of a key's time. */
  lemma KeysStay(m: Mode, st: State, e: Event)
    requires Enabled(st, e) && !e.Issue? && !e.KeyTimeout?
    ensures SameTimes(st, Step(m, st, e))
  {
    match e
    case Hears(s, frame) => MessageKeepsTimes(m, st, s, frame);
    case Connect(s, url) => ConnectKeepsTimes(m, st, s, url);
    case AuthTimeout(_) =>
    case SocketClosed(_) =>
    case Registry(_) =>
  }

  lemma StepKeepsKey(m: Mode, es: seq<Event>, st: State, e: Event, key: string)
    requires Inv(m, st) && Enabled(st, e) && KeyOk(es, st, key)
    ensures KeyOk(es + [e], Step(m, st, e), key)
  {
    forall x ensures x in es + [e] <==> x in es || x == e {}
    if !e.Issue? && !e.KeyTimeout? { KeysStay(m, st, e); }
  }

  lemma {:induction false} RunKeepsKey(m: Mode, done: seq<Event>, st: State, es: seq<Event>, st': State, key: string)
    requires Inv(m, st) && Run(m, st, es, st') && KeyOk(done, st, key)
    ensures KeyOk(done + es, st', key)
    decreases |es|
  {
    if es == [] {
      assert done + es == done;
    } else {
      StepKeepsInv(m, st, es[0]);
      StepKeepsKey(m, done, st, es[0], key);
      RunKeepsKey(m, done + [es[0]], Step(m, st, es[0]), es[1..], st', key);
      assert done + [es[0]] + es[1..] == done + es;
    }
  }

  /** In every run: a key is waiting IF AND ONLY IF it was issued, its timer has not fired and nobody has got in
      by it; and then for exactly the request with which it was issued. */
  lemma KeyWaitsIff(m: Mode, es: seq<Event>, st: State, key: string)
    requires Run(m, Initial, es, st)
    ensures key in st.waiting <==> WasIssued(es, key) && KeyTimeout(key) !in es && key !in UsedKeys(st.used)
    ensures forall request | Issue(key, request) in es && key in st.waiting :: st.waiting[key] == request
  {
    InitialInv(m);
    ReachableInv(m, es, st);
    RunKeepsKey(m, [], Initial, es, st, key);
    assert [] + es == es;
  }

  /** The login is what the authentication server asked for. */
  predicate Grants(request: Request, l: R.Login) {
    l.account == request.account && l.group == request.group && l.actor == request.actor
  }

  predicate GrantsOk(issued: map<string, Request>, used: seq<Use>, sockets: R.Sockets) {
    forall u | u in used ::
      && u.key in issued && u.socket in sockets && sockets[u.socket].login.Some?
      && Grants(issued[u.key], sockets[u.socket].login.value)
  }

  lemma KeptGrants(issued: map<string, Request>, issued': map<string, Request>, used: seq<Use>,
                   sockets: R.Sockets, sockets': R.Sockets)
    requires GrantsOk(issued, used, sockets) && L.LoginsKept(sockets, sockets')
    requires forall key | key in issued :: key in issued' && issued'[key] == issued[key]
    ensures GrantsOk(issued', used, sockets')
  {
  }

  /** A look at credentials uses a key for the login it stands for, or none. */
  lemma CompletedGrants(m: Mode, st: State, s: SocketId, params: map<string, string>)
    requires RegistryOk(st.conns, st.h.st) && s in st.conns && !st.conns[s].accepted && !Throws(m, params)
    requires forall key | key in st.waiting :: key in st.issued && st.issued[key] == st.waiting[key]
    requires GrantsOk(st.issued, st.used, st.h.st.sockets)
    ensures var st' := Completed(m, st, s, params); GrantsOk(st'.issued, st'.used, st'.h.st.sockets)
  {
    var st' := Completed(m, st, s, params);
    CompletedRegistry(m, st, s, params);
    KeptGrants(st.issued, st'.issued, st.used, st.h.st.sockets, st'.h.st.sockets);
    if m.local == None && Admits(m, st.waiting, params) {
      var request := st.waiting[params["f"]];
      AdmittedRegistry(st.conns, st.h.st, s, RequestLogin(request, params));
      OneMoreGrant(st'.issued, st.used, Use(params["f"], s), st'.h.st.sockets);
      assert st'.used == st.used + [Use(params["f"], s)];
    }
  }

  lemma OneMoreGrant(issued: map<string, Request>, used: seq<Use>, u: Use, sockets: R.Sockets)
    requires GrantsOk(issued, used, sockets) && u.key in issued && u.socket in sockets
    requires sockets[u.socket].login.Some? && Grants(issued[u.key], sockets[u.socket].login.value)
    ensures GrantsOk(issued, used + [u], sockets)
  {
  }

  lemma WaitingSocket(m: Mode, st: State, s: SocketId, c: Conn)
    requires Inv(m, st) && s in st.conns && st.conns[s].handler && st.h.st.sockets[s].phase != R.Closed && !c.accepted
    ensures RegistryOk(st.conns[s := c], st.h.st) && st.h.st.sockets[s].phase == R.Open
  {
    assert ConnOk(st.conns[s]);
  }

  lemma FrameGrants(m: Mode, st: State, s: SocketId, frame: Frame)
    requires Inv(m, st) && Enabled(st, Hears(s, frame)) && GrantsOk(st.issued, st.used, st.h.st.sockets)
    ensures var st' := AfterMessage(m, st, s, frame); GrantsOk(st'.issued, st'.used, st'.h.st.sockets)
  {
    assert ConnOk(st.conns[s]);
    if st.conns[s].handler {
      FirstFrameShape(m, st, s, frame);
      var c := Settled(st.conns[s].(frames := 1));
      WaitingSocket(m, st, s, c);
      if frame.Auth? && !Throws(m, FrameParams(frame)) { CompletedGrants(m, With(st, s, c), s, FrameParams(frame)); }
    }
  }

  lemma ConnectGrants(m: Mode, st: State, s: SocketId, url: string)
    requires Inv(m, st) && s !in st.conns && GrantsOk(st.issued, st.used, st.h.st.sockets)
    ensures var st' := AfterConnect(m, st, s, url); GrantsOk(st'.issued, st'.used, st'.h.st.sockets)
  {
    var st1, params := Joined(st, s, ByQuery), Q.Collect(url, 0, map[]);
    QueryReady(m, st, s);
    KeptGrants(st.issued, st.issued, st.used, st.h.st.sockets, st1.h.st.sockets);
    if "f" in params && m.compat { CompletedGrants(m, st1, s, params); }
  }

  lemma StepGrants(m: Mode, st: State, e: Event)
    requires Inv(m, st) && Enabled(st, e) && GrantsOk(st.issued, st.used, st.h.st.sockets)
    ensures var st' := Step(m, st, e); GrantsOk(st'.issued, st'.used, st'.h.st.sockets)
  {
    match e
    case Connect(s, url) => ConnectGrants(m, st, s, url);
    case Hears(s, frame) => FrameGrants(m, st, s, frame);
    case SocketClosed(s) => ClosedRegistry(st.conns, st.h.st, s);
    case Registry(c) => CommandRegistry(st, c);
    case Issue(_, _) =>
    case KeyTimeout(_) =>
    case AuthTimeout(_) =>
  }

  lemma {:induction false} RunGrants(m: Mode, st: State, es: seq<Event>, st': State)
    requires Inv(m, st) && Run(m, st, es, st') && GrantsOk(st.issued, st.used, st.h.st.sockets)
    ensures GrantsOk(st'.issued, st'.used, st'.h.st.sockets)
    decreases |es|
  {
    if es != [] {
      StepKeepsInv(m, st, es[0]);
      StepGrants(m, st, es[0]);
      RunGrants(m, Step(m, st, es[0]), es[1..], st');
    }
  }

  /** In every run: who got in by a key is logged in under exactly the account, group and actor type that
      the authentication server gave with that key. */
  lemma KeysGrantWhatWasAsked(m: Mode, es: seq<Event>, st: State)
    requires Run(m, Initial, es, st)
    ensures forall u | u in st.used ::
              && u.key in st.issued && u.socket in st.h.st.sockets && st.h.st.sockets[u.socket].login.Some?
              && Grants(st.issued[u.key], st.h.st.sockets[u.socket].login.value)
  {
    InitialInv(m);
    RunGrants(m, Initial, es, st);
  }

  /** A socket that must log in by frame has exactly one answer as soon as the frame or the timer has come
      - whichever came first - and none before; the answer is yes if and only if it was accepted; and a
      socket that is decided on is closing if and only if it was not accepted. */
  lemma OneAnswer(m: Mode, es: seq<Event>, st: State, s: SocketId)
    requires Run(m, Initial, es, st) && s in st.conns
    ensures var c := st.conns[s];
      && (c.byFrame ==> c.acks == if c.pending then [] else [c.accepted])
      && (!c.byFrame ==> c.acks == [])
      && (!c.pending ==> (c.closing <==> !c.accepted))
  {
    ReachableInv(m, es, st);
    assert ConnOk(st.conns[s]);
  }

  /** Whatever was handed on to plugins, rooms or relay came from an accepted socket, and from one that
      logs in by frame not its first message. */
  lemma OnlyAcceptedAreRouted(m: Mode, es: seq<Event>, st: State)
    requires Run(m, Initial, es, st)
    ensures forall r | r in st.routed ::
              r.socket in st.conns && st.conns[r.socket].accepted && (st.conns[r.socket].byFrame ==> r.nth > 0)
  {
    ReachableInv(m, es, st);
  }

  // ----- Everything that is handed on

  /** The messages of a socket, in the order of the run. */
  function Talk(es: seq<Event>, s: SocketId): seq<Frame> {
    if es == [] then []
    else
      var (before, e) := (Talk(es[..|es| - 1], s), es[|es| - 1]);
      if e.Hears? && e.s == s then before + [e.frame] else before
  }

  /** The socket connected without a key in its URL. */
  predicate AwaitsFrame(es: seq<Event>, s: SocketId) {
    exists e :: e in es && e.Connect? && e.s == s && "f" !in Q.Collect(e.url, 0, map[])
  }

  /** The numbers, from `from` on, of the messages that are JSON objects. */
  function Objects(frames: seq<Frame>, from: nat): seq<nat> {
    if frames == [] then []
    else
      var n := |frames| - 1;
      Objects(frames[..n], from) + if from <= n && !frames[n].NotAnObject? then [n] else []
  }

  /** What was handed on of one socket, in order. */
  function RoutedOf(routed: seq<Routed>, s: SocketId): seq<nat> {
    if routed == [] then []
    else
      var r := routed[|routed| - 1];
      RoutedOf(routed[..|routed| - 1], s) + if r.socket == s then [r.nth] else []
  }

  ghost predicate TalkOk(es: seq<Event>, conns: map<SocketId, Conn>, routed: seq<Routed>, s: SocketId) {
    if s in conns then
      && conns[s].frames == |Talk(es, s)| && (conns[s].byFrame <==> AwaitsFrame(es, s))
      && RoutedOf(routed, s) ==
           if conns[s].accepted then Objects(Talk(es, s), if conns[s].byFrame then 1 else 0) else []
    else Talk(es, s) == [] && RoutedOf(routed, s) == [] && !AwaitsFrame(es, s)
  }

  lemma OneMoreEvent(es: seq<Event>, e: Event, s: SocketId)
    ensures Talk(es + [e], s) == if e.Hears? && e.s == s then Talk(es, s) + [e.frame] else Talk(es, s)
    ensures AwaitsFrame(es + [e], s) <==>
      AwaitsFrame(es, s) || (e.Connect? && e.s == s && "f" !in Q.Collect(e.url, 0, map[]))
  {
    assert (es + [e])[..|es|] == es;
    forall x ensures x in es + [e] <==> x in es || x == e {}
  }

  lemma OneMoreOf(routed: seq<Routed>, r: Routed, s: SocketId)
    ensures RoutedOf(routed + [r], s) == RoutedOf(routed, s) + if r.socket == s then [r.nth] else []
  {
    assert (routed + [r])[..|routed|] == routed;
  }

  lemma OneMoreObject(frames: seq<Frame>, frame: Frame, from: nat)
    ensures Objects(frames + [frame], from) ==
      Objects(frames, from) + if from <= |frames| && !frame.NotAnObject? then [|frames|] else []
  {
    assert (frames + [frame])[..|frames|] == frames;
  }

  lemma {:induction false} NoObjects(frames: seq<Frame>, from: nat)
    requires |frames| <= from
    ensures Objects(frames, from) == []
  {
    if frames != [] { NoObjects(frames[..|frames| - 1], from); }
  }

  /** Only the record of `s` differs. */
  predicate OneRecord(conns: map<SocketId, Conn>, conns': map<SocketId, Conn>, s: SocketId) {
    s in conns' && conns' == conns[s := conns'[s]]
  }

  lemma FirstMessageShape(m: Mode, st: State, s: SocketId, frame: Frame)
    requires GateInv(m, st) && Enabled(st, Hears(s, frame)) && st.conns[s].handler
    ensures var st' := AfterMessage(m, st, s, frame);
      && OneRecord(st.conns, st'.conns, s) && st'.routed == st.routed
      && st'.conns[s].frames == 1 && st'.conns[s].byFrame
  {
    assert ConnOk(st.conns[s]);
    FirstFrameShape(m, st, s, frame);
    var c := Settled(st.conns[s].(frames := 1));
    if frame.Auth? && !Throws(m, FrameParams(frame)) {
      CompletedConns(m, With(st, s, c), s, FrameParams(frame));
    }
  }

  lemma LaterMessageShape(st: State, s: SocketId, frame: Frame)
    requires s in st.conns && ConnOk(st.conns[s])
    ensures var (st', c) := (Parsed(st, s, frame), st.conns[s]);
      && st'.conns == st.conns[s := HeardMore(c)]
      && st'.routed == st.routed + if c.accepted && !frame.NotAnObject? then [Routed(s, c.frames)] else []
  {
    assert st.routed + [] == st.routed;
  }

  /** What a message does to the record of its socket, and whether it is handed on. */
  lemma MessageShape(m: Mode, st: State, s: SocketId, frame: Frame)
    requires GateInv(m, st) && Enabled(st, Hears(s, frame))
    ensures var (st', c) := (AfterMessage(m, st, s, frame), st.conns[s]);
      && OneRecord(st.conns, st'.conns, s)
      && st'.conns[s].frames == c.frames + 1 && st'.conns[s].byFrame == c.byFrame
      && (if c.pending then c.byFrame && c.frames == 0 && !c.accepted else st'.conns[s].accepted == c.accepted)
      && st'.routed == st.routed + (if c.accepted && !frame.NotAnObject? then [Routed(s, c.frames)] else [])
  {
    assert ConnOk(st.conns[s]);
    if st.conns[s].handler {
      FirstMessageShape(m, st, s, frame);
      assert st.routed + [] == st.routed;
    } else {
      LaterMessageShape(st, s, frame);
    }
  }

  lemma OwnMessageTalks(frames: seq<Frame>, frame: Frame, c: Conn, c': Conn, routed: seq<Routed>, s: SocketId)
    requires c.frames == |frames| && c'.byFrame == c.byFrame && (c.accepted && c.byFrame ==> c.frames > 0)
    requires if c.pending then c.byFrame && c.frames == 0 && !c.accepted else c'.accepted == c.accepted
    requires RoutedOf(routed, s) == if c.accepted then Objects(frames, if c.byFrame then 1 else 0) else []
    ensures var handedOn := if c.accepted && !frame.NotAnObject? then [Routed(s, c.frames)] else [];
      RoutedOf(routed + handedOn, s)
        == if c'.accepted then Objects(frames + [frame], if c'.byFrame then 1 else 0) else []
  {
    OneMoreObject(frames, frame, if c.byFrame then 1 else 0);
    if c.pending { NoObjects(frames + [frame], 1); }
    if c.accepted && !frame.NotAnObject? {
      OneMoreOf(routed, Routed(s, c.frames), s);
    } else {
      assert routed + [] == routed;
    }
  }

  lemma OthersMessageTalks(routed: seq<Routed>, r: Routed, handedOn: bool, s: SocketId)
    requires r.socket != s
    ensures RoutedOf(routed + if handedOn then [r] else [], s) == RoutedOf(routed, s)
  {
    OneMoreOf(routed, r, s);
    assert routed + [] == routed;
  }

  lemma SelfTalks(es: seq<Event>, m: Mode, st: State, frame: Frame, s: SocketId)
    requires GateInv(m, st) && Enabled(st, Hears(s, frame)) && TalkOk(es, st.conns, st.routed, s)
    ensures var st' := AfterMessage(m, st, s, frame); TalkOk(es + [Hears(s, frame)], st'.conns, st'.routed, s)
  {
    MessageShape(m, st, s, frame);
    OneMoreEvent(es, Hears(s, frame), s);
    assert ConnOk(st.conns[s]);
    OwnMessageTalks(Talk(es, s), frame, st.conns[s], AfterMessage(m, st, s, frame).conns[s], st.routed, s);
  }

  lemma OtherTalks(es: seq<Event>, m: Mode, st: State, x: SocketId, frame: Frame, s: SocketId)
    requires GateInv(m, st) && Enabled(st, Hears(x, frame)) && TalkOk(es, st.conns, st.routed, s) && x != s
    ensures var st' := AfterMessage(m, st, x, frame); TalkOk(es + [Hears(x, frame)], st'.conns, st'.routed, s)
  {
    var c := st.conns[x];
    MessageShape(m, st, x, frame);
    OneMoreEvent(es, Hears(x, frame), s);
    OthersMessageTalks(st.routed, Routed(x, c.frames), c.accepted && !frame.NotAnObject?, s);
  }

  lemma ByQueryShape(m: Mode, st: State, s: SocketId, params: map<string, string>)
    requires GateInv(m, st) && s !in st.conns && "f" in params
    ensures var st' := Completed(m, Joined(st, s, ByQuery), s, params);
      && OneRecord(st.conns, st'.conns, s) && st'.routed == st.routed
      && st'.conns[s].frames == 0 && !st'.conns[s].byFrame
  {
    CompletedConns(m, Joined(st, s, ByQuery), s, params);
    SetTwice(st.conns, s, ByQuery, Completed(m, Joined(st, s, ByQuery), s, params).conns[s]);
  }

  /** A connect makes one new record, with no message heard and none handed on. */
  lemma ConnectShape(m: Mode, st: State, s: SocketId, url: string)
    requires GateInv(m, st) && Enabled(st, Connect(s, url))
    ensures var st' := AfterConnect(m, st, s, url);
      && OneRecord(st.conns, st'.conns, s) && st'.routed == st.routed
      && st'.conns[s].frames == 0 && (st'.conns[s].byFrame <==> "f" !in Q.Collect(url, 0, map[]))
  {
    var params := Q.Collect(url, 0, map[]);
    if "f" in params && m.compat { ByQueryShape(m, st, s, params); }
  }

  lemma ConnectTalks(es: seq<Event>, m: Mode, st: State, x: SocketId, url: string, s: SocketId)
    requires GateInv(m, st) && Enabled(st, Connect(x, url)) && TalkOk(es, st.conns, st.routed, s)
    ensures var st' := AfterConnect(m, st, x, url); TalkOk(es + [Connect(x, url)], st'.conns, st'.routed, s)
  {
    ConnectShape(m, st, x, url);
    OneMoreEvent(es, Connect(x, url), s);
  }

  lemma StepTalks(es: seq<Event>, m: Mode, st: State, e: Event, s: SocketId)
    requires GateInv(m, st) && Enabled(st, e) && TalkOk(es, st.conns, st.routed, s)
    ensures var st' := Step(m, st, e); TalkOk(es + [e], st'.conns, st'.routed, s)
  {
    match e
    case Hears(x, frame) =>
      if x == s { SelfTalks(es, m, st, frame, s); } else { OtherTalks(es, m, st, x, frame, s); }
    case Connect(x, url) => ConnectTalks(es, m, st, x, url, s);
    case _ => OneMoreEvent(es, e, s);
  }

  lemma {:induction false} RunTalks(done: seq<Event>, m: Mode, st: State, es: seq<Event>, st': State, s: SocketId)
    requires Inv(m, st) && Run(m, st, es, st') && TalkOk(done, st.conns, st.routed, s)
    ensures TalkOk(done + es, st'.conns, st'.routed, s)
    decreases |es|
  {
    if es == [] {
      assert done + es == done;
    } else {
      StepKeepsInv(m, st, es[0]);
      StepTalks(done, m, st, es[0], s);
      RunTalks(done + [es[0]], m, Step(m, st, es[0]), es[1..], st', s);
      assert done + [es[0]] + es[1..] == done + es;
    }
  }

  /** In every run: of an accepted socket exactly the messages that are JSON objects are handed on, each once
      and in order - all of them if it came with a key in its URL, all but the first, which is its frame, if
      not; and of any other socket none. */
  lemma RoutedIsAllThatAcceptedSay(m: Mode, es: seq<Event>, st: State, s: SocketId)
    requires Run(m, Initial, es, st) && s in st.conns
    ensures RoutedOf(st.routed, s) ==
      if st.conns[s].accepted then Objects(Talk(es, s), if AwaitsFrame(es, s) then 1 else 0) else []
  {
    InitialInv(m);
    RunTalks([], m, Initial, es, st, s);
    assert [] + es == es;
  }

  // ----- Who gets in

  /** Good credentials have let the socket in: the registry has accepted the login, and where keys are needed
      this one is used up.  The sender id is the client's, the rest that of the key; on a server that needs no
      keys the client may name its actor type. */
  ghost predicate LetIn(
      m: Mode, st: State, st': State, s: SocketId, key: string, sender: Option<string>, actor: Option<string>)
    requires s in st.h.st.sockets
  {
    match m.local
    case Some(account) =>
      var l := R.Login(sender, account, "1", if actor.Some? then actor.value else "a");
      st'.h.st == R.Accept(st.h.st, s, l) && st'.waiting == st.waiting && st'.used == st.used
    case None =>
      && key in st.waiting
      && (var l := R.Login(sender, st.waiting[key].account, st.waiting[key].group, st.waiting[key].actor);
          st'.h.st == R.Accept(st.h.st, s, l))
      && st'.waiting == st.waiting - {key} && st'.used == st.used + [Use(key, s)]
  }

  function Field(params: map<string, string>, name: string): Option<string> {
    if name in params then Some(params[name]) else None
  }

  ghost predicate NobodyIn(st: State, st': State) {
    st'.h.st == st.h.st && st'.waiting == st.waiting && st'.used == st.used
  }

  lemma CompletedLetsIn(m: Mode, st: State, s: SocketId, params: map<string, string>)
    requires s in st.conns && s in st.h.st.sockets && !Throws(m, params)
    ensures var st' := Completed(m, st, s, params);
      if Admits(m, st.waiting, params) then LetIn(m, st, st', s, params["f"], Field(params, "s"), Field(params, "at"))
      else NobodyIn(st, st')
  {
  }

  /** Who gets in by a frame, in every reachable state: the first message decides, exactly once, and lets the
      socket in IF AND ONLY IF it is a de_auth frame with a key and the key is waiting or none are needed. */
  lemma FrameDecides(m: Mode, es: seq<Event>, st: State, s: SocketId, frame: Frame)
    requires Run(m, Initial, es, st) && Enabled(st, Hears(s, frame)) && st.conns[s].pending
    ensures var st' := Step(m, st, Hears(s, frame));
      var ok := frame.Auth? && frame.f.Some? && (m.local.Some? || frame.f.value in st.waiting);
      && s in st'.conns && st'.conns[s] == Conn(true, true, false, false, false, ok, !ok, [ok], 1)
      && if ok then LetIn(m, st, st', s, frame.f.value, frame.s, frame.at) else NobodyIn(st, st')
  {
    ReachableInv(m, es, st);
    FrameActs(m, st, s, frame);
  }

  lemma FrameActs(m: Mode, st: State, s: SocketId, frame: Frame)
    requires GateInv(m, st) && Enabled(st, Hears(s, frame)) && st.conns[s].pending
    ensures var st' := AfterMessage(m, st, s, frame);
      var ok := frame.Auth? && frame.f.Some? && (m.local.Some? || frame.f.value in st.waiting);
      && s in st'.conns && st'.conns[s] == Conn(true, true, false, false, false, ok, !ok, [ok], 1)
      && if ok then LetIn(m, st, st', s, frame.f.value, frame.s, frame.at) else NobodyIn(st, st')
  {
    assert ConnOk(st.conns[s]);
    FirstFrameShape(m, st, s, frame);
    var c := Settled(st.conns[s].(frames := 1));
    assert c == Conn(true, true, false, false, false, false, false, [], 1);
    if frame.Auth? && !Throws(m, FrameParams(frame)) {
      FrameCompletes(m, st, s, c, frame);
    } else {
      AnswerOf(c, false);
    }
  }

  lemma AnswerOf(c: Conn, ok: bool)
    requires c.acks == []
    ensures Answered(c, ok) == c.(acks := [ok], closing := c.closing || !ok)
  {
    assert [] + [ok] == [ok];
  }

  lemma FrameFields(frame: Frame)
    requires frame.Auth?
    ensures var params := FrameParams(frame);
      Field(params, "f") == frame.f && Field(params, "s") == frame.s && Field(params, "at") == frame.at
  {
  }

  lemma FrameCompletes(m: Mode, st: State, s: SocketId, c: Conn, frame: Frame)
    requires s in st.conns && s in st.h.st.sockets && !c.accepted && !c.closing && c.acks == []
    requires frame.Auth? && !Throws(m, FrameParams(frame)) && forall key | key in st.waiting :: WellFormed(key)
    ensures var st1 := Completed(m, With(st, s, c), s, FrameParams(frame));
      var ok := frame.f.Some? && (m.local.Some? || frame.f.value in st.waiting);
      && s in st1.conns && st1.conns[s].accepted == ok
      && Answered(st1.conns[s], ok) == c.(accepted := ok, closing := !ok, acks := [ok])
      && if ok then LetIn(m, st, st1, s, frame.f.value, frame.s, frame.at) else NobodyIn(st, st1)
  {
    FrameFields(frame);
    CompletedConns(m, With(st, s, c), s, FrameParams(frame));
    CompletedLetsIn(m, With(st, s, c), s, FrameParams(frame));
    AnswerOf(Completed(m, With(st, s, c), s, FrameParams(frame)).conns[s], Admits(m, st.waiting, FrameParams(frame)));
  }

  /** And by the URL: without a key there the socket waits for its frame; with one it is refused at once where
      that is no longer allowed, and otherwise let in IF AND ONLY IF the key is waiting or none are needed. */
  lemma UrlDecides(m: Mode, es: seq<Event>, st: State, s: SocketId, url: string)
    requires Run(m, Initial, es, st) && Enabled(st, Connect(s, url))
    ensures var (st', params) := (Step(m, st, Connect(s, url)), Q.Collect(url, 0, map[]));
      var st1 := st.(h := st.h.(st := st.h.st.(sockets := st.h.st.sockets[s := L.Fresh])));
      && s in st'.conns
      && if "f" !in params then
           st'.conns[s] == Conn(true, true, true, true, true, false, false, [], 0) && NobodyIn(st1, st')
         else if !m.compat then
           st'.conns[s] == Conn(false, false, false, false, false, false, true, [], 0) && NobodyIn(st1, st')
         else
           var ok := m.local.Some? || params["f"] in st.waiting;
           && st'.conns[s] == Conn(true, false, false, false, false, ok, !ok, [], 0)
           && if ok then LetIn(m, st1, st', s, params["f"], Field(params, "s"), Field(params, "at"))
              else NobodyIn(st1, st')
  {
    ReachableInv(m, es, st);
    var params := Q.Collect(url, 0, map[]);
    if "f" in params && m.compat {
      CompletedConns(m, Joined(st, s, ByQuery), s, params);
      CompletedLetsIn(m, Joined(st, s, ByQuery), s, params);
    }
  }

  /** The timer refuses a socket whose frame has not come, and does nothing else. */
  lemma TimerRefuses(m: Mode, es: seq<Event>, st: State, s: SocketId)
    requires Run(m, Initial, es, st) && Enabled(st, AuthTimeout(s))
    ensures Step(m, st, AuthTimeout(s)) ==
      st.(conns := st.conns[s := Conn(true, true, false, false, false, false, true, [false], 0)])
  {
    ReachableInv(m, es, st);
    assert ConnOk(st.conns[s]);
    assert [] + [false] == [false];
  }

  lemma MessageDecidesOnce(m: Mode, st: State, x: SocketId, frame: Frame, s: SocketId)
    requires GateInv(m, st) && Enabled(st, Hears(x, frame)) && s in st.conns && !st.conns[s].pending
    ensures var st' := AfterMessage(m, st, x, frame);
      s in st'.conns && !st'.conns[s].pending && st'.conns[s].accepted == st.conns[s].accepted
  {
    assert ConnOk(st.conns[x]);
    if x != s && st.conns[x].handler {
      FirstFrameShape(m, st, x, frame);
      var c := Settled(st.conns[x].(frames := 1));
      if frame.Auth? && !Throws(m, FrameParams(frame)) { CompletedConns(m, With(st, x, c), x, FrameParams(frame)); }
    }
  }

  lemma StepDecidesOnce(m: Mode, st: State, e: Event, s: SocketId)
    requires Inv(m, st) && Enabled(st, e) && s in st.conns && !st.conns[s].pending
    ensures var st' := Step(m, st, e);
      s in st'.conns && !st'.conns[s].pending && st'.conns[s].accepted == st.conns[s].accepted
  {
    match e
    case Hears(x, frame) => MessageDecidesOnce(m, st, x, frame, s);
    case Connect(x, url) =>
      var params := Q.Collect(url, 0, map[]);
      if "f" in params && m.compat { CompletedConns(m, Joined(st, x, ByQuery), x, params); }
    case Issue(_, _) =>
    case KeyTimeout(_) =>
    case AuthTimeout(_) =>
    case SocketClosed(_) =>
    case Registry(_) =>
  }

  /** A decision is final: a socket refused, by its frame or by the timer, is never accepted later, and no
      messages of it are ever handed on. */
  lemma {:induction false} DecisionIsFinal(m: Mode, st: State, es: seq<Event>, st': State, s: SocketId)
    requires Inv(m, st) && Run(m, st, es, st') && s in st.conns && !st.conns[s].pending
    ensures s in st'.conns && st'.conns[s].accepted == st.conns[s].accepted
    ensures !st.conns[s].accepted ==> forall r | r in st'.routed :: r.socket != s
    decreases |es|
  {
    if es != [] {
      StepKeepsInv(m, st, es[0]);
      StepDecidesOnce(m, st, es[0], s);
      DecisionIsFinal(m, Step(m, st, es[0]), es[1..], st', s);
    }
  }

  // ----- Two ways to log in

  function Lookup(ps: seq<Q.Pair>, key: string): Option<string> {
    if ps == [] then None else if ps[0].key == key then Some(ps[0].value) else Lookup(ps[1..], key)
  }

  lemma {:induction false} LookupFinds(ps: seq<Q.Pair>, key: string)
    ensures match Lookup(ps, key)
            case Some(v) => Q.Pair(key, v) in ps
            case None => forall p | p in ps :: p.key != key
  {
    if ps != [] {
      LookupFinds(ps[1..], key);
      assert forall p | p in ps :: p == ps[0] || p in ps[1..];
    }
  }

  predicate SameCredentials(a: map<string, string>, b: map<string, string>) {
    forall k | k in {"f", "s", "at"} :: (k in a <==> k in b) && (k in a ==> a[k] == b[k])
  }

  /** Nothing but the key, the sender and the actor type is looked at. */
  lemma CredentialsDecide(m: Mode, st: State, s: SocketId, a: map<string, string>, b: map<string, string>)
    requires SameCredentials(a, b) && s in st.conns && s in st.h.st.sockets && !Throws(m, a)
    ensures !Throws(m, b) && Completed(m, st, s, a) == Completed(m, st, s, b)
  {
    assert "f" in {"f", "s", "at"} && "s" in {"f", "s", "at"} && "at" in {"f", "s", "at"};
  }

  /** Nor is what the handlers know of the connection. */
  lemma ConnsDoNotMatter(m: Mode, st: State, s: SocketId, c: Conn, params: map<string, string>)
    requires s in st.conns && s in st.h.st.sockets && !Throws(m, params)
    ensures var x, y := Completed(m, st, s, params), Completed(m, With(st, s, c), s, params);
      x.h == y.h && x.waiting == y.waiting && x.used == y.used && x.routed == y.routed
  {
  }

  lemma FrameHasFields(frame: Frame, ps: seq<Q.Pair>, params: map<string, string>)
    requires frame == Auth(Lookup(ps, "f"), Lookup(ps, "s"), Lookup(ps, "at"))
    requires forall p | p in ps :: p.key in params && params[p.key] == p.value
    requires forall k | k in params :: exists p :: p in ps && p.key == k
    ensures SameCredentials(params, FrameParams(frame))
  {
    LookupFinds(ps, "f");
    LookupFinds(ps, "s");
    LookupFinds(ps, "at");
  }

  /** The same verdict, the same registry, the same keys left; and the frame was answered. */
  ghost predicate SameOutcome(q: State, f: State, s: SocketId) {
    && s in q.conns && s in f.conns
    && q.h == f.h && q.waiting == f.waiting && q.used == f.used && q.routed == f.routed
    && q.conns[s].accepted == f.conns[s].accepted && q.conns[s].closing == f.conns[s].closing
    && f.conns[s].acks == [f.conns[s].accepted]
  }

  /** Two connections, otherwise alike, look at the same credentials. */
  lemma BothComplete(m: Mode, st: State, s: SocketId, c: Conn, a: map<string, string>, b: map<string, string>)
    requires s in st.conns && s in st.h.st.sockets && !Throws(m, a) && SameCredentials(a, b)
    requires forall key | key in st.waiting :: WellFormed(key)
    requires !st.conns[s].accepted && !st.conns[s].closing && !c.accepted && !c.closing
    ensures !Throws(m, b)
    ensures var x, y, ok := Completed(m, st, s, a), Completed(m, With(st, s, c), s, b), Admits(m, st.waiting, a);
      && x.h == y.h && x.waiting == y.waiting && x.used == y.used && x.routed == y.routed
      && s in x.conns && x.conns[s].accepted == ok && x.conns[s].closing == !ok
      && s in y.conns && y.conns[s] == c.(accepted := ok, closing := !ok)
  {
    CredentialsDecide(m, st, s, a, b);
    ConnsDoNotMatter(m, st, s, c, b);
    CompletedConns(m, st, s, b);
    CompletedConns(m, With(st, s, c), s, b);
  }

  /** The same credentials with the URL and with the frame of a socket that waits for it. */
  lemma BothWays(m: Mode, st: State, s: SocketId, params: map<string, string>, frame: Frame)
    requires forall key | key in st.waiting :: WellFormed(key)
    requires s !in st.conns && s !in st.h.st.sockets && frame.Auth?
        && SameCredentials(params, FrameParams(frame)) && "f" in params
    ensures SameOutcome(Completed(m, Joined(st, s, ByQuery), s, params),
                        AfterMessage(m, Joined(st, s, Waiting), s, frame), s)
  {
    var joined, w, c := Joined(st, s, ByQuery), Joined(st, s, Waiting), Settled(Waiting.(frames := 1));
    SetTwice(st.conns, s, Waiting, c);
    SetTwice(st.conns, s, ByQuery, c);
    assert With(w, s, c) == With(joined, s, c);
    BothComplete(m, joined, s, c, params, FrameParams(frame));
    FirstFrameShape(m, w, s, frame);
    var x, y := Completed(m, joined, s, params), Completed(m, With(joined, s, c), s, FrameParams(frame));
    OutcomesAgree(x, y, s, Admits(m, st.waiting, params));
  }

  lemma OutcomesAgree(x: State, y: State, s: SocketId, ok: bool)
    requires s in x.conns && s in y.conns && y.conns[s].acks == [] && !y.conns[s].accepted == y.conns[s].closing
    requires x.h == y.h && x.waiting == y.waiting && x.used == y.used && x.routed == y.routed
    requires x.conns[s].accepted == y.conns[s].accepted == ok && x.conns[s].closing == y.conns[s].closing == !ok
    ensures SameOutcome(x, With(y, s, Answered(y.conns[s], y.conns[s].accepted)), s)
  {
    assert [] + [ok] == [ok];
  }

  lemma UrlHasFields(path: string, ps: seq<Q.Pair>, frame: Frame)
    requires Q.Free(path, Q.OPENERS) && (forall p | p in ps :: Q.Printable(p)) && Lookup(ps, "f").Some?
    requires forall i, j | 0 <= i < j < |ps| :: ps[i].key != ps[j].key
    requires frame == Auth(Lookup(ps, "f"), Lookup(ps, "s"), Lookup(ps, "at"))
    ensures var params := Q.Collect(path + Q.Printed(ps), 0, map[]);
      "f" in params && SameCredentials(params, FrameParams(frame))
    ensures Q.Collect(path, 0, map[]) == map[]
  {
    Q.ScanInvertsPrint(path, ps);
    forall p | p in ps ensures exists i :: 0 <= i < |ps| && ps[i] == p && Q.IsLast(ps, i) {}
    FrameHasFields(frame, ps, Q.Collect(path + Q.Printed(ps), 0, map[]));
    LookupFinds(ps, "f");
    Q.ScanInvertsPrint(path, []);
    assert path + Q.Printed([]) == path;
  }

  /** While credentials in the URL are taken, logging in by `?k1=v1&...` and by a frame with the same
      fields come to the same. */
  lemma QueryAndFrameAgree(m: Mode, st: State, s: SocketId, path: string, ps: seq<Q.Pair>, frame: Frame)
    requires m.compat && Inv(m, st) && s !in st.conns
    requires Q.Free(path, Q.OPENERS) && (forall p | p in ps :: Q.Printable(p)) && Lookup(ps, "f").Some?
    requires forall i, j | 0 <= i < j < |ps| :: ps[i].key != ps[j].key
    requires frame == Auth(Lookup(ps, "f"), Lookup(ps, "s"), Lookup(ps, "at"))
    ensures var waits := AfterConnect(m, st, s, path);
      && s in waits.conns && s in waits.h.st.sockets
      && SameOutcome(AfterConnect(m, st, s, path + Q.Printed(ps)), AfterMessage(m, waits, s, frame), s)
  {
    var params := Q.Collect(path + Q.Printed(ps), 0, map[]);
    UrlHasFields(path, ps, frame);
    BothWays(m, st, s, params, frame);
    assert AfterConnect(m, st, s, path + Q.Printed(ps)) == Completed(m, Joined(st, s, ByQuery), s, params);
    assert AfterConnect(m, st, s, path) == Joined(st, s, Waiting);
  }

  // ----- The registry under the gate

  /** Looking at credentials is a login of the registry, or nothing. */
  lemma CompletedIsLogin(m: Mode, st: State, s: SocketId, params: map<string, string>,
                         es: seq<L.Event>)
    returns (es': seq<L.Event>)
    requires s in st.conns && !st.conns[s].accepted && !Throws(m, params) && RegistryOk(st.conns, st.h.st)
    requires st.h.st.sockets[s].phase == R.Open && L.Run(L.Initial, es, st.h)
    ensures L.Run(L.Initial, es', Completed(m, st, s, params).h)
  {
    var l := CompletedHistory(m, st, s, params);
    if Admits(m, st.waiting, params) {
      AdmittedRegistry(st.conns, st.h.st, s, l);
      L.RunThen(L.Initial, es, st.h, L.LogIn(s, l));
      es' := es + [L.LogIn(s, l)];
    } else {
      es' := es;
    }
  }

  lemma ConnectIsLifecycle(m: Mode, st: State, s: SocketId, url: string, es: seq<L.Event>)
    returns (es': seq<L.Event>)
    requires Inv(m, st) && Enabled(st, Connect(s, url)) && L.Run(L.Initial, es, st.h)
    ensures L.Run(L.Initial, es', AfterConnect(m, st, s, url).h)
  {
    L.RunThen(L.Initial, es, st.h, L.Connect(s));
    es' := es + [L.Connect(s)];
    var params := Q.Collect(url, 0, map[]);
    if "f" in params && m.compat {
      QueryReady(m, st, s);
      es' := CompletedIsLogin(m, Joined(st, s, ByQuery), s, params, es');
    }
  }

  /** The registry after the first frame of a socket is that after a look at its credentials, if it has any. */
  lemma FirstFrameRegistry(m: Mode, st: State, s: SocketId, frame: Frame)
    requires Inv(m, st) && Enabled(st, Hears(s, frame))
    ensures var c := Settled(st.conns[s].(frames := 1));
      AfterMessage(m, st, s, frame).h ==
        if st.conns[s].handler && frame.Auth? && !Throws(m, FrameParams(frame))
        then Completed(m, With(st, s, c), s, FrameParams(frame)).h else st.h
  {
    assert ConnOk(st.conns[s]);
    if st.conns[s].handler { FirstFrameShape(m, st, s, frame); }
  }

  lemma FrameIsLifecycle(m: Mode, st: State, s: SocketId, frame: Frame, es: seq<L.Event>)
    returns (es': seq<L.Event>)
    requires Inv(m, st) && Enabled(st, Hears(s, frame)) && L.Run(L.Initial, es, st.h)
    ensures L.Run(L.Initial, es', AfterMessage(m, st, s, frame).h)
  {
    assert ConnOk(st.conns[s]);
    FirstFrameRegistry(m, st, s, frame);
    if st.conns[s].handler && frame.Auth? && !Throws(m, FrameParams(frame)) {
      var c := Settled(st.conns[s].(frames := 1));
      WaitingSocket(m, st, s, c);
      es' := CompletedIsLogin(m, With(st, s, c), s, FrameParams(frame), es);
    } else {
      es' := es;
    }
  }

  lemma StepIsLifecycle(m: Mode, st: State, e: Event, es: seq<L.Event>)
    returns (es': seq<L.Event>)
    requires Inv(m, st) && Enabled(st, e) && L.Run(L.Initial, es, st.h)
    ensures L.Run(L.Initial, es', Step(m, st, e).h)
  {
    es' := es;
    match e
    case Connect(s, url) => es' := ConnectIsLifecycle(m, st, s, url, es);
    case Hears(s, frame) => es' := FrameIsLifecycle(m, st, s, frame, es);
    case SocketClosed(s) =>
      L.RunThen(L.Initial, es, st.h, L.CloseEvent(s));
      es' := es + [L.CloseEvent(s)];
    case Registry(c) =>
      L.RunThen(L.Initial, es, st.h, c);
      es' := es + [c];
    case Issue(_, _) =>
    case KeyTimeout(_) =>
    case AuthTimeout(_) =>
  }

  lemma {:induction false} RunIsLifecycle(m: Mode, st: State, es: seq<Event>, st': State,
                                          done: seq<L.Event>)
    returns (es': seq<L.Event>)
    requires Inv(m, st) && Run(m, st, es, st') && L.Run(L.Initial, done, st.h)
    ensures L.Run(L.Initial, es', st'.h)
    decreases |es|
  {
    if es == [] {
      es' := done;
    } else {
      var st1 := Step(m, st, es[0]);
      StepKeepsInv(m, st, es[0]);
      RunKeepsInv(m, st1, es[1..], st');
      var done1 := StepIsLifecycle(m, st, es[0], done);
      es' := RunIsLifecycle(m, st1, es[1..], st', done1);
    }
  }

  /** Whatever the keys, frames and timers do, the registry goes through a run of its own machine: all
      that holds in every such run holds here. */
  lemma GateRunsAreRegistryRuns(m: Mode, es: seq<Event>, st: State)
    requires Run(m, Initial, es, st)
    ensures exists done :: L.Run(L.Initial, done, st.h)
  {
    InitialInv(m);
    var done := RunIsLifecycle(m, Initial, es, st, []);
  }
}
