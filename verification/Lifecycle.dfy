/** Every interleaving of connects, logins, evictions, delayed close events, logouts and failing sends:
    what the registry and the sender index keep, and when the newest connection of a sender wins. */
module Lifecycle {
  import opened Frames
  import opened Routing
  import opened Rooms

  datatype Event =
    | Connect(s: SocketId)
    | LogIn(s: SocketId, l: Login)
    | CloseEvent(s: SocketId)
    | LogoutCommand(s: SocketId)
    | GroupBroadcast(u: GroupId, from: Option<string>, audience: Audience, broken: set<SocketId>)
    | ProxyOn(s: SocketId)
    | ProxyOff(s: SocketId)

  /** The state, the latest accepted socket under each key, and the sockets that were taken out of their
      room without a kick-out: by the logout command or because a send to them threw. */
  datatype History = History(st: State, latest: map<string, SocketId>, dropped: set<SocketId>)

  const Fresh := Socket(Open, None, None, None, false)

  const Initial := History(Empty, map[], {})

  predicate Enabled(h: History, e: Event) {
    match e
    case Connect(s) => s !in h.st.sockets
    case LogIn(s, _) => s in h.st.sockets && h.st.sockets[s].login == None && h.st.sockets[s].phase == Open
    case CloseEvent(s) => s in h.st.sockets && h.st.sockets[s].phase != Closed
    case LogoutCommand(s) => s in h.st.sockets && h.st.sockets[s].login.Some? && h.st.sockets[s].phase != Closed
    case GroupBroadcast(u, _, _, _) => u in h.st.groups
    case ProxyOn(s) => s in h.st.sockets && h.st.sockets[s].login.Some? && h.st.sockets[s].phase != Closed
    case ProxyOff(s) => s in h.st.sockets && h.st.sockets[s].login.Some? && h.st.sockets[s].phase != Closed
  }

  function SocketsUnder(g: Group, names: set<string>): set<SocketId> {
    set n | n in names && n in g.units :: g.units[n]
  }

  function Step(h: History, e: Event): History
    requires Enabled(h, e)
  {
    match e
    case Connect(s) => h.(st := h.st.(sockets := h.st.sockets[s := Fresh]))
    case LogIn(s, l) => h.(st := Accept(h.st, s, l), latest := h.latest[Key(l) := s])
    case CloseEvent(s) => h.(st := Close(h.st, s))
    case LogoutCommand(s) => h.(st := Logout(h.st, s), dropped := h.dropped + {s})
    case GroupBroadcast(u, from, audience, broken) =>
      var names := Failing(h.st, u, Addressed(h.st, u, from, audience), broken);
      h.(st := Lose(h.st, u, names), dropped := h.dropped + SocketsUnder(h.st.groups[u], Losable(h.st, u, names)))
    case ProxyOn(s) => h.(st := h.st.(proxies := h.st.proxies + {KeyOf(h.st.sockets[s].name)}))
    case ProxyOff(s) => h.(st := h.st.(proxies := h.st.proxies - {KeyOf(h.st.sockets[s].name)}))
  }

  ghost predicate Run(h: History, es: seq<Event>, h': History)
    decreases |es|
  {
    if es == [] then h == h' else Enabled(h, es[0]) && Run(Step(h, es[0]), es[1..], h')
  }

  // ----- How sender ids are used

  /** The socket has logged in under this key. */
  predicate LogsAs(k: Socket, n: string) { k.login.Some? && Key(k.login.value) == n }

  /** Every login under the key so far was by a sender id, and all of them in one account. */
  predicate SingleUse(m: Sockets, n: string) {
    forall s, t | s in m && t in m && LogsAs(m[s], n) && LogsAs(m[t], n) ::
      m[s].login.value.sender.Some? && m[s].login.value.account == m[t].login.value.account
  }

  /** A login, once recorded, stays. */
  predicate LoginsKept(m: Sockets, m': Sockets) {
    forall s | s in m && m[s].login.Some? :: s in m' && m'[s].login == m[s].login
  }

  lemma SingleUseBefore(m: Sockets, m': Sockets, n: string)
    requires LoginsKept(m, m') && SingleUse(m', n)
    ensures SingleUse(m, n)
  {
  }

  // ----- The invariant

  /** Every socket in a room under the key is the one the index holds for it. */
  predicate AgreementAt(m: Sockets, senders: map<string, SocketId>, n: string) {
    forall s | s in m && m[s].group.Some? && LogsAs(m[s], n) :: n in senders && senders[n] == s
  }

  /** Connected and logged in with a sender id, not kicked out, and yet in no room. */
  predicate Stray(k: Socket) {
    k.login.Some? && k.login.value.sender.Some? && k.phase != Closed && !k.terminated && k.group == None
  }

  predicate StraysWereDropped(m: Sockets, dropped: set<SocketId>) {
    forall s | s in m && Stray(m[s]) :: s in dropped
  }

  predicate LatestKnown(m: Sockets, latest: map<string, SocketId>, dropped: set<SocketId>) {
    && (forall n | n in latest :: latest[n] in m && LogsAs(m[latest[n]], n))
    && (forall s | s in dropped :: s in m && m[s].login.Some?)
  }

  /** No socket of this key was ever dropped without a kick-out. */
  predicate Clean(m: Sockets, dropped: set<SocketId>, n: string) {
    forall s | s in dropped && s in m :: !LogsAs(m[s], n)
  }

  /** In a room, not kicked out, and the one the index holds for `n`. */
  predicate Stands(m: Sockets, senders: map<string, SocketId>, n: string, s: SocketId) {
    s in m && m[s].group.Some? && LogsAs(m[s], n) && !m[s].terminated && n in senders && senders[n] == s
  }

  predicate NewestAt(h: History, n: string) {
    (&& n in h.latest && h.latest[n] in h.st.sockets && Clean(h.st.sockets, h.dropped, n)
     && h.st.sockets[h.latest[n]].phase != Closed)
    ==> Stands(h.st.sockets, h.st.senders, n, h.latest[n])
  }

  /** What holds for each key that was used by sender ids in one account only. */
  ghost predicate KeysSound(h: History) {
    forall n | SingleUse(h.st.sockets, n) :: AgreementAt(h.st.sockets, h.st.senders, n) && NewestAt(h, n)
  }

  ghost predicate Sound(h: History) {
    && StraysWereDropped(h.st.sockets, h.dropped) && LatestKnown(h.st.sockets, h.latest, h.dropped) && KeysSound(h)
  }

  ghost predicate Inv(h: History) { Structure(h.st) && Sound(h) }

  /** Having a group is being in its table, and that is a group of the login's account. */
  lemma GroupMeansRoom(st: State, s: SocketId)
    requires Structure(st) && s in st.sockets && st.sockets[s].group.Some?
    ensures InRoom(st, s) && !st.sockets[s].terminated
    ensures var g, l := st.groups[st.sockets[s].group.value], st.sockets[s].login.value;
      g.account == l.account && g.id == l.group
  {
    assert BackPointer(st, s);
    assert Member(st, st.sockets[s].group.value, Key(st.sockets[s].login.value));
  }

  /** Whoever has a group under the sender id and account of a login is kicked out for it. */
  lemma RoomMatesGo(st: State, l: Login, x: SocketId)
    requires Structure(st) && l.sender.Some? && x in st.sockets && st.sockets[x].group.Some?
    requires LogsAs(st.sockets[x], Key(l)) && st.sockets[x].login.value.account == l.account
    ensures x in Evicted(st, l)
  {
    GroupMeansRoom(st, x);
    EvictedHolds(st, l, x);
  }

  // ----- Login

  /** What a login does to the sockets and the index. */
  ghost predicate LoginStep(m: Sockets, m': Sockets, s: SocketId, l: Login, gone: set<SocketId>, admitted: bool) {
    && s in m && m[s].login == None && !m[s].terminated && Joined(m, m', s, l, gone, admitted)
    && (l.sender.Some? ==> admitted)
    && (forall x | x in gone :: x in m && LogsAs(m[x], Key(l)))
    && (l.sender.Some? ==> forall x | x in m && m[x].group.Some? && LogsAs(m[x], Key(l))
                                      && m[x].login.value.account == l.account :: x in gone)
  }

  lemma AcceptFacts(st: State, s: SocketId, l: Login)
    requires Structure(st) && s in st.sockets && st.sockets[s].login == None
    ensures Structure(Accept(st, s, l)) && Accept(st, s, l).senders == st.senders[Key(l) := s]
    ensures LoginStep(st.sockets, Accept(st, s, l).sockets, s, l, Evicted(st, l), !Shadowed(st, l))
  {
    AcceptStructure(st, s, l);
    AcceptSockets(st, s, l);
    assert BackPointer(st, s);
    forall x | x in Evicted(st, l) ensures x in st.sockets && LogsAs(st.sockets[x], Key(l)) { EvictedHolds(st, l, x); }
    if l.sender.Some? {
      forall x | x in st.sockets && st.sockets[x].group.Some? && LogsAs(st.sockets[x], Key(l))
                 && st.sockets[x].login.value.account == l.account
        ensures x in Evicted(st, l)
      {
        RoomMatesGo(st, l, x);
      }
    }
  }

  lemma LoginAgreement(m: Sockets, m': Sockets, senders: map<string, SocketId>, s: SocketId, l: Login,
                       gone: set<SocketId>, admitted: bool, n: string)
    requires LoginStep(m, m', s, l, gone, admitted) && SingleUse(m', n) && AgreementAt(m, senders, n)
    ensures AgreementAt(m', senders[Key(l) := s], n)
  {
    if n == Key(l) {
      assert LogsAs(m'[s], n);
      forall x | x in m' && x != s && LogsAs(m'[x], n) ensures m'[x].group == None {
        assert m[x].login == m'[x].login;
      }
    }
  }

  lemma LoginNewest(h: History, h': History, s: SocketId, l: Login, gone: set<SocketId>, admitted: bool, n: string)
    requires LoginStep(h.st.sockets, h'.st.sockets, s, l, gone, admitted)
    requires h'.st.senders == h.st.senders[Key(l) := s]
    requires h'.latest == h.latest[Key(l) := s] && h'.dropped == h.dropped
    requires LatestKnown(h.st.sockets, h.latest, h.dropped) && SingleUse(h'.st.sockets, n) && NewestAt(h, n)
    ensures NewestAt(h', n)
  {
    if n == Key(l) { assert LogsAs(h'.st.sockets[s], n); }
  }

  lemma LoginStrays(
      m: Sockets, m': Sockets, s: SocketId, l: Login, gone: set<SocketId>, admitted: bool, dropped: set<SocketId>)
    requires LoginStep(m, m', s, l, gone, admitted) && StraysWereDropped(m, dropped)
    ensures StraysWereDropped(m', dropped) && LoginsKept(m, m')
  {
  }

  lemma LoginSound(h: History, h': History, s: SocketId, l: Login, gone: set<SocketId>, admitted: bool)
    requires Sound(h) && LoginStep(h.st.sockets, h'.st.sockets, s, l, gone, admitted)
    requires h'.st.senders == h.st.senders[Key(l) := s]
    requires h'.latest == h.latest[Key(l) := s] && h'.dropped == h.dropped
    ensures Sound(h')
  {
    LoginStrays(h.st.sockets, h'.st.sockets, s, l, gone, admitted, h.dropped);
    assert LatestKnown(h'.st.sockets, h'.latest, h'.dropped);
    forall n | SingleUse(h'.st.sockets, n) ensures AgreementAt(h'.st.sockets, h'.st.senders, n) && NewestAt(h', n) {
      SingleUseBefore(h.st.sockets, h'.st.sockets, n);
      LoginAgreement(h.st.sockets, h'.st.sockets, h.st.senders, s, l, gone, admitted, n);
      LoginNewest(h, h', s, l, gone, admitted, n);
    }
  }

  // ----- Close

  /** The handler cleans up by sender id: there is one, and the socket was not kicked out. */
  predicate CleansUp(k: Socket) { !k.terminated && k.login.Some? && k.login.value.sender.Some? }

  /** What a close does to the sockets. */
  ghost predicate CloseStep(m: Sockets, m': Sockets, s: SocketId, gone: set<SocketId>) {
    && s in m && m'.Keys == m.Keys && m'[s].phase == Closed && m'[s].login == m[s].login
    && (m'[s].terminated == (m[s].terminated || s in gone)) && m'[s].group == (if s in gone then None else m[s].group)
    && (forall x | x in m && x != s :: m'[x] == if x in gone then Removed(m[x], true) else m[x])
    && (!CleansUp(m[s]) ==> gone == {})
    && (forall x | x in gone :: x in m && !m[x].terminated && LogsAs(m[x], Key(m[s].login.value)))
    && (CleansUp(m[s]) ==> forall x | x in m && m[x].group.Some? && LogsAs(m[x], Key(m[s].login.value))
                                      && m[x].login.value.account == m[s].login.value.account :: x in gone)
  }

  lemma CloseFacts(st: State, s: SocketId)
    requires Structure(st) && s in st.sockets
    ensures Structure(Close(st, s)) && CloseStep(st.sockets, Close(st, s).sockets, s, ClosedOut(st, s))
    ensures Close(st, s).senders ==
      if CleansUp(st.sockets[s]) then st.senders - {Key(st.sockets[s].login.value)} else st.senders
  {
    CloseStructure(st, s);
    CloseTables(st, s);
    ClosedOutHold(st, s);
  }

  /** Whom a close kicks out: sockets with its key, and among them whoever has a group in its account. */
  lemma ClosedOutHold(st: State, s: SocketId)
    requires Structure(st) && s in st.sockets
    ensures var (k, gone) := (st.sockets[s], ClosedOut(st, s));
      && (!CleansUp(k) ==> gone == {})
      && (forall x | x in gone ::
            x in st.sockets && !st.sockets[x].terminated && LogsAs(st.sockets[x], Key(k.login.value)))
      && (CleansUp(k) ==> forall x | x in st.sockets && st.sockets[x].group.Some?
                            && LogsAs(st.sockets[x], Key(k.login.value))
                            && st.sockets[x].login.value.account == k.login.value.account :: x in gone)
  {
    var k, gone := st.sockets[s], ClosedOut(st, s);
    if CleansUp(k) {
      var l := k.login.value;
      forall x | x in gone ensures x in st.sockets && !st.sockets[x].terminated && LogsAs(st.sockets[x], Key(l)) {
        EvictedHolds(st, l, x);
      }
      forall x | x in st.sockets && st.sockets[x].group.Some? && LogsAs(st.sockets[x], Key(l))
                 && st.sockets[x].login.value.account == l.account
        ensures x in gone
      {
        RoomMatesGo(st, l, x);
      }
    }
  }

  lemma CloseAgreement(m: Sockets, m': Sockets, senders: map<string, SocketId>, senders': map<string, SocketId>,
                       s: SocketId, gone: set<SocketId>, n: string)
    requires CloseStep(m, m', s, gone) && SingleUse(m, n) && AgreementAt(m, senders, n)
    requires senders' == if CleansUp(m[s]) then senders - {Key(m[s].login.value)} else senders
    ensures AgreementAt(m', senders', n)
  {
    if CleansUp(m[s]) && n == Key(m[s].login.value) {
      assert LogsAs(m[s], n);
      forall x | x in m && LogsAs(m[x], n) ensures m[x].login.value.account == m[s].login.value.account {}
    }
  }

  /** Of a key without drops, every connected socket but the newest was kicked out. */
  lemma OthersAreTerminated(h: History, n: string, s: SocketId)
    requires Sound(h) && SingleUse(h.st.sockets, n) && n in h.latest && Clean(h.st.sockets, h.dropped, n)
    requires h.st.sockets[h.latest[n]].phase != Closed && s in h.st.sockets && s != h.latest[n]
    requires LogsAs(h.st.sockets[s], n) && h.st.sockets[s].phase != Closed
    ensures h.st.sockets[s].terminated
  {
    assert AgreementAt(h.st.sockets, h.st.senders, n) && NewestAt(h, n);
  }

  lemma CloseNewest(h: History, h': History, s: SocketId, gone: set<SocketId>, n: string)
    requires Sound(h) && CloseStep(h.st.sockets, h'.st.sockets, s, gone) && h.st.sockets[s].phase != Closed
    requires var k := h.st.sockets[s];
      h'.st.senders == if CleansUp(k) then h.st.senders - {Key(k.login.value)} else h.st.senders
    requires h'.latest == h.latest && h'.dropped == h.dropped && SingleUse(h.st.sockets, n)
    ensures NewestAt(h', n)
  {
    assert NewestAt(h, n);
    var m := h.st.sockets;
    if n in h.latest && Clean(h'.st.sockets, h.dropped, n) && h'.st.sockets[h.latest[n]].phase != Closed {
      assert Clean(m, h.dropped, n) by {
        forall x | x in h.dropped && x in m ensures h'.st.sockets[x].login == m[x].login {}
      }
      if LogsAs(m[s], n) { OthersAreTerminated(h, n, s); }
    }
  }

  lemma CloseStrays(m: Sockets, m': Sockets, s: SocketId, gone: set<SocketId>, dropped: set<SocketId>)
    requires CloseStep(m, m', s, gone) && StraysWereDropped(m, dropped)
    ensures StraysWereDropped(m', dropped) && LoginsKept(m, m') && LoginsKept(m', m)
  {
  }

  lemma CloseSound(h: History, h': History, s: SocketId, gone: set<SocketId>)
    requires Sound(h) && CloseStep(h.st.sockets, h'.st.sockets, s, gone) && h.st.sockets[s].phase != Closed
    requires var k := h.st.sockets[s];
      h'.st.senders == if CleansUp(k) then h.st.senders - {Key(k.login.value)} else h.st.senders
    requires h'.latest == h.latest && h'.dropped == h.dropped
    ensures Sound(h')
  {
    CloseStrays(h.st.sockets, h'.st.sockets, s, gone, h.dropped);
    assert LatestKnown(h'.st.sockets, h'.latest, h'.dropped);
    forall n | SingleUse(h'.st.sockets, n) ensures AgreementAt(h'.st.sockets, h'.st.senders, n) && NewestAt(h', n) {
      SingleUseBefore(h.st.sockets, h'.st.sockets, n);
      CloseAgreement(h.st.sockets, h'.st.sockets, h.st.senders, h'.st.senders, s, gone, n);
      CloseNewest(h, h', s, gone, n);
    }
  }

  // ----- Logout and broadcast

  /** Between socket tables: some sockets have lost their group, and of those all are in `gone`. */
  ghost predicate Thinned(m: Sockets, m': Sockets, gone: set<SocketId>) {
    && m'.Keys == m.Keys
    && (forall x | x in m && x !in gone :: m'[x] == m[x])
    && (forall x | x in m && x in gone ::
          && m'[x].login == m[x].login && m'[x].terminated == m[x].terminated
          && (m[x].phase == Closed <==> m'[x].phase == Closed)
          && (m'[x].group == m[x].group || m'[x].group == None))
  }

  lemma ThinnedNewest(h: History, h': History, gone: set<SocketId>, n: string)
    requires LatestKnown(h.st.sockets, h.latest, h.dropped) && NewestAt(h, n)
    requires Thinned(h.st.sockets, h'.st.sockets, gone)
    requires h'.st.senders == h.st.senders && h'.latest == h.latest && h'.dropped == h.dropped + gone
    ensures NewestAt(h', n)
  {
    if n in h.latest && Clean(h'.st.sockets, h'.dropped, n) {
      assert h.latest[n] !in gone;
      assert Clean(h.st.sockets, h.dropped, n) by {
        forall x | x in h.dropped && x in h.st.sockets ensures h'.st.sockets[x].login == h.st.sockets[x].login {}
      }
    }
  }

  lemma ThinnedSound(h: History, h': History, gone: set<SocketId>)
    requires Sound(h) && Thinned(h.st.sockets, h'.st.sockets, gone)
    requires h'.st.senders == h.st.senders && h'.latest == h.latest && h'.dropped == h.dropped + gone
    requires forall x | x in gone :: x in h.st.sockets && h.st.sockets[x].login.Some?
    ensures Sound(h')
  {
    var m, m' := h.st.sockets, h'.st.sockets;
    assert LatestKnown(m', h'.latest, h'.dropped);
    forall n | SingleUse(m', n) ensures AgreementAt(m', h'.st.senders, n) && NewestAt(h', n) {
      SingleUseBefore(m, m', n);
      assert AgreementAt(m, h.st.senders, n);
      ThinnedNewest(h, h', gone, n);
    }
  }

  lemma LoseThins(st: State, u: GroupId, names: set<string>)
    requires u in st.groups
    ensures Thinned(st.sockets, Lose(st, u, names).sockets, SocketsUnder(st.groups[u], Losable(st, u, names)))
    ensures Lose(st, u, names).senders == st.senders
  {
    var g, lost := st.groups[u], Losable(st, u, names);
    assert SocketsUnder(g, lost) == set n | n in g.units && n in lost :: g.units[n];
  }

  lemma MembersAreLoggedIn(st: State, u: GroupId, names: set<string>)
    requires Structure(st) && u in st.groups
    ensures forall x | x in SocketsUnder(st.groups[u], names) :: x in st.sockets && st.sockets[x].login.Some?
  {
    forall n | n in names && n in st.groups[u].units
      ensures st.groups[u].units[n] in st.sockets && st.sockets[st.groups[u].units[n]].login.Some?
    {
      assert Member(st, u, n);
    }
  }

  // ----- Runs

  lemma ConnectStructure(st: State, s: SocketId)
    requires Structure(st) && s !in st.sockets
    ensures Structure(st.(sockets := st.sockets[s := Fresh]))
  {
    var st' := st.(sockets := st.sockets[s := Fresh]);
    forall v, n | v in st'.groups && n in st'.groups[v].units ensures Member(st', v, n) {
      assert Member(st, v, n);
    }
    forall x, g | x in st'.accounts && g in st'.accounts[x] ensures GroupAttached(st', x, g) {
      assert GroupAttached(st, x, g);
    }
    forall x | x in st'.sockets ensures BackPointer(st', x) {
      if x != s { assert BackPointer(st, x); }
    }
    forall v, n | HoldsNamed(st', v, n) ensures HoldsNamed(st, v, n) { assert Member(st, v, n); }
  }

  /** A newcomer without a login is nobody's newest, stray or room mate. */
  lemma ConnectSound(h: History, s: SocketId)
    requires Sound(h) && s !in h.st.sockets
    ensures Sound(h.(st := h.st.(sockets := h.st.sockets[s := Fresh])))
  {
    var m := h.st.sockets;
    var h' := h.(st := h.st.(sockets := m[s := Fresh]));
    forall n | SingleUse(h'.st.sockets, n) ensures AgreementAt(h'.st.sockets, h.st.senders, n) && NewestAt(h', n) {
      SingleUseBefore(m, h'.st.sockets, n);
      assert AgreementAt(m, h.st.senders, n) && NewestAt(h, n);
      assert Clean(h'.st.sockets, h.dropped, n) ==> Clean(m, h.dropped, n);
    }
  }

  lemma ProxiesDoNotMatter(h: History, proxies: set<string>)
    requires Inv(h)
    ensures Inv(h.(st := h.st.(proxies := proxies)))
  {
    var h' := h.(st := h.st.(proxies := proxies));
    SameRoomsStructure(h.st, h'.st);
    forall n | SingleUse(h'.st.sockets, n) ensures AgreementAt(h'.st.sockets, h'.st.senders, n) && NewestAt(h', n) {
      assert AgreementAt(h.st.sockets, h.st.senders, n) && NewestAt(h, n);
    }
  }

  lemma StepKeepsInv(h: History, e: Event)
    requires Inv(h) && Enabled(h, e)
    ensures Inv(Step(h, e))
  {
    var h' := Step(h, e);
    match e
    case Connect(s) =>
      ConnectStructure(h.st, s);
      ConnectSound(h, s);
    case LogIn(s, l) =>
      AcceptFacts(h.st, s, l);
      LoginSound(h, h', s, l, Evicted(h.st, l), !Shadowed(h.st, l));
    case CloseEvent(s) =>
      CloseFacts(h.st, s);
      CloseSound(h, h', s, ClosedOut(h.st, s));
    case LogoutCommand(s) =>
      LogoutStructure(h.st, s);
      LogoutSockets(h.st, s);
      ThinnedSound(h, h', {s});
    case GroupBroadcast(u, from, audience, broken) =>
      var names := Failing(h.st, u, Addressed(h.st, u, from, audience), broken);
      LoseStructure(h.st, u, names);
      LoseThins(h.st, u, names);
      MembersAreLoggedIn(h.st, u, Losable(h.st, u, names));
      ThinnedSound(h, h', SocketsUnder(h.st.groups[u], Losable(h.st, u, names)));
    case ProxyOn(s) => ProxiesDoNotMatter(h, h'.st.proxies);
    case ProxyOff(s) => ProxiesDoNotMatter(h, h'.st.proxies);
  }

  lemma {:induction false} RunKeepsInv(h: History, es: seq<Event>, h': History)
    requires Inv(h) && Run(h, es, h')
    ensures Inv(h')
    decreases |es|
  {
    if es != [] {
      StepKeepsInv(h, es[0]);
      RunKeepsInv(Step(h, es[0]), es[1..], h');
    }
  }

  lemma ReachableInv(es: seq<Event>, h: History)
    requires Run(Initial, es, h)
    ensures Inv(h)
  {
    RunKeepsInv(Initial, es, h);
  }

  // ----- What holds in every run

  /** A socket with a sender id is in the table of a group under a name if and only if it points back to that
      group and carries that name.  One without is in a table under "undefined" only, if it points to that
      group, and may be left there without pointing back.  No attached group is empty; a name is in two
      groups of one account only if one of its holders has no sender id. */
  lemma RegistryIsConsistent(es: seq<Event>, h: History)
    requires Run(Initial, es, h)
    ensures forall u, n, s | u in h.st.groups && s in h.st.sockets && CarriesId(h.st.sockets[s]) ::
              n in h.st.groups[u].units && h.st.groups[u].units[n] == s
              <==> h.st.sockets[s].group == Some(u) && h.st.sockets[s].name == Some(n)
    ensures forall u, n | u in h.st.groups && n in h.st.groups[u].units ::
              var s := h.st.groups[u].units[n];
              s in h.st.sockets && LogsAs(h.st.sockets[s], n)
              && (h.st.sockets[s].group == Some(u) || h.st.sockets[s].group == None)
    ensures forall s | s in h.st.sockets && h.st.sockets[s].group.Some? :: InRoom(h.st, s)
    ensures forall a, g | a in h.st.accounts && g in h.st.accounts[a] ::
              h.st.accounts[a][g] in h.st.groups && h.st.groups[h.st.accounts[a][g]].units != map[]
    ensures forall u, v, n | HoldsNamed(h.st, u, n) && HoldsNamed(h.st, v, n)
                             && h.st.groups[u].account == h.st.groups[v].account :: u == v
  {
    ReachableInv(es, h);
    forall u, n, s | u in h.st.groups && s in h.st.sockets && CarriesId(h.st.sockets[s])
      ensures n in h.st.groups[u].units && h.st.groups[u].units[n] == s
              <==> h.st.sockets[s].group == Some(u) && h.st.sockets[s].name == Some(n)
    {
      assert BackPointer(h.st, s);
      if n in h.st.groups[u].units { assert Member(h.st, u, n); }
    }
    forall u, n | u in h.st.groups && n in h.st.groups[u].units
      ensures var s := h.st.groups[u].units[n];
              s in h.st.sockets && LogsAs(h.st.sockets[s], n)
              && (h.st.sockets[s].group == Some(u) || h.st.sockets[s].group == None)
    {
      assert Member(h.st, u, n);
    }
    forall s | s in h.st.sockets && h.st.sockets[s].group.Some? ensures InRoom(h.st, s) { GroupMeansRoom(h.st, s); }
    forall a, g | a in h.st.accounts && g in h.st.accounts[a]
      ensures h.st.accounts[a][g] in h.st.groups && h.st.groups[h.st.accounts[a][g]].units != map[]
    {
      assert GroupAttached(h.st, a, g);
    }
  }

  predicate CarriesId(k: Socket) { k.login.Some? && k.login.value.sender.Some? }

  /** Whoever a room holds under the name is whom the index holds for it. */
  predicate Agrees(st: State, n: string) {
    forall u | u in st.groups && n in st.groups[u].units :: n in st.senders && st.senders[n] == st.groups[u].units[n]
  }

  /** Over every run, logouts, failing sends and all, room and index agree on each name that has been used by
      sender ids in one account only. */
  lemma RegistryAgreesWithIndex(es: seq<Event>, h: History, n: string)
    requires Run(Initial, es, h) && SingleUse(h.st.sockets, n)
    ensures Agrees(h.st, n)
  {
    ReachableInv(es, h);
    forall u | u in h.st.groups && n in h.st.groups[u].units
      ensures n in h.st.senders && h.st.senders[n] == h.st.groups[u].units[n]
    {
      assert Member(h.st, u, n);
      assert AgreementAt(h.st.sockets, h.st.senders, n);
      assert LogsAs(h.st.sockets[h.st.groups[u].units[n]], n);
    }
  }

  /** Only its own account's groups, or none at all, hold the key of the login: those its accept clears. */
  predicate OnlyCleared(st: State, l: Login) {
    forall u | u in st.groups :: !Uncleared(st, u, l)
  }

  /** An accept makes room and index agree on its key IF AND ONLY IF no group holds that key but those of its
      account, and, for a login without sender id, no group at all.  On other names nothing changes. */
  lemma AcceptAgreesIff(st: State, s: SocketId, l: Login)
    requires Structure(st) && s in st.sockets && st.sockets[s].login == None
    ensures Agrees(Accept(st, s, l), Key(l)) <==> OnlyCleared(st, l)
    ensures forall n | n != Key(l) :: Agrees(Accept(st, s, l), n) <==> Agrees(st, n)
  {
    AcceptAgreesAtKey(st, s, l);
    forall n | n != Key(l) ensures Agrees(Accept(st, s, l), n) <==> Agrees(st, n) {
      AcceptAgreesElsewhere(st, s, l, n);
    }
  }

  lemma AcceptAgreesAtKey(st: State, s: SocketId, l: Login)
    requires Structure(st) && s in st.sockets && st.sockets[s].login == None
    ensures Agrees(Accept(st, s, l), Key(l)) <==> OnlyCleared(st, l)
  {
    AcceptSockets(st, s, l);
    forall u ensures HeldByOther(Accept(st, s, l), u, Key(l), s) <==> Uncleared(st, u, l) {
      AcceptHolders(st, s, l, u);
    }
    NobodyElseMeansAgrees(Accept(st, s, l), Key(l), s);
  }

  lemma AcceptAgreesElsewhere(st: State, s: SocketId, l: Login, n: string)
    requires Structure(st) && s in st.sockets && st.sockets[s].login == None && n != Key(l)
    ensures Agrees(Accept(st, s, l), n) <==> Agrees(st, n)
  {
    AcceptSockets(st, s, l);
    AcceptKeepsOthers(st, s, l, n);
    SameHoldersAgree(st, Accept(st, s, l), n);
  }

  /** The group holds the key of the login and is not asked for it. */
  predicate Uncleared(st: State, u: GroupId, l: Login) {
    u in st.groups && Key(l) in st.groups[u].units && (l.sender == None || st.groups[u].account != l.account)
  }

  lemma NobodyElseMeansAgrees(st: State, n: string, s: SocketId)
    requires n in st.senders && st.senders[n] == s
    ensures Agrees(st, n) <==> forall u :: !HeldByOther(st, u, n, s)
  {
    if Agrees(st, n) {
      forall u ensures !HeldByOther(st, u, n, s) {}
    }
    if forall u :: !HeldByOther(st, u, n, s) {
      forall u | u in st.groups && n in st.groups[u].units ensures st.senders[n] == st.groups[u].units[n] {
        assert !HeldByOther(st, u, n, s);
      }
    }
  }

  lemma SameHoldersAgree(st: State, st': State, n: string)
    requires SameHolders(st, st', n)
    requires (n in st.senders <==> n in st'.senders) && (n in st.senders ==> st'.senders[n] == st.senders[n])
    ensures Agrees(st', n) <==> Agrees(st, n)
  {
  }

  /** A close that cleans up leaves room and index in agreement on its name IF AND ONLY IF no group of another
      account holds it; any other close changes neither. */
  lemma CloseAgreesIff(st: State, s: SocketId)
    requires Structure(st) && s in st.sockets
    ensures CleansUp(st.sockets[s]) ==> (Agrees(Close(st, s), Key(st.sockets[s].login.value)) <==>
              OnlyCleared(st, st.sockets[s].login.value))
    ensures !CleansUp(st.sockets[s]) ==> Close(st, s).groups == st.groups && Close(st, s).senders == st.senders
  {
    CloseFacts(st, s);
    var k := st.sockets[s];
    if CleansUp(k) {
      var l := k.login.value;
      EvictSockets(st, l);
      forall u | u in st.groups
        ensures Key(l) in Close(st, s).groups[u].units
                <==> Key(l) in st.groups[u].units && st.groups[u].account != l.account
      {
        EvictHolders(st, l, u);
      }
    }
  }

  /** In every reachable state a login joins the room of its account and group, is recorded, and is whom the
      index names, IF AND ONLY IF it has a sender id or that room does not hold the key "undefined" yet.
      Otherwise it is recorded and indexed, and in no room. */
  lemma LoginIsAdmittedIff(es: seq<Event>, h: History, s: SocketId, l: Login)
    requires Run(Initial, es, h) && Enabled(h, LogIn(s, l))
    ensures var st' := Accept(h.st, s, l);
      && st'.sockets[s].login == Some(l) && Key(l) in st'.senders && st'.senders[Key(l)] == s
      && (InRoom(st', s) <==> l.sender.Some? || !Taken(h.st, l))
      && (InRoom(st', s) ==> var g := st'.groups[st'.sockets[s].group.value]; g.account == l.account && g.id == l.group)
      && (!InRoom(st', s) ==> st' == LoggedIn(h.st, s, l) && st'.sockets[s].group == None)
  {
    ReachableInv(es, h);
    AcceptFacts(h.st, s, l);
    AcceptStructure(h.st, s, l);
    assert BackPointer(h.st, s);
    if InRoom(Accept(h.st, s, l), s) { GroupMeansRoom(Accept(h.st, s, l), s); }
  }

  /** The newest connection wins: over every interleaving, the latest accepted socket of a name that is not
      closed yet is in its room and in the index and not kicked out, provided the name was used by sender ids
      in one account only and no socket of it was ever logged out or lost to a failing send. */
  lemma NewestConnectionWins(es: seq<Event>, h: History, n: string)
    requires Run(Initial, es, h) && n in h.latest
    requires SingleUse(h.st.sockets, n) && Clean(h.st.sockets, h.dropped, n)
    ensures h.latest[n] in h.st.sockets
    ensures h.st.sockets[h.latest[n]].phase != Closed ==>
              InRoom(h.st, h.latest[n]) && !h.st.sockets[h.latest[n]].terminated
              && n in h.st.senders && h.st.senders[n] == h.latest[n]
  {
    ReachableInv(es, h);
    assert NewestAt(h, n);
    if h.st.sockets[h.latest[n]].phase != Closed { GroupMeansRoom(h.st, h.latest[n]); }
  }

  /** The late close event of a socket that was kicked out changes nothing but that socket's phase. */
  lemma EvictedCloseIsSilent(st: State, s: SocketId)
    requires s in st.sockets && st.sockets[s].terminated
    ensures Close(st, s) == st.(sockets := st.sockets[s := st.sockets[s].(phase := Closed)])
  {
  }

  /** The sender id of the login is in no group of its account and not in the index, the proxy of the socket's
      name is gone, an account left without groups is, too, and the socket is closed and in no room. */
  predicate NoTrace(st: State, s: SocketId, l: Login, name: Option<string>)
    requires s in st.sockets && l.sender.Some?
  {
    && st.sockets[s].phase == Closed && st.sockets[s].group == None && l.sender.value !in st.senders
    && NameIsFree(st, l.account, l.sender.value) && (l.account in st.accounts ==> st.accounts[l.account] != map[])
    && (name.Some? ==> name.value !in st.proxies)
  }

  /** No group of the account holds the name. */
  predicate NameIsFree(st: State, a: string, n: string) {
    forall u | u in st.groups && st.groups[u].account == a :: n !in st.groups[u].units
  }

  /** The close of a socket that was not kicked out cleans up IF AND ONLY IF it has a sender id: then it leaves
      no trace.  Without one nothing is cleaned up, and it stays in room and index. */
  lemma CloseCleansUpIff(es: seq<Event>, h: History, s: SocketId)
    requires Run(Initial, es, h) && s in h.st.sockets && h.st.sockets[s].login.Some? && !h.st.sockets[s].terminated
    ensures var (st', k) := (Close(h.st, s), h.st.sockets[s]);
      && s in st'.sockets
      && if CarriesId(k) then NoTrace(st', s, k.login.value, k.name)
         else st' == h.st.(sockets := h.st.sockets[s := k.(phase := Closed)])
  {
    ReachableInv(es, h);
    if CarriesId(h.st.sockets[s]) {
      NamedClose(h.st, s);
    } else {
      NamedAsLoggedIn(h.st, s);
      NamelessClose(h.st, s);
    }
  }

  lemma NamelessClose(st: State, s: SocketId)
    requires s in st.sockets && st.sockets[s].login.Some? && st.sockets[s].login.value.sender == None
    requires st.sockets[s].name == None
    ensures Close(st, s) == st.(sockets := st.sockets[s := st.sockets[s].(phase := Closed)])
  {
  }

  lemma NamedClose(st: State, s: SocketId)
    requires Structure(st) && s in st.sockets && CleansUp(st.sockets[s])
    ensures s in Close(st, s).sockets
    ensures NoTrace(Close(st, s), s, st.sockets[s].login.value, st.sockets[s].name)
  {
    CloseFreesName(st, s);
    NamedCloseTables(st, s);
  }

  lemma NamedCloseTables(st: State, s: SocketId)
    requires Structure(st) && s in st.sockets && CleansUp(st.sockets[s])
    ensures var (st', k) := (Close(st, s), st.sockets[s]);
      && s in st'.sockets && st'.sockets[s].phase == Closed && st'.sockets[s].group == None
      && k.login.value.sender.value !in st'.senders && (k.name.Some? ==> k.name.value !in st'.proxies)
  {
    CloseFacts(st, s);
    CloseTables(st, s);
    if st.sockets[s].group.Some? { RoomMatesGo(st, st.sockets[s].login.value, s); }
  }

  lemma NamedAsLoggedIn(st: State, s: SocketId)
    requires AllBackPointers(st) && s in st.sockets && st.sockets[s].login.Some?
    ensures st.sockets[s].name.Some? ==> st.sockets[s].name == st.sockets[s].login.value.sender
  {
    assert BackPointer(st, s);
  }

  lemma CloseFreesName(st: State, s: SocketId)
    requires Structure(st) && s in st.sockets && CleansUp(st.sockets[s])
    ensures var (st', l) := (Close(st, s), st.sockets[s].login.value);
      NameIsFree(st', l.account, l.sender.value) && (l.account in st'.accounts ==> st'.accounts[l.account] != map[])
  {
    var (st', l) := (Close(st, s), st.sockets[s].login.value);
    EvictSockets(st, l);
    forall u | u in st'.groups && st'.groups[u].account == l.account ensures l.sender.value !in st'.groups[u].units {
      EvictFreesName(st, l, u);
    }
  }

  // ----- Who is kicked out

  /** Between the records of a socket: it is marked, in no room and no longer open; nothing else has changed. */
  predicate WasKickedOut(k: Socket, k': Socket) {
    && k'.terminated && k'.group == None && k'.login == k.login && k'.name == k.name
    && k'.phase == (if k.phase == Open then Closing else k.phase)
  }

  /** An accept kicks out exactly the sockets that hold its sender id in a group of its account, and touches no
      other but the new one. */
  lemma AcceptKicksOutHolders(es: seq<Event>, h: History, s: SocketId, l: Login)
    requires Run(Initial, es, h) && Enabled(h, LogIn(s, l))
    ensures var st' := Step(h, LogIn(s, l)).st;
      forall x | x in h.st.sockets && x != s ::
        && x in st'.sockets
        && if l.sender.Some? && HeldIn(h.st, l.account, l.sender.value, x)
           then WasKickedOut(h.st.sockets[x], st'.sockets[x])
           else st'.sockets[x] == h.st.sockets[x]
  {
    ReachableInv(es, h);
    AcceptSockets(h.st, s, l);
    forall x | x in h.st.sockets && x != s
      ensures var st' := Step(h, LogIn(s, l)).st;
        && x in st'.sockets
        && if l.sender.Some? && HeldIn(h.st, l.account, l.sender.value, x)
           then WasKickedOut(h.st.sockets[x], st'.sockets[x])
           else st'.sockets[x] == h.st.sockets[x]
    {
      EvictedHolds(h.st, l, x);
      RemovedIsKickedOut(h.st.sockets[x]);
    }
  }

  lemma RemovedIsKickedOut(k: Socket)
    ensures WasKickedOut(k, Removed(k, true))
  {
  }

  /** So does the close of a socket with a sender id that was not kicked out itself; any other kicks out none. */
  lemma CloseKicksOutHolders(es: seq<Event>, h: History, s: SocketId)
    requires Run(Initial, es, h) && Enabled(h, CloseEvent(s))
    ensures var (st', k) := (Step(h, CloseEvent(s)).st, h.st.sockets[s]);
      forall x | x in h.st.sockets && x != s ::
        && x in st'.sockets
        && if CarriesId(k) && !k.terminated && HeldIn(h.st, k.login.value.account, k.login.value.sender.value, x)
           then WasKickedOut(h.st.sockets[x], st'.sockets[x])
           else st'.sockets[x] == h.st.sockets[x]
  {
    ReachableInv(es, h);
    CloseTables(h.st, s);
    var k := h.st.sockets[s];
    forall x | x in h.st.sockets && x != s
      ensures var st' := Step(h, CloseEvent(s)).st;
        && x in st'.sockets
        && if CarriesId(k) && !k.terminated && HeldIn(h.st, k.login.value.account, k.login.value.sender.value, x)
           then WasKickedOut(h.st.sockets[x], st'.sockets[x])
           else st'.sockets[x] == h.st.sockets[x]
    {
      if !k.terminated && k.login.Some? { EvictedHolds(h.st, k.login.value, x); }
      RemovedIsKickedOut(h.st.sockets[x]);
    }
  }

  // ----- When a close harms others

  /** Another socket in some room bears the name. */
  predicate BornByOther(m: Sockets, s: SocketId, n: string) {
    exists x :: x in m && x != s && m[x].group.Some? && m[x].name == Some(n)
  }

  /** The close leaves every other socket alone, every index entry of another, and the proxy of every name that
      another socket in a room bears. */
  predicate Harmless(st: State, st': State, s: SocketId) {
    && (forall x | x in st.sockets && x != s :: x in st'.sockets && st'.sockets[x] == st.sockets[x])
    && (forall n | n in st.senders && st.senders[n] != s :: n in st'.senders && st'.senders[n] == st.senders[n])
    && (forall n | n in st.proxies && BornByOther(st.sockets, s, n) :: n in st'.proxies)
  }

  /** What the handler would have to look at: the socket was kicked out, never logged in or has no sender id;
      or the index names nobody else for it, no room of its account holds it for somebody else, and it has no
      proxy that somebody else of that name uses. */
  predicate Current(st: State, s: SocketId)
    requires s in st.sockets
  {
    var k := st.sockets[s];
    !CleansUp(k) ||
    (var l := k.login.value;
     && (Key(l) in st.senders ==> st.senders[Key(l)] == s)
     && (forall x | x in st.sockets && HeldIn(st, l.account, Key(l), x) :: x == s)
     && (k.name.Some? && k.name.value in st.proxies ==> !BornByOther(st.sockets, s, k.name.value)))
  }

  /** In any state of any run, sender ids shared between accounts or missing included: a close is harmless to
      all others IF AND ONLY IF the socket is current. */
  lemma CloseIsHarmlessIffCurrent(es: seq<Event>, h: History, s: SocketId)
    requires Run(Initial, es, h) && s in h.st.sockets
    ensures Harmless(h.st, Close(h.st, s), s) <==> Current(h.st, s)
  {
    ReachableInv(es, h);
    var st, k := h.st, h.st.sockets[s];
    CloseFacts(st, s);
    CloseTables(st, s);
    if CleansUp(k) {
      var l := k.login.value;
      forall x ensures x in ClosedOut(st, s) <==> HeldIn(st, l.account, Key(l), x) { EvictedHolds(st, l, x); }
      HarmOfClose(st, Close(st, s), s, ClosedOut(st, s));
    }
  }

  lemma HarmOfClose(st: State, st': State, s: SocketId, gone: set<SocketId>)
    requires s in st.sockets && CleansUp(st.sockets[s]) && CloseStep(st.sockets, st'.sockets, s, gone)
    requires var (k, l) := (st.sockets[s], st.sockets[s].login.value);
      && st'.senders == st.senders - {Key(l)}
      && st'.proxies == (if k.name.Some? then st.proxies - {k.name.value} else st.proxies)
      && (forall x :: x in gone <==> HeldIn(st, l.account, Key(l), x))
    ensures Harmless(st, st', s) <==> Current(st, s)
  {
    var l := st.sockets[s].login.value;
    var k := st.sockets[s];
    assert forall x | x in gone && x != s :: st'.sockets[x].terminated && !st.sockets[x].terminated;
    if Harmless(st, st', s) {
      forall x | x in st.sockets && HeldIn(st, l.account, Key(l), x) ensures x == s { assert x in gone; }
    }
    if Current(st, s) {
      forall x | x in gone ensures x == s { assert HeldIn(st, l.account, Key(l), x); }
    }
  }

  /** In every run the close of a socket that was never dropped harms nobody else, if its key was used by
      sender ids in one account only. */
  lemma OnlyDroppedSocketsCloseHarmfully(es: seq<Event>, h: History, s: SocketId)
    requires Run(Initial, es, h) && Enabled(h, CloseEvent(s)) && s !in h.dropped
    requires h.st.sockets[s].login.Some? ==> SingleUse(h.st.sockets, Key(h.st.sockets[s].login.value))
    ensures Harmless(h.st, Close(h.st, s), s)
  {
    ReachableInv(es, h);
    CloseIsHarmlessIffCurrent(es, h, s);
    var k := h.st.sockets[s];
    if CleansUp(k) {
      var n := Key(k.login.value);
      assert AgreementAt(h.st.sockets, h.st.senders, n) && !Stray(k);
      RegistryAgreesWithIndex(es, h, n);
      forall x | x in h.st.sockets && h.st.sockets[x].group.Some? && h.st.sockets[x].name == k.name && k.name.Some?
        ensures x == s
      {
        assert BackPointer(h.st, x) && BackPointer(h.st, s);
        assert LogsAs(h.st.sockets[x], n);
      }
    }
  }

  /** Why the proviso is needed: the close of a socket that was dropped but not kicked out throws out whoever
      has its name in a room of its account by then. */
  lemma StrayCloseEvictsReplacement(st: State, s: SocketId, x: SocketId)
    requires Structure(st) && s in st.sockets && x in st.sockets && s != x
    requires CleansUp(st.sockets[s]) && st.sockets[x].group.Some?
    requires LogsAs(st.sockets[x], Key(st.sockets[s].login.value))
    requires st.sockets[x].login.value.account == st.sockets[s].login.value.account
    ensures x in Close(st, s).sockets && Close(st, s).sockets[x] == Removed(st.sockets[x], true)
    ensures Key(st.sockets[s].login.value) !in Close(st, s).senders
  {
    CloseFacts(st, s);
    RoomMatesGo(st, st.sockets[s].login.value, x);
  }

  // ----- Runs in which things go wrong

  lemma {:induction false} RunThen(h: History, es: seq<Event>, h': History, e: Event)
    requires Run(h, es, h') && Enabled(h', e)
    ensures Run(h, es + [e], Step(h', e))
    decreases |es|
  {
    if es == [] {
      assert ([] + [e])[1..] == [];
      assert Run(Step(h, e), [], Step(h, e));
    } else {
      RunThen(Step(h, es[0]), es[1..], h', e);
      assert (es + [e])[1..] == es[1..] + [e];
    }
  }

  /** What a socket that connects and logs in finds and leaves. */
  ghost predicate Arrived(h: History, h': History, s: SocketId, l: Login) {
    && h'.st.sockets.Keys == h.st.sockets.Keys + {s}
    && h'.st.senders == h.st.senders[Key(l) := s] && h'.latest == h.latest[Key(l) := s]
    && (var k := h'.st.sockets[s]; k.login == Some(l) && k.phase == Open && !k.terminated)
    && (h'.st.sockets[s].group.Some? <==> !Shadowed(h.st, l))
    && (Shadowed(h.st, l) ==> h'.st.groups == h.st.groups)
    && (forall x | x in h.st.sockets && x !in Evicted(h.st, l) :: h'.st.sockets[x] == h.st.sockets[x])
  }

  lemma ConnectChangesNoRoom(st: State, s: SocketId, l: Login)
    ensures var st1 := st.(sockets := st.sockets[s := Fresh]);
      Evicted(st1, l) == Evicted(st, l) && Shadowed(st1, l) == Shadowed(st, l)
  {
  }

  lemma LoginArrives(h: History, h': History, s: SocketId, l: Login)
    requires s !in h.st.sockets && h'.latest == h.latest[Key(l) := s] && h'.st.senders == h.st.senders[Key(l) := s]
    requires Joined(h.st.sockets[s := Fresh], h'.st.sockets, s, l, Evicted(h.st, l), !Shadowed(h.st, l))
    requires Shadowed(h.st, l) ==> h'.st.groups == h.st.groups
    ensures Arrived(h, h', s, l)
  {
  }

  lemma AcceptArrives(h: History, s: SocketId, l: Login)
    requires Structure(h.st) && s !in h.st.sockets
    ensures Structure(Step(h, Connect(s)).st) && Arrived(h, Step(Step(h, Connect(s)), LogIn(s, l)), s, l)
  {
    var st1 := Step(h, Connect(s)).st;
    ConnectStructure(h.st, s);
    AcceptStructure(st1, s, l);
    AcceptSockets(st1, s, l);
    ConnectChangesNoRoom(h.st, s, l);
    LoginArrives(h, Step(Step(h, Connect(s)), LogIn(s, l)), s, l);
  }

  /** A socket with a sender id that points to no group is nobody an eviction kicks out. */
  lemma NotHeld(st: State, l: Login, x: SocketId)
    requires Structure(st) && x in st.sockets && CarriesId(st.sockets[x]) && st.sockets[x].group == None
    ensures x !in Evicted(st, l)
  {
    EvictedHolds(st, l, x);
    forall u | u in st.groups && Key(l) in st.groups[u].units ensures st.groups[u].units[Key(l)] != x {
      assert Member(st, u, Key(l));
    }
  }

  /** In a reachable state: who has a group is in its room; an eviction spares who has another key or account,
      or a sender id and no group. */
  lemma RoomOf(es: seq<Event>, h: History, s: SocketId)
    requires Run(Initial, es, h) && s in h.st.sockets && h.st.sockets[s].group.Some?
    ensures InRoom(h.st, s)
  {
    ReachableInv(es, h);
    GroupMeansRoom(h.st, s);
  }

  lemma Spared(es: seq<Event>, h: History, l: Login, x: SocketId)
    requires Run(Initial, es, h) && x in h.st.sockets && h.st.sockets[x].login.Some?
    requires || l.sender == None || !LogsAs(h.st.sockets[x], Key(l)) || h.st.sockets[x].login.value.account != l.account
             || (CarriesId(h.st.sockets[x]) && h.st.sockets[x].group == None)
    ensures x !in Evicted(h.st, l)
  {
    ReachableInv(es, h);
    EvictedHolds(h.st, l, x);
    if CarriesId(h.st.sockets[x]) && h.st.sockets[x].group == None { NotHeld(h.st, l, x); }
  }

  lemma LoginThen(es: seq<Event>, h: History, s: SocketId, l: Login) returns (es': seq<Event>, h': History)
    requires Run(Initial, es, h) && s !in h.st.sockets
    ensures Run(Initial, es', h') && Arrived(h, h', s, l)
  {
    ReachableInv(es, h);
    var h1 := Step(h, Connect(s));
    RunThen(Initial, es, h, Connect(s));
    RunThen(Initial, es + [Connect(s)], h1, LogIn(s, l));
    AcceptArrives(h, s, l);
    es', h' := es + [Connect(s)] + [LogIn(s, l)], Step(h1, LogIn(s, l));
  }

  lemma LoggedOut(es: seq<Event>, h: History, s: SocketId)
    requires Run(Initial, es, h) && s in h.st.sockets
    ensures Logout(h.st, s).sockets == h.st.sockets[s := h.st.sockets[s].(group := None)]
  {
    ReachableInv(es, h);
    LogoutSockets(h.st, s);
  }

  /** A socket logs in and out again, and is connected still. */
  lemma LogoutRun(l: Login) returns (es: seq<Event>, h: History)
    requires l.sender.Some?
    ensures Run(Initial, es, h) && h.latest == map[Key(l) := 0] && h.st.sockets.Keys == {0}
    ensures var k := h.st.sockets[0]; k.login == Some(l) && k.phase == Open && k.group == None && !k.terminated
  {
    var es1, h1 := LoginThen([], Initial, 0, l);
    h := Step(h1, LogoutCommand(0));
    RunThen(Initial, es1, h1, LogoutCommand(0));
    LoggedOut(es1, h1, 0);
    es := es1 + [LogoutCommand(0)];
  }

  /** And then another one logs in under the same login. */
  lemma ReconnectRun(l: Login) returns (es: seq<Event>, h: History)
    requires l.sender.Some?
    ensures Run(Initial, es, h) && h.latest == map[Key(l) := 1] && h.st.sockets.Keys == {0, 1}
    ensures var (j, k) := (h.st.sockets[0], h.st.sockets[1]);
      && j.login == Some(l) && j.phase == Open && j.group == None && !j.terminated
      && k.login == Some(l) && k.group.Some? && !k.terminated
  {
    var es1, h1 := LogoutRun(l);
    es, h := LoginThen(es1, h1, 1, l);
    Spared(es1, h1, l, 0);
  }

  /** Log in, log out, connect again under the same login: the first socket is still open, the second one is
      the newest and in its room.  When the first closes, the second is thrown out of room and index. */
  lemma LogoutThenReconnect(l: Login) returns (es: seq<Event>, h: History)
    requires l.sender.Some?
    ensures Run(Initial, es, h) && h.latest == map[Key(l) := 1] && Enabled(h, CloseEvent(0))
    ensures 1 in h.st.sockets && InRoom(h.st, 1) && LogsAs(h.st.sockets[1], Key(l)) && !h.st.sockets[1].terminated
    ensures var st' := Step(h, CloseEvent(0)).st;
      1 in st'.sockets && st'.sockets[1].group == None && st'.sockets[1].terminated && Key(l) !in st'.senders
  {
    es, h := ReconnectRun(l);
    ReachableInv(es, h);
    GroupMeansRoom(h.st, 1);
    StrayCloseEvictsReplacement(h.st, 0, 1);
  }

  /** One sender id in two accounts: both sockets are in their rooms, the index names the second only, and so
      room and index disagree. */
  lemma SharedIdRun(l: Login, l': Login) returns (es: seq<Event>, h: History)
    requires l.sender.Some? && l'.sender == l.sender && l'.account != l.account
    ensures Run(Initial, es, h) && h.st.sockets.Keys == {0, 1} && h.st.senders == map[Key(l) := 1]
    ensures InRoom(h.st, 0) && InRoom(h.st, 1) && !Agrees(h.st, Key(l))
  {
    var es1, h1 := LoginThen([], Initial, 0, l);
    es, h := LoginThen(es1, h1, 1, l');
    Spared(es1, h1, l', 0);
    RoomOf(es, h, 0);
    RoomOf(es, h, 1);
  }

  /** A first login without sender id. */
  lemma NamelessRun(l: Login) returns (es: seq<Event>, h: History)
    requires l.sender == None
    ensures Run(Initial, es, h) && h.st.sockets.Keys == {0} && h.st.senders == map[UNDEFINED := 0]
    ensures InRoom(h.st, 0) && h.st.sockets[0].login == Some(l) && !h.st.sockets[0].terminated
    ensures h.st.sockets[0].phase == Open && Shadowed(h.st, l)
  {
    es, h := LoginThen([], Initial, 0, l);
    RoomIsTaken(es, h, 0, l);
  }

  /** The group of a socket in a room is the one its login would find taken. */
  lemma RoomIsTaken(es: seq<Event>, h: History, s: SocketId, l: Login)
    requires Run(Initial, es, h) && s in h.st.sockets && h.st.sockets[s].group.Some? && h.st.sockets[s].login == Some(l)
    ensures InRoom(h.st, s) && Taken(h.st, l)
  {
    ReachableInv(es, h);
    GroupMeansRoom(h.st, s);
    assert Member(h.st, h.st.sockets[s].group.value, Key(l));
  }

  /** Two logins without sender id to one group: the second is accepted and is whom the index names, but is in
      no room; the first holds the room.  When the first closes, room and index stay as they are: the room
      holds a closed socket, and the index names one the room does not hold. */
  lemma TwoNamelessLogins(l: Login) returns (es: seq<Event>, h: History)
    requires l.sender == None
    ensures Run(Initial, es, h) && h.st.sockets.Keys == {0, 1} && h.st.senders == map[UNDEFINED := 1]
    ensures h.st.sockets[1].login == Some(l) && h.st.sockets[1].group == None
    ensures InRoom(h.st, 0) && h.st.sockets[0].phase == Closed && !Agrees(h.st, UNDEFINED)
  {
    var es1, h1 := NamelessRun(l);
    var es2, h2 := LoginThen(es1, h1, 1, l);
    Spared(es1, h1, l, 0);
    es, h := SecondCloses(es2, h2, l);
  }

  lemma SecondCloses(es2: seq<Event>, h2: History, l: Login) returns (es: seq<Event>, h: History)
    requires l.sender == None && Run(Initial, es2, h2)
    requires h2.st.sockets.Keys == {0, 1} && h2.st.senders == map[UNDEFINED := 1]
    requires h2.st.sockets[1].login == Some(l) && h2.st.sockets[1].group == None
    requires InRoom(h2.st, 0) && h2.st.sockets[0].login == Some(l) && !h2.st.sockets[0].terminated
    requires h2.st.sockets[0].phase != Closed
    ensures Run(Initial, es, h) && h.st.sockets.Keys == {0, 1} && h.st.senders == map[UNDEFINED := 1]
    ensures h.st.sockets[1].login == Some(l) && h.st.sockets[1].group == None
    ensures InRoom(h.st, 0) && h.st.sockets[0].phase == Closed && !Agrees(h.st, UNDEFINED)
  {
    CloseCleansUpIff(es2, h2, 0);
    RunThen(Initial, es2, h2, CloseEvent(0));
    es, h := es2 + [CloseEvent(0)], Step(h2, CloseEvent(0));
    assert h.st.groups == h2.st.groups;
    var u := h2.st.sockets[0].group.value;
    assert u in h.st.groups && UNDEFINED in h.st.groups[u].units && h.st.groups[u].units[UNDEFINED] == 0;
  }
}
