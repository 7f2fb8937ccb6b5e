/** The registry of accounts, groups and units, the flat sender index beside it, and the handlers that
    connect, evict, close, log out and drop sockets, as functions on one state. */
module Rooms {
  import opened Frames
  import opened Routing

  type SocketId = nat

  /** The identity of a Group object: a detached group and a new one of the same name differ. */
  type GroupId = nat

  /** The groups of an account by their ids. */
  type Groups = map<string, GroupId>

  type Accounts = map<string, Groups>

  type Sockets = map<SocketId, Socket>

  /** A client may log in without a sender id. */
  datatype Login = Login(sender: Option<string>, account: string, group: string, actor: string)

  /** terminate() and close() only schedule the close event: until it fires the socket is Closing. */
  datatype Phase = Open | Closing | Closed

  datatype Socket = Socket(
    phase: Phase, login: Option<Login>, name: Option<string>, group: Option<GroupId>, terminated: bool)

  datatype Group = Group(account: string, id: string, units: map<string, SocketId>)

  datatype State = State(
    accounts: Accounts,
    groups: map<GroupId, Group>,
    next: GroupId,
    sockets: Sockets,
    senders: map<string, SocketId>,
    proxies: set<string>)

  const Empty := State(map[], map[], 0, map[], map[], {})

  /** What an undefined sender id reads as when it is used as the name of a property. */
  const UNDEFINED := "undefined"

  function KeyOf(sender: Option<string>): string { if sender.Some? then sender.value else UNDEFINED }

  /** The name under which a login is entered into the tables. */
  function Key(l: Login): string { KeyOf(l.sender) }

  // ----- The handlers

  /** socket.terminate() */
  function Terminated(k: Socket): Socket { if k.phase == Open then k.(phase := Closing) else k }

  /** The socket that a removal by name took out of its group. */
  function Removed(k: Socket, terminate: bool): Socket {
    var k' := k.(group := None);
    if terminate then Terminated(k'.(terminated := true)) else k'
  }

  /** Group.fn_deleteMemberByName: whichever socket has the name is removed. */
  function DeleteMember(st: State, u: GroupId, name: string, terminate: bool): State
    requires u in st.groups
  {
    var g := st.groups[u];
    if name !in g.units then st
    else
      var units := g.units - {name};
      var s := g.units[name];
      st.(groups := st.groups[u := g.(units := units)],
          sockets := if s in st.sockets then st.sockets[s := Removed(st.sockets[s], terminate)] else st.sockets,
          accounts := if units == map[] then Detached(st.accounts, g.account, g.id) else st.accounts)
  }

  /** delete m_parentAccount.m_groups[m_ID] */
  function Detached(accounts: Accounts, a: string, g: string): Accounts {
    if a in accounts then accounts[a := accounts[a] - {g}] else accounts
  }

  /** The groups `gs` of an account. */
  function GroupsOf(st: State, a: string, gs: set<string>): set<GroupId> {
    if a in st.accounts then set g | g in gs && g in st.accounts[a] :: st.accounts[a][g] else {}
  }

  /** Who holds the name in one of these groups. */
  function Holders(st: State, us: set<GroupId>, name: string): set<SocketId> {
    set u | u in us && u in st.groups && name in st.groups[u].units :: st.groups[u].units[name]
  }

  /** Removing the name leaves nobody in the group. */
  predicate Emptied(st: State, u: GroupId, name: string) {
    u in st.groups && name in st.groups[u].units && st.groups[u].units - {name} == map[]
  }

  /** fn_deleteMemberByName with terminate for each of the groups `gs` of the account. */
  function EvictAmong(st: State, a: string, name: string, gs: set<string>): State {
    if a !in st.accounts then st
    else
      var us := GroupsOf(st, a, gs);
      var gone := Holders(st, us, name);
      st.(groups := map u | u in st.groups ::
                      if u in us then st.groups[u].(units := st.groups[u].units - {name}) else st.groups[u],
          sockets := map s | s in st.sockets ::
                       if s in gone then Removed(st.sockets[s], true) else st.sockets[s],
          accounts := st.accounts[a := map g | g in st.accounts[a]
                                            && !(g in gs && Emptied(st, st.accounts[a][g], name)) ::
                                         st.accounts[a][g]])
  }

  /** An account without groups is removed. */
  function Pruned(st: State, a: string): State {
    if a in st.accounts && st.accounts[a] == map[] then st.(accounts := st.accounts - {a}) else st
  }

  /** fn_del_member_fromAccountByName with terminateSocket: every group of the account is asked for the name;
      for a login without sender id nothing is done. */
  function Evict(st: State, l: Login): State {
    if l.sender == None || l.account !in st.accounts then st
    else Pruned(EvictAmong(st, l.account, l.sender.value, st.accounts[l.account].Keys), l.account)
  }

  /** The account and group of a login, created when absent. */
  function WithGroup(st: State, l: Login): State {
    var groups := if l.account in st.accounts then st.accounts[l.account] else map[];
    if l.group in groups then st
    else st.(accounts := st.accounts[l.account := groups[l.group := st.next]],
             groups := st.groups[st.next := Group(l.account, l.group, map[])],
             next := st.next + 1)
  }

  /** The group of the login exists and has a member of that name. */
  predicate Taken(st: State, l: Login) {
    && l.account in st.accounts && l.group in st.accounts[l.account] && st.accounts[l.account][l.group] in st.groups
    && Key(l) in st.groups[st.accounts[l.account][l.group]].units
  }

  /** Group.fn_addMember; a name already there is not overridden. */
  function AddMember(st: State, s: SocketId, l: Login): State
    requires s in st.sockets
  {
    var st' := WithGroup(st, l);
    var u := GroupFor(st, l);
    if u !in st'.groups || Key(l) in st'.groups[u].units then st'
    else st'.(groups := st'.groups[u := st'.groups[u].(units := st'.groups[u].units[Key(l) := s])],
              sockets := st'.sockets[s := st'.sockets[s].(name := l.sender, group := Some(u))])
  }

  /** The group a socket with this login is added to. */
  function GroupFor(st: State, l: Login): GroupId {
    if l.account in st.accounts && l.group in st.accounts[l.account] then st.accounts[l.account][l.group] else st.next
  }

  function LoggedIn(st: State, s: SocketId, l: Login): State
    requires s in st.sockets
  {
    st.(sockets := st.sockets[s := st.sockets[s].(login := Some(l))], senders := st.senders[Key(l) := s])
  }

  /** _acceptConnection: index, kick out whoever has the name in the account, join the group. */
  function Accept(st: State, s: SocketId, l: Login): State
    requires s in st.sockets
  {
    AddMember(Evict(LoggedIn(st, s, l), l), s, l)
  }

  function Shut(st: State, s: SocketId): State {
    if s in st.sockets then st.(sockets := st.sockets[s := st.sockets[s].(phase := Closed)]) else st
  }

  /** fn_onWsClose: nothing for a socket that was kicked out, otherwise clean up by name - room, proxy and
      index each only when there is a name to go by. */
  function Close(st: State, s: SocketId): State
    requires s in st.sockets
  {
    var k := st.sockets[s];
    if k.terminated || k.login == None then Shut(st, s)
    else
      var l := k.login.value;
      var st1 := Evict(st, l);
      Shut(st1, s).(proxies := if k.name.Some? then st1.proxies - {k.name.value} else st1.proxies,
                    senders := if l.sender.Some? then st1.senders - {l.sender.value} else st1.senders)
  }

  /** fn_del_member_fromGroup, for the LogoutCommServer command: the socket itself stays connected.  One
      without a name loses its back pointer only and stays in the table. */
  function Logout(st: State, s: SocketId): State
    requires s in st.sockets
  {
    var k := st.sockets[s];
    if k.group == None then st
    else if k.name == None then st.(sockets := st.sockets[s := k.(group := None)])
    else if k.group.value in st.groups then DeleteMember(st, k.group.value, k.name.value, false)
    else st
  }

  /** A member whose send threw: removed from the group, its name deleted, its socket terminated - but
      without the mark that a kick-out leaves. */
  function Orphaned(k: Socket): Socket { Terminated(k.(group := None, name := None)) }

  /** Those of the members `names` that still point back to a group: for the others fn_handleOrphanSocket
      itself throws and changes nothing. */
  function Losable(st: State, u: GroupId, names: set<string>): set<string>
    requires u in st.groups
  {
    set n | n in names && n in st.groups[u].units && st.groups[u].units[n] in st.sockets
            && st.sockets[st.groups[u].units[n]].group.Some?
  }

  /** The members `names` leave the group as orphans. */
  function Orphan(st: State, u: GroupId, names: set<string>): State
    requires u in st.groups
  {
    var g := st.groups[u];
    var lost := set n | n in g.units && n in names :: g.units[n];
    var units := map n | n in g.units && n !in names :: g.units[n];
    st.(groups := st.groups[u := g.(units := units)],
        sockets := map s | s in st.sockets :: if s in lost then Orphaned(st.sockets[s]) else st.sockets[s],
        accounts := if units == map[] && g.units != map[] then Detached(st.accounts, g.account, g.id) else st.accounts)
  }

  /** fn_handleOrphanSocket for each of the members `names` of the group. */
  function Lose(st: State, u: GroupId, names: set<string>): State
    requires u in st.groups
  {
    Orphan(st, u, Losable(st, u, names))
  }

  function UnitOf(l: Login): Unit { Unit(l.sender, l.actor) }

  /** The members a broadcast is for. */
  function Addressed(st: State, u: GroupId, from: Option<string>, audience: Audience): set<string>
    requires u in st.groups
  {
    set n | n in st.groups[u].units && st.groups[u].units[n] in st.sockets
            && st.sockets[st.groups[u].units[n]].login.Some?
            && Hears(UnitOf(st.sockets[st.groups[u].units[n]].login.value), SenderJson(from), audience)
  }

  /** Those of them whose send throws. */
  function Failing(st: State, u: GroupId, names: set<string>, broken: set<SocketId>): set<string>
    requires u in st.groups
  {
    set n | n in names && n in st.groups[u].units && st.groups[u].units[n] in broken
  }

  // ----- The structural invariant

  ghost predicate GroupAttached(st: State, a: string, g: string)
    requires a in st.accounts && g in st.accounts[a]
  {
    var u := st.accounts[a][g];
    u in st.groups && st.groups[u].account == a && st.groups[u].id == g && st.groups[u].units != map[]
  }

  /** Whether a group is the one its account holds under its id. */
  predicate Attached(accounts: Accounts, g: Group, u: GroupId) {
    g.account in accounts && g.id in accounts[g.account] && accounts[g.account][g.id] == u
  }

  /** The socket may be in the table of group `u`: logged in to that group, not kicked out, and pointing back
      to it - unless it has no sender id; then it may have logged out and be there still. */
  predicate Belongs(k: Socket, g: Group, u: GroupId) {
    && k.login.Some? && k.login.value.account == g.account && k.login.value.group == g.id && !k.terminated
    && (k.group == Some(u) || (k.group == None && k.login.value.sender == None))
  }

  ghost predicate Member(st: State, u: GroupId, n: string)
    requires u in st.groups && n in st.groups[u].units
  {
    var (g, s) := (st.groups[u], st.groups[u].units[n]);
    && s in st.sockets && Belongs(st.sockets[s], g, u) && Key(st.sockets[s].login.value) == n
    && Attached(st.accounts, g, u)
  }

  /** A socket that points to a group is in its table under the key of its login; a name is its sender id. */
  ghost predicate BackPointer(st: State, s: SocketId)
    requires s in st.sockets
  {
    var k := st.sockets[s];
    && (k.group.Some? ==>
          && k.group.value in st.groups && k.login.Some? && !k.terminated && k.name == k.login.value.sender
          && Key(k.login.value) in st.groups[k.group.value].units
          && st.groups[k.group.value].units[Key(k.login.value)] == s)
    && (k.name.Some? ==> k.login.Some? && k.login.value.sender == k.name)
    && (k.login == None ==> !k.terminated)
  }

  ghost predicate AllAttached(st: State) {
    forall a, g | a in st.accounts && g in st.accounts[a] :: GroupAttached(st, a, g)
  }

  ghost predicate AllMembers(st: State) {
    forall u, n | u in st.groups && n in st.groups[u].units :: Member(st, u, n)
  }

  ghost predicate AllBackPointers(st: State) {
    forall s | s in st.sockets :: BackPointer(st, s)
  }

  /** The group holds the name for a socket with a sender id. */
  predicate HoldsNamed(st: State, u: GroupId, n: string) {
    && u in st.groups && n in st.groups[u].units && st.groups[u].units[n] in st.sockets
    && st.sockets[st.groups[u].units[n]].login.Some? && st.sockets[st.groups[u].units[n]].login.value.sender.Some?
  }

  ghost predicate NamesUnique(st: State) {
    forall u, v, n | HoldsNamed(st, u, n) && HoldsNamed(st, v, n) && st.groups[u].account == st.groups[v].account ::
      u == v
  }

  /** A socket with a sender id sits in a group's table under it exactly if it points back to that group; no
      attached group is empty; a sender id occurs in at most one group of an account. */
  ghost predicate Structure(st: State) {
    && AllAttached(st) && AllMembers(st) && AllBackPointers(st) && NamesUnique(st)
    && forall u | u in st.groups :: u < st.next
  }

  /** A socket is in the table of one group only. */
  lemma OnePlace(st: State, u: GroupId, n: string, v: GroupId, m: string)
    requires u in st.groups && n in st.groups[u].units && v in st.groups && m in st.groups[v].units
    requires Member(st, u, n) && Member(st, v, m) && st.groups[u].units[n] == st.groups[v].units[m]
    ensures u == v && n == m
  {
  }

  // ----- Removal by name

  lemma DeleteKeepsAttachedAt(st: State, u: GroupId, name: string, terminate: bool, a: string, g: string)
    requires u in st.groups && a in st.accounts && g in st.accounts[a] && GroupAttached(st, a, g)
    requires var st' := DeleteMember(st, u, name, terminate); a in st'.accounts && g in st'.accounts[a]
    ensures GroupAttached(DeleteMember(st, u, name, terminate), a, g)
  {
  }

  /** Only the group's own entry can be detached, and only once the group is empty. */
  lemma DetachKeepsOthers(accounts: Accounts, a: string, g: string, x: string, y: string)
    requires x in accounts && y in accounts[x] && (x != a || y != g)
    ensures var after := Detached(accounts, a, g); x in after && y in after[x] && after[x][y] == accounts[x][y]
  {
  }

  lemma DeleteKeepsMember(st: State, u: GroupId, name: string, terminate: bool, v: GroupId, n: string)
    requires u in st.groups && name in st.groups[u].units && Member(st, u, name)
    requires v in st.groups && n in st.groups[v].units && (v != u || n != name) && Member(st, v, n)
    ensures var st' := DeleteMember(st, u, name, terminate);
            v in st'.groups && n in st'.groups[v].units && Member(st', v, n)
  {
    var st' := DeleteMember(st, u, name, terminate);
    var (g, h, s) := (st.groups[u], st.groups[v], st.groups[v].units[n]);
    if s == g.units[name] { OnePlace(st, u, name, v, n); }
    assert st'.sockets[s] == st.sockets[s];
    if v == u {
      assert n in g.units - {name};
    } else {
      DetachKeepsOthers(st.accounts, g.account, g.id, h.account, h.id);
    }
  }

  lemma DeleteKeepsBackPointer(st: State, u: GroupId, name: string, terminate: bool, s: SocketId)
    requires u in st.groups && s in st.sockets && BackPointer(st, s)
    requires name in st.groups[u].units ==> Member(st, u, name)
    ensures var st' := DeleteMember(st, u, name, terminate); s in st'.sockets && BackPointer(st', s)
  {
  }

  lemma DeleteKeepsNames(st: State, u: GroupId, name: string, terminate: bool)
    requires NamesUnique(st) && u in st.groups
    ensures NamesUnique(DeleteMember(st, u, name, terminate))
  {
    var st' := DeleteMember(st, u, name, terminate);
    forall v, n | HoldsNamed(st', v, n) ensures HoldsNamed(st, v, n) {}
  }

  lemma DeleteMemberStructure(st: State, u: GroupId, name: string, terminate: bool)
    requires Structure(st) && u in st.groups && name in st.groups[u].units
    ensures Structure(DeleteMember(st, u, name, terminate))
  {
    var st' := DeleteMember(st, u, name, terminate);
    assert Member(st, u, name);
    forall a, g | a in st'.accounts && g in st'.accounts[a] ensures GroupAttached(st', a, g) {
      assert GroupAttached(st, a, g);
      DeleteKeepsAttachedAt(st, u, name, terminate, a, g);
    }
    forall v, n | v in st'.groups && n in st'.groups[v].units ensures Member(st', v, n) {
      assert Member(st, v, n);
      DeleteKeepsMember(st, u, name, terminate, v, n);
    }
    forall s | s in st'.sockets ensures BackPointer(st', s) {
      assert BackPointer(st, s);
      DeleteKeepsBackPointer(st, u, name, terminate, s);
    }
    DeleteKeepsNames(st, u, name, terminate);
  }

  // ----- Eviction

  /** A group is asked if and only if it is one of the account's attached groups `gs`. */
  lemma AskedGroup(st: State, a: string, gs: set<string>, u: GroupId)
    requires AllAttached(st) && u in st.groups
    ensures u in GroupsOf(st, a, gs)
            <==> Attached(st.accounts, st.groups[u], u) && st.groups[u].account == a && st.groups[u].id in gs
  {
    if a in st.accounts {
      forall g | g in gs && g in st.accounts[a] ensures GroupAttached(st, a, g) {}
    }
  }

  lemma AmongKeepsAttachedAt(st: State, a: string, name: string, gs: set<string>, x: string, g: string)
    requires AllAttached(st) && x in st.accounts && g in st.accounts[x] && GroupAttached(st, x, g)
    requires var st' := EvictAmong(st, a, name, gs); x in st'.accounts && g in st'.accounts[x]
    ensures GroupAttached(EvictAmong(st, a, name, gs), x, g)
  {
    var u := st.accounts[x][g];
    AskedGroup(st, a, gs, u);
    assert name !in st.groups[u].units ==> st.groups[u].units - {name} == st.groups[u].units;
  }

  /** Whoever holds the name in an asked group is the only one there under it. */
  lemma HolderGoes(st: State, us: set<GroupId>, name: string, v: GroupId, n: string)
    requires AllMembers(st) && v in st.groups && n in st.groups[v].units
    ensures st.groups[v].units[n] in Holders(st, us, name) <==> v in us && n == name
  {
    if st.groups[v].units[n] in Holders(st, us, name) {
      var u :| u in us && u in st.groups && name in st.groups[u].units
               && st.groups[u].units[name] == st.groups[v].units[n];
      assert Member(st, u, name) && Member(st, v, n);
      OnePlace(st, u, name, v, n);
    }
  }

  lemma AmongKeepsMember(st: State, a: string, name: string, gs: set<string>, v: GroupId, n: string)
    requires AllAttached(st) && AllMembers(st) && v in st.groups && n in st.groups[v].units
    requires v !in GroupsOf(st, a, gs) || n != name
    ensures var st' := EvictAmong(st, a, name, gs);
      v in st'.groups && n in st'.groups[v].units && Member(st', v, n)
  {
    assert Member(st, v, n);
    if a in st.accounts {
      HolderGoes(st, GroupsOf(st, a, gs), name, v, n);
      AskedGroup(st, a, gs, v);
      var h := st.groups[v];
      if h.account == a && h.id in gs { assert n in h.units - {name}; }
    }
  }

  lemma AmongKeepsBackPointer(st: State, a: string, name: string, gs: set<string>, s: SocketId)
    requires AllMembers(st) && s in st.sockets && BackPointer(st, s)
    ensures var st' := EvictAmong(st, a, name, gs); s in st'.sockets && BackPointer(st', s)
  {
    if a in st.accounts {
      var us := GroupsOf(st, a, gs);
      if s in Holders(st, us, name) {
        var u :| u in us && u in st.groups && name in st.groups[u].units && st.groups[u].units[name] == s;
        assert Member(st, u, name);
      } else if st.sockets[s].group.Some? {
        var v, n := st.sockets[s].group.value, Key(st.sockets[s].login.value);
        HolderGoes(st, us, name, v, n);
      }
    }
  }

  lemma AmongKeepsNames(st: State, a: string, name: string, gs: set<string>)
    requires NamesUnique(st)
    ensures NamesUnique(EvictAmong(st, a, name, gs))
  {
    var st' := EvictAmong(st, a, name, gs);
    forall v, n | HoldsNamed(st', v, n) ensures HoldsNamed(st, v, n) && st'.groups[v].account == st.groups[v].account {}
  }

  lemma EvictAmongStructure(st: State, a: string, name: string, gs: set<string>)
    requires Structure(st)
    ensures Structure(EvictAmong(st, a, name, gs))
  {
    var st' := EvictAmong(st, a, name, gs);
    forall x, g | x in st'.accounts && g in st'.accounts[x] ensures GroupAttached(st', x, g) {
      assert GroupAttached(st, x, g);
      AmongKeepsAttachedAt(st, a, name, gs, x, g);
    }
    forall v, n | v in st'.groups && n in st'.groups[v].units ensures Member(st', v, n) {
      AmongKeepsMember(st, a, name, gs, v, n);
    }
    forall s | s in st'.sockets ensures BackPointer(st', s) {
      assert BackPointer(st, s);
      AmongKeepsBackPointer(st, a, name, gs, s);
    }
    AmongKeepsNames(st, a, name, gs);
  }

  /** The structure does not speak of the index or the proxies, nor of accounts without groups. */
  lemma SameRoomsStructure(st: State, st': State)
    requires Structure(st) && st'.groups == st.groups && st'.sockets == st.sockets && st'.next == st.next
    requires forall a, g :: (a in st.accounts && g in st.accounts[a] <==> a in st'.accounts && g in st'.accounts[a])
                            && (a in st.accounts && g in st.accounts[a] ==> st'.accounts[a][g] == st.accounts[a][g])
    ensures Structure(st')
  {
    forall v, n | v in st'.groups && n in st'.groups[v].units ensures Member(st', v, n) {
      assert Member(st, v, n);
    }
    forall x, g | x in st'.accounts && g in st'.accounts[x] ensures GroupAttached(st', x, g) {
      assert GroupAttached(st, x, g);
    }
    forall x | x in st'.sockets ensures BackPointer(st', x) {
      assert BackPointer(st, x);
    }
    forall v, n | HoldsNamed(st', v, n) ensures HoldsNamed(st, v, n) {}
  }

  lemma EvictStructure(st: State, l: Login)
    requires Structure(st)
    ensures Structure(Evict(st, l))
  {
    if l.sender.Some? && l.account in st.accounts {
      var st1 := EvictAmong(st, l.account, l.sender.value, st.accounts[l.account].Keys);
      EvictAmongStructure(st, l.account, l.sender.value, st.accounts[l.account].Keys);
      SameRoomsStructure(st1, Pruned(st1, l.account));
    }
  }

  // ----- What an eviction changes

  /** Whoever an eviction for `l` kicks out: the sockets that hold its sender id in groups of its account. */
  function Evicted(st: State, l: Login): set<SocketId> {
    if l.sender == None || l.account !in st.accounts then {}
    else Holders(st, GroupsOf(st, l.account, st.accounts[l.account].Keys), l.sender.value)
  }

  /** The sockets of `gone` are kicked out, the others are as before. */
  predicate KickedOut(m: Sockets, m': Sockets, gone: set<SocketId>) {
    m'.Keys == m.Keys && forall x | x in m :: m'[x] == if x in gone then Removed(m[x], true) else m[x]
  }

  lemma EvictSockets(st: State, l: Login)
    ensures KickedOut(st.sockets, Evict(st, l).sockets, Evicted(st, l))
    ensures Evict(st, l).senders == st.senders && Evict(st, l).proxies == st.proxies && Evict(st, l).next == st.next
    ensures Evict(st, l).groups.Keys == st.groups.Keys
  {
  }

  /** After an eviction for a login with a sender id nobody in the account has it: an accept never finds it
      taken. */
  lemma EvictFreesName(st: State, l: Login, u: GroupId)
    requires Structure(st) && l.sender.Some? && u in st.groups && st.groups[u].account == l.account
    ensures u in Evict(st, l).groups && Evict(st, l).groups[u].account == l.account
    ensures Key(l) !in Evict(st, l).groups[u].units
  {
    if Key(l) in st.groups[u].units {
      assert Member(st, u, Key(l));
      AskedGroup(st, l.account, st.accounts[l.account].Keys, u);
    }
  }

  /** Some group of the account holds the name for this socket. */
  predicate HeldIn(st: State, a: string, n: string, x: SocketId) {
    exists u :: u in st.groups && st.groups[u].account == a && n in st.groups[u].units && st.groups[u].units[n] == x
  }

  /** Exactly the holders in the account are kicked out, and they have the key of the login. */
  lemma EvictedHolds(st: State, l: Login, x: SocketId)
    requires AllAttached(st) && AllMembers(st)
    ensures x in Evicted(st, l) <==> l.sender.Some? && HeldIn(st, l.account, Key(l), x)
    ensures x in Evicted(st, l) ==>
      x in st.sockets && st.sockets[x].login.Some? && Key(st.sockets[x].login.value) == Key(l)
      && st.sockets[x].login.value.account == l.account && !st.sockets[x].terminated
  {
    if l.sender.Some? {
      forall u | u in st.groups && st.groups[u].account == l.account && Key(l) in st.groups[u].units
        ensures st.groups[u].units[Key(l)] in Evicted(st, l)
      {
        assert Member(st, u, Key(l));
        AskedGroup(st, l.account, st.accounts[l.account].Keys, u);
      }
      if x in Evicted(st, l) {
        var us := GroupsOf(st, l.account, st.accounts[l.account].Keys);
        var u :| u in us && u in st.groups && Key(l) in st.groups[u].units && st.groups[u].units[Key(l)] == x;
        assert Member(st, u, Key(l));
        AskedGroup(st, l.account, st.accounts[l.account].Keys, u);
      }
    }
  }

  // ----- Login

  lemma LoggedInStructure(st: State, s: SocketId, l: Login)
    requires Structure(st) && s in st.sockets && st.sockets[s].login == None
    ensures Structure(LoggedIn(st, s, l))
  {
    var st' := LoggedIn(st, s, l);
    assert BackPointer(st, s);
    forall v, n | v in st'.groups && n in st'.groups[v].units ensures Member(st', v, n) {
      assert Member(st, v, n);
    }
    forall x, g | x in st'.accounts && g in st'.accounts[x] ensures GroupAttached(st', x, g) {
      assert GroupAttached(st, x, g);
    }
    forall x | x in st'.sockets ensures BackPointer(st', x) {
      assert BackPointer(st, x);
    }
    forall v, n | HoldsNamed(st', v, n) ensures HoldsNamed(st, v, n) { assert Member(st, v, n); }
  }

  /** The socket is ready to be added: logged in, in no group, and a sender id of its is free in the account. */
  ghost predicate Addable(st: State, s: SocketId, l: Login) {
    && s in st.sockets && st.sockets[s].login == Some(l) && st.sockets[s].group == None && !st.sockets[s].terminated
    && (l.sender.Some? ==>
          forall u | u in st.groups && st.groups[u].account == l.account :: Key(l) !in st.groups[u].units)
  }

  /** A name that is taken is not overridden, and then nothing changes. */
  lemma AddRefused(st: State, s: SocketId, l: Login)
    requires s in st.sockets && Taken(st, l)
    ensures AddMember(st, s, l) == st
  {
  }

  /** Otherwise the member is entered and the socket points back to the group. */
  lemma AddMemberTables(st: State, s: SocketId, l: Login)
    requires Structure(st) && s in st.sockets && !Taken(st, l)
    ensures var (st', u) := (AddMember(st, s, l), GroupFor(st, l));
            && st'.senders == st.senders && st'.proxies == st.proxies
            && st'.sockets == st.sockets[s := st.sockets[s].(name := l.sender, group := Some(u))]
            && st'.groups == st.groups[u := Group(l.account, l.group, UnitsFor(st, l)[Key(l) := s])]
            && u < st'.next && st.next <= st'.next
  {
    if l.account in st.accounts && l.group in st.accounts[l.account] { assert GroupAttached(st, l.account, l.group); }
  }

  /** The members of the group a login is for, before it. */
  function UnitsFor(st: State, l: Login): map<string, SocketId> {
    if GroupFor(st, l) in st.groups then st.groups[GroupFor(st, l)].units else map[]
  }

  lemma AddMemberAccounts(st: State, s: SocketId, l: Login)
    requires Structure(st) && s in st.sockets && !Taken(st, l)
    ensures var groups := if l.account in st.accounts then st.accounts[l.account] else map[];
            AddMember(st, s, l).accounts == st.accounts[l.account := groups[l.group := GroupFor(st, l)]]
  {
    if l.account in st.accounts && l.group in st.accounts[l.account] {
      assert GroupAttached(st, l.account, l.group);
      assert st.accounts[l.account] == st.accounts[l.account][l.group := GroupFor(st, l)];
      assert st.accounts == st.accounts[l.account := st.accounts[l.account]];
    }
  }

  lemma SameGroupAttached(st: State, st': State, x: string, g: string, u: GroupId)
    requires x in st.accounts && g in st.accounts[x] && x in st'.accounts && g in st'.accounts[x]
    requires GroupAttached(st, x, g) && st'.accounts[x][g] == st.accounts[x][g]
    requires u in st'.groups && st'.groups == st.groups[u := st'.groups[u]]
    requires u in st.groups ==> st.groups[u].account != x || st.groups[u].id != g
    ensures GroupAttached(st', x, g)
  {
  }

  /** The group a login is added to, if it was there before, is the one of its account and group. */
  lemma GroupForFacts(st: State, l: Login)
    requires Structure(st)
    ensures GroupFor(st, l) in st.groups ==>
      st.groups[GroupFor(st, l)].account == l.account && st.groups[GroupFor(st, l)].id == l.group
  {
    if GroupFor(st, l) in st.groups { assert GroupAttached(st, l.account, l.group); }
  }

  lemma AddKeepsAttached(st: State, s: SocketId, l: Login)
    requires Structure(st) && Addable(st, s, l) && !Taken(st, l)
    ensures AllAttached(AddMember(st, s, l))
  {
    AddMemberTables(st, s, l);
    AddMemberAccounts(st, s, l);
    GroupForFacts(st, l);
    var (st', u) := (AddMember(st, s, l), GroupFor(st, l));
    forall x, g | x in st'.accounts && g in st'.accounts[x] ensures GroupAttached(st', x, g) {
      if x != l.account || g != l.group {
        assert x in st.accounts && g in st.accounts[x] && st'.accounts[x][g] == st.accounts[x][g];
        assert GroupAttached(st, x, g);
        SameGroupAttached(st, st', x, g, u);
      }
    }
  }

  /** A member before an add is one after it. */
  lemma AddKeepsMember(st: State, s: SocketId, l: Login, v: GroupId, n: string)
    requires Structure(st) && Addable(st, s, l) && !Taken(st, l) && v in st.groups && n in st.groups[v].units
    ensures var st' := AddMember(st, s, l);
      && v in st'.groups && n in st'.groups[v].units && st'.groups[v].units[n] == st.groups[v].units[n]
      && Member(st', v, n)
  {
    AddMemberTables(st, s, l);
    AddMemberAccounts(st, s, l);
    GroupForFacts(st, l);
    assert Member(st, v, n);
    assert Key(l) !in UnitsFor(st, l);
    MemberIsKept(st, AddMember(st, s, l), s, l, v, n);
  }

  lemma MemberIsKept(st: State, st': State, s: SocketId, l: Login, v: GroupId, n: string)
    requires v in st.groups && n in st.groups[v].units && Member(st, v, n)
    requires s in st.sockets && st.sockets[s].login == Some(l)
    requires Key(l) !in UnitsFor(st, l) && st.sockets[s].group == None
    requires var u := GroupFor(st, l);
      && (u in st.groups ==> st.groups[u].account == l.account && st.groups[u].id == l.group)
      && st'.sockets == st.sockets[s := st.sockets[s].(name := l.sender, group := Some(u))]
      && st'.groups == st.groups[u := Group(l.account, l.group, UnitsFor(st, l)[Key(l) := s])]
    requires var groups := if l.account in st.accounts then st.accounts[l.account] else map[];
      st'.accounts == st.accounts[l.account := groups[l.group := GroupFor(st, l)]]
    requires v < st.next
    ensures v in st'.groups && n in st'.groups[v].units && st'.groups[v].units[n] == st.groups[v].units[n]
    ensures Member(st', v, n)
  {
    var h, x := st.groups[v], st.groups[v].units[n];
    assert x == s ==> v == GroupFor(st, l);
  }

  lemma AddKeepsMembers(st: State, s: SocketId, l: Login)
    requires Structure(st) && Addable(st, s, l) && !Taken(st, l)
    ensures AllMembers(AddMember(st, s, l))
  {
    AddMemberTables(st, s, l);
    AddMemberAccounts(st, s, l);
    var (st', u) := (AddMember(st, s, l), GroupFor(st, l));
    forall v, n | v in st'.groups && n in st'.groups[v].units ensures Member(st', v, n) {
      if v in st.groups && n in st.groups[v].units {
        AddKeepsMember(st, s, l, v, n);
      } else {
        assert v == u && n == Key(l);
      }
    }
  }

  lemma AddKeepsBackPointer(st: State, st': State, s: SocketId, l: Login, u: GroupId, x: SocketId)
    requires s in st.sockets && st.sockets[s].login == Some(l) && !st.sockets[s].terminated
    requires x in st.sockets && BackPointer(st, x)
    requires var units := if u in st.groups then st.groups[u].units else map[];
      Key(l) !in units && st'.groups == st.groups[u := Group(l.account, l.group, units[Key(l) := s])]
    requires st'.sockets == st.sockets[s := st.sockets[s].(name := l.sender, group := Some(u))]
    ensures BackPointer(st', x) && (x == s ==> InRoom(st', s))
  {
  }

  lemma AddKeepsBackPointers(st: State, s: SocketId, l: Login)
    requires Structure(st) && Addable(st, s, l) && !Taken(st, l)
    ensures AllBackPointers(AddMember(st, s, l)) && InRoom(AddMember(st, s, l), s)
  {
    AddMemberTables(st, s, l);
    FreeUnits(st, l);
    var st' := AddMember(st, s, l);
    forall x | x in st'.sockets ensures BackPointer(st', x) && (x == s ==> InRoom(st', s)) {
      assert BackPointer(st, x);
      AddKeepsBackPointer(st, st', s, l, GroupFor(st, l), x);
    }
  }

  /** A login that is not refused finds its key free in its group. */
  lemma FreeUnits(st: State, l: Login)
    requires !Taken(st, l) && forall u | u in st.groups :: u < st.next
    ensures Key(l) !in UnitsFor(st, l)
  {
  }

  lemma AddedNames(st: State, st': State, s: SocketId, l: Login, u: GroupId)
    requires NamesUnique(st) && s in st.sockets && st.sockets[s].login == Some(l)
    requires l.sender.Some? ==>
      forall v | v in st.groups && st.groups[v].account == l.account :: Key(l) !in st.groups[v].units
    requires u in st.groups ==> st.groups[u].account == l.account
    requires st'.sockets == st.sockets[s := st.sockets[s].(name := l.sender, group := Some(u))]
    requires var units := if u in st.groups then st.groups[u].units else map[];
      st'.groups == st.groups[u := Group(l.account, l.group, units[Key(l) := s])]
    ensures NamesUnique(st')
  {
    forall v, n | HoldsNamed(st', v, n)
      ensures || (v == u && n == Key(l) && l.sender.Some?)
              || (HoldsNamed(st, v, n) && st'.groups[v].account == st.groups[v].account)
    {
    }
  }

  lemma AddKeepsNamesUnique(st: State, s: SocketId, l: Login)
    requires Structure(st) && Addable(st, s, l) && !Taken(st, l)
    ensures NamesUnique(AddMember(st, s, l))
  {
    AddMemberTables(st, s, l);
    GroupForFacts(st, l);
    AddedNames(st, AddMember(st, s, l), s, l, GroupFor(st, l));
  }

  /** The socket points to a group, and that has it under its key. */
  ghost predicate InRoom(st: State, s: SocketId) {
    && s in st.sockets && st.sockets[s].group.Some? && st.sockets[s].login.Some?
    && st.sockets[s].group.value in st.groups
    && Key(st.sockets[s].login.value) in st.groups[st.sockets[s].group.value].units
    && st.groups[st.sockets[s].group.value].units[Key(st.sockets[s].login.value)] == s
  }

  lemma AddMemberStructure(st: State, s: SocketId, l: Login)
    requires Structure(st) && Addable(st, s, l)
    ensures Structure(AddMember(st, s, l)) && (!Taken(st, l) ==> InRoom(AddMember(st, s, l), s))
  {
    if Taken(st, l) {
      AddRefused(st, s, l);
    } else {
      AddMemberTables(st, s, l);
      AddKeepsMembers(st, s, l);
      AddKeepsAttached(st, s, l);
      AddKeepsBackPointers(st, s, l);
      AddKeepsNamesUnique(st, s, l);
    }
  }

  /** Before the add of an accept: the sender id, if there is one, is free in its account. */
  lemma AcceptReady(st: State, s: SocketId, l: Login)
    requires Structure(st) && s in st.sockets && st.sockets[s].login == None
    ensures var st2 := Evict(LoggedIn(st, s, l), l); Structure(st2) && Addable(st2, s, l)
  {
    assert BackPointer(st, s);
    var st1 := LoggedIn(st, s, l);
    LoggedInStructure(st, s, l);
    EvictStructure(st1, l);
    EvictSockets(st1, l);
    NewcomerIsSpared(st, s, l);
    if l.sender.Some? {
      var st2 := Evict(st1, l);
      forall u | u in st2.groups && st2.groups[u].account == l.account ensures Key(l) !in st2.groups[u].units {
        assert u in st1.groups && st1.groups[u].account == l.account;
        EvictFreesName(st1, l, u);
      }
    }
  }

  /** A socket that has just got its login is in no room and so is not kicked out. */
  lemma NewcomerIsSpared(st: State, s: SocketId, l: Login)
    requires Structure(st) && s in st.sockets && st.sockets[s].login == None
    ensures s !in Evicted(LoggedIn(st, s, l), l) && Evicted(LoggedIn(st, s, l), l) == Evicted(st, l)
  {
    EvictedHolds(st, l, s);
  }

  /** The group of the login has its key already and nobody is evicted for it: the one case in which an accept
      leads to no room. */
  predicate Shadowed(st: State, l: Login) { l.sender == None && Taken(st, l) }

  lemma TakenAfterEviction(st: State, s: SocketId, l: Login)
    requires Structure(st) && s in st.sockets && st.sockets[s].login == None
    ensures Taken(Evict(LoggedIn(st, s, l), l), l) <==> Shadowed(st, l)
  {
    AcceptReady(st, s, l);
    var st2 := Evict(LoggedIn(st, s, l), l);
    if l.account in st2.accounts && l.group in st2.accounts[l.account] {
      assert GroupAttached(st2, l.account, l.group);
    }
  }

  /** An accept keeps the structure.  The socket ends in the room of its login IF AND ONLY IF it has a sender
      id or the key of those without one is free in that room; otherwise it is recorded and indexed only. */
  lemma AcceptStructure(st: State, s: SocketId, l: Login)
    requires Structure(st) && s in st.sockets && st.sockets[s].login == None
    ensures var st' := Accept(st, s, l);
      && Structure(st')
      && (InRoom(st', s) <==> !Shadowed(st, l))
      && (Shadowed(st, l) ==> st' == LoggedIn(st, s, l))
  {
    AcceptReady(st, s, l);
    TakenAfterEviction(st, s, l);
    AddMemberStructure(Evict(LoggedIn(st, s, l), l), s, l);
    assert BackPointer(st, s);
    if Shadowed(st, l) { AddRefused(LoggedIn(st, s, l), s, l); }
  }

  /** Between the socket tables of an accept: the new socket has its login, and its room unless it was
      refused; those of `gone` are kicked out; the others are as before. */
  predicate Joined(m: Sockets, m': Sockets, s: SocketId, l: Login, gone: set<SocketId>, admitted: bool) {
    && s in m && m'.Keys == m.Keys && s !in gone
    && m'[s].login == Some(l) && m'[s].terminated == m[s].terminated && m'[s].phase == m[s].phase
    && (if admitted then m'[s].group.Some? else m'[s].group == m[s].group)
    && forall x | x in m && x != s :: m'[x] == if x in gone then Removed(m[x], true) else m[x]
  }

  lemma JoinedByAdd(m: Sockets, m2: Sockets, m': Sockets, s: SocketId, l: Login, gone: set<SocketId>, admitted: bool)
    requires s in m && s !in gone && KickedOut(m[s := m[s].(login := Some(l))], m2, gone) && m'.Keys == m2.Keys
    requires forall x | x in m2 && x != s :: m'[x] == m2[x]
    requires m'[s] == if admitted then m2[s].(name := l.sender, group := m'[s].group) else m2[s]
    requires admitted ==> m'[s].group.Some?
    ensures Joined(m, m', s, l, gone, admitted)
  {
  }

  /** An accept changes the records of the new socket and of those it kicks out, and the index at its key. */
  lemma AcceptSockets(st: State, s: SocketId, l: Login)
    requires Structure(st) && s in st.sockets && st.sockets[s].login == None
    ensures Joined(st.sockets, Accept(st, s, l).sockets, s, l, Evicted(st, l), !Shadowed(st, l))
    ensures Accept(st, s, l).senders == st.senders[Key(l) := s] && Accept(st, s, l).proxies == st.proxies
  {
    var st1 := LoggedIn(st, s, l);
    var st2 := Evict(st1, l);
    AcceptReady(st, s, l);
    EvictSockets(st1, l);
    NewcomerIsSpared(st, s, l);
    TakenAfterEviction(st, s, l);
    if Shadowed(st, l) {
      AddRefused(st2, s, l);
      assert BackPointer(st, s);
    } else {
      AddMemberTables(st2, s, l);
    }
    JoinedByAdd(st.sockets, st2.sockets, AddMember(st2, s, l).sockets, s, l, Evicted(st, l), !Shadowed(st, l));
  }

  /** Who holds the key of a login after its eviction: whom that has not asked, and nobody else. */
  lemma EvictHolders(st: State, l: Login, u: GroupId)
    requires Structure(st) && u in st.groups
    ensures var us, us' := st.groups[u].units, Evict(st, l).groups[u].units;
      && (Key(l) in us' <==> Key(l) in us && (l.sender == None || st.groups[u].account != l.account))
      && (Key(l) in us' ==> us'[Key(l)] == us[Key(l)])
  {
    if l.sender.Some? && l.account in st.accounts { AskedGroup(st, l.account, st.accounts[l.account].Keys, u); }
    if l.sender.Some? && st.groups[u].account == l.account { EvictFreesName(st, l, u); }
  }

  /** The group holds the key for another socket than `s`. */
  predicate HeldByOther(st: State, u: GroupId, n: string, s: SocketId) {
    u in st.groups && n in st.groups[u].units && st.groups[u].units[n] != s
  }

  lemma AddHolders(st: State, s: SocketId, l: Login, u: GroupId)
    requires Structure(st) && Addable(st, s, l)
    ensures HeldByOther(AddMember(st, s, l), u, Key(l), s) <==> HeldByOther(st, u, Key(l), s)
  {
    if Taken(st, l) { AddRefused(st, s, l); } else { AddMemberTables(st, s, l); }
  }

  /** After an accept a group holds the key for another socket exactly if it did before and was not asked: it is
      in another account, or the login has no sender id and evicts nobody. */
  lemma AcceptHolders(st: State, s: SocketId, l: Login, u: GroupId)
    requires Structure(st) && s in st.sockets && st.sockets[s].login == None
    ensures HeldByOther(Accept(st, s, l), u, Key(l), s) <==>
      u in st.groups && Key(l) in st.groups[u].units && (l.sender == None || st.groups[u].account != l.account)
  {
    var st1 := LoggedIn(st, s, l);
    AcceptReady(st, s, l);
    LoggedInStructure(st, s, l);
    EvictSockets(st1, l);
    AddHolders(Evict(st1, l), s, l, u);
    if u in st.groups {
      EvictHolders(st1, l, u);
      if Key(l) in st.groups[u].units { assert Member(st, u, Key(l)); }
    }
  }

  /** The two states hold the name in the same groups for the same sockets. */
  predicate SameHolders(st: State, st': State, n: string) {
    && (forall u | u in st.groups && n in st.groups[u].units ::
          u in st'.groups && n in st'.groups[u].units && st'.groups[u].units[n] == st.groups[u].units[n])
    && (forall u | u in st'.groups && n in st'.groups[u].units :: u in st.groups && n in st.groups[u].units)
  }

  lemma EvictKeepsOthers(st: State, l: Login, n: string)
    requires n != Key(l)
    ensures SameHolders(st, Evict(st, l), n)
  {
  }

  lemma AddKeepsOthers(st: State, s: SocketId, l: Login, n: string)
    requires Structure(st) && s in st.sockets && n != Key(l)
    ensures SameHolders(st, AddMember(st, s, l), n)
  {
    if Taken(st, l) { AddRefused(st, s, l); } else { AddMemberTables(st, s, l); }
  }

  /** Under other keys an accept changes nothing. */
  lemma AcceptKeepsOthers(st: State, s: SocketId, l: Login, n: string)
    requires Structure(st) && s in st.sockets && st.sockets[s].login == None && n != Key(l)
    ensures SameHolders(st, Accept(st, s, l), n)
  {
    var st1 := LoggedIn(st, s, l);
    AcceptReady(st, s, l);
    EvictSockets(st1, l);
    EvictKeepsOthers(st1, l, n);
    AddKeepsOthers(Evict(st1, l), s, l, n);
  }

  // ----- Close and logout

  lemma ShutStructure(st: State, s: SocketId)
    requires Structure(st)
    ensures Structure(Shut(st, s))
  {
    var st' := Shut(st, s);
    forall v, n | v in st'.groups && n in st'.groups[v].units ensures Member(st', v, n) {
      assert Member(st, v, n);
    }
    forall x, g | x in st'.accounts && g in st'.accounts[x] ensures GroupAttached(st', x, g) {
      assert GroupAttached(st, x, g);
    }
    forall x | x in st'.sockets ensures BackPointer(st', x) {
      assert BackPointer(st, x);
    }
    forall v, n | HoldsNamed(st', v, n) ensures HoldsNamed(st, v, n) {}
  }

  /** Whom the close of a socket kicks out: whoever has its sender id in its account, itself included. */
  function ClosedOut(st: State, s: SocketId): set<SocketId>
    requires s in st.sockets
  {
    var k := st.sockets[s];
    if k.terminated || k.login == None then {} else Evicted(st, k.login.value)
  }

  lemma CloseStructure(st: State, s: SocketId)
    requires Structure(st) && s in st.sockets
    ensures Structure(Close(st, s))
  {
    var k := st.sockets[s];
    if k.terminated || k.login == None {
      ShutStructure(st, s);
    } else {
      var st1 := Evict(st, k.login.value);
      EvictStructure(st, k.login.value);
      ShutStructure(st1, s);
      SameRoomsStructure(Shut(st1, s), Close(st, s));
    }
  }

  lemma CloseTables(st: State, s: SocketId)
    requires s in st.sockets
    ensures var (st', k) := (Close(st, s), st.sockets[s]);
      var m := map x | x in st.sockets :: if x in ClosedOut(st, s) then Removed(st.sockets[x], true) else st.sockets[x];
      && st'.sockets == m[s := m[s].(phase := Closed)]
      && st'.senders == (if !k.terminated && k.login.Some? && k.login.value.sender.Some?
                         then st.senders - {k.login.value.sender.value} else st.senders)
      && st'.proxies == (if !k.terminated && k.login.Some? && k.name.Some?
                         then st.proxies - {k.name.value} else st.proxies)
  {
    var k := st.sockets[s];
    if !k.terminated && k.login.Some? { EvictSockets(st, k.login.value); }
  }

  /** A nameless socket that loses its back pointer may stay where it is. */
  lemma UnpointedMember(st: State, s: SocketId, v: GroupId, n: string)
    requires s in st.sockets && st.sockets[s].login.Some? && st.sockets[s].login.value.sender == None
    requires v in st.groups && n in st.groups[v].units && Member(st, v, n)
    ensures Member(st.(sockets := st.sockets[s := st.sockets[s].(group := None)]), v, n)
  {
  }

  lemma UnpointedStructure(st: State, s: SocketId)
    requires Structure(st) && s in st.sockets && st.sockets[s].login.Some? && st.sockets[s].login.value.sender == None
    ensures Structure(st.(sockets := st.sockets[s := st.sockets[s].(group := None)]))
  {
    var st' := st.(sockets := st.sockets[s := st.sockets[s].(group := None)]);
    forall v, n | v in st'.groups && n in st'.groups[v].units ensures Member(st', v, n) {
      assert Member(st, v, n);
      UnpointedMember(st, s, v, n);
    }
    forall x, g | x in st'.accounts && g in st'.accounts[x] ensures GroupAttached(st', x, g) {
      assert GroupAttached(st, x, g);
    }
    forall x | x in st'.sockets ensures BackPointer(st', x) {
      assert BackPointer(st, x);
    }
    forall v, n | HoldsNamed(st', v, n) ensures HoldsNamed(st, v, n) {}
  }

  lemma LogoutStructure(st: State, s: SocketId)
    requires Structure(st) && s in st.sockets
    ensures Structure(Logout(st, s))
  {
    var k := st.sockets[s];
    assert BackPointer(st, s);
    if k.group.Some? && k.name.Some? { DeleteMemberStructure(st, k.group.value, k.name.value, false); }
    if k.group.Some? && k.name == None { UnpointedStructure(st, s); }
  }

  /** A logout clears the back pointer of that socket and touches no other, nor the index. */
  lemma LogoutSockets(st: State, s: SocketId)
    requires Structure(st) && s in st.sockets
    ensures Logout(st, s).sockets == st.sockets[s := st.sockets[s].(group := None)]
    ensures Logout(st, s).senders == st.senders && Logout(st, s).groups.Keys == st.groups.Keys
  {
    assert BackPointer(st, s);
  }

  // ----- Broadcast with failing sends

  lemma OrphanKeepsMember(st: State, u: GroupId, names: set<string>, v: GroupId, n: string)
    requires AllMembers(st) && u in st.groups && v in st.groups && n in st.groups[v].units && (v != u || n !in names)
    ensures var st' := Orphan(st, u, names);
      v in st'.groups && n in st'.groups[v].units && Member(st', v, n)
  {
    assert Member(st, v, n);
    var (g, h, s, st') := (st.groups[u], st.groups[v], st.groups[v].units[n], Orphan(st, u, names));
    forall m | m in g.units && m in names ensures g.units[m] != s {
      assert Member(st, u, m);
      if g.units[m] == s { OnePlace(st, u, m, v, n); }
    }
    assert st'.sockets[s] == st.sockets[s];
    if v != u && g.units != map[] {
      var m :| m in g.units;
      assert Member(st, u, m);
      DetachKeepsOthers(st.accounts, g.account, g.id, h.account, h.id);
    }
  }

  lemma OrphanKeepsAttachedAt(st: State, u: GroupId, names: set<string>, a: string, g: string)
    requires u in st.groups && a in st.accounts && g in st.accounts[a] && GroupAttached(st, a, g)
    requires var st' := Orphan(st, u, names); a in st'.accounts && g in st'.accounts[a]
    ensures GroupAttached(Orphan(st, u, names), a, g)
  {
  }

  lemma OrphanKeepsBackPointer(st: State, u: GroupId, names: set<string>, s: SocketId)
    requires AllMembers(st) && u in st.groups && s in st.sockets && BackPointer(st, s)
    ensures var st' := Orphan(st, u, names); s in st'.sockets && BackPointer(st', s)
  {
    forall m | m in st.groups[u].units && m in names && st.groups[u].units[m] == s
      ensures st.sockets[s].login.Some? && !st.sockets[s].terminated && Key(st.sockets[s].login.value) == m
    {
      assert Member(st, u, m);
    }
  }

  lemma OrphanStructure(st: State, u: GroupId, names: set<string>)
    requires Structure(st) && u in st.groups
    ensures Structure(Orphan(st, u, names))
  {
    var st' := Orphan(st, u, names);
    forall v, n | v in st'.groups && n in st'.groups[v].units ensures Member(st', v, n) {
      OrphanKeepsMember(st, u, names, v, n);
    }
    forall a, g | a in st'.accounts && g in st'.accounts[a] ensures GroupAttached(st', a, g) {
      assert GroupAttached(st, a, g);
      OrphanKeepsAttachedAt(st, u, names, a, g);
    }
    forall s | s in st'.sockets ensures BackPointer(st', s) {
      assert BackPointer(st, s);
      OrphanKeepsBackPointer(st, u, names, s);
    }
    forall v, n | HoldsNamed(st', v, n) ensures HoldsNamed(st, v, n) && st'.groups[v].account == st.groups[v].account {}
  }

  lemma LoseStructure(st: State, u: GroupId, names: set<string>)
    requires Structure(st) && u in st.groups
    ensures Structure(Lose(st, u, names))
  {
    OrphanStructure(st, u, Losable(st, u, names));
  }

  /** Out of its room without a kick-out: name and back pointer cleared, closing, not marked. */
  predicate ThrownOut(k: Socket, k': Socket) {
    k'.group == None && k'.name == None && k'.phase != Open && k'.terminated == k.terminated && k'.login == k.login
  }

  /** Taking members out of a group clears exactly their records. */
  lemma OrphanIsExact(st: State, u: GroupId, names: set<string>)
    requires Structure(st) && u in st.groups
    ensures var (st', units) := (Orphan(st, u, names), st.groups[u].units);
      && (forall n | n in units :: n in st'.groups[u].units <==> n !in names)
      && (forall n | n in st'.groups[u].units :: n in units && st'.groups[u].units[n] == units[n])
      && (forall n | n in units && n in names ::
            units[n] in st.sockets && ThrownOut(st.sockets[units[n]], st'.sockets[units[n]]))
      && (forall s | s in st.sockets && st'.sockets[s] != st.sockets[s] ::
            exists n :: n in units && n in names && units[n] == s)
  {
    var units := st.groups[u].units;
    forall n | n in units ensures units[n] in st.sockets { assert Member(st, u, n); }
  }

  /** Not the sender's own id, and of the actor type that is asked for, if one is. */
  predicate IsAddressed(l: Login, from: Option<string>, audience: Audience) {
    l.sender != from && match audience case Everyone => true case Only(actor) => l.actor == actor
  }

  /** A broadcast whose sends to `broken` sockets throw takes exactly the addressed members among them that
      still point back to the group out of it, and no other socket changes.  Only a member without sender id
      that has logged out does not point back; it stays. */
  lemma LossIsExact(st: State, u: GroupId, from: Option<string>, audience: Audience, broken: set<SocketId>)
    requires Structure(st) && u in st.groups
    ensures var heard := Addressed(st, u, from, audience);
      var st' := Lose(st, u, Failing(st, u, heard, broken));
      var units, units' := st.groups[u].units, st'.groups[u].units;
      && (forall n | n in units ::
            && units[n] in st.sockets && st.sockets[units[n]].login.Some?
            && (n in units' <==> !(units[n] in broken && st.sockets[units[n]].group == Some(u)
                                   && IsAddressed(st.sockets[units[n]].login.value, from, audience))))
      && (forall n | n in units' :: n in units && units'[n] == units[n])
      && (forall n | n in units && n !in units' :: ThrownOut(st.sockets[units[n]], st'.sockets[units[n]]))
      && (forall s | s in st.sockets && st'.sockets[s] != st.sockets[s] ::
            exists n :: n in units && n !in units' && units[n] == s)
      && (forall n | n in units && st.sockets[units[n]].group == None ::
            st.sockets[units[n]].login.value.sender == None)
  {
    var names := Failing(st, u, Addressed(st, u, from, audience), broken);
    var units := st.groups[u].units;
    forall n | n in units
      ensures units[n] in st.sockets && st.sockets[units[n]].login.Some?
      ensures || st.sockets[units[n]].group == Some(u)
              || (st.sockets[units[n]].group == None && st.sockets[units[n]].login.value.sender == None)
    {
      assert Member(st, u, n);
    }
    OrphanIsExact(st, u, Losable(st, u, names));
  }

  lemma MembersAttach(st: State, u: GroupId)
    requires Structure(st) && u in st.groups && st.groups[u].units != map[]
    ensures Attached(st.accounts, st.groups[u], u)
  {
    var n :| n in st.groups[u].units;
    assert Member(st, u, n);
  }

  lemma OrphanDetachesHere(st: State, u: GroupId, names: set<string>)
    requires u in st.groups && st.groups[u].units != map[] && Attached(st.accounts, st.groups[u], u)
    ensures var st' := Orphan(st, u, names); Attached(st'.accounts, st'.groups[u], u) <==> st'.groups[u].units != map[]
  {
  }

  lemma OrphanDetachesNoOther(st: State, u: GroupId, names: set<string>, v: GroupId)
    requires Structure(st) && u in st.groups && st.groups[u].units != map[]
    requires v in st.groups && v != u && st.groups[v].units != map[]
    ensures var st' := Orphan(st, u, names); v in st'.groups && Attached(st'.accounts, st'.groups[v], v)
  {
    MembersAttach(st, v);
    MembersAttach(st, u);
    DetachKeepsOthers(st.accounts, st.groups[u].account, st.groups[u].id, st.groups[v].account, st.groups[v].id);
  }

  /** A loss detaches the group if and only if it empties it, and detaches no other group with members. */
  lemma LossDetachesIffEmpty(st: State, u: GroupId, names: set<string>)
    requires Structure(st) && u in st.groups && st.groups[u].units != map[]
    ensures var st' := Lose(st, u, names);
      && (Attached(st'.accounts, st'.groups[u], u) <==> st'.groups[u].units != map[])
      && (forall v | v in st.groups && v != u && st.groups[v].units != map[] ::
            v in st'.groups && Attached(st'.accounts, st'.groups[v], v))
  {
    MembersAttach(st, u);
    OrphanDetachesHere(st, u, Losable(st, u, names));
    forall v | v in st.groups && v != u && st.groups[v].units != map[]
      ensures var st' := Lose(st, u, names); v in st'.groups && Attached(st'.accounts, st'.groups[v], v)
    {
      OrphanDetachesNoOther(st, u, Losable(st, u, names), v);
    }
  }
}
