/** The registry as the server holds it: module tables changed in place by the handlers, each proved
    against its function on the whole state. */
module ChatServer {
  import opened Frames
  import opened Routing
  import opened Rooms
  import opened Lifecycle

  class ChatServer {
    var accounts: map<string, map<string, GroupId>>
    var groups: map<GroupId, Group>
    var next: GroupId
    var sockets: map<SocketId, Socket>
    var senders: map<string, SocketId>
    var proxies: set<string>

    constructor ()
      ensures Now() == Empty
    {
      accounts, groups, next, sockets, senders, proxies := map[], map[], 0, map[], map[], {};
    }

    function Now(): State
      reads this
    {
      State(accounts, groups, next, sockets, senders, proxies)
    }

    /** Group.fn_deleteMemberByName */
    method DeleteMemberByName(u: GroupId, name: string, terminate: bool)
      requires u in groups
      modifies this
      ensures Now() == DeleteMember(old(Now()), u, name, terminate)
    {
      var g := groups[u];
      if name in g.units {
        var oldSocket := g.units[name];
        var units := g.units - {name};
        groups := groups[u := g.(units := units)];
        if oldSocket in sockets {
          sockets := sockets[oldSocket := sockets[oldSocket].(group := None)];
        }
        if units == map[] && g.account in accounts {
          accounts := accounts[g.account := accounts[g.account] - {g.id}];
        }
        if terminate && oldSocket in sockets {
          sockets := sockets[oldSocket := sockets[oldSocket].(terminated := true)];
          sockets := sockets[oldSocket := Terminated(sockets[oldSocket])];
        }
      }
    }

    /** fn_del_member_fromAccountByName with terminateSocket: nothing without a sender id or an account. */
    method DelMemberFromAccountByName(l: Login)
      requires Structure(Now())
      modifies this
      ensures Now() == Evict(old(Now()), l)
    {
      if l.sender.Some? && l.account in accounts {
        DelMemberFromGroups(l.account, l.sender.value);
      }
    }

    /** Account.fn_del_member_fromAccountByName: asks every group of the account, in any order, and drops the
        account when it is left without groups. */
    method DelMemberFromGroups(a: string, name: string)
      requires Structure(Now()) && a in accounts
      modifies this
      ensures Now() == Pruned(EvictAmong(old(Now()), a, name, old(accounts[a].Keys)), a)
    {
      ghost var st := Now();
      var snapshot := accounts[a];
      var todo := snapshot.Keys;
      NoneAsked(st, a, name);
      while todo != {}
        invariant todo <= snapshot.Keys && Asked(st, Now(), a, name, todo)
        decreases todo
      {
        var g :| g in todo;
        OneMoreAsked(st, Now(), a, name, todo, g);
        DeleteMemberByName(snapshot[g], name, true);
        todo := todo - {g};
      }
      AllAsked(st, Now(), a, name);
      if accounts[a] == map[] {
        accounts := accounts - {a};
      }
    }

    /** All groups of the account but those of `todo` have been asked for the name. */
    ghost predicate Asked(st: State, now: State, a: string, name: string, todo: set<string>) {
      && a in st.accounts && todo <= st.accounts[a].Keys
      && now == EvictAmong(st, a, name, st.accounts[a].Keys - todo)
    }

    lemma NoneAsked(st: State, a: string, name: string)
      requires a in st.accounts
      ensures Asked(st, st, a, name, st.accounts[a].Keys)
    {
      var st' := EvictAmong(st, a, name, {});
      assert st.accounts[a].Keys - st.accounts[a].Keys == {};
      assert GroupsOf(st, a, {}) == {} && Holders(st, {}, name) == {};
      assert st'.groups == st.groups && st'.sockets == st.sockets && st'.accounts[a] == st.accounts[a];
      assert st'.accounts == st.accounts;
    }

    lemma OneMoreAsked(st: State, now: State, a: string, name: string, todo: set<string>, g: string)
      requires AllAttached(st) && AllMembers(st) && Asked(st, now, a, name, todo) && g in todo
      ensures st.accounts[a][g] in now.groups
      ensures Asked(st, DeleteMember(now, st.accounts[a][g], name, true), a, name, todo - {g})
    {
      AmongOneMore(st, a, name, st.accounts[a].Keys - todo, g);
      assert st.accounts[a].Keys - todo + {g} == st.accounts[a].Keys - (todo - {g});
    }

    lemma AllAsked(st: State, now: State, a: string, name: string)
      requires Asked(st, now, a, name, {})
      ensures a in now.accounts && now == EvictAmong(st, a, name, st.accounts[a].Keys)
    {
      assert st.accounts[a].Keys - {} == st.accounts[a].Keys;
    }

    /** The groups of an account are different ones. */
    lemma OtherGroup(st: State, a: string, gs: set<string>, g: string)
      requires AllAttached(st) && a in st.accounts && g in st.accounts[a] && g !in gs && gs <= st.accounts[a].Keys
      ensures st.accounts[a][g] in st.groups && st.groups[st.accounts[a][g]].account == a
      ensures st.groups[st.accounts[a][g]].id == g
      ensures st.accounts[a][g] !in GroupsOf(st, a, gs)
      ensures GroupsOf(st, a, gs + {g}) == GroupsOf(st, a, gs) + {st.accounts[a][g]}
    {
      assert GroupAttached(st, a, g);
      forall g' | g' in gs ensures st.accounts[a][g'] != st.accounts[a][g] { assert GroupAttached(st, a, g'); }
    }

    /** Asking one more group of the account. */
    lemma AmongOneMore(st: State, a: string, name: string, gs: set<string>, g: string)
      requires AllAttached(st) && AllMembers(st)
      requires a in st.accounts && g in st.accounts[a] && g !in gs && gs <= st.accounts[a].Keys
      ensures var (st', u) := (EvictAmong(st, a, name, gs), st.accounts[a][g]);
        u in st'.groups && DeleteMember(st', u, name, true) == EvictAmong(st, a, name, gs + {g})
    {
      OtherGroup(st, a, gs, g);
      OneMoreGroup(st, a, name, gs, g);
      OneMoreEntry(st, a, name, gs, g);
      OneMoreSocket(st, a, name, gs, g);
    }

    lemma OneMoreGroup(st: State, a: string, name: string, gs: set<string>, g: string)
      requires a in st.accounts && g in st.accounts[a] && g !in gs && st.accounts[a][g] in st.groups
      requires st.accounts[a][g] !in GroupsOf(st, a, gs)
      requires GroupsOf(st, a, gs + {g}) == GroupsOf(st, a, gs) + {st.accounts[a][g]}
      ensures var (st', u) := (EvictAmong(st, a, name, gs), st.accounts[a][g]);
        u in st'.groups && DeleteMember(st', u, name, true).groups == EvictAmong(st, a, name, gs + {g}).groups
    {
      var (st', u) := (EvictAmong(st, a, name, gs), st.accounts[a][g]);
      assert st'.groups[u] == st.groups[u];
      if name !in st.groups[u].units { assert st.groups[u].units - {name} == st.groups[u].units; }
    }

    lemma OneMoreEntry(st: State, a: string, name: string, gs: set<string>, g: string)
      requires a in st.accounts && g in st.accounts[a] && g !in gs && st.accounts[a][g] in st.groups
      requires st.accounts[a][g] !in GroupsOf(st, a, gs)
      requires GroupsOf(st, a, gs + {g}) == GroupsOf(st, a, gs) + {st.accounts[a][g]}
      requires st.groups[st.accounts[a][g]].account == a && st.groups[st.accounts[a][g]].id == g
      ensures var (st', u) := (EvictAmong(st, a, name, gs), st.accounts[a][g]);
        u in st'.groups && DeleteMember(st', u, name, true).accounts == EvictAmong(st, a, name, gs + {g}).accounts
    {
      var (st', u, all) := (EvictAmong(st, a, name, gs), st.accounts[a][g], EvictAmong(st, a, name, gs + {g}));
      assert st'.groups[u] == st.groups[u];
      assert all.accounts[a] == if Emptied(st, u, name) then st'.accounts[a] - {g} else st'.accounts[a];
      assert all.accounts == if Emptied(st, u, name) then Detached(st'.accounts, a, g) else st'.accounts;
    }

    lemma OneMoreSocket(st: State, a: string, name: string, gs: set<string>, g: string)
      requires AllMembers(st) && a in st.accounts && g in st.accounts[a] && st.accounts[a][g] in st.groups
      requires st.accounts[a][g] !in GroupsOf(st, a, gs)
      requires GroupsOf(st, a, gs + {g}) == GroupsOf(st, a, gs) + {st.accounts[a][g]}
      ensures var (st', u) := (EvictAmong(st, a, name, gs), st.accounts[a][g]);
        u in st'.groups && DeleteMember(st', u, name, true).sockets == EvictAmong(st, a, name, gs + {g}).sockets
    {
      var (us, u) := (GroupsOf(st, a, gs), st.accounts[a][g]);
      assert Holders(st, us + {u}, name)
          == Holders(st, us, name) + if name in st.groups[u].units then {st.groups[u].units[name]} else {};
      if name in st.groups[u].units { HolderGoes(st, us, name, u, name); }
      assert EvictAmong(st, a, name, gs).groups[u] == st.groups[u];
    }

    /** The account and group of a login, made when they are not there. */
    method AccountGroup(l: Login) returns (u: GroupId)
      requires Structure(Now())
      modifies this
      ensures Now() == WithGroup(old(Now()), l)
      ensures l.account in accounts && l.group in accounts[l.account]
      ensures u == accounts[l.account][l.group] && u in groups
    {
      if l.account in accounts && l.group in accounts[l.account] { assert GroupAttached(Now(), l.account, l.group); }
      if l.account !in accounts {
        accounts := accounts[l.account := map[]];
      }
      if l.group in accounts[l.account] {
        u := accounts[l.account][l.group];
      } else {
        u := next;
        next := next + 1;
        groups := groups[u := Group(l.account, l.group, map[])];
        var more: map<string, GroupId> := accounts[l.account][l.group := u];
        accounts := accounts[l.account := more];
      }
    }

    /** fn_add_member_to_AccountGroup: true exactly when the name was free; otherwise nothing changes. */
    method AddMemberToAccountGroup(s: SocketId, l: Login) returns (added: bool)
      requires Structure(Now()) && s in sockets
      modifies this
      ensures added <==> !Taken(old(Now()), l)
      ensures Now() == AddMember(old(Now()), s, l) && (!added ==> Now() == old(Now()))
    {
      if Taken(Now(), l) { AddRefused(Now(), s, l); } else { AddMemberTables(Now(), s, l); }
      var u := AccountGroup(l);
      if Key(l) in groups[u].units {
        added := false;
      } else {
        groups := groups[u := groups[u].(units := groups[u].units[Key(l) := s])];
        sockets := sockets[s := sockets[s].(name := l.sender, group := Some(u))];
        added := true;
      }
    }

    /** _acceptConnection: nobody looks at whether the member was added. */
    method AcceptConnection(s: SocketId, l: Login)
      requires Structure(Now()) && s in sockets && sockets[s].login == None
      modifies this
      ensures Now() == Accept(old(Now()), s, l)
      ensures Structure(Now()) && (InRoom(Now(), s) <==> !Shadowed(old(Now()), l))
    {
      AcceptReady(Now(), s, l);
      AcceptStructure(Now(), s, l);
      LoggedInStructure(Now(), s, l);
      sockets := sockets[s := sockets[s].(login := Some(l))];
      senders := senders[Key(l) := s];
      DelMemberFromAccountByName(l);
      var _ := AddMemberToAccountGroup(s, l);
    }

    /** fn_onWsClose */
    method OnWsClose(s: SocketId)
      requires Structure(Now()) && s in sockets
      modifies this
      ensures Now() == Close(old(Now()), s) && Structure(Now())
    {
      CloseStructure(Now(), s);
      assert BackPointer(Now(), s);
      var k := sockets[s];
      if !k.terminated {
        if k.login.Some? {
          EvictStructure(Now(), k.login.value);
          EvictSockets(Now(), k.login.value);
          DelMemberFromAccountByName(k.login.value);
        }
        if k.name.Some? {
          proxies := proxies - {k.name.value};
        }
        if k.login.Some? && k.login.value.sender.Some? {
          senders := senders - {k.login.value.sender.value};
        }
      }
      sockets := sockets[s := sockets[s].(phase := Closed)];
    }

    /** fn_del_member_fromGroup */
    method DelMemberFromGroup(s: SocketId)
      requires s in sockets && (sockets[s].group.Some? ==> sockets[s].group.value in groups)
      modifies this
      ensures Now() == Logout(old(Now()), s)
    {
      var k := sockets[s];
      if k.group == None { return; }
      if k.name == None {
        sockets := sockets[s := k.(group := None)];
        return;
      }
      DeleteMemberByName(k.group.value, k.name.value, false);
    }

    /** fn_handleOrphanSocket for a member whose send threw.  One that does not point back to a group makes the
        handler throw before it changes anything. */
    method HandleOrphanSocket(s: SocketId)
      requires Structure(Now()) && s in sockets
      modifies this
      ensures var k := old(sockets[s]);
        if k.group == None then Now() == old(Now())
        else k.group.value in old(groups) && Now() == Orphan(old(Now()), k.group.value, {KeyOf(k.name)})
    {
      var k := sockets[s];
      if k.group == None { return; }
      assert BackPointer(Now(), s);
      OneOrphan(Now(), s, k.group.value, KeyOf(k.name));
      DeleteMemberByName(k.group.value, KeyOf(k.name), false);
      sockets := sockets[s := Terminated(sockets[s].(name := None))];
    }

    lemma OneOrphan(st: State, s: SocketId, u: GroupId, n: string)
      requires u in st.groups && n in st.groups[u].units && st.groups[u].units[n] == s && s in st.sockets
      ensures var st1 := DeleteMember(st, u, n, false);
        && s in st1.sockets
        && st1.(sockets := st1.sockets[s := Terminated(st1.sockets[s].(name := None))]) == Orphan(st, u, {n})
    {
      var g := st.groups[u];
      var st1 := DeleteMember(st, u, n, false);
      var st2 := st1.(sockets := st1.sockets[s := Terminated(st1.sockets[s].(name := None))]);
      var st3 := Orphan(st, u, {n});
      assert st3.groups[u].units == g.units - {n};
      assert st2.groups == st3.groups;
      assert (set m | m in g.units && m in {n} :: g.units[m]) == {s};
      assert st2.sockets == st3.sockets;
      assert st2.accounts == st3.accounts;
    }

    /** Taking some members out and then one more is taking them out together. */
    lemma OneMoreOrphan(st: State, u: GroupId, names: set<string>, n: string)
      requires u in st.groups && n in st.groups[u].units && n !in names
      requires forall m | m in st.groups[u].units && m != n :: st.groups[u].units[m] != st.groups[u].units[n]
      ensures Orphan(Orphan(st, u, names), u, {n}) == Orphan(st, u, names + {n})
    {
      var g := st.groups[u];
      var a, b := Orphan(Orphan(st, u, names), u, {n}), Orphan(st, u, names + {n});
      assert a.groups[u].units == b.groups[u].units;
      assert a.groups == b.groups;
      var s := g.units[n];
      assert Orphan(st, u, names).groups[u].units != map[] by { assert n in Orphan(st, u, names).groups[u].units; }
      assert a.accounts == b.accounts;
      forall x | x in st.sockets ensures a.sockets[x] == b.sockets[x] {
        if x != s {
          assert x in SocketsUnder(g, names) <==> x in SocketsUnder(g, names + {n});
        }
      }
      assert a.sockets == b.sockets;
    }

    lemma NoOrphan(st: State, u: GroupId)
      requires u in st.groups
      ensures Orphan(st, u, {}) == st
    {
      var st' := Orphan(st, u, {});
      assert st'.groups[u].units == st.groups[u].units;
      assert st'.groups == st.groups && st'.sockets == st.sockets;
    }

    /** Losing one more member. */
    lemma LoseMore(st: State, u: GroupId, names: set<string>, n: string)
      requires u in st.groups && n in st.groups[u].units && n !in names && st.groups[u].units[n] in st.sockets
      requires forall m | m in st.groups[u].units && m != n :: st.groups[u].units[m] != st.groups[u].units[n]
      ensures Lose(st, u, names + {n}) ==
        if st.sockets[st.groups[u].units[n]].group.Some? then Orphan(Lose(st, u, names), u, {n}) else Lose(st, u, names)
    {
      var some, all := Losable(st, u, names), Losable(st, u, names + {n});
      if st.sockets[st.groups[u].units[n]].group.Some? {
        assert all == some + {n};
        OneMoreOrphan(st, u, some, n);
      } else {
        assert all == some;
      }
    }

    /** How far a broadcast has got when the members `todo` have not been looked at. */
    ghost predicate Reached(st: State, now: State, u: GroupId, heard: set<string>, broken: set<SocketId>,
                            todo: set<string>, delivered: seq<SocketId>)
      requires u in st.groups
    {
      var failed := Failing(st, u, heard - todo, broken);
      && todo <= st.groups[u].units.Keys
      && now == Lose(st, u, failed)
      && multiset(delivered) == multiset(SocketsUnder(st.groups[u], heard - todo - failed))
    }

    /** What the loop finds when it gets to member `n`: the member as it was, in a sound registry. */
    lemma StillMember(st: State, now: State, u: GroupId, heard: set<string>, broken: set<SocketId>,
                      todo: set<string>, delivered: seq<SocketId>, n: string)
      requires Structure(st) && u in st.groups && Reached(st, now, u, heard, broken, todo, delivered) && n in todo
      ensures Structure(now) && u in now.groups
      ensures var s := st.groups[u].units[n];
        && n in now.groups[u].units && now.groups[u].units[n] == s
        && s in now.sockets && s in st.sockets && now.sockets[s] == st.sockets[s] && st.sockets[s].login.Some?
        && (st.sockets[s].group.Some? ==> st.sockets[s].group.value == u && KeyOf(st.sockets[s].name) == n)
    {
      LoseStructure(st, u, Failing(st, u, heard - todo, broken));
      assert Member(st, u, n);
      OneNamePerSocket(st, u, n);
    }

    lemma FailingStep(st: State, u: GroupId, heard: set<string>, broken: set<SocketId>, todo: set<string>, n: string)
      requires u in st.groups && n in st.groups[u].units && n in todo
      ensures var failed := Failing(st, u, heard - todo, broken);
              var failed' := Failing(st, u, heard - (todo - {n}), broken);
              && failed' == (if n in heard && st.groups[u].units[n] in broken then failed + {n} else failed)
              && heard - (todo - {n}) - failed' ==
                   heard - todo - failed + if n in heard && st.groups[u].units[n] !in broken then {n} else {}
    {}

    /** The next member fails: it joins the lost ones. */
    lemma NextFails(st: State, now: State, u: GroupId, heard: set<string>, broken: set<SocketId>,
                    todo: set<string>, delivered: seq<SocketId>, n: string)
      requires Structure(st) && u in st.groups && Reached(st, now, u, heard, broken, todo, delivered)
      requires n in todo && n in heard && st.groups[u].units[n] in broken && st.groups[u].units[n] in st.sockets
      ensures u in now.groups
      ensures var lost := if st.sockets[st.groups[u].units[n]].group.Some? then Orphan(now, u, {n}) else now;
        Reached(st, lost, u, heard, broken, todo - {n}, delivered)
    {
      OneNamePerSocket(st, u, n);
      LoseMore(st, u, Failing(st, u, heard - todo, broken), n);
      FailingStep(st, u, heard, broken, todo, n);
    }

    /** The next member gets its copy. */
    lemma NextHears(st: State, now: State, u: GroupId, heard: set<string>, broken: set<SocketId>,
                    todo: set<string>, delivered: seq<SocketId>, n: string)
      requires Structure(st) && u in st.groups && Reached(st, now, u, heard, broken, todo, delivered)
      requires n in todo && n in heard && st.groups[u].units[n] !in broken
      ensures Reached(st, now, u, heard, broken, todo - {n}, delivered + [st.groups[u].units[n]])
    {
      OneNamePerSocket(st, u, n);
      FailingStep(st, u, heard, broken, todo, n);
      UnderOneMore(st.groups[u], heard - todo - Failing(st, u, heard - todo, broken), n);
    }

    lemma UnderOneMore(g: Group, names: set<string>, n: string)
      requires n in g.units && n !in names
      requires forall m | m in g.units && m != n :: g.units[m] != g.units[n]
      ensures g.units[n] !in SocketsUnder(g, names)
      ensures SocketsUnder(g, names + {n}) == SocketsUnder(g, names) + {g.units[n]}
    {}

    /** The next member is not addressed. */
    lemma NextSkipped(st: State, now: State, u: GroupId, heard: set<string>, broken: set<SocketId>,
                      todo: set<string>, delivered: seq<SocketId>, n: string)
      requires u in st.groups && Reached(st, now, u, heard, broken, todo, delivered) && n in todo && n !in heard
      ensures Reached(st, now, u, heard, broken, todo - {n}, delivered)
    {
      FailingStep(st, u, heard, broken, todo, n);
    }

    lemma BroadcastStart(st: State, u: GroupId, heard: set<string>, broken: set<SocketId>)
      requires u in st.groups && heard <= st.groups[u].units.Keys
      ensures Reached(st, st, u, heard, broken, st.groups[u].units.Keys, [])
    {
      NoOrphan(st, u);
      assert Losable(st, u, {}) == {};
      assert heard - st.groups[u].units.Keys == {};
      assert Failing(st, u, {}, broken) == {};
    }

    /** Group.fn_broadcast over any order of members, with the sends to `broken` sockets throwing: exactly
        one copy to each addressed member whose send works; exactly those addressed whose send throws, and who
        still point back to the group, leave it. */
    method Broadcast(u: GroupId, from: Option<string>, audience: Audience, broken: set<SocketId>)
      returns (delivered: seq<SocketId>)
      requires Structure(Now()) && u in groups
      modifies this
      ensures var st := old(Now());
              var heard := Addressed(st, u, from, audience);
              var failed := Failing(st, u, heard, broken);
              && Now() == Lose(st, u, failed)
              && multiset(delivered) == multiset(SocketsUnder(st.groups[u], heard - failed))
      ensures forall x ::
                multiset(delivered)[x] == if x !in broken && Hearer(old(Now()), u, from, audience, x) then 1 else 0
    {
      ghost var st := Now();
      ghost var heard := Addressed(st, u, from, audience);
      delivered := [];
      var todo := groups[u].units.Keys;
      BroadcastStart(st, u, heard, broken);
      while todo != {}
        invariant u in st.groups && Reached(st, Now(), u, heard, broken, todo, delivered)
        decreases todo
      {
        var n :| n in todo;
        StillMember(st, Now(), u, heard, broken, todo, delivered, n);
        var s := groups[u].units[n];
        if Hears(UnitOf(sockets[s].login.value), SenderJson(from), audience) {
          if s in broken {
            NextFails(st, Now(), u, heard, broken, todo, delivered, n);
            HandleOrphanSocket(s);
          } else {
            NextHears(st, Now(), u, heard, broken, todo, delivered, n);
            delivered := delivered + [s];
          }
        } else {
          NextSkipped(st, Now(), u, heard, broken, todo, delivered, n);
        }
        todo := todo - {n};
      }
      assert heard - {} == heard;
      HearersAre(st, u, from, audience, broken);
    }

    /** A member of the group that the broadcast is for. */
    predicate Hearer(st: State, u: GroupId, from: Option<string>, audience: Audience, x: SocketId)
      requires u in st.groups
    {
      && x in st.groups[u].units.Values && x in st.sockets && st.sockets[x].login.Some?
      && IsAddressed(st.sockets[x].login.value, from, audience)
    }

    lemma HearersAre(st: State, u: GroupId, from: Option<string>, audience: Audience, broken: set<SocketId>)
      requires Structure(st) && u in st.groups
      ensures var heard := Addressed(st, u, from, audience);
        forall x :: x in SocketsUnder(st.groups[u], heard - Failing(st, u, heard, broken))
                    <==> x !in broken && Hearer(st, u, from, audience, x)
    {
    }

    lemma OneNamePerSocket(st: State, u: GroupId, n: string)
      requires Structure(st) && u in st.groups && n in st.groups[u].units
      ensures forall m | m in st.groups[u].units && m != n :: st.groups[u].units[m] != st.groups[u].units[n]
    {
      assert Member(st, u, n);
      forall m | m in st.groups[u].units && m != n ensures st.groups[u].units[m] != st.groups[u].units[n] {
        assert Member(st, u, m);
      }
    }
  }
}
