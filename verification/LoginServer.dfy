/** The handlers that let sockets in, changing the waiting list, the connections and the registry in place;
    each proved against its step of the gate. */
module LoginServer {
  import opened Frames
  import R = Rooms
  import L = Lifecycle
  import C = ChatServer
  import opened LoginGate
  import opened QueryScanner

  class LoginServer {
    const mode: Mode
    const chat: C.ChatServer
    var waiting: map<string, Request>
    var expiring: set<string>
    var conns: map<SocketId, Conn>
    var routed: seq<Routed>
    ghost var latest: map<string, SocketId>
    ghost var dropped: set<SocketId>
    ghost var issued: map<string, Request>
    ghost var used: seq<Use>
    ghost var expired: set<string>

    ghost function Now(): State
      reads this, chat
    {
      State(waiting, expiring, conns, L.History(chat.Now(), latest, dropped), issued, used, expired, routed)
    }

    constructor (mode: Mode)
      ensures this.mode == mode && fresh(chat) && Now() == LoginGate.Initial
    {
      this.mode := mode;
      chat := new C.ChatServer();
      waiting, expiring, conns, routed := map[], {}, map[], [];
      latest, dropped, issued, used, expired := map[], {}, map[], [], {};
    }

    /** fn_addWaitingAccount */
    method AddWaitingAccount(key: string, request: Request)
      requires Enabled(Now(), Issue(key, request))
      modifies this
      ensures Now() == Step(mode, old(Now()), Issue(key, request))
    {
      waiting := waiting[key := request];
      expiring := expiring + {key};
      issued := issued[key := request];
    }

    /** The timer of fn_addWaitingAccount, with deleteLogin. */
    method OnKeyTimeout(key: string)
      requires Enabled(Now(), KeyTimeout(key))
      modifies this
      ensures Now() == Step(mode, old(Now()), KeyTimeout(key))
    {
      expiring := expiring - {key};
      if key in waiting {
        waiting := waiting - {key};
        expired := expired + {key};
      }
    }

    method Close(s: SocketId)
      requires s in conns
      modifies this`conns
      ensures Now() == Closing(old(Now()), s)
    {
      conns := conns[s := conns[s].(closing := true)];
    }

    /** _acceptConnection */
    method Accept(s: SocketId, l: R.Login)
      requires s in conns && s in chat.sockets && R.Structure(chat.Now()) && chat.sockets[s].login == None
      modifies this`conns, this`latest, chat
      ensures Now() == Admitted(old(Now()), s, l)
    {
      chat.AcceptConnection(s, l);
      conns := conns[s := conns[s].(accepted := true)];
      latest := latest[R.Key(l) := s];
    }

    /** fn_completeConnection; false when fn_validateKeyLocal throws, before anything is done. */
    method CompleteConnection(s: SocketId, params: map<string, string>) returns (ok: bool)
      requires s in conns && s in chat.sockets && R.Structure(chat.Now()) && chat.sockets[s].login == None
      modifies this, chat
      ensures ok == !Throws(mode, params)
      ensures Now() == if ok then Completed(mode, old(Now()), s, params) else old(Now())
    {
      if mode.local.Some? {
        if "f" !in params {
          return false;
        }
        Accept(s, LocalLogin(mode.local.value, params));
        return true;
      }
      if "f" in params {
        var key := params["f"];
        if !WellFormed(key) || key !in waiting {
          Close(s);
        }
        if key in waiting {
          var request := waiting[key];
          waiting := waiting - {key};
          used := used + [Use(key, s)];
          Accept(s, RequestLogin(request, params));
        } else {
          Close(s);
        }
      } else {
        Close(s);
      }
      return true;
    }

    /** fn_onConnect_Handler */
    method OnConnect(s: SocketId, url: string)
      requires Enabled(Now(), Connect(s, url)) && R.Structure(chat.Now())
      modifies this, chat
      ensures Now() == Step(mode, old(Now()), Connect(s, url))
    {
      L.ConnectStructure(chat.Now(), s);
      var params := GetHeaderParams(url);
      chat.sockets := chat.sockets[s := L.Fresh];
      if "f" in params {
        if mode.compat {
          conns := conns[s := ByQuery];
          var _ := CompleteConnection(s, params);
        } else {
          conns := conns[s := Silent];
        }
      } else {
        conns := conns[s := Waiting];
      }
    }

    /** fn_sendAuthAck, and p_ws.close() when the answer is no. */
    method Answer(s: SocketId, ok: bool)
      requires s in conns
      modifies this`conns
      ensures Now() == With(old(Now()), s, Answered(old(conns[s]), ok))
    {
      var c := conns[s].(acks := conns[s].acks + [ok]);
      conns := conns[s := c];
      if !ok {
        Close(s);
      }
      WithTwice(old(Now()), s, c, Answered(old(conns[s]), ok));
    }

    /** The handler takes itself away, and the timer with it. */
    method StopWaiting(s: SocketId)
      requires s in conns
      modifies this`conns
      ensures Now() == With(old(Now()), s, Settled(old(conns[s])))
    {
      var c := conns[s].(handler := false, timer := false);
      if c.pending {
        c := c.(pending := false);
      }
      conns := conns[s := c];
    }

    /** fn_authFrameHandler */
    method OnAuthFrame(s: SocketId, frame: Frame)
      requires s in conns && s in chat.sockets && R.Structure(chat.Now())
      requires conns[s].pending ==> chat.sockets[s].login == None
      modifies this, chat
      ensures Now() == AuthHandled(mode, old(Now()), s, frame)
    {
      var pending := conns[s].pending;
      StopWaiting(s);
      if !pending {
        return;
      }
      if !frame.Auth? {
        Answer(s, false);
        assert Now() == With(old(Now()), s, Answered(Settled(old(conns[s])), false));
        return;
      }
      var completed := CompleteConnection(s, FrameParams(frame));
      Answer(s, completed && conns[s].accepted);
      assert !completed ==> Now() == With(old(Now()), s, Answered(Settled(old(conns[s])), false));
    }

    /** The two listeners of a message, in the order in which they were installed. */
    method OnMessage(s: SocketId, frame: Frame)
      requires Enabled(Now(), Hears(s, frame)) && R.Structure(chat.Now())
      requires conns[s].pending ==> chat.sockets[s].login == None
      modifies this, chat
      ensures Now() == Step(mode, old(Now()), Hears(s, frame))
    {
      var c := conns[s];
      conns := conns[s := c.(frames := c.frames + 1)];
      if c.listens && c.accepted && !frame.NotAnObject? {
        routed := routed + [Routed(s, c.frames)];
      }
      if c.handler {
        OnAuthFrame(s, frame);
      }
    }

    /** The timer that waits for the frame. */
    method OnAuthTimeout(s: SocketId)
      requires Enabled(Now(), AuthTimeout(s))
      modifies this
      ensures Now() == Step(mode, old(Now()), AuthTimeout(s))
    {
      var c := conns[s].(timer := false);
      if c.pending {
        c := Answered(c.(pending := false, handler := false), false);
      }
      conns := conns[s := c];
    }

    /** fn_onWsClose */
    method OnClose(s: SocketId)
      requires Enabled(Now(), SocketClosed(s)) && R.Structure(chat.Now())
      modifies chat
      ensures Now() == Step(mode, old(Now()), SocketClosed(s))
    {
      chat.OnWsClose(s);
    }
  }
}
