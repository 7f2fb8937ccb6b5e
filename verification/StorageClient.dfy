/** The connection machine of the storage client: authentication with or without a challenge, reconnect
    with capped and jittered exponential backoff, and correlation of requests with their outcomes. */
module StorageClient {
  import opened Frames

  type Rid = string

  /** Phases of the one live web socket; a closed one is dropped. */
  datatype Phase = Connecting | Open | Closing

  datatype Status = Disconnected | ConnectingUp | Connected | Unhealthy

  /** How the promise of a request was settled; `source` is the rid of the response that did it. */
  datatype Outcome = Answered(source: Rid) | TimedOut | SendFailed | NotConnected | ConnectionClosed

  /** `timers` are the requests with an armed timeout; `reconnect` is the delay of the armed reconnect
      timer; `settled` records every settlement of every request. */
  datatype State = State(
    endpoint: bool,
    ws: Option<Phase>,
    authenticated: bool,
    status: Status,
    attempts: nat,
    reconnect: Option<int>,
    authTimer: bool,
    heartbeat: bool,
    pending: set<Rid>,
    timers: set<Rid>,
    issued: set<Rid>,
    settled: map<Rid, seq<Outcome>>)

  const Initial := State(false, None, false, Disconnected, 0, None, false, false, {}, {}, {}, map[])

  datatype Incoming =
    Challenge(answerSent: bool) | OtherEnvelope | Garbage | AuthSuccess | ErrorNote | Reply(rid: Option<Rid>)

  /** What can happen.  A socket event comes from the live socket; a timer event from an armed timer. */
  datatype Event =
    | Configure
    | SocketOpen
    | Receive(m: Incoming)
    | AuthTimeout
    | SocketError
    | SocketClose(random: real)
    | ReconnectTimeout
    | Request(rid: Rid, sent: bool)
    | RequestTimeout(rid: Rid)

  predicate Enabled(st: State, e: Event) {
    match e
    case Configure => true
    case SocketOpen => st.ws == Some(Connecting)
    case Receive(_) => st.ws == Some(Open) || st.ws == Some(Closing)
    case AuthTimeout => st.authTimer
    case SocketError => st.ws.Some?
    case SocketClose(random) => st.ws.Some? && 0.0 <= random < 1.0
    case ReconnectTimeout => st.reconnect.Some?
    case Request(rid, _) => rid !in st.issued
    case RequestTimeout(rid) => rid in st.timers
  }

  // ----- Backoff

  const INITIAL_DELAY := 1000
  const MAX_DELAY := 60000

  function Pow2(n: nat): nat { if n == 0 then 1 else 2 * Pow2(n - 1) }

  function BaseDelay(attempt: nat): int
    requires attempt > 0
  {
    var d := INITIAL_DELAY * Pow2(attempt - 1);
    if d < MAX_DELAY then d else MAX_DELAY
  }

  /** The base delay plus up to a quarter of it either way, rounded down. */
  function Delay(attempt: nat, random: real): int
    requires attempt > 0
  {
    var base := BaseDelay(attempt) as real;
    (base + Jitter(base, random)).Floor
  }

  function Jitter(base: real, random: real): real { base * 0.25 * (random * 2.0 - 1.0) }

  lemma {:induction false} Pow2Grows(n: nat)
    ensures Pow2(n) >= 1 && (n >= 6 ==> Pow2(n) >= 64)
  {
    if n > 6 { Pow2Grows(n - 1); }
    else if n > 0 { Pow2Grows(n - 1); assert Pow2(6) == 64; }
  }

  /** The base delay is one second at first, doubles from one attempt to the next and is 60 s from the seventh
      on; the jittered delay is spread evenly by the draw from three to five quarters of it, and so is always
      within 750 and 75000 ms. */
  lemma Backoff(attempt: nat, random: real)
    requires attempt > 0 && 0.0 <= random < 1.0
    ensures BaseDelay(1) == 1000 && BaseDelay(attempt) <= BaseDelay(attempt + 1)
    ensures BaseDelay(attempt + 1) == if 2 * BaseDelay(attempt) < 60000 then 2 * BaseDelay(attempt) else 60000
    ensures Delay(attempt, random) == (BaseDelay(attempt) as real * (0.75 + 0.5 * random)).Floor
    ensures BaseDelay(attempt) == MAX_DELAY <==> attempt >= 7
    ensures 4 * Delay(attempt, random) >= 3 * BaseDelay(attempt) && 4 * Delay(attempt, random) <= 5 * BaseDelay(attempt)
    ensures 750 <= Delay(attempt, random) < 75000
  {
    Pow2Grows(attempt - 1);
    assert Pow2(attempt) == 2 * Pow2(attempt - 1);
    SmallPowers(attempt);
    BaseIsWhole(attempt);
    var base := BaseDelay(attempt) as real;
    var jitter := Jitter(base, random);
    JitterSpreads(base, random);
    assert -1.0 <= random * 2.0 - 1.0 < 1.0;
    JitterBound(base * 0.25, random * 2.0 - 1.0);
    assert -(base * 0.25) <= jitter < base * 0.25;
    var quarter := BaseDelay(attempt) / 4;
    assert (quarter as real) * 4.0 == base;
  }

  lemma JitterSpreads(base: real, random: real)
    ensures base + Jitter(base, random) == base * (0.75 + 0.5 * random)
  {}

  lemma JitterBound(q: real, x: real)
    requires q > 0.0 && -1.0 <= x < 1.0
    ensures -q <= q * x < q
  {}

  lemma SmallPowers(attempt: nat)
    requires attempt > 0
    ensures attempt < 7 ==> Pow2(attempt - 1) <= 32
  {
    assert Pow2(0) == 1 && Pow2(1) == 2 && Pow2(2) == 4 && Pow2(3) == 8 && Pow2(4) == 16 && Pow2(5) == 32;
  }

  lemma BaseIsWhole(attempt: nat)
    requires attempt > 0
    ensures BaseDelay(attempt) % 4 == 0 && 1000 <= BaseDelay(attempt) <= 60000
  {
    Pow2Grows(attempt - 1);
    ThousandTimes(Pow2(attempt - 1));
  }

  lemma ThousandTimes(p: nat)
    ensures INITIAL_DELAY * p % 4 == 0 && (p >= 1 ==> INITIAL_DELAY * p >= 1000)
  {}

  // ----- One step

  function Settle(settled: map<Rid, seq<Outcome>>, rid: Rid, o: Outcome): map<Rid, seq<Outcome>> {
    settled[rid := (if rid in settled then settled[rid] else []) + [o]]
  }

  function Rejected(settled: map<Rid, seq<Outcome>>, rids: set<Rid>): map<Rid, seq<Outcome>> {
    map r | r in settled.Keys + rids ::
      if r in rids then (if r in settled then settled[r] else []) + [ConnectionClosed] else settled[r]
  }

  /** fn_clearPending: every pending request is rejected. */
  function AllRejected(st: State): State {
    st.(pending := {}, timers := st.timers - st.pending, settled := Rejected(st.settled, st.pending))
  }

  function IsConnected(st: State): bool { st.ws == Some(Open) && st.authenticated }

  function ConnectInternal(st: State): State {
    if !st.endpoint then st else st.(reconnect := None, status := ConnectingUp, ws := Some(Connecting))
  }

  function Authenticated(st: State): State { st.(authenticated := true, status := Connected, heartbeat := true) }

  function AfterMessage(st: State, m: Incoming): State {
    match m
    case Challenge(answerSent) =>
      if st.ws == None then st else st.(authTimer := false, ws := if answerSent then st.ws else Some(Closing))
    case OtherEnvelope => st
    case Garbage => st
    case AuthSuccess => Authenticated(st.(authTimer := false))
    case ErrorNote => st
    case Reply(rid) =>
      if rid.Some? && rid.value in st.pending then
        st.(pending := st.pending - {rid.value}, timers := st.timers - {rid.value},
            settled := Settle(st.settled, rid.value, Answered(rid.value)))
      else st
  }

  function AfterClose(st: State, random: real): State {
    var st1 := AllRejected(st.(authenticated := false, ws := None, status := Disconnected, heartbeat := false));
    var st2 := st1.(authTimer := false);
    if st2.endpoint then st2.(attempts := st2.attempts + 1, reconnect := Some(Delay(st2.attempts + 1, random))) else st2
  }

  function AfterRequest(st: State, rid: Rid, sent: bool): State {
    var st' := st.(issued := st.issued + {rid});
    if !IsConnected(st) then st'.(settled := Settle(st.settled, rid, NotConnected))
    else if sent then st'.(pending := st.pending + {rid}, timers := st.timers + {rid})
    else
      st'.(pending := st.pending - {rid}, timers := st.timers - {rid}, settled := Settle(st.settled, rid, SendFailed))
  }

  function Step(st: State, e: Event): State
    requires Enabled(st, e)
  {
    match e
    case Configure => if st.endpoint then st else ConnectInternal(st.(authenticated := false, ws := None,
        endpoint := true))
    case SocketOpen => st.(ws := Some(Open), attempts := 0, status := ConnectingUp, authTimer := true)
    case Receive(m) => AfterMessage(st, m)
    case AuthTimeout =>
      if !st.authenticated && st.ws == Some(Open) then Authenticated(st.(authTimer := false))
      else st.(authTimer := false)
    case SocketError => st.(status := Unhealthy, ws := Some(Closing))
    case SocketClose(random) => AfterClose(st, random)
    case ReconnectTimeout => ConnectInternal(st.(reconnect := None))
    case Request(rid, sent) => AfterRequest(st, rid, sent)
    case RequestTimeout(rid) =>
      st.(pending := st.pending - {rid}, timers := st.timers - {rid}, settled := Settle(st.settled, rid, TimedOut))
  }

  ghost predicate Run(st: State, es: seq<Event>, st': State)
    decreases |es|
  {
    if es == [] then st == st' else Enabled(st, es[0]) && Run(Step(st, es[0]), es[1..], st')
  }

  // ----- The invariant

  /** Exactly one of a live socket and an armed reconnect timer, once there is an endpoint. */
  ghost predicate OneLifeline(st: State) {
    if st.endpoint then st.ws.Some? <==> st.reconnect == None else st.ws == None && st.reconnect == None
  }

  ghost predicate AuthConsistent(st: State) {
    && (st.heartbeat <==> st.authenticated)
    && (st.authenticated ==> st.status == Connected || st.status == Unhealthy)
    && (st.status == Connected ==> st.authenticated)
    && (st.authenticated || st.authTimer ==> st.ws == Some(Open) || st.ws == Some(Closing))
  }

  /** A request is pending, with its timer armed, or settled exactly once; a response settles only the
      request of its own rid; nothing is pending without authentication. */
  ghost predicate RequestsConsistent(st: State) {
    && st.timers == st.pending && st.pending + st.settled.Keys == st.issued && st.pending !! st.settled.Keys
    && (forall r | r in st.settled :: |st.settled[r]| == 1 && (st.settled[r][0].Answered? ==>
        st.settled[r][0].source == r))
    && (!st.authenticated ==> st.pending == {})
  }

  ghost predicate DelayInRange(st: State) {
    st.reconnect.Some? ==> st.attempts > 0 && 750 <= st.reconnect.value < 75000
  }

  ghost predicate Inv(st: State) {
    OneLifeline(st) && AuthConsistent(st) && RequestsConsistent(st) && DelayInRange(st)
  }

  lemma CloseKeepsInv(st: State, random: real)
    requires Inv(st) && st.ws.Some? && 0.0 <= random < 1.0
    ensures Inv(AfterClose(st, random))
  {
    Backoff(st.attempts + 1, random);
    var st' := AfterClose(st, random);
    forall r | r in st'.settled ensures |st'.settled[r]| == 1 && (st'.settled[r][0].Answered? ==>
        st'.settled[r][0].source == r) {
      assert r in st.pending || r in st.settled;
    }
  }

  lemma StepKeepsInv(st: State, e: Event)
    requires Inv(st) && Enabled(st, e)
    ensures Inv(Step(st, e))
  {
    match e
    case SocketClose(random) => CloseKeepsInv(st, random);
    case _ =>
  }

  lemma {:induction false} RunKeepsInv(st: State, es: seq<Event>, st': State)
    requires Inv(st) && Run(st, es, st')
    ensures Inv(st')
    decreases |es|
  {
    if es != [] {
      StepKeepsInv(st, es[0]);
      RunKeepsInv(Step(st, es[0]), es[1..], st');
    }
  }

  // ----- What holds in every run

  /** For every order of opens, challenges, successes, errors, closes and timers. */
  lemma ConnectionIsConsistent(es: seq<Event>, st: State)
    requires Run(Initial, es, st)
    ensures st.endpoint ==> (st.ws.Some? <==> st.reconnect == None)
    ensures st.heartbeat <==> st.authenticated
    ensures st.authenticated ==> st.ws.Some? && (st.status == Connected || st.status == Unhealthy)
    ensures st.status == Connected ==> st.authenticated
    ensures st.reconnect.Some? ==> 750 <= st.reconnect.value < 75000
  {
    RunKeepsInv(Initial, es, st);
  }

  /** For every interleaving of responses, timeouts, send failures and closes. */
  lemma EveryRequestSettlesOnce(es: seq<Event>, st: State, rid: Rid)
    requires Run(Initial, es, st) && rid in st.issued
    ensures rid in st.pending <==> rid in st.timers
    ensures rid in st.pending <==> rid !in st.settled
    ensures rid in st.settled ==> |st.settled[rid]| == 1
    ensures rid in st.settled && st.settled[rid][0].Answered? ==> st.settled[rid][0].source == rid
    ensures rid in st.pending ==> st.authenticated && st.ws.Some?
  {
    RunKeepsInv(Initial, es, st);
  }

  /** A settlement is final: no later event changes or repeats it. */
  lemma {:induction false} SettlementIsFinal(st: State, es: seq<Event>, st': State, rid: Rid)
    requires Inv(st) && Run(st, es, st') && rid in st.settled
    ensures rid in st'.settled && st'.settled[rid] == st.settled[rid]
    decreases |es|
  {
    if es != [] {
      StepKeepsInv(st, es[0]);
      SettlementIsFinal(Step(st, es[0]), es[1..], st', rid);
    }
  }

  // ----- The connection and the outcomes, said of the events

  /** The socket has opened, and has since neither failed, closed, nor thrown when the challenge was answered. */
  predicate Up(es: seq<Event>) {
    if es == [] then false
    else
      match es[|es| - 1]
      case SocketOpen => true
      case SocketClose(_) => false
      case SocketError => false
      case Receive(m) => m != Challenge(false) && Up(es[..|es| - 1])
      case _ => Up(es[..|es| - 1])
  }

  /** Since it opened the server has accepted the client, or sent nothing for so long while the socket was up
      that no authentication is needed. */
  predicate Trusted(es: seq<Event>) {
    if es == [] then false
    else
      var before := es[..|es| - 1];
      match es[|es| - 1]
      case SocketOpen => false
      case SocketClose(_) => false
      case Receive(m) => m.AuthSuccess? || Trusted(before)
      case AuthTimeout => Up(before) || Trusted(before)
      case _ => Trusted(before)
  }

  /** Since the socket opened there was no challenge, no success, no close, and the timer has not fired. */
  predicate AwaitsChallenge(es: seq<Event>) {
    if es == [] then false
    else
      var before := es[..|es| - 1];
      match es[|es| - 1]
      case SocketOpen => true
      case Receive(m) => !m.Challenge? && !m.AuthSuccess? && AwaitsChallenge(before)
      case AuthTimeout => false
      case SocketClose(_) => false
      case _ => AwaitsChallenge(before)
  }

  /** The state last entered: connecting by the configuration, the timer and the open, connected by being
      trusted, unhealthy by an error, disconnected by a close. */
  function StatusOf(es: seq<Event>): Status {
    if es == [] then Disconnected
    else
      var before := es[..|es| - 1];
      match es[|es| - 1]
      case Configure => if Configure in before then StatusOf(before) else ConnectingUp
      case ReconnectTimeout => ConnectingUp
      case SocketOpen => ConnectingUp
      case Receive(m) => if m.AuthSuccess? then Connected else StatusOf(before)
      case AuthTimeout => if Up(before) && !Trusted(before) then Connected else StatusOf(before)
      case SocketError => Unhealthy
      case SocketClose(_) => Disconnected
      case _ => StatusOf(before)
  }

  /** The socket of the run is that of the events. */
  ghost predicate LineOk(es: seq<Event>, st: State) {
    && (st.ws == Some(Open) <==> Up(es)) && (st.authenticated <==> Trusted(es)) && st.status == StatusOf(es)
    && (st.endpoint <==> Configure in es) && (st.authTimer <==> AwaitsChallenge(es))
  }

  lemma StepKeepsLine(es: seq<Event>, st: State, e: Event)
    requires Inv(st) && Enabled(st, e) && LineOk(es, st)
    ensures LineOk(es + [e], Step(st, e))
  {
    assert (es + [e])[..|es|] == es;
  }

  lemma {:induction false} RunKeepsLine(done: seq<Event>, st: State, es: seq<Event>, st': State)
    requires Inv(st) && Run(st, es, st') && LineOk(done, st)
    ensures LineOk(done + es, st')
    decreases |es|
  {
    if es == [] {
      assert done + es == done;
    } else {
      StepKeepsInv(st, es[0]);
      StepKeepsLine(done, st, es[0]);
      RunKeepsLine(done + [es[0]], Step(st, es[0]), es[1..], st');
      assert done + [es[0]] + es[1..] == done + es;
    }
  }

  /** Over every run the client counts as connected IF AND ONLY IF its socket is up and it is trusted; its
      status is the one last entered, and the timer that ends the wait for a challenge is armed IF AND ONLY
      IF that wait goes on. */
  lemma ConnectedIffUpAndTrusted(es: seq<Event>, st: State)
    requires Run(Initial, es, st)
    ensures (IsConnected(st) <==> Up(es) && Trusted(es)) && st.status == StatusOf(es)
    ensures st.authTimer <==> AwaitsChallenge(es)
  {
    RunKeepsLine([], Initial, es, st);
    assert [] + es == es;
  }

  /** The events that end the wait of a request that was sent. */
  predicate Ends(e: Event, rid: Rid) { e == Receive(Reply(Some(rid))) || e == RequestTimeout(rid) || e.SocketClose? }

  /** The first of them from `from` on, or the end. */
  function FirstEnd(es: seq<Event>, from: nat, rid: Rid): (j: nat)
    requires from <= |es|
    ensures from <= j <= |es| && (j < |es| ==> Ends(es[j], rid)) && forall k | from <= k < j :: !Ends(es[k], rid)
    decreases |es| - from
  {
    if from == |es| || Ends(es[from], rid) then from else FirstEnd(es, from + 1, rid)
  }

  /** What becomes of the request that the `i`th event makes: rejected at once unless the client is connected,
      rejected when the send throws, and otherwise decided by the first event that ends its wait. */
  function Fate(es: seq<Event>, i: nat, rid: Rid, sent: bool): Option<Outcome>
    requires i < |es|
  {
    if !Up(es[..i]) || !Trusted(es[..i]) then Some(NotConnected)
    else if !sent then Some(SendFailed)
    else
      var j := FirstEnd(es, i + 1, rid);
      if j == |es| then None
      else if es[j].SocketClose? then Some(ConnectionClosed)
      else if es[j].RequestTimeout? then Some(TimedOut)
      else Some(Answered(rid))
  }

  predicate Settled(st: State, rid: Rid, fate: Option<Outcome>) {
    match fate
    case None => rid in st.pending && rid !in st.settled
    case Some(o) => rid !in st.pending && rid in st.settled && st.settled[rid] == [o]
  }

  lemma {:induction false} SplitRun(st: State, es: seq<Event>, st': State, i: nat) returns (mid: State)
    requires Run(st, es, st') && i <= |es|
    ensures Run(st, es[..i], mid) && Run(mid, es[i..], st')
    decreases i
  {
    if i == 0 {
      mid := st;
    } else {
      mid := SplitRun(Step(st, es[0]), es[1..], st', i - 1);
      assert es[..i][1..] == es[1..][..i - 1] && es[i..] == es[1..][i - 1..];
    }
  }

  lemma EndSettles(st: State, e: Event, rid: Rid)
    requires Inv(st) && Enabled(st, e) && rid in st.pending
    ensures !Ends(e, rid) ==> rid in Step(st, e).pending
    ensures Ends(e, rid) ==> Settled(Step(st, e), rid,
      Some(if e.SocketClose? then ConnectionClosed else if e.RequestTimeout? then TimedOut else Answered(rid)))
  {
  }

  /** A pending request is settled by the first event that ends its wait. */
  lemma {:induction false} FirstEndSettles(st: State, es: seq<Event>, st': State, rid: Rid)
    requires Inv(st) && Run(st, es, st') && rid in st.pending
    ensures var j := FirstEnd(es, 0, rid);
      Settled(st', rid, if j == |es| then None
                        else if es[j].SocketClose? then Some(ConnectionClosed)
                        else if es[j].RequestTimeout? then Some(TimedOut)
                        else Some(Answered(rid)))
    decreases |es|
  {
    if es != [] {
      var st1 := Step(st, es[0]);
      StepKeepsInv(st, es[0]);
      EndSettles(st, es[0], rid);
      if Ends(es[0], rid) {
        SettledStays(st1, es[1..], st', rid);
      } else {
        FirstEndSettles(st1, es[1..], st', rid);
        FirstEndShifts(es, 0, 1, rid);
      }
    }
  }

  lemma SettledStays(st: State, es: seq<Event>, st': State, rid: Rid)
    requires Inv(st) && Run(st, es, st') && rid in st.settled
    ensures rid !in st'.pending && rid in st'.settled && st'.settled[rid] == st.settled[rid]
  {
    SettlementIsFinal(st, es, st', rid);
    RunKeepsInv(st, es, st');
  }

  lemma {:induction false} FirstEndShifts(es: seq<Event>, from: nat, skip: nat, rid: Rid)
    requires skip + from <= |es|
    ensures FirstEnd(es, skip + from, rid) == skip + FirstEnd(es[skip..], from, rid)
    decreases |es| - from
  {
    if skip + from < |es| && !Ends(es[skip + from], rid) { FirstEndShifts(es, from + 1, skip, rid); }
  }

  /** Over every run each request has the fate that the events give it, and no other. */
  lemma EventsDecideOutcomes(es: seq<Event>, st: State, i: nat, rid: Rid, sent: bool)
    requires Run(Initial, es, st) && i < |es| && es[i] == Request(rid, sent)
    ensures Settled(st, rid, Fate(es, i, rid, sent))
  {
    var before := SplitRun(Initial, es, st, i);
    RunKeepsInv(Initial, es[..i], before);
    ConnectedIffUpAndTrusted(es[..i], before);
    assert es[i..][0] == es[i] && es[i..][1..] == es[i + 1..];
    RequestDecides(es, st, i, rid, sent, before);
  }

  lemma RequestDecides(es: seq<Event>, st: State, i: nat, rid: Rid, sent: bool, before: State)
    requires i < |es| && es[i] == Request(rid, sent) && Inv(before) && Enabled(before, es[i])
    requires (IsConnected(before) <==> Up(es[..i]) && Trusted(es[..i])) && Run(Step(before, es[i]), es[i + 1..], st)
    ensures Settled(st, rid, Fate(es, i, rid, sent))
  {
    var after := Step(before, es[i]);
    StepKeepsInv(before, es[i]);
    if rid in after.pending {
      FirstEndSettles(after, es[i + 1..], st, rid);
      FirstEndShifts(es, 0, i + 1, rid);
    } else {
      SettledStays(after, es[i + 1..], st, rid);
    }
  }

  /** Only requests made have an outcome. */
  lemma {:induction false} OnlyRequestsAreIssued(st: State, es: seq<Event>, st': State, rid: Rid)
    requires Run(st, es, st') && rid in st'.issued && rid !in st.issued
    ensures exists i, sent :: 0 <= i < |es| && es[i] == Request(rid, sent)
    decreases |es|
  {
    assert es != [];
    if rid !in Step(st, es[0]).issued {
      OnlyRequestsAreIssued(Step(st, es[0]), es[1..], st', rid);
      var i, sent :| 0 <= i < |es[1..]| && es[1..][i] == Request(rid, sent);
      assert es[i + 1] == Request(rid, sent);
    } else {
      assert es[0].Request? && es[0] == Request(rid, es[0].sent);
    }
  }

  predicate IsOpen(e: Event) { e.SocketOpen? }

  /** Between successful opens the number of attempts, and with it the base delay, never decreases. */
  lemma {:induction false} AttemptsGrowBetweenOpens(st: State, es: seq<Event>, st': State)
    requires Run(st, es, st') && forall i | 0 <= i < |es| :: !IsOpen(es[i])
    ensures st.attempts <= st'.attempts
    ensures st.attempts > 0 ==> BaseDelay(st.attempts) <= BaseDelay(st'.attempts)
    decreases |es|
  {
    if es != [] {
      assert !IsOpen(es[0]);
      var st1 := Step(st, es[0]);
      forall i | 0 <= i < |es[1..]| ensures !IsOpen(es[1..][i]) { assert es[1..][i] == es[i + 1]; }
      AttemptsGrowBetweenOpens(st1, es[1..], st');
      if st.attempts > 0 { Backoff(st.attempts, 0.0); }
    }
  }

  /** Closes since the last open, counting on from `n`. */
  function ClosesSinceOpen(n: nat, es: seq<Event>): nat
    decreases |es|
  {
    if es == [] then n
    else ClosesSinceOpen(if es[0].SocketOpen? then 0 else if es[0].SocketClose? then n + 1 else n, es[1..])
  }

  lemma {:induction false} AttemptsCountCloses(st: State, es: seq<Event>, st': State)
    requires Inv(st) && Run(st, es, st')
    ensures st'.attempts == ClosesSinceOpen(st.attempts, es)
    decreases |es|
  {
    if es != [] {
      StepKeepsInv(st, es[0]);
      AttemptsCountCloses(Step(st, es[0]), es[1..], st');
    }
  }

  /** The delay of a close is that of the attempt with the number of closes since the last open. */
  lemma DelayFitsCloses(es: seq<Event>, st: State, random: real)
    requires Run(Initial, es, st) && Enabled(st, SocketClose(random))
    ensures Step(st, SocketClose(random)).reconnect == Some(Delay(ClosesSinceOpen(0, es) + 1, random))
  {
    RunKeepsInv(Initial, es, st);
    AttemptsCountCloses(Initial, es, st);
  }

  // ----- The client object

  /** The module's variables, changed in place by its event handlers. */
  class Client {
    var endpoint: bool
    var ws: Option<Phase>
    var authenticated: bool
    var status: Status
    var attempts: nat
    var reconnectTimer: Option<int>
    var authTimer: bool
    var heartbeatTimer: bool
    var pending: set<Rid>
    var timers: set<Rid>
    ghost var issued: set<Rid>
    ghost var settled: map<Rid, seq<Outcome>>

    constructor ()
      ensures Now() == Initial
    {
      endpoint, ws, authenticated, status := false, None, false, Disconnected;
      attempts, reconnectTimer, authTimer, heartbeatTimer := 0, None, false, false;
      pending, timers, issued, settled := {}, {}, {}, map[];
    }

    ghost function Now(): State
      reads this
    {
      State(endpoint, ws, authenticated, status, attempts, reconnectTimer, authTimer, heartbeatTimer, pending,
          timers, issued, settled)
    }

    /** fn_clearPending: cancels the timer of each pending request and rejects it, in any order. */
    method ClearPending()
      modifies this
      ensures Now() == AllRejected(old(Now()))
    {
      ghost var st := Now();
      var todo := pending;
      NoneCleared(st);
      while todo != {}
        invariant Clearing(st, Now(), todo)
        decreases todo
      {
        var rid :| rid in todo;
        OneMoreCleared(st, Now(), todo, rid);
        timers := timers - {rid};
        settled := Settle(settled, rid, ConnectionClosed);
        todo := todo - {rid};
      }
      assert st.pending - todo == st.pending;
      pending := {};
    }

    /** All pending requests but those of `todo` are rejected, and still listed. */
    predicate Clearing(st: State, now: State, todo: set<Rid>) {
      && todo <= st.pending
      && now == st.(timers := st.timers - (st.pending - todo), settled := Rejected(st.settled, st.pending - todo))
    }

    lemma NoneCleared(st: State)
      ensures Clearing(st, st, st.pending)
    {
      assert st.pending - st.pending == {} && st.timers - {} == st.timers;
      RejectNone(st.settled);
    }

    lemma OneMoreCleared(st: State, now: State, todo: set<Rid>, rid: Rid)
      requires Clearing(st, now, todo) && rid in todo
      ensures var now' := now.(timers := now.timers - {rid}, settled := Settle(now.settled, rid, ConnectionClosed));
        Clearing(st, now', todo - {rid})
    {
      var done := st.pending - todo;
      RejectOneMore(st.settled, done, rid);
      assert st.pending - (todo - {rid}) == done + {rid};
      assert now.timers - {rid} == st.timers - (done + {rid});
    }

    lemma RejectNone(settled: map<Rid, seq<Outcome>>)
      ensures Rejected(settled, {}) == settled
    {}

    lemma RejectOneMore(settled: map<Rid, seq<Outcome>>, done: set<Rid>, rid: Rid)
      requires rid !in done
      ensures Settle(Rejected(settled, done), rid, ConnectionClosed) == Rejected(settled, done + {rid})
    {}

    method StartHeartbeat()
      modifies this`heartbeatTimer
      ensures heartbeatTimer
    {
      if heartbeatTimer { heartbeatTimer := false; }
      heartbeatTimer := true;
    }

    method StopHeartbeat()
      modifies this`heartbeatTimer
      ensures !heartbeatTimer
    {
      if heartbeatTimer { heartbeatTimer := false; }
    }

    /** fn_connectInternal */
    method Reconnect()
      modifies this
      ensures Now() == ConnectInternal(old(Now()))
    {
      if !endpoint { return; }
      if reconnectTimer != None { reconnectTimer := None; }
      status := ConnectingUp;
      ws := Some(Connecting);
    }

    /** fn_connect for the one configured endpoint */
    method Connect()
      modifies this
      ensures Now() == Step(old(Now()), Configure)
    {
      if endpoint { return; }
      if ws != None { ws := None; }
      authenticated := false;
      endpoint := true;
      Reconnect();
    }

    method OnOpen()
      requires Enabled(Now(), SocketOpen)
      modifies this
      ensures Now() == Step(old(Now()), SocketOpen)
    {
      ws := Some(Open);
      attempts := 0;
      status := ConnectingUp;
      authTimer := true;
    }

    /** The server sent no challenge in time: no authentication is required. */
    method OnAuthTimeout()
      requires Enabled(Now(), AuthTimeout)
      modifies this
      ensures Now() == Step(old(Now()), AuthTimeout)
    {
      authTimer := false;
      if !authenticated && ws == Some(Open) {
        authenticated := true;
        status := Connected;
        StartHeartbeat();
      }
    }

    method OnMessage(m: Incoming)
      requires Enabled(Now(), Receive(m))
      modifies this
      ensures Now() == Step(old(Now()), Receive(m))
    {
      match m
      case Challenge(answerSent) =>
        authTimer := false;
        if !answerSent { ws := Some(Closing); }
      case OtherEnvelope =>
      case Garbage =>
      case AuthSuccess =>
        if authTimer { authTimer := false; }
        authenticated := true;
        status := Connected;
        StartHeartbeat();
      case ErrorNote =>
      case Reply(rid) =>
        if rid.Some? && rid.value in pending {
          timers := timers - {rid.value};
          pending := pending - {rid.value};
          settled := Settle(settled, rid.value, Answered(rid.value));
        }
    }

    method OnClose(random: real)
      requires Enabled(Now(), SocketClose(random))
      modifies this
      ensures Now() == Step(old(Now()), SocketClose(random))
    {
      authenticated := false;
      ws := None;
      status := Disconnected;
      StopHeartbeat();
      ClearPending();
      assert Now() ==
        AllRejected(old(Now()).(authenticated := false, ws := None, status := Disconnected, heartbeat := false));
      if authTimer { authTimer := false; }
      if endpoint { ScheduleReconnect(random); }
    }

    method ScheduleReconnect(random: real)
      modifies this`attempts, this`reconnectTimer
      ensures attempts == old(attempts) + 1 && reconnectTimer == Some(Delay(attempts, random))
    {
      attempts := attempts + 1;
      var base := BaseDelay(attempts) as real;
      reconnectTimer := Some((base + Jitter(base, random)).Floor);
    }

    method OnError()
      requires Enabled(Now(), SocketError)
      modifies this
      ensures Now() == Step(old(Now()), SocketError)
    {
      status := Unhealthy;
      if ws != None { ws := Some(Closing); }
    }

    method OnReconnectTimeout()
      requires Enabled(Now(), ReconnectTimeout)
      modifies this
      ensures Now() == Step(old(Now()), ReconnectTimeout)
    {
      reconnectTimer := None;
      Reconnect();
    }

    /** fn_sendRequest under a fresh request id; `sent` is false when the socket's send throws. */
    method SendRequest(rid: Rid, sent: bool)
      requires Enabled(Now(), Request(rid, sent))
      modifies this
      ensures Now() == Step(old(Now()), Request(rid, sent))
    {
      issued := issued + {rid};
      if !(ws == Some(Open) && authenticated) {
        settled := Settle(settled, rid, NotConnected);
        return;
      }
      timers := timers + {rid};
      pending := pending + {rid};
      if !sent {
        timers := timers - {rid};
        pending := pending - {rid};
        settled := Settle(settled, rid, SendFailed);
      }
    }

    method OnRequestTimeout(rid: Rid)
      requires Enabled(Now(), RequestTimeout(rid))
      modifies this
      ensures Now() == Step(old(Now()), RequestTimeout(rid))
    {
      pending := pending - {rid};
      timers := timers - {rid};
      settled := Settle(settled, rid, TimedOut);
    }
  }
}
