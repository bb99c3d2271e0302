/**
 * The bootstrap client: one queue of commands over two transports, with fallback, reconnection and
 * zombie detection. Socket and timer events are inputs; `Step` is the client's reaction to each.
 */
module Bootstrap {
  import opened Bytes
  import opened Protocol

  datatype Sock = Unconnected | HostLookup | Connecting | Connected

  datatype Via = Tcp | Ws

  /** A command that has been written to a socket. */
  datatype Sent = Sent(via: Via, cmd: Command)

  /** The client's fields; timers are whether they run, `forced` and `delayed` count single shots. */
  datatype Boot = Boot(
    tcp: Sock, ws: Sock, useWs: bool, firstConnect: bool, queue: seq<Command>, lastResponse: Option<int>,
    pendingFind: QString, pendingAuth: QString,
    reconnect: bool, fallback: bool, ping: bool, forced: nat, delayed: nat,
    enqueued: seq<Command>, sent: seq<Sent>)

  const FRESH := Boot(Unconnected, Unconnected, false, true, [], None, [], [], false, false, false, 0, 0, [], [])

  const ZOMBIE_MS := 6000

  // ── reactions ──────────────────────────────────────────────────────────────

  function Tagged(via: Via, cmds: seq<Command>): (s: seq<Sent>)
    ensures |s| == |cmds|
  {
    seq(|cmds|, i requires 0 <= i < |cmds| => Sent(via, cmds[i]))
  }

  function Flushed(b: Boot): (r: Boot)
    ensures r == b.(queue := r.queue, sent := r.sent)
    ensures b.tcp.Connected? || b.ws.Connected? ==> r.queue == []
  {
    if b.tcp.Connected? then b.(queue := [], sent := b.sent + Tagged(Tcp, b.queue))
    else if b.ws.Connected? then b.(queue := [], sent := b.sent + Tagged(Ws, b.queue))
    else b
  }

  /** Nothing but sockets and timers differs. */
  predicate SameLogs(a: Boot, b: Boot) {
    a.queue == b.queue && a.enqueued == b.enqueued && a.sent == b.sent && a.pendingFind == b.pendingFind
    && a.forced == b.forced
  }

  function Ensured(b: Boot): (r: Boot)
    ensures SameLogs(r, b) && r.useWs == b.useWs && r.ws == b.ws && (r.tcp.Connected? <==> b.tcp.Connected?)
  {
    if b.tcp.Connected? || b.tcp.Connecting? || b.ws.Connected? then b
    else b.(tcp := HostLookup, fallback := true)
  }

  predicate TransportUp(b: Boot) {
    if b.useWs then b.ws.Connected? else b.tcp.Connected?
  }

  predicate Zombie(b: Boot, now: int) {
    b.queue == [] && b.lastResponse.Some? && now - b.lastResponse.value > ZOMBIE_MS
  }

  function Enqueued(b: Boot, cmd: Command, now: int): (r: Boot)
    ensures r.enqueued == b.enqueued + [cmd] && r.pendingFind == b.pendingFind && r.useWs == b.useWs
  {
    var b1 := b.(queue := b.queue + [cmd], enqueued := b.enqueued + [cmd]);
    if !TransportUp(b) then Ensured(b1)
    else if Zombie(b, now) then b1.(forced := b.forced + 1)
    else Flushed(b1)
  }

  /** The public commands: a lookup and a login also remember their nickname. */
  function Noted(b: Boot, cmd: Command): Boot {
    if cmd.Find? then b.(pendingFind := cmd.nick)
    else if cmd.AuthLogin? then b.(pendingAuth := cmd.nick)
    else b
  }

  function Submitted(b: Boot, cmd: Command, now: int): Boot {
    Enqueued(Noted(b, cmd), cmd, now)
  }

  /** `reply` is what the slot of `reconnected` submits: a REGISTER, once logged in and listening. */
  function OnConnected(b: Boot, now: int, reply: Option<Command>): Boot {
    Flushed(Replied(Greeted(b, now), now, reply).(firstConnect := false))
  }

  function Greeted(b: Boot, now: int): Boot {
    b.(lastResponse := Some(now), reconnect := false, ping := b.useWs)
  }

  function Replied(b: Boot, now: int, reply: Option<Command>): Boot {
    if !b.firstConnect && reply.Some? then Submitted(b, reply.value, now) else b
  }

  function TcpOpened(b: Boot): Boot {
    b.(tcp := Connected, fallback := false, useWs := false)
  }

  function WsOpened(b: Boot): Boot {
    b.(ws := Connected, useWs := true)
  }

  function OnDisconnected(b: Boot): Boot {
    b.(firstConnect := false, useWs := false, ping := false, reconnect := true)
  }

  function TcpDropped(b: Boot): (r: Boot)
    ensures SameLogs(r, b) && r.useWs == b.useWs && r.ws == b.ws && r.tcp.Unconnected?
  {
    var b1 := b.(tcp := Unconnected);
    if b.useWs then b1 else OnDisconnected(b1)
  }

  function WsDropped(b: Boot): (r: Boot)
    ensures SameLogs(r, b) && !r.useWs && r.ws.Unconnected? && r.tcp == b.tcp
  {
    var b1 := b.(ws := Unconnected);
    if b.useWs then OnDisconnected(b1) else b1
  }

  /** `abort()` reports a disconnection only when there was something to disconnect. */
  function TcpAborted(b: Boot): (r: Boot)
    ensures SameLogs(r, b) && r.tcp.Unconnected? && r.useWs == b.useWs && r.ws == b.ws
  {
    if b.tcp.Connected? then TcpDropped(b) else b.(tcp := Unconnected)
  }

  function WsAborted(b: Boot): (r: Boot)
    ensures SameLogs(r, b) && r.ws.Unconnected? && r.tcp == b.tcp
  {
    if b.ws.Unconnected? then b else WsDropped(b)
  }

  function Forced(b: Boot): (r: Boot)
    ensures SameLogs(r, b) && !r.useWs && r.tcp.Unconnected?
  {
    var aborted := WsAborted(TcpAborted(b.(fallback := false, ping := false)));
    aborted.(useWs := false, delayed := aborted.delayed + 1)
  }

  /** `open()` discards whatever connection the WebSocket had and starts a new one. */
  function FallBack(b: Boot): Boot {
    var b1 := b.(fallback := false);
    if b.tcp.Connected? then b1 else b1.(tcp := Unconnected, ws := Connecting)
  }

  datatype Event =
    | Submit(cmd: Command, now: int)
    | Ensure
    | TcpResolved
    | TcpUp(now: int, reply: Option<Command>)
    | TcpDown
    | TcpFailed
    | WsUp(now: int, reply: Option<Command>)
    | WsDown
    | Response(now: int)
    | FallbackTimeout
    | ReconnectTimeout
    | DelayedTimeout
    | ForcedTimeout
    | NetworkOnline

  /** An event that cannot happen in a state leaves it alone. */
  function Step(b: Boot, e: Event): Boot {
    match e
    case Submit(cmd, now) => Submitted(b, cmd, now)
    case Ensure => Ensured(b)
    case TcpResolved => if b.tcp.HostLookup? then b.(tcp := Connecting) else b
    case TcpUp(now, reply) =>
      if b.tcp.Connecting? then OnConnected(TcpOpened(b), now, reply) else b
    case TcpDown => if b.tcp.Connected? then TcpDropped(b) else b
    case TcpFailed => if b.tcp.HostLookup? || b.tcp.Connecting? then b.(tcp := Unconnected) else b
    case WsUp(now, reply) =>
      if b.ws.Connecting? then OnConnected(WsOpened(b), now, reply) else b
    case WsDown => if b.ws.Connecting? || b.ws.Connected? then WsDropped(b) else b
    case Response(now) => b.(lastResponse := Some(now))
    case FallbackTimeout => if b.fallback then FallBack(b) else b
    case ReconnectTimeout => if b.reconnect then Ensured(b.(reconnect := false)) else b
    case DelayedTimeout => if b.delayed > 0 then Ensured(b.(delayed := b.delayed - 1)) else b
    case ForcedTimeout => if b.forced > 0 then Forced(b.(forced := b.forced - 1)) else b
    case NetworkOnline => Forced(b)
  }

  function Run(b: Boot, events: seq<Event>): Boot
    decreases events
  {
    if events == [] then b else Run(Step(b, events[0]), events[1..])
  }

  // ── conservation ───────────────────────────────────────────────────────────

  function Commands(sent: seq<Sent>): (c: seq<Command>)
    ensures |c| == |sent|
  {
    seq(|sent|, i requires 0 <= i < |sent| => sent[i].cmd)
  }

  /** Everything submitted is either sent, once and in order, or still queued behind it. */
  predicate Conserved(b: Boot) {
    b.enqueued == Commands(b.sent) + b.queue
  }

  lemma CommandsOfTagged(sent: seq<Sent>, via: Via, cmds: seq<Command>)
    ensures Commands(sent + Tagged(via, cmds)) == Commands(sent) + cmds
  {
  }

  lemma FlushConserves(b: Boot)
    requires Conserved(b)
    ensures Conserved(Flushed(b))
  {
    CommandsOfTagged(b.sent, Tcp, b.queue);
    CommandsOfTagged(b.sent, Ws, b.queue);
    hide Commands, Tagged;
  }

  lemma EnqueueConserves(b: Boot, cmd: Command, now: int)
    requires Conserved(b)
    ensures Conserved(Enqueued(b, cmd, now))
  {
    var b1 := b.(queue := b.queue + [cmd], enqueued := b.enqueued + [cmd]);
    assert Conserved(b1);
    FlushConserves(b1);
    hide Commands, Flushed;
  }

  lemma ConnectConserves(b: Boot, now: int, reply: Option<Command>)
    requires Conserved(b)
    ensures Conserved(OnConnected(b, now, reply))
  {
    hide Enqueued, Commands, Flushed;
    if reply.Some? { EnqueueConserves(Noted(Greeted(b, now), reply.value), reply.value, now); }
    FlushConserves(Replied(Greeted(b, now), now, reply).(firstConnect := false));
  }

  lemma StepConserves(b: Boot, e: Event)
    requires Conserved(b)
    ensures Conserved(Step(b, e))
  {
    hide Commands, Flushed, Enqueued, OnConnected, Ensured, Forced, TcpDropped, WsDropped;
    match e
    case Submit(cmd, now) => EnqueueConserves(Noted(b, cmd), cmd, now);
    case TcpUp(now, reply) => ConnectConserves(TcpOpened(b), now, reply);
    case WsUp(now, reply) => ConnectConserves(WsOpened(b), now, reply);
    case _ =>
  }

  /** Over every run and across both transports: submitted log = sent log + queue. */
  lemma {:induction false} RunConserves(b: Boot, events: seq<Event>)
    requires Conserved(b)
    ensures Conserved(Run(b, events))
    decreases events
  {
    if events != [] {
      StepConserves(b, events[0]);
      RunConserves(Step(b, events[0]), events[1..]);
    }
  }

  // ── safety of the transport flag ───────────────────────────────────────────

  /** The flag tells the truth, and a live transport leaves no command waiting unless a reset is due. */
  predicate Safe(b: Boot) {
    && (b.useWs ==> b.ws.Connected?)
    && (b.tcp.Connected? || b.useWs ==> b.queue == [] || b.forced > 0)
  }

  /** The fallback timer fires while the WebSocket already carries the traffic. */
  predicate Reopens(b: Boot, e: Event) {
    e.FallbackTimeout? && b.fallback && b.useWs && !b.tcp.Connected?
  }

  lemma EnqueueIsSafe(b: Boot, cmd: Command, now: int)
    requires Safe(b)
    ensures Safe(Enqueued(b, cmd, now))
  {
  }

  lemma ConnectIsSafe(b: Boot, now: int, reply: Option<Command>)
    requires b.tcp.Connected? || b.ws.Connected?
    requires b.useWs ==> b.ws.Connected?
    ensures Safe(OnConnected(b, now, reply))
  {
    hide Tagged;
  }

  /** One step keeps safety exactly when it does not reopen a WebSocket in use. */
  lemma SafeStep(b: Boot, e: Event)
    requires Safe(b)
    ensures Safe(Step(b, e)) <==> !Reopens(b, e)
  {
    hide Flushed, Enqueued, OnConnected, Ensured, Forced, TcpDropped, WsDropped;
    match e
    case Submit(cmd, now) => EnqueueIsSafe(Noted(b, cmd), cmd, now);
    case TcpUp(now, reply) => ConnectIsSafe(TcpOpened(b), now, reply);
    case WsUp(now, reply) => ConnectIsSafe(WsOpened(b), now, reply);
    case _ =>
  }

  predicate AlwaysSafe(b: Boot, events: seq<Event>)
    decreases events
  {
    Safe(b) && (events == [] || AlwaysSafe(Step(b, events[0]), events[1..]))
  }

  predicate NeverReopens(b: Boot, events: seq<Event>)
    decreases events
  {
    events == [] || (!Reopens(b, events[0]) && NeverReopens(Step(b, events[0]), events[1..]))
  }

  /** A run is safe throughout if and only if the fallback timer never fires under a live WebSocket. */
  lemma {:induction false} RunIsSafe(b: Boot, events: seq<Event>)
    requires Safe(b)
    ensures AlwaysSafe(b, events) <==> NeverReopens(b, events)
    decreases events
  {
    if events != [] {
      SafeStep(b, events[0]);
      if !Reopens(b, events[0]) {
        RunIsSafe(Step(b, events[0]), events[1..]);
      } else if |events| > 1 {
        assert !Safe(Step(b, events[0]));
      }
    }
  }

  /** Such a run exists from the start: the flag ends up set while the WebSocket is only connecting. */
  lemma FallbackReopensLiveWebSocket(now: int)
    ensures var end := Run(FRESH, [Ensure, FallbackTimeout, Ensure, WsUp(now, None), FallbackTimeout]);
            end.useWs && end.ws == Connecting
  {
    var s1 := Step(FRESH, Ensure);
    var s2 := Step(s1, FallbackTimeout);
    var s3 := Step(s2, Ensure);
    RunFive(FRESH, Ensure, FallbackTimeout, Ensure, WsUp(now, None), FallbackTimeout);
  }

  lemma RunFive(b: Boot, e1: Event, e2: Event, e3: Event, e4: Event, e5: Event)
    ensures Run(b, [e1, e2, e3, e4, e5]) == Step(Step(Step(Step(Step(b, e1), e2), e3), e4), e5)
  {
    hide Step;
    var s1, s2, s3 := Step(b, e1), Step(Step(b, e1), e2), Step(Step(Step(b, e1), e2), e3);
    assert Run(b, [e1, e2, e3, e4, e5]) == Run(s1, [e2, e3, e4, e5]);
    assert Run(s1, [e2, e3, e4, e5]) == Run(s2, [e3, e4, e5]);
    assert Run(s2, [e3, e4, e5]) == Run(s3, [e4, e5]);
    assert Run(s3, [e4, e5]) == Run(Step(s3, e4), [e5]);
    assert Run(Step(s3, e4), [e5]) == Step(Step(s3, e4), e5);
  }

  lemma RunTwo(b: Boot, e1: Event, e2: Event)
    ensures Run(b, [e1, e2]) == Step(Step(b, e1), e2)
  {
    hide Step;
    assert Run(b, [e1, e2]) == Run(Step(b, e1), [e2]);
    assert Run(Step(b, e1), [e2]) == Step(Step(b, e1), e2);
  }

  // ── the stranded WebSocket ─────────────────────────────────────────────────

  /** "Some socket is connected" is not enough: the WebSocket is up, but nothing uses it. */
  predicate Stranded(b: Boot) {
    b.ws.Connected? && !b.useWs && b.tcp.Unconnected? && !b.fallback && b.forced == 0
  }

  /** Over every run without a WebSocket drop or a network change, nothing is ever sent again. */
  lemma {:induction false} StrandedForever(b: Boot, events: seq<Event>)
    requires Stranded(b)
    requires Spared(events)
    ensures var end := Run(b, events); Stranded(end) && end.sent == b.sent && b.queue <= end.queue
    decreases events
  {
    if events != [] {
      StrandedStep(b, events[0]);
      hide Step, Stranded;
      StrandedForever(Step(b, events[0]), events[1..]);
    }
  }

  lemma StrandedStep(b: Boot, e: Event)
    requires Stranded(b) && !e.WsDown? && !e.NetworkOnline?
    ensures var next := Step(b, e); Stranded(next) && next.sent == b.sent && b.queue <= next.queue
  {
    hide Flushed, OnConnected, Forced;
    match e
    case Submit(cmd, now) => assert Enqueued(Noted(b, cmd), cmd, now).queue == b.queue + [cmd];
    case _ =>
  }

  /** No WebSocket drop and no network change. */
  predicate Spared(events: seq<Event>) {
    forall i :: 0 <= i < |events| ==> !events[i].WsDown? && !events[i].NetworkOnline?
  }

  /** Some such run sends a command. */
  ghost predicate CanSend(b: Boot) {
    exists events :: Spared(events) && |Run(b, events).sent| > |b.sent|
  }

  /** With a transport in use, a command that finds no zombie goes straight out. */
  lemma UpCanSend(b: Boot)
    requires TransportUp(b)
    ensures CanSend(b)
  {
    var e := Submit(AuthLogout([]), if b.lastResponse.Some? then b.lastResponse.value else 0);
    assert Step(b, e) == Run(b, [e]);
    assert Spared([e]);
  }

  /** Coming up on TCP sends whatever waits. */
  lemma ConnectSends(b: Boot)
    requires b.tcp.Connecting? && b.queue != []
    ensures |Step(b, TcpUp(0, None)).sent| > |b.sent|
  {
  }

  lemma ContinuesToSend(b: Boot, first: seq<Event>)
    requires Spared(first) && |Run(b, first).sent| >= |b.sent| && CanSend(Run(b, first))
    ensures CanSend(b)
  {
    var rest :| Spared(rest) && |Run(Run(b, first), rest).sent| > |Run(b, first).sent|;
    RunAppend(b, first, rest);
    assert Spared(first + rest);
  }

  lemma OneStepFirst(b: Boot, e: Event)
    requires !e.WsDown? && !e.NetworkOnline? && |Step(b, e).sent| >= |b.sent| && CanSend(Step(b, e))
    ensures CanSend(b)
  {
    hide CanSend, Step;
    assert Run(b, [e]) == Step(b, e);
    ContinuesToSend(b, [e]);
  }

  lemma SendsAtOnce(b: Boot, e: Event)
    requires !e.WsDown? && !e.NetworkOnline? && |Step(b, e).sent| > |b.sent|
    ensures CanSend(b)
  {
    hide Step;
    assert Run(b, [e]) == Step(b, e);
    assert Spared([e]);
  }

  /** Looking up or connecting by TCP, with something waiting. */
  lemma DialledCanSend(b: Boot)
    requires (b.tcp.HostLookup? || b.tcp.Connecting?) && b.queue != []
    ensures CanSend(b)
  {
    hide CanSend;
    if b.tcp.Connecting? {
      ConnectSends(b);
      SendsAtOnce(b, TcpUp(0, None));
    } else {
      ConnectSends(Step(b, TcpResolved));
      SendsAtOnce(Step(b, TcpResolved), TcpUp(0, None));
      OneStepFirst(b, TcpResolved);
    }
  }

  /** Without a transport in use, a command waits. */
  lemma DownQueues(b: Boot)
    requires !TransportUp(b)
    ensures var d := Step(b, Submit(AuthLogout([]), 0));
            && d.queue != [] && d.sent == b.sent && !TransportUp(d) && (d.tcp.Connected? <==> b.tcp.Connected?)
            && (Stranded(d) ==> Stranded(b))
  {
  }

  lemma IdleCanSend(b: Boot)
    requires b.tcp.Unconnected? && !b.ws.Connected? && b.queue != []
    ensures CanSend(b)
  {
    hide CanSend;
    DialledCanSend(Step(b, Ensure));
    OneStepFirst(b, Ensure);
  }

  /** With a command waiting and TCP not connected, only a stranded client has no way out. */
  lemma WaitingCanSend(b: Boot)
    requires b.queue != [] && !b.tcp.Connected? && !Stranded(b) && !TransportUp(b)
    ensures CanSend(b)
  {
    hide CanSend;
    if !b.tcp.Unconnected? {
      DialledCanSend(b);
    } else if !b.ws.Connected? {
      IdleCanSend(b);
    } else if b.fallback {
      var d := Step(b, FallbackTimeout);
      assert d.ws.Connecting? && d.queue != [];
      SendsAtOnce(d, WsUp(0, None));
      OneStepFirst(b, FallbackTimeout);
    } else {
      IdleCanSend(Step(b, ForcedTimeout));
      OneStepFirst(b, ForcedTimeout);
    }
  }

  lemma UnstrandedCanSend(b: Boot)
    requires !Stranded(b)
    ensures CanSend(b)
  {
    hide CanSend, Ensured;
    var e := Submit(AuthLogout([]), 0);
    if TransportUp(b) {
      UpCanSend(b);
    } else if b.tcp.Connected? {
      var d := Step(b, TcpDown);
      DownQueues(d);
      WaitingCanSend(Step(d, e));
      OneStepFirst(d, e);
      OneStepFirst(b, TcpDown);
    } else {
      DownQueues(b);
      WaitingCanSend(Step(b, e));
      OneStepFirst(b, e);
    }
  }

  /**
   * A client can send nothing more, short of a WebSocket drop or a network change, exactly when the WebSocket
   * is up but unused, TCP is down, and neither the fallback timer nor a reset is due.
   */
  lemma StrandedExactly(b: Boot)
    ensures Stranded(b) <==> forall events :: Spared(events) ==> Run(b, events).sent == b.sent
  {
    if Stranded(b) {
      forall events | Spared(events) ensures Run(b, events).sent == b.sent {
        StrandedForever(b, events);
      }
    } else {
      UnstrandedCanSend(b);
      var events :| Spared(events) && |Run(b, events).sent| > |b.sent|;
    }
  }

  /** And the state is reached: both transports come up, TCP last, and TCP then drops. */
  lemma StrandedIsReached(now: int)
    ensures exists events :: Stranded(Run(FRESH, events))
  {
    var first, last := [Ensure, FallbackTimeout, Ensure, TcpResolved, WsUp(now, None)], [TcpUp(now, None), TcpDown];
    RunFive(FRESH, Ensure, FallbackTimeout, Ensure, TcpResolved, WsUp(now, None));
    var s := Step(Step(Step(Step(Step(FRESH, Ensure), FallbackTimeout), Ensure), TcpResolved), WsUp(now, None));
    assert s.tcp.Connecting? && s.ws.Connected? && s.useWs && s.forced == 0;
    RunTwo(s, TcpUp(now, None), TcpDown);
    RunAppend(FRESH, first, last);
    assert Stranded(Run(FRESH, first + last));
  }

  lemma {:induction false} RunAppend(b: Boot, first: seq<Event>, rest: seq<Event>)
    ensures Run(b, first + rest) == Run(Run(b, first), rest)
    decreases first
  {
    if first == [] {
      assert first + rest == rest;
    } else {
      assert (first + rest)[1..] == first[1..] + rest;
      RunAppend(Step(b, first[0]), first[1..], rest);
    }
  }

  // ── lookups ────────────────────────────────────────────────────────────────

  /** The remembered nickname is always the one looked up last. */
  predicate RemembersLast(b: Boot) {
    var finds := Finds(b.enqueued);
    finds != [] ==> b.pendingFind == finds[|finds| - 1]
  }

  lemma SubmitRemembers(b: Boot, cmd: Command, now: int)
    requires RemembersLast(b)
    ensures RemembersLast(Submitted(b, cmd, now))
  {
    hide Enqueued;
    assert (b.enqueued + [cmd])[..|b.enqueued|] == b.enqueued;
  }

  lemma ConnectRemembers(b: Boot, now: int, reply: Option<Command>)
    requires RemembersLast(b)
    ensures RemembersLast(OnConnected(b, now, reply))
  {
    var b1 := Greeted(b, now);
    if reply.Some? { SubmitRemembers(b1, reply.value, now); }
    hide Submitted, Finds, Flushed;
    var b2 := Replied(b1, now, reply);
    assert RemembersLast(b2);
    var end := OnConnected(b, now, reply);
    assert end.enqueued == b2.enqueued && end.pendingFind == b2.pendingFind;
  }

  lemma StepRemembers(b: Boot, e: Event)
    requires RemembersLast(b)
    ensures RemembersLast(Step(b, e))
  {
    hide Submitted, OnConnected, Finds, Ensured, Forced, TcpDropped, WsDropped;
    match e
    case Submit(cmd, now) => SubmitRemembers(b, cmd, now);
    case TcpUp(now, reply) => ConnectRemembers(TcpOpened(b), now, reply);
    case WsUp(now, reply) => ConnectRemembers(WsOpened(b), now, reply);
    case _ =>
  }

  lemma {:induction false} RunRemembers(b: Boot, events: seq<Event>)
    requires RemembersLast(b)
    ensures RemembersLast(Run(b, events))
    decreases events
  {
    if events != [] {
      StepRemembers(b, events[0]);
      RunRemembers(Step(b, events[0]), events[1..]);
    }
  }

  /** The nickname under which a reply reports a lookup, if it reports one. */
  function Reported(b: Boot, line: QString): Option<QString> {
    match ParseResponse(line, b.pendingAuth, b.pendingFind)
    case Some(UserFound(nick, _, _, _)) => Some(nick)
    case Some(UserNotFound(nick)) => Some(nick)
    case _ => None
  }

  lemma {:induction false} ReportsPending(from: nat, b: Boot, line: QString)
    requires from <= BRANCHES
    ensures var s := ParseFrom(from, line, b.pendingAuth, b.pendingFind);
            s.Some? && (s.value.UserFound? || s.value.UserNotFound?) ==> s.value.nick == b.pendingFind
    decreases BRANCHES - from
  {
    hide Prefix, Matches;
    if from < BRANCHES { ReportsPending(from + 1, b, line); }
  }

  /**
   * With replies in order, after `answered` replies or losses the next one belongs to the lookup at that place.
   * It is reported for the nickname actually asked exactly when that is the latest one asked; so never
   * wrongly while the unanswered lookups share one nickname.
   */
  lemma LookupAttribution(events: seq<Event>, answered: nat, line: QString)
    requires var b := Run(FRESH, events); answered < |Finds(b.enqueued)| && Reported(b, line).Some?
    ensures var b := Run(FRESH, events);
            var finds := Finds(b.enqueued);
            && (Reported(b, line) == Some(finds[answered]) <==> finds[answered] == finds[|finds| - 1])
            && ((forall i, j :: answered <= i < |finds| && answered <= j < |finds| ==> finds[i] == finds[j])
                ==> Reported(b, line) == Some(finds[answered]))
  {
    RunRemembers(FRESH, events);
    ReportsPending(0, Run(FRESH, events), line);
  }

  /** Two lookups out: that the first nickname is unknown is reported of the second. */
  lemma MissReportedOfSecond(first: QString, second: QString, now: int)
    ensures var b := Run(FRESH, [Submit(Find(first), now), Submit(Find(second), now)]);
            Finds(b.enqueued) == [first, second] && Reported(b, Prefix(8)) == Some(second)
  {
    hide Ensured, Flushed, ParseResponse, Prefix;
    var b := Submitted(Submitted(FRESH, Find(first), now), Find(second), now);
    RunTwo(FRESH, Submit(Find(first), now), Submit(Find(second), now));
    assert b.enqueued == [] + [Find(first)] + [Find(second)];
    FindsAppend([], Find(first));
    FindsAppend([] + [Find(first)], Find(second));
    ParsePrefixed(8, [], b.pendingAuth, b.pendingFind);
    assert Prefix(8) + [] == Prefix(8);
  }

  // ── the object ─────────────────────────────────────────────────────────────

  class BootstrapClient {
    var socket: Sock
    var wsSocket: Sock
    var queue: seq<Command>
    var reconnectTimer: bool
    var fallbackTimer: bool
    var pingTimer: bool
    var firstConnect: bool
    var useWs: bool
    var lastResponseTime: Option<int>
    var pendingFindNickname: QString
    var pendingAuthNickname: QString
    var forcedShots: nat
    var delayedShots: nat
    var sent: seq<Sent>
    ghost var enqueued: seq<Command>

    ghost function Abs(): Boot
      reads this
    {
      Boot(socket, wsSocket, useWs, firstConnect, queue, lastResponseTime, pendingFindNickname, pendingAuthNickname,
           reconnectTimer, fallbackTimer, pingTimer, forcedShots, delayedShots, enqueued, sent)
    }

    constructor ()
      ensures Abs() == FRESH
    {
      socket, wsSocket, queue := Unconnected, Unconnected, [];
      reconnectTimer, fallbackTimer, pingTimer, firstConnect, useWs := false, false, false, true, false;
      lastResponseTime, pendingFindNickname, pendingAuthNickname := None, [], [];
      forcedShots, delayedShots, enqueued, sent := 0, 0, [], [];
    }

    method EnsureConnected()
      modifies this
      ensures Abs() == Ensured(old(Abs()))
    {
      if socket.Connected? || socket.Connecting? || wsSocket.Connected? { return; }
      socket := HostLookup;
      fallbackTimer := true;
    }

    method FlushQueue()
      modifies this
      ensures Abs() == Flushed(old(Abs()))
    {
      ghost var whole := queue;
      ghost var before := sent;
      ghost var via := if socket.Connected? then Tcp else Ws;
      ghost var n := 0;
      while queue != []
        invariant n <= |whole| && queue == whole[n..] && sent == before + Tagged(via, whole[..n])
        invariant n > 0 ==> socket.Connected? || wsSocket.Connected?
        modifies `queue, `sent
        decreases |queue|
      {
        if socket.Connected? {
          sent := sent + [Sent(Tcp, queue[0])];
          queue := queue[1..];
        } else if wsSocket.Connected? {
          sent := sent + [Sent(Ws, queue[0])];
          queue := queue[1..];
        } else {
          break;
        }
        TaggedOneMore(via, whole, n);
        n := n + 1;
      }
      assert whole[..n] == if n == |whole| then whole else [];
    }

    method Enqueue(message: Command, now: int)
      modifies this
      ensures Abs() == Enqueued(old(Abs()), message, now)
    {
      hide Flushed, Ensured;
      var wasEmpty := queue == [];
      queue := queue + [message];
      enqueued := enqueued + [message];
      var isConnected := if useWs then wsSocket.Connected? else socket.Connected?;
      if isConnected {
        if wasEmpty && lastResponseTime.Some? && now - lastResponseTime.value > ZOMBIE_MS {
          forcedShots := forcedShots + 1;
        } else {
          FlushQueue();
        }
      } else {
        EnsureConnected();
      }
    }

    method FindUser(nick: QString, now: int)
      modifies this
      ensures Abs() == Submitted(old(Abs()), Find(nick), now) && enqueued == old(enqueued) + [Find(nick)]
    {
      hide Enqueued;
      pendingFindNickname := nick;
      Enqueue(Find(nick), now);
    }

    method AuthLogin(nick: QString, password: QString, now: int)
      modifies this
      ensures Abs() == Submitted(old(Abs()), Command.AuthLogin(nick, password), now)
    {
      hide Enqueued;
      pendingAuthNickname := nick;
      Enqueue(Command.AuthLogin(nick, password), now);
    }

    method StoreMessage(nick: QString, blob: bytes, now: int)
      modifies this
      ensures Abs() == Submitted(old(Abs()), Store(nick, blob), now) && enqueued == old(enqueued) + [Store(nick, blob)]
    {
      hide Enqueued;
      Enqueue(Store(nick, blob), now);
    }

    method FetchMessages(nick: QString, now: int)
      modifies this
      ensures Abs() == Submitted(old(Abs()), Fetch(nick), now) && enqueued == old(enqueued) + [Fetch(nick)]
    {
      hide Enqueued;
      Enqueue(Fetch(nick), now);
    }

    method RegisterUser(nick: QString, port: nat, key: bytes, now: int)
      modifies this
      ensures Abs() == Submitted(old(Abs()), Register(nick, port, key), now)
      ensures enqueued == old(enqueued) + [Register(nick, port, key)]
    {
      hide Enqueued;
      Enqueue(Register(nick, port, key), now);
    }

    /** `reply` is the REGISTER that the slot of `reconnected` sends, if it sends one. */
    method HandleConnected(now: int, reply: Option<Command>)
      requires reply.Some? ==> reply.value.Register?
      modifies this
      ensures Abs() == OnConnected(old(Abs()), now, reply)
    {
      hide Enqueued, Flushed, SameLogs;
      lastResponseTime := Some(now);
      reconnectTimer := false;
      pingTimer := useWs;
      assert Abs() == Greeted(old(Abs()), now);
      assert reply.Some? ==> Noted(Abs(), reply.value) == Abs();
      if !firstConnect && reply.Some? {
        Enqueue(reply.value, now);
      }
      assert Abs() == Replied(Greeted(old(Abs()), now), now, reply);
      hide Replied, Greeted;
      firstConnect := false;
      FlushQueue();
    }

    method HandleDisconnected()
      modifies this
      ensures Abs() == OnDisconnected(old(Abs()))
    {
      firstConnect := false;
      useWs := false;
      pingTimer := false;
      reconnectTimer := true;
    }

    method TcpConnected(now: int, reply: Option<Command>)
      requires socket.Connecting?
      requires reply.Some? ==> reply.value.Register?
      modifies this
      ensures Abs() == OnConnected(TcpOpened(old(Abs())), now, reply)
    {
      hide OnConnected;
      socket := Connected;
      fallbackTimer := false;
      useWs := false;
      HandleConnected(now, reply);
    }

    method TcpDisconnected()
      requires socket.Connected?
      modifies this
      ensures Abs() == TcpDropped(old(Abs()))
    {
      socket := Unconnected;
      if !useWs { HandleDisconnected(); }
    }

    method WsConnected(now: int, reply: Option<Command>)
      requires wsSocket.Connecting?
      requires reply.Some? ==> reply.value.Register?
      modifies this
      ensures Abs() == OnConnected(WsOpened(old(Abs())), now, reply)
    {
      hide OnConnected;
      wsSocket := Connected;
      useWs := true;
      HandleConnected(now, reply);
    }

    method WsDisconnected()
      requires !wsSocket.Unconnected?
      modifies this
      ensures Abs() == WsDropped(old(Abs()))
    {
      wsSocket := Unconnected;
      if useWs { HandleDisconnected(); }
    }

    method FallbackFired()
      requires fallbackTimer
      modifies this
      ensures Abs() == FallBack(old(Abs()))
    {
      fallbackTimer := false;
      if !socket.Connected? {
        socket := Unconnected;
        wsSocket := Connecting;
      }
    }

    /** A line has arrived: what it emits. */
    method HandleLine(line: QString, now: int) returns (s: Option<Signal>)
      modifies this
      ensures Abs() == Step(old(Abs()), Response(now))
      ensures s == ParseResponse(line, old(pendingAuthNickname), old(pendingFindNickname))
    {
      lastResponseTime := Some(now);
      s := ParseResponse(line, pendingAuthNickname, pendingFindNickname);
    }

    method AbortTcp()
      modifies this
      ensures Abs() == TcpAborted(old(Abs()))
    {
      hide TcpDropped;
      if socket.Connected? { TcpDisconnected(); } else { socket := Unconnected; }
    }

    method AbortWs()
      modifies this
      ensures Abs() == WsAborted(old(Abs()))
    {
      hide WsDropped;
      if !wsSocket.Unconnected? { WsDisconnected(); }
    }

    method ForceReconnect()
      modifies this
      ensures Abs() == Forced(old(Abs()))
    {
      hide TcpAborted, WsAborted, SameLogs;
      fallbackTimer := false;
      pingTimer := false;
      ghost var b := old(Abs()).(fallback := false, ping := false);
      assert Abs() == b;
      AbortTcp();
      AbortWs();
      ghost var aborted := WsAborted(TcpAborted(b));
      assert Abs() == aborted;
      useWs := false;
      delayedShots := delayedShots + 1;
      assert Abs() == aborted.(useWs := false, delayed := aborted.delayed + 1);
    }
  }

  lemma TaggedOneMore(via: Via, cmds: seq<Command>, n: nat)
    requires n < |cmds|
    ensures Tagged(via, cmds[..n + 1]) == Tagged(via, cmds[..n]) + [Sent(via, cmds[n])]
  {
  }
}
