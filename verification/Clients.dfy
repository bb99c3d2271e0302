/**
 * The core and its bootstrap client together: commands the core hands over are submitted at once and in
 * order, a new connection makes the core register again, and a line from the server becomes the signal
 * that its parser emits.
 */
module Clients {
  import opened Bytes
  import opened Platform
  import opened DataStream
  import opened Protocol
  import opened LocalDb
  import B = Bootstrap
  import opened Core
  import opened MailMoves
  import opened CoreInvariants
  import opened CoreRuns

  datatype Client = Client(core: Core, boot: B.Boot)

  /**
   * Calls, timers and peer connections; the bootstrap client's sockets and timers; lines from the server; and
   * that the next STORE or FIND to be answered was lost with its connection.
   */
  datatype Happening =
    | Inside(e: Event)
    | Transport(change: B.Event)
    | Up(via: B.Via)
    | Line(line: QString, local: bool)
    | Missing(store: bool)

  datatype Moment = Moment(what: Happening, now: Msecs)

  // ── what the two halves tell each other ────────────────────────────────────

  function Submitting(b: B.Boot, cmds: seq<Command>, now: Msecs): B.Boot {
    if cmds == [] then b
    else B.Submitted(Submitting(b, cmds[..|cmds| - 1], now), cmds[|cmds| - 1], now)
  }

  /** The commands a reaction of the core handed over. */
  function Handed(c: Core, d: Core): seq<Command> {
    var before, after := CommandsIn(c.mail.out), CommandsIn(d.mail.out);
    if |before| <= |after| then after[|before|..] else []
  }

  /** The events that only the server or a new connection brings about. */
  predicate Remote(e: Event) {
    e.StoreReply? || e.StoreLost? || e.LookupReply? || e.LookupMissed? || e.LookupLost? || e.FetchReply?
    || e.SeenBehindNat? || e.Reconnected?
  }

  /** `ensure_connected` comes before a poll for messages. */
  predicate Wakes(c: Core, e: Event) {
    (e.Poll? || e.NetworkUp?) && c.me.nick != []
  }

  /** What the core's slots make of a signal; `local` is whether a registered address is one of ours. */
  function EventOf(s: Option<Signal>, local: bool): Option<Event> {
    match s
    case Some(UserFound(nick, _, _, key)) => Some(LookupReply(nick, key))
    case Some(UserNotFound(_)) => Some(LookupMissed)
    case Some(StoreConfirmed) => Some(StoreReply(true))
    case Some(StoreFailed(_)) => Some(StoreReply(false))
    case Some(MessagesFetched(blobs)) => Some(FetchReply(blobs))
    case Some(Registered(_)) => if local then None else Some(SeenBehindNat)
    case _ => None
  }

  function Parsed(b: B.Boot, line: QString): Option<Signal> {
    ParseResponse(line, b.pendingAuth, b.pendingFind)
  }

  /** The REGISTER that the slot of `reconnected` submits. */
  function Registration(me: Me): Option<Command> {
    if me.nick == [] || me.port == 0 then None else Some(Register(me.nick, me.port, me.pub))
  }

  /** Whether the connection can come up now. */
  predicate Awaited(b: B.Boot, via: B.Via) {
    if via.Tcp? then b.tcp.Connecting? else b.ws.Connecting?
  }

  function CameUp(b: B.Boot, via: B.Via, now: Msecs, reply: Option<Command>): B.Boot {
    B.Step(b, if via.Tcp? then B.TcpUp(now, reply) else B.WsUp(now, reply))
  }

  // ── one happening ──────────────────────────────────────────────────────────

  /** The event a happening is for the core, if it is one. */
  function CoreEvent(cl: Client, h: Happening): Option<Event> {
    match h
    case Inside(e) => if Remote(e) then None else Some(e)
    case Transport(_) => None
    case Up(via) => if Awaited(cl.boot, via) && !cl.boot.firstConnect then Some(Reconnected) else None
    case Line(line, local) => EventOf(Parsed(cl.boot, line), local)
    case Missing(store) => Some(if store then StoreLost else LookupLost)
  }

  function CoreAfter(p: Platform, cl: Client, m: Moment): Core {
    match CoreEvent(cl, m.what)
    case Some(e) => Step(p, cl.core, Timed(e, m.now))
    case None => cl.core
  }

  function After(p: Platform, cl: Client, m: Moment): Client {
    var d := CoreAfter(p, cl, m);
    match m.what
    case Inside(e) =>
      var awake := if Wakes(cl.core, e) then B.Ensured(cl.boot) else cl.boot;
      Client(d, Submitting(awake, Handed(cl.core, d), m.now))
    case Transport(e) =>
      Client(d, if e.Submit? || e.TcpUp? || e.WsUp? || e.Response? then cl.boot else B.Step(cl.boot, e))
    case Up(via) => Client(d, CameUp(cl.boot, via, m.now, Registration(cl.core.me)))
    case Line(_, _) => Client(d, Submitting(B.Step(cl.boot, B.Response(m.now)), Handed(cl.core, d), m.now))
    case Missing(_) => Client(d, cl.boot)
  }

  function AfterAll(p: Platform, cl: Client, moments: seq<Moment>): Client {
    if moments == [] then cl else After(p, AfterAll(p, cl, moments[..|moments| - 1]), moments[|moments| - 1])
  }

  function LoggedIn(me: Me): Client {
    Client(Start(me), B.FRESH)
  }

  // ── a client run is a core run ─────────────────────────────────────────────

  /** What the core sees of a client's run. */
  function Seen(p: Platform, cl: Client, moments: seq<Moment>): seq<Timed> {
    if moments == [] then []
    else
      var last := moments[|moments| - 1];
      var e := CoreEvent(AfterAll(p, cl, moments[..|moments| - 1]), last.what);
      Seen(p, cl, moments[..|moments| - 1]) + if e.Some? then [Timed(e.value, last.now)] else []
  }

  /** So everything said of the core's runs holds of it here. */
  lemma {:induction false} CoreRunsInside(p: Platform, cl: Client, moments: seq<Moment>)
    ensures AfterAll(p, cl, moments).core == Run(p, cl.core, Seen(p, cl, moments))
  {
    hide Step, CoreEvent, Submitting, Handed, B.Step, CameUp;
    if moments != [] {
      var front, last := moments[..|moments| - 1], moments[|moments| - 1];
      CoreRunsInside(p, cl, front);
      var before, e := AfterAll(p, cl, front), CoreEvent(AfterAll(p, cl, front), last.what);
      if e.Some? {
        RunOneMore(p, cl.core, Seen(p, cl, front), Timed(e.value, last.now));
      } else {
        assert Seen(p, cl, front) + [] == Seen(p, cl, front);
      }
    }
  }

  lemma RunOneMore(p: Platform, c: Core, events: seq<Timed>, e: Timed)
    ensures Run(p, c, events + [e]) == Step(p, Run(p, c, events), e)
  {
    hide Step;
    assert (events + [e])[..|events|] == events;
  }

  // ── the log only grows ─────────────────────────────────────────────────────

  ghost function Grows(): Relation {
    (m: Mail, n: Mail, now: Msecs, discards: bool) => m.out <= n.out
  }

  lemma GrowsIsClosed()
    ensures MoveClosed(Grows()) && AckClosed(Grows())
  {
    hide Saved, MarkedRead, StatusUpdated, OutEnqueued, MessageBytes, Peeked, Confirmed, Drains, Carries, StoreTags;
  }

  /** The parts of the invariants that need no clock. */
  ghost predicate Sober(c: Core) {
    InboxInv(c.inbox) && Lockstep(c)
  }

  lemma StepGrows(p: Platform, c: Core, e: Timed)
    requires Sober(c)
    ensures var d := Step(p, c, e); Sober(d) && c.mail.out <= d.mail.out && d.me == c.me
  {
    hide InboxInv, Lockstep, Enabled, React, MoveClosed;
    if Enabled(c, e.event) {
      GrowsIsClosed();
      var R := Grows();
      assert Holds(R, c.mail, e.now);
      if e.event.StoreReply? { assert AckLaw(R, c.mail, Verdict(e.event.ok), e.now); }
      ReactSound(R, p, c, e.event, e.now);
    }
  }

  lemma {:induction false} CommandsGrow(out: seq<Outbound>, later: seq<Outbound>)
    requires out <= later
    ensures CommandsIn(out) <= CommandsIn(later)
  {
    if out != later {
      assert out <= later[..|later| - 1];
      CommandsGrow(out, later[..|later| - 1]);
    } else {
      assert CommandsIn(out) == CommandsIn(later);
    }
  }

  // ── in step ────────────────────────────────────────────────────────────────

  /** The bootstrap client was given exactly what the core handed over, and remembers the last nickname asked. */
  ghost predicate InStep(cl: Client) {
    && Sober(cl.core)
    && cl.boot.enqueued == CommandsIn(cl.core.mail.out)
    && B.Conserved(cl.boot) && B.RemembersLast(cl.boot)
  }

  lemma {:induction false} SubmittingKeeps(b: B.Boot, cmds: seq<Command>, now: Msecs)
    requires B.Conserved(b) && B.RemembersLast(b)
    ensures var d := Submitting(b, cmds, now); d.enqueued == b.enqueued + cmds && B.Conserved(d) && B.RemembersLast(d)
  {
    hide B.Conserved, B.RemembersLast, B.Enqueued;
    if cmds == [] {
      assert b.enqueued + [] == b.enqueued;
    } else {
      var front, last := cmds[..|cmds| - 1], cmds[|cmds| - 1];
      SubmittingKeeps(b, front, now);
      var before := Submitting(b, front, now);
      B.StepConserves(before, B.Submit(last, now));
      B.StepRemembers(before, B.Submit(last, now));
      SubmittedOne(before, last, now);
      assert cmds == front + [last];
    }
  }

  lemma SubmittedOne(b: B.Boot, cmd: Command, now: Msecs)
    ensures B.Submitted(b, cmd, now).enqueued == b.enqueued + [cmd]
  {
  }

  /** Socket and timer events submit nothing, except that a reconnection submits its reply. */
  lemma TransportSubmits(b: B.Boot, e: B.Event)
    requires !e.Submit? && !e.TcpUp? && !e.WsUp?
    ensures B.Step(b, e).enqueued == b.enqueued
  {
    hide B.Flushed;
  }

  lemma ConnectSubmits(b: B.Boot, via: B.Via, now: Msecs, reply: Option<Command>)
    ensures CameUp(b, via, now, reply).enqueued
         == b.enqueued + if Awaited(b, via) && !b.firstConnect && reply.Some? then [reply.value] else []
  {
    hide B.Ensured, B.Flushed, B.Enqueued;
  }

  lemma HandedOver(c: Core, d: Core)
    requires c.mail.out <= d.mail.out
    ensures CommandsIn(d.mail.out) == CommandsIn(c.mail.out) + Handed(c, d)
  {
    CommandsGrow(c.mail.out, d.mail.out);
    hide CommandsIn;
  }

  lemma CoreAfterKeeps(p: Platform, cl: Client, m: Moment)
    requires Sober(cl.core)
    ensures var d := CoreAfter(p, cl, m);
            Sober(d) && CommandsIn(d.mail.out) == CommandsIn(cl.core.mail.out) + Handed(cl.core, d)
  {
    hide Sober, Handed, CommandsIn, CoreEvent, Step;
    if CoreEvent(cl, m.what).Some? { StepGrows(p, cl.core, Timed(CoreEvent(cl, m.what).value, m.now)); }
    HandedOver(cl.core, CoreAfter(p, cl, m));
  }

  lemma ReconnectHands(p: Platform, c: Core, now: Msecs)
    ensures var d := Step(p, c, Timed(Reconnected, now));
            Handed(c, d) == if Registration(c.me).Some? then [Registration(c.me).value] else []
  {
    if Registration(c.me).Some? { CommandsInAppend(c.mail.out, ToServer(Registration(c.me).value, Unowned)); }
    hide CommandsIn;
  }

  lemma LossHands(p: Platform, cl: Client, m: Moment)
    requires m.what.Missing?
    ensures Handed(cl.core, CoreAfter(p, cl, m)) == []
    ensures CommandsIn(cl.core.mail.out) + [] == CommandsIn(cl.core.mail.out)
  {
    hide CommandsIn, StoreTags, Asked;
  }

  lemma AfterInStep(p: Platform, cl: Client, m: Moment)
    requires InStep(cl)
    ensures InStep(After(p, cl, m))
  {
    hide Sober, Handed, CommandsIn, Step, B.Conserved, B.RemembersLast, B.Step, B.Ensured, Submitting, CameUp,
      CoreAfter, Parsed;
    var d := CoreAfter(p, cl, m);
    CoreAfterKeeps(p, cl, m);
    match m.what
    case Inside(e) =>
      B.StepConserves(cl.boot, B.Ensure);
      B.StepRemembers(cl.boot, B.Ensure);
      TransportSubmits(cl.boot, B.Ensure);
      EnsureStep(cl.boot);
      SubmittingKeeps(if Wakes(cl.core, e) then B.Ensured(cl.boot) else cl.boot, Handed(cl.core, d), m.now);
    case Transport(e) =>
      B.StepConserves(cl.boot, e);
      B.StepRemembers(cl.boot, e);
      NothingHanded(p, cl, m);
      if !e.Submit? && !e.TcpUp? && !e.WsUp? { TransportSubmits(cl.boot, e); }
    case Up(via) => UpInStep(p, cl, via, m);
    case Missing(_) => LossHands(p, cl, m);
    case Line(_, _) =>
      var heard := B.Response(m.now);
      B.StepConserves(cl.boot, heard);
      B.StepRemembers(cl.boot, heard);
      TransportSubmits(cl.boot, heard);
      SubmittingKeeps(B.Step(cl.boot, heard), Handed(cl.core, d), m.now);
  }

  lemma EnsureStep(b: B.Boot)
    ensures B.Step(b, B.Ensure) == B.Ensured(b)
  {
  }

  lemma NothingHanded(p: Platform, cl: Client, m: Moment)
    requires CoreEvent(cl, m.what).None?
    ensures CoreAfter(p, cl, m) == cl.core && Handed(cl.core, cl.core) == []
    ensures CommandsIn(cl.core.mail.out) + [] == CommandsIn(cl.core.mail.out)
  {
    hide CommandsIn;
  }

  lemma UpInStep(p: Platform, cl: Client, via: B.Via, m: Moment)
    requires InStep(cl) && m.what == Up(via)
    ensures InStep(After(p, cl, m))
  {
    hide Sober, Handed, CommandsIn, Step, B.Conserved, B.RemembersLast, B.Step;
    var reply := Registration(cl.core.me);
    CoreAfterKeeps(p, cl, m);
    ConnectSubmits(cl.boot, via, m.now, reply);
    B.StepConserves(cl.boot, if via.Tcp? then B.TcpUp(m.now, reply) else B.WsUp(m.now, reply));
    B.StepRemembers(cl.boot, if via.Tcp? then B.TcpUp(m.now, reply) else B.WsUp(m.now, reply));
    if Awaited(cl.boot, via) && !cl.boot.firstConnect {
      ReconnectHands(p, cl.core, m.now);
    } else {
      NothingHanded(p, cl, m);
    }
  }

  /** Over every run of both together they stay in step. */
  lemma {:induction false} RunInStep(p: Platform, cl: Client, moments: seq<Moment>)
    requires InStep(cl)
    ensures InStep(AfterAll(p, cl, moments))
  {
    hide InStep, After;
    if moments != [] {
      RunInStep(p, cl, moments[..|moments| - 1]);
      AfterInStep(p, AfterAll(p, cl, moments[..|moments| - 1]), moments[|moments| - 1]);
    }
  }

  lemma LoggedInStep(me: Me)
    ensures InStep(LoggedIn(me))
  {
    assert Arrivals([]) == {};
  }

  /**
   * From login on, over every run: what the core handed over to the server is what went out on either
   * transport, once each and in order, followed by what still waits in the queue.
   */
  lemma EverythingIsSentOnce(p: Platform, me: Me, moments: seq<Moment>)
    ensures var cl := AfterAll(p, LoggedIn(me), moments);
            CommandsIn(cl.core.mail.out) == B.Commands(cl.boot.sent) + cl.boot.queue
  {
    hide AfterAll, Sober, LoggedIn, B.RemembersLast, B.Commands;
    LoggedInStep(me);
    RunInStep(p, LoggedIn(me), moments);
  }

  // ── lookups ────────────────────────────────────────────────────────────────

  /** A FOUND or NOT_FOUND line is reported under the nickname asked about last. */
  lemma LineReportsLast(cl: Client, line: QString, local: bool)
    requires InStep(cl) && Asked(cl.core) != []
    ensures var s, e := Parsed(cl.boot, line), CoreEvent(cl, Line(line, local));
            var last := Asked(cl.core)[|Asked(cl.core)| - 1];
            && (s.Some? && (s.value.UserFound? || s.value.UserNotFound?) ==> s.value.nick == last)
            && (e.Some? && e.value.LookupReply? ==> e.value.nick == last)
  {
    hide ParseResponse, CommandsIn, Finds, B.Conserved, Sober;
    ReportsUnder(cl.boot, line);
  }

  lemma ReportsUnder(b: B.Boot, line: QString)
    ensures var s := Parsed(b, line);
            s.Some? && (s.value.UserFound? || s.value.UserNotFound?) ==> s.value.nick == b.pendingFind
  {
    B.ReportsPending(0, b, line);
  }

  /** The line of a found peer. */
  function FoundLine(host: QString, port: QString, key: bytes): QString {
    var prefix: QString, hex: QString := Prefix(7), ToHex(key);
    prefix + Joined<unit>(host, BAR, Joined<unit>(port, BAR, hex))
  }

  /** Whoever the key belongs to, the core takes it for the key of the nickname asked about last. */
  lemma FoundLineReports(p: Platform, cl: Client, host: QString, port: QString, key: bytes, local: bool, now: Msecs)
    requires InStep(cl) && Asked(cl.core) != [] && BAR !in host && BAR !in port
    ensures After(p, cl, Moment(Line(FoundLine(host, port, key), local), now)).core
         == Step(p, cl.core, Timed(LookupReply(Asked(cl.core)[|Asked(cl.core)| - 1], key), now))
  {
    hide ParseResponse, CommandsIn, Finds, B.Conserved, Sober, Step, FoundLine, Submitting, Handed, B.Step;
    FoundLineParses(cl.boot, host, port, key);
  }

  lemma FoundLineParses(b: B.Boot, host: QString, port: QString, key: bytes)
    requires BAR !in host && BAR !in port
    ensures Parsed(b, FoundLine(host, port, key)) == Some(UserFound(b.pendingFind, host, port, key))
  {
    hide ParseResponse, Joined, ToHex, Prefix;
    ParseFound(host, port, key, b.pendingAuth, b.pendingFind);
  }
}
