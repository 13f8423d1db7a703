/**
 The request/reply driver of session/tab-control.mjs against the native runtime, over two pipes that carry real lines.
 Commands and replies may be lost or late, requests may time out, and the runtime may talk nonsense or exit.
 */
module TabDriver {
  import opened Wrappers
  import opened TabUrls
  import opened TabWire
  import opened TabRuntime

  datatype Outcome = Resolved | RefusedByRuntime | TimedOut | WriteFailed | Unavailable

  datatype Readiness = Waiting | IsReady | NotReady

  /** The driver object. `outcomes` records how each promise was settled. */
  datatype Driver = Driver(
    nextRequest: nat,
    pending: map<string, Command>,
    outcomes: map<string, Outcome>,
    ready: Readiness,
    exited: bool)

  predicate ReadyChar(c: char) {
    IsDigit(c) || 'a' <= c <= 'f' || c == '-'
  }

  /** READY and 36 characters of the alphabet of ids. */
  predicate ReadyLine(line: string) {
    |line| == 42 && line[..6] == "READY " && forall i :: 6 <= i < 42 ==> ReadyChar(line[i])
  }

  function Reject(readiness: Readiness): Readiness {
    if readiness == Waiting then NotReady else readiness
  }

  /** Everything outstanding is rejected. */
  function Fail(d: Driver): Driver {
    d.(outcomes := d.outcomes + map r | r in d.pending :: Unavailable, pending := map[], ready := Reject(d.ready))
  }

  function Settle(d: Driver, request: string, outcome: Outcome): Driver {
    if request in d.pending
    then d.(pending := d.pending - {request}, outcomes := d.outcomes[request := outcome])
    else d
  }

  function Hear(d: Driver, line: string, expected: string): Driver {
    if ReadyLine(line) then
      d.(ready := if d.ready != Waiting then d.ready else if line[6..] == expected then IsReady else NotReady)
    else
      match MatchReply(line)
      case None => Fail(d)
      case Some(reply) => Settle(d, reply.request, if reply.ok then Resolved else RefusedByRuntime)
  }

  // ---------- the two processes and the pipes ----------

  datatype Line = CommandLine(request: string, text: string) | ShutdownLine

  const SHUTDOWN_TEXT := "SHUTDOWN 1\n"

  function TextOf(line: Line): string {
    if line.CommandLine? then line.text else SHUTDOWN_TEXT
  }

  /** What the runtime says: the answer to a command it executed, the answer to SHUTDOWN, or anything that is no reply. */
  datatype Said = Answers(text: string, execution: nat) | Farewell | Noise(text: string)

  function Spoken(said: Said): string {
    match said
    case Answers(text, _) => text
    case Farewell => OkLine("1")
    case Noise(text) => text
  }

  datatype Execution = Execution(request: string, command: Command, done: bool)

  /** `exposed` remembers that, when SHUTDOWN was sent, a command 1 was outstanding or still to come. */
  datatype Link = Link(
    driver: Driver,
    sent: map<string, Command>,
    toRuntime: seq<Line>,
    fromRuntime: seq<Said>,
    table: Table,
    running: bool,
    shutdown: bool,
    exposed: bool,
    executed: seq<Execution>)

  datatype Event =
    | Send(command: Command)
    | SendShutdown
    | Timeout(request: string)
    | WriteError(request: string)
    | CommandLost
    | RuntimeReads(media: Media)
    | Murmur(text: string)
    | ReplyLost
    | DriverReads(expected: string)
    | ChildError
    | Exits

  predicate Enabled(y: Link, e: Event) {
    match e
    case Send(command) => WellFormed(command) && 1 <= y.driver.nextRequest <= MAXIMUM_SAFE_INTEGER
    case CommandLost => y.toRuntime != []
    case RuntimeReads(media) => y.running && y.toRuntime != [] && Speakable(media)
    case Murmur(text) => MatchReply(text).None?
    case ReplyLost => y.fromRuntime != []
    case DriverReads(_) => y.fromRuntime != []
    case _ => true
  }

  /** A command is refused outright once the child has exited, and goes nowhere once the pipe is closed. */
  function DoSend(y: Link, command: Command): Link {
    if y.driver.exited then y
    else
      var request := Digits(y.driver.nextRequest);
      y.(driver := y.driver.(nextRequest := y.driver.nextRequest + 1, pending := y.driver.pending[request := command]),
         sent := y.sent[request := command],
         toRuntime := if y.shutdown then y.toRuntime
                      else y.toRuntime + [CommandLine(request, Print(command, y.driver.nextRequest))])
  }

  function DoRuntimeReads(lib: Library, y: Link, media: Media): Link
    requires y.toRuntime != []
  {
    var line := y.toRuntime[0];
    var h := HandleLine(lib, y.table, TextOf(line), media);
    var rest := y.(toRuntime := y.toRuntime[1..], table := h.table, running := y.running && !h.quits);
    match Parse(TextOf(line))
    case Run(request, command) =>
      rest.(executed := y.executed + [Execution(request, command, Execute(lib, y.table, command, media).Done?)],
            fromRuntime := y.fromRuntime + [Answers(h.reply.value, |y.executed|)])
    case _ => if h.reply.Some? then rest.(fromRuntime := y.fromRuntime + [Farewell]) else rest
  }

  /** What can be seen when SHUTDOWN is sent: the number it borrows is outstanding, or not used yet. */
  predicate Exposes(d: Driver) {
    d.nextRequest == 1 || "1" in d.pending
  }

  function Next(lib: Library, y: Link, e: Event): Link
    requires Enabled(y, e)
  {
    match e
    case Send(command) => DoSend(y, command)
    case SendShutdown =>
      if y.shutdown || y.driver.exited then y
      else y.(shutdown := true, exposed := Exposes(y.driver), toRuntime := y.toRuntime + [ShutdownLine])
    case Timeout(request) => y.(driver := Settle(y.driver, request, TimedOut))
    case WriteError(request) => y.(driver := Settle(y.driver, request, WriteFailed))
    case CommandLost => y.(toRuntime := y.toRuntime[1..])
    case RuntimeReads(media) => DoRuntimeReads(lib, y, media)
    case Murmur(text) => y.(fromRuntime := y.fromRuntime + [Noise(text)])
    case ReplyLost => y.(fromRuntime := y.fromRuntime[1..])
    case DriverReads(expected) =>
      y.(fromRuntime := y.fromRuntime[1..], driver := Hear(y.driver, Spoken(y.fromRuntime[0]), expected))
    case ChildError => y.(driver := Fail(y.driver))
    case Exits => y.(driver := Fail(y.driver).(exited := true), running := false)
  }

  // ---------- what holds in every run ----------

  ghost predicate Numbered(y: Link) {
    && 1 <= y.driver.nextRequest
    && forall r :: r in y.sent ==> NumberedBelow(r, y.driver.nextRequest)
  }

  ghost predicate NumberedBelow(r: string, next: nat) {
    exists m: nat :: 1 <= m < next && r == Digits(m)
  }

  /** Every command sent is outstanding or settled, never both. */
  ghost predicate Conserved(y: Link) {
    && y.sent.Keys == y.driver.pending.Keys + y.driver.outcomes.Keys
    && y.driver.pending.Keys !! y.driver.outcomes.Keys
    && (forall r :: r in y.driver.pending ==> y.driver.pending[r] == y.sent[r])
  }

  /** The runtime reads each line as the command that was sent under that number. */
  ghost predicate LineOk(y: Link, line: Line) {
    line.CommandLine? ==> line.request in y.sent && Parse(line.text) == Run(line.request, y.sent[line.request])
  }

  ghost predicate SaidOk(y: Link, said: Said) {
    match said
    case Answers(text, i) =>
      i < |y.executed| && MatchReply(text).Some? && MatchReply(text).value.ok == y.executed[i].done
      && MatchReply(text).value.request == y.executed[i].request && !ReadyLine(text)
    case Farewell => y.shutdown
    case Noise(text) => MatchReply(text).None?
  }

  ghost predicate WiresOk(y: Link) {
    && (forall i :: 0 <= i < |y.toRuntime| ==> LineOk(y, y.toRuntime[i]) && (y.toRuntime[i].ShutdownLine? ==> y.shutdown))
    && (forall i :: 0 <= i < |y.fromRuntime| ==> SaidOk(y, y.fromRuntime[i]))
    && (forall i :: 0 <= i < |y.executed| ==>
          y.executed[i].request in y.sent && y.sent[y.executed[i].request] == y.executed[i].command)
  }

  /** No command is executed twice. */
  ghost predicate AtMostOnce(y: Link) {
    && (forall i, j :: 0 <= i < j < |y.executed| ==> y.executed[i].request != y.executed[j].request)
    && (forall i, j :: 0 <= i < j < |y.toRuntime| && y.toRuntime[i].CommandLine? && y.toRuntime[j].CommandLine? ==>
          y.toRuntime[i].request != y.toRuntime[j].request)
    && (forall i, j :: 0 <= i < |y.executed| && 0 <= j < |y.toRuntime| && y.toRuntime[j].CommandLine? ==>
          y.executed[i].request != y.toRuntime[j].request)
  }

  ghost predicate ExecutedAs(y: Link, request: string, done: bool) {
    request in y.sent && exists i :: 0 <= i < |y.executed| && y.executed[i] == Execution(request, y.sent[request], done)
  }

  /** A request is resolved only by its own execution, but for number 1 after a shutdown that exposed it. */
  ghost predicate Justified(y: Link) {
    forall r :: r in y.driver.outcomes && r in y.sent ==>
      && (y.driver.outcomes[r] == Resolved ==> ExecutedAs(y, r, true) || (r == "1" && y.exposed))
      && (y.driver.outcomes[r] == RefusedByRuntime ==> ExecutedAs(y, r, false))
  }

  /** After a shutdown that exposed nothing, number 1 is used up and settled, and stays so. */
  predicate Shielded(y: Link) {
    && (y.exposed ==> y.shutdown)
    && (y.shutdown && !y.exposed ==> !Exposes(y.driver))
  }

  ghost predicate LinkOk(y: Link) {
    Numbered(y) && Conserved(y) && WiresOk(y) && AtMostOnce(y) && Justified(y) && Shielded(y)
  }

  // ---------- each event ----------

  /** Steps of the driver's own: nothing is sent, read or executed. */
  lemma DriverOnly(y: Link, t: Link)
    requires LinkOk(y) && t == y.(driver := t.driver) && t.driver.nextRequest == y.driver.nextRequest
    requires t.driver.pending.Keys <= y.driver.pending.Keys
    requires Conserved(t) && Justified(t)
    ensures LinkOk(t)
  {
    hide LineOk, SaidOk, ExecutedAs;
    forall i | 0 <= i < |t.toRuntime| ensures LineOk(t, t.toRuntime[i]) { assert LineOk(y, y.toRuntime[i]); LineFrame(y, t, y.toRuntime[i]); }
    forall i | 0 <= i < |t.fromRuntime| ensures SaidOk(t, t.fromRuntime[i]) { assert SaidOk(y, y.fromRuntime[i]); SaidFrame(y, t, y.fromRuntime[i]); }
  }

  lemma LineFrame(y: Link, t: Link, line: Line)
    requires LineOk(y, line) && forall r :: r in y.sent ==> r in t.sent && t.sent[r] == y.sent[r]
    ensures LineOk(t, line)
  {
    hide Parse;
  }

  lemma SaidFrame(y: Link, t: Link, said: Said)
    requires SaidOk(y, said) && y.executed <= t.executed && (y.shutdown ==> t.shutdown)
    ensures SaidOk(t, said)
  {
    hide MatchReply, ReadyLine;
  }

  lemma ExecutedFrame(y: Link, t: Link, r: string, done: bool)
    requires r in y.sent && r in t.sent && t.sent[r] == y.sent[r] && y.executed <= t.executed
    requires ExecutedAs(y, r, done)
    ensures ExecutedAs(t, r, done)
  {
    var i :| 0 <= i < |y.executed| && y.executed[i] == Execution(r, y.sent[r], done);
    assert t.executed[i] == y.executed[i];
  }

  lemma FailKeeps(y: Link, t: Link)
    requires LinkOk(y) && t == y.(driver := Fail(y.driver))
    ensures LinkOk(t) && t.driver.pending == map[]
    ensures forall r :: r in y.driver.pending ==> r in t.driver.outcomes && t.driver.outcomes[r] == Unavailable
  {
    hide LineOk, SaidOk, WiresOk, AtMostOnce, Numbered;
    assert t.driver.outcomes.Keys == y.driver.outcomes.Keys + y.driver.pending.Keys;
    forall r | r in t.driver.outcomes && r !in y.driver.pending ensures t.driver.outcomes[r] == y.driver.outcomes[r] {
    }
    JustifiedFrame(y, t);
    DriverOnly(y, t);
  }

  /** Only outcomes that claim nothing of the runtime are added. */
  lemma JustifiedFrame(y: Link, t: Link)
    requires Justified(y) && Conserved(y) && t.sent == y.sent && t.executed == y.executed && (y.exposed ==> t.exposed)
    requires forall r :: r in t.driver.outcomes && (r !in y.driver.outcomes || t.driver.outcomes[r] != y.driver.outcomes[r]) ==>
               t.driver.outcomes[r] != Resolved && t.driver.outcomes[r] != RefusedByRuntime
    ensures Justified(t)
  {
    hide ExecutedAs;
    forall r | r in t.driver.outcomes && r in t.sent
      ensures t.driver.outcomes[r] == Resolved ==> ExecutedAs(t, r, true) || (r == "1" && t.exposed)
      ensures t.driver.outcomes[r] == RefusedByRuntime ==> ExecutedAs(t, r, false)
    {
      if t.driver.outcomes[r] == Resolved && r != "1" {
        assert ExecutedAs(y, r, true);
        ExecutedFrame(y, t, r, true);
      } else if t.driver.outcomes[r] == Resolved {
        if !y.exposed { assert ExecutedAs(y, r, true); ExecutedFrame(y, t, r, true); }
      } else if t.driver.outcomes[r] == RefusedByRuntime {
        assert ExecutedAs(y, r, false);
        ExecutedFrame(y, t, r, false);
      }
    }
  }

  lemma SettleKeeps(y: Link, t: Link, request: string, outcome: Outcome)
    requires LinkOk(y) && t == y.(driver := Settle(y.driver, request, outcome))
    requires request in y.driver.pending && outcome == Resolved ==> ExecutedAs(y, request, true) || (request == "1" && y.exposed)
    requires request in y.driver.pending && outcome == RefusedByRuntime ==> ExecutedAs(y, request, false)
    ensures LinkOk(t)
  {
    hide LineOk, SaidOk, WiresOk, AtMostOnce, Numbered;
    if request in y.driver.pending {
      SettledJustified(y, t, request, outcome);
      DriverOnly(y, t);
    }
  }

  lemma SettledJustified(y: Link, t: Link, request: string, outcome: Outcome)
    requires LinkOk(y) && t == y.(driver := Settle(y.driver, request, outcome)) && request in y.driver.pending
    requires outcome == Resolved ==> ExecutedAs(y, request, true) || (request == "1" && y.exposed)
    requires outcome == RefusedByRuntime ==> ExecutedAs(y, request, false)
    ensures Justified(t)
  {
    hide LineOk, SaidOk, WiresOk, AtMostOnce, Numbered, ExecutedAs;
    forall r | r in t.driver.outcomes && r in t.sent
      ensures t.driver.outcomes[r] == Resolved ==> ExecutedAs(t, r, true) || (r == "1" && t.exposed)
      ensures t.driver.outcomes[r] == RefusedByRuntime ==> ExecutedAs(t, r, false)
    {
      if ExecutedAs(y, r, true) { ExecutedFrame(y, t, r, true); }
      if ExecutedAs(y, r, false) { ExecutedFrame(y, t, r, false); }
    }
  }

  lemma SendKeeps(y: Link, command: Command, t: Link)
    requires LinkOk(y) && Enabled(y, Send(command)) && t == DoSend(y, command)
    ensures LinkOk(t)
  {
    if !y.driver.exited {
      var request := Digits(y.driver.nextRequest);
      FreshNumber(y);
      SafeRequestFits(y.driver.nextRequest);
      RequestFits(y.driver.nextRequest);
      CommandRoundTrip(command, y.driver.nextRequest);
      hide Parse, Print, Digits, WellFormed, ValidRequest;
      SentKeeps(y, command, t, request, Print(command, y.driver.nextRequest));
    }
  }

  lemma OneIsFirst(n: nat)
    ensures Digits(n) == "1" <==> n == 1
  {
    assert Digits(1) == "1";
    if Digits(n) == "1" { DigitsInjective(n, 1); }
  }

  lemma SentShielded(y: Link, t: Link, request: string)
    requires Shielded(y) && request == Digits(y.driver.nextRequest) && t.shutdown == y.shutdown && t.exposed == y.exposed
    requires t.driver.pending.Keys == y.driver.pending.Keys + {request} && t.driver.nextRequest == y.driver.nextRequest + 1
    requires 1 <= y.driver.nextRequest
    ensures Shielded(t)
  {
    OneIsFirst(y.driver.nextRequest);
    hide Digits;
  }

  lemma SentConserved(y: Link, t: Link, request: string)
    requires Conserved(y) && request !in y.sent && request in t.sent && t.sent == y.sent[request := t.sent[request]]
    requires t.driver.pending == y.driver.pending[request := t.sent[request]] && t.driver.outcomes == y.driver.outcomes
    ensures Conserved(t)
  {
  }

  lemma SentKeeps(y: Link, command: Command, t: Link, request: string, text: string)
    requires LinkOk(y) && request !in y.sent && request == Digits(y.driver.nextRequest)
    requires Parse(text) == Run(request, command)
    requires t == y.(driver := y.driver.(nextRequest := y.driver.nextRequest + 1, pending := y.driver.pending[request := command]),
                     sent := y.sent[request := command],
                     toRuntime := if y.shutdown then y.toRuntime else y.toRuntime + [CommandLine(request, text)])
    ensures LinkOk(t)
  {
    SentShielded(y, t, request);
    SentConserved(y, t, request);
    hide Shielded, Conserved, Parse, Digits, Numbered, WiresOk, AtMostOnce, Justified;
    SentNumbered(y, t, request);
    SentJustified(y, t, request);
    SentWires(y, t, request, command);
    SentOnce(y, t, request);
  }

  lemma SentNumbered(y: Link, t: Link, request: string)
    requires Numbered(y) && request == Digits(y.driver.nextRequest) && t.sent.Keys == y.sent.Keys + {request}
    requires t.driver.nextRequest == y.driver.nextRequest + 1
    ensures Numbered(t)
  {
    hide Digits;
    forall r | r in t.sent ensures NumberedBelow(r, t.driver.nextRequest) {
      if r in y.sent {
        var m: nat :| 1 <= m < y.driver.nextRequest && r == Digits(m);
        assert 1 <= m < t.driver.nextRequest && r == Digits(m);
      } else {
        assert 1 <= y.driver.nextRequest < t.driver.nextRequest && r == Digits(y.driver.nextRequest);
      }
    }
  }

  lemma FreshNumber(y: Link)
    requires Numbered(y)
    ensures Digits(y.driver.nextRequest) !in y.sent
  {
    hide Digits;
    if Digits(y.driver.nextRequest) in y.sent {
      assert NumberedBelow(Digits(y.driver.nextRequest), y.driver.nextRequest);
      var m: nat :| 1 <= m < y.driver.nextRequest && Digits(y.driver.nextRequest) == Digits(m);
      DigitsInjective(y.driver.nextRequest, m);
    }
  }

  lemma SentJustified(y: Link, t: Link, request: string)
    requires LinkOk(y) && request !in y.sent && t.driver.outcomes == y.driver.outcomes && t.executed == y.executed
    requires request in t.sent && t.sent == y.sent[request := t.sent[request]] && t.exposed == y.exposed
    ensures Justified(t)
  {
    hide LineOk, SaidOk, WiresOk, AtMostOnce, Numbered, ExecutedAs;
    forall r | r in t.driver.outcomes && r in t.sent
      ensures t.driver.outcomes[r] == Resolved ==> ExecutedAs(t, r, true) || (r == "1" && t.exposed)
      ensures t.driver.outcomes[r] == RefusedByRuntime ==> ExecutedAs(t, r, false)
    {
      assert r in y.sent;
      if ExecutedAs(y, r, true) { ExecutedFrame(y, t, r, true); }
      if ExecutedAs(y, r, false) { ExecutedFrame(y, t, r, false); }
    }
  }

  lemma SentWires(y: Link, t: Link, request: string, command: Command)
    requires WiresOk(y) && request !in y.sent && t.sent == y.sent[request := command]
    requires t.fromRuntime == y.fromRuntime && t.executed == y.executed && t.shutdown == y.shutdown
    requires t.toRuntime == y.toRuntime || (t.toRuntime != [] && t.toRuntime[..|t.toRuntime| - 1] == y.toRuntime
             && LineOk(t, t.toRuntime[|t.toRuntime| - 1]) && t.toRuntime[|t.toRuntime| - 1].CommandLine?)
    ensures WiresOk(t)
  {
    hide LineOk, SaidOk;
    forall i | 0 <= i < |t.toRuntime| ensures LineOk(t, t.toRuntime[i]) && (t.toRuntime[i].ShutdownLine? ==> t.shutdown) {
      if i < |y.toRuntime| {
        assert t.toRuntime[i] == y.toRuntime[i];
        LineFrame(y, t, y.toRuntime[i]);
      }
    }
    forall i | 0 <= i < |t.fromRuntime| ensures SaidOk(t, t.fromRuntime[i]) { SaidFrame(y, t, y.fromRuntime[i]); }
  }

  lemma SentOnce(y: Link, t: Link, request: string)
    requires WiresOk(y) && AtMostOnce(y) && request !in y.sent && t.executed == y.executed
    requires t.toRuntime == y.toRuntime || (exists text :: t.toRuntime == y.toRuntime + [CommandLine(request, text)])
    ensures AtMostOnce(t)
  {
    hide SaidOk;
    forall i | 0 <= i < |y.toRuntime| && y.toRuntime[i].CommandLine? ensures y.toRuntime[i].request != request {
      assert LineOk(y, y.toRuntime[i]);
    }
  }

  lemma TakenWires(y: Link, t: Link)
    requires WiresOk(y) && AtMostOnce(y) && t.sent == y.sent && t.executed == y.executed && t.shutdown == y.shutdown
    requires t.toRuntime == y.toRuntime || (y.toRuntime != [] && t.toRuntime == y.toRuntime[1..])
    requires t.fromRuntime == y.fromRuntime || (y.fromRuntime != [] && t.fromRuntime == y.fromRuntime[1..])
    ensures WiresOk(t) && AtMostOnce(t)
  {
    hide LineOk, SaidOk;
    forall i | 0 <= i < |t.toRuntime| ensures LineOk(t, t.toRuntime[i]) && (t.toRuntime[i].ShutdownLine? ==> t.shutdown) {
      var j := if t.toRuntime == y.toRuntime then i else i + 1;
      assert t.toRuntime[i] == y.toRuntime[j];
      LineFrame(y, t, y.toRuntime[j]);
    }
    forall i | 0 <= i < |t.fromRuntime| ensures SaidOk(t, t.fromRuntime[i]) {
      var j := if t.fromRuntime == y.fromRuntime then i else i + 1;
      assert t.fromRuntime[i] == y.fromRuntime[j];
      SaidFrame(y, t, y.fromRuntime[j]);
    }
  }

  lemma LostKeeps(y: Link, t: Link)
    requires LinkOk(y)
    requires (y.toRuntime != [] && t == y.(toRuntime := y.toRuntime[1..])) || (y.fromRuntime != [] && t == y.(fromRuntime := y.fromRuntime[1..]))
    ensures LinkOk(t)
  {
    TakenWires(y, t);
    hide LineOk, SaidOk, WiresOk, AtMostOnce;
    JustifiedFrame(y, t);
  }

  lemma ReplyIsNotReady(line: string)
    requires MatchReply(line).Some?
    ensures !ReadyLine(line)
  {
    ReplyRoundTrip(line, MatchReply(line).value);
    hide MatchReply, ValidReply;
    assert line[0] == 'O' || line[0] == 'E';
    if ReadyLine(line) {
      ReadyStarts(line);
    }
  }

  lemma ReadyStarts(line: string)
    requires ReadyLine(line)
    ensures line[0] == 'R'
  {
    assert line[..6][0] == 'R';
  }

  lemma ShutdownParses()
    ensures Parse(SHUTDOWN_TEXT) == Shutdown("1")
  {
    var fields := ["SHUTDOWN", "1"];
    assert Join(fields) + "\n" == SHUTDOWN_TEXT;
    assert Token("SHUTDOWN") && Token("1");
    StripOfLine(fields);
    hide Strip, Words, Join;
  }

  lemma ReadsKeeps(lib: Library, y: Link, media: Media, t: Link)
    requires LinkOk(y) && Enabled(y, RuntimeReads(media)) && t == DoRuntimeReads(lib, y, media)
    ensures LinkOk(t)
  {
    var line := y.toRuntime[0];
    assert LineOk(y, line);
    if line.ShutdownLine? {
      ShutdownParses();
      ReadShutdown(lib, y, media, t);
    } else {
      ReadCommand(lib, y, media, t);
    }
  }

  lemma ReadShutdown(lib: Library, y: Link, media: Media, t: Link)
    requires LinkOk(y) && y.toRuntime != [] && t == DoRuntimeReads(lib, y, media)
    requires y.toRuntime[0].ShutdownLine? && Parse(SHUTDOWN_TEXT) == Shutdown("1")
    ensures LinkOk(t)
  {
    hide Parse, ExecutedAs, LineOk, MatchReply, ReadyLine;
    var u := y.(toRuntime := y.toRuntime[1..]);
    TakenWires(y, u);
    SaidMore(u, t, Farewell);
    hide WiresOk, AtMostOnce;
    JustifiedFrame(y, t);
  }

  lemma SaidMore(u: Link, t: Link, said: Said)
    requires WiresOk(u) && AtMostOnce(u) && t.sent == u.sent && t.executed == u.executed && t.shutdown == u.shutdown
    requires t.toRuntime == u.toRuntime && t.fromRuntime == u.fromRuntime + [said] && SaidOk(u, said)
    ensures WiresOk(t) && AtMostOnce(t)
  {
    hide LineOk, SaidOk;
    forall i | 0 <= i < |t.toRuntime| ensures LineOk(t, t.toRuntime[i]) { LineFrame(u, t, u.toRuntime[i]); }
    forall i | 0 <= i < |t.fromRuntime| ensures SaidOk(t, t.fromRuntime[i]) { SaidFrame(u, t, t.fromRuntime[i]); }
  }

  /** Reading a command line executes it once and says its verdict under its number. */
  lemma ReadShape(lib: Library, y: Link, media: Media, t: Link) returns (done: bool, text: string)
    requires y.toRuntime != [] && y.toRuntime[0].CommandLine? && LineOk(y, y.toRuntime[0]) && Speakable(media)
    requires t == DoRuntimeReads(lib, y, media)
    ensures var request := y.toRuntime[0].request;
      && t == y.(toRuntime := y.toRuntime[1..], table := t.table, running := t.running,
                 executed := y.executed + [Execution(request, y.sent[request], done)],
                 fromRuntime := y.fromRuntime + [Answers(text, |y.executed|)])
      && MatchReply(text).Some? && MatchReply(text).value.ok == done && MatchReply(text).value.request == request
  {
    var line := y.toRuntime[0];
    assert Parse(line.text) == Run(line.request, y.sent[line.request]);
    ReplyIsAccepted(lib, y.table, line.text, media);
    hide Parse, MatchReply, Execute, Speakable;
    done := Execute(lib, y.table, y.sent[line.request], media).Done?;
    text := HandleLine(lib, y.table, line.text, media).reply.value;
  }

  lemma ReadCommand(lib: Library, y: Link, media: Media, t: Link)
    requires LinkOk(y) && Enabled(y, RuntimeReads(media)) && t == DoRuntimeReads(lib, y, media)
    requires y.toRuntime[0].CommandLine?
    ensures LinkOk(t)
  {
    hide Parse, ExecutedAs, MatchReply, ReadyLine, Speakable, DoRuntimeReads, SaidOk;
    var line := y.toRuntime[0];
    assert LineOk(y, line);
    var done, text := ReadShape(lib, y, media, t);
    ReplyIsNotReady(text);
    var u := y.(toRuntime := y.toRuntime[1..]);
    TakenWires(y, u);
    Apart(y);
    assert SaidOk(t, Answers(text, |y.executed|)) by { AnswerOk(t, text, |y.executed|); }
    ReadWires(u, t, line.request);
    hide WiresOk, AtMostOnce, LineOk;
    ReadJustified(y, t);
  }

  lemma AnswerOk(t: Link, text: string, i: nat)
    requires i < |t.executed| && MatchReply(text).Some? && MatchReply(text).value.ok == t.executed[i].done
    requires MatchReply(text).value.request == t.executed[i].request && !ReadyLine(text)
    ensures SaidOk(t, Answers(text, i))
  {
  }

  /** The request at the head of the pipe is nowhere else. */
  lemma Apart(y: Link)
    requires AtMostOnce(y) && y.toRuntime != [] && y.toRuntime[0].CommandLine?
    ensures forall j :: 0 <= j < |y.toRuntime[1..]| && y.toRuntime[1..][j].CommandLine? ==>
              y.toRuntime[1..][j].request != y.toRuntime[0].request
    ensures forall i :: 0 <= i < |y.executed| ==> y.executed[i].request != y.toRuntime[0].request
  {
  }

  lemma ReadWires(u: Link, t: Link, request: string)
    requires WiresOk(u) && AtMostOnce(u) && t.sent == u.sent && t.shutdown == u.shutdown && t.toRuntime == u.toRuntime
    requires request in u.sent && |t.executed| > 0 && t.executed[..|t.executed| - 1] == u.executed
    requires t.executed[|t.executed| - 1].request == request && t.executed[|t.executed| - 1].command == u.sent[request]
    requires |t.fromRuntime| > 0 && t.fromRuntime[..|t.fromRuntime| - 1] == u.fromRuntime && SaidOk(t, t.fromRuntime[|t.fromRuntime| - 1])
    requires forall j :: 0 <= j < |u.toRuntime| && u.toRuntime[j].CommandLine? ==> u.toRuntime[j].request != request
    requires forall i :: 0 <= i < |u.executed| ==> u.executed[i].request != request
    ensures WiresOk(t) && AtMostOnce(t)
  {
    hide LineOk, SaidOk;
    forall i | 0 <= i < |t.executed| ensures i < |u.executed| ==> t.executed[i] == u.executed[i] {
    }
    forall i | 0 <= i < |t.toRuntime| ensures LineOk(t, t.toRuntime[i]) { LineFrame(u, t, u.toRuntime[i]); }
    forall i | 0 <= i < |t.fromRuntime| ensures SaidOk(t, t.fromRuntime[i]) {
      if i < |u.fromRuntime| {
        assert t.fromRuntime[i] == u.fromRuntime[i];
        SaidFrame(u, t, t.fromRuntime[i]);
      }
    }
  }

  lemma ReadJustified(y: Link, t: Link)
    requires Justified(y) && Conserved(y) && t.sent == y.sent && y.executed <= t.executed && t.driver == y.driver && t.exposed == y.exposed
    ensures Justified(t) && Conserved(t)
  {
    hide ExecutedAs;
    forall r | r in t.driver.outcomes && r in t.sent
      ensures t.driver.outcomes[r] == Resolved ==> ExecutedAs(t, r, true) || (r == "1" && t.exposed)
      ensures t.driver.outcomes[r] == RefusedByRuntime ==> ExecutedAs(t, r, false)
    {
      if ExecutedAs(y, r, true) { ExecutedFrame(y, t, r, true); }
      if ExecutedAs(y, r, false) { ExecutedFrame(y, t, r, false); }
    }
  }

  lemma DriverReadsKeeps(y: Link, expected: string, t: Link)
    requires LinkOk(y) && y.fromRuntime != []
    requires t == y.(fromRuntime := y.fromRuntime[1..], driver := Hear(y.driver, Spoken(y.fromRuntime[0]), expected))
    ensures LinkOk(t)
  {
    var said := y.fromRuntime[0];
    assert SaidOk(y, said);
    var u := y.(fromRuntime := y.fromRuntime[1..]);
    LostKeeps(y, u);
    HeardKeeps(y, u, said, expected, t);
  }

  lemma HeardKeeps(y: Link, u: Link, said: Said, expected: string, t: Link)
    requires LinkOk(u) && SaidOk(u, said) && t == u.(driver := Hear(u.driver, Spoken(said), expected))
    ensures LinkOk(t)
  {
    var line := Spoken(said);
    if ReadyLine(line) {
      hide ReadyLine, MatchReply;
      DriverOnlyReady(u, t);
    } else if MatchReply(line).None? {
      hide ReadyLine, MatchReply, LinkOk, SaidOk;
      FailKeeps(u, t);
    } else {
      var reply := MatchReply(line).value;
      SaidMeans(u, said);
      hide ReadyLine, MatchReply, SaidOk;
      SettleKeeps(u, t, reply.request, if reply.ok then Resolved else RefusedByRuntime);
    }
  }

  lemma DriverOnlyReady(u: Link, t: Link)
    requires LinkOk(u) && t == u.(driver := u.driver.(ready := t.driver.ready))
    ensures LinkOk(t)
  {
    hide WiresOk, AtMostOnce;
    JustifiedFrame(u, t);
    DriverOnly(u, t);
  }

  /** A reply on the wire is the verdict of an execution of that very request, or the answer to SHUTDOWN. */
  lemma SaidMeans(u: Link, said: Said)
    requires LinkOk(u) && SaidOk(u, said) && MatchReply(Spoken(said)).Some?
    ensures var reply := MatchReply(Spoken(said)).value;
      && (reply.ok ==> ExecutedAs(u, reply.request, true) || (reply.request == "1" && u.shutdown))
      && (!reply.ok ==> ExecutedAs(u, reply.request, false))
  {
    hide Conserved, AtMostOnce, Justified, Numbered, LineOk;
    if said.Answers? {
      hide MatchReply;
      var x := u.executed[said.execution];
      assert x == Execution(x.request, u.sent[x.request], x.done);
      assert ExecutedAs(u, x.request, x.done);
    } else {
      assert ValidRequest("1");
      OkAccepted("1");
    }
  }

  lemma ShutdownKeeps(y: Link, t: Link)
    requires LinkOk(y) && !y.shutdown && t == y.(shutdown := true, exposed := Exposes(y.driver), toRuntime := y.toRuntime + [ShutdownLine])
    ensures LinkOk(t)
  {
    hide LineOk, SaidOk;
    forall i | 0 <= i < |t.toRuntime| ensures LineOk(t, t.toRuntime[i]) && (t.toRuntime[i].ShutdownLine? ==> t.shutdown) {
      if i < |y.toRuntime| { LineFrame(y, t, y.toRuntime[i]); } else { assert LineOk(t, ShutdownLine) by { ShutdownLineOk(t); } }
    }
    forall i | 0 <= i < |t.fromRuntime| ensures SaidOk(t, t.fromRuntime[i]) { SaidFrame(y, t, y.fromRuntime[i]); }
    JustifiedFrame(y, t);
  }

  lemma ShutdownLineOk(t: Link)
    ensures LineOk(t, ShutdownLine)
  {
  }

  lemma MurmurKeeps(y: Link, text: string, t: Link)
    requires LinkOk(y) && MatchReply(text).None? && t == y.(fromRuntime := y.fromRuntime + [Noise(text)])
    ensures LinkOk(t)
  {
    hide MatchReply, ReadyLine;
    SaidMore(y, t, Noise(text));
    hide WiresOk, AtMostOnce;
    JustifiedFrame(y, t);
  }

  lemma LinkStep(lib: Library, y: Link, e: Event)
    requires LinkOk(y) && Enabled(y, e)
    ensures LinkOk(Next(lib, y, e))
  {
    hide LinkOk, DoSend, DoRuntimeReads, Hear, Settle, Fail, MatchReply;
    var t := Next(lib, y, e);
    match e
    case Send(command) => SendKeeps(y, command, t);
    case SendShutdown => if t != y { ShutdownKeeps(y, t); }
    case Timeout(request) => SettleKeeps(y, t, request, TimedOut);
    case WriteError(request) => SettleKeeps(y, t, request, WriteFailed);
    case CommandLost => LostKeeps(y, t);
    case RuntimeReads(media) => ReadsKeeps(lib, y, media, t);
    case Murmur(text) => MurmurKeeps(y, text, t);
    case ReplyLost => LostKeeps(y, t);
    case DriverReads(expected) => DriverReadsKeeps(y, expected, t);
    case ChildError => FailKeeps(y, t);
    case Exits =>
      var u := y.(driver := Fail(y.driver));
      FailKeeps(y, u);
      ExitKeeps(u, t);
  }

  lemma ExitKeeps(u: Link, t: Link)
    requires LinkOk(u) && t == u.(driver := u.driver.(exited := true), running := false)
    ensures LinkOk(t)
  {
    var v := u.(driver := u.driver.(exited := true));
    hide WiresOk, AtMostOnce;
    JustifiedFrame(u, v);
    DriverOnly(u, v);
    StopKeeps(v, t);
  }

  lemma StopKeeps(v: Link, t: Link)
    requires LinkOk(v) && t == v.(running := false)
    ensures LinkOk(t)
  {
    hide LineOk, SaidOk;
    forall i | 0 <= i < |t.toRuntime| ensures LineOk(t, t.toRuntime[i]) { LineFrame(v, t, v.toRuntime[i]); }
    forall i | 0 <= i < |t.fromRuntime| ensures SaidOk(t, t.fromRuntime[i]) { SaidFrame(v, t, t.fromRuntime[i]); }
    JustifiedFrame(v, t);
  }

  // ---------- whole runs ----------

  ghost predicate Legal(lib: Library, y: Link, es: seq<Event>)
    decreases |es|
  {
    es == [] || (Enabled(y, es[0]) && Legal(lib, Next(lib, y, es[0]), es[1..]))
  }

  ghost function Exec(lib: Library, y: Link, es: seq<Event>): Link
    requires Legal(lib, y, es)
    decreases |es|
  {
    if es == [] then y else Exec(lib, Next(lib, y, es[0]), es[1..])
  }

  function FreshDriver(): Driver {
    Driver(1, map[], map[], Waiting, false)
  }

  function FreshLink(table: Table): Link {
    Link(FreshDriver(), map[], [], [], table, true, false, false, [])
  }

  lemma {:induction false} LinkRun(lib: Library, y: Link, es: seq<Event>)
    requires LinkOk(y) && Legal(lib, y, es)
    ensures LinkOk(Exec(lib, y, es))
    decreases |es|
  {
    hide LinkOk, Next, Enabled;
    if es != [] {
      LinkStep(lib, y, es[0]);
      LinkRun(lib, Next(lib, y, es[0]), es[1..]);
    }
  }

  /**
   Reply matching. In every run, each command sent is outstanding or settled once; it resolves only if the runtime executed
   that very command successfully, and is refused only if the runtime executed it and failed; no command is executed twice.
   The one exception is number 1, and only after a SHUTDOWN that was sent while it was outstanding or not used yet.
   */
  lemma ReplyMatching(lib: Library, table: Table, es: seq<Event>, request: string)
    requires Legal(lib, FreshLink(table), es)
    requires request in Exec(lib, FreshLink(table), es).sent
    ensures var y := Exec(lib, FreshLink(table), es);
      && (request in y.driver.pending <==> request !in y.driver.outcomes)
      && (request in y.driver.outcomes && y.driver.outcomes[request] == Resolved && !(request == "1" && y.exposed) ==>
            ExecutedAs(y, request, true))
      && (request in y.driver.outcomes && y.driver.outcomes[request] == RefusedByRuntime ==> ExecutedAs(y, request, false))
      && (forall i, j :: 0 <= i < j < |y.executed| ==> y.executed[i].request != y.executed[j].request)
  {
    assert LinkOk(FreshLink(table));
    LinkRun(lib, FreshLink(table), es);
    hide Exec, Legal, ExecutedAs, WiresOk, Numbered;
  }

  /** Exit, a child error and malformed output each reject everything that is outstanding. */
  lemma NothingOutlivesFailure(lib: Library, y: Link, e: Event)
    requires LinkOk(y) && Enabled(y, e)
    requires e.Exits? || e.ChildError?
             || (e.DriverReads? && MatchReply(Spoken(y.fromRuntime[0])).None? && !ReadyLine(Spoken(y.fromRuntime[0])))
    ensures var t := Next(lib, y, e);
      t.driver.pending == map[] && forall r :: r in y.driver.pending ==> r in t.driver.outcomes && t.driver.outcomes[r] == Unavailable
  {
    hide LinkOk, MatchReply, ReadyLine;
    FailKeeps(y, y.(driver := Fail(y.driver)));
  }

  lemma LegalCons(lib: Library, y: Link, e: Event, es: seq<Event>)
    requires Enabled(y, e) && Legal(lib, Next(lib, y, e), es)
    ensures Legal(lib, y, [e] + es) && Exec(lib, y, [e] + es) == Exec(lib, Next(lib, y, e), es)
  {
    hide Enabled, Next;
    assert ([e] + es)[1..] == es;
  }

  /** The first command, and its loss. */
  lemma LosesFirst(lib: Library, table: Table, command: Command) returns (y: Link)
    requires WellFormed(command)
    ensures Enabled(FreshLink(table), Send(command)) && Enabled(Next(lib, FreshLink(table), Send(command)), CommandLost)
    ensures y == Next(lib, Next(lib, FreshLink(table), Send(command)), CommandLost)
    ensures y == FreshLink(table).(driver := FreshDriver().(nextRequest := 2, pending := map["1" := command]), sent := map["1" := command])
  {
    hide Print, WellFormed;
    assert Digits(1) == "1";
    y := Next(lib, Next(lib, FreshLink(table), Send(command)), CommandLost);
  }

  /** SHUTDOWN, and its answer. */
  lemma ShutsDown(lib: Library, y: Link) returns (t: Link)
    requires y.toRuntime == [] && y.fromRuntime == [] && !y.shutdown && !y.driver.exited && y.running
    ensures Enabled(y, SendShutdown) && Enabled(Next(lib, y, SendShutdown), RuntimeReads(MediaOk))
    ensures t == Next(lib, Next(lib, y, SendShutdown), RuntimeReads(MediaOk))
    ensures t == y.(shutdown := true, exposed := Exposes(y.driver), fromRuntime := [Farewell], running := false)
  {
    hide DoRuntimeReads;
    var u := Next(lib, y, SendShutdown);
    assert u.toRuntime == [ShutdownLine];
    ReadsFarewell(lib, u);
    t := Next(lib, u, RuntimeReads(MediaOk));
  }

  lemma ReadsFarewell(lib: Library, u: Link)
    requires u.toRuntime == [ShutdownLine] && u.fromRuntime == []
    ensures DoRuntimeReads(lib, u, MediaOk) == u.(toRuntime := [], fromRuntime := [Farewell], running := false)
  {
    FarewellHandled(lib, u.table);
    hide Parse, HandleLine, OkLine;
  }

  lemma FarewellHandled(lib: Library, table: Table)
    ensures HandleLine(lib, table, SHUTDOWN_TEXT, MediaOk) == Handling(table, Some(OkLine("1")), true)
    ensures Parse(SHUTDOWN_TEXT) == Shutdown("1")
  {
    ShutdownParses();
    hide Parse, OkLine, Execute;
  }

  /** SHUTDOWN is sent under the number 1: with the first command lost, its answer resolves that command. */
  lemma ShutdownBorrowsNumberOne(lib: Library, table: Table) returns (es: seq<Event>)
    ensures Legal(lib, FreshLink(table), es)
    ensures var y := Exec(lib, FreshLink(table), es);
      "1" in y.driver.outcomes && y.driver.outcomes["1"] == Resolved && y.executed == []
  {
    var command := Activate("a");
    assert Token("a");
    var y0 := FreshLink(table);
    var y2 := LosesFirst(lib, table, command);
    var y4 := ShutsDown(lib, y2);
    var last := DriverReads("");
    HearsFarewell(lib, y4, last);
    var y5 := Next(lib, y4, last);
    assert y5.executed == [];
    assert Legal(lib, y5, []) && Exec(lib, y5, []) == y5;
    hide *;
    var s5 := [last] + [];
    var s4 := [RuntimeReads(MediaOk)] + s5;
    var s3 := [SendShutdown] + s4;
    var s2 := [CommandLost] + s3;
    LegalCons(lib, y4, last, []);
    LegalCons(lib, Next(lib, y2, SendShutdown), RuntimeReads(MediaOk), s5);
    LegalCons(lib, y2, SendShutdown, s4);
    LegalCons(lib, Next(lib, y0, Send(command)), CommandLost, s3);
    LegalCons(lib, y0, Send(command), s2);
    es := [Send(command)] + s2;
  }

  lemma HearsFarewell(lib: Library, y: Link, e: Event)
    requires y.fromRuntime == [Farewell] && e.DriverReads? && "1" in y.driver.pending
    ensures Enabled(y, e) && "1" in Next(lib, y, e).driver.outcomes && Next(lib, y, e).driver.outcomes["1"] == Resolved
    ensures Next(lib, y, e).executed == y.executed
  {
    FarewellAnswersOne();
    hide MatchReply, ReadyLine;
  }

  lemma FarewellAnswersOne()
    ensures MatchReply(Spoken(Farewell)) == Some(Reply(true, "1", None)) && !ReadyLine(Spoken(Farewell))
  {
    assert ValidRequest("1");
    OkAccepted("1");
    ReplyIsNotReady(OkLine("1"));
  }

  // ---------- when a command is resolved that was never done ----------

  /** The request is resolved, and the runtime has not executed its command successfully. */
  ghost predicate Misresolved(y: Link, request: string) {
    request in y.driver.outcomes && y.driver.outcomes[request] == Resolved && !ExecutedAs(y, request, true)
  }

  /**
   Exactly one step does it: the driver reads the answer to SHUTDOWN while number 1 is outstanding and its command has not
   been done. No other event resolves anything that was not done.
   */
  lemma MisresolvesExactly(lib: Library, y: Link, e: Event, request: string)
    requires LinkOk(y) && Enabled(y, e) && request in y.driver.pending
    ensures Misresolved(Next(lib, y, e), request) <==>
              e.DriverReads? && y.fromRuntime[0].Farewell? && request == "1" && !ExecutedAs(y, "1", true)
  {
    hide LinkOk, MatchReply, ReadyLine, ExecutedAs, DoSend, DoRuntimeReads, Hear, Settle, Fail;
    assert request !in y.driver.outcomes && request in y.sent by { PendingUnsettled(y, request); }
    match e
    case DriverReads(expected) => ReadMisresolves(y, expected, request);
    case Send(command) => SendSettlesNothing(y, command, request);
    case RuntimeReads(media) => ReadSettlesNothing(lib, y, media);
    case Timeout(r) => OtherOutcome(y, r, TimedOut, request);
    case WriteError(r) => OtherOutcome(y, r, WriteFailed, request);
    case ChildError => FailureResolvesNothing(y, request);
    case Exits => FailureResolvesNothing(y, request);
    case _ =>
  }

  lemma PendingUnsettled(y: Link, request: string)
    requires LinkOk(y) && request in y.driver.pending
    ensures request !in y.driver.outcomes && request in y.sent
  {
    hide Numbered, WiresOk, AtMostOnce, Justified, Shielded;
  }

  lemma SendSettlesNothing(y: Link, command: Command, request: string)
    ensures DoSend(y, command).driver.outcomes == y.driver.outcomes
  {
    hide Print, Digits;
  }

  lemma ReadSettlesNothing(lib: Library, y: Link, media: Media)
    requires y.toRuntime != []
    ensures DoRuntimeReads(lib, y, media).driver == y.driver
  {
    hide Parse, HandleLine, Execute;
  }

  lemma OtherOutcome(y: Link, r: string, outcome: Outcome, request: string)
    requires request !in y.driver.outcomes && outcome != Resolved
    ensures var d := Settle(y.driver, r, outcome); request in d.outcomes ==> d.outcomes[request] != Resolved
  {
  }

  lemma FailureResolvesNothing(y: Link, request: string)
    requires request !in y.driver.outcomes
    ensures var d := Fail(y.driver); request in d.outcomes ==> d.outcomes[request] == Unavailable
  {
  }

  lemma ReadMisresolves(y: Link, expected: string, request: string)
    requires LinkOk(y) && y.fromRuntime != [] && request in y.driver.pending && request !in y.driver.outcomes && request in y.sent
    ensures var t := y.(fromRuntime := y.fromRuntime[1..], driver := Hear(y.driver, Spoken(y.fromRuntime[0]), expected));
      Misresolved(t, request) <==> y.fromRuntime[0].Farewell? && request == "1" && !ExecutedAs(y, "1", true)
  {
    var said := y.fromRuntime[0];
    var t := y.(fromRuntime := y.fromRuntime[1..], driver := Hear(y.driver, Spoken(said), expected));
    assert SaidOk(y, said) by { hide Parse; }
    SameExecutions(y, t, request);
    if said.Farewell? {
      FarewellAnswersOne();
      hide LinkOk, MatchReply, ReadyLine, ExecutedAs, SaidOk;
    } else {
      if MatchReply(Spoken(said)).Some? { AnswersTheirOwn(y, said); }
      hide LinkOk, MatchReply, ReadyLine, ExecutedAs, SaidOk;
    }
  }

  lemma SameExecutions(y: Link, t: Link, request: string)
    requires t.executed == y.executed && t.sent == y.sent
    ensures ExecutedAs(t, request, true) <==> ExecutedAs(y, request, true)
  {
  }

  /** A reply of the runtime to a command, if it is OK, is for a command it has done. */
  lemma AnswersTheirOwn(y: Link, said: Said)
    requires LinkOk(y) && SaidOk(y, said) && !said.Farewell? && MatchReply(Spoken(said)).Some?
    ensures var reply := MatchReply(Spoken(said)).value; reply.ok ==> ExecutedAs(y, reply.request, true)
  {
    hide Conserved, AtMostOnce, Justified, Numbered, LineOk, MatchReply;
    var x := y.executed[said.execution];
    assert x == Execution(x.request, y.sent[x.request], x.done);
  }

  // ---------- the exact condition, at the moment of the shutdown ----------

  lemma Grows(lib: Library, y: Link, e: Event, t: Link)
    requires LinkOk(y) && Enabled(y, e) && t == Next(lib, y, e)
    ensures forall r :: r in y.sent ==> r in t.sent && t.sent[r] == y.sent[r]
    ensures y.executed <= t.executed
    ensures y.shutdown ==> t.shutdown && t.exposed == y.exposed
  {
    hide LinkOk, DoSend, DoRuntimeReads, MatchReply, ReadyLine, HandleLine, Hear, Settle, Fail;
    match e
    case Send(command) => SendGrows(y, command);
    case RuntimeReads(media) => ReadGrows(lib, y, media);
    case _ =>
  }

  lemma SendGrows(y: Link, command: Command)
    requires LinkOk(y)
    ensures var t := DoSend(y, command);
      && (forall r :: r in y.sent ==> r in t.sent && t.sent[r] == y.sent[r])
      && t.executed == y.executed && t.shutdown == y.shutdown && t.exposed == y.exposed
  {
    FreshNumber(y);
    hide Digits, Print, LinkOk;
  }

  lemma ReadGrows(lib: Library, y: Link, media: Media)
    requires y.toRuntime != []
    ensures var t := DoRuntimeReads(lib, y, media);
      t.sent == y.sent && y.executed <= t.executed && t.shutdown == y.shutdown && t.exposed == y.exposed
  {
    hide Parse, HandleLine, Execute;
  }

  /** What has been done stays done, and what a shutdown has exposed or not stays so. */
  lemma {:induction false} StaysDone(lib: Library, y: Link, es: seq<Event>, request: string)
    requires LinkOk(y) && Legal(lib, y, es)
    ensures var t := Exec(lib, y, es);
      && LinkOk(t) && (ExecutedAs(y, request, true) ==> ExecutedAs(t, request, true))
      && (y.shutdown ==> t.shutdown && t.exposed == y.exposed)
    decreases |es|
  {
    hide LinkOk, Next, Enabled, ExecutedAs;
    if es != [] {
      var t := Next(lib, y, es[0]);
      LinkStep(lib, y, es[0]);
      Grows(lib, y, es[0], t);
      if ExecutedAs(y, request, true) { DoneInNext(y, t, request); }
      StaysDone(lib, t, es[1..], request);
    }
  }

  lemma DoneInNext(y: Link, t: Link, request: string)
    requires ExecutedAs(y, request, true) && y.executed <= t.executed
    requires forall r :: r in y.sent ==> r in t.sent && t.sent[r] == y.sent[r]
    ensures ExecutedAs(t, request, true)
  {
    ExecutedFrame(y, t, request, true);
  }

  /**
   A shutdown that is sent after command 1 was settled is harmless: whatever is lost or late afterwards, every command
   resolved in the rest of the run, number 1 included, has been done.
   */
  lemma ShieldedForever(lib: Library, y: Link, es: seq<Event>, request: string)
    requires LinkOk(y) && !y.shutdown && !Exposes(y.driver)
    requires Legal(lib, Next(lib, y, SendShutdown), es)
    ensures !Misresolved(Exec(lib, Next(lib, y, SendShutdown), es), request)
  {
    var z := Next(lib, y, SendShutdown);
    LinkStep(lib, y, SendShutdown);
    var t := Exec(lib, z, es);
    assert Enabled(y, SendShutdown);
    if y.driver.exited {
      StaysExited(lib, y, es, request);
    } else {
      StaysDone(lib, z, es, request);
      hide Exec, Legal, WiresOk, AtMostOnce, ExecutedAs;
      assert z.shutdown && !z.exposed;
    }
  }

  /** Once the child has exited nothing more is sent, so a shutdown asked for then never happens. */
  lemma {:induction false} StaysExited(lib: Library, y: Link, es: seq<Event>, request: string)
    requires LinkOk(y) && y.driver.exited && !y.shutdown && Legal(lib, y, es)
    ensures !Misresolved(Exec(lib, y, es), request)
    decreases |es|
  {
    if es == [] {
      hide WiresOk, AtMostOnce, ExecutedAs;
    } else {
      LinkStep(lib, y, es[0]);
      ExitedNext(lib, y, es[0]);
      hide LinkOk, Next, Enabled, Misresolved;
      StaysExited(lib, Next(lib, y, es[0]), es[1..], request);
    }
  }

  lemma ExitedNext(lib: Library, y: Link, e: Event)
    requires y.driver.exited && !y.shutdown && Enabled(y, e)
    ensures var t := Next(lib, y, e); t.driver.exited && !t.shutdown
  {
    hide MatchReply, ReadyLine, HandleLine, Parse, Execute;
  }

  lemma {:induction false} LosesCommands(lib: Library, y: Link, n: nat) returns (es: seq<Event>)
    requires n <= |y.toRuntime|
    ensures Legal(lib, y, es) && Exec(lib, y, es) == y.(toRuntime := y.toRuntime[n..])
    decreases n
  {
    if n == 0 {
      es := [];
      assert y.toRuntime[0..] == y.toRuntime;
    } else {
      var t := Next(lib, y, CommandLost);
      var rest := LosesCommands(lib, t, n - 1);
      LegalCons(lib, y, CommandLost, rest);
      es := [CommandLost] + rest;
      assert t.toRuntime[n - 1..] == y.toRuntime[n..];
    }
  }

  lemma {:induction false} LosesReplies(lib: Library, y: Link) returns (es: seq<Event>)
    ensures Legal(lib, y, es) && Exec(lib, y, es) == y.(fromRuntime := [])
    decreases |y.fromRuntime|
  {
    if y.fromRuntime == [] {
      es := [];
    } else {
      var t := Next(lib, y, ReplyLost);
      var rest := LosesReplies(lib, t);
      LegalCons(lib, y, ReplyLost, rest);
      es := [ReplyLost] + rest;
    }
  }

  lemma {:induction false} LegalAppend(lib: Library, y: Link, a: seq<Event>, b: seq<Event>)
    requires Legal(lib, y, a) && Legal(lib, Exec(lib, y, a), b)
    ensures Legal(lib, y, a + b) && Exec(lib, y, a + b) == Exec(lib, Exec(lib, y, a), b)
    decreases |a|
  {
    hide Next, Enabled;
    if a == [] {
      assert a + b == b;
    } else {
      LegalAppend(lib, Next(lib, y, a[0]), a[1..], b);
      assert (a + b)[1..] == a[1..] + b;
    }
  }

  /** The end of such a run: everything before SHUTDOWN is lost, and its answer is read. */
  lemma HeedsOnlyShutdown(lib: Library, z: Link) returns (es: seq<Event>)
    requires z.running && z.toRuntime != [] && z.toRuntime[|z.toRuntime| - 1] == ShutdownLine
    requires "1" in z.driver.pending && !ExecutedAs(z, "1", true)
    ensures Legal(lib, z, es) && Misresolved(Exec(lib, z, es), "1")
  {
    var a := LosesCommands(lib, z, |z.toRuntime| - 1);
    var z1 := Exec(lib, z, a);
    var b := LosesReplies(lib, z1);
    var z2 := Exec(lib, z1, b);
    assert z2.toRuntime == [ShutdownLine];
    ReadsFarewell(lib, z2);
    var z3 := Next(lib, z2, RuntimeReads(MediaOk));
    HearsFarewell(lib, z3, DriverReads(""));
    var z4 := Next(lib, z3, DriverReads(""));
    SameExecutions(z, z4, "1");
    assert Legal(lib, z4, []) && Exec(lib, z4, []) == z4;
    assert Enabled(z2, RuntimeReads(MediaOk));
    hide Legal, Exec, Next, Enabled, ExecutedAs;
    LegalCons(lib, z3, DriverReads(""), []);
    LegalCons(lib, z2, RuntimeReads(MediaOk), [DriverReads("")] + []);
    LegalAppend(lib, z1, b, [RuntimeReads(MediaOk)] + ([DriverReads("")] + []));
    LegalAppend(lib, z, a, b + ([RuntimeReads(MediaOk)] + ([DriverReads("")] + [])));
    es := a + (b + ([RuntimeReads(MediaOk)] + ([DriverReads("")] + [])));
  }

  /** Command 1, sent only after SHUTDOWN, is outstanding and never reaches the runtime. */
  lemma FirstAfterShutdown(lib: Library, y: Link, z: Link) returns (u: Link)
    requires LinkOk(y) && y.driver.nextRequest == 1 && !y.driver.exited && !y.shutdown && y.running
    requires z == Next(lib, y, SendShutdown)
    ensures Enabled(z, Send(Activate("a"))) && u == Next(lib, z, Send(Activate("a")))
    ensures u.running && u.toRuntime == z.toRuntime && "1" in u.driver.pending && !ExecutedAs(u, "1", true)
  {
    assert Token("a");
    OneIsFirst(1);
    FreshNumber(y);
    u := Next(lib, z, Send(Activate("a")));
    hide Digits, Print, LineOk, SaidOk;
    assert forall i :: 0 <= i < |u.executed| ==> u.executed[i].request in y.sent;
  }

  /**
   The exact condition, as it stands when SHUTDOWN is sent: some continuation resolves command 1 without its having been
   done if and only if number 1 is not used yet, or is outstanding and not done.
   */
  lemma ShutdownHazard(lib: Library, y: Link)
    requires LinkOk(y) && !y.shutdown && !y.driver.exited && y.running
    ensures (exists es :: Legal(lib, Next(lib, y, SendShutdown), es) && Misresolved(Exec(lib, Next(lib, y, SendShutdown), es), "1")) <==>
              y.driver.nextRequest == 1 || ("1" in y.driver.pending && !ExecutedAs(y, "1", true))
  {
    var z := Next(lib, y, SendShutdown);
    assert Enabled(y, SendShutdown);
    assert z == y.(shutdown := true, exposed := Exposes(y.driver), toRuntime := y.toRuntime + [ShutdownLine]);
    SameExecutions(y, z, "1");
    if y.driver.nextRequest == 1 {
      var u := FirstAfterShutdown(lib, y, z);
      var rest := HeedsOnlyShutdown(lib, u);
      LegalCons(lib, z, Send(Activate("a")), rest);
    } else if "1" in y.driver.pending && !ExecutedAs(y, "1", true) {
      var es := HeedsOnlyShutdown(lib, z);
    } else {
      LinkStep(lib, y, SendShutdown);
      hide Legal, Exec, Next, LinkOk, ExecutedAs;
      forall es | Legal(lib, z, es) ensures !Misresolved(Exec(lib, z, es), "1") {
        if ExecutedAs(y, "1", true) {
          StaysDone(lib, z, es, "1");
        } else {
          ShieldedForever(lib, y, es, "1");
        }
      }
    }
  }

  /** A late reply, to a request that is no longer outstanding, changes nothing. */
  lemma LateReplyIgnored(d: Driver, line: string, expected: string)
    requires MatchReply(line).Some? && MatchReply(line).value.request !in d.pending
    ensures Hear(d, line, expected) == d
  {
    ReplyIsNotReady(line);
    hide MatchReply, ReadyLine;
  }

  /** The driver object: one method per callback. */
  class NativeTabDriver {
    const expectedInitialTabId: string
    var nextRequest: nat
    var pending: map<string, Command>
    var outcomes: map<string, Outcome>
    var ready: Readiness
    var exited: bool

    constructor (expectedInitialTabId: string)
      ensures this.expectedInitialTabId == expectedInitialTabId && View() == FreshDriver()
    {
      this.expectedInitialTabId := expectedInitialTabId;
      nextRequest := 1;
      pending, outcomes := map[], map[];
      ready := Waiting;
      exited := false;
    }

    function View(): Driver
      reads this
    {
      Driver(nextRequest, pending, outcomes, ready, exited)
    }

    /** The line to write, or None when the runtime is unavailable; the request is then outstanding under a new number. */
    method Issue(command: Command) returns (line: Option<string>)
      modifies this`nextRequest, this`pending
      ensures old(exited) ==> line == None && View() == old(View())
      ensures !old(exited) ==>
                && line == Some(Print(command, old(nextRequest)))
                && View() == old(View()).(nextRequest := old(nextRequest) + 1, pending := old(pending)[Digits(old(nextRequest)) := command])
    {
      if exited {
        return None;
      }
      var request := Digits(nextRequest);
      line := Some(Print(command, nextRequest));
      nextRequest := nextRequest + 1;
      pending := pending[request := command];
    }

    /** Settles a promise at most once: a request no longer outstanding is left alone. */
    method SettleRequest(request: string, outcome: Outcome)
      modifies this`pending, this`outcomes
      ensures View() == Settle(old(View()), request, outcome)
    {
      if request in pending {
        pending := pending - {request};
        outcomes := outcomes[request := outcome];
      }
    }

    method TimedOutAfterDelay(request: string)
      modifies this`pending, this`outcomes
      ensures View() == Settle(old(View()), request, TimedOut)
    {
      SettleRequest(request, TimedOut);
    }

    method WriteCallback(request: string, failed: bool)
      modifies this`pending, this`outcomes
      ensures View() == if failed then Settle(old(View()), request, WriteFailed) else old(View())
    {
      if failed {
        SettleRequest(request, WriteFailed);
      }
    }

    /** Walks the outstanding requests and rejects each. */
    method FailAll()
      modifies this`pending, this`outcomes, this`ready
      ensures View() == Fail(old(View()))
    {
      ready := Reject(ready);
      var left := pending.Keys;
      ghost var before := outcomes;
      while left != {}
        invariant left <= pending.Keys && pending == old(pending) && ready == Reject(old(ready))
        invariant outcomes == before + map r | r in pending && r !in left :: Unavailable
        decreases left
      {
        var request :| request in left;
        outcomes := outcomes[request := Unavailable];
        left := left - {request};
      }
      assert outcomes == before + map r | r in pending :: Unavailable;
      pending := map[];
    }

    method OnLine(line: string)
      modifies this`pending, this`outcomes, this`ready
      ensures View() == Hear(old(View()), line, expectedInitialTabId)
    {
      hide MatchReply, Fail, Settle;
      if ReadyLine(line) {
        if ready == Waiting {
          ready := if line[6..] == expectedInitialTabId then IsReady else NotReady;
        }
        return;
      }
      var response := MatchReply(line);
      if response.None? {
        FailAll();
        return;
      }
      SettleRequest(response.value.request, if response.value.ok then Resolved else RefusedByRuntime);
    }

    method OnExit()
      modifies this`pending, this`outcomes, this`ready, this`exited
      ensures View() == Fail(old(View())).(exited := true)
    {
      exited := true;
      FailAll();
    }
  }
}
