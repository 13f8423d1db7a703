/** What the driver makes of the runtime's verdicts: the converse of TabDriver's law that nothing is resolved without one. */
module TabExchange {
  import opened Wrappers
  import opened TabUrls
  import opened TabWire
  import opened TabRuntime
  import opened TabDriver

  /** A verdict that arrives while its request is outstanding settles that request by it, and nothing else. */
  lemma VerdictSettles(lib: Library, y: Link, expected: string)
    requires LinkOk(y) && y.fromRuntime != [] && y.fromRuntime[0].Answers?
    requires y.fromRuntime[0].execution < |y.executed| && y.executed[y.fromRuntime[0].execution].request in y.driver.pending
    ensures var x := y.executed[y.fromRuntime[0].execution];
      Enabled(y, DriverReads(expected)) &&
      Next(lib, y, DriverReads(expected)) ==
        y.(fromRuntime := y.fromRuntime[1..],
           driver := y.driver.(pending := y.driver.pending - {x.request},
                               outcomes := y.driver.outcomes[x.request := if x.done then Resolved else RefusedByRuntime]))
  {
    assert SaidOk(y, y.fromRuntime[0]) by { hide MatchReply, ReadyLine, LineOk; }
    hide LinkOk, MatchReply, ReadyLine;
  }

  /** The command under this number was executed once, on the table as it was, and its verdict settled it. */
  ghost predicate Exchanged(y: Link, t: Link, request: string, command: Command, handled: Handled) {
    && t.table == After(y.table, handled)
    && t.executed == y.executed + [Execution(request, command, handled.Done?)]
    && t.driver.pending == y.driver.pending
    && t.driver.outcomes == y.driver.outcomes[request := if handled.Done? then Resolved else RefusedByRuntime]
    && t.driver.nextRequest == y.driver.nextRequest + 1 && t.running && t.toRuntime == [] && t.fromRuntime == []
  }

  /**
   An exchange that nothing disturbs: the command that is sent is the one that is executed, on the table as it was, once; its
   caller's promise resolves if and only if it was done, and is rejected by the runtime otherwise.
   */
  lemma Undisturbed(lib: Library, y: Link, command: Command, media: Media, expected: string)
    requires LinkOk(y) && y.running && !y.driver.exited && !y.shutdown && y.toRuntime == [] && y.fromRuntime == []
    requires Enabled(y, Send(command)) && Speakable(media)
    ensures var es := [Send(command), RuntimeReads(media), DriverReads(expected)];
      Legal(lib, y, es)
      && Exchanged(y, Exec(lib, y, es), Digits(y.driver.nextRequest), command, Execute(lib, y.table, command, media))
  {
    hide *;
    OneByOne(lib, y, command, media, expected);
    ThreeSteps(lib, y, Send(command), RuntimeReads(media), DriverReads(expected));
  }

  lemma OneByOne(lib: Library, y: Link, command: Command, media: Media, expected: string)
    requires LinkOk(y) && y.running && !y.driver.exited && !y.shutdown && y.toRuntime == [] && y.fromRuntime == []
    requires Enabled(y, Send(command)) && Speakable(media)
    ensures var a := Next(lib, y, Send(command));
      Enabled(a, RuntimeReads(media))
      && var b := Next(lib, a, RuntimeReads(media));
      Enabled(b, DriverReads(expected))
      && Exchanged(y, Next(lib, b, DriverReads(expected)), Digits(y.driver.nextRequest), command, Execute(lib, y.table, command, media))
  {
    var request := Digits(y.driver.nextRequest);
    hide LinkOk, Next, Enabled, Execute, Digits, Speakable, After;
    NumberIsFresh(y);
    LinkStep(lib, y, Send(command));
    SentLine(lib, y, command);
    var a := Next(lib, y, Send(command));
    ReadLine(lib, y, a, command, media);
    LinkStep(lib, a, RuntimeReads(media));
    var b := Next(lib, a, RuntimeReads(media));
    VerdictSettles(lib, b, expected);
    assert a.driver.pending - {request} == y.driver.pending;
  }

  lemma NumberIsFresh(y: Link)
    requires LinkOk(y)
    ensures Digits(y.driver.nextRequest) !in y.sent && Digits(y.driver.nextRequest) !in y.driver.pending
  {
    FreshNumber(y);
    hide Numbered, WiresOk, AtMostOnce, Justified, Shielded, Digits;
  }

  lemma ThreeSteps(lib: Library, y: Link, e1: Event, e2: Event, e3: Event)
    requires Enabled(y, e1) && Enabled(Next(lib, y, e1), e2) && Enabled(Next(lib, Next(lib, y, e1), e2), e3)
    ensures Legal(lib, y, [e1, e2, e3])
    ensures Exec(lib, y, [e1, e2, e3]) == Next(lib, Next(lib, Next(lib, y, e1), e2), e3)
  {
    hide Enabled, Next;
    var a := Next(lib, y, e1);
    var b := Next(lib, a, e2);
    var c := Next(lib, b, e3);
    assert Legal(lib, c, []) && Exec(lib, c, []) == c;
    LegalCons(lib, b, e3, []);
    LegalCons(lib, a, e2, [e3] + []);
    LegalCons(lib, y, e1, [e2] + ([e3] + []));
    assert [e1] + ([e2] + ([e3] + [])) == [e1, e2, e3];
  }

  lemma SentLine(lib: Library, y: Link, command: Command)
    requires !y.driver.exited && !y.shutdown && y.toRuntime == [] && Enabled(y, Send(command))
    ensures var request := Digits(y.driver.nextRequest);
      Next(lib, y, Send(command)) ==
        y.(driver := y.driver.(nextRequest := y.driver.nextRequest + 1, pending := y.driver.pending[request := command]),
           sent := y.sent[request := command], toRuntime := [CommandLine(request, Print(command, y.driver.nextRequest))])
  {
    hide Print, Digits;
  }

  /** The runtime reads that line as that command, and does it on the table as it is. */
  lemma ReadLine(lib: Library, y: Link, a: Link, command: Command, media: Media)
    requires LinkOk(a) && a.running && a.table == y.table && a.executed == y.executed && a.fromRuntime == []
    requires Enabled(y, Send(command)) && Speakable(media)
    requires var request := Digits(y.driver.nextRequest);
      request in a.sent && a.sent[request] == command && a.toRuntime == [CommandLine(request, Print(command, y.driver.nextRequest))]
    ensures Enabled(a, RuntimeReads(media))
    ensures var request := Digits(y.driver.nextRequest);
      var handled := Execute(lib, y.table, command, media);
      var b := Next(lib, a, RuntimeReads(media));
      && b.table == After(y.table, handled) && b.running && b.toRuntime == []
      && b.executed == y.executed + [Execution(request, command, handled.Done?)]
      && |b.fromRuntime| == 1 && b.fromRuntime[0].Answers? && b.fromRuntime[0].execution == |y.executed|
      && b.driver == a.driver && b.sent == a.sent
  {
    CommandRoundTrip(command, y.driver.nextRequest);
    hide LinkOk, Print, Parse, Digits, Execute, Speakable, WellFormed;
  }

  /** The driver is told that it is ready by READY with its own initial tab, and by no other line; a line that is no reply fails it. */
  lemma ReadyExactly(d: Driver, line: string, expected: string)
    requires d.ready == Waiting
    ensures Hear(d, line, expected).ready == IsReady <==>
              line == "READY " + expected && |expected| == 36
              && forall i :: 0 <= i < 36 ==> '0' <= expected[i] <= '9' || 'a' <= expected[i] <= 'f' || expected[i] == '-'
    ensures Hear(d, line, expected).ready == Waiting <==> MatchReply(line).Some?
  {
    if MatchReply(line).Some? { ReplyIsNotReady(line); }
    hide MatchReply;
    if |line| == 42 {
      assert forall i :: 6 <= i < 42 ==> line[i] == line[6..][i - 6];
      assert line == line[..6] + line[6..];
    }
    var told := "READY " + expected;
    assert told[..6] == "READY " && told[6..] == expected;
  }

  /** SHUTDOWN ends the runtime's main loop, is answered, and leaves the tabs alone. */
  lemma ShutdownIsObeyed(lib: Library, y: Link, media: Media)
    requires Enabled(y, RuntimeReads(media)) && y.toRuntime[0].ShutdownLine?
    ensures var t := Next(lib, y, RuntimeReads(media));
      !t.running && t.table == y.table && t.executed == y.executed && t.fromRuntime == y.fromRuntime + [Farewell]
  {
    ShutdownParses();
    hide Parse, Execute;
  }

  /** Why a command is refused, the first reason that applies, in the order in which the runtime looks. */
  ghost function Reason(lib: Library, t: Table, command: Command, media: Media): Option<string> {
    if (command.Create? || command.Navigate?) && !lib.nativeAccepts(command.url) then Some("TAB_INPUT_INVALID")
    else if !command.Create? && command.id !in t.tabs then Some("TAB_NOT_FOUND")
    else if command.Create? && |t.tabs| >= 4 then Some("TAB_LIMIT_REACHED")
    else if command.Create? && (!ValidUuid(command.id) || command.id in t.tabs) then Some("TAB_INPUT_INVALID")
    else if command.Delete? && |t.tabs| == 1 then Some("TAB_MINIMUM_REACHED")
    else if command.Delete? && !FallbackFits(t, command.id, command.fallback) then Some("TAB_FALLBACK_INVALID")
    else if command.Create? && media.MediaFails? then Some(media.error)
    else None
  }

  /** The fallback stays, and is the active tab unless that is the one that goes. */
  predicate FallbackFits(t: Table, id: string, fallback: string) {
    fallback in t.tabs && fallback != id && (t.active == id || t.active == fallback)
  }

  /** A command is refused for the first reason that applies, and done if and only if there is none; and what is done is this. */
  lemma RefusedForReason(lib: Library, t: Table, command: Command, media: Media)
    requires TableOk(t)
    ensures var h := Execute(lib, t, command, media);
      var reason := Reason(lib, t, command, media);
      && (h.Done? <==> reason.None?) && (h.Refused? ==> h.error == reason.value)
      && (h.Done? ==>
            && h.table.active == (match command { case Create(id, _) => id case Activate(id) => id case Navigate(_, _) => t.active case Delete(_, fallback) => fallback })
            && h.table.tabs == (match command {
                 case Create(id, url) => t.tabs[id := url]
                 case Activate(_) => t.tabs
                 case Navigate(id, url) => t.tabs[id := url]
                 case Delete(id, _) => t.tabs - {id} }))
  {
    hide ValidUuid;
  }

  /** A timeout and a failed write settle their own request so, while it is outstanding, and touch nothing else. */
  lemma GivenUp(lib: Library, y: Link, request: string)
    requires request in y.driver.pending
    ensures Next(lib, y, Timeout(request)) ==
              y.(driver := y.driver.(pending := y.driver.pending - {request}, outcomes := y.driver.outcomes[request := TimedOut]))
    ensures Next(lib, y, WriteError(request)) ==
              y.(driver := y.driver.(pending := y.driver.pending - {request}, outcomes := y.driver.outcomes[request := WriteFailed]))
  {
  }
}
