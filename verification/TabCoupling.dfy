/**
 The two replicas of the tab table: the controller of session/tab-control.mjs and the native table of
 session/fireball-session-runtime.cc, joined by real lines. Runs here have no timeout and no exit.
 */
module TabCoupling {
  import opened Wrappers
  import opened TabWire
  import opened TabUrls
  import opened TabRuntime
  import C = TabController

  /** The line of the one command that can be under way, or its reply. */
  datatype Flight = Quiet | Asked(request: nat, line: string) | Told(request: nat, line: string)

  /** `derailed` would record a reply that the driver does not take for the command it waits for. */
  datatype Coupled = Coupled(chain: C.Chain, table: Table, flight: Flight, nextRequest: nat, derailed: bool)

  datatype Event =
    | Submit(op: C.Op)
    | Start(uuid: string)
    | RuntimeReads(media: Media)
    | DriverReads(now: int)

  /** What the driver makes of a call; None when encodeUrl throws. */
  function CommandOf(lib: Library, call: C.DriverCall): Option<Command> {
    match call
    case CallCreate(id, url) =>
      (match EncodeUrl(lib, url)
       case None => None
       case Some(bytes) => Some(Create(id, bytes)))
    case CallActivate(id) => Some(Activate(id))
    case CallNavigate(id, url) =>
      (match EncodeUrl(lib, url)
       case None => None
       case Some(bytes) => Some(Navigate(id, bytes)))
    case CallRemove(id, fallback) => Some(Delete(id, fallback))
  }

  predicate Enabled(y: Coupled, e: Event) {
    match e
    case Submit(_) => true
    case Start(uuid) => C.Enabled(y.chain, C.Start(uuid)) && ValidUuid(uuid) && y.flight.Quiet? && 1 <= y.nextRequest <= MAXIMUM_SAFE_INTEGER
    case RuntimeReads(media) => y.flight.Asked? && Speakable(media)
    case DriverReads(_) => y.flight.Told? && y.chain.inside.Some?
  }

  function DoStart(settings: C.Settings, y: Coupled, uuid: string): Coupled
    requires Enabled(y, Start(uuid))
  {
    var chain := C.Next(settings, y.chain, C.Start(uuid));
    if chain.inside.None? then y.(chain := chain)
    else
      match CommandOf(settings.lib, chain.inside.value.call)
      case None => y.(chain := C.Next(settings, chain, C.Settle(false, 0)))
      case Some(command) =>
        y.(chain := chain, nextRequest := y.nextRequest + 1, flight := Asked(y.nextRequest, Print(command, y.nextRequest)))
  }

  function DoRuntimeReads(settings: C.Settings, y: Coupled, media: Media): Coupled
    requires y.flight.Asked?
  {
    var h := HandleLine(settings.lib, y.table, y.flight.line, media);
    y.(table := h.table, flight := if h.reply.Some? then Told(y.flight.request, h.reply.value) else Quiet,
       derailed := y.derailed || h.reply.None?)
  }

  function DoDriverReads(settings: C.Settings, y: Coupled, now: int): Coupled
    requires Enabled(y, DriverReads(now))
  {
    match MatchReply(y.flight.line)
    case None => y.(flight := Quiet, derailed := true)
    case Some(reply) =>
      if reply.request == Digits(y.flight.request)
      then y.(flight := Quiet, chain := C.Next(settings, y.chain, C.Settle(reply.ok, now)))
      else y.(flight := Quiet, derailed := true)
  }

  function Next(settings: C.Settings, y: Coupled, e: Event): Coupled
    requires Enabled(y, e)
  {
    match e
    case Submit(op) => y.(chain := C.Next(settings, y.chain, C.Submit(op)))
    case Start(uuid) => DoStart(settings, y, uuid)
    case RuntimeReads(media) => DoRuntimeReads(settings, y, media)
    case DriverReads(now) => DoDriverReads(settings, y, now)
  }

  // ---------- agreement ----------

  ghost predicate SameUrls(lib: Library, rows: seq<C.Tab>, tabs: map<string, seq<Byte>>) {
    forall i :: 0 <= i < |rows| ==> rows[i].id in tabs && tabs[rows[i].id] == lib.utf8(InternalTabUrl(rows[i].url))
  }

  /** The same ids, the same URLs up to the home alias, the same active tab. */
  ghost predicate Agree(lib: Library, tabs: C.Tabs, table: Table) {
    && table.active == tabs.active
    && |table.tabs| == |tabs.rows|
    && (forall id :: id in table.tabs <==> C.Has(tabs.rows, id))
    && SameUrls(lib, tabs.rows, table.tabs)
  }

  ghost predicate IdsAreTokens(rows: seq<C.Tab>) {
    forall i :: 0 <= i < |rows| ==> Token(rows[i].id)
  }

  /** The call came out of this normaliser. */
  ghost predicate NormalizedCall(lib: Library, call: C.DriverCall) {
    match call
    case CallCreate(_, url) => exists v :: NormalizeTabUrl(lib, v) == Some(url)
    case CallNavigate(_, url) => exists v :: NormalizeTabUrl(lib, v) == Some(url)
    case _ => true
  }

  ghost predicate TableAfter(settings: C.Settings, y: Coupled) {
    match y.flight
    case Told(request, line) =>
      && y.chain.inside.Some?
      && MatchReply(line).Some? && MatchReply(line).value.request == Digits(request)
      && Agree(settings.lib, if MatchReply(line).value.ok then C.Record(y.chain.tabs, y.chain.inside.value.call, 0).0 else y.chain.tabs, y.table)
    case _ => Agree(settings.lib, y.chain.tabs, y.table)
  }

  ghost predicate CoupledOk(settings: C.Settings, y: Coupled) {
    && !y.derailed
    && C.ChainOk(settings, y.chain)
    && IdsAreTokens(y.chain.tabs.rows)
    && TableAfter(settings, y)
    && (y.flight.Quiet? <==> y.chain.inside.None?)
    && (y.chain.inside.Some? ==> CallReady(settings, y))
  }

  /** The line under way, if any, is that of the call the controller is inside of. */
  ghost predicate CallReady(settings: C.Settings, y: Coupled)
    requires y.chain.inside.Some?
  {
    var call := y.chain.inside.value.call;
    && CommandOf(settings.lib, call).Some? && WellFormed(CommandOf(settings.lib, call).value)
    && NormalizedCall(settings.lib, call)
    && (call.CallCreate? ==> ValidUuid(call.id))
    && (y.flight.Asked? ==> 1 <= y.flight.request < SIXTEEN_DIGITS
                            && y.flight.line == Print(CommandOf(settings.lib, call).value, y.flight.request))
  }

  // ---------- the native guards never stand in the way ----------

  /**
   A command the controller sends is never refused for a missing tab, the tab limit, the last tab or the fallback: only
   for a URL the native parser does not take, or because the media pipeline failed.
   */
  lemma NeverMisjudged(settings: C.Settings, tabs: C.Tabs, table: Table, call: C.DriverCall, media: Media)
    requires settings.maximumTabs <= NATIVE_MAXIMUM_TABS && C.CallFits(settings, tabs, call)
    requires Agree(settings.lib, tabs, table) && CommandOf(settings.lib, call).Some? && (call.CallCreate? ==> ValidUuid(call.id))
    ensures var command := CommandOf(settings.lib, call).value;
      var h := Execute(settings.lib, table, command, media);
      && (h.Done? <==> ((command.Create? || command.Navigate? ==> settings.lib.nativeAccepts(command.url))
                        && (command.Create? ==> media.MediaOk?)))
      && (h.Refused? && (command.Create? || command.Navigate?) && !settings.lib.nativeAccepts(command.url) ==> h.error == "TAB_INPUT_INVALID")
      && (h.Refused? && (command.Create? || command.Navigate?) && settings.lib.nativeAccepts(command.url) ==>
            command.Create? && media.MediaFails? && h.error == media.error)
  {
    hide SameUrls, ValidUuid, EncodeUrl, C.Position;
  }

  /** The tab limit of the controller may be set to 8; beyond 4 the native limit is the one that is hit. */
  lemma LimitsMeetAtFour(settings: C.Settings, tabs: C.Tabs, table: Table, id: string, url: seq<Byte>)
    requires Agree(settings.lib, tabs, table) && settings.lib.nativeAccepts(url)
    ensures Execute(settings.lib, table, Create(id, url), MediaOk) == Refused("TAB_LIMIT_REACHED") <==> |tabs.rows| >= NATIVE_MAXIMUM_TABS
  {
    hide SameUrls, ValidUuid, C.Position;
    assert "TAB_LIMIT_REACHED"[4] != "TAB_INPUT_INVALID"[4];
  }

  // ---------- both sides do the same ----------

  lemma {:induction false} AppendedHas(rows: seq<C.Tab>, tab: C.Tab, id: string)
    ensures C.Has(rows + [tab], id) <==> C.Has(rows, id) || id == tab.id
  {
    if rows == [] {
      assert rows + [tab] == [tab];
    } else {
      assert (rows + [tab])[1..] == rows[1..] + [tab];
      AppendedHas(rows[1..], tab, id);
    }
  }

  lemma CreatedAgree(settings: C.Settings, tabs: C.Tabs, table: Table, call: C.DriverCall, bytes: seq<Byte>, now: int)
    requires Agree(settings.lib, tabs, table) && call.CallCreate? && !C.Has(tabs.rows, call.id)
    requires bytes == settings.lib.utf8(InternalTabUrl(PublicTabUrl(call.url)))
    ensures Agree(settings.lib, C.Record(tabs, call, now).0, Table(table.tabs[call.id := bytes], call.id))
  {
    var tab := C.Tab(call.id, PublicTabUrl(call.url), now);
    forall id ensures C.Has(tabs.rows + [tab], id) <==> C.Has(tabs.rows, id) || id == call.id {
      AppendedHas(tabs.rows, tab, id);
    }
    CreatedUrls(settings.lib, tabs.rows, table.tabs, tab, bytes);
    assert table.tabs[call.id := bytes].Keys == table.tabs.Keys + {call.id};
    hide C.Has, InternalTabUrl, PublicTabUrl, SameUrls;
  }

  lemma CreatedUrls(lib: Library, rows: seq<C.Tab>, tabs: map<string, seq<Byte>>, tab: C.Tab, bytes: seq<Byte>)
    requires SameUrls(lib, rows, tabs) && !C.Has(rows, tab.id) && bytes == lib.utf8(InternalTabUrl(tab.url))
    ensures SameUrls(lib, rows + [tab], tabs[tab.id := bytes])
  {
    forall i | 0 <= i < |rows| ensures rows[i].id != tab.id {
      C.HasAt(rows, i);
    }
    hide C.Has, InternalTabUrl;
  }

  lemma {:induction false} UpdatedHas(rows: seq<C.Tab>, k: nat, tab: C.Tab, id: string)
    requires k < |rows| && tab.id == rows[k].id
    ensures C.Has(rows[k := tab], id) <==> C.Has(rows, id)
  {
    if k > 0 {
      assert rows[k := tab][1..] == rows[1..][k - 1 := tab];
      UpdatedHas(rows[1..], k - 1, tab, id);
    } else {
      assert rows[k := tab][1..] == rows[1..];
    }
  }

  lemma NavigatedAgree(settings: C.Settings, tabs: C.Tabs, table: Table, call: C.DriverCall, bytes: seq<Byte>, now: int)
    requires Agree(settings.lib, tabs, table) && C.Distinct(tabs.rows) && call.CallNavigate? && C.Has(tabs.rows, call.id)
    requires bytes == settings.lib.utf8(InternalTabUrl(PublicTabUrl(call.url)))
    ensures Agree(settings.lib, C.Record(tabs, call, now).0, table.(tabs := table.tabs[call.id := bytes]))
  {
    var k := C.Position(tabs.rows, call.id);
    var tab := tabs.rows[k].(url := PublicTabUrl(call.url));
    forall id ensures C.Has(tabs.rows[k := tab], id) <==> C.Has(tabs.rows, id) {
      UpdatedHas(tabs.rows, k, tab, id);
    }
    NavigatedUrls(settings.lib, tabs.rows, table.tabs, k, tab, bytes);
    assert call.id in table.tabs;
    assert table.tabs[call.id := bytes].Keys == table.tabs.Keys;
    hide C.Position, InternalTabUrl, PublicTabUrl, SameUrls, C.Distinct;
  }

  lemma NavigatedUrls(lib: Library, rows: seq<C.Tab>, tabs: map<string, seq<Byte>>, k: nat, tab: C.Tab, bytes: seq<Byte>)
    requires SameUrls(lib, rows, tabs) && C.Distinct(rows) && k < |rows| && tab.id == rows[k].id
    requires bytes == lib.utf8(InternalTabUrl(tab.url))
    ensures SameUrls(lib, rows[k := tab], tabs[tab.id := bytes])
  {
    hide InternalTabUrl;
  }

  lemma RemovedUrls(lib: Library, rows: seq<C.Tab>, tabs: map<string, seq<Byte>>, k: nat)
    requires SameUrls(lib, rows, tabs) && C.Distinct(rows) && k < |rows|
    ensures SameUrls(lib, C.Without(rows, k), tabs - {rows[k].id})
  {
    var after := C.Without(rows, k);
    C.WithoutAt(rows, k);
    hide InternalTabUrl, C.Without;
    forall i | 0 <= i < |after| ensures after[i].id in tabs - {rows[k].id} && tabs[after[i].id] == lib.utf8(InternalTabUrl(after[i].url)) {
      var j := if i < k then i else i + 1;
      assert after[i] == rows[j];
    }
  }

  lemma RemovedAgree(settings: C.Settings, tabs: C.Tabs, table: Table, call: C.DriverCall, now: int)
    requires Agree(settings.lib, tabs, table) && C.Distinct(tabs.rows) && call.CallRemove? && C.Has(tabs.rows, call.id)
    requires call.id != tabs.active ==> call.fallback == tabs.active
    ensures Agree(settings.lib, C.Record(tabs, call, now).0,
                  Table(table.tabs - {call.id}, if table.active == call.id then call.fallback else table.active))
  {
    var rows, k := tabs.rows, C.Position(tabs.rows, call.id);
    forall id ensures C.Has(C.Drop(rows, call.id), id) <==> C.Has(rows, id) && id != call.id {
      C.Dropped(rows, call.id, id);
    }
    C.Dropped(rows, call.id, call.id);
    RemovedSize(table.tabs, call.id);
    assert C.Drop(rows, call.id) == C.Without(rows, k);
    RemovedUrls(settings.lib, rows, table.tabs, k);
    hide C.Position, C.Without, C.Drop, SameUrls, C.Distinct, C.Has;
  }

  lemma ActivatedAgree(settings: C.Settings, tabs: C.Tabs, table: Table, call: C.DriverCall, now: int)
    requires Agree(settings.lib, tabs, table) && call.CallActivate? && C.Has(tabs.rows, call.id)
    ensures Agree(settings.lib, C.Record(tabs, call, now).0, table.(active := call.id))
  {
    hide C.Position, SameUrls;
  }

  lemma EncodedCall(lib: Library, call: C.DriverCall, url: string)
    requires Sane(lib) && NormalizedCall(lib, call) && CommandOf(lib, call).Some?
    requires (call.CallCreate? || call.CallNavigate?) && url == call.url
    ensures CommandOf(lib, call).value.url == lib.utf8(InternalTabUrl(PublicTabUrl(url)))
    ensures Sendable(CommandOf(lib, call).value.url)
  {
    var v :| NormalizeTabUrl(lib, v) == Some(url);
    EncodesNormalized(lib, v);
    AliasRoundTrip(lib, v);
  }

  /** A command done on the native side is the same change as the one the controller will record. */
  lemma DoneAgrees(settings: C.Settings, tabs: C.Tabs, table: Table, call: C.DriverCall, media: Media, now: int)
    requires Sane(settings.lib) && C.TabsOk(settings, tabs) && C.CallFits(settings, tabs, call)
    requires Agree(settings.lib, tabs, table) && NormalizedCall(settings.lib, call) && CommandOf(settings.lib, call).Some?
    requires Execute(settings.lib, table, CommandOf(settings.lib, call).value, media).Done?
    ensures Agree(settings.lib, C.Record(tabs, call, now).0,
                  Execute(settings.lib, table, CommandOf(settings.lib, call).value, media).table)
  {
    hide Sane, NormalizedCall, Agree, C.Record, EncodeUrl, ValidUuid, C.Position;
    var command := CommandOf(settings.lib, call).value;
    match call
    case CallCreate(id, url) =>
      EncodedCall(settings.lib, call, url);
      CreatedAgree(settings, tabs, table, call, command.url, now);
    case CallActivate(id) => ActivatedAgree(settings, tabs, table, call, now);
    case CallNavigate(id, url) =>
      EncodedCall(settings.lib, call, url);
      NavigatedAgree(settings, tabs, table, call, command.url, now);
    case CallRemove(id, fallback) => RemovedAgree(settings, tabs, table, call, now);
  }

  // ---------- each event ----------

  lemma UuidIsToken(uuid: string)
    requires ValidUuid(uuid)
    ensures Token(uuid)
  {
    forall i | 0 <= i < |uuid| ensures !IsSpace(uuid[i]) {
      assert if UuidDash(i) then uuid[i] == '-' else HexValue(uuid[i]) >= 0;
    }
  }

  lemma IdIsToken(rows: seq<C.Tab>, id: string)
    requires IdsAreTokens(rows) && C.Has(rows, id)
    ensures Token(id)
  {
  }

  /** What the controller starts can be sent, or fails before it is. */
  lemma StartReady(settings: C.Settings, tabs: C.Tabs, op: C.Op, uuid: string)
    requires Sane(settings.lib) && C.TabsOk(settings, tabs) && IdsAreTokens(tabs.rows) && ValidUuid(uuid) && !C.Has(tabs.rows, uuid)
    requires C.Begin(settings, tabs, op, uuid).Calls?
    ensures var call := C.Begin(settings, tabs, op, uuid).call;
      && NormalizedCall(settings.lib, call)
      && (call.CallCreate? ==> ValidUuid(call.id))
      && (CommandOf(settings.lib, call).Some? ==> WellFormed(CommandOf(settings.lib, call).value))
  {
    C.CallsFit(settings, tabs, op, uuid);
    UuidIsToken(uuid);
    var call := C.Begin(settings, tabs, op, uuid).call;
    hide ValidUuid, NormalizeTabUrl, Sane, Sendable, Token, EncodeUrl;
    match op {
      case CreateOp(v) => assert NormalizeTabUrl(settings.lib, v) == Some(call.url);
      case NavigateOp(id, v) =>
        assert NormalizeTabUrl(settings.lib, v) == Some(call.url);
        IdIsToken(tabs.rows, id);
      case ActivateOp(id) => IdIsToken(tabs.rows, id);
      case RemoveOp(id) =>
        IdIsToken(tabs.rows, id);
        IdIsToken(tabs.rows, call.fallback);
    }
    if CommandOf(settings.lib, call).Some? && (call.CallCreate? || call.CallNavigate?) {
      EncodedCall(settings.lib, call, call.url);
    }
  }

  lemma StartKeeps(settings: C.Settings, y: Coupled, uuid: string)
    requires Sane(settings.lib) && CoupledOk(settings, y) && Enabled(y, Start(uuid))
    ensures CoupledOk(settings, DoStart(settings, y, uuid))
  {
    var chain := C.Next(settings, y.chain, C.Start(uuid));
    C.ChainOkStep(settings, y.chain, C.Start(uuid));
    if chain.inside.Some? {
      StartReady(settings, y.chain.tabs, y.chain.waiting[0], uuid);
      var call := chain.inside.value.call;
      hide ValidUuid, C.Begin, CommandOf, WellFormed, C.ChainOk, Agree, Sane, NormalizedCall, Print, C.Has;
      if CommandOf(settings.lib, call).None? {
        C.ChainOkStep(settings, chain, C.Settle(false, 0));
      }
    }
  }

  /** The reply tells which of the two the native table now agrees with: the controller's tabs, or what it will record. */
  lemma ReadsTable(settings: C.Settings, y: Coupled, media: Media, h: Handling)
    requires Sane(settings.lib) && CoupledOk(settings, y) && y.flight.Asked? && Speakable(media)
    requires h == HandleLine(settings.lib, y.table, y.flight.line, media)
    ensures h.reply.Some? && MatchReply(h.reply.value).Some?
    ensures var reply := MatchReply(h.reply.value).value;
      && reply.request == Digits(y.flight.request)
      && Agree(settings.lib, if reply.ok then C.Record(y.chain.tabs, y.chain.inside.value.call, 0).0 else y.chain.tabs, h.table)
  {
    var call := y.chain.inside.value.call;
    var command := CommandOf(settings.lib, call).value;
    hide Parse, MatchReply, Print, WellFormed, Agree, Sane, Speakable, NormalizedCall, CommandOf, C.Record, Digits, Execute, C.TabsOk,
      C.CallFits, IdsAreTokens;
    CommandRoundTrip(command, y.flight.request);
    ReplyIsAccepted(settings.lib, y.table, y.flight.line, media);
    if Execute(settings.lib, y.table, command, media).Done? {
      DoneAgrees(settings, y.chain.tabs, y.table, call, media, 0);
    }
  }

  lemma ReadsKeeps(settings: C.Settings, y: Coupled, media: Media)
    requires Sane(settings.lib) && CoupledOk(settings, y) && y.flight.Asked? && Speakable(media)
    ensures CoupledOk(settings, DoRuntimeReads(settings, y, media))
  {
    var h := HandleLine(settings.lib, y.table, y.flight.line, media);
    ReadsTable(settings, y, media, h);
    hide HandleLine, MatchReply, Agree, C.Record, C.ChainOk, CommandOf, WellFormed, NormalizedCall, Digits, ValidUuid, Print, Sane, IdsAreTokens;
  }

  lemma AgreeAnyTime(lib: Library, tabs: C.Tabs, call: C.DriverCall, table: Table, now: int)
    requires Agree(lib, C.Record(tabs, call, 0).0, table)
    ensures Agree(lib, C.Record(tabs, call, now).0, table)
  {
    var a, b := C.Record(tabs, call, 0).0, C.Record(tabs, call, now).0;
    if call.CallCreate? {
      forall id ensures C.Has(a.rows, id) <==> C.Has(b.rows, id) {
        AppendedHas(tabs.rows, C.Tab(call.id, PublicTabUrl(call.url), 0), id);
        AppendedHas(tabs.rows, C.Tab(call.id, PublicTabUrl(call.url), now), id);
      }
      hide C.Position, InternalTabUrl, PublicTabUrl;
      assert SameUrls(lib, b.rows, table.tabs) by { hide C.Has; SameUrlsAgain(lib, a.rows, b.rows, table.tabs); }
    }
  }

  lemma SameUrlsAgain(lib: Library, a: seq<C.Tab>, b: seq<C.Tab>, tabs: map<string, seq<Byte>>)
    requires SameUrls(lib, a, tabs) && |a| == |b|
    requires forall i :: 0 <= i < |a| ==> a[i].id == b[i].id && a[i].url == b[i].url
    ensures SameUrls(lib, b, tabs)
  {
    hide InternalTabUrl;
  }

  lemma RecordTokens(settings: C.Settings, tabs: C.Tabs, call: C.DriverCall, now: int)
    requires IdsAreTokens(tabs.rows) && (call.CallCreate? ==> Token(call.id))
    ensures IdsAreTokens(C.Record(tabs, call, now).0.rows)
  {
    hide Token, C.Position;
  }

  lemma HearsKeeps(settings: C.Settings, y: Coupled, now: int)
    requires CoupledOk(settings, y) && Enabled(y, DriverReads(now))
    ensures CoupledOk(settings, DoDriverReads(settings, y, now))
  {
    var call := y.chain.inside.value.call;
    var reply := MatchReply(y.flight.line).value;
    C.ChainOkStep(settings, y.chain, C.Settle(reply.ok, now));
    if call.CallCreate? { UuidIsToken(call.id); }
    hide MatchReply, Digits, C.ChainOk, CallReady, C.Record, Agree, ValidUuid;
    if reply.ok {
      AgreeAnyTime(settings.lib, y.chain.tabs, call, y.table, now);
      RecordTokens(settings, y.chain.tabs, call, now);
    }
  }

  lemma CoupledStep(settings: C.Settings, y: Coupled, e: Event)
    requires Sane(settings.lib) && CoupledOk(settings, y) && Enabled(y, e)
    ensures CoupledOk(settings, Next(settings, y, e))
  {
    hide DoStart, DoRuntimeReads, DoDriverReads, C.TabsOk, C.CallFits, Agree, CommandOf, Print, MatchReply, WellFormed, ValidUuid;
    match e
    case Submit(op) => C.ChainOkStep(settings, y.chain, C.Submit(op));
    case Start(uuid) => StartKeeps(settings, y, uuid);
    case RuntimeReads(media) => ReadsKeeps(settings, y, media);
    case DriverReads(now) => HearsKeeps(settings, y, now);
  }

  // ---------- whole runs ----------

  ghost predicate Legal(settings: C.Settings, y: Coupled, es: seq<Event>)
    decreases |es|
  {
    es == [] || (Enabled(y, es[0]) && Legal(settings, Next(settings, y, es[0]), es[1..]))
  }

  ghost function Exec(settings: C.Settings, y: Coupled, es: seq<Event>): Coupled
    requires Legal(settings, y, es)
    decreases |es|
  {
    if es == [] then y else Exec(settings, Next(settings, y, es[0]), es[1..])
  }

  lemma {:induction false} CoupledRun(settings: C.Settings, y: Coupled, es: seq<Event>)
    requires Sane(settings.lib) && CoupledOk(settings, y) && Legal(settings, y, es)
    ensures CoupledOk(settings, Exec(settings, y, es))
    decreases |es|
  {
    hide CoupledOk, Next, Enabled, Sane;
    if es != [] {
      CoupledStep(settings, y, es[0]);
      CoupledRun(settings, Next(settings, y, es[0]), es[1..]);
    }
  }

  /** Both sides start with the one tab of the session, at the same address. */
  function InitialCoupled(lib: Library, id: string, url: string, now: int): Coupled {
    Coupled(C.Fresh(C.Tabs([C.Tab(id, PublicTabUrl(url), now)], id)), Table(map[id := lib.utf8(InternalTabUrl(PublicTabUrl(url)))], id),
            Quiet, 1, false)
  }

  lemma InitiallyCoupled(settings: C.Settings, id: string, url: string, now: int)
    requires 1 <= settings.maximumTabs && Token(id)
    ensures CoupledOk(settings, InitialCoupled(settings.lib, id, url, now))
  {
  }

  /**
   The coupling theorem. Whatever is submitted and whatever fails, whenever no command is under way both tables hold the
   same one to four tabs, at the same addresses up to the home alias, with the same active tab; and no reply is mistaken.
   */
  lemma Coupling(settings: C.Settings, id: string, url: string, now: int, es: seq<Event>)
    requires Sane(settings.lib) && 1 <= settings.maximumTabs <= NATIVE_MAXIMUM_TABS && Token(id)
    requires Legal(settings, InitialCoupled(settings.lib, id, url, now), es)
    ensures var y := Exec(settings, InitialCoupled(settings.lib, id, url, now), es);
      && !y.derailed
      && (y.flight.Quiet? <==> y.chain.inside.None?)
      && (y.flight.Quiet? ==> Agree(settings.lib, y.chain.tabs, y.table) && TableOk(y.table) && C.TabsOk(settings, y.chain.tabs))
  {
    InitiallyCoupled(settings, id, url, now);
    CoupledRun(settings, InitialCoupled(settings.lib, id, url, now), es);
    hide Exec, Legal, SameUrls, Sane, C.Position, CallReady, MatchReply;
  }

  /** Along every run, a command is refused only for its URL or by the media pipeline. */
  lemma RefusalsAreHonest(settings: C.Settings, id: string, url: string, now: int, es: seq<Event>, media: Media)
    requires Sane(settings.lib) && 1 <= settings.maximumTabs <= NATIVE_MAXIMUM_TABS && Token(id)
    requires Legal(settings, InitialCoupled(settings.lib, id, url, now), es)
    requires Exec(settings, InitialCoupled(settings.lib, id, url, now), es).flight.Asked?
    ensures var y := Exec(settings, InitialCoupled(settings.lib, id, url, now), es);
      && y.chain.inside.Some? && CommandOf(settings.lib, y.chain.inside.value.call).Some?
      && var command := CommandOf(settings.lib, y.chain.inside.value.call).value;
      && Parse(y.flight.line) == Run(Digits(y.flight.request), command)
      && (Execute(settings.lib, y.table, command, media).Done? <==>
            ((command.Create? || command.Navigate? ==> settings.lib.nativeAccepts(command.url)) && (command.Create? ==> media.MediaOk?)))
  {
    InitiallyCoupled(settings, id, url, now);
    CoupledRun(settings, InitialCoupled(settings.lib, id, url, now), es);
    var y := Exec(settings, InitialCoupled(settings.lib, id, url, now), es);
    hide Exec, Legal, Sane, C.Position, MatchReply, Agree, Execute, CommandOf, Parse, Print, Digits, WellFormed;
    CommandRoundTrip(CommandOf(settings.lib, y.chain.inside.value.call).value, y.flight.request);
    NeverMisjudged(settings, y.chain.tabs, y.table, y.chain.inside.value.call, media);
  }

  // ---------- why there must be no timeout ----------

  /**
   A command that the runtime does after the controller has given it up leaves the two tables apart, always, but for a
   navigation to the address the tab already had.
   */
  lemma LateOkDiverges(settings: C.Settings, tabs: C.Tabs, table: Table, call: C.DriverCall, media: Media)
    requires Agree(settings.lib, tabs, table) && C.TabsOk(settings, tabs) && C.CallFits(settings, tabs, call)
    requires CommandOf(settings.lib, call).Some?
    requires Execute(settings.lib, table, CommandOf(settings.lib, call).value, media).Done?
    ensures Agree(settings.lib, tabs, Execute(settings.lib, table, CommandOf(settings.lib, call).value, media).table) <==>
              call.CallNavigate? && CommandOf(settings.lib, call).value.url == table.tabs[call.id]
  {
    hide ValidUuid, EncodeUrl;
    var command := CommandOf(settings.lib, call).value;
    var after := Execute(settings.lib, table, command, media).table;
    if call.CallNavigate? {
      var k := C.Position(tabs.rows, call.id);
      hide C.Position;
      assert table.tabs[call.id] == settings.lib.utf8(InternalTabUrl(tabs.rows[k].url));
      assert after.tabs[call.id] == command.url;
      if command.url == table.tabs[call.id] {
        assert after.tabs == table.tabs;
      }
    }
  }
}
