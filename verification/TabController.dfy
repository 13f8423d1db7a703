/**
 The tab controller of session/tab-control.mjs: its operations, each of which may suspend once, inside the driver; and the
 queue they come to, one at a time in the order of submission. TabPromises shows that the chain of promises is this queue.
 */
module TabController {
  import opened Wrappers
  import opened TabUrls

  datatype Tab = Tab(id: string, url: string, createdAt: int)

  /** The tabs in the insertion order of the map, and the active one. */
  datatype Tabs = Tabs(rows: seq<Tab>, active: string)

  datatype Op =
    | CreateOp(url: Option<string>)
    | ActivateOp(id: string)
    | NavigateOp(id: string, url: Option<string>)
    | RemoveOp(id: string)

  datatype Failure = TabLimitReached | TabNotFound | TabMinimumReached | TabUrlInvalid | DriverFailed

  datatype Outcome = Failed(failure: Failure) | Returned(tab: Tab, active: bool) | Removed

  datatype DriverCall =
    | CallCreate(id: string, url: string)
    | CallActivate(id: string)
    | CallNavigate(id: string, url: string)
    | CallRemove(id: string, fallback: string)

  datatype Begun = Over(outcome: Outcome) | Calls(call: DriverCall)

  datatype Settings = Settings(maximumTabs: nat, lib: Library)

  // ---------- the map of tabs ----------

  /** The position of a tab, or the number of tabs. */
  function Position(rows: seq<Tab>, id: string): (k: nat)
    ensures k <= |rows|
    ensures k < |rows| ==> rows[k].id == id
  {
    if rows == [] || rows[0].id == id then 0 else 1 + Position(rows[1..], id)
  }

  predicate Has(rows: seq<Tab>, id: string) {
    Position(rows, id) < |rows|
  }

  function Drop(rows: seq<Tab>, id: string): seq<Tab> {
    if Has(rows, id) then rows[..Position(rows, id)] + rows[Position(rows, id) + 1..] else rows
  }

  /** The first tab that is not this one. */
  function FirstOther(rows: seq<Tab>, id: string): string {
    if rows == [] then "" else if rows[0].id != id then rows[0].id else FirstOther(rows[1..], id)
  }

  // ---------- one operation ----------

  function Begin(settings: Settings, tabs: Tabs, op: Op, uuid: string): Begun {
    match op
    case CreateOp(url) =>
      if |tabs.rows| >= settings.maximumTabs then Over(Failed(TabLimitReached))
      else (
        match NormalizeTabUrl(settings.lib, url)
        case None => Over(Failed(TabUrlInvalid))
        case Some(u) => Calls(CallCreate(uuid, u)))
    case ActivateOp(id) =>
      if !Has(tabs.rows, id) then Over(Failed(TabNotFound))
      else if id == tabs.active then Over(Returned(tabs.rows[Position(tabs.rows, id)], true))
      else Calls(CallActivate(id))
    case NavigateOp(id, url) =>
      if !Has(tabs.rows, id) then Over(Failed(TabNotFound))
      else (
        match NormalizeTabUrl(settings.lib, url)
        case None => Over(Failed(TabUrlInvalid))
        case Some(u) => Calls(CallNavigate(id, u)))
    case RemoveOp(id) =>
      if !Has(tabs.rows, id) then Over(Failed(TabNotFound))
      else if |tabs.rows| == 1 then Over(Failed(TabMinimumReached))
      else Calls(CallRemove(id, if id == tabs.active then FirstOther(tabs.rows, id) else tabs.active))
  }

  /** What the controller records when the driver call has succeeded. */
  function Record(tabs: Tabs, call: DriverCall, now: int): (Tabs, Outcome) {
    match call
    case CallCreate(id, url) =>
      var tab := Tab(id, PublicTabUrl(url), now);
      (Tabs(tabs.rows + [tab], id), Returned(tab, true))
    case CallActivate(id) =>
      if Has(tabs.rows, id) then (tabs.(active := id), Returned(tabs.rows[Position(tabs.rows, id)], true))
      else (tabs, Failed(TabNotFound))
    case CallNavigate(id, url) =>
      if Has(tabs.rows, id)
      then
        var k := Position(tabs.rows, id);
        var tab := tabs.rows[k].(url := PublicTabUrl(url));
        (tabs.(rows := tabs.rows[k := tab]), Returned(tab, id == tabs.active))
      else (tabs, Failed(TabNotFound))
    case CallRemove(id, fallback) =>
      (Tabs(Drop(tabs.rows, id), if id == tabs.active then fallback else tabs.active), Removed)
  }

  /** What an operation met: the id drawn, whether its driver call succeeded, and the time then. */
  datatype Answer = Answer(uuid: string, driverOk: bool, now: int)

  /** The sequential specification of one operation. */
  function Perform(settings: Settings, tabs: Tabs, op: Op, answer: Answer): (Tabs, Outcome) {
    match Begin(settings, tabs, op, answer.uuid)
    case Over(outcome) => (tabs, outcome)
    case Calls(call) => if answer.driverOk then Record(tabs, call, answer.now) else (tabs, Failed(DriverFailed))
  }

  lemma FailedIsNoOp(settings: Settings, tabs: Tabs, op: Op, answer: Answer)
    ensures var (after, outcome) := Perform(settings, tabs, op, answer); outcome.Failed? ==> after == tabs
  {
  }

  // ---------- the queue of operations ----------

  datatype Entry = Entry(op: Op, answer: Answer, outcome: Outcome)

  datatype Inside = Inside(op: Op, uuid: string, call: DriverCall)

  /** `submitted` and `history` are ledgers of what was asked and what came of it. */
  datatype Chain = Chain(
    tabs: Tabs,
    waiting: seq<Op>,
    inside: Option<Inside>,
    submitted: seq<Op>,
    history: seq<Entry>)

  datatype Event =
    | Submit(op: Op)
    | Start(uuid: string)
    | Settle(driverOk: bool, now: int)

  predicate Enabled(k: Chain, e: Event) {
    match e
    case Submit(_) => true
    case Start(uuid) => k.inside.None? && k.waiting != [] && !Has(k.tabs.rows, uuid)
    case Settle(_, _) => k.inside.Some?
  }

  function Next(settings: Settings, k: Chain, e: Event): Chain
    requires Enabled(k, e)
  {
    match e
    case Submit(op) => k.(waiting := k.waiting + [op], submitted := k.submitted + [op])
    case Start(uuid) =>
      var op := k.waiting[0];
      var rest := k.(waiting := k.waiting[1..]);
      (match Begin(settings, k.tabs, op, uuid)
       case Over(outcome) => rest.(history := k.history + [Entry(op, Answer(uuid, false, 0), outcome)])
       case Calls(call) => rest.(inside := Some(Inside(op, uuid, call))))
    case Settle(driverOk, now) =>
      var Inside(op, uuid, call) := k.inside.value;
      var (tabs, outcome) := if driverOk then Record(k.tabs, call, now) else (k.tabs, Failed(DriverFailed));
      k.(tabs := tabs, inside := None, history := k.history + [Entry(op, Answer(uuid, driverOk, now), outcome)])
  }

  ghost predicate Legal(settings: Settings, k: Chain, es: seq<Event>)
    decreases |es|
  {
    es == [] || (Enabled(k, es[0]) && Legal(settings, Next(settings, k, es[0]), es[1..]))
  }

  ghost function Exec(settings: Settings, k: Chain, es: seq<Event>): Chain
    requires Legal(settings, k, es)
    decreases |es|
  {
    if es == [] then k else Exec(settings, Next(settings, k, es[0]), es[1..])
  }

  function Fresh(tabs: Tabs): Chain {
    Chain(tabs, [], None, [], [])
  }

  // ---------- linearizability ----------

  /** The sequential run of the recorded operations. */
  function Fold(settings: Settings, initial: Tabs, history: seq<Entry>): Tabs {
    if history == [] then initial
    else
      var n := |history| - 1;
      Perform(settings, Fold(settings, initial, history[..n]), history[n].op, history[n].answer).0
  }

  ghost predicate Explained(settings: Settings, initial: Tabs, history: seq<Entry>) {
    forall i :: 0 <= i < |history| ==> ExplainedAt(settings, initial, history, i)
  }

  ghost predicate ExplainedAt(settings: Settings, initial: Tabs, history: seq<Entry>, i: nat)
    requires i < |history|
  {
    history[i].outcome == Perform(settings, Fold(settings, initial, history[..i]), history[i].op, history[i].answer).1
  }

  function Ops(history: seq<Entry>): seq<Op> {
    seq(|history|, i requires 0 <= i < |history| => history[i].op)
  }

  function InsideOps(k: Chain): seq<Op> {
    match k.inside
    case None => []
    case Some(i) => [i.op]
  }

  /**
   The controller is linearizable in submission order: what has come out and the tabs are those of the sequential
   specification, operation by operation in the order of submission, and at most one operation is in the driver, the
   next one in that order, with the tabs as it found them.
   */
  ghost predicate Linearized(settings: Settings, initial: Tabs, k: Chain) {
    && k.tabs == Fold(settings, initial, k.history)
    && Explained(settings, initial, k.history)
    && k.submitted == Ops(k.history) + InsideOps(k) + k.waiting
    && (k.inside.Some? ==> Begin(settings, k.tabs, k.inside.value.op, k.inside.value.uuid) == Calls(k.inside.value.call))
  }

  lemma FoldOne(settings: Settings, initial: Tabs, history: seq<Entry>, entry: Entry)
    requires Explained(settings, initial, history)
    requires var (tabs, outcome) := Perform(settings, Fold(settings, initial, history), entry.op, entry.answer); outcome == entry.outcome
    ensures Fold(settings, initial, history + [entry]) ==
              Perform(settings, Fold(settings, initial, history), entry.op, entry.answer).0
    ensures Explained(settings, initial, history + [entry])
    ensures Ops(history + [entry]) == Ops(history) + [entry.op]
  {
    hide Perform;
    var all := history + [entry];
    assert all[..|history|] == history;
    forall i | 0 <= i < |all| ensures ExplainedAt(settings, initial, all, i) {
      if i < |history| {
        assert ExplainedAt(settings, initial, history, i);
        assert all[..i] == history[..i];
      }
    }
  }

  lemma LinearizedStep(settings: Settings, initial: Tabs, k: Chain, e: Event)
    requires Linearized(settings, initial, k) && Enabled(k, e)
    ensures Linearized(settings, initial, Next(settings, k, e))
  {
    hide Begin, Record, Explained, Fold, Has;
    var t := Next(settings, k, e);
    match e
    case Submit(op) =>
      assert t.submitted == Ops(t.history) + InsideOps(t) + t.waiting;
    case Start(uuid) =>
      var op := k.waiting[0];
      match Begin(settings, k.tabs, op, uuid) {
        case Over(outcome) => FoldOne(settings, initial, k.history, Entry(op, Answer(uuid, false, 0), outcome));
        case Calls(call) =>
      }
      assert k.waiting == [op] + k.waiting[1..];
    case Settle(driverOk, now) =>
      var i := k.inside.value;
      FoldOne(settings, initial, k.history, t.history[|k.history|]);
  }

  lemma {:induction false} LinearizedRun(settings: Settings, initial: Tabs, k: Chain, es: seq<Event>)
    requires Linearized(settings, initial, k) && Legal(settings, k, es)
    ensures Linearized(settings, initial, Exec(settings, k, es))
    decreases |es|
  {
    hide Linearized, Next, Enabled;
    if es != [] {
      LinearizedStep(settings, initial, k, es[0]);
      LinearizedRun(settings, initial, Next(settings, k, es[0]), es[1..]);
    }
  }

  /** For every interleaving of submissions, starts and driver completions of the queue. */
  lemma Linearizability(settings: Settings, initial: Tabs, es: seq<Event>)
    requires Legal(settings, Fresh(initial), es)
    ensures Linearized(settings, initial, Exec(settings, Fresh(initial), es))
  {
    LinearizedRun(settings, initial, Fresh(initial), es);
  }

  // ---------- the tabs themselves ----------

  ghost predicate Distinct(rows: seq<Tab>) {
    forall i, j :: 0 <= i < j < |rows| ==> rows[i].id != rows[j].id
  }

  /** Between one tab and the limit, distinct ids, and the active tab is one of them. */
  ghost predicate TabsOk(settings: Settings, tabs: Tabs) {
    1 <= |tabs.rows| <= settings.maximumTabs && Distinct(tabs.rows) && Has(tabs.rows, tabs.active)
  }

  lemma {:induction false} PositionFinds(rows: seq<Tab>, id: string)
    ensures Has(rows, id) <==> exists i :: 0 <= i < |rows| && rows[i].id == id
  {
    if rows != [] {
      PositionFinds(rows[1..], id);
      if exists i :: 0 <= i < |rows| && rows[i].id == id {
        var i :| 0 <= i < |rows| && rows[i].id == id;
        assert i > 0 ==> rows[1..][i - 1].id == id;
      }
    }
  }

  /** In a map there is one position only. */
  lemma {:induction false} PositionIs(rows: seq<Tab>, k: nat)
    requires Distinct(rows) && k < |rows|
    ensures Position(rows, rows[k].id) == k
  {
    if k > 0 {
      PositionIs(rows[1..], k - 1);
      assert rows[1..][k - 1] == rows[k];
      assert rows[0].id != rows[k].id;
    }
  }

  lemma {:induction false} OtherExists(rows: seq<Tab>, id: string)
    requires exists i :: 0 <= i < |rows| && rows[i].id != id
    ensures FirstOther(rows, id) != id && exists j :: 0 <= j < |rows| && rows[j].id == FirstOther(rows, id)
  {
    var i :| 0 <= i < |rows| && rows[i].id != id;
    if rows[0].id == id {
      assert rows[1..][i - 1].id != id;
      OtherExists(rows[1..], id);
      var j :| 0 <= j < |rows[1..]| && rows[1..][j].id == FirstOther(rows[1..], id);
      assert rows[j + 1].id == FirstOther(rows, id);
    }
  }

  function Without(rows: seq<Tab>, k: nat): seq<Tab>
    requires k < |rows|
  {
    rows[..k] + rows[k + 1..]
  }

  lemma WithoutAt(rows: seq<Tab>, k: nat)
    requires k < |rows|
    ensures |Without(rows, k)| == |rows| - 1
    ensures forall i :: 0 <= i < |rows| - 1 ==> Without(rows, k)[i] == rows[if i < k then i else i + 1]
    ensures forall i :: 0 <= i < |rows| && i != k ==> rows[i] == Without(rows, k)[if i < k then i else i - 1]
  {
    var after := Without(rows, k);
    forall i | 0 <= i < |rows| - 1 ensures after[i] == rows[if i < k then i else i + 1] {
      if i < k { assert rows[..k][i] == rows[i]; } else { assert rows[k + 1..][i - k] == rows[i + 1]; }
    }
    hide Without;
    forall i | 0 <= i < |rows| && i != k ensures rows[i] == after[if i < k then i else i - 1] {
      assert after[if i < k then i else i - 1] == rows[if i < k then i else i];
    }
  }

  lemma WithoutDistinct(rows: seq<Tab>, k: nat)
    requires Distinct(rows) && k < |rows|
    ensures Distinct(Without(rows, k))
  {
    WithoutAt(rows, k);
    hide Without;
  }

  lemma {:induction false} HasAt(rows: seq<Tab>, i: nat)
    requires i < |rows|
    ensures Has(rows, rows[i].id)
  {
    if i > 0 { HasAt(rows[1..], i - 1); }
  }

  lemma WithoutHas(rows: seq<Tab>, k: nat, other: string)
    requires Distinct(rows) && k < |rows|
    ensures Has(Without(rows, k), other) <==> Has(rows, other) && other != rows[k].id
  {
    hide Without;
    var after := Without(rows, k);
    WithoutAt(rows, k);
    if Has(after, other) {
      var p := Position(after, other);
      HasAt(rows, if p < k then p else p + 1);
    }
    if Has(rows, other) && other != rows[k].id {
      var p := Position(rows, other);
      HasAt(after, if p < k then p else p - 1);
    }
  }

  lemma Dropped(rows: seq<Tab>, id: string, other: string)
    requires Distinct(rows) && Has(rows, id)
    ensures Distinct(Drop(rows, id)) && |Drop(rows, id)| == |rows| - 1
    ensures Has(Drop(rows, id), other) <==> Has(rows, other) && other != id
  {
    var k := Position(rows, id);
    assert Drop(rows, id) == Without(rows, k);
    WithoutDistinct(rows, k);
    WithoutHas(rows, k, other);
  }

  /** What the operation inside the driver can rely on. */
  ghost predicate CallFits(settings: Settings, tabs: Tabs, call: DriverCall) {
    match call
    case CallCreate(id, _) => !Has(tabs.rows, id) && |tabs.rows| < settings.maximumTabs
    case CallActivate(id) => Has(tabs.rows, id) && id != tabs.active
    case CallNavigate(id, _) => Has(tabs.rows, id)
    case CallRemove(id, fallback) =>
      Has(tabs.rows, id) && Has(tabs.rows, fallback) && fallback != id && |tabs.rows| > 1 && (id != tabs.active ==> fallback == tabs.active)
  }

  lemma CallsFit(settings: Settings, tabs: Tabs, op: Op, uuid: string)
    requires TabsOk(settings, tabs) && !Has(tabs.rows, uuid)
    ensures var b := Begin(settings, tabs, op, uuid); b.Calls? ==> CallFits(settings, tabs, b.call)
  {
    hide NormalizeTabUrl;
    if op.RemoveOp? && Has(tabs.rows, op.id) && |tabs.rows| > 1 && op.id == tabs.active {
      assert tabs.rows[0].id != tabs.rows[1].id;
      OtherExists(tabs.rows, op.id);
      PositionFinds(tabs.rows, FirstOther(tabs.rows, op.id));
    }
  }

  lemma RecordKeeps(settings: Settings, tabs: Tabs, call: DriverCall, now: int)
    requires TabsOk(settings, tabs) && CallFits(settings, tabs, call)
    ensures TabsOk(settings, Record(tabs, call, now).0)
  {
    var after := Record(tabs, call, now).0;
    match call
    case CallCreate(id, url) =>
      PositionFinds(tabs.rows, id);
      PositionFinds(after.rows, id);
      assert after.rows[|tabs.rows|].id == id;
    case CallActivate(id) =>
    case CallNavigate(id, url) =>
      PositionFinds(tabs.rows, tabs.active);
      PositionFinds(after.rows, tabs.active);
      assert forall i :: 0 <= i < |tabs.rows| ==> after.rows[i].id == tabs.rows[i].id;
    case CallRemove(id, fallback) =>
      Dropped(tabs.rows, id, fallback);
      Dropped(tabs.rows, id, tabs.active);
  }

  ghost predicate ChainOk(settings: Settings, k: Chain) {
    TabsOk(settings, k.tabs) && (k.inside.Some? ==> CallFits(settings, k.tabs, k.inside.value.call))
  }

  lemma ChainOkStep(settings: Settings, k: Chain, e: Event)
    requires ChainOk(settings, k) && Enabled(k, e)
    ensures ChainOk(settings, Next(settings, k, e))
  {
    hide Record, Begin, TabsOk, CallFits, Has;
    match e
    case Submit(op) =>
    case Start(uuid) => CallsFit(settings, k.tabs, k.waiting[0], uuid);
    case Settle(driverOk, now) => RecordKeeps(settings, k.tabs, k.inside.value.call, now);
  }

  lemma {:induction false} ChainOkRun(settings: Settings, k: Chain, es: seq<Event>)
    requires ChainOk(settings, k) && Legal(settings, k, es)
    ensures ChainOk(settings, Exec(settings, k, es))
    decreases |es|
  {
    hide ChainOk, Next, Enabled;
    if es != [] {
      ChainOkStep(settings, k, es[0]);
      ChainOkRun(settings, Next(settings, k, es[0]), es[1..]);
    }
  }

  // ---------- list ----------

  datatype Row = Row(tab: Tab, active: bool)

  function Listing(tabs: Tabs): seq<Row> {
    seq(|tabs.rows|, i requires 0 <= i < |tabs.rows| => Row(tabs.rows[i], tabs.rows[i].id == tabs.active))
  }

  /** At every moment of every run the list shows exactly one active tab. */
  lemma OneActive(settings: Settings, tabs: Tabs)
    requires TabsOk(settings, tabs)
    ensures var rows := Listing(tabs);
      exists k :: 0 <= k < |rows| && rows[k].active && forall j :: 0 <= j < |rows| && rows[j].active ==> j == k
  {
    var rows, k := Listing(tabs), Position(tabs.rows, tabs.active);
    assert rows[k].active;
    forall j | 0 <= j < |rows| && rows[j].active ensures j == k {
      PositionIs(tabs.rows, j);
    }
  }
}
