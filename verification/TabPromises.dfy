/**
 The serialisation of session/tab-control.mjs: every operation is chained on the promise `#operation`, and its own result,
 with rejections caught, becomes the next `#operation`. Nothing here forbids two operations in the driver, or any order of
 starting: that they are never two and never out of order is what the chain achieves.
 */
module TabPromises {
  import opened Wrappers
  import opened TabUrls
  import C = TabController

  datatype Status = Waiting | InDriver(uuid: string, call: C.DriverCall) | Fulfilled(entry: C.Entry) | Rejected(entry: C.Entry)

  /**
   The promise `result` of one operation: `#operation.then(operation, operation)`. `after` is the result whose caught form
   was `#operation` at the time, None for the promise that was resolved from the start; `caught` says that
   `result.catch(() => {})` has settled.
   */
  datatype Promise = Promise(op: C.Op, after: Option<nat>, status: Status, caught: bool)

  /** `operation` is the result whose caught form is `#operation` now. `started` and `settled` are ledgers of the order. */
  datatype Promises = Promises(
    tabs: C.Tabs,
    results: seq<Promise>,
    operation: Option<nat>,
    started: seq<nat>,
    settled: seq<nat>)

  datatype Event =
    | Submit(op: C.Op)
    | Run(n: nat, uuid: string)
    | Settle(n: nat, driverOk: bool, now: int)
    | Catch(n: nat)

  predicate IsSettled(status: Status) {
    status.Fulfilled? || status.Rejected?
  }

  /** The promise an operation was chained on has settled, so its callback can run. */
  predicate Released(p: Promises, n: nat)
    requires n < |p.results|
  {
    match p.results[n].after
    case None => true
    case Some(m) => m < |p.results| && p.results[m].caught
  }

  predicate Enabled(p: Promises, e: Event) {
    match e
    case Submit(_) => true
    case Run(n, uuid) => n < |p.results| && p.results[n].status == Waiting && Released(p, n) && !C.Has(p.tabs.rows, uuid)
    case Settle(n, _, _) => n < |p.results| && p.results[n].status.InDriver?
    case Catch(n) => n < |p.results| && IsSettled(p.results[n].status) && !p.results[n].caught
  }

  /** A thrown error rejects the result, a returned value fulfils it. */
  function Concluded(entry: C.Entry): Status {
    if entry.outcome.Failed? then Rejected(entry) else Fulfilled(entry)
  }

  function WithStatus(p: Promises, n: nat, status: Status): Promises
    requires n < |p.results|
  {
    p.(results := p.results[n := p.results[n].(status := status)])
  }

  function Next(settings: C.Settings, p: Promises, e: Event): Promises
    requires Enabled(p, e)
  {
    match e
    case Submit(op) =>
      p.(results := p.results + [Promise(op, p.operation, Waiting, false)], operation := Some(|p.results|))
    case Run(n, uuid) =>
      var op := p.results[n].op;
      var q := p.(started := p.started + [n]);
      (match C.Begin(settings, p.tabs, op, uuid)
       case Over(outcome) =>
         WithStatus(q, n, Concluded(C.Entry(op, C.Answer(uuid, false, 0), outcome))).(settled := p.settled + [n])
       case Calls(call) => WithStatus(q, n, InDriver(uuid, call)))
    case Settle(n, driverOk, now) =>
      var op := p.results[n].op;
      var InDriver(uuid, call) := p.results[n].status;
      var (tabs, outcome) := if driverOk then C.Record(p.tabs, call, now) else (p.tabs, C.Failed(C.DriverFailed));
      WithStatus(p, n, Concluded(C.Entry(op, C.Answer(uuid, driverOk, now), outcome))).(tabs := tabs, settled := p.settled + [n])
    case Catch(n) => p.(results := p.results[n := p.results[n].(caught := true)])
  }

  function Fresh(tabs: C.Tabs): Promises {
    Promises(tabs, [], None, [], [])
  }

  // ---------- what the chain achieves ----------

  ghost predicate Linked(p: Promises) {
    && p.operation == (if p.results == [] then None else Some(|p.results| - 1))
    && (forall n :: 0 <= n < |p.results| ==> p.results[n].after == if n == 0 then None else Some(n - 1))
  }

  /** Whatever has been started has only settled and caught results before it. */
  ghost predicate InTurn(p: Promises) {
    && (forall n :: 0 <= n < |p.results| && p.results[n].caught ==> IsSettled(p.results[n].status))
    && (forall i, j :: 0 <= i < j < |p.results| && p.results[j].status != Waiting ==> p.results[i].caught)
  }

  /** The ledgers are 0, 1, 2 and so on, up to what has been started and settled. */
  ghost predicate Ordered(p: Promises) {
    && |p.settled| <= |p.started| <= |p.results| && |p.started| <= |p.settled| + 1
    && (forall i :: 0 <= i < |p.started| ==> p.started[i] == i)
    && (forall i :: 0 <= i < |p.settled| ==> p.settled[i] == i)
    && (forall n :: 0 <= n < |p.results| ==> (p.results[n].status != Waiting <==> n < |p.started|))
    && (forall n :: 0 <= n < |p.results| ==> (IsSettled(p.results[n].status) <==> n < |p.settled|))
  }

  ghost predicate ChainShape(p: Promises) {
    Linked(p) && InTurn(p) && Ordered(p)
  }

  /** The next operation to run is the one after all that have settled. */
  lemma RunsNext(p: Promises, n: nat)
    requires ChainShape(p) && n < |p.results| && p.results[n].status == Waiting && Released(p, n)
    ensures n == |p.started| == |p.settled|
    ensures forall i :: 0 <= i < n ==> p.results[i].caught
  {
    if n > 0 {
      assert p.results[n - 1].caught;
      assert IsSettled(p.results[n - 1].status);
    }
  }

  lemma SettlesNext(p: Promises, n: nat)
    requires ChainShape(p) && n < |p.results| && p.results[n].status.InDriver?
    ensures n == |p.settled| && |p.started| == n + 1
  {
  }

  lemma ShapeStep(settings: C.Settings, p: Promises, e: Event)
    requires ChainShape(p) && Enabled(p, e)
    ensures ChainShape(Next(settings, p, e))
  {
    hide C.Begin, C.Record, C.Has;
    match e
    case Submit(op) =>
      assert p.(results := p.results + [Promise(op, p.operation, Waiting, false)], operation := Some(|p.results|)) == Next(settings, p, e);
    case Run(n, uuid) =>
      RunShape(settings, p, n, uuid);
      hide ChainShape, Next;
    case Settle(n, driverOk, now) =>
      SettleShape(settings, p, n, driverOk, now);
      hide ChainShape, Next;
    case Catch(n) =>
  }

  lemma RunShape(settings: C.Settings, p: Promises, n: nat, uuid: string)
    requires ChainShape(p) && Enabled(p, Run(n, uuid))
    ensures ChainShape(Next(settings, p, Run(n, uuid)))
  {
    hide C.Begin, C.Has;
    RunsNext(p, n);
  }

  lemma SettleShape(settings: C.Settings, p: Promises, n: nat, driverOk: bool, now: int)
    requires ChainShape(p) && Enabled(p, Settle(n, driverOk, now))
    ensures ChainShape(Next(settings, p, Settle(n, driverOk, now)))
  {
    hide C.Record;
    SettlesNext(p, n);
  }

  /** At most one operation is in the driver, and operations start and settle in the order of their submission. */
  lemma OneAtATime(p: Promises, i: nat, j: nat)
    requires ChainShape(p) && i < |p.results| && j < |p.results|
    ensures p.results[i].status.InDriver? && p.results[j].status.InDriver? ==> i == j
    ensures i < j && p.results[j].status != Waiting ==> IsSettled(p.results[i].status)
  {
  }

  /**
   No rejection blocks the chain: when nothing is in the driver and something waits, the first that waits can run, or can
   once the result before it, fulfilled or rejected, has been caught.
   */
  lemma AlwaysReleased(settings: C.Settings, p: Promises)
    requires ChainShape(p) && |p.started| < |p.results| && forall n :: 0 <= n < |p.results| ==> !p.results[n].status.InDriver?
    ensures var n := |p.started|;
      && p.results[n].status == Waiting
      && (Released(p, n) || (n > 0 && Enabled(p, Catch(n - 1)) && Released(Next(settings, p, Catch(n - 1)), n)))
  {
    var n := |p.started|;
    if n > 0 {
      assert p.results[n - 1].status != Waiting;
    }
  }

  // ---------- the chain is the queue ----------

  function OpsFrom(results: seq<Promise>, k: nat): seq<C.Op>
    requires k <= |results|
  {
    seq(|results| - k, i requires 0 <= i < |results| - k => results[k + i].op)
  }

  /** The entries of the results that have settled, the first k. */
  function Entries(results: seq<Promise>, k: nat): seq<C.Entry>
    requires k <= |results| && forall i :: 0 <= i < k ==> IsSettled(results[i].status)
  {
    seq(k, i requires 0 <= i < k <= |results| && IsSettled(results[i].status) => results[i].status.entry)
  }

  ghost function QueueOf(p: Promises): C.Chain
    requires ChainShape(p)
  {
    var k := |p.settled|;
    C.Chain(p.tabs, OpsFrom(p.results, |p.started|),
            if k < |p.started| then Some(C.Inside(p.results[k].op, p.results[k].status.uuid, p.results[k].status.call)) else None,
            OpsFrom(p.results, 0), Entries(p.results, k))
  }

  lemma SubmitIsQueued(settings: C.Settings, p: Promises, op: C.Op)
    requires ChainShape(p) && ChainShape(Next(settings, p, Submit(op)))
    ensures QueueOf(Next(settings, p, Submit(op))) == C.Next(settings, QueueOf(p), C.Submit(op))
  {
    var t := Next(settings, p, Submit(op));
    assert OpsFrom(t.results, |p.started|) == OpsFrom(p.results, |p.started|) + [op];
    assert OpsFrom(t.results, 0) == OpsFrom(p.results, 0) + [op];
    assert Entries(t.results, |p.settled|) == Entries(p.results, |p.settled|);
  }

  lemma RunIsQueued(settings: C.Settings, p: Promises, n: nat, uuid: string)
    requires ChainShape(p) && Enabled(p, Run(n, uuid)) && ChainShape(Next(settings, p, Run(n, uuid)))
    ensures C.Enabled(QueueOf(p), C.Start(uuid))
    ensures QueueOf(Next(settings, p, Run(n, uuid))) == C.Next(settings, QueueOf(p), C.Start(uuid))
  {
    hide C.Begin, C.Has;
    RunsNext(p, n);
    var t := Next(settings, p, Run(n, uuid));
    assert OpsFrom(p.results, n)[0] == p.results[n].op;
    assert OpsFrom(t.results, n + 1) == OpsFrom(p.results, n)[1..];
    assert OpsFrom(t.results, 0) == OpsFrom(p.results, 0);
    assert Entries(t.results, n) == Entries(p.results, n);
    if |t.settled| > n {
      assert Entries(t.results, n + 1) == Entries(p.results, n) + [t.results[n].status.entry];
    }
  }

  lemma SettleIsQueued(settings: C.Settings, p: Promises, n: nat, driverOk: bool, now: int)
    requires ChainShape(p) && Enabled(p, Settle(n, driverOk, now)) && ChainShape(Next(settings, p, Settle(n, driverOk, now)))
    ensures C.Enabled(QueueOf(p), C.Settle(driverOk, now))
    ensures QueueOf(Next(settings, p, Settle(n, driverOk, now))) == C.Next(settings, QueueOf(p), C.Settle(driverOk, now))
  {
    hide C.Record;
    SettlesNext(p, n);
    var t := Next(settings, p, Settle(n, driverOk, now));
    assert OpsFrom(t.results, n + 1) == OpsFrom(p.results, n + 1);
    assert OpsFrom(t.results, 0) == OpsFrom(p.results, 0);
    assert Entries(t.results, n + 1) == Entries(p.results, n) + [t.results[n].status.entry];
  }

  lemma CatchIsUnseen(settings: C.Settings, p: Promises, n: nat)
    requires ChainShape(p) && Enabled(p, Catch(n)) && ChainShape(Next(settings, p, Catch(n)))
    ensures QueueOf(Next(settings, p, Catch(n))) == QueueOf(p)
  {
    var t := Next(settings, p, Catch(n));
    assert OpsFrom(t.results, |p.started|) == OpsFrom(p.results, |p.started|);
    assert OpsFrom(t.results, 0) == OpsFrom(p.results, 0);
    assert Entries(t.results, |p.settled|) == Entries(p.results, |p.settled|);
  }

  /** What the queue sees of a step of the promises. */
  function Seen(e: Event): seq<C.Event> {
    match e
    case Submit(op) => [C.Submit(op)]
    case Run(_, uuid) => [C.Start(uuid)]
    case Settle(_, driverOk, now) => [C.Settle(driverOk, now)]
    case Catch(_) => []
  }

  lemma StepRefines(settings: C.Settings, p: Promises, e: Event)
    requires ChainShape(p) && Enabled(p, e)
    ensures ChainShape(Next(settings, p, e))
    ensures C.Legal(settings, QueueOf(p), Seen(e)) && C.Exec(settings, QueueOf(p), Seen(e)) == QueueOf(Next(settings, p, e))
  {
    ShapeStep(settings, p, e);
    hide Next, Enabled, ChainShape, QueueOf, C.Next, C.Enabled;
    match e
    case Submit(op) =>
      SubmitIsQueued(settings, p, op);
      OneEvent(settings, QueueOf(p), C.Submit(op));
    case Run(n, uuid) =>
      RunIsQueued(settings, p, n, uuid);
      OneEvent(settings, QueueOf(p), C.Start(uuid));
    case Settle(n, driverOk, now) =>
      SettleIsQueued(settings, p, n, driverOk, now);
      OneEvent(settings, QueueOf(p), C.Settle(driverOk, now));
    case Catch(n) => CatchIsUnseen(settings, p, n);
  }

  lemma OneEvent(settings: C.Settings, k: C.Chain, e: C.Event)
    requires e.Submit? || C.Enabled(k, e)
    ensures C.Enabled(k, e) && C.Legal(settings, k, [e]) && C.Exec(settings, k, [e]) == C.Next(settings, k, e)
  {
    assert C.Legal(settings, C.Next(settings, k, e), [e][1..]);
    hide C.Next;
  }

  // ---------- whole runs ----------

  ghost predicate Legal(settings: C.Settings, p: Promises, es: seq<Event>)
    decreases |es|
  {
    es == [] || (Enabled(p, es[0]) && Legal(settings, Next(settings, p, es[0]), es[1..]))
  }

  ghost function Exec(settings: C.Settings, p: Promises, es: seq<Event>): Promises
    requires Legal(settings, p, es)
    decreases |es|
  {
    if es == [] then p else Exec(settings, Next(settings, p, es[0]), es[1..])
  }

  /** Every run of the promises is a run of the queue. */
  lemma {:induction false} RunRefines(settings: C.Settings, p: Promises, es: seq<Event>) returns (qs: seq<C.Event>)
    requires ChainShape(p) && Legal(settings, p, es)
    ensures ChainShape(Exec(settings, p, es))
    ensures C.Legal(settings, QueueOf(p), qs) && C.Exec(settings, QueueOf(p), qs) == QueueOf(Exec(settings, p, es))
    decreases |es|
  {
    if es == [] {
      qs := [];
    } else {
      hide ChainShape, QueueOf, Next, Enabled, C.Next, C.Enabled;
      StepRefines(settings, p, es[0]);
      var rest := RunRefines(settings, Next(settings, p, es[0]), es[1..]);
      JoinRuns(settings, QueueOf(p), Seen(es[0]), rest);
      qs := Seen(es[0]) + rest;
    }
  }

  lemma {:induction false} JoinRuns(settings: C.Settings, k: C.Chain, a: seq<C.Event>, b: seq<C.Event>)
    requires C.Legal(settings, k, a) && C.Legal(settings, C.Exec(settings, k, a), b)
    ensures C.Legal(settings, k, a + b) && C.Exec(settings, k, a + b) == C.Exec(settings, C.Exec(settings, k, a), b)
    decreases |a|
  {
    hide C.Next, C.Enabled;
    if a == [] {
      assert a + b == b;
    } else {
      JoinRuns(settings, C.Next(settings, k, a[0]), a[1..], b);
      assert (a + b)[1..] == a[1..] + b;
    }
  }

  /**
   Linearizability. For every interleaving of submissions, promise callbacks and driver completions: at most one operation
   is in the driver; operations start and settle in the order of submission; and what they returned or threw, and the tabs,
   are those of the sequential specification in that order.
   */
  lemma Linearizability(settings: C.Settings, initial: C.Tabs, es: seq<Event>)
    requires Legal(settings, Fresh(initial), es)
    ensures var p := Exec(settings, Fresh(initial), es);
      && ChainShape(p)
      && (forall i, j :: 0 <= i < |p.results| && 0 <= j < |p.results| && p.results[i].status.InDriver? && p.results[j].status.InDriver? ==> i == j)
      && (forall i :: 0 <= i < |p.started| ==> p.started[i] == i)
      && (forall i :: 0 <= i < |p.settled| ==> p.settled[i] == i)
      && C.Linearized(settings, initial, QueueOf(p))
  {
    assert QueueOf(Fresh(initial)) == C.Fresh(initial);
    var qs := RunRefines(settings, Fresh(initial), es);
    C.Linearizability(settings, initial, qs);
    hide Legal, Exec, C.Legal, C.Exec, C.Linearized, QueueOf;
  }

  /** In every run there are one to `maximumTabs` tabs with distinct ids, the active one among them. */
  lemma TabsAlwaysOk(settings: C.Settings, initial: C.Tabs, es: seq<Event>)
    requires Legal(settings, Fresh(initial), es) && C.TabsOk(settings, initial)
    ensures C.TabsOk(settings, Exec(settings, Fresh(initial), es).tabs)
  {
    assert QueueOf(Fresh(initial)) == C.Fresh(initial);
    var qs := RunRefines(settings, Fresh(initial), es);
    C.ChainOkRun(settings, C.Fresh(initial), qs);
    hide Legal, Exec, C.Legal, C.Exec, C.TabsOk;
  }

  /** A result is rejected exactly when its operation failed, and fulfilled exactly when it returned. */
  ghost predicate SettledTruly(p: Promises) {
    forall n :: 0 <= n < |p.results| ==>
      && (p.results[n].status.Rejected? ==> p.results[n].status.entry.outcome.Failed?)
      && (p.results[n].status.Fulfilled? ==> !p.results[n].status.entry.outcome.Failed?)
  }

  /** What a caller's promise tells is what the operation came to, in every run. */
  lemma {:induction false} PromisesTell(settings: C.Settings, p: Promises, es: seq<Event>)
    requires Legal(settings, p, es) && SettledTruly(p)
    ensures SettledTruly(Exec(settings, p, es))
    decreases |es|
  {
    hide C.Begin, C.Record, C.Has;
    if es != [] {
      PromisesTell(settings, Next(settings, p, es[0]), es[1..]);
    }
  }

  // ---------- the object ----------

  /** The controller: one method per thing that can happen to it. */
  class TabController {
    const settings: C.Settings
    var rows: seq<C.Tab>
    var activeTabId: string
    var results: seq<Promise>
    var operation: Option<nat>
    var started: seq<nat>
    var settled: seq<nat>

    constructor (settings: C.Settings, id: string, url: string, now: int)
      requires 1 <= settings.maximumTabs <= 8
      ensures this.settings == settings
      ensures View() == Fresh(C.Tabs([C.Tab(id, PublicTabUrl(url), now)], id)) && C.TabsOk(settings, View().tabs)
    {
      this.settings := settings;
      rows := [C.Tab(id, PublicTabUrl(url), now)];
      activeTabId := id;
      results, operation, started, settled := [], None, [], [];
    }

    function View(): Promises
      reads this
    {
      Promises(C.Tabs(rows, activeTabId), results, operation, started, settled)
    }

    /** #serialize, which is all that create, activate, navigate and remove do at once. */
    method Serialize(op: C.Op) returns (result: nat)
      modifies this`results, this`operation
      ensures View() == Next(settings, old(View()), Submit(op)) && result == |old(results)|
    {
      result := |results|;
      results := results + [Promise(op, operation, Waiting, false)];
      operation := Some(result);
    }

    /** The handler that swallows the rejection of a result, or passes its value on. */
    method ResultCaught(n: nat)
      requires Enabled(View(), Catch(n))
      modifies this`results
      ensures View() == Next(settings, old(View()), Catch(n))
    {
      results := results[n := results[n].(caught := true)];
    }

    /** The lookup in the map. */
    method Find(id: string) returns (k: nat)
      ensures k == C.Position(rows, id)
    {
      k := 0;
      assert rows[0..] == rows;
      while k < |rows| && rows[k].id != id
        invariant 0 <= k <= |rows|
        invariant C.Position(rows, id) == k + C.Position(rows[k..], id)
      {
        assert rows[k..][1..] == rows[k + 1..];
        k := k + 1;
      }
    }

    /** The first other key of the map. */
    method Fallback(id: string) returns (other: string)
      ensures other == C.FirstOther(rows, id)
    {
      var k := 0;
      assert rows[0..] == rows;
      while k < |rows|
        invariant 0 <= k <= |rows|
        invariant C.FirstOther(rows, id) == C.FirstOther(rows[k..], id)
      {
        if rows[k].id != id {
          return rows[k].id;
        }
        assert rows[k..][1..] == rows[k + 1..];
        k := k + 1;
      }
      other := "";
    }

    /** The operation returns or throws, and its result settles. */
    method Conclude(n: nat, op: C.Op, answer: C.Answer, outcome: C.Outcome)
      requires n < |results|
      modifies this`results, this`settled
      ensures results == old(results)[n := old(results)[n].(status := Concluded(C.Entry(op, answer, outcome)))]
      ensures settled == old(settled) + [n]
    {
      results := results[n := results[n].(status := Concluded(C.Entry(op, answer, outcome)))];
      settled := settled + [n];
    }

    method EnterDriver(n: nat, uuid: string, call: C.DriverCall)
      requires n < |results|
      modifies this`results
      ensures results == old(results)[n := old(results)[n].(status := InDriver(uuid, call))]
    {
      results := results[n := results[n].(status := InDriver(uuid, call))];
    }

    /** The callback of an operation up to its driver call, or to its end when it makes none. */
    method RunOperation(n: nat, uuid: string)
      requires Enabled(View(), Run(n, uuid))
      modifies this`results, this`started, this`settled
      ensures View() == Next(settings, old(View()), Run(n, uuid))
    {
      hide NormalizeTabUrl, Concluded;
      var op := results[n].op;
      started := started + [n];
      match op {
        case CreateOp(url) =>
          if |rows| >= settings.maximumTabs {
            Conclude(n, op, C.Answer(uuid, false, 0), C.Failed(C.TabLimitReached));
            return;
          }
          var u := NormalizeTabUrl(settings.lib, url);
          if u.None? {
            Conclude(n, op, C.Answer(uuid, false, 0), C.Failed(C.TabUrlInvalid));
          } else {
            EnterDriver(n, uuid, C.CallCreate(uuid, u.value));
          }
        case ActivateOp(id) =>
          var k := Find(id);
          if k == |rows| {
            Conclude(n, op, C.Answer(uuid, false, 0), C.Failed(C.TabNotFound));
          } else if id != activeTabId {
            EnterDriver(n, uuid, C.CallActivate(id));
          } else {
            Conclude(n, op, C.Answer(uuid, false, 0), C.Returned(rows[k], true));
          }
        case NavigateOp(id, url) =>
          var k := Find(id);
          if k == |rows| {
            Conclude(n, op, C.Answer(uuid, false, 0), C.Failed(C.TabNotFound));
            return;
          }
          var u := NormalizeTabUrl(settings.lib, url);
          if u.None? {
            Conclude(n, op, C.Answer(uuid, false, 0), C.Failed(C.TabUrlInvalid));
          } else {
            EnterDriver(n, uuid, C.CallNavigate(id, u.value));
          }
        case RemoveOp(id) =>
          var k := Find(id);
          if k == |rows| {
            Conclude(n, op, C.Answer(uuid, false, 0), C.Failed(C.TabNotFound));
          } else if |rows| == 1 {
            Conclude(n, op, C.Answer(uuid, false, 0), C.Failed(C.TabMinimumReached));
          } else {
            var fallback := activeTabId;
            if id == activeTabId {
              fallback := Fallback(id);
            }
            EnterDriver(n, uuid, C.CallRemove(id, fallback));
          }
      }
    }

    /** The rest of an operation, when its driver call has resolved or been rejected. */
    method DriverSettled(n: nat, driverOk: bool, now: int)
      requires Enabled(View(), Settle(n, driverOk, now))
      modifies this`rows, this`activeTabId, this`results, this`settled
      ensures View() == Next(settings, old(View()), Settle(n, driverOk, now))
    {
      hide Concluded;
      var op := results[n].op;
      var InDriver(uuid, call) := results[n].status;
      var answer := C.Answer(uuid, driverOk, now);
      if !driverOk {
        Conclude(n, op, answer, C.Failed(C.DriverFailed));
        return;
      }
      match call {
        case CallCreate(id, url) =>
          var tab := C.Tab(id, PublicTabUrl(url), now);
          rows := rows + [tab];
          activeTabId := id;
          Conclude(n, op, answer, C.Returned(tab, true));
        case CallActivate(id) =>
          var k := Find(id);
          if k < |rows| {
            activeTabId := id;
            Conclude(n, op, answer, C.Returned(rows[k], true));
          } else {
            Conclude(n, op, answer, C.Failed(C.TabNotFound));
          }
        case CallNavigate(id, url) =>
          var k := Find(id);
          if k < |rows| {
            var tab := rows[k].(url := PublicTabUrl(url));
            rows := rows[k := tab];
            Conclude(n, op, answer, C.Returned(tab, id == activeTabId));
          } else {
            Conclude(n, op, answer, C.Failed(C.TabNotFound));
          }
        case CallRemove(id, fallback) =>
          if id == activeTabId {
            activeTabId := fallback;
          }
          var k := Find(id);
          if k < |rows| {
            rows := rows[..k] + rows[k + 1..];
          }
          Conclude(n, op, answer, C.Removed);
      }
    }

    method List() returns (list: seq<C.Row>)
      ensures list == C.Listing(View().tabs)
    {
      list := [];
      var i := 0;
      while i < |rows|
        invariant 0 <= i <= |rows|
        invariant list == C.Listing(View().tabs)[..i]
      {
        list := list + [C.Row(rows[i], rows[i].id == activeTabId)];
        i := i + 1;
      }
    }
  }
}
