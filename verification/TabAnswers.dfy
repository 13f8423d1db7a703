/**
 What the tab controller answers, operation by operation: when each is refused and with which error, what the driver is asked
 to do, and what is recorded and returned when the driver has done it. TabPromises shows that every run is a fold of these.
 */
module TabAnswers {
  import opened Wrappers
  import opened TabUrls
  import opened TabController

  predicate IsTab(rows: seq<Tab>, id: string) {
    exists k :: 0 <= k < |rows| && rows[k].id == id
  }

  predicate DistinctIds(rows: seq<Tab>) {
    forall i, j :: 0 <= i < j < |rows| ==> rows[i].id != rows[j].id
  }

  lemma {:induction false} HasExactly(rows: seq<Tab>, id: string)
    ensures Has(rows, id) <==> IsTab(rows, id)
    ensures forall j :: 0 <= j < Position(rows, id) ==> rows[j].id != id
  {
    if rows != [] && rows[0].id != id {
      HasExactly(rows[1..], id);
      assert forall j :: 1 <= j < |rows| ==> rows[j] == rows[1..][j - 1];
      if IsTab(rows, id) {
        var k :| 0 <= k < |rows| && rows[k].id == id;
        assert rows[1..][k - 1].id == id;
      }
    }
  }

  // ---------- what is refused, and what the driver is asked ----------

  /** An address that is not the home page and cannot be taken. */
  predicate BadAddress(lib: Library, url: Option<string>) {
    url.Some? && url.value != "fireball://home" && url.value != "file:///usr/share/fireball-session/home.html"
    && (|| |lib.utf8(url.value)| > 4096
        || lib.parse(url.value) == None
        || lib.parse(url.value).value.protocol !in ["http:", "https:"]
        || lib.parse(url.value).value.username != ""
        || lib.parse(url.value).value.password != ""
        || lib.parse(url.value).value.hostname == "")
  }

  /** What is opened for an address that can be taken: the home page's file, or the parser's serialised form. */
  function Address(lib: Library, url: Option<string>): string
    requires !BadAddress(lib, url)
  {
    if url.None? || url.value == "fireball://home" || url.value == "file:///usr/share/fireball-session/home.html"
    then "file:///usr/share/fireball-session/home.html"
    else lib.parse(url.value).value.href
  }

  lemma NormalizesExactly(lib: Library, url: Option<string>)
    ensures NormalizeTabUrl(lib, url) == if BadAddress(lib, url) then None else Some(Address(lib, url))
  {
    RefusedExactly(lib, url);
    hide NormalizeTabUrl;
  }

  /** create: refused at the limit, then for its address; otherwise the driver opens the address under the new id. */
  lemma CreateAsks(settings: Settings, tabs: Tabs, url: Option<string>, uuid: string)
    ensures Begin(settings, tabs, CreateOp(url), uuid) ==
              if |tabs.rows| >= settings.maximumTabs then Over(Failed(TabLimitReached))
              else if BadAddress(settings.lib, url) then Over(Failed(TabUrlInvalid))
              else Calls(CallCreate(uuid, Address(settings.lib, url)))
  {
    NormalizesExactly(settings.lib, url);
    hide NormalizeTabUrl, BadAddress, Address;
  }

  /** navigate: refused for a tab that is not there, then for its address; otherwise the driver loads it in that tab. */
  lemma NavigateAsks(settings: Settings, tabs: Tabs, id: string, url: Option<string>, uuid: string)
    ensures Begin(settings, tabs, NavigateOp(id, url), uuid) ==
              if !IsTab(tabs.rows, id) then Over(Failed(TabNotFound))
              else if BadAddress(settings.lib, url) then Over(Failed(TabUrlInvalid))
              else Calls(CallNavigate(id, Address(settings.lib, url)))
  {
    NormalizesExactly(settings.lib, url);
    HasExactly(tabs.rows, id);
    hide NormalizeTabUrl, BadAddress, Address, IsTab, Position;
  }

  /** activate: refused for a tab that is not there; the active tab is returned without asking the driver. */
  lemma ActivateAsks(settings: Settings, tabs: Tabs, id: string, uuid: string)
    ensures var b := Begin(settings, tabs, ActivateOp(id), uuid);
      && (b == Over(Failed(TabNotFound)) <==> !IsTab(tabs.rows, id))
      && (IsTab(tabs.rows, id) && id != tabs.active ==> b == Calls(CallActivate(id)))
      && (IsTab(tabs.rows, id) && id == tabs.active ==>
            b.Over? && b.outcome.Returned? && b.outcome.active && b.outcome.tab.id == id && b.outcome.tab in tabs.rows)
  {
    HasExactly(tabs.rows, id);
    hide IsTab, Position;
  }

  /**
   remove: refused for a tab that is not there, then for the last one; otherwise the driver closes it, and falls back from
   the active tab to the first of the others, and from any other to the active one.
   */
  lemma RemoveAsks(settings: Settings, tabs: Tabs, id: string, uuid: string)
    requires DistinctIds(tabs.rows)
    ensures var b := Begin(settings, tabs, RemoveOp(id), uuid);
      && (b == Over(Failed(TabNotFound)) <==> !IsTab(tabs.rows, id))
      && (b == Over(Failed(TabMinimumReached)) <==> IsTab(tabs.rows, id) && |tabs.rows| == 1)
      && (IsTab(tabs.rows, id) && |tabs.rows| > 1 ==>
            b == Calls(CallRemove(id, if id != tabs.active then tabs.active
                                      else if tabs.rows[0].id != id then tabs.rows[0].id else tabs.rows[1].id)))
  {
    HasExactly(tabs.rows, id);
    FirstOtherIs(tabs.rows, id);
    hide IsTab, Position, FirstOther;
  }

  lemma FirstOtherIs(rows: seq<Tab>, id: string)
    requires |rows| > 1 ==> rows[0].id != rows[1].id
    ensures |rows| > 1 ==> FirstOther(rows, id) == if rows[0].id != id then rows[0].id else rows[1].id
  {
    if |rows| > 1 && rows[0].id == id {
      assert rows[1..][0] == rows[1];
    }
  }

  // ---------- what is recorded and returned ----------

  /** The home page is shown under its public name. */
  function Shown(address: string): string {
    if address == "file:///usr/share/fireball-session/home.html" then "fireball://home" else address
  }

  /** The operation went through: it was not refused, and the driver did what it was asked. */
  predicate WentThrough(settings: Settings, tabs: Tabs, op: Op, answer: Answer) {
    Begin(settings, tabs, op, answer.uuid).Calls? && answer.driverOk
  }

  /** A new tab comes last, is active, and is returned so. */
  lemma CreateRecords(settings: Settings, tabs: Tabs, url: Option<string>, answer: Answer)
    requires WentThrough(settings, tabs, CreateOp(url), answer)
    ensures !BadAddress(settings.lib, url)
    ensures var tab := Tab(answer.uuid, Shown(Address(settings.lib, url)), answer.now);
      Perform(settings, tabs, CreateOp(url), answer) == (Tabs(tabs.rows + [tab], answer.uuid), Returned(tab, true))
  {
    CreateAsks(settings, tabs, url, answer.uuid);
    hide BadAddress, Address, Begin;
  }

  /** Activating changes which tab is active and nothing else. */
  lemma ActivateRecords(settings: Settings, tabs: Tabs, id: string, answer: Answer)
    requires WentThrough(settings, tabs, ActivateOp(id), answer)
    ensures var (after, outcome) := Perform(settings, tabs, ActivateOp(id), answer);
      && after == Tabs(tabs.rows, id)
      && outcome.Returned? && outcome.active && outcome.tab.id == id && outcome.tab in tabs.rows
  {
    ActivateAsks(settings, tabs, id, answer.uuid);
    HasExactly(tabs.rows, id);
    hide IsTab, Position, Begin;
  }

  /** Navigating changes the address of that one tab, which keeps its place, its id and its time, and which tab is active not at all. */
  lemma NavigateRecords(settings: Settings, tabs: Tabs, id: string, url: Option<string>, answer: Answer)
    requires WentThrough(settings, tabs, NavigateOp(id, url), answer) && DistinctIds(tabs.rows)
    ensures !BadAddress(settings.lib, url)
    ensures var (after, outcome) := Perform(settings, tabs, NavigateOp(id, url), answer);
      && after.active == tabs.active && |after.rows| == |tabs.rows|
      && (forall k :: 0 <= k < |tabs.rows| ==>
            after.rows[k] == if tabs.rows[k].id == id then Tab(id, Shown(Address(settings.lib, url)), tabs.rows[k].createdAt) else tabs.rows[k])
      && outcome.Returned? && outcome.tab in after.rows && outcome.tab.id == id && (outcome.active <==> tabs.active == id)
  {
    NavigateAsks(settings, tabs, id, url, answer.uuid);
    HasExactly(tabs.rows, id);
    hide BadAddress, Address, IsTab, Position, Begin;
    var k := Position(tabs.rows, id);
    var after := Perform(settings, tabs, NavigateOp(id, url), answer).0;
    assert after.rows[k].id == id;
  }

  /** Removing takes that tab out and leaves the others in their order; only when it was active does another become so. */
  lemma RemoveRecords(settings: Settings, tabs: Tabs, id: string, answer: Answer)
    requires WentThrough(settings, tabs, RemoveOp(id), answer) && DistinctIds(tabs.rows)
    ensures var (after, outcome) := Perform(settings, tabs, RemoveOp(id), answer);
      && outcome == Removed
      && (exists k :: 0 <= k < |tabs.rows| && tabs.rows[k].id == id && after.rows == tabs.rows[..k] + tabs.rows[k + 1..])
      && !IsTab(after.rows, id)
      && (id != tabs.active ==> after.active == tabs.active)
      && (id == tabs.active ==> after.rows != [] && after.active == after.rows[0].id)
  {
    RemoveAsks(settings, tabs, id, answer.uuid);
    HasExactly(tabs.rows, id);
    var k := Position(tabs.rows, id);
    var after := Perform(settings, tabs, RemoveOp(id), answer).0;
    assert after.rows == tabs.rows[..k] + tabs.rows[k + 1..];
    hide Begin, Position;
  }
}
