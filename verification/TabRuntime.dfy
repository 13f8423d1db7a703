/**
 The logical tab table of session/fireball-session-runtime.cc and the command handler around it. What the media pipeline
 does is a verdict from outside: it was built, or it failed with some error text and everything was taken down again.
 */
module TabRuntime {
  import opened Wrappers
  import opened TabWire
  import opened TabUrls

  const NATIVE_MAXIMUM_TABS := 4

  datatype Table = Table(tabs: map<string, seq<Byte>>, active: string)

  datatype Media = MediaOk | MediaFails(error: string)

  datatype Handled = Done(table: Table) | Refused(error: string)

  predicate UuidDash(index: nat) {
    index == 8 || index == 13 || index == 18 || index == 23
  }

  /** A lower-case version 4 UUID. */
  predicate ValidUuid(value: string) {
    && |value| == 36
    && (forall i :: 0 <= i < 36 ==> if UuidDash(i) then value[i] == '-' else HexValue(value[i]) >= 0)
    && value[14] == '4' && (value[19] == '8' || value[19] == '9' || value[19] == 'a' || value[19] == 'b')
  }

  function CreateTab(lib: Library, t: Table, id: string, url: seq<Byte>, media: Media): Handled {
    if |t.tabs| >= NATIVE_MAXIMUM_TABS then Refused("TAB_LIMIT_REACHED")
    else if !ValidUuid(id) || id in t.tabs || !lib.nativeAccepts(url) then Refused("TAB_INPUT_INVALID")
    else if media.MediaFails? then Refused(media.error)
    else Done(Table(t.tabs[id := url], id))
  }

  function ActivateTab(t: Table, id: string): Handled {
    if id !in t.tabs then Refused("TAB_NOT_FOUND") else Done(t.(active := id))
  }

  function NavigateTab(lib: Library, t: Table, id: string, url: seq<Byte>): Handled {
    if id !in t.tabs then Refused("TAB_NOT_FOUND")
    else if !lib.nativeAccepts(url) then Refused("TAB_INPUT_INVALID")
    else Done(t.(tabs := t.tabs[id := url]))
  }

  function RemoveTab(t: Table, id: string, fallback: string): Handled {
    if id !in t.tabs then Refused("TAB_NOT_FOUND")
    else if |t.tabs| == 1 then Refused("TAB_MINIMUM_REACHED")
    else if fallback !in t.tabs || fallback == id then Refused("TAB_FALLBACK_INVALID")
    else if t.active == id then Done(Table(t.tabs - {id}, fallback))
    else if t.active != fallback then Refused("TAB_FALLBACK_INVALID")
    else Done(t.(tabs := t.tabs - {id}))
  }

  /** One parsed command on the table. */
  function Execute(lib: Library, t: Table, command: Command, media: Media): Handled {
    match command
    case Activate(id) => ActivateTab(t, id)
    case Delete(id, fallback) => RemoveTab(t, id, fallback)
    case Create(id, url) => if lib.nativeAccepts(url) then CreateTab(lib, t, id, url, media) else Refused("TAB_INPUT_INVALID")
    case Navigate(id, url) => if lib.nativeAccepts(url) then NavigateTab(lib, t, id, url) else Refused("TAB_INPUT_INVALID")
  }

  function After(t: Table, handled: Handled): Table {
    if handled.Done? then handled.table else t
  }

  function ReplyTo(request: string, handled: Handled): string {
    match handled
    case Done(_) => OkLine(request)
    case Refused(error) => ErrorLine(request, if error == "" then "TAB_RUNTIME_FAILURE" else error)
  }

  /** What one line does: the table afterwards, the reply, and whether the runtime leaves its main loop. */
  datatype Handling = Handling(table: Table, reply: Option<string>, quits: bool)

  function HandleLine(lib: Library, t: Table, line: string, media: Media): Handling {
    match Parse(line)
    case Shutdown(request) => Handling(t, Some(OkLine(request)), true)
    case Fatal => Handling(t, None, true)
    case Rejected(request, code) => Handling(t, Some(ErrorLine(request, code)), false)
    case Run(request, command) =>
      var handled := Execute(lib, t, command, media);
      Handling(After(t, handled), Some(ReplyTo(request, handled)), false)
  }

  /** One to four tabs, one of them active. */
  predicate TableOk(t: Table) {
    1 <= |t.tabs| <= NATIVE_MAXIMUM_TABS && t.active in t.tabs
  }

  lemma RemovedSize(tabs: map<string, seq<Byte>>, id: string)
    requires id in tabs
    ensures |tabs - {id}| == |tabs| - 1
  {
    assert (tabs - {id}).Keys == tabs.Keys - {id};
    assert |(tabs - {id}).Keys| == |tabs.Keys| - 1;
  }

  /** No line, well formed or not, takes the table out of its bounds. */
  lemma LineKeepsTable(lib: Library, t: Table, line: string, media: Media)
    requires TableOk(t)
    ensures TableOk(HandleLine(lib, t, line, media).table)
  {
    hide Parse, ValidUuid;
    match Parse(line)
    case Run(request, command) =>
      if command.Delete? && command.id in t.tabs { RemovedSize(t.tabs, command.id); }
    case _ =>
  }

  /** Error texts that survive the wire: the pipeline has no error of one or two code characters. */
  predicate Speakable(media: Media) {
    media.MediaFails? ==> !(1 <= |media.error| <= 2 && CodeChars(media.error))
  }

  /** Every reply to a readable line is one the driver accepts, for the same request, and is OK exactly when the command was done. */
  lemma ReplyIsAccepted(lib: Library, t: Table, line: string, media: Media)
    requires Parse(line).Run? && Speakable(media)
    ensures var Run(request, command) := Parse(line);
      var h := HandleLine(lib, t, line, media);
      && h.reply.Some? && MatchReply(h.reply.value).Some?
      && MatchReply(h.reply.value).value.request == request
      && (MatchReply(h.reply.value).value.ok <==> Execute(lib, t, command, media).Done?)
      && (!MatchReply(h.reply.value).value.ok ==> h.table == t)
  {
    var Run(request, command) := Parse(line);
    assert ValidRequest(request) by { ParsedIsPrinted(line); }
    var handled := Execute(lib, t, command, media);
    hide Parse, MatchReply, ValidRequest, SafeErrorCode;
    if handled.Done? {
      OkAccepted(request);
    } else {
      ErrorAccepted(request, if handled.error == "" then "TAB_RUNTIME_FAILURE" else handled.error);
    }
  }

  /** Lines that are answered without being commands get an error the driver accepts too. */
  lemma RejectionIsAccepted(lib: Library, t: Table, line: string, media: Media)
    requires Parse(line).Rejected?
    ensures var h := HandleLine(lib, t, line, media);
      h.table == t && !h.quits && h.reply.Some? && MatchReply(h.reply.value).Some? && !MatchReply(h.reply.value).value.ok
      && MatchReply(h.reply.value).value.request == Parse(line).request
  {
    var Rejected(request, code) := Parse(line);
    assert |code| >= 3 && ValidRequest(request) by { hide DecodeHex, ValidRequest, Words; }
    hide Parse, MatchReply, ValidRequest;
    ErrorAccepted(request, code);
  }

  class NativeRuntime {
    const lib: Library
    var tabs: map<string, seq<Byte>>
    var activeTabId: string
    var exitCode: int
    var running: bool

    constructor (lib: Library, id: string, url: seq<Byte>)
      ensures this.lib == lib && View() == Table(map[id := url], id) && running && exitCode == 0
    {
      this.lib := lib;
      tabs := map[id := url];
      activeTabId := id;
      exitCode := 0;
      running := true;
    }

    function View(): Table
      reads this
    {
      Table(tabs, activeTabId)
    }

    static method CheckUuid(value: string) returns (valid: bool)
      ensures valid == ValidUuid(value)
    {
      if |value| != 36 || value[8] != '-' || value[13] != '-' || value[18] != '-' || value[23] != '-' {
        return false;
      }
      var index := 0;
      while index < |value|
        invariant 0 <= index <= |value|
        invariant forall i :: 0 <= i < index ==> UuidDash(i) || HexValue(value[i]) >= 0
      {
        if !UuidDash(index) && HexValue(value[index]) < 0 {
          return false;
        }
        index := index + 1;
      }
      return value[14] == '4' && (value[19] == '8' || value[19] == '9' || value[19] == 'a' || value[19] == 'b');
    }

    /** The tab is put in the table before its elements are synchronised, and taken out again when that fails. */
    method Create(id: string, url: seq<Byte>, media: Media) returns (success: bool, error: string)
      modifies this`tabs, this`activeTabId
      ensures var h := CreateTab(lib, old(View()), id, url, media);
        success == h.Done? && View() == After(old(View()), h) && (h.Refused? ==> error == h.error)
    {
      if |tabs| >= NATIVE_MAXIMUM_TABS {
        return false, "TAB_LIMIT_REACHED";
      }
      var valid := CheckUuid(id);
      hide ValidUuid;
      if !valid || id in tabs || !lib.nativeAccepts(url) {
        return false, "TAB_INPUT_INVALID";
      }
      tabs := tabs[id := url];
      if media.MediaFails? {
        tabs := tabs - {id};
        return false, media.error;
      }
      success, error := Activate(id);
    }

    method Activate(id: string) returns (success: bool, error: string)
      modifies this`activeTabId
      ensures var h := ActivateTab(old(View()), id);
        success == h.Done? && View() == After(old(View()), h) && (h.Refused? ==> error == h.error)
    {
      if id !in tabs {
        return false, "TAB_NOT_FOUND";
      }
      activeTabId := id;
      return true, "";
    }

    method Navigate(id: string, url: seq<Byte>) returns (success: bool, error: string)
      modifies this`tabs
      ensures var h := NavigateTab(lib, old(View()), id, url);
        success == h.Done? && View() == After(old(View()), h) && (h.Refused? ==> error == h.error)
    {
      if id !in tabs {
        return false, "TAB_NOT_FOUND";
      }
      if !lib.nativeAccepts(url) {
        return false, "TAB_INPUT_INVALID";
      }
      tabs := tabs[id := url];
      return true, "";
    }

    method Remove(id: string, fallbackId: string) returns (success: bool, error: string)
      modifies this`tabs, this`activeTabId
      ensures var h := RemoveTab(old(View()), id, fallbackId);
        success == h.Done? && View() == After(old(View()), h) && (h.Refused? ==> error == h.error)
    {
      if id !in tabs {
        return false, "TAB_NOT_FOUND";
      }
      if |tabs| == 1 {
        return false, "TAB_MINIMUM_REACHED";
      }
      if fallbackId !in tabs || fallbackId == id {
        return false, "TAB_FALLBACK_INVALID";
      }
      if activeTabId == id {
        success, error := Activate(fallbackId);
        if !success {
          return;
        }
      } else if activeTabId != fallbackId {
        return false, "TAB_FALLBACK_INVALID";
      }
      tabs := tabs - {id};
      return true, "";
    }

    /** One control line. */
    method HandleCommand(line: string, media: Media) returns (reply: Option<string>)
      modifies this
      ensures var h := HandleLine(lib, old(View()), line, media);
        View() == h.table && reply == h.reply && running == (old(running) && !h.quits)
      ensures exitCode == if Parse(line) == Fatal then 1 else old(exitCode)
    {
      hide Strip, Words, ValidRequest, ValidUuid;
      var fields := Words(Strip(line));
      if |fields| == 2 && fields[0] == "SHUTDOWN" && ValidRequest(fields[1]) {
        running := false;
        return Some(OkLine(fields[1]));
      }
      if |fields| < 3 || !ValidRequest(fields[1]) {
        exitCode := 1;
        running := false;
        return None;
      }
      var error, success := "", false;
      if fields[0] == "ACTIVATE" && |fields| == 3 {
        success, error := Activate(fields[2]);
      } else if fields[0] == "DELETE" && |fields| == 4 {
        success, error := Remove(fields[2], fields[3]);
      } else if (fields[0] == "CREATE" || fields[0] == "NAVIGATE") && |fields| == 4 {
        var url := DecodeHexLoop(fields[3]);
        hide DecodeHex;
        if url.Some? && lib.nativeAccepts(url.value) {
          if fields[0] == "CREATE" {
            success, error := Create(fields[2], url.value, media);
          } else {
            success, error := Navigate(fields[2], url.value);
          }
        } else {
          error := "TAB_INPUT_INVALID";
        }
      } else {
        error := "TAB_COMMAND_INVALID";
      }
      if success {
        reply := Some(OkLine(fields[1]));
      } else {
        reply := Some(ErrorLine(fields[1], if error == "" then "TAB_RUNTIME_FAILURE" else error));
      }
    }
  }
}
