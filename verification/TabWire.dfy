/**
 The text protocol between the tab driver (session/tab-control.mjs) and the native runtime
 (session/fireball-session-runtime.cc): command lines one way, reply lines the other.
 */
module TabWire {
  import opened Wrappers

  type Byte = b: int | 0 <= b < 256

  const MAXIMUM_URL_BYTES := 4096

  // ---------- hexadecimal ----------

  function HexDigit(n: nat): char
    requires n < 16
  {
    if n < 10 then '0' + n as char else 'a' + (n - 10) as char
  }

  /** -1 for everything that is not a lower-case hexadecimal digit. */
  function HexValue(c: char): int {
    if '0' <= c <= '9' then c as int - '0' as int
    else if 'a' <= c <= 'f' then c as int - 'a' as int + 10
    else -1
  }

  lemma HexDigits(c: char, n: nat)
    requires n < 16
    ensures HexValue(c) == n <==> c == HexDigit(n)
  {
  }

  function EncodeHex(bytes: seq<Byte>): string {
    if bytes == [] then []
    else [HexDigit(bytes[0] / 16), HexDigit(bytes[0] % 16)] + EncodeHex(bytes[1..])
  }

  /** The pairs from `value`, or None at the first that is not a pair of digits or is NUL. */
  function DecodePairs(value: string): Option<seq<Byte>>
    requires |value| % 2 == 0
  {
    if value == [] then Some([])
    else
      var high, low := HexValue(value[0]), HexValue(value[1]);
      if high < 0 || low < 0 || high * 16 + low == 0 then None
      else
        match DecodePairs(value[2..])
        case None => None
        case Some(rest) => Some([(high * 16 + low) as Byte] + rest)
  }

  function DecodeHex(value: string): Option<seq<Byte>> {
    if value == [] || |value| > MAXIMUM_URL_BYTES * 2 || |value| % 2 != 0 then None else DecodePairs(value)
  }

  predicate NoNul(bytes: seq<Byte>) {
    forall i :: 0 <= i < |bytes| ==> bytes[i] != 0
  }

  /** What can be sent at all. */
  predicate Sendable(bytes: seq<Byte>) {
    1 <= |bytes| <= MAXIMUM_URL_BYTES && NoNul(bytes)
  }

  lemma {:induction false} EncodedLength(bytes: seq<Byte>)
    ensures |EncodeHex(bytes)| == 2 * |bytes|
  {
    if bytes != [] { EncodedLength(bytes[1..]); }
  }

  lemma {:induction false} PairsRoundTrip(bytes: seq<Byte>)
    requires NoNul(bytes)
    ensures |EncodeHex(bytes)| == 2 * |bytes| && DecodePairs(EncodeHex(bytes)) == Some(bytes)
  {
    EncodedLength(bytes);
    if bytes != [] {
      PairsRoundTrip(bytes[1..]);
      var text := EncodeHex(bytes);
      assert text[2..] == EncodeHex(bytes[1..]);
      HexDigits(text[0], bytes[0] / 16);
      HexDigits(text[1], bytes[0] % 16);
      assert bytes == [bytes[0]] + bytes[1..];
    }
  }

  lemma {:induction false} PairsCanonical(value: string)
    requires |value| % 2 == 0 && DecodePairs(value).Some?
    ensures var bytes := DecodePairs(value).value;
      NoNul(bytes) && EncodeHex(bytes) == value && 2 * |bytes| == |value|
    decreases |value|
  {
    if value != [] {
      PairsCanonical(value[2..]);
      var high, low := HexValue(value[0]), HexValue(value[1]);
      var rest := DecodePairs(value[2..]).value;
      var bytes := DecodePairs(value).value;
      assert bytes[1..] == rest;
      HexDigits(value[0], high);
      HexDigits(value[1], low);
      assert bytes[0] / 16 == high && bytes[0] % 16 == low;
      assert value == [value[0], value[1]] + value[2..];
    }
  }

  /** Decoding inverts encoding, on every sendable byte string and on nothing else. */
  lemma HexRoundTrip(value: string, bytes: seq<Byte>)
    ensures DecodeHex(value) == Some(bytes) <==> Sendable(bytes) && value == EncodeHex(bytes)
  {
    EncodedLength(bytes);
    if Sendable(bytes) && value == EncodeHex(bytes) {
      PairsRoundTrip(bytes);
    }
    if DecodeHex(value).Some? {
      PairsCanonical(value);
    }
  }

  /** The decoding loop of the native runtime. */
  method DecodeHexLoop(value: string) returns (result: Option<seq<Byte>>)
    ensures result == DecodeHex(value)
  {
    if value == [] || |value| > MAXIMUM_URL_BYTES * 2 || |value| % 2 != 0 {
      return None;
    }
    var decoded: seq<Byte> := [];
    var index := 0;
    assert value[0..] == value;
    PrependedNothing(DecodePairs(value));
    while index < |value|
      invariant 0 <= index <= |value| && index % 2 == 0
      invariant DecodePairs(value) == Prepended(decoded, DecodePairs(value[index..]))
    {
      var high, low := HexValue(value[index]), HexValue(value[index + 1]);
      if high < 0 || low < 0 {
        return None;
      }
      var byte: Byte := high * 16 + low;
      if byte == 0 {
        return None;
      }
      assert value[index..][2..] == value[index + 2..];
      PrependedOne(decoded, byte, DecodePairs(value[index + 2..]));
      decoded := decoded + [byte];
      index := index + 2;
    }
    assert value[index..] == [];
    assert decoded + [] == decoded;
    return Some(decoded);
  }

  function Prepended(head: seq<Byte>, tail: Option<seq<Byte>>): Option<seq<Byte>> {
    match tail
    case None => None
    case Some(rest) => Some(head + rest)
  }

  lemma PrependedNothing(tail: Option<seq<Byte>>)
    ensures Prepended([], tail) == tail
  {
    if tail.Some? {
      assert [] + tail.value == tail.value;
    }
  }

  lemma PrependedOne(head: seq<Byte>, byte: Byte, tail: Option<seq<Byte>>)
    ensures Prepended(head, Prepended([byte], tail)) == Prepended(head + [byte], tail)
  {
    if tail.Some? {
      assert head + ([byte] + tail.value) == head + [byte] + tail.value;
    }
  }

  // ---------- request numbers ----------

  predicate IsDigit(c: char) {
    '0' <= c <= '9'
  }

  /** 1 to 16 decimal digits, the first not 0. */
  predicate ValidRequest(value: string) {
    && 1 <= |value| <= 16 && value[0] != '0'
    && forall i :: 0 <= i < |value| ==> IsDigit(value[i])
  }

  function Digits(n: nat): string {
    if n == 0 then [] else Digits(n / 10) + ['0' + (n % 10) as char]
  }

  function Power10(k: nat): nat {
    if k == 0 then 1 else 10 * Power10(k - 1)
  }

  lemma {:induction false} PowerGrows(a: nat, b: nat)
    requires a <= b
    ensures 1 <= Power10(a) <= Power10(b)
    decreases b
  {
    if a < b {
      PowerGrows(a, b - 1);
    } else if a > 0 {
      PowerGrows(a - 1, a - 1);
    }
  }

  lemma {:induction false} DigitsShape(n: nat)
    requires n > 0
    ensures var d := Digits(n); |d| >= 1 && d[0] != '0' && (forall i :: 0 <= i < |d| ==> IsDigit(d[i]))
    ensures Power10(|Digits(n)| - 1) <= n < Power10(|Digits(n)|)
  {
    if n >= 10 {
      DigitsShape(n / 10);
      assert Digits(n)[0] == Digits(n / 10)[0];
    } else {
      assert Digits(n / 10) == [];
      assert Power10(0) == 1 && Power10(1) == 10 by { PowerGrows(0, 1); }
    }
  }

  const SIXTEEN_DIGITS := 10_000_000_000_000_000

  /** The largest request number JavaScript counts up to exactly. */
  const MAXIMUM_SAFE_INTEGER := 9_007_199_254_740_991

  lemma Power16()
    ensures Power10(16) == SIXTEEN_DIGITS
  {
    assert Power10(4) == 10_000;
    assert Power10(8) == 100_000_000;
    assert Power10(12) == 1_000_000_000_000;
  }

  /** Request numbers fit the wire form exactly below 10^16, so every safe integer does. */
  lemma RequestFits(n: nat)
    ensures ValidRequest(Digits(n)) <==> 1 <= n < SIXTEEN_DIGITS
  {
    Power16();
    if n > 0 {
      DigitsShape(n);
      if |Digits(n)| <= 16 {
        PowerGrows(|Digits(n)|, 16);
      } else {
        PowerGrows(16, |Digits(n)| - 1);
      }
    }
  }

  lemma {:induction false} DigitsInjective(a: nat, b: nat)
    requires Digits(a) == Digits(b)
    ensures a == b
    decreases a
  {
    if a == 0 || b == 0 {
      if a > 0 { DigitsShape(a); }
      if b > 0 { DigitsShape(b); }
    } else {
      var x, y := Digits(a), Digits(b);
      assert x[|x| - 1] == y[|y| - 1] && x[..|x| - 1] == Digits(a / 10) && y[..|y| - 1] == Digits(b / 10);
      DigitsInjective(a / 10, b / 10);
    }
  }

  lemma SafeRequestFits(n: nat)
    requires 1 <= n <= MAXIMUM_SAFE_INTEGER
    ensures ValidRequest(Digits(n))
  {
    RequestFits(n);
  }

  // ---------- fields ----------

  predicate IsSpace(c: char) {
    c == ' ' || ('\t' <= c <= '\r')
  }

  predicate Token(s: string) {
    s != [] && forall i :: 0 <= i < |s| ==> !IsSpace(s[i])
  }

  function WordLength(s: string): (k: nat)
    ensures k <= |s|
  {
    if s == [] || IsSpace(s[0]) then 0 else 1 + WordLength(s[1..])
  }

  /** The fields a stream extraction yields: maximal runs without white space. */
  function Words(s: string): seq<string>
    decreases |s|
  {
    if s == [] then []
    else if IsSpace(s[0]) then Words(s[1..])
    else
      var k := WordLength(s);
      [s[..k]] + Words(s[k..])
  }

  function Join(fields: seq<string>): string {
    if fields == [] then []
    else if |fields| == 1 then fields[0]
    else fields[0] + " " + Join(fields[1..])
  }

  predicate Tokens(fields: seq<string>) {
    forall i :: 0 <= i < |fields| ==> Token(fields[i])
  }

  lemma {:induction false} WordLengthOf(token: string, rest: string)
    requires forall i :: 0 <= i < |token| ==> !IsSpace(token[i])
    requires rest == [] || IsSpace(rest[0])
    ensures WordLength(token + rest) == |token|
  {
    if token == [] {
      assert token + rest == rest;
    } else {
      WordLengthOf(token[1..], rest);
      assert (token + rest)[1..] == token[1..] + rest;
    }
  }

  lemma {:induction false} WordsOfJoin(fields: seq<string>)
    requires Tokens(fields)
    ensures Words(Join(fields)) == fields
    decreases |fields|
  {
    if |fields| == 1 {
      WordLengthOf(fields[0], []);
      assert fields[0] + [] == fields[0];
    } else if |fields| > 1 {
      WordsOfJoin(fields[1..]);
      var rest := " " + Join(fields[1..]);
      assert Join(fields) == fields[0] + rest;
      WordLengthOf(fields[0], rest);
      assert (fields[0] + rest)[|fields[0]|..] == rest;
      assert rest[1..] == Join(fields[1..]);
      assert Words(rest) == Words(rest[1..]);
    }
  }

  function Strip(line: string): string {
    if line != [] && (line[|line| - 1] == '\n' || line[|line| - 1] == '\r') then Strip(line[..|line| - 1]) else line
  }

  lemma {:induction false} JoinEndsInToken(fields: seq<string>)
    requires Tokens(fields) && fields != []
    ensures var s := Join(fields); s != [] && !IsSpace(s[|s| - 1])
    decreases |fields|
  {
    if |fields| > 1 { JoinEndsInToken(fields[1..]); }
  }

  lemma StripOfLine(fields: seq<string>)
    requires Tokens(fields) && fields != []
    ensures Words(Strip(Join(fields) + "\n")) == fields
  {
    JoinEndsInToken(fields);
    var s := Join(fields);
    assert (s + "\n")[..|s + "\n"| - 1] == s;
    assert Strip(s + "\n") == Strip(s) == s;
    WordsOfJoin(fields);
  }

  // ---------- commands ----------

  datatype Command =
    | Create(id: string, url: seq<Byte>)
    | Activate(id: string)
    | Navigate(id: string, url: seq<Byte>)
    | Delete(id: string, fallback: string)

  function Fields(command: Command, request: string): seq<string> {
    match command
    case Create(id, url) => ["CREATE", request, id, EncodeHex(url)]
    case Activate(id) => ["ACTIVATE", request, id]
    case Navigate(id, url) => ["NAVIGATE", request, id, EncodeHex(url)]
    case Delete(id, fallback) => ["DELETE", request, id, fallback]
  }

  /** What the driver writes. */
  function Print(command: Command, request: nat): string {
    Join(Fields(command, Digits(request))) + "\n"
  }

  datatype Request =
    | Shutdown(request: string)
    | Fatal
    | Rejected(request: string, code: string)
    | Run(request: string, command: Command)

  /** How the runtime reads a line, up to the point where it acts on it. */
  function Parse(line: string): Request {
    var f := Words(Strip(line));
    if |f| == 2 && f[0] == "SHUTDOWN" && ValidRequest(f[1]) then Shutdown(f[1])
    else if |f| < 3 || !ValidRequest(f[1]) then Fatal
    else if f[0] == "ACTIVATE" && |f| == 3 then Run(f[1], Activate(f[2]))
    else if f[0] == "DELETE" && |f| == 4 then Run(f[1], Delete(f[2], f[3]))
    else if (f[0] == "CREATE" || f[0] == "NAVIGATE") && |f| == 4 then
      match DecodeHex(f[3])
      case None => Rejected(f[1], "TAB_INPUT_INVALID")
      case Some(url) => Run(f[1], if f[0] == "CREATE" then Create(f[2], url) else Navigate(f[2], url))
    else Rejected(f[1], "TAB_COMMAND_INVALID")
  }

  predicate WellFormed(command: Command) {
    && Token(command.id)
    && (command.Create? || command.Navigate? ==> Sendable(command.url))
    && (command.Delete? ==> Token(command.fallback))
  }

  lemma {:induction false} EncodedIsToken(bytes: seq<Byte>)
    ensures forall i :: 0 <= i < |EncodeHex(bytes)| ==> !IsSpace(EncodeHex(bytes)[i])
  {
    if bytes != [] { EncodedIsToken(bytes[1..]); }
  }

  lemma FieldsAreTokens(command: Command, request: nat)
    requires WellFormed(command) && 1 <= request < SIXTEEN_DIGITS
    ensures Tokens(Fields(command, Digits(request)))
  {
    RequestFits(request);
    if command.Create? || command.Navigate? {
      EncodedIsToken(command.url);
      EncodedLength(command.url);
    }
    assert Token("CREATE") && Token("ACTIVATE") && Token("NAVIGATE") && Token("DELETE");
  }

  /** Every command the driver can print is read back as the same command with the same number. */
  lemma CommandRoundTrip(command: Command, request: nat)
    requires WellFormed(command) && 1 <= request < SIXTEEN_DIGITS
    ensures Parse(Print(command, request)) == Run(Digits(request), command)
  {
    FieldsAreTokens(command, request);
    StripOfLine(Fields(command, Digits(request)));
    RequestFits(request);
    hide Words, Strip, Join, Digits, ValidRequest, EncodeHex;
    if command.Create? || command.Navigate? {
      HexRoundTrip(EncodeHex(command.url), command.url);
    }
  }

  /** A line read as a command has exactly the fields the driver prints for it. */
  lemma ParsedIsPrinted(line: string)
    requires Parse(line).Run?
    ensures var Run(request, command) := Parse(line);
      Words(Strip(line)) == Fields(command, request) && ValidRequest(request)
      && (command.Create? || command.Navigate? ==> Sendable(command.url))
  {
    var f := Words(Strip(line));
    hide Words, Strip, ValidRequest, EncodeHex, DecodeHex;
    if |f| == 4 && DecodeHex(f[3]).Some? {
      HexRoundTrip(f[3], DecodeHex(f[3]).value);
    }
  }

  /** Two commands printed alike are the same command under the same number. */
  lemma PrintInjective(a: Command, m: nat, b: Command, n: nat)
    requires WellFormed(a) && WellFormed(b) && 1 <= m < SIXTEEN_DIGITS && 1 <= n < SIXTEEN_DIGITS
    requires Print(a, m) == Print(b, n)
    ensures a == b && m == n
  {
    CommandRoundTrip(a, m);
    CommandRoundTrip(b, n);
    DigitsInjective(m, n);
  }

  // ---------- replies ----------

  datatype Reply = Reply(ok: bool, request: string, code: Option<string>)

  predicate CodeChar(c: char) {
    'A' <= c <= 'Z' || c == '_'
  }

  predicate CodeChars(s: string) {
    forall i :: 0 <= i < |s| ==> CodeChar(s[i])
  }

  /** SafeErrorCode: a code of up to 64 code characters stands, anything else is replaced. */
  function SafeErrorCode(value: string): string {
    if 1 <= |value| <= 64 && CodeChars(value) then value else "TAB_RUNTIME_FAILURE"
  }

  function OkLine(request: string): string {
    "OK " + request
  }

  function ErrorLine(request: string, code: string): string {
    "ERR " + request + " " + SafeErrorCode(code)
  }

  function DigitRun(s: string): (k: nat)
    ensures k <= |s|
  {
    if s == [] || !IsDigit(s[0]) then 0 else 1 + DigitRun(s[1..])
  }

  predicate ValidCode(code: string) {
    3 <= |code| <= 64 && CodeChars(code)
  }

  /** What follows the verdict: a request number, then nothing or one more field with a code. */
  function MatchTail(ok: bool, s: string): Option<Reply> {
    var k := DigitRun(s);
    if !ValidRequest(s[..k]) then None
    else if k == |s| then Some(Reply(ok, s, None))
    else if s[k] == ' ' && ValidCode(s[k + 1..]) then Some(Reply(ok, s[..k], Some(s[k + 1..])))
    else None
  }

  /** The driver's pattern for reply lines. */
  function MatchReply(line: string): Option<Reply> {
    if |line| >= 3 && line[..3] == "OK " then MatchTail(true, line[3..])
    else if |line| >= 4 && line[..4] == "ERR " then MatchTail(false, line[4..])
    else None
  }

  predicate ValidReply(reply: Reply) {
    ValidRequest(reply.request) && (reply.code.Some? ==> ValidCode(reply.code.value))
  }

  function TailOf(reply: Reply): string {
    reply.request + (if reply.code.Some? then " " + reply.code.value else "")
  }

  function Rendered(reply: Reply): string {
    (if reply.ok then "OK " else "ERR ") + TailOf(reply)
  }

  lemma {:induction false} DigitRunOf(digits: string, rest: string)
    requires forall i :: 0 <= i < |digits| ==> IsDigit(digits[i])
    requires rest == [] || !IsDigit(rest[0])
    ensures DigitRun(digits + rest) == |digits|
  {
    if digits == [] {
      assert digits + rest == rest;
    } else {
      DigitRunOf(digits[1..], rest);
      assert (digits + rest)[1..] == digits[1..] + rest;
    }
  }

  lemma TailMatches(ok: bool, reply: Reply)
    requires ValidReply(reply) && reply.ok == ok
    ensures MatchTail(ok, TailOf(reply)) == Some(reply)
  {
    hide ValidCode;
    var s := TailOf(reply);
    var rest := if reply.code.Some? then " " + reply.code.value else "";
    DigitRunOf(reply.request, rest);
    assert s[..|reply.request|] == reply.request;
    if reply.code.Some? {
      assert s[|reply.request| + 1..] == reply.code.value;
    } else {
      assert s == reply.request;
    }
  }

  lemma TailMatched(ok: bool, s: string, reply: Reply)
    requires MatchTail(ok, s) == Some(reply)
    ensures ValidReply(reply) && reply.ok == ok && s == TailOf(reply)
  {
    hide ValidCode, ValidRequest;
    var k := DigitRun(s);
    if k == |s| {
      assert s[..k] == s;
    } else {
      assert s == s[..k] + [s[k]] + s[k + 1..];
    }
  }

  lemma TailRoundTrip(ok: bool, s: string, reply: Reply)
    ensures MatchTail(ok, s) == Some(reply) <==> ValidReply(reply) && reply.ok == ok && s == TailOf(reply)
  {
    hide *;
    if ValidReply(reply) && reply.ok == ok && s == TailOf(reply) {
      TailMatches(ok, reply);
    }
    if MatchTail(ok, s) == Some(reply) {
      TailMatched(ok, s, reply);
    }
  }

  lemma PrefixSplit(prefix: string, tail: string, line: string)
    ensures line == prefix + tail <==> |line| >= |prefix| && line[..|prefix|] == prefix && line[|prefix|..] == tail
  {
    if |line| >= |prefix| && line[..|prefix|] == prefix && line[|prefix|..] == tail {
      assert line == line[..|prefix|] + line[|prefix|..];
    }
  }

  /** The pattern matches exactly the renderings of valid replies, each in one way. */
  lemma ReplyRoundTrip(line: string, reply: Reply)
    ensures MatchReply(line) == Some(reply) <==> ValidReply(reply) && line == Rendered(reply)
  {
    hide MatchTail, ValidReply;
    var tail := TailOf(reply);
    hide TailOf;
    PrefixSplit("OK ", tail, line);
    PrefixSplit("ERR ", tail, line);
    assert ("OK " + tail)[0] == 'O' && ("ERR " + tail)[0] == 'E';
    assert |line| >= 3 && line[..3] == "OK " ==> line[..3][0] == 'O' && line[0] == 'O';
    if |line| >= 3 && line[..3] == "OK " {
      TailRoundTrip(true, line[3..], reply);
    } else if |line| >= 4 && line[..4] == "ERR " {
      TailRoundTrip(false, line[4..], reply);
      assert line[..4][0] == 'E';
    } else {
      assert MatchReply(line) == None;
      assert reply.ok ==> line != "OK " + tail;
      assert !reply.ok ==> line != "ERR " + tail;
    }
  }

  lemma OkAccepted(request: string)
    requires ValidRequest(request)
    ensures MatchReply(OkLine(request)) == Some(Reply(true, request, None))
  {
    ReplyRoundTrip(OkLine(request), Reply(true, request, None));
  }

  /** An error line is accepted as a refusal of its request, unless the code it was given has one or two code characters. */
  lemma ErrorAccepted(request: string, code: string)
    requires ValidRequest(request)
    ensures MatchReply(ErrorLine(request, code)) ==
              if 1 <= |code| <= 2 && CodeChars(code) then None else Some(Reply(false, request, Some(SafeErrorCode(code))))
  {
    var line, safe := ErrorLine(request, code), SafeErrorCode(code);
    assert CodeChars("TAB_RUNTIME_FAILURE");
    var reply := Reply(false, request, Some(safe));
    assert line == Rendered(reply);
    ReplyRoundTrip(line, reply);
    if !ValidCode(safe) {
      TooShort(request, safe);
    }
  }

  /** A line with a code that is too short matches no other way either. */
  lemma TooShort(request: string, code: string)
    requires ValidRequest(request) && CodeChars(code) && 1 <= |code| <= 2
    ensures MatchReply("ERR " + request + " " + code) == None
  {
    var line := "ERR " + request + " " + code;
    assert line[4..] == request + (" " + code);
    DigitRunOf(request, " " + code);
    assert line[4..][..|request|] == request;
    assert line[4..][|request| + 1..] == code;
  }
}
