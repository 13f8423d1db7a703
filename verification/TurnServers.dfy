/**
 The TURN server list of session/supervisor.mjs: what is accepted, how it is printed on the runtime's command line, and that
 the print can be read back in one way only. Credentials are percent-encoded down to the unreserved characters of
 section 2.3 of RFC 3986, in the form of its section 2.1.
 */
module TurnServers {
  import opened Wrappers
  import opened TabWire

  datatype Server = Server(scheme: string, host: string, port: int, username: string, password: string)

  /** The address family the library finds: 4, 6, or 0 for what is no address. */
  datatype Addresses = Addresses(family: string -> int)

  predicate AddressChar(c: char) {
    '0' <= c <= '9' || 'a' <= c <= 'z' || 'A' <= c <= 'Z' || c == '.' || c == ':' || c == '%' || c == '-'
  }

  /** What is assumed of the library: the alphabet of addresses, and that IPv4 addresses have no colon. */
  ghost predicate Sane(lib: Addresses) {
    forall h: string :: lib.family(h) == 4 || lib.family(h) == 6 ==> AddressText(h) && (lib.family(h) == 4 ==> ':' !in h)
  }

  predicate AddressText(h: string) {
    h != [] && forall i :: 0 <= i < |h| ==> AddressChar(h[i])
  }

  predicate LowerCase(h: string) {
    forall i :: 0 <= i < |h| ==> !('A' <= h[i] <= 'Z')
  }

  predicate LabelEdge(c: char) {
    'a' <= c <= 'z' || '0' <= c <= '9'
  }

  predicate Label(s: string) {
    1 <= |s| <= 63 && LabelEdge(s[0]) && LabelEdge(s[|s| - 1]) && forall i :: 0 <= i < |s| ==> LabelEdge(s[i]) || s[i] == '-'
  }

  /** The text before the first occurrence of a character, as a length; all of it when there is none. */
  function Until(s: string, c: char): (k: nat)
    ensures k <= |s|
  {
    if s == [] || s[0] == c then 0 else 1 + Until(s[1..], c)
  }

  lemma {:induction false} UntilIsFirst(s: string, c: char)
    ensures var k := Until(s, c); (k < |s| ==> s[k] == c) && forall i :: 0 <= i < k ==> s[i] != c
  {
    if s != [] && s[0] != c {
      UntilIsFirst(s[1..], c);
      forall i | 0 <= i < Until(s, c) ensures s[i] != c {
        assert i > 0 ==> s[i] == s[1..][i - 1];
      }
    }
  }

  /** Labels separated by dots. */
  predicate DnsName(h: string)
    decreases |h|
  {
    var k := Until(h, '.');
    Label(h[..k]) && (k < |h| ==> DnsName(h[k + 1..]))
  }

  predicate ValidHost(lib: Addresses, h: string) {
    && 1 <= |h| <= 253 && LowerCase(h)
    && (lib.family(h) == 4 || lib.family(h) == 6 || DnsName(h))
  }

  function SerializeHost(lib: Addresses, h: string): string {
    if lib.family(h) == 6 then "[" + h + "]" else h
  }

  predicate Printable(c: char) {
    '!' <= c <= '~'
  }

  predicate ValidCredential(value: string, maximum: nat) {
    1 <= |value| <= maximum && forall i :: 0 <= i < |value| ==> Printable(value[i])
  }

  predicate Accepted(lib: Addresses, s: Server) {
    && (s.scheme == "turn" || s.scheme == "turns")
    && ValidHost(lib, s.host)
    && 1 <= s.port <= 65535
    && ValidCredential(s.username, 128) && ValidCredential(s.password, 256)
  }

  // ---------- credentials ----------

  predicate Unreserved(c: char) {
    'A' <= c <= 'Z' || 'a' <= c <= 'z' || '0' <= c <= '9' || c == '-' || c == '_' || c == '.' || c == '~'
  }

  /** encodeURIComponent leaves these alone as well; the replacement that follows encodes them. */
  predicate KeptByUriComponent(c: char) {
    Unreserved(c) || c == '!' || c == '*' || c == '\'' || c == '(' || c == ')'
  }

  function UpperHex(n: nat): char
    requires n < 16
  {
    if n < 10 then '0' + n as char else 'A' + (n - 10) as char
  }

  function UpperValue(c: char): int {
    if '0' <= c <= '9' then c as int - '0' as int
    else if 'A' <= c <= 'F' then c as int - 'A' as int + 10
    else -1
  }

  function Percent(c: char): string
    requires Printable(c)
  {
    ['%', UpperHex(c as int / 16), UpperHex(c as int % 16)]
  }

  /** encodeURIComponent of one printable ASCII character, then the replacement of the five marks. */
  function EncodeChar(c: char): string
    requires Printable(c)
  {
    if !KeptByUriComponent(c) then Percent(c)
    else if c == '!' || c == '\'' || c == '(' || c == ')' || c == '*' then Percent(c)
    else [c]
  }

  function EncodeCredential(value: string): string
    requires forall i :: 0 <= i < |value| ==> Printable(value[i])
  {
    if value == [] then [] else EncodeChar(value[0]) + EncodeCredential(value[1..])
  }

  predicate EncodedChar(c: char) {
    Unreserved(c) || c == '%'
  }

  lemma {:induction false} EncodedAlphabet(value: string)
    requires forall i :: 0 <= i < |value| ==> Printable(value[i])
    ensures forall i :: 0 <= i < |EncodeCredential(value)| ==> EncodedChar(EncodeCredential(value)[i])
    ensures value != [] ==> EncodeCredential(value) != []
  {
    if value != [] {
      EncodedAlphabet(value[1..]);
      var head := EncodeChar(value[0]);
      assert forall i :: 0 <= i < |head| ==> EncodedChar(head[i]);
    }
  }

  function DecodeCredential(text: string): Option<string>
    decreases |text|
  {
    if text == [] then Some([])
    else if text[0] != '%' then
      match DecodeCredential(text[1..])
      case None => None
      case Some(rest) => Some([text[0]] + rest)
    else if |text| < 3 || UpperValue(text[1]) < 0 || UpperValue(text[2]) < 0 then None
    else
      match DecodeCredential(text[3..])
      case None => None
      case Some(rest) => Some([(UpperValue(text[1]) * 16 + UpperValue(text[2])) as char] + rest)
  }

  lemma PercentValue(c: char)
    requires Printable(c)
    ensures UpperValue(Percent(c)[1]) == c as int / 16 && UpperValue(Percent(c)[2]) == c as int % 16
  {
  }

  lemma {:induction false} CredentialRoundTrip(value: string)
    requires forall i :: 0 <= i < |value| ==> Printable(value[i])
    ensures DecodeCredential(EncodeCredential(value)) == Some(value)
  {
    if value != [] {
      CredentialRoundTrip(value[1..]);
      var head, rest := EncodeChar(value[0]), EncodeCredential(value[1..]);
      var text := EncodeCredential(value);
      assert text[|head|..] == rest;
      assert value == [value[0]] + value[1..];
      if |head| == 3 {
        PercentValue(value[0]);
        assert text[1] == head[1] && text[2] == head[2];
        assert (UpperValue(text[1]) * 16 + UpperValue(text[2])) as char == value[0];
      }
    }
  }

  // ---------- one server ----------

  function PrintServer(lib: Addresses, s: Server): string
    requires Accepted(lib, s)
  {
    s.scheme + "://" + EncodeCredential(s.username) + ":" + EncodeCredential(s.password) + "@" + SerializeHost(lib, s.host)
    + ":" + Digits(s.port)
  }

  function ParseDigits(s: string): int {
    if s == [] then 0 else ParseDigits(s[..|s| - 1]) * 10 + (s[|s| - 1] as int - '0' as int)
  }

  lemma {:induction false} DigitsRoundTrip(n: nat)
    ensures ParseDigits(Digits(n)) == n
  {
    if n > 0 {
      DigitsRoundTrip(n / 10);
      assert Digits(n)[..|Digits(n)| - 1] == Digits(n / 10);
    }
  }

  /** Host and port: up to the bracket for an IPv6 address, up to the colon for anything else. */
  function ReadHostPort(text: string): Option<(string, int)> {
    if text != [] && text[0] == '[' then
      var k := Until(text, ']');
      if k + 1 < |text| && k > 0 then Some((text[1..k], ParseDigits(text[k + 2..]))) else None
    else
      var k := Until(text, ':');
      if k < |text| then Some((text[..k], ParseDigits(text[k + 1..]))) else None
  }

  /** The parts of a server text, decoded. */
  function ReadPartsOf(scheme: string, user: string, pass: string, at: string): Option<Server> {
    var username, password, place := DecodeCredential(user), DecodeCredential(pass), ReadHostPort(at);
    if username.None? || password.None? || place.None? then None
    else Some(Server(scheme, place.value.0, place.value.1, username.value, password.value))
  }

  /** User name, password, host and port. */
  function ReadAuthority(scheme: string, rest: string): Option<Server> {
    var b := Until(rest, ':');
    var c := Until(rest, '@');
    if b < c < |rest| then ReadPartsOf(scheme, rest[..b], rest[b + 1..c], rest[c + 1..]) else None
  }

  function ReadServer(text: string): Option<Server> {
    var a := Until(text, ':');
    if a + 3 > |text| then None else ReadAuthority(text[..a], text[a + 3..])
  }

  lemma {:induction false} UntilOf(head: string, c: char, rest: string)
    requires c !in head
    ensures Until(head + [c] + rest, c) == |head|
  {
    var s := head + [c] + rest;
    UntilIsFirst(s, c);
    assert s[|head|] == c;
    assert forall i :: 0 <= i < |head| ==> s[i] == head[i];
  }

  lemma {:induction false} DnsAlphabet(h: string)
    requires DnsName(h)
    ensures h != [] && forall i :: 0 <= i < |h| ==> LabelEdge(h[i]) || h[i] == '-' || h[i] == '.'
    decreases |h|
  {
    var k := Until(h, '.');
    UntilIsFirst(h, '.');
    if k < |h| {
      DnsAlphabet(h[k + 1..]);
      forall i | 0 <= i < |h| ensures LabelEdge(h[i]) || h[i] == '-' || h[i] == '.' {
        if i < k { assert h[..k][i] == h[i]; } else if i > k { assert h[k + 1..][i - k - 1] == h[i]; }
      }
    } else {
      assert h[..k] == h;
    }
  }

  lemma HostAlphabet(lib: Addresses, h: string)
    requires Sane(lib) && ValidHost(lib, h)
    ensures '[' !in h && ']' !in h && '"' !in h && h != []
    ensures lib.family(h) != 6 ==> ':' !in h
  {
    if lib.family(h) == 4 || lib.family(h) == 6 {
      assert AddressText(h);
    } else {
      DnsAlphabet(h);
    }
  }

  lemma BracketedRoundTrip(h: string, digits: string)
    requires ']' !in h
    ensures ReadHostPort("[" + h + "]" + ":" + digits) == Some((h, ParseDigits(digits)))
  {
    var text := "[" + h + "]" + ":" + digits;
    assert text == ("[" + h) + [']'] + (":" + digits);
    UntilOf("[" + h, ']', ":" + digits);
    assert text[1..|h| + 1] == h && text[|h| + 3..] == digits;
    hide Until, ParseDigits;
  }

  lemma PlainRoundTrip(h: string, digits: string)
    requires ':' !in h && h != [] && h[0] != '['
    ensures ReadHostPort(h + ":" + digits) == Some((h, ParseDigits(digits)))
  {
    var text := h + ":" + digits;
    assert text == h + [':'] + digits;
    UntilOf(h, ':', digits);
    assert text[..|h|] == h && text[|h| + 1..] == digits;
    hide Until, ParseDigits;
  }

  lemma HostPortRoundTrip(lib: Addresses, h: string, port: nat)
    requires Sane(lib) && ValidHost(lib, h)
    ensures ReadHostPort(SerializeHost(lib, h) + ":" + Digits(port)) == Some((h, port))
  {
    HostAlphabet(lib, h);
    DigitsRoundTrip(port);
    hide ValidHost, Digits, ReadHostPort, ParseDigits;
    if lib.family(h) == 6 {
      BracketedRoundTrip(h, Digits(port));
    } else {
      PlainRoundTrip(h, Digits(port));
    }
  }

  /** The parts of a printed server are found at the separators, which occur in none of them. */
  lemma PartsFound(scheme: string, user: string, pass: string, at: string)
    requires ':' !in scheme
    requires forall i :: 0 <= i < |user| ==> EncodedChar(user[i])
    requires forall i :: 0 <= i < |pass| ==> EncodedChar(pass[i])
    ensures var text := scheme + "://" + user + ":" + pass + "@" + at;
      && Until(text, ':') == |scheme| && text[..|scheme|] == scheme && |scheme| + 3 <= |text|
      && text[|scheme| + 3..] == user + ":" + pass + "@" + at
  {
    hide Until;
    var rest := user + ":" + pass + "@" + at;
    var text := scheme + "://" + user + ":" + pass + "@" + at;
    assert text == scheme + [':'] + ("//" + rest);
    UntilOf(scheme, ':', "//" + rest);
  }

  lemma ReadScheme(scheme: string, user: string, pass: string, at: string)
    requires ':' !in scheme
    requires forall i :: 0 <= i < |user| ==> EncodedChar(user[i])
    requires forall i :: 0 <= i < |pass| ==> EncodedChar(pass[i])
    ensures ReadServer(scheme + "://" + user + ":" + pass + "@" + at) == ReadAuthority(scheme, user + ":" + pass + "@" + at)
  {
    PartsFound(scheme, user, pass, at);
    hide ReadAuthority, Until, EncodedChar;
  }

  lemma ReadRest(scheme: string, user: string, pass: string, at: string)
    requires forall i :: 0 <= i < |user| ==> EncodedChar(user[i])
    requires forall i :: 0 <= i < |pass| ==> EncodedChar(pass[i])
    ensures ReadAuthority(scheme, user + ":" + pass + "@" + at) == ReadPartsOf(scheme, user, pass, at)
  {
    SplitRest(user, pass, at);
    hide ReadPartsOf, Until, EncodedChar;
  }

  lemma ReadParts(scheme: string, user: string, pass: string, at: string)
    requires ':' !in scheme
    requires forall i :: 0 <= i < |user| ==> EncodedChar(user[i])
    requires forall i :: 0 <= i < |pass| ==> EncodedChar(pass[i])
    ensures ReadServer(scheme + "://" + user + ":" + pass + "@" + at) == ReadPartsOf(scheme, user, pass, at)
  {
    hide *;
    ReadScheme(scheme, user, pass, at);
    ReadRest(scheme, user, pass, at);
  }

  /** Reading back what was printed gives the server. */
  lemma ServerRoundTrip(lib: Addresses, s: Server)
    requires Sane(lib) && Accepted(lib, s)
    ensures ReadServer(PrintServer(lib, s)) == Some(s)
  {
    EncodedAlphabet(s.username);
    EncodedAlphabet(s.password);
    CredentialRoundTrip(s.username);
    CredentialRoundTrip(s.password);
    HostPortRoundTrip(lib, s.host, s.port);
    PrintedParts(lib, s);
    hide EncodeCredential, DecodeCredential, SerializeHost, ReadHostPort, Digits, ValidHost, PrintServer, ReadServer, EncodedChar, Printable;
    ReadParts(s.scheme, EncodeCredential(s.username), EncodeCredential(s.password), SerializeHost(lib, s.host) + ":" + Digits(s.port));
  }

  lemma PrintedParts(lib: Addresses, s: Server)
    requires Accepted(lib, s)
    ensures PrintServer(lib, s) == s.scheme + "://" + EncodeCredential(s.username) + ":" + EncodeCredential(s.password) + "@"
                                   + (SerializeHost(lib, s.host) + ":" + Digits(s.port))
  {
    hide EncodeCredential, SerializeHost, Digits, ValidHost;
  }

  lemma SplitRest(user: string, pass: string, at: string)
    requires forall i :: 0 <= i < |user| ==> EncodedChar(user[i])
    requires forall i :: 0 <= i < |pass| ==> EncodedChar(pass[i])
    ensures var rest := user + ":" + pass + "@" + at;
      && Until(rest, ':') == |user| && Until(rest, '@') == |user| + 1 + |pass|
      && rest[..|user|] == user && rest[|user| + 1..|user| + 1 + |pass|] == pass && rest[|user| + 1 + |pass| + 1..] == at
  {
    var rest := user + ":" + pass + "@" + at;
    assert rest == user + [':'] + (pass + "@" + at);
    UntilOf(user, ':', pass + "@" + at);
    assert rest == (user + ":" + pass) + ['@'] + at;
    UntilOf(user + ":" + pass, '@', at);
  }

  lemma ServerInjective(lib: Addresses, a: Server, b: Server)
    requires Sane(lib) && Accepted(lib, a) && Accepted(lib, b) && PrintServer(lib, a) == PrintServer(lib, b)
    ensures a == b
  {
    ServerRoundTrip(lib, a);
    ServerRoundTrip(lib, b);
  }

  // ---------- which servers are accepted, in full ----------

  /** A label of a host name, as the pattern has it. */
  predicate LabelText(l: string) {
    1 <= |l| < 64 && l[0] != '-' && l[|l| - 1] != '-' && forall i :: 0 <= i < |l| ==> 'a' <= l[i] <= 'z' || '0' <= l[i] <= '9' || l[i] == '-'
  }

  function Dotted(labels: seq<string>): string
    requires labels != []
  {
    if |labels| == 1 then labels[0] else labels[0] + "." + Dotted(labels[1..])
  }

  predicate AllLabels(labels: seq<string>) {
    labels != [] && forall i :: 0 <= i < |labels| ==> LabelText(labels[i])
  }

  lemma LabelExactly(l: string)
    ensures Label(l) <==> LabelText(l)
  {
  }

  /** A host name is one or more labels with dots between them. */
  lemma {:induction false} DnsNameSplits(h: string) returns (labels: seq<string>)
    requires DnsName(h)
    ensures AllLabels(labels) && Dotted(labels) == h
    decreases |h|
  {
    var k := Until(h, '.');
    UntilIsFirst(h, '.');
    LabelExactly(h[..k]);
    hide Label, LabelText, Until;
    if k < |h| {
      var rest := DnsNameSplits(h[k + 1..]);
      labels := [h[..k]] + rest;
      hide DnsName;
      assert labels[1..] == rest;
      assert h == h[..k] + "." + h[k + 1..];
    } else {
      labels := [h];
      hide DnsName;
      assert h[..k] == h;
    }
  }

  lemma {:induction false} DottedIsDnsName(labels: seq<string>)
    requires AllLabels(labels)
    ensures DnsName(Dotted(labels))
    decreases |labels|
  {
    var head := labels[0];
    LabelExactly(head);
    assert '.' !in head;
    var h := Dotted(labels);
    hide Label, LabelText;
    if |labels| == 1 {
      UntilIsFirst(h, '.');
      assert h[..Until(h, '.')] == h;
    } else {
      DottedIsDnsName(labels[1..]);
      var rest := Dotted(labels[1..]);
      assert h == head + ['.'] + rest;
      UntilOf(head, '.', rest);
      assert h[..|head|] == head && h[|head| + 1..] == rest;
    }
  }

  /**
   A server is accepted if and only if its scheme is turn or turns; its host is of 1 to 253 characters without capitals and an
   address or dotted labels; its port is from 1 to 65535; and user name and password are 1 to 128 and 1 to 256 characters
   from 0x21 to 0x7E.
   */
  lemma AcceptedExactly(lib: Addresses, s: Server)
    ensures Accepted(lib, s) <==>
              && (s.scheme == "turn" || s.scheme == "turns")
              && 0 < |s.host| < 254
              && (forall i :: 0 <= i < |s.host| ==> s.host[i] < 'A' || 'Z' < s.host[i])
              && (lib.family(s.host) == 4 || lib.family(s.host) == 6 || exists labels :: AllLabels(labels) && s.host == Dotted(labels))
              && 0 < s.port < 65536
              && 0 < |s.username| < 129 && (forall i :: 0 <= i < |s.username| ==> 0x21 <= s.username[i] as int <= 0x7E)
              && 0 < |s.password| < 257 && (forall i :: 0 <= i < |s.password| ==> 0x21 <= s.password[i] as int <= 0x7E)
  {
    if DnsName(s.host) {
      var labels := DnsNameSplits(s.host);
    }
    if labels :| AllLabels(labels) && s.host == Dotted(labels) {
      DottedIsDnsName(labels);
    }
    hide DnsName, AllLabels, Dotted;
  }

  // ---------- the list ----------

  ghost predicate AllAccepted(lib: Addresses, servers: seq<Server>) {
    forall i :: 0 <= i < |servers| ==> Accepted(lib, servers[i])
  }

  ghost function Printed(lib: Addresses, servers: seq<Server>): seq<string>
    requires AllAccepted(lib, servers)
  {
    seq(|servers|, i requires 0 <= i < |servers| => PrintServer(lib, servers[i]))
  }

  ghost predicate Unique<T(!new)>(s: seq<T>) {
    forall i, j :: 0 <= i < j < |s| ==> s[i] != s[j]
  }

  /** The check on the printed strings is a check on the servers. */
  lemma UniquenessIsExact(lib: Addresses, servers: seq<Server>)
    requires Sane(lib) && AllAccepted(lib, servers)
    ensures Unique(Printed(lib, servers)) <==> Unique(servers)
  {
    var texts := Printed(lib, servers);
    hide PrintServer, Accepted;
    if Unique(servers) {
      forall i, j | 0 <= i < j < |texts| ensures texts[i] != texts[j] {
        if texts[i] == texts[j] { ServerInjective(lib, servers[i], servers[j]); }
      }
    } else {
      var i, j :| 0 <= i < j < |servers| && servers[i] == servers[j];
      assert texts[i] == texts[j];
    }
  }

  function Quoted(texts: seq<string>): string {
    if texts == [] then []
    else if |texts| == 1 then "\"" + texts[0] + "\""
    else "\"" + texts[0] + "\"," + Quoted(texts[1..])
  }

  /** The --turn-servers argument. */
  function ListArgument(texts: seq<string>): string {
    if texts == [] then "" else "<" + Quoted(texts) + ">"
  }

  function ReadQuoted(text: string): Option<seq<string>>
    decreases |text|
  {
    if text == [] || text[0] != '"' then None
    else
      var k := Until(text[1..], '"');
      if k + 2 > |text| then None
      else if k + 2 == |text| then Some([text[1..k + 1]])
      else if text[k + 2] != ',' then None
      else
        match ReadQuoted(text[k + 3..])
        case None => None
        case Some(rest) => Some([text[1..k + 1]] + rest)
  }

  function ReadList(text: string): Option<seq<string>> {
    if text == [] then Some([])
    else if |text| < 2 || text[0] != '<' || text[|text| - 1] != '>' then None
    else ReadQuoted(text[1..|text| - 1])
  }

  predicate NoQuotes(texts: seq<string>) {
    forall i :: 0 <= i < |texts| ==> '"' !in texts[i]
  }

  lemma ReadQuotedLast(last: string)
    requires '"' !in last
    ensures ReadQuoted("\"" + last + "\"") == Some([last])
  {
    var text := "\"" + last + "\"";
    assert text[1..] == last + ['"'] + [];
    UntilOf(last, '"', []);
    hide Until;
    assert text[1..|last| + 1] == last;
  }

  lemma ReadQuotedMore(head: string, rest: string)
    requires '"' !in head
    ensures ReadQuoted("\"" + head + "\"," + rest) ==
              match ReadQuoted(rest) { case None => None case Some(texts) => Some([head] + texts) }
  {
    var text := "\"" + head + "\"," + rest;
    assert text[1..] == head + ['"'] + ("," + rest);
    UntilOf(head, '"', "," + rest);
    hide Until;
    assert text[1..|head| + 1] == head;
    assert text[|head| + 3..] == rest && text[|head| + 2] == ',';
  }

  lemma {:induction false} QuotedRoundTrip(texts: seq<string>)
    requires texts != [] && NoQuotes(texts)
    ensures ReadQuoted(Quoted(texts)) == Some(texts)
    decreases |texts|
  {
    hide ReadQuoted;
    if |texts| == 1 {
      ReadQuotedLast(texts[0]);
      assert texts == [texts[0]];
    } else {
      ReadQuotedMore(texts[0], Quoted(texts[1..]));
      QuotedRoundTrip(texts[1..]);
      assert texts == [texts[0]] + texts[1..];
    }
  }

  lemma ListRoundTrip(texts: seq<string>)
    requires NoQuotes(texts)
    ensures ReadList(ListArgument(texts)).Some? && ReadList(ListArgument(texts)).value == texts
  {
    var text := ListArgument(texts);
    if texts != [] {
      QuotedRoundTrip(texts);
      hide ReadQuoted, Quoted;
      assert text[1..|text| - 1] == Quoted(texts);
      assert text[0] == '<' && text[|text| - 1] == '>';
      assert ReadList(text) == ReadQuoted(Quoted(texts));
    }
  }

  lemma DigitsOnly(n: nat)
    requires n > 0
    ensures '"' !in Digits(n)
  {
    DigitsShape(n);
    hide Digits;
    assert forall i :: 0 <= i < |Digits(n)| ==> IsDigit(Digits(n)[i]);
  }

  lemma PrintedHasNoQuotes(lib: Addresses, s: Server)
    requires Sane(lib) && Accepted(lib, s)
    ensures '"' !in PrintServer(lib, s)
  {
    EncodedAlphabet(s.username);
    EncodedAlphabet(s.password);
    HostAlphabet(lib, s.host);
    DigitsOnly(s.port);
    var user, pass := EncodeCredential(s.username), EncodeCredential(s.password);
    assert '"' !in user && '"' !in pass;
    assert '"' !in SerializeHost(lib, s.host);
    assert '"' !in s.scheme;
    hide EncodeCredential, SerializeHost, Digits, ValidHost;
  }

  /** Reads the argument, and each text of it as a server. */
  ghost predicate ReadsAs(text: string, servers: seq<Server>) {
    ReadList(text).Some? && |ReadList(text).value| == |servers|
    && forall i :: 0 <= i < |servers| ==> ReadServer(ReadList(text).value[i]) == Some(servers[i])
  }

  /** The argument reads back as the accepted list it was printed from, and as no other. */
  lemma ArgumentRoundTrip(lib: Addresses, servers: seq<Server>, others: seq<Server>)
    requires Sane(lib) && AllAccepted(lib, servers)
    ensures ReadsAs(ListArgument(Printed(lib, servers)), others) <==> others == servers
  {
    var texts := Printed(lib, servers);
    hide Accepted, PrintServer, ListArgument, ReadList, ReadServer;
    forall i | 0 <= i < |servers| ensures '"' !in texts[i] && ReadServer(texts[i]) == Some(servers[i]) {
      PrintedHasNoQuotes(lib, servers[i]);
      ServerRoundTrip(lib, servers[i]);
    }
    ListRoundTrip(texts);
  }
}
