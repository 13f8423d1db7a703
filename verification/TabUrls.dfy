/** URL handling of session/tab-control.mjs: the home alias, the accepted schemes, and what the driver puts on the wire. */
module TabUrls {
  import opened Wrappers
  import opened TabWire

  const INTERNAL_HOME := "file:///usr/share/fireball-session/home.html"
  const PUBLIC_HOME := "fireball://home"

  datatype ParsedUrl = ParsedUrl(protocol: string, username: string, password: string, hostname: string, href: string)

  /** The URL parser of the JavaScript runtime, the UTF-8 encoder, and the URL check of the native runtime. */
  datatype Library = Library(
    parse: string -> Option<ParsedUrl>,
    utf8: string -> seq<Byte>,
    nativeAccepts: seq<Byte> -> bool)

  predicate Acceptable(p: ParsedUrl) {
    (p.protocol == "http:" || p.protocol == "https:") && p.username == "" && p.password == "" && p.hostname != ""
  }

  /**
   What is assumed of the libraries. A serialised URL parses to itself; that of an accepted URL is not one of the home
   aliases and its bytes are there and free of NUL.
   */
  ghost predicate Sane(lib: Library) {
    && Sendable(lib.utf8(INTERNAL_HOME)) && lib.nativeAccepts(lib.utf8(INTERNAL_HOME))
    && forall v: string :: lib.parse(v).Some? && Acceptable(lib.parse(v).value) ==> SaneResult(lib, lib.parse(v).value)
  }

  ghost predicate SaneResult(lib: Library, p: ParsedUrl) {
    && lib.parse(p.href) == Some(p)
    && p.href != INTERNAL_HOME && p.href != PUBLIC_HOME
    && lib.utf8(p.href) != [] && NoNul(lib.utf8(p.href))
  }

  /** The assumptions can be met. */
  lemma SaneExists()
    ensures exists lib :: Sane(lib) && lib.parse("http://a/").Some? && Acceptable(lib.parse("http://a/").value)
  {
    var lib := Library(v => if v == "http://a/" then Some(ParsedUrl("http:", "", "", "a", "http://a/")) else None, v => [1], b => true);
    assert Sane(lib) && lib.parse("http://a/").Some? && Acceptable(lib.parse("http://a/").value);
  }

  /** normalizeTabUrl; None is TAB_URL_INVALID. */
  function NormalizeTabUrl(lib: Library, value: Option<string>): Option<string> {
    if value.None? || value.value == PUBLIC_HOME || value.value == INTERNAL_HOME then Some(INTERNAL_HOME)
    else if |lib.utf8(value.value)| > MAXIMUM_URL_BYTES then None
    else
      match lib.parse(value.value)
      case None => None
      case Some(p) => if Acceptable(p) then Some(p.href) else None
  }

  /** encodeUrl, before the hexadecimal form: it normalises once more. */
  function EncodeUrl(lib: Library, url: string): Option<seq<Byte>> {
    match NormalizeTabUrl(lib, Some(url))
    case None => None
    case Some(u) => Some(lib.utf8(u))
  }

  function PublicTabUrl(url: string): string {
    if url == INTERNAL_HOME then PUBLIC_HOME else url
  }

  function InternalTabUrl(url: string): string {
    if url == PUBLIC_HOME then INTERNAL_HOME else url
  }

  /** The alias is undone by its inverse, for everything the normaliser yields. */
  lemma AliasRoundTrip(lib: Library, value: Option<string>)
    requires Sane(lib) && NormalizeTabUrl(lib, value).Some?
    ensures InternalTabUrl(PublicTabUrl(NormalizeTabUrl(lib, value).value)) == NormalizeTabUrl(lib, value).value
  {
  }

  /**
   Normalising twice changes nothing, but for one case: a serialised URL that has grown beyond the limit is refused the
   second time, in the driver, before anything is sent.
   */
  lemma EncodesNormalized(lib: Library, value: Option<string>)
    requires Sane(lib) && NormalizeTabUrl(lib, value).Some?
    ensures var u := NormalizeTabUrl(lib, value).value;
      && EncodeUrl(lib, u) == (if |lib.utf8(u)| <= MAXIMUM_URL_BYTES then Some(lib.utf8(u)) else None)
      && (EncodeUrl(lib, u).Some? ==> Sendable(EncodeUrl(lib, u).value))
  {
    assert value.Some? && lib.parse(value.value).Some? && Acceptable(lib.parse(value.value).value) ==>
        SaneResult(lib, lib.parse(value.value).value);
  }

  /**
   Which addresses are refused, in full. The home page, under either name or left out, is always taken and is sent as the
   file; any other is refused if and only if it is over 4096 bytes, does not parse, is neither http nor https, carries a user
   name or a password, or has no host; and what is taken is the serialised form of the parser.
   */
  lemma RefusedExactly(lib: Library, value: Option<string>)
    ensures var home := value.None? || value.value == "fireball://home" || value.value == "file:///usr/share/fireball-session/home.html";
      && (home ==> NormalizeTabUrl(lib, value) == Some("file:///usr/share/fireball-session/home.html"))
      && (!home ==>
            (NormalizeTabUrl(lib, value) == None <==>
              || |lib.utf8(value.value)| > 4096
              || lib.parse(value.value) == None
              || lib.parse(value.value).value.protocol !in ["http:", "https:"]
              || lib.parse(value.value).value.username != ""
              || lib.parse(value.value).value.password != ""
              || lib.parse(value.value).value.hostname == ""))
      && (!home && NormalizeTabUrl(lib, value).Some? ==> NormalizeTabUrl(lib, value).value == lib.parse(value.value).value.href)
  {
    var schemes := ["http:", "https:"];
    assert schemes[0] == "http:" && schemes[1] == "https:";
    forall x: string ensures x in schemes <==> x == "http:" || x == "https:" {
      if x == "http:" { assert schemes[0] == x; }
      if x == "https:" { assert schemes[1] == x; }
    }
  }
}
