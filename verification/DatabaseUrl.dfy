/**
 * The database URL: composed with its credentials encoded
 * (packages/cli-env/src/db-url.ts), pointed at the tunnel
 * (packages/cli-env/src/connection.ts) and read back by the API
 * (apps/api/src/db/credentials.util.ts).
 *
 * Strings from the secret are their UTF-8 bytes; percent-encoding is that of
 * sections 2.1 and 3.2.1 of RFC 3986.
 */
module DatabaseUrl {
  import opened Wrappers

  type Byte = b: int | 0 <= b < 256

  // ---------------------------------------------------------------------------
  // encodeURIComponent and decodeURIComponent
  // ---------------------------------------------------------------------------

  predicate Alphanumeric(c: char) {
    'a' <= c <= 'z' || 'A' <= c <= 'Z' || '0' <= c <= '9'
  }

  /** What `encodeURIComponent` leaves as it is. */
  predicate Kept(c: char) {
    Alphanumeric(c) || c in "-_.!~*'()"
  }

  function HexDigit(d: nat): char
    requires d < 16
  {
    "0123456789ABCDEF"[d]
  }

  function HexValue(c: char): Option<nat> {
    if '0' <= c <= '9' then Some((c as int - '0' as int) as nat)
    else if 'A' <= c <= 'F' then Some((c as int - 'A' as int + 10) as nat)
    else if 'a' <= c <= 'f' then Some((c as int - 'a' as int + 10) as nat)
    else None
  }

  function EncodeByte(b: Byte): string {
    if b < 128 && Kept(b as char) then [b as char] else ['%', HexDigit(b / 16), HexDigit(b % 16)]
  }

  function Encode(bytes: seq<Byte>): string {
    if bytes == [] then "" else EncodeByte(bytes[0]) + Encode(bytes[1..])
  }

  /** The bytes `decodeURIComponent` reads; None where it throws, or for a
      character a parsed URL cannot hold. */
  function Decode(s: string): Option<seq<Byte>>
    decreases |s|
  {
    if s == "" then Some([])
    else if s[0] != '%' then
      if s[0] as int >= 128 then None
      else
        var rest := Decode(s[1..]);
        if rest.None? then None else Some([s[0] as int as Byte] + rest.value)
    else if |s| < 3 || HexValue(s[1]).None? || HexValue(s[2]).None? then None
    else
      var rest := Decode(s[3..]);
      var b := 16 * HexValue(s[1]).value + HexValue(s[2]).value;
      if rest.None? || b >= 256 then None else Some([b] + rest.value)
  }

  lemma HexRoundTrip(d: nat)
    requires d < 16
    ensures HexValue(HexDigit(d)) == Some(d)
  {
    assert HexDigit(d) == if d < 10 then ('0' as int + d) as char else ('A' as int + d - 10) as char;
  }

  /** Decoding undoes encoding, byte for byte. */
  lemma {:induction false} DecodeUndoesEncode(bytes: seq<Byte>)
    ensures Decode(Encode(bytes)) == Some(bytes)
    decreases |bytes|
  {
    if bytes != [] {
      DecodeUndoesEncode(bytes[1..]);
      DecodeOne(bytes[0], Encode(bytes[1..]));
      assert [bytes[0]] + bytes[1..] == bytes;
    }
  }

  /** Decoding takes one encoded byte off the front. */
  lemma DecodeOne(b: Byte, rest: string)
    requires Decode(rest).Some?
    ensures Decode(EncodeByte(b) + rest) == Some([b] + Decode(rest).value)
  {
    var s := EncodeByte(b) + rest;
    if b < 128 && Kept(b as char) {
      assert s[0] == b as char && s[0] != '%' && s[1..] == rest;
    } else {
      HexRoundTrip(b / 16);
      HexRoundTrip(b % 16);
      assert s[0] == '%' && s[1] == HexDigit(b / 16) && s[2] == HexDigit(b % 16) && s[3..] == rest;
    }
  }

  /** An encoded component holds no delimiter, only kept characters and escapes. */
  predicate Escaped(s: string) {
    forall i :: 0 <= i < |s| ==> Kept(s[i]) || s[i] == '%'
  }

  lemma {:induction false} EncodeEscapes(bytes: seq<Byte>)
    ensures Escaped(Encode(bytes))
    ensures bytes != [] ==> Encode(bytes) != ""
    decreases |bytes|
  {
    if bytes != [] {
      EncodeEscapes(bytes[1..]);
      var b := bytes[0];
      assert Escaped(EncodeByte(b));
    }
  }

  /** Exactly the letters, the digits and `-_.!~*'()` stay as they are; every other
      byte becomes a percent sign and its two upper-case hexadecimal digits. */
  lemma EncodesByteExactly(b: Byte)
    ensures var c := b as char;
      if ('a' <= c <= 'z') || ('A' <= c <= 'Z') || ('0' <= c <= '9')
         || c in ['-', '_', '.', '!', '~', '*', '\'', '(', ')']
      then Encode([b]) == [c]
      else
        && |Encode([b])| == 3 && Encode([b])[0] == '%'
        && Encode([b])[1] in "0123456789ABCDEF" && Encode([b])[2] in "0123456789ABCDEF"
  {
    assert [b][1..] == [];
    assert Encode([b]) == EncodeByte(b) + "";
    assert HexDigit(b / 16) == "0123456789ABCDEF"[b / 16] && HexDigit(b % 16) == "0123456789ABCDEF"[b % 16];
  }

  // ---------------------------------------------------------------------------
  // The URL parser, for a scheme with an authority
  // ---------------------------------------------------------------------------

  datatype Url = Url(protocol: string, username: string, password: string, hostname: string,
                     port: string, pathname: string, search: string)

  /** `s` cut before its first character in `stops`. */
  function Cut(s: string, stops: string): (string, string) {
    if s == "" || s[0] in stops then ("", s)
    else
      var (head, tail) := Cut(s[1..], stops);
      ([s[0]] + head, tail)
  }

  /** `s` cut around its last `c`; None when it has none. */
  function CutLast(s: string, c: char): Option<(string, string)> {
    if s == "" then None
    else
      var later := CutLast(s[1..], c);
      if later.Some? then Some(([s[0]] + later.value.0, later.value.1))
      else if s[0] == c then Some(("", s[1..]))
      else None
  }

  /** What follows the one-character delimiter `s` starts with, if anything. */
  function Rest(s: string): string {
    if s == "" then "" else s[1..]
  }

  /** `user:password@host:port`; the last at-sign ends the credentials. */
  function ParseAuthority(authority: string): (string, string, string, string) {
    var split := CutLast(authority, '@');
    var userinfo := if split.Some? then split.value.0 else "";
    var host := if split.Some? then split.value.1 else authority;
    var (user, password) := Cut(userinfo, ":");
    var (hostname, port) := Cut(host, ":");
    (user, Rest(password), hostname, Rest(port))
  }

  /** `/path?query#fragment`; a query with nothing in it reads as none. */
  function ParseTail(tail: string): (string, string) {
    var (path, more) := Cut(tail, "?#");
    var search := Cut(more, "#").0;
    (path, if search == "?" then "" else search)
  }

  /** No character of `s` is one a URL's host cannot hold. */
  predicate HostAllowed(s: string) {
    forall i :: 0 <= i < |s| ==> s[i] > ' ' && s[i] !in "#/:<>?@[\\]^|"
  }

  function Digits(s: string): Option<nat> {
    if s == "" then Some(0)
    else
      var front, last := Digits(s[..|s| - 1]), s[|s| - 1];
      if front.None? || !('0' <= last <= '9') then None else Some(10 * front.value + (last as int - '0' as int))
  }

  /** Decimal, in 16 bits; no port at all is one too. */
  predicate PortAllowed(s: string) {
    Digits(s).Some? && Digits(s).value < 0x1_0000
  }

  predicate Usable(host: string, port: string) {
    host != "" && HostAllowed(host) && PortAllowed(port)
  }

  /** Refused for a host or a port that cannot be one, and for credentials or a port
      without a host. */
  function ParseUrl(url: string): Option<Url> {
    var (scheme, more) := Cut(url, ":");
    if !("://" <= more) then None
    else
      var (authority, tail) := Cut(more[3..], "/?#");
      var (user, password, hostname, port) := ParseAuthority(authority);
      var (path, search) := ParseTail(tail);
      if authority != "" && !Usable(hostname, port) then None
      else Some(Url(scheme + ":", user, password, hostname, port, path, search))
  }

  // ---------------------------------------------------------------------------
  // The three users of a URL
  // ---------------------------------------------------------------------------

  datatype Master = Master(username: seq<Byte>, password: seq<Byte>)

  /** The stack's exports and the caller's options. */
  datatype Target = Target(endpoint: string, port: string, dbName: string, sslMode: string)

  /** `scheme://authority` and what follows. */
  function Assemble(scheme: string, authority: string, tail: string): string {
    scheme + ("://" + (authority + tail))
  }

  function Credentials(user: string, password: string): string {
    user + (":" + password)
  }

  function Authority(credentials: string, host: string, port: string): string {
    credentials + ("@" + (host + (":" + port)))
  }

  function Compose(credentials: string, target: Target): string {
    Assemble("postgresql", Authority(credentials, target.endpoint, target.port),
             "/" + (target.dbName + ("?sslmode=" + target.sslMode)))
  }

  /** Refused when the secret lacks a username or a password. */
  function ComposeDatabaseUrl(master: Master, target: Target): Option<string> {
    if master.username == [] || master.password == [] then None
    else Some(Compose(Credentials(Encode(master.username), Encode(master.password)), target))
  }

  function RewriteToLocalhost(url: string, localPort: string): Option<string> {
    var parsed := ParseUrl(url);
    if parsed.None? then None
    else
      var u := parsed.value;
      var credentials := if u.password == "" then u.username else Credentials(u.username, u.password);
      var authority :=
        if u.username == "" then "localhost" + (":" + localPort) else Authority(credentials, "localhost", localPort);
      Some(u.protocol + ("//" + (authority + (u.pathname + u.search))))
  }

  /** The decoded password; empty for a URL that does not parse or decode. */
  function FallbackPassword(url: string): seq<Byte> {
    var parsed := ParseUrl(url);
    if parsed.None? || Decode(parsed.value.password).None? then [] else Decode(parsed.value.password).value
  }

  // ---------------------------------------------------------------------------
  // The round trip
  // ---------------------------------------------------------------------------

  /** `s` holds none of `stops`. */
  predicate Free(s: string, stops: string) {
    forall i :: 0 <= i < |s| ==> s[i] !in stops
  }

  /** A host name: not empty, of letters, digits, dots, hyphens and underscores. */
  predicate HostName(s: string) {
    s != "" && forall i :: 0 <= i < |s| ==> Alphanumeric(s[i]) || s[i] in ".-_"
  }

  /** A port as a number prints: decimal, not zero-led unless zero, in 16 bits. */
  predicate PortNumber(s: string) {
    s != "" && (s[0] == '0' ==> s == "0") && PortAllowed(s)
  }

  lemma {:induction false} DigitsAreDigits(s: string)
    requires Digits(s).Some?
    ensures forall i :: 0 <= i < |s| ==> '0' <= s[i] <= '9'
  {
    if s != "" { DigitsAreDigits(s[..|s| - 1]); }
  }

  /** Nothing in the target would end a component early. */
  predicate FreeTarget(t: Target) {
    Free(t.endpoint, ":/?#@") && Free(t.port, ":/?#@") && Free(t.dbName, "?#") && Free(t.sslMode, "#")
  }

  predicate PlainTarget(t: Target) {
    HostName(t.endpoint) && PortNumber(t.port) && Free(t.dbName, "?#") && Free(t.sslMode, "#")
  }

  lemma PlainIsUsable(host: string, port: string)
    requires HostName(host) && PortNumber(port)
    ensures Usable(host, port) && Free(host, ":/?#@") && Free(port, ":/?#@")
  {
    DigitsAreDigits(port);
  }

  lemma {:induction false} CutFinds(a: string, b: string, stops: string)
    requires Free(a, stops) && (b == "" || b[0] in stops)
    ensures Cut(a + b, stops) == (a, b)
    decreases |a|
  {
    if a == "" {
      assert a + b == b;
    } else {
      assert (a + b)[1..] == a[1..] + b;
      CutFinds(a[1..], b, stops);
      assert [a[0]] + a[1..] == a;
    }
  }

  lemma {:induction false} CutLastFinds(a: string, c: char, b: string)
    requires Free(b, [c])
    ensures CutLast(a + ([c] + b), c) == Some((a, b))
    decreases |a|
  {
    if a == "" {
      assert a + ([c] + b) == [c] + b && ([c] + b)[1..] == b;
      NoCutLast(b, c);
    } else {
      assert (a + ([c] + b))[1..] == a[1..] + ([c] + b);
      CutLastFinds(a[1..], c, b);
      assert [a[0]] + a[1..] == a;
    }
  }

  lemma {:induction false} NoCutLast(s: string, c: char)
    requires Free(s, [c])
    ensures CutLast(s, c).None?
  {
    if s != "" {
      assert s[0] !in [c];
      assert Free(s[1..], [c]);
      NoCutLast(s[1..], c);
    }
  }

  lemma FreeConcat(a: string, b: string, stops: string)
    requires Free(a, stops) && Free(b, stops)
    ensures Free(a + b, stops)
  {
  }

  lemma FreeOfFewer(s: string, stops: string, fewer: string)
    requires Free(s, stops) && forall c :: c in fewer ==> c in stops
    ensures Free(s, fewer)
  {
  }

  lemma EscapedIsFree(s: string)
    requires Escaped(s)
    ensures Free(s, ":/?#@") && Free(s, ":") && Free(s, "/?#")
  {
    forall i | 0 <= i < |s| ensures s[i] !in ":/?#@" {
      assert Kept(s[i]) || s[i] == '%';
    }
    FreeOfFewer(s, ":/?#@", ":");
    FreeOfFewer(s, ":/?#@", "/?#");
  }

  lemma AuthorityParses(user: string, password: string, host: string, port: string)
    requires Free(user, ":") && Free(host, ":@") && Free(port, ":@")
    ensures ParseAuthority(Authority(Credentials(user, password), host, port)) == (user, password, host, port)
  {
    var userinfo, hostport := Credentials(user, password), host + (":" + port);
    FreeOfFewer(host, ":@", "@");
    FreeOfFewer(port, ":@", "@");
    FreeOfFewer(host, ":@", ":");
    FreeConcat(":", port, "@");
    FreeConcat(host, ":" + port, "@");
    assert ['@'] == "@";
    CutLastFinds(userinfo, '@', hostport);
    CutFinds(user, ":" + password, ":");
    CutFinds(host, ":" + port, ":");
  }

  lemma TailParses(path: string, query: string)
    requires Free(path, "?#") && Free(query, "#") && query != ""
    ensures ParseTail(path + ("?" + query)) == (path, "?" + query)
  {
    CutFinds(path, "?" + query, "?#");
    FreeConcat("?", query, "#");
    CutFinds("?" + query, "", "#");
    assert ("?" + query) + "" == "?" + query;
    assert |"?" + query| > 1;
  }

  lemma AssembledParses(scheme: string, authority: string, tail: string)
    requires Free(scheme, ":") && Free(authority, "/?#") && tail != "" && tail[0] == '/'
    requires authority != ""
    ensures var (user, password, hostname, port) := ParseAuthority(authority);
      var (path, search) := ParseTail(tail);
      ParseUrl(Assemble(scheme, authority, tail))
      == if Usable(hostname, port) then Some(Url(scheme + ":", user, password, hostname, port, path, search)) else None
  {
    var more := "://" + (authority + tail);
    CutFinds(scheme, more, ":");
    assert more[3..] == authority + tail;
    CutFinds(authority, tail, "/?#");
  }

  /** The parts a URL is assembled from here: escaped credentials, nothing that
      would end a component early. */
  predicate PlainParts(user: string, password: string, host: string, port: string, path: string, query: string) {
    && Escaped(user) && Escaped(password) && Free(host, ":/?#@") && Free(port, ":/?#@")
    && path != "" && path[0] == '/' && Free(path, "?#") && query != "" && Free(query, "#")
  }

  lemma AuthorityIsFree(user: string, password: string, host: string, port: string)
    requires Free(user, "/?#") && Free(password, "/?#") && Free(host, "/?#") && Free(port, "/?#")
    ensures Free(Authority(Credentials(user, password), host, port), "/?#")
  {
    FreeConcat(":", password, "/?#");
    FreeConcat(user, ":" + password, "/?#");
    FreeConcat(":", port, "/?#");
    FreeConcat(host, ":" + port, "/?#");
    FreeConcat("@", host + (":" + port), "/?#");
    FreeConcat(Credentials(user, password), "@" + (host + (":" + port)), "/?#");
  }

  lemma PlainAuthority(user: string, password: string, host: string, port: string)
    requires Escaped(user) && Escaped(password) && Free(host, ":/?#@") && Free(port, ":/?#@")
    ensures Free(Authority(Credentials(user, password), host, port), "/?#")
    ensures ParseAuthority(Authority(Credentials(user, password), host, port)) == (user, password, host, port)
  {
    EscapedIsFree(user);
    EscapedIsFree(password);
    FreeOfFewer(host, ":/?#@", "/?#");
    FreeOfFewer(port, ":/?#@", "/?#");
    AuthorityIsFree(user, password, host, port);
    FreeOfFewer(host, ":/?#@", ":@");
    FreeOfFewer(port, ":/?#@", ":@");
    AuthorityParses(user, password, host, port);
  }

  /** Parsing a URL assembled from plain parts gives back the parts, or refuses a
      host or port that cannot be one. */
  lemma PartsParse(user: string, password: string, host: string, port: string, path: string, query: string)
    requires PlainParts(user, password, host, port, path, query)
    ensures ParseUrl(Assemble("postgresql", Authority(Credentials(user, password), host, port), path + ("?" + query)))
            == if Usable(host, port)
               then Some(Url("postgresql:", user, password, host, port, path, "?" + query)) else None
  {
    PlainAuthority(user, password, host, port);
    TailParses(path, query);
    var authority, tail := Authority(Credentials(user, password), host, port), path + ("?" + query);
    SchemeIsFree();
    assert tail[0] == '/';
    AssembledParses("postgresql", authority, tail);
  }

  lemma SchemeIsFree()
    ensures Free("postgresql", ":") && "postgresql" + ":" == "postgresql:"
  {
  }

  lemma RewrittenParses(url: string, localPort: string, u: Url, query: string)
    requires ParseUrl(url) == Some(u) && u.protocol == "postgresql:" && u.search == "?" + query
    requires u.username != "" && u.password != "" && PortNumber(localPort)
    requires PlainParts(u.username, u.password, u.hostname, u.port, u.pathname, query)
    ensures RewriteToLocalhost(url, localPort).Some?
    ensures ParseUrl(RewriteToLocalhost(url, localPort).value) == Some(u.(hostname := "localhost", port := localPort))
  {
    LocalhostIsAName();
    PlainIsUsable("localhost", localPort);
    PartsParse(u.username, u.password, "localhost", localPort, u.pathname, query);
    SameStart(Authority(Credentials(u.username, u.password), "localhost", localPort) + (u.pathname + ("?" + query)));
  }

  lemma LocalhostIsAName()
    ensures HostName("localhost")
  {
  }

  lemma SameStart(rest: string)
    ensures "postgresql:" + ("//" + rest) == "postgresql" + ("://" + rest)
  {
  }

  /** The URL, written out; and a secret without a username or a password is refused. */
  lemma ComposesExactly(master: Master, target: Target)
    ensures ComposeDatabaseUrl(master, target).None? <==> master.username == [] || master.password == []
    ensures ComposeDatabaseUrl(master, target).Some? ==>
              ComposeDatabaseUrl(master, target).value ==
              "postgresql://" + Encode(master.username) + ":" + Encode(master.password) + "@"
              + target.endpoint + ":" + target.port + "/" + target.dbName + "?sslmode=" + target.sslMode
  {
    if ComposeDatabaseUrl(master, target).Some? {
      var user, password, pre := Encode(master.username), Encode(master.password), "postgresql://";
      var host := "@" + (target.endpoint + (":" + target.port));
      var tail := "/" + (target.dbName + ("?sslmode=" + target.sslMode));
      Regroup("postgresql", "://", Authority(Credentials(user, password), target.endpoint, target.port) + tail);
      assert "postgresql" + "://" == pre;
      Regroup(pre, Authority(Credentials(user, password), target.endpoint, target.port), tail);
      Regroup(pre, Credentials(user, password), host);
      AppendThree(pre, user, ":", password);
      AppendFour(pre + user + ":" + password, "@", target.endpoint, ":", target.port);
      AppendFour(pre + user + ":" + password + "@" + target.endpoint + ":" + target.port,
                 "/", target.dbName, "?sslmode=", target.sslMode);
    }
  }

  lemma Regroup(a: string, b: string, c: string)
    ensures (a + b) + c == a + (b + c)
  {
  }

  lemma AppendThree(s: string, a: string, b: string, c: string)
    ensures s + (a + (b + c)) == s + a + b + c
  {
    Regroup(s, a, b + c);
    Regroup(s + a, b, c);
  }

  lemma AppendFour(s: string, a: string, b: string, c: string, d: string)
    ensures s + (a + (b + (c + d))) == s + a + b + c + d
  {
    Regroup(s, a, b + (c + d));
    AppendThree(s + a, b, c, d);
  }

  /** The credentials of a URL as they are written before its host. */
  function Login(username: string, password: string): string {
    if username == "" then "" else if password == "" then username + "@" else username + ":" + password + "@"
  }

  /** Rewriting keeps scheme, credentials, path and query of any URL, with or without
      a password or credentials at all; one that does not parse has no password. */
  lemma RewritesExactly(url: string, localPort: string)
    ensures match ParseUrl(url)
      case None => RewriteToLocalhost(url, localPort).None? && FallbackPassword(url) == []
      case Some(u) =>
        && RewriteToLocalhost(url, localPort) ==
           Some(u.protocol + "//" + Login(u.username, u.password) + "localhost:" + localPort + u.pathname + u.search)
        && (Decode(u.password).None? ==> FallbackPassword(url) == [])
  {
    var parsed := ParseUrl(url);
    if parsed.Some? {
      var u := parsed.value;
      if u.username == "" {
        assert "" + ("localhost" + (":" + localPort)) == "localhost" + (":" + localPort);
      } else {
        LocalAuthority(u.username, u.password, localPort);
      }
      WrittenOut(u.protocol, Login(u.username, u.password), localPort, u.pathname, u.search);
    }
  }

  lemma LocalAuthority(username: string, password: string, localPort: string)
    requires username != ""
    ensures Authority(if password == "" then username else Credentials(username, password), "localhost", localPort)
            == Login(username, password) + ("localhost" + (":" + localPort))
  {
    var named := if password == "" then username else Credentials(username, password);
    Regroup(named, "@", "localhost" + (":" + localPort));
    if password != "" { Regroup(username, ":", password); }
  }

  lemma WrittenOut(protocol: string, login: string, localPort: string, path: string, search: string)
    ensures protocol + ("//" + ((login + ("localhost" + (":" + localPort))) + (path + search)))
            == protocol + "//" + login + "localhost:" + localPort + path + search
  {
    var authority := login + ("localhost" + (":" + localPort));
    var pre := protocol + "//";
    AppendThree(protocol, "//", authority, path + search);
    Regroup(pre + authority, path, search);
    Regroup("localhost", ":", localPort);
    assert "localhost" + ":" == "localhost:";
    Regroup(pre, login, "localhost:" + localPort);
    Regroup(pre + login, "localhost:", localPort);
  }

  /** A composed URL parses back to its parts, whatever bytes the username and
      password hold. */
  lemma ComposedUrlParses(master: Master, target: Target)
    requires master.username != [] && master.password != [] && PlainTarget(target)
    ensures ComposeDatabaseUrl(master, target).Some?
    ensures ParseUrl(ComposeDatabaseUrl(master, target).value) ==
            Some(Url("postgresql:", Encode(master.username), Encode(master.password),
                     target.endpoint, target.port, "/" + target.dbName, "?sslmode=" + target.sslMode))
  {
    PlainIsUsable(target.endpoint, target.port);
    TargetIsPlain(master, target);
    SameTail(target.dbName, target.sslMode);
    PartsParse(Encode(master.username), Encode(master.password), target.endpoint, target.port,
               "/" + target.dbName, "sslmode=" + target.sslMode);
  }

  lemma TargetIsPlain(master: Master, target: Target)
    requires master.username != [] && master.password != [] && FreeTarget(target)
    ensures PlainParts(Encode(master.username), Encode(master.password), target.endpoint, target.port,
                       "/" + target.dbName, "sslmode=" + target.sslMode)
    ensures Encode(master.username) != "" && Encode(master.password) != ""
  {
    EncodeEscapes(master.username);
    EncodeEscapes(master.password);
    FreeConcat("/", target.dbName, "?#");
    FreeConcat("sslmode=", target.sslMode, "#");
  }

  lemma SameTail(dbName: string, sslMode: string)
    ensures "/" + (dbName + ("?sslmode=" + sslMode)) == ("/" + dbName) + ("?" + ("sslmode=" + sslMode))
    ensures "?" + ("sslmode=" + sslMode) == "?sslmode=" + sslMode
  {
    assert "?sslmode=" == "?" + "sslmode=";
  }

  /** Rewriting a composed URL for the tunnel changes the endpoint and nothing
      else, and the password read back, before or after, is the one in the secret. */
  lemma CredentialsSurviveTheTunnel(master: Master, target: Target, localPort: string)
    requires master.username != [] && master.password != [] && PlainTarget(target) && PortNumber(localPort)
    ensures ComposeDatabaseUrl(master, target).Some?
    ensures var url := ComposeDatabaseUrl(master, target).value;
      var rewritten := RewriteToLocalhost(url, localPort);
      && rewritten.Some? && ParseUrl(url).Some?
      && ParseUrl(rewritten.value) == Some(ParseUrl(url).value.(hostname := "localhost", port := localPort))
      && FallbackPassword(url) == master.password
      && FallbackPassword(rewritten.value) == master.password
  {
    ComposedUrlParses(master, target);
    PlainIsUsable(target.endpoint, target.port);
    TargetIsPlain(master, target);
    DecodeUndoesEncode(master.password);
    var url := ComposeDatabaseUrl(master, target).value;
    var query := "sslmode=" + target.sslMode;
    assert "?" + query == "?sslmode=" + target.sslMode by { SameTail(target.dbName, target.sslMode); }
    RewrittenParses(url, localPort, ParseUrl(url).value, query);
  }

  /** The password is read back exactly when the endpoint and the port can be those
      of a URL; else nothing is read. */
  lemma FallbackReadsExactly(master: Master, target: Target)
    requires master.username != [] && master.password != [] && FreeTarget(target)
    ensures ComposeDatabaseUrl(master, target).Some?
    ensures FallbackPassword(ComposeDatabaseUrl(master, target).value)
            == if Usable(target.endpoint, target.port) then master.password else []
  {
    TargetIsPlain(master, target);
    SameTail(target.dbName, target.sslMode);
    PartsParse(Encode(master.username), Encode(master.password), target.endpoint, target.port,
               "/" + target.dbName, "sslmode=" + target.sslMode);
    DecodeUndoesEncode(master.password);
  }

  /** Different secrets, or different targets, never compose to the same URL. */
  lemma ComposedUrlIsInjective(a: Master, b: Master, s: Target, t: Target)
    requires a.username != [] && a.password != [] && PlainTarget(s)
    requires b.username != [] && b.password != [] && PlainTarget(t)
    requires ComposeDatabaseUrl(a, s) == ComposeDatabaseUrl(b, t)
    ensures a == b && s == t
  {
    ComposedUrlParses(a, s);
    ComposedUrlParses(b, t);
    EncodingIsInjective(a.username, b.username);
    EncodingIsInjective(a.password, b.password);
    TailIsInjective("/", s.dbName, t.dbName);
    TailIsInjective("?sslmode=", s.sslMode, t.sslMode);
  }

  lemma TailIsInjective(head: string, a: string, b: string)
    requires head + a == head + b
    ensures a == b
  {
    assert (head + a)[|head|..] == a && (head + b)[|head|..] == b;
  }

  /** Encoded components are as distinct as the bytes in them. */
  lemma EncodingIsInjective(a: seq<Byte>, b: seq<Byte>)
    requires Encode(a) == Encode(b)
    ensures a == b
  {
    DecodeUndoesEncode(a);
    DecodeUndoesEncode(b);
  }
}
