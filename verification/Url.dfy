/**
 The URL value: what parsing a string means, the defaults, the printer, and the copy
 constructor, which prints a URL and parses the result.
 */
module Url {
  import opened Common
  import opened UrlCodec

  datatype Url = Url(scheme: Option<string>, user: Option<string>, password: Option<string>,
                     host: Option<string>, port: Option<string>, path: Option<string>)

  const AMQP := "amqp"
  const LOCALHOST := "localhost"

  /** The place of the first `c` in `s`, or its length. */
  function IndexOf(s: string, c: char): (k: nat)
    ensures k <= |s|
    ensures k < |s| ==> s[k] == c
    ensures c !in s[..k]
    ensures k == |s| <==> c !in s
  {
    IndexFrom(s, c, 0)
  }

  function IndexFrom(s: string, c: char, i: nat): (k: nat)
    requires i <= |s|
    ensures i <= k <= |s|
    ensures k < |s| ==> s[k] == c
    ensures forall j :: i <= j < k ==> s[j] != c
    decreases |s| - i
  {
    if i == |s| || s[i] == c then i else IndexFrom(s, c, i + 1)
  }

  /** The C string at the start of `s`: everything before the first NUL. */
  function CString(s: string): (r: string)
    ensures NUL !in r
    ensures NUL !in s ==> r == s
  {
    s[..IndexOf(s, NUL)]
  }

  // ---------- Parsing ----------

  /** The scheme and the rest: a scheme ends at the first slash, if the text there is "://". */
  function SplitScheme(s: string): (r: (Option<string>, string)) {
    var k := IndexOf(s, '/');
    if 0 < k < |s| then
      if s[k - 1] == ':' && k + 1 < |s| && s[k + 1] == '/' then (Some(s[..k - 1]), s[k + 2..])
      else (None, s)
    else if |s| >= 2 && s[0] == '/' && s[1] == '/' then (None, s[2..])
    else (None, s)
  }

  /** The authority and the path: the path starts after the first slash. */
  function SplitPath(s: string): (r: (string, Option<string>)) {
    var k := IndexOf(s, '/');
    if k < |s| then (s[..k], Some(s[k + 1..])) else (s, None)
  }

  function Unquote(s: string): (r: string)
    ensures NUL !in r && |r| <= |s|
  {
    CString(Decode(s))
  }

  /** User, password and host with port: the first '@' ends the user information. */
  function SplitUser(s: string): (r: (Option<string>, Option<string>, string)) {
    var k := IndexOf(s, '@');
    if k == |s| then (None, None, s)
    else
      var (user, password) := SplitInfo(s[..k]);
      (Some(user), password, s[k + 1..])
  }

  /** User and password: the first colon ends the user. */
  function SplitInfo(s: string): (r: (string, Option<string>))
    ensures NUL !in r.0 && (r.1.Some? ==> NUL !in r.1.value)
  {
    var c := IndexOf(s, ':');
    if c < |s| then (Unquote(s[..c]), Some(Unquote(s[c + 1..]))) else (Unquote(s), None)
  }

  /** Host and port: a host in brackets may contain colons, and what follows the bracket up to the colon is ignored. */
  function SplitHost(s: string): (r: (string, Option<string>)) {
    var close := IndexOf(s, ']');
    if s != [] && s[0] == '[' && close < |s| then
      (s[1..close], PortIn(s[close + 1..]))
    else
      (s[..IndexOf(s, ':')], PortIn(s))
  }

  /** The port is what follows the first colon. */
  function PortIn(s: string): Option<string> {
    var c := IndexOf(s, ':');
    if c < |s| then Some(s[c + 1..]) else None
  }

  function Parse(s: string): Url {
    var (scheme, afterScheme) := SplitScheme(s);
    var (authority, path) := SplitPath(afterScheme);
    var (user, password, hostPort) := SplitUser(authority);
    var (host, port) := SplitHost(hostPort);
    Url(scheme, user, password, Some(host), port, path)
  }

  // ---------- Defaults, printing, copying ----------

  predicate Missing(x: Option<string>) {
    x == None || x.value == []
  }

  function Defaults(u: Url): Url {
    var scheme := if Missing(u.scheme) then Some(AMQP) else u.scheme;
    u.(scheme := scheme,
       host := if Missing(u.host) then Some(LOCALHOST) else u.host,
       port := if Missing(u.port) then scheme else u.port)
  }

  /** `url(const std::string&)`: the characters up to the first NUL are parsed, then defaulted. */
  function FromString(s: string): Url {
    Defaults(Parse(CString(s)))
  }

  function PrintUser(u: Url): string {
    (if u.user.Some? then Encode(u.user.value) else "")
    + (if u.password.Some? then ":" + Encode(u.password.value) else "")
    + (if u.user.Some? || u.password.Some? then "@" else "")
  }

  function PrintHost(u: Url): string {
    if u.host.None? then ""
    else if ':' in u.host.value then "[" + u.host.value + "]"
    else u.host.value
  }

  function PrintPort(u: Url): string {
    if u.port.Some? then ":" + u.port.value else ""
  }

  function PrintPath(u: Url): string {
    if u.path.Some? then "/" + u.path.value else ""
  }

  function PrintScheme(u: Url): string {
    if u.scheme.Some? then u.scheme.value + "://" else ""
  }

  function Print(u: Url): string {
    PrintScheme(u) + (PrintUser(u) + (PrintHost(u) + PrintPort(u)) + PrintPath(u))
  }

  /** The copy constructor: print, and parse without defaults. */
  function Copy(u: Url): Url {
    Parse(CString(Print(u)))
  }

  // ---------- What a defaulted URL looks like ----------

  ghost predicate Plain(s: string) {
    s != [] && '/' !in s
  }

  ghost predicate WellFormed(u: Url) {
    && u.scheme.Some? && Plain(u.scheme.value)
    && u.host.Some? && Plain(u.host.value)
    && u.port.Some? && Plain(u.port.value)
    && (u.password.Some? ==> u.user.Some?)
    && (':' in u.host.value || u.host.value[0] == '[' ==> ']' !in u.host.value)
    && (u.user.None? ==> '@' !in u.host.value)
    && NulFree(u)
  }

  ghost predicate NulFree(u: Url) {
    && (u.scheme.Some? ==> NUL !in u.scheme.value)
    && (u.user.Some? ==> NUL !in u.user.value)
    && (u.password.Some? ==> NUL !in u.password.value)
    && (u.host.Some? ==> NUL !in u.host.value)
    && (u.port.Some? ==> NUL !in u.port.value)
    && (u.path.Some? ==> NUL !in u.path.value)
  }

  lemma SchemeShape(s: string)
    requires NUL !in s
    ensures var (scheme, rest) := SplitScheme(s);
      && NUL !in rest
      && (scheme.Some? ==> '/' !in scheme.value && NUL !in scheme.value)
  {
    var k := IndexOf(s, '/');
    if 0 < k < |s| {
      forall i | 0 <= i < k - 1 ensures s[i] != '/' {
        assert s[i] in s[..k];
      }
    }
  }

  lemma AuthorityShape(s: string)
    requires NUL !in s
    ensures var (authority, path) := SplitPath(s);
      '/' !in authority && NUL !in authority && (path.Some? ==> NUL !in path.value)
  {
  }

  lemma UserShape(s: string)
    requires NUL !in s && '/' !in s
    ensures var (user, password, rest) := SplitUser(s);
      && '/' !in rest && NUL !in rest
      && (password.Some? ==> user.Some?)
      && (user.None? ==> rest == s && '@' !in s)
      && (user.Some? ==> NUL !in user.value) && (password.Some? ==> NUL !in password.value)
  {
  }

  lemma HostShape(s: string)
    requires NUL !in s && '/' !in s
    ensures var (host, port) := SplitHost(s);
      && '/' !in host && NUL !in host && (port.Some? ==> '/' !in port.value && NUL !in port.value)
      && (forall c :: c in host ==> c in s)
      && (':' in host || (host != [] && host[0] == '[') ==> ']' !in host)
  {
    var close := IndexOf(s, ']');
    if s != [] && s[0] == '[' && close < |s| {
      forall i | 1 <= i < close ensures s[i] != ']' {
        assert s[i] in s[..close];
      }
    }
  }

  ghost predicate ParsedShape(u: Url) {
    && NulFree(u) && u.host.Some?
    && (u.scheme.Some? ==> '/' !in u.scheme.value)
    && '/' !in u.host.value
    && (u.port.Some? ==> '/' !in u.port.value)
    && (u.password.Some? ==> u.user.Some?)
    && (':' in u.host.value || (u.host.value != [] && u.host.value[0] == '[') ==> ']' !in u.host.value)
    && (u.user.None? ==> '@' !in u.host.value)
  }

  lemma ParseShape(s: string)
    requires NUL !in s
    ensures ParsedShape(Parse(s))
  {
    SchemeShape(s);
    var (_, afterScheme) := SplitScheme(s);
    AuthorityShape(afterScheme);
    var (authority, _) := SplitPath(afterScheme);
    UserShape(authority);
    var (_, _, hostPort) := SplitUser(authority);
    HostShape(hostPort);
  }

  /** Every URL built from a string, with its defaults, is well formed. */
  lemma FromStringIsWellFormed(s: string)
    ensures WellFormed(FromString(s))
  {
    ParseShape(CString(s));
    DefaultsFill(Parse(CString(s)));
  }

  lemma DefaultsFill(u: Url)
    requires ParsedShape(u)
    ensures WellFormed(Defaults(u))
  {
    assert Plain(AMQP) && Plain(LOCALHOST) && NUL !in AMQP && NUL !in LOCALHOST;
    assert ':' !in LOCALHOST && '@' !in LOCALHOST;
  }

  // ---------- The copy ----------

  lemma IndexIs(s: string, c: char, k: nat)
    requires k < |s| && s[k] == c && c !in s[..k]
    ensures IndexOf(s, c) == k
  {
    var i := IndexOf(s, c);
    forall j | 0 <= j < k ensures s[j] != c {
      assert s[..k][j] == s[j];
    }
    forall j | 0 <= j < i ensures s[j] != c {
      assert s[..i][j] == s[j];
    }
  }

  lemma IndexInFront(a: string, c: char, b: string)
    requires c !in a
    ensures IndexOf(a + [c] + b, c) == |a|
  {
    assert (a + [c] + b)[..|a|] == a;
    IndexIs(a + [c] + b, c, |a|);
  }

  lemma SchemeComesBack(scheme: string, rest: string)
    requires '/' !in scheme
    ensures SplitScheme(scheme + "://" + rest) == (Some(scheme), rest)
  {
    var s := scheme + "://" + rest;
    var k := |scheme| + 1;
    assert s[..k] == scheme + [':'];
    IndexIs(s, '/', k);
    assert s[..k - 1] == scheme && s[k + 2..] == rest;
  }

  lemma PathComesBack(authority: string, path: Option<string>)
    requires '/' !in authority
    ensures SplitPath(authority + (if path.Some? then "/" + path.value else "")) == (authority, path)
  {
    if path.Some? {
      assert authority + ("/" + path.value) == authority + ['/'] + path.value;
      IndexInFront(authority, '/', path.value);
      var s := authority + ['/'] + path.value;
      assert s[..|authority|] == authority && s[|authority| + 1..] == path.value;
    } else {
      assert authority + "" == authority;
    }
  }

  lemma EncodedLacks(s: string)
    ensures '@' !in Encode(s) && ':' !in Encode(s) && '/' !in Encode(s)
  {
    EncodedHasNoDelimiter(s);
  }

  lemma UserAloneComesBack(user: string, hostPort: string)
    requires NUL !in user
    ensures SplitUser(Encode(user) + ['@'] + hostPort) == (Some(user), None, hostPort)
  {
    EncodedLacks(user);
    DecodeEncode(user);
    InfoSplits(Encode(user), hostPort);
  }

  lemma UserAndPasswordComeBack(user: string, password: string, hostPort: string)
    requires NUL !in user && NUL !in password
    ensures SplitUser(Encode(user) + [':'] + Encode(password) + ['@'] + hostPort)
        == (Some(user), Some(password), hostPort)
  {
    EncodedLacks(user);
    EncodedLacks(password);
    DecodeEncode(user);
    DecodeEncode(password);
    var info := Encode(user) + [':'] + Encode(password);
    InfoSplits(info, hostPort);
    IndexInFront(Encode(user), ':', Encode(password));
    assert info[..|Encode(user)|] == Encode(user) && info[|Encode(user)| + 1..] == Encode(password);
  }

  /** A printed user and password, in front of any host and port, are read back. */
  lemma UserComesBack(u: Url, hostPort: string)
    requires u.user.Some? && NulFree(u)
    ensures SplitUser(PrintUser(u) + hostPort) == (u.user, u.password, hostPort)
  {
    var user := u.user.value;
    if u.password.Some? {
      UserAndPasswordComeBack(user, u.password.value, hostPort);
      Joined(Encode(user), Encode(u.password.value), hostPort);
    } else {
      UserAloneComesBack(user, hostPort);
      JoinedAlone(Encode(user), hostPort);
    }
  }

  lemma Joined(a: string, b: string, rest: string)
    ensures a + (":" + b) + "@" + rest == a + [':'] + b + ['@'] + rest
  {
  }

  lemma JoinedAlone(a: string, rest: string)
    ensures a + "" + "@" + rest == a + ['@'] + rest
  {
  }

  lemma InfoSplits(info: string, rest: string)
    requires '@' !in info
    ensures var s := info + ['@'] + rest;
      IndexOf(s, '@') == |info| && s[..|info|] == info && s[|info| + 1..] == rest
  {
    IndexInFront(info, '@', rest);
  }

  lemma PlainHostComesBackIff(h: string, p: string)
    requires h != [] && ':' !in h && (h[0] == '[' ==> ']' !in h)
    ensures SplitHost(h + [':'] + p) == (h, Some(p)) <==> !(h[0] == '[' && ']' in p)
  {
    var s := h + [':'] + p;
    IndexInFront(h, ':', p);
    assert s[..|h|] == h && s[|h| + 1..] == p;
    if h[0] == '[' {
      BracketClosedByPort(h, p);
    }
  }

  /** A printed host and port are read back, unless the host starts with a bracket that the port closes. */
  lemma HostComesBackIff(u: Url)
    requires WellFormed(u)
    ensures SplitHost(PrintHost(u) + PrintPort(u)) == (u.host.value, u.port) <==>
            !(u.host.value[0] == '[' && ':' !in u.host.value && ']' in u.port.value)
  {
    var h, p := u.host.value, u.port.value;
    if ':' in h {
      BracketedHostComesBack(h, p);
      JoinedPort("[" + h + "]", p);
    } else {
      PlainHostComesBackIff(h, p);
      JoinedPort(h, p);
    }
  }

  lemma JoinedPort(h: string, p: string)
    ensures h + (":" + p) == h + [':'] + p == h + ":" + p
  {
  }

  lemma BracketedHostComesBack(h: string, p: string)
    requires ']' !in h
    ensures SplitHost("[" + h + "]" + ":" + p) == (h, Some(p))
  {
    var s := "[" + h + "]" + ":" + p;
    assert s[..|h| + 1] == "[" + h;
    IndexIs(s, ']', |h| + 1);
    assert s[1..|h| + 1] == h;
    var rest := s[|h| + 2..];
    assert rest == [] + [':'] + p;
    IndexInFront([], ':', p);
    assert rest[1..] == p;
  }

  /** With a bracket in front and one in the port, the host read back contains the colon. */
  lemma BracketClosedByPort(h: string, p: string)
    requires h != [] && h[0] == '[' && ']' !in h && ':' !in h
    ensures var s := h + [':'] + p;
      && (']' in s <==> ']' in p)
      && (']' in p ==> SplitHost(s).0 != h)
  {
    var s := h + [':'] + p;
    var close := IndexOf(s, ']');
    if ']' in p {
      assert ']' in s;
      forall j | 0 <= j < |h| ensures s[j] != ']' {
        assert s[j] == h[j];
      }
      assert s[|h|] == ':' && s[1..close][|h| - 1] == ':';
    }
  }

  /**
   A copy is faithful exactly for these URLs: an '@' in the port must be behind one that
   ends the user information, and a host that starts with a bracket and has no colon must
   not be followed by a closing bracket in the port.
   */
  predicate Copyable(u: Url)
    requires u.host.Some? && u.port.Some?
  {
    && (u.user.Some? || '@' !in u.port.value)
    && !(u.host.value != [] && u.host.value[0] == '[' && ':' !in u.host.value && ']' in u.port.value)
  }

  lemma PrintedAuthority(u: Url)
    requires WellFormed(u)
    ensures '/' !in PrintUser(u) + (PrintHost(u) + PrintPort(u))
  {
    if u.user.Some? { EncodedLacks(u.user.value); }
    if u.password.Some? { EncodedLacks(u.password.value); }
  }

  lemma PrintHasNoNul(u: Url)
    requires WellFormed(u)
    ensures NUL !in Print(u)
  {
    if u.user.Some? { EncodedHasNoDelimiter(u.user.value); }
    if u.password.Some? { EncodedHasNoDelimiter(u.password.value); }
    assert NUL !in PrintScheme(u) && NUL !in PrintUser(u) && NUL !in PrintHost(u);
    assert NUL !in PrintPort(u) && NUL !in PrintPath(u);
  }

  /** Parsing a printed URL: scheme and path come back, the rest is what the authority parses to. */
  lemma CopyTakesApart(u: Url)
    requires WellFormed(u)
    ensures var (user, password, hostPort) := SplitUser(PrintUser(u) + (PrintHost(u) + PrintPort(u)));
      var (host, port) := SplitHost(hostPort);
      Copy(u) == Url(u.scheme, user, password, Some(host), port, u.path)
  {
    var authority := PrintUser(u) + (PrintHost(u) + PrintPort(u));
    PrintHasNoNul(u);
    SchemeComesBack(u.scheme.value, authority + PrintPath(u));
    PrintedAuthority(u);
    PathComesBack(authority, u.path);
  }

  lemma WellFormedCopyIff(u: Url)
    requires WellFormed(u)
    ensures Copy(u) == u <==> Copyable(u)
  {
    CopyTakesApart(u);
    var hostPort := PrintHost(u) + PrintPort(u);
    HostComesBackIff(u);
    if u.user.Some? {
      UserComesBack(u, hostPort);
    } else {
      assert PrintUser(u) + hostPort == hostPort;
      AtInHostPort(u);
    }
  }

  lemma AtInHostPort(u: Url)
    requires WellFormed(u) && u.user.None?
    ensures '@' in PrintHost(u) + PrintPort(u) <==> '@' in u.port.value
  {
  }

  /**
   For every string: the URL built from it survives copying, field by field and with the
   difference between absent and empty, if and only if it is `Copyable`.
   */
  lemma CopyPreservesIff(s: string)
    ensures FromString(s).host.Some? && FromString(s).port.Some?
    ensures Copy(FromString(s)) == FromString(s) <==> Copyable(FromString(s))
  {
    FromStringIsWellFormed(s);
    WellFormedCopyIff(FromString(s));
  }

  /** In particular when the scheme has no '@' and the host does not start with a bracket. */
  lemma OrdinaryUrlsCopy(s: string)
    requires '@' !in FromString(s).scheme.GetOr("")
    requires FromString(s).host.GetOr("") == [] || FromString(s).host.GetOr("")[0] != '['
    ensures Copy(FromString(s)) == FromString(s)
  {
    CopyPreservesIff(s);
    PortHasNoAt(s);
  }

  lemma PortHasNoAt(s: string)
    ensures var u := FromString(s);
      u.user.None? ==> u.port.Some? && ('@' !in u.port.value || u.port == u.scheme)
  {
    var t := CString(s);
    var (_, afterScheme) := SplitScheme(t);
    var (authority, _) := SplitPath(afterScheme);
    var (user, _, hostPort) := SplitUser(authority);
    if user.None? {
      assert '@' !in hostPort;
      PortIsPart(hostPort);
    }
  }

  lemma PortIsPart(s: string)
    ensures var (_, port) := SplitHost(s);
      port.Some? ==> forall c :: c in port.value ==> c in s
  {
  }

  /** A host alone after a scheme gets the scheme as its port. */
  lemma SchemeAndHostAlone(scheme: string, h: string)
    requires Plain(scheme) && NUL !in scheme
    requires h != [] && NUL !in h && '/' !in h && '@' !in h && ':' !in h && ']' !in h
    ensures FromString(scheme + "://" + h) == Url(Some(scheme), None, None, Some(h), Some(scheme), None)
  {
    assert NUL !in scheme + "://" + h;
    SchemeComesBack(scheme, h);
    assert h[..|h|] == h;
  }

  /**
   A whole family a copy does not preserve: the port defaults to a scheme whose '@' then reads as the
   end of a user name.
   */
  lemma DefaultPortLosesCopy(scheme: string, h: string)
    requires Plain(scheme) && NUL !in scheme && '@' in scheme
    requires h != [] && NUL !in h && '/' !in h && '@' !in h && ':' !in h && ']' !in h
    ensures var u := FromString(scheme + "://" + h); Copy(u) != u
  {
    SchemeAndHostAlone(scheme, h);
    CopyPreservesIff(scheme + "://" + h);
  }

  /** One member of the family. */
  lemma CopyCanFail()
    ensures var u := FromString("a@b" + "://" + "h"); Copy(u) != u
  {
    assert "a@b"[1] == '@';
    DefaultPortLosesCopy("a@b", "h");
  }
}
