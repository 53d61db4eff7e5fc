/**
 What the parser makes of every text, from outside: texts are put together from their parts
 in every way the parser knows, each is read as those parts, and every text is one of them.
 Escapes are read as the number that `strtoul` finds in them.
 */
module UrlForms {
  import opened Common
  import opened UrlCodec
  import opened Url

  // ---------- Escapes ----------

  const UPPER := "0123456789ABCDEF"
  const LOWER := "0123456789abcdef"

  /** A hex digit, in either case, has the value of its place. */
  lemma DigitValue(n: nat, c: char)
    requires n < 16 && (c == UPPER[n] || c == LOWER[n])
    ensures IsHex(c) && HexValue(c) == n
  {
  }

  /** The percent sign and two hex digits, in any case, are read as the byte they stand for, and the rest goes on. */
  lemma EscapeIsByte(hi: nat, lo: nat, a: char, b: char, rest: string)
    requires hi < 16 && lo < 16
    requires (a == UPPER[hi] || a == LOWER[hi]) && (b == UPPER[lo] || b == LOWER[lo])
    ensures Decode(['%', a, b] + rest) == [(16 * hi + lo) as char] + Decode(rest)
  {
    DigitValue(hi, a);
    DigitValue(lo, b);
    assert (['%', a, b] + rest)[3..] == rest;
  }

  /** Text without a percent sign is read as it is. */
  lemma {:induction false} PlainIsRead(a: string, rest: string)
    requires '%' !in a
    ensures Decode(a + rest) == a + Decode(rest)
  {
    if a == [] {
      assert a + rest == rest;
    } else {
      var tail := a[1..];
      PlainIsRead(tail, rest);
      assert a == [a[0]] + tail;
      assert (a + rest)[0] == a[0] && (a + rest)[1..] == tail + rest;
      Regroup([a[0]], tail, Decode(rest));
    }
  }

  /** A percent sign with fewer than two characters behind it is read as it is. */
  lemma ShortEscapeIsRead(rest: string)
    requires |rest| < 2 && '%' !in rest
    ensures Decode(['%'] + rest) == ['%'] + rest
  {
    PlainIsRead(rest, []);
    assert rest + [] == rest && (['%'] + rest)[1..] == rest;
  }

  /** Exactly the delimiters of a URL and the percent sign are escaped, in two upper-case digits. */
  lemma EscapedIff(c: char)
    ensures Encode([c]) == (if c in "@:/%[]?#" then ['%', UPPER[c as int / 16 % 16], UPPER[c as int % 16]] else [c])
  {
    assert Encode([c]) == EncodeChar(c) + Encode([]);
    assert Bad(c) <==> c in "@:/%[]?#";
  }

  /** The white space of the C locale. */
  const BLANKS := [' ', '\t', '\n', '\U{0B}', '\U{0C}', '\r']

  lemma SpaceIff(c: char)
    ensures IsSpace(c) <==> c in BLANKS
  {
    assert BLANKS[3] as int == 11 && BLANKS[4] as int == 12;
    if IsSpace(c) {
      assert c == BLANKS[0] || c == BLANKS[1] || c == BLANKS[2] || c == BLANKS[3] || c == BLANKS[4] || c == BLANKS[5];
    }
  }

  /** `strtoul` in base 16: leading space, a sign, "0x" before a digit, and then all the digits there are. */
  function SkipSpace(s: string): string {
    if s != [] && s[0] in BLANKS then SkipSpace(s[1..]) else s
  }

  function DigitAt(c: char, n: nat): Option<nat>
    requires n <= 16
    decreases 16 - n
  {
    if n == 16 then None else if c == UPPER[n] || c == LOWER[n] then Some(n) else DigitAt(c, n + 1)
  }

  function Number(s: string, value: nat): nat
    decreases |s|
  {
    if s != [] && DigitAt(s[0], 0).Some? then Number(s[1..], 16 * value + DigitAt(s[0], 0).value) else value
  }

  function SkipPrefix(s: string): string {
    if |s| > 2 && s[0] == '0' && (s[1] == 'x' || s[1] == 'X') && DigitAt(s[2], 0).Some? then s[2..] else s
  }

  function Strtoul(s: string): int {
    var t := SkipSpace(s);
    if t != [] && t[0] == '-' then 0 - (Number(SkipPrefix(t[1..]), 0) as int)
    else if t != [] && t[0] == '+' then Number(SkipPrefix(t[1..]), 0)
    else Number(SkipPrefix(t), 0)
  }

  lemma {:induction false} DigitFound(c: char, n: nat)
    requires n <= 16
    ensures DigitAt(c, n).Some? ==> n <= DigitAt(c, n).value < 16 && IsHex(c) && HexValue(c) == DigitAt(c, n).value
    ensures IsHex(c) && HexValue(c) >= n ==> DigitAt(c, n).Some?
    decreases 16 - n
  {
    if n < 16 {
      DigitFound(c, n + 1);
      if c == UPPER[n] || c == LOWER[n] {
        DigitValue(n, c);
      } else if IsHex(c) {
        assert c == UPPER[HexValue(c)] || c == LOWER[HexValue(c)];
      }
    }
  }

  lemma DigitIff(c: char)
    ensures DigitAt(c, 0) == if IsHex(c) then Some(HexValue(c)) else None
  {
    DigitFound(c, 0);
  }

  lemma OneDigit(b: char, value: nat)
    ensures Number([b], value) == if IsHex(b) then 16 * value + HexValue(b) else value
  {
    DigitIff(b);
    assert [b][1..] == [];
  }

  lemma TwoDigits(a: char, b: char)
    ensures Number([a, b], 0) ==
      if !IsHex(a) then 0 else if IsHex(b) then 16 * HexValue(a) + HexValue(b) else HexValue(a)
  {
    DigitIff(a);
    assert [a, b][0] == a && [a, b][1..] == [b];
    if IsHex(a) {
      OneDigit(b, HexValue(a));
    }
  }

  lemma StrtoulOne(b: char)
    ensures Strtoul([b]) == if IsHex(b) then HexValue(b) else 0
  {
    var s := [b];
    assert s[1..] == [] && SkipPrefix(s) == s && SkipPrefix([]) == [];
    OneDigit(b, 0);
    SpaceIff(b);
    if IsSpace(b) {
      assert SkipSpace(s) == SkipSpace([]) == [];
    } else {
      assert SkipSpace(s) == s;
    }
  }

  lemma StrtoulTwo(a: char, b: char)
    requires a !in BLANKS
    ensures Strtoul([a, b]) ==
      if a == '-' then 0 - (Number([b], 0) as int) else if a == '+' then Number([b], 0) else Number([a, b], 0)
  {
    var s := [a, b];
    assert SkipSpace(s) == s && s[1..] == [b] && SkipPrefix(s) == s && SkipPrefix([b]) == [b];
  }

  /** The two characters of any escape, hex digits or not, are read as what `strtoul` makes of them, as a byte. */
  lemma EscapeIsStrtoul(a: char, b: char)
    ensures EscapeValue(a, b) == Strtoul([a, b]) % 256
  {
    SpaceIff(a);
    if IsSpace(a) {
      StrtoulAfterSpace(a, b);
    } else if a == '-' || a == '+' {
      StrtoulTwo(a, b);
      OneDigit(b, 0);
    } else {
      StrtoulTwo(a, b);
      TwoDigits(a, b);
    }
  }

  lemma StrtoulAfterSpace(a: char, b: char)
    requires a in BLANKS
    ensures Strtoul([a, b]) == if IsHex(b) then HexValue(b) else 0
  {
    assert [a, b][1..] == [b];
    assert SkipSpace([a, b]) == SkipSpace([b]);
    StrtoulOne(b);
  }

  // ---------- Texts and their parts ----------

  datatype Prefix = Scheme(name: string) | Slashes | Bare

  datatype Host = Name(name: string) | Bracketed(name: string, ignored: string)

  datatype Info = Info(user: string, password: Option<string>)

  /** A URL as it is written; user and password still have their escapes. */
  datatype Parts = Parts(prefix: Prefix, info: Option<Info>, host: Host, port: Option<string>, path: Option<string>)

  function PrefixText(p: Prefix): string {
    match p
    case Scheme(name) => name + "://"
    case Slashes => "//"
    case Bare => ""
  }

  function InfoText(i: Info): string {
    if i.password.Some? then i.user + [':'] + i.password.value else i.user
  }

  function HostText(h: Host): string {
    match h
    case Name(name) => name
    case Bracketed(name, ignored) => "[" + name + "]" + ignored
  }

  function PortText(port: Option<string>): string {
    if port.Some? then [':'] + port.value else []
  }

  function HostPortText(host: Host, port: Option<string>): string {
    HostText(host) + PortText(port)
  }

  function AuthorityText(p: Parts): string {
    (if p.info.Some? then InfoText(p.info.value) + ['@'] else []) + HostPortText(p.host, p.port)
  }

  function Text(p: Parts): string {
    PrefixText(p.prefix) + (AuthorityText(p) + (if p.path.Some? then "/" + p.path.value else ""))
  }

  ghost predicate LegalInfo(i: Info) {
    '@' !in InfoText(i) && ':' !in i.user
  }

  /** A host name has no colon, and does not look bracketed together with the port; brackets hold no bracket. */
  ghost predicate LegalHost(host: Host, port: Option<string>) {
    match host
    case Name(name) => ':' !in name && !Brackets(name + PortText(port))
    case Bracketed(name, ignored) => ']' !in name && ':' !in ignored
  }

  predicate Brackets(s: string) {
    s != [] && s[0] == '[' && ']' in s
  }

  /** Without a prefix the text must not look as if it had one. */
  ghost predicate LegalPrefix(p: Parts) {
    match p.prefix
    case Scheme(name) => '/' !in name
    case Slashes => true
    case Bare =>
      p.path.Some? && p.path.value != [] && p.path.value[0] == '/' ==>
        AuthorityText(p) != [] && AuthorityText(p)[|AuthorityText(p)| - 1] != ':'
  }

  ghost predicate Legal(p: Parts) {
    && LegalPrefix(p) && LegalHost(p.host, p.port)
    && '/' !in AuthorityText(p)
    && (p.info.Some? ==> LegalInfo(p.info.value))
    && (p.info.None? ==> '@' !in AuthorityText(p))
  }

  lemma SlashesRead(rest: string)
    ensures SplitScheme("//" + rest) == (None, rest)
  {
    IndexIs("//" + rest, '/', 0);
    assert ("//" + rest)[2..] == rest;
  }

  lemma BareRead(authority: string, path: Option<string>)
    requires '/' !in authority
    requires path.Some? && path.value != [] && path.value[0] == '/' ==>
      authority != [] && authority[|authority| - 1] != ':'
    ensures var s := authority + (if path.Some? then "/" + path.value else ""); SplitScheme(s) == (None, s)
  {
    var s := authority + (if path.Some? then "/" + path.value else "");
    if path.Some? {
      assert s == authority + ['/'] + path.value;
      IndexInFront(authority, '/', path.value);
      assert s[|authority| + 1..] == path.value;
    } else {
      assert s == authority;
    }
  }

  lemma PrefixRead(p: Parts)
    requires Legal(p)
    ensures var rest := AuthorityText(p) + (if p.path.Some? then "/" + p.path.value else "");
      SplitScheme(Text(p)) == (if p.prefix.Scheme? then Some(p.prefix.name) else None, rest)
  {
    var rest := AuthorityText(p) + (if p.path.Some? then "/" + p.path.value else "");
    match p.prefix
    case Scheme(name) => SchemeComesBack(name, rest);
    case Slashes => SlashesRead(rest);
    case Bare =>
      assert "" + rest == rest;
      BareRead(AuthorityText(p), p.path);
  }

  lemma InfoRead(i: Info, hostPort: string)
    requires LegalInfo(i)
    ensures SplitUser(InfoText(i) + ['@'] + hostPort) ==
      (Some(Unquote(i.user)), if i.password.Some? then Some(Unquote(i.password.value)) else None, hostPort)
  {
    var info := InfoText(i);
    InfoSplits(info, hostPort);
    if i.password.Some? {
      IndexInFront(i.user, ':', i.password.value);
      assert info[..|i.user|] == i.user && info[|i.user| + 1..] == i.password.value;
    }
  }

  lemma PortRead(before: string, port: Option<string>)
    requires ':' !in before
    ensures var s := before + PortText(port); PortIn(s) == port && s[..IndexOf(s, ':')] == before
  {
    var s := before + PortText(port);
    if port.Some? {
      assert s == before + [':'] + port.value;
      IndexInFront(before, ':', port.value);
      assert s[|before| + 1..] == port.value && s[..|before|] == before;
    } else {
      assert s == before;
    }
  }

  lemma BracketsRead(name: string, rest: string)
    requires ']' !in name
    ensures SplitHost("[" + name + "]" + rest) == (name, PortIn(rest))
  {
    var s, k := "[" + name + "]" + rest, |name| + 1;
    assert s[..k] == "[" + name;
    IndexIs(s, ']', k);
    assert s[1..k] == name && s[k + 1..] == rest;
  }

  lemma NameRead(name: string, port: Option<string>)
    requires LegalHost(Name(name), port)
    ensures SplitHost(name + PortText(port)) == (name, port)
  {
    PortRead(name, port);
    var s := name + PortText(port);
    assert IndexOf(s, ']') < |s| <==> ']' in s;
  }

  lemma HostRead(host: Host, port: Option<string>)
    requires LegalHost(host, port)
    ensures SplitHost(HostPortText(host, port)) == (host.name, port)
  {
    match host
    case Name(name) => NameRead(name, port);
    case Bracketed(name, ignored) =>
      var rest := ignored + PortText(port);
      assert HostPortText(host, port) == "[" + name + "]" + rest;
      BracketsRead(name, rest);
      PortRead(ignored, port);
  }

  /** What the parser must read from a text that is written from these parts. */
  function Reading(p: Parts): Url {
    Url(if p.prefix.Scheme? then Some(p.prefix.name) else None,
        if p.info.Some? then Some(Unquote(p.info.value.user)) else None,
        if p.info.Some? && p.info.value.password.Some? then Some(Unquote(p.info.value.password.value)) else None,
        Some(p.host.name), p.port, p.path)
  }

  /** Every text is read as the parts it is written from, with or without a scheme, slashes, user, port or path. */
  lemma ParsesAsWritten(p: Parts)
    requires Legal(p)
    ensures Parse(Text(p)) == Reading(p)
  {
    PrefixRead(p);
    PathComesBack(AuthorityText(p), p.path);
    if p.info.Some? {
      InfoRead(p.info.value, HostPortText(p.host, p.port));
    } else {
      assert AuthorityText(p) == HostPortText(p.host, p.port);
    }
    HostRead(p.host, p.port);
  }

  // ---------- Every text has such parts ----------

  lemma PrefixOf(s: string) returns (prefix: Prefix, rest: string)
    ensures s == PrefixText(prefix) + rest
    ensures prefix.Scheme? ==> '/' !in prefix.name
    ensures prefix.Bare? ==> SplitScheme(rest) == (None, rest)
  {
    var k := IndexOf(s, '/');
    if 0 < k < |s| && s[k - 1] == ':' && k + 1 < |s| && s[k + 1] == '/' {
      prefix, rest := Scheme(s[..k - 1]), s[k + 2..];
      assert s == s[..k - 1] + "://" + rest;
      assert forall i :: 0 <= i < k - 1 ==> s[i] == s[..k][i];
    } else if |s| >= 2 && s[0] == '/' && s[1] == '/' {
      prefix, rest := Slashes, s[2..];
    } else {
      prefix, rest := Bare, s;
    }
  }

  lemma PathOf(s: string) returns (authority: string, path: Option<string>)
    ensures '/' !in authority && s == authority + (if path.Some? then "/" + path.value else "")
  {
    var k := IndexOf(s, '/');
    if k < |s| {
      authority, path := s[..k], Some(s[k + 1..]);
    } else {
      authority, path := s, None;
    }
  }

  lemma InfoOf(s: string) returns (info: Option<Info>, hostPort: string)
    ensures s == (if info.Some? then InfoText(info.value) + ['@'] else []) + hostPort
    ensures info.Some? ==> LegalInfo(info.value)
    ensures info.None? ==> '@' !in s
  {
    var k := IndexOf(s, '@');
    if k < |s| {
      var i := PasswordOf(s[..k]);
      info, hostPort := Some(i), s[k + 1..];
      assert s == s[..k] + ['@'] + hostPort;
    } else {
      info, hostPort := None, s;
    }
  }

  lemma PasswordOf(text: string) returns (i: Info)
    ensures InfoText(i) == text && ':' !in i.user
  {
    var c := IndexOf(text, ':');
    if c < |text| {
      i := Info(text[..c], Some(text[c + 1..]));
      assert text == text[..c] + [':'] + text[c + 1..];
    } else {
      i := Info(text, None);
    }
  }

  lemma PortOf(s: string) returns (before: string, port: Option<string>)
    ensures ':' !in before && s == before + PortText(port)
  {
    var c := IndexOf(s, ':');
    if c < |s| {
      before, port := s[..c], Some(s[c + 1..]);
    } else {
      before, port := s, None;
    }
  }

  lemma BracketsOf(s: string) returns (name: string, rest: string)
    requires Brackets(s)
    ensures s == "[" + name + "]" + rest && ']' !in name
  {
    var close := IndexOf(s, ']');
    name, rest := s[1..close], s[close + 1..];
    forall i | 0 <= i < |name| ensures name[i] != ']' {
      assert name[i] == s[..close][i + 1];
    }
  }

  lemma HostOf(s: string) returns (host: Host, port: Option<string>)
    ensures s == HostPortText(host, port) && LegalHost(host, port)
  {
    if Brackets(s) {
      var name, rest := BracketsOf(s);
      var ignored;
      ignored, port := PortOf(rest);
      host := Bracketed(name, ignored);
    } else {
      var name;
      name, port := PortOf(s);
      host := Name(name);
    }
  }

  /** Every text is written from such parts. */
  lemma EveryTextHasParts(s: string) returns (p: Parts)
    ensures Legal(p) && Text(p) == s
  {
    var prefix, rest := PrefixOf(s);
    var authority, path := PathOf(rest);
    var info, hostPort := InfoOf(authority);
    var host, port := HostOf(hostPort);
    p := Parts(prefix, info, host, port, path);
    assert AuthorityText(p) == authority;
    if prefix.Bare? {
      BareIsLegal(authority, path);
    }
  }

  lemma BareIsLegal(authority: string, path: Option<string>)
    requires '/' !in authority
    requires var s := authority + (if path.Some? then "/" + path.value else ""); SplitScheme(s) == (None, s)
    ensures path.Some? && path.value != [] && path.value[0] == '/' ==>
      authority != [] && authority[|authority| - 1] != ':'
  {
    if path.Some? {
      var s := authority + "/" + path.value;
      assert s == authority + ("/" + path.value) == authority + ['/'] + path.value;
      IndexInFront(authority, '/', path.value);
      if path.value != [] && path.value[0] == '/' {
        assert s[|authority| + 1] == '/';
      }
    }
  }

  // ---------- Defaults ----------

  /** A part that is absent or empty. */
  function Else(x: Option<string>, default: string): string {
    if x.Some? && x.value != [] then x.value else default
  }

  /**
   Every URL built from a text has the scheme written or `amqp`, the host written or
   `localhost`, and the port written or else its scheme; user, password and path are as written.
   */
  lemma BuiltAsWritten(p: Parts)
    requires Legal(p) && NUL !in Text(p)
    ensures var u, scheme := FromString(Text(p)), Else(Reading(p).scheme, "amqp");
      && u.scheme == Some(scheme)
      && u.host == Some(Else(Some(p.host.name), "localhost"))
      && u.port == Some(Else(p.port, scheme))
      && u.user == Reading(p).user && u.password == Reading(p).password && u.path == p.path
  {
    ParsesAsWritten(p);
    assert CString(Text(p)) == Text(p);
    assert FromString(Text(p)) == Defaults(Reading(p));
  }

  /** A leading "//" is the same as "amqp://", for every text behind it. */
  lemma SlashesMeanAmqp(a: string)
    ensures FromString("//" + a) == FromString("amqp://" + a)
  {
    var t := CString(a);
    CutAfter("//", a);
    CutAfter("amqp://", a);
    SlashesRead(t);
    SchemeComesBack("amqp", t);
    assert "amqp" + "://" + t == "amqp://" + t;
    SchemeOnly("//" + t, "amqp://" + t);
  }

  /** Texts that differ in a missing scheme only give the same URL. */
  lemma SchemeOnly(s: string, t: string)
    requires SplitScheme(s).0 == None && SplitScheme(t) == (Some("amqp"), SplitScheme(s).1)
    ensures Defaults(Parse(s)) == Defaults(Parse(t))
  {
    assert Parse(t) == Parse(s).(scheme := Some("amqp"));
  }

  lemma CutAfter(front: string, a: string)
    requires NUL !in front
    ensures CString(front + a) == front + CString(a)
  {
    var s, k := front + a, IndexOf(a, NUL);
    assert forall i :: 0 <= i < k ==> a[i] == a[..k][i];
    assert s[..|front| + k] == front + a[..k];
    if k < |a| {
      IndexIs(s, NUL, |front| + k);
    } else {
      assert NUL !in s;
    }
  }

  /** Text with no delimiter that matters in front of the path. */
  ghost predicate Ordinary(s: string) {
    forall c :: c in s ==> c != '/' && c != '@' && c != ':' && c != '[' && c != NUL
  }

  /** Texts without a scheme or user: any of host, port and path may be missing. */
  lemma ShortForm(h: string, port: Option<string>, path: Option<string>)
    requires Ordinary(h) && (port.Some? ==> Ordinary(port.value))
    requires path.Some? ==> NUL !in path.value && (path.value != [] ==> path.value[0] != '/')
    ensures FromString(h + PortText(port) + (if path.Some? then "/" + path.value else ""))
      == Url(Some("amqp"), None, None, Some(Else(Some(h), "localhost")), Some(Else(port, "amqp")), path)
  {
    var p := Parts(Bare, None, Name(h), port, path);
    assert AuthorityText(p) == h + PortText(port);
    assert Text(p) == h + PortText(port) + (if path.Some? then "/" + path.value else "");
    ShortIsLegal(h, port);
    BuiltAsWritten(p);
  }

  lemma ShortIsLegal(h: string, port: Option<string>)
    requires Ordinary(h) && (port.Some? ==> Ordinary(port.value))
    ensures var s := h + PortText(port);
      '/' !in s && '@' !in s && NUL !in s && !Brackets(s)
  {
    var s := h + PortText(port);
    forall c | c in s ensures c == ':' || (c != '/' && c != '@' && c != '[' && c != NUL) {
      assert c in h || c == ':' || (port.Some? && c in port.value);
    }
    assert s != [] ==> s[0] in s;
  }

  lemma HostAlone(h: string)
    requires Ordinary(h) && h != []
    ensures FromString(h) == Url(Some("amqp"), None, None, Some(h), Some("amqp"), None)
  {
    ShortForm(h, None, None);
    assert h + [] + "" == h;
  }

  lemma PortAlone(n: string)
    requires Ordinary(n) && n != []
    ensures FromString(":" + n) == Url(Some("amqp"), None, None, Some("localhost"), Some(n), None)
  {
    ShortForm("", Some(n), None);
    assert "" + PortText(Some(n)) + "" == ":" + n;
  }

  lemma PathAlone(path: string)
    requires NUL !in path && (path != [] ==> path[0] != '/')
    ensures FromString("/" + path) == Url(Some("amqp"), None, None, Some("localhost"), Some("amqp"), Some(path))
  {
    ShortForm("", None, Some(path));
    assert "" + [] + ("/" + path) == "/" + path;
  }

  // ---------- Printing what was read ----------

  /** Text that needs no escape. */
  ghost predicate Unescaped(s: string) {
    forall c :: c in s ==> c !in "@:/%[]?#" && c != NUL
  }

  /** Written the way the printer writes: a scheme, a port, brackets exactly around colons, no escapes needed. */
  ghost predicate Canonical(p: Parts) {
    && p.prefix.Scheme? && p.port.Some?
    && (p.info.Some? ==> Unescaped(p.info.value.user))
    && (p.info.Some? && p.info.value.password.Some? ==> Unescaped(p.info.value.password.value))
    && (if ':' in p.host.name then p.host == Bracketed(p.host.name, "") else p.host == Name(p.host.name))
  }

  /** Whatever the URL: user and password, if there is either, are printed up to an at sign. */
  lemma InfoEndsInAt(u: Url)
    ensures PrintUser(u) == [] <==> u.user.None? && u.password.None?
    ensures PrintUser(u) != [] ==> PrintUser(u)[|PrintUser(u)| - 1] == '@'
    ensures u.user.None? && u.password.Some? ==> PrintUser(u) == [':'] + Encode(u.password.value) + ['@']
  {
  }

  lemma UnescapedStays(s: string)
    requires Unescaped(s)
    ensures Encode(s) == s && Unquote(s) == s
  {
    assert forall k :: 0 <= k < |s| ==> s[k] in s;
    EncodeClean(s);
    PlainIsRead(s, []);
    assert s + [] == s && s + Decode([]) == s;
  }

  lemma InfoPrinted(u: Url, i: Info)
    requires Unescaped(i.user) && (i.password.Some? ==> Unescaped(i.password.value))
    requires u.user == Some(Unquote(i.user))
    requires u.password == if i.password.Some? then Some(Unquote(i.password.value)) else None
    ensures PrintUser(u) == InfoText(i) + ['@']
  {
    UnescapedStays(i.user);
    if i.password.Some? {
      UnescapedStays(i.password.value);
    }
  }

  lemma HostPrinted(u: Url, host: Host, port: string)
    requires u.host == Some(host.name) && u.port == Some(port)
    requires if ':' in host.name then host == Bracketed(host.name, "") else host == Name(host.name)
    ensures PrintHost(u) + PrintPort(u) == HostPortText(host, Some(port))
  {
    assert PrintPort(u) == ":" + port == PortText(Some(port));
    assert "[" + host.name + "]" + "" == "[" + host.name + "]";
    assert PrintHost(u) == HostText(host);
  }

  /** A text written that way is printed again just as it was. */
  lemma PrintsAsWritten(p: Parts)
    requires Legal(p) && Canonical(p)
    ensures Print(Parse(Text(p))) == Text(p)
  {
    ParsesAsWritten(p);
    var u := Reading(p);
    HostPrinted(u, p.host, p.port.value);
    if p.info.Some? {
      InfoPrinted(u, p.info.value);
    }
    assert PrintUser(u) + (PrintHost(u) + PrintPort(u)) == AuthorityText(p);
  }
}
