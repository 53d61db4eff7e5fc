/**
 The parser as it works: on one buffer of characters, writing a NUL over each delimiter it
 finds and percent-decoding user and password over themselves. Pointers are offsets into
 the buffer. It is proved to leave, at those offsets, the fields that `Url.Parse` gives.
 */
module UrlParser {
  import opened Common
  import opened UrlCodec
  import opened Url

  /** The C string at offset `off` of the buffer is `str`. */
  ghost predicate Reads(b: seq<char>, off: nat, str: string) {
    && off + |str| < |b|
    && b[off..off + |str|] == str
    && b[off + |str|] == NUL
    && NUL !in str
  }

  /** A pointer field and the value it stands for: null exactly for an absent one. */
  ghost predicate FieldIs(b: seq<char>, off: Option<nat>, f: Option<string>) {
    && (off.None? <==> f.None?)
    && (off.Some? ==> Reads(b, off.value, f.value))
  }

  /** Outside the places from `lo` to `hi` the buffer has not changed. */
  ghost predicate SameOutside(b: seq<char>, b': seq<char>, lo: nat, hi: nat) {
    |b'| == |b| && forall i :: 0 <= i < |b| && (i < lo || hi < i) ==> b'[i] == b[i]
  }

  lemma ReadsElsewhere(b: seq<char>, b': seq<char>, lo: nat, hi: nat, off: nat, str: string)
    requires SameOutside(b, b', lo, hi) && Reads(b, off, str)
    requires off + |str| < lo || hi < off
    ensures Reads(b', off, str)
  {
    assert b'[off..off + |str|] == b[off..off + |str|];
  }

  lemma ReadsTail(b: seq<char>, off: nat, str: string, k: nat)
    requires Reads(b, off, str) && k <= |str|
    ensures Reads(b, off + k, str[k..])
  {
    assert b[off + k..off + |str|] == b[off..off + |str|][k..];
  }

  lemma ReadsAt(b: seq<char>, off: nat, str: string, k: nat)
    requires Reads(b, off, str) && k < |str|
    ensures b[off + k] == str[k] && str[k] != NUL
  {
    assert b[off..off + |str|][k] == b[off + k];
  }

  /** Writing a NUL over place `k` of a string splits it in two. */
  lemma Splits(b: seq<char>, b': seq<char>, off: nat, str: string, k: nat)
    requires Reads(b, off, str) && k < |str|
    requires b' == b[off + k := NUL]
    ensures Reads(b', off, str[..k]) && Reads(b', off + k + 1, str[k + 1..])
    ensures SameOutside(b, b', off, off + |str|)
  {
    assert b'[off..off + k] == b[off..off + |str|][..k];
    assert b'[off + k + 1..off + |str|] == b[off..off + |str|][k + 1..];
  }

  /** `strchr` */
  method StrChr(a: array<char>, off: nat, c: char, ghost str: string) returns (p: Option<nat>)
    requires Reads(a[..], off, str) && c != NUL
    ensures p == if IndexOf(str, c) < |str| then Some(off + IndexOf(str, c)) else None
  {
    var i := off;
    while a[i] != NUL && a[i] != c
      invariant off <= i <= off + |str|
      invariant c !in str[..i - off]
      decreases off + |str| - i
    {
      ReadsAt(a[..], off, str, i - off);
      assert str[..i + 1 - off] == str[..i - off] + [str[i - off]];
      i := i + 1;
    }
    if i < off + |str| {
      ReadsAt(a[..], off, str, i - off);
      IndexIs(str, c, i - off);
    } else {
      assert str[..i - off] == str;
    }
    p := if a[i] == NUL then None else Some(i);
  }

  /** What the decoder has done when it has read up to `i` and written up to `o`. */
  ghost predicate Decoding(b: seq<char>, b': seq<char>, p: nat, str: string, i: nat, o: nat) {
    && p <= o <= i <= p + |str| < |b| && |b'| == |b|
    && b'[p..o] + Decode(str[i - p..]) == Decode(str)
    && (forall k :: 0 <= k < |b| && (k < p || i <= k) ==> b'[k] == b[k])
  }

  /** One character taken and one written, `n` characters read. */
  lemma DecodesOne(b: seq<char>, b': seq<char>, b'': seq<char>, p: nat, str: string, i: nat, o: nat, n: nat, c: char)
    requires Reads(b, p, str) && Decoding(b, b', p, str, i, o)
    requires 0 < n && i + n <= p + |str|
    requires Decode(str[i - p..]) == [c] + Decode(str[i - p..][n..])
    requires b'' == b'[o := c]
    ensures Decoding(b, b'', p, str, i + n, o + 1)
  {
    assert str[i - p..][n..] == str[i + n - p..];
    assert b''[p..o + 1] == b'[p..o] + [c];
    Regroup(b'[p..o], [c], Decode(str[i + n - p..]));
  }

  /** One round of the decoder: an escape takes three characters, anything else one. */
  method DecodeOne(a: array<char>, p: nat, i: nat, o: nat, ghost b: seq<char>, ghost str: string)
    returns (i': nat, o': nat)
    requires Reads(b, p, str) && Decoding(b, a[..], p, str, i, o) && i < a.Length && a[i] != NUL
    modifies a
    ensures Decoding(b, a[..], p, str, i', o') && i < i'
  {
    DecodeStep(b, a[..], p, str, i, o);
    DecodesNext(b, a[..], p, str, i, o);
    if a[i] == '%' && a[i + 1] != NUL && a[i + 2] != NUL {
      a[o] := Unescape(a[i + 1], a[i + 2]);
      return i + 3, o + 1;
    } else {
      a[o] := a[i];
      return i + 1, o + 1;
    }
  }

  predicate AtEscape(b: seq<char>, i: nat) {
    i + 2 < |b| && b[i] == '%' && b[i + 1] != NUL && b[i + 2] != NUL
  }

  lemma DecodesNext(b: seq<char>, b': seq<char>, p: nat, str: string, i: nat, o: nat)
    requires Reads(b, p, str) && Decoding(b, b', p, str, i, o) && i < |b'| && b'[i] != NUL
    ensures o < |b'|
    ensures AtEscape(b', i) ==> Decoding(b, b'[o := Unescape(b'[i + 1], b'[i + 2])], p, str, i + 3, o + 1)
    ensures !AtEscape(b', i) ==> Decoding(b, b'[o := b'[i]], p, str, i + 1, o + 1)
  {
    DecodeStep(b, b', p, str, i, o);
    if AtEscape(b', i) {
      var c := Unescape(b'[i + 1], b'[i + 2]);
      DecodesOne(b, b', b'[o := c], p, str, i, o, 3, c);
    } else {
      DecodesOne(b, b', b'[o := b'[i]], p, str, i, o, 1, b'[i]);
    }
  }

  /** `pni_urldecode(p, p)`: the write position never passes the read position. */
  method UrlDecode(a: array<char>, p: nat, ghost str: string)
    requires Reads(a[..], p, str)
    modifies a
    ensures Reads(a[..], p, Unquote(str))
    ensures SameOutside(old(a[..]), a[..], p, p + |str|)
  {
    ghost var b := a[..];
    var i, o := p, p;
    while a[i] != NUL
      invariant i <= p + |str| < a.Length
      invariant Decoding(b, a[..], p, str, i, o)
      decreases p + |str| - i
    {
      i, o := DecodeOne(a, p, i, o, b, str);
    }
    ghost var b' := a[..];
    a[o] := NUL;
    DecodeEnds(b, b', a[..], p, str, i, o);
  }

  /** What the decoder finds at its read position. */
  lemma DecodeStep(b: seq<char>, b': seq<char>, p: nat, str: string, i: nat, o: nat)
    requires Reads(b, p, str) && Decoding(b, b', p, str, i, o) && i < |b'| && b'[i] != NUL
    ensures var rest := str[i - p..];
      && rest != [] && b'[i] == rest[0] && i + 1 < |b'|
      && (b'[i + 1] != NUL <==> |rest| >= 2)
      && (|rest| >= 2 ==> i + 2 < |b'| && b'[i + 1] == rest[1] && (b'[i + 2] != NUL <==> |rest| >= 3))
      && (|rest| >= 3 ==> b'[i + 2] == rest[2])
  {
    var rest := str[i - p..];
    ReadsTail(b, p, str, i - p);
    if i == p + |str| {
      EndIsNul(b, b', p, str, i, o);
    }
    ReadsAt(b, i, rest, 0);
    if |rest| >= 2 { ReadsAt(b, i, rest, 1); }
    if |rest| >= 3 { ReadsAt(b, i, rest, 2); }
  }

  lemma EndIsNul(b: seq<char>, b': seq<char>, p: nat, str: string, i: nat, o: nat)
    requires Reads(b, p, str) && Decoding(b, b', p, str, i, o) && i == p + |str|
    ensures b'[i] == NUL
  {
  }

  lemma NotAtEnd(b: seq<char>, b': seq<char>, p: nat, str: string, i: nat, o: nat)
    requires Reads(b, p, str) && Decoding(b, b', p, str, i, o) && i < p + |str|
    ensures b'[i] != NUL
  {
    ReadsAt(b, p, str, i - p);
  }

  lemma DecodeEnds(b: seq<char>, b': seq<char>, b'': seq<char>, p: nat, str: string, i: nat, o: nat)
    requires Reads(b, p, str) && Decoding(b, b', p, str, i, o) && i < |b'| && b'[i] == NUL
    requires b'' == b'[o := NUL]
    ensures Reads(b'', p, Unquote(str))
    ensures SameOutside(b, b'', p, p + |str|)
  {
    if i < p + |str| {
      NotAtEnd(b, b', p, str, i, o);
    }
    assert str[i - p..] == [];
    assert b'[p..o] + [] == b'[p..o];
    assert b''[p..o] == b'[p..o];
    ReadsTruncated(b'', p, Decode(str));
  }

  /** Text with a NUL after it reads, as a C string, up to its own first NUL. */
  lemma ReadsTruncated(b: seq<char>, p: nat, d: string)
    requires p + |d| < |b| && b[p..p + |d|] == d && b[p + |d|] == NUL
    ensures Reads(b, p, CString(d))
  {
    var k := IndexOf(d, NUL);
    assert b[p..p + k] == b[p..p + |d|][..k];
    if k < |d| {
      assert b[p..p + |d|][k] == b[p + k];
    }
  }

  lemma SchemeCut(b: seq<char>, b': seq<char>, s: string, k: nat)
    requires Reads(b, 0, s) && 0 < k && k + 1 < |s| && b' == b[k - 1 := NUL]
    ensures Reads(b', 0, s[..k - 1]) && Reads(b', k + 2, s[k + 2..])
  {
    Splits(b, b', 0, s, k - 1);
    ReadsTail(b', k, s[k..], 2);
    assert s[k..][2..] == s[k + 2..];
  }

  /** The scheme part: `url` is moved past it. */
  method CutScheme(a: array<char>, ghost s: string) returns (scheme: Option<nat>, url: nat)
    requires Reads(a[..], 0, s)
    modifies a
    ensures FieldIs(a[..], scheme, SplitScheme(s).0)
    ensures Reads(a[..], url, SplitScheme(s).1)
    ensures scheme.Some? ==> scheme.value + |SplitScheme(s).0.value| < url
  {
    ghost var b := a[..];
    scheme, url := None, 0;
    var slash := StrChr(a, 0, '/', s);
    if slash.Some? && slash.value > 0 {
      var k := slash.value;
      ReadsAt(b, 0, s, k - 1);
      ReadsAt(b, 0, s, k);
      if k + 1 < |s| { ReadsAt(b, 0, s, k + 1); }
      // the text "://" can start before the first slash only directly before it
      if a[k - 1] == ':' && a[k + 1] == '/' {
        a[k - 1] := NUL;
        SchemeCut(b, a[..], s, k);
        scheme, url := Some(0), k + 2;
      }
    } else {
      if |s| >= 1 { ReadsAt(b, 0, s, 0); }
      if |s| >= 2 { ReadsAt(b, 0, s, 1); }
      if a[0] == '/' && a[1] == '/' {
        ReadsTail(a[..], 0, s, 2);
        url := 2;
      }
    }
  }

  /** The path part: everything after the next slash. */
  method CutPath(a: array<char>, url: nat, ghost s: string) returns (path: Option<nat>)
    requires Reads(a[..], url, s)
    modifies a
    ensures Reads(a[..], url, SplitPath(s).0)
    ensures FieldIs(a[..], path, SplitPath(s).1)
    ensures path.Some? ==> url + |SplitPath(s).0| < path.value
    ensures SameOutside(old(a[..]), a[..], url, url + |s|)
  {
    ghost var b := a[..];
    var slash := StrChr(a, url, '/', s);
    path := None;
    if slash.Some? {
      a[slash.value] := NUL;
      Splits(b, a[..], url, s, slash.value - url);
      path := Some(slash.value + 1);
    }
  }

  lemma OutsideTwice(b: seq<char>, b1: seq<char>, b2: seq<char>, lo: nat, hi: nat, lo2: nat, hi2: nat)
    requires SameOutside(b, b1, lo, hi) && SameOutside(b1, b2, lo2, hi2) && lo <= lo2 && hi2 <= hi
    ensures SameOutside(b, b2, lo, hi)
  {
  }

  /** Work on the first of two parts leaves the second readable. */
  lemma UserCut(b: seq<char>, b1: seq<char>, b2: seq<char>, url: nat, s: string, k: nat)
    requires k < |s| && SameOutside(b, b1, url, url + |s|) && SameOutside(b1, b2, url, url + k)
    requires Reads(b1, url + k + 1, s[k + 1..])
    ensures Reads(b2, url + k + 1, s[k + 1..]) && SameOutside(b, b2, url, url + |s|)
  {
    ReadsElsewhere(b1, b2, url, url + k, url + k + 1, s[k + 1..]);
    OutsideTwice(b, b1, b2, url, url + |s|, url, url + k);
  }

  /** User and password, each decoded over itself; `rest` is where the host starts. */
  method CutUser(a: array<char>, url: nat, ghost s: string)
    returns (user: Option<nat>, password: Option<nat>, rest: nat)
    requires Reads(a[..], url, s)
    modifies a
    ensures FieldIs(a[..], user, SplitUser(s).0)
    ensures FieldIs(a[..], password, SplitUser(s).1)
    ensures Reads(a[..], rest, SplitUser(s).2)
    ensures url <= rest && rest + |SplitUser(s).2| == url + |s|
    ensures user.Some? ==> user.value + |SplitUser(s).0.value| < rest
    ensures password.Some? ==> password.value + |SplitUser(s).1.value| < rest
    ensures SameOutside(old(a[..]), a[..], url, url + |s|)
  {
    ghost var b := a[..];
    user, password, rest := None, None, url;
    var at := StrChr(a, url, '@', s);
    if at.Some? {
      a[at.value] := NUL;
      rest := at.value + 1;
      ghost var k, b1 := at.value - url, a[..];
      Splits(b, b1, url, s, k);
      user, password := CutPassword(a, url, s[..k]);
      UserCut(b, b1, a[..], url, s, k);
    }
  }

  /** Decoding the password leaves the user before it readable. */
  lemma PasswordCut(b: seq<char>, b1: seq<char>, b2: seq<char>, up: nat, info: string, c: nat)
    requires c < |info| && SameOutside(b, b1, up, up + |info|) && Reads(b1, up, info[..c])
    requires SameOutside(b1, b2, up + c + 1, up + c + 1 + |info[c + 1..]|)
    ensures Reads(b2, up, info[..c]) && SameOutside(b, b2, up, up + |info|)
  {
    ReadsElsewhere(b1, b2, up + c + 1, up + |info|, up, info[..c]);
    OutsideTwice(b, b1, b2, up, up + |info|, up + c + 1, up + |info|);
  }

  /** The user information: the password after the colon is decoded first, then the user. */
  method CutPassword(a: array<char>, up: nat, ghost info: string) returns (user: Option<nat>, password: Option<nat>)
    requires Reads(a[..], up, info)
    modifies a
    ensures FieldIs(a[..], user, Some(SplitInfo(info).0)) && FieldIs(a[..], password, SplitInfo(info).1)
    ensures user.Some? ==> user.value + |SplitInfo(info).0| <= up + |info|
    ensures password.Some? ==> password.value + |SplitInfo(info).1.value| <= up + |info|
    ensures SameOutside(old(a[..]), a[..], up, up + |info|)
  {
    ghost var b := a[..];
    var colon := StrChr(a, up, ':', info);
    password := None;
    if colon.Some? {
      ghost var c := colon.value - up;
      a[colon.value] := NUL;
      ghost var b1 := a[..];
      Splits(b, b1, up, info, c);
      var p := colon.value + 1;
      UrlDecode(a, p, info[c + 1..]);
      ghost var b2 := a[..];
      PasswordCut(b, b1, b2, up, info, c);
      UrlDecode(a, up, info[..c]);
      ReadsElsewhere(b2, a[..], up, up + c, p, Unquote(info[c + 1..]));
      OutsideTwice(b, b2, a[..], up, up + |info|, up, up + c);
      password := Some(p);
    } else {
      UrlDecode(a, up, info);
    }
    user := Some(up);
  }

  /** A bracketed host: the brackets go, and the port is looked for after them. */
  method CutBracketed(a: array<char>, url: nat, close: nat, ghost s: string) returns (port: Option<nat>)
    requires Reads(a[..], url, s)
    requires s != [] && s[0] == '[' && IndexOf(s, ']') < |s| && close == url + IndexOf(s, ']')
    modifies a
    ensures Reads(a[..], url + 1, SplitHost(s).0)
    ensures FieldIs(a[..], port, SplitHost(s).1)
    ensures SameOutside(old(a[..]), a[..], url, url + |s|)
  {
    ghost var b, k := a[..], IndexOf(s, ']');
    a[close] := NUL;
    ghost var b1 := a[..];
    BracketOpens(b, b1, url, s, k);
    port := CutPort(a, close + 1, s[k + 1..]);
    BracketDone(b, b1, a[..], url, s, k);
  }

  lemma BracketDone(b: seq<char>, b1: seq<char>, b2: seq<char>, url: nat, s: string, k: nat)
    requires k < |s| && Reads(b1, url + 1, SplitHost(s).0) && url + 1 + |SplitHost(s).0| == url + k
    requires SameOutside(b, b1, url, url + |s|)
    requires SameOutside(b1, b2, url + k + 1, url + k + 1 + |s[k + 1..]|)
    ensures Reads(b2, url + 1, SplitHost(s).0)
    ensures SameOutside(b, b2, url, url + |s|)
  {
    ReadsElsewhere(b1, b2, url + k + 1, url + k + 1 + |s[k + 1..]|, url + 1, SplitHost(s).0);
    OutsideTwice(b, b1, b2, url, url + |s|, url + k + 1, url + k + 1 + |s[k + 1..]|);
  }

  lemma BracketOpens(b: seq<char>, b1: seq<char>, url: nat, s: string, k: nat)
    requires Reads(b, url, s) && s != [] && s[0] == '[' && k == IndexOf(s, ']') < |s|
    requires b1 == b[url + k := NUL]
    ensures Reads(b1, url + 1, SplitHost(s).0) && url + 1 + |SplitHost(s).0| == url + k
    ensures Reads(b1, url + k + 1, s[k + 1..]) && SplitHost(s).1 == PortIn(s[k + 1..])
    ensures SameOutside(b, b1, url, url + |s|)
  {
    Splits(b, b1, url, s, k);
    ReadsTail(b1, url, s[..k], 1);
    assert s[..k][1..] == s[1..k];
  }

  /** Host and port; a bracketed host loses its brackets. */
  method CutHost(a: array<char>, url: nat, ghost s: string) returns (host: nat, port: Option<nat>)
    requires Reads(a[..], url, s)
    modifies a
    ensures Reads(a[..], host, SplitHost(s).0)
    ensures FieldIs(a[..], port, SplitHost(s).1)
    ensures SameOutside(old(a[..]), a[..], url, url + |s|)
  {
    StartsWith(a[..], url, s);
    var close := None;
    if a[url] == '[' {
      close := StrChr(a, url, ']', s);
    }
    if close.Some? {
      host := url + 1;
      port := CutBracketed(a, url, close.value, s);
    } else {
      host := url;
      port := CutPort(a, url, s);
    }
  }

  lemma StartsWith(b: seq<char>, off: nat, s: string)
    requires Reads(b, off, s)
    ensures b[off] == '[' <==> s != [] && s[0] == '['
  {
    if s != [] {
      ReadsAt(b, off, s, 0);
    }
  }

  method CutPort(a: array<char>, url: nat, ghost s: string) returns (port: Option<nat>)
    requires Reads(a[..], url, s)
    modifies a
    ensures Reads(a[..], url, s[..IndexOf(s, ':')]) && FieldIs(a[..], port, PortIn(s))
    ensures SameOutside(old(a[..]), a[..], url, url + |s|)
  {
    ghost var b := a[..];
    var colon := StrChr(a, url, ':', s);
    port := None;
    if colon.Some? {
      a[colon.value] := NUL;
      Splits(b, a[..], url, s, colon.value - url);
      port := Some(colon.value + 1);
    } else {
      assert s[..|s|] == s;
    }
  }

  /**
   `parse_url`: after it, the six pointers read, in the overwritten buffer, exactly the
   fields of `Parse` of the string the buffer held.
   */
  method ParseUrl(a: array<char>, ghost s: string)
    returns (scheme: Option<nat>, user: Option<nat>, password: Option<nat>,
        host: nat, port: Option<nat>, path: Option<nat>)
    requires Reads(a[..], 0, s)
    modifies a
    ensures var u := Parse(s);
      && FieldIs(a[..], scheme, u.scheme) && FieldIs(a[..], user, u.user) && FieldIs(a[..], password, u.password)
      && FieldIs(a[..], Some(host), u.host) && FieldIs(a[..], port, u.port) && FieldIs(a[..], path, u.path)
  {
    var url;
    scheme, url := CutScheme(a, s);
    ghost var (gScheme, afterScheme) := SplitScheme(s);
    ghost var b1 := a[..];
    path := CutPath(a, url, afterScheme);
    ghost var (authority, gPath) := SplitPath(afterScheme);
    ghost var b2 := a[..];
    if scheme.Some? { ReadsElsewhere(b1, b2, url, url + |afterScheme|, scheme.value, gScheme.value); }
    var rest;
    user, password, rest := CutUser(a, url, authority);
    ghost var (gUser, gPassword, hostPort) := SplitUser(authority);
    ghost var b3 := a[..];
    if scheme.Some? { ReadsElsewhere(b2, b3, url, url + |authority|, scheme.value, gScheme.value); }
    if path.Some? { ReadsElsewhere(b2, b3, url, url + |authority|, path.value, gPath.value); }
    host, port := CutHost(a, rest, hostPort);
    if scheme.Some? { ReadsElsewhere(b3, a[..], rest, rest + |hostPort|, scheme.value, gScheme.value); }
    if path.Some? { ReadsElsewhere(b3, a[..], rest, rest + |hostPort|, path.value, gPath.value); }
    if user.Some? { ReadsElsewhere(b3, a[..], rest, rest + |hostPort|, user.value, gUser.value); }
    if password.Some? { ReadsElsewhere(b3, a[..], rest, rest + |hostPort|, password.value, gPassword.value); }
  }

  /** The constructor's buffer: the text with a NUL after it, which reads up to its first NUL. */
  method NewBuffer(s: string) returns (a: array<char>)
    ensures fresh(a) && Reads(a[..], 0, CString(s))
  {
    a := new char[|s| + 1](_ => NUL);
    forall i | 0 <= i < |s| {
      a[i] := s[i];
    }
    assert a[0..0 + |s|] == s;
    ReadsTruncated(a[..], 0, s);
  }

  lemma Grouped(a: string, b: string, c: string, d: string, e: string)
    ensures a + b + c + d + e == a + (b + (c + d) + e)
  {
  }

  /** The user information as the printer appends it. */
  method PrintUserInfo(str: string, u: Url) returns (r: string)
    ensures r == str + PrintUser(u)
  {
    r := str;
    if u.user.Some? {
      var e := UrlEncode(u.user.value);
      r := r + e;
    }
    if u.password.Some? {
      var e := UrlEncode(u.password.value);
      r := r + (":" + e);
    }
    if u.user.Some? || u.password.Some? {
      r := r + "@";
    }
  }

  /** `operator std::string`: the text is put together part by part. */
  method PrintUrl(u: Url) returns (str: string)
    ensures str == Print(u)
  {
    str := "";
    if u.scheme.Some? {
      str := u.scheme.value + "://";
    }
    str := PrintUserInfo(str, u);
    if u.host.Some? {
      str := str + (if ':' in u.host.value then "[" + u.host.value + "]" else u.host.value);
    }
    assert str == PrintScheme(u) + PrintUser(u) + PrintHost(u);
    if u.port.Some? {
      str := str + (":" + u.port.value);
    }
    assert str == PrintScheme(u) + PrintUser(u) + PrintHost(u) + PrintPort(u);
    if u.path.Some? {
      str := str + ("/" + u.path.value);
    }
    Grouped(PrintScheme(u), PrintUser(u), PrintHost(u), PrintPort(u), PrintPath(u));
  }
}
