/**
 Percent-encoding as `url.cpp` does it: the encoder with its loop, and the decoder as a
 function. A `char` stands for one byte.
 */
module UrlCodec {

  const NUL: char := '\0'

  /** The characters the encoder replaces: the delimiters of a URL, and the percent sign itself. */
  predicate Bad(c: char) {
    c == '@' || c == ':' || c == '/' || c == '%' || c == '[' || c == ']' || c == '?' || c == '#'
  }

  function HexDigit(n: nat): char
    requires n < 16
  {
    "0123456789ABCDEF"[n]
  }

  function Escape(c: char): string
    requires Bad(c)
  {
    ['%', HexDigit(c as int / 16), HexDigit(c as int % 16)]
  }

  function EncodeChar(c: char): string {
    if Bad(c) then Escape(c) else [c]
  }

  function Encode(s: string): string {
    if s == [] then [] else EncodeChar(s[0]) + Encode(s[1..])
  }

  // ---------- strtoul on two characters, base 16 ----------

  predicate IsSpace(c: char) {
    c == ' ' || ('\t' <= c <= '\r')
  }

  predicate IsHex(c: char) {
    '0' <= c <= '9' || 'a' <= c <= 'f' || 'A' <= c <= 'F'
  }

  function HexValue(c: char): (n: nat)
    requires IsHex(c)
    ensures n < 16
  {
    if c <= '9' then (c as int) - ('0' as int)
    else if c <= 'F' then (c as int) - ('A' as int) + 10
    else (c as int) - ('a' as int) + 10
  }

  /**
   The value of `strtoul` on the two characters, cut down to a byte: leading space and a sign are
   taken, the rest of a non-number is not.
   */
  function EscapeValue(a: char, b: char): (n: nat)
    ensures n < 256
  {
    if IsSpace(a) || a == '+' then (if IsHex(b) then HexValue(b) else 0)
    else if a == '-' then (if IsHex(b) then (256 - HexValue(b)) % 256 else 0)
    else if IsHex(a) then (if IsHex(b) then 16 * HexValue(a) + HexValue(b) else HexValue(a))
    else 0
  }

  function Unescape(a: char, b: char): char {
    EscapeValue(a, b) as char
  }

  function Decode(s: string): (r: string)
    ensures |r| <= |s|
  {
    if s == [] then []
    else if s[0] == '%' && |s| >= 3 then [Unescape(s[1], s[2])] + Decode(s[3..])
    else [s[0]] + Decode(s[1..])
  }

  /** The escape of a character is the percent sign and two hex digits that stand for it. */
  lemma EscapeDigits(c: char)
    requires Bad(c)
    ensures var e := Escape(c);
      && |e| == 3 && e[0] == '%' && IsHex(e[1]) && IsHex(e[2])
      && 16 * HexValue(e[1]) + HexValue(e[2]) == c as int
  {
    var n := c as int;
    HexDigitValue(n / 16);
    HexDigitValue(n % 16);
  }

  lemma HexDigitValue(n: nat)
    requires n < 16
    ensures IsHex(HexDigit(n)) && HexValue(HexDigit(n)) == n
  {
  }

  lemma UnescapeEscape(c: char)
    requires Bad(c)
    ensures |Escape(c)| == 3 && Escape(c)[0] == '%'
    ensures Unescape(Escape(c)[1], Escape(c)[2]) == c
    ensures !Bad(Escape(c)[1]) && !Bad(Escape(c)[2])
    ensures NUL !in Escape(c)
  {
    EscapeDigits(c);
  }

  /** Decoding inverts encoding, for every string. */
  lemma {:induction false} DecodeEncode(s: string)
    ensures Decode(Encode(s)) == s
  {
    if s != [] {
      DecodeEncode(s[1..]);
      if Bad(s[0]) {
        UnescapeEscape(s[0]);
        assert Encode(s)[3..] == Encode(s[1..]);
      } else {
        assert Encode(s)[1..] == Encode(s[1..]);
      }
    }
  }

  /** Encoded text contains no delimiter except the percent sign. */
  lemma {:induction false} EncodedHasNoDelimiter(s: string)
    ensures forall c :: c in Encode(s) && Bad(c) ==> c == '%'
    ensures NUL !in s ==> NUL !in Encode(s)
  {
    if s != [] {
      EncodedHasNoDelimiter(s[1..]);
      if Bad(s[0]) {
        UnescapeEscape(s[0]);
      }
    }
  }

  lemma Regroup(x: string, y: string, z: string)
    ensures x + (y + z) == (x + y) + z
  {
  }

  lemma {:induction false} EncodeAppend(s: string, t: string)
    ensures Encode(s + t) == Encode(s) + Encode(t)
  {
    if s == [] {
      assert s + t == t;
    } else {
      EncodeAppend(s[1..], t);
      assert (s + t)[1..] == s[1..] + t && (s + t)[0] == s[0];
      Regroup(EncodeChar(s[0]), Encode(s[1..]), Encode(t));
    }
  }

  /** From place `i` up to `j` nothing needs an escape. */
  ghost predicate Clean(s: string, i: nat, j: nat) {
    i <= j <= |s| && forall k :: i <= k < j ==> !Bad(s[k])
  }

  lemma {:induction false} EncodeClean(s: string)
    requires Clean(s, 0, |s|)
    ensures Encode(s) == s
  {
    if s != [] {
      EncodeClean(s[1..]);
    }
  }

  lemma EncodeUpTo(s: string, i: nat, j: nat)
    requires Clean(s, i, j) && j < |s| && Bad(s[j])
    ensures Encode(s[..j + 1]) == Encode(s[..i]) + s[i..j] + Escape(s[j])
  {
    EncodeClean(s[i..j]);
    EncodeAppend(s[..i], s[i..j]);
    assert s[..i] + s[i..j] == s[..j];
    EncodeAppend(s[..j], [s[j]]);
    assert s[..j] + [s[j]] == s[..j + 1];
    assert Encode([s[j]]) == Escape(s[j]);
  }

  lemma EncodeRest(s: string, i: nat)
    requires Clean(s, i, |s|)
    ensures Encode(s) == Encode(s[..i]) + s[i..]
  {
    var front, rest := s[..i], s[i..];
    assert front + rest == s;
    assert Clean(rest, 0, |rest|);
    EncodeClean(rest);
    EncodeAppend(front, rest);
  }

  /** `find_first_of` from position `i`. */
  method FindBad(s: string, i: nat) returns (j: nat)
    requires i <= |s|
    ensures Clean(s, i, j)
    ensures j < |s| ==> Bad(s[j])
  {
    j := i;
    while j < |s| && !Bad(s[j])
      invariant Clean(s, i, j)
    {
      j := j + 1;
    }
  }

  /** `pni_urlencode`: copy up to each bad character, write its escape, go on after it. */
  method UrlEncode(src: string) returns (dst: string)
    ensures dst == Encode(src)
  {
    dst := [];
    var i := 0;
    var j := FindBad(src, 0);
    while j < |src|
      invariant Clean(src, i, j)
      invariant j < |src| ==> Bad(src[j])
      invariant dst == Encode(src[..i])
    {
      EncodeUpTo(src, i, j);
      dst := dst + src[i..j];
      dst := dst + Escape(src[j]);
      i := j + 1;
      j := FindBad(src, i);
    }
    EncodeRest(src, i);
    dst := dst + src[i..];
  }
}
