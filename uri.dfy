/**
 * `encodeURIComponent` and `decodeURIComponent` of ECMAScript (section 19.2.6 of ECMA-262): every
 * character outside the unreserved set (RFC 3986 section 2.3 plus the marks ! * ' ( ) ) is written
 * as the percent-encoded octets of its UTF-8 form (RFC 3629), with upper-case hexadecimal digits
 * (RFC 3986 section 2.1). Also the split of a URL query into `name=value` pairs.
 */
module Uri {
  import opened Wrappers

  type Byte = b: int | 0 <= b < 256

  /** ECMAScript's uriAlpha, DecimalDigit and uriMark: what `encodeURIComponent` keeps as it is. */
  predicate IsUnreserved(c: char) {
    || ('a' <= c <= 'z') || ('A' <= c <= 'Z') || ('0' <= c <= '9')
    || c == '-' || c == '_' || c == '.' || c == '!' || c == '~' || c == '*' || c == '\'' || c == '(' || c == ')'
  }

  predicate IsUpperHex(c: char) {
    ('0' <= c <= '9') || ('A' <= c <= 'F')
  }

  function HexChar(d: nat): (c: char)
    requires d < 16
    ensures IsUpperHex(c)
  {
    if d < 10 then (d + '0' as int) as char else (d - 10 + 'A' as int) as char
  }

  /** The value of a hexadecimal digit of either case. */
  function HexValue(c: char): (r: Option<nat>)
    ensures r.Some? ==> r.value < 16
  {
    if '0' <= c <= '9' then Some(c as int - '0' as int)
    else if 'A' <= c <= 'F' then Some(c as int - 'A' as int + 10)
    else if 'a' <= c <= 'f' then Some(c as int - 'a' as int + 10)
    else None
  }

  function PercentByte(b: Byte): string {
    ['%', HexChar(b / 16), HexChar(b % 16)]
  }

  function PercentBytes(bs: seq<Byte>): (r: string)
    ensures |r| == 3 * |bs|
  {
    if bs == [] then [] else PercentByte(bs[0]) + PercentBytes(bs[1..])
  }

  /** The UTF-8 octets of a code point, split six bits at a time. */
  function Utf8(c: char): (bs: seq<Byte>)
    ensures 1 <= |bs| <= 4
    ensures |bs| == 1 <==> c as int < 0x80
  {
    var cp := c as int;
    if cp < 0x80 then [cp]
    else if cp < 0x800 then [0xC0 + cp / 64, 0x80 + cp % 64]
    else if cp < 0x10000 then
      var t := cp / 64;
      [0xE0 + t / 64, 0x80 + t % 64, 0x80 + cp % 64]
    else
      var t := cp / 64;
      var u := t / 64;
      [0xF0 + u / 64, 0x80 + u % 64, 0x80 + t % 64, 0x80 + cp % 64]
  }

  function EncodeChar(c: char): string {
    if IsUnreserved(c) then [c] else PercentBytes(Utf8(c))
  }

  /** Every character is unreserved, or a `%` that starts a triple with two upper-case hex digits. */
  predicate WellEncoded(r: string) {
    forall i :: 0 <= i < |r| ==> EncodedAt(r, i)
  }

  predicate EncodedAt(r: string, i: nat)
    requires i < |r|
  {
    IsUnreserved(r[i]) || (r[i] == '%' && i + 2 < |r| && IsUpperHex(r[i + 1]) && IsUpperHex(r[i + 2]))
  }

  /** `encodeURIComponent(s)`. Lone surrogates, on which it throws, cannot occur in a `string` here. */
  function EncodeURIComponent(s: string): (r: string)
    ensures WellEncoded(r)
  {
    if s == [] then []
    else
      EncodeCharWell(s[0]);
      var r := EncodeChar(s[0]) + EncodeURIComponent(s[1..]);
      ConcatWell(EncodeChar(s[0]), EncodeURIComponent(s[1..]));
      r
  }

  lemma PercentByteWell(b: Byte)
    ensures WellEncoded(PercentByte(b))
  {
    var t := PercentByte(b);
    assert t[0] == '%' && IsUpperHex(t[1]) && IsUpperHex(t[2]);
    assert EncodedAt(t, 0) && EncodedAt(t, 1) && EncodedAt(t, 2);
  }

  lemma {:induction false} PercentBytesWell(bs: seq<Byte>)
    ensures WellEncoded(PercentBytes(bs))
  {
    if bs != [] {
      PercentBytesWell(bs[1..]);
      PercentByteWell(bs[0]);
      ConcatWell(PercentByte(bs[0]), PercentBytes(bs[1..]));
    }
  }

  lemma EncodeCharWell(c: char)
    ensures WellEncoded(EncodeChar(c))
  {
    if !IsUnreserved(c) {
      PercentBytesWell(Utf8(c));
    }
  }

  lemma ConcatWell(a: string, b: string)
    requires WellEncoded(a) && WellEncoded(b)
    ensures WellEncoded(a + b)
  {
    forall i | 0 <= i < |a + b| ensures EncodedAt(a + b, i) {
      if i < |a| {
        assert (a + b)[i] == a[i];
        assert EncodedAt(a, i);
        if !IsUnreserved(a[i]) {
          assert (a + b)[i + 1] == a[i + 1] && (a + b)[i + 2] == a[i + 2];
        }
      } else {
        var j := i - |a|;
        assert (a + b)[i] == b[j];
        assert EncodedAt(b, j);
        if !IsUnreserved(b[j]) {
          assert (a + b)[i + 1] == b[j + 1] && (a + b)[i + 2] == b[j + 2];
        }
      }
    }
  }

  /** The encoded form holds none of the characters that delimit a query (`&`, `=`, `#`, `?`, `+`)
      and no space, so splicing it into a query string cannot add or split a parameter. */
  lemma EncodedHasNoDelimiters(s: string)
    ensures var r := EncodeURIComponent(s);
      '&' !in r && '=' !in r && '#' !in r && '?' !in r && '+' !in r && ' ' !in r
  {
    var r := EncodeURIComponent(s);
    AbsentWhenEncoded(r, '&');
    AbsentWhenEncoded(r, '=');
    AbsentWhenEncoded(r, '#');
    AbsentWhenEncoded(r, '?');
    AbsentWhenEncoded(r, '+');
    AbsentWhenEncoded(r, ' ');
  }

  /** A well-encoded text holds no reserved character other than `%`. */
  lemma AbsentWhenEncoded(r: string, d: char)
    requires WellEncoded(r) && !IsUnreserved(d) && d != '%'
    ensures d !in r
  {
    forall i | 0 <= i < |r| ensures r[i] != d {
      assert EncodedAt(r, i);
    }
  }

  // ---- decoding ----------------------------------------------------------

  /** The octet written as `%XY` at index `i`, if there is one. */
  function HexPairAt(s: string, i: nat): Option<Byte> {
    if i + 3 <= |s| && s[i] == '%' && HexValue(s[i + 1]).Some? && HexValue(s[i + 2]).Some? then
      Some(HexValue(s[i + 1]).value * 16 + HexValue(s[i + 2]).value)
    else None
  }

  /** The six payload bits of a continuation octet (`10xxxxxx`) written at index `i`. */
  function ContinuationAt(s: string, i: nat): (r: Option<nat>)
    ensures r.Some? ==> r.value < 64
  {
    var b := HexPairAt(s, i);
    if b.Some? && 0x80 <= b.value < 0xC0 then Some(b.value - 0x80) else None
  }

  /** Decodes the percent-encoded UTF-8 sequence at the start of `s`: the character and the number
      of characters of `s` it took; `None` where `decodeURIComponent` throws `URIError` (bad hex, a
      stray or truncated octet, an overlong form, a surrogate, a code point above U+10FFFF). */
  function DecodeAt(s: string): (r: Option<(char, nat)>)
    ensures r.Some? ==> 3 <= r.value.1 <= |s|
  {
    var lead := HexPairAt(s, 0);
    if lead.None? then None
    else
      var b := lead.value;
      if b < 0x80 then Some((b as char, 3))
      else if 0xC0 <= b < 0xE0 then
        var c1 := ContinuationAt(s, 3);
        if c1.None? then None
        else
          var cp := (b - 0xC0) * 64 + c1.value;
          if cp < 0x80 then None else Some((cp as char, 6))
      else if 0xE0 <= b < 0xF0 then
        var c1, c2 := ContinuationAt(s, 3), ContinuationAt(s, 6);
        if c1.None? || c2.None? then None
        else
          var cp := ((b - 0xE0) * 64 + c1.value) * 64 + c2.value;
          if cp < 0x800 || (0xD800 <= cp < 0xE000) then None else Some((cp as char, 9))
      else if 0xF0 <= b < 0xF8 then
        var c1, c2, c3 := ContinuationAt(s, 3), ContinuationAt(s, 6), ContinuationAt(s, 9);
        if c1.None? || c2.None? || c3.None? then None
        else
          var cp := (((b - 0xF0) * 64 + c1.value) * 64 + c2.value) * 64 + c3.value;
          if cp < 0x10000 || cp > 0x10FFFF then None else Some((cp as char, 12))
      else None
  }

  function Prepend(c: char, rest: Option<string>): Option<string> {
    if rest.None? then None else Some([c] + rest.value)
  }

  /** `decodeURIComponent(s)`; `None` where it throws `URIError`. */
  function DecodeURIComponent(s: string): Option<string>
    decreases |s|
  {
    if s == [] then Some([])
    else if s[0] != '%' then Prepend(s[0], DecodeURIComponent(s[1..]))
    else
      var d := DecodeAt(s);
      if d.None? then None else Prepend(d.value.0, DecodeURIComponent(s[d.value.1..]))
  }

  lemma HexRoundTrip(b: Byte)
    ensures HexValue(HexChar(b / 16)) == Some(b / 16) && HexValue(HexChar(b % 16)) == Some(b % 16)
  {
  }

  /** Inside `PercentBytes(bs) + rest`, the `k`-th triple decodes to `bs[k]`. */
  lemma {:induction false} PercentBytesAt(bs: seq<Byte>, rest: string, k: nat)
    requires k < |bs|
    ensures HexPairAt(PercentBytes(bs) + rest, 3 * k) == Some(bs[k])
  {
    var s := PercentBytes(bs) + rest;
    if k == 0 {
      HexRoundTrip(bs[0]);
      assert s[0] == '%' && s[1] == HexChar(bs[0] / 16) && s[2] == HexChar(bs[0] % 16);
    } else {
      var t := PercentBytes(bs[1..]) + rest;
      assert s == PercentByte(bs[0]) + t;
      PercentBytesAt(bs[1..], rest, k - 1);
      assert s[3 * k..3 * k + 3] == t[3 * (k - 1)..3 * (k - 1) + 3];
      assert s[3 * k] == t[3 * (k - 1)] && s[3 * k + 1] == t[3 * (k - 1) + 1] && s[3 * k + 2] == t[3 * (k - 1) + 2];
    }
  }

  lemma Decode1(c: char, rest: string)
    requires c as int < 0x80
    ensures DecodeAt(PercentBytes(Utf8(c)) + rest) == Some((c, 3))
  {
    PercentBytesAt(Utf8(c), rest, 0);
  }

  /** `DecodeAt` on a two-octet sequence, for any octets. */
  lemma DecodeTwo(s: string, b: nat, c1: nat)
    requires HexPairAt(s, 0) == Some(b) && 0xC0 <= b < 0xE0 && ContinuationAt(s, 3) == Some(c1)
    requires (b - 0xC0) * 64 + c1 >= 0x80
    ensures DecodeAt(s) == Some((((b - 0xC0) * 64 + c1) as char, 6))
  {
  }

  /** `DecodeAt` on a three-octet sequence that does not encode a surrogate. */
  lemma DecodeThree(s: string, b: nat, c1: nat, c2: nat)
    requires HexPairAt(s, 0) == Some(b) && 0xE0 <= b < 0xF0
    requires ContinuationAt(s, 3) == Some(c1) && ContinuationAt(s, 6) == Some(c2)
    requires var cp := ((b - 0xE0) * 64 + c1) * 64 + c2; cp >= 0x800 && !(0xD800 <= cp < 0xE000)
    ensures DecodeAt(s) == Some(((((b - 0xE0) * 64 + c1) * 64 + c2) as char, 9))
  {
  }

  /** `DecodeAt` on a four-octet sequence within the code space. */
  lemma DecodeFour(s: string, b: nat, c1: nat, c2: nat, c3: nat)
    requires HexPairAt(s, 0) == Some(b) && 0xF0 <= b < 0xF8
    requires ContinuationAt(s, 3) == Some(c1) && ContinuationAt(s, 6) == Some(c2) && ContinuationAt(s, 9) == Some(c3)
    requires var cp := (((b - 0xF0) * 64 + c1) * 64 + c2) * 64 + c3; 0x10000 <= cp <= 0x10FFFF
    ensures DecodeAt(s) == Some((((((b - 0xF0) * 64 + c1) * 64 + c2) * 64 + c3) as char, 12))
  {
  }

  lemma Decode2(c: char, rest: string)
    requires 0x80 <= c as int < 0x800
    ensures DecodeAt(PercentBytes(Utf8(c)) + rest) == Some((c, 6))
  {
    var bs, cp := Utf8(c), c as int;
    var s := PercentBytes(bs) + rest;
    var b, c1 := 0xC0 + cp / 64, cp % 64;
    PercentBytesAt(bs, rest, 0);
    PercentBytesAt(bs, rest, 1);
    assert HexPairAt(s, 0) == Some(b);
    assert ContinuationAt(s, 3) == Some(c1);
    assert (b - 0xC0) * 64 + c1 == cp;
    DecodeTwo(s, b, c1);
  }

  lemma Decode3(c: char, rest: string)
    requires 0x800 <= c as int < 0x10000
    ensures DecodeAt(PercentBytes(Utf8(c)) + rest) == Some((c, 9))
  {
    var bs, cp := Utf8(c), c as int;
    var t := cp / 64;
    var s := PercentBytes(bs) + rest;
    var b, c1, c2 := 0xE0 + t / 64, t % 64, cp % 64;
    PercentBytesAt(bs, rest, 0);
    PercentBytesAt(bs, rest, 1);
    PercentBytesAt(bs, rest, 2);
    assert HexPairAt(s, 0) == Some(b);
    assert ContinuationAt(s, 3) == Some(c1);
    assert ContinuationAt(s, 6) == Some(c2);
    assert ((b - 0xE0) * 64 + c1) * 64 + c2 == cp;
    DecodeThree(s, b, c1, c2);
  }

  lemma Decode4(c: char, rest: string)
    requires 0x10000 <= c as int
    ensures DecodeAt(PercentBytes(Utf8(c)) + rest) == Some((c, 12))
  {
    var bs, cp := Utf8(c), c as int;
    var t := cp / 64;
    var u := t / 64;
    var s := PercentBytes(bs) + rest;
    var b, c1, c2, c3 := 0xF0 + u / 64, u % 64, t % 64, cp % 64;
    PercentBytesAt(bs, rest, 0);
    PercentBytesAt(bs, rest, 1);
    PercentBytesAt(bs, rest, 2);
    PercentBytesAt(bs, rest, 3);
    assert HexPairAt(s, 0) == Some(b);
    assert ContinuationAt(s, 3) == Some(c1);
    assert ContinuationAt(s, 6) == Some(c2);
    assert ContinuationAt(s, 9) == Some(c3);
    assert (((b - 0xF0) * 64 + c1) * 64 + c2) * 64 + c3 == cp;
    DecodeFour(s, b, c1, c2, c3);
  }

  /** The percent-encoded UTF-8 form of a reserved character decodes back to it. */
  lemma DecodeAtUtf8(c: char, rest: string)
    requires !IsUnreserved(c)
    ensures DecodeAt(PercentBytes(Utf8(c)) + rest) == Some((c, 3 * |Utf8(c)|))
  {
    var cp := c as int;
    if cp < 0x80 { Decode1(c, rest); }
    else if cp < 0x800 { Decode2(c, rest); }
    else if cp < 0x10000 { Decode3(c, rest); }
    else { Decode4(c, rest); }
  }

  lemma DecodeEncodedChar(c: char, rest: string)
    ensures DecodeURIComponent(EncodeChar(c) + rest) == Prepend(c, DecodeURIComponent(rest))
  {
    var s := EncodeChar(c) + rest;
    if IsUnreserved(c) {
      assert s[0] == c && s[1..] == rest;
    } else {
      var bs := Utf8(c);
      DecodeAtUtf8(c, rest);
      assert s[0] == '%';
      assert s[3 * |bs|..] == rest;
    }
  }

  /** `decodeURIComponent(encodeURIComponent(s)) === s`. */
  lemma {:induction false} EncodeRoundTrip(s: string)
    ensures DecodeURIComponent(EncodeURIComponent(s)) == Some(s)
  {
    if s != [] {
      EncodeRoundTrip(s[1..]);
      DecodeEncodedChar(s[0], EncodeURIComponent(s[1..]));
      assert [s[0]] + s[1..] == s;
    }
  }

  /** Distinct strings encode differently. */
  lemma EncodeInjective(s: string, t: string)
    requires EncodeURIComponent(s) == EncodeURIComponent(t)
    ensures s == t
  {
    EncodeRoundTrip(s);
    EncodeRoundTrip(t);
  }

  // ---- reading a URL's query -----------------------------------------------

  /** The index of the first `c` in `s`. */
  function IndexOf(s: string, c: char): (i: nat)
    requires c in s
    ensures i < |s| && s[i] == c && c !in s[..i]
  {
    if s[0] == c then 0
    else
      assert s == [s[0]] + s[1..];
      var j := IndexOf(s[1..], c);
      assert s[..j + 1] == [s[0]] + s[1..][..j];
      j + 1
  }

  /** The URL without its fragment: everything before the first `#`. */
  function WithoutFragment(url: string): (r: string)
    ensures '#' !in r && r <= url
    ensures '#' !in url ==> r == url
  {
    if '#' in url then url[..IndexOf(url, '#')] else url
  }

  /** The query: the text after the first `?` and before the fragment, or "" when there is none. */
  function QueryOf(url: string): string {
    var u := WithoutFragment(url);
    if '?' in u then u[IndexOf(u, '?') + 1..] else ""
  }

  /** The `&`-separated parts of a query. */
  function SplitParts(q: string): (parts: seq<string>)
    ensures |parts| >= 1
    decreases |q|
  {
    if '&' !in q then [q] else var i := IndexOf(q, '&'); [q[..i]] + SplitParts(q[i + 1..])
  }

  /** A part read as `name=value`, split at its first `=`. */
  function NameValue(part: string): (string, string) {
    if '=' in part then
      var i := IndexOf(part, '=');
      (part[..i], part[i + 1..])
    else (part, "")
  }

  /** The `name=value` pairs of a query, in order. */
  function QueryPairs(q: string): (pairs: seq<(string, string)>)
    ensures |pairs| == |SplitParts(q)|
  {
    var parts := SplitParts(q);
    seq(|parts|, k requires 0 <= k < |parts| => NameValue(parts[k]))
  }

  lemma IndexOfPrefix(a: string, c: char, b: string)
    requires c !in a
    ensures c in a + [c] + b && IndexOf(a + [c] + b, c) == |a|
  {
    var s := a + [c] + b;
    assert s[|a|] == c;
    assert s[..|a|] == a;
  }

  /** Splitting `a & b` where `a` holds no `&` gives `a` and then the parts of `b`. */
  lemma {:induction false} SplitPartsCons(a: string, b: string)
    requires '&' !in a
    ensures SplitParts(a + "&" + b) == [a] + SplitParts(b)
  {
    IndexOfPrefix(a, '&', b);
    var s := a + "&" + b;
    assert s[..|a|] == a;
    assert s[|a| + 1..] == b;
  }

  lemma NameValueOf(name: string, value: string)
    requires '=' !in name
    ensures NameValue(name + "=" + value) == (name, value)
  {
    IndexOfPrefix(name, '=', value);
    var s := name + "=" + value;
    assert s[..|name|] == name;
    assert s[|name| + 1..] == value;
  }

  lemma QueryOfAfter(base: string, q: string)
    requires '?' !in base && '#' !in base && '#' !in q
    ensures QueryOf(base + "?" + q) == q
  {
    assert '#' !in base + "?" + q;
    IndexOfPrefix(base, '?', q);
    assert (base + "?" + q)[|base| + 1..] == q;
  }

  lemma {:induction false} SplitPartsOfThree(p1: string, p2: string, p3: string)
    requires '&' !in p1 && '&' !in p2 && '&' !in p3
    ensures SplitParts(p1 + "&" + p2 + "&" + p3) == [p1, p2, p3]
  {
    var tail := p2 + "&" + p3;
    assert SplitParts(p1 + "&" + p2 + "&" + p3) == [p1] + SplitParts(tail) by {
      assert p1 + "&" + p2 + "&" + p3 == p1 + "&" + tail;
      SplitPartsCons(p1, tail);
    }
    assert SplitParts(tail) == [p2] + [p3] by {
      SplitPartsCons(p2, p3);
    }
    assert [p1] + ([p2] + [p3]) == [p1, p2, p3];
  }

  /** A query of three `name=value` pairs, none of whose parts holds an `&` and none of whose
      names holds an `=`, reads back as those three pairs. */
  lemma QueryPairsOfThree(n1: string, v1: string, n2: string, v2: string, n3: string, v3: string)
    requires '&' !in n1 + "=" + v1 && '&' !in n2 + "=" + v2 && '&' !in n3 + "=" + v3
    requires '=' !in n1 && '=' !in n2 && '=' !in n3
    ensures QueryPairs((n1 + "=" + v1) + "&" + (n2 + "=" + v2) + "&" + (n3 + "=" + v3)) == [(n1, v1), (n2, v2), (n3, v3)]
  {
    SplitPartsOfThree(n1 + "=" + v1, n2 + "=" + v2, n3 + "=" + v3);
    NameValueOf(n1, v1);
    NameValueOf(n2, v2);
    NameValueOf(n3, v3);
  }
}
