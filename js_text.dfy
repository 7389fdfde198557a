/**
 * The few JavaScript string operations the core relies on: `String.prototype.trim`,
 * `String.prototype.includes` and the decimal rendering of a non-negative integer
 * (`n.toString()` and template-literal interpolation of a count or an index).
 */
module JsText {

  /** The code points `trim` strips: ECMAScript's WhiteSpace (TAB, VT, FF, SP, NBSP, ZWNBSP and the
      space separators of category Zs) and LineTerminator (LF, CR, LS, PS). */
  predicate IsTrimmable(c: char) {
    || c == '\t' || c == '\U{000B}' || c == '\U{000C}' || c == ' ' || c == '\U{00A0}' || c == '\U{FEFF}'
    || c == '\U{1680}' || ('\U{2000}' <= c <= '\U{200A}') || c == '\U{202F}' || c == '\U{205F}' || c == '\U{3000}'
    || c == '\n' || c == '\r' || c == '\U{2028}' || c == '\U{2029}'
  }

  predicate AllTrimmable(s: string) {
    forall i :: 0 <= i < |s| ==> IsTrimmable(s[i])
  }

  /** Neither end of `t` can be stripped. */
  predicate TrimmedEnds(t: string) {
    t != [] ==> !IsTrimmable(t[0]) && !IsTrimmable(t[|t| - 1])
  }

  /** Strips the leading trimmable characters: the result is a suffix of `s`. */
  function TrimStart(s: string): (r: string)
    ensures |r| <= |s| && r == s[|s| - |r|..]
    ensures AllTrimmable(s[..|s| - |r|])
    ensures r != [] ==> !IsTrimmable(r[0])
  {
    if s != [] && IsTrimmable(s[0]) then TrimStart(s[1..]) else s
  }

  /** Strips the trailing trimmable characters: the result is a prefix of `s`. */
  function TrimEnd(s: string): (r: string)
    ensures |r| <= |s| && r == s[..|r|]
    ensures AllTrimmable(s[|r|..])
    ensures r != [] ==> !IsTrimmable(r[|r| - 1])
  {
    if s != [] && IsTrimmable(s[|s| - 1]) then TrimEnd(s[..|s| - 1]) else s
  }

  /** `s.trim()`: neither end of the result is trimmable (TrimSplits says what was cut off). */
  function Trim(s: string): (r: string)
    ensures |r| <= |s|
    ensures TrimmedEnds(r)
  {
    var t := TrimStart(s);
    var r := TrimEnd(t);
    assert r != [] ==> r[0] == t[0];
    r
  }

  /** `trim` cuts off a trimmable prefix and a trimmable suffix and nothing else. */
  lemma TrimSplits(s: string) returns (lo: nat)
    ensures lo + |Trim(s)| <= |s| && Trim(s) == s[lo..lo + |Trim(s)|]
    ensures AllTrimmable(s[..lo]) && AllTrimmable(s[lo + |Trim(s)|..])
  {
    var t := TrimStart(s);
    var r := TrimEnd(t);
    lo := |s| - |t|;
    SliceFacts(s, t, r, lo);
  }

  lemma SliceFacts(s: string, t: string, r: string, lo: nat)
    requires lo <= |s| && t == s[lo..] && |r| <= |t| && r == t[..|r|]
    requires AllTrimmable(t[|r|..])
    ensures lo + |r| <= |s| && r == s[lo..lo + |r|] && AllTrimmable(s[lo + |r|..])
  {
    assert s[lo + |r|..] == t[|r|..];
  }

  /** `!s.trim()`: the input is blank. */
  predicate IsBlank(s: string) {
    Trim(s) == []
  }

  lemma {:induction false} TrimStartOf(a: string, t: string)
    requires AllTrimmable(a)
    requires t != [] ==> !IsTrimmable(t[0])
    ensures TrimStart(a + t) == t
  {
    if a != [] {
      assert (a + t)[1..] == a[1..] + t;
      TrimStartOf(a[1..], t);
    } else {
      assert a + t == t;
    }
  }

  lemma {:induction false} TrimEndOf(t: string, b: string)
    requires AllTrimmable(b)
    requires t != [] ==> !IsTrimmable(t[|t| - 1])
    ensures TrimEnd(t + b) == t
  {
    if b != [] {
      assert (t + b)[..|t + b| - 1] == t + b[..|b| - 1];
      TrimEndOf(t, b[..|b| - 1]);
    } else {
      assert t + b == t;
    }
  }

  /** `trim` is determined by its characterisation: whatever trimmable text surrounds a
      string with untrimmable ends, trimming gives back exactly that string. */
  lemma TrimOf(a: string, t: string, b: string)
    requires AllTrimmable(a) && AllTrimmable(b) && TrimmedEnds(t)
    ensures Trim(a + t + b) == t
  {
    assert a + t + b == a + (t + b);
    if t == [] {
      assert t + b == b;
      assert AllTrimmable(a + b) by {
        forall i | 0 <= i < |a + b| ensures IsTrimmable((a + b)[i]) {
          if i >= |a| { assert (a + b)[i] == b[i - |a|]; }
        }
      }
      TrimStartOf(a + b, []);
      assert a + b + [] == a + b;
    } else {
      TrimStartOf(a, t + b);
      TrimEndOf(t, b);
    }
  }

  /** Trimming twice is trimming once. */
  lemma TrimIdempotent(s: string)
    ensures Trim(Trim(s)) == Trim(s)
  {
    var t := Trim(s);
    TrimOf([], t, []);
    assert [] + t + [] == t;
  }

  /** A string is blank exactly when every character of it is trimmable. */
  lemma BlankIff(s: string)
    ensures IsBlank(s) <==> AllTrimmable(s)
  {
    if AllTrimmable(s) {
      TrimOf(s, [], []);
      assert s + [] + [] == s;
    }
  }

  /** `sub` occurs in `s` starting at index `i`. */
  predicate OccursAt(s: string, sub: string, i: nat) {
    i + |sub| <= |s| && s[i..i + |sub|] == sub
  }

  /** `s.includes(sub)`. */
  function Includes(s: string, sub: string): (r: bool)
    ensures r <==> exists i: nat :: OccursAt(s, sub, i)
    decreases |s|
  {
    if |sub| > |s| then
      false
    else if s[..|sub|] == sub then
      assert OccursAt(s, sub, 0);
      true
    else
      var r := Includes(s[1..], sub);
      assert forall i: nat :: OccursAt(s[1..], sub, i) <==> OccursAt(s, sub, i + 1) by {
        forall i: nat ensures OccursAt(s[1..], sub, i) <==> OccursAt(s, sub, i + 1) {
          if i + |sub| <= |s[1..]| {
            assert s[1..][i..i + |sub|] == s[i + 1..i + 1 + |sub|];
          }
        }
      }
      assert !r ==> forall i: nat :: !OccursAt(s, sub, i) by {
        if !r {
          forall i: nat ensures !OccursAt(s, sub, i) {
            if i > 0 {
              assert !OccursAt(s[1..], sub, i - 1);
            }
          }
        }
      }
      r
  }

  predicate IsDigit(c: char) {
    '0' <= c <= '9'
  }

  function DigitChar(d: nat): (c: char)
    requires d < 10
    ensures IsDigit(c) && c as int - '0' as int == d
  {
    (d + '0' as int) as char
  }

  /** The decimal rendering of a non-negative integer (`String(n)`, `n.toString()`). */
  function NatToString(n: nat): (r: string)
    ensures r != [] && forall i :: 0 <= i < |r| ==> IsDigit(r[i])
    ensures |r| > 1 ==> r[0] != '0'
  {
    if n < 10 then [DigitChar(n)] else NatToString(n / 10) + [DigitChar(n % 10)]
  }

  /** Reads a string of decimal digits back as a number. */
  function ParseDecimal(s: string): nat
    requires forall i :: 0 <= i < |s| ==> IsDigit(s[i])
  {
    if s == [] then 0
    else
      assert IsDigit(s[|s| - 1]);
      ParseDecimal(s[..|s| - 1]) * 10 + (s[|s| - 1] as int - '0' as int)
  }

  /** The rendering loses nothing: reading it back gives the number. */
  lemma {:induction false} DecimalRoundTrip(n: nat)
    ensures ParseDecimal(NatToString(n)) == n
  {
    if n >= 10 {
      var s := NatToString(n);
      assert s[..|s| - 1] == NatToString(n / 10);
      DecimalRoundTrip(n / 10);
    }
  }

  /** Distinct numbers render as distinct strings. */
  lemma NatToStringInjective(m: nat, n: nat)
    requires m != n
    ensures NatToString(m) != NatToString(n)
  {
    DecimalRoundTrip(m);
    DecimalRoundTrip(n);
  }
}
