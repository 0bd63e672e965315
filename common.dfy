/** Small value types and string helpers shared by the other modules: Option and Result,
    Python's `str.join`, Python's substring test `sub in s`, and the decimal rendering of
    an integer that an f-string performs. */
module Common {

  /** Python's `None` versus a present value. */
  datatype Option<+T> = None | Some(value: T)

  /** A value, or the error an operation raised instead. */
  datatype Result<+T, +E> = Ok(value: T) | Err(error: E)

  /** `sep.join(parts)`. */
  function Join(sep: string, parts: seq<string>): string
  {
    if |parts| == 0 then ""
    else if |parts| == 1 then parts[0]
    else parts[0] + sep + Join(sep, parts[1..])
  }

  /** `sub` starts at offset `i` of `s`. */
  predicate OccursAt(s: string, sub: string, i: nat)
  {
    i <= |s| && sub <= s[i..]
  }

  /** `sub in s`: `sub` starts at some offset of `s`. */
  predicate Contains(s: string, sub: string)
  {
    exists i: nat | i <= |s| :: OccursAt(s, sub, i)
  }

  /** An occurrence at a known offset is an occurrence. */
  lemma ContainsAt(s: string, sub: string, i: nat)
    requires i <= |s| && sub <= s[i..]
    ensures Contains(s, sub)
  {
    assert OccursAt(s, sub, i);
  }

  /** Every occurrence has an offset. */
  lemma ContainsIndex(s: string, sub: string) returns (i: nat)
    requires Contains(s, sub)
    ensures i <= |s| && sub <= s[i..]
  {
    i :| i <= |s| && OccursAt(s, sub, i);
  }

  /** Appending text after `s` keeps the occurrences in `s`. */
  lemma ContainsLeft(s: string, t: string, sub: string)
    requires Contains(s, sub)
    ensures Contains(s + t, sub)
  {
    var i := ContainsIndex(s, sub);
    assert (s + t)[i..] == s[i..] + t;
    ContainsAt(s + t, sub, i);
  }

  /** Prepending text before `t` keeps the occurrences in `t`. */
  lemma ContainsRight(s: string, t: string, sub: string)
    requires Contains(t, sub)
    ensures Contains(s + t, sub)
  {
    var i := ContainsIndex(t, sub);
    assert (s + t)[|s| + i..] == t[i..];
    ContainsAt(s + t, sub, |s| + i);
  }

  /** `s + t` contains its suffix `t`. */
  lemma ContainsSuffix(s: string, t: string)
    ensures Contains(s + t, t)
  {
    assert (s + t)[|s|..] == t;
    ContainsAt(s + t, t, |s|);
  }

  /** A middle piece occurs in the text it sits in. */
  lemma ContainsAfter(a: string, b: string, c: string)
    ensures Contains(a + b + c, b)
  {
    ContainsSuffix(a, b);
    ContainsLeft(a + b, c, b);
  }

  /** Containment is transitive. */
  lemma ContainsTrans(a: string, b: string, c: string)
    requires Contains(a, b) && Contains(b, c)
    ensures Contains(a, c)
  {
    var i := ContainsIndex(a, b);
    var j := ContainsIndex(b, c);
    assert a[i + j..][..|c|] == b[j..][..|c|];
    ContainsAt(a, c, i + j);
  }

  /** Every character of an occurring string is a character of the text. */
  lemma ContainsChar(s: string, sub: string, c: char)
    requires Contains(s, sub) && c in sub
    ensures c in s
  {
    var i := ContainsIndex(s, sub);
    var k :| 0 <= k < |sub| && sub[k] == c;
    assert s[i + k] == c;
  }

  /** A string cannot occur in a text that lacks one of its characters. */
  lemma MissingCharNotContained(s: string, sub: string, c: char)
    requires c in sub && c !in s
    ensures !Contains(s, sub)
  {
    if Contains(s, sub) {
      ContainsChar(s, sub, c);
    }
  }

  /** An occurrence in `s + t` lies within `s`, within `t`, or straddles the boundary,
      in which case it contains the first character of `t`. */
  lemma ContainsCases(s: string, t: string, sub: string)
    requires Contains(s + t, sub) && |t| > 0
    ensures Contains(s, sub) || Contains(t, sub) || t[0] in sub
  {
    var i := ContainsIndex(s + t, sub);
    if i + |sub| <= |s| {
      assert s[i..][..|sub|] == sub;
      ContainsAt(s, sub, i);
    } else if i >= |s| {
      assert t[i - |s|..] == (s + t)[i..];
      ContainsAt(t, sub, i - |s|);
    } else {
      assert sub[|s| - i] == t[0];
    }
  }

  /** No occurrence straddles the boundary of `s + t` when `t` starts with a character
      that `sub` does not contain. */
  lemma ContainsSplit(s: string, t: string, sub: string)
    requires Contains(s + t, sub)
    requires |t| > 0 && t[0] !in sub
    ensures Contains(s, sub) || Contains(t, sub)
  {
    ContainsCases(s, t, sub);
  }

  /** Appending such a `t`, which itself lacks `sub`, neither adds nor removes an occurrence. */
  lemma AppendKeepsContains(s: string, t: string, sub: string)
    requires |t| > 0 && t[0] !in sub && !Contains(t, sub)
    ensures Contains(s + t, sub) <==> Contains(s, sub)
  {
    if Contains(s + t, sub) {
      ContainsSplit(s, t, sub);
    }
    if Contains(s, sub) {
      ContainsLeft(s, t, sub);
    }
  }

  /** A piece of a join occurs in the joined text. */
  lemma {:induction false} JoinContainsPart(sep: string, parts: seq<string>, k: nat)
    requires k < |parts|
    ensures Contains(Join(sep, parts), parts[k])
    decreases |parts|
  {
    if |parts| == 1 {
      assert Join(sep, parts) == parts[0];
      ContainsAt(parts[0], parts[0], 0);
    } else if k == 0 {
      ContainsAt(parts[0], parts[0], 0);
      ContainsLeft(parts[0], sep + Join(sep, parts[1..]), parts[0]);
      assert parts[0] + sep + Join(sep, parts[1..]) == parts[0] + (sep + Join(sep, parts[1..]));
    } else {
      JoinContainsPart(sep, parts[1..], k - 1);
      ContainsRight(parts[0] + sep, Join(sep, parts[1..]), parts[k]);
    }
  }

  function DigitChar(d: nat): char
    requires d < 10
  {
    ('0' as int + d) as char
  }

  predicate IsDigit(c: char)
  {
    '0' <= c <= '9'
  }

  /** The length of the run of decimal digits that ends `s`. */
  function DigitRun(s: string): nat
    decreases |s|
  {
    if s == [] || !IsDigit(s[|s| - 1]) then 0 else DigitRun(s[..|s| - 1]) + 1
  }

  function DigitValue(c: char): nat
  {
    if '0' <= c <= '9' then (c as int - '0' as int) as nat else 0
  }

  /** The decimal digits of `n`, most significant first, without leading zeros. */
  function NatToString(n: nat): (s: string)
    ensures |s| > 0
    decreases n
  {
    if n < 10 then [DigitChar(n)] else NatToString(n / 10) + [DigitChar(n % 10)]
  }

  /** `str(i)` for a Python int. */
  function IntToString(i: int): string
  {
    if i < 0 then "-" + NatToString(-i) else NatToString(i)
  }

  /** The number a string of decimal digits denotes. */
  function DecimalValue(s: string): nat
  {
    if s == [] then 0 else DecimalValue(s[..|s| - 1]) * 10 + DigitValue(s[|s| - 1])
  }

  /** Rendering a natural number in decimal loses nothing. */
  lemma {:induction false} NatToStringRoundTrip(n: nat)
    ensures DecimalValue(NatToString(n)) == n
    decreases n
  {
    var s := NatToString(n);
    if n < 10 {
      assert s[..0] == [];
    } else {
      NatToStringRoundTrip(n / 10);
      assert s[..|s| - 1] == NatToString(n / 10);
    }
  }

  /** A rendering consists of decimal digits only. */
  lemma {:induction false} NatToStringDigits(n: nat)
    ensures forall k :: 0 <= k < |NatToString(n)| ==> IsDigit(NatToString(n)[k])
    decreases n
  {
    if n >= 10 {
      NatToStringDigits(n / 10);
    }
  }

  /** Appending a run of digits lengthens the final digit run by exactly that run. */
  lemma {:induction false} DigitRunAfter(x: string, d: string)
    requires forall k :: 0 <= k < |d| ==> IsDigit(d[k])
    ensures DigitRun(x + d) == DigitRun(x) + |d|
    decreases |d|
  {
    if d == [] {
      assert x + d == x;
    } else {
      var d' := d[..|d| - 1];
      assert (x + d)[..|x + d| - 1] == x + d';
      DigitRunAfter(x, d');
    }
  }

  /** Distinct numbers have distinct renderings. */
  lemma NatToStringInjective(m: nat, n: nat)
    requires NatToString(m) == NatToString(n)
    ensures m == n
  {
    NatToStringRoundTrip(m);
    NatToStringRoundTrip(n);
  }
}
