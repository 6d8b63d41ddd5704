/**
 * The handful of Python string operations the converter relies on, written
 * out over `string` (= seq<char>): `str.strip`, `str.split('\n')`,
 * `sep.join`, `str.replace`, `str.startswith`, `in`, `str(int)` and the
 * `\d` character class (restricted to the ASCII digits).
 */
module Text {
  import opened Wrappers

  predicate IsDigit(c: char) { '0' <= c <= '9' }

  function DigitValue(c: char): (d: nat)
    requires IsDigit(c)
    ensures d < 10
  {
    c as int - '0' as int
  }

  function Digit(d: nat): (c: char)
    requires d < 10
    ensures IsDigit(c) && DigitValue(c) == d
  {
    ('0' as int + d) as char
  }

  predicate AllDigits(s: string) {
    forall i :: 0 <= i < |s| ==> IsDigit(s[i])
  }

  /** The characters for which Python's `str.isspace()` holds. */
  predicate IsSpace(c: char) {
    || c == ' ' || '\t' <= c <= '\r' || '\U{001C}' <= c <= '\U{001F}'
    || c == '\U{0085}' || c == '\U{00A0}' || c == '\U{1680}' || '\U{2000}' <= c <= '\U{200A}'
    || c == '\U{2028}' || c == '\U{2029}' || c == '\U{202F}' || c == '\U{205F}' || c == '\U{3000}'
  }

  predicate StartsWith(s: string, prefix: string) {
    |prefix| <= |s| && s[..|prefix|] == prefix
  }

  /** Python's `sub in s`. */
  predicate Contains(s: string, sub: string)
    decreases |s|
  {
    StartsWith(s, sub) || (s != [] && Contains(s[1..], sub))
  }

  /** A text in which the first character of `sub` never occurs does not contain `sub`. */
  lemma {:induction false} NotContainsFirst(s: string, sub: string)
    requires sub != [] && sub[0] !in s
    ensures !Contains(s, sub)
    decreases |s|
  {
    if s != [] {
      assert s[0] in s;
      assert forall c :: c in s[1..] ==> c in s;
      NotContainsFirst(s[1..], sub);
    }
  }

  // ---------------------------------------------------------------- strip

  function TrimStart(s: string): (r: string)
    ensures |r| <= |s| && r == s[|s| - |r|..]
    ensures r == [] || !IsSpace(r[0])
    ensures forall i :: 0 <= i < |s| - |r| ==> IsSpace(s[i])
    decreases |s|
  {
    if s != [] && IsSpace(s[0]) then TrimStart(s[1..]) else s
  }

  function TrimEnd(s: string): (r: string)
    ensures |r| <= |s| && r == s[..|r|]
    ensures r == [] || !IsSpace(r[|r| - 1])
    ensures forall i :: |r| <= i < |s| ==> IsSpace(s[i])
    decreases |s|
  {
    if s != [] && IsSpace(s[|s| - 1]) then TrimEnd(s[..|s| - 1]) else s
  }

  /** A string with no whitespace at either end. */
  predicate Stripped(s: string) {
    s == [] || (!IsSpace(s[0]) && !IsSpace(s[|s| - 1]))
  }

  /** Python's `s.strip()`: the text between the leading and the trailing whitespace. */
  function Strip(s: string): (r: string)
    ensures Stripped(r)
    ensures |r| <= |s|
    ensures r == [] <==> forall i :: 0 <= i < |s| ==> IsSpace(s[i])
  {
    var t := TrimStart(s);
    var r := TrimEnd(t);
    assert r != [] ==> r[0] == s[|s| - |t|];
    r
  }

  // --------------------------------------------------------- split, join

  /** Python's `s.split(sep)` for a one-character separator. */
  function Split(s: string, sep: char): (parts: seq<string>)
    ensures |parts| >= 1
    ensures forall k :: 0 <= k < |parts| ==> sep !in parts[k]
    decreases |s|
  {
    if s == [] then [""]
    else
      var rest := Split(s[1..], sep);
      if s[0] == sep then [""] + rest
      else [[s[0]] + rest[0]] + rest[1..]
  }

  /** Python's `sep.join(parts)`. */
  function Join(sep: string, parts: seq<string>): string
    decreases |parts|
  {
    if parts == [] then ""
    else if |parts| == 1 then parts[0]
    else parts[0] + sep + Join(sep, parts[1..])
  }

  lemma JoinCons(sep: string, x: string, t: seq<string>)
    ensures Join(sep, [x] + t) == if t == [] then x else x + sep + Join(sep, t)
  {
    assert ([x] + t)[1..] == t;
  }

  /** Joining the pieces of a split with the separator gives the text back. */
  lemma {:induction false} JoinSplit(s: string, sep: char)
    ensures Join([sep], Split(s, sep)) == s
    decreases |s|
  {
    if s != [] {
      var rest := Split(s[1..], sep);
      JoinSplit(s[1..], sep);
      if s[0] == sep {
        JoinCons([sep], "", rest);
      } else {
        JoinCons([sep], [s[0]] + rest[0], rest[1..]);
        JoinCons([sep], rest[0], rest[1..]);
        assert [rest[0]] + rest[1..] == rest;
      }
    }
  }

  /** A join is empty exactly when it joins nothing, provided no part is empty. */
  lemma {:induction false} JoinEmpty(sep: string, parts: seq<string>)
    requires forall k :: 0 <= k < |parts| ==> parts[k] != ""
    ensures Join(sep, parts) == "" <==> parts == []
    decreases |parts|
  {
    if |parts| > 1 {
      JoinEmpty(sep, parts[1..]);
    }
  }

  /** A text without the separator splits into itself alone. */
  lemma {:induction false} SplitNoSep(s: string, sep: char)
    requires sep !in s
    ensures Split(s, sep) == [s]
    decreases |s|
  {
    if s != [] {
      assert s[0] in s;
      assert forall c :: c in s[1..] ==> c in s;
      SplitNoSep(s[1..], sep);
      assert [s[0]] + s[1..] == s;
    }
  }

  /** Splitting `p + sep + t` cuts off `p` first when `p` holds no separator. */
  lemma {:induction false} SplitAfterFirst(p: string, sep: char, t: string)
    requires sep !in p
    ensures Split(p + [sep] + t, sep) == [p] + Split(t, sep)
    decreases |p|
  {
    var s := p + [sep] + t;
    if p == [] {
      assert s[1..] == t;
    } else {
      assert p[0] in p;
      assert forall c :: c in p[1..] ==> c in p;
      assert s[0] == p[0] && s[1..] == p[1..] + [sep] + t;
      SplitAfterFirst(p[1..], sep, t);
      assert [p[0]] + p[1..] == p;
    }
  }

  /** Splitting a join gives the parts back, provided none holds the separator. */
  lemma {:induction false} SplitJoin(parts: seq<string>, sep: char)
    requires parts != []
    requires forall k :: 0 <= k < |parts| ==> sep !in parts[k]
    ensures Split(Join([sep], parts), sep) == parts
    decreases |parts|
  {
    if |parts| == 1 {
      SplitNoSep(parts[0], sep);
    } else {
      SplitJoin(parts[1..], sep);
      SplitAfterFirst(parts[0], sep, Join([sep], parts[1..]));
      assert [parts[0]] + parts[1..] == parts;
    }
  }

  lemma ConsAppend<T>(x: T, a: seq<T>, b: seq<T>)
    ensures [x] + (a + b) == ([x] + a) + b
  {
  }

  /** Splitting a join followed by the separator and more text gives the parts, then the pieces of that text. */
  lemma {:induction false} SplitJoinThen(parts: seq<string>, sep: char, t: string)
    requires parts != []
    requires forall k :: 0 <= k < |parts| ==> sep !in parts[k]
    ensures Split(Join([sep], parts) + [sep] + t, sep) == parts + Split(t, sep)
    decreases |parts|
  {
    if |parts| == 1 {
      SplitAfterFirst(parts[0], sep, t);
    } else {
      var rest := Join([sep], parts[1..]);
      var u := rest + [sep] + t;
      SplitJoinThen(parts[1..], sep, t);
      assert Join([sep], parts) == parts[0] + [sep] + rest;
      assert Join([sep], parts) + [sep] + t == parts[0] + [sep] + u;
      SplitAfterFirst(parts[0], sep, u);
      ConsAppend(parts[0], parts[1..], Split(t, sep));
      assert [parts[0]] + parts[1..] == parts;
    }
  }

  // ------------------------------------------------------- strip, again

  /** Leading whitespace does not change what strip keeps. */
  lemma {:induction false} StripAfterSpaces(w: string, x: string)
    requires forall i :: 0 <= i < |w| ==> IsSpace(w[i])
    ensures Strip(w + x) == Strip(x)
    decreases |w|
  {
    if w == [] {
      assert w + x == x;
    } else {
      assert (w + x)[1..] == w[1..] + x;
      assert TrimStart(w + x) == TrimStart(w[1..] + x);
      StripAfterSpaces(w[1..], x);
      assert Strip(w + x) == TrimEnd(TrimStart(w + x));
      assert Strip(w[1..] + x) == TrimEnd(TrimStart(w[1..] + x));
    }
  }

  // -------------------------------------------------------------- replace

  /** Python's `s.replace(pattern, replacement)`: non-overlapping occurrences, left to right. */
  function ReplaceAll(s: string, pattern: string, replacement: string): string
    requires pattern != []
    decreases |s|
  {
    if s == [] then []
    else if StartsWith(s, pattern) then replacement + ReplaceAll(s[|pattern|..], pattern, replacement)
    else [s[0]] + ReplaceAll(s[1..], pattern, replacement)
  }

  /**
   * Replacing ": " in "a: b" replaces the separator itself and then works on
   * each side independently: no occurrence straddles the separator.
   */
  lemma {:induction false} ReplaceColonSpaceAround(a: string, b: string)
    ensures ReplaceAll(a + ": " + b, ": ", " ")
         == ReplaceAll(a, ": ", " ") + " " + ReplaceAll(b, ": ", " ")
    decreases |a|
  {
    var s := a + ": " + b;
    if a == [] {
      assert s[..2] == ": " && s[2..] == b;
    } else {
      assert StartsWith(s, ": ") <==> StartsWith(a, ": ") by {
        if |a| == 1 {
          assert s[1] == ':';
        } else {
          assert s[..2] == a[..2];
        }
      }
      if StartsWith(a, ": ") {
        assert s[2..] == a[2..] + ": " + b;
        ReplaceColonSpaceAround(a[2..], b);
      } else {
        assert s[1..] == a[1..] + ": " + b;
        ReplaceColonSpaceAround(a[1..], b);
      }
    }
  }

  /** Replacing a pattern that does not occur changes nothing. */
  lemma {:induction false} ReplaceAbsent(s: string, pattern: string, replacement: string)
    requires pattern != [] && !Contains(s, pattern)
    ensures ReplaceAll(s, pattern, replacement) == s
    decreases |s|
  {
    if s != [] {
      ReplaceAbsent(s[1..], pattern, replacement);
    }
  }

  // ------------------------------------------------------------- numbers

  /** Decimal text of a natural number, most significant digit first, no leading zeros. */
  function NatToString(n: nat): (r: string)
    ensures r != [] && AllDigits(r)
    ensures |r| > 1 ==> r[0] != '0'
  {
    if n < 10 then [Digit(n)] else NatToString(n / 10) + [Digit(n % 10)]
  }

  /** Python's `str(i)` for an int. */
  function IntToString(i: int): (r: string)
    ensures r != []
  {
    if i < 0 then "-" + NatToString(-i) else NatToString(i)
  }

  /** Python's `int(ds)` for a run of ASCII digits. */
  function DigitsValue(ds: string): nat
    requires AllDigits(ds)
    decreases |ds|
  {
    if ds == [] then 0 else DigitsValue(ds[..|ds| - 1]) * 10 + DigitValue(ds[|ds| - 1])
  }

  /** Reads back an optionally negative decimal integer. */
  function ParseInt(s: string): Option<int> {
    if |s| > 1 && s[0] == '-' && AllDigits(s[1..]) then Some(0 - DigitsValue(s[1..]) as int)
    else if s != [] && AllDigits(s) then Some(DigitsValue(s))
    else None
  }

  lemma {:induction false} NatToStringRoundTrip(n: nat)
    ensures DigitsValue(NatToString(n)) == n
  {
    if n >= 10 {
      var s := NatToString(n);
      assert s[..|s| - 1] == NatToString(n / 10);
      NatToStringRoundTrip(n / 10);
    }
  }

  /** `str(i)` is read back as `i`. */
  lemma IntToStringRoundTrip(i: int)
    ensures ParseInt(IntToString(i)) == Some(i)
  {
    if i < 0 {
      assert IntToString(i)[1..] == NatToString(-i);
      NatToStringRoundTrip(-i);
    } else {
      NatToStringRoundTrip(i);
    }
  }

  /** The length of the run of digits `s` starts with. */
  function LeadingDigits(s: string): (n: nat)
    ensures n <= |s| && AllDigits(s[..n])
    ensures n < |s| ==> !IsDigit(s[n])
    decreases |s|
  {
    if s != [] && IsDigit(s[0]) then
      var n := 1 + LeadingDigits(s[1..]);
      assert s[..n] == [s[0]] + s[1..][..n - 1];
      n
    else 0
  }

  /** The run of digits a string starts with is the maximal one. */
  lemma {:induction false} LeadingDigitsExact(s: string, n: nat)
    requires n <= |s| && AllDigits(s[..n])
    requires n < |s| ==> !IsDigit(s[n])
    ensures LeadingDigits(s) == n
    decreases |s|
  {
    if n > 0 {
      assert s[1..][..n - 1] == s[1..n];
      LeadingDigitsExact(s[1..], n - 1);
    }
  }

  /** `int(re.search(r'\d+', s).group())`, or None when `s` holds no digit. */
  function FirstNumber(s: string): (r: Option<nat>)
    ensures r.Some? <==> exists i :: 0 <= i < |s| && IsDigit(s[i])
    decreases |s|
  {
    if s == [] then None
    else if IsDigit(s[0]) then Some(DigitsValue(s[..LeadingDigits(s)]))
    else
      var r := FirstNumber(s[1..]);
      assert forall i :: 1 <= i < |s| ==> s[i] == s[1..][i - 1];
      r
  }
}
