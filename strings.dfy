/**
 * The parts of Python's `str` that the agent scripts use on model output:
 * `strip`, `split` on one separator character, `join`, `str(int)` and
 * `int(str)` for decimal text.
 */
module Strings {
  import opened Base

  /**
   * The ASCII characters that `str.strip()` and `int()` treat as whitespace:
   * space, `\t`, `\n`, `\v`, `\f`, `\r` and the separators `\x1c`-`\x1f`
   * (non-ASCII whitespace such as `\x85` and `\xa0` is not modelled).
   */
  const Whitespace: set<char> := {' ', '\t', '\n', '\r', 11 as char, 12 as char, 28 as char, 29 as char, 30 as char, 31 as char}

  predicate IsDigit(c: char) {
    '0' <= c <= '9'
  }

  predicate AllDigits(s: string) {
    forall i :: 0 <= i < |s| ==> IsDigit(s[i])
  }

  // ---------------------------------------------------------------------
  // strip

  /** The index of the first character at or after `i` that is not in `cs`, or `|s|`. */
  function LeadEnd(s: string, cs: set<char>, i: nat): (n: nat)
    requires i <= |s|
    ensures i <= n <= |s|
    ensures forall k :: i <= k < n ==> s[k] in cs
    ensures n == |s| || s[n] !in cs
    decreases |s| - i
  {
    if i < |s| && s[i] in cs then LeadEnd(s, cs, i + 1) else i
  }

  /** The index just past the last character before `j` and from `lo` on that is not in `cs`, or `lo`. */
  function TrailStart(s: string, cs: set<char>, lo: nat, j: nat): (n: nat)
    requires lo <= j <= |s|
    ensures lo <= n <= j
    ensures forall k :: n <= k < j ==> s[k] in cs
    ensures n == lo || s[n - 1] !in cs
    decreases j
  {
    if j > lo && s[j - 1] in cs then TrailStart(s, cs, lo, j - 1) else j
  }

  /**
   * `s.strip(chars)`: the middle slice of `s` left when every leading and
   * every trailing character in `cs` is dropped; its ends are outside `cs`.
   */
  function Strip(s: string, cs: set<char>): (r: string)
    ensures exists i, j :: 0 <= i <= j <= |s| && r == s[i..j]
                           && (forall k :: 0 <= k < i ==> s[k] in cs)
                           && (forall k :: j <= k < |s| ==> s[k] in cs)
    ensures r == [] || (r[0] !in cs && r[|r| - 1] !in cs)
  {
    var i := LeadEnd(s, cs, 0);
    var j := TrailStart(s, cs, i, |s|);
    assert j > i ==> s[i..j][0] == s[i] && s[i..j][j - i - 1] == s[j - 1];
    s[i..j]
  }

  /** A slice whose cut-off ends lie in `cs`, and whose own ends do not, is the strip. */
  lemma StripUnique(s: string, cs: set<char>, i: nat, j: nat)
    requires i <= j <= |s|
    requires forall k :: 0 <= k < i ==> s[k] in cs
    requires forall k :: j <= k < |s| ==> s[k] in cs
    requires i == j || (s[i] !in cs && s[j - 1] !in cs)
    ensures Strip(s, cs) == s[i..j]
  {
    var n := LeadEnd(s, cs, 0);
    if i < j {
      assert n == i;
      assert TrailStart(s, cs, n, |s|) == j;
    } else {
      assert n == |s|;
    }
  }

  /** Stripping twice strips nothing more. */
  lemma StripIdempotent(s: string, cs: set<char>)
    ensures Strip(Strip(s, cs), cs) == Strip(s, cs)
  {
    var r := Strip(s, cs);
    StripUnique(r, cs, 0, |r|);
    assert r[0..|r|] == r;
  }

  // ---------------------------------------------------------------------
  // split and join

  /** `sep.join(parts)`. */
  function Join(sep: string, parts: seq<string>): string
    decreases |parts|
  {
    if |parts| == 0 then ""
    else if |parts| == 1 then parts[0]
    else parts[0] + sep + Join(sep, parts[1..])
  }

  /** Joining one more part adds the separator and that part. */
  lemma {:induction false} JoinSnoc(sep: string, parts: seq<string>, p: string)
    requires |parts| > 0
    ensures Join(sep, parts + [p]) == Join(sep, parts) + sep + p
    decreases |parts|
  {
    var all := parts + [p];
    assert all[1..] == parts[1..] + [p];
    if |parts| > 1 {
      JoinSnoc(sep, parts[1..], p);
    }
  }

  /**
   * `s.split(sep)` for a one-character separator: the pieces between the
   * occurrences of `sep`, so there is always at least one piece and
   * `"".split(",") == [""]`.
   */
  function Split(s: string, sep: char): (parts: seq<string>)
    ensures |parts| >= 1
    ensures forall i :: 0 <= i < |parts| ==> sep !in parts[i]
    decreases |s|
  {
    if |s| == 0 then [""]
    else
      var rest := Split(s[1..], sep);
      if s[0] == sep then [""] + rest
      else [[s[0]] + rest[0]] + rest[1..]
  }

  /** `"".join(parts)`. */
  function Concat(parts: seq<string>): string
    decreases |parts|
  {
    if |parts| == 0 then "" else Concat(parts[..|parts| - 1]) + parts[|parts| - 1]
  }

  lemma ConcatSnoc(parts: seq<string>, p: string)
    ensures Concat(parts + [p]) == Concat(parts) + p
  {
    assert (parts + [p])[..|parts|] == parts;
  }

  /** Concatenating two lists of strings concatenates their concatenations. */
  lemma {:induction false} ConcatAppend(a: seq<string>, b: seq<string>)
    ensures Concat(a + b) == Concat(a) + Concat(b)
    decreases |b|
  {
    if |b| > 0 {
      var b' := b[..|b| - 1];
      ConcatAppend(a, b');
      assert (a + b)[..|a + b| - 1] == a + b';
      assert b == b' + [b[|b| - 1]];
      ConcatSnoc(b', b[|b| - 1]);
    } else {
      assert a + b == a;
    }
  }

  /** What each item adds, in order. */
  function Added<A>(xs: seq<A>, add: A -> string): seq<string> {
    seq(|xs|, i requires 0 <= i < |xs| => add(xs[i]))
  }

  /** A `for x in xs: output += add(x)` loop. */
  method AddUp<A>(xs: seq<A>, add: A -> string) returns (output: string)
    ensures output == Concat(Added(xs, add))
  {
    ghost var added := Added(xs, add);
    output := "";
    var i := 0;
    while i < |xs|
      invariant 0 <= i <= |xs|
      invariant output == Concat(added[..i])
    {
      var piece := add(xs[i]);
      assert added[..i + 1] == added[..i] + [piece];
      ConcatSnoc(added[..i], piece);
      output := output + piece;
      i := i + 1;
    }
    assert added[..i] == added;
  }

  function Count(s: string, c: char): nat
    decreases |s|
  {
    if |s| == 0 then 0 else (if s[0] == c then 1 else 0) + Count(s[1..], c)
  }

  /** Joining the pieces of a split with the separator gives back the text. */
  lemma {:induction false} JoinSplit(s: string, sep: char)
    ensures Join([sep], Split(s, sep)) == s
    decreases |s|
  {
    if |s| > 0 {
      var rest := Split(s[1..], sep);
      JoinSplit(s[1..], sep);
      if s[0] == sep {
        assert Split(s, sep) == [""] + rest;
        assert ([""] + rest)[1..] == rest;
      } else if |rest| == 1 {
        assert Split(s, sep) == [[s[0]] + rest[0]];
      } else {
        var parts := [[s[0]] + rest[0]] + rest[1..];
        assert parts[1..] == rest[1..];
        assert Join([sep], rest) == rest[0] + [sep] + Join([sep], rest[1..]);
      }
    }
  }

  /** Text without the separator is a single piece. */
  lemma {:induction false} SplitNoSep(p: string, sep: char)
    requires sep !in p
    ensures Split(p, sep) == [p]
    decreases |p|
  {
    if |p| > 0 {
      SplitNoSep(p[1..], sep);
      assert [p[0]] + p[1..] == p;
    }
  }

  /** Text up to the first separator is the first piece; the rest splits on its own. */
  lemma {:induction false} SplitAfter(p: string, t: string, sep: char)
    requires sep !in p
    ensures Split(p + [sep] + t, sep) == [p] + Split(t, sep)
    decreases |p|
  {
    var s := p + [sep] + t;
    if |p| == 0 {
      assert s[1..] == t;
    } else {
      assert s[1..] == p[1..] + [sep] + t;
      SplitAfter(p[1..], t, sep);
      assert [p[0]] + p[1..] == p;
    }
  }

  /** A split yields one more piece than there are separators. */
  lemma {:induction false} SplitCount(s: string, sep: char)
    ensures |Split(s, sep)| == Count(s, sep) + 1
    decreases |s|
  {
    if |s| > 0 {
      SplitCount(s[1..], sep);
    }
  }

  // ---------------------------------------------------------------------
  // decimal integers

  function DigitValue(c: char): nat
    requires IsDigit(c)
  {
    c as int - '0' as int
  }

  function DigitChar(d: nat): (c: char)
    requires d < 10
    ensures IsDigit(c) && DigitValue(c) == d
  {
    ('0' as int + d) as char
  }

  /** The decimal digits of `n`, most significant first, without leading zeros. */
  function NatToDecimal(n: nat): (s: string)
    ensures |s| >= 1 && AllDigits(s)
    ensures s[0] == '0' ==> n == 0
    decreases n
  {
    if n < 10 then [DigitChar(n)] else NatToDecimal(n / 10) + [DigitChar(n % 10)]
  }

  /** The number a string of decimal digits denotes. */
  function DecimalValue(s: string): nat
    requires AllDigits(s)
    decreases |s|
  {
    if |s| == 0 then 0 else DecimalValue(s[..|s| - 1]) * 10 + DigitValue(s[|s| - 1])
  }

  /** `str(i)` for an `int`. */
  function IntToDecimal(i: int): string {
    if i < 0 then "-" + NatToDecimal(-i) else NatToDecimal(i)
  }

  /** `str(i)` is digits, with a minus sign in front for a negative `i`. */
  lemma DecimalShape(i: int)
    ensures var d := IntToDecimal(i);
            && |d| > 0 && IsDigit(d[|d| - 1])
            && forall k :: 0 <= k < |d| ==> IsDigit(d[k]) || d[k] == '-'
  {
  }

  /**
   * `int(s)` for a `str`: surrounding whitespace is ignored, one optional
   * sign, then at least one decimal digit; `None` where Python raises
   * `ValueError`.
   */
  function ParseInt(s: string): Option<int> {
    ParseStripped(Strip(s, Whitespace))
  }

  /** `int` of text without surrounding whitespace. */
  function ParseStripped(t: string): Option<int> {
    if |t| > 0 && (t[0] == '-' || t[0] == '+') then
      var body := t[1..];
      if |body| > 0 && AllDigits(body) then
        var magnitude: int := DecimalValue(body);
        Some(if t[0] == '-' then -magnitude else magnitude)
      else None
    else if |t| > 0 && AllDigits(t) then Some(DecimalValue(t))
    else None
  }

  lemma {:induction false} DecimalRoundTrip(n: nat)
    ensures DecimalValue(NatToDecimal(n)) == n
    decreases n
  {
    if n >= 10 {
      DecimalRoundTrip(n / 10);
      var s := NatToDecimal(n);
      assert s[..|s| - 1] == NatToDecimal(n / 10);
    }
  }

  /** Digits, with or without a minus sign, are read as the number they denote. */
  lemma ParseDigits(d: string, v: nat)
    requires |d| > 0 && AllDigits(d) && DecimalValue(d) == v
    ensures ParseInt(d) == Some(v)
    ensures ParseInt("-" + d) == Some(-(v as int))
  {
    ParseUnsigned(d, v);
    ParseNegative(d, v);
  }

  lemma ParseUnsigned(d: string, v: nat)
    requires |d| > 0 && AllDigits(d) && DecimalValue(d) == v
    ensures ParseInt(d) == Some(v)
  {
    assert IsDigit(d[0]) && IsDigit(d[|d| - 1]);
    ParseUnpadded(d);
  }

  lemma ParseNegative(d: string, v: nat)
    requires |d| > 0 && AllDigits(d) && DecimalValue(d) == v
    ensures ParseInt("-" + d) == Some(-(v as int))
  {
    var s := "-" + d;
    SignedDigits(d, v);
    ParseUnpadded(s);
  }

  /** `-` and digits, without surrounding whitespace, are read as the negated number. */
  lemma SignedDigits(d: string, v: nat)
    requires |d| > 0 && AllDigits(d) && DecimalValue(d) == v
    ensures var s := "-" + d; s[0] !in Whitespace && s[|s| - 1] !in Whitespace
    ensures ParseStripped("-" + d) == Some(-(v as int))
  {
    var s := "-" + d;
    assert IsDigit(d[|d| - 1]);
    assert s[1..] == d && s[|s| - 1] == d[|d| - 1];
  }

  /** `int(str(i)) == i`. */
  lemma ParseIntRoundTrip(i: int)
    ensures ParseInt(IntToDecimal(i)) == Some(i)
  {
    var m: nat := if i < 0 then -i else i;
    DecimalRoundTrip(m);
    ParseDigits(NatToDecimal(m), m);
  }

  /** Text that neither starts nor ends with whitespace is parsed as it is. */
  lemma ParseUnpadded(s: string)
    requires |s| > 0 && s[0] !in Whitespace && s[|s| - 1] !in Whitespace
    ensures ParseInt(s) == ParseStripped(s)
  {
    StripNoop(s, Whitespace);
  }

  lemma StripNoop(s: string, cs: set<char>)
    requires |s| > 0 && s[0] !in cs && s[|s| - 1] !in cs
    ensures Strip(s, cs) == s
  {
    StripUnique(s, cs, 0, |s|);
    assert s[0..|s|] == s;
  }

  /** A leading character that is stripped anyway changes nothing. */
  lemma StripLeading(c: char, s: string, cs: set<char>)
    requires c in cs
    ensures Strip([c] + s, cs) == Strip(s, cs)
  {
    var i := LeadEnd(s, cs, 0);
    var j := TrailStart(s, cs, i, |s|);
    ShiftCut(c, s, cs, i, j);
    StripUnique([c] + s, cs, i + 1, j + 1);
  }

  /** The cut points of a strip of `s`, moved one place along, cut `[c] + s` the same way when `c` is in `cs`. */
  lemma ShiftCut(c: char, s: string, cs: set<char>, i: nat, j: nat)
    requires c in cs && i <= j <= |s|
    requires forall k :: 0 <= k < i ==> s[k] in cs
    requires forall k :: j <= k < |s| ==> s[k] in cs
    requires i == j || (s[i] !in cs && s[j - 1] !in cs)
    ensures var t := [c] + s;
            && (forall k :: 0 <= k < i + 1 ==> t[k] in cs)
            && (forall k :: j + 1 <= k < |t| ==> t[k] in cs)
            && (i == j || (t[i + 1] !in cs && t[j] !in cs))
            && t[i + 1..j + 1] == s[i..j]
  {
    var t := [c] + s;
    forall k | 0 <= k < i + 1
      ensures t[k] in cs
    {
      if k > 0 { assert t[k] == s[k - 1]; }
    }
    forall k | j + 1 <= k < |t|
      ensures t[k] in cs
    {
      assert t[k] == s[k - 1];
    }
    assert t[1..] == s;
    assert t[i + 1..j + 1] == s[i..j];
  }

  /** Stripping `o + t + c` for characters `o` and `c` in the set gives `t` when its ends are outside it. */
  lemma StripEnclosed(o: char, t: string, c: char, cs: set<char>)
    requires o in cs && c in cs
    requires |t| > 0 && t[0] !in cs && t[|t| - 1] !in cs
    ensures Strip([o] + t + [c], cs) == t
  {
    var s := [o] + t + [c];
    assert s[1] == t[0] && s[|t|] == t[|t| - 1];
    StripUnique(s, cs, 1, |t| + 1);
    assert s[1..|t| + 1] == t;
  }

  /** `int(s)` only looks at `s.strip()`. */
  lemma ParseIntIgnoresSurroundingSpace(s: string)
    ensures ParseInt(s) == ParseInt(Strip(s, Whitespace))
  {
    var t := Strip(s, Whitespace);
    StripIdempotent(s, Whitespace);
    assert Strip(t, Whitespace) == t;
  }

  /** `int("")` and `int("   ")` fail. */
  lemma ParseIntRejectsBlank(s: string)
    requires forall k :: 0 <= k < |s| ==> s[k] in Whitespace
    ensures ParseInt(s) == None
  {
  }
}
