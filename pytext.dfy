/** The pieces of Python 2 `str` behaviour the RINEX code relies on:
    whitespace stripping and splitting, `int()` of text, clamped slices,
    `startswith`, substring search and decimal rendering of integers. */
module PyText {
  import opened Outcomes

  /** Python's `str.isspace` for the ASCII range: space, \t, \n, \v, \f, \r. */
  predicate IsSpace(c: char) {
    c == ' ' || c == '\t' || c == '\n' || c == '\r' || c as int == 11 || c as int == 12
  }

  predicate IsDigit(c: char) {
    '0' <= c <= '9'
  }

  function DigitValue(c: char): (d: nat)
    requires IsDigit(c)
    ensures d <= 9
  {
    c as int - '0' as int
  }

  function DigitChar(d: nat): (c: char)
    requires d <= 9
    ensures IsDigit(c) && DigitValue(c) == d
  {
    ('0' as int + d) as char
  }

  predicate AllDigits(s: string) {
    forall i :: 0 <= i < |s| ==> IsDigit(s[i])
  }

  predicate NoSpace(s: string) {
    forall i :: 0 <= i < |s| ==> !IsSpace(s[i])
  }

  // ---------------------------------------------------------------------
  // Slices. Python clamps both bounds of `s[i:j]` to the length of `s`.

  function Take(s: string, n: nat): (r: string)
    ensures |r| == if n <= |s| then n else |s|
    ensures r <= s
  {
    if n <= |s| then s[..n] else s
  }

  function Drop(s: string, n: nat): (r: string)
    ensures |r| == if n <= |s| then |s| - n else 0
    ensures n <= |s| ==> r == s[n..]
  {
    if n <= |s| then s[n..] else []
  }

  /** Python `s[i:j]` for non-negative `i` and `j`. */
  function Slice(s: string, i: nat, j: nat): (r: string)
    ensures j <= |s| && i <= j ==> r == s[i..j]
    ensures |r| <= if j <= i then 0 else j - i
  {
    Drop(Take(s, j), i)
  }

  /** Python `s.startswith(p)`. */
  predicate StartsWith(s: string, p: string) {
    p <= s
  }

  /** Python `s.startswith(p, pos)`: false when `pos` is past the end. */
  predicate StartsWithAt(s: string, p: string, pos: nat) {
    pos <= |s| && p <= s[pos..]
  }

  lemma StartsWithAtLength(s: string, p: string, pos: nat)
    requires StartsWithAt(s, p, pos)
    ensures |s| >= pos + |p|
    ensures s[pos..pos + |p|] == p
  {
  }

  // ---------------------------------------------------------------------
  // Substring search: Python `sub in s`.

  /** `sub` occurs in `s` starting at index `i`. */
  predicate OccursAt(s: string, sub: string, i: nat) {
    i + |sub| <= |s| && s[i..i + |sub|] == sub
  }

  function Contains(s: string, sub: string): (b: bool)
    ensures b <==> exists i: nat :: OccursAt(s, sub, i)
    decreases |s|
  {
    if sub <= s then
      assert OccursAt(s, sub, 0);
      true
    else if |s| <= |sub| then
      assert forall i: nat :: OccursAt(s, sub, i) ==> i == 0;
      false
    else
      var r := Contains(s[1..], sub);
      assert forall i: nat :: OccursAt(s, sub, i + 1) <==> OccursAt(s[1..], sub, i);
      assert r ==> OccursAt(s[1..], sub, 0) || exists i: nat :: OccursAt(s, sub, i) by {
        if r {
          var j: nat :| OccursAt(s[1..], sub, j);
          assert OccursAt(s, sub, j + 1);
        }
      }
      assert !OccursAt(s, sub, 0);
      assert forall i: nat :: OccursAt(s, sub, i) ==> i == 0 || OccursAt(s[1..], sub, i - 1);
      r
  }

  // ---------------------------------------------------------------------
  // Stripping and splitting on whitespace.

  function LStrip(s: string): (r: string)
    ensures |r| <= |s| && r == s[|s| - |r|..]
    ensures r == [] || !IsSpace(r[0])
    ensures forall i :: 0 <= i < |s| - |r| ==> IsSpace(s[i])
  {
    if s != [] && IsSpace(s[0]) then LStrip(s[1..]) else s
  }

  function RStrip(s: string): (r: string)
    ensures |r| <= |s| && r == s[..|r|]
    ensures r == [] || !IsSpace(r[|r| - 1])
    ensures forall i :: |r| <= i < |s| ==> IsSpace(s[i])
  {
    if s != [] && IsSpace(s[|s| - 1]) then RStrip(s[..|s| - 1]) else s
  }

  /** Python `s.strip()`: the text between the leading and trailing whitespace. */
  function Strip(s: string): (r: string)
    ensures r == [] || (!IsSpace(r[0]) && !IsSpace(r[|r| - 1]))
    ensures |r| <= |s|
  {
    RStrip(LStrip(s))
  }

  lemma StripNoSpace(s: string)
    requires NoSpace(s)
    ensures Strip(s) == s
  {
  }

  /** Length of the leading run of non-whitespace characters. */
  function WordLength(s: string): (n: nat)
    ensures n <= |s|
    ensures NoSpace(s[..n])
    ensures n == |s| || IsSpace(s[n])
  {
    if s == [] || IsSpace(s[0]) then 0
    else
      var n := 1 + WordLength(s[1..]);
      assert s[..n] == [s[0]] + s[1..][..n - 1];
      n
  }

  /** Python `s.split()`: the maximal runs of non-whitespace, in order. */
  function Split(s: string): (r: seq<string>)
    ensures forall k :: 0 <= k < |r| ==> r[k] != [] && NoSpace(r[k])
    decreases |s|
  {
    var t := LStrip(s);
    if t == [] then []
    else
      var n := WordLength(t);
      [t[..n]] + Split(t[n..])
  }

  /** Python `sep.join(parts)`. */
  function JoinWith(sep: string, parts: seq<string>): (r: string)
    ensures parts == [] ==> r == []
    ensures |parts| == 1 ==> r == parts[0]
  {
    if parts == [] then []
    else if |parts| == 1 then parts[0]
    else JoinWith(sep, parts[..|parts| - 1]) + sep + parts[|parts| - 1]
  }

  /** Python `s.endswith(p)`. */
  predicate EndsWith(s: string, p: string) {
    |p| <= |s| && s[|s| - |p|..] == p
  }

  lemma StartsWithConcat(a: string, b: string)
    ensures StartsWith(a + b, a)
  {
    assert (a + b)[..|a|] == a;
  }

  lemma EndsWithConcat(a: string, b: string)
    ensures EndsWith(a + b, b)
  {
    assert (a + b)[|a|..] == b;
  }

  // ---------------------------------------------------------------------
  // Decimal integers.

  /** Value of a run of decimal digits, most significant first. */
  function DigitsValue(s: string): (n: nat)
    requires AllDigits(s)
  {
    if s == [] then 0 else 10 * DigitsValue(s[..|s| - 1]) + DigitValue(s[|s| - 1])
  }

  /** Python `str(n)` for a natural number. */
  function NatToString(n: nat): (s: string)
    ensures s != [] && AllDigits(s)
    ensures NoSpace(s)
    ensures n < 10 <==> |s| == 1
    ensures 10 <= n < 100 <==> |s| == 2
  {
    if n < 10 then [DigitChar(n)] else NatToString(n / 10) + [DigitChar(n % 10)]
  }

  /** Python `str(n)` for any integer. */
  function IntToString(n: int): (s: string)
    ensures s != []
    ensures 0 <= n ==> s == NatToString(n)
    ensures n < 0 ==> s[0] == '-'
  {
    if n < 0 then "-" + NatToString(-n) else NatToString(n)
  }

  /** Python 2 `int(s)` for a `str`: surrounding whitespace is ignored, then
      one optional sign, optionally followed by whitespace (Python 2's
      `PyOS_strtol` and `PyLong_FromString` skip it, so `int('- 8') == -8`),
      then one or more decimal digits; anything else fails (modelled as
      `None`, where Python raises ValueError). */
  function ParseInt(s: string): (r: Option<int>)
  {
    var t := Strip(s);
    if t == [] then None
    else if t[0] == '-' || t[0] == '+' then
      var d := LStrip(t[1..]);
      if d != [] && AllDigits(d) then
        var v: int := DigitsValue(d);
        Some(if t[0] == '-' then -v else v)
      else None
    else if AllDigits(t) then Some(DigitsValue(t))
    else None
  }

  /** `int()` of a sign, any run of whitespace and a run of digits, as
      Python 2 reads it: `int('- 8') == -8`. */
  lemma ParseIntSigned(sign: char, pad: string, digits: string)
    requires sign == '-' || sign == '+'
    requires forall i :: 0 <= i < |pad| ==> IsSpace(pad[i])
    requires digits != [] && AllDigits(digits)
    ensures var v: int := DigitsValue(digits);
      ParseInt([sign] + pad + digits) == Some(if sign == '-' then -v else v)
  {
    var s := [sign] + pad + digits;
    assert s[|s| - 1] == digits[|digits| - 1];
    StripEnds(s);
    assert s[1..] == pad + digits;
    LStripPad(pad, digits);
    ParseIntSignBranch(s, digits);
  }

  /** The sign branch of `ParseInt`, on the stripped text. */
  lemma ParseIntSignBranch(s: string, digits: string)
    requires Strip(s) != [] && (Strip(s)[0] == '-' || Strip(s)[0] == '+')
    requires LStrip(Strip(s)[1..]) == digits && digits != [] && AllDigits(digits)
    ensures var v: int := DigitsValue(digits);
      ParseInt(s) == Some(if Strip(s)[0] == '-' then -v else v)
  {
  }

  /** Text that neither starts nor ends with whitespace is its own strip. */
  lemma StripEnds(s: string)
    requires s != [] && !IsSpace(s[0]) && !IsSpace(s[|s| - 1])
    ensures Strip(s) == s
  {
  }

  /** Leading whitespace before text that starts with none is stripped. */
  lemma {:induction false} LStripPad(pad: string, d: string)
    requires forall i :: 0 <= i < |pad| ==> IsSpace(pad[i])
    requires d != [] && !IsSpace(d[0])
    ensures LStrip(pad + d) == d
  {
    if pad == [] {
      assert pad + d == d;
    } else {
      assert (pad + d)[1..] == pad[1..] + d;
      LStripPad(pad[1..], d);
    }
  }

  /** `int()` of a run of digits is its value. */
  lemma ParseIntDigits(s: string)
    requires s != [] && AllDigits(s)
    ensures ParseInt(s) == Some(DigitsValue(s))
  {
    assert NoSpace(s);
    StripNoSpace(s);
  }

  /** `int()` of one character accepts exactly the digits. */
  lemma ParseIntChar(c: char)
    ensures ParseInt([c]) == if IsDigit(c) then Some(DigitValue(c)) else None
  {
    if IsSpace(c) {
      assert LStrip([c]) == [];
    } else {
      assert LStrip([c]) == [c];
      assert RStrip([c]) == [c];
      assert Strip([c]) == [c];
      if IsDigit(c) {
        assert [c][..0] == [];
        assert AllDigits([c]);
        assert DigitsValue([c]) == DigitValue(c);
      } else {
        assert !AllDigits([c]);
      }
    }
  }

  lemma {:induction false} DigitsValueOfNat(n: nat)
    ensures DigitsValue(NatToString(n)) == n
  {
    if n >= 10 {
      var s := NatToString(n);
      assert s[..|s| - 1] == NatToString(n / 10);
      DigitsValueOfNat(n / 10);
    }
  }

  /** `int(str(n)) == n`. */
  lemma IntOfNatToString(n: nat)
    ensures ParseInt(NatToString(n)) == Some(n)
  {
    ParseIntDigits(NatToString(n));
    DigitsValueOfNat(n);
  }

  /** Python `format(s, ">w")`: right-align in a field of width `w`. */
  function RJust(s: string, w: nat): (r: string)
    ensures |r| == if |s| < w then w else |s|
    ensures r[|r| - |s|..] == s
    ensures forall i :: 0 <= i < |r| - |s| ==> r[i] == ' '
  {
    if |s| < w then Repeat(' ', w - |s|) + s else s
  }

  /** `n` copies of `c`. */
  function Repeat(c: char, n: nat): (r: string)
    ensures |r| == n && forall i :: 0 <= i < n ==> r[i] == c
  {
    if n == 0 then "" else [c] + Repeat(c, n - 1)
  }

  /** Python `"%0wd" % n`: zero padding goes after the sign. */
  function ZeroPadInt(n: int, w: nat): (r: string)
    ensures 0 <= n ==> |r| == (if |NatToString(n)| < w then w else |NatToString(n)|)
  {
    if n < 0 then "-" + ZeroPad(NatToString(-n), if w == 0 then 0 else w - 1)
    else ZeroPad(NatToString(n), w)
  }

  /** Left-pad `s` with zeros to width `w`. */
  function ZeroPad(s: string, w: nat): (r: string)
    ensures |r| == if |s| < w then w else |s|
    ensures r[|r| - |s|..] == s
    ensures forall i :: 0 <= i < |r| - |s| ==> r[i] == '0'
  {
    if |s| < w then Repeat('0', w - |s|) + s else s
  }
}
