/** The file-level layer shared by every RINEX file (rinex.py): splitting
    the text into lines, finding the header terminator, separating header
    from body, and the newline rule used when writing lines back out. */
module Rinex {
  import opened PyText

  // ---------------------------------------------------------------------
  // Reading: `f.read().split('\n')`.

  /** The text in lines, split at every newline. The loop that follows the
      split in the source rebinds a loop variable only, so it changes
      nothing; the second ensures says there was nothing to strip. */
  function SplitLines(content: string): (r: seq<string>)
    ensures |r| >= 1
    ensures forall i :: 0 <= i < |r| ==> '\n' !in r[i]
  {
    if content == [] then [""]
    else
      var rest := SplitLines(content[1..]);
      if content[0] == '\n' then [""] + rest
      else [[content[0]] + rest[0]] + rest[1..]
  }

  /** `'\n'.join(r)`. */
  function JoinLines(r: seq<string>): (s: string)
    requires |r| >= 1
  {
    if |r| == 1 then r[0] else r[0] + "\n" + JoinLines(r[1..])
  }

  /** Joining the split lines gives back the text. */
  lemma {:induction false} JoinSplitLines(content: string)
    ensures JoinLines(SplitLines(content)) == content
  {
    if content != [] {
      var rest := SplitLines(content[1..]);
      JoinSplitLines(content[1..]);
      if content[0] == '\n' {
        assert ([""] + rest)[1..] == rest;
      } else {
        var r := [[content[0]] + rest[0]] + rest[1..];
        if |rest| == 1 {
          assert content == [content[0]] + content[1..];
        } else {
          assert r[1..] == rest[1..];
          assert JoinLines(rest) == rest[0] + "\n" + JoinLines(rest[1..]);
          assert content == [content[0]] + content[1..];
        }
      }
    }
  }

  /** Splitting the joined lines gives back the lines, when none of them
      holds a newline. */
  lemma {:induction false} SplitJoinLines(r: seq<string>)
    requires |r| >= 1
    requires forall i :: 0 <= i < |r| ==> '\n' !in r[i]
    ensures SplitLines(JoinLines(r)) == r
    decreases |r|, |r[0]|
  {
    if |r| == 1 {
      SplitNoNewline(r[0]);
    } else {
      var tail := r[1..];
      SplitJoinLines(tail);
      SplitPrefix(r[0], JoinLines(tail));
      assert r == [r[0]] + tail;
    }
  }

  /** A text without newlines is a single line. */
  lemma {:induction false} SplitNoNewline(s: string)
    requires '\n' !in s
    ensures SplitLines(s) == [s]
  {
    if s != [] {
      SplitNoNewline(s[1..]);
      assert s == [s[0]] + s[1..];
    }
  }

  /** A first line without newlines, a newline, then the rest. */
  lemma {:induction false} SplitPrefix(a: string, b: string)
    requires '\n' !in a
    ensures SplitLines(a + "\n" + b) == [a] + SplitLines(b)
  {
    if a == [] {
      assert a + "\n" + b == "\n" + b;
      assert ("\n" + b)[1..] == b;
    } else {
      var t := a + "\n" + b;
      assert t[1..] == a[1..] + "\n" + b;
      SplitPrefix(a[1..], b);
      assert a == [a[0]] + a[1..];
    }
  }

  // ---------------------------------------------------------------------
  // The header.

  /** A line ending the header: `'END OF HEADER' in line.strip()`. */
  predicate IsTerminator(l: string) {
    Contains(Strip(l), "END OF HEADER")
  }

  /** Index of the first terminator line, or the number of lines when
      there is none. */
  function FirstTerminator(lines: seq<string>): (n: nat)
    ensures n <= |lines|
    ensures n < |lines| ==> IsTerminator(lines[n])
    ensures forall j :: 0 <= j < n ==> !IsTerminator(lines[j])
  {
    FirstTerminatorFrom(lines, 0)
  }

  /** The first terminator at index `i` or later. */
  function FirstTerminatorFrom(lines: seq<string>, i: nat): (n: nat)
    requires i <= |lines|
    requires forall j :: 0 <= j < i ==> !IsTerminator(lines[j])
    ensures i <= n <= |lines|
    ensures n < |lines| ==> IsTerminator(lines[n])
    ensures forall j :: 0 <= j < n ==> !IsTerminator(lines[j])
    decreases |lines| - i
  {
    if i == |lines| || IsTerminator(lines[i]) then i
    else FirstTerminatorFrom(lines, i + 1)
  }

  /** The first terminator is the one no earlier line is. */
  lemma FirstTerminatorIs(lines: seq<string>, i: nat)
    requires i <= |lines|
    requires i < |lines| ==> IsTerminator(lines[i])
    requires forall j :: 0 <= j < i ==> !IsTerminator(lines[j])
    ensures FirstTerminator(lines) == i
  {
  }

  /** The header lines of `getheader`: everything before the first
      terminator, or nothing when there is no terminator. */
  function HeaderOf(lines: seq<string>): (h: seq<string>)
    ensures h <= lines
    ensures forall i :: 0 <= i < |h| ==> !IsTerminator(h[i])
    ensures h != [] ==> |h| < |lines| && IsTerminator(lines[|h|])
  {
    var n := FirstTerminator(lines);
    if n < |lines| then lines[..n] else []
  }

  /** `getheader`: scan for the first terminator and return what precedes
      it; an empty list when the scan finds none. */
  method GetHeader(lines: seq<string>) returns (header: seq<string>)
    ensures header == HeaderOf(lines)
  {
    var i := 0;
    while i < |lines|
      invariant 0 <= i <= |lines|
      invariant forall j :: 0 <= j < i ==> !IsTerminator(lines[j])
    {
      if IsTerminator(lines[i]) {
        FirstTerminatorIs(lines, i);
        return lines[0..i];
      }
      i := i + 1;
    }
    FirstTerminatorIs(lines, |lines|);
    return [];
  }

  /** The body: `lines[len(header) + 1:]`. */
  function BodyOf(lines: seq<string>, header: seq<string>): (b: seq<string>)
    ensures |header| < |lines| ==> b == lines[|header| + 1..]
    ensures |header| >= |lines| ==> b == []
  {
    if |header| < |lines| then lines[|header| + 1..] else []
  }

  /** With a non-empty header, the lines are the header, the terminator
      and the body, in that order. */
  lemma HeaderBodySplit(lines: seq<string>)
    requires HeaderOf(lines) != []
    ensures
      var h := HeaderOf(lines);
      h + [lines[|h|]] + BodyOf(lines, h) == lines
  {
    var h := HeaderOf(lines);
    var n := |h|;
    assert h == lines[..n];
    assert BodyOf(lines, h) == lines[n + 1..];
    SplitAround(lines, n);
  }

  /** A sequence is what comes before index `n`, the element at `n`, and
      what comes after. */
  lemma SplitAround<T>(s: seq<T>, n: nat)
    requires n < |s|
    ensures s[..n] + [s[n]] + s[n + 1..] == s
  {
    assert s[n..] == [s[n]] + s[n + 1..];
    assert s == s[..n] + s[n..];
  }

  /** The header is empty exactly when no line before the first terminator
      exists: there is no terminator, or it is the very first line. */
  lemma EmptyHeaderCases(lines: seq<string>)
    ensures HeaderOf(lines) == [] <==> FirstTerminator(lines) == |lines| || FirstTerminator(lines) == 0
  {
  }

  // ---------------------------------------------------------------------
  // Writing.

  /** The line `writelines` writes: with `eolcheck`, a non-empty line not
      already ending in a newline gets one. */
  function EolFixed(l: string, eolcheck: bool): (r: string)
    ensures l <= r && |r| <= |l| + 1
    ensures eolcheck && l != [] ==> r != [] && r[|r| - 1] == '\n'
    ensures !eolcheck || l == [] ==> r == l
    ensures l != [] && l[|l| - 1] == '\n' ==> r == l
  {
    if eolcheck && |l| > 0 && l[|l| - 1] != '\n' then l + "\n" else l
  }

  /** Fixing a line a second time changes nothing. */
  lemma EolFixedIdempotent(l: string, eolcheck: bool)
    ensures EolFixed(EolFixed(l, eolcheck), eolcheck) == EolFixed(l, eolcheck)
  {
  }

  /** `writelines`: the strings handed to the file object, in order. The
      file object itself is modelled as the sequence of strings written. */
  method WriteLines(lines: seq<string>, eolcheck: bool) returns (written: seq<string>)
    ensures |written| == |lines|
    ensures forall i :: 0 <= i < |lines| ==> written[i] == EolFixed(lines[i], eolcheck)
  {
    written := [];
    for i := 0 to |lines|
      invariant |written| == i
      invariant forall j :: 0 <= j < i ==> written[j] == EolFixed(lines[j], eolcheck)
    {
      var l := lines[i];
      if eolcheck && |l| > 0 {
        if l[|l| - 1] != '\n' {
          l := l + "\n";
        }
      }
      written := written + [l];
    }
  }
}
