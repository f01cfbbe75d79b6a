/** rinexlib.py: helpers over the lines of RINEX 3 files. Splitting a file
    into header and epoch lines and adding a `TIME OF LAST OBS` line to the
    header; reading the observation types, the start time and the interval
    of a header; the two-row system/observable index; and cutting the epoch
    lines into epochs (`get_R3_epochs`, the same procedure as
    `R3Lines.CreateEpochsList`). */
module RinexLib {
  import opened Outcomes
  import opened PyText
  import opened Seqs
  import opened StringOrder
  import opened R3Lines

  /** Python `s[i:j]` on a list, both bounds clamped to the length. */
  function SliceList<T>(s: seq<T>, i: nat, j: nat): (r: seq<T>)
    ensures |r| <= if j <= i then 0 else j - i
    ensures i <= j <= |s| ==> r == s[i..j]
    ensures i <= |s| <= j ==> r == s[i..]
  {
    var e := if j <= |s| then j else |s|;
    if i <= e then s[i..e] else []
  }

  // ---------------------------------------------------------------------
  // write_end_time.

  /** The label that ends the line. */
  const LastObsText := "TIME OF LAST OBS\n"

  /** A time field right-aligned to width 2 after four spaces. */
  function Column(field: string): (r: string)
    ensures |field| <= 2 ==> |r| == 6
  {
    "    " + RJust(field, 2)
  }

  /** The year and the month, day, hour and minute columns, then the four
      spaces before the seconds. */
  function TimeColumns(tag: seq<string>): (r: string)
    requires |tag| >= 5
    ensures StartsWith(r, "  " + tag[0])
  {
    var year := "  " + tag[0];
    var rest := Column(tag[1]) + Column(tag[2]) + Column(tag[3]) + Column(tag[4]) + "    ";
    StartsWithConcat(year, rest);
    year + rest
  }

  /** The line `write_end_time` formats from the six time fields of `tag`,
      the rendered seconds and the time system. */
  function EndTimeLine(tag: seq<string>, seconds: string, timeFrame: string): (r: string)
    requires |tag| >= 5
    ensures StartsWith(r, "  " + tag[0])
    ensures EndsWith(r, LastObsText)
  {
    var t := TimeColumns(tag);
    var r := t + seconds + "     " + timeFrame + "         " + LastObsText;
    Pieces(t, seconds, "     ", timeFrame, "         ", LastObsText);
    PrefixThrough("  " + tag[0], t, r);
    r
  }

  /** A prefix of a prefix is a prefix. */
  lemma PrefixThrough<T>(p: seq<T>, t: seq<T>, r: seq<T>)
    requires p <= t && |t| <= |r| && r[..|t|] == t
    ensures p <= r
  {
  }

  /** Past index `i`, a sequence agrees with its prefix `p` up to `|p|`. */
  lemma PrefixTake<T>(p: seq<T>, r: seq<T>, i: nat)
    requires p <= r && i <= |p|
    ensures r[i..|p|] == p[i..]
  {
  }

  /** Where each of six concatenated pieces lies in the result. */
  lemma Pieces<T>(a: seq<T>, b: seq<T>, c: seq<T>, d: seq<T>, e: seq<T>, f: seq<T>)
    ensures |a + b + c + d + e + f| == |a| + |b| + |c| + |d| + |e| + |f|
    ensures (a + b + c + d + e + f)[..|a|] == a
    ensures (a + b + c + d + e + f)[|a|..|a| + |b|] == b
    ensures (a + b + c + d + e + f)[|a| + |b| + |c|..|a| + |b| + |c| + |d|] == d
    ensures (a + b + c + d + e + f)[|a| + |b| + |c| + |d| + |e|..] == f
  {
  }

  /** With a four-character year, the other time fields of at most two
      characters and a three-character time system, every field has its
      column and the label starts at index `51 + |seconds|`: at column 61,
      where header labels stand, exactly when the seconds take nine
      characters. */
  lemma EndTimeLineColumns(tag: seq<string>, seconds: string, timeFrame: string)
    requires |tag| >= 5 && |tag[0]| == 4 && |timeFrame| == 3
    requires |tag[1]| <= 2 && |tag[2]| <= 2 && |tag[3]| <= 2 && |tag[4]| <= 2
    ensures |EndTimeLine(tag, seconds, timeFrame)| == 68 + |seconds|
    ensures EndTimeLine(tag, seconds, timeFrame)[2..6] == tag[0]
    ensures EndTimeLine(tag, seconds, timeFrame)[34..34 + |seconds|] == seconds
    ensures EndTimeLine(tag, seconds, timeFrame)[39 + |seconds|..42 + |seconds|] == timeFrame
    ensures EndTimeLine(tag, seconds, timeFrame)[51 + |seconds|..] == LastObsText
  {
    var t := TimeColumns(tag);
    assert |t| == 34;
    var p := "  " + tag[0];
    assert p[2..] == tag[0];
    Pieces(t, seconds, "     ", timeFrame, "         ", LastObsText);
    var r := EndTimeLine(tag, seconds, timeFrame);
    assert r == t + seconds + "     " + timeFrame + "         " + LastObsText;
    PrefixTake(p, r, 2);
  }

  /** `write_end_time(epoch_label_string, time_frame)`: fields 2-7 of the
      epoch line are the time tag; the last of them must be a float, and
      all six must be there for the format. `parseFloat` stands for
      Python's `float()` and `renderFixed` for the `f` format of the
      seconds. */
  function WriteEndTime(epochLabel: string, timeFrame: string, parseFloat: string -> Option<real>,
                        renderFixed: real -> string): (r: Result<string>)
    ensures |Split(epochLabel)| <= 1 ==> r == Err(IndexError)
    ensures |Split(epochLabel)| >= 7 ==> (r.Err? <==> parseFloat(Split(epochLabel)[6]).None?)
    ensures |Split(epochLabel)| >= 7 && r.Err? ==> r.error == ValueError
    ensures r.Err? ==> r.error == IndexError || r.error == ValueError
    ensures r.Ok? ==> |Split(epochLabel)| >= 7 && r.value == EndTimeLine(Split(epochLabel)[1..7], renderFixed(parseFloat(Split(epochLabel)[6]).value), timeFrame)
  {
    var fields := Split(epochLabel);
    var tag := SliceList(fields, 1, 7);
    assert tag == [] <==> |fields| <= 1;
    assert |tag| < 6 <==> |fields| < 7;
    if tag == [] then Err(IndexError)
    else
      assert |fields| >= 7 ==> tag == fields[1..7] && tag[|tag| - 1] == fields[6];
      match parseFloat(tag[|tag| - 1])
      case None => Err(ValueError)
      case Some(seconds) =>
        if |tag| < 6 then Err(IndexError)
        else Ok(EndTimeLine(tag, renderFixed(seconds), timeFrame))
  }

  // ---------------------------------------------------------------------
  // split_header_data.

  /** The argument of `split_header_data`: a list, or anything else. */
  datatype Arg = ListArg(lines: seq<string>) | NotList

  /** The message returned, in both lists, for an argument that is not a
      list. */
  const NotListMessage := NotListHead + NotListTail

  const NotListHead := "Error : function \"split_header_data\" in rinexlib.py "

  const NotListTail := "requires a list as a parameter."

  /** A header line that sets `time_system`: it holds `TIME OF FIRST OBS`
      and is not the line ending the header, which the loop checks first. */
  predicate SetsTimeSystem(l: string) {
    !HasHeaderEnd(l) && Contains(l, "TIME OF FIRST OBS")
  }

  /** The index of the last of the first `n` lines that sets
      `time_system`. */
  function LastTimeSystemLine(lines: seq<string>, n: nat): (r: Option<nat>)
    requires n <= |lines|
    ensures r.Some? ==> r.value < n && SetsTimeSystem(lines[r.value])
    ensures r.Some? ==> forall j :: r.value < j < n ==> !SetsTimeSystem(lines[j])
    ensures r.None? ==> forall j :: 0 <= j < n ==> !SetsTimeSystem(lines[j])
  {
    if n == 0 then None
    else if SetsTimeSystem(lines[n - 1]) then Some(n - 1)
    else LastTimeSystemLine(lines, n - 1)
  }

  /** The index of the last epoch line. */
  function LastMarker(lines: seq<string>): (r: Option<nat>)
    ensures r.Some? ==> r.value < |lines| && IsMarker(lines[r.value])
    ensures r.Some? ==> forall j :: r.value < j < |lines| ==> !IsMarker(lines[j])
    ensures r.None? ==> forall j :: 0 <= j < |lines| ==> !IsMarker(lines[j])
  {
    if lines == [] then None
    else if IsMarker(lines[|lines| - 1]) then Some(|lines| - 1)
    else LastMarker(lines[..|lines| - 1])
  }

  /** Python `list.insert(i, x)` for `i <= len(s)`. */
  function InsertAt(s: seq<string>, i: nat, x: string): (r: seq<string>)
    requires i <= |s|
    ensures |r| == |s| + 1 && r[i] == x
    ensures r[..i] == s[..i] && r[i + 1..] == s[i..]
  {
    s[..i] + [x] + s[i..]
  }

  /** `split_header_data(lines)`. For a list: the header (every line up to
      and including the first holding `END OF HEADER`, or every line) with
      the `TIME OF LAST OBS` line built from the last epoch line inserted
      after the last line setting `time_system`, and the lines after the
      header. NameError when the list is empty (`index` unbound), when no
      line after the header is an epoch line (`endtime` unbound) or when no
      header line sets `time_system`. */
  function SplitHeaderDataOf(arg: Arg, parseFloat: string -> Option<real>, renderFixed: real -> string):
    (r: Result<(seq<string>, seq<string>)>)
    ensures arg.NotList? ==> r == Ok(([NotListMessage], [NotListMessage]))
  {
    match arg
    case NotList => Ok(([NotListMessage], [NotListMessage]))
    case ListArg(lines) => SplitListOf(lines, parseFloat, renderFixed)
  }

  /** `split_header_data` of a list. */
  function SplitListOf(lines: seq<string>, parseFloat: string -> Option<real>, renderFixed: real -> string):
    (r: Result<(seq<string>, seq<string>)>)
    ensures r.Ok? ==> r.value.1 == lines[HeaderLength(lines)..]
    ensures r.Ok? ==> |r.value.0| == HeaderLength(lines) + 1
  {
    if lines == [] then Err(NameError)
    else
      var n := HeaderLength(lines);
      var epochs := lines[n..];
      var endTime := LastMarker(epochs);
      var start := LastTimeSystemLine(lines, n);
      if endTime.None? || start.None? then Err(NameError)
      else
        var timeOfLast :- WriteEndTime(epochs[endTime.value], Slice(lines[start.value], 48, 51), parseFloat, renderFixed);
        Ok((InsertAt(lines[..n], start.value + 1, timeOfLast), epochs))
  }

  /** NameError is raised exactly when the list is empty, has no epoch
      line after the header or no header line setting `time_system`;
      `write_end_time` raises only IndexError or ValueError. */
  lemma SplitHeaderDataNameError(lines: seq<string>, parseFloat: string -> Option<real>, renderFixed: real -> string)
    ensures SplitListOf(lines, parseFloat, renderFixed) == Err(NameError) <==>
      lines == [] || LastMarker(lines[HeaderLength(lines)..]).None? || LastTimeSystemLine(lines, HeaderLength(lines)).None?
  {
  }

  /** A successful split is the header with the `TIME OF LAST OBS` line of
      the last epoch line inserted after the last line setting
      `time_system`, and the lines after the header (`InsertedLayout` says
      how the input is recovered from the two). */
  lemma SplitHeaderDataShape(lines: seq<string>, parseFloat: string -> Option<real>, renderFixed: real -> string,
                             header: seq<string>, epochs: seq<string>)
    requires SplitListOf(lines, parseFloat, renderFixed) == Ok((header, epochs))
    ensures lines != [] && epochs == lines[HeaderLength(lines)..]
    ensures LastTimeSystemLine(lines, HeaderLength(lines)).Some? && LastMarker(epochs).Some?
    ensures
      var k := LastTimeSystemLine(lines, HeaderLength(lines)).value;
      var w := WriteEndTime(epochs[LastMarker(epochs).value], Slice(lines[k], 48, 51), parseFloat, renderFixed);
      && w.Ok?
      && header == InsertAt(lines[..HeaderLength(lines)], k + 1, w.value)
  {
  }

  /** After inserting `x` behind line `k` of the first `n` lines, the
      header minus the inserted line, followed by the rest, is the input. */
  lemma InsertedLayout(lines: seq<string>, n: nat, k: nat, x: string, header: seq<string>, epochs: seq<string>)
    requires k < n <= |lines|
    requires header == InsertAt(lines[..n], k + 1, x) && epochs == lines[n..]
    ensures header[..k + 1] + header[k + 2..] + epochs == lines
    ensures header[k] == lines[k] && header[k + 1] == x
  {
    InsertAtRemove(lines[..n], k + 1, x);
    assert header[k] == header[..k + 1][k] == lines[..n][k];
    assert lines[..n] + lines[n..] == lines;
  }

  /** Taking the inserted element out again gives back the list. */
  lemma InsertAtRemove(s: seq<string>, i: nat, x: string)
    requires i <= |s|
    ensures InsertAt(s, i, x)[..i] + InsertAt(s, i, x)[i + 1..] == s
  {
    assert s[..i] + s[i..] == s;
  }

  /** `split_header_data`: the header loop, the copy of what follows, the
      reversed search for the last epoch line, `write_end_time` and the
      insertion. */
  method SplitHeaderData(arg: Arg, parseFloat: string -> Option<real>, renderFixed: real -> string)
    returns (r: Result<(seq<string>, seq<string>)>)
    ensures r == SplitHeaderDataOf(arg, parseFloat, renderFixed)
  {
    if arg.NotList? {
      var err := NotListHead;
      err := err + NotListTail;
      return Ok(([err], [err]));
    }
    r := SplitList(arg.lines, parseFloat, renderFixed);
  }

  /** The list case of `split_header_data`. */
  method SplitList(lines: seq<string>, parseFloat: string -> Option<real>, renderFixed: real -> string)
    returns (r: Result<(seq<string>, seq<string>)>)
    ensures r == SplitListOf(lines, parseFloat, renderFixed)
  {
    var header, index, timeSystem, startTimeIndex := ScanTimeSystem(lines);
    if index.None? {
      return Err(NameError);
    }
    var epochs := CopyFrom(lines, index.value + 1);
    var endTime := FindLastMarker(epochs);
    if endTime.None? || timeSystem.None? {
      return Err(NameError);
    }
    var timeOfLast := WriteEndTime(epochs[endTime.value], timeSystem.value, parseFloat, renderFixed);
    if timeOfLast.Err? {
      return Err(timeOfLast.error);
    }
    header := InsertAt(header, startTimeIndex.value + 1, timeOfLast.value);
    return Ok((header, epochs));
  }

  /** The `enumerate` loop of `split_header_data`: the header lines, the
      index the loop ends on (unbound for an empty list), and the last
      `time_system` and its line. */
  method ScanTimeSystem(lines: seq<string>)
    returns (header: seq<string>, index: Option<nat>, timeSystem: Option<string>, startTimeIndex: Option<nat>)
    ensures index.None? <==> lines == []
    ensures index.Some? ==> index.value + 1 == HeaderLength(lines)
    ensures header == lines[..HeaderLength(lines)]
    ensures startTimeIndex == LastTimeSystemLine(lines, HeaderLength(lines))
    ensures timeSystem == TimeSystemAt(lines, startTimeIndex)
  {
    header, index, timeSystem, startTimeIndex := [], None, None, None;
    var i := 0;
    while i < |lines|
      invariant 0 <= i <= |lines|
      invariant header == lines[..i]
      invariant forall j :: 0 <= j < i ==> !HasHeaderEnd(lines[j])
      invariant index == if i == 0 then None else Some(i - 1)
      invariant startTimeIndex == LastTimeSystemLine(lines, i)
      invariant timeSystem == TimeSystemAt(lines, startTimeIndex)
    {
      var line := lines[i];
      header := header + [line];
      assert header == lines[..i + 1];
      index := Some(i);
      if HasHeaderEnd(line) {
        ScanStopsAt(lines, i);
        return;
      }
      timeSystem, startTimeIndex := NoteTimeSystem(lines, i, timeSystem, startTimeIndex);
      i := i + 1;
    }
    ScanRunsOut(lines);
  }

  /** The `elif` branch of the loop for a line that does not end the
      header: a `TIME OF FIRST OBS` line sets `time_system` and
      `start_time_index`. */
  method NoteTimeSystem(lines: seq<string>, i: nat, timeSystem: Option<string>, startTimeIndex: Option<nat>)
    returns (timeSystem': Option<string>, startTimeIndex': Option<nat>)
    requires i < |lines| && !HasHeaderEnd(lines[i])
    requires startTimeIndex == LastTimeSystemLine(lines, i)
    requires timeSystem == TimeSystemAt(lines, startTimeIndex)
    ensures startTimeIndex' == LastTimeSystemLine(lines, i + 1)
    ensures timeSystem' == TimeSystemAt(lines, startTimeIndex')
  {
    timeSystem', startTimeIndex' := timeSystem, startTimeIndex;
    if Contains(lines[i], "TIME OF FIRST OBS") {
      timeSystem' := Some(Slice(lines[i], 48, 51));
      startTimeIndex' := Some(i);
    }
  }

  /** `line[48:51]` of the line at `st`, if any. */
  function TimeSystemAt(lines: seq<string>, st: Option<nat>): (r: Option<string>)
    requires st.Some? ==> st.value < |lines|
    ensures r.Some? <==> st.Some?
    ensures r.Some? ==> |r.value| <= 3
  {
    if st.None? then None else Some(Slice(lines[st.value], 48, 51))
  }

  /** The scan stops at the first line ending the header, which sets
      nothing. */
  lemma ScanStopsAt(lines: seq<string>, i: nat)
    requires i < |lines| && HasHeaderEnd(lines[i])
    requires forall j :: 0 <= j < i ==> !HasHeaderEnd(lines[j])
    ensures HeaderLength(lines) == i + 1
    ensures LastTimeSystemLine(lines, i + 1) == LastTimeSystemLine(lines, i)
  {
    HeaderEndIs(lines, i);
  }

  /** Without a line ending the header, the header is every line. */
  lemma ScanRunsOut(lines: seq<string>)
    requires forall j :: 0 <= j < |lines| ==> !HasHeaderEnd(lines[j])
    ensures HeaderLength(lines) == |lines|
  {
    HeaderEndIs(lines, |lines|);
  }

  /** `for line in reversed(epochs)`: the first epoch line from the end. */
  method FindLastMarker(lines: seq<string>) returns (r: Option<nat>)
    ensures r == LastMarker(lines)
  {
    var i := |lines|;
    while i > 0
      invariant 0 <= i <= |lines|
      invariant LastMarker(lines) == LastMarker(lines[..i])
    {
      assert lines[..i][..i - 1] == lines[..i - 1];
      if StartsWith(lines[i - 1], ">") {
        return Some(i - 1);
      }
      i := i - 1;
    }
    return None;
  }

  // ---------------------------------------------------------------------
  // get_R3_observables.

  predicate IsIntervalLine(l: string) {
    StartsWithAt(l, "INTERVAL", 60)
  }

  predicate IsFirstObsLine(l: string) {
    StartsWithAt(l, "TIME OF FIRST OBS", 60)
  }

  /** The start time of a `TIME OF FIRST OBS` line: the fields of its
      first 60 columns without the last (the time system), joined by
      spaces, as `strptime` accepts it (`dateAccepted`); IndexError when
      there are no fields, ValueError when `strptime` refuses them. The
      parsed datetime is represented by the text it was parsed from. */
  function StartTimeOf(l: string, dateAccepted: string -> bool): (r: Result<string>)
    ensures r.Err? <==> Split(Take(l, 60)) == [] || !dateAccepted(JoinWith(" ", Split(Take(l, 60))[..|Split(Take(l, 60))| - 1]))
    ensures r.Err? ==> r.error == (if Split(Take(l, 60)) == [] then IndexError else ValueError)
    ensures r.Ok? ==> dateAccepted(r.value)
  {
    var fields := Split(Take(l, 60));
    if fields == [] then Err(IndexError)
    else
      var text := JoinWith(" ", fields[..|fields| - 1]);
      if dateAccepted(text) then Ok(text) else Err(ValueError)
  }

  /** What the header loop of `get_R3_observables` gathers: the fields of
      each observation-type line, and the last interval and start time. */
  datatype HeaderScan = HeaderScan(sysObs: seq<seq<string>>, interval: Option<string>, startTime: Option<string>)

  /** The error a header line raises in that loop, if any. */
  function LineError(l: string, dateAccepted: string -> bool): Option<Error> {
    if IsSysLine(l) then None
    else if IsIntervalLine(l) then (if Split(l) == [] then Some(IndexError) else None)
    else if IsFirstObsLine(l) then (match StartTimeOf(l, dateAccepted) case Err(e) => Some(e) case Ok(_) => None)
    else None
  }

  /** The header loop, one line at a time; the first line raising ends
      it. */
  function ScanLines(lines: seq<string>, dateAccepted: string -> bool): (r: Result<HeaderScan>)
  {
    if lines == [] then Ok(HeaderScan([], None, None))
    else
      var s :- ScanLines(lines[..|lines| - 1], dateAccepted);
      ScanLine(s, lines[|lines| - 1], dateAccepted)
  }

  function ScanLine(s: HeaderScan, l: string, dateAccepted: string -> bool): (r: Result<HeaderScan>)
    ensures r.Err? <==> LineError(l, dateAccepted).Some?
    ensures r.Err? ==> r.error == LineError(l, dateAccepted).value
  {
    if IsSysLine(l) then Ok(s.(sysObs := s.sysObs + [Split(Take(l, 60))]))
    else if IsIntervalLine(l) then
      var fields := Split(l);
      if fields == [] then Err(IndexError) else Ok(s.(interval := Some(fields[0])))
    else if IsFirstObsLine(l) then
      var t :- StartTimeOf(l, dateAccepted);
      Ok(s.(startTime := Some(t)))
    else Ok(s)
  }

  /** The loop fails exactly when some line raises, and then with the error
      of the first such line. */
  lemma {:induction false} ScanLinesError(lines: seq<string>, dateAccepted: string -> bool)
    ensures ScanLines(lines, dateAccepted).Err? <==> exists i :: 0 <= i < |lines| && LineError(lines[i], dateAccepted).Some?
    ensures ScanLines(lines, dateAccepted).Err? ==>
      exists i :: 0 <= i < |lines| && LineError(lines[i], dateAccepted) == Some(ScanLines(lines, dateAccepted).error)
        && forall j :: 0 <= j < i ==> LineError(lines[j], dateAccepted).None?
  {
    if lines != [] {
      var init := lines[..|lines| - 1];
      ScanLinesError(init, dateAccepted);
      assert forall i :: 0 <= i < |init| ==> init[i] == lines[i];
      if ScanLines(init, dateAccepted).Err? {
        var i :| 0 <= i < |init| && LineError(init[i], dateAccepted) == Some(ScanLines(init, dateAccepted).error)
          && forall j :: 0 <= j < i ==> LineError(init[j], dateAccepted).None?;
        assert LineError(lines[i], dateAccepted) == Some(ScanLines(lines, dateAccepted).error);
      } else if ScanLines(lines, dateAccepted).Err? {
        var i := |lines| - 1;
        assert LineError(lines[i], dateAccepted) == Some(ScanLines(lines, dateAccepted).error);
      }
    }
  }

  /** On success the observation-type fields are those of the
      `SYS / # / OBS TYPES` lines, in order. */
  lemma {:induction false} ScanLinesSysObs(lines: seq<string>, dateAccepted: string -> bool)
    requires ScanLines(lines, dateAccepted).Ok?
    ensures |ScanLines(lines, dateAccepted).value.sysObs| == |ObservablesOf(lines)|
    ensures forall k :: 0 <= k < |ObservablesOf(lines)| ==>
      ScanLines(lines, dateAccepted).value.sysObs[k] == Split(ObservablesOf(lines)[k])
  {
    if lines != [] {
      var init := lines[..|lines| - 1];
      var l := lines[|lines| - 1];
      ScanLinesSysObs(init, dateAccepted);
      var s := ScanLines(init, dateAccepted).value;
      var r := ScanLines(lines, dateAccepted).value;
      assert ScanLine(s, l, dateAccepted) == Ok(r);
      if IsSysLine(l) {
        assert r.sysObs == s.sysObs + [Split(Take(l, 60))];
        assert ObservablesOf(lines) == ObservablesOf(init) + [Take(l, 60)];
      } else {
        assert r.sysObs == s.sysObs;
        assert ObservablesOf(lines) == ObservablesOf(init);
      }
    }
  }

  /** `Some` start time and interval exactly when some line has that
      label. */
  lemma {:induction false} ScanLinesFound(lines: seq<string>, dateAccepted: string -> bool)
    requires ScanLines(lines, dateAccepted).Ok?
    ensures ScanLines(lines, dateAccepted).value.startTime.Some? <==> exists i :: 0 <= i < |lines| && IsFirstObsLine(lines[i])
    ensures ScanLines(lines, dateAccepted).value.interval.Some? <==> exists i :: 0 <= i < |lines| && IsIntervalLine(lines[i])
  {
    if lines != [] {
      var init := lines[..|lines| - 1];
      var l := lines[|lines| - 1];
      ScanLinesFound(init, dateAccepted);
      LabelsDiffer(l);
      assert forall i :: 0 <= i < |init| ==> init[i] == lines[i];
      assert lines == init + [l];
    }
  }

  /** No line carries two of the three labels at column 61. */
  lemma LabelsDiffer(l: string)
    ensures !(IsSysLine(l) && IsIntervalLine(l))
    ensures !(IsSysLine(l) && IsFirstObsLine(l))
    ensures !(IsIntervalLine(l) && IsFirstObsLine(l))
  {
    if |l| > 60 {
      assert IsSysLine(l) ==> l[60] == 'S';
      assert IsIntervalLine(l) ==> l[60] == 'I';
      assert IsFirstObsLine(l) ==> l[60] == 'T';
    }
  }

  /** Python `line[2:]` on a list of fields. */
  function FromThird(line: seq<string>): (r: seq<string>)
    ensures |line| >= 2 ==> r == line[2..]
    ensures |line| < 2 ==> r == []
  {
    if |line| >= 2 then line[2..] else []
  }

  /** The inner loop of the net-observables loop: each observable of
      `obs` not yet in `net` is appended. */
  function AddNew(net: seq<string>, obs: seq<string>): (r: seq<string>)
    ensures net <= r
    ensures Distinct(net) ==> Distinct(r)
    ensures forall o :: o in r <==> o in net || o in obs
  {
    if obs == [] then net
    else
      var n := AddNew(net, obs[..|obs| - 1]);
      var o := obs[|obs| - 1];
      assert forall x :: x in obs <==> x in obs[..|obs| - 1] || x == o by {
        assert obs == obs[..|obs| - 1] + [o];
      }
      if o in n then n else n + [o]
  }

  /** Every observable named in some line's `line[2:]`, each once, in the
      order of its first appearance (before sorting). */
  function NetOf(sysObs: seq<seq<string>>): (r: seq<string>)
    ensures Distinct(r)
    ensures forall o :: o in r <==> exists k :: 0 <= k < |sysObs| && o in FromThird(sysObs[k])
  {
    if sysObs == [] then []
    else
      var init := sysObs[..|sysObs| - 1];
      var r := AddNew(NetOf(init), FromThird(sysObs[|sysObs| - 1]));
      assert forall k :: 0 <= k < |init| ==> init[k] == sysObs[k];
      r
  }

  /** The nested loops building `net_observables`, then `sort()`. */
  method NetObservables(sysObs: seq<seq<string>>) returns (net: seq<string>)
    ensures net == Sort(NetOf(sysObs))
  {
    net := [];
    for k := 0 to |sysObs|
      invariant net == NetOf(sysObs[..k])
    {
      assert sysObs[..k + 1][..k] == sysObs[..k];
      net := AppendNew(net, FromThird(sysObs[k]));
    }
    assert sysObs[..|sysObs|] == sysObs;
    net := Sort(net);
  }

  /** `for observable in line[2:]: if not observable in net_observables:
      net_observables.append(observable)`. */
  method AppendNew(net: seq<string>, obs: seq<string>) returns (r: seq<string>)
    ensures r == AddNew(net, obs)
  {
    r := net;
    for j := 0 to |obs|
      invariant r == AddNew(net, obs[..j])
    {
      assert obs[..j + 1][..j] == obs[..j];
      if !(obs[j] in r) {
        r := r + [obs[j]];
      }
    }
    assert obs[..|obs|] == obs;
  }

  /** The sorted net observables name each observable of the
      observation-type lines exactly once. */
  lemma NetObservablesSortedDistinct(sysObs: seq<seq<string>>)
    ensures Sorted(Sort(NetOf(sysObs))) && Distinct(Sort(NetOf(sysObs)))
    ensures forall o :: o in Sort(NetOf(sysObs)) <==> exists k :: 0 <= k < |sysObs| && o in FromThird(sysObs[k])
  {
    var n := NetOf(sysObs);
    SortDistinct(n);
    forall o
      ensures o in Sort(n) <==> o in n
    {
      assert o in Sort(n) <==> o in multiset(Sort(n));
      assert o in n <==> o in multiset(n);
    }
  }

  // ---------------------------------------------------------------------
  // get_R3_multiindex.

  /** `line[0]` of every line; IndexError at the first empty line. */
  function FirstTokens(sysObs: seq<seq<string>>): (r: Result<seq<string>>)
    ensures r.Err? <==> exists k :: 0 <= k < |sysObs| && sysObs[k] == []
    ensures r.Err? ==> r.error == IndexError
    ensures r.Ok? ==> |r.value| == |sysObs| && forall k :: 0 <= k < |sysObs| ==> r.value[k] == sysObs[k][0]
  {
    if sysObs == [] then Ok([])
    else
      var init := sysObs[..|sysObs| - 1];
      assert forall k :: 0 <= k < |init| ==> init[k] == sysObs[k];
      var firsts :- FirstTokens(init);
      var last := sysObs[|sysObs| - 1];
      if last == [] then Err(IndexError) else Ok(firsts + [last[0]])
  }

  /** `n` copies of `x`. */
  function Copies(x: string, n: nat): (r: seq<string>)
    ensures |r| == n && forall i :: 0 <= i < n ==> r[i] == x
  {
    if n == 0 then [] else Copies(x, n - 1) + [x]
  }

  /** The first row: each system once per observable. */
  function SystemsRow(systems: seq<string>, n: nat): (r: seq<string>)
    ensures |r| == |systems| * n
  {
    if systems == [] then []
    else SystemsRow(systems[..|systems| - 1], n) + Copies(systems[|systems| - 1], n)
  }

  /** The second row: the observables once per system. */
  function ObservablesRow(count: nat, net: seq<string>): (r: seq<string>)
    ensures |r| == count * |net|
  {
    if count == 0 then [] else ObservablesRow(count - 1, net) + net
  }

  /** The index pair at position `i * |net| + j` is system `i` with
      observable `j`: every pair of a system and an observable appears,
      systems outermost. */
  lemma {:induction false} MultiindexAt(systems: seq<string>, net: seq<string>, i: nat, j: nat)
    requires i < |systems| && j < |net|
    ensures 0 <= i * |net| + j < |systems| * |net|
    ensures SystemsRow(systems, |net|)[i * |net| + j] == systems[i]
    ensures ObservablesRow(|systems|, net)[i * |net| + j] == net[j]
  {
    var m := |systems| - 1;
    var init := systems[..m];
    var n := |net|;
    assert |systems| * n == m * n + n;
    ProductNat(i, n);
    if i < m {
      MultiindexAt(init, net, i, j);
      assert systems[i] == init[i];
    } else {
      assert i * n + j == m * n + j;
      assert SystemsRow(systems, n) == SystemsRow(init, n) + Copies(systems[m], n);
      assert ObservablesRow(|systems|, net) == ObservablesRow(m, net) + net;
    }
  }

  /** A product of naturals is a natural. */
  lemma {:induction false} ProductNat(a: nat, b: nat)
    ensures 0 <= a * b
  {
    if a > 0 {
      ProductNat(a - 1, b);
      assert a * b == (a - 1) * b + b;
    }
  }

  /** `get_R3_multiindex(sys_obs, net_observables)`: the sorted systems
      each paired with every net observable. */
  function MultiindexOf(sysObs: seq<seq<string>>, net: seq<string>): (r: Result<(seq<string>, seq<string>)>)
    ensures r.Err? <==> exists k :: 0 <= k < |sysObs| && sysObs[k] == []
    ensures r.Err? ==> r.error == IndexError
    ensures r.Ok? ==> |r.value.0| == |r.value.1| == |sysObs| * |net|
  {
    var systems :- FirstTokens(sysObs);
    Ok((SystemsRow(Sort(systems), |net|), ObservablesRow(|systems|, net)))
  }

  /** The multiindex pairs the `i`-th sorted system with the `j`-th
      observable at position `i * |net| + j`. */
  lemma MultiindexPairs(sysObs: seq<seq<string>>, net: seq<string>, i: nat, j: nat)
    requires MultiindexOf(sysObs, net).Ok? && i < |sysObs| && j < |net|
    ensures FirstTokens(sysObs).Ok? && |Sort(FirstTokens(sysObs).value)| == |sysObs|
    ensures
      var index := MultiindexOf(sysObs, net).value;
      && 0 <= i * |net| + j < |index.0| == |index.1|
      && index.0[i * |net| + j] == Sort(FirstTokens(sysObs).value)[i]
      && index.1[i * |net| + j] == net[j]
  {
    var systems := Sort(FirstTokens(sysObs).value);
    assert |systems| == |sysObs|;
    assert MultiindexOf(sysObs, net).value == (SystemsRow(systems, |net|), ObservablesRow(|sysObs|, net));
    MultiindexAt(systems, net, i, j);
  }

  /** The loops of `get_R3_multiindex`. */
  method GetR3Multiindex(sysObs: seq<seq<string>>, net: seq<string>) returns (r: Result<(seq<string>, seq<string>)>)
    ensures r == MultiindexOf(sysObs, net)
  {
    var firsts := CollectSystems(sysObs);
    if firsts.Err? {
      return Err(firsts.error);
    }
    var sorted := Sort(firsts.value);
    var row0: seq<string> := [];
    var row1: seq<string> := [];
    for i := 0 to |sorted|
      invariant row0 == SystemsRow(sorted[..i], |net|)
      invariant row1 == ObservablesRow(i, net)
    {
      assert sorted[..i + 1][..i] == sorted[..i];
      row0, row1 := AppendPairs(row0, row1, sorted[i], net);
    }
    assert sorted[..|sorted|] == sorted;
    return Ok((row0, row1));
  }

  /** The loop appending `line[0]` of every line to `systems`. */
  method CollectSystems(sysObs: seq<seq<string>>) returns (r: Result<seq<string>>)
    ensures r == FirstTokens(sysObs)
  {
    var systems: seq<string> := [];
    for k := 0 to |sysObs|
      invariant FirstTokens(sysObs[..k]) == Ok(systems)
    {
      assert sysObs[..k + 1][..k] == sysObs[..k];
      if sysObs[k] == [] {
        assert FirstTokens(sysObs).Err?;
        return Err(IndexError);
      }
      systems := systems + [sysObs[k][0]];
    }
    assert sysObs[..|sysObs|] == sysObs;
    return Ok(systems);
  }

  /** The inner loop: `system` once per observable in the first row, the
      observables in the second. */
  method AppendPairs(row0: seq<string>, row1: seq<string>, system: string, net: seq<string>)
    returns (row0': seq<string>, row1': seq<string>)
    ensures row0' == row0 + Copies(system, |net|) && row1' == row1 + net
  {
    row0', row1' := row0, row1;
    for j := 0 to |net|
      invariant row0' == row0 + Copies(system, j)
      invariant row1' == row1 + net[..j]
    {
      row0' := row0' + [system];
      row1' := row1' + [net[j]];
      assert net[..j + 1] == net[..j] + [net[j]];
    }
    assert net[..|net|] == net;
  }

  // ---------------------------------------------------------------------
  // obs_by_sys and the result of get_R3_observables.

  /** `obs_by_sys[system[0]] = system[2:]` for every line in order: a later
      line of the same system replaces an earlier one. */
  function ObsBySys(sysObs: seq<seq<string>>): (r: map<string, seq<string>>)
    requires forall k :: 0 <= k < |sysObs| ==> sysObs[k] != []
    ensures forall c :: c in r <==> exists k :: 0 <= k < |sysObs| && sysObs[k][0] == c
  {
    if sysObs == [] then map[]
    else
      var init := sysObs[..|sysObs| - 1];
      var last := sysObs[|sysObs| - 1];
      assert forall k :: 0 <= k < |init| ==> init[k] == sysObs[k];
      ObsBySys(init)[last[0] := FromThird(last)]
  }

  /** The entry of a system is `line[2:]` of its last line. */
  lemma {:induction false} ObsBySysLast(sysObs: seq<seq<string>>, k: nat)
    requires forall i :: 0 <= i < |sysObs| ==> sysObs[i] != []
    requires k < |sysObs| && forall j :: k < j < |sysObs| ==> sysObs[j][0] != sysObs[k][0]
    ensures sysObs[k][0] in ObsBySys(sysObs) && ObsBySys(sysObs)[sysObs[k][0]] == FromThird(sysObs[k])
  {
    var init := sysObs[..|sysObs| - 1];
    if k < |init| {
      assert forall j :: k < j < |init| ==> init[j] == sysObs[j];
      ObsBySysLast(init, k);
      assert sysObs[|sysObs| - 1][0] != sysObs[k][0];
    }
  }

  /** The dictionary loop. */
  method BuildObsBySys(sysObs: seq<seq<string>>) returns (obsBySys: map<string, seq<string>>)
    requires forall k :: 0 <= k < |sysObs| ==> sysObs[k] != []
    ensures obsBySys == ObsBySys(sysObs)
  {
    obsBySys := map[];
    for k := 0 to |sysObs|
      invariant obsBySys == ObsBySys(sysObs[..k])
    {
      assert sysObs[..k + 1][..k] == sysObs[..k];
      obsBySys := obsBySys[sysObs[k][0] := FromThird(sysObs[k])];
    }
    assert sysObs[..|sysObs|] == sysObs;
  }

  /** The four results of `get_R3_observables`; the last is the pair
      `[start_time, interval]`. */
  datatype R3Observables = R3Observables(
    obsBySys: map<string, seq<string>>,
    netObservables: seq<string>,
    multiindex: (seq<string>, seq<string>),
    startTime: string,
    interval: string)

  /** `get_R3_observables(header_lines)`: the errors of the header loop,
      then IndexError from `get_R3_multiindex` for an observation-type line
      without fields, then NameError when there was no start time or no
      interval line. */
  function R3ObservablesOf(lines: seq<string>, dateAccepted: string -> bool): (r: Result<R3Observables>)
  {
    var scan :- ScanLines(lines, dateAccepted);
    var net := Sort(NetOf(scan.sysObs));
    var index :- MultiindexOf(scan.sysObs, net);
    if scan.startTime.None? || scan.interval.None? then Err(NameError)
    else Ok(R3Observables(ObsBySys(scan.sysObs), net, index, scan.startTime.value, scan.interval.value))
  }

  /** When the header loop succeeds, the function fails exactly when an
      observation-type line has no fields, with IndexError, or else when
      no line gives the start time or none gives the interval, with
      NameError. */
  lemma R3ObservablesErrors(lines: seq<string>, dateAccepted: string -> bool)
    requires ScanLines(lines, dateAccepted).Ok?
    ensures
      var sysObs := ScanLines(lines, dateAccepted).value.sysObs;
      var r := R3ObservablesOf(lines, dateAccepted);
      && ((exists k :: 0 <= k < |sysObs| && sysObs[k] == []) ==> r == Err(IndexError))
      && ((forall k :: 0 <= k < |sysObs| ==> sysObs[k] != []) ==>
            (r == Err(NameError) <==>
               (forall i :: 0 <= i < |lines| ==> !IsFirstObsLine(lines[i])) ||
               (forall i :: 0 <= i < |lines| ==> !IsIntervalLine(lines[i]))))
  {
    ScanLinesFound(lines, dateAccepted);
  }

  /** A result is built from the successful header loop. */
  lemma R3ObservablesShape(lines: seq<string>, dateAccepted: string -> bool)
    requires R3ObservablesOf(lines, dateAccepted).Ok?
    ensures ScanLines(lines, dateAccepted).Ok?
    ensures
      var sysObs := ScanLines(lines, dateAccepted).value.sysObs;
      && (forall k :: 0 <= k < |sysObs| ==> sysObs[k] != [])
      && R3ObservablesOf(lines, dateAccepted).value.netObservables == Sort(NetOf(sysObs))
      && R3ObservablesOf(lines, dateAccepted).value.obsBySys == ObsBySys(sysObs)
  {
    var scan := ScanLines(lines, dateAccepted).value;
    var net := Sort(NetOf(scan.sysObs));
    var index := MultiindexOf(scan.sysObs, net);
    assert index.Ok?;
    assert R3ObservablesOf(lines, dateAccepted) ==
      Ok(R3Observables(ObsBySys(scan.sysObs), net, index.value, scan.startTime.value, scan.interval.value));
  }

  /** The net observables of a result are exactly the observables listed
      on the `SYS / # / OBS TYPES` lines, sorted and each once. */
  lemma R3ObservablesNet(lines: seq<string>, dateAccepted: string -> bool)
    requires R3ObservablesOf(lines, dateAccepted).Ok?
    ensures
      var net := R3ObservablesOf(lines, dateAccepted).value.netObservables;
      var obs := ObservablesOf(lines);
      && Sorted(net) && Distinct(net)
      && forall o :: o in net <==> exists k :: 0 <= k < |obs| && o in FromThird(Split(obs[k]))
  {
    R3ObservablesShape(lines, dateAccepted);
    var sysObs := ScanLines(lines, dateAccepted).value.sysObs;
    var obs := ObservablesOf(lines);
    ScanLinesSysObs(lines, dateAccepted);
    NetObservablesSortedDistinct(sysObs);
  }

  /** The dictionary of a result has a key for exactly the systems named
      first on the `SYS / # / OBS TYPES` lines. */
  lemma R3ObservablesSystems(lines: seq<string>, dateAccepted: string -> bool)
    requires R3ObservablesOf(lines, dateAccepted).Ok?
    ensures
      var d := R3ObservablesOf(lines, dateAccepted).value.obsBySys;
      var obs := ObservablesOf(lines);
      forall c :: c in d <==> exists k :: 0 <= k < |obs| && Split(obs[k]) != [] && Split(obs[k])[0] == c
  {
    R3ObservablesShape(lines, dateAccepted);
    var sysObs := ScanLines(lines, dateAccepted).value.sysObs;
    var obs := ObservablesOf(lines);
    ScanLinesSysObs(lines, dateAccepted);
  }

  /** The header loop of `get_R3_observables`. */
  method ScanHeaderLines(lines: seq<string>, dateAccepted: string -> bool) returns (r: Result<HeaderScan>)
    ensures r == ScanLines(lines, dateAccepted)
  {
    var s := HeaderScan([], None, None);
    for i := 0 to |lines|
      invariant ScanLines(lines[..i], dateAccepted) == Ok(s)
    {
      assert lines[..i + 1][..i] == lines[..i];
      var next := ScanLine(s, lines[i], dateAccepted);
      if next.Err? {
        ScanLinesStops(lines, i, dateAccepted);
        return Err(next.error);
      }
      s := next.value;
    }
    assert lines[..|lines|] == lines;
    return Ok(s);
  }

  /** An error at line `i` is the error of the whole loop. */
  lemma {:induction false} ScanLinesStops(lines: seq<string>, i: nat, dateAccepted: string -> bool)
    requires i < |lines| && ScanLines(lines[..i + 1], dateAccepted).Err?
    ensures ScanLines(lines, dateAccepted) == ScanLines(lines[..i + 1], dateAccepted)
    decreases |lines|
  {
    if i + 1 < |lines| {
      var init := lines[..|lines| - 1];
      assert init[..i + 1] == lines[..i + 1];
      ScanLinesStops(init, i, dateAccepted);
    } else {
      assert lines[..i + 1] == lines;
    }
  }

  /** `get_R3_observables`: the header loop, the net observables, the
      multiindex and the dictionary. */
  method GetR3Observables(lines: seq<string>, dateAccepted: string -> bool) returns (r: Result<R3Observables>)
    ensures r == R3ObservablesOf(lines, dateAccepted)
  {
    var scan := ScanHeaderLines(lines, dateAccepted);
    if scan.Err? {
      return Err(scan.error);
    }
    var sysObs := scan.value.sysObs;
    var net := NetObservables(sysObs);
    var index := GetR3Multiindex(sysObs, net);
    if index.Err? {
      return Err(index.error);
    }
    var obsBySys := BuildObsBySys(sysObs);
    if scan.value.startTime.None? || scan.value.interval.None? {
      return Err(NameError);
    }
    return Ok(R3Observables(obsBySys, net, index.value, scan.value.startTime.value, scan.value.interval.value));
  }
}
