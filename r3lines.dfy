/** Line-level pieces shared by the RINEX 3 cleaning scripts
    (rinex3_blank_obs_removal.py, rinex302_classes.py, rinexlib.py): the
    epoch partition of `create_epochs_list` / `get_R3_epochs`, written three
    times in the source with the same code, the `SYS / # / OBS TYPES` header
    lines, the system identifier table, and the scan for `END OF HEADER`. */
module R3Lines {
  import opened Outcomes
  import opened PyText
  import opened Seqs

  // ---------------------------------------------------------------------
  // Epochs: every `>` line opens an epoch.

  /** `line.startswith('>')`. */
  predicate IsMarker(l: string) {
    StartsWith(l, ">")
  }

  /** The number of epoch lines. */
  function Markers(lines: seq<string>): nat {
    if lines == [] then 0
    else Markers(lines[..|lines| - 1]) + (if IsMarker(lines[|lines| - 1]) then 1 else 0)
  }

  /** The list of lists kept by `create_epochs_list` before its final
      `pop()`: one list per epoch line seen, plus the open list at the end.
      An epoch line goes into the open list (index `counter`), which then
      becomes an epoch, and a new open list is appended. Any other line goes
      to index `counter - 1`, the latest epoch; before the first epoch line
      that index is -1, which Python reads as the last list, the open one. */
  function Partition(lines: seq<string>): (p: seq<seq<string>>)
    ensures |p| == Markers(lines) + 1
  {
    if lines == [] then [[]]
    else
      var p := Partition(lines[..|lines| - 1]);
      var l := lines[|lines| - 1];
      var counter := |p| - 1;
      if IsMarker(l) then p[counter := p[counter] + [l]] + [[]]
      else
        var k := if counter - 1 >= 0 then counter - 1 else |p| + (counter - 1);
        p[k := p[k] + [l]]
  }

  /** `create_epochs_list(lines)`: the partition without the open list. */
  function EpochsOf(lines: seq<string>): (e: seq<seq<string>>)
    ensures |e| == Markers(lines)
  {
    var p := Partition(lines);
    p[..|p| - 1]
  }

  /** `create_epochs_list` (rinex3_blank_obs_removal.py), the nested
      function of `RINEX_302_Object.__init__` and `get_R3_epochs`. */
  method CreateEpochsList(lines: seq<string>) returns (epochs: seq<seq<string>>)
    ensures epochs == EpochsOf(lines)
  {
    var counter := 0;
    var lists: seq<seq<string>> := [[]];
    for i := 0 to |lines|
      invariant lists == Partition(lines[..i])
      invariant counter == |lists| - 1
    {
      var line := lines[i];
      assert lines[..i + 1][..i] == lines[..i];
      if StartsWith(line, ">") {
        lists := lists[counter := lists[counter] + [line]];
        counter := counter + 1;
        lists := lists + [[]];
      } else {
        var k := if counter - 1 >= 0 then counter - 1 else |lists| + (counter - 1);
        lists := lists[k := lists[k] + [line]];
      }
    }
    assert lines[..|lines|] == lines;
    epochs := lists[..|lists| - 1];
  }

  lemma MarkersSnoc(s: seq<string>, l: string)
    ensures Markers(s + [l]) == Markers(s) + (if IsMarker(l) then 1 else 0)
  {
    assert (s + [l])[..|s|] == s;
  }

  /** A list that starts with an epoch line holds at least one. */
  lemma {:induction false} MarkersFirst(s: seq<string>)
    requires s != [] && IsMarker(s[0])
    ensures Markers(s) >= 1
  {
    if |s| > 1 {
      var init := s[..|s| - 1];
      assert init[0] == s[0];
      MarkersFirst(init);
    }
  }

  /** A list with one epoch line that starts with it has no other. */
  lemma {:induction false} OnlyMarkerFirst(s: seq<string>)
    requires s != [] && IsMarker(s[0]) && Markers(s) == 1
    ensures forall j :: 1 <= j < |s| ==> !IsMarker(s[j])
  {
    if |s| > 1 {
      var init := s[..|s| - 1];
      assert init[0] == s[0];
      MarkersFirst(init);
      OnlyMarkerFirst(init);
      assert forall j :: 1 <= j < |s| - 1 ==> s[j] == init[j];
    }
  }

  /** The open list holds every line while no epoch line has been seen,
      and nothing once one has. */
  lemma {:induction false} PartitionOpen(lines: seq<string>)
    ensures var p := Partition(lines);
      p[|p| - 1] == if Markers(lines) == 0 then lines else []
  {
    if lines != [] {
      var init := lines[..|lines| - 1];
      PartitionOpen(init);
      assert lines == init + [lines[|lines| - 1]];
    }
  }

  /** The lists before the last hold exactly one epoch line each, and all
      but the first start with it. */
  predicate ClosedLists(p: seq<seq<string>>) {
    && (forall k :: 0 <= k < |p| - 1 ==> Markers(p[k]) == 1)
    && (forall k :: 1 <= k < |p| - 1 ==> p[k] != [] && IsMarker(p[k][0]))
  }

  /** The lists before the open one are the epochs. */
  lemma {:induction false} PartitionClosed(lines: seq<string>)
    ensures ClosedLists(Partition(lines))
  {
    if lines != [] {
      var init := lines[..|lines| - 1];
      var l := lines[|lines| - 1];
      var q := Partition(init);
      PartitionClosed(init);
      PartitionOpen(init);
      if IsMarker(l) {
        assert Partition(lines) == q[|q| - 1 := q[|q| - 1] + [l]] + [[]];
        ClosedMarkerStep(q, l, Markers(init) == 0);
      } else if |q| >= 2 {
        assert Partition(lines) == q[|q| - 2 := q[|q| - 2] + [l]];
        ClosedLineStep(q, l);
      } else {
        assert |Partition(lines)| == 1;
      }
    }
  }

  /** An epoch line closes the open list. */
  lemma ClosedMarkerStep(q: seq<seq<string>>, l: string, first: bool)
    requires q != [] && ClosedLists(q) && IsMarker(l)
    requires first ==> Markers(q[|q| - 1]) == 0 && |q| == 1
    requires !first ==> q[|q| - 1] == [] && |q| >= 2
    ensures ClosedLists(q[|q| - 1 := q[|q| - 1] + [l]] + [[]])
  {
    var c := |q| - 1;
    var r := q[c := q[c] + [l]] + [[]];
    MarkersSnoc(q[c], l);
    if !first {
      assert q[c] + [l] == [l];
    }
    assert Markers(r[c]) == 1;
    forall k | 0 <= k < |r| - 1
      ensures Markers(r[k]) == 1
    {
      if k < c {
        assert r[k] == q[k];
      }
    }
    forall k | 1 <= k < |r| - 1
      ensures r[k] != [] && IsMarker(r[k][0])
    {
      if k < c {
        assert r[k] == q[k];
      } else {
        assert r[k] == [l];
      }
    }
  }

  /** Another line extends the latest epoch. */
  lemma ClosedLineStep(q: seq<seq<string>>, l: string)
    requires |q| >= 2 && ClosedLists(q) && !IsMarker(l)
    ensures ClosedLists(q[|q| - 2 := q[|q| - 2] + [l]])
  {
    var c := |q| - 1;
    MarkersSnoc(q[c - 1], l);
    if c - 1 >= 1 {
      assert (q[c - 1] + [l])[0] == q[c - 1][0];
    }
  }

  /** The partition, concatenated, is the input. */
  lemma {:induction false} PartitionFlatten(lines: seq<string>)
    ensures Flatten(Partition(lines)) == lines
  {
    if lines == [] {
      var open: seq<seq<string>> := [[]];
      assert Flatten(open) == Flatten(open[..0]) + open[0];
    } else {
      var init := lines[..|lines| - 1];
      var l := lines[|lines| - 1];
      var q := Partition(init);
      PartitionFlatten(init);
      PartitionOpen(init);
      if IsMarker(l) {
        assert Partition(lines) == q[|q| - 1 := q[|q| - 1] + [l]] + [[]];
        FlattenOpenStep(q, l);
      } else if |q| >= 2 {
        assert Partition(lines) == q[|q| - 2 := q[|q| - 2] + [l]];
        FlattenClosedStep(q, l);
      } else {
        assert Partition(lines) == q[|q| - 1 := q[|q| - 1] + [l]];
        FlattenExtendLast(q, [l]);
      }
      assert lines == init + [l];
    }
  }

  /** An epoch line closes the open list and opens a new, empty one. */
  lemma FlattenOpenStep(q: seq<seq<string>>, l: string)
    requires q != []
    ensures Flatten(q[|q| - 1 := q[|q| - 1] + [l]] + [[]]) == Flatten(q) + [l]
  {
    FlattenExtendLast(q, [l]);
    FlattenAppend(q[|q| - 1 := q[|q| - 1] + [l]], []);
  }

  /** Another line extends the latest epoch, in front of the empty open
      list. */
  lemma FlattenClosedStep(q: seq<seq<string>>, l: string)
    requires |q| >= 2 && q[|q| - 1] == []
    ensures Flatten(q[|q| - 2 := q[|q| - 2] + [l]]) == Flatten(q) + [l]
  {
    var c := |q| - 1;
    var closed := q[..c];
    assert q == closed + [[]];
    assert q[c - 1 := q[c - 1] + [l]] == closed[c - 1 := closed[c - 1] + [l]] + [[]];
    FlattenAppend(closed, []);
    FlattenAppend(closed[c - 1 := closed[c - 1] + [l]], []);
    FlattenExtendLast(closed, [l]);
  }

  lemma MarkedNonEmpty(s: seq<string>)
    requires Markers(s) >= 1
    ensures s != []
  {
  }

  lemma FlattenInitLast(p: seq<seq<string>>)
    requires p != []
    ensures Flatten(p) == Flatten(p[..|p| - 1]) + p[|p| - 1]
  {
  }

  lemma FlattenFirst(ss: seq<seq<string>>)
    requires ss != [] && ss[0] != []
    ensures Flatten(ss) != [] && Flatten(ss)[0] == ss[0][0]
  {
    assert ss == [ss[0]] + ss[1..];
    FlattenConcat([ss[0]], ss[1..]);
    FlattenAppend([], ss[0]);
    assert [] + [ss[0]] == [ss[0]];
  }

  /** `create_epochs_list` returns one epoch per epoch line, each holding
      exactly one epoch line. */
  lemma EpochsCount(lines: seq<string>)
    ensures |EpochsOf(lines)| == Markers(lines)
    ensures forall k :: 0 <= k < |EpochsOf(lines)| ==> EpochsOf(lines)[k] != [] && Markers(EpochsOf(lines)[k]) == 1
  {
    var p := Partition(lines);
    PartitionClosed(lines);
    forall k | 0 <= k < |EpochsOf(lines)|
      ensures EpochsOf(lines)[k] != [] && Markers(EpochsOf(lines)[k]) == 1
    {
      assert EpochsOf(lines)[k] == p[k];
      assert Markers(p[k]) == 1;
      MarkedNonEmpty(p[k]);
    }
  }

  /** The epochs, concatenated, are the input, except that lines are lost
      when there is no epoch line at all. */
  lemma EpochsFlatten(lines: seq<string>)
    ensures Flatten(EpochsOf(lines)) == if Markers(lines) == 0 then [] else lines
  {
    var p := Partition(lines);
    PartitionFlatten(lines);
    PartitionOpen(lines);
    FlattenInitLast(p);
  }

  /** When the first line is an epoch line, every epoch begins with its one
      and only epoch line. */
  lemma EpochsStart(lines: seq<string>)
    requires lines != [] && IsMarker(lines[0])
    ensures forall k :: 0 <= k < |EpochsOf(lines)| ==>
      var e := EpochsOf(lines)[k];
      e != [] && IsMarker(e[0]) && forall j :: 1 <= j < |e| ==> !IsMarker(e[j])
  {
    var p := Partition(lines);
    var e := EpochsOf(lines);
    MarkersFirst(lines);
    PartitionClosed(lines);
    PartitionFlatten(lines);
    assert p[0] != [] by {
      assert Markers(p[0]) == 1;
    }
    FlattenFirst(p);
    forall k | 0 <= k < |e|
      ensures e[k] != [] && IsMarker(e[k][0]) && forall j :: 1 <= j < |e[k]| ==> !IsMarker(e[k][j])
    {
      assert e[k] == p[k];
      OnlyMarkerFirst(p[k]);
    }
  }

  // ---------------------------------------------------------------------
  // Header lines.

  /** The label of the header lines listing observation types. */
  const SysTypesLabel := "SYS / # / OBS TYPES"

  /** `line.startswith('SYS / # / OBS TYPES', 60)`. */
  predicate IsSysLine(l: string) {
    StartsWithAt(l, SysTypesLabel, 60)
  }

  /** `line[:60]` of every `SYS / # / OBS TYPES` line, in order. */
  function ObservablesOf(lines: seq<string>): (r: seq<string>)
    ensures |r| <= |lines|
    ensures forall i :: 0 <= i < |r| ==> |r[i]| == 60
  {
    if lines == [] then []
    else
      var l := lines[|lines| - 1];
      ObservablesOf(lines[..|lines| - 1]) + (if IsSysLine(l) then [Take(l, 60)] else [])
  }

  /** The observables of two runs of lines are those of each, in order. */
  lemma {:induction false} ObservablesConcat(a: seq<string>, b: seq<string>)
    ensures ObservablesOf(a + b) == ObservablesOf(a) + ObservablesOf(b)
    decreases |b|
  {
    if b == [] {
      assert a + b == a;
    } else {
      var b' := b[..|b| - 1];
      assert (a + b)[..|a + b| - 1] == a + b';
      ObservablesConcat(a, b');
    }
  }

  /** One line contributes its first 60 columns when it is a
      `SYS / # / OBS TYPES` line, and nothing otherwise. */
  lemma ObservablesOne(l: string)
    ensures ObservablesOf([l]) == if IsSysLine(l) then [l[..60]] else []
  {
    assert [l][..0] == [];
  }

  /** The loop of `find_observables`. */
  method FindObservables(lines: seq<string>) returns (observables: seq<string>)
    ensures observables == ObservablesOf(lines)
  {
    observables := [];
    for i := 0 to |lines|
      invariant observables == ObservablesOf(lines[..i])
    {
      assert lines[..i + 1][..i] == lines[..i];
      var line := lines[i];
      if StartsWithAt(line, SysTypesLabel, 60) {
        observables := observables + [line[..60]];
      }
    }
    assert lines[..|lines|] == lines;
  }

  // ---------------------------------------------------------------------
  // Satellite systems.

  /** `SYSTEM_IDENTIFIERS`: the six constellations a RINEX 3 file names. */
  function SystemName(c: char): (r: Option<string>)
    ensures r.Some? <==> c in "GRSECJ"
  {
    match c
    case 'G' => Some("GPS")
    case 'R' => Some("GLONASS")
    case 'S' => Some("SBAS payload")
    case 'E' => Some("Galileo")
    case 'C' => Some("BeiDou")
    case 'J' => Some("QZSS")
    case _ => None
  }

  /** Different identifiers name different constellations. */
  lemma SystemNamesDistinct(a: char, b: char)
    requires SystemName(a).Some? && SystemName(a) == SystemName(b)
    ensures a == b
  {
  }

  /** `satellite_systems()`: each system's name, in order; an identifier
      missing from the table raises KeyError. */
  method SatelliteSystems(systems: seq<char>) returns (r: Result<seq<string>>)
    ensures r.Err? <==> exists i :: 0 <= i < |systems| && SystemName(systems[i]).None?
    ensures r.Err? ==> r.error == KeyError
    ensures r.Ok? ==> |r.value| == |systems|
    ensures r.Ok? ==> forall i :: 0 <= i < |systems| ==> SystemName(systems[i]) == Some(r.value[i])
  {
    var constellations := [];
    for i := 0 to |systems|
      invariant |constellations| == i
      invariant forall j :: 0 <= j < i ==> SystemName(systems[j]) == Some(constellations[j])
    {
      var name := SystemName(systems[i]);
      if name.None? {
        return Err(KeyError);
      }
      constellations := constellations + [name.value];
    }
    return Ok(constellations);
  }

  /** The index of the first line starting with `system`, or the number of
      lines when none does. */
  function FirstWithPrefix(lines: seq<string>, system: string): (n: nat)
    ensures n <= |lines|
    ensures n < |lines| ==> StartsWith(lines[n], system)
    ensures forall j :: 0 <= j < n ==> !StartsWith(lines[j], system)
  {
    if lines == [] then 0
    else if StartsWith(lines[0], system) then 0
    else 1 + FirstWithPrefix(lines[1..], system)
  }

  /** The first line starting with `system` is the one no earlier line
      matches. */
  lemma FirstWithPrefixIs(lines: seq<string>, system: string, i: nat)
    requires i < |lines| && StartsWith(lines[i], system)
    requires forall j :: 0 <= j < i ==> !StartsWith(lines[j], system)
    ensures FirstWithPrefix(lines, system) == i
  {
  }

  /** `sys_observables(system)`: the whitespace tokens of columns 8-60 of
      the first observable line starting with `system`; `None` when the
      loop ends without a return. */
  method SysObservables(observables: seq<string>, system: string) returns (r: Option<seq<string>>)
    ensures r.None? <==> forall j :: 0 <= j < |observables| ==> !StartsWith(observables[j], system)
    ensures r.Some? ==> r.value == Split(Slice(observables[FirstWithPrefix(observables, system)], 7, 60))
  {
    for i := 0 to |observables|
      invariant forall j :: 0 <= j < i ==> !StartsWith(observables[j], system)
    {
      var line := observables[i];
      if StartsWith(line, system) {
        FirstWithPrefixIs(observables, system, i);
        return Some(Split(Slice(line, 7, 60)));
      }
    }
    return None;
  }

  // ---------------------------------------------------------------------
  // The end of the header, as the cleaning scripts find it.

  /** `'END OF HEADER' in line`, on the line as read. */
  predicate HasHeaderEnd(l: string) {
    Contains(l, "END OF HEADER")
  }

  /** The index of the first line holding `END OF HEADER`, or the number of
      lines when none does. */
  function HeaderEnd(lines: seq<string>): (n: nat)
    ensures n <= |lines|
    ensures n < |lines| ==> HasHeaderEnd(lines[n])
    ensures forall j :: 0 <= j < n ==> !HasHeaderEnd(lines[j])
  {
    if lines == [] then 0
    else if HasHeaderEnd(lines[0]) then 0
    else 1 + HeaderEnd(lines[1..])
  }

  /** Length of the header `split_file` (rinex302_classes.py) and `split_header_data` gather: up to and including the
      first line holding `END OF HEADER`, or every line when none does. */
  function HeaderLength(lines: seq<string>): (n: nat)
    ensures n <= |lines|
    ensures n < |lines| <==> HeaderEnd(lines) + 1 < |lines|
    ensures 0 < n ==> (n == |lines| || HasHeaderEnd(lines[n - 1]))
    ensures forall j :: 0 <= j < n - 1 ==> !HasHeaderEnd(lines[j])
  {
    if HeaderEnd(lines) < |lines| then HeaderEnd(lines) + 1 else |lines|
  }

  /** The first line holding `END OF HEADER` is the one no earlier line
      holds. */
  lemma HeaderEndIs(lines: seq<string>, i: nat)
    requires i <= |lines|
    requires i < |lines| ==> HasHeaderEnd(lines[i])
    requires forall j :: 0 <= j < i ==> !HasHeaderEnd(lines[j])
    ensures HeaderEnd(lines) == i
  {
  }

  /** The `enumerate` loop of both `split_file`s: every line up to and including
      the first holding `END OF HEADER`, and that line's index; with no such
      line, every line and no index. */
  method ScanHeader(lines: seq<string>) returns (headerLines: seq<string>, headerEndLine: Option<nat>)
    ensures headerEndLine.None? <==> HeaderEnd(lines) == |lines|
    ensures headerEndLine.None? ==> headerLines == lines
    ensures headerEndLine.Some? ==> headerEndLine.value == HeaderEnd(lines) && headerLines == lines[..HeaderEnd(lines) + 1]
  {
    headerLines := [];
    headerEndLine := None;
    var i := 0;
    while i < |lines|
      invariant 0 <= i <= |lines|
      invariant headerLines == lines[..i]
      invariant forall j :: 0 <= j < i ==> !HasHeaderEnd(lines[j])
    {
      headerLines := headerLines + [lines[i]];
      if Contains(lines[i], "END OF HEADER") {
        HeaderEndIs(lines, i);
        headerEndLine := Some(i);
        return;
      }
      i := i + 1;
    }
    HeaderEndIs(lines, |lines|);
    assert headerLines == lines;
  }

  /** The loop appending `lines[start:]` to a new list. */
  method CopyFrom(lines: seq<string>, start: nat) returns (copy: seq<string>)
    requires start <= |lines|
    ensures copy == lines[start..]
  {
    copy := [];
    for k := start to |lines|
      invariant copy == lines[start..k]
    {
      copy := copy + [lines[k]];
    }
  }

  /** Every line of every epoch is a line of the input. */
  lemma {:induction false} PartitionElements(lines: seq<string>)
    ensures forall k, j :: 0 <= k < |Partition(lines)| && 0 <= j < |Partition(lines)[k]| ==> Partition(lines)[k][j] in lines
  {
    if lines != [] {
      var init := lines[..|lines| - 1];
      PartitionElements(init);
      var q := Partition(init);
      var p := Partition(lines);
      forall k, j | 0 <= k < |p| && 0 <= j < |p[k]|
        ensures p[k][j] in lines
      {
        if k < |q| && j < |q[k]| {
          assert p[k][j] == q[k][j];
          assert q[k][j] in init;
        } else {
          assert p[k][j] == lines[|lines| - 1];
        }
      }
    }
  }

  lemma EpochsElements(lines: seq<string>)
    ensures forall k, j :: 0 <= k < |EpochsOf(lines)| && 0 <= j < |EpochsOf(lines)[k]| ==> EpochsOf(lines)[k][j] in lines
  {
    PartitionElements(lines);
    var p := Partition(lines);
    assert forall k :: 0 <= k < |EpochsOf(lines)| ==> EpochsOf(lines)[k] == p[k];
  }
}
