/** rinex302_classes.py: a RINEX 3.02 file as its header and a list of
    epoch records, with `clean_epochs`, which drops the observation lines of
    satellite systems the header does not announce and rewrites each epoch's
    satellite count. The caller passes the lines `readlines` returns. */
module Rinex302 {
  import opened Outcomes
  import opened PyText
  import opened Seqs
  import opened StringOrder
  import opened R3Lines

  // ---------------------------------------------------------------------
  // Epoch records.

  /** An epoch line with `count` written over columns 34-35:
      `head_line[:33] + count + head_line[35:]`. */
  function WithCount(headLine: string, count: string): (r: string)
    ensures |r| == |Take(headLine, 33)| + |count| + |Drop(headLine, 35)|
  {
    Take(headLine, 33) + count + Drop(headLine, 35)
  }

  /** On an epoch line of at least 33 characters the first 33 are kept and
      the count follows them; from column 36 on, the line is kept. */
  lemma WithCountReads(headLine: string, count: string)
    requires |headLine| >= 33
    ensures Take(WithCount(headLine, count), 33) == headLine[..33]
    ensures Slice(WithCount(headLine, count), 33, 33 + |count|) == count
    ensures Drop(WithCount(headLine, count), 33 + |count|) == Drop(headLine, 35)
  {
    var r := WithCount(headLine, count);
    assert r[..33] == headLine[..33];
    assert r[33..33 + |count|] == count;
    assert r[33 + |count|..] == Drop(headLine, 35);
  }

  /** A two-character count keeps the line's length and reads back as
      `num_obs_reported()`; writing it a second time changes nothing. */
  lemma WithCountTwoDigits(headLine: string, count: string)
    requires |headLine| >= 35 && |count| == 2
    ensures |WithCount(headLine, count)| == |headLine|
    ensures Slice(WithCount(headLine, count), 33, 35) == count
    ensures WithCount(WithCount(headLine, count), count) == WithCount(headLine, count)
  {
    var r := WithCount(headLine, count);
    WithCountReads(headLine, count);
    assert r[..33] == headLine[..33];
    assert r[35..] == headLine[35..];
    WithCountReads(r, count);
    assert WithCount(r, count) == r[..33] + count + r[35..];
  }

  /** A one-character count shortens the line by one column: what stood
      from column 36 on moves left. */
  lemma WithCountOneDigit(headLine: string, count: string)
    requires |headLine| >= 35 && |count| == 1
    ensures |WithCount(headLine, count)| == |headLine| - 1
    ensures WithCount(headLine, count)[34..] == headLine[35..]
  {
  }

  /** An `R302_Epoch_Record`: the epoch line and the observation lines
      after it. */
  class EpochRecord {
    var headLine: string
    var data: seq<string>

    /** The lines go into a deque, the first is popped off as the epoch
        line and the rest become the data. Popping an empty deque raises
        IndexError; every epoch `create_epochs_list` builds from a body has
        at least one line. */
    constructor (lines: seq<string>)
      requires lines != []
      ensures headLine == lines[0] && data == lines[1..]
    {
      var dequeData: seq<string> := [];
      for i := 0 to |lines|
        invariant dequeData == lines[..i]
      {
        dequeData := dequeData + [lines[i]];
      }
      headLine := dequeData[0];
      data := dequeData[1..];
    }

    /** `flag()`: column 32 of the epoch line. */
    function Flag(): (r: Result<char>)
      reads this
      ensures r.Ok? <==> |headLine| > 31
      ensures r.Err? ==> r.error == IndexError
      ensures r.Ok? ==> r.value == headLine[31]
    {
      if |headLine| <= 31 then Err(IndexError) else Ok(headLine[31])
    }

    /** `num_obs_actual()`: the number of observation lines in decimal. */
    function NumObsActual(): (r: string)
      reads this
      ensures ParseInt(r) == Some(|data|)
      ensures |r| == 2 <==> 10 <= |data| < 100
    {
      IntOfNatToString(|data|);
      NatToString(|data|)
    }

    /** `num_obs_reported()`: columns 34-35 of the epoch line. */
    function NumObsReported(): (r: string)
      reads this
      ensures |r| <= 2
      ensures |headLine| >= 35 ==> r == headLine[33..35]
    {
      Slice(headLine, 33, 35)
    }

    /** `time_stamp()`: columns 3-29 of the epoch line. */
    function TimeStamp(): (r: string)
      reads this
      ensures |r| <= 27
      ensures |headLine| >= 29 ==> r == headLine[2..29]
    {
      Slice(headLine, 2, 29)
    }

    /** `update_num_obs(num_obs)`; `str` of a string is the string. */
    method UpdateNumObs(numObs: string)
      modifies this
      ensures headLine == WithCount(old(headLine), numObs)
      ensures data == old(data)
    {
      headLine := Take(headLine, 33) + numObs + Drop(headLine, 35);
    }

    /** `update_obs(lines)`. */
    method UpdateObs(lines: seq<string>)
      modifies this
      ensures data == lines
      ensures headLine == old(headLine)
    {
      data := lines;
    }
  }

  /** The epoch line and data of each record, in order: what `write()`
      returns for each. */
  function EpochValues(records: seq<EpochRecord>): (r: seq<(string, seq<string>)>)
    reads records
    ensures |r| == |records|
    ensures forall k :: 0 <= k < |records| ==> r[k] == (records[k].headLine, records[k].data)
  {
    if records == [] then []
    else
      var last := records[|records| - 1];
      EpochValues(records[..|records| - 1]) + [(last.headLine, last.data)]
  }

  // ---------------------------------------------------------------------
  // The file object.

  /** `create_sys_obs_dict`: for each observable line, its system character
      maps to the tokens from column 8 on; a later line of the same system
      replaces an earlier one, and one with no tokens removes the entry. */
  function SysObsDictOf(observables: seq<string>): (d: map<char, seq<string>>)
    requires forall i :: 0 <= i < |observables| ==> observables[i] != []
    ensures forall c :: c in d ==> d[c] != []
  {
    if observables == [] then map[]
    else
      var d := SysObsDictOf(observables[..|observables| - 1]);
      var o := observables[|observables| - 1];
      var tokens := Split(Drop(o, 7));
      if tokens == [] then d - {o[0]} else d[o[0] := tokens]
  }

  /** The index of the last line starting with `c`. */
  function LastOfSystem(observables: seq<string>, c: char): (r: Option<nat>)
    ensures r.Some? ==> r.value < |observables| && StartsWith(observables[r.value], [c])
    ensures r.Some? ==> forall j :: r.value < j < |observables| ==> !StartsWith(observables[j], [c])
    ensures r.None? ==> forall j :: 0 <= j < |observables| ==> !StartsWith(observables[j], [c])
  {
    if observables == [] then None
    else if StartsWith(observables[|observables| - 1], [c]) then Some(|observables| - 1)
    else LastOfSystem(observables[..|observables| - 1], c)
  }

  /** A system is in the dictionary exactly when its last observable line
      has tokens from column 8 on, and then it maps to those tokens. */
  lemma {:induction false} SysObsDictLast(observables: seq<string>, c: char)
    requires forall i :: 0 <= i < |observables| ==> observables[i] != []
    ensures c in SysObsDictOf(observables) <==>
      LastOfSystem(observables, c).Some? && Split(Drop(observables[LastOfSystem(observables, c).value], 7)) != []
    ensures c in SysObsDictOf(observables) ==>
      SysObsDictOf(observables)[c] == Split(Drop(observables[LastOfSystem(observables, c).value], 7))
  {
    if observables != [] {
      var o := observables[|observables| - 1];
      if o[0] == c {
        SysObsDictLastIs(observables, c);
      } else {
        var init := observables[..|observables| - 1];
        SysObsDictLast(init, c);
        SysObsDictLastBefore(observables, c);
      }
    }
  }

  /** The last line is the system's last line. */
  lemma SysObsDictLastIs(observables: seq<string>, c: char)
    requires observables != [] && NonEmptyLines(observables)
    requires observables[|observables| - 1][0] == c
    ensures LastOfSystem(observables, c) == Some(|observables| - 1)
    ensures c in SysObsDictOf(observables) <==> Split(Drop(observables[|observables| - 1], 7)) != []
    ensures c in SysObsDictOf(observables) ==> SysObsDictOf(observables)[c] == Split(Drop(observables[|observables| - 1], 7))
  {
    assert StartsWith(observables[|observables| - 1], [c]);
  }

  /** A last line of another system changes neither the system's entry nor
      its last line. */
  lemma SysObsDictLastBefore(observables: seq<string>, c: char)
    requires observables != [] && NonEmptyLines(observables)
    requires observables[|observables| - 1][0] != c
    ensures NonEmptyLines(observables[..|observables| - 1])
    ensures LastOfSystem(observables, c) == LastOfSystem(observables[..|observables| - 1], c)
    ensures c in SysObsDictOf(observables) <==> c in SysObsDictOf(observables[..|observables| - 1])
    ensures c in SysObsDictOf(observables) ==> SysObsDictOf(observables)[c] == SysObsDictOf(observables[..|observables| - 1])[c]
    ensures LastOfSystem(observables, c).Some? ==>
      observables[LastOfSystem(observables, c).value] == observables[..|observables| - 1][LastOfSystem(observables, c).value]
  {
    assert !StartsWith(observables[|observables| - 1], [c]);
  }

  /** `write()`'s list: the header list, then each epoch line followed by
      that epoch's observation lines. */
  datatype Item = HeaderLines(lines: seq<string>) | Line(text: string)

  function Written(header: seq<string>, epochs: seq<(string, seq<string>)>): (r: seq<Item>)
  {
    if epochs == [] then [HeaderLines(header)]
    else
      var last := epochs[|epochs| - 1];
      Written(header, epochs[..|epochs| - 1]) + [Line(last.0)] + Lines(last.1)
  }

  /** One `Line` item per string. */
  function Lines(ls: seq<string>): (r: seq<Item>)
    ensures |r| == |ls| && forall i :: 0 <= i < |ls| ==> r[i] == Line(ls[i])
  {
    if ls == [] then [] else Lines(ls[..|ls| - 1]) + [Line(ls[|ls| - 1])]
  }

  /** The strings `writelines` puts in the file for the items: the header
      list line by line, and each string as it is. */
  function ItemsText(items: seq<Item>): (r: seq<string>)
  {
    if items == [] then []
    else
      var last := items[|items| - 1];
      ItemsText(items[..|items| - 1]) + (match last case HeaderLines(ls) => ls case Line(t) => [t])
  }

  lemma {:induction false} ItemsTextConcat(a: seq<Item>, b: seq<Item>)
    ensures ItemsText(a + b) == ItemsText(a) + ItemsText(b)
    decreases |b|
  {
    if b == [] {
      assert a + b == a;
    } else {
      var b' := b[..|b| - 1];
      assert (a + b)[..|a + b| - 1] == a + b';
      ItemsTextConcat(a, b');
    }
  }

  lemma {:induction false} ItemsTextLines(ls: seq<string>)
    ensures ItemsText(Lines(ls)) == ls
  {
    if ls != [] {
      var init := ls[..|ls| - 1];
      ItemsTextLines(init);
      ItemsTextConcat(Lines(init), [Line(ls[|ls| - 1])]);
      assert ItemsText([Line(ls[|ls| - 1])]) == [ls[|ls| - 1]];
    }
  }

  /** The file `write_new_file` writes holds the header, then each epoch
      line and its observation lines. */
  lemma {:induction false} WrittenText(header: seq<string>, epochs: seq<(string, seq<string>)>)
    ensures ItemsText(Written(header, epochs)) == header + Flatten(EpochLists(epochs))
  {
    if epochs == [] {
      assert ItemsText([HeaderLines(header)]) == ItemsText([]) + header;
    } else {
      var init := epochs[..|epochs| - 1];
      var last := epochs[|epochs| - 1];
      var w := Written(header, init);
      var e := [last.0] + last.1;
      calc {
        ItemsText(Written(header, epochs));
        ItemsText((w + [Line(last.0)]) + Lines(last.1));
        { ItemsTextConcat(w + [Line(last.0)], Lines(last.1)); }
        ItemsText(w + [Line(last.0)]) + ItemsText(Lines(last.1));
        { ItemsTextConcat(w, [Line(last.0)]);
          assert ItemsText([Line(last.0)]) == ItemsText([]) + [last.0];
          ItemsTextLines(last.1); }
        ItemsText(w) + [last.0] + last.1;
        { WrittenText(header, init); }
        header + Flatten(EpochLists(init)) + [last.0] + last.1;
        header + (Flatten(EpochLists(init)) + e);
        { EpochListsSnoc(epochs); FlattenAppend(EpochLists(init), e); }
        header + Flatten(EpochLists(epochs));
      }
    }
  }

  lemma EpochListsSnoc(epochs: seq<(string, seq<string>)>)
    requires epochs != []
    ensures EpochLists(epochs) == EpochLists(epochs[..|epochs| - 1]) + [[epochs[|epochs| - 1].0] + epochs[|epochs| - 1].1]
  {
  }

  /** Each epoch as one list: its epoch line, then its observation lines. */
  function EpochLists(epochs: seq<(string, seq<string>)>): (r: seq<seq<string>>)
    ensures |r| == |epochs|
    ensures forall k :: 0 <= k < |epochs| ==> r[k] == [epochs[k].0] + epochs[k].1
  {
    if epochs == [] then [] else EpochLists(epochs[..|epochs| - 1]) + [[epochs[|epochs| - 1].0] + epochs[|epochs| - 1].1]
  }

  /** Writing a file as it was read gives back its lines, except that a
      body without any epoch line is lost. The split point is any index,
      `HeaderLength(lines)` among them. */
  lemma WriteAfterSplit(lines: seq<string>, n: nat, epochs: seq<(string, seq<string>)>)
    requires n <= |lines|
    requires |epochs| == |EpochsOf(lines[n..])|
    requires forall k :: 0 <= k < |epochs| ==> [epochs[k].0] + epochs[k].1 == EpochsOf(lines[n..])[k]
    ensures ItemsText(Written(lines[..n], epochs)) == if Markers(lines[n..]) == 0 then lines[..n] else lines
  {
    var header, body := lines[..n], lines[n..];
    WrittenBody(header, body, epochs);
    if Markers(body) == 0 {
      assert header + [] == header;
    } else {
      assert header + body == lines;
    }
  }

  /** The text written for a header and the epochs of a body. */
  lemma WrittenBody(header: seq<string>, body: seq<string>, epochs: seq<(string, seq<string>)>)
    requires |epochs| == |EpochsOf(body)|
    requires forall k :: 0 <= k < |epochs| ==> [epochs[k].0] + epochs[k].1 == EpochsOf(body)[k]
    ensures ItemsText(Written(header, epochs)) == header + if Markers(body) == 0 then [] else body
  {
    WrittenText(header, epochs);
    EpochListsAre(epochs, EpochsOf(body));
    EpochsFlatten(body);
  }

  lemma EpochListsAre(epochs: seq<(string, seq<string>)>, lists: seq<seq<string>>)
    requires |epochs| == |lists|
    requires forall k :: 0 <= k < |epochs| ==> [epochs[k].0] + epochs[k].1 == lists[k]
    ensures EpochLists(epochs) == lists
  {
  }

  /** The observation lines `clean_epochs` keeps: those whose system
      character is a key of the dictionary. */
  function Announced(dict: map<char, seq<string>>): string -> bool {
    (o: string) => o != [] && o[0] in dict
  }

  /** One record as `clean_epochs` leaves it. */
  function Cleaned(record: (string, seq<string>), dict: map<char, seq<string>>): (r: (string, seq<string>))
  {
    var kept := Filter(record.1, Announced(dict));
    (WithCount(record.0, NatToString(|kept|)), kept)
  }

  /** A cleaned record keeps exactly the announced lines in their order,
      and on an epoch line of at least 33 characters its count slot now
      reads as the number of lines kept. */
  lemma CleanedCount(record: (string, seq<string>), dict: map<char, seq<string>>)
    requires |record.0| >= 33
    ensures var r := Cleaned(record, dict);
      ParseInt(Slice(r.0, 33, 33 + |NatToString(|r.1|)|)) == Some(|r.1|)
    ensures forall i :: 0 <= i < |Cleaned(record, dict).1| ==> Cleaned(record, dict).1[i] in record.1
    ensures forall i :: 0 <= i < |record.1| && Announced(dict)(record.1[i]) ==> record.1[i] in Cleaned(record, dict).1
    ensures forall i :: 0 <= i < |Cleaned(record, dict).1| ==> Announced(dict)(Cleaned(record, dict).1[i])
  {
    var kept := Filter(record.1, Announced(dict));
    WithCountReads(record.0, NatToString(|kept|));
    IntOfNatToString(|kept|);
  }

  /** Cleaning twice keeps the same lines as cleaning once; the epoch line
      is also unchanged when the count has two digits. */
  lemma CleanedTwice(record: (string, seq<string>), dict: map<char, seq<string>>)
    ensures Cleaned(Cleaned(record, dict), dict).1 == Cleaned(record, dict).1
    ensures |record.0| >= 35 && 10 <= |Cleaned(record, dict).1| < 100 ==>
      Cleaned(Cleaned(record, dict), dict) == Cleaned(record, dict)
  {
    var kept := Filter(record.1, Announced(dict));
    FilterIdempotent(record.1, Announced(dict));
    if |record.0| >= 35 && 10 <= |kept| < 100 {
      WithCountTwoDigits(record.0, NatToString(|kept|));
    }
  }

  /** A `RINEX_302_Object`. */
  class Rinex302Object {
    var data: seq<string>
    var index: int
    var header: seq<string>
    var observations: seq<EpochRecord>
    var observables: seq<string>
    var systems: seq<char>
    var sysObsDict: map<char, seq<string>>

    /** Distinct records whose observation lines are non-empty, as lines
        from `readlines` always are. */
    ghost predicate Valid()
      reads this, observations
    {
      && (forall i, j :: 0 <= i < j < |observations| ==> observations[i] != observations[j])
      && (forall k :: 0 <= k < |observations| ==> NonEmptyLines(observations[k].data))
    }

    /** `__init__` after `readlines`: `split_file`, `find_observables` (the
        observable lines sorted), the system characters, and
        `create_sys_obs_dict`. */
    constructor (lines: seq<string>)
      requires lines != [] && NonEmptyLines(lines)
      ensures data == lines && index == |lines|
      ensures header == lines[..HeaderLength(lines)]
      ensures |observations| == |EpochsOf(lines[HeaderLength(lines)..])|
      ensures forall k :: 0 <= k < |observations| ==>
        [observations[k].headLine] + observations[k].data == EpochsOf(lines[HeaderLength(lines)..])[k]
      ensures observables == Sort(ObservablesOf(lines[..HeaderLength(lines)]))
      ensures forall i :: 0 <= i < |observables| ==> |observables[i]| == 60
      ensures |systems| == |observables| && forall i :: 0 <= i < |systems| ==> systems[i] == observables[i][0]
      ensures sysObsDict == SysObsDictOf(observables)
      ensures forall k :: 0 <= k < |observations| ==> fresh(observations[k])
      ensures Valid()
    {
      var h, records, obs, sys, dict := LoadFile(lines);
      data, index, header, observations, observables, systems, sysObsDict := lines, |lines|, h, records, obs, sys, dict;
    }

    /** `RINEX_302_Object(file_name)` for a file whose `readlines` gives
        `lines`. With no lines at all, `index` in `split_file` is never
        bound and reading it raises NameError. */
    static method Open(lines: seq<string>) returns (r: Result<Rinex302Object>)
      requires NonEmptyLines(lines)
      ensures r.Err? <==> lines == []
      ensures r.Err? ==> r.error == NameError
      ensures r.Ok? ==> fresh(r.value) && r.value.Valid() && r.value.data == lines
    {
      if lines == [] {
        return Err(NameError);
      }
      var o := new Rinex302Object(lines);
      return Ok(o);
    }

    /** `len()`. */
    function Len(): (n: nat)
      reads this
      ensures n == |data|
    {
      |data|
    }

    /** `satellite_systems()`: the name of each system; KeyError on a
        character outside the table. */
    method SatelliteSystemNames() returns (r: Result<seq<string>>)
      ensures r.Err? <==> exists i :: 0 <= i < |systems| && SystemName(systems[i]).None?
      ensures r.Err? ==> r.error == KeyError
      ensures r.Ok? ==> |r.value| == |systems| && forall i :: 0 <= i < |systems| ==> SystemName(systems[i]) == Some(r.value[i])
    {
      r := SatelliteSystems(systems);
    }

    /** `sys_observables(system)` over the sorted observable lines. */
    method SysObservablesOf(system: string) returns (r: Option<seq<string>>)
      ensures r.None? <==> forall j :: 0 <= j < |observables| ==> !StartsWith(observables[j], system)
      ensures r.Some? ==> r.value == Split(Slice(observables[FirstWithPrefix(observables, system)], 7, 60))
    {
      r := SysObservables(observables, system);
    }

    /** `write()`. */
    method Write() returns (writing: seq<Item>)
      ensures writing == Written(header, EpochValues(observations))
    {
      writing := [HeaderLines(header)];
      for i := 0 to |observations|
        invariant writing == Written(header, EpochValues(observations[..i]))
      {
        var epoch := observations[i];
        EpochValuesPrefix(observations, i);
        WrittenSnoc(header, EpochValues(observations[..i]), (epoch.headLine, epoch.data));
        writing := writing + [Line(epoch.headLine)];
        writing := AppendLines(writing, epoch.data);
      }
      assert observations[..|observations|] == observations;
    }
  }

  /** The values `__init__` stores, computed in its order. */
  method LoadFile(lines: seq<string>) returns (header: seq<string>, records: seq<EpochRecord>,
      observables: seq<string>, systems: seq<char>, sysObsDict: map<char, seq<string>>)
    requires lines != [] && NonEmptyLines(lines)
    ensures header == lines[..HeaderLength(lines)]
    ensures |records| == |EpochsOf(lines[HeaderLength(lines)..])|
    ensures forall k :: 0 <= k < |records| ==>
      [records[k].headLine] + records[k].data == EpochsOf(lines[HeaderLength(lines)..])[k]
    ensures forall k :: 0 <= k < |records| ==> fresh(records[k])
    ensures forall i, j :: 0 <= i < j < |records| ==> records[i] != records[j]
    ensures forall k :: 0 <= k < |records| ==> NonEmptyLines(records[k].data)
    ensures observables == Sort(ObservablesOf(lines[..HeaderLength(lines)]))
    ensures forall i :: 0 <= i < |observables| ==> |observables[i]| == 60
    ensures |systems| == |observables| && forall i :: 0 <= i < |systems| ==> systems[i] == observables[i][0]
    ensures sysObsDict == SysObsDictOf(observables)
  {
    header, records := SplitFile(lines);
    observables := FindSortedObservables(header);
    systems := FirstChars(observables);
    sysObsDict := CreateSysObsDict(observables);
  }

  lemma EpochValuesPrefix(records: seq<EpochRecord>, i: nat)
    requires i < |records|
    ensures EpochValues(records[..i + 1]) == EpochValues(records[..i]) + [(records[i].headLine, records[i].data)]
  {
    assert records[..i + 1][..i] == records[..i];
  }

  lemma WrittenSnoc(header: seq<string>, epochs: seq<(string, seq<string>)>, e: (string, seq<string>))
    ensures Written(header, epochs + [e]) == Written(header, epochs) + [Line(e.0)] + Lines(e.1)
  {
    assert (epochs + [e])[..|epochs|] == epochs;
  }

  predicate NonEmptyLines(ls: seq<string>) {
    forall i :: 0 <= i < |ls| ==> ls[i] != []
  }

  /** The inner loop of `write()`: each observation line appended. */
  method AppendLines(writing: seq<Item>, ls: seq<string>) returns (r: seq<Item>)
    ensures r == writing + Lines(ls)
  {
    r := writing;
    for i := 0 to |ls|
      invariant r == writing + Lines(ls[..i])
    {
      assert ls[..i + 1][..i] == ls[..i];
      r := r + [Line(ls[i])];
    }
    assert ls[..|ls|] == ls;
  }

  /** `split_file` for lines with at least one line: the header lines and a
      new record for every epoch of the lines after it. When no line holds
      `END OF HEADER`, the loop ends on the last line and nothing follows
      it. */
  method SplitFile(lines: seq<string>) returns (header: seq<string>, records: seq<EpochRecord>)
    requires lines != [] && NonEmptyLines(lines)
    ensures header == lines[..HeaderLength(lines)]
    ensures |records| == |EpochsOf(lines[HeaderLength(lines)..])|
    ensures forall k :: 0 <= k < |records| ==>
      [records[k].headLine] + records[k].data == EpochsOf(lines[HeaderLength(lines)..])[k]
    ensures forall k :: 0 <= k < |records| ==> fresh(records[k])
    ensures forall i, j :: 0 <= i < j < |records| ==> records[i] != records[j]
    ensures forall k :: 0 <= k < |records| ==> NonEmptyLines(records[k].data)
  {
    var headerEnd: Option<nat>;
    header, headerEnd := ScanHeader(lines);
    var index := if headerEnd.Some? then headerEnd.value else |lines| - 1;
    var epochsLines := CopyFrom(lines, index + 1);
    assert epochsLines == lines[HeaderLength(lines)..];
    var epochs := CreateEpochsList(epochsLines);
    EpochsCount(epochsLines);
    EpochsElements(epochsLines);
    records := NewRecords(epochs, epochsLines);
  }

  /** The `R302_Epoch_Record` of each epoch, each a new object. */
  method NewRecords(epochs: seq<seq<string>>, body: seq<string>) returns (records: seq<EpochRecord>)
    requires NonEmptyLines(body)
    requires forall k :: 0 <= k < |epochs| ==> epochs[k] != []
    requires forall k, j :: 0 <= k < |epochs| && 0 <= j < |epochs[k]| ==> epochs[k][j] in body
    ensures |records| == |epochs|
    ensures forall k :: 0 <= k < |records| ==> [records[k].headLine] + records[k].data == epochs[k]
    ensures forall k :: 0 <= k < |records| ==> fresh(records[k])
    ensures forall i, j :: 0 <= i < j < |records| ==> records[i] != records[j]
    ensures forall k :: 0 <= k < |records| ==> NonEmptyLines(records[k].data)
  {
    records := [];
    for k := 0 to |epochs|
      invariant |records| == k
      invariant forall j :: 0 <= j < k ==> fresh(records[j])
      invariant forall j :: 0 <= j < k ==> [records[j].headLine] + records[j].data == epochs[j]
      invariant forall i, j :: 0 <= i < j < k ==> records[i] != records[j]
      invariant forall j :: 0 <= j < k ==> NonEmptyLines(records[j].data)
    {
      var r := new EpochRecord(epochs[k]);
      assert [r.headLine] + r.data == epochs[k];
      forall j | 0 <= j < |r.data|
        ensures r.data[j] != []
      {
        assert r.data[j] == epochs[k][j + 1];
        assert epochs[k][j + 1] in body;
      }
      records := records + [r];
    }
  }

  /** `find_observables`: the observable lines of the header, sorted. */
  method FindSortedObservables(header: seq<string>) returns (observables: seq<string>)
    ensures observables == Sort(ObservablesOf(header))
    ensures Sorted(observables) && multiset(observables) == multiset(ObservablesOf(header))
    ensures forall i :: 0 <= i < |observables| ==> |observables[i]| == 60
  {
    var found := FindObservables(header);
    observables := Sort(found);
    forall i | 0 <= i < |observables|
      ensures |observables[i]| == 60
    {
      assert observables[i] in multiset(found);
    }
  }

  /** `[obs[0] for obs in self.observables]`. */
  method FirstChars(observables: seq<string>) returns (systems: seq<char>)
    requires NonEmptyLines(observables)
    ensures |systems| == |observables|
    ensures forall i :: 0 <= i < |systems| ==> systems[i] == observables[i][0]
  {
    systems := [];
    for i := 0 to |observables|
      invariant |systems| == i
      invariant forall j :: 0 <= j < i ==> systems[j] == observables[j][0]
    {
      systems := systems + [observables[i][0]];
    }
  }

  /** `create_sys_obs_dict`. */
  method CreateSysObsDict(observables: seq<string>) returns (sysObs: map<char, seq<string>>)
    requires NonEmptyLines(observables)
    ensures sysObs == SysObsDictOf(observables)
  {
    sysObs := map[];
    for i := 0 to |observables|
      invariant sysObs == SysObsDictOf(observables[..i])
    {
      var obs := observables[i];
      SysObsDictStep(observables, i);
      ghost var before := sysObs;
      sysObs := sysObs[obs[0] := Split(Drop(obs, 7))];
      if sysObs[obs[0]] == [] {
        sysObs := sysObs - {obs[0]};
        assert sysObs == before - {obs[0]};
      }
    }
    assert observables[..|observables|] == observables;
  }

  /** The loop of `clean_epochs` over one epoch's observation lines. */
  method KeepAnnounced(lines: seq<string>, dict: map<char, seq<string>>) returns (kept: seq<string>)
    requires NonEmptyLines(lines)
    ensures kept == Filter(lines, Announced(dict))
  {
    kept := [];
    for i := 0 to |lines|
      invariant kept == Filter(lines[..i], Announced(dict))
    {
      var observation := lines[i];
      assert lines[..i + 1] == lines[..i] + [observation];
      FilterSnoc(lines[..i], observation, Announced(dict));
      if observation[0] in dict {
        kept := kept + [observation];
      }
    }
    assert lines[..|lines|] == lines;
  }

  /** `clean_epochs(rinex_obj)`: every record becomes its `Cleaned` form;
      nothing else changes. */
  method CleanEpochs(obj: Rinex302Object)
    requires obj.Valid()
    modifies obj.observations
    ensures obj.Valid()
    ensures forall k :: 0 <= k < |obj.observations| ==>
      (obj.observations[k].headLine, obj.observations[k].data) ==
        Cleaned((old(obj.observations[k].headLine), old(obj.observations[k].data)), obj.sysObsDict)
  {
    var records := obj.observations;
    var dict := obj.sysObsDict;
    for i := 0 to |records|
      invariant forall k :: 0 <= k < i ==>
        (records[k].headLine, records[k].data) == Cleaned((old(records[k].headLine), old(records[k].data)), dict)
      invariant forall k :: i <= k < |records| ==>
        records[k].headLine == old(records[k].headLine) && records[k].data == old(records[k].data)
      invariant forall k :: 0 <= k < |records| ==> NonEmptyLines(records[k].data)
    {
      CleanRecord(records[i], dict);
    }
  }

  /** The body of `clean_epochs`' loop for one epoch. */
  method CleanRecord(epoch: EpochRecord, dict: map<char, seq<string>>)
    requires NonEmptyLines(epoch.data)
    modifies epoch
    ensures (epoch.headLine, epoch.data) == Cleaned((old(epoch.headLine), old(epoch.data)), dict)
    ensures NonEmptyLines(epoch.data)
  {
    var cleanedEpochs := KeepAnnounced(epoch.data, dict);
    CleanedLinesNonEmpty(epoch.data, dict);
    epoch.UpdateObs(cleanedEpochs);
    var n := epoch.NumObsActual();
    epoch.UpdateNumObs(n);
  }

  lemma CleanedLinesNonEmpty(lines: seq<string>, dict: map<char, seq<string>>)
    ensures NonEmptyLines(Filter(lines, Announced(dict)))
  {
  }
  /** One step of `create_sys_obs_dict`'s loop. */
  lemma SysObsDictStep(observables: seq<string>, i: nat)
    requires i < |observables| && NonEmptyLines(observables)
    ensures NonEmptyLines(observables[..i]) && NonEmptyLines(observables[..i + 1])
    ensures SysObsDictOf(observables[..i + 1]) ==
      if Split(Drop(observables[i], 7)) == [] then SysObsDictOf(observables[..i]) - {observables[i][0]}
      else SysObsDictOf(observables[..i])[observables[i][0] := Split(Drop(observables[i], 7))]
  {
    assert observables[..i + 1][..i] == observables[..i];
  }
}
