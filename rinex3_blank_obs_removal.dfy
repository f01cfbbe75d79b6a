/** rinex3_blank_obs_removal.py: a RINEX 3 file as an `R3_Header` and a
    list of `R3_Epoch`s, with the header's observation-type lines and
    satellite systems. Reading the file is left to the caller, which passes
    the lines `readlines` returns. */
module BlankObsRemoval {
  import opened Outcomes
  import opened PyText
  import opened R3Lines

  /** An `R3_Header`. `index` is `len(self.data)` taken before the lines are
      copied in, so it is always 0. */
  datatype R3Header = R3Header(data: seq<string>, index: int, allObservables: seq<string>, systems: seq<char>)

  /** `h` is the header `R3_Header(lines)` builds: the lines themselves,
      the first 60 columns of each `SYS / # / OBS TYPES` line in order, and
      the system character opening each of those. */
  predicate IsHeaderOf(h: R3Header, lines: seq<string>) {
    && h.data == lines
    && h.index == 0
    && h.allObservables == ObservablesOf(lines)
    && |h.systems| == |h.allObservables|
    && forall i :: 0 <= i < |h.systems| ==> h.systems[i] == h.allObservables[i][0]
  }

  /** `R3_Header.__init__` with its nested `find_observables` and
      `satellite_systems`. */
  method NewR3Header(lines: seq<string>) returns (h: R3Header)
    ensures IsHeaderOf(h, lines)
  {
    var data := [];
    var index := |data|;
    for i := 0 to |lines|
      invariant data == lines[..i]
    {
      data := data + [lines[i]];
    }
    assert data == lines;
    var observables := FindObservables(data);
    var systems := [];
    for i := 0 to |observables|
      invariant |systems| == i
      invariant forall j :: 0 <= j < i ==> systems[j] == observables[j][0]
    {
      systems := systems + [observables[i][0]];
    }
    h := R3Header(data, index, observables, systems);
  }

  /** Every header line is kept, and an observable line belongs to a system
      exactly when its line starts with that system's character. */
  lemma HeaderSystems(h: R3Header, lines: seq<string>, c: char)
    requires IsHeaderOf(h, lines)
    ensures c in h.systems <==> exists i :: 0 <= i < |h.allObservables| && StartsWith(h.allObservables[i], [c])
  {
    if c in h.systems {
      var i :| 0 <= i < |h.systems| && h.systems[i] == c;
      assert StartsWith(h.allObservables[i], [c]);
    }
    if exists i :: 0 <= i < |h.allObservables| && StartsWith(h.allObservables[i], [c]) {
      var i :| 0 <= i < |h.allObservables| && StartsWith(h.allObservables[i], [c]);
      assert h.systems[i] == c;
    }
  }

  /** An `R3_Epoch`: the lines of one epoch. */
  datatype R3Epoch = R3Epoch(data: seq<string>)

  /** `epoch_header()`: the first line when it is an epoch line; otherwise
      an error message is printed and the call returns `None`. Indexing an
      empty epoch or an empty first line raises IndexError. */
  function EpochHeader(e: R3Epoch): (r: Result<Option<string>>)
    ensures r.Err? <==> e.data == [] || e.data[0] == []
    ensures r.Err? ==> r.error == IndexError
    ensures r.Ok? ==> (r.value.Some? <==> IsMarker(e.data[0]))
    ensures r.Ok? && r.value.Some? ==> r.value.value == e.data[0]
  {
    if |e.data| == 0 || |e.data[0]| == 0 then Err(IndexError)
    else if e.data[0][0] == '>' then Ok(Some(e.data[0]))
    else Ok(None)
  }

  /** `name()`: columns 3-29 of the first line, the epoch time. */
  function Name(e: R3Epoch): (r: Result<string>)
    ensures r.Ok? <==> e.data != []
    ensures r.Err? ==> r.error == IndexError
    ensures r.Ok? ==> |r.value| <= 27 && (|e.data[0]| >= 29 ==> r.value == e.data[0][2..29])
  {
    if |e.data| == 0 then Err(IndexError) else Ok(Slice(e.data[0], 2, 29))
  }

  /** `flag()`: column 32 of the first line, the epoch flag. */
  function Flag(e: R3Epoch): (r: Result<char>)
    ensures r.Ok? <==> e.data != [] && |e.data[0]| > 31
    ensures r.Err? ==> r.error == IndexError
    ensures r.Ok? ==> r.value == e.data[0][31]
  {
    if |e.data| == 0 || |e.data[0]| <= 31 then Err(IndexError) else Ok(e.data[0][31])
  }

  /** `num_sats()`: columns 34-35 of the first line, the satellite count. */
  function NumSats(e: R3Epoch): (r: Result<string>)
    ensures r.Ok? <==> e.data != []
    ensures r.Err? ==> r.error == IndexError
    ensures r.Ok? ==> |r.value| <= 2 && (|e.data[0]| >= 35 ==> r.value == e.data[0][33..35])
  {
    if |e.data| == 0 then Err(IndexError) else Ok(Slice(e.data[0], 33, 35))
  }

  /** An `R3_Single_Obs`: one observation line. */
  datatype R3SingleObs = R3SingleObs(data: string)

  /** `sat_sys()`: the satellite system character opening the line. */
  function SatSys(o: R3SingleObs): (r: Result<char>)
    ensures r.Ok? <==> o.data != []
    ensures r.Err? ==> r.error == IndexError
    ensures r.Ok? ==> StartsWith(o.data, [r.value])
  {
    if |o.data| == 0 then Err(IndexError) else Ok(o.data[0])
  }

  /** `split_file` on the lines of a file: the header is every line up to
      and including the first one holding `END OF HEADER`, and the epochs
      are built from the lines after it. Without such a line,
      `header_end_line` is never bound and reading it raises NameError. */
  method SplitFile(lines: seq<string>) returns (r: Result<(R3Header, seq<R3Epoch>)>)
    ensures r.Err? <==> HeaderEnd(lines) == |lines|
    ensures r.Err? ==> r.error == NameError
    ensures r.Ok? ==> IsHeaderOf(r.value.0, lines[..HeaderEnd(lines) + 1])
    ensures r.Ok? ==> IsEpochsOf(r.value.1, lines[HeaderEnd(lines) + 1..])
  {
    var headerLines, headerEndLine := ScanHeader(lines);
    if headerEndLine.None? {
      return Err(NameError);
    }
    var n := headerEndLine.value;
    var epochsLines := CopyFrom(lines, n + 1);
    var epochs := EpochsFrom(epochsLines);
    var header := NewR3Header(headerLines);
    return Ok((header, epochs));
  }

  /** `epochs` are the `R3_Epoch`s of the epochs of `body`, in order. */
  predicate IsEpochsOf(epochs: seq<R3Epoch>, body: seq<string>) {
    && |epochs| == |EpochsOf(body)|
    && forall k :: 0 <= k < |epochs| ==> epochs[k].data == EpochsOf(body)[k]
  }

  /** `create_epochs_list` followed by one `R3_Epoch` per list. */
  method EpochsFrom(body: seq<string>) returns (epochs: seq<R3Epoch>)
    ensures IsEpochsOf(epochs, body)
  {
    var epochsList := CreateEpochsList(body);
    epochs := [];
    for k := 0 to |epochsList|
      invariant |epochs| == k
      invariant forall j :: 0 <= j < k ==> epochs[j].data == epochsList[j]
    {
      epochs := epochs + [R3Epoch(epochsList[k])];
    }
  }

  /** When the body starts with an epoch line, every epoch `split_file`
      builds has its epoch line as `epoch_header()`, and no other line of it
      is one. */
  lemma SplitEpochHeaders(epochs: seq<R3Epoch>, body: seq<string>)
    requires body != [] && IsMarker(body[0])
    requires IsEpochsOf(epochs, body)
    ensures forall k :: 0 <= k < |epochs| ==>
      && epochs[k].data != []
      && EpochHeader(epochs[k]) == Ok(Some(epochs[k].data[0]))
      && forall j :: 1 <= j < |epochs[k].data| ==> !IsMarker(epochs[k].data[j])
  {
    EpochsStart(body);
    forall k | 0 <= k < |epochs|
      ensures epochs[k].data != [] && EpochHeader(epochs[k]) == Ok(Some(epochs[k].data[0]))
    {
      assert epochs[k].data == EpochsOf(body)[k];
    }
  }
}
