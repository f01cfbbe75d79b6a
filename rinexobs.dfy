/** The RINEX 3 observation header (rinexobs.py): the label-dispatched
    line parser of `ObsHeader`, the header terminator, and the loading of
    a whole observation file into header and observation store. */
module RinexObs {
  import opened Outcomes
  import opened PyText
  import opened Seqs
  import opened Epochs
  import opened Obs
  import opened Rinex

  /** The header attributes. Python creates an attribute the first time a
      line with its label is parsed; `None` is an attribute not yet set.
      The creation date keeps the text `strptime` accepted. */
  datatype Header = Header(
    version: Option<real>, fileType: Option<char>, satelliteSystem: Option<char>,
    program: Option<string>, fileAgency: Option<string>, creationDateTime: Option<string>,
    markerName: Option<string>, markerNumber: Option<string>, markerType: Option<int>,
    observer: Option<string>, observerAgency: Option<string>,
    receiverNumber: Option<string>, receiverType: Option<string>, receiverVersion: Option<string>,
    antennaNumber: Option<string>, antennaType: Option<string>,
    antennaHeight: Option<real>, antennaEccentricityE: Option<real>, antennaEccentricityN: Option<real>,
    gpsObsTypes: seq<ObsType>,
    firstObs: Option<Epoch>, lastObs: Option<Epoch>,
    approxX: Option<real>, approxY: Option<real>, approxZ: Option<real>)

  /** The header right after `self.GPSObsTypes = [ ]`. */
  const EmptyHeader := Header(
    None, None, None, None, None, None, None, None, None, None, None, None, None, None,
    None, None, None, None, None, [], None, None, None, None, None)

  /** The labels `parseline` acts on. */
  const Labels: set<string> := {
    "RINEX VERSION / TYPE", "PGM / RUN BY / DATE", "MARKER NAME", "MARKER NUMBER",
    "MARKER TYPE", "OBSERVER / AGENCY", "REC # / TYPE / VERS", "ANT # / TYPE",
    "ANTENNA: DELTA H/E/N", "SYS / # / OBS TYPES", "TIME OF FIRST OBS",
    "TIME OF LAST OBS", "APPROX POSITION XYZ"}

  /** The branch of `parseline` a stripped label selects. */
  datatype Label =
    | VersionType | ProgramRunByDate | MarkerName | MarkerNumber | MarkerType
    | ObserverAgency | ReceiverTypeVersion | AntennaType | AntennaDelta
    | SysObsTypes | TimeOfFirstObs | TimeOfLastObs | ApproxPosition | Unrecognised

  function LabelOf(key: string): (b: Label)
    ensures b == Unrecognised <==> key !in Labels
    ensures b == SysObsTypes <==> key == "SYS / # / OBS TYPES"
    ensures b == ReceiverTypeVersion <==> key == "REC # / TYPE / VERS"
    ensures b == ApproxPosition <==> key == "APPROX POSITION XYZ"
  {
    if key == "RINEX VERSION / TYPE" then VersionType
    else if key == "PGM / RUN BY / DATE" then ProgramRunByDate
    else if key == "MARKER NAME" then MarkerName
    else if key == "MARKER NUMBER" then MarkerNumber
    else if key == "MARKER TYPE" then MarkerType
    else if key == "OBSERVER / AGENCY" then ObserverAgency
    else if key == "REC # / TYPE / VERS" then ReceiverTypeVersion
    else if key == "ANT # / TYPE" then AntennaType
    else if key == "ANTENNA: DELTA H/E/N" then AntennaDelta
    else if key == "SYS / # / OBS TYPES" then SysObsTypes
    else if key == "TIME OF FIRST OBS" then TimeOfFirstObs
    else if key == "TIME OF LAST OBS" then TimeOfLastObs
    else if key == "APPROX POSITION XYZ" then ApproxPosition
    else Unrecognised
  }

  // ---------------------------------------------------------------------
  // Conversions that can raise.

  /** `s[i]` of a string or a list, raising IndexError past the end. */
  function ItemAt<T>(s: seq<T>, i: nat): (r: Result<T>)
    ensures r.Ok? <==> i < |s|
    ensures r.Ok? ==> r.value == s[i]
    ensures r.Err? ==> r.error == IndexError
  {
    if i < |s| then Ok(s[i]) else Err(IndexError)
  }

  /** `int(s)`, raising ValueError on malformed text. */
  function Int(s: string): (r: Result<int>)
    ensures r.Ok? <==> ParseInt(s).Some?
    ensures r.Err? ==> r.error == ValueError
  {
    OrError(ParseInt(s), ValueError)
  }

  /** `float(s)`, with the parser supplied by the caller. */
  function Float(s: string, parseFloat: string -> Option<real>): (r: Result<real>)
    ensures r.Ok? <==> parseFloat(s).Some?
    ensures r.Err? ==> r.error == ValueError
  {
    OrError(parseFloat(s), ValueError)
  }

  /** The MARKER TYPE code. */
  function MarkerTypeCode(s: string): (c: int)
    ensures c == 1 <==> s == "GEODETIC"
    ensures c == 2 <==> s == "NON_GEODETIC"
    ensures c == 0 <==> s != "GEODETIC" && s != "NON_GEODETIC"
  {
    if s == "GEODETIC" then 1 else if s == "NON_GEODETIC" then 2 else 0
  }

  /** The first `n` codes of `tokens` as observation types, as the loop
      `for i in range(0, n)` builds them: the first failing index raises
      (IndexError when the tokens run out first). */
  function ObsTypesOf(tokens: seq<string>, n: int): Result<seq<ObsType>>
    decreases if n <= 0 then 0 else n
  {
    if n <= 0 then Ok([])
    else
      var prev :- ObsTypesOf(tokens, n - 1);
      var code :- ItemAt(tokens, n - 1);
      var t :- ParseObsType(code);
      Ok(prev + [t])
  }

  /** The six-column date fields and the seconds of TIME OF FIRST/LAST OBS;
      the time system in columns 44 on is passed and ignored. */
  function EpochOfColumns(data: string, parseFloat: string -> Option<real>): (r: Result<Epoch>)
    ensures r.Err? ==> r.error == ValueError
  {
    var year :- Int(Take(data, 6));
    var month :- Int(Slice(data, 6, 12));
    var day :- Int(Slice(data, 12, 18));
    var hour :- Int(Slice(data, 18, 24));
    var minute :- Int(Slice(data, 24, 30));
    var second :- Float(Slice(data, 30, 43), parseFloat);
    Ok(Epoch(year, month, day, hour, minute, second))
  }

  // ---------------------------------------------------------------------
  // `parseline`.

  /** `parseline(data, label)` on a header state: the label is stripped,
      then selects a branch. `dateAccepted` says whether
      `strptime(s, '%d-%b-%y %H:%M %Z')` accepts `s`. */
  function ApplyLine(h: Header, data: string, rawLabel: string,
                     parseFloat: string -> Option<real>, dateAccepted: string -> bool): Result<Header>
  {
    ApplyLabel(h, data, LabelOf(Strip(rawLabel)), parseFloat, dateAccepted)
  }

  /** The branch of `parseline` for label `b`. */
  function ApplyLabel(h: Header, data: string, b: Label,
                      parseFloat: string -> Option<real>, dateAccepted: string -> bool): Result<Header>
  {
    match b
    case VersionType => ApplyVersion(h, data, parseFloat)
    case ProgramRunByDate => ApplyProgram(h, data, dateAccepted)
    case MarkerName => Ok(ApplyMarkerName(h, data))
    case MarkerNumber => Ok(ApplyMarkerNumber(h, data))
    case MarkerType => Ok(ApplyMarkerType(h, data))
    case ObserverAgency => Ok(ApplyObserver(h, data))
    case ReceiverTypeVersion => Ok(ApplyReceiver(h, data))
    case AntennaType => Ok(ApplyAntennaType(h, data))
    case AntennaDelta => ApplyAntennaDelta(h, data, parseFloat)
    case SysObsTypes => ApplySys(h, data)
    case TimeOfFirstObs => ApplyObsTime(h, data, true, parseFloat)
    case TimeOfLastObs => ApplyObsTime(h, data, false, parseFloat)
    case ApproxPosition => ApplyApprox(h, data, parseFloat)
    case Unrecognised => Ok(h)
  }

  /** The `MARKER NAME` branch: the whole data part, stripped. */
  function ApplyMarkerName(h: Header, data: string): Header {
    h.(markerName := Some(Strip(data)))
  }

  /** The `MARKER NUMBER` branch: columns 1-20, stripped. */
  function ApplyMarkerNumber(h: Header, data: string): Header {
    h.(markerNumber := Some(Strip(Take(data, 20))))
  }

  /** The `MARKER TYPE` branch: the code of columns 1-20. */
  function ApplyMarkerType(h: Header, data: string): Header {
    h.(markerType := Some(MarkerTypeCode(Strip(Take(data, 20)))))
  }

  /** The `OBSERVER / AGENCY` branch: columns 1-20 and 21 on. */
  function ApplyObserver(h: Header, data: string): Header {
    h.(observer := Some(Strip(Take(data, 20))), observerAgency := Some(Strip(Drop(data, 20))))
  }

  /** The `REC # / TYPE / VERS` branch: all three fields from columns 1-20. */
  function ApplyReceiver(h: Header, data: string): Header {
    var r := Strip(Take(data, 20));
    h.(receiverNumber := Some(r), receiverType := Some(r), receiverVersion := Some(r))
  }

  /** The `ANT # / TYPE` branch: columns 1-20 and 21-40. */
  function ApplyAntennaType(h: Header, data: string): Header {
    h.(antennaNumber := Some(Strip(Take(data, 20))), antennaType := Some(Strip(Slice(data, 20, 40))))
  }

  /** The `RINEX VERSION / TYPE` branch: version in columns 1-20, file
      type in column 21, satellite system in column 41. */
  function ApplyVersion(h: Header, data: string, parseFloat: string -> Option<real>): (r: Result<Header>)
    ensures r.Ok? ==> r.value.gpsObsTypes == h.gpsObsTypes
  {
    var v :- Float(Take(data, 20), parseFloat);
    var ft :- ItemAt(data, 20);
    var ss :- ItemAt(data, 40);
    Ok(h.(version := Some(v), fileType := Some(ft), satelliteSystem := Some(ss)))
  }

  /** The `PGM / RUN BY / DATE` branch: fails when `strptime` rejects the
      date in columns 41 on. */
  function ApplyProgram(h: Header, data: string, dateAccepted: string -> bool): (r: Result<Header>)
    ensures r.Ok? ==> r.value.gpsObsTypes == h.gpsObsTypes
  {
    var date := Strip(Drop(data, 40));
    if !dateAccepted(date) then Err(ValueError)
    else
      Ok(h.(program := Some(Strip(Take(data, 20))), fileAgency := Some(Strip(Slice(data, 20, 40))),
            creationDateTime := Some(date)))
  }

  /** The `ANTENNA: DELTA H/E/N` branch: 14-column height, then east and
      north. */
  function ApplyAntennaDelta(h: Header, data: string, parseFloat: string -> Option<real>): (r: Result<Header>)
    ensures r.Ok? ==> r.value.gpsObsTypes == h.gpsObsTypes
  {
    var height :- Float(Take(data, 14), parseFloat);
    var e :- Float(Slice(data, 14, 28), parseFloat);
    var n :- Float(Drop(data, 28), parseFloat);
    Ok(h.(antennaHeight := Some(height), antennaEccentricityE := Some(e), antennaEccentricityN := Some(n)))
  }

  /** The `TIME OF FIRST OBS` (`first`) and `TIME OF LAST OBS` branches. */
  function ApplyObsTime(h: Header, data: string, first: bool, parseFloat: string -> Option<real>): (r: Result<Header>)
    ensures r.Ok? ==> r.value.gpsObsTypes == h.gpsObsTypes
  {
    var e :- EpochOfColumns(data, parseFloat);
    if first then Ok(h.(firstObs := Some(e))) else Ok(h.(lastObs := Some(e)))
  }

  /** The `SYS / # / OBS TYPES` branch: system letter in column 1, count
      in columns 4-6, codes from column 7 on. Only GPS codes are kept. */
  function ApplySys(h: Header, data: string): (r: Result<Header>)
    ensures r.Ok? ==> h.gpsObsTypes <= r.value.gpsObsTypes
    ensures r.Ok? ==> r.value == h.(gpsObsTypes := r.value.gpsObsTypes)
    ensures r.Ok? ==> data != [] && (data[0] != 'G' ==> r.value == h)
  {
    var satsys :- ItemAt(data, 0);
    var obsno :- Int(Slice(data, 3, 6));
    AddSysTypes(h, satsys, Split(Drop(data, 6)), obsno)
  }

  /** The codes of one SYS line, kept when the system is GPS. */
  function AddSysTypes(h: Header, satsys: char, tokens: seq<string>, n: int): (r: Result<Header>)
    ensures r.Ok? ==> h.gpsObsTypes <= r.value.gpsObsTypes
    ensures r.Ok? ==> r.value == h.(gpsObsTypes := r.value.gpsObsTypes)
    ensures r.Ok? && satsys != 'G' ==> r.value == h
  {
    if satsys == 'G' then
      var types :- ObsTypesOf(tokens, n);
      Ok(h.(gpsObsTypes := h.gpsObsTypes + types))
    else Ok(h)
  }

  /** The `APPROX POSITION XYZ` branch: the first three words as X, Y, Z. */
  function ApplyApprox(h: Header, data: string, parseFloat: string -> Option<real>): (r: Result<Header>)
    ensures r.Ok? ==> r.value.gpsObsTypes == h.gpsObsTypes
  {
    var split := Split(data);
    var sx :- ItemAt(split, 0);
    var x :- Float(sx, parseFloat);
    var sy :- ItemAt(split, 1);
    var y :- Float(sy, parseFloat);
    var sz :- ItemAt(split, 2);
    var z :- Float(sz, parseFloat);
    Ok(h.(approxX := Some(x), approxY := Some(y), approxZ := Some(z)))
  }

  /** One header line as `__init__` hands it over: columns 1-60 as data,
      columns 60 on as label. */
  function ApplyHeaderLine(h: Header, l: string, parseFloat: string -> Option<real>,
                           dateAccepted: string -> bool): Result<Header>
  {
    ApplyLine(h, Take(l, 60), Drop(l, 59), parseFloat, dateAccepted)
  }

  /** All header lines in order; the first line that raises aborts. */
  function ApplyHeader(h: Header, lines: seq<string>, parseFloat: string -> Option<real>,
                       dateAccepted: string -> bool): Result<Header>
  {
    if lines == [] then Ok(h)
    else
      var prev :- ApplyHeader(h, lines[..|lines| - 1], parseFloat, dateAccepted);
      ApplyHeaderLine(prev, lines[|lines| - 1], parseFloat, dateAccepted)
  }

  // ---------------------------------------------------------------------
  // Properties of `parseline`.

  /** The codes loop succeeds exactly when the first `n` tokens are there
      and well-formed. */
  lemma {:induction false} ObsTypesOfOk(tokens: seq<string>, n: int)
    ensures ObsTypesOf(tokens, n).Ok? <==>
      n <= |tokens| && forall i :: 0 <= i < n ==> ParseObsType(tokens[i]).Ok?
    decreases if n <= 0 then 0 else n
  {
    if n > 0 {
      ObsTypesOfOk(tokens, n - 1);
    }
  }

  /** On success it yields those `n` tokens parsed, in order. */
  lemma {:induction false} ObsTypesOfValue(tokens: seq<string>, n: int)
    requires ObsTypesOf(tokens, n).Ok?
    ensures |ObsTypesOf(tokens, n).value| == if n < 0 then 0 else n
    ensures forall i :: 0 <= i < |ObsTypesOf(tokens, n).value| ==>
      i < |tokens| && ParseObsType(tokens[i]).Ok? &&
      ObsTypesOf(tokens, n).value[i] == ParseObsType(tokens[i]).value
    decreases if n <= 0 then 0 else n
  {
    if n > 0 {
      var prev := ObsTypesOf(tokens, n - 1);
      ObsTypesOfValue(tokens, n - 1);
      var r := ObsTypesOf(tokens, n).value;
      assert r == prev.value + [ParseObsType(tokens[n - 1]).value];
    }
  }

  /** With every token well-formed, asking for more than there are raises
      IndexError. */
  lemma {:induction false} ObsTypesOfShort(tokens: seq<string>, n: int)
    requires n > |tokens|
    requires forall i :: 0 <= i < |tokens| ==> ParseObsType(tokens[i]).Ok?
    ensures ObsTypesOf(tokens, n) == Err(IndexError)
    decreases n
  {
    if n - 1 > |tokens| {
      ObsTypesOfShort(tokens, n - 1);
    } else {
      ObsTypesOfOk(tokens, n - 1);
    }
  }

  /** Only a GPS `SYS / # / OBS TYPES` line touches the observation types,
      and it appends to them: repeated lines accumulate. */
  lemma ApplyLabelGpsTypes(h: Header, data: string, b: Label,
                           parseFloat: string -> Option<real>, dateAccepted: string -> bool)
    ensures var r := ApplyLabel(h, data, b, parseFloat, dateAccepted);
      && (r.Ok? ==> h.gpsObsTypes <= r.value.gpsObsTypes)
      && (r.Ok? && !(b == SysObsTypes && data != [] && data[0] == 'G') ==>
          r.value.gpsObsTypes == h.gpsObsTypes)
  {
    if b != SysObsTypes {
      OtherLabelKeepsTypes(h, data, b, parseFloat, dateAccepted);
    }
  }

  /** Every branch but SYS leaves the observation types alone. */
  lemma OtherLabelKeepsTypes(h: Header, data: string, b: Label,
                             parseFloat: string -> Option<real>, dateAccepted: string -> bool)
    requires b != SysObsTypes
    ensures var r := ApplyLabel(h, data, b, parseFloat, dateAccepted);
      r.Ok? ==> r.value.gpsObsTypes == h.gpsObsTypes
  {
  }

  lemma ApplyLineGpsTypes(h: Header, data: string, rawLabel: string,
                          parseFloat: string -> Option<real>, dateAccepted: string -> bool)
    ensures var r := ApplyLine(h, data, rawLabel, parseFloat, dateAccepted);
      && (r.Ok? ==> h.gpsObsTypes <= r.value.gpsObsTypes)
      && (r.Ok? && !(Strip(rawLabel) == "SYS / # / OBS TYPES" && data != [] && data[0] == 'G') ==>
          r.value.gpsObsTypes == h.gpsObsTypes)
  {
    ApplyLabelGpsTypes(h, data, LabelOf(Strip(rawLabel)), parseFloat, dateAccepted);
  }

  /** The GPS case of the SYS branch: the codes loop over the words of
      columns 7 on, appended. */
  lemma ApplySysGps(h: Header, data: string, n: int)
    requires data != [] && data[0] == 'G'
    requires ParseInt(Slice(data, 3, 6)) == Some(n)
    ensures ApplySys(h, data) == AddSysTypes(h, 'G', Split(Drop(data, 6)), n)
  {
    assert ItemAt(data, 0) == Ok('G');
    assert Int(Slice(data, 3, 6)) == Ok(n);
  }

  /** GPS codes: the first `n` words are appended, parsed; the line
      succeeds exactly when those words are there and well-formed. */
  lemma GpsTypesAdded(h: Header, tokens: seq<string>, n: int)
    ensures var r := AddSysTypes(h, 'G', tokens, n);
      && (r.Ok? <==> n <= |tokens| && forall i :: 0 <= i < n ==> ParseObsType(tokens[i]).Ok?)
      && (r.Ok? ==> |r.value.gpsObsTypes| == |h.gpsObsTypes| + (if n < 0 then 0 else n))
      && (r.Ok? ==> forall i :: 0 <= i < n ==>
            i < |tokens| && ParseObsType(tokens[i]).Ok? &&
            r.value.gpsObsTypes[|h.gpsObsTypes| + i] == ParseObsType(tokens[i]).value)
  {
    ObsTypesOfOk(tokens, n);
    var r := AddSysTypes(h, 'G', tokens, n);
    if r.Ok? {
      var types := ObsTypesOf(tokens, n).value;
      ObsTypesOfValue(tokens, n);
      assert r.value.gpsObsTypes == h.gpsObsTypes + types;
      forall i | 0 <= i < n
        ensures r.value.gpsObsTypes[|h.gpsObsTypes| + i] == types[i]
      {
      }
    }
  }

  /** A GPS `SYS / # / OBS TYPES` line with count `n` in columns 4-6
      appends the first `n` codes of columns 7 on, and succeeds exactly
      when those codes are there and well-formed. */
  lemma GpsSysLine(h: Header, data: string, n: int)
    requires data != [] && data[0] == 'G'
    requires ParseInt(Slice(data, 3, 6)) == Some(n)
    ensures var r := ApplySys(h, data);
      var tokens := Split(Drop(data, 6));
      && (r.Ok? <==> n <= |tokens| && forall i :: 0 <= i < n ==> ParseObsType(tokens[i]).Ok?)
      && (r.Ok? ==> |r.value.gpsObsTypes| == |h.gpsObsTypes| + (if n < 0 then 0 else n))
      && (r.Ok? ==> forall i :: 0 <= i < n ==>
            i < |tokens| && ParseObsType(tokens[i]).Ok? &&
            r.value.gpsObsTypes[|h.gpsObsTypes| + i] == ParseObsType(tokens[i]).value)
  {
    ApplySysGps(h, data, n);
    GpsTypesAdded(h, Split(Drop(data, 6)), n);
  }

  /** A `SYS / # / OBS TYPES` line of another system changes nothing, once
      its count parses. */
  lemma OtherSysLine(h: Header, data: string)
    requires data != [] && data[0] != 'G'
    ensures ApplySys(h, data) == if ParseInt(Slice(data, 3, 6)).Some? then Ok(h) else Err(ValueError)
  {
  }

  /** A label outside the recognised set changes no attribute. */
  lemma UnknownLabel(h: Header, data: string, rawLabel: string,
                     parseFloat: string -> Option<real>, dateAccepted: string -> bool)
    requires Strip(rawLabel) !in Labels
    ensures ApplyLine(h, data, rawLabel, parseFloat, dateAccepted) == Ok(h)
  {
    assert LabelOf(Strip(rawLabel)) == Unrecognised;
  }

  /** `REC # / TYPE / VERS` never fails, and sets the receiver number, type
      and version all to the same text: columns 1-20, stripped. */
  lemma ReceiverFieldsAgree(h: Header, data: string, rawLabel: string,
                            parseFloat: string -> Option<real>, dateAccepted: string -> bool)
    requires Strip(rawLabel) == "REC # / TYPE / VERS"
    ensures var r := ApplyLine(h, data, rawLabel, parseFloat, dateAccepted);
      && r.Ok?
      && r.value.receiverNumber == r.value.receiverType == r.value.receiverVersion
         == Some(Strip(Take(data, 20)))
  {
    assert LabelOf(Strip(rawLabel)) == ReceiverTypeVersion;
  }

  /** With a full 60-column data part the single-column reads never raise:
      IndexError can come only from a token list that is too short. */
  lemma ApplyLabelIndexError(h: Header, data: string, b: Label,
                             parseFloat: string -> Option<real>, dateAccepted: string -> bool)
    requires |data| == 60
    ensures ApplyLabel(h, data, b, parseFloat, dateAccepted) == Err(IndexError) ==>
      b == SysObsTypes || b == ApproxPosition
  {
  }


  /** On a header line every recognised label comes with a full 60-column
      data part, so IndexError can come only from the two labels that
      index word lists. */
  lemma HeaderLineIndexError(h: Header, l: string, parseFloat: string -> Option<real>,
                             dateAccepted: string -> bool)
    ensures var r := ApplyHeaderLine(h, l, parseFloat, dateAccepted);
      r == Err(IndexError) ==>
        LabelOf(Strip(Drop(l, 59))) == SysObsTypes || LabelOf(Strip(Drop(l, 59))) == ApproxPosition
  {
    if |l| >= 60 {
      ApplyLabelIndexError(h, Take(l, 60), LabelOf(Strip(Drop(l, 59))), parseFloat, dateAccepted);
    } else {
      ShortLineIgnored(h, l, parseFloat, dateAccepted);
    }
  }

  /** A line too short to reach the label columns sets nothing. */
  lemma ShortLineIgnored(h: Header, l: string, parseFloat: string -> Option<real>,
                         dateAccepted: string -> bool)
    requires |l| < 60
    ensures ApplyHeaderLine(h, l, parseFloat, dateAccepted) == Ok(h)
  {
    NoLabelColumns(l);
    NoLabelIgnored(h, l, parseFloat, dateAccepted);
  }

  lemma NoLabelColumns(l: string)
    requires |l| < 60
    ensures Strip(Drop(l, 59)) == []
  {
    assert Drop(l, 59) == [];
  }

  lemma NoLabelIgnored(h: Header, l: string, parseFloat: string -> Option<real>,
                       dateAccepted: string -> bool)
    requires Strip(Drop(l, 59)) == []
    ensures ApplyHeaderLine(h, l, parseFloat, dateAccepted) == Ok(h)
  {
    HeaderLineLabel(h, l, parseFloat, dateAccepted);
    EmptyLabel();
    UnrecognisedKeeps(h, Take(l, 60), parseFloat, dateAccepted);
  }

  lemma UnrecognisedKeeps(h: Header, data: string, parseFloat: string -> Option<real>,
                          dateAccepted: string -> bool)
    ensures ApplyLabel(h, data, Unrecognised, parseFloat, dateAccepted) == Ok(h)
  {
  }

  /** A header line goes to the branch of its stripped label columns. */
  lemma HeaderLineLabel(h: Header, l: string, parseFloat: string -> Option<real>,
                        dateAccepted: string -> bool)
    ensures ApplyHeaderLine(h, l, parseFloat, dateAccepted) ==
            ApplyLabel(h, Take(l, 60), LabelOf(Strip(Drop(l, 59))), parseFloat, dateAccepted)
  {
  }

  lemma EmptyLabel()
    ensures LabelOf("") == Unrecognised
  {
  }

  // ---------------------------------------------------------------------
  // The terminator.

  /** `headerterminator()`: 60 blanks, the label, 6 blanks. */
  function HeaderTerminator(): (t: string)
    ensures |t| == 79
    ensures forall i :: 0 <= i < 60 ==> t[i] == ' '
    ensures t[60..73] == "END OF HEADER"
    ensures forall i :: 73 <= i < 79 ==> t[i] == ' '
  {
    RJust("", 60) + "END OF HEADER" + RJust("", 6)
  }

  /** `lstrip` removes exactly the blanks before the first non-blank. */
  lemma LStripAt(s: string, k: nat)
    requires k < |s| && !IsSpace(s[k])
    requires forall i :: 0 <= i < k ==> IsSpace(s[i])
    ensures LStrip(s) == s[k..]
  {
    var r := LStrip(s);
    if |r| > 0 {
      assert r[0] == s[|s| - |r|];
    }
  }

  /** `rstrip` removes exactly the blanks after the last non-blank. */
  lemma RStripAt(s: string, k: nat)
    requires 0 < k <= |s| && !IsSpace(s[k - 1])
    requires forall i :: k <= i < |s| ==> IsSpace(s[i])
    ensures RStrip(s) == s[..k]
  {
    var r := RStrip(s);
    if |r| > 0 {
      assert r[|r| - 1] == s[|r| - 1];
    }
  }

  lemma LStripPadded(a: nat, u: string)
    requires u != [] && !IsSpace(u[0])
    ensures LStrip(Repeat(' ', a) + u) == u
  {
    var t := Repeat(' ', a) + u;
    assert forall i :: 0 <= i < a ==> t[i] == Repeat(' ', a)[i];
    assert t[a] == u[0];
    LStripAt(t, a);
    assert t[a..] == u;
  }

  lemma RStripPadded(w: string, b: nat)
    requires w != [] && !IsSpace(w[|w| - 1])
    ensures RStrip(w + Repeat(' ', b)) == w
  {
    var u := w + Repeat(' ', b);
    assert forall i :: |w| <= i < |u| ==> u[i] == Repeat(' ', b)[i - |w|];
    assert u[|w| - 1] == w[|w| - 1];
    RStripAt(u, |w|);
    assert u[..|w|] == w;
  }

  lemma ConcatAssoc(x: string, y: string, z: string)
    ensures x + y + z == x + (y + z)
  {
  }

  /** A word without blanks at its ends, padded with blanks, strips back
      to the word. */
  lemma StripPadded(a: nat, w: string, b: nat)
    requires w != [] && !IsSpace(w[0]) && !IsSpace(w[|w| - 1])
    ensures Strip(Repeat(' ', a) + w + Repeat(' ', b)) == w
  {
    var u := w + Repeat(' ', b);
    ConcatAssoc(Repeat(' ', a), w, Repeat(' ', b));
    LStripPadded(a, u);
    RStripPadded(w, b);
  }

  /** The terminator as blanks, the label, blanks. */
  lemma TerminatorLayout()
    ensures HeaderTerminator() == Repeat(' ', 60) + "END OF HEADER" + Repeat(' ', 6)
    ensures Drop(HeaderTerminator(), 59) == Repeat(' ', 1) + "END OF HEADER" + Repeat(' ', 6)
  {
  }

  /** The terminator ends a header when read back. */
  lemma TerminatorEndsHeader()
    ensures IsTerminator(HeaderTerminator())
  {
    TerminatorLayout();
    StripPadded(60, "END OF HEADER", 6);
    assert Strip(HeaderTerminator()) == "END OF HEADER";
    ContainsItself("END OF HEADER");
  }

  lemma ContainsItself(s: string)
    ensures Contains(s, s)
  {
  }

  /** `parseline` ignores the terminator: its label sets no attribute. */
  lemma TerminatorIgnored(h: Header, parseFloat: string -> Option<real>, dateAccepted: string -> bool)
    ensures ApplyHeaderLine(h, HeaderTerminator(), parseFloat, dateAccepted) == Ok(h)
  {
    var t := HeaderTerminator();
    HeaderLineLabel(h, t, parseFloat, dateAccepted);
    TerminatorLabelColumns();
    UnrecognisedKeeps(h, Take(t, 60), parseFloat, dateAccepted);
  }

  /** The label columns of the terminator select no branch. */
  lemma TerminatorLabelColumns()
    ensures LabelOf(Strip(Drop(HeaderTerminator(), 59))) == Unrecognised
  {
    TerminatorLayout();
    StripPadded(1, "END OF HEADER", 6);
    TerminatorLabel();
  }

  lemma TerminatorLabel()
    ensures LabelOf("END OF HEADER") == Unrecognised
  {
  }

  // ---------------------------------------------------------------------
  // Errors persist.

  /** Once the codes loop has raised, further iterations are never reached. */
  lemma {:induction false} ObsTypesOfErrStays(tokens: seq<string>, m: int, n: int)
    requires 0 <= m <= n
    requires ObsTypesOf(tokens, m).Err?
    ensures ObsTypesOf(tokens, n) == ObsTypesOf(tokens, m)
    decreases n
  {
    if m < n {
      ObsTypesOfErrStays(tokens, m, n - 1);
    }
  }

  /** One more header line, read after the first `|lines|`. */
  lemma ApplyHeaderSnoc(h: Header, lines: seq<string>, i: nat,
                        parseFloat: string -> Option<real>, dateAccepted: string -> bool)
    requires i < |lines|
    ensures ApplyHeader(h, lines[..i + 1], parseFloat, dateAccepted) ==
      var prev := ApplyHeader(h, lines[..i], parseFloat, dateAccepted);
      if prev.Err? then prev else ApplyHeaderLine(prev.value, lines[i], parseFloat, dateAccepted)
  {
    assert lines[..i + 1][..i] == lines[..i];
  }

  /** A header line that raises aborts the whole header. */
  lemma {:induction false} ApplyHeaderErrStays(h: Header, lines: seq<string>, i: nat,
                                               parseFloat: string -> Option<real>, dateAccepted: string -> bool)
    requires i <= |lines|
    requires ApplyHeader(h, lines[..i], parseFloat, dateAccepted).Err?
    ensures ApplyHeader(h, lines, parseFloat, dateAccepted) == ApplyHeader(h, lines[..i], parseFloat, dateAccepted)
    decreases |lines|
  {
    if i < |lines| {
      var init := lines[..|lines| - 1];
      assert init[..i] == lines[..i];
      ApplyHeaderErrStays(h, init, i, parseFloat, dateAccepted);
      ApplyHeaderLast(h, lines, parseFloat, dateAccepted);
    } else {
      assert lines[..i] == lines;
    }
  }

  lemma ApplyHeaderLast(h: Header, lines: seq<string>, parseFloat: string -> Option<real>, dateAccepted: string -> bool)
    requires lines != []
    ensures ApplyHeader(h, lines[..|lines| - 1], parseFloat, dateAccepted).Err? ==>
      ApplyHeader(h, lines, parseFloat, dateAccepted) == ApplyHeader(h, lines[..|lines| - 1], parseFloat, dateAccepted)
  {
  }

  // ---------------------------------------------------------------------
  // `ObsHeader`.

  /** The header object: one field per attribute `parseline` can set. */
  class ObsHeader {
    var version: Option<real>
    var fileType: Option<char>
    var satelliteSystem: Option<char>
    var program: Option<string>
    var fileAgency: Option<string>
    var creationDateTime: Option<string>
    var markerName: Option<string>
    var markerNumber: Option<string>
    var markerType: Option<int>
    var observer: Option<string>
    var observerAgency: Option<string>
    var receiverNumber: Option<string>
    var receiverType: Option<string>
    var receiverVersion: Option<string>
    var antennaNumber: Option<string>
    var antennaType: Option<string>
    var antennaHeight: Option<real>
    var antennaEccentricityE: Option<real>
    var antennaEccentricityN: Option<real>
    var gpsObsTypes: seq<ObsType>
    var firstObs: Option<Epoch>
    var lastObs: Option<Epoch>
    var approxX: Option<real>
    var approxY: Option<real>
    var approxZ: Option<real>

    /** The attributes as a value. */
    function State(): Header
      reads this
    {
      Header(version, fileType, satelliteSystem, program, fileAgency, creationDateTime,
             markerName, markerNumber, markerType, observer, observerAgency,
             receiverNumber, receiverType, receiverVersion, antennaNumber, antennaType,
             antennaHeight, antennaEccentricityE, antennaEccentricityN, gpsObsTypes,
             firstObs, lastObs, approxX, approxY, approxZ)
    }

    /** The first statement of `__init__`: only the observation types
        exist, empty. */
    constructor ()
      ensures State() == EmptyHeader
    {
      version, fileType, satelliteSystem := None, None, None;
      program, fileAgency, creationDateTime := None, None, None;
      markerName, markerNumber, markerType := None, None, None;
      observer, observerAgency := None, None;
      receiverNumber, receiverType, receiverVersion := None, None, None;
      antennaNumber, antennaType := None, None;
      antennaHeight, antennaEccentricityE, antennaEccentricityN := None, None, None;
      gpsObsTypes := [];
      firstObs, lastObs := None, None;
      approxX, approxY, approxZ := None, None, None;
    }

    /** The loop of `__init__`: every line handed to `parseline` as its
        first 60 columns and the text from column 60 on. A raised
        exception (`ok` false) aborts the construction, so the attributes
        set before it are not described. */
    method ParseLines(data: seq<string>, parseFloat: string -> Option<real>, dateAccepted: string -> bool)
      returns (ok: bool)
      modifies this
      ensures ok <==> ApplyHeader(old(State()), data, parseFloat, dateAccepted).Ok?
      ensures ok ==> State() == ApplyHeader(old(State()), data, parseFloat, dateAccepted).value
    {
      ghost var h0 := State();
      assert data[..0] == [];
      for i := 0 to |data|
        invariant ApplyHeader(h0, data[..i], parseFloat, dateAccepted) == Ok(State())
      {
        var l := data[i];
        ApplyHeaderSnoc(h0, data, i, parseFloat, dateAccepted);
        ok := ParseLine(Take(l, 60), Drop(l, 59), parseFloat, dateAccepted);
        if !ok {
          ApplyHeaderErrStays(h0, data, i + 1, parseFloat, dateAccepted);
          return;
        }
      }
      assert data[..|data|] == data;
      ok := true;
    }

    /** `parseline(data, label)`. */
    method ParseLine(data: string, rawLabel: string, parseFloat: string -> Option<real>, dateAccepted: string -> bool)
      returns (ok: bool)
      modifies this
      ensures ok <==> ApplyLine(old(State()), data, rawLabel, parseFloat, dateAccepted).Ok?
      ensures ok ==> State() == ApplyLine(old(State()), data, rawLabel, parseFloat, dateAccepted).value
    {
      var key := Strip(rawLabel);
      ok := ParseLabel(data, LabelOf(key), parseFloat, dateAccepted);
    }

    /** The branch of `parseline` for label `b`. */
    method ParseLabel(data: string, b: Label, parseFloat: string -> Option<real>, dateAccepted: string -> bool)
      returns (ok: bool)
      modifies this
      ensures ok <==> ApplyLabel(old(State()), data, b, parseFloat, dateAccepted).Ok?
      ensures ok ==> State() == ApplyLabel(old(State()), data, b, parseFloat, dateAccepted).value
    {
      match b
      case VersionType =>
        ok := ParseVersion(data, parseFloat);
      case ProgramRunByDate =>
        ok := ParseProgram(data, dateAccepted);
      case MarkerName =>
        ParseMarkerName(data);
        ok := true;
      case MarkerNumber =>
        ParseMarkerNumber(data);
        ok := true;
      case MarkerType =>
        ParseMarkerType(data);
        ok := true;
      case ObserverAgency =>
        ParseObserver(data);
        ok := true;
      case ReceiverTypeVersion =>
        ParseReceiver(data);
        ok := true;
      case AntennaType =>
        ParseAntennaType(data);
        ok := true;
      case AntennaDelta =>
        ok := ParseAntennaDelta(data, parseFloat);
      case SysObsTypes =>
        ok := ParseSys(data);
      case TimeOfFirstObs =>
        ok := ParseObsTime(data, true, parseFloat);
      case TimeOfLastObs =>
        ok := ParseObsTime(data, false, parseFloat);
      case ApproxPosition =>
        ok := ParseApprox(data, parseFloat);
      case Unrecognised =>
        ok := true;
    }

    /** `MARKER NAME`: the whole data part, stripped. */
    method ParseMarkerName(data: string)
      modifies this
      ensures State() == ApplyMarkerName(old(State()), data)
    {
      markerName := Some(Strip(data));
    }

    /** `MARKER NUMBER`: columns 1-20, stripped. */
    method ParseMarkerNumber(data: string)
      modifies this
      ensures State() == ApplyMarkerNumber(old(State()), data)
    {
      markerNumber := Some(Strip(Take(data, 20)));
    }

    /** `MARKER TYPE`: the code of columns 1-20. */
    method ParseMarkerType(data: string)
      modifies this
      ensures State() == ApplyMarkerType(old(State()), data)
    {
      var tmp := Strip(Take(data, 20));
      if tmp == "GEODETIC" {
        markerType := Some(1);
      } else if tmp == "NON_GEODETIC" {
        markerType := Some(2);
      } else {
        markerType := Some(0);
      }
    }

    /** `OBSERVER / AGENCY`: columns 1-20 and 21 on. */
    method ParseObserver(data: string)
      modifies this
      ensures State() == ApplyObserver(old(State()), data)
    {
      SetObserver(Strip(Take(data, 20)), Strip(Drop(data, 20)));
    }

    /** `REC # / TYPE / VERS`: all three from columns 1-20. */
    method ParseReceiver(data: string)
      modifies this
      ensures State() == ApplyReceiver(old(State()), data)
    {
      SetReceiver(Strip(Take(data, 20)));
    }

    /** `ANT # / TYPE`: columns 1-20 and 21-40. */
    method ParseAntennaType(data: string)
      modifies this
      ensures State() == ApplyAntennaType(old(State()), data)
    {
      SetAntenna(Strip(Take(data, 20)), Strip(Slice(data, 20, 40)));
    }

    /** `RINEX VERSION / TYPE`. */
    method ParseVersion(data: string, parseFloat: string -> Option<real>) returns (ok: bool)
      modifies this
      ensures ok <==> ApplyVersion(old(State()), data, parseFloat).Ok?
      ensures ok ==> State() == ApplyVersion(old(State()), data, parseFloat).value
    {
      var v := parseFloat(Take(data, 20));
      if v.None? || |data| <= 40 {
        return false;
      }
      SetVersion(v.value, data[20], data[40]);
      ok := true;
    }

    /** `PGM / RUN BY / DATE`: the date must be accepted by `strptime`. */
    method ParseProgram(data: string, dateAccepted: string -> bool) returns (ok: bool)
      modifies this
      ensures ok <==> ApplyProgram(old(State()), data, dateAccepted).Ok?
      ensures ok ==> State() == ApplyProgram(old(State()), data, dateAccepted).value
    {
      var tmp := Strip(Drop(data, 40));
      if !dateAccepted(tmp) {
        return false;
      }
      SetProgram(Strip(Take(data, 20)), Strip(Slice(data, 20, 40)), tmp);
      ok := true;
    }

    /** `ANTENNA: DELTA H/E/N`. */
    method ParseAntennaDelta(data: string, parseFloat: string -> Option<real>) returns (ok: bool)
      modifies this
      ensures ok <==> ApplyAntennaDelta(old(State()), data, parseFloat).Ok?
      ensures ok ==> State() == ApplyAntennaDelta(old(State()), data, parseFloat).value
    {
      var height := parseFloat(Take(data, 14));
      if height.None? { return false; }
      var e := parseFloat(Slice(data, 14, 28));
      if e.None? { return false; }
      var n := parseFloat(Drop(data, 28));
      if n.None? { return false; }
      SetAntennaDelta(height.value, e.value, n.value);
      ok := true;
    }

    /** `TIME OF FIRST OBS` and `TIME OF LAST OBS`. */
    method ParseObsTime(data: string, first: bool, parseFloat: string -> Option<real>) returns (ok: bool)
      modifies this
      ensures ok <==> ApplyObsTime(old(State()), data, first, parseFloat).Ok?
      ensures ok ==> State() == ApplyObsTime(old(State()), data, first, parseFloat).value
    {
      var e := EpochOfColumns(data, parseFloat);
      if e.Err? { return false; }
      SetObsTime(e.value, first);
      ok := true;
    }

    /** The `SYS / # / OBS TYPES` branch. */
    method ParseSys(data: string) returns (ok: bool)
      modifies this
      ensures ok <==> ApplySys(old(State()), data).Ok?
      ensures ok ==> State() == ApplySys(old(State()), data).value
    {
      if |data| == 0 { return false; }
      var satsys := data[0];
      var obsno := ParseInt(Slice(data, 3, 6));
      if obsno.None? { return false; }
      var n := obsno.value;
      if satsys != 'G' {
        OtherSysLine(State(), data);
        return true;
      }
      ApplySysGps(State(), data, n);
      ok := AddGpsTypes(Split(Drop(data, 6)), n);
    }

    /** The loop `for i in range(0, obsno)` appending one parsed code per
        iteration. */
    method AddGpsTypes(descList: seq<string>, n: int) returns (ok: bool)
      modifies this
      ensures ok <==> AddSysTypes(old(State()), 'G', descList, n).Ok?
      ensures ok ==> State() == AddSysTypes(old(State()), 'G', descList, n).value
    {
      ghost var h0 := State();
      var i := 0;
      while i < n
        invariant 0 <= i <= (if n < 0 then 0 else n)
        invariant ObsTypesOf(descList, i).Ok?
        invariant gpsObsTypes == h0.gpsObsTypes + ObsTypesOf(descList, i).value
        invariant State() == h0.(gpsObsTypes := gpsObsTypes)
      {
        if i >= |descList| {
          ObsTypesOfErrStays(descList, i + 1, n);
          return false;
        }
        var t := ParseObsType(descList[i]);
        if t.Err? {
          ObsTypesOfErrStays(descList, i + 1, n);
          return false;
        }
        gpsObsTypes := gpsObsTypes + [t.value];
        i := i + 1;
      }
      assert ObsTypesOf(descList, n) == ObsTypesOf(descList, i);
      ok := true;
    }

    /** The `APPROX POSITION XYZ` branch. */
    method ParseApprox(data: string, parseFloat: string -> Option<real>) returns (ok: bool)
      modifies this
      ensures ok <==> ApplyApprox(old(State()), data, parseFloat).Ok?
      ensures ok ==> State() == ApplyApprox(old(State()), data, parseFloat).value
    {
      var split := Split(data);
      if |split| < 1 { return false; }
      var x := parseFloat(split[0]);
      if x.None? { return false; }
      if |split| < 2 { return false; }
      var y := parseFloat(split[1]);
      if y.None? { return false; }
      if |split| < 3 { return false; }
      var z := parseFloat(split[2]);
      if z.None? { return false; }
      SetApprox(x.value, y.value, z.value);
      ok := true;
    }

    // Attribute writes of the branches that set several attributes at once.

    method SetVersion(v: real, ft: char, ss: char)
      modifies this
      ensures State() == old(State()).(version := Some(v), fileType := Some(ft), satelliteSystem := Some(ss))
    {
      ghost var h := State();
      version, fileType, satelliteSystem := Some(v), Some(ft), Some(ss);
      assert State() == h.(version := Some(v), fileType := Some(ft), satelliteSystem := Some(ss));
    }

    method SetProgram(pgm: string, agency: string, date: string)
      modifies this
      ensures State() == old(State()).(program := Some(pgm), fileAgency := Some(agency), creationDateTime := Some(date))
    {
      ghost var h := State();
      program, fileAgency, creationDateTime := Some(pgm), Some(agency), Some(date);
      assert State() == h.(program := Some(pgm), fileAgency := Some(agency), creationDateTime := Some(date));
    }

    method SetObserver(obs: string, agency: string)
      modifies this
      ensures State() == old(State()).(observer := Some(obs), observerAgency := Some(agency))
    {
      ghost var h := State();
      observer, observerAgency := Some(obs), Some(agency);
      assert State() == h.(observer := Some(obs), observerAgency := Some(agency));
    }

    method SetReceiver(r: string)
      modifies this
      ensures State() == old(State()).(receiverNumber := Some(r), receiverType := Some(r), receiverVersion := Some(r))
    {
      ghost var h := State();
      receiverNumber, receiverType, receiverVersion := Some(r), Some(r), Some(r);
      assert State() == h.(receiverNumber := Some(r), receiverType := Some(r), receiverVersion := Some(r));
    }

    method SetAntenna(num: string, typ: string)
      modifies this
      ensures State() == old(State()).(antennaNumber := Some(num), antennaType := Some(typ))
    {
      ghost var h := State();
      antennaNumber, antennaType := Some(num), Some(typ);
      assert State() == h.(antennaNumber := Some(num), antennaType := Some(typ));
    }

    method SetAntennaDelta(height: real, e: real, n: real)
      modifies this
      ensures State() == old(State()).(antennaHeight := Some(height), antennaEccentricityE := Some(e),
                                       antennaEccentricityN := Some(n))
    {
      ghost var h := State();
      antennaHeight, antennaEccentricityE, antennaEccentricityN := Some(height), Some(e), Some(n);
      assert State() == h.(antennaHeight := Some(height), antennaEccentricityE := Some(e),
                                       antennaEccentricityN := Some(n));
    }

    method SetObsTime(e: Epoch, first: bool)
      modifies this
      ensures first ==> State() == old(State()).(firstObs := Some(e))
      ensures !first ==> State() == old(State()).(lastObs := Some(e))
    {
      if first {
        firstObs := Some(e);
      } else {
        lastObs := Some(e);
      }
    }

    method SetApprox(x: real, y: real, z: real)
      modifies this
      ensures State() == old(State()).(approxX := Some(x), approxY := Some(y), approxZ := Some(z))
    {
      ghost var h := State();
      approxX, approxY, approxZ := Some(x), Some(y), Some(z);
      assert State() == h.(approxX := Some(x), approxY := Some(y), approxZ := Some(z));
    }
  }

  // ---------------------------------------------------------------------
  // `RinexObservation`: reading a whole file.

  /** The attributes of a `RinexObservation` after `__init__`; `None` is an
      attribute never set. `noTerminator` and `noObsTypes` stand for the two
      errors that are logged and not raised. */
  datatype Loaded = Loaded(
    filename: string,
    lines: Option<seq<string>>,
    headerlines: Option<seq<string>>,
    header: Option<Header>,
    observations: Option<seq<Observation>>,
    noTerminator: bool,
    noObsTypes: bool)

  /** `RinexObservation(filename)` as a value, with `content` the text the
      file holds: without a name nothing is read; otherwise the text is cut
      into lines. */
  function Load(filename: string, content: string, parseFloat: string -> Option<real>,
                dateAccepted: string -> bool): (r: Result<Loaded>)
    ensures filename == "" ==> r == Ok(Loaded(filename, None, None, None, None, false, false))
    ensures filename != "" ==> r == LoadLines(filename, SplitLines(content), parseFloat, dateAccepted)
  {
    if filename == "" then Ok(Loaded(filename, None, None, None, None, false, false))
    else LoadLines(filename, SplitLines(content), parseFloat, dateAccepted)
  }

  /** The file's lines `all` read: without a header nothing is parsed;
      otherwise the header lines are parsed, then the body is decoded. */
  function LoadLines(filename: string, all: seq<string>, parseFloat: string -> Option<real>,
                     dateAccepted: string -> bool): (r: Result<Loaded>)
  {
    var hl := HeaderOf(all);
    if |hl| <= 0 then Ok(Loaded(filename, Some(all), Some(hl), None, None, true, false))
    else ParseFile(filename, hl, all[|hl| + 1..], parseFloat, dateAccepted)
  }

  /** `_getheader` then `_getcontents`: the body is decoded against the GPS
      observation types of the parsed header. An exception raised by either
      aborts the construction. */
  function ParseFile(filename: string, hl: seq<string>, body: seq<string>, parseFloat: string -> Option<real>,
                     dateAccepted: string -> bool): (r: Result<Loaded>)
    ensures var h := ApplyHeader(EmptyHeader, hl, parseFloat, dateAccepted);
      && (r.Ok? <==> h.Ok? && DecodeBody(body, h.value.gpsObsTypes, None, parseFloat).Ok?)
      && (h.Err? ==> r == Err(h.error))
      && (r.Ok? ==> r.value == Loaded(filename, Some(body), Some(hl), Some(h.value),
                                      Some(DecodeBody(body, h.value.gpsObsTypes, None, parseFloat).value),
                                      false, h.value.gpsObsTypes == []))
  {
    var h :- ApplyHeader(EmptyHeader, hl, parseFloat, dateAccepted);
    var obs :- DecodeBody(body, h.gpsObsTypes, None, parseFloat);
    Ok(Loaded(filename, Some(body), Some(hl), Some(h), Some(obs), false, |h.gpsObsTypes| <= 0))
  }

  /** A file whose header is empty (no terminator, or the terminator as
      first line) is kept whole as lines and parsed no further; this is the
      only way `noTerminator` is logged. */
  lemma LoadNoTerminator(filename: string, all: seq<string>, parseFloat: string -> Option<real>,
                         dateAccepted: string -> bool)
    ensures var r := LoadLines(filename, all, parseFloat, dateAccepted);
      && (HeaderOf(all) == [] ==> r == Ok(Loaded(filename, Some(all), Some([]), None, None, true, false)))
      && (r.Ok? && r.value.noTerminator ==> HeaderOf(all) == [])
      && (HeaderOf(all) == [] <==> (FirstTerminator(all) == |all| || FirstTerminator(all) == 0))
  {
    EmptyHeaderCases(all);
  }

  /** A loaded file with a header is its header lines, the terminator line
      and the body lines, in that order; the header lines hold no
      terminator and the line after them is one. */
  lemma LoadLayout(filename: string, all: seq<string>, parseFloat: string -> Option<real>,
                   dateAccepted: string -> bool)
    requires LoadLines(filename, all, parseFloat, dateAccepted).Ok?
    requires LoadLines(filename, all, parseFloat, dateAccepted).value.header.Some?
    ensures var r := LoadLines(filename, all, parseFloat, dateAccepted).value;
      && r.headerlines.Some? && r.lines.Some?
      && |r.headerlines.value| < |all|
      && r.headerlines.value + [all[|r.headerlines.value|]] + r.lines.value == all
      && IsTerminator(all[|r.headerlines.value|])
      && (forall i :: 0 <= i < |r.headerlines.value| ==> !IsTerminator(r.headerlines.value[i]))
  {
    HeaderBodySplit(all);
  }

  /** Loading fails exactly when the file has a header and a header line
      or a body line raises; a header line raises first. */
  lemma LoadErrors(filename: string, all: seq<string>, parseFloat: string -> Option<real>,
                   dateAccepted: string -> bool)
    ensures var r := LoadLines(filename, all, parseFloat, dateAccepted);
      var hl := HeaderOf(all);
      var h := ApplyHeader(EmptyHeader, hl, parseFloat, dateAccepted);
      && (r.Err? <==>
            (hl != [] && (h.Err? || DecodeBody(BodyOf(all, hl), h.value.gpsObsTypes, None, parseFloat).Err?)))
      && (hl != [] && h.Err? ==> r == Err(h.error))
  {
  }

  /** A header without GPS observation types is logged, not raised: the
      body is still decoded, and yields no observation. */
  lemma LoadNoObsTypes(filename: string, all: seq<string>, parseFloat: string -> Option<real>,
                       dateAccepted: string -> bool)
    requires LoadLines(filename, all, parseFloat, dateAccepted).Ok?
    ensures var r := LoadLines(filename, all, parseFloat, dateAccepted).value;
      && (r.noObsTypes <==> r.header.Some? && r.header.value.gpsObsTypes == [])
      && (r.noObsTypes ==> r.observations == Some([]))
  {
    var hl := HeaderOf(all);
    if hl != [] {
      DecodeBodyNoTypes(BodyOf(all, hl), None, parseFloat);
    }
  }

  /** Header lines followed by `headerterminator()` are read back as the
      same header, whatever follows, when none of them is a terminator. */
  lemma TerminatorSplitsHeader(hl: seq<string>, body: seq<string>)
    requires hl != []
    requires forall i :: 0 <= i < |hl| ==> !IsTerminator(hl[i])
    ensures HeaderOf(hl + [HeaderTerminator()] + body) == hl
    ensures BodyOf(hl + [HeaderTerminator()] + body, hl) == body
  {
    TerminatorEndsHeader();
    SplitsAtTerminator(hl, HeaderTerminator(), body);
  }

  /** The same for any terminator line `t`. */
  lemma SplitsAtTerminator(hl: seq<string>, t: string, body: seq<string>)
    requires hl != [] && IsTerminator(t)
    requires forall i :: 0 <= i < |hl| ==> !IsTerminator(hl[i])
    ensures HeaderOf(hl + [t] + body) == hl
    ensures BodyOf(hl + [t] + body, hl) == body
  {
    var all := hl + [t] + body;
    assert all[|hl|] == t;
    assert forall j :: 0 <= j < |hl| ==> all[j] == hl[j];
    FirstTerminatorIs(all, |hl|);
    assert all[..|hl|] == hl;
    assert all[|hl| + 1..] == body;
  }

  /** The file object of `RinexObservation`. */
  class RinexObservation {
    var filename: string
    var lines: Option<seq<string>>
    var headerlines: Option<seq<string>>
    var header: ObsHeader?
    var observations: Observations?
    var noTerminator: bool
    var noObsTypes: bool

    /** The attributes as a value. */
    function Snapshot(): Loaded
      reads this, header, observations
    {
      Loaded(filename, lines, headerlines,
             if header == null then None else Some(header.State()),
             if observations == null then None else Some(observations.obslist),
             noTerminator, noObsTypes)
    }

    /** `self.filename = filename`: nothing else is set yet. */
    constructor (filename: string)
      ensures Snapshot() == Loaded(filename, None, None, None, None, false, false)
    {
      this.filename := filename;
      lines, headerlines := None, None;
      header, observations := null, null;
      noTerminator, noObsTypes := false, false;
    }

    /** `RinexObservation(filename)` on a file holding `content`; `None`
        when an exception aborts the construction. */
    static method Open(filename: string, content: string, parseFloat: string -> Option<real>,
                       dateAccepted: string -> bool) returns (r: Option<RinexObservation>)
      ensures r.Some? <==> Load(filename, content, parseFloat, dateAccepted).Ok?
      ensures r.Some? ==> fresh(r.value) && r.value.Snapshot() == Load(filename, content, parseFloat, dateAccepted).value
    {
      var o := new RinexObservation(filename);
      if filename == "" {
        return Some(o);
      }
      var all := SplitLines(content);
      assert Load(filename, content, parseFloat, dateAccepted) == LoadLines(filename, all, parseFloat, dateAccepted);
      var ok := o.ReadFile(all, parseFloat, dateAccepted);
      if !ok {
        return None;
      }
      return Some(o);
    }

    /** The `else` branch of `__init__` on the lines of the file: split
        off the header, then parse header and body. */
    method ReadFile(all: seq<string>, parseFloat: string -> Option<real>, dateAccepted: string -> bool)
      returns (ok: bool)
      requires filename != "" && lines.None? && headerlines.None?
      requires header == null && observations == null && !noTerminator && !noObsTypes
      modifies this
      ensures filename == old(filename)
      ensures ok <==> LoadLines(filename, all, parseFloat, dateAccepted).Ok?
      ensures ok ==> Snapshot() == LoadLines(filename, all, parseFloat, dateAccepted).value
    {
      var hl := GetHeader(all);
      if |hl| <= 0 {
        KeepUnterminated(all);
        return true;
      }
      ok := ReadSections(hl, all[|hl| + 1..], parseFloat, dateAccepted);
    }

    /** A file whose header is empty: the lines are kept whole and the
        missing terminator is logged. */
    method KeepUnterminated(all: seq<string>)
      modifies this
      ensures Snapshot() == old(Snapshot()).(lines := Some(all), headerlines := Some([]), noTerminator := true)
    {
      ghost var s := Snapshot();
      lines, headerlines, noTerminator := Some(all), Some([]), true;
      assert Snapshot() == s.(lines := Some(all), headerlines := Some([]), noTerminator := true);
    }

    /** A file with a non-empty header: keep the header lines and the body
        lines, then parse the header, then the body. */
    method ReadSections(hl: seq<string>, body: seq<string>, parseFloat: string -> Option<real>,
                        dateAccepted: string -> bool) returns (ok: bool)
      requires header == null && observations == null && !noTerminator && !noObsTypes
      modifies this
      ensures filename == old(filename)
      ensures ok <==> ParseFile(filename, hl, body, parseFloat, dateAccepted).Ok?
      ensures ok ==> Snapshot() == ParseFile(filename, hl, body, parseFloat, dateAccepted).value
    {
      lines, headerlines := Some(body), Some(hl);
      ok := ReadHeader(parseFloat, dateAccepted);
      if !ok {
        return false;
      }
      ok := ReadContents(parseFloat);
    }

    /** `_getheader`: parse the header lines; no GPS observation types is
        logged as an error, not raised. */
    method ReadHeader(parseFloat: string -> Option<real>, dateAccepted: string -> bool) returns (ok: bool)
      requires headerlines.Some?
      modifies this
      ensures filename == old(filename) && lines == old(lines) && headerlines == old(headerlines)
      ensures observations == old(observations) && noTerminator == old(noTerminator)
      ensures ok <==> ApplyHeader(EmptyHeader, headerlines.value, parseFloat, dateAccepted).Ok?
      ensures ok ==> header != null && fresh(header)
      ensures ok ==> header.State() == ApplyHeader(EmptyHeader, headerlines.value, parseFloat, dateAccepted).value
      ensures ok ==> noObsTypes == (|header.State().gpsObsTypes| <= 0)
    {
      var hdr := new ObsHeader();
      ok := hdr.ParseLines(headerlines.value, parseFloat, dateAccepted);
      if ok {
        header := hdr;
        noObsTypes := |hdr.gpsObsTypes| <= 0;
      }
    }

    /** `_getcontents`: a new store filled from the body lines. */
    method ReadContents(parseFloat: string -> Option<real>) returns (ok: bool)
      requires header != null && lines.Some?
      modifies this
      ensures filename == old(filename) && lines == old(lines) && headerlines == old(headerlines)
      ensures header == old(header) && header.State() == old(header.State())
      ensures noTerminator == old(noTerminator) && noObsTypes == old(noObsTypes)
      ensures ok <==> DecodeBody(lines.value, header.State().gpsObsTypes, None, parseFloat).Ok?
      ensures ok ==> observations != null && fresh(observations)
      ensures ok ==> observations.obslist == DecodeBody(lines.value, header.State().gpsObsTypes, None, parseFloat).value
    {
      var store := new Observations();
      observations := store;
      ok := store.FromRinex(lines.value, header.gpsObsTypes, parseFloat);
    }
  }
}
