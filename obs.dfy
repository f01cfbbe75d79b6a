/** Observation types, observation records and the body decoder (obs.py).
    `float()` of a field is the caller-supplied `parseFloat`, `None` where
    Python raises ValueError. */
module Obs {
  import opened Outcomes
  import opened PyText
  import opened Seqs
  import opened Epochs

  // ---------------------------------------------------------------------
  // ObsType

  /** A RINEX 3 observation code: system, category, band, attribute. */
  datatype ObsType = ObsType(satelliteSystem: char, observationType: char, band: int, attribute: char)

  /** `ObsType(s)`: a 4-character code names its system, a 3-character code
      implies GPS; any other length makes the constructor fail (it returns
      a value, which Python rejects with TypeError), and a non-digit band
      makes `int()` fail. */
  function ParseObsType(s: string): (r: Result<ObsType>)
    ensures (|s| != 3 && |s| != 4) ==> r == Err(TypeError)
    ensures |s| == 3 ==> (r.Ok? <==> IsDigit(s[1]))
    ensures |s| == 4 ==> (r.Ok? <==> IsDigit(s[2]))
    ensures r.Ok? && |s| == 3 ==> r.value == ObsType('G', s[0], DigitValue(s[1]), s[2])
    ensures r.Ok? && |s| == 4 ==> r.value == ObsType(s[0], s[1], DigitValue(s[2]), s[3])
  {
    if |s| > 4 || |s| < 3 then Err(TypeError)
    else
      var system := if |s| == 4 then s[0] else 'G';
      var t := if |s| == 4 then s[1..] else s;
      var band :- DigitOf(t[1]);
      Ok(ObsType(system, t[0], band, t[2]))
  }

  /** `__repr__`: system, category, band, attribute. */
  function Repr(t: ObsType): string {
    [t.satelliteSystem, t.observationType] + IntToString(t.band) + [t.attribute]
  }

  /** `ToStr`: the code without its system. */
  function ToStr(t: ObsType): string {
    [t.observationType] + IntToString(t.band) + [t.attribute]
  }

  /** A 4-character code is reproduced by `__repr__`, a 3-character code by
      `ToStr` (and by `__repr__` with the implied `G` in front). */
  lemma CodeRoundTrip(s: string)
    requires ParseObsType(s).Ok?
    ensures |s| == 4 ==> Repr(ParseObsType(s).value) == s
    ensures |s| == 3 ==> ToStr(ParseObsType(s).value) == s
    ensures |s| == 3 ==> Repr(ParseObsType(s).value) == "G" + s
  {
    var t := ParseObsType(s).value;
    assert IntToString(t.band) == [DigitChar(t.band)];
  }

  /** Every type with a one-digit band is parsed back from its `__repr__`. */
  lemma ReprParses(t: ObsType)
    requires 0 <= t.band <= 9
    ensures ParseObsType(Repr(t)) == Ok(t)
  {
    assert IntToString(t.band) == [DigitChar(t.band)];
  }

  lemma ToStrParses(t: ObsType)
    requires 0 <= t.band <= 9 && t.satelliteSystem == 'G'
    ensures ParseObsType(ToStr(t)) == Ok(t)
  {
    assert IntToString(t.band) == [DigitChar(t.band)];
  }

  // ---------------------------------------------------------------------
  // Observation records.

  /** One measurement of one satellite at one epoch. */
  datatype Observation = Observation(
    obtype: ObsType,
    epoch: Epoch,
    system: char,
    satellite: int,
    value: real,
    epochFlag: int,
    clockOffset: real,
    signalStrength: int,
    lossOfLock: Option<int>)

  /** What a `>` epoch line contributes to every record decoded under it. */
  datatype EpochHead = EpochHead(epoch: Epoch, flag: int, clockOffset: real)

  function IntToken(tokens: seq<string>, i: nat): (r: Result<int>)
    ensures i >= |tokens| ==> r == Err(IndexError)
    ensures i < |tokens| ==> r == OrError(ParseInt(tokens[i]), ValueError)
  {
    if i < |tokens| then OrError(ParseInt(tokens[i]), ValueError) else Err(IndexError)
  }

  function FloatToken(tokens: seq<string>, i: nat, parseFloat: string -> Option<real>): (r: Result<real>)
    ensures i >= |tokens| ==> r == Err(IndexError)
    ensures i < |tokens| ==> r == OrError(parseFloat(tokens[i]), ValueError)
  {
    if i < |tokens| then OrError(parseFloat(tokens[i]), ValueError) else Err(IndexError)
  }

  /** The epoch line's whitespace tokens 1 to 6 give the epoch, token 7 the
      flag and token 8, when present, the clock offset (0 otherwise). */
  function ParseEpochLine(head: string, parseFloat: string -> Option<real>): (r: Result<EpochHead>)
  {
    var tokens := Split(head);
    var year :- IntToken(tokens, 1);
    var month :- IntToken(tokens, 2);
    var day :- IntToken(tokens, 3);
    var hour :- IntToken(tokens, 4);
    var minute :- IntToken(tokens, 5);
    var second :- FloatToken(tokens, 6, parseFloat);
    var flag :- IntToken(tokens, 7);
    var clock :- if |tokens| > 8 then FloatToken(tokens, 8, parseFloat) else Ok(0.0);
    Ok(EpochHead(Epoch(year, month, day, hour, minute, second), flag, clock))
  }

  /** Start column (0-based) of the i-th 16-column field. */
  function FieldStart(i: nat): nat {
    3 + 16 * i
  }

  /** The number of records a satellite line yields: one per declared type,
      up to the first field that is shorter than 16 columns. */
  function FieldCount(obs: string, obstypes: seq<ObsType>): nat {
    var whole := if |obs| >= 3 then (|obs| - 3) / 16 else 0;
    if |obstypes| < whole then |obstypes| else whole
  }

  /** Decode one 16-column field: 14 columns of value, one of loss of lock
      (blank, or a digit that `int()` must accept; it is read and dropped),
      one of signal strength. `satellite` is `int()` of columns 1-2 of the
      line, which fails on every field when it fails at all. */
  function DecodeField(h: EpochHead, system: char, satellite: Option<int>, f: string, t: ObsType,
                       parseFloat: string -> Option<real>): (r: Result<Observation>)
    requires |f| == 16
    ensures r.Err? ==> r.error == ValueError
    ensures r.Ok? <==>
      && satellite.Some?
      && parseFloat(f[..14]).Some?
      && (f[14] == ' ' || IsDigit(f[14]))
      && IsDigit(f[15])
    ensures r.Ok? ==> r.value == Observation(t, h.epoch, system, satellite.value,
      parseFloat(f[..14]).value, h.flag, h.clockOffset, DigitValue(f[15]), None)
  {
    var sat :- OrError(satellite, ValueError);
    var value :- OrError(parseFloat(f[..14]), ValueError);
    var lossOfLock :- if f[14] != ' ' then DigitOf(f[14]) else Ok(0);
    var strength :- DigitOf(f[15]);
    Ok(Observation(t, h.epoch, system, sat, value, h.flag, h.clockOffset, strength, None))
  }

  /** `int()` of a one-column field: a digit, or ValueError. */
  function DigitOf(c: char): (r: Result<int>)
    ensures r.Ok? <==> IsDigit(c)
    ensures r.Ok? ==> r.value == DigitValue(c)
    ensures r.Err? ==> r.error == ValueError
  {
    if IsDigit(c) then Ok(DigitValue(c)) else Err(ValueError)
  }

  /** `DigitOf` is Python's `int()` on the one-character string. */
  lemma DigitOfIsInt(c: char)
    ensures DigitOf(c) == OrError(ParseInt([c]), ValueError)
  {
    ParseIntChar(c);
  }

  /** The records of the remaining fields `fields`, one per remaining type. */
  function DecodeFields(h: EpochHead, system: char, satellite: Option<int>, fields: string, obstypes: seq<ObsType>,
                        parseFloat: string -> Option<real>): Result<seq<Observation>>
    decreases |obstypes|
  {
    if obstypes == [] || |fields| < 16 then Ok([])
    else
      var o :- DecodeField(h, system, satellite, fields[..16], obstypes[0], parseFloat);
      var rest :- DecodeFields(h, system, satellite, fields[16..], obstypes[1..], parseFloat);
      Ok([o] + rest)
  }

  /** The records of the fields of satellite line `obs`, decoded under the
      epoch line values `h`. */
  function LineFields(h: EpochHead, obs: string, obstypes: seq<ObsType>, parseFloat: string -> Option<real>): Result<seq<Observation>> {
    if |obs| < 3 then Ok([])
    else DecodeFields(h, obs[0], ParseInt(obs[1..3]), obs[3..], obstypes, parseFloat)
  }

  /** `_lineFromRinex` as a value: the records of one satellite line decoded
      under the epoch line `obshead`. */
  function DecodeLine(obshead: string, obs: string, obstypes: seq<ObsType>, parseFloat: string -> Option<real>): Result<seq<Observation>> {
    var h :- ParseEpochLine(obshead, parseFloat);
    LineFields(h, obs, obstypes, parseFloat)
  }

  /** Prefix the records already collected to a result. */
  function Prepend(xs: seq<Observation>, r: Result<seq<Observation>>): Result<seq<Observation>> {
    match r
    case Ok(v) => Ok(xs + v)
    case Err(e) => Err(e)
  }

  lemma PrependNil(r: Result<seq<Observation>>)
    ensures Prepend([], r) == r
  {
    if r.Ok? {
      assert [] + r.value == r.value;
    }
  }

  /** The field count of the remaining text. */
  function Fields(fields: string, obstypes: seq<ObsType>): nat {
    var whole := |fields| / 16;
    if |obstypes| < whole then |obstypes| else whole
  }

  /** The remaining text decodes exactly when each of its first `Fields`
      fields does, into one record per field in order. */
  lemma {:induction false} DecodeFieldsSpec(h: EpochHead, system: char, satellite: Option<int>, fields: string,
                                            obstypes: seq<ObsType>, parseFloat: string -> Option<real>)
    ensures var r := DecodeFields(h, system, satellite, fields, obstypes, parseFloat);
      && (r.Ok? <==> forall j :: 0 <= j < Fields(fields, obstypes) ==>
            DecodeField(h, system, satellite, fields[16 * j..16 * j + 16], obstypes[j], parseFloat).Ok?)
      && (r.Ok? ==>
            && |r.value| == Fields(fields, obstypes)
            && |r.value| <= |obstypes| && 16 * |r.value| <= |fields|
            && forall j :: 0 <= j < |r.value| ==>
                 Ok(r.value[j]) == DecodeField(h, system, satellite, fields[16 * j..16 * j + 16], obstypes[j], parseFloat))
    decreases |obstypes|
  {
    if obstypes != [] && |fields| >= 16 {
      var tail := fields[16..];
      DecodeFieldsSpec(h, system, satellite, tail, obstypes[1..], parseFloat);
      assert Fields(fields, obstypes) == Fields(tail, obstypes[1..]) + 1;
      forall j | 1 <= j < Fields(fields, obstypes)
        ensures fields[16 * j..16 * j + 16] == tail[16 * (j - 1)..16 * (j - 1) + 16]
        ensures obstypes[j] == obstypes[1..][j - 1]
      {
        FieldShift(fields, j);
      }
      assert fields[0..16] == fields[..16];
      var r := DecodeFields(h, system, satellite, fields, obstypes, parseFloat);
      if r.Ok? {
        var rest := DecodeFields(h, system, satellite, tail, obstypes[1..], parseFloat).value;
        assert r.value == [r.value[0]] + rest;
      }
    }
  }

  /** A line decodes only under a well-formed epoch line, into the records
      of its fields from column 3 on. */
  lemma DecodeLineUnfold(obshead: string, obs: string, obstypes: seq<ObsType>, parseFloat: string -> Option<real>)
    requires DecodeLine(obshead, obs, obstypes, parseFloat).Ok?
    ensures ParseEpochLine(obshead, parseFloat).Ok?
    ensures DecodeLine(obshead, obs, obstypes, parseFloat) ==
      if |obs| < 3 then Ok([])
      else DecodeFields(ParseEpochLine(obshead, parseFloat).value, obs[0], ParseInt(obs[1..3]), obs[3..], obstypes, parseFloat)
  {
  }

  /** The i-th record decoded from the text after column 3 comes from the
      field at column 3 + 16 i. */
  lemma DecodeFieldsAt(h: EpochHead, obs: string, obstypes: seq<ObsType>, parseFloat: string -> Option<real>, i: nat)
    requires |obs| >= 3
    requires DecodeFields(h, obs[0], ParseInt(obs[1..3]), obs[3..], obstypes, parseFloat).Ok?
    requires i < |DecodeFields(h, obs[0], ParseInt(obs[1..3]), obs[3..], obstypes, parseFloat).value|
    ensures i < |obstypes| && FieldStart(i) + 16 <= |obs|
    ensures Ok(DecodeFields(h, obs[0], ParseInt(obs[1..3]), obs[3..], obstypes, parseFloat).value[i]) ==
      DecodeField(h, obs[0], ParseInt(obs[1..3]), obs[FieldStart(i)..FieldStart(i) + 16], obstypes[i], parseFloat)
  {
    var fields := obs[3..];
    DecodeFieldsSpec(h, obs[0], ParseInt(obs[1..3]), fields, obstypes, parseFloat);
    FieldSlice(obs, i);
  }

  lemma FieldParts(obs: string, k: nat)
    requires k + 16 <= |obs|
    ensures obs[k..k + 16][..14] == obs[k..k + 14] && obs[k..k + 16][15] == obs[k + 15]
  {
  }

  lemma FieldShift(fields: string, j: nat)
    requires 1 <= j && 16 * j + 16 <= |fields|
    ensures fields[16 * j..16 * j + 16] == fields[16..][16 * (j - 1)..16 * (j - 1) + 16]
  {
  }

  lemma FieldSlice(obs: string, i: nat)
    requires FieldStart(i) + 16 <= |obs|
    ensures obs[3..][16 * i..16 * i + 16] == obs[FieldStart(i)..FieldStart(i) + 16]
  {
  }

  /** The i-th record of a decoded line is the i-th declared type read
      from the field at column 3 + 16 i. */
  lemma DecodeLineField(obshead: string, obs: string, obstypes: seq<ObsType>, parseFloat: string -> Option<real>, i: nat)
    requires DecodeLine(obshead, obs, obstypes, parseFloat).Ok?
    requires i < |DecodeLine(obshead, obs, obstypes, parseFloat).value|
    ensures i < |obstypes| && FieldStart(i) + 16 <= |obs|
    ensures ParseEpochLine(obshead, parseFloat).Ok?
    ensures Ok(DecodeLine(obshead, obs, obstypes, parseFloat).value[i]) ==
      DecodeField(ParseEpochLine(obshead, parseFloat).value, obs[0], ParseInt(obs[1..3]),
        obs[FieldStart(i)..FieldStart(i) + 16], obstypes[i], parseFloat)
  {
    DecodeLineUnfold(obshead, obs, obstypes, parseFloat);
    DecodeFieldsAt(ParseEpochLine(obshead, parseFloat).value, obs, obstypes, parseFloat, i);
  }

  /** Number of records of a decoded line: `min(|obstypes|, (|obs| - 3) div 16)`,
      so a satellite line shorter than its declared list stops early without
      error; the i-th record is the i-th declared type read from the field
      at column 3 + 16 i, and every record carries the epoch, flag and
      clock offset of the epoch line and no loss-of-lock value. */
  lemma DecodeLineRecords(obshead: string, obs: string, obstypes: seq<ObsType>, parseFloat: string -> Option<real>)
    requires DecodeLine(obshead, obs, obstypes, parseFloat).Ok?
    ensures ParseEpochLine(obshead, parseFloat).Ok?
    ensures var r := DecodeLine(obshead, obs, obstypes, parseFloat).value;
      var h := ParseEpochLine(obshead, parseFloat).value;
      && |r| == FieldCount(obs, obstypes)
      && forall i :: 0 <= i < |r| ==>
           && i < |obstypes| && FieldStart(i) + 16 <= |obs|
           && r[i].obtype == obstypes[i]
           && r[i].epoch == h.epoch && r[i].epochFlag == h.flag && r[i].clockOffset == h.clockOffset
           && r[i].system == obs[0]
           && Some(r[i].satellite) == ParseInt(obs[1..3])
           && Some(r[i].value) == parseFloat(obs[FieldStart(i)..FieldStart(i) + 14])
           && IsDigit(obs[FieldStart(i) + 15]) && r[i].signalStrength == DigitValue(obs[FieldStart(i) + 15])
           && r[i].lossOfLock == None
  {
    var h := ParseEpochLine(obshead, parseFloat).value;
    var r := DecodeLine(obshead, obs, obstypes, parseFloat).value;
    if |obs| >= 3 {
      var fields := obs[3..];
      DecodeFieldsSpec(h, obs[0], ParseInt(obs[1..3]), fields, obstypes, parseFloat);
      assert Fields(fields, obstypes) == FieldCount(obs, obstypes);
    }
    forall i | 0 <= i < |r|
      ensures i < |obstypes| && FieldStart(i) + 16 <= |obs|
      ensures r[i].obtype == obstypes[i]
      ensures r[i].epoch == h.epoch && r[i].epochFlag == h.flag && r[i].clockOffset == h.clockOffset
      ensures r[i].system == obs[0]
      ensures Some(r[i].satellite) == ParseInt(obs[1..3])
      ensures Some(r[i].value) == parseFloat(obs[FieldStart(i)..FieldStart(i) + 14])
      ensures IsDigit(obs[FieldStart(i) + 15]) && r[i].signalStrength == DigitValue(obs[FieldStart(i) + 15])
      ensures r[i].lossOfLock == None
    {
      DecodeLineField(obshead, obs, obstypes, parseFloat, i);
      FieldParts(obs, FieldStart(i));
    }
  }

  /** One step of `DecodeFields`: the first field, then the rest. */
  lemma DecodeFieldsStep(h: EpochHead, system: char, satellite: Option<int>, obs: string, k: nat,
                         obstypes: seq<ObsType>, i: nat, parseFloat: string -> Option<real>)
    requires i < |obstypes| && k + 16 <= |obs|
    ensures DecodeFields(h, system, satellite, Drop(obs, k), obstypes[i..], parseFloat) ==
      match DecodeField(h, system, satellite, obs[k..k + 16], obstypes[i], parseFloat)
      case Err(e) => Err(e)
      case Ok(o) => Prepend([o], DecodeFields(h, system, satellite, Drop(obs, k + 16), obstypes[i + 1..], parseFloat))
  {
    DropStep(obs, k);
    TypesStep(obstypes, i);
  }

  /** Python's `len(obs[k:k+16]) < 16` holds exactly when the line ends
      before column `k + 16`. */
  lemma SliceShort(obs: string, k: nat)
    ensures |Slice(obs, k, k + 16)| < 16 <==> |obs| < k + 16
  {
  }

  lemma FieldsStart(h: EpochHead, obs: string, obstypes: seq<ObsType>, parseFloat: string -> Option<real>)
    requires |obs| >= 3
    ensures LineFields(h, obs, obstypes, parseFloat) ==
      Prepend([], DecodeFields(h, obs[0], ParseInt(obs[1..3]), Drop(obs, 3), obstypes[0..], parseFloat))
  {
    assert obs[3..] == Drop(obs, 3) && obstypes[0..] == obstypes;
    PrependNil(LineFields(h, obs, obstypes, parseFloat));
  }

  lemma FieldsDone(h: EpochHead, system: char, satellite: Option<int>, obs: string, k: nat,
                   obstypes: seq<ObsType>, i: nat, parseFloat: string -> Option<real>)
    requires i <= |obstypes| && (i == |obstypes| || |obs| < k + 16)
    ensures DecodeFields(h, system, satellite, Drop(obs, k), obstypes[i..], parseFloat) == Ok([])
  {
  }

  lemma DropStep(obs: string, k: nat)
    requires k + 16 <= |obs|
    ensures Drop(obs, k)[..16] == obs[k..k + 16] && Drop(obs, k)[16..] == Drop(obs, k + 16)
  {
  }

  lemma TypesStep(obstypes: seq<ObsType>, i: nat)
    requires i < |obstypes|
    ensures obstypes[i..][0] == obstypes[i] && obstypes[i..][1..] == obstypes[i + 1..]
  {
  }

  /** `_lineFromRinex`: decode the epoch line, then the satellite line. */
  method LineFromRinex(obshead: string, obs: string, obstypes: seq<ObsType>, parseFloat: string -> Option<real>)
    returns (r: Result<seq<Observation>>)
    ensures r == DecodeLine(obshead, obs, obstypes, parseFloat)
  {
    var h :- ParseEpochLine(obshead, parseFloat);
    r := FieldsFromRinex(h, obs, obstypes, parseFloat);
  }

  /** The body of the loop of `_lineFromRinex`: decode the field at
      column `k` of satellite line `obs`. */
  method FieldFromRinex(h: EpochHead, obs: string, k: nat, t: ObsType, parseFloat: string -> Option<real>)
    returns (r: Result<Observation>)
    requires 3 <= |obs| && k + 16 <= |obs|
    ensures r == DecodeField(h, obs[0], ParseInt(obs[1..3]), obs[k..k + 16], t, parseFloat)
  {
    FieldParts(obs, k);
    var system := obs[0];
    var satellite := ParseInt(obs[1..3]);
    var value := parseFloat(obs[k..k + 14]);
    // int() of the satellite number, float() of the value, int() of the
    // loss-of-lock column when it is not blank, int() of the strength.
    if satellite.None? || value.None? || (obs[k + 14] != ' ' && !IsDigit(obs[k + 14])) || !IsDigit(obs[k + 15]) {
      return Err(ValueError);
    }
    var strength := DigitValue(obs[k + 15]);
    r := Ok(Observation(t, h.epoch, system, satellite.value, value.value, h.flag, h.clockOffset, strength, None));
  }

  /** The loop of `_lineFromRinex`: walk the satellite line in 16-column
      fields from offset 3, one per declared type, until a field is short. */
  method FieldsFromRinex(h: EpochHead, obs: string, obstypes: seq<ObsType>, parseFloat: string -> Option<real>)
    returns (r: Result<seq<Observation>>)
    ensures r == LineFields(h, obs, obstypes, parseFloat)
  {
    var retobs: seq<Observation> := [];
    var k: nat := 3;
    var i := 0;
    if |obs| >= 3 {
      FieldsStart(h, obs, obstypes, parseFloat);
    }
    while i < |obstypes|
      invariant 0 <= i <= |obstypes|
      invariant k == FieldStart(i)
      invariant |obs| < 3 ==> retobs == []
      invariant |obs| >= 3 ==>
        LineFields(h, obs, obstypes, parseFloat) ==
        Prepend(retobs, DecodeFields(h, obs[0], ParseInt(obs[1..3]), Drop(obs, k), obstypes[i..], parseFloat))
    {
      SliceShort(obs, k);
      if |Slice(obs, k, k + 16)| < 16 {
        break;
      }
      DecodeFieldsStep(h, obs[0], ParseInt(obs[1..3]), obs, k, obstypes, i, parseFloat);
      var o :- FieldFromRinex(h, obs, k, obstypes[i], parseFloat);
      PrependAssoc(retobs, [o], DecodeFields(h, obs[0], ParseInt(obs[1..3]), Drop(obs, k + 16), obstypes[i + 1..], parseFloat));
      retobs := retobs + [o];
      k := k + 16;
      i := i + 1;
    }
    if |obs| >= 3 {
      FieldsDone(h, obs[0], ParseInt(obs[1..3]), obs, k, obstypes, i, parseFloat);
      PrependNilRight(retobs);
    }
    r := Ok(retobs);
  }

  // ---------------------------------------------------------------------
  // The body decoder.

  /** `fromRinex` as a value: skip empty lines, remember each `>` line and
      decode every other line under the latest one. A non-empty line of
      whitespace alone fails (`strip()[0]`), and so does a satellite line
      before any `>` line (its epoch line was never bound). */
  function DecodeBody(lines: seq<string>, obstypes: seq<ObsType>, headline: Option<string>, parseFloat: string -> Option<real>): Result<seq<Observation>>
    decreases |lines|
  {
    if lines == [] then Ok([])
    else
      var l := lines[0];
      if l == "" then DecodeBody(lines[1..], obstypes, headline, parseFloat)
      else if Strip(l) == "" then Err(IndexError)
      else if Strip(l)[0] == '>' then DecodeBody(lines[1..], obstypes, Some(l), parseFloat)
      else
        match headline
        case None => Err(NameError)
        case Some(head) =>
          var records :- DecodeLine(head, l, obstypes, parseFloat);
          Prepend(records, DecodeBody(lines[1..], obstypes, headline, parseFloat))
  }

  /** The epoch line in force after reading `lines`. */
  function LatestHead(lines: seq<string>, headline: Option<string>): Option<string>
    decreases |lines|
  {
    if lines == [] then headline
    else
      var l := lines[0];
      var next := if l != "" && Strip(l) != "" && Strip(l)[0] == '>' then Some(l) else headline;
      LatestHead(lines[1..], next)
  }

  /** One line of `DecodeBody`, read at index `i`. */
  lemma DecodeBodyStep(lines: seq<string>, i: nat, obstypes: seq<ObsType>, headline: Option<string>, parseFloat: string -> Option<real>)
    requires i <= |lines|
    ensures i == |lines| ==> DecodeBody(lines[i..], obstypes, headline, parseFloat) == Ok([])
    ensures i < |lines| ==>
      DecodeBody(lines[i..], obstypes, headline, parseFloat) ==
      var l := lines[i];
      if l == "" then DecodeBody(lines[i + 1..], obstypes, headline, parseFloat)
      else if Strip(l) == "" then Err(IndexError)
      else if Strip(l)[0] == '>' then DecodeBody(lines[i + 1..], obstypes, Some(l), parseFloat)
      else
        match headline
        case None => Err(NameError)
        case Some(head) =>
          var records :- DecodeLine(head, l, obstypes, parseFloat);
          Prepend(records, DecodeBody(lines[i + 1..], obstypes, headline, parseFloat))
  {
    if i < |lines| {
      assert lines[i..][0] == lines[i] && lines[i..][1..] == lines[i + 1..];
    }
  }

  lemma PrependAssoc(xs: seq<Observation>, ys: seq<Observation>, r: Result<seq<Observation>>)
    ensures Prepend(xs, Prepend(ys, r)) == Prepend(xs + ys, r)
  {
    if r.Ok? {
      assert xs + (ys + r.value) == (xs + ys) + r.value;
    }
  }

  lemma AppendAssoc(a: seq<Observation>, b: seq<Observation>, c: seq<Observation>)
    ensures (a + b) + c == a + (b + c)
  {
  }

  lemma PrependNilRight(xs: seq<Observation>)
    ensures Prepend(xs, Ok([])) == Ok(xs)
  {
    assert xs + [] == xs;
  }

  /** Decoding two runs of lines one after the other decodes the second
      under the epoch line the first left in force: the records come out in
      line order. */
  lemma {:induction false} DecodeBodyConcat(a: seq<string>, b: seq<string>, obstypes: seq<ObsType>, headline: Option<string>, parseFloat: string -> Option<real>)
    ensures DecodeBody(a + b, obstypes, headline, parseFloat) ==
      match DecodeBody(a, obstypes, headline, parseFloat)
      case Err(e) => Err(e)
      case Ok(v) => Prepend(v, DecodeBody(b, obstypes, LatestHead(a, headline), parseFloat))
    decreases |a|
  {
    if a == [] {
      assert a + b == b;
      PrependNil(DecodeBody(b, obstypes, headline, parseFloat));
    } else {
      assert (a + b)[0] == a[0] && (a + b)[1..] == a[1..] + b;
      var l := a[0];
      if l == "" || (Strip(l) != "" && Strip(l)[0] == '>') {
        var next := if l == "" then headline else Some(l);
        DecodeBodyConcat(a[1..], b, obstypes, next, parseFloat);
      } else if Strip(l) != "" && headline.Some? {
        DecodeBodyConcat(a[1..], b, obstypes, headline, parseFloat);
        var records := DecodeLine(headline.value, l, obstypes, parseFloat);
        if records.Ok? {
          match DecodeBody(a[1..], obstypes, headline, parseFloat)
          case Err(e) =>
          case Ok(v) =>
            PrependAssoc(records.value, v, DecodeBody(b, obstypes, LatestHead(a[1..], headline), parseFloat));
        }
      }
    }
  }

  /** Empty lines add nothing and change no state. */
  lemma DecodeBodyEmptyLine(lines: seq<string>, obstypes: seq<ObsType>, headline: Option<string>, parseFloat: string -> Option<real>)
    ensures DecodeBody([""] + lines, obstypes, headline, parseFloat) == DecodeBody(lines, obstypes, headline, parseFloat)
  {
    assert ([""] + lines)[1..] == lines;
  }

  /** With no observation types asked for, a satellite line yields no
      records (its epoch line must still decode). */
  lemma DecodeLineNoTypes(obshead: string, obs: string, parseFloat: string -> Option<real>)
    ensures DecodeLine(obshead, obs, [], parseFloat).Ok? ==> DecodeLine(obshead, obs, [], parseFloat).value == []
  {
  }

  /** With no observation types asked for, a body that decodes yields no
      records. */
  lemma {:induction false} DecodeBodyNoTypes(lines: seq<string>, headline: Option<string>, parseFloat: string -> Option<real>)
    ensures DecodeBody(lines, [], headline, parseFloat).Ok? ==> DecodeBody(lines, [], headline, parseFloat).value == []
    decreases |lines|
  {
    if lines != [] {
      var l := lines[0];
      if l == "" {
        DecodeBodyNoTypes(lines[1..], headline, parseFloat);
      } else if Strip(l) != "" && Strip(l)[0] == '>' {
        DecodeBodyNoTypes(lines[1..], Some(l), parseFloat);
      } else if Strip(l) != "" && headline.Some? {
        DecodeLineNoTypes(headline.value, l, parseFloat);
        DecodeBodyNoTypes(lines[1..], headline, parseFloat);
      }
    }
  }

  // ---------------------------------------------------------------------
  // The observation store.

  /** The test `o.epoch == e` of `getEpoch`. */
  function AtEpoch(e: Epoch): Observation -> bool {
    (o: Observation) => Eq(o.epoch, e)
  }

  /** The test `str(o.epoch) == key` of `getGroups`. */
  function HasKey(key: string, render: Epoch -> string): Observation -> bool {
    (o: Observation) => render(o.epoch) == key
  }

  /** Group keys in first-seen order. */
  function KeysInOrder(s: seq<Observation>, render: Epoch -> string): (ks: seq<string>)
    ensures forall i, j :: 0 <= i < j < |ks| ==> ks[i] != ks[j]
    ensures forall k :: k in ks <==> exists i :: 0 <= i < |s| && render(s[i].epoch) == k
  {
    if s == [] then []
    else
      var ks := KeysInOrder(s[..|s| - 1], render);
      var k := render(s[|s| - 1].epoch);
      assert forall i :: 0 <= i < |s| - 1 ==> s[..|s| - 1][i] == s[i];
      if k in ks then ks else ks + [k]
  }

  /** One more entry adds its key if new, and joins only its own group. */
  lemma GroupStep(s: seq<Observation>, i: nat, render: Epoch -> string)
    requires i < |s|
    ensures KeysInOrder(s[..i + 1], render) ==
      var ks := KeysInOrder(s[..i], render);
      var k := render(s[i].epoch);
      if k in ks then ks else ks + [k]
    ensures forall k ::
      Filter(s[..i + 1], HasKey(k, render)) ==
      Filter(s[..i], HasKey(k, render)) + (if render(s[i].epoch) == k then [s[i]] else [])
  {
    assert s[..i + 1][..i] == s[..i];
  }

  /** The grouping of a prefix, extended by the next entry, is the grouping
      of the longer prefix. */
  lemma GroupsExtend(s: seq<Observation>, i: nat, groups: map<string, seq<Observation>>, render: Epoch -> string)
    requires i < |s|
    requires forall k :: k in groups <==> k in KeysInOrder(s[..i], render)
    requires forall k :: k in groups ==> groups[k] == Filter(s[..i], HasKey(k, render))
    ensures
      var key := render(s[i].epoch);
      var g := groups[key := (if key in groups then groups[key] else []) + [s[i]]];
      && (forall k :: k in g <==> k in KeysInOrder(s[..i + 1], render))
      && (forall k :: k in g ==> g[k] == Filter(s[..i + 1], HasKey(k, render)))
  {
    var key := render(s[i].epoch);
    GroupStep(s, i, render);
    if key !in groups {
      NoKeyNoGroup(s[..i], key, render);
    }
  }

  /** The total size of the groups named by `ks`. */
  function GroupSizes(s: seq<Observation>, ks: seq<string>, render: Epoch -> string): nat
  {
    if ks == [] then 0
    else GroupSizes(s, ks[..|ks| - 1], render) + |Filter(s, HasKey(ks[|ks| - 1], render))|
  }

  /** Dropping the last entry shrinks its group, when it is among `ks`, by one. */
  lemma {:induction false} GroupSizesLast(s: seq<Observation>, ks: seq<string>, render: Epoch -> string)
    requires s != []
    requires forall i, j :: 0 <= i < j < |ks| ==> ks[i] != ks[j]
    ensures GroupSizes(s, ks, render) ==
      GroupSizes(s[..|s| - 1], ks, render) + (if render(s[|s| - 1].epoch) in ks then 1 else 0)
  {
    if ks != [] {
      var init := ks[..|ks| - 1];
      var k := ks[|ks| - 1];
      var x := s[|s| - 1];
      GroupSizesLast(s, init, render);
      assert render(x.epoch) in ks <==> render(x.epoch) in init || render(x.epoch) == k by {
        assert ks == init + [k];
      }
      assert render(x.epoch) == k ==> render(x.epoch) !in init;
      assert |Filter(s, HasKey(k, render))| ==
        |Filter(s[..|s| - 1], HasKey(k, render))| + (if render(x.epoch) == k then 1 else 0);
    }
  }

  lemma {:induction false} NoKeyNoGroup(s: seq<Observation>, k: string, render: Epoch -> string)
    requires k !in KeysInOrder(s, render)
    ensures Filter(s, HasKey(k, render)) == []
  {
    if s != [] {
      var init := s[..|s| - 1];
      assert forall i :: 0 <= i < |init| ==> init[i] == s[i];
      assert k !in KeysInOrder(init, render);
      NoKeyNoGroup(init, k, render);
      assert render(s[|s| - 1].epoch) != k;
    }
  }

  /** Every entry lies in exactly one group: the group sizes add up to the
      number of entries. */
  lemma {:induction false} GroupSizesTotal(s: seq<Observation>, render: Epoch -> string)
    ensures GroupSizes(s, KeysInOrder(s, render), render) == |s|
  {
    if s != [] {
      var init := s[..|s| - 1];
      var k := render(s[|s| - 1].epoch);
      var ks := KeysInOrder(init, render);
      GroupSizesTotal(init, render);
      GroupSizesLast(s, ks, render);
      if k !in ks {
        NewKeyGroup(s, ks, render);
      }
    }
  }

  /** A key first seen at the last entry names a group of that entry alone. */
  lemma NewKeyGroup(s: seq<Observation>, ks: seq<string>, render: Epoch -> string)
    requires s != [] && ks == KeysInOrder(s[..|s| - 1], render) && render(s[|s| - 1].epoch) !in ks
    ensures GroupSizes(s, ks + [render(s[|s| - 1].epoch)], render) == GroupSizes(s, ks, render) + 1
  {
    var k := render(s[|s| - 1].epoch);
    assert (ks + [k])[..|ks|] == ks;
    NoKeyNoGroup(s[..|s| - 1], k, render);
  }

  /** `Observations`: the decoded records in line order. */
  class Observations {
    var obslist: seq<Observation>

    /** A fresh, empty store for each construction. */
    constructor ()
      ensures obslist == []
    {
      obslist := [];
    }

    /** `fromRinex`: extend the store with the records of `lines`. A raised
        exception (`ok` false) aborts the caller, so the partly extended
        list it leaves behind is not modelled. */
    method FromRinex(lines: seq<string>, obstypes: seq<ObsType>, parseFloat: string -> Option<real>) returns (ok: bool)
      modifies this
      ensures ok <==> DecodeBody(lines, obstypes, None, parseFloat).Ok?
      ensures ok ==> obslist == old(obslist) + DecodeBody(lines, obstypes, None, parseFloat).value
    {
      var headline: Option<string> := None;
      ghost var added: seq<Observation> := [];
      PrependNil(DecodeBody(lines, obstypes, None, parseFloat));
      var i := 0;
      while i < |lines|
        invariant 0 <= i <= |lines|
        invariant obslist == old(obslist) + added
        invariant DecodeBody(lines, obstypes, None, parseFloat) ==
          Prepend(added, DecodeBody(lines[i..], obstypes, headline, parseFloat))
      {
        var l := lines[i];
        DecodeBodyStep(lines, i, obstypes, headline, parseFloat);
        if l != "" {
          if Strip(l) == "" {
            return false;
          }
          if Strip(l)[0] == '>' {
            headline := Some(l);
          } else {
            if headline.None? {
              return false;
            }
            var records := LineFromRinex(headline.value, l, obstypes, parseFloat);
            if records.Err? {
              return false;
            }
            PrependAssoc(added, records.value, DecodeBody(lines[i + 1..], obstypes, headline, parseFloat));
            AppendAssoc(old(obslist), added, records.value);
            obslist := obslist + records.value;
            added := added + records.value;
          }
        }
        i := i + 1;
      }
      PrependNilRight(added);
      ok := true;
    }

    /** `getSatellite`: the loop reads `o.values` of the first entry, an
        attribute no `Observation` has (`_lineFromRinex` sets `values` on the
        store instead), so any entry raises AttributeError (`ok` false) before
        `sat` and `sys` are compared; only an empty store returns, with the
        empty list. */
    method GetSatellite(sat: string, sys: char) returns (ok: bool, r: seq<Observation>)
      ensures ok <==> obslist == []
      ensures r == []
    {
      ok, r := true, [];
      if |obslist| > 0 {
        ok := false;
      }
    }

    /** `getEpoch`: the entries at epoch `e`, in store order. */
    method GetEpoch(e: Epoch) returns (r: seq<Observation>)
      ensures r == Filter(obslist, AtEpoch(e))
    {
      r := [];
      var i := 0;
      while i < |obslist|
        invariant 0 <= i <= |obslist|
        invariant r == Filter(obslist[..i], AtEpoch(e))
      {
        assert obslist[..i + 1][..i] == obslist[..i];
        if obslist[i].epoch == e {
          r := r + [obslist[i]];
        }
        i := i + 1;
      }
      assert obslist[..i] == obslist;
    }

    /** `getGroups`: the entries keyed by the rendered epoch, each group in
        store order. `render` is `str()` of an epoch, which is
        `Epochs.ToString` with the seconds formatter. */
    method GetGroups(render: Epoch -> string) returns (groups: map<string, seq<Observation>>)
      ensures forall k :: k in groups <==> k in KeysInOrder(obslist, render)
      ensures forall k :: k in groups ==> groups[k] == Filter(obslist, HasKey(k, render))
    {
      groups := map[];
      var i := 0;
      while i < |obslist|
        invariant 0 <= i <= |obslist|
        invariant forall k :: k in groups <==> k in KeysInOrder(obslist[..i], render)
        invariant forall k :: k in groups ==> groups[k] == Filter(obslist[..i], HasKey(k, render))
      {
        var o := obslist[i];
        var key := render(o.epoch);
        GroupsExtend(obslist, i, groups, render);
        var group := if key in groups then groups[key] else [];
        groups := groups[key := group + [o]];
        i := i + 1;
      }
      assert obslist[..i] == obslist;
    }
  }

  lemma {:induction false} LatestHeadAppend(a: seq<string>, l: string, headline: Option<string>)
    ensures LatestHead(a + [l], headline) ==
      if l != "" && Strip(l) != "" && Strip(l)[0] == '>' then Some(l) else LatestHead(a, headline)
    decreases |a|
  {
    if a == [] {
      assert [l][1..] == [];
    } else {
      var l0 := a[0];
      var next := if l0 != "" && Strip(l0) != "" && Strip(l0)[0] == '>' then Some(l0) else headline;
      assert (a + [l])[0] == l0 && (a + [l])[1..] == a[1..] + [l];
      LatestHeadAppend(a[1..], l, next);
    }
  }
}
