# pyrinex in Dafny

pyrinex reads RINEX observation files, the text format GNSS receivers use
to record what they measured. A file is a header and a body. The header is
60 columns of data per line, with a label from column 61 and a last line
labelled `END OF HEADER`. The body is a sequence of epochs: a `>` line
with the epoch time, flag and satellite count, then one line per
satellite with 16-column observation fields.

The repository has two layers, and this project models both:

- **The object layer** parses the file into objects:
  - `Epoch`: GPS time and the Julian-date arithmetic behind it;
  - `ObsType`, `Observation` and `Observations`: the body decoder;
  - `Rinex` and `RinexObservation`: the file, its header terminator and
    the label-dispatched `ObsHeader` parser.
- **The cleaning scripts** work line by line on RINEX 3 files:
  - `rinex3_blank_obs_removal.py` and `rinex302_classes.py` split a file
    into a header and epochs. They list the `SYS / # / OBS TYPES` lines
    and drop observation lines of satellite systems the header does not
    announce.
  - `rinexlib.py` adds a `TIME OF LAST OBS` line to a header. It gathers
    the observation types, start time and interval of a header and builds
    a system/observable index.

The modules are:

- `Epochs`, `Obs`, `Rinex`, `RinexObs` for the object layer;
- `R3Lines` for what the scripts share: the epoch partition, the
  observable lines, the system table and the header scan;
- `BlankObsRemoval`, `Rinex302`, `RinexLib`, one per script;
- `Outcomes`, `PyText`, `Seqs`, `StringOrder` for Python's exceptions,
  `str` methods, list filtering and `sorted`.

Each Python exception (IndexError, ValueError, KeyError, NameError,
TypeError) is an `Err` of `Outcomes.Result`. Operations that change
objects in place in the source are methods on classes:
`Obs.Observations`, `RinexObs.ObsHeader`, `RinexObs.RinexObservation`,
`Rinex302.EpochRecord` and `Rinex302.Rinex302Object`. Those methods are
proved against the functions that define the result, and the properties
are proved about those functions.

Some parts of the source become function parameters:

- `float()` of a text is `parseFloat`, returning `None` where Python
  raises ValueError;
- `datetime.strptime` is `dateAccepted`;
- the renderings `%04.1f` and `{: >f}` are `formatSecond` and
  `renderFixed`;
- `str()` of an epoch used as a dictionary key is `render`.

A file arrives as its text or as its list of lines.

Where the code and its description differed, the model follows the code.
Two examples:

- `Epoch.__ge__` is strict, so `e >= e` is false.
- Rewriting a satellite count of one digit shortens the epoch line by one
  column.

## Model

| member | source | states |
|---|---|---|
| Epochs.Trunc | epoch.py:73 | `int()` of a float truncates toward zero: within one below a non-negative value, within one above a negative one |
| Epochs.Eq | epoch.py:33-38 | `__eq__` holds exactly when all six calendar fields agree |
| Epochs.JulianDateIntegerForm | epoch.py:63-74 | the truncated `365.25*Y` and `30.6001*(M+1)` terms are the integer quotients `1461*Y div 4` and `306001*(M+1) div 10000`, and the Julian Date is that day number plus one half plus the hour fraction |
| Epochs.JulianDateMonthLength | epoch.py:63-74 | from the first of a month to the first of the next, the Julian Date grows by the length of that month (Julian-calendar leap rule) |
| Epochs.DayNumberMonthLength | epoch.py:63-74 | the same on the integer day number |
| Epochs.YearLength | epoch.py:73 | consecutive `1461*y div 4` values differ by 366 in years divisible by four and by 365 otherwise |
| Epochs.JulianDateNextDay | epoch.py:63-74 | one calendar day later the Julian Date is one more |
| Epochs.GPSOrigin | epoch.py:63-107 | 1980-01-06 00:00:00 is Julian Date 2444244.5, GPS week 0, day 0 and second 0 of the week |
| Epochs.GPSSecRange | epoch.py:82-89 | the seconds of the day of a valid epoch lie in [0, 86400) |
| Epochs.GPSDay | epoch.py:91-95 | the day of the week is in 0..6 |
| Epochs.GPSWeekAndDay | epoch.py:91-101 | from the GPS origin on, the days elapsed are 7 times the GPS week plus the GPS day |
| Epochs.GPSDayNextDay | epoch.py:91-95 | on the next calendar day the day of the week advances by one, modulo 7 |
| Epochs.GPSTimeOfWeekRange | epoch.py:103-107 | the seconds of the week of a valid epoch lie in [0, 604800) and are the whole days of the week times 86400 plus the seconds of the day |
| Epochs.LessIrreflexive | epoch.py:40-52 | no epoch is `<` itself |
| Epochs.LessTransitive | epoch.py:40-52 | `<` is transitive |
| Epochs.EqNotLess | epoch.py:33-52 | field-equal epochs are not `<` one another in either direction |
| Epochs.GeIsStrict | epoch.py:54-61 | `__ge__` holds exactly when the epoch is not `<` the other and differs from it, so `e >= e` is false |
| Epochs.LessIsChronological | epoch.py:40-52 | on valid fields, `<` is exactly the order of the elapsed time (day number times 86400 plus seconds of day) |
| Epochs.TwoDigitsRoundTrip | epoch.py:25 | a `%02d` field of 0..99 has two characters and reads back with `int()` |
| Epochs.FourDigitYear | epoch.py:25 | a `%4d` year of four digits is its plain decimal text |
| Epochs.ToStringRoundTrip | epoch.py:21-25 | on valid fields with a four-digit year, `__str__` puts `/`, `/`, blank, `:`, `:` at columns 3, 6, 11, 14 and 17, each integer field reads back with `int()` from its columns, and the rendered seconds follow |
| Epochs.JulianDate | epoch.py:63-74 | definition of `JulianDate`; characterised by `JulianDateIntegerForm`, `JulianDateMonthLength`, `JulianDateNextDay` and `GPSOrigin` |
| Epochs.ModifiedJulianDate | epoch.py:76-80 | definition of `ModifiedJulianDate`, the Julian Date less 2400000.5; the first key of `Less`, characterised by `LessIsChronological` |
| Epochs.GPSSec | epoch.py:82-89 | definition of `GPSSec`; characterised by `GPSSecRange` and `GPSTimeOfWeekRange` |
| Epochs.GPSWeek | epoch.py:97-101 | definition of `GPSWeek`; characterised by `GPSWeekAndDay` and `GPSOrigin` |
| Epochs.GPSTimeOfWeek | epoch.py:103-107 | definition of `GPSTimeOfWeek`; characterised by `GPSTimeOfWeekRange` and `GPSOrigin` |
| Epochs.Less | epoch.py:40-52 | definition of `__lt__`; characterised by `LessIrreflexive`, `LessTransitive`, `EqNotLess` and `LessIsChronological` |
| Epochs.Ge | epoch.py:54-61 | definition of `__ge__`; characterised by `GeIsStrict` |
| Epochs.ToString | epoch.py:21-25 | definition of `__str__`; characterised by `ToStringRoundTrip` |
| Obs.ParseObsType | obs.py:15-28 | a 3-character code means GPS and a 4-character code names its system; other lengths fail (TypeError); the band must be a digit; otherwise the fields are those characters |
| Obs.CodeRoundTrip | obs.py:15-46 | a parsed 4-character code is reproduced by `__repr__`, a 3-character code by `ToStr` and by `__repr__` with `G` in front |
| Obs.ReprParses | obs.py:15-35 | every type with a one-digit band is parsed back from its `__repr__` |
| Obs.ToStrParses | obs.py:15-46 | a GPS type with a one-digit band is parsed back from its `ToStr` |
| Obs.Repr | obs.py:30-35 | definition of `__repr__`; characterised by `CodeRoundTrip` and `ReprParses` |
| Obs.ToStr | obs.py:45-46 | definition of `ToStr`; characterised by `CodeRoundTrip` and `ToStrParses` |
| Obs.IntToken | obs.py:124-133 | `int(tokens[i])`: IndexError past the end, ValueError on malformed text |
| Obs.FloatToken | obs.py:131-137 | `float(tokens[i])`: IndexError past the end, ValueError when `float` refuses |
| Obs.ParseEpochLine | obs.py:124-137 | definition of the epoch-line reading of `_lineFromRinex`; characterised by `DecodeLineRecords`, `DecodeLineField` and `DecodeLineUnfold` |
| Obs.DecodeField | obs.py:146-157 | a 16-column field decodes exactly when the satellite number, the 14-column value, a blank-or-digit loss-of-lock column and a digit signal-strength column all convert; the record carries the epoch-line values, the value and the strength, and no loss of lock; failures are ValueError |
| Obs.DigitOf | obs.py:149-151 | a one-column field converts exactly when it is a digit, to its value; otherwise ValueError |
| Obs.DigitOfIsInt | obs.py:150-151 | `DigitOf` agrees with Python `int()` on one character |
| Obs.DecodeFieldsSpec | obs.py:141-157 | the fields of a satellite line decode exactly when each of the first `min(types, len div 16)` fields does, into one record per field, in order |
| Obs.DecodeFields | obs.py:141-157 | definition of the field loop over the remaining types; characterised by `DecodeFieldsSpec` and `DecodeFieldsAt` |
| Obs.LineFields | obs.py:141-158 | definition of the records of one satellite line; characterised by `FieldsFromRinex` |
| Obs.DecodeLine | obs.py:116-158 | definition of `_lineFromRinex`; characterised by `DecodeLineRecords`, `DecodeLineField`, `DecodeLineUnfold`, `DecodeLineNoTypes` and `LineFromRinex` |
| Obs.DecodeLineUnfold | obs.py:116-158 | a satellite line decodes only under a well-formed epoch line, into the records of its fields from column 4 on |
| Obs.DecodeFieldsAt | obs.py:141-157 | record `i` comes from the field at column `3 + 16 i` and the `i`-th requested type |
| Obs.DecodeLineField | obs.py:116-158 | record `i` of a decoded line is the `i`-th requested type decoded from the field at column `3 + 16 i` under the epoch line |
| Obs.DecodeLineRecords | obs.py:116-158 | a decoded line has `min(types, (len - 3) div 16)` records; each carries its type, the epoch, flag and clock offset of the epoch line, the line's system and satellite, the parsed value and signal strength |
| Obs.SliceShort | obs.py:143 | `len(obs[k:k+16]) < 16` holds exactly when the line ends before column `k + 16` |
| Obs.LineFromRinex | obs.py:116-158 | `_lineFromRinex` returns the records `DecodeLine` defines, or its error |
| Obs.FieldFromRinex | obs.py:146-157 | one pass of the field loop yields `DecodeField` of the field at column `k` |
| Obs.FieldsFromRinex | obs.py:141-158 | the field loop, with its early `break` on a short field, yields the records of `LineFields` |
| Obs.DecodeBodyStep | obs.py:107-114 | empty lines are skipped, a blank line raises IndexError, a `>` line becomes the epoch line, and any other line raises NameError before the first epoch line and otherwise adds its records |
| Obs.DecodeBody | obs.py:107-114 | definition of `fromRinex`; characterised by `DecodeBodyStep`, `DecodeBodyConcat`, `DecodeBodyEmptyLine`, `DecodeBodyNoTypes` and `Observations.FromRinex` |
| Obs.LatestHead | obs.py:107-110 | definition of the `headline` in force after a run of lines; characterised by `LatestHeadAppend` |
| Obs.DecodeBodyConcat | obs.py:107-114 | decoding two runs of lines decodes the second under the epoch line the first left in force, and concatenates the records |
| Obs.DecodeBodyEmptyLine | obs.py:108 | an empty line adds nothing and changes no state |
| Obs.DecodeLineNoTypes | obs.py:141-145 | with no requested types a satellite line yields no records |
| Obs.DecodeBodyNoTypes | obs.py:107-114 | with no requested types a body that decodes yields no records |
| Obs.LatestHeadAppend | obs.py:109-110 | the epoch line in force after one more line is that line if it is a `>` line, and otherwise unchanged |
| Obs.KeysInOrder | obs.py:186-192 | the group keys are duplicate-free and are exactly the rendered epochs of the entries |
| Obs.GroupStep | obs.py:187-192 | one more entry adds its key if new and joins only its own group |
| Obs.GroupsExtend | obs.py:187-192 | the dictionary after one more entry holds the keys and groups of the longer prefix |
| Obs.NoKeyNoGroup | obs.py:186-192 | a key no entry renders to has an empty group |
| Obs.GroupSizesTotal | obs.py:186-194 | every entry lies in exactly one group: the group sizes add up to the number of entries |
| Obs.Observations.constructor | obs.py:96-100 | a new store is empty |
| Obs.Observations.FromRinex | obs.py:102-114 | `fromRinex` succeeds exactly when the body decodes, and then appends its records to the store in order |
| Obs.Observations.GetEpoch | obs.py:171-179 | `getEpoch` returns the entries whose epoch equals the argument, in store order |
| Obs.Observations.GetSatellite | obs.py:160-169 | `getSatellite` returns (the empty list) exactly for an empty store, and otherwise raises AttributeError, modelled as `ok` false |
| Obs.Observations.GetGroups | obs.py:181-194 | `getGroups` has a key for exactly the rendered epochs of the store, each mapped to the entries with that key in store order |
| Rinex.SplitLines | rinex.py:21-26 | `read().split('\n')` yields at least one line and no line holds a newline |
| Rinex.JoinSplitLines | rinex.py:21-26 | joining the lines with newlines gives back the text |
| Rinex.SplitJoinLines | rinex.py:21-26 | splitting newline-free lines joined by newlines gives back the lines |
| Rinex.FirstTerminator | rinex.py:31-34 | the index of the first line whose stripped text holds `END OF HEADER`, or the number of lines |
| Rinex.HeaderOf | rinex.py:27-34 | `getheader` returns a prefix of the lines none of which is a terminator; when non-empty, the next line is the terminator |
| Rinex.GetHeader | rinex.py:31-34 | the loop returns `HeaderOf` |
| Rinex.BodyOf | rinex.py:49 | the lines after the header and its terminator (none when there is no room) |
| Rinex.HeaderBodySplit | rinex.py:43-49 | a non-empty header, its terminator line and the body are the file's lines in order |
| Rinex.EmptyHeaderCases | rinex.py:31-47 | the header is empty exactly when there is no terminator or the terminator is the first line |
| Rinex.EolFixed | rinex.py:64-67 | with `eolcheck`, a non-empty line ends in a newline, added only when missing; otherwise the line is unchanged |
| Rinex.EolFixedIdempotent | rinex.py:64-67 | fixing a line end twice is fixing it once |
| Rinex.WriteLines | rinex.py:57-68 | `writelines` writes each line with its end fixed, in order |
| RinexObs.LabelOf | rinexobs.py:49-120 | a stripped label selects one branch of `parseline`; any other text selects none |
| RinexObs.ItemAt | rinexobs.py:52-53 | `data[i]` of the data part and `split[i]` of its words raise IndexError exactly past the end, and otherwise give the item |
| RinexObs.Int | rinexobs.py:88-89 | `int()` of a field fails with ValueError exactly when the text is not a Python 2 integer (blanks around it, an optional sign, optional blanks after the sign, then digits); otherwise it gives that integer |
| PyText.ParseIntSigned | rinexobs.py:88-89 | Python 2 `int()` of a sign, any whitespace and a run of digits is the signed value of the digits, so `int('- 8')` is -8 |
| RinexObs.Float | rinexobs.py:84-86 | `float()` of a field fails with ValueError exactly when `float` refuses it |
| RinexObs.MarkerTypeCode | rinexobs.py:64-71 | `GEODETIC` is 1, `NON_GEODETIC` is 2, anything else 0 |
| RinexObs.EpochOfColumns | rinexobs.py:95-104 | the TIME OF FIRST/LAST OBS columns convert or fail with ValueError |
| RinexObs.ApplyVersion | rinexobs.py:50-53 | `RINEX VERSION / TYPE` leaves the observation types alone |
| RinexObs.ApplyProgram | rinexobs.py:54-59 | `PGM / RUN BY / DATE` leaves the observation types alone |
| RinexObs.ApplyAntennaDelta | rinexobs.py:83-86 | `ANTENNA: DELTA H/E/N` leaves the observation types alone |
| RinexObs.ApplyObsTime | rinexobs.py:95-114 | `TIME OF FIRST/LAST OBS` leaves the observation types alone |
| RinexObs.ApplySys | rinexobs.py:87-94 | `SYS / # / OBS TYPES` only extends the observation types and changes no other attribute; a non-GPS line changes nothing |
| RinexObs.AddSysTypes | rinexobs.py:90-93 | the codes loop only extends the observation types, and only for GPS |
| RinexObs.ApplyApprox | rinexobs.py:115-120 | `APPROX POSITION XYZ` leaves the observation types alone |
| RinexObs.ObsTypesOfOk | rinexobs.py:92-93 | the codes loop succeeds exactly when the first `n` words are there and parse |
| RinexObs.ObsTypesOfValue | rinexobs.py:92-93 | on success it yields those `n` words parsed, in order |
| RinexObs.ObsTypesOfShort | rinexobs.py:92-93 | asking for more codes than there are words raises IndexError |
| RinexObs.ObsTypesOfErrStays | rinexobs.py:92-93 | once the codes loop raises, later iterations are never reached |
| RinexObs.ObsTypesOf | rinexobs.py:92-93 | definition of the codes loop; characterised by `ObsTypesOfOk`, `ObsTypesOfValue`, `ObsTypesOfShort` and `ObsTypesOfErrStays` |
| RinexObs.ApplyLabelGpsTypes | rinexobs.py:43-120 | a branch only ever appends to the observation types, and only a GPS `SYS` line does so |
| RinexObs.OtherLabelKeepsTypes | rinexobs.py:43-120 | every branch but `SYS` keeps the observation types |
| RinexObs.ApplyLineGpsTypes | rinexobs.py:43-120 | the same for `parseline` on a raw label |
| RinexObs.ApplyLine | rinexobs.py:43-49 | definition of `parseline`; characterised by `ApplyLineGpsTypes`, `TerminatorIgnored` and `ObsHeader.ParseLine` |
| RinexObs.ApplyLabel | rinexobs.py:50-120 | definition of the branches of `parseline`; characterised by `ApplyLabelGpsTypes`, `OtherLabelKeepsTypes`, `UnknownLabel`, `ApplyLabelIndexError` and `ObsHeader.ParseLabel` |
| RinexObs.ApplyMarkerName | rinexobs.py:60-61 | definition of the `MARKER NAME` branch; characterised by `ObsHeader.ParseMarkerName` and `OtherLabelKeepsTypes` |
| RinexObs.ApplyMarkerNumber | rinexobs.py:62-63 | definition of the `MARKER NUMBER` branch; characterised by `ObsHeader.ParseMarkerNumber` and `OtherLabelKeepsTypes` |
| RinexObs.ApplyMarkerType | rinexobs.py:64-72 | definition of the `MARKER TYPE` branch; characterised by `MarkerTypeCode` and `ObsHeader.ParseMarkerType` |
| RinexObs.ApplyObserver | rinexobs.py:73-75 | definition of the `OBSERVER / AGENCY` branch; characterised by `ObsHeader.ParseObserver` and `OtherLabelKeepsTypes` |
| RinexObs.ApplyReceiver | rinexobs.py:76-79 | definition of the `REC # / TYPE / VERS` branch; characterised by `ReceiverFieldsAgree` and `ObsHeader.ParseReceiver` |
| RinexObs.ApplyAntennaType | rinexobs.py:80-82 | definition of the `ANT # / TYPE` branch; characterised by `ObsHeader.ParseAntennaType` and `OtherLabelKeepsTypes` |
| RinexObs.ApplySysGps | rinexobs.py:87-93 | a GPS `SYS` line runs the codes loop over the words of columns 7 on with the count of columns 4-6 |
| RinexObs.GpsTypesAdded | rinexobs.py:90-93 | the GPS codes loop succeeds exactly when the first `n` words parse, and appends exactly those, in order |
| RinexObs.GpsSysLine | rinexobs.py:87-94 | a GPS `SYS` line with count `n` appends the first `n` codes of columns 7 on, and fails exactly when they are missing or malformed |
| RinexObs.OtherSysLine | rinexobs.py:87-94 | a `SYS` line of another system changes nothing once its count parses, and raises ValueError otherwise |
| RinexObs.UnknownLabel | rinexobs.py:49-120 | a line with an unrecognised label changes no attribute |
| RinexObs.ReceiverFieldsAgree | rinexobs.py:76-79 | `REC # / TYPE / VERS` never fails and sets number, type and version all to columns 1-20 |
| RinexObs.ApplyLabelIndexError | rinexobs.py:50-120 | with a full 60-column data part, only `SYS` and `APPROX POSITION XYZ` can raise IndexError |
| RinexObs.HeaderLineIndexError | rinexobs.py:15-120 | on a header line, IndexError can come only from a `SYS` or `APPROX POSITION XYZ` line |
| RinexObs.ShortLineIgnored | rinexobs.py:20-21 | a line shorter than 60 columns sets nothing |
| RinexObs.NoLabelIgnored | rinexobs.py:20-21 | a line with blank label columns sets nothing |
| RinexObs.HeaderLineLabel | rinexobs.py:20-21 | a header line is parsed as its first 60 columns under the label of columns 60 on, stripped |
| RinexObs.ApplyHeaderLine | rinexobs.py:20-21 | definition of one pass of the `__init__` loop; characterised by `HeaderLineLabel`, `ShortLineIgnored`, `NoLabelIgnored` and `HeaderLineIndexError` |
| RinexObs.HeaderTerminator | rinexobs.py:121-126 | the terminator is 60 blanks, `END OF HEADER`, 6 blanks |
| RinexObs.TerminatorEndsHeader | rinexobs.py:121-126 | the terminator is recognised as a header end when read back |
| RinexObs.TerminatorIgnored | rinexobs.py:121-126 | `parseline` sets nothing for the terminator |
| RinexObs.TerminatorLabelColumns | rinexobs.py:121-126 | the terminator's label columns select no branch |
| RinexObs.ApplyHeaderSnoc | rinexobs.py:20-21 | the header state after one more line is that line applied to the previous state, unless an earlier line raised |
| RinexObs.ApplyHeaderErrStays | rinexobs.py:20-21 | a header line that raises aborts the whole header |
| RinexObs.ApplyHeader | rinexobs.py:15-21 | definition of the `__init__` loop; characterised by `ApplyHeaderSnoc`, `ApplyHeaderErrStays` and `ObsHeader.ParseLines` |
| RinexObs.ObsHeader.constructor | rinexobs.py:19 | a new header holds only the empty observation types |
| RinexObs.ObsHeader.ParseLines | rinexobs.py:15-21 | the loop of `__init__` succeeds exactly when `ApplyHeader` does, and leaves its attributes |
| RinexObs.ObsHeader.ParseLine | rinexobs.py:43-49 | `parseline` succeeds exactly when `ApplyLine` does, and leaves its attributes |
| RinexObs.ObsHeader.ParseLabel | rinexobs.py:50-120 | the branch of a label succeeds exactly when `ApplyLabel` does, and leaves its attributes |
| RinexObs.ObsHeader.ParseMarkerName | rinexobs.py:60-61 | `MARKER NAME` sets the stripped data |
| RinexObs.ObsHeader.ParseMarkerNumber | rinexobs.py:62-63 | `MARKER NUMBER` sets columns 1-20, stripped |
| RinexObs.ObsHeader.ParseMarkerType | rinexobs.py:64-72 | `MARKER TYPE` sets the code of columns 1-20 |
| RinexObs.ObsHeader.ParseObserver | rinexobs.py:73-75 | `OBSERVER / AGENCY` sets columns 1-20 and 21 on |
| RinexObs.ObsHeader.ParseReceiver | rinexobs.py:76-79 | `REC # / TYPE / VERS` sets all three fields from columns 1-20 |
| RinexObs.ObsHeader.ParseAntennaType | rinexobs.py:80-82 | `ANT # / TYPE` sets columns 1-20 and 21-40 |
| RinexObs.ObsHeader.ParseVersion | rinexobs.py:50-53 | `RINEX VERSION / TYPE` succeeds exactly when `ApplyVersion` does, and sets its fields |
| RinexObs.ObsHeader.ParseProgram | rinexobs.py:54-59 | `PGM / RUN BY / DATE` succeeds exactly when `strptime` accepts the date, and sets its fields |
| RinexObs.ObsHeader.ParseAntennaDelta | rinexobs.py:83-86 | `ANTENNA: DELTA H/E/N` succeeds exactly when the three floats convert, and sets them |
| RinexObs.ObsHeader.ParseObsTime | rinexobs.py:95-114 | `TIME OF FIRST/LAST OBS` succeeds exactly when the columns convert, and sets the epoch |
| RinexObs.ObsHeader.ParseSys | rinexobs.py:87-94 | the `SYS` branch succeeds exactly when `ApplySys` does, and leaves its observation types |
| RinexObs.ObsHeader.AddGpsTypes | rinexobs.py:92-93 | the codes loop appends exactly what `AddSysTypes` appends, or raises as it does |
| RinexObs.ObsHeader.ParseApprox | rinexobs.py:115-120 | `APPROX POSITION XYZ` succeeds exactly when `ApplyApprox` does, and sets X, Y, Z |
| RinexObs.Load | rinex.py:12-55 | without a file name nothing but the name is set; otherwise the text is split into lines and loaded |
| RinexObs.ParseFile | rinexobs.py:132-146 | `_getheader` then `_getcontents` succeed exactly when the header parses and the body decodes against its GPS types; a header error is the result's error; missing GPS types are flagged, not raised |
| RinexObs.LoadNoTerminator | rinex.py:41-47 | a file with an empty header keeps all its lines unparsed and flags the missing terminator, which happens exactly for no terminator or a terminator on the first line |
| RinexObs.LoadLayout | rinex.py:41-49 | a loaded file with a header is its header lines, one terminator line and its body lines, in order |
| RinexObs.LoadErrors | rinexobs.py:132-146 | loading fails exactly when the file has a header and a header line or a body line raises; a header error is the load's error |
| RinexObs.LoadNoObsTypes | rinexobs.py:136-140 | a header without GPS observation types is flagged, and the body then yields no observations |
| RinexObs.LoadLines | rinex.py:39-55 | definition of reading the lines of a file; characterised by `LoadNoTerminator`, `LoadLayout`, `LoadErrors`, `LoadNoObsTypes` and `RinexObservation.ReadFile` |
| RinexObs.TerminatorSplitsHeader | rinexobs.py:163-164 | header lines followed by `headerterminator()` read back as the same header and body |
| RinexObs.RinexObservation.constructor | rinex.py:35 | only the file name is set |
| RinexObs.RinexObservation.Open | rinex.py:12-55 | construction succeeds exactly when `Load` does, giving a new object in the state `Load` describes |
| RinexObs.RinexObservation.ReadFile | rinex.py:40-55 | the `else` branch leaves the state `LoadLines` describes, or fails as it does |
| RinexObs.RinexObservation.KeepUnterminated | rinex.py:41-47 | an unterminated file keeps all its lines and an empty header |
| RinexObs.RinexObservation.ReadSections | rinex.py:43-53 | header and body lines are kept, then parsed as `ParseFile` describes |
| RinexObs.RinexObservation.ReadHeader | rinexobs.py:132-140 | `_getheader` builds a new header from the header lines and flags missing GPS types |
| RinexObs.RinexObservation.ReadContents | rinexobs.py:141-146 | `_getcontents` builds a new store holding the body's records |
| R3Lines.Partition | rinex3_blank_obs_removal.py:183-195 | the lists before the final `pop` are one per epoch line plus the open one |
| R3Lines.Markers | rinex3_blank_obs_removal.py:183-197 | definition of the number of epoch lines; characterised through `Partition`, `EpochsOf` and `EpochsCount` |
| R3Lines.EpochsOf | rinex3_blank_obs_removal.py:183-197 | `create_epochs_list` returns one list per epoch line |
| R3Lines.CreateEpochsList | rinex3_blank_obs_removal.py:183-197 | the loop returns `EpochsOf` |
| R3Lines.PartitionOpen | rinex3_blank_obs_removal.py:189-196 | the open list holds every line while no epoch line is seen, and is empty after one |
| R3Lines.PartitionClosed | rinex3_blank_obs_removal.py:189-195 | every list before the open one holds exactly one epoch line, and those after the first start with it |
| R3Lines.PartitionFlatten | rinex3_blank_obs_removal.py:189-195 | the lists, concatenated, are the input |
| R3Lines.EpochsCount | rinex3_blank_obs_removal.py:183-197 | one epoch per epoch line, each non-empty with exactly one epoch line |
| R3Lines.EpochsFlatten | rinex3_blank_obs_removal.py:183-197 | the epochs, concatenated, are the input, except that with no epoch line every line is lost |
| R3Lines.EpochsStart | rinex3_blank_obs_removal.py:183-197 | when the input starts with an epoch line, every epoch starts with its only epoch line |
| R3Lines.EpochsElements | rinex3_blank_obs_removal.py:183-197 | every line of every epoch is an input line |
| R3Lines.ObservablesOf | rinex3_blank_obs_removal.py:22-27 | every collected observable line is 60 columns wide |
| R3Lines.ObservablesConcat | rinex3_blank_obs_removal.py:22-27 | the observables of two runs of lines are those of each, in order |
| R3Lines.ObservablesOne | rinex3_blank_obs_removal.py:25-26 | one line contributes its first 60 columns exactly when `SYS / # / OBS TYPES` starts at column 61 |
| R3Lines.FindObservables | rinex3_blank_obs_removal.py:22-27 | the loop of `find_observables` returns `ObservablesOf` |
| R3Lines.SystemName | rinex3_blank_obs_removal.py:11-17 | `SYSTEM_IDENTIFIERS` names exactly G, R, S, E, C and J |
| R3Lines.SystemNamesDistinct | rinex3_blank_obs_removal.py:11-17 | different identifiers name different constellations |
| R3Lines.SatelliteSystems | rinex3_blank_obs_removal.py:48-52 | `satellite_systems()` names each system in order, and raises KeyError exactly when one is unknown |
| R3Lines.FirstWithPrefix | rinex3_blank_obs_removal.py:55-58 | the index of the first observable line starting with the system, or the number of lines |
| R3Lines.FirstWithPrefixIs | rinex3_blank_obs_removal.py:55-58 | a matching line no earlier line matches is that index |
| R3Lines.SysObservables | rinex3_blank_obs_removal.py:55-58 | `sys_observables` returns the words of columns 8-60 of the first line of the system, and `None` exactly when there is none |
| R3Lines.HeaderEnd | rinex3_blank_obs_removal.py:121-125 | the index of the first line holding `END OF HEADER`, or the number of lines |
| R3Lines.HeaderLength | rinex302_classes.py:30-33 | the header gathered by the `enumerate` loop runs up to and including the first `END OF HEADER` line, or is all lines |
| R3Lines.ScanHeader | rinex3_blank_obs_removal.py:121-125 | the loop gathers the lines up to and including the first `END OF HEADER` line, and reports where that line is, or none |
| R3Lines.CopyFrom | rinex3_blank_obs_removal.py:126-127 | the copy loop yields the lines from `start` on |
| BlankObsRemoval.NewR3Header | rinex3_blank_obs_removal.py:21-40 | `R3_Header(lines)` keeps the lines, index 0, the observable lines in order and the first character of each as its system |
| BlankObsRemoval.HeaderSystems | rinex3_blank_obs_removal.py:29-33 | a system is listed exactly when some observable line starts with it |
| BlankObsRemoval.EpochHeader | rinex3_blank_obs_removal.py:77-81 | `epoch_header()` returns the first line when it is an epoch line and nothing otherwise; IndexError on an empty epoch or first line |
| BlankObsRemoval.Name | rinex3_blank_obs_removal.py:82-83 | `name()` is columns 3-29 of the first line; IndexError on an empty epoch |
| BlankObsRemoval.Flag | rinex3_blank_obs_removal.py:84-85 | `flag()` is column 32 of the first line; IndexError when there is none |
| BlankObsRemoval.NumSats | rinex3_blank_obs_removal.py:86-87 | `num_sats()` is columns 34-35 of the first line; IndexError on an empty epoch |
| BlankObsRemoval.SatSys | rinex3_blank_obs_removal.py:97-98 | `sat_sys()` is the first character of the line; IndexError on an empty line |
| BlankObsRemoval.SplitFile | rinex3_blank_obs_removal.py:112-132 | `split_file` raises NameError exactly when no line ends the header; otherwise the header is the lines through the terminator and the epochs are those of the rest |
| BlankObsRemoval.EpochsFrom | rinex3_blank_obs_removal.py:128-131 | one `R3_Epoch` per epoch of the body, in order |
| BlankObsRemoval.SplitEpochHeaders | rinex3_blank_obs_removal.py:77-81 | when the body starts with an epoch line, every epoch's `epoch_header()` is its first line and no other line is an epoch line |
| Rinex302.WithCount | rinex302_classes.py:125-127 | the rewritten epoch line's length is the kept parts plus the count |
| Rinex302.WithCountReads | rinex302_classes.py:125-127 | on a line of 33 or more columns the first 33 are kept, the count follows, then the rest from column 36 |
| Rinex302.WithCountTwoDigits | rinex302_classes.py:125-127 | a two-character count keeps the length, reads back from columns 34-35, and rewriting it again changes nothing |
| Rinex302.WithCountOneDigit | rinex302_classes.py:125-127 | a one-character count shortens the line by one, shifting columns 36 on left by one |
| Rinex302.EpochRecord.constructor | rinex302_classes.py:110-116 | the first line is the epoch line and the rest the data |
| Rinex302.EpochRecord.Flag | rinex302_classes.py:117-118 | `flag()` is column 32 of the epoch line; IndexError when it is shorter |
| Rinex302.EpochRecord.NumObsActual | rinex302_classes.py:121-122 | `num_obs_actual()` reads back with `int()` as the number of data lines, and has two characters exactly for 10..99 |
| Rinex302.EpochRecord.NumObsReported | rinex302_classes.py:123-124 | `num_obs_reported()` is columns 34-35 of the epoch line |
| Rinex302.EpochRecord.TimeStamp | rinex302_classes.py:130-131 | `time_stamp()` is columns 3-29 of the epoch line |
| Rinex302.EpochRecord.UpdateNumObs | rinex302_classes.py:125-127 | the epoch line gets the count written over columns 34-35; the data is unchanged |
| Rinex302.EpochRecord.UpdateObs | rinex302_classes.py:128-129 | the data is replaced; the epoch line is unchanged |
| Rinex302.EpochValues | rinex302_classes.py:132-133 | each record's `write()` pair, in order |
| Rinex302.SysObsDictOf | rinex302_classes.py:66-72 | no system maps to an empty list |
| Rinex302.LastOfSystem | rinex302_classes.py:66-72 | the index of the last observable line of a system, or none |
| Rinex302.SysObsDictLast | rinex302_classes.py:66-72 | a system is in the dictionary exactly when the words from column 8 of its last line are non-empty, and maps to them |
| Rinex302.Lines | rinex302_classes.py:104-105 | one written item per observation line |
| Rinex302.ItemsTextConcat | rinex302_classes.py:148-151 | the text of two runs of items is that of each, in order |
| Rinex302.ItemsTextLines | rinex302_classes.py:148-151 | line items write their lines |
| Rinex302.WrittenText | rinex302_classes.py:98-106 | `write()` then `write_new_file` writes the header, then each epoch line followed by its observation lines |
| Rinex302.EpochLists | rinex302_classes.py:98-106 | each epoch as its epoch line followed by its observation lines |
| Rinex302.WriteAfterSplit | rinex302_classes.py:23-40 | writing a file as it was split gives back its lines, except that a body with no epoch line is dropped |
| Rinex302.WrittenBody | rinex302_classes.py:98-106 | the text written for a header and the epochs of a body is the header followed by the body, or the header alone when the body has no epoch line |
| Rinex302.Written | rinex302_classes.py:98-106 | definition of what `write()` returns; characterised by `WrittenText`, `WriteAfterSplit`, `WrittenBody` and `Rinex302Object.Write` |
| Rinex302.ItemsText | rinex302_classes.py:148-151 | definition of what `write_new_file` writes; characterised by `ItemsTextConcat` and `ItemsTextLines` |
| Rinex302.CleanedCount | rinex302_classes.py:135-146 | a cleaned epoch keeps exactly the announced lines, and its count reads back as their number |
| Rinex302.CleanedTwice | rinex302_classes.py:135-146 | cleaning twice keeps the same lines as cleaning once; with a two-digit count the record is unchanged |
| Rinex302.Announced | rinex302_classes.py:141-143 | definition of the observation lines `clean_epochs` keeps; characterised by `KeepAnnounced`, `CleanedCount` and `CleanedLinesNonEmpty` |
| Rinex302.Cleaned | rinex302_classes.py:135-146 | definition of one record as `clean_epochs` leaves it; characterised by `CleanedCount`, `CleanedTwice` and `CleanRecord` |
| Rinex302.Rinex302Object.constructor | rinex302_classes.py:74-81 | the header, the records of the epochs, the sorted observables, their systems and the system dictionary are what the functions define |
| Rinex302.Rinex302Object.Open | rinex302_classes.py:21-81 | construction raises NameError exactly for a file without lines |
| Rinex302.Rinex302Object.Len | rinex302_classes.py:83-84 | `len()` is the number of lines of the file |
| Rinex302.Rinex302Object.SatelliteSystemNames | rinex302_classes.py:87-91 | each system's name in order; KeyError exactly when one is unknown |
| Rinex302.Rinex302Object.SysObservablesOf | rinex302_classes.py:94-97 | the words of columns 8-60 of the first sorted observable line of the system, `None` when there is none |
| Rinex302.Rinex302Object.Write | rinex302_classes.py:98-106 | `write()` is the header list followed by each epoch line and its observation lines |
| Rinex302.LoadFile | rinex302_classes.py:77-81 | the values `__init__` stores, in its order |
| Rinex302.AppendLines | rinex302_classes.py:104-105 | the inner loop of `write()` appends each observation line |
| Rinex302.SplitFile | rinex302_classes.py:23-40 | the header is the lines through the first `END OF HEADER` line, and the records are the epochs of the rest, each a new object |
| Rinex302.NewRecords | rinex302_classes.py:37-39 | one new record per epoch, in order |
| Rinex302.FindSortedObservables | rinex302_classes.py:42-48 | the observable lines, sorted: an ordered permutation of them, each 60 columns wide |
| Rinex302.FirstChars | rinex302_classes.py:80 | the first character of each observable line |
| Rinex302.CreateSysObsDict | rinex302_classes.py:66-72 | the loop builds `SysObsDictOf` |
| Rinex302.SysObsDictStep | rinex302_classes.py:68-71 | one line sets its system to its words from column 8, or deletes it when there are none |
| Rinex302.KeepAnnounced | rinex302_classes.py:141-143 | the kept lines are those whose system is in the dictionary, in order |
| Rinex302.CleanEpochs | rinex302_classes.py:135-146 | `clean_epochs`: every record becomes its cleaned form |
| Rinex302.CleanRecord | rinex302_classes.py:141-146 | one epoch keeps its announced lines and gets their count as its satellite count |
| Rinex302.CleanedLinesNonEmpty | rinex302_classes.py:141-143 | kept observation lines are non-empty |
| RinexLib.SliceList | rinexlib.py:55 | list slicing `[i:j]` with clamped bounds |
| RinexLib.Column | rinexlib.py:57 | a field of at most two characters takes six columns |
| RinexLib.TimeColumns | rinexlib.py:57 | the time columns start with two blanks and the year |
| RinexLib.EndTimeLine | rinexlib.py:57 | the line starts with two blanks and the year and ends with `TIME OF LAST OBS` and a newline |
| RinexLib.EndTimeLineColumns | rinexlib.py:57 | with a four-character year and short fields the line is `68 + len(seconds)` long, with the year at columns 3-6, the seconds at column 35, the time system after five blanks, and the label last |
| RinexLib.WriteEndTime | rinexlib.py:52-58 | with at most one field, IndexError; with seven or more, ValueError exactly when `float` refuses field 7; every error is IndexError or ValueError; otherwise the line of fields 2-7 |
| RinexLib.LastTimeSystemLine | rinexlib.py:36-38 | the last of the first `n` lines that sets `time_system`, or none |
| RinexLib.LastMarker | rinexlib.py:44-47 | the index of the last epoch line, or none |
| RinexLib.InsertAt | rinexlib.py:49 | `list.insert` puts the element at the index and shifts the rest |
| RinexLib.SplitHeaderDataOf | rinexlib.py:28-31 | a non-list argument returns the error message twice |
| RinexLib.SplitListOf | rinexlib.py:32-50 | on success the epochs are the lines after the header, and the header is one longer than the lines gathered |
| RinexLib.SplitHeaderDataNameError | rinexlib.py:32-48 | NameError exactly when the list is empty, no epoch line follows the header, or no header line sets `time_system` |
| RinexLib.SplitHeaderDataShape | rinexlib.py:32-50 | a successful split is the gathered header with the end-time line of the last epoch line inserted after the last `TIME OF FIRST OBS` line, and the lines after the header |
| RinexLib.InsertedLayout | rinexlib.py:48-50 | removing the inserted line from the header and appending the epochs gives back the input |
| RinexLib.InsertAtRemove | rinexlib.py:49 | removing an inserted element gives back the list |
| RinexLib.SplitHeaderData | rinexlib.py:23-50 | the function returns what `SplitHeaderDataOf` defines |
| RinexLib.SplitList | rinexlib.py:32-50 | the list case returns what `SplitListOf` defines |
| RinexLib.ScanTimeSystem | rinexlib.py:32-38 | the loop gathers the header, ends on its last index (none for an empty list), and leaves the last `TIME OF FIRST OBS` line and its columns 49-51 |
| RinexLib.NoteTimeSystem | rinexlib.py:36-38 | a `TIME OF FIRST OBS` line becomes the latest time-system line |
| RinexLib.TimeSystemAt | rinexlib.py:37 | `line[48:51]` is at most three characters, present exactly when a line was found |
| RinexLib.ScanStopsAt | rinexlib.py:34-35 | the scan stops at the first header end, which sets nothing |
| RinexLib.ScanRunsOut | rinexlib.py:32-35 | without a header end the header is every line |
| RinexLib.FindLastMarker | rinexlib.py:44-47 | the reversed loop finds `LastMarker` |
| RinexLib.StartTimeOf | rinexlib.py:78-81 | IndexError when the first 60 columns have no fields, ValueError when `strptime` refuses the fields before the time system; otherwise an accepted date |
| RinexLib.ScanLine | rinexlib.py:73-81 | one line fails exactly when `LineError` names an error, with that error |
| RinexLib.LineError | rinexlib.py:73-81 | definition of the error one header line raises; characterised by `ScanLine` and `ScanLinesError` |
| RinexLib.ScanLines | rinexlib.py:73-81 | definition of the header loop; characterised by `ScanLinesError`, `ScanLinesSysObs`, `ScanLinesFound`, `ScanLinesStops` and `ScanHeaderLines` |
| RinexLib.ScanLinesError | rinexlib.py:73-81 | the loop fails exactly when some line raises, with the error of the first such line |
| RinexLib.ScanLinesSysObs | rinexlib.py:74-75 | on success the observation-type fields are the split first 60 columns of the `SYS` lines, in order |
| RinexLib.ScanLinesFound | rinexlib.py:76-81 | a start time and an interval are found exactly when some line has that label |
| RinexLib.ScanLinesStops | rinexlib.py:73-81 | an error at one line is the error of the whole loop |
| RinexLib.LabelsDiffer | rinexlib.py:74-78 | no line has two of the three labels at column 61 |
| RinexLib.FromThird | rinexlib.py:86 | `line[2:]`, empty for short lines |
| RinexLib.AddNew | rinexlib.py:86-88 | the inner loop extends the list, keeps it duplicate-free and adds exactly the new observables |
| RinexLib.NetOf | rinexlib.py:84-88 | the net observables are duplicate-free and are exactly those named from the third field on of some line |
| RinexLib.NetObservables | rinexlib.py:84-89 | the loops and `sort()` give the sorted `NetOf` |
| RinexLib.AppendNew | rinexlib.py:86-88 | one line's loop computes `AddNew` |
| RinexLib.NetObservablesSortedDistinct | rinexlib.py:84-89 | the net observables are sorted, duplicate-free, and name each listed observable |
| RinexLib.FirstTokens | rinexlib.py:102-104 | `line[0]` of every line; IndexError exactly when some line is empty |
| RinexLib.Copies | rinexlib.py:109-110 | `n` copies of the system |
| RinexLib.SystemsRow | rinexlib.py:108-110 | the first row has one entry per system and observable |
| RinexLib.ObservablesRow | rinexlib.py:108-111 | the second row has one entry per system and observable |
| RinexLib.MultiindexAt | rinexlib.py:107-112 | position `i * len(net) + j` of the two rows holds system `i` and observable `j` |
| RinexLib.MultiindexOf | rinexlib.py:100-112 | IndexError exactly when some line is empty; otherwise two rows of `systems * observables` entries |
| RinexLib.MultiindexPairs | rinexlib.py:100-112 | the index pairs the `i`-th sorted system with the `j`-th observable at position `i * len(net) + j` |
| RinexLib.GetR3Multiindex | rinexlib.py:100-112 | the loops return `MultiindexOf` |
| RinexLib.CollectSystems | rinexlib.py:102-104 | the loop returns `FirstTokens` |
| RinexLib.AppendPairs | rinexlib.py:108-111 | the inner loop appends the system once per observable, and the observables |
| RinexLib.ObsBySys | rinexlib.py:95-97 | the dictionary has a key for exactly the first field of every line |
| RinexLib.ObsBySysLast | rinexlib.py:95-97 | the entry of a system is `line[2:]` of its last line |
| RinexLib.BuildObsBySys | rinexlib.py:95-97 | the loop builds `ObsBySys` |
| RinexLib.R3ObservablesErrors | rinexlib.py:60-98 | after a successful header loop, IndexError when an observation-type line has no fields, otherwise NameError exactly when no start time or no interval line exists |
| RinexLib.R3ObservablesOf | rinexlib.py:60-98 | definition of `get_R3_observables`; characterised by `R3ObservablesErrors`, `R3ObservablesShape`, `R3ObservablesNet`, `R3ObservablesSystems` and `GetR3Observables` |
| RinexLib.R3ObservablesShape | rinexlib.py:84-98 | a result carries the sorted net observables and the dictionary of the header loop's fields |
| RinexLib.R3ObservablesNet | rinexlib.py:84-89 | the net observables are sorted, duplicate-free, and are exactly the observables listed (third field on) on the `SYS` lines |
| RinexLib.R3ObservablesSystems | rinexlib.py:95-97 | the dictionary has a key for exactly the systems named first on the `SYS` lines |
| RinexLib.ScanHeaderLines | rinexlib.py:73-81 | the header loop returns `ScanLines` |
| RinexLib.GetR3Observables | rinexlib.py:60-98 | `get_R3_observables` returns what `R3ObservablesOf` defines |

## Left out

- Reading and writing files: the model takes the text or the lines a file
  holds. Left out with this are `write_new_file`, `export`, both
  `get_rinex_version`s, `parse_arguments` and the `__main__` blocks.
- Logging and printing: `epoch_header`'s message, `Print` and
  `logging.error`. A missing terminator or missing GPS observation types
  become flags in the loaded state.
- `float()`, `strptime` and the rendering of floats: these are
  parameters. A parsed datetime is represented by the text it was parsed
  from.
- `Epoch.__hash__`: it hashes `str()`, which the model does not fix.
- The time-system argument of `Epoch`: the source discards it.
- `Observation.exportRinexHeader`: it is float formatting of one line.
- `ObsHeader.todict`: it is reflection over attribute names (`exec`).
- `Observations(obs_list = [])`: the shared default list aliases every
  store built without an argument. The model gives each new store its own
  empty list.
- Partial state before an exception: a construction or loop that raises is
  modelled as failing as a whole. Attributes set before the raise are not
  kept.
- `RinexObs.RinexObservation.Open`: Python's `return None` in `__init__`
  leaves the object built. The model returns `None` only when an
  exception escapes.
- The accessors `R3_Header.len`, `write`, `sat_sys` and `all_observables`,
  `R3_Epoch.len` and `write`, and `R3_Single_Obs.len` and `write`: they
  return a field or its length. `R3_Single_Obs.sat_sys` is modelled, as
  `BlankObsRemoval.SatSys`.
- `R3_Header.all_observables`: the attribute of the same name shadows this
  method, so it can never be called.
- The time-system text `get_R3_observables` pops: it is never used.
- `RinexObservation._extrainit`: its body is `pass`.
- Commented-out code in the source.
- Rinex302.Rinex302Object.constructor: it requires a non-empty file whose
  lines are non-empty, as `readlines` gives them. The empty file is the
  NameError case of `Rinex302.Rinex302Object.Open`.
- Rinex302.EpochRecord.constructor: it requires a non-empty epoch, as
  every epoch of `create_epochs_list` is. Python raises IndexError when
  popping an empty deque.
- RinexLib.SplitListOf: its contract gives only the lengths and the
  epochs. The full layout of the header is stated by
  `RinexLib.SplitHeaderDataShape` and `RinexLib.InsertedLayout`.
- RinexLib.ObsBySys: it requires every observation-type line to have a
  field. An empty line raises IndexError in `get_R3_multiindex` before the
  dictionary is built.
