# Marshal test fixtures: decoding `Recording`, `Program` and dates

A Dafny model of the decoding rules in the Marshal library's test fixtures
(`MarshalTests/PerformanceTestObjects.swift`). An already-parsed JSON tree is
turned into typed values, or the decode fails with one of the library's
unmarshaling errors:

- `Recording` reads two required strings (`StartTs`, `RecordId`) and two
  string-coded enumerations (`Status`, `RecGroup`) that fall back to
  `unknown` on any failure.
- `Program` reads a required title and a channel identifier. The identifier
  comes from the caller when one is supplied, and from the dotted key
  `Channel.ChanId` otherwise. It also reads two optional strings, a nested
  `Recording` whose errors propagate, and two integers that are stored as
  strings and parsed lossily.
- `Date.value(_:)` accepts a string that either of two ISO 8601 formatters
  can read, and takes the date from the first one that does (millisecond
  precision first, then second precision).

Everything is pure, so the model is datatypes, total functions returning
`Result`, and lemmas. Modules:

- `Results`: `Option`, the error type, and `Result`. `:-` plays the part of
  Swift's `try`, and `GetOr` the part of `(try? …) ?? default`.
- `JsonValues`: the JSON tree.
- `KeyPath`: dotted keys. `Split` breaks a key into segments and `Join` puts
  them back together. `Split` undoes `Join` on every path of non-empty,
  dot-free segments; the reverse holds only for keys without empty pieces,
  since `Split` drops them.
- `Lookup`: keyed lookup. It walks a dotted key through nested objects and
  provides the required, optional, raw-value and nested-object forms of
  `value(forKey:)`. The library's implementation of these is not part of
  this model. The lookup encodes the behaviour the fixtures rely on:
  - A required read fails with `KeyNotFound` for a missing key, `NullValue`
    for a null and `TypeMismatch` for a value of another type.
  - An optional read turns a missing key or a null into `nil`, and still
    fails on a value of another type.
- `IntParse`: Swift's `Int(String)`. An optional sign, then one or more
  decimal digits, then a range check against 64-bit `Int`. Every 64-bit
  value parses back from its own decimal text (`ParseIntText`), the text of
  an out-of-range value parses to nil (`ParseIntTextOverflow`), and a stray
  character makes the parse nil (`ParseIntRejects`).
- `Recordings`, `Programs`, `Dates`: the three decoders and their properties.

The fixtures leave error reporting to the library, which reports a missing
key, a null value and a wrong type as separate errors. The model follows it:
`KeyNotFound`, `NullValue`, `TypeMismatch`.

## Model

| member | source | states |
|---|---|---|
| `KeyPath.Split` | MarshalTests/PerformanceTestObjects.swift:62 | every segment of a dotted key is non-empty and free of '.' |
| `KeyPath.SplitJoin` | MarshalTests/PerformanceTestObjects.swift:62 | splitting the key built from a path of segments gives back that path |
| `KeyPath.SplitPair` | MarshalTests/PerformanceTestObjects.swift:62 | the key "a.b" names the two-step path [a, b] |
| `KeyPath.SplitSingle` | MarshalTests/PerformanceTestObjects.swift:33-34 | a key without '.' names a single field |
| `Lookup.FindField` | MarshalTests/PerformanceTestObjects.swift:33-36 | a plain key finds exactly the object's own field, or nothing when it is absent |
| `Lookup.FindNested` | MarshalTests/PerformanceTestObjects.swift:62 | "Channel.ChanId" finds field ChanId of the object held in Channel; nothing if either step is missing or Channel is not an object |
| `Lookup.RequiredStringField` | MarshalTests/PerformanceTestObjects.swift:33-34 | a required string read succeeds iff the field holds a string, and then gives that string; absent gives KeyNotFound, null gives NullValue, another type gives TypeMismatch("String", its kind) |
| `Lookup.OptionalStringField` | MarshalTests/PerformanceTestObjects.swift:66-67 | an optional string read succeeds iff the field is absent, null or a string; it gives the string or nil, and another type fails with TypeMismatch |
| `Lookup.FindReplaced` | MarshalTests/PerformanceTestObjects.swift:58-60 | changing or removing one field does not change what any other plain key finds |
| `Lookup.ReadsAgree` | MarshalTests/PerformanceTestObjects.swift:56-70 | every typed read of a key depends only on the value the key names |
| `IntParse.ParseInt` | MarshalTests/PerformanceTestObjects.swift:69-70 | a successful parse lies in the 64-bit Int range |
| `IntParse.NatDigits` | MarshalTests/PerformanceTestObjects.swift:69-70 | the decimal text of a natural number is non-empty, all digits, and has that number as its value |
| `IntParse.ParseIntText` | MarshalTests/PerformanceTestObjects.swift:69-70 | every 64-bit integer parses back from its own decimal text |
| `IntParse.ParseIntTextOverflow` | MarshalTests/PerformanceTestObjects.swift:69-70 | the text of an integer outside the 64-bit range parses to nil (overflow is nil, not an error) |
| `IntParse.ParseIntRejects` | MarshalTests/PerformanceTestObjects.swift:69-70 | any character that is neither a digit nor a leading sign makes the parse nil |
| `IntParse.ParseIntExamples` | MarshalTests/PerformanceTestObjects.swift:69-70 | "7", "-12" and "+3" parse to 7, -12 and 3; "", "abc", "7a" and "-" parse to nil |
| `Recordings.StatusFromRaw` | MarshalTests/PerformanceTestObjects.swift:13-18 | a recognised raw code is exactly the code of the status it gives |
| `Recordings.StatusRawRoundTrip` | MarshalTests/PerformanceTestObjects.swift:13-18 | every status, unknown included, is recognised from its own code "0", "-3", "-2" or "unknown" |
| `Recordings.RecGroupFromRaw` | MarshalTests/PerformanceTestObjects.swift:20-25 | a recognised raw code is exactly the code of the group it gives |
| `Recordings.RecGroupRawRoundTrip` | MarshalTests/PerformanceTestObjects.swift:20-25 | every group, unknown included, is recognised from its own code "Deleted", "Default", "LiveTV" or "unknown" |
| `Recordings.StatusOf` | MarshalTests/PerformanceTestObjects.swift:35 | status is none, recorded or recording iff Status holds "0", "-3" or "-2" respectively, and unknown in every other case (absent, not a string, any other string) |
| `Recordings.RecGroupOf` | MarshalTests/PerformanceTestObjects.swift:36 | group is deleted, defaultGroup or liveTV iff RecGroup holds "Deleted", "Default" or "LiveTV" respectively, and unknown in every other case |
| `Recordings.DecodeRecording` | MarshalTests/PerformanceTestObjects.swift:32-37 | decoding succeeds iff StartTs and RecordId both hold strings, and then carries those strings and the two fallback enumerations; otherwise it fails with the error of the first failing required read (KeyNotFound("StartTs") when StartTs is absent) |
| `Recordings.EnumFieldsNeverFail` | MarshalTests/PerformanceTestObjects.swift:35-36 | whatever Status and RecGroup hold, or if they are removed, success and the two strings are unchanged |
| `Programs.ChannelId` | MarshalTests/PerformanceTestObjects.swift:58-63 | a supplied identifier is used verbatim; without one, the read succeeds iff Channel.ChanId holds a string, and gives that string |
| `Programs.LossyInt` | MarshalTests/PerformanceTestObjects.swift:69-70 | absent or null gives nil; a string gives its Int parse (nil when unparseable, no error); any other type fails with TypeMismatch |
| `Programs.RecordingField` | MarshalTests/PerformanceTestObjects.swift:68 | the nested read succeeds iff Recording is an object whose StartTs and RecordId are strings, and for an object it is exactly the nested decode, errors included |
| `Programs.DecodeProgram` | MarshalTests/PerformanceTestObjects.swift:54-71 | decoding succeeds iff Title is a string, an identifier is supplied or Channel.ChanId is a string, Description/SubTitle/Season/Episode are absent, null or strings, and Recording is an object whose StartTs and RecordId are strings; the result carries exactly those values |
| `Programs.DecodeProgramFields` | MarshalTests/PerformanceTestObjects.swift:66-70 | the fields after the channel identifier succeed iff each is acceptable, and carry the optional strings, the nested recording and the lossy integers |
| `Programs.DecodeProgramObject` | MarshalTests/PerformanceTestObjects.swift:50-52 | the entry point without an identifier fails when Channel.ChanId is not a string and otherwise takes chanId from it |
| `Programs.ObjectEntryReadsChanId` | MarshalTests/PerformanceTestObjects.swift:50-63 | when Channel.ChanId is a string, decoding without an identifier equals decoding with that identifier supplied, errors included |
| `Programs.SuppliedChannelIdIgnoresChannel` | MarshalTests/PerformanceTestObjects.swift:58-60 | with a supplied identifier, changing or removing Channel never changes the outcome, and chanId is the supplied value |
| `Programs.FieldsAgree` | MarshalTests/PerformanceTestObjects.swift:66-70 | the later fields' decode is unaffected by a change to any field they do not read |
| `Programs.RecordingErrorPropagates` | MarshalTests/PerformanceTestObjects.swift:68 | once the earlier fields are in order, a failing nested recording is the program's failure, with the nested error unchanged |
| `Programs.MissingStartTsFailsProgram` | MarshalTests/PerformanceTestObjects.swift:68 | a nested recording without StartTs fails the program with KeyNotFound("StartTs") |
| `Programs.SeasonExamples` | MarshalTests/PerformanceTestObjects.swift:69 | Season "7" gives 7; "abc", absence and null give nil |
| `Dates.FromISO8601String` | MarshalTests/PerformanceTestObjects.swift:105-112 | the result is nothing iff no formatter reads the string; otherwise it is the date of some formatter that reads it, and every earlier formatter fails |
| `Dates.DateValue` | MarshalTests/PerformanceTestObjects.swift:75-83 | a non-string fails with TypeMismatch("String", its kind); a string gives the millisecond formatter's date if it reads it, else the second formatter's, else fails with TypeMismatch("ISO8601 date string", the string) |
| `Dates.MillisecondFormatterWins` | MarshalTests/PerformanceTestObjects.swift:102-112 | when the millisecond formatter reads the string, the second formatter is never consulted |
| `Dates.DateValueSucceedsIff` | MarshalTests/PerformanceTestObjects.swift:79-81 | a date string decodes iff at least one of the two formatters reads it |

## Left out

- What the two date formatters accept: their patterns
  (`yyyy-MM-dd'T'HH:mm:ss.SSSZ` and `yyyy-MM-dd'T'HH:mm:ssZ`), the GMT time
  zone and the calendar belong to the platform's date formatting. They are
  parameters of type `string -> Option<Date>`. Only the order in which they
  are tried and the error logic are modelled.
- `Date` is an integer count of milliseconds. The platform's value is
  floating point.
- The formatters are created once, lazily, and shared. This initialisation
  and any performance aspect are not modelled.
- The library's unmarshaling protocols are not part of this model, and
  neither is JSON text parsing. Keyed lookup, the optional form, raw-value
  enumerations and nested decoding are encoded as the behaviour described
  above.
- The library also reports a type mismatch in a keyed read under a variant
  that names the key. Here that is the plain `TypeMismatch`. Its `actual`
  part is a description of the value's kind, such as "Int", or the
  offending string itself, rather than a Swift type.
- JSON numbers are integers only. Floating-point numbers are left out.
- `Int(String)` is modelled for base 10 only, the only base these fixtures
  use.
- The commented-out `StartTime`/`EndTime` fields are not modelled.
