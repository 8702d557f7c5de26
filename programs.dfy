/** The `Program` fixture: required and optional strings, a channel
    identifier that a caller may supply, a nested `Recording`, and two
    integers that are read as strings and parsed lossily. */
module Programs {
  import opened Results
  import opened JsonValues
  import opened KeyPath
  import opened Lookup
  import opened IntParse
  import opened Recordings

  datatype Program = Program(
    title: string,
    chanId: string,
    description: Option<string>,
    subtitle: Option<string>,
    recording: Recording,
    season: Option<int>,
    episode: Option<int>)

  /** `Channel.ChanId` holds a string. */
  predicate HasChanId(json: map<string, Json>)
  {
    "Channel" in json && json["Channel"].JObj? && HasString(json["Channel"].obj, "ChanId")
  }

  /** The string at `Channel.ChanId`. */
  function ChanIdIn(json: map<string, Json>): string
    requires HasChanId(json)
  {
    json["Channel"].obj["ChanId"].str
  }

  /** `Recording` holds an object whose `StartTs` and `RecordId` are strings:
      exactly the objects that decode as a recording. */
  predicate HasRecording(json: map<string, Json>)
  {
    && "Recording" in json && json["Recording"].JObj?
    && HasString(json["Recording"].obj, "StartTs") && HasString(json["Recording"].obj, "RecordId")
  }

  /** The integer the string in field `key` parses to, if both exist. */
  function ParsedIn(json: map<string, Json>, key: string): Option<int>
  {
    match StringIn(json, key)
    case Some(s) => ParseInt(s)
    case None => Option.None
  }

  /** The channel identifier: a supplied one verbatim, otherwise the
      required string at the dotted path `Channel.ChanId`. */
  function ChannelId(json: map<string, Json>, channelId: Option<string>): (r: Result<string>)
    ensures channelId.Some? ==> r == Ok(channelId.value)
    ensures channelId.None? ==> (r.Ok? <==> HasChanId(json))
    ensures channelId.None? && HasChanId(json) ==> r == Ok(ChanIdIn(json))
  {
    assert "Channel.ChanId" == "Channel" + "." + "ChanId";
    FindNested(json, "Channel", "ChanId");
    match channelId
    case Some(id) => Ok(id)
    case None => RequiredString(json, "Channel.ChanId")
  }

  /** `(try json.value(forKey: key) as String?).flatMap({Int($0)})`: absence,
      null and a string that is not an integer all give nothing; a value
      of another type is an error that propagates. */
  function LossyInt(json: map<string, Json>, key: string): (r: Result<Option<int>>)
    requires IsSegment(key)
    ensures r.Ok? <==> OptionalStringOk(json, key)
    ensures key !in json || json[key] == JNull ==> r == Ok(Option.None)
    ensures HasString(json, key) ==> r == Ok(ParseInt(json[key].str))
    ensures !OptionalStringOk(json, key) ==> r == Err(TypeMismatch("String", KindName(json[key])))
  {
    OptionalStringField(json, key);
    var raw :- OptionalString(json, key);
    match raw
    case Some(s) => Ok(ParseInt(s))
    case None => Ok(Option.None)
  }

  /** `try json.value(forKey: "Recording")`: the nested object decoded as a
      recording, with the nested decoder's error passed on unchanged. */
  function RecordingField(json: map<string, Json>): (r: Result<Recording>)
    ensures r.Ok? <==> HasRecording(json)
    ensures "Recording" in json && json["Recording"].JObj? ==> r == DecodeRecording(json["Recording"].obj)
    ensures "Recording" !in json ==> r == Err(KeyNotFound("Recording"))
  {
    FindField(json, "Recording");
    var inner :- RequiredObject(json, "Recording");
    DecodeRecording(inner)
  }

  lemma SegmentKeys()
    ensures IsSegment("Title") && IsSegment("Description") && IsSegment("SubTitle")
    ensures IsSegment("Recording") && IsSegment("Season") && IsSegment("Episode")
  {
  }

  /** `Program.init(jsonObj:channelId:)`. */
  function DecodeProgram(json: map<string, Json>, channelId: Option<string>): (r: Result<Program>)
    ensures r.Ok? <==>
      && HasString(json, "Title")
      && (channelId.Some? || HasChanId(json))
      && OptionalStringOk(json, "Description")
      && OptionalStringOk(json, "SubTitle")
      && HasRecording(json)
      && OptionalStringOk(json, "Season")
      && OptionalStringOk(json, "Episode")
    ensures r.Ok? ==> r.value == Program(
      json["Title"].str,
      if channelId.Some? then channelId.value else ChanIdIn(json),
      StringIn(json, "Description"),
      StringIn(json, "SubTitle"),
      DecodeRecording(json["Recording"].obj).value,
      ParsedIn(json, "Season"),
      ParsedIn(json, "Episode"))
  {
    RequiredStringField(json, "Title");
    var title :- RequiredString(json, "Title");
    var chanId :- ChannelId(json, channelId);
    DecodeProgramFields(json, title, chanId)
  }

  /** The fields read after the title and the channel identifier, in source order. */
  function DecodeProgramFields(json: map<string, Json>, title: string, chanId: string): (r: Result<Program>)
    ensures r.Ok? <==>
      && OptionalStringOk(json, "Description")
      && OptionalStringOk(json, "SubTitle")
      && HasRecording(json)
      && OptionalStringOk(json, "Season")
      && OptionalStringOk(json, "Episode")
    ensures r.Ok? ==> r.value == Program(
      title,
      chanId,
      StringIn(json, "Description"),
      StringIn(json, "SubTitle"),
      DecodeRecording(json["Recording"].obj).value,
      ParsedIn(json, "Season"),
      ParsedIn(json, "Episode"))
  {
    SegmentKeys();
    OptionalStringField(json, "Description");
    OptionalStringField(json, "SubTitle");
    var description :- OptionalString(json, "Description");
    var subtitle :- OptionalString(json, "SubTitle");
    var recording :- RecordingField(json);
    var season :- LossyInt(json, "Season");
    var episode :- LossyInt(json, "Episode");
    Ok(Program(title, chanId, description, subtitle, recording, season, episode))
  }

  /** `Program.init(object:)`: no identifier is supplied, so every program
      must carry its own `Channel.ChanId`. */
  function DecodeProgramObject(json: map<string, Json>): (r: Result<Program>)
    ensures !HasChanId(json) ==> r.Err?
    ensures r.Ok? ==> r.value.chanId == ChanIdIn(json)
  {
    DecodeProgram(json, Option.None)
  }

  /** Reading the identifier from `Channel.ChanId` gives exactly what
      supplying that same identifier gives, errors included. */
  lemma ObjectEntryReadsChanId(json: map<string, Json>)
    requires HasChanId(json)
    ensures DecodeProgramObject(json) == DecodeProgram(json, Some(ChanIdIn(json)))
  {
    assert ChannelId(json, Option.None) == ChannelId(json, Some(ChanIdIn(json)));
  }

  /** With an identifier supplied, `Channel` is never read: whatever it
      holds, or whether it is there at all, the decode is the same, and the
      identifier is taken verbatim. */
  lemma SuppliedChannelIdIgnoresChannel(json: map<string, Json>, channelId: string, channel: Option<Json>)
    ensures DecodeProgram(Replace(json, "Channel", channel), Some(channelId)) == DecodeProgram(json, Some(channelId))
    ensures DecodeProgram(json, Some(channelId)).Ok? ==> DecodeProgram(json, Some(channelId)).value.chanId == channelId
  {
    var other := Replace(json, "Channel", channel);
    SegmentKeys();
    FindReplaced(json, "Channel", channel, "Title");
    ReadsAgree(other, json, "Title");
    FieldsAgree(other, json, "Channel", channel);
  }

  /** Changing `Channel` does not change how the remaining fields decode. */
  lemma FieldsAgree(other: map<string, Json>, json: map<string, Json>, changed: string, value: Option<Json>)
    requires other == Replace(json, changed, value)
    requires changed !in {"Description", "SubTitle", "Recording", "Season", "Episode"}
    ensures forall title, chanId :: DecodeProgramFields(other, title, chanId) == DecodeProgramFields(json, title, chanId)
  {
    SegmentKeys();
    FindReplaced(json, changed, value, "Description");
    FindReplaced(json, changed, value, "SubTitle");
    FindReplaced(json, changed, value, "Recording");
    FindReplaced(json, changed, value, "Season");
    FindReplaced(json, changed, value, "Episode");
    ReadsAgree(other, json, "Description");
    ReadsAgree(other, json, "SubTitle");
    ReadsAgree(other, json, "Recording");
    ReadsAgree(other, json, "Season");
    ReadsAgree(other, json, "Episode");
    assert RecordingField(other) == RecordingField(json);
    assert LossyInt(other, "Season") == LossyInt(json, "Season");
    assert LossyInt(other, "Episode") == LossyInt(json, "Episode");
  }

  /** A failure inside the nested `Recording` is the failure of the whole
      decode, with the nested error unchanged, once the fields read before
      it are in order. */
  lemma RecordingErrorPropagates(json: map<string, Json>, channelId: Option<string>)
    requires HasString(json, "Title") && (channelId.Some? || HasChanId(json))
    requires OptionalStringOk(json, "Description") && OptionalStringOk(json, "SubTitle")
    requires "Recording" in json && json["Recording"].JObj?
    requires DecodeRecording(json["Recording"].obj).Err?
    ensures DecodeProgram(json, channelId) == Err(DecodeRecording(json["Recording"].obj).error)
  {
    SegmentKeys();
    RequiredStringField(json, "Title");
    OptionalStringField(json, "Description");
    OptionalStringField(json, "SubTitle");
    assert RecordingField(json) == DecodeRecording(json["Recording"].obj);
  }

  /** A nested recording without `StartTs` fails the program decode with
      the nested `KeyNotFound`. */
  lemma MissingStartTsFailsProgram(json: map<string, Json>, channelId: Option<string>)
    requires HasString(json, "Title") && (channelId.Some? || HasChanId(json))
    requires OptionalStringOk(json, "Description") && OptionalStringOk(json, "SubTitle")
    requires "Recording" in json && json["Recording"].JObj? && "StartTs" !in json["Recording"].obj
    ensures DecodeProgram(json, channelId) == Err(KeyNotFound("StartTs"))
  {
    RecordingErrorPropagates(json, channelId);
  }

  /** The lossy `Season` field: "7" gives 7, while "abc", an absent field
      and a null all give nothing without failing the decode. */
  lemma SeasonExamples(json: map<string, Json>, channelId: Option<string>)
    requires DecodeProgram(json, channelId).Ok?
    ensures "Season" in json && json["Season"] == JStr("7") ==> DecodeProgram(json, channelId).value.season == Some(7)
    ensures "Season" in json && json["Season"] == JStr("abc") ==> DecodeProgram(json, channelId).value.season == Option.None
    ensures "Season" !in json ==> DecodeProgram(json, channelId).value.season == Option.None
    ensures "Season" in json && json["Season"] == JNull ==> DecodeProgram(json, channelId).value.season == Option.None
  {
    ParseIntExamples();
  }
}
