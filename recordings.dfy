/** The `Recording` fixture: two required strings and two string-coded
    enumerations that fall back to `unknown` instead of failing. */
module Recordings {
  import opened Results
  import opened JsonValues
  import opened Lookup

  /** A recording's state. Each case has a raw string code; `unknown`, which
      declares none, has its own name as code. */
  datatype Status = None | Recorded | Recording | Unknown

  /** The recording group a recording is filed under. */
  datatype RecGroup = Deleted | DefaultGroup | LiveTV | Unknown

  datatype Recording = Recording(startTsStr: string, status: Status, recordId: string, recGroup: RecGroup)

  /** The raw string code of a status. */
  function StatusRaw(status: Status): string
  {
    match status
    case None => "0"
    case Recorded => "-3"
    case Recording => "-2"
    case Unknown => "unknown"
  }

  /** `Status(rawValue:)`: the status whose code is `raw`, if any. */
  function StatusFromRaw(raw: string): (status: Option<Status>)
    ensures status.Some? ==> StatusRaw(status.value) == raw
  {
    if raw == "0" then Some(Status.None)
    else if raw == "-3" then Some(Status.Recorded)
    else if raw == "-2" then Some(Status.Recording)
    else if raw == "unknown" then Some(Status.Unknown)
    else Option.None
  }

  /** The raw string code of a recording group. */
  function RecGroupRaw(group: RecGroup): string
  {
    match group
    case Deleted => "Deleted"
    case DefaultGroup => "Default"
    case LiveTV => "LiveTV"
    case Unknown => "unknown"
  }

  /** `RecGroup(rawValue:)`: the group whose code is `raw`, if any. */
  function RecGroupFromRaw(raw: string): (group: Option<RecGroup>)
    ensures group.Some? ==> RecGroupRaw(group.value) == raw
  {
    if raw == "Deleted" then Some(RecGroup.Deleted)
    else if raw == "Default" then Some(RecGroup.DefaultGroup)
    else if raw == "LiveTV" then Some(RecGroup.LiveTV)
    else if raw == "unknown" then Some(RecGroup.Unknown)
    else Option.None
  }

  /** Every status reads back from its own code, so the codes are distinct. */
  lemma StatusRawRoundTrip(status: Status)
    ensures StatusFromRaw(StatusRaw(status)) == Some(status)
  {
  }

  /** Every recording group reads back from its own code, so the codes are distinct. */
  lemma RecGroupRawRoundTrip(group: RecGroup)
    ensures RecGroupFromRaw(RecGroupRaw(group)) == Some(group)
  {
  }

  /** `(try? json.value(forKey: "Status")) ?? .unknown`. */
  function StatusOf(json: map<string, Json>): (status: Status)
    ensures status == Status.None <==> "Status" in json && json["Status"] == JStr("0")
    ensures status == Status.Recorded <==> "Status" in json && json["Status"] == JStr("-3")
    ensures status == Status.Recording <==> "Status" in json && json["Status"] == JStr("-2")
    ensures status == Status.Unknown <==>
      "Status" !in json || json["Status"] !in {JStr("0"), JStr("-3"), JStr("-2")}
  {
    RequiredStringField(json, "Status");
    RawValue(json, "Status", StatusFromRaw, "Status").GetOr(Status.Unknown)
  }

  /** `(try? json.value(forKey: "RecGroup")) ?? .unknown`. */
  function RecGroupOf(json: map<string, Json>): (group: RecGroup)
    ensures group == RecGroup.Deleted <==> "RecGroup" in json && json["RecGroup"] == JStr("Deleted")
    ensures group == RecGroup.DefaultGroup <==> "RecGroup" in json && json["RecGroup"] == JStr("Default")
    ensures group == RecGroup.LiveTV <==> "RecGroup" in json && json["RecGroup"] == JStr("LiveTV")
    ensures group == RecGroup.Unknown <==>
      "RecGroup" !in json || json["RecGroup"] !in {JStr("Deleted"), JStr("Default"), JStr("LiveTV")}
  {
    RequiredStringField(json, "RecGroup");
    RawValue(json, "RecGroup", RecGroupFromRaw, "RecGroup").GetOr(RecGroup.Unknown)
  }

  /** `Recording.init(object:)`. */
  function DecodeRecording(json: map<string, Json>): (r: Result<Recording>)
    ensures r.Ok? <==> HasString(json, "StartTs") && HasString(json, "RecordId")
    ensures r.Ok? ==>
      r.value == Recording.Recording(json["StartTs"].str, StatusOf(json), json["RecordId"].str, RecGroupOf(json))
    ensures !HasString(json, "StartTs") ==> r.Err? && RequiredString(json, "StartTs") == Err(r.error)
    ensures HasString(json, "StartTs") && !HasString(json, "RecordId") ==>
      r.Err? && RequiredString(json, "RecordId") == Err(r.error)
    ensures "StartTs" !in json ==> r == Err(KeyNotFound("StartTs"))
  {
    RequiredStringField(json, "StartTs");
    RequiredStringField(json, "RecordId");
    var startTsStr :- RequiredString(json, "StartTs");
    var recordId :- RequiredString(json, "RecordId");
    Ok(Recording.Recording(startTsStr, StatusOf(json), recordId, RecGroupOf(json)))
  }

  /** Whatever `Status` and `RecGroup` hold, or whether they are there at
      all, decoding succeeds or fails as before and reads the same strings. */
  lemma EnumFieldsNeverFail(json: map<string, Json>, status: Option<Json>, group: Option<Json>)
    ensures var other := Replace(Replace(json, "Status", status), "RecGroup", group);
      && DecodeRecording(other).Ok? == DecodeRecording(json).Ok?
      && (DecodeRecording(json).Ok? ==>
            DecodeRecording(other).value.startTsStr == DecodeRecording(json).value.startTsStr &&
            DecodeRecording(other).value.recordId == DecodeRecording(json).value.recordId)
  {
    var other := Replace(Replace(json, "Status", status), "RecGroup", group);
    assert forall key :: key != "Status" && key != "RecGroup" ==>
      (key in other <==> key in json) && (key in json ==> other[key] == json[key]);
    assert HasString(other, "StartTs") == HasString(json, "StartTs");
    assert HasString(other, "RecordId") == HasString(json, "RecordId");
  }
}
