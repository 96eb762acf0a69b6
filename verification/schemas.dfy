/** The response and output schemas, `AgentResponse` and
    `MinuteWriterOutput`, as validation of a loosely typed record into a
    typed one. Validation is strict: a field of the wrong JSON type is an
    error, exactly as a missing required field is. */
module Schemas {
  import opened Outcomes

  /** A JSON-like value. */
  datatype Value = Str(s: string) | Bool(b: bool) | Int(i: int) | Null | Object(fields: map<string, Value>)

  /** The keyword arguments a model is constructed from. */
  type Record = map<string, Value>

  /** What a declared field demands of its value. */
  datatype FieldType =
    | StrField              // a required `str`
    | BoolField             // a required `bool`
    | OptionalObjectField   // `dict[str, Any] | None = None`

  predicate Conforms(r: Record, name: string, t: FieldType) {
    match t
    case StrField => name in r && r[name].Str?
    case BoolField => name in r && r[name].Bool?
    case OptionalObjectField => name !in r || r[name].Null? || r[name].Object?
  }

  datatype Field = Field(name: string, fieldType: FieldType)

  /** The names of the declared fields the record violates, in declaration
      order: what a `ValidationError` reports. */
  function FieldErrors(r: Record, fields: seq<Field>): (errors: seq<string>)
    ensures errors == [] <==> forall i :: 0 <= i < |fields| ==> Conforms(r, fields[i].name, fields[i].fieldType)
    ensures forall n :: n in errors <==>
      exists i :: 0 <= i < |fields| && fields[i].name == n && !Conforms(r, n, fields[i].fieldType)
    decreases |fields|
  {
    if fields == [] then
      []
    else
      var f := fields[0];
      var rest := FieldErrors(r, fields[1..]);
      assert forall i :: 1 <= i < |fields| ==> fields[i] == fields[1..][i - 1];
      (if Conforms(r, f.name, f.fieldType) then [] else [f.name]) + rest
  }

  // ---- AgentResponse ----

  datatype AgentResponse = AgentResponse(success: bool, message: string, data: Option<map<string, Value>>)

  const AgentResponseFields: seq<Field> :=
    [Field("success", BoolField), Field("message", StrField), Field("data", OptionalObjectField)]

  /** `AgentResponse(**r)`: `success` must be a boolean and `message` a
      string; `data` may be missing or null, which both give `None`. */
  function ValidateAgentResponse(r: Record): (result: Result<AgentResponse, seq<string>>)
    ensures result.Ok? <==>
      && "success" in r && r["success"].Bool?
      && "message" in r && r["message"].Str?
      && ("data" !in r || r["data"].Null? || r["data"].Object?)
    ensures result.Ok? ==>
      && result.value.success == r["success"].b
      && result.value.message == r["message"].s
      && (result.value.data.None? <==> "data" !in r || r["data"].Null?)
      && (result.value.data.Some? ==> result.value.data.value == r["data"].fields)
    ensures result.Err? ==> result.error != []
    ensures result.Err? ==> forall n :: n in result.error ==> n in ["success", "message", "data"]
  {
    var errors := FieldErrors(r, AgentResponseFields);
    assert AgentResponseFields[0].name == "success" && AgentResponseFields[1].name == "message";
    assert AgentResponseFields[2].name == "data";
    if errors != [] then
      Err(errors)
    else
      assert Conforms(r, "success", BoolField) && Conforms(r, "message", StrField);
      assert Conforms(r, "data", OptionalObjectField);
      var data := if "data" in r && r["data"].Object? then Some(r["data"].fields) else None;
      Ok(AgentResponse(r["success"].b, r["message"].s, data))
  }

  /** `model_dump()`: the record a response serialises to. */
  function DumpAgentResponse(x: AgentResponse): Record {
    map[
      "success" := Bool(x.success),
      "message" := Str(x.message),
      "data" := match x.data case None => Null case Some(d) => Object(d)]
  }

  /** Dumping and validating again gives the same response back. */
  lemma AgentResponseRoundTrip(x: AgentResponse)
    ensures ValidateAgentResponse(DumpAgentResponse(x)) == Ok(x)
  {
  }

  /** A record that leaves `data` out validates with `data` defaulted to
      `None`. */
  lemma AgentResponseDataDefault(success: bool, message: string)
    ensures ValidateAgentResponse(map["success" := Bool(success), "message" := Str(message)]) ==
      Ok(AgentResponse(success, message, None))
  {
  }

  // ---- MinuteWriterOutput ----

  datatype MinuteWriterOutput = MinuteWriterOutput(audioPath: string, transcript: string, summary: string)

  const MinuteWriterOutputFields: seq<Field> :=
    [Field("audio_path", StrField), Field("transcript", StrField), Field("summary", StrField)]

  /** `MinuteWriterOutput(**r)`: all three fields must be present strings;
      any other keys are ignored. */
  function ValidateMinuteWriterOutput(r: Record): (result: Result<MinuteWriterOutput, seq<string>>)
    ensures result.Ok? <==>
      && "audio_path" in r && r["audio_path"].Str?
      && "transcript" in r && r["transcript"].Str?
      && "summary" in r && r["summary"].Str?
    ensures result.Ok? ==>
      result.value == MinuteWriterOutput(r["audio_path"].s, r["transcript"].s, r["summary"].s)
    ensures result.Err? ==> forall n :: n in result.error <==>
      n in ["audio_path", "transcript", "summary"] && !(n in r && r[n].Str?)
  {
    var errors := FieldErrors(r, MinuteWriterOutputFields);
    assert MinuteWriterOutputFields[0].name == "audio_path";
    assert MinuteWriterOutputFields[1].name == "transcript";
    assert MinuteWriterOutputFields[2].name == "summary";
    assert forall i :: 0 <= i < 3 ==> MinuteWriterOutputFields[i].fieldType == StrField;
    if errors != [] then
      Err(errors)
    else
      assert Conforms(r, "audio_path", StrField) && Conforms(r, "transcript", StrField);
      assert Conforms(r, "summary", StrField);
      Ok(MinuteWriterOutput(r["audio_path"].s, r["transcript"].s, r["summary"].s))
  }

  function DumpMinuteWriterOutput(x: MinuteWriterOutput): Record {
    map["audio_path" := Str(x.audioPath), "transcript" := Str(x.transcript), "summary" := Str(x.summary)]
  }

  lemma MinuteWriterOutputRoundTrip(x: MinuteWriterOutput)
    ensures ValidateMinuteWriterOutput(DumpMinuteWriterOutput(x)) == Ok(x)
  {
  }

  /** A record missing any one of the three fields fails, and the error
      names that field. */
  lemma MissingOutputFieldRejected(r: Record, name: string)
    requires name in ["audio_path", "transcript", "summary"]
    requires name !in r
    ensures ValidateMinuteWriterOutput(r).Err?
    ensures name in ValidateMinuteWriterOutput(r).error
  {
  }
}
