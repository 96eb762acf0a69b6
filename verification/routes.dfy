/** The playground's `create_route_config`: a route descriptor derived from
    one OpenAPI operation object. */
module Routes {
  import opened Outcomes
  import opened Text
  import Seqs

  /** An OpenAPI parameter object: its `name`, and its `required` flag when
      the object has one. */
  datatype Parameter = Parameter(name: string, required: Option<bool>)

  /** One entry of a schema's `properties`: the key, and the `type` and
      `format` of its details when present. */
  datatype Property = Property(name: string, kind: Option<string>, format: Option<string>)

  /** A schema object; `properties` keeps the dictionary's insertion order. */
  datatype Schema = Schema(properties: Option<seq<Property>>)

  datatype MediaType = MediaType(schema: Option<Schema>)

  /** A request body object: its `content`, keyed by media type. */
  datatype RequestBody = RequestBody(content: map<string, MediaType>)

  /** The parts of an OpenAPI operation object the derivation reads. */
  datatype Operation = Operation(
    summary: Option<string>,
    parameters: Option<seq<Parameter>>,
    requestBody: Option<RequestBody>)

  /** The `input_type` values `"none"`, `"text"` and `"file"`. */
  datatype InputType = NoInput | TextInput | FileInput

  datatype RouteConfig = RouteConfig(
    endpoint: string,
    verb: string,
    inputType: InputType,
    description: string,
    acceptedFiles: seq<string>,
    requiredParams: seq<string>)

  const Multipart := "multipart/form-data"
  const NoDescription := "No description"

  /** The `accepted_files` value meaning "any file". */
  const AnyFile := "*"

  /** `param.get("required", False)` is true. */
  predicate IsRequired(p: Parameter) { p.required == Some(true) }

  function ParameterName(p: Parameter): string { p.name }

  /** `details.get("type") == "string" and details.get("format") == "binary"` */
  predicate IsBinary(p: Property) { p.kind == Some("string") && p.format == Some("binary") }

  function PropertyName(p: Property): string { p.name }

  function RequiredNames(params: seq<Parameter>): seq<string> {
    Seqs.Map(ParameterName, Seqs.Filter(IsRequired, params))
  }

  function BinaryNames(props: seq<Property>): seq<string> {
    Seqs.Map(PropertyName, Seqs.Filter(IsBinary, props))
  }

  /** The `properties` of the multipart schema, when the operation has a
      multipart request body whose schema has them (a missing schema reads
      as `{}`). */
  function MultipartProperties(op: Operation): Option<seq<Property>> {
    if op.requestBody.Some? && Multipart in op.requestBody.value.content then
      match op.requestBody.value.content[Multipart].schema
      case None => None
      case Some(schema) => schema.properties
    else
      None
  }

  /** `create_route_config(path, verb, operation)` */
  function CreateRouteConfig(path: string, verb: string, op: Operation): (r: RouteConfig)
    ensures r.endpoint == path
    ensures |r.verb| == |verb| && Lower(r.verb) == Lower(verb)
    ensures forall i :: 0 <= i < |r.verb| ==> !IsAsciiLower(r.verb[i])
    ensures r.description == (if op.summary.Some? then op.summary.value else "No description")
    ensures r.inputType == NoInput <==> op.requestBody.None?
    ensures r.inputType == FileInput <==>
      op.requestBody.Some? && "multipart/form-data" in op.requestBody.value.content
    ensures r.inputType == TextInput <==>
      op.requestBody.Some? && "multipart/form-data" !in op.requestBody.value.content
    ensures op.parameters.None? ==> r.requiredParams == []
    ensures op.parameters.Some? ==>
      forall n :: n in r.requiredParams <==>
        exists p :: p in op.parameters.value && IsRequired(p) && p.name == n
    ensures MultipartProperties(op).None? ==> r.acceptedFiles == []
    ensures MultipartProperties(op).Some? ==>
      var props := MultipartProperties(op).value;
      if forall p :: p in props ==> !IsBinary(p) then
        r.acceptedFiles == ["*"]
      else
        && |r.acceptedFiles| <= |props|
        && (forall n :: n in r.acceptedFiles <==> exists p :: p in props && IsBinary(p) && p.name == n)
        && r.acceptedFiles == BinaryNames(props)
  {
    var required := if op.parameters.Some? then RequiredNames(op.parameters.value) else [];
    var inputType :=
      if op.requestBody.None? then NoInput
      else if Multipart in op.requestBody.value.content then FileInput
      else TextInput;
    var accepted :=
      match MultipartProperties(op)
      case None => []
      case Some(props) =>
        var names := BinaryNames(props);
        if names == [] then [AnyFile] else names;
    UpperSpec(verb);
    NamesSpec(if op.parameters.Some? then op.parameters.value else []);
    BinaryNamesSpec(if MultipartProperties(op).Some? then MultipartProperties(op).value else []);
    RouteConfig(
      path,
      Upper(verb),
      inputType,
      if op.summary.Some? then op.summary.value else NoDescription,
      accepted,
      required)
  }

  /** Upper-casing keeps the length, agrees with the input up to case, and
      leaves no lower-case letter. */
  lemma UpperSpec(s: string)
    ensures |Upper(s)| == |s| && Lower(Upper(s)) == Lower(s)
    ensures forall i :: 0 <= i < |s| ==> !IsAsciiLower(Upper(s)[i])
  {
    assert forall i :: 0 <= i < |s| ==> LowerChar(UpperChar(s[i])) == LowerChar(s[i]);
  }

  lemma NamesSpec(params: seq<Parameter>)
    ensures forall n :: n in RequiredNames(params) <==>
      exists p :: p in params && IsRequired(p) && p.name == n
  {
    var kept := Seqs.Filter(IsRequired, params);
    forall n
      ensures n in RequiredNames(params) <==> exists p :: p in params && IsRequired(p) && p.name == n
    {
      if n in RequiredNames(params) {
        var i :| 0 <= i < |kept| && RequiredNames(params)[i] == n;
        assert kept[i] in kept;
      }
      if p :| p in params && IsRequired(p) && p.name == n {
        Seqs.FilterKeeps(IsRequired, params, p);
        var i :| 0 <= i < |kept| && kept[i] == p;
        assert RequiredNames(params)[i] == n;
      }
    }
  }

  lemma BinaryNamesSpec(props: seq<Property>)
    ensures |BinaryNames(props)| <= |props|
    ensures BinaryNames(props) == [] <==> forall p :: p in props ==> !IsBinary(p)
    ensures forall n :: n in BinaryNames(props) <==>
      exists p :: p in props && IsBinary(p) && p.name == n
  {
    var kept := Seqs.Filter(IsBinary, props);
    forall p | p in props && IsBinary(p)
      ensures p in kept
    {
      Seqs.FilterKeeps(IsBinary, props, p);
    }
    assert |BinaryNames(props)| == |kept|;
    if kept != [] {
      assert kept[0] in kept;
    }
    forall n
      ensures n in BinaryNames(props) <==> exists p :: p in props && IsBinary(p) && p.name == n
    {
      if n in BinaryNames(props) {
        var i :| 0 <= i < |kept| && BinaryNames(props)[i] == n;
        assert kept[i] in kept;
      }
      if p :| p in props && IsBinary(p) && p.name == n {
        var i :| 0 <= i < |kept| && kept[i] == p;
        assert BinaryNames(props)[i] == n;
      }
    }
  }

  /** `required_params` follows the order of `parameters`: the names from a
      concatenation of parameter lists are the names from each list, one
      after the other, and a single parameter contributes its name exactly
      when it is required. */
  lemma RequiredParamsOrder(path: string, verb: string, op: Operation,
                            front: seq<Parameter>, back: seq<Parameter>)
    requires op.parameters == Some(front + back)
    ensures CreateRouteConfig(path, verb, op).requiredParams ==
      CreateRouteConfig(path, verb, op.(parameters := Some(front))).requiredParams +
      CreateRouteConfig(path, verb, op.(parameters := Some(back))).requiredParams
  {
    Seqs.FilterAppend(IsRequired, front, back);
    Seqs.MapAppend(ParameterName, Seqs.Filter(IsRequired, front), Seqs.Filter(IsRequired, back));
  }

  lemma RequiredParamsSingle(path: string, verb: string, op: Operation, p: Parameter)
    requires op.parameters == Some([p])
    ensures CreateRouteConfig(path, verb, op).requiredParams ==
      (if p.required == Some(true) then [p.name] else [])
  {
    assert Seqs.Filter(IsRequired, [p]) == (if IsRequired(p) then [p] else []);
  }

  /** `accepted_files` follows the order of the schema's properties in the
      same way. */
  lemma AcceptedFilesOrder(front: seq<Property>, back: seq<Property>)
    ensures BinaryNames(front + back) == BinaryNames(front) + BinaryNames(back)
  {
    Seqs.FilterAppend(IsBinary, front, back);
    Seqs.MapAppend(PropertyName, Seqs.Filter(IsBinary, front), Seqs.Filter(IsBinary, back));
  }

  /** A single property contributes its name exactly when it is binary. */
  lemma AcceptedFilesSingle(p: Property)
    ensures BinaryNames([p]) == (if IsBinary(p) then [p.name] else [])
  {
    assert Seqs.Filter(IsBinary, [p]) == (if IsBinary(p) then [p] else []);
  }
}
