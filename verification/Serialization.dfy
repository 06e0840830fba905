// serialization.py: the schema-versioned request envelope.
module Serialization {
  import opened Wrappers
  import opened Text
  import opened Contracts
  import Phone
  import J = Json

  type Tree = J.Json

  const REQUEST_SCHEMA_VERSION := 3
  const IMAGE_REQUEST_SCHEMA_VERSION := 2
  const LEGACY_REQUEST_SCHEMA_VERSION := 1

  /** Malformed envelope, unknown version, redacted parameter, or a value that its constructor refuses. */
  datatype CodecError = Malformed | UnsupportedVersion | SensitiveUnavailable | Refused

  function TypeName(t: ComponentType): string {
    match t
    case Header => "header"
    case Body => "body"
    case Button => "button"
  }

  function TypeFromName(name: string): Option<ComponentType> {
    if name == "header" then Some(Header)
    else if name == "body" then Some(Body)
    else if name == "button" then Some(Button)
    else None
  }

  // ---- Writing ----

  function ParameterTree(p: Parameter): Tree {
    match p
    case ImageParameter(id) => J.Obj([J.Field("media_id", J.Str(id)), J.Field("type", J.Str("image"))])
    case SensitiveTextParameter(_) =>
      J.Obj([J.Field("redacted", J.Bool(true)), J.Field("type", J.Str("sensitive_text"))])
    case TextParameter(t) => J.Obj([J.Field("text", J.Str(t)), J.Field("type", J.Str("text"))])
  }

  function ParameterTrees(ps: seq<Parameter>): seq<Tree> {
    if ps == [] then [] else [ParameterTree(ps[0])] + ParameterTrees(ps[1..])
  }

  function OptionalInt(i: Option<int>): Tree {
    if i.Some? then J.Int(i.value) else J.Null
  }

  function OptionalStr(s: Option<string>): Tree {
    if s.Some? then J.Str(s.value) else J.Null
  }

  function ComponentTree(c: TemplateComponent): Tree {
    var parameters := J.Field("parameters", J.Arr(ParameterTrees(c.parameters)));
    var name := J.Field("type", J.Str(TypeName(c.componentType)));
    if c.componentType.Button? then
      J.Obj([J.Field("index", OptionalInt(c.index)), parameters, J.Field("sub_type", OptionalStr(c.subType)), name])
    else
      J.Obj([parameters, name])
  }

  function ComponentTrees(cs: seq<TemplateComponent>): seq<Tree> {
    if cs == [] then [] else [ComponentTree(cs[0])] + ComponentTrees(cs[1..])
  }

  function MessageTree(m: Message): Tree {
    match m
    case TextMessage(body) => J.Obj([J.Field("body", J.Str(body)), J.Field("type", J.Str("text"))])
    case TemplateMessage(t, components) =>
      J.Obj([
        J.Field("components", J.Arr(ComponentTrees(components))),
        J.Field("template", J.Obj([J.Field("language_code", J.Str(t.languageCode)), J.Field("name", J.Str(t.name))])),
        J.Field("type", J.Str("template"))])
  }

  function RequestTree(r: MessageRequest): Tree {
    J.Obj([
      J.Field("correlation_id", J.Str(r.correlationId)),
      J.Field("idempotency_key", J.Str(r.idempotencyKey)),
      J.Field("message", MessageTree(r.message)),
      J.Field("recipient", J.Str(r.recipient))])
  }

  /** The envelope, its keys already in the order of `sort_keys`. */
  function Envelope(version: int, request: Tree): Tree {
    J.Obj([J.Field("request", request), J.Field("schema_version", J.Int(version))])
  }

  function Serialize(r: MessageRequest): string {
    J.Print(Envelope(REQUEST_SCHEMA_VERSION, RequestTree(r)))
  }

  // ---- Reading ----

  function ExpectObject(j: Tree): Result<seq<J.Field>, CodecError> {
    if j.Obj? then Ok(j.fields) else Err(Malformed)
  }

  function ExpectList(j: Option<Tree>): Result<seq<Tree>, CodecError> {
    if j.Some? && j.value.Arr? then Ok(j.value.items) else Err(Malformed)
  }

  function ExpectString(j: Option<Tree>): Result<string, CodecError> {
    if j.Some? && j.value.Str? then Ok(j.value.s) else Err(Malformed)
  }

  function ExpectExactKeys(j: Tree, keys: set<string>): Result<seq<J.Field>, CodecError> {
    var fields :- ExpectObject(j);
    if J.Keys(fields) == keys then Ok(fields) else Err(Malformed)
  }

  function Checked<T>(value: T, valid: bool): Result<T, CodecError> {
    if valid then Ok(value) else Err(Refused)
  }

  function ParseParameter(j: Tree, version: int): Result<Parameter, CodecError> {
    var fields :- ExpectObject(j);
    var kind :- ExpectString(J.Lookup(fields, "type"));
    if kind == "text" then
      var exact :- ExpectExactKeys(j, {"type", "text"});
      var text :- ExpectString(J.Lookup(exact, "text"));
      Checked(TextParameter(text), NonBlank(text))
    else if kind == "image" && (version == IMAGE_REQUEST_SCHEMA_VERSION || version == REQUEST_SCHEMA_VERSION) then
      var exact :- ExpectExactKeys(j, {"type", "media_id"});
      var id :- ExpectString(J.Lookup(exact, "media_id"));
      Checked(ImageParameter(id), MediaId(id))
    else if kind == "sensitive_text" && version == REQUEST_SCHEMA_VERSION then
      var exact :- ExpectExactKeys(j, {"type", "redacted"});
      if J.Lookup(exact, "redacted") == Some(J.Bool(true)) then Err(SensitiveUnavailable) else Err(Malformed)
    else Err(Malformed)
  }

  function ParseParameters(items: seq<Tree>, version: int): Result<seq<Parameter>, CodecError> {
    if items == [] then Ok([])
    else
      var first :- ParseParameter(items[0], version);
      var others :- ParseParameters(items[1..], version);
      Ok([first] + others)
  }

  /** The button metadata of a component, after the check of the component's keys. */
  function ParseMetadata(j: Tree, isButton: bool, version: int): Result<(Option<string>, Option<int>), CodecError> {
    if isButton && version == REQUEST_SCHEMA_VERSION then
      var fields :- ExpectExactKeys(j, {"type", "sub_type", "index", "parameters"});
      var subType :- ExpectString(J.Lookup(fields, "sub_type"));
      var index := J.Lookup(fields, "index");
      if index.Some? && index.value.Int? then Ok((Some(subType), Some(index.value.n))) else Err(Malformed)
    else
      var _ :- ExpectExactKeys(j, {"type", "parameters"});
      Ok((None, None))
  }

  function ParseComponent(j: Tree, version: int): Result<TemplateComponent, CodecError> {
    var fields :- ExpectObject(j);
    var name :- ExpectString(J.Lookup(fields, "type"));
    match TypeFromName(name)
    case None => Err(Malformed)
    case Some(componentType) =>
      var metadata :- ParseMetadata(j, componentType.Button?, version);
      var items :- ExpectList(J.Lookup(fields, "parameters"));
      var parameters :- ParseParameters(items, version);
      var component := TemplateComponent(componentType, parameters, metadata.0, metadata.1);
      Checked(component, component.Valid())
  }

  function ParseComponents(items: seq<Tree>, version: int): Result<seq<TemplateComponent>, CodecError> {
    if items == [] then Ok([])
    else
      var first :- ParseComponent(items[0], version);
      var others :- ParseComponents(items[1..], version);
      Ok([first] + others)
  }

  function ParseMessage(j: Tree, version: int): Result<Message, CodecError> {
    var fields :- ExpectObject(j);
    var kind :- ExpectString(J.Lookup(fields, "type"));
    if kind == "text" then
      var exact :- ExpectExactKeys(j, {"type", "body"});
      var body :- ExpectString(J.Lookup(exact, "body"));
      Checked(TextMessage(body), NonBlank(body))
    else if kind == "template" then
      var exact :- ExpectExactKeys(j, {"type", "template", "components"});
      var template := J.Lookup(exact, "template");
      var reference :- ExpectExactKeys(if template.Some? then template.value else J.Null, {"name", "language_code"});
      var items :- ExpectList(J.Lookup(exact, "components"));
      var components :- ParseComponents(items, version);
      var name :- ExpectString(J.Lookup(reference, "name"));
      var language :- ExpectString(J.Lookup(reference, "language_code"));
      Checked(TemplateMessage(TemplateReference(name, language), components), NonBlank(name) && NonBlank(language))
    else Err(Malformed)
  }

  predicate SupportedVersion(version: int) {
    || version == LEGACY_REQUEST_SCHEMA_VERSION
    || version == IMAGE_REQUEST_SCHEMA_VERSION
    || version == REQUEST_SCHEMA_VERSION
  }

  function ParseRequest(j: Tree, version: int): Result<MessageRequest, CodecError> {
    var fields :- ExpectExactKeys(j, {"recipient", "message", "correlation_id", "idempotency_key"});
    var recipient :- ExpectString(J.Lookup(fields, "recipient"));
    var messageTree := J.Lookup(fields, "message");
    var message :- ParseMessage(if messageTree.Some? then messageTree.value else J.Null, version);
    var correlationId :- ExpectString(J.Lookup(fields, "correlation_id"));
    var idempotencyKey :- ExpectString(J.Lookup(fields, "idempotency_key"));
    var request := MessageRequest(recipient, message, correlationId, idempotencyKey);
    Checked(request, Phone.IsE164(recipient) && NonBlank(correlationId) && NonBlank(idempotencyKey))
  }

  function FromTree(j: Tree): Result<MessageRequest, CodecError> {
    var envelope :- ExpectExactKeys(j, {"schema_version", "request"});
    var version := J.Lookup(envelope, "schema_version");
    if version == None || !version.value.Int? || !SupportedVersion(version.value.n) then Err(UnsupportedVersion)
    else
      var request := J.Lookup(envelope, "request");
      ParseRequest(if request.Some? then request.value else J.Null, version.value.n)
  }

  function Deserialize(payload: string): Result<MessageRequest, CodecError> {
    match J.Parse(payload)
    case Err(_) => Err(Malformed)
    case Ok(j) => FromTree(j)
  }

  /** `_parse_component`, with its loop over the raw parameters. */
  method ReadComponentStepwise(j: Tree, version: int) returns (r: Result<TemplateComponent, CodecError>)
    ensures r == ParseComponent(j, version)
  {
    var fields :- ExpectObject(j);
    var name :- ExpectString(J.Lookup(fields, "type"));
    var componentType := TypeFromName(name);
    if componentType == None {
      return Err(Malformed);
    }
    var metadata :- ParseMetadata(j, componentType.value.Button?, version);
    var items :- ExpectList(J.Lookup(fields, "parameters"));
    var parameters: seq<Parameter> := [];
    PrependLaws([], ParseParameters(items, version));
    assert items[0..] == items;
    for i := 0 to |items|
      invariant ParseParameters(items, version) == Prepend(parameters, ParseParameters(items[i..], version))
    {
      assert items[i..][1..] == items[i + 1..];
      var parameter :- ParseParameter(items[i], version);
      PrependLaws(parameters, ParseParameters(items[i + 1..], version));
      parameters := parameters + [parameter];
    }
    assert items[|items|..] == [] && parameters + [] == parameters;
    var component := TemplateComponent(componentType.value, parameters, metadata.0, metadata.1);
    r := Checked(component, component.Valid());
  }

  function Prepend(front: seq<Parameter>, rest: Result<seq<Parameter>, CodecError>): Result<seq<Parameter>, CodecError>
  {
    if rest.Ok? then Ok(front + rest.value) else rest
  }

  lemma PrependLaws(front: seq<Parameter>, rest: Result<seq<Parameter>, CodecError>)
    ensures Prepend([], rest) == rest
    ensures rest.Ok? ==> forall p :: front + ([p] + rest.value) == (front + [p]) + rest.value
  {
    if rest.Ok? {
      assert [] + rest.value == rest.value;
    }
  }
}
