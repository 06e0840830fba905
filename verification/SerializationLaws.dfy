// What the request envelope keeps: exact round trips, the kernel of redaction, and the
// relation between the three schema versions.
module SerializationLaws {
  import opened Wrappers
  import opened Text
  import opened Contracts
  import opened Serialization
  import Phone
  import J = Json

  // ---- Objects with two, three or four fields ----

  lemma Fields2(a: J.Field, b: J.Field)
    requires a.key != b.key
    ensures var f := [a, b];
            && J.Keys(f) == {a.key, b.key} && J.UniqueKeys(f)
            && J.Lookup(f, a.key) == Some(a.value) && J.Lookup(f, b.key) == Some(b.value)
  {
    var f := [a, b];
    assert f[1..] == [b] && f[1..][1..] == [];
    assert f[0] == a && f[1] == b;
  }

  lemma Fields3(a: J.Field, b: J.Field, c: J.Field)
    requires a.key != b.key && a.key != c.key && b.key != c.key
    ensures var f := [a, b, c];
            && J.Keys(f) == {a.key, b.key, c.key} && J.UniqueKeys(f)
            && J.Lookup(f, a.key) == Some(a.value) && J.Lookup(f, b.key) == Some(b.value)
            && J.Lookup(f, c.key) == Some(c.value)
  {
    var f := [a, b, c];
    Fields2(b, c);
    assert f[1..] == [b, c];
    assert f[0] == a && f[1] == b && f[2] == c;
  }

  lemma Fields4(a: J.Field, b: J.Field, c: J.Field, d: J.Field)
    requires a.key != b.key && a.key != c.key && a.key != d.key
    requires b.key != c.key && b.key != d.key && c.key != d.key
    ensures var f := [a, b, c, d];
            && J.Keys(f) == {a.key, b.key, c.key, d.key} && J.UniqueKeys(f)
            && J.Lookup(f, a.key) == Some(a.value) && J.Lookup(f, b.key) == Some(b.value)
            && J.Lookup(f, c.key) == Some(c.value) && J.Lookup(f, d.key) == Some(d.value)
  {
    var f := [a, b, c, d];
    Fields3(b, c, d);
    assert f[1..] == [b, c, d];
    assert f[0] == a && f[1] == b && f[2] == c && f[3] == d;
  }

  lemma Fields5(a: J.Field, b: J.Field, c: J.Field, d: J.Field, e: J.Field)
    requires a.key != b.key && a.key != c.key && a.key != d.key && a.key != e.key
    requires b.key != c.key && b.key != d.key && b.key != e.key
    requires c.key != d.key && c.key != e.key && d.key != e.key
    ensures var f := [a, b, c, d, e];
            && J.Keys(f) == {a.key, b.key, c.key, d.key, e.key}
            && J.Lookup(f, a.key) == Some(a.value) && J.Lookup(f, b.key) == Some(b.value)
            && J.Lookup(f, c.key) == Some(c.value) && J.Lookup(f, d.key) == Some(d.value)
            && J.Lookup(f, e.key) == Some(e.value)
  {
    var f := [a, b, c, d, e];
    Fields4(b, c, d, e);
    assert f[1..] == [b, c, d, e];
    assert f[0] == a && f[1] == b && f[2] == c && f[3] == d && f[4] == e;
  }

  lemma FirstField(j: Tree)
    requires j.Obj? && j.fields != []
    requires J.UniqueKeys(j.fields[1..]) && j.fields[0].key !in J.Keys(j.fields[1..])
    requires J.NoDuplicates(j.fields[0].value) && forall x <- j.fields[1..] :: J.NoDuplicates(x.value)
    ensures J.NoDuplicates(j)
  {
  }

  lemma TypeNames(t: ComponentType)
    ensures TypeFromName(TypeName(t)) == Some(t)
  {
    assert "header"[0] == 'h' && "body"[0] == 'b' && "button"[1] == 'u' && "body"[1] == 'o';
  }

  // ---- Exact round trips ----

  predicate HasSensitive(ps: seq<Parameter>) {
    exists p <- ps :: p.SensitiveTextParameter?
  }

  /** Why a written component cannot be read back, if so. */
  function Obstacle(c: TemplateComponent): Option<CodecError> {
    if c.componentType.Button? && !c.IsUrlButton() then Some(Malformed)
    else if HasSensitive(c.parameters) then Some(SensitiveUnavailable)
    else None
  }

  function FirstObstacle(cs: seq<TemplateComponent>): Option<CodecError> {
    if cs == [] then None
    else if Obstacle(cs[0]).Some? then Obstacle(cs[0])
    else FirstObstacle(cs[1..])
  }

  function MessageObstacle(m: Message): Option<CodecError> {
    match m
    case TextMessage(_) => None
    case TemplateMessage(_, components) => FirstObstacle(components)
  }

  lemma ReadParameter(p: Parameter)
    requires p.Valid()
    ensures ParseParameter(ParameterTree(p), REQUEST_SCHEMA_VERSION) ==
            if p.SensitiveTextParameter? then Err(SensitiveUnavailable) else Ok(p)
  {
    match p
    case ImageParameter(id) =>
      Fields2(J.Field("media_id", J.Str(id)), J.Field("type", J.Str("image")));
    case SensitiveTextParameter(_) =>
      Fields2(J.Field("redacted", J.Bool(true)), J.Field("type", J.Str("sensitive_text")));
    case TextParameter(t) =>
      Fields2(J.Field("text", J.Str(t)), J.Field("type", J.Str("text")));
  }

  lemma {:induction false} ReadParameters(ps: seq<Parameter>)
    requires forall p <- ps :: p.Valid()
    ensures ParseParameters(ParameterTrees(ps), REQUEST_SCHEMA_VERSION) ==
            if HasSensitive(ps) then Err(SensitiveUnavailable) else Ok(ps)
  {
    if ps != [] {
      ReadParameter(ps[0]);
      ReadParameters(ps[1..]);
      assert ps == [ps[0]] + ps[1..];
    }
  }

  lemma ComponentFields(c: TemplateComponent)
    ensures var f := ComponentTree(c).fields;
            && J.UniqueKeys(f)
            && J.Lookup(f, "type") == Some(J.Str(TypeName(c.componentType)))
            && J.Lookup(f, "parameters") == Some(J.Arr(ParameterTrees(c.parameters)))
            && (if c.componentType.Button? then
                  && J.Keys(f) == {"type", "sub_type", "index", "parameters"}
                  && J.Lookup(f, "sub_type") == Some(OptionalStr(c.subType))
                  && J.Lookup(f, "index") == Some(OptionalInt(c.index))
                else
                  J.Keys(f) == {"type", "parameters"})
  {
    var parameters := J.Field("parameters", J.Arr(ParameterTrees(c.parameters)));
    var name := J.Field("type", J.Str(TypeName(c.componentType)));
    if c.componentType.Button? {
      Fields4(J.Field("index", OptionalInt(c.index)), parameters, J.Field("sub_type", OptionalStr(c.subType)), name);
    } else {
      Fields2(parameters, name);
    }
  }

  lemma ReadMetadata(c: TemplateComponent)
    requires c.Valid()
    ensures ParseMetadata(ComponentTree(c), c.componentType.Button?, REQUEST_SCHEMA_VERSION) ==
            if c.componentType.Button? && !c.IsUrlButton() then Err(Malformed) else Ok((c.subType, c.index))
  {
    ComponentFields(c);
  }

  lemma ReadComponent(c: TemplateComponent)
    requires c.Valid()
    ensures ParseComponent(ComponentTree(c), REQUEST_SCHEMA_VERSION) ==
            if Obstacle(c).Some? then Err(Obstacle(c).value) else Ok(c)
  {
    ComponentFields(c);
    ReadMetadata(c);
    TypeNames(c.componentType);
    ReadParameters(c.parameters);
  }

  lemma {:induction false} ReadComponents(cs: seq<TemplateComponent>)
    requires forall c <- cs :: c.Valid()
    ensures ParseComponents(ComponentTrees(cs), REQUEST_SCHEMA_VERSION) ==
            if FirstObstacle(cs).Some? then Err(FirstObstacle(cs).value) else Ok(cs)
  {
    if cs != [] {
      ReadComponent(cs[0]);
      ReadComponents(cs[1..]);
      assert cs == [cs[0]] + cs[1..];
    }
  }

  lemma ReadMessage(m: Message)
    requires m.Valid()
    ensures ParseMessage(MessageTree(m), REQUEST_SCHEMA_VERSION) ==
            if MessageObstacle(m).Some? then Err(MessageObstacle(m).value) else Ok(m)
  {
    match m
    case TextMessage(body) =>
      Fields2(J.Field("body", J.Str(body)), J.Field("type", J.Str("text")));
    case TemplateMessage(t, components) =>
      var language, name := J.Field("language_code", J.Str(t.languageCode)), J.Field("name", J.Str(t.name));
      Fields2(language, name);
      Fields3(
        J.Field("components", J.Arr(ComponentTrees(components))),
        J.Field("template", J.Obj([language, name])),
        J.Field("type", J.Str("template")));
      ReadComponents(components);
  }

  /** Reading a request whose message tree reads as given. */
  lemma ReadRequestFields(j: Tree, r: MessageRequest, message: Result<Message, CodecError>)
    requires j.Obj? && Phone.IsE164(r.recipient) && NonBlank(r.correlationId) && NonBlank(r.idempotencyKey)
    requires J.Keys(j.fields) == {"recipient", "message", "correlation_id", "idempotency_key"}
    requires J.Lookup(j.fields, "correlation_id") == Some(J.Str(r.correlationId))
    requires J.Lookup(j.fields, "idempotency_key") == Some(J.Str(r.idempotencyKey))
    requires J.Lookup(j.fields, "recipient") == Some(J.Str(r.recipient))
    requires J.Lookup(j.fields, "message").Some?
    requires ParseMessage(J.Lookup(j.fields, "message").value, REQUEST_SCHEMA_VERSION) == message
    ensures ParseRequest(j, REQUEST_SCHEMA_VERSION) ==
            if message.Err? then Err(message.error) else Ok(r.(message := message.value))
  {
  }

  lemma ReadRequest(r: MessageRequest)
    requires r.Valid()
    ensures ParseRequest(RequestTree(r), REQUEST_SCHEMA_VERSION) ==
            if MessageObstacle(r.message).Some? then Err(MessageObstacle(r.message).value) else Ok(r)
  {
    RequestFields(r);
    ReadMessage(r.message);
    ReadRequestFields(RequestTree(r), r, ParseMessage(MessageTree(r.message), REQUEST_SCHEMA_VERSION));
  }

  lemma RequestFields(r: MessageRequest)
    ensures var f := RequestTree(r).fields;
            && J.Keys(f) == {"recipient", "message", "correlation_id", "idempotency_key"} && J.UniqueKeys(f)
            && J.Lookup(f, "correlation_id") == Some(J.Str(r.correlationId))
            && J.Lookup(f, "idempotency_key") == Some(J.Str(r.idempotencyKey))
            && J.Lookup(f, "message") == Some(MessageTree(r.message))
            && J.Lookup(f, "recipient") == Some(J.Str(r.recipient))
  {
    Fields4(
      J.Field("correlation_id", J.Str(r.correlationId)),
      J.Field("idempotency_key", J.Str(r.idempotencyKey)),
      J.Field("message", MessageTree(r.message)),
      J.Field("recipient", J.Str(r.recipient)));
  }

  lemma ReadEnvelope(version: int, request: Tree)
    ensures FromTree(Envelope(version, request)) ==
            if SupportedVersion(version) then ParseRequest(request, version) else Err(UnsupportedVersion)
  {
    Fields2(J.Field("request", request), J.Field("schema_version", J.Int(version)));
  }

  // Written envelopes never repeat a key.

  lemma {:induction false} ParametersHaveUniqueKeys(ps: seq<Parameter>)
    ensures forall x <- ParameterTrees(ps) :: J.NoDuplicates(x)
  {
    if ps != [] {
      ParametersHaveUniqueKeys(ps[1..]);
      assert J.NoDuplicates(ParameterTree(ps[0])) by {
        match ps[0]
        case ImageParameter(id) =>
          Fields2(J.Field("media_id", J.Str(id)), J.Field("type", J.Str("image")));
        case SensitiveTextParameter(_) =>
          Fields2(J.Field("redacted", J.Bool(true)), J.Field("type", J.Str("sensitive_text")));
        case TextParameter(t) =>
          Fields2(J.Field("text", J.Str(t)), J.Field("type", J.Str("text")));
      }
    }
  }

  lemma ComponentHasUniqueKeys(c: TemplateComponent)
    ensures J.NoDuplicates(ComponentTree(c))
  {
    ComponentFields(c);
    ParametersHaveUniqueKeys(c.parameters);
    var f := ComponentTree(c).fields;
    forall x <- f ensures J.NoDuplicates(x.value) {
      if c.componentType.Button? {
        assert x in {f[0], f[1], f[2], f[3]};
      } else {
        assert x in {f[0], f[1]};
      }
    }
  }

  lemma {:induction false} ComponentsHaveUniqueKeys(cs: seq<TemplateComponent>)
    ensures forall x <- ComponentTrees(cs) :: J.NoDuplicates(x)
  {
    if cs != [] {
      ComponentsHaveUniqueKeys(cs[1..]);
      ComponentHasUniqueKeys(cs[0]);
    }
  }

  lemma MessageHasUniqueKeys(m: Message)
    ensures J.NoDuplicates(MessageTree(m))
  {
    match m
    case TextMessage(body) =>
      Fields2(J.Field("body", J.Str(body)), J.Field("type", J.Str("text")));
    case TemplateMessage(t, components) =>
      var language, name := J.Field("language_code", J.Str(t.languageCode)), J.Field("name", J.Str(t.name));
      Fields2(language, name);
      ComponentsHaveUniqueKeys(components);
      Fields3(
        J.Field("components", J.Arr(ComponentTrees(components))),
        J.Field("template", J.Obj([language, name])),
        J.Field("type", J.Str("template")));
  }

  lemma RequestHasUniqueKeys(r: MessageRequest)
    ensures J.NoDuplicates(RequestTree(r))
  {
    MessageHasUniqueKeys(r.message);
    RequestFields(r);
    var f := RequestTree(r).fields;
    assert forall x <- f :: x in {f[0], f[1], f[2], f[3]};
  }

  lemma EnvelopeHasUniqueKeys(version: int, r: MessageRequest)
    ensures J.NoDuplicates(Envelope(version, RequestTree(r)))
  {
    RequestHasUniqueKeys(r);
    Fields2(J.Field("request", RequestTree(r)), J.Field("schema_version", J.Int(version)));
  }

  /**
   * Reading back what was written: the request itself, or the error of the first component that
   * cannot be restored.
   */
  lemma DeserializeSerialized(r: MessageRequest)
    requires r.Valid()
    ensures Deserialize(Serialize(r)) ==
            if MessageObstacle(r.message).Some? then Err(MessageObstacle(r.message).value) else Ok(r)
  {
    EnvelopeHasUniqueKeys(REQUEST_SCHEMA_VERSION, r);
    J.ParsePrint(Envelope(REQUEST_SCHEMA_VERSION, RequestTree(r)));
    ReadEnvelope(REQUEST_SCHEMA_VERSION, RequestTree(r));
    ReadRequest(r);
  }

  predicate ContainsSensitive(m: Message) {
    m.TemplateMessage? && exists c <- m.components :: HasSensitive(c.parameters)
  }

  predicate UrlButtonsOnly(m: Message) {
    m.TemplateMessage? ==> forall c <- m.components :: c.componentType.Button? ==> c.IsUrlButton()
  }

  lemma {:induction false} ObstacleIff(cs: seq<TemplateComponent>)
    ensures FirstObstacle(cs) == None <==> forall c <- cs :: Obstacle(c) == None
    ensures FirstObstacle(cs).Some? ==> exists c <- cs :: Obstacle(c) == FirstObstacle(cs)
  {
    if cs != [] {
      ObstacleIff(cs[1..]);
      assert cs == [cs[0]] + cs[1..];
    }
  }

  /**
   * The exact domain of the round trip. A request comes back as it was exactly when it has no
   * sensitive parameter and only url buttons; every other one is refused.
   */
  lemma RoundTripIff(r: MessageRequest)
    requires r.Valid()
    ensures Deserialize(Serialize(r)) == Ok(r) <==> !ContainsSensitive(r.message) && UrlButtonsOnly(r.message)
    ensures Deserialize(Serialize(r)) != Ok(r) ==> Deserialize(Serialize(r)).Err?
  {
    DeserializeSerialized(r);
    if r.message.TemplateMessage? {
      ObstacleIff(r.message.components);
    }
  }

  /** With url buttons only, the one possible refusal is that of a sensitive request. */
  lemma SensitiveIsUnavailable(r: MessageRequest)
    requires r.Valid() && UrlButtonsOnly(r.message)
    ensures Deserialize(Serialize(r)) ==
            if ContainsSensitive(r.message) then Err(SensitiveUnavailable) else Ok(r)
  {
    DeserializeSerialized(r);
    if r.message.TemplateMessage? {
      ObstacleIff(r.message.components);
    }
  }

  // ---- What redaction loses ----

  const MARKER := SensitiveTextParameter("")

  function RedactParameter(p: Parameter): Parameter {
    if p.SensitiveTextParameter? then MARKER else p
  }

  function RedactParameters(ps: seq<Parameter>): seq<Parameter> {
    if ps == [] then [] else [RedactParameter(ps[0])] + RedactParameters(ps[1..])
  }

  function RedactComponents(cs: seq<TemplateComponent>): seq<TemplateComponent> {
    if cs == [] then []
    else [cs[0].(parameters := RedactParameters(cs[0].parameters))] + RedactComponents(cs[1..])
  }

  function RedactMessage(m: Message): Message {
    match m
    case TextMessage(_) => m
    case TemplateMessage(t, components) => TemplateMessage(t, RedactComponents(components))
  }

  /** The request with every sensitive text replaced by one marker. */
  function Redact(r: MessageRequest): MessageRequest {
    r.(message := RedactMessage(r.message))
  }

  lemma ParameterKernel(p: Parameter, q: Parameter)
    ensures ParameterTree(p) == ParameterTree(q) <==> RedactParameter(p) == RedactParameter(q)
  {
    assert "text"[0] == 't' && "image"[0] == 'i' && "sensitive_text"[0] == 's';
    var a, b := ParameterTree(p).fields, ParameterTree(q).fields;
    assert a[0] == a[0] && b[0] == b[0] && a[1] == a[1] && b[1] == b[1];
  }

  lemma ConsInjective<T>(a: T, s: seq<T>, b: T, t: seq<T>)
    ensures [a] + s == [b] + t <==> a == b && s == t
  {
    assert ([a] + s)[0] == a && ([b] + t)[0] == b;
    assert ([a] + s)[1..] == s && ([b] + t)[1..] == t;
  }

  lemma {:induction false} ParametersKernel(ps: seq<Parameter>, qs: seq<Parameter>)
    ensures ParameterTrees(ps) == ParameterTrees(qs) <==> RedactParameters(ps) == RedactParameters(qs)
  {
    if ps != [] && qs != [] {
      ParameterKernel(ps[0], qs[0]);
      ParametersKernel(ps[1..], qs[1..]);
      ConsInjective(ParameterTree(ps[0]), ParameterTrees(ps[1..]), ParameterTree(qs[0]), ParameterTrees(qs[1..]));
      ConsInjective(RedactParameter(ps[0]), RedactParameters(ps[1..]), RedactParameter(qs[0]),
                    RedactParameters(qs[1..]));
    }
  }

  lemma ComponentKernel(c: TemplateComponent, d: TemplateComponent)
    requires c.Valid() && d.Valid()
    ensures ComponentTree(c) == ComponentTree(d) <==>
            c.(parameters := RedactParameters(c.parameters)) == d.(parameters := RedactParameters(d.parameters))
  {
    ParametersKernel(c.parameters, d.parameters);
    TypeNames(c.componentType);
    TypeNames(d.componentType);
    var f, g := ComponentTree(c).fields, ComponentTree(d).fields;
    if |f| == |g| {
      assert f == g <==> forall i :: 0 <= i < |f| ==> f[i] == g[i];
      if c.componentType.Button? && d.componentType.Button? {
        assert f == g <==> f[0] == g[0] && f[1] == g[1] && f[2] == g[2] && f[3] == g[3];
      } else {
        assert f == g <==> f[0] == g[0] && f[1] == g[1];
      }
    }
  }

  lemma {:induction false} ComponentsKernel(cs: seq<TemplateComponent>, ds: seq<TemplateComponent>)
    requires (forall c <- cs :: c.Valid()) && (forall d <- ds :: d.Valid())
    ensures ComponentTrees(cs) == ComponentTrees(ds) <==> RedactComponents(cs) == RedactComponents(ds)
  {
    if cs != [] && ds != [] {
      ComponentKernel(cs[0], ds[0]);
      ComponentsKernel(cs[1..], ds[1..]);
      ConsInjective(ComponentTree(cs[0]), ComponentTrees(cs[1..]), ComponentTree(ds[0]), ComponentTrees(ds[1..]));
      ConsInjective(
        cs[0].(parameters := RedactParameters(cs[0].parameters)), RedactComponents(cs[1..]),
        ds[0].(parameters := RedactParameters(ds[0].parameters)), RedactComponents(ds[1..]));
    }
  }

  lemma MessageKernel(m: Message, n: Message)
    requires m.Valid() && n.Valid()
    ensures MessageTree(m) == MessageTree(n) <==> RedactMessage(m) == RedactMessage(n)
  {
    var f, g := MessageTree(m).fields, MessageTree(n).fields;
    match (m, n)
    case (TextMessage(_), TextMessage(_)) =>
      assert f == g <==> f[0] == g[0] && f[1] == g[1];
    case (TemplateMessage(t, cs), TemplateMessage(u, ds)) =>
      ComponentsKernel(cs, ds);
      var a, b := f[1].value.fields, g[1].value.fields;
      assert a == b <==> a[0] == b[0] && a[1] == b[1];
      assert f == g <==> f[0] == g[0] && f[1] == g[1] && f[2] == g[2];
    case _ =>
      assert |f| != |g|;
  }

  /** Two requests have the same stored text exactly when they agree up to their sensitive texts. */
  lemma RedactionLosesOnlySensitiveTexts(r: MessageRequest, q: MessageRequest)
    requires r.Valid() && q.Valid()
    ensures Serialize(r) == Serialize(q) <==> Redact(r) == Redact(q)
  {
    var t, u := Envelope(REQUEST_SCHEMA_VERSION, RequestTree(r)), Envelope(REQUEST_SCHEMA_VERSION, RequestTree(q));
    EnvelopeHasUniqueKeys(REQUEST_SCHEMA_VERSION, r);
    EnvelopeHasUniqueKeys(REQUEST_SCHEMA_VERSION, q);
    J.PrintIsInjective(t, u);
    assert t == u <==> RequestTree(r) == RequestTree(q) by {
      assert t.fields[0].value == RequestTree(r) && u.fields[0].value == RequestTree(q);
    }
    MessageKernel(r.message, q.message);
    var f, g := RequestTree(r).fields, RequestTree(q).fields;
    assert f == g <==> f[0] == g[0] && f[1] == g[1] && f[2] == g[2] && f[3] == g[3];
  }

  // ---- The three schema versions ----

  predicate IsButtonTree(j: Tree) {
    j.Obj? && J.Lookup(j.fields, "type") == Some(J.Str("button"))
  }

  predicate HasButtonTree(items: seq<Tree>) {
    exists x <- items :: IsButtonTree(x)
  }

  predicate MessageHasButton(j: Tree) {
    j.Obj? && var c := J.Lookup(j.fields, "components");
    c.Some? && c.value.Arr? && HasButtonTree(c.value.items)
  }

  predicate RequestHasButton(j: Tree) {
    j.Obj? && var m := J.Lookup(j.fields, "message");
    m.Some? && MessageHasButton(m.value)
  }

  lemma ParameterIsMonotone(j: Tree, v: int, w: int)
    requires SupportedVersion(v) && SupportedVersion(w) && v <= w && ParseParameter(j, v).Ok?
    ensures ParseParameter(j, w) == ParseParameter(j, v)
    ensures ParseParameter(j, v).value.Valid() && !ParseParameter(j, v).value.SensitiveTextParameter?
  {
  }

  lemma {:induction false} ParametersAreMonotone(items: seq<Tree>, v: int, w: int)
    requires SupportedVersion(v) && SupportedVersion(w) && v <= w && ParseParameters(items, v).Ok?
    ensures ParseParameters(items, w) == ParseParameters(items, v)
    ensures !HasSensitive(ParseParameters(items, v).value)
  {
    if items != [] {
      ParameterIsMonotone(items[0], v, w);
      ParametersAreMonotone(items[1..], v, w);
    }
  }

  /** A component that is not a button reads the same under any later version. */
  lemma ComponentIsMonotone(j: Tree, v: int, w: int)
    requires SupportedVersion(v) && SupportedVersion(w) && v <= w && ParseComponent(j, v).Ok?
    ensures ParseComponent(j, v).value.Valid() && !HasSensitive(ParseComponent(j, v).value.parameters)
    ensures ParseComponent(j, v).value.componentType.Button? <==> IsButtonTree(j)
    ensures !IsButtonTree(j) ==> ParseComponent(j, w) == ParseComponent(j, v)
    ensures IsButtonTree(j) && v == REQUEST_SCHEMA_VERSION ==> ParseComponent(j, v).value.IsUrlButton()
    ensures IsButtonTree(j) && v != REQUEST_SCHEMA_VERSION ==>
              !ParseComponent(j, v).value.IsUrlButton() && ParseComponent(j, REQUEST_SCHEMA_VERSION).Err?
  {
    var items := J.Lookup(j.fields, "parameters").value.items;
    var name := J.Lookup(j.fields, "type").value.s;
    ParametersAreMonotone(items, v, w);
    assert TypeFromName(name) == Some(Button) <==> name == "button" by {
      TypeNames(Button);
    }
    if IsButtonTree(j) && v != REQUEST_SCHEMA_VERSION {
      assert "sub_type" !in J.Keys(j.fields);
    }
  }

  lemma {:induction false} ComponentsAreMonotone(items: seq<Tree>, v: int, w: int)
    requires SupportedVersion(v) && SupportedVersion(w) && v <= w && ParseComponents(items, v).Ok?
    ensures !HasButtonTree(items) ==> ParseComponents(items, w) == ParseComponents(items, v)
    ensures forall c <- ParseComponents(items, v).value :: c.Valid() && !HasSensitive(c.parameters)
    ensures (forall c <- ParseComponents(items, v).value :: c.componentType.Button? ==> c.IsUrlButton()) <==>
            v == REQUEST_SCHEMA_VERSION || !HasButtonTree(items)
    ensures HasButtonTree(items) && v != REQUEST_SCHEMA_VERSION ==> ParseComponents(items, REQUEST_SCHEMA_VERSION).Err?
  {
    if items != [] {
      ComponentIsMonotone(items[0], v, w);
      ComponentsAreMonotone(items[1..], v, w);
      assert items == [items[0]] + items[1..];
      assert HasButtonTree(items) <==> IsButtonTree(items[0]) || HasButtonTree(items[1..]);
      var first, others := ParseComponent(items[0], v).value, ParseComponents(items[1..], v).value;
      var all := ParseComponents(items, v).value;
      assert all == [first] + others && all[0] == first && all[1..] == others;
      assert forall c :: c in all <==> c == first || c in others;
    }
  }

  lemma MessageIsMonotone(j: Tree, v: int, w: int)
    requires SupportedVersion(v) && SupportedVersion(w) && v <= w && ParseMessage(j, v).Ok?
    ensures var m := ParseMessage(j, v).value; m.Valid() && !ContainsSensitive(m)
    ensures UrlButtonsOnly(ParseMessage(j, v).value) <==> v == REQUEST_SCHEMA_VERSION || !MessageHasButton(j)
    ensures !MessageHasButton(j) ==> ParseMessage(j, w) == ParseMessage(j, v)
    ensures MessageHasButton(j) && v != REQUEST_SCHEMA_VERSION ==> ParseMessage(j, REQUEST_SCHEMA_VERSION).Err?
  {
    if J.Lookup(j.fields, "type") == Some(J.Str("template")) {
      ComponentsAreMonotone(J.Lookup(j.fields, "components").value.items, v, w);
    } else {
      TextHasNoComponents(j);
    }
  }

  lemma TextHasNoComponents(j: Tree)
    requires j.Obj? && J.Keys(j.fields) == {"type", "body"}
    ensures J.Lookup(j.fields, "components") == None
  {
    LookupIsMembership(j.fields, "components");
  }

  lemma {:induction false} LookupIsMembership(fields: seq<J.Field>, key: string)
    ensures J.Lookup(fields, key).Some? <==> key in J.Keys(fields)
  {
    if fields != [] {
      LookupIsMembership(fields[1..], key);
      assert fields == [fields[0]] + fields[1..];
      assert J.Keys(fields) == {fields[0].key} + J.Keys(fields[1..]);
    }
  }

  /**
   * An envelope without button components that one version accepts is accepted, with the same
   * result, by every later one. One with a button component is never accepted both before and
   * under the current version.
   */
  lemma VersionsAreMonotone(request: Tree, v: int, w: int)
    requires SupportedVersion(v) && SupportedVersion(w) && v <= w && FromTree(Envelope(v, request)).Ok?
    ensures !RequestHasButton(request) ==> FromTree(Envelope(w, request)) == FromTree(Envelope(v, request))
    ensures RequestHasButton(request) && v != REQUEST_SCHEMA_VERSION ==>
              FromTree(Envelope(REQUEST_SCHEMA_VERSION, request)).Err?
  {
    ReadEnvelope(v, request);
    ReadEnvelope(w, request);
    ReadEnvelope(REQUEST_SCHEMA_VERSION, request);
    MessageIsMonotone(J.Lookup(request.fields, "message").value, v, w);
  }

  /** An accepted envelope survives being written again unless it is a legacy one with a button. */
  lemma AcceptedSurvivesRewriting(request: Tree, v: int)
    requires SupportedVersion(v) && FromTree(Envelope(v, request)).Ok?
    ensures var r := FromTree(Envelope(v, request)).value;
            && r.Valid()
            && (Deserialize(Serialize(r)) == Ok(r) <==> v == REQUEST_SCHEMA_VERSION || !RequestHasButton(request))
  {
    ReadEnvelope(v, request);
    MessageIsMonotone(J.Lookup(request.fields, "message").value, v, v);
    RoundTripIff(FromTree(Envelope(v, request)).value);
  }

  // ---- Determinism: the keys of every written object are in the order of `sort_keys` ----

  lemma {:induction false} ParametersAreSorted(ps: seq<Parameter>)
    ensures forall x <- ParameterTrees(ps) :: J.SortedKeys(x)
  {
    if ps != [] {
      ParametersAreSorted(ps[1..]);
      assert J.Less("media_id", "type") && J.Less("redacted", "type") && J.Less("ext", "ype");
    }
  }

  lemma {:induction false} ComponentsAreSorted(cs: seq<TemplateComponent>)
    ensures forall x <- ComponentTrees(cs) :: J.SortedKeys(x)
  {
    if cs != [] {
      ComponentsAreSorted(cs[1..]);
      ParametersAreSorted(cs[0].parameters);
      assert J.Less("index", "parameters") && J.Less("parameters", "sub_type") && J.Less("sub_type", "type");
      assert J.Less("parameters", "type");
    }
  }

  lemma MessageIsSorted(m: Message)
    ensures J.SortedKeys(MessageTree(m))
  {
    assert J.Less("body", "type") && J.Less("components", "template") && J.Less("emplate", "ype");
    assert J.Less("language_code", "name");
    if m.TemplateMessage? {
      ComponentsAreSorted(m.components);
    }
  }

  lemma SerializedKeysAreSorted(r: MessageRequest)
    ensures J.SortedKeys(Envelope(REQUEST_SCHEMA_VERSION, RequestTree(r)))
  {
    assert J.Less("correlation_id", "idempotency_key") && J.Less("idempotency_key", "message");
    assert J.Less("message", "recipient") && J.Less("request", "schema_version");
    MessageIsSorted(r.message);
    assert J.SortedKeys(RequestTree(r));
  }
}
