// serialization.py: what the stored text of a request holds, member by member, and exactly which texts
// are read as which request.
module RequestTexts {
  import opened Wrappers
  import opened Text
  import opened Contracts
  import opened Serialization
  import L = SerializationLaws
  import Phone
  import J = Json

  // ---- What a document holds ----

  /** An object with exactly these keys. */
  predicate HasKeys(j: Tree, keys: set<string>) {
    j.Obj? && J.Keys(j.fields) == keys
  }

  predicate HasMember(j: Tree, key: string, value: Tree) {
    j.Obj? && J.Lookup(j.fields, key) == Some(value)
  }

  predicate Names(name: string, t: ComponentType) {
    match t
    case Header => name == "header"
    case Body => name == "body"
    case Button => name == "button"
  }

  /** Images exist from schema 2 on; of a sensitive text, from schema 3 on, only that it was there. */
  predicate HoldsParameter(j: Tree, version: int, p: Parameter) {
    match p
    case TextParameter(text) =>
      HasKeys(j, {"type", "text"}) && HasMember(j, "type", J.Str("text")) && HasMember(j, "text", J.Str(text))
    case ImageParameter(id) =>
      && version in {2, 3} && HasKeys(j, {"type", "media_id"}) && HasMember(j, "type", J.Str("image"))
      && HasMember(j, "media_id", J.Str(id))
    case SensitiveTextParameter(_) =>
      && version == 3 && HasKeys(j, {"type", "redacted"}) && HasMember(j, "type", J.Str("sensitive_text"))
      && HasMember(j, "redacted", J.Bool(true))
  }

  predicate HoldsParameters(items: seq<Tree>, version: int, ps: seq<Parameter>) {
    |items| == |ps| && forall i :: 0 <= i < |ps| ==> HoldsParameter(items[i], version, ps[i])
  }

  /** Button metadata exist from schema 3 on. */
  predicate HoldsMetadata(j: Tree, version: int, c: TemplateComponent) {
    if c.componentType.Button? && version == 3 then
      && HasKeys(j, {"type", "sub_type", "index", "parameters"})
      && HasMember(j, "sub_type", if c.subType == None then J.Null else J.Str(c.subType.value))
      && HasMember(j, "index", if c.index == None then J.Null else J.Int(c.index.value))
    else HasKeys(j, {"type", "parameters"}) && c.subType == None && c.index == None
  }

  predicate HoldsComponent(j: Tree, version: int, c: TemplateComponent) {
    && HoldsMetadata(j, version, c)
    && (match J.Lookup(j.fields, "type")
        case Some(Str(name)) => Names(name, c.componentType)
        case _ => false)
    && (match J.Lookup(j.fields, "parameters")
        case Some(Arr(items)) => HoldsParameters(items, version, c.parameters)
        case _ => false)
  }

  predicate HoldsComponents(items: seq<Tree>, version: int, cs: seq<TemplateComponent>) {
    |items| == |cs| && forall i :: 0 <= i < |cs| ==> HoldsComponent(items[i], version, cs[i])
  }

  predicate HoldsMessage(j: Tree, version: int, m: Message) {
    match m
    case TextMessage(body) =>
      HasKeys(j, {"type", "body"}) && HasMember(j, "type", J.Str("text")) && HasMember(j, "body", J.Str(body))
    case TemplateMessage(t, components) =>
      && HasKeys(j, {"type", "template", "components"}) && HasMember(j, "type", J.Str("template"))
      && (match J.Lookup(j.fields, "template")
          case Some(reference) =>
            && HasKeys(reference, {"name", "language_code"}) && HasMember(reference, "name", J.Str(t.name))
            && HasMember(reference, "language_code", J.Str(t.languageCode))
          case None => false)
      && (match J.Lookup(j.fields, "components")
          case Some(Arr(items)) => HoldsComponents(items, version, components)
          case _ => false)
  }

  predicate HoldsRequest(j: Tree, version: int, r: MessageRequest) {
    && HasKeys(j, {"recipient", "message", "correlation_id", "idempotency_key"})
    && HasMember(j, "recipient", J.Str(r.recipient)) && HasMember(j, "correlation_id", J.Str(r.correlationId))
    && HasMember(j, "idempotency_key", J.Str(r.idempotencyKey))
    && (match J.Lookup(j.fields, "message")
        case Some(m) => HoldsMessage(m, version, r.message)
        case None => false)
  }

  /** The document holds the request, under one of the three schema versions. */
  predicate HoldsEnvelope(j: Tree, version: int, r: MessageRequest) {
    && version in {1, 2, 3} && HasKeys(j, {"schema_version", "request"})
    && HasMember(j, "schema_version", J.Int(version))
    && (match J.Lookup(j.fields, "request")
        case Some(request) => HoldsRequest(request, version, r)
        case None => false)
  }

  // ---- The writer ----

  lemma {:induction false} WrittenParameters(ps: seq<Parameter>)
    ensures HoldsParameters(ParameterTrees(ps), 3, ps)
  {
    if ps != [] {
      WrittenParameters(ps[1..]);
      WrittenParameter(ps[0]);
      var items := ParameterTrees(ps);
      assert items[1..] == ParameterTrees(ps[1..]);
      forall i | 0 <= i < |ps| ensures HoldsParameter(items[i], 3, ps[i]) {
        assert i > 0 ==> items[i] == items[1..][i - 1] && ps[i] == ps[1..][i - 1];
      }
    }
  }

  lemma WrittenParameter(p: Parameter)
    ensures HoldsParameter(ParameterTree(p), 3, p)
  {
    match p
    case ImageParameter(id) => L.Fields2(J.Field("media_id", J.Str(id)), J.Field("type", J.Str("image")));
    case SensitiveTextParameter(_) =>
      L.Fields2(J.Field("redacted", J.Bool(true)), J.Field("type", J.Str("sensitive_text")));
    case TextParameter(t) => L.Fields2(J.Field("text", J.Str(t)), J.Field("type", J.Str("text")));
  }

  lemma WrittenComponent(c: TemplateComponent)
    requires !c.componentType.Button? ==> c.subType == None && c.index == None
    ensures HoldsComponent(ComponentTree(c), 3, c)
  {
    L.ComponentFields(c);
    WrittenParameters(c.parameters);
  }

  lemma {:induction false} WrittenComponents(cs: seq<TemplateComponent>)
    requires forall c <- cs :: c.Valid()
    ensures HoldsComponents(ComponentTrees(cs), 3, cs)
  {
    hide HoldsComponent;
    if cs != [] {
      WrittenComponents(cs[1..]);
      assert cs[0] in cs;
      WrittenComponent(cs[0]);
      var items := ComponentTrees(cs);
      assert items[1..] == ComponentTrees(cs[1..]);
      forall i | 0 <= i < |cs| ensures HoldsComponent(items[i], 3, cs[i]) {
        assert i > 0 ==> items[i] == items[1..][i - 1] && cs[i] == cs[1..][i - 1];
      }
    }
  }

  lemma WrittenMessage(m: Message)
    requires m.Valid()
    ensures HoldsMessage(MessageTree(m), 3, m)
  {
    hide HoldsComponents;
    match m
    case TextMessage(body) => L.Fields2(J.Field("body", J.Str(body)), J.Field("type", J.Str("text")));
    case TemplateMessage(t, components) =>
      var language, name := J.Field("language_code", J.Str(t.languageCode)), J.Field("name", J.Str(t.name));
      L.Fields2(language, name);
      L.Fields3(
        J.Field("components", J.Arr(ComponentTrees(components))),
        J.Field("template", J.Obj([language, name])),
        J.Field("type", J.Str("template")));
      WrittenComponents(components);
  }

  lemma WrittenRequest(r: MessageRequest)
    requires r.message.Valid()
    ensures HoldsRequest(RequestTree(r), 3, r)
  {
    hide HoldsMessage, MessageTree;
    L.RequestFields(r);
    WrittenMessage(r.message);
  }

  lemma WrittenEnvelope(tree: Tree, r: MessageRequest)
    requires HoldsRequest(tree, 3, r)
    ensures HoldsEnvelope(Envelope(3, tree), 3, r)
  {
    hide HoldsRequest;
    L.Fields2(J.Field("request", tree), J.Field("schema_version", J.Int(3)));
  }

  /** The stored text of a request is a JSON text, and holds the request under schema 3. */
  lemma SerializedHolds(r: MessageRequest)
    requires r.message.Valid()
    ensures J.Parse(Serialize(r)).Ok? && HoldsEnvelope(J.Parse(Serialize(r)).value, 3, r)
  {
    hide HoldsRequest, HoldsEnvelope, RequestTree, J.Parse, J.Print, Envelope;
    L.EnvelopeHasUniqueKeys(REQUEST_SCHEMA_VERSION, r);
    J.ParsePrint(Envelope(REQUEST_SCHEMA_VERSION, RequestTree(r)));
    WrittenRequest(r);
    WrittenEnvelope(RequestTree(r), r);
  }

  // ---- The reader ----

  /** A parameter that can be restored: a text that is not blank, or the identifier of an image. */
  predicate IsRestorable(p: Parameter) {
    match p
    case TextParameter(text) => NonBlank(text)
    case ImageParameter(id) => 5 <= |id| <= 64 && (forall c <- id :: '0' <= c <= '9') && id[0] != '0'
    case SensitiveTextParameter(_) => false
  }

  lemma ParameterRestorable(p: Parameter)
    ensures IsRestorable(p) <==> p.Valid() && !p.SensitiveTextParameter?
  {
    hide NonBlank;
    if p.ImageParameter? {
      assert forall i :: 0 <= i < |p.mediaId| ==> p.mediaId[i] in p.mediaId;
    }
  }

  lemma ParameterIff(j: Tree, version: int, p: Parameter)
    requires version in {1, 2, 3}
    ensures ParseParameter(j, version) == Ok(p) <==> HoldsParameter(j, version, p) && IsRestorable(p)
  {
    hide NonBlank, MediaId, J.Lookup, J.Keys, IsRestorable;
    ParameterRestorable(p);
    assert "text"[0] == 't' && "image"[0] == 'i' && "sensitive_text"[0] == 's';
  }

  /**
   * A parameter is refused as sensitive exactly if it is a redacted one, under schema 3, and as
   * unacceptable to its constructor exactly if it is one but for that.
   */
  lemma RedactedIff(j: Tree, version: int)
    requires version in {1, 2, 3}
    ensures ParseParameter(j, version) == Err(SensitiveUnavailable) <==>
            && version == 3 && HasKeys(j, {"type", "redacted"}) && HasMember(j, "type", J.Str("sensitive_text"))
            && HasMember(j, "redacted", J.Bool(true))
    ensures ParseParameter(j, version) == Err(Refused) <==>
            exists p :: HoldsParameter(j, version, p) && !p.SensitiveTextParameter? && !IsRestorable(p)
  {
    hide NonBlank, MediaId, J.Lookup, J.Keys, IsRestorable;
    forall p ensures IsRestorable(p) <==> p.Valid() && !p.SensitiveTextParameter? {
      ParameterRestorable(p);
    }
    RefusedParameter(j, version);
    assert "text"[0] == 't' && "image"[0] == 'i' && "sensitive_text"[0] == 's';
  }

  lemma RefusedParameter(j: Tree, version: int)
    requires version in {1, 2, 3}
    ensures ParseParameter(j, version) == Err(Refused) <==>
            exists p :: HoldsParameter(j, version, p) && !p.SensitiveTextParameter? && !p.Valid()
  {
    hide NonBlank, MediaId, J.Lookup, J.Keys;
    forall p | HoldsParameter(j, version, p) && !p.SensitiveTextParameter? && !p.Valid()
      ensures ParseParameter(j, version) == Err(Refused)
    {
      HeldParameter(j, version, p);
    }
    if ParseParameter(j, version) == Err(Refused) {
      assert "text"[0] == 't' && "image"[0] == 'i' && "sensitive_text"[0] == 's';
      if J.Lookup(j.fields, "type") == Some(J.Str("text")) {
        assert HoldsParameter(j, version, TextParameter(J.Lookup(j.fields, "text").value.s));
      } else {
        assert HoldsParameter(j, version, ImageParameter(J.Lookup(j.fields, "media_id").value.s));
      }
    }
  }

  lemma HeldParameter(j: Tree, version: int, p: Parameter)
    requires version in {1, 2, 3} && HoldsParameter(j, version, p) && !p.SensitiveTextParameter?
    ensures ParseParameter(j, version) == if p.Valid() then Ok(p) else Err(Refused)
  {
    hide NonBlank, MediaId, J.Lookup, J.Keys;
    assert "text"[0] == 't' && "image"[0] == 'i' && "sensitive_text"[0] == 's';
  }

  lemma {:induction false} ParametersIff(items: seq<Tree>, version: int, ps: seq<Parameter>)
    requires version in {1, 2, 3}
    ensures ParseParameters(items, version) == Ok(ps) <==>
            HoldsParameters(items, version, ps) && forall p <- ps :: IsRestorable(p)
  {
    hide HoldsParameter, ParseParameter, IsRestorable;
    if items != [] && ps != [] {
      ParameterIff(items[0], version, ps[0]);
      ParametersIff(items[1..], version, ps[1..]);
      assert ps == [ps[0]] + ps[1..] && items == [items[0]] + items[1..];
      assert HoldsParameters(items, version, ps) <==>
             HoldsParameter(items[0], version, ps[0]) && HoldsParameters(items[1..], version, ps[1..]);
    }
  }

  lemma TypeNameIff(name: string, t: ComponentType)
    ensures TypeFromName(name) == Some(t) <==> Names(name, t)
  {
    assert "header"[0] == 'h' && "body"[0] == 'b' && "button"[1] == 'u' && "body"[1] == 'o';
  }

  lemma MetadataIff(j: Tree, version: int, c: TemplateComponent)
    requires version in {1, 2, 3} && c.Valid()
    ensures ParseMetadata(j, c.componentType.Button?, version) == Ok((c.subType, c.index)) <==>
            HoldsMetadata(j, version, c) && (c.componentType.Button? && version == 3 ==> c.IsUrlButton())
  {
    hide J.Lookup, J.Keys;
  }

  /**
   * A component that can be restored: of parameters that can, an image only alone in a header, and
   * with url metadata exactly if it is a button under schema 3.
   */
  predicate Restorable(c: TemplateComponent, version: int) {
    && (forall p <- c.parameters :: IsRestorable(p))
    && ((exists p <- c.parameters :: p.ImageParameter?) ==> c.componentType.Header? && |c.parameters| == 1)
    && (if c.componentType.Button? && version == 3 then c.subType == Some("url") && c.index == Some(0)
        else c.subType == None && c.index == None)
  }

  lemma RestorableIff(c: TemplateComponent, version: int)
    ensures Restorable(c, version) <==>
            && c.Valid() && !L.HasSensitive(c.parameters)
            && (if c.componentType.Button? && version == 3 then c.IsUrlButton()
                else c.subType == None && c.index == None)
  {
    hide IsRestorable;
    forall p: Parameter ensures IsRestorable(p) <==> p.Valid() && !p.SensitiveTextParameter? {
      ParameterRestorable(p);
    }
  }

  lemma ComponentIff(j: Tree, version: int, c: TemplateComponent)
    requires version in {1, 2, 3}
    ensures ParseComponent(j, version) == Ok(c) <==> HoldsComponent(j, version, c) && Restorable(c, version)
  {
    hide J.Lookup, J.Keys, ParseMetadata, HoldsMetadata, ParseParameters, HoldsParameters, TypeFromName, Names,
      L.HasSensitive, Restorable, IsRestorable;
    RestorableIff(c, version);
    if j.Obj? {
      TypesAreNamed(j, c.componentType);
      ParametersAreRead(j, version, c.parameters);
      if c.Valid() {
        MetadataIff(j, version, c);
      }
    }
    MetadataFits(j, version, c);
    AllRestorable(c.parameters);
  }

  lemma AllRestorable(ps: seq<Parameter>)
    ensures (forall p <- ps :: IsRestorable(p)) <==> (forall p <- ps :: p.Valid()) && !L.HasSensitive(ps)
  {
    hide IsRestorable;
    forall p: Parameter ensures IsRestorable(p) <==> p.Valid() && !p.SensitiveTextParameter? {
      ParameterRestorable(p);
    }
  }

  lemma MetadataFits(j: Tree, version: int, c: TemplateComponent)
    ensures HoldsMetadata(j, version, c) ==>
              j.Obj? && (!(c.componentType.Button? && version == 3) ==> c.subType == None && c.index == None)
  {
  }

  lemma TypesAreNamed(j: Tree, t: ComponentType)
    requires j.Obj?
    ensures forall name :: J.Lookup(j.fields, "type") == Some(J.Str(name)) ==>
              (TypeFromName(name) == Some(t) <==> Names(name, t))
  {
    hide J.Lookup;
    forall name ensures TypeFromName(name) == Some(t) <==> Names(name, t) {
      TypeNameIff(name, t);
    }
  }

  lemma ParametersAreRead(j: Tree, version: int, ps: seq<Parameter>)
    requires j.Obj? && version in {1, 2, 3}
    ensures forall items :: J.Lookup(j.fields, "parameters") == Some(J.Arr(items)) ==>
              (ParseParameters(items, version) == Ok(ps) <==>
               HoldsParameters(items, version, ps) && forall p <- ps :: IsRestorable(p))
  {
    hide J.Lookup;
    forall items
      ensures ParseParameters(items, version) == Ok(ps) <==>
              HoldsParameters(items, version, ps) && forall p <- ps :: IsRestorable(p)
    {
      ParametersIff(items, version, ps);
    }
  }

  lemma {:induction false} ComponentsIff(items: seq<Tree>, version: int, cs: seq<TemplateComponent>)
    requires version in {1, 2, 3}
    ensures ParseComponents(items, version) == Ok(cs) <==>
            HoldsComponents(items, version, cs) && forall c <- cs :: Restorable(c, version)
  {
    hide HoldsComponent, ParseComponent, Restorable;
    if items != [] && cs != [] {
      ComponentIff(items[0], version, cs[0]);
      ComponentsIff(items[1..], version, cs[1..]);
      assert cs == [cs[0]] + cs[1..] && items == [items[0]] + items[1..];
      assert HoldsComponents(items, version, cs) <==>
             HoldsComponent(items[0], version, cs[0]) && HoldsComponents(items[1..], version, cs[1..]);
    }
  }

  /** A message that can be restored. */
  predicate MessageRestorable(m: Message, version: int) {
    match m
    case TextMessage(body) => NonBlank(body)
    case TemplateMessage(t, components) =>
      NonBlank(t.name) && NonBlank(t.languageCode) && forall c <- components :: Restorable(c, version)
  }

  lemma MessageIff(j: Tree, version: int, m: Message)
    requires version in {1, 2, 3}
    ensures ParseMessage(j, version) == Ok(m) <==> HoldsMessage(j, version, m) && MessageRestorable(m, version)
  {
    hide NonBlank, J.Lookup, J.Keys, ParseComponents, HoldsComponents, Restorable;
    if m.TemplateMessage? && j.Obj? {
      match J.Lookup(j.fields, "components")
      case Some(Arr(items)) => ComponentsIff(items, version, m.components);
      case _ =>
    }
  }

  /** A request that can be restored: with an accepted number, identifiers that are not blank, and its message. */
  predicate RequestRestorable(r: MessageRequest, version: int) {
    && r.recipient != [] && r.recipient[0] == '+' && Phone.Accepted(r.recipient[1..])
    && NonBlank(r.correlationId) && NonBlank(r.idempotencyKey) && MessageRestorable(r.message, version)
  }

  lemma NumberIff(recipient: string)
    ensures Phone.IsE164(recipient) <==> recipient != [] && recipient[0] == '+' && Phone.Accepted(recipient[1..])
  {
    if recipient != [] && recipient[0] == '+' {
      Phone.AcceptedIsE164(recipient[1..]);
      assert recipient == "+" + recipient[1..];
    }
  }

  lemma RequestIff(j: Tree, version: int, r: MessageRequest)
    requires version in {1, 2, 3}
    ensures ParseRequest(j, version) == Ok(r) <==>
            HoldsRequest(j, version, r) && RequestRestorable(r, version)
  {
    hide NonBlank, Phone.IsE164, Phone.Accepted, J.Lookup, J.Keys, ParseMessage, HoldsMessage, MessageRestorable;
    NumberIff(r.recipient);
    if j.Obj? && J.Lookup(j.fields, "message").Some? {
      MessageIff(J.Lookup(j.fields, "message").value, version, r.message);
    }
    if j.Obj? {
      L.LookupIsMembership(j.fields, "message");
    }
  }

  lemma EnvelopeIff(j: Tree, r: MessageRequest)
    ensures FromTree(j) == Ok(r) <==>
            exists version :: HoldsEnvelope(j, version, r) && RequestRestorable(r, version)
  {
    hide J.Lookup, J.Keys, ParseRequest, HoldsRequest, RequestRestorable;
    if j.Obj? && J.Lookup(j.fields, "request").Some? {
      forall version | version in {1, 2, 3}
        ensures ParseRequest(J.Lookup(j.fields, "request").value, version) == Ok(r) <==>
                HoldsRequest(J.Lookup(j.fields, "request").value, version, r) && RequestRestorable(r, version)
      {
        RequestIff(J.Lookup(j.fields, "request").value, version, r);
      }
      match J.Lookup(j.fields, "schema_version")
      case Some(Int(version)) => assert HoldsEnvelope(j, version, r) ==> version in {1, 2, 3};
      case _ =>
    }
    if j.Obj? {
      L.LookupIsMembership(j.fields, "request");
    }
  }

  /**
   * A text is read as a request exactly if it is a JSON text without repeated keys that holds the
   * request, member by member and with no other member, under one of the three schema versions, and the
   * request can be restored: nothing in it is blank or malformed, no text is sensitive, and under schema
   * 3 every button is a url button.
   */
  lemma DeserializeIff(text: string, r: MessageRequest)
    ensures Deserialize(text) == Ok(r) <==>
            J.Parse(text).Ok? && exists version ::
              HoldsEnvelope(J.Parse(text).value, version, r) && RequestRestorable(r, version)
  {
    hide FromTree, HoldsEnvelope, RequestRestorable;
    if J.Parse(text).Ok? {
      EnvelopeIff(J.Parse(text).value, r);
    }
  }
}
