// service.py: the request fingerprint, the identity that an idempotency scope is bound to.
module Fingerprint {
  import opened Wrappers
  import opened Contracts
  import J = Json
  import Serialization
  import L = SerializationLaws
  import R = RequestTexts

  type Tree = J.Json

  /** What a caller of the service asks for, as far as the fingerprint is concerned. */
  datatype Subject = Subject(
    recipient: string,
    providerKey: string,
    message: Message,
    operationKind: string,
    operationKey: string)

  function ParameterData(p: Parameter): Tree {
    match p
    case ImageParameter(id) => J.Obj([J.Field("media_id", J.Str(id)), J.Field("type", J.Str("image"))])
    case TextParameter(t) => J.Str(t)
    case SensitiveTextParameter(t) => J.Str(t)
  }

  function ParametersData(ps: seq<Parameter>): seq<Tree> {
    if ps == [] then [] else [ParameterData(ps[0])] + ParametersData(ps[1..])
  }

  function ComponentData(c: TemplateComponent): Tree {
    J.Obj([
      J.Field("parameters", J.Arr(ParametersData(c.parameters))),
      J.Field("type", J.Str(Serialization.TypeName(c.componentType)))])
  }

  function ComponentsData(cs: seq<TemplateComponent>): seq<Tree> {
    if cs == [] then [] else [ComponentData(cs[0])] + ComponentsData(cs[1..])
  }

  function MessageData(m: Message): Tree {
    match m
    case TextMessage(body) => J.Obj([J.Field("body", J.Str(body)), J.Field("type", J.Str("text"))])
    case TemplateMessage(t, components) =>
      J.Obj([
        J.Field("components", J.Arr(ComponentsData(components))),
        J.Field("template", J.Obj([J.Field("language_code", J.Str(t.languageCode)), J.Field("name", J.Str(t.name))])),
        J.Field("type", J.Str("template"))])
  }

  function SubjectData(s: Subject): Tree {
    J.Obj([
      J.Field("message", MessageData(s.message)),
      J.Field("operation_key", J.Str(s.operationKey)),
      J.Field("operation_kind", J.Str(s.operationKind)),
      J.Field("provider_key", J.Str(s.providerKey)),
      J.Field("recipient", J.Str(s.recipient))])
  }

  function Preimage(s: Subject): string {
    J.Print(SubjectData(s))
  }

  const SENSITIVE_DOMAIN := "healthassure-messaging:sensitive-request:v1\U{0}"

  datatype FingerprintError = FingerprintingUnavailable

  function RequestFingerprint(s: Subject, key: Option<seq<bv8>>): (digest: Result<Digest, FingerprintError>)
    ensures digest.Ok? ==> !digest.value.OtherText?
  {
    if L.ContainsSensitive(s.message) then
      if key == None then Err(FingerprintingUnavailable)
      else Ok(HmacSha256(key.value, SENSITIVE_DOMAIN + Preimage(s)))
    else Ok(Sha256(Preimage(s)))
  }

  // ---- Which requests the fingerprint tells apart ----

  /** The parameter without its sensitivity. */
  function EraseParameter(p: Parameter): Parameter {
    if p.SensitiveTextParameter? then TextParameter(p.text) else p
  }

  function EraseParameters(ps: seq<Parameter>): seq<Parameter> {
    if ps == [] then [] else [EraseParameter(ps[0])] + EraseParameters(ps[1..])
  }

  function EraseComponent(c: TemplateComponent): TemplateComponent {
    TemplateComponent(c.componentType, EraseParameters(c.parameters), None, None)
  }

  function EraseComponents(cs: seq<TemplateComponent>): seq<TemplateComponent> {
    if cs == [] then [] else [EraseComponent(cs[0])] + EraseComponents(cs[1..])
  }

  /** The message without sensitivity marks and button metadata. */
  function Erase(m: Message): Message {
    match m
    case TextMessage(_) => m
    case TemplateMessage(t, components) => TemplateMessage(t, EraseComponents(components))
  }

  lemma ParameterDataKernel(p: Parameter, q: Parameter)
    ensures ParameterData(p) == ParameterData(q) <==> EraseParameter(p) == EraseParameter(q)
  {
    if p.ImageParameter? && q.ImageParameter? {
      var f, g := ParameterData(p).fields, ParameterData(q).fields;
      assert f == g <==> f[0] == g[0] && f[1] == g[1];
    }
  }

  lemma {:induction false} ParametersDataKernel(ps: seq<Parameter>, qs: seq<Parameter>)
    ensures ParametersData(ps) == ParametersData(qs) <==> EraseParameters(ps) == EraseParameters(qs)
  {
    if ps != [] && qs != [] {
      ParameterDataKernel(ps[0], qs[0]);
      ParametersDataKernel(ps[1..], qs[1..]);
      L.ConsInjective(ParameterData(ps[0]), ParametersData(ps[1..]), ParameterData(qs[0]), ParametersData(qs[1..]));
      L.ConsInjective(EraseParameter(ps[0]), EraseParameters(ps[1..]), EraseParameter(qs[0]), EraseParameters(qs[1..]));
    }
  }

  lemma ComponentDataKernel(c: TemplateComponent, d: TemplateComponent)
    ensures ComponentData(c) == ComponentData(d) <==> EraseComponent(c) == EraseComponent(d)
  {
    ParametersDataKernel(c.parameters, d.parameters);
    L.TypeNames(c.componentType);
    L.TypeNames(d.componentType);
    var f, g := ComponentData(c).fields, ComponentData(d).fields;
    assert f == g <==> f[0] == g[0] && f[1] == g[1];
  }

  lemma {:induction false} ComponentsDataKernel(cs: seq<TemplateComponent>, ds: seq<TemplateComponent>)
    ensures ComponentsData(cs) == ComponentsData(ds) <==> EraseComponents(cs) == EraseComponents(ds)
  {
    if cs != [] && ds != [] {
      ComponentDataKernel(cs[0], ds[0]);
      ComponentsDataKernel(cs[1..], ds[1..]);
      L.ConsInjective(ComponentData(cs[0]), ComponentsData(cs[1..]), ComponentData(ds[0]), ComponentsData(ds[1..]));
      L.ConsInjective(EraseComponent(cs[0]), EraseComponents(cs[1..]), EraseComponent(ds[0]), EraseComponents(ds[1..]));
    }
  }

  lemma MessageDataKernel(m: Message, n: Message)
    ensures MessageData(m) == MessageData(n) <==> Erase(m) == Erase(n)
  {
    var f, g := MessageData(m).fields, MessageData(n).fields;
    match (m, n)
    case (TextMessage(_), TextMessage(_)) =>
      assert f == g <==> f[0] == g[0] && f[1] == g[1];
    case (TemplateMessage(t, cs), TemplateMessage(u, ds)) =>
      ComponentsDataKernel(cs, ds);
      var a, b := f[1].value.fields, g[1].value.fields;
      assert a == b <==> a[0] == b[0] && a[1] == b[1];
      assert f == g <==> f[0] == g[0] && f[1] == g[1] && f[2] == g[2];
    case _ =>
      assert |f| != |g|;
  }

  // Printed fingerprint data never repeats a key, so its text determines it.

  lemma {:induction false} ParametersDataHaveUniqueKeys(ps: seq<Parameter>)
    ensures forall x <- ParametersData(ps) :: J.NoDuplicates(x)
  {
    if ps != [] {
      ParametersDataHaveUniqueKeys(ps[1..]);
      if ps[0].ImageParameter? {
        L.Fields2(J.Field("media_id", J.Str(ps[0].mediaId)), J.Field("type", J.Str("image")));
      }
    }
  }

  lemma {:induction false} ComponentsDataHaveUniqueKeys(cs: seq<TemplateComponent>)
    ensures forall x <- ComponentsData(cs) :: J.NoDuplicates(x)
  {
    if cs != [] {
      ComponentsDataHaveUniqueKeys(cs[1..]);
      ParametersDataHaveUniqueKeys(cs[0].parameters);
      L.Fields2(
        J.Field("parameters", J.Arr(ParametersData(cs[0].parameters))),
        J.Field("type", J.Str(Serialization.TypeName(cs[0].componentType))));
    }
  }

  lemma MessageDataHasUniqueKeys(m: Message)
    ensures J.NoDuplicates(MessageData(m))
  {
    match m
    case TextMessage(body) =>
      L.Fields2(J.Field("body", J.Str(body)), J.Field("type", J.Str("text")));
    case TemplateMessage(t, components) =>
      var language, name := J.Field("language_code", J.Str(t.languageCode)), J.Field("name", J.Str(t.name));
      L.Fields2(language, name);
      ComponentsDataHaveUniqueKeys(components);
      L.Fields3(
        J.Field("components", J.Arr(ComponentsData(components))),
        J.Field("template", J.Obj([language, name])),
        J.Field("type", J.Str("template")));
  }

  lemma TextFields(a: J.Field, b: J.Field, c: J.Field, d: J.Field)
    requires a.value.Str? && b.value.Str? && c.value.Str? && d.value.Str?
    ensures forall x <- [a, b, c, d] :: J.NoDuplicates(x.value)
  {
  }

  lemma SubjectTextsHaveUniqueKeys(s: Subject)
    ensures var fields := SubjectData(s).fields[1..];
            J.UniqueKeys(fields) && "message" !in J.Keys(fields) && forall x <- fields :: J.NoDuplicates(x.value)
  {
    hide MessageData, J.UniqueKeys, J.Keys, J.NoDuplicates, J.Lookup;
    var f := SubjectData(s).fields;
    assert |f[0].key| == 7 && |f[1].key| == 13 && |f[2].key| == 14 && |f[3].key| == 12 && |f[4].key| == 9;
    L.Fields4(f[1], f[2], f[3], f[4]);
    TextFields(f[1], f[2], f[3], f[4]);
    assert f[1..] == [f[1], f[2], f[3], f[4]];
  }

  lemma SubjectDataHasUniqueKeys(s: Subject)
    ensures J.NoDuplicates(SubjectData(s))
  {
    MessageDataHasUniqueKeys(s.message);
    SubjectTextsHaveUniqueKeys(s);
    L.FirstField(SubjectData(s));
  }

  /** The hashed texts agree exactly when the requests agree up to sensitivity marks and button metadata. */
  lemma PreimageKernel(s: Subject, t: Subject)
    ensures Preimage(s) == Preimage(t) <==> s.(message := Erase(s.message)) == t.(message := Erase(t.message))
  {
    SubjectDataHasUniqueKeys(s);
    SubjectDataHasUniqueKeys(t);
    J.PrintIsInjective(SubjectData(s), SubjectData(t));
    MessageDataKernel(s.message, t.message);
    var f, g := SubjectData(s).fields, SubjectData(t).fields;
    assert f == g <==> f[0] == g[0] && f[1] == g[1] && f[2] == g[2] && f[3] == g[3] && f[4] == g[4];
  }

  lemma PrefixInjective(prefix: string, a: string, b: string)
    ensures prefix + a == prefix + b <==> a == b
  {
    assert (prefix + a)[|prefix|..] == a && (prefix + b)[|prefix|..] == b;
  }

  /**
   * When two requests share a fingerprint, and so are taken for the same request: they agree up to
   * sensitivity marks and button metadata, both or neither contain sensitive data, and sensitive
   * ones were fingerprinted under one key.
   */
  lemma FingerprintsAgreeIff(s: Subject, k: Option<seq<bv8>>, t: Subject, l: Option<seq<bv8>>)
    requires RequestFingerprint(s, k).Ok? && RequestFingerprint(t, l).Ok?
    ensures RequestFingerprint(s, k) == RequestFingerprint(t, l) <==>
            && s.(message := Erase(s.message)) == t.(message := Erase(t.message))
            && (L.ContainsSensitive(s.message) <==> L.ContainsSensitive(t.message))
            && (L.ContainsSensitive(s.message) ==> k == l)
  {
    PreimageKernel(s, t);
    PrefixInjective(SENSITIVE_DOMAIN, Preimage(s), Preimage(t));
  }

  // ---- For messages without sensitive data the fingerprint loses only button metadata ----

  lemma {:induction false} EraseParametersIsIdentity(ps: seq<Parameter>)
    requires !L.HasSensitive(ps)
    ensures EraseParameters(ps) == ps
  {
    if ps != [] {
      assert ps[0] in ps && forall p <- ps[1..] :: p in ps;
      EraseParametersIsIdentity(ps[1..]);
    }
  }

  /** A component without sensitive text, with the button metadata that the service writes. */
  predicate Plain(c: TemplateComponent) {
    c.Valid() && !L.HasSensitive(c.parameters) && (c.componentType.Button? ==> c.IsUrlButton())
  }

  lemma {:induction false} PlainComponentsAreDetermined(cs: seq<TemplateComponent>, ds: seq<TemplateComponent>)
    requires (forall c <- cs :: Plain(c)) && (forall d <- ds :: Plain(d))
    requires EraseComponents(cs) == EraseComponents(ds)
    ensures cs == ds
  {
    if cs != [] && ds != [] {
      assert cs[0] in cs && ds[0] in ds;
      assert (forall c <- cs[1..] :: c in cs) && (forall d <- ds[1..] :: d in ds);
      EraseParametersIsIdentity(cs[0].parameters);
      EraseParametersIsIdentity(ds[0].parameters);
      L.ConsInjective(EraseComponent(cs[0]), EraseComponents(cs[1..]), EraseComponent(ds[0]), EraseComponents(ds[1..]));
      PlainComponentsAreDetermined(cs[1..], ds[1..]);
      assert cs == [cs[0]] + cs[1..] && ds == [ds[0]] + ds[1..];
    }
  }

  lemma PlainMessagesAreDetermined(m: Message, n: Message)
    requires m.Valid() && n.Valid() && L.UrlButtonsOnly(m) && L.UrlButtonsOnly(n)
    requires !L.ContainsSensitive(m) && !L.ContainsSensitive(n)
    requires Erase(m) == Erase(n)
    ensures m == n
  {
    if m.TemplateMessage? {
      PlainComponentsAreDetermined(m.components, n.components);
    }
  }

  // ---- What is hashed ----

  /** Texts are hashed as they are, sensitive or not. */
  predicate HashesParameter(j: Tree, p: Parameter) {
    match p
    case TextParameter(text) => j == J.Str(text)
    case SensitiveTextParameter(text) => j == J.Str(text)
    case ImageParameter(id) =>
      && R.HasKeys(j, {"type", "media_id"}) && R.HasMember(j, "type", J.Str("image"))
      && R.HasMember(j, "media_id", J.Str(id))
  }

  predicate HashesComponent(j: Tree, c: TemplateComponent) {
    && R.HasKeys(j, {"type", "parameters"})
    && (match J.Lookup(j.fields, "type")
        case Some(Str(name)) => R.Names(name, c.componentType)
        case _ => false)
    && (match J.Lookup(j.fields, "parameters")
        case Some(Arr(items)) =>
          |items| == |c.parameters| && forall i :: 0 <= i < |items| ==> HashesParameter(items[i], c.parameters[i])
        case _ => false)
  }

  predicate HashesMessage(j: Tree, m: Message) {
    match m
    case TextMessage(body) =>
      && R.HasKeys(j, {"type", "body"}) && R.HasMember(j, "type", J.Str("text"))
      && R.HasMember(j, "body", J.Str(body))
    case TemplateMessage(t, components) =>
      && R.HasKeys(j, {"type", "template", "components"}) && R.HasMember(j, "type", J.Str("template"))
      && (match J.Lookup(j.fields, "template")
          case Some(reference) =>
            && R.HasKeys(reference, {"name", "language_code"}) && R.HasMember(reference, "name", J.Str(t.name))
            && R.HasMember(reference, "language_code", J.Str(t.languageCode))
          case None => false)
      && (match J.Lookup(j.fields, "components")
          case Some(Arr(items)) =>
            |items| == |components| && forall i :: 0 <= i < |items| ==> HashesComponent(items[i], components[i])
          case _ => false)
  }

  /** The document has the recipient, the provider, the operation and the message of the request, and no more. */
  predicate HashesSubject(j: Tree, s: Subject) {
    && R.HasKeys(j, {"recipient", "provider_key", "operation_kind", "operation_key", "message"})
    && R.HasMember(j, "recipient", J.Str(s.recipient)) && R.HasMember(j, "provider_key", J.Str(s.providerKey))
    && R.HasMember(j, "operation_kind", J.Str(s.operationKind))
    && R.HasMember(j, "operation_key", J.Str(s.operationKey))
    && (match J.Lookup(j.fields, "message")
        case Some(m) => HashesMessage(m, s.message)
        case None => false)
  }

  lemma {:induction false} ParametersHashed(ps: seq<Parameter>)
    ensures var items := ParametersData(ps);
            |items| == |ps| && forall i :: 0 <= i < |ps| ==> HashesParameter(items[i], ps[i])
  {
    if ps != [] {
      ParametersHashed(ps[1..]);
      var items := ParametersData(ps);
      assert items[1..] == ParametersData(ps[1..]);
      if ps[0].ImageParameter? {
        L.Fields2(J.Field("media_id", J.Str(ps[0].mediaId)), J.Field("type", J.Str("image")));
      }
      assert HashesParameter(items[0], ps[0]);
      assert forall i :: 0 < i < |ps| ==> items[i] == items[1..][i - 1] && ps[i] == ps[1..][i - 1];
    }
  }

  lemma ComponentHashed(c: TemplateComponent)
    ensures HashesComponent(ComponentData(c), c)
  {
    L.Fields2(
      J.Field("parameters", J.Arr(ParametersData(c.parameters))),
      J.Field("type", J.Str(Serialization.TypeName(c.componentType))));
    ParametersHashed(c.parameters);
  }

  lemma {:induction false} ComponentsHashed(cs: seq<TemplateComponent>)
    ensures var items := ComponentsData(cs);
            |items| == |cs| && forall i :: 0 <= i < |cs| ==> HashesComponent(items[i], cs[i])
  {
    hide HashesComponent, ComponentData;
    if cs != [] {
      ComponentsHashed(cs[1..]);
      ComponentHashed(cs[0]);
      var items := ComponentsData(cs);
      assert items[1..] == ComponentsData(cs[1..]);
      assert forall i :: 0 < i < |cs| ==> items[i] == items[1..][i - 1] && cs[i] == cs[1..][i - 1];
    }
  }

  lemma MessageHashed(m: Message)
    ensures HashesMessage(MessageData(m), m)
  {
    hide HashesComponent, ComponentData;
    match m
    case TextMessage(body) => L.Fields2(J.Field("body", J.Str(body)), J.Field("type", J.Str("text")));
    case TemplateMessage(t, components) =>
      var language, name := J.Field("language_code", J.Str(t.languageCode)), J.Field("name", J.Str(t.name));
      L.Fields2(language, name);
      L.Fields3(
        J.Field("components", J.Arr(ComponentsData(components))),
        J.Field("template", J.Obj([language, name])),
        J.Field("type", J.Str("template")));
      ComponentsHashed(components);
  }

  lemma SubjectHashed(s: Subject)
    ensures HashesSubject(SubjectData(s), s)
  {
    hide HashesMessage, MessageData, J.Keys, J.Lookup, J.UniqueKeys, J.NoDuplicates;
    var f := SubjectData(s).fields;
    MessageHashed(s.message);
    assert |f[0].key| == 7 && |f[1].key| == 13 && |f[2].key| == 14 && |f[3].key| == 12 && |f[4].key| == 9;
    L.Fields5(f[0], f[1], f[2], f[3], f[4]);
    assert f == [f[0], f[1], f[2], f[3], f[4]];
  }

  /**
   * The fingerprint is the plain digest of a JSON text that holds the request; of one with sensitive
   * data it is a keyed digest, in a domain of its own, and there is none without a key.
   */
  lemma FingerprintIs(s: Subject, key: Option<seq<bv8>>)
    ensures J.Parse(Preimage(s)).Ok? && HashesSubject(J.Parse(Preimage(s)).value, s)
    ensures RequestFingerprint(s, key) ==
            if !L.ContainsSensitive(s.message) then Ok(Sha256(Preimage(s)))
            else if key == None then Err(FingerprintingUnavailable)
            else Ok(HmacSha256(key.value, "healthassure-messaging:sensitive-request:v1\U{0}" + Preimage(s)))
  {
    hide HashesSubject, SubjectData, J.Print, J.Parse;
    SubjectDataHasUniqueKeys(s);
    J.ParsePrint(SubjectData(s));
    SubjectHashed(s);
  }
}
