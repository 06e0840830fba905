// service_contracts.py and templates.py: template aliases, and the messages built from them.
module Templates {
  import opened Wrappers
  import opened Text
  import opened Contracts
  import Serialization
  import L = SerializationLaws

  datatype ParameterType = Text | Image | SensitiveText

  datatype ComponentSpec = ComponentSpec(
    componentType: ComponentType,
    parameterNames: seq<string>,
    parameterTypes: seq<ParameterType>,
    subType: Option<string>,
    index: Option<int>)
  {
    /** The checks of the constructor, on the types it has normalized. */
    predicate Valid() {
      && (if componentType.Button? then subType == URL && index == Some(0) else subType == None && index == None)
      && parameterNames != []
      && (forall n <- parameterNames :: NonBlank(n))
      && |parameterTypes| == |parameterNames|
      && (Image in parameterTypes ==> componentType.Header? && |parameterTypes| == 1)
      && (SensitiveText in parameterTypes ==> !componentType.Header? && |parameterTypes| == 1)
      && (componentType.Button? ==> parameterTypes == [SensitiveText])
    }
  }

  datatype TemplateAlias = TemplateAlias(
    key: string,
    providerKey: string,
    templateName: string,
    languageCode: string,
    components: seq<ComponentSpec>)
  {
    predicate Valid() {
      && NonBlank(key) && NonBlank(providerKey) && NonBlank(templateName) && NonBlank(languageCode)
      && forall c <- components :: c.Valid()
    }
  }

  /** A value supplied for a template parameter: a plain string or a typed parameter. */
  datatype Value = Plain(text: string) | Typed(parameter: Parameter)

  type Values = map<string, Value>

  datatype TemplateError = BadParameter | MissingParameter | ExtraParameter | ConstructorRefused

  /** Non-empty text, or a sensitive or image parameter, itself checked when it was made. */
  predicate ValueAllowed(v: Value) {
    match v
    case Plain(text) => NonBlank(text)
    case Typed(p) => !p.TextParameter? && p.Valid()
  }

  function KindOf(v: Value): ParameterType {
    match v
    case Plain(_) => Text
    case Typed(p) => if p.ImageParameter? then Image else if p.SensitiveTextParameter? then SensitiveText else Text
  }

  function AsParameter(v: Value): Parameter {
    if v.Plain? then TextParameter(v.text) else v.parameter
  }

  function RequiredNames(components: seq<ComponentSpec>): set<string> {
    set c <- components, n <- c.parameterNames :: n
  }

  function BuildParameters(
    names: seq<string>, types: seq<ParameterType>, values: Values): Result<seq<Parameter>, TemplateError>
    requires |names| == |types| && forall n <- names :: n in values
  {
    if names == [] then Ok([])
    else if KindOf(values[names[0]]) != types[0] then Err(BadParameter)
    else
      var others :- BuildParameters(names[1..], types[1..], values);
      Ok([AsParameter(values[names[0]])] + others)
  }

  /** A valid specification, all of whose names have a value. */
  predicate Supplied(spec: ComponentSpec, values: Values) {
    spec.Valid() && forall n <- spec.parameterNames :: n in values
  }

  function BuildComponents(specs: seq<ComponentSpec>, values: Values): Result<seq<TemplateComponent>, TemplateError>
    requires forall c <- specs :: Supplied(c, values)
  {
    if specs == [] then Ok([])
    else
      var spec := specs[0];
      assert Supplied(spec, values);
      var parameters :- BuildParameters(spec.parameterNames, spec.parameterTypes, values);
      var component := TemplateComponent(spec.componentType, parameters, spec.subType, spec.index);
      if !component.Valid() then Err(ConstructorRefused)
      else
        var others :- BuildComponents(specs[1..], values);
        Ok([component] + others)
  }

  predicate ValuesAllowed(values: Values) {
    forall n <- values :: NonBlank(n) && ValueAllowed(values[n])
  }

  function Build(alias: TemplateAlias, values: Values): Result<Message, TemplateError>
    requires alias.Valid()
  {
    var required := RequiredNames(alias.components);
    if !ValuesAllowed(values) then Err(BadParameter)
    else if !(required <= values.Keys) then Err(MissingParameter)
    else if !(values.Keys <= required) then Err(ExtraParameter)
    else
      var components :- BuildComponents(alias.components, values);
      Ok(TemplateMessage(TemplateReference(alias.templateName, alias.languageCode), components))
  }

  // ---- What is built ----

  predicate KindsMatch(spec: ComponentSpec, values: Values)
    requires Supplied(spec, values)
  {
    forall j :: 0 <= j < |spec.parameterNames| ==> KindOf(values[spec.parameterNames[j]]) == spec.parameterTypes[j]
  }

  /** The component that a specification and the supplied values determine. */
  predicate Mirrors(c: TemplateComponent, spec: ComponentSpec, values: Values)
    requires Supplied(spec, values)
  {
    && c.componentType == spec.componentType && c.subType == spec.subType && c.index == spec.index
    && |c.parameters| == |spec.parameterNames|
    && forall j :: 0 <= j < |c.parameters| ==> c.parameters[j] == AsParameter(values[spec.parameterNames[j]])
  }

  lemma {:induction false} BuiltParameters(names: seq<string>, types: seq<ParameterType>, values: Values)
    requires |names| == |types| && forall n <- names :: n in values
    ensures BuildParameters(names, types, values).Ok? <==>
            forall j :: 0 <= j < |names| ==> KindOf(values[names[j]]) == types[j]
    ensures BuildParameters(names, types, values).Err? ==> BuildParameters(names, types, values).error == BadParameter
    ensures BuildParameters(names, types, values).Ok? ==>
              var ps := BuildParameters(names, types, values).value;
              |ps| == |names| && forall j :: 0 <= j < |ps| ==> ps[j] == AsParameter(values[names[j]])
  {
    if names != [] {
      BuiltParameters(names[1..], types[1..], values);
      assert forall j :: 1 <= j < |names| ==> names[j] == names[1..][j - 1] && types[j] == types[1..][j - 1];
    }
  }

  lemma AsParameterKind(v: Value)
    requires ValueAllowed(v)
    ensures AsParameter(v).Valid()
    ensures AsParameter(v).ImageParameter? <==> KindOf(v) == Image
    ensures AsParameter(v).SensitiveTextParameter? <==> KindOf(v) == SensitiveText
  {
  }

  /** The invariant of a specification leaves the constructor of the component nothing to refuse. */
  lemma MirrorIsValid(c: TemplateComponent, spec: ComponentSpec, values: Values)
    requires Supplied(spec, values) && ValuesAllowed(values)
    requires KindsMatch(spec, values) && Mirrors(c, spec, values)
    ensures c.Valid() && (c.componentType.Button? ==> c.IsUrlButton())
  {
    forall p <- c.parameters ensures p.Valid() && (p.ImageParameter? ==> Image in spec.parameterTypes) {
      var j :| 0 <= j < |c.parameters| && c.parameters[j] == p;
      AsParameterKind(values[spec.parameterNames[j]]);
      assert spec.parameterTypes[j] in spec.parameterTypes;
    }
  }

  predicate Sendable(c: TemplateComponent) {
    c.Valid() && (c.componentType.Button? ==> c.IsUrlButton())
  }

  ghost predicate AllMirror(cs: seq<TemplateComponent>, specs: seq<ComponentSpec>, values: Values)
    requires forall c <- specs :: Supplied(c, values)
  {
    |cs| == |specs| && forall i :: 0 <= i < |cs| ==> Mirrors(cs[i], specs[i], values)
  }

  lemma BuiltComponent(spec: ComponentSpec, values: Values)
    requires Supplied(spec, values) && ValuesAllowed(values)
    ensures var built := BuildParameters(spec.parameterNames, spec.parameterTypes, values);
            if KindsMatch(spec, values) then
              && built.Ok?
              && var c := TemplateComponent(spec.componentType, built.value, spec.subType, spec.index);
                 Mirrors(c, spec, values) && Sendable(c) && c.Valid()
            else
              built == Err(BadParameter)
  {
    BuiltParameters(spec.parameterNames, spec.parameterTypes, values);
    if KindsMatch(spec, values) {
      var parameters := BuildParameters(spec.parameterNames, spec.parameterTypes, values).value;
      MirrorIsValid(TemplateComponent(spec.componentType, parameters, spec.subType, spec.index), spec, values);
    }
  }

  lemma {:induction false} BuiltComponents(specs: seq<ComponentSpec>, values: Values)
    requires (forall c <- specs :: Supplied(c, values)) && ValuesAllowed(values)
    ensures BuildComponents(specs, values).Ok? <==> forall c <- specs :: KindsMatch(c, values)
    ensures BuildComponents(specs, values).Err? ==> BuildComponents(specs, values).error == BadParameter
    ensures BuildComponents(specs, values).Ok? ==>
              var cs := BuildComponents(specs, values).value;
              AllMirror(cs, specs, values) && forall c <- cs :: Sendable(c)
  {
    hide NonBlank, ValuesAllowed, Supplied, KindsMatch, Mirrors, Sendable, BuildParameters;
    if specs != [] {
      var (spec, others) := (specs[0], specs[1..]);
      assert specs == [spec] + others;
      BuiltComponent(spec, values);
      BuiltComponents(others, values);
    }
  }

  /** When a message is built: allowed names and values, exactly the required names, each of its declared kind. */
  predicate Acceptable(alias: TemplateAlias, values: Values)
    requires alias.Valid()
  {
    && ValuesAllowed(values)
    && values.Keys == RequiredNames(alias.components)
    && forall c <- alias.components :: Supplied(c, values) && KindsMatch(c, values)
  }

  lemma NamesAreSupplied(alias: TemplateAlias, values: Values)
    requires alias.Valid() && RequiredNames(alias.components) <= values.Keys
    ensures forall c <- alias.components :: Supplied(c, values)
  {
    forall c <- alias.components, n <- c.parameterNames ensures n in values {
      assert n in RequiredNames(alias.components);
    }
  }

  /** Building succeeds exactly on acceptable values, and no constructor on the way ever refuses. */
  lemma BuildMirrors(alias: TemplateAlias, values: Values)
    requires alias.Valid()
    ensures Build(alias, values).Ok? <==> Acceptable(alias, values)
    ensures ValuesAllowed(values) && values.Keys == RequiredNames(alias.components) && Build(alias, values).Err? ==>
              Build(alias, values).error == BadParameter
    ensures Build(alias, values).Ok? ==>
              var m := Build(alias, values).value;
              && m.TemplateMessage? && m.Valid() && L.UrlButtonsOnly(m)
              && m.template == TemplateReference(alias.templateName, alias.languageCode)
              && |m.components| == |alias.components|
              && forall i :: 0 <= i < |m.components| ==>
                   Supplied(alias.components[i], values) && Mirrors(m.components[i], alias.components[i], values)
  {
    hide NonBlank, ValuesAllowed, Supplied, KindsMatch, Mirrors, BuildComponents, RequiredNames;
    if ValuesAllowed(values) && RequiredNames(alias.components) <= values.Keys {
      NamesAreSupplied(alias, values);
      BuiltComponents(alias.components, values);
      if BuildComponents(alias.components, values).Ok? {
        SendableMessage(alias, BuildComponents(alias.components, values).value);
      }
    }
  }

  lemma SendableMessage(alias: TemplateAlias, components: seq<TemplateComponent>)
    requires alias.Valid() && forall c <- components :: Sendable(c)
    ensures var m := TemplateMessage(TemplateReference(alias.templateName, alias.languageCode), components);
            m.Valid() && L.UrlButtonsOnly(m)
  {
  }

  /** The parameter that a value gives where this kind is declared. */
  predicate Fills(p: Parameter, kind: ParameterType, v: Value) {
    match v
    case Plain(text) => kind == Text && NonBlank(text) && p == TextParameter(text)
    case Typed(SensitiveTextParameter(text)) =>
      kind == SensitiveText && NonBlank(text) && p == SensitiveTextParameter(text)
    case Typed(ImageParameter(id)) =>
      && kind == Image && p == ImageParameter(id)
      && 5 <= |id| <= 64 && (forall c <- id :: '0' <= c <= '9') && id[0] != '0'
    case Typed(TextParameter(_)) => false
  }

  /** The value is good for some parameter. */
  ghost predicate Usable(v: Value) {
    exists p, kind :: Fills(p, kind, v)
  }

  ghost predicate AllUsable(values: Values) {
    forall n <- values :: NonBlank(n) && Usable(values[n])
  }

  predicate FillsComponent(c: TemplateComponent, spec: ComponentSpec, values: Values) {
    && c.componentType == spec.componentType && c.subType == spec.subType && c.index == spec.index
    && |c.parameters| == |spec.parameterNames| == |spec.parameterTypes|
    && forall j :: 0 <= j < |c.parameters| ==> FillsAt(c, spec, values, j)
  }

  predicate FillsAt(c: TemplateComponent, spec: ComponentSpec, values: Values, j: nat)
    requires j < |c.parameters| == |spec.parameterNames| == |spec.parameterTypes|
  {
    spec.parameterNames[j] in values && Fills(c.parameters[j], spec.parameterTypes[j], values[spec.parameterNames[j]])
  }

  predicate Needs(alias: TemplateAlias, name: string) {
    exists c <- alias.components :: name in c.parameterNames
  }

  /** The message has the alias' template and, parameter by parameter, the values; and none is left over. */
  predicate Builds(alias: TemplateAlias, values: Values, m: Message) {
    && m.TemplateMessage? && m.template == TemplateReference(alias.templateName, alias.languageCode)
    && |m.components| == |alias.components|
    && (forall i :: 0 <= i < |m.components| ==> FillsComponent(m.components[i], alias.components[i], values))
    && (forall n <- values :: Needs(alias, n))
  }

  lemma MediaIdIff(id: string)
    ensures MediaId(id) <==> 5 <= |id| <= 64 && (forall c <- id :: '0' <= c <= '9') && id[0] != '0'
  {
    assert forall i :: 0 <= i < |id| ==> id[i] in id;
  }

  lemma UsableIff(v: Value)
    ensures Usable(v) <==> ValueAllowed(v)
    ensures forall p, kind :: Fills(p, kind, v) <==> ValueAllowed(v) && kind == KindOf(v) && p == AsParameter(v)
  {
    if v.Typed? && v.parameter.ImageParameter? {
      MediaIdIff(v.parameter.mediaId);
    }
    if ValueAllowed(v) {
      assert Fills(AsParameter(v), KindOf(v), v);
    }
  }

  lemma FillsComponentIff(c: TemplateComponent, spec: ComponentSpec, values: Values)
    requires Supplied(spec, values) && ValuesAllowed(values)
    ensures FillsComponent(c, spec, values) <==> KindsMatch(spec, values) && Mirrors(c, spec, values)
  {
    hide ValueAllowed, Fills, KindOf, AsParameter, NonBlank;
    forall j | 0 <= j < |spec.parameterNames| && |c.parameters| == |spec.parameterNames|
      ensures FillsAt(c, spec, values, j) <==>
              KindOf(values[spec.parameterNames[j]]) == spec.parameterTypes[j]
              && c.parameters[j] == AsParameter(values[spec.parameterNames[j]])
    {
      UsableIff(values[spec.parameterNames[j]]);
    }
  }

  lemma BuildersFit(alias: TemplateAlias, values: Values, m: Message)
    requires alias.Valid() && Builds(alias, values, m)
    ensures ValuesAllowed(values) && values.Keys == RequiredNames(alias.components)
  {
    hide Fills, ValueAllowed;
    forall i, j | 0 <= i < |alias.components| && 0 <= j < |alias.components[i].parameterNames|
      ensures var n := alias.components[i].parameterNames[j]; NonBlank(n) && n in values && ValueAllowed(values[n])
    {
      assert alias.components[i].Valid() && FillsComponent(m.components[i], alias.components[i], values);
      assert FillsAt(m.components[i], alias.components[i], values, j);
      UsableIff(values[alias.components[i].parameterNames[j]]);
    }
  }

  /**
   * Building gives exactly the message that has the alias' template and the values in their places,
   * each of its declared kind; the message is valid, and its buttons are url buttons. It fails on a
   * value that is good for nothing, then on a missing name, then on one too many, then on a value of
   * another kind; no constructor on the way ever refuses.
   */
  lemma BuildIff(alias: TemplateAlias, values: Values)
    requires alias.Valid()
    ensures forall m :: Build(alias, values) == Ok(m) <==> Builds(alias, values, m)
    ensures Build(alias, values).Ok? ==>
            Build(alias, values).value.Valid() && L.UrlButtonsOnly(Build(alias, values).value)
    ensures Build(alias, values) == Err(MissingParameter) <==>
            AllUsable(values) && exists n :: Needs(alias, n) && n !in values
    ensures Build(alias, values) == Err(ExtraParameter) <==>
            && AllUsable(values) && (forall n :: Needs(alias, n) ==> n in values)
            && exists n <- values :: !Needs(alias, n)
    ensures Build(alias, values) != Err(ConstructorRefused)
  {
    hide NonBlank, ValueAllowed, Supplied, KindsMatch, Mirrors, BuildComponents, Fills, FillsComponent;
    BuildMirrors(alias, values);
    forall v ensures Usable(v) <==> ValueAllowed(v) {
      UsableIff(v);
    }
    assert ValuesAllowed(values) <==> AllUsable(values);
    assert forall n :: n in RequiredNames(alias.components) <==> Needs(alias, n);
    forall m ensures Build(alias, values) == Ok(m) <==> Builds(alias, values, m) {
      BuildsIff(alias, values, m);
    }
  }

  lemma BuildsIff(alias: TemplateAlias, values: Values, m: Message)
    requires alias.Valid()
    ensures Build(alias, values) == Ok(m) <==> Builds(alias, values, m)
  {
    hide NonBlank, ValueAllowed, KindsMatch, Mirrors, BuildComponents, Fills, FillsComponent, Supplied;
    BuildMirrors(alias, values);
    if Builds(alias, values, m) {
      BuildersFit(alias, values, m);
    }
    if ValuesAllowed(values) && values.Keys == RequiredNames(alias.components) {
      NamesAreSupplied(alias, values);
      forall i | 0 <= i < |alias.components| && m.TemplateMessage? && |m.components| == |alias.components|
        ensures FillsComponent(m.components[i], alias.components[i], values) <==>
                KindsMatch(alias.components[i], values) && Mirrors(m.components[i], alias.components[i], values)
      {
        FillsComponentIff(m.components[i], alias.components[i], values);
      }
      if Builds(alias, values, m) {
        forall c <- alias.components ensures KindsMatch(c, values) {
          var i :| 0 <= i < |alias.components| && alias.components[i] == c;
          assert FillsComponent(m.components[i], c, values);
        }
        MirrorsAgree(alias.components, m.components, Build(alias, values).value.components, values);
      }
    }
  }

  lemma MirrorsAgree(specs: seq<ComponentSpec>, a: seq<TemplateComponent>, b: seq<TemplateComponent>, values: Values)
    requires (forall c <- specs :: Supplied(c, values)) && AllMirror(a, specs, values) && AllMirror(b, specs, values)
    ensures a == b
  {
    forall i | 0 <= i < |specs| ensures a[i] == b[i] {
      assert Mirrors(a[i], specs[i], values) && Mirrors(b[i], specs[i], values);
      assert a[i].parameters == b[i].parameters;
    }
  }

  /** A message built from an alias is restored from storage as it was, or refused as sensitive. */
  lemma BuiltMessagesRoundTrip(alias: TemplateAlias, values: Values, r: MessageRequest)
    requires alias.Valid() && Build(alias, values) == Ok(r.message) && r.Valid()
    ensures Serialization.Deserialize(Serialization.Serialize(r)) ==
            if L.ContainsSensitive(r.message) then Err(Serialization.SensitiveUnavailable) else Ok(r)
  {
    BuildMirrors(alias, values);
    L.SensitiveIsUnavailable(r);
  }

  // ---- The nested loops ----

  /** The inner loop of `build_template_message`: the parameters of one component. */
  method BuildComponentStepwise(spec: ComponentSpec, values: Values) returns (r: Result<seq<Parameter>, TemplateError>)
    requires Supplied(spec, values)
    ensures r == BuildParameters(spec.parameterNames, spec.parameterTypes, values)
  {
    BuiltParameters(spec.parameterNames, spec.parameterTypes, values);
    var built: seq<Parameter> := [];
    for j := 0 to |spec.parameterNames|
      invariant |built| == j
      invariant forall k :: 0 <= k < j ==> KindOf(values[spec.parameterNames[k]]) == spec.parameterTypes[k]
      invariant forall k :: 0 <= k < j ==> built[k] == AsParameter(values[spec.parameterNames[k]])
    {
      var value := values[spec.parameterNames[j]];
      if KindOf(value) != spec.parameterTypes[j] {
        return Err(BadParameter);
      }
      built := built + [AsParameter(value)];
    }
    assert BuildParameters(spec.parameterNames, spec.parameterTypes, values).value == built;
    r := Ok(built);
  }

  method BuildTemplateMessage(alias: TemplateAlias, values: Values) returns (r: Result<Message, TemplateError>)
    requires alias.Valid()
    ensures r == Build(alias, values)
  {
    if !ValuesAllowed(values) {
      return Err(BadParameter);
    }
    var required := RequiredNames(alias.components);
    if !(required <= values.Keys) {
      return Err(MissingParameter);
    }
    if !(values.Keys <= required) {
      return Err(ExtraParameter);
    }
    NamesAreSupplied(alias, values);
    var specs := alias.components;
    var components: seq<TemplateComponent> := [];
    assert specs[0..] == specs;
    for i := 0 to |specs|
      invariant BuildComponents(specs, values) == Prepend(components, BuildComponents(specs[i..], values))
    {
      assert specs[i] in specs && specs[i..][1..] == specs[i + 1..];
      var parameters :- BuildComponentStepwise(specs[i], values);
      var component := TemplateComponent(specs[i].componentType, parameters, specs[i].subType, specs[i].index);
      if !component.Valid() {
        return Err(ConstructorRefused);
      }
      PrependSnoc(components, component, BuildComponents(specs[i + 1..], values));
      components := components + [component];
    }
    assert specs[|specs|..] == [] && components + [] == components;
    r := Ok(TemplateMessage(TemplateReference(alias.templateName, alias.languageCode), components));
  }

  function Prepend(front: seq<TemplateComponent>, rest: Result<seq<TemplateComponent>, TemplateError>):
    (r: Result<seq<TemplateComponent>, TemplateError>)
    ensures front == [] ==> r == rest
  {
    if rest.Ok? then
      assert [] + rest.value == rest.value;
      Ok(front + rest.value)
    else rest
  }

  lemma PrependSnoc(
    front: seq<TemplateComponent>, c: TemplateComponent, rest: Result<seq<TemplateComponent>, TemplateError>)
    ensures rest.Ok? ==> front + ([c] + rest.value) == (front + [c]) + rest.value
  {
  }
}
