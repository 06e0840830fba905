// persistence/mongo.py: template aliases as documents, in three schema versions, and their catalog.
module Aliases {
  import opened Wrappers
  import opened Text
  import opened Contracts
  import opened Templates
  import S = Serialization
  import L = SerializationLaws

  const TEXT_SCHEMA := 1
  const IMAGE_SCHEMA := 2
  const BUTTON_SCHEMA := 3

  datatype AliasError = RecordError

  /** A stored component; names of types as written, absent and null fields alike. */
  datatype ComponentDoc = ComponentDoc(
    componentType: string,
    parameterNames: seq<string>,
    parameterTypes: Option<seq<string>>,
    subType: Option<string>,
    index: Option<int>)

  /** `_alias_fields` */
  datatype AliasFields = AliasFields(
    schemaVersion: int,
    templateKey: string,
    providerKey: string,
    templateName: string,
    languageCode: string,
    components: seq<ComponentDoc>)

  datatype AliasDoc = AliasDoc(fields: AliasFields, active: bool, revision: int, actorId: string, updatedAt: int)

  // ---- What an alias contains ----

  predicate Contains(components: seq<ComponentSpec>, t: ParameterType) {
    exists c <- components :: t in c.parameterTypes
  }

  predicate ContainsButton(components: seq<ComponentSpec>) {
    exists c <- components :: c.componentType.Button?
  }

  // ---- Writing ----

  function ParameterTypeName(t: ParameterType): string {
    match t
    case Text => "text"
    case Image => "image"
    case SensitiveText => "sensitive_text"
  }

  function ParameterTypeNames(types: seq<ParameterType>): seq<string> {
    seq(|types|, i requires 0 <= i < |types| => ParameterTypeName(types[i]))
  }

  function SchemaFor(components: seq<ComponentSpec>): int {
    if ContainsButton(components) || Contains(components, SensitiveText) then BUTTON_SCHEMA
    else if Contains(components, Image) then IMAGE_SCHEMA
    else TEXT_SCHEMA
  }

  function WriteComponent(version: int, c: ComponentSpec): ComponentDoc {
    ComponentDoc(
      S.TypeName(c.componentType),
      c.parameterNames,
      if version == TEXT_SCHEMA then None else Some(ParameterTypeNames(c.parameterTypes)),
      if c.componentType.Button? then c.subType else None,
      if c.componentType.Button? then c.index else None)
  }

  function WriteComponents(version: int, components: seq<ComponentSpec>): seq<ComponentDoc> {
    seq(|components|, i requires 0 <= i < |components| => WriteComponent(version, components[i]))
  }

  function Write(alias: TemplateAlias): AliasFields {
    var version := SchemaFor(alias.components);
    AliasFields(version, alias.key, alias.providerKey, alias.templateName, alias.languageCode,
                WriteComponents(version, alias.components))
  }

  // ---- Reading ----

  function ParameterTypeFromName(name: string): Option<ParameterType> {
    if name == "text" then Some(Text)
    else if name == "image" then Some(Image)
    else if name == "sensitive_text" then Some(SensitiveText)
    else None
  }

  function ReadTypes(names: seq<string>): Result<seq<ParameterType>, AliasError> {
    if names == [] then Ok([])
    else
      match ParameterTypeFromName(names[0])
      case None => Err(RecordError)
      case Some(t) =>
        var others :- ReadTypes(names[1..]);
        Ok([t] + others)
  }

  function TextTypes(n: nat): seq<ParameterType> {
    seq(n, _ => Text)
  }

  function ReadParameterTypes(version: int, c: ComponentDoc): Result<seq<ParameterType>, AliasError> {
    if version == TEXT_SCHEMA then
      if c.parameterTypes.Some? then Err(RecordError) else Ok(TextTypes(|c.parameterNames|))
    else if c.parameterTypes == None || |c.parameterTypes.value| != |c.parameterNames| then Err(RecordError)
    else ReadTypes(c.parameterTypes.value)
  }

  function ReadComponent(version: int, c: ComponentDoc): Result<ComponentSpec, AliasError> {
    if exists n <- c.parameterNames :: !NonBlank(n) then Err(RecordError)
    else
      var types :- ReadParameterTypes(version, c);
      match S.TypeFromName(c.componentType)
      case None => Err(RecordError)
      case Some(kind) =>
        if kind.Button? then
          if version != BUTTON_SCHEMA || c.subType == None || c.index == None then Err(RecordError)
          else Checked(ComponentSpec(kind, c.parameterNames, types, c.subType, c.index))
        else if c.subType.Some? || c.index.Some? then Err(RecordError)
        else Checked(ComponentSpec(kind, c.parameterNames, types, None, None))
  }

  /** The constructor of the specification. */
  function Checked(c: ComponentSpec): Result<ComponentSpec, AliasError> {
    if c.Valid() then Ok(c) else Err(RecordError)
  }

  function ReadComponents(version: int, components: seq<ComponentDoc>): Result<seq<ComponentSpec>, AliasError> {
    if components == [] then Ok([])
    else
      var others :- ReadComponents(version, components[..|components| - 1]);
      var last :- ReadComponent(version, components[|components| - 1]);
      Ok(others + [last])
  }

  /** The last check of the reader: each schema version belongs to one class of aliases. */
  predicate VersionFits(version: int, components: seq<ComponentSpec>) {
    var (image, sensitive, button) :=
      (Contains(components, Image), Contains(components, SensitiveText), ContainsButton(components));
    && (version == TEXT_SCHEMA <==> !image && !sensitive && !button)
    && (version == IMAGE_SCHEMA <==> image && !sensitive && !button)
    && (version == BUTTON_SCHEMA <==> sensitive && button && !image)
  }

  /** `_alias_from_document` */
  function Read(d: AliasDoc): Result<TemplateAlias, AliasError> {
    var f := d.fields;
    if !(TEXT_SCHEMA <= f.schemaVersion <= BUTTON_SCHEMA) then Err(RecordError)
    else if d.revision < 1 || !NonBlank(d.actorId) || d.updatedAt < 0 then Err(RecordError)
    else
      var components :- ReadComponents(f.schemaVersion, f.components);
      var alias := TemplateAlias(f.templateKey, f.providerKey, f.templateName, f.languageCode, components);
      if !alias.Valid() || !VersionFits(f.schemaVersion, components) then Err(RecordError)
      else Ok(alias)
  }

  /** The loop over the components of a document. */
  method ReadComponentsStepwise(version: int, components: seq<ComponentDoc>)
    returns (result: Result<seq<ComponentSpec>, AliasError>)
    ensures result == ReadComponents(version, components)
  {
    var specs: seq<ComponentSpec> := [];
    for i := 0 to |components|
      invariant ReadComponents(version, components[..i]) == Ok(specs)
    {
      assert components[..i + 1][..i] == components[..i];
      var spec := ReadComponent(version, components[i]);
      if spec.Err? {
        RefusedPrefix(version, components, i + 1);
        return Err(RecordError);
      }
      specs := specs + [spec.value];
    }
    assert components[..|components|] == components;
    return Ok(specs);
  }

  lemma {:induction false} RefusedPrefix(version: int, components: seq<ComponentDoc>, i: nat)
    requires i <= |components| && ReadComponents(version, components[..i]).Err?
    ensures ReadComponents(version, components) == Err(RecordError)
    decreases |components|
  {
    if i == |components| {
      assert components[..i] == components;
      assert ReadComponents(version, components).error.RecordError?;
    } else {
      var sofar := components[..|components| - 1];
      assert sofar[..i] == components[..i];
      RefusedPrefix(version, sofar, i);
    }
  }

  // ---- The three classes ----

  predicate TextOnly(components: seq<ComponentSpec>) {
    !Contains(components, Image) && !Contains(components, SensitiveText) && !ContainsButton(components)
  }

  predicate ImageOnly(components: seq<ComponentSpec>) {
    Contains(components, Image) && !Contains(components, SensitiveText) && !ContainsButton(components)
  }

  predicate SensitiveButton(components: seq<ComponentSpec>) {
    Contains(components, SensitiveText) && ContainsButton(components) && !Contains(components, Image)
  }

  predicate Readable(components: seq<ComponentSpec>) {
    TextOnly(components) || ImageOnly(components) || SensitiveButton(components)
  }

  lemma ParameterTypeNamesInvert(t: ParameterType)
    ensures ParameterTypeFromName(ParameterTypeName(t)) == Some(t) && NonBlank(ParameterTypeName(t))
  {
  }

  lemma {:induction false} TypesRoundTrip(types: seq<ParameterType>)
    ensures ReadTypes(ParameterTypeNames(types)) == Ok(types)
  {
    var names := ParameterTypeNames(types);
    if types == [] {
      assert names == [];
    } else {
      ParameterTypeNamesInvert(types[0]);
      TypesRoundTrip(types[1..]);
      assert names[1..] == ParameterTypeNames(types[1..]);
      assert types == [types[0]] + types[1..];
    }
  }

  /** A written component reads back, if its types are text or written, and buttons are only in the last schema. */
  lemma ComponentRoundTrip(version: int, c: ComponentSpec)
    requires c.Valid() && TEXT_SCHEMA <= version <= BUTTON_SCHEMA
    requires c.componentType.Button? ==> version == BUTTON_SCHEMA
    requires version == TEXT_SCHEMA ==> Image !in c.parameterTypes && SensitiveText !in c.parameterTypes
    ensures ReadComponent(version, WriteComponent(version, c)) == Ok(c)
  {
    L.TypeNames(c.componentType);
    TypesRoundTrip(c.parameterTypes);
    if version == TEXT_SCHEMA {
      forall i | 0 <= i < |c.parameterTypes| ensures c.parameterTypes[i] == Text {
        assert c.parameterTypes[i] in c.parameterTypes;
      }
      assert TextTypes(|c.parameterNames|) == c.parameterTypes;
    }
  }

  lemma {:induction false} ComponentsRoundTrip(version: int, components: seq<ComponentSpec>)
    requires TEXT_SCHEMA <= version <= BUTTON_SCHEMA
    requires forall c <- components :: c.Valid() && (c.componentType.Button? ==> version == BUTTON_SCHEMA)
    requires version == TEXT_SCHEMA ==>
             forall c <- components :: Image !in c.parameterTypes && SensitiveText !in c.parameterTypes
    ensures ReadComponents(version, WriteComponents(version, components)) == Ok(components)
  {
    hide ReadComponent, WriteComponent;
    var docs := WriteComponents(version, components);
    if components == [] {
      assert docs == [];
    } else {
      var n := |components| - 1;
      assert components[n] in components;
      ComponentRoundTrip(version, components[n]);
      ComponentsRoundTrip(version, components[..n]);
      assert docs[..n] == WriteComponents(version, components[..n]);
      assert components == components[..n] + [components[n]];
    }
  }

  lemma SchemaSuits(components: seq<ComponentSpec>)
    ensures var version := SchemaFor(components);
            && TEXT_SCHEMA <= version <= BUTTON_SCHEMA
            && (forall c <- components :: c.componentType.Button? ==> version == BUTTON_SCHEMA)
            && (version == TEXT_SCHEMA ==>
                forall c <- components :: Image !in c.parameterTypes && SensitiveText !in c.parameterTypes)
            && (VersionFits(version, components) <==> Readable(components))
  {
  }

  /**
   * A saved alias reads back as itself exactly if it has text parameters only, or images and neither
   * sensitive parameters nor buttons, or sensitive parameters and buttons and no image; the reader
   * refuses every other alias that the writer stores.
   */
  lemma SavedAliasReadsIff(alias: TemplateAlias, active: bool, revision: int, actorId: string, updatedAt: int)
    requires alias.Valid() && revision >= 1 && NonBlank(actorId) && updatedAt >= 0
    ensures Read(AliasDoc(Write(alias), active, revision, actorId, updatedAt)) ==
            if Readable(alias.components) then Ok(alias) else Err(RecordError)
  {
    SchemaSuits(alias.components);
    ComponentsRoundTrip(SchemaFor(alias.components), alias.components);
  }

  /** Each class has its own schema version. */
  lemma ClassesHaveTheirSchema(alias: TemplateAlias)
    requires alias.Valid()
    ensures TextOnly(alias.components) <==> Write(alias).schemaVersion == 1
    ensures ImageOnly(alias.components) <==> Write(alias).schemaVersion == 2
    ensures SensitiveButton(alias.components) ==> Write(alias).schemaVersion == 3
    ensures Write(alias).schemaVersion == 3 <==> Contains(alias.components, SensitiveText)
  {
    forall c <- alias.components ensures c.componentType.Button? ==> SensitiveText in c.parameterTypes {
      assert c.Valid();
    }
  }

  // ---- The reader accepts nothing else ----

  lemma {:induction false} ReadTypesInvert(names: seq<string>)
    requires ReadTypes(names).Ok?
    ensures ParameterTypeNames(ReadTypes(names).value) == names
  {
    var types := ReadTypes(names).value;
    if names != [] {
      ReadTypesInvert(names[1..]);
      var others := ReadTypes(names[1..]).value;
      assert types == [ParameterTypeFromName(names[0]).value] + others;
      assert names == [names[0]] + ParameterTypeNames(others);
    }
  }

  lemma ReadComponentInverts(version: int, c: ComponentDoc)
    requires ReadComponent(version, c).Ok? && TEXT_SCHEMA <= version <= BUTTON_SCHEMA
    ensures WriteComponent(version, ReadComponent(version, c).value) == c && ReadComponent(version, c).value.Valid()
  {
    if version != TEXT_SCHEMA {
      ReadTypesInvert(c.parameterTypes.value);
    }
  }

  lemma {:induction false} ReadComponentsInvert(version: int, docs: seq<ComponentDoc>)
    requires ReadComponents(version, docs).Ok? && TEXT_SCHEMA <= version <= BUTTON_SCHEMA
    ensures WriteComponents(version, ReadComponents(version, docs).value) == docs
  {
    var components := ReadComponents(version, docs).value;
    if docs != [] {
      var n := |docs| - 1;
      ReadComponentsInvert(version, docs[..n]);
      ReadComponentInverts(version, docs[n]);
      var before := ReadComponents(version, docs[..n]).value;
      assert components == before + [ReadComponent(version, docs[n]).value];
      assert docs == docs[..n] + [docs[n]];
      assert WriteComponents(version, components) == WriteComponents(version, before) + [docs[n]];
    }
  }

  /** Every accepted document is exactly what the writer makes of the alias that it decodes to. */
  lemma AcceptedDocumentIsWritten(d: AliasDoc)
    requires Read(d).Ok?
    ensures Read(d).value.Valid() && Readable(Read(d).value.components)
    ensures Write(Read(d).value) == d.fields
  {
    var alias := Read(d).value;
    ReadComponentsInvert(d.fields.schemaVersion, d.fields.components);
    SchemaSuits(alias.components);
  }

  // ---- What a document holds ----

  predicate NamesComponentType(name: string, t: ComponentType) {
    match t
    case Header => name == "header"
    case Body => name == "body"
    case Button => name == "button"
  }

  predicate NamesParameterType(name: string, t: ParameterType) {
    match t
    case Text => name == "text"
    case Image => name == "image"
    case SensitiveText => name == "sensitive_text"
  }

  /** The stored component is this one; parameter types are stored from the second schema on. */
  predicate HoldsSpec(version: int, d: ComponentDoc, c: ComponentSpec) {
    && NamesComponentType(d.componentType, c.componentType) && d.parameterNames == c.parameterNames
    && (if version == 1 then d.parameterTypes == None
        else
          && d.parameterTypes.Some? && |d.parameterTypes.value| == |c.parameterTypes|
          && forall i :: 0 <= i < |c.parameterTypes| ==>
                NamesParameterType(d.parameterTypes.value[i], c.parameterTypes[i]))
    && d.subType == c.subType && d.index == c.index
  }

  /** The fields are those of the alias: schema 3 for buttons or sensitive texts, else 2 for images, else 1. */
  predicate HoldsAlias(f: AliasFields, alias: TemplateAlias) {
    && f.templateKey == alias.key && f.providerKey == alias.providerKey
    && f.templateName == alias.templateName && f.languageCode == alias.languageCode
    && f.schemaVersion in {1, 2, 3}
    && (f.schemaVersion == 3 <==> ContainsButton(alias.components) || Contains(alias.components, SensitiveText))
    && (f.schemaVersion == 2 ==> Contains(alias.components, Image))
    && (f.schemaVersion == 1 ==> !Contains(alias.components, Image))
    && |f.components| == |alias.components|
    && forall i :: 0 <= i < |f.components| ==> HoldsSpec(f.schemaVersion, f.components[i], alias.components[i])
  }

  lemma ComponentHolds(version: int, d: ComponentDoc, c: ComponentSpec)
    requires c.Valid()
    ensures d == WriteComponent(version, c) <==> HoldsSpec(version, d, c)
  {
    var types := ParameterTypeNames(c.parameterTypes);
    if d.parameterTypes.Some? && |d.parameterTypes.value| == |c.parameterTypes| {
      assert d.parameterTypes.value == types <==> forall i :: 0 <= i < |types| ==>
        d.parameterTypes.value[i] == types[i];
    }
  }

  /** The writer stores exactly the fields of the alias. */
  lemma WriteHolds(f: AliasFields, alias: TemplateAlias)
    requires alias.Valid()
    ensures f == Write(alias) <==> HoldsAlias(f, alias)
  {
    hide WriteComponent, HoldsSpec;
    var version := SchemaFor(alias.components);
    if |f.components| == |alias.components| {
      forall i | 0 <= i < |alias.components|
        ensures f.components[i] == WriteComponent(version, alias.components[i]) <==>
                HoldsSpec(version, f.components[i], alias.components[i])
      {
        ComponentHolds(version, f.components[i], alias.components[i]);
      }
      assert f.components == WriteComponents(version, alias.components) <==>
             forall i :: 0 <= i < |f.components| ==> f.components[i] == WriteComponent(version, alias.components[i]);
    }
  }

  /**
   * What the constructor of a specification accepts: named parameters, each with its type; an image only
   * alone in a header, a sensitive text only alone and not in a header, a button only for one such text,
   * with url metadata.
   */
  predicate SoundSpec(c: ComponentSpec) {
    && c.parameterNames != [] && |c.parameterTypes| == |c.parameterNames|
    && (forall n <- c.parameterNames :: NonBlank(n))
    && (Image in c.parameterTypes ==> c.componentType.Header? && |c.parameterTypes| == 1)
    && (SensitiveText in c.parameterTypes ==> !c.componentType.Header? && |c.parameterTypes| == 1)
    && (if c.componentType.Button? then
          c.parameterTypes == [SensitiveText] && c.subType == Some("url") && c.index == Some(0)
        else c.subType == None && c.index == None)
  }

  predicate SoundAlias(alias: TemplateAlias) {
    && NonBlank(alias.key) && NonBlank(alias.providerKey) && NonBlank(alias.templateName)
    && NonBlank(alias.languageCode) && forall c <- alias.components :: SoundSpec(c)
  }

  lemma SoundIsValid(alias: TemplateAlias)
    ensures SoundAlias(alias) <==> alias.Valid()
  {
    hide NonBlank;
    assert forall c: ComponentSpec :: SoundSpec(c) <==> c.Valid();
  }

  /** The bookkeeping of a document is in order, and its fields are those of the alias, of a readable class. */
  predicate Represents(d: AliasDoc, alias: TemplateAlias) {
    && d.revision >= 1 && NonBlank(d.actorId) && d.updatedAt >= 0
    && SoundAlias(alias) && Readable(alias.components) && HoldsAlias(d.fields, alias)
  }

  /** The reader accepts a document exactly as the alias that it represents, if any. */
  lemma ReadsWhatIsRepresented(d: AliasDoc)
    ensures forall alias :: Read(d) == Ok(alias) <==> Represents(d, alias)
    ensures Read(d).Err? <==> forall alias :: !Represents(d, alias)
  {
    hide HoldsAlias, Write, Readable, SoundAlias;
    forall alias ensures SoundAlias(alias) <==> alias.Valid() {
      SoundIsValid(alias);
    }
    if Read(d).Ok? {
      AcceptedDocumentIsWritten(d);
      WriteHolds(d.fields, Read(d).value);
      assert Represents(d, Read(d).value);
    }
    forall alias | Represents(d, alias) ensures Read(d) == Ok(alias) {
      WriteHolds(d.fields, alias);
      SavedAliasReadsIff(alias, d.active, d.revision, d.actorId, d.updatedAt);
      assert AliasDoc(Write(alias), d.active, d.revision, d.actorId, d.updatedAt) == d;
    }
  }

  // ---- The catalog ----

  datatype CatalogError = InvalidArgument | BadRecord | RevisionConflict

  type Catalog = map<string, AliasDoc>

  predicate Supersedes(catalog: Catalog, key: string, expectedRevision: Option<int>) {
    if expectedRevision == None then key !in catalog
    else
      && key in catalog && catalog[key].fields.schemaVersion in {1, 2, 3}
      && catalog[key].revision == expectedRevision.value
  }

  /** An active document with the fields of the alias, at the next revision. */
  predicate SavedAs(d: AliasDoc, alias: TemplateAlias, expectedRevision: Option<int>, actorId: string, updatedAt: int) {
    && HoldsAlias(d.fields, alias) && d.active && d.actorId == actorId && d.updatedAt == updatedAt
    && d.revision == if expectedRevision == None then 1 else expectedRevision.value + 1
  }

  /** `MongoTemplateCatalog.get` and `save`, each one collection operation. */
  class TemplateCatalog {
    var documents: Catalog

    /** Each document is found under its own key. */
    ghost predicate Valid()
      reads this
    {
      forall key :: key in documents ==> documents[key].fields.templateKey == key
    }

    constructor ()
      ensures Valid() && documents == map[]
    {
      documents := map[];
    }

    /**
     * A blank key is refused; a key without an active document has no alias; an active document gives
     * the one alias that it represents, whose key is the one asked for, and is an error exactly if it
     * represents none.
     */
    method GetAlias(key: string) returns (result: Result<Option<TemplateAlias>, CatalogError>)
      requires Valid()
      ensures result.Ok? && result.value.Some? ==> result.value.value.key == key
      ensures result == Err(InvalidArgument) <==> !NonBlank(key)
      ensures result == Ok(None) <==> NonBlank(key) && !(key in documents && documents[key].active)
      ensures forall alias :: result == Ok(Some(alias)) <==>
                NonBlank(key) && key in documents && documents[key].active && Represents(documents[key], alias)
      ensures result == Err(BadRecord) <==>
                && NonBlank(key) && key in documents && documents[key].active
                && forall alias :: !Represents(documents[key], alias)
      ensures result != Err(RevisionConflict)
    {
      if !NonBlank(key) {
        return Err(InvalidArgument);
      }
      if key !in documents || !documents[key].active {
        return Ok(None);
      }
      ReadsWhatIsRepresented(documents[key]);
      var alias := Read(documents[key]);
      return if alias.Ok? then Ok(Some(alias.value)) else Err(BadRecord);
    }

    /**
     * A save at the expected revision always stores the alias. A replacement is then read back, so it
     * fails, after it took effect, exactly for an alias that the reader refuses; a first save is not
     * read back, and succeeds.
     */
    method Save(alias: TemplateAlias, expectedRevision: Option<int>, actorId: string, updatedAt: int)
      returns (result: Result<int, CatalogError>)
      requires Valid() && alias.Valid()
      modifies this
      ensures Valid()
      ensures var valid := NonBlank(actorId) && updatedAt >= 0
              && (expectedRevision.Some? ==> expectedRevision.value >= 1);
              var stored := valid && Supersedes(old(documents), alias.key, expectedRevision);
              && (stored ==> alias.key in documents && documents == old(documents)[alias.key := documents[alias.key]])
              && (!stored ==> documents == old(documents) && result.Err?)
              && (stored ==>
                    && SavedAs(documents[alias.key], alias, expectedRevision, actorId, updatedAt)
                    && Read(documents[alias.key]) == if Readable(alias.components) then Ok(alias) else Err(RecordError))
              && (stored ==> (result.Err? <==> expectedRevision.Some? && !Readable(alias.components)))
              && (result.Ok? ==> result.value == documents[alias.key].revision)
              && (result == Err(InvalidArgument) <==> !valid)
              && (result == Err(RevisionConflict) <==> valid && !stored)
    {
      if !NonBlank(actorId) || updatedAt < 0 {
        return Err(InvalidArgument);
      }
      var fields := Write(alias);
      WriteHolds(fields, alias);
      if expectedRevision == None {
        if alias.key in documents {
          return Err(RevisionConflict);
        }
        SavedAliasReadsIff(alias, true, 1, actorId, updatedAt);
        documents := documents[alias.key := AliasDoc(fields, true, 1, actorId, updatedAt)];
        return Ok(1);
      }
      var revision := expectedRevision.value;
      if revision < 1 {
        return Err(InvalidArgument);
      }
      if alias.key !in documents || documents[alias.key].revision != revision
         || !(TEXT_SCHEMA <= documents[alias.key].fields.schemaVersion <= BUTTON_SCHEMA)
      {
        return Err(RevisionConflict);
      }
      SavedAliasReadsIff(alias, true, revision + 1, actorId, updatedAt);
      documents := documents[alias.key := AliasDoc(fields, true, revision + 1, actorId, updatedAt)];
      var readBack := Read(documents[alias.key]);
      return if readBack.Ok? then Ok(revision + 1) else Err(BadRecord);
    }
  }
}
