// providers/meta_webhooks.py: delivery-status events out of a decoded webhook document.
module Webhooks {
  import opened Wrappers
  import opened Text
  import J = Json

  datatype Failure = Malformed

  /** A decoded value. `Fraction` is any number that is not an integer, which no rule accepts or looks into. */
  datatype Value =
    | Null
    | Bool(b: bool)
    | Int(n: int)
    | Fraction
    | Str(s: string)
    | Arr(items: seq<Value>)
    | Obj(fields: seq<Field>)

  datatype Field = Field(key: string, value: Value)

  datatype DeliveryStatus = Sent | Delivered | Read | Failed | Deleted | Unknown

  datatype DeliveryError = DeliveryError(providerCode: string, providerSubcode: Option<int>)

  datatype DeliveryStatusEvent = DeliveryStatusEvent(
    providerKey: string,
    providerMessageId: string,
    status: DeliveryStatus,
    providerStatus: string,
    occurredAt: int,
    recipientId: string,
    wabaId: string,
    phoneNumberId: string,
    errors: seq<DeliveryError>,
    conversationId: Option<string>,
    conversationOriginType: Option<string>,
    pricingModel: Option<string>,
    pricingCategory: Option<string>,
    billable: Option<bool>)

  const EXPECTED_OBJECT := "whatsapp_business_account"
  const MAX_INT32 := 2147483647
  const MAX_INT_DIGITS := 4300

  // ---- Values of a document; a missing field is None, a null one is not ----

  /** A member of a decoded object; of repeated keys the last one counts. */
  function Member(fields: seq<Field>, key: string): Option<Value> {
    if fields == [] then None
    else if fields[|fields| - 1].key == key then Some(fields[|fields| - 1].value)
    else Member(fields[..|fields| - 1], key)
  }

  function RequireObject(v: Option<Value>): Result<seq<Field>, Failure> {
    if v.Some? && v.value.Obj? then Ok(v.value.fields) else Err(Malformed)
  }

  function RequireArray(v: Option<Value>): Result<seq<Value>, Failure> {
    if v.Some? && v.value.Arr? then Ok(v.value.items) else Err(Malformed)
  }

  function RequireText(v: Option<Value>): Result<string, Failure> {
    if v.Some? && v.value.Str? && NonBlank(v.value.s) then Ok(v.value.s) else Err(Malformed)
  }

  function OptionalText(v: Option<Value>): Result<Option<string>, Failure> {
    if v == None then Ok(None)
    else
      var text :- RequireText(v);
      Ok(Some(text))
  }

  function DecimalValue(digits: string): nat
    requires AllDigits(digits)
  {
    if digits == [] then 0
    else DecimalValue(digits[..|digits| - 1]) * 10 + (digits[|digits| - 1] as int - '0' as int)
  }

  function RequireTimestamp(v: Option<Value>): Result<int, Failure> {
    if v.Some? && v.value.Str? && v.value.s != [] && AllDigits(v.value.s) && |v.value.s| <= MAX_INT_DIGITS then
      Ok(DecimalValue(v.value.s))
    else Err(Malformed)
  }

  function RequireCode(v: Option<Value>): Result<int, Failure> {
    if v.Some? && v.value.Int? && 0 <= v.value.n <= MAX_INT32 then Ok(v.value.n) else Err(Malformed)
  }

  // ---- Flattening with failure ----

  function FlatMap<A, B>(f: A -> Result<seq<B>, Failure>, xs: seq<A>): Result<seq<B>, Failure> {
    if xs == [] then Ok([])
    else
      var before :- FlatMap(f, xs[..|xs| - 1]);
      var last :- f(xs[|xs| - 1]);
      Ok(before + last)
  }

  /** Both parts, or a failure. */
  function Join<B>(a: Result<seq<B>, Failure>, b: Result<seq<B>, Failure>): Result<seq<B>, Failure> {
    if a.Err? || b.Err? then Err(Malformed) else Ok(a.value + b.value)
  }

  lemma OneFailure<B>(r: Result<B, Failure>)
    ensures r.Err? ==> r == Err(Malformed)
  {
    if r.Err? {
      assert r.error.Malformed?;
    }
  }

  lemma {:induction false} FlatMapJoins<A, B>(f: A -> Result<seq<B>, Failure>, xs: seq<A>, ys: seq<A>)
    ensures FlatMap(f, xs + ys) == Join(FlatMap(f, xs), FlatMap(f, ys))
  {
    OneFailure(FlatMap(f, xs));
    if ys == [] {
      assert xs + ys == xs;
      if FlatMap(f, xs).Ok? {
        assert FlatMap(f, xs).value + [] == FlatMap(f, xs).value;
      }
    } else {
      var (all, before, last) := (xs + ys, ys[..|ys| - 1], ys[|ys| - 1]);
      assert all[..|all| - 1] == xs + before;
      FlatMapJoins(f, xs, before);
      OneFailure(FlatMap(f, before));
      OneFailure(f(last));
      if FlatMap(f, xs).Ok? && FlatMap(f, before).Ok? && f(last).Ok? {
        assert (FlatMap(f, xs).value + FlatMap(f, before).value) + f(last).value ==
               FlatMap(f, xs).value + (FlatMap(f, before).value + f(last).value);
      }
    }
  }

  lemma JoinNothing<B>(values: seq<B>)
    ensures Join(Ok(values), Ok([])) == Ok(values)
  {
    assert values + [] == values;
  }

  lemma JoinAssociates<B>(a: Result<seq<B>, Failure>, b: Result<seq<B>, Failure>, c: Result<seq<B>, Failure>)
    ensures Join(Join(a, b), c) == Join(a, Join(b, c))
  {
    if a.Ok? && b.Ok? && c.Ok? {
      assert (a.value + b.value) + c.value == a.value + (b.value + c.value);
    }
  }

  /** One more element, for the loops that append. */
  lemma FlatMapStep<A, B>(f: A -> Result<seq<B>, Failure>, xs: seq<A>, i: nat)
    requires i < |xs|
    ensures FlatMap(f, xs[..i + 1]) == Join(FlatMap(f, xs[..i]), f(xs[i]))
    ensures FlatMap(f, xs[..i + 1]).Err? ==> FlatMap(f, xs) == Err(Malformed)
  {
    assert xs[..i + 1][..i] == xs[..i];
    OneFailure(FlatMap(f, xs[..i + 1]));
    if FlatMap(f, xs[..i + 1]).Err? {
      RefusedPrefix(f, xs, i + 1);
    }
  }

  lemma RefusedPrefix<A, B>(f: A -> Result<seq<B>, Failure>, xs: seq<A>, i: nat)
    requires i <= |xs| && FlatMap(f, xs[..i]).Err?
    ensures FlatMap(f, xs) == Err(Malformed)
  {
    assert xs == xs[..i] + xs[i..];
    FlatMapJoins(f, xs[..i], xs[i..]);
  }

  /** Flattening in two phases: `g` gathers, `h` parses what was gathered. */
  lemma {:induction false} FlatMapInPhases<A, B, C>(
    f: A -> Result<seq<C>, Failure>, g: A -> Result<seq<B>, Failure>, h: B -> Result<seq<C>, Failure>, xs: seq<A>)
    requires forall x <- xs :: f(x) == Then(g(x), h)
    ensures FlatMap(f, xs) == Then(FlatMap(g, xs), h)
  {
    if xs != [] {
      var (before, last) := (xs[..|xs| - 1], xs[|xs| - 1]);
      assert last in xs;
      FlatMapInPhases(f, g, h, before);
      if FlatMap(g, before).Ok? && g(last).Ok? {
        FlatMapJoins(h, FlatMap(g, before).value, g(last).value);
        OneFailure(FlatMap(f, before));
        OneFailure(f(last));
      } else {
        OneFailure(FlatMap(g, before));
        OneFailure(g(last));
        OneFailure(FlatMap(f, before));
        OneFailure(f(last));
      }
    }
  }

  function Then<B, C>(r: Result<seq<B>, Failure>, h: B -> Result<seq<C>, Failure>): Result<seq<C>, Failure> {
    match r
    case Err(e) => Err(e)
    case Ok(values) => FlatMap(h, values)
  }

  // ---- One status ----

  function KnownStatus(status: string): DeliveryStatus {
    if status == "sent" then Sent
    else if status == "delivered" then Delivered
    else if status == "read" then Read
    else if status == "failed" then Failed
    else if status == "deleted" then Deleted
    else Unknown
  }

  function ParseError(v: Value): Result<seq<DeliveryError>, Failure> {
    var error :- RequireObject(Some(v));
    var code :- RequireCode(Member(error, "code"));
    if Member(error, "error_subcode") == None then Ok([DeliveryError(J.PrintInt(code), None)])
    else
      var subcode :- RequireCode(Member(error, "error_subcode"));
      Ok([DeliveryError(J.PrintInt(code), Some(subcode))])
  }

  function ParseErrors(v: Option<Value>): Result<seq<DeliveryError>, Failure> {
    if v == None then Ok([])
    else
      var errors :- RequireArray(v);
      FlatMap(ParseError, errors)
  }

  function ParseConversation(v: Option<Value>): Result<(Option<string>, Option<string>), Failure> {
    if v == None then Ok((None, None))
    else
      var conversation :- RequireObject(v);
      var id :- RequireText(Member(conversation, "id"));
      if Member(conversation, "origin") == None then Ok((Some(id), None))
      else
        var origin :- RequireObject(Member(conversation, "origin"));
        var kind :- RequireText(Member(origin, "type"));
        Ok((Some(id), Some(kind)))
  }

  function ParsePricing(v: Option<Value>): Result<(Option<string>, Option<string>, Option<bool>), Failure> {
    if v == None then Ok((None, None, None))
    else
      var pricing :- RequireObject(v);
      var model :- OptionalText(Member(pricing, "pricing_model"));
      var category :- OptionalText(Member(pricing, "category"));
      match Member(pricing, "billable")
      case None => Ok((model, category, None))
      case Some(b) => if b.Bool? then Ok((model, category, Some(b.b))) else Err(Malformed)
  }

  /** A status, with the account and phone number under which it arrived. */
  datatype StatusAt = StatusAt(value: Value, wabaId: string, phoneNumberId: string)

  /** `_parse_status`, whose result is one event. */
  function ParseStatus(at: StatusAt): Result<seq<DeliveryStatusEvent>, Failure> {
    var status :- RequireObject(Some(at.value));
    var messageId :- RequireText(Member(status, "id"));
    var providerStatus :- RequireText(Member(status, "status"));
    var timestamp :- RequireTimestamp(Member(status, "timestamp"));
    var recipientId :- RequireText(Member(status, "recipient_id"));
    var errors :- ParseErrors(Member(status, "errors"));
    var conversation :- ParseConversation(Member(status, "conversation"));
    var pricing :- ParsePricing(Member(status, "pricing"));
    Ok([DeliveryStatusEvent("meta", messageId, KnownStatus(providerStatus), providerStatus, timestamp, recipientId,
                            at.wabaId, at.phoneNumberId, errors, conversation.0, conversation.1,
                            pricing.0, pricing.1, pricing.2)])
  }

  // ---- The document ----

  /** The statuses of a change, in order: those of a "messages" change that has any. */
  function GatherChange(entry: seq<Field>, v: Value): Result<seq<StatusAt>, Failure> {
    var change :- RequireObject(Some(v));
    var field :- RequireText(Member(change, "field"));
    if field != "messages" then Ok([])
    else
      var value :- RequireObject(Member(change, "value"));
      if Member(value, "statuses") == None then Ok([])
      else
        var statuses :- RequireArray(Member(value, "statuses"));
        if statuses == [] then Ok([])
        else
          var wabaId :- RequireText(Member(entry, "id"));
          var metadata :- RequireObject(Member(value, "metadata"));
          var phoneNumberId :- RequireText(Member(metadata, "phone_number_id"));
          Ok(seq(|statuses|, i requires 0 <= i < |statuses| => StatusAt(statuses[i], wabaId, phoneNumberId)))
  }

  function GatherEntry(v: Value): Result<seq<StatusAt>, Failure> {
    var entry :- RequireObject(Some(v));
    var changes :- RequireArray(Member(entry, "changes"));
    FlatMap(ChangeGatherer(entry), changes)
  }

  function ChangeGatherer(entry: seq<Field>): Value -> Result<seq<StatusAt>, Failure> {
    v => GatherChange(entry, v)
  }

  function Entries(document: Value): Result<seq<Value>, Failure> {
    var root :- RequireObject(Some(document));
    if Member(root, "object") != Some(Str(EXPECTED_OBJECT)) then Err(Malformed)
    else RequireArray(Member(root, "entry"))
  }

  /** Every status in the document, in document order. */
  function Gather(document: Value): Result<seq<StatusAt>, Failure> {
    var entries :- Entries(document);
    FlatMap(GatherEntry, entries)
  }

  /** What a document means: the events of all its statuses, in order, or nothing at all. */
  function ParseDocument(document: Value): Result<seq<DeliveryStatusEvent>, Failure> {
    Then(Gather(document), ParseStatus)
  }

  // ---- The loops of the parser ----

  /** The loop of `_parse_errors`. */
  method ParseErrorsStepwise(v: Option<Value>) returns (result: Result<seq<DeliveryError>, Failure>)
    ensures result == ParseErrors(v)
  {
    if v == None {
      return Ok([]);
    }
    if !v.value.Arr? {
      return Err(Malformed);
    }
    var items := v.value.items;
    var parsed: seq<DeliveryError> := [];
    for i := 0 to |items|
      invariant FlatMap(ParseError, items[..i]) == Ok(parsed)
    {
      FlatMapStep(ParseError, items, i);
      var error := ParseError(items[i]);
      if error.Err? {
        return Err(Malformed);
      }
      parsed := parsed + error.value;
    }
    assert items[..|items|] == items;
    return Ok(parsed);
  }

  /** The events of a change, as the innermost loop appends them. */
  function ParseChange(entry: seq<Field>, v: Value): Result<seq<DeliveryStatusEvent>, Failure> {
    Then(GatherChange(entry, v), ParseStatus)
  }

  function ChangeParser(entry: seq<Field>): Value -> Result<seq<DeliveryStatusEvent>, Failure> {
    v => ParseChange(entry, v)
  }

  function ParseEntry(v: Value): Result<seq<DeliveryStatusEvent>, Failure> {
    Then(GatherEntry(v), ParseStatus)
  }

  lemma EntryInPhases(entry: seq<Field>, changes: seq<Value>)
    ensures FlatMap(ChangeParser(entry), changes) == Then(FlatMap(ChangeGatherer(entry), changes), ParseStatus)
  {
    FlatMapInPhases(ChangeParser(entry), ChangeGatherer(entry), ParseStatus, changes);
  }

  lemma DocumentInPhases(entries: seq<Value>)
    ensures FlatMap(ParseEntry, entries) == Then(FlatMap(GatherEntry, entries), ParseStatus)
  {
    FlatMapInPhases(ParseEntry, GatherEntry, ParseStatus, entries);
  }

  method ParseStatusesStepwise(
    events: seq<DeliveryStatusEvent>, statuses: seq<Value>, wabaId: string, phoneNumberId: string)
    returns (result: Result<seq<DeliveryStatusEvent>, Failure>)
    ensures var gathered := seq(|statuses|, i requires 0 <= i < |statuses| =>
      StatusAt(statuses[i], wabaId, phoneNumberId));
            result == Join(Ok(events), FlatMap(ParseStatus, gathered))
  {
    var gathered := seq(|statuses|, i requires 0 <= i < |statuses| => StatusAt(statuses[i], wabaId, phoneNumberId));
    var appended := events;
    JoinNothing(events);
    for i := 0 to |statuses|
      invariant Join(Ok(events), FlatMap(ParseStatus, gathered[..i])) == Ok(appended)
    {
      FlatMapStep(ParseStatus, gathered, i);
      JoinAssociates(Ok(events), FlatMap(ParseStatus, gathered[..i]), ParseStatus(gathered[i]));
      var event := ParseStatus(StatusAt(statuses[i], wabaId, phoneNumberId));
      if event.Err? {
        return Err(Malformed);
      }
      appended := appended + event.value;
    }
    assert gathered[..|statuses|] == gathered;
    return Ok(appended);
  }

  method ParseChangeStepwise(events: seq<DeliveryStatusEvent>, entry: seq<Field>, v: Value)
    returns (result: Result<seq<DeliveryStatusEvent>, Failure>)
    ensures result == Join(Ok(events), ParseChange(entry, v))
  {
    JoinNothing(events);
    if !v.Obj? {
      return Err(Malformed);
    }
    var field := RequireText(Member(v.fields, "field"));
    if field.Err? {
      return Err(Malformed);
    }
    if field.value != "messages" {
      return Ok(events);
    }
    var value := RequireObject(Member(v.fields, "value"));
    if value.Err? {
      return Err(Malformed);
    }
    var statusesValue := Member(value.value, "statuses");
    if statusesValue == None {
      return Ok(events);
    }
    var statuses := RequireArray(statusesValue);
    if statuses.Err? {
      return Err(Malformed);
    }
    if statuses.value == [] {
      return Ok(events);
    }
    var wabaId := RequireText(Member(entry, "id"));
    var metadata := RequireObject(Member(value.value, "metadata"));
    if wabaId.Err? || metadata.Err? {
      return Err(Malformed);
    }
    var phoneNumberId := RequireText(Member(metadata.value, "phone_number_id"));
    if phoneNumberId.Err? {
      return Err(Malformed);
    }
    result := ParseStatusesStepwise(events, statuses.value, wabaId.value, phoneNumberId.value);
  }

  /** `_parse_document`: three nested loops that append to one list of events. */
  method ParseDocumentStepwise(document: Value) returns (result: Result<seq<DeliveryStatusEvent>, Failure>)
    ensures result == ParseDocument(document)
    ensures forall events :: result == Ok(events) <==>
              exists statuses :: HoldsStatuses(document, statuses) && HoldsEvents(statuses, events)
  {
    hide HoldsStatuses, HoldsEvents;
    forall events
      ensures ParseDocument(document) == Ok(events) <==>
              exists statuses :: HoldsStatuses(document, statuses) && HoldsEvents(statuses, events)
    {
      DocumentParsesIff(document, events);
    }
    var found := Entries(document);
    if found.Err? {
      return Err(Malformed);
    }
    var entries := found.value;
    DocumentInPhases(entries);
    var events: seq<DeliveryStatusEvent> := [];
    for i := 0 to |entries|
      invariant FlatMap(ParseEntry, entries[..i]) == Ok(events)
    {
      FlatMapStep(ParseEntry, entries, i);
      var entry := RequireObject(Some(entries[i]));
      var changes := if entry.Ok? then RequireArray(Member(entry.value, "changes")) else Err(Malformed);
      if changes.Err? {
        return Err(Malformed);
      }
      ghost var (before, parser) := (events, ChangeParser(entry.value));
      EntryInPhases(entry.value, changes.value);
      JoinNothing(before);
      for j := 0 to |changes.value|
        invariant Join(Ok(before), FlatMap(parser, changes.value[..j])) == Ok(events)
      {
        FlatMapStep(parser, changes.value, j);
        JoinAssociates(Ok(before), FlatMap(parser, changes.value[..j]), parser(changes.value[j]));
        var extended := ParseChangeStepwise(events, entry.value, changes.value[j]);
        if extended.Err? {
          return Err(Malformed);
        }
        events := extended.value;
      }
      assert changes.value[..|changes.value|] == changes.value;
    }
    assert entries[..|entries|] == entries;
    return Ok(events);
  }

  // ---- What an accepted document holds ----

  /** Of the values under a repeated key, the last one counts. */
  lemma {:induction false} MemberIsLast(fields: seq<Field>, key: string, value: Value)
    ensures Member(fields, key) == Some(value) <==>
            exists i :: 0 <= i < |fields| && fields[i] == Field(key, value)
                        && forall j :: i < j < |fields| ==> fields[j].key != key
    ensures Member(fields, key) == None <==> forall f <- fields :: f.key != key
  {
    if fields != [] {
      var (before, last) := (fields[..|fields| - 1], fields[|fields| - 1]);
      assert fields == before + [last];
      MemberIsLast(before, key, value);
      if last.key == key {
        assert last == Field(key, last.value);
      } else if Member(before, key) == Some(value) {
        var i :| 0 <= i < |before| && before[i] == Field(key, value)
                 && forall j :: i < j < |before| ==> before[j].key != key;
        assert fields[i] == Field(key, value);
      }
    }
  }

  predicate HoldsText(fields: seq<Field>, key: string, text: string) {
    Member(fields, key) == Some(Str(text)) && NonBlank(text)
  }

  predicate HoldsOptionalText(fields: seq<Field>, key: string, text: Option<string>) {
    if text == None then Member(fields, key) == None else HoldsText(fields, key, text.value)
  }

  predicate HoldsCode(fields: seq<Field>, key: string, code: int) {
    Member(fields, key) == Some(Int(code)) && 0 <= code <= 2147483647
  }

  /** The text is that of the number, after any zeros. */
  predicate Decimal(text: string, n: nat) {
    exists zeros :: 0 <= zeros <= |text| && DecimalAt(text, zeros, n)
  }

  predicate DecimalAt(text: string, zeros: nat, n: nat)
    requires zeros <= |text|
  {
    (forall i :: 0 <= i < zeros ==> text[i] == '0') && text[zeros..] == J.Digits(n)
  }

  predicate HoldsTimestamp(fields: seq<Field>, n: int) {
    match Member(fields, "timestamp")
    case Some(Str(text)) => n >= 0 && 1 <= |text| <= 4300 && Decimal(text, n)
    case _ => false
  }

  predicate Names(name: string, status: DeliveryStatus) {
    match status
    case Sent => name == "sent"
    case Delivered => name == "delivered"
    case Read => name == "read"
    case Failed => name == "failed"
    case Deleted => name == "deleted"
    case Unknown => name !in {"sent", "delivered", "read", "failed", "deleted"}
  }

  predicate HoldsError(v: Value, e: DeliveryError) {
    && v.Obj?
    && (match Member(v.fields, "code")
        case Some(Int(code)) => 0 <= code <= 2147483647 && e.providerCode == J.PrintInt(code)
        case _ => false)
    && (if e.providerSubcode == None then Member(v.fields, "error_subcode") == None
        else HoldsCode(v.fields, "error_subcode", e.providerSubcode.value))
  }

  predicate HoldsErrors(fields: seq<Field>, errors: seq<DeliveryError>) {
    match Member(fields, "errors")
    case None => errors == []
    case Some(Arr(items)) => |errors| == |items| && forall i :: 0 <= i < |items| ==> HoldsError(items[i], errors[i])
    case _ => false
  }

  predicate HoldsConversation(fields: seq<Field>, id: Option<string>, originType: Option<string>) {
    match Member(fields, "conversation")
    case None => id == None && originType == None
    case Some(Obj(conversation)) =>
      && id.Some? && HoldsText(conversation, "id", id.value)
      && (match Member(conversation, "origin")
          case None => originType == None
          case Some(Obj(origin)) => originType.Some? && HoldsText(origin, "type", originType.value)
          case _ => false)
    case _ => false
  }

  predicate HoldsPricing(fields: seq<Field>, model: Option<string>, category: Option<string>, billable: Option<bool>) {
    match Member(fields, "pricing")
    case None => model == None && category == None && billable == None
    case Some(Obj(pricing)) =>
      && HoldsOptionalText(pricing, "pricing_model", model) && HoldsOptionalText(pricing, "category", category)
      && Member(pricing, "billable") == (if billable == None then None else Some(Bool(billable.value)))
    case _ => false
  }

  /** The status, where it stands in the document, holds exactly this event. */
  predicate HoldsEvent(at: StatusAt, e: DeliveryStatusEvent) {
    && at.value.Obj? && e.providerKey == "meta" && e.wabaId == at.wabaId && e.phoneNumberId == at.phoneNumberId
    && var status := at.value.fields;
       && HoldsText(status, "id", e.providerMessageId) && HoldsText(status, "recipient_id", e.recipientId)
       && HoldsText(status, "status", e.providerStatus) && Names(e.providerStatus, e.status)
       && HoldsTimestamp(status, e.occurredAt) && HoldsErrors(status, e.errors)
       && HoldsConversation(status, e.conversationId, e.conversationOriginType)
       && HoldsPricing(status, e.pricingModel, e.pricingCategory, e.billable)
  }

  /** The change lists these statuses, for the account of its entry and the phone number of its metadata. */
  predicate HoldsChange(entry: seq<Field>, change: Value, statuses: seq<StatusAt>) {
    change.Obj?
    && match Member(change.fields, "field")
       case Some(Str(field)) =>
         && NonBlank(field)
         && (if field != "messages" then statuses == []
             else
               match Member(change.fields, "value")
               case Some(Obj(value)) =>
                 (match Member(value, "statuses")
                  case None => statuses == []
                  case Some(Arr(items)) =>
                    |statuses| == |items|
                    && forall i :: 0 <= i < |items| ==> HoldsStatus(entry, value, items[i], statuses[i])
                  case _ => false)
               case _ => false)
       case _ => false
  }

  predicate HoldsStatus(entry: seq<Field>, value: seq<Field>, item: Value, at: StatusAt) {
    && at.value == item && HoldsText(entry, "id", at.wabaId)
    && (match Member(value, "metadata")
        case Some(Obj(metadata)) => HoldsText(metadata, "phone_number_id", at.phoneNumberId)
        case _ => false)
  }

  function Flatten<B>(parts: seq<seq<B>>): seq<B> {
    if parts == [] then [] else Flatten(parts[..|parts| - 1]) + parts[|parts| - 1]
  }

  predicate HoldsChanges(entry: seq<Field>, changes: seq<Value>, parts: seq<seq<StatusAt>>) {
    |parts| == |changes| && forall i :: 0 <= i < |changes| ==> HoldsChange(entry, changes[i], parts[i])
  }

  /** The entry lists these statuses, those of its changes in order. */
  ghost predicate HoldsEntry(entry: Value, statuses: seq<StatusAt>) {
    entry.Obj?
    && match Member(entry.fields, "changes")
       case Some(Arr(changes)) =>
         exists parts :: HoldsChanges(entry.fields, changes, parts) && statuses == Flatten(parts)
       case _ => false
  }

  ghost predicate HoldsEntries(entries: seq<Value>, parts: seq<seq<StatusAt>>) {
    |parts| == |entries| && forall i :: 0 <= i < |entries| ==> HoldsEntry(entries[i], parts[i])
  }

  /** The document lists these statuses, those of its entries in order. */
  ghost predicate HoldsStatuses(document: Value, statuses: seq<StatusAt>) {
    && document.Obj? && Member(document.fields, "object") == Some(Str("whatsapp_business_account"))
    && match Member(document.fields, "entry")
       case Some(Arr(entries)) => exists parts :: HoldsEntries(entries, parts) && statuses == Flatten(parts)
       case _ => false
  }

  predicate HoldsEvents(statuses: seq<StatusAt>, events: seq<DeliveryStatusEvent>) {
    |events| == |statuses| && forall i :: 0 <= i < |events| ==> HoldsEvent(statuses[i], events[i])
  }

  // Flattening succeeds exactly if every part does.

  lemma {:induction false} FlatMapParts<A, B>(f: A -> Result<seq<B>, Failure>, xs: seq<A>, parts: seq<seq<B>>)
    requires |parts| == |xs| && forall i :: 0 <= i < |xs| ==> f(xs[i]) == Ok(parts[i])
    ensures FlatMap(f, xs) == Ok(Flatten(parts))
  {
    if xs != [] {
      FlatMapParts(f, xs[..|xs| - 1], parts[..|parts| - 1]);
    }
  }

  lemma {:induction false} PartsOf<A, B>(f: A -> Result<seq<B>, Failure>, xs: seq<A>) returns (parts: seq<seq<B>>)
    requires FlatMap(f, xs).Ok?
    ensures |parts| == |xs| && forall i :: 0 <= i < |xs| ==> f(xs[i]) == Ok(parts[i])
    ensures FlatMap(f, xs) == Ok(Flatten(parts))
  {
    parts := [];
    if xs != [] {
      var before := PartsOf(f, xs[..|xs| - 1]);
      parts := before + [f(xs[|xs| - 1]).value];
      assert parts[..|xs| - 1] == before;
    }
  }

  // ---- One status, field by field ----

  lemma DecimalIff(text: string, n: nat)
    requires text != []
    ensures Decimal(text, n) <==> AllDigits(text) && DecimalValue(text) == n
  {
    hide AllDigits, DecimalValue, DecimalAt;
    if Decimal(text, n) {
      var zeros :| 0 <= zeros <= |text| && DecimalAt(text, zeros, n);
      DecimalHasValue(text, zeros, n);
    }
    if AllDigits(text) && DecimalValue(text) == n {
      var zeros := WithoutZeros(text);
      assert DecimalAt(text, zeros, n);
    }
  }

  lemma DecimalHasValue(text: string, zeros: nat, n: nat)
    requires zeros <= |text| && DecimalAt(text, zeros, n)
    ensures AllDigits(text) && DecimalValue(text) == n
  {
    hide AllDigits, DecimalValue, J.Digits;
    DigitsHaveValue(n);
    LeadingZeros(text[..zeros], text[zeros..]);
    assert text[..zeros] + text[zeros..] == text;
  }

  lemma {:induction false} DigitsHaveValue(n: nat)
    ensures J.Digits(n) != [] && AllDigits(J.Digits(n)) && DecimalValue(J.Digits(n)) == n
  {
    if n >= 10 {
      DigitsHaveValue(n / 10);
      var digits := J.Digits(n);
      assert digits[..|digits| - 1] == J.Digits(n / 10);
    } else {
      assert J.Digits(n)[..0] == [];
    }
  }

  lemma {:induction false} LeadingZeros(zeros: string, digits: string)
    requires (forall i :: 0 <= i < |zeros| ==> zeros[i] == '0') && AllDigits(digits)
    ensures AllDigits(zeros + digits) && DecimalValue(zeros + digits) == DecimalValue(digits)
    decreases |zeros| + |digits|
  {
    var all := zeros + digits;
    if digits != [] {
      assert all[..|all| - 1] == zeros + digits[..|digits| - 1];
      LeadingZeros(zeros, digits[..|digits| - 1]);
    } else if zeros != [] {
      assert all == zeros && zeros[..|zeros| - 1] + [] == zeros[..|zeros| - 1];
      LeadingZeros(zeros[..|zeros| - 1], []);
    }
  }

  /** A decimal text without its leading zeros, but one digit at least, is the text of its value. */
  lemma {:induction false} WithoutZeros(text: string) returns (zeros: nat)
    requires text != [] && AllDigits(text)
    ensures zeros < |text| && DecimalAt(text, zeros, DecimalValue(text))
  {
    hide DecimalAt, DecimalValue, AllDigits;
    var (before, last) := (text[..|text| - 1], text[|text| - 1]);
    assert text == before + [last];
    var n := ValueSnoc(before, last);
    if n == 0 {
      zeros := |before|;
      OneDigit(before, last);
    } else {
      zeros := WithoutZeros(before);
      AppendDigit(before, last, zeros, n);
    }
  }

  lemma ValueSnoc(before: string, last: char) returns (n: nat)
    requires AllDigits(before + [last])
    ensures AllDigits(before) && IsDigit(last) && n == DecimalValue(before) && (before == [] ==> n == 0)
    ensures DecimalValue(before + [last]) == n * 10 + (last as int - '0' as int)
  {
    var text := before + [last];
    assert text[..|before|] == before && text[|before|] == last;
    assert forall i :: 0 <= i < |before| ==> before[i] == text[i];
    n := DecimalValue(before);
  }

  lemma OneDigit(before: string, last: char)
    requires AllDigits(before) && DecimalValue(before) == 0 && IsDigit(last)
    ensures DecimalAt(before + [last], |before|, last as int - '0' as int)
  {
    hide DecimalValue;
    ZeroIsZeros(before);
    DigitsSnoc(0, last as int - '0' as int);
    assert (before + [last])[|before|..] == [last];
  }

  lemma AppendDigit(before: string, last: char, zeros: nat, n: nat)
    requires zeros <= |before| && DecimalAt(before, zeros, n) && n > 0 && IsDigit(last)
    ensures DecimalAt(before + [last], zeros, n * 10 + (last as int - '0' as int))
  {
    DigitsSnoc(n, last as int - '0' as int);
    assert (before + [last])[zeros..] == before[zeros..] + [last];
  }

  lemma DigitsSnoc(n: nat, d: nat)
    requires d < 10
    ensures J.Digits(n * 10 + d) == (if n == 0 then [] else J.Digits(n)) + ['0' + d as char]
  {
    assert (n * 10 + d) / 10 == n && (n * 10 + d) % 10 == d;
  }

  lemma {:induction false} ZeroIsZeros(text: string)
    requires AllDigits(text) && DecimalValue(text) == 0
    ensures forall i :: 0 <= i < |text| ==> text[i] == '0'
  {
    if text != [] {
      ZeroIsZeros(text[..|text| - 1]);
    }
  }

  lemma TimestampIff(fields: seq<Field>, n: int)
    ensures RequireTimestamp(Member(fields, "timestamp")) == Ok(n) <==> HoldsTimestamp(fields, n)
  {
    hide Decimal, DecimalValue, Member;
    match Member(fields, "timestamp")
    case Some(Str(text)) =>
      if text != [] && n >= 0 {
        DecimalIff(text, n);
      }
    case _ =>
  }

  lemma ErrorIff(v: Value, e: DeliveryError)
    ensures ParseError(v) == Ok([e]) <==> HoldsError(v, e)
    ensures ParseError(v).Ok? ==> |ParseError(v).value| == 1
  {
    hide Member, J.PrintInt;
  }

  /** Where every element gives one value, flattening keeps places. */
  lemma {:induction false} OneForOne<A, B>(f: A -> Result<seq<B>, Failure>, xs: seq<A>, ys: seq<B>)
    requires forall x :: x in xs && f(x).Ok? ==> |f(x).value| == 1
    ensures FlatMap(f, xs) == Ok(ys) <==> |ys| == |xs| && forall i :: 0 <= i < |xs| ==> f(xs[i]) == Ok([ys[i]])
  {
    if xs != [] {
      var (before, last) := (xs[..|xs| - 1], xs[|xs| - 1]);
      assert last in xs && xs == before + [last];
      if ys != [] {
        var (ysBefore, y) := (ys[..|ys| - 1], ys[|ys| - 1]);
        OneForOne(f, before, ysBefore);
        assert ys == ysBefore + [y];
      }
      if FlatMap(f, before).Ok? && f(last).Ok? {
        var one := f(last).value;
        assert one == [one[0]];
        OneForOne(f, before, FlatMap(f, before).value);
      }
    }
  }

  lemma ErrorsIff(fields: seq<Field>, errors: seq<DeliveryError>)
    ensures ParseErrors(Member(fields, "errors")) == Ok(errors) <==> HoldsErrors(fields, errors)
  {
    hide Member, ParseError, HoldsError;
    match Member(fields, "errors")
    case Some(Arr(items)) =>
      forall item, e ensures ParseError(item) == Ok([e]) <==> HoldsError(item, e) {
        ErrorIff(item, e);
      }
      forall item | ParseError(item).Ok? ensures |ParseError(item).value| == 1 {
        var any: DeliveryError := DeliveryError("", None);
        ErrorIff(item, any);
      }
      OneForOne(ParseError, items, errors);
    case _ =>
  }

  lemma OptionalTextIff(fields: seq<Field>, key: string, text: Option<string>)
    ensures OptionalText(Member(fields, key)) == Ok(text) <==> HoldsOptionalText(fields, key, text)
  {
  }

  lemma ConversationIff(fields: seq<Field>, id: Option<string>, originType: Option<string>)
    ensures ParseConversation(Member(fields, "conversation")) == Ok((id, originType)) <==>
            HoldsConversation(fields, id, originType)
  {
    hide Member, NonBlank;
  }

  lemma PricingIff(fields: seq<Field>, model: Option<string>, category: Option<string>, billable: Option<bool>)
    ensures ParsePricing(Member(fields, "pricing")) == Ok((model, category, billable)) <==>
            HoldsPricing(fields, model, category, billable)
  {
    hide Member, NonBlank, OptionalText, HoldsOptionalText;
    match Member(fields, "pricing")
    case Some(Obj(pricing)) =>
      OptionalTextIff(pricing, "pricing_model", model);
      OptionalTextIff(pricing, "category", category);
    case _ =>
  }

  /** A status is parsed as an event exactly if it holds the event's fields, each under its own key. */
  lemma StatusParsesIff(at: StatusAt, e: DeliveryStatusEvent)
    ensures ParseStatus(at) == Ok([e]) <==> HoldsEvent(at, e)
  {
    hide Member, NonBlank, RequireTimestamp, ParseErrors, ParseConversation, ParsePricing, HoldsTimestamp, HoldsErrors,
      HoldsConversation, HoldsPricing;
    if at.value.Obj? {
      var status := at.value.fields;
      TimestampIff(status, e.occurredAt);
      ErrorsIff(status, e.errors);
      ConversationIff(status, e.conversationId, e.conversationOriginType);
      PricingIff(status, e.pricingModel, e.pricingCategory, e.billable);
    }
  }

  lemma SingleEvent(at: StatusAt)
    ensures ParseStatus(at).Ok? ==> |ParseStatus(at).value| == 1
  {
  }

  // ---- The whole document ----

  lemma ChangeIff(entry: seq<Field>, change: Value, statuses: seq<StatusAt>)
    ensures GatherChange(entry, change) == Ok(statuses) <==> HoldsChange(entry, change, statuses)
  {
    hide Member, NonBlank;
    if change.Obj? && RequireObject(Member(change.fields, "value")).Ok? {
      var value := RequireObject(Member(change.fields, "value")).value;
      if RequireArray(Member(value, "statuses")).Ok? {
        var items := RequireArray(Member(value, "statuses")).value;
        if items == [] {
          assert |statuses| == 0 <==> statuses == [];
        } else if |statuses| == |items| && HoldsStatus(entry, value, items[0], statuses[0]) {
          var (wabaId, phoneNumberId) := (statuses[0].wabaId, statuses[0].phoneNumberId);
          var all := seq(|items|, i requires 0 <= i < |items| => StatusAt(items[i], wabaId, phoneNumberId));
          assert all == statuses <==> forall i :: 0 <= i < |items| ==> HoldsStatus(entry, value, items[i], statuses[i]);
        }
      }
    }
  }

  lemma EntryIff(entry: Value, statuses: seq<StatusAt>)
    ensures GatherEntry(entry) == Ok(statuses) <==> HoldsEntry(entry, statuses)
  {
    hide Member, GatherChange, HoldsChange, FlatMap, Flatten;
    if entry.Obj? {
      match Member(entry.fields, "changes")
      case Some(Arr(changes)) =>
        var f := ChangeGatherer(entry.fields);
        forall change, s ensures f(change) == Ok(s) <==> HoldsChange(entry.fields, change, s) {
          ChangeIff(entry.fields, change, s);
        }
        if FlatMap(f, changes).Ok? {
          var parts := PartsOf(f, changes);
          assert HoldsChanges(entry.fields, changes, parts);
        }
        if HoldsEntry(entry, statuses) {
          var parts :| HoldsChanges(entry.fields, changes, parts) && statuses == Flatten(parts);
          FlatMapParts(f, changes, parts);
        }
      case _ =>
    }
  }

  lemma GatherIff(document: Value, statuses: seq<StatusAt>)
    ensures Gather(document) == Ok(statuses) <==> HoldsStatuses(document, statuses)
  {
    hide Member, GatherEntry, HoldsEntry, FlatMap, Flatten;
    if Entries(document).Ok? {
      var entries := Entries(document).value;
      forall entry, s ensures GatherEntry(entry) == Ok(s) <==> HoldsEntry(entry, s) {
        EntryIff(entry, s);
      }
      if Gather(document).Ok? {
        var parts := PartsOf(GatherEntry, entries);
        assert HoldsEntries(entries, parts);
      }
      if HoldsStatuses(document, statuses) {
        var parts :| HoldsEntries(entries, parts) && statuses == Flatten(parts);
        FlatMapParts(GatherEntry, entries, parts);
      }
    }
  }

  /**
   * A document gives these events exactly if it lists statuses that hold them, one each, in document
   * order; it is refused if there are no such events.
   */
  lemma DocumentParsesIff(document: Value, events: seq<DeliveryStatusEvent>)
    ensures ParseDocument(document) == Ok(events) <==>
            exists statuses :: HoldsStatuses(document, statuses) && HoldsEvents(statuses, events)
  {
    hide Gather, HoldsStatuses, ParseStatus, HoldsEvent, FlatMap;
    forall at, e ensures ParseStatus(at) == Ok([e]) <==> HoldsEvent(at, e) {
      StatusParsesIff(at, e);
    }
    forall at | ParseStatus(at).Ok? ensures |ParseStatus(at).value| == 1 {
      SingleEvent(at);
    }
    forall statuses ensures Gather(document) == Ok(statuses) <==> HoldsStatuses(document, statuses) {
      GatherIff(document, statuses);
    }
    if Gather(document).Ok? {
      OneForOne(ParseStatus, Gather(document).value, events);
    }
  }

  /** The events are those of the gathered statuses, one each, in order. */
  lemma GatheredParse(document: Value)
    requires ParseDocument(document).Ok?
    ensures Gather(document).Ok?
    ensures var (statuses, events) := (Gather(document).value, ParseDocument(document).value);
            |events| == |statuses| && forall i :: 0 <= i < |events| ==> ParseStatus(statuses[i]) == Ok([events[i]])
  {
    hide Gather, ParseStatus;
    forall at | ParseStatus(at).Ok? ensures |ParseStatus(at).value| == 1 {
      SingleEvent(at);
    }
    OneForOne(ParseStatus, Gather(document).value, ParseDocument(document).value);
  }

  /** Parsing a document whose entries are those of two others gives the events of both, or nothing. */
  lemma EntriesDistribute(document: Value, first: Value, second: Value)
    requires Entries(document).Ok? && Entries(first).Ok? && Entries(second).Ok?
    requires Entries(document).value == Entries(first).value + Entries(second).value
    ensures ParseDocument(document) == Join(ParseDocument(first), ParseDocument(second))
  {
    DocumentInPhases(Entries(document).value);
    DocumentInPhases(Entries(first).value);
    DocumentInPhases(Entries(second).value);
    FlatMapJoins(ParseEntry, Entries(first).value, Entries(second).value);
  }

  // ---- Conservation ----

  function Sum<A>(n: A -> nat, xs: seq<A>): nat {
    if xs == [] then 0 else Sum(n, xs[..|xs| - 1]) + n(xs[|xs| - 1])
  }

  lemma {:induction false} FlatMapCounts<A, B>(f: A -> Result<seq<B>, Failure>, n: A -> nat, xs: seq<A>)
    requires FlatMap(f, xs).Ok?
    requires forall x :: x in xs && f(x).Ok? ==> |f(x).value| == n(x)
    ensures |FlatMap(f, xs).value| == Sum(n, xs)
  {
    if xs != [] {
      assert xs[|xs| - 1] in xs;
      FlatMapCounts(f, n, xs[..|xs| - 1]);
    }
  }

  /** How many statuses a change lists, if it is about messages. */
  function StatusesListed(change: Value): nat {
    if !change.Obj? || Member(change.fields, "field") != Some(Str("messages")) then 0
    else
      match Member(change.fields, "value")
      case None => 0
      case Some(value) => if value.Obj? then ItemsOf(Member(value.fields, "statuses")) else 0
  }

  function ItemsOf(v: Option<Value>): nat {
    if v.Some? && v.value.Arr? then |v.value.items| else 0
  }

  function StatusesOfEntry(entry: Value): nat {
    if !entry.Obj? then 0
    else
      match Member(entry.fields, "changes")
      case None => 0
      case Some(changes) => if changes.Arr? then Sum(StatusesListed, changes.items) else 0
  }

  lemma EntryCounts(entry: Value)
    requires GatherEntry(entry).Ok?
    ensures |GatherEntry(entry).value| == StatusesOfEntry(entry)
  {
    var changes := RequireArray(Member(entry.fields, "changes")).value;
    forall change | ChangeGatherer(entry.fields)(change).Ok?
      ensures |ChangeGatherer(entry.fields)(change).value| == StatusesListed(change)
    {
    }
    FlatMapCounts(ChangeGatherer(entry.fields), StatusesListed, changes);
  }

  /** No status is lost or invented: the events are as many as the statuses listed under "messages" changes. */
  lemma StatusesAreConserved(document: Value)
    requires ParseDocument(document).Ok?
    ensures |ParseDocument(document).value| == Sum(StatusesOfEntry, Entries(document).value)
  {
    GatheredParse(document);
    var entries := Entries(document).value;
    forall entry | entry in entries && GatherEntry(entry).Ok?
      ensures |GatherEntry(entry).value| == StatusesOfEntry(entry)
    {
      EntryCounts(entry);
    }
    FlatMapCounts(GatherEntry, StatusesOfEntry, entries);
  }

  function ErrorsOf(event: DeliveryStatusEvent): nat {
    |event.errors|
  }

  function ErrorsListed(at: StatusAt): nat {
    if at.value.Obj? then ItemsOf(Member(at.value.fields, "errors")) else 0
  }

  lemma {:induction false} ErrorsCount(statuses: seq<StatusAt>)
    requires FlatMap(ParseStatus, statuses).Ok?
    ensures Sum(ErrorsOf, FlatMap(ParseStatus, statuses).value) == Sum(ErrorsListed, statuses)
  {
    if statuses != [] {
      var (before, last) := (statuses[..|statuses| - 1], statuses[|statuses| - 1]);
      ErrorsCount(before);
      OneError(last);
      var events := FlatMap(ParseStatus, statuses).value;
      assert events == FlatMap(ParseStatus, before).value + ParseStatus(last).value;
      assert events[..|events| - 1] == FlatMap(ParseStatus, before).value;
    }
  }

  lemma OneError(at: StatusAt)
    requires ParseStatus(at).Ok?
    ensures |ParseStatus(at).value| == 1 && ErrorsOf(ParseStatus(at).value[0]) == ErrorsListed(at)
  {
    var errors := Member(at.value.fields, "errors");
    if errors.Some? {
      FlatMapCounts(ParseError, _ => 1, errors.value.items);
      SumOfOnes(errors.value.items);
    }
  }

  lemma {:induction false} SumOfOnes<A>(xs: seq<A>)
    ensures Sum(_ => 1, xs) == |xs|
  {
    if xs != [] {
      SumOfOnes(xs[..|xs| - 1]);
    }
  }

  /** No provider error is lost or invented either. */
  lemma ErrorsAreConserved(document: Value)
    requires ParseDocument(document).Ok?
    ensures Gather(document).Ok?
    ensures Sum(ErrorsOf, ParseDocument(document).value) == Sum(ErrorsListed, Gather(document).value)
  {
    GatheredParse(document);
    ErrorsCount(Gather(document).value);
  }

  // ---- No constructor refuses a parsed value ----

  predicate OptionalTextOk(v: Option<string>) {
    v.Some? ==> NonBlank(v.value)
  }

  /** The checks of `DeliveryStatusEvent` and `DeliveryError`. */
  predicate EventOk(e: DeliveryStatusEvent) {
    && NonBlank(e.providerKey) && NonBlank(e.providerMessageId) && NonBlank(e.providerStatus)
    && e.occurredAt >= 0 && NonBlank(e.recipientId) && NonBlank(e.wabaId) && NonBlank(e.phoneNumberId)
    && (forall x <- e.errors :: ErrorOk(x))
    && OptionalTextOk(e.conversationId) && OptionalTextOk(e.conversationOriginType)
    && OptionalTextOk(e.pricingModel) && OptionalTextOk(e.pricingCategory)
  }

  predicate ErrorOk(x: DeliveryError) {
    NonBlank(x.providerCode) && (x.providerSubcode.Some? ==> 0 <= x.providerSubcode.value <= MAX_INT32)
  }

  lemma {:induction false} FlatMapAll<A, B>(f: A -> Result<seq<B>, Failure>, p: B -> bool, xs: seq<A>)
    requires FlatMap(f, xs).Ok?
    requires forall x, y :: x in xs && f(x).Ok? && y in f(x).value ==> p(y)
    ensures forall y <- FlatMap(f, xs).value :: p(y)
  {
    if xs != [] {
      assert xs[|xs| - 1] in xs;
      FlatMapAll(f, p, xs[..|xs| - 1]);
    }
  }

  lemma PrintedIntIsNotBlank(n: int)
    ensures NonBlank(J.PrintInt(n))
  {
    if n < 0 {
      assert J.PrintInt(n)[0] == '-';
    } else {
      DigitsAreNotBlank(n);
    }
  }

  lemma {:induction false} DigitsAreNotBlank(n: nat)
    ensures J.Digits(n) != [] && !IsSpace(J.Digits(n)[0])
  {
    if n >= 10 {
      DigitsAreNotBlank(n / 10);
    }
  }

  lemma ParsedErrorIsOk(v: Value)
    requires ParseError(v).Ok?
    ensures forall x <- ParseError(v).value :: ErrorOk(x)
  {
    PrintedIntIsNotBlank(RequireCode(Member(v.fields, "code")).value);
  }

  lemma ParsedErrorsAreOk(v: Option<Value>)
    requires ParseErrors(v).Ok?
    ensures forall x <- ParseErrors(v).value :: ErrorOk(x)
  {
    if v.Some? {
      forall item, x | item in v.value.items && ParseError(item).Ok? && x in ParseError(item).value ensures ErrorOk(x) {
        ParsedErrorIsOk(item);
      }
      FlatMapAll(ParseError, x => ErrorOk(x), v.value.items);
    }
  }

  lemma ParsedConversationIsOk(v: Option<Value>)
    requires ParseConversation(v).Ok?
    ensures OptionalTextOk(ParseConversation(v).value.0) && OptionalTextOk(ParseConversation(v).value.1)
  {
  }

  lemma ParsedPricingIsOk(v: Option<Value>)
    requires ParsePricing(v).Ok?
    ensures OptionalTextOk(ParsePricing(v).value.0) && OptionalTextOk(ParsePricing(v).value.1)
  {
  }

  lemma ParsedStatusIsOk(at: StatusAt)
    requires ParseStatus(at).Ok? && NonBlank(at.wabaId) && NonBlank(at.phoneNumberId)
    ensures forall e <- ParseStatus(at).value :: EventOk(e)
  {
    assert NonBlank("meta");
    hide Member, NonBlank, ParseErrors, ParseConversation, ParsePricing, KnownStatus, OptionalTextOk, ErrorOk;
    var status := at.value.fields;
    ParsedErrorsAreOk(Member(status, "errors"));
    ParsedConversationIsOk(Member(status, "conversation"));
    ParsedPricingIsOk(Member(status, "pricing"));
  }

  predicate Located(at: StatusAt) {
    NonBlank(at.wabaId) && NonBlank(at.phoneNumberId)
  }

  lemma GatheredIsLocated(document: Value)
    requires Gather(document).Ok?
    ensures forall at <- Gather(document).value :: Located(at)
  {
    var entries := Entries(document).value;
    forall entry, at | entry in entries && GatherEntry(entry).Ok? && at in GatherEntry(entry).value ensures Located(at)
    {
      FlatMapAll(ChangeGatherer(entry.fields), x => Located(x), RequireArray(Member(entry.fields, "changes")).value);
    }
    FlatMapAll(GatherEntry, x => Located(x), entries);
  }

  /** Every parsed event passes the constructors' checks, so the only error of the parser is its own. */
  lemma ParsedEventsAreOk(document: Value)
    requires ParseDocument(document).Ok?
    ensures forall e <- ParseDocument(document).value :: EventOk(e)
  {
    GatheredParse(document);
    GatheredIsLocated(document);
    var (statuses, events) := (Gather(document).value, ParseDocument(document).value);
    forall i | 0 <= i < |events| ensures EventOk(events[i]) {
      assert statuses[i] in statuses && Located(statuses[i]);
      ParsedStatusIsOk(statuses[i]);
    }
  }
}
