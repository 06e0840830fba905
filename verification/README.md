# healthassure-messaging: a verified model

`healthassure-messaging` sends business messages at most once per idempotency scope. A send stores an
intent under its scope, asks the recipient and session policies, claims the intent with a
compare-and-set, calls one provider, and closes the intent with the outcome; a recovery job closes
claims whose sender disappeared. This project models that protocol and the code around it in Dafny and
proves what it guarantees, for every input and every run.

`dafny verify dfyconfig.toml` checks the whole project.

## What is modelled

**The dispatch protocol** (`Service`, `Dispatch`, `DispatchSteps`, `DispatchInvariant`, `DispatchProof`,
`DispatchRuns`, `DispatchLaws`, `DispatchConditions`, `DispatchProgress`, `SoloRuns`, `SoloRecovery`,
`Settlement`, `Overtaken`, `DispatchHistory`). A transition system with any number of senders and recovery callers over
one document collection. Every single collection operation, policy evaluation, provider call and
provider answer is one step. Callers may crash between any two steps, and a collection operation may
fail before or after taking effect. A run is the sequence of states it passes through and the events
between them; each event carries everything the program does not decide (clock readings, failures,
policy and provider answers), so a theorem about the points of a run is a theorem about every
interleaving. The history of provider calls, and who created,
claimed and closed each document, is recorded beside the state and read by no step. `DispatchLaws`
holds the safety theorems and `DispatchConditions` the exact conditions of those that do not hold
always; `DispatchProgress` bounds the steps of every call; `SoloRuns` shows that a caller left alone
from any point of any run does the rest of one atomic send; and `Settlement` says exactly which intents
can still reach an outcome. `DispatchHistory` traces what a run leaves behind to the call that asked for it
and to what the policies and the provider answered at which steps.

**The intent repositories** (`IntentRecords`, `IntentDocuments`, `DocumentStore`, `IntentStore`,
`MemoryRepository`, `Linearization`, `MongoRepository`, `Recovery`). The intent document as named fields
that may be absent or hold anything, its reader and writer, and the repository's queries and updates on
such documents; the proof that they do what the steps on typed documents do. The Mongo repository as single operations on an atomic collection with
its three unique indexes; the in-memory repository as the sequential specification; and the proof that
under every interleaving of collection operations the first linearizes to the second. The same
repository also as a class whose methods run without interruption, with the recovery loop.

**The service alone** (`Gateway`, `ServiceAlone`). The registry, the gateway and the service as classes,
proved against one specification of a send; repeated sends replay.

**Event-sourced records** (`EventLog`, `RecipientPolicies`, `TextSessions`). Records whose state is kept
beside an append-only log, under racing writers; consent and suppression flags, and session windows,
are its two instances.

**Codecs** (`Json`, `JsonGrammar`, `Serialization`, `SerializationLaws`, `RequestTexts`, `Fingerprint`,
`Templates`, `Aliases`, `Phone`, `Webhooks`). The stored request down to its JSON text (RFC 8259, sections
2 to 7): the canonical printer, and a reader that is proved to accept exactly the grammar; the
fingerprint, template building, the alias document, number normalization (digit bound of section 6 of
ITU-T E.164), and the webhook parser. Each reader is tied to a predicate that spells out, under literal
keys and names, what an accepted document holds.

Modelling choices that a reader should know:

- The collection keeps its documents in insertion order and never removes one. `find_one`,
  `find_one_and_update` and the upsert are atomic, with the unique indexes of `mongo.py:1375-1393` present.
- The clock is any integer source; a negative reading raises, as in the source. No theorem assumes
  that it is monotone.
- SHA-256 and HMAC-SHA-256 are ideal: injective, with disjoint ranges.
- A provider answers with any result, or raises anything at all.
- Identifiers are typed text. In an intent document, states, dispositions and error categories are the
  names that are written, and a digest stands for its hexadecimal text; any other stored fingerprint text is
  kept as it is.

## What the proofs found

- **A provider call finds its intent DISPATCHING exactly if recovery has not closed it**, and UNKNOWN
  otherwise (`DispatchConditions.CallFindsDispatchingIff`). So at-most-once rests on the uniqueness of the
  claim, not on the stored state. What an operator can check: if no recovery call so far had a threshold
  above the start of the dispatch, the call finds DISPATCHING (`DispatchConditions.CallFindsDispatching`);
  and for every call and every threshold above that start there is a run where it finds UNKNOWN
  (`Overtaken.CalledAfterRecovery`). Once an intent is ACCEPTED or REJECTED, no call can come any more
  (`DispatchLaws.NoCallAfterAnswer`).
- **A PENDING intent with sensitive data is stuck once its creator has stopped.** Restoring its request
  fails before the policies are asked, so nobody can even reject it, and recovery picks only DISPATCHING
  intents: it stays PENDING in every continuation (`Settlement.StuckForGood`). It is the only such case:
  every other intent can still be settled (`Settlement.SettlesIff`).
- **The two repositories differ in two places.** A completion from a terminal state never writes to
  Mongo but overwrites in memory (`Linearization.TerminalCompletionsDiffer`), and only Mongo keeps
  correlation identifiers unique (`Linearization.CorrelationIdsDiffer`). Both lemmas say exactly when the
  two agree; linearizability is proved for the calls the service makes.
- **An alias can be saved and never read.** The reader accepts three classes of aliases. The first save
  of any other alias reports success, and every later lookup fails; a replacement reports failure after it
  has taken effect (`Aliases.SavedAliasReadsIff`, `Aliases.TemplateCatalog.Save`).
- **Legacy button envelopes do not survive rewriting.** A schema 1 or 2 request with a button is accepted,
  but what is written from it is refused (`SerializationLaws.AcceptedSurvivesRewriting`).
- **A claim can be completed, and its outcome lost to its caller,** exactly when recovery came first
  (`DispatchLaws.CompletionFailsIffRecovered`).

## Model

| member | source | states |
|---|---|---|
| `DispatchLaws.AtMostOneCall` | src/healthassure_messaging/service.py:233-429 | over every run, the provider is called at most once per scope |
| `DispatchLaws.CallsFitTheState` | src/healthassure_messaging/service.py:301-429 | over every run: no call while PENDING or without an attempt, exactly one once ACCEPTED, and a rejection without a call is a policy rejection or found no registered provider |
| `DispatchConditions.PolicyRejectionIsNeverSent` | src/healthassure_messaging/service.py:361-383 | a terminal intent without an attempt is a rejection by policy, and no provider is called for its scope at any point before or after |
| `DispatchConditions.UnregisteredIsNeverSent` | src/healthassure_messaging/service.py:385-409 | once the winner of a claim finds no provider registered, no provider is called for its scope at any point before or after, whoever else runs |
| `DispatchConditions.DispatcherSentIff` | src/healthassure_messaging/service.py:385-462 | an intent that a dispatcher closed was sent exactly once if that dispatcher called its provider, and else never |
| `DispatchConditions.CallFindsDispatchingIff` | src/healthassure_messaging/service.py:385-393 | at every provider call of every run, the stored intent is DISPATCHING exactly if recovery has not closed it; else it is UNKNOWN, and that recovery had a threshold above the start of the dispatch |
| `DispatchConditions.CallFindsDispatching` | src/healthassure_messaging/persistence/mongo.py:497-517 | if no recovery call so far had a threshold above the start of the dispatch, the provider call finds its intent DISPATCHING |
| `DispatchConditions.ThresholdsAreAnnounced` | src/healthassure_messaging/persistence/mongo.py:497-517 | every threshold at work, and that of every recovered intent, was the argument of some recovery call of the run |
| `DispatchLaws.NoCallAfterAnswer` | src/healthassure_messaging/service.py:301-462 | once an intent is ACCEPTED or REJECTED, nobody calls the provider for its scope again |
| `DispatchLaws.TerminalIsFinal` | src/healthassure_messaging/persistence/mongo.py:417-495 | a terminal document never changes, and every document keeps its identity and only moves forward |
| `DispatchLaws.OneResultPerScope` | src/healthassure_messaging/service.py:361-497 | all normal returns for one scope carry the stored result up to the replay flag, and at most one of them is not a replay |
| `DispatchLaws.ReturnsAreFinal` | src/healthassure_messaging/service.py:431-497 | a returned result is still the stored one at every later point of the run |
| `DispatchLaws.AnswersFitTheRequest` | src/healthassure_messaging/service.py:310-320 | over every run, however calls race: a caller with a result asked for a request alike the one its intent was created for, and a caller refused as conflicting for one that differs, in recipient, provider, operation or message up to sensitivity marks and button metadata, or the presence of sensitive data or its key |
| `DispatchLaws.EveryDocumentDecodes` | src/healthassure_messaging/persistence/mongo.py:243-310 | every reachable document satisfies the record rules (attempts numbered, at most one, open exactly while DISPATCHING, closed with the result's outcome); its stored fields are read as its intent; and every further repository step changes the stored fields as it changes the typed document |
| `DispatchLaws.FailureTellsWhetherSent` | src/healthassure_messaging/service.py:385-462 | no run is refused a terminal intent by the intent's own checks, and a run fails with the post-dispatch error exactly if it called the provider |
| `DispatchLaws.CompletionFailsIffRecovered` | src/healthassure_messaging/service.py:431-462 | with a store and clock that do not fail, a dispatcher's completion fails exactly if recovery closed the intent first, with the post-dispatch error exactly if the provider was called |
| `DispatchLaws.CallCarriesItsRequest` | src/healthassure_messaging/service.py:310-359 | every provider call carries the recipient, message and key of the run that made it, at the provider it selected, under the stored correlation identifier, restored requests included |
| `DispatchLaws.EveryCallWasAllowed` | src/healthassure_messaging/service.py:329-359 | before any provider call, the run that makes it found its own recipient eligible and, for a text, its own session active |
| `DispatchLaws.SensitiveIsSentByItsCreator` | src/healthassure_messaging/service.py:286-327 | a request with sensitive data is only ever sent by the run that created its intent, never from storage |
| `DispatchLaws.RecoveriesAddUp` | src/healthassure_messaging/persistence/mongo.py:497-542 | however recovery calls race, their counts add up to the intents that recovery moved to UNKNOWN, less those whose write was reported as failed |
| `DispatchLaws.RecoveredIsUnknown` | src/healthassure_messaging/persistence/mongo.py:517-541 | an intent that recovery closed had one attempt and stays UNKNOWN for good |
| `DispatchHistory.CallCarriesWhatWasAsked` | src/healthassure_messaging/service.py:167-359 | over every run, each provider call goes to the number that the recipient given by its caller's call stands for, and carries the body, or the template with its values in their places, that the call gave, at the provider and under the idempotency key of that call |
| `DispatchHistory.StoredAsAsked` | src/healthassure_messaging/service.py:167-299 | every stored intent has the flow, key and actor of the call that created it, and stores the request for the recipient and message of that call |
| `DispatchHistory.VerdictStep` | src/healthassure_messaging/service.py:329-359 | by the answer of the policy it asks, a sender goes on exactly to its rejection by policy, to its claim, to the session policy, or fails with a dependency error; the store is left as it is |
| `DispatchHistory.PoliciesDecide` | src/healthassure_messaging/service.py:329-383 | over every run, a document is closed as rejected by policy only by a caller whose policies answered and refused, with no attempt; and claimed only by one whose policies allowed it |
| `DispatchHistory.VerdictIsFinal` | src/healthassure_messaging/service.py:329-383 | a refused caller never claims and never calls a provider, an allowed one never closes a document as rejected by policy, and one whose policy failed is told of a failed dependency and does neither |
| `DispatchHistory.AnswerIsStored` | src/healthassure_messaging/service.py:385-477 | a document closed by a dispatcher that called its provider is ACCEPTED exactly if the one answer that dispatcher awaited was a matching ACCEPTED one, and REJECTED exactly if it was a matching REJECTED one; the result is that answer field by field, and of unknown outcome for any other answer |
| `DispatchHistory.LocalClosings` | src/healthassure_messaging/service.py:361-429 | over every run, what the result of a document closed by policy, for want of a provider, or by recovery says, field by field, and why it was closed |
| `DispatchHistory.FaultIsTold` | src/healthassure_messaging/service.py:431-541 | a sender whose repository operation fails is told of a failed dependency or, once it has called its provider and completes, that the outcome could not be stored |
| `DispatchRuns.RunKeeps` | src/healthassure_messaging/service.py:233-541 | the protocol's invariant holds at every point of every run |
| `DispatchRuns.RunsGrow` | src/healthassure_messaging/service.py:233-541 | a later point of a run only adds: documents evolve, calls are kept, callers that stopped stay stopped |
| `DispatchProof.MoveKeeps` | src/healthassure_messaging/service.py:233-541 | every step of a sender keeps the invariant |
| `DispatchProof.ClaimKeeps` | src/healthassure_messaging/service.py:332-337 | a claim that takes effect makes its sender the one winner |
| `DispatchProof.CompletionKeeps` | src/healthassure_messaging/service.py:431-462 | a completion that takes effect closes the document as its winner's |
| `DispatchProof.DenialKeeps` | src/healthassure_messaging/service.py:361-383 | a policy rejection closes a PENDING document without an attempt |
| `DispatchProof.ContinueKeeps` | src/healthassure_messaging/service.py:301-330 | a sender that has read the stored intent goes on with this sender's own request or not at all |
| `DispatchRuns.StepRecoveryKeeps` | src/healthassure_messaging/persistence/mongo.py:497-542 | every step of a recovery call keeps the invariant |
| `DispatchSteps.ClaimStep` | src/healthassure_messaging/persistence/mongo.py:371-415 | a step of a claim claims the document at its identifier or changes nothing, whatever fails |
| `DispatchSteps.CompletionStep` | src/healthassure_messaging/persistence/mongo.py:417-495 | a step of a completion completes the document in the expected state or changes nothing, whatever fails |
| `DispatchSteps.UpsertStep` | src/healthassure_messaging/persistence/mongo.py:332-369 | a step of a creation inserts the document in a free scope or changes nothing |
| `DispatchSteps.StepWrites` | src/healthassure_messaging/persistence/mongo.py:289-495 | what any step of any call writes: nothing, or the one new document, claim or closing that its call asks for, field by field, stamped with the clock reading of the step |
| `DispatchProgress.SendsEnd` | src/healthassure_messaging/service.py:233-541 | every send is over after at most eleven steps of its own, and from every point after at most as many as its rank, whatever others do and whatever fails |
| `DispatchProgress.RecoveriesEnd` | src/healthassure_messaging/persistence/mongo.py:497-542 | every recovery call is over after at most one step for its query and two for each intent of its limit |
| `SoloRuns.SoloSendIsAtomic` | src/healthassure_messaging/service.py:233-541 | from every reachable state, a sender in any phase but a crash, left alone with inputs that may differ at every step but do not fail, ends with the collection, the outcome and the provider calls of what is left of the atomic send, for the answers and clock readings met at the very steps where it was in the phase that asks for them |
| `SoloRuns.CallerIsServed` | src/healthassure_messaging/service.py:233-541 | every run can go on with the steps of one caller that has not crashed, which then ends so, its answers again those of its own steps |
| `SoloRuns.NewCallerIsServed` | src/healthassure_messaging/service.py:167-541 | after any run, a new caller left alone is served, as the atomic send says for what it met at its own steps |
| `SoloRecovery.ClosesOne` | src/healthassure_messaging/persistence/mongo.py:497-542 | every run with a stale dispatch can go on with one recovery call that closes the first of them as UNKNOWN and changes nothing else |
| `Settlement.StuckForGood` | src/healthassure_messaging/service.py:323-329 | a PENDING intent with sensitive data whose creator has stopped stays exactly as it is at every later point, and no provider is called for it |
| `Settlement.SettlesIff` | src/healthassure_messaging/service.py:301-337 | after any run, an intent can still become terminal in some continuation exactly if it is not PENDING with sensitive data and a stopped creator |
| `Overtaken.CalledAfterRecovery` | src/healthassure_messaging/service.py:334-393 | for every call that passes preparation, and every recovery threshold above the time of its claim, there is a run in which its provider is called although the stored intent is already UNKNOWN |
| `Service.PreparedJobIsOk` | src/healthassure_messaging/service.py:167-256 | a call that passes preparation becomes the job it asks for, with a valid recipient and message with url buttons only, and a fingerprint |
| `Service.PrepareIff` | src/healthassure_messaging/service.py:167-256 | exactly which job a call is prepared as: the normalized recipient, the given body or the template with its values, the configured or the alias' provider, operation, session, flow, key and actor; and exactly when it is refused with each error |
| `Service.GatewayReports` | src/healthassure_messaging/service.py:385-429 | the result of a call is the provider's answer field by field if it is valid and names this provider and request; in every other case its outcome is unknown |
| `Service.LocalResultsSay` | src/healthassure_messaging/service.py:361-429 | disposition, status, category, retriability and text of the results that the service makes itself |
| `Dispatch.EligibleIff` | src/healthassure_messaging/service.py:339-359 | the policies allow a send exactly if the recipient has consented and is not suppressed and, for a text, has an active session; refuse it exactly on any other answers; and fail exactly if the policy whose answer is needed fails |
| `Service.SameFingerprint` | src/healthassure_messaging/service.py:92-123 | runs that share a fingerprint share recipient, provider, session, sensitivity and, without sensitive data, the message |
| `Service.RestoredRequest` | src/healthassure_messaging/service.py:321-327 | a request restored from an intent of another run is this run's own, and a sensitive one is never restored |
| `Service.ExpectedIsValid` | src/healthassure_messaging/service.py:385-446 | whatever the provider does, the expected terminal intent passes the checks of the intent |
| `ServiceAlone.RepeatedSendReplays` | src/healthassure_messaging/service.py:310-320 | after a send that returned a result, every later send for the same request replays it, sends nothing and changes nothing |
| `ServiceAlone.SendsIff` | src/healthassure_messaging/service.py:233-429 | a send calls its provider exactly if its scope is free or holds a restorable PENDING intent, the policies allow it and the provider is registered; then once, with its own request |
| `ServiceAlone.SendDecides` | src/healthassure_messaging/service.py:301-429 | a send that may ask the policies leaves its intent rejected by policy exactly if they refuse, PENDING with a dependency error exactly if the one needed fails, and dispatched, with what the provider answered, exactly if they allow |
| `ServiceAlone.AnswersIff` | src/healthassure_messaging/service.py:248-327 | exactly which answer every other send gives, by what is stored in its scope: it changes and sends nothing |
| `ServiceAlone.ConflictIff` | src/healthassure_messaging/service.py:310-311 | one uninterrupted send is refused as conflicting exactly if recipient, provider, operation or message differ up to sensitivity marks and button metadata, or the presence of sensitive data or its key |
| `ServiceAlone.MessagingService.Send` | src/healthassure_messaging/service.py:233-299 | the method computes the atomic send: new collection, outcome, and what the provider received; the provider received something only if the recipient policy answered consented and not suppressed and, for a text, the session policy answered active; and a send that may ask them decides by their answers |
| `ServiceAlone.MessagingService.ContinueIntent` | src/healthassure_messaging/service.py:301-337 | the same from a stored intent on, by the answers of the two policies |
| `ServiceAlone.MessagingService.CompleteLocalRejection` | src/healthassure_messaging/service.py:361-383 | closes the PENDING intent as rejected by policy, adding no attempt |
| `ServiceAlone.MessagingService.DispatchClaimed` | src/healthassure_messaging/service.py:385-429 | one call of the provider, if registered, and the claimed intent closed with what came of it |
| `ServiceAlone.MessagingService.CompleteClaimedIntent` | src/healthassure_messaging/service.py:431-462 | closes the claimed intent and its open attempt with the result, and returns it |
| `ServiceAlone.MessagingService.ResolveClaimRace` | src/healthassure_messaging/service.py:479-497 | answers from the intent as it is stored now |
| `Gateway.MessagingGateway.Send` | src/healthassure_messaging/provider.py:65-90 | only the selected provider is called, once; a result for another provider or request, and an adapter's own "not found", are masked |
| `Gateway.ProviderRegistry.Register` | src/healthassure_messaging/provider.py:48-54 | registers exactly a free, matching, non-blank key; every provider stays under its own key |
| `Gateway.ProviderRegistry.Get` | src/healthassure_messaging/provider.py:56-62 | finds exactly the registered providers |
| `Gateway.DispatchClaimed` | src/healthassure_messaging/service.py:385-429 | the provider was invoked exactly if registered; the result reports its answer field by field, or says that none is registered, and is valid for the intent whatever it does |
| `Linearization.Linearizable` | src/healthassure_messaging/persistence/mongo.py:321-495 | under every interleaving and failure, the collection always stands for the in-memory state to which each call's atomic operation was applied at one of its steps or not at all |
| `Linearization.AnswersAreAtomic` | src/healthassure_messaging/persistence/mongo.py:321-495 | an answer that is not an error is that of the call's atomic operation, applied once; a created intent may since have advanced |
| `Linearization.DependableAnswersAreAtomic` | src/healthassure_messaging/persistence/mongo.py:321-495 | a caller none of whose own steps meets a failure or a negative clock gets exactly the atomic answer of its lookup, claim or completion, whatever others meet; of its creation too, up to progress of the stored intent, except the conflict for a taken correlation identifier |
| `Linearization.OpRefines` | src/healthassure_messaging/persistence/mongo.py:321-495 | each step is the atomic operation or has no effect |
| `Linearization.AloneIsAtomic` | src/healthassure_messaging/persistence/mongo.py:321-495 | a call run alone is the atomic operation |
| `Linearization.TerminalCompletionsDiffer` | src/healthassure_messaging/persistence/mongo.py:482-486 | from a terminal state Mongo never writes; it agrees with the in-memory repository exactly if no stored intent in that state has the result's identity |
| `Linearization.CorrelationIdsDiffer` | src/healthassure_messaging/persistence/mongo.py:332-369 | with free scope and identifier, Mongo refuses exactly a taken correlation identifier, the in-memory repository never |
| `MemoryRepository.MemoryCallKeepsValid` | src/healthassure_messaging/testing.py:65-147 | every operation keeps the two dictionaries consistent and every intent valid |
| `MemoryRepository.InMemoryIntentRepository.GetIntent` | src/healthassure_messaging/testing.py:85-89 | looks the scope up |
| `MemoryRepository.InMemoryIntentRepository.CreateIfAbsent` | src/healthassure_messaging/testing.py:91-104 | the atomic creation, recorded exactly if it stored the intent |
| `MemoryRepository.InMemoryIntentRepository.ClaimIntent` | src/healthassure_messaging/testing.py:106-118 | the atomic claim, recorded exactly if it claimed |
| `MemoryRepository.InMemoryIntentRepository.CompleteIntent` | src/healthassure_messaging/testing.py:120-147 | the atomic completion, recorded exactly if it completed |
| `IntentStore.AdvanceKeepsStore` | src/healthassure_messaging/persistence/mongo.py:321-495 | every step of every call, failing or not, keeps documents well-formed and identities unique, and only moves documents forward |
| `IntentStore.PcInvStable` | src/healthassure_messaging/persistence/mongo.py:332-495 | what a call in progress relies on survives every step of every other caller |
| `IntentRecords.WellFormedDecodes` | src/healthassure_messaging/persistence/mongo.py:265-286 | the record rules imply what the reader checks: schema, attempts and the checks of the intent |
| `IntentRecords.ClaimedDocIsWellFormed` | src/healthassure_messaging/persistence/mongo.py:382-411 | a claim opens the one attempt |
| `IntentRecords.CompletedDocIsWellFormed` | src/healthassure_messaging/persistence/mongo.py:452-488 | a completion closes the attempt with the outcome of the stored result |
| `IntentDocuments.ValidateAttempts` | src/healthassure_messaging/persistence/mongo.py:243-262 | the loop accepts exactly a list of attempts that is counted, numbered from one, and has well-typed fields throughout |
| `IntentDocuments.StateNamesInvert` | src/healthassure_messaging/enums.py:47-52 | a name is read as a state exactly if it is that state's name; every other name is refused |
| `IntentDocuments.DispositionNamesInvert` | src/healthassure_messaging/enums.py:6-9 | the same for dispositions |
| `IntentDocuments.CategoryNamesInvert` | src/healthassure_messaging/enums.py:12-23 | the same for error categories |
| `IntentDocuments.ErrorReads` | src/healthassure_messaging/persistence/mongo.py:169-200 | a written error is read as itself exactly if its constructor accepts it, and else refused |
| `IntentDocuments.ResultReads` | src/healthassure_messaging/persistence/mongo.py:203-230 | the same for a written result |
| `IntentDocuments.StoredReads` | src/healthassure_messaging/persistence/mongo.py:243-286 | the fields of every typed document, well-formed or not, are read as its intent exactly if schema, attempts and intent are valid |
| `IntentDocuments.IntentRoundTrip` | src/healthassure_messaging/persistence/mongo.py:265-310 | a new valid intent is read back from the document written for it |
| `IntentDocuments.AcceptedIntent` | src/healthassure_messaging/persistence/mongo.py:243-286 | a document is accepted as an intent exactly if it holds the intent's fields, those of a stored result and its error included, each state, disposition and category under its own name, with schema 1 and attempts that are counted, numbered and well-typed field by field, and neither intent, result nor error is one that its constructor refuses |
| `IntentDocuments.AcceptedResult` | src/healthassure_messaging/persistence/mongo.py:216-230 | a value is read as a result exactly if it holds the result's fields and the constructor accepts it |
| `IntentDocuments.AcceptedError` | src/healthassure_messaging/persistence/mongo.py:184-200 | the same for an error, or none |
| `IntentDocuments.ClaimCommutes` | src/healthassure_messaging/persistence/mongo.py:383-411 | setting, incrementing and pushing fields on any stored document is the typed claim |
| `IntentDocuments.CompletionCommutes` | src/healthassure_messaging/persistence/mongo.py:452-488 | setting fields, and dotted fields of the active attempt, on any stored document is the typed completion |
| `DocumentStore.QueriesAgree` | src/healthassure_messaging/persistence/mongo.py:321-481 | each query selects a document exactly if it selects the typed one, nulls and dotted paths included |
| `DocumentStore.StaleAgrees` | src/healthassure_messaging/persistence/mongo.py:506-514 | so does the recovery query |
| `DocumentStore.DocumentsRefine` | src/healthassure_messaging/persistence/mongo.py:321-495 | every step of every call on the documents, under every failure, leaves exactly the documents of the typed step and gives its answer |
| `MongoRepository.MongoIntentRepository.Get` | src/healthassure_messaging/persistence/mongo.py:321-330 | the method is the steps of a lookup, uninterrupted |
| `MongoRepository.MongoIntentRepository.CreateIfAbsent` | src/healthassure_messaging/persistence/mongo.py:332-369 | the method is the steps of a creation, uninterrupted |
| `MongoRepository.MongoIntentRepository.ClaimIntent` | src/healthassure_messaging/persistence/mongo.py:371-415 | the method is the steps of a claim, uninterrupted |
| `MongoRepository.MongoIntentRepository.CompleteIntent` | src/healthassure_messaging/persistence/mongo.py:417-495 | the method is the steps of a completion, uninterrupted |
| `MongoRepository.MongoIntentRepository.RecoverStaleDispatching` | src/healthassure_messaging/persistence/mongo.py:497-542 | run alone, closes exactly the first stale intents up to the limit and returns min(limit, stale count); at a negative clock reading it raises, and exactly the intents before it stay closed |
| `MongoRepository.Collection.Upsert` | tests/mongo_fakes.py:235-266 | inserts exactly if no document has the scope and no unique index is violated |
| `Recovery.CandidatesAreTheLeast` | src/healthassure_messaging/persistence/mongo.py:506-517 | the query returns min(limit, stale count) documents that are DISPATCHING since before the threshold, by dispatch start and then identifier in code-point order, and every other such document comes later |
| `Recovery.ClosedAddsNoAttempt` | src/healthassure_messaging/persistence/mongo.py:517-541 | recovery adds no attempt and leaves every picked intent UNKNOWN |
| `Recovery.RecoveryReducesStale` | src/healthassure_messaging/persistence/mongo.py:497-542 | a call leaves exactly the stale documents it did not pick, and so min(limit, stale count) fewer |
| `Recovery.RecoveryDrains` | src/healthassure_messaging/persistence/mongo.py:497-542 | repeated calls recover n stale intents in exactly ceil(n / limit) calls |
| `EventLog.StateIsReplay` | src/healthassure_messaging/persistence/mongo.py:736-813 | under racing writers, every record has schema 1 and its own key, its state is the replay of its log, identifiers are unique, and the reader never refuses it |
| `EventLog.LogsOnlyGrow` | src/healthassure_messaging/persistence/mongo.py:779-794 | logs are append-only over every run |
| `EventLog.AnswersAreTrue` | src/healthassure_messaging/persistence/mongo.py:772-813 | an update succeeds exactly if its event is in the log, once, and conflicts exactly if another event holds its identifier, without having written; it is told that the database is unavailable only if one of its own steps met a failure |
| `EventLog.DependableIsAnswered` | src/healthassure_messaging/persistence/mongo.py:736-813 | a caller, reader or writer, none of whose own steps meets a failure is never told that the database is unavailable |
| `EventLog.EveryWriteIsLogged` | src/healthassure_messaging/persistence/mongo.py:784-797 | a log grows by exactly one event per caller whose own write took effect, never two for one event |
| `EventLog.ReturnedStateWasReal` | src/healthassure_messaging/persistence/mongo.py:630-642 | a returned state is the replay of the log as it was at one step of the call itself, the one that reads it; for an update its event was then in the log |
| `EventLog.AnswersAreInKind` | src/healthassure_messaging/persistence/mongo.py:736-813 | an update that succeeds is told the state exactly in logs whose updates evaluate, and only its success in the others; a query is told the state |
| `RecipientPolicies.StoredFlagsAreLastWords` | src/healthassure_messaging/persistence/mongo.py:603-620 | consented exactly if the last consent event grants, suppressed exactly if the last suppression event applies, under racing writers |
| `RecipientPolicies.ReadPolicyRecord` | src/healthassure_messaging/persistence/mongo.py:574-623 | the reader's loop accepts exactly records of schema 1 and of the expected recipient, with sensible and distinct events, whose flags are their last words |
| `RecipientPolicies.ChangesReturnFlags` | src/healthassure_messaging/persistence/mongo.py:736-813 | a change of a policy that succeeds returns the flags |
| `TextSessions.ActiveIffLastLogged` | src/healthassure_messaging/persistence/mongo.py:929-951 | a session is active exactly if the last one logged allows the purpose and has not expired, under racing writers |
| `TextSessions.StoredWindowIsLast` | src/healthassure_messaging/persistence/mongo.py:953-1041 | under racing writers, every stored window has the purposes and times of the last session logged |
| `TextSessions.OpeningReturnsNothing` | src/healthassure_messaging/persistence/mongo.py:953-1041 | opening a session that succeeds returns nothing |
| `TextSessions.ReadSessionRecord` | src/healthassure_messaging/persistence/mongo.py:848-912 | the reader's loop accepts exactly records of schema 1 and of the expected key, with sensible and distinct events, whose window is that of the last of them |
| `TextSessions.CheckPurposeKeys` | src/healthassure_messaging/persistence/mongo.py:816-845 | the loop accepts exactly non-blank keys without repetition, empty only where allowed |
| `Aliases.SavedAliasReadsIff` | src/healthassure_messaging/persistence/mongo.py:1044-1193 | a saved alias reads back as itself exactly in the three classes; every other one is refused |
| `Aliases.ClassesHaveTheirSchema` | src/healthassure_messaging/persistence/mongo.py:1044-1061 | text only, image, and sensitive with button aliases have schema 1, 2 and 3 |
| `Aliases.AcceptedDocumentIsWritten` | src/healthassure_messaging/persistence/mongo.py:1094-1193 | every accepted document is exactly what the writer makes of the alias it decodes to |
| `Aliases.ReadComponentsStepwise` | src/healthassure_messaging/persistence/mongo.py:1111-1156 | the loop reads the components one by one, or refuses all |
| `Aliases.TemplateCatalog.Save` | src/healthassure_messaging/persistence/mongo.py:1208-1277 | a save at the expected revision always stores exactly the alias, field by field, at the next revision under its own key, and each error has its exact condition; a replacement is reported as failed exactly for an unreadable alias, a first save never |
| `Aliases.ReadsWhatIsRepresented` | src/healthassure_messaging/persistence/mongo.py:1094-1193 | a document is read as an alias exactly if the alias is valid, in one of the three classes, and the document holds its fields; else it is refused |
| `Aliases.WriteHolds` | src/healthassure_messaging/persistence/mongo.py:1044-1091 | what is written of an alias is exactly its fields, types under their names, parameter types from schema 2 on |
| `Aliases.TemplateCatalog.GetAlias` | src/healthassure_messaging/persistence/mongo.py:1200-1206 | gives an alias exactly if the key has an active document that holds that alias' fields, and then one with that key; nothing exactly without an active document; an error exactly for an active document that represents no alias |
| `SerializationLaws.RoundTripIff` | src/healthassure_messaging/serialization.py:36-87 | a request reads back from its stored text exactly if it has no sensitive parameter and only url buttons; else it is refused |
| `SerializationLaws.DeserializeSerialized` | src/healthassure_messaging/serialization.py:225-266 | what reading back gives: the request, or the error of the first component that cannot be restored |
| `SerializationLaws.SensitiveIsUnavailable` | src/healthassure_messaging/serialization.py:129-193 | with url buttons only, a request is restored or refused as sensitive |
| `SerializationLaws.RedactionLosesOnlySensitiveTexts` | src/healthassure_messaging/serialization.py:36-87 | two requests have the same stored text exactly if they agree up to their sensitive texts |
| `SerializationLaws.VersionsAreMonotone` | src/healthassure_messaging/serialization.py:129-266 | without buttons, acceptance and result carry over to every later schema; with one, never both before and under schema 3 |
| `SerializationLaws.AcceptedSurvivesRewriting` | src/healthassure_messaging/serialization.py:225-266 | an accepted request survives being written again exactly if it is of schema 3 or has no button |
| `SerializationLaws.SerializedKeysAreSorted` | src/healthassure_messaging/serialization.py:72-87 | the keys of every written object are in order |
| `RequestTexts.SerializedHolds` | src/healthassure_messaging/serialization.py:36-87 | the stored text is a JSON text that holds the request under schema 3, member by member and nothing else, of a sensitive text only that it was there |
| `RequestTexts.RedactedIff` | src/healthassure_messaging/serialization.py:178-186 | a parameter is refused as sensitive exactly if it is a redacted one, under schema 3 |
| `RequestTexts.DeserializeIff` | src/healthassure_messaging/serialization.py:94-266 | a text is read as a request exactly if it is a JSON text without repeated keys that holds the request under one of the three schemas, with images from schema 2 and button metadata from schema 3 on, and nothing in it is blank, malformed or sensitive |
| `Serialization.ReadComponentStepwise` | src/healthassure_messaging/serialization.py:129-193 | the loop over the parameters reads them in order or refuses the component |
| `Json.ParsePrint` | src/healthassure_messaging/serialization.py:72-87 | parsing a printed value gives it back |
| `Json.PrintIsInjective` | src/healthassure_messaging/serialization.py:81-87 | values with one canonical text are equal |
| `JsonGrammar.ParseIff` | src/healthassure_messaging/serialization.py:225-243 | the reader accepts exactly the texts of the grammar of RFC 8259, sections 2 to 7, with integers only and without repeated keys, each as the value that it denotes |
| `Json.RejectDuplicateKeys` | src/healthassure_messaging/serialization.py:94-100 | the loop gives the dictionary in which each key has the value of its one pair, or refuses exactly repeated keys |
| `Fingerprint.PreimageKernel` | src/healthassure_messaging/service.py:55-118 | hashed texts are equal exactly if the requests agree up to sensitivity marks and button metadata |
| `Fingerprint.FingerprintIs` | src/healthassure_messaging/service.py:55-123 | the fingerprint is the plain digest of a JSON text that holds recipient, provider, operation and message member by member, and with sensitive data the keyed digest of that text in a domain of its own |
| `Fingerprint.FingerprintsAgreeIff` | src/healthassure_messaging/service.py:92-123 | fingerprints are equal exactly if, moreover, both or neither have sensitive data, and then under one key |
| `Fingerprint.PlainMessagesAreDetermined` | src/healthassure_messaging/service.py:55-81 | for valid messages without sensitive data, nothing is lost |
| `Templates.BuildIff` | src/healthassure_messaging/templates.py:47-112 | building gives exactly the message with the alias' template and the supplied values in their places, each of its declared kind; each refusal has its exact condition, and no constructor refuses |
| `Templates.BuiltMessagesRoundTrip` | src/healthassure_messaging/templates.py:47-112 | a message built from an alias is restored from storage or refused as sensitive |
| `Templates.BuildComponentStepwise` | src/healthassure_messaging/templates.py:80-105 | the inner loop builds the parameters in order or refuses |
| `Templates.BuildTemplateMessage` | src/healthassure_messaging/templates.py:47-112 | the nested loops compute the specified message or error |
| `Phone.NormalizedIsE164` | src/healthassure_messaging/phone.py:46-80 | a normalized number is an accepted E.164 number |
| `Phone.NormalizeIsIdempotent` | src/healthassure_messaging/phone.py:46-80 | normalizing again, for any region, changes nothing |
| `Phone.DependsOnlyOnCompactForm` | src/healthassure_messaging/phone.py:46-80 | inputs of allowed characters with one separator-free form are treated alike |
| `Phone.PrefixesAgree` | src/healthassure_messaging/phone.py:62-73 | "00" and "+" are interchangeable in front of any text |
| `Phone.IndianNational` | src/healthassure_messaging/phone.py:36-43 | a national mobile number, with or without the trunk zero, gets its country code exactly where the region is India, and is refused elsewhere |
| `Phone.NormalizeIff` | src/healthassure_messaging/phone.py:46-80 | exactly which texts are normalized to which number: allowed characters only, an accepted number, and the separator-free text is that number, or has 00 for its plus sign, or is an Indian mobile number with or without trunk zero where the region is India; everything else is refused |
| `Phone.CompactKeeps` | src/healthassure_messaging/phone.py:6-7 | the separator-free form leaves out exactly white space, parentheses, dots and dashes |
| `Webhooks.DocumentParsesIff` | src/healthassure_messaging/providers/meta_webhooks.py:97-165 | a document gives exactly these events if and only if it lists statuses, under the account of their entry and the phone number of their change, that hold the events field by field, one each, in document order |
| `Webhooks.StatusParsesIff` | src/healthassure_messaging/providers/meta_webhooks.py:132-216 | a status is parsed as an event exactly if it holds each field of the event under its own key: the five known status names and unknown for any other, the decimal timestamp, errors one by one with code and subcode, conversation and origin, pricing |
| `Webhooks.MemberIsLast` | src/healthassure_messaging/providers/meta_webhooks.py:88-94 | of repeated keys, the last one counts |
| `Webhooks.ParseDocumentStepwise` | src/healthassure_messaging/providers/meta_webhooks.py:97-129 | the nested loops give exactly the events that the listed statuses hold, in order, or nothing |
| `Webhooks.EntriesDistribute` | src/healthassure_messaging/providers/meta_webhooks.py:101-129 | parsing distributes over concatenation of the entries |
| `Webhooks.StatusesAreConserved` | src/healthassure_messaging/providers/meta_webhooks.py:104-128 | as many events as statuses are listed under "messages" changes |
| `Webhooks.ErrorsAreConserved` | src/healthassure_messaging/providers/meta_webhooks.py:168-188 | as many errors as are listed |
| `Webhooks.ParseErrorsStepwise` | src/healthassure_messaging/providers/meta_webhooks.py:168-188 | the loop parses the errors in order or refuses |
| `Webhooks.ParsedEventsAreOk` | src/healthassure_messaging/webhooks.py:18-67 | every parsed event passes the constructors' checks, so the parser's own error is its only one |

## Left out

- Json.PrintIsInjective: taken over values without repeated keys, which is all that the writers make; characters are code units, UTF-8 encoding is not modelled.
- Fractional and exponent numbers in JSON, and lone surrogates, are refused by the reader of `Json`; no document of the package contains them. Webhook documents are taken as decoded, with fractions as opaque values.
- Phone.NormalizeIsIdempotent: the case mapping of the region is that of ASCII letters, and the injected normalizer of the source is its default one.
- SHA-256, HMAC and the webhook signature are library functions; the first two are ideal functions here.
- ServiceAlone.ConflictIff: is about one uninterrupted send; `DispatchLaws.AnswersFitTheRequest` covers races.
- ServiceAlone.MessagingService.Send: assumes a database that does not fail; failures, crashes and races are in `Dispatch`.
- ServiceAlone.MessagingService.ContinueIntent: the same; the failing and racing continuations are `DispatchProof.ContinueKeeps` and the steps after it.
- ServiceAlone.MessagingService.DispatchClaimed: the same; a completion that fails or comes too late is a `Completing` step of `Dispatch`.
- ServiceAlone.MessagingService.CompleteLocalRejection: the same; a failed or late rejection is a `Denying` step of `Dispatch`.
- ServiceAlone.MessagingService.CompleteClaimedIntent: the same; a failed or late completion is a `Completing` step of `Dispatch`.
- Linearization.AnswersAreAtomic: leaves errors open, since a caller may be told of a failure; `DependableAnswersAreAtomic` excludes them where nothing failed.
- Sorting and limit of the recovery query are taken on typed documents, and an update of a field that a document lacks or has with another type leaves it as it is.
- The event sink of the in-memory repository and its failures; the in-memory policies and catalog, which are set lookups.
- `MongoTemplateCatalog.deactivate`, whose filter matches schema 1 documents only, and races between saves: easy compare-and-set facts.
- Index creation, collection names and cursors; BSON types other than those of `IntentDocuments.Value`. Records of policies, sessions and aliases are typed, so their fields of a wrong type are only modelled where a reader's own rule is at stake.
- HTTP transport, request building and response classification of the Meta provider: a provider is a step that answers anything or raises.
- Values that Python's types do not exclude but the annotations do (a policy that returns no eligibility, a provider that returns no result) are treated as raising.
- Exception wording, redaction of `repr`, and cause chaining.
