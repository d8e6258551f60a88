# Stream registry: stream-binding lifecycle and schema notification encoding

A Dafny model of two pieces of the stream registry, a metadata registry for
streams, schemas, zones and the bindings between them.

- **The stream-binding lifecycle service** (`StreamBindings.dfy`). `create`,
  `update` and `upsert` run existence check → validation → handler → save →
  notification over a key-addressed repository. `read`, `exists` and `findAll`
  look the repository up, and `delete` is unsupported. The file has two layers:
  - Specification layer. Each call is a function from a `ServiceState` (the
    repository's entries, its listing order, and the log of emitted events) to
    an `Outcome`: the new state, the caller's entity after the call, and the
    result. The lifecycle's promises are proved about these functions. Some
    proofs cover single calls and some cover whole sequences of calls: the
    log is append-only, there is one event per success, and no key is
    reported created twice.
  - Object layer. The class `StreamBindingService` holds the state in fields.
    Its methods update those fields in place and also overwrite the
    specification of the caller's `StreamBinding` object, as `setSpecification`
    does. Each method is proved equal to its specification function, and each
    keeps the invariant.
  - The validator, the handler, the notification emitter and the key's text
    form are collaborators given to the service when it is built
    (`Collaborators`). The model does not fix their rules.
- **The schema notification encoder** (`NotificationEvents.dfy`). It turns a
  `Schema` into the key record and the value record of a notification. Every
  Java reference that may be null is an `Option`. A failed null check becomes
  a `Failure` carrying the message "<target> can not be null", and no record
  is built in that case.

`Wrappers.dfy` holds `Option` and `Result`. `Model.dfy` holds the tag,
specification and status types that both parts share.

Error and ordering behaviour of the service, as the code has it:
- Rejecting an existing key on create and a missing key on update are both
  `ValidationFailure`s. They carry the messages "Can't create because it
  already exists" and "Can't update <key> because it doesn't exist".
- `findAll` returns the matching entities in the order the repository lists
  them. The model fixes one such order (see "## Left out").
- A failed emission leaves the entity saved and the caller's object updated,
  and the call fails with `NotificationFailure`. Nothing is rolled back and no
  event is logged.

## Model

| member | source | states |
|---|---|---|
| `StreamBindings.StreamBindingService.constructor` | core/src/main/java/com/expediagroup/streamplatform/streamregistry/core/services/StreamBindingService.java:39-45 | a new service holds the given collaborators and the given (possibly non-empty, well-formed) repository, with an empty event log, and satisfies the invariant |
| `StreamBindings.Read` | core/src/main/java/com/expediagroup/streamplatform/streamregistry/core/services/StreamBindingService.java:76-78 | read finds an entity exactly when the key is stored; the entity found is the stored one and carries the key asked for |
| `StreamBindings.Exists` | core/src/main/java/com/expediagroup/streamplatform/streamregistry/core/services/StreamBindingService.java:88-90 | exists holds if and only if read finds an entity, i.e. if and only if the key is stored |
| `StreamBindings.Listing` | core/src/main/java/com/expediagroup/streamplatform/streamregistry/core/services/StreamBindingService.java:81 | the repository listing holds only stored entities and every entity whose key the repository lists |
| `StreamBindings.Filter` | core/src/main/java/com/expediagroup/streamplatform/streamregistry/core/services/StreamBindingService.java:81 | the filter keeps an element if and only if it is in the input and satisfies the predicate, keeps every copy of it (same multiplicity), and keeps the input's order (a subsequence) |
| `StreamBindings.FindAll` | core/src/main/java/com/expediagroup/streamplatform/streamregistry/core/services/StreamBindingService.java:80-82 | findAll returns exactly the stored entities satisfying the predicate (both directions), in repository order |
| `StreamBindings.SaveStep` | core/src/main/java/com/expediagroup/streamplatform/streamregistry/core/services/StreamBindingService.java:66-70 | save stores the entity under its key (a new key goes last in the listing) and then emits one event of the given type; success if and only if the emitter accepts; a failed emission keeps the save and logs nothing; well-formedness is preserved |
| `StreamBindings.NotFoundMessage` | core/src/main/java/com/expediagroup/streamplatform/streamregistry/core/services/StreamBindingService.java:59 | the update-on-missing-key message is "Can't update ", then the key's text, then " because it doesn't exist" |
| `StreamBindings.CreateStep` | core/src/main/java/com/expediagroup/streamplatform/streamregistry/core/services/StreamBindingService.java:47-54 | a stored key fails with "Can't create because it already exists" and changes nothing; a rejecting validator fails with its reason before the handler and the save; success if and only if key absent, validator, handler and emitter all accept; a failing handler yields HandlerFailure before the save; on success the stored entity's specification is handleInsert's output and exactly one CREATE event with the saved entity is appended; a failed emission leaves the handled entity saved (key appended to the listing) with no event; a failure emits nothing |
| `StreamBindings.UpdateStep` | core/src/main/java/com/expediagroup/streamplatform/streamregistry/core/services/StreamBindingService.java:56-64 | a missing key fails with a message naming the key and changes nothing; validator and handler receive the stored entity; success if and only if every stage accepts; a failing handler yields HandlerFailure before the save; on success the stored specification is handleUpdate's output, the listing is unchanged and exactly one UPDATE event is appended; a failed emission leaves the update saved with no event; a failure emits nothing |
| `StreamBindings.UpsertStep` | core/src/main/java/com/expediagroup/streamplatform/streamregistry/core/services/StreamBindingService.java:72-74 | upsert is create when read finds nothing under the key and update otherwise |
| `StreamBindings.ApplyAppendsOnSuccess` | core/src/main/java/com/expediagroup/streamplatform/streamregistry/core/services/StreamBindingService.java:47-90 | any call appends exactly one event when it succeeds (CREATE if it created the key, else UPDATE, carrying the saved entity) and none when it fails; delete never succeeds; no call removes a stored key |
| `StreamBindings.ApplyKeepsInvariant` | core/src/main/java/com/expediagroup/streamplatform/streamregistry/core/services/StreamBindingService.java:47-74 | every call keeps the repository well formed, every logged event about a stored key, and no key reported created twice |
| `StreamBindings.RunKeepsInvariant` | core/src/main/java/com/expediagroup/streamplatform/streamregistry/core/services/StreamBindingService.java:47-90 | any sequence of calls keeps that invariant |
| `StreamBindings.RunEmitsOncePerSuccess` | core/src/main/java/com/expediagroup/streamplatform/streamregistry/core/services/StreamBindingService.java:47-90 | over any sequence of calls the event log is append-only and grows by exactly the number of successful calls; stored keys are never removed |
| `StreamBindings.CreateTwiceOnEmptyRepository` | core/src/main/java/com/expediagroup/streamplatform/streamregistry/core/services/StreamBindingService.java:47-53 | on an empty repository a first create succeeds and is readable, a second create of the same key fails with AlreadyExists, and the log holds the single CREATE event |
| `StreamBindings.StreamBindingService.Save` | core/src/main/java/com/expediagroup/streamplatform/streamregistry/core/services/StreamBindingService.java:66-70 | the new repository, listing, event log and result are those SaveStep gives for the old state |
| `StreamBindings.StreamBindingService.Create` | core/src/main/java/com/expediagroup/streamplatform/streamregistry/core/services/StreamBindingService.java:47-54 | the new state, the caller's object after the call and the result are those CreateStep gives; the invariant is kept |
| `StreamBindings.StreamBindingService.Update` | core/src/main/java/com/expediagroup/streamplatform/streamregistry/core/services/StreamBindingService.java:56-64 | the new state, the caller's object after the call and the result are those UpdateStep gives; the invariant is kept |
| `StreamBindings.StreamBindingService.Upsert` | core/src/main/java/com/expediagroup/streamplatform/streamregistry/core/services/StreamBindingService.java:72-74 | the new state, the caller's object after the call and the result are those UpsertStep gives; the invariant is kept |
| `StreamBindings.StreamBindingService.Delete` | core/src/main/java/com/expediagroup/streamplatform/streamregistry/core/services/StreamBindingService.java:84-86 | delete always fails as unsupported and modifies nothing |
| `NotificationEvents.CanNotBeNull` | notification-support/src/main/java/com/expediagroup/streamplatform/streamregistry/core/events/NotificationEventUtils.java:110-112 | a null-check message is the target followed by " can not be null" |
| `NotificationEvents.NullTargetRoundTrip` | notification-support/src/main/java/com/expediagroup/streamplatform/streamregistry/core/events/NotificationEventUtils.java:110-112 | the target can be read back from its null-check message |
| `NotificationEvents.ValidateSchemaKey` | notification-support/src/main/java/com/expediagroup/streamplatform/streamregistry/core/events/NotificationEventUtils.java:94-99 | key validation passes if and only if the schema, its key, the key's name and the key's domain are all present; otherwise the message names the first null one in that order |
| `NotificationEvents.ValidateSchemaValue` | notification-support/src/main/java/com/expediagroup/streamplatform/streamregistry/core/events/NotificationEventUtils.java:101-108 | value validation passes if and only if the key fields, the specification, its description, tags, type and config JSON are all present; a key failure is reported first, exactly as key validation reports it; otherwise the message names the first null one of specification, description, tags, type, config JSON |
| `NotificationEvents.ValidationMessagesNameATarget` | notification-support/src/main/java/com/expediagroup/streamplatform/streamregistry/core/events/NotificationEventUtils.java:94-112 | every validation failure message has the "<target> can not be null" form |
| `NotificationEvents.ToAvroTag` | notification-support/src/main/java/com/expediagroup/streamplatform/streamregistry/core/events/NotificationEventUtils.java:87-92 | an encoded tag has the source tag's name and value |
| `NotificationEvents.ToAvroTags` | notification-support/src/main/java/com/expediagroup/streamplatform/streamregistry/core/events/NotificationEventUtils.java:59-63 | the encoded tag list has the same length as the spec's tags and element i carries tag i's name and value |
| `NotificationEvents.TagsRoundTrip` | notification-support/src/main/java/com/expediagroup/streamplatform/streamregistry/core/events/NotificationEventUtils.java:59-63 | decoding the encoded tags gives back the original list, so order and contents are preserved |
| `NotificationEvents.ToAvroKeyRecord` | notification-support/src/main/java/com/expediagroup/streamplatform/streamregistry/core/events/NotificationEventUtils.java:39-50 | succeeds if and only if the key fields are present, else fails with key validation's message; a key record has id = key name, no version, no parent, type SCHEMA |
| `NotificationEvents.ToAvroValueRecord` | notification-support/src/main/java/com/expediagroup/streamplatform/streamregistry/core/events/NotificationEventUtils.java:52-85 | succeeds if and only if all key and spec fields are present, else fails with value validation's message; a value record copies domain, name, description and type, carries the config JSON as configurationString, maps tags element-wise, and its statusString is absent exactly when there is no status or no status JSON and otherwise equals the status JSON |
| `NotificationEvents.ValueRecordAgreesWithKeyRecord` | notification-support/src/main/java/com/expediagroup/streamplatform/streamregistry/core/events/NotificationEventUtils.java:39-58 | a value record is built only when the key record is, both name the same schema, and a key failure makes both fail with the same message |
| `NotificationEvents.MissingDescriptionIsRejected` | notification-support/src/main/java/com/expediagroup/streamplatform/streamregistry/core/events/NotificationEventUtils.java:101-108 | a schema with a complete key but a null description is rejected with "spec's description can not be null" |

## Left out

- The validator, the handler and the notification emitter are collaborators,
  and their rules are not modelled. Each is an arbitrary function. The
  emitter's delivery and the encoding it performs are not linked to
  `NotificationEvents`.
- The key's `toString` is the collaborator `keyText`, because the key class
  is not part of this model. The fields of `StreamBindingKey` stand in for
  the key's identity.
- The repository is a map plus a listing order. It is assumed to store and
  return the entity unchanged, so `save` never returns null and create,
  update and upsert never yield an empty Optional. The JPA repository and its
  data converters are not part of this model.
- Repository order is modelled as insertion order: a new key goes last and an
  update keeps the key's position. The code passes on whatever order the
  repository's `findAll()` returns, and the JPA repository does not promise
  any particular order.
- Concurrency is not modelled. Calls are sequential, so the race between the
  existence check and the save does not arise.
- ApolloExecutor and its callback are not modelled. They turn asynchronous
  GraphQL callbacks into futures, and the GraphQL client is not part of this
  model.
- `loadToAvroStaticMethod` is not modelled. It looks up and invokes a method
  by reflection.
- The Avro builders' own null checks on tag names and values, and null
  elements inside the tag list, are not modelled. Tags are non-null strings
  here.
- The notification value record is modelled as carrying only its schema
  entity. The event's other entity slots stay unset in the source.
- Logging, Spring wiring and Lombok are not modelled.
