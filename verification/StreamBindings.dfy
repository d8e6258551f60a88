/**
 * The stream-binding lifecycle service: create, update and upsert run
 * existence check -> validation -> enrichment -> save -> notification over a
 * key-addressed repository, and read, exists and findAll look the repository up.
 *
 * The file has two layers. The specification layer describes one call as a
 * function from the service's state (repository contents, repository order and
 * the log of emitted events) to its outcome, and proves what the lifecycle
 * promises about it, also over whole sequences of calls. The class
 * StreamBindingService holds that state in fields and updates it in place; each
 * of its methods is proved to do exactly what the specification layer says.
 *
 * The validator, the handler, the notification emitter and the text form of a
 * key are collaborators whose rules are not part of this model: they are
 * arbitrary functions supplied when the service is built.
 */
module StreamBindings {
  import opened Wrappers
  import opened Model

  /** The identity of a stream binding: the stream it binds and the infrastructure it binds it to. */
  datatype StreamBindingKey = StreamBindingKey(
    streamDomain: string,
    streamName: string,
    streamVersion: int,
    infrastructureZone: string,
    infrastructureName: string)

  /** A stream binding as a value: what the repository stores and what events carry. */
  datatype BindingValue = BindingValue(key: StreamBindingKey, specification: Specification, status: Option<Status>)

  /** The kind of change a notification reports. */
  datatype EventType = CREATE | UPDATE

  /** A notification about a processed entity: the kind of change and the saved entity. */
  datatype Event = Event(eventType: EventType, entity: BindingValue)

  /** Why a lifecycle call failed. */
  datatype ServiceError =
    | ValidationFailure(message: string)    // a ValidationException: existence checks and the validator
    | HandlerFailure(message: string)       // the handler threw
    | NotificationFailure(message: string)  // the emitter threw, after the save
    | Unsupported                           // delete

  /**
   * The service's collaborators. A validator yields the reason it rejects its
   * input, or None; a handler yields the specification to store or fails; the
   * emitter yields the reason delivery failed, or None; keyText is the key's
   * text form used in messages.
   */
  datatype Collaborators = Collaborators(
    validateForCreate: BindingValue -> Option<string>,
    validateForUpdate: (BindingValue, BindingValue) -> Option<string>,
    handleInsert: BindingValue -> Result<Specification, string>,
    handleUpdate: (BindingValue, BindingValue) -> Result<Specification, string>,
    emit: Event -> Option<string>,
    keyText: StreamBindingKey -> string)

  /**
   * What the service's calls depend on and change: the repository's entries,
   * the order in which the repository lists them, and the emitted events.
   */
  datatype ServiceState = ServiceState(
    store: map<StreamBindingKey, BindingValue>,
    order: seq<StreamBindingKey>,
    events: seq<Event>)

  /**
   * The effect of one lifecycle call: the new state, the caller's entity after
   * the call (create and update overwrite its specification in place), and the result.
   */
  datatype Outcome = Outcome(state: ServiceState, argument: BindingValue, result: Result<BindingValue, ServiceError>)

  /** A call a client can make on the service. */
  datatype Call =
    | CreateCall(arg: BindingValue)
    | UpdateCall(arg: BindingValue)
    | UpsertCall(arg: BindingValue)
    | DeleteCall(arg: BindingValue)

  const AlreadyExists: string := "Can't create because it already exists"
  const UpdatePrefix: string := "Can't update "
  const UpdateSuffix: string := " because it doesn't exist"

  /** The message of an update on a key that is not stored; it contains the key's text. */
  function NotFoundMessage(keyText: string): (message: string)
    ensures |message| == |UpdatePrefix| + |keyText| + |UpdateSuffix|
    ensures message[..|UpdatePrefix|] == UpdatePrefix
    ensures message[|UpdatePrefix|..|UpdatePrefix| + |keyText|] == keyText
    ensures message[|UpdatePrefix| + |keyText|..] == UpdateSuffix
  {
    UpdatePrefix + keyText + UpdateSuffix
  }

  /** A state with an empty repository and no events. */
  function EmptyState(): ServiceState
  {
    ServiceState(map[], [], [])
  }

  // ---------------------------------------------------------------------------
  // Repository invariants
  // ---------------------------------------------------------------------------

  /**
   * The repository is consistent: it lists every stored key exactly once, and
   * every entry is stored under its own key.
   */
  ghost predicate WellFormed(s: ServiceState)
  {
    && (forall i, j :: 0 <= i < j < |s.order| ==> s.order[i] != s.order[j])
    && (forall k :: k in s.store <==> k in s.order)
    && (forall k :: k in s.store ==> s.store[k].key == k)
  }

  /** Every emitted event is about an entity the repository holds. */
  ghost predicate EventsReferToStored(s: ServiceState)
  {
    forall i :: 0 <= i < |s.events| ==> s.events[i].entity.key in s.store
  }

  /** No key has been reported as created twice. */
  ghost predicate CreatedOnce(s: ServiceState)
  {
    forall i, j ::
      0 <= i < j < |s.events| && s.events[i].eventType == CREATE && s.events[j].eventType == CREATE
      ==> s.events[i].entity.key != s.events[j].entity.key
  }

  /** The invariant every sequence of calls keeps. */
  ghost predicate Invariant(s: ServiceState)
  {
    WellFormed(s) && EventsReferToStored(s) && CreatedOnce(s)
  }

  // ---------------------------------------------------------------------------
  // Lookups: read, exists, findAll
  // ---------------------------------------------------------------------------

  /** The repository's findById: the entity stored under `key`, if any. */
  function Read(s: ServiceState, key: StreamBindingKey): (found: Option<BindingValue>)
    ensures found.Some? <==> key in s.store
    ensures found.Some? ==> found.value == s.store[key]
    ensures WellFormed(s) && found.Some? ==> found.value.key == key
  {
    if key in s.store then Some(s.store[key]) else None
  }

  /** Whether an entity is stored under `key`; holds exactly when Read finds one. */
  function Exists(s: ServiceState, key: StreamBindingKey): (present: bool)
    ensures present <==> Read(s, key).Some?
    ensures present <==> key in s.store
  {
    Read(s, key).Some?
  }

  /** The repository's findAll: the stored entities, in repository order. */
  function Listing(store: map<StreamBindingKey, BindingValue>, order: seq<StreamBindingKey>): (all: seq<BindingValue>)
    ensures |all| <= |order|
    ensures forall e :: e in all ==> e in store.Values
    ensures forall k :: k in order && k in store ==> store[k] in all
  {
    if order == [] then []
    else
      var first := if order[0] in store then [store[order[0]]] else [];
      first + Listing(store, order[1..])
  }

  /** `a` is `b` with some elements left out: same elements, same relative order. */
  predicate IsSubsequence<T(==)>(a: seq<T>, b: seq<T>)
    decreases |b|
  {
    && |a| <= |b|
    && (a == [] || (a[0] == b[0] && IsSubsequence(a[1..], b[1..])) || IsSubsequence(a, b[1..]))
  }

  /** The elements of `xs` that satisfy `p`, in order. */
  function Filter(p: BindingValue -> bool, xs: seq<BindingValue>): (kept: seq<BindingValue>)
    ensures forall x :: x in kept <==> x in xs && p(x)
    ensures forall x :: multiset(kept)[x] == if p(x) then multiset(xs)[x] else 0
    ensures IsSubsequence(kept, xs)
  {
    if xs == [] then []
    else
      assert xs == [xs[0]] + xs[1..];
      if p(xs[0]) then [xs[0]] + Filter(p, xs[1..])
      else Filter(p, xs[1..])
  }

  /**
   * findAll: exactly the stored entities that satisfy the filter, in the order
   * the repository lists them.
   */
  function FindAll(s: ServiceState, p: BindingValue -> bool): (found: seq<BindingValue>)
    requires WellFormed(s)
    ensures forall e :: e in found ==> e in s.store.Values && p(e)
    ensures forall k :: k in s.store && p(s.store[k]) ==> s.store[k] in found
    ensures IsSubsequence(found, Listing(s.store, s.order))
  {
    Filter(p, Listing(s.store, s.order))
  }

  // ---------------------------------------------------------------------------
  // One call, as a function of the state
  // ---------------------------------------------------------------------------

  /**
   * The private save: store the entity under its key (a new key goes to the
   * end of the repository order), then emit one event of the given type. If
   * the emitter fails the entity stays saved and no event is logged.
   */
  function SaveStep(s: ServiceState, entity: BindingValue, eventType: EventType, c: Collaborators)
    : (saved: (ServiceState, Result<BindingValue, ServiceError>))
    ensures saved.0.store == s.store[entity.key := entity]
    ensures saved.0.order == if entity.key in s.store then s.order else s.order + [entity.key]
    ensures saved.1.Success? <==> c.emit(Event(eventType, entity)).None?
    ensures saved.1.Success? ==> saved.1.value == entity && saved.0.events == s.events + [Event(eventType, entity)]
    ensures saved.1.Failure? ==> saved.0.events == s.events && saved.1.error.NotificationFailure?
    ensures WellFormed(s) ==> WellFormed(saved.0)
  {
    var order := if entity.key in s.store then s.order else s.order + [entity.key];
    var store := s.store[entity.key := entity];
    var event := Event(eventType, entity);
    match c.emit(event)
    case None => (ServiceState(store, order, s.events + [event]), Success(entity))
    case Some(reason) => (ServiceState(store, order, s.events), Failure(NotificationFailure(reason)))
  }

  /**
   * create: reject a key that is already stored, then validate, then replace
   * the specification with the handler's output and save with a CREATE event.
   */
  function CreateStep(s: ServiceState, arg: BindingValue, c: Collaborators): (o: Outcome)
    // A stored key is rejected before anything else; nothing changes.
    ensures arg.key in s.store ==> o == Outcome(s, arg, Failure(ValidationFailure(AlreadyExists)))
    // A rejecting validator stops the call before the handler and the save.
    ensures arg.key !in s.store && c.validateForCreate(arg).Some? ==>
      o == Outcome(s, arg, Failure(ValidationFailure(c.validateForCreate(arg).value)))
    // Success exactly when every stage accepts.
    ensures o.result.Success? <==>
      && arg.key !in s.store
      && c.validateForCreate(arg).None?
      && c.handleInsert(arg).Success?
      && c.emit(Event(CREATE, arg.(specification := c.handleInsert(arg).value))).None?
    // On success the handler's specification is stored and exactly one CREATE event is appended.
    ensures o.result.Success? ==>
      && o.result.value == arg.(specification := c.handleInsert(arg).value)
      && o.argument == o.result.value
      && o.state.store == s.store[arg.key := o.result.value]
      && o.state.events == s.events + [Event(CREATE, o.result.value)]
    // A failing handler stops the call before the save.
    ensures arg.key !in s.store && c.validateForCreate(arg).None? && c.handleInsert(arg).Failure? ==>
      o == Outcome(s, arg, Failure(HandlerFailure(c.handleInsert(arg).error)))
    // A failed notification leaves the entity saved (and the caller's object updated), with no event.
    ensures o.result.Failure? && o.result.error.NotificationFailure? ==>
      && arg.key !in s.store
      && o.argument == arg.(specification := c.handleInsert(arg).value)
      && o.state.store == s.store[arg.key := o.argument]
      && o.state.order == s.order + [arg.key]
      && c.emit(Event(CREATE, o.argument)) == Some(o.result.error.message)
    // A failed call emits nothing; only a failed notification leaves the save in place.
    ensures o.result.Failure? ==> o.state.events == s.events
    ensures o.result.Failure? && !o.result.error.NotificationFailure? ==> o.state == s && o.argument == arg
    ensures o.argument.key == arg.key && o.argument.status == arg.status
    ensures WellFormed(s) ==> WellFormed(o.state)
  {
    if Read(s, arg.key).Some? then Outcome(s, arg, Failure(ValidationFailure(AlreadyExists)))
    else match c.validateForCreate(arg)
      case Some(reason) => Outcome(s, arg, Failure(ValidationFailure(reason)))
      case None =>
        match c.handleInsert(arg)
        case Failure(reason) => Outcome(s, arg, Failure(HandlerFailure(reason)))
        case Success(spec) =>
          var handled := arg.(specification := spec);
          var saved := SaveStep(s, handled, CREATE, c);
          Outcome(saved.0, handled, saved.1)
  }

  /**
   * update: reject a key that is not stored, then validate against the stored
   * entity, then replace the specification with the handler's output for the
   * pair and save with an UPDATE event.
   */
  function UpdateStep(s: ServiceState, arg: BindingValue, c: Collaborators): (o: Outcome)
    // A missing key is rejected, with a message naming the key; nothing changes.
    ensures arg.key !in s.store ==>
      o == Outcome(s, arg, Failure(ValidationFailure(NotFoundMessage(c.keyText(arg.key)))))
    // The validator sees the stored entity; rejecting stops the call before the handler and the save.
    ensures arg.key in s.store && c.validateForUpdate(arg, s.store[arg.key]).Some? ==>
      o == Outcome(s, arg, Failure(ValidationFailure(c.validateForUpdate(arg, s.store[arg.key]).value)))
    // Success exactly when every stage accepts; the handler sees the stored entity.
    ensures o.result.Success? <==>
      && arg.key in s.store
      && c.validateForUpdate(arg, s.store[arg.key]).None?
      && c.handleUpdate(arg, s.store[arg.key]).Success?
      && c.emit(Event(UPDATE, arg.(specification := c.handleUpdate(arg, s.store[arg.key]).value))).None?
    // On success the handler's specification is stored and exactly one UPDATE event is appended.
    ensures o.result.Success? ==>
      && o.result.value == arg.(specification := c.handleUpdate(arg, s.store[arg.key]).value)
      && o.argument == o.result.value
      && o.state.store == s.store[arg.key := o.result.value]
      && o.state.order == s.order
      && o.state.events == s.events + [Event(UPDATE, o.result.value)]
    // A failing handler, given the stored entity, stops the call before the save.
    ensures (arg.key in s.store && c.validateForUpdate(arg, s.store[arg.key]).None?
             && c.handleUpdate(arg, s.store[arg.key]).Failure?) ==>
      o == Outcome(s, arg, Failure(HandlerFailure(c.handleUpdate(arg, s.store[arg.key]).error)))
    // A failed notification leaves the update saved (and the caller's object updated), with no event.
    ensures o.result.Failure? && o.result.error.NotificationFailure? ==>
      && arg.key in s.store
      && o.argument == arg.(specification := c.handleUpdate(arg, s.store[arg.key]).value)
      && o.state.store == s.store[arg.key := o.argument]
      && o.state.order == s.order
      && c.emit(Event(UPDATE, o.argument)) == Some(o.result.error.message)
    // A failed call emits nothing; only a failed notification leaves the save in place.
    ensures o.result.Failure? ==> o.state.events == s.events
    ensures o.result.Failure? && !o.result.error.NotificationFailure? ==> o.state == s && o.argument == arg
    ensures o.argument.key == arg.key && o.argument.status == arg.status
    ensures WellFormed(s) ==> WellFormed(o.state)
  {
    var existing := Read(s, arg.key);
    if existing.None? then Outcome(s, arg, Failure(ValidationFailure(NotFoundMessage(c.keyText(arg.key)))))
    else match c.validateForUpdate(arg, existing.value)
      case Some(reason) => Outcome(s, arg, Failure(ValidationFailure(reason)))
      case None =>
        match c.handleUpdate(arg, existing.value)
        case Failure(reason) => Outcome(s, arg, Failure(HandlerFailure(reason)))
        case Success(spec) =>
          var handled := arg.(specification := spec);
          var saved := SaveStep(s, handled, UPDATE, c);
          Outcome(saved.0, handled, saved.1)
  }

  /** upsert: create when Read finds nothing under the key, update otherwise. */
  function UpsertStep(s: ServiceState, arg: BindingValue, c: Collaborators): (o: Outcome)
    ensures Read(s, arg.key).None? ==> o == CreateStep(s, arg, c)
    ensures Read(s, arg.key).Some? ==> o == UpdateStep(s, arg, c)
  {
    if Read(s, arg.key).None? then CreateStep(s, arg, c) else UpdateStep(s, arg, c)
  }

  /** One call of any kind; delete always fails and changes nothing. */
  function Apply(s: ServiceState, call: Call, c: Collaborators): (o: Outcome)
  {
    match call
    case CreateCall(arg) => CreateStep(s, arg, c)
    case UpdateCall(arg) => UpdateStep(s, arg, c)
    case UpsertCall(arg) => UpsertStep(s, arg, c)
    case DeleteCall(arg) => Outcome(s, arg, Failure(Unsupported))
  }

  /** Whether a call, if it succeeds, reports a creation. */
  function CreatesOn(s: ServiceState, call: Call): bool
  {
    call.CreateCall? || (call.UpsertCall? && call.arg.key !in s.store)
  }

  /**
   * A call changes the event log only by appending exactly one event, for a
   * successful create or update: CREATE when the call created the key, UPDATE
   * otherwise, carrying the saved entity. Delete never succeeds, and no call
   * removes a stored key.
   */
  lemma ApplyAppendsOnSuccess(s: ServiceState, call: Call, c: Collaborators)
    ensures var o := Apply(s, call, c);
      && (o.result.Failure? ==> o.state.events == s.events)
      && (o.result.Success? ==>
            && !call.DeleteCall?
            && o.state.events == s.events + [Event(if CreatesOn(s, call) then CREATE else UPDATE, o.result.value)]
            && o.state.store == s.store[call.arg.key := o.result.value])
      && s.store.Keys <= o.state.store.Keys
  {
  }

  /** Every call keeps the invariant. */
  lemma ApplyKeepsInvariant(s: ServiceState, call: Call, c: Collaborators)
    requires Invariant(s)
    ensures Invariant(Apply(s, call, c).state)
  {
  }

  /** The state and the results after a sequence of calls, in order. */
  function Run(s: ServiceState, calls: seq<Call>, c: Collaborators)
    : (run: (ServiceState, seq<Result<BindingValue, ServiceError>>))
    ensures |run.1| == |calls|
    decreases |calls|
  {
    if calls == [] then (s, [])
    else
      var o := Apply(s, calls[0], c);
      var rest := Run(o.state, calls[1..], c);
      (rest.0, [o.result] + rest.1)
  }

  /** How many of the results are successes. */
  function Successes(results: seq<Result<BindingValue, ServiceError>>): (n: nat)
    ensures n <= |results|
  {
    if results == [] then 0
    else (if results[0].Success? then 1 else 0) + Successes(results[1..])
  }

  /** Any sequence of calls keeps the invariant: in particular no key is ever reported created twice. */
  lemma {:induction false} RunKeepsInvariant(s: ServiceState, calls: seq<Call>, c: Collaborators)
    requires Invariant(s)
    ensures Invariant(Run(s, calls, c).0)
    decreases |calls|
  {
    if calls != [] {
      ApplyKeepsInvariant(s, calls[0], c);
      RunKeepsInvariant(Apply(s, calls[0], c).state, calls[1..], c);
    }
  }

  /**
   * The event log is append-only and grows by exactly one event per successful
   * call; stored keys are never removed.
   */
  lemma {:induction false} RunEmitsOncePerSuccess(s: ServiceState, calls: seq<Call>, c: Collaborators)
    ensures var run := Run(s, calls, c);
      && |run.0.events| == |s.events| + Successes(run.1)
      && run.0.events[..|s.events|] == s.events
      && s.store.Keys <= run.0.store.Keys
    decreases |calls|
  {
    if calls != [] {
      var o := Apply(s, calls[0], c);
      ApplyAppendsOnSuccess(s, calls[0], c);
      RunEmitsOncePerSuccess(o.state, calls[1..], c);
      var run := Run(s, calls, c);
      var rest := Run(o.state, calls[1..], c);
      assert run.1 == [o.result] + rest.1;
      assert run.1[1..] == rest.1;
      assert run.0.events[..|o.state.events|] == o.state.events;
      assert o.state.events[..|s.events|] == s.events;
    }
  }

  /**
   * Creating the same binding twice on an empty repository: the first create
   * succeeds and stores it, the second fails with AlreadyExists, and the log
   * holds one CREATE event for the key.
   */
  lemma CreateTwiceOnEmptyRepository(e: BindingValue, c: Collaborators)
    requires c.validateForCreate(e).None? && c.handleInsert(e).Success?
    requires c.emit(Event(CREATE, e.(specification := c.handleInsert(e).value))).None?
    ensures var run := Run(EmptyState(), [CreateCall(e), CreateCall(e)], c);
      && run.1[0].Success?
      && Read(run.0, e.key) == Some(e.(specification := c.handleInsert(e).value))
      && run.1[1] == Failure(ValidationFailure(AlreadyExists))
      && run.0.events == [Event(CREATE, e.(specification := c.handleInsert(e).value))]
  {
    var first := CreateStep(EmptyState(), e, c);
    var second := CreateStep(first.state, e, c);
    assert [CreateCall(e), CreateCall(e)][1..] == [CreateCall(e)];
    assert [CreateCall(e)][1..] == [];
    assert Apply(first.state, CreateCall(e), c) == second;
    assert Run(first.state, [CreateCall(e)], c) == (second.state, [second.result] + []);
  }

  // ---------------------------------------------------------------------------
  // The service object
  // ---------------------------------------------------------------------------

  /** The caller's stream binding object; create and update overwrite its specification. */
  class StreamBinding {
    var key: StreamBindingKey
    var specification: Specification
    var status: Option<Status>

    constructor (key: StreamBindingKey, specification: Specification, status: Option<Status>)
      ensures Value() == BindingValue(key, specification, status)
    {
      this.key := key;
      this.specification := specification;
      this.status := status;
    }

    /** The object's current fields, as a value. */
    function Value(): BindingValue
      reads this
    {
      BindingValue(key, specification, status)
    }
  }

  /** The service: its collaborators, the repository it owns and the events it has emitted. */
  class StreamBindingService {
    const collaborators: Collaborators
    var store: map<StreamBindingKey, BindingValue>
    var order: seq<StreamBindingKey>
    var events: seq<Event>

    /** The fields, as a state of the specification layer. */
    function State(): ServiceState
      reads this
    {
      ServiceState(store, order, events)
    }

    ghost predicate Valid()
      reads this
    {
      Invariant(State())
    }

    /** A service over an existing repository, which may already hold bindings; no events yet. */
    constructor (collaborators: Collaborators, store0: map<StreamBindingKey, BindingValue>, order0: seq<StreamBindingKey>)
      requires WellFormed(ServiceState(store0, order0, []))
      ensures Valid() && this.collaborators == collaborators && State() == ServiceState(store0, order0, [])
    {
      this.collaborators := collaborators;
      store, order, events := store0, order0, [];
    }

    /** Saves the entity and emits one event of the given type. */
    method Save(entity: BindingValue, eventType: EventType) returns (r: Result<BindingValue, ServiceError>)
      requires WellFormed(State())
      modifies this
      ensures (State(), r) == SaveStep(old(State()), entity, eventType, collaborators)
    {
      if entity.key !in store {
        order := order + [entity.key];
      }
      store := store[entity.key := entity];
      var event := Event(eventType, entity);
      var failure := collaborators.emit(event);
      if failure.Some? {
        return Failure(NotificationFailure(failure.value));
      }
      events := events + [event];
      r := Success(entity);
    }

    method Create(binding: StreamBinding) returns (r: Result<BindingValue, ServiceError>)
      requires Valid()
      modifies this, binding
      ensures Valid()
      ensures Outcome(State(), binding.Value(), r) == CreateStep(old(State()), old(binding.Value()), collaborators)
    {
      ghost var s := State();
      if Read(State(), binding.key).Some? {
        return Failure(ValidationFailure(AlreadyExists));
      }
      var invalid := collaborators.validateForCreate(binding.Value());
      if invalid.Some? {
        return Failure(ValidationFailure(invalid.value));
      }
      var spec := collaborators.handleInsert(binding.Value());
      if spec.Failure? {
        return Failure(HandlerFailure(spec.error));
      }
      binding.specification := spec.value;
      r := Save(binding.Value(), CREATE);
      ApplyKeepsInvariant(s, CreateCall(old(binding.Value())), collaborators);
    }

    method Update(binding: StreamBinding) returns (r: Result<BindingValue, ServiceError>)
      requires Valid()
      modifies this, binding
      ensures Valid()
      ensures Outcome(State(), binding.Value(), r) == UpdateStep(old(State()), old(binding.Value()), collaborators)
    {
      ghost var s := State();
      var existing := Read(State(), binding.key);
      if existing.None? {
        return Failure(ValidationFailure(NotFoundMessage(collaborators.keyText(binding.key))));
      }
      var invalid := collaborators.validateForUpdate(binding.Value(), existing.value);
      if invalid.Some? {
        return Failure(ValidationFailure(invalid.value));
      }
      var spec := collaborators.handleUpdate(binding.Value(), existing.value);
      if spec.Failure? {
        return Failure(HandlerFailure(spec.error));
      }
      binding.specification := spec.value;
      r := Save(binding.Value(), UPDATE);
      ApplyKeepsInvariant(s, UpdateCall(old(binding.Value())), collaborators);
    }

    method Upsert(binding: StreamBinding) returns (r: Result<BindingValue, ServiceError>)
      requires Valid()
      modifies this, binding
      ensures Valid()
      ensures Outcome(State(), binding.Value(), r) == UpsertStep(old(State()), old(binding.Value()), collaborators)
    {
      if Read(State(), binding.key).None? {
        r := Create(binding);
      } else {
        r := Update(binding);
      }
    }

    /** delete is not supported: it always fails and changes nothing. */
    method Delete(binding: StreamBinding) returns (r: Result<BindingValue, ServiceError>)
      ensures r == Failure(Unsupported)
    {
      r := Failure(Unsupported);
    }
  }
}
