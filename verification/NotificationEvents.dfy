/**
 * The encoder that turns a Schema entity into the key and value records of a
 * notification event. Each encoder first checks that the fields it reads are
 * not null, in a fixed order, and fails with "<target> can not be null" for the
 * first one that is; only then does it build the record, copying fields one by
 * one. The Avro builders are modelled as datatype constructors.
 */
module NotificationEvents {
  import opened Wrappers
  import opened Model

  /** A schema's identity: its domain and its name. */
  datatype SchemaKey = SchemaKey(domain: Option<string>, name: Option<string>)

  /** The Schema entity as the encoder receives it; every reference may be null. */
  datatype Schema = Schema(key: Option<SchemaKey>, specification: Option<Specification>, status: Option<Status>)

  /** The kind of entity a notification key refers to. */
  datatype AvroKeyType =
    | DOMAIN | SCHEMA | STREAM | ZONE | INFRASTRUCTURE
    | PRODUCER | CONSUMER | STREAM_BINDING | PRODUCER_BINDING | CONSUMER_BINDING

  /** The key record of a notification. */
  datatype AvroKey = AvroKey(id: string, version: Option<string>, parent: Option<AvroKey>, keyType: AvroKeyType)

  /** A tag as it appears in a notification record. */
  datatype AvroTag = AvroTag(name: string, value: string)

  /** The schema payload of a notification's value record. */
  datatype AvroSchema = AvroSchema(
    domain: string,
    name: string,
    description: string,
    tags: seq<AvroTag>,
    schemaType: string,
    configurationString: string,
    statusString: Option<string>)

  /** The value record of a notification, carrying a schema entity. */
  datatype AvroEvent = AvroEvent(schemaEntity: AvroSchema)

  // ---------------------------------------------------------------------------
  // Failure messages
  // ---------------------------------------------------------------------------

  const NullSuffix: string := " can not be null"

  /** The message of a failed null check on `target`: the target followed by " can not be null". */
  function CanNotBeNull(target: string): (message: string)
    ensures |message| == |target| + |NullSuffix|
    ensures message[..|target|] == target && message[|target|..] == NullSuffix
  {
    target + NullSuffix
  }

  /** Recovers the target named by a null-check message, if the message has that form. */
  function NullTarget(message: string): (target: Option<string>)
    ensures target.Some? ==> message == target.value + NullSuffix
  {
    if |message| >= |NullSuffix| && message[|message| - |NullSuffix|..] == NullSuffix
    then Some(message[..|message| - |NullSuffix|])
    else None
  }

  /** Every null-check message names its target, and the target can be read back from it. */
  lemma NullTargetRoundTrip(target: string)
    ensures NullTarget(CanNotBeNull(target)) == Some(target)
  {
  }

  /** The messages the key validation can fail with, one per field it checks. */
  const KeyMessages: set<string> := {
    CanNotBeNull("schema"), CanNotBeNull("schema key"),
    CanNotBeNull("key's name"), CanNotBeNull("key's domain")
  }

  /** The further messages the value validation can fail with. */
  const SpecMessages: set<string> := {
    CanNotBeNull("schema spec"), CanNotBeNull("spec's description"), CanNotBeNull("spec's tags"),
    CanNotBeNull("spec's type"), CanNotBeNull("spec's config json")
  }

  // ---------------------------------------------------------------------------
  // Validation
  // ---------------------------------------------------------------------------

  /** The fields a key record is built from are all present. */
  predicate HasKeyFields(schema: Option<Schema>)
  {
    && schema.Some?
    && schema.value.key.Some?
    && schema.value.key.value.name.Some?
    && schema.value.key.value.domain.Some?
  }

  /** The fields a value record is built from are all present. */
  predicate HasValueFields(schema: Option<Schema>)
  {
    && HasKeyFields(schema)
    && schema.value.specification.Some?
    && schema.value.specification.value.description.Some?
    && schema.value.specification.value.tags.Some?
    && schema.value.specification.value.specType.Some?
    && schema.value.specification.value.configJson.Some?
  }

  /**
   * The key null checks, in this order: the schema, its key, the key's name,
   * the key's domain. Yields the message naming the first null field.
   */
  function ValidateSchemaKey(schema: Option<Schema>): (violation: Option<string>)
    ensures violation.None? <==> HasKeyFields(schema)
    ensures violation.Some? ==> violation.value in KeyMessages
    ensures schema.None? ==> violation == Some(CanNotBeNull("schema"))
    ensures schema.Some? && schema.value.key.None? ==> violation == Some(CanNotBeNull("schema key"))
    ensures schema.Some? && schema.value.key.Some? && schema.value.key.value.name.None? ==>
      violation == Some(CanNotBeNull("key's name"))
    ensures (schema.Some? && schema.value.key.Some? && schema.value.key.value.name.Some?
             && schema.value.key.value.domain.None?) ==>
      violation == Some(CanNotBeNull("key's domain"))
  {
    if schema.None? then Some(CanNotBeNull("schema"))
    else if schema.value.key.None? then Some(CanNotBeNull("schema key"))
    else if schema.value.key.value.name.None? then Some(CanNotBeNull("key's name"))
    else if schema.value.key.value.domain.None? then Some(CanNotBeNull("key's domain"))
    else None
  }

  /**
   * The value null checks: the key checks first, then the specification, its
   * description, tags, type and configuration JSON.
   */
  function ValidateSchemaValue(schema: Option<Schema>): (violation: Option<string>)
    ensures violation.None? <==> HasValueFields(schema)
    ensures violation.Some? ==> violation.value in KeyMessages + SpecMessages
    ensures !HasKeyFields(schema) ==> violation == ValidateSchemaKey(schema)
    ensures HasKeyFields(schema) && schema.value.specification.None? ==>
      violation == Some(CanNotBeNull("schema spec"))
    ensures HasKeyFields(schema) && schema.value.specification.Some? ==>
      var spec := schema.value.specification.value;
      && (spec.description.None? ==> violation == Some(CanNotBeNull("spec's description")))
      && (spec.description.Some? && spec.tags.None? ==> violation == Some(CanNotBeNull("spec's tags")))
      && (spec.description.Some? && spec.tags.Some? && spec.specType.None? ==>
            violation == Some(CanNotBeNull("spec's type")))
      && (spec.description.Some? && spec.tags.Some? && spec.specType.Some? && spec.configJson.None? ==>
            violation == Some(CanNotBeNull("spec's config json")))
  {
    var keyViolation := ValidateSchemaKey(schema);
    if keyViolation.Some? then keyViolation
    else
      var spec := schema.value.specification;
      if spec.None? then Some(CanNotBeNull("schema spec"))
      else if spec.value.description.None? then Some(CanNotBeNull("spec's description"))
      else if spec.value.tags.None? then Some(CanNotBeNull("spec's tags"))
      else if spec.value.specType.None? then Some(CanNotBeNull("spec's type"))
      else if spec.value.configJson.None? then Some(CanNotBeNull("spec's config json"))
      else None
  }

  /** Every message either validation can produce has the "<target> can not be null" form. */
  lemma ValidationMessagesNameATarget(schema: Option<Schema>)
    ensures ValidateSchemaValue(schema).Some? ==> NullTarget(ValidateSchemaValue(schema).value).Some?
    ensures ValidateSchemaKey(schema).Some? ==> NullTarget(ValidateSchemaKey(schema).value).Some?
  {
  }

  // ---------------------------------------------------------------------------
  // Encoding
  // ---------------------------------------------------------------------------

  /** One tag, field by field. */
  function ToAvroTag(tag: Tag): (encoded: AvroTag)
    ensures encoded.name == tag.name && encoded.value == tag.value
  {
    AvroTag(tag.name, tag.value)
  }

  /** The inverse of ToAvroTag. */
  function FromAvroTag(encoded: AvroTag): (tag: Tag)
    ensures ToAvroTag(tag) == encoded
  {
    Tag(encoded.name, encoded.value)
  }

  /** The specification's tags, encoded element-wise, in order. */
  function ToAvroTags(tags: seq<Tag>): (encoded: seq<AvroTag>)
    ensures |encoded| == |tags|
    ensures forall i :: 0 <= i < |tags| ==> encoded[i].name == tags[i].name && encoded[i].value == tags[i].value
  {
    if tags == [] then [] else [ToAvroTag(tags[0])] + ToAvroTags(tags[1..])
  }

  /** Decoding the encoded tag list gives back the original tags, in the same order. */
  lemma {:induction false} TagsRoundTrip(tags: seq<Tag>)
    ensures FromAvroTags(ToAvroTags(tags)) == tags
  {
    if tags != [] {
      TagsRoundTrip(tags[1..]);
      assert ToAvroTags(tags)[1..] == ToAvroTags(tags[1..]);
    }
  }

  /** Decodes a list of encoded tags, element by element. */
  function FromAvroTags(encoded: seq<AvroTag>): (tags: seq<Tag>)
    ensures |tags| == |encoded|
  {
    if encoded == [] then [] else [FromAvroTag(encoded[0])] + FromAvroTags(encoded[1..])
  }

  /**
   * The key record of a schema notification: the key's name as id, no version,
   * no parent, type SCHEMA; or the first key null-check failure.
   */
  function ToAvroKeyRecord(schema: Option<Schema>): (r: Result<AvroKey, string>)
    ensures r.Success? <==> HasKeyFields(schema)
    ensures r.Failure? ==> r.error in KeyMessages && Some(r.error) == ValidateSchemaKey(schema)
    ensures r.Success? ==>
      && r.value.id == schema.value.key.value.name.value
      && r.value.version.None?
      && r.value.parent.None?
      && r.value.keyType == SCHEMA
  {
    var violation := ValidateSchemaKey(schema);
    if violation.Some? then Failure(violation.value)
    else
      var name := schema.value.key.value.name.value;
      Success(AvroKey(name, None, None, SCHEMA))
  }

  /**
   * The value record of a schema notification, or the first value null-check
   * failure, in which case no record is built.
   */
  function ToAvroValueRecord(schema: Option<Schema>): (r: Result<AvroEvent, string>)
    ensures r.Success? <==> HasValueFields(schema)
    ensures r.Failure? ==> r.error in KeyMessages + SpecMessages && Some(r.error) == ValidateSchemaValue(schema)
    ensures r.Success? ==>
      var s := schema.value;
      var spec := s.specification.value;
      var e := r.value.schemaEntity;
      && e.domain == s.key.value.domain.value
      && e.name == s.key.value.name.value
      && e.description == spec.description.value
      && |e.tags| == |spec.tags.value|
      && (forall i :: 0 <= i < |e.tags| ==>
            e.tags[i].name == spec.tags.value[i].name && e.tags[i].value == spec.tags.value[i].value)
      && e.schemaType == spec.specType.value
      && e.configurationString == spec.configJson.value
      && (e.statusString.None? <==> s.status.None? || s.status.value.statusJson.None?)
      && (s.status.Some? ==> e.statusString == s.status.value.statusJson)
  {
    var violation := ValidateSchemaValue(schema);
    if violation.Some? then Failure(violation.value)
    else
      var s := schema.value;
      var spec := s.specification.value;
      var statusJson := if s.status.Some? then s.status.value.statusJson else None;
      var entity := AvroSchema(
        s.key.value.domain.value,
        s.key.value.name.value,
        spec.description.value,
        ToAvroTags(spec.tags.value),
        spec.specType.value,
        spec.configJson.value,
        statusJson);
      Success(AvroEvent(entity))
  }

  /**
   * The two records of one notification agree: a value record is only built
   * when the key record is, both name the same schema, and a key failure is
   * reported by both encoders with the same message.
   */
  lemma ValueRecordAgreesWithKeyRecord(schema: Option<Schema>)
    ensures ToAvroValueRecord(schema).Success? ==>
      && ToAvroKeyRecord(schema).Success?
      && ToAvroKeyRecord(schema).value.id == ToAvroValueRecord(schema).value.schemaEntity.name
    ensures ToAvroKeyRecord(schema).Failure? ==>
      ToAvroValueRecord(schema) == Failure(ToAvroKeyRecord(schema).error)
  {
  }

  /** A schema whose key is complete but whose description is null is rejected for the description. */
  lemma MissingDescriptionIsRejected(schema: Option<Schema>)
    requires HasKeyFields(schema)
    requires schema.value.specification.Some? && schema.value.specification.value.description.None?
    ensures ToAvroValueRecord(schema) == Failure("spec's description can not be null")
  {
    assert CanNotBeNull("spec's description") == "spec's description can not be null";
  }
}
