/**
 * The parts of the registry's domain model that the notification encoder and
 * the stream-binding service share. Every field the Java model allows to be
 * null is an Option here.
 */
module Model {
  import opened Wrappers

  /** A name/value tag attached to an entity's specification. */
  datatype Tag = Tag(name: string, value: string)

  /** An entity's specification: description, tags, type and JSON configuration. */
  datatype Specification = Specification(
    description: Option<string>,
    tags: Option<seq<Tag>>,
    specType: Option<string>,
    configJson: Option<string>)

  /** The last observed status of an entity, as JSON text. */
  datatype Status = Status(statusJson: Option<string>)
}
