/**
 * The audit framework's event records, as the handler receives and returns
 * them. Timestamps are opaque instants (milliseconds), not calendar values.
 */
module Events {
  import opened Lang

  /** One named, typed value carried by an event; the order of fields matters. */
  datatype Field = Field(name: string, fieldType: string, value: string)

  datatype AuditEvent = AuditEvent(
    uuid: Long,
    timestamp: int,
    actor: JString,
    origin: JString,
    action: JString,
    fields: seq<Field>,
    repository: JString)
}
