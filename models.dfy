/**
 * The rows the payload tracker reads and writes: payloads, the three
 * dimension tables (statuses, services, sources) and the payload-status
 * events that join them.
 */
module Models {

  datatype Option<+T> = None | Some(value: T)

  /**
   * A row of a dimension table (`models.Statuses`, `models.Services` or
   * `models.Sources`): a generated identifier and a name.
   */
  datatype Dimension = Dimension(id: nat, name: string)

  /** The Go zero value of a dimension row; a lookup of an unknown name yields it. */
  const ZeroDimension := Dimension(0, "")

  /** A row of the payloads table (`models.Payloads`); `requestId` is the unique external key. */
  datatype Payload = Payload(
    id: nat,
    requestId: string,
    account: string,
    orgId: string,
    inventoryId: string,
    systemId: string)

  /** The Go zero value of a payload row. */
  const ZeroPayload := Payload(0, "", "", "", "", "")

  /**
   * A payload-status event as handed to the writer (`models.PayloadStatuses`):
   * the foreign keys, the resolved `source` row that decides whether
   * `source_id` is written (and, when it is, supplies its value, since the
   * ORM takes a belongs-to key from the associated row), the event time and
   * the denormalised payload fields.
   */
  datatype PayloadStatus = PayloadStatus(
    payloadId: nat,
    statusId: nat,
    serviceId: nat,
    sourceId: nat,
    source: Dimension,
    date: nat,
    inventoryId: string,
    systemId: string,
    account: string,
    orgId: string)

  /** A stored payload-status row; `sourceId` is `None` when the column was left out of the insert. */
  datatype StatusRow = StatusRow(
    payloadId: nat,
    statusId: nat,
    serviceId: nat,
    sourceId: Option<nat>,
    date: nat,
    inventoryId: string,
    systemId: string,
    account: string,
    orgId: string)

  /** The store errors the modelled statements can report. */
  datatype DbError =
    | RecordNotFound       // `First` found no row
    | DuplicateKey         // a plain insert hit the unique `request_id` index
    | MissingWhereClause   // an update whose target has no primary key
    | ForeignKeyViolation  // an inserted payload-status row names a row that is not stored
}
