/**
 * The relational store as the consumer's write path sees it, and the
 * statements of `internal/queries/queries_consumer.go` that read and change
 * it: the name lookup behind the direct resolver, the idempotent payload
 * upsert keyed on `request_id`, the column-level payload update, the plain
 * inserts, and the payload-status insert that may leave out `source_id`.
 *
 * Tables are values held in the fields of a `Database` object; the SQL the
 * ORM generates is modelled only by its effect on those values.
 */
module Store {
  import opened Models

  // ---------------------------------------------------------------------------
  // Dimension tables: rows in primary-key order
  // ---------------------------------------------------------------------------

  /**
   * `Where("name = ?", name).First(&row)`: the row with that name and the
   * lowest primary key, or the zero row when there is none (the lookup's
   * error is dropped, so the caller only sees the zero value).
   */
  function FindByName(table: seq<Dimension>, name: string): (r: Dimension)
    ensures r == ZeroDimension || (r in table && r.name == name)
    ensures (forall i | 0 <= i < |table| :: table[i].name != name) ==> r == ZeroDimension
  {
    if table == [] then ZeroDimension
    else if table[0].name == name then table[0]
    else FindByName(table[1..], name)
  }

  /** The lookup answers with the first row, in primary-key order, that carries the name. */
  lemma {:induction false} FindByNameIsFirst(table: seq<Dimension>, name: string, i: nat)
    requires i < |table| && table[i].name == name
    requires forall j | 0 <= j < i :: table[j].name != name
    ensures FindByName(table, name) == table[i]
  {
    if i > 0 {
      FindByNameIsFirst(table[1..], name, i - 1);
    }
  }

  /** Every row has a positive identifier below `next`, and identifiers grow along the table. */
  ghost predicate TableValid(table: seq<Dimension>, next: nat)
  {
    && next > 0
    && (forall i | 0 <= i < |table| :: 0 < table[i].id < next)
    && (forall i, j | 0 <= i < j < |table| :: table[i].id < table[j].id)
  }

  /**
   * In a table whose identifiers are all generated (positive), the zero row
   * comes back exactly when no row carries the name: "found an empty record"
   * cannot be confused with "not found".
   */
  lemma NotFoundIsZero(table: seq<Dimension>, next: nat, name: string)
    requires TableValid(table, next)
    ensures FindByName(table, name) == ZeroDimension <==> forall i | 0 <= i < |table| :: table[i].name != name
  {
  }

  /**
   * Appending a row never changes what an existing name resolves to (the
   * oldest row wins), and makes a name that was absent resolve to that row.
   */
  lemma {:induction false} FindAfterAppend(table: seq<Dimension>, row: Dimension, name: string)
    ensures FindByName(table + [row], name) ==
      if exists i | 0 <= i < |table| :: table[i].name == name then FindByName(table, name)
      else if row.name == name then row
      else ZeroDimension
  {
    if table == [] {
      assert [] + [row] == [row];
    } else {
      assert (table + [row])[0] == table[0];
      assert (table + [row])[1..] == table[1..] + [row];
      if table[0].name != name {
        FindAfterAppend(table[1..], row, name);
        if exists i | 0 <= i < |table| :: table[i].name == name {
          var i :| 0 <= i < |table| && table[i].name == name;
          assert table[1..][i - 1].name == name;
        }
        if exists i | 0 <= i < |table[1..]| :: table[1..][i].name == name {
          var i :| 0 <= i < |table[1..]| && table[1..][i].name == name;
          assert table[i + 1].name == name;
        }
      }
    }
  }

  // ---------------------------------------------------------------------------
  // Payload columns
  // ---------------------------------------------------------------------------

  /** The payload columns other than the key, in the order the upsert considers them. */
  const DataColumns: seq<string> := ["account", "org_id", "inventory_id", "system_id"]

  /** Every column an upsert may assign, in the order its update list is built. */
  const PayloadColumns: seq<string> := ["request_id"] + DataColumns

  /** The value of a named column of a payload row ("" for a name that is not a column). */
  function Column(p: Payload, c: string): string
  {
    if c == "request_id" then p.requestId
    else if c == "account" then p.account
    else if c == "org_id" then p.orgId
    else if c == "inventory_id" then p.inventoryId
    else if c == "system_id" then p.systemId
    else ""
  }

  /** The position of a column in `PayloadColumns` (its length for a name that is not a column). */
  function ColumnIndex(c: string): nat
  {
    if c == "request_id" then 0
    else if c == "account" then 1
    else if c == "org_id" then 2
    else if c == "inventory_id" then 3
    else if c == "system_id" then 4
    else 5
  }

  /** `SET c = v` on one row. */
  function WithColumn(p: Payload, c: string, v: string): Payload
  {
    if c == "request_id" then p.(requestId := v)
    else if c == "account" then p.(account := v)
    else if c == "org_id" then p.(orgId := v)
    else if c == "inventory_id" then p.(inventoryId := v)
    else if c == "system_id" then p.(systemId := v)
    else p
  }

  /** The row after `SET c = incoming.c` for each listed column `c`, left to right. */
  function Assign(row: Payload, incoming: Payload, cols: seq<string>): Payload
    decreases |cols|
  {
    if cols == [] then row
    else Assign(WithColumn(row, cols[0], Column(incoming, cols[0])), incoming, cols[1..])
  }

  /**
   * Assigning a column list copies exactly the listed columns from the
   * incoming row and keeps every other column and the primary key.
   */
  lemma {:induction false} AssignCopiesListedColumns(row: Payload, incoming: Payload, cols: seq<string>)
    ensures Assign(row, incoming, cols).id == row.id
    ensures forall c :: Column(Assign(row, incoming, cols), c) == if c in cols then Column(incoming, c) else Column(row, c)
    decreases |cols|
  {
    if cols != [] {
      var next := WithColumn(row, cols[0], Column(incoming, cols[0]));
      AssignCopiesListedColumns(next, incoming, cols[1..]);
      forall c
        ensures Column(Assign(row, incoming, cols), c) == if c in cols then Column(incoming, c) else Column(row, c)
      {
        assert c in cols <==> c == cols[0] || c in cols[1..];
      }
    }
  }

  /** Keep the stored value unless the incoming one is non-empty. */
  function Pick(incoming: string, stored: string): string
  {
    if incoming != "" then incoming else stored
  }

  /**
   * The row an upsert leaves behind when `request_id` already exists: the
   * stored identifier, the incoming key, and each data field replaced only by
   * a non-empty incoming value.
   */
  function Merged(stored: Payload, incoming: Payload): (r: Payload)
    ensures r.id == stored.id && r.requestId == incoming.requestId
    ensures forall c | c in DataColumns :: Column(incoming, c) != "" ==> Column(r, c) == Column(incoming, c)
    ensures forall c | c in DataColumns :: Column(incoming, c) == "" ==> Column(r, c) == Column(stored, c)
  {
    Payload(stored.id, incoming.requestId,
            Pick(incoming.account, stored.account), Pick(incoming.orgId, stored.orgId),
            Pick(incoming.inventoryId, stored.inventoryId), Pick(incoming.systemId, stored.systemId))
  }

  /** A non-empty stored field is never cleared by an upsert, and merging the same input twice changes nothing more. */
  lemma MergedNeverClears(stored: Payload, incoming: Payload)
    ensures forall c | c in DataColumns :: Column(stored, c) != "" ==> Column(Merged(stored, incoming), c) != ""
    ensures Merged(Merged(stored, incoming), incoming) == Merged(stored, incoming)
  {
  }

  /**
   * The upsert's update list: `request_id` first, then each data column
   * whose incoming value is non-empty, in table order and without repeats.
   */
  method ColumnsToUpdate(payload: Payload) returns (cols: seq<string>)
    ensures 1 <= |cols| <= |PayloadColumns| && cols[0] == "request_id"
    ensures "account" in cols <==> payload.account != ""
    ensures "org_id" in cols <==> payload.orgId != ""
    ensures "inventory_id" in cols <==> payload.inventoryId != ""
    ensures "system_id" in cols <==> payload.systemId != ""
    ensures forall c | c in cols :: c in PayloadColumns
    ensures forall i, j | 0 <= i < j < |cols| :: ColumnIndex(cols[i]) < ColumnIndex(cols[j])
  {
    cols := ["request_id"];
    if payload.account != "" {
      cols := cols + ["account"];
    }
    if payload.orgId != "" {
      cols := cols + ["org_id"];
    }
    if payload.inventoryId != "" {
      cols := cols + ["inventory_id"];
    }
    if payload.systemId != "" {
      cols := cols + ["system_id"];
    }
  }

  /**
   * Assigning an update list built as `ColumnsToUpdate` builds it gives
   * exactly the merge: empty incoming fields never overwrite stored ones.
   */
  lemma UpdateListAssignsMerge(stored: Payload, incoming: Payload, cols: seq<string>)
    requires "request_id" in cols
    requires "account" in cols <==> incoming.account != ""
    requires "org_id" in cols <==> incoming.orgId != ""
    requires "inventory_id" in cols <==> incoming.inventoryId != ""
    requires "system_id" in cols <==> incoming.systemId != ""
    ensures Assign(stored, incoming, cols) == Merged(stored, incoming)
  {
    AssignCopiesListedColumns(stored, incoming, cols);
    var r := Assign(stored, incoming, cols);
    assert r.requestId == Column(r, "request_id");
    assert r.account == Column(r, "account");
    assert r.orgId == Column(r, "org_id");
    assert r.inventoryId == Column(r, "inventory_id");
    assert r.systemId == Column(r, "system_id");
  }

  /**
   * The columns `Updates` writes from a struct: its non-empty data fields.
   * `request_id` and the primary key are omitted by the caller.
   */
  function UpdateColumns(updates: Payload): (cols: seq<string>)
    ensures "request_id" !in cols
    ensures forall c | c in cols :: c in DataColumns
    ensures forall c | c in DataColumns :: c in cols <==> Column(updates, c) != ""
  {
    (if updates.account != "" then ["account"] else [])
    + (if updates.orgId != "" then ["org_id"] else [])
    + (if updates.inventoryId != "" then ["inventory_id"] else [])
    + (if updates.systemId != "" then ["system_id"] else [])
  }

  /** The row `UpdatePayloadsTable` leaves behind. */
  function Updated(row: Payload, updates: Payload): Payload
  {
    Assign(row, updates, UpdateColumns(updates))
  }

  /**
   * A column-level update never changes `request_id` or the primary key,
   * and replaces a data field only by a non-empty value.
   */
  lemma UpdatedKeepsKeys(row: Payload, updates: Payload)
    ensures Updated(row, updates).id == row.id
    ensures Updated(row, updates).requestId == row.requestId
    ensures Updated(row, updates) == Merged(row, updates.(requestId := row.requestId))
  {
    var cols := UpdateColumns(updates);
    assert "account" in DataColumns && "org_id" in DataColumns;
    assert "inventory_id" in DataColumns && "system_id" in DataColumns;
    NonKeyListAssignsMerge(row, updates, cols);
  }

  /** Assigning a list of exactly the non-empty data columns, without the key, merges them into the row. */
  lemma NonKeyListAssignsMerge(row: Payload, updates: Payload, cols: seq<string>)
    requires "request_id" !in cols
    requires "account" in cols <==> updates.account != ""
    requires "org_id" in cols <==> updates.orgId != ""
    requires "inventory_id" in cols <==> updates.inventoryId != ""
    requires "system_id" in cols <==> updates.systemId != ""
    ensures Assign(row, updates, cols) == Merged(row, updates.(requestId := row.requestId))
  {
    AssignCopiesListedColumns(row, updates, cols);
    var r := Assign(row, updates, cols);
    assert r.requestId == Column(r, "request_id");
    assert r.account == Column(r, "account");
    assert r.orgId == Column(r, "org_id");
    assert r.inventoryId == Column(r, "inventory_id");
    assert r.systemId == Column(r, "system_id");
  }

  // ---------------------------------------------------------------------------
  // Payload-status rows
  // ---------------------------------------------------------------------------

  /**
   * The row `InsertPayloadStatus` writes: `source_id` is left out exactly when
   * the event's resolved source is the zero row; otherwise the ORM's
   * belongs-to save takes it from the source row's identifier. Every other
   * column is copied.
   */
  function WrittenRow(ps: PayloadStatus): (r: StatusRow)
    ensures r.sourceId == None <==> ps.source == ZeroDimension
    ensures r.sourceId != None ==> r.sourceId == Some(ps.source.id)
    ensures r.payloadId == ps.payloadId && r.statusId == ps.statusId && r.serviceId == ps.serviceId
    ensures r.date == ps.date && r.account == ps.account && r.orgId == ps.orgId
    ensures r.inventoryId == ps.inventoryId && r.systemId == ps.systemId
  {
    StatusRow(ps.payloadId, ps.statusId, ps.serviceId,
              if ps.source == ZeroDimension then None else Some(ps.source.id),
              ps.date, ps.inventoryId, ps.systemId, ps.account, ps.orgId)
  }

  /** Some row of the dimension table has the identifier. */
  predicate IdStored(table: seq<Dimension>, id: nat)
  {
    exists i | 0 <= i < |table| :: table[i].id == id
  }

  /** Some stored payload has the identifier. */
  predicate PayloadIdStored(payloads: map<string, Payload>, id: nat)
  {
    exists k | k in payloads :: payloads[k].id == id
  }

  /** The row's source reference is absent or names a stored source. */
  predicate SourceReferenceValid(sources: seq<Dimension>, r: StatusRow)
  {
    r.sourceId == None || IdStored(sources, r.sourceId.value)
  }

  /** The foreign keys of a payload-status row: each written reference names a stored row. */
  predicate ReferencesStored(payloads: map<string, Payload>, statuses: seq<Dimension>, services: seq<Dimension>,
                             sources: seq<Dimension>, r: StatusRow)
  {
    && PayloadIdStored(payloads, r.payloadId)
    && IdStored(statuses, r.statusId)
    && IdStored(services, r.serviceId)
    && SourceReferenceValid(sources, r)
  }

  /**
   * Leaving `source_id` out for an unresolved source means the written row
   * never carries a dangling source reference when the resolved source is a
   * stored row.
   */
  lemma WrittenSourceNeverDangles(sources: seq<Dimension>, ps: PayloadStatus)
    requires ps.source != ZeroDimension ==> ps.source in sources
    ensures SourceReferenceValid(sources, WrittenRow(ps))
  {
    if ps.source != ZeroDimension {
      var i :| 0 <= i < |sources| && sources[i] == ps.source;
      assert sources[i].id == WrittenRow(ps).sourceId.value;
    }
  }

  /**
   * Why `source_id` is left out rather than written as the zero row's
   * identifier: in a table of generated identifiers no source has id 0, so
   * such a row would break the foreign key.
   */
  lemma ZeroSourceIdWouldDangle(sources: seq<Dimension>, next: nat, r: StatusRow)
    requires TableValid(sources, next) && r.sourceId == Some(ZeroDimension.id)
    ensures !SourceReferenceValid(sources, r)
  {
  }

  /**
   * An event whose payload is stored and whose status, service and source
   * come from the resolver (stored rows, or the zero source) is accepted by
   * every foreign key.
   */
  lemma ResolvedEventIsAccepted(payloads: map<string, Payload>, statuses: seq<Dimension>, services: seq<Dimension>,
                                sources: seq<Dimension>, ps: PayloadStatus, requestId: string, status: Dimension, service: Dimension)
    requires requestId in payloads && ps.payloadId == payloads[requestId].id
    requires status in statuses && ps.statusId == status.id
    requires service in services && ps.serviceId == service.id
    requires ps.source != ZeroDimension ==> ps.source in sources
    ensures ReferencesStored(payloads, statuses, services, sources, WrittenRow(ps))
  {
    WrittenSourceNeverDangles(sources, ps);
    var i :| 0 <= i < |statuses| && statuses[i] == status;
    var j :| 0 <= j < |services| && services[j] == service;
    assert statuses[i].id == WrittenRow(ps).statusId;
    assert services[j].id == WrittenRow(ps).serviceId;
  }

  // ---------------------------------------------------------------------------
  // The store
  // ---------------------------------------------------------------------------

  /** Each payload is stored under its own request id, with a positive identifier below `next`, no two alike. */
  ghost predicate PayloadsValid(payloads: map<string, Payload>, next: nat)
  {
    && next > 0
    && (forall k | k in payloads :: payloads[k].requestId == k && 0 < payloads[k].id < next)
    && (forall k, k' | k in payloads && k' in payloads && k != k' :: payloads[k].id != payloads[k'].id)
  }

  /** The payloads after updating the row with the given primary key; keys, identifiers and request ids stay as they were. */
  function UpdateWhereId(payloads: map<string, Payload>, updates: Payload, id: nat): (r: map<string, Payload>)
    ensures r.Keys == payloads.Keys
    ensures forall k | k in r :: r[k].id == payloads[k].id && r[k].requestId == payloads[k].requestId
    ensures forall k | k in r :: r[k] == if payloads[k].id == id then Updated(payloads[k], updates) else payloads[k]
  {
    var r := map k | k in payloads :: if payloads[k].id == id then Updated(payloads[k], updates) else payloads[k];
    assert forall k | k in r :: r[k].id == payloads[k].id && r[k].requestId == payloads[k].requestId by {
      forall k | k in r
        ensures r[k].id == payloads[k].id && r[k].requestId == payloads[k].requestId
      {
        UpdatedKeepsKeys(payloads[k], updates);
      }
    }
    r
  }

  class Database {
    var payloads: map<string, Payload>
    var statuses: seq<Dimension>
    var services: seq<Dimension>
    var sources: seq<Dimension>
    var payloadStatuses: seq<StatusRow>
    // next generated identifier of each table
    var nextPayloadId: nat
    var nextStatusId: nat
    var nextServiceId: nat
    var nextSourceId: nat

    ghost predicate Valid()
      reads this
    {
      && PayloadsValid(payloads, nextPayloadId)
      && TableValid(statuses, nextStatusId)
      && TableValid(services, nextServiceId)
      && TableValid(sources, nextSourceId)
    }

    /** An empty store. */
    constructor ()
      ensures Valid()
      ensures payloads == map[] && statuses == [] && services == [] && sources == [] && payloadStatuses == []
    {
      payloads, statuses, services, sources, payloadStatuses := map[], [], [], [], [];
      nextPayloadId, nextStatusId, nextServiceId, nextSourceId := 1, 1, 1, 1;
    }

    /** `GetPayloadByRequestId`: the stored row with that request id, or the zero row and a not-found error. */
    function GetPayloadByRequestId(requestId: string): (r: (Payload, Option<DbError>))
      reads this
      requires Valid()
      ensures r.1 == None <==> requestId in payloads
      ensures r.1 == None ==> r.0 in payloads.Values && r.0.requestId == requestId && r.0.id > 0
      ensures r.1 != None ==> r.0 == ZeroPayload && r.1 == Some(RecordNotFound)
    {
      if requestId in payloads then (payloads[requestId], None) else (ZeroPayload, Some(RecordNotFound))
    }

    /**
     * `UpsertPayloadByRequestId`: insert the payload, or on a conflict on
     * its `request_id` assign only the columns of its update list, and return
     * the row's identifier in both cases. The conflict key is the payload's
     * own `requestId`; the `requestId` parameter is not consulted.
     */
    method UpsertPayloadByRequestId(requestId: string, payload: Payload) returns (payloadId: nat)
      requires Valid()
      modifies this`payloads, this`nextPayloadId
      ensures Valid()
      ensures payload.requestId in payloads && payloads[payload.requestId].id == payloadId && payloadId > 0
      ensures payload.requestId !in old(payloads) ==>
        && payloadId == old(nextPayloadId) && nextPayloadId == old(nextPayloadId) + 1
        && payloads == old(payloads)[payload.requestId := payload.(id := payloadId)]
      ensures payload.requestId in old(payloads) ==>
        && payloadId == old(payloads)[payload.requestId].id
        && payloads == old(payloads)[payload.requestId := Merged(old(payloads)[payload.requestId], payload)]
        && nextPayloadId == old(nextPayloadId)
    {
      var cols := ColumnsToUpdate(payload);
      var key := payload.requestId;
      if key in payloads {
        var stored := payloads[key];
        UpdateListAssignsMerge(stored, payload, cols);
        var row := Assign(stored, payload, cols);
        payloads := payloads[key := row];
        payloadId := row.id;
      } else {
        payloadId := nextPayloadId;
        payloads := payloads[key := payload.(id := payloadId)];
        nextPayloadId := nextPayloadId + 1;
      }
    }

    /**
     * `UpdatePayloadsTable`: update the row whose primary key is the
     * target's, writing the non-empty fields of `updates` but never
     * `request_id` or the primary key. With nothing to write no statement is
     * issued and nothing is reported; otherwise a target without a primary key
     * is refused and nothing changes.
     */
    method UpdatePayloadsTable(updates: Payload, target: Payload) returns (err: Option<DbError>)
      requires Valid()
      modifies this`payloads
      ensures Valid()
      ensures err == if target.id == 0 && UpdateColumns(updates) != [] then Some(MissingWhereClause) else None
      ensures payloads.Keys == old(payloads).Keys
      ensures forall k | k in payloads :: payloads[k].id == old(payloads)[k].id && payloads[k].requestId == old(payloads)[k].requestId
      ensures forall k | k in payloads ::
        payloads[k] == if err == None && old(payloads)[k].id == target.id then Updated(old(payloads)[k], updates) else old(payloads)[k]
    {
      if UpdateColumns(updates) == [] {
        err := None;
        return;
      }
      if target.id == 0 {
        err := Some(MissingWhereClause);
        return;
      }
      err := None;
      payloads := UpdateWhereId(payloads, updates, target.id);
    }

    /** `CreatePayloadTableEntry`: a plain insert, refused by the unique `request_id` index when the key exists. */
    method CreatePayloadTableEntry(newPayload: Payload) returns (err: Option<DbError>, payload: Payload)
      requires Valid()
      modifies this`payloads, this`nextPayloadId
      ensures Valid()
      ensures newPayload.requestId in old(payloads) ==>
        && err == Some(DuplicateKey) && payload == newPayload
        && payloads == old(payloads) && nextPayloadId == old(nextPayloadId)
      ensures newPayload.requestId !in old(payloads) ==>
        && err == None && payload == newPayload.(id := old(nextPayloadId)) && payload.id > 0
        && payloads == old(payloads)[newPayload.requestId := payload]
        && nextPayloadId == old(nextPayloadId) + 1
    {
      if newPayload.requestId in payloads {
        err, payload := Some(DuplicateKey), newPayload;
      } else {
        err, payload := None, newPayload.(id := nextPayloadId);
        payloads := payloads[newPayload.requestId := payload];
        nextPayloadId := nextPayloadId + 1;
      }
    }

    /** `CreateStatusTableEntry`: a plain insert of a new status row under a generated identifier. */
    method CreateStatusTableEntry(name: string) returns (status: Dimension)
      requires Valid()
      modifies this`statuses, this`nextStatusId
      ensures Valid()
      ensures status.name == name && status.id == old(nextStatusId) && status.id > 0
      ensures statuses == old(statuses) + [status] && nextStatusId == old(nextStatusId) + 1
    {
      status := Dimension(nextStatusId, name);
      statuses := statuses + [status];
      nextStatusId := nextStatusId + 1;
    }

    /** `CreateServiceTableEntry`: a plain insert of a new service row under a generated identifier. */
    method CreateServiceTableEntry(name: string) returns (service: Dimension)
      requires Valid()
      modifies this`services, this`nextServiceId
      ensures Valid()
      ensures service.name == name && service.id == old(nextServiceId) && service.id > 0
      ensures services == old(services) + [service] && nextServiceId == old(nextServiceId) + 1
    {
      service := Dimension(nextServiceId, name);
      services := services + [service];
      nextServiceId := nextServiceId + 1;
    }

    /** `CreateSourceTableEntry`: a plain insert of a new source row under a generated identifier. */
    method CreateSourceTableEntry(name: string) returns (source: Dimension)
      requires Valid()
      modifies this`sources, this`nextSourceId
      ensures Valid()
      ensures source.name == name && source.id == old(nextSourceId) && source.id > 0
      ensures sources == old(sources) + [source] && nextSourceId == old(nextSourceId) + 1
    {
      source := Dimension(nextSourceId, name);
      sources := sources + [source];
      nextSourceId := nextSourceId + 1;
    }

    /**
     * `InsertPayloadStatus`: append the event's row, leaving `source_id` out
     * when its source is the zero row. A row whose written references do not
     * all name stored rows is refused by the foreign keys and nothing changes.
     */
    method InsertPayloadStatus(payloadStatus: PayloadStatus) returns (err: Option<DbError>)
      requires Valid()
      modifies this`payloadStatuses
      ensures Valid()
      ensures var row := WrittenRow(payloadStatus);
        err == if ReferencesStored(payloads, statuses, services, sources, row) then None else Some(ForeignKeyViolation)
      ensures payloadStatuses == if err == None then old(payloadStatuses) + [WrittenRow(payloadStatus)] else old(payloadStatuses)
    {
      var row := WrittenRow(payloadStatus);
      if ReferencesStored(payloads, statuses, services, sources, row) {
        payloadStatuses := payloadStatuses + [row];
        err := None;
      } else {
        err := Some(ForeignKeyViolation);
      }
    }
  }

  /** Two upserts of one request id, the second with an empty account, leave the first account in place. */
  method UpsertKeepsAccount()
  {
    var db := new Database();
    var first := db.UpsertPayloadByRequestId("rid", Payload(0, "rid", "A", "", "", ""));
    var second := db.UpsertPayloadByRequestId("rid", Payload(0, "rid", "", "", "", ""));
    assert second == first;
    assert db.payloads["rid"].account == "A";
  }
}
