/** The current-state store: sessions become Bigtable row mutations, collected in a bulk
    mutation keyed by session id. The RPC that sends a bulk mutation is not modelled; the
    client's answer is supplied as a flag. */
module BigtableService {
  import opened Common
  import opened Constants
  import opened ConversionUtil
  import opened SessionModel

  const SESSION_TABLE: string := "session"

  datatype MutationOp = SetCell(family: string, qualifier: string, value: string) | DeleteRow

  /** A row mutation: the operations in the order they were added. */
  datatype Mutation = Mutation(ops: seq<MutationOp>)

  /** One entry of a bulk mutation. */
  datatype Entry = Entry(rowKey: string, mutation: Mutation)

  /** `Mutation.create()`. */
  function EmptyMutation(): Mutation {
    Mutation([])
  }

  /** `setNonNullCell`: a null value leaves the mutation as it was; otherwise one cell
      is set after the existing operations. */
  function SetNonNullCell(m: Mutation, family: string, column: string, value: Option<string>): (r: Mutation)
    ensures value.None? ==> r == m
    ensures value.Some? ==> r.ops == m.ops + [SetCell(family, column, value.value)]
  {
    match value
    case None => m
    case Some(v) => Mutation(m.ops + [SetCell(family, column, v)])
  }

  /** The cells the store keeps for a session, in the order they are set: status, the
      customer key if present, start, the end if present. */
  function SessionCells(d: SessionData): seq<MutationOp> {
    [SetCell(MAIN_FAMILY, STATUS_COLUMN, d.status.Name())]
    + (if d.customerKey.Some? then [SetCell(MAIN_FAMILY, CUSTOMER_KEY_COLUMN, d.customerKey.value)] else [])
    + [SetCell(MAIN_FAMILY, START_COLUMN, FormatTimestamp(d.start))]
    + (if d.end.Some? then [SetCell(MAIN_FAMILY, END_COLUMN, FormatTimestamp(d.end.value))] else [])
  }

  /** The upsert mutation of a session, built cell by cell as `addOrUpdateSession` does. */
  function UpsertMutation(d: SessionData): (m: Mutation)
    ensures m.ops == SessionCells(d)
  {
    var m := SetNonNullCell(EmptyMutation(), MAIN_FAMILY, STATUS_COLUMN, Some(d.status.Name()));
    var m := SetNonNullCell(m, MAIN_FAMILY, CUSTOMER_KEY_COLUMN, d.customerKey);
    var m := SetNonNullCell(m, MAIN_FAMILY, START_COLUMN, ConvertToTimestamp(Some(d.start)));
    SetNonNullCell(m, MAIN_FAMILY, END_COLUMN, ConvertToTimestamp(d.end))
  }

  /** `Mutation.create().deleteRow()`. */
  function DeleteMutation(): Mutation {
    Mutation([DeleteRow])
  }

  /** The current-state store and the change-event store agree on a session: every cell
      of its upsert is in family "main" and holds exactly the non-null value of the same
      column in its BigQuery row, and every non-null column but the id is a cell. */
  lemma UpsertAgreesWithRow(d: SessionData)
    ensures var ops, row := UpsertMutation(d).ops, ToBigQueryRow(d);
      (forall i :: 0 <= i < |ops| ==>
        ops[i].SetCell? && ops[i].family == MAIN_FAMILY &&
        ops[i].qualifier in row && row[ops[i].qualifier] == Text(ops[i].value)) &&
      (forall c :: c in row && c != SESSION_ID_COLUMN && row[c] != Null ==>
        exists i :: 0 <= i < |ops| && ops[i].qualifier == c)
  {
    var ops, row := UpsertMutation(d).ops, ToBigQueryRow(d);
    var s := if d.customerKey.Some? then 2 else 1;
    assert ops[0].qualifier == STATUS_COLUMN;
    assert ops[s].qualifier == START_COLUMN;
    if d.customerKey.Some? {
      assert ops[1].qualifier == CUSTOMER_KEY_COLUMN;
    }
    if d.end.Some? {
      assert ops[s + 1].qualifier == END_COLUMN;
    }
    RowShape(d);
  }

  /** `BulkMutation`: the table it targets and the entries added so far. */
  class BulkMutation {
    const tableId: string
    var entries: seq<Entry>

    constructor (tableId: string)
      ensures this.tableId == tableId && entries == []
    {
      this.tableId := tableId;
      entries := [];
    }

    /** `add(rowKey, mutation)`: appends one entry. */
    method Add(rowKey: string, mutation: Mutation)
      modifies this
      ensures entries == old(entries) + [Entry(rowKey, mutation)]
    {
      entries := entries + [Entry(rowKey, mutation)];
    }
  }

  class BigtableService {

    constructor ()
    {
    }

    /** A new, empty batch for the "session" table. */
    method CreateBulkMutationForSession() returns (bulk: BulkMutation)
      ensures fresh(bulk)
      ensures bulk.tableId == SESSION_TABLE && bulk.entries == []
    {
      bulk := new BulkMutation(SESSION_TABLE);
    }

    /** Appends one upsert entry keyed by the session id; earlier entries are kept. */
    method AddOrUpdateSession(bulk: BulkMutation, session: Session)
      modifies bulk
      ensures bulk.entries == old(bulk.entries) + [Entry(session.sessionId, UpsertMutation(session.Data()))]
    {
      var mutation := EmptyMutation();
      mutation := SetNonNullCell(mutation, MAIN_FAMILY, STATUS_COLUMN, Some(session.status.Name()));
      mutation := SetNonNullCell(mutation, MAIN_FAMILY, CUSTOMER_KEY_COLUMN, session.customerKey);
      mutation := SetNonNullCell(mutation, MAIN_FAMILY, START_COLUMN, ConvertToTimestamp(Some(session.start)));
      mutation := SetNonNullCell(mutation, MAIN_FAMILY, END_COLUMN, ConvertToTimestamp(session.end));
      bulk.Add(session.sessionId, mutation);
    }

    /** Appends one delete-row entry keyed by the session id; earlier entries are kept. */
    method DeleteSession(bulk: BulkMutation, session: Session)
      modifies bulk
      ensures bulk.entries == old(bulk.entries) + [Entry(session.sessionId, DeleteMutation())]
    {
      bulk.Add(session.sessionId, DeleteMutation());
    }
  }
}
