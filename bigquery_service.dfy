/** The change-event store: rows tagged with an operation code and a sequence number,
    the one-off backfill that emits `INSERT ... UNNEST([...])` statements, and the error
    check on the streaming insert's response. Network calls are not modelled: queries
    are returned instead of sent, and the insert response is supplied. */
module BigQueryService {
  import opened Common
  import opened Constants
  import opened ConversionUtil
  import opened BigQueryStruct
  import opened SessionModel

  const DI_SEQUENCE_COLUMN: string := "di_sequence_number"
  const DI_OPERATION_COLUMN: string := "di_operation_type"

  const INSERT_OP: string := "I"
  const UPDATE_OP: string := "U"
  const DELETE_OP: string := "D"

  datatype TableId = TableId(project: string, dataset: string, table: string)

  /** The row `addRowWithOperation` sends: the two change-event columns put on top of
      the session row. */
  function TaggedRow(row: Row, operation: string, sequence: int): Row {
    row[DI_OPERATION_COLUMN := Text(operation)][DI_SEQUENCE_COLUMN := Integer(sequence)]
  }

  /** Tagging adds (or overwrites) exactly the two change-event columns; every other
      column keeps its value. */
  lemma TaggedRowChangesOnlyTags(row: Row, operation: string, sequence: int)
    ensures var tagged := TaggedRow(row, operation, sequence);
      tagged.Keys == row.Keys + {DI_OPERATION_COLUMN, DI_SEQUENCE_COLUMN} &&
      tagged[DI_OPERATION_COLUMN] == Text(operation) &&
      tagged[DI_SEQUENCE_COLUMN] == Integer(sequence) &&
      forall c :: c in row && c != DI_OPERATION_COLUMN && c != DI_SEQUENCE_COLUMN ==> tagged[c] == row[c]
  {
  }

  /** `InsertAllRequest.Builder`: the target table and the rows added so far. */
  class InsertAllRequestBuilder {
    const tableId: TableId
    var rows: seq<Row>

    constructor (tableId: TableId)
      ensures this.tableId == tableId && rows == []
    {
      this.tableId := tableId;
      rows := [];
    }

    /** `addRow(row)`: appends one row. */
    method AddRow(row: Row)
      modifies this
      ensures rows == old(rows) + [row]
    {
      rows := rows + [row];
    }
  }

  /** What `insertAll` answered: the per-row errors it reported, if any. */
  datatype InsertAllResponse = InsertAllResponse(insertErrors: seq<string>) {
    predicate HasErrors() {
      |insertErrors| > 0
    }
  }

  /** `runInsertAll` either logs the number of rows inserted or throws with the errors. */
  datatype InsertOutcome = Inserted(rowCount: nat) | InsertFailed(errors: seq<string>)

  // ----- the backfill statements -----

  /** The STRUCT constant of a fresh session created with the given id and clock reading. */
  function NewSessionStruct(seed: (string, Instant)): string {
    StructConstant(StructFields(NewSession(seed.0, seed.1)))
  }

  /** A fresh session renders with its id, status NEW and its start, and nothing else. */
  lemma NewSessionStructText(seed: (string, Instant))
    ensures NewSessionStruct(seed) ==
      "STRUCT(" + (
        (StringLiteral(Some(seed.0)) + " as " + SESSION_ID_COLUMN) + "," +
        ("'NEW'" + " as " + STATUS_COLUMN) + "," +
        (TimestampLiteral(seed.1) + " as " + START_COLUMN)) + ")"
  {
    var items := NewSessionItems(seed);
    JoinThree(",", items);
    NewLiteral();
  }

  /** The `value as name` items of a fresh session's struct. */
  function NewSessionItems(seed: (string, Instant)): (items: seq<string>)
    ensures items == FieldItems(StructFields(NewSession(seed.0, seed.1)))
  {
    [StringLiteral(Some(seed.0)) + " as " + SESSION_ID_COLUMN,
     StringLiteral(Some("NEW")) + " as " + STATUS_COLUMN,
     TimestampLiteral(seed.1) + " as " + START_COLUMN]
  }

  lemma NewLiteral()
    ensures StringLiteral(Some("NEW")) == "'NEW'"
  {
    EscapeNoQuotes("NEW", 0);
    assert "NEW"[..0] == [];
  }

  lemma JoinThree(sep: string, parts: seq<string>)
    requires |parts| == 3
    ensures Join(sep, parts) == parts[0] + sep + parts[1] + sep + parts[2]
  {
    var front := parts[..2];
    assert front[..1] == [parts[0]];
    assert Join(sep, front) == parts[0] + sep + parts[1];
    assert Join(sep, parts) == Join(sep, front) + sep + parts[2];
  }

  function Prefix(tableId: TableId): string {
    "INSERT INTO `" + tableId.project + "." + tableId.dataset + "." + tableId.table + "` SELECT * FROM UNNEST(["
  }

  /** One backfill statement: the structs, comma separated, inside `UNNEST([...])`. */
  function InsertQuery(tableId: TableId, structs: seq<string>): string {
    Prefix(tableId) + Join(",", structs) + "])"
  }

  /** The structs of the fresh sessions created from the given seeds, in order. */
  function NewSessionStructs(seeds: seq<(string, Instant)>): (structs: seq<string>)
    ensures |structs| == |seeds|
  {
    seq(|seeds|, i requires 0 <= i < |seeds| => NewSessionStruct(seeds[i]))
  }

  /** The sizes of the successive batches: `min(batchSize, remaining)` while records remain. */
  function BatchSizes(recordCount: int, batchSize: int): seq<int>
    requires batchSize > 0 || recordCount <= 0
    decreases recordCount
  {
    if recordCount <= 0 then [] else [Min(batchSize, recordCount)] + BatchSizes(recordCount - batchSize, batchSize)
  }

  function Sum(s: seq<int>): int {
    if s == [] then 0 else s[0] + Sum(s[1..])
  }

  lemma NewSessionStructsAppend(batch: seq<(string, Instant)>, i: nat)
    requires i < |batch|
    ensures NewSessionStructs(batch[..i + 1]) == NewSessionStructs(batch[..i]) + [NewSessionStruct(batch[i])]
  {
    assert batch[..i + 1] == batch[..i] + [batch[i]];
  }

  /** How `doBatchInserts` splits the seeds: while records remain, the next
      min(batchSize, remaining) seeds form one batch. */
  function Batches(recordCount: int, batchSize: int, seeds: seq<(string, Instant)>): seq<seq<(string, Instant)>>
    requires batchSize > 0 || recordCount <= 0
    requires recordCount <= |seeds|
    decreases recordCount
  {
    if recordCount <= 0 then []
    else
      var n := Min(batchSize, recordCount);
      [seeds[..n]] + Batches(recordCount - batchSize, batchSize, seeds[n..])
  }

  /** The statements `doBatchInserts` issues: one per batch, each session created from
      the next seed. */
  function BackfillQueries(tableId: TableId, recordCount: int, batchSize: int, seeds: seq<(string, Instant)>): seq<string>
    requires batchSize > 0 || recordCount <= 0
    requires recordCount <= |seeds|
  {
    QueriesOf(tableId, Batches(recordCount, batchSize, seeds))
  }

  /** One statement per batch, in batch order. */
  function QueriesOf(tableId: TableId, batches: seq<seq<(string, Instant)>>): (queries: seq<string>)
    ensures |queries| == |batches|
  {
    seq(|batches|, i requires 0 <= i < |batches| => InsertQuery(tableId, NewSessionStructs(batches[i])))
  }

  lemma QueriesOfAppend(tableId: TableId, batches: seq<seq<(string, Instant)>>, batch: seq<(string, Instant)>)
    ensures QueriesOf(tableId, batches + [batch]) == QueriesOf(tableId, batches) + [InsertQuery(tableId, NewSessionStructs(batch))]
  {
    var l, r := QueriesOf(tableId, batches + [batch]), QueriesOf(tableId, batches) + [InsertQuery(tableId, NewSessionStructs(batch))];
    forall k | 0 <= k < |l| ensures l[k] == r[k] {
      if k < |batches| {
        assert (batches + [batch])[k] == batches[k];
      }
    }
  }

  /** Taking the next batch off the seeds not used yet. */
  lemma BatchesStep(remaining: int, batchSize: int, seeds: seq<(string, Instant)>, used: nat)
    requires remaining > 0 && batchSize > 0
    requires used + remaining <= |seeds|
    ensures var n := Min(batchSize, remaining);
      Batches(remaining, batchSize, seeds[used..])
        == [seeds[used..][..n]] + Batches(remaining - batchSize, batchSize, seeds[used + n..])
  {
    assert seeds[used..][Min(batchSize, remaining)..] == seeds[used + Min(batchSize, remaining)..];
  }

  /** With a positive batch size the number of batches n is ceil(recordCount / batchSize),
      that is (n - 1) * batchSize < recordCount <= n * batchSize; batch i holds
      min(batchSize, recordCount - i * batchSize) records, and together they hold
      recordCount records. No batch at all when recordCount <= 0. */
  lemma {:induction false} BatchSizesShape(recordCount: int, batchSize: int)
    requires batchSize > 0 || recordCount <= 0
    decreases recordCount
    ensures recordCount <= 0 ==> BatchSizes(recordCount, batchSize) == []
    ensures recordCount > 0 ==>
      (|BatchSizes(recordCount, batchSize)| - 1) * batchSize < recordCount <= |BatchSizes(recordCount, batchSize)| * batchSize
    ensures forall i :: 0 <= i < |BatchSizes(recordCount, batchSize)| ==>
      BatchSizes(recordCount, batchSize)[i] == Min(batchSize, recordCount - i * batchSize)
    ensures Sum(BatchSizes(recordCount, batchSize)) == if recordCount > 0 then recordCount else 0
  {
    if recordCount > 0 {
      var rest := recordCount - batchSize;
      var sizes := BatchSizes(recordCount, batchSize);
      var n := |sizes|;
      BatchSizesShape(rest, batchSize);
      assert n * batchSize == (n - 1) * batchSize + batchSize;
      assert (n - 1) * batchSize == (n - 2) * batchSize + batchSize;
      forall i | 0 <= i < n ensures sizes[i] == Min(batchSize, recordCount - i * batchSize) {
        if i > 0 {
          assert sizes[i] == BatchSizes(rest, batchSize)[i - 1];
          assert i * batchSize == (i - 1) * batchSize + batchSize;
        }
      }
    }
  }

  /** One batch per batch size. */
  lemma {:induction false} BatchesLength(recordCount: int, batchSize: int, seeds: seq<(string, Instant)>)
    requires batchSize > 0 || recordCount <= 0
    requires recordCount <= |seeds|
    decreases recordCount
    ensures |Batches(recordCount, batchSize, seeds)| == |BatchSizes(recordCount, batchSize)|
  {
    if recordCount > 0 {
      BatchesLength(recordCount - batchSize, batchSize, seeds[Min(batchSize, recordCount)..]);
    }
  }

  /** Batch i is exactly the BatchSizes(...)[i] seeds that follow those taken by the
      earlier batches. */
  lemma {:induction false} BatchAt(recordCount: int, batchSize: int, seeds: seq<(string, Instant)>, i: nat)
    requires batchSize > 0 || recordCount <= 0
    requires recordCount <= |seeds|
    requires i < |BatchSizes(recordCount, batchSize)|
    decreases recordCount
    ensures var sizes := BatchSizes(recordCount, batchSize);
      0 <= Sum(sizes[..i]) <= Sum(sizes[..i]) + sizes[i] <= |seeds| &&
      i < |Batches(recordCount, batchSize, seeds)| &&
      Batches(recordCount, batchSize, seeds)[i] == seeds[Sum(sizes[..i]) .. Sum(sizes[..i]) + sizes[i]]
  {
    BatchesLength(recordCount, batchSize, seeds);
    var sizes := BatchSizes(recordCount, batchSize);
    var batches := Batches(recordCount, batchSize, seeds);
    var n := Min(batchSize, recordCount);
    var rest := recordCount - batchSize;
    if i == 0 {
      assert sizes[..0] == [];
    } else {
      var sizes' := BatchSizes(rest, batchSize);
      assert sizes == [n] + sizes';
      BatchAt(rest, batchSize, seeds[n..], i - 1);
      var off', k := Sum(sizes'[..i - 1]), sizes'[i - 1];
      assert sizes[..i] == [n] + sizes'[..i - 1];
      assert Sum(sizes[..i]) == n + off';
      SliceOfSuffix(seeds, n, off', k);
      assert batches[i] == Batches(rest, batchSize, seeds[n..])[i - 1];
    }
  }

  /** The batches use the first recordCount seeds, each exactly once and in order. */
  lemma {:induction false} BatchesCoverSeeds(recordCount: int, batchSize: int, seeds: seq<(string, Instant)>)
    requires batchSize > 0 || recordCount <= 0
    requires recordCount <= |seeds|
    decreases recordCount
    ensures Flatten(Batches(recordCount, batchSize, seeds)) == seeds[..if recordCount > 0 then recordCount else 0]
  {
    if recordCount > 0 {
      var n := Min(batchSize, recordCount);
      var rest := recordCount - batchSize;
      BatchesCoverSeeds(rest, batchSize, seeds[n..]);
      var batches := Batches(recordCount, batchSize, seeds);
      assert batches[1..] == Batches(rest, batchSize, seeds[n..]);
      if rest > 0 {
        assert seeds[..n] + seeds[n..][..rest] == seeds[..recordCount];
      } else {
        assert n == recordCount;
        assert seeds[..n] + [] == seeds[..recordCount];
      }
    }
  }

  function Flatten<T>(parts: seq<seq<T>>): seq<T> {
    if parts == [] then [] else parts[0] + Flatten(parts[1..])
  }

  /** Statement i of the backfill holds the structs of exactly the seeds of batch i. */
  lemma BackfillQueryAt(tableId: TableId, recordCount: int, batchSize: int, seeds: seq<(string, Instant)>, i: nat)
    requires batchSize > 0 || recordCount <= 0
    requires recordCount <= |seeds|
    requires i < |BatchSizes(recordCount, batchSize)|
    ensures var sizes := BatchSizes(recordCount, batchSize);
      0 <= Sum(sizes[..i]) <= Sum(sizes[..i]) + sizes[i] <= |seeds| &&
      i < |BackfillQueries(tableId, recordCount, batchSize, seeds)| &&
      BackfillQueries(tableId, recordCount, batchSize, seeds)[i] ==
        InsertQuery(tableId, NewSessionStructs(seeds[Sum(sizes[..i]) .. Sum(sizes[..i]) + sizes[i]]))
  {
    BatchAt(recordCount, batchSize, seeds, i);
  }

  /** The statement count is the number of batches. */
  lemma BackfillQueriesLength(tableId: TableId, recordCount: int, batchSize: int, seeds: seq<(string, Instant)>)
    requires batchSize > 0 || recordCount <= 0
    requires recordCount <= |seeds|
    ensures |BackfillQueries(tableId, recordCount, batchSize, seeds)| == |BatchSizes(recordCount, batchSize)|
  {
    BatchesLength(recordCount, batchSize, seeds);
  }

  lemma SliceOfSuffix<T>(s: seq<T>, n: nat, lo: nat, k: nat)
    requires n + lo + k <= |s|
    ensures s[n..][lo .. lo + k] == s[n + lo .. n + lo + k]
  {
  }

  /** One round of the statement loop appends the next seed's struct, after a comma
      unless it is the first. */
  lemma AppendStruct(prefix: string, batch: seq<(string, Instant)>, i: nat, before: string)
    requires i < |batch| && before == prefix + Join(",", NewSessionStructs(batch[..i]))
    ensures (if i > 0 then before + "," else before) + NewSessionStruct(batch[i])
      == prefix + Join(",", NewSessionStructs(batch[..i + 1]))
  {
    JoinAppend(",", NewSessionStructs(batch[..i]), NewSessionStruct(batch[i]));
    NewSessionStructsAppend(batch, i);
  }

  /** One round of the backfill loop: the statement for the next batch extends the
      statements so far, and the batches still to come start after it. */
  lemma BackfillStep(tableId: TableId, recordCount: int, batchSize: int, seeds: seq<(string, Instant)>,
                     done: seq<seq<(string, Instant)>>, remaining: int, used: nat, query: string)
    requires remaining > 0 && batchSize > 0 && used + remaining <= |seeds|
    requires recordCount <= |seeds|
    requires done + Batches(remaining, batchSize, seeds[used..]) == Batches(recordCount, batchSize, seeds)
    requires query == InsertQuery(tableId, NewSessionStructs(seeds[used..][..Min(batchSize, remaining)]))
    ensures var n := Min(batchSize, remaining);
      (done + [seeds[used..][..n]]) + Batches(remaining - batchSize, batchSize, seeds[used + n..])
        == Batches(recordCount, batchSize, seeds) &&
      QueriesOf(tableId, done + [seeds[used..][..n]]) == QueriesOf(tableId, done) + [query]
  {
    var n := Min(batchSize, remaining);
    BatchesStep(remaining, batchSize, seeds, used);
    QueriesOfAppend(tableId, done, seeds[used..][..n]);
    ConcatAssoc(done, [seeds[used..][..n]], Batches(remaining - batchSize, batchSize, seeds[used + n..]));
  }

  class BigQueryService {
    /** The last sequence number handed out; the first row gets 1. */
    var insertSequence: nat

    constructor ()
      ensures insertSequence == 0
    {
      insertSequence := 0;
    }

    /** Adds a row marking an INSERT in the source table. */
    method AddInsertRow(builder: InsertAllRequestBuilder, row: Row)
      requires insertSequence < INT32_MAX
      modifies this, builder
      ensures insertSequence == old(insertSequence) + 1
      ensures builder.rows == old(builder.rows) + [TaggedRow(row, INSERT_OP, insertSequence)]
    {
      AddRowWithOperation(builder, row, INSERT_OP);
    }

    /** Adds a row marking an UPDATE in the source table. */
    method AddUpdateRow(builder: InsertAllRequestBuilder, row: Row)
      requires insertSequence < INT32_MAX
      modifies this, builder
      ensures insertSequence == old(insertSequence) + 1
      ensures builder.rows == old(builder.rows) + [TaggedRow(row, UPDATE_OP, insertSequence)]
    {
      AddRowWithOperation(builder, row, UPDATE_OP);
    }

    /** Adds a row marking a DELETE in the source table. */
    method AddDeleteRow(builder: InsertAllRequestBuilder, row: Row)
      requires insertSequence < INT32_MAX
      modifies this, builder
      ensures insertSequence == old(insertSequence) + 1
      ensures builder.rows == old(builder.rows) + [TaggedRow(row, DELETE_OP, insertSequence)]
    {
      AddRowWithOperation(builder, row, DELETE_OP);
    }

    /** Tags the row with the operation and the next sequence number (previous + 1) and
        appends it to the request. The counter stays within a Java int. */
    method AddRowWithOperation(builder: InsertAllRequestBuilder, row: Row, operation: string)
      requires insertSequence < INT32_MAX
      modifies this, builder
      ensures insertSequence == old(insertSequence) + 1
      ensures builder.rows == old(builder.rows) + [TaggedRow(row, operation, insertSequence)]
    {
      var tagged := row[DI_OPERATION_COLUMN := Text(operation)];
      insertSequence := insertSequence + 1;
      tagged := tagged[DI_SEQUENCE_COLUMN := Integer(insertSequence)];
      builder.AddRow(tagged);
    }

    /** Builds the backfill statements: while records remain, one statement holding
        min(batchSize, remaining) fresh sessions. Each fresh session takes the next seed
        (its UUID and clock reading). Records remaining with a batch size of zero never
        terminate in the source; with a negative one the source sends empty statements until
        `recordCount -= batchSize` wraps past the 32-bit maximum. Neither is modelled: the
        batch size must be positive whenever records remain. */
    method DoBatchInserts(tableId: TableId, recordCount: int, batchSize: int, seeds: seq<(string, Instant)>)
      returns (queries: seq<string>)
      requires batchSize > 0 || recordCount <= 0
      requires recordCount <= |seeds|
      ensures queries == BackfillQueries(tableId, recordCount, batchSize, seeds)
    {
      queries := [];
      var remaining := recordCount;
      var used := 0;
      ghost var done: seq<seq<(string, Instant)>> := [];
      while remaining > 0
        invariant 0 <= used <= |seeds|
        invariant remaining <= |seeds| - used
        invariant done + Batches(remaining, batchSize, seeds[used..]) == Batches(recordCount, batchSize, seeds)
        invariant queries == QueriesOf(tableId, done)
        decreases remaining
      {
        var nextBatchSize := Min(batchSize, remaining);
        var query := BatchQuery(tableId, seeds, used, nextBatchSize);
        BackfillStep(tableId, recordCount, batchSize, seeds, done, remaining, used, query);
        queries := queries + [query];
        done := done + [seeds[used..][..nextBatchSize]];
        used := used + nextBatchSize;
        remaining := remaining - batchSize;
      }
    }

    /** The inner loop of `doBatchInserts`: one statement whose UNNEST list holds a
        fresh session for each of the n seeds from position `from` on, comma separated. */
    method BatchQuery(tableId: TableId, seeds: seq<(string, Instant)>, from: nat, n: nat) returns (query: string)
      requires from + n <= |seeds|
      ensures query == InsertQuery(tableId, NewSessionStructs(seeds[from..][..n]))
    {
      query := Prefix(tableId);
      ghost var batch := seeds[from..][..n];
      var i := 0;
      while i < n
        invariant 0 <= i <= n
        invariant query == Prefix(tableId) + Join(",", NewSessionStructs(batch[..i]))
      {
        var session := new Session(seeds[from + i].0, seeds[from + i].1);
        var struct := session.ToBigQueryStruct();
        ghost var before := query;
        if i > 0 {
          query := query + ",";
        }
        var constant := struct.ToStructConstant();
        assert batch[i] == seeds[from + i];
        AppendStruct(Prefix(tableId), batch, i, before);
        query := query + constant;
        i := i + 1;
      }
      assert batch[..i] == batch;
      query := query + "])";
    }

    /** Fails exactly when the response reports errors; otherwise reports how many rows
        the request carried. */
    method RunInsertAll(builder: InsertAllRequestBuilder, response: InsertAllResponse)
      returns (outcome: InsertOutcome)
      ensures outcome.InsertFailed? <==> response.HasErrors()
      ensures outcome.InsertFailed? ==> outcome.errors == response.insertErrors
      ensures outcome.Inserted? ==> outcome.rowCount == |builder.rows|
    {
      if response.HasErrors() {
        outcome := InsertFailed(response.insertErrors);
      } else {
        outcome := Inserted(|builder.rows|);
      }
    }
  }
}
