/** What one tick of the streaming simulator does, as values: the working set of
    sessions before and after, and the change events the tick emits in order. The random
    draws, the new sessions' UUIDs and clock readings are the tick's inputs. */
module Simulation {
  import opened Common
  import opened Constants
  import opened ConversionUtil
  import opened SessionModel
  import opened BigtableService
  import opened BigQueryService

  /** The most sessions the working set keeps between ticks. */
  const MAX_RECORDS: nat := 10000

  /** The command-line parameters a tick depends on (Java ints). */
  datatype Parameters = Parameters(insertsPerBatch: int, percentOfUpdatesPerBatch: int, percentOfDeletesPerBatch: int)

  function InsertCount(p: Parameters): nat {
    Iterations(p.insertsPerBatch)
  }

  /** `insertsPerBatch * percent / 100` evaluated in Java `int` arithmetic (a wrapping
      product, a truncating division), as the number of iterations of a counting loop. */
  function PercentOfInserts(p: Parameters, percent: int): nat {
    Iterations(JavaDiv(WrapInt32(p.insertsPerBatch * percent), 100))
  }

  /** Updates and deletes happen only when the working set was non-empty at tick start. */
  function UpdateCount(p: Parameters, size: nat): nat {
    if size > 0 then PercentOfInserts(p, p.percentOfUpdatesPerBatch) else 0
  }

  function DeleteCount(p: Parameters, size: nat): nat {
    if size > 0 then PercentOfInserts(p, p.percentOfDeletesPerBatch) else 0
  }

  datatype Op = Insert | Update | Delete

  /** One transition of one session: what both stores receive an entry for. */
  datatype Event = Event(op: Op, session: SessionData)

  /** The sessions' ids, in working-set order. */
  function Ids(ws: seq<SessionData>): (ids: seq<string>)
    ensures |ids| == |ws|
  {
    seq(|ws|, i requires 0 <= i < |ws| => ws[i].sessionId)
  }

  function EventIds(events: seq<Event>): (ids: seq<string>)
    ensures |ids| == |events|
  {
    seq(|events|, i requires 0 <= i < |events| => events[i].session.sessionId)
  }

  predicate DistinctIds(ids: seq<string>) {
    forall i, j :: 0 <= i < j < |ids| ==> ids[i] != ids[j]
  }

  // ----- the four phases -----

  /** The sessions created at tick start, one per seed (UUID and clock reading). */
  function NewSessions(seeds: seq<(string, Instant)>): (created: seq<SessionData>)
    ensures |created| == |seeds|
  {
    seq(|seeds|, i requires 0 <= i < |seeds| => NewSession(seeds[i].0, seeds[i].1))
  }

  function InsertEvents(created: seq<SessionData>): (events: seq<Event>)
    ensures |events| == |created|
  {
    seq(|created|, i requires 0 <= i < |created| => Event(Insert, created[i]))
  }

  /** The driver's `switch` for update number i: NEW logs in as "customer" + i,
      LOGGED_IN logs out, any other status is left as it is. */
  function Advance(d: SessionData, i: nat, now: Instant): SessionData {
    match d.status
    case NEW => AfterLoggedIn(d, "customer" + NatToString(i))
    case LOGGED_IN => AfterLogout(d, now)
    case _ => d
  }

  /** The working set and the events emitted so far by one phase. */
  datatype StepResult = StepResult(records: seq<SessionData>, events: seq<Event>)

  /** The first n updates: draw k advances the session at position picks[k] (with
      replacement) and emits an Update event carrying its new state. */
  function Updates(ws: seq<SessionData>, picks: seq<nat>, now: Instant, n: nat): (r: StepResult)
    requires n <= |picks|
    requires forall k :: 0 <= k < |picks| ==> picks[k] < |ws|
    ensures |r.records| == |ws| && |r.events| == n
  {
    if n == 0 then StepResult(ws, [])
    else
      var prev := Updates(ws, picks, now, n - 1);
      var d := Advance(prev.records[picks[n - 1]], n - 1, now);
      StepResult(prev.records[picks[n - 1] := d], prev.events + [Event(Update, d)])
  }

  /** Delete draw k is an index into the working set as it is after k removals. */
  predicate ValidDeletePicks(size: nat, picks: seq<nat>) {
    forall k :: 0 <= k < |picks| && k < size ==> picks[k] < size - k
  }

  /** The first n deletes: draw k removes the session at position picks[k] (without
      replacement) and emits a Delete event carrying it. */
  function Deletes(ws: seq<SessionData>, picks: seq<nat>, n: nat): (r: StepResult)
    requires n <= |picks| && n <= |ws|
    requires ValidDeletePicks(|ws|, picks)
    ensures |r.records| == |ws| - n && |r.events| == n
  {
    if n == 0 then StepResult(ws, [])
    else
      var prev := Deletes(ws, picks, n - 1);
      var j := picks[n - 1];
      StepResult(prev.records[..j] + prev.records[j + 1..], prev.events + [Event(Delete, prev.records[j])])
  }

  /** Eviction from the front while the working set is over the bound: a LOGGED_OUT
      session is dropped silently, any other is abandoned and emits an Update event. */
  function Evict(ws: seq<SessionData>, now: Instant): (r: StepResult)
    decreases |ws|
  {
    if |ws| <= MAX_RECORDS then StepResult(ws, [])
    else
      var rest := Evict(ws[1..], now);
      if ws[0].status == LOGGED_OUT then rest
      else StepResult(rest.records, [Event(Update, AfterAbandon(ws[0], now))] + rest.events)
  }

  /** The events the eviction of a dropped prefix emits, front first. */
  function AbandonEvents(dropped: seq<SessionData>, now: Instant): seq<Event> {
    if dropped == [] then []
    else
      (if dropped[0].status == LOGGED_OUT then [] else [Event(Update, AfterAbandon(dropped[0], now))])
      + AbandonEvents(dropped[1..], now)
  }

  // ----- one tick -----

  /** Everything a tick draws from outside: the new sessions' UUIDs and clock readings,
      the update and delete draws, and the clock reading used for logouts and abandons. */
  datatype TickInput = TickInput(
    newSeeds: seq<(string, Instant)>,
    updatePicks: seq<nat>,
    deletePicks: seq<nat>,
    now: Instant)

  /** The inputs have the sizes the parameters ask for and every draw is a legal
      `nextInt(size)` answer for the list it indexes. */
  predicate WellFormedInput(ws: seq<SessionData>, p: Parameters, input: TickInput) {
    WellFormedFor(|ws|, p, input)
  }

  /** The same, for a working set of the given size. */
  predicate WellFormedFor(size: nat, p: Parameters, input: TickInput) {
    |input.newSeeds| == InsertCount(p) &&
    |input.updatePicks| == UpdateCount(p, size) &&
    (forall k :: 0 <= k < |input.updatePicks| ==> input.updatePicks[k] < size) &&
    |input.deletePicks| == DeleteCount(p, size) &&
    ValidDeletePicks(size, input.deletePicks)
  }

  datatype TickResult = TickResult(records: seq<SessionData>, events: seq<Event>)

  /** Every delete draw finds a session: false exactly when `nextInt(0)` would throw. */
  predicate DrawsSucceed(ws: seq<SessionData>, p: Parameters) {
    DeleteCount(p, |ws|) <= |ws|
  }

  /** The working set and events after the update phase. */
  function Updated(ws: seq<SessionData>, p: Parameters, input: TickInput): (r: StepResult)
    requires WellFormedInput(ws, p, input)
    ensures |r.records| == |ws| && |r.events| == UpdateCount(p, |ws|)
  {
    Updates(ws, input.updatePicks, input.now, |input.updatePicks|)
  }

  /** The working set and events after the delete phase. */
  function Deleted(ws: seq<SessionData>, p: Parameters, input: TickInput): (r: StepResult)
    requires WellFormedInput(ws, p, input) && DrawsSucceed(ws, p)
    ensures |r.records| == |ws| - DeleteCount(p, |ws|) && |r.events| == DeleteCount(p, |ws|)
  {
    Deletes(Updated(ws, p, input).records, input.deletePicks, |input.deletePicks|)
  }

  /** The working set once the new sessions have joined it at the end. */
  function Pool(ws: seq<SessionData>, p: Parameters, input: TickInput): seq<SessionData>
    requires WellFormedInput(ws, p, input) && DrawsSucceed(ws, p)
  {
    Deleted(ws, p, input).records + NewSessions(input.newSeeds)
  }

  function Evicted(ws: seq<SessionData>, p: Parameters, input: TickInput): StepResult
    requires WellFormedInput(ws, p, input) && DrawsSucceed(ws, p)
  {
    Evict(Pool(ws, p, input), input.now)
  }

  /** One tick: inserts, updates, deletes, then the new sessions join the working set,
      then eviction. None when a delete draw meets an empty list (`nextInt(0)` throws). */
  function Tick(ws: seq<SessionData>, p: Parameters, input: TickInput): (r: Option<TickResult>)
    requires WellFormedInput(ws, p, input)
    ensures r.None? <==> |ws| > 0 && PercentOfInserts(p, p.percentOfDeletesPerBatch) > |ws|
  {
    if !DrawsSucceed(ws, p) then None
    else
      Some(TickResult(
        Evicted(ws, p, input).records,
        InsertEvents(NewSessions(input.newSeeds)) + Updated(ws, p, input).events
          + Deleted(ws, p, input).events + Evicted(ws, p, input).events))
  }

  // ----- the two batches -----

  function OpCode(op: Op): string {
    match op
    case Insert => INSERT_OP
    case Update => UPDATE_OP
    case Delete => DELETE_OP
  }

  /** The bulk-mutation entry of an event: an upsert, or a delete-row for a Delete. */
  function BigtableEntry(e: Event): Entry {
    if e.op == Delete then Entry(e.session.sessionId, DeleteMutation())
    else Entry(e.session.sessionId, UpsertMutation(e.session))
  }

  function BigtableBatch(events: seq<Event>): (batch: seq<Entry>)
    ensures |batch| == |events|
  {
    seq(|events|, i requires 0 <= i < |events| => BigtableEntry(events[i]))
  }

  /** The request rows of the events when the counter stood at `last`: each row tagged
      with its event's operation code and the next sequence number. */
  function BigQueryBatch(events: seq<Event>, last: int): (rows: seq<Row>)
    ensures |rows| == |events|
  {
    seq(|events|, i requires 0 <= i < |events| =>
      TaggedRow(ToBigQueryRow(events[i].session), OpCode(events[i].op), last + i + 1))
  }

  lemma BigtableBatchConcat(a: seq<Event>, b: seq<Event>)
    ensures BigtableBatch(a + b) == BigtableBatch(a) + BigtableBatch(b)
  {
    var l, r := BigtableBatch(a + b), BigtableBatch(a) + BigtableBatch(b);
    forall i | 0 <= i < |l| ensures l[i] == r[i] {
      if i < |a| {
        assert (a + b)[i] == a[i];
      } else {
        assert (a + b)[i] == b[i - |a|];
      }
    }
  }

  /** The rows of b follow those of a, numbered on from where a's numbering stopped. */
  lemma BigQueryBatchConcat(a: seq<Event>, b: seq<Event>, last: int)
    ensures BigQueryBatch(a + b, last) == BigQueryBatch(a, last) + BigQueryBatch(b, last + |a|)
  {
    var l, r := BigQueryBatch(a + b, last), BigQueryBatch(a, last) + BigQueryBatch(b, last + |a|);
    forall i | 0 <= i < |l| ensures l[i] == r[i] {
      if i < |a| {
        assert (a + b)[i] == a[i];
      } else {
        assert (a + b)[i] == b[i - |a|];
      }
    }
  }

  lemma BigtableBatchAppend(events: seq<Event>, e: Event)
    ensures BigtableBatch(events + [e]) == BigtableBatch(events) + [BigtableEntry(e)]
  {
    var l, r := BigtableBatch(events + [e]), BigtableBatch(events) + [BigtableEntry(e)];
    forall i | 0 <= i < |l| ensures l[i] == r[i] {
      if i < |events| {
        assert (events + [e])[i] == events[i];
      }
    }
  }

  lemma BigQueryBatchAppend(events: seq<Event>, last: int, e: Event)
    ensures BigQueryBatch(events + [e], last)
      == BigQueryBatch(events, last) + [TaggedRow(ToBigQueryRow(e.session), OpCode(e.op), last + |events| + 1)]
  {
    var l := BigQueryBatch(events + [e], last);
    var r := BigQueryBatch(events, last) + [TaggedRow(ToBigQueryRow(e.session), OpCode(e.op), last + |events| + 1)];
    forall i | 0 <= i < |l| ensures l[i] == r[i] {
      if i < |events| {
        assert (events + [e])[i] == events[i];
      }
    }
  }
}
