/** The streaming driver's tick as the program runs it: a list of mutable session
    objects, a bulk mutation and an insert request filled entry by entry, and the
    shared sequence counter. Each loop is proved against the phase of `Simulation.Tick`
    it carries out, so the whole tick leaves exactly the working set and the two
    batches that the value model describes. */
module DemoGenerator {
  import opened Common
  import opened ConversionUtil
  import opened SessionModel
  import opened BigtableService
  import opened BigQueryService
  import opened Simulation
  import opened SimulationPhases

  // ----- the session list -----

  /** The states of the session objects, in list order. */
  function Snapshot(sessions: seq<Session>): (states: seq<SessionData>)
    reads sessions
    ensures |states| == |sessions|
    ensures forall i :: 0 <= i < |sessions| ==> states[i] == sessions[i].Data()
  {
    seq(|sessions|, i requires 0 <= i < |sessions| reads sessions => sessions[i].Data())
  }

  /** No session object occurs twice in the list. */
  predicate Distinct(sessions: seq<Session>) {
    forall i, j :: 0 <= i < j < |sessions| ==> sessions[i] != sessions[j]
  }

  lemma SnapshotRemove(sessions: seq<Session>, j: nat)
    requires j < |sessions|
    ensures Snapshot(sessions[..j] + sessions[j + 1..]) == Snapshot(sessions)[..j] + Snapshot(sessions)[j + 1..]
  {
    var l, r := Snapshot(sessions[..j] + sessions[j + 1..]), Snapshot(sessions)[..j] + Snapshot(sessions)[j + 1..];
    forall k | 0 <= k < |l| ensures l[k] == r[k] {
      if k < j {
        assert (sessions[..j] + sessions[j + 1..])[k] == sessions[k];
      } else {
        assert (sessions[..j] + sessions[j + 1..])[k] == sessions[k + 1];
      }
    }
  }

  lemma DistinctRemove(sessions: seq<Session>, j: nat)
    requires j < |sessions| && Distinct(sessions)
    ensures Distinct(sessions[..j] + sessions[j + 1..])
    ensures forall s :: s in sessions[..j] + sessions[j + 1..] ==> s in sessions
  {
    var rest := sessions[..j] + sessions[j + 1..];
    assert forall k :: 0 <= k < |rest| ==> rest[k] == sessions[if k < j then k else k + 1];
  }

  lemma DistinctAppend(sessions: seq<Session>, s: Session)
    requires Distinct(sessions) && s !in sessions
    ensures Distinct(sessions + [s])
  {
  }

  lemma SnapshotConcat(a: seq<Session>, b: seq<Session>)
    ensures Snapshot(a + b) == Snapshot(a) + Snapshot(b)
  {
    var l, r := Snapshot(a + b), Snapshot(a) + Snapshot(b);
    forall k | 0 <= k < |l| ensures l[k] == r[k] {
      if k < |a| {
        assert (a + b)[k] == a[k];
      } else {
        assert (a + b)[k] == b[k - |a|];
      }
    }
  }

  // ----- the two batches -----

  /** After what they held before (`entries0`, `rows0`, counter at `last`), the bulk
      mutation, the insert request and the counter hold one entry and one numbered row
      per event, in event order. */
  predicate Sent(entries: seq<Entry>, rows: seq<Row>, counter: int,
                 entries0: seq<Entry>, rows0: seq<Row>, last: int, events: seq<Event>) {
    entries == entries0 + BigtableBatch(events) &&
    rows == rows0 + BigQueryBatch(events, last) &&
    counter == last + |events|
  }

  lemma SentNothing(entries: seq<Entry>, rows: seq<Row>, counter: int)
    ensures Sent(entries, rows, counter, entries, rows, counter, [])
  {
    assert entries + BigtableBatch([]) == entries;
    assert rows + BigQueryBatch([], counter) == rows;
  }

  /** Two stretches of sending are one. */
  lemma SentConcat(entries0: seq<Entry>, rows0: seq<Row>, last0: int,
                   entries1: seq<Entry>, rows1: seq<Row>, last1: int,
                   entries2: seq<Entry>, rows2: seq<Row>, last2: int,
                   a: seq<Event>, b: seq<Event>)
    requires Sent(entries1, rows1, last1, entries0, rows0, last0, a)
    requires Sent(entries2, rows2, last2, entries1, rows1, last1, b)
    ensures Sent(entries2, rows2, last2, entries0, rows0, last0, a + b)
  {
    BigtableBatchConcat(a, b);
    BigQueryBatchConcat(a, b, last0);
    ConcatAssoc(entries0, BigtableBatch(a), BigtableBatch(b));
    ConcatAssoc(rows0, BigQueryBatch(a, last0), BigQueryBatch(b, last0 + |a|));
  }

  /** What one upsert and one tagged row send. */
  lemma SentOne(entries: seq<Entry>, rows: seq<Row>, last: int, e: Event)
    ensures Sent(entries + [BigtableEntry(e)], rows + [TaggedRow(ToBigQueryRow(e.session), OpCode(e.op), last + 1)],
                 last + 1, entries, rows, last, [e])
  {
    assert BigtableBatch([e]) == [BigtableEntry(e)];
    assert BigQueryBatch([e], last) == [TaggedRow(ToBigQueryRow(e.session), OpCode(e.op), last + 1)];
  }

  // ----- inserts -----

  lemma InsertEventsStep(seeds: seq<(string, Instant)>, i: nat)
    requires i < |seeds|
    ensures NewSessions(seeds[..i + 1]) == NewSessions(seeds[..i]) + [NewSession(seeds[i].0, seeds[i].1)]
    ensures InsertEvents(NewSessions(seeds[..i + 1]))
      == InsertEvents(NewSessions(seeds[..i])) + [Event(Insert, NewSession(seeds[i].0, seeds[i].1))]
  {
    var l, r := NewSessions(seeds[..i + 1]), NewSessions(seeds[..i]) + [NewSession(seeds[i].0, seeds[i].1)];
    forall k | 0 <= k < |l| ensures l[k] == r[k] {
      assert seeds[..i + 1][k] == seeds[k];
      if k < i {
        assert seeds[..i][k] == seeds[k];
      }
    }
    var le, re := InsertEvents(l), InsertEvents(NewSessions(seeds[..i])) + [Event(Insert, NewSession(seeds[i].0, seeds[i].1))];
    forall k | 0 <= k < |le| ensures le[k] == re[k] {
    }
  }

  /** One iteration of the insert loop: a new session, sent to both batches as an insert. */
  method InsertOne(bigtable: BigtableService, bigQuery: BigQueryService,
                   bulk: BulkMutation, builder: InsertAllRequestBuilder, seed: (string, Instant))
    returns (session: Session)
    requires bigQuery.insertSequence < INT32_MAX
    modifies bulk, builder, bigQuery
    ensures fresh(session) && session.Data() == NewSession(seed.0, seed.1)
    ensures Sent(bulk.entries, builder.rows, bigQuery.insertSequence,
                 old(bulk.entries), old(builder.rows), old(bigQuery.insertSequence),
                 [Event(Insert, NewSession(seed.0, seed.1))])
  {
    session := new Session(seed.0, seed.1);
    bigtable.AddOrUpdateSession(bulk, session);
    bigQuery.AddInsertRow(builder, ToBigQueryRow(session.Data()));
    SentOne(old(bulk.entries), old(builder.rows), old(bigQuery.insertSequence), Event(Insert, session.Data()));
  }

  /** The insert loop: one new session object per seed, each sent to both batches as an
      insert, in seed order. */
  method CreateInserts(bigtable: BigtableService, bigQuery: BigQueryService,
                       bulk: BulkMutation, builder: InsertAllRequestBuilder,
                       p: Parameters, seeds: seq<(string, Instant)>)
    returns (newInserts: seq<Session>)
    requires |seeds| == InsertCount(p)
    requires bigQuery.insertSequence + |seeds| <= INT32_MAX
    modifies bulk, builder, bigQuery
    ensures Snapshot(newInserts) == NewSessions(seeds)
    ensures Distinct(newInserts) && fresh(set s | s in newInserts)
    ensures Sent(bulk.entries, builder.rows, bigQuery.insertSequence,
                 old(bulk.entries), old(builder.rows), old(bigQuery.insertSequence),
                 InsertEvents(NewSessions(seeds)))
  {
    SentNothing(bulk.entries, builder.rows, bigQuery.insertSequence);
    newInserts := [];
    var i := 0;
    while i < p.insertsPerBatch
      invariant 0 <= i <= |seeds| && |newInserts| == i
      invariant Distinct(newInserts) && fresh(set s | s in newInserts)
      invariant Snapshot(newInserts) == NewSessions(seeds[..i])
      invariant Sent(bulk.entries, builder.rows, bigQuery.insertSequence,
                     old(bulk.entries), old(builder.rows), old(bigQuery.insertSequence),
                     InsertEvents(NewSessions(seeds[..i])))
    {
      ghost var entries, rows, counter := bulk.entries, builder.rows, bigQuery.insertSequence;
      ghost var before := newInserts;
      var session := InsertOne(bigtable, bigQuery, bulk, builder, seeds[i]);
      DistinctAppend(newInserts, session);
      newInserts := newInserts + [session];
      InsertEventsStep(seeds, i);
      SentConcat(old(bulk.entries), old(builder.rows), old(bigQuery.insertSequence),
                 entries, rows, counter, bulk.entries, builder.rows, bigQuery.insertSequence,
                 InsertEvents(NewSessions(seeds[..i])), [Event(Insert, NewSession(seeds[i].0, seeds[i].1))]);
      SnapshotConcat(before, [session]);
      i := i + 1;
    }
    assert seeds[..i] == seeds;
  }

  // ----- updates -----

  /** Update number i in terms of the first i. */
  lemma UpdatesStep(ws: seq<SessionData>, picks: seq<nat>, now: Instant, i: nat)
    requires i < |picks|
    requires forall k :: 0 <= k < |picks| ==> picks[k] < |ws|
    ensures Updates(ws, picks, now, i + 1).records
      == Updates(ws, picks, now, i).records[picks[i] := Advance(Updates(ws, picks, now, i).records[picks[i]], i, now)]
    ensures Updates(ws, picks, now, i + 1).events
      == Updates(ws, picks, now, i).events + [Event(Update, Advance(Updates(ws, picks, now, i).records[picks[i]], i, now))]
  {
  }

  /** One iteration of the update loop: the session at position j takes its next step in
      place and is sent to both batches as an update. */
  method UpdateOne(bigtable: BigtableService, bigQuery: BigQueryService,
                   bulk: BulkMutation, builder: InsertAllRequestBuilder,
                   records: seq<Session>, j: nat, i: nat, now: Instant)
    requires j < |records| && Distinct(records)
    requires bigQuery.insertSequence < INT32_MAX
    modifies records[j], bulk, builder, bigQuery
    ensures Snapshot(records) == old(Snapshot(records))[j := Advance(old(Snapshot(records))[j], i, now)]
    ensures Sent(bulk.entries, builder.rows, bigQuery.insertSequence,
                 old(bulk.entries), old(builder.rows), old(bigQuery.insertSequence),
                 [Event(Update, Advance(old(Snapshot(records))[j], i, now))])
  {
    ghost var states := Snapshot(records);
    var session := records[j];
    AdvanceSession(session, i, now);
    bigtable.AddOrUpdateSession(bulk, session);
    bigQuery.AddUpdateRow(builder, ToBigQueryRow(session.Data()));
    SentOne(old(bulk.entries), old(builder.rows), old(bigQuery.insertSequence), Event(Update, session.Data()));
    assert Snapshot(records) == states[j := session.Data()] by {
      forall k | 0 <= k < |records| && k != j ensures records[k] != session {
      }
    }
  }

  /** The status switch of the update loop: a NEW session logs in as customer i, a
      LOGGED_IN one logs out now, any other is left as it is. */
  method AdvanceSession(session: Session, i: nat, now: Instant)
    modifies session
    ensures session.Data() == Advance(old(session.Data()), i, now)
  {
    match session.status {
      case NEW => session.LoggedIn("customer" + NatToString(i));
      case LOGGED_IN => session.Logout(now);
      case _ =>
    }
  }

  /** The update loop: draw k advances the session at position picks[k] in place. */
  method SimulateUpdates(bigtable: BigtableService, bigQuery: BigQueryService,
                         bulk: BulkMutation, builder: InsertAllRequestBuilder,
                         records: seq<Session>, updateCount: int, picks: seq<nat>, now: Instant)
    requires Distinct(records)
    requires |picks| == Iterations(updateCount)
    requires forall k :: 0 <= k < |picks| ==> picks[k] < |records|
    requires bigQuery.insertSequence + |picks| <= INT32_MAX
    modifies records, bulk, builder, bigQuery
    ensures Snapshot(records) == Updates(old(Snapshot(records)), picks, now, |picks|).records
    ensures Sent(bulk.entries, builder.rows, bigQuery.insertSequence,
                 old(bulk.entries), old(builder.rows), old(bigQuery.insertSequence),
                 Updates(old(Snapshot(records)), picks, now, |picks|).events)
  {
    ghost var start := Snapshot(records);
    ghost var step := Updates(start, picks, now, 0);
    SentNothing(bulk.entries, builder.rows, bigQuery.insertSequence);
    var i := 0;
    while i < updateCount
      invariant 0 <= i <= |picks|
      invariant step == Updates(start, picks, now, i)
      invariant Snapshot(records) == step.records
      invariant Sent(bulk.entries, builder.rows, bigQuery.insertSequence,
                     old(bulk.entries), old(builder.rows), old(bigQuery.insertSequence), step.events)
    {
      ghost var entries, rows, counter := bulk.entries, builder.rows, bigQuery.insertSequence;
      UpdateOne(bigtable, bigQuery, bulk, builder, records, picks[i], i, now);
      UpdatesStep(start, picks, now, i);
      SentConcat(old(bulk.entries), old(builder.rows), old(bigQuery.insertSequence),
                 entries, rows, counter, bulk.entries, builder.rows, bigQuery.insertSequence,
                 step.events, [Event(Update, Advance(step.records[picks[i]], i, now))]);
      step := Updates(start, picks, now, i + 1);
      i := i + 1;
    }
  }

  // ----- deletes -----

  /** Delete number k in terms of the first k. */
  lemma DeletesStep(ws: seq<SessionData>, picks: seq<nat>, k: nat)
    requires k < |picks| && k < |ws|
    requires ValidDeletePicks(|ws|, picks)
    ensures Deletes(ws, picks, k + 1).records
      == Deletes(ws, picks, k).records[..picks[k]] + Deletes(ws, picks, k).records[picks[k] + 1..]
    ensures Deletes(ws, picks, k + 1).events
      == Deletes(ws, picks, k).events + [Event(Delete, Deletes(ws, picks, k).records[picks[k]])]
  {
  }

  /** One iteration of the delete loop: the session at position j leaves the list and is
      sent to both batches as a delete. */
  method DeleteOne(bigtable: BigtableService, bigQuery: BigQueryService,
                   bulk: BulkMutation, builder: InsertAllRequestBuilder,
                   records: seq<Session>, j: nat)
    returns (remaining: seq<Session>)
    requires j < |records| && Distinct(records)
    requires bigQuery.insertSequence < INT32_MAX
    modifies bulk, builder, bigQuery
    ensures remaining == records[..j] + records[j + 1..]
    ensures Distinct(remaining) && forall s :: s in remaining ==> s in records
    ensures Snapshot(remaining) == old(Snapshot(records))[..j] + old(Snapshot(records))[j + 1..]
    ensures Sent(bulk.entries, builder.rows, bigQuery.insertSequence,
                 old(bulk.entries), old(builder.rows), old(bigQuery.insertSequence),
                 [Event(Delete, old(Snapshot(records))[j])])
  {
    var session := records[j];
    remaining := records[..j] + records[j + 1..];
    bigtable.DeleteSession(bulk, session);
    bigQuery.AddDeleteRow(builder, ToBigQueryRow(session.Data()));
    SentOne(old(bulk.entries), old(builder.rows), old(bigQuery.insertSequence), Event(Delete, session.Data()));
    SnapshotRemove(records, j);
    DistinctRemove(records, j);
  }

  /** The delete loop: draw k removes the session at position picks[k] of the shrinking
      list. A draw on an empty list is the `nextInt(0)` failure: false, and the loop
      stops there. */
  method SimulateDeletes(bigtable: BigtableService, bigQuery: BigQueryService,
                         bulk: BulkMutation, builder: InsertAllRequestBuilder,
                         records: seq<Session>, deleteCount: int, picks: seq<nat>)
    returns (remaining: seq<Session>, drawsSucceeded: bool)
    requires Distinct(records)
    requires |picks| == Iterations(deleteCount)
    requires ValidDeletePicks(|records|, picks)
    requires bigQuery.insertSequence + |picks| <= INT32_MAX
    modifies bulk, builder, bigQuery
    ensures drawsSucceeded <==> |picks| <= |records|
    ensures drawsSucceeded ==> Snapshot(remaining) == Deletes(Snapshot(records), picks, |picks|).records
    ensures drawsSucceeded ==> Distinct(remaining) && forall s :: s in remaining ==> s in records
    ensures drawsSucceeded ==>
      Sent(bulk.entries, builder.rows, bigQuery.insertSequence,
           old(bulk.entries), old(builder.rows), old(bigQuery.insertSequence),
           Deletes(Snapshot(records), picks, |picks|).events)
  {
    ghost var start := Snapshot(records);
    ghost var step := Deletes(start, picks, 0);
    SentNothing(bulk.entries, builder.rows, bigQuery.insertSequence);
    remaining := records;
    var count := deleteCount;
    var k := 0;
    while count > 0
      invariant 0 <= k <= |records| && k <= |picks|
      invariant k + Iterations(count) == |picks|
      invariant step == Deletes(start, picks, k)
      invariant Snapshot(remaining) == step.records
      invariant Distinct(remaining) && forall s :: s in remaining ==> s in records
      invariant Sent(bulk.entries, builder.rows, bigQuery.insertSequence,
                     old(bulk.entries), old(builder.rows), old(bigQuery.insertSequence), step.events)
    {
      if |remaining| == 0 {
        drawsSucceeded := false;
        return;
      }
      ghost var entries, rows, counter := bulk.entries, builder.rows, bigQuery.insertSequence;
      remaining := DeleteOne(bigtable, bigQuery, bulk, builder, remaining, picks[k]);
      DeletesStep(start, picks, k);
      SentConcat(old(bulk.entries), old(builder.rows), old(bigQuery.insertSequence),
                 entries, rows, counter, bulk.entries, builder.rows, bigQuery.insertSequence,
                 step.events, [Event(Delete, step.records[picks[k]])]);
      step := Deletes(start, picks, k + 1);
      count := count - 1;
      k := k + 1;
    }
    assert k == |picks| && Snapshot(records) == start;
    drawsSucceeded := true;
  }

  // ----- eviction -----

  /** Dropping one more session adds its own abandon event, if any, at the end. */
  lemma {:induction false} AbandonEventsSplit(dropped: seq<SessionData>, d: SessionData, now: Instant)
    ensures AbandonEvents(dropped + [d], now) == AbandonEvents(dropped, now) + AbandonEvents([d], now)
    ensures |AbandonEvents([d], now)| <= 1
  {
    if dropped != [] {
      assert (dropped + [d])[1..] == dropped[1..] + [d];
      AbandonEventsSplit(dropped[1..], d, now);
    } else {
      assert dropped + [d] == [d];
    }
  }

  /** One iteration of the eviction loop: the oldest session leaves the list; unless it
      had logged out, it is abandoned and sent to both batches as an update. The list
      holds what is left of `start` after c evictions. */
  method EvictOne(bigtable: BigtableService, bigQuery: BigQueryService,
                  bulk: BulkMutation, builder: InsertAllRequestBuilder,
                  records: seq<Session>, now: Instant, ghost start: seq<SessionData>, ghost c: nat)
    returns (rest: seq<Session>)
    requires |records| > 0 && Distinct(records)
    requires c < |start| && Snapshot(records) == start[c..]
    requires bigQuery.insertSequence < INT32_MAX
    modifies records[0], bulk, builder, bigQuery
    ensures rest == records[1..] && Distinct(rest)
    ensures Snapshot(rest) == start[c + 1..]
    ensures Sent(bulk.entries, builder.rows, bigQuery.insertSequence,
                 old(bulk.entries), old(builder.rows), old(bigQuery.insertSequence),
                 AbandonEvents([start[c]], now))
    ensures AbandonEvents(start[..c + 1], now) == AbandonEvents(start[..c], now) + AbandonEvents([start[c]], now)
    ensures |AbandonEvents([start[c]], now)| <= 1
  {
    ghost var first := records[0].Data();
    assert first == start[c];
    var session := records[0];
    rest := records[1..];
    if session.status != LOGGED_OUT {
      session.Abandon(now);
      bigtable.AddOrUpdateSession(bulk, session);
      bigQuery.AddUpdateRow(builder, ToBigQueryRow(session.Data()));
      SentOne(old(bulk.entries), old(builder.rows), old(bigQuery.insertSequence), Event(Update, session.Data()));
      assert AbandonEvents([first], now) == [Event(Update, session.Data())];
    } else {
      SentNothing(bulk.entries, builder.rows, bigQuery.insertSequence);
      assert AbandonEvents([first], now) == [];
    }
    forall k | 0 <= k < |rest| ensures rest[k] != session {
      assert rest[k] == records[k + 1];
    }
    assert start[c..][1..] == start[c + 1..];
    AbandonEventsStep(start, c, now);
  }

  /** The eviction loop: while the list is over the bound, the oldest session leaves it.
      What it keeps and emits is `Evict` of the list's states. */
  method EvictOldest(bigtable: BigtableService, bigQuery: BigQueryService,
                     bulk: BulkMutation, builder: InsertAllRequestBuilder,
                     records: seq<Session>, now: Instant)
    returns (kept: seq<Session>)
    requires Distinct(records)
    requires bigQuery.insertSequence + |records| <= INT32_MAX
    modifies records, bulk, builder, bigQuery
    ensures |kept| <= |records| && kept == records[|records| - |kept|..] && Distinct(kept)
    ensures Snapshot(kept) == Evict(old(Snapshot(records)), now).records
    ensures Sent(bulk.entries, builder.rows, bigQuery.insertSequence,
                 old(bulk.entries), old(builder.rows), old(bigQuery.insertSequence),
                 Evict(old(Snapshot(records)), now).events)
  {
    ghost var start := Snapshot(records);
    ghost var c := 0;
    ghost var emitted: seq<Event> := [];
    SentNothing(bulk.entries, builder.rows, bigQuery.insertSequence);
    kept := records;
    while |kept| > MAX_RECORDS
      invariant 0 <= c <= |records| && kept == records[c..] && Distinct(kept)
      invariant c == 0 || |kept| >= MAX_RECORDS
      invariant Snapshot(kept) == start[c..]
      invariant emitted == AbandonEvents(start[..c], now) && |emitted| <= c
      invariant Sent(bulk.entries, builder.rows, bigQuery.insertSequence,
                     old(bulk.entries), old(builder.rows), old(bigQuery.insertSequence), emitted)
      decreases |kept|
    {
      ghost var entries, rows, counter := bulk.entries, builder.rows, bigQuery.insertSequence;
      assert records[c..][1..] == records[c + 1..];
      kept := EvictOne(bigtable, bigQuery, bulk, builder, kept, now, start, c);
      SentConcat(old(bulk.entries), old(builder.rows), old(bigQuery.insertSequence),
                 entries, rows, counter, bulk.entries, builder.rows, bigQuery.insertSequence,
                 emitted, AbandonEvents([start[c]], now));
      emitted := emitted + AbandonEvents([start[c]], now);
      c := c + 1;
    }
    EvictStopsAt(start, c, now);
  }

  /** The loop stops after dropping c sessions: either none were over the bound, or
      exactly MAX_RECORDS are left. Either way that is what Evict keeps and emits. */
  lemma EvictStopsAt(start: seq<SessionData>, c: nat, now: Instant)
    requires c <= |start| && |start| - c <= MAX_RECORDS
    requires c == 0 || |start| - c >= MAX_RECORDS
    ensures Evict(start, now).records == start[c..]
    ensures Evict(start, now).events == AbandonEvents(start[..c], now)
  {
    EvictIsFifo(start, now);
  }

  lemma AbandonEventsStep(start: seq<SessionData>, c: nat, now: Instant)
    requires c < |start|
    ensures AbandonEvents(start[..c + 1], now) == AbandonEvents(start[..c], now) + AbandonEvents([start[c]], now)
    ensures |AbandonEvents([start[c]], now)| <= 1
  {
    assert start[..c + 1] == start[..c] + [start[c]];
    AbandonEventsSplit(start[..c], start[c], now);
  }

  // ----- the tick -----

  /** The `previousRecords.size() > 0` block: the update loop, then the delete loop, on
      the sessions kept from earlier ticks. Does nothing on an empty list. False exactly
      when a delete draw meets an empty list. */
  method ChangePreviousRecords(bigtable: BigtableService, bigQuery: BigQueryService,
                               bulk: BulkMutation, builder: InsertAllRequestBuilder,
                               p: Parameters, records: seq<Session>, input: TickInput)
    returns (remaining: seq<Session>, drawsSucceeded: bool)
    requires Distinct(records)
    requires WellFormedFor(|records|, p, input)
    requires bigQuery.insertSequence + UpdateCount(p, |records|) + DeleteCount(p, |records|) <= INT32_MAX
    modifies records, bulk, builder, bigQuery
    ensures drawsSucceeded <==> DrawsSucceed(old(Snapshot(records)), p)
    ensures drawsSucceeded ==>
      Snapshot(remaining) == Deleted(old(Snapshot(records)), p, input).records &&
      Distinct(remaining) && (forall s :: s in remaining ==> s in records) &&
      Sent(bulk.entries, builder.rows, bigQuery.insertSequence,
           old(bulk.entries), old(builder.rows), old(bigQuery.insertSequence),
           Updated(old(Snapshot(records)), p, input).events + Deleted(old(Snapshot(records)), p, input).events)
  {
    ghost var ws := Snapshot(records);
    if |records| > 0 {
      var updateCount := JavaDiv(WrapInt32(p.insertsPerBatch * p.percentOfUpdatesPerBatch), 100);
      SimulateUpdates(bigtable, bigQuery, bulk, builder, records, updateCount, input.updatePicks, input.now);
      ghost var entries, rows, counter := bulk.entries, builder.rows, bigQuery.insertSequence;
      var deleteCount := JavaDiv(WrapInt32(p.insertsPerBatch * p.percentOfDeletesPerBatch), 100);
      remaining, drawsSucceeded := SimulateDeletes(bigtable, bigQuery, bulk, builder, records, deleteCount, input.deletePicks);
      if drawsSucceeded {
        SentConcat(old(bulk.entries), old(builder.rows), old(bigQuery.insertSequence),
                   entries, rows, counter, bulk.entries, builder.rows, bigQuery.insertSequence,
                   Updated(ws, p, input).events, Deleted(ws, p, input).events);
      }
    } else {
      remaining, drawsSucceeded := records, true;
      SentNothing(bulk.entries, builder.rows, bigQuery.insertSequence);
      assert Updated(ws, p, input).events + Deleted(ws, p, input).events == [];
    }
  }

  /** The inserts, updates and deletes of one tick, after which the new sessions join
      the list at its end (`addAll`). False exactly when a delete draw meets an empty
      list. */
  method ChangeRecords(bigtable: BigtableService, bigQuery: BigQueryService,
                       bulk: BulkMutation, builder: InsertAllRequestBuilder,
                       p: Parameters, records: seq<Session>, input: TickInput)
    returns (pool: seq<Session>, drawsSucceeded: bool)
    requires Distinct(records)
    requires WellFormedFor(|records|, p, input)
    requires bigQuery.insertSequence + InsertCount(p) + UpdateCount(p, |records|) + DeleteCount(p, |records|) <= INT32_MAX
    modifies records, bulk, builder, bigQuery
    ensures drawsSucceeded <==> DrawsSucceed(old(Snapshot(records)), p)
    ensures drawsSucceeded ==>
      Snapshot(pool) == Pool(old(Snapshot(records)), p, input) && Distinct(pool) &&
      fresh(set s | s in pool && s !in records) &&
      Sent(bulk.entries, builder.rows, bigQuery.insertSequence,
           old(bulk.entries), old(builder.rows), old(bigQuery.insertSequence),
           InsertEvents(NewSessions(input.newSeeds)) + Updated(old(Snapshot(records)), p, input).events
             + Deleted(old(Snapshot(records)), p, input).events)
  {
    ghost var ws := Snapshot(records);
    var newInserts := CreateInserts(bigtable, bigQuery, bulk, builder, p, input.newSeeds);
    assert forall s :: s in newInserts ==> s !in records;
    ghost var created := Snapshot(newInserts);
    label inserted:
    ghost var e1, r1, c1 := bulk.entries, builder.rows, bigQuery.insertSequence;
    var remaining;
    remaining, drawsSucceeded := ChangePreviousRecords(bigtable, bigQuery, bulk, builder, p, records, input);
    pool := remaining + newInserts;
    if drawsSucceeded {
      assert Snapshot(newInserts) == created by {
        assert forall i :: 0 <= i < |newInserts| ==> newInserts[i] !in records && unchanged@inserted(newInserts[i]);
      }
      assert Snapshot(pool) == Pool(ws, p, input) && Distinct(pool) by {
        ObjectsDistinctAfterAddAll(remaining, newInserts);
        SnapshotConcat(remaining, newInserts);
      }
      SentConcat(old(bulk.entries), old(builder.rows), old(bigQuery.insertSequence),
                 e1, r1, c1, bulk.entries, builder.rows, bigQuery.insertSequence,
                 InsertEvents(NewSessions(input.newSeeds)), Updated(ws, p, input).events + Deleted(ws, p, input).events);
      ConcatAssoc(InsertEvents(NewSessions(input.newSeeds)), Updated(ws, p, input).events, Deleted(ws, p, input).events);
    }
  }

  /** How a tick ends: committed with the number of rows sent, stopped by a delete draw
      on an empty list (`nextInt(0)` throws), or stopped by one of the two stores
      rejecting its batch. */
  datatype TickOutcome = Committed(rowCount: nat) | DeleteDrawFailed | BigtableFailed | InsertAllFailed(errors: seq<string>)

  /** An upper bound on the rows one tick adds: inserts, updates, deletes, and one
      abandon per session of the list once the new sessions have joined it. */
  function RowBound(p: Parameters, size: nat): nat {
    2 * InsertCount(p) + UpdateCount(p, size) + DeleteCount(p, size) + size
  }

  /** The batch-building part of one pass of the streaming loop: a new bulk mutation and
      a new insert request filled with the tick's events, and the list the tick keeps.
      False exactly when a delete draw meets an empty list. */
  method FillBatches(bigtable: BigtableService, bigQuery: BigQueryService, tableId: TableId,
                     p: Parameters, records: seq<Session>, input: TickInput)
    returns (next: seq<Session>, bulk: BulkMutation, builder: InsertAllRequestBuilder, drawsSucceeded: bool)
    requires Distinct(records)
    requires WellFormedFor(|records|, p, input)
    requires bigQuery.insertSequence + RowBound(p, |records|) <= INT32_MAX
    modifies records, bigQuery
    ensures fresh(bulk) && fresh(builder) && bulk.tableId == SESSION_TABLE && builder.tableId == tableId
    ensures drawsSucceeded <==> Tick(old(Snapshot(records)), p, input).Some?
    ensures drawsSucceeded ==>
      Snapshot(next) == Tick(old(Snapshot(records)), p, input).value.records && Distinct(next) &&
      Sent(bulk.entries, builder.rows, bigQuery.insertSequence, [], [], old(bigQuery.insertSequence),
           Tick(old(Snapshot(records)), p, input).value.events)
  {
    ghost var ws := Snapshot(records);
    ghost var c0 := bigQuery.insertSequence;
    bulk := bigtable.CreateBulkMutationForSession();
    builder := new InsertAllRequestBuilder(tableId);
    var pool;
    pool, drawsSucceeded := ChangeRecords(bigtable, bigQuery, bulk, builder, p, records, input);
    next := pool;
    if drawsSucceeded {
      ghost var e1, r1, c1 := bulk.entries, builder.rows, bigQuery.insertSequence;
      ghost var changes := InsertEvents(NewSessions(input.newSeeds)) + Updated(ws, p, input).events + Deleted(ws, p, input).events;
      next := EvictOldest(bigtable, bigQuery, bulk, builder, pool, input.now);
      SentConcat([], [], c0, e1, r1, c1, bulk.entries, builder.rows, bigQuery.insertSequence,
                 changes, Evicted(ws, p, input).events);
    }
  }

  /** One pass of the streaming loop: fills a new bulk mutation and a new insert request
      with the tick's events, leaves the list the tick keeps, then sends the bulk
      mutation and, if the store took it, the insert request. The clock, the random
      draws, the UUIDs and both stores' answers are inputs. */
  method RunTick(bigtable: BigtableService, bigQuery: BigQueryService, tableId: TableId,
                 p: Parameters, records: seq<Session>, input: TickInput,
                 bigtableAccepts: bool, response: InsertAllResponse)
    returns (next: seq<Session>, bulk: BulkMutation, builder: InsertAllRequestBuilder, outcome: TickOutcome)
    requires Distinct(records)
    requires WellFormedFor(|records|, p, input)
    requires bigQuery.insertSequence + RowBound(p, |records|) <= INT32_MAX
    modifies records, bigQuery
    ensures fresh(bulk) && fresh(builder) && bulk.tableId == SESSION_TABLE && builder.tableId == tableId
    ensures outcome.DeleteDrawFailed? <==> Tick(old(Snapshot(records)), p, input).None?
    ensures Tick(old(Snapshot(records)), p, input).Some? ==>
      Snapshot(next) == Tick(old(Snapshot(records)), p, input).value.records && Distinct(next) &&
      bulk.entries == BigtableBatch(Tick(old(Snapshot(records)), p, input).value.events) &&
      builder.rows == BigQueryBatch(Tick(old(Snapshot(records)), p, input).value.events, old(bigQuery.insertSequence)) &&
      bigQuery.insertSequence == old(bigQuery.insertSequence) + |Tick(old(Snapshot(records)), p, input).value.events|
    ensures outcome.BigtableFailed? <==> Tick(old(Snapshot(records)), p, input).Some? && !bigtableAccepts
    ensures outcome.InsertAllFailed? <==> Tick(old(Snapshot(records)), p, input).Some? && bigtableAccepts && response.HasErrors()
    ensures outcome.InsertAllFailed? ==> outcome.errors == response.insertErrors
    ensures outcome.Committed? ==> outcome.rowCount == |builder.rows|
  {
    var drawsSucceeded;
    next, bulk, builder, drawsSucceeded := FillBatches(bigtable, bigQuery, tableId, p, records, input);
    if !drawsSucceeded {
      outcome := DeleteDrawFailed;
    } else if !bigtableAccepts {
      outcome := BigtableFailed;
    } else {
      var inserts := bigQuery.RunInsertAll(builder, response);
      match inserts {
        case InsertFailed(errors) => outcome := InsertAllFailed(errors);
        case Inserted(rowCount) => outcome := Committed(rowCount);
      }
    }
  }

  /** Old sessions and fresh ones never coincide, so their concatenation stays distinct. */
  lemma ObjectsDistinctAfterAddAll(remaining: seq<Session>, newInserts: seq<Session>)
    requires Distinct(remaining) && Distinct(newInserts)
    requires forall s :: s in remaining ==> s !in newInserts
    ensures Distinct(remaining + newInserts)
  {
    var pool := remaining + newInserts;
    forall i, j | 0 <= i < j < |pool| ensures pool[i] != pool[j] {
      if j < |remaining| {
        assert pool[i] == remaining[i] && pool[j] == remaining[j];
      } else if i >= |remaining| {
        assert pool[i] == newInserts[i - |remaining|] && pool[j] == newInserts[j - |remaining|];
      } else {
        assert pool[i] in remaining && pool[j] in newInserts;
      }
    }
  }
}
