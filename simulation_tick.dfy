/** Properties of a whole tick and of the two batches it fills. */
module SimulationTick {
  import opened Common
  import opened Constants
  import opened ConversionUtil
  import opened SessionModel
  import opened BigtableService
  import opened BigQueryService
  import opened Simulation
  import opened SimulationPhases

  function TickRecords(ws: seq<SessionData>, p: Parameters, input: TickInput): seq<SessionData>
    requires WellFormedInput(ws, p, input) && DrawsSucceed(ws, p)
  {
    Tick(ws, p, input).value.records
  }

  function TickEvents(ws: seq<SessionData>, p: Parameters, input: TickInput): seq<Event>
    requires WellFormedInput(ws, p, input) && DrawsSucceed(ws, p)
  {
    Tick(ws, p, input).value.events
  }

  /** Event i of a tick, by the phase that emitted it. */
  lemma TickEventAt(ws: seq<SessionData>, p: Parameters, input: TickInput, i: nat)
    requires WellFormedInput(ws, p, input) && DrawsSucceed(ws, p)
    requires i < |TickEvents(ws, p, input)|
    ensures var ins, upd, del := InsertCount(p), UpdateCount(p, |ws|), DeleteCount(p, |ws|);
      |TickEvents(ws, p, input)| == ins + upd + del + |Evicted(ws, p, input).events| &&
      TickEvents(ws, p, input)[i] ==
        if i < ins then Event(Insert, NewSessions(input.newSeeds)[i])
        else if i < ins + upd then Updated(ws, p, input).events[i - ins]
        else if i < ins + upd + del then Deleted(ws, p, input).events[i - ins - upd]
        else Evicted(ws, p, input).events[i - ins - upd - del]
  {
  }

  /** A session of the updated working set keeps an id of the old one. */
  lemma UpdatedIdIn(ws: seq<SessionData>, p: Parameters, input: TickInput, d: SessionData)
    requires WellFormedInput(ws, p, input)
    requires d in Updated(ws, p, input).records
    ensures d.sessionId in Ids(ws)
  {
    var u := Updated(ws, p, input).records;
    UpdatesKeepIds(ws, input.updatePicks, input.now, |input.updatePicks|);
    var j :| 0 <= j < |u| && u[j] == d;
    assert Ids(u)[j] == d.sessionId;
  }

  /** A session of the pool is a survivor of the old working set or a new session. */
  lemma PoolIdIn(ws: seq<SessionData>, p: Parameters, input: TickInput, d: SessionData)
    requires WellFormedInput(ws, p, input) && DrawsSucceed(ws, p)
    requires d in Pool(ws, p, input)
    ensures d in Deleted(ws, p, input).records ==> d.sessionId in Ids(ws)
    ensures d !in Deleted(ws, p, input).records ==>
      exists j :: 0 <= j < |input.newSeeds| && d == NewSessions(input.newSeeds)[j] && d.sessionId == Firsts(input.newSeeds)[j]
    ensures d.sessionId in Ids(ws) + Firsts(input.newSeeds)
  {
    var all := Ids(ws) + Firsts(input.newSeeds);
    var created := NewSessions(input.newSeeds);
    if d in Deleted(ws, p, input).records {
      DeletesKeep(Updated(ws, p, input).records, input.deletePicks, |input.deletePicks|);
      UpdatedIdIn(ws, p, input, d);
    } else {
      assert d in created;
      var j :| 0 <= j < |created| && created[j] == d;
      assert all[|ws| + j] == Firsts(input.newSeeds)[j] == d.sessionId;
    }
  }

  /** The working set after a tick: the survivors of the deletes followed by the new
      sessions, cut from the front to at most MAX_RECORDS; so its size is
      min(MAX_RECORDS, |ws| + inserts - deletes). */
  lemma TickIsFifo(ws: seq<SessionData>, p: Parameters, input: TickInput)
    requires WellFormedInput(ws, p, input) && DrawsSucceed(ws, p)
    ensures |TickRecords(ws, p, input)| == Min(MAX_RECORDS, |ws| + InsertCount(p) - DeleteCount(p, |ws|))
    ensures TickRecords(ws, p, input) ==
      (Deleted(ws, p, input).records + NewSessions(input.newSeeds))
        [|ws| + InsertCount(p) - DeleteCount(p, |ws|) - |TickRecords(ws, p, input)|..]
  {
    EvictIsFifo(Pool(ws, p, input), input.now);
  }

  /** The events of a tick, in order: one Insert per new session, then one Update per
      update draw for the drawn session, then one Delete per delete draw for a session of
      the working set, then the abandon Updates of eviction, at most one per session
      evicted. */
  lemma TickEventSegments(ws: seq<SessionData>, p: Parameters, input: TickInput)
    requires WellFormedInput(ws, p, input) && DrawsSucceed(ws, p)
    ensures InsertCount(p) + UpdateCount(p, |ws|) + DeleteCount(p, |ws|) <= |TickEvents(ws, p, input)|
      <= 2 * InsertCount(p) + UpdateCount(p, |ws|) + |ws|
    ensures forall i :: 0 <= i < InsertCount(p) ==>
      TickEvents(ws, p, input)[i] == Event(Insert, NewSession(input.newSeeds[i].0, input.newSeeds[i].1))
    ensures forall i :: InsertCount(p) <= i < InsertCount(p) + UpdateCount(p, |ws|) ==>
      TickEvents(ws, p, input)[i].op == Update &&
      TickEvents(ws, p, input)[i].session.sessionId == ws[input.updatePicks[i - InsertCount(p)]].sessionId
    ensures forall i :: InsertCount(p) + UpdateCount(p, |ws|) <= i < InsertCount(p) + UpdateCount(p, |ws|) + DeleteCount(p, |ws|) ==>
      TickEvents(ws, p, input)[i].op == Delete && TickEvents(ws, p, input)[i].session.sessionId in Ids(ws)
    ensures forall i :: InsertCount(p) + UpdateCount(p, |ws|) + DeleteCount(p, |ws|) <= i < |TickEvents(ws, p, input)| ==>
      TickEvents(ws, p, input)[i].op == Update && TickEvents(ws, p, input)[i].session.status == ABANDONED
  {
    EvictCount(Pool(ws, p, input), input.now);
    assert |TickEvents(ws, p, input)| ==
      InsertCount(p) + UpdateCount(p, |ws|) + DeleteCount(p, |ws|) + |Evicted(ws, p, input).events|;
    forall i | 0 <= i < |TickEvents(ws, p, input)| {
      TickEventKind(ws, p, input, i);
    }
  }

  /** The segment an event of the tick falls in decides what it is. */
  lemma TickEventKind(ws: seq<SessionData>, p: Parameters, input: TickInput, i: nat)
    requires WellFormedInput(ws, p, input) && DrawsSucceed(ws, p)
    requires i < |TickEvents(ws, p, input)|
    ensures i < InsertCount(p) ==>
      TickEvents(ws, p, input)[i] == Event(Insert, NewSession(input.newSeeds[i].0, input.newSeeds[i].1))
    ensures InsertCount(p) <= i < InsertCount(p) + UpdateCount(p, |ws|) ==>
      TickEvents(ws, p, input)[i].op == Update &&
      TickEvents(ws, p, input)[i].session.sessionId == ws[input.updatePicks[i - InsertCount(p)]].sessionId
    ensures InsertCount(p) + UpdateCount(p, |ws|) <= i < InsertCount(p) + UpdateCount(p, |ws|) + DeleteCount(p, |ws|) ==>
      TickEvents(ws, p, input)[i].op == Delete && TickEvents(ws, p, input)[i].session.sessionId in Ids(ws)
    ensures InsertCount(p) + UpdateCount(p, |ws|) + DeleteCount(p, |ws|) <= i ==>
      TickEvents(ws, p, input)[i].op == Update && TickEvents(ws, p, input)[i].session.status == ABANDONED
  {
    var ins, upd, del := InsertCount(p), UpdateCount(p, |ws|), DeleteCount(p, |ws|);
    var e := TickEvents(ws, p, input)[i];
    TickEventAt(ws, p, input, i);
    if i < ins {
    } else if i < ins + upd {
      UpdatesEvents(ws, input.updatePicks, input.now, |input.updatePicks|);
    } else if i < ins + upd + del {
      var u := Updated(ws, p, input).records;
      DeletesEvents(u, input.deletePicks, del);
      DeletedFrom(u, input.deletePicks, del, i - ins - upd);
      UpdatedIdIn(ws, p, input, e.session);
    } else {
      EvictedFrom(Pool(ws, p, input), input.now, i - ins - upd - del);
    }
  }

  /** Live sessions stay live: after a tick every session of the working set is
      consistent and not ABANDONED, and every event carries a consistent session. */
  lemma TickKeepsLive(ws: seq<SessionData>, p: Parameters, input: TickInput)
    requires WellFormedInput(ws, p, input) && DrawsSucceed(ws, p)
    requires forall j :: 0 <= j < |ws| ==> Live(ws[j])
    ensures forall j :: 0 <= j < |TickRecords(ws, p, input)| ==> Live(TickRecords(ws, p, input)[j])
    ensures forall i :: 0 <= i < |TickEvents(ws, p, input)| ==> Consistent(TickEvents(ws, p, input)[i].session)
  {
    PoolLive(ws, p, input);
    forall i | 0 <= i < |TickEvents(ws, p, input)| ensures Consistent(TickEvents(ws, p, input)[i].session) {
      TickEventConsistent(ws, p, input, i);
    }
    forall j | 0 <= j < |TickRecords(ws, p, input)| ensures Live(TickRecords(ws, p, input)[j]) {
      TickRecordFromPool(ws, p, input, j);
    }
  }

  /** Every session after the updates, and so every session of the pool, is live. */
  lemma PoolLive(ws: seq<SessionData>, p: Parameters, input: TickInput)
    requires WellFormedInput(ws, p, input) && DrawsSucceed(ws, p)
    requires forall j :: 0 <= j < |ws| ==> Live(ws[j])
    ensures forall d :: d in Updated(ws, p, input).records ==> Live(d)
    ensures forall d :: d in Pool(ws, p, input) ==> Live(d)
  {
    UpdatesKeepLive(ws, input.updatePicks, input.now, |input.updatePicks|);
    DeletesKeep(Updated(ws, p, input).records, input.deletePicks, DeleteCount(p, |ws|));
  }

  lemma TickEventConsistent(ws: seq<SessionData>, p: Parameters, input: TickInput, i: nat)
    requires WellFormedInput(ws, p, input) && DrawsSucceed(ws, p)
    requires forall j :: 0 <= j < |ws| ==> Live(ws[j])
    requires i < |TickEvents(ws, p, input)|
    ensures Consistent(TickEvents(ws, p, input)[i].session)
  {
    var ins, upd, del := InsertCount(p), UpdateCount(p, |ws|), DeleteCount(p, |ws|);
    TickEventAt(ws, p, input, i);
    if i < ins {
    } else if i < ins + upd {
      UpdatesKeepLive(ws, input.updatePicks, input.now, |input.updatePicks|);
    } else if i < ins + upd + del {
      PoolLive(ws, p, input);
      DeletedFrom(Updated(ws, p, input).records, input.deletePicks, del, i - ins - upd);
    } else {
      PoolLive(ws, p, input);
      EvictedFrom(Pool(ws, p, input), input.now, i - ins - upd - del);
    }
  }

  /** Every session left after a tick comes from the pool. */
  lemma TickRecordFromPool(ws: seq<SessionData>, p: Parameters, input: TickInput, j: nat)
    requires WellFormedInput(ws, p, input) && DrawsSucceed(ws, p)
    requires j < |TickRecords(ws, p, input)|
    ensures TickRecords(ws, p, input)[j] in Pool(ws, p, input)
  {
    var pool := Pool(ws, p, input);
    EvictIsFifo(pool, input.now);
    var k := if |pool| > MAX_RECORDS then |pool| - MAX_RECORDS else 0;
    assert TickRecords(ws, p, input)[j] == pool[k + j];
  }

  /** Every id a tick mentions, in its events or its working set, is an id of the old
      working set or of one of its new sessions. */
  lemma TickIdsFrom(ws: seq<SessionData>, p: Parameters, input: TickInput)
    requires WellFormedInput(ws, p, input) && DrawsSucceed(ws, p)
    ensures forall i :: 0 <= i < |TickEvents(ws, p, input)| ==>
      TickEvents(ws, p, input)[i].session.sessionId in Ids(ws) + Firsts(input.newSeeds)
    ensures forall j :: 0 <= j < |TickRecords(ws, p, input)| ==>
      TickRecords(ws, p, input)[j].sessionId in Ids(ws) + Firsts(input.newSeeds)
  {
    forall i | 0 <= i < |TickEvents(ws, p, input)|
      ensures TickEvents(ws, p, input)[i].session.sessionId in Ids(ws) + Firsts(input.newSeeds)
    {
      TickEventIdFrom(ws, p, input, i);
    }
    forall j | 0 <= j < |TickRecords(ws, p, input)|
      ensures TickRecords(ws, p, input)[j].sessionId in Ids(ws) + Firsts(input.newSeeds)
    {
      TickRecordFromPool(ws, p, input, j);
      PoolIdIn(ws, p, input, TickRecords(ws, p, input)[j]);
    }
  }

  lemma TickEventIdFrom(ws: seq<SessionData>, p: Parameters, input: TickInput, i: nat)
    requires WellFormedInput(ws, p, input) && DrawsSucceed(ws, p)
    requires i < |TickEvents(ws, p, input)|
    ensures TickEvents(ws, p, input)[i].session.sessionId in Ids(ws) + Firsts(input.newSeeds)
  {
    var ins, upd, del := InsertCount(p), UpdateCount(p, |ws|), DeleteCount(p, |ws|);
    var e := TickEvents(ws, p, input)[i];
    var all := Ids(ws) + Firsts(input.newSeeds);
    TickEventAt(ws, p, input, i);
    if i < ins {
      assert all[|ws| + i] == e.session.sessionId;
    } else if i < ins + upd {
      UpdatesEvents(ws, input.updatePicks, input.now, |input.updatePicks|);
      assert all[input.updatePicks[i - ins]] == ws[input.updatePicks[i - ins]].sessionId;
    } else if i < ins + upd + del {
      DeletedFrom(Updated(ws, p, input).records, input.deletePicks, del, i - ins - upd);
      UpdatedIdIn(ws, p, input, e.session);
    } else {
      var pool := Pool(ws, p, input);
      EvictedFrom(pool, input.now, i - ins - upd - del);
      var d :| d in pool && d.status != LOGGED_OUT && e == Event(Update, AfterAbandon(d, input.now));
      PoolIdIn(ws, p, input, d);
    }
  }

  /** An id of the old working set is not the id of a new session when all ids are
      distinct. */
  lemma OldIdNotNew(ws: seq<SessionData>, seeds: seq<(string, Instant)>, x: string, b: nat)
    requires DistinctIds(Ids(ws) + Firsts(seeds))
    requires x in Ids(ws) && b < |seeds|
    ensures x != Firsts(seeds)[b]
  {
    var all := Ids(ws) + Firsts(seeds);
    var j :| 0 <= j < |ws| && Ids(ws)[j] == x;
    assert all[j] == x && all[|ws| + b] == Firsts(seeds)[b];
  }

  /** New sessions join the working set only after the updates and deletes, so no
      Update or Delete of those phases is for a session created in the same tick. */
  lemma NewSessionsUntouched(ws: seq<SessionData>, p: Parameters, input: TickInput, i: nat, b: nat)
    requires WellFormedInput(ws, p, input) && DrawsSucceed(ws, p)
    requires DistinctIds(Ids(ws) + Firsts(input.newSeeds))
    requires InsertCount(p) <= i < InsertCount(p) + UpdateCount(p, |ws|) + DeleteCount(p, |ws|)
    requires b < |input.newSeeds|
    ensures i < |TickEvents(ws, p, input)|
    ensures TickEvents(ws, p, input)[i].session.sessionId != input.newSeeds[b].0
  {
    TickEventSegments(ws, p, input);
    TickEventKind(ws, p, input, i);
    var x := TickEvents(ws, p, input)[i].session.sessionId;
    if i < InsertCount(p) + UpdateCount(p, |ws|) {
      assert x == Ids(ws)[input.updatePicks[i - InsertCount(p)]];
    }
    OldIdNotNew(ws, input.newSeeds, x, b);
  }

  /** The pool's ids are distinct when the old and new ids are. */
  lemma PoolDistinct(ws: seq<SessionData>, p: Parameters, input: TickInput)
    requires WellFormedInput(ws, p, input) && DrawsSucceed(ws, p)
    requires DistinctIds(Ids(ws) + Firsts(input.newSeeds))
    ensures DistinctIds(Ids(Deleted(ws, p, input).records))
    ensures forall k :: 0 <= k < DeleteCount(p, |ws|) ==>
      Deleted(ws, p, input).events[k].session.sessionId !in Ids(Deleted(ws, p, input).records)
    ensures DistinctIds(Ids(Pool(ws, p, input)))
  {
    var all := Ids(ws) + Firsts(input.newSeeds);
    var u := Updated(ws, p, input).records;
    var left := Deleted(ws, p, input).records;
    var pool := Pool(ws, p, input);
    var seeds := input.newSeeds;
    assert DistinctIds(Ids(u)) by {
      UpdatesKeepIds(ws, input.updatePicks, input.now, |input.updatePicks|);
      forall a, b | 0 <= a < b < |ws| ensures Ids(u)[a] != Ids(u)[b] {
        assert all[a] == Ids(u)[a] && all[b] == Ids(u)[b];
      }
    }
    DeletesRetire(u, input.deletePicks, |input.deletePicks|);
    forall a, b | 0 <= a < b < |pool| ensures Ids(pool)[a] != Ids(pool)[b] {
      if b < |left| {
        assert Ids(pool)[a] == Ids(left)[a] && Ids(pool)[b] == Ids(left)[b];
      } else if a < |left| {
        assert pool[a] in left;
        PoolIdIn(ws, p, input, pool[a]);
        assert NewSessions(seeds)[b - |left|] == pool[b];
        OldIdNotNew(ws, seeds, pool[a].sessionId, b - |left|);
      } else {
        assert all[|ws| + a - |left|] == Ids(pool)[a] && all[|ws| + b - |left|] == Ids(pool)[b];
      }
    }
  }

  /** The tick's working set is the pool with its first k sessions cut off. */
  lemma RecordsArePoolSuffix(ws: seq<SessionData>, p: Parameters, input: TickInput)
    requires WellFormedInput(ws, p, input) && DrawsSucceed(ws, p)
    ensures |TickRecords(ws, p, input)| <= |Pool(ws, p, input)|
    ensures TickRecords(ws, p, input) == Pool(ws, p, input)[|Pool(ws, p, input)| - |TickRecords(ws, p, input)|..]
  {
    EvictIsFifo(Pool(ws, p, input), input.now);
  }

  /** A session the delete phase removed is not in the tick's working set. */
  lemma RetiredByDelete(ws: seq<SessionData>, p: Parameters, input: TickInput, k: nat)
    requires WellFormedInput(ws, p, input) && DrawsSucceed(ws, p)
    requires DistinctIds(Ids(ws) + Firsts(input.newSeeds))
    requires k < DeleteCount(p, |ws|)
    ensures Deleted(ws, p, input).events[k].session.sessionId !in Ids(TickRecords(ws, p, input))
  {
    var left := Deleted(ws, p, input).records;
    var pool := Pool(ws, p, input);
    var records := TickRecords(ws, p, input);
    var d := Deleted(ws, p, input).events[k].session;
    var x := d.sessionId;
    RecordsArePoolSuffix(ws, p, input);
    var c := |pool| - |records|;
    PoolDistinct(ws, p, input);
    DeletedFrom(Updated(ws, p, input).records, input.deletePicks, |input.deletePicks|, k);
    UpdatedIdIn(ws, p, input, d);
    forall j | 0 <= j < |records| ensures Ids(records)[j] != x {
      if c + j < |left| {
        assert Ids(records)[j] == Ids(left)[c + j];
      } else {
        assert NewSessions(input.newSeeds)[c + j - |left|] == records[j];
        OldIdNotNew(ws, input.newSeeds, x, c + j - |left|);
      }
    }
  }

  /** A session eviction abandoned is not in the tick's working set. */
  lemma RetiredByEviction(ws: seq<SessionData>, p: Parameters, input: TickInput, k: nat)
    requires WellFormedInput(ws, p, input) && DrawsSucceed(ws, p)
    requires DistinctIds(Ids(ws) + Firsts(input.newSeeds))
    requires k < |Evicted(ws, p, input).events|
    ensures Evicted(ws, p, input).events[k].session.sessionId !in Ids(TickRecords(ws, p, input))
  {
    var pool := Pool(ws, p, input);
    var records := TickRecords(ws, p, input);
    var x := Evicted(ws, p, input).events[k].session.sessionId;
    RecordsArePoolSuffix(ws, p, input);
    var c := |pool| - |records|;
    PoolDistinct(ws, p, input);
    EvictedFromPrefix(pool, input.now, k);
    var a :| 0 <= a < c && Evicted(ws, p, input).events[k] == Event(Update, AfterAbandon(pool[a], input.now));
    forall j | 0 <= j < |records| ensures Ids(records)[j] != x {
      assert Ids(records)[j] == Ids(pool)[c + j] && Ids(pool)[a] == x;
    }
  }

  /** With distinct ids in the working set and fresh distinct ids for the new sessions,
      ids stay distinct, and no session deleted or evicted by the tick remains in the
      working set. */
  lemma TickRetires(ws: seq<SessionData>, p: Parameters, input: TickInput)
    requires WellFormedInput(ws, p, input) && DrawsSucceed(ws, p)
    requires DistinctIds(Ids(ws) + Firsts(input.newSeeds))
    ensures DistinctIds(Ids(TickRecords(ws, p, input)))
    ensures forall i :: InsertCount(p) + UpdateCount(p, |ws|) <= i < |TickEvents(ws, p, input)| ==>
      TickEvents(ws, p, input)[i].session.sessionId !in Ids(TickRecords(ws, p, input))
  {
    var pool := Pool(ws, p, input);
    var records := TickRecords(ws, p, input);
    PoolDistinct(ws, p, input);
    RecordsArePoolSuffix(ws, p, input);
    var k := |pool| - |records|;
    forall a, b | 0 <= a < b < |records| ensures Ids(records)[a] != Ids(records)[b] {
      assert Ids(records)[a] == Ids(pool)[k + a] && Ids(records)[b] == Ids(pool)[k + b];
    }
    var ins, upd, del := InsertCount(p), UpdateCount(p, |ws|), DeleteCount(p, |ws|);
    forall i | ins + upd <= i < |TickEvents(ws, p, input)|
      ensures TickEvents(ws, p, input)[i].session.sessionId !in Ids(records)
    {
      TickEventAt(ws, p, input, i);
      if i < ins + upd + del {
        RetiredByDelete(ws, p, input, i - ins - upd);
      } else {
        RetiredByEviction(ws, p, input, i - ins - upd - del);
      }
    }
  }

  // ----- the two batches -----

  /** The two batches of a tick line up: the same length, entry i of both is for the same
      session id, a delete-row entry exactly where the row is tagged "D", and the rows
      carry consecutive sequence numbers after `last`, so they strictly increase. */
  lemma BatchesAgree(events: seq<Event>, last: int)
    ensures |BigtableBatch(events)| == |BigQueryBatch(events, last)|
    ensures forall i :: 0 <= i < |events| ==>
      BigQueryBatch(events, last)[i][SESSION_ID_COLUMN] == Text(BigtableBatch(events)[i].rowKey) &&
      BigQueryBatch(events, last)[i][DI_SEQUENCE_COLUMN] == Integer(last + i + 1) &&
      (BigtableBatch(events)[i].mutation == DeleteMutation() <==> BigQueryBatch(events, last)[i][DI_OPERATION_COLUMN] == Text(DELETE_OP))
    ensures forall i, j :: 0 <= i < j < |events| ==>
      BigQueryBatch(events, last)[i][DI_SEQUENCE_COLUMN].number < BigQueryBatch(events, last)[j][DI_SEQUENCE_COLUMN].number
  {
    forall i | 0 <= i < |events|
      ensures BigQueryBatch(events, last)[i][SESSION_ID_COLUMN] == Text(BigtableBatch(events)[i].rowKey)
      ensures BigtableBatch(events)[i].mutation == DeleteMutation() <==> BigQueryBatch(events, last)[i][DI_OPERATION_COLUMN] == Text(DELETE_OP)
    {
      var e := events[i];
      RowShape(e.session);
      TaggedRowChangesOnlyTags(ToBigQueryRow(e.session), OpCode(e.op), last + i + 1);
      if e.op != Delete {
        assert UpsertMutation(e.session).ops[0].SetCell?;
      }
    }
  }

  // ----- the worked example -----

  /** Ten sessions in the working set, ten inserts, 20% updates and 10% deletes: two
      Update events, one Delete event, no eviction, and 19 sessions afterwards. */
  lemma WorkedExample(ws: seq<SessionData>, input: TickInput)
    requires |ws| == 10
    requires WellFormedInput(ws, Parameters(10, 20, 10), input)
    ensures UpdateCount(Parameters(10, 20, 10), |ws|) == 2 && DeleteCount(Parameters(10, 20, 10), |ws|) == 1
    ensures Tick(ws, Parameters(10, 20, 10), input).Some?
    ensures |Tick(ws, Parameters(10, 20, 10), input).value.records| == 19
    ensures |Tick(ws, Parameters(10, 20, 10), input).value.events| == 13
  {
    var p := Parameters(10, 20, 10);
    assert WrapInt32(200) == 200 && WrapInt32(100) == 100;
    assert JavaDiv(200, 100) == 2 && JavaDiv(100, 100) == 1;
    var updated := Updates(ws, input.updatePicks, input.now, 2);
    var deleted := Deletes(updated.records, input.deletePicks, 1);
    var pool := deleted.records + NewSessions(input.newSeeds);
    assert |pool| == 19;
    assert Evict(pool, input.now) == StepResult(pool, []);
  }
}
