/** Successive ticks, each on the working set the previous one left: a session deleted
    or evicted in one tick is never seen again. */
module SimulationRun {
  import opened Common
  import opened ConversionUtil
  import opened SessionModel
  import opened Simulation
  import opened SimulationPhases
  import opened SimulationTick

  /** Every tick of the run gets inputs of the right shape and none of its delete draws
      meets an empty list. */
  predicate RunWellFormed(ws: seq<SessionData>, p: Parameters, inputs: seq<TickInput>)
    decreases |inputs|
  {
    inputs == [] ||
    (WellFormedInput(ws, p, inputs[0]) && DrawsSucceed(ws, p) &&
     RunWellFormed(TickRecords(ws, p, inputs[0]), p, inputs[1..]))
  }

  /** The working set before each tick of the run. */
  function States(ws: seq<SessionData>, p: Parameters, inputs: seq<TickInput>): (states: seq<seq<SessionData>>)
    requires RunWellFormed(ws, p, inputs)
    decreases |inputs|
    ensures |states| == |inputs| && (inputs != [] ==> states[0] == ws)
  {
    if inputs == [] then []
    else [ws] + States(TickRecords(ws, p, inputs[0]), p, inputs[1..])
  }

  /** The events of each tick of the run. */
  function RunEvents(ws: seq<SessionData>, p: Parameters, inputs: seq<TickInput>): (events: seq<seq<Event>>)
    requires RunWellFormed(ws, p, inputs)
    decreases |inputs|
    ensures |events| == |inputs| && (inputs != [] ==> events[0] == TickEvents(ws, p, inputs[0]))
  {
    if inputs == [] then []
    else [TickEvents(ws, p, inputs[0])] + RunEvents(TickRecords(ws, p, inputs[0]), p, inputs[1..])
  }

  /** Tick t > 0 of a run is tick t - 1 of the run from the second working set on. */
  lemma RunTail(ws: seq<SessionData>, p: Parameters, inputs: seq<TickInput>)
    requires RunWellFormed(ws, p, inputs) && inputs != []
    ensures forall t :: 1 <= t < |inputs| ==>
      States(ws, p, inputs)[t] == States(TickRecords(ws, p, inputs[0]), p, inputs[1..])[t - 1] &&
      RunEvents(ws, p, inputs)[t] == RunEvents(TickRecords(ws, p, inputs[0]), p, inputs[1..])[t - 1]
  {
  }

  /** The ids of all new sessions of the run, tick by tick. */
  function AllSeedIds(inputs: seq<TickInput>): seq<string> {
    if inputs == [] then [] else Firsts(inputs[0].newSeeds) + AllSeedIds(inputs[1..])
  }

  lemma DistinctSplit(a: seq<string>, b: seq<string>)
    ensures DistinctIds(a + b) <==>
      DistinctIds(a) && DistinctIds(b) && forall x :: x in a ==> x !in b
  {
    if DistinctIds(a + b) {
      assert forall i, j :: 0 <= i < j < |a| ==> a[i] == (a + b)[i] && a[j] == (a + b)[j];
      assert forall i, j :: 0 <= i < j < |b| ==> b[i] == (a + b)[|a| + i] && b[j] == (a + b)[|a| + j];
      forall x | x in a ensures x !in b {
        var i :| 0 <= i < |a| && a[i] == x;
        forall j | 0 <= j < |b| ensures b[j] != x {
          assert (a + b)[i] == x && (a + b)[|a| + j] == b[j];
        }
      }
    }
    if DistinctIds(a) && DistinctIds(b) && forall x :: x in a ==> x !in b {
      forall i, j | 0 <= i < j < |a + b| ensures (a + b)[i] != (a + b)[j] {
        if j < |a| {
        } else if i >= |a| {
          assert (a + b)[i] == b[i - |a|] && (a + b)[j] == b[j - |a|];
        } else {
          assert (a + b)[i] in a && (a + b)[j] == b[j - |a|];
        }
      }
    }
  }

  /** An id neither in the working set nor among the run's new ids never appears in any
      event of the run. */
  lemma {:induction false} AbsentIdNeverAppears(ws: seq<SessionData>, p: Parameters, inputs: seq<TickInput>, x: string)
    requires RunWellFormed(ws, p, inputs)
    requires x !in Ids(ws) && x !in AllSeedIds(inputs)
    decreases |inputs|
    ensures forall t, i :: 0 <= t < |inputs| && 0 <= i < |RunEvents(ws, p, inputs)[t]| ==>
      RunEvents(ws, p, inputs)[t][i].session.sessionId != x
  {
    if inputs != [] {
      var next := TickRecords(ws, p, inputs[0]);
      var seeds := Firsts(inputs[0].newSeeds);
      TickIdsFrom(ws, p, inputs[0]);
      assert x !in seeds && x !in AllSeedIds(inputs[1..]);
      assert x !in Ids(next) by {
        forall j | 0 <= j < |next| ensures Ids(next)[j] != x {
          assert next[j].sessionId in Ids(ws) + seeds;
        }
      }
      AbsentIdNeverAppears(next, p, inputs[1..], x);
      RunTail(ws, p, inputs);
      var events: seq<seq<Event>> := RunEvents(ws, p, inputs);
      forall t: int, i: int | 0 <= t < |inputs| && 0 <= i < |events[t]| ensures events[t][i].session.sessionId != x {
        if t == 0 {
          assert events[0][i].session.sessionId in Ids(ws) + seeds;
        }
      }
    }
  }

  /** Deleted and evicted sessions are never seen again: if the working set's ids and all
      new ids of the run are distinct, then the id of a Delete event, or of an eviction's
      abandon event, in tick t appears in no event of any later tick. */
  lemma {:induction false} RetiredNeverReappear(ws: seq<SessionData>, p: Parameters, inputs: seq<TickInput>)
    requires RunWellFormed(ws, p, inputs)
    requires DistinctIds(Ids(ws) + AllSeedIds(inputs))
    decreases |inputs|
    ensures forall t, i, u, j ::
      0 <= t < u < |inputs| &&
      InsertCount(p) + UpdateCount(p, |States(ws, p, inputs)[t]|) <= i < |RunEvents(ws, p, inputs)[t]| &&
      0 <= j < |RunEvents(ws, p, inputs)[u]| ==>
        RunEvents(ws, p, inputs)[u][j].session.sessionId != RunEvents(ws, p, inputs)[t][i].session.sessionId
  {
    if inputs != [] {
      var next := TickRecords(ws, p, inputs[0]);
      var seeds := Firsts(inputs[0].newSeeds);
      var rest := AllSeedIds(inputs[1..]);
      assert Ids(ws) + AllSeedIds(inputs) == (Ids(ws) + seeds) + rest;
      DistinctSplit(Ids(ws) + seeds, rest);
      TickRetires(ws, p, inputs[0]);
      TickIdsFrom(ws, p, inputs[0]);
      assert DistinctIds(Ids(next) + rest) by {
        forall x | x in Ids(next) ensures x !in rest {
          var j :| 0 <= j < |next| && Ids(next)[j] == x;
          assert next[j].sessionId in Ids(ws) + seeds;
        }
        DistinctSplit(Ids(next), rest);
      }
      RetiredNeverReappear(next, p, inputs[1..]);
      RunTail(ws, p, inputs);
      var states: seq<seq<SessionData>> := States(ws, p, inputs);
      var events: seq<seq<Event>> := RunEvents(ws, p, inputs);
      var later := RunEvents(next, p, inputs[1..]);
      forall t: int, i: int, u: int, j: int |
        0 <= t < u < |inputs| &&
        InsertCount(p) + UpdateCount(p, |states[t]|) <= i < |events[t]| &&
        0 <= j < |events[u]|
        ensures events[u][j].session.sessionId != events[t][i].session.sessionId
      {
        if t == 0 {
          var x := events[0][i].session.sessionId;
          assert x !in Ids(next);
          assert x in Ids(ws) + seeds;
          assert x !in rest;
          AbsentIdNeverAppears(next, p, inputs[1..], x);
        }
      }
    }
  }
}
