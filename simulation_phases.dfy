/** Properties of the phases of a tick, one phase at a time. */
module SimulationPhases {
  import opened Common
  import opened ConversionUtil
  import opened SessionModel
  import opened Simulation

  /** A session the driver keeps in its working set: consistent, and never ABANDONED
      (abandoning happens only on eviction). */
  predicate Live(d: SessionData) {
    Consistent(d) && d.status != ABANDONED
  }

  // ----- eviction -----

  /** Eviction is FIFO: it keeps the last min(MAX_RECORDS, |ws|) sessions unchanged and
      emits exactly the abandon events of the dropped prefix, front first. */
  lemma {:induction false} EvictIsFifo(ws: seq<SessionData>, now: Instant)
    decreases |ws|
    ensures var k := if |ws| > MAX_RECORDS then |ws| - MAX_RECORDS else 0;
      Evict(ws, now).records == ws[k..] && Evict(ws, now).events == AbandonEvents(ws[..k], now)
  {
    if |ws| > MAX_RECORDS {
      var k := |ws| - MAX_RECORDS;
      EvictIsFifo(ws[1..], now);
      assert ws[1..][k - 1..] == ws[k..];
      assert ws[..k][1..] == ws[1..][..k - 1];
      assert ws[..k][0] == ws[0];
    } else {
      assert ws[..0] == [];
    }
  }

  /** The abandon events of a dropped prefix: one Update per dropped session that was not
      LOGGED_OUT, carrying it ABANDONED with end `now`, and nothing else. */
  lemma {:induction false} AbandonEventsShape(dropped: seq<SessionData>, now: Instant)
    ensures forall e :: e in AbandonEvents(dropped, now) ==>
      exists d :: d in dropped && d.status != LOGGED_OUT && e == Event(Update, AfterAbandon(d, now))
    ensures forall d :: d in dropped && d.status != LOGGED_OUT ==> Event(Update, AfterAbandon(d, now)) in AbandonEvents(dropped, now)
    ensures |AbandonEvents(dropped, now)| <= |dropped|
  {
    if dropped != [] {
      AbandonEventsShape(dropped[1..], now);
      forall d | d in dropped[1..] ensures d in dropped {}
      forall d | d in dropped && d.status != LOGGED_OUT
        ensures Event(Update, AfterAbandon(d, now)) in AbandonEvents(dropped, now)
      {
        if d != dropped[0] {
          assert d in dropped[1..];
        }
      }
    }
  }

  // ----- updates -----

  /** Updates change sessions in place: every id keeps its position. */
  lemma {:induction false} UpdatesKeepIds(ws: seq<SessionData>, picks: seq<nat>, now: Instant, n: nat)
    requires n <= |picks|
    requires forall k :: 0 <= k < |picks| ==> picks[k] < |ws|
    ensures Ids(Updates(ws, picks, now, n).records) == Ids(ws)
  {
    if n > 0 {
      UpdatesKeepIds(ws, picks, now, n - 1);
      var prev := Updates(ws, picks, now, n - 1);
      var r := Updates(ws, picks, now, n);
      forall i | 0 <= i < |ws| ensures Ids(r.records)[i] == Ids(prev.records)[i] {}
    }
  }

  /** Draw k emits an Update for the session at position picks[k]. */
  lemma {:induction false} UpdatesEvents(ws: seq<SessionData>, picks: seq<nat>, now: Instant, n: nat)
    requires n <= |picks|
    requires forall k :: 0 <= k < |picks| ==> picks[k] < |ws|
    ensures forall k :: 0 <= k < n ==>
      Updates(ws, picks, now, n).events[k].op == Update &&
      Updates(ws, picks, now, n).events[k].session.sessionId == ws[picks[k]].sessionId
  {
    if n > 0 {
      UpdatesEvents(ws, picks, now, n - 1);
      UpdatesKeepIds(ws, picks, now, n - 1);
      var prev := Updates(ws, picks, now, n - 1);
      var r := Updates(ws, picks, now, n);
      var j := picks[n - 1];
      assert prev.records[j].sessionId == Ids(prev.records)[j];
      assert r.events[n - 1].session.sessionId == ws[j].sessionId;
      assert forall k :: 0 <= k < n - 1 ==> r.events[k] == prev.events[k];
    }
  }

  /** A position no draw hit is left unchanged. */
  lemma {:induction false} UpdatesUntouched(ws: seq<SessionData>, picks: seq<nat>, now: Instant, n: nat)
    requires n <= |picks|
    requires forall k :: 0 <= k < |picks| ==> picks[k] < |ws|
    ensures forall j :: 0 <= j < |ws| && j !in picks[..n] ==> Updates(ws, picks, now, n).records[j] == ws[j]
  {
    if n > 0 {
      UpdatesUntouched(ws, picks, now, n - 1);
      assert picks[..n] == picks[..n - 1] + [picks[n - 1]];
    }
  }

  /** An advance keeps a live session live and its id and start unchanged. */
  lemma AdvanceKeepsLive(d: SessionData, i: nat, now: Instant)
    requires Live(d)
    ensures var a := Advance(d, i, now);
      Live(a) && a.sessionId == d.sessionId && a.start == d.start &&
      (d.status == NEW ==> a.status == LOGGED_IN && a.customerKey == Some("customer" + NatToString(i))) &&
      (d.status == LOGGED_IN ==> a.status == LOGGED_OUT && a.end == Some(now)) &&
      (d.status == LOGGED_OUT ==> a == d)
  {
  }

  lemma {:induction false} UpdatesKeepLive(ws: seq<SessionData>, picks: seq<nat>, now: Instant, n: nat)
    requires n <= |picks|
    requires forall k :: 0 <= k < |picks| ==> picks[k] < |ws|
    requires forall j :: 0 <= j < |ws| ==> Live(ws[j])
    ensures forall j :: 0 <= j < |ws| ==> Live(Updates(ws, picks, now, n).records[j])
    ensures forall k :: 0 <= k < n ==> Live(Updates(ws, picks, now, n).events[k].session)
  {
    if n > 0 {
      UpdatesKeepLive(ws, picks, now, n - 1);
      var prev := Updates(ws, picks, now, n - 1);
      var r := Updates(ws, picks, now, n);
      assert forall j :: 0 <= j < |prev.records| ==> Live(prev.records[j]);
      assert forall k :: 0 <= k < n - 1 ==> Live(prev.events[k].session);
      var j := picks[n - 1];
      AdvanceKeepsLive(prev.records[j], n - 1, now);
      assert forall k :: 0 <= k < n - 1 ==> r.events[k] == prev.events[k];
    }
  }

  // ----- deletes -----

  /** Deletes take sessions out unchanged: what remains and what was deleted together
      are exactly the sessions there were. */
  lemma {:induction false} DeletesPartition(ws: seq<SessionData>, picks: seq<nat>, n: nat)
    requires n <= |picks| && n <= |ws|
    requires ValidDeletePicks(|ws|, picks)
    ensures multiset(ws) == multiset(Deletes(ws, picks, n).records) + multiset(Sessions(Deletes(ws, picks, n).events))
  {
    if n > 0 {
      DeletesPartition(ws, picks, n - 1);
      var prev := Deletes(ws, picks, n - 1);
      var j := picks[n - 1];
      RemoveAtMultiset(prev.records, j);
      SessionsAppend(prev.events, Event(Delete, prev.records[j]));
    }
  }

  lemma RemoveAtMultiset<T>(s: seq<T>, j: nat)
    requires j < |s|
    ensures multiset(s) == multiset(s[..j] + s[j + 1..]) + multiset{s[j]}
  {
    assert s == s[..j] + [s[j]] + s[j + 1..];
  }

  lemma SessionsAppend(events: seq<Event>, e: Event)
    ensures Sessions(events + [e]) == Sessions(events) + [e.session]
  {
  }

  /** Every event of the delete phase is a Delete. */
  lemma {:induction false} DeletesEvents(ws: seq<SessionData>, picks: seq<nat>, n: nat)
    requires n <= |picks| && n <= |ws|
    requires ValidDeletePicks(|ws|, picks)
    ensures forall k :: 0 <= k < n ==> Deletes(ws, picks, n).events[k].op == Delete
  {
    if n > 0 {
      DeletesEvents(ws, picks, n - 1);
      var prev := Deletes(ws, picks, n - 1);
      assert forall k :: 0 <= k < n - 1 ==> Deletes(ws, picks, n).events[k] == prev.events[k];
    }
  }

  function Sessions(events: seq<Event>): (sessions: seq<SessionData>)
    ensures |sessions| == |events|
  {
    seq(|events|, i requires 0 <= i < |events| => events[i].session)
  }

  /** Delete event k carries a session of the working set it was drawn from. */
  lemma DeletedFrom(ws: seq<SessionData>, picks: seq<nat>, n: nat, k: nat)
    requires n <= |picks| && n <= |ws|
    requires ValidDeletePicks(|ws|, picks)
    requires k < n
    ensures Deletes(ws, picks, n).events[k].session in ws
  {
    DeletesPartition(ws, picks, n);
    var r := Deletes(ws, picks, n);
    assert r.events[k].session == Sessions(r.events)[k];
    assert r.events[k].session in multiset(ws);
  }

  /** What remains after deletes was there before. */
  lemma DeletesKeep(ws: seq<SessionData>, picks: seq<nat>, n: nat)
    requires n <= |picks| && n <= |ws|
    requires ValidDeletePicks(|ws|, picks)
    ensures forall d :: d in Deletes(ws, picks, n).records ==> d in ws
  {
    DeletesPartition(ws, picks, n);
    forall d | d in Deletes(ws, picks, n).records ensures d in ws {
      assert d in multiset(Deletes(ws, picks, n).records);
    }
  }

  /** Eviction event i abandons a session of the list that was not LOGGED_OUT. */
  lemma EvictedFrom(ws: seq<SessionData>, now: Instant, i: nat)
    requires i < |Evict(ws, now).events|
    ensures exists d :: d in ws && d.status != LOGGED_OUT && Evict(ws, now).events[i] == Event(Update, AfterAbandon(d, now))
  {
    EvictIsFifo(ws, now);
    var k := if |ws| > MAX_RECORDS then |ws| - MAX_RECORDS else 0;
    AbandonEventsShape(ws[..k], now);
    var e := Evict(ws, now).events[i];
    assert e in AbandonEvents(ws[..k], now);
    var d :| d in ws[..k] && d.status != LOGGED_OUT && e == Event(Update, AfterAbandon(d, now));
    assert d in ws;
  }

  /** Eviction event i abandons a session of the dropped prefix. */
  lemma EvictedFromPrefix(ws: seq<SessionData>, now: Instant, i: nat)
    requires i < |Evict(ws, now).events|
    ensures |Evict(ws, now).records| <= |ws|
    ensures exists a ::
      0 <= a < |ws| - |Evict(ws, now).records| && Evict(ws, now).events[i] == Event(Update, AfterAbandon(ws[a], now))
  {
    EvictIsFifo(ws, now);
    var k := if |ws| > MAX_RECORDS then |ws| - MAX_RECORDS else 0;
    AbandonEventsShape(ws[..k], now);
    var e := Evict(ws, now).events[i];
    assert e in AbandonEvents(ws[..k], now);
    var d :| d in ws[..k] && d.status != LOGGED_OUT && e == Event(Update, AfterAbandon(d, now));
    var a :| 0 <= a < k && ws[..k][a] == d;
  }

  /** Eviction emits at most one event per session it removes. */
  lemma EvictCount(ws: seq<SessionData>, now: Instant)
    ensures |Evict(ws, now).events| + |Evict(ws, now).records| <= |ws|
  {
    EvictIsFifo(ws, now);
    var k := if |ws| > MAX_RECORDS then |ws| - MAX_RECORDS else 0;
    AbandonEventsShape(ws[..k], now);
  }

  /** With distinct ids, the ids left and the ids deleted stay distinct and disjoint. */
  lemma {:induction false} DeletesRetire(ws: seq<SessionData>, picks: seq<nat>, n: nat)
    requires n <= |picks| && n <= |ws|
    requires ValidDeletePicks(|ws|, picks)
    requires DistinctIds(Ids(ws))
    ensures DistinctIds(Ids(Deletes(ws, picks, n).records))
    ensures forall k :: 0 <= k < n ==> Deletes(ws, picks, n).events[k].session.sessionId !in Ids(Deletes(ws, picks, n).records)
    ensures forall d :: d in Deletes(ws, picks, n).records ==> d in ws
  {
    if n > 0 {
      DeletesRetire(ws, picks, n - 1);
      var prev := Deletes(ws, picks, n - 1);
      var r := Deletes(ws, picks, n);
      var j := picks[n - 1];
      IdsRemoveAt(prev.records, j);
      RemoveAtDistinct(Ids(prev.records), j);
      forall k | 0 <= k < n ensures r.events[k].session.sessionId !in Ids(r.records) {
        if k == n - 1 {
          assert r.events[k].session.sessionId == Ids(prev.records)[j];
        }
      }
      forall d | d in r.records ensures d in ws {
        assert d in prev.records;
      }
    }
  }

  lemma IdsRemoveAt(ws: seq<SessionData>, j: nat)
    requires j < |ws|
    ensures Ids(ws[..j] + ws[j + 1..]) == Ids(ws)[..j] + Ids(ws)[j + 1..]
  {
  }

  /** Removing one id of a distinct list keeps it distinct, loses that id, and leaves
      only ids that were there. */
  lemma RemoveAtDistinct(ids: seq<string>, j: nat)
    requires j < |ids| && DistinctIds(ids)
    ensures DistinctIds(ids[..j] + ids[j + 1..])
    ensures ids[j] !in ids[..j] + ids[j + 1..]
    ensures forall x :: x in ids[..j] + ids[j + 1..] ==> x in ids
  {
    var rest := ids[..j] + ids[j + 1..];
    forall a, b | 0 <= a < b < |rest| ensures rest[a] != rest[b] {
      var a', b' := if a < j then a else a + 1, if b < j then b else b + 1;
      assert rest[a] == ids[a'] && rest[b] == ids[b'];
    }
    forall a | 0 <= a < |rest| ensures rest[a] != ids[j] {
      var a' := if a < j then a else a + 1;
      assert rest[a] == ids[a'];
    }
  }
}
