/**
 * The thread context tracker: the process-wide map from thread id to the
 * timestamp of the last mention the bot handled in that thread.
 */
module Tracker {
  import opened Slack

  class ThreadTracker {
    var last: map<string, Timestamp>

    /** The tracker starts empty when the process starts. */
    constructor ()
      ensures last == map[]
    {
      last := map[];
    }

    /** A tracker that has already handled mentions, holding `m`. */
    constructor Resume(m: map<string, Timestamp>)
      ensures last == m
    {
      last := m;
    }

    /** `last.get(threadId, "0")`. */
    function Get(threadId: string): (ts: Timestamp)
      reads this
      ensures threadId in last ==> ts == last[threadId]
      ensures threadId !in last ==> ts == Zero
    {
      Lookup(last, threadId)
    }

    /** `last[threadId] = ts`. */
    method Set(threadId: string, ts: Timestamp)
      modifies this
      ensures last == old(last)[threadId := ts]
    {
      last := last[threadId := ts];
    }
  }

  /** How a thread id reads in a tracker map: its entry, or "0" when it has none. */
  function Lookup(m: map<string, Timestamp>, threadId: string): Timestamp {
    if threadId in m then m[threadId] else Zero
  }

  /** The tracker after `events` are handled one after another, starting from `m`. */
  function Track(m: map<string, Timestamp>, events: seq<Event>): (r: map<string, Timestamp>)
    ensures r.Keys == m.Keys + set i | 0 <= i < |events| :: ThreadId(events[i])
  {
    if events == [] then m
    else
      var init := events[..|events| - 1];
      assert (set i | 0 <= i < |events| :: ThreadId(events[i]))
          == (set i | 0 <= i < |init| :: ThreadId(init[i])) + {ThreadId(events[|events| - 1])};
      Track(m, init)[ThreadId(events[|events| - 1]) := events[|events| - 1].ts]
  }

  /** Handling one more mention is one more step of `Track`, for that mention's thread. */
  lemma TrackAppend(m: map<string, Timestamp>, events: seq<Event>, e: Event)
    ensures Track(m, events + [e]) == Track(m, events)[ThreadId(e) := e.ts]
  {
    assert (events + [e])[..|events|] == events;
  }

  /** A thread reads as the timestamp of its most recent mention. */
  lemma {:induction false} TrackedIsLastMention(m: map<string, Timestamp>, events: seq<Event>, k: nat)
    requires k < |events|
    requires forall j :: k < j < |events| ==> ThreadId(events[j]) != ThreadId(events[k])
    ensures Lookup(Track(m, events), ThreadId(events[k])) == events[k].ts
  {
    if k < |events| - 1 {
      var init := events[..|events| - 1];
      assert forall j :: k < j < |init| ==> init[j] == events[j];
      TrackedIsLastMention(m, init, k);
    }
  }

  /** A thread no event belongs to keeps its old reading. */
  lemma {:induction false} TrackOtherThreads(m: map<string, Timestamp>, events: seq<Event>, t: string)
    requires forall j :: 0 <= j < |events| ==> ThreadId(events[j]) != t
    ensures Lookup(Track(m, events), t) == Lookup(m, t)
  {
    if events != [] {
      var init := events[..|events| - 1];
      assert forall j :: 0 <= j < |init| ==> init[j] == events[j];
      TrackOtherThreads(m, init, t);
    }
  }

  /** The events of thread `t` carry non-decreasing timestamps, none below `t`'s reading in `m`. */
  predicate InOrderFor(m: map<string, Timestamp>, events: seq<Event>, t: string) {
    && (forall i, j :: 0 <= i < j < |events| && ThreadId(events[i]) == t && ThreadId(events[j]) == t
          ==> events[i].ts.micros <= events[j].ts.micros)
    && (forall j :: 0 <= j < |events| && ThreadId(events[j]) == t ==> Lookup(m, t).micros <= events[j].ts.micros)
  }

  /**
   * When the platform delivers a thread's mentions in timestamp order, the
   * thread's reading never goes down: every later reading is at least every
   * earlier one.
   */
  lemma {:induction false} TrackMonotone(m: map<string, Timestamp>, events: seq<Event>, t: string, n: nat)
    requires n <= |events|
    requires InOrderFor(m, events, t)
    ensures Lookup(Track(m, events[..n]), t).micros <= Lookup(Track(m, events), t).micros
  {
    if n < |events| {
      var init := events[..|events| - 1];
      assert events[..n] == init[..n];
      assert InOrderFor(m, init, t) by {
        assert forall j :: 0 <= j < |init| ==> init[j] == events[j];
      }
      TrackMonotone(m, init, t, n);
      var e := events[|events| - 1];
      if ThreadId(e) == t {
        TrackReadsBelow(m, init, t, e.ts.micros);
      }
    } else {
      assert events[..n] == events;
    }
  }

  /** Every reading of `t` comes from `m` or from an event of `t`. */
  lemma {:induction false} TrackReadsBelow(m: map<string, Timestamp>, events: seq<Event>, t: string, bound: int)
    requires Lookup(m, t).micros <= bound
    requires forall j :: 0 <= j < |events| && ThreadId(events[j]) == t ==> events[j].ts.micros <= bound
    ensures Lookup(Track(m, events), t).micros <= bound
  {
    if events != [] {
      var init := events[..|events| - 1];
      assert forall j :: 0 <= j < |init| ==> init[j] == events[j];
      TrackReadsBelow(m, init, t, bound);
    }
  }
}
