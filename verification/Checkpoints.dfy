/** Batched writes of job progress: no mark is lost, no pruned job comes back, no row goes back in time. */
module Checkpoints {
  import opened Types

  // A job's state is its version: it only ever moves forward, and a batch writes what it is when read.

  /** One flush in progress, between taking its batch and merging back. */
  datatype Flush =
    | NoFlush
    | Reading(batch: set<JobId>, snaps: map<JobId, nat>)
    | Saved(batch: set<JobId>, ok: bool)

  datatype State = State(
    version: map<JobId, nat>,
    dirty: set<JobId>,
    inFlight: set<JobId>,
    flush: Flush,
    rows: map<JobId, nat>,
    // A history: the version each job had when last marked, for jobs not pruned since.
    owed: map<JobId, nat>)

  datatype Event =
    | Move(id: JobId)
    | Mark(id: JobId)
    | Prune(id: JobId)
    | TakeBatch
    | ReadJob(id: JobId)
    | SaveBatch(ok: bool)
    | MergeBack

  function VersionOf(s: State, id: JobId): nat {
    if id in s.version then s.version[id] else 0
  }

  function RowOf(s: State, id: JobId): nat {
    if id in s.rows then s.rows[id] else 0
  }

  predicate Enabled(s: State, e: Event) {
    match e
    // One flush at a time; an empty dirty set ends it at once.
    case TakeBatch => s.flush.NoFlush? && s.dirty != {}
    case ReadJob(id) => s.flush.Reading? && id in s.flush.batch && id !in s.flush.snaps
    case SaveBatch(_) => s.flush.Reading? && s.flush.snaps.Keys == s.flush.batch
    case MergeBack => s.flush.Saved?
    case _ => true
  }

  /** What a failed batch puts back: whoever is still in flight. A job marked since is dirty already. */
  function Remerged(dirty: set<JobId>, inFlight: set<JobId>, batch: set<JobId>, ok: bool): set<JobId> {
    if ok then dirty else dirty + batch * inFlight
  }

  function Happen(s: State, e: Event): State
    requires Enabled(s, e)
  {
    match e
    case Move(id) => s.(version := s.version[id := VersionOf(s, id) + 1])
    case Mark(id) => s.(dirty := s.dirty + {id}, owed := s.owed[id := VersionOf(s, id)])
    case Prune(id) => s.(dirty := s.dirty - {id}, inFlight := s.inFlight - {id}, owed := s.owed - {id})
    case TakeBatch =>
      s.(dirty := {}, inFlight := s.inFlight + s.dirty, flush := Reading(s.dirty, map[]))
    case ReadJob(id) => s.(flush := Reading(s.flush.batch, s.flush.snaps[id := VersionOf(s, id)]))
    case SaveBatch(ok) =>
      s.(rows := if ok then s.rows + s.flush.snaps else s.rows, flush := Saved(s.flush.batch, ok))
    case MergeBack =>
      s.(dirty := Remerged(s.dirty, s.inFlight, s.flush.batch, s.flush.ok),
         inFlight := s.inFlight - s.flush.batch, flush := NoFlush)
  }

  ghost function History(events: seq<Event>): State
    decreases |events|
  {
    if events == [] then Initially
    else
      var s := History(events[..|events| - 1]);
      if Enabled(s, events[|events| - 1]) then Happen(s, events[|events| - 1]) else s
  }

  const Initially := State(map[], {}, {}, NoFlush, map[], map[])

  // ----- what every history keeps

  /** The write of a job marked and not pruned is still to come, or done. */
  ghost predicate Kept(s: State, id: JobId) {
    id in s.owed && id !in s.dirty ==>
      || (s.flush.Reading? && id in s.inFlight && (id in s.flush.snaps ==> s.owed[id] <= s.flush.snaps[id]))
      || (s.flush.Saved? && !s.flush.ok && id in s.inFlight)
      || s.owed[id] <= RowOf(s, id)
  }

  ghost predicate Forward(s: State) {
    && (forall id :: RowOf(s, id) <= VersionOf(s, id))
    && (forall id | id in s.owed :: s.owed[id] <= VersionOf(s, id))
    && (s.flush.Reading? ==>
          s.flush.snaps.Keys <= s.flush.batch
          && forall id | id in s.flush.snaps :: RowOf(s, id) <= s.flush.snaps[id] <= VersionOf(s, id))
  }

  ghost predicate Sound(s: State) {
    && s.dirty <= s.owed.Keys
    && (if s.flush.NoFlush? then s.inFlight == {} else s.inFlight <= s.flush.batch)
    && s.inFlight <= s.owed.Keys
    && Forward(s)
    && forall id :: Kept(s, id)
  }

  lemma EventKeepsSound(s: State, e: Event)
    requires Sound(s) && Enabled(s, e)
    ensures Sound(Happen(s, e))
    ensures forall id :: RowOf(s, id) <= RowOf(Happen(s, e), id)
  {
    var t := Happen(s, e);
    forall id ensures RowOf(t, id) <= VersionOf(t, id) && Kept(t, id) {
      assert RowOf(s, id) <= VersionOf(s, id) && Kept(s, id);
    }
    if e.MergeBack? {
      assert t.inFlight == {};
    }
  }

  lemma {:induction false} HistoryIsSound(events: seq<Event>)
    ensures Sound(History(events))
    decreases |events|
  {
    if events != [] {
      var s := History(events[..|events| - 1]);
      HistoryIsSound(events[..|events| - 1]);
      if Enabled(s, events[|events| - 1]) {
        EventKeepsSound(s, events[|events| - 1]);
      }
    }
  }

  /**
   * For every interleaving of marks, prunes and flushes that succeed or fail: a job marked and not pruned
   * since is dirty, in flight, or on disk at least as new as it was when last marked; a job that is dirty
   * or in flight has been marked since it was last pruned.
   */
  lemma NoMarkIsLost(events: seq<Event>, id: JobId)
    ensures var s := History(events);
            && (id in s.owed ==> id in s.dirty || id in s.inFlight || s.owed[id] <= RowOf(s, id))
            && (id in s.dirty || id in s.inFlight ==> id in s.owed)
  {
    HistoryIsSound(events);
    assert Kept(History(events), id);
  }

  /** When no flush is running, nothing is in flight: such a job is dirty or on disk. */
  lemma NothingIsStrandedInFlight(events: seq<Event>, id: JobId)
    requires History(events).flush.NoFlush? && id in History(events).owed && id !in History(events).dirty
    ensures History(events).owed[id] <= RowOf(History(events), id)
  {
    HistoryIsSound(events);
    assert Kept(History(events), id);
  }

  /** The rows never go back. */
  lemma {:induction false} RowsNeverGoBack(events: seq<Event>, more: seq<Event>, id: JobId)
    ensures RowOf(History(events), id) <= RowOf(History(events + more), id)
    decreases |more|
  {
    if more == [] {
      assert events + more == events;
    } else {
      var most := more[..|more| - 1];
      RowsNeverGoBack(events, most, id);
      assert (events + more)[..|events + more| - 1] == events + most;
      HistoryIsSound(events + most);
      if Enabled(History(events + most), more[|more| - 1]) {
        EventKeepsSound(History(events + most), more[|more| - 1]);
      }
    }
  }

  // ----- what a flush leaves to be done

  /** Marked in these events, and not pruned after that. */
  predicate StillMarked(events: seq<Event>, id: JobId)
    decreases |events|
  {
    events != [] &&
    var last := events[|events| - 1];
    last == Mark(id) || (last != Prune(id) && StillMarked(events[..|events| - 1], id))
  }

  /** A flush of this batch under way: what has been marked since, and who of the batch has not been pruned. */
  ghost predicate Flushing(s: State, batch: set<JobId>, since: seq<Event>) {
    && !s.flush.NoFlush? && s.flush.batch == batch
    && (forall id :: id in s.dirty <==> StillMarked(since, id))
    && (forall id :: id in s.inFlight <==> id in batch && Prune(id) !in since)
  }

  lemma FlushGoesOn(s: State, batch: set<JobId>, since: seq<Event>, e: Event)
    requires Flushing(s, batch, since) && !e.TakeBatch? && !e.MergeBack?
    ensures Flushing(if Enabled(s, e) then Happen(s, e) else s, batch, since + [e])
  {
    var t := if Enabled(s, e) then Happen(s, e) else s;
    assert (since + [e])[..|since|] == since;
    forall id ensures id in t.dirty <==> StillMarked(since + [e], id) {
      assert id in s.dirty <==> StillMarked(since, id);
    }
  }

  lemma {:induction false} FlushRuns(events: seq<Event>, since: seq<Event>)
    requires History(events).flush.NoFlush? && History(events).dirty != {}
    requires forall i | 0 <= i < |since| :: !since[i].TakeBatch? && !since[i].MergeBack?
    ensures Flushing(History(events + [TakeBatch] + since), History(events).dirty, since)
    decreases |since|
  {
    var begun := events + [TakeBatch];
    if since == [] {
      assert begun + since == begun && begun[..|events|] == events;
      HistoryIsSound(events);
    } else {
      var most, e := since[..|since| - 1], since[|since| - 1];
      FlushRuns(events, most);
      assert (begun + since)[..|begun + since| - 1] == begun + most;
      FlushGoesOn(History(begun + most), History(events).dirty, most, e);
      assert most + [e] == since;
    }
  }

  /**
   * Whatever is marked and pruned while a flush runs: when it is over, the jobs to be written are those marked
   * since it began and not pruned after that, and if it failed, also those of its batch not pruned since.
   */
  lemma FlushLeavesExactly(events: seq<Event>, since: seq<Event>, id: JobId)
    requires History(events).flush.NoFlush? && History(events).dirty != {}
    requires forall i | 0 <= i < |since| :: !since[i].TakeBatch? && !since[i].MergeBack?
    requires History(events + [TakeBatch] + since).flush.Saved?
    ensures var ok := History(events + [TakeBatch] + since).flush.ok;
            var t := History(events + [TakeBatch] + since + [MergeBack]);
            && t.flush.NoFlush?
            && (id in t.dirty <==>
                  StillMarked(since, id) || (!ok && id in History(events).dirty && Prune(id) !in since))
  {
    var all := events + [TakeBatch] + since;
    FlushRuns(events, since);
    assert (all + [MergeBack])[..|all|] == all;
  }

  // ----- the sets under their mutex

  class Checkpointer {
    var dirty: set<JobId>
    var inFlight: set<JobId>

    constructor ()
      ensures dirty == {} && inFlight == {}
    {
      dirty := {};
      inFlight := {};
    }

    method MarkJob(id: JobId)
      modifies this
      ensures dirty == old(dirty) + {id} && inFlight == old(inFlight)
    {
      dirty := dirty + {id};
    }

    method PruneJob(id: JobId)
      modifies this
      ensures dirty == old(dirty) - {id} && inFlight == old(inFlight) - {id}
    {
      dirty := dirty - {id};
      inFlight := inFlight - {id};
    }

    /** The first critical section of a flush. */
    method Take() returns (batch: set<JobId>)
      modifies this
      ensures batch == old(dirty) && dirty == {} && inFlight == old(inFlight) + batch
    {
      batch := dirty;
      dirty := {};
      inFlight := inFlight + batch;
    }

    /** The last: on failure whoever is still in flight and not marked again, then nobody is in flight. */
    method Merge(batch: set<JobId>, ok: bool)
      modifies this
      ensures dirty == Remerged(old(dirty), old(inFlight), batch, ok)
      ensures inFlight == old(inFlight) - batch
    {
      if !ok {
        var left := batch;
        while left != {}
          invariant left <= batch && inFlight == old(inFlight)
          invariant dirty == old(dirty) + (batch - left) * inFlight
          decreases |left|
        {
          var id :| id in left;
          left := left - {id};
          if id in inFlight && id !in dirty {
            dirty := dirty + {id};
          }
        }
      }
      var done := batch;
      while done != {}
        invariant done <= batch
        invariant inFlight == old(inFlight) - (batch - done)
        invariant dirty == Remerged(old(dirty), old(inFlight), batch, ok)
        decreases |done|
      {
        var id :| id in done;
        done := done - {id};
        inFlight := inFlight - {id};
      }
    }
  }
}
