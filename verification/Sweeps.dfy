/** Which jobs a reload's checkpoint pass protects, and which it gives up, told by what happened in it. */
module Sweeps {
  import opened Types
  import opened AtRisk

  /** The reload is at its checkpoint pass, and this job is still to be judged. */
  predicate InSweep(s: State, job: JobId) {
    s.reload.Sweeping? && job in s.reload.todo
  }

  predicate IsRestart(e: Event) {
    e.OfReload? && e.r.Restart?
  }

  // ----- which checkpoints count

  /** The job's last checkpoint began in the pass under way, before the job was judged. */
  ghost predicate BegunInSweep(w: World, events: seq<Event>, job: JobId)
    decreases |events|
  {
    events != [] &&
    var most, e := events[..|events| - 1], events[|events| - 1];
    var s := History(w, most);
    if !Enabled(w, s, e) then BegunInSweep(w, most, job)
    else if e == OfCheckpoint(Begin(job)) then InSweep(s, job)
    else !IsRestart(e) && BegunInSweep(w, most, job)
  }

  /** This checkpoint acked its articles, having begun in the pass under way. */
  ghost predicate AckedInSweep(w: World, events: seq<Event>, call: nat)
    decreases |events|
  {
    events != [] &&
    var most, e := events[..|events| - 1], events[|events| - 1];
    var s := History(w, most);
    if !Enabled(w, s, e) then AckedInSweep(w, most, call)
    else if e.OfCheckpoint? && e.c.AckJob? && call == s.minted then BegunInSweep(w, most, e.c.job)
    else !IsRestart(e) && AckedInSweep(w, most, call)
  }

  /** In the pass under way a checkpoint of the job, begun in it, has found no file open or has succeeded and settled. */
  ghost predicate IsProtected(w: World, events: seq<Event>, job: JobId)
    decreases |events|
  {
    events != [] &&
    var most, e := events[..|events| - 1], events[|events| - 1];
    var s := History(w, most);
    if !Enabled(w, s, e) then IsProtected(w, most, job)
    else
      || (e == OfCheckpoint(NoFiles(job)) && BegunInSweep(w, most, job))
      || (e.OfCheckpoint? && e.c.Settle? && s.tally.settling[e.c.call].job == job && AckedInSweep(w, most, e.c.call))
      || (!IsRestart(e) && e != OfReload(Quiesce) && IsProtected(w, most, job))
  }

  lemma CheckpointStep(w: World, s: State, e: Event, job: JobId)
    requires Enabled(w, s, e) && job in Happen(w, s, e).checkpoints
    ensures var t := Happen(w, s, e);
            if e == OfCheckpoint(Begin(job)) then t.checkpoints[job].swept == InSweep(s, job)
            else
              && job in s.checkpoints
              && t.checkpoints[job].swept == (!IsRestart(e) && s.checkpoints[job].swept)
  {
    if e.OfWorker? && e.w.Serve? {
      assert job in s.checkpoints;
    }
  }

  lemma {:induction false} BegunExactly(w: World, events: seq<Event>, job: JobId)
    requires job in History(w, events).checkpoints
    ensures History(w, events).checkpoints[job].swept <==> BegunInSweep(w, events, job)
    decreases |events|
  {
    if events != [] {
      var most, e := events[..|events| - 1], events[|events| - 1];
      var s := History(w, most);
      if Enabled(w, s, e) {
        CheckpointStep(w, s, e, job);
      }
      if job in s.checkpoints {
        BegunExactly(w, most, job);
      }
    }
  }

  ghost predicate CallsAreMinted(s: State) {
    forall i | i in s.tally.settling :: i < s.minted
  }

  lemma SettlingStep(w: World, s: State, e: Event, call: nat)
    requires Enabled(w, s, e) && CallsAreMinted(s) && call in Happen(w, s, e).tally.settling
    ensures var t := Happen(w, s, e);
            if e.OfCheckpoint? && e.c.AckJob? && call == s.minted then
              t.tally.settling[call].swept == s.checkpoints[e.c.job].swept && e.c.job in s.checkpoints
            else
              && call in s.tally.settling
              && t.tally.settling[call].swept == (!IsRestart(e) && s.tally.settling[call].swept)
  {
  }

  lemma StepMints(w: World, s: State, e: Event)
    requires Enabled(w, s, e) && CallsAreMinted(s)
    ensures CallsAreMinted(Happen(w, s, e))
  {
  }

  lemma {:induction false} HistoryMints(w: World, events: seq<Event>)
    ensures CallsAreMinted(History(w, events))
    decreases |events|
  {
    if events != [] {
      var most, e := events[..|events| - 1], events[|events| - 1];
      HistoryMints(w, most);
      if Enabled(w, History(w, most), e) {
        StepMints(w, History(w, most), e);
      }
    }
  }

  lemma {:induction false} AckedExactly(w: World, events: seq<Event>, call: nat)
    requires call in History(w, events).tally.settling
    ensures History(w, events).tally.settling[call].swept <==> AckedInSweep(w, events, call)
    decreases |events|
  {
    if events != [] {
      var most, e := events[..|events| - 1], events[|events| - 1];
      var s := History(w, most);
      HistoryMints(w, most);
      if Enabled(w, s, e) {
        SettlingStep(w, s, e, call);
        if e.OfCheckpoint? && e.c.AckJob? && call == s.minted {
          BegunExactly(w, most, e.c.job);
        } else {
          AckedExactly(w, most, call);
        }
      } else {
        AckedExactly(w, most, call);
      }
    }
  }

  lemma WonStep(w: World, s: State, e: Event, job: JobId)
    requires Enabled(w, s, e)
    ensures job in Happen(w, s, e).won <==>
              || (e == OfCheckpoint(NoFiles(job)) && s.checkpoints[job].swept)
              || (e.OfCheckpoint? && e.c.Settle? && s.tally.settling[e.c.call].job == job && s.tally.settling[e.c.call].swept)
              || (!IsRestart(e) && e != OfReload(Quiesce) && job in s.won)
  {
  }

  /** Over every history: the jobs that count as protected are exactly those the pass under way has protected. */
  lemma {:induction false} ProtectedExactly(w: World, events: seq<Event>, job: JobId)
    ensures job in History(w, events).won <==> IsProtected(w, events, job)
    decreases |events|
  {
    if events != [] {
      var most, e := events[..|events| - 1], events[|events| - 1];
      var s := History(w, most);
      ProtectedExactly(w, most, job);
      if Enabled(w, s, e) {
        WonStep(w, s, e, job);
        if e == OfCheckpoint(NoFiles(job)) {
          BegunExactly(w, most, job);
        } else if e.OfCheckpoint? && e.c.Settle? {
          AckedExactly(w, most, e.c.call);
        }
      }
    }
  }

  /**
   * So a job may be judged safe exactly if the pass has protected it, or nothing of it is counted as at risk; and
   * one that is protected by neither can only be given up.
   */
  lemma SafeExactly(w: World, events: seq<Event>, job: JobId)
    requires InSweep(History(w, events), job)
    ensures var s := History(w, events);
            && (Enabled(w, s, OfReload(JudgeSafe(job))) <==> IsProtected(w, events, job) || Pending(s.tally.bytes, job) == 0)
            && (Enabled(w, s, OfReload(JudgeSafe(job))) || Enabled(w, s, OfReload(JudgeUnsafe(job))))
  {
    ProtectedExactly(w, events, job);
  }

  // ----- which checkpoints are barriers

  /** When the job's checkpoint first asked for its open files, there was one. */
  ghost predicate HadOpenFile(w: World, events: seq<Event>, job: JobId)
    decreases |events|
  {
    events != [] &&
    var most, e := events[..|events| - 1], events[|events| - 1];
    var s := History(w, most);
    if !Enabled(w, s, e) then HadOpenFile(w, most, job)
    else if e == OfCheckpoint(Begin(job)) then false
    else if IsFirstListing(s, e, job) then exists k :: k in s.open && k.jobID == job
    else HadOpenFile(w, most, job)
  }

  /** The worker answers the first listing the job's checkpoint has asked for. */
  predicate IsFirstListing(s: State, e: Event, job: JobId) {
    e.OfWorker? && e.w.Serve? && s.reqs != [] && job in s.checkpoints && s.checkpoints[job].stage.Asking?
    && s.reqs[0] == ListFiles(s.checkpoints[job].id)
  }

  predicate IsPastListing(g: Stage) {
    g.Noted? || g.Listing? || g.Draining?
  }

  ghost predicate ListedTruly(s: State, job: JobId, had: bool) {
    job in s.checkpoints ==>
      && (s.checkpoints[job].stage.Answered? ==> (s.checkpoints[job].stage.some <==> had))
      && (IsPastListing(s.checkpoints[job].stage) ==> had)
  }

  lemma OpenOrNot(s: State, job: JobId)
    ensures OpenOf(s, job) != {} <==> exists k :: k in s.open && k.jobID == job
  {
    if k :| k in s.open && k.jobID == job {
      assert k in OpenOf(s, job);
    }
  }

  lemma ListingStep(w: World, s: State, e: Event, job: JobId, had: bool)
    requires Enabled(w, s, e) && ListedTruly(s, job, had)
    ensures ListedTruly(Happen(w, s, e), job,
                        if e == OfCheckpoint(Begin(job)) then false
                        else if IsFirstListing(s, e, job) then exists k :: k in s.open && k.jobID == job else had)
  {
    if IsFirstListing(s, e, job) {
      OpenOrNot(s, job);
    }
  }

  lemma {:induction false} HistoryLists(w: World, events: seq<Event>, job: JobId)
    ensures ListedTruly(History(w, events), job, HadOpenFile(w, events, job))
    decreases |events|
  {
    if events != [] {
      var most, e := events[..|events| - 1], events[|events| - 1];
      HistoryLists(w, most, job);
      if Enabled(w, History(w, most), e) {
        ListingStep(w, History(w, most), e, job, HadOpenFile(w, most, job));
      }
    }
  }

  /**
   * A checkpoint ends as one of a job without files exactly if none was open when it asked; and only one that found
   * a file open reads the job's entry, or ever settles it.
   */
  lemma NoFilesExactly(w: World, events: seq<Event>, job: JobId)
    requires job in History(w, events).checkpoints && History(w, events).checkpoints[job].stage.Answered?
    ensures var s := History(w, events);
            && (Enabled(w, s, OfCheckpoint(NoFiles(job))) <==> !HadOpenFile(w, events, job))
            && (Enabled(w, s, OfCheckpoint(ReadPending(job))) <==> HadOpenFile(w, events, job))
  {
    HistoryLists(w, events, job);
  }

  /** So no entry is settled for a barrier that ran over no file. */
  lemma SettlingNeedsAFile(w: World, events: seq<Event>, job: JobId)
    requires Enabled(w, History(w, events), OfCheckpoint(AckJob(job)))
    ensures HadOpenFile(w, events, job)
  {
    HistoryLists(w, events, job);
  }

  // ----- which jobs are withheld

  function Withheld(r: Reload): set<JobId> {
    match r
    case Sweeping(_, unsafe) => unsafe
    case Cleared(unsafe) => unsafe
    case _ => {}
  }

  /** In the reload under way the job was given up, or had bytes at risk when the open jobs could not be listed. */
  ghost predicate GivenUp(w: World, events: seq<Event>, job: JobId)
    decreases |events|
  {
    events != [] &&
    var most, e := events[..|events| - 1], events[|events| - 1];
    var s := History(w, most);
    if !Enabled(w, s, e) then GivenUp(w, most, job)
    else
      || (e == OfReload(JudgeUnsafe(job)) && Pending(s.tally.bytes, job) != 0)
      || (e == OfReload(JobsUnknown) && Pending(s.tally.bytes, job) > 0)
      || (!IsRestart(e) && GivenUp(w, most, job))
  }

  lemma WithheldStep(w: World, s: State, e: Event, job: JobId)
    requires Enabled(w, s, e)
    ensures job in Withheld(Happen(w, s, e).reload) <==>
              || (e == OfReload(JudgeUnsafe(job)) && Pending(s.tally.bytes, job) != 0)
              || (e == OfReload(JobsUnknown) && Pending(s.tally.bytes, job) > 0)
              || (!IsRestart(e) && job in Withheld(s.reload))
  {
  }

  /**
   * A reload keeps the Emitted bits of exactly the jobs it has given up, or could not ask about while they had bytes
   * at risk; of a job with nothing counted as at risk it never does.
   */
  lemma {:induction false} WithheldExactly(w: World, events: seq<Event>, job: JobId)
    ensures job in Withheld(History(w, events).reload) <==> GivenUp(w, events, job)
    decreases |events|
  {
    if events != [] {
      var most, e := events[..|events| - 1], events[|events| - 1];
      WithheldExactly(w, most, job);
      if Enabled(w, History(w, most), e) {
        WithheldStep(w, History(w, most), e, job);
      }
    }
  }

  // ----- a job that has left

  /** The job has been retired, and no bytes of it have been counted since. */
  ghost predicate RetiredLast(w: World, events: seq<Event>, job: JobId)
    decreases |events|
  {
    events != [] &&
    var most, e := events[..|events| - 1], events[|events| - 1];
    if !Enabled(w, History(w, most), e) then RetiredLast(w, most, job)
    else
      || e == OfWorker(Retire(job))
      || (!(e.OfFlow? && e.f.Note? && w.Job(e.f.t) == job && w.len(e.f.t) > 0) && RetiredLast(w, most, job))
  }

  /** A retired job has no entry until bytes of it are counted again. */
  lemma {:induction false} RetiredHasNoEntry(w: World, events: seq<Event>, job: JobId)
    requires RetiredLast(w, events, job)
    ensures job !in History(w, events).tally.bytes
    decreases |events|
  {
    var most, e := events[..|events| - 1], events[|events| - 1];
    var s := History(w, most);
    if !Enabled(w, s, e) {
      RetiredHasNoEntry(w, most, job);
    } else if e != OfWorker(Retire(job)) {
      RetiredHasNoEntry(w, most, job);
      NoEntryStep(w, s, e, job);
    }
  }

  lemma NoEntryStep(w: World, s: State, e: Event, job: JobId)
    requires Enabled(w, s, e) && job !in s.tally.bytes
    requires !(e.OfFlow? && e.f.Note? && w.Job(e.f.t) == job && w.len(e.f.t) > 0)
    ensures job !in Happen(w, s, e).tally.bytes
  {
  }
}
