/**
 * Closing a file that was reported complete: once it has been drained and acked it can come to hold nothing
 * more, because every later arrival is a late duplicate, so the close strands no article.
 */
module Finalizing {
  import opened Types
  import opened Writing
  import opened WriterRuns
  import opened DrainTruth
  import opened HeldArticles
  import opened Assembly
  import opened WorkerMoves
  import opened WorkerLedger
  import opened Refinement
  import P = AtRisk
  import ReloadSafety

  // ----- a finished file

  /** The file is finished with; if it is still open it holds nothing but a report of these articles. */
  ghost predicate Sealed(s: Worker, key: FileKey, ids: set<int>) {
    key in s.completed && (key in s.open ==> Bare(FileOf(s, key), ids))
  }

  ghost predicate Bare(f: File, ids: set<int>) {
    f.Articles() == map[] && f.w.written == [] && ReportedBy(f.w) <= ids
  }

  lemma SealedHoldsItsReport(s: Worker, key: FileKey, ids: set<int>, id: int)
    requires Sealed(s, key, ids) && Held(s, key, id)
    ensures id in ids
  {
  }

  lemma StepStaysBare(f: File, limit: int, info: FileInfo, op: FileOp, ids: set<int>)
    requires Bare(f, ids) && (op.PressureFlush? || op.DrainFile? || op.ConfirmFile? || op.TruncateFile?)
    ensures Bare(Step(f, limit, info, op), ids)
  {
  }

  lemma MoveStaysSealed(s: Worker, m: Move, key: FileKey, ids: set<int>)
    requires Sealed(s, key, ids) && Free(s, m, Anything)
    ensures Sealed(Do(s, m, Anything), key, ids)
  {
    if m.Act? && m.key == key {
      StepStaysBare(FileOf(s, key), s.limit, s.open[key].info, m.op, ids);
    }
  }

  lemma SealedIsSteady(key: FileKey, ids: set<int>)
    ensures Steady((s: Worker) => Sealed(s, key, ids), Anything)
  {
    forall s: Worker, m: Move | Sealed(s, key, ids) && Free(s, m, Anything) ensures Sealed(Do(s, m, Anything), key, ids) {
      MoveStaysSealed(s, m, key, ids);
    }
  }

  /** An arrival at another file, once handed over, has not touched this one. */
  lemma TakenElsewhereStaysSealed(s: Worker, k: FileKey, a: BufferedArticle, fatal: bool, key: FileKey, ids: set<int>)
    requires Sealed(s, key, ids) && k in s.open && k != key
    ensures Sealed(Taken(s, k, a, fatal), key, ids)
  {
  }

  lemma ArticleStaysSealed(s: Worker, k: FileKey, a: BufferedArticle, fatal: bool, fate: Fate, key: FileKey, ids: set<int>)
    requires Sealed(s, key, ids)
    ensures Sealed(Dispatch(s, Article(k, a, fatal), fate), key, ids)
  {
    var W := (t: Worker) => Sealed(t, key, ids);
    SealedIsSteady(key, ids);
    if k.jobID in s.cancelled || k in s.completed || (k !in s.open && fate.opening.OpenFailed?) {
    } else if k in s.open {
      TakenElsewhereStaysSealed(s, k, a, fatal, key, ids);
      AtOpenFileKeeps(s, k, a, fatal, fate.victims, W, Anything);
    } else {
      var t := OpenTarget(s, k, fate.opening.info, fate.opening.handle);
      Move1(s, Open(k, fate.opening.info, fate.opening.handle), W, Anything);
      TakenElsewhereStaysSealed(t, k, a, fatal, key, ids);
      AtOpenFileKeeps(t, k, a, fatal, fate.victims, W, Anything);
    }
  }

  /** Nothing but the forgetting of its job opens a finished file to new articles. */
  lemma RequestStaysSealed(s: Worker, req: Request, fate: Fate, key: FileKey, ids: set<int>)
    requires Sealed(s, key, ids) && req != ForgetJob(key.jobID)
    ensures Sealed(Dispatch(s, req, fate), key, ids)
  {
    if req.Article? {
      ArticleStaysSealed(s, req.key, req.a, req.fatal, fate, key, ids);
    } else if !req.ForgetJob? {
      SealedIsSteady(key, ids);
      ControlKeeps(s, req, fate, (t: Worker) => Sealed(t, key, ids), Anything);
    }
  }

  /** A drain of a finished file, failed or not, seals it with what it reports. */
  lemma DrainSeals(s: Worker, key: FileKey, fate: Fate)
    requires FilesSound(s) && key in s.completed && key in s.open
    ensures var t := Dispatch(s, SyncDrain(key), fate);
            key in t.open && Sealed(t, key, ReportedBy(t.open[key].w))
  {
    assert Sound(key, s.open[key].info, FileOf(s, key));
    DrainEmptiesTheBuffer(FileOf(s, key));
    DrainedFile(s, key, fate);
  }

  // ----- worker and protocol together

  predicate Forgets(e: Event, job: JobId) {
    e.Alone? && e.req == ForgetJob(job)
  }

  lemma EventStaysSealed(w: P.World, arts: Carrying, j: Joint, e: Event, key: FileKey, ids: set<int>)
    requires Enabled(w, arts, j, e) && Sealed(j.s, key, ids) && !Forgets(e, key.jobID)
    ensures Sealed(Happen(w, arts, j, e).s, key, ids)
  {
    match e
    case Head(req, fate) => RequestStaysSealed(j.s, req, fate, key, ids);
    case Alone(req, fate) => RequestStaysSealed(j.s, req, fate, key, ids);
    case CloseFile(k, fate) => RequestStaysSealed(j.s, SyncClose(k), fate, key, ids);
    case EndJob(req, fate) => RequestStaysSealed(j.s, req, fate, key, ids);
    case _ =>
  }

  lemma AcksStay(w: P.World, arts: Carrying, j: Joint, e: Event, key: FileKey)
    requires Enabled(w, arts, j, e)
    ensures At(j.acked, key) <= At(Happen(w, arts, j, e).acked, key)
  {
  }

  /** The protocol takes the file to hold nothing. */
  ghost predicate NoneOf(w: P.World, a: P.State, key: FileKey) {
    forall t | t in a.held :: w.file(t) != key
  }

  /** The file can hold nothing but what has been acked, and the protocol knows. */
  ghost predicate Finished(w: P.World, j: Joint, key: FileKey) {
    Sealed(j.s, key, At(j.acked, key)) && NoneOf(w, j.a, key)
  }

  /** What comes to be held by the protocol is what an arrival leaves behind unacked. */
  lemma HeldByArrival(w: P.World, arts: Carrying, j: Joint, e: Event, t: nat)
    requires Enabled(w, arts, j, e) && t in Happen(w, arts, j, e).a.held && t !in j.a.held
    ensures e.Head? && Held(Happen(w, arts, j, e).s, w.file(t), arts(t)) && arts(t) !in At(j.acked, w.file(t))
  {
  }

  lemma EventStaysFinished(w: P.World, arts: Carrying, j: Joint, e: Event, key: FileKey)
    requires Enabled(w, arts, j, e) && Finished(w, j, key) && !Forgets(e, key.jobID)
    ensures Finished(w, Happen(w, arts, j, e), key)
  {
    var n := Happen(w, arts, j, e);
    EventStaysSealed(w, arts, j, e, key, At(j.acked, key));
    AcksStay(w, arts, j, e, key);
    forall t | t in n.a.held ensures w.file(t) != key {
      if t !in j.a.held && w.file(t) == key {
        HeldByArrival(w, arts, j, e, t);
        SealedHoldsItsReport(n.s, key, At(j.acked, key), arts(t));
      }
    }
  }

  /** The ack of a finished and drained file finishes it for the protocol too. */
  lemma AckFinishes(w: P.World, arts: Carrying, j: Joint, key: FileKey, ids: set<int>)
    requires Sealed(j.s, key, ids) && key in j.s.open
    ensures Finished(w, Happen(w, arts, j, AckFile(key)), key)
  {
    var n := Happen(w, arts, j, AckFile(key));
    forall id | Held(j.s, key, id) ensures id in At(n.acked, key) {
      SealedHoldsItsReport(j.s, key, ReportedBy(j.s.open[key].w), id);
    }
  }

  // ----- every course

  predicate NeverForgets(events: seq<Event>, from: nat, job: JobId) {
    forall p | from <= p < |events| :: !Forgets(events[p], job)
  }

  lemma {:induction false} CourseStaysSealed(w: P.World, arts: Carrying, limit: int, events: seq<Event>, n: nat, key: FileKey, ids: set<int>)
    requires n <= |events| && NeverForgets(events, n, key.jobID)
    requires Sealed(Course(w, arts, limit, events[..n]).s, key, ids)
    ensures Sealed(Course(w, arts, limit, events).s, key, ids)
    decreases |events|
  {
    if n == |events| {
      assert events[..n] == events;
    } else {
      var most := events[..|events| - 1];
      assert most[..n] == events[..n];
      CourseStaysSealed(w, arts, limit, most, n, key, ids);
      var j := Course(w, arts, limit, most);
      if Enabled(w, arts, j, events[|events| - 1]) {
        EventStaysSealed(w, arts, j, events[|events| - 1], key, ids);
      }
    }
  }

  lemma {:induction false} CourseStaysFinished(w: P.World, arts: Carrying, limit: int, events: seq<Event>, n: nat, key: FileKey)
    requires n <= |events| && NeverForgets(events, n, key.jobID)
    requires Finished(w, Course(w, arts, limit, events[..n]), key)
    ensures Finished(w, Course(w, arts, limit, events), key)
    decreases |events|
  {
    if n == |events| {
      assert events[..n] == events;
    } else {
      var most := events[..|events| - 1];
      assert most[..n] == events[..n];
      CourseStaysFinished(w, arts, limit, most, n, key);
      var j := Course(w, arts, limit, most);
      if Enabled(w, arts, j, events[|events| - 1]) {
        EventStaysFinished(w, arts, j, events[|events| - 1], key);
      }
    }
  }

  /** This event drains the file, which has been reported complete. */
  ghost predicate DrainsComplete(w: P.World, arts: Carrying, j: Joint, e: Event, key: FileKey) {
    (e.Alone? || e.Head?) && Enabled(w, arts, j, e) && e.req == SyncDrain(key) && key in j.s.completed && key in j.s.open
  }

  /** The file was drained at i after it was reported complete, acked at m, and its job not forgotten since. */
  ghost predicate FinalizedAt(w: P.World, arts: Carrying, limit: int, events: seq<Event>, key: FileKey, i: nat, m: nat) {
    && i < m < |events|
    && DrainsComplete(w, arts, Course(w, arts, limit, events[..i]), events[i], key)
    && events[m] == AckFile(key) && key in Course(w, arts, limit, events[..m]).s.open
    && NeverForgets(events, i, key.jobID)
  }

  lemma DrainingServes(w: P.World, arts: Carrying, j: Joint, e: Event, key: FileKey)
    requires DrainsComplete(w, arts, j, e, key)
    ensures Happen(w, arts, j, e).s == Dispatch(j.s, SyncDrain(key), e.fate)
  {
  }

  lemma CourseGoesOn(w: P.World, arts: Carrying, limit: int, events: seq<Event>, i: nat)
    requires i < |events| && Enabled(w, arts, Course(w, arts, limit, events[..i]), events[i])
    ensures Course(w, arts, limit, events[..i + 1]) == Happen(w, arts, Course(w, arts, limit, events[..i]), events[i])
  {
    assert events[..i + 1][..i] == events[..i];
  }

  lemma DrainedIsSealed(w: P.World, arts: Carrying, limit: int, events: seq<Event>, key: FileKey, i: nat) returns (ids: set<int>)
    requires i < |events| && DrainsComplete(w, arts, Course(w, arts, limit, events[..i]), events[i], key)
    ensures Sealed(Course(w, arts, limit, events[..i + 1]).s, key, ids)
  {
    CourseGoesOn(w, arts, limit, events, i);
    CourseIsTied(w, arts, limit, events[..i]);
    var j := Course(w, arts, limit, events[..i]);
    DrainingServes(w, arts, j, events[i], key);
    DrainSeals(j.s, key, events[i].fate);
    ids := ReportedBy(Dispatch(j.s, SyncDrain(key), events[i].fate).open[key].w);
  }

  /** From the ack on, whatever else happens, neither the worker nor the protocol has anything of the file unacked. */
  lemma FinalizedIsFinished(w: P.World, arts: Carrying, limit: int, events: seq<Event>, key: FileKey, i: nat, m: nat)
    requires FinalizedAt(w, arts, limit, events, key, i, m)
    ensures Finished(w, Course(w, arts, limit, events), key)
  {
    var ids := DrainedIsSealed(w, arts, limit, events, key, i);
    assert events[..m][..i + 1] == events[..i + 1];
    CourseStaysSealed(w, arts, limit, events[..m], i + 1, key, ids);
    CourseGoesOn(w, arts, limit, events, m);
    AckFinishes(w, arts, Course(w, arts, limit, events[..m]), key, ids);
    CourseStaysFinished(w, arts, limit, events, m + 1, key);
  }

  /** So closing the file strands nothing. */
  lemma FinalizedCloseStrandsNothing(w: P.World, arts: Carrying, limit: int, events: seq<Event>, key: FileKey, i: nat, m: nat, fate: Fate)
    requires FinalizedAt(w, arts, limit, events, key, i, m)
    ensures var j := Course(w, arts, limit, events);
            && (forall id | Held(j.s, key, id) :: id in At(j.acked, key))
            && Happen(w, arts, j, CloseFile(key, fate)).a.stranded == j.a.stranded
  {
    var j := Course(w, arts, limit, events);
    FinalizedIsFinished(w, arts, limit, events, key, i, m);
    forall id | Held(j.s, key, id) ensures id in At(j.acked, key) {
      SealedHoldsItsReport(j.s, key, At(j.acked, key), id);
    }
  }

  /** Every file is finalized before it is closed. */
  ghost predicate ClosesAreFinalized(w: P.World, arts: Carrying, limit: int, events: seq<Event>)
    decreases |events|
  {
    events == [] ||
    var most, e := events[..|events| - 1], events[|events| - 1];
    && ClosesAreFinalized(w, arts, limit, most)
    && (e.CloseFile? ==> exists i: nat, m: nat :: FinalizedAt(w, arts, limit, most, e.key, i, m))
  }

  lemma OnlyClosesStrand(w: P.World, arts: Carrying, j: Joint, e: Event)
    requires Enabled(w, arts, j, e) && !e.CloseFile?
    ensures Happen(w, arts, j, e).a.stranded == j.a.stranded
  {
  }

  lemma {:induction false} FinalizedClosesStrandNothing(w: P.World, arts: Carrying, limit: int, events: seq<Event>)
    requires ClosesAreFinalized(w, arts, limit, events)
    ensures Course(w, arts, limit, events).a.stranded == {}
    decreases |events|
  {
    if events != [] {
      var most, e := events[..|events| - 1], events[|events| - 1];
      FinalizedClosesStrandNothing(w, arts, limit, most);
      if e.CloseFile? {
        var i: nat, m: nat :| FinalizedAt(w, arts, limit, most, e.key, i, m);
        FinalizedCloseStrandsNothing(w, arts, limit, most, e.key, i, m, e.fate);
      } else if Enabled(w, arts, Course(w, arts, limit, most), e) {
        OnlyClosesStrand(w, arts, Course(w, arts, limit, most), e);
      }
    }
  }

  /** And when every close is that of a finalized file, a reload clears no article that is unacked anywhere. */
  lemma ReloadIsSafeWhenFilesAreFinalized(w: P.World, arts: Carrying, limit: int, events: seq<Event>, t: nat)
    requires ClosesAreFinalized(w, arts, limit, events)
    requires var a := Course(w, arts, limit, events).a;
             && a.reload.Cleared? && w.Job(t) !in a.reload.unsafe && w.Job(t) !in a.retired + a.tally.overdrawn
             && w.len(t) > 0
    ensures t !in ReloadSafety.Unacked(Course(w, arts, limit, events).a)
  {
    CourseIsTied(w, arts, limit, events);
    ReloadSafety.NothingUnderWay(w, Course(w, arts, limit, events).a, t);
    FinalizedClosesStrandNothing(w, arts, limit, events);
  }
}
