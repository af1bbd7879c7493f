/** Every request is a series of moves, so the worker keeps whatever its moves keep. */
module WorkerMoves {
  import opened Types
  import opened Writing
  import opened Assembly

  datatype Move =
    // An article's buffer changes hands.
    | Deliver(key: FileKey, a: BufferedArticle)
    | DeliverFailed(key: FileKey, a: BufferedArticle)
    | DeliverLate(key: FileKey, a: BufferedArticle)
    | DeliverUnopened(key: FileKey, a: BufferedArticle)
    | Drop(a: BufferedArticle)
    // It does not.
    | Open(key: FileKey, info: FileInfo, handle: Disk)
    | Act(key: FileKey, op: FileOp)
    | Release(key: FileKey)
    | Reject(key: FileKey, id: int, reason: Reason, anomaly: bool)
    | Fault(key: FileKey)
    | Finalize(key: FileKey)
    | Discard(key: FileKey)
    | End(key: FileKey, ending: Ending)
    | Bury(key: FileKey)
    | Cancel(job: JobId)
    | Revive(job: JobId)

  predicate TakesBuffer(m: Move) {
    m.Deliver? || m.DeliverFailed? || m.DeliverLate? || m.DeliverUnopened? || m.Drop?
  }

  // What the articles delivered successfully must satisfy.
  type Demand = (FileKey, BufferedArticle) -> bool

  ghost predicate Can(s: Worker, m: Move, A: Demand) {
    match m
    case Deliver(key, a) => key in s.open && A(key, a)
    case DeliverFailed(key, _) => key in s.open
    case DeliverLate(key, _) => key in s.completed
    case DeliverUnopened(key, _) => key !in s.open && key !in s.completed && key.jobID !in s.cancelled
    case Drop(_) => true
    case Open(key, _, _) => key !in s.open && key !in s.completed && key.jobID !in s.cancelled
    case Act(key, op) => key in s.open && (op.PressureFlush? || op.DrainFile? || op.ConfirmFile? || op.TruncateFile?)
    case Release(key) => key in s.open
    case Reject(key, _, reason, _) => key in s.open && (reason.OutOfRange? || reason.OffsetTaken?)
    case Fault(key) => key in s.open
    case Finalize(key) => key in s.open && key !in s.completed && IsComplete(s.open[key]) && s.open[key].w.faulted == []
    case Discard(key) => key in s.perFile && key !in s.open
    case End(key, _) => key in s.open
    case Bury(key) => key !in s.open
    case Cancel(_) => true
    case Revive(_) => true
  }

  ghost function Do(s: Worker, m: Move, A: Demand): Worker
    requires Can(s, m, A)
  {
    match m
    case Deliver(key, a) => DeliverAt(s, key, a).0
    case DeliverFailed(key, a) => FailAt(s, key, a).0
    case DeliverLate(key, a) => LateDuplicate(s, key, a)
    case DeliverUnopened(key, a) => OpenFailure(s, key, a)
    case Drop(a) => s.(freed := s.freed + a.data.Loan())
    case Open(key, info, handle) => OpenTarget(s, key, info, handle)
    case Act(key, op) => PutFile(s, key, Step(FileOf(s, key), s.limit, s.open[key].info, op))
    case Release(key) => ReleaseFaulted(s, key)
    case Reject(key, id, reason, anomaly) => RouteAccept(s, key, id, Rejected(reason, anomaly))
    case Fault(key) => Say(s, [WriteFaulted(key)])
    case Finalize(key) => FinalizeFile(s, key)
    case Discard(key) => DiscardUnknown(s, key)
    case End(key, ending) => Close(s, key, ending)
    case Bury(key) => Tombstone(s, key)
    case Cancel(job) => s.(cancelled := s.cancelled + {job})
    case Revive(job) => Unbury(s, job)
  }

  type WorkerProperty = Worker -> bool

  ghost predicate Free(s: Worker, m: Move, A: Demand) {
    Can(s, m, A) && !TakesBuffer(m) && !m.Revive?
  }

  /** W survives every move that takes no buffer and forgets no job. */
  ghost predicate Steady(W: WorkerProperty, A: Demand) {
    forall s: Worker, m: Move | W(s) && Free(s, m, A) :: W(Do(s, m, A))
  }

  /** W survives every move. */
  ghost predicate Stable(W: WorkerProperty, A: Demand) {
    forall s: Worker, m: Move | W(s) && Can(s, m, A) :: W(Do(s, m, A))
  }

  lemma Move1(s: Worker, m: Move, W: WorkerProperty, A: Demand)
    requires Steady(W, A) && W(s) && Free(s, m, A)
    ensures W(Do(s, m, A))
  {
  }

  lemma StableIsSteady(W: WorkerProperty, A: Demand)
    requires Stable(W, A)
    ensures Steady(W, A)
  {
  }

  // ----- pieces of a request

  lemma VictimKeeps(s: Worker, key: FileKey, W: WorkerProperty, A: Demand)
    requires Steady(W, A) && W(s)
    ensures W(FlushVictim(s, key).0)
  {
    if key !in s.perFile || s.perFile[key].articles == map[] {
    } else if key !in s.open {
      Move1(s, Discard(key), W, A);
    } else {
      var (f, ok) := FlushAll(FileOf(s, key));
      var t := PutFile(s, key, f);
      Move1(s, Act(key, PressureFlush), W, A);
      if !ok {
        Move1(t, Release(key), W, A);
        Move1(ReleaseFaulted(t, key), Fault(key), W, A);
      }
    }
  }

  lemma {:induction false} PressureKeeps(s: Worker, victims: seq<FileKey>, W: WorkerProperty, A: Demand)
    requires Steady(W, A) && W(s)
    ensures W(RelievePressure(s, victims))
    decreases |victims|
  {
    if Pressure(s) && victims != [] {
      VictimKeeps(s, victims[0], W, A);
      var (t, more) := FlushVictim(s, victims[0]);
      if more {
        PressureKeeps(t, victims[1..], W, A);
      }
    }
  }

  lemma RouteKeeps(s: Worker, key: FileKey, id: int, r: AcceptResult, W: WorkerProperty, A: Demand)
    requires Steady(W, A) && W(s) && key in s.open
    requires r.Rejected? ==> r.reason.OutOfRange? || r.reason.OffsetTaken?
    ensures W(RouteAccept(s, key, id, r))
  {
    match r
    case Accepted =>
    case Rejected(reason, anomaly) => Move1(s, Reject(key, id, reason, anomaly), W, A);
    case WriteFault =>
      Move1(s, Release(key), W, A);
      Move1(ReleaseFaulted(s, key), Fault(key), W, A);
  }

  lemma SettleKeeps(s: Worker, key: FileKey, admitted: bool, W: WorkerProperty, A: Demand)
    requires Steady(W, A) && W(s) && key in s.open && key !in s.completed
    ensures W(Settle(s, key, admitted))
  {
    Move1(s, Release(key), W, A);
    var t := ReleaseFaulted(s, key);
    if admitted && IsComplete(t.open[key]) {
      Move1(t, Finalize(key), W, A);
    }
  }

  /** The state right after an open file has been handed an article. */
  ghost function Taken(s: Worker, key: FileKey, a: BufferedArticle, fatal: bool): Worker
    requires key in s.open
  {
    if fatal then FailAt(s, key, a).0 else DeliverAt(s, key, a).0
  }

  lemma TakeKeeps(s: Worker, key: FileKey, a: BufferedArticle, fatal: bool, W: WorkerProperty, A: Demand)
    requires Steady(W, A) && key in s.open && W(Taken(s, key, a, fatal))
    ensures W(TakeOn(s, key, a, fatal).0)
  {
    if !fatal {
      var (t, arrival) := DeliverAt(s, key, a);
      match arrival
      case Duplicate =>
      case Retried(r) => RouteKeeps(t, key, a.id, r, W, A);
      case Admitted(r) => RouteKeeps(t, key, a.id, r, W, A);
    }
  }

  /** After the article has been handed over, the rest of its request takes no buffer. */
  lemma AtOpenFileKeeps(s: Worker, key: FileKey, a: BufferedArticle, fatal: bool, victims: seq<FileKey>,
                        W: WorkerProperty, A: Demand)
    requires Steady(W, A) && key in s.open && key !in s.completed && W(Taken(s, key, a, fatal))
    ensures W(AtOpenFile(s, key, a, fatal, victims))
  {
    var (t, admitted) := TakeOn(s, key, a, fatal);
    TakeKeeps(s, key, a, fatal, W, A);
    if admitted {
      PressureKeeps(t, victims, W, A);
      SettleKeeps(RelievePressure(t, victims), key, admitted, W, A);
    } else {
      SettleKeeps(t, key, admitted, W, A);
    }
  }

  lemma DrainAndCloseKeeps(s: Worker, key: FileKey, W: WorkerProperty, A: Demand)
    requires Steady(W, A) && W(s) && key in s.open
    ensures W(DrainAndClose(s, key))
  {
    var t := PutFile(s, key, Drain(FileOf(s, key)).0);
    Move1(s, Act(key, DrainFile), W, A);
    Move1(t, Release(key), W, A);
    Move1(ReleaseFaulted(t, key), End(key, Ending.Handed), W, A);
  }

  lemma CloseCancelledKeeps(s: Worker, key: FileKey, keep: bool, W: WorkerProperty, A: Demand)
    requires Steady(W, A) && W(s) && key in s.open
    ensures W(CloseCancelled(s, key, keep))
  {
    if keep {
      var (f, ok) := Drain(FileOf(s, key));
      Move1(s, Act(key, DrainFile), W, A);
      Move1(PutFile(s, key, f), End(key, Kept(ok)), W, A);
    } else {
      Move1(s, End(key, Deleted), W, A);
    }
  }

  lemma {:induction false} CancelKeeps(s: Worker, keys: seq<FileKey>, keep: bool, W: WorkerProperty, A: Demand)
    requires Steady(W, A) && W(s)
    ensures W(CancelFiles(s, keys, keep))
    decreases |keys|
  {
    if keys == [] {
    } else if keys[0] in s.open {
      var t := CloseCancelled(s, keys[0], keep);
      CloseCancelledKeeps(s, keys[0], keep, W, A);
      Move1(t, Bury(keys[0]), W, A);
      CancelKeeps(Tombstone(t, keys[0]), keys[1..], keep, W, A);
    } else {
      CancelKeeps(s, keys[1..], keep, W, A);
    }
  }

  lemma {:induction false} CloseFilesKeeps(s: Worker, keys: seq<FileKey>, W: WorkerProperty, A: Demand)
    requires Steady(W, A) && W(s)
    ensures W(CloseFiles(s, keys))
    decreases |keys|
  {
    if keys == [] {
    } else if keys[0] in s.open {
      var t := DrainAndClose(s, keys[0]);
      DrainAndCloseKeeps(s, keys[0], W, A);
      Move1(t, Bury(keys[0]), W, A);
      CloseFilesKeeps(Tombstone(t, keys[0]), keys[1..], W, A);
    } else {
      CloseFilesKeeps(s, keys[1..], W, A);
    }
  }

  // ----- requests

  lemma ControlKeeps(s: Worker, req: Request, fate: Fate, W: WorkerProperty, A: Demand)
    requires Steady(W, A) && W(s) && !req.Article? && !req.ForgetJob?
    ensures W(Dispatch(s, req, fate))
  {
    match req
    case CancelJob(job, keep) =>
      Move1(s, Cancel(job), W, A);
      CancelKeeps(s.(cancelled := s.cancelled + {job}), fate.order, keep, W, A);
    case CloseHandles(job) => CloseFilesKeeps(s, fate.order, W, A);
    case SyncDrain(key) =>
      if key in s.open {
        Move1(s, Act(key, DrainFile), W, A);
        Move1(PutFile(s, key, Drain(FileOf(s, key)).0), Release(key), W, A);
      }
    case SyncConfirm(key) =>
      if key in s.open {
        Move1(s, Act(key, ConfirmFile), W, A);
      }
    case SyncTruncate(key, bound) =>
      if key in s.open {
        Move1(s, Act(key, TruncateFile(bound)), W, A);
      }
    case SyncClose(key) =>
      if key in s.open {
        DrainAndCloseKeeps(s, key, W, A);
      }
    case _ =>
  }

  ghost predicate Meets(req: Request, A: Demand) {
    req.Article? && !req.fatal ==> A(req.key, req.a)
  }

  lemma ArticleKeeps(s: Worker, key: FileKey, a: BufferedArticle, fatal: bool, fate: Fate, W: WorkerProperty, A: Demand)
    requires Stable(W, A) && W(s) && (!fatal ==> A(key, a))
    ensures W(Dispatch(s, Article(key, a, fatal), fate))
  {
    StableIsSteady(W, A);
    if key.jobID in s.cancelled {
      assert Can(s, Drop(a), A);
      assert W(Do(s, Drop(a), A));
    } else if key in s.completed {
      assert Can(s, DeliverLate(key, a), A);
      assert W(Do(s, DeliverLate(key, a), A));
    } else if key in s.open {
      HandingKeeps(s, key, a, fatal, W, A);
      AtOpenFileKeeps(s, key, a, fatal, fate.victims, W, A);
    } else if fate.opening.OpenFailed? {
      assert Can(s, DeliverUnopened(key, a), A);
      assert W(Do(s, DeliverUnopened(key, a), A));
    } else {
      var t := OpenTarget(s, key, fate.opening.info, fate.opening.handle);
      Move1(s, Open(key, fate.opening.info, fate.opening.handle), W, A);
      HandingKeeps(t, key, a, fatal, W, A);
      AtOpenFileKeeps(t, key, a, fatal, fate.victims, W, A);
    }
  }

  lemma HandingKeeps(s: Worker, key: FileKey, a: BufferedArticle, fatal: bool, W: WorkerProperty, A: Demand)
    requires Stable(W, A) && W(s) && key in s.open && (!fatal ==> A(key, a))
    ensures W(Taken(s, key, a, fatal))
  {
    var m := if fatal then DeliverFailed(key, a) else Deliver(key, a);
    assert Can(s, m, A);
    assert W(Do(s, m, A));
  }

  lemma DispatchKeeps(s: Worker, req: Request, fate: Fate, W: WorkerProperty, A: Demand)
    requires Stable(W, A) && W(s) && Meets(req, A)
    ensures W(Dispatch(s, req, fate))
  {
    if req.Article? {
      ArticleKeeps(s, req.key, req.a, req.fatal, fate, W, A);
    } else if req.ForgetJob? {
      assert Can(s, Revive(req.job), A);
      assert W(Do(s, Revive(req.job), A));
    } else {
      StableIsSteady(W, A);
      ControlKeeps(s, req, fate, W, A);
    }
  }

  /** Over every run of the worker. */
  lemma {:induction false} ServeKeeps(s: Worker, reqs: seq<Request>, fates: seq<Fate>, W: WorkerProperty, A: Demand)
    requires |fates| == |reqs| && Stable(W, A) && W(s)
    requires forall i | 0 <= i < |reqs| :: Meets(reqs[i], A)
    ensures W(Serve(s, reqs, fates))
    decreases |reqs|
  {
    if reqs == [] {
    } else {
      var n := |reqs| - 1;
      ServeKeeps(s, reqs[..n], fates[..n], W, A);
      DispatchKeeps(Serve(s, reqs[..n], fates[..n]), reqs[n], fates[n], W, A);
    }
  }
}
