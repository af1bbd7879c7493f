/** The life of a job's files: when a job is cancelled, when a file is finished with, and how both start over. */
module Lifecycle {
  import opened Types
  import opened FileBuffer
  import opened Writing
  import opened Drains
  import opened Assembly
  import opened WorkerMoves
  import opened WorkerLedger
  import opened WorkerLife
  import opened Closings
  import opened Rejections
  import opened WriteFaults

  // ----- what serving an article leaves alone

  /** The same files are open, for the same downloads; nothing is finished, cancelled or reported complete. */
  ghost predicate StaysAlive(s: Worker, t: Worker) {
    && t.open.Keys == s.open.Keys && (forall k | k in s.open :: t.open[k].info == s.open[k].info)
    && t.completed == s.completed && t.cancelled == s.cancelled
    && forall k: FileKey :: Completions(t.calls, k) == Completions(s.calls, k)
  }

  lemma SayingNoCompletion(calls: seq<Call>, more: seq<Call>)
    requires forall i | 0 <= i < |more| :: !more[i].FileComplete?
    ensures forall k: FileKey :: Completions(calls + more, k) == Completions(calls, k)
  {
    forall k: FileKey ensures Completions(calls + more, k) == Completions(calls, k) {
      CompletionsConcat(calls, more, k);
      NoCompletions(more, k);
    }
  }

  lemma ReleaseStays(s: Worker, key: FileKey)
    requires key in s.open
    ensures StaysAlive(s, ReleaseFaulted(s, key))
  {
    var more := RouteCalls(key, s.open[key].w.faulted);
    forall i | 0 <= i < |more| ensures !more[i].FileComplete? {
      RouteCallsComplete(key, s.open[key].w.faulted, i);
    }
    SayingNoCompletion(s.calls, more);
  }

  lemma FaultStays(s: Worker, key: FileKey)
    requires key in s.open
    ensures StaysAlive(s, Say(ReleaseFaulted(s, key), [WriteFaulted(key)]))
  {
    ReleaseStays(s, key);
    SayingNoCompletion(ReleaseFaulted(s, key).calls, [WriteFaulted(key)]);
  }

  lemma VictimStays(s: Worker, key: FileKey)
    ensures StaysAlive(s, FlushVictim(s, key).0)
  {
    if key in s.perFile && s.perFile[key].articles != map[] && key in s.open {
      FaultStays(PutFile(s, key, FlushAll(FileOf(s, key)).0), key);
    }
  }

  lemma {:induction false} PressureStays(s: Worker, victims: seq<FileKey>)
    ensures StaysAlive(s, RelievePressure(s, victims))
    decreases |victims|
  {
    if Pressure(s) && victims != [] {
      VictimStays(s, victims[0]);
      if FlushVictim(s, victims[0]).1 {
        PressureStays(FlushVictim(s, victims[0]).0, victims[1..]);
      }
    }
  }

  lemma RouteStays(s: Worker, key: FileKey, id: int, r: AcceptResult)
    requires key in s.open
    ensures StaysAlive(s, RouteAccept(s, key, id, r))
  {
    if r.WriteFault? {
      FaultStays(s, key);
    } else if r.Rejected? {
      SayingNoCompletion(s.calls, [ArticleRejected(key, id, r.reason)] + if r.anomaly then [PostAnomaly(key)] else []);
    }
  }

  lemma TakeOnStays(s: Worker, key: FileKey, a: BufferedArticle, fatal: bool)
    requires key in s.open
    ensures StaysAlive(s, TakeOn(s, key, a, fatal).0)
  {
    if !fatal {
      var (t, arrival) := DeliverAt(s, key, a);
      if !arrival.Duplicate? {
        RouteStays(t, key, a.id, arrival.result);
      }
    }
  }

  /** One file at most is finished by an article, its own, and exactly if it is reported complete. */
  ghost predicate Finished(s: Worker, t: Worker, key: FileKey) {
    && t.open.Keys == s.open.Keys && (forall k | k in s.open :: t.open[k].info == s.open[k].info)
    && t.cancelled == s.cancelled
    && (forall k | k != key :: Completions(t.calls, k) == Completions(s.calls, k) && (k in t.completed <==> k in s.completed))
    && (if Completions(t.calls, key) == Completions(s.calls, key) then t.completed == s.completed
        else Completions(t.calls, key) == Completions(s.calls, key) + 1 && key in t.completed)
  }

  lemma SettleFinishes(s: Worker, key: FileKey, admitted: bool)
    requires key in s.open
    ensures Finished(s, Settle(s, key, admitted), key)
  {
    var v := ReleaseFaulted(s, key);
    ReleaseStays(s, key);
    if admitted && IsComplete(v.open[key]) {
      var last := [FileComplete(key, v.open[key].info, FileOf(v, key))];
      forall k: FileKey ensures Completions(v.calls + last, k) == Completions(v.calls, k) + if k == key then 1 else 0 {
        CompletionsConcat(v.calls, last, k);
      }
    }
  }

  lemma AtOpenFileFinishes(s: Worker, key: FileKey, a: BufferedArticle, fatal: bool, victims: seq<FileKey>)
    requires key in s.open
    ensures Finished(s, AtOpenFile(s, key, a, fatal, victims), key)
  {
    var (t, admitted) := TakeOn(s, key, a, fatal);
    TakeOnStays(s, key, a, fatal);
    if admitted {
      PressureStays(t, victims);
      SettleFinishes(RelievePressure(t, victims), key, admitted);
    } else {
      SettleFinishes(t, key, admitted);
    }
  }

  // ----- when a job is cancelled

  lemma OthersCancelNobody(s: Worker, req: Request, fate: Fate)
    requires !req.CancelJob? && !req.ForgetJob?
    ensures Dispatch(s, req, fate).cancelled == s.cancelled
  {
    if req.CloseHandles? {
      CloseFilesCloses(s, fate.order);
    }
  }

  lemma CancelledBy(s: Worker, req: Request, fate: Fate, job: JobId)
    ensures job in Dispatch(s, req, fate).cancelled <==>
              (req.CancelJob? && req.job == job) || (job in s.cancelled && req != ForgetJob(job))
  {
    if req.CancelJob? {
      CancelCloses(s.(cancelled := s.cancelled + {req.job}), fate.order, req.keep);
    } else if !req.ForgetJob? {
      OthersCancelNobody(s, req, fate);
    }
  }

  /** A cancellation of the job has been served, and no forgetting of it since. */
  ghost predicate CancelledLast(reqs: seq<Request>, job: JobId) {
    exists i :: 0 <= i < |reqs| && reqs[i].CancelJob? && reqs[i].job == job && NotForgottenSince(reqs, i, job)
  }

  /** Nothing after this request forgets the job. */
  ghost predicate NotForgottenSince(reqs: seq<Request>, i: nat, job: JobId) {
    forall j | i < j < |reqs| :: reqs[j] != ForgetJob(job)
  }

  lemma CancelledLastStep(reqs: seq<Request>, job: JobId)
    requires reqs != []
    ensures var n := |reqs| - 1;
            CancelledLast(reqs, job) <==>
              (reqs[n].CancelJob? && reqs[n].job == job) || (CancelledLast(reqs[..n], job) && reqs[n] != ForgetJob(job))
  {
    var n := |reqs| - 1;
    if CancelledLast(reqs[..n], job) && reqs[n] != ForgetJob(job) {
      var i :| 0 <= i < n && reqs[..n][i].CancelJob? && reqs[..n][i].job == job && NotForgottenSince(reqs[..n], i, job);
      BeforeStep(reqs, i, job);
    }
    if reqs[n].CancelJob? && reqs[n].job == job {
      assert NotForgottenSince(reqs, n, job);
    }
    if CancelledLast(reqs, job) {
      var i :| 0 <= i < |reqs| && reqs[i].CancelJob? && reqs[i].job == job && NotForgottenSince(reqs, i, job);
      if i < n {
        BeforeStep(reqs, i, job);
        assert reqs[..n][i] == reqs[i];
      }
    }
  }

  lemma BeforeStep(reqs: seq<Request>, i: nat, job: JobId)
    requires i < |reqs| - 1
    ensures var n := |reqs| - 1;
            NotForgottenSince(reqs, i, job) <==> NotForgottenSince(reqs[..n], i, job) && reqs[n] != ForgetJob(job)
  {
    var n := |reqs| - 1;
    assert forall j | i < j < n :: reqs[..n][j] == reqs[j];
  }

  /** Over every run: a job is cancelled exactly if it has been cancelled and not forgotten since. */
  lemma {:induction false} CancelledExactly(limit: int, reqs: seq<Request>, fates: seq<Fate>, job: JobId)
    requires |fates| == |reqs|
    ensures job in Serve(NewWorker(limit), reqs, fates).cancelled <==> CancelledLast(reqs, job)
    decreases |reqs|
  {
    if reqs != [] {
      var n := |reqs| - 1;
      CancelledExactly(limit, reqs[..n], fates[..n], job);
      CancelledBy(Serve(NewWorker(limit), reqs[..n], fates[..n]), reqs[n], fates[n], job);
      CancelledLastStep(reqs, job);
    }
  }

  // ----- when a file is finished with

  /** The request reports the file complete, or closes it for its job. */
  ghost predicate Finishes(s: Worker, req: Request, fate: Fate, k: FileKey) {
    || (req.Article? && Completions(Dispatch(s, req, fate).calls, k) > Completions(s.calls, k))
    || ((req.CancelJob? || req.CloseHandles?) && req.job == k.jobID && k in s.open)
  }

  /** Of finished files there is at most this one more, and exactly if it has been reported complete. */
  ghost predicate FinishesOwn(s: Worker, t: Worker, key: FileKey, k: FileKey) {
    && (k in t.completed <==> Completions(t.calls, k) > Completions(s.calls, k) || k in s.completed)
    && (Completions(t.calls, k) > Completions(s.calls, k) ==> k == key)
  }

  lemma IdleArticleFinishesNone(s: Worker, key: FileKey, a: BufferedArticle, fatal: bool, fate: Fate, k: FileKey)
    requires key.jobID in s.cancelled || key in s.completed || (key !in s.open && fate.opening.OpenFailed?)
    ensures FinishesOwn(s, Dispatch(s, Article(key, a, fatal), fate), key, k)
  {
    SayingNoCompletion(s.calls, [ArticleRejected(key, a.id, AfterCompletion)]);
    SayingNoCompletion(s.calls, [ArticlesUnwritten(key, [a.id]), WriteFaulted(key)]);
  }

  lemma HandedArticleFinishes(u: Worker, key: FileKey, a: BufferedArticle, fatal: bool, victims: seq<FileKey>, k: FileKey)
    requires key in u.open
    ensures FinishesOwn(u, AtOpenFile(u, key, a, fatal, victims), key, k)
  {
    AtOpenFileFinishes(u, key, a, fatal, victims);
  }

  lemma ArticleFinishes(s: Worker, key: FileKey, a: BufferedArticle, fatal: bool, fate: Fate, k: FileKey)
    ensures FinishesOwn(s, Dispatch(s, Article(key, a, fatal), fate), key, k)
  {
    if key.jobID in s.cancelled || key in s.completed || (key !in s.open && fate.opening.OpenFailed?) {
      IdleArticleFinishesNone(s, key, a, fatal, fate, k);
    } else if key in s.open {
      HandedArticleFinishes(s, key, a, fatal, fate.victims, k);
    } else {
      HandedArticleFinishes(OpenTarget(s, key, fate.opening.info, fate.opening.handle), key, a, fatal, fate.victims, k);
    }
  }

  lemma FinishedBy(s: Worker, req: Request, fate: Fate, k: FileKey)
    requires CacheIsAccounted(s) && Possible(s, req, fate)
    ensures k in Dispatch(s, req, fate).completed <==>
              Finishes(s, req, fate, k) || (k in s.completed && req != ForgetJob(k.jobID))
  {
    match req
    case Article(key, a, fatal) => ArticleFinishes(s, key, a, fatal, fate, k);
    case CancelJob(job, keep) => CancelEnds(s, job, keep, fate);
    case CloseHandles(job) => HandlesEnd(s, job, fate);
    case _ =>
  }

  /** A request has finished the file, and nothing has forgotten its job since. */
  ghost predicate FinishedLast(limit: int, reqs: seq<Request>, fates: seq<Fate>, k: FileKey)
    requires |fates| == |reqs|
  {
    exists i :: 0 <= i < |reqs| && FinishedAt(limit, reqs, fates, i, k) && NotForgottenSince(reqs, i, k.jobID)
  }

  /** The worker as the run's i-th request finds it. */
  ghost function WorkerAt(limit: int, reqs: seq<Request>, fates: seq<Fate>, i: nat): Worker
    requires |fates| == |reqs| && i < |reqs|
  {
    Serve(NewWorker(limit), reqs[..i], fates[..i])
  }

  ghost predicate FinishedAt(limit: int, reqs: seq<Request>, fates: seq<Fate>, i: nat, k: FileKey)
    requires |fates| == |reqs| && i < |reqs|
  {
    Finishes(WorkerAt(limit, reqs, fates, i), reqs[i], fates[i], k)
  }

  lemma WorkerAtPrefix(limit: int, reqs: seq<Request>, fates: seq<Fate>, i: nat)
    requires |fates| == |reqs| && i < |reqs| - 1
    ensures var n := |reqs| - 1;
            && WorkerAt(limit, reqs[..n], fates[..n], i) == WorkerAt(limit, reqs, fates, i)
            && reqs[..n][i] == reqs[i] && fates[..n][i] == fates[i]
  {
    var n := |reqs| - 1;
    assert reqs[..n][..i] == reqs[..i] && fates[..n][..i] == fates[..i];
  }

  lemma FinishedAtPrefix(limit: int, reqs: seq<Request>, fates: seq<Fate>, i: nat, k: FileKey)
    requires |fates| == |reqs| && i < |reqs| - 1
    ensures var n := |reqs| - 1;
            FinishedAt(limit, reqs[..n], fates[..n], i, k) <==> FinishedAt(limit, reqs, fates, i, k)
  {
    WorkerAtPrefix(limit, reqs, fates, i);
  }

  lemma StillFinishedLast(limit: int, reqs: seq<Request>, fates: seq<Fate>, k: FileKey)
    requires |fates| == |reqs| && reqs != []
    requires FinishedLast(limit, reqs[..|reqs| - 1], fates[..|reqs| - 1], k) && reqs[|reqs| - 1] != ForgetJob(k.jobID)
    ensures FinishedLast(limit, reqs, fates, k)
  {
    var n := |reqs| - 1;
    var i :| 0 <= i < n && FinishedAt(limit, reqs[..n], fates[..n], i, k) && NotForgottenSince(reqs[..n], i, k.jobID);
    BeforeStep(reqs, i, k.jobID);
    FinishedAtPrefix(limit, reqs, fates, i, k);
  }

  lemma FinishedLastStep(limit: int, reqs: seq<Request>, fates: seq<Fate>, k: FileKey)
    requires |fates| == |reqs| && reqs != []
    ensures var n := |reqs| - 1;
            FinishedLast(limit, reqs, fates, k) <==>
              FinishedAt(limit, reqs, fates, n, k)
              || (FinishedLast(limit, reqs[..n], fates[..n], k) && reqs[n] != ForgetJob(k.jobID))
  {
    var n := |reqs| - 1;
    if FinishedAt(limit, reqs, fates, n, k) {
      assert NotForgottenSince(reqs, n, k.jobID);
    } else if FinishedLast(limit, reqs[..n], fates[..n], k) && reqs[n] != ForgetJob(k.jobID) {
      StillFinishedLast(limit, reqs, fates, k);
    } else if FinishedLast(limit, reqs, fates, k) {
      var i :| 0 <= i < |reqs| && FinishedAt(limit, reqs, fates, i, k) && NotForgottenSince(reqs, i, k.jobID);
      BeforeStep(reqs, i, k.jobID);
      FinishedAtPrefix(limit, reqs, fates, i, k);
    }
  }

  lemma RunIsAccounted(limit: int, reqs: seq<Request>, fates: seq<Fate>)
    requires |fates| == |reqs|
    ensures CacheIsAccounted(Serve(NewWorker(limit), reqs, fates))
  {
    var s := Serve(NewWorker(limit), reqs, fates);
    CacheIsAccountedFor(limit, reqs, fates);
    forall k | k in s.perFile ensures Accounted(s.perFile[k]) {
      assert Sound(k, s.open[k].info, FileOf(s, k));
    }
  }

  /**
   * Over every run: a file is finished with exactly if it has been reported complete, or closed with its job, and
   * its job has not been forgotten since.
   */
  lemma {:induction false} FinishedExactly(limit: int, reqs: seq<Request>, fates: seq<Fate>, k: FileKey)
    requires Served(NewWorker(limit), reqs, fates)
    ensures k in Serve(NewWorker(limit), reqs, fates).completed <==> FinishedLast(limit, reqs, fates, k)
    decreases |reqs|
  {
    if reqs != [] {
      var n := |reqs| - 1;
      ServedPrefix(NewWorker(limit), reqs, fates);
      FinishedExactly(limit, reqs[..n], fates[..n], k);
      RunIsAccounted(limit, reqs[..n], fates[..n]);
      FinishedBy(Serve(NewWorker(limit), reqs[..n], fates[..n]), reqs[n], fates[n], k);
      FinishedLastStep(limit, reqs, fates, k);
    }
  }

  // ----- a job that starts over

  /** Forgetting a job touches no file, open or cached, and tells nobody. */
  lemma ForgettingKeepsFiles(s: Worker, job: JobId, fate: Fate)
    ensures var t := Dispatch(s, ForgetJob(job), fate);
            t.open == s.open && t.perFile == s.perFile && t.used == s.used && t.freed == s.freed && t.calls == s.calls
  {
  }

  /** The job has been forgotten, and since then neither cancelled, nor closed, nor this file sent anything. */
  ghost predicate StartsOver(reqs: seq<Request>, key: FileKey) {
    exists i :: 0 <= i < |reqs| && reqs[i] == ForgetJob(key.jobID) && QuietSince(reqs, i, key)
  }

  ghost predicate QuietSince(reqs: seq<Request>, i: nat, key: FileKey) {
    forall j | i < j < |reqs| ::
      && !((reqs[j].CancelJob? || reqs[j].CloseHandles?) && reqs[j].job == key.jobID)
      && !(reqs[j].Article? && reqs[j].key == key)
  }

  lemma StartsUncancelled(reqs: seq<Request>, key: FileKey)
    requires StartsOver(reqs, key)
    ensures !CancelledLast(reqs, key.jobID)
  {
    var i :| 0 <= i < |reqs| && reqs[i] == ForgetJob(key.jobID) && QuietSince(reqs, i, key);
    forall j | 0 <= j < |reqs| && reqs[j].CancelJob? && reqs[j].job == key.jobID
      ensures !NotForgottenSince(reqs, j, key.jobID)
    {
      assert j < i;
    }
  }

  lemma StartsUnfinished(limit: int, reqs: seq<Request>, fates: seq<Fate>, key: FileKey)
    requires |fates| == |reqs| && StartsOver(reqs, key)
    ensures !FinishedLast(limit, reqs, fates, key)
  {
    var i :| 0 <= i < |reqs| && reqs[i] == ForgetJob(key.jobID) && QuietSince(reqs, i, key);
    forall j | 0 <= j < |reqs| && FinishedAt(limit, reqs, fates, j, key)
      ensures !NotForgottenSince(reqs, j, key.jobID)
    {
      if reqs[j].Article? {
        var s := WorkerAt(limit, reqs, fates, j);
        ArticleFinishes(s, reqs[j].key, reqs[j].a, reqs[j].fatal, fates[j], key);
      }
      assert j < i;
    }
  }

  /**
   * After its job has been forgotten, cancelled or not before, the next article of a file opens it as the
   * opening gives it, unless it is open still, and is handed to it: nothing of the job's earlier life turns it away.
   */
  lemma ForgottenJobStartsOver(limit: int, reqs: seq<Request>, fates: seq<Fate>, key: FileKey,
                               a: BufferedArticle, fatal: bool, fate: Fate)
    requires Served(NewWorker(limit), reqs, fates) && StartsOver(reqs, key) && fate.opening.OpenedAs?
    ensures var s := Serve(NewWorker(limit), reqs, fates);
            var t := Dispatch(s, Article(key, a, fatal), fate);
            && key in t.open
            && t.open[key].info == InfoAt(s, key, fate)
            && Continues(HandleAt(s, fate, key), t.open[key].w.handle)
  {
    var s := Serve(NewWorker(limit), reqs, fates);
    var u := if key in s.open then s else OpenTarget(s, key, fate.opening.info, fate.opening.handle);
    CancelledExactly(limit, reqs, fates, key.jobID);
    FinishedExactly(limit, reqs, fates, key);
    StartsUncancelled(reqs, key);
    StartsUnfinished(limit, reqs, fates, key);
    AtOpenFileFinishes(u, key, a, fatal, fate.victims);
    AtOpenFileTold(u, key, a, fatal, fate.victims, key);
  }
}
