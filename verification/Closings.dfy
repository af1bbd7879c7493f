/** How files leave the open set: what becomes of their bytes, of their keys, and of articles that come too late. */
module Closings {
  import opened Types
  import opened FileBuffer
  import opened Writing
  import opened WriterInvariant
  import opened WriterRuns
  import opened Drains
  import opened Assembly
  import opened WorkerMoves

  // ----- one file

  ghost function ArticlesOf(s: Worker, key: FileKey): Articles {
    if key in s.perFile then s.perFile[key].articles else map[]
  }

  ghost predicate CacheIsAccounted(s: Worker) {
    forall k | k in s.perFile :: Accounted(s.perFile[k])
  }

  /** The file was drained, and says so truly, before it was given up to its cancellation. */
  ghost predicate IsKept(w: Writer, m: Articles, e: Episode) {
    && e.Closed? && DrainedInto(w, m, e.w)
    && (e.ending == Kept(true) || e.ending == Kept(false))
    && (e.ending == Kept(true) <==> !AWriteFailed(w.handle, e.w.handle))
  }

  /** Not a byte was written, and nothing claimed or taken back. */
  ghost predicate IsDeleted(w: Writer, e: Episode) {
    e.Closed? && e.ending == Deleted && e.w == w
  }

  ghost predicate IsHanded(w: Writer, m: Articles, e: Episode) {
    e.Closed? && e.ending == Handed && DrainedInto(w, m, e.w)
  }

  datatype Manner = Keeping | Deleting | Handing

  /** How a file of this record and these buffered articles ended. */
  ghost predicate Ended(w: Writer, m: Articles, how: Manner, e: Episode) {
    match how
    case Keeping => IsKept(w, m, e)
    case Deleting => IsDeleted(w, e)
    case Handing => IsHanded(w, m, e)
  }

  ghost function Ends(s: Worker, key: FileKey, how: Manner): Worker
    requires key in s.open
  {
    match how
    case Keeping => CloseCancelled(s, key, true)
    case Deleting => CloseCancelled(s, key, false)
    case Handing => DrainAndClose(s, key)
  }

  /** Nothing about any other file has changed. */
  ghost predicate OthersStay(s: Worker, t: Worker, key: FileKey) {
    && t.open - {key} == s.open - {key} && t.perFile - {key} == s.perFile - {key}
    && t.completed - {key} == s.completed - {key} && t.cancelled == s.cancelled && t.limit == s.limit
  }

  lemma HandedBackIsSame(w: Writer, m: Articles, v: Writer)
    requires DrainedInto(w, m, v)
    ensures DrainedInto(w, m, v.(faulted := []))
  {
    forall o | o in m
      ensures ClaimedIn(v.(faulted := []), m[o]) <==> ClaimedIn(v, m[o])
      ensures RolledSince(w, v.(faulted := []), m[o].id) <==> RolledSince(w, v, m[o].id)
    {
    }
  }

  /** The last episode is this file's, ended in this manner. */
  ghost predicate EndedLast(s: Worker, t: Worker, key: FileKey, how: Manner)
    requires key in s.open
  {
    && |t.past| == |s.past| + 1 && t.past[..|s.past|] == s.past
    && t.past[|s.past|].key == key && Ended(s.open[key].w, ArticlesOf(s, key), how, t.past[|s.past|])
  }

  /** This file is gone, and nothing about any other has changed. */
  ghost predicate Gone(s: Worker, t: Worker, key: FileKey) {
    key !in t.open && key !in t.perFile && t.completed == s.completed && OthersStay(s, t, key)
  }

  lemma DrainedEnds(s: Worker, key: FileKey, how: Manner)
    requires key in s.open && (key in s.perFile ==> Accounted(s.perFile[key])) && !how.Deleting?
    ensures EndedLast(s, Ends(s, key, how), key, how)
  {
    var f := FileOf(s, key);
    assert f.Articles() == ArticlesOf(s, key);
    DrainAccounts(f);
    HandedBackIsSame(f.w, f.Articles(), Drain(f).0.w);
  }

  lemma CloseGoes(s: Worker, u: Worker, key: FileKey, ending: Ending)
    requires key in u.open && OthersStay(s, u, key) && u.completed == s.completed
    ensures Gone(s, Close(u, key, ending), key) && Close(u, key, ending).calls == u.calls
  {
    var t := Close(u, key, ending);
    assert t.open - {key} == u.open - {key} && t.perFile - {key} == u.perFile - {key};
  }

  lemma FileGoes(s: Worker, key: FileKey, how: Manner)
    requires key in s.open
    ensures var t := Ends(s, key, how); Gone(s, t, key) && (!how.Handing? ==> t.calls == s.calls)
  {
    if how.Deleting? {
      CloseGoes(s, s, key, Deleted);
    } else {
      var (f, ok) := Drain(FileOf(s, key));
      var u := PutFile(s, key, f);
      assert OthersStay(s, u, key);
      if how.Keeping? {
        CloseGoes(s, u, key, Kept(ok));
      } else {
        assert OthersStay(s, ReleaseFaulted(u, key), key);
        CloseGoes(s, ReleaseFaulted(u, key), key, Handed);
      }
    }
  }

  lemma FileEnds(s: Worker, key: FileKey, how: Manner)
    requires key in s.open && (key in s.perFile ==> Accounted(s.perFile[key]))
    ensures EndedLast(s, Ends(s, key, how), key, how) && Gone(s, Ends(s, key, how), key)
    ensures !how.Handing? ==> Ends(s, key, how).calls == s.calls
  {
    FileGoes(s, key, how);
    if !how.Deleting? {
      DrainedEnds(s, key, how);
    }
  }

  // ----- all files of a job

  ghost function EndAll(s: Worker, keys: seq<FileKey>, how: Manner): Worker {
    match how
    case Keeping => CancelFiles(s, keys, true)
    case Deleting => CancelFiles(s, keys, false)
    case Handing => CloseFiles(s, keys)
  }

  ghost predicate EachOnce(keys: seq<FileKey>, open: set<FileKey>) {
    && (forall i | 0 <= i < |keys| :: keys[i] in open)
    && (forall i, j | 0 <= i < j < |keys| :: keys[i] != keys[j])
  }

  ghost function Elems(keys: seq<FileKey>): set<FileKey> {
    set k | k in keys
  }

  /** One episode more for each of these files, in this order. */
  ghost predicate EndedInTurn(s: Worker, t: Worker, keys: seq<FileKey>, how: Manner)
    requires EachOnce(keys, s.open.Keys)
  {
    && |t.past| == |s.past| + |keys| && t.past[..|s.past|] == s.past
    && forall n | 0 <= n < |keys| ::
         var e := t.past[|s.past| + n];
         e.key == keys[n] && Ended(s.open[keys[n]].w, ArticlesOf(s, keys[n]), how, e)
  }

  /** These files are gone and buried, and nothing else has changed about any other. */
  ghost predicate Buried(s: Worker, t: Worker, keys: set<FileKey>) {
    && t.open == s.open - keys && t.perFile == s.perFile - keys
    && t.completed == s.completed + keys && t.cancelled == s.cancelled && t.limit == s.limit
  }

  lemma GoneIsBuried(s: Worker, t: Worker, key: FileKey)
    requires key in s.open && Gone(s, t, key)
    ensures Buried(s, Tombstone(t, key), {key})
  {
    assert t.open == s.open - {key} by {
      assert t.open - {key} == t.open;
    }
    assert t.perFile == s.perFile - {key} by {
      assert t.perFile - {key} == t.perFile;
    }
  }

  lemma BuriedInTurn(s: Worker, t: Worker, u: Worker, keys: seq<FileKey>)
    requires keys != [] && Buried(s, t, {keys[0]}) && Buried(t, u, Elems(keys[1..]))
    ensures Buried(s, u, Elems(keys))
  {
    assert Elems(keys) == {keys[0]} + Elems(keys[1..]);
    assert s.open - {keys[0]} - Elems(keys[1..]) == s.open - Elems(keys);
    assert s.perFile - {keys[0]} - Elems(keys[1..]) == s.perFile - Elems(keys);
  }

  lemma EndAllStep(s: Worker, keys: seq<FileKey>, how: Manner)
    requires keys != [] && keys[0] in s.open
    ensures EndAll(s, keys, how) == EndAll(Tombstone(Ends(s, keys[0], how), keys[0]), keys[1..], how)
  {
  }

  lemma EndedNext(s: Worker, t: Worker, u: Worker, keys: seq<FileKey>, how: Manner)
    requires keys != [] && EachOnce(keys, s.open.Keys) && Buried(s, t, {keys[0]})
    requires |t.past| == |s.past| + 1 && t.past[..|s.past|] == s.past
    requires t.past[|s.past|].key == keys[0]
    requires Ended(s.open[keys[0]].w, ArticlesOf(s, keys[0]), how, t.past[|s.past|])
    requires EachOnce(keys[1..], t.open.Keys) && EndedInTurn(t, u, keys[1..], how)
    ensures EndedInTurn(s, u, keys, how)
  {
    assert u.past[..|s.past|] == s.past && u.past[|s.past|] == t.past[|s.past|];
    forall n | 0 <= n < |keys|
      ensures u.past[|s.past| + n].key == keys[n]
      ensures Ended(s.open[keys[n]].w, ArticlesOf(s, keys[n]), how, u.past[|s.past| + n])
    {
      if n > 0 {
        assert keys[1..][n - 1] == keys[n] && keys[n] != keys[0];
        assert u.past[|t.past| + (n - 1)] == u.past[|s.past| + n];
        assert t.open[keys[n]] == s.open[keys[n]] && ArticlesOf(t, keys[n]) == ArticlesOf(s, keys[n]);
      }
    }
  }

  lemma {:induction false} FilesEnd(s: Worker, keys: seq<FileKey>, how: Manner)
    requires EachOnce(keys, s.open.Keys) && CacheIsAccounted(s)
    ensures var t := EndAll(s, keys, how);
            && EndedInTurn(s, t, keys, how) && Buried(s, t, Elems(keys)) && (!how.Handing? ==> t.calls == s.calls)
    decreases |keys|
  {
    if keys == [] {
      assert s.open - Elems([]) == s.open && s.perFile - Elems([]) == s.perFile;
    } else {
      var t := Tombstone(Ends(s, keys[0], how), keys[0]);
      FileEnds(s, keys[0], how);
      GoneIsBuried(s, Ends(s, keys[0], how), keys[0]);
      assert EachOnce(keys[1..], t.open.Keys);
      FilesEnd(t, keys[1..], how);
      EndAllStep(s, keys, how);
      EndedNext(s, t, EndAll(s, keys, how), keys, how);
      BuriedInTurn(s, t, EndAll(s, keys, how), keys);
    }
  }

  lemma HandedFilesLeave(s: Worker, keys: seq<FileKey>)
    requires EachOnce(keys, s.open.Keys) && CacheIsAccounted(s)
    ensures |CloseFiles(s, keys).past| == |s.past| + |keys| && CloseFiles(s, keys).open == s.open - Elems(keys)
  {
    FilesEnd(s, keys, Handing);
    assert EndAll(s, keys, Handing) == CloseFiles(s, keys);
  }

  // ----- the requests that close files

  function KeysOf(s: Worker, job: JobId): set<FileKey> {
    set k | k in s.open && k.jobID == job
  }

  /** The file has had one more episode, ended in this manner. */
  ghost predicate EndedSince(s: Worker, t: Worker, key: FileKey, how: Manner)
    requires key in s.open
  {
    exists i :: |s.past| <= i < |t.past| && t.past[i].key == key && Ended(s.open[key].w, ArticlesOf(s, key), how, t.past[i])
  }

  lemma TurnsAreSince(s: Worker, t: Worker, job: JobId, keys: seq<FileKey>, how: Manner)
    requires Enumerates(s, job, keys) && EachOnce(keys, s.open.Keys) && EndedInTurn(s, t, keys, how)
    ensures Elems(keys) == KeysOf(s, job) && forall k | k in KeysOf(s, job) :: EndedSince(s, t, k, how)
  {
    forall k | k in KeysOf(s, job) ensures EndedSince(s, t, k, how) {
      var n :| 0 <= n < |keys| && keys[n] == k;
      assert t.past[|s.past| + n].key == k;
    }
  }

  lemma EndedSinceStill(s: Worker, u: Worker, t: Worker, key: FileKey, how: Manner)
    requires u.open == s.open && u.perFile == s.perFile && u.past == s.past && key in u.open && EndedSince(u, t, key, how)
    ensures EndedSince(s, t, key, how)
  {
  }

  /**
   * A cancelled job's open files all end. Kept, each was drained first: every article it had buffered has been
   * claimed, and is on the file if none overlapped another, or a write failed; which of the two is what is
   * recorded. Deleted, nothing was written. Nobody is told of anything.
   */
  lemma CancelEnds(s: Worker, job: JobId, keep: bool, fate: Fate)
    requires CacheIsAccounted(s) && Possible(s, CancelJob(job, keep), fate)
    ensures var t := Dispatch(s, CancelJob(job, keep), fate);
            && (forall k | k in KeysOf(s, job) :: EndedSince(s, t, k, if keep then Keeping else Deleting))
            && |t.past| == |s.past| + |fate.order| && t.past[..|s.past|] == s.past
            && t.open == s.open - KeysOf(s, job) && t.perFile == s.perFile - KeysOf(s, job)
            && t.completed == s.completed + KeysOf(s, job) && t.cancelled == s.cancelled + {job} && t.calls == s.calls
  {
    var u := s.(cancelled := s.cancelled + {job});
    var how := if keep then Keeping else Deleting;
    FilesEnd(u, fate.order, how);
    TurnsAreSince(u, EndAll(u, fate.order, how), job, fate.order, how);
    forall k | k in KeysOf(s, job) ensures EndedSince(s, EndAll(u, fate.order, how), k, how) {
      EndedSinceStill(s, u, EndAll(u, fate.order, how), k, how);
    }
  }

  /** The closing of a job's handles drains them all, buries their keys, and cancels nothing. */
  lemma HandlesEnd(s: Worker, job: JobId, fate: Fate)
    requires CacheIsAccounted(s) && Possible(s, CloseHandles(job), fate)
    ensures var t := Dispatch(s, CloseHandles(job), fate);
            && (forall k | k in KeysOf(s, job) :: EndedSince(s, t, k, Handing))
            && t.open == s.open - KeysOf(s, job) && t.perFile == s.perFile - KeysOf(s, job)
            && t.completed == s.completed + KeysOf(s, job) && t.cancelled == s.cancelled
  {
    FilesEnd(s, fate.order, Handing);
    TurnsAreSince(s, EndAll(s, fate.order, Handing), job, fate.order, Handing);
  }

  /** A file closed for the barrier is drained like any other, and its key is left as it was. */
  lemma CloseEnds(s: Worker, key: FileKey, fate: Fate)
    requires CacheIsAccounted(s) && key in s.open
    ensures var t := Dispatch(s, SyncClose(key), fate);
            && EndedSince(s, t, key, Handing) && key !in t.open && key !in t.perFile
            && t.completed == s.completed && OthersStay(s, t, key)
  {
    FileEnds(s, key, Handing);
  }

  // ----- articles that come too late

  ghost predicate Shut(s: Worker, key: FileKey) {
    key in s.completed && key !in s.open
  }

  lemma ShutIsSteady(key: FileKey)
    ensures Steady((s: Worker) => Shut(s, key), (k, a) => true)
  {
  }

  /** Nothing but the forgetting of its job lets a closed and buried file be opened again. */
  lemma RequestStaysShut(s: Worker, req: Request, fate: Fate, key: FileKey)
    requires Shut(s, key) && req != ForgetJob(key.jobID)
    ensures Shut(Dispatch(s, req, fate), key)
  {
    var W := (s: Worker) => Shut(s, key);
    var A: Demand := (k, a) => true;
    ShutIsSteady(key);
    if req.Article? {
      ArticleStaysShut(s, req.key, req.a, req.fatal, fate, key);
    } else if !req.ForgetJob? {
      ControlKeeps(s, req, fate, W, A);
    }
  }

  lemma ArticleStaysShut(s: Worker, k: FileKey, a: BufferedArticle, fatal: bool, fate: Fate, key: FileKey)
    requires Shut(s, key)
    ensures Shut(Dispatch(s, Article(k, a, fatal), fate), key)
  {
    var W := (s: Worker) => Shut(s, key);
    var A: Demand := (k, a) => true;
    ShutIsSteady(key);
    if k.jobID in s.cancelled || k in s.completed || (k !in s.open && fate.opening.OpenFailed?) {
    } else if k in s.open {
      AtOpenFileKeeps(s, k, a, fatal, fate.victims, W, A);
    } else {
      AtOpenFileKeeps(OpenTarget(s, k, fate.opening.info, fate.opening.handle), k, a, fatal, fate.victims, W, A);
    }
  }

  lemma {:induction false} RunStaysShut(s: Worker, reqs: seq<Request>, fates: seq<Fate>, key: FileKey)
    requires |fates| == |reqs| && Shut(s, key) && forall i | 0 <= i < |reqs| :: reqs[i] != ForgetJob(key.jobID)
    ensures Shut(Serve(s, reqs, fates), key)
    decreases |reqs|
  {
    if reqs != [] {
      var n := |reqs| - 1;
      RunStaysShut(s, reqs[..n], fates[..n], key);
      RequestStaysShut(Serve(s, reqs[..n], fates[..n]), reqs[n], fates[n], key);
    }
  }

  /**
   * After a job's handles have been closed, or the job cancelled, and whatever is served then short of its
   * forgetting: an article of a file that was open opens nothing, and does nothing but return its buffer.
   */
  lemma LateArticleOpensNothing(s: Worker, req: Request, fate: Fate, reqs: seq<Request>, fates: seq<Fate>,
                                key: FileKey, a: BufferedArticle, fatal: bool, last: Fate)
    requires CacheIsAccounted(s) && Possible(s, req, fate) && key in s.open
    requires req == CloseHandles(key.jobID) || (req.CancelJob? && req.job == key.jobID)
    requires |fates| == |reqs| && forall i | 0 <= i < |reqs| :: reqs[i] != ForgetJob(key.jobID)
    ensures var t := Serve(Dispatch(s, req, fate), reqs, fates);
            key !in t.open && Dispatch(t, Article(key, a, fatal), last) == t.(freed := t.freed + a.data.Loan())
  {
    if req.CloseHandles? {
      HandlesEnd(s, req.job, fate);
    } else {
      CancelEnds(s, req.job, req.keep, fate);
    }
    assert key in KeysOf(s, key.jobID);
    RunStaysShut(Dispatch(s, req, fate), reqs, fates, key);
  }
}
