/** Every file the worker has open keeps whatever file operations keep. */
module WorkerFiles {
  import opened Types
  import opened FileBuffer
  import opened Writing
  import opened Assembly
  import opened WorkerMoves

  // A property of one file, given its key and its declared size.
  type FileProperty = (FileKey, FileInfo, File) -> bool

  ghost predicate Allowed(A: Demand, k: FileKey, op: FileOp) {
    op.Arrive? ==> A(k, op.a)
  }

  ghost predicate StepsKeep(J: FileProperty, A: Demand, limit: int) {
    forall k: FileKey, i: FileInfo, f: File, op: FileOp | J(k, i, f) && Allowed(A, k, op) ::
      J(k, i, Step(f, limit, i, op))
  }

  ghost predicate FreshHas(J: FileProperty) {
    forall k: FileKey, i: FileInfo, d: Disk :: J(k, i, NewFile(d))
  }

  /** Buffers paid back are no part of the property. */
  ghost predicate FreedBlind(J: FileProperty) {
    forall k: FileKey, i: FileInfo, f: File, freed: multiset<nat> | J(k, i, f) :: J(k, i, f.(freed := freed))
  }

  ghost predicate Preserved(J: FileProperty, A: Demand, limit: int) {
    StepsKeep(J, A, limit) && FreshHas(J) && FreedBlind(J)
  }

  ghost predicate AllFiles(s: Worker, J: FileProperty, limit: int) {
    && s.limit == limit
    && s.perFile.Keys <= s.open.Keys
    && forall k | k in s.open :: J(k, s.open[k].info, FileOf(s, k))
  }

  lemma SameFile(J: FileProperty, k: FileKey, i: FileInfo, f: File, g: File)
    requires FreedBlind(J) && J(k, i, f) && g.w == f.w && g.buf == f.buf
    ensures J(k, i, g)
  {
  }

  lemma PutKeeps(s: Worker, key: FileKey, f: File, J: FileProperty, limit: int)
    requires FreedBlind(J) && AllFiles(s, J, limit) && key in s.open && J(key, s.open[key].info, f)
    ensures AllFiles(PutFile(s, key, f), J, limit)
  {
  }

  lemma SameFilesKeep(s: Worker, t: Worker, J: FileProperty, limit: int)
    requires FreedBlind(J) && AllFiles(s, J, limit) && t.limit == limit
    requires t.open.Keys <= s.open.Keys && t.perFile.Keys <= t.open.Keys
    requires forall k | k in t.open :: t.open[k] == s.open[k] && BufAt(t.perFile, k) == BufAt(s.perFile, k)
    ensures AllFiles(t, J, limit)
  {
  }

  lemma StepAt(s: Worker, key: FileKey, op: FileOp, freed: multiset<nat>, J: FileProperty, A: Demand, limit: int)
    requires Preserved(J, A, limit) && AllFiles(s, J, limit) && key in s.open && Allowed(A, key, op)
    ensures AllFiles(PutFile(s, key, Step(FileOf(s, key), limit, s.open[key].info, op).(freed := freed)), J, limit)
  {
    var g := Step(FileOf(s, key), limit, s.open[key].info, op);
    assert J(key, s.open[key].info, g);
    SameFile(J, key, s.open[key].info, g, g.(freed := freed));
    PutKeeps(s, key, g.(freed := freed), J, limit);
  }

  lemma OpenKeeps(s: Worker, key: FileKey, info: FileInfo, d: Disk, J: FileProperty, limit: int)
    requires FreshHas(J) && FreedBlind(J) && AllFiles(s, J, limit) && key !in s.open
    ensures AllFiles(OpenTarget(s, key, info, d), J, limit)
  {
    var t := OpenTarget(s, key, info, d);
    forall k | k in t.open ensures J(k, t.open[k].info, FileOf(t, k)) {
      if k == key {
        assert J(k, info, NewFile(d));
        SameFile(J, k, info, NewFile(d), FileOf(t, k));
      } else {
        SameFile(J, k, s.open[k].info, FileOf(s, k), FileOf(t, k));
      }
    }
  }

  lemma MoveKeepsFiles(s: Worker, m: Move, J: FileProperty, A: Demand, limit: int)
    requires Preserved(J, A, limit) && AllFiles(s, J, limit) && Can(s, m, A)
    ensures AllFiles(Do(s, m, A), J, limit)
  {
    var t := Do(s, m, A);
    match m
    case Deliver(key, a) =>
      var f := Step(FileOf(s, key), limit, s.open[key].info, Arrive(a));
      StepAt(s, key, Arrive(a), f.freed, J, A, limit);
    case DeliverFailed(key, a) =>
      var f := Step(FileOf(s, key), limit, s.open[key].info, ArriveFailed(a.id));
      StepAt(s, key, ArriveFailed(a.id), t.freed, J, A, limit);
    case Open(key, info, handle) => OpenKeeps(s, key, info, handle, J, limit);
    case Act(key, op) =>
      StepAt(s, key, op, Step(FileOf(s, key), limit, s.open[key].info, op).freed, J, A, limit);
    case Release(key) =>
      StepAt(s, key, HandBack, s.freed, J, A, limit);
      SameFilesKeep(PutFile(s, key, TakeFaulted(FileOf(s, key))), t, J, limit);
    case _ => OtherMoveKeepsFiles(s, m, J, A, limit);
  }

  lemma OtherMoveKeepsFiles(s: Worker, m: Move, J: FileProperty, A: Demand, limit: int)
    requires Preserved(J, A, limit) && AllFiles(s, J, limit) && Can(s, m, A)
    requires !m.Deliver? && !m.DeliverFailed? && !m.Open? && !m.Act? && !m.Release?
    ensures AllFiles(Do(s, m, A), J, limit)
  {
  }

  /** A file closed by now had the property when its handle was closed. */
  ghost predicate Had(J: FileProperty, e: Episode) {
    e.Closed? ==> exists f: File :: J(e.key, e.info, f) && f.w == e.w
  }

  ghost predicate AllEpisodes(s: Worker, J: FileProperty) {
    forall i | 0 <= i < |s.past| :: Had(J, s.past[i])
  }

  lemma MoveKeepsEpisodes(s: Worker, m: Move, J: FileProperty, A: Demand, limit: int)
    requires AllFiles(s, J, limit) && AllEpisodes(s, J) && Can(s, m, A)
    ensures AllEpisodes(Do(s, m, A), J)
  {
  }

  /** Over every run of the worker, whatever its requests and faults: for files open now and files closed since. */
  lemma WorkerKeepsFiles(limit: int, reqs: seq<Request>, fates: seq<Fate>, J: FileProperty, A: Demand)
    requires |fates| == |reqs| && Preserved(J, A, limit)
    requires forall i | 0 <= i < |reqs| :: Meets(reqs[i], A)
    ensures AllFiles(Serve(NewWorker(limit), reqs, fates), J, limit)
    ensures AllEpisodes(Serve(NewWorker(limit), reqs, fates), J)
  {
    var W := (s: Worker) => AllFiles(s, J, limit) && AllEpisodes(s, J);
    forall s: Worker, m: Move | W(s) && Can(s, m, A) ensures W(Do(s, m, A)) {
      MoveKeepsFiles(s, m, J, A, limit);
      MoveKeepsEpisodes(s, m, J, A, limit);
    }
    ServeKeeps(NewWorker(limit), reqs, fates, W, A);
  }
}
