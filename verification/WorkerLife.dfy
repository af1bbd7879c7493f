/** What holds of the worker over every run: pressure, cancellation, completion, and what its files say. */
module WorkerLife {
  import opened Types
  import opened MapFold
  import opened FileBuffer
  import opened Writing
  import opened WriterInvariant
  import opened WriterRuns
  import opened Settlement
  import opened DrainTruth
  import opened WriteBounds
  import opened Assembly
  import opened WorkerMoves
  import opened WorkerFiles
  import opened WorkerLedger

  // ----- memory pressure

  lemma FlushAllEmpties(f: File)
    requires f.buf.Some?
    ensures FlushAll(f).0.buf == Some(Drained(f.buf.value))
  {
    WriteInOrderKeepsBuffer(f.(buf := Some(Drained(f.buf.value))), Sorted(f.Articles()));
  }

  lemma StepIsLedgered(s: Worker, key: FileKey)
    requires Ledger(s)
    ensures Ledger(FlushVictim(s, key).0)
  {
    LedgerIsStable();
    StableIsSteady(Ledger, Anything);
    VictimKeeps(s, key, Ledger, Anything);
  }

  lemma VictimFlushed(s: Worker, key: FileKey)
    requires key in s.open && key in s.perFile && s.perFile[key].articles != map[]
    ensures var (t, more) := FlushVictim(s, key);
            && t.used == s.used - s.perFile[key].totalBytes
            && (more <==> t.calls == s.calls)
  {
    FlushAllEmpties(FileOf(s, key));
    var (f, ok) := FlushAll(FileOf(s, key));
    var t := PutFile(s, key, f);
    assert t.used == s.used - s.perFile[key].totalBytes && t.calls == s.calls;
    if !ok {
      var u := ReleaseFaulted(t, key);
      assert u.used == t.used && |u.calls| >= |t.calls|;
      assert FlushVictim(s, key).0 == Say(u, [WriteFaulted(key)]);
    }
  }

  lemma NoArticlesNoBytes()
    ensures BytesIn(map[]) == 0
  {
  }

  lemma VictimEmptied(s: Worker, key: FileKey)
    requires Ledger(s) && key in s.perFile && s.perFile[key].totalBytes > 0
    ensures var (t, more) := FlushVictim(s, key);
            && Ledger(t) && t.used == s.used - s.perFile[key].totalBytes
            && (more <==> t.calls == s.calls)
  {
    StepIsLedgered(s, key);
    assert Sound(key, s.open[key].info, FileOf(s, key));
    NoArticlesNoBytes();
    VictimFlushed(s, key);
  }

  lemma NothingCached(s: Worker)
    requires Ledger(s) && forall k | k in s.perFile :: s.perFile[k].totalBytes <= 0
    ensures s.used <= 0
  {
    SumNonPositive(Totals(s));
  }

  lemma {:induction false} SumNonPositive(m: map<FileKey, int>)
    requires forall k | k in m :: m[k] <= 0
    ensures Sum(m) <= 0
    decreases |m|
  {
    if m != map[] {
      var k :| k in m;
      SumRemove(m, k);
      SumNonPositive(m - {k});
    }
  }

  /** No more than nine tenths of the limit are cached, if there is one. */
  ghost predicate AtEase(s: Worker) {
    s.limit <= 0 || 10 * s.used <= 9 * s.limit
  }

  /** However ties among the largest files are broken, pressure ends below nine tenths of the limit, unless a write faults. */
  lemma {:induction false} PressureIsRelieved(s: Worker, victims: seq<FileKey>)
    requires Ledger(s) && Schedule(s, victims)
    ensures var t := RelievePressure(s, victims); t.calls == s.calls ==> AtEase(t)
    decreases |victims|
  {
    if Pressure(s) {
      if forall k | k in s.perFile :: s.perFile[k].totalBytes <= 0 {
        NothingCached(s);
      } else {
        VictimEmptied(s, victims[0]);
        var (t, more) := FlushVictim(s, victims[0]);
        if more {
          PressureIsRelieved(t, victims[1..]);
        }
      }
    }
  }

  /**
   * Each file flushed to relieve pressure was, at its turn, one that no other file had more bytes cached than, and
   * more than nine tenths of the limit were cached.
   */
  lemma {:induction false} VictimsAreLargest(s: Worker, victims: seq<FileKey>, i: nat)
    requires Schedule(s, victims) && i < |victims|
    ensures var t := RelievePressure(s, victims[..i]);
            && t.limit > 0 && 10 * t.used > 9 * t.limit
            && victims[i] in t.perFile
            && forall k | k in t.perFile :: t.perFile[k].totalBytes <= t.perFile[victims[i]].totalBytes
    decreases i
  {
    if i > 0 {
      var (t, more) := FlushVictim(s, victims[0]);
      assert more;
      VictimsAreLargest(t, victims[1..], i - 1);
      assert victims[..i][0] == victims[0] && victims[..i][1..] == victims[1..][..i - 1];
    }
  }

  /** And it always ends: each flush takes bytes off the total. */
  lemma {:induction false} PressureEnds(s: Worker) returns (victims: seq<FileKey>)
    requires Ledger(s)
    ensures Schedule(s, victims)
    decreases s.used
  {
    if !Pressure(s) || (forall k | k in s.perFile :: s.perFile[k].totalBytes <= 0) {
      victims := [];
    } else {
      var key := LargestFile(s);
      VictimEmptied(s, key);
      var (t, more) := FlushVictim(s, key);
      if more {
        var rest := PressureEnds(t);
        victims := [key] + rest;
        assert victims[1..] == rest;
      } else {
        victims := [key];
      }
    }
  }

  lemma LargestFile(s: Worker) returns (key: FileKey)
    requires exists k :: k in s.perFile && s.perFile[k].totalBytes > 0
    ensures IsLargest(s, key)
  {
    var some :| some in s.perFile && s.perFile[some].totalBytes > 0;
    assert some in Totals(s);
    MaxExists(Totals(s));
    key :| key in Totals(s) && forall j | j in Totals(s) :: Totals(s)[j] <= Totals(s)[key];
    forall k | k in s.perFile ensures s.perFile[k].totalBytes <= s.perFile[key].totalBytes {
      assert k in Totals(s);
    }
  }

  /** A cache at its ease is left alone. */
  lemma EaseIsLeftAlone(s: Worker, victims: seq<FileKey>)
    requires AtEase(s)
    ensures RelievePressure(s, victims) == s
  {
  }

  lemma AdmissionIsLedgered(s: Worker, key: FileKey, a: BufferedArticle, fatal: bool)
    requires Ledger(s) && key in s.open
    ensures Ledger(TakeOn(s, key, a, fatal).0)
  {
    LedgerIsStable();
    StableIsSteady(Ledger, Anything);
    HandingKeeps(s, key, a, fatal, Ledger, Anything);
    TakeKeeps(s, key, a, fatal, Ledger, Anything);
  }

  lemma SettlingCachesNothing(s: Worker, key: FileKey, admitted: bool)
    requires key in s.open
    ensures Settle(s, key, admitted).used == s.used
  {
  }

  /** So an article newly taken on leaves the cache within bounds. */
  lemma AdmissionRelievesPressure(s: Worker, key: FileKey, a: BufferedArticle, fatal: bool, victims: seq<FileKey>)
    requires Ledger(s) && key in s.open
    requires TakeOn(s, key, a, fatal).1 && Schedule(TakeOn(s, key, a, fatal).0, victims)
    requires RelievePressure(TakeOn(s, key, a, fatal).0, victims).calls == TakeOn(s, key, a, fatal).0.calls
    ensures AtEase(AtOpenFile(s, key, a, fatal, victims))
  {
    var t := TakeOn(s, key, a, fatal).0;
    AdmissionIsLedgered(s, key, a, fatal);
    PressureIsRelieved(t, victims);
    SettlingCachesNothing(RelievePressure(t, victims), key, true);
    assert AtOpenFile(s, key, a, fatal, victims) == Settle(RelievePressure(t, victims), key, true);
  }

  // ----- cancellation

  ghost predicate NoCancelledOpen(s: Worker) {
    forall k | k in s.open :: k.jobID !in s.cancelled
  }

  lemma {:induction false} CancelCloses(s: Worker, keys: seq<FileKey>, keep: bool)
    ensures var t := CancelFiles(s, keys, keep);
            && t.cancelled == s.cancelled
            && (forall k | k in t.open :: k in s.open && k !in keys)
    decreases |keys|
  {
    if keys == [] {
    } else {
      var t := if keys[0] in s.open then Tombstone(CloseCancelled(s, keys[0], keep), keys[0]) else s;
      CancelCloses(t, keys[1..], keep);
    }
  }

  lemma {:induction false} CloseFilesCloses(s: Worker, keys: seq<FileKey>)
    ensures var t := CloseFiles(s, keys);
            t.cancelled == s.cancelled && (forall k | k in t.open :: k in s.open && k !in keys)
    decreases |keys|
  {
    if keys == [] {
    } else {
      var t := if keys[0] in s.open then Tombstone(DrainAndClose(s, keys[0]), keys[0]) else s;
      CloseFilesCloses(t, keys[1..]);
    }
  }

  lemma DispatchKeepsCancelled(s: Worker, req: Request, fate: Fate)
    requires NoCancelledOpen(s) && Possible(s, req, fate)
    ensures NoCancelledOpen(Dispatch(s, req, fate))
  {
    match req
    case CancelJob(job, keep) => CancelCloses(s.(cancelled := s.cancelled + {job}), fate.order, keep);
    case CloseHandles(_) => CloseFilesCloses(s, fate.order);
    case _ =>
  }

  lemma {:induction false} ServeKeepsCancelled(limit: int, reqs: seq<Request>, fates: seq<Fate>)
    requires Served(NewWorker(limit), reqs, fates)
    ensures NoCancelledOpen(Serve(NewWorker(limit), reqs, fates))
    decreases |reqs|
  {
    if reqs != [] {
      var n := |reqs| - 1;
      ServedPrefix(NewWorker(limit), reqs, fates);
      ServeKeepsCancelled(limit, reqs[..n], fates[..n]);
      DispatchKeepsCancelled(Serve(NewWorker(limit), reqs[..n], fates[..n]), reqs[n], fates[n]);
    }
  }

  lemma ServedPrefix(s: Worker, reqs: seq<Request>, fates: seq<Fate>)
    requires Served(s, reqs, fates) && reqs != []
    ensures var n := |reqs| - 1;
            Served(s, reqs[..n], fates[..n]) && Possible(Serve(s, reqs[..n], fates[..n]), reqs[n], fates[n])
  {
    var n := |reqs| - 1;
    forall i | 0 <= i < n
      ensures Possible(Serve(s, reqs[..n][..i], fates[..n][..i]), reqs[..n][i], fates[..n][i])
    {
      assert reqs[..n][..i] == reqs[..i] && fates[..n][..i] == fates[..i];
    }
  }

  /** No file of a cancelled job is open, and its articles do nothing but give their buffers back. */
  lemma CancelledJobIsIdle(limit: int, reqs: seq<Request>, fates: seq<Fate>, job: JobId,
                           i: int, a: BufferedArticle, fatal: bool, fate: Fate)
    requires Served(NewWorker(limit), reqs, fates)
    requires job in Serve(NewWorker(limit), reqs, fates).cancelled
    ensures var s := Serve(NewWorker(limit), reqs, fates);
            && (forall k | k in s.open :: k.jobID != job)
            && (forall k | k in s.perFile :: k.jobID != job)
            && Dispatch(s, Article(FileKey(job, i), a, fatal), fate) == s.(freed := s.freed + a.data.Loan())
  {
    ServeKeepsCancelled(limit, reqs, fates);
    CacheIsAccountedFor(limit, reqs, fates);
  }

  // ----- completion

  /** Enough parts are accounted for, none is waiting to be routed, and each is failed for good, written, or buffered. */
  ghost predicate Whole(info: FileInfo, f: File) {
    && 0 < info.totalParts <= |f.w.seenDone + f.w.seenFailed|
    && f.w.faulted == []
    && forall id | id in f.w.seenDone + f.w.seenFailed :: id in f.w.seenFailed || Landed(f.w, id) || Flying(f, [], id)
  }

  ghost predicate CompletionsWhole(s: Worker) {
    forall i | 0 <= i < |s.calls| && s.calls[i].FileComplete? :: Whole(s.calls[i].info, s.calls[i].file)
  }

  lemma RouteCallsComplete(key: FileKey, rolled: seq<Faulted>, i: nat)
    requires i < |RouteCalls(key, rolled)|
    ensures !RouteCalls(key, rolled)[i].FileComplete?
  {
    if i < |RejectCalls(key, rolled)| {
      RejectCallsComplete(key, rolled, i);
    }
  }

  lemma {:induction false} RejectCallsComplete(key: FileKey, rolled: seq<Faulted>, i: nat)
    requires i < |RejectCalls(key, rolled)|
    ensures !RejectCalls(key, rolled)[i].FileComplete?
    decreases |rolled|
  {
    var n := |RejectCalls(key, rolled)| - |RejectCalls(key, rolled[1..])|;
    if i >= n {
      RejectCallsComplete(key, rolled[1..], i - n);
    }
  }

  /** Only finalizing reports a completion. */
  lemma MoveSays(s: Worker, m: Move, A: Demand) returns (more: seq<Call>)
    requires Can(s, m, A) && !m.Finalize?
    ensures Do(s, m, A).calls == s.calls + more
    ensures forall i | 0 <= i < |more| :: !more[i].FileComplete?
  {
    if m.Release? {
      more := RouteCalls(m.key, s.open[m.key].w.faulted);
      forall i | 0 <= i < |more| ensures !more[i].FileComplete? {
        RouteCallsComplete(m.key, s.open[m.key].w.faulted, i);
      }
    } else {
      more := Do(s, m, A).calls[|s.calls|..];
    }
  }

  lemma MoveKeepsCompletions(s: Worker, m: Move)
    requires AllFiles(s, Sound, s.limit) && CompletionsWhole(s) && Can(s, m, Anything)
    ensures CompletionsWhole(Do(s, m, Anything))
  {
    if m.Finalize? {
      assert Sound(m.key, s.open[m.key].info, FileOf(s, m.key));
    } else {
      var more := MoveSays(s, m, Anything);
    }
  }

  /** Over every run: whenever a file was reported complete, it had no hole. */
  lemma CompletionNeverCoversAHole(limit: int, reqs: seq<Request>, fates: seq<Fate>)
    requires |fates| == |reqs|
    ensures CompletionsWhole(Serve(NewWorker(limit), reqs, fates))
  {
    var W := (s: Worker) => s.limit == limit && AllFiles(s, Sound, limit) && CompletionsWhole(s);
    SoundIsKept(limit);
    forall s: Worker, m: Move | W(s) && Can(s, m, Anything) ensures W(Do(s, m, Anything)) {
      MoveKeepsFiles(s, m, Sound, Anything, limit);
      MoveKeepsCompletions(s, m);
    }
    ServeKeeps(NewWorker(limit), reqs, fates, W, Anything);
  }

  function Completions(calls: seq<Call>, key: FileKey): nat
    decreases |calls|
  {
    if calls == [] then 0
    else
      var last := calls[|calls| - 1];
      Completions(calls[..|calls| - 1], key) + (if last.FileComplete? && last.key == key then 1 else 0)
  }

  function Revivals(revived: seq<JobId>, job: JobId): nat {
    multiset(revived)[job]
  }

  /** Completions so far, and one more if another is still possible. */
  function CompletionsDue(s: Worker, key: FileKey): nat {
    Completions(s.calls, key) + (if key in s.completed then 0 else 1)
  }

  lemma {:induction false} CompletionsConcat(c: seq<Call>, d: seq<Call>, key: FileKey)
    ensures Completions(c + d, key) == Completions(c, key) + Completions(d, key)
    decreases |d|
  {
    if d == [] {
      assert c + d == c;
    } else {
      assert (c + d)[..|c + d| - 1] == c + d[..|d| - 1];
      CompletionsConcat(c, d[..|d| - 1], key);
    }
  }

  lemma {:induction false} NoCompletions(d: seq<Call>, key: FileKey)
    requires forall i | 0 <= i < |d| :: !d[i].FileComplete?
    ensures Completions(d, key) == 0
    decreases |d|
  {
    if d != [] {
      NoCompletions(d[..|d| - 1], key);
    }
  }

  lemma MoveCompletes(s: Worker, m: Move, A: Demand, key: FileKey)
    requires Can(s, m, A) && !(m.Revive? && m.job == key.jobID)
    ensures CompletionsDue(Do(s, m, A), key) <= CompletionsDue(s, key)
  {
    if m.Finalize? {
      CompletionsConcat(s.calls, [FileComplete(m.key, s.open[m.key].info, FileOf(s, m.key))], key);
    } else {
      var more := MoveSays(s, m, A);
      CompletionsConcat(s.calls, more, key);
      NoCompletions(more, key);
      assert key in s.completed ==> key in Do(s, m, A).completed;
    }
  }

  ghost predicate AtMostDue(s: Worker, key: FileKey, due: nat, revivals: nat) {
    Revivals(s.revived, key.jobID) >= revivals
    && (Revivals(s.revived, key.jobID) == revivals ==> CompletionsDue(s, key) <= due)
  }

  lemma MoveKeepsDue(s: Worker, m: Move, A: Demand, key: FileKey, due: nat, revivals: nat)
    requires Can(s, m, A) && AtMostDue(s, key, due, revivals)
    ensures AtMostDue(Do(s, m, A), key, due, revivals)
  {
    if m.Revive? && m.job == key.jobID {
      assert multiset(s.revived + [m.job]) == multiset(s.revived) + multiset{m.job};
    } else {
      MoveCompletes(s, m, A, key);
      if m.Revive? {
        assert multiset(s.revived + [m.job]) == multiset(s.revived) + multiset{m.job};
      }
    }
  }

  lemma DueIsStable(key: FileKey, due: nat, revivals: nat, W: WorkerProperty)
    requires W == ((s: Worker) => AtMostDue(s, key, due, revivals))
    ensures Stable(W, Anything)
  {
    forall s: Worker, m: Move | W(s) && Can(s, m, Anything) ensures W(Do(s, m, Anything)) {
      MoveKeepsDue(s, m, Anything, key, due, revivals);
    }
  }

  lemma ServeKeepsDue(s: Worker, reqs: seq<Request>, fates: seq<Fate>, key: FileKey, due: nat, revivals: nat)
    requires |fates| == |reqs| && AtMostDue(s, key, due, revivals)
    ensures AtMostDue(Serve(s, reqs, fates), key, due, revivals)
  {
    var W := (s: Worker) => AtMostDue(s, key, due, revivals);
    DueIsStable(key, due, revivals, W);
    assert W(s);
    ServeKeeps(s, reqs, fates, W, Anything);
  }

  /**
   * From any state, through any requests among which the job is not forgotten, a file is reported
   * complete at most once more, and not at all if it already has been.
   */
  lemma CompletesOnce(s: Worker, reqs: seq<Request>, fates: seq<Fate>, key: FileKey)
    requires |fates| == |reqs|
    requires Revivals(Serve(s, reqs, fates).revived, key.jobID) == Revivals(s.revived, key.jobID)
    ensures Completions(Serve(s, reqs, fates).calls, key) <= CompletionsDue(s, key)
  {
    ServeKeepsDue(s, reqs, fates, key, CompletionsDue(s, key), Revivals(s.revived, key.jobID));
  }

  // ----- what the files hold

  lemma SameFlightSameTruth(f: File, freed: multiset<nat>, P: Genuine, lay: Layout)
    requires Truthful(f, [], P, lay)
    ensures Truthful(f.(freed := freed), [], P, lay)
  {
    var g := f.(freed := freed);
    SameRecordKeepsInv(f, g, []);
    assert forall a :: InFlight(g, [], a) <==> InFlight(f, [], a);
  }

  lemma TruthIsKept(limit: int, P: FileKey -> Genuine, lay: FileKey -> Layout, J: FileProperty, A: Demand)
    requires forall k :: Disjoint(lay(k))
    requires J == ((k, i, f) => Truthful(f, [], P(k), lay(k)))
    requires A == ((k, a) => Genuinely(a, P(k), lay(k)))
    ensures Preserved(J, A, limit)
  {
    forall k: FileKey, i: FileInfo, f: File, op: FileOp | J(k, i, f) && Allowed(A, k, op)
      ensures J(k, i, Step(f, limit, i, op))
    {
      StepKeepsTruth(f, limit, i, op, P(k), lay(k));
    }
    forall k: FileKey, i: FileInfo, f: File, freed: multiset<nat> | J(k, i, f) ensures J(k, i, f.(freed := freed)) {
      SameFlightSameTruth(f, freed, P(k), lay(k));
    }
    forall k: FileKey, i: FileInfo, d: Disk ensures J(k, i, NewFile(d)) {
      RunKeepsTruth(d, limit, i, [], P(k), lay(k));
    }
  }

  ghost predicate DeliversGenuine(reqs: seq<Request>, P: FileKey -> Genuine, lay: FileKey -> Layout) {
    forall i | 0 <= i < |reqs| && reqs[i].Article? && !reqs[i].fatal ::
      Genuinely(reqs[i].a, P(reqs[i].key), lay(reqs[i].key))
  }

  /**
   * After any run of the worker, over any number of files and jobs and any faults, a drain of any open
   * file reports only what is in it, and every claim any file ever made held when it was last open; but for
   * files a truncation has cut into a claim of.
   */
  lemma WorkerTellsTheTruth(limit: int, reqs: seq<Request>, fates: seq<Fate>,
                            P: FileKey -> Genuine, lay: FileKey -> Layout)
    requires |fates| == |reqs| && (forall k :: Disjoint(lay(k))) && DeliversGenuine(reqs, P, lay)
    ensures var s := Serve(NewWorker(limit), reqs, fates);
            && (forall k | k in s.open && !s.open[k].w.cut :: HonestReport(Drain(FileOf(s, k)).0.w, P(k), lay(k)))
            && (forall i | 0 <= i < |s.past| && s.past[i].Closed? ::
                  AllBacked(s.past[i].w, P(s.past[i].key), lay(s.past[i].key)))
  {
    var J: FileProperty := (k, i, f) => Truthful(f, [], P(k), lay(k));
    var A: Demand := (k, a) => Genuinely(a, P(k), lay(k));
    var s := Serve(NewWorker(limit), reqs, fates);
    TruthIsKept(limit, P, lay, J, A);
    WorkerKeepsFiles(limit, reqs, fates, J, A);
    forall k | k in s.open && !s.open[k].w.cut ensures HonestReport(Drain(FileOf(s, k)).0.w, P(k), lay(k)) {
      FlushAllOnward(FileOf(s, k));
      assert J(k, s.open[k].info, FileOf(s, k));
      DrainKeepsTruth(FileOf(s, k), P(k), lay(k));
      TruthfulReportIsHonest(Drain(FileOf(s, k)).0, P(k), lay(k));
    }
    forall i | 0 <= i < |s.past| && s.past[i].Closed?
      ensures AllBacked(s.past[i].w, P(s.past[i].key), lay(s.past[i].key))
    {
      assert Had(J, s.past[i]);
    }
  }

  lemma BoundsAreKept(limit: int, J: FileProperty, A: Demand)
    requires J == ((k, i, f) => Inv(f, []) && InBounds(f, i))
    requires A == ((k, a) => Representable(a))
    ensures Preserved(J, A, limit)
  {
    forall k: FileKey, i: FileInfo, f: File, op: FileOp | J(k, i, f) && Allowed(A, k, op)
      ensures J(k, i, Step(f, limit, i, op))
    {
      StepKeepsInv(f, limit, i, op);
      StepKeepsBounds(f, limit, i, op);
    }
    forall k: FileKey, i: FileInfo, f: File, freed: multiset<nat> | J(k, i, f) ensures J(k, i, f.(freed := freed)) {
      SameRecordKeepsInv(f, f.(freed := freed), []);
    }
    forall k: FileKey, i: FileInfo, d: Disk ensures J(k, i, NewFile(d)) {
      RunKeepsInv(d, limit, i, []);
    }
  }

  /** Over every run, every WriteAt of every file, open or since closed, stayed within the file's declared range. */
  lemma WorkerWritesWithinBounds(limit: int, reqs: seq<Request>, fates: seq<Fate>)
    requires |fates| == |reqs|
    requires forall i | 0 <= i < |reqs| && reqs[i].Article? && !reqs[i].fatal :: Representable(reqs[i].a)
    ensures var s := Serve(NewWorker(limit), reqs, fates);
            && (forall k | k in s.open :: LogWithin(s.open[k].w, s.open[k].info))
            && (forall k | k in s.perFile :: 0 <= s.perFile[k].writeCursor <= MAX_INT64)
            && (forall i | 0 <= i < |s.past| && s.past[i].Closed? :: LogWithin(s.past[i].w, s.past[i].info))
  {
    var J: FileProperty := (k, i, f) => Inv(f, []) && InBounds(f, i);
    var A: Demand := (k, a) => Representable(a);
    var s := Serve(NewWorker(limit), reqs, fates);
    BoundsAreKept(limit, J, A);
    WorkerKeepsFiles(limit, reqs, fates, J, A);
    forall k | k in s.open
      ensures LogWithin(s.open[k].w, s.open[k].info) && (k in s.perFile ==> 0 <= s.perFile[k].writeCursor <= MAX_INT64)
    {
      assert J(k, s.open[k].info, FileOf(s, k));
    }
    forall i | 0 <= i < |s.past| && s.past[i].Closed? ensures LogWithin(s.past[i].w, s.past[i].info) {
      assert Had(J, s.past[i]);
    }
  }
}
