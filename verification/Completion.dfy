/** A file whose parts are all accounted for is reported complete, and exactly when it is not. */
module Completion {
  import opened Types
  import opened FileBuffer
  import opened Writing
  import opened WriterInvariant
  import opened WriterRuns
  import opened Settlement
  import opened Loans
  import opened Assembly
  import opened WorkerMoves
  import opened WorkerFiles
  import opened WorkerLedger
  import opened WorkerLife

  // ----- no run is left waiting

  /** Between operations no run long enough to be written is waiting in the cache. */
  ghost predicate Unready(f: File) {
    f.buf.Some? ==> |BytesOf(Contiguous(f.buf.value.articles, f.buf.value.writeCursor))| < CONTIGUOUS_RUN_SIZE
  }

  lemma {:induction false} DropShortens(m: Articles, c: int, off: int)
    requires Keyed(m)
    ensures |BytesOf(Contiguous(m - {off}, c))| <= |BytesOf(Contiguous(m, c))|
    decreases |m|
  {
    if c in m && c != off {
      assert m - {off} - {c} == m - {c} - {off};
      DropShortens(m - {c}, m[c].End(), off);
      assert Contiguous(m, c)[1..] == Contiguous(m - {c}, m[c].End());
      assert Contiguous(m - {off}, c)[1..] == Contiguous(m - {c} - {off}, m[c].End());
    }
  }

  /** A run that was not there before an insertion goes through the article inserted. */
  lemma {:induction false} RunGoesThrough(m: Articles, a: BufferedArticle, c: int)
    requires Keyed(m) && a.offset !in m && a.data.Len() > 0
    ensures var n := m[a.offset := a];
            a.offset in Offsets(Contiguous(n, c)) || Contiguous(n, c) == Contiguous(m, c)
    decreases |m|
  {
    var n := m[a.offset := a];
    if c == a.offset {
      assert Contiguous(n, c)[0] == a;
    } else if c in m {
      assert n - {c} == (m - {c})[a.offset := a];
      RunGoesThrough(m - {c}, a, m[c].End());
      assert Contiguous(n, c)[1..] == Contiguous(n - {c}, m[c].End());
    }
  }

  lemma FlushContiguousUnready(f: File)
    requires CacheAccounted(f)
    ensures Unready(FlushContiguous(f).0)
  {
    if f.buf.Some? {
      ContiguousIsMaximal(f.buf.value.articles, f.buf.value.writeCursor);
    }
  }

  lemma ClaimUnready(f: File, off: int, id: int)
    requires CacheAccounted(f) && Unready(f)
    ensures Unready(Claim(f, off, id))
  {
    if f.buf.Some? {
      DropShortens(f.buf.value.articles, f.buf.value.writeCursor, off);
    }
  }

  /** A claimed offset and the arriving article in the cache. */
  ghost function Buffered(f: File, a: BufferedArticle): File {
    var g := Claim(f, a.offset, a.id);
    g.(buf := Some(PutArticle(g.Buffer(), a)), freed := g.freed + LoanAt(g.Articles(), a.offset))
  }

  lemma BufferedIsSound(f: File, a: BufferedArticle)
    requires InvBut(f, a.id) && !OffsetSettledBy(f.w, a.offset, a.id) && a.data.Len() > 0
    ensures Inv(Buffered(f, a), [])
  {
    ClaimKeepsInvBut(f, a.offset, a.id);
    HoldArrival(Claim(f, a.offset, a.id), a);
    BufferKeepsInv(Claim(f, a.offset, a.id), Buffered(f, a), a);
  }

  lemma AcceptUnready(f: File, limit: int, a: BufferedArticle)
    requires InvBut(f, a.id) && !OffsetSettledBy(f.w, a.offset, a.id) && Unready(f)
    ensures Unready(Accept(f, limit, a).0)
  {
    ClaimUnready(f, a.offset, a.id);
    if limit > 0 && a.data.Len() > 0 {
      BufferedIsSound(f, a);
      FlushContiguousUnready(Buffered(f, a));
    }
  }

  lemma FlushAllUnready(f: File)
    ensures f.buf.Some? ==> Unready(FlushAll(f).0)
  {
    if f.buf.Some? {
      FlushAllEmpties(f);
    }
  }

  lemma StepUnready(f: File, limit: int, info: FileInfo, op: FileOp)
    requires Inv(f, []) && Unready(f)
    ensures Unready(Step(f, limit, info, op))
  {
    match op
    case Arrive(a) =>
      if a.id !in f.w.seenDone {
        var w := if a.id in f.w.seenFailed then AdmitRetryOfFailed(f.w, a.id) else AdmitAccepted(f.w, a.id);
        AdmitKeepsInvBut(f, w, a.id);
        if !OffsetOutOfRange(info, a.offset, a.data.Len()) && !OffsetSettledBy(w, a.offset, a.id) {
          AcceptUnready(f.(w := w), limit, a);
        }
      }
    case PressureFlush => FlushAllUnready(f);
    case DrainFile => FlushAllUnready(f);
    case _ =>
  }

  // ----- which parts an arrival counts

  ghost function Counted(w: Writer): set<int> {
    w.seenDone + w.seenFailed
  }

  /** The article an arrival would push out of its offset. */
  ghost function Loser(f: File, info: FileInfo, a: BufferedArticle): set<int> {
    if Displaces(f, info, a) then {f.w.acceptedAt[a.offset].id} else {}
  }

  lemma {:induction false} NoteAllKeepsCounted(w: Writer, parts: seq<RunPart>)
    ensures NoteAll(w, parts).seenDone == w.seenDone && NoteAll(w, parts).seenFailed == w.seenFailed
    decreases |parts|
  {
    if parts != [] {
      NoteAllKeepsCounted(NoteWritten(w, parts[0]), parts[1..]);
    }
  }

  lemma {:induction false} FailAllTakesBack(w: Writer, arts: seq<BufferedArticle>)
    ensures FailAll(w, PartsOf(arts)).seenFailed == w.seenFailed
    ensures FailAll(w, PartsOf(arts)).seenDone == w.seenDone - IdsOf(arts)
    decreases |arts|
  {
    if arts != [] {
      PartsTail(arts);
      FailAllTakesBack(Fail(w, arts[0].id), arts[1..]);
    }
  }

  ghost function RunOf(f: File): seq<BufferedArticle> {
    if f.buf.Some? then Contiguous(f.buf.value.articles, f.buf.value.writeCursor) else []
  }

  /** What the next write to a file comes to is part of the state the write is made in. */
  predicate NextWriteFails(w: Writer) {
    w.handle.env(|w.handle.log|).Failed?
  }

  lemma FlushContiguousCounts(f: File)
    ensures var (g, ok) := FlushContiguous(f);
            && (ok <==> !(|BytesOf(RunOf(f))| >= CONTIGUOUS_RUN_SIZE && NextWriteFails(f.w)))
            && g.w.seenFailed == f.w.seenFailed
            && g.w.seenDone == f.w.seenDone - if ok then {} else IdsOf(RunOf(f))
  {
    if f.buf.Some? && BuildRun(f.buf.value, CONTIGUOUS_RUN_SIZE).0.Some? {
      var run := BuildRun(f.buf.value, CONTIGUOUS_RUN_SIZE).0.value;
      var w := f.w.(handle := WriteAt(f.w.handle, run.data, run.offset).0);
      NoteAllKeepsCounted(w, run.parts);
      FailAllTakesBack(w, RunOf(f));
    } else if f.buf.Some? && f.buf.value.articles == map[] {
      assert RunOf(f) == [];
    }
  }

  /** A run that is ready once an article has been buffered carries that article. */
  lemma RunHoldsArrival(f: File, a: BufferedArticle)
    requires InvBut(f, a.id) && !OffsetSettledBy(f.w, a.offset, a.id) && Unready(f) && a.data.Len() > 0
    requires |BytesOf(RunOf(Buffered(f, a)))| >= CONTIGUOUS_RUN_SIZE
    ensures a.id in IdsOf(RunOf(Buffered(f, a)))
  {
    var g, h := Claim(f, a.offset, a.id), Buffered(f, a);
    ClaimUnready(f, a.offset, a.id);
    ClaimKeepsInvBut(f, a.offset, a.id);
    BufferedIsSound(f, a);
    RunGoesThrough(g.Articles(), a, g.Buffer().writeCursor);
    RunTaken(h.buf.value, CONTIGUOUS_RUN_SIZE);
    assert g.buf.None? ==> Contiguous(g.Articles(), g.Buffer().writeCursor) == [];
    assert a.offset in Offsets(RunOf(h));
    var i := FindOffset(RunOf(h), a.offset);
    assert h.Articles()[a.offset] == a;
    IdAt(RunOf(h), i);
  }

  /** Whether placing an arrival makes a write at once: without the cache, or by completing a run. */
  ghost predicate MakesWrite(f: File, limit: int, a: BufferedArticle) {
    limit > 0 && a.data.Len() > 0 ==> |BytesOf(RunOf(Buffered(f, a)))| >= CONTIGUOUS_RUN_SIZE
  }

  /** The articles that write carries. */
  ghost function Carried(f: File, limit: int, a: BufferedArticle): set<int> {
    if limit > 0 && a.data.Len() > 0 then IdsOf(RunOf(Buffered(f, a))) else {a.id}
  }

  /** The owner an arrival at this offset finds there and may take it from. */
  ghost function Incumbent(w: Writer, off: int, id: int): set<int> {
    if off in w.acceptedAt && w.acceptedAt[off].id != id && !w.acceptedAt[off].written then {w.acceptedAt[off].id} else {}
  }

  /** What accepting leaves of the record. */
  ghost predicate AcceptedAs(w: Writer, ok: bool, v: Writer, displaced: set<int>, carried: set<int>, id: int) {
    && v.seenFailed == w.seenFailed + displaced
    && v.seenDone == w.seenDone - (if ok then {} else carried)
    && (!ok ==> id in carried)
  }

  lemma ClaimCounts(f: File, a: BufferedArticle)
    requires InvBut(f, a.id) && !OffsetSettledBy(f.w, a.offset, a.id)
    ensures var w := Claim(f, a.offset, a.id).w;
            && w.seenFailed == f.w.seenFailed + Incumbent(f.w, a.offset, a.id)
            && w.seenDone == f.w.seenDone && w.handle == f.w.handle
  {
    if a.offset in f.w.acceptedAt && f.w.acceptedAt[a.offset].id == a.id {
      OwnOffsetIsFree(f, a.offset, a.id);
    }
  }

  lemma WriteCounts(f: File, a: BufferedArticle)
    ensures var (g, ok) := WriteOne(f, a);
            && (ok <==> !NextWriteFails(f.w))
            && g.w.seenFailed == f.w.seenFailed && g.w.seenDone == f.w.seenDone - (if ok then {} else {a.id})
  {
  }

  /** Accepting fails exactly when it makes a write that fails; it then takes back what the write carried. */
  lemma AcceptCounts(f: File, limit: int, a: BufferedArticle)
    requires InvBut(f, a.id) && !OffsetSettledBy(f.w, a.offset, a.id) && Unready(f)
    ensures Accept(f, limit, a).1 <==> !(MakesWrite(f, limit, a) && NextWriteFails(f.w))
    ensures var (g, ok) := Accept(f, limit, a);
            AcceptedAs(f.w, ok, g.w, Incumbent(f.w, a.offset, a.id), Carried(f, limit, a), a.id)
  {
    ClaimCounts(f, a);
    if limit > 0 && a.data.Len() > 0 {
      FlushContiguousCounts(Buffered(f, a));
      if MakesWrite(f, limit, a) {
        RunHoldsArrival(f, a);
      }
    } else {
      WriteCounts(Claim(f, a.offset, a.id), a);
    }
  }

  /** Only an arrival newly taken on has its file looked at. */
  predicate LookedAt(arrival: Arrival) {
    arrival.Admitted? && !arrival.result.WriteFault?
  }

  /** The arrival is no duplicate, in range, and its offset not settled: it will be placed. */
  ghost predicate IsPlaced(f: File, info: FileInfo, a: BufferedArticle) {
    a.id !in f.w.seenDone && !OffsetOutOfRange(info, a.offset, a.data.Len()) && !OffsetSettledBy(f.w, a.offset, a.id)
  }

  /** The arrival is placed by a write, which fails. */
  ghost predicate FailsToPlace(f: File, limit: int, info: FileInfo, a: BufferedArticle) {
    IsPlaced(f, info, a) && MakesWrite(f, limit, a) && NextWriteFails(f.w)
  }

  /** The parts that failing write costs the file: what it carried that nothing else counts. */
  ghost function TakenBack(f: File, limit: int, info: FileInfo, a: BufferedArticle): set<int> {
    if FailsToPlace(f, limit, info, a) then f.w.seenDone * Carried(f, limit, a) - f.w.seenFailed - Loser(f, info, a)
    else {}
  }

  lemma AdmissionBuffersAlike(f: File, w: Writer, a: BufferedArticle)
    requires w.acceptedAt == f.w.acceptedAt
    ensures Buffered(f.(w := w), a).buf == Buffered(f, a).buf
  {
    assert Claim(f.(w := w), a.offset, a.id).buf == Claim(f, a.offset, a.id).buf;
  }

  /** Admitting an article changes nothing that placing it depends on. */
  lemma AdmissionPlacesAlike(f: File, w: Writer, limit: int, a: BufferedArticle)
    requires w.acceptedAt == f.w.acceptedAt
    ensures MakesWrite(f.(w := w), limit, a) == MakesWrite(f, limit, a)
    ensures Carried(f.(w := w), limit, a) == Carried(f, limit, a)
  {
    AdmissionBuffersAlike(f, w, a);
    assert RunOf(Buffered(f.(w := w), a)) == RunOf(Buffered(f, a));
  }

  /** The count after accepting, from the count before the arrival was admitted. */
  lemma CountedOnPlacing(done: set<int>, failed: set<int>, id: int, back: set<int>, displaced: set<int>)
    requires id in failed || id in back
    ensures (done + {id} - back) + (failed + displaced) == (done + failed) - (done * back - failed - displaced) + displaced
  {
  }

  lemma PlacedCounts(f: File, w: Writer, ok: bool, v: Writer, limit: int, info: FileInfo, a: BufferedArticle)
    requires IsPlaced(f, info, a) && (ok <==> !FailsToPlace(f, limit, info, a))
    requires w.seenDone == f.w.seenDone + {a.id} && w.seenFailed == f.w.seenFailed
    requires AcceptedAs(w, ok, v, Loser(f, info, a), Carried(f, limit, a), a.id)
    requires a.id in f.w.seenFailed || !ok
    ensures Counted(v) == Counted(f.w) - TakenBack(f, limit, info, a) + Loser(f, info, a)
  {
    var back := if ok then {} else Carried(f, limit, a);
    CountedOnPlacing(f.w.seenDone, f.w.seenFailed, a.id, back, Loser(f, info, a));
    assert TakenBack(f, limit, info, a) == f.w.seenDone * back - f.w.seenFailed - Loser(f, info, a);
  }

  lemma PlacingCounts(f: File, w: Writer, limit: int, info: FileInfo, a: BufferedArticle)
    requires InvBut(f.(w := w), a.id) && Unready(f) && IsPlaced(f, info, a)
    requires w.acceptedAt == f.w.acceptedAt && w.handle == f.w.handle
    ensures var (g, ok) := Accept(f.(w := w), limit, a);
            && (ok <==> !FailsToPlace(f, limit, info, a))
            && AcceptedAs(w, ok, g.w, Loser(f, info, a), Carried(f, limit, a), a.id)
  {
    AdmissionPlacesAlike(f, w, limit, a);
    AcceptCounts(f.(w := w), limit, a);
    assert Incumbent(w, a.offset, a.id) == Loser(f, info, a);
  }

  /**
   * An arrival after which nobody looks counts the article it displaced, takes back what a failing write
   * carried, and changes the count no other way.
   */
  lemma UnseenArrivalCounts(f: File, limit: int, info: FileInfo, a: BufferedArticle)
    requires Inv(f, []) && Unready(f) && !LookedAt(HandleSuccess(f, limit, info, a).1)
    ensures Counted(HandleSuccess(f, limit, info, a).0.w)
         == Counted(f.w) - TakenBack(f, limit, info, a) + Loser(f, info, a)
  {
    if IsPlaced(f, info, a) {
      PlacedArrivalCounts(f, limit, info, a);
    } else {
      UnplacedArrivalCounts(f, limit, info, a);
    }
  }

  lemma UnplacedArrivalCounts(f: File, limit: int, info: FileInfo, a: BufferedArticle)
    requires !IsPlaced(f, info, a) && !LookedAt(HandleSuccess(f, limit, info, a).1)
    ensures Counted(HandleSuccess(f, limit, info, a).0.w) == Counted(f.w)
    ensures Loser(f, info, a) == {} && TakenBack(f, limit, info, a) == {}
  {
  }

  lemma PlacedArrivalCounts(f: File, limit: int, info: FileInfo, a: BufferedArticle)
    requires Inv(f, []) && Unready(f) && IsPlaced(f, info, a) && !LookedAt(HandleSuccess(f, limit, info, a).1)
    ensures Counted(HandleSuccess(f, limit, info, a).0.w)
         == Counted(f.w) - TakenBack(f, limit, info, a) + Loser(f, info, a)
  {
    var w := if a.id in f.w.seenFailed then AdmitRetryOfFailed(f.w, a.id) else AdmitAccepted(f.w, a.id);
    AdmitKeepsInvBut(f, w, a.id);
    PlacingCounts(f, w, limit, info, a);
    var (g, ok) := Accept(f.(w := w), limit, a);
    assert AcceptArticle(f.(w := w), limit, info, a) == (g, if ok then Accepted else WriteFault);
    PlacedCounts(f, w, ok, g.w, limit, info, a);
  }

  /** A new arrival is looked at unless the write that places it fails; a retry or a duplicate never is. */
  lemma LookedAtExactly(f: File, limit: int, info: FileInfo, a: BufferedArticle)
    requires Inv(f, []) && Unready(f)
    ensures LookedAt(HandleSuccess(f, limit, info, a).1) <==>
              a.id !in f.w.seenDone + f.w.seenFailed && !FailsToPlace(f, limit, info, a)
  {
    if a.id !in f.w.seenDone + f.w.seenFailed {
      var w := AdmitAccepted(f.w, a.id);
      AdmitKeepsInvBut(f, w, a.id);
      AdmissionPlacesAlike(f, w, limit, a);
      if IsPlaced(f, info, a) {
        AcceptCounts(f.(w := w), limit, a);
      }
    }
  }

  // ----- the worker

  ghost const Calm: FileProperty := (k, i, f) => Inv(f, []) && Unready(f)

  lemma CalmIsKept(limit: int)
    ensures Preserved(Calm, Anything, limit)
  {
    forall k: FileKey, i: FileInfo, f: File, op: FileOp | Calm(k, i, f) && Allowed(Anything, k, op)
      ensures Calm(k, i, Step(f, limit, i, op))
    {
      StepKeepsInv(f, limit, i, op);
      StepUnready(f, limit, i, op);
    }
    forall k: FileKey, i: FileInfo, f: File, freed: multiset<nat> | Calm(k, i, f) ensures Calm(k, i, f.(freed := freed)) {
      SameRecordKeepsInv(f, f.(freed := freed), []);
    }
    forall k: FileKey, i: FileInfo, d: Disk ensures Calm(k, i, NewFile(d)) {
      RunKeepsInv(d, limit, i, []);
    }
  }

  ghost predicate Reported(calls: seq<Call>, key: FileKey) {
    exists i :: 0 <= i < |calls| && calls[i].FileComplete? && calls[i].key == key
  }

  /** If the file's parts are all accounted for, it has been finished with. */
  ghost predicate Noticed(s: Worker, k: FileKey) {
    k in s.open && IsComplete(s.open[k]) ==> k in s.completed
  }

  ghost predicate AllNoticed(s: Worker) {
    forall k :: Noticed(s, k)
  }

  /** An open file finished with has been reported complete. */
  ghost predicate Announced(s: Worker, k: FileKey) {
    k in s.open && k in s.completed ==> Reported(s.calls, k)
  }

  lemma {:induction false} AbandonCountsNone(f: File, rest: seq<BufferedArticle>)
    ensures Abandon(f, rest).w.partsWritten <= f.w.partsWritten
    decreases |rest|
  {
    if rest != [] {
      AbandonCountsNone(f.(w := Fail(f.w, rest[0].id), freed := f.freed + rest[0].data.Loan()), rest[1..]);
    }
  }

  lemma {:induction false} WritingCountsNone(f: File, arts: seq<BufferedArticle>)
    ensures WriteInOrder(f, arts).0.w.partsWritten <= f.w.partsWritten
    decreases |arts|
  {
    if arts != [] {
      var (g, ok) := WriteOne(f, arts[0]);
      if ok {
        WritingCountsNone(g, arts[1..]);
      } else {
        AbandonCountsNone(g, arts[1..]);
      }
    }
  }

  /** Only an arrival can raise a file's part count. */
  lemma OnlyArrivalsCount(f: File, limit: int, info: FileInfo, op: FileOp)
    requires !op.Arrive? && !op.ArriveFailed?
    ensures Step(f, limit, info, op).w.partsWritten <= f.w.partsWritten
  {
    if f.buf.Some? {
      WritingCountsNone(f.(buf := Some(Drained(f.buf.value))), Sorted(f.Articles()));
    }
  }

  /** Nothing but an arrival at the file, or the forgetting of its job, makes a file go unnoticed. */
  lemma MoveKeepsNoticed(s: Worker, m: Move, k: FileKey)
    requires Noticed(s, k) && Can(s, m, Anything)
    requires !(m.Deliver? && m.key == k) && !(m.DeliverFailed? && m.key == k) && !(m.Revive? && m.job == k.jobID)
    ensures Noticed(Do(s, m, Anything), k)
  {
    if m.Act? && m.key == k {
      OnlyArrivalsCount(FileOf(s, k), s.limit, s.open[k].info, m.op);
    }
  }

  lemma StillReported(calls: seq<Call>, more: seq<Call>, k: FileKey)
    requires Reported(calls, k)
    ensures Reported(calls + more, k)
  {
    var i :| 0 <= i < |calls| && calls[i].FileComplete? && calls[i].key == k;
    assert (calls + more)[i] == calls[i];
  }

  lemma MoveKeepsAnnounced(s: Worker, m: Move, k: FileKey)
    requires Announced(s, k) && Can(s, m, Anything)
    ensures Announced(Do(s, m, Anything), k)
  {
    var t := Do(s, m, Anything);
    if m.Finalize? {
      assert t.calls[|s.calls|].FileComplete?;
      if Reported(s.calls, k) {
        StillReported(s.calls, t.calls[|s.calls|..], k);
      }
    } else {
      var more := MoveSays(s, m, Anything);
      if Reported(s.calls, k) {
        StillReported(s.calls, more, k);
      }
    }
  }

  lemma FinishedMeansReported(limit: int, reqs: seq<Request>, fates: seq<Fate>, k: FileKey)
    requires |fates| == |reqs|
    ensures Announced(Serve(NewWorker(limit), reqs, fates), k)
  {
    var W := (s: Worker) => Announced(s, k);
    forall s: Worker, m: Move | W(s) && Can(s, m, Anything) ensures W(Do(s, m, Anything)) {
      MoveKeepsAnnounced(s, m, k);
    }
    ServeKeeps(NewWorker(limit), reqs, fates, W, Anything);
  }

  // ----- requests

  lemma NoticedIsSteady(k: FileKey, W: WorkerProperty)
    requires W == ((s: Worker) => Noticed(s, k))
    ensures Steady(W, Anything)
  {
    forall s: Worker, m: Move | W(s) && Free(s, m, Anything) ensures W(Do(s, m, Anything)) {
      MoveKeepsNoticed(s, m, k);
    }
  }

  lemma ControlKeepsNoticed(s: Worker, req: Request, fate: Fate, k: FileKey)
    requires Noticed(s, k) && !req.Article? && !req.ForgetJob?
    ensures Noticed(Dispatch(s, req, fate), k)
  {
    var W := (s: Worker) => Noticed(s, k);
    NoticedIsSteady(k, W);
    ControlKeeps(s, req, fate, W, Anything);
  }

  lemma OtherFileStaysNoticed(s: Worker, key: FileKey, a: BufferedArticle, fatal: bool, victims: seq<FileKey>, k: FileKey)
    requires Noticed(s, k) && key in s.open && key !in s.completed && k != key
    ensures Noticed(AtOpenFile(s, key, a, fatal, victims), k)
  {
    var W := (s: Worker) => Noticed(s, k);
    NoticedIsSteady(k, W);
    MoveKeepsNoticed(s, if fatal then DeliverFailed(key, a) else Deliver(key, a), k);
    AtOpenFileKeeps(s, key, a, fatal, victims, W, Anything);
  }

  ghost predicate FileIsCalm(s: Worker, key: FileKey) {
    key in s.open && Calm(key, s.open[key].info, FileOf(s, key))
  }

  /** An arrival looked at is noticed whatever it and the pressure it caused counted or took back. */
  lemma LookedAtIsNoticed(s: Worker, key: FileKey, a: BufferedArticle, fatal: bool, victims: seq<FileKey>)
    requires key in s.open && TakeOn(s, key, a, fatal).1
    requires IsComplete(AtOpenFile(s, key, a, fatal, victims).open[key])
    ensures key in AtOpenFile(s, key, a, fatal, victims).completed
  {
  }

  /** The same files are finished with, and this one counts the same parts. */
  ghost predicate SameCount(s: Worker, t: Worker, key: FileKey) {
    && key in s.open && key in t.open && t.completed == s.completed
    && t.open[key].info == s.open[key].info && t.open[key].w.partsWritten == s.open[key].w.partsWritten
  }

  lemma ReleaseCountsNone(s: Worker, key: FileKey)
    requires key in s.open
    ensures SameCount(s, ReleaseFaulted(s, key), key)
  {
  }

  lemma RouteCountsNone(s: Worker, key: FileKey, id: int, r: AcceptResult)
    requires key in s.open
    ensures SameCount(s, RouteAccept(s, key, id, r), key)
  {
  }

  lemma TakeOnCounts(s: Worker, key: FileKey, a: BufferedArticle, fatal: bool)
    requires key in s.open
    ensures SameCount(Taken(s, key, a, fatal), TakeOn(s, key, a, fatal).0, key)
  {
    if !fatal {
      var (t, arrival) := DeliverAt(s, key, a);
      if !arrival.Duplicate? {
        RouteCountsNone(t, key, a.id, arrival.result);
      }
    }
  }

  /** How many parts a file counts after an arrival nobody looked at. */
  lemma UnseenCount(s: Worker, key: FileKey, a: BufferedArticle, fatal: bool, victims: seq<FileKey>)
    requires key in s.open && !TakeOn(s, key, a, fatal).1
    ensures SameCount(Taken(s, key, a, fatal), AtOpenFile(s, key, a, fatal, victims), key)
    ensures AtOpenFile(s, key, a, fatal, victims).completed == s.completed
    ensures AtOpenFile(s, key, a, fatal, victims).open[key].info == s.open[key].info
  {
    TakeOnCounts(s, key, a, fatal);
    ReleaseCountsNone(TakeOn(s, key, a, fatal).0, key);
  }

  /** The article a request would displace, if it was not counted before. */
  ghost function Uncounted(s: Worker, key: FileKey, a: BufferedArticle): set<int>
    requires key in s.open
  {
    Loser(FileOf(s, key), s.open[key].info, a) - Counted(s.open[key].w)
  }

  /** The parts lost if placing the request's article comes to a failing write. */
  ghost function Lost(s: Worker, key: FileKey, a: BufferedArticle): set<int>
    requires key in s.open
  {
    TakenBack(FileOf(s, key), s.limit, s.open[key].info, a)
  }

  lemma CountChanges(S: set<int>, less: set<int>, more: set<int>)
    requires less <= S && less !! more
    ensures |S - less + more| == |S| - |less| + |more - S|
  {
    assert S - less + more == (S - less) + (more - S);
    assert S == (S - less) + less;
  }

  lemma UnseenParts(s: Worker, key: FileKey, a: BufferedArticle)
    requires FileIsCalm(s, key) && !LookedAt(DeliverAt(s, key, a).1)
    ensures DeliverAt(s, key, a).0.open[key].w.partsWritten
         == s.open[key].w.partsWritten - |Lost(s, key, a)| + |Uncounted(s, key, a)|
  {
    var f, info := FileOf(s, key), s.open[key].info;
    HandleSuccessKeepsInv(f, s.limit, info, a);
    UnseenArrivalCounts(f, s.limit, info, a);
    CountChanges(Counted(f.w), Lost(s, key, a), Loser(f, info, a));
  }

  // ----- when a completion goes unnoticed

  /**
   * A request that leaves a complete file unreported: an article nobody looks after, because it is a retry
   * or its write fails, that displaces the file's last uncounted part and costs it none; or the forgetting
   * of a job while a complete file of it is open.
   */
  ghost predicate Overlooks(s: Worker, req: Request) {
    match req
    case Article(key, a, fatal) =>
      && !fatal && key.jobID !in s.cancelled && key !in s.completed && key in s.open
      && Uncounted(s, key, a) != {} && Lost(s, key, a) == {}
      && s.open[key].w.partsWritten + 1 == s.open[key].info.totalParts
      && (a.id in s.open[key].w.seenFailed || FailsToPlace(FileOf(s, key), s.limit, s.open[key].info, a))
    case ForgetJob(job) => exists k | k in s.open && k.jobID == job :: IsComplete(s.open[k])
    case _ => false
  }

  ghost predicate Watched(s: Worker) {
    AllFiles(s, Calm, s.limit) && AllNoticed(s)
  }

  lemma OneUncounted(s: Worker, key: FileKey, a: BufferedArticle)
    requires key in s.open
    ensures |Uncounted(s, key, a)| == if Uncounted(s, key, a) == {} then 0 else 1
  {
    var loser := Loser(FileOf(s, key), s.open[key].info, a);
    assert Uncounted(s, key, a) == {} || Uncounted(s, key, a) == loser;
  }

  lemma UnseenArrivalExactly(s: Worker, key: FileKey, a: BufferedArticle, victims: seq<FileKey>)
    requires FileIsCalm(s, key) && Noticed(s, key) && key !in s.completed && key.jobID !in s.cancelled
    requires !LookedAt(DeliverAt(s, key, a).1)
    ensures Noticed(AtOpenFile(s, key, a, false, victims), key) <==> !Overlooks(s, Article(key, a, false))
  {
    assert !TakeOn(s, key, a, false).1;
    UnseenCount(s, key, a, false, victims);
    UnseenParts(s, key, a);
    OneUncounted(s, key, a);
    LookedAtExactly(FileOf(s, key), s.limit, s.open[key].info, a);
  }

  lemma ArrivalExactly(s: Worker, key: FileKey, a: BufferedArticle, fatal: bool, victims: seq<FileKey>)
    requires FileIsCalm(s, key) && Noticed(s, key) && key !in s.completed && key.jobID !in s.cancelled
    ensures Noticed(AtOpenFile(s, key, a, fatal, victims), key) <==> !Overlooks(s, Article(key, a, fatal))
  {
    if TakeOn(s, key, a, fatal).1 {
      if IsComplete(AtOpenFile(s, key, a, fatal, victims).open[key]) {
        LookedAtIsNoticed(s, key, a, fatal, victims);
      }
      LookedAtExactly(FileOf(s, key), s.limit, s.open[key].info, a);
    } else if fatal {
      UnseenCount(s, key, a, fatal, victims);
    } else {
      UnseenArrivalExactly(s, key, a, victims);
    }
  }

  lemma NewFileIsCalm(s: Worker, key: FileKey, info: FileInfo, handle: Disk)
    requires key !in s.open && key !in s.perFile
    ensures var t := OpenTarget(s, key, info, handle);
            FileIsCalm(t, key) && Noticed(t, key) && forall a :: Uncounted(t, key, a) == {}
  {
  }

  /** At its own file an article is exact; everyone else's stays as it was. */
  lemma FileExactly(s: Worker, key: FileKey, a: BufferedArticle, fatal: bool, victims: seq<FileKey>)
    requires FileIsCalm(s, key) && AllNoticed(s) && key !in s.completed && key.jobID !in s.cancelled
    ensures AllNoticed(AtOpenFile(s, key, a, fatal, victims)) <==> !Overlooks(s, Article(key, a, fatal))
  {
    assert Noticed(s, key);
    ArrivalExactly(s, key, a, fatal, victims);
    forall k | k != key ensures Noticed(AtOpenFile(s, key, a, fatal, victims), k) {
      assert Noticed(s, k);
      OtherFileStaysNoticed(s, key, a, fatal, victims, k);
    }
  }

  lemma OpeningNotices(s: Worker, key: FileKey, a: BufferedArticle, fatal: bool, info: FileInfo, handle: Disk,
                       victims: seq<FileKey>)
    requires Watched(s) && key !in s.open && key !in s.completed && key.jobID !in s.cancelled
    ensures AllNoticed(AtOpenFile(OpenTarget(s, key, info, handle), key, a, fatal, victims))
  {
    var t := OpenTarget(s, key, info, handle);
    NewFileIsCalm(s, key, info, handle);
    forall k ensures Noticed(t, k) {
      assert Noticed(s, k);
    }
    FileExactly(t, key, a, fatal, victims);
  }

  /** An article that reaches no open file counts nothing. */
  lemma IdleArticle(s: Worker, key: FileKey, a: BufferedArticle, fatal: bool, fate: Fate, k: FileKey)
    requires key.jobID in s.cancelled || key in s.completed || (key !in s.open && fate.opening.OpenFailed?)
    requires Noticed(s, k)
    ensures Noticed(Dispatch(s, Article(key, a, fatal), fate), k)
  {
    var t := Dispatch(s, Article(key, a, fatal), fate);
    assert t.open == s.open && t.completed == s.completed;
  }

  lemma OpenArticleExactly(s: Worker, key: FileKey, a: BufferedArticle, fatal: bool, fate: Fate)
    requires Watched(s) && key in s.open && key !in s.completed && key.jobID !in s.cancelled
    ensures AllNoticed(Dispatch(s, Article(key, a, fatal), fate)) <==> !Overlooks(s, Article(key, a, fatal))
  {
    assert Calm(key, s.open[key].info, FileOf(s, key));
    assert Dispatch(s, Article(key, a, fatal), fate) == AtOpenFile(s, key, a, fatal, fate.victims);
    FileExactly(s, key, a, fatal, fate.victims);
  }

  lemma ArticleExactly(s: Worker, key: FileKey, a: BufferedArticle, fatal: bool, fate: Fate)
    requires Watched(s)
    ensures AllNoticed(Dispatch(s, Article(key, a, fatal), fate)) <==> !Overlooks(s, Article(key, a, fatal))
  {
    if key.jobID in s.cancelled || key in s.completed || (key !in s.open && fate.opening.OpenFailed?) {
      forall k ensures Noticed(Dispatch(s, Article(key, a, fatal), fate), k) {
        assert Noticed(s, k);
        IdleArticle(s, key, a, fatal, fate, k);
      }
    } else if key in s.open {
      OpenArticleExactly(s, key, a, fatal, fate);
    } else {
      OpeningNotices(s, key, a, fatal, fate.opening.info, fate.opening.handle, fate.victims);
    }
  }

  lemma ForgettingExactly(s: Worker, job: JobId, fate: Fate)
    requires AllNoticed(s)
    ensures AllNoticed(Dispatch(s, ForgetJob(job), fate)) <==> !Overlooks(s, ForgetJob(job))
  {
    var t := Dispatch(s, ForgetJob(job), fate);
    forall k ensures Noticed(t, k) <==> !(k in s.open && k.jobID == job && IsComplete(s.open[k])) {
      assert Noticed(s, k);
    }
  }

  /**
   * Whatever the write faults: a request leaves a complete file unreported exactly when it overlooks one,
   * which can be told from the state it is served in.
   */
  lemma NoticedExactly(s: Worker, req: Request, fate: Fate)
    requires Watched(s)
    ensures AllNoticed(Dispatch(s, req, fate)) <==> !Overlooks(s, req)
  {
    if req.Article? {
      ArticleExactly(s, req.key, req.a, req.fatal, fate);
    } else if req.ForgetJob? {
      ForgettingExactly(s, req.job, fate);
    } else {
      forall k ensures Noticed(Dispatch(s, req, fate), k) {
        assert Noticed(s, k);
        ControlKeepsNoticed(s, req, fate, k);
      }
    }
  }

  // ----- over every run

  ghost predicate NothingOverlooked(s: Worker, reqs: seq<Request>, fates: seq<Fate>)
    requires |fates| == |reqs|
    decreases |reqs|
  {
    reqs == [] ||
    var n := |reqs| - 1;
    NothingOverlooked(s, reqs[..n], fates[..n]) && !Overlooks(Serve(s, reqs[..n], fates[..n]), reqs[n])
  }

  /** After every request of the run, every open file with all its parts accounted for had been finished with. */
  ghost predicate AlwaysNoticed(s: Worker, reqs: seq<Request>, fates: seq<Fate>)
    requires |fates| == |reqs|
    decreases |reqs|
  {
    && AllNoticed(Serve(s, reqs, fates))
    && (reqs == [] || AlwaysNoticed(s, reqs[..|reqs| - 1], fates[..|reqs| - 1]))
  }

  /** Over every run, whatever faults: no completion ever goes unnoticed if and only if no request overlooks one. */
  lemma {:induction false} RunNoticesExactly(limit: int, reqs: seq<Request>, fates: seq<Fate>)
    requires |fates| == |reqs|
    ensures AlwaysNoticed(NewWorker(limit), reqs, fates) <==> NothingOverlooked(NewWorker(limit), reqs, fates)
    decreases |reqs|
  {
    if reqs != [] {
      var n := |reqs| - 1;
      var s := Serve(NewWorker(limit), reqs[..n], fates[..n]);
      RunNoticesExactly(limit, reqs[..n], fates[..n]);
      CalmIsKept(limit);
      WorkerKeepsFiles(limit, reqs[..n], fates[..n], Calm, Anything);
      if AlwaysNoticed(NewWorker(limit), reqs[..n], fates[..n]) {
        AlwaysMeansNow(NewWorker(limit), reqs[..n], fates[..n]);
        NoticedExactly(s, reqs[n], fates[n]);
      }
    }
  }

  lemma AlwaysMeansNow(s: Worker, reqs: seq<Request>, fates: seq<Fate>)
    requires |fates| == |reqs| && AlwaysNoticed(s, reqs, fates)
    ensures AllNoticed(Serve(s, reqs, fates))
  {
  }

  /**
   * Over every run whose requests overlook nothing: a file open with as many of its articles accepted or failed for
   * good as it has parts has been reported complete.
   */
  lemma EveryCompletionIsReported(limit: int, reqs: seq<Request>, fates: seq<Fate>, k: FileKey)
    requires |fates| == |reqs| && NothingOverlooked(NewWorker(limit), reqs, fates)
    ensures var s := Serve(NewWorker(limit), reqs, fates);
            k in s.open && 0 < s.open[k].info.totalParts <= |s.open[k].w.seenDone + s.open[k].w.seenFailed| ==>
              Reported(s.calls, k)
  {
    RunNoticesExactly(limit, reqs, fates);
    AlwaysMeansNow(NewWorker(limit), reqs, fates);
    FinishedMeansReported(limit, reqs, fates, k);
    assert Noticed(Serve(NewWorker(limit), reqs, fates), k);
    if k in Serve(NewWorker(limit), reqs, fates).open {
      PartCountIsExact(limit, reqs, fates, k);
    }
  }

  /** In every run, between two requests, no file has a run of 512 KiB of articles waiting at its write cursor. */
  lemma NoLongRunWaits(limit: int, reqs: seq<Request>, fates: seq<Fate>, k: FileKey)
    requires |fates| == |reqs| && k in Serve(NewWorker(limit), reqs, fates).perFile
    ensures var b := Serve(NewWorker(limit), reqs, fates).perFile[k];
            |BytesOf(Contiguous(b.articles, b.writeCursor))| < 524288
  {
    var s := Serve(NewWorker(limit), reqs, fates);
    CalmIsKept(limit);
    WorkerKeepsFiles(limit, reqs, fates, Calm, Anything);
    CacheIsAccountedFor(limit, reqs, fates);
    assert Calm(k, s.open[k].info, FileOf(s, k));
  }
}
