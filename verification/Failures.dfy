/** Every article failed for good has been accounted for to its owner. */
module Failures {
  import opened Types
  import opened FileBuffer
  import opened Writing
  import opened Assembly
  import opened WorkerMoves
  import opened WorkerLedger
  import opened Routing

  // The articles that arrived failed for good.
  type Fatal = (FileKey, int) -> bool

  ghost predicate ReportedRejected(calls: seq<Call>, key: FileKey, id: int) {
    exists i :: 0 <= i < |calls| && calls[i].ArticleRejected? && calls[i].key == key && calls[i].art == id
  }

  /** Its displacement has still to be handed on. */
  ghost predicate Waits(w: Writer, id: int) {
    exists i :: 0 <= i < |w.faulted| && w.faulted[i].Displaced? && w.faulted[i].id == id
  }

  ghost predicate Explained(calls: seq<Call>, F: Fatal, key: FileKey, id: int) {
    F(key, id) || ReportedRejected(calls, key, id)
  }

  ghost predicate WriterExplained(w: Writer, calls: seq<Call>, F: Fatal, key: FileKey) {
    forall id | id in w.seenFailed :: Explained(calls, F, key, id) || Waits(w, id)
  }

  ghost predicate AllExplained(s: Worker, F: Fatal) {
    && (forall k | k in s.open :: WriterExplained(s.open[k].w, s.calls, F, k))
    && (forall i | 0 <= i < |s.past| && s.past[i].Closed? :: WriterExplained(s.past[i].w, s.calls, F, s.past[i].key))
  }

  // ----- what keeps it

  lemma StillReported(calls: seq<Call>, more: seq<Call>, key: FileKey, id: int)
    requires ReportedRejected(calls, key, id)
    ensures ReportedRejected(calls + more, key, id)
  {
    var i :| 0 <= i < |calls| && calls[i].ArticleRejected? && calls[i].key == key && calls[i].art == id;
    assert (calls + more)[i] == calls[i];
  }

  lemma MoreCallsExplain(w: Writer, calls: seq<Call>, more: seq<Call>, F: Fatal, key: FileKey)
    requires WriterExplained(w, calls, F, key)
    ensures WriterExplained(w, calls + more, F, key)
  {
    forall id | id in w.seenFailed && ReportedRejected(calls, key, id) ensures ReportedRejected(calls + more, key, id) {
      StillReported(calls, more, key, id);
    }
  }

  lemma SayExplains(s: Worker, more: seq<Call>, F: Fatal)
    requires AllExplained(s, F)
    ensures AllExplained(Say(s, more), F)
  {
    forall k | k in s.open ensures WriterExplained(s.open[k].w, s.calls + more, F, k) {
      MoreCallsExplain(s.open[k].w, s.calls, more, F, k);
    }
    forall i | 0 <= i < |s.past| && s.past[i].Closed? ensures WriterExplained(s.past[i].w, s.calls + more, F, s.past[i].key) {
      MoreCallsExplain(s.past[i].w, s.calls, more, F, s.past[i].key);
    }
  }

  lemma RolledBackExplains(w: Writer, v: Writer, calls: seq<Call>, F: Fatal, key: FileKey)
    requires WriterExplained(w, calls, F, key) && OnlyRolledBack(w, v)
    ensures WriterExplained(v, calls, F, key)
  {
    forall id | id in w.seenFailed && Waits(w, id) ensures Waits(v, id) {
      var i :| 0 <= i < |w.faulted| && w.faulted[i].Displaced? && w.faulted[i].id == id;
      assert v.faulted[i] == w.faulted[i];
    }
  }

  lemma {:induction false} RejectCallsReport(key: FileKey, rolled: seq<Faulted>, id: int, i: nat)
    requires i < |rolled| && rolled[i].Displaced? && rolled[i].id == id
    ensures ReportedRejected(RejectCalls(key, rolled), key, id)
    decreases |rolled|
  {
    var first, rest := RejectOne(key, rolled[0]), RejectCalls(key, rolled[1..]);
    if i == 0 {
      assert (first + rest)[0] == first[0];
    } else {
      RejectCallsReport(key, rolled[1..], id, i - 1);
      var k :| 0 <= k < |rest| && rest[k].ArticleRejected? && rest[k].key == key && rest[k].art == id;
      assert (first + rest)[|first| + k] == rest[k];
    }
  }

  /** Handing on explains whatever was waiting. */
  lemma ReleaseExplains(s: Worker, key: FileKey, F: Fatal)
    requires AllExplained(s, F) && key in s.open
    ensures AllExplained(ReleaseFaulted(s, key), F)
  {
    var w := s.open[key].w;
    var told := RouteCalls(key, w.faulted);
    SayExplains(s, told, F);
    forall id | id in w.seenFailed ensures Explained(s.calls + told, F, key, id) {
      if Waits(w, id) {
        var i :| 0 <= i < |w.faulted| && w.faulted[i].Displaced? && w.faulted[i].id == id;
        RejectCallsReport(key, w.faulted, id, i);
        StillReported(RejectCalls(key, w.faulted), UnwrittenCall(key, UnwrittenIds(w.faulted)), key, id);
        LaterReported(s.calls, told, key, id);
      }
    }
  }

  lemma LaterReported(calls: seq<Call>, more: seq<Call>, key: FileKey, id: int)
    requires ReportedRejected(more, key, id)
    ensures ReportedRejected(calls + more, key, id)
  {
    var i :| 0 <= i < |more| && more[i].ArticleRejected? && more[i].key == key && more[i].art == id;
    assert (calls + more)[|calls| + i] == more[i];
  }

  lemma ActExplains(s: Worker, key: FileKey, op: FileOp, F: Fatal)
    requires AllExplained(s, F) && key in s.open
    requires op.PressureFlush? || op.DrainFile? || op.ConfirmFile? || op.TruncateFile?
    ensures AllExplained(PutFile(s, key, Step(FileOf(s, key), s.limit, s.open[key].info, op)), F)
  {
    FlushedThrough(FileOf(s, key));
    var g := Step(FileOf(s, key), s.limit, s.open[key].info, op);
    assert OnlyRolledBack(s.open[key].w, g.w);
    RolledBackExplains(s.open[key].w, g.w, s.calls, F, key);
  }

  lemma EndExplains(s: Worker, key: FileKey, ending: Ending, F: Fatal)
    requires AllExplained(s, F) && key in s.open
    ensures AllExplained(Close(s, key, ending), F)
  {
  }

  lemma MoveExplains(s: Worker, m: Move, F: Fatal)
    requires AllExplained(s, F) && Free(s, m, Anything)
    ensures AllExplained(Do(s, m, Anything), F)
  {
    match m
    case Act(key, op) => ActExplains(s, key, op, F);
    case Release(key) => ReleaseExplains(s, key, F);
    case Reject(key, id, reason, anomaly) =>
      SayExplains(s, [ArticleRejected(key, id, reason)] + if anomaly then [PostAnomaly(key)] else [], F);
    case Fault(key) => SayExplains(s, [WriteFaulted(key)], F);
    case Finalize(key) =>
      SayExplains(s.(completed := s.completed + {key}), [FileComplete(key, s.open[key].info, FileOf(s, key))], F);
    case End(key, ending) => EndExplains(s, key, ending, F);
    case Open(key, info, handle) =>
    case _ => SayExplains(s, [], F);
  }

  lemma ExplainedIsSteady(F: Fatal)
    ensures Steady((s: Worker) => AllExplained(s, F), Anything)
  {
    forall s: Worker, m: Move | AllExplained(s, F) && Free(s, m, Anything)
      ensures AllExplained(Do(s, m, Anything), F)
    {
      MoveExplains(s, m, F);
    }
  }

  // ----- arrivals

  /** An arrival fails for good itself, if it is refused, and whom it displaces, which then waits to be handed on. */
  ghost predicate FailsOnly(w: Writer, v: Writer, refused: set<int>) {
    && (forall id | id in v.seenFailed :: id in w.seenFailed || id in refused || Waits(v, id))
    && (forall id | Waits(w, id) :: Waits(v, id))
  }

  lemma WaitsStill(w: Writer, v: Writer, id: int)
    requires Waits(w, id) && w.faulted <= v.faulted
    ensures Waits(v, id)
  {
    var i :| 0 <= i < |w.faulted| && w.faulted[i].Displaced? && w.faulted[i].id == id;
    assert v.faulted[i] == w.faulted[i];
  }

  lemma {:induction false} NoteAllFailsNone(w: Writer, parts: seq<RunPart>)
    ensures NoteAll(w, parts).seenFailed == w.seenFailed && NoteAll(w, parts).faulted == w.faulted
    decreases |parts|
  {
    if parts != [] {
      NoteAllFailsNone(NoteWritten(w, parts[0]), parts[1..]);
    }
  }

  lemma {:induction false} FailAllFailsNone(w: Writer, parts: seq<RunPart>)
    ensures FailAll(w, parts).seenFailed == w.seenFailed && w.faulted <= FailAll(w, parts).faulted
    decreases |parts|
  {
    if parts != [] {
      FailAllFailsNone(Fail(w, parts[0].id), parts[1..]);
    }
  }

  lemma WriteFailsNone(f: File, limit: int, a: BufferedArticle)
    ensures var (g, h) := (Claim(f, a.offset, a.id), Accept(f, limit, a).0);
            h.w.seenFailed == g.w.seenFailed && g.w.faulted <= h.w.faulted
  {
    var g := Claim(f, a.offset, a.id);
    if limit > 0 && a.data.Len() > 0 {
      var h := g.(buf := Some(PutArticle(g.Buffer(), a)), freed := g.freed + LoanAt(g.Articles(), a.offset));
      if BuildRun(h.buf.value, CONTIGUOUS_RUN_SIZE).0.Some? {
        var run := BuildRun(h.buf.value, CONTIGUOUS_RUN_SIZE).0.value;
        var w := h.w.(handle := WriteAt(h.w.handle, run.data, run.offset).0);
        NoteAllFailsNone(w, run.parts);
        FailAllFailsNone(w, run.parts);
      }
    }
  }

  lemma ClaimFailsLoser(f: File, off: int, id: int)
    ensures FailsOnly(f.w, Claim(f, off, id).w, {})
    ensures f.w.faulted <= Claim(f, off, id).w.faulted
  {
    var g := Claim(f, off, id);
    if off in f.w.acceptedAt && f.w.acceptedAt[off].id != id {
      var loser := f.w.acceptedAt[off].id;
      assert g.w.faulted[|f.w.faulted|].Displaced? && g.w.faulted[|f.w.faulted|].id == loser;
    }
    forall x | Waits(f.w, x) ensures Waits(g.w, x) {
      WaitsStill(f.w, g.w, x);
    }
  }

  lemma AcceptFailsLoser(f: File, limit: int, a: BufferedArticle)
    ensures FailsOnly(f.w, Accept(f, limit, a).0.w, {})
  {
    var g, h := Claim(f, a.offset, a.id), Accept(f, limit, a).0;
    ClaimFailsLoser(f, a.offset, a.id);
    WriteFailsNone(f, limit, a);
    forall x | Waits(g.w, x) ensures Waits(h.w, x) {
      WaitsStill(g.w, h.w, x);
    }
  }

  ghost function RefusedId(a: BufferedArticle, arrival: Arrival): set<int> {
    if !arrival.Duplicate? && arrival.result.Rejected? then {a.id} else {}
  }

  lemma ArrivalFails(f: File, limit: int, info: FileInfo, a: BufferedArticle)
    ensures var (g, arrival) := HandleSuccess(f, limit, info, a);
            FailsOnly(f.w, g.w, RefusedId(a, arrival))
  {
    if a.id !in f.w.seenDone {
      var w := if a.id in f.w.seenFailed then AdmitRetryOfFailed(f.w, a.id) else AdmitAccepted(f.w, a.id);
      var h := f.(w := w);
      forall x ensures Waits(w, x) <==> Waits(f.w, x) {
      }
      if !OffsetOutOfRange(info, a.offset, a.data.Len()) && !OffsetSettledBy(w, a.offset, a.id) {
        AcceptFailsLoser(h, limit, a);
      } else {
        forall x ensures Waits(HandleSuccess(f, limit, info, a).0.w, x) <==> Waits(f.w, x) {
        }
      }
    }
  }

  lemma ArrivalExplained(s: Worker, key: FileKey, a: BufferedArticle, F: Fatal)
    requires AllExplained(s, F) && key in s.open
    ensures var (u, arrival) := DeliverAt(s, key, a);
            arrival.Duplicate? || AllExplained(RouteAccept(u, key, a.id, arrival.result), F)
  {
    var (u, arrival) := DeliverAt(s, key, a);
    var w, v := s.open[key].w, u.open[key].w;
    ArrivalFails(FileOf(s, key), s.limit, s.open[key].info, a);
    if !arrival.Duplicate? {
      var r := arrival.result;
      if r.Rejected? {
        var more := [ArticleRejected(key, a.id, r.reason)] + if r.anomaly then [PostAnomaly(key)] else [];
        SayExplains(s, more, F);
        assert more[0] == ArticleRejected(key, a.id, r.reason);
        LaterReported(s.calls, more, key, a.id);
        assert WriterExplained(v, s.calls + more, F, key);
      } else {
        assert WriterExplained(v, s.calls, F, key);
        assert AllExplained(u, F);
        if r.WriteFault? {
          ReleaseExplains(u, key, F);
          SayExplains(ReleaseFaulted(u, key), [WriteFaulted(key)], F);
        }
      }
    }
  }

  lemma TakeOnExplained(s: Worker, key: FileKey, a: BufferedArticle, fatal: bool, F: Fatal)
    requires AllExplained(s, F) && key in s.open && (fatal ==> F(key, a.id))
    ensures AllExplained(TakeOn(s, key, a, fatal).0, F)
  {
    if fatal {
      var w := s.open[key].w;
      forall x ensures Waits(AdmitPermanentFailure(w, a.id).0, x) <==> Waits(w, x) {
      }
    } else {
      ArrivalExplained(s, key, a, F);
    }
  }

  lemma AtOpenFileExplained(s: Worker, key: FileKey, a: BufferedArticle, fatal: bool, victims: seq<FileKey>, F: Fatal)
    requires AllExplained(s, F) && key in s.open && key !in s.completed && (fatal ==> F(key, a.id))
    ensures AllExplained(AtOpenFile(s, key, a, fatal, victims), F)
  {
    var W := (s: Worker) => AllExplained(s, F);
    var (t, admitted) := TakeOn(s, key, a, fatal);
    TakeOnExplained(s, key, a, fatal, F);
    ExplainedIsSteady(F);
    if admitted {
      PressureKeeps(t, victims, W, Anything);
      SettleKeeps(RelievePressure(t, victims), key, admitted, W, Anything);
    } else {
      SettleKeeps(t, key, admitted, W, Anything);
    }
  }

  lemma ArticleExplained(s: Worker, req: Request, fate: Fate, F: Fatal)
    requires AllExplained(s, F) && req.Article? && (req.fatal ==> F(req.key, req.a.id))
    ensures AllExplained(Dispatch(s, req, fate), F)
  {
    var key, a := req.key, req.a;
    if key.jobID in s.cancelled {
    } else if key in s.completed {
      SayExplains(s.(freed := s.freed + a.data.Loan()), [ArticleRejected(key, a.id, AfterCompletion)], F);
    } else if key in s.open {
      AtOpenFileExplained(s, key, a, req.fatal, fate.victims, F);
    } else if fate.opening.OpenFailed? {
      SayExplains(s.(freed := s.freed + a.data.Loan() + a.data.Loan(), past := s.past + [NeverOpened(key, a.id)]),
                  [ArticlesUnwritten(key, [a.id]), WriteFaulted(key)], F);
    } else {
      AtOpenFileExplained(OpenTarget(s, key, fate.opening.info, fate.opening.handle), key, a, req.fatal, fate.victims, F);
    }
  }

  lemma RequestExplained(s: Worker, req: Request, fate: Fate, F: Fatal)
    requires AllExplained(s, F) && (req.Article? && req.fatal ==> F(req.key, req.a.id))
    ensures AllExplained(Dispatch(s, req, fate), F)
  {
    if req.Article? {
      ArticleExplained(s, req, fate, F);
    } else if !req.ForgetJob? {
      ExplainedIsSteady(F);
      ControlKeeps(s, req, fate, (s: Worker) => AllExplained(s, F), Anything);
    }
  }

  lemma {:induction false} RunExplained(limit: int, reqs: seq<Request>, fates: seq<Fate>, F: Fatal)
    requires |fates| == |reqs|
    requires forall i | 0 <= i < |reqs| && reqs[i].Article? && reqs[i].fatal :: F(reqs[i].key, reqs[i].a.id)
    ensures AllExplained(Serve(NewWorker(limit), reqs, fates), F)
    decreases |reqs|
  {
    if reqs != [] {
      var n := |reqs| - 1;
      RunExplained(limit, reqs[..n], fates[..n], F);
      RequestExplained(Serve(NewWorker(limit), reqs[..n], fates[..n]), reqs[n], fates[n], F);
    }
  }

  /** An article of this key and number arrived failed for good. */
  ghost predicate ArrivedFatal(reqs: seq<Request>, key: FileKey, id: int) {
    exists i :: 0 <= i < |reqs| && reqs[i].Article? && reqs[i].fatal && reqs[i].key == key && reqs[i].a.id == id
  }

  lemma NothingWaits(w: Writer, id: int)
    requires AllRolledBack(w.faulted)
    ensures !Waits(w, id)
  {
  }

  /**
   * Over every run: an article that a file, open or closed since, holds failed for good either arrived so, or
   * has been reported to its owner as rejected, displaced ones included.
   */
  lemma EveryFailureIsExplained(limit: int, reqs: seq<Request>, fates: seq<Fate>, key: FileKey, id: int)
    requires |fates| == |reqs|
    requires var s := Serve(NewWorker(limit), reqs, fates);
             || (key in s.open && id in s.open[key].w.seenFailed)
             || exists e :: e in s.past && e.Closed? && e.key == key && id in e.w.seenFailed
    ensures ArrivedFatal(reqs, key, id) || ReportedRejected(Serve(NewWorker(limit), reqs, fates).calls, key, id)
  {
    var F: Fatal := (k, x) => ArrivedFatal(reqs, k, x);
    var s := Serve(NewWorker(limit), reqs, fates);
    RunExplained(limit, reqs, fates, F);
    ServeQuiet(limit, reqs, fates);
    if key in s.open && id in s.open[key].w.seenFailed {
      NothingWaits(s.open[key].w, id);
    } else {
      var e :| e in s.past && e.Closed? && e.key == key && id in e.w.seenFailed;
      var i :| 0 <= i < |s.past| && s.past[i] == e;
      NothingWaits(e.w, id);
    }
  }
}
