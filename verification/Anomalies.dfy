/** Two articles of one file at one offset: the job is warned, once for each file. */
module Anomalies {
  import opened Types
  import opened FileBuffer
  import opened Writing
  import opened WriterInvariant
  import opened WriteBounds
  import opened Assembly
  import opened WorkerMoves
  import opened WorkerFiles
  import opened WorkerLedger
  import opened Routing
  import opened Rejections

  // ----- warnings made, and warnings still to be routed

  /** The displaced articles among these that are to warn of the collision. */
  ghost function Firsts(rolled: seq<Faulted>): nat
    decreases |rolled|
  {
    if rolled == [] then 0
    else (if rolled[0].Displaced? && rolled[0].firstCollision then 1 else 0) + Firsts(rolled[1..])
  }

  lemma {:induction false} FirstsConcat(r: seq<Faulted>, q: seq<Faulted>)
    ensures Firsts(r + q) == Firsts(r) + Firsts(q)
    decreases |r|
  {
    if r == [] {
      assert r + q == q;
    } else {
      assert (r + q)[1..] == r[1..] + q;
      FirstsConcat(r[1..], q);
    }
  }

  lemma {:induction false} RolledBackWarnsNone(r: seq<Faulted>)
    requires AllRolledBack(r)
    ensures Firsts(r) == 0
    decreases |r|
  {
    if r != [] {
      forall i | 0 <= i < |r[1..]| ensures r[1..][i].RolledBack? {
        assert r[1..][i] == r[i + 1];
      }
      RolledBackWarnsNone(r[1..]);
    }
  }

  lemma {:induction false} RejectCallsWarn(key: FileKey, rolled: seq<Faulted>, k: FileKey)
    ensures Raised(RejectCalls(key, rolled), PostAnomaly(k)) == if k == key then Firsts(rolled) else 0
    decreases |rolled|
  {
    if rolled != [] {
      RejectCallsWarn(key, rolled[1..], k);
      var first := RejectOne(key, rolled[0]);
      assert multiset(first + RejectCalls(key, rolled[1..])) == multiset(first) + multiset(RejectCalls(key, rolled[1..]));
      assert multiset(first)[PostAnomaly(k)] == if k == key && rolled[0].Displaced? && rolled[0].firstCollision then 1 else 0;
    }
  }

  lemma RouteCallsWarn(key: FileKey, rolled: seq<Faulted>, k: FileKey)
    ensures Raised(RouteCalls(key, rolled), PostAnomaly(k)) == if k == key then Firsts(rolled) else 0
  {
    RejectCallsWarn(key, rolled, k);
    var last := UnwrittenCall(key, UnwrittenIds(rolled));
    assert multiset(RejectCalls(key, rolled) + last) == multiset(RejectCalls(key, rolled)) + multiset(last);
  }

  /** The warnings made about a file, and those it still holds. */
  ghost function Warnings(s: Worker, k: FileKey): nat {
    Raised(s.calls, PostAnomaly(k)) + if k in s.open then Firsts(s.open[k].w.faulted) else 0
  }

  ghost predicate Latched(s: Worker, k: FileKey) {
    k in s.open && s.open[k].w.postAnomalyReported
  }

  /** Meanwhile so many warnings have been added, and the file has been marked as warned of if it was not. */
  ghost predicate WarnedBy(s: Worker, t: Worker, k: FileKey, n: nat) {
    && (k in t.open <==> k in s.open)
    && Warnings(t, k) == Warnings(s, k) + n
    && (Latched(t, k) <==> Latched(s, k) || n > 0)
  }

  lemma WarnedThen(s: Worker, t: Worker, u: Worker, k: FileKey, m: nat, n: nat)
    requires WarnedBy(s, t, k, m) && WarnedBy(t, u, k, n)
    ensures WarnedBy(s, u, k, m + n)
  {
  }

  lemma SaidWarnsNone(s: Worker, calls: seq<Call>, k: FileKey)
    requires PostAnomaly(k) !in calls
    ensures WarnedBy(s, Say(s, calls), k, 0)
  {
    assert multiset(s.calls + calls) == multiset(s.calls) + multiset(calls);
  }

  lemma ReleaseWarnsNone(s: Worker, key: FileKey, k: FileKey)
    requires key in s.open
    ensures WarnedBy(s, ReleaseFaulted(s, key), k, 0)
  {
    var more := RouteCalls(key, s.open[key].w.faulted);
    RouteCallsWarn(key, s.open[key].w.faulted, k);
    assert multiset(s.calls + more) == multiset(s.calls) + multiset(more);
  }

  lemma FaultWarnsNone(s: Worker, key: FileKey, k: FileKey)
    requires key in s.open
    ensures WarnedBy(s, Say(ReleaseFaulted(s, key), [WriteFaulted(key)]), k, 0)
  {
    ReleaseWarnsNone(s, key, k);
    SaidWarnsNone(ReleaseFaulted(s, key), [WriteFaulted(key)], k);
  }

  lemma PutWarnsNone(s: Worker, key: FileKey, f: File, k: FileKey)
    requires key in s.open && OnlyRolledBack(s.open[key].w, f.w)
    ensures WarnedBy(s, PutFile(s, key, f), k, 0)
  {
    var w := s.open[key].w;
    RolledBackWarnsNone(f.w.faulted[|w.faulted|..]);
    FirstsConcat(w.faulted, f.w.faulted[|w.faulted|..]);
    assert w.faulted + f.w.faulted[|w.faulted|..] == f.w.faulted;
  }

  lemma VictimWarnsNone(s: Worker, victim: FileKey, k: FileKey)
    ensures WarnedBy(s, FlushVictim(s, victim).0, k, 0)
  {
    if victim in s.perFile && s.perFile[victim].articles != map[] && victim in s.open {
      var (f, ok) := FlushAll(FileOf(s, victim));
      FlushedThrough(FileOf(s, victim));
      PutWarnsNone(s, victim, f, k);
      FaultWarnsNone(PutFile(s, victim, f), victim, k);
    }
  }

  lemma {:induction false} PressureWarnsNone(s: Worker, victims: seq<FileKey>, k: FileKey)
    ensures WarnedBy(s, RelievePressure(s, victims), k, 0)
    decreases |victims|
  {
    if Pressure(s) && victims != [] {
      VictimWarnsNone(s, victims[0], k);
      if FlushVictim(s, victims[0]).1 {
        PressureWarnsNone(FlushVictim(s, victims[0]).0, victims[1..], k);
        WarnedThen(s, FlushVictim(s, victims[0]).0, RelievePressure(s, victims), k, 0, 0);
      }
    }
  }

  lemma SettleWarnsNone(s: Worker, key: FileKey, admitted: bool, k: FileKey)
    requires key in s.open
    ensures WarnedBy(s, Settle(s, key, admitted), k, 0)
  {
    ReleaseWarnsNone(s, key, k);
    var v := ReleaseFaulted(s, key);
    SaidWarnsNone(v, [FileComplete(key, v.open[key].info, FileOf(v, key))], k);
  }

  // ----- an arrival

  /** The file gives the article's offset to another, written or not. */
  ghost predicate Contests(w: Writer, info: FileInfo, a: BufferedArticle) {
    && a.id !in w.seenDone && Within(info, a.offset, a.data.Len())
    && a.offset in w.acceptedAt && w.acceptedAt[a.offset].id != a.id
  }

  ghost function NewWarning(w: Writer, info: FileInfo, a: BufferedArticle): nat {
    if Contests(w, info, a) && !w.postAnomalyReported then 1 else 0
  }

  lemma {:induction false} NoteAllRollsBack(w: Writer, parts: seq<RunPart>)
    ensures OnlyRolledBack(w, NoteAll(w, parts))
    decreases |parts|
  {
    if parts != [] {
      NoteAllRollsBack(NoteWritten(w, parts[0]), parts[1..]);
    }
  }

  lemma {:induction false} FailAllRollsBack(w: Writer, parts: seq<RunPart>)
    ensures OnlyRolledBack(w, FailAll(w, parts))
    decreases |parts|
  {
    if parts != [] {
      FailAllRollsBack(Fail(w, parts[0].id), parts[1..]);
      RolledBackStill(w, Fail(w, parts[0].id), FailAll(w, parts));
    }
  }

  lemma RunRollsBack(f: File)
    ensures OnlyRolledBack(f.w, FlushContiguous(f).0.w)
  {
    if f.buf.Some? && BuildRun(f.buf.value, CONTIGUOUS_RUN_SIZE).0.Some? {
      var run := BuildRun(f.buf.value, CONTIGUOUS_RUN_SIZE).0.value;
      var w := f.w.(handle := WriteAt(f.w.handle, run.data, run.offset).0);
      NoteAllRollsBack(w, run.parts);
      FailAllRollsBack(w, run.parts);
    }
  }

  /** Accepting rolls articles back after the claim of the offset, which is what may displace one. */
  lemma AcceptWarns(f: File, limit: int, a: BufferedArticle)
    ensures OnlyRolledBack(Claim(f, a.offset, a.id).w, Accept(f, limit, a).0.w)
  {
    var g := Claim(f, a.offset, a.id);
    if limit > 0 && a.data.Len() > 0 {
      RunRollsBack(g.(buf := Some(PutArticle(g.Buffer(), a)), freed := g.freed + LoanAt(g.Articles(), a.offset)));
    }
  }

  lemma RolledBackAddsNone(w: Writer, v: Writer)
    requires OnlyRolledBack(w, v)
    ensures Firsts(v.faulted) == Firsts(w.faulted) && v.postAnomalyReported == w.postAnomalyReported
  {
    RolledBackWarnsNone(v.faulted[|w.faulted|..]);
    FirstsConcat(w.faulted, v.faulted[|w.faulted|..]);
    assert w.faulted + v.faulted[|w.faulted|..] == v.faulted;
  }

  lemma ClaimWarns(f: File, off: int, id: int)
    ensures var (w, v) := (f.w, Claim(f, off, id).w);
            var other := off in w.acceptedAt && w.acceptedAt[off].id != id;
            && Firsts(v.faulted) == Firsts(w.faulted) + (if other && !w.postAnomalyReported then 1 else 0)
            && (v.postAnomalyReported <==> w.postAnomalyReported || other)
  {
    if off in f.w.acceptedAt && f.w.acceptedAt[off].id != id {
      var more := [Displaced(f.w.acceptedAt[off].id, off, id, !f.w.postAnomalyReported)];
      FirstsConcat(f.w.faulted, more);
      assert Claim(f, off, id).w.faulted == f.w.faulted + more;
      assert Firsts(more) == if f.w.postAnomalyReported then 0 else 1;
    }
  }

  /** The warning a result of accepting carries along. */
  ghost function Carries(r: AcceptResult): nat {
    if r.Rejected? && r.anomaly then 1 else 0
  }

  /** An article at an offset that belongs to another: the file is marked, and a warning is on its way if it was not. */
  lemma AcceptArticleWarns(f: File, w: Writer, limit: int, info: FileInfo, a: BufferedArticle)
    requires Representable(a) && a.id !in f.w.seenDone
    requires w == if a.id in f.w.seenFailed then AdmitRetryOfFailed(f.w, a.id) else AdmitAccepted(f.w, a.id)
    ensures var (g, r) := AcceptArticle(f.(w := w), limit, info, a);
            && Firsts(g.w.faulted) + Carries(r) == Firsts(f.w.faulted) + NewWarning(f.w, info, a)
            && (g.w.postAnomalyReported <==> f.w.postAnomalyReported || Contests(f.w, info, a))
  {
    RangeCheckIsExact(info, a);
    if !OffsetOutOfRange(info, a.offset, a.data.Len()) && !OffsetSettledBy(w, a.offset, a.id) {
      ClaimWarns(f.(w := w), a.offset, a.id);
      AcceptWarns(f.(w := w), limit, a);
      RolledBackAddsNone(Claim(f.(w := w), a.offset, a.id).w, Accept(f.(w := w), limit, a).0.w);
    }
  }

  lemma RouteWarns(s: Worker, key: FileKey, id: int, r: AcceptResult, k: FileKey)
    requires key in s.open
    ensures var t := RouteAccept(s, key, id, r);
            && (k in t.open <==> k in s.open) && (Latched(t, k) <==> Latched(s, k))
            && Warnings(t, k) == Warnings(s, k) + if k == key then Carries(r) else 0
  {
    if r.WriteFault? {
      FaultWarnsNone(s, key, k);
    } else if r.Rejected? {
      var more := [ArticleRejected(key, id, r.reason)] + if r.anomaly then [PostAnomaly(key)] else [];
      assert multiset(s.calls + more) == multiset(s.calls) + multiset(more);
      assert multiset(more)[PostAnomaly(k)] == if k == key then Carries(r) else 0;
    }
  }

  ghost function CarriedBy(arrival: Arrival): nat {
    if arrival.Duplicate? then 0 else Carries(arrival.result)
  }

  lemma ArrivalWarns(f: File, limit: int, info: FileInfo, a: BufferedArticle)
    requires Representable(a)
    ensures var (g, arrival) := HandleSuccess(f, limit, info, a);
            && Firsts(g.w.faulted) + CarriedBy(arrival) == Firsts(f.w.faulted) + NewWarning(f.w, info, a)
            && (g.w.postAnomalyReported <==> f.w.postAnomalyReported || Contests(f.w, info, a))
  {
    if a.id !in f.w.seenDone {
      var w := if a.id in f.w.seenFailed then AdmitRetryOfFailed(f.w, a.id) else AdmitAccepted(f.w, a.id);
      AcceptArticleWarns(f, w, limit, info, a);
    }
  }

  lemma DeliveryWarns(s: Worker, key: FileKey, a: BufferedArticle, k: FileKey)
    requires key in s.open && Representable(a)
    ensures var (u, arrival) := DeliverAt(s, key, a);
            var (w, info) := (s.open[key].w, s.open[key].info);
            && u.open.Keys == s.open.Keys
            && Warnings(u, k) + (if k == key then CarriedBy(arrival) else 0)
               == Warnings(s, k) + (if k == key then NewWarning(w, info, a) else 0)
            && (Latched(u, k) <==> Latched(s, k) || (k == key && Contests(w, info, a)))
  {
    ArrivalWarns(FileOf(s, key), s.limit, s.open[key].info, a);
  }

  lemma TakeOnWarns(s: Worker, key: FileKey, a: BufferedArticle, fatal: bool, k: FileKey)
    requires key in s.open && Representable(a)
    ensures var n := if k == key && !fatal then NewWarning(s.open[key].w, s.open[key].info, a) else 0;
            var t := TakeOn(s, key, a, fatal).0;
            && (k in t.open <==> k in s.open) && Warnings(t, k) == Warnings(s, k) + n
            && (Latched(t, k) <==> Latched(s, k) || (k == key && !fatal && Contests(s.open[key].w, s.open[key].info, a)))
  {
    if !fatal {
      var (u, arrival) := DeliverAt(s, key, a);
      DeliveryWarns(s, key, a, k);
      if !arrival.Duplicate? {
        RouteWarns(u, key, a.id, arrival.result, k);
      }
    }
  }

  /** The state the article's request leaves its file, and every other, in. */
  lemma AtOpenFileWarns(s: Worker, key: FileKey, a: BufferedArticle, fatal: bool, victims: seq<FileKey>, k: FileKey)
    requires key in s.open && Representable(a)
    ensures var n := if k == key && !fatal then NewWarning(s.open[key].w, s.open[key].info, a) else 0;
            var t := AtOpenFile(s, key, a, fatal, victims);
            && (k in t.open <==> k in s.open) && Warnings(t, k) == Warnings(s, k) + n
            && (Latched(t, k) <==> Latched(s, k) || (k == key && !fatal && Contests(s.open[key].w, s.open[key].info, a)))
  {
    var (t, admitted) := TakeOn(s, key, a, fatal);
    TakeOnWarns(s, key, a, fatal, k);
    PressureWarnsNone(t, victims, k);
    SettleWarnsNone(if admitted then RelievePressure(t, victims) else t, key, admitted, k);
  }

  // ----- requests

  /** An article reaches its open file at an offset the file has given to another. */
  ghost predicate Collides(s: Worker, req: Request, k: FileKey) {
    && req.Article? && !req.fatal && req.key == k && k.jobID !in s.cancelled && k !in s.completed
    && k in s.open && Contests(s.open[k].w, s.open[k].info, req.a)
  }

  lemma QuietWarnings(s: Worker, k: FileKey)
    requires Quiet(s)
    ensures Warnings(s, k) == Raised(s.calls, PostAnomaly(k))
  {
  }

  /** Warnings made and held, after a request, told by those before it. */
  ghost predicate WarnsRightly(s: Worker, t: Worker, req: Request, k: FileKey) {
    && Warnings(t, k) == Warnings(s, k) + (if Collides(s, req, k) && !Latched(s, k) then 1 else 0)
    && (Latched(t, k) <==> Latched(s, k) || Collides(s, req, k))
  }

  lemma LateArticleWarns(s: Worker, req: Request, fate: Fate, k: FileKey)
    requires req.Article? && (req.key.jobID in s.cancelled || req.key in s.completed)
    ensures WarnsRightly(s, Dispatch(s, req, fate), req, k)
  {
    SaidWarnsNone(s, [ArticleRejected(req.key, req.a.id, AfterCompletion)], k);
  }

  lemma UnopenedArticleWarns(s: Worker, req: Request, fate: Fate, k: FileKey)
    requires req.Article? && req.key.jobID !in s.cancelled && req.key !in s.completed
    requires req.key !in s.open && fate.opening.OpenFailed?
    ensures WarnsRightly(s, Dispatch(s, req, fate), req, k)
  {
    SaidWarnsNone(s, [ArticlesUnwritten(req.key, [req.a.id]), WriteFaulted(req.key)], k);
  }

  lemma HandedUnwarned(s: Worker, u: Worker, req: Request, fate: Fate, k: FileKey)
    requires AsHanded(s, u, req, fate)
    ensures Warnings(u, k) == Warnings(s, k) && (Latched(u, k) <==> Latched(s, k))
    ensures k == req.key && !req.fatal ==>
              (Contests(u.open[k].w, u.open[k].info, req.a) <==> Collides(s, req, k))
  {
  }

  lemma HandedWarns(s: Worker, u: Worker, req: Request, fate: Fate, k: FileKey)
    requires AsHanded(s, u, req, fate) && Representable(req.a)
    ensures WarnsRightly(s, AtOpenFile(u, req.key, req.a, req.fatal, fate.victims), req, k)
  {
    HandedUnwarned(s, u, req, fate, k);
    AtOpenFileWarns(u, req.key, req.a, req.fatal, fate.victims, k);
  }

  lemma ArticleWarns(s: Worker, req: Request, fate: Fate, k: FileKey)
    requires req.Article? && Representable(req.a)
    ensures WarnsRightly(s, Dispatch(s, req, fate), req, k)
  {
    if req.key.jobID in s.cancelled || req.key in s.completed {
      LateArticleWarns(s, req, fate, k);
    } else if req.key in s.open {
      HandedWarns(s, s, req, fate, k);
    } else if fate.opening.OpenedAs? {
      HandedWarns(s, OpenTarget(s, req.key, fate.opening.info, fate.opening.handle), req, fate, k);
    } else {
      UnopenedArticleWarns(s, req, fate, k);
    }
  }

  lemma DrainWarnsNone(s: Worker, key: FileKey, k: FileKey)
    requires key in s.open
    ensures WarnedBy(s, ReleaseFaulted(PutFile(s, key, Drain(FileOf(s, key)).0), key), k, 0)
  {
    FlushedThrough(FileOf(s, key));
    PutWarnsNone(s, key, Drain(FileOf(s, key)).0, k);
    ReleaseWarnsNone(PutFile(s, key, Drain(FileOf(s, key)).0), key, k);
  }

  lemma CloseWarnsNone(s: Worker, key: FileKey, k: FileKey)
    requires Quiet(s) && key in s.open
    ensures Raised(DrainAndClose(s, key).calls, PostAnomaly(k)) == Raised(s.calls, PostAnomaly(k))
    ensures k != key ==> (Latched(DrainAndClose(s, key), k) <==> Latched(s, k))
  {
    DrainWarnsNone(s, key, k);
  }

  lemma {:induction false} ClosingWarnsNone(s: Worker, keys: seq<FileKey>, k: FileKey)
    requires Quiet(s) && NoneLost(s.past)
    ensures var t := CloseFiles(s, keys);
            && Raised(t.calls, PostAnomaly(k)) == Raised(s.calls, PostAnomaly(k))
            && (k in t.open ==> k in s.open && (Latched(t, k) <==> Latched(s, k)))
    decreases |keys|
  {
    if keys == [] {
    } else if keys[0] in s.open {
      CloseWarnsNone(s, keys[0], k);
      DrainAndCloseQuiet(s, keys[0]);
      ClosingWarnsNone(Tombstone(DrainAndClose(s, keys[0]), keys[0]), keys[1..], k);
    } else {
      ClosingWarnsNone(s, keys[1..], k);
    }
  }

  lemma {:induction false} CancellingWarnsNone(s: Worker, keys: seq<FileKey>, keep: bool, k: FileKey)
    ensures var t := CancelFiles(s, keys, keep);
            t.calls == s.calls && (k in t.open ==> k in s.open && (Latched(t, k) <==> Latched(s, k)))
    decreases |keys|
  {
    if keys == [] {
    } else if keys[0] in s.open {
      CancellingWarnsNone(Tombstone(CloseCancelled(s, keys[0], keep), keys[0]), keys[1..], keep, k);
    } else {
      CancellingWarnsNone(s, keys[1..], keep, k);
    }
  }

  lemma ControlWarnsNone(s: Worker, req: Request, fate: Fate, k: FileKey)
    requires !req.Article? && Quiet(s) && NoneLost(s.past)
    ensures var t := Dispatch(s, req, fate);
            && Raised(t.calls, PostAnomaly(k)) == Raised(s.calls, PostAnomaly(k))
            && (k in t.open ==> (Latched(t, k) <==> Latched(s, k)))
  {
    if req.CancelJob? {
      CancellingWarnsNone(s.(cancelled := s.cancelled + {req.job}), fate.order, req.keep, k);
    } else if req.CloseHandles? {
      ClosingWarnsNone(s, fate.order, k);
    } else if req.SyncDrain? && req.key in s.open {
      DrainWarnsNone(s, req.key, k);
    } else if req.SyncClose? && req.key in s.open {
      CloseWarnsNone(s, req.key, k);
    }
  }

  /**
   * In every run: a request warns of a file exactly once if it brings the file an article at an offset that belongs
   * to another article, written or not, and the open file has not been warned of; it warns of no other. From then on
   * the file has been warned of, for as long as it is open.
   */
  lemma WarnedOncePerFile(limit: int, reqs: seq<Request>, fates: seq<Fate>, req: Request, fate: Fate, k: FileKey)
    requires |fates| == |reqs| && (req.Article? ==> Representable(req.a))
    ensures var s := Serve(NewWorker(limit), reqs, fates);
            var t := Dispatch(s, req, fate);
            && Raised(t.calls, PostAnomaly(k)) == Raised(s.calls, PostAnomaly(k))
                                                  + (if Collides(s, req, k) && !Latched(s, k) then 1 else 0)
            && (k in t.open ==> (Latched(t, k) <==> Latched(s, k) || Collides(s, req, k)))
  {
    var s := Serve(NewWorker(limit), reqs, fates);
    ServeQuiet(limit, reqs, fates);
    if req.Article? {
      ArticleWarns(s, req, fate, k);
      DispatchQuiet(s, req, fate);
      QuietWarnings(s, k);
      QuietWarnings(Dispatch(s, req, fate), k);
    } else {
      ControlWarnsNone(s, req, fate, k);
    }
  }
}
