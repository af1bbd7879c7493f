/** Every write that fails while an article is served is reported once, with its file, and nothing else is. */
module WriteFaults {
  import opened Types
  import opened FileBuffer
  import opened Writing
  import opened WriteBounds
  import opened Drains
  import opened Assembly
  import opened WorkerMoves
  import opened Rejections

  // ----- one file's writes

  lemma WriteAtTells(d: Disk, p: seq<byte>, off: int)
    ensures WroteTo(d, WriteAt(d, p, off).0, WriteAt(d, p, off).1)
  {
    assert d.env(|d.log|).Failed? <==> !WriteAt(d, p, off).1;
  }

  lemma FlushContiguousTells(f: File)
    ensures WroteTo(f.w.handle, FlushContiguous(f).0.w.handle, FlushContiguous(f).1)
  {
    if f.buf.Some? && BuildRun(f.buf.value, CONTIGUOUS_RUN_SIZE).0.Some? {
      var run := BuildRun(f.buf.value, CONTIGUOUS_RUN_SIZE).0.value;
      var w := f.w.(handle := WriteAt(f.w.handle, run.data, run.offset).0);
      WriteAtTells(f.w.handle, run.data, run.offset);
      NoteAllKeepsHandle(w, run.parts);
      FailAllKeepsHandle(w, run.parts);
    }
  }

  lemma AcceptTells(f: File, limit: int, a: BufferedArticle)
    ensures WroteTo(f.w.handle, Accept(f, limit, a).0.w.handle, Accept(f, limit, a).1)
  {
    var g := Claim(f, a.offset, a.id);
    if limit > 0 && a.data.Len() > 0 {
      FlushContiguousTells(g.(buf := Some(PutArticle(g.Buffer(), a)), freed := g.freed + LoanAt(g.Articles(), a.offset)));
    } else {
      WriteAtTells(g.w.handle, a.data.Bytes(), a.offset);
    }
  }

  /** An arrival comes to a write fault exactly if it makes a write and that fails. */
  lemma ArrivalTells(f: File, limit: int, info: FileInfo, a: BufferedArticle)
    ensures var (g, arrival) := HandleSuccess(f, limit, info, a);
            WroteTo(f.w.handle, g.w.handle, arrival.Duplicate? || !arrival.result.WriteFault?)
  {
    if a.id !in f.w.seenDone {
      var w := if a.id in f.w.seenFailed then AdmitRetryOfFailed(f.w, a.id) else AdmitAccepted(f.w, a.id);
      if !OffsetOutOfRange(info, a.offset, a.data.Len()) && !OffsetSettledBy(w, a.offset, a.id) {
        AcceptTells(f.(w := w), limit, a);
      }
    }
  }

  // ----- the worker's calls

  ghost function Faults(s: Worker, k: FileKey): nat {
    Raised(s.calls, WriteFaulted(k))
  }

  ghost predicate FailedMeanwhile(s: Worker, t: Worker, k: FileKey) {
    k in s.open && k in t.open && AWriteFailed(s.open[k].w.handle, t.open[k].w.handle)
  }

  /** What happened to this file meanwhile: some writes, and one more report of it if one failed. */
  ghost predicate Told(s: Worker, t: Worker, k: FileKey) {
    && (k in s.open <==> k in t.open)
    && (k in s.open ==> Continues(s.open[k].w.handle, t.open[k].w.handle))
    && Faults(t, k) == Faults(s, k) + (if FailedMeanwhile(s, t, k) then 1 else 0)
  }

  lemma ToldNothing(s: Worker, t: Worker, k: FileKey)
    requires k in s.open <==> k in t.open
    requires Faults(t, k) == Faults(s, k) && (k in s.open ==> t.open[k].w.handle == s.open[k].w.handle)
    ensures Told(s, t, k) && !FailedMeanwhile(s, t, k)
  {
  }

  lemma FailedThen(d: Disk, e: Disk, g: Disk)
    requires Continues(d, e) && Continues(e, g)
    ensures Continues(d, g) && (AWriteFailed(d, g) <==> AWriteFailed(d, e) || AWriteFailed(e, g))
  {
    if AWriteFailed(d, g) {
      var i :| |d.log| <= i < |g.log| && d.env(i).Failed?;
      assert i < |e.log| || |e.log| <= i;
    }
  }

  lemma ToldThen(s: Worker, t: Worker, u: Worker, k: FileKey)
    requires Told(s, t, k) && Told(t, u, k) && !(FailedMeanwhile(s, t, k) && FailedMeanwhile(t, u, k))
    ensures Told(s, u, k)
    ensures FailedMeanwhile(s, u, k) <==> FailedMeanwhile(s, t, k) || FailedMeanwhile(t, u, k)
  {
    if k in s.open {
      FailedThen(s.open[k].w.handle, t.open[k].w.handle, u.open[k].w.handle);
    }
  }

  lemma FlushedVictimTold(s: Worker, key: FileKey, k: FileKey)
    requires key in s.perFile && s.perFile[key].articles != map[] && key in s.open
    ensures var (t, more) := FlushVictim(s, key); Told(s, t, k) && (more ==> !FailedMeanwhile(s, t, k))
  {
    var (f, ok) := FlushAll(FileOf(s, key));
    FlushTells(FileOf(s, key));
    ReleaseRaises(PutFile(s, key, f), key, WriteFaulted(k));
    if k != key {
      ToldNothing(s, FlushVictim(s, key).0, k);
    }
  }

  lemma VictimTold(s: Worker, key: FileKey, k: FileKey)
    ensures var (t, more) := FlushVictim(s, key); Told(s, t, k) && (more ==> !FailedMeanwhile(s, t, k))
  {
    if key in s.perFile && s.perFile[key].articles != map[] && key in s.open {
      FlushedVictimTold(s, key, k);
    } else {
      ToldNothing(s, FlushVictim(s, key).0, k);
    }
  }

  lemma {:induction false} PressureTold(s: Worker, victims: seq<FileKey>, k: FileKey)
    ensures Told(s, RelievePressure(s, victims), k)
    decreases |victims|
  {
    if !Pressure(s) || victims == [] {
      ToldNothing(s, s, k);
    } else {
      var (t, more) := FlushVictim(s, victims[0]);
      VictimTold(s, victims[0], k);
      if more {
        PressureTold(t, victims[1..], k);
        ToldThen(s, t, RelievePressure(t, victims[1..]), k);
      }
    }
  }

  lemma SettleTold(s: Worker, key: FileKey, admitted: bool, k: FileKey)
    requires key in s.open
    ensures Told(s, Settle(s, key, admitted), k) && !FailedMeanwhile(s, Settle(s, key, admitted), k)
  {
    ReleaseRaises(s, key, WriteFaulted(k));
    ToldNothing(s, Settle(s, key, admitted), k);
  }

  lemma RouteTold(s: Worker, key: FileKey, id: int, r: AcceptResult, k: FileKey)
    requires key in s.open
    ensures var t := RouteAccept(s, key, id, r);
            && Faults(t, k) == Faults(s, k) + (if r.WriteFault? && k == key then 1 else 0)
            && forall j | j in s.open :: t.open[j].w.handle == s.open[j].w.handle
  {
    if r.WriteFault? {
      ReleaseRaises(s, key, WriteFaulted(k));
    } else if r.Rejected? {
      var more := [ArticleRejected(key, id, r.reason)] + if r.anomaly then [PostAnomaly(key)] else [];
      assert multiset(s.calls + more) == multiset(s.calls) + multiset(more);
    }
  }

  lemma DeliveryTold(s: Worker, key: FileKey, a: BufferedArticle, k: FileKey)
    requires key in s.open
    ensures var (t, admitted) := TakeOn(s, key, a, false); Told(s, t, k) && (admitted ==> !FailedMeanwhile(s, t, k))
  {
    var (u, arrival) := DeliverAt(s, key, a);
    ArrivalTells(FileOf(s, key), s.limit, s.open[key].info, a);
    if !arrival.Duplicate? {
      RouteTold(u, key, a.id, arrival.result, k);
    }
    if k != key {
      ToldNothing(s, TakeOn(s, key, a, false).0, k);
    }
  }

  lemma TakeOnTold(s: Worker, key: FileKey, a: BufferedArticle, fatal: bool, k: FileKey)
    requires key in s.open
    ensures var (t, admitted) := TakeOn(s, key, a, fatal); Told(s, t, k) && (admitted ==> !FailedMeanwhile(s, t, k))
  {
    if fatal {
      ToldNothing(s, TakeOn(s, key, a, fatal).0, k);
    } else {
      DeliveryTold(s, key, a, k);
    }
  }

  lemma AtOpenFileTold(s: Worker, key: FileKey, a: BufferedArticle, fatal: bool, victims: seq<FileKey>, k: FileKey)
    requires key in s.open
    ensures Told(s, AtOpenFile(s, key, a, fatal, victims), k)
  {
    var (t, admitted) := TakeOn(s, key, a, fatal);
    TakeOnTold(s, key, a, fatal, k);
    if admitted {
      PressureTold(t, victims, k);
      ToldThen(s, t, RelievePressure(t, victims), k);
      SettleTold(RelievePressure(t, victims), key, admitted, k);
      ToldThen(s, RelievePressure(t, victims), Settle(RelievePressure(t, victims), key, admitted), k);
    } else {
      SettleTold(t, key, admitted, k);
      ToldThen(s, t, Settle(t, key, admitted), k);
    }
  }

  // ----- requests

  /** The handle a file starts the request with. */
  ghost function HandleAt(s: Worker, fate: Fate, k: FileKey): Disk
    requires k in s.open || fate.opening.OpenedAs?
  {
    if k in s.open then s.open[k].w.handle else fate.opening.handle.(log := [])
  }

  /** While the request was served a write to the file failed, or its opening did. */
  ghost predicate FaultIn(s: Worker, t: Worker, req: Request, fate: Fate, k: FileKey) {
    || (k in t.open && (k in s.open || fate.opening.OpenedAs?) && AWriteFailed(HandleAt(s, fate, k), t.open[k].w.handle))
    || (req.Article? && k == req.key && k.jobID !in s.cancelled && k !in s.completed && k !in s.open && fate.opening.OpenFailed?)
  }

  lemma UnopenedTold(s: Worker, req: Request, fate: Fate, k: FileKey)
    requires req.Article? && req.key.jobID !in s.cancelled && req.key !in s.completed && req.key !in s.open
    requires fate.opening.OpenFailed?
    ensures Faults(Dispatch(s, req, fate), k) == Faults(s, k) + if k == req.key then 1 else 0
    ensures Dispatch(s, req, fate).open == s.open
  {
    var more := [ArticlesUnwritten(req.key, [req.a.id]), WriteFaulted(req.key)];
    assert Dispatch(s, req, fate).calls == s.calls + more;
    assert multiset(s.calls + more) == multiset(s.calls) + multiset(more);
  }

  lemma IdleTold(s: Worker, req: Request, fate: Fate, k: FileKey)
    requires req.Article? && (req.key.jobID in s.cancelled || req.key in s.completed)
    ensures var t := Dispatch(s, req, fate); Faults(t, k) == Faults(s, k) && !FaultIn(s, t, req, fate, k)
  {
    var more := [ArticleRejected(req.key, req.a.id, AfterCompletion)];
    assert multiset(s.calls + more) == multiset(s.calls) + multiset(more);
  }

  lemma HandedTold(s: Worker, t: Worker, req: Request, fate: Fate, k: FileKey)
    requires AsHanded(s, t, req, fate)
    ensures var u := AtOpenFile(t, req.key, req.a, req.fatal, fate.victims);
            Faults(u, k) == Faults(s, k) + if FaultIn(s, u, req, fate, k) then 1 else 0
  {
    var u := AtOpenFile(t, req.key, req.a, req.fatal, fate.victims);
    AtOpenFileTold(t, req.key, req.a, req.fatal, fate.victims, k);
    if k in t.open {
      assert t.open[k].w.handle == HandleAt(s, fate, k);
    }
  }

  /**
   * An article's request reports a write fault on a file exactly once if one of the writes it made to the file
   * failed, or if the file is its own and could not be opened, and not otherwise.
   */
  lemma ArticleReportsFaults(s: Worker, req: Request, fate: Fate, k: FileKey)
    requires req.Article?
    ensures var t := Dispatch(s, req, fate);
            Faults(t, k) == Faults(s, k) + if FaultIn(s, t, req, fate, k) then 1 else 0
  {
    if req.key.jobID in s.cancelled || req.key in s.completed {
      IdleTold(s, req, fate, k);
    } else if req.key in s.open {
      HandedTold(s, s, req, fate, k);
    } else if fate.opening.OpenFailed? {
      UnopenedTold(s, req, fate, k);
    } else {
      HandedTold(s, OpenTarget(s, req.key, fate.opening.info, fate.opening.handle), req, fate, k);
    }
  }

  /** No other request reports one: a drain's or a close's goes into its reply. */
  lemma OthersReportNone(s: Worker, req: Request, fate: Fate, k: FileKey)
    requires !req.Article?
    ensures Faults(Dispatch(s, req, fate), k) == Faults(s, k)
  {
    ControlRaisesNone(s, req, fate, WriteFaulted(k));
  }

  // ----- what a fault took back is returned before the fault is reported

  /** From this call on no write fault has been reported. */
  ghost predicate NoneYet(s: Worker, n: nat) {
    forall i | n <= i < |s.calls| :: !s.calls[i].WriteFaulted?
  }

  /** From this call on, once a file's fault has been reported, none of its articles is returned, and none waits to be. */
  ghost predicate FaultsComeLast(s: Worker, n: nat) {
    forall i | n <= i < |s.calls| && s.calls[i].WriteFaulted? ::
      && (s.calls[i].key in s.open ==> s.open[s.calls[i].key].w.faulted == [])
      && forall j | i < j < |s.calls| && s.calls[j].ArticlesUnwritten? :: s.calls[j].key != s.calls[i].key
  }

  lemma RoutingReportsNoFault(key: FileKey, rolled: seq<Faulted>)
    ensures forall i | 0 <= i < |RouteCalls(key, rolled)| :: !RouteCalls(key, rolled)[i].WriteFaulted?
    ensures forall i | 0 <= i < |RouteCalls(key, rolled)| && RouteCalls(key, rolled)[i].ArticlesUnwritten? ::
              RouteCalls(key, rolled)[i].key == key
  {
    var calls := RejectCalls(key, rolled);
    forall i | 0 <= i < |calls| ensures !calls[i].WriteFaulted? && !calls[i].ArticlesUnwritten? {
      RejectionsOnly(key, rolled, i);
    }
  }

  lemma {:induction false} RejectionsOnly(key: FileKey, rolled: seq<Faulted>, i: nat)
    requires i < |RejectCalls(key, rolled)|
    ensures RejectCalls(key, rolled)[i].ArticleRejected? || RejectCalls(key, rolled)[i].PostAnomaly?
    decreases |rolled|
  {
    var n := |RejectOne(key, rolled[0])|;
    if i >= n {
      RejectionsOnly(key, rolled[1..], i - n);
    }
  }

  lemma ReleaseComesFirst(s: Worker, key: FileKey, n: nat)
    requires key in s.open && n <= |s.calls|
    ensures NoneYet(s, n) ==> NoneYet(ReleaseFaulted(s, key), n)
    ensures FaultsComeLast(s, n) ==> FaultsComeLast(ReleaseFaulted(s, key), n)
  {
    RoutingReportsNoFault(key, s.open[key].w.faulted);
  }

  lemma ReportComesLast(s: Worker, key: FileKey, n: nat)
    requires key in s.open && n <= |s.calls| && NoneYet(s, n)
    ensures FaultsComeLast(Say(ReleaseFaulted(s, key), [WriteFaulted(key)]), n)
  {
    ReleaseComesFirst(s, key, n);
  }

  lemma VictimReportsLast(s: Worker, key: FileKey, n: nat)
    requires n <= |s.calls| && NoneYet(s, n)
    ensures var (t, more) := FlushVictim(s, key);
            n <= |t.calls| && FaultsComeLast(t, n) && (more ==> NoneYet(t, n))
  {
    if key in s.perFile && s.perFile[key].articles != map[] && key in s.open {
      ReportComesLast(PutFile(s, key, FlushAll(FileOf(s, key)).0), key, n);
    }
  }

  lemma {:induction false} PressureReportsLast(s: Worker, victims: seq<FileKey>, n: nat)
    requires n <= |s.calls| && NoneYet(s, n)
    ensures n <= |RelievePressure(s, victims).calls| && FaultsComeLast(RelievePressure(s, victims), n)
    decreases |victims|
  {
    if Pressure(s) && victims != [] {
      VictimReportsLast(s, victims[0], n);
      if FlushVictim(s, victims[0]).1 {
        PressureReportsLast(FlushVictim(s, victims[0]).0, victims[1..], n);
      }
    }
  }

  lemma TakeOnReportsLast(s: Worker, key: FileKey, a: BufferedArticle, fatal: bool)
    requires key in s.open
    ensures var (t, admitted) := TakeOn(s, key, a, fatal);
            && |s.calls| <= |t.calls| && FaultsComeLast(t, |s.calls|) && (admitted ==> NoneYet(t, |s.calls|))
  {
    if !fatal {
      var (u, arrival) := DeliverAt(s, key, a);
      if !arrival.Duplicate? && arrival.result.WriteFault? {
        ReportComesLast(u, key, |s.calls|);
      }
    }
  }

  lemma SettleReportsLast(s: Worker, key: FileKey, admitted: bool, n: nat)
    requires key in s.open && n <= |s.calls| && FaultsComeLast(s, n)
    ensures FaultsComeLast(Settle(s, key, admitted), n)
  {
    ReleaseComesFirst(s, key, n);
  }

  /**
   * The articles a failed write took back are returned before the fault is reported: in a request, once a file's
   * fault has been reported nothing more of the file is returned, and when the request ends nothing waits to be.
   */
  lemma ReturnedBeforeReported(s: Worker, key: FileKey, a: BufferedArticle, fatal: bool, victims: seq<FileKey>)
    requires key in s.open
    ensures FaultsComeLast(AtOpenFile(s, key, a, fatal, victims), |s.calls|)
  {
    var (t, admitted) := TakeOn(s, key, a, fatal);
    TakeOnReportsLast(s, key, a, fatal);
    if admitted {
      PressureReportsLast(t, victims, |s.calls|);
      SettleReportsLast(RelievePressure(t, victims), key, admitted, |s.calls|);
    } else {
      SettleReportsLast(t, key, admitted, |s.calls|);
    }
  }
}
