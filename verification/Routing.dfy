/** Every article taken back is told to its owner exactly once. */
module Routing {
  import opened Types
  import opened FileBuffer
  import opened Writing
  import opened Assembly
  import opened WorkerMoves

  // The two ways an article is taken back, and the two ways its owner hears of it.
  datatype Way = Back | Out

  predicate Is(f: Faulted, id: int, way: Way) {
    f.id == id && (f.RolledBack? <==> way == Back)
  }

  /** How often an article occurs among the taken back. */
  function Times(rolled: seq<Faulted>, id: int, way: Way): nat
    decreases |rolled|
  {
    if rolled == [] then 0 else (if Is(rolled[0], id, way) then 1 else 0) + Times(rolled[1..], id, way)
  }

  lemma {:induction false} TimesAppend(rolled: seq<Faulted>, f: Faulted, id: int, way: Way)
    ensures Times(rolled + [f], id, way) == Times(rolled, id, way) + if Is(f, id, way) then 1 else 0
    decreases |rolled|
  {
    if rolled != [] {
      assert (rolled + [f])[1..] == rolled[1..] + [f];
      TimesAppend(rolled[1..], f, id, way);
    }
  }

  /** How often a writer took an article back and has since handed it on. */
  function Sent(w: Writer, id: int, way: Way): int {
    Times(w.rolled, id, way) - Times(w.faulted, id, way)
  }

  lemma RecordSends(w: Writer, f: Faulted, id: int, way: Way)
    ensures Sent(Record(w, f), id, way) == Sent(w, id, way)
  {
    TimesAppend(w.rolled, f, id, way);
    TimesAppend(w.faulted, f, id, way);
  }

  lemma FailSends(w: Writer, x: int, id: int, way: Way)
    ensures Sent(Fail(w, x), id, way) == Sent(w, id, way)
  {
    RecordSends(RollbackPart(w, x), RolledBack(x), id, way);
  }

  lemma {:induction false} AbandonSends(f: File, rest: seq<BufferedArticle>, id: int, way: Way)
    ensures Sent(Abandon(f, rest).w, id, way) == Sent(f.w, id, way)
    decreases |rest|
  {
    if rest != [] {
      FailSends(f.w, rest[0].id, id, way);
      AbandonSends(f.(w := Fail(f.w, rest[0].id), freed := f.freed + rest[0].data.Loan()), rest[1..], id, way);
    }
  }

  lemma {:induction false} WriteInOrderSends(f: File, arts: seq<BufferedArticle>, id: int, way: Way)
    ensures Sent(WriteInOrder(f, arts).0.w, id, way) == Sent(f.w, id, way)
    decreases |arts|
  {
    if arts != [] {
      var (g, ok) := WriteOne(f, arts[0]);
      WriteOneSends(f, arts[0], id, way);
      if ok {
        WriteInOrderSends(g, arts[1..], id, way);
      } else {
        AbandonSends(g, arts[1..], id, way);
      }
    }
  }

  lemma WriteOneSends(f: File, a: BufferedArticle, id: int, way: Way)
    ensures Sent(WriteOne(f, a).0.w, id, way) == Sent(f.w, id, way)
  {
    FailSends(f.w.(handle := WriteAt(f.w.handle, a.data.Bytes(), a.offset).0), a.id, id, way);
  }

  lemma {:induction false} NoteAllSends(w: Writer, parts: seq<RunPart>, id: int, way: Way)
    ensures Sent(NoteAll(w, parts), id, way) == Sent(w, id, way)
    decreases |parts|
  {
    if parts != [] {
      NoteAllSends(NoteWritten(w, parts[0]), parts[1..], id, way);
    }
  }

  lemma {:induction false} FailAllSends(w: Writer, parts: seq<RunPart>, id: int, way: Way)
    ensures Sent(FailAll(w, parts), id, way) == Sent(w, id, way)
    decreases |parts|
  {
    if parts != [] {
      FailSends(w, parts[0].id, id, way);
      FailAllSends(Fail(w, parts[0].id), parts[1..], id, way);
    }
  }

  lemma FlushAllSends(f: File, id: int, way: Way)
    ensures Sent(FlushAll(f).0.w, id, way) == Sent(f.w, id, way)
  {
    if f.buf.Some? {
      WriteInOrderSends(f.(buf := Some(Drained(f.buf.value))), Sorted(f.Articles()), id, way);
    }
  }

  lemma FlushContiguousSends(f: File, id: int, way: Way)
    ensures Sent(FlushContiguous(f).0.w, id, way) == Sent(f.w, id, way)
  {
    if f.buf.Some? && BuildRun(f.buf.value, CONTIGUOUS_RUN_SIZE).0.Some? {
      var run := BuildRun(f.buf.value, CONTIGUOUS_RUN_SIZE).0.value;
      var w := f.w.(handle := WriteAt(f.w.handle, run.data, run.offset).0);
      NoteAllSends(w, run.parts, id, way);
      FailAllSends(w, run.parts, id, way);
    }
  }

  lemma ClaimSends(f: File, off: int, arriving: int, id: int, way: Way)
    ensures Sent(Claim(f, off, arriving).w, id, way) == Sent(f.w, id, way)
  {
    if off in f.w.acceptedAt {
      var loser := f.w.acceptedAt[off].id;
      RecordSends(AdmitPermanentFailure(f.w, loser).0,
                  Displaced(loser, off, arriving, !f.w.postAnomalyReported), id, way);
    }
  }

  lemma AcceptSends(f: File, limit: int, a: BufferedArticle, id: int, way: Way)
    ensures Sent(Accept(f, limit, a).0.w, id, way) == Sent(f.w, id, way)
  {
    var g := Claim(f, a.offset, a.id);
    ClaimSends(f, a.offset, a.id, id, way);
    if limit > 0 && a.data.Len() > 0 {
      FlushContiguousSends(
        g.(buf := Some(PutArticle(g.Buffer(), a)), freed := g.freed + LoanAt(g.Articles(), a.offset)), id, way);
    } else {
      WriteOneSends(g, a, id, way);
    }
  }

  /** Only handing back hands anything on: whatever else takes an article back leaves it waiting. */
  lemma StepSends(f: File, limit: int, info: FileInfo, op: FileOp, id: int, way: Way)
    requires !op.HandBack?
    ensures Sent(Step(f, limit, info, op).w, id, way) == Sent(f.w, id, way)
  {
    match op
    case Arrive(a) =>
      if a.id !in f.w.seenDone {
        var w := if a.id in f.w.seenFailed then AdmitRetryOfFailed(f.w, a.id) else AdmitAccepted(f.w, a.id);
        AcceptSends(f.(w := w), limit, a, id, way);
      }
    case PressureFlush => FlushAllSends(f, id, way);
    case DrainFile => FlushAllSends(f, id, way);
    case _ =>
  }

  // ----- what the calls said, and what they owed

  function Mentions(c: Call, key: FileKey, id: int, way: Way): nat {
    match c
    case ArticlesUnwritten(k, arts) => if k == key && way == Back then multiset(arts)[id] else 0
    case ArticleRejected(k, art, reason) => if k == key && way == Out && art == id && reason.DisplacedByLater? then 1 else 0
    case _ => 0
  }

  /** How often the calls returned an article to Outstanding, or reported it displaced. */
  function Said(calls: seq<Call>, key: FileKey, id: int, way: Way): nat
    decreases |calls|
  {
    if calls == [] then 0 else Mentions(calls[0], key, id, way) + Said(calls[1..], key, id, way)
  }

  lemma {:induction false} SaidConcat(c: seq<Call>, d: seq<Call>, key: FileKey, id: int, way: Way)
    ensures Said(c + d, key, id, way) == Said(c, key, id, way) + Said(d, key, id, way)
    decreases |c|
  {
    if c == [] {
      assert c + d == d;
    } else {
      assert (c + d)[1..] == c[1..] + d;
      SaidConcat(c[1..], d, key, id, way);
    }
  }

  function SentIn(e: Episode, key: FileKey, id: int, way: Way): int {
    if e.key != key then 0
    else match e
      case Closed(_, w, _, _) => Sent(w, id, way)
      case NeverOpened(_, art) => if art == id && way == Back then 1 else 0
  }

  /** How often an article was handed on in the file's finished episodes. */
  function SentBefore(past: seq<Episode>, key: FileKey, id: int, way: Way): int
    decreases |past|
  {
    if past == [] then 0
    else SentBefore(past[..|past| - 1], key, id, way) + SentIn(past[|past| - 1], key, id, way)
  }

  function SentNow(s: Worker, key: FileKey, id: int, way: Way): int {
    if key in s.open then Sent(s.open[key].w, id, way) else 0
  }

  /** The owner heard of an article exactly as often as it was handed on. */
  ghost predicate Told(s: Worker, key: FileKey, id: int, way: Way) {
    Said(s.calls, key, id, way) == SentBefore(s.past, key, id, way) + SentNow(s, key, id, way)
  }

  lemma RejectOneSays(key: FileKey, r: Faulted, k: FileKey, id: int, way: Way)
    ensures Said(RejectOne(key, r), k, id, way) == if k == key && way == Out && Is(r, id, way) then 1 else 0
  {
    if r.Displaced? {
      var more := if r.firstCollision then [PostAnomaly(key)] else [];
      assert RejectOne(key, r)[1..] == more && Said(more, k, id, way) == 0;
    }
  }

  lemma {:induction false} RejectCallsSay(key: FileKey, rolled: seq<Faulted>, k: FileKey, id: int, way: Way)
    ensures Said(RejectCalls(key, rolled), k, id, way) == if k == key && way == Out then Times(rolled, id, way) else 0
    decreases |rolled|
  {
    if rolled != [] {
      SaidConcat(RejectOne(key, rolled[0]), RejectCalls(key, rolled[1..]), k, id, way);
      RejectOneSays(key, rolled[0], k, id, way);
      RejectCallsSay(key, rolled[1..], k, id, way);
    }
  }

  lemma {:induction false} UnwrittenIdsCount(rolled: seq<Faulted>, id: int)
    ensures multiset(UnwrittenIds(rolled))[id] == Times(rolled, id, Back)
    decreases |rolled|
  {
    if rolled != [] {
      UnwrittenIdsCount(rolled[1..], id);
    }
  }

  /** Routing a set mentions each article in it once, the right way, and no other. */
  lemma RouteCallsSay(key: FileKey, rolled: seq<Faulted>, k: FileKey, id: int, way: Way)
    ensures Said(RouteCalls(key, rolled), k, id, way) == if k == key then Times(rolled, id, way) else 0
  {
    RejectCallsSay(key, rolled, k, id, way);
    UnwrittenIdsCount(rolled, id);
    SaidConcat(RejectCalls(key, rolled), UnwrittenCall(key, UnwrittenIds(rolled)), k, id, way);
  }

  // ----- moves

  lemma PastAppend(past: seq<Episode>, e: Episode, key: FileKey, id: int, way: Way)
    ensures SentBefore(past + [e], key, id, way) == SentBefore(past, key, id, way) + SentIn(e, key, id, way)
  {
  }

  lemma ReleaseTold(s: Worker, key: FileKey, k: FileKey, id: int, way: Way)
    requires Told(s, k, id, way) && key in s.open
    ensures Told(ReleaseFaulted(s, key), k, id, way)
  {
    RouteCallsSay(key, s.open[key].w.faulted, k, id, way);
    SaidConcat(s.calls, RouteCalls(key, s.open[key].w.faulted), k, id, way);
  }

  lemma SayTold(s: Worker, calls: seq<Call>, k: FileKey, id: int, way: Way)
    requires Told(s, k, id, way) && Said(calls, k, id, way) == 0
    ensures Told(Say(s, calls), k, id, way)
  {
    SaidConcat(s.calls, calls, k, id, way);
  }

  lemma CloseTold(s: Worker, key: FileKey, ending: Ending, k: FileKey, id: int, way: Way)
    requires Told(s, k, id, way) && key in s.open
    ensures Told(Close(s, key, ending), k, id, way)
  {
  }

  lemma OpenFailureTold(s: Worker, key: FileKey, a: BufferedArticle, k: FileKey, id: int, way: Way)
    requires Told(s, k, id, way) && key !in s.open
    ensures Told(OpenFailure(s, key, a), k, id, way)
  {
    var calls := [ArticlesUnwritten(key, [a.id]), WriteFaulted(key)];
    PastAppend(s.past, NeverOpened(key, a.id), k, id, way);
    SaidConcat(s.calls, calls, k, id, way);
    assert calls[1..] == [WriteFaulted(key)];
    assert multiset([a.id]) == multiset{a.id};
    assert Said(calls, k, id, way) == Mentions(calls[0], k, id, way) + Said([WriteFaulted(key)], k, id, way);
  }

  lemma RejectTold(s: Worker, key: FileKey, art: int, reason: Reason, anomaly: bool, k: FileKey, id: int, way: Way)
    requires Told(s, k, id, way) && key in s.open && !reason.DisplacedByLater?
    ensures Told(RouteAccept(s, key, art, Rejected(reason, anomaly)), k, id, way)
  {
    var more := if anomaly then [PostAnomaly(key)] else [];
    SaidConcat([ArticleRejected(key, art, reason)], more, k, id, way);
    SayTold(s, [ArticleRejected(key, art, reason)] + more, k, id, way);
  }

  lemma MoveTold(s: Worker, m: Move, A: Demand, k: FileKey, id: int, way: Way)
    requires Can(s, m, A) && Told(s, k, id, way)
    ensures Told(Do(s, m, A), k, id, way)
  {
    match m
    case Deliver(key, a) => StepSends(FileOf(s, key), s.limit, s.open[key].info, Arrive(a), id, way);
    case DeliverLate(key, a) =>
      SayTold(s.(freed := s.freed + a.data.Loan()), [ArticleRejected(key, a.id, AfterCompletion)], k, id, way);
    case DeliverUnopened(key, a) => OpenFailureTold(s, key, a, k, id, way);
    case Act(key, op) => StepSends(FileOf(s, key), s.limit, s.open[key].info, op, id, way);
    case Release(key) => ReleaseTold(s, key, k, id, way);
    case Reject(key, art, reason, anomaly) => RejectTold(s, key, art, reason, anomaly, k, id, way);
    case Fault(key) => SayTold(s, [WriteFaulted(key)], k, id, way);
    case Finalize(key) => SayTold(s.(completed := s.completed + {key}), 
                   [FileComplete(key, s.open[key].info, FileOf(s, key))], k, id, way);
    case End(key, ending) => CloseTold(s, key, ending, k, id, way);
    case _ =>
  }

  // ----- nothing waits between requests

  ghost predicate QuietBut(s: Worker, key: FileKey) {
    forall k | k in s.open && k != key :: s.open[k].w.faulted == []
  }

  /** No open file has an article taken back and not yet handed on. */
  ghost predicate Quiet(s: Worker) {
    forall k | k in s.open :: s.open[k].w.faulted == []
  }

  ghost predicate AllRolledBack(faulted: seq<Faulted>) {
    forall i | 0 <= i < |faulted| :: faulted[i].RolledBack?
  }

  /** The only set ever dropped: what the last drain of a cancelled file being kept took back. */
  ghost predicate NoneLost(past: seq<Episode>) {
    forall i | 0 <= i < |past| && past[i].Closed? && past[i].w.faulted != [] ::
      past[i].ending == Kept(false) && AllRolledBack(past[i].w.faulted)
  }

  /** Articles have been taken back, if at all, by writes; no other has been failed for good, and nobody warned. */
  ghost predicate OnlyRolledBack(w: Writer, v: Writer) {
    && v.seenFailed == w.seenFailed && v.postAnomalyReported == w.postAnomalyReported
    && w.faulted <= v.faulted && AllRolledBack(v.faulted[|w.faulted|..])
  }

  lemma RolledBackStill(u: Writer, v: Writer, w: Writer)
    requires OnlyRolledBack(u, v) && OnlyRolledBack(v, w)
    ensures OnlyRolledBack(u, w)
  {
    forall i | 0 <= i < |w.faulted[|u.faulted|..]| ensures w.faulted[|u.faulted|..][i].RolledBack? {
      if i < |v.faulted| - |u.faulted| {
        assert w.faulted[|u.faulted|..][i] == v.faulted[|u.faulted|..][i];
      } else {
        assert w.faulted[|u.faulted|..][i] == w.faulted[|v.faulted|..][i - (|v.faulted| - |u.faulted|)];
      }
    }
  }

  lemma {:induction false} AbandonRollsBack(f: File, rest: seq<BufferedArticle>)
    ensures OnlyRolledBack(f.w, Abandon(f, rest).w)
    decreases |rest|
  {
    if rest != [] {
      var h := f.(w := Fail(f.w, rest[0].id), freed := f.freed + rest[0].data.Loan());
      AbandonRollsBack(h, rest[1..]);
      RolledBackStill(f.w, h.w, Abandon(f, rest).w);
    }
  }

  /** A batch takes articles back only by failed writes, and one that is written to its end takes none. */
  lemma {:induction false} WrittenThrough(f: File, arts: seq<BufferedArticle>)
    ensures OnlyRolledBack(f.w, WriteInOrder(f, arts).0.w)
    ensures WriteInOrder(f, arts).1 ==> WriteInOrder(f, arts).0.w.faulted == f.w.faulted
    decreases |arts|
  {
    if arts != [] {
      var (g, ok) := WriteOne(f, arts[0]);
      if ok {
        WrittenThrough(g, arts[1..]);
      } else {
        AbandonRollsBack(g, arts[1..]);
      }
      RolledBackStill(f.w, g.w, WriteInOrder(f, arts).0.w);
    }
  }

  lemma FlushedThrough(f: File)
    ensures OnlyRolledBack(f.w, FlushAll(f).0.w)
    ensures FlushAll(f).1 ==> FlushAll(f).0.w.faulted == f.w.faulted
  {
    if f.buf.Some? {
      WrittenThrough(f.(buf := Some(Drained(f.buf.value))), Sorted(f.Articles()));
    }
  }

  lemma VictimQuiet(s: Worker, victim: FileKey, key: FileKey)
    requires QuietBut(s, key)
    ensures QuietBut(FlushVictim(s, victim).0, key) && FlushVictim(s, victim).0.past == s.past
  {
    if victim in s.perFile && s.perFile[victim].articles != map[] && victim in s.open {
      FlushedThrough(FileOf(s, victim));
    }
  }

  lemma {:induction false} PressureQuiet(s: Worker, victims: seq<FileKey>, key: FileKey)
    requires QuietBut(s, key)
    ensures QuietBut(RelievePressure(s, victims), key) && RelievePressure(s, victims).past == s.past
    decreases |victims|
  {
    if Pressure(s) && victims != [] {
      VictimQuiet(s, victims[0], key);
      var (t, more) := FlushVictim(s, victims[0]);
      if more {
        PressureQuiet(t, victims[1..], key);
      }
    }
  }

  lemma PutQuiet(s: Worker, key: FileKey, f: File)
    requires QuietBut(s, key) && key in s.open
    ensures QuietBut(PutFile(s, key, f), key) && PutFile(s, key, f).past == s.past
  {
  }

  lemma RouteQuiet(s: Worker, key: FileKey, id: int, r: AcceptResult)
    requires QuietBut(s, key) && key in s.open
    ensures QuietBut(RouteAccept(s, key, id, r), key) && RouteAccept(s, key, id, r).past == s.past
  {
  }

  lemma TakeOnQuiet(s: Worker, key: FileKey, a: BufferedArticle, fatal: bool)
    requires QuietBut(s, key) && key in s.open
    ensures QuietBut(TakeOn(s, key, a, fatal).0, key) && TakeOn(s, key, a, fatal).0.past == s.past
  {
    if !fatal {
      var (f, arrival) := HandleSuccess(FileOf(s, key), s.limit, s.open[key].info, a);
      PutQuiet(s, key, f);
      match arrival
      case Duplicate =>
      case Retried(r) => RouteQuiet(PutFile(s, key, f), key, a.id, r);
      case Admitted(r) => RouteQuiet(PutFile(s, key, f), key, a.id, r);
    }
  }

  lemma AtOpenFileQuiet(s: Worker, key: FileKey, a: BufferedArticle, fatal: bool, victims: seq<FileKey>)
    requires QuietBut(s, key) && key in s.open
    ensures Quiet(AtOpenFile(s, key, a, fatal, victims)) && AtOpenFile(s, key, a, fatal, victims).past == s.past
  {
    var (t, admitted) := TakeOn(s, key, a, fatal);
    TakeOnQuiet(s, key, a, fatal);
    PressureQuiet(t, victims, key);
  }

  lemma DrainAndCloseQuiet(s: Worker, key: FileKey)
    requires Quiet(s) && NoneLost(s.past) && key in s.open
    ensures Quiet(DrainAndClose(s, key)) && NoneLost(DrainAndClose(s, key).past)
  {
  }

  lemma CloseCancelledQuiet(s: Worker, key: FileKey, keep: bool)
    requires Quiet(s) && NoneLost(s.past) && key in s.open
    ensures Quiet(CloseCancelled(s, key, keep)) && NoneLost(CloseCancelled(s, key, keep).past)
  {
    FlushedThrough(FileOf(s, key));
  }

  lemma {:induction false} CancelQuiet(s: Worker, keys: seq<FileKey>, keep: bool)
    requires Quiet(s) && NoneLost(s.past)
    ensures Quiet(CancelFiles(s, keys, keep)) && NoneLost(CancelFiles(s, keys, keep).past)
    decreases |keys|
  {
    if keys == [] {
    } else if keys[0] in s.open {
      CloseCancelledQuiet(s, keys[0], keep);
      CancelQuiet(Tombstone(CloseCancelled(s, keys[0], keep), keys[0]), keys[1..], keep);
    } else {
      CancelQuiet(s, keys[1..], keep);
    }
  }

  lemma {:induction false} CloseFilesQuiet(s: Worker, keys: seq<FileKey>)
    requires Quiet(s) && NoneLost(s.past)
    ensures Quiet(CloseFiles(s, keys)) && NoneLost(CloseFiles(s, keys).past)
    decreases |keys|
  {
    if keys == [] {
    } else if keys[0] in s.open {
      DrainAndCloseQuiet(s, keys[0]);
      CloseFilesQuiet(Tombstone(DrainAndClose(s, keys[0]), keys[0]), keys[1..]);
    } else {
      CloseFilesQuiet(s, keys[1..]);
    }
  }

  lemma OpenedQuiet(s: Worker, key: FileKey, info: FileInfo, handle: Disk)
    requires Quiet(s) && key !in s.open
    ensures var u := OpenTarget(s, key, info, handle); QuietBut(u, key) && u.past == s.past
  {
  }

  lemma ArticleQuiet(s: Worker, key: FileKey, a: BufferedArticle, fatal: bool, fate: Fate)
    requires Quiet(s) && NoneLost(s.past)
    ensures var t := Dispatch(s, Article(key, a, fatal), fate); Quiet(t) && NoneLost(t.past)
  {
    if key.jobID !in s.cancelled && key !in s.completed {
      if key in s.open {
        AtOpenFileQuiet(s, key, a, fatal, fate.victims);
      } else if fate.opening.OpenedAs? {
        var u := OpenTarget(s, key, fate.opening.info, fate.opening.handle);
        OpenedQuiet(s, key, fate.opening.info, fate.opening.handle);
        AtOpenFileQuiet(u, key, a, fatal, fate.victims);
      }
    }
  }

  lemma DispatchQuiet(s: Worker, req: Request, fate: Fate)
    requires Quiet(s) && NoneLost(s.past)
    ensures Quiet(Dispatch(s, req, fate)) && NoneLost(Dispatch(s, req, fate).past)
  {
    match req
    case Article(key, a, fatal) => ArticleQuiet(s, key, a, fatal, fate);
    case CancelJob(job, keep) => CancelQuiet(s.(cancelled := s.cancelled + {job}), fate.order, keep);
    case CloseHandles(job) => CloseFilesQuiet(s, fate.order);
    case SyncClose(key) => if key in s.open { DrainAndCloseQuiet(s, key); }
    case _ =>
  }

  lemma {:induction false} ServeQuiet(limit: int, reqs: seq<Request>, fates: seq<Fate>)
    requires |fates| == |reqs|
    ensures Quiet(Serve(NewWorker(limit), reqs, fates)) && NoneLost(Serve(NewWorker(limit), reqs, fates).past)
    decreases |reqs|
  {
    if reqs != [] {
      var n := |reqs| - 1;
      ServeQuiet(limit, reqs[..n], fates[..n]);
      DispatchQuiet(Serve(NewWorker(limit), reqs[..n], fates[..n]), reqs[n], fates[n]);
    }
  }

  // ----- over every run

  /** How often an article was ever taken back from a file's finished episodes, leaving out the sets dropped. */
  function TakenBefore(past: seq<Episode>, key: FileKey, id: int, way: Way): int
    decreases |past|
  {
    if past == [] then 0
    else
      var e := past[|past| - 1];
      TakenBefore(past[..|past| - 1], key, id, way)
      + if e.key != key then 0
        else match e
          case Closed(_, w, _, Kept(false)) => Times(w.rolled, id, way) - Times(w.faulted, id, way)
          case Closed(_, w, _, _) => Times(w.rolled, id, way)
          case NeverOpened(_, art) => if art == id && way == Back then 1 else 0
  }

  function TakenNow(s: Worker, key: FileKey, id: int, way: Way): nat {
    if key in s.open then Times(s.open[key].w.rolled, id, way) else 0
  }

  lemma {:induction false} QuietEpisodesSentAll(past: seq<Episode>, key: FileKey, id: int, way: Way)
    requires NoneLost(past)
    ensures SentBefore(past, key, id, way) == TakenBefore(past, key, id, way)
    decreases |past|
  {
    if past != [] {
      QuietEpisodesSentAll(past[..|past| - 1], key, id, way);
    }
  }

  /**
   * After every request of every run, whatever faulted: each article has been returned to Outstanding
   * once for every time a write lost it or its file failed to open, and reported displaced once for
   * every time it was displaced. The articles of a kept file's failed last drain are the only ones
   * dropped, and no open file has any waiting.
   */
  lemma EveryArticleIsRoutedOnce(limit: int, reqs: seq<Request>, fates: seq<Fate>, key: FileKey, id: int, way: Way)
    requires |fates| == |reqs|
    ensures var s := Serve(NewWorker(limit), reqs, fates);
            && Quiet(s) && NoneLost(s.past)
            && Said(s.calls, key, id, way) == TakenBefore(s.past, key, id, way) + TakenNow(s, key, id, way)
  {
    var W := (s: Worker) => Told(s, key, id, way);
    var A: Demand := (k, a) => true;
    var s := Serve(NewWorker(limit), reqs, fates);
    forall s: Worker, m: Move | W(s) && Can(s, m, A) ensures W(Do(s, m, A)) {
      MoveTold(s, m, A, key, id, way);
    }
    ServeKeeps(NewWorker(limit), reqs, fates, W, A);
    ServeQuiet(limit, reqs, fates);
    QuietEpisodesSentAll(s.past, key, id, way);
  }
}
