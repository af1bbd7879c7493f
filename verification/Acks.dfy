/** Barriers drain, ack and confirm while articles keep arriving: no claim ever made goes unacked and unreported. */
module Acks {
  import opened Types
  import opened FileBuffer
  import opened Writing
  import opened WriterInvariant
  import opened WriterRuns
  import opened BarrierLocks
  import Assembly
  import Drains
  import Replies

  // ----- a file between a drain and its confirmation

  /** Whatever was written since is noted and waiting for the next drain; the last report stands. */
  ghost predicate Grew(w: Writer, v: Writer) {
    v.reported == w.reported && w.noted <= v.noted && |v.noted| - |v.written| == |w.noted| - |w.written|
  }

  lemma {:induction false} NoteAllGrows(w: Writer, parts: seq<RunPart>)
    ensures Grew(w, NoteAll(w, parts))
    decreases |parts|
  {
    if parts != [] {
      NoteAllGrows(NoteWritten(w, parts[0]), parts[1..]);
    }
  }

  lemma {:induction false} FailAllGrows(w: Writer, parts: seq<RunPart>)
    ensures Grew(w, FailAll(w, parts))
    decreases |parts|
  {
    if parts != [] {
      FailAllGrows(Fail(w, parts[0].id), parts[1..]);
    }
  }

  lemma {:induction false} AbandonGrows(f: File, rest: seq<BufferedArticle>)
    ensures Grew(f.w, Abandon(f, rest).w)
    decreases |rest|
  {
    if rest != [] {
      AbandonGrows(f.(w := Fail(f.w, rest[0].id), freed := f.freed + rest[0].data.Loan()), rest[1..]);
    }
  }

  lemma {:induction false} WriteInOrderGrows(f: File, arts: seq<BufferedArticle>)
    ensures Grew(f.w, WriteInOrder(f, arts).0.w)
    decreases |arts|
  {
    if arts != [] {
      var (g, ok) := WriteOne(f, arts[0]);
      assert Grew(f.w, g.w);
      if ok {
        WriteInOrderGrows(g, arts[1..]);
      } else {
        AbandonGrows(g, arts[1..]);
      }
    }
  }

  lemma FlushAllGrows(f: File)
    ensures Grew(f.w, FlushAll(f).0.w)
  {
    if f.buf.Some? {
      WriteInOrderGrows(f.(buf := Some(Drained(f.buf.value))), Sorted(f.Articles()));
    }
  }

  lemma FlushContiguousGrows(f: File)
    ensures Grew(f.w, FlushContiguous(f).0.w)
  {
    if f.buf.Some? && BuildRun(f.buf.value, CONTIGUOUS_RUN_SIZE).0.Some? {
      var run := BuildRun(f.buf.value, CONTIGUOUS_RUN_SIZE).0.value;
      var w := f.w.(handle := WriteAt(f.w.handle, run.data, run.offset).0);
      NoteAllGrows(w, run.parts);
      FailAllGrows(w, run.parts);
    }
  }

  lemma AcceptGrows(f: File, limit: int, a: BufferedArticle)
    ensures Grew(f.w, Accept(f, limit, a).0.w)
  {
    var g := Claim(f, a.offset, a.id);
    assert Grew(f.w, g.w);
    if limit > 0 && a.data.Len() > 0 {
      FlushContiguousGrows(
        g.(buf := Some(PutArticle(g.Buffer(), a)), freed := g.freed + LoanAt(g.Articles(), a.offset)));
    }
  }

  lemma WorkGrows(f: File, limit: int, info: FileInfo, op: FileOp)
    requires !op.DrainFile? && !op.ConfirmFile?
    ensures Grew(f.w, Step(f, limit, info, op).w)
  {
    match op
    case Arrive(a) =>
      if a.id !in f.w.seenDone {
        var w := if a.id in f.w.seenFailed then AdmitRetryOfFailed(f.w, a.id) else AdmitAccepted(f.w, a.id);
        AcceptGrows(f.(w := w), limit, a);
      }
    case PressureFlush => FlushAllGrows(f);
    case _ =>
  }

  // ----- the system: the lock protocol, the open files, each holder's cycle, and what has been acked

  /**
   * One barrier from its first drain on: what its drains returned, which of those files it has synced, whether an
   * error has stopped it, and whether it has acked.
   */
  datatype Cycle = Cycle(reports: map<FileKey, seq<WrittenArticle>>, synced: set<FileKey>, stopped: bool, acked: bool)

  datatype System = System(
    locks: Protocol,
    files: map<FileKey, File>,
    cycles: map<nat, Cycle>,
    acked: map<FileKey, set<WrittenArticle>>)

  datatype Event =
    | LockEvent(turn: Turn)
    // The worker serving anything but a barrier.
    | Work(key: FileKey, info: FileInfo, op: FileOp)
    // What the worker answers a drain and a sync is all the barrier goes by.
    | DrainBy(c: nat, key: FileKey, storage: Assembly.Storage)
    | SyncBy(c: nat, key: FileKey, storage: Assembly.Storage)
    | AckBy(c: nat)
    | ConfirmBy(c: nat, key: FileKey)

  ghost predicate InBarrier(s: System, c: nat) {
    c in s.locks.callers && s.locks.callers[c].Holding? && c in s.cycles
  }

  ghost predicate GoingOn(s: System, c: nat) {
    InBarrier(s, c) && !s.cycles[c].stopped && !s.cycles[c].acked
  }

  /**
   * First every file is drained, then each of them is synced, then what they reported is acked. A barrier may fail
   * at any point: it unlocks and leaves its cycle as it is.
   */
  ghost predicate Enabled(s: System, e: Event) {
    match e
    case LockEvent(t) => Ready(s.locks, t)
    case Work(key, _, op) => key in s.files && !op.DrainFile? && !op.ConfirmFile?
    case DrainBy(c, key, _) =>
      && GoingOn(s, c) && key in s.files && key.jobID == s.locks.callers[c].job
      && s.cycles[c].synced == {} && key !in s.cycles[c].reports
    case SyncBy(c, key, _) => GoingOn(s, c) && key in s.files && key in s.cycles[c].reports
    case AckBy(c) => GoingOn(s, c) && s.cycles[c].reports.Keys <= s.cycles[c].synced
    case ConfirmBy(c, key) => InBarrier(s, c) && s.cycles[c].acked && key in s.cycles[c].reports && key in s.files
  }

  function AfterDrain(y: Cycle, key: FileKey, r: Replies.SyncReply): Cycle {
    if r.err.None? then y.(reports := y.reports[key := r.written]) else y.(stopped := true)
  }

  function AfterSync(y: Cycle, key: FileKey, r: Replies.SyncReply): Cycle {
    if r.err.None? then y.(synced := y.synced + {key}) else y.(stopped := true)
  }

  function AckedOf(s: System, key: FileKey): set<WrittenArticle> {
    if key in s.acked then s.acked[key] else {}
  }

  function Elems(report: seq<WrittenArticle>): set<WrittenArticle> {
    set r | r in report
  }

  function AckAll(s: System, reports: map<FileKey, seq<WrittenArticle>>): map<FileKey, set<WrittenArticle>> {
    map k | k in s.acked.Keys + reports.Keys :: AckedOf(s, k) + if k in reports then Elems(reports[k]) else {}
  }

  ghost function Happen(s: System, limit: int, e: Event): System
    requires Enabled(s, e)
  {
    match e
    case LockEvent(t) =>
      s.(locks := TakeTurn(s.locks, t),
         cycles := if t.LockMutex? then s.cycles[t.c := Cycle(map[], {}, false, false)]
                   else if t.UnlockMutex? then s.cycles - {t.c} else s.cycles)
    case Work(key, info, op) => s.(files := s.files[key := Step(s.files[key], limit, info, op)])
    case DrainBy(c, key, st) =>
      s.(files := s.files[key := Drain(s.files[key]).0],
         cycles := s.cycles[c := AfterDrain(s.cycles[c], key, Replies.DrainReply(s.files[key], st))])
    case SyncBy(c, key, st) => s.(cycles := s.cycles[c := AfterSync(s.cycles[c], key, Replies.FsyncReply(st))])
    case AckBy(c) =>
      s.(acked := AckAll(s, s.cycles[c].reports), cycles := s.cycles[c := s.cycles[c].(acked := true)])
    case ConfirmBy(c, key) => s.(files := s.files[key := Confirm(s.files[key])])
  }

  ghost function History(s: System, limit: int, events: seq<Event>): System
    decreases |events|
  {
    if events == [] then s
    else
      var t := History(s, limit, events[..|events| - 1]);
      if Enabled(t, events[|events| - 1]) then Happen(t, limit, events[|events| - 1]) else t
  }

  ghost function Start(handles: map<FileKey, Disk>): System {
    System(IDLE, map k | k in handles :: NewFile(handles[k]), map[], map[])
  }

  // ----- what every history keeps

  /** Every claim but those still to be reported, or reported and unconfirmed, has been acked. */
  ghost predicate NoneForgotten(w: Writer, acked: set<WrittenArticle>) {
    forall i | 0 <= i < |w.noted| - |w.reported| - |w.written| :: w.noted[i] in acked
  }

  /** What a barrier in progress drained is still what the file holds reported, and is acked if it says so. */
  ghost predicate CycleCurrent(s: System, c: nat) {
    InBarrier(s, c) ==>
      forall k | k in s.cycles[c].reports ::
        && k.jobID == s.locks.callers[c].job
        && (k in s.files ==>
              && (s.files[k].w.reported == s.cycles[c].reports[k] || s.files[k].w.reported == [])
              && (s.cycles[c].acked ==> Elems(s.cycles[c].reports[k]) <= AckedOf(s, k)))
  }

  ghost predicate FileSecure(f: File, acked: set<WrittenArticle>) {
    Inv(f, []) && NoneForgotten(f.w, acked)
  }

  ghost predicate FilesSecure(s: System) {
    forall k | k in s.files :: FileSecure(s.files[k], AckedOf(s, k))
  }

  ghost predicate CyclesHeld(s: System) {
    forall c | c in s.cycles :: c in s.locks.callers && s.locks.callers[c].Holding?
  }

  ghost predicate CyclesCurrent(s: System) {
    forall c :: CycleCurrent(s, c)
  }

  ghost predicate Secure(s: System) {
    Orderly(s.locks) && CyclesHeld(s) && FilesSecure(s) && CyclesCurrent(s)
  }

  /** Only one barrier can have drained a file and not yet left. */
  lemma OnlyOneCycle(s: System, c: nat, d: nat, k: FileKey)
    requires OneMutex(s.locks) && Exclusive(s.locks) && CyclesCurrent(s) && InBarrier(s, c) && InBarrier(s, d)
    requires s.locks.callers[c].job == k.jobID && k in s.cycles[d].reports
    ensures c == d
  {
    assert CycleCurrent(s, d);
  }

  /** A file that changed without a drain leaves every cycle as it was. */
  lemma CyclesStay(s: System, t: System, key: FileKey, f: File)
    requires CyclesCurrent(s) && key in s.files && t == s.(files := s.files[key := f])
    requires f.w.reported == s.files[key].w.reported || f.w.reported == []
    ensures CyclesCurrent(t)
  {
    forall c ensures CycleCurrent(t, c) {
      assert CycleCurrent(s, c);
    }
  }

  lemma LockKeepsCycles(s: System, limit: int, t: Turn)
    requires CyclesCurrent(s) && CyclesHeld(s) && Ready(s.locks, t)
    ensures CyclesCurrent(Happen(s, limit, LockEvent(t))) && CyclesHeld(Happen(s, limit, LockEvent(t)))
  {
    var u := Happen(s, limit, LockEvent(t));
    forall c ensures CycleCurrent(u, c) {
      assert CycleCurrent(s, c);
    }
  }

  lemma WorkKeepsFile(f: File, limit: int, info: FileInfo, op: FileOp, acked: set<WrittenArticle>)
    requires FileSecure(f, acked) && !op.DrainFile? && !op.ConfirmFile?
    ensures FileSecure(Step(f, limit, info, op), acked) && Step(f, limit, info, op).w.reported == f.w.reported
  {
    StepKeepsInv(f, limit, info, op);
    WorkGrows(f, limit, info, op);
  }

  lemma DrainKeepsFile(f: File, acked: set<WrittenArticle>)
    requires FileSecure(f, acked)
    ensures FileSecure(Drain(f).0, acked)
  {
    DrainKeepsInv(f);
    FlushAllGrows(f);
  }

  lemma DrainKeepsCycles(s: System, limit: int, c: nat, key: FileKey, st: Assembly.Storage)
    requires OneMutex(s.locks) && Exclusive(s.locks) && CyclesCurrent(s) && Enabled(s, DrainBy(c, key, st))
    ensures CyclesCurrent(Happen(s, limit, DrainBy(c, key, st)))
  {
    var t := Happen(s, limit, DrainBy(c, key, st));
    forall d ensures CycleCurrent(t, d) {
      assert CycleCurrent(s, d);
      if InBarrier(s, d) && key in s.cycles[d].reports {
        OnlyOneCycle(s, c, d, key);
      }
    }
  }

  lemma AckKeepsFiles(s: System, limit: int, c: nat)
    requires FilesSecure(s) && Enabled(s, AckBy(c))
    ensures FilesSecure(Happen(s, limit, AckBy(c)))
  {
    var t := Happen(s, limit, AckBy(c));
    forall k | k in t.files ensures FileSecure(t.files[k], AckedOf(t, k)) {
      MoreAcked(s.files[k], AckedOf(s, k), AckedOf(t, k));
    }
  }

  lemma MoreAcked(f: File, acked: set<WrittenArticle>, more: set<WrittenArticle>)
    requires FileSecure(f, acked) && acked <= more
    ensures FileSecure(f, more)
  {
  }

  lemma SyncKeepsCycles(s: System, limit: int, c: nat, key: FileKey, st: Assembly.Storage)
    requires CyclesCurrent(s) && Enabled(s, SyncBy(c, key, st))
    ensures CyclesCurrent(Happen(s, limit, SyncBy(c, key, st)))
  {
    var t := Happen(s, limit, SyncBy(c, key, st));
    forall d ensures CycleCurrent(t, d) {
      assert CycleCurrent(s, d);
    }
  }

  lemma AckKeepsCycles(s: System, limit: int, c: nat)
    requires CyclesCurrent(s) && Enabled(s, AckBy(c))
    ensures CyclesCurrent(Happen(s, limit, AckBy(c)))
  {
    var t := Happen(s, limit, AckBy(c));
    forall d ensures CycleCurrent(t, d) {
      assert CycleCurrent(s, d);
    }
  }

  lemma ConfirmKeepsFile(s: System, c: nat, key: FileKey)
    requires FilesSecure(s) && CyclesCurrent(s) && Enabled(s, ConfirmBy(c, key))
    ensures FileSecure(Confirm(s.files[key]), AckedOf(s, key))
  {
    assert CycleCurrent(s, c);
    ConfirmIsSafe(s.files[key], 0, AckedOf(s, key));
  }

  /** The claims of the last report are the file's last claims but for those written since. */
  lemma ReportIsNoted(w: Writer, i: nat)
    requires ClaimsArePending(w) && i < |w.reported|
    ensures var n := |w.noted| - |w.reported| - |w.written|;
            0 <= n && n + i < |w.noted| && w.noted[n + i] == w.reported[i]
  {
    var all := w.reported + w.written;
    assert w.noted[|w.noted| - |all| + i] == all[i];
  }

  lemma ReleasingForgetsNone(w: Writer, acked: set<WrittenArticle>)
    requires ClaimsArePending(w) && NoneForgotten(w, acked)
    ensures NoneForgotten(w.(reported := []), acked) <==> Elems(w.reported) <= acked
  {
    var n := |w.noted| - |w.reported| - |w.written|;
    if Elems(w.reported) <= acked {
      forall i | 0 <= i < |w.noted| - |w.written| ensures w.noted[i] in acked {
        if i >= n {
          ReportIsNoted(w, i - n);
          assert w.reported[i - n] in Elems(w.reported);
        }
      }
    }
    if NoneForgotten(w.(reported := []), acked) {
      forall r | r in Elems(w.reported) ensures r in acked {
        var i :| 0 <= i < |w.reported| && w.reported[i] == r;
        ReportIsNoted(w, i);
        assert w.(reported := []).noted[n + i] in acked;
      }
    }
  }

  /** Confirming is safe exactly when the report it releases has been acked. */
  lemma ConfirmIsSafe(f: File, limit: int, acked: set<WrittenArticle>)
    requires Inv(f, []) && NoneForgotten(f.w, acked)
    ensures Inv(Confirm(f), [])
    ensures NoneForgotten(Confirm(f).w, acked) <==> Elems(f.w.reported) <= acked
  {
    StepKeepsInv(f, limit, FileInfo(0, 0), ConfirmFile);
    ReleasingForgetsNone(f.w, acked);
  }

  lemma FileEventKeepsSecure(s: System, t: System, key: FileKey, f: File)
    requires Secure(s) && key in s.files && t == s.(files := s.files[key := f])
    requires FileSecure(f, AckedOf(s, key))
    requires f.w.reported == s.files[key].w.reported || f.w.reported == []
    ensures Secure(t)
  {
    CyclesStay(s, t, key, f);
  }

  lemma LockKeepsSecure(s: System, limit: int, t: Turn)
    requires Secure(s) && Enabled(s, LockEvent(t))
    ensures Secure(Happen(s, limit, LockEvent(t)))
  {
    TurnKeepsOrder(s.locks, t);
    LockKeepsCycles(s, limit, t);
  }

  lemma DrainKeepsSecure(s: System, limit: int, c: nat, key: FileKey, st: Assembly.Storage)
    requires Secure(s) && Enabled(s, DrainBy(c, key, st))
    ensures Secure(Happen(s, limit, DrainBy(c, key, st)))
  {
    DrainKeepsFile(s.files[key], AckedOf(s, key));
    DrainKeepsCycles(s, limit, c, key, st);
  }

  lemma EventKeepsSecure(s: System, limit: int, e: Event)
    requires Secure(s) && Enabled(s, e)
    ensures Secure(Happen(s, limit, e))
  {
    var t := Happen(s, limit, e);
    if e.LockEvent? {
      LockKeepsSecure(s, limit, e.turn);
    } else if e.Work? {
      WorkKeepsFile(s.files[e.key], limit, e.info, e.op, AckedOf(s, e.key));
      FileEventKeepsSecure(s, t, e.key, t.files[e.key]);
    } else if e.DrainBy? {
      DrainKeepsSecure(s, limit, e.c, e.key, e.storage);
    } else if e.SyncBy? {
      SyncKeepsCycles(s, limit, e.c, e.key, e.storage);
    } else if e.AckBy? {
      AckKeepsFiles(s, limit, e.c);
      AckKeepsCycles(s, limit, e.c);
    } else {
      ConfirmKeepsFile(s, e.c, e.key);
      FileEventKeepsSecure(s, t, e.key, t.files[e.key]);
    }
  }

  lemma {:induction false} HistoryIsSecure(handles: map<FileKey, Disk>, limit: int, events: seq<Event>)
    ensures Secure(History(Start(handles), limit, events))
    decreases |events|
  {
    if events == [] {
      forall k | k in handles ensures Inv(NewFile(handles[k]), []) {
        RunKeepsInv(handles[k], limit, FileInfo(0, 0), []);
      }
    } else {
      var t := History(Start(handles), limit, events[..|events| - 1]);
      HistoryIsSecure(handles, limit, events[..|events| - 1]);
      if Enabled(t, events[|events| - 1]) {
        EventKeepsSecure(t, limit, events[|events| - 1]);
      }
    }
  }

  /**
   * Through any interleaving of barriers, failed or not, of jobs forgotten from inside or outside them,
   * and of articles arriving at any moment: every claim an open file ever made has been acked, or will
   * be reported by its next drain.
   */
  lemma NoClaimIsLost(handles: map<FileKey, Disk>, limit: int, events: seq<Event>, key: FileKey, i: nat)
    requires key in History(Start(handles), limit, events).files
    requires i < |History(Start(handles), limit, events).files[key].w.noted|
    ensures var s := History(Start(handles), limit, events);
            var w := s.files[key].w;
            w.noted[i] in AckedOf(s, key) || w.noted[i] in w.reported + w.written
  {
    var s := History(Start(handles), limit, events);
    HistoryIsSecure(handles, limit, events);
    var w := s.files[key].w;
    var all := w.reported + w.written;
    if i >= |w.noted| - |all| {
      assert w.noted[i] == all[i - (|w.noted| - |all|)];
    }
  }

  // ----- nothing is acked that has not been synced

  /** At this point of the history the caller had the file synced, and the storage raised no fault. */
  ghost predicate GoodSync(s: System, limit: int, events: seq<Event>, j: nat, c: nat, key: FileKey)
    requires j < |events|
  {
    && events[j].SyncBy? && events[j].c == c && events[j].key == key && events[j].storage.sync.None?
    && Enabled(History(s, limit, events[..j]), events[j])
  }

  /** The caller has had the file synced without a fault, all these claims having been made by then. */
  ghost predicate SyncedAfter(s: System, limit: int, events: seq<Event>, c: nat, key: FileKey, claims: set<WrittenArticle>) {
    exists j :: 0 <= j < |events| && GoodSync(s, limit, events, j, c, key)
                && claims <= Elems(History(s, limit, events[..j]).files[key].w.noted)
  }

  lemma StillSynced(s: System, limit: int, events: seq<Event>, c: nat, key: FileKey, claims: set<WrittenArticle>)
    requires events != [] && SyncedAfter(s, limit, events[..|events| - 1], c, key, claims)
    ensures SyncedAfter(s, limit, events, c, key, claims)
  {
    var most := events[..|events| - 1];
    var j :| 0 <= j < |most| && GoodSync(s, limit, most, j, c, key)
             && claims <= Elems(History(s, limit, most[..j]).files[key].w.noted);
    assert most[..j] == events[..j];
    assert GoodSync(s, limit, events, j, c, key);
  }

  /** What a running barrier drained, the file has claimed. */
  ghost predicate ReportsClaimed(s: System) {
    forall c, k | c in s.cycles && k in s.cycles[c].reports ::
      k in s.files && Elems(s.cycles[c].reports[k]) <= Elems(s.files[k].w.noted)
  }

  /** What it counts as synced, it had synced after the drain, and the storage raised no fault. */
  ghost predicate SyncsAreGood(s: System, limit: int, events: seq<Event>, t: System) {
    forall c, k | c in t.cycles && k in t.cycles[c].synced ::
      k in t.cycles[c].reports && SyncedAfter(s, limit, events, c, k, Elems(t.cycles[c].reports[k]))
  }

  lemma NotedGrows(v: Writer, w: Writer)
    requires v.noted <= w.noted
    ensures Elems(v.noted) <= Elems(w.noted)
  {
    forall r | r in Elems(v.noted) ensures r in Elems(w.noted) {
      var i :| 0 <= i < |v.noted| && v.noted[i] == r;
      assert w.noted[i] == r;
    }
  }

  lemma FileKeepsReports(s: System, t: System, key: FileKey, f: File)
    requires ReportsClaimed(s) && key in s.files && t.files == s.files[key := f] && t.cycles == s.cycles
    requires s.files[key].w.noted <= f.w.noted
    ensures ReportsClaimed(t)
  {
    NotedGrows(s.files[key].w, f.w);
  }

  lemma ReportIsClaimed(f: File)
    requires Inv(f, [])
    ensures Elems(f.w.reported) <= Elems(f.w.noted)
  {
    forall r | r in Elems(f.w.reported) ensures r in Elems(f.w.noted) {
      var i :| 0 <= i < |f.w.reported| && f.w.reported[i] == r;
      ReportIsNoted(f.w, i);
    }
  }

  lemma DrainKeepsReports(s: System, limit: int, c: nat, key: FileKey, st: Assembly.Storage)
    requires ReportsClaimed(s) && FilesSecure(s) && Enabled(s, DrainBy(c, key, st))
    ensures ReportsClaimed(Happen(s, limit, DrainBy(c, key, st)))
  {
    var f := Drain(s.files[key]).0;
    FlushAllGrows(s.files[key]);
    DrainKeepsInv(s.files[key]);
    NotedGrows(s.files[key].w, f.w);
    ReportIsClaimed(f);
  }

  lemma WorkKeepsReports(s: System, limit: int, key: FileKey, info: FileInfo, op: FileOp)
    requires ReportsClaimed(s) && Enabled(s, Work(key, info, op))
    ensures ReportsClaimed(Happen(s, limit, Work(key, info, op)))
  {
    WorkGrows(s.files[key], limit, info, op);
    FileKeepsReports(s, Happen(s, limit, Work(key, info, op)), key, Step(s.files[key], limit, info, op));
  }

  lemma CycleKeepsReports(s: System, limit: int, e: Event)
    requires ReportsClaimed(s) && Enabled(s, e) && (e.LockEvent? || e.SyncBy? || e.AckBy?)
    ensures ReportsClaimed(Happen(s, limit, e))
  {
    var t := Happen(s, limit, e);
    assert t.files == s.files;
    forall c, k | c in t.cycles && k in t.cycles[c].reports
      ensures k in t.files && Elems(t.cycles[c].reports[k]) <= Elems(t.files[k].w.noted)
    {
      assert c in s.cycles && t.cycles[c].reports == s.cycles[c].reports;
    }
  }

  lemma EventKeepsReports(s: System, limit: int, e: Event)
    requires ReportsClaimed(s) && FilesSecure(s) && Enabled(s, e)
    ensures ReportsClaimed(Happen(s, limit, e))
  {
    if e.Work? {
      WorkKeepsReports(s, limit, e.key, e.info, e.op);
    } else if e.DrainBy? {
      DrainKeepsReports(s, limit, e.c, e.key, e.storage);
    } else if e.ConfirmBy? {
      FileKeepsReports(s, Happen(s, limit, e), e.key, Confirm(s.files[e.key]));
    } else {
      CycleKeepsReports(s, limit, e);
    }
  }

  lemma {:induction false} HistoryKeepsReports(handles: map<FileKey, Disk>, limit: int, events: seq<Event>)
    ensures ReportsClaimed(History(Start(handles), limit, events))
    decreases |events|
  {
    if events != [] {
      var n := |events| - 1;
      HistoryKeepsReports(handles, limit, events[..n]);
      HistoryIsSecure(handles, limit, events[..n]);
      if Enabled(History(Start(handles), limit, events[..n]), events[n]) {
        EventKeepsReports(History(Start(handles), limit, events[..n]), limit, events[n]);
      }
    }
  }

  /** Nothing but a sync answered without an error adds to what is synced, and no report changes after one. */
  lemma OnlySyncsSync(s: System, limit: int, e: Event, c: nat, k: FileKey)
    requires Enabled(s, e) && c in Happen(s, limit, e).cycles && k in Happen(s, limit, e).cycles[c].synced
    ensures var t := Happen(s, limit, e);
            if c in s.cycles && k in s.cycles[c].synced then t.cycles[c].reports == s.cycles[c].reports
            else e == SyncBy(c, k, e.storage) && e.storage.sync.None? && c in s.cycles && t.cycles[c].reports == s.cycles[c].reports
  {
  }

  lemma SyncsStayGood(s: System, limit: int, events: seq<Event>)
    requires events != []
    requires var t := History(s, limit, events[..|events| - 1]);
             SyncsAreGood(s, limit, events[..|events| - 1], t) && ReportsClaimed(t)
    ensures SyncsAreGood(s, limit, events, History(s, limit, events))
  {
    var n := |events| - 1;
    var t := History(s, limit, events[..n]);
    var u := History(s, limit, events);
    forall c, k | c in u.cycles && k in u.cycles[c].synced
      ensures k in u.cycles[c].reports && SyncedAfter(s, limit, events, c, k, Elems(u.cycles[c].reports[k]))
    {
      if Enabled(t, events[n]) {
        OnlySyncsSync(t, limit, events[n], c, k);
      }
      if c in t.cycles && k in t.cycles[c].synced {
        StillSynced(s, limit, events, c, k, Elems(t.cycles[c].reports[k]));
      } else {
        assert GoodSync(s, limit, events, n, c, k);
      }
    }
  }

  lemma {:induction false} HistorySyncs(handles: map<FileKey, Disk>, limit: int, events: seq<Event>)
    ensures SyncsAreGood(Start(handles), limit, events, History(Start(handles), limit, events))
    decreases |events|
  {
    if events != [] {
      HistorySyncs(handles, limit, events[..|events| - 1]);
      HistoryKeepsReports(handles, limit, events[..|events| - 1]);
      SyncsStayGood(Start(handles), limit, events);
    }
  }

  /**
   * Whenever a barrier can ack: every file it drained it has had synced since, and the storage raised no fault.
   */
  lemma AckFollowsSyncs(handles: map<FileKey, Disk>, limit: int, events: seq<Event>, c: nat, key: FileKey)
    requires var s := History(Start(handles), limit, events);
             Enabled(s, AckBy(c)) && key in s.cycles[c].reports
    ensures SyncedAfter(Start(handles), limit, events, c, key,
                        Elems(History(Start(handles), limit, events).cycles[c].reports[key]))
  {
    HistorySyncs(handles, limit, events);
  }

  /** Through any interleaving, whatever has been acked had been claimed before a sync of its file went without fault. */
  lemma {:induction false} OnlySyncedIsAcked(handles: map<FileKey, Disk>, limit: int, events: seq<Event>,
                                             key: FileKey, r: WrittenArticle)
    requires r in AckedOf(History(Start(handles), limit, events), key)
    ensures exists c :: SyncedAfter(Start(handles), limit, events, c, key, {r})
    decreases |events|
  {
    if events != [] {
      var n := |events| - 1;
      var t := History(Start(handles), limit, events[..n]);
      if r in AckedOf(t, key) {
        OnlySyncedIsAcked(handles, limit, events[..n], key, r);
        var c :| SyncedAfter(Start(handles), limit, events[..n], c, key, {r});
        StillSynced(Start(handles), limit, events, c, key, {r});
      } else {
        AckFollowsSyncs(handles, limit, events[..n], events[n].c, key);
        FewerSynced(Start(handles), limit, events[..n], events[n].c, key, Elems(t.cycles[events[n].c].reports[key]), {r});
        StillSynced(Start(handles), limit, events, events[n].c, key, {r});
      }
    }
  }

  lemma FewerSynced(s: System, limit: int, events: seq<Event>, c: nat, key: FileKey, claims: set<WrittenArticle>,
                    fewer: set<WrittenArticle>)
    requires SyncedAfter(s, limit, events, c, key, claims) && fewer <= claims
    ensures SyncedAfter(s, limit, events, c, key, fewer)
  {
  }

  /** Having acked, a barrier acks no more, and may confirm every file it drained. */
  lemma AckedMayConfirm(s: System, limit: int, c: nat, key: FileKey)
    requires Enabled(s, AckBy(c)) && key in s.cycles[c].reports && key in s.files
    ensures var t := Happen(s, limit, AckBy(c));
            && Enabled(t, ConfirmBy(c, key)) && !Enabled(t, AckBy(c))
            && Elems(s.cycles[c].reports[key]) <= AckedOf(t, key)
  {
  }

  /** A drain stops its barrier exactly if one of the writes it made failed, and a sync exactly if it failed. */
  lemma BarrierStopsAtFaults(s: System, limit: int, e: Event)
    requires Enabled(s, e) && (e.DrainBy? || e.SyncBy?)
    ensures var t := Happen(s, limit, e);
            t.cycles[e.c].stopped <==>
              if e.SyncBy? then e.storage.sync.Some?
              else Drains.AWriteFailed(s.files[e.key].w.handle, t.files[e.key].w.handle)
  {
    if e.DrainBy? {
      Drains.FlushTells(s.files[e.key]);
    }
  }

  // ----- the length a finished file is cut to

  ghost predicate Covers(bound: int, claims: set<WrittenArticle>) {
    forall r | r in claims :: r.offset + r.length <= bound
  }

  /**
   * A file finalized with nothing written since its drain is cut to the furthest end of what has been acked
   * and what the drain reported. That cuts into no claim ever made, whatever barriers failed before.
   */
  lemma FinalizingCutsNothing(handles: map<FileKey, Disk>, limit: int, events: seq<Event>, key: FileKey, bound: int)
    requires key in History(Start(handles), limit, events).files
    requires var s := History(Start(handles), limit, events);
             && s.files[key].w.written == []
             && Covers(bound, AckedOf(s, key) + Elems(s.files[key].w.reported))
    ensures !Cuts(History(Start(handles), limit, events).files[key].w, bound)
  {
    var s := History(Start(handles), limit, events);
    var w := s.files[key].w;
    assert w.reported + w.written == w.reported;
    forall i | 0 <= i < |w.noted| ensures !CutsInto(w.noted[i], bound) {
      NoClaimIsLost(handles, limit, events, key, i);
      assert w.noted[i] in AckedOf(s, key) + Elems(w.reported);
    }
  }
}
