/** Where a property needs its hypothesis: concrete runs that break it without. */
module Counterexamples {
  import opened Types
  import opened Writing
  import opened WriterInvariant
  import opened Acks
  import opened Assembly
  import opened WorkerLedger
  import AtRisk

  const UNSIZED := FileInfo(2, 0)

  function Art(id: int, off: int, bytes: seq<byte>): BufferedArticle {
    BufferedArticle(off, Buf(0, bytes), id, 0)
  }

  /** A file whose first writes fail and whose later ones succeed. */
  function Faulty(failures: nat): Disk {
    Disk(map[], n => if n < failures then Failed(map[]) else Wrote, [])
  }

  predicate Collides(f: File, a: BufferedArticle) {
    a.offset in f.w.acceptedAt && f.w.acceptedAt[a.offset].id != a.id
  }

  /** Who loses the offset to an arriving article. */
  function Losers(f: File, a: BufferedArticle): set<int> {
    if Collides(f, a) then {f.w.acceptedAt[a.offset].id} else {}
  }

  function Losses(f: File, a: BufferedArticle): seq<Faulted> {
    if Collides(f, a) then [Displaced(f.w.acceptedAt[a.offset].id, a.offset, a.id, !f.w.postAnomalyReported)] else []
  }

  lemma ClaimEffect(f: File, a: BufferedArticle)
    requires !OffsetSettledBy(f.w, a.offset, a.id)
    requires a.offset in f.w.acceptedAt ==> !f.w.acceptedAt[a.offset].written
    ensures var w := Claim(f, a.offset, a.id).w;
            && w.acceptedAt == f.w.acceptedAt[a.offset := OffsetOwner(a.id, false)]
            && w.seenDone == f.w.seenDone && w.seenFailed == f.w.seenFailed + Losers(f, a)
            && w.rolled == f.w.rolled + Losses(f, a)
            && w.noted == f.w.noted && w.written == f.w.written && w.reported == f.w.reported && w.handle == f.w.handle
  {
  }

  /** With no cache, a new article takes its offset from any owner, and is written or rolled back at once. */
  lemma Direct(f: File, a: BufferedArticle)
    requires a.id !in f.w.seenDone && !OffsetOutOfRange(UNSIZED, a.offset, a.data.Len())
    requires !OffsetSettledBy(f.w, a.offset, a.id)
    requires a.offset in f.w.acceptedAt ==> !f.w.acceptedAt[a.offset].written
    ensures var (g, arrival) := HandleSuccess(f, 0, UNSIZED, a);
            var ok := f.w.handle.env(|f.w.handle.log|).Wrote?;
            var rec := WrittenArticle(a.id, a.offset, a.data.Len(), a.crc32);
            && arrival == (if a.id in f.w.seenFailed then Retried(if ok then Accepted else WriteFault)
                           else Admitted(if ok then Accepted else WriteFault))
            && g.w.acceptedAt == f.w.acceptedAt[a.offset := OffsetOwner(a.id, ok)]
            && g.w.seenDone == (if ok then f.w.seenDone + {a.id} else f.w.seenDone)
            && g.w.seenFailed == f.w.seenFailed + Losers(f, a)
            && g.w.noted == f.w.noted + (if ok then [rec] else [])
            && g.w.written == f.w.written + (if ok then [rec] else [])
            && g.w.reported == f.w.reported
            && g.w.rolled == f.w.rolled + Losses(f, a) + (if ok then [] else [RolledBack(a.id)])
            && g.w.handle.env == f.w.handle.env && |g.w.handle.log| == |f.w.handle.log| + 1
            && (ok ==> g.w.handle.bytes == f.w.handle.bytes + Patch(a.offset, a.data.Bytes()))
  {
    var w := if a.id in f.w.seenFailed then AdmitRetryOfFailed(f.w, a.id) else AdmitAccepted(f.w, a.id);
    var h := f.(w := w);
    ClaimEffect(h, a);
    WriteEffect(Claim(h, a.offset, a.id), a);
    assert f.w.seenDone + {a.id} - {a.id} == f.w.seenDone;
    assert HandleSuccess(f, 0, UNSIZED, a).0 == WriteOne(Claim(h, a.offset, a.id), a).0;
  }

  lemma WriteEffect(g: File, a: BufferedArticle)
    requires a.offset in g.w.acceptedAt && g.w.acceptedAt[a.offset] == OffsetOwner(a.id, false)
    ensures var (h, ok) := WriteOne(g, a);
            var rec := WrittenArticle(a.id, a.offset, a.data.Len(), a.crc32);
            && ok == g.w.handle.env(|g.w.handle.log|).Wrote?
            && h.w.acceptedAt == g.w.acceptedAt[a.offset := OffsetOwner(a.id, ok)]
            && h.w.seenDone == (if ok then g.w.seenDone else g.w.seenDone - {a.id})
            && h.w.seenFailed == g.w.seenFailed && h.w.reported == g.w.reported
            && h.w.noted == g.w.noted + (if ok then [rec] else [])
            && h.w.written == g.w.written + (if ok then [rec] else [])
            && h.w.rolled == g.w.rolled + (if ok then [] else [RolledBack(a.id)])
            && h.w.handle.env == g.w.handle.env && |h.w.handle.log| == |g.w.handle.log| + 1
            && (ok ==> h.w.handle.bytes == g.w.handle.bytes + Patch(a.offset, a.data.Bytes()))
  {
  }

  lemma RunOfThree(f: File, ops: seq<FileOp>)
    requires |ops| == 3
    ensures Run(f, 0, UNSIZED, ops)
         == Step(Step(Step(f, 0, UNSIZED, ops[0]), 0, UNSIZED, ops[1]), 0, UNSIZED, ops[2])
  {
    assert ops[..2][..1] == ops[..1] && ops[..1][..0] == [];
    assert Run(f, 0, UNSIZED, ops[..1]) == Step(f, 0, UNSIZED, ops[0]);
    assert Run(f, 0, UNSIZED, ops[..2]) == Step(Run(f, 0, UNSIZED, ops[..1]), 0, UNSIZED, ops[1]);
  }

  /** An article that moves can be written at one offset and displaced, as permanently failed, from another. */
  lemma MovingArticleIsWrittenAndDisplaced()
    ensures var ops := [Arrive(Art(1, 0, [7])), Arrive(Art(1, 100, [7])), Arrive(Art(2, 0, [8]))];
            var f := Run(NewFile(Faulty(1)), 0, UNSIZED, ops);
            Landed(f.w, 1) && 1 in f.w.seenFailed && Displaced(1, 0, 2, true) in f.w.rolled
  {
    var ops := [Arrive(Art(1, 0, [7])), Arrive(Art(1, 100, [7])), Arrive(Art(2, 0, [8]))];
    var f0 := NewFile(Faulty(1));
    var f1 := Step(f0, 0, UNSIZED, ops[0]);
    var f2 := Step(f1, 0, UNSIZED, ops[1]);
    var f3 := Step(f2, 0, UNSIZED, ops[2]);
    RunOfThree(f0, ops);
    Direct(f0, Art(1, 0, [7]));
    Direct(f1, Art(1, 100, [7]));
    Direct(f2, Art(2, 0, [8]));
    assert SettledAt(f3.w, 100);
    assert f1.w.rolled == [RolledBack(1)] && f2.w.rolled == [RolledBack(1)];
    assert f3.w.rolled == [RolledBack(1)] + [Displaced(1, 0, 2, true)] + [];
    assert f3.w.rolled[1] == Displaced(1, 0, 2, true);
  }

  lemma TwoFaultsAtOneOffset()
    ensures var f := Step(Step(NewFile(Faulty(2)), 0, UNSIZED, Arrive(Art(1, 0, [7]))), 0, UNSIZED, Arrive(Art(2, 0, [8])));
            && f.w.acceptedAt == map[0 := OffsetOwner(2, false)] && f.w.seenDone == {} && f.w.seenFailed == {1}
            && f.w.rolled == [RolledBack(1), Displaced(1, 0, 2, true), RolledBack(2)]
            && f.w.handle.env == Faulty(2).env && |f.w.handle.log| == 2
  {
  }

  /** An article displaced while it held no part, its write having failed, can still be written when it comes back. */
  lemma StaleOwnerIsDisplacedThenWritten()
    ensures var ops := [Arrive(Art(1, 0, [7])), Arrive(Art(2, 0, [8])), Arrive(Art(1, 0, [7]))];
            var f := Run(NewFile(Faulty(2)), 0, UNSIZED, ops);
            Landed(f.w, 1) && Displaced(1, 0, 2, true) in f.w.rolled
  {
    var ops := [Arrive(Art(1, 0, [7])), Arrive(Art(2, 0, [8])), Arrive(Art(1, 0, [7]))];
    var f2 := Step(Step(NewFile(Faulty(2)), 0, UNSIZED, ops[0]), 0, UNSIZED, ops[1]);
    TwoFaultsAtOneOffset();
    RunOfThree(NewFile(Faulty(2)), ops);
    Direct(f2, Art(1, 0, [7]));
    var f3 := Step(f2, 0, UNSIZED, ops[2]);
    assert SettledAt(f3.w, 0);
    assert f3.w.rolled[1] == f2.w.rolled[1];
  }

  /** Articles that overlap at different offsets: a claim stops being true when the other one lands on it. */
  lemma OverlapFalsifiesAClaim()
    ensures var ops := [Arrive(Art(1, 0, [7, 7])), Arrive(Art(2, 1, [8, 8])), DrainFile];
            var f := Run(NewFile(Faulty(0)), 0, UNSIZED, ops);
            && f.w.reported == [WrittenArticle(1, 0, 2, 0), WrittenArticle(2, 1, 2, 0)]
            && 1 in f.w.handle.bytes && f.w.handle.bytes[1] == 8
  {
    var ops := [Arrive(Art(1, 0, [7, 7])), Arrive(Art(2, 1, [8, 8])), DrainFile];
    var f0 := NewFile(Faulty(0));
    var f1 := Step(f0, 0, UNSIZED, ops[0]);
    RunOfThree(f0, ops);
    Direct(f0, Art(1, 0, [7, 7]));
    Direct(f1, Art(2, 1, [8, 8]));
    assert 1 in Patch(1, [8, 8]) && Patch(1, [8, 8])[1] == 8;
  }

  /**
   * Two drain-to-confirm cycles that overlap: the first confirms what only the second had drained, the
   * second fails, and the claim is neither acked nor ever reported again.
   */
  lemma OverlappingCyclesLoseAnAck()
    ensures var first := Drain(Step(NewFile(Faulty(0)), 0, UNSIZED, Arrive(Art(1, 0, [7])))).0;
            var second := Drain(Step(first, 0, UNSIZED, Arrive(Art(2, 9, [8])))).0;
            var lost := WrittenArticle(2, 9, 1, 0);
            && lost in Confirm(second).w.noted
            && lost !in Elems(first.w.reported)
            && lost !in Confirm(second).w.reported + Confirm(second).w.written
  {
    var f0 := NewFile(Faulty(0));
    Direct(f0, Art(1, 0, [7]));
    var first := Drain(Step(f0, 0, UNSIZED, Arrive(Art(1, 0, [7])))).0;
    Direct(first, Art(2, 9, [8]));
    var g := Step(first, 0, UNSIZED, Arrive(Art(2, 9, [8])));
    assert g.w.noted[1] == WrittenArticle(2, 9, 1, 0);
  }

  /** One more event, taken. */
  lemma Happened(w: AtRisk.World, events: seq<AtRisk.Event>, e: AtRisk.Event) returns (more: seq<AtRisk.Event>)
    requires AtRisk.Enabled(w, AtRisk.History(w, events), e)
    ensures AtRisk.History(w, more) == AtRisk.Happen(w, AtRisk.History(w, events), e)
  {
    more := events + [e];
    assert more[..|events|] == events;
  }

  /** An article fetched, written and counted, and its file closed before any barrier. */
  lemma ClosedBeforeAnyBarrier(w: AtRisk.World) returns (events: seq<AtRisk.Event>)
    ensures var s := AtRisk.History(w, events);
            && s.stranded == {0} && s.open == {} && s.reqs == [] && s.retired == {} && s.reload.Running?
            && s.flow.arrived == {} && s.flow.inFlight == 0 && !s.flow.stopped
  {
    events := Happened(w, [], AtRisk.OfFlow(AtRisk.Fetch(0)));
    events := Happened(w, events, AtRisk.OfFlow(AtRisk.Pull(0)));
    events := Happened(w, events, AtRisk.OfFlow(AtRisk.Send(0)));
    events := Happened(w, events, AtRisk.OfFlow(AtRisk.Note(0)));
    events := Happened(w, events, AtRisk.OfFlow(AtRisk.Finish(0)));
    events := Happened(w, events, AtRisk.OfWorker(AtRisk.Serve(true, true)));
    assert AtRisk.History(w, events).held == {0};
    events := Happened(w, events, AtRisk.OfWorker(AtRisk.CloseFile(w.file(0))));
  }

  /** A file closed over an article written and not acked: the reload judges no job unsafe, and clears the article's too. */
  lemma CloseCanStrandAnArticle(w: AtRisk.World) returns (events: seq<AtRisk.Event>)
    ensures var s := AtRisk.History(w, events);
            s.reload == AtRisk.Cleared({}) && s.retired == {} && 0 in s.stranded
  {
    events := ClosedBeforeAnyBarrier(w);
    events := Happened(w, events, AtRisk.OfFlow(AtRisk.StopDownloader));
    events := Happened(w, events, AtRisk.OfReload(AtRisk.Quiesce));
    events := Happened(w, events, AtRisk.OfReload(AtRisk.AskJobs));
    events := Happened(w, events, AtRisk.OfWorker(AtRisk.Serve(true, true)));
    assert AtRisk.History(w, events).reload.todo == {};
    events := Happened(w, events, AtRisk.OfReload(AtRisk.Clear));
  }

  /** Nothing in the channel, and one file open, with no checkpoint of its job holding the lock. */
  ghost predicate Idle(s: AtRisk.State, k: FileKey) {
    s.reqs == [] && s.open == {k} && s.checkpoints == map[] && s.reload.Running? && s.retired == {}
  }

  /** A checkpoint of the file's job up to the figure it reads. */
  lemma CheckpointReads(w: AtRisk.World, before: seq<AtRisk.Event>, k: FileKey) returns (events: seq<AtRisk.Event>)
    requires Idle(AtRisk.History(w, before), k)
    ensures var s, t := AtRisk.History(w, before), AtRisk.History(w, events);
            && t == s.(checkpoints := t.checkpoints, minted := t.minted) && t.minted > s.minted
            && t.checkpoints == map[k.jobID := AtRisk.Checkpoint(t.minted - 1, false, s.flow.counted,
                 s.flow.counted - AtRisk.TakenBy(s, k.jobID), AtRisk.Noted(AtRisk.Pending(s.tally.bytes, k.jobID)))]
  {
    events := Happened(w, before, AtRisk.OfCheckpoint(AtRisk.Begin(k.jobID)));
    events := Happened(w, events, AtRisk.OfCheckpoint(AtRisk.AskFiles(k.jobID)));
    assert k in AtRisk.OpenOf(AtRisk.History(w, before), k.jobID);
    events := Happened(w, events, AtRisk.OfWorker(AtRisk.Serve(true, true)));
    events := Happened(w, events, AtRisk.OfCheckpoint(AtRisk.ReadPending(k.jobID)));
  }

  /** And up to the list of what it drains. */
  lemma CheckpointLists(w: AtRisk.World, before: seq<AtRisk.Event>, k: FileKey) returns (events: seq<AtRisk.Event>)
    requires Idle(AtRisk.History(w, before), k)
    ensures var s, t := AtRisk.History(w, before), AtRisk.History(w, events);
            && t == s.(checkpoints := t.checkpoints, minted := t.minted) && t.minted > s.minted
            && t.checkpoints == map[k.jobID := AtRisk.Checkpoint(t.minted - 1, false, s.flow.counted,
                 s.flow.counted - AtRisk.TakenBy(s, k.jobID),
                 AtRisk.Draining(AtRisk.Pending(s.tally.bytes, k.jobID), {k}, {}, {}))]
  {
    events := CheckpointReads(w, before, k);
    events := Happened(w, events, AtRisk.OfCheckpoint(AtRisk.ListAgain(k.jobID)));
    events := Happened(w, events, AtRisk.OfWorker(AtRisk.Serve(true, true)));
    assert AtRisk.OpenOf(AtRisk.History(w, before), k.jobID) == {k};
  }

  /** A checkpoint of the file's job up to its ack: the figure is read, and not yet settled. */
  lemma CheckpointAcks(w: AtRisk.World, before: seq<AtRisk.Event>, k: FileKey) returns (events: seq<AtRisk.Event>, call: nat)
    requires Idle(AtRisk.History(w, before), k)
    ensures var s, t := AtRisk.History(w, before), AtRisk.History(w, events);
            && Idle(t, k) && t.flow == s.flow && s.minted <= call < t.minted
            && t.held == (set x | x in s.held && w.file(x) != k)
            && t.tally == s.tally.(settling := s.tally.settling[call := AtRisk.Settling(k.jobID, false, s.flow.counted,
                 s.flow.counted - AtRisk.TakenBy(s, k.jobID), AtRisk.Pending(s.tally.bytes, k.jobID))])
  {
    var job := k.jobID;
    events := CheckpointLists(w, before, k);
    events := Happened(w, events, AtRisk.OfCheckpoint(AtRisk.SubmitDrain(job, k)));
    events := Happened(w, events, AtRisk.OfWorker(AtRisk.Serve(true, true)));
    call := AtRisk.History(w, events).minted;
    events := Happened(w, events, AtRisk.OfCheckpoint(AtRisk.AckJob(job)));
  }

  /** An article fetched, written and counted. */
  lemma ArticleIsWritten(w: AtRisk.World, before: seq<AtRisk.Event>, x: nat) returns (events: seq<AtRisk.Event>)
    requires var s := AtRisk.History(w, before);
             && s.reqs == [] && !s.flow.stopped && x !in s.flow.seen && s.checkpoints == map[] && s.reload.Running?
             && s.flow.arrived == {} && s.flow.handling == {} && s.flow.unnoted == {} && s.flow.finishing == {}
    ensures var s, t := AtRisk.History(w, before), AtRisk.History(w, events);
            && t == s.(flow := t.flow, held := s.held + {x}, open := s.open + {w.file(x)},
                       tally := s.tally.(bytes := AtRisk.NoteJobBytes(s.tally.bytes, w.Job(x), w.len(x))))
            && t.flow.seen == s.flow.seen + {x} && t.flow.counted == s.flow.counted + {x} && !t.flow.stopped
            && t.flow.arrived == {} && t.flow.handling == {} && t.flow.unnoted == {} && t.flow.finishing == {}
            && t.flow.inFlight == s.flow.inFlight
  {
    events := Happened(w, before, AtRisk.OfFlow(AtRisk.Fetch(x)));
    events := Happened(w, events, AtRisk.OfFlow(AtRisk.Pull(x)));
    events := Happened(w, events, AtRisk.OfFlow(AtRisk.Send(x)));
    events := Happened(w, events, AtRisk.OfFlow(AtRisk.Note(x)));
    events := Happened(w, events, AtRisk.OfFlow(AtRisk.Finish(x)));
    events := Happened(w, events, AtRisk.OfWorker(AtRisk.Serve(true, true)));
  }

  /** Two checkpoints of one job have read and acked the same bytes, more are written, and then both settle. */
  lemma TwoSettleTheSame(w: AtRisk.World) returns (events: seq<AtRisk.Event>)
    requires w.file(0) == w.file(1) && w.len(0) >= w.len(1) > 0
    ensures var s := AtRisk.History(w, events);
            && Idle(s, w.file(1)) && s.held == {1} && 1 in s.flow.counted && s.tally.bytes == map[]
            && s.tally.overdrawn == {w.Job(1)} && !s.flow.stopped && s.flow.arrived == {} && s.flow.inFlight == 0
  {
    var k, first, second := w.file(0), 0, 0;
    events := ArticleIsWritten(w, [], 0);
    events, first := CheckpointAcks(w, events, k);
    events, second := CheckpointAcks(w, events, k);
    events := ArticleIsWritten(w, events, 1);
    ghost var s := AtRisk.History(w, events);
    assert s.tally.bytes == map[k.jobID := w.len(0) + w.len(1)] && s.held == {1};
    events := Happened(w, events, AtRisk.OfCheckpoint(AtRisk.Settle(first)));
    events := Happened(w, events, AtRisk.OfCheckpoint(AtRisk.Settle(second)));
  }

  /**
   * Two checkpoints of one job that overlap between unlock and settle: the entry loses bytes that are still
   * at risk, and a reload then clears the job with an article of its written and not acked.
   */
  lemma OverlappingSettlesUndercount(w: AtRisk.World) returns (events: seq<AtRisk.Event>)
    requires w.file(0) == w.file(1) && w.len(0) >= w.len(1) > 0
    ensures var s := AtRisk.History(w, events);
            && s.reload == AtRisk.Cleared({}) && s.retired == {} && 1 in s.held
            && 1 in s.flow.counted && AtRisk.Pending(s.tally.bytes, w.Job(1)) == 0
  {
    events := TwoSettleTheSame(w);
    events := Happened(w, events, AtRisk.OfFlow(AtRisk.StopDownloader));
    events := Happened(w, events, AtRisk.OfReload(AtRisk.Quiesce));
    events := Happened(w, events, AtRisk.OfReload(AtRisk.AskJobs));
    events := Happened(w, events, AtRisk.OfWorker(AtRisk.Serve(true, true)));
    assert AtRisk.History(w, events).reload.todo == {w.Job(1)};
    events := Happened(w, events, AtRisk.OfReload(AtRisk.JudgeSafe(w.Job(1))));
    events := Happened(w, events, AtRisk.OfReload(AtRisk.Clear));
  }

  /** A failed open returns the article's buffer twice. */
  lemma FailedOpenReturnsTwice(limit: int, key: FileKey)
    ensures var a := BufferedArticle(0, Buf(5, [7]), 1, 0);
            var s := Dispatch(NewWorker(limit), Article(key, a, false), Fate(OpenFailed, [], []));
            s.freed == multiset{5, 5}
  {
  }

  /** An article that fails for good twice, with data the second time, never returns its buffer. */
  lemma RepeatedFailureKeepsABuffer(key: FileKey)
    ensures var fate := Fate(OpenedAs(UNSIZED, Faulty(0)), [], []);
            var once := Dispatch(NewWorker(0), Article(key, BufferedArticle(0, Nil, 1, 0), true), fate);
            var twice := Dispatch(once, Article(key, BufferedArticle(0, Buf(5, [7]), 1, 0), true), fate);
            twice.freed == multiset{} && twice.perFile == map[]
  {
  }

  lemma TakenDirectly(s: Worker, key: FileKey, a: BufferedArticle)
    requires s.limit == 0 && key in s.open
    ensures var (f, arrival) := HandleSuccess(FileOf(s, key), 0, s.open[key].info, a);
            var (t, admitted) := TakeOn(s, key, a, false);
            && (admitted <==> arrival.Admitted? && !arrival.result.WriteFault?)
            && key in t.open && t.open[key].w.(faulted := []) == f.w.(faulted := []) && t.open[key].info == s.open[key].info
  {
  }

  /** A request at an open file, when there is no cache to relieve. */
  lemma ServedDirectly(s: Worker, key: FileKey, a: BufferedArticle, fate: Fate)
    requires s.limit == 0 && fate.victims == [] && key in s.open
    requires key !in s.completed && key.jobID !in s.cancelled
    ensures var (f, arrival) := HandleSuccess(FileOf(s, key), 0, s.open[key].info, a);
            var t := Dispatch(s, Article(key, a, false), fate);
            var file := OpenFile(f.w.(faulted := []), s.open[key].info);
            && key in t.open && t.open[key] == file && t.limit == 0 && t.cancelled == s.cancelled
            && t.completed == (if arrival.Admitted? && !arrival.result.WriteFault? && IsComplete(file)
                               then s.completed + {key} else s.completed)
  {
    var (t, admitted) := TakeOn(s, key, a, false);
    TakenDirectly(s, key, a);
    assert Dispatch(s, Article(key, a, false), fate) == Settle(t, key, admitted);
    assert ReleaseFaulted(t, key).open[key] == OpenFile(t.open[key].w.(faulted := []), s.open[key].info);
  }

  /** An article already counted, either way, is never newly taken on. */
  lemma CountedIsNotAdmitted(s: Worker, key: FileKey, a: BufferedArticle, fatal: bool)
    requires key in s.open && a.id in s.open[key].w.seenDone + s.open[key].w.seenFailed
    ensures !TakeOn(s, key, a, fatal).1
  {
  }

  ghost predicate Serving(s: Worker, key: FileKey) {
    s.limit == 0 && key in s.open && key !in s.completed && key.jobID !in s.cancelled && s.open[key].info == UNSIZED
  }

  lemma SecondFaults(s: Worker, key: FileKey, fate: Fate)
    requires Serving(s, key) && fate.victims == []
    requires s.open[key].w == NewWriter(Faulty(1)).(seenFailed := {1}, partsWritten := 1)
    ensures var t := Dispatch(s, Article(key, Art(2, 0, [8]), false), fate);
            && Serving(t, key)
            && var w := t.open[key].w;
               && w.acceptedAt == map[0 := OffsetOwner(2, false)] && w.seenDone == {} && w.seenFailed == {1}
               && w.handle.env == Faulty(1).env && |w.handle.log| == 1
  {
    ServedDirectly(s, key, Art(2, 0, [8]), fate);
    Direct(FileOf(s, key), Art(2, 0, [8]));
  }

  lemma ThirdIsRetried(s: Worker, key: FileKey, fate: Fate)
    requires Serving(s, key) && fate.victims == []
    requires var w := s.open[key].w;
             && w.acceptedAt == map[0 := OffsetOwner(2, false)] && w.seenDone == {} && w.seenFailed == {1}
             && w.handle.env == Faulty(1).env && |w.handle.log| == 1
    ensures var t := Dispatch(s, Article(key, Art(1, 0, [7]), false), fate);
            Serving(t, key) && t.open[key].w.seenDone == {1} && t.open[key].w.seenFailed == {1, 2}
  {
    ServedDirectly(s, key, Art(1, 0, [7]), fate);
    Direct(FileOf(s, key), Art(1, 0, [7]));
  }

  /** The first two arrivals: one that fails for good, and one whose write fails. */
  lemma TwoAreLost(key: FileKey, fate: Fate)
    requires fate == Fate(OpenedAs(UNSIZED, Faulty(1)), [], [])
    ensures var s := Dispatch(Dispatch(NewWorker(0), Article(key, Art(1, 0, []), true), fate),
                              Article(key, Art(2, 0, [8]), false), fate);
            && Serving(s, key)
            && var w := s.open[key].w;
               && w.acceptedAt == map[0 := OffsetOwner(2, false)] && w.seenDone == {} && w.seenFailed == {1}
               && w.handle.env == Faulty(1).env && |w.handle.log| == 1
  {
    FirstIsFatal(key, fate);
    SecondFaults(Dispatch(NewWorker(0), Article(key, Art(1, 0, []), true), fate), key, fate);
  }

  lemma RetryResolvesBoth(key: FileKey, reqs: seq<Request>, fates: seq<Fate>, fate: Fate)
    requires fate == Fate(OpenedAs(UNSIZED, Faulty(1)), [], []) && fates == [fate, fate, fate]
    requires reqs == [Article(key, Art(1, 0, []), true), Article(key, Art(2, 0, [8]), false), Article(key, Art(1, 0, [7]), false)]
    ensures var t := Serve(NewWorker(0), reqs, fates);
            Serving(t, key) && t.open[key].w.seenDone == {1} && t.open[key].w.seenFailed == {1, 2}
  {
    ServeThree(NewWorker(0), reqs, fates);
    TwoAreLost(key, fate);
    ThirdIsRetried(Dispatch(Dispatch(NewWorker(0), reqs[0], fate), reqs[1], fate), key, fate);
  }

  /**
   * A failed article's retry that displaces an owner whose own write had failed counts the file's last
   * part, and nobody looks: every part is resolved, none can be taken on again, and the file is never
   * reported complete.
   */
  lemma CompletionCanBeMissed(key: FileKey)
    ensures var fate := Fate(OpenedAs(UNSIZED, Faulty(1)), [], []);
            var reqs := [Article(key, Art(1, 0, []), true), Article(key, Art(2, 0, [8]), false), Article(key, Art(1, 0, [7]), false)];
            var t := Serve(NewWorker(0), reqs, [fate, fate, fate]);
            && key in t.open && IsComplete(t.open[key]) && key !in t.completed
            && forall a: BufferedArticle, fatal: bool | a.id == 1 || a.id == 2 :: !TakeOn(t, key, a, fatal).1
  {
    var fate := Fate(OpenedAs(UNSIZED, Faulty(1)), [], []);
    var fates := [fate, fate, fate];
    var reqs := [Article(key, Art(1, 0, []), true), Article(key, Art(2, 0, [8]), false), Article(key, Art(1, 0, [7]), false)];
    RetryResolvesBoth(key, reqs, fates, fate);
    BothCounted(reqs, fates, key);
    var t := Serve(NewWorker(0), reqs, fates);
    forall a: BufferedArticle, fatal: bool | a.id == 1 || a.id == 2 ensures !TakeOn(t, key, a, fatal).1 {
      CountedIsNotAdmitted(t, key, a, fatal);
    }
  }

  lemma BothCounted(reqs: seq<Request>, fates: seq<Fate>, key: FileKey)
    requires |fates| == |reqs| && key in Serve(NewWorker(0), reqs, fates).open
    requires var w := Serve(NewWorker(0), reqs, fates).open[key].w; w.seenDone == {1} && w.seenFailed == {1, 2}
    ensures Serve(NewWorker(0), reqs, fates).open[key].w.partsWritten == 2
  {
    var s := Serve(NewWorker(0), reqs, fates);
    PartCountIsExact(0, reqs, fates, key);
    assert s.open[key].w.seenDone + s.open[key].w.seenFailed == {1, 2};
  }

  lemma FirstIsFatal(key: FileKey, fate: Fate)
    requires fate == Fate(OpenedAs(UNSIZED, Faulty(1)), [], [])
    ensures var s := Dispatch(NewWorker(0), Article(key, Art(1, 0, []), true), fate);
            && key in s.open && s.completed == {} && s.cancelled == {} && s.limit == 0
            && s.open[key] == OpenFile(NewWriter(Faulty(1)).(seenFailed := {1}, partsWritten := 1), UNSIZED)
  {
  }

  lemma ServeThree(s: Worker, reqs: seq<Request>, fates: seq<Fate>)
    requires |reqs| == 3 && |fates| == 3
    ensures Serve(s, reqs, fates) == Dispatch(Dispatch(Dispatch(s, reqs[0], fates[0]), reqs[1], fates[1]), reqs[2], fates[2])
  {
    assert reqs[..2][..1] == reqs[..1] && fates[..2][..1] == fates[..1];
    assert Serve(s, reqs[..1], fates[..1]) == Dispatch(Serve(s, [], []), reqs[0], fates[0]) by {
      assert reqs[..1][..0] == [] && fates[..1][..0] == [];
    }
    assert Serve(s, reqs[..2], fates[..2]) == Dispatch(Serve(s, reqs[..1], fates[..1]), reqs[1], fates[1]);
  }
}
