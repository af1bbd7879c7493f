/** What the worker answers: the barrier's requests, and the closing of a job's handles. */
module Replies {
  import opened Types
  import opened Writing
  import opened Drains
  import opened Assembly

  /** Why a request is answered with an error: a disagreement about what is open is not the storage's fault. */
  datatype Refusal = NotOpen | OfStorage(fault: StorageFault)

  datatype SyncReply = SyncReply(files: seq<int>, jobs: seq<JobId>, written: seq<WrittenArticle>, size: int,
                                 err: Option<Refusal>)

  const SILENCE := SyncReply([], [], [], 0, None)

  function Refused(fault: Option<StorageFault>): Option<Refusal> {
    if fault.Some? then Some(OfStorage(fault.value)) else None
  }

  // ----- closing a file

  /** Of the faults of several steps, the first permanent one, or else the first. */
  function Preferred(faults: seq<Option<StorageFault>>): Option<StorageFault>
    decreases |faults|
  {
    if faults == [] then None
    else
      var rest := Preferred(faults[1..]);
      if faults[0].Some? && (faults[0].value.permanent || rest.None? || !rest.value.permanent) then faults[0] else rest
  }

  /** No fault is swallowed, and none that waiting cannot clear is hidden behind one that it can. */
  lemma {:induction false} PreferredTellsTheWorst(faults: seq<Option<StorageFault>>)
    ensures Preferred(faults).Some? <==> exists i :: 0 <= i < |faults| && faults[i].Some?
    ensures Preferred(faults).Some? && Preferred(faults).value.permanent <==>
              exists i :: 0 <= i < |faults| && faults[i].Some? && faults[i].value.permanent
    ensures Preferred(faults).Some? ==> Preferred(faults) in faults
    decreases |faults|
  {
    if faults != [] {
      var rest := faults[1..];
      PreferredTellsTheWorst(rest);
      forall i | 0 <= i < |rest| ensures rest[i] == faults[i + 1] {
      }
      if i :| 0 <= i < |faults| && faults[i].Some? && faults[i].value.permanent && i > 0 {
        assert rest[i - 1] == faults[i];
      }
      if i :| 0 <= i < |faults| && faults[i].Some? && i > 0 {
        assert rest[i - 1] == faults[i];
      }
    }
  }

  /** The fault a drain, a sync and a close are reported by. */
  function WorstOf(drain: Option<StorageFault>, sync: Option<StorageFault>, close: Option<StorageFault>): Option<StorageFault> {
    Preferred([drain, sync, close])
  }

  /** The first fault and the first permanent one, after one more step. */
  function Noted(seen: (Option<StorageFault>, Option<StorageFault>), fault: Option<StorageFault>): (Option<StorageFault>, Option<StorageFault>) {
    (if seen.0.None? then fault else seen.0,
     if seen.1.None? && fault.Some? && fault.value.permanent then fault else seen.1)
  }

  /** Keeping the first fault and the first permanent one is enough to report the worst of the three. */
  lemma NotedTellsTheWorst(drain: Option<StorageFault>, sync: Option<StorageFault>, close: Option<StorageFault>)
    ensures var (first, permanent) := Noted(Noted(Noted((None, None), drain), sync), close);
            WorstOf(drain, sync, close) == if permanent.Some? then permanent else first
  {
    var rest := [sync, close];
    assert [drain, sync, close][1..] == rest && rest[1..] == [close] && [close][1..] == [];
    assert Preferred([close]) == close;
    assert Preferred(rest) == if sync.Some? && (sync.value.permanent || close.None? || !close.value.permanent) then sync else close;
  }

  function DrainFault(ok: bool, st: Storage): Option<StorageFault> {
    if ok then None else Some(st.write)
  }

  /** What draining, syncing and closing a file comes to. */
  ghost function CloseError(s: Worker, key: FileKey, st: Storage): Option<StorageFault>
    requires key in s.open
  {
    WorstOf(DrainFault(Drain(FileOf(s, key)).1, st), st.sync, st.close)
  }

  // ----- the barrier's requests

  ghost predicate Lists<T(!new)>(list: seq<T>, all: set<T>) {
    && (forall x :: x in list <==> x in all)
    && (forall i, j | 0 <= i < j < |list| :: list[i] != list[j])
  }

  predicate IsOfBarrier(req: Request) {
    req.SyncFiles? || req.SyncJobs? || IsOfFile(req)
  }

  predicate IsOfFile(req: Request) {
    req.SyncDrain? || req.SyncFsync? || req.SyncConfirm? || req.SyncStat? || req.SyncTruncate? || req.SyncClose?
  }

  /** A drain's report, or with it the fault that stopped the drain. */
  ghost function DrainReply(f: File, st: Storage): SyncReply {
    var (g, ok) := Drain(f);
    SILENCE.(written := g.w.reported, err := if ok then None else Some(OfStorage(st.write)))
  }

  function FsyncReply(st: Storage): SyncReply {
    SILENCE.(err := Refused(st.sync))
  }

  /** The answer about one open file. */
  ghost function Answer(s: Worker, req: Request, st: Storage): SyncReply
    requires IsOfFile(req) && req.key in s.open
  {
    match req
    case SyncDrain(key) => DrainReply(FileOf(s, key), st)
    case SyncFsync(_) => FsyncReply(st)
    case SyncStat(_) => SILENCE.(size := if st.stat.None? then st.size else 0, err := Refused(st.stat))
    case SyncTruncate(_, bound) => SILENCE.(err := if bound < 0 then None else Refused(st.truncate))
    case SyncClose(key) => SILENCE.(err := Refused(CloseError(s, key, st)))
    case _ => SILENCE
  }

  /** The listings answer with exactly what is open; closing a file that is gone is no error, anything else is. */
  ghost predicate Answers(s: Worker, req: Request, st: Storage, r: SyncReply)
    requires IsOfBarrier(req)
  {
    match req
    case SyncFiles(job) =>
      r == SILENCE.(files := r.files) && Lists(r.files, set k | k in s.open && k.jobID == job :: k.fileIdx)
    case SyncJobs => r == SILENCE.(jobs := r.jobs) && Lists(r.jobs, set k | k in s.open :: k.jobID)
    case _ =>
      if req.key in s.open then r == Answer(s, req, st)
      else r == SILENCE.(err := if req.SyncClose? then None else Some(NotOpen))
  }

  // ----- what an answer tells

  /** The answer carries an error exactly if there was a fault, and then that fault. */
  predicate Says(r: SyncReply, fault: Option<StorageFault>) {
    (r.err.Some? <==> fault.Some?) && (fault.Some? ==> r.err == Some(OfStorage(fault.value)))
  }

  function FaultIn(r: SyncReply): Option<StorageFault> {
    if r.err.Some? && r.err.value.OfStorage? then Some(r.err.value.fault) else None
  }

  predicate IsPermanent(fault: Option<StorageFault>) {
    fault.Some? && fault.value.permanent
  }

  /** One of three faults whenever there is one, and a permanent one whenever there is one. */
  predicate IsTheWorst(err: Option<StorageFault>, drain: Option<StorageFault>, sync: Option<StorageFault>,
                       close: Option<StorageFault>) {
    && (err.Some? <==> drain.Some? || sync.Some? || close.Some?)
    && (err.Some? ==> err in [drain, sync, close])
    && (IsPermanent(err) <==> IsPermanent(drain) || IsPermanent(sync) || IsPermanent(close))
  }

  /** What is said of a close, its drain having made these writes. */
  ghost predicate TellsOfClose(err: Option<StorageFault>, d: Disk, e: Disk, st: Storage) {
    IsTheWorst(err, WriteFaultOf(d, e, st), st.sync, st.close)
  }

  /** The fault of the writes by which one handle came to be another. */
  ghost function WriteFaultOf(d: Disk, e: Disk, st: Storage): Option<StorageFault> {
    if AWriteFailed(d, e) then Some(st.write) else None
  }

  /** What became of a file that was served a request: its record, or the one it was closed with. */
  ghost predicate BecameOf(t: Worker, past: nat, key: FileKey, w: Writer) {
    if key in t.open then w == t.open[key].w
    else past < |t.past| && t.past[past].Closed? && t.past[past].key == key && w == t.past[past].w
  }

  /**
   * What is told of an open file whose record was v and has become w. Of a sync, a stat and a cut: whether that
   * failed. Of a drain: whether one of the writes it made failed, and what the file now holds reported. Of a
   * close: whether its drain, its sync or its close failed. Of a confirmation: nothing.
   */
  ghost predicate TellsOf(req: Request, st: Storage, v: Writer, w: Writer, r: SyncReply)
    requires IsOfFile(req)
  {
    match req
    case SyncFsync(_) => Says(r, st.sync)
    case SyncStat(_) => Says(r, st.stat) && (st.stat.None? ==> r.size == st.size)
    case SyncTruncate(_, bound) => if bound < 0 then r.err.None? else Says(r, st.truncate)
    case SyncDrain(_) => Says(r, WriteFaultOf(v.handle, w.handle, st)) && r.written == w.reported && w.written == []
    case SyncClose(_) => r.err != Some(NotOpen) && TellsOfClose(FaultIn(r), v.handle, w.handle, st)
    case SyncConfirm(_) => r.err.None?
    case _ => true
  }

  /** A file that is not open is said not to be, except to whoever wants it closed. */
  ghost predicate Tells(s: Worker, t: Worker, req: Request, st: Storage, r: SyncReply)
    requires IsOfFile(req)
  {
    if req.key in s.open then
      exists w :: BecameOf(t, |s.past|, req.key, w) && TellsOf(req, st, s.open[req.key].w, w, r)
    else if req.SyncClose? then r.err.None?
    else r.err == Some(NotOpen)
  }

  lemma DrainIsTold(s: Worker, key: FileKey, fate: Fate, st: Storage)
    requires key in s.open
    ensures Tells(s, Dispatch(s, SyncDrain(key), fate), SyncDrain(key), st, Answer(s, SyncDrain(key), st))
  {
    var t := Dispatch(s, SyncDrain(key), fate);
    FlushTells(FileOf(s, key));
    assert BecameOf(t, |s.past|, key, t.open[key].w);
  }

  lemma CloseIsTold(s: Worker, key: FileKey, fate: Fate, st: Storage)
    requires key in s.open
    ensures Tells(s, Dispatch(s, SyncClose(key), fate), SyncClose(key), st, Answer(s, SyncClose(key), st))
  {
    var t := Dispatch(s, SyncClose(key), fate);
    CloseErrorTells(s, key, st);
    assert BecameOf(t, |s.past|, key, t.past[|s.past|].w);
  }

  lemma WorstIsTheWorst(drain: Option<StorageFault>, sync: Option<StorageFault>, close: Option<StorageFault>)
    ensures IsTheWorst(WorstOf(drain, sync, close), drain, sync, close)
  {
    NotedTellsTheWorst(drain, sync, close);
  }

  /** What a file's closing comes to tells of the writes its drain made, of its sync and of its close. */
  lemma CloseErrorTells(s: Worker, key: FileKey, st: Storage)
    requires key in s.open
    ensures TellsOfClose(CloseError(s, key, st), s.open[key].w.handle, Drain(FileOf(s, key)).0.w.handle, st)
  {
    FlushTells(FileOf(s, key));
    WorstIsTheWorst(DrainFault(Drain(FileOf(s, key)).1, st), st.sync, st.close);
  }

  /** No fault of a file's storage goes untold to whoever asked, and none is told that did not happen. */
  lemma RepliesTellTheFaults(s: Worker, req: Request, fate: Fate, r: SyncReply)
    requires IsOfFile(req) && Answers(s, req, fate.storage, r)
    ensures Tells(s, Dispatch(s, req, fate), req, fate.storage, r)
  {
    if req.key in s.open {
      var t := Dispatch(s, req, fate);
      if req.SyncDrain? {
        DrainIsTold(s, req.key, fate, fate.storage);
      } else if req.SyncClose? {
        CloseIsTold(s, req.key, fate, fate.storage);
      } else {
        assert BecameOf(t, |s.past|, req.key, t.open[req.key].w);
      }
    }
  }

  /** The listings name what is open, each once. */
  lemma ListingsTellWhatIsOpen(s: Worker, req: Request, st: Storage, r: SyncReply)
    requires (req.SyncFiles? || req.SyncJobs?) && Answers(s, req, st, r)
    ensures r.err.None?
    ensures req.SyncFiles? ==> forall i :: i in r.files <==> FileKey(req.job, i) in s.open
    ensures req.SyncJobs? ==> forall j :: j in r.jobs <==> exists i :: FileKey(j, i) in s.open
    ensures forall i, j | 0 <= i < j < |r.files| :: r.files[i] != r.files[j]
    ensures forall i, j | 0 <= i < j < |r.jobs| :: r.jobs[i] != r.jobs[j]
  {
    if req.SyncFiles? {
      forall i ensures i in r.files <==> FileKey(req.job, i) in s.open {
        assert i in (set k | k in s.open && k.jobID == req.job :: k.fileIdx) <==> FileKey(req.job, i) in s.open;
      }
    } else {
      forall j ensures j in r.jobs <==> exists i :: FileKey(j, i) in s.open {
        if j in r.jobs {
          var k :| k in s.open && k.jobID == j;
          assert FileKey(j, k.fileIdx) in s.open;
        }
      }
    }
  }
}
