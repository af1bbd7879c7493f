/**
 * The worker behind the checkpoint protocol: what the protocol takes a file to hold covers what the worker
 * really holds, so a reload that the protocol calls safe is safe of the worker.
 */
module Refinement {
  import opened Types
  import FileBuffer
  import opened Writing
  import opened WriterRuns
  import opened DrainTruth
  import opened HeldArticles
  import opened Assembly
  import opened WorkerMoves
  import opened WorkerFiles
  import opened WorkerLedger
  import P = AtRisk
  import ReloadSafety

  // ----- what the worker holds

  /** An open file holds the article: buffered, or claimed and not confirmed. */
  ghost predicate Held(s: Worker, k: FileKey, id: int) {
    k in s.open && Holding(FileOf(s, k), [], id)
  }

  ghost predicate FilesSound(s: Worker) {
    AllFiles(s, Sound, s.limit)
  }

  lemma SameFileHolds(f: File, g: File, id: int)
    requires g.w.reported == f.w.reported && g.w.written == f.w.written && g.buf == f.buf && Holding(g, [], id)
    ensures Holding(f, [], id)
  {
    FewerFlyHolds(f, [], g, []);
  }

  lemma OpenedFileHoldsNothing(s: Worker, k: FileKey, info: FileInfo, handle: Disk, id: int)
    requires k !in s.perFile
    ensures !Held(OpenTarget(s, k, info, handle), k, id)
  {
    var f := FileOf(OpenTarget(s, k, info, handle), k);
    assert f.Articles() == map[];
    NobodyFlies(f, id);
  }

  lemma PutHolds(s: Worker, key: FileKey, f: File, k: FileKey, id: int)
    requires key in s.open && Held(PutFile(s, key, f), k, id)
    ensures if k == key then Holding(f, [], id) else Held(s, k, id)
  {
    SameFileHolds(if k == key then f else FileOf(s, k), FileOf(PutFile(s, key, f), k), id);
  }

  /** Nothing about the file has changed but what it has to route, or which buffers have come back. */
  ghost predicate Alike(s: Worker, t: Worker, k: FileKey) {
    k in t.open ==>
      k in s.open && FileBuffer.BufAt(t.perFile, k) == FileBuffer.BufAt(s.perFile, k)
      && t.open[k].w.reported == s.open[k].w.reported && t.open[k].w.written == s.open[k].w.written
  }

  lemma AlikeHolds(s: Worker, t: Worker, k: FileKey, id: int)
    requires Alike(s, t, k) && Held(t, k, id)
    ensures Held(s, k, id)
  {
    SameFileHolds(FileOf(s, k), FileOf(t, k), id);
  }

  lemma QuietMoveIsAlike(s: Worker, m: Move, A: Demand, k: FileKey)
    requires s.perFile.Keys <= s.open.Keys && Can(s, m, A)
    requires !m.Deliver? && !m.Act? && !(m.Open? && m.key == k)
    ensures Alike(s, Do(s, m, A), k)
  {
  }

  /** No move makes a file hold an article but the article's own delivery. */
  lemma MoveHolds(s: Worker, m: Move, A: Demand, k: FileKey, id: int)
    requires FilesSound(s) && Can(s, m, A) && !(m.Deliver? && m.key == k && m.a.id == id)
    requires !Held(s, k, id)
    ensures !Held(Do(s, m, A), k, id)
  {
    if m.Open? && m.key == k {
      OpenedFileHoldsNothing(s, k, m.info, m.handle, id);
    } else if Held(Do(s, m, A), k, id) {
      if m.Deliver? {
        DeliveryHolds(s, m.key, m.a, k, id);
      } else if m.Act? {
        ActHolds(s, m.key, m.op, k, id);
      } else {
        QuietMoveIsAlike(s, m, A, k);
        AlikeHolds(s, Do(s, m, A), k, id);
      }
    }
  }

  lemma DeliveryHolds(s: Worker, key: FileKey, a: BufferedArticle, k: FileKey, id: int)
    requires FilesSound(s) && key in s.open && !(key == k && a.id == id) && Held(DeliverAt(s, key, a).0, k, id)
    ensures Held(s, k, id)
  {
    assert Sound(key, s.open[key].info, FileOf(s, key));
    PutHolds(s, key, HandleSuccess(FileOf(s, key), s.limit, s.open[key].info, a).0, k, id);
    HandleSuccessHolds(FileOf(s, key), s.limit, s.open[key].info, a);
  }

  lemma ActHolds(s: Worker, key: FileKey, op: FileOp, k: FileKey, id: int)
    requires FilesSound(s) && key in s.open && !op.Arrive?
    requires Held(PutFile(s, key, Step(FileOf(s, key), s.limit, s.open[key].info, op)), k, id)
    ensures Held(s, k, id)
  {
    assert Sound(key, s.open[key].info, FileOf(s, key));
    PutHolds(s, key, Step(FileOf(s, key), s.limit, s.open[key].info, op), k, id);
    StepHolds(FileOf(s, key), s.limit, s.open[key].info, op);
  }

  lemma SoundFilesAreKept(limit: int)
    ensures Stable((s: Worker) => FilesSound(s) && s.limit == limit, Anything)
  {
    forall s: Worker, m: Move | FilesSound(s) && s.limit == limit && Can(s, m, Anything)
      ensures FilesSound(Do(s, m, Anything)) && Do(s, m, Anything).limit == limit
    {
      SoundIsKept(limit);
      MoveKeepsFiles(s, m, Sound, Anything, limit);
    }
  }

  /** The request delivers this article to this file. */
  predicate Brings(req: Request, k: FileKey, id: int) {
    req.Article? && !req.fatal && req.key == k && req.a.id == id
  }

  /** Serving a request makes a file hold no article but the one the request brings. */
  lemma RequestHolds(s: Worker, req: Request, fate: Fate, k: FileKey, id: int)
    requires FilesSound(s) && !Held(s, k, id) && !Brings(req, k, id)
    ensures !Held(Dispatch(s, req, fate), k, id)
  {
    var A: Demand := (key: FileKey, a: BufferedArticle) => !(key == k && a.id == id);
    var W := (t: Worker) => FilesSound(t) && !Held(t, k, id);
    forall t: Worker, m: Move | W(t) && Can(t, m, A) ensures W(Do(t, m, A)) {
      SoundIsKept(t.limit);
      MoveKeepsFiles(t, m, Sound, Anything, t.limit);
      assert Do(t, m, A) == Do(t, m, Anything);
      MoveHolds(t, m, A, k, id);
    }
    DispatchKeeps(s, req, fate, W, A);
  }

  lemma RequestKeepsSound(s: Worker, req: Request, fate: Fate)
    requires FilesSound(s)
    ensures FilesSound(Dispatch(s, req, fate))
  {
    SoundFilesAreKept(s.limit);
    DispatchKeeps(s, req, fate, (t: Worker) => FilesSound(t) && t.limit == s.limit, Anything);
  }

  // ----- what the protocol keeps of each delivery

  /** What the checkpoint of a job, while it drains, has been reported. */
  function Got(a: P.State, job: JobId): set<nat> {
    if job in a.checkpoints && a.checkpoints[job].stage.Draining? then a.checkpoints[job].stage.got else {}
  }

  /** A delivery is put once: it is queued in one place, or held, or stranded; none reported is still queued. */
  ghost predicate PutOnce(a: P.State) {
    && (forall i, j | 0 <= i < j < |a.reqs| && a.reqs[i].Put? && a.reqs[j].Put? :: a.reqs[i].t != a.reqs[j].t)
    && P.Queued(a.reqs) !! a.held && P.Queued(a.reqs) !! a.stranded && a.held !! a.stranded
    && P.Queued(a.reqs) + a.held + a.stranded <= a.flow.sent
    && forall j :: Got(a, j) !! P.Queued(a.reqs) && Got(a, j) <= a.flow.sent
  }

  lemma HeadLeavesTheQueue(reqs: seq<P.Msg>)
    requires reqs != []
    requires forall i, j | 0 <= i < j < |reqs| && reqs[i].Put? && reqs[j].Put? :: reqs[i].t != reqs[j].t
    ensures P.Queued(reqs[1..]) == P.Queued(reqs) - (if reqs[0].Put? then {reqs[0].t} else {})
    ensures forall i, j | 0 <= i < j < |reqs[1..]| && reqs[1..][i].Put? && reqs[1..][j].Put? :: reqs[1..][i].t != reqs[1..][j].t
  {
    ReloadSafety.QueuedTail(reqs);
    forall j | 0 <= j < |reqs[1..]| && reqs[1..][j].Put? && reqs[0].Put? ensures reqs[1..][j].t != reqs[0].t {
      assert reqs[1..][j] == reqs[j + 1];
    }
    forall i, j | 0 <= i < j < |reqs[1..]| && reqs[1..][i].Put? && reqs[1..][j].Put? ensures reqs[1..][i].t != reqs[1..][j].t {
      assert reqs[1..][i] == reqs[i + 1] && reqs[1..][j] == reqs[j + 1];
    }
  }

  lemma ServeKeepsGot(w: P.World, a: P.State, opens: bool, keep: bool, job: JobId)
    requires a.reqs != []
    ensures var b := P.ServeHead(w, a, opens, keep);
            && (Got(b, job) <= Got(a, job) + if a.reqs[0].DrainOne? then a.held else {})
            && (!a.reqs[0].DrainOne? ==> Got(b, job) == Got(a, job) || Got(a, job) == {} == Got(b, job))
  {
  }

  lemma ServeKeepsPutOnce(w: P.World, a: P.State, opens: bool, keep: bool)
    requires PutOnce(a) && a.reqs != []
    ensures PutOnce(P.ServeHead(w, a, opens, keep))
  {
    var b := P.ServeHead(w, a, opens, keep);
    HeadLeavesTheQueue(a.reqs);
    forall j ensures Got(b, j) !! P.Queued(b.reqs) && Got(b, j) <= b.flow.sent {
      ServeKeepsGot(w, a, opens, keep, j);
      assert Got(a, j) !! P.Queued(a.reqs);
    }
  }

  lemma SendKeepsPutOnce(w: P.World, a: P.State, t: nat)
    requires PutOnce(a) && ReloadSafety.Placed(a.flow) && t in a.flow.handling
    ensures PutOnce(P.Flowing(w, a, P.Send(t)))
  {
    var b := P.Flowing(w, a, P.Send(t));
    ReloadSafety.QueuedAppend(a.reqs, P.Put(t));
    assert t !in P.Queued(a.reqs);
    forall i | 0 <= i < |a.reqs| && a.reqs[i].Put? ensures a.reqs[i].t != t {
      assert a.reqs[i].t in P.Queued(a.reqs);
    }
    forall j ensures Got(b, j) == Got(a, j) && Got(a, j) !! P.Queued(a.reqs) && Got(a, j) <= a.flow.sent {
    }
  }

  /** A request of the barrier's changes nothing about what is queued. */
  lemma AskingKeepsPutOnce(a: P.State, b: P.State, m: P.Msg)
    requires PutOnce(a) && !m.Put? && b.reqs == a.reqs + [m]
    requires b.held <= a.held && b.stranded == a.stranded && b.flow == a.flow
    requires forall j :: Got(b, j) <= Got(a, j)
    ensures PutOnce(b)
  {
    ReloadSafety.QueuedAppend(a.reqs, m);
    forall j ensures Got(b, j) !! P.Queued(b.reqs) && Got(b, j) <= b.flow.sent {
      assert Got(a, j) !! P.Queued(a.reqs);
    }
  }

  lemma FewerHeldKeepPutOnce(a: P.State, b: P.State)
    requires PutOnce(a) && b.reqs == a.reqs && a.flow.sent <= b.flow.sent
    requires b.held <= a.held && b.held + b.stranded <= a.held + a.stranded && b.held !! b.stranded
    requires forall j :: Got(b, j) <= Got(a, j)
    ensures PutOnce(b)
  {
    forall j ensures Got(b, j) !! P.Queued(b.reqs) && Got(b, j) <= b.flow.sent {
      assert Got(a, j) !! P.Queued(a.reqs);
    }
  }

  lemma EventKeepsPutOnce(w: P.World, a: P.State, e: P.Event)
    requires PutOnce(a) && ReloadSafety.Placed(a.flow) && P.Enabled(w, a, e)
    ensures PutOnce(P.Happen(w, a, e))
  {
    var b := P.Happen(w, a, e);
    if e.OfWorker? && e.w.Serve? {
      ServeKeepsPutOnce(w, a, e.w.opens, e.w.keep);
    } else if e.OfFlow? && e.f.Send? {
      SendKeepsPutOnce(w, a, e.f.t);
    } else if b.reqs != a.reqs {
      AskingKeepsPutOnce(a, b, b.reqs[|a.reqs|]);
    } else {
      FewerHeldKeepPutOnce(a, b);
    }
  }

  /** A checkpoint drains files of its own job, and is reported deliveries of its own job. */
  ghost predicate DrainsItsOwn(w: P.World, a: P.State) {
    && (forall i, j | 0 <= i < |a.reqs| && a.reqs[i].DrainOne? && j in a.checkpoints && a.checkpoints[j].id == a.reqs[i].id ::
          a.reqs[i].key.jobID == j)
    && (forall j | j in a.checkpoints && a.checkpoints[j].stage.Draining? ::
          forall k | k in a.checkpoints[j].stage.files :: k.jobID == j)
    && (forall j, t | t in Got(a, j) :: w.Job(t) == j)
  }

  lemma ServeDrainsItsOwn(w: P.World, a: P.State, opens: bool, keep: bool)
    requires DrainsItsOwn(w, a) && a.reqs != []
    ensures DrainsItsOwn(w, P.ServeHead(w, a, opens, keep))
  {
    var b := P.ServeHead(w, a, opens, keep);
    forall i, j | 0 <= i < |b.reqs| && b.reqs[i].DrainOne? && j in b.checkpoints && b.checkpoints[j].id == b.reqs[i].id
      ensures b.reqs[i].key.jobID == j
    {
      assert b.reqs[i] == a.reqs[i + 1];
    }
    forall j, t | t in Got(b, j) ensures w.Job(t) == j {
      if t !in Got(a, j) {
        assert a.reqs[0].DrainOne? && a.checkpoints[j].id == a.reqs[0].id && w.file(t) == a.reqs[0].key;
      }
    }
  }

  lemma CheckpointDrainsItsOwn(w: P.World, a: P.State, e: P.CheckpointEvent)
    requires DrainsItsOwn(w, a) && ReloadSafety.IdsMinted(a) && P.CheckpointEnabled(a, e)
    ensures DrainsItsOwn(w, P.Checking(w, a, e))
  {
    var b := P.Checking(w, a, e);
    forall i, j | 0 <= i < |b.reqs| && b.reqs[i].DrainOne? && j in b.checkpoints && b.checkpoints[j].id == b.reqs[i].id
      ensures b.reqs[i].key.jobID == j
    {
      if i < |a.reqs| {
        assert ReloadSafety.IdOf(a.reqs[i]).Some?;
      }
    }
    forall j ensures Got(b, j) <= Got(a, j) {
    }
  }

  /** No checkpoint has moved, and no drain been asked for. */
  lemma StillDrainsItsOwn(w: P.World, a: P.State, b: P.State)
    requires DrainsItsOwn(w, a)
    requires b.reqs == a.reqs || (b.reqs != [] && b.reqs[..|b.reqs| - 1] == a.reqs && !b.reqs[|b.reqs| - 1].DrainOne?)
    requires b.checkpoints.Keys == a.checkpoints.Keys
    requires forall j | j in a.checkpoints :: b.checkpoints[j].id == a.checkpoints[j].id && b.checkpoints[j].stage == a.checkpoints[j].stage
    ensures DrainsItsOwn(w, b)
  {
    forall j ensures Got(b, j) == Got(a, j) {
    }
    forall i, j | 0 <= i < |b.reqs| && b.reqs[i].DrainOne? && j in b.checkpoints && b.checkpoints[j].id == b.reqs[i].id
      ensures b.reqs[i].key.jobID == j
    {
      assert i < |a.reqs| && b.reqs[i] == a.reqs[i];
    }
  }

  lemma EventDrainsItsOwn(w: P.World, a: P.State, e: P.Event)
    requires DrainsItsOwn(w, a) && ReloadSafety.IdsMinted(a) && P.Enabled(w, a, e)
    ensures DrainsItsOwn(w, P.Happen(w, a, e))
  {
    if e.OfWorker? && e.w.Serve? {
      ServeDrainsItsOwn(w, a, e.w.opens, e.w.keep);
    } else if e.OfCheckpoint? {
      CheckpointDrainsItsOwn(w, a, e.c);
    } else {
      StillDrainsItsOwn(w, a, P.Happen(w, a, e));
    }
  }

  /** Everything the protocol keeps. */
  ghost predicate ProtocolSound(w: P.World, a: P.State) {
    ReloadSafety.Sound(w, a) && PutOnce(a) && DrainsItsOwn(w, a)
  }

  lemma EventKeepsProtocol(w: P.World, a: P.State, e: P.Event)
    requires ProtocolSound(w, a) && P.Enabled(w, a, e)
    ensures ProtocolSound(w, P.Happen(w, a, e))
  {
    ReloadSafety.EventKeepsSound(w, a, e);
    EventKeepsPutOnce(w, a, e);
    EventDrainsItsOwn(w, a, e);
  }

  // ----- the worker and the protocol, step by step together

  /** Which article of its file each delivery carries. */
  type Carrying = nat -> int

  /** The worker; the protocol; the articles acked; and what the drains of each job's checkpoint reported. */
  datatype Joint = Joint(s: Worker, a: P.State, acked: map<FileKey, set<int>>, reports: map<FileKey, set<int>>)

  datatype Event =
    // Anything of the protocol that the worker takes no part in.
    | Aside(e: P.Event)
    // The worker serves the request at the head of its channel.
    | Head(req: Request, fate: Fate)
    // A checkpoint, or the finalizing of a file, acks what its drains reported.
    | AckJob(job: JobId)
    | AckFile(key: FileKey)
    // A barrier request about one file that no checkpoint waits for, or the forgetting of a job.
    | Alone(req: Request, fate: Fate)
    // A file, or all files of a job that is going away, closed.
    | CloseFile(key: FileKey, fate: Fate)
    | EndJob(req: Request, fate: Fate)

  function At(m: map<FileKey, set<int>>, k: FileKey): set<int> {
    if k in m then m[k] else {}
  }

  /** The request is the one the message at the head of the channel stands for. */
  predicate Carries(w: P.World, arts: Carrying, m: P.Msg, req: Request) {
    match m
    case Put(t) => req.Article? && req.key == w.file(t) && req.a.id == arts(t)
    case ListFiles(_) => req.SyncFiles?
    case DrainOne(_, key) => req == SyncDrain(key)
    case ListJobs(_) => req.SyncJobs?
  }

  /** Every article the file still holds has been acked. */
  ghost predicate AllAcked(j: Joint, key: FileKey) {
    forall id | Held(j.s, key, id) :: id in At(j.acked, key)
  }

  ghost predicate MayAside(w: P.World, arts: Carrying, j: Joint, e: P.Event) {
    match e
    case OfFlow(_) => true
    case OfCheckpoint(c) => !c.AckJob?
    case OfReload(_) => true
    case OfWorker(x) =>
      match x
      // An article stops being held when the worker has taken it back, refused it or seen it acked.
      case Resolve(t) => Held(j.s, w.file(t), arts(t)) ==> arts(t) in At(j.acked, w.file(t))
      case Finalized(key) => AllAcked(j, key)
      case _ => false
  }

  ghost predicate Enabled(w: P.World, arts: Carrying, j: Joint, e: Event) {
    match e
    case Aside(x) => P.Enabled(w, j.a, x) && MayAside(w, arts, j, x)
    case Head(req, _) => j.a.reqs != [] && Carries(w, arts, j.a.reqs[0], req)
    case AckJob(job) => P.CheckpointEnabled(j.a, P.AckJob(job))
    case AckFile(key) => key in j.s.open
    case Alone(req, _) =>
      req.SyncDrain? || req.SyncConfirm? || req.SyncTruncate? || req.SyncFsync? || req.SyncStat? || req.ForgetJob?
    case CloseFile(_, _) => true
    case EndJob(req, fate) => (req.CancelJob? || req.CloseHandles?) && Possible(j.s, req, fate)
  }

  /** The reported articles of a file. */
  ghost function ReportedBy(w: Writer): set<int> {
    set i | 0 <= i < |w.reported| :: w.reported[i].artIdx
  }

  /** The drain at the head is one the job's checkpoint is still waiting for. */
  predicate IsAwaited(a: P.State, m: P.Msg) {
    m.DrainOne? && m.key.jobID in a.checkpoints && a.checkpoints[m.key.jobID].id == m.id
    && a.checkpoints[m.key.jobID].stage.Draining?
  }

  function Without(m: map<FileKey, set<int>>, job: JobId): map<FileKey, set<int>> {
    map k | k in m && k.jobID != job :: m[k]
  }

  function Merged(m: map<FileKey, set<int>>, n: map<FileKey, set<int>>, job: JobId): map<FileKey, set<int>> {
    map k | k in m.Keys + n.Keys :: At(m, k) + if k.jobID == job then At(n, k) else {}
  }

  /** Once served, a delivery's file is open, and its article waits there for an ack. */
  predicate Opens(w: P.World, m: P.Msg, t: Worker) {
    m.Put? && w.file(m.t) in t.open
  }

  ghost predicate Keeps(w: P.World, arts: Carrying, j: Joint, m: P.Msg, t: Worker) {
    m.Put? && Held(t, w.file(m.t), arts(m.t)) && arts(m.t) !in At(j.acked, w.file(m.t))
  }

  ghost function AfterHead(w: P.World, arts: Carrying, j: Joint, req: Request, fate: Fate): Joint
    requires j.a.reqs != []
  {
    var m, t := j.a.reqs[0], Dispatch(j.s, req, fate);
    Joint(t, P.ServeHead(w, j.a, Opens(w, m, t), Keeps(w, arts, j, m, t)), j.acked,
          if IsAwaited(j.a, m) && m.key in t.open
          then j.reports[m.key := At(j.reports, m.key) + ReportedBy(t.open[m.key].w)] else j.reports)
  }

  ghost function Happen(w: P.World, arts: Carrying, j: Joint, e: Event): Joint
    requires Enabled(w, arts, j, e)
  {
    match e
    case Aside(x) =>
      var b := P.Happen(w, j.a, x);
      // A checkpoint that begins has been reported nothing yet.
      j.(a := b, reports := if x.OfCheckpoint? && x.c.Begin? then Without(j.reports, x.c.job) else j.reports)
    case Head(req, fate) => AfterHead(w, arts, j, req, fate)
    case AckJob(job) => j.(a := P.Checking(w, j.a, P.AckJob(job)), acked := Merged(j.acked, j.reports, job))
    case AckFile(key) =>
      var n := j.(acked := j.acked[key := At(j.acked, key) + ReportedBy(j.s.open[key].w)]);
      if AllAcked(n, key) then n.(a := P.Working(w, j.a, P.Finalized(key))) else n
    case Alone(req, fate) => j.(s := Dispatch(j.s, req, fate))
    case CloseFile(key, fate) =>
      j.(s := Dispatch(j.s, SyncClose(key), fate), a := P.Working(w, j.a, P.CloseFile(key)))
    case EndJob(req, fate) =>
      j.(s := Dispatch(j.s, req, fate), a := P.Working(w, j.a, P.Retire(req.job)))
  }

  ghost function Course(w: P.World, arts: Carrying, limit: int, events: seq<Event>): Joint
    decreases |events|
  {
    if events == [] then Joint(NewWorker(limit), P.Initially, map[], map[])
    else
      var j := Course(w, arts, limit, events[..|events| - 1]);
      if Enabled(w, arts, j, events[|events| - 1]) then Happen(w, arts, j, events[|events| - 1]) else j
  }

  // ----- the protocol covers the worker

  ghost predicate Covered(w: P.World, arts: Carrying, held: set<nat>, k: FileKey, id: int) {
    exists t :: t in held && w.file(t) == k && arts(t) == id
  }

  /**
   * An article held and not acked is one the protocol takes to be held, and unless the job's checkpoint has
   * been reported it, one that checkpoint will not take away.
   */
  ghost predicate Linked(w: P.World, arts: Carrying, j: Joint, k: FileKey, id: int) {
    Held(j.s, k, id) && id !in At(j.acked, k) ==>
      && Covered(w, arts, j.a.held, k, id)
      && (id !in At(j.reports, k) ==> Covered(w, arts, j.a.held - Got(j.a, k.jobID), k, id))
  }

  ghost predicate AllLinked(w: P.World, arts: Carrying, j: Joint) {
    j.a.open == j.s.open.Keys && forall k, id :: Linked(w, arts, j, k, id)
  }

  ghost predicate Tied(w: P.World, arts: Carrying, j: Joint) {
    ProtocolSound(w, j.a) && FilesSound(j.s) && AllLinked(w, arts, j)
  }

  lemma StillCovered(w: P.World, arts: Carrying, held: set<nat>, more: set<nat>, k: FileKey, id: int)
    requires Covered(w, arts, held, k, id)
    requires forall t | t in held && w.file(t) == k && arts(t) == id :: t in more
    ensures Covered(w, arts, more, k, id)
  {
    var t :| t in held && w.file(t) == k && arts(t) == id;
    assert t in more;
  }

  /** The worker holds no more, the protocol no less, of an article. */
  lemma StaysLinked(w: P.World, arts: Carrying, j: Joint, n: Joint, k: FileKey, id: int)
    requires Linked(w, arts, j, k, id)
    requires Held(n.s, k, id) && id !in At(n.acked, k) ==> Held(j.s, k, id) && id !in At(j.acked, k)
    requires forall t | t in j.a.held && w.file(t) == k && arts(t) == id :: t in n.a.held
    requires Got(n.a, k.jobID) <= Got(j.a, k.jobID)
    requires id in At(j.reports, k) ==> id in At(n.reports, k) || Got(n.a, k.jobID) == {}
    ensures Linked(w, arts, n, k, id)
  {
    if Held(n.s, k, id) && id !in At(n.acked, k) {
      StillCovered(w, arts, j.a.held, n.a.held, k, id);
      if id !in At(j.reports, k) {
        StillCovered(w, arts, j.a.held - Got(j.a, k.jobID), n.a.held - Got(n.a, k.jobID), k, id);
      } else if id !in At(n.reports, k) {
        assert n.a.held - Got(n.a, k.jobID) == n.a.held;
      }
    }
  }

  // ----- which files are open

  lemma ArticleOpens(s: Worker, req: Request, fate: Fate)
    requires req.Article?
    ensures var t := Dispatch(s, req, fate);
            t.open.Keys == if req.key in t.open then s.open.Keys + {req.key} else s.open.Keys
  {
  }

  lemma {:induction false} CancelLeavesOpen(s: Worker, keys: seq<FileKey>, keep: bool)
    ensures forall k :: k in CancelFiles(s, keys, keep).open <==> k in s.open && k !in keys
    decreases |keys|
  {
    if keys != [] {
      var t := if keys[0] in s.open then Tombstone(CloseCancelled(s, keys[0], keep), keys[0]) else s;
      assert forall k :: k in t.open <==> k in s.open && k != keys[0];
      CancelLeavesOpen(t, keys[1..], keep);
      assert forall k :: k in keys <==> k == keys[0] || k in keys[1..];
    }
  }

  lemma {:induction false} CloseLeavesOpen(s: Worker, keys: seq<FileKey>)
    ensures forall k :: k in CloseFiles(s, keys).open <==> k in s.open && k !in keys
    decreases |keys|
  {
    if keys != [] {
      var t := if keys[0] in s.open then Tombstone(DrainAndClose(s, keys[0]), keys[0]) else s;
      assert forall k :: k in t.open <==> k in s.open && k != keys[0];
      CloseLeavesOpen(t, keys[1..]);
      assert forall k :: k in keys <==> k == keys[0] || k in keys[1..];
    }
  }

  lemma EndingClosesTheJob(s: Worker, req: Request, fate: Fate)
    requires (req.CancelJob? || req.CloseHandles?) && Possible(s, req, fate)
    ensures forall k :: k in Dispatch(s, req, fate).open <==> k in s.open && k.jobID != req.job
  {
    if req.CancelJob? {
      CancelLeavesOpen(s.(cancelled := s.cancelled + {req.job}), fate.order, req.keep);
    } else {
      CloseLeavesOpen(s, fate.order);
    }
  }

  // ----- every step

  /** A checkpoint that starts over has been reported nothing; any other keeps what it has been reported. */
  lemma AsideKeepsReports(w: P.World, arts: Carrying, j: Joint, x: P.Event, k: FileKey)
    requires Enabled(w, arts, j, Aside(x))
    ensures var n := Happen(w, arts, j, Aside(x));
            && Got(n.a, k.jobID) <= Got(j.a, k.jobID)
            && (At(n.reports, k) == At(j.reports, k) || Got(n.a, k.jobID) == {})
  {
  }

  lemma AsideKeepsHeld(w: P.World, arts: Carrying, j: Joint, x: P.Event, k: FileKey, id: int, t: nat)
    requires Enabled(w, arts, j, Aside(x)) && Held(j.s, k, id) && id !in At(j.acked, k)
    requires t in j.a.held && w.file(t) == k && arts(t) == id
    ensures t in Happen(w, arts, j, Aside(x)).a.held
  {
  }

  lemma AsideStaysLinked(w: P.World, arts: Carrying, j: Joint, x: P.Event, k: FileKey, id: int)
    requires Linked(w, arts, j, k, id) && Enabled(w, arts, j, Aside(x))
    ensures Linked(w, arts, Happen(w, arts, j, Aside(x)), k, id)
  {
    var n := Happen(w, arts, j, Aside(x));
    assert n.s == j.s && n.acked == j.acked;
    if Held(j.s, k, id) && id !in At(j.acked, k) {
      AsideKeepsReports(w, arts, j, x, k);
      forall t | t in j.a.held && w.file(t) == k && arts(t) == id ensures t in n.a.held {
        AsideKeepsHeld(w, arts, j, x, k, id, t);
      }
      StaysLinked(w, arts, j, n, k, id);
    }
  }

  lemma AsideStaysTied(w: P.World, arts: Carrying, j: Joint, x: P.Event)
    requires Tied(w, arts, j) && Enabled(w, arts, j, Aside(x))
    ensures Tied(w, arts, Happen(w, arts, j, Aside(x)))
  {
    EventKeepsProtocol(w, j.a, x);
    forall k, id ensures Linked(w, arts, Happen(w, arts, j, Aside(x)), k, id) {
      AsideStaysLinked(w, arts, j, x, k, id);
    }
  }

  /** Serving a listing changes nothing the worker holds. */
  lemma ListingStaysLinked(w: P.World, arts: Carrying, j: Joint, req: Request, fate: Fate, k: FileKey, id: int)
    requires Linked(w, arts, j, k, id) && Enabled(w, arts, j, Head(req, fate)) && (req.SyncFiles? || req.SyncJobs?)
    ensures Linked(w, arts, Happen(w, arts, j, Head(req, fate)), k, id)
  {
    StaysLinked(w, arts, j, Happen(w, arts, j, Head(req, fate)), k, id);
  }

  /** What serving a delivery does to the protocol. */
  lemma PutServed(w: P.World, arts: Carrying, j: Joint, req: Request, fate: Fate)
    requires Enabled(w, arts, j, Head(req, fate)) && req.Article?
    ensures var n := Happen(w, arts, j, Head(req, fate));
            && n.s == Dispatch(j.s, req, fate) && n.acked == j.acked && n.reports == j.reports
            && n.a.checkpoints == j.a.checkpoints
            && n.a.held == (if Held(n.s, req.key, req.a.id) && req.a.id !in At(j.acked, req.key)
                            then j.a.held + {j.a.reqs[0].t} else j.a.held)
            && n.a.open == (if req.key in n.s.open then j.a.open + {req.key} else j.a.open)
  {
  }

  /** A delivery served is held by the protocol whenever the worker may hold its article. */
  lemma PutStaysLinked(w: P.World, arts: Carrying, j: Joint, req: Request, fate: Fate, k: FileKey, id: int)
    requires Linked(w, arts, j, k, id) && FilesSound(j.s) && PutOnce(j.a)
    requires Enabled(w, arts, j, Head(req, fate)) && req.Article?
    ensures Linked(w, arts, Happen(w, arts, j, Head(req, fate)), k, id)
  {
    var n := Happen(w, arts, j, Head(req, fate));
    PutServed(w, arts, j, req, fate);
    if Held(n.s, k, id) && id !in At(n.acked, k) {
      if Brings(req, k, id) {
        DeliveryIsCovered(w, arts, j.a, n.a, req, k, id);
      } else {
        if !Held(j.s, k, id) {
          RequestHolds(j.s, req, fate, k, id);
        }
        StaysLinked(w, arts, j, n, k, id);
      }
    }
  }

  lemma DeliveryIsCovered(w: P.World, arts: Carrying, a: P.State, b: P.State, req: Request, k: FileKey, id: int)
    requires PutOnce(a) && a.reqs != [] && Carries(w, arts, a.reqs[0], req) && Brings(req, k, id)
    requires b.checkpoints == a.checkpoints && b.held == a.held + {a.reqs[0].t}
    ensures Covered(w, arts, b.held, k, id) && Covered(w, arts, b.held - Got(b, k.jobID), k, id)
  {
    var t := a.reqs[0].t;
    assert t in P.Queued(a.reqs);
    assert Got(b, k.jobID) == Got(a, k.jobID) && Got(a, k.jobID) !! P.Queued(a.reqs);
    assert t in b.held && t !in Got(b, k.jobID) && w.file(t) == k && arts(t) == id;
  }

  lemma DrainedFile(s: Worker, key: FileKey, fate: Fate)
    requires key in s.open
    ensures var t, f := Dispatch(s, SyncDrain(key), fate), Drain(FileOf(s, key)).0;
            && key in t.open && FileBuffer.BufAt(t.perFile, key) == f.buf
            && t.open[key].w.reported == f.w.reported && t.open[key].w.written == f.w.written
  {
  }

  /** A drain reports every article its file holds. */
  lemma DrainReportsHeld(s: Worker, key: FileKey, fate: Fate, id: int)
    requires FilesSound(s) && key in s.open
    ensures var t := Dispatch(s, SyncDrain(key), fate);
            key in t.open && (Held(t, key, id) ==> id in ReportedBy(t.open[key].w))
  {
    var t := Dispatch(s, SyncDrain(key), fate);
    var f := Drain(FileOf(s, key)).0;
    DrainedFile(s, key, fate);
    assert Sound(key, s.open[key].info, FileOf(s, key));
    if Held(t, key, id) {
      SameFileHolds(f, FileOf(t, key), id);
      DrainReportsAllHeld(FileOf(s, key), id);
      assert Reports(t.open[key].w.reported, id);
    }
  }

  /** What the protocol and the record of reports become when a drain is served. */
  lemma DrainServed(w: P.World, arts: Carrying, j: Joint, req: Request, fate: Fate, k: FileKey)
    requires Enabled(w, arts, j, Head(req, fate)) && req.SyncDrain?
    ensures var n := Happen(w, arts, j, Head(req, fate));
            && n.s == Dispatch(j.s, req, fate) && n.acked == j.acked && n.a.held == j.a.held
            && (forall t | t in Got(n.a, k.jobID) && w.file(t) == k && t !in Got(j.a, k.jobID) ::
                  k == req.key && IsAwaited(j.a, j.a.reqs[0]))
            && At(j.reports, k) <= At(n.reports, k)
            && (k == req.key && IsAwaited(j.a, j.a.reqs[0]) && k in n.s.open ==>
                  ReportedBy(n.s.open[k].w) <= At(n.reports, k))
  {
  }

  lemma DrainStaysLinked(w: P.World, arts: Carrying, j: Joint, req: Request, fate: Fate, k: FileKey, id: int)
    requires Linked(w, arts, j, k, id) && FilesSound(j.s)
    requires Enabled(w, arts, j, Head(req, fate)) && req.SyncDrain?
    ensures Linked(w, arts, Happen(w, arts, j, Head(req, fate)), k, id)
  {
    var n := Happen(w, arts, j, Head(req, fate));
    DrainServed(w, arts, j, req, fate, k);
    if Held(n.s, k, id) && id !in At(n.acked, k) {
      if !Held(j.s, k, id) {
        RequestHolds(j.s, req, fate, k, id);
      }
      if k == req.key && IsAwaited(j.a, j.a.reqs[0]) {
        DrainReportsHeld(j.s, k, fate, id);
      } else if id !in At(n.reports, k) {
        StillCovered(w, arts, j.a.held - Got(j.a, k.jobID), n.a.held - Got(n.a, k.jobID), k, id);
      }
    }
  }

  lemma HeadKeepsOpen(w: P.World, arts: Carrying, j: Joint, req: Request, fate: Fate)
    requires j.a.open == j.s.open.Keys && Enabled(w, arts, j, Head(req, fate))
    ensures var n := Happen(w, arts, j, Head(req, fate)); n.a.open == n.s.open.Keys
  {
    if req.Article? {
      ArticleOpens(j.s, req, fate);
      PutServed(w, arts, j, req, fate);
    }
  }

  lemma HeadStaysLinked(w: P.World, arts: Carrying, j: Joint, req: Request, fate: Fate, k: FileKey, id: int)
    requires Linked(w, arts, j, k, id) && FilesSound(j.s) && PutOnce(j.a) && Enabled(w, arts, j, Head(req, fate))
    ensures Linked(w, arts, Happen(w, arts, j, Head(req, fate)), k, id)
  {
    match req
    case Article(_, _, _) => PutStaysLinked(w, arts, j, req, fate, k, id);
    case SyncDrain(_) => DrainStaysLinked(w, arts, j, req, fate, k, id);
    case _ => ListingStaysLinked(w, arts, j, req, fate, k, id);
  }

  lemma HeadKeepsProtocol(w: P.World, arts: Carrying, j: Joint, req: Request, fate: Fate)
    requires ProtocolSound(w, j.a) && FilesSound(j.s) && Enabled(w, arts, j, Head(req, fate))
    ensures var n := Happen(w, arts, j, Head(req, fate)); ProtocolSound(w, n.a) && FilesSound(n.s)
  {
    var m, t := j.a.reqs[0], Dispatch(j.s, req, fate);
    EventKeepsProtocol(w, j.a, P.OfWorker(P.Serve(Opens(w, m, t), Keeps(w, arts, j, m, t))));
    RequestKeepsSound(j.s, req, fate);
  }

  lemma HeadStaysTied(w: P.World, arts: Carrying, j: Joint, req: Request, fate: Fate)
    requires Tied(w, arts, j) && Enabled(w, arts, j, Head(req, fate))
    ensures Tied(w, arts, Happen(w, arts, j, Head(req, fate)))
  {
    HeadKeepsProtocol(w, arts, j, req, fate);
    HeadKeepsOpen(w, arts, j, req, fate);
    forall k, id ensures Linked(w, arts, Happen(w, arts, j, Head(req, fate)), k, id) {
      assert Linked(w, arts, j, k, id);
      HeadStaysLinked(w, arts, j, req, fate, k, id);
    }
  }

  lemma AckStaysTied(w: P.World, arts: Carrying, j: Joint, job: JobId)
    requires Tied(w, arts, j) && Enabled(w, arts, j, AckJob(job))
    ensures Tied(w, arts, Happen(w, arts, j, AckJob(job)))
  {
    var n := Happen(w, arts, j, AckJob(job));
    EventKeepsProtocol(w, j.a, P.OfCheckpoint(P.AckJob(job)));
    forall k, id ensures Linked(w, arts, n, k, id) {
      assert Linked(w, arts, j, k, id);
      AckStaysLinked(w, arts, j, job, k, id);
    }
  }

  lemma AckStaysLinked(w: P.World, arts: Carrying, j: Joint, job: JobId, k: FileKey, id: int)
    requires Linked(w, arts, j, k, id) && DrainsItsOwn(w, j.a) && Enabled(w, arts, j, AckJob(job))
    ensures Linked(w, arts, Happen(w, arts, j, AckJob(job)), k, id)
  {
    var n := Happen(w, arts, j, AckJob(job));
    if Held(n.s, k, id) && id !in At(n.acked, k) {
      assert n.a.held == j.a.held - Got(j.a, job);
      if k.jobID == job {
        assert id !in At(j.reports, k);
        StillCovered(w, arts, j.a.held - Got(j.a, job), n.a.held, k, id);
        assert Got(n.a, job) == {} && n.a.held - {} == n.a.held;
      } else {
        assert Got(n.a, k.jobID) == Got(j.a, k.jobID);
        forall t | t in j.a.held && w.file(t) == k ensures t in n.a.held {
          assert t in Got(j.a, job) ==> w.Job(t) == job;
        }
        StaysLinked(w, arts, j, n, k, id);
      }
    }
  }

  /** A request that brings nothing, served while the protocol gives up nothing this file holds. */
  lemma ServedAloneStaysLinked(w: P.World, arts: Carrying, j: Joint, n: Joint, req: Request, fate: Fate, k: FileKey, id: int)
    requires Linked(w, arts, j, k, id) && FilesSound(j.s) && !req.Article? && n.s == Dispatch(j.s, req, fate)
    requires n.acked == j.acked && n.reports == j.reports && n.a.checkpoints == j.a.checkpoints
    requires forall t | t in j.a.held && w.file(t) == k && k in n.s.open :: t in n.a.held
    ensures Linked(w, arts, n, k, id)
  {
    if Held(n.s, k, id) {
      if !Held(j.s, k, id) {
        RequestHolds(j.s, req, fate, k, id);
      }
      StaysLinked(w, arts, j, n, k, id);
    }
  }

  lemma ClosingClosesIt(s: Worker, key: FileKey, fate: Fate)
    ensures Dispatch(s, SyncClose(key), fate).open.Keys == s.open.Keys - {key}
  {
  }

  lemma AckFileStaysLinked(w: P.World, arts: Carrying, j: Joint, key: FileKey, k: FileKey, id: int)
    requires key in j.s.open && Linked(w, arts, j, k, id)
    ensures Linked(w, arts, Happen(w, arts, j, AckFile(key)), k, id)
  {
    var n := Happen(w, arts, j, AckFile(key));
    if Held(n.s, k, id) && id !in At(n.acked, k) {
      StaysLinked(w, arts, j, n, k, id);
    }
  }

  lemma FinalizedKeepsProtocol(w: P.World, a: P.State, key: FileKey)
    requires ProtocolSound(w, a)
    ensures var b := P.Working(w, a, P.Finalized(key)); ProtocolSound(w, b) && b.open == a.open
  {
    EventKeepsProtocol(w, a, P.OfWorker(P.Finalized(key)));
  }

  /** What the ack of a file changes: the protocol stands, or gives the file up. */
  lemma AckFileChanges(w: P.World, arts: Carrying, j: Joint, key: FileKey)
    requires key in j.s.open
    ensures var n := Happen(w, arts, j, AckFile(key));
            n.s == j.s && (n.a == j.a || n.a == P.Working(w, j.a, P.Finalized(key)))
  {
  }

  lemma AckFileStaysTied(w: P.World, arts: Carrying, j: Joint, key: FileKey)
    requires Tied(w, arts, j) && Enabled(w, arts, j, AckFile(key))
    ensures Tied(w, arts, Happen(w, arts, j, AckFile(key)))
  {
    AckFileChanges(w, arts, j, key);
    FinalizedKeepsProtocol(w, j.a, key);
    assert AllLinked(w, arts, Happen(w, arts, j, AckFile(key))) by {
      forall k, id ensures Linked(w, arts, Happen(w, arts, j, AckFile(key)), k, id) {
        assert Linked(w, arts, j, k, id);
        AckFileStaysLinked(w, arts, j, key, k, id);
      }
    }
  }

  lemma AloneKeepsOpen(s: Worker, req: Request, fate: Fate)
    requires req.SyncDrain? || req.SyncConfirm? || req.SyncTruncate? || req.SyncFsync? || req.SyncStat? || req.ForgetJob?
    ensures Dispatch(s, req, fate).open.Keys == s.open.Keys
  {
  }

  lemma AloneStaysTied(w: P.World, arts: Carrying, j: Joint, req: Request, fate: Fate)
    requires Tied(w, arts, j) && Enabled(w, arts, j, Alone(req, fate))
    ensures Tied(w, arts, Happen(w, arts, j, Alone(req, fate)))
  {
    RequestKeepsSound(j.s, req, fate);
    assert AllLinked(w, arts, Happen(w, arts, j, Alone(req, fate))) by {
      AloneKeepsOpen(j.s, req, fate);
      forall k, id ensures Linked(w, arts, Happen(w, arts, j, Alone(req, fate)), k, id) {
        assert Linked(w, arts, j, k, id);
        ServedAloneStaysLinked(w, arts, j, Happen(w, arts, j, Alone(req, fate)), req, fate, k, id);
      }
    }
  }

  lemma CloseStaysTied(w: P.World, arts: Carrying, j: Joint, key: FileKey, fate: Fate)
    requires Tied(w, arts, j)
    ensures Tied(w, arts, Happen(w, arts, j, CloseFile(key, fate)))
  {
    var n := Happen(w, arts, j, CloseFile(key, fate));
    RequestKeepsSound(j.s, SyncClose(key), fate);
    ClosingClosesIt(j.s, key, fate);
    EventKeepsProtocol(w, j.a, P.OfWorker(P.CloseFile(key)));
    forall k, id ensures Linked(w, arts, n, k, id) {
      assert Linked(w, arts, j, k, id);
      ServedAloneStaysLinked(w, arts, j, n, SyncClose(key), fate, k, id);
    }
  }

  lemma EndStaysLinked(w: P.World, arts: Carrying, j: Joint, n: Joint, req: Request, fate: Fate, k: FileKey, id: int)
    requires Linked(w, arts, j, k, id) && FilesSound(j.s) && (req.CancelJob? || req.CloseHandles?)
    requires n == j.(s := Dispatch(j.s, req, fate), a := P.Working(w, j.a, P.Retire(req.job)))
    requires k in n.s.open ==> k.jobID != req.job
    ensures Linked(w, arts, n, k, id)
  {
    ServedAloneStaysLinked(w, arts, j, n, req, fate, k, id);
  }

  lemma EndKeepsOpen(w: P.World, j: Joint, req: Request, fate: Fate)
    requires j.a.open == j.s.open.Keys && (req.CancelJob? || req.CloseHandles?) && Possible(j.s, req, fate)
    ensures P.Working(w, j.a, P.Retire(req.job)).open == Dispatch(j.s, req, fate).open.Keys
    ensures forall k | k in Dispatch(j.s, req, fate).open :: k.jobID != req.job
  {
    EndingClosesTheJob(j.s, req, fate);
  }

  lemma EndKeepsLinks(w: P.World, arts: Carrying, j: Joint, n: Joint, req: Request, fate: Fate)
    requires FilesSound(j.s) && AllLinked(w, arts, j) && (req.CancelJob? || req.CloseHandles?)
    requires n == j.(s := Dispatch(j.s, req, fate), a := P.Working(w, j.a, P.Retire(req.job)))
    requires forall k | k in n.s.open :: k.jobID != req.job
    ensures forall k, id :: Linked(w, arts, n, k, id)
  {
    forall k, id ensures Linked(w, arts, n, k, id) {
      assert Linked(w, arts, j, k, id);
      EndStaysLinked(w, arts, j, n, req, fate, k, id);
    }
  }

  lemma EndStaysTied(w: P.World, arts: Carrying, j: Joint, req: Request, fate: Fate)
    requires Tied(w, arts, j) && Enabled(w, arts, j, EndJob(req, fate))
    ensures Tied(w, arts, Happen(w, arts, j, EndJob(req, fate)))
  {
    RequestKeepsSound(j.s, req, fate);
    EventKeepsProtocol(w, j.a, P.OfWorker(P.Retire(req.job)));
    EndKeepsOpen(w, j, req, fate);
    EndKeepsLinks(w, arts, j, Happen(w, arts, j, EndJob(req, fate)), req, fate);
  }

  lemma EventStaysTied(w: P.World, arts: Carrying, j: Joint, e: Event)
    requires Tied(w, arts, j) && Enabled(w, arts, j, e)
    ensures Tied(w, arts, Happen(w, arts, j, e))
  {
    match e
    case Aside(x) => AsideStaysTied(w, arts, j, x);
    case Head(req, fate) => HeadStaysTied(w, arts, j, req, fate);
    case AckJob(job) => AckStaysTied(w, arts, j, job);
    case AckFile(key) => AckFileStaysTied(w, arts, j, key);
    case Alone(req, fate) => AloneStaysTied(w, arts, j, req, fate);
    case CloseFile(key, fate) => CloseStaysTied(w, arts, j, key, fate);
    case EndJob(req, fate) => EndStaysTied(w, arts, j, req, fate);
  }

  lemma {:induction false} CourseIsTied(w: P.World, arts: Carrying, limit: int, events: seq<Event>)
    ensures Tied(w, arts, Course(w, arts, limit, events))
    decreases |events|
  {
    if events == [] {
      ReloadSafety.HistoryIsSound(w, []);
    } else {
      var j := Course(w, arts, limit, events[..|events| - 1]);
      CourseIsTied(w, arts, limit, events[..|events| - 1]);
      if Enabled(w, arts, j, events[|events| - 1]) {
        EventStaysTied(w, arts, j, events[|events| - 1]);
      }
    }
  }

  /**
   * Through every course of the worker, the pipeline, the checkpoints and any number of reloads together:
   * when a reload clears the Emitted bits, no article with bytes of a job it clears that is still downloading
   * is on its way to the worker, buffered by it, or written and waiting for its ack.
   */
  lemma ReloadFindsNothingHeld(w: P.World, arts: Carrying, limit: int, events: seq<Event>, k: FileKey, id: int)
    requires var a := Course(w, arts, limit, events).a;
             a.reload.Cleared? && k.jobID !in a.reload.unsafe && k.jobID !in a.retired + a.tally.overdrawn
    requires forall t | w.file(t) == k && arts(t) == id :: w.len(t) > 0
    ensures var j := Course(w, arts, limit, events);
            && (Held(j.s, k, id) ==> id in At(j.acked, k))
            && forall t | w.file(t) == k && arts(t) == id :: t !in ReloadSafety.UnderWay(j.a)
  {
    var j := Course(w, arts, limit, events);
    CourseIsTied(w, arts, limit, events);
    forall t | w.file(t) == k && arts(t) == id ensures t !in ReloadSafety.UnderWay(j.a) {
      assert w.Job(t) == k.jobID;
      ReloadSafety.NothingUnderWay(w, j.a, t);
    }
    assert Linked(w, arts, j, k, id);
    NothingCovers(w, arts, j.a, k, id);
  }

  lemma NothingCovers(w: P.World, arts: Carrying, a: P.State, k: FileKey, id: int)
    requires ProtocolSound(w, a) && a.reload.Cleared? && k.jobID !in a.reload.unsafe && k.jobID !in a.retired + a.tally.overdrawn
    requires forall t | w.file(t) == k && arts(t) == id :: w.len(t) > 0
    ensures !Covered(w, arts, a.held, k, id)
  {
    forall t | w.file(t) == k && arts(t) == id ensures t !in a.held {
      assert w.Job(t) == k.jobID && (t in a.held ==> t in P.AtRiskNow(a));
    }
  }
}
